/** `JsonlTrace`: appending with rotation, and maintenance. */
module Trace {
  import opened TraceFiles
  import opened Repacking

  datatype Report = Report(
    recordsBefore: nat, recordsAfter: nat, invalidRemoved: nat, bytesBefore: nat, bytesAfter: nat)

  /** The newest chunk becomes the live file and the others become backups; every other file is gone. */
  function Placed(chunks: seq<File>, count: nat): (files: Files)
    ensures |files.backups| == count
  {
    Files(
      if chunks == [] then [] else chunks[0],
      seq(count, i requires 0 <= i < count => if i + 1 < |chunks| then chunks[i + 1] else []))
  }

  /** Every record on disk, oldest first, whatever number its backup has. */
  function Everything(files: Files): File {
    Log(files, |files.backups|)
  }

  /** What the live file and its backups hold together. */
  function Capacity(max: nat, count: nat): nat { max * (count + 1) }

  function RepackWindow(files: Files, capacity: nat): File {
    Window(Valid(Everything(files)), capacity)
  }

  function RepackedTo(files: Files, max: nat, count: nat, capacity: nat): Files {
    Placed(First(Pack(RepackWindow(files, capacity), max), count + 1), count)
  }

  function Repacked(files: Files, max: nat, count: nat): Files {
    RepackedTo(files, max, count, Capacity(max, count))
  }

  /** The chunks after the newest, up to number `k`. */
  function UpTo(chunks: seq<File>, k: nat): seq<File> {
    if chunks == [] then [] else if k < |chunks| then chunks[1..k + 1] else chunks[1..]
  }

  /** Reading backups one by one computes what grows by them one by one. */
  lemma {:induction false} OldestGrows(backups: seq<File>, log: nat -> File, k: nat)
    requires k <= |backups| && log(0) == []
    requires forall i: nat :: 0 < i <= |backups| ==> log(i) == backups[i - 1] + log(i - 1)
    ensures Oldest(backups, k) == log(k)
  {
    if k > 0 { OldestGrows(backups, log, k - 1); }
  }

  lemma {:induction false} OneMoreChunk(chunks: seq<File>, k: nat)
    requires k > 0
    ensures Unpack(UpTo(chunks, k)) == (if k < |chunks| then chunks[k] else []) + Unpack(UpTo(chunks, k - 1))
  {
    if k < |chunks| {
      assert UpTo(chunks, k) == UpTo(chunks, k - 1) + [chunks[k]];
      UnpackAppend(UpTo(chunks, k - 1), chunks[k]);
    } else {
      assert UpTo(chunks, k) == UpTo(chunks, k - 1);
    }
  }

  lemma {:induction false} UnpackAppend(chunks: seq<File>, chunk: File)
    ensures Unpack(chunks + [chunk]) == chunk + Unpack(chunks)
  {
    if chunks == [] {
      assert Unpack([chunk]) == Unpack([]) + chunk;
    } else {
      assert (chunks + [chunk])[1..] == chunks[1..] + [chunk];
      UnpackAppend(chunks[1..], chunk);
      assert chunk + Unpack(chunks[1..]) + chunks[0] == chunk + (Unpack(chunks[1..]) + chunks[0]);
    }
  }

  /** Reading the placed files back gives the chunks in the order of their records. */
  lemma {:induction false} PlacedLog(chunks: seq<File>, count: nat)
    requires |chunks| <= count + 1
    ensures Log(Placed(chunks, count), count) == Unpack(chunks)
  {
    var backups, log := Placed(chunks, count).backups, (k: nat) => Unpack(UpTo(chunks, k));
    forall i: nat | 0 < i <= count ensures log(i) == backups[i - 1] + log(i - 1) {
      OneMoreChunk(chunks, i);
    }
    NoMoreChunks(chunks, count);
    OldestGrows(backups, log, count);
  }

  lemma {:induction false} NoMoreChunks(chunks: seq<File>, count: nat)
    requires |chunks| <= count + 1
    ensures Unpack(UpTo(chunks, 0)) == []
    ensures Unpack(chunks) == Unpack(UpTo(chunks, count)) + if chunks == [] then [] else chunks[0]
  {
    assert UpTo(chunks, 0) == [];
    if chunks != [] { assert UpTo(chunks, count) == chunks[1..]; }
  }

  lemma {:induction false} RepackedLog(files: Files, max: nat, count: nat, capacity: nat)
    ensures Log(RepackedTo(files, max, count, capacity), count) == Kept(RepackWindow(files, capacity), max, count + 1)
  {
    PlacedLog(First(Pack(RepackWindow(files, capacity), max), count + 1), count);
  }

  /**
   * Maintenance keeps, of the valid records on disk, the longest suffix that fits into
   * the live file and its backups.
   */
  lemma {:induction false} MaintenanceIsOptimal(files: Files, max: nat, count: nat, s: File)
    requires Small(Everything(files), max)
    ensures
      var records, kept := Valid(Everything(files)), Log(Repacked(files, max, count), count);
      && Suffix(kept, records) && Cuttable(kept, max, count + 1)
      && (Suffix(s, records) && Cuttable(s, max, count + 1) ==> |s| <= |kept|)
  {
    ValidAreSmall(Everything(files), max);
    RepackedLog(files, max, count, Capacity(max, count));
    RepackKeepsTheMost(Valid(Everything(files)), max, count + 1, Capacity(max, count), s);
  }

  lemma {:induction false} WindowIsSmall(records: File, limit: nat, max: nat)
    requires Small(records, max) && forall k :: 0 <= k < |records| ==> records[k].valid
    ensures Small(Window(records, limit), max)
    ensures forall k :: 0 <= k < |Window(records, limit)| ==> Window(records, limit)[k].valid
  {
  }

  lemma {:induction false} KeptIsValid(w: File, max: nat, n: nat)
    requires Small(w, max) && forall k :: 0 <= k < |w| ==> w[k].valid
    ensures Valid(Kept(w, max, n)) == Kept(w, max, n)
  {
    KeptFits(w, max, n);
    AllValid(Kept(w, max, n));
  }

  lemma {:induction false} LogIsEverything(chunks: seq<File>, count: nat)
    ensures Everything(Placed(chunks, count)) == Log(Placed(chunks, count), count)
  {
  }

  /** The window of a second repack is what the first one kept. */
  lemma {:induction false} SecondWindow(files: Files, max: nat, count: nat, capacity: nat)
    requires Small(Everything(files), max) && capacity == max * (count + 1)
    ensures RepackWindow(RepackedTo(files, max, count, capacity), capacity) ==
            Kept(RepackWindow(files, capacity), max, count + 1)
  {
    var w := RepackWindow(files, capacity);
    SmallWindow(files, max, capacity);
    RepackedLog(files, max, count, capacity);
    LogIsEverything(First(Pack(w, max), count + 1), count);
    KeptIsValid(w, max, count + 1);
    KeptIsItsWindow(w, max, count + 1, capacity);
  }

  lemma {:induction false} SmallWindow(files: Files, max: nat, capacity: nat)
    requires Small(Everything(files), max)
    ensures Small(RepackWindow(files, capacity), max)
    ensures forall k :: 0 <= k < |RepackWindow(files, capacity)| ==> RepackWindow(files, capacity)[k].valid
  {
    ValidAreSmall(Everything(files), max);
    WindowIsSmall(Valid(Everything(files)), capacity, max);
  }

  lemma {:induction false} SamePlaces(a: Files, b: Files, max: nat, count: nat, capacity: nat)
    requires First(Pack(RepackWindow(a, capacity), max), count + 1) ==
             First(Pack(RepackWindow(b, capacity), max), count + 1)
    ensures RepackedTo(a, max, count, capacity) == RepackedTo(b, max, count, capacity)
  {
  }

  /** A second maintenance changes no file. */
  lemma {:induction false} MaintenanceIsIdempotent(files: Files, max: nat, count: nat)
    requires Small(Everything(files), max)
    ensures Repacked(Repacked(files, max, count), max, count) == Repacked(files, max, count)
  {
    var capacity := Capacity(max, count);
    SmallWindow(files, max, capacity);
    RepackTwice(RepackWindow(files, capacity), max, count + 1, capacity);
    SecondWindow(files, max, count, capacity);
    SamePlaces(Repacked(files, max, count), files, max, count, capacity);
  }

  lemma {:induction false} KeptAll(w: File, max: nat, n: nat)
    ensures |Kept(w, max, n)| == |w| <==> |Pack(w, max)| <= n
    ensures |Kept(w, max, n)| <= |w|
    decreases |w|
  {
    if w == [] || n == 0 {
      NothingKept(w, max, n);
    } else {
      var p := Start(w, max);
      FirstChunk(w, max, n);
      PackOf(w, max);
      KeptAll(w[..p], max, n - 1);
    }
  }

  /** The reported number of records is what is on disk exactly when packing needs no more files than there are. */
  lemma {:induction false} ReportIsExactWhenChunksFit(files: Files, max: nat, count: nat)
    ensures
      var window := RepackWindow(files, Capacity(max, count));
      |window| == |Log(Repacked(files, max, count), count)| <==> |Pack(window, max)| <= count + 1
  {
    var capacity := Capacity(max, count);
    RepackedLog(files, max, count, capacity);
    KeptAll(RepackWindow(files, capacity), max, count + 1);
  }

  /** Three records of 2 bytes fit the total of two files of 3 bytes, but need three files. */
  lemma {:induction false} ReportMayOverstate(r: Record)
    requires r.bytes == 2
    ensures |Window([r, r, r], 3 * 2)| == 3 && |Pack(Window([r, r, r], 3 * 2), 3)| > 2
  {
    var w := [r, r, r];
    var two, one := w[..2], w[..2][..1];
    assert one[..0] == [];
    assert Bytes(one) == 2 && Bytes(two) == 4 && Bytes(w) == 6;
    WholeWindow(w, 6);
    ChunkOfOne(w, 3);
    ChunkOfOne(two, 3);
    ChunkOfOne(one, 3);
    assert |Pack(one, 3)| >= 1;
    assert |Pack(two, 3)| == 1 + |Pack(one, 3)| && |Pack(w, 3)| == 1 + |Pack(two, 3)|;
  }

  lemma {:induction false} ChunkOfOne(w: File, max: nat)
    requires w != [] && (|w| == 1 || w[|w| - 2].bytes + w[|w| - 1].bytes > max)
    ensures Start(w, max) == |w| - 1
  {
    if |w| > 1 {
      DropLess(w, |w| - 2);
      DropLess(w, |w| - 1);
    }
  }

  // ---------------------------------------------------------------------------
  // The trace object
  // ---------------------------------------------------------------------------

  class JsonlTrace {
    const maxBytes: nat
    const backupCount: nat
    var live: File
    var backups: seq<File>

    ghost predicate Valid()
      reads this
    {
      |backups| >= backupCount
    }

    ghost function View(): Files
      reads this
    {
      Files(live, backups)
    }

    constructor (maxBytes: nat, backupCount: nat)
      ensures Valid() && View() == FreshFiles(backupCount)
      ensures this.maxBytes == maxBytes && this.backupCount == backupCount
    {
      this.maxBytes := maxBytes;
      this.backupCount := backupCount;
      live := [];
      backups := seq(backupCount, _ => []);
    }

    /** `_rotate`: move every file that exists to the next number, oldest first. */
    method Rotate()
      requires Valid()
      modifies this
      ensures Valid() && View() == Rotated(old(View()), backupCount)
    {
      if backupCount == 0 {
        live := [];
        return;
      }
      ghost var before := backups;
      backups := backups[backupCount - 1 := []];
      var index := backupCount - 1;
      while index > 0
        invariant 0 <= index < backupCount <= |backups| == |before|
        invariant live == old(live)
        invariant forall k :: 0 <= k < index ==> backups[k] == before[k]
        invariant backups[index] == []
        invariant forall k :: index < k < backupCount ==> backups[k] == before[k - 1]
        invariant forall k :: backupCount <= k < |backups| ==> backups[k] == before[k]
      {
        if backups[index - 1] != [] {
          backups := backups[index := backups[index - 1]][index - 1 := []];
        }
        index := index - 1;
      }
      backups := backups[0 := live];
      live := [];
      assert backups == [old(live)] + before[..backupCount - 1] + before[backupCount..];
    }

    method AppendRecord(record: Record)
      requires Valid()
      modifies this
      ensures Valid() && View() == AppendOne(old(View()), record, maxBytes, backupCount)
    {
      var currentSize := FileSize(live);
      if currentSize > 0 && currentSize + record.bytes > maxBytes {
        Rotate();
      }
      live := live + [record];
    }

    method AppendMany(records: File)
      requires Valid()
      modifies this
      ensures Valid() && View() == AppendAll(old(View()), records, maxBytes, backupCount)
    {
      for i := 0 to |records|
        invariant Valid() && View() == AppendAll(old(View()), records[..i], maxBytes, backupCount)
      {
        AppendAllNext(old(View()), records, i, maxBytes, backupCount);
        AppendRecord(records[i]);
      }
      assert records[..|records|] == records;
    }

    /** Write the newest chunk to the live file and the others to backups, and remove every other file. */
    method Place(chunks: seq<File>)
      modifies this
      ensures Valid() && View() == Placed(chunks, backupCount)
    {
      live := if chunks == [] then [] else chunks[0];
      backups := seq(backupCount, i requires 0 <= i < backupCount => if i + 1 < |chunks| then chunks[i + 1] else []);
    }

    /** `maintenance`: repack the valid records newest first; a dry run only reports. */
    method Maintenance(dryRun: bool) returns (report: Report)
      requires Valid()
      modifies this
      ensures Valid()
      ensures View() == if dryRun then old(View()) else Repacked(old(View()), maxBytes, backupCount)
      ensures
        var records, window := Everything(old(View())), RepackWindow(old(View()), Capacity(maxBytes, backupCount));
        report == Report(|records|, |window|, Invalid(records), Bytes(records), Bytes(window))
    {
      var capacity := Capacity(maxBytes, backupCount);
      var records := ReadAll(backups, live);
      ghost var files := View();
      var kept, valid, invalid, keptBytes := Slide(records, capacity);
      report := Report(valid + invalid, |kept|, invalid, FileSize(records), keptBytes);
      CountsAddUp(records);
      if dryRun {
        return;
      }
      var chunks := PackChunks(kept, maxBytes);
      if |chunks| > backupCount + 1 {
        chunks := chunks[..backupCount + 1];
      }
      Place(chunks);
    }
  }

  lemma {:induction false} AppendAllNext(files: Files, records: File, i: nat, max: nat, count: nat)
    requires i < |records| && |files.backups| >= count
    ensures AppendAll(files, records[..i + 1], max, count) ==
            AppendOne(AppendAll(files, records[..i], max, count), records[i], max, count)
  {
    assert records[..i + 1][..i] == records[..i];
  }

  function FileSize(f: File): (n: nat)
    ensures n == Bytes(f)
  {
    Bytes(f)
  }

  lemma {:induction false} CountsAddUp(records: File)
    ensures |Valid(records)| + Invalid(records) == |records|
  {
    if records != [] { CountsAddUp(records[..|records| - 1]); }
  }

  method ReadAll(backups: seq<File>, live: File) returns (records: File)
    ensures records == Log(Files(live, backups), |backups|)
  {
    records := [];
    var k := |backups|;
    while k > 0
      invariant 0 <= k <= |backups|
      invariant records + Oldest(backups, k) == Oldest(backups, |backups|)
    {
      assert records + backups[k - 1] + Oldest(backups, k - 1) == records + (backups[k - 1] + Oldest(backups, k - 1));
      records := records + backups[k - 1];
      k := k - 1;
    }
    assert records + [] == records;
    records := records + live;
  }

  /** The sliding window over the valid records. */
  method Slide(records: File, capacity: nat) returns (kept: File, valid: nat, invalid: nat, keptBytes: nat)
    ensures kept == Window(Valid(records), capacity) && keptBytes == Bytes(kept)
    ensures valid == |Valid(records)| && invalid == Invalid(records)
  {
    kept, valid, invalid, keptBytes := [], 0, 0, 0;
    for i := 0 to |records|
      invariant kept == Window(Valid(records[..i]), capacity) && keptBytes == Bytes(kept)
      invariant valid == |Valid(records[..i])| && invalid == Invalid(records[..i])
    {
      assert records[..i + 1][..i] == records[..i];
      if !records[i].valid {
        invalid := invalid + 1;
        assert Valid(records[..i]) + [] == Valid(records[..i]);
        continue;
      }
      WindowGrows(Valid(records[..i]), capacity, records[i]);
      valid := valid + 1;
      kept, keptBytes := PushAndTrim(kept, keptBytes, records[i], capacity);
    }
    assert records[..|records|] == records;
  }

  /** Trimming has dropped the first `p` records, none of which are in the window. */
  ghost predicate Trimming(all: File, capacity: nat, p: nat, kept: File, size: nat) {
    0 <= p < |all| && kept == all[p..] && size == Bytes(kept) && p <= Start(all, capacity)
  }

  lemma {:induction false} TrimmingDrops(all: File, capacity: nat, p: nat, kept: File, size: nat)
    requires Trimming(all, capacity, p, kept, size) && |kept| > 1 && size > capacity
    ensures size >= kept[0].bytes && Trimming(all, capacity, p + 1, kept[1..], size - kept[0].bytes)
  {
    DropLess(all, p);
    StartFromFitsOrAlone(all, capacity, |all| - 1);
  }

  lemma {:induction false} TrimmingEnds(all: File, capacity: nat, p: nat, kept: File, size: nat)
    requires Trimming(all, capacity, p, kept, size) && (|kept| <= 1 || size <= capacity)
    ensures kept == Window(all, capacity)
  {
    if size <= capacity { WindowIsLongest(all, capacity, p); }
  }

  method PushAndTrim(window: File, windowBytes: nat, record: Record, capacity: nat) returns (kept: File, keptBytes: nat)
    requires windowBytes == Bytes(window)
    ensures kept == Window(window + [record], capacity) && keptBytes == Bytes(kept)
  {
    ghost var all, p := window + [record], 0;
    assert all[..|all| - 1] == window && all[0..] == all;
    kept, keptBytes := window + [record], windowBytes + record.bytes;
    while |kept| > 1 && keptBytes > capacity
      invariant Trimming(all, capacity, p, kept, keptBytes)
      decreases |kept|
    {
      TrimmingDrops(all, capacity, p, kept, keptBytes);
      keptBytes := keptBytes - kept[0].bytes;
      kept := kept[1..];
      p := p + 1;
    }
    TrimmingEnds(all, capacity, p, kept, keptBytes);
  }

  /** Whether the chunk `f[q..end]` takes one more record is what decides where its greedy start is. */
  lemma {:induction false} GrowChunk(f: File, max: nat, q: nat, end: nat)
    requires 0 < q < end <= |f|
    requires StartFrom(f[..end], max, q) == Start(f[..end], max)
    ensures
      if f[q - 1].bytes + Bytes(f[q..end]) > max then Start(f[..end], max) == q
      else StartFrom(f[..end], max, q - 1) == Start(f[..end], max)
  {
    DropLess(f[..end], q - 1);
    assert f[..end][q..] == f[q..end];
  }

  lemma {:induction false} PrependBytes(f: File, q: nat, end: nat)
    requires 0 < q <= end <= |f|
    ensures [f[q - 1]] + f[q..end] == f[q - 1..end]
    ensures Bytes(f[q - 1..end]) == f[q - 1].bytes + Bytes(f[q..end])
  {
    assert [f[q - 1]] + f[q..end] == f[q - 1..end];
    BytesConcat([f[q - 1]], f[q..end]);
    assert [f[q - 1]][..0] == [];
  }

  /** Packing has closed the chunks from `end` on, and has `f[q..end]` in the open one. */
  ghost predicate Packing(f: File, max: nat, chunks: seq<File>, q: nat, end: nat, current: File, size: nat) {
    && q <= end <= |f|
    && current == f[q..end] && size == Bytes(current)
    && Pack(f, max) == chunks + Pack(f[..end], max)
    && (q < end ==> StartFrom(f[..end], max, q) == Start(f[..end], max))
  }

  lemma {:induction false} PackingBegins(f: File, max: nat)
    ensures Packing(f, max, [], |f|, |f|, [], 0)
  {
    assert f[..|f|] == f && f[|f|..|f|] == [];
  }

  lemma {:induction false} PackingAdds(
    f: File, max: nat, chunks: seq<File>, q: nat, end: nat, current: File, size: nat)
    requires Packing(f, max, chunks, q, end, current, size) && q > 0
    requires current != [] ==> size + f[q - 1].bytes <= max
    ensures Packing(f, max, chunks, q - 1, end, [f[q - 1]] + current, f[q - 1].bytes + size)
  {
    PrependBytes(f, q, end);
    if current != [] { GrowChunk(f, max, q, end); }
  }

  lemma {:induction false} PackingCloses(
    f: File, max: nat, chunks: seq<File>, q: nat, end: nat, current: File, size: nat)
    requires Packing(f, max, chunks, q, end, current, size) && current != []
    requires q == 0 || size + f[q - 1].bytes > max
    ensures Packing(f, max, chunks + [current], q, q, [], 0)
  {
    if q > 0 { GrowChunk(f, max, q, end); }
    assert f[q..q] == [];
    CloseChunk(f, max, q, end, chunks);
  }

  lemma {:induction false} PackingEnds(f: File, max: nat, chunks: seq<File>, end: nat, current: File, size: nat)
    requires Packing(f, max, chunks, 0, end, current, size) && current == []
    ensures chunks == Pack(f, max)
  {
    assert |f[0..end]| == end && f[..0] == [];
    assert chunks + [] == chunks;
  }

  /** Greedy packing, newest record first. */
  method PackChunks(kept: File, max: nat) returns (chunks: seq<File>)
    ensures chunks == Pack(kept, max)
  {
    chunks := [];
    var current: File, currentBytes: nat, q: nat := [], 0, |kept|;
    ghost var end: nat := |kept|;
    PackingBegins(kept, max);
    while q > 0
      invariant q <= |kept| && Packing(kept, max, chunks, q, end, current, currentBytes)
    {
      var record := kept[q - 1];
      if current != [] && currentBytes + record.bytes > max {
        PackingCloses(kept, max, chunks, q, end, current, currentBytes);
        chunks := chunks + [current];
        current, currentBytes := [], 0;
        end := q;
      }
      PackingAdds(kept, max, chunks, q, end, current, currentBytes);
      current := [record] + current;
      currentBytes := record.bytes + currentBytes;
      q := q - 1;
    }
    if current != [] {
      PackingCloses(kept, max, chunks, 0, end, current, currentBytes);
      chunks := chunks + [current];
      current, currentBytes, end := [], 0, 0;
    }
    PackingEnds(kept, max, chunks, end, current, currentBytes);
  }

  lemma {:induction false} CloseChunk(kept: File, max: nat, q: nat, end: nat, chunks: seq<File>)
    requires q < end <= |kept| && Start(kept[..end], max) == q
    requires Pack(kept, max) == chunks + Pack(kept[..end], max)
    ensures Pack(kept, max) == chunks + [kept[q..end]] + Pack(kept[..q], max)
  {
    assert kept[..end][q..] == kept[q..end] && kept[..end][..q] == kept[..q];
    assert chunks + ([kept[q..end]] + Pack(kept[..q], max)) == chunks + [kept[q..end]] + Pack(kept[..q], max);
  }
}
