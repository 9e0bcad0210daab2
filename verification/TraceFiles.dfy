/** The bounded trace log: a live file, numbered backups, and how they are repacked. */
module TraceFiles {
  /** One line of a trace file with its size in bytes, and whether it parses. */
  datatype Record = Record(line: string, bytes: nat, valid: bool)

  type File = seq<Record>

  /** Backup `k` is `backups[k - 1]`; a file that does not exist is empty. */
  datatype Files = Files(live: File, backups: seq<File>)

  function Bytes(f: File): nat {
    if f == [] then 0 else Bytes(f[..|f| - 1]) + f[|f| - 1].bytes
  }

  lemma {:induction false} BytesConcat(a: File, b: File)
    ensures Bytes(a + b) == Bytes(a) + Bytes(b)
  {
    if b == [] {
      assert a + b == a;
    } else {
      assert (a + b)[..|a + b| - 1] == a + b[..|b| - 1];
      BytesConcat(a, b[..|b| - 1]);
    }
  }

  // ---------------------------------------------------------------------------
  // Rotation
  // ---------------------------------------------------------------------------

  /** Shift every backup by one; the oldest of the first `count` is lost. */
  function Rotated(files: Files, count: nat): Files
    requires |files.backups| >= count
  {
    if count == 0 then files.(live := [])
    else Files([], [files.live] + files.backups[..count - 1] + files.backups[count..])
  }

  function AppendOne(files: Files, record: Record, max: nat, count: nat): (r: Files)
    requires |files.backups| >= count
    ensures |r.backups| == |files.backups|
  {
    var size := Bytes(files.live);
    var ready := if size > 0 && size + record.bytes > max then Rotated(files, count) else files;
    ready.(live := ready.live + [record])
  }

  function AppendAll(files: Files, records: File, max: nat, count: nat): (r: Files)
    requires |files.backups| >= count
    ensures |r.backups| == |files.backups|
  {
    if records == [] then files
    else AppendOne(AppendAll(files, records[..|records| - 1], max, count), records[|records| - 1], max, count)
  }

  /** The first `k` backups, oldest first. */
  function Oldest(backups: seq<File>, k: nat): File
    requires k <= |backups|
  {
    if k == 0 then [] else backups[k - 1] + Oldest(backups, k - 1)
  }

  /** All records on disk, oldest first, reading `count` backups. */
  function Log(files: Files, count: nat): File
    requires count <= |files.backups|
  {
    Oldest(files.backups, count) + files.live
  }

  ghost predicate Suffix<T>(s: seq<T>, of: seq<T>) {
    |s| <= |of| && s == of[|of| - |s|..]
  }

  ghost predicate Bounded(f: File, max: nat) {
    Bytes(f) <= max || |f| <= 1
  }

  /** The first record of `newer` would not have fitted into `older`. */
  ghost predicate Tight(older: File, newer: File, max: nat) {
    older != [] && newer != [] ==> Bytes(older) + newer[0].bytes > max
  }

  ghost function FileAt(files: Files, k: nat): File
    requires k <= |files.backups|
  {
    if k == 0 then files.live else files.backups[k - 1]
  }

  /**
   * The files hold a suffix of the history, each within the size limit unless it holds
   * a single record, and no file was closed while the next record still fitted.
   */
  ghost predicate Faithful(files: Files, history: File, max: nat, count: nat) {
    && |files.backups| >= count
    && Suffix(Log(files, count), history)
    && (forall k :: 0 <= k <= count ==> Bounded(FileAt(files, k), max))
    && (forall k :: 0 <= k < count ==> Tight(FileAt(files, k + 1), FileAt(files, k), max))
  }

  lemma {:induction false} OldestShift(b: seq<File>, live: File, rest: seq<File>, k: nat)
    requires k <= |b|
    ensures Oldest([live] + b + rest, k + 1) == Oldest(b, k) + live
  {
    var s := [live] + b + rest;
    if k == 0 {
      assert Oldest(s, 1) == s[0] + Oldest(s, 0);
    } else {
      OldestShift(b, live, rest, k - 1);
      assert s[k] == b[k - 1];
      assert b[k - 1] + (Oldest(b, k - 1) + live) == b[k - 1] + Oldest(b, k - 1) + live;
    }
  }

  lemma {:induction false} OldestOfPrefix(b: seq<File>, n: nat, k: nat)
    requires k <= n <= |b|
    ensures Oldest(b[..n], k) == Oldest(b, k)
  {
    if k > 0 { OldestOfPrefix(b, n, k - 1); }
  }

  lemma {:induction false} RotationDropsOldest(files: Files, count: nat)
    requires 0 < count <= |files.backups|
    ensures Log(files, count) == files.backups[count - 1] + Log(Rotated(files, count), count)
  {
    var b := files.backups[..count - 1];
    OldestShift(b, files.live, files.backups[count..], count - 1);
    OldestOfPrefix(files.backups, count - 1, count - 1);
  }

  lemma {:induction false} RotationKeepsFaithful(files: Files, history: File, max: nat, count: nat)
    requires Faithful(files, history, max, count)
    ensures Faithful(Rotated(files, count), history, max, count)
    ensures count > 0 ==> Rotated(files, count).backups[0] == files.live
  {
    var r := Rotated(files, count);
    if count == 0 {
      assert Log(r, 0) == [];
    } else {
      RotationDropsOldest(files, count);
      assert forall k :: 1 <= k <= count ==> FileAt(r, k) == FileAt(files, k - 1);
      forall k | 0 <= k < count ensures Tight(FileAt(r, k + 1), FileAt(r, k), max) {
        if k > 0 { assert Tight(FileAt(files, k), FileAt(files, k - 1), max); }
      }
    }
  }

  lemma {:induction false} WriteKeepsFaithful(files: Files, history: File, record: Record, max: nat, count: nat)
    requires Faithful(files, history, max, count)
    requires Bytes(files.live) == 0 || Bytes(files.live) + record.bytes <= max
    requires count > 0 && files.live == [] && files.backups[0] != [] ==> Bytes(files.backups[0]) + record.bytes > max
    requires files.live != [] ==> Bytes(files.live) > 0
    ensures Faithful(files.(live := files.live + [record]), history + [record], max, count)
  {
    var r := files.(live := files.live + [record]);
    assert Log(r, count) == Log(files, count) + [record];
    assert r.live[..|r.live| - 1] == files.live;
    forall k | 0 <= k <= count ensures Bounded(FileAt(r, k), max) {
      assert Bounded(FileAt(files, k), max);
    }
    forall k | 0 <= k < count ensures Tight(FileAt(r, k + 1), FileAt(r, k), max) {
      assert Tight(FileAt(files, k + 1), FileAt(files, k), max);
    }
  }

  /** Records are never empty: each is at least its newline. */
  ghost predicate Nonempty(f: File) {
    forall k :: 0 <= k < |f| ==> f[k].bytes > 0
  }

  lemma {:induction false} NonemptyBytes(f: File)
    requires Nonempty(f) && f != []
    ensures Bytes(f) > 0
  {
  }

  /** Either the live file is new, or nothing was rotated out just now. */
  ghost predicate Settled(files: Files, count: nat) {
    |files.backups| >= count && (count > 0 && files.live == [] ==> files.backups[0] == [])
  }

  lemma {:induction false} AppendKeepsFaithful(files: Files, history: File, record: Record, max: nat, count: nat)
    requires Faithful(files, history, max, count) && Settled(files, count)
    requires Nonempty(files.live) && record.bytes > 0
    ensures
      var r := AppendOne(files, record, max, count);
      Faithful(r, history + [record], max, count) && Settled(r, count) && Nonempty(r.live)
  {
    if files.live != [] { NonemptyBytes(files.live); }
    var size := Bytes(files.live);
    if size > 0 && size + record.bytes > max {
      RotationKeepsFaithful(files, history, max, count);
      WriteKeepsFaithful(Rotated(files, count), history, record, max, count);
    } else {
      WriteKeepsFaithful(files, history, record, max, count);
    }
  }

  lemma {:induction false} HistoryGrows(history: File, records: File)
    ensures records == [] ==> history + records == history
    ensures records != [] ==>
      history + records[..|records| - 1] + [records[|records| - 1]] == history + records
  {
  }

  /**
   * The rotation invariant over every run of appends, from files that satisfy it: what
   * is on disk stays a suffix of everything ever appended.
   */
  lemma {:induction false} AppendsStayFaithful(files: Files, history: File, records: File, max: nat, count: nat)
    requires Faithful(files, history, max, count) && Settled(files, count)
    requires Nonempty(files.live) && Nonempty(records)
    ensures
      var r := AppendAll(files, records, max, count);
      Faithful(r, history + records, max, count) && Settled(r, count) && Nonempty(r.live)
    decreases |records|
  {
    HistoryGrows(history, records);
    if records != [] {
      var before, last := records[..|records| - 1], records[|records| - 1];
      AppendsStayFaithful(files, history, before, max, count);
      AppendKeepsFaithful(AppendAll(files, before, max, count), history + before, last, max, count);
    }
  }

  /** Nothing is lost while the oldest backup is unused. */
  lemma {:induction false} NothingLostEarly(files: Files, record: Record, max: nat, count: nat)
    requires 0 < count <= |files.backups| && files.backups[count - 1] == []
    ensures Log(AppendOne(files, record, max, count), count) == Log(files, count) + [record]
  {
    RotationDropsOldest(files, count);
    var rotated := Rotated(files, count);
    assert Log(rotated.(live := rotated.live + [record]), count) == Log(rotated, count) + [record];
    assert Log(files.(live := files.live + [record]), count) == Log(files, count) + [record];
    assert [] + Log(rotated, count) == Log(rotated, count);
  }

  function FreshFiles(count: nat): Files {
    Files([], seq(count, _ => []))
  }

  lemma {:induction false} OldestOfFresh(count: nat, k: nat)
    requires k <= count
    ensures Oldest(FreshFiles(count).backups, k) == []
  {
    if k > 0 { OldestOfFresh(count, k - 1); }
  }

  /** From no files at all: the log is a suffix of the appended records, in files of bounded size. */
  lemma {:induction false} FreshLogIsSuffix(records: File, max: nat, count: nat)
    requires Nonempty(records)
    ensures Faithful(AppendAll(FreshFiles(count), records, max, count), records, max, count)
  {
    OldestOfFresh(count, count);
    AppendsStayFaithful(FreshFiles(count), [], records, max, count);
    assert [] + records == records;
  }

  /**
   * A record that no longer fits the live file opens a new one: the others move up by one number, and
   * the oldest is dropped. Any other record, and the first one of a file, is appended.
   */
  lemma {:induction false} WhenFilesRotate(files: Files, record: Record, max: nat, count: nat)
    requires |files.backups| >= count
    ensures
      var after := AppendOne(files, record, max, count);
      if Bytes(files.live) > 0 && Bytes(files.live) + record.bytes > max then
        && after.live == [record]
        && (count > 0 ==> after.backups[0] == files.live)
        && (forall k :: 0 < k < count ==> after.backups[k] == files.backups[k - 1])
        && (forall k :: count <= k < |files.backups| ==> after.backups[k] == files.backups[k])
      else after == Files(files.live + [record], files.backups)
  {
  }
}
