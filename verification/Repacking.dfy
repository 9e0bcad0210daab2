/** Which records a repack keeps, and that no other choice keeps more. */
module Repacking {
  import opened TraceFiles
  import opened Sequences

  function Valid(records: File): File {
    if records == [] then []
    else Valid(records[..|records| - 1]) + if records[|records| - 1].valid then [records[|records| - 1]] else []
  }

  function Invalid(records: File): nat {
    if records == [] then 0
    else Invalid(records[..|records| - 1]) + if records[|records| - 1].valid then 0 else 1
  }

  // ---------------------------------------------------------------------------
  // The longest suffix within a limit
  // ---------------------------------------------------------------------------

  /**
   * Where the longest suffix of `f` of at most `limit` bytes begins; a last record that is too
   * big counts as fitting.
   */
  function Start(f: File, limit: nat): (p: nat)
    requires f != []
    ensures p < |f|
  {
    StartFrom(f, limit, |f| - 1)
  }

  function StartFrom(f: File, limit: nat, p: nat): (q: nat)
    requires p < |f|
    ensures q <= p
  {
    if p == 0 || Bytes(f[p - 1..]) > limit then p else StartFrom(f, limit, p - 1)
  }

  function Window(f: File, limit: nat): File {
    if f == [] then [] else f[Start(f, limit)..]
  }

  lemma {:induction false} DropLess(f: File, p: nat)
    requires p < |f|
    ensures Bytes(f[p..]) == f[p].bytes + Bytes(f[p + 1..])
  {
    assert f[p..] == [f[p]] + f[p + 1..];
    BytesConcat([f[p]], f[p + 1..]);
    assert [f[p]][..0] == [];
  }

  lemma {:induction false} BytesMonotone(f: File, p: nat, q: nat)
    requires p <= q <= |f|
    ensures Bytes(f[p..]) >= Bytes(f[q..])
    decreases q - p
  {
    if p < q {
      DropLess(f, p);
      BytesMonotone(f, p + 1, q);
    }
  }

  lemma {:induction false} StartFromIsLongest(f: File, limit: nat, p: nat, k: nat)
    requires p < |f| && k <= p && Bytes(f[k..]) <= limit
    ensures StartFrom(f, limit, p) <= k
  {
    if p > k {
      BytesMonotone(f, k, p - 1);
      StartFromIsLongest(f, limit, p - 1, k);
    }
  }

  lemma {:induction false} StartFromFits(f: File, limit: nat, p: nat)
    requires p < |f|
    requires Bytes(f[p..]) <= limit
    ensures Bytes(f[StartFrom(f, limit, p)..]) <= limit
  {
    if p > 0 && Bytes(f[p - 1..]) <= limit { StartFromFits(f, limit, p - 1); }
  }

  /** The window is within the limit if its last record is, and every suffix within the limit lies inside it. */
  lemma {:induction false} WindowIsLongest(f: File, limit: nat, k: nat)
    requires f != [] && k <= |f|
    ensures f[|f| - 1].bytes <= limit ==> Bytes(Window(f, limit)) <= limit
    ensures Bytes(f[k..]) <= limit && k < |f| ==> Start(f, limit) <= k
  {
    DropLess(f, |f| - 1);
    if f[|f| - 1].bytes <= limit { StartFromFits(f, limit, |f| - 1); }
    if Bytes(f[k..]) <= limit && k < |f| { StartFromIsLongest(f, limit, |f| - 1, k); }
  }

  /** With one more record, the longest suffix begins no earlier. */
  lemma {:induction false} StartAdvances(f: File, limit: nat, r: Record)
    requires f != []
    ensures Start(f, limit) <= Start(f + [r], limit)
  {
    var g := f + [r];
    var q := Start(g, limit);
    if q < |f| {
      StartFromFitsOrAlone(g, limit, |f|);
      assert g[q..] == f[q..] + [r];
      BytesConcat(f[q..], [r]);
      WindowIsLongest(f, limit, q);
    }
  }

  lemma {:induction false} WindowOfSuffix(g: File, limit: nat, p: nat)
    requires p < |g| && p <= Start(g, limit)
    ensures Window(g[p..], limit) == Window(g, limit)
  {
    StartShift(g, limit, p, |g| - 1);
    DropDrop(g, p, Start(g, limit));
  }

  lemma {:induction false} AppendToSuffix(f: File, p: nat, r: Record)
    requires p <= |f|
    ensures (f + [r])[p..] == f[p..] + [r]
  {
  }

  /** Sliding the window record by record gives the window of the whole log. */
  lemma {:induction false} WindowGrows(f: File, limit: nat, r: Record)
    ensures Window(f + [r], limit) == Window(Window(f, limit) + [r], limit)
  {
    if f == [] {
      assert Window(f, limit) + [r] == f + [r];
    } else {
      StartAdvances(f, limit, r);
      AppendToSuffix(f, Start(f, limit), r);
      WindowOfSuffix(f + [r], limit, Start(f, limit));
    }
  }

  lemma {:induction false} StartFromFitsOrAlone(f: File, limit: nat, p: nat)
    requires p < |f|
    ensures StartFrom(f, limit, p) == p || Bytes(f[StartFrom(f, limit, p)..]) <= limit
  {
    if p > 0 && Bytes(f[p - 1..]) <= limit { StartFromFits(f, limit, p - 1); }
  }

  /** Cutting off records before position `p` does not move a start at or after it. */
  lemma {:induction false} StartShift(g: File, limit: nat, p: nat, q: nat)
    requires p <= q < |g|
    ensures StartFrom(g[p..], limit, q - p) == if StartFrom(g, limit, q) >= p then StartFrom(g, limit, q) - p else 0
  {
    if q > p {
      assert g[p..][q - p - 1..] == g[q - 1..];
      if Bytes(g[q - 1..]) <= limit { StartShift(g, limit, p, q - 1); }
    }
  }

  // ---------------------------------------------------------------------------
  // Greedy packing, newest first
  // ---------------------------------------------------------------------------

  function Pack(f: File, max: nat): seq<File> {
    if f == [] then [] else [f[Start(f, max)..]] + Pack(f[..Start(f, max)], max)
  }

  /** The chunks in the order of their records. */
  function Unpack(chunks: seq<File>): File {
    if chunks == [] then [] else Unpack(chunks[1..]) + chunks[0]
  }

  function First<T>(s: seq<T>, n: nat): seq<T> {
    if |s| <= n then s else s[..n]
  }

  /** What a repack of the window `w` leaves in `n` files. */
  function Kept(w: File, max: nat, n: nat): File {
    Unpack(First(Pack(w, max), n))
  }

  /** `f` can be cut into at most `n` consecutive segments of at most `max` bytes. */
  ghost predicate Cuttable(f: File, max: nat, n: nat) {
    f == [] || (n > 0 && exists k :: 0 <= k < |f| && Bytes(f[k..]) <= max && Cuttable(f[..k], max, n - 1))
  }

  ghost predicate Small(f: File, max: nat) {
    forall k :: 0 <= k < |f| ==> f[k].bytes <= max
  }

  lemma {:induction false} FirstChunk(w: File, max: nat, n: nat)
    requires w != [] && n > 0
    ensures Kept(w, max, n) == Kept(w[..Start(w, max)], max, n - 1) + w[Start(w, max)..]
  {
    var chunks := Pack(w, max);
    assert chunks[1..] == Pack(w[..Start(w, max)], max);
    assert First(chunks, n)[1..] == First(chunks[1..], n - 1);
  }

  lemma {:induction false} CuttableExtend(head: File, tail: File, max: nat, n: nat)
    requires n > 0 && Cuttable(head, max, n - 1) && tail != [] && Bytes(tail) <= max
    ensures Cuttable(head + tail, max, n)
  {
    var f := head + tail;
    assert f[|head|..] == tail && f[..|head|] == head;
  }

  lemma {:induction false} SuffixExtend(head: File, w: File, p: nat)
    requires p <= |w| && Suffix(head, w[..p])
    ensures Suffix(head + w[p..], w)
  {
    assert w == w[..p] + w[p..];
  }

  /** What is kept is a suffix of the window, and it fits into `n` files. */
  lemma {:induction false} KeptFits(w: File, max: nat, n: nat)
    requires Small(w, max)
    ensures Suffix(Kept(w, max, n), w)
    ensures Cuttable(Kept(w, max, n), max, n)
    decreases |w|
  {
    if w == [] || n == 0 {
      NothingKept(w, max, n);
    } else {
      KeptFits(w[..Start(w, max)], max, n - 1);
      KeptFitsStep(w, max, n);
    }
  }

  lemma {:induction false} KeptFitsStep(w: File, max: nat, n: nat)
    requires w != [] && n > 0 && Small(w, max)
    requires var rest := w[..Start(w, max)];
      Suffix(Kept(rest, max, n - 1), rest) && Cuttable(Kept(rest, max, n - 1), max, n - 1)
    ensures Suffix(Kept(w, max, n), w) && Cuttable(Kept(w, max, n), max, n)
  {
    var p := Start(w, max);
    FirstChunk(w, max, n);
    WindowIsLongest(w, max, p);
    CuttableExtend(Kept(w[..p], max, n - 1), w[p..], max, n);
    SuffixExtend(Kept(w[..p], max, n - 1), w, p);
  }

  /** Position reached by greedy packing backwards from `e` in `n` chunks. */
  ghost function Reach(w: File, max: nat, e: nat, n: nat): (p: nat)
    requires e <= |w|
    ensures p <= e
  {
    if n == 0 || e == 0 then e else Reach(w, max, Start(w[..e], max), n - 1)
  }

  /** A segment that ends earlier cannot start before the greedy segment that ends later. */
  lemma {:induction false} StartMonotone(w: File, max: nat, e: nat, e': nat)
    requires 0 < e <= e' <= |w| && Small(w, max)
    ensures Start(w[..e], max) <= Start(w[..e'], max)
  {
    var p := Start(w[..e'], max);
    if p < e {
      WindowIsLongest(w[..e'], max, p);
      assert w[..e'][p..] == w[..e][p..] + w[e..e'];
      BytesConcat(w[..e][p..], w[e..e']);
      WindowIsLongest(w[..e], max, p);
    }
  }

  lemma {:induction false} ReachMonotone(w: File, max: nat, e: nat, e': nat, n: nat)
    requires e <= e' <= |w| && Small(w, max)
    ensures Reach(w, max, e, n) <= Reach(w, max, e', n)
    decreases n
  {
    if n > 0 && e > 0 {
      StartMonotone(w, max, e, e');
      ReachMonotone(w, max, Start(w[..e], max), Start(w[..e'], max), n - 1);
    }
  }

  lemma {:induction false} KeptOfPrefix(w: File, max: nat, e: nat, n: nat)
    requires 0 < e <= |w| && n > 0
    ensures var p := Start(w[..e], max);
      Kept(w[..e], max, n) == Kept(w[..p], max, n - 1) + w[p..e]
  {
    FirstChunk(w[..e], max, n);
    Slices(w, Start(w[..e], max), e);
  }

  lemma {:induction false} ReachIsKept(w: File, max: nat, e: nat, n: nat)
    requires e <= |w|
    ensures Kept(w[..e], max, n) == w[Reach(w, max, e, n)..e]
    decreases n
  {
    if n == 0 || e == 0 {
      NothingKept(w[..e], max, n);
    } else {
      var p := Start(w[..e], max);
      KeptOfPrefix(w, max, e, n);
      ReachIsKept(w, max, p, n - 1);
      Splice(w, Reach(w, max, p, n - 1), p, e);
    }
  }

  lemma {:induction false} NothingKept(f: File, max: nat, n: nat)
    requires f == [] || n == 0
    ensures Kept(f, max, n) == []
  {
    assert First(Pack(f, max), n) == [];
  }

  lemma {:induction false} Slices<T>(w: seq<T>, p: nat, e: nat)
    requires p <= e <= |w|
    ensures w[..e][..p] == w[..p] && w[..e][p..] == w[p..e]
  {
  }

  lemma {:induction false} Cut(f: File, max: nat, n: nat) returns (k: nat)
    requires f != [] && Cuttable(f, max, n)
    ensures n > 0 && k < |f| && Bytes(f[k..]) <= max && Cuttable(f[..k], max, n - 1)
  {
    k :| 0 <= k < |f| && Bytes(f[k..]) <= max && Cuttable(f[..k], max, n - 1);
  }

  /** Where the last segment of a cut begins. */
  lemma {:induction false} LastSegment(w: File, max: nat, p: nat, e: nat, n: nat) returns (k: nat)
    requires p < e <= |w| && Cuttable(w[p..e], max, n)
    ensures n > 0 && p <= k < e && Start(w[..e], max) <= k && Cuttable(w[p..k], max, n - 1)
  {
    var i := Cut(w[p..e], max, n);
    k := p + i;
    Within(w, p, e, i);
    LongestFrom(w[..e], max, k);
  }

  lemma {:induction false} LongestFrom(f: File, limit: nat, k: nat)
    requires k < |f| && Bytes(f[k..]) <= limit
    ensures Start(f, limit) <= k
  {
    WindowIsLongest(f, limit, k);
  }

  lemma {:induction false} Within<T>(w: seq<T>, p: nat, e: nat, i: nat)
    requires p + i <= e <= |w|
    ensures w[p..e][i..] == w[..e][p + i..] && w[p..e][..i] == w[p..p + i]
  {
  }

  /** Any cut into `n` segments that ends at `e` starts no earlier than greedy packing does. */
  lemma {:induction false} GreedyReachesFurthest(w: File, max: nat, p: nat, e: nat, n: nat)
    requires p < e <= |w| && Small(w, max)
    requires Cuttable(w[p..e], max, n)
    ensures Reach(w, max, e, n) <= p
    decreases n
  {
    var k := LastSegment(w, max, p, e, n);
    ReachMonotone(w, max, Start(w[..e], max), k, n - 1);
    if k > p { GreedyReachesFurthest(w, max, p, k, n - 1); }
  }

  lemma {:induction false} CuttableBytes(f: File, max: nat, n: nat)
    requires Cuttable(f, max, n)
    ensures Bytes(f) <= max * n
    decreases n
  {
    if f != [] {
      var k := LastCut(f, max, n);
      CuttableBytes(f[..k], max, n - 1);
      OneMore(max, n);
    }
  }

  lemma {:induction false} LastCut(f: File, max: nat, n: nat) returns (k: nat)
    requires f != [] && Cuttable(f, max, n)
    ensures n > 0 && k < |f| && Cuttable(f[..k], max, n - 1) && Bytes(f) <= Bytes(f[..k]) + max
  {
    k := Cut(f, max, n);
    assert f == f[..k] + f[k..];
    BytesConcat(f[..k], f[k..]);
  }

  lemma {:induction false} OneMore(max: nat, n: nat)
    requires n > 0
    ensures max * n == max * (n - 1) + max
  {
  }

  /** Greedy packing of `w` keeps at least as much as any cuttable suffix of `w`. */
  lemma {:induction false} GreedyKeepsTheMost(w: File, max: nat, n: nat, s: File)
    requires Small(w, max) && Suffix(s, w) && Cuttable(s, max, n)
    ensures |s| <= |Kept(w, max, n)|
  {
    if s != [] {
      var p := |w| - |s|;
      assert w[p..|w|] == s && w[..|w|] == w;
      GreedyReachesFurthest(w, max, p, |w|, n);
      ReachIsKept(w, max, |w|, n);
    }
  }

  /** Every suffix within the limit lies in the window. */
  lemma {:induction false} SuffixInWindow(records: File, limit: nat, s: File)
    requires Suffix(s, records) && Bytes(s) <= limit
    ensures Suffix(s, Window(records, limit))
  {
    if s != [] {
      WindowIsLongest(records, limit, |records| - |s|);
    }
  }

  lemma {:induction false} SuffixTransitive(a: File, b: File, c: File)
    requires Suffix(a, b) && Suffix(b, c)
    ensures Suffix(a, c)
  {
  }

  /**
   * Repacking is optimal: of all suffixes of the valid records that can be cut into
   * at most `n` segments of at most `max` bytes, it keeps the longest.
   */
  lemma {:induction false} RepackKeepsTheMost(records: File, max: nat, n: nat, limit: nat, s: File)
    requires Small(records, max) && limit == max * n
    ensures
      var kept := Kept(Window(records, limit), max, n);
      && Suffix(kept, records) && Cuttable(kept, max, n)
      && (Suffix(s, records) && Cuttable(s, max, n) ==> |s| <= |kept|)
  {
    var w := Window(records, limit);
    KeptFits(w, max, n);
    SuffixTransitive(Kept(w, max, n), w, records);
    if Suffix(s, records) && Cuttable(s, max, n) {
      CuttableBytes(s, max, n);
      SuffixInWindow(records, limit, s);
      GreedyKeepsTheMost(w, max, n, s);
    }
  }

  // ---------------------------------------------------------------------------
  // Repacking twice
  // ---------------------------------------------------------------------------

  lemma {:induction false} WholeWindow(f: File, limit: nat)
    requires Bytes(f) <= limit
    ensures Window(f, limit) == f
  {
    if f != [] {
      assert f[0..] == f;
      WindowIsLongest(f, limit, 0);
    }
  }

  lemma {:induction false} FirstOf(chunk: File, rest: seq<File>, n: nat)
    requires n > 0
    ensures First([chunk] + rest, n) == [chunk] + First(rest, n - 1)
  {
  }

  /** Cutting off whole older chunks does not move the newest one. */
  lemma {:induction false} NewestChunkStays(w: File, max: nat, head: File)
    requires w != [] && Suffix(head, w[..Start(w, max)])
    ensures
      var k, p := head + w[Start(w, max)..], Start(w, max);
      Start(k, max) == |head| && k[..|head|] == head && k[|head|..] == w[p..]
  {
    var p := Start(w, max);
    var d := p - |head|;
    SuffixExtend(head, w, p);
    assert w[d..] == head + w[p..];
    StartShift(w, max, d, |w| - 1);
  }

  /** Packing what was kept gives back the chunks that were kept. */
  lemma {:induction false} PackKept(w: File, max: nat, n: nat)
    requires Small(w, max)
    ensures Pack(Kept(w, max, n), max) == First(Pack(w, max), n)
    decreases |w|
  {
    if w == [] || n == 0 {
      assert First(Pack(w, max), n) == [];
    } else {
      PackKept(w[..Start(w, max)], max, n - 1);
      PackKeptStep(w, max, n);
    }
  }

  lemma {:induction false} PackKeptStep(w: File, max: nat, n: nat)
    requires w != [] && n > 0 && Small(w, max)
    requires var rest := w[..Start(w, max)]; Pack(Kept(rest, max, n - 1), max) == First(Pack(rest, max), n - 1)
    ensures Pack(Kept(w, max, n), max) == First(Pack(w, max), n)
  {
    var p := Start(w, max);
    var head := Kept(w[..p], max, n - 1);
    FirstChunk(w, max, n);
    KeptFits(w[..p], max, n - 1);
    NewestChunkPacks(w, max, head);
    FirstOf(w[p..], Pack(w[..p], max), n);
    PackOf(w, max);
  }

  lemma {:induction false} PackOf(f: File, max: nat)
    requires f != []
    ensures Pack(f, max) == [f[Start(f, max)..]] + Pack(f[..Start(f, max)], max)
  {
  }

  lemma {:induction false} NewestChunkPacks(w: File, max: nat, head: File)
    requires w != [] && Suffix(head, w[..Start(w, max)])
    ensures var chunk := w[Start(w, max)..];
      Pack(head + chunk, max) == [chunk] + Pack(head, max)
  {
    NewestChunkStays(w, max, head);
    PackOf(head + w[Start(w, max)..], max);
  }

  lemma {:induction false} FirstTwice<T>(s: seq<T>, n: nat)
    ensures First(First(s, n), n) == First(s, n)
  {
  }

  /** What was kept fits the window it came from. */
  lemma {:induction false} KeptIsItsWindow(w: File, max: nat, n: nat, limit: nat)
    requires Small(w, max) && limit == max * n
    ensures Window(Kept(w, max, n), limit) == Kept(w, max, n)
  {
    KeptFits(w, max, n);
    CuttableBytes(Kept(w, max, n), max, n);
    WholeWindow(Kept(w, max, n), limit);
  }

  /** A second repack keeps every record and every chunk. */
  lemma {:induction false} RepackTwice(w: File, max: nat, n: nat, limit: nat)
    requires Small(w, max) && limit == max * n
    ensures
      var kept := Kept(w, max, n);
      && Window(kept, limit) == kept
      && First(Pack(kept, max), n) == First(Pack(w, max), n)
  {
    KeptIsItsWindow(w, max, n, limit);
    PackKept(w, max, n);
    FirstTwice(Pack(w, max), n);
  }

  lemma {:induction false} AllValid(records: File)
    requires forall k :: 0 <= k < |records| ==> records[k].valid
    ensures Valid(records) == records && Invalid(records) == 0
  {
    if records != [] {
      AllValid(records[..|records| - 1]);
      assert records == records[..|records| - 1] + [records[|records| - 1]];
    }
  }

  lemma {:induction false} ValidConcat(a: File, b: File)
    ensures Valid(a + b) == Valid(a) + Valid(b)
    ensures Invalid(a + b) == Invalid(a) + Invalid(b)
  {
    if b == [] {
      assert a + b == a;
      assert Valid(a) + [] == Valid(a);
    } else {
      assert (a + b)[..|a + b| - 1] == a + b[..|b| - 1];
      ValidConcat(a, b[..|b| - 1]);
    }
  }

  lemma {:induction false} ValidAreSmall(records: File, max: nat)
    requires Small(records, max)
    ensures Small(Valid(records), max)
    ensures forall k :: 0 <= k < |Valid(records)| ==> Valid(records)[k].valid
  {
    if records != [] {
      ValidAreSmall(records[..|records| - 1], max);
    }
  }
}
