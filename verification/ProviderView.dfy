/** `prune_provider_messages`: two passes with dictionaries of latest positions. */
module ProviderView {
  import opened Wrappers
  import opened Transcript
  import opened Pruning

  type Key = (string, string)

  /** The dictionaries of the first pass. Equal contents stand for equal content hashes. */
  datatype Index = Index(
    revisions: map<Key, seq<(nat, Option<Interval>)>>,
    latestRead: map<(Key, string), nat>,
    latestDiscovery: map<(string, Arguments), nat>,
    latestMutation: map<string, nat>)

  /** `latest` maps `key` to the last position before `n` that satisfies `at`, if there is one. */
  ghost predicate Latest<K(!new)>(latest: map<K, nat>, n: nat, at: (nat, K) -> bool) {
    && (forall key :: key in latest ==> latest[key] < n && at(latest[key], key))
    && (forall key, j: nat :: j < n && at(j, key) ==> key in latest && j <= latest[key])
  }

  ghost function ReadAt(lens: Lens, ms: Conversation): (nat, (Key, string)) -> bool {
    (j: nat, key: (Key, string)) => j < |ms| && Registered(lens, ms[j]) && key == (Identity(lens, ms[j]), ms[j].content)
  }

  ghost function DiscoveryAt(details: Details, ms: Conversation): (nat, (string, Arguments)) -> bool {
    (j: nat, key: (string, Arguments)) => j < |ms| && Discovers(details, ms[j]) && key == Resolve(details, ms[j])
  }

  ghost function MutationAt(lens: Lens, details: Details, ms: Conversation): (nat, string) -> bool {
    (j: nat, path: string) => j < |ms| && path in Mutated(lens, details, ms[j])
  }

  /** `revisions` lists the reads before `n` by path and hash, with their intervals. */
  ghost predicate Lists(revisions: map<Key, seq<(nat, Option<Interval>)>>, lens: Lens, ms: Conversation, n: nat)
    requires n <= |ms|
  {
    && (forall key, q :: key in revisions && 0 <= q < |revisions[key]| ==>
          var (j, interval) := revisions[key][q];
          j < n && Registered(lens, ms[j]) && Identity(lens, ms[j]) == key && interval == lens.interval(ms[j].content))
    && (forall j :: 0 <= j < n && Registered(lens, ms[j]) ==>
          Identity(lens, ms[j]) in revisions && (j, lens.interval(ms[j].content)) in revisions[Identity(lens, ms[j])])
  }

  ghost predicate Describes(index: Index, lens: Lens, details: Details, ms: Conversation, n: nat)
    requires n <= |ms|
  {
    && Lists(index.revisions, lens, ms, n)
    && Latest(index.latestRead, n, ReadAt(lens, ms))
    && Latest(index.latestDiscovery, n, DiscoveryAt(details, ms))
    && Latest(index.latestMutation, n, MutationAt(lens, details, ms))
  }

  function LatestOr<K>(latest: map<K, nat>, key: K, default: int): int {
    if key in latest then latest[key] else default
  }

  lemma {:induction false} LatestBeyond<K(!new)>(
    latest: map<K, nat>, n: nat, at: (nat, K) -> bool, key: K, i: nat, default: int)
    requires Latest(latest, n, at) && default <= i
    ensures LatestOr(latest, key, default) > i <==> exists j: nat :: i < j < n && at(j, key)
  {
    if key in latest {
      assert at(latest[key], key);
    }
  }

  /** Recording the keys found at position `n` keeps a dictionary of latest positions. */
  lemma {:induction false} LatestAdvances<K(!new)>(
    latest: map<K, nat>, latest': map<K, nat>, n: nat, at: (nat, K) -> bool, keys: seq<K>)
    requires Latest(latest, n, at)
    requires forall key :: at(n, key) <==> key in keys
    requires forall key :: key in latest' <==> key in latest || key in keys
    requires forall key :: key in latest' ==> latest'[key] == if key in keys then n else latest[key]
    ensures Latest(latest', n + 1, at)
  {
  }

  method CollectDetails(ms: Conversation) returns (details: Details)
    ensures details == CallDetails(ms)
  {
    details := map[];
    for i := 0 to |ms|
      invariant details == CallDetails(ms[..i])
    {
      ghost var before := details;
      var calls := ms[i].toolCalls;
      for p := 0 to |calls|
        invariant details == AddCalls(before, calls[..p])
      {
        assert calls[..p + 1][..p] == calls[..p];
        details := details[calls[p].id := (calls[p].name, calls[p].arguments)];
      }
      assert calls[..|calls|] == calls;
      assert ms[..i + 1][..i] == ms[..i];
    }
    assert ms[..|ms|] == ms;
  }

  function Listed(revisions: map<Key, seq<(nat, Option<Interval>)>>, key: Key): seq<(nat, Option<Interval>)> {
    if key in revisions then revisions[key] else []
  }

  lemma {:induction false} ListsAdvance(
    revisions: map<Key, seq<(nat, Option<Interval>)>>, lens: Lens, ms: Conversation, i: nat)
    requires i < |ms| && Lists(revisions, lens, ms, i)
    ensures
      var key, entry := Identity(lens, ms[i]), (i, lens.interval(ms[i].content));
      Lists(
        if Registered(lens, ms[i]) then revisions[key := Listed(revisions, key) + [entry]] else revisions,
        lens, ms, i + 1)
  {
    var entry := (i, lens.interval(ms[i].content));
    assert entry in Listed(revisions, Identity(lens, ms[i])) + [entry];
  }

  method RecordRead(index: Index, lens: Lens, ghost ms: Conversation, i: nat, m: Message) returns (r: Index)
    requires i < |ms| && m == ms[i]
    requires Lists(index.revisions, lens, ms, i) && Latest(index.latestRead, i, ReadAt(lens, ms))
    ensures r == index.(revisions := r.revisions, latestRead := r.latestRead)
    ensures Lists(r.revisions, lens, ms, i + 1) && Latest(r.latestRead, i + 1, ReadAt(lens, ms))
  {
    r := index;
    ListsAdvance(index.revisions, lens, ms, i);
    if Registered(lens, m) {
      var key := Identity(lens, m);
      r := index.(
        revisions := index.revisions[key := Listed(index.revisions, key) + [(i, lens.interval(m.content))]],
        latestRead := index.latestRead[(key, m.content) := i]);
      LatestAdvances(index.latestRead, r.latestRead, i, ReadAt(lens, ms), [(key, m.content)]);
    } else {
      LatestAdvances(index.latestRead, r.latestRead, i, ReadAt(lens, ms), []);
    }
  }

  method RecordDiscovery(index: Index, details: Details, ghost ms: Conversation, i: nat, m: Message) returns (r: Index)
    requires i < |ms| && m == ms[i]
    requires Latest(index.latestDiscovery, i, DiscoveryAt(details, ms))
    ensures r == index.(latestDiscovery := r.latestDiscovery)
    ensures Latest(r.latestDiscovery, i + 1, DiscoveryAt(details, ms))
  {
    r := index;
    if Discovers(details, m) {
      r := index.(latestDiscovery := index.latestDiscovery[Resolve(details, m) := i]);
    }
  }

  method RecordMutation(
    index: Index, lens: Lens, details: Details, ghost ms: Conversation, i: nat, m: Message) returns (r: Index)
    requires i < |ms| && m == ms[i]
    requires Latest(index.latestMutation, i, MutationAt(lens, details, ms))
    ensures r == index.(latestMutation := r.latestMutation)
    ensures Latest(r.latestMutation, i + 1, MutationAt(lens, details, ms))
  {
    var paths := Mutated(lens, details, m);
    assert forall path :: MutationAt(lens, details, ms)(i, path) <==> path in paths;
    var latest := RecordPaths(index.latestMutation, paths, i);
    LatestAdvances(index.latestMutation, latest, i, MutationAt(lens, details, ms), paths);
    r := index.(latestMutation := latest);
  }

  method RecordPaths(before: map<string, nat>, paths: seq<string>, i: nat) returns (latest: map<string, nat>)
    ensures forall path :: path in latest <==> path in before || path in paths
    ensures forall path :: path in latest ==> latest[path] == if path in paths then i else before[path]
  {
    latest := before;
    for p := 0 to |paths|
      invariant forall path :: path in latest <==> path in before || path in paths[..p]
      invariant forall path :: path in latest ==> latest[path] == if path in paths[..p] then i else before[path]
    {
      assert paths[..p + 1] == paths[..p] + [paths[p]];
      latest := latest[paths[p] := i];
    }
    assert paths[..|paths|] == paths;
  }

  /** The first pass: enriched copies and the index of the whole conversation. */
  method FirstPass(lens: Lens, details: Details, ms: Conversation) returns (copies: Conversation, index: Index)
    ensures |copies| == |ms| && forall i :: 0 <= i < |ms| ==> copies[i] == Enrich(lens, ms[i])
    ensures Describes(index, lens, details, ms, |ms|)
  {
    copies := [];
    index := Index(map[], map[], map[], map[]);
    for i := 0 to |ms|
      invariant |copies| == i && forall j :: 0 <= j < i ==> copies[j] == Enrich(lens, ms[j])
      invariant Describes(index, lens, details, ms, i)
    {
      index := RecordRead(index, lens, ms, i, ms[i]);
      index := RecordDiscovery(index, details, ms, i, ms[i]);
      index := RecordMutation(index, lens, details, ms, i, ms[i]);
      copies := copies + [Enrich(lens, ms[i])];
    }
  }

  lemma {:induction false} MutationTest(
    lens: Lens, details: Details, index: Index, ms: Conversation, i: nat, path: string)
    requires i < |ms| && Describes(index, lens, details, ms, |ms|)
    ensures LatestOr(index.latestMutation, path, -1) > i <==>
      exists j :: i < j < |ms| && path in Mutated(lens, details, ms[j])
  {
    LatestBeyond(index.latestMutation, |ms|, MutationAt(lens, details, ms), path, i, -1);
    if j :| i < j < |ms| && path in Mutated(lens, details, ms[j]) {
      assert MutationAt(lens, details, ms)(j, path);
    }
  }

  predicate AnyCovers(entries: seq<(nat, Option<Interval>)>, i: nat, interval: Option<Interval>) {
    exists q :: 0 <= q < |entries| && entries[q].0 > i && Covers(entries[q].1, interval)
  }

  lemma {:induction false} ReadTest(lens: Lens, details: Details, index: Index, ms: Conversation, i: nat)
    requires i < |ms| && Describes(index, lens, details, ms, |ms|)
    ensures
      var m := ms[i];
      var key := LookupKey(lens, m);
      var entries := Listed(index.revisions, key);
      (LatestOr(index.latestRead, (key, m.content), -1) > i || AnyCovers(entries, i, lens.interval(m.content)))
      <==> exists j :: i < j < |ms| && Replaces(lens, ms[j], m)
  {
    var m := ms[i];
    var key := LookupKey(lens, m);
    var entries := Listed(index.revisions, key);
    LatestBeyond(index.latestRead, |ms|, ReadAt(lens, ms), (key, m.content), i, -1);
    if LatestOr(index.latestRead, (key, m.content), -1) > i {
      var j: nat :| i < j < |ms| && ReadAt(lens, ms)(j, (key, m.content));
      assert Replaces(lens, ms[j], m);
    } else if AnyCovers(entries, i, lens.interval(m.content)) {
      var q :| 0 <= q < |entries| && entries[q].0 > i && Covers(entries[q].1, lens.interval(m.content));
      assert Replaces(lens, ms[entries[q].0], m);
    } else {
      forall j | i < j < |ms| ensures !Replaces(lens, ms[j], m) {
        assert !ReadAt(lens, ms)(j, (key, m.content));
        assert Registered(lens, ms[j]) && Identity(lens, ms[j]) == key ==> (j, lens.interval(ms[j].content)) in entries;
      }
    }
  }

  /** The three-way test of the second pass on one read result. */
  method IsSuperseded(lens: Lens, details: Details, index: Index, ms: Conversation, i: nat) returns (superseded: bool)
    requires i < |ms| && Describes(index, lens, details, ms, |ms|)
    requires IsRead(ms[i]) && !ms[i].isError
    ensures superseded <==> ReadSuperseded(lens, details, ms, i)
  {
    var m := ms[i];
    var key := LookupKey(lens, m);
    var entries := Listed(index.revisions, key);
    superseded :=
      && key.0 != "" && key.1 != ""
      && (|| LatestOr(index.latestMutation, key.0, -1) > i
          || LatestOr(index.latestRead, (key, m.content), -1) > i
          || AnyCovers(entries, i, lens.interval(m.content)));
    MutationTest(lens, details, index, ms, i, key.0);
    ReadTest(lens, details, index, ms, i);
    RetiredIff(lens, details, ms, i);
  }

  lemma {:induction false} RetiredIff(lens: Lens, details: Details, ms: Conversation, i: nat)
    requires i < |ms|
    ensures (exists j :: i < j < |ms| && Retires(lens, details, ms[j], ms[i])) <==>
            || (exists j :: i < j < |ms| && LookupKey(lens, ms[i]).0 in Mutated(lens, details, ms[j]))
            || (exists j :: i < j < |ms| && Replaces(lens, ms[j], ms[i]))
  {
    if j :| i < j < |ms| && LookupKey(lens, ms[i]).0 in Mutated(lens, details, ms[j]) {
      assert Retires(lens, details, ms[j], ms[i]);
    }
    if j :| i < j < |ms| && Replaces(lens, ms[j], ms[i]) {
      assert Retires(lens, details, ms[j], ms[i]);
    }
  }

  /** The second pass at one position: the message to show, and whether it was superseded or repeated. */
  method ShowAt(
    lens: Lens, details: Details, index: Index, ms: Conversation, i: nat)
    returns (shown: Message, superseded: bool, repeated: bool)
    requires details == CallDetails(ms)
    requires i < |ms| && Describes(index, lens, details, ms, |ms|)
    ensures shown == Pruned(lens, ms)[i]
    ensures superseded <==> SupersededIn(lens, ms)(i)
    ensures repeated <==> RepeatedIn(ms)(i)
  {
    shown, superseded, repeated := Enrich(lens, ms[i]), false, false;
    if !shown.role.Tool? || shown.isError {
      return;
    }
    if IsRead(shown) {
      superseded := IsSuperseded(lens, details, index, ms, i);
      if superseded {
        shown := PrunedRead(lens, ms[i]);
      }
    } else if Discovers(details, shown) {
      repeated := LatestOr(index.latestDiscovery, Resolve(details, shown), i) > i;
      LatestBeyond(index.latestDiscovery, |ms|, DiscoveryAt(details, ms), Resolve(details, shown), i, i);
      RepeatedIff(details, ms, i);
      if repeated {
        shown := PrunedOutput(details, ms[i]);
      }
    }
  }

  lemma {:induction false} RepeatedIff(details: Details, ms: Conversation, i: nat)
    requires i < |ms| && !IsRead(ms[i]) && Discovers(details, ms[i])
    ensures OutputRepeated(details, ms, i) <==>
      exists j: nat :: i < j < |ms| && DiscoveryAt(details, ms)(j, Resolve(details, ms[i]))
  {
    if OutputRepeated(details, ms, i) {
      var j :| i < j < |ms| && Repeats(details, ms[j], ms[i]);
      assert DiscoveryAt(details, ms)(j, Resolve(details, ms[i]));
    }
    if j: nat :| i < j < |ms| && DiscoveryAt(details, ms)(j, Resolve(details, ms[i])) {
      assert Repeats(details, ms[j], ms[i]);
    }
  }

  /** The positions below `n` that satisfy `p`. */
  ghost function Below(n: nat, p: int -> bool): set<int> {
    set i | 0 <= i < n && p(i)
  }

  lemma {:induction false} BelowGrows(n: nat, p: int -> bool)
    ensures |Below(n + 1, p)| == |Below(n, p)| + if p(n) then 1 else 0
  {
    assert Below(n + 1, p) == if p(n) then Below(n, p) + {n} else Below(n, p);
  }

  lemma {:induction false} PrefixGrows<T>(s: seq<T>, target: seq<T>, i: nat)
    requires i < |s| == |target| && s[..i] == target[..i]
    ensures s[i := target[i]][..i + 1] == target[..i + 1]
  {
    assert target[..i + 1] == target[..i] + [target[i]];
  }

  lemma {:induction false} WholePrefix<T>(s: seq<T>, target: seq<T>)
    requires |s| == |target| && s[..|s|] == target[..|s|]
    ensures s == target
  {
    assert s[..|s|] == s && target[..|s|] == target;
  }

  ghost function SupersededIn(lens: Lens, ms: Conversation): int -> bool {
    i => 0 <= i < |ms| && ReadSuperseded(lens, CallDetails(ms), ms, i)
  }

  ghost function RepeatedIn(ms: Conversation): int -> bool {
    i => 0 <= i < |ms| && OutputRepeated(CallDetails(ms), ms, i)
  }

  method SecondPass(lens: Lens, details: Details, index: Index, ms: Conversation, enriched: Conversation)
    returns (copies: Conversation, supersededReads: nat, repeatedOutputs: nat)
    requires details == CallDetails(ms) && Describes(index, lens, details, ms, |ms|)
    requires |enriched| == |ms|
    ensures copies == Pruned(lens, ms)
    ensures supersededReads == |Below(|ms|, SupersededIn(lens, ms))|
    ensures repeatedOutputs == |Below(|ms|, RepeatedIn(ms))|
  {
    copies, supersededReads, repeatedOutputs := enriched, 0, 0;
    ghost var view, isSuperseded, isRepeated := Pruned(lens, ms), SupersededIn(lens, ms), RepeatedIn(ms);
    for i := 0 to |ms|
      invariant |copies| == |ms| && copies[..i] == view[..i]
      invariant supersededReads == |Below(i, isSuperseded)|
      invariant repeatedOutputs == |Below(i, isRepeated)|
    {
      BelowGrows(i, isSuperseded);
      BelowGrows(i, isRepeated);
      var shown, superseded, repeated := ShowAt(lens, details, index, ms, i);
      PrefixGrows(copies, view, i);
      copies := copies[i := shown];
      supersededReads := supersededReads + if superseded then 1 else 0;
      repeatedOutputs := repeatedOutputs + if repeated then 1 else 0;
    }
    WholePrefix(copies, view);
  }

  /** `prune_provider_messages`, with its two counts of replaced outputs. */
  method PruneProviderMessages(lens: Lens, ms: Conversation)
    returns (copies: Conversation, supersededReads: nat, repeatedOutputs: nat)
    ensures copies == Pruned(lens, ms)
    ensures supersededReads == |Below(|ms|, SupersededIn(lens, ms))|
    ensures repeatedOutputs == |Below(|ms|, RepeatedIn(ms))|
  {
    var details := CollectDetails(ms);
    var enriched, index := FirstPass(lens, details, ms);
    copies, supersededReads, repeatedOutputs := SecondPass(lens, details, index, ms, enriched);
  }
}
