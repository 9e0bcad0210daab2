/** What the provider view preserves, and why each pruned output may be pruned. */
module PruningTheorems {
  import opened Wrappers
  import opened Transcript
  import opened Pruning

  // ---------------------------------------------------------------------------
  // Nothing but superseded contents changes
  // ---------------------------------------------------------------------------

  lemma {:induction false} ViewKeepsShape(lens: Lens, ms: Conversation)
    ensures SameShapes(ms, Pruned(lens, ms))
  {
    forall i | 0 <= i < |ms| ensures SameShape(ms[i], Pruned(lens, ms)[i]) {
      assert Pruned(lens, ms)[i] == View(lens, CallDetails(ms), ms, i);
    }
  }

  /** The pruned view of a well-formed conversation is well-formed. */
  lemma {:induction false} ViewIsGrammatical(lens: Lens, ms: Conversation)
    requires Grammar(ms)
    ensures Grammar(Pruned(lens, ms))
  {
    ViewKeepsShape(lens, ms);
    GrammarIgnoresContents(ms, Pruned(lens, ms));
  }

  // ---------------------------------------------------------------------------
  // Justification chains
  // ---------------------------------------------------------------------------

  /** A pruned read whose path is not mutated later has a later read in its place that is not pruned. */
  ghost predicate ReadJustified(lens: Lens, details: Details, ms: Conversation, i: nat)
    requires i < |ms|
  {
    || (exists j :: i < j < |ms| && LookupKey(lens, ms[i]).0 in Mutated(lens, details, ms[j]))
    || (exists j :: i < j < |ms| && Replaces(lens, ms[j], ms[i]) && !ReadSuperseded(lens, details, ms, j))
  }

  lemma {:induction false} CanonicalFixed(lens: Lens, paths: seq<string>, p: string)
    requires CanonicalPaths(lens) && p in PathsOf(lens, paths)
    ensures Canonical(lens, p) == p
  {
    if p !in PathsOf(lens, paths[1..]) {
      assert p == Canonical(lens, paths[0]);
    } else {
      CanonicalFixed(lens, paths[1..], p);
    }
  }

  /** A read is only ever retired under a canonical path, which is then its own. */
  lemma {:induction false} RetiredKey(lens: Lens, details: Details, later: Message, earlier: Message)
    requires CanonicalPaths(lens) && Prunable(lens, earlier) && Retires(lens, details, later, earlier)
    ensures Identity(lens, earlier) == LookupKey(lens, earlier)
  {
    var p := LookupKey(lens, earlier).0;
    assert Canonical(lens, p) == p by {
      if p in Mutated(lens, details, later) {
        var (name, arguments) := Resolve(details, later);
        var md := Enrich(lens, later).metadata;
        var field := if md.files.Truthy() then md.files else md.changedFiles;
        if field.PathList? { CanonicalFixed(lens, field.paths, p); }
      }
    }
  }

  lemma {:induction false} ReplacesTransitive(lens: Lens, k: Message, j: Message, i: Message)
    requires Replaces(lens, j, i) && Replaces(lens, k, j) && Identity(lens, j) == LookupKey(lens, j)
    ensures Replaces(lens, k, i)
  {
  }

  /** Every pruned read is justified: by induction along the chain of reads that supersede it. */
  lemma {:induction false} PrunedReadJustified(lens: Lens, details: Details, ms: Conversation, i: nat)
    requires CanonicalPaths(lens) && i < |ms| && ReadSuperseded(lens, details, ms, i)
    ensures ReadJustified(lens, details, ms, i)
    decreases |ms| - i
  {
    var j :| i < j < |ms| && Retires(lens, details, ms[j], ms[i]);
    var p := LookupKey(lens, ms[i]).0;
    if p !in Mutated(lens, details, ms[j]) {
      assert Replaces(lens, ms[j], ms[i]);
      if ReadSuperseded(lens, details, ms, j) {
        PrunedReadJustified(lens, details, ms, j);
        var n :| j < n < |ms| && Retires(lens, details, ms[n], ms[j]);
        RetiredKey(lens, details, ms[n], ms[j]);
        assert LookupKey(lens, ms[j]).0 == p;
        if k :| j < k < |ms| && p in Mutated(lens, details, ms[k]) {
        } else {
          var k :| j < k < |ms| && Replaces(lens, ms[k], ms[j]) && !ReadSuperseded(lens, details, ms, k);
          ReplacesTransitive(lens, ms[k], ms[j], ms[i]);
        }
      }
    }
  }

  // ---------------------------------------------------------------------------
  // Call details do not depend on how much of the conversation is in sight
  // ---------------------------------------------------------------------------

  ghost predicate Occurs(ms: Conversation, id: string, name: string, arguments: Arguments) {
    exists i, p :: 0 <= i < |ms| && 0 <= p < |ms[i].toolCalls| && ms[i].toolCalls[p] == ToolCall(id, name, arguments)
  }

  ghost predicate OnlyAs(calls: seq<ToolCall>, id: string, name: string, arguments: Arguments) {
    forall p :: 0 <= p < |calls| && calls[p].id == id ==> calls[p] == ToolCall(id, name, arguments)
  }

  lemma {:induction false} DetailsAppend(ms: Conversation, m: Message)
    ensures CallDetails(ms + [m]) == AddCalls(CallDetails(ms), m.toolCalls)
  {
    assert (ms + [m])[..|ms|] == ms;
  }

  lemma {:induction false} AddCallsFinds(
    details: Details, calls: seq<ToolCall>, id: string, name: string, arguments: Arguments)
    requires OnlyAs(calls, id, name, arguments)
    ensures
      var d := AddCalls(details, calls);
      if (exists p :: 0 <= p < |calls| && calls[p].id == id) then id in d && d[id] == (name, arguments)
      else (id in d <==> id in details) && (id in d ==> d[id] == details[id])
  {
    if calls != [] {
      var n := |calls| - 1;
      AddCallsFinds(details, calls[..n], id, name, arguments);
      if calls[n].id != id && exists p :: 0 <= p < |calls| && calls[p].id == id {
        var p :| 0 <= p < |calls| && calls[p].id == id;
        assert calls[..n][p].id == id;
      }
    }
  }

  /** A call id that always stands for the same call is found as that call. */
  lemma {:induction false} DetailsFind(ms: Conversation, id: string, name: string, arguments: Arguments)
    requires forall i :: 0 <= i < |ms| ==> OnlyAs(ms[i].toolCalls, id, name, arguments)
    ensures
      if Occurs(ms, id, name, arguments) then id in CallDetails(ms) && CallDetails(ms)[id] == (name, arguments)
      else id !in CallDetails(ms)
  {
    if ms != [] {
      var n := |ms| - 1;
      DetailsFind(ms[..n], id, name, arguments);
      AddCallsFinds(CallDetails(ms[..n]), ms[n].toolCalls, id, name, arguments);
      if Occurs(ms[..n], id, name, arguments) {
        var i, p :| 0 <= i < n && 0 <= p < |ms[..n][i].toolCalls| &&
          ms[..n][i].toolCalls[p] == ToolCall(id, name, arguments);
        assert ms[i].toolCalls[p] == ToolCall(id, name, arguments);
      }
      if p :| 0 <= p < |ms[n].toolCalls| && ms[n].toolCalls[p].id == id {
        assert ms[n].toolCalls[p] == ToolCall(id, name, arguments);
      }
      if Occurs(ms, id, name, arguments) {
        var i, p :| 0 <= i < |ms| && 0 <= p < |ms[i].toolCalls| && ms[i].toolCalls[p] == ToolCall(id, name, arguments);
        assert i < n ==> ms[..n][i].toolCalls[p] == ToolCall(id, name, arguments);
      }
    }
  }

  /** No call on a message that opens no batch, which the checker ignores, bears the id of a call of a batch. */
  ghost predicate ForeignIdsApart(ms: Conversation) {
    forall i, j :: 0 <= i < |ms| && 0 <= j < |ms| && Calls(ms[i]) && !Calls(ms[j]) ==> DisjointIds(ms[i], ms[j])
  }

  /** The tool results in `ms[lo..hi]` resolve to the same calls inside that window as in `ms`. */
  ghost predicate Stable(ms: Conversation, lo: nat, hi: nat)
    requires lo <= hi <= |ms|
  {
    forall t :: lo <= t < hi && ms[t].role.Tool? ==>
      Resolve(CallDetails(ms[lo..hi]), ms[t]) == Resolve(CallDetails(ms), ms[t])
  }

  lemma {:induction false} ApartAt(ms: Conversation, o: nat, i: nat)
    requires ForeignIdsApart(ms) && o < |ms| && i < |ms| && Calls(ms[o])
    ensures Calls(ms[i]) || DisjointIds(ms[o], ms[i])
  {
  }

  lemma {:induction false} OwnerIsOnly(ms: Conversation, o: nat, p: nat)
    requires Grammar(ms) && ForeignIdsApart(ms)
    requires o < |ms| && Calls(ms[o]) && p < |ms[o].toolCalls|
    ensures
      var c := ms[o].toolCalls[p];
      forall i :: 0 <= i < |ms| ==> OnlyAs(ms[i].toolCalls, c.id, c.name, c.arguments)
  {
    var c := ms[o].toolCalls[p];
    forall i, q | 0 <= i < |ms| && 0 <= q < |ms[i].toolCalls| && ms[i].toolCalls[q].id == c.id
      ensures ms[i].toolCalls[q] == c
    {
      ApartAt(ms, o, i);
      assert Fresh(ms, i, o) && GoodBatch(ms, o);
      if i == o {
        assert CallIds(ms[o].toolCalls)[p] == c.id && CallIds(ms[o].toolCalls)[q] == c.id;
      }
    }
  }

  /** The call of one batch is found under its id in every window that holds the batch. */
  lemma {:induction false} FoundInWindow(ms: Conversation, lo: nat, hi: nat, o: nat, p: nat)
    requires Grammar(ms) && ForeignIdsApart(ms)
    requires lo <= o < hi <= |ms| && Calls(ms[o]) && p < |ms[o].toolCalls|
    ensures
      var c, details := ms[o].toolCalls[p], CallDetails(ms[lo..hi]);
      c.id in details && details[c.id] == (c.name, c.arguments)
  {
    var c, w := ms[o].toolCalls[p], ms[lo..hi];
    OwnerIsOnly(ms, o, p);
    assert w[o - lo].toolCalls[p] == ToolCall(c.id, c.name, c.arguments);
    assert Occurs(w, c.id, c.name, c.arguments);
    forall i | 0 <= i < |w| ensures OnlyAs(w[i].toolCalls, c.id, c.name, c.arguments) {
      assert w[i] == ms[lo + i];
    }
    DetailsFind(w, c.id, c.name, c.arguments);
  }

  /** In a well-formed conversation every window that starts at a boundary is stable. */
  lemma {:induction false} WindowsAreStable(ms: Conversation, lo: nat, hi: nat)
    requires Grammar(ms) && ForeignIdsApart(ms)
    requires lo <= hi <= |ms| && Boundary(ms, lo)
    ensures Stable(ms, lo, hi)
  {
    assert ms[0..|ms|] == ms;
    forall t | lo <= t < hi && ms[t].role.Tool?
      ensures Resolve(CallDetails(ms[lo..hi]), ms[t]) == Resolve(CallDetails(ms), ms[t])
    {
      var o, p := Owner(ms, t);
      assert lo <= o;
      FoundInWindow(ms, lo, hi, o, p);
      FoundInWindow(ms, 0, |ms|, o, p);
    }
  }

  /** A read result resolves to a read, which is no discovery tool. */
  lemma {:induction false} ReadsDiscoverNothing(ms: Conversation, t: nat)
    requires Grammar(ms) && ForeignIdsApart(ms) && t < |ms| && IsRead(ms[t])
    ensures !Discovers(CallDetails(ms), ms[t])
  {
    var o, p := Owner(ms, t);
    assert ms[0..|ms|] == ms;
    FoundInWindow(ms, 0, |ms|, o, p);
    assert ms[o].toolCalls[p].name == "read_file";
  }

  ghost predicate OutputJustified(lens: Lens, ms: Conversation, i: nat)
    requires i < |ms|
  {
    exists j ::
      && i < j < |ms| && Repeats(CallDetails(ms), ms[j], ms[i])
      && !OutputRepeated(CallDetails(ms), ms, j) && !ReadSuperseded(lens, CallDetails(ms), ms, j)
  }

  /** Every pruned discovery output has a later one, with the same tool and arguments, that is not pruned. */
  lemma {:induction false} PrunedOutputJustified(lens: Lens, ms: Conversation, i: nat)
    requires Grammar(ms) && ForeignIdsApart(ms) && i < |ms| && OutputRepeated(CallDetails(ms), ms, i)
    ensures OutputJustified(lens, ms, i)
    decreases |ms| - i
  {
    var details := CallDetails(ms);
    var j :| i < j < |ms| && Repeats(details, ms[j], ms[i]);
    if OutputRepeated(details, ms, j) {
      PrunedOutputJustified(lens, ms, j);
      var k :| j < k < |ms| && Repeats(details, ms[k], ms[j]) &&
        !OutputRepeated(details, ms, k) && !ReadSuperseded(lens, details, ms, k);
      assert Repeats(details, ms[k], ms[i]);
    } else if IsRead(ms[j]) {
      ReadsDiscoverNothing(ms, j);
      assert false;
    }
  }

  lemma {:induction false} DetailsIgnoreContents(a: Conversation, b: Conversation)
    requires SameShapes(a, b)
    ensures CallDetails(a) == CallDetails(b)
  {
    if a != [] {
      var n := |a| - 1;
      assert SameShape(a[n], b[n]);
      forall i | 0 <= i < n ensures SameShape(a[..n][i], b[..n][i]) { assert SameShape(a[i], b[i]); }
      DetailsIgnoreContents(a[..n], b[..n]);
    }
  }

  // ---------------------------------------------------------------------------
  // A cached view extended by a suffix agrees with the view from scratch
  // ---------------------------------------------------------------------------

  /** Two messages that a provider cannot tell apart: they differ at most in bookkeeping marks. */
  ghost predicate SameView(a: Message, b: Message) {
    SameShape(a, b) && a.content == b.content && a.metadata.(marks := map[]) == b.metadata.(marks := map[])
  }

  ghost predicate SameViews(a: Conversation, b: Conversation) {
    |a| == |b| && forall i :: 0 <= i < |a| ==> SameView(a[i], b[i])
  }

  /** A placeholder for this path and hash contains no numbered lines of its own. */
  predicate Inert(lens: Lens, path: string, sha: string) {
    lens.interval(ReadPlaceholder(path, sha)).None?
  }

  ghost predicate InertReads(lens: Lens, ms: Conversation) {
    forall i :: 0 <= i < |ms| && Prunable(lens, ms[i]) ==>
      Inert(lens, LookupKey(lens, ms[i]).0, LookupKey(lens, ms[i]).1)
  }

  lemma {:induction false} EnrichStable(lens: Lens, m: Message)
    requires CanonicalPaths(lens)
    ensures Enrich(lens, Enrich(lens, m)) == Enrich(lens, m)
    ensures Identity(lens, Enrich(lens, m)) == Identity(lens, m)
    ensures LookupKey(lens, Enrich(lens, m)) == LookupKey(lens, m)
  {
    var p := m.metadata.path.GetOr("");
    assert Canonical(lens, Canonical(lens, if p != "" then p else lens.pathLine(m.content)))
        == Canonical(lens, if p != "" then p else lens.pathLine(m.content));
  }

  lemma {:induction false} PrunedReadStable(lens: Lens, m: Message)
    requires CanonicalPaths(lens) && Prunable(lens, m)
    ensures
      var v := PrunedRead(lens, m);
      && Enrich(lens, v) == v && IsRead(v) && Prunable(lens, v)
      && Identity(lens, v) == Identity(lens, m) && LookupKey(lens, v) == LookupKey(lens, m)
  {
    EnrichStable(lens, m);
  }

  /**
   * Under their own call details, `v` and `m` have the same shape and say the same
   * about other messages. Their texts may differ.
   */
  ghost predicate Alike(lens: Lens, dv: Details, v: Message, dm: Details, m: Message) {
    && SameShape(v, m)
    && Mutated(lens, dv, v) == Mutated(lens, dm, m)
    && Registered(lens, v) == Registered(lens, m)
    && Prunable(lens, v) == Prunable(lens, m)
    && (IsRead(m) ==> Identity(lens, v) == Identity(lens, m) && LookupKey(lens, v) == LookupKey(lens, m))
    && Discovers(dv, v) == Discovers(dm, m)
    && (m.role.Tool? ==> Resolve(dv, v) == Resolve(dm, m))
  }

  lemma {:induction false} MutationPathsAlike(lens: Lens, a: Metadata, b: Metadata, arguments: Arguments)
    requires a.path == b.path && a.files == b.files && a.changedFiles == b.changedFiles
    ensures MutationPaths(lens, a, arguments) == MutationPaths(lens, b, arguments)
  {
  }

  lemma {:induction false} MutatedAlike(lens: Lens, dv: Details, v: Message, dm: Details, m: Message)
    requires SameShape(v, m)
    requires m.role.Tool? ==> Resolve(dv, v) == Resolve(dm, m)
    requires Enrich(lens, v).metadata.path == Enrich(lens, m).metadata.path
    requires v.metadata.files == m.metadata.files && v.metadata.changedFiles == m.metadata.changedFiles
    ensures Mutated(lens, dv, v) == Mutated(lens, dm, m)
  {
    MutationPathsAlike(lens, Enrich(lens, v).metadata, Enrich(lens, m).metadata, Resolve(dm, m).1);
  }

  lemma {:induction false} PrunedReadAlike(lens: Lens, dv: Details, dm: Details, m: Message)
    requires CanonicalPaths(lens) && Prunable(lens, m) && Resolve(dv, m) == Resolve(dm, m)
    ensures Alike(lens, dv, PrunedRead(lens, m), dm, m)
  {
    PrunedReadStable(lens, m);
    MutatedAlike(lens, dv, PrunedRead(lens, m), dm, m);
  }

  lemma {:induction false} EnrichedAlike(lens: Lens, dv: Details, dm: Details, m: Message)
    requires CanonicalPaths(lens) && (m.role.Tool? ==> Resolve(dv, m) == Resolve(dm, m))
    ensures Alike(lens, dv, Enrich(lens, m), dm, m)
  {
    EnrichStable(lens, m);
    MutatedAlike(lens, dv, Enrich(lens, m), dm, m);
  }

  lemma {:induction false} PrunedOutputAlike(lens: Lens, dv: Details, dm: Details, details: Details, m: Message)
    requires m.role.Tool? && !IsRead(m) && Resolve(dv, m) == Resolve(dm, m)
    ensures Alike(lens, dv, PrunedOutput(details, m), dm, m)
  {
    MutatedAlike(lens, dv, PrunedOutput(details, m), dm, m);
  }

  /** Pruning a message does not change what it says about other messages. */
  lemma {:induction false} ViewAlike(lens: Lens, details: Details, dv: Details, dm: Details, ms: Conversation, i: nat)
    requires CanonicalPaths(lens) && i < |ms|
    requires ms[i].role.Tool? ==> Resolve(dv, ms[i]) == Resolve(dm, ms[i])
    ensures Alike(lens, dv, View(lens, details, ms, i), dm, ms[i])
  {
    if ReadSuperseded(lens, details, ms, i) {
      PrunedReadAlike(lens, dv, dm, ms[i]);
    } else if OutputRepeated(details, ms, i) {
      PrunedOutputAlike(lens, dv, dm, details, ms[i]);
    } else {
      EnrichedAlike(lens, dv, dm, ms[i]);
    }
  }

  lemma {:induction false} RetiresAlike(
    lens: Lens, dv: Details, later: Message, earlier: Message, dm: Details, later': Message, earlier': Message)
    requires Alike(lens, dv, later, dm, later') && Alike(lens, dv, earlier, dm, earlier')
    requires Prunable(lens, earlier') && earlier.content == earlier'.content
    requires later.content == later'.content
    ensures Retires(lens, dv, later, earlier) == Retires(lens, dm, later', earlier')
  {
  }

  /** A later read whose text became a placeholder can only retire a read with that same text. */
  lemma {:induction false} PlaceholderRetires(
    lens: Lens, dv: Details, later: Message, earlier: Message, dm: Details, later': Message, earlier': Message)
    requires Alike(lens, dv, later, dm, later') && Alike(lens, dv, earlier, dm, earlier')
    requires Prunable(lens, earlier') && earlier.content == earlier'.content
    requires Retires(lens, dv, later, earlier) && !Retires(lens, dm, later', earlier')
    requires lens.interval(later.content).None?
    ensures earlier'.content == later.content && IsRead(later') && LookupKey(lens, earlier') == Identity(lens, later')
  {
  }

  lemma {:induction false} RepeatsAlike(
    lens: Lens, dv: Details, later: Message, earlier: Message, dm: Details, later': Message, earlier': Message)
    requires Alike(lens, dv, later, dm, later') && Alike(lens, dv, earlier, dm, earlier') && earlier'.role.Tool?
    ensures Repeats(dv, later, earlier) == Repeats(dm, later', earlier')
  {
  }

  /** The cached view is cut at `k` and extended by `b`; `full` is the conversation from scratch. */
  ghost function Extended(lens: Lens, a: Conversation, k: nat, b: Conversation): Conversation
    requires k <= |a|
  {
    Pruned(lens, a)[k..] + b
  }

  lemma {:induction false} ExtendedDetails(lens: Lens, a: Conversation, k: nat, b: Conversation)
    requires k <= |a|
    ensures SameShapes(Extended(lens, a, k, b), (a + b)[k..])
    ensures CallDetails(Extended(lens, a, k, b)) == CallDetails((a + b)[k..])
  {
    ViewKeepsShape(lens, a);
    var r, f := Extended(lens, a, k, b), (a + b)[k..];
    forall i | 0 <= i < |r| ensures SameShape(r[i], f[i]) {
      if k + i < |a| { assert SameShape(a[k + i], Pruned(lens, a)[k + i]); }
    }
    DetailsIgnoreContents(r, f);
  }

  /** The hypotheses of the comparison, for one pair of transcripts and one cut. */
  ghost predicate Comparable(lens: Lens, a: Conversation, k: nat, b: Conversation) {
    && CanonicalPaths(lens) && InertReads(lens, a)
    && k <= |a|
    && Stable(a + b, 0, |a|) && Stable(a + b, k, |a + b|)
  }

  /** Resolution agrees between the three conversations involved. */
  lemma {:induction false} Resolutions(lens: Lens, a: Conversation, k: nat, b: Conversation, j: nat)
    requires Comparable(lens, a, k, b) && k <= j < |a + b| && (a + b)[j].role.Tool?
    ensures
      var full, r := a + b, Extended(lens, a, k, b);
      && SameShape(r[j - k], full[j])
      && Resolve(CallDetails(r), r[j - k]) == Resolve(CallDetails(full), full[j])
      && (j < |a| ==> Resolve(CallDetails(a), a[j]) == Resolve(CallDetails(full), full[j]))
  {
    var full, r := a + b, Extended(lens, a, k, b);
    ExtendedDetails(lens, a, k, b);
    assert full[k..][j - k] == full[j];
    assert SameShape(r[j - k], full[k..][j - k]);
    assert full[k..|full|] == full[k..];
    assert full[0..|a|] == a;
  }

  /** What the message at `j` says is the same in the extended cache as in the full conversation. */
  lemma {:induction false} ExtendedAlike(lens: Lens, a: Conversation, k: nat, b: Conversation, j: nat)
    requires Comparable(lens, a, k, b) && k <= j < |a + b|
    ensures
      var r := Extended(lens, a, k, b);
      Alike(lens, CallDetails(r), r[j - k], CallDetails(a + b), (a + b)[j])
  {
    var full, r := a + b, Extended(lens, a, k, b);
    if full[j].role.Tool? { Resolutions(lens, a, k, b, j); }
    if j < |a| {
      ViewAlike(lens, CallDetails(a), CallDetails(r), CallDetails(full), a, j);
      assert r[j - k] == View(lens, CallDetails(a), a, j);
    } else {
      assert r[j - k] == full[j];
    }
  }

  ghost predicate Superseded(lens: Lens, ms: Conversation, i: nat)
    requires i < |ms|
  {
    ReadSuperseded(lens, CallDetails(ms), ms, i)
  }

  /** An unpruned message keeps its text in the cache. */
  lemma {:induction false} UnprunedText(lens: Lens, a: Conversation, k: nat, b: Conversation, g: nat)
    requires k <= |a| && k <= g < |a + b|
    requires g < |a| ==> !Superseded(lens, a, g) && !OutputRepeated(CallDetails(a), a, g)
    ensures Extended(lens, a, k, b)[g - k].content == (a + b)[g].content
  {
    if g < |a| {
      assert Extended(lens, a, k, b)[g - k] == View(lens, CallDetails(a), a, g);
    } else {
      assert Extended(lens, a, k, b)[g - k] == (a + b)[g];
    }
  }

  lemma {:induction false} RetiredWithin(lens: Lens, a: Conversation, k: nat, b: Conversation, g: nat, j: nat)
    requires Comparable(lens, a, k, b) && k <= g < j < |a|
    requires Prunable(lens, a[g])
    ensures Retires(lens, CallDetails(a), a[j], a[g]) == Retires(lens, CallDetails(a + b), (a + b)[j], (a + b)[g])
  {
    if a[j].role.Tool? {
      Resolutions(lens, a, k, b, j);
      MutatedAlike(lens, CallDetails(a), a[j], CallDetails(a + b), a[j]);
    }
  }

  /** An unpruned read of the cache is superseded in the extended cache if it is in the full conversation. */
  lemma {:induction false} SupersededStays(lens: Lens, a: Conversation, k: nat, b: Conversation, g: nat)
    requires Comparable(lens, a, k, b) && k <= g < |a + b|
    requires g < |a| ==> !Superseded(lens, a, g)
    requires Superseded(lens, a + b, g)
    ensures Superseded(lens, Extended(lens, a, k, b), g - k)
  {
    var full, r := a + b, Extended(lens, a, k, b);
    var j :| g < j < |full| && Retires(lens, CallDetails(full), full[j], full[g]);
    if j < |a| { RetiredWithin(lens, a, k, b, g, j); }
    assert |a| <= j;
    ExtendedAlike(lens, a, k, b, g);
    ExtendedAlike(lens, a, k, b, j);
    UnprunedText(lens, a, k, b, g);
    UnprunedText(lens, a, k, b, j);
    RetiresAlike(lens, CallDetails(r), r[j - k], r[g - k], CallDetails(full), full[j], full[g]);
  }

  /**
   * Conversely, an unpruned read that the extended cache supersedes is superseded in
   * the full conversation, or its text is already the placeholder that replaces it.
   */
  lemma {:induction false} SupersededOrInert(lens: Lens, a: Conversation, k: nat, b: Conversation, g: nat)
    requires Comparable(lens, a, k, b) && k <= g < |a + b|
    requires g < |a| ==> !Superseded(lens, a, g)
    requires Superseded(lens, Extended(lens, a, k, b), g - k)
    ensures
      || Superseded(lens, a + b, g)
      || (a + b)[g].content == ReadPlaceholder(LookupKey(lens, (a + b)[g]).0, LookupKey(lens, (a + b)[g]).1)
  {
    PrunableAlike(lens, a, k, b, g);
    forall j | OnlyIn(lens, Extended(lens, a, k, b), a + b, k, g, j)
      ensures (a + b)[g].content == ReadPlaceholder(LookupKey(lens, (a + b)[g]).0, LookupKey(lens, (a + b)[g]).1)
    {
      RetiredByPlaceholder(lens, a, k, b, g, j);
    }
    RetiredInBoth(lens, Extended(lens, a, k, b), a + b, k, g);
  }

  /** Of two conversations, the second longer by `k` messages in front, only the first retires `g` by `j`. */
  ghost predicate OnlyIn(lens: Lens, short: Conversation, long: Conversation, k: nat, g: nat, j: int) {
    && k <= g < j < |long| && |short| == |long| - k
    && Retires(lens, CallDetails(short), short[j - k], short[g - k])
    && !Retires(lens, CallDetails(long), long[j], long[g])
  }

  lemma {:induction false} RetiredInBoth(lens: Lens, short: Conversation, long: Conversation, k: nat, g: nat)
    requires k <= g < |long| && |short| == |long| - k
    requires Prunable(lens, long[g]) && Superseded(lens, short, g - k)
    ensures Superseded(lens, long, g) || exists j :: OnlyIn(lens, short, long, k, g, j)
  {
    var i := Retirer(lens, short, g - k);
    var j := i + k;
    if Retires(lens, CallDetails(long), long[j], long[g]) {
      RetiredIsSuperseded(lens, long, g, j);
    } else {
      assert OnlyIn(lens, short, long, k, g, j);
    }
  }

  lemma {:induction false} Retirer(lens: Lens, ms: Conversation, g: nat) returns (j: nat)
    requires g < |ms| && Superseded(lens, ms, g)
    ensures g < j < |ms| && Retires(lens, CallDetails(ms), ms[j], ms[g])
  {
    j :| g < j < |ms| && Retires(lens, CallDetails(ms), ms[j], ms[g]);
  }

  lemma {:induction false} RetiredIsSuperseded(lens: Lens, ms: Conversation, g: nat, j: nat)
    requires g < j < |ms| && Prunable(lens, ms[g]) && Retires(lens, CallDetails(ms), ms[j], ms[g])
    ensures Superseded(lens, ms, g)
  {
  }

  lemma {:induction false} PrunableAlike(lens: Lens, a: Conversation, k: nat, b: Conversation, g: nat)
    requires Comparable(lens, a, k, b) && k <= g < |a + b|
    ensures Prunable(lens, Extended(lens, a, k, b)[g - k]) == Prunable(lens, (a + b)[g])
  {
    ExtendedAlike(lens, a, k, b, g);
  }

  lemma {:induction false} RetiredByPlaceholder(lens: Lens, a: Conversation, k: nat, b: Conversation, g: nat, j: nat)
    requires Comparable(lens, a, k, b) && k <= g < j < |a + b|
    requires g < |a| ==> !Superseded(lens, a, g)
    requires Prunable(lens, (a + b)[g])
    requires
      var r := Extended(lens, a, k, b);
      && Retires(lens, CallDetails(r), r[j - k], r[g - k])
      && !Retires(lens, CallDetails(a + b), (a + b)[j], (a + b)[g])
    ensures (a + b)[g].content == ReadPlaceholder(LookupKey(lens, (a + b)[g]).0, LookupKey(lens, (a + b)[g]).1)
  {
    var full, r := a + b, Extended(lens, a, k, b);
    var later, earlier := r[j - k], r[g - k];
    ExtendedAlike(lens, a, k, b, g);
    ExtendedAlike(lens, a, k, b, j);
    UnprunedText(lens, a, k, b, g);
    if later.content == full[j].content {
      RetiresAlike(lens, CallDetails(r), later, earlier, CallDetails(full), full[j], full[g]);
    } else {
      PrunedInCache(lens, a, k, b, j);
      if Superseded(lens, a, j) {
        PlaceholderRetires(lens, CallDetails(r), later, earlier, CallDetails(full), full[j], full[g]);
      }
    }
  }

  /** A message of the cache whose text changed was pruned, and then its text is inert. */
  lemma {:induction false} PrunedInCache(lens: Lens, a: Conversation, k: nat, b: Conversation, j: nat)
    requires Comparable(lens, a, k, b) && k <= j < |a + b|
    requires Extended(lens, a, k, b)[j - k].content != (a + b)[j].content
    ensures j < |a|
    ensures
      var v := Extended(lens, a, k, b)[j - k];
      if Superseded(lens, a, j) then
        && v.content == ReadPlaceholder(Identity(lens, a[j]).0, Identity(lens, a[j]).1)
        && lens.interval(v.content).None?
      else !IsRead(a[j])
  {
    if j >= |a| || (!Superseded(lens, a, j) && !OutputRepeated(CallDetails(a), a, j)) {
      UnprunedText(lens, a, k, b, j);
    } else {
      assert Extended(lens, a, k, b)[j - k] == View(lens, CallDetails(a), a, j);
      if Superseded(lens, a, j) {
        var n :| j < n < |a| && Retires(lens, CallDetails(a), a[n], a[j]);
        RetiredKey(lens, CallDetails(a), a[n], a[j]);
        assert Inert(lens, LookupKey(lens, a[j]).0, LookupKey(lens, a[j]).1);
      }
    }
  }

  ghost predicate Repeated(ms: Conversation, i: nat)
    requires i < |ms|
  {
    OutputRepeated(CallDetails(ms), ms, i)
  }

  lemma {:induction false} RepeatedAlike(lens: Lens, a: Conversation, k: nat, b: Conversation, g: nat)
    requires Comparable(lens, a, k, b) && k <= g < |a + b|
    ensures Repeated(Extended(lens, a, k, b), g - k) <==> Repeated(a + b, g)
  {
    var full, r := a + b, Extended(lens, a, k, b);
    var df, dr := CallDetails(full), CallDetails(r);
    ExtendedAlike(lens, a, k, b, g);
    if full[g].role.Tool? {
      forall j | g < j < |full| ensures Repeats(df, full[j], full[g]) == Repeats(dr, r[j - k], r[g - k]) {
        ExtendedAlike(lens, a, k, b, j);
        RepeatsAlike(lens, dr, r[j - k], r[g - k], df, full[j], full[g]);
      }
      if Repeated(full, g) {
        var j :| g < j < |full| && Repeats(df, full[j], full[g]);
        assert Repeats(dr, r[j - k], r[g - k]);
      }
      if Repeated(r, g - k) {
        var i :| g - k < i < |r| && Repeats(dr, r[i], r[g - k]);
        assert Repeats(df, full[i + k], full[g]);
      }
    }
  }

  /** What was superseded or repeated stays so when messages are appended. */
  lemma {:induction false} PrunedStaysPruned(lens: Lens, a: Conversation, k: nat, b: Conversation, g: nat)
    requires Comparable(lens, a, k, b) && k <= g < |a|
    ensures Superseded(lens, a, g) ==> Superseded(lens, a + b, g)
    ensures Repeated(a, g) ==> Repeated(a + b, g)
    ensures a[g].role.Tool? ==> Resolve(CallDetails(a), a[g]) == Resolve(CallDetails(a + b), a[g])
  {
    var full := a + b;
    if a[g].role.Tool? { Resolutions(lens, a, k, b, g); }
    if Superseded(lens, a, g) {
      var j :| g < j < |a| && Retires(lens, CallDetails(a), a[j], a[g]);
      RetiredWithin(lens, a, k, b, g, j);
    }
    if Repeated(a, g) {
      var j :| g < j < |a| && Repeats(CallDetails(a), a[j], a[g]);
      Resolutions(lens, a, k, b, j);
      assert Repeats(CallDetails(full), full[j], full[g]);
    }
  }

  /** The comparison at one position. */
  lemma {:induction false} AgreesAt(lens: Lens, a: Conversation, k: nat, b: Conversation, g: nat)
    requires Comparable(lens, a, k, b) && k <= g < |a + b|
    ensures SameView(Pruned(lens, Extended(lens, a, k, b))[g - k], Pruned(lens, a + b)[g])
  {
    var full, r := a + b, Extended(lens, a, k, b);
    ExtendedAlike(lens, a, k, b, g);
    RepeatedAlike(lens, a, k, b, g);
    EnrichStable(lens, full[g]);
    if g < |a| {
      assert r[g - k] == View(lens, CallDetails(a), a, g);
      PrunedStaysPruned(lens, a, k, b, g);
    } else {
      assert r[g - k] == full[g];
    }
    if g < |a| && Superseded(lens, a, g) {
      PrunedReadStable(lens, a[g]);
    } else {
      if Superseded(lens, full, g) { SupersededStays(lens, a, k, b, g); }
      if Superseded(lens, r, g - k) { SupersededOrInert(lens, a, k, b, g); }
    }
  }

  /**
   * Incremental pruning: cutting a cached view anywhere, appending messages and pruning
   * again shows the provider exactly what pruning the whole conversation would.
   */
  lemma {:induction false} IncrementalPruningAgrees(lens: Lens, a: Conversation, k: nat, b: Conversation)
    requires Comparable(lens, a, k, b)
    ensures SameViews(Pruned(lens, Pruned(lens, a)[k..] + b), Pruned(lens, a + b)[k..])
  {
    forall g: nat | k <= g < |a + b|
      ensures SameView(Pruned(lens, Extended(lens, a, k, b))[g - k], Pruned(lens, a + b)[g])
    {
      AgreesAt(lens, a, k, b, g);
    }
    ViewsFrom(Pruned(lens, Extended(lens, a, k, b)), Pruned(lens, a + b), k);
  }

  lemma {:induction false} ViewsFrom(short: Conversation, long: Conversation, k: nat)
    requires k <= |long| && |short| == |long| - k
    requires forall g: nat :: k <= g < |long| ==> SameView(short[g - k], long[g])
    ensures SameViews(short, long[k..])
  {
    forall i | 0 <= i < |short| ensures SameView(short[i], long[k..][i]) {
      assert SameView(short[k + i - k], long[k + i]);
    }
  }

  /** The same for well-formed conversations, which are comparable at every boundary. */
  lemma {:induction false} CachedViewAgrees(lens: Lens, a: Conversation, k: nat, b: Conversation)
    requires CanonicalPaths(lens) && InertReads(lens, a)
    requires Grammar(a + b) && ForeignIdsApart(a + b)
    requires k <= |a| && Boundary(a + b, k)
    ensures SameViews(Pruned(lens, Pruned(lens, a)[k..] + b), Pruned(lens, a + b)[k..])
  {
    assert Boundary(a + b, 0) by { if a + b != [] { assert Attached(a + b, 0); } }
    WindowsAreStable(a + b, 0, |a|);
    WindowsAreStable(a + b, k, |a + b|);
    IncrementalPruningAgrees(lens, a, k, b);
  }

  /** Pruning is idempotent. */
  lemma {:induction false} PruningIdempotent(lens: Lens, ms: Conversation)
    requires CanonicalPaths(lens) && InertReads(lens, ms)
    ensures SameViews(Pruned(lens, Pruned(lens, ms)), Pruned(lens, ms))
  {
    assert ms + [] == ms && ms[0..|ms|] == ms;
    assert Pruned(lens, ms)[0..] + [] == Pruned(lens, ms);
    IncrementalPruningAgrees(lens, ms, 0, []);
  }
}
