/** Exactly which inputs a cached provider view may be extended for. */
module PruningLimits {
  import opened Wrappers
  import opened Transcript
  import opened Pruning
  import opened PruningTheorems
  import Text

  function AssistantMessage(id: string, calls: seq<ToolCall>): Message {
    Message(id, Assistant, "", calls, None, None, false, NO_METADATA)
  }

  function ToolMessage(id: string, call: string, tool: string, content: string, metadata: Metadata): Message {
    Message(id, Tool, content, [], Some(call), Some(tool), false, metadata)
  }

  // ---------------------------------------------------------------------------
  // Placeholders that look like numbered source lines
  // ---------------------------------------------------------------------------

  ghost predicate ReadsOnly(lens: Lens, ms: Conversation, path: string, sha: string) {
    forall i :: 0 <= i < |ms| && Prunable(lens, ms[i]) ==> LookupKey(lens, ms[i]) == (path, sha)
  }

  ghost predicate IdempotentOn(lens: Lens, path: string, sha: string) {
    forall ms: Conversation :: Grammar(ms) && ReadsOnly(lens, ms, path, sha) ==>
      SameViews(Pruned(lens, Pruned(lens, ms)), Pruned(lens, ms))
  }

  function ReadMetadata(path: string, sha: string): Metadata {
    NO_METADATA.(path := Some(path), sha256 := Some(sha))
  }

  function ReadCalls(): seq<ToolCall> {
    [ToolCall("c1", "read_file", map[]), ToolCall("c2", "read_file", map[]), ToolCall("c3", "read_file", map[])]
  }

  function ReadResults(path: string, sha: string, first: string, last: string): Conversation {
    var md := ReadMetadata(path, sha);
    [
      ToolMessage("m1", "c1", "read_file", first, md),
      ToolMessage("m2", "c2", "read_file", last, md),
      ToolMessage("m3", "c3", "read_file", last, md)
    ]
  }

  /** One batch of three reads of one path: `first`, then `last` twice. */
  function ThreeReads(path: string, sha: string, first: string, last: string): Conversation {
    [AssistantMessage("m0", ReadCalls())] + ReadResults(path, sha, first, last)
  }

  /** A batch whose calls all name one tool, answered in order. */
  lemma {:induction false} UniformBatch(assistant: Message, run: Conversation, tool: string)
    requires Calls(assistant) && GoodIds(assistant.toolCalls) && |run| == |assistant.toolCalls|
    requires forall k :: 0 <= k < |run| ==>
      run[k].role.Tool? && ResultId(run[k]) == assistant.toolCalls[k].id
      && run[k].toolName == Some(tool) && assistant.toolCalls[k].name == tool
    ensures Grammar([assistant] + run)
  {
    assert ResultIds(run) == CallIds(assistant.toolCalls);
    forall k | 0 <= k < |run| ensures NamesAgree(assistant.toolCalls, run[k]) {
    }
    BatchGrammar(assistant, run);
  }

  lemma {:induction false} ShortIds()
    ensures !Text.Blank("c1") && !Text.Blank("c2") && !Text.Blank("c3")
    ensures "c1" != "c2" && "c1" != "c3" && "c2" != "c3"
  {
    Text.StripFixed("c1");
    Text.StripFixed("c2");
    Text.StripFixed("c3");
    assert "c1"[1] != "c2"[1] && "c1"[1] != "c3"[1] && "c2"[1] != "c3"[1];
  }

  lemma {:induction false} ReadCallsGood()
    ensures GoodIds(ReadCalls())
  {
    ShortIds();
    var ids := CallIds(ReadCalls());
    assert ids[0] == "c1" && ids[1] == "c2" && ids[2] == "c3";
  }

  lemma {:induction false} ThreeReadsGrammar(path: string, sha: string, first: string, last: string)
    ensures Grammar(ThreeReads(path, sha, first, last)) && ForeignIdsApart(ThreeReads(path, sha, first, last))
  {
    ReadCallsGood();
    ResultsMatchCalls(path, sha, first, last);
    UniformBatch(AssistantMessage("m0", ReadCalls()), ReadResults(path, sha, first, last), "read_file");
    BatchCallsOnly(AssistantMessage("m0", ReadCalls()), ReadResults(path, sha, first, last));
  }

  lemma {:induction false} ResultsMatchCalls(path: string, sha: string, first: string, last: string)
    ensures |ReadResults(path, sha, first, last)| == |ReadCalls()| == 3
    ensures forall k :: 0 <= k < 3 ==>
      var m := ReadResults(path, sha, first, last)[k];
      && m.role.Tool? && m.toolCalls == [] && ResultId(m) == ReadCalls()[k].id
      && m.toolName == Some("read_file") && ReadCalls()[k].name == "read_file"
  {
  }

  lemma {:induction false} BatchCallsOnly(assistant: Message, run: Conversation)
    requires assistant.role.Assistant? && forall k :: 0 <= k < |run| ==> run[k].toolCalls == []
    ensures ForeignIdsApart([assistant] + run)
  {
  }

  lemma {:induction false} ReadMutatesNothing(lens: Lens, details: Details, m: Message, path: string)
    requires m.role.Tool? && m.metadata.changedFiles.Absent?
    requires Resolve(details, m).0 == "read_file"
    ensures path !in Mutated(lens, details, m)
  {
  }

  lemma {:induction false} ThreeReadsView(lens: Lens, path: string, sha: string, first: string, last: string)
    requires path != "" && sha != "" && Canonical(lens, path) == path
    requires lens.interval(last).None? && first != last
    ensures
      var ms := ThreeReads(path, sha, first, last);
      && Pruned(lens, ms)[1] == ms[1]
      && Pruned(lens, ms)[2] == PrunedRead(lens, ms[2])
  {
    var ms := ThreeReads(path, sha, first, last);
    var d := CallDetails(ms);
    forall t | 1 <= t < 4 ensures Resolve(d, ms[t]) == ("read_file", map[]) {
      ThreeReadsResolve(path, sha, first, last, t);
    }
    forall j | 1 < j < 4 ensures !Retires(lens, d, ms[j], ms[1]) {
      ReadMutatesNothing(lens, d, ms[j], path);
    }
    assert Retires(lens, d, ms[3], ms[2]);
  }

  lemma {:induction false} ThreeReadsResolve(path: string, sha: string, first: string, last: string, t: nat)
    requires 1 <= t < 4
    ensures
      var ms := ThreeReads(path, sha, first, last);
      Resolve(CallDetails(ms), ms[t]) == ("read_file", map[])
  {
    var ms := ThreeReads(path, sha, first, last);
    ThreeReadsGrammar(path, sha, first, last);
    var o, p := Owner(ms, t);
    assert ms[0..|ms|] == ms;
    FoundInWindow(ms, 0, |ms|, o, p);
  }

  lemma {:induction false} ThreeReadsOnly(lens: Lens, path: string, sha: string, first: string, last: string)
    requires path != "" && sha != ""
    ensures ReadsOnly(lens, ThreeReads(path, sha, first, last), path, sha)
  {
  }

  /** If a placeholder has line numbers, pruning the pruned view again removes a read that nothing supersedes. */
  lemma {:induction false} NumberedPlaceholderBreaks(lens: Lens, path: string, sha: string, first: string, last: string)
    requires path != "" && sha != "" && Canonical(lens, path) == path
    requires lens.interval(last).None? && first != last && first != ReadPlaceholder(path, sha)
    requires Covers(lens.interval(ReadPlaceholder(path, sha)), lens.interval(first))
    ensures
      var ms := ThreeReads(path, sha, first, last);
      !SameViews(Pruned(lens, Pruned(lens, ms)), Pruned(lens, ms))
  {
    ThreeReadsView(lens, path, sha, first, last);
    PrunedTwice(lens, path, sha, first, last);
  }

  lemma {:induction false} PrunedTwice(lens: Lens, path: string, sha: string, first: string, last: string)
    requires path != "" && sha != "" && Canonical(lens, path) == path
    requires first != ReadPlaceholder(path, sha)
    requires Covers(lens.interval(ReadPlaceholder(path, sha)), lens.interval(first))
    requires
      var ms := ThreeReads(path, sha, first, last);
      Pruned(lens, ms)[1] == ms[1] && Pruned(lens, ms)[2] == PrunedRead(lens, ms[2])
    ensures
      var ms := ThreeReads(path, sha, first, last);
      !SameViews(Pruned(lens, Pruned(lens, ms)), Pruned(lens, ms))
  {
    var v := Pruned(lens, ThreeReads(path, sha, first, last));
    var d := CallDetails(v);
    assert Identity(lens, v[2]) == (path, sha) == LookupKey(lens, v[1]);
    assert Replaces(lens, v[2], v[1]);
    assert Retires(lens, d, v[2], v[1]);
    assert ReadSuperseded(lens, d, v, 1);
    assert Pruned(lens, v)[1].content == ReadPlaceholder(path, sha);
    assert !SameView(Pruned(lens, v)[1], v[1]);
  }

  /**
   * For reads of one path and hash, pruning is idempotent on every well-formed
   * conversation exactly when the placeholder for them has no line interval. `first`
   * and `last` are texts that exist for the line numbers in question: one that the
   * placeholder's interval covers, one without line numbers.
   */
  lemma {:induction false} IdempotentExactlyWhenInert(
    lens: Lens, path: string, sha: string, first: string, last: string)
    requires CanonicalPaths(lens)
    requires path != "" && sha != "" && Canonical(lens, path) == path
    requires !Inert(lens, path, sha) ==>
               && lens.interval(last).None? && first != last && first != ReadPlaceholder(path, sha)
               && Covers(lens.interval(ReadPlaceholder(path, sha)), lens.interval(first))
    ensures Inert(lens, path, sha) <==> IdempotentOn(lens, path, sha)
  {
    if Inert(lens, path, sha) {
      forall ms: Conversation | Grammar(ms) && ReadsOnly(lens, ms, path, sha)
        ensures SameViews(Pruned(lens, Pruned(lens, ms)), Pruned(lens, ms))
      {
        PruningIdempotent(lens, ms);
      }
    } else {
      ThreeReadsGrammar(path, sha, first, last);
      ThreeReadsOnly(lens, path, sha, first, last);
      NumberedPlaceholderBreaks(lens, path, sha, first, last);
    }
  }

  // ---------------------------------------------------------------------------
  // Tool calls on messages that are not assistant messages
  // ---------------------------------------------------------------------------

  function Search(
    assistant: string, result: string, call: string, arguments: Arguments, content: string): Conversation {
    [AssistantMessage(assistant, [ToolCall(call, "grep", arguments)])] +
    [ToolMessage(result, call, "grep", content, NO_METADATA)]
  }

  /** The same search twice, under two call ids. */
  function TwoSearches(first: string, second: string, arguments: Arguments): Conversation {
    Search("m0", "m1", first, arguments, "old") + Search("m2", "m3", second, arguments, "new")
  }

  lemma {:induction false} SearchDetails(first: string, second: string, arguments: Arguments)
    ensures CallDetails(TwoSearches(first, second, arguments)) ==
            map[first := ("grep", arguments)][second := ("grep", arguments)]
  {
    var a := TwoSearches(first, second, arguments);
    assert a == ((([] + [a[0]]) + [a[1]]) + [a[2]]) + [a[3]];
    DetailsAppend([], a[0]);
    DetailsAppend([] + [a[0]], a[1]);
    DetailsAppend(([] + [a[0]]) + [a[1]], a[2]);
    DetailsAppend((([] + [a[0]]) + [a[1]]) + [a[2]], a[3]);
  }

  lemma {:induction false} SearchGrammar(
    assistant: string, result: string, call: string, arguments: Arguments, content: string)
    requires !Text.Blank(call)
    ensures Grammar(Search(assistant, result, call, arguments, content))
  {
    var m := AssistantMessage(assistant, [ToolCall(call, "grep", arguments)]);
    assert GoodIds(m.toolCalls);
    UniformBatch(m, [ToolMessage(result, call, "grep", content, NO_METADATA)], "grep");
  }

  lemma {:induction false} TwoSearchesGrammar(first: string, second: string, arguments: Arguments)
    requires !Text.Blank(first) && !Text.Blank(second) && first != second
    ensures Grammar(TwoSearches(first, second, arguments))
  {
    SearchGrammar("m0", "m1", first, arguments, "old");
    SearchGrammar("m2", "m3", second, arguments, "new");
    GrammarJoins(Search("m0", "m1", first, arguments, "old"), Search("m2", "m3", second, arguments, "new"));
  }

  /** What a result for this id resolves to after these calls. */
  function Shadow(calls: seq<ToolCall>, id: string): (string, Arguments)
    requires id in CallIds(calls)
  {
    if calls[|calls| - 1].id == id then (calls[|calls| - 1].name, calls[|calls| - 1].arguments)
    else
      assert CallIds(calls)[|calls| - 1] != id;
      EarlierIds(calls, id);
      Shadow(calls[..|calls| - 1], id)
  }

  lemma {:induction false} EarlierIds(calls: seq<ToolCall>, id: string)
    requires calls != [] && calls[|calls| - 1].id != id
    ensures id in CallIds(calls[..|calls| - 1]) <==> id in CallIds(calls)
  {
    var ids := CallIds(calls);
    if id in ids {
      var p :| 0 <= p < |ids| && ids[p] == id;
      assert CallIds(calls[..|calls| - 1])[p] == id;
    }
    if id in CallIds(calls[..|calls| - 1]) {
      var p :| 0 <= p < |calls| - 1 && CallIds(calls[..|calls| - 1])[p] == id;
      assert ids[p] == id;
    }
  }

  lemma {:induction false} ShadowWins(details: Details, calls: seq<ToolCall>, id: string)
    ensures
      var after := AddCalls(details, calls);
      if id in CallIds(calls) then id in after && after[id] == Shadow(calls, id)
      else (id in after <==> id in details) && (id in details ==> after[id] == details[id])
    decreases |calls|
  {
    if calls != [] {
      assert CallIds(calls)[|calls| - 1] == calls[|calls| - 1].id;
      if calls[|calls| - 1].id != id {
        EarlierIds(calls, id);
        ShadowWins(details, calls[..|calls| - 1], id);
      }
    }
  }

  /** Search arguments that the call of that id does not have. */
  function OtherArguments(shadow: (string, Arguments)): (arguments: Arguments)
    ensures ("grep", arguments) != shadow
  {
    var query: Arguments := map["query" := ""];
    assert "query" in query;
    if shadow == ("grep", map[]) then query else map[]
  }

  function LongestId(calls: seq<ToolCall>): (n: nat)
    ensures forall p :: 0 <= p < |calls| ==> |calls[p].id| <= n
  {
    if calls == [] then 0 else Max(|calls[0].id|, LongestId(calls[1..]))
  }

  /** An id that none of the calls has. */
  function UnusedId(calls: seq<ToolCall>): (id: string)
    ensures !Text.Blank(id) && id !in CallIds(calls)
  {
    var id := seq(LongestId(calls) + 1, _ => 'x');
    Text.StripFixed(id);
    id
  }

  /** The cached view of `x`, cut at `k` and extended by `y`, shows what the view from scratch shows. */
  ghost predicate CacheAgrees(lens: Lens, x: Conversation, k: nat, y: Conversation)
    requires k <= |x|
  {
    SameViews(Pruned(lens, Pruned(lens, x)[k..] + y), Pruned(lens, x + y)[k..])
  }

  /** Every message but that at `i` that carries tool calls is an assistant message. */
  ghost predicate OthersAreAssistants(ms: Conversation, i: int) {
    forall j :: 0 <= j < |ms| && j != i && ms[j].toolCalls != [] ==> ms[j].role.Assistant?
  }

  /** The message is the only one whose tool calls are foreign, if any are. */
  ghost predicate OnlyForeign(ms: Conversation, m: Message) {
    exists i :: 0 <= i < |ms| && ms[i] == m && OthersAreAssistants(ms, i)
  }

  /** A well-formed conversation around `m` whose view is cached and extended at boundaries. */
  ghost predicate CachedAround(lens: Lens, m: Message, x: Conversation, k: nat, y: Conversation) {
    && OnlyForeign(x + y, m) && Grammar(x + y) && InertReads(lens, x)
    && k <= |x| && Boundary(x + y, k)
  }

  /** The message never comes between the cached view and the view from scratch. */
  ghost predicate Harmless(lens: Lens, m: Message) {
    forall x: Conversation, k: nat, y: Conversation :: CachedAround(lens, m, x, k, y) ==> CacheAgrees(lens, x, k, y)
  }

  lemma {:induction false} BlankIdsAreApart(ms: Conversation, m: Message)
    requires Grammar(ms) && OnlyForeign(ms, m) && !m.role.Assistant?
    requires forall p :: 0 <= p < |m.toolCalls| ==> Text.Blank(m.toolCalls[p].id)
    ensures ForeignIdsApart(ms)
  {
    var at :| 0 <= at < |ms| && ms[at] == m && OthersAreAssistants(ms, at);
    forall i, j | 0 <= i < |ms| && 0 <= j < |ms| && Calls(ms[i]) && !Calls(ms[j]) ensures DisjointIds(ms[i], ms[j]) {
      assert GoodBatch(ms, i);
      BatchIdsAreNotBlank(ms[i], ms[j]);
    }
  }

  lemma {:induction false} BatchIdsAreNotBlank(a: Message, b: Message)
    requires GoodIds(a.toolCalls) && forall p :: 0 <= p < |b.toolCalls| ==> Text.Blank(b.toolCalls[p].id)
    ensures DisjointIds(a, b)
  {
  }

  /** Two equal searches, and then a message whose call takes over the id of the first. */
  lemma {:induction false} ShadowedView(lens: Lens, m: Message, id: string)
    requires m.role.User? || m.role.System?
    requires id in CallIds(m.toolCalls)
    ensures
      var x := TwoSearches(id, UnusedId(m.toolCalls), OtherArguments(Shadow(m.toolCalls, id)));
      !CacheAgrees(lens, x, 0, [m])
  {
    var other, arguments := UnusedId(m.toolCalls), OtherArguments(Shadow(m.toolCalls, id));
    var x := TwoSearches(id, other, arguments);
    var full, cached := x + [m], Pruned(lens, x)[0..] + [m];
    FirstSearchPruned(lens, id, other, arguments);
    ShadowedDetails(m, id, other, arguments);
    ExtendedDetails(lens, x, 0, [m]);
    assert full[0..] == full;
    NotRepeated(full, Shadow(m.toolCalls, id), arguments);
    SameShapesStayUnrepeated(lens, full, cached);
    KeptText(lens, full);
    KeptText(lens, cached);
    OldIsNoPlaceholder();
    TellsApart(Pruned(lens, cached), Pruned(lens, full), 1);
  }

  lemma {:induction false} OldIsNoPlaceholder()
    ensures OutputPlaceholder("grep") != "old"
  {
    assert OutputPlaceholder("grep")[0] == '[' && "old"[0] == 'o';
  }

  lemma {:induction false} TellsApart(a: Conversation, b: Conversation, i: nat)
    requires i < |a| == |b| && a[i].content != b[i].content
    ensures !SameViews(a, b[0..])
  {
    assert b[0..] == b && !SameView(a[i], b[i]);
  }

  lemma {:induction false} FirstSearchPruned(lens: Lens, first: string, second: string, arguments: Arguments)
    requires first != second
    ensures
      var x := TwoSearches(first, second, arguments);
      Pruned(lens, x)[1].content == OutputPlaceholder("grep")
  {
    var x := TwoSearches(first, second, arguments);
    SearchDetails(first, second, arguments);
    assert OutputRepeated(CallDetails(x), x, 1) by { assert Repeats(CallDetails(x), x[3], x[1]); }
    assert Pruned(lens, x)[1] == View(lens, CallDetails(x), x, 1);
  }

  lemma {:induction false} ShadowedDetails(m: Message, id: string, other: string, arguments: Arguments)
    requires id in CallIds(m.toolCalls) && other !in CallIds(m.toolCalls)
    ensures
      var full := TwoSearches(id, other, arguments) + [m];
      && Resolve(CallDetails(full), full[1]) == Shadow(m.toolCalls, id)
      && Resolve(CallDetails(full), full[3]) == ("grep", arguments)
  {
    var x := TwoSearches(id, other, arguments);
    SearchDetails(id, other, arguments);
    DetailsAppend(x, m);
    ShadowWins(CallDetails(x), m.toolCalls, id);
    ShadowWins(CallDetails(x), m.toolCalls, other);
  }

  /** A message that is no read and whose output is not repeated keeps its text. */
  lemma {:induction false} KeptText(lens: Lens, ms: Conversation)
    requires |ms| == 5 && !IsRead(ms[1]) && !OutputRepeated(CallDetails(ms), ms, 1)
    ensures Pruned(lens, ms)[1] == ms[1]
  {
    assert Pruned(lens, ms)[1] == View(lens, CallDetails(ms), ms, 1);
  }

  lemma {:induction false} NotRepeated(ms: Conversation, shadow: (string, Arguments), arguments: Arguments)
    requires |ms| == 5 && !ms[2].role.Tool? && !ms[4].role.Tool? && ("grep", arguments) != shadow
    requires Resolve(CallDetails(ms), ms[1]) == shadow && Resolve(CallDetails(ms), ms[3]) == ("grep", arguments)
    ensures !OutputRepeated(CallDetails(ms), ms, 1)
  {
  }

  lemma {:induction false} SameShapesStayUnrepeated(lens: Lens, a: Conversation, b: Conversation)
    requires |a| == 5 && SameShapes(a, b) && CallDetails(a) == CallDetails(b)
    requires !OutputRepeated(CallDetails(a), a, 1)
    ensures !OutputRepeated(CallDetails(b), b, 1)
  {
    forall i | 0 <= i < 5
      ensures SameShape(a[i], b[i]) && Resolve(CallDetails(a), a[i]) == Resolve(CallDetails(b), b[i])
    {
    }
    forall j | 1 < j < 5 && Repeats(CallDetails(b), b[j], b[1]) ensures Repeats(CallDetails(a), a[j], a[1]) {
    }
  }

  lemma {:induction false} ShadowedGrammar(lens: Lens, m: Message, id: string)
    requires m.role.User? || m.role.System?
    requires id in CallIds(m.toolCalls) && !Text.Blank(id)
    ensures
      var x := TwoSearches(id, UnusedId(m.toolCalls), OtherArguments(Shadow(m.toolCalls, id)));
      CachedAround(lens, m, x, 0, [m])
  {
    var other, arguments := UnusedId(m.toolCalls), OtherArguments(Shadow(m.toolCalls, id));
    var x := TwoSearches(id, other, arguments);
    TwoSearchesGrammar(id, other, arguments);
    LoneMessageGrammar(m);
    GrammarJoins(x, [m]);
    SearchesOnly(lens, id, other, arguments, m);
  }

  lemma {:induction false} SearchesOnly(lens: Lens, first: string, second: string, arguments: Arguments, m: Message)
    ensures
      var x := TwoSearches(first, second, arguments);
      OnlyForeign(x + [m], m) && InertReads(lens, x) && |x| == 4
  {
    var x := TwoSearches(first, second, arguments);
    assert OthersAreAssistants(x + [m], 4);
  }

  lemma {:induction false} LoneMessageGrammar(m: Message)
    requires m.role.User? || m.role.System?
    ensures Grammar([m])
  {
  }

  /**
   * The checker ignores tool calls on user and system messages, but the pruner resolves
   * results through them. Such a message leaves every cached view in agreement with the
   * view from scratch exactly when all its call ids are blank.
   */
  lemma {:induction false} HarmlessExactlyWhenBlank(lens: Lens, m: Message)
    requires CanonicalPaths(lens) && (m.role.User? || m.role.System?)
    ensures Harmless(lens, m) <==> forall p :: 0 <= p < |m.toolCalls| ==> Text.Blank(m.toolCalls[p].id)
  {
    if forall p :: 0 <= p < |m.toolCalls| ==> Text.Blank(m.toolCalls[p].id) {
      BlankIsHarmless(lens, m);
    } else {
      var p :| 0 <= p < |m.toolCalls| && !Text.Blank(m.toolCalls[p].id);
      assert CallIds(m.toolCalls)[p] == m.toolCalls[p].id;
      NonblankIsHarmful(lens, m, m.toolCalls[p].id);
    }
  }

  lemma {:induction false} BlankIsHarmless(lens: Lens, m: Message)
    requires CanonicalPaths(lens) && (m.role.User? || m.role.System?)
    requires forall p :: 0 <= p < |m.toolCalls| ==> Text.Blank(m.toolCalls[p].id)
    ensures Harmless(lens, m)
  {
    forall x: Conversation, k: nat, y: Conversation | CachedAround(lens, m, x, k, y)
      ensures CacheAgrees(lens, x, k, y)
    {
      BlankIdsAreApart(x + y, m);
      CachedViewAgrees(lens, x, k, y);
    }
  }

  lemma {:induction false} NonblankIsHarmful(lens: Lens, m: Message, id: string)
    requires m.role.User? || m.role.System?
    requires id in CallIds(m.toolCalls) && !Text.Blank(id)
    ensures !Harmless(lens, m)
  {
    ShadowedGrammar(lens, m, id);
    ShadowedView(lens, m, id);
  }
}
