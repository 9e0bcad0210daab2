/** Completing the tool batch that an interrupted run left unfinished. */
module Recovery {
  import opened Wrappers
  import opened Transcript
  import Text

  /** Where the trailing run of tool results begins. */
  function TailStart(ms: Conversation): (t: nat)
    ensures t <= |ms|
    ensures forall k :: t <= k < |ms| ==> ms[k].role.Tool?
    ensures t > 0 ==> !ms[t - 1].role.Tool?
  {
    if ms != [] && ms[|ms| - 1].role.Tool? then TailStart(ms[..|ms| - 1]) else |ms|
  }

  /** The assistant message whose batch ends the conversation, if there is one. */
  predicate HasTailBatch(ms: Conversation) {
    TailStart(ms) > 0 && Calls(ms[TailStart(ms) - 1])
  }

  function TailCalls(ms: Conversation): seq<ToolCall> {
    if HasTailBatch(ms) then ms[TailStart(ms) - 1].toolCalls else []
  }

  const UNKNOWN_OUTCOME: string :=
    "Unknown outcome: the previous run ended after this tool call started " +
    "but before its result was recorded. The tool may have executed."
  const NOT_STARTED: string := "Cancelled: the previous run ended before this tool call was executed."

  /** The result recorded for a call without one; a call that had started has an unknown outcome. */
  function Repair(call: ToolCall, started: bool): Message {
    Message("", Tool, if started then UNKNOWN_OUTCOME else NOT_STARTED, [], Some(call.id), Some(call.name), true,
      NO_METADATA.(marks := (if started then map["unknown_outcome" := "true", "execution_started" := "true"]
                             else map["cancelled" := "true", "not_started" := "true"])
                            + map["abandoned" := "true", "recovery" := "previous_run_ended"]))
  }

  /** One repair for each call that `observed` does not answer, in call order. */
  function RepairsFor(calls: seq<ToolCall>, observed: set<string>, running: set<string>): Conversation {
    if calls == [] then []
    else
      var call := calls[|calls| - 1];
      RepairsFor(calls[..|calls| - 1], observed, running)
      + if call.id in observed then [] else [Repair(call, call.id in running)]
  }

  function Observed(run: Conversation): set<string> {
    set m | m in run && m.role.Tool? && ResultId(m) != "" :: ResultId(m)
  }

  function Repairs(ms: Conversation, running: set<string>): Conversation {
    RepairsFor(TailCalls(ms), Observed(ms[TailStart(ms)..]), running)
  }

  ghost predicate AllResults(rs: Conversation) {
    forall k :: 0 <= k < |rs| ==> rs[k].role.Tool?
  }

  /** Some list of tool results would make the conversation well-formed. */
  ghost predicate Completable(ms: Conversation) {
    exists rs: Conversation :: AllResults(rs) && Grammar(ms + rs)
  }

  // ---------------------------------------------------------------------------
  // When an unfinished batch can be completed
  // ---------------------------------------------------------------------------

  /** A batch that is fresh and has been answered correctly so far. */
  ghost predicate OpenBatch(ms: Conversation, index: nat)
    requires index < |ms|
  {
    && Grammar(ms[..index]) && DisjointCalls(ms[..index], [ms[index]])
    && GoodIds(ms[index].toolCalls) && PartialAnswers(ms[index].toolCalls, ms[index + 1..])
  }

  lemma {:induction false} TailStartAt(ms: Conversation, t: nat)
    requires t <= |ms| && AllResults(ms[t..]) && (t > 0 ==> !ms[t - 1].role.Tool?)
    ensures TailStart(ms) == t
  {
    assert forall k | t <= k < |ms| :: ms[k] == ms[t..][k - t];
  }

  lemma {:induction false} TailStartIs(ms: Conversation, t: nat)
    requires t <= |ms| && (forall k :: t <= k < |ms| ==> ms[k].role.Tool?) && (t > 0 ==> !ms[t - 1].role.Tool?)
    ensures TailStart(ms) == t
  {
  }

  lemma {:induction false} OpenWhenCompletable(ms: Conversation, index: nat, rs: Conversation)
    requires index < |ms| && Calls(ms[index]) && AllResults(ms[index + 1..])
    requires AllResults(rs) && Grammar(ms + rs)
    ensures OpenBatch(ms, index)
    ensures Answers(ms[index].toolCalls, ms[index + 1..] + rs)
  {
    var full := ms + rs;
    GrammarSplits(full, index);
    assert full[..index] == ms[..index];
    forall i | 0 <= i < index && Calls(ms[i])
      ensures DisjointIds(ms[i], ms[index]) && DisjointIds(ms[index], ms[i])
    {
      assert Fresh(full, i, index) && Fresh(full, index, i) && full[i] == ms[i];
    }
    forall k | index + 1 <= k < |full| ensures full[k].role.Tool? {
      assert k < |ms| ==> full[k] == ms[index + 1..][k - index - 1];
    }
    BatchEnds(full, index + 1);
    assert GoodBatch(full, index);
    var calls, seen := ms[index].toolCalls, ms[index + 1..];
    assert Results(full, index) == seen + rs;
    AnswersIffComplete(calls, seen + rs);
    PartialPrefix(calls, seen, rs);
  }

  lemma {:induction false} PartialPrefix(calls: seq<ToolCall>, seen: Conversation, rs: Conversation)
    requires PartialAnswers(calls, seen + rs)
    ensures PartialAnswers(calls, seen)
  {
    assert forall i :: 0 <= i < |seen| ==> (seen + rs)[i] == seen[i];
    assert forall i :: 0 <= i < |seen| ==> ResultIds(seen + rs)[i] == ResultIds(seen)[i];
  }

  lemma {:induction false} CompleteOpenBatch(ms: Conversation, index: nat, rs: Conversation)
    requires index < |ms| && Calls(ms[index]) && AllResults(ms[index + 1..]) && AllResults(rs)
    requires OpenBatch(ms, index) && Answers(ms[index].toolCalls, ms[index + 1..] + rs)
    ensures Grammar(ms + rs)
  {
    var before, assistant, run := ms[..index], ms[index], ms[index + 1..] + rs;
    BatchGrammar(assistant, run);
    assert DisjointCalls(before, [assistant] + run);
    GrammarJoins(before, [assistant] + run);
    assert ms + rs == before + ([assistant] + run);
  }

  lemma {:induction false} RepairOne(calls: seq<ToolCall>, seen: Conversation, n: nat, started: bool)
    requires GoodIds(calls) && n < |calls| && PartialAnswers(calls, seen)
    requires calls[n].id !in ResultIds(seen)
    ensures PartialAnswers(calls, seen + [Repair(calls[n], started)])
    ensures ResultIds(seen + [Repair(calls[n], started)]) == ResultIds(seen) + [calls[n].id]
  {
    var r := Repair(calls[n], started);
    assert CallIds(calls)[n] == calls[n].id;
    assert NamesAgree(calls, r) by {
      assert forall i :: 0 <= i < |calls| && calls[i].id == calls[n].id ==> CallIds(calls)[i] == CallIds(calls)[n];
    }
    ObserveNext(calls, seen, r);
  }

  /** With `rs` recorded, the first `n` calls have results and nothing else changed. */
  ghost predicate Repaired(calls: seq<ToolCall>, seen: Conversation, rs: Conversation, n: nat)
    requires n <= |calls|
  {
    && AllResults(rs) && PartialAnswers(calls, seen + rs)
    && forall id :: id in ResultIds(seen + rs) <==> id in ResultIds(seen) || id in CallIds(calls[..n])
  }

  lemma {:induction false} MoreCallIds(calls: seq<ToolCall>, n: nat, id: string)
    requires n < |calls|
    ensures id in CallIds(calls[..n + 1]) <==> id in CallIds(calls[..n]) || id == calls[n].id
  {
    assert CallIds(calls[..n + 1]) == CallIds(calls[..n]) + [calls[n].id];
  }

  lemma {:induction false} RepairSkip(calls: seq<ToolCall>, seen: Conversation, rs: Conversation, n: nat)
    requires n < |calls| && Repaired(calls, seen, rs, n) && calls[n].id in ResultIds(seen)
    ensures Repaired(calls, seen, rs, n + 1)
  {
    forall id ensures id in CallIds(calls[..n + 1]) <==> id in CallIds(calls[..n]) || id == calls[n].id {
      MoreCallIds(calls, n, id);
    }
  }

  lemma {:induction false} RepairNext(calls: seq<ToolCall>, seen: Conversation, rs: Conversation, n: nat, started: bool)
    requires n < |calls| && GoodIds(calls) && Repaired(calls, seen, rs, n) && calls[n].id !in ResultIds(seen)
    ensures Repaired(calls, seen, rs + [Repair(calls[n], started)], n + 1)
  {
    EarlierIds(calls, n);
    RepairOne(calls, seen + rs, n, started);
    assert seen + rs + [Repair(calls[n], started)] == seen + (rs + [Repair(calls[n], started)]);
    forall id ensures id in CallIds(calls[..n + 1]) <==> id in CallIds(calls[..n]) || id == calls[n].id {
      MoreCallIds(calls, n, id);
    }
  }

  /** The repairs answer exactly the calls that have no result yet. */
  lemma {:induction false} RepairsAnswer(calls: seq<ToolCall>, seen: Conversation, running: set<string>, n: nat)
    requires GoodIds(calls) && PartialAnswers(calls, seen) && AllResults(seen) && n <= |calls|
    ensures Repaired(calls, seen, RepairsFor(calls[..n], Observed(seen), running), n)
  {
    if n == 0 {
      assert seen + [] == seen;
    } else {
      var rs := RepairsFor(calls[..n - 1], Observed(seen), running);
      RepairsAnswer(calls, seen, running, n - 1);
      assert calls[..n][..n - 1] == calls[..n - 1];
      ObservedIds(calls, seen);
      if calls[n - 1].id in Observed(seen) {
        assert rs + [] == rs;
        RepairSkip(calls, seen, rs, n - 1);
      } else {
        RepairNext(calls, seen, rs, n - 1, calls[n - 1].id in running);
      }
    }
  }

  lemma {:induction false} EarlierIds(calls: seq<ToolCall>, n: nat)
    requires GoodIds(calls) && n < |calls|
    ensures calls[n].id !in CallIds(calls[..n])
  {
    assert forall i :: 0 <= i < n ==> CallIds(calls[..n])[i] == CallIds(calls)[i];
    assert CallIds(calls)[n] == calls[n].id;
  }

  lemma {:induction false} ObservedIds(calls: seq<ToolCall>, seen: Conversation)
    requires GoodIds(calls) && PartialAnswers(calls, seen) && AllResults(seen)
    ensures forall id :: id in Observed(seen) <==> id in ResultIds(seen)
  {
    forall id ensures id in Observed(seen) <==> id in ResultIds(seen) {
      if id in ResultIds(seen) {
        var k :| 0 <= k < |seen| && ResultIds(seen)[k] == id;
        var i :| 0 <= i < |calls| && CallIds(calls)[i] == ResultId(seen[k]);
        assert !Text.Blank(calls[i].id);
        assert seen[k] in seen;
      }
      if id in Observed(seen) {
        var m :| m in seen && m.role.Tool? && ResultId(m) != "" && ResultId(m) == id;
        var k :| 0 <= k < |seen| && seen[k] == m;
        assert ResultIds(seen)[k] == id;
      }
    }
  }

  lemma {:induction false} RepairsOfBatch(ms: Conversation, index: nat, running: set<string>)
    requires index < |ms| && Calls(ms[index]) && AllResults(ms[index + 1..])
    ensures Repairs(ms, running) == RepairsFor(ms[index].toolCalls, Observed(ms[index + 1..]), running)
  {
    TailStartAt(ms, index + 1);
  }

  lemma {:induction false} RepairsAnswerAll(calls: seq<ToolCall>, seen: Conversation, running: set<string>)
    requires GoodIds(calls) && PartialAnswers(calls, seen) && AllResults(seen)
    ensures
      var rs := RepairsFor(calls, Observed(seen), running);
      AllResults(rs) && Answers(calls, seen + rs)
  {
    RepairsAnswer(calls, seen, running, |calls|);
    assert calls[..|calls|] == calls;
    AnswersIffComplete(calls, seen + RepairsFor(calls, Observed(seen), running));
  }

  lemma {:induction false} RepairsComplete(ms: Conversation, index: nat, running: set<string>)
    requires index < |ms| && Calls(ms[index]) && AllResults(ms[index + 1..]) && OpenBatch(ms, index)
    ensures Repairs(ms, running) == RepairsFor(ms[index].toolCalls, Observed(ms[index + 1..]), running)
    ensures AllResults(Repairs(ms, running)) && Grammar(ms + Repairs(ms, running))
  {
    RepairsOfBatch(ms, index, running);
    RepairsAnswerAll(ms[index].toolCalls, ms[index + 1..], running);
    CompleteOpenBatch(ms, index, Repairs(ms, running));
  }

  lemma {:induction false} NoResultAfterPlain(ms: Conversation, t: nat)
    requires Grammar(ms) && t <= |ms|
    requires t > 0 ==> !ms[t - 1].role.Tool? && !Calls(ms[t - 1])
    ensures t < |ms| ==> !ms[t].role.Tool?
  {
    assert t < |ms| ==> Attached(ms, t);
  }

  lemma {:induction false} PlainTail(ms: Conversation, rs: Conversation)
    requires !HasTailBatch(ms) && AllResults(rs) && Grammar(ms + rs)
    ensures rs == [] && TailStart(ms) == |ms|
  {
    NoResultAfterPlain(ms + rs, TailStart(ms));
  }

  /**
   * Recovery succeeds exactly when some list of results could complete the
   * conversation: the repairs complete it whenever any list does.
   */
  lemma {:induction false} RepairsIffCompletable(ms: Conversation, running: set<string>)
    ensures AllResults(Repairs(ms, running))
    ensures Completable(ms) <==> Grammar(ms + Repairs(ms, running))
  {
    RepairsAreResults(TailCalls(ms), Observed(ms[TailStart(ms)..]), running);
    if Completable(ms) {
      var rs: Conversation :| AllResults(rs) && Grammar(ms + rs);
      if HasTailBatch(ms) {
        var index := TailStart(ms) - 1;
        OpenWhenCompletable(ms, index, rs);
        RepairsComplete(ms, index, running);
      } else {
        PlainTail(ms, rs);
        assert Repairs(ms, running) == [];
      }
    }
  }

  lemma {:induction false} RepairsAreResults(calls: seq<ToolCall>, observed: set<string>, running: set<string>)
    ensures AllResults(RepairsFor(calls, observed, running))
  {
    if calls != [] { RepairsAreResults(calls[..|calls| - 1], observed, running); }
  }

  /** Nothing is left to repair once the repairs are recorded. */
  lemma {:induction false} RecoveryIdempotent(ms: Conversation, running: set<string>)
    requires Grammar(ms)
    ensures Repairs(ms, running) == []
  {
    if HasTailBatch(ms) {
      var index := TailStart(ms) - 1;
      assert ms + [] == ms;
      OpenWhenCompletable(ms, index, []);
      var calls, seen := ms[index].toolCalls, ms[index + 1..];
      assert seen + [] == seen;
      AnswersIffComplete(calls, seen);
      ObservedIds(calls, seen);
      assert ms[TailStart(ms)..] == seen;
      NothingMissing(calls, Observed(seen), running);
    }
  }

  lemma {:induction false} NothingMissing(calls: seq<ToolCall>, observed: set<string>, running: set<string>)
    requires forall id :: id in CallIds(calls) ==> id in observed
    ensures RepairsFor(calls, observed, running) == []
  {
    if calls != [] {
      var n := |calls| - 1;
      assert CallIds(calls)[n] == calls[n].id;
      forall id | id in CallIds(calls[..n]) ensures id in CallIds(calls) {
        var i :| 0 <= i < n && CallIds(calls[..n])[i] == id;
        assert CallIds(calls)[i] == id;
      }
      NothingMissing(calls[..n], observed, running);
    }
  }

  /**
   * What recovery adds: one result for each call that has none, so that results and
   * repairs together are a permutation of the calls. Recording them leaves nothing to
   * repair, whatever is known of running calls by then.
   */
  lemma {:induction false} RepairsFillTheBatch(ms: Conversation, running: set<string>, later: set<string>)
    requires Completable(ms)
    ensures HasTailBatch(ms) ==>
      multiset(ResultIds(ms[TailStart(ms)..])) + multiset(ResultIds(Repairs(ms, running))) ==
      multiset(CallIds(TailCalls(ms)))
    ensures !HasTailBatch(ms) ==> Repairs(ms, running) == []
    ensures Repairs(ms + Repairs(ms, running), later) == []
  {
    RepairsIffCompletable(ms, running);
    if HasTailBatch(ms) {
      RepairsPermute(ms, Repairs(ms, running));
    }
    RecoveryIdempotent(ms + Repairs(ms, running), later);
  }

  lemma {:induction false} RepairsPermute(ms: Conversation, rs: Conversation)
    requires HasTailBatch(ms) && AllResults(rs) && Grammar(ms + rs)
    ensures multiset(ResultIds(ms[TailStart(ms)..])) + multiset(ResultIds(rs)) == multiset(CallIds(TailCalls(ms)))
  {
    var index := TailStart(ms) - 1;
    var seen := ms[index + 1..];
    OpenWhenCompletable(ms, index, rs);
    assert ResultIds(seen + rs) == ResultIds(seen) + ResultIds(rs);
  }

  lemma {:induction false} RepairsAreForCalls(
    calls: seq<ToolCall>, observed: set<string>, running: set<string>, r: Message)
    requires r in RepairsFor(calls, observed, running)
    ensures exists c :: c in calls && c.id !in observed && r == Repair(c, c.id in running)
  {
    var n := |calls| - 1;
    if r in RepairsFor(calls[..n], observed, running) {
      RepairsAreForCalls(calls[..n], observed, running, r);
      var c :| c in calls[..n] && c.id !in observed && r == Repair(c, c.id in running);
      assert c in calls;
    } else {
      assert calls[n] in calls;
    }
  }

  /** The marks of a result whose call had started: its outcome is unknown. */
  ghost predicate SaysUnknown(r: Message) {
    && r.content == "Unknown outcome: the previous run ended after this tool call started " +
                    "but before its result was recorded. The tool may have executed."
    && "unknown_outcome" in r.metadata.marks && "execution_started" in r.metadata.marks
    && "cancelled" !in r.metadata.marks && "not_started" !in r.metadata.marks
  }

  /** The marks of a result whose call had not started: it was never executed. */
  ghost predicate SaysNotStarted(r: Message) {
    && r.content == "Cancelled: the previous run ended before this tool call was executed."
    && "cancelled" in r.metadata.marks && "not_started" in r.metadata.marks
    && "unknown_outcome" !in r.metadata.marks && "execution_started" !in r.metadata.marks
  }

  /** A repair is an error result under the id and name of a call of the unfinished batch without a result. */
  ghost predicate RepairsCall(ms: Conversation, r: Message, c: ToolCall) {
    && c in TailCalls(ms)
    && (forall k :: 0 <= k < |ms| && TailStart(ms) <= k && ms[k].toolCallId.GetOr("") != "" ==>
          ms[k].toolCallId.GetOr("") != c.id)
    && r.role.Tool? && r.isError && r.toolCalls == []
    && r.toolCallId == Some(c.id) && r.toolName == Some(c.name)
    && "abandoned" in r.metadata.marks
    && "recovery" in r.metadata.marks && r.metadata.marks["recovery"] == "previous_run_ended"
  }

  /**
   * Every repair is for a call of the unfinished batch that has no result. It says that the
   * outcome is unknown exactly if that call had started, and that it was never executed exactly if not.
   */
  lemma {:induction false} RepairsNameTheirCalls(ms: Conversation, running: set<string>, r: Message)
    requires r in Repairs(ms, running)
    ensures exists c :: RepairsCall(ms, r, c)
    ensures SaysUnknown(r) <==> ResultId(r) in running
    ensures SaysNotStarted(r) <==> ResultId(r) !in running
  {
    var run := ms[TailStart(ms)..];
    RepairsAreForCalls(TailCalls(ms), Observed(run), running, r);
    var c :| c in TailCalls(ms) && c.id !in Observed(run) && r == Repair(c, c.id in running);
    forall k | 0 <= k < |ms| && TailStart(ms) <= k && ms[k].toolCallId.GetOr("") != ""
      ensures ms[k].toolCallId.GetOr("") != c.id
    {
      assert ms[k] == run[k - TailStart(ms)] && ms[k] in run;
    }
    RepairSays(c, c.id in running);
    assert RepairsCall(ms, r, c);
  }

  lemma {:induction false} MarksDiffer()
    ensures "cancelled" !in {"unknown_outcome", "execution_started", "abandoned", "recovery"}
    ensures "unknown_outcome" !in {"cancelled", "not_started", "abandoned", "recovery"}
  {
    assert |"cancelled"| == 9 && |"unknown_outcome"| == 15 && |"execution_started"| == 17;
    assert |"recovery"| == 8 && |"not_started"| == 11 && |"abandoned"| == 9;
    assert "cancelled"[0] == 'c' && "abandoned"[0] == 'a';
  }

  /** What a repair says of its call. */
  lemma {:induction false} RepairSays(c: ToolCall, started: bool)
    ensures
      var r := Repair(c, started);
      && (SaysUnknown(r) <==> started) && (SaysNotStarted(r) <==> !started)
      && "abandoned" in r.metadata.marks
      && "recovery" in r.metadata.marks && r.metadata.marks["recovery"] == "previous_run_ended"
  {
    MarksDiffer();
    if started { StartedMarks(Repair(c, true)); } else { NotStartedMarks(Repair(c, false)); }
  }

  lemma {:induction false} StartedMarks(r: Message)
    requires r.content == UNKNOWN_OUTCOME
    requires r.metadata.marks == map["unknown_outcome" := "true", "execution_started" := "true"]
                                 + map["abandoned" := "true", "recovery" := "previous_run_ended"]
    ensures SaysUnknown(r) && "cancelled" !in r.metadata.marks
  {
    MarksDiffer();
    assert "not_started"[0] == 'n' && "unknown_outcome"[0] == 'u' && "execution_started"[0] == 'e';
    assert "abandoned"[0] == 'a' && "recovery"[0] == 'r';
  }

  lemma {:induction false} NotStartedMarks(r: Message)
    requires r.content == NOT_STARTED
    requires r.metadata.marks == map["cancelled" := "true", "not_started" := "true"]
                                 + map["abandoned" := "true", "recovery" := "previous_run_ended"]
    ensures SaysNotStarted(r) && "unknown_outcome" !in r.metadata.marks
  {
    MarksDiffer();
    assert "cancelled"[0] == 'c' && "not_started"[0] == 'n' && "execution_started"[0] == 'e';
    assert "abandoned"[0] == 'a' && "recovery"[0] == 'r';
  }

  /** Every call of the unfinished batch without a result gets a repair. */
  lemma {:induction false} EveryMissingCallIsRepaired(ms: Conversation, running: set<string>, c: ToolCall)
    requires c in TailCalls(ms) && forall k :: TailStart(ms) <= k < |ms| ==> ResultId(ms[k]) != c.id
    ensures exists r :: r in Repairs(ms, running) && r.toolCallId == Some(c.id) && r.toolName == Some(c.name)
  {
    var run := ms[TailStart(ms)..];
    forall m | m in run ensures ResultId(m) != c.id {
      var k :| 0 <= k < |run| && run[k] == m;
      assert ms[TailStart(ms) + k] == m;
    }
    RepairedAmong(TailCalls(ms), Observed(ms[TailStart(ms)..]), running, c);
  }

  lemma {:induction false} RepairedAmong(
    calls: seq<ToolCall>, observed: set<string>, running: set<string>, c: ToolCall)
    requires c in calls && c.id !in observed
    ensures Repair(c, c.id in running) in RepairsFor(calls, observed, running)
  {
    var n := |calls| - 1;
    if c != calls[n] {
      var i :| 0 <= i < |calls| && calls[i] == c;
      assert calls[..n][i] == c;
      RepairedAmong(calls[..n], observed, running, c);
    }
  }

  // ---------------------------------------------------------------------------
  // The recovery procedure
  // ---------------------------------------------------------------------------

  /** The backward scan over the trailing results. */
  method LastNonResult(ms: Conversation) returns (index: int)
    ensures index == TailStart(ms) - 1
  {
    index := |ms| - 1;
    while index >= 0 && ms[index].role.Tool?
      invariant -1 <= index < |ms|
      invariant forall k :: index < k < |ms| ==> ms[k].role.Tool?
    {
      index := index - 1;
    }
    TailStartIs(ms, index + 1);
  }

  method CollectRepairs(
    calls: seq<ToolCall>, observed: set<string>, running: set<string>) returns (repairs: Conversation)
    ensures repairs == RepairsFor(calls, observed, running)
  {
    repairs := [];
    for i := 0 to |calls|
      invariant repairs == RepairsFor(calls[..i], observed, running)
    {
      RepairsNext(calls, observed, running, i);
      if calls[i].id in observed {
        continue;
      }
      repairs := repairs + [Repair(calls[i], calls[i].id in running)];
    }
    assert calls[..|calls|] == calls;
  }

  lemma {:induction false} RepairsNext(calls: seq<ToolCall>, observed: set<string>, running: set<string>, i: nat)
    requires i < |calls|
    ensures RepairsFor(calls[..i + 1], observed, running) ==
      if calls[i].id in observed then RepairsFor(calls[..i], observed, running)
      else RepairsFor(calls[..i], observed, running) + [Repair(calls[i], calls[i].id in running)]
  {
    assert calls[..i + 1][..i] == calls[..i];
    assert RepairsFor(calls[..i], observed, running) + [] == RepairsFor(calls[..i], observed, running);
  }

  /** `_abandoned_tool_call_results`. */
  method AbandonedToolCallResults(ms: Conversation, running: set<string>) returns (r: Result<Conversation, OrderError>)
    ensures r.Success? <==> Completable(ms)
    ensures r.Success? ==> r.value == Repairs(ms, running) && Grammar(ms + r.value)
  {
    RepairsIffCompletable(ms, running);
    var index := LastNonResult(ms);
    if index < 0 || !Calls(ms[index]) {
      assert ms + [] == ms;
      var error := ValidateToolCallOrder(ms);
      return if error.Some? then Failure(error.value) else Success([]);
    }
    var repairs := CollectRepairs(ms[index].toolCalls, Observed(ms[index + 1..]), running);
    var error := ValidateToolCallOrder(ms + repairs);
    return if error.Some? then Failure(error.value) else Success(repairs);
  }
}
