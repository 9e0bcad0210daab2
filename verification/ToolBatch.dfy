/**
 * Executing the calls of one assistant message: reads run concurrently and the rest one after
 * the other, each recording its result in the durable store, and a run that is stopped closes
 * the calls that never started.
 */
module ToolBatch {
  import opened Wrappers
  import opened Transcript
  import opened SessionRuns
  import Text

  /**
   * What the environment does: the result of each call, the order in which reads complete
   * before they all have or are stopped, and how many of the other calls are executed.
   */
  datatype Execution = Execution(
    result: ToolCall -> Message,
    completed: seq<nat>,
    readsStopped: bool,
    others: nat,
    othersStopped: bool)

  predicate ResultOf(call: ToolCall, m: Message) {
    m.role.Tool? && m.toolCallId == Some(call.id) && (m.toolName.GetOr("") == "" || m.toolName == Some(call.name))
  }

  /** Results belong to their calls; reads complete at most once, and all of them unless stopped. */
  ghost predicate Possible(e: Execution, parallel: seq<ToolCall>, serial: seq<ToolCall>) {
    && (forall call :: ResultOf(call, e.result(call)))
    && (forall i :: 0 <= i < |e.completed| ==> e.completed[i] < |parallel|)
    && Distinct(e.completed)
    && (!e.readsStopped ==> forall k :: 0 <= k < |parallel| ==> k in e.completed)
    && (e.othersStopped ==> e.others <= |serial|)
    && (!e.othersStopped ==> e.others == |serial|)
  }

  /** The calls of a batch that satisfy a condition, in order. */
  function Chosen(calls: seq<ToolCall>, choose: ToolCall -> bool): (chosen: seq<ToolCall>)
    ensures forall call :: call in chosen <==> call in calls && choose(call)
  {
    if calls == [] then []
    else (if choose(calls[0]) then [calls[0]] else []) + Chosen(calls[1..], choose)
  }

  lemma {:induction false} ChosenKeepsIds(calls: seq<ToolCall>, choose: ToolCall -> bool)
    requires Distinct(CallIds(calls))
    ensures Distinct(CallIds(Chosen(calls, choose)))
  {
    if calls != [] {
      var rest := calls[1..];
      forall i, j | 0 <= i < j < |rest| ensures CallIds(rest)[i] != CallIds(rest)[j] {
        assert CallIds(calls)[i + 1] != CallIds(calls)[j + 1];
      }
      ChosenKeepsIds(rest, choose);
      var chosen := Chosen(rest, choose);
      forall j | 0 <= j < |chosen| ensures chosen[j].id != calls[0].id {
        assert chosen[j] in rest;
        var k :| 0 <= k < |rest| && rest[k] == chosen[j];
        assert CallIds(calls)[0] != CallIds(calls)[k + 1];
      }
    }
  }

  /** A result recorded when a stopped run closes a call that never started. */
  function NotStarted(call: ToolCall, reason: string): Message {
    Message("", Tool, reason, [], Some(call.id), Some(call.name), true,
      NO_METADATA.(marks := map["cancelled" := "true", "not_started" := "true"]))
  }

  /** The result says that this call was not started, and why. */
  ghost predicate Closed(m: Message, c: ToolCall, reason: string) {
    && m.role.Tool? && m.isError && m.content == reason
    && m.toolCallId == Some(c.id) && m.toolName == Some(c.name)
    && "cancelled" in m.metadata.marks && "not_started" in m.metadata.marks
  }

  /** From position `n` on, the results close calls that were not started. */
  ghost predicate Closes(calls: seq<ToolCall>, results: Conversation, n: nat, reason: string) {
    forall k :: n <= k < |results| ==> exists c :: c in calls && Closed(results[k], c, reason)
  }

  lemma {:induction false} ClosesOneMore(
    calls: seq<ToolCall>, results: Conversation, n: nat, reason: string, c: ToolCall)
    requires Closes(calls, results, n, reason) && c in calls && n <= |results|
    ensures Closes(calls, results + [NotStarted(c, reason)], n, reason)
  {
    assert Closed(NotStarted(c, reason), c, reason);
    forall k | n <= k < |results + [NotStarted(c, reason)]|
      ensures exists d :: d in calls && Closed((results + [NotStarted(c, reason)])[k], d, reason)
    {
      if k < |results| { assert exists d :: d in calls && Closed(results[k], d, reason); }
    }
  }

  /** No earlier result answers one of these calls. */
  ghost predicate Unanswered(calls: seq<ToolCall>, store: Conversation) {
    forall i :: 0 <= i < |store| && store[i].role.Tool? ==> ResultId(store[i]) !in CallIds(calls)
  }

  /** Results recorded so far: one each for some of the calls. */
  ghost predicate Recorded(calls: seq<ToolCall>, recorded: Conversation) {
    && (forall k :: 0 <= k < |recorded| ==> recorded[k].role.Tool?)
    && PartialAnswers(calls, recorded)
  }

  lemma {:induction false} SameIdSameCall(calls: seq<ToolCall>, a: ToolCall, b: ToolCall)
    requires Distinct(CallIds(calls)) && a in calls && b in calls && a.id == b.id
    ensures a == b
  {
    var i :| 0 <= i < |calls| && calls[i] == a;
    var j :| 0 <= j < |calls| && calls[j] == b;
    assert CallIds(calls)[i] == CallIds(calls)[j];
  }

  lemma {:induction false} RecordOne(calls: seq<ToolCall>, recorded: Conversation, call: ToolCall, m: Message)
    requires GoodIds(calls) && Recorded(calls, recorded) && call in calls && ResultOf(call, m)
    requires call.id !in ResultIds(recorded)
    ensures Recorded(calls, recorded + [m])
    ensures ResultIds(recorded + [m]) == ResultIds(recorded) + [call.id]
  {
    var i :| 0 <= i < |calls| && calls[i] == call;
    assert CallIds(calls)[i] == call.id;
    forall j | 0 <= j < |calls| && calls[j].id == ResultId(m) ensures calls[j].name == call.name {
      SameIdSameCall(calls, calls[j], call);
    }
    ObserveNext(calls, recorded, m);
  }

  /** Close the calls without a result; `base` is the store before the batch. */
  method RecordUnstartedCalls(
    ghost base: Conversation, store: Conversation, calls: seq<ToolCall>, reason: string,
    ghost recorded: Conversation)
    returns (after: Conversation, ghost all: Conversation)
    requires GoodIds(calls) && store == base + recorded && Unanswered(calls, base) && Recorded(calls, recorded)
    ensures after == base + all && recorded <= all
    ensures Recorded(calls, all) && Answers(calls, all)
    ensures Closes(calls, all, |recorded|, reason)
  {
    var answered := set m | m in store && m.role.Tool? && ResultId(m) != "" :: ResultId(m);
    after, all := store, recorded;
    for i := 0 to |calls|
      invariant after == base + all && recorded <= all && Recorded(calls, all)
      invariant Closes(calls, all, |recorded|, reason)
      invariant forall k :: 0 <= k < i ==> calls[k].id in ResultIds(all)
      invariant forall k :: i <= k < |calls| ==> (calls[k].id in ResultIds(all) <==> calls[k].id in ResultIds(recorded))
    {
      AnsweredMeansRecorded(base, recorded, calls, calls[i], answered);
      if calls[i].id !in answered {
        RecordOne(calls, all, calls[i], NotStarted(calls[i], reason));
        OthersUntouched(calls, all, i, NotStarted(calls[i], reason));
        ClosesOneMore(calls, all, |recorded|, reason, calls[i]);
        all := all + [NotStarted(calls[i], reason)];
        after := after + [NotStarted(calls[i], reason)];
      }
    }
    CoverIds(calls, all);
    AnswersIffComplete(calls, all);
  }

  lemma {:induction false} CoverIds(calls: seq<ToolCall>, all: Conversation)
    requires forall k :: 0 <= k < |calls| ==> calls[k].id in ResultIds(all)
    ensures forall id :: id in CallIds(calls) ==> id in ResultIds(all)
  {
    forall id | id in CallIds(calls) ensures id in ResultIds(all) {
      var k :| 0 <= k < |calls| && CallIds(calls)[k] == id;
    }
  }

  lemma {:induction false} OthersUntouched(calls: seq<ToolCall>, all: Conversation, i: nat, m: Message)
    requires i < |calls| && GoodIds(calls) && ResultIds(all + [m]) == ResultIds(all) + [calls[i].id]
    ensures forall k :: 0 <= k < |calls| && k != i ==>
      (calls[k].id in ResultIds(all + [m]) <==> calls[k].id in ResultIds(all))
    ensures calls[i].id in ResultIds(all + [m])
  {
    forall k | 0 <= k < |calls| && k != i ensures calls[k].id != calls[i].id {
      assert CallIds(calls)[k] != CallIds(calls)[i];
    }
  }

  lemma {:induction false} AnsweredMeansRecorded(
    base: Conversation, recorded: Conversation, calls: seq<ToolCall>, call: ToolCall, answered: set<string>)
    requires GoodIds(calls) && Unanswered(calls, base) && Recorded(calls, recorded) && call in calls
    requires answered == set m | m in base + recorded && m.role.Tool? && ResultId(m) != "" :: ResultId(m)
    ensures call.id in answered <==> call.id in ResultIds(recorded)
  {
    var i :| 0 <= i < |calls| && calls[i] == call;
    assert CallIds(calls)[i] == call.id && !Text.Blank(calls[i].id);
    if call.id in answered {
      var m :| m in base + recorded && m.role.Tool? && ResultId(m) == call.id;
      forall k | 0 <= k < |base| ensures base[k] != m {
      }
      assert m !in base;
      var k :| 0 <= k < |recorded| && recorded[k] == m;
      assert ResultIds(recorded)[k] == call.id;
    }
    if call.id in ResultIds(recorded) {
      var k :| 0 <= k < |recorded| && ResultIds(recorded)[k] == call.id;
      assert recorded[k] in base + recorded;
    }
  }

  /** These are the results of the completed reads, in the order of completion. */
  ghost predicate ReadsOf(e: Execution, parallel: seq<ToolCall>, recorded: Conversation) {
    && |recorded| == |e.completed|
    && forall j :: 0 <= j < |recorded| ==>
         e.completed[j] < |parallel| && recorded[j] == e.result(parallel[e.completed[j]])
  }

  /** After position `n` come the results of the first calls of `serial`, in order. */
  ghost predicate OthersOf(e: Execution, serial: seq<ToolCall>, count: nat, results: Conversation, n: nat) {
    && count <= |serial| && n + count <= |results|
    && forall j :: 0 <= j < count ==> results[n + j] == e.result(serial[j])
  }

  /**
   * The results of a batch: those of the completed reads, in that order; then, unless reads were
   * stopped, those of the other calls that were executed, in order; and results that close the rest.
   */
  ghost predicate ResultsOf(
    e: Execution, parallel: seq<ToolCall>, serial: seq<ToolCall>, calls: seq<ToolCall>, reason: string,
    results: Conversation)
  {
    var first, count := |e.completed|, if e.readsStopped then 0 else e.others;
    && first + count <= |results| && ReadsOf(e, parallel, results[..first])
    && OthersOf(e, serial, count, results, first)
    && Closes(calls, results, first + count, reason)
  }

  /** Record reads in the order in which they complete. */
  method RunReads(
    ghost base: Conversation, store: Conversation, calls: seq<ToolCall>, parallel: seq<ToolCall>, e: Execution)
    returns (after: Conversation, ghost recorded: Conversation)
    requires GoodIds(calls) && store == base && Distinct(CallIds(parallel)) && forall c :: c in parallel ==> c in calls
    requires (forall call :: ResultOf(call, e.result(call))) && Distinct(e.completed)
    requires forall i :: 0 <= i < |e.completed| ==> e.completed[i] < |parallel|
    ensures after == base + recorded && Recorded(calls, recorded)
    ensures forall id :: id in ResultIds(recorded) <==> exists k :: k in e.completed && parallel[k].id == id
    ensures ReadsOf(e, parallel, recorded)
  {
    after, recorded := store, [];
    for i := 0 to |e.completed|
      invariant after == base + recorded && Recorded(calls, recorded)
      invariant |recorded| == i && forall j :: 0 <= j < i ==> ResultIds(recorded)[j] == parallel[e.completed[j]].id
      invariant forall j :: 0 <= j < i ==> recorded[j] == e.result(parallel[e.completed[j]])
    {
      var call := parallel[e.completed[i]];
      NotYetRecorded(parallel, e.completed, i, recorded);
      RecordOne(calls, recorded, call, e.result(call));
      recorded := recorded + [e.result(call)];
      after := after + [e.result(call)];
    }
    forall id ensures id in ResultIds(recorded) <==> exists k :: k in e.completed && parallel[k].id == id {
      if id in ResultIds(recorded) {
        var j :| 0 <= j < |recorded| && ResultIds(recorded)[j] == id;
        assert e.completed[j] in e.completed;
      }
      if k :| k in e.completed && parallel[k].id == id {
        var j :| 0 <= j < |e.completed| && e.completed[j] == k;
        assert ResultIds(recorded)[j] == id;
      }
    }
  }

  lemma {:induction false} NotYetRecorded(parallel: seq<ToolCall>, completed: seq<nat>, i: nat, recorded: Conversation)
    requires Distinct(CallIds(parallel)) && Distinct(completed) && i < |completed| && |recorded| == i
    requires forall j :: 0 <= j < |completed| ==> completed[j] < |parallel|
    requires forall j :: 0 <= j < i ==> ResultIds(recorded)[j] == parallel[completed[j]].id
    ensures parallel[completed[i]].id !in ResultIds(recorded)
  {
    forall j | 0 <= j < i ensures ResultIds(recorded)[j] != parallel[completed[i]].id {
      assert completed[j] != completed[i];
      assert CallIds(parallel)[completed[j]] != CallIds(parallel)[completed[i]];
    }
  }

  /** Record the other calls in order. */
  method RunOthers(
    ghost base: Conversation, store: Conversation, calls: seq<ToolCall>, serial: seq<ToolCall>, n: nat,
    result: ToolCall -> Message, ghost parallel: Conversation)
    returns (after: Conversation, ghost recorded: Conversation)
    requires GoodIds(calls) && store == base + parallel && Recorded(calls, parallel) && n <= |serial|
    requires Distinct(CallIds(serial)) && forall c :: c in serial ==> c in calls && c.id !in ResultIds(parallel)
    requires forall call :: ResultOf(call, result(call))
    ensures after == base + recorded && Recorded(calls, recorded)
    ensures forall id :: id in ResultIds(recorded) <==> id in ResultIds(parallel) || id in CallIds(serial[..n])
    ensures parallel <= recorded && |recorded| == |parallel| + n
    ensures forall j :: 0 <= j < n ==> recorded[|parallel| + j] == result(serial[j])
  {
    after, recorded := store, parallel;
    for i := 0 to n
      invariant parallel <= recorded && |recorded| == |parallel| + i
      invariant forall j :: 0 <= j < i ==> recorded[|parallel| + j] == result(serial[j])
      invariant after == base + recorded && Recorded(calls, recorded)
      invariant ResultIds(recorded) == ResultIds(parallel) + CallIds(serial[..i])
    {
      var call := serial[i];
      assert CallIds(serial[..i + 1]) == CallIds(serial[..i]) + [call.id];
      assert call.id !in CallIds(serial[..i]) by {
        assert forall j :: 0 <= j < i ==> CallIds(serial[..i])[j] == CallIds(serial)[j];
        assert CallIds(serial)[i] == call.id;
      }
      RecordOne(calls, recorded, call, result(call));
      recorded := recorded + [result(call)];
      after := after + [result(call)];
    }
  }

  /** The messages of the calls, in the order of the calls. */
  function InOrder(calls: seq<ToolCall>, result: ToolCall -> Message): (ms: Conversation)
    ensures |ms| == |calls| && forall i :: 0 <= i < |ms| ==> ms[i] == result(calls[i])
  {
    seq(|calls|, i requires 0 <= i < |calls| => result(calls[i]))
  }

  /**
   * `_execute_calls`: whether it returns or is stopped by a cancellation, a budget or a host
   * failure, the store then holds exactly one result for every call of the batch: what its
   * execution came to, or that it was not started. A normal return gives the results in the
   * order of the calls.
   */
  method ExecuteCalls(
    store: Conversation, calls: seq<ToolCall>, concurrent: ToolCall -> bool, e: Execution, reason: string)
    returns (after: Conversation, returned: Option<Conversation>, ghost results: Conversation)
    requires GoodIds(calls) && Unanswered(calls, store)
    requires Possible(e, Chosen(calls, concurrent), Chosen(calls, c => !concurrent(c)))
    ensures after == store + results
    ensures (forall k :: 0 <= k < |results| ==> results[k].role.Tool?) && Answers(calls, results)
    ensures ResultsOf(e, Chosen(calls, concurrent), Chosen(calls, c => !concurrent(c)), calls, reason, results)
    ensures returned.Some? <==> !e.readsStopped && !e.othersStopped
    ensures returned.Some? ==> returned.value == InOrder(calls, e.result)
  {
    var parallel, serial := Chosen(calls, concurrent), Chosen(calls, c => !concurrent(c));
    ChosenKeepsIds(calls, concurrent);
    ChosenKeepsIds(calls, c => !concurrent(c));
    ghost var first;
    after, first := RunReads(store, store, calls, parallel, e);
    if e.readsStopped {
      after, results := RecordUnstartedCalls(store, after, calls, reason, first);
      StoppedInReads(e, parallel, serial, calls, reason, first, results);
      return after, None, results;
    }
    OthersNotRead(calls, concurrent, parallel, serial, first, e.completed);
    ghost var recorded;
    after, recorded := RunOthers(store, after, calls, serial, e.others, e.result, first);
    if e.othersStopped {
      after, results := RecordUnstartedCalls(store, after, calls, reason, recorded);
      PastReads(e, parallel, serial, calls, reason, first, recorded, results);
      return after, None, results;
    }
    results := recorded;
    PastReads(e, parallel, serial, calls, reason, first, recorded, results);
    assert serial[..e.others] == serial;
    AllRecorded(calls, concurrent, parallel, serial, results, e.completed);
    returned := Some(InOrder(calls, e.result));
  }

  lemma {:induction false} StoppedInReads(
    e: Execution, parallel: seq<ToolCall>, serial: seq<ToolCall>, calls: seq<ToolCall>, reason: string,
    first: Conversation, results: Conversation)
    requires e.readsStopped && ReadsOf(e, parallel, first) && first <= results
    requires Closes(calls, results, |first|, reason)
    ensures ResultsOf(e, parallel, serial, calls, reason, results)
  {
    assert results[..|first|] == first;
  }

  lemma {:induction false} PastReads(
    e: Execution, parallel: seq<ToolCall>, serial: seq<ToolCall>, calls: seq<ToolCall>, reason: string,
    first: Conversation, recorded: Conversation, results: Conversation)
    requires !e.readsStopped && ReadsOf(e, parallel, first) && first <= recorded <= results
    requires e.others <= |serial| && |recorded| == |first| + e.others
    requires forall j :: 0 <= j < e.others ==> recorded[|first| + j] == e.result(serial[j])
    requires Closes(calls, results, |recorded|, reason)
    ensures ResultsOf(e, parallel, serial, calls, reason, results)
  {
    assert results[..|first|] == first;
    forall j | 0 <= j < e.others ensures results[|first| + j] == e.result(serial[j]) {
      assert results[|first| + j] == recorded[|first| + j];
    }
  }

  lemma {:induction false} OthersNotRead(
    calls: seq<ToolCall>, concurrent: ToolCall -> bool, parallel: seq<ToolCall>, serial: seq<ToolCall>,
    recorded: Conversation, completed: seq<nat>)
    requires GoodIds(calls) && parallel == Chosen(calls, concurrent) && serial == Chosen(calls, c => !concurrent(c))
    requires forall i :: 0 <= i < |completed| ==> completed[i] < |parallel|
    requires forall id :: id in ResultIds(recorded) <==> exists k :: k in completed && parallel[k].id == id
    ensures forall c :: c in serial ==> c in calls && c.id !in ResultIds(recorded)
  {
    forall c | c in serial ensures c.id !in ResultIds(recorded) {
      if c.id in ResultIds(recorded) {
        var k :| k in completed && parallel[k].id == c.id;
        assert parallel[k] in parallel;
        SameIdSameCall(calls, parallel[k], c);
      }
    }
  }

  lemma {:induction false} AllRecorded(
    calls: seq<ToolCall>, concurrent: ToolCall -> bool, parallel: seq<ToolCall>, serial: seq<ToolCall>,
    results: Conversation, completed: seq<nat>)
    requires parallel == Chosen(calls, concurrent) && serial == Chosen(calls, c => !concurrent(c))
    requires forall i :: 0 <= i < |completed| ==> completed[i] < |parallel|
    requires forall k :: 0 <= k < |parallel| ==> k in completed
    requires forall id :: id in CallIds(serial) ==> id in ResultIds(results)
    requires forall k :: k in completed ==> parallel[k].id in ResultIds(results)
    requires GoodIds(calls) && Recorded(calls, results)
    ensures Answers(calls, results)
  {
    forall k | 0 <= k < |calls| ensures calls[k].id in ResultIds(results) {
      var call := calls[k];
      if concurrent(call) {
        assert call in parallel;
        var i :| 0 <= i < |parallel| && parallel[i] == call;
      } else {
        assert call in serial;
        var i :| 0 <= i < |serial| && serial[i] == call;
        assert CallIds(serial)[i] == call.id;
      }
    }
    CoverIds(calls, results);
    AnswersIffComplete(calls, results);
  }

  /** Ids that are new to a well-formed conversation have no results in it. */
  lemma {:induction false} NewIdsAreUnanswered(calls: seq<ToolCall>, store: Conversation, assistant: Message)
    requires Grammar(store) && NewIds(calls, store) && !assistant.role.Tool?
    ensures Unanswered(calls, store + [assistant])
  {
    forall i | 0 <= i < |store| && store[i].role.Tool? ensures ResultId(store[i]) !in CallIds(calls) {
      var o, p := Owner(store, i);
      forall q | 0 <= q < |calls| ensures calls[q].id != ResultId(store[i]) {
        assert CallIds(store[o].toolCalls)[p] == ResultId(store[i]);
        assert !UsedBefore(store, calls[q].id);
      }
    }
  }

  /** However its execution ends, a checked batch leaves a well-formed conversation. */
  lemma {:induction false} BatchesStayWellFormed(store: Conversation, assistant: Message, results: Conversation)
    requires Grammar(store) && Calls(assistant) && NewIds(assistant.toolCalls, store)
    requires (forall k :: 0 <= k < |results| ==> results[k].role.Tool?) && Answers(assistant.toolCalls, results)
    ensures Grammar(store + [assistant] + results)
  {
    BatchGrammar(assistant, results);
    var batch := [assistant] + results;
    forall i, j | 0 <= i < |store| && 0 <= j < |batch| && Calls(store[i]) && Calls(batch[j])
      ensures DisjointIds(store[i], batch[j]) && DisjointIds(batch[j], store[i])
    {
      assert j == 0;
      NewIdsAreDisjoint(store, assistant, i);
    }
    GrammarJoins(store, batch);
    assert store + batch == store + [assistant] + results;
  }

  /** Choosing keeps the order of the calls. */
  lemma {:induction false} ChosenInOrder(a: seq<ToolCall>, b: seq<ToolCall>, choose: ToolCall -> bool)
    ensures Chosen(a + b, choose) == Chosen(a, choose) + Chosen(b, choose)
  {
    if a == [] {
      assert a + b == b;
    } else {
      assert (a + b)[0] == a[0] && (a + b)[1..] == a[1..] + b;
      ChosenInOrder(a[1..], b, choose);
    }
  }
}
