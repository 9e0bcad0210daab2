/**
 * Runs of one session against its durable store: user messages, checked assistant
 * messages, results in any order, crashes at any point, and restarts that recover.
 */
module SessionRuns {
  import opened Wrappers
  import opened Transcript
  import opened Recovery
  import Text

  /** What the process is doing; a crash forgets it and leaves the store. */
  datatype Phase = Stopped | Recovering(todo: Conversation) | Live

  /** The durable messages and the call ids whose stored status is `running`. */
  datatype State = State(store: Conversation, running: set<string>, phase: Phase)

  datatype Step =
    | Start
    | RecordRepair
    | Admit(user: Message)
    | AppendUser(user: Message)
    | AppendAssistant(assistant: Message)
    | StartCall(id: string)
    | RecordResult(result: Message)
    | Crash

  // ---------------------------------------------------------------------------
  // Checking the ids of new calls
  // ---------------------------------------------------------------------------

  ghost predicate UsedBefore(store: Conversation, id: string) {
    exists i :: 0 <= i < |store| && store[i].role.Assistant? && id in CallIds(store[i].toolCalls)
  }

  /** The ids are nonblank, distinct, and not used by an earlier assistant message. */
  ghost predicate NewIds(calls: seq<ToolCall>, store: Conversation) {
    GoodIds(calls) && forall i :: 0 <= i < |calls| ==> !UsedBefore(store, calls[i].id)
  }

  /** `_validate_new_tool_call_ids`. */
  method ValidateNewToolCallIds(calls: seq<ToolCall>, store: Conversation) returns (valid: bool)
    ensures valid <==> NewIds(calls, store)
  {
    for i := 0 to |calls|
      invariant forall k :: 0 <= k < i ==> !Text.Blank(calls[k].id)
    {
      if Text.Blank(calls[i].id) {
        return false;
      }
    }
    var durable: set<string> := {};
    for i := 0 to |store|
      invariant forall id :: id in durable <==>
        exists k :: 0 <= k < i && store[k].role.Assistant? && id in CallIds(store[k].toolCalls)
    {
      if store[i].role.Assistant? {
        durable := durable + IdSet(CallIds(store[i].toolCalls));
      }
    }
    assert forall id :: id in durable <==> UsedBefore(store, id);
    var batch: set<string> := {};
    for i := 0 to |calls|
      invariant batch == IdSet(CallIds(calls[..i]))
      invariant Distinct(CallIds(calls[..i]))
      invariant forall k :: 0 <= k < i ==> calls[k].id !in durable
    {
      assert CallIds(calls[..i + 1]) == CallIds(calls[..i]) + [calls[i].id];
      if calls[i].id in durable {
        return false;
      }
      if calls[i].id in batch {
        RepeatedId(calls, i);
        return false;
      }
      batch := batch + {calls[i].id};
    }
    assert calls[..|calls|] == calls;
    return true;
  }

  lemma {:induction false} RepeatedId(calls: seq<ToolCall>, i: nat)
    requires i < |calls| && calls[i].id in CallIds(calls[..i])
    ensures !Distinct(CallIds(calls))
  {
    var k :| 0 <= k < i && CallIds(calls[..i])[k] == calls[i].id;
    assert CallIds(calls)[k] == CallIds(calls)[i];
  }

  // ---------------------------------------------------------------------------
  // Steps
  // ---------------------------------------------------------------------------

  /** The calls of the last batch that have no result yet. */
  ghost predicate Missing(store: Conversation, id: string) {
    HasTailBatch(store) && id in CallIds(TailCalls(store)) && id !in ResultIds(store[TailStart(store)..])
  }

  ghost predicate NothingPending(store: Conversation) {
    forall id :: !Missing(store, id)
  }

  /** A result that a tool execution records: it answers one missing call under that call's name. */
  ghost predicate ResultFor(store: Conversation, m: Message) {
    m.role.Tool? && Missing(store, ResultId(m)) && NamesAgree(TailCalls(store), m)
  }

  ghost predicate Enabled(s: State, step: Step) {
    match step
    case Start => s.phase.Stopped?
    case RecordRepair => s.phase.Recovering? && s.phase.todo != []
    case Admit(user) => s.phase.Recovering? && s.phase.todo == [] && user.role.User?
    case AppendUser(user) => s.phase.Live? && NothingPending(s.store) && user.role.User?
    case AppendAssistant(m) => s.phase.Live? && NothingPending(s.store) && m.role.Assistant?
    case StartCall(id) => s.phase.Live? && Missing(s.store, id)
    case RecordResult(m) => s.phase.Live? && ResultFor(s.store, m)
    case Crash => true
  }

  /**
   * One step. A run whose recovery is refused, or whose provider repeats a call id,
   * stops without storing anything.
   */
  ghost function Next(s: State, step: Step): State
    requires Enabled(s, step)
  {
    match step
    case Start =>
      if Completable(s.store) then s.(phase := Recovering(Repairs(s.store, s.running))) else s
    case RecordRepair =>
      var r := s.phase.todo[0];
      State(s.store + [r], s.running - {ResultId(r)}, Recovering(s.phase.todo[1..]))
    case Admit(user) => s.(store := s.store + [user], phase := Live)
    case AppendUser(user) => s.(store := s.store + [user])
    case AppendAssistant(m) =>
      if m.toolCalls != [] && !NewIds(m.toolCalls, s.store) then s.(phase := Stopped)
      else s.(store := s.store + [m])
    case StartCall(id) => s.(running := s.running + {id})
    case RecordResult(m) => s.(store := s.store + [m], running := s.running - {ResultId(m)})
    case Crash => s.(phase := Stopped)
  }

  /** Carrying out `steps` in order, as far as they are enabled, leads from `s` to `t`. */
  ghost predicate Run(s: State, steps: seq<Step>, t: State)
    decreases |steps|
  {
    if steps == [] then s == t
    else Enabled(s, steps[0]) && Run(Next(s, steps[0]), steps[1..], t)
  }

  const EMPTY_SESSION := State([], {}, Stopped)

  // ---------------------------------------------------------------------------
  // The invariant
  // ---------------------------------------------------------------------------

  ghost predicate Sound(s: State) {
    && Completable(s.store)
    && (s.phase.Recovering? ==> AllResults(s.phase.todo) && Grammar(s.store + s.phase.todo))
    && (forall id :: id in s.running ==> Missing(s.store, id))
  }

  lemma {:induction false} TailAfterResult(store: Conversation, m: Message)
    requires m.role.Tool?
    ensures TailStart(store + [m]) == TailStart(store)
    ensures HasTailBatch(store + [m]) == HasTailBatch(store) && TailCalls(store + [m]) == TailCalls(store)
  {
    var t := TailStart(store);
    assert (store + [m])[t..] == store[t..] + [m];
    TailStartAt(store + [m], t);
  }

  /** A recorded result removes its call from the missing ones, and no other. */
  lemma {:induction false} MissingAfterResult(store: Conversation, m: Message, id: string)
    requires m.role.Tool?
    ensures Missing(store + [m], id) <==> Missing(store, id) && id != ResultId(m)
  {
    TailAfterResult(store, m);
    var t := TailStart(store);
    assert (store + [m])[t..] == store[t..] + [m];
    assert ResultIds(store[t..] + [m]) == ResultIds(store[t..]) + [ResultId(m)];
  }

  lemma {:induction false} RunningAfterResult(s: State, m: Message)
    requires m.role.Tool? && forall id :: id in s.running ==> Missing(s.store, id)
    ensures forall id :: id in s.running - {ResultId(m)} ==> Missing(s.store + [m], id)
  {
    forall id | id in s.running - {ResultId(m)} ensures Missing(s.store + [m], id) {
      MissingAfterResult(s.store, m, id);
    }
  }

  /** In a well-formed conversation every call has its result. */
  lemma {:induction false} NothingMissingWhenWellFormed(store: Conversation)
    requires Grammar(store)
    ensures NothingPending(store)
  {
    if HasTailBatch(store) {
      var t := TailStart(store);
      assert store + [] == store && store[t - 1 + 1..] == store[t..];
      OpenWhenCompletable(store, t - 1, []);
      assert store[t..] + [] == store[t..];
      AnswersIffComplete(TailCalls(store), store[t..]);
    }
  }

  lemma {:induction false} CompleteWhenNothingPending(store: Conversation)
    requires Completable(store) && NothingPending(store)
    ensures Grammar(store)
  {
    RepairsIffCompletable(store, {});
    assert Repairs(store, {}) == [] by {
      if HasTailBatch(store) {
        var t := TailStart(store);
        var calls, seen := TailCalls(store), store[t..];
        assert store[t - 1 + 1..] == seen;
        OpenWhenCompletable(store, t - 1, Repairs(store, {}));
        ObservedIds(calls, seen);
        assert forall id :: id in CallIds(calls) ==> !Missing(store, id);
        NothingMissing(calls, Observed(seen), {});
      }
    }
    assert store + [] == store;
  }

  lemma {:induction false} AppendPlain(store: Conversation, m: Message)
    requires Grammar(store) && !m.role.Tool? && !Calls(m)
    ensures Grammar(store + [m])
  {
    assert Grammar([m]);
    GrammarJoins(store, [m]);
  }

  lemma {:induction false} WellFormedIsCompletable(store: Conversation)
    requires Grammar(store)
    ensures Completable(store)
  {
    assert store + [] == store && AllResults([]);
  }

  lemma {:induction false} NewIdsAreDisjoint(store: Conversation, assistant: Message, i: nat)
    requires NewIds(assistant.toolCalls, store) && i < |store| && Calls(store[i])
    ensures DisjointIds(store[i], assistant) && DisjointIds(assistant, store[i])
  {
    forall p, q | 0 <= p < |store[i].toolCalls| && 0 <= q < |assistant.toolCalls|
      ensures store[i].toolCalls[p].id != assistant.toolCalls[q].id
    {
      assert CallIds(store[i].toolCalls)[p] in CallIds(store[i].toolCalls);
      assert !UsedBefore(store, assistant.toolCalls[q].id);
    }
  }

  /** A checked batch of calls can be completed. */
  lemma {:induction false} AppendCalls(store: Conversation, m: Message)
    requires Grammar(store) && Calls(m) && NewIds(m.toolCalls, store)
    ensures Completable(store + [m])
  {
    var ms, index := store + [m], |store|;
    assert ms[..index] == store && ms[index + 1..] == [];
    forall i | 0 <= i < |store| && Calls(store[i]) ensures DisjointIds(store[i], m) && DisjointIds(m, store[i]) {
      NewIdsAreDisjoint(store, m, i);
    }
    RepairsComplete(ms, index, {});
  }

  /** A batch that takes one more of its results stays open. */
  lemma {:induction false} OpenAfterResult(store: Conversation, index: nat, m: Message)
    requires index < |store| && OpenBatch(store, index)
    requires PartialAnswers(store[index].toolCalls, store[index + 1..] + [m])
    ensures OpenBatch(store + [m], index)
  {
    var ms := store + [m];
    assert ms[..index] == store[..index] && ms[index + 1..] == store[index + 1..] + [m] && ms[index] == store[index];
  }

  lemma {:induction false} ResultIsPartial(store: Conversation, index: nat, m: Message)
    requires index < |store| && index == TailStart(store) - 1 && Calls(store[index]) && ResultFor(store, m)
    requires PartialAnswers(store[index].toolCalls, store[index + 1..])
    ensures PartialAnswers(store[index].toolCalls, store[index + 1..] + [m])
  {
    ObserveNext(store[index].toolCalls, store[index + 1..], m);
  }

  lemma {:induction false} ResultsFollow(store: Conversation, index: nat, m: Message)
    requires index < |store| && AllResults(store[index + 1..]) && m.role.Tool?
    ensures AllResults((store + [m])[index + 1..])
  {
    assert (store + [m])[index + 1..] == store[index + 1..] + [m];
  }

  /** Recording a missing result keeps the batch completable. */
  lemma {:induction false} AppendResult(store: Conversation, m: Message)
    requires Completable(store) && ResultFor(store, m)
    ensures Completable(store + [m])
  {
    var rs: Conversation :| AllResults(rs) && Grammar(store + rs);
    var index := TailStart(store) - 1;
    OpenWhenCompletable(store, index, rs);
    ResultIsPartial(store, index, m);
    OpenAfterResult(store, index, m);
    ResultsFollow(store, index, m);
    RepairsComplete(store + [m], index, {});
  }

  lemma {:induction false} StepKeepsSound(s: State, step: Step)
    requires Sound(s) && Enabled(s, step)
    ensures Sound(Next(s, step))
  {
    match step {
      case Start =>
        RepairsIffCompletable(s.store, s.running);
      case RecordRepair =>
        var todo := s.phase.todo;
        assert s.store + [todo[0]] + todo[1..] == s.store + todo;
        RunningAfterResult(s, todo[0]);
      case Admit(user) =>
        assert s.store + [] == s.store;
        NothingMissingWhenWellFormed(s.store);
        AppendPlain(s.store, user);
        WellFormedIsCompletable(s.store + [user]);
      case AppendUser(user) =>
        CompleteWhenNothingPending(s.store);
        AppendPlain(s.store, user);
        WellFormedIsCompletable(s.store + [user]);
      case AppendAssistant(m) =>
        CompleteWhenNothingPending(s.store);
        if m.toolCalls == [] {
          AppendPlain(s.store, m);
          WellFormedIsCompletable(s.store + [m]);
        } else if NewIds(m.toolCalls, s.store) {
          AppendCalls(s.store, m);
        }
      case StartCall(id) =>
      case RecordResult(m) =>
        AppendResult(s.store, m);
        RunningAfterResult(s, m);
      case Crash =>
    }
  }

  /** In every run the stored conversation stays repairable. */
  lemma {:induction false} RunsStayRepairable(s: State, steps: seq<Step>, t: State)
    requires Sound(s) && Run(s, steps, t)
    ensures Sound(t)
    decreases |steps|
  {
    if steps != [] {
      StepKeepsSound(s, steps[0]);
      RunsStayRepairable(Next(s, steps[0]), steps[1..], t);
    }
  }

  /**
   * From any state of any run, a restart is never refused, and recording its repairs
   * one by one leaves a well-formed conversation, whatever crashed before.
   */
  lemma {:induction false} RestartAlwaysRecovers(steps: seq<Step>, t: State)
    requires Run(EMPTY_SESSION, steps, t)
    ensures Completable(t.store)
    ensures forall id :: id in t.running ==> Missing(t.store, id)
    ensures t.phase.Stopped? ==> Next(t, Start).phase == Recovering(Repairs(t.store, t.running))
    ensures t.phase.Recovering? && t.phase.todo == [] ==> Grammar(t.store)
    ensures t.phase.Live? && NothingPending(t.store) ==> Grammar(t.store)
  {
    WellFormedIsCompletable([]);
    RunsStayRepairable(EMPTY_SESSION, steps, t);
    assert t.phase.Recovering? && t.phase.todo == [] ==> t.store + t.phase.todo == t.store;
    if t.phase.Live? && NothingPending(t.store) {
      CompleteWhenNothingPending(t.store);
    }
  }

  /** Recording every repair is possible without further choices and ends with nothing left to do. */
  lemma {:induction false} RecoveryDrains(s: State) returns (steps: seq<Step>, t: State)
    requires Sound(s) && s.phase.Recovering?
    ensures Run(s, steps, t)
    ensures t.phase == Recovering([]) && t.store == s.store + s.phase.todo && Grammar(t.store)
    decreases |s.phase.todo|
  {
    if s.phase.todo == [] {
      steps, t := [], s;
      assert s.store + [] == s.store;
    } else {
      StepKeepsSound(s, RecordRepair);
      var rest;
      rest, t := RecoveryDrains(Next(s, RecordRepair));
      steps := [RecordRepair] + rest;
      assert steps[1..] == rest;
      assert s.store + [s.phase.todo[0]] + s.phase.todo[1..] == s.store + s.phase.todo;
    }
  }

  /**
   * A restart repairs exactly the calls without a result, and what it records for each says that the
   * outcome is unknown if the call was running when the session stopped, and else that it was never executed.
   */
  lemma {:induction false} RestartTellsWhatWasRunning(s: State, r: Message)
    requires Enabled(s, Start) && Completable(s.store)
    ensures
      var t := Next(s, Start);
      && t.phase.Recovering? && t.store == s.store && t.running == s.running
      && (r in t.phase.todo ==>
            && (exists c :: RepairsCall(s.store, r, c))
            && (SaysUnknown(r) <==> ResultId(r) in s.running)
            && (SaysNotStarted(r) <==> ResultId(r) !in s.running))
  {
    if r in Repairs(s.store, s.running) { RepairsNameTheirCalls(s.store, s.running, r); }
  }
}
