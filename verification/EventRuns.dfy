/** Runs of concurrent emissions over one event bus. */
module EventRuns {
  import opened Wrappers
  import opened EventBus
  import opened Sequences

  /** An emission waits for the lock, holds it, is past its flush, was shown to observers, or failed. */
  datatype Status = Waiting | Holding | Past | Observed | Raised

  datatype State = State(core: Core, emitted: seq<Event>, status: seq<Status>, holder: nat)

  const START := State(EMPTY, [], [], 0)

  datatype Step =
    | Emit(event: Event)
    | Acquire(emission: nat)
    | PersistReturns
    | PersistFails
    | AfterPersist
    | TraceReturns
    | TraceFails
    | AfterTrace
    | Observe(emission: nat)

  /** A flush that has come to its end releases the lock. */
  function Released(s: State, core: Core): State
    requires s.holder < |s.status|
  {
    if core.phase.Idle? then s.(core := core, status := s.status[s.holder := Past]) else s.(core := core)
  }

  function Failed(s: State): State
    requires s.holder < |s.status|
  {
    s.(core := Broken(s.core), status := s.status[s.holder := Raised])
  }

  predicate Enabled(s: State, step: Step) {
    match step
    case Emit(_) => true
    case Acquire(k) => k < |s.status| && s.status[k].Waiting? && s.core.phase.Idle?
    case Observe(k) => k < |s.status| && s.status[k].Past?
    case PersistReturns => s.core.phase.Persisting?
    case PersistFails => s.core.phase.Persisting?
    case AfterPersist => s.core.phase.Persisted?
    case TraceReturns => s.core.phase.Tracing?
    case TraceFails => s.core.phase.Tracing?
    case AfterTrace => s.core.phase.Traced?
  }

  /** The lock is held by one emission, and what it is writing is a prefix of a buffer. */
  predicate Orderly(s: State) {
    && |s.status| == |s.emitted|
    && (!s.core.phase.Idle? ==> s.holder < |s.status| && s.status[s.holder].Holding?)
    && (forall k :: 0 <= k < |s.status| && s.status[k].Holding? ==> !s.core.phase.Idle? && k == s.holder)
    && match s.core.phase
       case Idle => true
       case Persisting(batch) => batch <= s.core.pending
       case Persisted(batch) => batch <= s.core.pending
       case Tracing(batch) => batch <= s.core.tracePending
       case Traced(batch) => batch <= s.core.tracePending
  }

  function Next(o: Options, s: State, step: Step): State
    requires Orderly(s)
  {
    if !Enabled(s, step) then s
    else match step
      case Emit(e) =>
        var core := Buffered(o, s.core, e);
        s.(core := core, emitted := s.emitted + [e],
           status := s.status + [if MustFlush(o, core, e) then Waiting else Past])
      case Acquire(k) => Released(s.(holder := k, status := s.status[k := Holding]), Begun(o, s.core))
      case PersistReturns => s.(core := Stored(s.core))
      case PersistFails => Failed(s)
      case AfterPersist => Released(s, Dropped(o, s.core))
      case TraceReturns => s.(core := Written(s.core))
      case TraceFails => Failed(s)
      case AfterTrace => Released(s, Finished(s.core))
      case Observe(k) => s.(status := s.status[k := Observed])
  }

  // ---------------------------------------------------------------------------
  // Stored events followed by pending ones are the eligible ones
  // ---------------------------------------------------------------------------

  function AllEligible(o: Options, events: seq<Event>): seq<Event> {
    if events == [] then []
    else
      var n := |events| - 1;
      AllEligible(o, events[..n]) + if Eligible(o, events[n]) then [events[n]] else []
  }

  /** The buffered events that are not stored yet. */
  function Unstored(c: Core): seq<Event>
    requires c.phase.Persisted? ==> |c.phase.batch| <= |c.pending|
  {
    if c.phase.Persisted? then c.pending[|c.phase.batch|..] else c.pending
  }

  function Untraced(c: Core): seq<Event>
    requires c.phase.Traced? ==> |c.phase.batch| <= |c.tracePending|
  {
    if c.phase.Traced? then c.tracePending[|c.phase.batch|..] else c.tracePending
  }

  ghost predicate Accounted(o: Options, s: State)
    requires Orderly(s)
  {
    && s.core.stored + Unstored(s.core) == AllEligible(o, s.emitted)
    && s.core.traced + Untraced(s.core) == if o.traces then s.emitted else []
  }

  /** How many events have to be stored for an emission's event to be. */
  function Rank(o: Options, emitted: seq<Event>, k: nat): nat
    requires k < |emitted|
  {
    |AllEligible(o, emitted[..k + 1])|
  }

  predicate Important(o: Options, e: Event) {
    o.persists && !Delta(e)
  }

  /** Emissions past their flush are stored, and the one that holds the lock will be. */
  predicate Covered(o: Options, s: State, k: nat)
    requires k < |s.emitted| == |s.status|
  {
    Important(o, s.emitted[k]) ==>
      match s.status[k]
      case Past => Rank(o, s.emitted, k) <= |s.core.stored|
      case Observed => Rank(o, s.emitted, k) <= |s.core.stored|
      case Holding =>
        Rank(o, s.emitted, k) <= |s.core.stored| + (if s.core.phase.Persisting? then |s.core.phase.batch| else 0)
      case _ => true
  }

  ghost predicate Safe(o: Options, s: State) {
    && Orderly(s)
    && Accounted(o, s)
    && (forall k :: 0 <= k < |s.emitted| ==> Covered(o, s, k))
  }

  lemma {:induction false} EligibleConcat(o: Options, a: seq<Event>, b: seq<Event>)
    ensures AllEligible(o, a + b) == AllEligible(o, a) + AllEligible(o, b)
  {
    if b == [] {
      assert a + b == a;
    } else {
      var n := |b| - 1;
      assert (a + b)[..|a + b| - 1] == a + b[..n];
      EligibleConcat(o, a, b[..n]);
    }
  }

  lemma {:induction false} EligibleAppend(o: Options, a: seq<Event>, e: Event)
    ensures AllEligible(o, a + [e]) == AllEligible(o, a) + if Eligible(o, e) then [e] else []
  {
    assert (a + [e])[..|a|] == a;
  }

  lemma {:induction false} RankIsBounded(o: Options, emitted: seq<Event>, k: nat)
    requires k < |emitted|
    ensures Rank(o, emitted, k) <= |AllEligible(o, emitted)|
  {
    assert emitted == emitted[..k + 1] + emitted[k + 1..];
    EligibleConcat(o, emitted[..k + 1], emitted[k + 1..]);
  }

  lemma {:induction false} RankStays(o: Options, emitted: seq<Event>, e: Event, k: nat)
    requires k < |emitted|
    ensures Rank(o, emitted + [e], k) == Rank(o, emitted, k)
  {
    assert (emitted + [e])[..k + 1] == emitted[..k + 1];
  }

  lemma {:induction false} EmitIsOrderly(o: Options, s: State, e: Event)
    requires Orderly(s)
    ensures Orderly(Next(o, s, Emit(e)))
  {
  }

  /** What an emission adds to the buffers. */
  lemma {:induction false} EmitBuffers(o: Options, s: State, e: Event)
    requires Orderly(s)
    ensures
      var t, x, y := Next(o, s, Emit(e)), if Eligible(o, e) then [e] else [], if o.traces then [e] else [];
      && Orderly(t)
      && Unstored(t.core) == Unstored(s.core) + x
      && Untraced(t.core) == Untraced(s.core) + y
  {
    EmitIsOrderly(o, s, e);
    if s.core.phase.Persisted? { DropAppend(s.core.pending, |s.core.phase.batch|, [e]); }
    if s.core.phase.Traced? { DropAppend(s.core.tracePending, |s.core.phase.batch|, [e]); }
  }

  lemma {:induction false} EmitIsAccounted(o: Options, s: State, e: Event)
    requires Orderly(s) && Accounted(o, s)
    ensures Orderly(Next(o, s, Emit(e))) && Accounted(o, Next(o, s, Emit(e)))
  {
    EmitBuffers(o, s, e);
    EligibleAppend(o, s.emitted, e);
    Regroup(s.core.stored, Unstored(s.core), if Eligible(o, e) then [e] else []);
    Regroup(s.core.traced, Untraced(s.core), if o.traces then [e] else []);
  }

  lemma {:induction false} EmitIsSafe(o: Options, s: State, e: Event)
    requires Safe(o, s)
    ensures Safe(o, Next(o, s, Emit(e)))
  {
    EmitIsAccounted(o, s, e);
    var t := Next(o, s, Emit(e));
    forall k | 0 <= k < |t.emitted| ensures Covered(o, t, k) { EmitIsCovered(o, s, e, k); }
  }

  lemma {:induction false} EmitIsCovered(o: Options, s: State, e: Event, k: nat)
    requires Orderly(s) && k <= |s.emitted| && (k < |s.emitted| ==> Covered(o, s, k))
    ensures Covered(o, Next(o, s, Emit(e)), k)
  {
    if k < |s.emitted| { RankStays(o, s.emitted, e, k); }
  }

  /** A step that emits nothing keeps the accounts when it keeps these. */
  lemma {:induction false} SameAccounts(o: Options, s: State, t: State)
    requires Orderly(s) && Orderly(t) && Accounted(o, s) && t.emitted == s.emitted
    requires t.core.stored + Unstored(t.core) == s.core.stored + Unstored(s.core)
    requires t.core.traced + Untraced(t.core) == s.core.traced + Untraced(s.core)
    ensures Accounted(o, t)
  {
  }

  lemma {:induction false} AcquireIsSafe(o: Options, s: State, k: nat)
    requires Safe(o, s) && Enabled(s, Acquire(k))
    ensures Safe(o, Next(o, s, Acquire(k)))
  {
    var t := Next(o, s, Acquire(k));
    AcquireIsOrderly(o, s, k);
    SameAccounts(o, s, t);
    forall j | 0 <= j < |t.emitted| ensures Covered(o, t, j) {
      assert Covered(o, s, j);
      AcquireCovers(o, s, k, j);
    }
  }

  lemma {:induction false} AcquireIsOrderly(o: Options, s: State, k: nat)
    requires Orderly(s) && Enabled(s, Acquire(k))
    ensures
      var t := Next(o, s, Acquire(k));
      && Orderly(t) && t.emitted == s.emitted
      && t.core.stored + Unstored(t.core) == s.core.stored + Unstored(s.core)
      && t.core.traced + Untraced(t.core) == s.core.traced + Untraced(s.core)
  {
  }

  lemma {:induction false} AcquireCovers(o: Options, s: State, k: nat, j: nat)
    requires Orderly(s) && Accounted(o, s) && Enabled(s, Acquire(k)) && j < |s.emitted| && Covered(o, s, j)
    ensures Covered(o, Next(o, s, Acquire(k)), j)
  {
    if j == k { RankIsPending(o, s, k); }
  }

  /** Storing all that is pending stores the event of every emission. */
  lemma {:induction false} RankIsPending(o: Options, s: State, k: nat)
    requires Orderly(s) && Accounted(o, s) && s.core.phase.Idle? && k < |s.emitted|
    ensures Rank(o, s.emitted, k) <= |s.core.stored| + |s.core.pending|
  {
    RankIsBounded(o, s.emitted, k);
    assert |s.core.stored + Unstored(s.core)| == |s.core.stored| + |s.core.pending|;
  }

  lemma {:induction false} PersistReturnsIsSafe(o: Options, s: State)
    requires Safe(o, s) && s.core.phase.Persisting?
    ensures Safe(o, Next(o, s, PersistReturns))
  {
    FlushIsOrderly(o, s, PersistReturns);
    var t := Next(o, s, PersistReturns);
    MovedBatch(s.core.stored, s.core.phase.batch, s.core.pending);
    SameAccounts(o, s, t);
    forall k | 0 <= k < |s.emitted| ensures Covered(o, t, k) { assert Covered(o, s, k); }
  }

  lemma {:induction false} PersistFailsIsSafe(o: Options, s: State)
    requires Safe(o, s) && s.core.phase.Persisting?
    ensures Safe(o, Next(o, s, PersistFails))
  {
    FlushIsOrderly(o, s, PersistFails);
    var t := Next(o, s, PersistFails);
    SameAccounts(o, s, t);
    forall k | 0 <= k < |s.emitted| ensures Covered(o, t, k) { assert Covered(o, s, k); }
  }

  /** A step that stores nothing covers what was covered. */
  lemma {:induction false} QuietStepIsSafe(o: Options, s: State, t: State)
    requires Safe(o, s) && Orderly(t) && t.emitted == s.emitted && t.core.stored == s.core.stored
    requires !s.core.phase.Persisting?
    requires Unstored(t.core) == Unstored(s.core)
    requires t.core.traced + Untraced(t.core) == s.core.traced + Untraced(s.core)
    requires forall k :: 0 <= k < |s.status| ==>
      (s.status[k].Waiting? ==> t.status[k].Waiting?) && (s.status[k].Raised? ==> t.status[k].Raised?)
    ensures Safe(o, t)
  {
    SameAccounts(o, s, t);
    forall k | 0 <= k < |s.emitted| ensures Covered(o, t, k) { assert Covered(o, s, k); }
  }

  lemma {:induction false} FlushIsOrderly(o: Options, s: State, step: Step)
    requires Orderly(s) && Enabled(s, step) && !step.Emit? && !step.Acquire?
    ensures Orderly(Next(o, s, step))
  {
  }

  lemma {:induction false} AfterPersistIsSafe(o: Options, s: State)
    requires Safe(o, s) && s.core.phase.Persisted?
    ensures Safe(o, Next(o, s, AfterPersist))
  {
    FlushIsOrderly(o, s, AfterPersist);
    QuietStepIsSafe(o, s, Next(o, s, AfterPersist));
  }

  lemma {:induction false} TraceReturnsIsSafe(o: Options, s: State)
    requires Safe(o, s) && s.core.phase.Tracing?
    ensures Safe(o, Next(o, s, TraceReturns))
  {
    FlushIsOrderly(o, s, TraceReturns);
    MovedBatch(s.core.traced, s.core.phase.batch, s.core.tracePending);
    QuietStepIsSafe(o, s, Next(o, s, TraceReturns));
  }

  lemma {:induction false} TraceFailsIsSafe(o: Options, s: State)
    requires Safe(o, s) && s.core.phase.Tracing?
    ensures Safe(o, Next(o, s, TraceFails))
  {
    FlushIsOrderly(o, s, TraceFails);
    QuietStepIsSafe(o, s, Next(o, s, TraceFails));
  }

  lemma {:induction false} AfterTraceIsSafe(o: Options, s: State)
    requires Safe(o, s) && s.core.phase.Traced?
    ensures Safe(o, Next(o, s, AfterTrace))
  {
    FlushIsOrderly(o, s, AfterTrace);
    QuietStepIsSafe(o, s, Next(o, s, AfterTrace));
  }

  lemma {:induction false} ObserveIsSafe(o: Options, s: State, k: nat)
    requires Safe(o, s) && Enabled(s, Observe(k))
    ensures Safe(o, Next(o, s, Observe(k)))
  {
    var t := Next(o, s, Observe(k));
    FlushIsOrderly(o, s, Observe(k));
    SameAccounts(o, s, t);
    forall j | 0 <= j < |s.emitted| ensures Covered(o, t, j) { assert Covered(o, s, j); }
  }

  lemma {:induction false} NextIsSafe(o: Options, s: State, step: Step)
    requires Safe(o, s)
    ensures Safe(o, Next(o, s, step))
  {
    if Enabled(s, step) {
      match step
      case Emit(e) => EmitIsSafe(o, s, e);
      case Acquire(k) => AcquireIsSafe(o, s, k);
      case PersistReturns => PersistReturnsIsSafe(o, s);
      case PersistFails => PersistFailsIsSafe(o, s);
      case AfterPersist => AfterPersistIsSafe(o, s);
      case TraceReturns => TraceReturnsIsSafe(o, s);
      case TraceFails => TraceFailsIsSafe(o, s);
      case AfterTrace => AfterTraceIsSafe(o, s);
      case Observe(k) => ObserveIsSafe(o, s, k);
    }
  }

  ghost predicate Reaches(o: Options, s: State, steps: seq<Step>, t: State)
    decreases |steps|
  {
    if steps == [] then s == t
    else Orderly(s) && Reaches(o, Next(o, s, steps[0]), steps[1..], t)
  }

  lemma {:induction false} RunIsSafe(o: Options, s: State, steps: seq<Step>, t: State)
    requires Safe(o, s) && Reaches(o, s, steps, t)
    ensures Safe(o, t)
    decreases |steps|
  {
    if steps != [] {
      NextIsSafe(o, s, steps[0]);
      RunIsSafe(o, Next(o, s, steps[0]), steps[1..], t);
    }
  }

  /** Every sequence of steps can be run from a safe state. */
  lemma {:induction false} EveryRunReaches(o: Options, s: State, steps: seq<Step>) returns (t: State)
    requires Safe(o, s)
    ensures Reaches(o, s, steps, t)
    decreases |steps|
  {
    t := s;
    if steps != [] {
      NextIsSafe(o, s, steps[0]);
      t := EveryRunReaches(o, Next(o, s, steps[0]), steps[1..]);
    }
  }

  /**
   * However emissions and flushes interleave, the stored events followed by those not yet
   * stored are exactly the eligible emitted ones, in order, and likewise for the trace.
   */
  lemma {:induction false} NothingIsLost(o: Options, steps: seq<Step>, s: State)
    requires Reaches(o, START, steps, s)
    ensures Orderly(s) && Accounted(o, s)
  {
    RunIsSafe(o, START, steps, s);
  }

  /** Which events are kept: all of them, without the streamed deltas unless those are wanted too. */
  predicate Wanted(o: Options, e: Event) {
    o.persists &&
    (|| o.deltas
     || (e.kind != "model.text_delta" && e.kind != "model.reasoning_delta" && e.kind != "model.tool_call_delta"))
  }

  lemma {:induction false} EligibleCount(o: Options, events: seq<Event>, e: Event)
    ensures multiset(AllEligible(o, events))[e] == if Eligible(o, e) then multiset(events)[e] else 0
  {
    if events != [] {
      var n := |events| - 1;
      EligibleCount(o, events[..n], e);
      assert events == events[..n] + [events[n]];
    }
  }

  lemma {:induction false} EligibleIsWanted(o: Options, e: Event)
    ensures Eligible(o, e) <==> Wanted(o, e)
  {
  }

  /**
   * In every interleaving, each wanted event is stored or still buffered as often as it was emitted,
   * and no other event is; and with a trace every event is traced or still buffered.
   */
  lemma {:induction false} EveryWantedEventIsKept(o: Options, steps: seq<Step>, s: State, e: Event)
    requires Reaches(o, START, steps, s)
    ensures Orderly(s)
    ensures multiset(s.core.stored + Unstored(s.core))[e] == if Wanted(o, e) then multiset(s.emitted)[e] else 0
    ensures o.traces ==> multiset(s.core.traced + Untraced(s.core))[e] == multiset(s.emitted)[e]
  {
    NothingIsLost(o, steps, s);
    EligibleCount(o, s.emitted, e);
    EligibleIsWanted(o, e);
  }

  /** Observers see an event that is not a delta only after it is stored. */
  lemma {:induction false} ObservedIsStored(o: Options, steps: seq<Step>, s: State, k: nat)
    requires Reaches(o, START, steps, s)
    requires k < |s.status| == |s.emitted| && s.status[k].Observed? && Important(o, s.emitted[k])
    ensures
      var n := |AllEligible(o, s.emitted[..k])|;
      n < |s.core.stored| && s.core.stored[n] == s.emitted[k]
  {
    RunIsSafe(o, START, steps, s);
    assert Covered(o, s, k);
    assert s.emitted[..k + 1] == s.emitted[..k] + [s.emitted[k]];
    EligibleAppend(o, s.emitted[..k], s.emitted[k]);
    assert s.emitted == s.emitted[..k + 1] + s.emitted[k + 1..];
    EligibleConcat(o, s.emitted[..k + 1], s.emitted[k + 1..]);
    var n := |AllEligible(o, s.emitted[..k])|;
    assert AllEligible(o, s.emitted)[n] == s.emitted[k];
    assert (s.core.stored + Unstored(s.core))[n] == s.core.stored[n];
  }

  // ---------------------------------------------------------------------------
  // Buffers stay small
  // ---------------------------------------------------------------------------

  predicate Unfinished(s: State) {
    exists k :: 0 <= k < |s.status| && (s.status[k].Waiting? || s.status[k].Raised?)
  }

  /** What the flush in progress will leave of the buffers. */
  predicate Small(s: State)
    requires Orderly(s)
  {
    match s.core.phase
    case Idle => |s.core.pending| < BATCH && |s.core.tracePending| < BATCH
    case Persisting(batch) => |s.core.pending| - |batch| < BATCH
    case Persisted(batch) => |s.core.pending| - |batch| < BATCH
    case Tracing(batch) => |s.core.pending| < BATCH && |s.core.tracePending| - |batch| < BATCH
    case Traced(batch) => |s.core.pending| < BATCH && |s.core.tracePending| - |batch| < BATCH
  }

  ghost predicate Bounded(o: Options, s: State) {
    && Orderly(s)
    && (o.traces || s.core.tracePending == [])
    && (o.persists || s.core.pending == [])
    && (Small(s) || Unfinished(s))
  }

  lemma {:induction false} EmitIsBounded(o: Options, s: State, e: Event)
    requires Bounded(o, s)
    ensures Bounded(o, Next(o, s, Emit(e)))
  {
    var t := Next(o, s, Emit(e));
    EmitIsOrderly(o, s, e);
    if MustFlush(o, t.core, e) {
      assert t.status[|s.status|].Waiting?;
    } else if Unfinished(s) {
      var k :| 0 <= k < |s.status| && (s.status[k].Waiting? || s.status[k].Raised?);
      assert t.status[k] == s.status[k];
    }
  }

  lemma {:induction false} OthersStay(s: State, t: State, k: nat)
    requires |s.status| == |t.status| && Unfinished(s)
    requires k < |s.status| && !s.status[k].Waiting? && !s.status[k].Raised?
    requires forall j :: 0 <= j < |s.status| && j != k ==> t.status[j] == s.status[j]
    ensures Unfinished(t)
  {
    var j :| 0 <= j < |s.status| && (s.status[j].Waiting? || s.status[j].Raised?);
    assert t.status[j] == s.status[j];
  }

  lemma {:induction false} FlushIsBounded(o: Options, s: State, step: Step)
    requires Bounded(o, s) && Orderly(Next(o, s, step)) && Enabled(s, step)
    requires !step.Emit? && !step.Acquire?
    ensures Bounded(o, Next(o, s, step))
  {
    var t := Next(o, s, step);
    var k := if step.Observe? then step.emission else s.holder;
    if step.PersistFails? || step.TraceFails? {
      assert t.status[k].Raised?;
    } else if Unfinished(s) {
      OthersStay(s, t, k);
    }
  }

  lemma {:induction false} AcquireIsBounded(o: Options, s: State, k: nat)
    requires Bounded(o, s) && Orderly(Next(o, s, Acquire(k))) && Enabled(s, Acquire(k))
    ensures Bounded(o, Next(o, s, Acquire(k)))
  {
  }

  lemma {:induction false} RunIsBounded(o: Options, s: State, steps: seq<Step>, t: State)
    requires Safe(o, s) && Bounded(o, s) && Reaches(o, s, steps, t)
    ensures Bounded(o, t)
    decreases |steps|
  {
    if steps != [] {
      var step := steps[0];
      NextIsSafe(o, s, step);
      if Enabled(s, step) {
        if step.Emit? {
          EmitIsBounded(o, s, step.event);
        } else if step.Acquire? {
          AcquireIsBounded(o, s, step.emission);
        } else {
          FlushIsBounded(o, s, step);
        }
      }
      RunIsBounded(o, Next(o, s, step), steps[1..], t);
    }
  }

  /** Once every emission has come back without error, fewer events than a batch are buffered. */
  lemma {:induction false} QuietBuffersAreSmall(o: Options, steps: seq<Step>, s: State)
    requires Reaches(o, START, steps, s)
    requires forall k :: 0 <= k < |s.status| ==> s.status[k].Past? || s.status[k].Observed?
    ensures |s.core.pending| < 64 && |s.core.tracePending| < 64
  {
    RunIsSafe(o, START, steps, s);
    RunIsBounded(o, START, steps, s);
  }
}
