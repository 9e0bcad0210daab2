/**
 * The event bus: events are buffered, and a flush stores and traces a batch of them under a
 * lock while further events are emitted. A persist or trace call takes all of its batch or none.
 */
module EventBus {
  import opened Wrappers

  datatype Event = Event(kind: string, body: string)

  /** Whether events are persisted, whether deltas are too, and whether events are traced. */
  datatype Options = Options(persists: bool, deltas: bool, traces: bool)

  const BUFFERED: set<string> := {"model.text_delta", "model.reasoning_delta", "model.tool_call_delta"}
  const BATCH := 64

  predicate Delta(e: Event) {
    e.kind in BUFFERED
  }

  predicate Eligible(o: Options, e: Event) {
    o.persists && (o.deltas || !Delta(e))
  }

  /** Where the flush that holds the lock is; a batch is taken before it is written. */
  datatype Phase =
    | Idle
    | Persisting(batch: seq<Event>)
    | Persisted(batch: seq<Event>)
    | Tracing(batch: seq<Event>)
    | Traced(batch: seq<Event>)

  /** The buffers, what has been stored and traced, and the flush in progress. */
  datatype Core = Core(
    pending: seq<Event>,
    tracePending: seq<Event>,
    stored: seq<Event>,
    traced: seq<Event>,
    phase: Phase)

  const EMPTY := Core([], [], [], [], Idle)

  // ---------------------------------------------------------------------------
  // The sections between suspension points, on values
  // ---------------------------------------------------------------------------

  function Buffered(o: Options, c: Core, e: Event): Core {
    c.(pending := if Eligible(o, e) then c.pending + [e] else c.pending,
       tracePending := if o.traces then c.tracePending + [e] else c.tracePending)
  }

  /** Whether the emission that left the buffers like this must flush. */
  predicate MustFlush(o: Options, c: Core, e: Event) {
    (o.traces || o.persists) && (!Delta(e) || Max(|c.pending|, |c.tracePending|) >= BATCH)
  }

  function TraceStage(o: Options, c: Core): Core {
    c.(phase := if o.traces && c.tracePending != [] then Tracing(c.tracePending) else Idle)
  }

  function Begun(o: Options, c: Core): Core {
    if o.persists && c.pending != [] then c.(phase := Persisting(c.pending)) else TraceStage(o, c)
  }

  function Stored(c: Core): Core
    requires c.phase.Persisting?
  {
    c.(stored := c.stored + c.phase.batch, phase := Persisted(c.phase.batch))
  }

  function Dropped(o: Options, c: Core): Core
    requires c.phase.Persisted? && |c.phase.batch| <= |c.pending|
  {
    TraceStage(o, c.(pending := c.pending[|c.phase.batch|..]))
  }

  function Written(c: Core): Core
    requires c.phase.Tracing?
  {
    c.(traced := c.traced + c.phase.batch, phase := Traced(c.phase.batch))
  }

  function Finished(c: Core): Core
    requires c.phase.Traced? && |c.phase.batch| <= |c.tracePending|
  {
    c.(tracePending := c.tracePending[|c.phase.batch|..], phase := Idle)
  }

  function Broken(c: Core): Core {
    c.(phase := Idle)
  }

  // ---------------------------------------------------------------------------
  // The mutable bus
  // ---------------------------------------------------------------------------

  class Bus {
    const options: Options
    var pending: seq<Event>
    var tracePending: seq<Event>
    var stored: seq<Event>
    var traced: seq<Event>
    var phase: Phase

    function Value(): Core
      reads this
    {
      Core(pending, tracePending, stored, traced, phase)
    }

    constructor (options: Options)
      ensures this.options == options && Value() == EMPTY
    {
      this.options := options;
      pending, tracePending, stored, traced, phase := [], [], [], [], Idle;
    }

    /** The first section of an emission: buffer the event and decide whether to flush. */
    method Emit(e: Event) returns (flush: bool)
      modifies this`pending, this`tracePending
      ensures Value() == Buffered(options, old(Value()), e)
      ensures flush <==> MustFlush(options, Value(), e)
    {
      if options.persists && (options.deltas || e.kind !in BUFFERED) {
        pending := pending + [e];
      }
      if options.traces {
        tracePending := tracePending + [e];
      }
      flush := false;
      if options.traces || options.persists {
        var size := Max(|pending|, |tracePending|);
        flush := e.kind !in BUFFERED || size >= BATCH;
      }
    }

    /** Take the batch to trace, or end the flush. */
    method EnterTrace()
      modifies this`phase
      ensures Value() == TraceStage(options, old(Value()))
    {
      phase := Idle;
      if options.traces && tracePending != [] {
        phase := Tracing(tracePending);
      }
    }

    /** A flush that has the lock takes the batch to persist. */
    method BeginFlush()
      modifies this`phase
      ensures Value() == Begun(options, old(Value()))
    {
      if options.persists && pending != [] {
        phase := Persisting(pending);
      } else {
        EnterTrace();
      }
    }

    /** The persist call has returned. */
    method Persist()
      requires phase.Persisting?
      modifies this`stored, this`phase
      ensures Value() == Stored(old(Value()))
    {
      stored, phase := stored + phase.batch, Persisted(phase.batch);
    }

    /** The flush resumes after a persist call: forget what was stored. */
    method DropStored()
      requires phase.Persisted? && |phase.batch| <= |pending|
      modifies this`pending, this`phase
      ensures Value() == Dropped(options, old(Value()))
    {
      pending := pending[|phase.batch|..];
      EnterTrace();
    }

    /** The trace call has returned. */
    method Trace()
      requires phase.Tracing?
      modifies this`traced, this`phase
      ensures Value() == Written(old(Value()))
    {
      traced, phase := traced + phase.batch, Traced(phase.batch);
    }

    /** The flush resumes after a trace call, forgets what was traced and releases the lock. */
    method FinishFlush()
      requires phase.Traced? && |phase.batch| <= |tracePending|
      modifies this`tracePending, this`phase
      ensures Value() == Finished(old(Value()))
    {
      tracePending := tracePending[|phase.batch|..];
      phase := Idle;
    }
  }

  /** An emission flushes for an event that is no streamed delta, or once 64 events are buffered. */
  lemma {:induction false} WhenToFlush(o: Options, c: Core, e: Event)
    ensures MustFlush(o, c, e) <==>
      && (o.traces || o.persists)
      && (|| (e.kind != "model.text_delta" && e.kind != "model.reasoning_delta" && e.kind != "model.tool_call_delta")
          || |c.pending| >= 64 || |c.tracePending| >= 64)
  {
  }
}
