/**
 * Retries inside a route and routes inside a request, with the two usage accumulators they
 * keep: the charges recorded as attempts happen (the collector) and the charges reported by
 * responses and errors (`failed`). Usage is taken as already priced.
 */
module Settlement {
  import opened Wrappers
  import opened Charges

  datatype FaultKind = Unavailable | RateLimited | OtherFault

  /** A provider error, with the usage it reports. */
  datatype Fault = Fault(kind: FaultKind, retryable: bool, usage: Option<Charge>)

  /** How an attempt ends: its stream is exhausted, it fails, it is cancelled, or something else stops it. */
  datatype Ending = Finished(blank: bool) | Raised(fault: Fault) | Interrupted | Stopped

  /**
   * One attempt of a route: the charges its adapter records request by request, the usage of
   * the completed response if one arrived, and whether anything actionable was emitted.
   */
  datatype Attempt = Attempt(wires: seq<Charge>, completed: Option<Charge>, actionable: bool, ending: Ending)

  /** What happens to a request on one route. */
  datatype Route = Unfit | Halted | Cached(usage: Charge) | Streamed(attempts: seq<Attempt>)

  datatype Exit = Response(usage: Charge, cached: bool) | ProviderFault(fault: Fault) | Abort

  const INCOMPLETE_CHARGE := Charge(NO_COUNTERS, Incomplete, None, [])
  const UNREPORTED_REQUEST := Charge(NO_COUNTERS[REQUESTS := 1], Incomplete, None, [])

  function Billable(usage: Charge): Charge {
    if usage.IsEmpty() then UNREPORTED_REQUEST else usage
  }

  function AsList(usage: Option<Charge>): seq<Charge> {
    match usage
    case Some(u) => [u]
    case None => []
  }

  function NonEmpty(usage: Charge): Option<Charge> {
    if usage.IsEmpty() then None else Some(usage)
  }

  /** The provider error an attempt ends in, with the usage it is given. */
  function FaultOf(a: Attempt): Option<Fault> {
    match a.ending
    case Finished(blank) =>
      if a.completed.None? then Some(Fault(Unavailable, true, Some(INCOMPLETE_CHARGE)))
      else if blank then Some(Fault(Unavailable, true, Some(Billable(a.completed.value))))
      else None
    case Raised(f) =>
      if f.usage.None? && f.kind == Unavailable then Some(f.(usage := Some(INCOMPLETE_CHARGE))) else Some(f)
    case _ => None
  }

  /** The one charge recorded for an attempt whose adapter records none itself. */
  function Offered(a: Attempt): Option<Charge> {
    if a.completed.Some? then Some(Billable(a.completed.value))
    else if a.ending.Interrupted? then Some(UNREPORTED_REQUEST)
    else match FaultOf(a)
      case Some(f) => f.usage
      case None => None
  }

  function Recorded(a: Attempt): seq<Charge> {
    if a.wires != [] then a.wires else AsList(Offered(a))
  }

  /** What the attempt's response or error reports. */
  function Reported(a: Attempt): seq<Charge> {
    match FaultOf(a)
    case Some(f) => AsList(f.usage)
    case None => if a.ending.Finished? && a.completed.Some? then [Billable(a.completed.value)] else []
  }

  function AllRecorded(tried: seq<Attempt>): seq<Charge> {
    if tried == [] then [] else Recorded(tried[0]) + AllRecorded(tried[1..])
  }

  function AllReported(tried: seq<Attempt>): seq<Charge> {
    if tried == [] then [] else Reported(tried[0]) + AllReported(tried[1..])
  }

  predicate Fallible(kind: FaultKind) { kind == Unavailable || kind == RateLimited }

  /** The usage accumulated so far, with a further report. */
  function Gather(failed: Charge, usage: Option<Charge>): Charge {
    match usage
    case Some(u) => Plus(failed, u)
    case None => failed
  }

  function WithFailed(failed: Charge, usage: Charge): Charge {
    if failed.IsEmpty() then usage else Plus(failed, usage)
  }

  predicate Retried(a: Attempt, last: bool) {
    match FaultOf(a)
    case Some(f) => Fallible(f.kind) && !a.actionable && f.retryable && !last
    case None => false
  }

  /** The exit of a route, given the usage of its failed attempts so far. */
  function RouteExit(script: seq<Attempt>, failed: Charge): Exit {
    if script == [] then ProviderFault(Fault(Unavailable, false, NonEmpty(failed)))
    else
      var a := script[0];
      match FaultOf(a)
      case Some(f) =>
        var failed' := Gather(failed, f.usage);
        if Retried(a, |script| == 1) then RouteExit(script[1..], failed')
        else ProviderFault(f.(usage := if failed'.IsEmpty() then f.usage else Some(failed')))
      case None =>
        if a.ending.Finished? && a.completed.Some? then Response(WithFailed(failed, Billable(a.completed.value)), false)
        else Abort
  }

  /** The attempts that a route makes. */
  function RouteTried(script: seq<Attempt>): seq<Attempt> {
    if script == [] then []
    else [script[0]] + if Retried(script[0], |script| == 1) then RouteTried(script[1..]) else []
  }

  function AddAll(usage: Charge, charges: seq<Charge>): Charge
    decreases |charges|
  {
    if charges == [] then usage else AddAll(Plus(usage, charges[0]), charges[1..])
  }

  /** The collector after a route. */
  function RouteCollected(script: seq<Attempt>, collector: Charge): Charge {
    if script == [] then collector
    else
      var collector' := AddAll(collector, Recorded(script[0]));
      if Retried(script[0], |script| == 1) then RouteCollected(script[1..], collector') else collector'
  }

  function Missed(usage: Charge, misses: nat): Charge {
    usage.(counters := usage.counters[
      APPLICATION_CACHE_MISSES := usage.counters[APPLICATION_CACHE_MISSES] + misses])
  }

  /** The exit of a request over the routes left to try. */
  function CallExit(routes: seq<Route>, failed: Charge, caching: bool, misses: nat): Exit {
    if routes == [] then ProviderFault(Fault(Unavailable, false, NonEmpty(failed)))
    else match routes[0]
      case Unfit => if |routes| == 1 then Abort else CallExit(routes[1..], failed, caching, misses)
      case Halted => Abort
      case Cached(usage) => Response(WithFailed(failed, Missed(usage, misses)), true)
      case Streamed(script) =>
        var misses' := if caching then misses + 1 else misses;
        match RouteExit(script, NO_CHARGE)
        case Response(usage, _) =>
          Response(WithFailed(failed, if caching then Missed(usage, misses') else usage), false)
        case ProviderFault(f) =>
          if Fallible(f.kind) then CallExit(routes[1..], Gather(failed, f.usage), caching, misses')
          else ProviderFault(if failed.IsEmpty() then f else f.(usage := Some(Gather(failed, f.usage))))
        case Abort => Abort
  }

  predicate FallsBack(script: seq<Attempt>) {
    match RouteExit(script, NO_CHARGE)
    case ProviderFault(f) => Fallible(f.kind)
    case _ => false
  }

  /** The collector after a request. */
  function CallCollected(routes: seq<Route>, collector: Charge): Charge {
    if routes == [] then collector
    else match routes[0]
      case Unfit => CallCollected(routes[1..], collector)
      case Streamed(script) =>
        var collector' := RouteCollected(script, collector);
        if FallsBack(script) then CallCollected(routes[1..], collector') else collector'
      case _ => collector
  }

  /** The attempts that a request makes. */
  function CallTried(routes: seq<Route>): seq<Attempt> {
    if routes == [] then []
    else match routes[0]
      case Unfit => CallTried(routes[1..])
      case Streamed(script) =>
        RouteTried(script) + if FallsBack(script) then CallTried(routes[1..]) else []
      case _ => []
  }

  /** What is settled in the end, given what was recorded. */
  function SettledBy(exit: Exit, collector: Charge): Charge {
    match exit
    case Response(usage, _) => usage
    case ProviderFault(f) => if collector.IsEmpty() then f.usage.GetOr(NO_CHARGE) else collector
    case Abort => collector
  }

  // ---------------------------------------------------------------------------
  // The loops
  // ---------------------------------------------------------------------------

  method AddCharge(accumulator: Usage, charge: Charge)
    modifies accumulator
    ensures accumulator.Value() == Plus(old(accumulator.Value()), charge)
  {
    var usage := new Usage.Of(charge);
    accumulator.Add(usage);
  }

  /** Add what an error reports, if it reports anything. */
  method GatherUsage(failed: Usage, usage: Option<Charge>)
    modifies failed
    ensures failed.Value() == Gather(old(failed.Value()), usage)
  {
    if usage.Some? {
      AddCharge(failed, usage.value);
    }
  }

  /** The usage of a response, after that of failed attempts if there is any. */
  method FinalUsage(failed: Usage, usage: Charge) returns (total: Charge)
    modifies failed
    ensures total == WithFailed(old(failed.Value()), usage)
  {
    if failed.Value().IsEmpty() {
      return usage;
    }
    AddCharge(failed, usage);
    return failed.Value();
  }

  /** Record the charges of one attempt: those of its adapter, or else the first one offered. */
  method RecordAttempt(a: Attempt, collector: Usage)
    modifies collector
    ensures collector.Value() == AddAll(old(collector.Value()), Recorded(a))
  {
    var charges := Recorded(a);
    for i := 0 to |charges|
      invariant AddAll(old(collector.Value()), charges) == AddAll(collector.Value(), charges[i..])
    {
      AddCharge(collector, charges[i]);
      assert charges[i..][0] == charges[i] && charges[i..][1..] == charges[i + 1..];
    }
  }

  /** Try a route, retrying failures that allow it. */
  method StreamRoute(script: seq<Attempt>, collector: Usage) returns (exit: Exit)
    modifies collector
    ensures exit == RouteExit(script, NO_CHARGE)
    ensures collector.Value() == RouteCollected(script, old(collector.Value()))
  {
    var failed := new Usage();
    for i := 0 to |script|
      invariant fresh(failed)
      invariant RouteExit(script, NO_CHARGE) == RouteExit(script[i..], failed.Value())
      invariant RouteCollected(script, old(collector.Value())) == RouteCollected(script[i..], collector.Value())
    {
      var a := script[i];
      assert script[i..][0] == a && script[i..][1..] == script[i + 1..];
      RecordAttempt(a, collector);
      var fault := FaultOf(a);
      if fault.None? {
        if a.ending.Finished? && a.completed.Some? {
          var usage := FinalUsage(failed, Billable(a.completed.value));
          return Response(usage, false);
        }
        return Abort;
      }
      GatherUsage(failed, fault.value.usage);
      if !Fallible(fault.value.kind) || a.actionable || !fault.value.retryable || i + 1 >= |script| {
        return ProviderFault(
          if failed.Value().IsEmpty() then fault.value else fault.value.(usage := Some(failed.Value())));
      }
    }
    return ProviderFault(Fault(Unavailable, false, NonEmpty(failed.Value())));
  }

  /** Try the routes of a request in turn. */
  method CompleteWithFallback(routes: seq<Route>, caching: bool, collector: Usage) returns (exit: Exit)
    modifies collector
    ensures exit == CallExit(routes, NO_CHARGE, caching, 0)
    ensures collector.Value() == CallCollected(routes, old(collector.Value()))
  {
    var failed := new Usage();
    var misses := 0;
    for i := 0 to |routes|
      invariant fresh(failed)
      invariant CallExit(routes, NO_CHARGE, caching, 0) == CallExit(routes[i..], failed.Value(), caching, misses)
      invariant CallCollected(routes, old(collector.Value())) == CallCollected(routes[i..], collector.Value())
    {
      assert routes[i..][0] == routes[i] && routes[i..][1..] == routes[i + 1..];
      match routes[i]
      case Unfit =>
        if i == |routes| - 1 {
          return Abort;
        }
      case Halted =>
        return Abort;
      case Cached(hit) =>
        var usage := FinalUsage(failed, Missed(hit, misses));
        return Response(usage, true);
      case Streamed(script) =>
        if caching { misses := misses + 1; }
        exit := StreamRoute(script, collector);
        match exit
        case Response(answer, _) =>
          var usage := FinalUsage(failed, if caching then Missed(answer, misses) else answer);
          return Response(usage, false);
        case ProviderFault(fault) =>
          var empty := failed.Value().IsEmpty();
          if Fallible(fault.kind) || !empty {
            GatherUsage(failed, fault.usage);
          }
          if !Fallible(fault.kind) {
            return ProviderFault(if empty then fault else fault.(usage := Some(failed.Value())));
          }
        case Abort =>
          return Abort;
    }
    return ProviderFault(Fault(Unavailable, false, NonEmpty(failed.Value())));
  }

  /** Complete a request and give the one charge that is settled for it, whatever the exit. */
  method CompleteRequest(routes: seq<Route>, caching: bool) returns (exit: Exit, settled: Charge)
    ensures exit == CallExit(routes, NO_CHARGE, caching, 0)
    ensures settled == SettledBy(exit, CallCollected(routes, NO_CHARGE))
  {
    var cancelled := new Usage();
    exit := CompleteWithFallback(routes, caching, cancelled);
    match exit
    case Response(usage, _) =>
      settled := usage;
    case ProviderFault(fault) =>
      settled := if cancelled.Value().IsEmpty() then fault.usage.GetOr(NO_CHARGE) else cancelled.Value();
    case Abort =>
      settled := cancelled.Value();
  }
}
