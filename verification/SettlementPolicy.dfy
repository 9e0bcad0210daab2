/**
 * Which attempts and which routes a request makes, how it exits, and what each attempt charges
 * and reports, told by the fields of attempts and routes alone.
 */
module SettlementPolicy {
  import opened Wrappers
  import opened Charges
  import opened Settlement
  import opened SettlementTheorems
  import opened Sequences

  // ---------------------------------------------------------------------------
  // Attempts
  // ---------------------------------------------------------------------------

  /** A provider error: one that was raised, a stream without a response, or an empty response. */
  predicate Fails(a: Attempt) {
    || a.ending.Raised?
    || (a.ending.Finished? && (a.completed.None? || a.ending.blank))
  }

  /** An error of the kinds for which another attempt or route may help. */
  predicate FailsFallibly(a: Attempt) {
    Fails(a) && (a.ending.Raised? ==> a.ending.fault.kind == Unavailable || a.ending.fault.kind == RateLimited)
  }

  /** And one that says that it may be retried; streams without a response and empty responses do. */
  predicate FailsRetryably(a: Attempt) {
    FailsFallibly(a) && (a.ending.Raised? ==> a.ending.fault.retryable)
  }

  predicate Succeeds(a: Attempt) {
    a.ending == Finished(false) && a.completed.Some?
  }

  /**
   * The attempts of a route are the first ones of its script. Another one follows exactly after
   * a provider error of a fallible kind that is retryable, if nothing actionable was emitted
   * and the allowance is not used up.
   */
  lemma {:induction false} AttemptsTried(script: seq<Attempt>)
    ensures RouteTried(script) <= script
    ensures script != [] ==> RouteTried(script) != []
    ensures forall i :: 0 <= i < |RouteTried(script)| ==>
      (i + 1 < |RouteTried(script)| <==> i + 1 < |script| && FailsRetryably(script[i]) && !script[i].actionable)
  {
    if script != [] {
      var a, rest := script[0], script[1..];
      AttemptsTried(rest);
      assert Retried(a, |script| == 1) <==> 1 < |script| && FailsRetryably(a) && !a.actionable;
      if Retried(a, |script| == 1) {
        var tried := RouteTried(script);
        assert tried == [a] + RouteTried(rest);
        assert script == [a] + rest;
        forall i | 0 <= i < |tried|
          ensures i + 1 < |tried| <==> i + 1 < |script| && FailsRetryably(script[i]) && !script[i].actionable
        {
          if i > 0 { assert script[i] == rest[i - 1]; }
        }
      }
    }
  }

  /** The error is the one raised, or a retryable one of an unavailable provider. */
  predicate Explains(a: Attempt, f: Fault) {
    if a.ending.Raised? then f.kind == a.ending.fault.kind && f.retryable == a.ending.fault.retryable
    else f.kind == Unavailable && f.retryable
  }

  function Last(script: seq<Attempt>): Attempt
    requires script != []
  {
    script[|script| - 1]
  }

  /** How a route exits is decided by its last attempt. */
  lemma {:induction false} RouteExitsAsItsLastAttempt(script: seq<Attempt>, failed: Charge)
    requires script != []
    ensures RouteTried(script) != []
    ensures
      var exit, last := RouteExit(script, failed), Last(RouteTried(script));
      && (exit.Response? <==> Succeeds(last))
      && (exit.ProviderFault? <==> Fails(last))
      && (exit.Abort? <==> last.ending.Interrupted? || last.ending.Stopped?)
      && (exit.Response? ==> !exit.cached)
      && (exit.ProviderFault? ==> Explains(last, exit.fault))
    decreases |script|
  {
    var a, rest := script[0], script[1..];
    if Retried(a, |script| == 1) {
      RouteExitsAsItsLastAttempt(rest, Gather(failed, FaultOf(a).value.usage));
      assert Last(RouteTried(script)) == Last(RouteTried(rest));
    }
  }

  // ---------------------------------------------------------------------------
  // Routes
  // ---------------------------------------------------------------------------

  /** The next route is tried after one that does not fit, or that ends in a fallible error. */
  predicate Passes(route: Route) {
    match route
    case Unfit => true
    case Streamed(script) => script == [] || FailsFallibly(Last(RouteTried(script)))
    case _ => false
  }

  /** The attempts that these routes make. */
  function AttemptsOf(routes: seq<Route>): seq<Attempt> {
    if routes == [] then []
    else (if routes[0].Streamed? then RouteTried(routes[0].attempts) else []) + AttemptsOf(routes[1..])
  }

  lemma {:induction false} PassesIsFallsBack(script: seq<Attempt>)
    ensures FallsBack(script) <==> Passes(Streamed(script))
  {
    if script != [] { RouteExitsAsItsLastAttempt(script, NO_CHARGE); }
  }

  /** All routes before the last one reached pass, and the last one does not unless there is no other. */
  ghost predicate Reaches(routes: seq<Route>, n: nat) {
    && n <= |routes| && (routes != [] ==> n > 0)
    && (forall i :: 0 <= i < n - 1 ==> Passes(routes[i]))
    && (0 < n < |routes| ==> !Passes(routes[n - 1]))
  }

  lemma {:induction false} ReachesMore(routes: seq<Route>, n: nat)
    requires routes != [] && Passes(routes[0]) && Reaches(routes[1..], n)
    ensures Reaches(routes, n + 1)
  {
    forall i | 0 <= i < n ensures Passes(routes[i]) {
      if i > 0 { assert Passes(routes[1..][i - 1]); }
    }
    assert 0 < n ==> routes[1..][n - 1] == routes[n];
  }

  /** A request makes the attempts of the routes it reaches. */
  lemma {:induction false} RoutesTried(routes: seq<Route>) returns (n: nat)
    ensures Reaches(routes, n)
    ensures CallTried(routes) == AttemptsOf(routes[..n])
  {
    if routes == [] {
      n := 0;
    } else {
      var route, rest := routes[0], routes[1..];
      if route.Streamed? { PassesIsFallsBack(route.attempts); }
      if Passes(route) {
        n := RoutesTried(rest);
        ReachesMore(routes, n);
        n := n + 1;
        assert routes[..n][1..] == rest[..n - 1];
      } else {
        n := 1;
        assert routes[..1][1..] == [];
        Ends(AttemptsOf(routes[..1]));
      }
    }
  }

  /** All routes have failed: an error of an unavailable provider that says not to retry. */
  predicate GivesUp(exit: Exit) {
    exit.ProviderFault? && exit.fault.kind == Unavailable && !exit.fault.retryable
  }

  /** How a request exits is decided by the last route it reaches. */
  lemma {:induction false} CallExitsAsItsLastRoute(
    routes: seq<Route>, failed: Charge, caching: bool, misses: nat, n: nat)
    requires Reaches(routes, n)
    ensures
      var exit := CallExit(routes, failed, caching, misses);
      if n == 0 then GivesUp(exit)
      else match routes[n - 1]
        case Unfit => exit.Abort?
        case Halted => exit.Abort?
        case Cached(_) => exit.Response? && exit.cached
        case Streamed(script) =>
          if script == [] then GivesUp(exit)
          else
            var last := Last(RouteTried(script));
            && (exit.Response? <==> Succeeds(last))
            && (exit.ProviderFault? <==> Fails(last))
            && (exit.Response? ==> !exit.cached)
            && (exit.ProviderFault? ==> if FailsFallibly(last) then GivesUp(exit) else Explains(last, exit.fault))
    decreases |routes|
  {
    if routes != [] {
      var route, rest := routes[0], routes[1..];
      if route.Streamed? {
        PassesIsFallsBack(route.attempts);
        if route.attempts != [] { RouteExitsAsItsLastAttempt(route.attempts, NO_CHARGE); }
      }
      if n > 1 {
        assert Passes(routes[0]);
        forall i | 0 <= i < n - 2 ensures Passes(rest[i]) { assert Passes(routes[i + 1]); }
        assert rest[n - 2] == routes[n - 1];
        assert Reaches(rest, n - 1);
        NextRoute(routes, failed, caching, misses, n);
      } else if Passes(route) {
        assert |routes| == 1 && rest == [];
      }
    }
  }

  lemma {:induction false} NextRoute(routes: seq<Route>, failed: Charge, caching: bool, misses: nat, n: nat)
    requires n > 1 && Reaches(routes, n) && Reaches(routes[1..], n - 1)
    ensures
      var exit := CallExit(routes, failed, caching, misses);
      match routes[n - 1]
        case Unfit => exit.Abort?
        case Halted => exit.Abort?
        case Cached(_) => exit.Response? && exit.cached
        case Streamed(script) =>
          if script == [] then GivesUp(exit)
          else
            var last := Last(RouteTried(script));
            && (exit.Response? <==> Succeeds(last))
            && (exit.ProviderFault? <==> Fails(last))
            && (exit.Response? ==> !exit.cached)
            && (exit.ProviderFault? ==> if FailsFallibly(last) then GivesUp(exit) else Explains(last, exit.fault))
    decreases |routes|, 0
  {
    var rest := routes[1..];
    assert Passes(routes[0]) && rest[n - 2] == routes[n - 1];
    match routes[0]
    case Unfit => CallExitsAsItsLastRoute(rest, failed, caching, misses, n - 1);
    case Streamed(script) =>
      PassesIsFallsBack(script);
      var f := RouteExit(script, NO_CHARGE).fault;
      CallExitsAsItsLastRoute(rest, Gather(failed, f.usage), caching, if caching then misses + 1 else misses, n - 1);
  }

  // ---------------------------------------------------------------------------
  // Charges
  // ---------------------------------------------------------------------------

  /** One request of unknown usage. */
  predicate OneIncompleteRequest(c: Charge) {
    && c.status == Incomplete && c.counters[REQUESTS] == 1
    && forall i :: 0 <= i < COUNTERS && i != REQUESTS ==> c.counters[i] == 0
  }

  predicate NothingButIncomplete(c: Charge) {
    c.status == Incomplete && forall i :: 0 <= i < COUNTERS ==> c.counters[i] == 0
  }

  /** The usage of a response, or one incomplete request if it tells none. */
  predicate Bills(usage: Charge, c: Charge) {
    if usage.status != Incomplete && (forall i :: 0 <= i < COUNTERS ==> usage.counters[i] == 0)
    then OneIncompleteRequest(c) else c == usage
  }

  /** The usage that an error reports; an unavailable provider's is incomplete if it reports none. */
  predicate FaultReports(f: Fault, charges: seq<Charge>) {
    match f.usage
    case Some(u) => charges == [u]
    case None => if f.kind.Unavailable? then |charges| == 1 && NothingButIncomplete(charges[0]) else charges == []
  }

  /**
   * An attempt records the charges of its adapter, if it records any; else that of its response,
   * if one arrived; else one incomplete request if it was cancelled, what its error reports if it
   * failed, and nothing if something else stopped it.
   */
  lemma {:induction false} WhatIsRecorded(a: Attempt)
    ensures
      var charges := Recorded(a);
      if a.wires != [] then charges == a.wires
      else if a.completed.Some? then |charges| == 1 && Bills(a.completed.value, charges[0])
      else match a.ending
        case Interrupted => |charges| == 1 && OneIncompleteRequest(charges[0])
        case Finished(_) => |charges| == 1 && NothingButIncomplete(charges[0])
        case Raised(f) => FaultReports(f, charges)
        case Stopped => charges == []
  {
  }

  /** An attempt reports the usage of its response, or what its error reports. */
  lemma {:induction false} WhatIsReported(a: Attempt)
    ensures
      var charges := Reported(a);
      match a.ending
        case Finished(_) =>
          |charges| == 1 &&
          if a.completed.Some? then Bills(a.completed.value, charges[0]) else NothingButIncomplete(charges[0])
        case Raised(f) => FaultReports(f, charges)
        case _ => charges == []
  {
  }

  /**
   * A response settles its usage; an error the collector, unless that is empty; and everything
   * else the collector.
   */
  lemma {:induction false} WhatIsSettled(exit: Exit, collector: Charge)
    ensures
      var settled := SettledBy(exit, collector);
      match exit
        case Response(usage, _) => settled == usage
        case ProviderFault(f) =>
          if collector.status != Incomplete && (forall i :: 0 <= i < COUNTERS ==> collector.counters[i] == 0)
          then settled == (if f.usage.Some? then f.usage.value else NO_CHARGE)
          else settled == collector
        case Abort => settled == collector
  {
  }

  // ---------------------------------------------------------------------------
  // Misses of the application's cache
  // ---------------------------------------------------------------------------

  predicate NoMisses(usage: Option<Charge>) {
    usage.Some? ==> usage.value.counters[APPLICATION_CACHE_MISSES] == 0
  }

  /** Adapters do not count what the application's cache misses. */
  predicate CountsNoMisses(route: Route) {
    route.Streamed? ==>
      && route.attempts != []
      && forall i :: 0 <= i < |route.attempts| ==>
           && NoMisses(route.attempts[i].completed)
           && (route.attempts[i].ending.Raised? ==> NoMisses(route.attempts[i].ending.fault.usage))
  }

  lemma {:induction false} RouteCountsNoMisses(script: seq<Attempt>, failed: Charge)
    requires CountsNoMisses(Streamed(script)) && NoMisses(Some(failed))
    ensures match RouteExit(script, failed)
            case Response(usage, _) => NoMisses(Some(usage))
            case ProviderFault(f) => NoMisses(f.usage)
            case Abort => true
    decreases |script|
  {
    var a := script[0];
    if Retried(a, |script| == 1) {
      RouteCountsNoMisses(script[1..], Gather(failed, FaultOf(a).value.usage));
    }
  }

  function StreamedRoutes(routes: seq<Route>): nat {
    if routes == [] then 0 else (if routes[0].Streamed? then 1 else 0) + StreamedRoutes(routes[1..])
  }

  /**
   * With the cache enabled, the usage of an answer counts one miss for each route that was streamed,
   * beside those in the usage of a cached answer; otherwise it counts none more.
   */
  lemma {:induction false} MissesAreCounted(
    routes: seq<Route>, failed: Charge, caching: bool, misses: nat, n: nat)
    requires Reaches(routes, n) && NoMisses(Some(failed)) && (!caching ==> misses == 0)
    requires forall i :: 0 <= i < |routes| ==> CountsNoMisses(routes[i])
    requires CallExit(routes, failed, caching, misses).Response?
    ensures
      var counted := CallExit(routes, failed, caching, misses).usage.counters[APPLICATION_CACHE_MISSES];
      && n > 0
      && counted == misses + (if caching then StreamedRoutes(routes[..n]) else 0) +
           (if routes[n - 1].Cached? then routes[n - 1].usage.counters[APPLICATION_CACHE_MISSES] else 0)
    decreases |routes|
  {
    var route, rest := routes[0], routes[1..];
    if n > 1 {
      assert Passes(route);
      forall i | 0 <= i < n - 2 ensures Passes(rest[i]) { assert Passes(routes[i + 1]); }
      assert rest[n - 2] == routes[n - 1] && routes[..n][1..] == rest[..n - 1];
      if route.Streamed? {
        PassesIsFallsBack(route.attempts);
        RouteCountsNoMisses(route.attempts, NO_CHARGE);
        var f := RouteExit(route.attempts, NO_CHARGE).fault;
        MissesAreCounted(rest, Gather(failed, f.usage), caching, if caching then misses + 1 else misses, n - 1);
      } else {
        MissesAreCounted(rest, failed, caching, misses, n - 1);
      }
    } else {
      assert routes[..1][1..] == [];
      OneRouteCounts(routes, failed, caching, misses);
    }
  }

  lemma {:induction false} OneRouteCounts(routes: seq<Route>, failed: Charge, caching: bool, misses: nat)
    requires Reaches(routes, 1) && NoMisses(Some(failed)) && (!caching ==> misses == 0)
    requires routes != [] && CountsNoMisses(routes[0])
    requires CallExit(routes, failed, caching, misses).Response?
    ensures
      CallExit(routes, failed, caching, misses).usage.counters[APPLICATION_CACHE_MISSES] ==
        misses + (if caching && routes[0].Streamed? then 1 else 0) +
        (if routes[0].Cached? then routes[0].usage.counters[APPLICATION_CACHE_MISSES] else 0)
  {
    if routes[0].Streamed? {
      PassesIsFallsBack(routes[0].attempts);
      RouteCountsNoMisses(routes[0].attempts, NO_CHARGE);
    }
  }
}
