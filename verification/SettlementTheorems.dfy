/** Every charge recorded for a request is settled exactly once, whatever its exit. */
module SettlementTheorems {
  import opened Wrappers
  import opened Charges
  import opened Settlement
  import opened Sequences

  // ---------------------------------------------------------------------------
  // The collector is the total of what was recorded
  // ---------------------------------------------------------------------------

  lemma {:induction false} AddAllConcat(usage: Charge, a: seq<Charge>, b: seq<Charge>)
    ensures AddAll(usage, a + b) == AddAll(AddAll(usage, a), b)
    decreases |a|
  {
    if a == [] {
      assert a + b == b;
    } else {
      assert (a + b)[0] == a[0] && (a + b)[1..] == a[1..] + b;
      AddAllConcat(Plus(usage, a[0]), a[1..], b);
    }
  }

  lemma {:induction false} AddAllIsTotal(charges: seq<Charge>)
    ensures AddAll(NO_CHARGE, charges) == Total(charges)
  {
    if charges != [] {
      var before, last := charges[..|charges| - 1], charges[|charges| - 1];
      assert charges == before + [last];
      AddAllIsTotal(before);
      AddAllAppend(NO_CHARGE, before, last);
    }
  }

  lemma {:induction false} AddAllAppend(usage: Charge, before: seq<Charge>, last: Charge)
    ensures AddAll(usage, before + [last]) == Plus(AddAll(usage, before), last)
  {
    AddAllConcat(usage, before, [last]);
    AddOne(AddAll(usage, before), last);
  }

  lemma {:induction false} AddOne(usage: Charge, last: Charge)
    ensures AddAll(usage, [last]) == Plus(usage, last)
  {
    assert [last][1..] == [];
    assert AddAll(Plus(usage, last), []) == Plus(usage, last);
  }

  lemma {:induction false} ListsConcat(a: seq<Attempt>, b: seq<Attempt>)
    ensures AllRecorded(a + b) == AllRecorded(a) + AllRecorded(b)
    ensures AllReported(a + b) == AllReported(a) + AllReported(b)
  {
    if a == [] {
      Ends(b);
      Ends(AllRecorded(b));
      Ends(AllReported(b));
    } else {
      assert (a + b)[0] == a[0] && (a + b)[1..] == a[1..] + b;
      ListsConcat(a[1..], b);
      Regroup(Recorded(a[0]), AllRecorded(a[1..]), AllRecorded(b));
      Regroup(Reported(a[0]), AllReported(a[1..]), AllReported(b));
    }
  }

  lemma {:induction false} OneAttempt(a: Attempt)
    ensures AllRecorded([a]) == Recorded(a) && AllReported([a]) == Reported(a)
  {
    assert [a][1..] == [];
    Ends(Recorded(a));
    Ends(Reported(a));
  }

  lemma {:induction false} RouteCollects(script: seq<Attempt>, collector: Charge)
    ensures RouteCollected(script, collector) == AddAll(collector, AllRecorded(RouteTried(script)))
  {
    if script != [] {
      var a, rest := script[0], script[1..];
      var more := if Retried(a, |script| == 1) then RouteTried(rest) else [];
      ListsConcat([a], more);
      OneAttempt(a);
      AddAllConcat(collector, Recorded(a), AllRecorded(more));
      if more != [] || Retried(a, |script| == 1) {
        RouteCollects(rest, AddAll(collector, Recorded(a)));
      }
    }
  }

  lemma {:induction false} CallCollects(routes: seq<Route>, collector: Charge)
    ensures CallCollected(routes, collector) == AddAll(collector, AllRecorded(CallTried(routes)))
  {
    if routes != [] {
      match routes[0]
      case Unfit => CallCollects(routes[1..], collector);
      case Streamed(script) =>
        RouteCollects(script, collector);
        var more := if FallsBack(script) then CallTried(routes[1..]) else [];
        ListsConcat(RouteTried(script), more);
        AddAllConcat(collector, AllRecorded(RouteTried(script)), AllRecorded(more));
        CallCollects(routes[1..], AddAll(collector, AllRecorded(RouteTried(script))));
      case _ =>
    }
  }

  /** The collector of a request holds every charge that its attempts recorded, once each. */
  lemma {:induction false} CollectorIsComplete(routes: seq<Route>)
    ensures CallCollected(routes, NO_CHARGE) == Total(AllRecorded(CallTried(routes)))
  {
    CallCollects(routes, NO_CHARGE);
    AddAllIsTotal(AllRecorded(CallTried(routes)));
  }

  // ---------------------------------------------------------------------------
  // Responses and errors carry the total of what was reported
  // ---------------------------------------------------------------------------

  /** The same counters and the same cost status; the status of an empty record says nothing. */
  predicate Same(a: Charge, b: Charge) {
    a.counters == b.counters && (a.status == b.status || (a.IsEmpty() && b.IsEmpty()))
  }

  lemma {:induction false} PlusRespectsSame(a: Charge, a': Charge, b: Charge, b': Charge)
    requires Same(a, a') && Same(b, b')
    ensures Same(Plus(a, b), Plus(a', b'))
  {
    if a.IsEmpty() && b.IsEmpty() {
      EmptyPlus(a, b);
      EmptyPlus(a', b');
    }
  }

  lemma {:induction false} EmptyPlus(a: Charge, b: Charge)
    requires a.IsEmpty() && b.IsEmpty()
    ensures Plus(a, b).IsEmpty()
  {
    forall i | 0 <= i < COUNTERS ensures Plus(a, b).counters[i] == 0 {
      assert a.counters[i] == 0 && b.counters[i] == 0;
    }
  }

  /** The record is the total of a list of countable charges. */
  ghost predicate Carries(usage: Charge, charges: seq<Charge>) {
    AllCountable(charges) && Same(usage, Total(charges))
  }

  lemma {:induction false} CarriesIsCountable(usage: Charge, charges: seq<Charge>)
    requires Carries(usage, charges)
    ensures Countable(usage.counters)
  {
    TotalMeaning(charges);
  }

  lemma {:induction false} CarriesPlus(a: Charge, before: seq<Charge>, b: Charge, after: seq<Charge>)
    requires Carries(a, before) && Carries(b, after)
    ensures Carries(Plus(a, b), before + after)
  {
    PlusRespectsSame(a, Total(before), b, Total(after));
    TotalIgnoresGrouping(before, after);
  }

  lemma {:induction false} TotalOfOne(usage: Charge)
    ensures Total([usage]) == Plus(NO_CHARGE, usage)
  {
    assert [usage][..0] == [];
    assert Total([]) == NO_CHARGE;
  }

  lemma {:induction false} CarriesOne(usage: Charge)
    requires Countable(usage.counters)
    ensures Carries(usage, [usage])
  {
    TotalOfOne(usage);
    SumUnit(usage.counters);
  }

  lemma {:induction false} CarriesNone()
    ensures Carries(NO_CHARGE, [])
  {
  }

  predicate CountableReport(usage: Option<Charge>) {
    usage.Some? ==> Countable(usage.value.counters)
  }

  lemma {:induction false} GatherCarries(failed: Charge, before: seq<Charge>, usage: Option<Charge>)
    requires Carries(failed, before) && CountableReport(usage)
    ensures Carries(Gather(failed, usage), before + AsList(usage))
  {
    match usage
    case Some(u) =>
      CarriesOne(u);
      CarriesPlus(failed, before, u, [u]);
    case None => Ends(before);
  }

  /** Skipping the addition of an empty record changes nothing that matters. */
  lemma {:induction false} EmptyFirst(a: Charge, b: Charge)
    requires a.IsEmpty()
    ensures Same(b, Plus(a, b))
  {
    assert forall i :: 0 <= i < COUNTERS ==> a.counters[i] == 0;
    assert Sum(a.counters, b.counters) == b.counters;
    if b.IsEmpty() { EmptyPlus(a, b); }
  }

  lemma {:induction false} WithFailedCarries(failed: Charge, before: seq<Charge>, usage: Charge, after: seq<Charge>)
    requires Carries(failed, before) && Carries(usage, after)
    ensures Carries(WithFailed(failed, usage), before + after)
  {
    CarriesPlus(failed, before, usage, after);
    if failed.IsEmpty() { EmptyFirst(failed, usage); }
  }

  /** The usage an error leaves with, when what was gathered is preferred if there is any. */
  lemma {:induction false} FaultCarries(failed: Charge, before: seq<Charge>, usage: Option<Charge>)
    requires Carries(failed, before) && CountableReport(usage)
    ensures
      var gathered := Gather(failed, usage);
      Carries((if gathered.IsEmpty() then usage else Some(gathered)).GetOr(NO_CHARGE), before + AsList(usage))
  {
    GatherCarries(failed, before, usage);
    var gathered := Gather(failed, usage);
    if gathered.IsEmpty() && usage.Some? {
      CarriesIsCountable(failed, before);
      PlusIsEmpty(failed, usage.value);
    }
  }

  predicate CountableAttempt(a: Attempt) {
    && (forall i :: 0 <= i < |a.wires| ==> Countable(a.wires[i].counters))
    && CountableReport(a.completed)
    && (a.ending.Raised? ==> CountableReport(a.ending.fault.usage))
  }

  predicate CountableRoute(route: Route) {
    match route
    case Streamed(script) => forall i :: 0 <= i < |script| ==> CountableAttempt(script[i])
    case Cached(usage) => Countable(usage.counters)
    case _ => true
  }

  lemma {:induction false} FaultIsCountable(a: Attempt)
    requires CountableAttempt(a)
    ensures FaultOf(a).Some? ==> CountableReport(FaultOf(a).value.usage)
    ensures a.completed.Some? ==> Countable(Billable(a.completed.value).counters)
  {
  }

  lemma {:induction false} BillableIsNotEmpty(usage: Charge)
    ensures !Billable(usage).IsEmpty()
  {
    assert UNREPORTED_REQUEST.counters[REQUESTS] == 1;
  }

  ghost predicate ExitCarries(exit: Exit, charges: seq<Charge>) {
    match exit
    case Response(usage, _) => Carries(usage, charges) && !usage.IsEmpty()
    case ProviderFault(f) => Carries(f.usage.GetOr(NO_CHARGE), charges)
    case Abort => true
  }

  lemma {:induction false} AnswerCarries(a: Attempt, failed: Charge, before: seq<Charge>)
    requires Carries(failed, before) && CountableAttempt(a) && a.completed.Some?
    ensures
      var usage := WithFailed(failed, Billable(a.completed.value));
      Carries(usage, before + [Billable(a.completed.value)]) && !usage.IsEmpty()
  {
    var u := Billable(a.completed.value);
    FaultIsCountable(a);
    BillableIsNotEmpty(a.completed.value);
    CarriesOne(u);
    WithFailedCarries(failed, before, u, [u]);
    CarriesIsCountable(failed, before);
    PlusIsEmpty(failed, u);
  }

  /** What leaves a route carries what was gathered before it and what its attempts reported. */
  lemma {:induction false} RouteCarries(script: seq<Attempt>, failed: Charge, before: seq<Charge>)
    requires script != [] && Carries(failed, before)
    requires forall i :: 0 <= i < |script| ==> CountableAttempt(script[i])
    ensures ExitCarries(RouteExit(script, failed), before + AllReported(RouteTried(script)))
    decreases |script|
  {
    var a, rest := script[0], script[1..];
    OneAttempt(a);
    FaultIsCountable(a);
    match FaultOf(a)
    case Some(f) =>
      if Retried(a, |script| == 1) {
        GatherCarries(failed, before, f.usage);
        RouteCarries(rest, Gather(failed, f.usage), before + AsList(f.usage));
        ListsConcat([a], RouteTried(rest));
        Regroup(before, AsList(f.usage), AllReported(RouteTried(rest)));
      } else {
        Ends([a]);
        FaultCarries(failed, before, f.usage);
      }
    case None =>
      Ends([a]);
      if a.ending.Finished? && a.completed.Some? { AnswerCarries(a, failed, before); }
  }

  // ---------------------------------------------------------------------------
  // Bills: the counters that are not about the application's own cache
  // ---------------------------------------------------------------------------

  predicate SameCounts(a: Charge, b: Charge) {
    forall i :: 0 <= i < APPLICATION_CACHE_HITS ==> a.counters[i] == b.counters[i]
  }

  predicate ZeroBill(c: Counters) {
    forall i :: 0 <= i < APPLICATION_CACHE_HITS ==> c[i] == 0
  }

  /** A record that bills nothing; its status says nothing. */
  predicate Unbilled(a: Charge) {
    ZeroBill(a.counters) && a.status != Incomplete
  }

  /** The same token, request and cost counters, and the same status of the cost. */
  predicate SameBill(a: Charge, b: Charge) {
    SameCounts(a, b) && (a.status == b.status || (Unbilled(a) && Unbilled(b)))
  }

  lemma {:induction false} SameIsSameBill(a: Charge, b: Charge)
    requires Same(a, b)
    ensures SameBill(a, b)
  {
  }

  /** A cached answer costs nothing. */
  predicate Costless(route: Route) {
    route.Cached? ==> ZeroBill(route.usage.counters)
  }

  predicate Sound(route: Route) {
    CountableRoute(route) && Costless(route) && (route.Streamed? ==> route.attempts != [])
  }

  ghost predicate ExitBills(exit: Exit, charges: seq<Charge>) {
    match exit
    case Response(usage, cached) => SameCounts(usage, Total(charges)) && (!cached ==> SameBill(usage, Total(charges)))
    case ProviderFault(f) => Carries(f.usage.GetOr(NO_CHARGE), charges)
    case Abort => true
  }

  lemma {:induction false} MissesAreNotBilled(failed: Charge, usage: Charge, misses: nat)
    requires Countable(failed.counters) && Countable(usage.counters) && !usage.IsEmpty()
    ensures SameBill(WithFailed(failed, Missed(usage, misses)), WithFailed(failed, usage))
  {
    var m := Missed(usage, misses);
    assert m.IsEmpty() ==> usage.IsEmpty() by {
      if m.IsEmpty() {
        assert m.counters[APPLICATION_CACHE_MISSES] == 0;
        forall i | 0 <= i < COUNTERS ensures usage.counters[i] == 0 { assert m.counters[i] == 0; }
      }
    }
  }

  lemma {:induction false} StreamedBills(
    script: seq<Attempt>, failed: Charge, before: seq<Charge>, caching: bool, misses: nat)
    requires script != [] && Carries(failed, before)
    requires forall i :: 0 <= i < |script| ==> CountableAttempt(script[i])
    requires RouteExit(script, NO_CHARGE).Response?
    ensures
      var usage := RouteExit(script, NO_CHARGE).usage;
      SameBill(WithFailed(failed, if caching then Missed(usage, misses) else usage),
               Total(before + AllReported(RouteTried(script))))
  {
    var usage := RouteExit(script, NO_CHARGE).usage;
    var reported := AllReported(RouteTried(script));
    CarriesNone();
    RouteCarries(script, NO_CHARGE, []);
    Ends(reported);
    WithFailedCarries(failed, before, usage, reported);
    CarriesIsCountable(failed, before);
    CarriesIsCountable(usage, reported);
    MissesAreNotBilled(failed, usage, misses);
    ResponseIsNotEmpty(failed, usage);
  }

  lemma {:induction false} ResponseIsNotEmpty(failed: Charge, usage: Charge)
    requires Countable(failed.counters) && Countable(usage.counters) && !usage.IsEmpty()
    ensures !WithFailed(failed, usage).IsEmpty()
  {
    PlusIsEmpty(failed, usage);
  }

  lemma {:induction false} CachedBills(hit: Charge, failed: Charge, before: seq<Charge>, misses: nat)
    requires Carries(failed, before) && Costless(Cached(hit))
    ensures SameCounts(WithFailed(failed, Missed(hit, misses)), Total(before))
  {
    if failed.IsEmpty() {
      assert forall i :: 0 <= i < COUNTERS ==> failed.counters[i] == 0;
    }
  }

  lemma {:induction false} CallBills(
    routes: seq<Route>, failed: Charge, before: seq<Charge>, caching: bool, misses: nat)
    requires forall i :: 0 <= i < |routes| ==> Sound(routes[i])
    requires Carries(failed, before)
    ensures ExitBills(CallExit(routes, failed, caching, misses), before + AllReported(CallTried(routes)))
    decreases |routes|
  {
    if routes == [] || !routes[0].Streamed? {
      if routes == [] || !routes[0].Unfit? { Ends(before); }
      if routes != [] && routes[0].Unfit? { CallBills(routes[1..], failed, before, caching, misses); }
      if routes != [] && routes[0].Cached? { CachedBills(routes[0].usage, failed, before, misses); }
      if routes == [] { EmptyCarries(failed, before); }
    } else {
      assert Sound(routes[0]);
      StreamedCallBills(routes, failed, before, caching, misses);
    }
  }

  lemma {:induction false} EmptyCarries(failed: Charge, before: seq<Charge>)
    requires Carries(failed, before)
    ensures Carries(NonEmpty(failed).GetOr(NO_CHARGE), before)
  {
  }

  lemma {:induction false} StreamedCallBills(
    routes: seq<Route>, failed: Charge, before: seq<Charge>, caching: bool, misses: nat)
    requires forall i :: 0 <= i < |routes| ==> Sound(routes[i])
    requires Carries(failed, before) && routes != [] && routes[0].Streamed? && routes[0].attempts != []
    ensures ExitBills(CallExit(routes, failed, caching, misses), before + AllReported(CallTried(routes)))
    decreases |routes|, 0
  {
    var script, misses' := routes[0].attempts, if caching then misses + 1 else misses;
    assert Sound(routes[0]);
    Ends(RouteTried(script));
    match RouteExit(script, NO_CHARGE)
    case Response(_, _) => StreamedBills(script, failed, before, caching, misses');
    case Abort =>
    case ProviderFault(f) =>
      FaultOfRoute(script, failed, before);
      if Fallible(f.kind) {
        var rest := routes[1..];
        CallBills(rest, Gather(failed, f.usage), before + AllReported(RouteTried(script)), caching, misses');
        BillsThrough(before, RouteTried(script), CallTried(rest));
      }
  }

  lemma {:induction false} BillsThrough(before: seq<Charge>, tried: seq<Attempt>, more: seq<Attempt>)
    ensures before + AllReported(tried + more) == before + AllReported(tried) + AllReported(more)
  {
    ListsConcat(tried, more);
    Regroup(before, AllReported(tried), AllReported(more));
  }

  lemma {:induction false} FaultOfRoute(script: seq<Attempt>, failed: Charge, before: seq<Charge>)
    requires script != [] && Carries(failed, before) && RouteExit(script, NO_CHARGE).ProviderFault?
    requires forall i :: 0 <= i < |script| ==> CountableAttempt(script[i])
    ensures
      var usage, reported := RouteExit(script, NO_CHARGE).fault.usage, before + AllReported(RouteTried(script));
      && Carries(Gather(failed, usage), reported)
      && (failed.IsEmpty() ==> Carries(usage.GetOr(NO_CHARGE), reported))
  {
    CarriesNone();
    RouteCarries(script, NO_CHARGE, []);
    Ends(AllReported(RouteTried(script)));
    FaultFromRoute(failed, before, RouteExit(script, NO_CHARGE).fault.usage, AllReported(RouteTried(script)));
  }

  lemma {:induction false} FaultFromRoute(
    failed: Charge, before: seq<Charge>, usage: Option<Charge>, reported: seq<Charge>)
    requires Carries(failed, before) && Carries(usage.GetOr(NO_CHARGE), reported)
    ensures Carries(Gather(failed, usage), before + reported)
    ensures failed.IsEmpty() ==> Carries(usage.GetOr(NO_CHARGE), before + reported)
  {
    CarriesPlus(failed, before, usage.GetOr(NO_CHARGE), reported);
    WithFailedCarries(failed, before, usage.GetOr(NO_CHARGE), reported);
    SumUnit(failed.counters);
  }

  // ---------------------------------------------------------------------------
  // Exactly-once settlement
  // ---------------------------------------------------------------------------

  /** The attempt ran to an end of its own: it was neither cancelled nor stopped. */
  predicate Ran(a: Attempt) { a.ending.Finished? || a.ending.Raised? }

  /** The stream ended without a completed response. */
  predicate Unfinished(a: Attempt) { a.ending.Finished? && a.completed.None? }

  /** A provider error followed the completed response. */
  predicate LateFault(a: Attempt) { a.ending.Raised? && a.completed.Some? }

  /** An attempt that ran reports what it recorded. */
  ghost predicate Reconciles(a: Attempt) {
    Ran(a) ==> Same(Total(Reported(a)), Total(Recorded(a)))
  }

  /** The response or error of an attempt carries the charges its adapter recorded, if it records any. */
  ghost predicate CarriesWires(a: Attempt) {
    Ran(a) && a.wires != [] && !Unfinished(a) && !LateFault(a) ==> Same(Total(Reported(a)), Total(a.wires))
  }

  /**
   * An attempt whose adapter records nothing, or whose response or error carries what is
   * recorded, reconciles: all but streams that record charges and end unfinished, and
   * errors that follow a completed response.
   */
  lemma {:induction false} CarriersReconcile(a: Attempt)
    requires CarriesWires(a) && !LateFault(a) && (Unfinished(a) ==> a.wires == [])
    ensures Reconciles(a)
  {
    if Ran(a) && a.wires == [] {
      assert Reported(a) == Recorded(a);
    }
  }

  lemma {:induction false} ListsAreCountable(tried: seq<Attempt>)
    requires forall i :: 0 <= i < |tried| ==> CountableAttempt(tried[i])
    ensures AllCountable(AllRecorded(tried)) && AllCountable(AllReported(tried))
  {
    if tried != [] {
      ListsAreCountable(tried[1..]);
      OneIsCountable(tried[0]);
    }
  }

  lemma {:induction false} OneIsCountable(a: Attempt)
    requires CountableAttempt(a)
    ensures AllCountable(Recorded(a)) && AllCountable(Reported(a))
  {
    FaultIsCountable(a);
  }

  /** If every attempt reconciles, so do the lists of all of them. */
  lemma {:induction false} ListsReconcile(tried: seq<Attempt>)
    requires forall i :: 0 <= i < |tried| ==> CountableAttempt(tried[i])
    requires forall i :: 0 <= i < |tried| ==> Same(Total(Reported(tried[i])), Total(Recorded(tried[i])))
    ensures Same(Total(AllReported(tried)), Total(AllRecorded(tried)))
  {
    if tried != [] {
      var a, rest := tried[0], tried[1..];
      ListsReconcile(rest);
      OneIsCountable(a);
      ListsAreCountable(rest);
      TotalIgnoresGrouping(Reported(a), AllReported(rest));
      TotalIgnoresGrouping(Recorded(a), AllRecorded(rest));
      PlusRespectsSame(Total(Reported(a)), Total(Recorded(a)), Total(AllReported(rest)), Total(AllRecorded(rest)));
      SameThrough(
        Total(AllReported(tried)), Plus(Total(Reported(a)), Total(AllReported(rest))),
        Plus(Total(Recorded(a)), Total(AllRecorded(rest))), Total(AllRecorded(tried)));
    }
  }

  lemma {:induction false} SameThrough(a: Charge, b: Charge, c: Charge, d: Charge)
    requires a.counters == b.counters && a.status == b.status && Same(b, c)
    requires c.counters == d.counters && c.status == d.status
    ensures Same(a, d)
  {
  }

  /** The attempts of a route that was not cut short all ran to an end of their own. */
  lemma {:induction false} RouteTriedEnds(script: seq<Attempt>)
    requires RouteExit(script, NO_CHARGE) != Abort
    ensures forall i :: 0 <= i < |RouteTried(script)| ==>
      && Ran(RouteTried(script)[i])
      && RouteTried(script)[i] in script
  {
    RouteTriedFrom(script, NO_CHARGE);
  }

  lemma {:induction false} RouteTriedFrom(script: seq<Attempt>, failed: Charge)
    requires RouteExit(script, failed) != Abort
    ensures forall i :: 0 <= i < |RouteTried(script)| ==>
      && Ran(RouteTried(script)[i])
      && RouteTried(script)[i] in script
    decreases |script|
  {
    if script != [] && Retried(script[0], |script| == 1) {
      RouteTriedFrom(script[1..], Gather(failed, FaultOf(script[0]).value.usage));
    }
  }

  /** Whether an attempt is in the script of some route. */
  predicate Planned(a: Attempt, routes: seq<Route>) {
    exists r :: r in routes && r.Streamed? && a in r.attempts
  }

  ghost predicate Ended(tried: seq<Attempt>, routes: seq<Route>) {
    forall i :: 0 <= i < |tried| ==>
      Ran(tried[i]) && Planned(tried[i], routes)
  }

  lemma {:induction false} CallTriedEnds(routes: seq<Route>, failed: Charge, caching: bool, misses: nat)
    requires CallExit(routes, failed, caching, misses) != Abort
    ensures Ended(CallTried(routes), routes)
    decreases |routes|
  {
    if routes != [] {
      match routes[0]
      case Unfit => 
        CallTriedEnds(routes[1..], failed, caching, misses);
        EndedWeakens(CallTried(routes[1..]), routes[1..], routes);
      case Streamed(script) =>
        RouteTriedEnds(script);
        RouteIsPlanned(routes, RouteTried(script), script);
        if FallsBack(script) {
          var f := RouteExit(script, NO_CHARGE).fault;
          CallTriedEnds(routes[1..], Gather(failed, f.usage), caching, if caching then misses + 1 else misses);
          EndedWeakens(CallTried(routes[1..]), routes[1..], routes);
        }
      case _ =>
    }
  }

  lemma {:induction false} EndedWeakens(tried: seq<Attempt>, fewer: seq<Route>, routes: seq<Route>)
    requires Ended(tried, fewer) && forall r :: r in fewer ==> r in routes
    ensures Ended(tried, routes)
  {
  }

  lemma {:induction false} RouteIsPlanned(routes: seq<Route>, tried: seq<Attempt>, script: seq<Attempt>)
    requires Streamed(script) in routes
    requires forall i :: 0 <= i < |tried| ==>
      Ran(tried[i]) && tried[i] in script
    ensures Ended(tried, routes)
  {
    forall i | 0 <= i < |tried| ensures Planned(tried[i], routes) {
      assert Streamed(script).Streamed? && tried[i] in Streamed(script).attempts;
    }
  }

  ghost predicate AllReconcile(tried: seq<Attempt>) {
    forall i :: 0 <= i < |tried| ==> Reconciles(tried[i])
  }

  lemma {:induction false} PlannedIsCountable(a: Attempt, routes: seq<Route>)
    requires Planned(a, routes)
    requires forall i :: 0 <= i < |routes| ==> Sound(routes[i])
    ensures CountableAttempt(a)
  {
    var r :| r in routes && r.Streamed? && a in r.attempts;
    assert Sound(r);
  }

  lemma {:induction false} TriedReconcile(tried: seq<Attempt>, routes: seq<Route>)
    requires Ended(tried, routes) && AllReconcile(tried)
    requires forall i :: 0 <= i < |routes| ==> Sound(routes[i])
    ensures Total(AllReported(tried)).counters == Total(AllRecorded(tried)).counters
    ensures Total(AllReported(tried)).status == Total(AllRecorded(tried)).status
  {
    forall i | 0 <= i < |tried|
      ensures CountableAttempt(tried[i]) && Same(Total(Reported(tried[i])), Total(Recorded(tried[i])))
    {
      PlannedIsCountable(tried[i], routes);
      assert Reconciles(tried[i]);
    }
    ListsReconcile(tried);
    ListsAreCountable(tried);
    TotalsAgree(AllReported(tried), AllRecorded(tried));
  }

  /** Empty totals have the same status, so totals that are the same agree on it. */
  lemma {:induction false} TotalsAgree(a: seq<Charge>, b: seq<Charge>)
    requires AllCountable(a) && AllCountable(b) && Same(Total(a), Total(b))
    ensures Total(a).status == Total(b).status
  {
    TotalMeaning(a);
    TotalMeaning(b);
  }

  function Bill(routes: seq<Route>, caching: bool): Charge {
    SettledBy(CallExit(routes, NO_CHARGE, caching, 0), CallCollected(routes, NO_CHARGE))
  }

  /** The exit settles what was reported to it: a response does, and an error when nothing was recorded. */
  predicate SettlesReports(routes: seq<Route>, caching: bool) {
    var exit := CallExit(routes, NO_CHARGE, caching, 0);
    exit.Response? || (exit.ProviderFault? && CallCollected(routes, NO_CHARGE).IsEmpty())
  }

  predicate AnsweredFromCache(routes: seq<Route>, caching: bool) {
    var exit := CallExit(routes, NO_CHARGE, caching, 0);
    exit.Response? && exit.cached
  }

  /** Cancellations, budget stops and errors otherwise settle what was recorded, whatever the attempts report. */
  lemma {:induction false} StopsAndErrorsSettleWhatWasRecorded(routes: seq<Route>, caching: bool)
    requires !SettlesReports(routes, caching)
    ensures Bill(routes, caching) == Total(AllRecorded(CallTried(routes)))
  {
    CollectorIsComplete(routes);
  }

  lemma {:induction false} BillIsReported(routes: seq<Route>, caching: bool)
    requires SettlesReports(routes, caching)
    requires forall i :: 0 <= i < |routes| ==> Sound(routes[i])
    ensures SameCounts(Bill(routes, caching), Total(AllReported(CallTried(routes))))
    ensures !AnsweredFromCache(routes, caching) ==>
      SameBill(Bill(routes, caching), Total(AllReported(CallTried(routes))))
  {
    var exit, reported := CallExit(routes, NO_CHARGE, caching, 0), AllReported(CallTried(routes));
    CarriesNone();
    CallBills(routes, NO_CHARGE, [], caching, 0);
    Ends(reported);
    if exit.ProviderFault? { SameIsSameBill(exit.fault.usage.GetOr(NO_CHARGE), Total(reported)); }
  }

  lemma {:induction false} BillFollows(bill: Charge, reported: Charge, recorded: Charge)
    requires reported.counters == recorded.counters && reported.status == recorded.status
    ensures SameCounts(bill, reported) ==> SameCounts(bill, recorded)
    ensures SameBill(bill, reported) ==> SameBill(bill, recorded)
  {
  }

  /**
   * Whatever the exit (success, a provider error, a budget stop or a cancellation), the bill
   * settled for a request is the total of the charges its attempts recorded, over all retries
   * and routes: none is lost and none counted twice. Only where reports are settled do the
   * attempts have to reconcile, and only an answer from the application's own cache may change
   * the status of the cost.
   */
  lemma {:induction false} SettledExactlyOnce(routes: seq<Route>, caching: bool)
    requires forall i :: 0 <= i < |routes| ==> Sound(routes[i])
    requires SettlesReports(routes, caching) ==> AllReconcile(CallTried(routes))
    ensures
      var total := Total(AllRecorded(CallTried(routes)));
      && SameCounts(Bill(routes, caching), total)
      && (!AnsweredFromCache(routes, caching) ==> SameBill(Bill(routes, caching), total))
  {
    if SettlesReports(routes, caching) {
      var tried := CallTried(routes);
      CallTriedEnds(routes, NO_CHARGE, caching, 0);
      TriedReconcile(tried, routes);
      BillIsReported(routes, caching);
      BillFollows(Bill(routes, caching), Total(AllReported(tried)), Total(AllRecorded(tried)));
    } else {
      StopsAndErrorsSettleWhatWasRecorded(routes, caching);
    }
  }
}
