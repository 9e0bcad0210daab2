/** Exactly which attempts make a request settle less than was recorded for it. */
module SettlementLimits {
  import opened Wrappers
  import opened Charges
  import opened Settlement
  import opened SettlementTheorems
  import opened Sequences

  function Diff(a: Counters, b: Counters): (c: Counters)
    ensures forall i :: 0 <= i < COUNTERS ==> c[i] == a[i] - b[i]
  {
    seq(COUNTERS, i requires 0 <= i < COUNTERS => a[i] - b[i])
  }

  /** What an attempt recorded and did not report. */
  function Lost(a: Attempt): Counters {
    Diff(Total(Recorded(a)).counters, Total(Reported(a)).counters)
  }

  /**
   * The two ways to lose a charge: a stream whose adapter recorded a charge ends without a
   * completed response, or an error that follows the completed response reports something else.
   */
  predicate Loses(a: Attempt) {
    || (Unfinished(a) && !ZeroBill(Total(a.wires).counters))
    || (LateFault(a) && !SameCounts(Total(Reported(a)), Total(Recorded(a))))
  }

  /** An error after a completed response reports no more than was recorded. */
  ghost predicate ReportsNoMore(a: Attempt) {
    LateFault(a) ==> Countable(Lost(a))
  }

  /** Usage is countable, results and errors carry what is recorded, and late errors report no more than that. */
  ghost predicate Orderly(a: Attempt) {
    CountableAttempt(a) && CarriesWires(a) && ReportsNoMore(a)
  }

  lemma {:induction false} NothingLost(a: Attempt)
    requires Total(Recorded(a)).counters == Total(Reported(a)).counters
    ensures Countable(Lost(a)) && ZeroBill(Lost(a))
  {
  }

  lemma {:induction false} UnfinishedLoses(a: Attempt)
    requires Unfinished(a) && a.wires != [] && AllCountable(a.wires)
    ensures Lost(a) == Total(a.wires).counters && Countable(Lost(a))
  {
    TotalCountsOfOne(INCOMPLETE_CHARGE);
    assert Reported(a) == [INCOMPLETE_CHARGE] && Recorded(a) == a.wires;
    TotalMeaning(a.wires);
    DiffUnit(Total(a.wires).counters);
  }

  lemma {:induction false} DiffUnit(c: Counters)
    ensures Diff(c, NO_COUNTERS) == c
  {
  }

  lemma {:induction false} LateFaultLoses(a: Attempt)
    requires LateFault(a)
    ensures ZeroBill(Lost(a)) <==> !Loses(a)
  {
    NoDifference(Total(Recorded(a)), Total(Reported(a)));
  }

  lemma {:induction false} OthersLoseNothing(a: Attempt)
    requires CarriesWires(a) && Ran(a) && !LateFault(a) && (Unfinished(a) ==> a.wires == [])
    ensures Countable(Lost(a)) && ZeroBill(Lost(a)) && !Loses(a)
  {
    CarriersReconcile(a);
    NothingLost(a);
    assert NO_CHARGE.counters == NO_COUNTERS;
  }

  lemma {:induction false} LostBy(a: Attempt)
    requires Orderly(a) && Ran(a)
    ensures Countable(Lost(a)) && (ZeroBill(Lost(a)) <==> !Loses(a))
  {
    if LateFault(a) {
      LateFaultLoses(a);
    } else if Unfinished(a) && a.wires != [] {
      UnfinishedLoses(a);
    } else {
      OthersLoseNothing(a);
    }
  }

  lemma {:induction false} NoDifference(a: Charge, b: Charge)
    ensures ZeroBill(Diff(a.counters, b.counters)) <==> SameCounts(b, a)
  {
    var d := Diff(a.counters, b.counters);
    assert forall i :: 0 <= i < APPLICATION_CACHE_HITS ==> d[i] == a.counters[i] - b.counters[i];
  }

  lemma {:induction false} ZeroSums(a: Counters, b: Counters)
    requires Countable(a) && Countable(b)
    ensures Countable(Sum(a, b))
    ensures ZeroBill(Sum(a, b)) <==> ZeroBill(a) && ZeroBill(b)
  {
    SumOfCountable(a, b);
    var s := Sum(a, b);
    assert s[INPUT_TOKENS] == a[INPUT_TOKENS] + b[INPUT_TOKENS];
    if ZeroBill(s) {
      forall i | 0 <= i < APPLICATION_CACHE_HITS ensures a[i] == 0 && b[i] == 0 {
        assert s[i] == a[i] + b[i] && s[INPUT_TOKENS] == 0;
      }
    }
  }

  lemma {:induction false} DiffOfSums(a: Counters, b: Counters, c: Counters, d: Counters)
    ensures Diff(Sum(a, b), Sum(c, d)) == Sum(Diff(a, c), Diff(b, d))
  {
  }

  function AllLost(tried: seq<Attempt>): Counters {
    Diff(Total(AllRecorded(tried)).counters, Total(AllReported(tried)).counters)
  }

  lemma {:induction false} LostAdds(a: Attempt, rest: seq<Attempt>)
    requires CountableAttempt(a) && forall i :: 0 <= i < |rest| ==> CountableAttempt(rest[i])
    ensures AllLost([a] + rest) == Sum(Lost(a), AllLost(rest))
  {
    OneIsCountable(a);
    ListsAreCountable(rest);
    ListsConcat([a], rest);
    OneAttempt(a);
    TotalIgnoresGrouping(Recorded(a), AllRecorded(rest));
    TotalIgnoresGrouping(Reported(a), AllReported(rest));
    DiffOfSums(
      Total(Recorded(a)).counters, Total(AllRecorded(rest)).counters,
      Total(Reported(a)).counters, Total(AllReported(rest)).counters);
  }

  /** Losses do not cancel: the total lost is nothing exactly when no attempt loses anything. */
  lemma {:induction false} LossesAddUp(tried: seq<Attempt>)
    requires forall i :: 0 <= i < |tried| ==> Orderly(tried[i]) && Ran(tried[i])
    ensures Countable(AllLost(tried))
    ensures ZeroBill(AllLost(tried)) <==> forall i :: 0 <= i < |tried| ==> !Loses(tried[i])
  {
    if tried != [] {
      var a, rest := tried[0], tried[1..];
      assert tried == [a] + rest;
      LossesAddUp(rest);
      LostBy(a);
      LostAdds(a, rest);
      ZeroSums(Lost(a), AllLost(rest));
      FirstOrRest(tried);
    }
  }

  lemma {:induction false} FirstOrRest(tried: seq<Attempt>)
    requires tried != []
    ensures (forall i :: 0 <= i < |tried| ==> !Loses(tried[i])) <==>
            !Loses(tried[0]) && forall i :: 0 <= i < |tried[1..]| ==> !Loses(tried[1..][i])
  {
    if !Loses(tried[0]) && forall i :: 0 <= i < |tried[1..]| ==> !Loses(tried[1..][i]) {
      forall i | 0 <= i < |tried| ensures !Loses(tried[i]) {
        if i > 0 { assert tried[1..][i - 1] == tried[i]; }
      }
    }
  }

  ghost predicate OrderlyCall(routes: seq<Route>) {
    && (forall i :: 0 <= i < |routes| ==> Sound(routes[i]))
    && (forall i :: 0 <= i < |CallTried(routes)| ==> Orderly(CallTried(routes)[i]))
  }

  predicate SomeLoses(tried: seq<Attempt>) {
    exists i :: 0 <= i < |tried| && Loses(tried[i])
  }

  /**
   * A response, or an error for which nothing was recorded, settles the token, request and
   * cost counters that were recorded exactly when no attempt loses a charge in one of the two ways.
   */
  lemma {:induction false} BilledRightExactlyWhenNothingIsLost(routes: seq<Route>, caching: bool)
    requires OrderlyCall(routes) && SettlesReports(routes, caching)
    ensures
      var tried := CallTried(routes);
      SameCounts(Bill(routes, caching), Total(AllRecorded(tried))) <==> !SomeLoses(tried)
  {
    var tried := CallTried(routes);
    CallTriedEnds(routes, NO_CHARGE, caching, 0);
    BillIsReported(routes, caching);
    LossesAddUp(tried);
    NoDifference(Total(AllRecorded(tried)), Total(AllReported(tried)));
    CountsThrough(Bill(routes, caching), Total(AllReported(tried)), Total(AllRecorded(tried)));
  }

  lemma {:induction false} CountsThrough(a: Charge, b: Charge, c: Charge)
    requires SameCounts(a, b)
    ensures SameCounts(a, c) <==> SameCounts(b, c)
  {
  }

  /** No request is billed more than was recorded for it, whatever it loses. */
  lemma {:induction false} BillIsNoMoreThanRecorded(routes: seq<Route>, caching: bool)
    requires OrderlyCall(routes)
    ensures Bill(routes, caching).counters[COST] <= Total(AllRecorded(CallTried(routes))).counters[COST]
  {
    var tried := CallTried(routes);
    if SettlesReports(routes, caching) {
      CallTriedEnds(routes, NO_CHARGE, caching, 0);
      BillIsReported(routes, caching);
      LossesAddUp(tried);
      assert AllLost(tried)[COST] ==
        Total(AllRecorded(tried)).counters[COST] - Total(AllReported(tried)).counters[COST];
    } else {
      StopsAndErrorsSettleWhatWasRecorded(routes, caching);
    }
  }

  // ---------------------------------------------------------------------------
  // The status of the cost
  // ---------------------------------------------------------------------------

  /** Some stream that recorded charges ended unfinished. */
  predicate SomeUnfinished(tried: seq<Attempt>) {
    exists i :: 0 <= i < |tried| && Unfinished(tried[i]) && tried[i].wires != []
  }

  predicate SomeLateFault(tried: seq<Attempt>) {
    exists i :: 0 <= i < |tried| && LateFault(tried[i])
  }

  lemma {:induction false} ReportIsIncluded(tried: seq<Attempt>, i: nat, c: Charge)
    requires i < |tried| && c in Reported(tried[i])
    ensures c in AllReported(tried)
  {
    if i > 0 {
      ReportIsIncluded(tried[1..], i - 1, c);
    }
  }

  /** An unfinished stream reports an incomplete cost. */
  lemma {:induction false} UnfinishedIsIncomplete(tried: seq<Attempt>)
    requires SomeUnfinished(tried) && forall i :: 0 <= i < |tried| ==> CountableAttempt(tried[i])
    ensures Total(AllReported(tried)).status == Incomplete
  {
    var i :| 0 <= i < |tried| && Unfinished(tried[i]) && tried[i].wires != [];
    assert INCOMPLETE_CHARGE in Reported(tried[i]);
    ReportIsIncluded(tried, i, INCOMPLETE_CHARGE);
    ListsAreCountable(tried);
    TotalMeaning(AllReported(tried));
    assert INCOMPLETE_CHARGE.status in Statuses(AllReported(tried));
  }

  lemma {:induction false} OthersReconcile(tried: seq<Attempt>)
    requires forall i :: 0 <= i < |tried| ==> Orderly(tried[i])
    requires !SomeUnfinished(tried) && !SomeLateFault(tried)
    ensures AllReconcile(tried)
  {
    forall i | 0 <= i < |tried| ensures Reconciles(tried[i]) { CarriersReconcile(tried[i]); }
  }

  /**
   * Without errors after a completed response, the whole bill is right, the status of its cost
   * included, exactly when nothing is lost and, if a recording stream ended unfinished, the
   * recorded cost is incomplete anyway.
   */
  lemma {:induction false} StatusRightExactlyWhenIncompleteAnyway(routes: seq<Route>, caching: bool)
    requires OrderlyCall(routes) && SettlesReports(routes, caching) && !AnsweredFromCache(routes, caching)
    requires !SomeLateFault(CallTried(routes))
    ensures
      var tried := CallTried(routes);
      var recorded := Total(AllRecorded(tried));
      SameBill(Bill(routes, caching), recorded) <==>
        !SomeLoses(tried) && (SomeUnfinished(tried) ==> recorded.status == Incomplete)
  {
    var tried := CallTried(routes);
    if SomeUnfinished(tried) {
      BilledRightExactlyWhenNothingIsLost(routes, caching);
      BillIsReported(routes, caching);
      UnfinishedIsIncomplete(tried);
    } else {
      OthersReconcile(tried);
      SettledExactlyOnce(routes, caching);
      BilledRightExactlyWhenNothingIsLost(routes, caching);
    }
  }

  // ---------------------------------------------------------------------------
  // Inputs that lose charges
  // ---------------------------------------------------------------------------

  /** A first attempt that is retried, and a second one that succeeds. */
  ghost predicate RetriedOnce(first: Attempt, second: Attempt) {
    && CountableAttempt(first) && CountableAttempt(second)
    && Retried(first, false)
    && second.ending == Finished(false) && second.completed.Some? && !second.completed.value.IsEmpty()
    && Total(Recorded(second)).counters == second.completed.value.counters
  }

  lemma {:induction false} TwoAttempts(first: Attempt, second: Attempt)
    requires RetriedOnce(first, second)
    ensures
      var routes := [Streamed([first, second])];
      && Bill(routes, false).counters == Sum(Total(Reported(first)).counters, second.completed.value.counters)
      && Total(AllRecorded(CallTried(routes))).counters ==
           Sum(Total(Recorded(first)).counters, second.completed.value.counters)
  {
    var failed := Gather(NO_CHARGE, FaultOf(first).value.usage);
    SecondAnswers(first, second);
    OneRoute([first, second], WithFailed(failed, second.completed.value));
    GatheredReport(first);
    FailedCounts(failed, second.completed.value);
    LostAndFound(first, second);
  }

  lemma {:induction false} SecondAnswers(first: Attempt, second: Attempt)
    requires RetriedOnce(first, second)
    ensures RouteTried([first, second]) == [first, second]
    ensures
      var failed := Gather(NO_CHARGE, FaultOf(first).value.usage);
      RouteExit([first, second], NO_CHARGE) == Response(WithFailed(failed, second.completed.value), false)
  {
    var script := [first, second];
    assert script[1..] == [second] && [second][1..] == [];
    LastAnswers(second, Gather(NO_CHARGE, FaultOf(first).value.usage));
  }

  lemma {:induction false} LastAnswers(a: Attempt, failed: Charge)
    requires a.ending == Finished(false) && a.completed.Some? && !a.completed.value.IsEmpty()
    ensures RouteTried([a]) == [a]
    ensures RouteExit([a], failed) == Response(WithFailed(failed, a.completed.value), false)
  {
  }

  /** A request with one route that answers. */
  lemma {:induction false} OneRoute(script: seq<Attempt>, usage: Charge)
    requires RouteExit(script, NO_CHARGE) == Response(usage, false)
    ensures
      var routes := [Streamed(script)];
      CallTried(routes) == RouteTried(script) && Bill(routes, false) == usage
  {
    Ends(RouteTried(script));
    NothingFailed(usage);
    assert CallExit([Streamed(script)], NO_CHARGE, false, 0) == Response(WithFailed(NO_CHARGE, usage), false);
  }

  lemma {:induction false} NothingFailed(usage: Charge)
    ensures WithFailed(NO_CHARGE, usage) == usage
  {
  }

  lemma {:induction false} GatheredReport(a: Attempt)
    requires FaultOf(a).Some?
    ensures Gather(NO_CHARGE, FaultOf(a).value.usage).counters == Total(Reported(a)).counters
  {
    if FaultOf(a).value.usage.Some? { TotalOfOne(FaultOf(a).value.usage.value); }
  }

  lemma {:induction false} FailedCounts(failed: Charge, usage: Charge)
    ensures WithFailed(failed, usage).counters == Sum(failed.counters, usage.counters)
  {
    if failed.IsEmpty() { EmptyFirst(failed, usage); }
  }

  lemma {:induction false} LostAndFound(first: Attempt, second: Attempt)
    requires CountableAttempt(first) && CountableAttempt(second)
    ensures Total(AllRecorded([first, second])).counters ==
            Sum(Total(Recorded(first)).counters, Total(Recorded(second)).counters)
  {
    assert [first, second] == [first] + [second];
    ListsConcat([first], [second]);
    OneAttempt(first);
    OneAttempt(second);
    OneIsCountable(first);
    OneIsCountable(second);
    TotalIgnoresGrouping(Recorded(first), Recorded(second));
  }

  /** A successful attempt whose adapter recorded its charge. */
  function Paying(paid: Charge): Attempt {
    Attempt([paid], Some(paid), false, Finished(false))
  }

  lemma {:induction false} TotalCountsOfOne(c: Charge)
    ensures Total([c]).counters == c.counters
  {
    TotalOfOne(c);
    SumUnit(c.counters);
  }

  /**
   * A stream whose adapter recorded its charge may end without a completed response; the
   * retry that then succeeds settles only its own charge.
   */
  lemma {:induction false} UnfinishedStreamLosesItsCharge(lost: Charge, paid: Charge)
    requires Countable(lost.counters) && Countable(paid.counters) && !paid.IsEmpty()
    ensures
      var routes := [Streamed([Attempt([lost], None, false, Finished(false)), Paying(paid)])];
      && Bill(routes, false).counters == paid.counters
      && Total(AllRecorded(CallTried(routes))).counters == Sum(lost.counters, paid.counters)
  {
    var first := Attempt([lost], None, false, Finished(false));
    TotalCountsOfOne(paid);
    TotalCountsOfOne(lost);
    TotalCountsOfOne(INCOMPLETE_CHARGE);
    SumUnit(paid.counters);
    assert Reported(first) == [INCOMPLETE_CHARGE];
    TwoAttempts(first, Paying(paid));
  }

  /**
   * When a stream completes and then fails, the retry that succeeds settles what the error
   * reported, whatever the completed response cost.
   */
  lemma {:induction false} LateFaultSettlesItsReport(done: Charge, reported: Charge, paid: Charge)
    requires Countable(done.counters) && Countable(reported.counters) && Countable(paid.counters)
    requires !done.IsEmpty() && !paid.IsEmpty()
    ensures
      var fault := Fault(Unavailable, true, Some(reported));
      var routes := [Streamed([Attempt([], Some(done), false, Raised(fault)), Paying(paid)])];
      && Bill(routes, false).counters == Sum(reported.counters, paid.counters)
      && Total(AllRecorded(CallTried(routes))).counters == Sum(done.counters, paid.counters)
  {
    var first := Attempt([], Some(done), false, Raised(Fault(Unavailable, true, Some(reported))));
    TotalCountsOfOne(paid);
    TotalCountsOfOne(done);
    TotalCountsOfOne(reported);
    TwoAttempts(first, Paying(paid));
  }

  /**
   * Losses can only be told apart if no error reports too much: an error that reports twice
   * what was recorded makes up for an unfinished stream with the same charge.
   */
  lemma {:induction false} TooMuchMakesUpForTooLittle(c: Charge)
    requires Countable(c.counters) && !ZeroBill(c.counters)
    ensures
      var unfinished := Attempt([c], None, false, Finished(false));
      var late := Attempt([c], Some(c), false, Raised(Fault(Unavailable, true, Some(Plus(c, c)))));
      && Loses(unfinished) && Loses(late)
      && AllLost([unfinished, late]) == NO_COUNTERS
  {
    var unfinished := Attempt([c], None, false, Finished(false));
    var late := Attempt([c], Some(c), false, Raised(Fault(Unavailable, true, Some(Plus(c, c)))));
    TotalCountsOfOne(c);
    TotalCountsOfOne(Plus(c, c));
    TotalCountsOfOne(INCOMPLETE_CHARGE);
    SumOfCountable(c.counters, c.counters);
    assert Reported(unfinished) == [INCOMPLETE_CHARGE] && Reported(late) == [Plus(c, c)];
    OneAttempt(late);
    assert [unfinished, late] == [unfinished] + [late];
    LostAdds(unfinished, [late]);
    CancelOut(unfinished, late, c);
  }

  lemma {:induction false} CancelOut(a: Attempt, b: Attempt, c: Charge)
    requires Total(Recorded(a)).counters == Total(Recorded(b)).counters == c.counters
    requires Total(Reported(a)).counters == NO_COUNTERS && Total(Reported(b)).counters == Sum(c.counters, c.counters)
    ensures Sum(Lost(a), Lost(b)) == NO_COUNTERS
    ensures !ZeroBill(c.counters) ==> !SameCounts(Total(Reported(b)), Total(Recorded(b)))
  {
    Opposite(c.counters);
    var doubled := Total(Reported(b)).counters;
    assert forall i :: 0 <= i < COUNTERS ==> doubled[i] == c.counters[i] + c.counters[i];
  }

  lemma {:induction false} Opposite(c: Counters)
    ensures Sum(Diff(c, NO_COUNTERS), Diff(c, Sum(c, c))) == NO_COUNTERS
  {
  }
}
