/** The provider layer: one record per wire request, and the retry loop shared by wrappers. */
module Retries {
  import opened Wrappers
  import opened Charges
  import opened Settlement
  import opened SettlementTheorems
  import opened Sequences

  // ---------------------------------------------------------------------------
  // One wire request
  // ---------------------------------------------------------------------------

  /** How the block that makes a wire request is left. */
  datatype BlockEnd = Clean | TimedOut | Errored(fault: Fault, derived: Option<Charge>) | Broken

  function Incompletely(latest: Option<Charge>): Charge {
    latest.GetOr(UNREPORTED_REQUEST).(status := Incomplete)
  }

  /** A block that makes a wire request: what it records, the last snapshot of its stream, and its end. */
  datatype Block = Block(reports: seq<Charge>, latest: Option<Charge>, end: BlockEnd)

  function RaisedBy(b: Block): (raised: Option<Fault>)
    ensures raised.Some? ==> raised.value.usage.Some?
  {
    match b.end
    case TimedOut => Some(Fault(Unavailable, true, Some(Incompletely(b.latest))))
    case Errored(f, derived) =>
      var usage := if f.usage.Some? then f.usage else derived;
      Some(f.(usage := Some(usage.GetOr(Incompletely(b.latest)))))
    case _ => None
  }

  function ObservedOf(b: Block): Charge {
    if b.reports != [] then b.reports[0]
    else if RaisedBy(b).Some? then RaisedBy(b).value.usage.value
    else Incompletely(b.latest)
  }

  /**
   * A wire request. Exactly one charge reaches the observer, the first one. A provider error
   * leaves with that charge unless the block had already recorded another.
   */
  method RequestAttempt(b: Block) returns (observed: seq<Charge>, raised: Option<Fault>)
    ensures observed == [ObservedOf(b)] && raised == RaisedBy(b)
    ensures raised.Some? <==> b.end.TimedOut? || b.end.Errored?
    ensures raised.Some? && b.reports == [] ==> raised.value.usage == Some(observed[0])
  {
    observed := [];
    for i := 0 to |b.reports|
      invariant observed == if i == 0 then [] else [b.reports[0]]
    {
      if observed == [] {
        observed := [b.reports[i]];
      }
    }
    raised := None;
    if b.end.TimedOut? {
      raised := Some(Fault(Unavailable, true, Some(Incompletely(b.latest))));
    } else if b.end.Errored? {
      var usage := if b.end.fault.usage.Some? then b.end.fault.usage else b.end.derived;
      raised := Some(b.end.fault.(usage := Some(usage.GetOr(Incompletely(b.latest)))));
    }
    if raised.Some? && observed == [] {
      observed := [raised.value.usage.value];
    }
    if observed == [] {
      observed := [Incompletely(b.latest)];
    }
  }

  // ---------------------------------------------------------------------------
  // Attempts made of wire requests
  // ---------------------------------------------------------------------------

  /** A block that records its answer as its last act, or nothing. */
  predicate RecordsItsAnswer(b: Block) {
    if b.end.Clean? then |b.reports| == 1 else b.reports == []
  }

  /** The charge that a block passes on with its answer or error. */
  function PassedOn(b: Block): Charge
    requires RecordsItsAnswer(b) && !b.end.Broken?
  {
    if b.end.Clean? then b.reports[0] else RaisedBy(b).value.usage.value
  }

  /** What a block passes on is what the observer saw of it. */
  lemma {:induction false} PassedOnIsObserved(b: Block)
    requires RecordsItsAnswer(b) && !b.end.Broken?
    ensures PassedOn(b) == ObservedOf(b)
  {
  }

  function ObservedOfAll(blocks: seq<Block>): (charges: seq<Charge>)
    ensures |charges| == |blocks| && forall i :: 0 <= i < |blocks| ==> charges[i] == ObservedOf(blocks[i])
  {
    seq(|blocks|, i requires 0 <= i < |blocks| => ObservedOf(blocks[i]))
  }

  /** The usage of earlier wire requests joined with that of the last one. */
  predicate Joined(prior: Charge, usage: Charge, total: Charge) {
    total == Plus(prior, usage) || (prior.IsEmpty() && total == usage)
  }

  /** Earlier requests of an attempt, each answered or failed, whose usage is added up. */
  ghost predicate AddsUp(earlier: seq<Block>, prior: Charge) {
    && (forall i :: 0 <= i < |earlier| ==> RecordsItsAnswer(earlier[i]) && !earlier[i].end.Broken?)
    && prior == Total(seq(|earlier|, i requires 0 <= i < |earlier| => PassedOn(earlier[i])))
  }

  /** What leaves an attempt is its answer, or an error, with the usage of all its wire requests. */
  predicate Leaves(a: Attempt, prior: Charge, usage: Charge) {
    if a.ending.Raised? then
      a.completed.None? && a.ending.fault.usage.Some? && Joined(prior, usage, a.ending.fault.usage.value)
    else
      a.completed.Some? && Joined(prior, usage, a.completed.value)
  }

  /**
   * An attempt of an adapter that makes its wire requests in blocks: recovery requests follow
   * one another, and the last one, unless it breaks, ends the attempt with a response or an error.
   */
  ghost predicate Relays(a: Attempt, earlier: seq<Block>, last: Block) {
    && RecordsItsAnswer(last)
    && a.wires == ObservedOfAll(earlier + [last])
    && (exists prior :: AddsUp(earlier, prior) && (Ran(a) ==> !last.end.Broken? && Leaves(a, prior, PassedOn(last))))
  }

  /** Every wire request has a cost of its own: at least the request is counted. */
  ghost predicate Counted(blocks: seq<Block>) {
    forall i :: 0 <= i < |blocks| ==> Countable(ObservedOf(blocks[i]).counters) && !ObservedOf(blocks[i]).IsEmpty()
  }

  lemma {:induction false} PriorIsObserved(earlier: seq<Block>, prior: Charge)
    requires AddsUp(earlier, prior)
    ensures prior == Total(ObservedOfAll(earlier))
  {
    var passed := seq(|earlier|, i requires 0 <= i < |earlier| => PassedOn(earlier[i]));
    forall i | 0 <= i < |earlier| ensures passed[i] == ObservedOfAll(earlier)[i] { PassedOnIsObserved(earlier[i]); }
    assert passed == ObservedOfAll(earlier);
  }

  lemma {:induction false} WireTotal(earlier: seq<Block>, last: Block)
    requires Counted(earlier + [last])
    ensures AllCountable(ObservedOfAll(earlier)) && AllCountable(ObservedOfAll(earlier + [last]))
    ensures Total(ObservedOfAll(earlier + [last])) == Plus(Total(ObservedOfAll(earlier)), ObservedOf(last))
    ensures Countable(ObservedOf(last).counters) && !ObservedOf(last).IsEmpty()
  {
    var blocks := earlier + [last];
    var wires := ObservedOfAll(blocks);
    assert blocks[|earlier|] == last;
    assert wires[..|earlier|] == ObservedOfAll(earlier);
    forall i | 0 <= i < |earlier| ensures Countable(ObservedOfAll(earlier)[i].counters) {
      assert blocks[i] == earlier[i];
    }
  }

  /** The usage that leaves an attempt is the total of its wire requests. */
  lemma {:induction false} JoinedIsTotal(earlier: seq<Block>, last: Block, prior: Charge, total: Charge)
    requires AddsUp(earlier, prior) && Counted(earlier + [last])
    requires RecordsItsAnswer(last) && !last.end.Broken? && Joined(prior, PassedOn(last), total)
    ensures Carries(total, ObservedOfAll(earlier + [last])) && !total.IsEmpty()
  {
    PriorIsObserved(earlier, prior);
    PassedOnIsObserved(last);
    WireTotal(earlier, last);
    CarriesIsCountable(prior, ObservedOfAll(earlier));
    PlusIsEmpty(prior, ObservedOf(last));
    if prior.IsEmpty() { EmptyFirst(prior, ObservedOf(last)); }
  }

  lemma {:induction false} TotalIsSame(total: Charge)
    ensures Same(Total([total]), total)
  {
    TotalOfOne(total);
    EmptyFirst(NO_CHARGE, total);
  }

  lemma {:induction false} RelayedTotal(a: Attempt, earlier: seq<Block>, last: Block) returns (total: Charge)
    requires Relays(a, earlier, last) && Counted(earlier + [last]) && Ran(a)
    ensures Same(total, Total(a.wires)) && !total.IsEmpty()
    ensures
      if a.ending.Raised? then a.completed.None? && a.ending.fault.usage == Some(total)
      else a.completed == Some(total)
  {
    var prior :| AddsUp(earlier, prior) && (Ran(a) ==> !last.end.Broken? && Leaves(a, prior, PassedOn(last)));
    total := if a.ending.Raised? then a.ending.fault.usage.value else a.completed.value;
    JoinedIsTotal(earlier, last, prior, total);
  }

  /**
   * Attempts made of wire requests reconcile: the charges observed one by one are the usage of
   * the response or error, and neither way to lose a charge is open to them.
   */
  lemma {:induction false} RelayedAttemptsReconcile(a: Attempt, earlier: seq<Block>, last: Block)
    requires Relays(a, earlier, last) && Counted(earlier + [last])
    ensures Reconciles(a) && CarriesWires(a) && !Unfinished(a) && !LateFault(a)
  {
    if Ran(a) {
      var total := RelayedTotal(a, earlier, last);
      assert Reported(a) == [total];
      TotalIsSame(total);
    }
  }

  // ---------------------------------------------------------------------------
  // The shared retry loop
  // ---------------------------------------------------------------------------

  /** An attempt of an operation: a finished one has a result. A timeout is an unavailable provider. */
  predicate Operational(a: Attempt) {
    a.ending.Finished? ==> a.completed.Some? && !a.ending.blank
  }

  /** The charges observed for an attempt. Unlike a stream, a result with empty usage stays as it is. */
  function Observed(a: Attempt): seq<Charge> {
    if a.wires != [] then a.wires
    else if a.ending.Finished? && a.completed.Some? then [a.completed.value]
    else match FaultOf(a)
      case Some(f) => AsList(f.usage)
      case None => if a.ending.Interrupted? then [UNREPORTED_REQUEST] else []
  }

  function Returned(a: Attempt): seq<Charge> {
    match FaultOf(a)
    case Some(f) => AsList(f.usage)
    case None => if a.ending.Finished? && a.completed.Some? then [a.completed.value] else []
  }

  predicate TriedAgain(a: Attempt, last: bool) {
    FaultOf(a).Some? && FaultOf(a).value.retryable && !last
  }

  function RetryExit(script: seq<Attempt>, prior: Charge): Exit {
    if script == [] then Abort
    else
      var a := script[0];
      match FaultOf(a)
      case Some(f) =>
        var prior' := Gather(prior, f.usage);
        if TriedAgain(a, |script| == 1) then RetryExit(script[1..], prior')
        else ProviderFault(f.(usage := if prior'.IsEmpty() then f.usage else Some(prior')))
      case None =>
        if a.ending.Finished? && a.completed.Some? then Response(WithFailed(prior, a.completed.value), false)
        else Abort
  }

  function RetryObserved(script: seq<Attempt>): seq<Charge> {
    if script == [] then []
    else Observed(script[0]) + if TriedAgain(script[0], |script| == 1) then RetryObserved(script[1..]) else []
  }

  function RetryReturned(script: seq<Attempt>): seq<Charge> {
    if script == [] then []
    else Returned(script[0]) + if TriedAgain(script[0], |script| == 1) then RetryReturned(script[1..]) else []
  }

  /** Retry an operation, showing each charge to an observer as it happens. */
  method RetryOperation(script: seq<Attempt>) returns (exit: Exit, observed: seq<Charge>)
    requires forall i :: 0 <= i < |script| ==> Operational(script[i])
    ensures exit == RetryExit(script, NO_CHARGE)
    ensures observed == RetryObserved(script)
  {
    var prior := new Usage();
    observed := [];
    for i := 0 to |script|
      invariant fresh(prior)
      invariant RetryExit(script, NO_CHARGE) == RetryExit(script[i..], prior.Value())
      invariant RetryObserved(script) == observed + RetryObserved(script[i..])
    {
      var a := script[i];
      assert script[i..][0] == a && script[i..][1..] == script[i + 1..];
      Regroup(observed, Observed(a), RetryObserved(script[i + 1..]));
      Ends(Observed(a));
      observed := observed + Observed(a);
      var fault := FaultOf(a);
      if fault.None? {
        if a.ending.Finished? {
          var usage := FinalUsage(prior, a.completed.value);
          return Response(usage, false), observed;
        }
        return Abort, observed;
      }
      GatherUsage(prior, fault.value.usage);
      if !fault.value.retryable || i + 1 >= |script| {
        return ProviderFault(
          if prior.Value().IsEmpty() then fault.value else fault.value.(usage := Some(prior.Value()))), observed;
      }
    }
    return Abort, observed;
  }

  /**
   * What is observed for an attempt: the charges its adapter records, if it records any; else the usage
   * of its result, one incomplete request if it was cancelled, or what its error reports.
   */
  lemma {:induction false} WhatIsObserved(a: Attempt)
    requires Operational(a)
    ensures
      if a.wires != [] then Observed(a) == a.wires
      else match a.ending
        case Finished(_) => Observed(a) == [a.completed.value]
        case Interrupted =>
          && |Observed(a)| == 1 && Observed(a)[0].status == Incomplete && Observed(a)[0].counters[REQUESTS] == 1
          && forall i :: 0 <= i < COUNTERS && i != REQUESTS ==> Observed(a)[0].counters[i] == 0
        case Raised(f) =>
          if f.usage.Some? then Observed(a) == [f.usage.value]
          else if f.kind.Unavailable? then
            && |Observed(a)| == 1 && Observed(a)[0].status == Incomplete
            && forall i :: 0 <= i < COUNTERS ==> Observed(a)[0].counters[i] == 0
          else Observed(a) == []
        case Stopped => Observed(a) == []
  {
  }

  /** The attempts that the loop makes. */
  function AttemptsMade(script: seq<Attempt>): seq<Attempt> {
    if script == [] then []
    else [script[0]] + if TriedAgain(script[0], |script| == 1) then AttemptsMade(script[1..]) else []
  }

  function ObservedOfAttempts(tried: seq<Attempt>): seq<Charge> {
    if tried == [] then [] else Observed(tried[0]) + ObservedOfAttempts(tried[1..])
  }

  /** Another attempt follows exactly after a provider error that says that it may be retried. */
  predicate ErrsRetryably(a: Attempt) {
    || (a.ending.Raised? && a.ending.fault.retryable)
    || (a.ending.Finished? && (a.completed.None? || a.ending.blank))
  }

  /**
   * The attempts made are the first ones of the script, another one following exactly after a
   * retryable provider error if the allowance is not used up; what is observed is theirs, and
   * the last one decides how the loop exits.
   */
  lemma {:induction false} RetriesWhileRetryable(script: seq<Attempt>, prior: Charge)
    ensures AttemptsMade(script) <= script && (script != [] ==> AttemptsMade(script) != [])
    ensures forall i :: 0 <= i < |AttemptsMade(script)| ==>
      (i + 1 < |AttemptsMade(script)| <==> i + 1 < |script| && ErrsRetryably(script[i]))
    ensures RetryObserved(script) == ObservedOfAttempts(AttemptsMade(script))
    ensures script != [] ==>
      var exit, last := RetryExit(script, prior), AttemptsMade(script)[|AttemptsMade(script)| - 1];
      && (exit.Response? <==> last.ending == Finished(false) && last.completed.Some?)
      && (exit.Abort? <==> last.ending.Interrupted? || last.ending.Stopped?)
    decreases |script|
  {
    if script != [] {
      var a, rest := script[0], script[1..];
      assert script == [a] + rest;
      if TriedAgain(a, |script| == 1) {
        RetriesWhileRetryable(rest, Gather(prior, FaultOf(a).value.usage));
        assert AttemptsMade(script)[1..] == AttemptsMade(rest);
        forall i | 0 <= i < |AttemptsMade(script)|
          ensures i + 1 < |AttemptsMade(script)| <==> i + 1 < |script| && ErrsRetryably(script[i])
        {
          if i > 0 { assert script[i] == rest[i - 1]; }
        }
      } else {
        assert AttemptsMade(script)[1..] == [];
        Ends(Observed(a));
      }
    }
  }

  /** A wire request that ends without a usage of its own is an incomplete one, with its last snapshot if any. */
  lemma {:induction false} IncompleteRequests(latest: Option<Charge>)
    ensures
      var c := Incompletely(latest);
      && c.status == Incomplete
      && match latest
         case Some(snapshot) => c.counters == snapshot.counters
         case None => c.counters[REQUESTS] == 1 && forall i :: 0 <= i < COUNTERS && i != REQUESTS ==> c.counters[i] == 0
  {
  }

  /** What leaves the loop carries the reports of all its attempts. */
  lemma {:induction false} RetryCarries(script: seq<Attempt>, prior: Charge, before: seq<Charge>)
    requires script != [] && Carries(prior, before)
    requires forall i :: 0 <= i < |script| ==> CountableAttempt(script[i])
    ensures
      match RetryExit(script, prior)
      case Response(usage, _) => Carries(usage, before + RetryReturned(script))
      case ProviderFault(f) => Carries(f.usage.GetOr(NO_CHARGE), before + RetryReturned(script))
      case Abort => true
    decreases |script|
  {
    var a, rest := script[0], script[1..];
    FaultIsCountable(a);
    Ends(Returned(a));
    match FaultOf(a)
    case Some(f) =>
      if TriedAgain(a, |script| == 1) {
        GatherCarries(prior, before, f.usage);
        RetryCarries(rest, Gather(prior, f.usage), before + AsList(f.usage));
        Regroup(before, AsList(f.usage), RetryReturned(rest));
      } else {
        FaultCarries(prior, before, f.usage);
      }
    case None =>
      if a.ending.Finished? && a.completed.Some? {
        CarriesOne(a.completed.value);
        WithFailedCarries(prior, before, a.completed.value, [a.completed.value]);
      }
  }

  /** The result or error of an attempt carries the charges observed for it. */
  ghost predicate ReturnsObserved(a: Attempt) {
    Ran(a) ==> Same(Total(Returned(a)), Total(Observed(a)))
  }

  /** For an operation that leaves recording to the loop. */
  lemma {:induction false} UnrecordedOperationsReturn(a: Attempt)
    requires a.wires == [] && Operational(a) && !LateFault(a)
    ensures ReturnsObserved(a)
  {
  }

  /** For an operation made of wire requests. */
  lemma {:induction false} RelayedOperationsReturn(a: Attempt, earlier: seq<Block>, last: Block)
    requires Relays(a, earlier, last) && Counted(earlier + [last]) && Operational(a)
    ensures ReturnsObserved(a)
  {
    if Ran(a) {
      var total := RelayedTotal(a, earlier, last);
      assert Returned(a) == [total];
      TotalIsSame(total);
    }
  }

  ghost predicate Sober(a: Attempt) {
    CountableAttempt(a) && Operational(a) && ReturnsObserved(a)
  }

  lemma {:induction false} ListsCount(script: seq<Attempt>)
    requires forall i :: 0 <= i < |script| ==> CountableAttempt(script[i])
    ensures AllCountable(RetryReturned(script)) && AllCountable(RetryObserved(script))
  {
    if script != [] {
      OneCounts(script[0]);
      ListsCount(script[1..]);
      if TriedAgain(script[0], |script| == 1) {
        BothCount(Returned(script[0]), RetryReturned(script[1..]));
        BothCount(Observed(script[0]), RetryObserved(script[1..]));
      } else {
        Ends(Returned(script[0]));
        Ends(Observed(script[0]));
      }
    }
  }

  lemma {:induction false} OneCounts(a: Attempt)
    requires CountableAttempt(a)
    ensures AllCountable(Returned(a)) && AllCountable(Observed(a))
  {
    FaultIsCountable(a);
  }

  lemma {:induction false} BothCount(a: seq<Charge>, b: seq<Charge>)
    requires AllCountable(a) && AllCountable(b)
    ensures AllCountable(a + b)
  {
  }

  lemma {:induction false} RunsReturn(script: seq<Attempt>, prior: Charge)
    requires RetryExit(script, prior) != Abort && forall i :: 0 <= i < |script| ==> Sober(script[i])
    ensures Same(Total(RetryReturned(script)), Total(RetryObserved(script)))
    decreases |script|
  {
    var a, rest := script[0], script[1..];
    if TriedAgain(a, |script| == 1) {
      RunsReturn(rest, Gather(prior, FaultOf(a).value.usage));
      ListsCount(rest);
      FaultIsCountable(a);
      JoinReturns(Returned(a), RetryReturned(rest), Observed(a), RetryObserved(rest));
    } else {
      Ends(Returned(a));
      Ends(Observed(a));
    }
  }

  lemma {:induction false} JoinReturns(a: seq<Charge>, b: seq<Charge>, c: seq<Charge>, d: seq<Charge>)
    requires AllCountable(a) && AllCountable(b) && AllCountable(c) && AllCountable(d)
    requires Same(Total(a), Total(c)) && Same(Total(b), Total(d))
    ensures Same(Total(a + b), Total(c + d))
  {
    TotalIgnoresGrouping(a, b);
    TotalIgnoresGrouping(c, d);
    PlusRespectsSame(Total(a), Total(c), Total(b), Total(d));
    SameThrough(Total(a + b), Plus(Total(a), Total(b)), Plus(Total(c), Total(d)), Total(c + d));
  }

  /** The usage that leaves a retried operation. */
  ghost predicate ExitIs(exit: Exit, total: Charge) {
    match exit
    case Response(usage, _) => Same(usage, total)
    case ProviderFault(f) => Same(f.usage.GetOr(NO_CHARGE), total)
    case Abort => true
  }

  /**
   * The result or error of a retried operation carries exactly the charges the observer saw,
   * if that of each single attempt does.
   */
  lemma {:induction false} RetriesLoseNothing(script: seq<Attempt>)
    requires forall i :: 0 <= i < |script| ==> Sober(script[i])
    ensures ExitIs(RetryExit(script, NO_CHARGE), Total(RetryObserved(script)))
  {
    if RetryExit(script, NO_CHARGE) != Abort {
      CarriesNone();
      RetryCarries(script, NO_CHARGE, []);
      Ends(RetryReturned(script));
      RunsReturn(script, NO_CHARGE);
    }
  }

  /**
   * An attempt of an adapter that streams by completing: the wire requests of a retried operation
   * are recorded, and its result or error ends the stream.
   */
  ghost predicate RelaysRetries(a: Attempt, script: seq<Attempt>) {
    && a.wires == RetryObserved(script)
    && match RetryExit(script, NO_CHARGE)
       case Response(usage, _) => a.ending.Finished? && a.completed == Some(usage)
       case ProviderFault(f) => a.ending == Raised(f) && a.completed.None? && f.usage.Some?
       case Abort => !Ran(a)
  }

  /** Such an attempt reconciles as well. */
  lemma {:induction false} RetriedAttemptsReconcile(a: Attempt, script: seq<Attempt>)
    requires RelaysRetries(a, script) && forall i :: 0 <= i < |script| ==> Sober(script[i])
    requires Ran(a) ==> !Total(a.wires).IsEmpty()
    ensures Reconciles(a) && !Unfinished(a) && !LateFault(a)
  {
    if Ran(a) {
      RetriesLoseNothing(script);
      var total := if a.ending.Raised? then a.ending.fault.usage.value else a.completed.value;
      assert Reported(a) == [total];
      TotalIsSame(total);
    }
  }

  // ---------------------------------------------------------------------------
  // Requests over such adapters
  // ---------------------------------------------------------------------------

  /**
   * An attempt of an adapter that makes wire requests in blocks, that streams by completing with
   * retries, or that records nothing and does not fail after completing.
   */
  ghost predicate FromAdapter(a: Attempt) {
    || (exists earlier, last :: Relays(a, earlier, last) && Counted(earlier + [last]))
    || (exists script :: RelaysRetries(a, script) && Disciplined(script) && (Ran(a) ==> !Total(a.wires).IsEmpty()))
    || (a.wires == [] && !LateFault(a))
  }

  ghost predicate Disciplined(script: seq<Attempt>) {
    forall i :: 0 <= i < |script| ==> Sober(script[i])
  }

  lemma {:induction false} AdaptersReconcile(a: Attempt)
    requires FromAdapter(a)
    ensures Reconciles(a)
  {
    if a.wires == [] && !LateFault(a) {
      CarriersReconcile(a);
    } else if earlier, last :| Relays(a, earlier, last) && Counted(earlier + [last]) {
      RelayedAttemptsReconcile(a, earlier, last);
    } else {
      var script :| RelaysRetries(a, script) && Disciplined(script) && (Ran(a) ==> !Total(a.wires).IsEmpty());
      RetriedAttemptsReconcile(a, script);
    }
  }

  /** Over such adapters every request settles exactly what was recorded for it, at every exit. */
  lemma {:induction false} AdaptersSettleExactlyOnce(routes: seq<Route>, caching: bool)
    requires forall i :: 0 <= i < |routes| ==> Sound(routes[i])
    requires forall i :: 0 <= i < |CallTried(routes)| ==> FromAdapter(CallTried(routes)[i])
    ensures
      var total := Total(AllRecorded(CallTried(routes)));
      && SameCounts(Bill(routes, caching), total)
      && (!AnsweredFromCache(routes, caching) ==> SameBill(Bill(routes, caching), total))
  {
    forall i | 0 <= i < |CallTried(routes)| ensures Reconciles(CallTried(routes)[i]) {
      AdaptersReconcile(CallTried(routes)[i]);
    }
    SettledExactlyOnce(routes, caching);
  }
}
