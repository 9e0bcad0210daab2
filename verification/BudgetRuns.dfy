/**
 * Runs of concurrent logical requests over one shared budget. Each code section between two
 * suspension points is one step, and the steps of different requests interleave freely.
 */
module BudgetRuns {
  import opened Wrappers
  import opened Charges
  import opened RunBudget

  /**
   * A logical request: the charges observed and not yet settled, the estimate reserved for
   * its open route, and what that route has been charged.
   */
  datatype Request = Request(collector: Charge, open: bool, estimate: int, charged: int)

  datatype State = State(ledger: Ledger, requests: seq<Request>)

  datatype Step =
    | Begin
    | OpenRoute(id: nat, mock: bool, price: Option<int>, elapsed: int)
    | Observe(id: nat, charge: Charge)
    | CloseRoute(id: nat)
    | Settle(id: nat, bill: Charge)
    | TakeTurn(elapsed: int)
    | Reserve(owner: string)
    | Release(owner: string)
    | Ask(owner: string, closure: bool, elapsed: int)

  const START := State(OPENING, [])

  function Next(limits: Limits, s: State, step: Step): State {
    match step
    case Begin => s.(requests := s.requests + [Request(NO_CHARGE, false, 0, 0)])
    case OpenRoute(id, mock, price, elapsed) =>
      if id < |s.requests| && !s.requests[id].open then Opened(limits, s, id, mock, price, elapsed) else s
    case Observe(id, charge) =>
      if id < |s.requests| && s.requests[id].open then Observed(s, id, charge) else s
    case CloseRoute(id) =>
      if id < |s.requests| && s.requests[id].open then Closed(s, id) else s
    case Settle(id, bill) =>
      if id < |s.requests| && !s.requests[id].open then Paid(s, id, bill) else s
    case TakeTurn(elapsed) =>
      s.(ledger := Turned(limits, s.ledger, elapsed).GetOr(s.ledger))
    case Reserve(owner) => s.(ledger := Reserved(limits, s.ledger, owner).GetOr(s.ledger))
    case Release(owner) => s.(ledger := Released(s.ledger, owner))
    case Ask(owner, closure, elapsed) =>
      s.(ledger := Requested(limits, s.ledger, owner, closure, elapsed).GetOr(s.ledger))
  }

  /** The id of a record that is under no hold. */
  const NOBODY := -1

  function Opened(limits: Limits, s: State, id: nat, mock: bool, price: Option<int>, elapsed: int): State
    requires id < |s.requests|
  {
    match CostReserved(limits, s.ledger, mock, price, NOBODY, elapsed)
    case Failure(_) => s
    case Success((l, amount)) =>
      State(l, s.requests[id := s.requests[id].(open := true, estimate := amount, charged := 0)])
  }

  function Observed(s: State, id: nat, charge: Charge): State
    requires id < |s.requests|
  {
    var r := s.requests[id];
    var r' := r.(collector := Plus(r.collector, charge), charged := r.charged + Cost(charge));
    State(Holding(s.ledger, id, r'.collector), s.requests[id := r'])
  }

  function Closed(s: State, id: nat): State
    requires id < |s.requests|
  {
    State(CostReleased(s.ledger, s.requests[id].estimate), s.requests[id := s.requests[id].(open := false)])
  }

  /** Release the hold and settle the bill of the request, with no suspension in between. */
  function Paid(s: State, id: nat, bill: Charge): State
    requires id < |s.requests|
  {
    State(
      Settled(HoldReleased(s.ledger, id), bill),
      s.requests[id := s.requests[id].(collector := NO_CHARGE)])
  }

  function After(limits: Limits, s: State, steps: seq<Step>): State
    decreases |steps|
  {
    if steps == [] then s else After(limits, Next(limits, s, steps[0]), steps[1..])
  }

  // ---------------------------------------------------------------------------
  // Pending cost is what is reserved and what is held
  // ---------------------------------------------------------------------------

  function Owes(r: Request): int {
    Cost(r.collector) + if r.open then r.estimate else 0
  }

  function Owed(requests: seq<Request>): int {
    if requests == [] then 0 else Owed(requests[..|requests| - 1]) + Owes(requests[|requests| - 1])
  }

  predicate Sensible(r: Request) {
    Cost(r.collector) >= 0 && r.estimate >= 0
  }

  ghost predicate HoldsMatch(s: State) {
    && (forall id :: id in s.ledger.held ==> 0 <= id < |s.requests|)
    && (forall i :: 0 <= i < |s.requests| ==>
          Cost(s.requests[i].collector) == PreviouslyHeld(s.ledger, i))
  }

  ghost predicate Balanced(s: State) {
    && (forall i :: 0 <= i < |s.requests| ==> Sensible(s.requests[i]))
    && HoldsMatch(s)
    && s.ledger.pending == Owed(s.requests)
  }

  /** No step reports a negative price or charge. */
  predicate Priced(step: Step) {
    match step
    case OpenRoute(_, _, price, _) => price.Some? ==> price.value >= 0
    case Observe(_, charge) => Cost(charge) >= 0
    case _ => true
  }

  lemma {:induction false} OwedUpdate(requests: seq<Request>, i: nat, r: Request)
    requires i < |requests|
    ensures Owed(requests[i := r]) == Owed(requests) - Owes(requests[i]) + Owes(r)
  {
    var n := |requests| - 1;
    if i == n {
      assert requests[i := r][..n] == requests[..n];
    } else {
      assert requests[i := r][..n] == requests[..n][i := r];
      OwedUpdate(requests[..n], i, r);
    }
  }

  lemma {:induction false} OwedAtLeast(requests: seq<Request>, i: nat)
    requires i < |requests|
    requires forall j :: 0 <= j < |requests| ==> Sensible(requests[j])
    ensures Owed(requests) >= Owes(requests[i]) >= 0
  {
    var n := |requests| - 1;
    if i < n {
      OwedAtLeast(requests[..n], i);
    } else {
      OwedNonnegative(requests[..n]);
    }
  }

  lemma {:induction false} OwedNonnegative(requests: seq<Request>)
    requires forall j :: 0 <= j < |requests| ==> Sensible(requests[j])
    ensures Owed(requests) >= 0
  {
    if requests != [] { OwedNonnegative(requests[..|requests| - 1]); }
  }

  lemma {:induction false} CostOfPlus(a: Charge, b: Charge)
    ensures Cost(Plus(a, b)) == Cost(a) + Cost(b)
  {
  }

  predicate SameDollars(s: State, t: State) {
    && t.requests == s.requests && t.ledger.usage == s.ledger.usage
    && t.ledger.pending == s.ledger.pending && t.ledger.held == s.ledger.held
  }

  lemma {:induction false} AllowanceSteps(limits: Limits, s: State, step: Step)
    requires step.TakeTurn? || step.Reserve? || step.Release? || step.Ask?
    ensures SameDollars(s, Next(limits, s, step))
  {
  }

  lemma {:induction false} SameDollarsBalance(s: State, t: State)
    requires Balanced(s) && SameDollars(s, t)
    ensures Balanced(t)
  {
  }

  lemma {:induction false} BeginBalances(limits: Limits, s: State)
    requires Balanced(s)
    ensures Balanced(Next(limits, s, Begin))
  {
    var t := Next(limits, s, Begin);
    assert t.requests[..|t.requests| - 1] == s.requests;
  }

  lemma {:induction false} OpenBalances(limits: Limits, s: State, id: nat, mock: bool, price: Option<int>, elapsed: int)
    requires Balanced(s) && id < |s.requests| && !s.requests[id].open
    requires price.Some? ==> price.value >= 0
    ensures Balanced(Opened(limits, s, id, mock, price, elapsed))
  {
    match CostReserved(limits, s.ledger, mock, price, NOBODY, elapsed)
    case Failure(_) =>
    case Success((l, amount)) =>
      OwedUpdate(s.requests, id, s.requests[id].(open := true, estimate := amount, charged := 0));
  }

  lemma {:induction false} ObserveBalances(s: State, id: nat, charge: Charge)
    requires Balanced(s) && id < |s.requests| && Cost(charge) >= 0
    ensures Balanced(Observed(s, id, charge))
  {
    var r := s.requests[id];
    var r' := r.(collector := Plus(r.collector, charge), charged := r.charged + Cost(charge));
    CostOfPlus(r.collector, charge);
    OwedUpdate(s.requests, id, r');
  }

  lemma {:induction false} CloseBalances(s: State, id: nat)
    requires Balanced(s) && id < |s.requests| && s.requests[id].open
    ensures Balanced(Closed(s, id))
  {
    OwedUpdate(s.requests, id, s.requests[id].(open := false));
    OwedAtLeast(s.requests, id);
  }

  lemma {:induction false} SettleBalances(s: State, id: nat, bill: Charge)
    requires Balanced(s) && id < |s.requests| && !s.requests[id].open
    ensures Balanced(Paid(s, id, bill))
  {
    OwedUpdate(s.requests, id, s.requests[id].(collector := NO_CHARGE));
    OwedAtLeast(s.requests, id);
  }

  lemma {:induction false} NextBalances(limits: Limits, s: State, step: Step)
    requires Balanced(s) && Priced(step)
    ensures Balanced(Next(limits, s, step))
  {
    match step
    case Begin => BeginBalances(limits, s);
    case OpenRoute(id, mock, price, elapsed) =>
      if id < |s.requests| && !s.requests[id].open { OpenBalances(limits, s, id, mock, price, elapsed); }
    case Observe(id, charge) =>
      if id < |s.requests| && s.requests[id].open { ObserveBalances(s, id, charge); }
    case CloseRoute(id) =>
      if id < |s.requests| && s.requests[id].open { CloseBalances(s, id); }
    case Settle(id, bill) =>
      if id < |s.requests| && !s.requests[id].open { SettleBalances(s, id, bill); }
    case _ =>
      AllowanceSteps(limits, s, step);
      SameDollarsBalance(s, Next(limits, s, step));
  }

  /**
   * In every interleaving, the pending cost is the sum of the open reservations and of the
   * held charges: no release ever takes more than was put in.
   */
  lemma {:induction false} PendingIsReservationsPlusHolds(limits: Limits, s: State, steps: seq<Step>)
    requires Balanced(s)
    requires forall i :: 0 <= i < |steps| ==> Priced(steps[i])
    ensures Balanced(After(limits, s, steps))
    decreases |steps|
  {
    if steps != [] {
      NextBalances(limits, s, steps[0]);
      PendingIsReservationsPlusHolds(limits, Next(limits, s, steps[0]), steps[1..]);
    }
  }

  // ---------------------------------------------------------------------------
  // Settled cost stays within the budget
  // ---------------------------------------------------------------------------

  /** What a request may still cost: its observed charges and the unused part of its estimate. */
  function Risks(r: Request): int {
    Cost(r.collector) + if r.open then r.estimate - r.charged else 0
  }

  function AtRisk(requests: seq<Request>): int {
    if requests == [] then 0 else AtRisk(requests[..|requests| - 1]) + Risks(requests[|requests| - 1])
  }

  function Exposure(s: State): int {
    Cost(s.ledger.usage) + AtRisk(s.requests)
  }

  predicate Within(r: Request) {
    r.open ==> 0 <= r.charged <= r.estimate
  }

  ghost predicate Covered(limits: Limits, s: State) {
    && Balanced(s)
    && (forall i :: 0 <= i < |s.requests| ==> Within(s.requests[i]))
    && Exposure(s) <= limits.maxCost
  }

  /**
   * The step does not charge a route more in total than the route reserved, nor bill a request
   * more than was observed for it.
   */
  predicate Honest(s: State, step: Step) {
    && (step.Observe? && step.id < |s.requests| && s.requests[step.id].open ==>
          s.requests[step.id].charged + Cost(step.charge) <= s.requests[step.id].estimate)
    && (step.Settle? && step.id < |s.requests| ==> Cost(step.bill) <= Cost(s.requests[step.id].collector))
  }

  ghost predicate HonestRun(limits: Limits, s: State, steps: seq<Step>)
    decreases |steps|
  {
    steps == [] || (
      && Priced(steps[0]) && Honest(s, steps[0])
      && HonestRun(limits, Next(limits, s, steps[0]), steps[1..]))
  }

  lemma {:induction false} AtRiskUpdate(requests: seq<Request>, i: nat, r: Request)
    requires i < |requests|
    ensures AtRisk(requests[i := r]) == AtRisk(requests) - Risks(requests[i]) + Risks(r)
  {
    var n := |requests| - 1;
    if i == n {
      assert requests[i := r][..n] == requests[..n];
    } else {
      assert requests[i := r][..n] == requests[..n][i := r];
      AtRiskUpdate(requests[..n], i, r);
    }
  }

  lemma {:induction false} RiskIsOwed(requests: seq<Request>)
    requires forall j :: 0 <= j < |requests| ==> Sensible(requests[j]) && Within(requests[j])
    ensures 0 <= AtRisk(requests) <= Owed(requests)
  {
    if requests != [] { RiskIsOwed(requests[..|requests| - 1]); }
  }

  lemma {:induction false} SameDollarsCover(limits: Limits, s: State, t: State)
    requires Covered(limits, s) && SameDollars(s, t)
    ensures Covered(limits, t)
  {
    SameDollarsBalance(s, t);
  }

  lemma {:induction false} BeginIsCovered(limits: Limits, s: State)
    requires Covered(limits, s)
    ensures Covered(limits, Next(limits, s, Begin))
  {
    BeginBalances(limits, s);
    assert Next(limits, s, Begin).requests[..|s.requests|] == s.requests;
  }

  lemma {:induction false} OpenIsCovered(
    limits: Limits, s: State, id: nat, mock: bool, price: Option<int>, elapsed: int)
    requires limits.maxCost > 0 && Covered(limits, s) && id < |s.requests| && !s.requests[id].open
    requires price.Some? ==> price.value >= 0
    ensures Covered(limits, Opened(limits, s, id, mock, price, elapsed))
  {
    OpenBalances(limits, s, id, mock, price, elapsed);
    match CostReserved(limits, s.ledger, mock, price, NOBODY, elapsed)
    case Failure(_) =>
    case Success((l, amount)) =>
      AtRiskUpdate(s.requests, id, s.requests[id].(open := true, estimate := amount, charged := 0));
      RiskIsOwed(s.requests);
  }

  lemma {:induction false} ObserveIsCovered(limits: Limits, s: State, id: nat, charge: Charge)
    requires Covered(limits, s) && id < |s.requests| && s.requests[id].open
    requires Cost(charge) >= 0 && Honest(s, Observe(id, charge))
    ensures Covered(limits, Observed(s, id, charge))
  {
    ObserveBalances(s, id, charge);
    var r := s.requests[id];
    CostOfPlus(r.collector, charge);
    AtRiskUpdate(s.requests, id, r.(collector := Plus(r.collector, charge), charged := r.charged + Cost(charge)));
  }

  lemma {:induction false} CloseIsCovered(limits: Limits, s: State, id: nat)
    requires Covered(limits, s) && id < |s.requests| && s.requests[id].open
    ensures Covered(limits, Closed(s, id))
  {
    CloseBalances(s, id);
    AtRiskUpdate(s.requests, id, s.requests[id].(open := false));
  }

  lemma {:induction false} SettleIsCovered(limits: Limits, s: State, id: nat, bill: Charge)
    requires Covered(limits, s) && id < |s.requests| && !s.requests[id].open
    requires Honest(s, Settle(id, bill))
    ensures Covered(limits, Paid(s, id, bill))
  {
    SettleBalances(s, id, bill);
    CostOfPlus(s.ledger.usage, bill);
    AtRiskUpdate(s.requests, id, s.requests[id].(collector := NO_CHARGE));
  }

  lemma {:induction false} NextIsCovered(limits: Limits, s: State, step: Step)
    requires limits.maxCost > 0 && Covered(limits, s) && Priced(step) && Honest(s, step)
    ensures Covered(limits, Next(limits, s, step))
  {
    match step
    case Begin => BeginIsCovered(limits, s);
    case OpenRoute(id, mock, price, elapsed) =>
      if id < |s.requests| && !s.requests[id].open { OpenIsCovered(limits, s, id, mock, price, elapsed); }
    case Observe(id, charge) =>
      if id < |s.requests| && s.requests[id].open { ObserveIsCovered(limits, s, id, charge); }
    case CloseRoute(id) =>
      if id < |s.requests| && s.requests[id].open { CloseIsCovered(limits, s, id); }
    case Settle(id, bill) =>
      if id < |s.requests| && !s.requests[id].open { SettleIsCovered(limits, s, id, bill); }
    case _ =>
      AllowanceSteps(limits, s, step);
      SameDollarsCover(limits, s, Next(limits, s, step));
  }

  lemma {:induction false} RunsStayCovered(limits: Limits, s: State, steps: seq<Step>)
    requires limits.maxCost > 0 && Covered(limits, s) && HonestRun(limits, s, steps)
    ensures Covered(limits, After(limits, s, steps))
    decreases |steps|
  {
    if steps != [] {
      NextIsCovered(limits, s, steps[0]);
      RunsStayCovered(limits, Next(limits, s, steps[0]), steps[1..]);
    }
  }

  /**
   * If no route is charged more than it reserved and no request is billed more than was observed
   * for it, the settled cost never exceeds a positive limit, even once everything still held is
   * settled, in any interleaving of the requests.
   */
  lemma {:induction false} SettledCostIsBounded(limits: Limits, steps: seq<Step>)
    requires limits.maxCost > 0 && HonestRun(limits, START, steps)
    ensures var s := After(limits, START, steps);
      && Cost(s.ledger.usage) <= Exposure(s) <= limits.maxCost
      && !Overspent(limits, s.ledger)
  {
    RunsStayCovered(limits, START, steps);
    RiskIsOwed(After(limits, START, steps).requests);
  }

  /** Charging an open route that reserved this price may overspend the budget of an otherwise honest run. */
  ghost predicate MayOverspend(limits: Limits, price: int, charge: Charge) {
    exists before: seq<Step>, id: nat, after: seq<Step> :: OverspendsBy(limits, price, charge, before, id, after)
  }

  ghost predicate OverspendsBy(
    limits: Limits, price: int, charge: Charge, before: seq<Step>, id: nat, after: seq<Step>)
  {
    var s := After(limits, START, before);
    var t := Next(limits, s, Observe(id, charge));
    && HonestRun(limits, START, before)
    && id < |s.requests| && s.requests[id].open && s.requests[id].estimate == price && s.requests[id].charged == 0
    && HonestRun(limits, t, after)
    && Overspent(limits, After(limits, t, after).ledger)
  }

  /** A charge of a known cost. */
  function Dollars(cost: int): (c: Charge)
    ensures Cost(c) == cost
  {
    Charge(NO_COUNTERS[COST := cost], Known, None, [])
  }

  /** Two requests reserve the whole budget between them. */
  function BothOpen(limits: Limits, price: int): seq<Step> {
    [Begin, Begin, OpenRoute(0, false, Some(limits.maxCost - price), 0), OpenRoute(1, false, Some(price), 0)]
  }

  /** The second one settles what it was charged, and the first one costs what it reserved. */
  function BothSettle(limits: Limits, price: int, charge: Charge): seq<Step> {
    SecondSettles(charge) + FirstSettles(Dollars(limits.maxCost - price))
  }

  function SecondSettles(charge: Charge): seq<Step> {
    [CloseRoute(1), Settle(1, charge)]
  }

  function FirstSettles(charge: Charge): seq<Step> {
    [Observe(0, charge), CloseRoute(0), Settle(0, charge)]
  }

  /** The state with both routes open. */
  function BothReserved(limits: Limits, price: int): State {
    State(
      OPENING.(pending := limits.maxCost),
      [Request(NO_CHARGE, true, limits.maxCost - price, 0), Request(NO_CHARGE, true, price, 0)])
  }

  lemma {:induction false} BothReserve(limits: Limits, price: int)
    requires limits.maxCost > 0 && limits.maxSeconds > 0 && 0 <= price <= limits.maxCost
    ensures After(limits, START, BothOpen(limits, price)) == BothReserved(limits, price)
    ensures HonestRun(limits, START, BothOpen(limits, price))
  {
    var first, second :=
      OpenRoute(0, false, Some(limits.maxCost - price), 0), OpenRoute(1, false, Some(price), 0);
    var idle := Request(NO_CHARGE, false, 0, 0);
    var s2 := State(OPENING, [idle, idle]);
    var s3 := State(
      OPENING.(pending := limits.maxCost - price), [idle.(open := true, estimate := limits.maxCost - price), idle]);
    assert Next(limits, Next(limits, START, Begin), Begin) == s2;
    assert Next(limits, s2, first) == s3;
    assert Next(limits, s3, second) == BothReserved(limits, price);
    HonestCons(limits, s3, second, []);
    HonestCons(limits, s2, first, [second]);
    HonestCons(limits, Next(limits, START, Begin), Begin, [first, second]);
    HonestCons(limits, START, Begin, [Begin, first, second]);
  }

  lemma {:induction false} HonestCons(limits: Limits, s: State, step: Step, steps: seq<Step>)
    ensures After(limits, s, [step] + steps) == After(limits, Next(limits, s, step), steps)
    ensures HonestRun(limits, s, [step] + steps) <==>
            Priced(step) && Honest(s, step) && HonestRun(limits, Next(limits, s, step), steps)
  {
    assert ([step] + steps)[1..] == steps;
  }

  /** The state after the second request has settled its charge. */
  function OneReserved(limits: Limits, price: int, charge: Charge): State {
    State(
      OPENING.(pending := limits.maxCost - price, usage := Plus(NO_CHARGE, charge)),
      [Request(NO_CHARGE, true, limits.maxCost - price, 0), Request(NO_CHARGE, false, price, Cost(charge))])
  }

  lemma {:induction false} AfterSecond(limits: Limits, price: int, charge: Charge)
    requires 0 <= price <= limits.maxCost && Cost(charge) >= 0
    ensures
      var s := Next(limits, BothReserved(limits, price), Observe(1, charge));
      && HonestRun(limits, s, SecondSettles(charge))
      && After(limits, s, SecondSettles(charge)) == OneReserved(limits, price, charge)
  {
    var s0 := Next(limits, BothReserved(limits, price), Observe(1, charge));
    var s1 := Next(limits, s0, CloseRoute(1));
    CostOfPlus(NO_CHARGE, charge);
    assert s0.ledger == OPENING.(
      pending := limits.maxCost + Cost(charge),
      held := map[1 := Hold(Cost(charge), Unreconciled(Plus(NO_CHARGE, charge)))]);
    assert s1.ledger.held - {1} == map[];
    assert Next(limits, s1, Settle(1, charge)).requests == OneReserved(limits, price, charge).requests;
    HonestCons(limits, s1, Settle(1, charge), []);
    HonestCons(limits, s0, CloseRoute(1), [Settle(1, charge)]);
  }

  lemma {:induction false} AfterFirst(limits: Limits, price: int, charge: Charge)
    requires 0 <= price <= limits.maxCost && Cost(charge) >= 0
    ensures
      var s, rest := OneReserved(limits, price, charge), Dollars(limits.maxCost - price);
      && HonestRun(limits, s, FirstSettles(rest))
      && Cost(After(limits, s, FirstSettles(rest)).ledger.usage) == Cost(charge) + limits.maxCost - price
  {
    var s2, rest := OneReserved(limits, price, charge), Dollars(limits.maxCost - price);
    var s3 := Next(limits, s2, Observe(0, rest));
    var s4 := Next(limits, s3, CloseRoute(0));
    CostOfPlus(NO_CHARGE, charge);
    CostOfPlus(NO_CHARGE, rest);
    CostOfPlus(Plus(NO_CHARGE, charge), rest);
    HonestCons(limits, s4, Settle(0, rest), []);
    HonestCons(limits, s3, CloseRoute(0), [Settle(0, rest)]);
    HonestCons(limits, s2, Observe(0, rest), [CloseRoute(0), Settle(0, rest)]);
  }

  /** After an overrun of the second request, both settle. */
  lemma {:induction false} BothSettled(limits: Limits, price: int, charge: Charge)
    requires 0 <= price <= limits.maxCost && Cost(charge) >= 0
    ensures
      var s := Next(limits, BothReserved(limits, price), Observe(1, charge));
      && HonestRun(limits, s, BothSettle(limits, price, charge))
      && Cost(After(limits, s, BothSettle(limits, price, charge)).ledger.usage) == limits.maxCost - price + Cost(charge)
  {
    AfterSecond(limits, price, charge);
    AfterFirst(limits, price, charge);
    HonestConcat(
      limits, Next(limits, BothReserved(limits, price), Observe(1, charge)),
      SecondSettles(charge), FirstSettles(Dollars(limits.maxCost - price)));
  }

  lemma {:induction false} HonestConcat(limits: Limits, s: State, a: seq<Step>, b: seq<Step>)
    ensures After(limits, s, a + b) == After(limits, After(limits, s, a), b)
    ensures HonestRun(limits, s, a + b) <==> HonestRun(limits, s, a) && HonestRun(limits, After(limits, s, a), b)
    decreases |a|
  {
    if a == [] {
      assert a + b == b;
    } else {
      assert (a + b)[0] == a[0] && (a + b)[1..] == a[1..] + b;
      HonestConcat(limits, Next(limits, s, a[0]), a[1..], b);
    }
  }

  /**
   * A charge may overspend the budget exactly when it exceeds the estimate that its route
   * reserved, however far below the limit that is.
   */
  lemma {:induction false} UnderestimatesOverspend(limits: Limits, price: int, charge: Charge)
    requires limits.maxCost > 0 && limits.maxSeconds > 0 && 0 <= price <= limits.maxCost && Cost(charge) >= 0
    ensures MayOverspend(limits, price, charge) <==> Cost(charge) > price
  {
    if Cost(charge) > price {
      BothReserve(limits, price);
      BothSettled(limits, price, charge);
      assert OverspendsBy(limits, price, charge, BothOpen(limits, price), 1, BothSettle(limits, price, charge));
    } else {
      forall before: seq<Step>, id: nat, after: seq<Step>
        ensures !OverspendsBy(limits, price, charge, before, id, after)
      {
        EstimatesHold(limits, price, charge, before, id, after);
      }
    }
  }

  lemma {:induction false} EstimatesHold(
    limits: Limits, price: int, charge: Charge, before: seq<Step>, id: nat, after: seq<Step>)
    requires limits.maxCost > 0 && 0 <= Cost(charge) <= price
    ensures !OverspendsBy(limits, price, charge, before, id, after)
  {
    if OverspendsBy(limits, price, charge, before, id, after) {
      var s, step := After(limits, START, before), Observe(id, charge);
      HonestCons(limits, s, step, after);
      HonestConcat(limits, START, before, [step] + after);
      SettledCostIsBounded(limits, before + ([step] + after));
    }
  }

  // ---------------------------------------------------------------------------
  // Closing requests are never stolen
  // ---------------------------------------------------------------------------

  /** Requests made and closing requests reserved never exceed the allowance. */
  predicate NotOversold(limits: Limits, l: Ledger) {
    l.requests + |l.closures| <= limits.maxRequests
  }

  lemma {:induction false} NextNotOversold(limits: Limits, s: State, step: Step)
    requires NotOversold(limits, s.ledger)
    ensures NotOversold(limits, Next(limits, s, step).ledger)
  {
    match step
    case Reserve(owner) =>
      assert s.ledger.closures - Owned(None) == s.ledger.closures;
    case Release(owner) =>
      assert s.ledger.closures - {owner} <= s.ledger.closures;
    case Ask(owner, closure, elapsed) =>
      assert s.ledger.closures - Owned(None) == s.ledger.closures;
      if owner == "" { assert s.ledger.closures - Owned(Some(owner)) == s.ledger.closures; }
    case _ =>
  }

  lemma {:induction false} RequestsAreNeverOversold(limits: Limits, s: State, steps: seq<Step>)
    requires NotOversold(limits, s.ledger)
    ensures NotOversold(limits, After(limits, s, steps).ledger)
    decreases |steps|
  {
    if steps != [] {
      NextNotOversold(limits, s, steps[0]);
      RequestsAreNeverOversold(limits, Next(limits, s, steps[0]), steps[1..]);
    }
  }

  /** The owner neither gives its reservation back nor makes its closing request. */
  predicate Keeps(owner: string, step: Step) {
    step != Release(owner) && !(step.Ask? && step.owner == owner && step.closure)
  }

  lemma {:induction false} StepKeepsReservation(limits: Limits, s: State, step: Step, owner: string)
    requires owner in s.ledger.closures && Keeps(owner, step)
    ensures owner in Next(limits, s, step).ledger.closures
  {
  }

  lemma {:induction false} ReservationIsUsable(limits: Limits, l: Ledger, owner: string, elapsed: int)
    requires NotOversold(limits, l) && owner in l.closures && owner != ""
    ensures Remaining(limits, l, Some(owner)) >= 1
    ensures Requested(limits, l, owner, true, elapsed) != Failure(OutOfRequests)
  {
    assert |l.closures - {owner}| == |l.closures| - 1;
  }

  /**
   * Whatever siblings, helpers and the owner's other requests do, an owner that reserved its
   * closing request still has it, and is never refused it for want of requests.
   */
  lemma {:induction false} ClosingRequestIsNeverStolen(
    limits: Limits, s: State, steps: seq<Step>, owner: string, elapsed: int)
    requires NotOversold(limits, s.ledger) && owner in s.ledger.closures && owner != ""
    requires forall i :: 0 <= i < |steps| ==> Keeps(owner, steps[i])
    ensures var l := After(limits, s, steps).ledger;
      && owner in l.closures
      && Remaining(limits, l, Some(owner)) >= 1
      && Requested(limits, l, owner, true, elapsed) != Failure(OutOfRequests)
    decreases |steps|
  {
    if steps == [] {
      ReservationIsUsable(limits, s.ledger, owner, elapsed);
    } else {
      NextNotOversold(limits, s, steps[0]);
      StepKeepsReservation(limits, s, steps[0], owner);
      ClosingRequestIsNeverStolen(limits, Next(limits, s, steps[0]), steps[1..], owner, elapsed);
    }
  }

  /** A reservation under the empty name does not count as its owner's own, and can be starved. */
  lemma {:induction false} UnnamedOwnerIsStarved(limits: Limits, elapsed: int)
    requires limits.maxRequests == 1
    ensures NotOversold(limits, START.(ledger := OPENING.(closures := {""})).ledger)
    ensures Requested(limits, OPENING.(closures := {""}), "", true, elapsed) == Failure(OutOfRequests)
    ensures After(limits, START, [Reserve("")]).ledger == OPENING.(closures := {""})
  {
    assert OPENING.closures - Owned(None) == {} && {} + {""} == {""};
    assert {""} - Owned(Some("")) == {""};
    assert [Reserve("")] == [Reserve("")] + [];
    HonestCons(limits, START, Reserve(""), []);
  }

  /** In no run is the owner of a reservation that it keeps refused its closing request for want of requests. */
  ghost predicate Protected(owner: string) {
    forall limits: Limits, s: State, steps: seq<Step>, elapsed: int ::
      ReservationKept(limits, s, steps, owner) ==>
        Requested(limits, After(limits, s, steps).ledger, owner, true, elapsed) != Failure(OutOfRequests)
  }

  ghost predicate ReservationKept(limits: Limits, s: State, steps: seq<Step>, owner: string) {
    && NotOversold(limits, s.ledger) && owner in s.ledger.closures
    && forall i :: 0 <= i < |steps| ==> Keeps(owner, steps[i])
  }

  /** A reservation protects its owner exactly when the owner has a name. */
  lemma {:induction false} ProtectedExactlyWhenNamed(owner: string)
    ensures Protected(owner) <==> owner != ""
  {
    if owner != "" {
      forall limits: Limits, s: State, steps: seq<Step>, elapsed: int | ReservationKept(limits, s, steps, owner)
        ensures Requested(limits, After(limits, s, steps).ledger, owner, true, elapsed) != Failure(OutOfRequests)
      {
        ClosingRequestIsNeverStolen(limits, s, steps, owner, elapsed);
      }
    } else {
      var limits, s := Limits(1, 1, 1, 0), START.(ledger := OPENING.(closures := {""}));
      UnnamedOwnerIsStarved(limits, 0);
      assert ReservationKept(limits, s, [], owner);
      assert After(limits, s, []) == s;
    }
  }
}
