/**
 * The run budget: a request allowance shared by concurrent agents, who reserve a closing
 * request each, and a dollar ledger of estimates, holds and settled charges. An operation
 * either refuses, leaving the ledger as it was, or gives the next ledger.
 */
module RunBudget {
  import opened Wrappers
  import opened Charges

  datatype Limits = Limits(maxTurns: int, maxRequests: int, maxSeconds: int, maxCost: int)

  datatype Stop = OutOfTurns | OutOfTime | OutOfMoney | OutOfRequests

  /** The part of `pending` that one logical request has already been charged. */
  datatype Hold = Hold(cost: int, unreconciled: bool)

  datatype Ledger = Ledger(
    turns: int,
    requests: int,
    usage: Charge,
    pending: int,
    held: map<int, Hold>,
    closures: set<string>)

  const OPENING := Ledger(0, 0, NO_CHARGE, 0, map[], {})

  function Cost(charge: Charge): int { charge.counters[COST] }

  /** A charge whose cost is not known well enough for a strict dollar budget. */
  predicate Unreconciled(charge: Charge) {
    !charge.IsEmpty() && (charge.status == Unknown || charge.status == Incomplete)
  }

  function Owned(owner: Option<string>): set<string> {
    if owner.Some? && owner.value != "" then {owner.value} else {}
  }

  // ---------------------------------------------------------------------------
  // The operations, on values
  // ---------------------------------------------------------------------------

  function TimeOrCost(limits: Limits, l: Ledger, elapsed: int): Option<Stop> {
    if elapsed >= limits.maxSeconds then Some(OutOfTime)
    else if limits.maxCost > 0 && Cost(l.usage) >= limits.maxCost then Some(OutOfMoney)
    else None
  }

  function Turned(limits: Limits, l: Ledger, elapsed: int): Result<Ledger, Stop> {
    if l.turns >= limits.maxTurns then Failure(OutOfTurns)
    else match TimeOrCost(limits, l, elapsed)
      case Some(stop) => Failure(stop)
      case None => Success(l.(turns := l.turns + 1))
  }

  /** Requests left for an owner: those not yet made nor reserved by somebody else. */
  function Remaining(limits: Limits, l: Ledger, owner: Option<string>): int {
    Max(0, limits.maxRequests - l.requests - |l.closures - Owned(owner)|)
  }

  function Reserved(limits: Limits, l: Ledger, owner: string): Option<Ledger> {
    if owner in l.closures then Some(l)
    else if Remaining(limits, l, None) == 0 then None
    else Some(l.(closures := l.closures + {owner}))
  }

  function Released(l: Ledger, owner: string): Ledger {
    l.(closures := l.closures - {owner})
  }

  function Requested(limits: Limits, l: Ledger, owner: string, closure: bool, elapsed: int): Result<Ledger, Stop> {
    if Remaining(limits, l, if closure then Some(owner) else None) == 0 then Failure(OutOfRequests)
    else match TimeOrCost(limits, l, elapsed)
      case Some(stop) => Failure(stop)
      case None =>
        var l' := if closure then Released(l, owner) else l;
        Success(l'.(requests := l'.requests + 1))
  }

  predicate AnyUnreconciled(held: map<int, Hold>) {
    exists id :: id in held && held[id].unreconciled
  }

  /** Why a further attempt may not be made while the charge under `id` is not settled. */
  function Unsettled(limits: Limits, l: Ledger, id: int, charge: Charge, elapsed: int): Option<Stop> {
    match TimeOrCost(limits, l, elapsed)
    case Some(stop) => Some(stop)
    case None =>
      if limits.maxCost <= 0 then None
      else if AnyUnreconciled(l.held) || Unreconciled(l.usage) || Unreconciled(charge) then Some(OutOfMoney)
      else if Cost(l.usage) + l.pending + (if id in l.held then 0 else Cost(charge)) > limits.maxCost
      then Some(OutOfMoney)
      else None
  }

  /**
   * Reserve the estimated cost of a request; no estimate means its model has no price.
   * The result carries the amount reserved. The charge checked is a new record, with an id of
   * its own.
   */
  function CostReserved(limits: Limits, l: Ledger, mock: bool, estimate: Option<int>, record: int, elapsed: int)
    : Result<(Ledger, int), Stop>
  {
    match TimeOrCost(limits, l, elapsed)
    case Some(stop) => Failure(stop)
    case None =>
      if limits.maxCost <= 0 || mock then Success((l, 0))
      else match Unsettled(limits, l, record, NO_CHARGE, elapsed)
        case Some(stop) => Failure(stop)
        case None =>
          if estimate.None? then Failure(OutOfMoney)
          else if Cost(l.usage) + l.pending + estimate.value > limits.maxCost then Failure(OutOfMoney)
          else Success((l.(pending := l.pending + estimate.value), estimate.value))
  }

  function CostReleased(l: Ledger, reservation: int): Ledger {
    l.(pending := Max(0, l.pending - reservation))
  }

  function PreviouslyHeld(l: Ledger, id: int): int {
    if id in l.held then l.held[id].cost else 0
  }

  function Holding(l: Ledger, id: int, charge: Charge): Ledger {
    l.(pending := l.pending + Cost(charge) - PreviouslyHeld(l, id),
       held := l.held[id := Hold(Cost(charge), Unreconciled(charge))])
  }

  function HoldReleased(l: Ledger, id: int): Ledger {
    CostReleased(l.(held := l.held - {id}), PreviouslyHeld(l, id))
  }

  function Settled(l: Ledger, charge: Charge): Ledger {
    l.(usage := Plus(l.usage, charge))
  }

  predicate Overspent(limits: Limits, l: Ledger) {
    limits.maxCost > 0 && Cost(l.usage) > limits.maxCost
  }

  // ---------------------------------------------------------------------------
  // The mutable budget
  // ---------------------------------------------------------------------------

  class Budget {
    const limits: Limits
    const usage: Usage
    var turns: int
    var requests: int
    var pending: int
    var held: map<int, Hold>
    var closures: set<string>

    function Books(): Ledger
      reads this, usage
    {
      Ledger(turns, requests, usage.Value(), pending, held, closures)
    }

    constructor (limits: Limits)
      ensures this.limits == limits && fresh(usage) && Books() == OPENING
    {
      this.limits := limits;
      var empty := new Usage();
      usage := empty;
      turns, requests, pending, held, closures := 0, 0, 0, map[], {};
    }

    method CheckTimeAndCost(elapsed: int) returns (stop: Option<Stop>)
      ensures stop == TimeOrCost(limits, Books(), elapsed)
    {
      if elapsed >= limits.maxSeconds {
        return Some(OutOfTime);
      }
      if limits.maxCost > 0 && usage.counters[COST] >= limits.maxCost {
        return Some(OutOfMoney);
      }
      return None;
    }

    method BeforeTurn(elapsed: int) returns (stop: Option<Stop>)
      modifies this`turns
      ensures match Turned(limits, old(Books()), elapsed)
              case Failure(s) => stop == Some(s) && Books() == old(Books())
              case Success(l) => stop == None && Books() == l
    {
      if turns >= limits.maxTurns {
        return Some(OutOfTurns);
      }
      stop := CheckTimeAndCost(elapsed);
      if stop == None {
        turns := turns + 1;
      }
    }

    /** A failed attempt stays within its turn; false when no turn has begun. */
    method RetryCurrentTurn() returns (ok: bool)
      modifies this`turns
      ensures ok <==> old(turns) > 0
      ensures Books() == old(Books()).(turns := if ok then old(turns) - 1 else old(turns))
    {
      ok := turns > 0;
      if ok {
        turns := turns - 1;
      }
    }

    method RemainingRequests(owner: Option<string>) returns (n: int)
      ensures n == Remaining(limits, Books(), owner)
    {
      var others := closures;
      if owner.Some? && owner.value != "" {
        others := closures - {owner.value};
      } else {
        assert closures - Owned(owner) == closures;
      }
      n := Max(0, limits.maxRequests - requests - |others|);
    }

    method ReserveClosure(owner: string) returns (ok: bool)
      modifies this`closures
      ensures match Reserved(limits, old(Books()), owner)
              case Some(l) => ok && Books() == l
              case None => !ok && Books() == old(Books())
    {
      if owner in closures {
        return true;
      }
      var left := RemainingRequests(None);
      if left == 0 {
        return false;
      }
      closures := closures + {owner};
      return true;
    }

    method ReleaseClosure(owner: string)
      modifies this`closures
      ensures Books() == Released(old(Books()), owner)
    {
      closures := closures - {owner};
    }

    method BeforeModelRequest(owner: string, closure: bool, elapsed: int) returns (stop: Option<Stop>)
      modifies this`closures, this`requests
      ensures match Requested(limits, old(Books()), owner, closure, elapsed)
              case Failure(s) => stop == Some(s) && Books() == old(Books())
              case Success(l) => stop == None && Books() == l
    {
      var left := RemainingRequests(if closure then Some(owner) else None);
      if left == 0 {
        return Some(OutOfRequests);
      }
      stop := CheckTimeAndCost(elapsed);
      if stop == None {
        if closure {
          ReleaseClosure(owner);
        }
        requests := requests + 1;
      }
    }

    method CheckUnsettled(id: int, charge: Usage, elapsed: int) returns (stop: Option<Stop>)
      ensures stop == Unsettled(limits, Books(), id, charge.Value(), elapsed)
    {
      stop := CheckTimeAndCost(elapsed);
      if stop.Some? || limits.maxCost <= 0 {
        return;
      }
      if AnyUnreconciled(held) || Unreconciled(usage.Value()) || Unreconciled(charge.Value()) {
        return Some(OutOfMoney);
      }
      var unheld := if id in held then 0 else charge.counters[COST];
      if usage.counters[COST] + pending + unheld > limits.maxCost {
        return Some(OutOfMoney);
      }
    }

    method ReserveCost(mock: bool, estimate: Option<int>, record: int, elapsed: int)
      returns (outcome: Result<int, Stop>)
      modifies this`pending
      ensures match CostReserved(limits, old(Books()), mock, estimate, record, elapsed)
              case Failure(s) => outcome == Failure(s) && Books() == old(Books())
              case Success((l, amount)) => outcome == Success(amount) && Books() == l
    {
      var stop := CheckTimeAndCost(elapsed);
      if stop.Some? {
        return Failure(stop.value);
      }
      if limits.maxCost <= 0 || mock {
        return Success(0);
      }
      var nothing := new Usage();
      stop := CheckUnsettled(record, nothing, elapsed);
      if stop.Some? {
        return Failure(stop.value);
      }
      if estimate.None? || usage.counters[COST] + pending + estimate.value > limits.maxCost {
        return Failure(OutOfMoney);
      }
      pending := pending + estimate.value;
      return Success(estimate.value);
    }

    method ReleaseCost(reservation: int)
      modifies this`pending
      ensures Books() == CostReleased(old(Books()), reservation)
    {
      pending := Max(0, pending - reservation);
    }

    method HoldUsage(id: int, charge: Usage)
      modifies this`pending, this`held
      ensures Books() == Holding(old(Books()), id, charge.Value())
    {
      var previous := if id in held then held[id].cost else 0;
      pending := pending + charge.counters[COST] - previous;
      held := held[id := Hold(charge.counters[COST], Unreconciled(charge.Value()))];
    }

    method ReleaseUsage(id: int)
      modifies this`pending, this`held
      ensures Books() == HoldReleased(old(Books()), id)
    {
      var previous := if id in held then held[id].cost else 0;
      held := held - {id};
      ReleaseCost(previous);
    }

    /** Settle a charge. It is recorded even when it exceeds the budget. */
    method AddUsage(charge: Usage) returns (stop: Option<Stop>)
      modifies usage
      ensures Books() == Settled(old(Books()), old(charge.Value()))
      ensures stop == if Overspent(limits, Books()) then Some(OutOfMoney) else None
    {
      usage.Add(charge);
      stop := if limits.maxCost > 0 && usage.counters[COST] > limits.maxCost then Some(OutOfMoney) else None;
    }
  }

  // ---------------------------------------------------------------------------
  // When the budget grants what it is asked for
  // ---------------------------------------------------------------------------

  /** Time is left, and the settled cost has not reached the limit, if there is one. */
  predicate TimeAndMoneyLeft(limits: Limits, l: Ledger, elapsed: int) {
    elapsed < limits.maxSeconds && (limits.maxCost <= 0 || l.usage.counters[COST] < limits.maxCost)
  }

  /** A cost that is not known well enough: incomplete, or unknown for a record that counts something. */
  predicate Doubtful(charge: Charge) {
    || charge.status == Incomplete
    || (charge.status == Unknown && exists i :: 0 <= i < COUNTERS && charge.counters[i] != 0)
  }

  lemma {:induction false} DoubtfulIsUnreconciled(charge: Charge)
    ensures Unreconciled(charge) <==> Doubtful(charge)
  {
  }

  /** A turn is granted exactly while turns, time and money are left, and only takes the turn. */
  lemma {:induction false} WhenTurnsAreGranted(limits: Limits, l: Ledger, elapsed: int)
    ensures Turned(limits, l, elapsed).Success? <==> l.turns < limits.maxTurns && TimeAndMoneyLeft(limits, l, elapsed)
    ensures Turned(limits, l, elapsed).Success? ==> Turned(limits, l, elapsed).value == l.(turns := l.turns + 1)
  {
  }

  /**
   * A request is granted exactly while time and money are left and the allowance exceeds the requests
   * made and the closing requests reserved, without the asking owner's own if this is its closing one.
   */
  lemma {:induction false} WhenRequestsAreGranted(
    limits: Limits, l: Ledger, owner: string, closure: bool, elapsed: int)
    ensures
      var r, own := Requested(limits, l, owner, closure, elapsed), if closure && owner != "" then {owner} else {};
      && (r.Success? <==>
            l.requests + |l.closures - own| < limits.maxRequests && TimeAndMoneyLeft(limits, l, elapsed))
      && (r.Success? ==>
            r.value == l.(requests := l.requests + 1, closures := if closure then l.closures - {owner} else l.closures))
  {
  }

  /** A closing request is reserved exactly if it is already, or if requests are left beside all reserved ones. */
  lemma {:induction false} WhenClosuresAreReserved(limits: Limits, l: Ledger, owner: string)
    ensures
      var r := Reserved(limits, l, owner);
      && (r.Some? <==> owner in l.closures || l.requests + |l.closures| < limits.maxRequests)
      && (r.Some? ==> r.value == l.(closures := l.closures + {owner}))
  {
    assert l.closures - Owned(None) == l.closures;
    if owner in l.closures { assert l.closures + {owner} == l.closures; }
  }

  /**
   * A further attempt is allowed exactly while time and money are left and, under a limit, no held
   * or settled charge is in doubt and all of them together are within it.
   */
  lemma {:induction false} WhenAttemptsAreAllowed(limits: Limits, l: Ledger, id: int, charge: Charge, elapsed: int)
    ensures Unsettled(limits, l, id, charge, elapsed).None? <==>
      && TimeAndMoneyLeft(limits, l, elapsed)
      && (|| limits.maxCost <= 0
          || (&& (forall k :: k in l.held ==> !l.held[k].unreconciled)
              && !Doubtful(l.usage) && !Doubtful(charge)
              && l.usage.counters[COST] + l.pending + (if id in l.held then 0 else charge.counters[COST])
                 <= limits.maxCost))
  {
    DoubtfulIsUnreconciled(l.usage);
    DoubtfulIsUnreconciled(charge);
  }

  /**
   * An estimate is reserved exactly while further attempts are allowed and, under a limit, the model
   * has a price and the estimate fits beside all that is settled and pending.
   */
  lemma {:induction false} WhenEstimatesAreReserved(
    limits: Limits, l: Ledger, mock: bool, estimate: Option<int>, record: int, elapsed: int)
    ensures
      var r, bounded := CostReserved(limits, l, mock, estimate, record, elapsed), limits.maxCost > 0 && !mock;
      && (r.Success? <==>
            && TimeAndMoneyLeft(limits, l, elapsed)
            && (bounded ==>
                  && Unsettled(limits, l, record, NO_CHARGE, elapsed).None? && estimate.Some?
                  && l.usage.counters[COST] + l.pending + estimate.value <= limits.maxCost))
      && (r.Success? ==>
            r.value == if bounded then (l.(pending := l.pending + estimate.value), estimate.value) else (l, 0))
  {
  }

  /** A charge that is held counts as pending at its present cost, and remembers whether it is in doubt. */
  lemma {:induction false} WhatIsHeld(l: Ledger, id: int, charge: Charge)
    ensures
      var h := Holding(l, id, charge);
      && h.pending == l.pending + charge.counters[COST] - (if id in l.held then l.held[id].cost else 0)
      && h.held == l.held[id := Hold(charge.counters[COST], Doubtful(charge))]
  {
    DoubtfulIsUnreconciled(charge);
  }
}
