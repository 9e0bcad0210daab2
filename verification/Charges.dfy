/** Usage records: token, request and cost counters with the status of their cost. */
module Charges {
  import opened Wrappers

  datatype CostStatus = Known | Estimated | Unknown | Incomplete

  /**
   * Positions in a usage record: input, output, cached input, cache write and reasoning tokens,
   * requests, cost and cache savings, and then hits, misses, saved tokens and saved cost of the
   * application's own cache. Money is counted exactly, in some small unit.
   */
  const INPUT_TOKENS := 0
  const REQUESTS := 5
  const COST := 6
  const CACHE_SAVINGS := 7
  const APPLICATION_CACHE_HITS := 8
  const APPLICATION_CACHE_MISSES := 9
  const COUNTERS := 12

  type Counters = c: seq<int> | |c| == 12 witness [0, 0, 0, 0, 0, 0, 0, 0, 0, 0, 0, 0]

  const NO_COUNTERS: Counters := [0, 0, 0, 0, 0, 0, 0, 0, 0, 0, 0, 0]

  function Sum(a: Counters, b: Counters): (c: Counters)
    ensures forall i :: 0 <= i < COUNTERS ==> c[i] == a[i] + b[i]
  {
    seq(COUNTERS, i requires 0 <= i < COUNTERS => a[i] + b[i])
  }

  predicate Zero(c: Counters) {
    forall i :: 0 <= i < COUNTERS ==> c[i] == 0
  }

  lemma {:induction false} SumAssociates(a: Counters, b: Counters, c: Counters)
    ensures Sum(Sum(a, b), c) == Sum(a, Sum(b, c))
  {
  }

  lemma {:induction false} SumCommutes(a: Counters, b: Counters)
    ensures Sum(a, b) == Sum(b, a)
  {
  }

  lemma {:induction false} SumUnit(a: Counters)
    ensures Sum(a, NO_COUNTERS) == a == Sum(NO_COUNTERS, a)
  {
    assert Sum(a, NO_COUNTERS) == a;
    assert Sum(NO_COUNTERS, a) == a;
  }

  /** The value of a usage record; the provider's own reports are opaque. */
  datatype Charge = Charge(counters: Counters, status: CostStatus, native: Option<string>, attempts: seq<string>) {
    predicate IsEmpty() {
      status != Incomplete && Zero(counters)
    }

    /** The reports of the attempts behind this record. */
    function Reports(): seq<string> {
      if attempts != [] then attempts else if native.Some? then [native.value] else []
    }
  }

  const NO_CHARGE := Charge(NO_COUNTERS, Unknown, None, [])

  function Merge(a: Charge, b: Charge): CostStatus {
    if b.IsEmpty() then a.status
    else if a.IsEmpty() then b.status
    else if a.status == Incomplete || b.status == Incomplete then Incomplete
    else if a.status == Unknown || b.status == Unknown then (if a.status == b.status then Unknown else Incomplete)
    else if a.status == Estimated || b.status == Estimated then Estimated
    else a.status
  }

  /** `Usage.add`, on values. */
  function Plus(a: Charge, b: Charge): Charge {
    Charge(Sum(a.counters, b.counters), Merge(a, b), None, a.Reports() + b.Reports())
  }

  class Usage {
    var counters: Counters
    var status: CostStatus
    var native: Option<string>
    var attempts: seq<string>

    function Value(): Charge
      reads this
    {
      Charge(counters, status, native, attempts)
    }

    constructor ()
      ensures Value() == NO_CHARGE
    {
      counters, status, native, attempts := NO_COUNTERS, Unknown, None, [];
    }

    constructor Of(charge: Charge)
      ensures Value() == charge
    {
      counters, status, native, attempts := charge.counters, charge.status, charge.native, charge.attempts;
    }

    /** The status part of `Usage.add`. */
    method AddStatus(other: Usage)
      modifies this`status
      ensures status == Merge(old(Value()), old(other.Value()))
    {
      var isEmpty, otherIsEmpty := Value().IsEmpty(), other.Value().IsEmpty();
      if !otherIsEmpty || other.status == Incomplete {
        if isEmpty && status != Incomplete {
          status := other.status;
        } else if status == Incomplete || other.status == Incomplete {
          status := Incomplete;
        } else if status == Unknown || other.status == Unknown {
          status := if status == other.status then Unknown else Incomplete;
        } else if status == Estimated || other.status == Estimated {
          status := Estimated;
        }
      }
    }

    /** `Usage.add`. The argument may be the receiver itself. */
    method Add(other: Usage)
      modifies this
      ensures Value() == Plus(old(Value()), old(other.Value()))
    {
      AddStatus(other);
      if native.Some? && attempts == [] {
        attempts := [native.value];
      }
      attempts := attempts +
        if other.attempts != [] then other.attempts else if other.native.Some? then [other.native.value] else [];
      native := None;
      counters := Sum(counters, other.counters);
    }
  }

  // ---------------------------------------------------------------------------
  // Adding up a list of charges
  // ---------------------------------------------------------------------------

  /** Fold `Usage.add` over the charges, from an empty record. */
  function Total(charges: seq<Charge>): Charge {
    if charges == [] then NO_CHARGE else Plus(Total(charges[..|charges| - 1]), charges[|charges| - 1])
  }

  function TotalCounters(charges: seq<Charge>): Counters {
    if charges == [] then NO_COUNTERS
    else Sum(TotalCounters(charges[..|charges| - 1]), charges[|charges| - 1].counters)
  }

  ghost function Statuses(charges: seq<Charge>): set<CostStatus> {
    set c | c in charges && !c.IsEmpty() :: c.status
  }

  /** The status of a total, from the set of statuses of its nonempty parts. */
  ghost function StatusOf(statuses: set<CostStatus>): CostStatus {
    if statuses == {} then Unknown
    else if Incomplete in statuses then Incomplete
    else if Unknown in statuses then (if statuses == {Unknown} then Unknown else Incomplete)
    else if Estimated in statuses then Estimated
    else Known
  }

  /**
   * Counters that a provider can report: none is negative, and savings, which can be,
   * come with tokens.
   */
  predicate Countable(c: Counters) {
    && (forall i :: 0 <= i < COUNTERS && i != CACHE_SAVINGS ==> c[i] >= 0)
    && (c[CACHE_SAVINGS] != 0 ==> c[INPUT_TOKENS] > 0)
  }

  ghost predicate AllCountable(charges: seq<Charge>) {
    forall i :: 0 <= i < |charges| ==> Countable(charges[i].counters)
  }

  lemma {:induction false} SumOfCountable(a: Counters, b: Counters)
    requires Countable(a) && Countable(b)
    ensures Countable(Sum(a, b))
    ensures Zero(Sum(a, b)) <==> Zero(a) && Zero(b)
  {
    var s := Sum(a, b);
    assert s[INPUT_TOKENS] == a[INPUT_TOKENS] + b[INPUT_TOKENS];
    if Zero(s) {
      forall i | 0 <= i < COUNTERS ensures a[i] == 0 && b[i] == 0 {
        assert s[i] == a[i] + b[i] && s[INPUT_TOKENS] == 0;
      }
    }
  }

  lemma {:induction false} PlusIsEmpty(a: Charge, b: Charge)
    requires Countable(a.counters) && Countable(b.counters)
    ensures Plus(a, b).IsEmpty() <==> a.IsEmpty() && b.IsEmpty()
  {
    SumOfCountable(a.counters, b.counters);
  }

  lemma {:induction false} StatusesAppend(charges: seq<Charge>, c: Charge)
    ensures Statuses(charges + [c]) == Statuses(charges) + if c.IsEmpty() then {} else {c.status}
  {
    var all := charges + [c];
    assert forall x :: x in all <==> x in charges || x == c;
  }

  lemma {:induction false} MergeMeaning(total: Charge, statuses: set<CostStatus>, c: Charge)
    requires total.IsEmpty() <==> statuses == {}
    requires total.status == StatusOf(statuses)
    ensures Merge(total, c) == StatusOf(statuses + if c.IsEmpty() then {} else {c.status})
  {
    if c.IsEmpty() {
      assert statuses + {} == statuses;
    } else if statuses == {} {
      assert statuses + {c.status} == {c.status};
    }
  }

  lemma {:induction false} CountersOfTotal(charges: seq<Charge>)
    ensures Total(charges).counters == TotalCounters(charges)
  {
    if charges != [] { CountersOfTotal(charges[..|charges| - 1]); }
  }

  /** The inductive step of the meaning of a total. */
  ghost predicate Means(total: Charge, statuses: set<CostStatus>) {
    && Countable(total.counters)
    && total.status == StatusOf(statuses)
    && (total.IsEmpty() <==> statuses == {})
  }

  lemma {:induction false} MeaningStep(total: Charge, statuses: set<CostStatus>, c: Charge)
    requires Means(total, statuses) && Countable(c.counters)
    ensures Means(Plus(total, c), statuses + if c.IsEmpty() then {} else {c.status})
  {
    SumOfCountable(total.counters, c.counters);
    MergeMeaning(total, statuses, c);
    PlusIsEmpty(total, c);
  }

  /**
   * The status of a total depends only on which statuses the nonempty charges have,
   * however they are ordered.
   */
  lemma {:induction false} TotalMeaning(charges: seq<Charge>)
    requires AllCountable(charges)
    ensures Means(Total(charges), Statuses(charges))
  {
    if charges == [] {
      assert Statuses(charges) == {};
    } else {
      var n := |charges| - 1;
      var before, c := charges[..n], charges[n];
      TotalMeaning(before);
      StatusesAppend(before, c);
      assert charges == before + [c];
      MeaningStep(Total(before), Statuses(before), c);
    }
  }

  lemma {:induction false} CountersConcat(a: seq<Charge>, b: seq<Charge>)
    ensures TotalCounters(a + b) == Sum(TotalCounters(a), TotalCounters(b))
  {
    if b == [] {
      assert a + b == a;
      SumUnit(TotalCounters(a));
    } else {
      assert (a + b)[..|a + b| - 1] == a + b[..|b| - 1];
      CountersConcat(a, b[..|b| - 1]);
      SumAssociates(TotalCounters(a), TotalCounters(b[..|b| - 1]), b[|b| - 1].counters);
    }
  }

  /** Moving one charge to the end does not change the counters. */
  lemma {:induction false} CountersMove(b: seq<Charge>, k: nat)
    requires k < |b|
    ensures TotalCounters(b) == Sum(TotalCounters(b[..k] + b[k + 1..]), b[k].counters)
  {
    var x, c, y := b[..k], [b[k]], b[k + 1..];
    assert b == x + (c + y) && c[..0] == [];
    CountersConcat(x, c + y);
    CountersConcat(c, y);
    CountersConcat(x, y);
    SumUnit(b[k].counters);
    assert TotalCounters(c) == b[k].counters;
    SumCommutes(b[k].counters, TotalCounters(y));
    SumAssociates(TotalCounters(x), TotalCounters(y), b[k].counters);
  }

  lemma {:induction false} CountersPermute(a: seq<Charge>, b: seq<Charge>)
    requires multiset(a) == multiset(b)
    ensures TotalCounters(a) == TotalCounters(b)
    decreases |a|
  {
    if a == [] {
      assert |multiset(b)| == 0;
    } else {
      var n := |a| - 1;
      assert a[n] in multiset(b);
      var k :| 0 <= k < |b| && b[k] == a[n];
      var b' := b[..k] + b[k + 1..];
      RemoveOne(a, n, b, k);
      CountersPermute(a[..n], b');
      CountersMove(b, k);
    }
  }

  lemma {:induction false} RemoveOne(a: seq<Charge>, n: nat, b: seq<Charge>, k: nat)
    requires n + 1 == |a| && k < |b| && a[n] == b[k] && multiset(a) == multiset(b)
    ensures multiset(a[..n]) == multiset(b[..k] + b[k + 1..])
  {
    Removed(a, n);
    assert a[..n] + a[n + 1..] == a[..n];
    Removed(b, k);
  }

  lemma {:induction false} Removed<T>(s: seq<T>, k: nat)
    requires k < |s|
    ensures multiset(s[..k] + s[k + 1..]) == multiset(s) - multiset{s[k]}
  {
    assert s == s[..k] + ([s[k]] + s[k + 1..]);
  }

  /** Totals do not depend on the order in which charges are added. */
  lemma {:induction false} TotalIgnoresOrder(a: seq<Charge>, b: seq<Charge>)
    requires AllCountable(a) && multiset(a) == multiset(b)
    ensures Total(a).counters == Total(b).counters && Total(a).status == Total(b).status
  {
    assert forall x :: x in a <==> x in multiset(a);
    assert forall x :: x in b <==> x in multiset(b);
    assert AllCountable(b) by {
      forall i | 0 <= i < |b| ensures Countable(b[i].counters) { assert b[i] in a; }
    }
    TotalMeaning(a);
    TotalMeaning(b);
    CountersOfTotal(a);
    CountersOfTotal(b);
    CountersPermute(a, b);
    assert Statuses(a) == Statuses(b);
  }

  /** Nor on how they are grouped: two totals added give the total of both lists. */
  lemma {:induction false} TotalIgnoresGrouping(a: seq<Charge>, b: seq<Charge>)
    requires AllCountable(a) && AllCountable(b)
    ensures Plus(Total(a), Total(b)).counters == Total(a + b).counters
    ensures Plus(Total(a), Total(b)).status == Total(a + b).status
    ensures Plus(Total(a), Total(b)).Reports() == Total(a + b).Reports()
  {
    CountersOfTotal(a);
    CountersOfTotal(b);
    CountersOfTotal(a + b);
    CountersConcat(a, b);
    ReportsConcat(a, b);
    ReportsOfPlus(Total(a), Total(b));
    StatusGrouping(a, b);
  }

  lemma {:induction false} StatusGrouping(a: seq<Charge>, b: seq<Charge>)
    requires AllCountable(a) && AllCountable(b)
    ensures Merge(Total(a), Total(b)) == Total(a + b).status
  {
    TotalMeaning(a);
    TotalMeaning(b);
    assert AllCountable(a + b);
    TotalMeaning(a + b);
    StatusesConcat(a, b);
    MergeJoin(Total(a), Statuses(a), Total(b), Statuses(b));
  }

  lemma {:induction false} StatusesConcat(a: seq<Charge>, b: seq<Charge>)
    ensures Statuses(a + b) == Statuses(a) + Statuses(b)
  {
    assert forall x :: x in a + b <==> x in a || x in b;
  }

  lemma {:induction false} MergeJoin(x: Charge, s: set<CostStatus>, y: Charge, t: set<CostStatus>)
    requires Means(x, s) && Means(y, t)
    ensures Merge(x, y) == StatusOf(s + t)
  {
    StatusJoin(s, t);
    if s == {} { assert s + t == t; }
    if t == {} { assert s + t == s; }
  }

  lemma {:induction false} StatusJoin(s: set<CostStatus>, t: set<CostStatus>)
    ensures s != {} && t != {} ==>
      var (a, b) := (StatusOf(s), StatusOf(t));
      StatusOf(s + t) ==
        if a == Incomplete || b == Incomplete then Incomplete
        else if a == Unknown || b == Unknown then (if a == b then Unknown else Incomplete)
        else if a == Estimated || b == Estimated then Estimated
        else Known
  {
  }

  lemma {:induction false} ReportsOfPlus(a: Charge, b: Charge)
    ensures Plus(a, b).Reports() == a.Reports() + b.Reports()
  {
  }

  function TotalReports(charges: seq<Charge>): seq<string> {
    if charges == [] then [] else TotalReports(charges[..|charges| - 1]) + charges[|charges| - 1].Reports()
  }

  lemma {:induction false} ReportsOfTotal(charges: seq<Charge>)
    ensures Total(charges).Reports() == TotalReports(charges)
  {
    if charges != [] {
      ReportsOfTotal(charges[..|charges| - 1]);
      ReportsOfPlus(Total(charges[..|charges| - 1]), charges[|charges| - 1]);
    }
  }

  lemma {:induction false} TotalReportsConcat(a: seq<Charge>, b: seq<Charge>)
    ensures TotalReports(a + b) == TotalReports(a) + TotalReports(b)
  {
    if b == [] {
      assert a + b == a;
    } else {
      assert (a + b)[..|a + b| - 1] == a + b[..|b| - 1];
      TotalReportsConcat(a, b[..|b| - 1]);
    }
  }

  lemma {:induction false} ReportsConcat(a: seq<Charge>, b: seq<Charge>)
    ensures Total(a + b).Reports() == Total(a).Reports() + Total(b).Reports()
  {
    ReportsOfTotal(a);
    ReportsOfTotal(b);
    ReportsOfTotal(a + b);
    TotalReportsConcat(a, b);
  }

  function Requests(n: int, status: CostStatus): Charge {
    Charge(NO_COUNTERS[REQUESTS := n], status, None, [])
  }

  /** With negative counters the order would matter: a total that cancels to nothing forgets its status. */
  lemma {:induction false} SignedCountersDependOnOrder()
    ensures
      var (a, b, c) := (Requests(1, Known), Requests(-1, Known), Requests(1, Unknown));
      && Plus(Plus(a, b), c).status == Unknown
      && Plus(Plus(a, c), b).status == Incomplete
  {
    var (a, b, c) := (Requests(1, Known), Requests(-1, Known), Requests(1, Unknown));
    assert a.counters[REQUESTS] == 1 && b.counters[REQUESTS] == -1 && c.counters[REQUESTS] == 1;
    var (ab, ac) := (Plus(a, b), Plus(a, c));
    assert forall i :: 0 <= i < COUNTERS ==> ab.counters[i] == 0;
    assert ac.counters[REQUESTS] == 2;
  }

  // ---------------------------------------------------------------------------
  // The status of a total, from its parts
  // ---------------------------------------------------------------------------

  /** Some charge that counts something, or is incomplete, has this status. */
  ghost predicate Has(charges: seq<Charge>, status: CostStatus) {
    exists i ::
      && 0 <= i < |charges| && charges[i].status == status
      && (status == Incomplete || exists k :: 0 <= k < COUNTERS && charges[i].counters[k] != 0)
  }

  lemma {:induction false} HasIsInStatuses(charges: seq<Charge>, status: CostStatus)
    ensures Has(charges, status) <==> status in Statuses(charges)
  {
    if Has(charges, status) {
      var i :|
        && 0 <= i < |charges| && charges[i].status == status
        && (status == Incomplete || exists k :: 0 <= k < COUNTERS && charges[i].counters[k] != 0);
      assert charges[i] in charges;
    }
    if status in Statuses(charges) {
      var c :| c in charges && !c.IsEmpty() && c.status == status;
      var i :| 0 <= i < |charges| && charges[i] == c;
    }
  }

  /**
   * A total is incomplete if a part is, or if the cost of some parts is unknown and that of others is
   * not; unknown if that of all is; estimated if that of some is; and else known.
   */
  lemma {:induction false} StatusOfTotal(charges: seq<Charge>)
    requires AllCountable(charges)
    ensures Total(charges).status == (
      if Has(charges, Incomplete)
        || (Has(charges, Unknown) && (Has(charges, Known) || Has(charges, Estimated))) then Incomplete
      else if Has(charges, Estimated) then Estimated
      else if Has(charges, Known) then Known
      else Unknown)
  {
    TotalMeaning(charges);
    HasIsInStatuses(charges, Incomplete);
    HasIsInStatuses(charges, Unknown);
    HasIsInStatuses(charges, Estimated);
    HasIsInStatuses(charges, Known);
    StatusFrom(Statuses(charges));
  }

  lemma {:induction false} StatusFrom(statuses: set<CostStatus>)
    ensures StatusOf(statuses) == (
      if Incomplete in statuses || (Unknown in statuses && (Known in statuses || Estimated in statuses)) then Incomplete
      else if Estimated in statuses then Estimated
      else if Known in statuses then Known
      else Unknown)
  {
    if statuses != {} && Incomplete !in statuses && Known !in statuses && Estimated !in statuses {
      forall x | x in statuses ensures x == Unknown { }
      var x :| x in statuses;
      assert statuses == {Unknown};
    }
  }
}
