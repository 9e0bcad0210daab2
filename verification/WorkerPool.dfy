/**
 * Admission of delegated agents, and the bounded worker pool: workers share one iterator over
 * the items and are drained on every exit.
 */
module WorkerPool {
  import opened Wrappers

  // ---------------------------------------------------------------------------
  // Admission
  // ---------------------------------------------------------------------------

  datatype Refusal = Disabled | TooDeep | TooMany

  predicate Admissible(maxDepth: int, maxDescendants: int, admitted: int, depth: int) {
    maxDepth != 0 && maxDescendants != 0 && depth <= maxDepth && admitted < maxDescendants
  }

  class SwarmState {
    const maxDepth: int
    const maxDescendants: int
    var admitted: int

    constructor (maxDepth: int, maxDescendants: int)
      ensures this.maxDepth == maxDepth && this.maxDescendants == maxDescendants && admitted == 0
    {
      this.maxDepth, this.maxDescendants, admitted := maxDepth, maxDescendants, 0;
    }

    /** Reserve a descendant. A reservation is never given back. */
    method Admit(depth: int) returns (refusal: Option<Refusal>)
      modifies this`admitted
      ensures refusal == None <==>
        maxDepth != 0 && maxDescendants != 0 && depth <= maxDepth && old(admitted) < maxDescendants
      ensures admitted == old(admitted) + if refusal == None then 1 else 0
      ensures admitted == AfterAdmission(maxDepth, maxDescendants, old(admitted), depth)
      ensures refusal == Some(Disabled) <==> maxDepth == 0 || maxDescendants == 0
      ensures refusal == Some(TooDeep) <==> maxDepth != 0 && maxDescendants != 0 && depth > maxDepth
    {
      if maxDepth == 0 || maxDescendants == 0 {
        return Some(Disabled);
      }
      if depth > maxDepth {
        return Some(TooDeep);
      }
      if admitted >= maxDescendants {
        return Some(TooMany);
      }
      admitted := admitted + 1;
      return None;
    }
  }

  function AfterAdmission(maxDepth: int, maxDescendants: int, admitted: int, depth: int): int {
    if Admissible(maxDepth, maxDescendants, admitted, depth) then admitted + 1 else admitted
  }

  function AfterAdmissions(maxDepth: int, maxDescendants: int, admitted: int, depths: seq<int>): int
    decreases |depths|
  {
    if depths == [] then admitted
    else
      AfterAdmissions(
        maxDepth, maxDescendants, AfterAdmission(maxDepth, maxDescendants, admitted, depths[0]), depths[1..])
  }

  /** However many ask, at whatever depth, no more are ever admitted than the limit. */
  lemma {:induction false} AdmissionsAreBounded(maxDepth: int, maxDescendants: int, admitted: int, depths: seq<int>)
    requires admitted <= maxDescendants
    ensures admitted <= AfterAdmissions(maxDepth, maxDescendants, admitted, depths) <= maxDescendants
    decreases |depths|
  {
    if depths != [] {
      AdmissionsAreBounded(
        maxDepth, maxDescendants, AfterAdmission(maxDepth, maxDescendants, admitted, depths[0]), depths[1..]);
    }
  }

  // ---------------------------------------------------------------------------
  // The pool
  // ---------------------------------------------------------------------------

  /** A worker is about to take an item, is executing one, has run out of items, or has ended with an error. */
  datatype Worker = Ready | Running(item: nat) | Done | Dead

  datatype Caller<R> = Gathering | Draining | Returned(results: seq<R>) | Left

  /** The position of the shared iterator, the items started in order, and the results so far. */
  datatype Pool<R> = Pool(
    next: nat,
    started: seq<nat>,
    workers: seq<Worker>,
    results: map<nat, R>,
    caller: Caller<R>)

  /** What each item comes to when it is executed: a result, or a failure. */
  type Items<R> = seq<Option<R>>

  datatype Step =
    | Take(worker: nat)
    | Finish(worker: nat)
    | Fail(worker: nat)
    | Stop(worker: nat)
    | CancelCaller
    | Return
    | Leave

  function Width(items: nat, limit: int): nat {
    Min(items, Max(1, limit))
  }

  function Start<R>(items: nat, limit: int): Pool<R> {
    Pool(0, [], seq(Width(items, limit), _ => Ready), map[], Gathering)
  }

  predicate Live(w: Worker) { w.Ready? || w.Running? }

  /** Errors and cancellation leave only through draining: every worker is cancelled and awaited. */
  predicate Enabled<R>(items: Items<R>, p: Pool<R>, step: Step) {
    match step
    case Take(w) => w < |p.workers| && p.workers[w].Ready? && (p.caller.Gathering? || p.caller.Draining?)
    case Finish(w) =>
      && w < |p.workers| && p.workers[w].Running? && (p.caller.Gathering? || p.caller.Draining?)
      && p.workers[w].item < |items| && items[p.workers[w].item].Some?
    case Fail(w) =>
      && w < |p.workers| && p.workers[w].Running? && (p.caller.Gathering? || p.caller.Draining?)
      && p.workers[w].item < |items| && items[p.workers[w].item].None?
    case Stop(w) => w < |p.workers| && Live(p.workers[w]) && p.caller.Draining?
    case CancelCaller => p.caller.Gathering?
    case Return => p.caller.Gathering? && forall w :: 0 <= w < |p.workers| ==> p.workers[w].Done?
    case Leave => p.caller.Draining? && forall w :: 0 <= w < |p.workers| ==> !Live(p.workers[w])
  }

  /** Every started item is being executed, has a result, or was lost with a worker that died. */
  ghost predicate Tracked<R>(items: Items<R>, p: Pool<R>, i: nat) {
    || (i in p.results && i < |items| && items[i] == Some(p.results[i]))
    || (exists w :: 0 <= w < |p.workers| && p.workers[w] == Running(i))
    || (exists w :: 0 <= w < |p.workers| && p.workers[w].Dead?)
  }

  ghost predicate Valid<R>(items: Items<R>, p: Pool<R>) {
    && p.next <= |items|
    && |p.started| == p.next
    && (forall k :: 0 <= k < p.next ==> p.started[k] == k)
    && (forall w :: 0 <= w < |p.workers| && p.workers[w].Running? ==> p.workers[w].item < p.next)
    && (forall v, w :: 0 <= v < w < |p.workers| && p.workers[v].Running? ==> p.workers[v] != p.workers[w])
    && (forall w :: 0 <= w < |p.workers| && p.workers[w].Done? ==> p.next == |items|)
    && (p.workers == [] ==> items == [])
    && (forall i :: 0 <= i < p.next ==> Tracked(items, p, i))
    && (p.caller.Gathering? ==> forall w :: 0 <= w < |p.workers| ==> !p.workers[w].Dead?)
    && (p.caller.Left? || p.caller.Returned? ==> forall w :: 0 <= w < |p.workers| ==> !Live(p.workers[w]))
    && (p.caller.Returned? ==>
         && |p.caller.results| == |items|
         && forall i :: 0 <= i < |items| ==> items[i] == Some(p.caller.results[i]))
  }

  function Next<R>(items: Items<R>, p: Pool<R>, step: Step): Pool<R> {
    if !Enabled(items, p, step) then p
    else match step
      case Take(w) =>
        if p.next < |items|
        then p.(next := p.next + 1, started := p.started + [p.next], workers := p.workers[w := Running(p.next)])
        else p.(workers := p.workers[w := Done])
      case Finish(w) =>
        var i := p.workers[w].item;
        p.(results := p.results[i := items[i].value], workers := p.workers[w := Ready])
      case Fail(w) =>
        p.(workers := p.workers[w := Dead], caller := Draining)
      case Stop(w) => p.(workers := p.workers[w := Dead])
      case CancelCaller => p.(caller := Draining)
      case Return =>
        p.(caller := if forall i :: 0 <= i < |items| ==> i in p.results
                     then Returned(seq(|items|, i requires 0 <= i < |items| => p.results[i]))
                     else Left)
      case Leave => p.(caller := Left)
  }

  lemma {:induction false} StartIsValid<R>(items: Items<R>, limit: int)
    ensures Valid(items, Start<R>(|items|, limit))
  {
  }

  lemma {:induction false} TakeIsValid<R>(items: Items<R>, p: Pool<R>, w: nat)
    requires Valid(items, p) && Enabled(items, p, Take(w))
    ensures Valid(items, Next(items, p, Take(w)))
  {
    var q := Next(items, p, Take(w));
    assert q.workers[w] == if p.next < |items| then Running(p.next) else Done;
    forall i | 0 <= i < q.next ensures Tracked(items, q, i) {
      if i < p.next {
        assert Tracked(items, p, i);
        TrackedStays(items, p, q, w, i);
      }
    }
  }

  /** A worker that was not executing anything takes no tracked item with it. */
  lemma {:induction false} TrackedStays<R>(items: Items<R>, p: Pool<R>, q: Pool<R>, w: nat, i: nat)
    requires w < |p.workers| == |q.workers| && Tracked(items, p, i) && q.results == p.results
    requires p.workers[w] != Running(i) && !p.workers[w].Dead?
    requires forall v :: 0 <= v < |p.workers| && v != w ==> q.workers[v] == p.workers[v]
    ensures Tracked(items, q, i)
  {
    if !(i in p.results && i < |items| && items[i] == Some(p.results[i])) {
      var v :| 0 <= v < |p.workers| && (p.workers[v] == Running(i) || p.workers[v].Dead?);
      assert q.workers[v] == p.workers[v];
    }
  }

  lemma {:induction false} FinishIsValid<R>(items: Items<R>, p: Pool<R>, w: nat)
    requires Valid(items, p) && Enabled(items, p, Finish(w))
    ensures Valid(items, Next(items, p, Finish(w)))
  {
    var q, item := Next(items, p, Finish(w)), p.workers[w].item;
    forall i | 0 <= i < q.next ensures Tracked(items, q, i) {
      assert Tracked(items, p, i);
      if i != item {
        TrackedStays(items, p, q.(results := p.results), w, i);
        TrackedByMore(items, q, p.results, item, i);
      }
    }
  }

  lemma {:induction false} TrackedByMore<R>(items: Items<R>, q: Pool<R>, results: map<nat, R>, item: nat, i: nat)
    requires item in q.results && q.results == results[item := q.results[item]] && i != item
    requires Tracked(items, q.(results := results), i)
    ensures Tracked(items, q, i)
  {
    if exists w :: 0 <= w < |q.workers| && q.workers[w] == Running(i) {
      var w :| 0 <= w < |q.workers| && q.workers[w] == Running(i);
    }
  }

  lemma {:induction false} DeathIsValid<R>(items: Items<R>, p: Pool<R>, w: nat)
    requires Valid(items, p) && w < |p.workers| && Live(p.workers[w])
    requires p.caller.Gathering? || p.caller.Draining?
    ensures Valid(items, p.(workers := p.workers[w := Dead], caller := Draining))
  {
    var q := p.(workers := p.workers[w := Dead], caller := Draining);
    assert q.workers[w].Dead?;
  }

  lemma {:induction false} ReturnIsValid<R>(items: Items<R>, p: Pool<R>)
    requires Valid(items, p) && Enabled(items, p, Return)
    ensures Valid(items, Next(items, p, Return)) && Next(items, p, Return).caller.Returned?
  {
    assert p.next == |items| by {
      if p.workers != [] { assert p.workers[0].Done?; }
    }
    forall i | 0 <= i < |items| ensures i in p.results && items[i] == Some(p.results[i]) {
      assert Tracked(items, p, i);
    }
    var q := Next(items, p, Return);
    forall i | 0 <= i < q.next ensures Tracked(items, q, i) { assert i in p.results; }
  }

  lemma {:induction false} CallerIsValid<R>(items: Items<R>, p: Pool<R>, caller: Caller<R>)
    requires Valid(items, p)
    requires caller.Draining? || (caller.Left? && Enabled(items, p, Leave))
    ensures Valid(items, p.(caller := caller))
  {
    var q := p.(caller := caller);
    forall i | 0 <= i < q.next ensures Tracked(items, q, i) { assert Tracked(items, p, i); }
  }

  lemma {:induction false} NextIsValid<R>(items: Items<R>, p: Pool<R>, step: Step)
    requires Valid(items, p)
    ensures Valid(items, Next(items, p, step))
  {
    if Enabled(items, p, step) {
      match step
      case Take(w) => TakeIsValid(items, p, w);
      case Finish(w) => FinishIsValid(items, p, w);
      case Fail(w) => DeathIsValid(items, p, w);
      case Stop(w) =>
        DeathIsValid(items, p, w);
        assert Next(items, p, step) == p.(workers := p.workers[w := Dead], caller := Draining);
      case CancelCaller => CallerIsValid(items, p, Draining);
      case Return => ReturnIsValid(items, p);
      case Leave => CallerIsValid(items, p, Left);
    }
  }

  function After<R>(items: Items<R>, p: Pool<R>, steps: seq<Step>): Pool<R>
    decreases |steps|
  {
    if steps == [] then p else After(items, Next(items, p, steps[0]), steps[1..])
  }

  lemma {:induction false} RunIsValid<R>(items: Items<R>, p: Pool<R>, steps: seq<Step>)
    requires Valid(items, p)
    ensures Valid(items, After(items, p, steps)) && |After(items, p, steps).workers| == |p.workers|
    decreases |steps|
  {
    if steps != [] {
      NextIsValid(items, p, steps[0]);
      RunIsValid(items, Next(items, p, steps[0]), steps[1..]);
    }
  }

  // ---------------------------------------------------------------------------
  // What every schedule guarantees
  // ---------------------------------------------------------------------------

  function InFlight(workers: seq<Worker>): set<nat> {
    set w | 0 <= w < |workers| && workers[w].Running? :: workers[w].item
  }

  lemma {:induction false} InFlightIsBounded(workers: seq<Worker>)
    ensures |InFlight(workers)| <= |workers|
  {
    if workers == [] {
      assert InFlight(workers) == {};
    } else {
      var n := |workers| - 1;
      InFlightIsBounded(workers[..n]);
      var last := if workers[n].Running? then {workers[n].item} else {};
      assert InFlight(workers) == InFlight(workers[..n]) + last by {
        forall i ensures i in InFlight(workers) <==> i in InFlight(workers[..n]) + last {
          if i in InFlight(workers[..n]) {
            var w :| 0 <= w < n && workers[..n][w].Running? && workers[..n][w].item == i;
            assert workers[w].Running? && workers[w].item == i;
          }
          if i in InFlight(workers) {
            var w :| 0 <= w < |workers| && workers[w].Running? && workers[w].item == i;
            assert w < n ==> workers[..n][w] == workers[w];
          }
        }
      }
    }
  }

  /** In every schedule items are started in order, each once, and few are in flight together. */
  lemma {:induction false} EachItemStartsOnce<R>(items: Items<R>, limit: int, steps: seq<Step>)
    ensures
      var p := After(items, Start<R>(|items|, limit), steps);
      && (forall j, k :: 0 <= j < k < |p.started| ==> p.started[j] < p.started[k] < |items|)
      && |InFlight(p.workers)| <= Min(|items|, Max(1, limit))
  {
    StartIsValid(items, limit);
    RunIsValid(items, Start<R>(|items|, limit), steps);
    InFlightIsBounded(After(items, Start<R>(|items|, limit), steps).workers);
  }

  /** A normal return gives the result of every item, in the order of the items, as a sequential map would. */
  lemma {:induction false} ReturnRefinesMap<R>(items: Items<R>, limit: int, steps: seq<Step>)
    requires After(items, Start<R>(|items|, limit), steps).caller.Returned?
    ensures
      var results := After(items, Start<R>(|items|, limit), steps).caller.results;
      |results| == |items| && forall i :: 0 <= i < |items| ==> items[i] == Some(results[i])
  {
    StartIsValid(items, limit);
    RunIsValid(items, Start<R>(|items|, limit), steps);
  }

  /** When the call is left with an error, no worker is live and nothing is executing. */
  lemma {:induction false} NoWorkerOutlivesTheCall<R>(items: Items<R>, limit: int, steps: seq<Step>)
    requires After(items, Start<R>(|items|, limit), steps).caller.Left?
    ensures
      var p := After(items, Start<R>(|items|, limit), steps);
      (forall w :: 0 <= w < |p.workers| ==> !Live(p.workers[w])) && InFlight(p.workers) == {}
  {
    StartIsValid(items, limit);
    RunIsValid(items, Start<R>(|items|, limit), steps);
    assert forall w :: 0 <= w < |After(items, Start<R>(|items|, limit), steps).workers| ==>
      !After(items, Start<R>(|items|, limit), steps).workers[w].Running?;
  }

  // ---------------------------------------------------------------------------
  // Every schedule ends
  // ---------------------------------------------------------------------------

  function Effort(w: Worker): nat {
    match w
    case Ready => 1
    case Running(_) => 2
    case _ => 0
  }

  function TotalEffort(workers: seq<Worker>): nat {
    if workers == [] then 0 else TotalEffort(workers[..|workers| - 1]) + Effort(workers[|workers| - 1])
  }

  function Remaining<R>(items: Items<R>, p: Pool<R>): int {
    3 * (|items| - p.next) + TotalEffort(p.workers)
      + match p.caller case Gathering => 2 case Draining => 1 case _ => 0
  }

  lemma {:induction false} EffortUpdate(workers: seq<Worker>, k: nat, w: Worker)
    requires k < |workers|
    ensures TotalEffort(workers[k := w]) == TotalEffort(workers) - Effort(workers[k]) + Effort(w)
  {
    var n := |workers| - 1;
    if k == n {
      assert workers[k := w][..n] == workers[..n];
    } else {
      assert workers[k := w][..n] == workers[..n][k := w];
      EffortUpdate(workers[..n], k, w);
    }
  }

  /** Every enabled step brings the end closer. */
  lemma {:induction false} StepsMakeProgress<R>(items: Items<R>, p: Pool<R>, step: Step)
    requires Valid(items, p) && Enabled(items, p, step)
    ensures 0 <= Remaining(items, Next(items, p, step)) < Remaining(items, p)
  {
    NextIsValid(items, p, step);
    var q := Next(items, p, step);
    match step
    case Take(w) => EffortUpdate(p.workers, w, q.workers[w]);
    case Finish(w) => EffortUpdate(p.workers, w, Ready);
    case Fail(w) => EffortUpdate(p.workers, w, Dead);
    case Stop(w) => EffortUpdate(p.workers, w, Dead);
    case _ =>
  }

  /** And until the call has returned or been left, some step is enabled. */
  lemma {:induction false} NeverStuck<R>(items: Items<R>, p: Pool<R>)
    requires Valid(items, p) && (p.caller.Gathering? || p.caller.Draining?)
    ensures exists step :: Enabled(items, p, step)
  {
    if w :| 0 <= w < |p.workers| && Live(p.workers[w]) {
      if p.workers[w].Ready? {
        assert Enabled(items, p, Take(w));
      } else if items[p.workers[w].item].Some? {
        assert Enabled(items, p, Finish(w));
      } else {
        assert Enabled(items, p, Fail(w));
      }
    } else if p.caller.Draining? {
      assert Enabled(items, p, Leave);
    } else {
      assert Enabled(items, p, Return);
    }
  }
}
