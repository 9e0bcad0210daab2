/**
 * The turn loop of a run and the verification of its answers. What a model, its tools, the
 * user and the checks do in each iteration is given by an arbitrary environment.
 */
module TurnLoop {
  import opened Wrappers

  /** What can break off a run from outside its turn allowance. */
  datatype Cause = OverBudget | Stuck | Cancelled | Failed

  datatype StopReason = EndTurn | MaxTurns | Cut(cause: Cause)

  datatype Config = Config(autoVerify: bool, maxTurns: int, maxRepairs: int, maxOverflowRetries: int)

  /** A verification of the workspace: whether its checks pass, or what stops it. */
  datatype Check = Check(ok: bool, lifecycleOnly: bool, stop: Option<Cause>)

  /** What the model request of an iteration comes to. */
  datatype Reply =
    | Overflows
    | Stops(cause: Cause)
    | Unusable(overBudget: bool)
    | Incomplete(overBudget: bool)
    | Answers(overBudget: bool, scripts: nat, steered: bool, check: Check)
    | CallsTools(overBudget: bool, repeated: bool, mutates: bool, stop: Option<Cause>)

  /**
   * An iteration: whether time or money is spent when it begins, the script notices taken in
   * before and during the preparation of its request, whether files were touched, and the reply.
   */
  datatype Iteration = Iteration(exhausted: bool, notices: nat, lateNotices: nat, touches: bool, reply: Reply)

  /** The variables of the loop; `checked` lists the revisions that were verified, with the results. */
  datatype Loop = Loop(
    turns: int,
    mutationRevision: int,
    verifiedRevision: int,
    repairCycles: int,
    awaitingRepair: bool,
    finalizing: bool,
    invalidAnswers: int,
    overflowRetries: int,
    changed: bool,
    checked: seq<(int, bool)>)

  const START := Loop(0, 0, -1, 0, false, false, 0, 0, false, [])

  datatype Exit = Again | Leave(reason: StopReason)

  function FailedChecks(checked: seq<(int, bool)>): nat {
    if checked == [] then 0
    else FailedChecks(checked[..|checked| - 1]) + if checked[|checked| - 1].1 then 0 else 1
  }

  /** The verified revision, if any, is that of the last verification. */
  ghost predicate Verified(s: Loop) {
    if s.checked == [] then s.verifiedRevision == -1
    else s.verifiedRevision == s.checked[|s.checked| - 1].0 <= s.mutationRevision
  }

  ghost predicate Valid(config: Config, s: Loop) {
    && 0 <= s.turns <= Max(0, config.maxTurns)
    && 0 <= s.overflowRetries <= Max(0, config.maxOverflowRetries)
    && s.mutationRevision >= 0
    && Verified(s)
    && 0 <= s.repairCycles <= Max(0, config.maxRepairs)
    && s.repairCycles <= FailedChecks(s.checked)
  }

  /** Every recorded change has been verified: nothing was mutated after the last verification. */
  ghost predicate Settled(config: Config, s: Loop) {
    config.autoVerify && s.changed ==> s.checked != [] && s.verifiedRevision == s.mutationRevision
  }

  /** There are recorded changes that no verification covers. */
  predicate Unverified(config: Config, s: Loop) {
    config.autoVerify && s.changed && s.verifiedRevision != s.mutationRevision
  }

  /** The changes that an iteration which does not break off the run makes to the workspace. */
  function Mutations(i: Iteration): nat {
    i.notices + i.lateNotices +
    match i.reply
    case Answers(_, scripts, _, _) => scripts
    case CallsTools(_, _, mutates, _) => if mutates then 1 else 0
    case _ => 0
  }

  function AllMutations(environment: nat -> Iteration, n: nat): nat {
    if n == 0 then 0 else AllMutations(environment, n - 1) + Mutations(environment(n - 1))
  }

  /** No notice, script or tool call changes the workspace in the iteration. */
  predicate Quiet(i: Iteration) {
    && i.notices == 0 && i.lateNotices == 0
    && (i.reply.Answers? ==> i.reply.scripts == 0)
    && (i.reply.CallsTools? ==> !i.reply.mutates)
  }

  /** An answer was verified in iteration `v`, after its scripts had finished, and nothing changed since. */
  ghost predicate QuietSince(environment: nat -> Iteration, v: nat, n: nat) {
    v < n && environment(v).reply.Answers? && forall k :: v < k < n ==> Quiet(environment(k))
  }

  /** Some iteration touched the workspace. */
  ghost predicate Touched(environment: nat -> Iteration, n: nat) {
    exists k :: 0 <= k < n && environment(k).touches
  }

  lemma {:induction false} MutationsAddUp(environment: nat -> Iteration, m: nat, n: nat)
    requires m <= n
    ensures AllMutations(environment, m) <= AllMutations(environment, n)
    ensures AllMutations(environment, m) == AllMutations(environment, n) ==>
      forall k :: m <= k < n ==> Quiet(environment(k))
    decreases n
  {
    if m < n { MutationsAddUp(environment, m, n - 1); }
  }

  /** The verifications made were of the workspace as it was at the end of these iterations. */
  ghost predicate VerifiedAt(environment: nat -> Iteration, s: Loop, at: seq<nat>, n: nat) {
    && |at| == |s.checked|
    && forall q :: 0 <= q < |at| ==>
         && at[q] < n && environment(at[q]).reply.Answers?
         && s.checked[q] == (AllMutations(environment, at[q] + 1), environment(at[q]).reply.check.ok)
  }

  /** The state of the loop after `n` iterations of the environment that did not break off the run. */
  ghost predicate Follows(environment: nat -> Iteration, s: Loop, at: seq<nat>, n: nat) {
    && s.mutationRevision == AllMutations(environment, n)
    && (s.changed <==> Touched(environment, n))
    && VerifiedAt(environment, s, at, n)
  }

  /** What an iteration that does not break off the run does to the records of the loop. */
  predicate Records(s: Loop, i: Iteration, s': Loop) {
    && s'.mutationRevision == s.mutationRevision + Mutations(i)
    && s'.changed == (s.changed || i.touches)
    && (|| s'.checked == s.checked
        || (i.reply.Answers? && s'.checked == s.checked + [(s'.mutationRevision, i.reply.check.ok)]))
  }

  lemma {:induction false} RecordsFollow(
    environment: nat -> Iteration, s: Loop, at: seq<nat>, n: nat, s': Loop) returns (at': seq<nat>)
    requires Follows(environment, s, at, n) && Records(s, environment(n), s')
    ensures Follows(environment, s', at', n + 1)
  {
    at' := if s'.checked == s.checked then at else at + [n];
    assert Touched(environment, n + 1) <==> Touched(environment, n) || environment(n).touches by {
      if environment(n).touches { assert environment(n).touches; }
    }
    forall q | 0 <= q < |at'|
      ensures at'[q] < n + 1 && environment(at'[q]).reply.Answers?
      ensures s'.checked[q] == (AllMutations(environment, at'[q] + 1), environment(at'[q]).reply.check.ok)
    {
      if q < |at| { assert s'.checked[q] == s.checked[q]; }
    }
  }

  /** The loop has come closer to its end: a turn is used, or an overflow retry within one. */
  ghost predicate Progress(config: Config, before: Loop, after: Loop) {
    || before.turns < after.turns <= config.maxTurns
    || (before.turns == after.turns && before.overflowRetries < after.overflowRetries <= config.maxOverflowRetries)
  }

  /** Verify the current revision. */
  method Verify(config: Config, s: Loop, check: Check) returns (s': Loop)
    requires Valid(config, s)
    ensures Valid(config, s')
    ensures s' == s.(verifiedRevision := s.mutationRevision, checked := s.checked + [(s.mutationRevision, check.ok)])
    ensures FailedChecks(s'.checked) == FailedChecks(s.checked) + if check.ok then 0 else 1
  {
    var checked := s.checked + [(s.mutationRevision, check.ok)];
    assert checked[..|checked| - 1] == s.checked;
    return s.(verifiedRevision := s.mutationRevision, checked := checked);
  }

  /** `_handle_candidate_verification`: whether an answer ends the run or is sent back. */
  method HandleCandidate(config: Config, s: Loop, check: Check) returns (s': Loop, exit: Exit)
    requires Valid(config, s) && 0 < s.turns
    ensures Valid(config, s')
    ensures s'.turns == s.turns && s'.mutationRevision == s.mutationRevision && s'.changed == s.changed
    ensures exit == Leave(EndTurn) ==> Settled(config, s')
    ensures exit == Again ==>
      Unverified(config, s) && s.turns < config.maxTurns && (check.ok || s.repairCycles < config.maxRepairs)
    ensures exit == Leave(MaxTurns) <==>
      Unverified(config, s) && check.stop.None? && !check.lifecycleOnly && s.turns >= config.maxTurns
    ensures exit == Leave(EndTurn) && Unverified(config, s) && !check.lifecycleOnly ==>
      !check.ok && s.repairCycles >= config.maxRepairs
    ensures s'.repairCycles == s.repairCycles + if exit == Again && !check.ok then 1 else 0
    ensures s'.checked == s.checked || s'.checked == s.checked + [(s.mutationRevision, check.ok)]
    ensures forall cause :: exit == Leave(Cut(cause)) <==> Unverified(config, s) && check.stop == Some(cause)
    ensures s'.overflowRetries == s.overflowRetries
  {
    if !Unverified(config, s) {
      return s.(finalizing := false), Leave(EndTurn);
    }
    if check.stop.Some? {
      return s, Leave(Cut(check.stop.value));
    }
    s' := Verify(config, s, check);
    if check.lifecycleOnly {
      return s'.(awaitingRepair := false, finalizing := false), Leave(EndTurn);
    }
    var canContinue := s.turns < config.maxTurns;
    var canRepair := canContinue && s.repairCycles < config.maxRepairs;
    if (check.ok && canContinue) || (!check.ok && canRepair) {
      s' := s'.(
        repairCycles := s.repairCycles + (if check.ok then 0 else 1),
        awaitingRepair := !check.ok,
        finalizing := check.ok);
      return s', Again;
    }
    return s'.(finalizing := false), Leave(if canContinue then EndTurn else MaxTurns);
  }

  /** An answer without tool calls. */
  method Answer(config: Config, s: Loop, finalTurn: bool, scripts: nat, steered: bool, check: Check)
    returns (s': Loop, exit: Exit)
    requires Valid(config, s) && 0 < s.turns <= config.maxTurns && (finalTurn <==> s.turns == config.maxTurns)
    ensures Valid(config, s') && s'.turns == s.turns
    ensures exit == Leave(EndTurn) ==> Settled(config, s')
    ensures s'.mutationRevision == s.mutationRevision + scripts && s'.changed == s.changed
    ensures s'.overflowRetries == s.overflowRetries
    ensures s'.checked == s.checked || s'.checked == s.checked + [(s'.mutationRevision, check.ok)]
    ensures (scripts > 0 && !finalTurn) || steered ==> exit == Again && s'.checked == s.checked
  {
    s' := s.(mutationRevision := s.mutationRevision + scripts);
    if scripts > 0 && !finalTurn {
      return s'.(finalizing := false), Again;
    }
    if steered {
      return s'.(finalizing := false), Again;
    }
    s', exit := HandleCandidate(config, s', check);
  }

  /** What follows a completed response. */
  method Respond(config: Config, s: Loop, finalTurn: bool, reply: Reply) returns (s': Loop, exit: Exit)
    requires Valid(config, s) && 0 < s.turns <= config.maxTurns && (finalTurn <==> s.turns == config.maxTurns)
    requires !reply.Overflows? && !reply.Stops?
    ensures Valid(config, s') && s'.turns == s.turns
    ensures exit == Leave(EndTurn) ==> Settled(config, s') && reply.Answers?
    ensures exit == Again || exit == Leave(EndTurn) ==>
      Records(s, Iteration(false, 0, 0, false, reply), s') && s'.overflowRetries == 0
    ensures finalTurn && (reply.CallsTools? || reply.Incomplete?) ==> exit == Leave(MaxTurns)
    ensures reply.overBudget && !(finalTurn && (reply.CallsTools? || reply.Incomplete?)) ==>
      exit == Leave(Cut(OverBudget))
    ensures reply.Unusable? ==> (exit == Again <==> !reply.overBudget && !finalTurn && s.invalidAnswers < 2)
    ensures reply.Incomplete? && !finalTurn && !reply.overBudget ==> exit == Again
    ensures reply.CallsTools? && !finalTurn && !reply.overBudget ==>
      exit == if reply.repeated then Leave(Cut(Stuck))
              else if reply.stop.Some? then Leave(Cut(reply.stop.value)) else Again
  {
    s' := s.(overflowRetries := 0);
    var overBudget := reply.overBudget;
    match reply
    case Unusable(_) =>
      s' := s'.(invalidAnswers := s.invalidAnswers + 1);
      if overBudget || finalTurn || s'.invalidAnswers > 2 {
        return s', Leave(Cut(OverBudget));
      }
      return s', Again;
    case Incomplete(_) =>
      if finalTurn {
        return s', Leave(MaxTurns);
      }
      if overBudget {
        return s', Leave(Cut(OverBudget));
      }
      return s'.(invalidAnswers := 1), Again;
    case Answers(_, scripts, steered, check) =>
      s' := s'.(invalidAnswers := 0);
      if overBudget {
        return s', Leave(Cut(OverBudget));
      }
      s', exit := Answer(config, s', finalTurn, scripts, steered, check);
    case CallsTools(_, repeated, mutates, stop) =>
      if finalTurn {
        return s', Leave(MaxTurns);
      }
      if overBudget {
        return s', Leave(Cut(OverBudget));
      }
      if repeated {
        return s', Leave(Cut(Stuck));
      }
      if mutates {
        s' := s'.(mutationRevision := s.mutationRevision + 1, finalizing := false, awaitingRepair := false);
      }
      if stop.Some? {
        return s', Leave(Cut(stop.value));
      }
      return s', Again;
  }

  /** One iteration of the loop. */
  method TakeTurn(config: Config, s: Loop, i: Iteration) returns (s': Loop, exit: Exit)
    requires Valid(config, s)
    ensures Valid(config, s')
    ensures exit == Again ==> Progress(config, s, s')
    ensures exit == Leave(EndTurn) ==> Settled(config, s') && i.reply.Answers?
    ensures exit == Again || exit == Leave(EndTurn) ==> Records(s, i, s')
    ensures s.turns >= config.maxTurns ==> exit == Leave(MaxTurns) && s' == s
    ensures s.turns < config.maxTurns && i.exhausted ==> exit == Leave(Cut(OverBudget)) && s' == s
    ensures s.turns < config.maxTurns && !i.exhausted && i.reply.Overflows? ==>
      if s.overflowRetries < config.maxOverflowRetries
      then exit == Again && s'.turns == s.turns && s'.overflowRetries == s.overflowRetries + 1
      else exit == Leave(Cut(Failed))
    ensures s.turns < config.maxTurns && !i.exhausted && i.reply.Stops? ==> exit == Leave(Cut(i.reply.cause))
    ensures s.turns < config.maxTurns && !i.exhausted && !i.reply.Overflows? ==> s'.turns == s.turns + 1
    ensures s.turns + 1 == config.maxTurns && !i.exhausted && (i.reply.CallsTools? || i.reply.Incomplete?) ==>
      exit == Leave(MaxTurns)
  {
    if s.turns >= config.maxTurns {
      return s, Leave(MaxTurns);
    }
    if i.exhausted {
      return s, Leave(Cut(OverBudget));
    }
    s' := s.(
      turns := s.turns + 1,
      mutationRevision := s.mutationRevision + i.notices + i.lateNotices,
      changed := s.changed || i.touches);
    var finalTurn := s'.turns == config.maxTurns;
    if i.reply.Overflows? {
      if s.overflowRetries >= config.maxOverflowRetries {
        return s', Leave(Cut(Failed));
      }
      return s'.(overflowRetries := s.overflowRetries + 1, turns := s.turns), Again;
    }
    if i.reply.Stops? {
      return s', Leave(Cut(i.reply.cause));
    }
    s', exit := Respond(config, s', finalTurn, i.reply);
  }

  /** A settled loop was verified last after everything that changed the workspace. */
  lemma {:induction false} SettledIsQuiet(
    config: Config, environment: nat -> Iteration, s: Loop, at: seq<nat>, n: nat)
    requires Valid(config, s) && Settled(config, s) && config.autoVerify
    requires Follows(environment, s, at, n) && Touched(environment, n)
    ensures at != [] && QuietSince(environment, at[|at| - 1], n)
  {
    var v := at[|at| - 1];
    assert s.checked[|at| - 1].0 == AllMutations(environment, v + 1);
    MutationsAddUp(environment, v + 1, n);
  }

  /**
   * The loop ends in every environment. If it ends normally after an iteration that touched the
   * workspace and verification is automatic, then an answer was verified, and no notice, script
   * or tool call changed the workspace after the last verification. It never repairs more often
   * than the configuration allows, nor than checks failed.
   */
  method RunTurns(config: Config, environment: nat -> Iteration)
    returns (s: Loop, reason: StopReason, iterations: nat, ghost verifiedAt: seq<nat>)
    ensures Valid(config, s)
    ensures reason == EndTurn ==> iterations > 0 && environment(iterations - 1).reply.Answers?
    ensures reason == EndTurn ==> Follows(environment, s, verifiedAt, iterations)
    ensures reason == EndTurn && config.autoVerify && Touched(environment, iterations) ==>
      verifiedAt != [] && QuietSince(environment, verifiedAt[|verifiedAt| - 1], iterations)
    ensures reason == EndTurn && config.autoVerify && s.changed ==>
      && s.verifiedRevision == s.mutationRevision
      && s.checked != [] && s.checked[|s.checked| - 1].0 == s.mutationRevision
    ensures s.repairCycles <= Max(0, config.maxRepairs) && s.repairCycles <= FailedChecks(s.checked)
    ensures s.turns <= Max(0, config.maxTurns)
  {
    s, iterations, verifiedAt := START, 0, [];
    while true
      invariant Valid(config, s) && Follows(environment, s, verifiedAt, iterations)
      decreases Max(0, config.maxTurns) - s.turns, Max(0, config.maxOverflowRetries) - s.overflowRetries
    {
      ghost var before := s;
      var exit;
      s, exit := TakeTurn(config, s, environment(iterations));
      if exit == Again || exit == Leave(EndTurn) {
        verifiedAt := RecordsFollow(environment, before, verifiedAt, iterations, s);
      }
      iterations := iterations + 1;
      if exit.Leave? {
        if exit.reason == EndTurn && config.autoVerify && s.changed {
          SettledIsQuiet(config, environment, s, verifiedAt, iterations);
        }
        return s, exit.reason, iterations, verifiedAt;
      }
    }
  }
}
