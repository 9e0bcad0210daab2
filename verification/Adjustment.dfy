/**
 * Tightening the targets of a compaction until the request that carries its result fits: what
 * the retained messages keep of provider continuation state is only known after compacting.
 */
module Adjustment {
  import opened Wrappers
  import opened Transcript
  import opened Bundles
  import opened Compaction

  /** What a request reserves, apart from what it retains. */
  datatype Reserve = Reserve(
    target: int, bytes: int, state: Message -> nat, requestBytes: (string, Conversation) -> nat)

  const SUMMARY_CHARS := 18000
  const NO_TOOLS_TOKENS := 1

  function StateTokens(reserve: Reserve, ms: Conversation): nat {
    if ms == [] then 0 else reserve.state(ms[0]) + StateTokens(reserve, ms[1..])
  }

  /** The message target of a budget for these retained messages. */
  function MessageTarget(reserve: Reserve, ms: Conversation): int {
    Max(1, reserve.target - StateTokens(reserve, ms))
  }

  function RequestTokens(sizes: Sizes, content: string, retained: Conversation): nat {
    sizes.summary.tokens(content) + NO_TOOLS_TOKENS + Tokens(sizes, retained)
  }

  predicate TokensFit(sizes: Sizes, reserve: Reserve, outcome: Outcome)
    requires outcome.Compacted?
  {
    RequestTokens(sizes, outcome.artifact.content, outcome.recent) <= MessageTarget(reserve, outcome.recent)
  }

  function Excess(reserve: Reserve, outcome: Outcome): int
    requires outcome.Compacted?
  {
    reserve.requestBytes(outcome.artifact.content, outcome.recent) - reserve.bytes
  }

  predicate RequestFits(sizes: Sizes, reserve: Reserve, outcome: Outcome)
    requires outcome.Compacted?
  {
    TokensFit(sizes, reserve, outcome) && Excess(reserve, outcome) <= 0
  }

  predicate Positive(targets: Targets) { targets.tokens > 0 && targets.bytes > 0 }

  datatype Next = Done | Tighter(targets: Targets) | NoRoom | NoProgress

  /**
   * `_next_compaction_targets`. What does not fit gets strictly less, and the target of what
   * fits stays; a lack of progress is never reported.
   */
  function NextTargets(sizes: Sizes, reserve: Reserve, targets: Targets, outcome: Outcome): (next: Next)
    requires outcome.Compacted?
    ensures next.Done? <==> RequestFits(sizes, reserve, outcome)
    ensures next != NoProgress
    ensures next.Tighter? ==>
      && Positive(next.targets)
      && (if TokensFit(sizes, reserve, outcome) then next.targets.tokens == targets.tokens
          else next.targets.tokens < targets.tokens && next.targets.tokens <= MessageTarget(reserve, outcome.recent))
      && (if Excess(reserve, outcome) <= 0 then next.targets.bytes == targets.bytes
          else next.targets.bytes < targets.bytes)
    ensures Positive(targets) ==> (next.NoRoom? <==>
      || (!TokensFit(sizes, reserve, outcome) && targets.tokens == 1)
      || (Excess(reserve, outcome) > 0 && targets.bytes <= Excess(reserve, outcome)))
  {
    if RequestFits(sizes, reserve, outcome) then Done
    else
      var tokens :=
        if TokensFit(sizes, reserve, outcome) then targets.tokens
        else Min(targets.tokens - 1, MessageTarget(reserve, outcome.recent));
      var bytes :=
        if Excess(reserve, outcome) <= 0 then targets.bytes
        else Min(targets.bytes - 1, targets.bytes - Excess(reserve, outcome));
      if bytes <= 0 || tokens <= 0 then NoRoom
      else if Targets(tokens, bytes) == targets then NoProgress
      else Tighter(Targets(tokens, bytes))
  }

  // ---------------------------------------------------------------------------
  // The loop
  // ---------------------------------------------------------------------------

  /** A compaction of a request's messages, with everything but the targets. */
  datatype Job = Job(sizes: Sizes, reserve: Reserve, evidence: Evidence, ms: Conversation, keepRecent: int, force: bool)

  datatype Step = Step(targets: Targets, outcome: Outcome)

  function OptionsFor(targets: Targets): Options {
    Options(targets, SUMMARY_CHARS, targets.tokens, targets.bytes)
  }

  /** A step is the compaction for its targets. */
  ghost predicate Performed(job: Job, step: Step)
    requires Thorough(job.evidence)
  {
    && (step.outcome.Compacted? ==> SoundOutcome(job.sizes, OptionsFor(step.targets), job.ms, step.outcome))
    && (step.outcome.IllFormed? <==> !Grammar(job.ms))
    && (Grammar(job.ms) ==> exists bundles ::
          && IsBundling(job.ms, bundles)
          && Compacts(
               job.sizes, OptionsFor(step.targets), job.evidence, job.ms, bundles,
               Requested(0, job.keepRecent), job.force,
               step.outcome))
  }

  ghost predicate Follows(job: Job, step: Step, next: Step) {
    step.outcome.Compacted? && NextTargets(job.sizes, job.reserve, step.targets, step.outcome) == Tighter(next.targets)
  }

  /** The compactions made, each for the targets that the one before it asked for. */
  ghost predicate Adjusts(job: Job, first: Targets, steps: seq<Step>)
    requires Thorough(job.evidence)
  {
    && steps != [] && steps[0].targets == first
    && (forall i :: 0 <= i < |steps| ==> Performed(job, steps[i]))
    && (forall i :: 0 <= i < |steps| - 1 ==> Follows(job, steps[i], steps[i + 1]))
  }

  /** What the last compaction made comes to. */
  function Settled(job: Job, step: Step): Outcome {
    if step.outcome.Compacted? && !RequestFits(job.sizes, job.reserve, step.outcome) then TooLarge else step.outcome
  }

  /** The last compaction asks for tighter targets once more. */
  ghost predicate GivesUp(job: Job, step: Step) {
    step.outcome.Compacted? && NextTargets(job.sizes, job.reserve, step.targets, step.outcome).Tighter?
  }

  /**
   * Compact, and while the request does not fit compact again for tighter targets. A compaction
   * that is returned is sound for the first targets, and the request that carries it fits.
   */
  method AdjustTargets(job: Job, first: Targets) returns (outcome: Outcome, ghost steps: seq<Step>)
    requires Thorough(job.evidence)
    ensures outcome.Compacted? ==>
      SoundOutcome(job.sizes, OptionsFor(first), job.ms, outcome) && RequestFits(job.sizes, job.reserve, outcome)
    ensures outcome.IllFormed? <==> !Grammar(job.ms)
    ensures Adjusts(job, first, steps) && |steps| <= |job.ms| + 2
    ensures outcome == Settled(job, steps[|steps| - 1])
    ensures |steps| == |job.ms| + 2 || !GivesUp(job, steps[|steps| - 1])
  {
    var targets, adjustments := first, 0;
    outcome := Compact(job, targets);
    steps := [Step(targets, outcome)];
    while outcome.Compacted?
      invariant Adjusts(job, first, steps) && |steps| == adjustments + 1 && adjustments <= |job.ms| + 1
      invariant steps[|steps| - 1] == Step(targets, outcome)
      decreases |job.ms| + 1 - adjustments
    {
      var next := NextTargets(job.sizes, job.reserve, targets, outcome);
      if next.Done? {
        break;
      }
      adjustments := adjustments + 1;
      if next.NoRoom? || adjustments > |job.ms| + 1 {
        outcome := TooLarge;
        break;
      }
      targets := next.targets;
      outcome := Compact(job, targets);
      OneMore(job, first, steps, Step(targets, outcome));
      steps := steps + [Step(targets, outcome)];
    }
    AdjustedIsSound(job, first, steps);
  }

  lemma {:induction false} OneMore(job: Job, first: Targets, steps: seq<Step>, step: Step)
    requires Thorough(job.evidence) && Adjusts(job, first, steps)
    requires Performed(job, step) && Follows(job, steps[|steps| - 1], step)
    ensures Adjusts(job, first, steps + [step])
  {
    var more := steps + [step];
    forall i | 0 <= i < |more| ensures Performed(job, more[i]) {
      if i < |steps| { assert more[i] == steps[i]; }
    }
    forall i | 0 <= i < |more| - 1 ensures Follows(job, more[i], more[i + 1]) {
      if i < |steps| - 1 { assert Follows(job, steps[i], steps[i + 1]); }
    }
  }

  method Compact(job: Job, targets: Targets) returns (outcome: Outcome)
    requires Thorough(job.evidence)
    ensures Performed(job, Step(targets, outcome))
  {
    outcome := CompactMessages(job.sizes, OptionsFor(targets), job.evidence, job.ms, 0, job.keepRecent, job.force);
  }

  // ---------------------------------------------------------------------------
  // What the loop achieves
  // ---------------------------------------------------------------------------

  /** Targets only get tighter. */
  lemma {:induction false} TargetsTighten(job: Job, first: Targets, steps: seq<Step>, i: nat, j: nat)
    requires Thorough(job.evidence) && Adjusts(job, first, steps) && i <= j < |steps|
    ensures steps[j].targets.tokens <= steps[i].targets.tokens && steps[j].targets.bytes <= steps[i].targets.bytes
    ensures i < j ==> Positive(steps[j].targets) && steps[j].targets != steps[i].targets
    decreases j - i
  {
    if i < j {
      TargetsTighten(job, first, steps, i, j - 1);
      assert Follows(job, steps[j - 1], steps[j - 1 + 1]);
    }
  }

  lemma {:induction false} LooserFits(sizes: Sizes, tight: Targets, loose: Targets, ms: Conversation)
    requires tight == loose || (Positive(tight) && tight.tokens <= loose.tokens && tight.bytes <= loose.bytes)
    requires Fit(sizes, tight, ms)
    ensures Fit(sizes, loose, ms)
  {
  }

  /**
   * A compaction that the loop returns is sound for the targets it began with, and the request
   * that carries it fits.
   */
  lemma {:induction false} AdjustedIsSound(job: Job, first: Targets, steps: seq<Step>)
    requires Thorough(job.evidence) && Adjusts(job, first, steps)
    ensures
      var outcome := Settled(job, steps[|steps| - 1]);
      && (outcome.Compacted? ==>
        SoundOutcome(job.sizes, OptionsFor(first), job.ms, outcome) && RequestFits(job.sizes, job.reserve, outcome))
      && (outcome.IllFormed? <==> !Grammar(job.ms))
  {
    var last := steps[|steps| - 1];
    TargetsTighten(job, first, steps, 0, |steps| - 1);
    assert Performed(job, last);
    if last.outcome.Compacted? {
      LooserFits(job.sizes, last.targets, first, Messages(last.outcome));
    }
  }

  /** The conversation itself is returned only if nothing was compacted before. */
  lemma {:induction false} UntouchedAtOnce(job: Job, first: Targets, steps: seq<Step>)
    requires Thorough(job.evidence) && Adjusts(job, first, steps) && steps[|steps| - 1].outcome.Untouched?
    ensures |steps| == 1
  {
    if |steps| > 1 {
      var last := steps[|steps| - 1];
      TargetsTighten(job, first, steps, 0, |steps| - 1);
      assert Performed(job, last) && Performed(job, steps[0]) && Follows(job, steps[0], steps[0 + 1]);
      var a :| IsBundling(job.ms, a) && Compacts(
        job.sizes, OptionsFor(last.targets), job.evidence, job.ms, a,
        Requested(0, job.keepRecent), job.force, last.outcome);
      var b :| IsBundling(job.ms, b) && Compacts(
        job.sizes, OptionsFor(first), job.evidence, job.ms, b,
        Requested(0, job.keepRecent), job.force, steps[0].outcome);
      BundlingUnique(job.ms, a, b);
      RetainedIsCompacted(job, last.targets, a, last.outcome);
      LooserFits(job.sizes, last.targets, first, job.ms);
    }
  }

  /** Attempts are compactions, so an untouched conversation fitted. */
  lemma {:induction false} RetainedIsCompacted(job: Job, targets: Targets, bundles: seq<Bundle>, outcome: Outcome)
    requires Thorough(job.evidence) && outcome.Untouched?
    requires Compacts(
      job.sizes, OptionsFor(targets), job.evidence, job.ms, bundles, Requested(0, job.keepRecent), job.force, outcome)
    ensures !job.force && |bundles| <= Requested(0, job.keepRecent) + 1 && Fit(job.sizes, targets, job.ms)
  {
    var attempts := Attempts(job.sizes, OptionsFor(targets), job.evidence, job.ms, bundles);
    forall r: int ensures attempts(r) != Some(outcome) {
    }
  }

  // ---------------------------------------------------------------------------
  // Tokens alone cannot keep the loop from converging
  // ---------------------------------------------------------------------------

  /** A summary costs its text and its framing, and shorter diagnostics keep their continuation state. */
  ghost predicate Framed(job: Job) {
    && (forall text :: job.sizes.tokens(SummaryMessage(text)) == job.sizes.summary.tokens(text) + FRAMING_TOKENS)
    && (forall m, limit: nat :: job.reserve.state(Trimmed(m, limit)) == job.reserve.state(m))
  }

  ghost predicate Overruns(job: Job, step: Step) {
    step.outcome.Compacted? && !TokensFit(job.sizes, job.reserve, step.outcome)
  }

  /** A compaction within its token target makes a request within it. */
  lemma {:induction false} RequestWithinTarget(job: Job, step: Step)
    requires Thorough(job.evidence) && Framed(job) && Performed(job, step) && step.outcome.Compacted?
    requires step.targets.tokens > 0
    ensures RequestTokens(job.sizes, step.outcome.artifact.content, step.outcome.recent) < step.targets.tokens
  {
    var content, recent := step.outcome.artifact.content, step.outcome.recent;
    assert Messages(step.outcome)[0] == SummaryMessage(content) && Messages(step.outcome)[1..] == recent;
  }

  /**
   * Retained messages that exceed the token budget reserve strictly more continuation state
   * than all earlier ones that did.
   */
  lemma {:induction false} OverrunsReserveMore(job: Job, first: Targets, steps: seq<Step>, i: nat, j: nat)
    requires Thorough(job.evidence) && Framed(job) && Adjusts(job, first, steps) && i < j < |steps|
    requires Overruns(job, steps[i]) && Overruns(job, steps[j])
    ensures StateTokens(job.reserve, steps[j].outcome.recent) > StateTokens(job.reserve, steps[i].outcome.recent)
  {
    TargetsTighten(job, first, steps, i + 1, j);
    TargetsTighten(job, first, steps, i, j);
    assert Follows(job, steps[i], steps[i + 1]);
    assert Performed(job, steps[j]);
    RequestWithinTarget(job, steps[j]);
  }

  lemma {:induction false} TrimmingKeepsState(job: Job, ms: Conversation, limit: nat)
    requires Framed(job)
    ensures StateTokens(job.reserve, TrimmedAll(ms, limit)) == StateTokens(job.reserve, ms)
  {
    if ms != [] {
      TrimmingKeepsState(job, ms[1..], limit);
      assert TrimmedAll(ms, limit)[1..] == TrimmedAll(ms[1..], limit);
    }
  }

  lemma {:induction false} DiagnosingKeepsState(job: Job, targets: Targets, ms: Conversation, limits: seq<nat>)
    requires Framed(job)
    ensures StateTokens(job.reserve, Diagnosed(job.sizes, targets, ms, limits)) == StateTokens(job.reserve, ms)
    decreases |limits|
  {
    if limits != [] && !Fit(job.sizes, targets, ms) {
      TrimmingKeepsState(job, ms, limits[0]);
      DiagnosingKeepsState(job, targets, TrimmedAll(ms, limits[0]), limits[1..]);
    }
  }

  /** A compaction is one of the attempts, so it retains some of the bundles. */
  lemma {:induction false} CompactionRetains(
    sizes: Sizes, o: Options, evidence: Evidence, ms: Conversation, bundles: seq<Bundle>, requested: int, force: bool,
    outcome: Outcome)
    requires Thorough(evidence) && requested >= 1 && outcome.Compacted?
    requires Compacts(sizes, o, evidence, ms, bundles, requested, force, outcome)
    ensures
      var kept := outcome.artifact.retainedBundles;
      && kept <= |bundles| && (bundles != [] ==> 1 <= kept <= Max(1, |bundles| - 1))
      && outcome.recent == Recent(sizes, o, bundles, kept)
  {
    var r: int :| 1 <= r <= Cap(requested, |bundles|) &&
      Attempts(sizes, o, evidence, ms, bundles)(r) == Some(outcome);
    assert Attempt(sizes, o, evidence, ms, bundles, r) == Some(outcome);
    PackedRetains(
      sizes, o, ms, bundles, Last(|bundles|, r), Recent(sizes, o, bundles, Last(|bundles|, r)),
      Refitted(
        sizes, o, Recent(sizes, o, bundles, Last(|bundles|, r)),
        SummaryBytes(sizes, o, Recent(sizes, o, bundles, Last(|bundles|, r))),
        Renderer(
          sizes, o, Recent(sizes, o, bundles, Last(|bundles|, r)), evidence(Older(bundles, Last(|bundles|, r))))));
  }

  lemma {:induction false} PackedRetains(
    sizes: Sizes, o: Options, ms: Conversation, bundles: seq<Bundle>, kept: nat, recent: Conversation,
    r: Option<Rendering>)
    requires kept <= |bundles|
    ensures match Packed(sizes, o, ms, bundles, kept, recent, r)
            case None => true
            case Some(outcome) =>
              && outcome.Compacted? && outcome.recent == recent
              && outcome.artifact.retainedBundles == kept && outcome.artifact.compactedBundles + kept == |bundles|
  {
  }

  /** The number of retained bundles fixes the continuation state. */
  lemma {:induction false} KeptFixesState(job: Job, step: Step, bundles: seq<Bundle>)
    requires Thorough(job.evidence) && Framed(job) && Performed(job, step) && step.outcome.Compacted?
    requires IsBundling(job.ms, bundles)
    ensures
      var kept := step.outcome.artifact.retainedBundles;
      && kept <= |bundles| && (bundles != [] ==> 1 <= kept <= Max(1, |bundles| - 1))
      && StateTokens(job.reserve, step.outcome.recent) == StateTokens(job.reserve, Flatten(bundles[|bundles| - kept..]))
  {
    var o, requested := OptionsFor(step.targets), Requested(0, job.keepRecent);
    var other :| IsBundling(job.ms, other) && Compacts(
      job.sizes, o, job.evidence, job.ms, other, requested, job.force, step.outcome);
    BundlingUnique(job.ms, other, bundles);
    CompactionRetains(job.sizes, o, job.evidence, job.ms, bundles, requested, job.force, step.outcome);
    RecentKeepsState(job, o, bundles, step.outcome.artifact.retainedBundles);
  }

  lemma {:induction false} RecentKeepsState(job: Job, o: Options, bundles: seq<Bundle>, kept: nat)
    requires Framed(job) && kept <= |bundles|
    ensures StateTokens(job.reserve, Recent(job.sizes, o, bundles, kept)) ==
            StateTokens(job.reserve, Flatten(bundles[|bundles| - kept..]))
  {
    DiagnosingKeepsState(
      job, Targets(Share(o.targets.tokens), Share(o.targets.bytes)),
      Flatten(bundles[|bundles| - kept..]), DIAGNOSTIC_LIMITS);
  }

  lemma {:induction false} SameRetention(job: Job, a: Step, b: Step, bundles: seq<Bundle>)
    requires Thorough(job.evidence) && Framed(job)
    requires Performed(job, a) && Performed(job, b) && IsBundling(job.ms, bundles)
    requires a.outcome.Compacted? && b.outcome.Compacted?
    ensures a.outcome.artifact.retainedBundles == b.outcome.artifact.retainedBundles ==>
      StateTokens(job.reserve, a.outcome.recent) == StateTokens(job.reserve, b.outcome.recent)
  {
    KeptFixesState(job, a, bundles);
    KeptFixesState(job, b, bundles);
  }

  /** The steps that exceed the token budget. */
  ghost function Overrun(job: Job, steps: seq<Step>): set<nat> {
    set i: nat | i < |steps| && Overruns(job, steps[i])
  }

  /** The numbers of bundles that they retain. */
  ghost function Retentions(job: Job, steps: seq<Step>): set<nat> {
    set i: nat | i in Overrun(job, steps) :: steps[i].outcome.artifact.retainedBundles
  }

  /** No two compactions that exceed the token budget retain equally many bundles. */
  lemma {:induction false} RetentionsDiffer(
    job: Job, first: Targets, steps: seq<Step>, bundles: seq<Bundle>, i: nat, j: nat)
    requires Thorough(job.evidence) && Framed(job) && Adjusts(job, first, steps) && IsBundling(job.ms, bundles)
    requires i < j < |steps| && Overruns(job, steps[i]) && Overruns(job, steps[j])
    ensures steps[i].outcome.artifact.retainedBundles != steps[j].outcome.artifact.retainedBundles
  {
    OverrunsReserveMore(job, first, steps, i, j);
    assert Performed(job, steps[i]) && Performed(job, steps[j]);
    SameRetention(job, steps[i], steps[j], bundles);
  }

  /** Distinct images are as many as their origins. */
  lemma {:induction false} ImagesCount(origins: set<nat>, images: set<nat>, image: nat -> nat)
    requires images == set i | i in origins :: image(i)
    requires forall i, j :: i in origins && j in origins && i != j ==> image(i) != image(j)
    ensures |images| == |origins|
  {
    if origins != {} {
      var i :| i in origins;
      assert images - {image(i)} == set j | j in origins - {i} :: image(j);
      ImagesCount(origins - {i}, images - {image(i)}, image);
    }
  }

  lemma {:induction false} BetweenCount(s: set<nat>, low: nat, high: nat)
    requires low <= high + 1 && forall k :: k in s ==> low <= k <= high
    ensures |s| <= high + 1 - low
    decreases high + 1 - low
  {
    if low == high + 1 {
      assert s == {};
    } else {
      BetweenCount(s - {low}, low + 1, high);
    }
  }

  /** At most as many compactions exceed the token budget as there are ways to retain bundles. */
  lemma {:induction false} OverrunsAreFew(job: Job, first: Targets, steps: seq<Step>, bundles: seq<Bundle>)
    requires Thorough(job.evidence) && Framed(job) && Adjusts(job, first, steps) && IsBundling(job.ms, bundles)
    ensures |Overrun(job, steps)| <= Max(1, |bundles| - 1)
  {
    var image: nat -> nat := (i: nat) =>
      if i < |steps| && steps[i].outcome.Compacted? then steps[i].outcome.artifact.retainedBundles else 0;
    var origins, images := Overrun(job, steps), Retentions(job, steps);
    forall i, j | i in origins && j in origins && i != j ensures image(i) != image(j) {
      RetentionsDiffer(job, first, steps, bundles, Min(i, j), Max(i, j));
    }
    ImagesCount(origins, images, image);
    forall k | k in images ensures if bundles == [] then k == 0 else 1 <= k <= Max(1, |bundles| - 1) {
      var i :| i in origins && image(i) == k;
      assert Performed(job, steps[i]);
      KeptFixesState(job, steps[i], bundles);
    }
    if bundles == [] {
      BetweenCount(images, 0, 0);
    } else {
      BetweenCount(images, 1, Max(1, |bundles| - 1));
    }
  }

  lemma {:induction false} BundlesAreFew(bundles: seq<Bundle>)
    requires forall k :: 0 <= k < |bundles| ==> Shaped(bundles[k])
    ensures |bundles| <= |Flatten(bundles)|
  {
    if bundles != [] {
      FirstNotTool([bundles[0]]);
      BundlesAreFew(bundles[1..]);
    }
  }

  ghost function Below(n: nat): (s: set<nat>)
    ensures |s| == n && forall i: nat :: i in s <==> i < n
  {
    if n == 0 then {} else Below(n - 1) + {n - 1}
  }

  lemma {:induction false} AllOverrun(job: Job, steps: seq<Step>)
    ensures (forall i :: 0 <= i < |steps| ==> Overruns(job, steps[i])) ==> |Overrun(job, steps)| == |steps|
  {
    if forall i :: 0 <= i < |steps| ==> Overruns(job, steps[i]) {
      assert Overrun(job, steps) == Below(|steps|);
    }
  }

  /** A run that gives up for want of convergence tries a request that is within its token budget. */
  lemma {:induction false} SomeTokensFit(job: Job, first: Targets, steps: seq<Step>, bundles: seq<Bundle>)
    requires Thorough(job.evidence) && Framed(job) && Adjusts(job, first, steps) && IsBundling(job.ms, bundles)
    requires |steps| == |job.ms| + 2
    ensures exists i :: 0 <= i < |steps| && !Overruns(job, steps[i])
  {
    OverrunsAreFew(job, first, steps, bundles);
    BundlesAreFew(bundles);
    AllOverrun(job, steps);
  }

  lemma {:induction false} StepsHaveABundling(job: Job, step: Step) returns (bundles: seq<Bundle>)
    requires Thorough(job.evidence) && Performed(job, step) && step.outcome.Compacted?
    ensures IsBundling(job.ms, bundles)
  {
    bundles :| IsBundling(job.ms, bundles) && Compacts(
      job.sizes, OptionsFor(step.targets), job.evidence, job.ms, bundles, Requested(0, job.keepRecent), job.force,
      step.outcome);
  }

  /** A compaction that is followed by another one, or that the loop gives up on, makes no request that fits. */
  lemma {:induction false} NoStepFits(job: Job, first: Targets, steps: seq<Step>, i: nat)
    requires Thorough(job.evidence) && Adjusts(job, first, steps) && GivesUp(job, steps[|steps| - 1]) && i < |steps|
    ensures steps[i].outcome.Compacted? && !RequestFits(job.sizes, job.reserve, steps[i].outcome)
  {
    if i < |steps| - 1 { assert Follows(job, steps[i], steps[i + 1]); }
  }

  /**
   * The loop gives up for want of convergence only if some request it tried was within its
   * token budget and exceeded its bytes: tokens alone always converge.
   */
  lemma {:induction false} OnlyBytesDiverge(job: Job, first: Targets, steps: seq<Step>)
    requires Thorough(job.evidence) && Framed(job) && Adjusts(job, first, steps)
    requires |steps| == |job.ms| + 2 && GivesUp(job, steps[|steps| - 1])
    ensures exists i ::
      && 0 <= i < |steps| && steps[i].outcome.Compacted?
      && !Overruns(job, steps[i]) && Excess(job.reserve, steps[i].outcome) > 0
  {
    assert Performed(job, steps[0]);
    NoStepFits(job, first, steps, 0);
    var bundles := StepsHaveABundling(job, steps[0]);
    SomeTokensFit(job, first, steps, bundles);
    var i :| 0 <= i < |steps| && !Overruns(job, steps[i]);
    NoStepFits(job, first, steps, i);
  }

  // ---------------------------------------------------------------------------
  // The numbers
  // ---------------------------------------------------------------------------

  lemma {:induction false} StateTokensAdd(reserve: Reserve, a: Conversation, b: Conversation)
    ensures StateTokens(reserve, a + b) == StateTokens(reserve, a) + StateTokens(reserve, b)
  {
    if a == [] {
      assert a + b == b;
    } else {
      assert (a + b)[0] == a[0] && (a + b)[1..] == a[1..] + b;
      StateTokensAdd(reserve, a[1..], b);
    }
  }

  /**
   * A request fits exactly if the tokens of its summary and retained messages are within what the
   * continuation state of those leaves of the target, or within one, and its bytes within theirs.
   */
  lemma {:induction false} WhenRequestsFit(sizes: Sizes, reserve: Reserve, outcome: Outcome)
    requires outcome.Compacted?
    ensures
      var content, recent := outcome.artifact.content, outcome.recent;
      var tokens := sizes.summary.tokens(content) + 1 + Tokens(sizes, recent);
      RequestFits(sizes, reserve, outcome) <==>
        && (tokens <= 1 || tokens + StateTokens(reserve, recent) <= reserve.target)
        && reserve.requestBytes(content, recent) <= reserve.bytes
  {
  }
}
