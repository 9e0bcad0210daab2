/**
 * Compacting a conversation: a summary of the older bundles followed by the recent ones.
 * Token and byte sizes of messages are arbitrary; ratios are exact.
 */
module Compaction {
  import opened Wrappers
  import opened Transcript
  import opened Bundles
  import Pruning
  import Summary
  import Text

  /** The estimators of messages, and the summary's own. */
  datatype Sizes = Sizes(tokens: Message -> nat, bytes: Conversation -> nat, summary: Summary.Measure)

  const FRAMING_TOKENS := 12
  const DIAGNOSTIC_LIMITS := [4000, 2000, 1000, 500, 200]

  function Tokens(sizes: Sizes, ms: Conversation): nat {
    if ms == [] then 0 else sizes.tokens(ms[0]) + Tokens(sizes, ms[1..])
  }

  /** Targets of zero or less are no targets. */
  datatype Targets = Targets(tokens: int, bytes: int)

  predicate Fit(sizes: Sizes, targets: Targets, ms: Conversation) {
    && (targets.tokens <= 0 || Tokens(sizes, ms) <= targets.tokens)
    && (targets.bytes <= 0 || sizes.bytes(ms) <= targets.bytes)
  }

  // ---------------------------------------------------------------------------
  // Diagnostics
  // ---------------------------------------------------------------------------

  function Trimmed(m: Message, limit: nat): Message {
    if m.role.Tool? && |m.content| > limit
    then Pruning.Compacted(m, Text.Tail(m.content, limit), "diagnostic_tail") else m
  }

  function TrimmedAll(ms: Conversation, limit: nat): (r: Conversation)
    ensures |r| == |ms| && forall i :: 0 <= i < |ms| ==> r[i] == Trimmed(ms[i], limit)
  {
    seq(|ms|, i requires 0 <= i < |ms| => Trimmed(ms[i], limit))
  }

  /** The first candidate that fits, or the last one. */
  function Diagnosed(sizes: Sizes, targets: Targets, ms: Conversation, limits: seq<nat>): Conversation
    decreases |limits|
  {
    if limits == [] || Fit(sizes, targets, ms) then ms
    else Diagnosed(sizes, targets, TrimmedAll(ms, limits[0]), limits[1..])
  }

  method TrimAll(ms: Conversation, limit: nat) returns (output: Conversation)
    ensures output == TrimmedAll(ms, limit)
  {
    output := ms;
    for index := 0 to |output|
      invariant |output| == |ms|
      invariant forall i :: 0 <= i < index ==> output[i] == Trimmed(ms[i], limit)
      invariant forall i :: index <= i < |ms| ==> output[i] == ms[i]
    {
      var message := output[index];
      if message.role.Tool? && |message.content| > limit {
        output := output[index := Pruning.Compacted(message, Text.Tail(message.content, limit), "diagnostic_tail")];
      }
    }
  }

  /** `_shrink_diagnostic_messages`. */
  method ShrinkDiagnostics(sizes: Sizes, targets: Targets, ms: Conversation) returns (output: Conversation)
    ensures output == Diagnosed(sizes, targets, ms, DIAGNOSTIC_LIMITS)
  {
    output := ms;
    var limits: seq<nat> := DIAGNOSTIC_LIMITS;
    for round := 0 to |limits|
      invariant Diagnosed(sizes, targets, ms, limits) == Diagnosed(sizes, targets, output, limits[round..])
    {
      if Fit(sizes, targets, output) {
        return;
      }
      assert limits[round..][0] == limits[round] && limits[round..][1..] == limits[round + 1..];
      output := TrimAll(output, limits[round]);
    }
  }

  /** Shrinking diagnostics rewrites the contents of tool results, and nothing that the grammar sees. */
  lemma {:induction false} DiagnosticsKeepShape(sizes: Sizes, targets: Targets, ms: Conversation, limits: seq<nat>)
    ensures SameShapes(ms, Diagnosed(sizes, targets, ms, limits))
    ensures forall i :: 0 <= i < |ms| && !ms[i].role.Tool? ==> Diagnosed(sizes, targets, ms, limits)[i] == ms[i]
    decreases |limits|
  {
    if limits != [] && !Fit(sizes, targets, ms) {
      DiagnosticsKeepShape(sizes, targets, TrimmedAll(ms, limits[0]), limits[1..]);
    }
  }

  // ---------------------------------------------------------------------------
  // One attempt
  // ---------------------------------------------------------------------------

  datatype Options = Options(targets: Targets, chars: int, tokens: int, bytes: int)

  /** Space for the recent messages when a single bundle is kept. */
  function Share(target: int): int {
    if target == 0 then 0 else Max(1, target * 6 / 10)
  }

  function Recent(sizes: Sizes, o: Options, bundles: seq<Bundle>, kept: nat): Conversation
    requires kept <= |bundles|
  {
    var recent := Flatten(bundles[|bundles| - kept..]);
    if (o.targets.tokens > 0 || o.targets.bytes > 0) && kept <= 1
    then Diagnosed(sizes, Targets(Share(o.targets.tokens), Share(o.targets.bytes)), recent, DIAGNOSTIC_LIMITS)
    else recent
  }

  function SummaryMessage(content: string): Message {
    Message("", System, content, [], None, None, false, NO_METADATA)
  }

  function Candidate(content: string, recent: Conversation): Conversation {
    [SummaryMessage(content)] + recent
  }

  function SummaryTokens(sizes: Sizes, o: Options, recent: Conversation): int {
    if o.targets.tokens > 0 then
      var available := Max(1, o.targets.tokens - Tokens(sizes, recent) - FRAMING_TOKENS);
      if o.tokens > 0 then Min(o.tokens, available) else available
    else o.tokens
  }

  function SummaryBytes(sizes: Sizes, o: Options, recent: Conversation): (bytes: int)
    ensures o.targets.bytes > 0 ==> bytes > 0
  {
    if o.targets.bytes > 0 then
      var available := Max(1, o.targets.bytes - sizes.bytes(Candidate("", recent)));
      if o.bytes > 0 then Min(o.bytes, available) else available
    else o.bytes
  }

  /** The text of a summary and its sections. */
  type Rendering = (string, Summary.Sections)

  /** The summary for each byte limit. */
  ghost function Renderer(
    sizes: Sizes, o: Options, recent: Conversation, sections: Summary.Sections): int -> Option<Rendering>
    requires Summary.Complete(sections)
  {
    bytes =>
      match Summary.Shrunk(sizes.summary, Summary.Limits(o.chars, SummaryTokens(sizes, o, recent), bytes), sections)
      case None => None
      case Some(s) => Some((Summary.Framed(sizes.summary, s), s))
  }

  /** The byte limit of the next rendering, for one that is too large by some bytes. */
  function NextBytes(sizes: Sizes, o: Options, content: string, recent: Conversation, bytes: int): int {
    var smaller := sizes.summary.bytes(content) - Max(1, sizes.bytes(Candidate(content, recent)) - o.targets.bytes);
    if bytes > 0 then Min(smaller, bytes - 1) else smaller
  }

  /** Render, and while the whole result is too large in bytes render again with less. */
  ghost function Refitted(
    sizes: Sizes, o: Options, recent: Conversation, bytes: int, render: int -> Option<Rendering>): Option<Rendering>
    requires o.targets.bytes > 0 ==> bytes > 0
    decreases bytes
  {
    var r := render(bytes);
    if r.None? || o.targets.bytes <= 0 || sizes.bytes(Candidate(r.value.0, recent)) <= o.targets.bytes then r
    else
      var next := NextBytes(sizes, o, r.value.0, recent, bytes);
      if next <= 0 then None else Refitted(sizes, o, recent, next, render)
  }

  /** The evidence of a conversation, given its older part. */
  type Evidence = Conversation -> Summary.Sections

  ghost predicate Thorough(evidence: Evidence) {
    forall older :: Summary.Complete(evidence(older))
  }

  /** Python slices: asking for more than there are gives all. */
  function Last(bundles: nat, retained: int): (kept: nat)
    ensures kept <= bundles
  {
    Max(0, Min(retained, bundles))
  }

  function Older(bundles: seq<Bundle>, kept: nat): Conversation
    requires kept <= |bundles|
  {
    Flatten(bundles[..|bundles| - kept])
  }

  /** The byte-refit loop. */
  method RenderToFit(sizes: Sizes, o: Options, recent: Conversation, sections: Summary.Sections)
    returns (r: Option<Rendering>)
    requires Summary.Complete(sections)
    ensures r == Refitted(sizes, o, recent, SummaryBytes(sizes, o, recent), Renderer(sizes, o, recent, sections))
  {
    ghost var render := Renderer(sizes, o, recent, sections);
    var tokens, bytes := SummaryTokens(sizes, o, recent), SummaryBytes(sizes, o, recent);
    r := Summary.RenderSummary(sizes.summary, Summary.Limits(o.chars, tokens, bytes), sections);
    while r.Some? && o.targets.bytes > 0 && sizes.bytes(Candidate(r.value.0, recent)) > o.targets.bytes
      invariant o.targets.bytes > 0 ==> bytes > 0
      invariant r == render(bytes)
      invariant Refitted(sizes, o, recent, SummaryBytes(sizes, o, recent), render) ==
                Refitted(sizes, o, recent, bytes, render)
      decreases bytes
    {
      var next := NextBytes(sizes, o, r.value.0, recent, bytes);
      if next <= 0 {
        return None;
      }
      bytes := next;
      r := Summary.RenderSummary(sizes.summary, Summary.Limits(o.chars, tokens, bytes), sections);
    }
  }

  // ---------------------------------------------------------------------------
  // Compaction
  // ---------------------------------------------------------------------------

  /** A summary, with what it was made from. */
  datatype Artifact = Artifact(
    content: string,
    sections: Summary.Sections,
    sourceIds: seq<string>,
    compactedIds: seq<string>,
    compactedBundles: nat,
    retainedBundles: nat)

  datatype Outcome =
    | Untouched(messages: Conversation)
    | Compacted(artifact: Artifact, recent: Conversation)
    | IllFormed(error: OrderError)
    | TooLarge

  function Messages(outcome: Outcome): Conversation
    requires outcome.Untouched? || outcome.Compacted?
  {
    match outcome
    case Untouched(messages) => messages
    case Compacted(artifact, recent) => Candidate(artifact.content, recent)
  }

  function Requested(keepBundles: int, keepRecent: int): int {
    if keepBundles != 0 then keepBundles else Max(1, keepRecent)
  }

  /** The most bundles that a compaction of this many may keep. */
  function Cap(requested: int, bundles: nat): int {
    Min(requested, Max(1, bundles - 1))
  }

  /** The result of an attempt, if its summary could be rendered and all of it fits. */
  function Packed(
    sizes: Sizes, o: Options, ms: Conversation, bundles: seq<Bundle>, kept: nat, recent: Conversation,
    r: Option<Rendering>): Option<Outcome>
    requires kept <= |bundles|
  {
    if r.None? || !Fit(sizes, o.targets, Candidate(r.value.0, recent)) then None
    else Some(Compacted(
      Artifact(
        r.value.0, r.value.1, MessageIds(ms), MessageIds(Older(bundles, kept)), |bundles| - kept, kept), recent))
  }

  /** Keep the last bundles, if the result then fits. */
  ghost function Attempt(
    sizes: Sizes, o: Options, evidence: Evidence, ms: Conversation, bundles: seq<Bundle>, retained: int)
    : Option<Outcome>
    requires Thorough(evidence)
  {
    var kept := Last(|bundles|, retained);
    var recent := Recent(sizes, o, bundles, kept);
    var render := Renderer(sizes, o, recent, evidence(Older(bundles, kept)));
    Packed(sizes, o, ms, bundles, kept, recent, Refitted(sizes, o, recent, SummaryBytes(sizes, o, recent), render))
  }

  ghost function Attempts(sizes: Sizes, o: Options, evidence: Evidence, ms: Conversation, bundles: seq<Bundle>)
    : int -> Option<Outcome>
    requires Thorough(evidence)
  {
    retained => Attempt(sizes, o, evidence, ms, bundles, retained)
  }

  /** The first success, counting down. */
  ghost function FirstSuccess(attempts: int -> Option<Outcome>, retained: int): Outcome
    decreases retained
  {
    if retained < 1 then TooLarge
    else if attempts(retained).Some? then attempts(retained).value
    else FirstSuccess(attempts, retained - 1)
  }

  /** The outcome of the attempt that retains the most, among those up to the cap. */
  ghost predicate RetainsTheMost(attempts: int -> Option<Outcome>, cap: int, outcome: Outcome) {
    || (exists r: int ::
          && 1 <= r <= cap && attempts(r) == Some(outcome)
          && forall more: int :: r < more <= cap ==> attempts(more) == None)
    || (outcome == TooLarge && forall r: int :: 1 <= r <= cap ==> attempts(r) == None)
  }

  lemma {:induction false} FirstSuccessRetainsTheMost(attempts: int -> Option<Outcome>, retained: int, cap: int)
    requires retained <= cap && forall r: int :: 1 <= r && retained < r <= cap ==> attempts(r) == None
    ensures RetainsTheMost(attempts, cap, FirstSuccess(attempts, retained))
    decreases retained
  {
    if retained >= 1 {
      if attempts(retained).None? {
        FirstSuccessRetainsTheMost(attempts, retained - 1, cap);
      }
    }
  }

  /** The messages that are kept as they are, or with shorter diagnostics. */
  method RecentMessages(sizes: Sizes, o: Options, bundles: seq<Bundle>, kept: nat) returns (recent: Conversation)
    requires kept <= |bundles|
    ensures recent == Recent(sizes, o, bundles, kept)
  {
    recent := Flatten(bundles[|bundles| - kept..]);
    if (o.targets.tokens > 0 || o.targets.bytes > 0) && kept <= 1 {
      recent := ShrinkDiagnostics(sizes, Targets(Share(o.targets.tokens), Share(o.targets.bytes)), recent);
    }
  }

  /** One attempt of the loop. */
  method TryRetaining(
    sizes: Sizes, o: Options, evidence: Evidence, ms: Conversation, bundles: seq<Bundle>, retained: int)
    returns (outcome: Option<Outcome>)
    requires Thorough(evidence)
    ensures outcome == Attempt(sizes, o, evidence, ms, bundles, retained)
  {
    var kept := Last(|bundles|, retained);
    var recent := RecentMessages(sizes, o, bundles, kept);
    var rendered := RenderToFit(sizes, o, recent, evidence(Older(bundles, kept)));
    outcome := Packed(sizes, o, ms, bundles, kept, recent, rendered);
  }

  /** The loop that retains fewer and fewer bundles. */
  method Search(sizes: Sizes, o: Options, evidence: Evidence, ms: Conversation, bundles: seq<Bundle>, cap: int)
    returns (outcome: Outcome)
    requires Thorough(evidence)
    ensures outcome == FirstSuccess(Attempts(sizes, o, evidence, ms, bundles), cap)
  {
    ghost var attempts := Attempts(sizes, o, evidence, ms, bundles);
    var retained := cap;
    while retained >= 1
      invariant FirstSuccess(attempts, cap) == FirstSuccess(attempts, retained)
      decreases retained
    {
      var result := TryRetaining(sizes, o, evidence, ms, bundles, retained);
      assert attempts(retained) == result;
      if result.Some? {
        return result.value;
      }
      retained := retained - 1;
    }
    return TooLarge;
  }

  // ---------------------------------------------------------------------------
  // What a compaction keeps
  // ---------------------------------------------------------------------------

  lemma {:induction false} IdsConcat(a: Conversation, b: Conversation)
    ensures MessageIds(a + b) == MessageIds(a) + MessageIds(b)
  {
  }

  lemma {:induction false} ShapeKeepsIds(a: Conversation, b: Conversation)
    requires SameShapes(a, b)
    ensures MessageIds(a) == MessageIds(b)
  {
    forall i | 0 <= i < |a| ensures a[i].id == b[i].id { assert SameShape(a[i], b[i]); }
  }

  /** The recent part is a suffix of the bundles, of which only diagnostics may be shortened. */
  lemma {:induction false} RecentIsASuffix(sizes: Sizes, o: Options, bundles: seq<Bundle>, kept: nat)
    requires kept <= |bundles|
    ensures
      var suffix, recent := Flatten(bundles[|bundles| - kept..]), Recent(sizes, o, bundles, kept);
      && SameShapes(suffix, recent)
      && (forall i :: 0 <= i < |suffix| && !suffix[i].role.Tool? ==> recent[i] == suffix[i])
      && (kept > 1 ==> recent == suffix)
  {
    DiagnosticsKeepShape(
      sizes, Targets(Share(o.targets.tokens), Share(o.targets.bytes)),
      Flatten(bundles[|bundles| - kept..]), DIAGNOSTIC_LIMITS);
  }

  /** Nothing is lost or split by a compaction, and its result fits. */
  ghost predicate SoundOutcome(sizes: Sizes, o: Options, ms: Conversation, outcome: Outcome) {
    && outcome.Compacted?
    && outcome.artifact.sourceIds == MessageIds(ms)
    && outcome.artifact.compactedIds + MessageIds(outcome.recent) == MessageIds(ms)
    && Grammar(outcome.recent)
    && Fit(sizes, o.targets, Messages(outcome))
  }

  lemma {:induction false} RecentIsSound(sizes: Sizes, o: Options, ms: Conversation, bundles: seq<Bundle>, kept: nat)
    requires Grammar(ms) && IsBundling(ms, bundles) && kept <= |bundles|
    ensures Grammar(Recent(sizes, o, bundles, kept))
    ensures MessageIds(Older(bundles, kept)) + MessageIds(Recent(sizes, o, bundles, kept)) == MessageIds(ms)
  {
    var suffix := Flatten(bundles[|bundles| - kept..]);
    SuffixIsGrammatical(ms, bundles, |bundles| - kept);
    RecentIsASuffix(sizes, o, bundles, kept);
    ShapeKeepsIds(suffix, Recent(sizes, o, bundles, kept));
    IdsConcat(Older(bundles, kept), suffix);
    GrammarIgnoresContents(suffix, Recent(sizes, o, bundles, kept));
  }

  lemma {:induction false} PackedIsSound(
    sizes: Sizes, o: Options, ms: Conversation, bundles: seq<Bundle>, kept: nat, recent: Conversation,
    r: Option<Rendering>)
    requires kept <= |bundles| && Grammar(recent)
    requires MessageIds(Older(bundles, kept)) + MessageIds(recent) == MessageIds(ms)
    ensures var p := Packed(sizes, o, ms, bundles, kept, recent, r);
      p.Some? ==> SoundOutcome(sizes, o, ms, p.value)
  {
  }

  /**
   * What an attempt compacts and retains: the compacted ids followed by the retained ids are
   * the ids of the source, the retained messages are well-formed, and the result fits.
   */
  lemma {:induction false} AttemptIsSound(
    sizes: Sizes, o: Options, evidence: Evidence, ms: Conversation, bundles: seq<Bundle>, retained: int)
    requires Thorough(evidence) && Grammar(ms) && IsBundling(ms, bundles)
    ensures match Attempt(sizes, o, evidence, ms, bundles, retained)
            case None => true
            case Some(outcome) => SoundOutcome(sizes, o, ms, outcome)
  {
    var kept := Last(|bundles|, retained);
    var recent := Recent(sizes, o, bundles, kept);
    RecentIsSound(sizes, o, ms, bundles, kept);
    var render := Renderer(sizes, o, recent, evidence(Older(bundles, kept)));
    PackedIsSound(
      sizes, o, ms, bundles, kept, recent, Refitted(sizes, o, recent, SummaryBytes(sizes, o, recent), render));
  }

  lemma {:induction false} MostIsSound(
    sizes: Sizes, o: Options, evidence: Evidence, ms: Conversation, bundles: seq<Bundle>, cap: int, outcome: Outcome)
    requires Thorough(evidence) && Grammar(ms) && IsBundling(ms, bundles) && outcome.Compacted?
    requires RetainsTheMost(Attempts(sizes, o, evidence, ms, bundles), cap, outcome)
    ensures SoundOutcome(sizes, o, ms, outcome)
  {
    var r: int :| 1 <= r <= cap && Attempts(sizes, o, evidence, ms, bundles)(r) == Some(outcome);
    AttemptIsSound(sizes, o, evidence, ms, bundles, r);
  }

  /** What a compaction does: nothing if all fits already, and else it retains the most bundles it can. */
  ghost predicate Compacts(
    sizes: Sizes, o: Options, evidence: Evidence, ms: Conversation, bundles: seq<Bundle>, requested: int, force: bool,
    outcome: Outcome)
    requires Thorough(evidence)
  {
    if !force && |bundles| <= requested + 1 && Fit(sizes, o.targets, ms) then outcome == Untouched(ms)
    else RetainsTheMost(Attempts(sizes, o, evidence, ms, bundles), Cap(requested, |bundles|), outcome)
  }

  /** `compact_messages`. */
  method CompactMessages(
    sizes: Sizes, o: Options, evidence: Evidence, ms: Conversation, keepBundles: int, keepRecent: int, force: bool)
    returns (outcome: Outcome)
    requires Thorough(evidence)
    ensures outcome.Compacted? ==> SoundOutcome(sizes, o, ms, outcome)
    ensures outcome.IllFormed? <==> !Grammar(ms)
    ensures Grammar(ms) ==> exists bundles ::
      && IsBundling(ms, bundles)
      && Compacts(sizes, o, evidence, ms, bundles, Requested(keepBundles, keepRecent), force, outcome)
  {
    var bundled := BundleConversation(ms);
    if bundled.Failure? {
      return IllFormed(bundled.error);
    }
    var bundles, requested := bundled.value, Requested(keepBundles, keepRecent);
    if !force && |bundles| <= requested + 1 && Fit(sizes, o.targets, ms) {
      return Untouched(ms);
    }
    var cap := Cap(requested, |bundles|);
    outcome := Search(sizes, o, evidence, ms, bundles, cap);
    FirstSuccessRetainsTheMost(Attempts(sizes, o, evidence, ms, bundles), cap, cap);
    if outcome.Compacted? {
      MostIsSound(sizes, o, evidence, ms, bundles, cap, outcome);
    }
  }

  /** A rendering that survives the byte-refit loop came from the renderer, and fits in bytes. */
  lemma {:induction false} RefittedFits(
    sizes: Sizes, o: Options, recent: Conversation, bytes: int, render: int -> Option<Rendering>)
    requires o.targets.bytes > 0 ==> bytes > 0
    ensures match Refitted(sizes, o, recent, bytes, render)
            case None => true
            case Some(r) =>
              && (exists b :: b <= bytes && render(b) == Some(r))
              && (o.targets.bytes > 0 ==> sizes.bytes(Candidate(r.0, recent)) <= o.targets.bytes)
    decreases bytes
  {
    var r := render(bytes);
    if r.Some? && o.targets.bytes > 0 && sizes.bytes(Candidate(r.value.0, recent)) > o.targets.bytes {
      var next := NextBytes(sizes, o, r.value.0, recent, bytes);
      if next > 0 { RefittedFits(sizes, o, recent, next, render); }
    }
  }

  /** What a summary made from these sections is. */
  ghost predicate Summarizes(sizes: Sizes, o: Options, sections: Summary.Sections, r: Rendering)
    requires Summary.Complete(sections)
  {
    && Summary.Complete(r.1)
    && r.0 == Summary.Framed(sizes.summary, r.1)
    && Summary.InOrder(Summary.ORDER, sections, r.1)
    && (o.chars > 0 ==> |r.0| <= o.chars)
  }

  lemma {:induction false} RenderingSummarizes(
    sizes: Sizes, o: Options, recent: Conversation, sections: Summary.Sections, bytes: int)
    requires Summary.Complete(sections)
    ensures
      var r := Renderer(sizes, o, recent, sections)(bytes);
      r.Some? ==> Summarizes(sizes, o, sections, r.value)
  {
    Summary.SummaryFitsInOrder(
      sizes.summary, Summary.Limits(o.chars, SummaryTokens(sizes, o, recent), bytes), sections);
  }

  lemma {:induction false} RefittedSummarizes(
    sizes: Sizes, o: Options, recent: Conversation, sections: Summary.Sections, bytes: int)
    requires Summary.Complete(sections) && (o.targets.bytes > 0 ==> bytes > 0)
    ensures
      var r := Refitted(sizes, o, recent, bytes, Renderer(sizes, o, recent, sections));
      r.Some? ==> Summarizes(sizes, o, sections, r.value)
  {
    var render := Renderer(sizes, o, recent, sections);
    RefittedFits(sizes, o, recent, bytes, render);
    var r := Refitted(sizes, o, recent, bytes, render);
    if r.Some? {
      var b :| b <= bytes && render(b) == r;
      RenderingSummarizes(sizes, o, recent, sections, b);
    }
  }

  /** The summary of a compaction has all nine sections, cut in the order of their priority. */
  lemma {:induction false} AttemptSummarizes(
    sizes: Sizes, o: Options, evidence: Evidence, ms: Conversation, bundles: seq<Bundle>, retained: int)
    requires Thorough(evidence)
    ensures match Attempt(sizes, o, evidence, ms, bundles, retained)
            case None => true
            case Some(outcome) =>
              && outcome.Compacted?
              && Summarizes(
                   sizes, o, evidence(Older(bundles, Last(|bundles|, retained))),
                   (outcome.artifact.content, outcome.artifact.sections))
  {
    var kept := Last(|bundles|, retained);
    var recent := Recent(sizes, o, bundles, kept);
    RefittedSummarizes(sizes, o, recent, evidence(Older(bundles, kept)), SummaryBytes(sizes, o, recent));
  }

  // ---------------------------------------------------------------------------
  // The numbers and texts
  // ---------------------------------------------------------------------------

  lemma {:induction false} TokensAdd(sizes: Sizes, a: Conversation, b: Conversation)
    ensures Tokens(sizes, a + b) == Tokens(sizes, a) + Tokens(sizes, b)
  {
    if a == [] {
      assert a + b == b;
    } else {
      assert (a + b)[0] == a[0] && (a + b)[1..] == a[1..] + b;
      TokensAdd(sizes, a[1..], b);
    }
  }

  lemma {:induction false} TokensOfOne(sizes: Sizes, m: Message)
    ensures Tokens(sizes, [m]) == sizes.tokens(m)
  {
    assert [m][1..] == [];
  }

  /** A sound outcome is a system message with the summary, and the recent messages, within both targets. */
  lemma {:induction false} ResultIsWithinTargets(sizes: Sizes, o: Options, ms: Conversation, outcome: Outcome)
    requires SoundOutcome(sizes, o, ms, outcome)
    ensures
      var summary := Message("", System, outcome.artifact.content, [], None, None, false, NO_METADATA);
      && Messages(outcome) == [summary] + outcome.recent
      && (o.targets.tokens > 0 ==> sizes.tokens(summary) + Tokens(sizes, outcome.recent) <= o.targets.tokens)
      && (o.targets.bytes > 0 ==> sizes.bytes([summary] + outcome.recent) <= o.targets.bytes)
  {
    var summary := SummaryMessage(outcome.artifact.content);
    TokensAdd(sizes, [summary], outcome.recent);
    TokensOfOne(sizes, summary);
  }

  /** Nothing is compacted exactly if that is not forced, few bundles exist and all fits already. */
  lemma {:induction false} WhenNothingIsCompacted(
    sizes: Sizes, o: Options, evidence: Evidence, ms: Conversation, bundles: seq<Bundle>, requested: int, force: bool,
    outcome: Outcome)
    requires Thorough(evidence) && Compacts(sizes, o, evidence, ms, bundles, requested, force, outcome)
    ensures outcome.Untouched? <==>
      && !force && |bundles| <= requested + 1
      && (o.targets.tokens > 0 ==> Tokens(sizes, ms) <= o.targets.tokens)
      && (o.targets.bytes > 0 ==> sizes.bytes(ms) <= o.targets.bytes)
    ensures outcome.Untouched? ==> outcome.messages == ms
  {
    forall r: int ensures !(Attempts(sizes, o, evidence, ms, bundles)(r).Some? &&
      Attempts(sizes, o, evidence, ms, bundles)(r).value.Untouched?)
    {
    }
  }

  /** As many as are asked for, in bundles or else in messages, but never all bundles if there are several. */
  lemma {:induction false} HowManyMayBeKept(keepBundles: int, keepRecent: int, bundles: nat, n: int)
    ensures n <= Cap(Requested(keepBundles, keepRecent), bundles) <==>
      && (n <= 1 || n < bundles)
      && (if keepBundles != 0 then n <= keepBundles else n <= 1 || n <= keepRecent)
  {
  }

  /** A tool result that is too long is shown by its end, with a note and a mark; nothing else changes. */
  lemma {:induction false} WhatIsTrimmed(m: Message, limit: nat)
    ensures
      var trimmed := Trimmed(m, limit);
      if m.role.Tool? && |m.content| > limit
      then
        && trimmed.content == Text.Tail(m.content, limit) && SameShape(m, trimmed)
        && trimmed.metadata == m.metadata.(marks := m.metadata.marks["provider_compacted" := "diagnostic_tail"])
      else trimmed == m
  {
  }

  /** Trimmed by one limit after another. */
  function TrimmedBy(ms: Conversation, limits: seq<nat>): Conversation
    decreases |limits|
  {
    if limits == [] then ms else TrimmedBy(TrimmedAll(ms, limits[0]), limits[1..])
  }

  /** Trimmed by the first `k` limits; nothing less fits. */
  ghost predicate TrimmedFirst(
    sizes: Sizes, targets: Targets, ms: Conversation, limits: seq<nat>, k: nat, output: Conversation)
  {
    && k <= |limits| && output == TrimmedBy(ms, limits[..k])
    && (k < |limits| ==> Fit(sizes, targets, output))
    && forall j :: 0 <= j < k ==> !Fit(sizes, targets, TrimmedBy(ms, limits[..j]))
  }

  lemma {:induction false} DiagnosedByFew(sizes: Sizes, targets: Targets, ms: Conversation, limits: seq<nat>)
    returns (k: nat)
    ensures TrimmedFirst(sizes, targets, ms, limits, k, Diagnosed(sizes, targets, ms, limits))
    decreases |limits|
  {
    k := 0;
    if limits == [] || Fit(sizes, targets, ms) {
      assert limits[..0] == [];
    } else {
      var next, rest := TrimmedAll(ms, limits[0]), limits[1..];
      var n := DiagnosedByFew(sizes, targets, next, rest);
      k := n + 1;
      assert limits[..k][0] == limits[0] && limits[..k][1..] == rest[..n];
      forall j | 0 <= j < k ensures !Fit(sizes, targets, TrimmedBy(ms, limits[..j])) {
        if j > 0 {
          assert limits[..j][0] == limits[0] && limits[..j][1..] == rest[..j - 1];
        } else {
          assert limits[..0] == [];
        }
      }
    }
  }

  /**
   * Diagnostics are shortened to 4000, 2000, 1000, 500 and 200 characters, in turn, until the
   * messages fit.
   */
  lemma {:induction false} DiagnosticsShrinkInSteps(sizes: Sizes, targets: Targets, ms: Conversation) returns (k: nat)
    ensures TrimmedFirst(
      sizes, targets, ms, [4000, 2000, 1000, 500, 200], k, Diagnosed(sizes, targets, ms, DIAGNOSTIC_LIMITS))
  {
    k := DiagnosedByFew(sizes, targets, ms, DIAGNOSTIC_LIMITS);
  }

  /** Six tenths of a target, rounded down, but at least one. */
  lemma {:induction false} ShareIsSixTenths(target: int, n: int)
    requires target != 0
    ensures n <= Share(target) <==> n <= 1 || 10 * n <= 6 * target
    ensures Share(0) == 0
  {
  }

  /**
   * The tokens of a summary leave room for the recent messages and its own framing, if there is
   * room for at least one, and are within the limit that is set for summaries.
   */
  lemma {:induction false} RoomForTokens(sizes: Sizes, o: Options, recent: Conversation, n: int)
    requires o.targets.tokens > 0
    ensures n <= SummaryTokens(sizes, o, recent) <==>
      && (n <= 1 || n + Tokens(sizes, recent) + 12 <= o.targets.tokens)
      && (o.tokens > 0 ==> n <= o.tokens)
  {
  }

  /** Likewise for bytes, of which an empty summary with the recent messages already takes some. */
  lemma {:induction false} RoomForBytes(sizes: Sizes, o: Options, recent: Conversation, n: int)
    requires o.targets.bytes > 0
    ensures
      var empty := Message("", System, "", [], None, None, false, NO_METADATA);
      n <= SummaryBytes(sizes, o, recent) <==>
        && (n <= 1 || n + sizes.bytes([empty] + recent) <= o.targets.bytes)
        && (o.bytes > 0 ==> n <= o.bytes)
  {
  }

  /** Without targets, summaries have the limits that are set for them. */
  lemma {:induction false} NoTargets(sizes: Sizes, o: Options, recent: Conversation)
    ensures o.targets.tokens <= 0 ==> SummaryTokens(sizes, o, recent) == o.tokens
    ensures o.targets.bytes <= 0 ==> SummaryBytes(sizes, o, recent) == o.bytes
  {
  }

  /**
   * After a rendering that makes the whole too large, the next limit is below the last one, and
   * below the size of the rendering by at least what is too much.
   */
  lemma {:induction false} NextLimitOfBytes(
    sizes: Sizes, o: Options, content: string, recent: Conversation, bytes: int, n: int)
    requires sizes.bytes(Candidate(content, recent)) > o.targets.bytes
    ensures n <= NextBytes(sizes, o, content, recent, bytes) <==>
      && n + (sizes.bytes(Candidate(content, recent)) - o.targets.bytes) <= sizes.summary.bytes(content)
      && (bytes > 0 ==> n < bytes)
  {
  }
}
