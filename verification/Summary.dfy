/**
 * Shrinking the nine sections of a deterministic summary until its text fits. Sizes are
 * arbitrary: nothing is assumed of the estimators, not even that a shorter text is smaller.
 */
module Summary {
  import opened Wrappers
  import Text

  datatype Heading =
    | CurrentObjective | UserConstraints | CompletedWork | FilesChanged | ImportantDecisions
    | LatestVerification | OpenFailures | PendingWork | HistoricalExcerpts

  type Sections = map<Heading, seq<string>>

  /** Sections in the order in which they give way; the last two are critical. */
  const ORDER: seq<Heading> := [
    HistoricalExcerpts, CompletedWork, ImportantDecisions, OpenFailures,
    LatestVerification, FilesChanged, PendingWork, UserConstraints, CurrentObjective
  ]
  const CRITICAL_FROM := 7

  const OMITTED := "Omitted due to the compaction budget."
  const GIT_STATE := "Latest recorded git state:\n"
  const IN_PROGRESS := "[in_progress]"
  const FLOOR := 160

  /** Limits of zero or less are no limits. */
  datatype Limits = Limits(chars: int, tokens: int, bytes: int)

  /** The estimators, and the frame that quotes a rendering as untrusted history. */
  datatype Measure = Measure(tokens: string -> nat, bytes: string -> nat, frame: string -> string)

  predicate Within(measure: Measure, limits: Limits, text: string) {
    && (limits.chars <= 0 || |text| <= limits.chars)
    && (limits.tokens <= 0 || measure.tokens(text) <= limits.tokens)
    && (limits.bytes <= 0 || measure.bytes(text) <= limits.bytes)
  }

  ghost predicate Complete(sections: Sections) {
    forall h: Heading :: h in sections
  }

  const SECTION_ORDER: seq<Heading> := [
    CurrentObjective, UserConstraints, CompletedWork, FilesChanged, ImportantDecisions,
    LatestVerification, OpenFailures, PendingWork, HistoricalExcerpts
  ]

  function Title(heading: Heading): string {
    match heading
    case CurrentObjective => "Current objective"
    case UserConstraints => "User constraints"
    case CompletedWork => "Completed work"
    case FilesChanged => "Files changed"
    case ImportantDecisions => "Important decisions"
    case LatestVerification => "Latest verification"
    case OpenFailures => "Open failures and blockers"
    case PendingWork => "Pending work"
    case HistoricalExcerpts => "Historical excerpts"
  }

  function Bullets(values: seq<string>): string {
    if values == [] then ""
    else "- " + values[0] + (if |values| == 1 then "" else "\n" + Bullets(values[1..]))
  }

  function Part(heading: Heading, values: seq<string>): string {
    "## " + Title(heading) + "\n" + Bullets(if values == [] then ["Unavailable."] else values)
  }

  /** `_render_sections`. */
  function Render(order: seq<Heading>, sections: Sections): string
    requires Complete(sections)
  {
    if order == [] then ""
    else
      Part(order[0], sections[order[0]]) + (if |order| == 1 then "" else "\n\n" + Render(order[1..], sections))
  }

  function Framed(measure: Measure, sections: Sections): string
    requires Complete(sections)
  {
    measure.frame(Render(SECTION_ORDER, sections))
  }

  predicate Fits(measure: Measure, limits: Limits, sections: Sections)
    requires Complete(sections)
  {
    Within(measure, limits, Framed(measure, sections))
  }

  /** What follows the first part of a rendering. */
  function RenderedRest(order: seq<Heading>, sections: Sections): string
    requires Complete(sections)
  {
    if |order| <= 1 then "" else "\n\n" + Render(order[1..], sections)
  }

  lemma {:induction false} RenderedPart(
    order: seq<Heading>, sections: Sections, k: nat) returns (before: string, after: string)
    requires Complete(sections) && k < |order|
    ensures Render(order, sections) == before + Part(order[k], sections[order[k]]) + after
  {
    var part, rest := Part(order[0], sections[order[0]]), RenderedRest(order, sections);
    assert Render(order, sections) == part + rest;
    if k == 0 {
      before, after := "", rest;
      assert "" + part == part;
    } else {
      before, after := RenderedPart(order[1..], sections, k - 1);
      Nested(part, "\n\n", before, Part(order[k], sections[order[k]]), after);
      before := part + "\n\n" + before;
    }
  }

  lemma {:induction false} Nested(part: string, gap: string, before: string, middle: string, after: string)
    ensures part + (gap + (before + middle + after)) == part + gap + before + middle + after
  {
  }

  predicate Critical(heading: Heading) {
    heading.UserConstraints? || heading.CurrentObjective?
  }

  /** Nothing more can be taken from the section. */
  predicate AtFloor(heading: Heading, values: seq<string>) {
    if Critical(heading) then |values| <= 1 && (values == [] || |values[0]| <= FLOOR)
    else values == [OMITTED]
  }

  // ---------------------------------------------------------------------------
  // Which value of a section goes first
  // ---------------------------------------------------------------------------

  /** The value to remove: the recorded git state first, work in progress last, else the oldest. */
  ghost predicate Removable(heading: Heading, values: seq<string>, index: nat) {
    && index < |values|
    && match heading
       case LatestVerification =>
         if Text.StartsWith(values[index], GIT_STATE)
         then forall i :: 0 <= i < index ==> !Text.StartsWith(values[i], GIT_STATE)
         else index == 0 && forall i :: 0 <= i < |values| ==> !Text.StartsWith(values[i], GIT_STATE)
       case PendingWork =>
         if !Text.StartsWith(values[index], IN_PROGRESS)
         then forall i :: index < i < |values| ==> Text.StartsWith(values[i], IN_PROGRESS)
         else index == 0 && forall i :: 0 <= i < |values| ==> Text.StartsWith(values[i], IN_PROGRESS)
       case _ => index == 0
  }

  function FirstGitState(values: seq<string>, from: nat): (index: nat)
    requires from <= |values|
    ensures index < |values| || index == 0
    decreases |values| - from
  {
    if from == |values| then 0
    else if Text.StartsWith(values[from], GIT_STATE) then from
    else FirstGitState(values, from + 1)
  }

  function LastNotInProgress(values: seq<string>, end: nat): (index: nat)
    requires end <= |values|
    ensures index < end || index == 0
  {
    if end == 0 then 0
    else if !Text.StartsWith(values[end - 1], IN_PROGRESS) then end - 1
    else LastNotInProgress(values, end - 1)
  }

  function ShrinkIndex(heading: Heading, values: seq<string>): (index: nat)
    requires values != []
    ensures index < |values|
  {
    match heading
    case LatestVerification => FirstGitState(values, 0)
    case PendingWork => LastNotInProgress(values, |values|)
    case _ => 0
  }

  /** `_shrink_value_index`. */
  method ShrinkValueIndex(heading: Heading, values: seq<string>) returns (index: nat)
    requires values != []
    ensures Removable(heading, values, index)
    ensures index == ShrinkIndex(heading, values)
  {
    if heading.LatestVerification? {
      for i := 0 to |values|
        invariant forall k :: 0 <= k < i ==> !Text.StartsWith(values[k], GIT_STATE)
        invariant FirstGitState(values, 0) == FirstGitState(values, i)
      {
        if Text.StartsWith(values[i], GIT_STATE) {
          return i;
        }
      }
    } else if heading.PendingWork? {
      for i := |values| downto 0
        invariant forall k :: i <= k < |values| ==> Text.StartsWith(values[k], IN_PROGRESS)
        invariant LastNotInProgress(values, |values|) == LastNotInProgress(values, i)
      {
        if !Text.StartsWith(values[i], IN_PROGRESS) {
          return i;
        }
      }
    }
    return 0;
  }

  // ---------------------------------------------------------------------------
  // One step
  // ---------------------------------------------------------------------------

  function Smaller(heading: Heading, values: seq<string>): seq<string>
    requires !AtFloor(heading, values)
  {
    if |values| > 1 then
      var index := if Critical(heading) then 0 else ShrinkIndex(heading, values);
      values[..index] + values[index + 1..]
    else if values != [] && |values[0]| > FLOOR then
      [Text.Truncate(values[0], Max(FLOOR, |values[0]| / 2))]
    else [OMITTED]
  }

  function TotalLength(values: seq<string>): nat {
    if values == [] then 0 else |values[0]| + TotalLength(values[1..])
  }

  lemma {:induction false} TotalConcat(a: seq<string>, b: seq<string>)
    ensures TotalLength(a + b) == TotalLength(a) + TotalLength(b)
  {
    if a == [] {
      assert a + b == b;
    } else {
      assert (a + b)[0] == a[0] && (a + b)[1..] == a[1..] + b;
      TotalConcat(a[1..], b);
    }
  }

  function Weight(values: seq<string>): nat {
    if values == [OMITTED] then 0 else 1 + |values| + TotalLength(values)
  }

  lemma {:induction false} RemovalShrinks(values: seq<string>, index: nat)
    requires index < |values| && |values| > 1
    ensures Weight(values[..index] + values[index + 1..]) < Weight(values)
  {
    var a, b := values[..index], values[index..];
    assert values == a + b && b[1..] == values[index + 1..];
    TotalConcat(a, b);
    TotalConcat(a, b[1..]);
  }

  lemma {:induction false} SmallerShrinks(heading: Heading, values: seq<string>)
    requires !AtFloor(heading, values)
    ensures Weight(Smaller(heading, values)) < Weight(values)
  {
    if |values| > 1 {
      RemovalShrinks(values, if Critical(heading) then 0 else ShrinkIndex(heading, values));
    } else if values != [] && |values[0]| > FLOOR {
      var limit := Max(FLOOR, |values[0]| / 2);
      var cut := Text.Truncate(values[0], limit);
      assert values[1..] == [] && [cut][1..] == [];
      assert TotalLength([cut]) == limit && TotalLength(values) == |values[0]|;
      assert |OMITTED| < FLOOR;
    }
  }

  ghost predicate Ranks(order: seq<Heading>) {
    && (forall i, j :: 0 <= i < j < |order| ==> order[i] != order[j])
    && (forall h: Heading :: h in order)
  }

  lemma {:induction false} OrderRanks()
    ensures Ranks(ORDER)
  {
    forall h: Heading ensures h in ORDER {
      match h
      case CurrentObjective => assert ORDER[8] == h;
      case UserConstraints => assert ORDER[7] == h;
      case CompletedWork => assert ORDER[1] == h;
      case FilesChanged => assert ORDER[5] == h;
      case ImportantDecisions => assert ORDER[2] == h;
      case LatestVerification => assert ORDER[4] == h;
      case OpenFailures => assert ORDER[3] == h;
      case PendingWork => assert ORDER[6] == h;
      case HistoricalExcerpts => assert ORDER[0] == h;
    }
  }

  /** The position of the first section in the order that is not at its floor. */
  ghost function Loose(order: seq<Heading>, sections: Sections): (k: nat)
    requires Complete(sections)
    ensures k <= |order|
    ensures forall i :: 0 <= i < k ==> AtFloor(order[i], sections[order[i]])
    ensures k < |order| ==> !AtFloor(order[k], sections[order[k]])
  {
    if order == [] || !AtFloor(order[0], sections[order[0]]) then 0
    else
      assert forall i :: 0 < i < |order| ==> order[i] == order[1..][i - 1];
      1 + Loose(order[1..], sections)
  }

  ghost function TotalWeight(order: seq<Heading>, sections: Sections): nat
    requires Complete(sections)
  {
    if order == [] then 0 else Weight(sections[order[0]]) + TotalWeight(order[1..], sections)
  }

  lemma {:induction false} TotalSame(order: seq<Heading>, a: Sections, b: Sections)
    requires Complete(a) && Complete(b) && forall i :: 0 <= i < |order| ==> a[order[i]] == b[order[i]]
    ensures TotalWeight(order, a) == TotalWeight(order, b)
  {
    if order != [] { TotalSame(order[1..], a, b); }
  }

  lemma {:induction false} TotalDrops(order: seq<Heading>, sections: Sections, k: nat, values: seq<string>)
    requires Complete(sections) && k < |order| && Weight(values) < Weight(sections[order[k]])
    requires forall i, j :: 0 <= i < j < |order| ==> order[i] != order[j]
    ensures TotalWeight(order, sections[order[k] := values]) < TotalWeight(order, sections)
  {
    var sections' := sections[order[k] := values];
    if k == 0 {
      forall i | 0 <= i < |order[1..]| ensures order[1..][i] != order[0] { assert order[i + 1] != order[0]; }
      TotalSame(order[1..], sections, sections');
    } else {
      TotalDrops(order[1..], sections, k - 1, values);
      assert sections'[order[0]] == sections[order[0]];
    }
  }

  /** The next candidate: the first section in the order that is not at its floor loses something. */
  ghost function Next(order: seq<Heading>, sections: Sections): (next: Option<Sections>)
    requires Complete(sections)
    ensures next.Some? ==> Complete(next.value)
  {
    var k := Loose(order, sections);
    if k == |order| then None else Some(sections[order[k] := Smaller(order[k], sections[order[k]])])
  }

  lemma {:induction false} NextShrinks(order: seq<Heading>, sections: Sections)
    requires Ranks(order) && Complete(sections) && Next(order, sections).Some?
    ensures TotalWeight(order, Next(order, sections).value) < TotalWeight(order, sections)
  {
    var k := Loose(order, sections);
    SmallerShrinks(order[k], sections[order[k]]);
    TotalDrops(order, sections, k, Smaller(order[k], sections[order[k]]));
  }

  /** The first candidate that fits, if any does. */
  ghost function ShrunkBy(order: seq<Heading>, measure: Measure, limits: Limits, sections: Sections)
    : (r: Option<Sections>)
    requires Ranks(order) && Complete(sections)
    ensures r.Some? ==> Complete(r.value)
    decreases TotalWeight(order, sections)
  {
    if Fits(measure, limits, sections) then Some(sections)
    else match Next(order, sections)
      case None => None
      case Some(next) =>
        NextShrinks(order, sections);
        ShrunkBy(order, measure, limits, next)
  }

  ghost function Shrunk(measure: Measure, limits: Limits, sections: Sections): (r: Option<Sections>)
    requires Complete(sections)
    ensures r.Some? ==> Complete(r.value)
  {
    OrderRanks();
    ShrunkBy(ORDER, measure, limits, sections)
  }

  // ---------------------------------------------------------------------------
  // The loops
  // ---------------------------------------------------------------------------

  ghost predicate FloorsBefore(order: seq<Heading>, sections: Sections, k: nat)
    requires Complete(sections) && k <= |order|
  {
    forall i :: 0 <= i < k ==> AtFloor(order[i], sections[order[i]])
  }

  /** One removal, truncation or replacement. */
  method ShrinkOnce(heading: Heading, values: seq<string>) returns (smaller: seq<string>)
    requires !AtFloor(heading, values)
    ensures smaller == Smaller(heading, values) && Weight(smaller) < Weight(values)
  {
    SmallerShrinks(heading, values);
    if |values| > 1 {
      var index := 0;
      if !Critical(heading) {
        index := ShrinkValueIndex(heading, values);
      }
      smaller := values[..index] + values[index + 1..];
    } else if values != [] && |values[0]| > FLOOR {
      smaller := [Text.Truncate(values[0], Max(FLOOR, |values[0]| / 2))];
    } else {
      smaller := [OMITTED];
    }
  }

  lemma {:induction false} FloorsFind(order: seq<Heading>, sections: Sections, k: nat)
    requires Complete(sections) && k < |order| && FloorsBefore(order, sections, k)
    requires !AtFloor(order[k], sections[order[k]])
    ensures Next(order, sections) == Some(sections[order[k] := Smaller(order[k], sections[order[k]])])
  {
  }

  /** Shrink one section until the text fits or the section is at its floor. */
  method ShrinkSection(order: seq<Heading>, measure: Measure, limits: Limits, sections: Sections, k: nat)
    returns (smaller: Sections)
    requires Ranks(order) && Complete(sections) && k < |order|
    requires Fits(measure, limits, sections) || FloorsBefore(order, sections, k)
    ensures Complete(smaller)
    ensures Fits(measure, limits, smaller) || FloorsBefore(order, smaller, k + 1)
    ensures ShrunkBy(order, measure, limits, smaller) == ShrunkBy(order, measure, limits, sections)
  {
    smaller := sections;
    while !Fits(measure, limits, smaller) && !AtFloor(order[k], smaller[order[k]])
      invariant Complete(smaller)
      invariant Fits(measure, limits, smaller) || FloorsBefore(order, smaller, k)
      invariant ShrunkBy(order, measure, limits, smaller) == ShrunkBy(order, measure, limits, sections)
      decreases Weight(smaller[order[k]])
    {
      FloorsFind(order, smaller, k);
      var values := ShrinkOnce(order[k], smaller[order[k]]);
      smaller := smaller[order[k] := values];
    }
  }

  /** `_render_deterministic_summary_with_evidence`: the first candidate that fits, or an error. */
  method RenderSummary(measure: Measure, limits: Limits, sections: Sections) returns (r: Option<(string, Sections)>)
    requires Complete(sections)
    ensures match Shrunk(measure, limits, sections)
            case None => r == None
            case Some(s) => r == Some((Framed(measure, s), s))
  {
    OrderRanks();
    var candidate := sections;
    for k := 0 to CRITICAL_FROM
      invariant Complete(candidate)
      invariant Fits(measure, limits, candidate) || FloorsBefore(ORDER, candidate, k)
      invariant ShrunkBy(ORDER, measure, limits, candidate) == ShrunkBy(ORDER, measure, limits, sections)
    {
      candidate := ShrinkSection(ORDER, measure, limits, candidate, k);
    }
    for k := CRITICAL_FROM to |ORDER|
      invariant Complete(candidate)
      invariant Fits(measure, limits, candidate) || FloorsBefore(ORDER, candidate, k)
      invariant ShrunkBy(ORDER, measure, limits, candidate) == ShrunkBy(ORDER, measure, limits, sections)
    {
      candidate := ShrinkSection(ORDER, measure, limits, candidate, k);
    }
    if !Fits(measure, limits, candidate) {
      return None;
    }
    return Some((Framed(measure, candidate), candidate));
  }

  // ---------------------------------------------------------------------------
  // What shrinking keeps
  // ---------------------------------------------------------------------------

  /** A section that changed has only sections at their floor before it in the order. */
  ghost predicate InOrder(order: seq<Heading>, before: Sections, after: Sections)
    requires Complete(before) && Complete(after)
  {
    forall i, j :: 0 <= i < j < |order| && after[order[j]] != before[order[j]] ==>
      AtFloor(order[i], after[order[i]])
  }

  lemma {:induction false} NextKeepsOrder(order: seq<Heading>, original: Sections, sections: Sections)
    requires Ranks(order) && Complete(original) && Complete(sections) && InOrder(order, original, sections)
    requires Next(order, sections).Some?
    ensures InOrder(order, original, Next(order, sections).value)
  {
    var k := Loose(order, sections);
    var next := Next(order, sections).value;
    forall i | 0 <= i < |order| && i != k ensures next[order[i]] == sections[order[i]] {
      assert order[i] != order[k];
    }
    forall i, j | 0 <= i < j < |order| && next[order[j]] != original[order[j]]
      ensures AtFloor(order[i], next[order[i]])
    {
      assert j <= k;
    }
  }

  ghost predicate Acceptable(order: seq<Heading>, measure: Measure, limits: Limits, original: Sections, s: Sections)
    requires Complete(original)
  {
    Complete(s) && Fits(measure, limits, s) && InOrder(order, original, s)
  }

  lemma {:induction false} ShrunkFrom(
    order: seq<Heading>, measure: Measure, limits: Limits, original: Sections, sections: Sections)
    requires Ranks(order) && Complete(original) && Complete(sections) && InOrder(order, original, sections)
    ensures match ShrunkBy(order, measure, limits, sections)
            case Some(s) => Acceptable(order, measure, limits, original, s)
            case None => true
    decreases TotalWeight(order, sections)
  {
    if !Fits(measure, limits, sections) && Next(order, sections).Some? {
      NextShrinks(order, sections);
      NextKeepsOrder(order, original, sections);
      ShrunkFrom(order, measure, limits, original, Next(order, sections).value);
    }
  }

  /** Every section of a rendered summary is in its text, under its heading. */
  lemma {:induction false} EverySectionIsRendered(sections: Sections, heading: Heading)
    requires Complete(sections)
    ensures exists before, after :: Render(SECTION_ORDER, sections) == before + Part(heading, sections[heading]) + after
  {
    assert exists k :: 0 <= k < |SECTION_ORDER| && SECTION_ORDER[k] == heading by {
      match heading
      case CurrentObjective => assert SECTION_ORDER[0] == heading;
      case UserConstraints => assert SECTION_ORDER[1] == heading;
      case CompletedWork => assert SECTION_ORDER[2] == heading;
      case FilesChanged => assert SECTION_ORDER[3] == heading;
      case ImportantDecisions => assert SECTION_ORDER[4] == heading;
      case LatestVerification => assert SECTION_ORDER[5] == heading;
      case OpenFailures => assert SECTION_ORDER[6] == heading;
      case PendingWork => assert SECTION_ORDER[7] == heading;
      case HistoricalExcerpts => assert SECTION_ORDER[8] == heading;
    }
    var k :| 0 <= k < |SECTION_ORDER| && SECTION_ORDER[k] == heading;
    var before, after := RenderedPart(SECTION_ORDER, sections, k);
  }

  /**
   * A summary that is returned fits its limits and has all nine sections, and a section of
   * it differs from the evidence only if every section before it in the shrink order is
   * already at its floor.
   */
  lemma {:induction false} SummaryFitsInOrder(measure: Measure, limits: Limits, sections: Sections)
    requires Complete(sections)
    ensures match Shrunk(measure, limits, sections)
            case Some(s) =>
              && Complete(s)
              && (limits.chars > 0 ==> |Framed(measure, s)| <= limits.chars)
              && (limits.tokens > 0 ==> measure.tokens(Framed(measure, s)) <= limits.tokens)
              && (limits.bytes > 0 ==> measure.bytes(Framed(measure, s)) <= limits.bytes)
              && InOrder(ORDER, sections, s)
            case None => true
  {
    OrderRanks();
    ShrunkFrom(ORDER, measure, limits, sections, sections);
  }

  /** The section has nothing left to lose: one short critical value, or else only the note that it was omitted. */
  predicate Spent(heading: Heading, values: seq<string>) {
    if heading == CurrentObjective || heading == UserConstraints
    then |values| <= 1 && (|values| == 1 ==> |values[0]| <= 160)
    else values == ["Omitted due to the compaction budget."]
  }

  /**
   * The objective changes only after all other sections are spent, and the user's constraints only
   * after all but the objective; and nothing else changes before the excerpts are spent.
   */
  lemma {:induction false} CriticalSectionsGiveWayLast(
    measure: Measure, limits: Limits, sections: Sections, s: Sections)
    requires Complete(sections) && Shrunk(measure, limits, sections) == Some(s)
    ensures s[CurrentObjective] != sections[CurrentObjective] ==>
      forall h: Heading :: h != CurrentObjective ==> Spent(h, s[h])
    ensures s[UserConstraints] != sections[UserConstraints] ==>
      forall h: Heading :: h != CurrentObjective && h != UserConstraints ==> Spent(h, s[h])
    ensures forall h: Heading :: h != HistoricalExcerpts && s[h] != sections[h] ==>
      Spent(HistoricalExcerpts, s[HistoricalExcerpts])
  {
    SummaryFitsInOrder(measure, limits, sections);
    OrderRanks();
    assert ORDER[8] == CurrentObjective && ORDER[7] == UserConstraints && ORDER[0] == HistoricalExcerpts;
    forall h: Heading ensures AtFloor(h, s[h]) <==> Spent(h, s[h]) { }
    forall h: Heading | h != HistoricalExcerpts && s[h] != sections[h]
      ensures AtFloor(HistoricalExcerpts, s[ORDER[0]])
    {
      assert h in ORDER;
      var j :| 0 <= j < |ORDER| && ORDER[j] == h;
    }
    forall h: Heading | h != CurrentObjective && s[CurrentObjective] != sections[CurrentObjective]
      ensures AtFloor(h, s[h])
    {
      assert h in ORDER;
      var i :| 0 <= i < |ORDER| && ORDER[i] == h;
      assert i < 8;
    }
    forall h: Heading | h != CurrentObjective && h != UserConstraints && s[UserConstraints] != sections[UserConstraints]
      ensures AtFloor(h, s[h])
    {
      assert h in ORDER;
      var i :| 0 <= i < |ORDER| && ORDER[i] == h;
      assert i < 7;
    }
  }

  /** `all` without the value at `k`. */
  predicate WithoutOne(all: seq<string>, fewer: seq<string>, k: nat) {
    k < |all| && fewer == all[..k] + all[k + 1..]
  }

  /**
   * What a section that is not spent loses: one of several values, the oldest of a critical section;
   * half of a single long value, down to 160 characters; or else, if it is not critical, all.
   */
  lemma {:induction false} WhatIsLost(heading: Heading, values: seq<string>)
    requires !AtFloor(heading, values)
    ensures
      var smaller, critical := Smaller(heading, values), heading == CurrentObjective || heading == UserConstraints;
      if |values| > 1 then
        exists k :: WithoutOne(values, smaller, k) && if critical then k == 0 else Removable(heading, values, k)
      else if |values| == 1 && |values[0]| > 160 then
        && |smaller| == 1 && |smaller[0]| == (if |values[0]| / 2 < 160 then 160 else |values[0]| / 2)
        && smaller[0] == Text.Truncate(values[0], |smaller[0]|)
      else !critical && smaller == ["Omitted due to the compaction budget."]
  {
    if |values| > 1 {
      var k := if Critical(heading) then 0 else ShrinkIndex(heading, values);
      if !Critical(heading) { ShrinkIndexIsRemovable(heading, values); }
      assert WithoutOne(values, Smaller(heading, values), k);
    }
  }

  lemma {:induction false} FirstGitStateIs(values: seq<string>, from: nat)
    requires from <= |values| && forall k :: 0 <= k < from ==> !Text.StartsWith(values[k], GIT_STATE)
    ensures
      var i := FirstGitState(values, from);
      if i < |values| && Text.StartsWith(values[i], GIT_STATE)
      then forall k :: 0 <= k < i ==> !Text.StartsWith(values[k], GIT_STATE)
      else i == 0 && forall k :: 0 <= k < |values| ==> !Text.StartsWith(values[k], GIT_STATE)
    decreases |values| - from
  {
    if from < |values| && !Text.StartsWith(values[from], GIT_STATE) { FirstGitStateIs(values, from + 1); }
  }

  lemma {:induction false} LastNotInProgressIs(values: seq<string>, end: nat)
    requires end <= |values| && forall k :: end <= k < |values| ==> Text.StartsWith(values[k], IN_PROGRESS)
    ensures
      var i := LastNotInProgress(values, end);
      if i < |values| && !Text.StartsWith(values[i], IN_PROGRESS)
      then forall k :: i < k < |values| ==> Text.StartsWith(values[k], IN_PROGRESS)
      else i == 0 && forall k :: 0 <= k < |values| ==> Text.StartsWith(values[k], IN_PROGRESS)
  {
    if end > 0 && Text.StartsWith(values[end - 1], IN_PROGRESS) { LastNotInProgressIs(values, end - 1); }
  }

  lemma {:induction false} ShrinkIndexIsRemovable(heading: Heading, values: seq<string>)
    requires values != []
    ensures Removable(heading, values, ShrinkIndex(heading, values))
  {
    FirstGitStateIs(values, 0);
    LastNotInProgressIs(values, |values|);
  }

  /** The line above the bullets of a section. */
  function TitleLine(heading: Heading): string {
    "## " + (
      match heading
      case CurrentObjective => "Current objective"
      case UserConstraints => "User constraints"
      case CompletedWork => "Completed work"
      case FilesChanged => "Files changed"
      case ImportantDecisions => "Important decisions"
      case LatestVerification => "Latest verification"
      case OpenFailures => "Open failures and blockers"
      case PendingWork => "Pending work"
      case HistoricalExcerpts => "Historical excerpts") + "\n"
  }

  lemma {:induction false} BulletOf(values: seq<string>, i: nat) returns (before: string, after: string)
    requires i < |values|
    ensures Bullets(values) == before + ("- " + values[i] + after)
  {
    var rest := if |values| == 1 then "" else "\n" + Bullets(values[1..]);
    if i == 0 {
      before, after := "", rest;
      assert "" + ("- " + values[0] + rest) == "- " + values[0] + rest;
    } else {
      var b, a := BulletOf(values[1..], i - 1);
      before, after := "- " + values[0] + "\n" + b, a;
      assert "- " + values[0] + ("\n" + (b + ("- " + values[i] + a))) ==
        ("- " + values[0] + "\n" + b) + ("- " + values[i] + a);
    }
  }

  /** The text shows this value as a bullet, after the title of the section. */
  ghost predicate Shows(text: string, title: string, value: string) {
    exists before, between, after :: text == before + (title + (between + ("- " + value + after)))
  }

  /** Every value of every section is rendered as a bullet under its title; an empty section says so. */
  lemma {:induction false} EveryValueIsRendered(sections: Sections, heading: Heading, value: string)
    requires Complete(sections)
    requires if sections[heading] == [] then value == "Unavailable." else value in sections[heading]
    ensures Shows(Render(SECTION_ORDER, sections), TitleLine(heading), value)
  {
    var values := if sections[heading] == [] then ["Unavailable."] else sections[heading];
    EverySectionIsRendered(sections, heading);
    var before, after :| Render(SECTION_ORDER, sections) == before + Part(heading, sections[heading]) + after;
    var i :| 0 <= i < |values| && values[i] == value;
    var b, a := BulletOf(values, i);
    TitleIs(heading);
    ShowsIn(before, TitleLine(heading), b, value, a, after);
  }

  lemma {:induction false} TitleIs(heading: Heading)
    ensures "## " + Title(heading) + "\n" == TitleLine(heading)
  {
  }

  lemma {:induction false} ShowsIn(
    before: string, title: string, between: string, value: string, rest: string, after: string)
    ensures Shows(before + (title + (between + ("- " + value + rest))) + after, title, value)
  {
    assert before + (title + (between + ("- " + value + rest))) + after ==
      before + (title + (between + ("- " + value + (rest + after))));
  }

  ghost predicate AllFloors(sections: Sections)
    requires Complete(sections)
  {
    forall h: Heading :: AtFloor(h, sections[h])
  }

  lemma {:induction false} NoLooseSection(order: seq<Heading>, sections: Sections)
    requires Ranks(order) && Complete(sections) && Next(order, sections).None?
    ensures AllFloors(sections)
  {
    forall h: Heading ensures AtFloor(h, sections[h]) {
      assert h in order;
      var i :| 0 <= i < |order| && order[i] == h;
    }
  }

  /** The candidate after `n` losses, if there is so much to lose. */
  ghost function After(order: seq<Heading>, sections: Sections, n: nat): (r: Option<Sections>)
    requires Complete(sections)
    ensures r.Some? ==> Complete(r.value)
  {
    if n == 0 then Some(sections)
    else match Next(order, sections)
      case None => None
      case Some(next) => After(order, next, n - 1)
  }

  /** The candidate after `n` losses exists and does not fit. */
  ghost predicate TooLarge(order: seq<Heading>, measure: Measure, limits: Limits, sections: Sections, n: nat)
    requires Complete(sections)
  {
    var s := After(order, sections, n);
    s.Some? && !Fits(measure, limits, s.value)
  }

  /** After `n` losses every section is at its floor, and no candidate on the way fitted. */
  ghost predicate Hopeless(order: seq<Heading>, measure: Measure, limits: Limits, sections: Sections, n: nat)
    requires Complete(sections)
  {
    && (forall m: nat :: m <= n ==> TooLarge(order, measure, limits, sections, m))
    && After(order, sections, n).Some? && AllFloors(After(order, sections, n).value)
  }

  /** The result is the candidate after `n` losses, and none before it fitted. */
  ghost predicate FirstFitting(
    order: seq<Heading>, measure: Measure, limits: Limits, sections: Sections, n: nat, s: Sections)
    requires Complete(sections)
  {
    && (forall m: nat :: m < n ==> TooLarge(order, measure, limits, sections, m))
    && After(order, sections, n) == Some(s) && Fits(measure, limits, s)
  }

  lemma {:induction false} TooLargeLater(
    order: seq<Heading>, measure: Measure, limits: Limits, sections: Sections, n: nat)
    requires Complete(sections) && Next(order, sections).Some? && !Fits(measure, limits, sections)
    requires forall m: nat :: m < n ==> TooLarge(order, measure, limits, Next(order, sections).value, m)
    ensures forall m: nat :: m < n + 1 ==> TooLarge(order, measure, limits, sections, m)
  {
    forall m: nat | m < n + 1 ensures TooLarge(order, measure, limits, sections, m) {
      if m > 0 { assert TooLarge(order, measure, limits, Next(order, sections).value, m - 1); }
    }
  }

  lemma {:induction false} ShrunkAfter(
    order: seq<Heading>, measure: Measure, limits: Limits, sections: Sections) returns (n: nat)
    requires Ranks(order) && Complete(sections)
    ensures match ShrunkBy(order, measure, limits, sections)
            case Some(s) => FirstFitting(order, measure, limits, sections, n, s)
            case None => Hopeless(order, measure, limits, sections, n)
    decreases TotalWeight(order, sections)
  {
    n := 0;
    if !Fits(measure, limits, sections) {
      var next := Next(order, sections);
      if next.Some? {
        NextShrinks(order, sections);
        var k := ShrunkAfter(order, measure, limits, next.value);
        n := k + 1;
        OneLossMore(order, measure, limits, sections, k);
      } else {
        NothingToLose(order, measure, limits, sections);
      }
    }
  }

  lemma {:induction false} NothingToLose(order: seq<Heading>, measure: Measure, limits: Limits, sections: Sections)
    requires Ranks(order) && Complete(sections) && Next(order, sections).None? && !Fits(measure, limits, sections)
    ensures Hopeless(order, measure, limits, sections, 0)
  {
    NoLooseSection(order, sections);
    assert After(order, sections, 0) == Some(sections);
  }

  lemma {:induction false} OneLossMore(
    order: seq<Heading>, measure: Measure, limits: Limits, sections: Sections, k: nat)
    requires Complete(sections) && Next(order, sections).Some? && !Fits(measure, limits, sections)
    ensures
      var next := Next(order, sections).value;
      && (forall s :: FirstFitting(order, measure, limits, next, k, s) ==>
            FirstFitting(order, measure, limits, sections, k + 1, s))
      && (Hopeless(order, measure, limits, next, k) ==> Hopeless(order, measure, limits, sections, k + 1))
  {
    var next := Next(order, sections).value;
    assert After(order, sections, k + 1) == After(order, next, k);
    if forall m: nat :: m < k ==> TooLarge(order, measure, limits, next, m) {
      TooLargeLater(order, measure, limits, sections, k);
    }
    if forall m: nat :: m < k + 1 ==> TooLarge(order, measure, limits, next, m) {
      TooLargeLater(order, measure, limits, sections, k + 1);
    }
  }

  /**
   * Shrinking returns the first candidate that fits. It fails exactly when the sections can be
   * shrunk to their floors and no candidate on the way, nor the last, fits.
   */
  lemma {:induction false} FailureMeansFloors(measure: Measure, limits: Limits, sections: Sections)
    requires Complete(sections)
    ensures Shrunk(measure, limits, sections) == None <==>
            exists n: nat :: Hopeless(ORDER, measure, limits, sections, n)
    ensures forall s :: Shrunk(measure, limits, sections) == Some(s) ==>
            exists n: nat :: FirstFitting(ORDER, measure, limits, sections, n, s)
  {
    OrderRanks();
    var k := ShrunkAfter(ORDER, measure, limits, sections);
    if Shrunk(measure, limits, sections).Some? {
      forall n: nat ensures !Hopeless(ORDER, measure, limits, sections, n) {
        FittingIsNotHopeless(ORDER, measure, limits, sections, k, n, Shrunk(measure, limits, sections).value);
      }
    }
  }

  lemma {:induction false} FittingIsNotHopeless(
    order: seq<Heading>, measure: Measure, limits: Limits, sections: Sections, k: nat, n: nat, s: Sections)
    requires Complete(sections)
    ensures Hopeless(order, measure, limits, sections, n) ==>
            !FirstFitting(order, measure, limits, sections, k, s)
  {
    if Hopeless(order, measure, limits, sections, n) {
      assert k <= n ==> TooLarge(order, measure, limits, sections, k);
      if n < k {
        FloorsAreLast(order, sections, n);
        NothingAfter(order, sections, n, k);
      }
    }
  }

  /** Once all sections are at their floors nothing is left to lose. */
  lemma {:induction false} FloorsAreLast(order: seq<Heading>, sections: Sections, n: nat)
    requires Complete(sections) && After(order, sections, n).Some? && AllFloors(After(order, sections, n).value)
    ensures After(order, sections, n + 1).None?
  {
    if n > 0 {
      FloorsAreLast(order, Next(order, sections).value, n - 1);
    }
  }

  lemma {:induction false} NothingAfter(order: seq<Heading>, sections: Sections, n: nat, k: nat)
    requires Complete(sections) && After(order, sections, n + 1).None? && n < k
    ensures After(order, sections, k).None?
  {
    if n > 0 && Next(order, sections).Some? {
      NothingAfter(order, Next(order, sections).value, n - 1, k - 1);
    }
  }
}
