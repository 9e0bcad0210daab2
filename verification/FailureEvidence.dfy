/** What the extracted failures mean, and when they can be continued from saved evidence. */
module FailureEvidence {
  import opened Wrappers
  import opened Transcript
  import opened Evidence
  import opened EvidenceLists
  import Text

  datatype OpenFailure = OpenFailure(invocation: Invocation, error: string)

  ghost predicate Separate(a: string, b: string) {
    forall t: string :: !Text.StartsWith(a + ": " + t, b + ": ")
  }

  /**
   * Tags end with a bracketed digest of the invocation: different ones among these invocations
   * have tags such that no entry of one can be taken for an entry of the other, and no
   * placeholder starts with a tag.
   */
  ghost predicate Tags(f: Field, tag: Invocation -> string, ks: set<Invocation>) {
    && Proper(f)
    && (forall k :: k in ks ==> tag(k) != "" && !Text.IsSpace(tag(k)[0]))
    && (forall j, k :: j in ks && k in ks && j != k ==> Separate(tag(j), tag(k)))
    && (forall k, p :: k in ks && p in f.placeholders ==> !Text.StartsWith(p, tag(k)))
  }

  /** All outcomes are of these invocations. */
  ghost predicate Knows(ks: set<Invocation>, events: seq<Event>) {
    forall i :: 0 <= i < |events| && events[i].outcome.Some? ==> events[i].outcome.value.invocation in ks
  }

  /** The invocations whose outcomes occur. */
  ghost function Invocations(events: seq<Event>): (ks: set<Invocation>)
    ensures Knows(ks, events)
  {
    set i | 0 <= i < |events| && events[i].outcome.Some? :: events[i].outcome.value.invocation
  }

  ghost predicate AllIn(ks: set<Invocation>, open: seq<OpenFailure>) {
    forall i :: 0 <= i < |open| ==> open[i].invocation in ks
  }

  // ---------------------------------------------------------------------------
  // Entries and invocations
  // ---------------------------------------------------------------------------

  function Rendered(tag: Invocation -> string, open: seq<OpenFailure>): (items: seq<string>)
    ensures |items| == |open|
    ensures forall i :: 0 <= i < |open| ==> items[i] == Item(tag(open[i].invocation), open[i].error)
  {
    seq(|open|, i requires 0 <= i < |open| => Item(tag(open[i].invocation), open[i].error))
  }

  function Without(open: seq<OpenFailure>, k: Invocation): seq<OpenFailure> {
    if open == [] then []
    else (if open[0].invocation == k then [] else [open[0]]) + Without(open[1..], k)
  }

  function Updated(open: seq<OpenFailure>, outcome: Option<Outcome>): seq<OpenFailure> {
    match outcome
    case None => open
    case Some(o) =>
      var others := Without(open, o.invocation);
      if o.error.Some? then others + [OpenFailure(o.invocation, o.error.value)] else others
  }

  /** The invocations that are failing after some events, in the order in which they last failed. */
  function OpenOf(events: seq<Event>): seq<OpenFailure> {
    if events == [] then [] else Updated(OpenOf(events[..|events| - 1]), events[|events| - 1].outcome)
  }

  lemma {:induction false} WithoutIn(ks: set<Invocation>, open: seq<OpenFailure>, k: Invocation)
    requires AllIn(ks, open)
    ensures AllIn(ks, Without(open, k))
  {
    if open != [] { WithoutIn(ks, open[1..], k); }
  }

  /** What is open was in the events. */
  lemma {:induction false} OpenAreKnown(ks: set<Invocation>, events: seq<Event>)
    requires Knows(ks, events)
    ensures AllIn(ks, OpenOf(events))
  {
    if events != [] {
      var n := |events| - 1;
      OpenAreKnown(ks, events[..n]);
      if events[n].outcome.Some? { WithoutIn(ks, OpenOf(events[..n]), events[n].outcome.value.invocation); }
    }
  }

  lemma {:induction false} ItemStarts(
    f: Field, tag: Invocation -> string, ks: set<Invocation>, j: Invocation, k: Invocation, error: string)
    requires Tags(f, tag, ks) && j in ks && k in ks
    ensures Text.StartsWith(Item(tag(j), error), tag(k) + ": ") <==> j == k
  {
    if j != k { assert Separate(tag(j), tag(k)); }
  }

  lemma {:induction false} ClearedCons(item: string, items: seq<string>, tag: string)
    ensures Cleared([item] + items, tag) ==
      (if Text.StartsWith(item, tag + ": ") then [] else [item]) + Cleared(items, tag)
  {
    assert ([item] + items)[1..] == items;
  }

  lemma {:induction false} RenderedCons(tag: Invocation -> string, first: OpenFailure, rest: seq<OpenFailure>)
    ensures Rendered(tag, [first] + rest) == [Item(tag(first.invocation), first.error)] + Rendered(tag, rest)
  {
  }

  lemma {:induction false} ClearedRenders(
    f: Field, tag: Invocation -> string, ks: set<Invocation>, open: seq<OpenFailure>, k: Invocation)
    requires Tags(f, tag, ks) && AllIn(ks, open) && k in ks
    ensures Cleared(Rendered(tag, open), tag(k)) == Rendered(tag, Without(open, k))
  {
    if open != [] {
      var first, rest := open[0], open[1..];
      assert open == [first] + rest;
      RenderedCons(tag, first, rest);
      RenderedCons(tag, first, Without(rest, k));
      ClearedCons(Item(tag(first.invocation), first.error), Rendered(tag, rest), tag(k));
      ItemStarts(f, tag, ks, first.invocation, k, first.error);
      ClearedRenders(f, tag, ks, rest, k);
    }
  }

  lemma {:induction false} NotedRenders(
    f: Field, tag: Invocation -> string, ks: set<Invocation>, open: seq<OpenFailure>, outcome: Option<Outcome>)
    requires Tags(f, tag, ks) && AllIn(ks, open) && (outcome.Some? ==> outcome.value.invocation in ks)
    ensures Noted(tag, Rendered(tag, open), outcome) == Rendered(tag, Updated(open, outcome))
  {
    if outcome.Some? {
      var o := outcome.value;
      ClearedRenders(f, tag, ks, open, o.invocation);
      if o.error.Some? { RenderedAppend(tag, Without(open, o.invocation), OpenFailure(o.invocation, o.error.value)); }
    }
  }

  lemma {:induction false} RenderedAppend(tag: Invocation -> string, open: seq<OpenFailure>, last: OpenFailure)
    ensures Rendered(tag, open + [last]) == Rendered(tag, open) + [Item(tag(last.invocation), last.error)]
  {
  }

  lemma {:induction false} FailuresConcat(tag: Invocation -> string, base: seq<string>, a: seq<Event>, b: seq<Event>)
    ensures Failures(tag, base, a + b) == Failures(tag, Failures(tag, base, a), b)
    decreases |a|
  {
    if a == [] {
      assert a + b == b;
    } else {
      assert (a + b)[0] == a[0] && (a + b)[1..] == a[1..] + b;
      FailuresConcat(tag, Noted(tag, base, a[0].outcome), a[1..], b);
    }
  }

  /** The extracted entries are those of the failing invocations, in that order. */
  lemma {:induction false} FailuresRender(f: Field, tag: Invocation -> string, ks: set<Invocation>, events: seq<Event>)
    requires Tags(f, tag, ks) && Knows(ks, events)
    ensures Failures(tag, [], events) == Rendered(tag, OpenOf(events))
  {
    if events != [] {
      var n := |events| - 1;
      assert events == events[..n] + [events[n]];
      FailuresRender(f, tag, ks, events[..n]);
      OpenAreKnown(ks, events[..n]);
      FailuresConcat(tag, [], events[..n], [events[n]]);
      NotedRenders(f, tag, ks, OpenOf(events[..n]), events[n].outcome);
      FailuresOfOne(tag, Failures(tag, [], events[..n]), events[n]);
    }
  }

  lemma {:induction false} FailuresOfOne(tag: Invocation -> string, base: seq<string>, event: Event)
    ensures Failures(tag, base, [event]) == Noted(tag, base, event.outcome)
  {
    assert [event][1..] == [];
    assert Failures(tag, Noted(tag, base, event.outcome), []) == Noted(tag, base, event.outcome);
  }

  // ---------------------------------------------------------------------------
  // The open failures are the last outcomes that are errors
  // ---------------------------------------------------------------------------

  predicate About(event: Event, k: Invocation) {
    event.outcome.Some? && event.outcome.value.invocation == k
  }

  /** The error of the last outcome of an invocation, if that outcome is an error. */
  function LastError(events: seq<Event>, k: Invocation): Option<string> {
    if events == [] then None
    else
      var n := |events| - 1;
      if About(events[n], k) then events[n].outcome.value.error else LastError(events[..n], k)
  }

  ghost predicate OpenIs(open: seq<OpenFailure>, events: seq<Event>) {
    && (forall i, j :: 0 <= i < j < |open| ==> open[i].invocation != open[j].invocation)
    && (forall i :: 0 <= i < |open| ==> LastError(events, open[i].invocation) == Some(open[i].error))
    && (forall k, e :: LastError(events, k) == Some(e) ==> OpenFailure(k, e) in open)
  }

  lemma {:induction false} WithoutMembers(open: seq<OpenFailure>, k: Invocation)
    requires forall i, j :: 0 <= i < j < |open| ==> open[i].invocation != open[j].invocation
    ensures
      var w := Without(open, k);
      && (forall i, j :: 0 <= i < j < |w| ==> w[i].invocation != w[j].invocation)
      && (forall f :: f in w <==> f in open && f.invocation != k)
  {
    if open != [] {
      WithoutMembers(open[1..], k);
      var w := Without(open[1..], k);
      forall i | 0 <= i < |w| ensures w[i].invocation != open[0].invocation { assert w[i] in open[1..]; }
      assert forall f :: f in open <==> f == open[0] || f in open[1..];
    }
  }

  lemma {:induction false} OpenAreLastErrors(events: seq<Event>)
    ensures OpenIs(OpenOf(events), events)
  {
    if events != [] {
      var n := |events| - 1;
      OpenAreLastErrors(events[..n]);
      if events[n].outcome.Some? { OpenStep(events, OpenOf(events[..n]), events[n].outcome.value); }
    }
  }

  lemma {:induction false} OpenStep(events: seq<Event>, open: seq<OpenFailure>, o: Outcome)
    requires events != [] && events[|events| - 1].outcome == Some(o)
    requires OpenIs(open, events[..|events| - 1])
    ensures OpenIs(Updated(open, Some(o)), events)
  {
    var before, k, w := events[..|events| - 1], o.invocation, Without(open, o.invocation);
    WithoutMembers(open, k);
    var open' := Updated(open, Some(o));
    forall i | 0 <= i < |open'| ensures LastError(events, open'[i].invocation) == Some(open'[i].error) {
      if i < |w| {
        assert w[i] in open && w[i].invocation != k;
        assert LastError(before, w[i].invocation) == Some(w[i].error);
      }
    }
    forall j, e | LastError(events, j) == Some(e) ensures OpenFailure(j, e) in open' {
      if j != k { assert OpenFailure(j, e) in open && OpenFailure(j, e) in w; }
    }
    forall i, j | 0 <= i < j < |open'| ensures open'[i].invocation != open'[j].invocation {
      if j == |w| { assert w[i] in w; }
    }
  }

  ghost predicate Entry(tag: Invocation -> string, events: seq<Event>, item: string) {
    exists k, e :: LastError(events, k) == Some(e) && item == Item(tag(k), e)
  }

  /** The extracted failures are the texts of the invocations whose last outcome is an error. */
  lemma {:induction false} OpenFailuresAreLastErrors(
    f: Field, tag: Invocation -> string, ks: set<Invocation>, events: seq<Event>)
    requires Tags(f, tag, ks) && Knows(ks, events)
    ensures forall item :: item in Failures(tag, [], events) <==> Entry(tag, events, item)
  {
    var items, open := Failures(tag, [], events), OpenOf(events);
    FailuresRender(f, tag, ks, events);
    OpenAreKnown(ks, events);
    OpenAreLastErrors(events);
    forall item | item in items ensures Entry(tag, events, item) {
      var i :| 0 <= i < |items| && items[i] == item;
      assert LastError(events, open[i].invocation) == Some(open[i].error);
    }
    forall item | Entry(tag, events, item) ensures item in items {
      var k, e :| LastError(events, k) == Some(e) && item == Item(tag(k), e);
      var i :| 0 <= i < |open| && open[i] == OpenFailure(k, e);
      assert items[i] == item;
    }
  }

  /** No invocation has two entries. */
  lemma {:induction false} OneEntryEach(
    f: Field, tag: Invocation -> string, ks: set<Invocation>, events: seq<Event>, k: Invocation, i: nat, j: nat)
    requires Tags(f, tag, ks) && Knows(ks, events) && k in ks
    requires i < |Failures(tag, [], events)| && j < |Failures(tag, [], events)|
    requires Text.StartsWith(Failures(tag, [], events)[i], tag(k) + ": ")
    requires Text.StartsWith(Failures(tag, [], events)[j], tag(k) + ": ")
    ensures i == j
  {
    var open := OpenOf(events);
    FailuresRender(f, tag, ks, events);
    OpenAreKnown(ks, events);
    OpenAreLastErrors(events);
    ItemStarts(f, tag, ks, open[i].invocation, k, open[i].error);
    ItemStarts(f, tag, ks, open[j].invocation, k, open[j].error);
  }

  // ---------------------------------------------------------------------------
  // Continuing the failures
  // ---------------------------------------------------------------------------

  /** Every open failure has some text. */
  ghost predicate NoBlankOpen(events: seq<Event>) {
    forall i :: 0 <= i < |OpenOf(events)| ==> !Text.Blank(OpenOf(events)[i].error)
  }

  lemma {:induction false} StripItem(tag: string, error: string)
    requires tag != "" && !Text.IsSpace(tag[0])
    ensures Text.Strip(Item(tag, error)) == if Text.Blank(error) then tag + ":" else Item(tag, error)
  {
    var item, tail := Item(tag, error), Text.Tail(error, 2000);
    Text.TailIsStripped(error, 2000);
    assert item[0] == tag[0];
    if Text.Blank(error) {
      assert item == tag + ": " && item[..|item| - 1] == tag + ":";
      assert Text.LStrip(item) == item;
      assert Text.RStrip(item) == Text.RStrip(tag + ":");
      assert (tag + ":")[|tag|] == ':';
    } else {
      assert item[|item| - 1] == tail[|tail| - 1];
      TailEnds(error);
      Text.StripFixed(item);
    }
  }

  lemma {:induction false} TailEnds(error: string)
    requires !Text.Blank(error)
    ensures
      var tail := Text.Tail(error, 2000);
      tail != "" && !Text.IsSpace(tail[|tail| - 1])
  {
    Text.TailIsStripped(error, 2000);
    assert Text.Strip(Text.Tail(error, 2000)) != "";
  }

  lemma {:induction false} ItemIsNoPlaceholder(
    f: Field, tag: Invocation -> string, ks: set<Invocation>, k: Invocation, rest: string)
    requires Tags(f, tag, ks) && k in ks
    ensures tag(k) + rest !in f.placeholders
  {
    assert Text.StartsWith(tag(k) + rest, tag(k));
  }

  lemma {:induction false} ItemIsReal(
    f: Field, tag: Invocation -> string, ks: set<Invocation>, k: Invocation, error: string)
    requires Tags(f, tag, ks) && k in ks
    ensures Item(tag(k), error) !in f.placeholders
  {
    var tail := Text.Tail(error, 2000);
    ItemIsNoPlaceholder(f, tag, ks, k, ": " + tail);
    assert tag(k) + ": " + tail == tag(k) + (": " + tail);
  }

  lemma {:induction false} ItemsAreReal(
    f: Field, tag: Invocation -> string, ks: set<Invocation>, open: seq<OpenFailure>)
    requires Tags(f, tag, ks) && AllIn(ks, open)
    ensures forall i :: 0 <= i < |open| ==> Rendered(tag, open)[i] !in f.placeholders
  {
    forall i | 0 <= i < |open| ensures Rendered(tag, open)[i] !in f.placeholders {
      ItemIsReal(f, tag, ks, open[i].invocation, open[i].error);
    }
  }

  lemma {:induction false} RenderedAreReal(
    f: Field, tag: Invocation -> string, ks: set<Invocation>, open: seq<OpenFailure>)
    requires Tags(f, tag, ks) && AllIn(ks, open)
    ensures WithoutPlaceholders(f, Rendered(tag, open)) == Rendered(tag, open)
  {
    ItemsAreReal(f, tag, ks, open);
    RealFixed(f, Rendered(tag, open));
  }

  lemma {:induction false} RenderedAreClean(
    f: Field, tag: Invocation -> string, ks: set<Invocation>, open: seq<OpenFailure>)
    requires Tags(f, tag, ks) && AllIn(ks, open)
    requires forall i, j :: 0 <= i < j < |open| ==> open[i].invocation != open[j].invocation
    requires forall i :: 0 <= i < |open| ==> !Text.Blank(open[i].error)
    ensures Clean(Rendered(tag, open)) && Distinct(Rendered(tag, open))
  {
    var items := Rendered(tag, open);
    forall i | 0 <= i < |items| ensures items[i] != "" && Text.Strip(items[i]) == items[i] {
      StripItem(tag(open[i].invocation), open[i].error);
    }
    forall i, j | 0 <= i < j < |items| ensures items[i] != items[j] {
      ItemStarts(f, tag, ks, open[i].invocation, open[i].invocation, open[i].error);
      ItemStarts(f, tag, ks, open[j].invocation, open[i].invocation, open[j].error);
    }
  }

  /** Evidence whose open failures all have text is left as it was extracted. */
  lemma {:induction false} FinishedFailures(
    f: Field, tag: Invocation -> string, ks: set<Invocation>, events: seq<Event>)
    requires Tags(f, tag, ks) && Knows(ks, events) && NoBlankOpen(events)
    ensures Finished(f, Failures(tag, [], events)) == OrMissing(f, Failures(tag, [], events))
  {
    var open := OpenOf(events);
    FailuresRender(f, tag, ks, events);
    OpenAreKnown(ks, events);
    OpenAreLastErrors(events);
    RenderedAreReal(f, tag, ks, open);
    RenderedAreClean(f, tag, ks, open);
    KeptFixed([], OrMissing(f, Rendered(tag, open)));
  }

  /** The placeholder of an empty list stays in front and clears nothing. */
  lemma {:induction false} PlaceholderStays(
    f: Field, tag: Invocation -> string, ks: set<Invocation>, base: seq<string>, events: seq<Event>)
    requires Tags(f, tag, ks) && Knows(ks, events)
    ensures Failures(tag, [f.missing] + base, events) == [f.missing] + Failures(tag, base, events)
    decreases |events|
  {
    if events != [] {
      NotedPlaceholder(f, tag, ks, base, events[0].outcome);
      PlaceholderStays(f, tag, ks, Noted(tag, base, events[0].outcome), events[1..]);
    }
  }

  lemma {:induction false} NotedPlaceholder(
    f: Field, tag: Invocation -> string, ks: set<Invocation>, base: seq<string>, outcome: Option<Outcome>)
    requires Tags(f, tag, ks) && (outcome.Some? ==> outcome.value.invocation in ks)
    ensures Noted(tag, [f.missing] + base, outcome) == [f.missing] + Noted(tag, base, outcome)
  {
    if outcome.Some? {
      var k := outcome.value.invocation;
      assert !Text.StartsWith(f.missing, tag(k));
      assert !Text.StartsWith(f.missing, tag(k) + ": ") by {
        if Text.StartsWith(f.missing, tag(k) + ": ") { PrefixOfPrefix(f.missing, tag(k), ": "); }
      }
      assert ([f.missing] + base)[1..] == base;
    }
  }

  lemma {:induction false} PrefixOfPrefix(s: string, a: string, b: string)
    requires Text.StartsWith(s, a + b)
    ensures Text.StartsWith(s, a)
  {
    assert a <= a + b;
  }

  lemma {:induction false} FinishWithPlaceholder(f: Field, items: seq<string>)
    requires Proper(f) && WithoutPlaceholders(f, items) == items
    requires forall i :: 0 <= i < |items| ==> items[i] !in f.placeholders
    ensures Finished(f, [f.missing] + items) == Finished(f, items)
  {
    if items == [] {
      assert [f.missing] + items == [f.missing];
      assert !HasRealEvidence(f, [f.missing]);
    } else {
      assert ([f.missing] + items)[1] !in f.placeholders;
      assert ([f.missing] + items)[1..] == items;
      RealFixed(f, items);
      assert Real(f, [f.missing] + items) == items;
    }
  }

  ghost predicate FailuresAgree(f: Field, tag: Invocation -> string, a: seq<Event>, b: seq<Event>) {
    Finished(f, Failures(tag, NonBlank(Finished(f, Failures(tag, [], a))), b)) ==
    Finished(f, Failures(tag, [], a + b))
  }

  lemma {:induction false} NonBlankSaves(
    f: Field, tag: Invocation -> string, ks: set<Invocation>, a: seq<Event>, b: seq<Event>)
    requires Tags(f, tag, ks) && Knows(ks, a) && Knows(ks, b) && NoBlankOpen(a)
    ensures FailuresAgree(f, tag, a, b)
  {
    var raw := Failures(tag, [], a);
    FinishedIsClean(f, raw);
    FinishedFailures(f, tag, ks, a);
    FailuresConcat(tag, [], a, b);
    if raw == [] {
      assert [f.missing] + [] == [f.missing];
      PlaceholderStays(f, tag, ks, [], b);
      FailuresRender(f, tag, ks, b);
      OpenAreKnown(ks, b);
      RenderedAreReal(f, tag, ks, OpenOf(b));
      assert forall i :: 0 <= i < |Failures(tag, [], b)| ==> Failures(tag, [], b)[i] !in f.placeholders by {
        ItemsAreReal(f, tag, ks, OpenOf(b));
      }
      FinishWithPlaceholder(f, Failures(tag, [], b));
    }
  }

  /** An open failure without text is saved as a bare tag. */
  lemma {:induction false} BareTag(
    f: Field, tag: Invocation -> string, ks: set<Invocation>, events: seq<Event>, k: Invocation)
    requires Tags(f, tag, ks) && Knows(ks, events) && k in ks
    ensures tag(k) + ":" in Finished(f, Failures(tag, [], events))
      <==> exists i ::
        0 <= i < |OpenOf(events)| && OpenOf(events)[i].invocation == k && Text.Blank(OpenOf(events)[i].error)
  {
    var open, items := OpenOf(events), Failures(tag, [], events);
    FailuresRender(f, tag, ks, events);
    OpenAreKnown(ks, events);
    RenderedAreReal(f, tag, ks, open);
    KeptMembers([], OrMissing(f, items));
    forall i | 0 <= i < |open|
      ensures Text.Strip(items[i]) == tag(k) + ":" <==> open[i].invocation == k && Text.Blank(open[i].error)
    {
      BareItem(f, tag, ks, open[i].invocation, k, open[i].error);
    }
    if items == [] {
      ItemIsNoPlaceholder(f, tag, ks, k, ":");
    }
  }

  lemma {:induction false} BareItem(
    f: Field, tag: Invocation -> string, ks: set<Invocation>, j: Invocation, k: Invocation, error: string)
    requires Tags(f, tag, ks) && j in ks && k in ks
    ensures Text.Strip(Item(tag(j), error)) == tag(k) + ":" <==> j == k && Text.Blank(error)
  {
    StripItem(tag(j), error);
    if Text.Blank(error) {
      SeparateColons(tag(j), tag(k));
    } else {
      SeparateTail(tag(j), tag(k), Text.Tail(error, 2000));
      assert |Item(tag(k), error)| > |tag(k)| + 1;
    }
  }

  lemma {:induction false} SeparateColons(a: string, b: string)
    ensures a + ":" == b + ":" ==> a == b && !Separate(a, b)
  {
    if a + ":" == b + ":" {
      assert a == (a + ":")[..|a|] == b;
      assert Text.StartsWith(a + ": " + "", b + ": ");
    }
  }

  lemma {:induction false} SeparateTail(a: string, b: string, tail: string)
    ensures a + ": " + tail == b + ":" ==> !Separate(b, a)
  {
    var s := a + ": " + tail;
    if s == b + ":" {
      assert Text.StartsWith(s, a + ": ");
      assert b + ": " + "" == s + " ";
      assert Text.StartsWith(b + ": " + "", a + ": ");
    }
  }

  lemma {:induction false} BareTagStays(
    f: Field, tag: Invocation -> string, ks: set<Invocation>, items: seq<string>, k: Invocation)
    requires Tags(f, tag, ks) && k in ks && tag(k) + ":" in items
    ensures tag(k) + ":" in Cleared(items, tag(k))
  {
    if items[0] == tag(k) + ":" {
      assert !Text.StartsWith(items[0], tag(k) + ": ");
    } else {
      BareTagStays(f, tag, ks, items[1..], k);
    }
  }

  /** A success does not clear an invocation that was saved as a bare tag. */
  lemma {:induction false} BlankFailureIsStuck(
    f: Field, tag: Invocation -> string, ks: set<Invocation>, a: seq<Event>, i: nat)
    requires Tags(f, tag, ks) && Knows(ks, a) && i < |OpenOf(a)| && Text.Blank(OpenOf(a)[i].error)
    ensures !FailuresAgree(f, tag, a, [Event([], Some(Outcome(OpenOf(a)[i].invocation, None)))])
  {
    var k := OpenOf(a)[i].invocation;
    var success := Event([], Some(Outcome(k, None)));
    var saved := Finished(f, Failures(tag, [], a));
    OpenAreKnown(ks, a);
    BareTag(f, tag, ks, a, k);
    FinishedIsClean(f, Failures(tag, [], a));
    FailuresOfOne(tag, saved, success);
    BareTagStays(f, tag, ks, saved, k);
    BareTagSurvives(f, tag, ks, Cleared(saved, tag(k)), k);
    assert (a + [success])[..|a|] == a;
    OpenAreLastErrors(a + [success]);
    BareTag(f, tag, ks, a + [success], k);
  }

  lemma {:induction false} BareTagSurvives(
    f: Field, tag: Invocation -> string, ks: set<Invocation>, items: seq<string>, k: Invocation)
    requires Tags(f, tag, ks) && k in ks && tag(k) + ":" in items
    ensures tag(k) + ":" in Finished(f, items)
  {
    var bare := tag(k) + ":";
    ItemIsNoPlaceholder(f, tag, ks, k, ":");
    var i :| 0 <= i < |items| && items[i] == bare;
    RealKeeps(f, items, i);
    assert Text.Strip(bare) == bare by { Text.StripFixed(bare); }
    KeptMembers([], Real(f, items));
    var j :| 0 <= j < |Real(f, items)| && Real(f, items)[j] == bare;
    assert Text.Strip(Real(f, items)[j]) == bare;
  }

  /**
   * Continuing from saved evidence gives the failures that the whole conversation gives,
   * whatever comes next, exactly when every saved open failure has some text.
   */
  lemma {:induction false} ContinuedFailuresAgree(
    f: Field, tag: Invocation -> string, ks: set<Invocation>, a: seq<Event>)
    requires Tags(f, tag, ks) && Knows(ks, a)
    ensures NoBlankOpen(a) <==> forall b :: Knows(ks, b) ==> FailuresAgree(f, tag, a, b)
  {
    if NoBlankOpen(a) {
      forall b | Knows(ks, b) ensures FailuresAgree(f, tag, a, b) { NonBlankSaves(f, tag, ks, a, b); }
    } else {
      var i :| 0 <= i < |OpenOf(a)| && Text.Blank(OpenOf(a)[i].error);
      BlankFailureIsStuck(f, tag, ks, a, i);
      OpenAreKnown(ks, a);
      assert Knows(ks, [Event([], Some(Outcome(OpenOf(a)[i].invocation, None)))]);
    }
  }
}
