/**
 * What the extracted evidence says of a conversation, told by the fields of its messages alone:
 * the failures whose calls have not succeeded since, and the paths that results changed.
 */
module EvidenceMeaning {
  import opened Wrappers
  import opened Transcript
  import opened Pruning
  import opened PruningTheorems
  import opened PruningMeaning
  import opened Evidence
  import opened EvidenceLists
  import opened FailureEvidence
  import opened EvidenceContinues
  import Text

  // ---------------------------------------------------------------------------
  // Results
  // ---------------------------------------------------------------------------

  /** A user message that reports the end of a script. */
  predicate ReportsScript(reader: Reader, m: Message) {
    m.role.User? && m.metadata.internal == "script_completion" && reader.scriptJob(m).Some?
  }

  /** What was invoked: a tool with its arguments, and the single call if the tool has no name. */
  function InvokedBy(c: ToolCall): Invocation {
    if c.name != "" then Invocation(c.name, c.arguments, None) else Invocation("tool", c.arguments, Some(c.id))
  }

  /** The message at `t` is a result of this invocation. */
  ghost predicate Reports(reader: Reader, ms: Conversation, t: nat, k: Invocation) {
    && t < |ms|
    && (|| (exists c :: AnswersCall(ms, t, c) && k == InvokedBy(c))
        || (ReportsScript(reader, ms[t])
            && k == Invocation("script_job", map["job_id" := reader.scriptJob(ms[t]).value], None)))
  }

  /** The last result of this invocation is the message at `t`, and it is an error. */
  ghost predicate OpenAt(reader: Reader, ms: Conversation, t: nat, k: Invocation) {
    && t < |ms| && Reports(reader, ms, t, k) && ms[t].isError
    && forall u: nat :: t < u < |ms| ==> !Reports(reader, ms, u, k)
  }

  /** The message at `t` changes this path. */
  ghost predicate Changes(reader: Reader, ms: Conversation, t: nat, path: string) {
    && t < |ms|
    && exists name, arguments ::
         IsSubject(reader, ms, t, name, arguments) && ChangesAs(reader.lens, ms[t], name, arguments, path)
  }

  /** A result for this tool and these arguments that changes the path. */
  ghost predicate ChangesAs(lens: Lens, m: Message, name: string, arguments: Arguments, path: string) {
    && ((!m.isError && name in {"apply_patch", "delete_file", "replace_in_file", "write_file"})
        || Present(m.metadata.changedFiles) || Present(m.metadata.files))
    && Names(lens, m.metadata.files, m.metadata.changedFiles, m.metadata.path, arguments, path)
  }

  /** The tool and arguments that the result at `t` is about. */
  ghost predicate IsSubject(reader: Reader, ms: Conversation, t: nat, name: string, arguments: Arguments)
    requires t < |ms|
  {
    || (exists c :: AnswersCall(ms, t, c) && name == c.name && arguments == c.arguments)
    || (ReportsScript(reader, ms[t]) && name == "script_job"
        && arguments == map["job_id" := reader.scriptJob(ms[t]).value])
  }

  // ---------------------------------------------------------------------------
  // The events of messages
  // ---------------------------------------------------------------------------

  lemma {:induction false} CallAt(ms: Conversation, t: nat, c: ToolCall)
    requires Grammar(ms) && ForeignIdsApart(ms) && AnswersCall(ms, t, c)
    ensures Resolve(CallDetails(ms[..t + 1]), ms[t]) == (c.name, c.arguments)
  {
    var o :| 0 <= o < t && ms[o].role.Assistant? && c in ms[o].toolCalls;
    var p :| 0 <= p < |ms[o].toolCalls| && ms[o].toolCalls[p] == c;
    assert ms[0..t + 1] == ms[..t + 1];
    FoundInWindow(ms, 0, t + 1, o, p);
  }

  /** A result for a call without a name has none either, and no call has an empty id. */
  lemma {:induction false} NamelessCall(ms: Conversation, t: nat, c: ToolCall)
    requires Grammar(ms) && ForeignIdsApart(ms) && AnswersCall(ms, t, c)
    ensures c.name == "" ==> ms[t].toolName.GetOr("") == ""
    ensures c.id != ""
  {
    var d := SomeCall(ms, t);
    var o, p := Owner(ms, t);
    assert ms[o].toolCalls[p] in ms[o].toolCalls;
    assert AnswersCall(ms, t, ms[o].toolCalls[p]);
    assert GoodBatch(ms, o) && !Text.Blank(ms[o].toolCalls[p].id);
  }

  lemma {:induction false} EventIs(reader: Reader, ms: Conversation, t: nat, c: ToolCall)
    requires Grammar(ms) && ForeignIdsApart(ms) && AnswersCall(ms, t, c)
    ensures
      var event := EventOf(reader, CallDetails(ms[..t + 1]), ms[t]);
      event.outcome == Some(Outcome(InvokedBy(c), if ms[t].isError then Some(ms[t].content) else None))
  {
    CallAt(ms, t, c);
    NamelessCall(ms, t, c);
  }

  lemma {:induction false} ScriptEventIs(reader: Reader, details: Details, m: Message)
    requires !m.role.Tool?
    ensures EventOf(reader, details, m).outcome ==
      if ReportsScript(reader, m) then
        Some(Outcome(
          Invocation("script_job", map["job_id" := reader.scriptJob(m).value], None),
          if m.isError then Some(m.content) else None))
      else None
  {
  }

  lemma {:induction false} SomeCall(ms: Conversation, t: nat) returns (c: ToolCall)
    requires Grammar(ms) && ForeignIdsApart(ms) && t < |ms| && ms[t].role.Tool?
    ensures AnswersCall(ms, t, c)
    ensures forall d :: AnswersCall(ms, t, d) ==> d == c
  {
    var o, p := Owner(ms, t);
    c := ms[o].toolCalls[p];
    assert AnswersCall(ms, t, c);
    forall d | AnswersCall(ms, t, d) ensures d == c {
      var q :| 0 <= q < t && ms[q].role.Assistant? && d in ms[q].toolCalls;
      OwnerIsOnly(ms, o, p);
      assert OnlyAs(ms[q].toolCalls, c.id, c.name, c.arguments);
    }
  }

  /** The event at `t` in the events of a whole conversation. */
  lemma {:induction false} EventAt(reader: Reader, ms: Conversation, t: nat)
    requires t < |ms|
    ensures |Events(reader, map[], ms)| == |ms|
    ensures Events(reader, map[], ms)[t] == EventOf(reader, CallDetails(ms[..t + 1]), ms[t])
  {
    EventsAt(reader, [], ms);
    assert [] + ms[..t + 1] == ms[..t + 1];
  }

  lemma {:induction false} AboutIsReports(reader: Reader, ms: Conversation, t: nat, k: Invocation)
    requires Grammar(ms) && ForeignIdsApart(ms) && t < |ms|
    ensures |Events(reader, map[], ms)| == |ms|
    ensures
      var event := Events(reader, map[], ms)[t];
      && (About(event, k) <==> Reports(reader, ms, t, k))
      && (About(event, k) ==> event.outcome.value.error == if ms[t].isError then Some(ms[t].content) else None)
  {
    EventAt(reader, ms, t);
    if ms[t].role.Tool? {
      var c := SomeCall(ms, t);
      EventIs(reader, ms, t, c);
    } else {
      ScriptEventIs(reader, CallDetails(ms[..t + 1]), ms[t]);
    }
  }

  // ---------------------------------------------------------------------------
  // Open failures
  // ---------------------------------------------------------------------------

  ghost predicate LastAbout(events: seq<Event>, k: Invocation, t: int) {
    0 <= t < |events| && About(events[t], k) && forall u :: t < u < |events| ==> !About(events[u], k)
  }

  lemma {:induction false} LastErrorIs(events: seq<Event>, k: Invocation)
    ensures if exists t :: LastAbout(events, k, t)
            then exists t :: LastAbout(events, k, t) && LastError(events, k) == events[t].outcome.value.error
            else LastError(events, k) == None
    ensures forall t, u :: LastAbout(events, k, t) && LastAbout(events, k, u) ==> t == u
  {
    if events != [] {
      var n := |events| - 1;
      LastErrorIs(events[..n], k);
      if About(events[n], k) {
        assert LastAbout(events, k, n);
      } else {
        forall t ensures LastAbout(events, k, t) <==> LastAbout(events[..n], k, t) { }
      }
    }
  }

  lemma {:induction false} OpenIsLastError(reader: Reader, ms: Conversation, t: nat, k: Invocation)
    requires Grammar(ms) && ForeignIdsApart(ms) && OpenAt(reader, ms, t, k)
    ensures LastError(Events(reader, map[], ms), k) == Some(ms[t].content)
  {
    var events := Events(reader, map[], ms);
    forall u: nat | u < |ms| ensures |events| == |ms| && (About(events[u], k) <==> Reports(reader, ms, u, k)) {
      AboutIsReports(reader, ms, u, k);
    }
    AboutIsReports(reader, ms, t, k);
    assert LastAbout(events, k, t);
    LastErrorIs(events, k);
  }

  lemma {:induction false} LastErrorIsOpen(reader: Reader, ms: Conversation, k: Invocation, e: string) returns (t: nat)
    requires Grammar(ms) && ForeignIdsApart(ms) && LastError(Events(reader, map[], ms), k) == Some(e)
    ensures OpenAt(reader, ms, t, k) && ms[t].content == e
  {
    var events := Events(reader, map[], ms);
    EventsAt(reader, [], ms);
    LastErrorIs(events, k);
    var last :| LastAbout(events, k, last) && LastError(events, k) == events[last].outcome.value.error;
    t := last;
    forall u: nat | u < |ms| ensures About(events[u], k) <==> Reports(reader, ms, u, k) {
      AboutIsReports(reader, ms, u, k);
    }
    AboutIsReports(reader, ms, t, k);
  }

  /** What a finished list holds: real items, or placeholders if there are no real ones, or the missing text. */
  lemma {:induction false} FinishedMembers(f: Field, items: seq<string>, x: string)
    requires Proper(f)
    ensures x in Finished(f, items) <==>
      || (items == [] && x == f.missing)
      || (x != "" && exists i :: 0 <= i < |items| && Text.Strip(items[i]) == x && Counts(f, items, items[i]))
  {
    var kept := WithoutPlaceholders(f, items);
    KeptMembers([], OrMissing(f, kept));
    RealIff(f, items);
    if items == [] {
      assert [f.missing][0] == f.missing && Text.Strip(f.missing) == f.missing;
    } else {
      assert kept != [];
      KeptItems(f, items, x);
    }
  }

  /** An item that is no placeholder counts, and any item does when all are placeholders. */
  predicate Counts(f: Field, items: seq<string>, item: string) {
    item !in f.placeholders || forall i :: 0 <= i < |items| ==> items[i] in f.placeholders
  }

  lemma {:induction false} KeptItems(f: Field, items: seq<string>, x: string)
    ensures
      var kept := WithoutPlaceholders(f, items);
      (exists i :: 0 <= i < |kept| && Text.Strip(kept[i]) == x) <==>
      (exists i :: 0 <= i < |items| && Text.Strip(items[i]) == x && Counts(f, items, items[i]))
  {
    var kept := WithoutPlaceholders(f, items);
    RealIff(f, items);
    if HasRealEvidence(f, items) {
      if i :| 0 <= i < |kept| && Text.Strip(kept[i]) == x {
        var j :| 0 <= j < |items| && items[j] == kept[i];
      }
      if i :| 0 <= i < |items| && Text.Strip(items[i]) == x && Counts(f, items, items[i]) {
        RealKeeps(f, items, i);
        var j :| 0 <= j < |kept| && kept[j] == items[i];
      }
    }
  }

  /** The entry for the open failure of an invocation: its label and the end of the error. */
  function EntryFor(name: string, error: string): string {
    Text.Strip(name + ": " + Text.Tail(error, 2000))
  }

  ghost predicate SomeOpen(reader: Reader, ms: Conversation) {
    exists t: nat, k :: OpenAt(reader, ms, t, k)
  }

  ghost predicate IsOpenEntry(reader: Reader, ms: Conversation, item: string) {
    exists t: nat, k :: OpenAt(reader, ms, t, k) && item == EntryFor(reader.tag(k), ms[t].content)
  }

  lemma {:induction false} RawIsOpen(reader: Reader, ms: Conversation, raw: string)
    requires Grammar(ms) && ForeignIdsApart(ms) && Entry(reader.tag, Events(reader, map[], ms), raw)
    ensures SomeOpen(reader, ms) && IsOpenEntry(reader, ms, Text.Strip(raw))
  {
    var k, e :| LastError(Events(reader, map[], ms), k) == Some(e) && raw == Item(reader.tag(k), e);
    var t := LastErrorIsOpen(reader, ms, k, e);
    assert Text.Strip(raw) == EntryFor(reader.tag(k), ms[t].content);
  }

  lemma {:induction false} OpenIsRaw(reader: Reader, ms: Conversation, t: nat, k: Invocation)
    requires Grammar(ms) && ForeignIdsApart(ms) && OpenAt(reader, ms, t, k)
    requires Tags(FAILURES, reader.tag, Invocations(Events(reader, map[], ms)))
    ensures Entry(reader.tag, Events(reader, map[], ms), Item(reader.tag(k), ms[t].content))
    ensures Text.Strip(Item(reader.tag(k), ms[t].content)) == EntryFor(reader.tag(k), ms[t].content) != ""
  {
    var events := Events(reader, map[], ms);
    OpenIsLastError(reader, ms, t, k);
    AboutIsReports(reader, ms, t, k);
    assert k in Invocations(events);
    StripItem(reader.tag(k), ms[t].content);
  }

  lemma {:induction false} RawAreReal(reader: Reader, events: seq<Event>, item: string)
    requires Tags(FAILURES, reader.tag, Invocations(events))
    ensures item in Failures(reader.tag, [], events) ==> item !in FAILURES.placeholders
  {
    var ks := Invocations(events);
    FailuresRender(FAILURES, reader.tag, ks, events);
    OpenAreKnown(ks, events);
    ItemsAreReal(FAILURES, reader.tag, ks, OpenOf(events));
    if item in Failures(reader.tag, [], events) {
      var i :| 0 <= i < |OpenOf(events)| && Rendered(reader.tag, OpenOf(events))[i] == item;
    }
  }

  /**
   * An entry is among the extracted open failures exactly when the last result of some
   * invocation is an error, and the entry is the label of the invocation with the end of
   * that message; if there is no such invocation the list says that none is recorded.
   */
  lemma {:induction false} OpenFailuresOfMessages(reader: Reader, ms: Conversation, item: string)
    requires Grammar(ms) && ForeignIdsApart(ms)
    requires Tags(FAILURES, reader.tag, Invocations(Events(reader, map[], ms)))
    ensures item in Extracted(reader, NOTHING, ms).openFailures <==>
      IsOpenEntry(reader, ms, item) || (!SomeOpen(reader, ms) && item == "None recorded.")
  {
    var events := Events(reader, map[], ms);
    ExtractedFiles(reader, ms);
    OpenFailuresAreLastErrors(FAILURES, reader.tag, Invocations(events), events);
    FinishedOpen(reader, ms, Failures(reader.tag, [], events), item);
  }

  lemma {:induction false} FinishedOpen(reader: Reader, ms: Conversation, raw: seq<string>, item: string)
    requires Grammar(ms) && ForeignIdsApart(ms)
    requires Tags(FAILURES, reader.tag, Invocations(Events(reader, map[], ms)))
    requires raw == Failures(reader.tag, [], Events(reader, map[], ms))
    requires forall item :: item in raw <==> Entry(reader.tag, Events(reader, map[], ms), item)
    ensures item in Finished(FAILURES, raw) <==>
      IsOpenEntry(reader, ms, item) || (!SomeOpen(reader, ms) && item == "None recorded.")
  {
    FinishedMembers(FAILURES, raw, item);
    SomeOpenIsSomeRaw(reader, ms, raw);
    if i :| 0 <= i < |raw| && Text.Strip(raw[i]) == item {
      RawIsOpen(reader, ms, raw[i]);
    }
    if IsOpenEntry(reader, ms, item) {
      OpenEntryCounts(reader, ms, raw, item);
    }
  }

  lemma {:induction false} SomeOpenIsSomeRaw(reader: Reader, ms: Conversation, raw: seq<string>)
    requires Grammar(ms) && ForeignIdsApart(ms)
    requires Tags(FAILURES, reader.tag, Invocations(Events(reader, map[], ms)))
    requires forall item :: item in raw <==> Entry(reader.tag, Events(reader, map[], ms), item)
    ensures raw != [] <==> SomeOpen(reader, ms)
  {
    if raw != [] { RawIsOpen(reader, ms, raw[0]); }
    if SomeOpen(reader, ms) {
      var t: nat, k :| OpenAt(reader, ms, t, k);
      OpenIsRaw(reader, ms, t, k);
    }
  }

  lemma {:induction false} OpenEntryCounts(reader: Reader, ms: Conversation, raw: seq<string>, item: string)
    requires Grammar(ms) && ForeignIdsApart(ms) && IsOpenEntry(reader, ms, item)
    requires Tags(FAILURES, reader.tag, Invocations(Events(reader, map[], ms)))
    requires raw == Failures(reader.tag, [], Events(reader, map[], ms))
    requires forall item :: item in raw <==> Entry(reader.tag, Events(reader, map[], ms), item)
    ensures item != "" && exists i :: 0 <= i < |raw| && Text.Strip(raw[i]) == item && Counts(FAILURES, raw, raw[i])
  {
    var t: nat, k :| OpenAt(reader, ms, t, k) && item == EntryFor(reader.tag(k), ms[t].content);
    OpenIsRaw(reader, ms, t, k);
    var i :| 0 <= i < |raw| && raw[i] == Item(reader.tag(k), ms[t].content);
    RawAreReal(reader, Events(reader, map[], ms), raw[i]);
  }

  // ---------------------------------------------------------------------------
  // Changed files
  // ---------------------------------------------------------------------------

  lemma {:induction false} ChangedIsChanges(reader: Reader, ms: Conversation, t: nat, path: string)
    requires Grammar(ms) && ForeignIdsApart(ms) && t < |ms|
    ensures |Events(reader, map[], ms)| == |ms|
    ensures path in Events(reader, map[], ms)[t].changed <==> Changes(reader, ms, t, path)
  {
    EventAt(reader, ms, t);
    var m, details := ms[t], CallDetails(ms[..t + 1]);
    if m.role.Tool? || ReportsScript(reader, m) {
      var name, arguments := SubjectAt(reader, ms, t);
      ChangedAs(reader, details, m, name, arguments, path);
    }
  }

  lemma {:induction false} ChangedAs(
    reader: Reader, details: Details, m: Message, name: string, arguments: Arguments, path: string)
    requires m.role.Tool? || ReportsScript(reader, m)
    requires Subject(reader, details, m) == (name, arguments)
    ensures path in EventOf(reader, details, m).changed <==> ChangesAs(reader.lens, m, name, arguments, path)
  {
    NamesMembers(reader.lens, m.metadata, arguments, path);
    assert m.metadata.changedFiles.Truthy() <==> Present(m.metadata.changedFiles);
    assert m.metadata.files.Truthy() <==> Present(m.metadata.files);
  }

  lemma {:induction false} SubjectAt(reader: Reader, ms: Conversation, t: nat)
    returns (name: string, arguments: Arguments)
    requires Grammar(ms) && ForeignIdsApart(ms) && t < |ms|
    requires ms[t].role.Tool? || ReportsScript(reader, ms[t])
    ensures Subject(reader, CallDetails(ms[..t + 1]), ms[t]) == (name, arguments)
    ensures forall n, a :: IsSubject(reader, ms, t, n, a) <==> n == name && a == arguments
  {
    if ms[t].role.Tool? {
      var c := SomeCall(ms, t);
      CallAt(ms, t, c);
      name, arguments := c.name, c.arguments;
    } else {
      name, arguments := "script_job", map["job_id" := reader.scriptJob(ms[t]).value];
    }
  }

  lemma {:induction false} FilesMembers(base: seq<string>, events: seq<Event>, path: string)
    ensures path in Files(base, events) <==>
      path in base || exists t :: 0 <= t < |events| && path in events[t].changed
    decreases |events|
  {
    if events != [] {
      FilesMembers(base + events[0].changed, events[1..], path);
      if t :| 0 <= t < |events[1..]| && path in events[1..][t].changed { assert path in events[t + 1].changed; }
      if t :| 0 <= t < |events| && path in events[t].changed { assert t > 0 ==> path in events[1..][t - 1].changed; }
    }
  }

  ghost predicate SomeChange(reader: Reader, ms: Conversation, path: string) {
    exists t: nat :: Changes(reader, ms, t, path)
  }

  lemma {:induction false} ChangedPaths(reader: Reader, ms: Conversation, path: string)
    requires Grammar(ms) && ForeignIdsApart(ms)
    ensures path in Files([], Events(reader, map[], ms)) <==> SomeChange(reader, ms, path)
  {
    var events := Events(reader, map[], ms);
    FilesMembers([], events, path);
    EventsAt(reader, [], ms);
    if t :| 0 <= t < |events| && path in events[t].changed { ChangedIsChanges(reader, ms, t, path); }
    if SomeChange(reader, ms, path) {
      var t: nat :| Changes(reader, ms, t, path);
      ChangedIsChanges(reader, ms, t, path);
    }
  }

  /**
   * A path is among the extracted changed files exactly when some result changes it: one of the
   * tools that change paths succeeded on it, or metadata lists it. Paths are stripped, blank ones
   * and, next to real ones, placeholders are left out; without any change the list says so.
   */
  lemma {:induction false} ChangedFilesOfMessages(reader: Reader, ms: Conversation, x: string)
    requires Grammar(ms) && ForeignIdsApart(ms)
    ensures x in Extracted(reader, NOTHING, ms).filesChanged <==>
      || (x == NO_FILES && forall path :: !SomeChange(reader, ms, path))
      || (x != "" && exists path :: SomeChange(reader, ms, path) && Text.Strip(path) == x && Listed(reader, ms, path))
  {
    var raw := Files([], Events(reader, map[], ms));
    forall path ensures path in raw <==> SomeChange(reader, ms, path) { ChangedPaths(reader, ms, path); }
    ExtractedFiles(reader, ms);
    ListedMembers(reader, ms, raw, x);
  }

  lemma {:induction false} ExtractedFiles(reader: Reader, ms: Conversation)
    ensures Extracted(reader, NOTHING, ms).filesChanged == Finished(FILES, Files([], Events(reader, map[], ms)))
    ensures Extracted(reader, NOTHING, ms).openFailures ==
            Finished(FAILURES, Failures(reader.tag, [], Events(reader, map[], ms)))
  {
  }

  lemma {:induction false} ListedMembers(reader: Reader, ms: Conversation, raw: seq<string>, x: string)
    requires forall path :: path in raw <==> SomeChange(reader, ms, path)
    ensures x in Finished(FILES, raw) <==>
      || (x == NO_FILES && forall path :: !SomeChange(reader, ms, path))
      || (x != "" && exists path :: SomeChange(reader, ms, path) && Text.Strip(path) == x && Listed(reader, ms, path))
  {
    FieldsAreProper();
    FinishedMembers(FILES, raw, x);
    if raw != [] { assert SomeChange(reader, ms, raw[0]); }
    if i :| 0 <= i < |raw| && Text.Strip(raw[i]) == x && Counts(FILES, raw, raw[i]) {
      assert SomeChange(reader, ms, raw[i]);
      CountsIsListed(reader, ms, raw, raw[i]);
    }
    if path :| SomeChange(reader, ms, path) && Text.Strip(path) == x && Listed(reader, ms, path) {
      CountsIsListed(reader, ms, raw, path);
      var i :| 0 <= i < |raw| && raw[i] == path;
    }
  }

  /** A placeholder is listed only if nothing else is changed. */
  ghost predicate Listed(reader: Reader, ms: Conversation, path: string) {
    path !in PLACEHOLDERS || forall other :: SomeChange(reader, ms, other) ==> other in PLACEHOLDERS
  }

  lemma {:induction false} CountsIsListed(reader: Reader, ms: Conversation, raw: seq<string>, path: string)
    requires forall other :: other in raw <==> SomeChange(reader, ms, other)
    ensures Counts(FILES, raw, path) <==> Listed(reader, ms, path)
  {
    if forall i :: 0 <= i < |raw| ==> raw[i] in FILES.placeholders {
      forall other | SomeChange(reader, ms, other) ensures other in PLACEHOLDERS {
        var i :| 0 <= i < |raw| && raw[i] == other;
      }
    }
    if forall other :: SomeChange(reader, ms, other) ==> other in PLACEHOLDERS {
      forall i | 0 <= i < |raw| ensures raw[i] in FILES.placeholders { assert SomeChange(reader, ms, raw[i]); }
    }
  }

  // ---------------------------------------------------------------------------
  // The order of open failures
  // ---------------------------------------------------------------------------

  ghost predicate Reported(events: seq<Event>, k: Invocation) {
    exists t :: LastAbout(events, k, t)
  }

  ghost predicate Before(events: seq<Event>, k: Invocation, l: Invocation) {
    forall t, u :: LastAbout(events, k, t) && LastAbout(events, l, u) ==> t < u
  }

  /** The invocations of open failures last failed in the order of the list. */
  ghost predicate InOrderOfFailure(events: seq<Event>, open: seq<OpenFailure>) {
    && (forall i :: 0 <= i < |open| ==> Reported(events, open[i].invocation))
    && (forall i, j :: 0 <= i < j < |open| ==> Before(events, open[i].invocation, open[j].invocation))
  }

  /** Where the i-th entry for another invocation stands. */
  ghost function Place(open: seq<OpenFailure>, k: Invocation, i: nat): (b: nat)
    requires i < |Without(open, k)|
    ensures b < |open| && open[b] == Without(open, k)[i] && open[b].invocation != k
  {
    if open[0].invocation == k then Place(open[1..], k, i) + 1
    else if i > 0 then Place(open[1..], k, i - 1) + 1
    else 0
  }

  lemma {:induction false} PlacesGrow(open: seq<OpenFailure>, k: Invocation, i: nat, j: nat)
    requires i < j < |Without(open, k)|
    ensures Place(open, k, i) < Place(open, k, j)
  {
    if open[0].invocation == k {
      PlacesGrow(open[1..], k, i, j);
    } else if i > 0 {
      PlacesGrow(open[1..], k, i - 1, j - 1);
    }
  }

  lemma {:induction false} LastAboutGrows(before: seq<Event>, e: Event, k: Invocation, t: int)
    requires !About(e, k)
    ensures LastAbout(before + [e], k, t) <==> LastAbout(before, k, t)
  {
    var events := before + [e];
    assert forall u :: 0 <= u < |before| ==> before[u] == events[u];
    assert events[|before|] == e;
  }

  lemma {:induction false} BeforeGrows(before: seq<Event>, e: Event, k: Invocation, l: Invocation)
    requires !About(e, k) && !About(e, l) && Before(before, k, l)
    ensures Before(before + [e], k, l)
  {
    forall t, u | LastAbout(before + [e], k, t) && LastAbout(before + [e], l, u) ensures t < u {
      LastAboutGrows(before, e, k, t);
      LastAboutGrows(before, e, l, u);
    }
  }

  lemma {:induction false} BeforeLast(before: seq<Event>, e: Event, k: Invocation, l: Invocation)
    requires !About(e, k) && About(e, l)
    ensures Before(before + [e], k, l)
  {
    var events := before + [e];
    assert events[|before|] == e;
    forall t, u | LastAbout(events, k, t) && LastAbout(events, l, u) ensures t < u {
      assert t != |before|;
      assert u >= |before|;
    }
  }

  lemma {:induction false} HasFailed(before: seq<Event>, e: Event, k: Invocation)
    requires About(e, k) || Reported(before, k)
    ensures Reported(before + [e], k)
  {
    if About(e, k) {
      assert (before + [e])[|before|] == e;
      assert LastAbout(before + [e], k, |before|);
    } else {
      var t :| LastAbout(before, k, t);
      LastAboutGrows(before, e, k, t);
    }
  }

  lemma {:induction false} OpenInOrder(events: seq<Event>)
    ensures InOrderOfFailure(events, OpenOf(events))
  {
    if events != [] {
      var before, e := events[..|events| - 1], events[|events| - 1];
      OpenInOrder(before);
      OrderGrows(before, e, OpenOf(before));
      assert before + [e] == events;
    }
  }

  lemma {:induction false} OrderGrows(before: seq<Event>, e: Event, open: seq<OpenFailure>)
    requires InOrderOfFailure(before, open)
    ensures InOrderOfFailure(before + [e], Updated(open, e.outcome))
  {
    var all, events := Updated(open, e.outcome), before + [e];
    forall i | 0 <= i < |all| ensures Reported(events, all[i].invocation) {
      if !About(e, all[i].invocation) {
        var b := WasOpen(e, open, i);
        assert Reported(before, open[b].invocation);
      }
      HasFailed(before, e, all[i].invocation);
    }
    forall i, j | 0 <= i < j < |all| ensures Before(events, all[i].invocation, all[j].invocation) {
      PairGrows(before, e, open, i, j);
    }
  }

  lemma {:induction false} PairGrows(before: seq<Event>, e: Event, open: seq<OpenFailure>, i: nat, j: nat)
    requires InOrderOfFailure(before, open) && i < j < |Updated(open, e.outcome)|
    ensures Before(before + [e], Updated(open, e.outcome)[i].invocation, Updated(open, e.outcome)[j].invocation)
  {
    var all := Updated(open, e.outcome);
    if About(e, all[j].invocation) {
      if e.outcome.Some? {
        var b := Place(open, e.outcome.value.invocation, i);
      }
      BeforeLast(before, e, all[i].invocation, all[j].invocation);
    } else {
      var a, b := WereOpen(e, open, i, j);
      BeforeGrows(before, e, all[i].invocation, all[j].invocation);
    }
  }

  lemma {:induction false} WasOpen(e: Event, open: seq<OpenFailure>, i: nat) returns (b: nat)
    requires i < |Updated(open, e.outcome)| && !About(e, Updated(open, e.outcome)[i].invocation)
    ensures b < |open| && open[b] == Updated(open, e.outcome)[i]
  {
    if e.outcome.None? {
      b := i;
    } else {
      b := Place(open, e.outcome.value.invocation, i);
    }
  }

  lemma {:induction false} WereOpen(e: Event, open: seq<OpenFailure>, i: nat, j: nat) returns (a: nat, b: nat)
    requires i < j < |Updated(open, e.outcome)| && !About(e, Updated(open, e.outcome)[j].invocation)
    ensures a < b < |open| && open[a] == Updated(open, e.outcome)[i] && open[b] == Updated(open, e.outcome)[j]
    ensures !About(e, open[a].invocation)
  {
    if e.outcome.None? {
      a, b := i, j;
    } else {
      var k := e.outcome.value.invocation;
      a, b := Place(open, k, i), Place(open, k, j);
      PlacesGrow(open, k, i, j);
    }
  }

  lemma {:induction false} OrderOfTwo(events: seq<Event>, open: seq<OpenFailure>, i: nat, j: nat, t: int, u: int)
    requires InOrderOfFailure(events, open) && i < j < |open|
    requires LastAbout(events, open[i].invocation, t) && LastAbout(events, open[j].invocation, u)
    ensures t < u
  {
    assert Before(events, open[i].invocation, open[j].invocation);
  }

  /** Entries stand in the order in which the invocations last failed. */
  lemma {:induction false} EntriesStandInOrder(
    reader: Reader, ms: Conversation, open: seq<OpenFailure>, i: nat, j: nat, t: nat, u: nat)
    requires Grammar(ms) && ForeignIdsApart(ms) && open == OpenOf(Events(reader, map[], ms)) && i < j < |open|
    requires OpenAt(reader, ms, t, open[i].invocation) && OpenAt(reader, ms, u, open[j].invocation)
    ensures t < u
  {
    OpenInOrder(Events(reader, map[], ms));
    OpenIsLast(reader, ms, t, open[i].invocation);
    OpenIsLast(reader, ms, u, open[j].invocation);
    OrderOfTwo(Events(reader, map[], ms), open, i, j, t, u);
  }

  lemma {:induction false} OpenIsLast(reader: Reader, ms: Conversation, t: nat, k: Invocation)
    requires Grammar(ms) && ForeignIdsApart(ms) && OpenAt(reader, ms, t, k)
    ensures LastAbout(Events(reader, map[], ms), k, t)
  {
    var events := Events(reader, map[], ms);
    EventsAt(reader, [], ms);
    forall u: nat | u < |ms| ensures About(events[u], k) <==> Reports(reader, ms, u, k) {
      AboutIsReports(reader, ms, u, k);
    }
  }
}
