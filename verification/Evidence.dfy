/**
 * The open failures and the changed files that compaction extracts from a conversation,
 * from scratch or continued from saved evidence.
 */
module Evidence {
  import opened Wrappers
  import opened Transcript
  import opened Pruning
  import Text

  const NO_FILES := "Unavailable: no changed-file metadata was recorded."
  const NO_FAILURES := "None recorded."
  const PLACEHOLDERS: set<string> := {
    "Unavailable: no structured decision evidence was recorded.",
    "Unavailable: no verification result was recorded.",
    "Unavailable: no structured completion evidence was recorded.",
    NO_FILES,
    NO_FAILURES,
    "Unavailable: no active structured plan was recorded.",
    "Unavailable: no current user objective was recorded.",
    "Unavailable: no recent user constraints were recorded."
  }

  /** A field of the evidence: the texts that stand for absent evidence, and its own one. */
  datatype Field = Field(placeholders: set<string>, missing: string)

  const FILES := Field(PLACEHOLDERS, NO_FILES)
  const FAILURES := Field(PLACEHOLDERS, NO_FAILURES)

  /** The two fields of the evidence that are modelled. */
  datatype Findings = Findings(filesChanged: seq<string>, openFailures: seq<string>)

  /** What makes two invocations of a tool the same. */
  datatype Invocation = Invocation(name: string, arguments: Arguments, callId: Option<string>)

  /** How an invocation ended: with an error text or without one. */
  datatype Outcome = Outcome(invocation: Invocation, error: Option<string>)

  /** What one message contributes. */
  datatype Event = Event(changed: seq<string>, outcome: Option<Outcome>)

  /** Opaque readings: the tag of an invocation, and the job a user message reports on, if any. */
  datatype Reader = Reader(lens: Lens, tag: Invocation -> string, scriptJob: Message -> Option<string>)

  /** `str.strip` items, without blanks and repetitions, after those already kept. */
  function Kept(output: seq<string>, items: seq<string>): seq<string>
    decreases |items|
  {
    if items == [] then output
    else
      var item := Text.Strip(items[0]);
      Kept(if item != "" && item !in output then output + [item] else output, items[1..])
  }

  function Deduped(items: seq<string>): seq<string> {
    Kept([], items)
  }

  /** `_dedupe`. */
  method Dedupe(items: seq<string>) returns (output: seq<string>)
    ensures output == Deduped(items)
  {
    output := [];
    var seen: set<string> := {};
    for i := 0 to |items|
      invariant forall s :: s in seen <==> s in output
      invariant Deduped(items) == Kept(output, items[i..])
    {
      assert items[i..][0] == items[i] && items[i..][1..] == items[i + 1..];
      var normalized := Text.Strip(items[i]);
      if normalized != "" && normalized !in seen {
        seen := seen + {normalized};
        output := output + [normalized];
      }
    }
  }

  predicate HasRealEvidence(field: Field, items: seq<string>) {
    exists i :: 0 <= i < |items| && items[i] !in field.placeholders
  }

  function Real(field: Field, items: seq<string>): seq<string> {
    if items == [] then []
    else (if items[0] in field.placeholders then [] else [items[0]]) + Real(field, items[1..])
  }

  function WithoutPlaceholders(field: Field, items: seq<string>): seq<string> {
    if HasRealEvidence(field, items) then Real(field, items) else items
  }

  function OrMissing(field: Field, items: seq<string>): seq<string> {
    if items == [] then [field.missing] else items
  }

  /** How a field is left at the end of an extraction. */
  function Finished(field: Field, items: seq<string>): seq<string> {
    Deduped(OrMissing(field, WithoutPlaceholders(field, items)))
  }

  function NonBlank(items: seq<string>): seq<string> {
    if items == [] then []
    else (if Text.Blank(items[0]) then [] else [items[0]]) + NonBlank(items[1..])
  }

  // ---------------------------------------------------------------------------
  // What the messages say
  // ---------------------------------------------------------------------------

  function InvocationOf(name: string, arguments: Arguments, m: Message): Invocation {
    var recorded := if name != "" then name else m.toolName.GetOr("");
    Invocation(
      if recorded != "" then recorded else "tool",
      arguments,
      if recorded == "" && ResultId(m) != "" then Some(ResultId(m)) else None)
  }

  predicate ScriptCompletion(reader: Reader, m: Message) {
    m.role.User? && m.metadata.internal == "script_completion" && reader.scriptJob(m).Some?
  }

  /** The tool and arguments that a message reports on. */
  function Subject(reader: Reader, details: Details, m: Message): (string, Arguments) {
    if ScriptCompletion(reader, m) then ("script_job", map["job_id" := reader.scriptJob(m).value])
    else Resolve(details, m)
  }

  function EventOf(reader: Reader, details: Details, m: Message): Event {
    if !m.role.Tool? && !ScriptCompletion(reader, m) then Event([], None)
    else
      var (name, arguments) := Subject(reader, details, m);
      var mutation := (!m.isError && name in PATH_MUTATION_TOOLS)
        || m.metadata.changedFiles.Truthy() || m.metadata.files.Truthy();
      Event(
        if mutation then MutationPaths(reader.lens, m.metadata, arguments) else [],
        Some(Outcome(InvocationOf(name, arguments, m), if m.isError then Some(m.content) else None)))
  }

  function Events(reader: Reader, details: Details, ms: Conversation): seq<Event>
    decreases |ms|
  {
    if ms == [] then []
    else
      var details' := AddCalls(details, ms[0].toolCalls);
      [EventOf(reader, details', ms[0])] + Events(reader, details', ms[1..])
  }

  // ---------------------------------------------------------------------------
  // The two folds
  // ---------------------------------------------------------------------------

  function Files(base: seq<string>, events: seq<Event>): seq<string>
    decreases |events|
  {
    if events == [] then base else Files(base + events[0].changed, events[1..])
  }

  function Item(tag: string, error: string): string {
    tag + ": " + Text.Tail(error, 2000)
  }

  /** The entries that do not belong to a tag. */
  function Cleared(items: seq<string>, tag: string): seq<string> {
    if items == [] then []
    else (if Text.StartsWith(items[0], tag + ": ") then [] else [items[0]]) + Cleared(items[1..], tag)
  }

  function Noted(tag: Invocation -> string, items: seq<string>, outcome: Option<Outcome>): seq<string> {
    match outcome
    case None => items
    case Some(o) =>
      var kept := Cleared(items, tag(o.invocation));
      if o.error.Some? then kept + [Item(tag(o.invocation), o.error.value)] else kept
  }

  function Failures(tag: Invocation -> string, base: seq<string>, events: seq<Event>): seq<string>
    decreases |events|
  {
    if events == [] then base else Failures(tag, Noted(tag, base, events[0].outcome), events[1..])
  }

  function Continued(tag: Invocation -> string, base: Findings, events: seq<Event>): Findings {
    Findings(
      Finished(FILES, Files(NonBlank(base.filesChanged), events)),
      Finished(FAILURES, Failures(tag, NonBlank(base.openFailures), events)))
  }

  const NOTHING := Findings([], [])

  /** `extract_compaction_evidence`, for the two fields. */
  ghost function Extracted(reader: Reader, base: Findings, ms: Conversation): Findings {
    Continued(reader.tag, base, Events(reader, map[], ms))
  }

  /** The failures of a list that survive an outcome of the tagged invocation. */
  method Clear(items: seq<string>, tag: string) returns (kept: seq<string>)
    ensures kept == Cleared(items, tag)
  {
    kept := [];
    for i := 0 to |items|
      invariant Cleared(items, tag) == kept + Cleared(items[i..], tag)
    {
      assert items[i..][0] == items[i] && items[i..][1..] == items[i + 1..];
      if !Text.StartsWith(items[i], tag + ": ") {
        kept := kept + [items[i]];
      }
    }
  }

  method Finish(field: Field, items: seq<string>) returns (finished: seq<string>)
    ensures finished == Finished(field, items)
  {
    var kept := WithoutPlaceholders(field, items);
    if kept == [] {
      kept := [field.missing];
    }
    finished := Dedupe(kept);
  }

  method ExtractEvidence(reader: Reader, ms: Conversation, base: Findings) returns (findings: Findings)
    ensures findings == Extracted(reader, base, ms)
  {
    var files, failures := NonBlank(base.filesChanged), NonBlank(base.openFailures);
    ghost var files0, failures0 := files, failures;
    var details: Details := map[];
    ghost var events := Events(reader, map[], ms);
    for i := 0 to |ms|
      invariant Files(files0, events) == Files(files, Events(reader, details, ms[i..]))
      invariant Failures(reader.tag, failures0, events) ==
                Failures(reader.tag, failures, Events(reader, details, ms[i..]))
    {
      var m := ms[i];
      assert ms[i..][0] == m && ms[i..][1..] == ms[i + 1..];
      details := AddCalls(details, m.toolCalls);
      ghost var event, rest := EventOf(reader, details, m), Events(reader, details, ms[i + 1..]);
      assert ([event] + rest)[1..] == rest;
      if !m.role.Tool? && !ScriptCompletion(reader, m) {
        assert files + [] == files;
        continue;
      }
      var (name, arguments) := Subject(reader, details, m);
      if (!m.isError && name in PATH_MUTATION_TOOLS)
        || m.metadata.changedFiles.Truthy() || m.metadata.files.Truthy()
      {
        files := files + MutationPaths(reader.lens, m.metadata, arguments);
      } else {
        assert files + [] == files;
      }
      var prefix := reader.tag(InvocationOf(name, arguments, m));
      failures := Clear(failures, prefix);
      if m.isError {
        failures := failures + [Item(prefix, m.content)];
      }
    }
    files := Finish(FILES, files);
    failures := Finish(FAILURES, failures);
    return Findings(files, failures);
  }
}
