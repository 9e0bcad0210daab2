/**
 * The provider view of a conversation: outputs that later messages supersede are
 * replaced by placeholders, and nothing else changes.
 */
module Pruning {
  import opened Wrappers
  import opened Transcript

  datatype Interval = Interval(first: int, last: int)

  /**
   * What the pruner reads out of a text or a path by regular expression and path
   * normalization. Nothing is assumed of these functions beyond `CanonicalPaths`.
   */
  datatype Lens = Lens(
    pathLine: string -> string,
    shaLine: string -> string,
    interval: string -> Option<Interval>,
    normalize: string -> string)

  ghost predicate CanonicalPaths(lens: Lens) {
    forall p: string :: Canonical(lens, Canonical(lens, p)) == Canonical(lens, p)
  }

  const DISCOVERY_TOOLS: set<string> := {
    "git_log", "git_status", "glob_files", "grep", "list_directory", "read_instructions", "read_skill", "repo_map"
  }
  const PATH_MUTATION_TOOLS: set<string> := {"apply_patch", "delete_file", "replace_in_file", "write_file"}

  function Canonical(lens: Lens, path: string): string {
    if path == "" then "" else lens.normalize(path)
  }

  // ---------------------------------------------------------------------------
  // What one message says
  // ---------------------------------------------------------------------------

  type Details = map<string, (string, Arguments)>

  function AddCalls(details: Details, calls: seq<ToolCall>): Details {
    if calls == [] then details
    else
      var call := calls[|calls| - 1];
      AddCalls(details, calls[..|calls| - 1])[call.id := (call.name, call.arguments)]
  }

  /** The name and arguments recorded for each call id; a later call wins. */
  function CallDetails(ms: Conversation): Details {
    if ms == [] then map[] else AddCalls(CallDetails(ms[..|ms| - 1]), ms[|ms| - 1].toolCalls)
  }

  function Resolve(details: Details, m: Message): (string, Arguments) {
    if ResultId(m) in details then details[ResultId(m)] else (m.toolName.GetOr(""), map[])
  }

  predicate IsRead(m: Message) {
    m.role.Tool? && m.toolName == Some("read_file")
  }

  /** The canonical path and hash a read result is about. */
  function Identity(lens: Lens, m: Message): (string, string) {
    var path := m.metadata.path.GetOr("");
    var sha := m.metadata.sha256.GetOr("");
    (Canonical(lens, if path != "" then path else lens.pathLine(m.content)),
     if sha != "" then sha else lens.shaLine(m.content))
  }

  /** `metadata.setdefault` for a read whose path or hash is only in its text. */
  function Enrich(lens: Lens, m: Message): Message {
    if !IsRead(m) then m else
      var (path, sha) := Identity(lens, m);
      var md := m.metadata;
      m.(metadata := md.(
        path := if md.path.None? && path != "" then Some(path) else md.path,
        sha256 := if md.sha256.None? && sha != "" then Some(sha) else md.sha256))
  }

  predicate Registered(lens: Lens, m: Message) {
    IsRead(m) && !m.isError && Identity(lens, m).0 != "" && Identity(lens, m).1 != ""
  }

  /** The path and hash under which a read result looks for its successors. */
  function LookupKey(lens: Lens, m: Message): (string, string) {
    var md := Enrich(lens, m).metadata;
    (md.path.GetOr(""), md.sha256.GetOr(""))
  }

  predicate Prunable(lens: Lens, m: Message) {
    IsRead(m) && !m.isError && LookupKey(lens, m).0 != "" && LookupKey(lens, m).1 != ""
  }

  function PathsOf(lens: Lens, paths: seq<string>): seq<string> {
    if paths == [] then []
    else (if paths[0] != "" then [Canonical(lens, paths[0])] else []) + PathsOf(lens, paths[1..])
  }

  function MutationPaths(lens: Lens, md: Metadata, arguments: Arguments): seq<string> {
    var field := if md.files.Truthy() then md.files else md.changedFiles;
    if field.PathList? then PathsOf(lens, field.paths)
    else
      var path := md.path.GetOr("");
      var named := if path != "" then path else if "path" in arguments then arguments["path"] else "";
      if named != "" then [Canonical(lens, named)] else []
  }

  /** The paths that this message records as mutated. */
  function Mutated(lens: Lens, details: Details, m: Message): seq<string> {
    var (name, arguments) := Resolve(details, m);
    if m.role.Tool? && ((!m.isError && name in PATH_MUTATION_TOOLS) || m.metadata.changedFiles.Truthy())
    then MutationPaths(lens, Enrich(lens, m).metadata, arguments) else []
  }

  predicate Discovers(details: Details, m: Message) {
    m.role.Tool? && !m.isError && Resolve(details, m).0 in DISCOVERY_TOOLS
  }

  predicate Covers(candidate: Option<Interval>, covered: Option<Interval>) {
    && candidate.Some? && covered.Some?
    && candidate.value.first <= covered.value.first
    && candidate.value.last >= covered.value.last
  }

  // ---------------------------------------------------------------------------
  // The view
  // ---------------------------------------------------------------------------

  /** `later` is a read of the same path and hash that repeats or covers `earlier`. */
  predicate Replaces(lens: Lens, later: Message, earlier: Message) {
    && Registered(lens, later)
    && Identity(lens, later) == LookupKey(lens, earlier)
    && (later.content == earlier.content || Covers(lens.interval(later.content), lens.interval(earlier.content)))
  }

  predicate Retires(lens: Lens, details: Details, later: Message, earlier: Message) {
    LookupKey(lens, earlier).0 in Mutated(lens, details, later) || Replaces(lens, later, earlier)
  }

  ghost predicate ReadSuperseded(lens: Lens, details: Details, ms: Conversation, i: nat)
    requires i < |ms|
  {
    Prunable(lens, ms[i]) && exists j :: i < j < |ms| && Retires(lens, details, ms[j], ms[i])
  }

  predicate Repeats(details: Details, later: Message, earlier: Message) {
    Discovers(details, later) && Resolve(details, later) == Resolve(details, earlier)
  }

  ghost predicate OutputRepeated(details: Details, ms: Conversation, i: nat)
    requires i < |ms|
  {
    !IsRead(ms[i]) && Discovers(details, ms[i]) && exists j :: i < j < |ms| && Repeats(details, ms[j], ms[i])
  }

  function ReadPlaceholder(path: string, sha: string): string {
    "[superseded read: path=" + path + " sha256=" + sha + "]"
  }

  function OutputPlaceholder(tool: string): string {
    "[superseded successful " + tool + " output]"
  }

  function Compacted(m: Message, content: string, mark: string): Message {
    m.(content := content, metadata := m.metadata.(marks := m.metadata.marks["provider_compacted" := mark]))
  }

  function PrunedRead(lens: Lens, m: Message): Message {
    var (path, sha) := LookupKey(lens, m);
    Compacted(Enrich(lens, m), ReadPlaceholder(path, sha), "superseded_read")
  }

  function PrunedOutput(details: Details, m: Message): Message {
    Compacted(m, OutputPlaceholder(Resolve(details, m).0), "repeated_output")
  }

  ghost function View(lens: Lens, details: Details, ms: Conversation, i: nat): Message
    requires i < |ms|
  {
    if ReadSuperseded(lens, details, ms, i) then PrunedRead(lens, ms[i])
    else if OutputRepeated(details, ms, i) then PrunedOutput(details, ms[i])
    else Enrich(lens, ms[i])
  }

  ghost function Pruned(lens: Lens, ms: Conversation): (view: Conversation)
    ensures |view| == |ms|
    ensures forall i :: 0 <= i < |ms| ==> view[i] == View(lens, CallDetails(ms), ms, i)
  {
    seq(|ms|, i requires 0 <= i < |ms| => View(lens, CallDetails(ms), ms, i))
  }
}
