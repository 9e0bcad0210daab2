/**
 * What the provider view shows of each message, told by the fields of messages alone: which
 * tool results give way to a placeholder, and to which later results.
 */
module PruningMeaning {
  import opened Wrappers
  import opened Transcript
  import opened Pruning
  import opened PruningTheorems

  // ---------------------------------------------------------------------------
  // What messages say
  // ---------------------------------------------------------------------------

  /** The call that a tool result answers. */
  ghost predicate AnswersCall(ms: Conversation, t: nat, c: ToolCall) {
    && t < |ms| && ms[t].role.Tool? && ms[t].toolCallId.GetOr("") == c.id
    && exists o :: 0 <= o < t && ms[o].role.Assistant? && c in ms[o].toolCalls
  }

  function NonEmptyOr(first: Option<string>, second: string): string {
    if first.Some? && first.value != "" then first.value else second
  }

  /** A successful read of this revision of this file, as metadata or else the text says. */
  ghost predicate Reads(lens: Lens, m: Message, path: string, sha: string) {
    && m.role.Tool? && m.toolName == Some("read_file") && !m.isError && path != "" && sha != ""
    && NonEmptyOr(m.metadata.path, lens.pathLine(m.content)) != ""
    && path == lens.normalize(NonEmptyOr(m.metadata.path, lens.pathLine(m.content)))
    && sha == NonEmptyOr(m.metadata.sha256, lens.shaLine(m.content))
  }

  predicate HasLine(lens: Lens, m: Message, n: int) {
    lens.interval(m.content).Some? && lens.interval(m.content).value.first <= n <= lens.interval(m.content).value.last
  }

  /** The later read has all lines of the earlier one, whose text has numbered lines. */
  ghost predicate HasAllLines(lens: Lens, later: Message, earlier: Message) {
    && lens.interval(earlier.content).Some? && lens.interval(later.content).Some?
    && forall n :: HasLine(lens, earlier, n) ==> HasLine(lens, later, n)
  }

  /** Numbered lines run from a first to a last one. */
  ghost predicate OrderedLines(lens: Lens) {
    forall text: string :: lens.interval(text).Some? ==>
      lens.interval(text).value.first <= lens.interval(text).value.last
  }

  ghost predicate Present(field: PathField) {
    field != Absent && field != PathList([]) && field != Scalar(false)
  }

  ghost predicate Lists(lens: Lens, paths: seq<string>, path: string) {
    exists k :: 0 <= k < |paths| && paths[k] != "" && path == lens.normalize(paths[k])
  }

  /** The paths that metadata and arguments name: those of the first list there is, or else a single one. */
  ghost predicate Names(
    lens: Lens, files: PathField, changedFiles: PathField, recorded: Option<string>, arguments: Arguments, path: string)
  {
    var listed := if Present(files) then files else changedFiles;
    if listed.PathList? then Lists(lens, listed.paths, path)
    else
      var named := NonEmptyOr(recorded, if "path" in arguments then arguments["path"] else "");
      named != "" && path == lens.normalize(named)
  }

  /** The path that metadata records, filled in from the text of a read. */
  ghost predicate Recorded(lens: Lens, m: Message, recorded: Option<string>) {
    if m.metadata.path.Some? || m.toolName != Some("read_file") || lens.pathLine(m.content) == ""
    then recorded == m.metadata.path
    else
      recorded == (
        if lens.normalize(lens.pathLine(m.content)) == "" then None
        else Some(lens.normalize(lens.pathLine(m.content))))
  }

  /** The result records a change of this path. */
  ghost predicate Mutates(lens: Lens, ms: Conversation, t: nat, path: string) {
    exists c, recorded ::
      && AnswersCall(ms, t, c) && Recorded(lens, ms[t], recorded)
      && ((!ms[t].isError && c.name in {"apply_patch", "delete_file", "replace_in_file", "write_file"})
          || Present(ms[t].metadata.changedFiles))
      && Names(lens, ms[t].metadata.files, ms[t].metadata.changedFiles, recorded, c.arguments, path)
  }

  /** The message at `j` changes the path, or is a read of the revision with the text or all lines of that at `i`. */
  ghost predicate Supersedes(lens: Lens, ms: Conversation, i: nat, j: nat, path: string, sha: string)
    requires i < |ms| && j < |ms|
  {
    || Mutates(lens, ms, j, path)
    || (Reads(lens, ms[j], path, sha) && (ms[j].content == ms[i].content || HasAllLines(lens, ms[j], ms[i])))
  }

  ghost predicate Superfluous(lens: Lens, ms: Conversation, i: nat, path: string, sha: string)
    requires i < |ms|
  {
    exists j: nat :: i < j < |ms| && Supersedes(lens, ms, i, j, path, sha)
  }

  /** Shown with a placeholder instead of its text. */
  ghost predicate ShownAs(m: Message, shown: Message, text: string, mark: string) {
    && shown.content == text && shown.metadata.marks == m.metadata.marks["provider_compacted" := mark]
    && SameShape(m, shown)
  }

  ghost predicate ShownInFull(m: Message, shown: Message) {
    shown.content == m.content && shown.metadata.marks == m.metadata.marks && SameShape(m, shown)
  }

  // ---------------------------------------------------------------------------
  // What the view computes with
  // ---------------------------------------------------------------------------

  lemma {:induction false} ResolvesToCall(ms: Conversation, t: nat, c: ToolCall)
    requires Grammar(ms) && ForeignIdsApart(ms) && AnswersCall(ms, t, c)
    ensures Resolve(CallDetails(ms), ms[t]) == (c.name, c.arguments)
  {
    var o :| 0 <= o < t && ms[o].role.Assistant? && c in ms[o].toolCalls;
    var p :| 0 <= p < |ms[o].toolCalls| && ms[o].toolCalls[p] == c;
    assert ms[0..|ms|] == ms;
    FoundInWindow(ms, 0, |ms|, o, p);
  }

  lemma {:induction false} CallOf(ms: Conversation, t: nat) returns (c: ToolCall)
    requires Grammar(ms) && ForeignIdsApart(ms) && t < |ms| && ms[t].role.Tool?
    ensures AnswersCall(ms, t, c) && Resolve(CallDetails(ms), ms[t]) == (c.name, c.arguments)
  {
    var o, p := Owner(ms, t);
    c := ms[o].toolCalls[p];
    ResolvesToCall(ms, t, c);
  }

  lemma {:induction false} ReadsIsRegistered(lens: Lens, m: Message, path: string, sha: string)
    ensures Reads(lens, m, path, sha) <==> Registered(lens, m) && Identity(lens, m) == (path, sha)
  {
  }

  lemma {:induction false} CoversIsAllLines(lens: Lens, later: Message, earlier: Message)
    requires OrderedLines(lens)
    ensures Covers(lens.interval(later.content), lens.interval(earlier.content)) <==> HasAllLines(lens, later, earlier)
  {
    var a, b := lens.interval(later.content), lens.interval(earlier.content);
    if HasAllLines(lens, later, earlier) {
      assert HasLine(lens, earlier, b.value.first) && HasLine(lens, earlier, b.value.last);
      assert HasLine(lens, later, b.value.first) && HasLine(lens, later, b.value.last);
    }
  }

  lemma {:induction false} PathsOfMembers(lens: Lens, paths: seq<string>, path: string)
    ensures path in PathsOf(lens, paths) <==> Lists(lens, paths, path)
  {
    if paths != [] {
      PathsOfMembers(lens, paths[1..], path);
      if Lists(lens, paths[1..], path) {
        var k :| 0 <= k < |paths[1..]| && paths[1..][k] != "" && path == lens.normalize(paths[1..][k]);
        assert paths[k + 1] != "" && path == lens.normalize(paths[k + 1]);
      }
      if Lists(lens, paths, path) {
        var k :| 0 <= k < |paths| && paths[k] != "" && path == lens.normalize(paths[k]);
        assert k > 0 ==> paths[1..][k - 1] != "" && path == lens.normalize(paths[1..][k - 1]);
      }
    }
  }

  lemma {:induction false} NamesMembers(lens: Lens, md: Metadata, arguments: Arguments, path: string)
    ensures path in MutationPaths(lens, md, arguments) <==>
      Names(lens, md.files, md.changedFiles, md.path, arguments, path)
  {
    var listed := if Present(md.files) then md.files else md.changedFiles;
    assert md.files.Truthy() <==> Present(md.files);
    if listed.PathList? {
      PathsOfMembers(lens, listed.paths, path);
      assert MutationPaths(lens, md, arguments) == PathsOf(lens, listed.paths);
    } else {
      var named := NonEmptyOr(md.path, if "path" in arguments then arguments["path"] else "");
      assert MutationPaths(lens, md, arguments) == if named != "" then [Canonical(lens, named)] else [];
    }
  }

  lemma {:induction false} EnrichedPath(lens: Lens, m: Message)
    requires m.role.Tool?
    ensures Recorded(lens, m, Enrich(lens, m).metadata.path)
    ensures forall recorded :: Recorded(lens, m, recorded) ==> recorded == Enrich(lens, m).metadata.path
    ensures Enrich(lens, m).metadata.files == m.metadata.files
    ensures Enrich(lens, m).metadata.changedFiles == m.metadata.changedFiles
  {
  }

  lemma {:induction false} MutatesIsMutated(lens: Lens, ms: Conversation, t: nat, path: string)
    requires Grammar(ms) && ForeignIdsApart(ms) && t < |ms|
    ensures Mutates(lens, ms, t, path) <==> path in Mutated(lens, CallDetails(ms), ms[t])
  {
    var m := ms[t];
    if m.role.Tool? {
      var c := CallOf(ms, t);
      EnrichedPath(lens, m);
      NamesMembers(lens, Enrich(lens, m).metadata, c.arguments, path);
      if Mutates(lens, ms, t, path) {
        var d, recorded :|
          && AnswersCall(ms, t, d) && Recorded(lens, ms[t], recorded)
          && ((!ms[t].isError && d.name in {"apply_patch", "delete_file", "replace_in_file", "write_file"})
              || Present(ms[t].metadata.changedFiles))
          && Names(lens, ms[t].metadata.files, ms[t].metadata.changedFiles, recorded, d.arguments, path);
        ResolvesToCall(ms, t, d);
      }
    }
  }

  lemma {:induction false} RetiresIs(
    lens: Lens, ms: Conversation, i: nat, j: nat, path: string, sha: string)
    requires Grammar(ms) && ForeignIdsApart(ms) && OrderedLines(lens)
    requires i < j < |ms| && LookupKey(lens, ms[i]) == (path, sha) && path != "" && sha != ""
    ensures Retires(lens, CallDetails(ms), ms[j], ms[i]) <==> Supersedes(lens, ms, i, j, path, sha)
  {
    MutatesIsMutated(lens, ms, j, path);
    ReadsIsRegistered(lens, ms[j], path, sha);
    CoversIsAllLines(lens, ms[j], ms[i]);
  }

  // ---------------------------------------------------------------------------
  // What the view shows
  // ---------------------------------------------------------------------------

  /** The metadata of a read does not contradict the path and hash that it is a read of. */
  predicate Keyed(m: Message, path: string, sha: string) {
    && (m.metadata.path.None? || m.metadata.path == Some(path))
    && (m.metadata.sha256.None? || m.metadata.sha256 == Some(sha))
  }

  lemma {:induction false} KeyIs(lens: Lens, m: Message, path: string, sha: string)
    requires Reads(lens, m, path, sha) && Keyed(m, path, sha)
    ensures LookupKey(lens, m) == (path, sha) && Prunable(lens, m)
  {
  }

  lemma {:induction false} SupersededIs(lens: Lens, ms: Conversation, i: nat, path: string, sha: string)
    requires Grammar(ms) && ForeignIdsApart(ms) && OrderedLines(lens)
    requires i < |ms| && Reads(lens, ms[i], path, sha) && Keyed(ms[i], path, sha)
    ensures ReadSuperseded(lens, CallDetails(ms), ms, i) <==> Superfluous(lens, ms, i, path, sha)
  {
    KeyIs(lens, ms[i], path, sha);
    forall j: nat | i < j < |ms|
      ensures Retires(lens, CallDetails(ms), ms[j], ms[i]) <==> Supersedes(lens, ms, i, j, path, sha)
    {
      RetiresIs(lens, ms, i, j, path, sha);
    }
    if ReadSuperseded(lens, CallDetails(ms), ms, i) {
      var j :| i < j < |ms| && Retires(lens, CallDetails(ms), ms[j], ms[i]);
      assert Supersedes(lens, ms, i, j, path, sha);
    }
    if Superfluous(lens, ms, i, path, sha) {
      var j: nat :| i < j < |ms| && Supersedes(lens, ms, i, j, path, sha);
      assert Retires(lens, CallDetails(ms), ms[j], ms[i]);
    }
  }

  /**
   * A read whose metadata is consistent is shown as a placeholder with its path and hash exactly
   * when a later result changes that path, or a later read of the same revision has the same
   * text or all its lines; otherwise it is shown in full. Either way its metadata tells its path and hash.
   */
  lemma {:induction false} ReadShownUnlessSuperfluous(
    lens: Lens, ms: Conversation, i: nat, path: string, sha: string)
    requires Grammar(ms) && ForeignIdsApart(ms) && OrderedLines(lens)
    requires i < |ms| && Reads(lens, ms[i], path, sha) && Keyed(ms[i], path, sha)
    ensures
      var shown := Pruned(lens, ms)[i];
      if Superfluous(lens, ms, i, path, sha)
      then ShownAs(ms[i], shown, "[superseded read: path=" + path + " sha256=" + sha + "]", "superseded_read")
      else ShownInFull(ms[i], shown)
    ensures Pruned(lens, ms)[i].metadata.path == Some(path) && Pruned(lens, ms)[i].metadata.sha256 == Some(sha)
  {
    KeyIs(lens, ms[i], path, sha);
    SupersededIs(lens, ms, i, path, sha);
    assert Pruned(lens, ms)[i] == View(lens, CallDetails(ms), ms, i);
  }

  /** A read is the read of one revision; it is replaced only if its metadata is consistent. */
  lemma {:induction false} ReplacedReadsAreKeyed(lens: Lens, ms: Conversation, i: nat)
    requires CanonicalPaths(lens) && i < |ms| && ReadSuperseded(lens, CallDetails(ms), ms, i)
    ensures
      var (path, sha) := Identity(lens, ms[i]);
      Reads(lens, ms[i], path, sha) && Keyed(ms[i], path, sha)
  {
    var j :| i < j < |ms| && Retires(lens, CallDetails(ms), ms[j], ms[i]);
    RetiredKey(lens, CallDetails(ms), ms[j], ms[i]);
  }

  /** A later message changes the path, or is a read of the same revision, shown in full, that has as much. */
  ghost predicate Replaced(lens: Lens, ms: Conversation, i: nat, path: string, sha: string)
    requires i < |ms|
  {
    || (exists j: nat :: i < j < |ms| && Mutates(lens, ms, j, path))
    || (exists j: nat :: i < j < |ms| && Supersedes(lens, ms, i, j, path, sha) && Reads(lens, ms[j], path, sha)
          && ShownInFull(ms[j], Pruned(lens, ms)[j]))
  }

  /**
   * Nothing is lost: a read whose text is not shown is the read of some revision of a file that is
   * changed later or that a later read, itself shown in full, gives with the same text or all lines.
   */
  lemma {:induction false} HiddenReadsAreReplaced(lens: Lens, ms: Conversation, i: nat)
    returns (path: string, sha: string)
    requires Grammar(ms) && ForeignIdsApart(ms) && OrderedLines(lens) && CanonicalPaths(lens)
    requires i < |ms| && ms[i].role.Tool? && ms[i].toolName == Some("read_file")
    requires Pruned(lens, ms)[i].content != ms[i].content
    ensures Reads(lens, ms[i], path, sha) && Replaced(lens, ms, i, path, sha)
  {
    assert Pruned(lens, ms)[i] == View(lens, CallDetails(ms), ms, i);
    ReplacedReadsAreKeyed(lens, ms, i);
    path, sha := Identity(lens, ms[i]).0, Identity(lens, ms[i]).1;
    KeyIs(lens, ms[i], path, sha);
    PrunedReadJustified(lens, CallDetails(ms), ms, i);
    ReplacedWhenJustified(lens, ms, i, path, sha);
  }

  lemma {:induction false} ReplacedWhenJustified(lens: Lens, ms: Conversation, i: nat, path: string, sha: string)
    requires Grammar(ms) && ForeignIdsApart(ms) && OrderedLines(lens)
    requires i < |ms| && Reads(lens, ms[i], path, sha) && LookupKey(lens, ms[i]) == (path, sha)
    requires ReadJustified(lens, CallDetails(ms), ms, i)
    ensures Replaced(lens, ms, i, path, sha)
  {
    if j :| i < j < |ms| && path in Mutated(lens, CallDetails(ms), ms[j]) {
      MutatesIsMutated(lens, ms, j, path);
    } else {
      var j :| i < j < |ms| && Replaces(lens, ms[j], ms[i]) && !ReadSuperseded(lens, CallDetails(ms), ms, j);
      RetiresIs(lens, ms, i, j, path, sha);
      ReadsIsRegistered(lens, ms[j], path, sha);
      assert Retires(lens, CallDetails(ms), ms[j], ms[i]);
      assert Pruned(lens, ms)[j] == View(lens, CallDetails(ms), ms, j);
    }
  }

  // ---------------------------------------------------------------------------
  // Discovery outputs and everything else
  // ---------------------------------------------------------------------------

  /** A successful output of a discovery tool, for this call. */
  ghost predicate Discovery(ms: Conversation, t: nat, c: ToolCall) {
    && AnswersCall(ms, t, c) && !ms[t].isError
    && c.name in {"git_log", "git_status", "glob_files", "grep", "list_directory", "read_instructions", "read_skill",
                  "repo_map"}
  }

  ghost predicate RepeatedLater(ms: Conversation, i: nat, c: ToolCall) {
    exists j, d :: i < j < |ms| && Discovery(ms, j, d) && d.name == c.name && d.arguments == c.arguments
  }

  lemma {:induction false} DiscoveryIs(ms: Conversation, t: nat, c: ToolCall)
    requires Grammar(ms) && ForeignIdsApart(ms) && AnswersCall(ms, t, c)
    ensures Discovers(CallDetails(ms), ms[t]) <==> Discovery(ms, t, c)
  {
    ResolvesToCall(ms, t, c);
  }

  lemma {:induction false} RepeatedIs(ms: Conversation, i: nat, c: ToolCall)
    requires Grammar(ms) && ForeignIdsApart(ms) && i < |ms| && Discovery(ms, i, c)
    ensures OutputRepeated(CallDetails(ms), ms, i) <==> RepeatedLater(ms, i, c)
  {
    ResolvesToCall(ms, i, c);
    DiscoveryIs(ms, i, c);
    if IsRead(ms[i]) { ReadsDiscoverNothing(ms, i); }
    if OutputRepeated(CallDetails(ms), ms, i) {
      var j :| i < j < |ms| && Repeats(CallDetails(ms), ms[j], ms[i]);
      var d := CallOf(ms, j);
      DiscoveryIs(ms, j, d);
    }
    if RepeatedLater(ms, i, c) {
      var j, d :| i < j < |ms| && Discovery(ms, j, d) && d.name == c.name && d.arguments == c.arguments;
      ResolvesToCall(ms, j, d);
      assert Repeats(CallDetails(ms), ms[j], ms[i]);
    }
  }

  /**
   * A successful output of a discovery tool is shown as a placeholder with the name of the tool
   * exactly when a later one of the same tool and arguments succeeds; otherwise in full.
   */
  lemma {:induction false} DiscoveryShownUnlessRepeated(lens: Lens, ms: Conversation, i: nat, c: ToolCall)
    requires Grammar(ms) && ForeignIdsApart(ms) && i < |ms| && Discovery(ms, i, c)
    ensures
      var shown := Pruned(lens, ms)[i];
      if RepeatedLater(ms, i, c)
      then ShownAs(ms[i], shown, "[superseded successful " + c.name + " output]", "repeated_output")
      else ShownInFull(ms[i], shown)
  {
    RepeatedIs(ms, i, c);
    ResolvesToCall(ms, i, c);
    DiscoveryIs(ms, i, c);
    if IsRead(ms[i]) { ReadsDiscoverNothing(ms, i); }
    assert Pruned(lens, ms)[i] == View(lens, CallDetails(ms), ms, i);
  }

  /**
   * All other messages are shown in full: errors, results of other tools, reads whose metadata is
   * not consistent, and whatever is no result.
   */
  lemma {:induction false} OthersShownInFull(lens: Lens, ms: Conversation, i: nat)
    requires Grammar(ms) && ForeignIdsApart(ms) && CanonicalPaths(lens) && i < |ms|
    requires forall path, sha :: Reads(lens, ms[i], path, sha) ==> !Keyed(ms[i], path, sha)
    requires forall c :: !Discovery(ms, i, c)
    ensures ShownInFull(ms[i], Pruned(lens, ms)[i])
  {
    assert Pruned(lens, ms)[i] == View(lens, CallDetails(ms), ms, i);
    if ReadSuperseded(lens, CallDetails(ms), ms, i) {
      ReplacedReadsAreKeyed(lens, ms, i);
    }
    if OutputRepeated(CallDetails(ms), ms, i) {
      var c := CallOf(ms, i);
      DiscoveryIs(ms, i, c);
    }
  }
}
