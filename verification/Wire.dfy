/** The Anthropic wire form of a conversation: entries of alternating roles. */
module Wire {
  import opened Wrappers
  import opened Transcript
  import opened Sequences

  datatype WireRole = UserRole | AssistantRole

  datatype Block =
    | Text(text: string)
    | ToolUse(id: string, name: string, input: Arguments)
    | ToolResult(toolUseId: Option<string>, content: string, isError: bool)

  datatype Entry = Entry(role: WireRole, content: seq<Block>)

  function ToolUses(calls: seq<ToolCall>): (blocks: seq<Block>)
    ensures |blocks| == |calls|
    ensures forall i :: 0 <= i < |calls| ==> blocks[i] == ToolUse(calls[i].id, calls[i].name, calls[i].arguments)
  {
    seq(|calls|, i requires 0 <= i < |calls| => ToolUse(calls[i].id, calls[i].name, calls[i].arguments))
  }

  function Blocks(m: Message): seq<Block> {
    match m.role
    case System => []
    case User => [Text(m.content)]
    case Assistant => (if m.content != "" then [Text(m.content)] else []) + ToolUses(m.toolCalls)
    case Tool => [ToolResult(m.toolCallId, m.content, m.isError)]
  }

  function RoleOf(m: Message): WireRole {
    if m.role.Assistant? then AssistantRole else UserRole
  }

  /** `_append_content`: extend the last entry when the role repeats, otherwise open a new entry. */
  function Append(output: seq<Entry>, role: WireRole, content: seq<Block>): seq<Entry> {
    if content == [] then output
    else if output != [] && output[|output| - 1].role == role then
      output[|output| - 1 := Entry(role, output[|output| - 1].content + content)]
    else output + [Entry(role, content)]
  }

  function Extend(output: seq<Entry>, ms: Conversation): seq<Entry>
    decreases |ms|
  {
    if ms == [] then output else Extend(Append(output, RoleOf(ms[0]), Blocks(ms[0])), ms[1..])
  }

  method AppendContent(output: seq<Entry>, role: WireRole, content: seq<Block>) returns (r: seq<Entry>)
    ensures r == Append(output, role, content)
  {
    if content == [] {
      return output;
    }
    if output != [] && output[|output| - 1].role == role {
      var existing := output[|output| - 1].content;
      return output[|output| - 1 := Entry(role, existing + content)];
    }
    return output + [Entry(role, content)];
  }

  /** `AnthropicProvider._messages`. */
  method Messages(ms: Conversation) returns (output: seq<Entry>)
    ensures output == Extend([], ms)
  {
    output := [];
    for i := 0 to |ms|
      invariant Extend(output, ms[i..]) == Extend([], ms)
    {
      var message := ms[i];
      assert ms[i..][1..] == ms[i + 1..];
      if message.role.System? {
        continue;
      }
      if message.role.User? {
        output := AppendContent(output, UserRole, [Text(message.content)]);
      } else if message.role.Assistant? {
        var content: seq<Block> := [];
        if message.content != "" {
          content := [Text(message.content)];
        }
        content := content + ToolUses(message.toolCalls);
        output := AppendContent(output, AssistantRole, content);
      } else {
        output := AppendContent(output, UserRole, [ToolResult(message.toolCallId, message.content, message.isError)]);
      }
    }
  }

  // ---------------------------------------------------------------------------
  // Alternation and content
  // ---------------------------------------------------------------------------

  ghost predicate Alternating(entries: seq<Entry>) {
    && (forall k :: 0 <= k < |entries| ==> entries[k].content != [])
    && (forall k :: 0 <= k < |entries| - 1 ==> entries[k].role != entries[k + 1].role)
  }

  /** Blocks with the role that speaks them, in order. */
  function Tag(role: WireRole, content: seq<Block>): (t: seq<(WireRole, Block)>)
    ensures |t| == |content| && forall i :: 0 <= i < |t| ==> t[i] == (role, content[i])
  {
    seq(|content|, i requires 0 <= i < |content| => (role, content[i]))
  }

  function EntryScript(entries: seq<Entry>): seq<(WireRole, Block)> {
    if entries == [] then []
    else EntryScript(entries[..|entries| - 1]) + Tag(entries[|entries| - 1].role, entries[|entries| - 1].content)
  }

  function MessageScript(ms: Conversation): seq<(WireRole, Block)> {
    if ms == [] then [] else Tag(RoleOf(ms[0]), Blocks(ms[0])) + MessageScript(ms[1..])
  }

  lemma {:induction false} AppendAlternates(output: seq<Entry>, role: WireRole, content: seq<Block>)
    requires Alternating(output)
    ensures Alternating(Append(output, role, content))
  {
  }

  lemma {:induction false} TagConcat(role: WireRole, a: seq<Block>, b: seq<Block>)
    ensures Tag(role, a + b) == Tag(role, a) + Tag(role, b)
  {
  }

  lemma {:induction false} ScriptOf(before: seq<Entry>, last: Entry)
    ensures EntryScript(before + [last]) == EntryScript(before) + Tag(last.role, last.content)
  {
    assert (before + [last])[..|before|] == before;
  }

  lemma {:induction false} NoBlocks(s: seq<(WireRole, Block)>, role: WireRole)
    ensures s + Tag(role, []) == s
  {
  }

  lemma {:induction false} AppendSpeaks(output: seq<Entry>, role: WireRole, content: seq<Block>)
    ensures EntryScript(Append(output, role, content)) == EntryScript(output) + Tag(role, content)
  {
    if content == [] {
      NoBlocks(EntryScript(output), role);
    } else if output != [] && output[|output| - 1].role == role {
      var before, last := output[..|output| - 1], output[|output| - 1];
      assert output == before + [last];
      assert Append(output, role, content) == before + [Entry(role, last.content + content)];
      ScriptOf(before, last);
      ScriptOf(before, Entry(role, last.content + content));
      TagConcat(role, last.content, content);
      Regroup(EntryScript(before), Tag(role, last.content), Tag(role, content));
    } else {
      ScriptOf(output, Entry(role, content));
    }
  }

  lemma {:induction false} ExtendAlternates(output: seq<Entry>, ms: Conversation)
    requires Alternating(output)
    ensures Alternating(Extend(output, ms))
    decreases |ms|
  {
    if ms != [] {
      AppendAlternates(output, RoleOf(ms[0]), Blocks(ms[0]));
      ExtendAlternates(Append(output, RoleOf(ms[0]), Blocks(ms[0])), ms[1..]);
    }
  }

  lemma {:induction false} ExtendScript(output: seq<Entry>, ms: Conversation)
    requires Alternating(output)
    ensures EntryScript(Extend(output, ms)) == EntryScript(output) + MessageScript(ms)
    decreases |ms|
  {
    if ms != [] {
      var next := Append(output, RoleOf(ms[0]), Blocks(ms[0]));
      AppendAlternates(output, RoleOf(ms[0]), Blocks(ms[0]));
      AppendSpeaks(output, RoleOf(ms[0]), Blocks(ms[0]));
      ExtendScript(next, ms[1..]);
      Regroup(EntryScript(output), Tag(RoleOf(ms[0]), Blocks(ms[0])), MessageScript(ms[1..]));
    }
  }

  /** The entries alternate and say exactly what the messages say, in order. */
  lemma {:induction false} WirePreservesContent(ms: Conversation)
    ensures Alternating(Extend([], ms))
    ensures EntryScript(Extend([], ms)) == MessageScript(ms)
  {
    ExtendAlternates([], ms);
    ExtendScript([], ms);
  }

  // ---------------------------------------------------------------------------
  // What the wire form tells of a conversation
  // ---------------------------------------------------------------------------

  type Said = (WireRole, Block)

  type Reply = (Option<string>, string, bool)

  /** What one side says in a text block. */
  function TextBy(role: WireRole): Said -> seq<string> {
    (said: Said) => if said.0 == role && said.1.Text? then [said.1.text] else []
  }

  /** The call of a tool that the assistant makes in a block. */
  function CallIn(): Said -> seq<ToolCall> {
    (said: Said) =>
      if said.0.AssistantRole? && said.1.ToolUse? then [ToolCall(said.1.id, said.1.name, said.1.input)] else []
  }

  /** The result that the user side gives in a block. */
  function ReplyIn(): Said -> seq<Reply> {
    (said: Said) =>
      if said.0.UserRole? && said.1.ToolResult? then [(said.1.toolUseId, said.1.content, said.1.isError)] else []
  }

  function UserText(): Message -> seq<string> {
    (m: Message) => if m.role.User? then [m.content] else []
  }

  function AssistantText(): Message -> seq<string> {
    (m: Message) => if m.role.Assistant? && m.content != "" then [m.content] else []
  }

  function AssistantCalls(): Message -> seq<ToolCall> {
    (m: Message) => if m.role.Assistant? then m.toolCalls else []
  }

  function ToolReply(): Message -> seq<Reply> {
    (m: Message) => if m.role.Tool? then [(m.toolCallId, m.content, m.isError)] else []
  }

  /** In order: the texts of users and of assistants, the calls, and the results of a conversation. */
  ghost predicate Tells(script: seq<Said>, ms: Conversation) {
    && Gathered(script, TextBy(UserRole)) == Gathered(ms, UserText())
    && Gathered(script, TextBy(AssistantRole)) == Gathered(ms, AssistantText())
    && Gathered(script, CallIn()) == Gathered(ms, AssistantCalls())
    && Gathered(script, ReplyIn()) == Gathered(ms, ToolReply())
  }

  lemma {:induction false} TellsConcat(a: seq<Said>, x: Conversation, b: seq<Said>, y: Conversation)
    requires Tells(a, x) && Tells(b, y)
    ensures Tells(a + b, x + y)
  {
    GatheredConcat(a, b, TextBy(UserRole));
    GatheredConcat(a, b, TextBy(AssistantRole));
    GatheredConcat(a, b, CallIn());
    GatheredConcat(a, b, ReplyIn());
    GatheredConcat(x, y, UserText());
    GatheredConcat(x, y, AssistantText());
    GatheredConcat(x, y, AssistantCalls());
    GatheredConcat(x, y, ToolReply());
  }

  lemma {:induction false} GatheredBlock(role: WireRole, block: Block)
    ensures Gathered(Tag(role, [block]), TextBy(UserRole)) == TextBy(UserRole)((role, block))
    ensures Gathered(Tag(role, [block]), TextBy(AssistantRole)) == TextBy(AssistantRole)((role, block))
    ensures Gathered(Tag(role, [block]), CallIn()) == CallIn()((role, block))
    ensures Gathered(Tag(role, [block]), ReplyIn()) == ReplyIn()((role, block))
  {
    assert Tag(role, [block]) == [(role, block)];
    GatheredOne((role, block), TextBy(UserRole));
    GatheredOne((role, block), TextBy(AssistantRole));
    GatheredOne((role, block), CallIn());
    GatheredOne((role, block), ReplyIn());
  }

  lemma {:induction false} GatheredMessage(m: Message)
    ensures Gathered([m], UserText()) == UserText()(m) && Gathered([m], AssistantText()) == AssistantText()(m)
    ensures Gathered([m], AssistantCalls()) == AssistantCalls()(m) && Gathered([m], ToolReply()) == ToolReply()(m)
  {
    GatheredOne(m, UserText());
    GatheredOne(m, AssistantText());
    GatheredOne(m, AssistantCalls());
    GatheredOne(m, ToolReply());
  }

  lemma {:induction false} UsesTold(calls: seq<ToolCall>)
    ensures
      var script := Tag(AssistantRole, ToolUses(calls));
      && Gathered(script, TextBy(UserRole)) == [] && Gathered(script, TextBy(AssistantRole)) == []
      && Gathered(script, CallIn()) == calls && Gathered(script, ReplyIn()) == []
  {
    if calls != [] {
      UsesTold(calls[1..]);
      assert Tag(AssistantRole, ToolUses(calls))[1..] == Tag(AssistantRole, ToolUses(calls[1..]));
      assert calls == [calls[0]] + calls[1..];
    }
  }

  lemma {:induction false} AssistantTells(m: Message)
    requires m.role.Assistant?
    ensures Tells(Tag(AssistantRole, Blocks(m)), [m])
  {
    var text, uses := if m.content != "" then [Text(m.content)] else [], ToolUses(m.toolCalls);
    GatheredMessage(m);
    if m.content != "" { GatheredBlock(AssistantRole, Text(m.content)); }
    UsesTold(m.toolCalls);
    TagConcat(AssistantRole, text, uses);
    GatheredConcat(Tag(AssistantRole, text), Tag(AssistantRole, uses), TextBy(UserRole));
    GatheredConcat(Tag(AssistantRole, text), Tag(AssistantRole, uses), TextBy(AssistantRole));
    GatheredConcat(Tag(AssistantRole, text), Tag(AssistantRole, uses), CallIn());
    GatheredConcat(Tag(AssistantRole, text), Tag(AssistantRole, uses), ReplyIn());
  }

  /** What one message says is told by its blocks. */
  lemma {:induction false} BlocksTell(m: Message)
    ensures Tells(Tag(RoleOf(m), Blocks(m)), [m])
  {
    if m.role.Assistant? {
      AssistantTells(m);
    } else {
      GatheredMessage(m);
      if !m.role.System? { GatheredBlock(RoleOf(m), Blocks(m)[0]); }
    }
  }

  lemma {:induction false} ScriptTells(ms: Conversation)
    ensures Tells(MessageScript(ms), ms)
  {
    if ms != [] {
      assert ms == [ms[0]] + ms[1..];
      ScriptTells(ms[1..]);
      BlocksTell(ms[0]);
      TellsConcat(Tag(RoleOf(ms[0]), Blocks(ms[0])), [ms[0]], MessageScript(ms[1..]), ms[1..]);
    }
  }

  /**
   * The wire form tells everything: in order, the texts of users and of assistants, the calls with
   * their ids, names and arguments, and the results with their ids, contents and error flags.
   */
  lemma {:induction false} WireTellsEverything(ms: Conversation)
    ensures Tells(EntryScript(Extend([], ms)), ms)
  {
    WirePreservesContent(ms);
    ScriptTells(ms);
  }

  /** How many blocks at the end of a script have the same role. */
  function TailRun(s: seq<(WireRole, Block)>): nat {
    if |s| < 2 then |s|
    else if s[|s| - 2].0 == s[|s| - 1].0 then 1 + TailRun(s[..|s| - 1])
    else 1
  }

  lemma {:induction false} TailRunOfTag(s: seq<(WireRole, Block)>, role: WireRole, content: seq<Block>)
    requires s == [] || s[|s| - 1].0 != role
    requires content != []
    ensures TailRun(s + Tag(role, content)) == |content|
  {
    var n := |content| - 1;
    var t := s + Tag(role, content);
    if n > 0 {
      TailRunOfTag(s, role, content[..n]);
      assert t[..|t| - 1] == s + Tag(role, content[..n]);
    }
  }

  function LastRun(s: seq<(WireRole, Block)>): seq<(WireRole, Block)> {
    if TailRun(s) <= |s| then s[|s| - TailRun(s)..] else []
  }

  function BeforeLastRun(s: seq<(WireRole, Block)>): seq<(WireRole, Block)> {
    if TailRun(s) <= |s| then s[..|s| - TailRun(s)] else []
  }

  lemma {:induction false} RunAtTheEnd(s: seq<(WireRole, Block)>, t: seq<(WireRole, Block)>)
    requires TailRun(s + t) == |t|
    ensures LastRun(s + t) == t && BeforeLastRun(s + t) == s
  {
  }

  /** The script of alternating entries ends with the role of the last one. */
  lemma {:induction false} ScriptEnds(a: seq<Entry>)
    requires a != [] && Alternating(a)
    ensures EntryScript(a) != [] && EntryScript(a)[|EntryScript(a)| - 1].0 == a[|a| - 1].role
  {
  }

  /** The script of alternating entries tells where their last entry begins, and what it is. */
  lemma {:induction false} LastEntryOf(a: seq<Entry>)
    requires a != [] && Alternating(a)
    ensures LastRun(EntryScript(a)) == Tag(a[|a| - 1].role, a[|a| - 1].content)
    ensures BeforeLastRun(EntryScript(a)) == EntryScript(a[..|a| - 1])
    ensures Alternating(a[..|a| - 1])
    decreases |a|
  {
    var n := |a| - 1;
    FewerAlternate(a);
    if n > 0 {
      ScriptEnds(a[..n]);
      assert a[n - 1].role != a[n].role;
    }
    TailRunOfTag(EntryScript(a[..n]), a[n].role, a[n].content);
    RunAtTheEnd(EntryScript(a[..n]), Tag(a[n].role, a[n].content));
  }

  lemma {:induction false} FewerAlternate(a: seq<Entry>)
    requires a != [] && Alternating(a)
    ensures Alternating(a[..|a| - 1])
  {
  }

  lemma {:induction false} EntriesSpeak(a: seq<Entry>)
    requires a != [] && Alternating(a)
    ensures EntryScript(a) != []
  {
  }

  /** Alternating entries are determined by what they say. */
  lemma {:induction false} AlternationUnique(a: seq<Entry>, b: seq<Entry>)
    requires Alternating(a) && Alternating(b) && EntryScript(a) == EntryScript(b)
    ensures a == b
    decreases |a|
  {
    if a == [] {
      if b != [] { EntriesSpeak(b); }
    } else {
      EntriesSpeak(a);
      assert b != [];
      var m, n := |a| - 1, |b| - 1;
      LastEntryOf(a);
      LastEntryOf(b);
      AlternationUnique(a[..m], b[..n]);
      SameTag(a[m], b[n]);
      Rejoin(a, b);
    }
  }

  lemma {:induction false} SameTag(a: Entry, b: Entry)
    requires a.content != [] && Tag(a.role, a.content) == Tag(b.role, b.content)
    ensures a == b
  {
    assert Tag(a.role, a.content)[0] == Tag(b.role, b.content)[0];
    forall i | 0 <= i < |a.content| ensures a.content[i] == b.content[i] {
      assert Tag(a.role, a.content)[i] == Tag(b.role, b.content)[i];
    }
    assert a.content == b.content;
  }

  // ---------------------------------------------------------------------------
  // Tool uses and the results that open the next entry
  // ---------------------------------------------------------------------------

  function UseIds(content: seq<Block>): seq<string> {
    if content == [] then []
    else (if content[0].ToolUse? then [content[0].id] else []) + UseIds(content[1..])
  }

  function ReplyIds(content: seq<Block>): seq<string> {
    if content == [] then []
    else (if content[0].ToolResult? then [content[0].toolUseId.GetOr("")] else []) + ReplyIds(content[1..])
  }

  /** The results that open a user entry. */
  function OpeningIds(content: seq<Block>): seq<string> {
    if content == [] || !content[0].ToolResult? then []
    else [content[0].toolUseId.GetOr("")] + OpeningIds(content[1..])
  }

  function UsesBefore(entries: seq<Entry>, k: nat): seq<string>
    requires k <= |entries|
  {
    if k == 0 then [] else UseIds(entries[k - 1].content)
  }

  /** A user entry opens with the results of the calls in the entry before it, and holds no others. */
  ghost predicate Paired(entries: seq<Entry>, k: nat)
    requires k < |entries|
  {
    match entries[k].role
    case UserRole =>
      && UseIds(entries[k].content) == []
      && OpeningIds(entries[k].content) == ReplyIds(entries[k].content)
      && multiset(OpeningIds(entries[k].content)) == multiset(UsesBefore(entries, k))
    case AssistantRole =>
      && ReplyIds(entries[k].content) == []
      && UsesBefore(entries, k) == []
  }

  /** Every entry is paired, and no call is left without an entry to answer it. */
  ghost predicate Answered(entries: seq<Entry>) {
    && (forall k :: 0 <= k < |entries| ==> Paired(entries, k))
    && UsesBefore(entries, |entries|) == []
  }

  lemma {:induction false} IdsConcat(a: seq<Block>, b: seq<Block>)
    ensures UseIds(a + b) == UseIds(a) + UseIds(b)
    ensures ReplyIds(a + b) == ReplyIds(a) + ReplyIds(b)
  {
    if a == [] {
      assert a + b == b;
    } else {
      IdsConcat(a[1..], b);
      IdsCons(a[0], a[1..] + b);
      IdsCons(a[0], a[1..]);
      assert [a[0]] + (a[1..] + b) == a + b && [a[0]] + a[1..] == a;
    }
  }

  lemma {:induction false} IdsCons(first: Block, rest: seq<Block>)
    ensures UseIds([first] + rest) == UseIds([first]) + UseIds(rest)
    ensures ReplyIds([first] + rest) == ReplyIds([first]) + ReplyIds(rest)
  {
    assert ([first] + rest)[1..] == rest && [first][1..] == [];
  }

  /** Blocks without replies do not change which replies open an entry. */
  lemma {:induction false} OpeningConcat(a: seq<Block>, b: seq<Block>)
    requires ReplyIds(b) == []
    ensures OpeningIds(a + b) == OpeningIds(a)
  {
    if a == [] {
      assert a + b == b;
    } else {
      assert (a + b)[1..] == a[1..] + b;
      OpeningConcat(a[1..], b);
    }
  }

  lemma {:induction false} UsesOfCalls(calls: seq<ToolCall>)
    ensures UseIds(ToolUses(calls)) == CallIds(calls) && ReplyIds(ToolUses(calls)) == []
  {
    if calls != [] {
      assert ToolUses(calls)[1..] == ToolUses(calls[1..]);
      UsesOfCalls(calls[1..]);
      assert CallIds(calls) == [calls[0].id] + CallIds(calls[1..]);
    }
  }

  lemma {:induction false} AssistantBlocks(m: Message)
    requires m.role.Assistant?
    ensures UseIds(Blocks(m)) == CallIds(m.toolCalls) && ReplyIds(Blocks(m)) == []
  {
    UsesOfCalls(m.toolCalls);
    var text := if m.content != "" then [Text(m.content)] else [];
    assert UseIds(text) == [] && ReplyIds(text) == [];
    IdsConcat(text, ToolUses(m.toolCalls));
  }

  lemma {:induction false} PairedFrame(a: seq<Entry>, b: seq<Entry>, k: nat)
    requires k < |a| && k < |b| && a[k] == b[k] && (k > 0 ==> a[k - 1] == b[k - 1])
    requires Paired(a, k)
    ensures Paired(b, k)
  {
  }

  /** Replacing the last entry, or adding one, leaves the pairing of the others alone. */
  lemma {:induction false} PairedPrefix(a: seq<Entry>, b: seq<Entry>)
    requires b != [] && |b| - 1 <= |a| && a[..|b| - 1] == b[..|b| - 1]
    requires forall k :: 0 <= k < |a| ==> Paired(a, k)
    requires Paired(b, |b| - 1)
    ensures forall k :: 0 <= k < |b| ==> Paired(b, k)
  {
    forall k | 0 <= k < |b| - 1 ensures Paired(b, k) {
      assert a[k] == a[..|b| - 1][k] == b[k];
      if k > 0 { assert a[k - 1] == a[..|b| - 1][k - 1] == b[k - 1]; }
      PairedFrame(a, b, k);
    }
  }

  /** Appending an assistant message without replies to answered entries. */
  lemma {:induction false} AppendAssistant(entries: seq<Entry>, content: seq<Block>)
    requires Alternating(entries) && Answered(entries) && ReplyIds(content) == [] && content != []
    ensures
      var r := Append(entries, AssistantRole, content);
      && r != [] && r[|r| - 1].role.AssistantRole?
      && (forall k :: 0 <= k < |r| ==> Paired(r, k))
      && UsesBefore(r, |r|) == UseIds(content)
  {
    var r := Append(entries, AssistantRole, content);
    var n := |r| - 1;
    if |r| == |entries| {
      IdsConcat(entries[n].content, content);
      assert Paired(entries, n);
    }
    PairedPrefix(entries, r);
  }

  lemma {:induction false} AppendUserText(entries: seq<Entry>, text: string)
    requires Alternating(entries) && Answered(entries)
    ensures Answered(Append(entries, UserRole, [Text(text)]))
  {
    var content := [Text(text)];
    TextAlone(text);
    var r := Append(entries, UserRole, content);
    if |r| == |entries| {
      var n := |r| - 1;
      MoreText(entries[n].content, text);
      assert Paired(entries, n);
    }
    PairedPrefix(entries, r);
  }

  lemma {:induction false} TextAlone(text: string)
    ensures UseIds([Text(text)]) == [] && ReplyIds([Text(text)]) == [] && OpeningIds([Text(text)]) == []
  {
    assert [Text(text)][1..] == [];
  }

  lemma {:induction false} MoreText(content: seq<Block>, text: string)
    ensures UseIds(content + [Text(text)]) == UseIds(content)
    ensures ReplyIds(content + [Text(text)]) == ReplyIds(content)
    ensures OpeningIds(content + [Text(text)]) == OpeningIds(content)
  {
    TextAlone(text);
    IdsConcat(content, [Text(text)]);
    OpeningConcat(content, [Text(text)]);
  }

  function RunBlocks(run: Conversation): seq<Block> {
    if run == [] then [] else Blocks(run[0]) + RunBlocks(run[1..])
  }

  lemma {:induction false} RunReplies(run: Conversation)
    requires forall k :: 0 <= k < |run| ==> run[k].role.Tool?
    ensures UseIds(RunBlocks(run)) == []
    ensures OpeningIds(RunBlocks(run)) == ReplyIds(RunBlocks(run)) == ResultIds(run)
  {
    if run != [] {
      RunReplies(run[1..]);
      assert RunBlocks(run)[1..] == RunBlocks(run[1..]);
      assert ResultIds(run) == [ResultId(run[0])] + ResultIds(run[1..]);
    }
  }

  /** A run of results collects in one user entry. */
  lemma {:induction false} ExtendRun(entries: seq<Entry>, content: seq<Block>, run: Conversation)
    requires forall k :: 0 <= k < |run| ==> run[k].role.Tool?
    ensures Extend(entries + [Entry(UserRole, content)], run) == entries + [Entry(UserRole, content + RunBlocks(run))]
    decreases |run|
  {
    if run == [] {
      assert content + [] == content;
    } else {
      var next := content + Blocks(run[0]);
      assert Append(entries + [Entry(UserRole, content)], UserRole, Blocks(run[0])) ==
        entries + [Entry(UserRole, next)];
      ExtendRun(entries, next, run[1..]);
      assert next + RunBlocks(run[1..]) == content + RunBlocks(run);
    }
  }

  lemma {:induction false} ExtendConcat(entries: seq<Entry>, a: Conversation, b: Conversation)
    ensures Extend(entries, a + b) == Extend(Extend(entries, a), b)
    decreases |a|
  {
    if a == [] {
      assert a + b == b;
    } else {
      assert (a + b)[1..] == a[1..] + b;
      ExtendConcat(Append(entries, RoleOf(a[0]), Blocks(a[0])), a[1..], b);
    }
  }

  /** A nonempty run of results after an assistant entry makes one user entry. */
  lemma {:induction false} ExtendResults(asked: seq<Entry>, run: Conversation)
    requires asked != [] && asked[|asked| - 1].role.AssistantRole? && run != []
    requires forall k :: 0 <= k < |run| ==> run[k].role.Tool?
    ensures Extend(asked, run) == asked + [Entry(UserRole, RunBlocks(run))]
  {
    assert Append(asked, UserRole, Blocks(run[0])) == asked + [Entry(UserRole, Blocks(run[0]))];
    ExtendRun(asked, Blocks(run[0]), run[1..]);
  }

  lemma {:induction false} PairResults(asked: seq<Entry>, run: Conversation, ids: seq<string>)
    requires asked != [] && asked[|asked| - 1].role.AssistantRole?
    requires forall k :: 0 <= k < |asked| ==> Paired(asked, k)
    requires UsesBefore(asked, |asked|) == ids && multiset(ResultIds(run)) == multiset(ids)
    requires forall k :: 0 <= k < |run| ==> run[k].role.Tool?
    ensures Answered(asked + [Entry(UserRole, RunBlocks(run))])
  {
    RunReplies(run);
    LastReplies(asked, RunBlocks(run));
  }

  lemma {:induction false} LastReplies(asked: seq<Entry>, content: seq<Block>)
    requires asked != [] && forall k :: 0 <= k < |asked| ==> Paired(asked, k)
    requires UseIds(content) == [] && OpeningIds(content) == ReplyIds(content)
    requires multiset(OpeningIds(content)) == multiset(UsesBefore(asked, |asked|))
    ensures Answered(asked + [Entry(UserRole, content)])
  {
    var r := asked + [Entry(UserRole, content)];
    assert r[..|r| - 1] == asked;
    assert r[|asked| - 1] == asked[|asked| - 1];
    PairedPrefix(asked, r);
  }

  /** A batch of calls with its results keeps the entries answered. */
  lemma {:induction false} ExtendBatch(entries: seq<Entry>, m: Message, run: Conversation)
    requires Alternating(entries) && Answered(entries)
    requires Calls(m) && Answers(m.toolCalls, run) && forall k :: 0 <= k < |run| ==> run[k].role.Tool?
    ensures Answered(Extend(entries, [m] + run))
  {
    var ids := CallIds(m.toolCalls);
    AssistantBlocks(m);
    assert Blocks(m) != [] by { assert ids != []; }
    AppendAssistant(entries, Blocks(m));
    var asked := Append(entries, AssistantRole, Blocks(m));
    assert run != [] by { assert |multiset(ResultIds(run))| == |multiset(ids)|; }
    ExtendResults(asked, run);
    PairResults(asked, run, ids);
    assert ([m] + run)[1..] == run;
  }

  lemma {:induction false} ExtendPlain(entries: seq<Entry>, m: Message)
    requires Alternating(entries) && Answered(entries) && !m.role.Tool? && !Calls(m)
    ensures Answered(Extend(entries, [m]))
  {
    assert [m][1..] == [];
    assert Extend(entries, [m]) == Append(entries, RoleOf(m), Blocks(m));
    if m.role.User? {
      AppendUserText(entries, m.content);
    } else if m.role.Assistant? && Blocks(m) != [] {
      AssistantBlocks(m);
      AppendAssistant(entries, Blocks(m));
    }
  }

  /** The end of the first bundle-sized step through a conversation. */
  function FirstStep(ms: Conversation): (n: nat)
    requires ms != []
    ensures 1 <= n <= |ms|
  {
    if Calls(ms[0]) then RunEnd(ms, 1) else 1
  }

  lemma {:induction false} ExtendStep(entries: seq<Entry>, ms: Conversation)
    requires Alternating(entries) && Answered(entries) && Grammar(ms) && ms != []
    ensures Answered(Extend(entries, ms[..FirstStep(ms)]))
    ensures Grammar(ms[FirstStep(ms)..])
  {
    var n := FirstStep(ms);
    assert Attached(ms, 0);
    assert 1 < |ms| ==> Attached(ms, 1);
    GrammarSplits(ms, n);
    if Calls(ms[0]) {
      assert GoodBatch(ms, 0);
      assert ms[..n] == [ms[0]] + Results(ms, 0);
      ExtendBatch(entries, ms[0], Results(ms, 0));
    } else {
      assert ms[..n] == [ms[0]];
      ExtendPlain(entries, ms[0]);
    }
  }

  lemma {:induction false} ExtendSplits(entries: seq<Entry>, ms: Conversation, n: nat)
    requires n <= |ms|
    ensures Extend(entries, ms) == Extend(Extend(entries, ms[..n]), ms[n..])
  {
    assert ms == ms[..n] + ms[n..];
    ExtendConcat(entries, ms[..n], ms[n..]);
  }

  /** From one boundary of a well-formed conversation to its end. */
  lemma {:induction false} ExtendAnswered(entries: seq<Entry>, ms: Conversation)
    requires Alternating(entries) && Answered(entries) && Grammar(ms)
    ensures Answered(Extend(entries, ms))
    decreases |ms|
  {
    if ms != [] {
      ExtendStep(entries, ms);
      var n := FirstStep(ms);
      ExtendSplits(entries, ms, n);
      ExtendAlternates(entries, ms[..n]);
      ExtendAnswered(Extend(entries, ms[..n]), ms[n..]);
    }
  }

  /**
   * The wire form of a well-formed conversation: each user entry opens with results
   * for exactly the calls of the assistant entry before it, and no call is left open.
   */
  lemma {:induction false} WireIsAnswered(ms: Conversation)
    requires Grammar(ms)
    ensures Answered(Extend([], ms))
  {
    ExtendAnswered([], ms);
  }
}
