/** Grouping a conversation into bundles that are never split. */
module Bundles {
  import opened Wrappers
  import opened Transcript
  import Text

  datatype BundleKind = Request | Steering | Verification | ToolCycle | Terminal | SystemNote

  datatype Bundle = Bundle(kind: BundleKind, messages: Conversation)

  function Flatten(bundles: seq<Bundle>): Conversation {
    if bundles == [] then [] else bundles[0].messages + Flatten(bundles[1..])
  }

  lemma {:induction false} FlattenConcat(a: seq<Bundle>, b: seq<Bundle>)
    ensures Flatten(a + b) == Flatten(a) + Flatten(b)
  {
    if a == [] {
      assert a + b == b;
    } else {
      assert (a + b)[1..] == a[1..] + b;
      FlattenConcat(a[1..], b);
    }
  }

  lemma {:induction false} FlattenAppend(a: seq<Bundle>, b: Bundle)
    ensures Flatten(a + [b]) == Flatten(a) + b.messages
  {
    FlattenConcat(a, [b]);
    assert Flatten([b]) == b.messages + Flatten([]);
  }

  function UserKind(m: Message): BundleKind {
    if m.metadata.steering then Steering
    else if Text.StartsWith(m.metadata.internal, "verification_") then Verification
    else Request
  }

  /** A batch of calls with its results. */
  ghost predicate Cycle(ms: Conversation) {
    ms != [] && Calls(ms[0]) && forall k :: 1 <= k < |ms| ==> ms[k].role.Tool?
  }

  ghost predicate Shaped(b: Bundle) {
    b.messages != [] &&
    match b.kind
    case SystemNote => |b.messages| == 1 && b.messages[0].role.System?
    case Steering => |b.messages| == 1 && b.messages[0].role.User? && UserKind(b.messages[0]) == Steering
    case Verification => |b.messages| == 1 && b.messages[0].role.User? && UserKind(b.messages[0]) == Verification
    case Request =>
      b.messages[0].role.User? && UserKind(b.messages[0]) == Request && (|b.messages| == 1 || Cycle(b.messages[1..]))
    case ToolCycle => Cycle(b.messages)
    case Terminal => |b.messages| == 1 && b.messages[0].role.Assistant? && !Calls(b.messages[0])
  }

  /** A request takes the batch that follows it, if one does. */
  ghost predicate Greedy(bundles: seq<Bundle>, k: nat)
    requires k + 1 < |bundles|
  {
    !(bundles[k].kind.Request? && |bundles[k].messages| == 1 && bundles[k + 1].kind.ToolCycle?)
  }

  ghost predicate IsBundling(ms: Conversation, bundles: seq<Bundle>) {
    && Flatten(bundles) == ms
    && (forall k :: 0 <= k < |bundles| ==> Shaped(bundles[k]))
    && (forall k :: 0 <= k < |bundles| - 1 ==> Greedy(bundles, k))
  }

  // ---------------------------------------------------------------------------
  // There is only one way to bundle a conversation
  // ---------------------------------------------------------------------------

  lemma {:induction false} BundlingTail(ms: Conversation, bundles: seq<Bundle>)
    requires IsBundling(ms, bundles) && bundles != []
    ensures IsBundling(ms[|bundles[0].messages|..], bundles[1..])
  {
    var t := bundles[1..];
    assert ms == bundles[0].messages + Flatten(t);
    forall k | 0 <= k < |t| - 1 ensures Greedy(t, k) { assert Greedy(bundles, k + 1); }
  }

  lemma {:induction false} FirstNotTool(bundles: seq<Bundle>)
    requires bundles != [] && Shaped(bundles[0])
    ensures Flatten(bundles) != [] && !Flatten(bundles)[0].role.Tool?
    ensures Flatten(bundles)[0] == bundles[0].messages[0]
  {
  }

  /** The shape of a bundle fixes where it ends in the conversation it opens. */
  lemma {:induction false} FirstBundleEnd(ms: Conversation, bundles: seq<Bundle>)
    requires IsBundling(ms, bundles) && bundles != []
    ensures
      var n := |bundles[0].messages|;
      && 1 <= n <= |ms| && bundles[0].messages == ms[..n]
      && bundles[0].kind == (
        if ms[0].role.System? then SystemNote
        else if ms[0].role.User? then UserKind(ms[0])
        else if Calls(ms[0]) then ToolCycle else Terminal)
      && n == (
        if Calls(ms[0]) then RunEnd(ms, 1)
        else if ms[0].role.User? && UserKind(ms[0]).Request? && 1 < |ms| && Calls(ms[1]) then RunEnd(ms, 2)
        else 1)
  {
    var b, t := bundles[0], bundles[1..];
    var n := |b.messages|;
    assert ms == b.messages + Flatten(t) && b.messages == ms[..n];
    BundlingTail(ms, bundles);
    if t != [] {
      FirstNotTool(t);
      assert ms[n] == Flatten(t)[0];
    }
    assert Boundary(ms, n);
    if Cycle(b.messages) {
      RunEndAt(ms, 1, n);
    } else if n > 1 {
      assert forall k :: 2 <= k < n ==> b.messages[k] == b.messages[1..][k - 1];
      RunEndAt(ms, 2, n);
    } else if b.kind.Request? && t != [] {
      assert Shaped(t[0]) && t[0].messages[0] == ms[1];
      assert t[0].kind.ToolCycle? <==> Calls(ms[1]);
      assert Greedy(bundles, 0);
    }
  }

  lemma {:induction false} RunEndAt(ms: Conversation, i: nat, n: nat)
    requires i <= n <= |ms| && Boundary(ms, n)
    requires forall k :: i <= k < n ==> ms[k].role.Tool?
    ensures RunEnd(ms, i) == n
    decreases n - i
  {
    if i < n { RunEndAt(ms, i + 1, n); }
  }

  lemma {:induction false} BundlingUnique(ms: Conversation, a: seq<Bundle>, b: seq<Bundle>)
    requires IsBundling(ms, a) && IsBundling(ms, b)
    ensures a == b
    decreases |a|
  {
    if a == [] {
      if b != [] { FirstNotTool(b); }
    } else {
      FirstNotTool(a);
      assert b != [];
      FirstBundleEnd(ms, a);
      FirstBundleEnd(ms, b);
      assert a[0] == b[0];
      BundlingTail(ms, a);
      BundlingTail(ms, b);
      BundlingUnique(ms[|a[0].messages|..], a[1..], b[1..]);
      assert a == [a[0]] + a[1..] && b == [b[0]] + b[1..];
    }
  }

  // ---------------------------------------------------------------------------
  // Cutting between bundles
  // ---------------------------------------------------------------------------

  /** Every cut between bundles leaves a well-formed prefix and a well-formed suffix. */
  lemma {:induction false} SuffixIsGrammatical(ms: Conversation, bundles: seq<Bundle>, k: nat)
    requires Grammar(ms) && IsBundling(ms, bundles) && k <= |bundles|
    ensures ms == Flatten(bundles[..k]) + Flatten(bundles[k..])
    ensures Grammar(Flatten(bundles[..k])) && Grammar(Flatten(bundles[k..]))
  {
    var a, b := bundles[..k], bundles[k..];
    assert bundles == a + b;
    FlattenConcat(a, b);
    var n := |Flatten(a)|;
    if b != [] {
      FirstNotTool(b);
      assert ms[n] == Flatten(b)[0];
    }
    GrammarSplits(ms, n);
    assert ms[..n] == Flatten(a) && ms[n..] == Flatten(b);
  }

  /** Each bundle alone is a well-formed conversation. */
  lemma {:induction false} BundleIsGrammatical(ms: Conversation, bundles: seq<Bundle>, k: nat)
    requires Grammar(ms) && IsBundling(ms, bundles) && k < |bundles|
    ensures Grammar(bundles[k].messages)
  {
    SuffixIsGrammatical(ms, bundles, k);
    var rest := bundles[k..];
    var s := Flatten(rest);
    assert rest[0] == bundles[k];
    forall j | 0 <= j < |rest| - 1 ensures Greedy(rest, j) { assert Greedy(bundles, k + j); }
    assert IsBundling(s, rest);
    var n := |bundles[k].messages|;
    assert s == bundles[k].messages + Flatten(rest[1..]);
    if rest[1..] != [] { FirstNotTool(rest[1..]); assert s[n] == Flatten(rest[1..])[0]; }
    GrammarSplits(s, n);
    assert s[..n] == bundles[k].messages;
  }

  // ---------------------------------------------------------------------------
  // The bundler
  // ---------------------------------------------------------------------------

  lemma {:induction false} ExtendBundling(ms: Conversation, bundles: seq<Bundle>, b: Bundle, n: nat)
    requires n + |b.messages| <= |ms| && b.messages == ms[n..n + |b.messages|]
    requires IsBundling(ms[..n], bundles) && Shaped(b)
    requires bundles != [] && b.kind.ToolCycle? ==>
      !(bundles[|bundles| - 1].kind.Request? && |bundles[|bundles| - 1].messages| == 1)
    ensures IsBundling(ms[..n + |b.messages|], bundles + [b])
  {
    FlattenAppend(bundles, b);
    assert ms[..n + |b.messages|] == ms[..n] + b.messages;
    var all := bundles + [b];
    forall k | 0 <= k < |all| - 1 ensures Greedy(all, k) {
      if k < |bundles| - 1 { assert Greedy(bundles, k); }
    }
  }

  lemma {:induction false} RunIsCycle(ms: Conversation, start: nat, end: nat)
    requires start < |ms| && Calls(ms[start]) && end == RunEnd(ms, start + 1)
    ensures Cycle(ms[start..end]) && Boundary(ms, end)
  {
  }

  /** One iteration of the bundler: the bundle that starts at `start`. */
  method TakeBundle(ms: Conversation, start: nat) returns (bundle: Bundle)
    requires start < |ms| && !ms[start].role.Tool?
    requires start + 1 < |ms| && ms[start + 1].role.Tool? ==> Calls(ms[start])
    ensures Shaped(bundle)
    ensures start + |bundle.messages| <= |ms| && bundle.messages == ms[start..start + |bundle.messages|]
    ensures Boundary(ms, start + |bundle.messages|)
    ensures bundle.kind.ToolCycle? ==> Calls(ms[start])
    ensures bundle.kind.Request? && |bundle.messages| == 1 && start + 1 < |ms| ==> !Calls(ms[start + 1])
  {
    var message, index := ms[start], start + 1;
    var kind;
    if message.role.System? {
      kind := SystemNote;
    } else if message.role.User? {
      kind := UserKind(message);
      if kind.Request? && index < |ms| && Calls(ms[index]) {
        index := SkipResults(ms, index + 1);
        RunIsCycle(ms, start + 1, index);
        assert ms[start..index][1..] == ms[start + 1..index];
      }
    } else if Calls(message) {
      kind := ToolCycle;
      index := SkipResults(ms, index);
      RunIsCycle(ms, start, index);
    } else {
      kind := Terminal;
    }
    bundle := Bundle(kind, ms[start..index]);
  }

  /** `bundle_conversation`: fail on an ill-formed conversation, otherwise return its bundling. */
  method BundleConversation(ms: Conversation) returns (r: Result<seq<Bundle>, OrderError>)
    ensures r.Success? <==> Grammar(ms)
    ensures r.Success? ==> IsBundling(ms, r.value)
  {
    var error := ValidateToolCallOrder(ms);
    if error.Some? {
      return Failure(error.value);
    }
    var bundles: seq<Bundle> := [];
    var index := 0;
    assert ms != [] ==> Attached(ms, 0);
    while index < |ms|
      invariant 0 <= index <= |ms|
      invariant Boundary(ms, index)
      invariant IsBundling(ms[..index], bundles)
      invariant bundles != [] && index < |ms| && Calls(ms[index]) ==>
                  !(bundles[|bundles| - 1].kind.Request? && |bundles[|bundles| - 1].messages| == 1)
      decreases |ms| - index
    {
      assert index + 1 < |ms| ==> Attached(ms, index + 1);
      var bundle := TakeBundle(ms, index);
      ExtendBundling(ms, bundles, bundle, index);
      bundles := bundles + [bundle];
      index := index + |bundle.messages|;
    }
    assert ms[..index] == ms;
    return Success(bundles);
  }

  /** The loop that collects the results of a batch. */
  method SkipResults(ms: Conversation, start: nat) returns (index: nat)
    requires start <= |ms|
    ensures index == RunEnd(ms, start)
  {
    index := start;
    while index < |ms| && ms[index].role.Tool?
      invariant start <= index <= |ms|
      invariant RunEnd(ms, index) == RunEnd(ms, start)
    {
      index := index + 1;
    }
  }

  // ---------------------------------------------------------------------------
  // Where bundles begin
  // ---------------------------------------------------------------------------

  /** A message of the user that asks for something, rather than steering or reporting a verification. */
  predicate PlainRequest(m: Message) {
    m.role.User? && !m.metadata.steering && !("verification_" <= m.metadata.internal)
  }

  /** No bundle begins with a tool result, nor with calls that directly follow a request. */
  predicate BeginsBundle(ms: Conversation, i: nat)
    requires i < |ms|
  {
    && !ms[i].role.Tool?
    && !(i > 0 && PlainRequest(ms[i - 1]) && ms[i].role.Assistant? && ms[i].toolCalls != [])
  }

  ghost predicate Begins(bundles: seq<Bundle>, k: nat, i: nat) {
    k < |bundles| && |Flatten(bundles[..k])| == i
  }

  lemma {:induction false} BeginsLater(bundles: seq<Bundle>, k: nat, i: nat)
    requires bundles != [] && |bundles[0].messages| <= i
    ensures Begins(bundles, k + 1, i) <==> Begins(bundles[1..], k, i - |bundles[0].messages|)
  {
    if k + 1 < |bundles| {
      assert bundles[..k + 1][0] == bundles[0] && bundles[..k + 1][1..] == bundles[1..][..k];
    }
  }

  lemma {:induction false} BeginsNotBefore(bundles: seq<Bundle>, k: nat, i: nat)
    requires bundles != [] && 0 < i < |bundles[0].messages|
    ensures !Begins(bundles, k, i)
  {
    if 0 < k < |bundles| {
      assert bundles[..k][0] == bundles[0];
    } else {
      assert bundles[..0] == [];
    }
  }

  lemma {:induction false} InsideFirstBundle(ms: Conversation, bundles: seq<Bundle>, i: nat)
    requires IsBundling(ms, bundles) && bundles != [] && i < |bundles[0].messages|
    ensures i < |ms| && ms[i] == bundles[0].messages[i]
    ensures BeginsBundle(ms, i) <==> i == 0
  {
    FirstBundleEnd(ms, bundles);
    FirstNotTool(bundles);
    var b := bundles[0];
    if i > 0 && b.kind.Request? { assert b.messages[i] == b.messages[1..][i - 1]; }
  }

  lemma {:induction false} AfterFirstBundle(ms: Conversation, bundles: seq<Bundle>, i: nat)
    requires IsBundling(ms, bundles) && bundles != [] && |bundles[0].messages| <= i < |ms|
    ensures BeginsBundle(ms, i) <==> BeginsBundle(ms[|bundles[0].messages|..], i - |bundles[0].messages|)
  {
    var n := |bundles[0].messages|;
    FirstBundleEnd(ms, bundles);
    InsideFirstBundle(ms, bundles, n - 1);
    if i == n && n > 1 { InsideFirstBundle(ms, bundles, n - 1); }
  }

  /**
   * A bundle begins at every message but tool results and the calls that directly follow a request
   * of the user, and nowhere else.
   */
  lemma {:induction false} WhereBundlesBegin(ms: Conversation, bundles: seq<Bundle>, i: nat)
    requires IsBundling(ms, bundles) && i < |ms|
    ensures (exists k: nat :: Begins(bundles, k, i)) <==> BeginsBundle(ms, i)
    decreases |bundles|
  {
    assert bundles != [];
    var n := |bundles[0].messages|;
    if i < n {
      InsideFirstBundle(ms, bundles, i);
      if i == 0 {
        assert bundles[..0] == [];
        assert Begins(bundles, 0, 0);
      } else {
        forall k: nat ensures !Begins(bundles, k, i) { BeginsNotBefore(bundles, k, i); }
      }
    } else {
      BundlingTail(ms, bundles);
      AfterFirstBundle(ms, bundles, i);
      WhereBundlesBegin(ms[n..], bundles[1..], i - n);
      var rest, j := bundles[1..], i - n;
      if k: nat :| Begins(bundles, k, i) {
        assert bundles[..0] == [];
        BeginsLater(bundles, k - 1, i);
      }
      if k: nat :| Begins(rest, k, j) {
        BeginsLater(bundles, k, i);
      }
    }
  }
}
