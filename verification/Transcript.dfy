/** Messages, tool calls, and the grammar that a conversation must follow. */
module Transcript {
  import opened Wrappers
  import Text

  datatype Role = System | User | Assistant | Tool

  type Arguments = map<string, string>

  datatype ToolCall = ToolCall(id: string, name: string, arguments: Arguments)

  /** A metadata value that is read as a list of paths when it is a list, and for truthiness otherwise. */
  datatype PathField = Absent | PathList(paths: seq<string>) | Scalar(truthy: bool) {
    predicate Truthy() {
      match this
      case Absent => false
      case PathList(paths) => paths != []
      case Scalar(truthy) => truthy
    }
  }

  /** The metadata keys the core reads. `marks` are the keys it only writes. */
  datatype Metadata = Metadata(
    path: Option<string>,
    sha256: Option<string>,
    files: PathField,
    changedFiles: PathField,
    steering: bool,
    internal: string,
    marks: map<string, string>)

  const NO_METADATA := Metadata(None, None, Absent, Absent, false, "", map[])

  datatype Message = Message(
    id: string,
    role: Role,
    content: string,
    toolCalls: seq<ToolCall>,
    toolCallId: Option<string>,
    toolName: Option<string>,
    isError: bool,
    metadata: Metadata)

  type Conversation = seq<Message>

  /** An assistant message that opens a tool batch. */
  predicate Calls(m: Message) {
    m.role.Assistant? && m.toolCalls != []
  }

  function ResultId(m: Message): string {
    m.toolCallId.GetOr("")
  }

  function CallIds(calls: seq<ToolCall>): (ids: seq<string>)
    ensures |ids| == |calls| && forall i :: 0 <= i < |ids| ==> ids[i] == calls[i].id
  {
    seq(|calls|, i requires 0 <= i < |calls| => calls[i].id)
  }

  function IdSet(ids: seq<string>): (s: set<string>)
    ensures forall id :: id in s <==> id in ids
  {
    set id | id in ids
  }

  function ResultIds(run: Conversation): (ids: seq<string>)
    ensures |ids| == |run| && forall i :: 0 <= i < |ids| ==> ids[i] == ResultId(run[i])
  {
    seq(|run|, i requires 0 <= i < |run| => ResultId(run[i]))
  }

  function MessageIds(ms: Conversation): (ids: seq<string>)
    ensures |ids| == |ms| && forall i :: 0 <= i < |ids| ==> ids[i] == ms[i].id
  {
    seq(|ms|, i requires 0 <= i < |ms| => ms[i].id)
  }

  ghost predicate Distinct<T(!new)>(s: seq<T>) {
    forall i, j :: 0 <= i < j < |s| ==> s[i] != s[j]
  }

  /** The first position at or after `i` that does not hold a tool result. */
  function RunEnd(ms: Conversation, i: nat): (end: nat)
    requires i <= |ms|
    ensures i <= end <= |ms|
    ensures forall k :: i <= k < end ==> ms[k].role.Tool?
    ensures end < |ms| ==> !ms[end].role.Tool?
    decreases |ms| - i
  {
    if i < |ms| && ms[i].role.Tool? then RunEnd(ms, i + 1) else i
  }

  function Results(ms: Conversation, i: nat): Conversation
    requires i < |ms|
  {
    ms[i + 1..RunEnd(ms, i + 1)]
  }

  // ---------------------------------------------------------------------------
  // The grammar
  // ---------------------------------------------------------------------------

  ghost predicate GoodIds(calls: seq<ToolCall>) {
    && (forall i :: 0 <= i < |calls| ==> !Text.Blank(calls[i].id))
    && Distinct(CallIds(calls))
  }

  /** A result that states a tool name states the name of the call it answers. */
  ghost predicate NamesAgree(calls: seq<ToolCall>, m: Message) {
    m.toolName.GetOr("") != "" ==>
      forall i :: 0 <= i < |calls| && calls[i].id == ResultId(m) ==> calls[i].name == m.toolName.value
  }

  /** The executable form of `NamesAgree`. */
  predicate NameMatches(calls: seq<ToolCall>, m: Message)
    ensures NameMatches(calls, m) <==> NamesAgree(calls, m)
  {
    m.toolName.GetOr("") == "" ||
    forall i :: 0 <= i < |calls| && calls[i].id == ResultId(m) ==> calls[i].name == m.toolName.value
  }

  /** `run` answers every call once, in some order, and nothing else. */
  ghost predicate Answers(calls: seq<ToolCall>, run: Conversation) {
    && multiset(ResultIds(run)) == multiset(CallIds(calls))
    && forall k :: 0 <= k < |run| ==> NamesAgree(calls, run[k])
  }

  ghost predicate Attached(ms: Conversation, k: nat)
    requires k < |ms|
  {
    ms[k].role.Tool? ==> 0 < k && (ms[k - 1].role.Tool? || Calls(ms[k - 1]))
  }

  ghost predicate DisjointIds(a: Message, b: Message) {
    forall i, j :: 0 <= i < |a.toolCalls| && 0 <= j < |b.toolCalls| ==> a.toolCalls[i].id != b.toolCalls[j].id
  }

  ghost predicate Fresh(ms: Conversation, i: nat, j: nat)
    requires i < |ms| && j < |ms|
  {
    i != j && Calls(ms[i]) && Calls(ms[j]) ==> DisjointIds(ms[i], ms[j])
  }

  ghost predicate GoodBatch(ms: Conversation, i: nat)
    requires i < |ms|
  {
    Calls(ms[i]) ==> GoodIds(ms[i].toolCalls) && Answers(ms[i].toolCalls, Results(ms, i))
  }

  /**
   * A well-formed conversation: every tool result belongs to a batch, call ids are
   * nonblank and unique across the conversation, and the results that follow a batch
   * of calls are a permutation of it.
   */
  ghost predicate Grammar(ms: Conversation) {
    && (forall k :: 0 <= k < |ms| ==> Attached(ms, k))
    && (forall i :: 0 <= i < |ms| ==> GoodBatch(ms, i))
    && (forall i, j :: 0 <= i < |ms| && 0 <= j < |ms| ==> Fresh(ms, i, j))
  }

  /** A position where the conversation may be cut without splitting a batch. */
  predicate Boundary(ms: Conversation, k: nat) {
    k == |ms| || (k < |ms| && !ms[k].role.Tool?)
  }

  lemma {:induction false} RunEndOfSuffix(ms: Conversation, k: nat, i: nat)
    requires k <= |ms| && i <= |ms| - k
    ensures RunEnd(ms[k..], i) == RunEnd(ms, k + i) - k
    decreases |ms| - k - i
  {
    if k + i < |ms| && ms[k + i].role.Tool? {
      assert ms[k..][i] == ms[k + i];
      RunEndOfSuffix(ms, k, i + 1);
    }
  }

  lemma {:induction false} RunEndOfPrefix(ms: Conversation, k: nat, i: nat)
    requires i <= k <= |ms| && Boundary(ms, k)
    ensures RunEnd(ms[..k], i) == RunEnd(ms, i)
    decreases k - i
  {
    if i < k && ms[i].role.Tool? {
      RunEndOfPrefix(ms, k, i + 1);
    }
  }

  lemma {:induction false} CutLeft(ms: Conversation, k: nat, i: nat)
    requires i < k <= |ms| && Boundary(ms, k) && Attached(ms, i) && GoodBatch(ms, i)
    ensures Attached(ms[..k], i) && GoodBatch(ms[..k], i)
  {
    RunEndOfPrefix(ms, k, i + 1);
    if Calls(ms[i]) { assert Results(ms[..k], i) == Results(ms, i); }
  }

  lemma {:induction false} CutRight(ms: Conversation, k: nat, i: nat)
    requires k + i < |ms| && Boundary(ms, k) && Attached(ms, k + i) && GoodBatch(ms, k + i)
    ensures Attached(ms[k..], i) && GoodBatch(ms[k..], i)
  {
    ResultsOfSuffix(ms, k, i);
  }

  lemma {:induction false} ResultsOfSuffix(ms: Conversation, k: nat, i: nat)
    requires k + i < |ms|
    ensures Results(ms[k..], i) == Results(ms, k + i)
  {
    RunEndOfSuffix(ms, k, i + 1);
    SliceOfSuffix(ms, k, i + 1, RunEnd(ms[k..], i + 1));
  }

  lemma {:induction false} SliceOfSuffix<T>(s: seq<T>, k: nat, i: nat, j: nat)
    requires k <= |s| && i <= j <= |s| - k
    ensures s[k..][i..j] == s[k + i..k + j]
  {
  }

  /** A well-formed conversation cut at a boundary leaves two well-formed conversations. */
  lemma {:induction false} GrammarSplits(ms: Conversation, k: nat)
    requires Grammar(ms) && k <= |ms| && Boundary(ms, k)
    ensures Grammar(ms[..k]) && Grammar(ms[k..])
  {
    var p, s := ms[..k], ms[k..];
    forall i | 0 <= i < k ensures Attached(p, i) && GoodBatch(p, i) { CutLeft(ms, k, i); }
    forall i | 0 <= i < |s| ensures Attached(s, i) && GoodBatch(s, i) { CutRight(ms, k, i); }
    forall i, j | 0 <= i < k && 0 <= j < k ensures Fresh(p, i, j) { assert Fresh(ms, i, j); }
    forall i, j | 0 <= i < |s| && 0 <= j < |s| ensures Fresh(s, i, j) { assert Fresh(ms, k + i, k + j); }
  }

  ghost predicate DisjointCalls(a: Conversation, b: Conversation) {
    forall i, j :: 0 <= i < |a| && 0 <= j < |b| && Calls(a[i]) && Calls(b[j]) ==>
      DisjointIds(a[i], b[j]) && DisjointIds(b[j], a[i])
  }

  /** Two well-formed conversations with disjoint call ids concatenate to a well-formed one. */
  lemma {:induction false} GrammarJoins(a: Conversation, b: Conversation)
    requires Grammar(a) && Grammar(b) && DisjointCalls(a, b)
    ensures Grammar(a + b)
  {
    forall k | 0 <= k < |a + b| ensures Attached(a + b, k) && GoodBatch(a + b, k) { JoinAt(a, b, k); }
    forall i, j | 0 <= i < |a + b| && 0 <= j < |a + b| ensures Fresh(a + b, i, j) { JoinFresh(a, b, i, j); }
  }

  lemma {:induction false} JoinAt(a: Conversation, b: Conversation, k: nat)
    requires Grammar(a) && Grammar(b) && k < |a + b|
    ensures Attached(a + b, k) && GoodBatch(a + b, k)
  {
    BoundaryBetween(a, b);
    if k < |a| {
      JoinLeft(a, b, k);
    } else {
      JoinRight(a, b, k - |a|);
    }
  }

  lemma {:induction false} BoundaryBetween(a: Conversation, b: Conversation)
    requires Grammar(b)
    ensures Boundary(a + b, |a|)
  {
    if b != [] { assert Attached(b, 0); }
  }

  lemma {:induction false} JoinFresh(a: Conversation, b: Conversation, i: nat, j: nat)
    requires Grammar(a) && Grammar(b) && DisjointCalls(a, b) && i < |a + b| && j < |a + b|
    ensures Fresh(a + b, i, j)
  {
    if i < |a| && j < |a| { assert Fresh(a, i, j); }
    if i >= |a| && j >= |a| { assert Fresh(b, i - |a|, j - |a|); }
  }

  lemma {:induction false} JoinLeft(a: Conversation, b: Conversation, k: nat)
    requires k < |a| && Attached(a, k) && GoodBatch(a, k) && Boundary(a + b, |a|)
    ensures Attached(a + b, k) && GoodBatch(a + b, k)
  {
    var ms := a + b;
    assert ms[..|a|] == a;
    RunEndOfPrefix(ms, |a|, k + 1);
    if Calls(a[k]) { assert Results(ms, k) == Results(a, k); }
  }

  lemma {:induction false} JoinRight(a: Conversation, b: Conversation, k: nat)
    requires k < |b| && Attached(b, k) && GoodBatch(b, k)
    ensures Attached(a + b, |a| + k) && GoodBatch(a + b, |a| + k)
  {
    var ms := a + b;
    assert ms[|a|..] == b;
    RunEndOfSuffix(ms, |a|, k + 1);
    if Calls(b[k]) { assert Results(ms, |a| + k) == Results(b, k); }
  }

  /** A batch of calls and its results make a well-formed conversation. */
  lemma {:induction false} BatchGrammar(assistant: Message, run: Conversation)
    requires Calls(assistant) && GoodIds(assistant.toolCalls) && Answers(assistant.toolCalls, run)
    requires forall k :: 0 <= k < |run| ==> run[k].role.Tool?
    ensures Grammar([assistant] + run)
  {
    var ms := [assistant] + run;
    BatchEnds(ms, 1);
    assert Results(ms, 0) == run;
    forall k | 0 < k < |ms| ensures !Calls(ms[k]) { assert ms[k] == run[k - 1]; }
    forall k | 0 <= k < |ms| ensures Attached(ms, k) && GoodBatch(ms, k) {
    }
  }

  lemma {:induction false} BatchEnds(ms: Conversation, i: nat)
    requires i <= |ms| && forall k :: i <= k < |ms| ==> ms[k].role.Tool?
    ensures RunEnd(ms, i) == |ms|
    decreases |ms| - i
  {
    if i < |ms| { BatchEnds(ms, i + 1); }
  }

  /** The assistant message whose batch the result at `t` belongs to. */
  lemma {:induction false} Owner(ms: Conversation, t: nat) returns (o: nat, p: nat)
    requires Grammar(ms) && t < |ms| && ms[t].role.Tool?
    ensures o < t && Calls(ms[o]) && p < |ms[o].toolCalls| && ms[o].toolCalls[p].id == ResultId(ms[t])
    ensures NamesAgree(ms[o].toolCalls, ms[t])
    ensures forall k :: o < k <= t ==> ms[k].role.Tool?
  {
    o := t;
    while ms[o].role.Tool?
      invariant 0 <= o <= t
      invariant forall k :: o < k <= t ==> ms[k].role.Tool?
      invariant o < t ==> ms[o].role.Tool? || Calls(ms[o])
      decreases o
    {
      assert Attached(ms, o);
      o := o - 1;
    }
    assert GoodBatch(ms, o);
    var run, ids := Results(ms, o), CallIds(ms[o].toolCalls);
    assert t < RunEnd(ms, o + 1);
    assert run[t - o - 1] == ms[t];
    assert ResultIds(run)[t - o - 1] in multiset(ResultIds(run));
    p :| 0 <= p < |ids| && ids[p] == ResultId(ms[t]);
  }

  /** Rewriting contents and metadata alone does not change whether a conversation is well-formed. */
  ghost predicate SameShape(a: Message, b: Message) {
    && a.id == b.id && a.role == b.role && a.toolCalls == b.toolCalls
    && a.toolCallId == b.toolCallId && a.toolName == b.toolName && a.isError == b.isError
  }

  ghost predicate SameShapes(a: Conversation, b: Conversation) {
    |a| == |b| && forall i :: 0 <= i < |a| ==> SameShape(a[i], b[i])
  }

  lemma {:induction false} SameRunEnd(a: Conversation, b: Conversation, i: nat)
    requires SameShapes(a, b) && i <= |a|
    ensures RunEnd(a, i) == RunEnd(b, i)
    decreases |a| - i
  {
    if i < |a| && a[i].role.Tool? {
      assert SameShape(a[i], b[i]);
      SameRunEnd(a, b, i + 1);
    } else if i < |a| {
      assert SameShape(a[i], b[i]);
    }
  }

  lemma {:induction false} SameAnswers(calls: seq<ToolCall>, a: Conversation, b: Conversation)
    requires SameShapes(a, b) && Answers(calls, a)
    ensures Answers(calls, b)
  {
    forall i | 0 <= i < |b| ensures ResultIds(a)[i] == ResultIds(b)[i] && NamesAgree(calls, b[i]) {
      assert SameShape(a[i], b[i]) && NamesAgree(calls, a[i]);
    }
    assert ResultIds(a) == ResultIds(b);
  }

  lemma {:induction false} SameShapesAt(a: Conversation, b: Conversation, k: nat)
    requires SameShapes(a, b) && k < |a| && Attached(a, k) && GoodBatch(a, k)
    ensures Attached(b, k) && GoodBatch(b, k)
  {
    assert SameShape(a[k], b[k]);
    if k > 0 { assert SameShape(a[k - 1], b[k - 1]); }
    SameRunEnd(a, b, k + 1);
    if Calls(b[k]) {
      var ra, rb := Results(a, k), Results(b, k);
      forall i | 0 <= i < |rb| ensures SameShape(ra[i], rb[i]) { assert SameShape(a[k + 1 + i], b[k + 1 + i]); }
      SameAnswers(b[k].toolCalls, ra, rb);
    }
  }

  lemma {:induction false} GrammarIgnoresContents(a: Conversation, b: Conversation)
    requires SameShapes(a, b) && Grammar(a)
    ensures Grammar(b)
  {
    forall k | 0 <= k < |b| ensures Attached(b, k) && GoodBatch(b, k) { SameShapesAt(a, b, k); }
    forall i, j | 0 <= i < |b| && 0 <= j < |b| ensures Fresh(b, i, j) {
      assert SameShape(a[i], b[i]) && SameShape(a[j], b[j]) && Fresh(a, i, j);
    }
  }

  // ---------------------------------------------------------------------------
  // The checker
  // ---------------------------------------------------------------------------

  datatype OrderError =
    | OrphanResult(result: string)
    | EmptyCallId(assistant: string)
    | DuplicateCallId(assistant: string)
    | UnmatchedResult(result: string)
    | MisnamedResult(result: string)
    | MissingResults(assistant: string)

  /** `id` names a call in one of the first `n` messages. */
  ghost predicate Known(ms: Conversation, n: nat, id: string)
    requires n <= |ms|
  {
    exists i :: 0 <= i < n && Calls(ms[i]) && id in CallIds(ms[i].toolCalls)
  }

  /** A list without repetition that covers exactly the ids of `calls` is a permutation of them. */
  lemma {:induction false} PermutationOfDistinct(a: seq<string>, b: seq<string>)
    requires Distinct(a) && Distinct(b)
    requires forall x :: x in a <==> x in b
    ensures multiset(a) == multiset(b)
  {
    forall x ensures multiset(a)[x] == multiset(b)[x] {
      DistinctCounts(a, x);
      DistinctCounts(b, x);
    }
  }

  lemma {:induction false} DistinctCounts(a: seq<string>, x: string)
    requires Distinct(a)
    ensures multiset(a)[x] == if x in a then 1 else 0
  {
    if a != [] {
      var n := |a| - 1;
      assert a == a[..n] + [a[n]];
      DistinctCounts(a[..n], x);
    }
  }

  /** Conversely, a permutation of a duplicate-free list is duplicate-free. */
  lemma {:induction false} PermutationIsDistinct(a: seq<string>, b: seq<string>)
    requires Distinct(b) && multiset(a) == multiset(b)
    ensures Distinct(a)
    ensures forall x :: x in a <==> x in b
  {
    forall i, j | 0 <= i < j < |a| ensures a[i] != a[j] {
      if a[i] == a[j] {
        assert a == a[..i] + [a[i]] + a[i + 1..j] + [a[j]] + a[j + 1..];
        assert multiset(a)[a[i]] >= 2;
        DistinctCounts(b, a[i]);
        assert false;
      }
    }
    forall x ensures x in a <==> x in b {
      assert x in multiset(a) <==> x in multiset(b);
    }
  }

  /** The observed part of a run, as the checker accumulates it. */
  ghost predicate PartialAnswers(calls: seq<ToolCall>, run: Conversation) {
    && Distinct(ResultIds(run))
    && (forall k :: 0 <= k < |run| ==> ResultId(run[k]) in CallIds(calls))
    && (forall k :: 0 <= k < |run| ==> NamesAgree(calls, run[k]))
  }

  lemma {:induction false} AnswersIffComplete(calls: seq<ToolCall>, run: Conversation)
    requires GoodIds(calls)
    ensures Answers(calls, run) <==>
            PartialAnswers(calls, run) && forall id :: id in CallIds(calls) ==> id in ResultIds(run)
  {
    if Answers(calls, run) {
      PermutationIsDistinct(ResultIds(run), CallIds(calls));
      forall k | 0 <= k < |run| ensures ResultId(run[k]) in CallIds(calls) {
        assert ResultIds(run)[k] in ResultIds(run);
      }
    }
    if PartialAnswers(calls, run) && forall id :: id in CallIds(calls) ==> id in ResultIds(run) {
      forall x ensures x in ResultIds(run) <==> x in CallIds(calls) {
        if x in ResultIds(run) {
          var k :| 0 <= k < |run| && ResultIds(run)[k] == x;
          assert ResultId(run[k]) == x;
        }
      }
      PermutationOfDistinct(ResultIds(run), CallIds(calls));
    }
  }

  lemma {:induction false} ObserveNext(calls: seq<ToolCall>, seen: Conversation, result: Message)
    requires PartialAnswers(calls, seen)
    requires ResultId(result) in CallIds(calls) && ResultId(result) !in ResultIds(seen) && NamesAgree(calls, result)
    ensures PartialAnswers(calls, seen + [result])
    ensures ResultIds(seen + [result]) == ResultIds(seen) + [ResultId(result)]
  {
    assert ResultIds(seen + [result]) == ResultIds(seen) + [ResultId(result)];
    forall i, j | 0 <= i < j < |seen + [result]|
      ensures ResultIds(seen + [result])[i] != ResultIds(seen + [result])[j]
    {
      assert ResultIds(seen)[i] in ResultIds(seen);
    }
  }

  /** Observing the result at `cursor`, in the run that begins at `start`. */
  lemma {:induction false} ObserveAt(ms: Conversation, start: nat, cursor: nat, calls: seq<ToolCall>)
    requires start <= cursor < |ms| && PartialAnswers(calls, ms[start..cursor])
    requires ResultId(ms[cursor]) in CallIds(calls) && NamesAgree(calls, ms[cursor])
    requires ResultId(ms[cursor]) !in ResultIds(ms[start..cursor])
    ensures PartialAnswers(calls, ms[start..cursor + 1])
    ensures IdSet(ResultIds(ms[start..cursor + 1])) == IdSet(ResultIds(ms[start..cursor])) + {ResultId(ms[cursor])}
  {
    assert ms[start..cursor + 1] == ms[start..cursor] + [ms[cursor]];
    ObserveNext(calls, ms[start..cursor], ms[cursor]);
  }

  lemma {:induction false} MisnamedRejected(ms: Conversation, index: nat, cursor: nat)
    requires index < |ms| && Calls(ms[index]) && index < cursor < RunEnd(ms, index + 1)
    requires !NamesAgree(ms[index].toolCalls, ms[cursor])
    ensures !GoodBatch(ms, index)
  {
    assert Results(ms, index)[cursor - index - 1] == ms[cursor];
  }

  lemma {:induction false} CompleteIffNothingMissing(calls: seq<ToolCall>, run: Conversation)
    requires GoodIds(calls) && PartialAnswers(calls, run)
    ensures Answers(calls, run) <==> IdSet(CallIds(calls)) - IdSet(ResultIds(run)) == {}
  {
    AnswersIffComplete(calls, run);
    var missing := IdSet(CallIds(calls)) - IdSet(ResultIds(run));
    if missing != {} {
      var id :| id in missing;
    } else {
      assert forall id :: id in CallIds(calls) ==> id !in missing;
    }
  }

  /** The results from `index + 1` to `cursor` answer some of the calls at `index`, and their ids are seen. */
  ghost predicate Observing(ms: Conversation, index: nat, cursor: nat, seen: set<string>)
    requires index < |ms|
  {
    && index < cursor <= RunEnd(ms, index + 1)
    && RunEnd(ms, cursor) == RunEnd(ms, index + 1)
    && PartialAnswers(ms[index].toolCalls, ms[index + 1..cursor])
    && seen == IdSet(ResultIds(ms[index + 1..cursor]))
  }

  lemma {:induction false} ObservingOn(ms: Conversation, index: nat, cursor: nat, seen: set<string>)
    requires index < |ms| && Observing(ms, index, cursor, seen) && cursor < |ms| && ms[cursor].role.Tool?
    requires ResultId(ms[cursor]) in CallIds(ms[index].toolCalls) && ResultId(ms[cursor]) !in seen
    requires NamesAgree(ms[index].toolCalls, ms[cursor])
    ensures Observing(ms, index, cursor + 1, seen + {ResultId(ms[cursor])})
  {
    ObserveAt(ms, index + 1, cursor, ms[index].toolCalls);
  }

  lemma {:induction false} ObservedAll(ms: Conversation, index: nat, cursor: nat, seen: set<string>)
    requires index < |ms| && Calls(ms[index]) && GoodIds(ms[index].toolCalls) && Observing(ms, index, cursor, seen)
    requires cursor < |ms| ==> !ms[cursor].role.Tool?
    ensures cursor == RunEnd(ms, index + 1)
    ensures GoodBatch(ms, index) <==> IdSet(CallIds(ms[index].toolCalls)) - seen == {}
  {
    assert ms[index + 1..cursor] == Results(ms, index);
    CompleteIffNothingMissing(ms[index].toolCalls, Results(ms, index));
  }

  /** The inner loop of the checker: walk the results that follow the calls at `index`. */
  method CheckBatch(ms: Conversation, index: nat) returns (cursor: nat, error: Option<OrderError>)
    requires index < |ms| && Calls(ms[index]) && GoodIds(ms[index].toolCalls)
    ensures error.None? ==> GoodBatch(ms, index) && cursor == RunEnd(ms, index + 1)
    ensures error.Some? ==> !GoodBatch(ms, index)
  {
    var message := ms[index];
    var expected := IdSet(CallIds(message.toolCalls));
    cursor := index + 1;
    var observed: set<string> := {};
    while cursor < |ms| && ms[cursor].role.Tool?
      invariant index < cursor <= |ms| && Observing(ms, index, cursor, observed)
    {
      var result := ms[cursor];
      var resultId := ResultId(result);
      if resultId !in expected || resultId in observed {
        UnmatchedRejected(ms, index, cursor);
        return cursor, Some(UnmatchedResult(result.id));
      }
      if !NameMatches(message.toolCalls, result) {
        MisnamedRejected(ms, index, cursor);
        return cursor, Some(MisnamedResult(result.id));
      }
      ObservingOn(ms, index, cursor, observed);
      observed := observed + {resultId};
      cursor := cursor + 1;
    }
    ObservedAll(ms, index, cursor, observed);
    error := if expected - observed != {} then Some(MissingResults(message.id)) else None;
  }

  /** `validate_tool_call_order`: accept exactly the well-formed conversations. */
  method ValidateToolCallOrder(ms: Conversation) returns (error: Option<OrderError>)
    ensures error.None? <==> Grammar(ms)
  {
    var known: set<string> := {};
    var index := 0;
    while index < |ms|
      invariant 0 <= index <= |ms|
      invariant forall k :: 0 <= k < index ==> Attached(ms, k) && GoodBatch(ms, k)
      invariant forall i, j :: 0 <= i < index && 0 <= j < index ==> Fresh(ms, i, j)
      invariant forall id :: id in known <==> Known(ms, index, id)
      invariant 0 < index < |ms| && ms[index].role.Tool? ==> !ms[index - 1].role.Tool? && !Calls(ms[index - 1])
      decreases |ms| - index
    {
      var message := ms[index];
      if message.role.Tool? {
        assert !Attached(ms, index);
        return Some(OrphanResult(message.id));
      }
      if !Calls(message) {
        assert forall id :: Known(ms, index + 1, id) <==> Known(ms, index, id);
        index := index + 1;
        continue;
      }
      var callIds := CallIds(message.toolCalls);
      if exists i :: 0 <= i < |callIds| && Text.Blank(callIds[i]) {
        assert !GoodBatch(ms, index);
        return Some(EmptyCallId(message.id));
      }
      var expected := IdSet(callIds);
      if |callIds| != |expected| || known * expected != {} {
        DuplicatesRejected(ms, index, known);
        return Some(DuplicateCallId(message.id));
      }
      DistinctIffNoLoss(callIds);
      var cursor, batchError := CheckBatch(ms, index);
      if batchError.Some? {
        return batchError;
      }
      AdvancePastBatch(ms, index, known, expected);
      known := known + expected;
      index := cursor;
    }
    return None;
  }

  lemma {:induction false} DistinctIffNoLoss(ids: seq<string>)
    ensures |ids| == |IdSet(ids)| <==> Distinct(ids)
  {
    if ids != [] {
      var n := |ids| - 1;
      DistinctIffNoLoss(ids[..n]);
      var all, rest := IdSet(ids), IdSet(ids[..n]);
      assert ids == ids[..n] + [ids[n]];
      assert all == rest + {ids[n]};
      NoMoreElementsThanPositions(ids[..n]);
      if ids[n] in rest {
        assert all == rest;
        assert !Distinct(ids);
      } else {
        assert |all| == |rest| + 1;
        assert Distinct(ids) <==> Distinct(ids[..n]);
      }
    } else {
      assert IdSet(ids) == {};
    }
  }

  lemma {:induction false} NoMoreElementsThanPositions(ids: seq<string>)
    ensures |IdSet(ids)| <= |ids|
  {
    if ids != [] {
      var n := |ids| - 1;
      NoMoreElementsThanPositions(ids[..n]);
      assert ids == ids[..n] + [ids[n]];
      assert IdSet(ids) == IdSet(ids[..n]) + {ids[n]};
    } else {
      assert IdSet(ids) == {};
    }
  }

  lemma {:induction false} DuplicatesRejected(ms: Conversation, index: nat, known: set<string>)
    requires index < |ms| && Calls(ms[index])
    requires forall id :: id in known <==> Known(ms, index, id)
    requires
      var ids := CallIds(ms[index].toolCalls);
      |ids| != |IdSet(ids)| || known * IdSet(ids) != {}
    ensures !Grammar(ms)
  {
    var ids := CallIds(ms[index].toolCalls);
    DistinctIffNoLoss(ids);
    if Distinct(ids) {
      var id :| id in known * IdSet(ids);
      var i :| 0 <= i < index && Calls(ms[i]) && id in CallIds(ms[i].toolCalls);
      var p :| 0 <= p < |ms[i].toolCalls| && CallIds(ms[i].toolCalls)[p] == id;
      var q :| 0 <= q < |ids| && ids[q] == id;
      assert ms[i].toolCalls[p].id == ms[index].toolCalls[q].id;
      assert !DisjointIds(ms[i], ms[index]);
      assert !Fresh(ms, i, index);
    } else {
      assert !GoodBatch(ms, index);
    }
  }

  lemma {:induction false} UnmatchedRejected(ms: Conversation, index: nat, cursor: nat)
    requires index < |ms| && Calls(ms[index]) && index < cursor < RunEnd(ms, index + 1)
    requires GoodIds(ms[index].toolCalls)
    requires
      || ResultId(ms[cursor]) !in CallIds(ms[index].toolCalls)
      || ResultId(ms[cursor]) in ResultIds(ms[index + 1..cursor])
    ensures !GoodBatch(ms, index)
  {
    var calls, run := ms[index].toolCalls, Results(ms, index);
    var c := cursor - index - 1;
    assert run[c] == ms[cursor];
    AnswersIffComplete(calls, run);
    if ResultId(ms[cursor]) in ResultIds(ms[index + 1..cursor]) {
      var k :| 0 <= k < c && ResultIds(ms[index + 1..cursor])[k] == ResultId(ms[cursor]);
      assert run[k] == ms[index + 1 + k];
      assert ResultIds(run)[k] == ResultIds(run)[c];
    } else {
      assert ResultId(run[c]) !in CallIds(calls);
    }
  }

  /** After a good batch the checker's invariant holds again at the end of its results. */
  lemma {:induction false} AdvancePastBatch(ms: Conversation, index: nat, known: set<string>, expected: set<string>)
    requires index < |ms| && Calls(ms[index]) && GoodBatch(ms, index)
    requires expected == IdSet(CallIds(ms[index].toolCalls))
    requires known * expected == {}
    requires forall id :: id in known <==> Known(ms, index, id)
    requires forall k :: 0 <= k < index ==> Attached(ms, k) && GoodBatch(ms, k)
    requires forall i, j :: 0 <= i < index && 0 <= j < index ==> Fresh(ms, i, j)
    ensures
      var end := RunEnd(ms, index + 1);
      && (forall k :: 0 <= k < end ==> Attached(ms, k) && GoodBatch(ms, k))
      && (forall i, j :: 0 <= i < end && 0 <= j < end ==> Fresh(ms, i, j))
      && (forall id :: id in known + expected <==> Known(ms, end, id))
      && (0 < end < |ms| ==> !ms[end].role.Tool?)
  {
    var end := RunEnd(ms, index + 1);
    forall k | index < k < end ensures Attached(ms, k) && !Calls(ms[k]) {
      assert k - 1 == index || ms[k - 1].role.Tool?;
    }
    assert forall k :: index < k < end ==> GoodBatch(ms, k);
    assert Attached(ms, index);
    forall i | 0 <= i < index && Calls(ms[i])
      ensures DisjointIds(ms[i], ms[index]) && DisjointIds(ms[index], ms[i])
    {
      forall p, q | 0 <= p < |ms[i].toolCalls| && 0 <= q < |ms[index].toolCalls|
        ensures ms[i].toolCalls[p].id != ms[index].toolCalls[q].id
      {
        assert CallIds(ms[i].toolCalls)[p] in CallIds(ms[i].toolCalls);
        assert Known(ms, index, ms[i].toolCalls[p].id);
        assert CallIds(ms[index].toolCalls)[q] in expected;
        assert ms[i].toolCalls[p].id !in known * expected;
      }
    }
    forall i, j | 0 <= i < end && 0 <= j < end ensures Fresh(ms, i, j) {
      assert i < index && j < index ==> Fresh(ms, i, j);
    }
    forall id ensures id in known + expected <==> Known(ms, end, id) {
      if Known(ms, end, id) {
        var i :| 0 <= i < end && Calls(ms[i]) && id in CallIds(ms[i].toolCalls);
        assert i < index ==> Known(ms, index, id);
      }
    }
  }
}
