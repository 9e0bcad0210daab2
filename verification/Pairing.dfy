/**
 * The grammar of conversations in terms of single calls and results: every call has exactly one
 * result, and every result a call, with nothing but results in between.
 */
module Pairing {
  import opened Wrappers
  import opened Transcript
  import Text

  /** The message at `o` makes a call at position `p`. */
  ghost predicate MakesCall(ms: Conversation, o: int, p: int) {
    0 <= o < |ms| && ms[o].role.Assistant? && 0 <= p < |ms[o].toolCalls|
  }

  /** The message at `t` is a result for that call: it bears its id, and its name if any, and follows with its batch. */
  ghost predicate Gives(ms: Conversation, o: int, p: int, t: int) {
    && MakesCall(ms, o, p) && o < t < |ms|
    && (forall k :: o < k <= t ==> ms[k].role.Tool?)
    && ms[t].toolCallId.GetOr("") == ms[o].toolCalls[p].id
    && (ms[t].toolName.GetOr("") != "" ==> ms[t].toolName == Some(ms[o].toolCalls[p].name))
  }

  /** Call ids are nonblank and unique. */
  ghost predicate UniqueIds(ms: Conversation) {
    && (forall o, p :: MakesCall(ms, o, p) ==> !Text.Blank(ms[o].toolCalls[p].id))
    && (forall o, p, q, r :: MakesCall(ms, o, p) && MakesCall(ms, q, r) && (o, p) != (q, r) ==>
          ms[o].toolCalls[p].id != ms[q].toolCalls[r].id)
  }

  ghost predicate EveryResultHasACall(ms: Conversation) {
    forall t :: 0 <= t < |ms| && ms[t].role.Tool? ==> exists o, p :: Gives(ms, o, p, t)
  }

  ghost predicate EveryCallHasOneResult(ms: Conversation) {
    && (forall o, p :: MakesCall(ms, o, p) ==> exists t :: Gives(ms, o, p, t))
    && (forall o, p, t, u :: Gives(ms, o, p, t) && Gives(ms, o, p, u) ==> t == u)
  }

  ghost predicate Paired(ms: Conversation) {
    UniqueIds(ms) && EveryResultHasACall(ms) && EveryCallHasOneResult(ms)
  }

  // ---------------------------------------------------------------------------
  // Well-formed conversations are paired
  // ---------------------------------------------------------------------------

  lemma {:induction false} GrammarHasUniqueIds(ms: Conversation)
    requires Grammar(ms)
    ensures UniqueIds(ms)
  {
    forall o, p | MakesCall(ms, o, p) ensures !Text.Blank(ms[o].toolCalls[p].id) { assert GoodBatch(ms, o); }
    forall o, p, q, r | MakesCall(ms, o, p) && MakesCall(ms, q, r) && (o, p) != (q, r)
      ensures ms[o].toolCalls[p].id != ms[q].toolCalls[r].id
    {
      assert GoodBatch(ms, o) && Fresh(ms, o, q);
      if o == q {
        assert CallIds(ms[o].toolCalls)[p] == ms[o].toolCalls[p].id;
        assert CallIds(ms[o].toolCalls)[r] == ms[o].toolCalls[r].id;
      }
    }
  }

  lemma {:induction false} OwnerGives(ms: Conversation, t: nat)
    requires Grammar(ms) && t < |ms| && ms[t].role.Tool?
    ensures exists o, p :: Gives(ms, o, p, t)
  {
    var o, p := Owner(ms, t);
    assert Gives(ms, o, p, t);
  }

  lemma {:induction false} InRun(ms: Conversation, o: nat, t: nat)
    requires o < t < |ms| && forall k :: o < k <= t ==> ms[k].role.Tool?
    ensures t < RunEnd(ms, o + 1)
  {
  }

  lemma {:induction false} CallIsGiven(ms: Conversation, o: nat, p: nat)
    requires Grammar(ms) && MakesCall(ms, o, p)
    ensures exists t :: Gives(ms, o, p, t)
  {
    assert GoodBatch(ms, o);
    var calls, run := ms[o].toolCalls, Results(ms, o);
    AnswersIffComplete(calls, run);
    assert CallIds(calls)[p] == calls[p].id && calls[p].id in ResultIds(run);
    var k :| 0 <= k < |run| && ResultIds(run)[k] == calls[p].id;
    assert run[k] == ms[o + 1 + k] && NamesAgree(calls, run[k]);
    assert Gives(ms, o, p, o + 1 + k);
  }

  lemma {:induction false} GivenOnce(ms: Conversation, o: nat, p: nat, t: nat, u: nat)
    requires Grammar(ms) && Gives(ms, o, p, t) && Gives(ms, o, p, u)
    ensures t == u
  {
    assert GoodBatch(ms, o);
    var calls, run := ms[o].toolCalls, Results(ms, o);
    AnswersIffComplete(calls, run);
    InRun(ms, o, t);
    InRun(ms, o, u);
    assert run[t - o - 1] == ms[t] && run[u - o - 1] == ms[u];
    assert ResultIds(run)[t - o - 1] == ResultIds(run)[u - o - 1];
  }

  // ---------------------------------------------------------------------------
  // Paired conversations are well-formed
  // ---------------------------------------------------------------------------

  /** The call of a result in the run after `o` is a call of `o`. */
  lemma {:induction false} GivenByRun(ms: Conversation, o: nat, t: nat) returns (p: nat)
    requires EveryResultHasACall(ms) && o < |ms| && !ms[o].role.Tool? && o < t < RunEnd(ms, o + 1)
    ensures Gives(ms, o, p, t)
  {
    assert ms[t].role.Tool? && forall k :: o < k <= t ==> ms[k].role.Tool?;
    var q, r :| Gives(ms, q, r, t);
    SameBatch(ms, q, r, t, o);
    p := r;
  }

  lemma {:induction false} SameBatch(ms: Conversation, q: int, r: int, t: int, o: int)
    requires Gives(ms, q, r, t) && 0 <= o < t && !ms[o].role.Tool? && forall k :: o < k <= t ==> ms[k].role.Tool?
    ensures q == o
  {
  }

  lemma {:induction false} RunIsPartial(ms: Conversation, o: nat)
    requires Paired(ms) && o < |ms| && Calls(ms[o])
    ensures PartialAnswers(ms[o].toolCalls, Results(ms, o))
  {
    var calls, run := ms[o].toolCalls, Results(ms, o);
    forall k | 0 <= k < |run| ensures ResultId(run[k]) in CallIds(calls) && NamesAgree(calls, run[k]) {
      ResultAnswers(ms, o, k);
    }
    forall i, j | 0 <= i < j < |run| ensures ResultIds(run)[i] != ResultIds(run)[j] {
      var p := GivenByRun(ms, o, o + 1 + i);
      var q := GivenByRun(ms, o, o + 1 + j);
      if ResultIds(run)[i] == ResultIds(run)[j] {
        SameCall(ms, o, p, q);
      }
    }
  }

  lemma {:induction false} SameCall(ms: Conversation, o: nat, p: nat, q: nat)
    requires UniqueIds(ms) && MakesCall(ms, o, p) && MakesCall(ms, o, q)
    ensures ms[o].toolCalls[p].id == ms[o].toolCalls[q].id ==> p == q
  {
  }

  lemma {:induction false} ResultAnswers(ms: Conversation, o: nat, k: nat)
    requires Paired(ms) && o < |ms| && Calls(ms[o]) && k < |Results(ms, o)|
    ensures
      var calls, m := ms[o].toolCalls, Results(ms, o)[k];
      ResultId(m) in CallIds(calls) && NamesAgree(calls, m)
  {
    var calls, m := ms[o].toolCalls, Results(ms, o)[k];
    var p := GivenByRun(ms, o, o + 1 + k);
    assert CallIds(calls)[p] == ResultId(m);
    forall i | 0 <= i < |calls| && calls[i].id == ResultId(m) ensures i == p { SameCall(ms, o, i, p); }
  }

  lemma {:induction false} PairedIsGoodBatch(ms: Conversation, o: nat)
    requires Paired(ms) && o < |ms|
    ensures GoodBatch(ms, o)
  {
    if Calls(ms[o]) {
      var calls, run := ms[o].toolCalls, Results(ms, o);
      BatchHasGoodIds(ms, o);
      RunIsPartial(ms, o);
      forall id | id in CallIds(calls) ensures id in ResultIds(run) {
        var p :| 0 <= p < |calls| && CallIds(calls)[p] == id;
        assert MakesCall(ms, o, p);
        var t :| Gives(ms, o, p, t);
        InRun(ms, o, t);
        assert run[t - o - 1] == ms[t];
        assert ResultIds(run)[t - o - 1] == id;
      }
      AnswersIffComplete(calls, run);
    }
  }

  lemma {:induction false} BatchHasGoodIds(ms: Conversation, o: nat)
    requires UniqueIds(ms) && o < |ms| && Calls(ms[o])
    ensures GoodIds(ms[o].toolCalls)
  {
    var calls := ms[o].toolCalls;
    forall i | 0 <= i < |calls| ensures !Text.Blank(calls[i].id) { assert MakesCall(ms, o, i); }
    forall i, j | 0 <= i < j < |calls| ensures CallIds(calls)[i] != CallIds(calls)[j] {
      assert MakesCall(ms, o, i) && MakesCall(ms, o, j);
    }
  }

  lemma {:induction false} PairedIsAttached(ms: Conversation, t: nat)
    requires Paired(ms) && t < |ms|
    ensures Attached(ms, t)
  {
    if ms[t].role.Tool? {
      var o, p :| Gives(ms, o, p, t);
      if o < t - 1 { assert ms[t - 1].role.Tool?; }
    }
  }

  lemma {:induction false} PairedIsFresh(ms: Conversation, i: nat, j: nat)
    requires UniqueIds(ms) && i < |ms| && j < |ms|
    ensures Fresh(ms, i, j)
  {
    if i != j && Calls(ms[i]) && Calls(ms[j]) {
      forall p, q | 0 <= p < |ms[i].toolCalls| && 0 <= q < |ms[j].toolCalls|
        ensures ms[i].toolCalls[p].id != ms[j].toolCalls[q].id
      {
        assert MakesCall(ms, i, p) && MakesCall(ms, j, q);
      }
    }
  }

  /**
   * A conversation is well-formed exactly when call ids are nonblank and unique, every call has
   * exactly one result in the run that follows it, and every result a call.
   */
  lemma {:induction false} GrammarIsPairing(ms: Conversation)
    ensures Grammar(ms) <==> Paired(ms)
  {
    if Grammar(ms) {
      GrammarHasUniqueIds(ms);
      forall t | 0 <= t < |ms| && ms[t].role.Tool? ensures exists o, p :: Gives(ms, o, p, t) { OwnerGives(ms, t); }
      forall o, p | MakesCall(ms, o, p) ensures exists t :: Gives(ms, o, p, t) { CallIsGiven(ms, o, p); }
      forall o, p, t, u | Gives(ms, o, p, t) && Gives(ms, o, p, u) ensures t == u { GivenOnce(ms, o, p, t, u); }
    }
    if Paired(ms) {
      forall k | 0 <= k < |ms| ensures Attached(ms, k) && GoodBatch(ms, k) {
        PairedIsAttached(ms, k);
        PairedIsGoodBatch(ms, k);
      }
      forall i, j | 0 <= i < |ms| && 0 <= j < |ms| ensures Fresh(ms, i, j) { PairedIsFresh(ms, i, j); }
    }
  }
}
