/** Evidence saved at a boundary of a conversation and continued over the rest of it. */
module EvidenceContinues {
  import opened Wrappers
  import opened Transcript
  import opened Pruning
  import opened PruningTheorems
  import opened Evidence
  import opened EvidenceLists
  import opened FailureEvidence
  import opened FileEvidence

  lemma {:induction false} Prefixes(before: Conversation, ms: Conversation, i: nat)
    requires i < |ms|
    ensures before + ms[..i + 1] == before + [ms[0]] + ms[1..][..i]
  {
  }

  lemma {:induction false} EventsAt(reader: Reader, before: Conversation, ms: Conversation)
    ensures |Events(reader, CallDetails(before), ms)| == |ms|
    ensures forall i :: 0 <= i < |ms| ==>
      Events(reader, CallDetails(before), ms)[i] == EventOf(reader, CallDetails(before + ms[..i + 1]), ms[i])
    decreases |ms|
  {
    if ms != [] {
      var m, rest := ms[0], ms[1..];
      DetailsAppend(before, m);
      EventsAt(reader, before + [m], rest);
      forall i | 0 <= i < |ms|
        ensures Events(reader, CallDetails(before), ms)[i] == EventOf(reader, CallDetails(before + ms[..i + 1]), ms[i])
      {
        Prefixes(before, ms, i);
      }
    }
  }

  /** A well-formed conversation cut at a boundary contributes the events of its parts. */
  lemma {:induction false} EventsSplit(reader: Reader, a: Conversation, b: Conversation)
    requires Grammar(a + b) && ForeignIdsApart(a + b) && Boundary(a + b, |a|)
    ensures Events(reader, map[], a + b) == Events(reader, map[], a) + Events(reader, map[], b)
  {
    var ms := a + b;
    EventsAt(reader, [], ms);
    EventsAt(reader, [], a);
    EventsAt(reader, [], b);
    forall i | 0 <= i < |ms|
      ensures Events(reader, map[], ms)[i] == (Events(reader, map[], a) + Events(reader, map[], b))[i]
    {
      EventIsLocal(reader, a, b, i);
    }
  }

  /** The event of a message depends on the calls that its result, if it is one, resolves to. */
  lemma {:induction false} SameEvent(reader: Reader, d: Details, e: Details, m: Message)
    requires m.role.Tool? ==> Resolve(d, m) == Resolve(e, m)
    ensures EventOf(reader, d, m) == EventOf(reader, e, m)
  {
  }

  lemma {:induction false} ResolvesLocally(ms: Conversation, k: nat, i: nat)
    requires Grammar(ms) && ForeignIdsApart(ms) && k <= i < |ms| && Boundary(ms, k) && ms[i].role.Tool?
    ensures Resolve(CallDetails(ms[0..i + 1]), ms[i]) == Resolve(CallDetails(ms[k..i + 1]), ms[i])
  {
    assert Boundary(ms, 0) by { assert Attached(ms, 0); }
    WindowsAreStable(ms, 0, i + 1);
    WindowsAreStable(ms, k, i + 1);
  }

  lemma {:induction false} Windows(a: Conversation, b: Conversation, i: nat)
    requires i < |a + b|
    ensures [] + (a + b)[..i + 1] == (a + b)[0..i + 1]
    ensures i < |a| ==> [] + a[..i + 1] == (a + b)[0..i + 1]
    ensures i >= |a| ==> [] + b[..i - |a| + 1] == (a + b)[|a|..i + 1]
  {
  }

  lemma {:induction false} EventIsLocal(reader: Reader, a: Conversation, b: Conversation, i: nat)
    requires Grammar(a + b) && ForeignIdsApart(a + b) && Boundary(a + b, |a|) && i < |a + b|
    ensures EventOf(reader, CallDetails([] + (a + b)[..i + 1]), (a + b)[i]) ==
      if i < |a| then EventOf(reader, CallDetails([] + a[..i + 1]), a[i])
      else EventOf(reader, CallDetails([] + b[..i - |a| + 1]), b[i - |a|])
  {
    var ms := a + b;
    Windows(a, b, i);
    if i >= |a| {
      if ms[i].role.Tool? { ResolvesLocally(ms, |a|, i); }
      SameEvent(reader, CallDetails(ms[0..i + 1]), CallDetails(ms[|a|..i + 1]), ms[i]);
    }
  }

  lemma {:induction false} FilesConcat(base: seq<string>, a: seq<Event>, b: seq<Event>)
    ensures Files(base, a + b) == Files(Files(base, a), b)
    decreases |a|
  {
    if a == [] {
      assert a + b == b;
    } else {
      assert (a + b)[0] == a[0] && (a + b)[1..] == a[1..] + b;
      FilesConcat(base + a[0].changed, a[1..], b);
    }
  }

  lemma {:induction false} FilesAppend(base: seq<string>, events: seq<Event>)
    ensures Files(base, events) == base + Files([], events)
    decreases |events|
  {
    if events != [] {
      FilesAppend(base + events[0].changed, events[1..]);
      FilesAppend([] + events[0].changed, events[1..]);
    }
  }

  lemma {:induction false} PartsArePlain(f: Field, a: seq<string>, b: seq<string>)
    requires AllPlain(f, a + b)
    ensures AllPlain(f, a) && AllPlain(f, b)
  {
    assert forall i :: 0 <= i < |a| ==> (a + b)[i] == a[i];
    assert forall i :: 0 <= i < |b| ==> (a + b)[|a| + i] == b[i];
  }

  lemma {:induction false} SavedFilesContinue(f: Field, a: seq<Event>, b: seq<Event>)
    requires Proper(f) && AllPlain(f, Files([], a + b))
    ensures Finished(f, Files(NonBlank(Finished(f, Files([], a))), b)) == Finished(f, Files([], a + b))
  {
    var fa, fb := Files([], a), Files([], b);
    FilesConcat([], a, b);
    FilesAppend(fa, b);
    PartsArePlain(f, fa, fb);
    PlainPathsAgree(f, fa, fb);
    FilesAppend(NonBlank(Finished(f, fa)), b);
  }

  lemma {:induction false} SavedFindingsContinue(tag: Invocation -> string, a: seq<Event>, b: seq<Event>)
    requires Tags(FAILURES, tag, Invocations(a + b)) && NoBlankOpen(a) && AllPlain(FILES, Files([], a + b))
    ensures Continued(tag, Continued(tag, NOTHING, a), b) == Continued(tag, NOTHING, a + b)
  {
    FieldsAreProper();
    PartsAreKnown(Invocations(a + b), a, b);
    NonBlankSaves(FAILURES, tag, Invocations(a + b), a, b);
    SavedFilesContinue(FILES, a, b);
  }

  lemma {:induction false} PartsAreKnown(ks: set<Invocation>, a: seq<Event>, b: seq<Event>)
    requires Knows(ks, a + b)
    ensures Knows(ks, a) && Knows(ks, b)
  {
    assert forall i :: 0 <= i < |a| ==> (a + b)[i] == a[i];
    assert forall i :: 0 <= i < |b| ==> (a + b)[|a| + i] == b[i];
  }

  /**
   * Evidence saved at a boundary of a well-formed conversation and continued over the rest is
   * the evidence of the whole conversation, when every saved open failure has some text and
   * every changed path is plain.
   */
  lemma {:induction false} SavedEvidenceContinues(reader: Reader, a: Conversation, b: Conversation)
    requires Tags(FAILURES, reader.tag, Invocations(Events(reader, map[], a + b)))
    requires Grammar(a + b) && ForeignIdsApart(a + b) && Boundary(a + b, |a|)
    requires NoBlankOpen(Events(reader, map[], a))
    requires AllPlain(FILES, Files([], Events(reader, map[], a + b)))
    ensures Extracted(reader, Extracted(reader, NOTHING, a), b) == Extracted(reader, NOTHING, a + b)
  {
    EventsSplit(reader, a, b);
    SavedFindingsContinue(reader.tag, Events(reader, map[], a), Events(reader, map[], b));
  }
}
