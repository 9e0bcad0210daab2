/** When the changed files can be continued from saved evidence. */
module FileEvidence {
  import opened Wrappers
  import opened Transcript
  import opened Evidence
  import opened EvidenceLists
  import Text

  /** A path that the finishing touches cannot mistake for an absent or a missing one. */
  predicate Plain(f: Field, path: string) {
    path == f.missing || (Text.Strip(path) != "" && Text.Strip(path) !in f.placeholders)
  }

  ghost predicate AllPlain(f: Field, paths: seq<string>) {
    forall i :: 0 <= i < |paths| ==> Plain(f, paths[i])
  }

  ghost predicate PathsAgree(f: Field, a: seq<string>, b: seq<string>) {
    Finished(f, NonBlank(Finished(f, a)) + b) == Finished(f, a + b)
  }

  lemma {:induction false} NoRealPaths(f: Field, paths: seq<string>, i: nat)
    requires Proper(f) && AllPlain(f, paths) && Real(f, paths) == [] && i < |paths|
    ensures paths[i] == f.missing
  {
    if paths[i] !in f.placeholders { RealKeeps(f, paths, i); }
  }

  lemma {:induction false} KeptNothing(output: seq<string>, items: seq<string>)
    requires forall i :: 0 <= i < |items| ==> Text.Strip(items[i]) in output
    ensures Kept(output, items) == output
  {
    if items != [] { KeptNothing(output, items[1..]); }
  }

  lemma {:induction false} KeptSame(f: Field, items: seq<string>)
    requires Proper(f)
    requires items != [] && forall i :: 0 <= i < |items| ==> items[i] == f.missing
    ensures Deduped(items) == [f.missing]
  {
    assert [] + [f.missing] == [f.missing];
    KeptNothing([f.missing], items[1..]);
  }

  /** Plain paths are finished as the real ones among them, or as the placeholder when there are none. */
  lemma {:induction false} FinishedPlain(f: Field, paths: seq<string>)
    requires Proper(f) && AllPlain(f, paths)
    ensures Finished(f, paths) == if Real(f, paths) == [] then [f.missing] else Deduped(Real(f, paths))
  {
    RealIff(f, paths);
    if Real(f, paths) == [] {
      forall i | 0 <= i < |paths| ensures paths[i] == f.missing { NoRealPaths(f, paths, i); }
      KeptSame(f, OrMissing(f, paths));
    }
  }

  lemma {:induction false} DedupedIsPlain(f: Field, paths: seq<string>)
    requires Proper(f) && AllPlain(f, paths)
    requires forall i :: 0 <= i < |paths| ==> paths[i] !in f.placeholders
    ensures AllPlain(f, Deduped(paths))
    ensures forall i :: 0 <= i < |Deduped(paths)| ==> Deduped(paths)[i] !in f.placeholders
  {
    KeptMembers([], paths);
    var d := Deduped(paths);
    forall i | 0 <= i < |d| ensures Plain(f, d[i]) && d[i] !in f.placeholders {
      assert d[i] in d;
      var j :| 0 <= j < |paths| && Text.Strip(paths[j]) == d[i];
      assert Plain(f, paths[j]) && paths[j] != f.missing;
      PlainStrips(f, paths[j]);
    }
  }

  lemma {:induction false} PlainStrips(f: Field, path: string)
    requires Proper(f) && Plain(f, path) && path !in f.placeholders
    ensures Plain(f, Text.Strip(path)) && Text.Strip(path) !in f.placeholders && Text.Strip(path) != ""
  {
    Text.StripIdempotent(path);
  }

  lemma {:induction false} DedupedIsSome(f: Field, paths: seq<string>)
    requires Proper(f) && AllPlain(f, paths) && paths != [] && paths[0] !in f.placeholders
    ensures Deduped(paths) != []
  {
    KeptMembers([], paths);
    PlainStrips(f, paths[0]);
    assert Text.Strip(paths[0]) in Deduped(paths);
  }

  lemma {:induction false} RealIsPlain(f: Field, paths: seq<string>)
    requires AllPlain(f, paths)
    ensures AllPlain(f, Real(f, paths))
    ensures forall i :: 0 <= i < |Real(f, paths)| ==> Real(f, paths)[i] !in f.placeholders
  {
    RealIff(f, paths);
    assert forall i :: 0 <= i < |Real(f, paths)| ==> Real(f, paths)[i] in paths;
  }

  /** Removing repetitions early changes nothing. */
  lemma {:induction false} DedupedFirst(a: seq<string>, b: seq<string>)
    ensures Deduped(Deduped(a) + b) == Deduped(a + b)
  {
    KeptIsClean([], a);
    KeptFixed([], Deduped(a));
    assert [] + Deduped(a) == Deduped(a);
    KeptConcat([], Deduped(a), b);
    KeptConcat([], a, b);
  }

  lemma {:induction false} PlainPathsAgree(f: Field, a: seq<string>, b: seq<string>)
    requires Proper(f) && AllPlain(f, a) && AllPlain(f, b)
    ensures PathsAgree(f, a, b)
  {
    var saved := Finished(f, a);
    FinishedIsClean(f, a);
    SavedIsPlain(f, a);
    FinishedTogether(f, a, b);
    FinishedTogether(f, saved, b);
    DedupedFirst(Real(f, a), Real(f, b));
    assert [] + Real(f, b) == Real(f, b);
  }

  lemma {:induction false} FinishedTogether(f: Field, a: seq<string>, b: seq<string>)
    requires Proper(f) && AllPlain(f, a) && AllPlain(f, b)
    ensures Finished(f, a + b) ==
      if Real(f, a) + Real(f, b) == [] then [f.missing] else Deduped(Real(f, a) + Real(f, b))
  {
    RealConcat(f, a, b);
    FinishedPlain(f, a + b);
  }

  lemma {:induction false} SavedIsPlain(f: Field, a: seq<string>)
    requires Proper(f) && AllPlain(f, a)
    ensures AllPlain(f, Finished(f, a))
    ensures Real(f, Finished(f, a)) == if Real(f, a) == [] then [] else Deduped(Real(f, a))
    ensures Real(f, a) != [] ==> Deduped(Real(f, a)) != []
  {
    FinishedPlain(f, a);
    if Real(f, a) == [] {
      assert [f.missing][1..] == [];
    } else {
      RealIsPlain(f, a);
      DedupedIsPlain(f, Real(f, a));
      DedupedIsSome(f, Real(f, a));
      RealFixed(f, Deduped(Real(f, a)));
    }
  }

  // ---------------------------------------------------------------------------
  // Paths that are not plain
  // ---------------------------------------------------------------------------

  lemma {:induction false} FinishedOne(f: Field, path: string)
    ensures Finished(f, [path]) == if Text.Strip(path) == "" then [] else [Text.Strip(path)]
  {
    if path !in f.placeholders { RealFixed(f, [path]); }
    assert WithoutPlaceholders(f, [path]) == [path];
    KeptOne(path);
  }

  lemma {:induction false} KeptOne(path: string)
    ensures Deduped([path]) == if Text.Strip(path) == "" then [] else [Text.Strip(path)]
  {
    var output := if Text.Strip(path) == "" then [] else [Text.Strip(path)];
    assert [] + [Text.Strip(path)] == [Text.Strip(path)] && [path][1..] == [];
    assert Kept([], [path]) == Kept(output, []);
  }

  lemma {:induction false} FinishedNone(f: Field)
    requires Proper(f)
    ensures Finished(f, []) == [f.missing]
  {
    KeptFixed([], [f.missing]);
    assert [] + [f.missing] == [f.missing];
  }

  /** A blank path leaves nothing behind, which is then taken for an unrecorded list. */
  lemma {:induction false} BlankPathDisagrees(f: Field, path: string)
    requires Proper(f) && Text.Strip(path) == ""
    ensures !PathsAgree(f, [path], [])
  {
    FinishedOne(f, path);
    FinishedNone(f);
    assert [path] + [] == [path];
    assert NonBlank([]) + [] == [];
  }

  /** A path that is another placeholder stays beside the saved placeholder. */
  lemma {:induction false} PlaceholderPathDisagrees(f: Field, path: string)
    requires Proper(f) && path in f.placeholders && path != f.missing
    ensures !PathsAgree(f, [], [path])
  {
    FinishedNone(f);
    FinishedOne(f, path);
    NonBlankFixed([f.missing]);
    assert [] + [path] == [path];
    TwoPlaceholders(f, path);
  }

  lemma {:induction false} TwoPlaceholders(f: Field, path: string)
    requires Proper(f) && path in f.placeholders && path != f.missing
    ensures Finished(f, [f.missing] + [path]) == [f.missing] + [path]
  {
    var both := [f.missing] + [path];
    assert both == [f.missing, path];
    KeptFixed([], both);
    assert [] + both == both;
  }

  lemma {:induction false} OneReal(f: Field, a: string, b: string)
    requires b !in f.placeholders && Text.Strip(b) == b && b != ""
    ensures Finished(f, [a] + [b]) ==
      if a in f.placeholders then [b] else Deduped([a] + [b])
  {
    RealKeeps(f, [a] + [b], 1);
    RealConcat(f, [a], [b]);
    RealFixed(f, [b]);
    if a in f.placeholders {
      assert Real(f, [a]) == Real(f, []);
      assert [] + [b] == [b];
      KeptFixed([], [b]);
    } else {
      RealFixed(f, [a]);
    }
  }

  /** A padded placeholder is saved without its padding, and then removed. */
  lemma {:induction false} PaddedPathDisagrees(f: Field, path: string, other: string)
    requires Proper(f) && Text.Strip(path) in f.placeholders && path !in f.placeholders
    requires other !in f.placeholders && Text.Strip(other) == other && other != ""
    ensures !PathsAgree(f, [path], [other])
  {
    var p := Text.Strip(path);
    FinishedOne(f, path);
    NonBlankFixed([p]);
    OneReal(f, p, other);
    OneReal(f, path, other);
    KeptMembers([], [path] + [other]);
    assert Text.Strip(([path] + [other])[0]) == p;
    assert p in Deduped([path] + [other]);
  }

  /** Lists of one path and of plain ones. */
  ghost predicate Mostly(f: Field, path: string, paths: seq<string>) {
    forall i :: 0 <= i < |paths| ==> paths[i] == path || Plain(f, paths[i])
  }

  lemma {:induction false} OddPathDisagrees(f: Field, path: string, other: string)
    requires Proper(f) && !Plain(f, path)
    requires other !in f.placeholders && Text.Strip(other) == other && other != ""
    ensures exists a, b :: Mostly(f, path, a) && Mostly(f, path, b) && !PathsAgree(f, a, b)
  {
    if Text.Strip(path) == "" {
      BlankPathDisagrees(f, path);
      assert Mostly(f, path, [path]) && Mostly(f, path, []);
    } else if path in f.placeholders {
      PlaceholderPathDisagrees(f, path);
      assert Mostly(f, path, []) && Mostly(f, path, [path]);
    } else {
      PaddedPathDisagrees(f, path, other);
      assert Mostly(f, path, [path]) && Mostly(f, path, [other]);
    }
  }

  /**
   * A list of changed files can be continued from what was saved exactly when its paths are
   * plain: one that is not spoils some lists whose other paths are.
   */
  lemma {:induction false} ContinuedPathsAgree(f: Field, path: string, other: string)
    requires Proper(f) && other !in f.placeholders && Text.Strip(other) == other && other != ""
    ensures Plain(f, path) <==>
      forall a, b :: Mostly(f, path, a) && Mostly(f, path, b) ==> PathsAgree(f, a, b)
  {
    if Plain(f, path) {
      forall a, b | Mostly(f, path, a) && Mostly(f, path, b) ensures PathsAgree(f, a, b) {
        PlainPathsAgree(f, a, b);
      }
    } else {
      OddPathDisagrees(f, path, other);
    }
  }
}
