/** Facts about the lists that evidence is kept in. */
module EvidenceLists {
  import opened Transcript
  import opened Evidence
  import Text

  /** Placeholders are neither empty nor padded, and a missing field is given one of them. */
  ghost predicate Proper(f: Field) {
    && f.missing in f.placeholders
    && forall p :: p in f.placeholders ==> p != "" && Text.Strip(p) == p
  }

  /** A text that starts with a capital letter and ends with a full stop is not padded. */
  lemma {:induction false} Sentence(s: string)
    requires s != "" && (s[0] == 'U' || s[0] == 'N') && s[|s| - 1] == '.'
    ensures Text.Strip(s) == s
  {
    Text.StripFixed(s);
  }

  lemma {:induction false} FieldsAreProper()
    ensures Proper(FILES) && Proper(FAILURES)
  {
    var u := "Unavailable: no ";
    assert u[0] == 'U';
    forall p | p in PLACEHOLDERS ensures p != "" && Text.Strip(p) == p {
      Sentence(p);
    }
  }

  ghost predicate Clean(items: seq<string>) {
    forall i :: 0 <= i < |items| ==> items[i] != "" && Text.Strip(items[i]) == items[i]
  }

  lemma {:induction false} KeptIsClean(output: seq<string>, items: seq<string>)
    requires Clean(output) && Distinct(output)
    ensures Clean(Kept(output, items)) && Distinct(Kept(output, items))
    ensures output <= Kept(output, items)
    decreases |items|
  {
    if items != [] {
      var item := Text.Strip(items[0]);
      Text.StripIdempotent(items[0]);
      KeptIsClean(if item != "" && item !in output then output + [item] else output, items[1..]);
    }
  }

  lemma {:induction false} KeptFixed(output: seq<string>, items: seq<string>)
    requires Clean(items) && Distinct(items)
    requires forall i :: 0 <= i < |items| ==> items[i] !in output
    ensures Kept(output, items) == output + items
    decreases |items|
  {
    if items != [] {
      assert output + [items[0]] + items[1..] == output + items;
      forall i | 0 <= i < |items[1..]| ensures items[1..][i] !in output + [items[0]] {
        assert items[i + 1] != items[0];
      }
      KeptFixed(output + [items[0]], items[1..]);
    }
  }

  lemma {:induction false} KeptConcat(output: seq<string>, a: seq<string>, b: seq<string>)
    ensures Kept(output, a + b) == Kept(Kept(output, a), b)
    decreases |a|
  {
    if a == [] {
      assert a + b == b;
    } else {
      assert (a + b)[0] == a[0] && (a + b)[1..] == a[1..] + b;
      var item := Text.Strip(a[0]);
      KeptConcat(if item != "" && item !in output then output + [item] else output, a[1..], b);
    }
  }

  lemma {:induction false} NonBlankFixed(items: seq<string>)
    requires Clean(items)
    ensures NonBlank(items) == items
  {
    if items != [] { NonBlankFixed(items[1..]); }
  }

  lemma {:induction false} RealFixed(f: Field, items: seq<string>)
    requires forall i :: 0 <= i < |items| ==> items[i] !in f.placeholders
    ensures Real(f, items) == items && WithoutPlaceholders(f, items) == items
  {
    if items != [] { RealFixed(f, items[1..]); }
  }

  lemma {:induction false} RealConcat(f: Field, a: seq<string>, b: seq<string>)
    ensures Real(f, a + b) == Real(f, a) + Real(f, b)
  {
    if a == [] {
      assert a + b == b;
    } else {
      assert (a + b)[0] == a[0] && (a + b)[1..] == a[1..] + b;
      RealConcat(f, a[1..], b);
    }
  }

  lemma {:induction false} RealIff(f: Field, items: seq<string>)
    ensures HasRealEvidence(f, items) <==> Real(f, items) != []
    ensures forall i :: 0 <= i < |Real(f, items)| ==> Real(f, items)[i] !in f.placeholders && Real(f, items)[i] in items
  {
    if items != [] {
      RealIff(f, items[1..]);
      if HasRealEvidence(f, items) && items[0] in f.placeholders {
        var i :| 0 <= i < |items| && items[i] !in f.placeholders;
        assert items[1..][i - 1] == items[i];
      }
      assert HasRealEvidence(f, items[1..]) ==> HasRealEvidence(f, items) by {
        if i :| 0 <= i < |items[1..]| && items[1..][i] !in f.placeholders { assert items[i + 1] !in f.placeholders; }
      }
    }
  }

  lemma {:induction false} FinishedIsClean(f: Field, items: seq<string>)
    ensures Clean(Finished(f, items))
    ensures NonBlank(Finished(f, items)) == Finished(f, items)
  {
    KeptIsClean([], OrMissing(f, WithoutPlaceholders(f, items)));
    NonBlankFixed(Finished(f, items));
  }

  lemma {:induction false} KeptMembers(output: seq<string>, items: seq<string>)
    ensures forall s :: s in Kept(output, items) <==>
      s in output || (s != "" && exists i :: 0 <= i < |items| && Text.Strip(items[i]) == s)
    decreases |items|
  {
    if items != [] {
      var item, rest := Text.Strip(items[0]), items[1..];
      var output' := if item != "" && item !in output then output + [item] else output;
      KeptMembers(output', rest);
      assert forall i :: 0 < i < |items| ==> items[i] == rest[i - 1];
      forall s ensures s in Kept(output, items) <==>
        s in output || (s != "" && exists i :: 0 <= i < |items| && Text.Strip(items[i]) == s)
      {
        assert s in output' <==> s in output || (s != "" && s == item);
        if i :| 0 <= i < |rest| && Text.Strip(rest[i]) == s { assert Text.Strip(items[i + 1]) == s; }
        if i :| 0 <= i < |items| && Text.Strip(items[i]) == s && i > 0 { assert Text.Strip(rest[i - 1]) == s; }
      }
    }
  }

  lemma {:induction false} RealKeeps(f: Field, items: seq<string>, i: nat)
    requires i < |items| && items[i] !in f.placeholders
    ensures items[i] in Real(f, items) && HasRealEvidence(f, items)
  {
    if i > 0 { RealKeeps(f, items[1..], i - 1); }
  }
}
