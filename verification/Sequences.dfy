/** Facts about slices and concatenations that proofs elsewhere name. */
module Sequences {
  lemma {:induction false} Regroup<T>(a: seq<T>, b: seq<T>, c: seq<T>)
    ensures (a + b) + c == a + (b + c)
  {
  }

  lemma {:induction false} Ends<T>(a: seq<T>)
    ensures a + [] == a == [] + a
  {
  }

  lemma {:induction false} Splice<T>(s: seq<T>, a: nat, b: nat, c: nat)
    requires a <= b <= c <= |s|
    ensures s[a..b] + s[b..c] == s[a..c]
  {
  }

  lemma {:induction false} DropAppend<T>(s: seq<T>, n: nat, x: seq<T>)
    requires n <= |s|
    ensures (s + x)[n..] == s[n..] + x
  {
  }

  lemma {:induction false} DropDrop<T>(s: seq<T>, p: nat, q: nat)
    requires p <= q <= |s|
    ensures s[p..][q - p..] == s[q..]
  {
  }

  /** Moving a batch from the front of a buffer to the end of a log keeps log and buffer together. */
  lemma {:induction false} MovedBatch<T>(log: seq<T>, batch: seq<T>, buffer: seq<T>)
    requires batch <= buffer
    ensures (log + batch) + buffer[|batch|..] == log + buffer
  {
    assert buffer == batch + buffer[|batch|..];
    Regroup(log, batch, buffer[|batch|..]);
  }

  /** Sequences with the same last element and the same rest are the same. */
  lemma {:induction false} Rejoin<T>(a: seq<T>, b: seq<T>)
    requires a != [] && b != [] && a[..|a| - 1] == b[..|b| - 1] && a[|a| - 1] == b[|b| - 1]
    ensures a == b
  {
    assert a == a[..|a| - 1] + [a[|a| - 1]] && b == b[..|b| - 1] + [b[|b| - 1]];
  }

  /** What the elements of a sequence come to, in order. */
  function Gathered<T, U>(s: seq<T>, parts: T -> seq<U>): seq<U> {
    if s == [] then [] else parts(s[0]) + Gathered(s[1..], parts)
  }

  lemma {:induction false} GatheredConcat<T, U>(a: seq<T>, b: seq<T>, parts: T -> seq<U>)
    ensures Gathered(a + b, parts) == Gathered(a, parts) + Gathered(b, parts)
  {
    if a == [] {
      assert a + b == b;
    } else {
      assert (a + b)[0] == a[0] && (a + b)[1..] == a[1..] + b;
      GatheredConcat(a[1..], b, parts);
      Regroup(parts(a[0]), Gathered(a[1..], parts), Gathered(b, parts));
    }
  }

  lemma {:induction false} GatheredOne<T, U>(x: T, parts: T -> seq<U>)
    ensures Gathered([x], parts) == parts(x)
  {
    assert [x][1..] == [];
  }
}
