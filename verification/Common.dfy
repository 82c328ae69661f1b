/** Small vocabulary shared by every component of the model. */
module Common {

  datatype Option<+T> = None | Some(value: T)

  /** The last n elements of s, or all of s when it is shorter. */
  function Last<T>(n: nat, s: seq<T>): seq<T> {
    if |s| <= n then s else s[|s| - n..]
  }

  /** The first n elements of s, or all of s when it is shorter. */
  function First<T>(n: nat, s: seq<T>): seq<T> {
    if |s| <= n then s else s[..n]
  }

  /** Keeping a bounded tail and appending loses nothing a longer tail would have kept. */
  lemma LastAppend<T>(n: nat, m: nat, s: seq<T>, t: seq<T>)
    requires n <= m
    ensures Last(n, Last(m, s) + t) == Last(n, s + t)
  {
    if |s| > m {
      var d := |s| - m;
      assert (s + t)[d..] == s[d..] + t;
    }
  }

  lemma LastLast<T>(n: nat, m: nat, s: seq<T>)
    requires n <= m
    ensures Last(n, Last(m, s)) == Last(n, s)
  {
    LastAppend(n, m, s, []);
    assert Last(m, s) + [] == Last(m, s) && s + [] == s;
  }

  predicate Distinct<T(==)>(s: seq<T>) {
    forall i, j :: 0 <= i < j < |s| ==> s[i] != s[j]
  }

  /** The elements of s that satisfy p, in order. */
  function Filter<T>(s: seq<T>, p: T -> bool): (r: seq<T>) {
    if s == [] then []
    else (if p(s[0]) then [s[0]] else []) + Filter(s[1..], p)
  }

  lemma {:induction false} FilterConcat<T>(a: seq<T>, b: seq<T>, p: T -> bool)
    ensures Filter(a + b, p) == Filter(a, p) + Filter(b, p)
  {
    if a == [] {
      assert a + b == b;
    } else {
      FilterConcat(a[1..], b, p);
      var head := if p(a[0]) then [a[0]] else [];
      assert (a + b)[0] == a[0] && (a + b)[1..] == a[1..] + b;
      calc {
        Filter(a + b, p);
        head + (Filter(a[1..], p) + Filter(b, p));
        (head + Filter(a[1..], p)) + Filter(b, p);
      }
    }
  }

  lemma {:induction false} FilterNone<T>(s: seq<T>, p: T -> bool)
    requires forall x :: x in s ==> !p(x)
    ensures Filter(s, p) == []
  {
    if s != [] {
      FilterNone(s[1..], p);
    }
  }

  lemma {:induction false} FilterMember<T>(s: seq<T>, p: T -> bool, x: T)
    ensures x in Filter(s, p) <==> x in s && p(x)
  {
    if s != [] {
      FilterMember(s[1..], p, x);
      assert s == [s[0]] + s[1..];
    }
  }

  function FlatMap<S, T>(s: seq<S>, f: S -> seq<T>): seq<T> {
    if s == [] then [] else f(s[0]) + FlatMap(s[1..], f)
  }

  lemma {:induction false} FlatMapConcat<S, T>(a: seq<S>, b: seq<S>, f: S -> seq<T>)
    ensures FlatMap(a + b, f) == FlatMap(a, f) + FlatMap(b, f)
  {
    if a == [] {
      assert a + b == b;
    } else {
      FlatMapConcat(a[1..], b, f);
      assert (a + b)[0] == a[0] && (a + b)[1..] == a[1..] + b;
    }
  }

  /** a is what is left of b when some elements are taken out. */
  ghost predicate Subseq<T>(a: seq<T>, b: seq<T>) {
    a == [] || (b != [] && ((a[0] == b[0] && Subseq(a[1..], b[1..])) || Subseq(a, b[1..])))
  }

  lemma {:induction false} SubseqLater<T>(a: seq<T>, more: seq<T>, b: seq<T>)
    requires Subseq(a, b)
    ensures Subseq(a, more + b)
  {
    if more == [] {
      assert more + b == b;
    } else {
      SubseqLater(a, more[1..], b);
      assert (more + b)[1..] == more[1..] + b;
    }
  }

  lemma {:induction false} SubseqBoth<T>(head: seq<T>, a: seq<T>, b: seq<T>)
    requires Subseq(a, b)
    ensures Subseq(head + a, head + b)
  {
    if head == [] {
      assert head + a == a && head + b == b;
    } else {
      SubseqBoth(head[1..], a, b);
      assert (head + a)[1..] == head[1..] + a && (head + b)[1..] == head[1..] + b;
    }
  }
}
