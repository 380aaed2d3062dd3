/** Shared building blocks: an optional value and the numeric left fold that
    the TypeScript code writes as `xs.reduce((sum, x) => sum + f(x), 0)`. */
module Comum {

  /** A value that may be absent; used for the result of `parseFloat`,
      where `None` stands for `NaN` (text that does not start with a number). */
  datatype Option<+T> = None | Some(value: T)

  /** `xs.reduce((sum, x) => sum + f(x), 0)` over exact reals. The fold adds
      from the left, so the definition peels the LAST element. */
  function Soma<T>(s: seq<T>, f: T -> real): real
    decreases |s|
  {
    if |s| == 0 then 0.0 else Soma(s[..|s| - 1], f) + f(s[|s| - 1])
  }

  /** When no term is negative, the sum is not negative and bounds every
      single term. */
  lemma {:induction false} SomaLimitada<T>(s: seq<T>, f: T -> real)
    ensures (forall i :: 0 <= i < |s| ==> f(s[i]) >= 0.0) ==>
              0.0 <= Soma(s, f) && forall i :: 0 <= i < |s| ==> f(s[i]) <= Soma(s, f)
    decreases |s|
  {
    if |s| > 0 && forall i :: 0 <= i < |s| ==> f(s[i]) >= 0.0 {
      var n := |s| - 1;
      var t := s[..n];
      assert forall i :: 0 <= i < |t| ==> t[i] == s[i];
      SomaLimitada(t, f);
    }
  }

  /** The sum over a concatenation is the sum of the two sums. */
  lemma {:induction false} SomaConcat<T>(a: seq<T>, b: seq<T>, f: T -> real)
    ensures Soma(a + b, f) == Soma(a, f) + Soma(b, f)
    decreases |b|
  {
    if |b| == 0 {
      assert a + b == a;
    } else {
      var b' := b[..|b| - 1];
      assert (a + b)[..|a + b| - 1] == a + b';
      SomaConcat(a, b', f);
    }
  }

  /** Appending one element adds its term. */
  lemma SomaAcrescentar<T>(s: seq<T>, x: T, f: T -> real)
    ensures Soma(s + [x], f) == Soma(s, f) + f(x)
  {
    assert (s + [x])[..|s|] == s;
  }

  /** Prepending one element adds its term. */
  lemma SomaCabeca<T>(x: T, s: seq<T>, f: T -> real)
    ensures Soma([x] + s, f) == f(x) + Soma(s, f)
  {
    SomaConcat([x], s, f);
    assert [x][..0] == [];
  }

  /** Leaving out the element at `k` subtracts its term. */
  lemma {:induction false} SomaSemPosicao<T>(s: seq<T>, k: nat, f: T -> real)
    requires k < |s|
    ensures Soma(s[..k] + s[k + 1..], f) == Soma(s, f) - f(s[k])
    decreases |s|
  {
    var n := |s| - 1;
    if k < n {
      var t := s[..n];
      SomaSemPosicao(t, k, f);
      var r := s[..k] + s[k + 1..];
      assert r[..|r| - 1] == t[..k] + t[k + 1..];
      assert r[|r| - 1] == s[n];
    } else {
      assert s[..k] + s[k + 1..] == s[..n];
    }
  }

  /** Putting the head back in front of the tail with position `k - 1`
      left out gives `s` with position `k` left out. */
  lemma ConsSemPosicao<T>(s: seq<T>, k: nat)
    requires 0 < k < |s|
    ensures [s[0]] + (s[1..][..k - 1] + s[1..][k..]) == s[..k] + s[k + 1..]
  {
    assert s[..k] == [s[0]] + s[1..][..k - 1];
    assert s[k + 1..] == s[1..][k..];
  }

  /** Two sequences of the same length whose terms agree position by
      position have the same sum. */
  lemma {:induction false} SomaPontual<A, B>(a: seq<A>, f: A -> real, b: seq<B>, g: B -> real)
    requires |a| == |b|
    requires forall i :: 0 <= i < |a| ==> f(a[i]) == g(b[i])
    ensures Soma(a, f) == Soma(b, g)
    decreases |a|
  {
    if |a| > 0 {
      SomaPontual(a[..|a| - 1], f, b[..|b| - 1], g);
    }
  }

  /** Summing a pointwise sum of two term functions splits into two sums. */
  lemma {:induction false} SomaAditiva<T>(s: seq<T>, f: T -> real, g: T -> real, h: T -> real)
    requires forall i :: 0 <= i < |s| ==> h(s[i]) == f(s[i]) + g(s[i])
    ensures Soma(s, h) == Soma(s, f) + Soma(s, g)
    decreases |s|
  {
    if |s| > 0 {
      SomaAditiva(s[..|s| - 1], f, g, h);
    }
  }

  /** Terms that are all zero sum to zero. */
  lemma {:induction false} SomaZero<T>(s: seq<T>, f: T -> real)
    requires forall i :: 0 <= i < |s| ==> f(s[i]) == 0.0
    ensures Soma(s, f) == 0.0
    decreases |s|
  {
    if |s| > 0 {
      SomaZero(s[..|s| - 1], f);
    }
  }

  /** The elements of `s` are pairwise different. */
  predicate Distintos<T(==)>(s: seq<T>)
  {
    forall i, j :: 0 <= i < j < |s| ==> s[i] != s[j]
  }

  /** When `c` occurs exactly once and every other element contributes zero,
      the sum is the term of `c`. */
  lemma {:induction false} SomaTermoUnico<T>(s: seq<T>, f: T -> real, c: T)
    requires Distintos(s) && c in s
    requires forall i :: 0 <= i < |s| && s[i] != c ==> f(s[i]) == 0.0
    ensures Soma(s, f) == f(c)
    decreases |s|
  {
    var n := |s| - 1;
    var init := s[..n];
    if s[n] == c {
      assert forall i :: 0 <= i < |init| ==> init[i] != c;
      SomaZero(init, f);
    } else {
      assert c in init by {
        var k :| 0 <= k < |s| && s[k] == c;
        assert k < n && init[k] == c;
      }
      SomaTermoUnico(init, f, c);
    }
  }
}
