/**
 * Ascending enumeration of finite sets, the meaning of ORDER BY on a key that
 * no two rows share, and the lexicographic order of text keys.
 */
module Ordering {

  /** `less` is a strict order that leaves no two elements of `s` unranked. */
  ghost predicate StrictTotal<T(!new)>(less: (T, T) -> bool, s: set<T>) {
    && (forall x :: !less(x, x))
    && (forall x, y, z :: less(x, y) && less(y, z) ==> less(x, z))
    && (forall x, y | x in s && y in s :: x == y || less(x, y) || less(y, x))
  }

  ghost predicate Ascending<T(!new)>(q: seq<T>, less: (T, T) -> bool) {
    forall i, j | 0 <= i < j < |q| :: less(q[i], q[j])
  }

  function Elements<T>(q: seq<T>): set<T> {
    set x | x in q
  }

  predicate IsLeast<T(==)>(m: T, s: set<T>, less: (T, T) -> bool) {
    m in s && forall x | x in s :: x == m || less(m, x)
  }

  lemma LeastExists<T(!new)>(s: set<T>, less: (T, T) -> bool) returns (m: T)
    requires StrictTotal(less, s) && s != {}
    ensures IsLeast(m, s, less)
  {
    var x :| x in s;
    var rest := s - {x};
    assert s == rest + {x};
    if rest == {} {
      m := x;
    } else {
      var n := LeastExists(rest, less);
      m := if less(n, x) then n else x;
      assert less(n, x) || less(x, n);
    }
  }

  lemma AscendingCons<T(!new)>(m: T, rest: seq<T>, less: (T, T) -> bool)
    requires Ascending(rest, less) && forall x | x in Elements(rest) :: less(m, x)
    ensures Ascending([m] + rest, less) && Elements([m] + rest) == {m} + Elements(rest)
  {
    forall i, j | 0 <= i < j < |[m] + rest| ensures less(([m] + rest)[i], ([m] + rest)[j]) {
      assert ([m] + rest)[j] == rest[j - 1] && rest[j - 1] in Elements(rest);
      assert i > 0 ==> ([m] + rest)[i] == rest[i - 1];
    }
    forall x ensures x in Elements([m] + rest) <==> x == m || x in Elements(rest) {
      if x in rest {
        var i :| 0 <= i < |rest| && rest[i] == x;
        assert ([m] + rest)[i + 1] == x;
      }
      assert ([m] + rest)[0] == m;
    }
  }

  lemma AscendingSnoc<T(!new)>(q: seq<T>, m: T, less: (T, T) -> bool)
    requires Ascending(q, less) && forall x | x in q :: less(x, m)
    ensures Ascending(q + [m], less) && Elements(q + [m]) == Elements(q) + {m}
  {
    forall x ensures x in Elements(q + [m]) <==> x == m || x in Elements(q) {
      if x in q {
        var i :| 0 <= i < |q| && q[i] == x;
        assert (q + [m])[i] == x;
      }
      assert (q + [m])[|q|] == m;
    }
  }

  lemma AscendingSuffix<T(!new)>(q: seq<T>, n: nat, less: (T, T) -> bool)
    requires n <= |q| && Ascending(q, less)
    ensures Ascending(q[n..], less)
  {
    var rest := q[n..];
    assert forall i | 0 <= i < |rest| :: rest[i] == q[n + i];
  }

  /** The elements of `s` from least to greatest. */
  ghost function Sorted<T(!new)>(s: set<T>, less: (T, T) -> bool): (q: seq<T>)
    requires StrictTotal(less, s)
    ensures Ascending(q, less) && Elements(q) == s && |q| == |s|
  {
    if s == {} then [] else
      assert exists m :: IsLeast(m, s, less) by { var _ := LeastExists(s, less); }
      var m :| IsLeast(m, s, less);
      var rest := Sorted(s - {m}, less);
      AscendingCons(m, rest, less);
      [m] + rest
  }

  lemma NoElements<T>(q: seq<T>)
    ensures Elements(q) == {} <==> q == []
  {
    assert q != [] ==> q[0] in Elements(q);
  }

  /** An ascending sequence is determined by the set of its elements. */
  lemma {:induction false} AscendingUnique<T(!new)>(p: seq<T>, q: seq<T>, less: (T, T) -> bool)
    requires StrictTotal(less, Elements(p)) && Ascending(p, less) && Ascending(q, less)
    requires Elements(p) == Elements(q)
    ensures p == q
    decreases |p|
  {
    NoElements(p);
    NoElements(q);
    if p == [] {
    } else {
      assert p[0] in Elements(p) && q != [];
      assert q[0] in Elements(q);
      assert p[0] == q[0];
      forall x ensures x in Elements(p[1..]) <==> x in Elements(q[1..]) {
        assert x in Elements(p[1..]) <==> x in Elements(p) && x != p[0];
        assert x in Elements(q[1..]) <==> x in Elements(q) && x != q[0];
      }
      assert Elements(p[1..]) == Elements(q[1..]);
      AscendingUnique(p[1..], q[1..], less);
    }
  }

  /** Selection of the least remaining element, until none is left. */
  method Enumerate<T(==, !new)>(s: set<T>, less: (T, T) -> bool) returns (q: seq<T>)
    requires StrictTotal(less, s)
    ensures q == Sorted(s, less)
  {
    q := [];
    var rest := s;
    while rest != {}
      invariant rest <= s && Elements(q) == s - rest
      invariant Ascending(q, less)
      invariant forall x, y | x in q && y in rest :: less(x, y)
      decreases rest
    {
      assert exists m :: IsLeast(m, rest, less) by { var _ := LeastExists(rest, less); }
      var m :| m in rest && IsLeast(m, rest, less);
      AscendingSnoc(q, m, less);
      q, rest := q + [m], rest - {m};
    }
    AscendingUnique(q, Sorted(s, less), less);
  }

  predicate LexLess(a: string, b: string) {
    b != "" && (a == "" || a[0] < b[0] || (a[0] == b[0] && LexLess(a[1..], b[1..])))
  }

  /** The texts agree up to position `i`; there `a` ends first, or has the smaller character. */
  predicate DiffersAt(a: string, b: string, i: nat) {
    && i <= |a| && i < |b| && a[..i] == b[..i]
    && (i == |a| || a[i] < b[i])
  }

  /** Dictionary order: a text comes before its extensions. */
  ghost predicate Precedes(a: string, b: string) {
    exists i :: DiffersAt(a, b, i)
  }

  lemma DiffersLater(a: string, b: string, i: nat)
    requires a != "" && b != "" && a[0] == b[0]
    ensures DiffersAt(a[1..], b[1..], i) <==> DiffersAt(a, b, i + 1)
  {
    if i + 1 <= |a| && i + 1 < |b| {
      assert a[..i + 1] == [a[0]] + a[1..][..i] && b[..i + 1] == [b[0]] + b[1..][..i];
    }
  }

  lemma {:induction false} LexLessIsPrecedes(a: string, b: string)
    ensures LexLess(a, b) <==> Precedes(a, b)
  {
    if a == "" || b == "" || a[0] != b[0] {
      assert b != "" && (a == "" || a[0] < b[0]) ==> DiffersAt(a, b, 0);
      assert forall i: nat | i > 0 && DiffersAt(a, b, i) :: a[..i][0] == b[..i][0];
    } else {
      LexLessIsPrecedes(a[1..], b[1..]);
      if i: nat :| DiffersAt(a[1..], b[1..], i) {
        DiffersLater(a, b, i);
      }
      if i: nat :| DiffersAt(a, b, i) {
        assert i > 0;
        DiffersLater(a, b, i - 1);
      }
    }
  }

  lemma {:induction false} LexLessIrreflexive(a: string)
    ensures !LexLess(a, a)
  {
    if a == "" {
    } else {
      LexLessIrreflexive(a[1..]);
    }
  }

  lemma {:induction false} LexLessTransitive(a: string, b: string, c: string)
    requires LexLess(a, b) && LexLess(b, c)
    ensures LexLess(a, c)
  {
    if a == "" || a[0] != b[0] || b[0] != c[0] {
    } else {
      LexLessTransitive(a[1..], b[1..], c[1..]);
    }
  }

  lemma {:induction false} LexLessTotal(a: string, b: string)
    ensures a == b || LexLess(a, b) || LexLess(b, a)
  {
    if a == "" || b == "" || a[0] != b[0] {
    } else {
      LexLessTotal(a[1..], b[1..]);
      assert a == [a[0]] + a[1..] && b == [b[0]] + b[1..];
    }
  }

  lemma LexLessStrictTotal(s: set<string>)
    ensures StrictTotal(LexLess, s)
  {
    forall x: string ensures !LexLess(x, x) { LexLessIrreflexive(x); }
    forall x: string, y, z | LexLess(x, y) && LexLess(y, z) ensures LexLess(x, z) { LexLessTransitive(x, y, z); }
    forall x: string, y ensures x == y || LexLess(x, y) || LexLess(y, x) { LexLessTotal(x, y); }
  }
}
