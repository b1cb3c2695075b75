/** The order behind Python's `sorted` on strings: lexicographic by character.
    `Sort` is a function of the SET of strings, so a result that only goes through
    `Sort` cannot depend on the order a dictionary was filled in. */
module Ordering {

  predicate Le(a: string, b: string) {
    a == "" || (b != "" && (a[0] < b[0] || (a[0] == b[0] && Le(a[1..], b[1..]))))
  }

  /** `a` comes first where the two first differ, or is the beginning of `b`. */
  lemma {:induction false} Lexicographic(a: string, b: string)
    ensures Le(a, b) <==> a <= b || exists i :: 0 <= i < |a| && i < |b| && a[..i] == b[..i] && a[i] < b[i]
  {
    if a != "" && b != "" {
      Lexicographic(a[1..], b[1..]);
      if a[0] == b[0] { OneCharacterMore(a, b); }
    }
  }

  lemma OneCharacterMore(a: string, b: string)
    requires a != "" && b != "" && a[0] == b[0]
    ensures a <= b <==> a[1..] <= b[1..]
    ensures (exists i :: 0 <= i < |a| && i < |b| && a[..i] == b[..i] && a[i] < b[i])
            <==> exists i :: 0 <= i < |a[1..]| && i < |b[1..]| && a[1..][..i] == b[1..][..i] && a[1..][i] < b[1..][i]
  {
    assert a == [a[0]] + a[1..] && b == [b[0]] + b[1..];
    forall i | 0 <= i < |a[1..]| && i < |b[1..]| ensures a[..i + 1] == b[..i + 1] <==> a[1..][..i] == b[1..][..i] {
      assert a[..i + 1] == [a[0]] + a[1..][..i] && b[..i + 1] == [b[0]] + b[1..][..i];
      assert a[..i + 1][1..] == a[1..][..i] && b[..i + 1][1..] == b[1..][..i];
    }
    if i :| 0 <= i < |a| && i < |b| && a[..i] == b[..i] && a[i] < b[i] {
      assert a[..(i - 1) + 1] == b[..(i - 1) + 1] && a[1..][i - 1] < b[1..][i - 1];
    }
    if i :| 0 <= i < |a[1..]| && i < |b[1..]| && a[1..][..i] == b[1..][..i] && a[1..][i] < b[1..][i] {
      assert a[i + 1] < b[i + 1];
    }
  }

  lemma {:induction false} LeTotal(a: string, b: string)
    ensures Le(a, b) || Le(b, a)
  {
    if a != "" && b != "" && a[0] == b[0] {
      LeTotal(a[1..], b[1..]);
    }
  }

  lemma {:induction false} LeAntisymmetric(a: string, b: string)
    requires Le(a, b) && Le(b, a)
    ensures a == b
  {
    if a != "" && b != "" {
      LeAntisymmetric(a[1..], b[1..]);
      assert a == [a[0]] + a[1..] == [b[0]] + b[1..] == b;
    }
  }

  lemma {:induction false} LeTransitive(a: string, b: string, c: string)
    requires Le(a, b) && Le(b, c)
    ensures Le(a, c)
  {
    if a != "" && a[0] == b[0] && b[0] == c[0] {
      LeTransitive(a[1..], b[1..], c[1..]);
    }
  }

  predicate IsLeast(m: string, s: set<string>) {
    m in s && forall x | x in s :: Le(m, x)
  }

  lemma {:induction false} LeastExists(s: set<string>)
    requires s != {}
    ensures exists m :: IsLeast(m, s)
  {
    var y :| y in s;
    if s == {y} {
      LeTotal(y, y);
      assert IsLeast(y, s);
    } else {
      var rest := s - {y};
      LeastExists(rest);
      var m :| IsLeast(m, rest);
      LeTotal(m, y);
      LeTotal(y, y);
      if Le(m, y) {
        assert IsLeast(m, s);
      } else {
        forall x | x in s ensures Le(y, x) {
          if x != y { LeTransitive(y, m, x); }
        }
        assert IsLeast(y, s);
      }
    }
  }

  lemma LeastUnique(s: set<string>)
    ensures forall m, n | IsLeast(m, s) && IsLeast(n, s) :: m == n
  {
    forall m, n | IsLeast(m, s) && IsLeast(n, s) ensures m == n {
      LeAntisymmetric(m, n);
    }
  }

  /** `sorted(s)[0]`. */
  function Least(s: set<string>): (m: string)
    requires s != {}
    ensures IsLeast(m, s)
  {
    LeastExists(s);
    LeastUnique(s);
    var m :| m in s && IsLeast(m, s);
    m
  }

  /** Strictly increasing, hence without repetition. */
  predicate Increasing(s: seq<string>) {
    forall i, j | 0 <= i < j < |s| :: s[i] != s[j] && Le(s[i], s[j])
  }

  /** `sorted(s)`. */
  function Sort(s: set<string>): (r: seq<string>)
    ensures Increasing(r)
    ensures forall x :: x in r <==> x in s
  {
    if s == {} then [] else [Least(s)] + Sort(s - {Least(s)})
  }

  /** There is only one increasing listing of a set: any list a program sorts is `Sort` of its elements. */
  lemma {:induction false} IncreasingIsSort(r: seq<string>, s: set<string>)
    requires Increasing(r)
    requires forall x :: x in r <==> x in s
    ensures r == Sort(s)
  {
    if r == [] {
      assert forall x :: x in s <==> x in r;
      assert s == {};
    } else {
      assert r[0] in r;
      LeTotal(r[0], r[0]);
      assert IsLeast(r[0], s);
      LeastUnique(s);
      var rest := s - {r[0]};
      forall x ensures x in r[1..] <==> x in rest {
        if x in rest {
          assert x in r;
        }
      }
      IncreasingIsSort(r[1..], rest);
    }
  }
}
