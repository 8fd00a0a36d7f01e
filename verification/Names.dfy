/** Names in the order of `sort.Strings`, by which ties are broken. */
module Names {
  /** The bytewise order of two names. */
  predicate Below(a: string, b: string) {
    b != "" && (a == "" || a[0] < b[0] || (a[0] == b[0] && Below(a[1..], b[1..])))
  }

  predicate AtMost(a: string, b: string) { a == b || Below(a, b) }

  lemma {:induction false} BelowIsOrder(a: string, b: string)
    ensures !(Below(a, b) && Below(b, a)) && !(a == b && Below(a, b))
    ensures Below(a, b) || a == b || Below(b, a)
  {
    if a != "" && b != "" {
      BelowIsOrder(a[1..], b[1..]);
      assert a == [a[0]] + a[1..] && b == [b[0]] + b[1..];
    }
  }

  lemma {:induction false} BelowTransitive(a: string, b: string, c: string)
    requires Below(a, b) && Below(b, c)
    ensures Below(a, c)
  {
    if a != "" && a[0] == b[0] && b[0] == c[0] { BelowTransitive(a[1..], b[1..], c[1..]); }
  }

  ghost predicate IsLeast(s: set<string>, m: string) {
    m in s && forall x :: x in s ==> AtMost(m, x)
  }

  lemma {:induction false} HasLeast(s: set<string>)
    requires s != {}
    ensures exists m :: IsLeast(s, m)
  {
    var x :| x in s;
    if s - {x} == {} {
      assert s == {x};
      assert IsLeast(s, x);
    } else {
      HasLeast(s - {x});
      var m :| IsLeast(s - {x}, m);
      BelowIsOrder(x, m);
      if Below(x, m) {
        forall y | y in s ensures AtMost(x, y) {
          assert y == x || y in s - {x};
          if y != x && y != m { BelowTransitive(x, m, y); }
        }
        assert IsLeast(s, x);
      } else {
        assert IsLeast(s, m);
      }
    }
  }

  ghost function Least(s: set<string>): (m: string)
    requires s != {}
    ensures IsLeast(s, m)
  {
    HasLeast(s);
    var m :| IsLeast(s, m);
    m
  }

  lemma LeastIsUnique(s: set<string>, m: string)
    requires IsLeast(s, m)
    ensures Least(s) == m
  {
    BelowIsOrder(m, Least(s));
  }

  predicate Sorted(s: seq<string>) {
    forall i, j :: 0 <= i < j < |s| ==> AtMost(s[i], s[j])
  }

  function Insert(s: seq<string>, x: string): seq<string> {
    if s == [] then [x] else if Below(x, s[0]) then [x] + s else [s[0]] + Insert(s[1..], x)
  }

  lemma BelowAll(s: seq<string>, x: string)
    requires s != [] && Sorted(s) && AtMost(x, s[0])
    ensures forall j :: 0 <= j < |s| ==> AtMost(x, s[j])
  {
    forall j | 0 < j < |s| ensures AtMost(x, s[j]) {
      if x != s[0] && s[0] != s[j] { BelowTransitive(x, s[0], s[j]); }
    }
  }

  lemma {:induction false} InsertSorts(s: seq<string>, x: string)
    requires Sorted(s)
    ensures Sorted(Insert(s, x)) && multiset(Insert(s, x)) == multiset(s) + multiset{x}
  {
    hide Below;
    if s != [] {
      assert s == [s[0]] + s[1..];
      if Below(x, s[0]) {
        BelowAll(s, x);
      } else {
        var r := Insert(s[1..], x);
        InsertSorts(s[1..], x);
        BelowIsOrder(x, s[0]);
        forall j | 0 <= j < |r| ensures AtMost(s[0], r[j]) {
          assert r[j] in multiset(r);
          assert r[j] == x || r[j] in s[1..];
        }
      }
    }
  }

  /** `sort.Strings`. */
  method Sort(s: seq<string>) returns (r: seq<string>)
    ensures Sorted(r) && multiset(r) == multiset(s)
  {
    r := [];
    for i := 0 to |s|
      invariant Sorted(r) && multiset(r) == multiset(s[..i])
    {
      InsertSorts(r, s[i]);
      r := Insert(r, s[i]);
      assert s[..i + 1] == s[..i] + [s[i]];
    }
    assert s[..|s|] == s;
  }
}
