// std::map visits string keys in lexicographic order. Sorted(s) is that visiting order.
module Ordering {

  predicate Less(a: string, b: string) {
    b != [] && (a == [] || a[0] < b[0] || (a[0] == b[0] && Less(a[1..], b[1..])))
  }

  lemma {:induction false} LessTotal(a: string, b: string)
    ensures a == b || Less(a, b) || Less(b, a)
  {
    if a != [] && b != [] && a[0] == b[0] {
      LessTotal(a[1..], b[1..]);
      assert a == [a[0]] + a[1..] && b == [b[0]] + b[1..];
    }
  }

  lemma {:induction false} LessIrreflexive(a: string)
    ensures !Less(a, a)
  {
    if a != [] { LessIrreflexive(a[1..]); }
  }

  lemma {:induction false} LessTransitive(a: string, b: string, c: string)
    requires Less(a, b) && Less(b, c)
    ensures Less(a, c)
  {
    if a != [] && a[0] == b[0] && b[0] == c[0] {
      LessTransitive(a[1..], b[1..], c[1..]);
    }
  }

  lemma LessOneWay(a: string, b: string)
    ensures !(Less(a, b) && Less(b, a)) && !Less(a, a)
  {
    LessIrreflexive(a);
    if Less(a, b) && Less(b, a) { LessTransitive(a, b, a); }
  }

  predicate IsLeast(x: string, s: set<string>) {
    x in s && forall y | y in s :: y == x || Less(x, y)
  }

  lemma {:induction false} LeastExists(s: set<string>)
    requires s != {}
    ensures exists x :: IsLeast(x, s)
  {
    var y :| y in s;
    var rest := s - {y};
    if rest == {} {
      assert s == {y};
      assert IsLeast(y, s);
    } else {
      LeastExists(rest);
      var x :| IsLeast(x, rest);
      LessTotal(x, y);
      if Less(x, y) {
        assert IsLeast(x, s);
      } else {
        forall z | z in s ensures z == y || Less(y, z) {
          if z != y && z != x { LessTransitive(y, x, z); }
        }
        assert IsLeast(y, s);
      }
    }
  }

  lemma LeastUnique(s: set<string>, x: string, y: string)
    requires IsLeast(x, s) && IsLeast(y, s)
    ensures x == y
  {
    if x != y {
      LessTransitive(x, y, x);
      LessIrreflexive(x);
    }
  }

  function Least(s: set<string>): (x: string)
    requires s != {}
    ensures IsLeast(x, s)
  {
    LeastExists(s);
    assert forall x, y | IsLeast(x, s) && IsLeast(y, s) :: x == y by {
      forall x, y | IsLeast(x, s) && IsLeast(y, s) ensures x == y { LeastUnique(s, x, y); }
    }
    var x :| x in s && IsLeast(x, s);
    x
  }

  ghost predicate Ascending(q: seq<string>) {
    forall i, j :: 0 <= i < j < |q| ==> Less(q[i], q[j])
  }

  ghost predicate Distinct<T>(q: seq<T>) {
    forall i, j :: 0 <= i < j < |q| ==> q[i] != q[j]
  }

  // The ascending enumeration of a finite set of keys.
  function Sorted(s: set<string>): (q: seq<string>)
    ensures forall x :: x in q <==> x in s
    decreases |s|
  {
    if s == {} then [] else
      var x := Least(s);
      [x] + Sorted(s - {x})
  }

  lemma {:induction false} SortedAscends(s: set<string>)
    ensures Ascending(Sorted(s)) && Distinct(Sorted(s)) && |Sorted(s)| == |s|
    decreases |s|
  {
    if s != {} {
      var x := Least(s);
      SortedAscends(s - {x});
      ConsAscends(x, Sorted(s - {x}));
    }
  }

  lemma ConsAscends(x: string, rest: seq<string>)
    requires Ascending(rest) && Distinct(rest)
    requires forall y :: y in rest ==> y != x && Less(x, y)
    ensures Ascending([x] + rest) && Distinct([x] + rest)
  {
    assert forall i :: 0 <= i < |rest| ==> rest[i] in rest;
  }

  lemma TailExcludesHead(p: seq<string>)
    requires Ascending(p) && p != []
    ensures forall x :: x in p[1..] <==> x in p && x != p[0]
  {
    LessIrreflexive(p[0]);
    assert p == [p[0]] + p[1..];
  }

  // There is only one ascending enumeration, so Sorted is the visiting order.
  lemma {:induction false} AscendingUnique(p: seq<string>, q: seq<string>)
    requires Ascending(p) && Ascending(q)
    requires forall x :: x in p <==> x in q
    ensures p == q
  {
    if p == [] {
      assert forall i :: 0 <= i < |q| ==> q[i] in q;
    } else {
      assert p[0] in q;
      assert q[0] in p;
      var i :| 0 <= i < |q| && q[i] == p[0];
      var j :| 0 <= j < |p| && p[j] == q[0];
      if p[0] != q[0] {
        LessTransitive(p[0], q[0], p[0]);
        LessIrreflexive(p[0]);
      }
      TailExcludesHead(p);
      TailExcludesHead(q);
      AscendingUnique(p[1..], q[1..]);
      assert p == [p[0]] + p[1..] && q == [q[0]] + q[1..];
    }
  }
}
