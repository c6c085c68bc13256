/** Lexicographic order on strings, as Python compares them, and the sorted listing of a finite set of strings. */
module Ordering {

  predicate Less(a: string, b: string) {
    if a == [] then b != []
    else b != [] && (a[0] < b[0] || (a[0] == b[0] && Less(a[1..], b[1..])))
  }

  lemma {:induction false} LessTotal(a: string, b: string)
    ensures Less(a, b) || a == b || Less(b, a)
    ensures !(Less(a, b) && Less(b, a)) && !Less(a, a)
  {
    if a != [] && b != [] {
      LessTotal(a[1..], b[1..]);
      assert a == [a[0]] + a[1..] && b == [b[0]] + b[1..];
    }
    if a != [] {
      LessTotal(a[1..], a[1..]);
    }
  }

  lemma {:induction false} LessTransitive(a: string, b: string, c: string)
    requires Less(a, b) && Less(b, c)
    ensures Less(a, c)
  {
    if a != [] && a[0] == b[0] && b[0] == c[0] {
      LessTransitive(a[1..], b[1..], c[1..]);
    }
  }

  /** Strictly ascending: sorted and without repetition. */
  ghost predicate Ascending(keys: seq<string>) {
    forall i, j :: 0 <= i < j < |keys| ==> Less(keys[i], keys[j])
  }

  /** A set of strings has at most one ascending listing. */
  lemma {:induction false} AscendingUnique(xs: seq<string>, ys: seq<string>)
    requires Ascending(xs) && Ascending(ys)
    requires forall k :: k in xs <==> k in ys
    ensures xs == ys
  {
    assert (ys != [] ==> ys[0] in ys) && (xs != [] ==> xs[0] in xs);
    if xs != [] {
      assert ys != [] && ys[0] in xs;
      LessTotal(xs[0], ys[0]);
      forall k | k in xs[1..] ensures k in ys[1..] { LessTotal(k, xs[0]); assert k in ys; }
      forall k | k in ys[1..] ensures k in xs[1..] { LessTotal(k, ys[0]); assert k in xs; }
      AscendingUnique(xs[1..], ys[1..]);
    }
  }

  predicate Least(s: set<string>, k: string) {
    k in s && forall j :: j in s && j != k ==> Less(k, j)
  }

  lemma {:induction false} LeastExists(s: set<string>)
    requires s != {}
    ensures exists k :: Least(s, k)
    decreases |s|
  {
    var x :| x in s;
    if s == {x} {
      assert Least(s, x);
    } else {
      var rest := s - {x};
      assert s == rest + {x};
      LeastExists(rest);
      var m :| Least(rest, m);
      LessTotal(x, m);
      var k := if Less(x, m) then x else m;
      forall j | j in s && j != k ensures Less(k, j) {
        if k == x && j != m { LessTransitive(x, m, j); }
      }
      assert Least(s, k);
    }
  }

  lemma LeastUnique(s: set<string>, k: string, l: string)
    requires Least(s, k) && Least(s, l)
    ensures k == l
  {
    LessTotal(k, l);
  }

  /** The elements of a set of strings in ascending order. */
  function Sorted(s: set<string>): (r: seq<string>)
    ensures Ascending(r) && |r| == |s|
    ensures forall k :: k in r <==> k in s
    decreases |s|
  {
    if s == {} then []
    else
      var first := LeastOf(s);
      assert forall k :: k in s - {first} ==> Less(first, k);
      [first] + Sorted(s - {first})
  }

  function LeastOf(s: set<string>): (k: string)
    requires s != {}
    ensures Least(s, k)
  {
    LeastExists(s);
    assert forall k, l :: Least(s, k) && Least(s, l) ==> k == l by {
      forall k, l | Least(s, k) && Least(s, l) ensures k == l { LeastUnique(s, k, l); }
    }
    var k :| Least(s, k);
    k
  }
}
