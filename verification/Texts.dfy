/** Go strings: immutable byte sequences, compared byte by byte. */
module Texts {

  type byte = b: int | 0 <= b < 256

  type Text = seq<byte>

  datatype Option<+T> = None | Some(value: T)

  /** The bytewise lexicographic order used by Go's string comparison. */
  predicate Leq(a: Text, b: Text) {
    a == [] || (b != [] && (a[0] < b[0] || (a[0] == b[0] && Leq(a[1..], b[1..]))))
  }

  /** `a` is the smaller at position `i`, the first at which they differ. */
  predicate LessAt(a: Text, b: Text, i: nat) {
    i < |a| && i < |b| && a[i] < b[i] && forall k :: 0 <= k < i ==> a[k] == b[k]
  }

  /** The order compares byte by byte from the left; a prefix comes first. */
  lemma {:induction false} LeqIff(a: Text, b: Text)
    ensures Leq(a, b) <==> a <= b || exists i: nat :: LessAt(a, b, i)
  {
    if a != [] && b != [] {
      LeqIff(a[1..], b[1..]);
      if a[0] == b[0] {
        assert a <= b <==> a[1..] <= b[1..] by { assert a == [a[0]] + a[1..] && b == [b[0]] + b[1..]; }
        if i: nat :| LessAt(a[1..], b[1..], i) { assert LessAt(a, b, i + 1); }
        if i: nat :| LessAt(a, b, i) { assert LessAt(a[1..], b[1..], i - 1); }
      } else if a[0] < b[0] {
        assert LessAt(a, b, 0);
      }
    }
  }

  lemma {:induction false} LeqReflexive(a: Text)
    ensures Leq(a, a)
  {
    if a != [] { LeqReflexive(a[1..]); }
  }

  lemma {:induction false} LeqTotal(a: Text, b: Text)
    ensures Leq(a, b) || Leq(b, a)
  {
    if a != [] && b != [] { LeqTotal(a[1..], b[1..]); }
  }

  lemma {:induction false} LeqAntisymmetric(a: Text, b: Text)
    requires Leq(a, b) && Leq(b, a)
    ensures a == b
  {
    if a != [] && b != [] {
      LeqAntisymmetric(a[1..], b[1..]);
      assert a == [a[0]] + a[1..] == [b[0]] + b[1..] == b;
    }
  }

  lemma {:induction false} LeqTransitive(a: Text, b: Text, c: Text)
    requires Leq(a, b) && Leq(b, c)
    ensures Leq(a, c)
  {
    if a != [] && a[0] == b[0] == c[0] { LeqTransitive(a[1..], b[1..], c[1..]); }
  }

  predicate Sorted(s: seq<Text>) {
    forall i, j :: 0 <= i < j < |s| ==> Leq(s[i], s[j])
  }

  predicate Distinct<T(==)>(s: seq<T>) {
    forall i, j :: 0 <= i < j < |s| ==> s[i] != s[j]
  }

  /** The contract of `sort.Strings`, met here by insertion. */
  method SortStrings(keys: seq<Text>) returns (r: seq<Text>)
    ensures Sorted(r)
    ensures multiset(r) == multiset(keys)
  {
    r := [];
    for n := 0 to |keys|
      invariant Sorted(r)
      invariant multiset(r) == multiset(keys[..n])
    {
      r := InsertSorted(r, keys[n]);
      assert keys[..n + 1] == keys[..n] + [keys[n]];
    }
    assert keys[..|keys|] == keys;
  }

  method InsertSorted(s: seq<Text>, k: Text) returns (r: seq<Text>)
    requires Sorted(s)
    ensures Sorted(r)
    ensures multiset(r) == multiset(s) + multiset{k}
  {
    var p := 0;
    while p < |s| && Leq(s[p], k)
      invariant p <= |s|
      invariant forall i :: 0 <= i < p ==> Leq(s[i], k)
    {
      p := p + 1;
    }
    if p < |s| {
      LeqTotal(s[p], k);
      forall i | p <= i < |s| ensures Leq(k, s[i]) {
        if p < i { LeqTransitive(k, s[p], s[i]); }
      }
    }
    r := s[..p] + [k] + s[p..];
    assert s == s[..p] + s[p..];
  }

  lemma HasElement(s: seq<Text>)
    requires s != []
    ensures exists x :: x in s
  {
    assert s[0] in s;
  }

  /** Two sorted duplicate-free enumerations of the same elements are the same sequence. */
  lemma {:induction false} SortedEnumerationUnique(a: seq<Text>, b: seq<Text>)
    requires Sorted(a) && Sorted(b) && Distinct(a) && Distinct(b)
    requires forall x :: x in a <==> x in b
    ensures a == b
  {
    if a == [] && b == [] {
    } else if a == [] {
      HasElement(b);
      assert false;
    } else if b == [] {
      HasElement(a);
      assert false;
    } else {
      assert a[0] in b;
      var j :| 0 <= j < |b| && b[j] == a[0];
      assert b[0] in a;
      var i :| 0 <= i < |a| && a[i] == b[0];
      LeqReflexive(a[0]);
      LeqReflexive(b[0]);
      assert Leq(a[0], a[i]) && Leq(b[0], b[j]);
      LeqAntisymmetric(a[0], b[0]);
      forall x ensures x in a[1..] <==> x in b[1..] {
        if x in a[1..] {
          assert x in a && x != a[0];
          assert x in b;
        }
        if x in b[1..] {
          assert x in b && x != b[0];
          assert x in a;
        }
      }
      SortedEnumerationUnique(a[1..], b[1..]);
      assert a == [a[0]] + a[1..] == [b[0]] + b[1..] == b;
    }
  }

  predicate IsLeast(m: Text, s: set<Text>) {
    m in s && forall x :: x in s ==> Leq(m, x)
  }

  lemma {:induction false} LeastExists(s: set<Text>)
    requires s != {}
    ensures exists m :: IsLeast(m, s)
  {
    var y :| y in s;
    var rest := s - {y};
    LeqReflexive(y);
    if rest == {} {
      assert s == {y};
      assert IsLeast(y, s);
    } else {
      LeastExists(rest);
      var m :| IsLeast(m, rest);
      LeqTotal(m, y);
      if Leq(y, m) {
        forall x | x in s ensures Leq(y, x) {
          if x != y { LeqTransitive(y, m, x); }
        }
        assert IsLeast(y, s);
      } else {
        assert IsLeast(m, s);
      }
    }
  }

  /** The elements of a set in increasing order. */
  ghost function InOrder(s: set<Text>): (r: seq<Text>)
    ensures Sorted(r) && Distinct(r)
    ensures forall x :: x in r <==> x in s
  {
    if s == {} then [] else
      LeastExists(s);
      var m :| IsLeast(m, s);
      [m] + InOrder(s - {m})
  }
}
