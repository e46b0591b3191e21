/** Byte-wise string order and sorting, as Go's sort.Strings gives them. */
module Strings {
  import opened Common

  predicate StringLeq(a: string, b: string) {
    a == [] || (b != [] && (a[0] < b[0] || (a[0] == b[0] && StringLeq(a[1..], b[1..]))))
  }

  predicate Sorted(s: seq<string>) {
    forall i, j :: 0 <= i < j < |s| ==> StringLeq(s[i], s[j])
  }

  lemma {:induction false} StringLeqTotal(a: string, b: string)
    ensures StringLeq(a, b) || StringLeq(b, a)
  {
    if a != [] && b != [] && a[0] == b[0] {
      StringLeqTotal(a[1..], b[1..]);
    }
  }

  lemma {:induction false} StringLeqTrans(a: string, b: string, c: string)
    requires StringLeq(a, b) && StringLeq(b, c)
    ensures StringLeq(a, c)
  {
    if a != [] && a[0] == b[0] == c[0] {
      StringLeqTrans(a[1..], b[1..], c[1..]);
    }
  }

  /** The place of `x` in a sorted sequence. */
  method InsertionPoint(s: seq<string>, x: string) returns (k: nat)
    requires Sorted(s)
    ensures k <= |s|
    ensures forall i :: 0 <= i < k ==> StringLeq(s[i], x)
    ensures forall i :: k <= i < |s| ==> StringLeq(x, s[i])
  {
    k := 0;
    while k < |s| && StringLeq(s[k], x)
      invariant k <= |s|
      invariant forall i :: 0 <= i < k ==> StringLeq(s[i], x)
    {
      k := k + 1;
    }
    if k < |s| {
      StringLeqTotal(s[k], x);
      forall i | k <= i < |s|
        ensures StringLeq(x, s[i])
      {
        if k < i {
          StringLeqTrans(x, s[k], s[i]);
        }
      }
    }
  }

  /** Inserting a new element at its place keeps an enumeration sorted. */
  lemma InsertedSorted(s: seq<string>, x: string, k: nat)
    requires Sorted(s) && NoDup(s) && x !in s && k <= |s|
    requires forall i :: 0 <= i < k ==> StringLeq(s[i], x)
    requires forall i :: k <= i < |s| ==> StringLeq(x, s[i])
    ensures var r := s[..k] + [x] + s[k..]; Sorted(r) && Enumerates(r, Elems(s) + {x})
  {
  }

  method SortStrings(s: set<string>) returns (r: seq<string>)
    ensures Enumerates(r, s) && Sorted(r)
  {
    r := [];
    var rest := s;
    while rest != {}
      invariant rest <= s && Enumerates(r, s - rest) && Sorted(r)
      decreases |rest|
    {
      var x :| x in rest;
      var k := InsertionPoint(r, x);
      InsertedSorted(r, x, k);
      r := r[..k] + [x] + r[k..];
      rest := rest - {x};
    }
  }
}
