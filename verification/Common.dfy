/** Small shared vocabulary: options, results, and sequences read as sets. */
module Common {

  datatype Option<+T> = None | Some(value: T)

  datatype Result<+T, +E> = Ok(value: T) | Err(error: E)

  /** The elements of a sequence. */
  function Elems<T>(s: seq<T>): set<T> {
    set x | x in s
  }

  /** No element occurs twice. */
  ghost predicate NoDup<T>(s: seq<T>) {
    forall i, j :: 0 <= i < j < |s| ==> s[i] != s[j]
  }

  /** `order` lists every element of `s` exactly once: one possible iteration order of a map or set. */
  ghost predicate Enumerates<T>(order: seq<T>, s: set<T>) {
    NoDup(order) && Elems(order) == s
  }

  lemma ElemsSnoc<T>(s: seq<T>, x: T)
    ensures Elems(s + [x]) == Elems(s) + {x}
    ensures NoDup(s) && x !in s ==> NoDup(s + [x])
  {
  }

  /** Taking one more of the elements still to be visited. */
  lemma VisitedSnoc<T>(order: seq<T>, all: set<T>, rest: set<T>, x: T)
    requires Enumerates(order, all - rest) && x in rest && rest <= all
    ensures Enumerates(order + [x], all - (rest - {x}))
  {
    assert x !in Elems(order);
    ElemsSnoc(order, x);
  }

  /** `small` can be read off `big`, in order, by leaving elements out. */
  ghost predicate Subsequence<T>(small: seq<T>, big: seq<T>)
    decreases |big|
  {
    || small == []
    || (big != [] && Subsequence(small, big[1..]))
    || (big != [] && small[0] == big[0] && Subsequence(small[1..], big[1..]))
  }

  lemma {:induction false} SubsequenceSelf<T>(s: seq<T>)
    ensures Subsequence(s, s)
  {
    if s != [] {
      SubsequenceSelf(s[1..]);
    }
  }

  lemma {:induction false} SubsequenceTrans<T>(a: seq<T>, b: seq<T>, c: seq<T>)
    requires Subsequence(a, b) && Subsequence(b, c)
    ensures Subsequence(a, c)
    decreases |c|
  {
    if a == [] {
    } else if Subsequence(b, c[1..]) {
      SubsequenceTrans(a, b, c[1..]);
    } else if Subsequence(a, b[1..]) {
      SubsequenceTrans(a, b[1..], c[1..]);
    } else {
      SubsequenceTrans(a[1..], b[1..], c[1..]);
    }
  }

  lemma {:induction false} SubsequenceSnoc<T>(a: seq<T>, b: seq<T>, x: T)
    requires Subsequence(a, b)
    ensures Subsequence(a, b + [x]) && Subsequence(a + [x], b + [x])
    decreases |b|
  {
    if b == [] {
      assert (b + [x])[1..] == [] && (a + [x])[1..] == [];
    } else {
      assert (b + [x])[1..] == b[1..] + [x];
      if Subsequence(a, b[1..]) {
        SubsequenceSnoc(a, b[1..], x);
      } else {
        assert (a + [x])[1..] == a[1..] + [x];
        SubsequenceSnoc(a[1..], b[1..], x);
      }
    }
  }
}
