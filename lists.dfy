/** The two `MutableList` removals the pairing logic calls, on sequences.
    Kotlin compares elements with `equals`; here that is `==`. */
module Lists {

  /** `removeAll(drop)`: every element equal to a member of `drop` is removed,
      all others stay, in their order. */
  function RemoveAll<T(==,!new)>(s: seq<T>, drop: seq<T>): (r: seq<T>)
    ensures |r| <= |s|
    ensures forall x :: x in r <==> x in s && x !in drop
  {
    if s == [] then []
    else if s[0] in drop then RemoveAll(s[1..], drop)
    else [s[0]] + RemoveAll(s[1..], drop)
  }

  /** Removal works element by element: the survivors of a concatenation are
      the survivors of each part, in order. With the one-element case this
      says that the relative order of the kept elements is unchanged. */
  lemma {:induction false} RemoveAllAppend<T(!new)>(a: seq<T>, b: seq<T>, drop: seq<T>)
    ensures RemoveAll(a + b, drop) == RemoveAll(a, drop) + RemoveAll(b, drop)
  {
    if a == [] {
      assert a + b == b;
    } else {
      assert (a + b)[0] == a[0];
      assert (a + b)[1..] == a[1..] + b;
      RemoveAllAppend(a[1..], b, drop);
    }
  }

  /** Every element that is not dropped keeps all its occurrences; every
      dropped one loses all of them. */
  lemma {:induction false} RemoveAllCount<T(!new)>(s: seq<T>, drop: seq<T>, x: T)
    ensures multiset(RemoveAll(s, drop))[x] == if x in drop then 0 else multiset(s)[x]
  {
    if s != [] {
      assert s == [s[0]] + s[1..];
      assert multiset(s) == multiset{s[0]} + multiset(s[1..]);
      RemoveAllCount(s[1..], drop, x);
    }
  }

  /** Removing two different elements that occur once each takes out exactly
      those two occurrences and nothing else. */
  lemma RemoveAllTwoDistinct<T(!new)>(s: seq<T>, a: T, b: T)
    ensures a != b && multiset(s)[a] == 1 && multiset(s)[b] == 1 ==>
              multiset(RemoveAll(s, [a, b])) + multiset{a, b} == multiset(s) &&
              |RemoveAll(s, [a, b])| == |s| - 2
  {
    if a != b && multiset(s)[a] == 1 && multiset(s)[b] == 1 {
      RemoveAllTwoDistinctOnce(s, a, b);
    }
  }

  lemma RemoveAllTwoDistinctOnce<T(!new)>(s: seq<T>, a: T, b: T)
    requires a != b && multiset(s)[a] == 1 && multiset(s)[b] == 1
    ensures multiset(RemoveAll(s, [a, b])) + multiset{a, b} == multiset(s)
    ensures |RemoveAll(s, [a, b])| == |s| - 2
  {
    var r := RemoveAll(s, [a, b]);
    forall x
      ensures (multiset(r) + multiset{a, b})[x] == multiset(s)[x]
    {
      RemoveAllCount(s, [a, b], x);
    }
    assert multiset(r) + multiset{a, b} == multiset(s);
    assert |multiset(r) + multiset{a, b}| == |r| + 2;
  }

  /** When no element of the list is to be dropped, nothing is. */
  lemma {:induction false} RemoveAllKeeps<T(!new)>(s: seq<T>, drop: seq<T>)
    requires forall x :: x in s ==> x !in drop
    ensures RemoveAll(s, drop) == s
  {
    if s != [] {
      RemoveAllKeeps(s[1..], drop);
    }
  }

  /** Dropping the two different elements at the front of a list, when
      neither occurs later, leaves the rest as it was. */
  lemma RemoveAllPrefixPair<T(!new)>(p: seq<T>, rest: seq<T>)
    requires |p| == 2 && p[0] != p[1] && p[0] !in rest && p[1] !in rest
    ensures RemoveAll(p + rest, p) == rest
  {
    RemoveAllAppend(p, rest, p);
    RemoveAllKeeps(rest, p);
  }

  /** `remove(x)`: the first element equal to `x`, if any, is removed. */
  function RemoveFirst<T(==)>(s: seq<T>, x: T): (r: seq<T>)
    ensures x !in s ==> r == s
    ensures x in s ==> |r| == |s| - 1
  {
    if s == [] then []
    else if s[0] == x then s[1..]
    else [s[0]] + RemoveFirst(s[1..], x)
  }

  /** `remove(x)` takes out one occurrence of `x`, if there is one, and no
      occurrence of anything else. */
  lemma {:induction false} RemoveFirstCount<T>(s: seq<T>, x: T)
    ensures multiset(RemoveFirst(s, x)) == multiset(s) - multiset{x}
  {
    if s != [] {
      assert s == [s[0]] + s[1..];
      if s[0] != x {
        RemoveFirstCount(s[1..], x);
      }
    }
  }

  /** `remove(x)` adds nothing: what is left was there before. */
  lemma {:induction false} RemoveFirstKeeps<T>(s: seq<T>, x: T)
    ensures forall y :: y in RemoveFirst(s, x) ==> y in s
  {
    if s != [] && s[0] != x {
      RemoveFirstKeeps(s[1..], x);
    }
  }

  /** The position of the first element equal to `x`. */
  function FirstIndex<T(==)>(s: seq<T>, x: T): (i: nat)
    requires x in s
    ensures i < |s| && s[i] == x && x !in s[..i]
  {
    if s[0] == x then 0
    else
      var i := 1 + FirstIndex(s[1..], x);
      assert s[..i] == [s[0]] + s[1..][..i - 1];
      i
  }

  /** `remove(x)` cuts out exactly the first occurrence of `x`; the elements
      before and after it keep their order. */
  lemma {:induction false} RemoveFirstSplice<T>(s: seq<T>, x: T)
    requires x in s
    ensures RemoveFirst(s, x) == s[..FirstIndex(s, x)] + s[FirstIndex(s, x) + 1..]
  {
    if s[0] != x {
      var k := FirstIndex(s[1..], x);
      RemoveFirstSplice(s[1..], x);
      SpliceOfTail(s, k);
    }
  }

  /** Cutting position k out of the tail is cutting position k + 1 out of
      the whole sequence, behind its head. */
  lemma SpliceOfTail<T>(s: seq<T>, k: nat)
    requires k + 1 < |s|
    ensures [s[0]] + (s[1..][..k] + s[1..][k + 1..]) == s[..k + 1] + s[k + 2..]
  {
  }

  /** Removing an element just appended, of which there is no earlier copy,
      gives back the sequence as it was. */
  lemma {:induction false} RemoveFirstOfAppended<T>(s: seq<T>, x: T)
    requires x !in s
    ensures RemoveFirst(s + [x], x) == s
  {
    if s != [] {
      assert (s + [x])[1..] == s[1..] + [x];
      RemoveFirstOfAppended(s[1..], x);
    }
  }
}
