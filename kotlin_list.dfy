/**
 * The two `MutableList` edits the selection lists make: `add`, which appends,
 * and `remove(element)`, which drops the first occurrence if there is one.
 */
module KotlinList {
  import opened Util

  /** `remove(x)`: the list without its first `x`; unchanged when there is none. */
  function RemoveFirst<T(==)>(s: seq<T>, x: T): (r: seq<T>)
    ensures x in s ==> |r| == |s| - 1 && multiset(r) == multiset(s) - multiset{x}
    ensures x !in s ==> r == s
  {
    if s == [] then []
    else
      assert s == [s[0]] + s[1..];
      if s[0] == x then s[1..] else [s[0]] + RemoveFirst(s[1..], x)
  }

  /** The element removed is the one at `x`'s first position; the rest keep their order. */
  lemma {:induction false} RemoveFirstAt<T>(s: seq<T>, x: T)
    requires x in s
    ensures RemoveFirst(s, x) == s[..Ordinal(s, x)] + s[Ordinal(s, x) + 1..]
  {
    if s[0] == x {
      assert s[..0] == [];
    } else {
      RemoveFirstAt(s[1..], x);
      ConsDropped(s, Ordinal(s[1..], x));
    }
  }

  /** Putting the head back in front of the tail with position i dropped. */
  lemma ConsDropped<T>(s: seq<T>, i: nat)
    requires i + 1 < |s|
    ensures [s[0]] + (s[1..][..i] + s[1..][i + 1..]) == s[..i + 1] + s[i + 2..]
  {
    assert [s[0]] + s[1..][..i] == s[..i + 1];
  }

  /** Dropping one position of a duplicate-free list drops that element and keeps the rest distinct. */
  lemma DropDistinct<T>(s: seq<T>, i: nat)
    requires Distinct(s) && i < |s|
    ensures Distinct(s[..i] + s[i + 1..])
    ensures s[i] !in s[..i] + s[i + 1..]
    ensures forall y :: y != s[i] ==> (y in s[..i] + s[i + 1..] <==> y in s)
  {
    var r := s[..i] + s[i + 1..];
    assert s == s[..i] + [s[i]] + s[i + 1..];
    forall k | 0 <= k < |r|
      ensures r[k] == s[if k < i then k else k + 1]
    {
    }
  }

  /** On a list without duplicates, removing `x` leaves no `x` and no duplicate. */
  lemma RemoveFirstDistinct<T>(s: seq<T>, x: T)
    requires Distinct(s)
    ensures x !in RemoveFirst(s, x)
    ensures Distinct(RemoveFirst(s, x))
    ensures forall y :: y != x ==> (y in RemoveFirst(s, x) <==> y in s)
  {
    if x in s {
      RemoveFirstAt(s, x);
      DropDistinct(s, Ordinal(s, x));
    }
  }

  /** The click in selection mode: remove `x` when present, otherwise append it. */
  function Toggle<T(==)>(s: seq<T>, x: T): (r: seq<T>)
    ensures x in s ==> r == RemoveFirst(s, x)
    ensures x !in s ==> r == s + [x] && x in r
  {
    if x in s then RemoveFirst(s, x) else s + [x]
  }

  /** Toggling keeps a list duplicate-free and flips exactly `x`'s membership. */
  lemma ToggleDistinct<T>(s: seq<T>, x: T)
    requires Distinct(s)
    ensures Distinct(Toggle(s, x))
    ensures x in Toggle(s, x) <==> x !in s
    ensures forall y :: y != x ==> (y in Toggle(s, x) <==> y in s)
  {
    if x in s {
      RemoveFirstDistinct(s, x);
    }
  }

  /** Toggling twice restores the selection; order is kept when `x` was absent. */
  lemma ToggleTwice<T>(s: seq<T>, x: T)
    requires Distinct(s)
    ensures multiset(Toggle(Toggle(s, x), x)) == multiset(s)
    ensures x !in s ==> Toggle(Toggle(s, x), x) == s
  {
    if x in s {
      RemoveFirstDistinct(s, x);
    } else {
      var t := s + [x];
      RemoveFirstAt(t, x);
      assert Ordinal(t, x) == |s|;
      assert t[..|s|] == s;
    }
  }
}
