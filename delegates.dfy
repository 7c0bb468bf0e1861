/**
 * The invocation list of a multicast delegate, as a sequence of subscriber
 * identities. `+=` (Delegate.Combine) appends one entry; `-=`
 * (Delegate.Remove) removes the LAST entry equal to the argument and leaves
 * the list as it was when there is none. An empty list stands for the
 * `null` delegate, on which `?.Invoke()` calls nothing.
 */
module Delegates {
  import opened Wrappers

  /** Position of the last occurrence of `a` in `s`, or None when `a` does not occur. */
  function LastIndexOf<T(==)>(s: seq<T>, a: T): (r: Option<nat>)
    ensures r.None? <==> a !in s
    ensures r.Some? ==> r.value < |s| && s[r.value] == a
    ensures r.Some? ==> forall j :: r.value < j < |s| ==> s[j] != a
  {
    if s == [] then None
    else if s[|s| - 1] == a then Some(|s| - 1)
    else
      assert forall x :: x in s ==> x in s[..|s| - 1] || x == s[|s| - 1] by {
        assert s == s[..|s| - 1] + [s[|s| - 1]];
      }
      LastIndexOf(s[..|s| - 1], a)
  }

  /**
   * Delegate.Remove for a single-entry value, scanning the invocation list
   * from its end: the last occurrence of `a` is dropped; the list is left
   * as it was when `a` does not occur.
   */
  function Remove<T(==)>(s: seq<T>, a: T): (r: seq<T>)
    ensures a !in s ==> r == s
    ensures |r| == if a in s then |s| - 1 else |s|
  {
    if s == [] then []
    else
      var init, last := s[..|s| - 1], s[|s| - 1];
      assert s == init + [last];
      if last == a then init
      else
        assert a in s <==> a in init;
        Remove(init, a) + [last]
  }

  /** Removing takes one registration of `a` and leaves every other count as it was. */
  lemma {:induction false} RemoveCounts<T>(s: seq<T>, a: T)
    ensures multiset(Remove(s, a)) == multiset(s) - multiset{a}
  {
    if s != [] {
      var init, last := s[..|s| - 1], s[|s| - 1];
      assert s == init + [last];
      assert multiset(s) == multiset(init) + multiset{last};
      if last != a {
        RemoveCounts(init, a);
        assert multiset(Remove(s, a)) == multiset(Remove(init, a)) + multiset{last};
      }
    }
  }

  /**
   * Remove drops exactly the entry at the last index of `a` and keeps every
   * other entry in its relative order.
   */
  lemma {:induction false} RemoveSplicesLastOccurrence<T>(s: seq<T>, a: T)
    requires a in s
    ensures LastIndexOf(s, a).Some?
    ensures Remove(s, a) == s[..LastIndexOf(s, a).value] + s[LastIndexOf(s, a).value + 1..]
  {
    var init, last := s[..|s| - 1], s[|s| - 1];
    if last == a {
      assert LastIndexOf(s, a) == Some(|s| - 1);
      assert s[|s|..] == [];
      assert Remove(s, a) == init;
    } else {
      assert s == init + [last];
      assert a in init;
      RemoveSplicesLastOccurrence(init, a);
      assert LastIndexOf(s, a) == LastIndexOf(init, a);
      var i := LastIndexOf(init, a).value;
      assert Remove(s, a) == Remove(init, a) + [last];
      assert init[..i] == s[..i];
      assert init[i + 1..] + [last] == s[i + 1..];
    }
  }

  /** Subscribing and then unsubscribing the same entry restores the list exactly. */
  lemma CombineThenRemove<T>(s: seq<T>, a: T)
    ensures Remove(s + [a], a) == s
  {
    assert (s + [a])[..|s|] == s;
  }

  /**
   * Entries subscribed after the last occurrence of `a` are untouched by
   * removing `a`: they stay, in order, at the end of the list.
   */
  lemma {:induction false} RemoveKeepsLaterEntries<T>(s: seq<T>, a: T, t: seq<T>)
    requires a !in t
    ensures Remove(s + t, a) == Remove(s, a) + t
    decreases |t|
  {
    if t == [] {
      assert s + t == s;
    } else {
      var init, last := t[..|t| - 1], t[|t| - 1];
      assert t == init + [last];
      assert s + t == (s + init) + [last];
      RemoveKeepsLaterEntries(s, a, init);
    }
  }
}
