/** The checkbox-list toggle shared by both user modals: a list of page ids
    or permission ids is switched on or off by one id. Removing an id filters
    out every occurrence of it; adding an id appends it at the end. */
module Checklist {

  type Id = string

  /** `r` is obtained from `s` by deleting some elements and keeping the
      others in their original relative order. */
  ghost predicate IsSubsequence(r: seq<Id>, s: seq<Id>)
    decreases |s|
  {
    r == [] ||
    (s != [] &&
     ((r[0] == s[0] && IsSubsequence(r[1..], s[1..])) || IsSubsequence(r, s[1..])))
  }

  /** The list filtered so that no element equals `id` (Array.prototype.filter
      with the predicate `x !== id`). */
  function Remove(s: seq<Id>, id: Id): (r: seq<Id>)
    ensures |r| <= |s|
    ensures id !in r
    ensures forall x :: x in r <==> x in s && x != id
  {
    if s == [] then []
    else if s[0] == id then Remove(s[1..], id)
    else [s[0]] + Remove(s[1..], id)
  }

  /** The toggle of `handlePageToggle` / `handlePermissionToggle`. */
  function Toggle(s: seq<Id>, id: Id): (r: seq<Id>)
    // the id is present afterwards exactly when it was absent before
    ensures id in r <==> id !in s
    // absent: appended as the last element, earlier elements untouched
    ensures id !in s ==> |r| == |s| + 1 && r[..|s|] == s && r[|s|] == id
    // present: every occurrence removed, the rest kept in order
    ensures id in s ==> IsSubsequence(r, s) && multiset(r) == multiset(s)[id := 0]
    // no other id gains or loses an occurrence
    ensures forall x :: x != id ==> multiset(r)[x] == multiset(s)[x]
    // the id occurs at most once afterwards
    ensures multiset(r)[id] <= 1
  {
    if id in s then
      RemoveIsSubsequence(s, id);
      RemoveMultiset(s, id);
      Remove(s, id)
    else
      s + [id]
  }

  /** Filtering keeps the surviving elements in their original order. */
  lemma {:induction false} RemoveIsSubsequence(s: seq<Id>, id: Id)
    ensures IsSubsequence(Remove(s, id), s)
    decreases |s|
  {
    if s != [] {
      RemoveIsSubsequence(s[1..], id);
      if s[0] != id {
        var r := Remove(s, id);
        assert r[0] == s[0] && r[1..] == Remove(s[1..], id);
      }
    }
  }

  /** Filtering drops exactly the occurrences of `id` and nothing else. */
  lemma {:induction false} RemoveMultiset(s: seq<Id>, id: Id)
    ensures multiset(Remove(s, id)) == multiset(s)[id := 0]
    decreases |s|
  {
    if s != [] {
      RemoveMultiset(s[1..], id);
      assert s == [s[0]] + s[1..];
    }
  }

  /** An id that is not in the list leaves it unchanged under filtering. */
  lemma {:induction false} RemoveAbsent(s: seq<Id>, id: Id)
    requires id !in s
    ensures Remove(s, id) == s
    decreases |s|
  {
    if s != [] {
      RemoveAbsent(s[1..], id);
      assert s == [s[0]] + s[1..];
    }
  }

  /** Filtering distributes over concatenation. */
  lemma {:induction false} RemoveAppend(a: seq<Id>, b: seq<Id>, id: Id)
    ensures Remove(a + b, id) == Remove(a, id) + Remove(b, id)
    decreases |a|
  {
    if a == [] {
      assert a + b == b;
    } else {
      assert (a + b)[0] == a[0] && (a + b)[1..] == a[1..] + b;
      RemoveAppend(a[1..], b, id);
      if a[0] != id {
        assert Remove(a + b, id) == [a[0]] + (Remove(a[1..], id) + Remove(b, id));
      }
    }
  }

  /** A subsequence has no more occurrences of any element than the list. */
  lemma {:induction false} SubsequenceMultiset(r: seq<Id>, s: seq<Id>)
    requires IsSubsequence(r, s)
    ensures multiset(r) <= multiset(s)
    decreases |s|
  {
    if r != [] {
      assert s == [s[0]] + s[1..];
      if r[0] == s[0] && IsSubsequence(r[1..], s[1..]) {
        SubsequenceMultiset(r[1..], s[1..]);
        assert r == [r[0]] + r[1..];
      } else {
        SubsequenceMultiset(r, s[1..]);
      }
    }
  }

  /** The filtered list is the ONLY subsequence of `s` that drops exactly the
      occurrences of `id`: order preservation and the multiset fix it. */
  lemma {:induction false} RemoveUnique(r: seq<Id>, s: seq<Id>, id: Id)
    requires IsSubsequence(r, s)
    requires multiset(r) == multiset(s)[id := 0]
    ensures r == Remove(s, id)
    decreases |s|
  {
    if r == [] {
      OnlyIdLeft(s, id);
      RemoveAbsentAll(s, id);
    } else {
      HeadNotId(r, s, id);
      if r[0] == s[0] && IsSubsequence(r[1..], s[1..]) {
        DropMatchedHead(r, s, id);
        RemoveUnique(r[1..], s[1..], id);
      } else {
        SubsequenceMultiset(r, s[1..]);
        SkipUnmatchedHead(r, s, id);
        RemoveUnique(r, s[1..], id);
      }
    }
  }

  lemma HeadNotId(r: seq<Id>, s: seq<Id>, id: Id)
    requires r != [] && multiset(r) == multiset(s)[id := 0]
    ensures r[0] != id
  {
    assert r[0] in multiset(r);
  }

  lemma OnlyIdLeft(s: seq<Id>, id: Id)
    requires multiset(s)[id := 0] == multiset{}
    ensures forall y :: y in s ==> y == id
  {
    forall y | y in s
      ensures y == id
    {
      assert multiset(s)[y] > 0;
      assert multiset(s)[id := 0][y] == 0;
    }
  }

  lemma DropMatchedHead(r: seq<Id>, s: seq<Id>, id: Id)
    requires r != [] && s != [] && r[0] == s[0] && s[0] != id
    requires multiset(r) == multiset(s)[id := 0]
    ensures multiset(r[1..]) == multiset(s[1..])[id := 0]
  {
    assert r == [r[0]] + r[1..];
    assert s == [s[0]] + s[1..];
    assert multiset(r[1..]) == multiset(r) - multiset{s[0]};
    assert multiset(s[1..])[id := 0] == multiset(s)[id := 0] - multiset{s[0]};
  }

  lemma SkipUnmatchedHead(r: seq<Id>, s: seq<Id>, id: Id)
    requires s != [] && multiset(r) <= multiset(s[1..])
    requires multiset(r) == multiset(s)[id := 0]
    ensures s[0] == id && multiset(r) == multiset(s[1..])[id := 0]
  {
    assert s == [s[0]] + s[1..];
    assert multiset(s)[s[0]] == multiset(s[1..])[s[0]] + 1;
  }

  /** A list made only of `id` filters to the empty list. */
  lemma {:induction false} RemoveAbsentAll(s: seq<Id>, id: Id)
    requires forall y :: y in s ==> y == id
    ensures Remove(s, id) == []
    decreases |s|
  {
    if s != [] {
      assert s[0] in s;
      assert forall y :: y in s[1..] ==> y in s;
      RemoveAbsentAll(s[1..], id);
    }
  }

  /** Toggling an absent id twice returns the identical original list. */
  lemma ToggleTwiceAbsent(s: seq<Id>, id: Id)
    requires id !in s
    ensures Toggle(Toggle(s, id), id) == s
  {
    RemoveAppend(s, [id], id);
    RemoveAbsent(s, id);
  }

  /** Toggling a present id twice keeps the same members but moves the id to
      the end as its single occurrence. */
  lemma ToggleTwicePresent(s: seq<Id>, id: Id)
    requires id in s
    ensures Toggle(Toggle(s, id), id) == Remove(s, id) + [id]
    ensures forall x :: x in Toggle(Toggle(s, id), id) <==> x in s
  {
  }

  /** Toggling twice can reorder a list: the identity holds for absent ids only. */
  lemma ToggleTwiceReorders()
    ensures Toggle(Toggle(["a", "b"], "a"), "a") == ["b", "a"]
  {
  }
}
