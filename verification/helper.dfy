/**
 * The string and list helpers of internal/util/helper/helper.go.
 */
module Helper {

  import opened Strings

  /** `IsEmpty`: nothing is left after trimming white space. */
  function IsEmpty(s: string): (empty: bool)
    ensures empty <==> AllSpace(s)
  {
    TrimSpaceEmptyIff(s);
    |TrimSpace(s)| == 0
  }

  /** `IsEmpty` holds exactly for the all-white-space strings, and `IsNotEmpty` exactly when some character is not white space. */
  lemma IsEmptyIff(s: string)
    ensures IsEmpty(s) <==> AllSpace(s)
    ensures !IsEmpty(s) <==> exists i :: 0 <= i < |s| && !IsSpace(s[i])
  {
    TrimSpaceEmptyIff(s);
  }

  /** `IsNotEmpty`: the negation of `IsEmpty`, so some character is not white space. */
  function IsNotEmpty(s: string): (nonEmpty: bool)
    ensures nonEmpty <==> exists i :: 0 <= i < |s| && !IsSpace(s[i])
  {
    !IsEmpty(s)
  }

  /** `Contains`: a scan from the front for an equal element. */
  function Contains(xs: seq<string>, x: string): (found: bool)
    ensures found <==> x in xs
    decreases |xs|
  {
    if |xs| == 0 then false
    else if xs[0] == x then true
    else
      assert xs == [xs[0]] + xs[1..];
      Contains(xs[1..], x)
  }

  /** No element occurs twice. */
  predicate Distinct(xs: seq<string>) {
    forall i, j :: 0 <= i < j < |xs| ==> xs[i] != xs[j]
  }

  /** `a` can be obtained from `b` by deleting elements, keeping the order of the rest. */
  predicate IsSubsequence(a: seq<string>, b: seq<string>)
    decreases |b|
  {
    if |a| == 0 then true
    else if |b| == 0 then false
    else
      (a[|a| - 1] == b[|b| - 1] && IsSubsequence(a[..|a| - 1], b[..|b| - 1]))
      || IsSubsequence(a, b[..|b| - 1])
  }

  /**
   * The reference meaning of `RemoveDuplicates`: each element at its first
   * occurrence, later repeats dropped.
   */
  function Dedup(xs: seq<string>): seq<string>
    decreases |xs|
  {
    if |xs| == 0 then []
    else
      var init := xs[..|xs| - 1];
      var last := xs[|xs| - 1];
      if last in init then Dedup(init) else Dedup(init) + [last]
  }

  /** `Dedup` keeps exactly the elements of its input. */
  lemma {:induction false} DedupSameElements(xs: seq<string>)
    ensures forall x :: x in Dedup(xs) <==> x in xs
    decreases |xs|
  {
    if |xs| > 0 {
      var init := xs[..|xs| - 1];
      DedupSameElements(init);
      assert xs == init + [xs[|xs| - 1]];
    }
  }

  /** `Dedup` never repeats an element. */
  lemma {:induction false} DedupDistinct(xs: seq<string>)
    ensures Distinct(Dedup(xs))
    decreases |xs|
  {
    if |xs| > 0 {
      var init := xs[..|xs| - 1];
      DedupDistinct(init);
      DedupSameElements(init);
    }
  }

  /** `Dedup` keeps the elements it keeps in their input order. */
  lemma {:induction false} DedupSubsequence(xs: seq<string>)
    ensures IsSubsequence(Dedup(xs), xs)
    decreases |xs|
  {
    if |xs| > 0 {
      var init := xs[..|xs| - 1];
      DedupSubsequence(init);
      var r := Dedup(xs);
      if xs[|xs| - 1] in init {
        if |r| > 0 {
          assert IsSubsequence(r, xs[..|xs| - 1]);
        }
      } else {
        assert r[..|r| - 1] == Dedup(init);
      }
    }
  }

  /** A list without repeats is left as it is. */
  lemma {:induction false} DedupOfDistinct(xs: seq<string>)
    requires Distinct(xs)
    ensures Dedup(xs) == xs
    decreases |xs|
  {
    if |xs| > 0 {
      var init := xs[..|xs| - 1];
      assert Distinct(init);
      DedupOfDistinct(init);
      assert xs[|xs| - 1] !in init;
      assert xs == init + [xs[|xs| - 1]];
    }
  }

  /** Removing duplicates twice is the same as removing them once, and never lengthens the list. */
  lemma DedupIdempotent(xs: seq<string>)
    ensures Dedup(Dedup(xs)) == Dedup(xs)
    ensures |Dedup(xs)| <= |xs|
  {
    DedupDistinct(xs);
    DedupOfDistinct(Dedup(xs));
    DedupShorter(xs);
  }

  lemma {:induction false} DedupShorter(xs: seq<string>)
    ensures |Dedup(xs)| <= |xs|
    decreases |xs|
  {
    if |xs| > 0 {
      DedupShorter(xs[..|xs| - 1]);
    }
  }

  /**
   * `RemoveDuplicates`: one pass with a set of the elements seen so far,
   * appending each element the first time it appears.
   */
  method RemoveDuplicates(xs: seq<string>) returns (list: seq<string>)
    ensures list == Dedup(xs)
    ensures Distinct(list)
    ensures forall x :: x in list <==> x in xs
    ensures IsSubsequence(list, xs)
    ensures |list| <= |xs|
    ensures |xs| == 0 ==> list == []
  {
    var keys: set<string> := {};
    list := [];
    var i := 0;
    while i < |xs|
      invariant 0 <= i <= |xs|
      invariant list == Dedup(xs[..i])
      invariant forall x :: x in keys <==> x in xs[..i]
    {
      var entry := xs[i];
      assert xs[..i + 1][..i] == xs[..i];
      if entry !in keys {
        keys := keys + {entry};
        list := list + [entry];
      }
      i := i + 1;
    }
    assert xs[..i] == xs;
    DedupDistinct(xs);
    DedupSameElements(xs);
    DedupSubsequence(xs);
    DedupShorter(xs);
  }
}
