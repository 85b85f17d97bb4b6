/** Lists of ids with set semantics, as the statistics store keeps them:
    `list(set(xs))` when a document is saved, and Mongo's `$addToSet`. */
module IdLists {

  predicate NoDuplicates(s: seq<int>)
  {
    forall i, j :: 0 <= i < j < |s| ==> s[i] != s[j]
  }

  /** `list(set(s))`: every id of `s` once. Python leaves the order of a set
      unspecified; this model keeps the first occurrence of each id. */
  function Dedupe(s: seq<int>): (r: seq<int>)
    ensures NoDuplicates(r)
    ensures forall x :: x in r <==> x in s
    ensures |r| <= |s|
  {
    if s == [] then []
    else
      var prefix := Dedupe(s[..|s| - 1]);
      var last := s[|s| - 1];
      assert forall x :: x in s <==> x in s[..|s| - 1] || x == last by {
        assert s == s[..|s| - 1] + [last];
      }
      if last in prefix then prefix else prefix + [last]
  }

  /** A list that already has no duplicates is left as it is: saving a
      document twice stores the same list as saving it once. */
  lemma {:induction false} DedupeOfDistinct(s: seq<int>)
    requires NoDuplicates(s)
    ensures Dedupe(s) == s
  {
    if s != [] {
      var init := s[..|s| - 1];
      assert NoDuplicates(init);
      DedupeOfDistinct(init);
      assert s[|s| - 1] !in init;
      assert s == init + [s[|s| - 1]];
    }
  }

  lemma DedupeIdempotent(s: seq<int>)
    ensures Dedupe(Dedupe(s)) == Dedupe(s)
  {
    DedupeOfDistinct(Dedupe(s));
  }

  /** Mongo's `$addToSet`: append the id unless the array already holds it. */
  function AddToSet(s: seq<int>, x: int): (r: seq<int>)
    ensures x in r
    ensures forall y :: y in r <==> y in s || y == x
    ensures x in s ==> r == s
    ensures x !in s ==> r == s + [x]
    ensures NoDuplicates(s) ==> NoDuplicates(r)
  {
    if x in s then s else s + [x]
  }

  lemma AddToSetIdempotent(s: seq<int>, x: int)
    ensures AddToSet(AddToSet(s, x), x) == AddToSet(s, x)
  {
  }
}
