/**
 * Sequence notions the findings are stated with: no duplicates, subsequence,
 * `list(set(xs))` and the filtering of a list by a parallel list of flags.
 */
module Lists {

  predicate NoDups<T(==)>(xs: seq<T>)
  {
    forall i, j :: 0 <= i < j < |xs| ==> xs[i] != xs[j]
  }

  /** `xs` is `ys` with some elements left out, the rest in their order. */
  predicate IsSubsequence<T(==)>(xs: seq<T>, ys: seq<T>)
    decreases |ys|
  {
    xs == [] ||
    (ys != [] &&
      ((xs[|xs| - 1] == ys[|ys| - 1] && IsSubsequence(xs[..|xs| - 1], ys[..|ys| - 1])) ||
       IsSubsequence(xs, ys[..|ys| - 1])))
  }

  lemma {:induction false} SubsequenceLength<T>(xs: seq<T>, ys: seq<T>)
    requires IsSubsequence(xs, ys)
    ensures |xs| <= |ys|
  {
    if xs != [] {
      if xs[|xs| - 1] == ys[|ys| - 1] && IsSubsequence(xs[..|xs| - 1], ys[..|ys| - 1]) {
        SubsequenceLength(xs[..|xs| - 1], ys[..|ys| - 1]);
      } else {
        SubsequenceLength(xs, ys[..|ys| - 1]);
      }
    }
  }

  /**
   * `list(set(xs))`: the elements of `xs`, each once. Python leaves the order
   * unspecified; this keeps first occurrences in their order, one admissible order.
   */
  function Distinct<T(==)>(xs: seq<T>): (r: seq<T>)
    ensures NoDups(r)
    ensures forall i :: 0 <= i < |r| ==> r[i] in xs
    ensures forall i :: 0 <= i < |xs| ==> xs[i] in r
  {
    if xs == [] then []
    else
      var init := Distinct(xs[..|xs| - 1]);
      var x := xs[|xs| - 1];
      assert xs == xs[..|xs| - 1] + [x];
      if x in init then init else init + [x]
  }

  lemma DistinctMember<T>(xs: seq<T>, x: T)
    ensures x in Distinct(xs) <==> x in xs
  {
    var r := Distinct(xs);
    if x in r {
      var i :| 0 <= i < |r| && r[i] == x;
    }
    if x in xs {
      var i :| 0 <= i < |xs| && xs[i] == x;
    }
  }

  /** Deduplicating a list that has no duplicates gives it back unchanged. */
  lemma {:induction false} DistinctKeeps<T>(xs: seq<T>)
    requires NoDups(xs)
    ensures Distinct(xs) == xs
  {
    if xs != [] {
      var init := xs[..|xs| - 1];
      DistinctKeeps(init);
      assert xs[|xs| - 1] !in init;
      assert init + [xs[|xs| - 1]] == xs;
    }
  }

  /** The items whose flag is set, in their order. */
  function Select<T>(items: seq<T>, keep: seq<bool>): seq<T>
    requires |items| == |keep|
  {
    if items == [] then []
    else
      Select(items[..|items| - 1], keep[..|keep| - 1]) +
      (if keep[|keep| - 1] then [items[|items| - 1]] else [])
  }

  lemma {:induction false} SelectMember<T>(items: seq<T>, keep: seq<bool>, x: T)
    requires |items| == |keep|
    ensures x in Select(items, keep) <==> exists i :: 0 <= i < |items| && keep[i] && items[i] == x
  {
    if items != [] {
      var n := |items| - 1;
      SelectMember(items[..n], keep[..n], x);
      if exists i :: 0 <= i < |items| && keep[i] && items[i] == x {
        var i :| 0 <= i < |items| && keep[i] && items[i] == x;
        if i < n {
          assert keep[..n][i] && items[..n][i] == x;
        }
      }
    }
  }

  lemma {:induction false} SelectNoDups<T>(items: seq<T>, keep: seq<bool>)
    requires |items| == |keep| && NoDups(items)
    ensures NoDups(Select(items, keep))
  {
    if items != [] {
      var n := |items| - 1;
      SelectNoDups(items[..n], keep[..n]);
      if keep[n] {
        SelectMember(items[..n], keep[..n], items[n]);
      }
    }
  }

  /** The selection is a subsequence of the items, so never longer. */
  lemma {:induction false} SelectSubsequence<T>(items: seq<T>, keep: seq<bool>)
    requires |items| == |keep|
    ensures IsSubsequence(Select(items, keep), items)
    ensures |Select(items, keep)| <= |items|
  {
    if items != [] {
      var n := |items| - 1;
      var init := Select(items[..n], keep[..n]);
      SelectSubsequence(items[..n], keep[..n]);
      assert items[..n] == items[..|items| - 1];
      if keep[n] {
        assert Select(items, keep) == init + [items[n]];
        assert (init + [items[n]])[..|init|] == init;
      } else {
        assert Select(items, keep) == init;
      }
      assert IsSubsequence(Select(items, keep), items);
      SubsequenceLength(Select(items, keep), items);
    }
  }

  /** Selecting from one more item adds that item exactly when its flag is set. */
  lemma SelectSnoc<T>(items: seq<T>, keep: seq<bool>, k: int)
    requires |items| == |keep| && 0 <= k < |items|
    ensures Select(items[..k + 1], keep[..k + 1]) ==
      Select(items[..k], keep[..k]) + (if keep[k] then [items[k]] else [])
  {
    assert items[..k + 1][..k] == items[..k];
    assert keep[..k + 1][..k] == keep[..k];
  }

  /** With no flag set nothing is selected. */
  lemma {:induction false} SelectNone<T>(items: seq<T>, keep: seq<bool>)
    requires |items| == |keep|
    requires forall i :: 0 <= i < |keep| ==> !keep[i]
    ensures Select(items, keep) == []
  {
    if items != [] {
      SelectNone(items[..|items| - 1], keep[..|keep| - 1]);
    }
  }
}
