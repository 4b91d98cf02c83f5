/**
 * The filter shared by the learning hub and the agent marketplace:
 * `items.filter(pred)` with a predicate made of a category test and a
 * case-insensitive search over two text fields.
 */
module Listing {
  import opened Text

  /** `r` can be obtained from `s` by deleting elements, keeping the order. */
  predicate SubsequenceOf<T(==)>(r: seq<T>, s: seq<T>)
    decreases |s|
  {
    r == [] ||
    (s != [] && ((r[0] == s[0] && SubsequenceOf(r[1..], s[1..])) || SubsequenceOf(r, s[1..])))
  }

  /** Every element of a subsequence is an element of the sequence. */
  lemma {:induction false} SubsequenceMember<T>(r: seq<T>, s: seq<T>, x: T)
    requires SubsequenceOf(r, s) && x in r
    ensures x in s
    decreases |s|
  {
    if r[0] == s[0] && SubsequenceOf(r[1..], s[1..]) {
      if x != r[0] {
        assert x in r[1..];
        SubsequenceMember(r[1..], s[1..], x);
      }
    } else {
      SubsequenceMember(r, s[1..], x);
    }
  }

  /** `s.filter(keep)`. */
  function Filter<T(==,!new)>(s: seq<T>, keep: T -> bool): (r: seq<T>)
    ensures SubsequenceOf(r, s)
    ensures forall i :: 0 <= i < |r| ==> keep(r[i])
    ensures forall i :: 0 <= i < |s| && keep(s[i]) ==> s[i] in r
    ensures forall x :: multiset(r)[x] == if keep(x) then multiset(s)[x] else 0
  {
    if s == [] then []
    else
      assert s == [s[0]] + s[1..];
      if keep(s[0]) then [s[0]] + Filter(s[1..], keep)
      else Filter(s[1..], keep)
  }

  /** An element survives the filter exactly when it is in the sequence and passes. */
  lemma FilterMember<T(!new)>(s: seq<T>, keep: T -> bool, x: T)
    ensures x in Filter(s, keep) <==> x in s && keep(x)
  {
    var r := Filter(s, keep);
    if x in r {
      SubsequenceMember(r, s, x);
    }
  }

  /** When every element passes, the filter keeps the whole sequence. */
  lemma {:induction false} FilterKeepsAll<T(!new)>(s: seq<T>, keep: T -> bool)
    requires forall i :: 0 <= i < |s| ==> keep(s[i])
    ensures Filter(s, keep) == s
  {
    if s != [] {
      FilterKeepsAll(s[1..], keep);
    }
  }

  /** Filtering an already filtered sequence with the same predicate changes nothing. */
  lemma FilterIdempotent<T(!new)>(s: seq<T>, keep: T -> bool)
    ensures Filter(Filter(s, keep), keep) == Filter(s, keep)
  {
    FilterKeepsAll(Filter(s, keep), keep);
  }

  /** Two predicates that agree on every element filter the sequence alike. */
  lemma {:induction false} FilterAgree<T(!new)>(s: seq<T>, p: T -> bool, q: T -> bool)
    requires forall i :: 0 <= i < |s| ==> p(s[i]) == q(s[i])
    ensures Filter(s, p) == Filter(s, q)
  {
    if s != [] {
      FilterAgree(s[1..], p, q);
    }
  }

  /** `selectedCategory === 'all' || item.category === selectedCategory`. */
  predicate MatchesCategory(selected: string, category: string) {
    selected == "all" || category == selected
  }

  /** Outside 'all', a category matches only itself. */
  lemma CategoryExact(selected: string, category: string)
    requires selected != "all"
    ensures MatchesCategory(selected, category) <==> category == selected
  {
  }

  /**
   * `a.toLowerCase().includes(term.toLowerCase()) ||
   *  b.toLowerCase().includes(term.toLowerCase())`.
   */
  predicate MatchesSearch(a: string, b: string, term: string) {
    Includes(Lower(a), Lower(term)) || Includes(Lower(b), Lower(term))
  }

  /** The empty search term matches every item. */
  lemma EmptySearchMatches(a: string, b: string)
    ensures MatchesSearch(a, b, "")
  {
    IncludesEmpty(Lower(a));
  }

  /** The search ignores ASCII letter case in the term. */
  lemma SearchIgnoresTermCase(a: string, b: string, term: string)
    ensures MatchesSearch(a, b, term) == MatchesSearch(a, b, Lower(term))
  {
    LowerIdempotent(term);
  }
}
