/**
 * The SEO agent's keyword analysis (services/agents.ts, `SEOAgent.execute`):
 * every candidate gets an opportunity score and the list is sorted by it,
 * highest first, with `Array.prototype.sort`, which is stable.
 *
 * The sort is modelled as an insertion sort and proved to be sorted, a
 * permutation and stable; `StableSortIsUnique` then shows that any stable
 * descending sort of the same list yields the same sequence, so the choice
 * of algorithm is immaterial.
 */
module SeoRanking {
  import opened Types

  /** `(searchVolume / 1000) * (100 - difficulty)`, computed exactly. */
  function Score(k: Keyword): real {
    (k.searchVolume as real / 1000.0) * ((100 - k.difficulty) as real)
  }

  /** `{ ...k, opportunityScore }`: the candidate with its score added. */
  function Analyze(k: Keyword): ScoredKeyword {
    ScoredKeyword(k.term, k.difficulty, k.searchVolume, Score(k))
  }

  /**
   * `keywords.data.map(...)`: every candidate, in order, keeps its term,
   * difficulty and search volume and carries its opportunity score.
   */
  function AnalyzeAll(ks: seq<Keyword>): (r: seq<ScoredKeyword>)
    ensures |r| == |ks|
    ensures forall i :: 0 <= i < |ks| ==>
      && r[i].term == ks[i].term
      && r[i].difficulty == ks[i].difficulty
      && r[i].searchVolume == ks[i].searchVolume
      && r[i].opportunityScore == (ks[i].searchVolume as real / 1000.0) * ((100 - ks[i].difficulty) as real)
  {
    if ks == [] then [] else [Analyze(ks[0])] + AnalyzeAll(ks[1..])
  }

  /** Non-increasing by opportunity score. */
  ghost predicate SortedDesc(s: seq<ScoredKeyword>) {
    forall i, j :: 0 <= i < j < |s| ==> s[i].opportunityScore >= s[j].opportunityScore
  }

  /** The entries of `s` whose score is `v`, in their order in `s`. */
  function WithScore(s: seq<ScoredKeyword>, v: real): seq<ScoredKeyword> {
    if s == [] then []
    else (if s[0].opportunityScore == v then [s[0]] else []) + WithScore(s[1..], v)
  }

  /** Stability: for every score, the entries with that score appear in the same order in both. */
  ghost predicate SameTies(a: seq<ScoredKeyword>, b: seq<ScoredKeyword>) {
    forall v :: WithScore(a, v) == WithScore(b, v)
  }

  /** Unfolds `WithScore` over a list with a known head. */
  lemma WithScoreCons(x: ScoredKeyword, s: seq<ScoredKeyword>, v: real)
    ensures WithScore([x] + s, v) == (if x.opportunityScore == v then [x] else []) + WithScore(s, v)
  {
    assert ([x] + s)[1..] == s;
  }

  /**
   * Inserts `x` before the first entry that does not outscore it, so `x`
   * precedes the entries it ties with.
   */
  function Insert(x: ScoredKeyword, s: seq<ScoredKeyword>): (r: seq<ScoredKeyword>)
    ensures multiset(r) == multiset(s) + multiset{x}
    ensures r[0] == x || (s != [] && r[0] == s[0])
  {
    if s == [] || s[0].opportunityScore <= x.opportunityScore then
      [x] + s
    else
      assert s == [s[0]] + s[1..];
      [s[0]] + Insert(x, s[1..])
  }

  /** Inserting into a sorted list keeps it sorted. */
  lemma {:induction false} InsertSorted(x: ScoredKeyword, s: seq<ScoredKeyword>)
    requires SortedDesc(s)
    ensures SortedDesc(Insert(x, s))
  {
    if s == [] || s[0].opportunityScore <= x.opportunityScore {
    } else {
      var rest := Insert(x, s[1..]);
      InsertSorted(x, s[1..]);
      assert Insert(x, s) == [s[0]] + rest;
      assert rest[0].opportunityScore <= s[0].opportunityScore;
    }
  }

  /** `x` joins the run of its own score at the front; every other run is untouched. */
  lemma {:induction false} InsertTies(x: ScoredKeyword, s: seq<ScoredKeyword>, v: real)
    ensures WithScore(Insert(x, s), v) == if x.opportunityScore == v then [x] + WithScore(s, v) else WithScore(s, v)
  {
    if s == [] || s[0].opportunityScore <= x.opportunityScore {
      WithScoreCons(x, s, v);
    } else {
      InsertTies(x, s[1..], v);
      WithScoreCons(s[0], Insert(x, s[1..]), v);
      WithScoreCons(s[0], s[1..], v);
      assert s == [s[0]] + s[1..];
    }
  }

  /** Inserting the head of `s` into a stable sort of its tail gives a stable sort of `s`. */
  lemma {:induction false} InsertHeadSorts(s: seq<ScoredKeyword>, rest: seq<ScoredKeyword>)
    requires s != []
    requires SortedDesc(rest) && multiset(rest) == multiset(s[1..]) && SameTies(rest, s[1..])
    ensures SortedDesc(Insert(s[0], rest))
    ensures multiset(Insert(s[0], rest)) == multiset(s)
    ensures SameTies(Insert(s[0], rest), s)
  {
    InsertSorted(s[0], rest);
    assert s == [s[0]] + s[1..];
    forall v ensures WithScore(Insert(s[0], rest), v) == WithScore(s, v) {
      InsertTies(s[0], rest, v);
      WithScoreCons(s[0], s[1..], v);
    }
  }

  /** Sorts by score, highest first; ties keep their input order. */
  function SortByScore(s: seq<ScoredKeyword>): (r: seq<ScoredKeyword>)
    ensures SortedDesc(r)
    ensures multiset(r) == multiset(s)
    ensures SameTies(r, s)
  {
    if s == [] then []
    else
      var rest := SortByScore(s[1..]);
      InsertHeadSorts(s, rest);
      Insert(s[0], rest)
  }

  /** The analyzed keyword list the SEO agent returns. */
  function Rank(ks: seq<Keyword>): seq<ScoredKeyword> {
    SortByScore(AnalyzeAll(ks))
  }

  /**
   * The SEO agent's output is a permutation of the scored input, sorted
   * non-increasing by opportunity score, and entries with equal scores keep
   * their input order.
   */
  lemma RankIsStableDescendingSort(ks: seq<Keyword>)
    ensures |Rank(ks)| == |ks|
    ensures SortedDesc(Rank(ks))
    ensures multiset(Rank(ks)) == multiset(AnalyzeAll(ks))
    ensures forall v :: WithScore(Rank(ks), v) == WithScore(AnalyzeAll(ks), v)
  {
    assert |multiset(Rank(ks))| == |multiset(AnalyzeAll(ks))|;
  }

  /** A non-empty run of entries scoring `v` in a sorted list means `v` is at most the head's score. */
  lemma {:induction false} WithScoreAtMostHead(s: seq<ScoredKeyword>, v: real)
    requires SortedDesc(s) && WithScore(s, v) != []
    ensures s != [] && v <= s[0].opportunityScore
  {
    if s[0].opportunityScore != v {
      WithScoreAtMostHead(s[1..], v);
    }
  }

  /** The head of a non-empty list belongs to the run of its own score. */
  lemma HeadHasItsRun(s: seq<ScoredKeyword>)
    ensures s != [] ==> WithScore(s, s[0].opportunityScore) != []
  {
  }

  /**
   * A sorted sequence is determined by its runs of equal scores: two sorted
   * sequences with the same entries per score, in the same order, are equal.
   * Hence every stable descending sort of a list returns `SortByScore` of it.
   */
  lemma {:induction false} StableSortIsUnique(a: seq<ScoredKeyword>, b: seq<ScoredKeyword>)
    requires SortedDesc(a) && SortedDesc(b)
    requires SameTies(a, b)
    ensures a == b
    decreases |a|
  {
    if a == [] || b == [] {
      // the head of a non-empty one would have no counterpart in the other
      HeadHasItsRun(a);
      HeadHasItsRun(b);
    } else {
      var m, n := a[0].opportunityScore, b[0].opportunityScore;
      assert WithScore(a, m) != [];
      WithScoreAtMostHead(b, m);
      assert WithScore(b, n) != [];
      WithScoreAtMostHead(a, n);
      assert m == n;
      assert a == [a[0]] + a[1..] && b == [b[0]] + b[1..];
      WithScoreCons(a[0], a[1..], m);
      WithScoreCons(b[0], b[1..], m);
      assert WithScore(a, m)[0] == a[0] && WithScore(b, m)[0] == b[0];
      forall v ensures WithScore(a[1..], v) == WithScore(b[1..], v) {
        WithScoreCons(a[0], a[1..], v);
        WithScoreCons(b[0], b[1..], v);
        assert WithScore(a, v) == WithScore(b, v);
        if v == m {
          assert WithScore(a, v)[1..] == WithScore(a[1..], v);
          assert WithScore(b, v)[1..] == WithScore(b[1..], v);
        } else {
          assert WithScore(a, v) == [] + WithScore(a[1..], v) == WithScore(a[1..], v);
          assert WithScore(b, v) == [] + WithScore(b[1..], v) == WithScore(b[1..], v);
        }
      }
      StableSortIsUnique(a[1..], b[1..]);
    }
  }

  /** Any stable descending sort of the scored keywords is exactly what the SEO agent returns. */
  lemma AnyStableSortIsRank(ks: seq<Keyword>, out: seq<ScoredKeyword>)
    requires SortedDesc(out)
    requires SameTies(out, AnalyzeAll(ks))
    ensures out == Rank(ks)
  {
    RankIsStableDescendingSort(ks);
    StableSortIsUnique(out, Rank(ks));
  }
}
