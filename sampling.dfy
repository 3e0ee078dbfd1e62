/** `sample_pagerank`: ranks estimated from the visit counts of one random
    walk. The random draws are an input: `draws[0]` is the start page that
    `random.choice` picks and `draws[i]` the page `random.choices` picks at
    step `i`. */
module Sampling {
  import opened Outcomes
  import opened PageCorpus
  import opened Ranks
  import opened Transition

  /** How often the walk visits `p`. */
  function Visits(walk: seq<Page>, p: Page): (r: nat)
    ensures r <= |walk|
  {
    if |walk| == 0 then 0
    else Visits(walk[..|walk| - 1], p) + (if walk[|walk| - 1] == p then 1 else 0)
  }

  /** Appending a page to the walk adds one visit to that page only. */
  lemma VisitsAppend(walk: seq<Page>, x: Page, p: Page)
    ensures Visits(walk + [x], p) == Visits(walk, p) + (if x == p then 1 else 0)
  {
    assert (walk + [x])[..|walk|] == walk;
  }

  /** The counters of all pages of `ps` added up. */
  function TotalVisits(ps: seq<Page>, walk: seq<Page>): nat
  {
    if |ps| == 0 then 0
    else TotalVisits(ps[..|ps| - 1], walk) + Visits(walk, ps[|ps| - 1])
  }

  /** The number of pages a walk of `n` samples visits: the start page, then
      one per iteration of `range(1, n)`. */
  function WalkLength(n: int): (k: nat)
    ensures k >= 1 && (n >= 1 ==> k == n) && (n < 1 ==> k == 1)
  {
    if n >= 1 then n else 1
  }

  /** The ranks of a walk: each page's visits divided by `n`. */
  function SampleRanks(c: Corpus, walk: seq<Page>, n: int): map<Page, real>
    requires n != 0
  {
    map p | p in c.links :: (Visits(walk, p) as real) / (n as real)
  }

  /** One more step adds one to the total of the counters: to the counter of
      the page it visits and to no other. */
  lemma {:induction false} TotalVisitsStep(ps: seq<Page>, walk: seq<Page>, x: Page)
    ensures TotalVisits(ps, walk + [x]) == TotalVisits(ps, walk) + Hits(ps, {x})
  {
    if |ps| > 0 {
      TotalVisitsStep(ps[..|ps| - 1], walk, x);
      assert (walk + [x])[..|walk + [x]| - 1] == walk;
    }
  }

  /** Each page of the walk is counted once: over the corpus pages the
      counters add up to the length of the walk. */
  lemma {:induction false} CountersSumToLength(c: Corpus, walk: seq<Page>)
    requires Keyed(c)
    requires Within(c, walk)
    ensures TotalVisits(c.pages, walk) == |walk|
  {
    if |walk| == 0 {
      TotalVisitsNone(c.pages);
    } else {
      var init, x := walk[..|walk| - 1], walk[|walk| - 1];
      CountersSumToLength(c, init);
      assert init + [x] == walk;
      TotalVisitsStep(c.pages, init, x);
      HitsOfSubset(c.pages, c.links, {x});
    }
  }

  lemma {:induction false} TotalVisitsNone(ps: seq<Page>)
    ensures TotalVisits(ps, []) == 0
  {
    if |ps| > 0 {
      TotalVisitsNone(ps[..|ps| - 1]);
    }
  }

  /** Dividing every counter by `n` divides their total by `n`. */
  lemma {:induction false} MassOfSampleRanks(c: Corpus, ps: seq<Page>, walk: seq<Page>, n: int)
    requires n != 0
    requires Within(c, ps)
    ensures Mass(ps, SampleRanks(c, walk, n)) == (TotalVisits(ps, walk) as real) / (n as real)
  {
    if |ps| > 0 {
      var init, p := ps[..|ps| - 1], ps[|ps| - 1];
      MassOfSampleRanks(c, init, walk, n);
      assert SampleRanks(c, walk, n)[p] == (Visits(walk, p) as real) / (n as real);
      AddFractions(TotalVisits(init, walk) as real, Visits(walk, p) as real, n as real);
    }
  }

  lemma AddFractions(a: real, b: real, n: real)
    requires n != 0.0
    ensures a / n + b / n == (a + b) / n
  {
  }

  /** The sampled ranks of a walk of `n >= 1` pages lie in [0, 1] and sum to
      exactly 1. */
  lemma SampleRanksAreDistribution(c: Corpus, walk: seq<Page>, n: int)
    requires Keyed(c)
    requires n >= 1 && |walk| == n
    requires Within(c, walk)
    ensures IsDistribution(c, SampleRanks(c, walk, n))
    ensures forall p | p in SampleRanks(c, walk, n) :: SampleRanks(c, walk, n)[p] <= 1.0
  {
    var ranks := SampleRanks(c, walk, n);
    CountersSumToLength(c, walk);
    MassOfSampleRanks(c, c.pages, walk, n);
    SelfFraction(n as real);
    assert Mass(c.pages, ranks) == 1.0;
    forall p | p in ranks
      ensures 0.0 <= ranks[p] <= 1.0
    {
      FractionInUnit(Visits(walk, p) as real, n as real);
    }
  }

  lemma SelfFraction(n: real)
    requires n > 0.0
    ensures n / n == 1.0
  {
  }

  lemma FractionInUnit(a: real, n: real)
    requires 0.0 <= a <= n && n > 0.0
    ensures 0.0 <= a / n <= 1.0
  {
  }

  /** The visit counters after a walk: one per corpus page. */
  function Counters(c: Corpus, walk: seq<Page>): (counter: map<Page, nat>)
    ensures counter.Keys == c.links.Keys
  {
    map p | p in c.links :: Visits(walk, p)
  }

  /** Draws that `random.choice` and then `random.choices` with the
      transition model's weights can make: pages of the corpus, each after
      the first one that can follow the one before it, unless that one is
      blocked (the walk then stops there). */
  predicate LegalDraws(c: Corpus, d: real, draws: seq<Page>)
  {
    && Within(c, draws)
    && (forall i | 1 <= i < |draws| :: !Blocked(c, d, draws[i - 1]) ==> Follows(c, d, draws[i - 1], draws[i]))
  }

  /** No page the walk leaves is blocked, so no call of `random.choices`
      raises; checked step by step, as the walk takes them. */
  predicate Unstuck(c: Corpus, d: real, walk: seq<Page>)
    requires Within(c, walk)
  {
    if |walk| <= 1 then true
    else Unstuck(c, d, walk[..|walk| - 1]) && !Blocked(c, d, walk[|walk| - 2])
  }

  /** A walk is unstuck exactly when none of the pages it leaves is blocked. */
  lemma {:induction false} UnstuckEvery(c: Corpus, d: real, walk: seq<Page>)
    requires Within(c, walk)
    ensures Unstuck(c, d, walk) <==> forall j | 0 <= j < |walk| - 1 :: !Blocked(c, d, walk[j])
  {
    if |walk| > 1 {
      var init := walk[..|walk| - 1];
      UnstuckEvery(c, d, init);
      assert forall j | 0 <= j < |init| :: init[j] == walk[j];
    }
  }

  /** One more step leaves the walk unstuck exactly when it was and the page
      it leaves is not blocked. */
  lemma UnstuckStep(c: Corpus, d: real, draws: seq<Page>, i: int)
    requires Within(c, draws)
    requires 1 <= i < |draws|
    ensures Unstuck(c, d, draws[..i + 1]) <==> Unstuck(c, d, draws[..i]) && !Blocked(c, d, draws[i - 1])
  {
    assert draws[..i + 1][..i] == draws[..i];
  }

  /** A walk that got stuck stays stuck when it is extended. */
  lemma {:induction false} UnstuckPrefix(c: Corpus, d: real, walk: seq<Page>, k: nat)
    requires Within(c, walk)
    requires k <= |walk|
    ensures Unstuck(c, d, walk) ==> Unstuck(c, d, walk[..k])
    decreases |walk|
  {
    if k < |walk| {
      var init := walk[..|walk| - 1];
      UnstuckPrefix(c, d, init, k);
      assert init[..k] == walk[..k];
    } else {
      assert walk[..k] == walk;
    }
  }

  /** Draws stuck within their first `k` pages are stuck within their first
      `len >= k` pages. */
  lemma StuckStays(c: Corpus, d: real, draws: seq<Page>, k: nat, len: nat)
    requires Within(c, draws)
    requires k <= len <= |draws|
    ensures !Unstuck(c, d, draws[..k]) ==> !Unstuck(c, d, draws[..len])
  {
    UnstuckPrefix(c, d, draws[..len], k);
    assert draws[..len][..k] == draws[..k];
  }

  /** On a well-formed corpus every walk is unstuck. */
  lemma {:induction false} WellFormedUnstuck(c: Corpus, d: real, walk: seq<Page>)
    requires WellFormed(c)
    requires Within(c, walk)
    ensures Unstuck(c, d, walk)
  {
    if |walk| > 1 {
      WellFormedUnstuck(c, d, walk[..|walk| - 1]);
      NeverBlocked(c, d, walk[|walk| - 2]);
    }
  }

  /** The walk of `sample_pagerank`: `pageCounter` starts at 0 for every page,
      the start page and then each of the `n - 1` later pages add one to
      their counter; a step from a blocked page raises `ValueError`. */
  method Walk(c: Corpus, d: real, n: int, draws: seq<Page>) returns (r: Result<map<Page, nat>>)
    requires Within(c, draws)
    requires |draws| >= WalkLength(n)
    ensures r.Ok? <==> Unstuck(c, d, draws[..WalkLength(n)])
    ensures r.Err? ==> r.error == ValueError
    ensures r.Ok? ==> r.value == Counters(c, draws[..WalkLength(n)])
  {
    var counter := map p | p in c.links :: 0;
    var current := draws[0];
    TallyStep(c, counter, draws, 0);
    counter := counter[current := counter[current] + 1];
    var i := 1;
    while i < n
      invariant 1 <= i <= WalkLength(n)
      invariant current == draws[i - 1]
      invariant Unstuck(c, d, draws[..i])
      invariant Tallies(c, counter, draws[..i])
    {
      assert WalkLength(n) == n;
      var next := draws[i];
      UnstuckStep(c, d, draws, i);
      if Blocked(c, d, current) {
        StuckStays(c, d, draws, i + 1, n);
        return Err(ValueError);
      }
      TallyStep(c, counter, draws, i);
      counter := counter[next := counter[next] + 1];
      current := next;
      i := i + 1;
    }
    TalliesAreCounters(c, counter, draws[..WalkLength(n)]);
    return Ok(counter);
  }

  /** `counter` holds, for every corpus page, its visits in `walk`. */
  predicate Tallies(c: Corpus, counter: map<Page, nat>, walk: seq<Page>)
  {
    && counter.Keys == c.links.Keys
    && forall p | p in counter :: counter[p] == Visits(walk, p)
  }

  /** Counting one more visit, to the next draw, keeps the counters those of
      the walk so far. */
  lemma TallyStep(c: Corpus, counter: map<Page, nat>, draws: seq<Page>, i: int)
    requires 0 <= i < |draws| && draws[i] in c.links
    requires Tallies(c, counter, draws[..i])
    ensures Tallies(c, counter[draws[i] := counter[draws[i]] + 1], draws[..i + 1])
  {
    var x := draws[i];
    assert draws[..i + 1] == draws[..i] + [x];
    forall p | p in counter
      ensures counter[x := counter[x] + 1][p] == Visits(draws[..i + 1], p)
    {
      VisitsAppend(draws[..i], x, p);
    }
  }

  /** Counters that tally a walk are that walk's counters. */
  lemma TalliesAreCounters(c: Corpus, counter: map<Page, nat>, walk: seq<Page>)
    requires Tallies(c, counter, walk)
    ensures counter == Counters(c, walk)
  {
  }

  /** The last loop of `sample_pagerank`: every counter divided by `n`. */
  method Normalized(c: Corpus, counter: map<Page, nat>, n: int) returns (rank: map<Page, real>)
    requires Keyed(c) && counter.Keys == c.links.Keys
    requires n != 0
    ensures rank.Keys == counter.Keys
    ensures forall p | p in rank :: rank[p] == (counter[p] as real) / (n as real)
  {
    rank := map[];
    for j := 0 to |c.pages|
      invariant forall p :: p in rank <==> p in c.pages[..j]
      invariant forall p | p in rank :: rank[p] == (counter[p] as real) / (n as real)
    {
      var pg := c.pages[j];
      rank := rank[pg := (counter[pg] as real) / (n as real)];
    }
    assert c.pages[..|c.pages|] == c.pages;
  }

  /** `sample_pagerank(corpus, d, n)` with the random draws given. */
  method SamplePageRank(c: Corpus, d: real, n: int, draws: seq<Page>) returns (r: Result<map<Page, real>>)
    requires Keyed(c)
    requires LegalDraws(c, d, draws)
    requires c.pages != [] ==> |draws| >= WalkLength(n)
    ensures c.pages == [] ==> r == Err(IndexError)
    ensures c.pages != [] ==> (r == Err(ValueError) <==> !Unstuck(c, d, draws[..WalkLength(n)]))
    ensures c.pages != [] && Unstuck(c, d, draws[..WalkLength(n)]) && n == 0 ==> r == Err(ZeroDivisionError)
    ensures c.pages != [] && Unstuck(c, d, draws[..WalkLength(n)]) && n != 0
         ==> r == Ok(SampleRanks(c, draws[..WalkLength(n)], n))
    ensures c.pages != [] && Unstuck(c, d, draws[..WalkLength(n)]) && n >= 1 ==> IsDistribution(c, r.value)
    ensures WellFormed(c) && c.pages != [] ==> Unstuck(c, d, draws[..WalkLength(n)])
  {
    if |c.pages| == 0 {
      return Err(IndexError);
    }
    if WellFormed(c) {
      WellFormedUnstuck(c, d, draws[..WalkLength(n)]);
    }
    var walked := Walk(c, d, n, draws);
    if walked.Err? {
      return Err(walked.error);
    }
    if n == 0 {
      return Err(ZeroDivisionError);
    }
    var rank := RanksOf(c, draws[..WalkLength(n)], walked.value, n);
    return Ok(rank);
  }

  /** The ranks of a walk whose counters are `counter`: a distribution for a
      walk of `n >= 1` pages. */
  method RanksOf(c: Corpus, walk: seq<Page>, counter: map<Page, nat>, n: int) returns (rank: map<Page, real>)
    requires Keyed(c) && n != 0 && counter == Counters(c, walk)
    requires Within(c, walk)
    requires n >= 1 ==> |walk| == n
    ensures rank == SampleRanks(c, walk, n)
    ensures n >= 1 ==> IsDistribution(c, rank)
  {
    rank := Normalized(c, counter, n);
    assert rank == SampleRanks(c, walk, n);
    if n >= 1 {
      SampleRanksAreDistribution(c, walk, n);
    }
  }
}
