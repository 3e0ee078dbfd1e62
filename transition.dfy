/** `transition_model`: the damped random surfer's next-page distribution. */
module Transition {
  import opened Outcomes
  import opened PageCorpus
  import opened Ranks

  /** The pages the surfer follows a link to: the page's own links, or every
      page of the corpus when the page has none. */
  function Targets(c: Corpus, page: Page): (s: set<Page>)
    requires page in c.links
    ensures c.links[page] != {} ==> s == c.links[page]
    ensures c.links[page] == {} ==> s == c.links.Keys
    ensures s != {}
  {
    if c.links[page] != {} then c.links[page] else c.links.Keys
  }

  /** The probability of each page of `c` being visited after `page`, with
      damping factor `d`; a missing `page` raises `KeyError`. */
  function TransitionModel(c: Corpus, page: Page, d: real): (r: Result<map<Page, real>>)
    ensures r.Ok? <==> page in c.links
    ensures r.Err? ==> r.error == KeyError
    ensures r.Ok? ==> r.value.Keys == c.links.Keys
  {
    if page !in c.links then Err(KeyError)
    else
      var n := Size(c) as real;
      var linked := Targets(c, page);
      Ok(map pg | pg in c.links ::
           if pg in linked then (1.0 - d) / n + d / (|linked| as real)
           else (1.0 - d) / n)
  }

  /** A page with links: each linked page gets the teleport share plus a
      `1/|L|` part of the damping mass, every other page the teleport share. */
  lemma TransitionLinked(c: Corpus, page: Page, d: real, pg: Page)
    requires page in c.links && c.links[page] != {} && pg in c.links
    ensures var n, l := Size(c) as real, |c.links[page]| as real;
      TransitionModel(c, page, d).value[pg]
      == if pg in c.links[page] then (1.0 - d) / n + d / l else (1.0 - d) / n
  {
  }

  /** A dangling page behaves as if it linked to every page, itself included:
      the next page is uniform. */
  lemma TransitionDangling(c: Corpus, page: Page, d: real, pg: Page)
    requires page in c.links && c.links[page] == {} && pg in c.links
    ensures TransitionModel(c, page, d).value[pg] == 1.0 / (Size(c) as real)
  {
    var n := Size(c) as real;
    assert n > 0.0;
    calc {
      TransitionModel(c, page, d).value[pg];
      (1.0 - d) / n + d / n;
      ((1.0 - d) + d) / n;
    }
  }

  /** On a well-formed corpus and for `0 <= d <= 1` the transition model is a
      probability distribution: non-negative entries summing to exactly 1. */
  lemma TransitionIsDistribution(c: Corpus, page: Page, d: real)
    requires WellFormed(c) && page in c.links
    requires 0.0 <= d <= 1.0
    ensures IsDistribution(c, TransitionModel(c, page, d).value)
  {
    var m := TransitionModel(c, page, d).value;
    var n, l := Size(c) as real, |Targets(c, page)| as real;
    assert n > 0.0 && l > 0.0;
    NonNegativeSplit(n, l, d);
    TransitionMass(c, page, d);
  }

  /** On a well-formed corpus the probabilities sum to exactly 1 for every
      damping factor, because every target of a page is a page. */
  lemma TransitionMass(c: Corpus, page: Page, d: real)
    requires WellFormed(c) && page in c.links
    ensures Mass(c.pages, TransitionModel(c, page, d).value) == 1.0
  {
    var m := TransitionModel(c, page, d).value;
    var linked := Targets(c, page);
    SizeIsLength(c);
    HitsOfSubset(c.pages, c.links, linked);
    var n, l := |c.pages| as real, |linked| as real;
    assert forall pg | pg in m :: m[pg] == (1.0 - d) / n + (if pg in linked then d / l else 0.0);
    SplitMass(c.pages, m, linked, n, l, d);
  }

  /** The total `random.choices` forms of the weights of `page`, added in
      the order `ps` lists the pages. */
  function TotalWeight(c: Corpus, d: real, page: Page, ps: seq<Page>): real
    requires page in c.links
  {
    if |ps| == 0 then 0.0
    else
      var pg := ps[|ps| - 1];
      TotalWeight(c, d, page, ps[..|ps| - 1])
        + (if pg in c.links then TransitionModel(c, page, d).value[pg] else 0.0)
  }

  /** The total of the weights is the mass of the transition model. */
  lemma {:induction false} TotalWeightIsMass(c: Corpus, d: real, page: Page, ps: seq<Page>)
    requires page in c.links
    ensures TotalWeight(c, d, page, ps) == Mass(ps, TransitionModel(c, page, d).value)
  {
    if |ps| > 0 {
      TotalWeightIsMass(c, d, page, ps[..|ps| - 1]);
    }
  }

  /** `random.choices` refuses the weights of `page`: their total, added in
      the order of the corpus, is not positive. */
  predicate Blocked(c: Corpus, d: real, page: Page)
    requires page in c.links
  {
    TotalWeight(c, d, page, c.pages) <= 0.0
  }

  /** A page of a well-formed corpus is never blocked. */
  lemma NeverBlocked(c: Corpus, d: real, page: Page)
    requires WellFormed(c) && page in c.links
    ensures !Blocked(c, d, page)
  {
    TransitionMass(c, page, d);
    TotalWeightIsMass(c, d, page, c.pages);
  }

  /** For `d = 1`, a page whose links all leave the corpus gives weight 0 to
      every page of the corpus, so its weights over `ps` total 0. */
  lemma {:induction false} OutsideLinksWeighNothing(c: Corpus, page: Page, ps: seq<Page>)
    requires page in c.links && c.links[page] != {} && c.links[page] !! c.links.Keys
    ensures TotalWeight(c, 1.0, page, ps) == 0.0
  {
    if |ps| > 0 {
      var pg := ps[|ps| - 1];
      OutsideLinksWeighNothing(c, page, ps[..|ps| - 1]);
      if pg in c.links {
        assert pg !in Targets(c, page);
      }
    }
  }

  /** For `d = 1`, a page with links that all leave the corpus is blocked:
      `random.choices` gets only weights 0. */
  lemma BlockedOutsideLinks(c: Corpus, page: Page)
    requires page in c.links && c.links[page] != {} && c.links[page] !! c.links.Keys
    ensures Blocked(c, 1.0, page)
  {
    OutsideLinksWeighNothing(c, page, c.pages);
  }

  /** An instance: a page whose only link leaves the corpus is blocked for
      `d = 1`. */
  lemma BlockedOutsideLink()
    ensures var c := Corpus(["A"], map["A" := {"X"}]);
      Keyed(c) && Blocked(c, 1.0, "A")
  {
    var c := Corpus(["A"], map["A" := {"X"}]);
    var m := TransitionModel(c, "A", 1.0).value;
    assert Targets(c, "A") == {"X"};
    assert m["A"] == 0.0;
    assert TotalWeight(c, 1.0, "A", c.pages) == TotalWeight(c, 1.0, "A", []) + m["A"];
  }

  lemma NonNegativeSplit(n: real, l: real, d: real)
    requires n > 0.0 && l > 0.0 && 0.0 <= d <= 1.0
    ensures (1.0 - d) / n >= 0.0 && d / l >= 0.0
  {
  }

  /** `n` teleport shares and `l` link shares together make 1. */
  lemma SplitMass(ps: seq<Page>, m: map<Page, real>, s: set<Page>, n: real, l: real, d: real)
    requires n == |ps| as real && Hits(ps, s) as real == l && n > 0.0 && l > 0.0
    requires forall i | 0 <= i < |ps| :: ps[i] in m && m[ps[i]] == (1.0 - d) / n + (if ps[i] in s then d / l else 0.0)
    ensures Mass(ps, m) == 1.0
  {
    MassOfSplit(ps, m, s, (1.0 - d) / n, d / l);
    assert n * ((1.0 - d) / n) == 1.0 - d;
    assert l * (d / l) == d;
  }

  /** `next` can be the page that `random.choices` picks after `page`: a
      page of the corpus that the transition model gives a positive weight,
      which is every page while `d < 1` and the targets of `page` when
      `d = 1`. */
  predicate Follows(c: Corpus, d: real, page: Page, next: Page)
    requires page in c.links
  {
    next in c.links && (d < 1.0 || next in Targets(c, page))
  }

  /** For `0 <= d <= 1`, `Follows` holds exactly for the pages of positive
      probability under the transition model. */
  lemma FollowsIsSupport(c: Corpus, d: real, page: Page, next: Page)
    requires page in c.links && next in c.links && 0.0 <= d <= 1.0
    ensures Follows(c, d, page, next) <==> TransitionModel(c, page, d).value[next] > 0.0
  {
    var n, l := Size(c) as real, |Targets(c, page)| as real;
    assert n > 0.0 && l > 0.0;
    NonNegativeSplit(n, l, d);
    if d < 1.0 {
      PositiveShare(n, 1.0 - d);
    } else {
      assert (1.0 - d) / n == 0.0;
      PositiveShare(l, d);
    }
  }

  lemma PositiveShare(n: real, x: real)
    requires n > 0.0 && x > 0.0
    ensures x / n > 0.0
  {
  }
}
