/** Probability distributions and rank tables: a real number per page. */
module Ranks {
  import opened PageCorpus

  /** The total of `m` over the pages `ps`; a page `m` lacks counts 0. */
  function Mass(ps: seq<Page>, m: map<Page, real>): real
  {
    if |ps| == 0 then 0.0
    else Mass(ps[..|ps| - 1], m) + (if ps[|ps| - 1] in m then m[ps[|ps| - 1]] else 0.0)
  }

  /** One non-negative entry for every page of the corpus. */
  predicate IsTable(c: Corpus, m: map<Page, real>)
  {
    m.Keys == c.links.Keys && forall p | p in m :: m[p] >= 0.0
  }

  /** A table whose entries also sum to exactly 1. */
  predicate IsDistribution(c: Corpus, m: map<Page, real>)
  {
    IsTable(c, m) && Mass(c.pages, m) == 1.0
  }

  /** A map that gives `base` to every page and `share` more to the pages of
      `s` has, over `ps`, the mass that this count predicts. */
  lemma {:induction false} MassOfSplit(ps: seq<Page>, m: map<Page, real>, s: set<Page>, base: real, share: real)
    requires forall i | 0 <= i < |ps| :: ps[i] in m && m[ps[i]] == base + (if ps[i] in s then share else 0.0)
    ensures Mass(ps, m) == (|ps| as real) * base + (Hits(ps, s) as real) * share
  {
    if |ps| > 0 {
      MassOfSplit(ps[..|ps| - 1], m, s, base, share);
    }
  }
}
