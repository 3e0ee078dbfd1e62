/** The link graph that `crawl` builds: every page of the corpus with the set
    of corpus pages it links to. */
module PageCorpus {

  /** A page is named by its file name. */
  type Page = string

  /** A corpus. `pages` lists the keys of the Python dictionary in its
      iteration order; `links` is the dictionary itself. */
  datatype Corpus = Corpus(pages: seq<Page>, links: map<Page, set<Page>>)

  predicate Distinct(ps: seq<Page>)
  {
    forall i, j | 0 <= i < j < |ps| :: ps[i] != ps[j]
  }

  /** `order` enumerates the keys of `m`, each exactly once. */
  predicate Enumerates<V>(order: seq<Page>, m: map<Page, V>)
  {
    && Distinct(order)
    && (forall i | 0 <= i < |order| :: order[i] in m)
    && (forall p | p in m :: p in order)
  }

  /** The representation invariant: `pages` is the key order of `links`. */
  predicate Keyed(c: Corpus)
  {
    Enumerates(c.pages, c.links)
  }

  /** The graph invariant `crawl` establishes: no page links to itself and
      every link names a page of the corpus. */
  predicate ClosedLinks(links: map<Page, set<Page>>)
  {
    forall p | p in links :: p !in links[p] && links[p] <= links.Keys
  }

  predicate WellFormed(c: Corpus)
  {
    Keyed(c) && ClosedLinks(c.links)
  }

  /** The number of pages of the corpus, `len(corpus)`. */
  function Size(c: Corpus): nat
  {
    |c.links|
  }

  /** The link set of one HTML page before filtering to the corpus: the
      distinct targets of its anchors, less the page itself. */
  function OwnLinks(page: Page, hrefs: seq<Page>): (r: set<Page>)
    ensures forall q :: q in r <==> q in hrefs && q != page
  {
    (set q | q in hrefs) - {page}
  }

  /** The second pass of `crawl`: every link set is cut down to the pages
      that are keys of the dictionary. The keys themselves do not change. */
  function KeepCorpusLinks(links: map<Page, set<Page>>): (r: map<Page, set<Page>>)
    ensures r.Keys == links.Keys
    ensures forall p | p in r :: r[p] <= links[p]
    ensures forall p, q | p in r :: q in r[p] <==> q in links[p] && q in links
  {
    map p | p in links :: set q | q in links[p] && q in links
  }

  /** The dictionary `crawl` builds from the anchors found in each page. */
  function Normalize(hrefs: map<Page, seq<Page>>): (r: map<Page, set<Page>>)
    ensures r.Keys == hrefs.Keys
    ensures ClosedLinks(r)
    ensures forall p, q | p in r :: q in r[p] <==> q in hrefs[p] && q != p && q in hrefs
  {
    KeepCorpusLinks(map p | p in hrefs :: OwnLinks(p, hrefs[p]))
  }

  /** `crawl` with the directory listing `order` (the HTML files, each once). */
  function Crawl(order: seq<Page>, hrefs: map<Page, seq<Page>>): (c: Corpus)
    requires Enumerates(order, hrefs)
    ensures WellFormed(c)
    ensures c.pages == order && c.links.Keys == hrefs.Keys
    ensures forall p, q | p in c.links :: q in c.links[p] <==> q in hrefs[p] && q != p && q in hrefs
  {
    Corpus(order, Normalize(hrefs))
  }

  /** Both passes of `crawl` leave a graph that already satisfies the
      invariant as it is. */
  lemma NormalizeKeepsClosedLinks(links: map<Page, set<Page>>)
    requires ClosedLinks(links)
    ensures KeepCorpusLinks(links) == links
    ensures (map p | p in links :: links[p] - {p}) == links
  {
    forall p | p in links
      ensures KeepCorpusLinks(links)[p] == links[p]
    {
    }
    var dropped := map p | p in links :: links[p] - {p};
    forall p | p in links
      ensures dropped[p] == links[p]
    {
    }
  }

  /** Every entry of `qs` is a page of the corpus. */
  predicate Within(c: Corpus, qs: seq<Page>)
  {
    forall i | 0 <= i < |qs| :: qs[i] in c.links
  }

  /** The number of entries of `ps` that belong to `s`. */
  function Hits(ps: seq<Page>, s: set<Page>): nat
  {
    if |ps| == 0 then 0
    else Hits(ps[..|ps| - 1], s) + (if ps[|ps| - 1] in s then 1 else 0)
  }

  /** Over a list without repetitions, counting the members of `s` gives the
      size of the part of `s` the list covers. */
  lemma {:induction false} HitsCount(ps: seq<Page>, s: set<Page>)
    requires Distinct(ps)
    ensures Hits(ps, s) == |s * (set q | q in ps)|
  {
    if |ps| > 0 {
      var init, x := ps[..|ps| - 1], ps[|ps| - 1];
      HitsCount(init, s);
      var covered := s * (set q | q in init);
      assert x !in covered;
      if x in s {
        assert s * (set q | q in ps) == covered + {x};
      } else {
        assert s * (set q | q in ps) == covered;
      }
    }
  }

  /** Counting the members of a set that a key order covers completely. */
  lemma HitsOfSubset<V>(order: seq<Page>, m: map<Page, V>, s: set<Page>)
    requires Enumerates(order, m)
    requires s <= m.Keys
    ensures Hits(order, s) == |s|
  {
    HitsCount(order, s);
    assert s * (set q | q in order) == s;
  }

  /** The key order is as long as the dictionary: `len(corpus)` pages. */
  lemma SizeIsLength(c: Corpus)
    requires Keyed(c)
    ensures Size(c) == |c.pages|
  {
    HitsOfSubset(c.pages, c.links, c.links.Keys);
    HitsAll(c.pages, c.links.Keys);
  }

  /** Every entry of a list counts when the set holds all of them. */
  lemma {:induction false} HitsAll(ps: seq<Page>, s: set<Page>)
    requires forall i | 0 <= i < |ps| :: ps[i] in s
    ensures Hits(ps, s) == |ps|
  {
    if |ps| > 0 {
      HitsAll(ps[..|ps| - 1], s);
    }
  }
}
