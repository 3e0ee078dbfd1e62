/** `iterate_pagerank`: synchronous rounds of the PageRank recurrence until
    no page's rank moves by more than the threshold. */
module Iteration {
  import opened PageCorpus
  import opened Ranks
  import opened Transition
  import opened Sums

  /** `convergenceThreshold` */
  const THRESHOLD: real := 0.001

  function Abs(x: real): (r: real)
    ensures r >= 0.0 && (r == x || r == -x)
  {
    if x < 0.0 then -x else x
  }

  /** The ranks hold one entry per corpus page. */
  predicate RankOn(c: Corpus, rank: map<Page, real>)
  {
    rank.Keys == c.links.Keys
  }

  /** The pages listed are those of the corpus (as in `Keyed`, but
      repetitions do not matter). */
  predicate Listed(c: Corpus)
  {
    && (forall p | p in c.pages :: p in c.links)
    && (forall p | p in c.links :: p in c.pages)
  }

  /** The rank that page `q` passes to page `pg` in one round: a share of
      its rank for each of its links, or for every page when it has none. */
  function Contribution(c: Corpus, d: real, rank: map<Page, real>, q: Page, pg: Page): real
    requires RankOn(c, rank) && q in c.links
  {
    if pg in c.links[q] then d * rank[q] / (|c.links[q]| as real)
    else if |c.links[q]| == 0 then d * rank[q] / (Size(c) as real)
    else 0.0
  }

  /** What each page passes to each page in one round, as a `Flow` (a
      giver outside the corpus passes nothing). */
  function Passes(c: Corpus, d: real, rank: map<Page, real>): Flow
  {
    (q, pg) => if RankOn(c, rank) && q in c.links then Contribution(c, d, rank, q, pg) else 0.0
  }

  /** `newRank` of page `pg` after one round: the teleport share plus what
      every page passes to `pg`, added in the order of `corpus.items()`. */
  function NewRank(c: Corpus, d: real, rank: map<Page, real>, pg: Page): real
    requires Size(c) > 0 && RankOn(c, rank)
  {
    (1.0 - d) / (Size(c) as real) + Into(Passes(c, d, rank), c.pages, pg)
  }

  /** `newPageRank` after the pages `ps`: each page's new rank, computed
      from the previous round's ranks only. */
  function RoundOver(c: Corpus, d: real, rank: map<Page, real>, ps: seq<Page>): map<Page, real>
    requires Size(c) > 0 && RankOn(c, rank)
  {
    if |ps| == 0 then map[]
    else RoundOver(c, d, rank, ps[..|ps| - 1])[ps[|ps| - 1] := NewRank(c, d, rank, ps[|ps| - 1])]
  }

  /** One round: `newPageRank` after every page of the corpus. */
  function Round(c: Corpus, d: real, rank: map<Page, real>): map<Page, real>
    requires Size(c) > 0 && RankOn(c, rank)
  {
    RoundOver(c, d, rank, c.pages)
  }

  /** After the pages `ps`, `newPageRank` holds exactly those pages, each
      with its new rank. */
  lemma {:induction false} RoundOverEntries(c: Corpus, d: real, rank: map<Page, real>, ps: seq<Page>)
    requires Size(c) > 0 && RankOn(c, rank)
    ensures forall pg :: pg in RoundOver(c, d, rank, ps) <==> pg in ps
    ensures forall pg | pg in RoundOver(c, d, rank, ps) :: RoundOver(c, d, rank, ps)[pg] == NewRank(c, d, rank, pg)
  {
    if |ps| > 0 {
      RoundOverEntries(c, d, rank, ps[..|ps| - 1]);
      assert ps == ps[..|ps| - 1] + [ps[|ps| - 1]];
    }
  }

  /** Each page `ps[i]` has its new rank after the pages `ps`. */
  lemma RoundOverAt(c: Corpus, d: real, rank: map<Page, real>, ps: seq<Page>)
    requires Size(c) > 0 && RankOn(c, rank)
    ensures forall i | 0 <= i < |ps| ::
      ps[i] in RoundOver(c, d, rank, ps) && RoundOver(c, d, rank, ps)[ps[i]] == NewRank(c, d, rank, ps[i])
  {
    RoundOverEntries(c, d, rank, ps);
    assert forall i | 0 <= i < |ps| :: ps[i] in ps;
  }

  /** A round holds one entry per corpus page. */
  lemma RoundKeys(c: Corpus, d: real, rank: map<Page, real>)
    requires Listed(c) && Size(c) > 0 && RankOn(c, rank)
    ensures RankOn(c, Round(c, d, rank))
  {
    RoundOverEntries(c, d, rank, c.pages);
  }

  /** How far page `pg` moved between two rounds. */
  function Moved(prev: map<Page, real>, next: map<Page, real>, pg: Page): real
    requires pg in prev && pg in next
  {
    Abs(prev[pg] - next[pg])
  }

  /** The convergence loop over the pages `ps`: none of them moved by more
      than the threshold. */
  predicate SettledOn(ps: seq<Page>, prev: map<Page, real>, next: map<Page, real>)
  {
    if |ps| == 0 then true
    else
      var pg := ps[|ps| - 1];
      SettledOn(ps[..|ps| - 1], prev, next) && (pg in prev && pg in next ==> Moved(prev, next, pg) <= THRESHOLD)
  }

  /** The convergence test of one round, over the pages of the corpus. */
  predicate Settled(c: Corpus, prev: map<Page, real>, next: map<Page, real>)
    requires RankOn(c, prev) && RankOn(c, next)
  {
    SettledOn(c.pages, prev, next)
  }

  /** Over pages both tables hold, the loop finds nothing exactly when no
      page moved by more than the threshold. */
  lemma {:induction false} SettledOnEvery(ps: seq<Page>, prev: map<Page, real>, next: map<Page, real>)
    requires forall i | 0 <= i < |ps| :: ps[i] in prev && ps[i] in next
    ensures SettledOn(ps, prev, next) <==> forall i | 0 <= i < |ps| :: Moved(prev, next, ps[i]) <= THRESHOLD
  {
    if |ps| > 0 {
      SettledOnEvery(ps[..|ps| - 1], prev, next);
    }
  }

  /** A round settled exactly when no page of the corpus moved by more
      than the threshold. */
  lemma SettledIsNoneMoved(c: Corpus, prev: map<Page, real>, next: map<Page, real>)
    requires Listed(c) && RankOn(c, prev) && RankOn(c, next)
    ensures Settled(c, prev, next) <==> forall pg | pg in c.links :: Moved(prev, next, pg) <= THRESHOLD
  {
    assert Within(c, c.pages);
    SettledOnEvery(c.pages, prev, next);
    if Settled(c, prev, next) {
      forall pg | pg in c.links
        ensures Moved(prev, next, pg) <= THRESHOLD
      {
        var i :| 0 <= i < |c.pages| && c.pages[i] == pg;
      }
    }
  }

  /** The starting ranks: `1 / N` for every page. */
  function Initial(c: Corpus): (r: map<Page, real>)
    requires Size(c) > 0
    ensures RankOn(c, r)
  {
    map pg | pg in c.links :: 1.0 / (Size(c) as real)
  }

  /** How the loop ends: with the round that settled, or, when the round
      budget runs out first, with the last round computed. */
  datatype Estimate = Converged(ranks: map<Page, real>) | Capped(ranks: map<Page, real>)

  /** The shape of the `while not CONVERGENCE` loop for a round function
      `step` and a convergence test `settled`, allowed at most `fuel`
      rounds: compute the next round, test it against the previous one, and
      stop with it or go on from it. */
  function Loop(step: map<Page, real> -> map<Page, real>, settled: (map<Page, real>, map<Page, real>) -> bool,
                rank: map<Page, real>, fuel: nat): Estimate
    decreases fuel
  {
    if fuel == 0 then Capped(rank)
    else
      var next := step(rank);
      if settled(rank, next) then Converged(next) else Loop(step, settled, next, fuel - 1)
  }

  /** `k` applications of `step` to `rank`. */
  function Steps(step: map<Page, real> -> map<Page, real>, rank: map<Page, real>, k: nat): map<Page, real>
    decreases k
  {
    if k == 0 then rank else Steps(step, step(rank), k - 1)
  }

  /** What `step` keeps, `k` steps keep. */
  lemma {:induction false} StepsKeep(step: map<Page, real> -> map<Page, real>, inv: map<Page, real> -> bool,
                                     rank: map<Page, real>, k: nat)
    requires inv(rank)
    requires forall m | inv(m) :: inv(step(m))
    ensures inv(Steps(step, rank, k))
    decreases k
  {
    if k > 0 {
      StepsKeep(step, inv, step(rank), k - 1);
    }
  }

  /** The round of `iterate_pagerank` as a function on rank tables (a table
      with other keys is left as it is; the loop never builds one). */
  function RoundStep(c: Corpus, d: real): map<Page, real> -> map<Page, real>
    requires Size(c) > 0
  {
    rank => if RankOn(c, rank) then Round(c, d, rank) else rank
  }

  /** The convergence test of `iterate_pagerank` as a function. */
  function SettledTest(c: Corpus): (map<Page, real>, map<Page, real>) -> bool
  {
    (prev, next) => RankOn(c, prev) && RankOn(c, next) && Settled(c, prev, next)
  }

  /** The loop of `iterate_pagerank` from the ranks `rank`. */
  function Iterate(c: Corpus, d: real, rank: map<Page, real>, fuel: nat): Estimate
    requires Size(c) > 0
  {
    Loop(RoundStep(c, d), SettledTest(c), rank, fuel)
  }

  /** `k` rounds from `rank`. */
  function Rounds(c: Corpus, d: real, rank: map<Page, real>, k: nat): map<Page, real>
    requires Size(c) > 0
  {
    Steps(RoundStep(c, d), rank, k)
  }

  // ---------------------------------------------------------------------
  // Total rank is preserved by a round.

  /** Over pages of the corpus, `q` passes the same share to each of its
      targets and nothing to the other pages. */
  lemma {:induction false} OutflowSplit(c: Corpus, d: real, rank: map<Page, real>, q: Page, ps: seq<Page>)
    requires RankOn(c, rank) && q in c.links && Within(c, ps)
    ensures OutOf(Passes(c, d, rank), q, ps)
         == (Hits(ps, Targets(c, q)) as real) * (d * rank[q] / (|Targets(c, q)| as real))
  {
    if |ps| > 0 {
      OutflowSplit(c, d, rank, q, ps[..|ps| - 1]);
    }
  }

  lemma Positive(n: real)
    requires n > 0.0
    ensures 1.0 / n > 0.0
  {
  }

  lemma Cancel(n: real, x: real)
    requires n > 0.0
    ensures n * (x / n) == x
  {
  }

  /** The facts about a corpus that the mass of a round depends on: `N` is
      the number of pages listed, every listed page is a corpus page, and
      the targets of each page are listed once each. */
  predicate Counted(c: Corpus)
  {
    && Size(c) == |c.pages|
    && Within(c, c.pages)
    && forall q | q in c.links :: Hits(c.pages, Targets(c, q)) == |Targets(c, q)|
  }

  /** A well-formed corpus is listed and counted. */
  lemma WellFormedIsCounted(c: Corpus)
    requires WellFormed(c)
    ensures Listed(c) && Counted(c)
  {
    SizeIsLength(c);
    forall q | q in c.links
      ensures Hits(c.pages, Targets(c, q)) == |Targets(c, q)|
    {
      HitsOfSubset(c.pages, c.links, Targets(c, q));
    }
  }

  /** Over the listed pages, `q` passes on exactly `d` times its rank: a page
      with links splits it over them, a dangling page over all `N` pages. */
  lemma OutflowOfPage(c: Corpus, d: real, rank: map<Page, real>, q: Page)
    requires Counted(c) && RankOn(c, rank) && q in c.links
    ensures OutOf(Passes(c, d, rank), q, c.pages) == d * rank[q]
  {
    assert Hits(c.pages, Targets(c, q)) == |Targets(c, q)|;
    OutflowOfTargets(c, d, rank, q);
  }

  lemma OutflowOfTargets(c: Corpus, d: real, rank: map<Page, real>, q: Page)
    requires Within(c, c.pages) && RankOn(c, rank) && q in c.links
    requires Hits(c.pages, Targets(c, q)) == |Targets(c, q)|
    ensures OutOf(Passes(c, d, rank), q, c.pages) == d * rank[q]
  {
    var s := Targets(c, q);
    OutflowSplit(c, d, rank, q, c.pages);
    ShareTotal(OutOf(Passes(c, d, rank), q, c.pages), Hits(c.pages, s) as real, |s| as real, d * rank[q]);
  }

  /** `h` shares of `x / l` with `h = l` make `x`. */
  lemma ShareTotal(o: real, h: real, l: real, x: real)
    requires l > 0.0 && h == l && o == h * (x / l)
    ensures o == x
  {
    Cancel(l, x);
  }

  /** Every page passes on `d` times its rank. */
  lemma EveryPagePasses(c: Corpus, d: real, rank: map<Page, real>)
    requires Counted(c) && RankOn(c, rank)
    ensures PassesScaled(Passes(c, d, rank), d, rank, c.pages)
  {
    forall i | 0 <= i < |c.pages|
      ensures c.pages[i] in rank && OutOf(Passes(c, d, rank), c.pages[i], c.pages) == d * rank[c.pages[i]]
    {
      OutflowOfPage(c, d, rank, c.pages[i]);
    }
  }

  /** So all that the pages pass in a round is `d` times the total rank. */
  lemma PassedTotal(c: Corpus, d: real, rank: map<Page, real>)
    requires Counted(c) && RankOn(c, rank)
    ensures TotalInto(Passes(c, d, rank), c.pages, c.pages) == d * Mass(c.pages, rank)
    ensures Mass(c.pages, rank) == 1.0 ==> TotalInto(Passes(c, d, rank), c.pages, c.pages) == d
  {
    EveryPagePasses(c, d, rank);
    ReceivedTotal(Passes(c, d, rank), d, rank, c.pages);
  }

  /** Each listed page holds the teleport share plus its inflow. */
  lemma RoundInflows(c: Corpus, d: real, rank: map<Page, real>)
    requires Size(c) > 0 && RankOn(c, rank)
    ensures forall i | 0 <= i < |c.pages| ::
      && c.pages[i] in Round(c, d, rank)
      && Round(c, d, rank)[c.pages[i]] == (1.0 - d) / (Size(c) as real) + Into(Passes(c, d, rank), c.pages, c.pages[i])
  {
    RoundOverAt(c, d, rank, c.pages);
  }

  /** A round's total rank: the `N` teleport shares, which make `1 - d`,
      plus all that the pages pass. */
  lemma RoundTotal(c: Corpus, d: real, rank: map<Page, real>)
    requires Size(c) > 0 && Size(c) == |c.pages| && RankOn(c, rank)
    ensures Mass(c.pages, Round(c, d, rank)) == (1.0 - d) + TotalInto(Passes(c, d, rank), c.pages, c.pages)
  {
    RoundInflows(c, d, rank);
    MassOfTeleportAndInflows(Passes(c, d, rank), Round(c, d, rank), d, c.pages);
  }

  /** One round turns total rank `m` into `(1 - d) + d * m`; in particular
      it keeps total rank 1. */
  lemma RoundMass(c: Corpus, d: real, rank: map<Page, real>)
    requires Counted(c) && Size(c) > 0 && RankOn(c, rank)
    ensures Mass(c.pages, Round(c, d, rank)) == (1.0 - d) + d * Mass(c.pages, rank)
  {
    RoundTotal(c, d, rank);
    PassedTotal(c, d, rank);
  }

  // ---------------------------------------------------------------------
  // Ranks stay non-negative.

  lemma {:induction false} InflowNonNegative(c: Corpus, d: real, rank: map<Page, real>, qs: seq<Page>, pg: Page)
    requires RankOn(c, rank) && d >= 0.0 && forall q | q in rank :: rank[q] >= 0.0
    ensures Into(Passes(c, d, rank), qs, pg) >= 0.0
  {
    if |qs| > 0 {
      var q := qs[|qs| - 1];
      InflowNonNegative(c, d, rank, qs[..|qs| - 1], pg);
      if q in c.links {
        assert d * rank[q] >= 0.0;
      }
    }
  }

  /** For `0 <= d <= 1` a round of a distribution is a distribution. */
  lemma RoundIsDistribution(c: Corpus, d: real, rank: map<Page, real>)
    requires Listed(c) && Counted(c) && Size(c) > 0 && 0.0 <= d <= 1.0
    requires IsDistribution(c, rank)
    ensures IsDistribution(c, Round(c, d, rank))
  {
    RoundNonNegative(c, d, rank);
    RoundTotal(c, d, rank);
    PassedTotal(c, d, rank);
  }

  /** For `0 <= d <= 1` a round of non-negative ranks is non-negative. */
  lemma RoundNonNegative(c: Corpus, d: real, rank: map<Page, real>)
    requires Listed(c) && Size(c) > 0 && 0.0 <= d <= 1.0 && IsTable(c, rank)
    ensures IsTable(c, Round(c, d, rank))
  {
    var next := Round(c, d, rank);
    RoundKeys(c, d, rank);
    RoundOverEntries(c, d, rank, c.pages);
    TeleportNonNegative(Size(c) as real, d);
    forall pg | pg in next
      ensures next[pg] >= 0.0
    {
      InflowNonNegative(c, d, rank, c.pages, pg);
    }
  }

  lemma TeleportNonNegative(n: real, d: real)
    requires n > 0.0 && d <= 1.0
    ensures (1.0 - d) / n >= 0.0
  {
  }

  /** Every page starts at `1 / N`, which sums to 1. */
  lemma InitialIsDistribution(c: Corpus)
    requires Keyed(c) && Size(c) > 0
    ensures IsDistribution(c, Initial(c))
  {
    SizeIsLength(c);
    assert Within(c, c.pages);
    InitialMass(c);
  }

  lemma InitialMass(c: Corpus)
    requires Size(c) > 0 && Size(c) == |c.pages| && Within(c, c.pages)
    ensures IsDistribution(c, Initial(c))
  {
    var m := Initial(c);
    var n := Size(c) as real;
    Positive(n);
    assert forall i | 0 <= i < |c.pages| :: c.pages[i] in m && m[c.pages[i]] == 1.0 / n + (if c.pages[i] in {} then 0.0 else 0.0);
    MassOfSplit(c.pages, m, {}, 1.0 / n, 0.0);
    Cancel(n, 1.0);
  }

  /** On rank tables the round function is `Round`. */
  lemma StepIsRound(c: Corpus, d: real, rank: map<Page, real>)
    requires Size(c) > 0 && RankOn(c, rank)
    ensures RoundStep(c, d)(rank) == Round(c, d, rank)
  {
  }

  /** Each round of a distribution is one, so every round is. */
  lemma RoundsAreDistributions(c: Corpus, d: real, rank: map<Page, real>, k: nat)
    requires Listed(c) && Counted(c) && Size(c) > 0 && 0.0 <= d <= 1.0
    requires IsDistribution(c, rank)
    ensures IsDistribution(c, Rounds(c, d, rank, k))
  {
    forall m | IsDistribution(c, m)
      ensures IsDistribution(c, RoundStep(c, d)(m))
    {
      StepIsRound(c, d, m);
      RoundIsDistribution(c, d, m);
    }
    StepsKeep(RoundStep(c, d), m => IsDistribution(c, m), rank, k);
  }

  // ---------------------------------------------------------------------
  // What the loop returns.

  /** The loop returns the ranks of its last round, `k`. It reports
      convergence exactly when round `k` settled, and no earlier round did;
      it reports the cap only after `fuel` rounds none of which settled. */
  lemma {:induction false} LoopIsFirstSettledRound(step: map<Page, real> -> map<Page, real>,
                                                  settled: (map<Page, real>, map<Page, real>) -> bool,
                                                  rank: map<Page, real>, fuel: nat) returns (k: nat)
    ensures k <= fuel
    ensures Loop(step, settled, rank, fuel).ranks == Steps(step, rank, k)
    ensures forall j | 0 < j < k :: !settled(Steps(step, rank, j - 1), Steps(step, rank, j))
    ensures Loop(step, settled, rank, fuel).Converged?
        <==> 0 < k && settled(Steps(step, rank, k - 1), Steps(step, rank, k))
    ensures Loop(step, settled, rank, fuel).Capped? ==> k == fuel
    decreases fuel
  {
    if fuel == 0 {
      k := 0;
    } else {
      var next := step(rank);
      assert Steps(step, rank, 1) == next;
      if settled(rank, next) {
        k := 1;
      } else {
        var k' := LoopIsFirstSettledRound(step, settled, next, fuel - 1);
        k := k' + 1;
        forall j | 0 < j <= k
          ensures Steps(step, rank, j) == Steps(step, next, j - 1)
        {
        }
      }
    }
  }

  /** The ranks the loop returns form a distribution. */
  lemma IterateIsDistribution(c: Corpus, d: real, fuel: nat)
    requires WellFormed(c) && Size(c) > 0 && 0.0 <= d <= 1.0
    ensures IsDistribution(c, Iterate(c, d, Initial(c), fuel).ranks)
  {
    var k := LoopIsFirstSettledRound(RoundStep(c, d), SettledTest(c), Initial(c), fuel);
    WellFormedIsCounted(c);
    InitialMass(c);
    RoundsAreDistributions(c, d, Initial(c), k);
  }

  /** Every round has an entry for each page of the corpus. */
  lemma RoundsKeys(c: Corpus, d: real, rank: map<Page, real>, k: nat)
    requires Listed(c) && Size(c) > 0 && RankOn(c, rank)
    ensures RankOn(c, Rounds(c, d, rank, k))
  {
    forall m | RankOn(c, m)
      ensures RankOn(c, RoundStep(c, d)(m))
    {
      StepIsRound(c, d, m);
      RoundKeys(c, d, m);
    }
    StepsKeep(RoundStep(c, d), m => RankOn(c, m), rank, k);
  }

  /** The loop stops with round `k`: it reports convergence exactly when no
      page moved by more than the threshold from round `k - 1` to round `k`,
      and no earlier round settled; otherwise the round budget ran out. */
  lemma IterateStopsWhenSettled(c: Corpus, d: real, rank: map<Page, real>, fuel: nat) returns (k: nat)
    requires Listed(c) && Size(c) > 0 && RankOn(c, rank)
    ensures k <= fuel && RankOn(c, Rounds(c, d, rank, k))
    ensures Iterate(c, d, rank, fuel).ranks == Rounds(c, d, rank, k)
    ensures 0 < k ==> RankOn(c, Rounds(c, d, rank, k - 1))
    ensures Iterate(c, d, rank, fuel).Converged?
        <==> 0 < k && forall pg | pg in c.links :: Moved(Rounds(c, d, rank, k - 1), Rounds(c, d, rank, k), pg) <= THRESHOLD
    ensures Iterate(c, d, rank, fuel).Capped? ==> k == fuel
    ensures forall j: nat {:trigger Rounds(c, d, rank, j)} | j + 1 < k ::
      && RankOn(c, Rounds(c, d, rank, j)) && RankOn(c, Rounds(c, d, rank, j + 1))
      && !Settled(c, Rounds(c, d, rank, j), Rounds(c, d, rank, j + 1))
  {
    k := LoopIsFirstSettledRound(RoundStep(c, d), SettledTest(c), rank, fuel);
    forall j: nat
      ensures RankOn(c, Rounds(c, d, rank, j))
    {
      RoundsKeys(c, d, rank, j);
    }
    if 0 < k {
      SettledIsNoneMoved(c, Rounds(c, d, rank, k - 1), Rounds(c, d, rank, k));
    }
  }

  // ---------------------------------------------------------------------
  // The loops of `iterate_pagerank`.

  /** One step of the loop: the next round, and a stop exactly when it
      settled. */
  lemma IterateStep(c: Corpus, d: real, rank: map<Page, real>, next: map<Page, real>, settled: bool, fuel: nat)
    requires Size(c) > 0 && RankOn(c, rank) && fuel > 0
    requires next == Round(c, d, rank) && RankOn(c, next) && settled == Settled(c, rank, next)
    ensures Iterate(c, d, rank, fuel) == if settled then Converged(next) else Iterate(c, d, next, fuel - 1)
  {
    StepIsRound(c, d, rank);
  }

  /** The inner loop over `corpus.items()`: the teleport share plus what
      every page passes to `pg`. */
  method ComputeNewRank(c: Corpus, d: real, rank: map<Page, real>, pg: Page) returns (newRank: real)
    requires Size(c) > 0 && RankOn(c, rank) && Within(c, c.pages)
    ensures newRank == NewRank(c, d, rank, pg)
  {
    var n := Size(c) as real;
    newRank := (1.0 - d) / n;
    for k := 0 to |c.pages|
      invariant newRank == (1.0 - d) / n + Into(Passes(c, d, rank), c.pages[..k], pg)
    {
      var linkingPg := c.pages[k];
      var linkedPg := c.links[linkingPg];
      assert c.pages[..k + 1][..k] == c.pages[..k];
      if pg in linkedPg {
        newRank := newRank + d * rank[linkingPg] / (|linkedPg| as real);
      } else if |linkedPg| == 0 {
        newRank := newRank + d * rank[linkingPg] / n;
      }
    }
    assert c.pages[..|c.pages|] == c.pages;
  }

  /** The outer loop over the pages: `newPageRank`, which is the round. */
  method ComputeRound(c: Corpus, d: real, rank: map<Page, real>) returns (newPageRank: map<Page, real>)
    requires Within(c, c.pages) && Size(c) > 0 && RankOn(c, rank)
    ensures newPageRank == Round(c, d, rank)
  {
    newPageRank := map[];
    for j := 0 to |c.pages|
      invariant newPageRank == RoundOver(c, d, rank, c.pages[..j])
    {
      var pg := c.pages[j];
      assert c.pages[..j + 1][..j] == c.pages[..j];
      var newRank := ComputeNewRank(c, d, rank, pg);
      newPageRank := newPageRank[pg := newRank];
    }
    assert c.pages[..|c.pages|] == c.pages;
  }

  /** The convergence loop: `CONVERGENCE` stays true exactly when no page
      moved by more than the threshold. */
  method CheckConvergence(c: Corpus, pageRank: map<Page, real>, newPageRank: map<Page, real>)
    returns (convergence: bool)
    requires Listed(c) && RankOn(c, pageRank) && RankOn(c, newPageRank)
    ensures convergence == Settled(c, pageRank, newPageRank)
  {
    assert Within(c, c.pages);
    convergence := true;
    for j := 0 to |c.pages|
      invariant convergence == SettledOn(c.pages[..j], pageRank, newPageRank)
    {
      var pg := c.pages[j];
      assert c.pages[..j + 1][..j] == c.pages[..j];
      if Abs(pageRank[pg] - newPageRank[pg]) > THRESHOLD {
        convergence := false;
      }
    }
    assert c.pages[..|c.pages|] == c.pages;
  }

  /** One pass of the `while not CONVERGENCE` body: the next round and the
      convergence test, which is where the loop goes from `pageRank`. */
  method Advance(c: Corpus, d: real, pageRank: map<Page, real>, fuel: nat)
    returns (newPageRank: map<Page, real>, convergence: bool)
    requires Listed(c) && Size(c) > 0 && RankOn(c, pageRank) && fuel > 0
    ensures newPageRank == Round(c, d, pageRank) && RankOn(c, newPageRank)
    ensures convergence == Settled(c, pageRank, newPageRank)
    ensures Iterate(c, d, pageRank, fuel)
         == if convergence then Converged(newPageRank) else Iterate(c, d, newPageRank, fuel - 1)
  {
    assert Within(c, c.pages);
    newPageRank := ComputeRound(c, d, pageRank);
    RoundKeys(c, d, pageRank);
    convergence := CheckConvergence(c, pageRank, newPageRank);
    IterateStep(c, d, pageRank, newPageRank, convergence, fuel);
  }

  /** The `while not CONVERGENCE` loop from `pageRank`, allowed at most
      `maxRounds` rounds. */
  method RunRounds(c: Corpus, d: real, pageRank: map<Page, real>, maxRounds: nat) returns (r: Estimate)
    requires Listed(c) && Size(c) > 0 && RankOn(c, pageRank)
    ensures r == Iterate(c, d, pageRank, maxRounds)
  {
    ghost var goal := Iterate(c, d, pageRank, maxRounds);
    var rank := pageRank;
    var convergence := false;
    var fuel := maxRounds;
    while !convergence && fuel > 0
      invariant RankOn(c, rank)
      invariant goal == if convergence then Converged(rank) else Iterate(c, d, rank, fuel)
    {
      rank, convergence := Advance(c, d, rank, fuel);
      fuel := fuel - 1;
    }
    r := if convergence then Converged(rank) else Capped(rank);
  }

  /** `iterate_pagerank(corpus, d)`, allowed at most `maxRounds` rounds. The
      empty corpus never divides by `N`: its single round is empty and
      settles at once. */
  method IteratePageRank(c: Corpus, d: real, maxRounds: nat) returns (r: Estimate)
    requires Keyed(c)
    ensures Size(c) == 0 ==> r == if maxRounds == 0 then Capped(map[]) else Converged(map[])
    ensures Size(c) > 0 ==> r == Iterate(c, d, Initial(c), maxRounds)
    ensures ClosedLinks(c.links) && Size(c) > 0 && 0.0 <= d <= 1.0 ==> IsDistribution(c, r.ranks)
  {
    if |c.links| == 0 {
      return if maxRounds == 0 then Capped(map[]) else Converged(map[]);
    }
    assert Listed(c);
    r := RunRounds(c, d, Initial(c), maxRounds);
    if ClosedLinks(c.links) && 0.0 <= d <= 1.0 {
      IterateIsDistribution(c, d, maxRounds);
    }
  }
}
