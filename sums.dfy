/** Sums of what pages pass to each other in one round, for any rule saying
    how much each page passes to each page. */
module Sums {
  import opened PageCorpus
  import opened Ranks

  /** `f(q, p)`: what page `q` passes to page `p`. */
  type Flow = (Page, Page) -> real

  /** What the pages `qs` pass to `p`, added up in the order of `qs`. */
  function Into(f: Flow, qs: seq<Page>, p: Page): real
  {
    if |qs| == 0 then 0.0 else Into(f, qs[..|qs| - 1], p) + f(qs[|qs| - 1], p)
  }

  /** What `q` passes to the pages `ps`, added up. */
  function OutOf(f: Flow, q: Page, ps: seq<Page>): real
  {
    if |ps| == 0 then 0.0 else OutOf(f, q, ps[..|ps| - 1]) + f(q, ps[|ps| - 1])
  }

  /** Everything the pages `ps` receive from the pages `qs`, by receiver. */
  function TotalInto(f: Flow, ps: seq<Page>, qs: seq<Page>): real
  {
    if |ps| == 0 then 0.0 else TotalInto(f, ps[..|ps| - 1], qs) + Into(f, qs, ps[|ps| - 1])
  }

  /** Everything the pages `qs` pass to the pages `ps`, by giver. */
  function TotalOutOf(f: Flow, qs: seq<Page>, ps: seq<Page>): real
  {
    if |qs| == 0 then 0.0 else TotalOutOf(f, qs[..|qs| - 1], ps) + OutOf(f, qs[|qs| - 1], ps)
  }

  lemma {:induction false} TotalIntoNone(f: Flow, ps: seq<Page>)
    ensures TotalInto(f, ps, []) == 0.0
  {
    if |ps| > 0 {
      TotalIntoNone(f, ps[..|ps| - 1]);
    }
  }

  /** One more giver `q` adds what `q` passes to all of `ps`. */
  lemma {:induction false} TotalIntoStep(f: Flow, ps: seq<Page>, qs: seq<Page>, q: Page)
    ensures TotalInto(f, ps, qs + [q]) == TotalInto(f, ps, qs) + OutOf(f, q, ps)
  {
    var qs' := qs + [q];
    assert qs'[..|qs'| - 1] == qs;
    if |ps| > 0 {
      TotalIntoStep(f, ps[..|ps| - 1], qs, q);
    }
  }

  /** Adding up by receiver or by giver gives the same total. */
  lemma {:induction false} SwapSums(f: Flow, ps: seq<Page>, qs: seq<Page>)
    ensures TotalInto(f, ps, qs) == TotalOutOf(f, qs, ps)
  {
    if |qs| == 0 {
      TotalIntoNone(f, ps);
    } else {
      var init, q := qs[..|qs| - 1], qs[|qs| - 1];
      SwapSums(f, ps, init);
      assert init + [q] == qs;
      TotalIntoStep(f, ps, init, q);
    }
  }

  /** `t = t0 + o` with `t0 = d * m0` and `o = d * r` is `d` times `m0 + r`. */
  lemma ScaledSum(d: real, t: real, t0: real, o: real, m: real, m0: real, r: real)
    requires t == t0 + o && t0 == d * m0 && o == d * r && m == m0 + r
    ensures t == d * m
  {
  }

  /** When each giver passes `d` times its entry of `m`, all of them
      together pass `d` times their total in `m`. */
  lemma {:induction false} TotalOutOfScaled(f: Flow, d: real, m: map<Page, real>, qs: seq<Page>, ps: seq<Page>)
    requires forall i | 0 <= i < |qs| :: qs[i] in m && OutOf(f, qs[i], ps) == d * m[qs[i]]
    ensures TotalOutOf(f, qs, ps) == d * Mass(qs, m)
  {
    if |qs| > 0 {
      var init, q := qs[..|qs| - 1], qs[|qs| - 1];
      TotalOutOfScaled(f, d, m, init, ps);
      ScaledSum(d, TotalOutOf(f, qs, ps), TotalOutOf(f, init, ps), OutOf(f, q, ps),
        Mass(qs, m), Mass(init, m), m[q]);
    }
  }

  /** A table whose entry for each page is `base` plus what the pages `qs`
      pass to it holds, over `ps`, `base` per page plus all of that. */
  lemma {:induction false} MassOfInflows(f: Flow, m: map<Page, real>, base: real, qs: seq<Page>, ps: seq<Page>)
    requires forall i | 0 <= i < |ps| :: ps[i] in m && m[ps[i]] == base + Into(f, qs, ps[i])
    ensures Mass(ps, m) == (|ps| as real) * base + TotalInto(f, ps, qs)
  {
    if |ps| > 0 {
      MassOfInflows(f, m, base, qs, ps[..|ps| - 1]);
    }
  }

  /** A table whose entry for each of the `n` pages `ps` is the share
      `(1 - d) / n` plus what `ps` pass to it holds `1 - d` plus all of that. */
  lemma MassOfTeleportAndInflows(f: Flow, m: map<Page, real>, d: real, ps: seq<Page>)
    requires |ps| > 0
    requires forall i | 0 <= i < |ps| :: ps[i] in m && m[ps[i]] == (1.0 - d) / (|ps| as real) + Into(f, ps, ps[i])
    ensures Mass(ps, m) == (1.0 - d) + TotalInto(f, ps, ps)
  {
    var n := |ps| as real;
    MassOfInflows(f, m, (1.0 - d) / n, ps, ps);
    assert n * ((1.0 - d) / n) == 1.0 - d;
  }

  /** Each of the pages `ps` passes to the pages `ps` `d` times its entry
      of `m`. */
  predicate PassesScaled(f: Flow, d: real, m: map<Page, real>, ps: seq<Page>)
  {
    forall i | 0 <= i < |ps| :: ps[i] in m && OutOf(f, ps[i], ps) == d * m[ps[i]]
  }

  /** When each of the pages `ps` passes `d` times its entry of `m` to the
      pages `ps`, they receive together `d` times their total. */
  lemma ReceivedTotal(f: Flow, d: real, m: map<Page, real>, ps: seq<Page>)
    requires PassesScaled(f, d, m, ps)
    ensures TotalInto(f, ps, ps) == d * Mass(ps, m)
    ensures Mass(ps, m) == 1.0 ==> TotalInto(f, ps, ps) == d
  {
    SwapSums(f, ps, ps);
    TotalOutOfScaled(f, d, m, ps, ps);
  }
}
