# PageRank and shopping bookkeeping, modelled in Dafny

This project models two small programs.

**PageRank** (`pagerank/pagerank.py`) covers four parts:
- `crawl` normalises a corpus of HTML pages into a link graph. Each page links to a set of other corpus pages and never to itself.
- `transition_model` gives the damped random surfer's next-page distribution.
- `sample_pagerank` estimates ranks by counting the pages one random walk visits.
- `iterate_pagerank` estimates them by iterating the PageRank equation until no page moves by more than 0.001.

**Shopping** (`shopping/shopping.py`) covers the bookkeeping around a nearest-neighbour classifier:
- `converMonth01`, the month table;
- the row encoding of `load_data`, which turns a row into a 17-entry evidence list and a 0/1 label;
- `evaluate`, the confusion-matrix count and the true positive and true negative rates.

Modelling choices:
- A corpus is a map from page to link set. It comes with the sequence of its keys in dictionary order (`PageCorpus.Corpus`), so every sum is added up in the order the program adds it.
- Probabilities and ranks are exact `real` numbers. "Sums to 1" is therefore an exact equality (`Ranks.IsDistribution`).
- Python's exceptions become an `Outcomes.Result`. The model has `KeyError` for a missing dictionary key and `ZeroDivisionError`. It has `IndexError` for `random.choice` on an empty list. It has `ValueError` for `random.choices` with weights whose total is not positive, which is how Python 3.9 and later behave.
- The random choices of `sample_pagerank` are an input: a sequence of draws. `Sampling.LegalDraws` requires every draw to be a corpus page. Each later draw must be a page that `Transition.Follows` allows after the previous page. For `0 <= d <= 1` these are exactly the pages of positive weight (`Transition.FollowsIsSupport`).
- A page is blocked (`Transition.Blocked`) when all its weights add up to 0 or less (exactly 0 when `0 <= d <= 1`). This happens for `d = 1` on a page whose links all lie outside the corpus (`Transition.BlockedOutsideLinks`; `Transition.BlockedOutsideLink` is one instance). `random.choices` then raises `ValueError`, and the draws after a blocked page are unconstrained. A well-formed corpus has no blocked page (`Transition.NeverBlocked`).
- `iterate_pagerank`'s `while` loop has no termination argument. The model gives it a budget of rounds. The result says whether the loop converged within the budget (`Iteration.Estimate`).
- The mass argument is the heart of the iteration proof. One round gives `(1 - d)` in teleport shares plus `d` times the old total. Every page passes exactly `d` times its rank, and a dangling page spreads it over all `N` pages. This is stated for any flow of rank between pages in `Sums` and applied in `Iteration`.
- The docstring of `load_data` lists Month as the eleventh evidence entry. The code, which this model follows, puts the month index first (`Shopping.Evidence`).

## Model

| member | source | states |
|---|---|---|
| `PageCorpus.OwnLinks` | pagerank/pagerank.py:39 | a page's link set holds exactly the distinct anchors of the page other than the page itself |
| `PageCorpus.KeepCorpusLinks` | pagerank/pagerank.py:42-46 | the second pass keeps every key; a link stays exactly when it names a key |
| `PageCorpus.Normalize` | pagerank/pagerank.py:39-46 | after both passes the keys are the crawled pages; `q` is a link of `p` exactly when `p`'s page names `q`, `q` is not `p`, and `q` is a crawled page; so no page links to itself and every link is a key |
| `PageCorpus.Crawl` | pagerank/pagerank.py:27-48 | the corpus built from a directory listing satisfies the graph and ordering invariants; `q` is a link of `p` exactly when `p`'s page names `q`, `q` is not `p`, and `q` is a crawled page |
| `PageCorpus.NormalizeKeepsClosedLinks` | pagerank/pagerank.py:39-46 | on a graph that already satisfies the invariant, both passes change nothing |
| `Transition.Targets` | pagerank/pagerank.py:63-67 | the pages a link is followed to: the page's own links when it has some, otherwise every corpus page, itself included; never empty |
| `Transition.TransitionModel` | pagerank/pagerank.py:51-79 | `KeyError` exactly when the page is not in the corpus; otherwise exactly one probability per corpus page |
| `Transition.TransitionLinked` | pagerank/pagerank.py:63-77 | for a page with links `L`, a page in `L` gets `(1-d)/N + d/len(L)` and any other page `(1-d)/N` |
| `Transition.TransitionDangling` | pagerank/pagerank.py:66-74 | for a page without links, every page, itself included, gets `1/N` |
| `Transition.TransitionIsDistribution` | pagerank/pagerank.py:60-79 | on a well-formed corpus with `0 <= d <= 1`, the probabilities are non-negative and sum to exactly 1 |
| `Transition.TransitionMass` | pagerank/pagerank.py:60-79 | on a well-formed corpus the probabilities sum to exactly 1 for every `d` |
| `Transition.TotalWeightIsMass` | pagerank/pagerank.py:100-104 | the total of the weights `random.choices` gets is the mass of the transition model |
| `Transition.NeverBlocked` | pagerank/pagerank.py:100-104 | on a well-formed corpus the weights of every page have a positive total, so `random.choices` never raises |
| `Transition.OutsideLinksWeighNothing` | pagerank/pagerank.py:60-77 | for `d = 1`, a page with links that all leave the corpus gives every corpus page weight 0 |
| `Transition.BlockedOutsideLinks` | pagerank/pagerank.py:100-104 | for `d = 1`, every page with links that all leave the corpus is blocked, so `random.choices` raises |
| `Transition.BlockedOutsideLink` | pagerank/pagerank.py:100-104 | an instance: the corpus `{"A": {"X"}}` with `d = 1` blocks page A |
| `Transition.FollowsIsSupport` | pagerank/pagerank.py:100-104 | the pages `random.choices` can pick are exactly those of positive weight: all pages while `d < 1`, the targets when `d = 1` |
| `Sampling.VisitsAppend` | pagerank/pagerank.py:106 | visiting one more page adds one to that page's counter and to no other |
| `Sampling.TotalVisitsStep` | pagerank/pagerank.py:106 | every step adds exactly one to the total of the counters |
| `Sampling.TallyStep` | pagerank/pagerank.py:106 | the counter update keeps every counter equal to the page's number of visits in the walk |
| `Sampling.TalliesAreCounters` | pagerank/pagerank.py:94-107 | counters that hold each page's visits are the walk's counters |
| `Sampling.WalkLength` | pagerank/pagerank.py:96-99 | the walk visits exactly `n` pages when `n >= 1`, and only the start page otherwise |
| `Sampling.UnstuckEvery` | pagerank/pagerank.py:99-104 | a walk is unstuck exactly when none of the pages it leaves is blocked |
| `Sampling.UnstuckStep` | pagerank/pagerank.py:99-104 | one more step leaves the walk unstuck exactly when it was and the page it leaves is not blocked |
| `Sampling.UnstuckPrefix` | pagerank/pagerank.py:99-104 | every prefix of an unstuck walk is unstuck |
| `Sampling.StuckStays` | pagerank/pagerank.py:99-104 | once the walk is stuck, a longer walk is stuck too |
| `Sampling.WellFormedUnstuck` | pagerank/pagerank.py:99-104 | on a well-formed corpus every walk is unstuck |
| `Sampling.CountersSumToLength` | pagerank/pagerank.py:94-107 | over the corpus the counters sum to the number of pages the walk visited |
| `Sampling.MassOfSampleRanks` | pagerank/pagerank.py:109-111 | dividing every counter by `n` divides their total by `n` |
| `Sampling.SampleRanksAreDistribution` | pagerank/pagerank.py:109-113 | each rank `count/n` lies in [0, 1] and the ranks sum to exactly 1 |
| `Sampling.Walk` | pagerank/pagerank.py:94-107 | `ValueError` exactly when the walk of the first `n` draws is stuck; otherwise each page's counter equals its number of visits among those draws (the start page and `n - 1` steps) |
| `Sampling.Normalized` | pagerank/pagerank.py:109-111 | the final loop gives every page the rank `count/n` |
| `Sampling.RanksOf` | pagerank/pagerank.py:109-113 | the ranks of a walk's counters are `count/n`; for a walk of `n >= 1` pages they form a distribution |
| `Sampling.SamplePageRank` | pagerank/pagerank.py:83-113 | `IndexError` on an empty corpus; `ValueError` exactly when the walk is stuck, never on a well-formed corpus; otherwise `ZeroDivisionError` for `n = 0` and the visit counts over `n` else; for `n >= 1` a distribution |
| `Sums.SwapSums` | pagerank/pagerank.py:133-144 | what the pages receive, added up by receiver, equals what they pass, added up by giver |
| `Sums.TotalOutOfScaled` | pagerank/pagerank.py:136-142 | when each giver passes `d` times its rank, all givers together pass `d` times the total rank |
| `Sums.MassOfInflows` | pagerank/pagerank.py:133-144 | a table of base shares plus inflows totals base times pages plus all inflows |
| `Sums.MassOfTeleportAndInflows` | pagerank/pagerank.py:133-144 | with the teleport share `(1-d)/N` the teleport parts total exactly `1 - d` |
| `Sums.ReceivedTotal` | pagerank/pagerank.py:133-144 | the pages receive in total `d` times their total rank, so `d` when that total is 1 |
| `Iteration.Abs` | pagerank/pagerank.py:148 | the absolute difference is non-negative and equals the difference or its negation |
| `Iteration.Initial` | pagerank/pagerank.py:125-126 | the starting table has one entry per corpus page |
| `Iteration.InitialIsDistribution` | pagerank/pagerank.py:125-126 | the starting ranks `1/N` form a distribution |
| `Iteration.RoundOverEntries` | pagerank/pagerank.py:131-144 | after the pages so far, `newPageRank` holds exactly those pages, each with its new rank computed from the previous round's table only |
| `Iteration.RoundKeys` | pagerank/pagerank.py:131-144 | a round has exactly one entry per corpus page |
| `Iteration.OutflowSplit` | pagerank/pagerank.py:136-142 | page `q` passes each of its targets the share `d * rank[q]` divided by the number of its targets |
| `Iteration.OutflowOfPage` | pagerank/pagerank.py:136-142 | over the whole corpus every page passes exactly `d` times its rank, dangling pages included |
| `Iteration.PassedTotal` | pagerank/pagerank.py:133-144 | in one round the pages pass in total `d` times the old total rank |
| `Iteration.RoundTotal` | pagerank/pagerank.py:133-144 | a round's total is `1 - d` plus everything passed |
| `Iteration.RoundMass` | pagerank/pagerank.py:131-144 | a round's total rank is `(1 - d) + d` times the old total, so it stays 1 |
| `Iteration.RoundNonNegative` | pagerank/pagerank.py:131-144 | for `0 <= d <= 1` a round of non-negative ranks is non-negative |
| `Iteration.RoundIsDistribution` | pagerank/pagerank.py:131-144 | on a well-formed corpus a round of a distribution is a distribution |
| `Iteration.RoundsAreDistributions` | pagerank/pagerank.py:130-151 | every round reached from a distribution is one |
| `Iteration.SettledOnEvery` | pagerank/pagerank.py:145-149 | the convergence flag stays true over a list of pages exactly when none moved by more than the threshold |
| `Iteration.SettledIsNoneMoved` | pagerank/pagerank.py:145-149 | a round settles exactly when every corpus page moved by at most 0.001 |
| `Iteration.LoopIsFirstSettledRound` | pagerank/pagerank.py:130-153 | the loop returns its last round's table; it converged exactly when that round settled, and no earlier round did |
| `Iteration.IterateStopsWhenSettled` | pagerank/pagerank.py:127-153 | `iterate_pagerank` returns round `k`, stopping exactly when every page moved by at most 0.001 from round `k-1` to `k`, after `k-1` rounds that each had some page move more |
| `Iteration.IterateIsDistribution` | pagerank/pagerank.py:115-153 | on a well-formed corpus with `0 <= d <= 1` the returned ranks form a distribution |
| `Iteration.IterateStep` | pagerank/pagerank.py:130-151 | one pass of the loop body computes the next round and stops exactly when it settled |
| `Iteration.ComputeNewRank` | pagerank/pagerank.py:134-142 | the inner loop over `corpus.items()` computes the teleport share plus what every page passes to `pg` |
| `Iteration.ComputeRound` | pagerank/pagerank.py:131-144 | the loop over the pages builds exactly the round |
| `Iteration.CheckConvergence` | pagerank/pagerank.py:145-149 | the convergence loop yields `True` exactly when the round settled |
| `Iteration.Advance` | pagerank/pagerank.py:131-151 | one pass of the `while` body yields the next round and the flag saying whether that round settled, which is one step of the iteration |
| `Iteration.RunRounds` | pagerank/pagerank.py:130-153 | the `while` loop computes the iteration from the given table |
| `Iteration.IteratePageRank` | pagerank/pagerank.py:115-153 | the iteration from the `1/N` table; an empty corpus converges to the empty table after one empty round; on a well-formed corpus with `0 <= d <= 1` the ranks form a distribution |
| `Shopping.ConvertMonth` | shopping/shopping.py:34-41 | an index in 0..11 naming that month in calendar order for the twelve table keys, `KeyError` for every other string |
| `Shopping.MonthsInCalendarOrder` | shopping/shopping.py:36-39 | the months are numbered 0 to 11 in calendar order |
| `Shopping.MonthsOneToOne` | shopping/shopping.py:36-39 | different month names get different indices |
| `Shopping.JunIsKeyError` | shopping/shopping.py:37-41 | June is keyed `June`, so `Jun` raises `KeyError` |
| `Shopping.Flag` | shopping/shopping.py:94-100 | a string field becomes 1 exactly when it equals the marked value, 0 otherwise |
| `Shopping.VisitorFlag` | shopping/shopping.py:94 | VisitorType becomes 1 exactly for `Returning_Visitor`, 0 otherwise |
| `Shopping.WeekendFlag` | shopping/shopping.py:95 | Weekend becomes 1 exactly for `TRUE`, 0 otherwise |
| `Shopping.Label` | shopping/shopping.py:100 | the label is 1 exactly when Revenue is `TRUE`, 0 otherwise |
| `Shopping.Evidence` | shopping/shopping.py:76-97 | `KeyError` exactly for an unknown month; otherwise 17 entries, with the month index at position 0 and the two flags at positions 15 and 16 |
| `Shopping.EvidenceFields` | shopping/shopping.py:80-93 | positions 1 to 14 hold the numeric fields in the code's order, each as the code's `int` or `float` |
| `Shopping.LoadData` | shopping/shopping.py:71-102 | succeeds exactly when every month is known (else `KeyError`); one evidence list and one label per row, in lockstep and in row order |
| `Shopping.LoadedShapes` | shopping/shopping.py:76-100 | every loaded label is 0 or 1, and every evidence list has 17 entries with a month index in 0..11 first |
| `Shopping.Zip` | shopping/shopping.py:138 | `zip` pairs the entries up to the shorter length |
| `Shopping.CountsPartition` | shopping/shopping.py:138-149 | every pair lands in exactly one of the four cells or, when not binary, in none |
| `Shopping.BinaryCountsTotal` | shopping/shopping.py:138-149 | with 0/1 labels and predictions the four counts sum to the shorter length |
| `Shopping.NonBinaryIgnored` | shopping/shopping.py:138-149 | a pair with a value outside {0, 1} increments no counter |
| `Shopping.CountAppend` | shopping/shopping.py:138-149 | one more pair increments only its own cell |
| `Shopping.NoPositives` | shopping/shopping.py:151 | with 0/1 predictions, TP + FN is zero exactly when no actual label is 1 |
| `Shopping.NoNegatives` | shopping/shopping.py:152 | with 0/1 predictions, TN + FP is zero exactly when no actual label is 0 |
| `Shopping.ConfusionCounts` | shopping/shopping.py:133-149 | the counting loop yields the four cell counts of the zipped pairs |
| `Shopping.Rates` | shopping/shopping.py:151-154 | `ZeroDivisionError` exactly when TP + FN or TN + FP is zero; otherwise sensitivity TP/(TP+FN) and specificity TN/(TN+FP), both in [0, 1] |
| `Shopping.Evaluate` | shopping/shopping.py:117-154 | the rates of the cell counts of the zipped labels and predictions |

## Left out

- `main` in both programs: argument checks, `sys.exit` and printing are command-line plumbing.
- `crawl`'s directory listing, file reading and `href` regular expression are not modelled. `PageCorpus.Crawl` takes the listing order and each page's anchors as inputs.
- `load_data`'s CSV reading and `int()`/`float()` parsing are not modelled. A `Shopping.Row` holds its numeric fields already parsed, so the `ValueError` of a malformed number is not modelled.
- `train_model`, `train_test_split` and `model.predict` are not modelled: they call into scikit-learn.
- Floating point: all arithmetic is exact `real`. Python's rounding is not modelled, and neither is the conversion of counts to `float` in `evaluate`.
- `Sampling.LegalDraws`: for `d < 0` it also allows a target whose weight is not positive. `random.choices` with negative weights is not modelled. With exact reals the `ValueError` for a total that is not finite cannot arise.
- `Sampling.SamplePageRank`: its contract covers draws that `random.choice` and `random.choices` can make (`Sampling.LegalDraws`), not their probabilities. How close the estimate comes to the true PageRank is not stated.
- `Iteration.IteratePageRank`: the unbounded `while not CONVERGENCE` loop has a budget of rounds. `Capped` marks a loop that the program would keep running. Whether the iteration actually converges is not stated.
- `pageRank = newPageRank.copy()` is modelled as a value assignment. The tables are values, so no aliasing arises.
