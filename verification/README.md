# Umbral creation cost simulation: a Dafny model

The program estimates what it costs to craft an umbral creation. A creation
climbs the tiers None, Crude, Regular and Master. Each attempt spends
clusters of solace, and sometimes a dream matter. A random draw decides
whether the attempt advances the tier, keeps it, or drops it back.
`perform` repeats attempts until the creation reaches Master. `simulate`
keeps the first million trials that its seven worker threads commit under a
shared lock. Each worker runs a trial outside the lock, then takes the lock
and pushes the trial if the vector is still short. Its last trial, which
finds the vector full when it takes the lock, is dropped, and the worker
stops. `main` reads the two unit prices from the command line. It prints
the average cost, the average clusters, the average dream matters, and the
median dream matters and clusters.

The model treats every random draw as an input, so everything above it is
ordinary integer and sequence logic:

- `creation.dfy` (module `Creation`): the tiers, the trial record, the
  transition table `Step`, one loop pass `Attempt`, and the same table as
  data (`Bands`).
- `runner.dfy` (module `Runner`): `perform` over an explicit finite list of
  draws. `Trace` is the list of trials visited and `Run` is the final trial.
  `Perform` is the loop itself.
- `pool.dfy` (module `Pool`): the check-and-push of `simulate`. The lock
  serializes commits, so any interleaving of the workers is one sequence of
  commit events in lock order.
- `stats.dfy` (module `Stats`): sums, truncating division, sorting and the
  median at index N/2.
- `cli.dfy` (module `Cli`): `cost_table` as a function of the argument list,
  including which error wins.
- `report.dfy` (module `Report`): the aggregation in `main` and the
  process outcome (report, or exit status 1).
- `wrappers.dfy` (module `Wrappers`): `Option` and `Result`.

The trial count `SIMULATION_COUNT` (1,000,000) is replaced by N, the length
of the trial list, with N >= 1.

## Model

| member | source | states |
|---|---|---|
| Creation.Step | src/main.rs:44-84 | Clusters are always spent in multiples of 5. A dream matter is spent exactly on the None to Crude advance. A tier rises by at most one per draw, and only Regular leads to Master. Nothing is spent exactly when falling back to None from Crude or Regular. Master is absorbing and free. |
| Creation.StepFollowsBands | src/main.rs:44-82 | For every draw in [1, tries], `Step` gives the outcome of the first band of the transition table that contains the draw. |
| Creation.BandsPartitionDraws | src/main.rs:46-82 | Each tier's bands are non-empty, disjoint and ascending. The last band ends at that tier's tries (191, 248, 131), so the bands cover exactly [1, tries]. |
| Creation.StepBoundaries | src/main.rs:49-81 | Outcomes at every threshold and its neighbours: None 121/122, Crude 96/97, 174/175, Regular 14/15, 68/69, and both ends (1 and tries) of every tier's range. |
| Creation.Attempt | src/main.rs:43-85 | One loop pass never lowers either counter and adds at most one dream matter. It leaves a done trial unchanged and keeps the accounting invariant `WellSpent`. |
| Creation.AttemptFixedIffDone | src/main.rs:34-85 | An attempt leaves the trial unchanged if and only if `is_done` holds, that is, the tier is Master. |
| Creation.NewIsWellSpent | src/main.rs:26-32 | `new()` starts at None with zero counters. It satisfies the accounting invariant and is not done. |
| Runner.Trace | src/main.rs:41-86 | The trials `perform` visits. It starts at the given trial, and each step is `Attempt` on the next draw from a tier that is not done. It stops exactly at Master or when the draws run out, using one draw per step. |
| Runner.TraceMonotone | src/main.rs:43-85 | Along any trace, both counters never decrease, for every pair of positions. |
| Runner.TraceWellSpent | src/main.rs:43-85 | A trace that starts well spent stays well spent at every position. |
| Runner.RunMonotone | src/main.rs:41-86 | The finished trial has counters at least those it started with, and keeps the invariant. |
| Runner.FinishedTrialCost | src/main.rs:26-85 | A trial started by `new()` that reaches Master has spent at least 245 clusters, a multiple of 5, and at least one dream matter. |
| Runner.CheapestFinishedTrial | src/main.rs:45-82 | The bound is tight: draws that advance three times finish a new trial at exactly 245 clusters and one dream matter. |
| Runner.LuckyDrawsFinish | src/main.rs:43-85 | Enough draws of 1 finish a trial from any tier. |
| Runner.MasterReachableFromAnyTier | src/main.rs:43-85 | From every tier, Master is reached within three draws. |
| Runner.Perform | src/main.rs:41-86 | The loop returns the same trial as `Run` and uses one draw per step. It stops at Master or when the draws run out, and never lowers a counter. |
| Pool.Commit | src/main.rs:172-177 | Under the lock, a running worker pushes its trial exactly when the vector is shorter than the target, and otherwise stops. The vector only grows at its end, by that one trial. A stopped worker commits nothing, a push stops nobody, and a stop adds only the committing worker to the stopped set. The bound "at most the target, full once anyone stopped" is kept. |
| Pool.CommitAllBounded | src/main.rs:164-180 | For any sequence of commits, the vector never exceeds the target and earlier entries are unchanged (prefix preserved). |
| Pool.CommitAllExact | src/main.rs:164-180 | The final vector is the starting vector followed by the first committed trials, in lock order, up to the target. |
| Pool.FillsToTarget | src/main.rs:157-191 | With at least as many completed trials as the target, the final vector has exactly the target length. |
| Pool.Simulate | src/main.rs:157-191 | The serialized commit loop returns the first min(events, target) trials in lock order. It never returns more than the target, and returns exactly the target when enough trials were completed. |
| Stats.TruncDiv | src/main.rs:132-134 | Truncating division: `q * n <= total < (q + 1) * n`. |
| Stats.Sort | src/main.rs:119-126 | The copy is ascending and is a permutation (equal multiset) of the counters. |
| Stats.SortedUnique | src/main.rs:125-126 | Two ascending lists with the same elements are equal, so the sorted copy does not depend on the sort algorithm. |
| Stats.CountPermutation | src/main.rs:119-126 | Reordering a list does not change how many elements lie on either side of a pivot. |
| Stats.Median | src/main.rs:141-147 | The median is one of the values. At least N/2 + 1 values are at or below it, and at least N - N/2 are at or above it. |
| Stats.MedianOfAnySortedCopy | src/main.rs:141-147 | The median is the element at index N/2 of every ascending permutation of the values. |
| Stats.MedianOfFour | src/main.rs:141-147 | For even N the upper median is taken, not a mean: of a <= b <= c <= d it is c. |
| Cli.ParseUsize | src/main.rs:97-102 | An accepted price fits in a 64-bit `usize` and consists only of ASCII digits after an optional leading `+`. The empty string, a leading `-` and a lone `+` are rejected. |
| Cli.ParseDecimal | src/main.rs:97-102 | Every `usize` in decimal, with or without a leading `+`, parses back to itself. A decimal above the `usize` range is rejected. |
| Cli.CostTableFrom | src/main.rs:92-108 | Success exactly when both prices are present and parse, carrying the parsed values. The cluster-cost message appears exactly when argument 1 is missing. The dream-matter message appears exactly when argument 2 is missing, even if argument 1 is unparseable. The shared parse message appears exactly when both are present and either fails to parse. |
| Cli.CostTableIgnoresExtraArgs | src/main.rs:92-108 | Arguments after the second price do not change the result. |
| Cli.CostTableExamples | src/main.rs:92-108 | `prog 5 1000` gives prices 5 and 1000. `prog` reports the missing cluster cost. `prog -5` reports the missing dream-matter cost before parsing anything. |
| Report.Aggregate | src/main.rs:116-147 | The averages are the truncated means of the summed counters. The average cost is the truncated mean of the combined priced total. Each median is a spent value with at least N/2 + 1 trials at or below it and N - N/2 at or above it. |
| Report.AvgCostAtLeastPricedAverages | src/main.rs:128-134 | The average cost, computed from totals, is never below the truncated averages priced. |
| Report.AvgCostDiffersFromPricedAverages | src/main.rs:128-134 | The two can differ: finished trials of 245 and 320 clusters at price 3 average 847 in cost, but 282 clusters priced gives 846. |
| Report.FinishedTrialsReport | src/main.rs:112-148 | When every trial is finished and well spent, both averages and both medians are at least 245 clusters and 1 dream matter. |
| Report.SimulatedTrialsReport | src/main.rs:112-148 | When every trial is a run of `perform` from `new()` that reached Master, both averages and both medians are at least 245 clusters and 1 dream matter. |
| Report.Main | src/main.rs:112-155 | An argument error makes the process exit with status 1 and that message. Otherwise it prints the aggregate for the parsed prices. |

## Left out

- Random number generation (`thread_rng`, `gen_range`). Draws are inputs, constrained to the half-open `gen_range(1, tries + 1)`, that is, [1, tries], by `Runner.ValidDraws`. Probabilities and expected costs are not modelled.
- Runner.Trace: termination of `perform` is probabilistic and not proved. The model runs over a finite draw list and may stop before Master when the list runs out. Every statement about a finished trial assumes Master was reached.
- Threads, `Arc<Mutex<..>>`, `join` and `Arc::try_unwrap`, with their panics ("Worker dedek", "Failed to gather simulation results."). Only the serialized check-and-push is modelled. The lock makes every interleaving a sequence of commit events. The worker count (`num_cores - 1` = 7) plays no part.
- Pool.Commit: a commit event from a worker that has already stopped is treated as doing nothing. In the program such a worker has left its loop and produces no events.
- Report.Main: the finished trials are a parameter, not the result of calling `simulate()`. The model therefore does not show that an argument error exits before any trial runs. `Pool.Simulate` and `Runner.Run` describe those trials separately, and `Report.SimulatedTrialsReport` joins `Runner.Run` to the report.
- `std::env::args`, `println!` and `exit`. They are I/O. `Report.Main` returns the exit code and message, or the five printed numbers, as a value.
- `usize` overflow in the `+=` of `perform`, in the sums and in the price products. The model uses unbounded naturals, so a wrap-around or overflow panic is not represented.
- Cli.ParseUsize: models Rust's `usize::from_str` for a 64-bit target: an optional single `+`, then ASCII digits, with a value of at most 2^64 - 1. The error kinds of `ParseIntError` are not distinguished.
- Stats.Sort: `Vec::sort` is a stable merge sort. The model uses insertion sort. `Stats.SortedUnique` shows that any ascending permutation gives the same list.
- Stats.Median: requires N >= 1. In the program N is the constant 1,000,000, so `.get(N / 2).unwrap()` never fails.
- The average cost is not the truncated averages priced. The code divides the combined priced totals, and the model does the same. `Report.AvgCostDiffersFromPricedAverages` shows that the two can differ.
