# benchmark-keeper, modelled in Dafny

benchmark-keeper records benchmark results across git commits. Each experiment version
gets at most one run, and that run lives in the tracked ledger `.benchk/report.yml`. The
`list` command compares the runs recorded at every commit in the git log, plus the
current, uncommitted run. It keeps one entry per run tag on this machine and scores the
entries with an aggregator, either the mean target or the mean rank across the common
benchmarks. It then sorts the entries by score, unless `--commit-order` is given, and
cuts the list by a limit. The first entry with the current run's tag is put back in
front when the cut drops it. The last row printed is marked "(best)". That row has the
best score only after the sort, and only with no limit or a limit that is not negative.

This project models:

- the run ledger (`report.py`);
- the aggregators and their preset registry (`aggregator.py`);
- the body of the `list` command and `get_commits` (`cmd/list_cmd.py`);
- the data model, `active_experiment` and the active-experiment bootstrap of
  `get_config` (`__init__.py`).

It also proves properties of these.

The files, one module each:

- `outcomes.dfy` (`Outcomes`): `Option`, the exceptions that escape (`PyError`), and
  `Raising<T>` for "returns or raises".
- `model.dfy` (`Model`): `BenchmarkResult`, `BenchmarkRun`, `Report`, `Experiment`,
  `LocalConfig`, `RepoConfig` and `DataRetrieveFailure`.
- `sequences.dfy` (`Sequences`): reversal (`[::-1]`), keep-first deduplication through a
  `seen` set, and the first match.
- `sorting.dfy` (`Sorting`): Python's stable `sorted` and `list.sort` by a key, described
  on positions.
- `text.dfy` (`Text`): `str.split`, `str.join`, `str.strip`, and the string order.
- `config.dfy` (`Config`): `active_experiment` and the bootstrap at the end of
  `get_config`.
- `ledger.dfy` (`Ledger`): `read_runs`, `write_runs`, `unique_runs`, `add_run`,
  `find_run`, `get_commit_run` and `get_current_run`.
- `aggregator.dfy` (`Aggregation`): `unit`, `lower_is_better`, the independent and
  ranking aggregators, the "mean" preset, and `register_aggregator`.
- `listing.dfy` (`Listing`): `get_commits`, and the `list` command from collecting runs
  to printing rows.

The model works as follows:

- The outside world becomes parameters:
  - YAML loading is a function `parse` from text to what loading yields, and writing
    uses a `dump` function;
  - `git log` is its stdout and stderr text;
  - `git show <commit>:.benchk/report.yml` is a function `show` from a hash to the file's
    text at that commit (`None` when the commit has no report).
- An exception that escapes is a `Raises(e)` value. `typer.Exit(code)` is `Exit(code)`.
- Floats are modelled as reals.
- The ledger file and the cached configuration update in place, so they are classes:
  `Ledger.RunStore`, `Config.AppConfig` and `Aggregation.AggregatorRegistry`.
- The loops of `unique_runs`, the ranking aggregator, the collection of commit data, the
  tag filter, the annotation loop and the search for the current entry are methods with
  loop invariants. Each is proved equal to a function, and the properties are lemmas
  about those functions.

## Model

| member | source | states |
|---|---|---|
| Model.NewResult | benchmark_keeper/__init__.py:156-163 | a result built from a target has no labels and no metadata |
| Model.NewRun | benchmark_keeper/__init__.py:166-177 | a run's key is its (experiment, version) pair; the digest defaults to "" |
| Model.NewExperiment | benchmark_keeper/__init__.py:51-57 | an experiment has version 1, no build or test script and no watched files unless given |
| Model.DefaultLocalConfig | benchmark_keeper/__init__.py:48 | the first local configuration names machine "MyMachine" and no active experiment |
| Model.DefaultRepoConfig | benchmark_keeper/__init__.py:64 | the first repository configuration has no experiments |
| Config.FirstNamed | benchmark_keeper/__init__.py:75-81 | None exactly when no experiment has the name; otherwise the first experiment that has it |
| Config.AppConfig.constructor | benchmark_keeper/__init__.py:67-71 | a new configuration holds the given root directory and configurations, and the local file holds the local configuration |
| Config.AppConfig.ActiveExperiment | benchmark_keeper/__init__.py:73-81 | the active experiment is the first configured experiment named by the local configuration, and it is absent exactly when none is |
| Config.Bootstrapped | benchmark_keeper/__init__.py:146-151 | with no active experiment and at least one configured, the first becomes active; otherwise nothing changes; the machine name is kept |
| Config.BootstrapIdempotent | benchmark_keeper/__init__.py:146-151 | a second bootstrap changes nothing |
| Config.BootstrapActivates | benchmark_keeper/__init__.py:146-151 | after the bootstrap, `active_experiment` finds the first configured experiment |
| Config.AppConfig.Bootstrap | benchmark_keeper/__init__.py:146-151 | sets the active experiment and writes the local file exactly when the bootstrap applies; otherwise the state is unchanged |
| Config.GetConfigBootstrapAsWritten | benchmark_keeper/__init__.py:122-153 | as written: raises exactly on a cached call with no active experiment, and otherwise returns the corrected bootstrap's result |
| Config.SecondGetConfigRaises | benchmark_keeper/__init__.py:122-153 | with no experiment configured, the second `get_config` in a process raises UnboundLocalError |
| Ledger.Classify | benchmark_keeper/report.py:36-39 | a valid report is returned; YAML and validation errors give BAD_FORMAT; an empty document raises TypeError |
| Ledger.RunStore.constructor | benchmark_keeper/report.py:25-39 | a new store holds the given file and the YAML functions, which round-trip |
| Ledger.RunStore.WriteRuns | benchmark_keeper/report.py:25-27 | the file becomes the dump of the report, and reading it gives the report back |
| Ledger.RunStore.ReadRuns | benchmark_keeper/report.py:30-39 | returns what the file holds; a missing file is created holding an empty report; an existing file is left unchanged |
| Ledger.UniqueRuns | benchmark_keeper/report.py:42-50 | keep-first deduplication by (experiment, version): duplicate-free, in the original order, losing no key |
| Ledger.WithRunAdded | benchmark_keeper/report.py:60 | `unique_runs([run] + runs)`: the run comes first, no other run shares its key, no key occurs twice, and every run came from the ledger |
| Ledger.AddAll | benchmark_keeper/report.py:53-62 | a series of `add_run` calls leaves the run added last in front and the ledger duplicate-free; no calls leave it unchanged |
| Ledger.RunStore.AddRun | benchmark_keeper/report.py:53-62 | a readable ledger becomes the deduplicated [run] + runs; a badly formatted one raises Exit(1) and is left as it is |
| Ledger.AddedKeepsOthers | benchmark_keeper/report.py:53-62 | on a duplicate-free ledger, `add_run` keeps every run with another key, in order, behind the new run |
| Ledger.AddAllLatestWins | benchmark_keeper/report.py:53-62 | after a series of `add_run` calls, each key holds the run added last with it (else the ledger's first); the ledger stays duplicate-free |
| Ledger.AddOneLatestWins | benchmark_keeper/report.py:60 | one `add_run`: its key finds the new run, other keys what they found before |
| Ledger.OtherRuns | benchmark_keeper/report.py:60 | the runs with a key other than the given one |
| Ledger.FindInRuns | benchmark_keeper/report.py:67-71 | RUN_MISSING exactly when no run has the key; otherwise the first run with it |
| Ledger.FindRun | benchmark_keeper/report.py:65-73 | searches a report; a failure to read one is passed through unchanged |
| Ledger.FindAfterAdd | benchmark_keeper/report.py:53-73 | right after `add_run`, `find_run` finds the added run, and other keys find what they found before |
| Ledger.UniqueRunsPreservesLookup | benchmark_keeper/report.py:42-73 | deduplicating a ledger does not change what `find_run` finds |
| Ledger.CommitRunAsWritten | benchmark_keeper/report.py:76-90 | as written: FILE_MISSING is never returned; a returned run has the requested key |
| Ledger.MissingSnapshotRaises | benchmark_keeper/report.py:84-87 | a commit with no report makes `get_commit_run` raise TypeError |
| Ledger.CommitRun | benchmark_keeper/report.py:76-90 | corrected: FILE_MISSING exactly when there is no report; BAD_FORMAT exactly when the text does not load; a run exactly when the report holds one with the key, and then the first such run |
| Ledger.CommitRunAgrees | benchmark_keeper/report.py:76-90 | on any report text that loads or fails to load as YAML, the code as written returns what the corrected `get_commit_run` returns, so the correction changes only the missing report and the non-mapping report |
| Ledger.RunStore.GetCurrentRun | benchmark_keeper/report.py:93-96 | `find_run` over what `read_runs` returns; the ledger's content is unchanged |
| Sequences.Reverse | benchmark_keeper/cmd/list_cmd.py:97 | `[::-1]`: the same length, element k taken from the other end |
| Sequences.FirstWith | benchmark_keeper/report.py:68-71 | None exactly when no element has the key; otherwise the first element with it |
| Sequences.DedupBy | benchmark_keeper/report.py:42-50 | keep-first deduplication through a `seen` set is never longer than its input and keeps only elements of it |
| Sequences.DedupKeys | benchmark_keeper/report.py:42-50 | keep-first deduplication loses no key |
| Sequences.DedupDistinct | benchmark_keeper/report.py:42-50 | after deduplication no two elements share a key |
| Sequences.DedupSubsequence | benchmark_keeper/report.py:42-50 | deduplication keeps the survivors in their original order |
| Sequences.DedupKeepsFirst | benchmark_keeper/report.py:42-50 | looking up a key after deduplication finds what it finds before |
| Sequences.DedupOfDistinct | benchmark_keeper/report.py:42-50 | a duplicate-free sequence is left as it is |
| Sequences.DedupHead | benchmark_keeper/report.py:60 | the first element always survives, at the front |
| Sequences.DedupIdempotent | benchmark_keeper/report.py:42-50 | deduplicating twice is deduplicating once |
| Sorting.StableOrder | benchmark_keeper/aggregator.py:72-74 | `sorted(range(n), key=...)` lists every position 0..n-1 exactly once, in ascending key order, with equal keys in position order |
| Sorting.StableOrderAscending | benchmark_keeper/cmd/list_cmd.py:108-109 | along the stable order keys never decrease, and equal keys keep their original order |
| Sorting.StableOrderPermutes | benchmark_keeper/cmd/list_cmd.py:108-109 | rearranging by the stable order is a permutation: the same multiset |
| Sorting.PermutedMultiset | benchmark_keeper/cmd/list_cmd.py:108-109 | rearranging by a list that names every position once loses and adds nothing |
| Text.Strip | benchmark_keeper/cmd/list_cmd.py:26 | `strip()` removes whitespace only at the ends; the result neither starts nor ends with whitespace |
| Text.StripUnchanged | benchmark_keeper/cmd/list_cmd.py:26 | a string with no whitespace at either end is left alone |
| Text.Split | benchmark_keeper/cmd/list_cmd.py:25-26 | `str.split(sep)` always yields at least one piece |
| Text.Join | benchmark_keeper/cmd/list_cmd.py:25 | `sep.join(parts)` starts with the first part |
| Text.JoinSplit | benchmark_keeper/cmd/list_cmd.py:25 | `" ".join(s.split(" ")) == s` |
| Text.SplitJoin | benchmark_keeper/cmd/list_cmd.py:26 | splitting a join of separator-free pieces gives the pieces back |
| Text.SplitCount | benchmark_keeper/cmd/list_cmd.py:25 | a string splits into more than one piece exactly when it holds the separator |
| Text.SplitPiecesHaveNoSeparator | benchmark_keeper/cmd/list_cmd.py:25 | no piece holds the separator |
| Aggregation.IndependentAggregate | benchmark_keeper/aggregator.py:45-54 | `map(agg_func, results)`: one score per run, in order; the first exception escapes |
| Aggregation.Unit | benchmark_keeper/aggregator.py:23-32 | an independent aggregator keeps the default unit "unit"; the ranking aggregator's unit is "mean rank" (lines 84-85) |
| Aggregation.LowerIsBetter | benchmark_keeper/aggregator.py:34-42 | lower is better for every built-in aggregator |
| Aggregation.SumTargets | benchmark_keeper/aggregator.py:98 | `sum(map(lambda y: y.target, x.values()))`: never negative when no target is |
| Aggregation.SumTargetsAnyOrder | benchmark_keeper/aggregator.py:98 | the sum of targets does not depend on the order they are added in |
| Aggregation.Mean | benchmark_keeper/aggregator.py:97-99 | the mean preset: ZeroDivisionError exactly on an empty run; otherwise mean × count = sum of targets |
| Aggregation.MeanBetween | benchmark_keeper/aggregator.py:97-99 | the mean lies between the least and the greatest target |
| Aggregation.MeanExample | benchmark_keeper/aggregator.py:97-99 | targets 5 and 10 have mean 7.5 |
| Aggregation.CommonBenchmarks | benchmark_keeper/aggregator.py:65-67 | the benchmarks every run has |
| Aggregation.BenchRank | benchmark_keeper/aggregator.py:72-75 | a run's rank on a benchmark is below the number of runs |
| Aggregation.RanksArePermutation | benchmark_keeper/aggregator.py:71-76 | on one benchmark the ranks are a permutation of 0..n-1 |
| Aggregation.RankFollowsTarget | benchmark_keeper/aggregator.py:72-74 | a smaller target, or an equal target at an earlier position, gets a smaller rank |
| Aggregation.RankTotalAnyOrder | benchmark_keeper/aggregator.py:71-76 | the total rank does not depend on the order in which the set of benchmarks is visited |
| Aggregation.AddRanks | benchmark_keeper/aggregator.py:75-76 | the run at each position gets that position added; the scores' sum grows by 0+…+(n-1) |
| Aggregation.AddBenchRanks | benchmark_keeper/aggregator.py:71-76 | one pass adds each run's rank on the benchmark to its total |
| Aggregation.AddAllRanks | benchmark_keeper/aggregator.py:63-76 | after the loop each score is the run's total rank over the common benchmarks |
| Aggregation.DivideScores | benchmark_keeper/aggregator.py:79-80 | every score is divided by the count |
| Aggregation.RankingAggregate | benchmark_keeper/aggregator.py:62-82 | the method equals `RankingScores`: TypeError on no runs, zeros with no common benchmark, else mean ranks, which sum to 0+…+(n-1) |
| Aggregation.MeanRanksDivided | benchmark_keeper/aggregator.py:78-82 | dividing total ranks by the common count gives the mean ranks and keeps the sum 0+…+(n-1) |
| Aggregation.MeanRank | benchmark_keeper/aggregator.py:62-82 | a run's mean rank over the common benchmarks lies between 0 and n-1 |
| Aggregation.RankingScores | benchmark_keeper/aggregator.py:62-82 | TypeError exactly when there are no runs; otherwise one score per run, each between 0 and n-1 |
| Aggregation.BenchRanksAdded | benchmark_keeper/aggregator.py:71-76 | one benchmark's pass turns totals over `done` into totals over `done + {bench}` |
| Aggregation.MeanRankMonotone | benchmark_keeper/aggregator.py:62-82 | a run faster than another on every common benchmark has a strictly smaller mean rank |
| Aggregation.RankTotalGap | benchmark_keeper/aggregator.py:71-76 | faster on every benchmark gives a total at least one smaller per benchmark |
| Aggregation.ExampleRanks | benchmark_keeper/aggregator.py:71-76 | targets 10, 5, 20 are ranked 1, 0, 2 |
| Aggregation.RankingExample | benchmark_keeper/aggregator.py:62-82 | targets 10, 5, 20 score 1.0, 0.0, 2.0 |
| Aggregation.Aggregate | benchmark_keeper/aggregator.py:11 | dispatch: the result of each kind of aggregator |
| Aggregation.AggregateOf | benchmark_keeper/aggregator.py:11 | a built-in aggregator that returns gives one score per run; the ranking aggregator raises exactly on no runs |
| Aggregation.DefaultPresets | benchmark_keeper/aggregator.py:95-100 | exactly "ranking" and "mean"; their units are "mean rank" and "unit"; lower is better for both |
| Aggregation.AggregatorRegistry.constructor | benchmark_keeper/aggregator.py:95-100 | the registry starts with the default presets |
| Aggregation.AggregatorRegistry.Register | benchmark_keeper/aggregator.py:105-106 | adds or replaces exactly one entry |
| Aggregation.LookupPreset | benchmark_keeper/cmd/list_cmd.py:101 | an absent or empty name selects "mean"; an unknown name raises KeyError |
| Aggregation.DefaultPresetLookups | benchmark_keeper/cmd/list_cmd.py:101 | no name or "" gives the mean, "ranking" the ranking aggregator, any other name KeyError |
| Aggregation.RegisterThenLookup | benchmark_keeper/aggregator.py:105-106 | after registering, the name selects the new aggregator, and other lookups are unaffected |
| Listing.GetCommits | benchmark_keeper/cmd/list_cmd.py:16-28 | RuntimeError exactly when stderr is non-empty; otherwise one commit per line of the stripped output |
| Listing.ParseCommitLine | benchmark_keeper/cmd/list_cmd.py:25 | a line with a space splits into a space-free hash and the subject after the first space, and hash + " " + subject is the line; a line without a space is the hash with an empty subject |
| Listing.ParseLogLine | benchmark_keeper/cmd/list_cmd.py:25 | a line printed for a commit with a space-free hash parses back into that commit |
| Listing.GetCommitsRoundTrip | benchmark_keeper/cmd/list_cmd.py:16-28 | `get_commits` gives back the commits `git log` printed |
| Listing.EmptyLogOneBlankCommit | benchmark_keeper/cmd/list_cmd.py:23-28 | an empty log yields one commit with empty hash and subject |
| Listing.FoundExactly | benchmark_keeper/cmd/list_cmd.py:79-84 | the entries are exactly the commits whose report holds a run of the experiment, each with that run |
| Listing.CollectCommitData | benchmark_keeper/cmd/list_cmd.py:79-84 | the loop builds exactly those entries, in log order |
| Listing.Found | benchmark_keeper/cmd/list_cmd.py:79-84 | at most one entry per commit, each holding a run of the experiment's version; the entries' commits are a subsequence of the log, so they keep git-log order |
| Listing.Timeline | benchmark_keeper/cmd/list_cmd.py:86-89 | a current run is inserted at index 0 as the "Current" entry with hash "0"*40, before the commits' entries, so it comes last after `[::-1]`; without one the entries are the commits' |
| Listing.CurrentTag | benchmark_keeper/cmd/list_cmd.py:87-90 | the current tag is the tag of the "Current" entry, or "" when there is no current run |
| Listing.OnMachine | benchmark_keeper/cmd/list_cmd.py:97 | exactly the entries recorded on this machine, as an order-preserving subsequence of the entries |
| Listing.OnMachineLength | benchmark_keeper/cmd/list_cmd.py:97 | the filter by machine never lengthens the entries |
| Listing.SelectShown | benchmark_keeper/cmd/list_cmd.py:94-98 | the comprehension equals keep-first deduplication by tag of the reversed entries on this machine |
| Listing.Shown | benchmark_keeper/cmd/list_cmd.py:94-98 | the shown entries are no more than the entries, have distinct tags, and were all recorded on this machine |
| Listing.ShownOrder | benchmark_keeper/cmd/list_cmd.py:94-98 | the shown entries keep the order of `commit_data[::-1]`, and for each tag the entry shown is the first in that order recorded on this machine with the tag |
| Listing.ShownProperties | benchmark_keeper/cmd/list_cmd.py:94-98 | shown entries are this machine's, come from the timeline, have distinct tags, and cover every tag recorded here |
| Listing.CurrentTagShown | benchmark_keeper/cmd/list_cmd.py:86-98 | a current run on this machine has its tag among the shown entries |
| Listing.Annotated | benchmark_keeper/cmd/list_cmd.py:104-106 | each entry is paired with its score; IndexError exactly when there are fewer scores than entries |
| Listing.Annotate | benchmark_keeper/cmd/list_cmd.py:104-106 | the loop equals `Annotated` |
| Listing.OrderedByScore | benchmark_keeper/cmd/list_cmd.py:108-109 | after the sort, better scores come later and equal scores keep their order |
| Listing.Ordered | benchmark_keeper/cmd/list_cmd.py:108-109 | the sort, or commit order, keeps the entries as a permutation: the same multiset |
| Listing.OrderedMembers | benchmark_keeper/cmd/list_cmd.py:108-109 | an entry is in the sorted list exactly when it was in the annotated list |
| Listing.BestIsLast | benchmark_keeper/cmd/list_cmd.py:108-109 | after the sort, the last entry has the best score |
| Listing.LimitRows | benchmark_keeper/cmd/list_cmd.py:118 | `[-limit:]`: the last `limit` rows, all rows for 0, and for a negative limit all but the first `-limit` |
| Listing.Cut | benchmark_keeper/cmd/list_cmd.py:111-122 | no limit leaves the rows alone; a limit keeps the window `o[-limit:]`, preceded by the first entry with the current tag exactly when the window does not hold it |
| Listing.CutBound | benchmark_keeper/cmd/list_cmd.py:111-122 | a positive limit shows at most limit + 1 rows |
| Listing.CutKeepsLast | benchmark_keeper/cmd/list_cmd.py:111-122 | a limit that is not negative keeps the last entry last |
| Listing.CutKeepsCurrent | benchmark_keeper/cmd/list_cmd.py:111-122 | an entry with the current tag survives the cut |
| Listing.FindCurrent | benchmark_keeper/cmd/list_cmd.py:112-116 | the loop finds the first entry with the current tag |
| Listing.Arrange | benchmark_keeper/cmd/list_cmd.py:108-122 | the sort and the cut equal `Arranged` |
| Listing.Arranged | benchmark_keeper/cmd/list_cmd.py:108-122 | without a limit the rows are a permutation of the annotated entries; with one they are the window `[-limit:]` of the ordered entries, preceded by the first entry with the current tag exactly when the window does not hold it |
| Listing.CurrentAlwaysListed | benchmark_keeper/cmd/list_cmd.py:120-122 | whatever the limit, an entry with the current tag is shown when one was scored |
| Listing.LastRowIsBest | benchmark_keeper/cmd/list_cmd.py:108-129 | sorted, with no limit or a limit that is not negative, the last row has the best score |
| Listing.LimitKeepsLast | benchmark_keeper/cmd/list_cmd.py:118 | a limit that is not negative keeps the last row |
| Listing.Render | benchmark_keeper/cmd/list_cmd.py:128-131 | one row per entry: score, unit, the hash's first 10 characters and the subject; "(best)" exactly on the last row, "(current)" exactly on rows with the current tag |
| Listing.Prefix | benchmark_keeper/cmd/list_cmd.py:131 | `[:10]`: the first n characters, or all when there are fewer |
| Listing.BenchmarksOf | benchmark_keeper/cmd/list_cmd.py:102 | the aggregator gets each shown entry's benchmarks, in order |
| Listing.ListOutcome | benchmark_keeper/cmd/list_cmd.py:79-131 | whenever `list` prints rows, exactly the last one is marked best |
| Listing.ScoredOutcome | benchmark_keeper/cmd/list_cmd.py:101-131 | scoring, annotating, arranging and printing; printed rows have exactly the last one marked best |
| Listing.RowsOutcome | benchmark_keeper/cmd/list_cmd.py:124-131 | Exit(0) exactly when no row is left after the sort and the cut; otherwise one printed row per arranged entry, with exactly the last one marked best |
| Listing.ListCommand | benchmark_keeper/cmd/list_cmd.py:73-131 | the command's steps equal `ListOutcome` on the active experiment and this machine |
| Listing.ScoreAndRender | benchmark_keeper/cmd/list_cmd.py:101-131 | scoring to printing equals `ScoredOutcome` |
| Listing.ListOutcomeStages | benchmark_keeper/cmd/list_cmd.py:79-102 | past the error checks, `list` is the scoring and printing of the shown entries |
| Listing.NoRunsOutcome | benchmark_keeper/cmd/list_cmd.py:124-126 | no run anywhere with the mean preset ends with "No results found" and Exit(0) |
| Listing.NoRunsRanking | benchmark_keeper/cmd/list_cmd.py:101-126 | no run anywhere with the ranking preset raises TypeError before "No results found" |
| Listing.NothingScored | benchmark_keeper/cmd/list_cmd.py:124-126 | an independent aggregator on no entries ends with Exit(0) |
| Listing.ListErrors | benchmark_keeper/cmd/list_cmd.py:73-101 | a missing experiment, git log stderr, a failing current-run read and an unknown preset end `list` with their errors, in that order |

## Left out

- Terminal output (`console.print`, colours, the "Comparing results for machine" header
  and the `%012.2f` score format) is not modelled. A printed line is the `Listing.Row`
  datatype, which holds the fields it shows.
- `get_path`, directory creation, the `.gitignore` file and the loading of the two
  configuration files in `get_config` are file-system I/O and are not modelled.
  `Config.AppConfig` starts from already-loaded configurations. Only the bootstrap is
  modelled.
- `write_local_config` and `write_repo_config` are modelled only as the `localFile` field
  that `Config.AppConfig.Bootstrap` writes.
- The `git log` and `git show` subprocesses are parameters: the log's stdout and stderr
  text, and the function `show`.
- YAML parsing and dumping, and pydantic validation, are abstract. They are the `parse`
  and `dump` functions, and `Ledger.RoundTrips` is the one property assumed of them.
- Listing.ListCommand: receives `get_current_run`'s result as the parameter `current`
  rather than calling `Ledger.RunStore.GetCurrentRun`, which models that call.
- Ledger.CommitRun: the correction also turns an empty or non-mapping report at a commit
  into BAD_FORMAT so that the listing skips that commit. The code as written raises
  TypeError there (`Report(**None)`), as `read_runs` still does through `Ledger.Classify`.
- Listing.ListCommand: uses the corrected `Ledger.CommitRun`. With the code as written,
  the first commit without a report raises TypeError (see Findings).
- Floats are modelled as reals. Rounding in `sum`, `/` and `+=` is not modelled.
  Aggregation.SumTargets adds targets in name order, and `Aggregation.SumTargetsAnyOrder`
  shows the order does not matter for reals. For floats it could change the last bit.
- Aggregation.RankingAggregate: visits the common benchmarks in any order, as Python's
  set iteration does. The result is proved independent of that order.
- Aggregation.Aggregator: a registered aggregator is a `Custom` value carrying its
  aggregate function, unit and direction. The registry stores aggregators rather than
  the zero-argument factories Python stores. Python's factories return a new object on
  each call, but every aggregator here is stateless, so the two are equivalent.
- The module-level `fail_counter` and the `reducer` helper in list_cmd.py are never used
  by the listing and are left out.
- Text.IsSpace: covers the ASCII and Latin-1 whitespace that `str.strip()` removes. It
  leaves out the other Unicode whitespace characters, which a `git log` of ASCII hashes
  and subjects does not end with.
- Model.BenchmarkResult: `unstructured` is a JSON-like datatype, and the values it holds
  are never inspected.

These quirks of the source are modelled as written, not corrected:

- `--limit 0` shows every entry, because `[-0:]` is `[0:]`.
- A negative limit drops entries from the front. When it drops them all, only the entry
  with the current tag (if any) is left, and it is marked "(best)".
- With `--commit-order`, "(best)" marks the last row, which is the newest entry, whatever
  its score.
- The ranking preset raises TypeError when there are no entries.
- The mean preset raises ZeroDivisionError on a run with no benchmarks.
- An empty git log yields one commit with an empty hash.
- An empty `report.yml` makes `read_runs` raise TypeError.
- The current run's tag may be shown against an older commit that carries the same tag.
- When there is no current run, the current tag is "", which matches a run tagged "".

## Findings

| source | as written | input that shows it | evidently intended | confidence | as-written member | corrected member |
|---|---|---|---|---|---|---|
| benchmark_keeper/report.py:84-87 | `proc.stdout is None` is never true under `text=True`, so a commit without a report reaches `yaml.safe_load("")`, which is None, and `Report(**None)` raises TypeError | `list` in a repository with any commit made before `.benchk/report.yml` existed | such a commit gives `DataRetrieveFailure.FILE_MISSING` and the listing skips it; a report at a commit that is empty or not a mapping gives BAD_FORMAT rather than TypeError | high (not executed) | Ledger.CommitRunAsWritten, Ledger.MissingSnapshotRaises | Ledger.CommitRun |
| benchmark_keeper/__init__.py:146 | the bootstrap reads the local variable `repo_config`, which is bound only on the call that loads the configuration | two `get_config()` calls in one process while no experiment is active and none is configured: the second raises UnboundLocalError | the bootstrap reads `_config.repo_config` | high (not executed) | Config.GetConfigBootstrapAsWritten, Config.SecondGetConfigRaises | Config.Bootstrapped, Config.AppConfig.Bootstrap |
