/** The run ledger (benchmark_keeper/report.py): the persisted report of runs, read with
    first-use bootstrap, extended by `add_run` (the new run replaces any run with its
    (experiment, version) key) and searched by `find_run`; plus the reconstruction of a run
    from the report as it was at a past commit. YAML parsing is abstract: the store is given
    a `parse` function from text to what loading yields, and the `dump` it writes with. */
module Ledger {
  import opened Outcomes
  import opened Model
  import opened Sequences

  /** What `Report(**yaml.safe_load(text))` makes of a text. */
  datatype YamlLoad =
    | Loaded(report: Report)  // a mapping that validates as a Report
    | YamlError               // yaml.YAMLError
    | ValidationError         // pydantic's ValidationError
    | NotAMapping             // None (an empty document) or a non-mapping: `**` raises TypeError

  /** The `try` around loading: YAML and validation errors become BAD_FORMAT, while the
      TypeError of `Report(**None)` is not caught. */
  function Classify(load: YamlLoad): (r: Raising<Retrieved<Report>>)
    ensures r.Returns? && r.value.Got? <==> load.Loaded?
    ensures r.Returns? && r.value.Got? ==> r.value.value == load.report
    ensures r.Returns? && r.value.Failed? <==> load.YamlError? || load.ValidationError?
    ensures r.Returns? && r.value.Failed? ==> r.value.reason == BAD_FORMAT
    ensures r.Raises? <==> load.NotAMapping?
    ensures r.Raises? ==> r.error == TypeError
  {
    match load
    case Loaded(report) => Returns(Got(report))
    case YamlError => Returns(Failed(BAD_FORMAT))
    case ValidationError => Returns(Failed(BAD_FORMAT))
    case NotAMapping => Raises(TypeError)
  }

  /** Loading what `dump` wrote gives back the report. */
  ghost predicate RoundTrips(parse: string -> YamlLoad, dump: Report -> string) {
    forall r: Report :: parse(dump(r)) == Loaded(r)
  }

  /** `unique_runs`: filters the runs through a `seen` set of (experiment, version) keys. */
  method UniqueRuns(runs: seq<BenchmarkRun>) returns (unique: seq<BenchmarkRun>)
    ensures unique == DedupBy(runs, KeyOf)
    ensures DistinctBy(unique, KeyOf)
    ensures IsSubsequence(unique, runs)
    ensures KeysOf(unique, KeyOf) == KeysOf(runs, KeyOf)
  {
    var seen: set<RunKey> := {};
    unique := [];
    for i := 0 to |runs|
      invariant unique == DedupBy(runs[..i], KeyOf)
      invariant seen == KeysOf(runs[..i], KeyOf)
    {
      DedupPrefixStep(runs, i, KeyOf);
      var p := KeyOf(runs[i]);
      if p !in seen {
        seen := seen + {p};
        unique := unique + [runs[i]];
      }
    }
    assert runs[..|runs|] == runs;
    DedupDistinct(runs, KeyOf);
    DedupSubsequence(runs, KeyOf);
    DedupKeys(runs, KeyOf);
  }

  /** The runs `add_run` writes: the new run in front of the old ones, deduplicated. */
  function WithRunAdded(runs: seq<BenchmarkRun>, run: BenchmarkRun): (added: seq<BenchmarkRun>)
    ensures RunAddedFirst(added, runs, run)
  {
    DedupHead([run] + runs, KeyOf);
    DedupDistinct([run] + runs, KeyOf);
    DedupBy([run] + runs, KeyOf)
  }

  /** `added` holds `run` first and no other run with its key, holds no key twice, and
      holds nothing that was not in `runs`. */
  predicate RunAddedFirst(added: seq<BenchmarkRun>, runs: seq<BenchmarkRun>, run: BenchmarkRun) {
    added != [] && added[0] == run && DistinctBy(added, KeyOf)
    && (forall i :: 0 < i < |added| ==> KeyOf(added[i]) != KeyOf(run))
    && (forall x :: x in added ==> x == run || x in runs)
  }

  /** The runs whose key is not `key`, in their order. */
  function OtherRuns(runs: seq<BenchmarkRun>, key: RunKey): (r: seq<BenchmarkRun>)
    ensures forall x :: x in r <==> x in runs && KeyOf(x) != key
  {
    if runs == [] then []
    else
      var init, last := runs[..|runs| - 1], runs[|runs| - 1];
      assert runs == init + [last];
      OtherRuns(init, key) + (if KeyOf(last) != key then [last] else [])
  }

  /** On a duplicate-free ledger, adding a run keeps every run with another key, in the
      same relative order, behind the new run. */
  lemma {:induction false} AddedKeepsOthers(runs: seq<BenchmarkRun>, run: BenchmarkRun)
    requires DistinctBy(runs, KeyOf)
    ensures WithRunAdded(runs, run) == [run] + OtherRuns(runs, KeyOf(run))
  {
    if runs == [] {
      assert WithRunAdded(runs, run) == DedupBy([run], KeyOf);
    } else {
      var init := runs[..|runs| - 1];
      assert DistinctBy(init, KeyOf);
      AddedKeepsOthers(init, run);
      AddedStep(runs, run);
      OtherRunsStep(runs, KeyOf(run));
    }
  }

  lemma OtherRunsStep(runs: seq<BenchmarkRun>, key: RunKey)
    requires runs != []
    ensures var init, last := runs[..|runs| - 1], runs[|runs| - 1];
            OtherRuns(runs, key) == OtherRuns(init, key) + (if KeyOf(last) != key then [last] else [])
  {
  }

  /** Adding to a duplicate-free ledger with one more run at its end: that run stays at the
      end unless it has the added run's key. */
  lemma AddedStep(runs: seq<BenchmarkRun>, run: BenchmarkRun)
    requires runs != [] && DistinctBy(runs, KeyOf)
    ensures var init, last := runs[..|runs| - 1], runs[|runs| - 1];
            WithRunAdded(runs, run)
            == WithRunAdded(init, run) + (if KeyOf(last) != KeyOf(run) then [last] else [])
  {
    var init, last := runs[..|runs| - 1], runs[|runs| - 1];
    var s := [run] + runs;
    assert s[..|s| - 1] == [run] + init && s[|s| - 1] == last;
    KeysOfPrepend(run, init, KeyOf);
    LastKeyIsNew(runs);
  }

  /** In a duplicate-free sequence the last run's key occurs nowhere before it. */
  lemma LastKeyIsNew(runs: seq<BenchmarkRun>)
    requires runs != [] && DistinctBy(runs, KeyOf)
    ensures KeyOf(runs[|runs| - 1]) !in KeysOf(runs[..|runs| - 1], KeyOf)
  {
  }

  /** Adding runs one after another: each key is held by the run added last with that
      key, or else by the first run of the original ledger with it. */
  function AddAll(runs: seq<BenchmarkRun>, added: seq<BenchmarkRun>): (r: seq<BenchmarkRun>)
    ensures added != [] ==> r != [] && r[0] == added[|added| - 1] && DistinctBy(r, KeyOf)
    ensures added == [] ==> r == runs
  {
    if added == [] then runs
    else WithRunAdded(AddAll(runs, added[..|added| - 1]), added[|added| - 1])
  }

  lemma {:induction false} AddAllLatestWins(runs: seq<BenchmarkRun>, added: seq<BenchmarkRun>, key: RunKey)
    ensures FirstWith(AddAll(runs, added), KeyOf, key) ==
            if key in KeysOf(added, KeyOf) then FirstWith(Reverse(added), KeyOf, key)
            else FirstWith(runs, KeyOf, key)
    ensures added != [] || DistinctBy(runs, KeyOf) ==> DistinctBy(AddAll(runs, added), KeyOf)
  {
    if added != [] {
      var init, last := added[..|added| - 1], added[|added| - 1];
      assert added == init + [last];
      AddAllLatestWins(runs, init, key);
      var before := AddAll(runs, init);
      AddOneLatestWins(before, last, key);
      KeysOfAppend(init, last, KeyOf);
      ReverseLast(added);
    }
  }

  /** The last run added is the first one of the reversed series. */
  lemma ReverseLast(added: seq<BenchmarkRun>)
    requires added != []
    ensures var init := added[..|added| - 1];
            Reverse(added) == [added[|added| - 1]] + Reverse(init) && Reverse(added)[1..] == Reverse(init)
  {
    var init, last := added[..|added| - 1], added[|added| - 1];
    assert Reverse(added) == [last] + Reverse(init);
    assert ([last] + Reverse(init))[1..] == Reverse(init);
  }

  /** One `add_run`: the added run's key finds it, any other key what it found before. */
  lemma AddOneLatestWins(runs: seq<BenchmarkRun>, run: BenchmarkRun, key: RunKey)
    ensures FirstWith(WithRunAdded(runs, run), KeyOf, key) ==
            if KeyOf(run) == key then Some(run) else FirstWith(runs, KeyOf, key)
  {
    DedupKeepsFirst([run] + runs, KeyOf, key);
    assert ([run] + runs)[1..] == runs;
  }

  /** `find_run`'s search: the first run with the key, or RUN_MISSING. */
  function FindInRuns(runs: seq<BenchmarkRun>, key: RunKey): (r: Retrieved<BenchmarkRun>)
    ensures r.Failed? <==> forall i :: 0 <= i < |runs| ==> KeyOf(runs[i]) != key
    ensures r.Failed? ==> r.reason == RUN_MISSING
    ensures r.Got? ==> exists i :: 0 <= i < |runs| && runs[i] == r.value && KeyOf(runs[i]) == key
                                   && forall j :: 0 <= j < i ==> KeyOf(runs[j]) != key
  {
    match FirstWith(runs, KeyOf, key)
    case Some(run) => Got(run)
    case None =>
      assert forall i :: 0 <= i < |runs| ==> KeyOf(runs[i]) != key by {
        forall i | 0 <= i < |runs| ensures KeyOf(runs[i]) != key { assert runs[i] in runs; }
      }
      Failed(RUN_MISSING)
  }

  /** `find_run`: searches a report, and passes a failure to read it through unchanged. */
  function FindRun(runs: Retrieved<Report>, key: RunKey): (r: Retrieved<BenchmarkRun>)
    ensures runs.Failed? ==> r == Failed(runs.reason)
    ensures runs.Got? ==> r == FindInRuns(runs.value.runs, key)
  {
    match runs
    case Got(report) => FindInRuns(report.runs, key)
    case Failed(reason) => Failed(reason)
  }

  /** Right after `add_run`, looking up the added run's key finds that very run, and every
      other key finds what it found before. */
  lemma FindAfterAdd(runs: seq<BenchmarkRun>, run: BenchmarkRun, key: RunKey)
    ensures FindInRuns(WithRunAdded(runs, run), KeyOf(run)) == Got(run)
    ensures key != KeyOf(run) ==> FindInRuns(WithRunAdded(runs, run), key) == FindInRuns(runs, key)
  {
    DedupKeepsFirst([run] + runs, KeyOf, KeyOf(run));
    DedupKeepsFirst([run] + runs, KeyOf, key);
    assert ([run] + runs)[1..] == runs;
  }

  /** Deduplicating a ledger does not change what `find_run` finds in it. */
  lemma UniqueRunsPreservesLookup(runs: seq<BenchmarkRun>, key: RunKey)
    ensures FindInRuns(DedupBy(runs, KeyOf), key) == FindInRuns(runs, key)
  {
    DedupKeepsFirst(runs, KeyOf, key);
  }

  /** `get_commit_run` as written. `git show` leaves stdout empty, not None, when the
      report does not exist at that commit, so the FILE_MISSING branch cannot be taken and
      the text "" goes to the parser. */
  function CommitRunAsWritten(show: Option<string>, parse: string -> YamlLoad, key: RunKey): (r: Raising<Retrieved<BenchmarkRun>>)
    ensures r != Returns(Failed(FILE_MISSING))
    ensures r.Returns? && r.value.Got? ==> KeyOf(r.value.value) == key
  {
    var stdout := if show.Some? then show.value else "";
    match Classify(parse(stdout))
    case Raises(e) => Raises(e)
    case Returns(report) =>
      var found := FindRun(report, key);
      assert found.Got? ==> KeyOf(found.value) == key;
      Returns(found)
  }

  /** A commit whose tree has no report (every commit made before the tool was set up) makes
      `get_commit_run` raise TypeError, since YAML loads the empty text as None. */
  lemma MissingSnapshotRaises(parse: string -> YamlLoad, key: RunKey)
    requires parse("") == NotAMapping
    ensures CommitRunAsWritten(None, parse, key) == Raises(TypeError)
  {
  }

  /** The correction changes only the missing report and the report that is not a mapping:
      on any other text, the code as written returns what `CommitRun` returns. */
  lemma CommitRunAgrees(show: Option<string>, parse: string -> YamlLoad, key: RunKey)
    requires show.Some? && !parse(show.value).NotAMapping?
    ensures CommitRunAsWritten(show, parse, key) == Returns(CommitRun(show, parse, key))
  {
  }

  /** `get_commit_run` as evidently intended: a missing report is FILE_MISSING, and any
      text that does not load as a report is BAD_FORMAT, so the listing can skip the commit. */
  function CommitRun(show: Option<string>, parse: string -> YamlLoad, key: RunKey): (r: Retrieved<BenchmarkRun>)
    ensures show.None? <==> r == Failed(FILE_MISSING)
    ensures r == Failed(BAD_FORMAT) <==> show.Some? && !parse(show.value).Loaded?
    ensures r.Got? <==> show.Some? && parse(show.value).Loaded?
                        && exists run :: run in parse(show.value).report.runs && KeyOf(run) == key
    ensures r.Got? ==> r == FindInRuns(parse(show.value).report.runs, key)
  {
    match show
    case None => Failed(FILE_MISSING)
    case Some(text) =>
      match parse(text)
      case Loaded(report) =>
        var r := FindInRuns(report.runs, key);
        assert r.Failed? ==> r.reason == RUN_MISSING;
        assert r.Failed? <==> forall run :: run in report.runs ==> KeyOf(run) != key by {
          if !r.Failed? {
            var i :| 0 <= i < |report.runs| && KeyOf(report.runs[i]) == key;
            assert report.runs[i] in report.runs;
          }
        }
        r
      case _ => Failed(BAD_FORMAT)
  }

  /** The report file `.benchk/report.yml`, held as its text (None while it does not exist). */
  class RunStore {
    var file: Option<string>
    const parse: string -> YamlLoad
    const dump: Report -> string

    ghost predicate Valid() {
      RoundTrips(parse, dump)
    }

    /** What `read_runs` would return now. */
    ghost function Stored(): Raising<Retrieved<Report>>
      reads this
    {
      if file.None? then Returns(Got(Report([]))) else Classify(parse(file.value))
    }

    constructor (file: Option<string>, parse: string -> YamlLoad, dump: Report -> string)
      requires RoundTrips(parse, dump)
      ensures Valid() && this.file == file && this.parse == parse && this.dump == dump
    {
      this.file := file;
      this.parse := parse;
      this.dump := dump;
    }

    /** `write_runs`: replaces the whole file. */
    method WriteRuns(report: Report)
      requires Valid()
      modifies this
      ensures Valid() && file == Some(dump(report))
      ensures Stored() == Returns(Got(report))
    {
      file := Some(dump(report));
    }

    /** `read_runs`: bootstraps an empty report when the file is absent, otherwise reads it
        without writing. */
    method ReadRuns() returns (r: Raising<Retrieved<Report>>)
      requires Valid()
      modifies this
      ensures Valid() && r == old(Stored()) && Stored() == old(Stored())
      ensures old(file).None? ==> file == Some(dump(Report([])))
      ensures old(file).Some? ==> file == old(file)
    {
      if file.None? {
        WriteRuns(Report([]));
      }
      r := Classify(parse(file.value));
    }

    /** `add_run`: read, put the run in front, deduplicate, write back; a badly formatted
        report ends the command with status 1 and is left as it is. */
    method AddRun(run: BenchmarkRun) returns (status: Raising<()>)
      requires Valid()
      modifies this
      ensures Valid()
      ensures match old(Stored())
        case Returns(Got(report)) =>
          status == Returns(()) && file == Some(dump(Report(WithRunAdded(report.runs, run))))
          && Stored() == Returns(Got(Report(WithRunAdded(report.runs, run))))
        case Returns(Failed(_)) => status == Raises(Exit(1)) && file == old(file)
        case Raises(e) => status == Raises(e) && file == old(file)
    {
      var read := ReadRuns();
      match read {
        case Raises(e) =>
          status := Raises(e);
        case Returns(Failed(_)) =>
          status := Raises(Exit(1));
        case Returns(Got(report)) =>
          var runs := UniqueRuns([run] + report.runs);
          WriteRuns(Report(runs));
          status := Returns(());
      }
    }

    /** `get_current_run`: `find_run` over what `read_runs` returns. */
    method GetCurrentRun(experiment: string, version: int) returns (r: Raising<Retrieved<BenchmarkRun>>)
      requires Valid()
      modifies this
      ensures Valid() && Stored() == old(Stored())
      ensures old(file).None? ==> file == Some(dump(Report([])))
      ensures old(file).Some? ==> file == old(file)
      ensures old(Stored()).Raises? ==> r == Raises(old(Stored()).error)
      ensures old(Stored()).Returns? ==> r == Returns(FindRun(old(Stored()).value, RunKey(experiment, version)))
    {
      var read := ReadRuns();
      match read {
        case Raises(e) => r := Raises(e);
        case Returns(report) => r := Returns(FindRun(report, RunKey(experiment, version)));
      }
    }
  }
}
