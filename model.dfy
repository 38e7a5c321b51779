/** The data model of the benchmark ledger: one benchmark's result, a run of an experiment,
    the persisted report, and the two configuration records (benchmark_keeper/__init__.py). */
module Model {
  import opened Outcomes

  /** The free-form metadata a benchmark may carry (`Mapping[str, Any]` loaded from JSON/YAML). */
  datatype Json =
    | JNull
    | JBool(b: bool)
    | JNumber(n: real)
    | JString(s: string)
    | JArray(items: seq<Json>)
    | JObject(fields: map<string, Json>)

  /** The result of one benchmark; `target` is a measurement (nanoseconds by convention). */
  datatype BenchmarkResult = BenchmarkResult(target: real, labels: seq<string>, unstructured: map<string, Json>)

  type Benchmarks = map<string, BenchmarkResult>

  /** The results of every benchmark of one (experiment, version), identified by `tag`. */
  datatype BenchmarkRun = BenchmarkRun(
    tag: string,
    experiment: string,
    experimentVersion: int,
    machine: string,
    benchmarks: Benchmarks,
    fileDigest: string)

  /** The persisted runs; documented to hold at most one run per (experiment, version). */
  datatype Report = Report(runs: seq<BenchmarkRun>)

  /** The identity of a run in the ledger: not its tag but its (experiment, version) pair. */
  datatype RunKey = RunKey(experiment: string, version: int)

  function KeyOf(run: BenchmarkRun): RunKey {
    RunKey(run.experiment, run.experimentVersion)
  }

  /** A result built with the model's defaults: no labels, no metadata. */
  function NewResult(target: real): (r: BenchmarkResult)
    ensures r.target == target && r.labels == [] && r.unstructured == map[]
  {
    BenchmarkResult(target, [], map[])
  }

  /** A run built without a digest gets the empty digest, which means "change detection off". */
  function NewRun(tag: string, experiment: string, version: int, machine: string, benchmarks: Benchmarks): (r: BenchmarkRun)
    ensures KeyOf(r) == RunKey(experiment, version) && r.tag == tag && r.machine == machine
    ensures r.benchmarks == benchmarks && r.fileDigest == ""
  {
    BenchmarkRun(tag, experiment, version, machine, benchmarks, "")
  }

  /** Why a run could not be produced from a ledger. */
  datatype DataRetrieveFailure = FILE_MISSING | BAD_FORMAT | RUN_MISSING

  /** `T | DataRetrieveFailure` in the source. */
  datatype Retrieved<+T> = Got(value: T) | Failed(reason: DataRetrieveFailure)

  datatype Experiment = Experiment(
    name: string,
    version: int,
    buildScript: Option<string>,
    testScript: Option<string>,
    benchmarkScript: string,
    watchFiles: seq<string>)

  /** An experiment configured with only its name and benchmark script. */
  function NewExperiment(name: string, benchmarkScript: string): (e: Experiment)
    ensures e.name == name && e.benchmarkScript == benchmarkScript
    ensures e.version == 1 && e.watchFiles == [] && e.buildScript == None && e.testScript == None
  {
    Experiment(name, 1, None, None, benchmarkScript, [])
  }

  datatype LocalConfig = LocalConfig(machineName: string, activeExperiment: Option<string>)

  datatype RepoConfig = RepoConfig(experiments: seq<Experiment>)

  /** The local configuration written on first use. */
  function DefaultLocalConfig(): (c: LocalConfig)
    ensures c.machineName == "MyMachine" && c.activeExperiment == None
  {
    LocalConfig("MyMachine", None)
  }

  /** The repository configuration written on first use. */
  function DefaultRepoConfig(): (c: RepoConfig)
    ensures c.experiments == []
  {
    RepoConfig([])
  }
}
