/** The application configuration (benchmark_keeper/__init__.py): which experiment is active,
    and the bootstrap that `get_config` applies when none is set. */
module Config {
  import opened Outcomes
  import opened Model

  /** `next(filter(lambda x: x.name == name, experiments), None)`. A name of None matches
      nothing, since no experiment's name is None. */
  function FirstNamed(experiments: seq<Experiment>, name: Option<string>): (r: Option<Experiment>)
    ensures r.None? <==> forall i :: 0 <= i < |experiments| ==> Some(experiments[i].name) != name
    ensures r.Some? ==> exists i :: 0 <= i < |experiments| && experiments[i] == r.value
                                    && Some(experiments[i].name) == name
                                    && forall j :: 0 <= j < i ==> Some(experiments[j].name) != name
  {
    if experiments == [] then None
    else if Some(experiments[0].name) == name then Some(experiments[0])
    else
      var r := FirstNamed(experiments[1..], name);
      if r.Some? then
        var i :| 0 <= i < |experiments[1..]| && experiments[1..][i] == r.value
                 && Some(experiments[1..][i].name) == name
                 && forall j :: 0 <= j < i ==> Some(experiments[1..][j].name) != name;
        assert experiments[i + 1] == r.value;
        r
      else r
  }

  /** The bootstrap at the end of `get_config`: with no active experiment and at least one
      configured, the first configured experiment becomes the active one. */
  function Bootstrapped(local: LocalConfig, repo: RepoConfig): (r: LocalConfig)
    ensures r.machineName == local.machineName
    ensures local.activeExperiment.None? && repo.experiments != []
            ==> r.activeExperiment == Some(repo.experiments[0].name)
    ensures local.activeExperiment.Some? || repo.experiments == [] ==> r == local
  {
    if local.activeExperiment.None? && repo.experiments != [] then
      local.(activeExperiment := Some(repo.experiments[0].name))
    else local
  }

  /** Bootstrapping a second time changes nothing. */
  lemma BootstrapIdempotent(local: LocalConfig, repo: RepoConfig)
    ensures Bootstrapped(Bootstrapped(local, repo), repo) == Bootstrapped(local, repo)
  {
  }

  /** After bootstrapping, an experiment is active whenever any is configured. */
  lemma BootstrapActivates(local: LocalConfig, repo: RepoConfig)
    requires local.activeExperiment.None? && repo.experiments != []
    ensures FirstNamed(repo.experiments, Bootstrapped(local, repo).activeExperiment) == Some(repo.experiments[0])
  {
  }

  /** The bootstrap of `get_config` as written: it reads the local variable `repo_config`,
      which is only bound on the call that loads the configuration. A cached call that
      finds no active experiment raises UnboundLocalError. */
  function GetConfigBootstrapAsWritten(cached: bool, local: LocalConfig, repo: RepoConfig): (r: Raising<LocalConfig>)
    ensures r.Raises? <==> cached && local.activeExperiment.None?
    ensures r.Returns? ==> r.value.machineName == local.machineName
    ensures r.Returns? ==> r.value == Bootstrapped(local, repo)
  {
    if local.activeExperiment.Some? then Returns(local)
    else if cached then Raises(UnboundLocalError)
    else Returns(Bootstrapped(local, repo))
  }

  /** With no experiment configured, the first `get_config` leaves none active, and the next
      call in the same process raises. */
  lemma SecondGetConfigRaises(machine: string)
    ensures var first := GetConfigBootstrapAsWritten(false, LocalConfig(machine, None), RepoConfig([]));
            first == Returns(LocalConfig(machine, None))
            && GetConfigBootstrapAsWritten(true, first.value, RepoConfig([])) == Raises(UnboundLocalError)
  {
  }

  /** `AppConfig`: the configuration cached for the process. `localFile` is the content of
      `local_config.yml`. */
  class AppConfig {
    const rootDirectory: string
    var localConfig: LocalConfig
    var repoConfig: RepoConfig
    var localFile: LocalConfig

    constructor (rootDirectory: string, local: LocalConfig, repo: RepoConfig)
      ensures this.rootDirectory == rootDirectory
      ensures localConfig == local && localFile == local && repoConfig == repo
    {
      this.rootDirectory := rootDirectory;
      localConfig := local;
      repoConfig := repo;
      localFile := local;
    }

    /** `active_experiment`: the first configured experiment named as the active one. */
    function ActiveExperiment(): (e: Option<Experiment>)
      reads this
      ensures e.None? <==> forall i :: 0 <= i < |repoConfig.experiments|
                                   ==> Some(repoConfig.experiments[i].name) != localConfig.activeExperiment
      ensures e.Some? ==> localConfig.activeExperiment == Some(e.value.name)
                          && exists i :: 0 <= i < |repoConfig.experiments| && repoConfig.experiments[i] == e.value
                                         && forall j :: 0 <= j < i ==> repoConfig.experiments[j].name != e.value.name
    {
      FirstNamed(repoConfig.experiments, localConfig.activeExperiment)
    }

    /** The bootstrap in `get_config`, reading the cached repository configuration: it sets
        and writes the local configuration only when that has no active experiment and an
        experiment is configured. */
    method Bootstrap() returns (wrote: bool)
      modifies this
      ensures localConfig == Bootstrapped(old(localConfig), repoConfig) && repoConfig == old(repoConfig)
      ensures wrote <==> old(localConfig).activeExperiment.None? && repoConfig.experiments != []
      ensures wrote ==> localFile == localConfig
      ensures !wrote ==> localFile == old(localFile) && localConfig == old(localConfig)
    {
      wrote := false;
      if localConfig.activeExperiment.None? && repoConfig.experiments != [] {
        localConfig := localConfig.(activeExperiment := Some(repoConfig.experiments[0].name));
        localFile := localConfig;
        wrote := true;
      }
    }
  }
}
