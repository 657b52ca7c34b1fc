/** The Helm deployer's decision logic over an abstract release store
    (pkg/deployer/helm.go). Every call into Helm or the cluster that can fail
    is an oracle in `HelmFaults`; the store keeps each release's labels. */
module Helm {
  import opened Errors
  import opened Installer

  const LabelKeyManagedBy := "inspektor-gadget.io/managed-by"
  const LabelValueManagedBy := "ig-mcp-server"
  const DefaultReleaseName := "gadget"
  const DefaultNamespace := "gadget"

  /** The labels Deploy puts on the release it installs. */
  const ManagedLabels: map<string, string> := map[LabelKeyManagedBy := LabelValueManagedBy]

  /** Releases are stored per namespace. */
  datatype ReleaseKey = ReleaseKey(namespace: string, name: string)

  datatype Release = Release(labels: map<string, string>)

  /** The settings of the Helm install action Deploy runs. */
  datatype InstallAction = InstallAction(
    chartUrl: string,
    releaseName: string,
    namespace: string,
    createNamespace: bool,
    wait: bool,
    timeoutSeconds: int,
    labels: map<string, string>)

  /** The outcome of each external step: getActionConfig (first and, in
      Undeploy, second call), the get action's lookup (which fails on an
      existing release too when the cluster or the release storage fails),
      LocateChart, loader.Load, the install run and the uninstall run. When
      the install run fails after Helm has stored the release (a failed wait,
      say), `installRecorded` says so: the record stays, with its labels. */
  datatype HelmFaults = HelmFaults(
    actionConfig: Option<Error>,
    get: Option<Error>,
    locateChart: Option<Error>,
    loadChart: Option<Error>,
    install: Option<Error>,
    installRecorded: bool,
    uninstallConfig: Option<Error>,
    uninstall: Option<Error>)

  const NoFaults := HelmFaults(None, None, None, None, None, false, None, None)

  /** An empty release name or namespace means the default. */
  function OrDefault(s: string, default: string): (r: string)
    ensures s != "" ==> r == s
    ensures s == "" ==> r == default
  {
    if s == "" then default else s
  }

  /** The release Deploy, Undeploy and IsDeployed all address for a config. */
  function Target(cfg: Config): (k: ReleaseKey)
    ensures k.name != "" && k.namespace != ""
    ensures k.name == OrDefault(cfg.releaseName, DefaultReleaseName)
    ensures k.namespace == OrDefault(cfg.namespace, DefaultNamespace)
  {
    ReleaseKey(OrDefault(cfg.namespace, DefaultNamespace), OrDefault(cfg.releaseName, DefaultReleaseName))
  }

  /** The install action Deploy configures for a config. */
  function InstallFor(cfg: Config): (a: InstallAction)
    ensures a.chartUrl == cfg.chartUrl
    ensures ReleaseKey(a.namespace, a.releaseName) == Target(cfg)
    ensures a.createNamespace == !cfg.skipNamespaceCreation
    ensures a.wait && a.timeoutSeconds == 30
    ensures a.labels == ManagedLabels
  {
    var k := Target(cfg);
    InstallAction(cfg.chartUrl, k.name, k.namespace, !cfg.skipNamespaceCreation, true, 30, ManagedLabels)
  }

  /** The release carries this server's management marker. */
  predicate Managed(labels: map<string, string>)
  {
    LabelKeyManagedBy in labels && labels[LabelKeyManagedBy] == LabelValueManagedBy
  }

  /** The loop over the release's labels in IsDeployed: visits them in any
      order and stops at the marker. */
  method HasManagedLabel(labels: map<string, string>) returns (found: bool)
    ensures found == Managed(labels)
  {
    var remaining := labels.Keys;
    while remaining != {}
      invariant remaining <= labels.Keys
      invariant LabelKeyManagedBy in labels.Keys - remaining ==> labels[LabelKeyManagedBy] != LabelValueManagedBy
    {
      var k :| k in remaining;
      if k == LabelKeyManagedBy && labels[k] == LabelValueManagedBy {
        return true;
      }
      remaining := remaining - {k};
    }
    return false;
  }

  /** The error Deploy returns for a config, or None when the release is installed. */
  function DeployError(cfg: Config, faults: HelmFaults): (err: Option<Error>)
    ensures cfg.chartUrl == "" ==> err == Some(SentinelError(ChartURLNotSet))
    ensures err.None? <==> cfg.chartUrl != "" && faults.actionConfig.None? && faults.locateChart.None?
                           && faults.loadChart.None? && faults.install.None?
  {
    if cfg.chartUrl == "" then Some(SentinelError(ChartURLNotSet))
    else if faults.actionConfig.Some? then Some(Wrap("get action configuration", faults.actionConfig.value))
    else if faults.locateChart.Some? then Some(Wrap("locate chart", faults.locateChart.value))
    else if faults.loadChart.Some? then Some(Wrap("load chart", faults.loadChart.value))
    else if faults.install.Some? then Some(Wrap("run install action", faults.install.value))
    else None
  }

  /** Deploy reaches the install run. */
  predicate InstallRuns(cfg: Config, faults: HelmFaults)
  {
    cfg.chartUrl != "" && faults.actionConfig.None? && faults.locateChart.None? && faults.loadChart.None?
  }

  /** The install run leaves a release record: it succeeded, or it failed
      after Helm had stored the release. */
  predicate Recorded(cfg: Config, faults: HelmFaults)
  {
    InstallRuns(cfg, faults) && (faults.install.None? || faults.installRecorded)
  }

  /** What IsDeployed answers for a config against a store. */
  function Probe(releases: map<ReleaseKey, Release>, cfg: Config, faults: HelmFaults): (r: Result<bool>)
    ensures r.Ok? <==> faults.actionConfig.None? && faults.get.None? && Target(cfg) in releases
    ensures r.Ok? ==> r.value == Managed(releases[Target(cfg)].labels)
    ensures faults.actionConfig.None? && faults.get.None? && Target(cfg) !in releases ==>
      r == Fail(Wrap("run get action", Message("release: not found")))
  {
    if faults.actionConfig.Some? then Fail(Wrap("get action configuration", faults.actionConfig.value))
    else if faults.get.Some? then Fail(Wrap("run get action", faults.get.value))
    else if Target(cfg) !in releases then Fail(Wrap("run get action", Message("release: not found")))
    else Ok(Managed(releases[Target(cfg)].labels))
  }

  /** The error Undeploy returns for a config against a store, or None when
      the release is removed. */
  function UndeployError(releases: map<ReleaseKey, Release>, cfg: Config, faults: HelmFaults): (err: Option<Error>)
    ensures err.None? <==> Probe(releases, cfg, faults) == Ok(true)
                           && faults.uninstallConfig.None? && faults.uninstall.None?
    ensures Probe(releases, cfg, faults) == Ok(false) ==> err == Some(SentinelError(NotDeployedByDeployer))
    ensures Probe(releases, cfg, faults).Fail? ==>
      err == Some(Wrap("check if gadget is deployed", Probe(releases, cfg, faults).error))
  {
    match Probe(releases, cfg, faults)
    case Fail(e) => Some(Wrap("check if gadget is deployed", e))
    case Ok(deployed) =>
      if !deployed then Some(SentinelError(NotDeployedByDeployer))
      else if faults.uninstallConfig.Some? then Some(Wrap("get action configuration", faults.uninstallConfig.value))
      else if faults.uninstall.Some? then Some(Wrap("run uninstall action", faults.uninstall.value))
      else None
  }

  /** Undeploy reaches the uninstall run. */
  predicate UninstallRuns(releases: map<ReleaseKey, Release>, cfg: Config, faults: HelmFaults)
  {
    Probe(releases, cfg, faults) == Ok(true) && faults.uninstallConfig.None?
  }

  /** The Helm deployer together with the release store it acts on. The two
      logs record the install and uninstall actions actually run. */
  class HelmDeployer {
    var releases: map<ReleaseKey, Release>
    var installs: seq<InstallAction>
    var uninstalls: seq<ReleaseKey>

    constructor (releases: map<ReleaseKey, Release>)
      ensures this.releases == releases && installs == [] && uninstalls == []
    {
      this.releases := releases;
      installs := [];
      uninstalls := [];
    }

    method Deploy(opts: seq<RunOption>, faults: HelmFaults) returns (err: Option<Error>)
      modifies this
      ensures var cfg := Applied(ZeroConfig, opts);
        && err == DeployError(cfg, faults)
        && installs == old(installs) + (if InstallRuns(cfg, faults) then [InstallFor(cfg)] else [])
        && releases == (if Recorded(cfg, faults) then old(releases)[Target(cfg) := Release(ManagedLabels)] else old(releases))
        && uninstalls == old(uninstalls)
    {
      var cfg := ApplyOptions(ZeroConfig, opts);
      if cfg.chartUrl == "" {
        return Some(SentinelError(ChartURLNotSet));
      }
      var target := Target(cfg);
      if faults.actionConfig.Some? {
        return Some(Wrap("get action configuration", faults.actionConfig.value));
      }
      var install := InstallFor(cfg);
      if faults.locateChart.Some? {
        return Some(Wrap("locate chart", faults.locateChart.value));
      }
      if faults.loadChart.Some? {
        return Some(Wrap("load chart", faults.loadChart.value));
      }
      installs := installs + [install];
      if faults.install.Some? {
        if faults.installRecorded {
          releases := releases[target := Release(install.labels)];
        }
        return Some(Wrap("run install action", faults.install.value));
      }
      releases := releases[target := Release(install.labels)];
      return None;
    }

    method IsDeployed(opts: seq<RunOption>, faults: HelmFaults) returns (r: Result<bool>)
      ensures r == Probe(releases, Applied(ZeroConfig, opts), faults)
    {
      var cfg := ApplyOptions(ZeroConfig, opts);
      var target := Target(cfg);
      if faults.actionConfig.Some? {
        return Fail(Wrap("get action configuration", faults.actionConfig.value));
      }
      if faults.get.Some? {
        return Fail(Wrap("run get action", faults.get.value));
      }
      if target !in releases {
        return Fail(Wrap("run get action", Message("release: not found")));
      }
      var found := HasManagedLabel(releases[target].labels);
      return Ok(found);
    }

    method Undeploy(opts: seq<RunOption>, faults: HelmFaults) returns (err: Option<Error>)
      modifies this
      ensures var cfg := Applied(ZeroConfig, opts);
        && err == UndeployError(old(releases), cfg, faults)
        && uninstalls == old(uninstalls) + (if UninstallRuns(old(releases), cfg, faults) then [Target(cfg)] else [])
        && releases == (if err.None? then old(releases) - {Target(cfg)} else old(releases))
        && installs == old(installs)
    {
      var cfg := ApplyOptions(ZeroConfig, opts);
      var target := Target(cfg);
      var deployed := IsDeployed(opts, faults);
      if deployed.Fail? {
        return Some(Wrap("check if gadget is deployed", deployed.error));
      }
      if !deployed.value {
        return Some(SentinelError(NotDeployedByDeployer));
      }
      if faults.uninstallConfig.Some? {
        return Some(Wrap("get action configuration", faults.uninstallConfig.value));
      }
      uninstalls := uninstalls + [target];
      if faults.uninstall.Some? {
        return Some(Wrap("run uninstall action", faults.uninstall.value));
      }
      releases := releases - {target};
      return None;
    }
  }

  /** A release this server installed is reported as deployed by it. */
  lemma DeployedIsManaged(releases: map<ReleaseKey, Release>, cfg: Config, faults: HelmFaults, later: HelmFaults)
    requires DeployError(cfg, faults).None?
    requires later.actionConfig.None? && later.get.None?
    ensures Recorded(cfg, faults)
    ensures Probe(releases[Target(cfg) := Release(ManagedLabels)], cfg, later) == Ok(true)
  {
  }

  /** A failed install whose record Helm kept still carries the marker: a
      later IsDeployed answers true, and Undeploy may uninstall it. */
  lemma FailedRecordedInstallIsManaged(releases: map<ReleaseKey, Release>, cfg: Config, faults: HelmFaults, later: HelmFaults)
    requires Recorded(cfg, faults) && faults.install.Some?
    requires later.actionConfig.None? && later.get.None?
    ensures DeployError(cfg, faults) == Some(Wrap("run install action", faults.install.value))
    ensures Probe(releases[Target(cfg) := Release(ManagedLabels)], cfg, later) == Ok(true)
    ensures later.uninstallConfig.None? ==> UninstallRuns(releases[Target(cfg) := Release(ManagedLabels)], cfg, later)
  {
  }

  /** A release without the marker is never uninstalled: Undeploy fails with
      the sentinel ErrNotDeployedByDeployer. */
  lemma UnmarkedReleaseIsKept(releases: map<ReleaseKey, Release>, cfg: Config, faults: HelmFaults)
    requires faults.actionConfig.None? && faults.get.None?
    requires Target(cfg) in releases && !Managed(releases[Target(cfg)].labels)
    ensures !UninstallRuns(releases, cfg, faults)
    ensures Is(UndeployError(releases, cfg, faults).value, NotDeployedByDeployer)
  {
  }
}
