/** The deploy_inspektor_gadget tool (pkg/tools/deploy_tool.go): resolving
    the call's arguments into deployer options and classifying the outcome.
    The re-registration it schedules is GadgetToolRegistry.ReregisterAfterDeploy. */
module DeployTool {
  import opened Errors
  import opened Mcp
  import opened Installer
  import opened Helm

  const DefaultChartUrl := "oci://ghcr.io/inspektor-gadget/inspektor-gadget/charts/gadget"
  const DeployToolName := "deploy_inspektor_gadget"
  const DeploySucceeded := "Inspektor Gadget deploy completed successfully"

  function DeployToolDef(images: seq<string>): (t: ServerTool)
    ensures t.tool.name == DeployToolName && !t.tool.readOnlyHint
    ensures t.handler == DeployHandler(images)
    ensures t.tool.properties.Keys == {"namespace", "release", "chart_version"} && t.tool.required == []
  {
    ServerTool(
      Tool(
        DeployToolName,
        "Deploy Inspektor Gadget on the target system",
        false,
        map[
          "namespace" := StringProp("Kubernetes namespace to deploy Inspektor Gadget into, "
            + "only set if user explicitly specifies a namespace", Some(DefaultNamespace)),
          "release" := StringProp("Name of Helm release to create for Inspektor Gadget, "
            + "only set if user explicitly specifies a release name", Some(DefaultReleaseName)),
          "chart_version" := StringProp("Version of the Inspektor Gadget Helm chart to deploy, "
            + "only set if user explicitly specifies a version", None)
        ],
        []),
      DeployHandler(images))
  }

  /** getLatestChartVersion: a fixed placeholder that never fails. */
  function LatestChartVersion(): string
  {
    "1.0.0-dev"
  }

  /** The chart version: the argument when it is a non-empty string, else the latest. */
  function ChartVersion(args: Arguments): (v: string)
    ensures v != ""
    ensures GetString(args, "chart_version", "") == "" ==> v == "1.0.0-dev"
    ensures GetString(args, "chart_version", "") != "" ==> v == args["chart_version"].s
  {
    var version := GetString(args, "chart_version", "");
    if version == "" then LatestChartVersion() else version
  }

  /** The options the handler passes to Deploy, in order. */
  function DeployOptions(args: Arguments): seq<RunOption>
  {
    [ WithChartURL(DefaultChartUrl + ":" + ChartVersion(args)),
      WithReleaseName(GetString(args, "release", DefaultReleaseName)),
      WithNamespace(GetString(args, "namespace", DefaultNamespace)) ]
  }

  /** The deployer configuration a call resolves to. */
  function DeployConfig(args: Arguments): (cfg: Config)
    ensures cfg.chartUrl == DefaultChartUrl + ":" + ChartVersion(args)
    ensures cfg.releaseName == GetString(args, "release", DefaultReleaseName)
    ensures cfg.namespace == GetString(args, "namespace", DefaultNamespace)
    ensures !cfg.skipNamespaceCreation
  {
    var o := DeployOptions(args);
    var c1 := Apply(o[0], ZeroConfig);
    var c2 := Apply(o[1], c1);
    assert Applied(c2, o[2..]) == Apply(o[2], c2) by { assert o[2..][1..] == []; }
    assert Applied(c1, o[1..]) == Applied(c2, o[2..]) by { assert o[1..][1..] == o[2..]; }
    Applied(ZeroConfig, o)
  }

  /** The release a call deploys: the given name and namespace when they are
      non-empty strings, otherwise "gadget" (also when given as ""). */
  lemma DeployTarget(args: Arguments)
    ensures Target(DeployConfig(args)).name ==
      (if "release" in args && args["release"].Str? && args["release"].s != "" then args["release"].s else "gadget")
    ensures Target(DeployConfig(args)).namespace ==
      (if "namespace" in args && args["namespace"].Str? && args["namespace"].s != "" then args["namespace"].s else "gadget")
  {
  }

  /** The handler always supplies a chart URL, so ErrChartURLNotSet never reaches its caller. */
  lemma ChartUrlAlwaysSet(args: Arguments, faults: HelmFaults)
    ensures DeployConfig(args).chartUrl != ""
    ensures DeployError(DeployConfig(args), faults) != Some(SentinelError(ChartURLNotSet))
  {
  }

  /** The three-way classification of a deploy call. */
  function DeployResult(args: Arguments, registryClientErr: Option<Error>, faults: HelmFaults): (r: CallResult)
    ensures r.Fault? <==> registryClientErr.Some?
    ensures r.Fault? ==> r.err == Wrap("create deployer", Wrap("create registry client", registryClientErr.value))
    ensures r.ErrorResult? <==> registryClientErr.None? && DeployError(DeployConfig(args), faults).Some?
    ensures r.ErrorResult? ==> r.text == Text(DeployError(DeployConfig(args), faults).value)
    ensures r.TextResult? ==> r.text == DeploySucceeded
  {
    match NewDeployer(KubernetesEnv, registryClientErr)
    case Fail(e) => Fault(Wrap("create deployer", e))
    case Ok(_) =>
      match DeployError(DeployConfig(args), faults)
      case Some(e) => ErrorResult(Text(e))
      case None => TextResult(DeploySucceeded)
  }

  /** deployHandler: creates the Kubernetes deployer and deploys. A text
      result is the point where the source schedules the re-registration. */
  method HandleDeploy(args: Arguments, registryClientErr: Option<Error>, helm: HelmDeployer, faults: HelmFaults)
    returns (r: CallResult)
    modifies helm
    ensures r == DeployResult(args, registryClientErr, faults)
    ensures var cfg := DeployConfig(args);
      if registryClientErr.Some? then
        helm.releases == old(helm.releases) && helm.installs == old(helm.installs)
      else
        && helm.installs == old(helm.installs) + (if InstallRuns(cfg, faults) then [InstallFor(cfg)] else [])
        && helm.releases == (if Recorded(cfg, faults) then old(helm.releases)[Target(cfg) := Release(ManagedLabels)] else old(helm.releases))
        && (r.TextResult? ==> Target(cfg) in helm.releases && Managed(helm.releases[Target(cfg)].labels))
    ensures helm.uninstalls == old(helm.uninstalls)
  {
    var version := GetString(args, "chart_version", "");
    if version == "" {
      version := LatestChartVersion();
    }
    var chartUrl := DefaultChartUrl + ":" + version;
    var releaseName := GetString(args, "release", DefaultReleaseName);
    var namespace := GetString(args, "namespace", DefaultNamespace);
    var deployer := NewDeployer(KubernetesEnv, registryClientErr);
    if deployer.Fail? {
      return Fault(Wrap("create deployer", deployer.error));
    }
    var opts := [WithChartURL(chartUrl), WithReleaseName(releaseName), WithNamespace(namespace)];
    assert opts == DeployOptions(args);
    var err := helm.Deploy(opts, faults);
    if err.Some? {
      return ErrorResult(Text(err.value));
    }
    return TextResult(DeploySucceeded);
  }
}
