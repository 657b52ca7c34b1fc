/** The undeploy_inspektor_gadget tool (pkg/tools/undeploy_tool.go). */
module UndeployTool {
  import opened Errors
  import opened Mcp
  import opened Installer
  import opened Helm

  const UndeployToolName := "undeploy_inspektor_gadget"
  const UndeploySucceeded := "Inspektor Gadget undeploy completed successfully"

  function UndeployToolDef(): (t: ServerTool)
    ensures t.tool.name == UndeployToolName && !t.tool.readOnlyHint
    ensures t.handler == UndeployHandler
    ensures t.tool.properties.Keys == {"release", "namespace"} && t.tool.required == []
  {
    ServerTool(
      Tool(
        UndeployToolName,
        "Undeploy Inspektor Gadget from the target system",
        false,
        map[
          "release" := StringProp("Name of Helm release to remove, "
            + "only set if user explicitly specifies a release name", Some(DefaultReleaseName)),
          "namespace" := StringProp("Kubernetes namespace to undeploy Inspektor Gadget from, "
            + "only set if user explicitly specifies a namespace", Some(DefaultNamespace))
        ],
        []),
      UndeployHandler)
  }

  /** The options the handler passes to Undeploy: a release and a namespace, no chart URL. */
  function UndeployOptions(args: Arguments): seq<RunOption>
  {
    [ WithReleaseName(GetString(args, "release", DefaultReleaseName)),
      WithNamespace(GetString(args, "namespace", DefaultNamespace)) ]
  }

  function UndeployConfig(args: Arguments): (cfg: Config)
    ensures cfg.chartUrl == "" && !cfg.skipNamespaceCreation
    ensures cfg.releaseName == GetString(args, "release", DefaultReleaseName)
    ensures cfg.namespace == GetString(args, "namespace", DefaultNamespace)
  {
    var o := UndeployOptions(args);
    var c1 := Apply(o[0], ZeroConfig);
    assert Applied(c1, o[1..]) == Apply(o[1], c1) by { assert o[1..][1..] == []; }
    Applied(ZeroConfig, o)
  }

  /** The release a call removes: the given name and namespace when they are
      non-empty strings, otherwise "gadget". */
  lemma UndeployTarget(args: Arguments)
    ensures Target(UndeployConfig(args)).name ==
      (if "release" in args && args["release"].Str? && args["release"].s != "" then args["release"].s else "gadget")
    ensures Target(UndeployConfig(args)).namespace ==
      (if "namespace" in args && args["namespace"].Str? && args["namespace"].s != "" then args["namespace"].s else "gadget")
  {
  }

  /** The three-way classification of an undeploy call: every Undeploy
      failure, ErrNotDeployedByDeployer included, is a tool-level error. */
  function UndeployResult(args: Arguments, registryClientErr: Option<Error>,
                          releases: map<ReleaseKey, Release>, faults: HelmFaults): (r: CallResult)
    ensures r.Fault? <==> registryClientErr.Some?
    ensures r.ErrorResult? <==> registryClientErr.None? && UndeployError(releases, UndeployConfig(args), faults).Some?
    ensures r.ErrorResult? ==> r.text == Text(UndeployError(releases, UndeployConfig(args), faults).value)
    ensures r.TextResult? ==> r.text == UndeploySucceeded
  {
    match NewDeployer(KubernetesEnv, registryClientErr)
    case Fail(e) => Fault(Wrap("create deployer", e))
    case Ok(_) =>
      match UndeployError(releases, UndeployConfig(args), faults)
      case Some(e) => ErrorResult(Text(e))
      case None => TextResult(UndeploySucceeded)
  }

  /** Undeploying a release this server did not install reports the sentinel's text. */
  lemma UnmarkedReleaseReported(args: Arguments, releases: map<ReleaseKey, Release>, faults: HelmFaults)
    requires faults.actionConfig.None? && faults.get.None?
    requires Target(UndeployConfig(args)) in releases
    requires !Managed(releases[Target(UndeployConfig(args))].labels)
    ensures UndeployResult(args, None, releases, faults) == ErrorResult("not deployed by deployer")
  {
  }

  method HandleUndeploy(args: Arguments, registryClientErr: Option<Error>, helm: HelmDeployer, faults: HelmFaults)
    returns (r: CallResult)
    modifies helm
    ensures r == UndeployResult(args, registryClientErr, old(helm.releases), faults)
    ensures var cfg := UndeployConfig(args);
      if registryClientErr.Some? then
        helm.releases == old(helm.releases) && helm.uninstalls == old(helm.uninstalls)
      else
        && helm.uninstalls == old(helm.uninstalls) + (if UninstallRuns(old(helm.releases), cfg, faults) then [Target(cfg)] else [])
        && helm.releases == (if r.TextResult? then old(helm.releases) - {Target(cfg)} else old(helm.releases))
    ensures helm.installs == old(helm.installs)
  {
    var releaseName := GetString(args, "release", DefaultReleaseName);
    var namespace := GetString(args, "namespace", DefaultNamespace);
    var deployer := NewDeployer(KubernetesEnv, registryClientErr);
    if deployer.Fail? {
      return Fault(Wrap("create deployer", deployer.error));
    }
    var opts := [WithReleaseName(releaseName), WithNamespace(namespace)];
    assert opts == UndeployOptions(args);
    var err := helm.Undeploy(opts, faults);
    if err.Some? {
      return ErrorResult(Text(err.value));
    }
    return TextResult(UndeploySucceeded);
  }
}
