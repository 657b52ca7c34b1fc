/** The is_inspektor_gadget_deployed tool (pkg/tools/is_installed_tool.go):
    maps the deployment probe's answer to a tool result. */
module IsInstalledTool {
  import opened Errors
  import opened Mcp
  import opened DeploymentProbe

  const IsDeployedToolName := "is_inspektor_gadget_deployed"
  const NotDeployedText := "Inspektor Gadget is not deployed"

  function IsDeployedToolDef(): (t: ServerTool)
    ensures t.tool.name == IsDeployedToolName && t.tool.readOnlyHint
    ensures t.handler == IsDeployedHandler && |t.tool.properties| == 0
  {
    ServerTool(
      Tool(IsDeployedToolName,
           "Check if Inspektor Gadget is deployed on the target system. "
           + "Doesn't rely on if mcp server deployed it or not "
           + "but checks if the Inspektor Gadget resources are present in the cluster.",
           true, map[], []),
      IsDeployedHandler)
  }

  /** isDeployedHandler on the probe's (deployed, namespace, err) triple. */
  function HandleIsDeployed(p: Probe): (r: CallResult)
    ensures !r.Fault?
    ensures r.ErrorResult? <==> p.err.Some? || !p.deployed
    ensures p.err.Some? ==> r.text == Text(p.err.value)
    ensures p.err.None? && !p.deployed ==> r.text == NotDeployedText
    ensures r.TextResult? ==> r.text == "Inspektor Gadget is deployed in namespace " + p.namespace
  {
    if p.err.Some? then ErrorResult(Text(p.err.value))
    else if !p.deployed then ErrorResult(NotDeployedText)
    else TextResult("Inspektor Gadget is deployed in namespace " + p.namespace)
  }

  /** End to end: no gadget pods reads "not deployed"; pods spread over two
      namespaces read as an error naming both; pods in one namespace name it. */
  lemma IsDeployedOnCluster(a: string, b: string)
    requires a != b
    ensures HandleIsDeployed(Classify(Pods([]))) == ErrorResult(NotDeployedText)
    ensures HandleIsDeployed(Classify(Pods([a, b, a]))) ==
      ErrorResult("multiple namespaces found for Inspektor Gadget pods: [" + a + " " + b + "]")
    ensures HandleIsDeployed(Classify(Pods([a, a]))) ==
      TextResult("Inspektor Gadget is deployed in namespace " + a)
  {
    assert Distinct([a, b, a]) == [a, b] by {
      assert [a, b, a][1..] == [b, a];
      assert [b, a][1..] == [a];
      assert [] + [a] == [a];
      assert [a] + [b] == [a, b];
      assert AddNew([a, b], [a]) == [a, b] by { assert [a][1..] == []; }
      assert AddNew([a], [b, a]) == AddNew([a, b], [a]);
    }
    assert JoinSpaced([a, b]) == a + " " + b by { assert [a, b][1..] == [b]; }
    ClassifyPods([a, a]);
  }
}
