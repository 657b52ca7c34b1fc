# Inspektor Gadget MCP server: a Dafny model of its core

The Inspektor Gadget MCP server exposes eBPF gadgets as MCP tools. It keeps a
registry of tools with two administrative tools, `deploy_inspektor_gadget` and
`undeploy_inspektor_gadget`. When Inspektor Gadget runs on the cluster, the
registry also holds one read-only tool per gadget image, built from the image's
metadata.

This project models, in Dafny:

- the registry (`Tools.GadgetToolRegistry`): `Prepare`, gadget registration,
  callback notification, tool-schema synthesis, default parameters, and the
  parameter merge of a gadget call;
- the probe that classifies the Inspektor Gadget pods by namespace
  (`DeploymentProbe`);
- the Helm deployer (`Helm.HelmDeployer`) acting on a release store, with its
  functional options and environment switch (`Installer`);
- the deploy, undeploy, stop, get-results and is-deployed tool handlers, each
  classifying a call three ways:
  - a Go error (`Fault`),
  - a tool-level error result (`ErrorResult`),
  - a text result (`TextResult`);
- the Artifact Hub discovery filter (`ArtifactHub`) and the discoverer source
  switch (`Discoverer`);
- the start-up checks of the `ig-mcp-server` command (`Cli`).

Go errors are values of `Errors.Error`. `Text` is `err.Error()`, `Is` is
`errors.Is` against a sentinel, and `Wrap(ctx, e)` is
`fmt.Errorf("ctx: %w", e)`.

Every collaborator outside the core is an oracle parameter:

- the Kubernetes pod listing (`DeploymentProbe.PodListing`);
- the Helm steps that can fail (`Helm.HelmFaults`);
- the gadget manager's `GetInfo` results, in arrival order (`Tools.Fetched`);
- `Run`, `Stop`, `Results` and `truncateResults`, as functions;
- the YAML parse and the description template (`Tools.Synthesis`);
- the two Artifact Hub HTTP responses (`ArtifactHub.Fetch`).

Each state-changing operation is a method on a class. Each method is proved
equal to a specification function, or states its new state outright. The
properties are lemmas about those functions.

Module per source file:

| source | module |
|---|---|
| pkg/tools/tools.go | `Tools` (registry, synthesis, handler, registration) and `DeploymentProbe` (`isInspektorGadgetDeployed`) |
| pkg/deployer/helm.go | `Helm` |
| pkg/deployer/installer.go | `Installer` |
| pkg/tools/deploy_tool.go | `DeployTool`; the background re-registration is `Tools.GadgetToolRegistry.ReregisterAfterDeploy` |
| pkg/tools/undeploy_tool.go | `UndeployTool` |
| pkg/tools/lifecycle.go | `Lifecycle` |
| pkg/tools/is_installed_tool.go | `IsInstalledTool` |
| pkg/discoverer/artifacthub.go | `ArtifactHub` |
| pkg/discoverer/discoverer.go | `Discoverer` |
| cmd/ig-mcp-server/main.go | `Cli` |

Shared helpers live in `Errors` (Go error values), `GoText` (`strings.ToLower`
for the characters whose lower case is ASCII, `strings.Split`/`Join`, `%d`),
`Gadgets` (the gadget description records) and `Mcp` (argument values, tool
schemas, handler tags, call results).

## Model

| member | source | states |
|---|---|---|
| Errors.Wrap | pkg/tools/tools.go:93 | wrapping with `%w` prefixes the context and `": "` to the cause's text and keeps every `errors.Is` answer of the cause |
| GoText.NatToString | pkg/discoverer/artifacthub.go:83 | `%d` of a status code is a non-empty digit string without a leading zero whose decimal value is the code |
| GoText.Lower | cmd/ig-mcp-server/main.go:137 | lower-casing keeps the length; it maps the ASCII capitals, U+0130 (to 'i') and U+212A (to 'k'), the only characters whose lower case is an ASCII letter, character by character; every other character is kept |
| GoText.Split | cmd/ig-mcp-server/main.go:97 | splitting yields at least one piece and no piece contains the separator |
| GoText.JoinSplit | cmd/ig-mcp-server/main.go:97 | joining the pieces of a split with the separator gives the original string back (pieces are never trimmed or dropped) |
| GoText.SplitJoin | cmd/ig-mcp-server/main.go:97 | splitting the join of separator-free pieces gives the pieces back |
| GoText.SplitFree | cmd/ig-mcp-server/main.go:97 | a string without a comma is a one-image list |
| Mcp.GetString | pkg/tools/deploy_tool.go:72-73 | an argument is used only when present and a string; otherwise the default is used |
| Installer.Apply | pkg/deployer/installer.go:62-84 | each `With*` option writes its own field and leaves the other three unchanged |
| Installer.ApplyOptions | pkg/deployer/installer.go:56-60 | the option loop computes the left-to-right fold of the options over the config |
| Installer.UnwrittenFieldKept | pkg/deployer/installer.go:56-84 | a field no option sets keeps its value; with no options the zero config stays zero |
| Installer.LastOptionWins | pkg/deployer/installer.go:56-60 | the last option that sets a field decides its value |
| Installer.NewDeployer | pkg/deployer/installer.go:47-54 | succeeds iff the environment is "kubernetes" and the registry client is built; otherwise "unsupported environment: <env>" or the wrapped client error |
| Installer.LinuxHasNoDeployer | pkg/deployer/installer.go:47-54 | "linux" has no deployer |
| Helm.OrDefault | pkg/deployer/helm.go:73-80 | an empty release name or namespace becomes its default; a non-empty one is kept |
| Helm.Target | pkg/deployer/helm.go:120-127 | Deploy, Undeploy and IsDeployed address the same defaulted (namespace, release) |
| Helm.InstallFor | pkg/deployer/helm.go:86-94 | the install action targets the defaulted release, creates the namespace iff not skipped, waits 30 s and carries the managed-by label |
| Helm.HasManagedLabel | pkg/deployer/helm.go:177-185 | the label scan with early return finds the marker iff the labels map managed-by to ig-mcp-server |
| Helm.DeployError | pkg/deployer/helm.go:66-115 | an empty chart URL is ErrChartURLNotSet; Deploy succeeds iff the chart URL is set and no Helm step fails |
| Helm.Probe | pkg/deployer/helm.go:156-186 | IsDeployed answers iff the action config initialises, the get action does not fail and the release exists; the answer is whether the labels carry the marker; a missing release is the wrapped "run get action" error, not false |
| Helm.UndeployError | pkg/deployer/helm.go:117-154 | Undeploy succeeds iff the probe (including a failing get action) reports the release as deployed by this server and both uninstall steps succeed; an unmarked release gives ErrNotDeployedByDeployer; a probe error is returned wrapped "check if gadget is deployed" |
| Helm.HelmDeployer.Deploy | pkg/deployer/helm.go:66-115 | returns DeployError; runs the install only after the chart URL check and the action-config, locate and load steps; the store gains the release with the managed labels when the install succeeds, or fails after Helm recorded the release; otherwise it is unchanged; nothing is uninstalled |
| Helm.HelmDeployer.IsDeployed | pkg/deployer/helm.go:156-186 | returns Probe for the store, the defaulted options and the Helm faults |
| Helm.HelmDeployer.Undeploy | pkg/deployer/helm.go:117-154 | returns UndeployError; runs uninstall only for a marked release; on success the release leaves the store; nothing is installed |
| Helm.DeployedIsManaged | pkg/deployer/helm.go:89-94 | after a successful Deploy, IsDeployed with the same release and namespace is true when the later get action succeeds |
| Helm.FailedRecordedInstallIsManaged | pkg/deployer/helm.go:86-111 | an install that fails after recording the release still reports "run install action", yet the kept release is marked, so IsDeployed is true and Undeploy will uninstall it |
| Helm.UnmarkedReleaseIsKept | pkg/deployer/helm.go:129-136 | a release without the marker is never uninstalled and Undeploy's error is ErrNotDeployedByDeployer |
| DeploymentProbe.AddNewContents | pkg/tools/tools.go:274-279 | the namespace collection loop keeps first occurrences, adds no duplicates and loses no namespace |
| DeploymentProbe.DistinctCount | pkg/tools/tools.go:274-284 | the distinct namespaces are exactly the pods' namespaces, without duplicates, first seen first; more than one iff some pod's namespace differs from the first |
| DeploymentProbe.NoPodsNotDeployed | pkg/tools/tools.go:269-272 | no pods gives (false, "", no error) |
| DeploymentProbe.ClassifyPods | pkg/tools/tools.go:269-284 | pods in several namespaces give (false, "") and the error "multiple namespaces found for Inspektor Gadget pods: [..]" listing the distinct namespaces in first-seen order; pods in one namespace give (true, that namespace) |
| DeploymentProbe.DeployedNamesPodNamespace | pkg/tools/tools.go:280-284 | "deployed" only ever names the namespace of a listed pod |
| DeploymentProbe.IsInspektorGadgetDeployed | pkg/tools/tools.go:253-285 | the probe with its loop computes the classification, errors wrapped by step |
| Tools.NormalizeToolName | pkg/tools/tools.go:246-249 | each space becomes '_' and every other character is unchanged; same length, no spaces; no lower-casing |
| Tools.NormalizeIdempotent | pkg/tools/tools.go:246-249 | normalizing twice equals normalizing once |
| Tools.NormalizeFixesSpaceFree | pkg/tools/tools.go:246-249 | a name without spaces is left unchanged |
| Tools.NormalizeCollides | pkg/tools/tools.go:154 | two different image names ("trace dns", "trace_dns") map to one registry key |
| Tools.LastWritesKeys | pkg/tools/tools.go:236-244 | a map built over the parameter list has exactly the full keys (prefix+key) of the kept parameters |
| Tools.LastWritesValue | pkg/tools/tools.go:238-241 | under each key sits the value of the last kept parameter with that key |
| Tools.DefaultsExactly | pkg/tools/tools.go:236-244 | the default map holds exactly the parameters with a non-empty default, keyed prefix+key, mapped to that default |
| Tools.PropertiesExactly | pkg/tools/tools.go:180-186 | the `params` schema has one string property per parameter, keyed prefix+key, with its description |
| Tools.ParamsProperties | pkg/tools/tools.go:180-186 | the loop builds exactly that property map |
| Tools.DefaultParams | pkg/tools/tools.go:236-244 | defaultParamsFromGadgetInfo builds exactly the default map |
| Tools.GadgetTool | pkg/tools/tools.go:160-205 | a synthesized tool is read-only and named after the normalized metadata name, with the template's description; it has a required `params` object holding the parameter properties and an optional numeric `timeout`; a metadata parse failure is wrapped "unmarshalling gadget metadata" |
| Tools.GadgetToolFailsOnlyThroughCollaborators | pkg/tools/tools.go:160-179 | synthesis fails iff the metadata parse, the template parse or the template execution fails |
| Tools.ToolFromGadgetInfo | pkg/tools/tools.go:160-205 | the method computes GadgetTool |
| Tools.MergeParams | pkg/tools/tools.go:216-224 | the merge succeeds iff every supplied value is a string, then equals the defaults overridden by the supplied strings; otherwise it fails with "invalid type for parameter k: expected string, got T" for some non-string k |
| Tools.MergeOverridesDefaults | pkg/tools/tools.go:217-219 | supplied strings override defaults and unsupplied keys keep their defaults |
| Tools.HandleGadget | pkg/tools/tools.go:207-234 | Run is invoked iff every supplied parameter is a string, with the image, the merged parameters and a timeout of 10 s unless `timeout` is a number; a Run failure is a Go error wrapped "starting gadget <image>"; its output is returned unchanged |
| Tools.RegisterFailsIff | pkg/tools/tools.go:144-147 | registration returns an error iff some fetched description cannot be turned into a tool |
| Tools.RegisterStopsAtFirstFailure | pkg/tools/tools.go:138-155 | at the first description that cannot be turned into a tool, registration returns that arrival's error wrapped "creating tool from gadget info for <image>", with the map the earlier arrivals wrote; later arrivals are not written |
| Tools.RegisterKeepsOtherKeys | pkg/tools/tools.go:138-155 | keys that no fetched image normalizes to, the administrative tools' included, are untouched |
| Tools.RegisterInstalls | pkg/tools/tools.go:154 | when registration succeeds, each fetched image is stored under its normalized image name, holding the tool of the last arrival with that key |
| Tools.FailedFetchesSkipped | pkg/tools/tools.go:139-142 | images whose GetInfo failed change nothing: registration equals that of the successful fetches alone |
| Tools.OnlyFetchedImageRegistered | pkg/tools/tools.go:138-155 | with one failed and one successful fetch, only the second is registered and no error is returned |
| Tools.AdminToolsSurviveRegistration | pkg/tools/tools.go:85-102 | the deploy and undeploy tools Prepare installs remain after gadget registration unless a gadget's key collides with them |
| Tools.GadgetToolRegistry.constructor | pkg/tools/tools.go:63-68 | a new registry has no tools and no callbacks |
| Tools.GadgetToolRegistry.RegisterCallback | pkg/tools/tools.go:78-80 | the callback is appended to the ordered list |
| Tools.GadgetToolRegistry.All | pkg/tools/tools.go:70-76 | the result lists the stored keys in some order, each key exactly once, each entry the tool stored under that key |
| Tools.GadgetToolRegistry.Notify | pkg/tools/tools.go:106 | one callback invocation appends one notification carrying all() |
| Tools.GadgetToolRegistry.NotifyCallbacks | pkg/tools/tools.go:104-107 | each callback is invoked exactly once, in registration order, with a snapshot of the full tool set |
| Tools.GadgetToolRegistry.RegisterGadgets | pkg/tools/tools.go:112-158 | the collection loop's tool map and error are those of the registration over the arrivals |
| Tools.GadgetToolRegistry.Prepare | pkg/tools/tools.go:82-110 | the deploy and undeploy tools are installed before probing, even when the probe fails; gadgets are registered only when the probe says deployed; on every error return no callback runs; otherwise every callback runs once with the full tool set |
| Tools.GadgetToolRegistry.ReregisterAfterDeploy | pkg/tools/deploy_tool.go:97-107 | the post-deploy step re-registers the gadgets; on error nothing is delivered, otherwise every callback runs once with all tools |
| DeployTool.DeployToolDef | pkg/tools/deploy_tool.go:34-59 | named deploy_inspektor_gadget, not read-only, with namespace, release and chart_version parameters |
| DeployTool.ChartVersion | pkg/tools/deploy_tool.go:64-70 | a missing or empty chart_version resolves to "1.0.0-dev" |
| DeployTool.DeployConfig | pkg/tools/deploy_tool.go:71-84 | the chart URL is the default chart URL + ":" + version; release and namespace come from the arguments with "gadget" defaults |
| DeployTool.DeployTarget | pkg/tools/deploy_tool.go:72-73 | the deployed release is the given non-empty name and namespace, else "gadget" |
| DeployTool.ChartUrlAlwaysSet | pkg/tools/deploy_tool.go:71 | the handler always sets a chart URL, so ErrChartURLNotSet never occurs |
| DeployTool.DeployResult | pkg/tools/deploy_tool.go:75-88 | a NewDeployer failure is a Go error ("create deployer"); a Deploy failure is a tool-level error carrying its text; success is the fixed text |
| DeployTool.HandleDeploy | pkg/tools/deploy_tool.go:61-112 | the handler returns DeployResult and changes the release store exactly as Deploy does; a text result means the store holds a marked release |
| UndeployTool.UndeployToolDef | pkg/tools/undeploy_tool.go:27-49 | named undeploy_inspektor_gadget, not read-only, with release and namespace parameters |
| UndeployTool.UndeployConfig | pkg/tools/undeploy_tool.go:52-63 | no chart URL is passed; release and namespace default to "gadget" |
| UndeployTool.UndeployTarget | pkg/tools/undeploy_tool.go:52-53 | the removed release is the given non-empty name and namespace, else "gadget" |
| UndeployTool.UndeployResult | pkg/tools/undeploy_tool.go:51-69 | a NewDeployer failure is a Go error; every Undeploy failure is a tool-level error with its text; success is the fixed text |
| UndeployTool.UnmarkedReleaseReported | pkg/tools/undeploy_tool.go:64-67 | undeploying an unmarked release yields the tool-level error "not deployed by deployer" |
| UndeployTool.HandleUndeploy | pkg/tools/undeploy_tool.go:51-69 | the handler returns UndeployResult and changes the release store exactly as Undeploy does |
| Lifecycle.StopToolDef | pkg/tools/lifecycle.go:11-27 | named stop-gadget, read-only, with an id parameter |
| Lifecycle.GetResultsToolDef | pkg/tools/lifecycle.go:44-60 | named get-results, read-only, with an id parameter |
| Lifecycle.HandleStop | pkg/tools/lifecycle.go:29-42 | an empty id is the Go error "an id is required"; a Stop failure is a Go error naming the quoted id; success text names the quoted id |
| Lifecycle.HandleGetResults | pkg/tools/lifecycle.go:62-75 | an empty id is the Go error "an id is required"; a Results failure is a Go error naming the id; success is the truncated response |
| Lifecycle.MissingIdNeverDispatched | pkg/tools/lifecycle.go:31-34 | with no id, the result does not depend on Stop or Results, so they are never called |
| IsInstalledTool.IsDeployedToolDef | pkg/tools/is_installed_tool.go:24-38 | named is_inspektor_gadget_deployed, read-only, without parameters |
| IsInstalledTool.HandleIsDeployed | pkg/tools/is_installed_tool.go:40-49 | never a Go error; a probe error or "not deployed" is a tool-level error; "deployed" yields text naming the namespace |
| IsInstalledTool.IsDeployedOnCluster | pkg/tools/is_installed_tool.go:40-49 | no pods, pods in two namespaces and pods in one namespace lead to the three answers |
| ArtifactHub.Received | pkg/discoverer/artifacthub.go:76-89 | a fetch is accepted iff the transport succeeds, the status is 200 and the body decodes; a non-200 status reports its code |
| ArtifactHub.PackageImage | pkg/discoverer/artifacthub.go:94-114 | a package's image is the first container image of its details; an empty list is an error naming the package |
| ArtifactHub.CollectOkIff | pkg/discoverer/artifacthub.go:64-67 | the listing succeeds iff every kept package resolves to an image; one failure aborts it |
| ArtifactHub.CollectImages | pkg/discoverer/artifacthub.go:58-70 | on success there is one image per kept package, in package order |
| ArtifactHub.SkippedPackagesNotFetched | pkg/discoverer/artifacthub.go:60-63 | only official, CNCF, non-deprecated packages are looked up; the others cannot affect the result |
| ArtifactHub.ListImages | pkg/discoverer/artifacthub.go:52-71 | the loop with `continue` and early return computes the listing; a failed package listing is wrapped "listing packages from Artifact Hub" |
| Discoverer.New | pkg/discoverer/discoverer.go:33-39 | succeeds iff the source is "artifacthub"; any other source, the empty one included, is an error that `errors.Is` ErrUnknownSource |
| Discoverer.RejectionNamesSource | pkg/discoverer/discoverer.go:38 | the rejection reads "unknown source: <source>" and ends with the source |
| Discoverer.EmptySourceRejected | pkg/discoverer/discoverer.go:33-38 | the empty source is rejected |
| Cli.ParseDottedCapitalI | cmd/ig-mcp-server/main.go:137 | "\u0130NFO" lower-cases to "info" and is accepted as info |
| Cli.ParseLogLevel | cmd/ig-mcp-server/main.go:136-148 | accepts exactly debug, info, warn and error after lower-casing; anything else is "invalid log level: <input>" |
| Cli.ParseCaseInsensitive | cmd/ig-mcp-server/main.go:137 | inputs equal up to case parse alike |
| Cli.ParseLevelName | cmd/ig-mcp-server/main.go:137-145 | each level's name parses back to that level |
| Cli.ParseUpperCase | cmd/ig-mcp-server/main.go:136-148 | "WARN" is slog level 4 |
| Cli.Start | cmd/ig-mcp-server/main.go:61-111 | the guard sequence with early exits computes the start-up outcome |
| Cli.ReadyIff | cmd/ig-mcp-server/main.go:63-111 | start-up reaches the registry iff: no -version; images or a discoverer given; the log level parses when set; environment is kubernetes or linux; a remote address only with linux; the manager is built; the images are obtained |
| Cli.LevelOnlyWhenGiven | cmd/ig-mcp-server/main.go:72-78 | a log level is set only when the flag is non-empty, and then to its parse |
| Cli.ExplicitImagesRoundTrip | cmd/ig-mcp-server/main.go:95-97 | a non-empty -gadget-images is used without consulting the discoverer, and joining the images with "," gives the flag back |
| Cli.DiscoveredImages | cmd/ig-mcp-server/main.go:98-111 | otherwise the images are the Artifact Hub listing |

## Left out

- Concurrency is not modelled:
  - the goroutine per image in `registerGadgets` and the results channel;
  - the registry mutex;
  - the fire-and-forget re-registration goroutine and its 10-second sleep.

  Registration processes the `GetInfo` results sequentially, in an arbitrary
  arrival order that the caller supplies. The post-deploy step is a separate,
  later call: `Tools.GadgetToolRegistry.ReregisterAfterDeploy`.
- The gadget manager is left out. `GetInfo`, `Run`, `Stop` and `Results` are
  oracles. So are the Kubernetes client, Helm's chart location, loading and
  actions, and the Artifact Hub HTTP calls and JSON decoding. The gadget
  manager file is not part of this model.
- Tools.Synthesis: the YAML metadata parse and the embedded description
  template, which is not shown, are uninterpreted functions. A metadata
  document that parses to nothing is not modelled (the Go code would
  dereference nil).
- Lifecycle.HandleGetResults: `truncateResults` is not defined in the modelled
  files, so it is an uninterpreted function. No size bound is assumed.
- Lifecycle.HandleStop: `%q` is modelled as plain double quotes around the id.
  Go's escaping of quotes and control characters inside the id is not modelled.
- Tools.HandleGadget: the `timeout` argument is a float64 in Go, truncated to
  whole seconds. The model takes integer seconds.
- GoText.Lower: `strings.ToLower` is modelled exactly for the characters
  whose lower case is ASCII: the ASCII capitals, U+0130 and U+212A. Every
  other character is kept as it is. Go lower-cases other non-ASCII letters to
  non-ASCII letters, which can never be part of one of the four level names,
  so the accepted set of log levels is the same.
- Helm's actions are oracle faults. A failing install may or may not leave a
  release record behind (`installRecorded`). That record carries the chart's
  labels.
- Tools.GadgetToolRegistry.All: Go's map order is unspecified. The contract
  fixes one entry per key but no particular key order.
- Tools.GadgetToolRegistry.Prepare: the stop-gadget, get-results,
  is_inspektor_gadget_deployed and wait tools are not registered, as in the
  source. Their constructors are modelled except the wait tool.
- The wait tool (pkg/tools/wait.go) is left out. It only sleeps.
- `getLatestChartVersion` is a constant. Its error branch in the deploy handler
  cannot be taken, so it is not modelled.
- Go's nil argument map behaves like an empty map and is modelled as one.
- The MCP transport, the server start and shutdown, signal handling, and the
  older second entry point are left out.
- Cli.Start: the `-artifacthub-official` flag is left out. It passes an option
  that the discoverer package does not define. The gadget manager and registry
  constructors are called with more arguments than the modelled packages
  accept, so the gadget manager's construction is an oracle error.
- Cli.Start: the final `Prepare` call and its fatal exit "failed to prepare
  tool registry" are modelled by `Tools.GadgetToolRegistry.Prepare`, not by
  `Start`.
- The comment in `normalizeToolName` promises lower-casing and dashes. The code
  only replaces spaces with underscores. The model follows the code.
