/** The deployer's configuration record, the functional options that fill it
    in, and the choice of deployer by environment (pkg/deployer/installer.go). */
module Installer {
  import opened Errors

  const KubernetesEnv := "kubernetes"
  const LinuxEnv := "linux"

  datatype Config = Config(chartUrl: string, releaseName: string, namespace: string, skipNamespaceCreation: bool)

  /** `var cfg config`: every field at its zero value. */
  const ZeroConfig := Config("", "", "", false)

  /** The four RunOption closures, one tag each. */
  datatype RunOption =
    | WithChartURL(url: string)
    | WithReleaseName(name: string)
    | WithNamespace(namespace: string)
    | WithSkipNamespaceCreation(skip: bool)

  datatype Field = ChartUrlField | ReleaseNameField | NamespaceField | SkipNamespaceCreationField

  datatype FieldValue = StrValue(s: string) | BoolValue(b: bool)

  function Get(c: Config, f: Field): FieldValue
  {
    match f
    case ChartUrlField => StrValue(c.chartUrl)
    case ReleaseNameField => StrValue(c.releaseName)
    case NamespaceField => StrValue(c.namespace)
    case SkipNamespaceCreationField => BoolValue(c.skipNamespaceCreation)
  }

  /** The field an option writes. */
  function Sets(o: RunOption): Field
  {
    match o
    case WithChartURL(_) => ChartUrlField
    case WithReleaseName(_) => ReleaseNameField
    case WithNamespace(_) => NamespaceField
    case WithSkipNamespaceCreation(_) => SkipNamespaceCreationField
  }

  /** The value an option writes into its field. */
  function Written(o: RunOption): FieldValue
  {
    match o
    case WithChartURL(u) => StrValue(u)
    case WithReleaseName(n) => StrValue(n)
    case WithNamespace(n) => StrValue(n)
    case WithSkipNamespaceCreation(b) => BoolValue(b)
  }

  /** Running one option: it writes its own field and no other. */
  function Apply(o: RunOption, c: Config): (r: Config)
    ensures Get(r, Sets(o)) == Written(o)
    ensures forall f :: f != Sets(o) ==> Get(r, f) == Get(c, f)
  {
    match o
    case WithChartURL(u) => c.(chartUrl := u)
    case WithReleaseName(n) => c.(releaseName := n)
    case WithNamespace(n) => c.(namespace := n)
    case WithSkipNamespaceCreation(b) => c.(skipNamespaceCreation := b)
  }

  /** The options run left to right over `c`. */
  function Applied(c: Config, opts: seq<RunOption>): Config
    decreases |opts|
  {
    if opts == [] then c else Applied(Apply(opts[0], c), opts[1..])
  }

  /** config.applyOptions: runs each option in turn on the record. */
  method ApplyOptions(c: Config, opts: seq<RunOption>) returns (r: Config)
    ensures r == Applied(c, opts)
  {
    r := c;
    var i := 0;
    while i < |opts|
      invariant 0 <= i <= |opts|
      invariant Applied(r, opts[i..]) == Applied(c, opts)
    {
      assert opts[i..][1..] == opts[i + 1..];
      r := Apply(opts[i], r);
      i := i + 1;
    }
  }

  /** A field no option writes keeps its value; with no options at all the
      record is unchanged. */
  lemma {:induction false} UnwrittenFieldKept(c: Config, opts: seq<RunOption>, f: Field)
    requires forall i :: 0 <= i < |opts| ==> Sets(opts[i]) != f
    ensures Get(Applied(c, opts), f) == Get(c, f)
    decreases |opts|
  {
    if opts != [] {
      UnwrittenFieldKept(Apply(opts[0], c), opts[1..], f);
    }
  }

  /** The last option that writes a field decides its value. */
  lemma {:induction false} LastOptionWins(c: Config, opts: seq<RunOption>, i: nat)
    requires i < |opts|
    requires forall j :: i < j < |opts| ==> Sets(opts[j]) != Sets(opts[i])
    ensures Get(Applied(c, opts), Sets(opts[i])) == Written(opts[i])
    decreases |opts|
  {
    if i == 0 {
      UnwrittenFieldKept(Apply(opts[0], c), opts[1..], Sets(opts[0]));
    } else {
      LastOptionWins(Apply(opts[0], c), opts[1..], i - 1);
    }
  }

  /** The deployer implementations; the Helm one is the only kind. */
  datatype DeployerKind = HelmDeployerKind

  /** NewDeployer(env): only the Kubernetes environment has a deployer, and
      building it fails when the Helm registry client cannot be created. */
  function NewDeployer(env: string, registryClientErr: Option<Error>): (r: Result<DeployerKind>)
    ensures r.Ok? <==> env == KubernetesEnv && registryClientErr.None?
    ensures env != KubernetesEnv ==> r == Fail(Message("unsupported environment: " + env))
    ensures env == KubernetesEnv && registryClientErr.Some? ==>
      r == Fail(Wrap("create registry client", registryClientErr.value))
  {
    if env == KubernetesEnv then
      match registryClientErr
      case None => Ok(HelmDeployerKind)
      case Some(e) => Fail(Wrap("create registry client", e))
    else Fail(Message("unsupported environment: " + env))
  }

  /** The Linux environment is accepted on the command line but has no deployer. */
  lemma LinuxHasNoDeployer(registryClientErr: Option<Error>)
    ensures NewDeployer(LinuxEnv, registryClientErr).Fail?
  {
  }
}
