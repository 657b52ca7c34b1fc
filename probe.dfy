/** The deployment probe isInspektorGadgetDeployed (pkg/tools/tools.go): it
    lists the pods labelled k8s-app=gadget in every namespace and classifies
    the namespaces they run in. The Kubernetes client is an oracle that yields
    either a failure at one of its three steps or the pods' namespaces. */
module DeploymentProbe {
  import opened Errors

  datatype PodListing =
    | RestConfigFailed(restErr: Error)
    | ClientFailed(clientErr: Error)
    | ListFailed(listErr: Error)
    | Pods(namespaces: seq<string>)

  /** Go's (deployed, namespace, err) triple. */
  datatype Probe = Probe(deployed: bool, namespace: string, err: Option<Error>)

  /** Appends to `acc`, in order, each element of `s` not already present:
      the `slices.Contains` loop. */
  function AddNew(acc: seq<string>, s: seq<string>): (r: seq<string>)
    decreases |s|
  {
    if s == [] then acc
    else AddNew(if s[0] in acc then acc else acc + [s[0]], s[1..])
  }

  /** The distinct namespaces in first-seen order. */
  function Distinct(s: seq<string>): seq<string>
  {
    AddNew([], s)
  }

  predicate NoDuplicates(s: seq<string>)
  {
    forall i, j :: 0 <= i < j < |s| ==> s[i] != s[j]
  }

  /** AddNew keeps what it had, adds exactly the new elements and never repeats one. */
  lemma {:induction false} AddNewContents(acc: seq<string>, s: seq<string>)
    requires NoDuplicates(acc)
    ensures NoDuplicates(AddNew(acc, s))
    ensures forall x :: x in AddNew(acc, s) <==> x in acc || x in s
    ensures |acc| <= |AddNew(acc, s)| && AddNew(acc, s)[..|acc|] == acc
    decreases |s|
  {
    if s != [] {
      var next := if s[0] in acc then acc else acc + [s[0]];
      AddNewContents(next, s[1..]);
      assert forall x :: x in s <==> x == s[0] || x in s[1..] by {
        assert s == [s[0]] + s[1..];
      }
      assert next[..|acc|] == acc;
    }
  }

  /** The pods span more than one namespace exactly when two of them differ. */
  lemma DistinctCount(s: seq<string>)
    ensures NoDuplicates(Distinct(s))
    ensures forall x :: x in Distinct(s) <==> x in s
    ensures |s| == 0 <==> |Distinct(s)| == 0
    ensures |s| > 0 ==> Distinct(s)[0] == s[0]
    ensures |Distinct(s)| > 1 <==> exists i :: 0 <= i < |s| && s[i] != s[0]
  {
    AddNewContents([], s);
    var d := Distinct(s);
    if |s| > 0 {
      AddNewContents([s[0]], s[1..]);
      assert [] + [s[0]] == [s[0]];
      assert d == AddNew([s[0]], s[1..]);
      if |d| > 1 {
        assert d[1] in s && d[1] != d[0];
      }
      if exists i :: 0 <= i < |s| && s[i] != s[0] {
        var i :| 0 <= i < |s| && s[i] != s[0];
        assert s[i] in d;
        var j :| 0 <= j < |d| && d[j] == s[i];
        assert d[0] == s[0];
        assert j != 0;
      }
    }
  }

  /** %v of a []string: the elements separated by spaces, in brackets. */
  function FormatList(s: seq<string>): string
  {
    "[" + JoinSpaced(s) + "]"
  }

  function JoinSpaced(s: seq<string>): string
    decreases |s|
  {
    if |s| == 0 then "" else if |s| == 1 then s[0] else s[0] + " " + JoinSpaced(s[1..])
  }

  /** The classification of a listing. */
  function Classify(listing: PodListing): Probe
  {
    match listing
    case RestConfigFailed(e) => Probe(false, "", Some(Wrap("creating RESTConfig", e)))
    case ClientFailed(e) => Probe(false, "", Some(Wrap("setting up trace client", e)))
    case ListFailed(e) => Probe(false, "", Some(Wrap("getting pods", e)))
    case Pods(pods) =>
      if |pods| == 0 then Probe(false, "", None)
      else
        var namespaces := Distinct(pods);
        if |namespaces| > 1 then
          Probe(false, "", Some(Message("multiple namespaces found for Inspektor Gadget pods: " + FormatList(namespaces))))
        else Probe(true, pods[0], None)
  }

  /** No pods: not deployed, and no error. */
  lemma NoPodsNotDeployed()
    ensures Classify(Pods([])) == Probe(false, "", None)
  {
  }

  /** Pods in more than one namespace are an error, never a guess; pods all in
      one namespace mean deployed there. */
  lemma ClassifyPods(pods: seq<string>)
    requires |pods| > 0
    ensures (exists i :: 0 <= i < |pods| && pods[i] != pods[0]) ==>
      var p := Classify(Pods(pods));
      && !p.deployed && p.namespace == ""
      && p.err == Some(Message("multiple namespaces found for Inspektor Gadget pods: " + FormatList(Distinct(pods))))
    ensures (forall i :: 0 <= i < |pods| ==> pods[i] == pods[0]) ==>
      Classify(Pods(pods)) == Probe(true, pods[0], None)
  {
    DistinctCount(pods);
  }

  /** A deployed answer names a namespace some pod runs in and carries no error. */
  lemma DeployedNamesPodNamespace(listing: PodListing)
    ensures Classify(listing).deployed ==>
      listing.Pods? && Classify(listing).namespace in listing.namespaces && Classify(listing).err.None?
  {
  }

  /** isInspektorGadgetDeployed, with the namespace-collecting loop. */
  method IsInspektorGadgetDeployed(listing: PodListing) returns (p: Probe)
    ensures p == Classify(listing)
  {
    match listing {
      case RestConfigFailed(e) => return Probe(false, "", Some(Wrap("creating RESTConfig", e)));
      case ClientFailed(e) => return Probe(false, "", Some(Wrap("setting up trace client", e)));
      case ListFailed(e) => return Probe(false, "", Some(Wrap("getting pods", e)));
      case Pods(pods) =>
        if |pods| == 0 {
          return Probe(false, "", None);
        }
        var namespaces: seq<string> := [];
        var i := 0;
        while i < |pods|
          invariant 0 <= i <= |pods|
          invariant AddNew(namespaces, pods[i..]) == Distinct(pods)
        {
          assert pods[i..][1..] == pods[i + 1..];
          if pods[i] !in namespaces {
            namespaces := namespaces + [pods[i]];
          }
          i := i + 1;
        }
        if |namespaces| > 1 {
          return Probe(false, "", Some(Message("multiple namespaces found for Inspektor Gadget pods: " + FormatList(namespaces))));
        }
        DistinctCount(pods);
        return Probe(true, namespaces[0], None);
    }
  }
}
