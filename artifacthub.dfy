/** Gadget discovery through Artifact Hub (pkg/discoverer/artifacthub.go):
    list the gadget packages, keep the official, CNCF, non-deprecated ones,
    and resolve each to the first container image of its details. The two
    HTTP GETs and their JSON decoding are oracle results. */
module ArtifactHub {
  import opened Errors
  import opened GoText

  datatype Package = Package(
    name: string, normalizedName: string, description: string,
    official: bool, cncf: bool, deprecated: bool, version: string)

  datatype Packages = Packages(packages: seq<Package>)

  datatype ContainerImage = ContainerImage(name: string, image: string)

  datatype PackageDetails = PackageDetails(containersImages: seq<ContainerImage>)

  /** What an HTTP GET followed by a JSON decode of the body yields: a
      transport failure, or a status code and the decoded body. */
  datatype Fetch<T> = TransportError(err: Error) | Response(status: int, body: Result<T>)

  const StatusOK := 200

  /** A fetch is accepted only with status 200 and a body that decodes. */
  function Received<T>(f: Fetch<T>, fetchContext: string, decodeContext: string): (r: Result<T>)
    ensures r.Ok? <==> f.Response? && f.status == StatusOK && f.body.Ok?
    ensures r.Ok? ==> r.value == f.body.value
    ensures f.TransportError? ==> r == Fail(Wrap(fetchContext, f.err))
    ensures f.Response? && f.status != StatusOK ==>
      r == Fail(Message("unexpected status code from Artifact Hub: " + IntToString(f.status)))
  {
    match f
    case TransportError(e) => Fail(Wrap(fetchContext, e))
    case Response(status, body) =>
      if status != StatusOK then Fail(Message("unexpected status code from Artifact Hub: " + IntToString(status)))
      else match body
        case Fail(e) => Fail(Wrap(decodeContext, e))
        case Ok(v) => Ok(v)
  }

  /** listPackages, given the search request's response. */
  function ListPackages(f: Fetch<Packages>): Result<Packages>
  {
    Received(f, "fetching packages from Artifact Hub", "decoding packages from Artifact Hub")
  }

  /** getPackageImage, given the details request's response: the image of
      the first listed container image. */
  function PackageImage(name: string, f: Fetch<PackageDetails>): (r: Result<string>)
    ensures var d := Received(f, "fetching package details from Artifact Hub", "decoding package details from Artifact Hub");
      && (r.Ok? <==> d.Ok? && |d.value.containersImages| > 0)
      && (r.Ok? ==> r.value == d.value.containersImages[0].image)
      && (d.Ok? && |d.value.containersImages| == 0 ==> r == Fail(Message("no container images found for package " + name)))
  {
    match Received(f, "fetching package details from Artifact Hub", "decoding package details from Artifact Hub")
    case Fail(e) => Fail(e)
    case Ok(details) =>
      if |details.containersImages| == 0 then Fail(Message("no container images found for package " + name))
      else Ok(details.containersImages[0].image)
  }

  /** The filter ListImages applies before any details request. */
  predicate Kept(p: Package)
  {
    p.official && p.cncf && !p.deprecated
  }

  /** The image of a package, fetched under its normalized name. */
  function ImageOf(p: Package, details: string -> Fetch<PackageDetails>): Result<string>
  {
    PackageImage(p.normalizedName, details(p.normalizedName))
  }

  /** The loop of ListImages over the listed packages. */
  function Collect(ps: seq<Package>, details: string -> Fetch<PackageDetails>): Result<seq<string>>
    decreases |ps|
  {
    if ps == [] then Ok([])
    else if !Kept(ps[0]) then Collect(ps[1..], details)
    else match ImageOf(ps[0], details)
      case Fail(e) => Fail(Wrap("getting image for package " + ps[0].normalizedName, e))
      case Ok(image) =>
        match Collect(ps[1..], details)
        case Fail(e) => Fail(e)
        case Ok(images) => Ok([image] + images)
  }

  /** ListImages from the search response and the details oracle. */
  function Listing(listing: Fetch<Packages>, details: string -> Fetch<PackageDetails>): Result<seq<string>>
  {
    match ListPackages(listing)
    case Fail(e) => Fail(Wrap("listing packages from Artifact Hub", e))
    case Ok(ps) => Collect(ps.packages, details)
  }

  /** The packages ListImages keeps, in listing order. */
  function KeptPackages(ps: seq<Package>): (kept: seq<Package>)
    ensures forall j :: 0 <= j < |kept| ==> Kept(kept[j])
    decreases |ps|
  {
    if ps == [] then [] else (if Kept(ps[0]) then [ps[0]] else []) + KeptPackages(ps[1..])
  }

  /** The listing succeeds exactly when every kept package resolves to an
      image; a single failure loses the whole list. */
  lemma {:induction false} CollectOkIff(ps: seq<Package>, details: string -> Fetch<PackageDetails>)
    ensures Collect(ps, details).Ok? <==> forall i :: 0 <= i < |ps| && Kept(ps[i]) ==> ImageOf(ps[i], details).Ok?
    decreases |ps|
  {
    if ps != [] {
      var tail := ps[1..];
      CollectOkIff(tail, details);
      assert forall i :: 1 <= i < |ps| ==> ps[i] == tail[i - 1];
      assert (forall i :: 0 <= i < |ps| && Kept(ps[i]) ==> ImageOf(ps[i], details).Ok?) <==>
        && (Kept(ps[0]) ==> ImageOf(ps[0], details).Ok?)
        && (forall i :: 0 <= i < |tail| && Kept(tail[i]) ==> ImageOf(tail[i], details).Ok?);
    }
  }

  /** On success the list holds one image per kept package, in package order. */
  lemma {:induction false} CollectImages(ps: seq<Package>, details: string -> Fetch<PackageDetails>)
    requires Collect(ps, details).Ok?
    ensures |Collect(ps, details).value| == |KeptPackages(ps)|
    ensures forall j :: 0 <= j < |KeptPackages(ps)| ==>
      ImageOf(KeptPackages(ps)[j], details) == Ok(Collect(ps, details).value[j])
    decreases |ps|
  {
    if ps != [] {
      CollectImages(ps[1..], details);
    }
  }

  /** A package that is filtered out is never looked up: changing what its
      details request would return changes nothing. */
  lemma {:induction false} SkippedPackagesNotFetched(ps: seq<Package>, d1: string -> Fetch<PackageDetails>, d2: string -> Fetch<PackageDetails>)
    requires forall i :: 0 <= i < |ps| && Kept(ps[i]) ==> d1(ps[i].normalizedName) == d2(ps[i].normalizedName)
    ensures Collect(ps, d1) == Collect(ps, d2)
    decreases |ps|
  {
    if ps != [] {
      forall i | 0 <= i < |ps| - 1 && Kept(ps[1..][i])
        ensures d1(ps[1..][i].normalizedName) == d2(ps[1..][i].normalizedName)
      {
        assert ps[1..][i] == ps[i + 1];
      }
      SkippedPackagesNotFetched(ps[1..], d1, d2);
      if Kept(ps[0]) {
        assert ImageOf(ps[0], d1) == ImageOf(ps[0], d2);
      }
    }
  }

  /** `r` with `images` in front of its value. */
  function Prepend(images: seq<string>, r: Result<seq<string>>): Result<seq<string>>
  {
    match r
    case Fail(e) => Fail(e)
    case Ok(rest) => Ok(images + rest)
  }

  /** ListImages, with `continue` on filtered packages and an early return on
      the first package whose image cannot be resolved. */
  method ListImages(listing: Fetch<Packages>, details: string -> Fetch<PackageDetails>) returns (r: Result<seq<string>>)
    ensures r == Listing(listing, details)
  {
    var packages := ListPackages(listing);
    if packages.Fail? {
      return Fail(Wrap("listing packages from Artifact Hub", packages.error));
    }
    var ps := packages.value.packages;
    var images: seq<string> := [];
    var i := 0;
    assert ps[0..] == ps;
    match Collect(ps, details) {
      case Fail(_) =>
      case Ok(all) => assert images + all == all;
    }
    while i < |ps|
      invariant 0 <= i <= |ps|
      decreases |ps| - i
      invariant Prepend(images, Collect(ps[i..], details)) == Collect(ps, details)
    {
      var pkg := ps[i];
      assert ps[i..][1..] == ps[i + 1..];
      if !Kept(pkg) {
        i := i + 1;
        continue;
      }
      var image := PackageImage(pkg.normalizedName, details(pkg.normalizedName));
      if image.Fail? {
        return Fail(Wrap("getting image for package " + pkg.normalizedName, image.error));
      }
      match Collect(ps[i + 1..], details) {
        case Fail(_) =>
        case Ok(rest) => assert images + [image.value] + rest == images + ([image.value] + rest);
      }
      images := images + [image.value];
      i := i + 1;
    }
    assert ps[|ps|..] == [];
    assert images + [] == images;
    return Ok(images);
  }
}
