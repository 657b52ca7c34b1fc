/** Start-up of the ig-mcp-server command (cmd/ig-mcp-server/main.go): the
    log-level parser and the guard checks `main` runs, in order, before it
    hands the gadget images to the tool registry. */
module Cli {
  import opened Errors
  import opened GoText
  import ArtifactHub
  import Discoverer

  /** slog's four named levels. */
  datatype Level = LevelDebug | LevelInfo | LevelWarn | LevelError

  /** The numeric slog.Level of each name. */
  function SlogLevel(l: Level): int
  {
    match l
    case LevelDebug => -4
    case LevelInfo => 0
    case LevelWarn => 4
    case LevelError => 8
  }

  /** The spelling parseLogLevel matches, after lower-casing its input. */
  function LevelName(l: Level): string
  {
    match l
    case LevelDebug => "debug"
    case LevelInfo => "info"
    case LevelWarn => "warn"
    case LevelError => "error"
  }

  /** parseLogLevel: a case-insensitive match against the four names; the
      error quotes the input as given. */
  function ParseLogLevel(level: string): (r: Result<Level>)
    ensures r.Ok? <==> Lower(level) in {"debug", "info", "warn", "error"}
    ensures r.Ok? ==> LevelName(r.value) == Lower(level)
    ensures r.Fail? ==> r.error == Message("invalid log level: " + level)
  {
    var l := Lower(level);
    if l == "debug" then Ok(LevelDebug)
    else if l == "info" then Ok(LevelInfo)
    else if l == "warn" then Ok(LevelWarn)
    else if l == "error" then Ok(LevelError)
    else Fail(Message("invalid log level: " + level))
  }

  /** Inputs equal up to ASCII case parse alike. */
  lemma ParseCaseInsensitive(a: string, b: string)
    requires Lower(a) == Lower(b)
    ensures ParseLogLevel(a).Ok? <==> ParseLogLevel(b).Ok?
    ensures ParseLogLevel(a).Ok? ==> ParseLogLevel(a).value == ParseLogLevel(b).value
  {
  }

  /** Each level's own name parses back to it. */
  lemma ParseLevelName(l: Level)
    ensures ParseLogLevel(LevelName(l)) == Ok(l)
  {
    var n := LevelName(l);
    assert Lower(n) == n;
  }

  /** An upper-case spelling is accepted. */
  lemma ParseUpperCase()
    ensures ParseLogLevel("WARN") == Ok(LevelWarn)
    ensures SlogLevel(ParseLogLevel("WARN").value) == 4
  {
    assert Lower("WARN") == "warn";
  }

  /** The dotted capital I lower-cases to 'i', so this spelling is accepted. */
  lemma ParseDottedCapitalI()
    ensures ParseLogLevel("\U{0130}NFO") == Ok(LevelInfo)
  {
    assert Lower("\U{0130}NFO") == "info";
  }

  /** The command-line flags the start-up checks read. */
  datatype Flags = Flags(
    environment: string,
    linuxRemoteAddress: string,
    gadgetImages: string,
    gadgetDiscoverer: string,
    logLevel: string,
    version: bool)

  /** How start-up ends: printing the version, a fatal log line (with the
      error logged beside it, if any) and exit status 1, or with the log
      level to set and the images to prepare the registry with. */
  datatype Startup =
    | PrintVersion
    | Fatal(message: string, cause: Option<Error>)
    | Ready(level: Option<Level>, images: seq<string>)

  const MissingSource := "either -gadget-images or -gadget-discoverer must be specified"
  const InvalidEnvironment := "invalid environment, must be 'kubernetes' or 'linux'"
  const RemoteAddressNeedsLinux := "linux-remote-address can only be set when environment is 'linux'"

  /** The images when they come from the discoverer. */
  function Discovered(f: Flags, listing: ArtifactHub.Fetch<ArtifactHub.Packages>,
                      details: string -> ArtifactHub.Fetch<ArtifactHub.PackageDetails>): Startup
  {
    match Discoverer.New(f.gadgetDiscoverer)
    case Fail(e) => Fatal("failed to create gadget discoverer", Some(e))
    case Ok(_) =>
      match ArtifactHub.Listing(listing, details)
      case Fail(e) => Fatal("failed to list gadget images", Some(e))
      case Ok(images) => Ready(None, images)
  }

  /** Where the start-up checks of main lead, given the gadget manager's
      construction error and the Artifact Hub responses. */
  function Outcome(f: Flags, managerErr: Option<Error>, listing: ArtifactHub.Fetch<ArtifactHub.Packages>,
                   details: string -> ArtifactHub.Fetch<ArtifactHub.PackageDetails>): Startup
  {
    if f.version then PrintVersion
    else if f.gadgetDiscoverer == "" && f.gadgetImages == "" then Fatal(MissingSource, None)
    else if f.logLevel != "" && ParseLogLevel(f.logLevel).Fail? then
      Fatal("invalid log level", Some(ParseLogLevel(f.logLevel).error))
    else if f.environment != "kubernetes" && f.environment != "linux" then Fatal(InvalidEnvironment, None)
    else if f.linuxRemoteAddress != "" && f.environment != "linux" then Fatal(RemoteAddressNeedsLinux, None)
    else if managerErr.Some? then Fatal("failed to create gadget manager", managerErr)
    else
      var level := if f.logLevel != "" then Some(ParseLogLevel(f.logLevel).value) else None;
      if f.gadgetImages != "" then Ready(level, Split(f.gadgetImages, ','))
      else match Discovered(f, listing, details)
        case Ready(_, images) => Ready(level, images)
        case other => other
  }

  /** main's guard sequence, each failing check exiting at once. */
  method Start(f: Flags, managerErr: Option<Error>, listing: ArtifactHub.Fetch<ArtifactHub.Packages>,
               details: string -> ArtifactHub.Fetch<ArtifactHub.PackageDetails>) returns (s: Startup)
    ensures s == Outcome(f, managerErr, listing, details)
  {
    if f.version {
      return PrintVersion;
    }
    if f.gadgetDiscoverer == "" && f.gadgetImages == "" {
      return Fatal(MissingSource, None);
    }
    var level: Option<Level> := None;
    if f.logLevel != "" {
      var l := ParseLogLevel(f.logLevel);
      if l.Fail? {
        return Fatal("invalid log level", Some(l.error));
      }
      level := Some(l.value);
    }
    if f.environment != "kubernetes" && f.environment != "linux" {
      return Fatal(InvalidEnvironment, None);
    }
    if f.linuxRemoteAddress != "" && f.environment != "linux" {
      return Fatal(RemoteAddressNeedsLinux, None);
    }
    if managerErr.Some? {
      return Fatal("failed to create gadget manager", managerErr);
    }
    var images: seq<string>;
    if f.gadgetImages != "" {
      images := Split(f.gadgetImages, ',');
    } else {
      var dis := Discoverer.New(f.gadgetDiscoverer);
      if dis.Fail? {
        return Fatal("failed to create gadget discoverer", Some(dis.error));
      }
      var listed := ArtifactHub.ListImages(listing, details);
      if listed.Fail? {
        return Fatal("failed to list gadget images", Some(listed.error));
      }
      images := listed.value;
    }
    return Ready(level, images);
  }

  /** Start-up reaches the registry exactly when every flag rule holds, the
      gadget manager is built and the images are obtained. */
  lemma ReadyIff(f: Flags, managerErr: Option<Error>, listing: ArtifactHub.Fetch<ArtifactHub.Packages>,
                 details: string -> ArtifactHub.Fetch<ArtifactHub.PackageDetails>)
    ensures Outcome(f, managerErr, listing, details).Ready? <==>
      && !f.version
      && (f.gadgetImages != "" || f.gadgetDiscoverer != "")
      && (f.logLevel != "" ==> ParseLogLevel(f.logLevel).Ok?)
      && (f.environment == "kubernetes" || f.environment == "linux")
      && (f.linuxRemoteAddress != "" ==> f.environment == "linux")
      && managerErr.None?
      && (f.gadgetImages == "" ==>
            f.gadgetDiscoverer == Discoverer.SourceArtifactHub && ArtifactHub.Listing(listing, details).Ok?)
  {
  }

  /** The log level is set only when the flag is given, and then to its parse. */
  lemma LevelOnlyWhenGiven(f: Flags, managerErr: Option<Error>, listing: ArtifactHub.Fetch<ArtifactHub.Packages>,
                           details: string -> ArtifactHub.Fetch<ArtifactHub.PackageDetails>)
    requires Outcome(f, managerErr, listing, details).Ready?
    ensures var s := Outcome(f, managerErr, listing, details);
      (s.level.Some? <==> f.logLevel != "") && (s.level.Some? ==> ParseLogLevel(f.logLevel) == Ok(s.level.value))
  {
  }

  /** An explicit image list is used as given: the discoverer is not
      consulted, and joining the images with commas gives the flag back. */
  lemma ExplicitImagesRoundTrip(f: Flags, managerErr: Option<Error>, listing: ArtifactHub.Fetch<ArtifactHub.Packages>,
                                details: string -> ArtifactHub.Fetch<ArtifactHub.PackageDetails>,
                                listing': ArtifactHub.Fetch<ArtifactHub.Packages>,
                                details': string -> ArtifactHub.Fetch<ArtifactHub.PackageDetails>)
    requires Outcome(f, managerErr, listing, details).Ready? && f.gadgetImages != ""
    ensures Outcome(f, managerErr, listing', details') == Outcome(f, managerErr, listing, details)
    ensures Join(Outcome(f, managerErr, listing, details).images, ',') == f.gadgetImages
  {
    JoinSplit(f.gadgetImages, ',');
  }

  /** A discovered image list is Artifact Hub's listing. */
  lemma DiscoveredImages(f: Flags, managerErr: Option<Error>, listing: ArtifactHub.Fetch<ArtifactHub.Packages>,
                         details: string -> ArtifactHub.Fetch<ArtifactHub.PackageDetails>)
    requires Outcome(f, managerErr, listing, details).Ready? && f.gadgetImages == ""
    ensures ArtifactHub.Listing(listing, details) == Ok(Outcome(f, managerErr, listing, details).images)
  {
  }
}
