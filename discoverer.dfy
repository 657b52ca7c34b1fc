/** The discoverer source switch (pkg/discoverer/discoverer.go). */
module Discoverer {
  import opened Errors

  const SourceArtifactHub := "artifacthub"

  /** The discoverers New can return. */
  datatype DiscovererKind = ArtifactHubDiscoverer

  /** New: only "artifacthub" is known; anything else is ErrUnknownSource
      wrapped as "%w: <source>". */
  function New(source: string): (r: Result<DiscovererKind>)
    ensures r.Ok? <==> source == SourceArtifactHub
    ensures r.Ok? ==> r.value == ArtifactHubDiscoverer
    ensures r.Fail? ==> Is(r.error, UnknownSource)
  {
    if source == SourceArtifactHub then Ok(ArtifactHubDiscoverer)
    else Fail(Wrapped("", SentinelError(UnknownSource), ": " + source))
  }

  /** The rejection message is the sentinel's text followed by the source. */
  lemma RejectionNamesSource(source: string)
    requires source != SourceArtifactHub
    ensures Text(New(source).error) == SentinelText(UnknownSource) + ": " + source
    ensures var t := Text(New(source).error); t[|t| - |source|..] == source
  {
  }

  /** The empty source, which the command line passes when no discoverer is
      named, is rejected too. */
  lemma EmptySourceRejected()
    ensures New("").Fail? && Text(New("").error) == "unknown source: "
  {
  }
}
