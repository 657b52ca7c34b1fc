/** Go error values as the server builds them: package-level sentinels,
    plain messages (errors.New / fmt.Errorf without %w) and messages made by
    fmt.Errorf around exactly one %w verb. `Text` is err.Error() and `Is` is
    errors.Is against a sentinel. */
module Errors {

  datatype Option<+T> = None | Some(value: T)

  /** A value or the error that took its place (Go's `(T, error)` pair). */
  datatype Result<+T> = Ok(value: T) | Fail(error: Error)

  /** The sentinel errors the core declares: ErrChartURLNotSet and
      ErrNotDeployedByDeployer in the deployer, ErrUnknownSource in the
      discoverer. */
  datatype Sentinel = ChartURLNotSet | NotDeployedByDeployer | UnknownSource

  function SentinelText(s: Sentinel): string
  {
    match s
    case ChartURLNotSet => "chart URL not set"
    case NotDeployedByDeployer => "not deployed by deployer"
    case UnknownSource => "unknown source"
  }

  datatype Error =
    | SentinelError(kind: Sentinel)
    | Message(text: string)
    /** fmt.Errorf(prefix + "%w" + suffix, cause) */
    | Wrapped(prefix: string, cause: Error, suffix: string)

  /** err.Error() */
  function Text(e: Error): string
  {
    match e
    case SentinelError(k) => SentinelText(k)
    case Message(t) => t
    case Wrapped(p, c, s) => p + Text(c) + s
  }

  /** errors.Is(e, sentinel): walks the %w chain. */
  predicate Is(e: Error, k: Sentinel)
  {
    match e
    case SentinelError(k') => k' == k
    case Message(_) => false
    case Wrapped(_, c, _) => Is(c, k)
  }

  /** The idiom used throughout the code base: fmt.Errorf("context: %w", err). */
  function Wrap(context: string, cause: Error): (e: Error)
    ensures Text(e) == context + ": " + Text(cause)
    ensures forall k :: Is(e, k) == Is(cause, k)
  {
    Wrapped(context + ": ", cause, "")
  }
}
