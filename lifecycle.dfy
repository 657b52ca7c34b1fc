/** The stop-gadget and get-results tools (pkg/tools/lifecycle.go). The gadget
    manager's Stop and Results, and the output truncation, are oracles. */
module Lifecycle {
  import opened Errors
  import opened Mcp

  const StopToolName := "stop-gadget"
  const GetResultsToolName := "get-results"

  function StopToolDef(): (t: ServerTool)
    ensures t.tool.name == StopToolName && t.tool.readOnlyHint
    ensures t.handler == StopHandler
    ensures t.tool.properties.Keys == {"id"}
  {
    ServerTool(
      Tool(StopToolName, "Stops a gadget with an ID", true,
           map["id" := StringProp("ID of the running gadget", None)], []),
      StopHandler)
  }

  function GetResultsToolDef(): (t: ServerTool)
    ensures t.tool.name == GetResultsToolName && t.tool.readOnlyHint
    ensures t.handler == GetResultsHandler
    ensures t.tool.properties.Keys == {"id"}
  {
    ServerTool(
      Tool(GetResultsToolName,
           "Returns the collected events from a gadget instance with a specific ID. "
           + "Please review the data and provide a concise summary to the user.",
           true,
           map["id" := StringProp("ID of the running gadget instance", None)], []),
      GetResultsHandler)
  }

  /** fmt's %q for a string with nothing to escape. */
  function Quote(s: string): string
  {
    "\"" + s + "\""
  }

  const IdRequired := Message("an id is required")

  /** stopHandler: `stop` is what the gadget manager's Stop returns for an id. */
  function HandleStop(args: Arguments, stop: string -> Option<Error>): (r: CallResult)
    ensures var id := GetString(args, "id", "");
      && (id == "" ==> r == Fault(IdRequired))
      && (id != "" && stop(id).Some? ==>
            r == Fault(Wrap("failed to stop gadget with id " + Quote(id), stop(id).value)))
      && (id != "" && stop(id).None? ==> r == TextResult("Gadget with ID " + Quote(id) + " has been stopped"))
    ensures !r.ErrorResult?
  {
    var id := GetString(args, "id", "");
    if id == "" then Fault(IdRequired)
    else match stop(id)
      case Some(e) => Fault(Wrap("failed to stop gadget with id " + Quote(id), e))
      case None => TextResult("Gadget with ID " + Quote(id) + " has been stopped")
  }

  /** getResultsHandler: `results` is what the gadget manager's Results returns
      for an id, `truncate` the result formatter. */
  function HandleGetResults(args: Arguments, results: string -> Result<string>, truncate: string -> string): (r: CallResult)
    ensures var id := GetString(args, "id", "");
      && (id == "" ==> r == Fault(IdRequired))
      && (id != "" && results(id).Fail? ==> r == Fault(Wrap("attaching to gadget " + id, results(id).error)))
      && (id != "" && results(id).Ok? ==> r == TextResult(truncate(results(id).value)))
    ensures !r.ErrorResult?
  {
    var id := GetString(args, "id", "");
    if id == "" then Fault(IdRequired)
    else match results(id)
      case Fail(e) => Fault(Wrap("attaching to gadget " + id, e))
      case Ok(resp) => TextResult(truncate(resp))
  }

  /** Without an id neither handler consults the gadget manager: the outcome
      is the same whatever Stop or Results would have done. */
  lemma MissingIdNeverDispatched(args: Arguments, stop1: string -> Option<Error>, stop2: string -> Option<Error>,
                                 results1: string -> Result<string>, results2: string -> Result<string>,
                                 truncate: string -> string)
    requires GetString(args, "id", "") == ""
    ensures HandleStop(args, stop1) == HandleStop(args, stop2)
    ensures HandleGetResults(args, results1, truncate) == HandleGetResults(args, results2, truncate)
  {
  }
}
