/** The shapes of the tool-exposure protocol the handlers produce and consume:
    JSON argument values, the tool definition with its input schema, the
    handler bound to each tool, and the outcome of one call. */
module Mcp {
  import opened Errors
  import opened Gadgets

  /** A decoded JSON value as it arrives in a call's arguments. */
  datatype Value =
    | Null
    | Bool(b: bool)
    | Number(n: int)
    | Str(s: string)
    | List(items: seq<Value>)
    | Object(fields: map<string, Value>)

  /** The call's arguments. A request whose arguments are not an object reads
      like an empty map in every handler here. */
  type Arguments = map<string, Value>

  /** The name Go's %T prints for the dynamic type of a decoded JSON value. */
  function GoTypeName(v: Value): string
  {
    match v
    case Null => "<nil>"
    case Bool(_) => "bool"
    case Number(_) => "float64"
    case Str(_) => "string"
    case List(_) => "[]interface {}"
    case Object(_) => "map[string]interface {}"
  }

  /** request.GetString(key, default): the argument if it is a string,
      otherwise the default (also when the key is absent). */
  function GetString(args: Arguments, key: string, default: string): (r: string)
    ensures key in args && args[key].Str? ==> r == args[key].s
    ensures !(key in args && args[key].Str?) ==> r == default
  {
    if key in args && args[key].Str? then args[key].s else default
  }

  /** One property of a tool's input schema. */
  datatype Property =
    | StringProp(description: string, default: Option<string>)
    | NumberProp(description: string)
    | ObjectProp(description: string, properties: map<string, Property>)

  datatype Tool = Tool(
    name: string,
    description: string,
    readOnlyHint: bool,
    properties: map<string, Property>,
    required: seq<string>)

  /** The handler closure bound to a tool, one tag per kind of closure. */
  datatype Handler =
    | DeployHandler(images: seq<string>)
    | UndeployHandler
    | GadgetHandler(info: GadgetInfo)
    | StopHandler
    | GetResultsHandler
    | IsDeployedHandler

  datatype ServerTool = ServerTool(tool: Tool, handler: Handler)

  /** What a handler hands back: a Go error (a protocol-level fault), a
      tool-level error result the caller's agent reads, or a text result. */
  datatype CallResult =
    | Fault(err: Error)
    | ErrorResult(text: string)
    | TextResult(text: string)
}
