/** The gadget tool registry (pkg/tools/tools.go): turning gadget
    descriptions into tools, the handler each gadget tool runs, and the
    registry object that holds the tool set and notifies its subscribers. */
module Tools {
  import opened Errors
  import opened Gadgets
  import opened Mcp
  import opened DeploymentProbe
  import opened DeployTool
  import opened UndeployTool

  // ---------------------------------------------------------------------
  // Tool names

  /** normalizeToolName: every space becomes '_'; nothing else changes
      (in particular nothing is lower-cased). */
  function NormalizeToolName(name: string): (r: string)
    ensures |r| == |name|
    ensures forall i :: 0 <= i < |name| ==> r[i] == (if name[i] == ' ' then '_' else name[i])
    ensures ' ' !in r
  {
    if name == [] then [] else [if name[0] == ' ' then '_' else name[0]] + NormalizeToolName(name[1..])
  }

  /** Normalizing twice is normalizing once. */
  lemma NormalizeIdempotent(name: string)
    ensures NormalizeToolName(NormalizeToolName(name)) == NormalizeToolName(name)
  {
  }

  /** A name without spaces is its own normal form. */
  lemma NormalizeFixesSpaceFree(name: string)
    requires ' ' !in name
    ensures NormalizeToolName(name) == name
  {
    assert forall i :: 0 <= i < |name| ==> name[i] != ' ';
  }

  /** Two different image names can share one key, so the later one replaces
      the earlier in the tool map. */
  lemma NormalizeCollides()
    ensures NormalizeToolName("trace dns") == NormalizeToolName("trace_dns")
  {
    assert NormalizeToolName("trace dns") == "trace_dns";
    NormalizeFixesSpaceFree("trace_dns");
  }

  // ---------------------------------------------------------------------
  // Maps built from the parameter list

  /** The map built by visiting `ps` in order and, for each parameter that
      `keep` accepts, writing `value` under its full key. */
  function LastWrites<V>(ps: seq<ParamDesc>, keep: ParamDesc -> bool, value: ParamDesc -> V): map<string, V>
    decreases |ps|
  {
    if ps == [] then map[]
    else
      var m := LastWrites(ps[..|ps| - 1], keep, value);
      var p := ps[|ps| - 1];
      if keep(p) then m[FullKey(p) := value(p)] else m
  }

  /** Parameter `i` is kept and no later kept parameter has its key. */
  predicate LastWriter(ps: seq<ParamDesc>, keep: ParamDesc -> bool, i: int)
  {
    0 <= i < |ps| && keep(ps[i])
    && forall j :: i < j < |ps| && keep(ps[j]) ==> FullKey(ps[j]) != FullKey(ps[i])
  }

  /** The keys are exactly the full keys of the kept parameters. */
  lemma {:induction false} LastWritesKeys<V>(ps: seq<ParamDesc>, keep: ParamDesc -> bool, value: ParamDesc -> V, k: string)
    ensures k in LastWrites(ps, keep, value) <==> exists i :: 0 <= i < |ps| && keep(ps[i]) && FullKey(ps[i]) == k
    decreases |ps|
  {
    if ps != [] {
      var init := ps[..|ps| - 1];
      LastWritesKeys(init, keep, value, k);
      if k in LastWrites(init, keep, value) {
        var i :| 0 <= i < |init| && keep(init[i]) && FullKey(init[i]) == k;
        assert ps[i] == init[i];
      }
      if exists i :: 0 <= i < |ps| && keep(ps[i]) && FullKey(ps[i]) == k {
        var i :| 0 <= i < |ps| && keep(ps[i]) && FullKey(ps[i]) == k;
        if i < |init| {
          assert init[i] == ps[i];
        }
      }
    }
  }

  /** Under each key sits the value of the last kept parameter with that key. */
  lemma {:induction false} LastWritesValue<V>(ps: seq<ParamDesc>, keep: ParamDesc -> bool, value: ParamDesc -> V, i: int)
    requires LastWriter(ps, keep, i)
    ensures FullKey(ps[i]) in LastWrites(ps, keep, value)
    ensures LastWrites(ps, keep, value)[FullKey(ps[i])] == value(ps[i])
    decreases |ps|
  {
    var init := ps[..|ps| - 1];
    if i < |ps| - 1 {
      assert init[i] == ps[i];
      assert LastWriter(init, keep, i) by {
        forall j | i < j < |init| && keep(init[j]) ensures FullKey(init[j]) != FullKey(init[i]) {
          assert init[j] == ps[j];
        }
      }
      LastWritesValue(init, keep, value, i);
    }
  }

  function Always(p: ParamDesc): bool { true }

  function HasDefault(p: ParamDesc): bool { p.defaultValue != "" }

  function DefaultOf(p: ParamDesc): string { p.defaultValue }

  /** The schema entry for one parameter: a string with its description. */
  function ParamProperty(p: ParamDesc): Property { StringProp(p.description, None) }

  /** The `params` object's properties: one string property per parameter. */
  function PropertiesOf(ps: seq<ParamDesc>): map<string, Property>
  {
    LastWrites(ps, Always, ParamProperty)
  }

  /** The default parameter map: the parameters with a non-empty default. */
  function DefaultsOf(ps: seq<ParamDesc>): map<string, string>
  {
    LastWrites(ps, HasDefault, DefaultOf)
  }

  /** defaultParamsFromGadgetInfo holds exactly the parameters with a non-empty
      default, keyed by prefix+key, each mapped to the default of the last
      parameter with that key. */
  lemma DefaultsExactly(ps: seq<ParamDesc>, k: string)
    ensures k in DefaultsOf(ps) <==> exists i :: 0 <= i < |ps| && ps[i].defaultValue != "" && FullKey(ps[i]) == k
    ensures forall i :: LastWriter(ps, HasDefault, i) ==>
      FullKey(ps[i]) in DefaultsOf(ps) && DefaultsOf(ps)[FullKey(ps[i])] == ps[i].defaultValue
  {
    LastWritesKeys(ps, HasDefault, DefaultOf, k);
    forall i | LastWriter(ps, HasDefault, i)
      ensures FullKey(ps[i]) in DefaultsOf(ps) && DefaultsOf(ps)[FullKey(ps[i])] == ps[i].defaultValue
    {
      LastWritesValue(ps, HasDefault, DefaultOf, i);
    }
  }

  /** The schema has one string property per parameter, keyed by prefix+key. */
  lemma PropertiesExactly(ps: seq<ParamDesc>, k: string)
    ensures k in PropertiesOf(ps) <==> exists i :: 0 <= i < |ps| && FullKey(ps[i]) == k
    ensures forall i :: LastWriter(ps, Always, i) ==>
      FullKey(ps[i]) in PropertiesOf(ps) && PropertiesOf(ps)[FullKey(ps[i])] == StringProp(ps[i].description, None)
  {
    LastWritesKeys(ps, Always, ParamProperty, k);
    forall i | LastWriter(ps, Always, i)
      ensures FullKey(ps[i]) in PropertiesOf(ps) && PropertiesOf(ps)[FullKey(ps[i])] == StringProp(ps[i].description, None)
    {
      LastWritesValue(ps, Always, ParamProperty, i);
    }
  }

  /** The loop that builds the `params` properties. */
  method ParamsProperties(ps: seq<ParamDesc>) returns (props: map<string, Property>)
    ensures props == PropertiesOf(ps)
  {
    props := map[];
    for i := 0 to |ps|
      invariant props == PropertiesOf(ps[..i])
    {
      assert ps[..i + 1][..i] == ps[..i];
      props := props[FullKey(ps[i]) := ParamProperty(ps[i])];
    }
    assert ps[..|ps|] == ps;
  }

  /** defaultParamsFromGadgetInfo. */
  method DefaultParams(ps: seq<ParamDesc>) returns (defaults: map<string, string>)
    ensures defaults == DefaultsOf(ps)
  {
    defaults := map[];
    for i := 0 to |ps|
      invariant defaults == DefaultsOf(ps[..i])
    {
      assert ps[..i + 1][..i] == ps[..i];
      if ps[i].defaultValue != "" {
        defaults := defaults[FullKey(ps[i]) := ps[i].defaultValue];
      }
    }
    assert ps[..|ps|] == ps;
  }

  // ---------------------------------------------------------------------
  // Tool synthesis

  /** The data the description template is executed with. */
  datatype ToolData = ToolData(name: string, description: string, environment: string)

  /** The collaborators of toolFromGadgetInfo: the YAML parse of the metadata
      document, the parse of the embedded template, and its execution. */
  datatype Synthesis = Synthesis(
    unmarshal: string -> Result<GadgetMetadata>,
    parseTemplate: Option<Error>,
    execute: ToolData -> Result<string>)

  const ParamsDescription := "key-value pairs of parameters to pass to the gadget"
  const TimeoutDescription := "Timeout in seconds for the gadget to run"

  /** The schema of a gadget tool: a required `params` object and an optional
      numeric `timeout`; gadget tools are read-only. */
  function GadgetSchemaTool(name: string, description: string, params: map<string, Property>): Tool
  {
    Tool(name, description, true,
         map["params" := ObjectProp(ParamsDescription, params), "timeout" := NumberProp(TimeoutDescription)],
         ["params"])
  }

  /** What toolFromGadgetInfo produces for a description. */
  function GadgetTool(info: GadgetInfo, syn: Synthesis): (r: Result<Tool>)
    ensures syn.unmarshal(info.metadata).Fail? ==>
      r == Fail(Wrap("unmarshalling gadget metadata", syn.unmarshal(info.metadata).error))
    ensures r.Ok? ==>
      var md := syn.unmarshal(info.metadata).value;
      && r.value.name == NormalizeToolName(md.name)
      && syn.execute(ToolData(NormalizeToolName(md.name), md.description, "Kubernetes")) == Ok(r.value.description)
      && r.value.readOnlyHint
      && r.value.properties.Keys == {"params", "timeout"}
      && r.value.properties["params"] == ObjectProp(ParamsDescription, PropertiesOf(info.params))
      && r.value.properties["timeout"].NumberProp?
      && r.value.required == ["params"]
  {
    match syn.unmarshal(info.metadata)
    case Fail(e) => Fail(Wrap("unmarshalling gadget metadata", e))
    case Ok(md) =>
      if syn.parseTemplate.Some? then Fail(Wrap("parsing template", syn.parseTemplate.value))
      else
        var name := NormalizeToolName(md.name);
        match syn.execute(ToolData(name, md.description, "Kubernetes"))
        case Fail(e) => Fail(Wrap("executing template for gadget " + info.imageName, e))
        case Ok(description) => Ok(GadgetSchemaTool(name, description, PropertiesOf(info.params)))
  }

  /** Synthesis fails only through one of its three collaborators. */
  lemma GadgetToolFailsOnlyThroughCollaborators(info: GadgetInfo, syn: Synthesis)
    ensures GadgetTool(info, syn).Fail? <==>
      || syn.unmarshal(info.metadata).Fail?
      || syn.parseTemplate.Some?
      || syn.execute(ToolData(NormalizeToolName(syn.unmarshal(info.metadata).value.name),
                              syn.unmarshal(info.metadata).value.description, "Kubernetes")).Fail?
  {
  }

  /** toolFromGadgetInfo. */
  method ToolFromGadgetInfo(info: GadgetInfo, syn: Synthesis) returns (r: Result<Tool>)
    ensures r == GadgetTool(info, syn)
  {
    var parsed := syn.unmarshal(info.metadata);
    if parsed.Fail? {
      return Fail(Wrap("unmarshalling gadget metadata", parsed.error));
    }
    var md := parsed.value;
    if syn.parseTemplate.Some? {
      return Fail(Wrap("parsing template", syn.parseTemplate.value));
    }
    var name := NormalizeToolName(md.name);
    var rendered := syn.execute(ToolData(name, md.description, "Kubernetes"));
    if rendered.Fail? {
      return Fail(Wrap("executing template for gadget " + info.imageName, rendered.error));
    }
    var params := ParamsProperties(info.params);
    return Ok(GadgetSchemaTool(name, rendered.value, params));
  }

  // ---------------------------------------------------------------------
  // The gadget tool handler

  /** Every supplied parameter is a string. */
  predicate AllStrings(supplied: map<string, Value>)
  {
    forall k :: k in supplied ==> supplied[k].Str?
  }

  /** The supplied string parameters. */
  function StringValues(supplied: map<string, Value>): map<string, string>
  {
    map k | k in supplied && supplied[k].Str? :: supplied[k].s
  }

  function InvalidType(k: string, v: Value): Error
  {
    Message("invalid type for parameter " + k + ": expected string, got " + GoTypeName(v))
  }

  /** The loop over the call's `params` object, in map order (unspecified):
      each string overrides the default under its key, and the first
      non-string met ends the call with an error naming it. */
  method MergeParams(defaults: map<string, string>, supplied: map<string, Value>) returns (r: Result<map<string, string>>)
    ensures r.Ok? <==> AllStrings(supplied)
    ensures r.Ok? ==> r.value == defaults + StringValues(supplied)
    ensures r.Fail? ==> exists k :: k in supplied && !supplied[k].Str? && r.error == InvalidType(k, supplied[k])
  {
    var merged := defaults;
    var remaining := supplied.Keys;
    while remaining != {}
      invariant remaining <= supplied.Keys
      invariant forall k :: k in supplied && k !in remaining ==> supplied[k].Str?
      invariant merged == defaults + map k | k in supplied && k !in remaining :: supplied[k].s
    {
      var k :| k in remaining;
      var v := supplied[k];
      if !v.Str? {
        return Fail(InvalidType(k, v));
      }
      merged := merged[k := v.s];
      remaining := remaining - {k};
    }
    return Ok(merged);
  }

  /** Caller strings override defaults and defaults fill the rest. */
  lemma MergeOverridesDefaults(defaults: map<string, string>, supplied: map<string, Value>, k: string)
    requires AllStrings(supplied)
    ensures k in defaults + StringValues(supplied) <==> k in defaults || k in supplied
    ensures k in supplied ==> (defaults + StringValues(supplied))[k] == supplied[k].s
    ensures k !in supplied && k in defaults ==> (defaults + StringValues(supplied))[k] == defaults[k]
  {
  }

  /** The timeout in seconds: `timeout` when it is a number, else 10. */
  function CallTimeout(args: Arguments): int
  {
    if "timeout" in args && args["timeout"].Number? then args["timeout"].n else 10
  }

  /** The call's `params` object, when it is one. */
  function SuppliedParams(args: Arguments): map<string, Value>
  {
    if "params" in args && args["params"].Object? then args["params"].fields else map[]
  }

  /** The request a valid call hands to Run. */
  function CallRequest(info: GadgetInfo, args: Arguments): RunRequest
  {
    RunRequest(info.imageName, DefaultsOf(info.params) + StringValues(SuppliedParams(args)), CallTimeout(args))
  }

  /** handlerFromGadgetInfo's handler. `run` is the gadget manager's Run;
      `dispatched` is the request passed to it, if any. */
  method HandleGadget(info: GadgetInfo, args: Arguments, run: RunRequest -> Result<string>)
    returns (r: CallResult, dispatched: Option<RunRequest>)
    ensures dispatched.Some? <==> AllStrings(SuppliedParams(args))
    ensures dispatched.None? ==>
      exists k :: k in SuppliedParams(args) && !SuppliedParams(args)[k].Str?
                  && r == Fault(InvalidType(k, SuppliedParams(args)[k]))
    ensures dispatched.Some? ==> dispatched.value == CallRequest(info, args)
    ensures dispatched.Some? && run(dispatched.value).Fail? ==>
      r == Fault(Wrap("starting gadget " + info.imageName, run(dispatched.value).error))
    ensures dispatched.Some? && run(dispatched.value).Ok? ==> r == TextResult(run(dispatched.value).value)
  {
    var timeout := 10;
    var params := DefaultParams(info.params);
    if "timeout" in args && args["timeout"].Number? {
      timeout := args["timeout"].n;
    }
    if "params" in args && args["params"].Object? {
      var merged := MergeParams(params, args["params"].fields);
      if merged.Fail? {
        return Fault(merged.error), None;
      }
      params := merged.value;
    } else {
      assert StringValues(SuppliedParams(args)) == map[];
      assert params + map[] == params;
    }
    var request := RunRequest(info.imageName, params, timeout);
    dispatched := Some(request);
    var out := run(request);
    if out.Fail? {
      return Fault(Wrap("starting gadget " + info.imageName, out.error)), dispatched;
    }
    return TextResult(out.value), dispatched;
  }

  // ---------------------------------------------------------------------
  // Registration

  /** One GetInfo result as it comes off the results channel. */
  datatype Fetched = Fetched(image: string, info: Result<GadgetInfo>)

  function ImagesOf(arrivals: seq<Fetched>): seq<string>
    decreases |arrivals|
  {
    if arrivals == [] then [] else [arrivals[0].image] + ImagesOf(arrivals[1..])
  }

  /** The arrivals are the fetches of exactly `images`, in some order. */
  predicate ArrivalsOf(arrivals: seq<Fetched>, images: seq<string>)
  {
    multiset(ImagesOf(arrivals)) == multiset(images)
  }

  /** The tool a described gadget is registered as. */
  function GadgetEntry(info: GadgetInfo, t: Tool): ServerTool
  {
    ServerTool(t, GadgetHandler(info))
  }

  /** The key a described gadget is stored under: its image name, normalized. */
  function GadgetKey(info: GadgetInfo): string
  {
    NormalizeToolName(info.imageName)
  }

  datatype Registration = Registration(tools: map<string, ServerTool>, err: Option<Error>)

  /** registerGadgets over the arrivals in channel order: failed fetches are
      skipped, the first synthesis failure stops the batch (keeping what was
      written before it), everything else is written under its key. */
  function Register(tools: map<string, ServerTool>, arrivals: seq<Fetched>, syn: Synthesis): Registration
    decreases |arrivals|
  {
    if arrivals == [] then Registration(tools, None)
    else match arrivals[0].info
      case Fail(_) => Register(tools, arrivals[1..], syn)
      case Ok(info) =>
        match GadgetTool(info, syn)
        case Fail(e) => Registration(tools, Some(Wrap("creating tool from gadget info for " + info.imageName, e)))
        case Ok(t) => Register(tools[GadgetKey(info) := GadgetEntry(info, t)], arrivals[1..], syn)
  }

  /** Arrival `i` was fetched but could not be turned into a tool. */
  predicate Unsynthesizable(arrivals: seq<Fetched>, syn: Synthesis, i: int)
  {
    0 <= i < |arrivals| && arrivals[i].info.Ok? && GadgetTool(arrivals[i].info.value, syn).Fail?
  }

  /** Registration fails exactly when some fetched description cannot be
      turned into a tool. */
  lemma {:induction false} RegisterFailsIff(tools: map<string, ServerTool>, arrivals: seq<Fetched>, syn: Synthesis)
    ensures Register(tools, arrivals, syn).err.Some? <==> exists i :: Unsynthesizable(arrivals, syn, i)
    decreases |arrivals|
  {
    if arrivals != [] {
      var rest := arrivals[1..];
      if arrivals[0].info.Ok? && GadgetTool(arrivals[0].info.value, syn).Fail? {
        assert Unsynthesizable(arrivals, syn, 0);
      } else {
        var next := match arrivals[0].info
          case Fail(_) => tools
          case Ok(info) => tools[GadgetKey(info) := GadgetEntry(info, GadgetTool(info, syn).value)];
        assert Register(tools, arrivals, syn) == Register(next, rest, syn);
        RegisterFailsIff(next, rest, syn);
        if exists i :: Unsynthesizable(rest, syn, i) {
          var i :| Unsynthesizable(rest, syn, i);
          assert Unsynthesizable(arrivals, syn, i + 1);
        }
        if exists i :: Unsynthesizable(arrivals, syn, i) {
          var i :| Unsynthesizable(arrivals, syn, i);
          assert i != 0;
          assert Unsynthesizable(rest, syn, i - 1);
        }
      }
    }
  }

  /** Registration stops at the first description that cannot be turned into
      a tool: the error is that arrival's, wrapped with its image name, and the
      map is what the arrivals before it wrote; later arrivals are not written. */
  lemma {:induction false} RegisterStopsAtFirstFailure(tools: map<string, ServerTool>, arrivals: seq<Fetched>, syn: Synthesis, i: int)
    requires Unsynthesizable(arrivals, syn, i)
    requires forall j :: 0 <= j < i ==> !Unsynthesizable(arrivals, syn, j)
    ensures var info := arrivals[i].info.value;
      Register(tools, arrivals, syn)
      == Registration(Register(tools, arrivals[..i], syn).tools,
                      Some(Wrap("creating tool from gadget info for " + info.imageName, GadgetTool(info, syn).error)))
    decreases |arrivals|
  {
    if i == 0 {
      assert arrivals[..0] == [];
    } else {
      var rest := arrivals[1..];
      assert !Unsynthesizable(arrivals, syn, 0);
      var next := match arrivals[0].info
        case Fail(_) => tools
        case Ok(info) => tools[GadgetKey(info) := GadgetEntry(info, GadgetTool(info, syn).value)];
      assert Register(tools, arrivals, syn) == Register(next, rest, syn);
      var prefix := arrivals[..i];
      assert prefix[0] == arrivals[0] && prefix[1..] == rest[..i - 1];
      assert Register(tools, prefix, syn) == Register(next, rest[..i - 1], syn);
      forall j | 0 <= j < i - 1 ensures !Unsynthesizable(rest, syn, j) {
        assert !Unsynthesizable(arrivals, syn, j + 1);
      }
      assert Unsynthesizable(rest, syn, i - 1);
      RegisterStopsAtFirstFailure(next, rest, syn, i - 1);
    }
  }

  /** The key of arrival `i` if it was fetched. */
  predicate WritesKey(arrivals: seq<Fetched>, i: int, k: string)
  {
    0 <= i < |arrivals| && arrivals[i].info.Ok? && GadgetKey(arrivals[i].info.value) == k
  }

  /** Keys no fetched description maps to, the administrative tools'
      included, are left as they were. */
  lemma {:induction false} RegisterKeepsOtherKeys(tools: map<string, ServerTool>, arrivals: seq<Fetched>, syn: Synthesis, k: string)
    requires forall i :: !WritesKey(arrivals, i, k)
    ensures var r := Register(tools, arrivals, syn).tools;
      (k in r <==> k in tools) && (k in tools ==> r[k] == tools[k])
    decreases |arrivals|
  {
    if arrivals != [] {
      var rest := arrivals[1..];
      assert forall i :: !WritesKey(rest, i, k) by {
        forall i ensures !WritesKey(rest, i, k) {
          if WritesKey(rest, i, k) { assert WritesKey(arrivals, i + 1, k); }
        }
      }
      assert !WritesKey(arrivals, 0, k);
      match arrivals[0].info
      case Fail(_) => RegisterKeepsOtherKeys(tools, rest, syn, k);
      case Ok(info) =>
        if GadgetTool(info, syn).Ok? {
          RegisterKeepsOtherKeys(tools[GadgetKey(info) := GadgetEntry(info, GadgetTool(info, syn).value)], rest, syn, k);
        }
    }
  }

  /** When registration succeeds, every fetched gadget is in the map under its
      key, holding the tool of the last arrival with that key. */
  lemma {:induction false} RegisterInstalls(tools: map<string, ServerTool>, arrivals: seq<Fetched>, syn: Synthesis, i: int)
    requires Register(tools, arrivals, syn).err.None?
    requires 0 <= i < |arrivals| && arrivals[i].info.Ok?
    requires forall j :: i < j < |arrivals| ==> !WritesKey(arrivals, j, GadgetKey(arrivals[i].info.value))
    ensures var info := arrivals[i].info.value;
      var r := Register(tools, arrivals, syn).tools;
      && GadgetTool(info, syn).Ok?
      && GadgetKey(info) in r
      && r[GadgetKey(info)] == GadgetEntry(info, GadgetTool(info, syn).value)
    decreases |arrivals|
  {
    var rest := arrivals[1..];
    if i == 0 {
      var info := arrivals[0].info.value;
      var t := GadgetTool(info, syn).value;
      forall j ensures !WritesKey(rest, j, GadgetKey(info)) {
        if WritesKey(rest, j, GadgetKey(info)) { assert WritesKey(arrivals, j + 1, GadgetKey(info)); }
      }
      RegisterKeepsOtherKeys(tools[GadgetKey(info) := GadgetEntry(info, t)], rest, syn, GadgetKey(info));
    } else {
      var key := GadgetKey(arrivals[i].info.value);
      forall j | i - 1 < j < |rest| ensures !WritesKey(rest, j, key) {
        assert !WritesKey(arrivals, j + 1, key);
      }
      match arrivals[0].info
      case Fail(_) => RegisterInstalls(tools, rest, syn, i - 1);
      case Ok(info) =>
        RegisterInstalls(tools[GadgetKey(info) := GadgetEntry(info, GadgetTool(info, syn).value)], rest, syn, i - 1);
    }
  }

  /** The arrivals whose fetch succeeded. */
  function FetchedOnly(arrivals: seq<Fetched>): seq<Fetched>
    decreases |arrivals|
  {
    if arrivals == [] then []
    else if arrivals[0].info.Fail? then FetchedOnly(arrivals[1..])
    else [arrivals[0]] + FetchedOnly(arrivals[1..])
  }

  /** A failed fetch changes nothing: the registration is the one of the
      successful fetches alone. */
  lemma {:induction false} FailedFetchesSkipped(tools: map<string, ServerTool>, arrivals: seq<Fetched>, syn: Synthesis)
    ensures Register(tools, arrivals, syn) == Register(tools, FetchedOnly(arrivals), syn)
    decreases |arrivals|
  {
    if arrivals != [] {
      var rest := arrivals[1..];
      match arrivals[0].info
      case Fail(_) => FailedFetchesSkipped(tools, rest, syn);
      case Ok(info) =>
        var f := FetchedOnly(arrivals);
        assert f[0] == arrivals[0] && f[1..] == FetchedOnly(rest);
        if GadgetTool(info, syn).Ok? {
          FailedFetchesSkipped(tools[GadgetKey(info) := GadgetEntry(info, GadgetTool(info, syn).value)], rest, syn);
        }
    }
  }

  /** Of two images whose metadata fetch fails for the first, only the second
      is registered, and no error reaches the caller. */
  lemma OnlyFetchedImageRegistered(a: string, e: Error, b: GadgetInfo, syn: Synthesis)
    requires GadgetTool(b, syn).Ok?
    ensures Register(map[], [Fetched(a, Fail(e)), Fetched(b.imageName, Ok(b))], syn)
         == Registration(map[GadgetKey(b) := GadgetEntry(b, GadgetTool(b, syn).value)], None)
  {
    var arrivals := [Fetched(a, Fail(e)), Fetched(b.imageName, Ok(b))];
    var t := GadgetTool(b, syn).value;
    assert arrivals[1..] == [Fetched(b.imageName, Ok(b))];
    assert arrivals[1..][1..] == [];
    assert Register(map[], arrivals, syn) == Register(map[], arrivals[1..], syn);
    assert Register(map[], arrivals[1..], syn) == Register(map[GadgetKey(b) := GadgetEntry(b, t)], [], syn);
  }

  // ---------------------------------------------------------------------
  // The registry

  /** A subscriber callback, identified by the order-independent handle the
      caller registered it under. */
  type CallbackId = nat

  /** One invocation of a callback with the tools it was given. */
  datatype Notification = Notification(callback: CallbackId, tools: seq<ServerTool>)

  /** `ts` lists the tools of `m` in the key order `keys`: every key of `m`
      exactly once, each entry the tool stored under its key. */
  predicate SnapshotBy(ts: seq<ServerTool>, m: map<string, ServerTool>, keys: seq<string>)
  {
    && |keys| == |ts|
    && (forall i, j :: 0 <= i < j < |keys| ==> keys[i] != keys[j])
    && (forall k :: k in m ==> k in keys)
    && (forall i :: 0 <= i < |keys| ==> keys[i] in m && ts[i] == m[keys[i]])
  }

  /** A duplicate-free list of exactly the members of `s` is as long as `s`
      is large. */
  lemma {:induction false} KeyListSize(keys: seq<string>, s: set<string>)
    requires forall i, j :: 0 <= i < j < |keys| ==> keys[i] != keys[j]
    requires forall i :: 0 <= i < |keys| ==> keys[i] in s
    requires forall k :: k in s ==> k in keys
    ensures |keys| == |s|
    decreases |keys|
  {
    if keys == [] {
      assert s == {};
    } else {
      var last := keys[|keys| - 1];
      var init := keys[..|keys| - 1];
      forall k | k in s - {last} ensures k in init {
        var i :| 0 <= i < |keys| && keys[i] == k;
        assert init[i] == k;
      }
      KeyListSize(init, s - {last});
    }
  }

  /** `ts` is what all() may return for `m`: the stored tools, one entry per
      key, in some key order. */
  ghost predicate IsSnapshot(ts: seq<ServerTool>, m: map<string, ServerTool>)
  {
    |ts| == |m| && exists keys :: SnapshotBy(ts, m, keys)
  }

  /** `after` extends `before` with one notification per callback, in
      registration order, each carrying the full tool set `m`. */
  ghost predicate Notified(before: seq<Notification>, after: seq<Notification>, callbacks: seq<CallbackId>, m: map<string, ServerTool>)
  {
    && |after| == |before| + |callbacks|
    && after[..|before|] == before
    && forall i :: 0 <= i < |callbacks| ==> Carries(after[|before| + i], callbacks[i], m)
  }

  /** Notification `n` went to `callback` with the full tool set `m`. */
  ghost predicate Carries(n: Notification, callback: CallbackId, m: map<string, ServerTool>)
  {
    n.callback == callback && IsSnapshot(n.tools, m)
  }

  /** Appending one carrying notification per callback is a notification round. */
  lemma NotifiedBySent(before: seq<Notification>, sent: seq<Notification>, callbacks: seq<CallbackId>, m: map<string, ServerTool>)
    requires |sent| == |callbacks|
    requires forall j :: 0 <= j < |sent| ==> Carries(sent[j], callbacks[j], m)
    ensures Notified(before, before + sent, callbacks, m)
  {
    var after := before + sent;
    assert after[..|before|] == before;
    forall i | 0 <= i < |callbacks|
      ensures Carries(after[|before| + i], callbacks[i], m)
    {
      assert after[|before| + i] == sent[i];
    }
  }

  /** The tool set with the two administrative tools Prepare installs. */
  function WithAdminTools(tools: map<string, ServerTool>, images: seq<string>): map<string, ServerTool>
  {
    tools[DeployToolName := DeployToolDef(images)][UndeployToolName := UndeployToolDef()]
  }

  class GadgetToolRegistry {
    var tools: map<string, ServerTool>
    var callbacks: seq<CallbackId>
    /** Every callback invocation so far, in order. */
    var delivered: seq<Notification>
    /** How the gadget manager's descriptions become tools. */
    const syn: Synthesis

    /** NewToolRegistry. */
    constructor (syn: Synthesis)
      ensures tools == map[] && callbacks == [] && delivered == [] && this.syn == syn
    {
      tools := map[];
      callbacks := [];
      delivered := [];
      this.syn := syn;
    }

    method RegisterCallback(callback: CallbackId)
      modifies this`callbacks
      ensures callbacks == old(callbacks) + [callback]
    {
      callbacks := callbacks + [callback];
    }

    /** all(): the stored tools, in map order. */
    method All() returns (ts: seq<ServerTool>)
      ensures IsSnapshot(ts, tools)
    {
      ts := [];
      var remaining := tools.Keys;
      ghost var keys: seq<string> := [];
      while remaining != {}
        invariant remaining <= tools.Keys
        invariant |ts| == |keys|
        invariant forall i, j :: 0 <= i < j < |keys| ==> keys[i] != keys[j]
        invariant forall i :: 0 <= i < |keys| ==> keys[i] !in remaining
        invariant forall k :: k in tools && k !in remaining ==> k in keys
        invariant forall i :: 0 <= i < |keys| ==> keys[i] in tools && ts[i] == tools[keys[i]]
      {
        var k :| k in remaining;
        ts := ts + [tools[k]];
        keys := keys + [k];
        remaining := remaining - {k};
      }
      assert SnapshotBy(ts, tools, keys);
      KeyListSize(keys, tools.Keys);
    }

    /** One callback invocation: the callback receives all(). */
    method Notify(callback: CallbackId) returns (n: Notification)
      modifies this`delivered
      ensures delivered == old(delivered) + [n]
      ensures Carries(n, callback, tools)
    {
      var all := All();
      n := Notification(callback, all);
      delivered := delivered + [n];
    }

    /** The callback loop shared by Prepare and the post-deploy re-registration. */
    method NotifyCallbacks()
      modifies this`delivered
      ensures Notified(old(delivered), delivered, callbacks, tools)
    {
      ghost var sent: seq<Notification> := [];
      for i := 0 to |callbacks|
        invariant delivered == old(delivered) + sent
        invariant |sent| == i
        invariant forall j :: 0 <= j < i ==> Carries(sent[j], callbacks[j], tools)
      {
        var n := Notify(callbacks[i]);
        sent := sent + [n];
      }
      NotifiedBySent(old(delivered), sent, callbacks, tools);
    }

    /** registerGadgets over the GetInfo results in arrival order. */
    method RegisterGadgets(arrivals: seq<Fetched>) returns (err: Option<Error>)
      modifies this`tools
      ensures Registration(tools, err) == Register(old(tools), arrivals, syn)
    {
      var i := 0;
      while i < |arrivals|
        invariant 0 <= i <= |arrivals|
        invariant Register(tools, arrivals[i..], syn) == Register(old(tools), arrivals, syn)
      {
        assert arrivals[i..][1..] == arrivals[i + 1..];
        var result := arrivals[i];
        if result.info.Ok? {
          var info := result.info.value;
          var t := ToolFromGadgetInfo(info, syn);
          if t.Fail? {
            return Some(Wrap("creating tool from gadget info for " + info.imageName, t.error));
          }
          tools := tools[GadgetKey(info) := GadgetEntry(info, t.value)];
        }
        i := i + 1;
      }
      return None;
    }

    /** Prepare: install the administrative tools, probe the deployment,
        register the gadgets if it is deployed, then notify every callback. */
    method Prepare(images: seq<string>, probe: Probe, arrivals: seq<Fetched>) returns (err: Option<Error>)
      requires ArrivalsOf(arrivals, images)
      modifies this`tools, this`delivered
      ensures var base := WithAdminTools(old(tools), images);
        && (probe.err.Some? ==>
              && tools == base && delivered == old(delivered)
              && err == Some(Wrap("checking if Inspektor Gadget is deployed", probe.err.value)))
        && (probe.err.None? && !probe.deployed ==>
              tools == base && err.None? && Notified(old(delivered), delivered, callbacks, tools))
        && (probe.err.None? && probe.deployed ==>
              var reg := Register(base, arrivals, syn);
              && tools == reg.tools
              && (reg.err.Some? ==> err == Some(Wrap("registering gadgets", reg.err.value)) && delivered == old(delivered))
              && (reg.err.None? ==> err.None? && Notified(old(delivered), delivered, callbacks, tools)))
    {
      var deployTool := DeployToolDef(images);
      var undeployTool := UndeployToolDef();
      tools := tools[deployTool.tool.name := deployTool];
      tools := tools[undeployTool.tool.name := undeployTool];
      if probe.err.Some? {
        return Some(Wrap("checking if Inspektor Gadget is deployed", probe.err.value));
      }
      if probe.deployed {
        var e := RegisterGadgets(arrivals);
        if e.Some? {
          return Some(Wrap("registering gadgets", e.value));
        }
      }
      NotifyCallbacks();
      return None;
    }

    /** The background step the deploy handler schedules after a successful
        deploy (after its settle delay): register the gadgets again and
        notify every callback, or only log the error. */
    method ReregisterAfterDeploy(images: seq<string>, arrivals: seq<Fetched>) returns (logged: Option<Error>)
      requires ArrivalsOf(arrivals, images)
      modifies this`tools, this`delivered
      ensures var reg := Register(old(tools), arrivals, syn);
        && tools == reg.tools && logged == reg.err
        && (reg.err.Some? ==> delivered == old(delivered))
        && (reg.err.None? ==> Notified(old(delivered), delivered, callbacks, tools))
    {
      logged := RegisterGadgets(arrivals);
      if logged.Some? {
        return;
      }
      NotifyCallbacks();
    }
  }

  /** Prepare keeps the two administrative tools through gadget registration
      unless a gadget's image name normalizes to one of their names. */
  lemma AdminToolsSurviveRegistration(tools: map<string, ServerTool>, images: seq<string>, arrivals: seq<Fetched>, syn: Synthesis)
    requires forall i :: !WritesKey(arrivals, i, DeployToolName) && !WritesKey(arrivals, i, UndeployToolName)
    ensures var r := Register(WithAdminTools(tools, images), arrivals, syn).tools;
      && DeployToolName in r && r[DeployToolName] == DeployToolDef(images)
      && UndeployToolName in r && r[UndeployToolName] == UndeployToolDef()
  {
    RegisterKeepsOtherKeys(WithAdminTools(tools, images), arrivals, syn, DeployToolName);
    RegisterKeepsOtherKeys(WithAdminTools(tools, images), arrivals, syn, UndeployToolName);
  }
}
