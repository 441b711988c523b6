/** The MCP server in front of Unity: it lists one tool per configured
    command, with an input schema derived from the command table (JSON
    Schema Validation 2020-12: `required`, section 6.5.3; `enum`, section
    6.1.2; `minItems`/`maxItems`, sections 6.4.2 and 6.4.1), validates the
    arguments of a tool call against the same table before forwarding it,
    and serves three resources by URI. */
module McpServer {
  import opened Wrappers
  import opened JsonValues
  import opened Config
  import opened Transport
  import opened UnityTcpClient

  /** The parameter names that are required when a command declares them. */
  const EssentialParams: seq<string> := ["type", "object_name", "name", "code"]

  /** `[JStr(n) for n in names]` */
  function Strings(names: seq<string>): (items: seq<Json>)
    ensures |items| == |names|
    ensures forall i :: 0 <= i < |names| ==> items[i] == JStr(names[i])
  {
    seq(|names|, i requires 0 <= i < |names| => JStr(names[i]))
  }

  // Tool listing

  /** An MCP tool: its name, description and input schema. */
  datatype Tool = Tool(name: string, description: string, inputSchema: Object)

  /** The schema of one declared parameter. */
  function PropertySchema(commandName: string, paramName: string, info: ParamInfo,
                          objectTypes: seq<string>): (schema: Json)
    ensures schema.JObj? && Get(schema.obj, "type") == Some(JStr(info.kind))
  {
    if info.kind == "array" then
      if info.minItems.Some? && info.maxItems.Some? then
        JObj(map["type" := JStr("array"), "items" := JObj(map["type" := JStr("number")]),
                 "minItems" := JNum(info.minItems.value as real),
                 "maxItems" := JNum(info.maxItems.value as real)])
      else
        JObj(map["type" := JStr("array"), "items" := JObj(map["type" := JStr("number")])])
    else if info.kind == "string" && paramName == "type" && commandName == "create_object" then
      JObj(map["type" := JStr("string"), "enum" := JArr(Strings(objectTypes))])
    else
      JObj(map["type" := JStr(info.kind)])
  }

  /** The `properties` object after the parameters in `ps` are visited in
      order. */
  function Properties(commandName: string, ps: ParamTable, objectTypes: seq<string>): (props: Object)
    ensures props.Keys == set i | 0 <= i < |ps| :: ps[i].0
  {
    if ps == [] then map[]
    else
      var (paramName, info) := ps[|ps| - 1];
      var init := Properties(commandName, ps[..|ps| - 1], objectTypes);
      assert forall i :: 0 <= i < |ps| - 1 ==> ps[..|ps| - 1][i] == ps[i];
      init[paramName := PropertySchema(commandName, paramName, info, objectTypes)]
  }

  /** The `required_params` list `list_tools` collects: the essential names,
      in declaration order, and none at all for get_scene_info. */
  function SchemaRequired(commandName: string, ps: ParamTable): (names: seq<string>)
    ensures forall p :: p in names ==> p in EssentialParams
    ensures commandName == "get_scene_info" ==> names == []
  {
    if ps == [] then []
    else
      var paramName := ps[|ps| - 1].0;
      SchemaRequired(commandName, ps[..|ps| - 1]) +
        if paramName in EssentialParams && commandName != "get_scene_info" then [paramName] else []
  }

  /** The input schema of a command: an object schema with its properties,
      and a `required` list only when that list is non-empty. */
  function InputSchema(commandName: string, params: Option<ParamTable>, objectTypes: seq<string>): (schema: Object)
    ensures Get(schema, "type") == Some(JStr("object"))
    ensures Get(schema, "properties") == Some(JObj(Properties(commandName, params.GetOr([]), objectTypes)))
    ensures HasKey(schema, "required") <==> SchemaRequired(commandName, params.GetOr([])) != []
    ensures HasKey(schema, "required") ==>
      schema["required"] == JArr(Strings(SchemaRequired(commandName, params.GetOr([]))))
    ensures schema.Keys <= {"type", "properties", "required"}
  {
    var ps := params.GetOr([]);
    var required := SchemaRequired(commandName, ps);
    var schema := map["type" := JStr("object"), "properties" := JObj(Properties(commandName, ps, objectTypes))];
    if required == [] then schema else schema["required" := JArr(Strings(required))]
  }

  /** The tool `list_tools` makes of one table entry. */
  function ToolFor(entry: (string, CommandInfo), objectTypes: seq<string>): (tool: Tool)
    ensures tool.name == entry.0 && tool.description == entry.1.description
    ensures Get(tool.inputSchema, "type") == Some(JStr("object"))
    ensures Get(tool.inputSchema, "properties") ==
      Some(JObj(Properties(entry.0, entry.1.params.GetOr([]), objectTypes)))
  {
    Tool(entry.0, entry.1.description, InputSchema(entry.0, entry.1.params, objectTypes))
  }

  /** `list_tools`: one tool per table entry, in table order. */
  method ListTools(commands: CommandTable, objectTypes: seq<string>) returns (tools: seq<Tool>)
    ensures |tools| == |commands|
    ensures forall i :: 0 <= i < |commands| ==> tools[i] == ToolFor(commands[i], objectTypes)
  {
    tools := [];
    var i := 0;
    while i < |commands|
      invariant 0 <= i <= |commands|
      invariant |tools| == i
      invariant forall k :: 0 <= k < i ==> tools[k] == ToolFor(commands[k], objectTypes)
    {
      var (commandName, commandInfo) := commands[i];
      var properties: Object := map[];
      var required: seq<string> := [];
      var ps := commandInfo.params.GetOr([]);
      if commandInfo.params.Some? {
        var j := 0;
        while j < |ps|
          invariant 0 <= j <= |ps|
          invariant properties == Properties(commandName, ps[..j], objectTypes)
          invariant required == SchemaRequired(commandName, ps[..j])
        {
          var (paramName, paramInfo) := ps[j];
          properties := properties[paramName := PropertySchema(commandName, paramName, paramInfo, objectTypes)];
          if paramName in EssentialParams && commandName != "get_scene_info" {
            required := required + [paramName];
          }
          assert ps[..j + 1][..j] == ps[..j];
          j := j + 1;
        }
        assert ps[..j] == ps;
      }
      var schema := map["type" := JStr("object"), "properties" := JObj(properties)];
      if required != [] {
        schema := schema["required" := JArr(Strings(required))];
      }
      tools := tools + [Tool(commandName, commandInfo.description, schema)];
      i := i + 1;
    }
  }

  /** Every property schema carries the declared type; `items` exactly for
      arrays; `minItems` and `maxItems` exactly for arrays declaring both
      bounds; `enum` exactly for the `type` string of create_object. */
  lemma PropertySchemaShape(commandName: string, paramName: string, info: ParamInfo, objectTypes: seq<string>)
    ensures var s := PropertySchema(commandName, paramName, info, objectTypes);
      && s.JObj?
      && Get(s.obj, "type") == Some(JStr(info.kind))
      && (HasKey(s.obj, "items") <==> info.kind == "array")
      && (HasKey(s.obj, "items") ==> s.obj["items"] == JObj(map["type" := JStr("number")]))
      && (HasKey(s.obj, "minItems") <==> info.kind == "array" && info.minItems.Some? && info.maxItems.Some?)
      && (HasKey(s.obj, "maxItems") <==> HasKey(s.obj, "minItems"))
      && (HasKey(s.obj, "enum") <==>
            info.kind == "string" && paramName == "type" && commandName == "create_object")
      && (HasKey(s.obj, "enum") ==> s.obj["enum"] == JArr(Strings(objectTypes)))
  {
  }

  /** With distinct parameter names, each declared parameter has exactly
      its own schema among the properties. */
  lemma {:induction false} PropertiesPerParam(commandName: string, ps: ParamTable, objectTypes: seq<string>)
    requires DistinctNames(ps)
    ensures forall i :: 0 <= i < |ps| ==>
      Get(Properties(commandName, ps, objectTypes), ps[i].0) ==
        Some(PropertySchema(commandName, ps[i].0, ps[i].1, objectTypes))
  {
    if ps != [] {
      var init := ps[..|ps| - 1];
      PropertiesPerParam(commandName, init, objectTypes);
      forall i | 0 <= i < |ps| - 1
        ensures init[i] == ps[i] && ps[i].0 != ps[|ps| - 1].0
      {
      }
    }
  }

  // Argument validation

  /** Some parameter of the table is named `name`. */
  predicate Declared(ps: ParamTable, name: string) {
    exists i :: 0 <= i < |ps| && ps[i].0 == name
  }

  /** `[param for param in params if param in essential]`, as `call_tool`
      computes it. */
  function CallRequired(ps: ParamTable): (required: seq<string>)
    ensures forall p :: p in required ==> p in EssentialParams
    ensures forall i :: 0 <= i < |ps| && ps[i].0 in EssentialParams ==> ps[i].0 in required
    ensures forall p :: p in required <==> p in EssentialParams && Declared(ps, p)
  {
    if ps == [] then []
    else
      var paramName := ps[|ps| - 1].0;
      var init := ps[..|ps| - 1];
      assert forall i :: 0 <= i < |ps| - 1 ==> init[i] == ps[i];
      CallRequired(init) + if paramName in EssentialParams then [paramName] else []
  }

  /** The required list of a concatenation is the concatenation of the
      required lists: declaration order is kept. */
  lemma {:induction false} CallRequiredAppend(a: ParamTable, b: ParamTable)
    ensures CallRequired(a + b) == CallRequired(a) + CallRequired(b)
    decreases |b|
  {
    if b == [] {
      assert a + b == a;
    } else {
      var init := b[..|b| - 1];
      assert (a + b)[..|a + b| - 1] == a + init;
      assert (a + b)[|a + b| - 1] == b[|b| - 1];
      CallRequiredAppend(a, init);
    }
  }

  /** The schema's `required` list is the list `call_tool` enforces, except
      for get_scene_info, whose schema requires nothing. */
  lemma {:induction false} SchemaRequiredIsCallRequired(commandName: string, ps: ParamTable)
    ensures commandName != "get_scene_info" ==> SchemaRequired(commandName, ps) == CallRequired(ps)
    ensures commandName == "get_scene_info" ==> SchemaRequired(commandName, ps) == []
  {
    if ps != [] {
      SchemaRequiredIsCallRequired(commandName, ps[..|ps| - 1]);
    }
  }

  /** A listed tool's `required` list is present exactly when `call_tool`
      enforces a non-empty list for it, and is that list; get_scene_info's
      schema never has one. */
  lemma ToolRequiredMatchesValidation(entry: (string, CommandInfo), objectTypes: seq<string>)
    ensures var schema := ToolFor(entry, objectTypes).inputSchema;
      var required := CallRequired(entry.1.params.GetOr([]));
      entry.0 != "get_scene_info" ==>
        && (HasKey(schema, "required") <==> required != [])
        && (HasKey(schema, "required") ==> schema["required"] == JArr(Strings(required)))
    ensures entry.0 == "get_scene_info" ==> !HasKey(ToolFor(entry, objectTypes).inputSchema, "required")
  {
    SchemaRequiredIsCallRequired(entry.0, entry.1.params.GetOr([]));
  }

  /** `not arguments`, for an arguments dict that may be None. */
  predicate ArgsTruthy(args: Option<Object>) {
    args.Some? && args.value != map[]
  }

  /** `param not in arguments or not arguments[param]` */
  predicate MissingIn(param: string, args: Object) {
    param !in args || !Truthy(args[param])
  }

  /** The first required parameter that is missing or falsy. */
  function FirstMissing(required: seq<string>, args: Object): (r: Option<string>)
    ensures r.None? <==> forall p :: p in required ==> !MissingIn(p, args)
    ensures r.Some? ==> exists i :: (0 <= i < |required| && required[i] == r.value &&
      MissingIn(required[i], args) && forall j :: 0 <= j < i ==> !MissingIn(required[j], args))
  {
    if required == [] then None
    else if MissingIn(required[0], args) then Some(required[0])
    else
      var r := FirstMissing(required[1..], args);
      assert forall p :: p in required ==> p == required[0] || p in required[1..];
      if r.Some? then
        var i :| 0 <= i < |required[1..]| && required[1..][i] == r.value
          && MissingIn(required[1..][i], args) && forall j :: 0 <= j < i ==> !MissingIn(required[1..][j], args);
        assert required[i + 1] == r.value;
        assert forall j :: 0 <= j < i + 1 ==> !MissingIn(required[j], args) by {
          forall j | 0 <= j < i + 1 ensures !MissingIn(required[j], args) {
            if j > 0 {
              assert required[j] == required[1..][j - 1];
            }
          }
        }
        r
      else r
  }

  /** The first missing parameter of a concatenation is the first one of
      its front part, if there is one, and otherwise of its back part. */
  lemma {:induction false} FirstMissingAppend(front: seq<string>, back: seq<string>, args: Object)
    ensures FirstMissing(front + back, args) ==
      if FirstMissing(front, args).Some? then FirstMissing(front, args) else FirstMissing(back, args)
  {
    if front != [] {
      var whole := front + back;
      assert whole[0] == front[0];
      assert whole[1..] == front[1..] + back;
      FirstMissingAppend(front[1..], back, args);
    } else {
      assert front + back == back;
    }
  }

  /** `len(value)`, None where Python raises TypeError. */
  function PyLen(value: Json): (n: Option<nat>)
    ensures value.JArr? ==> n == Some(|value.items|)
    ensures value.JStr? ==> n == Some(|value.s|)
    ensures n.None? <==> !(value.JArr? || value.JStr? || value.JObj?)
  {
    match value
    case JStr(s) => Some(|s|)
    case JArr(items) => Some(|items|)
    case JObj(o) => Some(|o|)
    case _ => None
  }

  /** The error raised for an array argument of the wrong shape. */
  function ArrayMessage(param: string): string {
    "'" + param + "' parameter should be an array with appropriate elements"
  }

  /** The check of one array argument that is present and not None: a list
      of e or e + 1 elements, where e is 3, or 4 for a `color` of four or
      more elements. */
  function ArrayCheck(param: string, value: Json): (r: Outcome<Exc>)
    ensures r.Pass? ==> value.JArr? && 3 <= |value.items| <= 5
    ensures r.Fail? ==>
      r.error == TypeError ||
      r.error == ValueError(ArrayMessage(param))
    ensures r == Fail(TypeError) <==> param == "color" && !(value.JArr? || value.JStr? || value.JObj?)
  {
    if param == "color" && PyLen(value).None? then Fail(TypeError)
    else
      var expected := if param == "color" && PyLen(value).value >= 4 then 4 else 3;
      if value.JArr? && (|value.items| == expected || |value.items| == expected + 1) then Pass
      else Fail(ValueError(ArrayMessage(param)))
  }

  /** An array argument of acceptable length for its parameter. */
  predicate ArrayAccepted(param: string, value: Json) {
    value.JArr? && 3 <= |value.items| <= if param == "color" then 5 else 4
  }

  /** A `color` array passes with 3, 4 or 5 elements, any other array with
      3 or 4; anything that is not a list fails. */
  lemma ArrayWindow(param: string, value: Json)
    ensures ArrayCheck(param, value).Pass? <==> ArrayAccepted(param, value)
  {
  }

  /** The third validation loop: the first array parameter whose argument
      fails its check; `param in None` raises TypeError. */
  function FirstBadArray(ps: ParamTable, args: Option<Object>): (r: Outcome<Exc>)
    ensures r.Pass? <==> forall i :: 0 <= i < |ps| && ps[i].1.kind == "array" ==>
      && args.Some?
      && (ps[i].0 in args.value && args.value[ps[i].0] != JNull ==> ArrayCheck(ps[i].0, args.value[ps[i].0]).Pass?)
    ensures r.Fail? ==> r.error == TypeError || r.error.ValueError?
  {
    if ps == [] then Pass
    else
      var (param, info) := ps[0];
      assert forall i :: 1 <= i < |ps| ==> ps[i] == ps[1..][i - 1];
      if info.kind != "array" then FirstBadArray(ps[1..], args)
      else if args.None? then Fail(TypeError)
      else if param in args.value && args.value[param] != JNull && ArrayCheck(param, args.value[param]).Fail? then
        ArrayCheck(param, args.value[param])
      else FirstBadArray(ps[1..], args)
  }

  /** The validation block of `call_tool`, as an outcome. */
  function Validate(name: string, args: Option<Object>, commands: CommandTable): (r: Outcome<Exc>)
    ensures r.Fail? ==> r.error == TypeError || r.error.ValueError?
    ensures r.Fail? ==> name != "get_scene_info" && Lookup(commands, name).Some?
  {
    if name == "get_scene_info" then Pass
    else match Lookup(commands, name)
      case None => Pass
      case Some(info) =>
        match info.params
        case None => Pass
        case Some(ps) =>
          var required := CallRequired(ps);
          if !ArgsTruthy(args) && required != [] then
            Fail(ValueError("Parameters for " + name + " are empty or null"))
          else match FirstMissing(required, args.GetOr(Empty))
            case Some(p) => Fail(ValueError("Missing or empty '" + p + "' parameter for " + name))
            case None => FirstBadArray(ps, args)
  }

  /** get_scene_info, unknown names and commands without parameters are
      never validated. */
  lemma NotValidated(name: string, args: Option<Object>, commands: CommandTable)
    requires name == "get_scene_info" || Lookup(commands, name).None? ||
             Lookup(commands, name).value.params.None?
    ensures Validate(name, args, commands) == Pass
  {
  }

  /** Arguments that meet a parameter table: non-empty when something is
      required, every required parameter present and truthy, and, where
      arrays are declared, an arguments dict in which every array argument
      that is present and not None has an acceptable length. */
  predicate AcceptableArguments(ps: ParamTable, args: Option<Object>) {
    && (CallRequired(ps) != [] ==> ArgsTruthy(args))
    && (forall p :: p in CallRequired(ps) ==> !MissingIn(p, args.GetOr(Empty)))
    && (forall i :: 0 <= i < |ps| && ps[i].1.kind == "array" ==>
          && args.Some?
          && (ps[i].0 in args.value && args.value[ps[i].0] != JNull ==> ArrayAccepted(ps[i].0, args.value[ps[i].0])))
  }

  /** A validated command passes exactly the arguments that meet its
      parameter table. */
  lemma ValidatedArguments(name: string, args: Option<Object>, commands: CommandTable)
    requires name != "get_scene_info" && Lookup(commands, name).Some?
    requires Lookup(commands, name).value.params.Some?
    ensures Validate(name, args, commands) == Pass <==>
      AcceptableArguments(Lookup(commands, name).value.params.value, args)
  {
    var ps := Lookup(commands, name).value.params.value;
    forall i | 0 <= i < |ps| && ps[i].1.kind == "array" && args.Some? && ps[i].0 in args.value
      ensures ArrayCheck(ps[i].0, args.value[ps[i].0]).Pass? <==> ArrayAccepted(ps[i].0, args.value[ps[i].0])
    {
      ArrayWindow(ps[i].0, args.value[ps[i].0]);
    }
  }

  /** With non-empty arguments, the error names the first parameter, in
      declaration order, that is essential and missing or falsy. */
  lemma MissingNamedInOrder(name: string, args: Option<Object>, commands: CommandTable, i: int)
    requires name != "get_scene_info" && Lookup(commands, name).Some?
    requires Lookup(commands, name).value.params.Some?
    requires ArgsTruthy(args)
    requires var ps := Lookup(commands, name).value.params.value;
      && 0 <= i < |ps| && ps[i].0 in EssentialParams && MissingIn(ps[i].0, args.value)
      && forall j :: 0 <= j < i && ps[j].0 in EssentialParams ==> !MissingIn(ps[j].0, args.value)
    ensures Validate(name, args, commands) ==
      Fail(ValueError("Missing or empty '" + Lookup(commands, name).value.params.value[i].0 +
                      "' parameter for " + name))
  {
    FirstMissingDeclared(Lookup(commands, name).value.params.value, args.value, i);
  }

  /** The first required parameter found missing is the first essential
      parameter, in declaration order, that is missing or falsy. */
  lemma {:induction false} FirstMissingDeclared(ps: ParamTable, args: Object, i: int)
    requires 0 <= i < |ps| && ps[i].0 in EssentialParams && MissingIn(ps[i].0, args)
    requires forall j :: 0 <= j < i && ps[j].0 in EssentialParams ==> !MissingIn(ps[j].0, args)
    ensures FirstMissing(CallRequired(ps), args) == Some(ps[i].0)
    decreases |ps|
  {
    var init := ps[..|ps| - 1];
    var last := if ps[|ps| - 1].0 in EssentialParams then [ps[|ps| - 1].0] else [];
    assert CallRequired(ps) == CallRequired(init) + last;
    FirstMissingAppend(CallRequired(init), last, args);
    if i == |ps| - 1 {
      forall p | p in CallRequired(init)
        ensures !MissingIn(p, args)
      {
        assert Declared(init, p);
        var j :| 0 <= j < |init| && init[j].0 == p;
        assert ps[j] == init[j];
      }
    } else {
      assert forall j :: 0 <= j <= i ==> init[j] == ps[j];
      FirstMissingDeclared(init, args, i);
    }
  }

  /** The comprehension `call_tool` builds its required list with. */
  method RequiredParams(ps: ParamTable) returns (required: seq<string>)
    ensures required == CallRequired(ps)
  {
    required := [];
    var i := 0;
    while i < |ps|
      invariant 0 <= i <= |ps|
      invariant required == CallRequired(ps[..i])
    {
      if ps[i].0 in EssentialParams {
        required := required + [ps[i].0];
      }
      assert ps[..i + 1][..i] == ps[..i];
      i := i + 1;
    }
    assert ps[..i] == ps;
  }

  /** The loop over the required parameters, stopping at the first one
      that is missing or falsy. */
  method FindMissing(required: seq<string>, args: Object) returns (missing: Option<string>)
    ensures missing == FirstMissing(required, args)
  {
    var k := 0;
    while k < |required|
      invariant 0 <= k <= |required|
      invariant FirstMissing(required, args) == FirstMissing(required[k..], args)
    {
      if MissingIn(required[k], args) {
        return Some(required[k]);
      }
      assert required[k..][1..] == required[k + 1..];
      k := k + 1;
    }
    return None;
  }

  /** The loop over the array parameters, raising at the first argument
      that fails its check. */
  method CheckArrays(ps: ParamTable, args: Option<Object>) returns (outcome: Outcome<Exc>)
    ensures outcome == FirstBadArray(ps, args)
  {
    var j := 0;
    while j < |ps|
      invariant 0 <= j <= |ps|
      invariant FirstBadArray(ps, args) == FirstBadArray(ps[j..], args)
    {
      var (param, info) := ps[j];
      assert ps[j..][1..] == ps[j + 1..];
      if info.kind == "array" {
        if args.None? {
          return Fail(TypeError);
        }
        if param in args.value && args.value[param] != JNull {
          var check := ArrayCheck(param, args.value[param]);
          if check.Fail? {
            return check;
          }
        }
      }
      j := j + 1;
    }
    return Pass;
  }

  /** The validation block of `call_tool`: build the required list, reject
      empty arguments, check the required parameters, then the arrays, each
      raising at the first failure. */
  method CheckArguments(name: string, args: Option<Object>, commands: CommandTable) returns (outcome: Outcome<Exc>)
    ensures outcome == Validate(name, args, commands)
  {
    if name == "get_scene_info" {
      return Pass;
    }
    var found := Lookup(commands, name);
    if found.None? || found.value.params.None? {
      return Pass;
    }
    var ps := found.value.params.value;
    var required := RequiredParams(ps);
    if !ArgsTruthy(args) && required != [] {
      return Fail(ValueError("Parameters for " + name + " are empty or null"));
    }
    var missing := FindMissing(required, args.GetOr(Empty));
    if missing.Some? {
      return Fail(ValueError("Missing or empty '" + missing.value + "' parameter for " + name));
    }
    outcome := CheckArrays(ps, args);
  }

  // Tool calls

  /** The one text item a tool call returns: the result as JSON, or
      "Error calling tool {tool}: {cause}". */
  datatype TextContent = JsonText(value: Json) | ErrorText(tool: string, cause: Exc)

  /** The text item for the outcome of sending a command. */
  function ToolText(tool: string, r: Result<Json, Exc>): (content: TextContent)
    ensures r.Success? <==> content.JsonText?
    ensures r.Success? ==> content == JsonText(r.value)
    ensures r.Failure? ==> content == ErrorText(tool, r.error)
  {
    match r
    case Success(value) => JsonText(value)
    case Failure(cause) => ErrorText(tool, cause)
  }

  /** `call_tool`: never raises. A failed validation is reported without
      contacting Unity; otherwise the arguments, with None replaced by `{}`,
      are sent as the command named by the tool. */
  method CallTool(name: string, args: Option<Object>, commands: CommandTable, unity: UnityClient,
                  endpoint: Endpoint, address: nat) returns (content: seq<TextContent>)
    requires unity.Valid()
    requires address > 0
    modifies unity
    ensures unity.Valid()
    ensures |content| == 1
    ensures Validate(name, args, commands).Fail? ==>
      content == [ErrorText(name, Validate(name, args, commands).error)] && unchanged(unity)
    ensures Validate(name, args, commands).Pass? ==>
      content == [ToolText(name, CommandOutcome(old(unity.connected && unity.socket.Some?), name,
                                                JObj(args.GetOr(Empty)), endpoint, address))]
    ensures Validate(name, args, commands).Pass? ==>
      && unity.host == old(unity.host) && unity.port == old(unity.port)
      && (unity.socket, unity.connected) ==
           StateAfter(old(unity.connected && unity.socket.Some?), old(unity.socket),
                      Socket(unity.host, unity.port), endpoint.listening,
                      endpoint.answer(CommandRequest(name, JObj(args.GetOr(Empty)), address)))
  {
    var outcome := CheckArguments(name, args, commands);
    if outcome.Fail? {
      return [ErrorText(name, outcome.error)];
    }
    var arguments := args.GetOr(Empty);
    var r := unity.SendCommand(name, JObj(arguments), endpoint, address);
    content := [ToolText(name, r)];
  }

  // Resources

  /** `str.startswith` */
  predicate StartsWith(s: string, prefix: string) {
    |prefix| <= |s| && s[..|prefix|] == prefix
  }

  /** `pattern` occurs in `s` at index `i`. */
  predicate OccursAt(s: string, pattern: string, i: int) {
    0 <= i && i + |pattern| <= |s| && s[i..i + |pattern|] == pattern
  }

  /** `pattern in s` */
  ghost predicate Occurs(s: string, pattern: string) {
    exists i :: OccursAt(s, pattern, i)
  }

  /** `s.replace(pattern, "")`: every non-overlapping occurrence, scanning
      left to right, is removed. */
  function RemoveAll(s: string, pattern: string): (r: string)
    requires pattern != []
    ensures |r| <= |s|
    decreases |s|
  {
    if |s| < |pattern| then s
    else if s[..|pattern|] == pattern then RemoveAll(s[|pattern|..], pattern)
    else [s[0]] + RemoveAll(s[1..], pattern)
  }

  /** Without an occurrence, nothing is removed. */
  lemma {:induction false} RemoveAllAbsent(s: string, pattern: string)
    requires pattern != []
    requires !Occurs(s, pattern)
    ensures RemoveAll(s, pattern) == s
    decreases |s|
  {
    if |s| >= |pattern| {
      assert !OccursAt(s, pattern, 0);
      assert !Occurs(s[1..], pattern) by {
        forall i | OccursAt(s[1..], pattern, i)
          ensures false
        {
          assert s[1..][i..i + |pattern|] == s[i + 1..i + 1 + |pattern|];
          assert OccursAt(s, pattern, i + 1);
        }
      }
      RemoveAllAbsent(s[1..], pattern);
    }
  }

  const SceneUri: string := "scene://current"
  const ObjectPrefix: string := "object://"
  const MaterialPrefix: string := "material://"

  /** Where `read_resource` sends a URI. */
  datatype Route = SceneQuery | ObjectQuery(name: string) | MaterialQuery(name: string) | UnknownRoute

  /** The exact scene URI first, then the object prefix, then the material
      prefix; the name is the URI with every occurrence of the prefix
      removed. */
  function RouteResource(uri: string): (route: Route)
    ensures route.SceneQuery? <==> uri == SceneUri
    ensures route.ObjectQuery? <==> uri != SceneUri && StartsWith(uri, ObjectPrefix)
    ensures route.MaterialQuery? <==>
      uri != SceneUri && !StartsWith(uri, ObjectPrefix) && StartsWith(uri, MaterialPrefix)
    ensures route.ObjectQuery? ==> |route.name| <= |uri| - |ObjectPrefix|
  {
    if uri == SceneUri then SceneQuery
    else if StartsWith(uri, ObjectPrefix) then ObjectQuery(RemoveAll(uri, ObjectPrefix))
    else if StartsWith(uri, MaterialPrefix) then MaterialQuery(RemoveAll(uri, MaterialPrefix))
    else UnknownRoute
  }

  /** An object URI built from a name that does not contain the prefix
      routes back to that name. */
  lemma ObjectUriRoundTrip(name: string)
    requires !Occurs(name, ObjectPrefix)
    ensures RouteResource(ObjectPrefix + name) == ObjectQuery(name)
  {
    var uri := ObjectPrefix + name;
    assert uri != SceneUri by {
      assert uri[0] == 'o';
    }
    assert uri[..|ObjectPrefix|] == ObjectPrefix;
    assert uri[|ObjectPrefix|..] == name;
    RemoveAllAbsent(name, ObjectPrefix);
  }

  /** A material URI built from a name that does not contain the prefix
      routes back to that name. */
  lemma MaterialUriRoundTrip(name: string)
    requires !Occurs(name, MaterialPrefix)
    ensures RouteResource(MaterialPrefix + name) == MaterialQuery(name)
  {
    var uri := MaterialPrefix + name;
    assert uri != SceneUri by {
      assert uri[0] == 'm';
    }
    assert uri[..|MaterialPrefix|] == MaterialPrefix;
    assert uri[|MaterialPrefix|..] == name;
    assert uri[..|ObjectPrefix|] != ObjectPrefix by {
      assert uri[0] == 'm';
    }
    RemoveAllAbsent(name, MaterialPrefix);
  }

  /** A name that itself contains the prefix is mangled: every occurrence
      goes, not just the leading one. */
  lemma ObjectNameMangled()
    ensures RouteResource("object://a/object://b") == ObjectQuery("a/b")
  {
    assert "object://a/object://b" == ObjectPrefix + "a/" + ObjectPrefix + "b";
    assert !Occurs("a/", ObjectPrefix) && !Occurs("b", ObjectPrefix);
    ObjectNameJoin("a/", "b");
  }

  /** Where the pattern does not start, `replace` keeps the first
      character and goes on with the rest. */
  lemma RemoveAllStep(t: string, pattern: string)
    requires pattern != [] && t != []
    requires !OccursAt(t, pattern, 0)
    ensures RemoveAll(t, pattern) == [t[0]] + RemoveAll(t[1..], pattern)
  {
    if |t| < |pattern| {
      assert RemoveAll(t[1..], pattern) == t[1..];
      assert t == [t[0]] + t[1..];
    }
  }

  /** An occurrence in a suffix is an occurrence in the whole string. */
  lemma OccursAtShift(t: string, pattern: string, i: int)
    requires t != [] && 0 <= i
    requires OccursAt(t[1..], pattern, i)
    ensures OccursAt(t, pattern, i + 1)
  {
    assert t[1..][i..i + |pattern|] == t[i + 1..i + 1 + |pattern|];
  }

  /** A prefix `x` in which no occurrence of the pattern starts is kept
      as it is. */
  lemma {:induction false} RemoveAllKeeps(x: string, s: string, pattern: string)
    requires pattern != []
    requires forall i :: 0 <= i < |x| ==> !OccursAt(x + s, pattern, i)
    ensures RemoveAll(x + s, pattern) == x + RemoveAll(s, pattern)
    decreases |x|
  {
    if x == [] {
      assert x + s == s;
    } else {
      var whole, tail := x + s, x[1..] + s;
      assert whole[1..] == tail;
      assert !OccursAt(whole, pattern, 0);
      RemoveAllStep(whole, pattern);
      forall i | 0 <= i < |x| - 1
        ensures !OccursAt(tail, pattern, i)
      {
        if OccursAt(tail, pattern, i) {
          OccursAtShift(whole, pattern, i);
        }
      }
      RemoveAllKeeps(x[1..], s, pattern);
      assert x == [x[0]] + x[1..];
    }
  }

  /** A URI that joins two prefix-free names with the object prefix routes
      to the two names run together: the inner prefix is removed too. */
  lemma ObjectNameJoin(x: string, y: string)
    requires !Occurs(x, ObjectPrefix) && !Occurs(y, ObjectPrefix)
    ensures RouteResource(ObjectPrefix + x + ObjectPrefix + y) == ObjectQuery(x + y)
  {
    var uri := ObjectPrefix + x + ObjectPrefix + y;
    var tail := ObjectPrefix + y;
    assert uri != SceneUri by {
      assert uri[0] == 'o';
    }
    assert uri[..|ObjectPrefix|] == ObjectPrefix;
    assert uri[|ObjectPrefix|..] == x + tail;
    forall i | 0 <= i < |x|
      ensures !OccursAt(x + tail, ObjectPrefix, i)
    {
      if i + |ObjectPrefix| <= |x| {
        assert x[i..i + |ObjectPrefix|] == (x + tail)[i..i + |ObjectPrefix|];
        assert !OccursAt(x, ObjectPrefix, i);
      } else if i + |ObjectPrefix| <= |x + tail| {
        var k := |x| - i;
        assert (x + tail)[i..i + |ObjectPrefix|][k] == (x + tail)[|x|] == 'o';
        assert ObjectPrefix[k] != 'o';
      }
    }
    RemoveAllKeeps(x, tail, ObjectPrefix);
    assert tail[..|ObjectPrefix|] == ObjectPrefix && tail[|ObjectPrefix|..] == y;
    RemoveAllAbsent(y, ObjectPrefix);
  }

  /** One resource as MCP lists it: a fixed URI or a URI template. */
  datatype Resource = Resource(uri: Option<string>, uriTemplate: Option<string>, name: string, description: string)

  /** `list_resources` */
  function ListResources(): (resources: seq<Resource>)
    ensures |resources| == 3
  {
    [Resource(Some(SceneUri), None, "Current Scene", "Active Unity scene information"),
     Resource(None, Some(ObjectPrefix + "{name}"), "Object Information",
              "Information about a specific object in the scene"),
     Resource(None, Some(MaterialPrefix + "{name}"), "Material Information",
              "Information about a specific material")]
  }

  /** `template` with its trailing `{name}` placeholder filled in. */
  function Instantiate(template: string, name: string): string
    requires |template| >= 6
  {
    template[..|template| - 6] + name
  }

  /** Every listed resource is served: the fixed URI reaches the scene, and
      each template, filled with a name free of its prefix, reaches that
      name. */
  lemma ListedResourcesRoute(name: string)
    requires !Occurs(name, ObjectPrefix) && !Occurs(name, MaterialPrefix)
    ensures RouteResource(ListResources()[0].uri.value) == SceneQuery
    ensures RouteResource(Instantiate(ListResources()[1].uriTemplate.value, name)) == ObjectQuery(name)
    ensures RouteResource(Instantiate(ListResources()[2].uriTemplate.value, name)) == MaterialQuery(name)
  {
    assert Instantiate(ListResources()[1].uriTemplate.value, name) == ObjectPrefix + name;
    assert Instantiate(ListResources()[2].uriTemplate.value, name) == MaterialPrefix + name;
    ObjectUriRoundTrip(name);
    MaterialUriRoundTrip(name);
  }

  /** The single content item of a read resource. */
  datatype ResourceContent = ResourceContent(uri: string, value: Json, mimeType: string)

  /** The placeholder record served for a material. */
  function MaterialRecord(name: string): (record: Json)
    ensures record.JObj? && record.obj.Keys == {"name", "info"}
    ensures Get(record.obj, "name") == Some(JStr(name))
  {
    JObj(map["name" := JStr(name), "info" := JStr("Material details not implemented yet")])
  }

  /** What `read_resource` returns or raises, given whether the Unity client
      was already connected. Every failure is re-raised as "Error reading
      resource ({uri}): {cause}". */
  function ResourceOutcome(uri: string, ready: bool, endpoint: Endpoint, address: nat)
    : (r: Result<ResourceContent, Exc>)
    requires address > 0
    ensures r.Success? ==> r.value.uri == uri && r.value.mimeType == "application/json"
    ensures r.Failure? ==> r.error.ResourceError? && r.error.uri == uri
    ensures r.Failure? && r.error.cause == CouldNotConnect ==>
      (RouteResource(uri).SceneQuery? || RouteResource(uri).ObjectQuery?) && !ready && !endpoint.listening
  {
    var sent :=
      match RouteResource(uri)
      case SceneQuery => CommandOutcome(ready, "get_scene_info", JObj(Empty), endpoint, address)
      case ObjectQuery(name) =>
        CommandOutcome(ready, "get_object_info", JObj(map["object_name" := JStr(name)]), endpoint, address)
      case MaterialQuery(name) => Success(MaterialRecord(name))
      case UnknownRoute => Failure(UnknownUri(uri));
    match sent
    case Success(value) => Success(ResourceContent(uri, value, "application/json"))
    case Failure(cause) => Failure(ResourceError(uri, cause))
  }

  /** An unknown URI fails with the URI named twice, and a material is
      served without contacting Unity. */
  lemma ResourceErrors(uri: string, ready: bool, endpoint: Endpoint, address: nat)
    requires address > 0
    ensures RouteResource(uri).UnknownRoute? ==>
      ResourceOutcome(uri, ready, endpoint, address) == Failure(ResourceError(uri, UnknownUri(uri)))
    ensures RouteResource(uri).MaterialQuery? ==>
      ResourceOutcome(uri, ready, endpoint, address) ==
        Success(ResourceContent(uri, MaterialRecord(RouteResource(uri).name), "application/json"))
  {
  }

  /** `read_resource` */
  method ReadResource(uri: string, unity: UnityClient, endpoint: Endpoint, address: nat)
    returns (r: Result<ResourceContent, Exc>)
    requires unity.Valid()
    requires address > 0
    modifies unity
    ensures unity.Valid()
    ensures r == ResourceOutcome(uri, old(unity.connected && unity.socket.Some?), endpoint, address)
    ensures !(RouteResource(uri).SceneQuery? || RouteResource(uri).ObjectQuery?) ==> unchanged(unity)
    ensures unity.host == old(unity.host) && unity.port == old(unity.port)
    ensures RouteResource(uri).SceneQuery? ==>
      (unity.socket, unity.connected) ==
        StateAfter(old(unity.connected && unity.socket.Some?), old(unity.socket),
                   Socket(unity.host, unity.port), endpoint.listening,
                   endpoint.answer(CommandRequest("get_scene_info", JObj(Empty), address)))
    ensures RouteResource(uri).ObjectQuery? ==>
      (unity.socket, unity.connected) ==
        StateAfter(old(unity.connected && unity.socket.Some?), old(unity.socket),
                   Socket(unity.host, unity.port), endpoint.listening,
                   endpoint.answer(CommandRequest("get_object_info",
                                                  JObj(map["object_name" := JStr(RouteResource(uri).name)]), address)))
  {
    var sent: Result<Json, Exc>;
    var route := RouteResource(uri);
    match route {
      case SceneQuery =>
        sent := unity.SendCommand("get_scene_info", JObj(Empty), endpoint, address);
      case ObjectQuery(name) =>
        sent := unity.SendCommand("get_object_info", JObj(map["object_name" := JStr(name)]), endpoint, address);
      case MaterialQuery(name) =>
        sent := Success(MaterialRecord(name));
      case UnknownRoute =>
        sent := Failure(UnknownUri(uri));
    }
    match sent {
      case Success(value) => r := Success(ResourceContent(uri, value, "application/json"));
      case Failure(cause) => r := Failure(ResourceError(uri, cause));
    }
  }

  // Facts about the configured command table

  /** Every configured command other than get_scene_info declares an
      essential parameter, so calling it with no arguments is rejected. */
  lemma EveryCommandRequiresSomething(i: int)
    requires 0 <= i < |UnityCommands| && UnityCommands[i].0 != "get_scene_info"
    ensures UnityCommands[i].1.params.Some?
    ensures CallRequired(UnityCommands[i].1.params.value) != []
  {
    var ps := UnityCommands[i].1.params.value;
    assert ps[0].0 in EssentialParams;
  }

  /** With the configured table, a call of any command but get_scene_info
      with empty or missing arguments fails before Unity is contacted. */
  lemma EmptyArgumentsRejected(i: int, args: Option<Object>)
    requires 0 <= i < |UnityCommands| && UnityCommands[i].0 != "get_scene_info"
    requires !ArgsTruthy(args)
    ensures Validate(UnityCommands[i].0, args, UnityCommands) ==
      Fail(ValueError("Parameters for " + UnityCommands[i].0 + " are empty or null"))
  {
    EveryCommandRequiresSomething(i);
    UnityCommandsWellFormed();
    LookupDistinct(UnityCommands, i);
  }

  /** In a table with distinct names, looking up an entry's name finds it. */
  lemma {:induction false} LookupDistinct(table: CommandTable, i: int)
    requires WellFormedTable(table)
    requires 0 <= i < |table|
    ensures Lookup(table, table[i].0) == Some(table[i].1)
  {
    if i > 0 {
      assert WellFormedTable(table[1..]) by {
        assert forall a :: 0 <= a < |table| - 1 ==> table[1..][a] == table[a + 1];
      }
      LookupDistinct(table[1..], i - 1);
    }
  }

  /** With the configured table no schema has `minItems` or `maxItems`, and
      only create_object's `type` has an `enum`, listing the object types. */
  lemma ConfiguredSchemas(i: int, j: int)
    requires 0 <= i < |UnityCommands| && UnityCommands[i].1.params.Some?
    requires 0 <= j < |UnityCommands[i].1.params.value|
    ensures var (paramName, info) := UnityCommands[i].1.params.value[j];
      var s := PropertySchema(UnityCommands[i].0, paramName, info, UnityObjectTypes);
      && s.JObj? && !HasKey(s.obj, "minItems") && !HasKey(s.obj, "maxItems")
      && (HasKey(s.obj, "enum") <==> UnityCommands[i].0 == "create_object" && paramName == "type")
  {
    DeclaredKinds();
    var (paramName, info) := UnityCommands[i].1.params.value[j];
    PropertySchemaShape(UnityCommands[i].0, paramName, info, UnityObjectTypes);
  }
}
