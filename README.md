# unity-mcp request layer in Dafny

This project models the Python request layer of unity-mcp. That layer stands between an MCP client and the Unity editor, which listens for JSON-RPC 2.0 requests on a TCP port. It has four parts:

- **The MCP server** (`unity_mcp_server.py`):
  - It lists one tool per configured command. Each tool's input schema is derived from the command table.
  - It validates the arguments of a tool call against the same table, then forwards the call to Unity.
  - It serves three resources (the scene, an object, a material) by URI.
- **The configuration** (`config.py`): the Unity host and port, the seven object types, and the command table. The table is an ordered dict from command name to description and declared parameters.
- **The TCP client the server uses** (`unity_client.py`):
  - It keeps one socket between commands and normalises the parameters.
  - It chooses the request id and maps the reply to a value or an exception.
- **The stand-alone scripting client** (`unity_mcp_client.py`):
  - One wrapper per Unity command builds a params dict, adding optional entries only when given.
  - `send_request` counts requests, sends the JSON-RPC envelope, and decodes the `result` string a second time.
  - `Colors` holds the colour helpers.

Modules, one per file:

| file | module | contents |
|---|---|---|
| `wrappers.dfy` | `Wrappers` | Option, Result and Outcome (a check that passes or raises) |
| `json_values.dfy` | `JsonValues` | JSON values, Python truthiness, `d.get(k)`, conditional insertion |
| `numerals.dfy` | `Numerals` | `str(n)` and `int(s)` on decimal text |
| `transport.dfy` | `Transport` | the exceptions, the Unity end of a connection, the JSON-RPC envelope (section 4 of the JSON-RPC 2.0 specification) |
| `config.dfy` | `Config` | settings, object types, the command table and facts about it |
| `unity_client.dfy` | `UnityTcpClient` | `UnityClient` as a class with `socket` and `connected` fields, and its pure helpers |
| `unity_mcp_client.dfy` | `UnityMcpClient` | the wrappers as pure functions, `UnityMCPClient` as a class with `idCounter`, and `Colors` |
| `mcp_server.dfy` | `McpServer` | tool listing, argument validation, tool calls, and resources |

How the model represents what it cannot see:

- **JSON values.** They are the `Json` datatype. A Python dict is a `map`.
- **Unity.** The Unity end of a connection is an `Endpoint`. It records whether Unity accepts a connection and gives a function from each request to the `Exchange` it produces:
  - a reply decoded as a JSON object;
  - a reply that is not JSON;
  - a socket error.
- **`json.loads`.** The second decoding of a `result` string is a parameter `decode`. It yields None where `json.loads` raises.
- **Request ids.** `id(params)` is a positive `address` parameter, rendered in decimal. `uuid4()` is a `requestId` parameter.
- **Exceptions.** Exceptions are values of `Exc`. A method that catches them returns a `Result` or, for the MCP client, None.
- **The command table.** The server's logic takes the table as a parameter. Facts about the configured table are lemmas about `Config.UnityCommands`.

## Model

| member | source | states |
|---|---|---|
| Numerals.DecimalString | unity_client.py:80 | `str(n)` is a run of digits with no leading zero, and is "0" exactly for 0 |
| Numerals.DigitsOfDecimal | unity_client.py:80 | the digits of `str(n)` have the value n |
| Numerals.ParseDecimal | config.py:7 | `int(str(n)) == n` |
| Config.UnityHost | config.py:6 | the host is the UNITY_HOST setting, or "localhost" without one |
| Numerals.ParseInt | config.py:7 | `int(s)` succeeds exactly on an optional sign followed by digits, and raises ValueError on every other string; digits are read as their decimal value, negated after a minus |
| Config.UnityPort | config.py:7 | without a UNITY_PORT setting the port is 8080; a setting is read by `int`, so anything but a sign and digits (an empty setting included) raises |
| Config.PortSetting | config.py:7 | a UNITY_PORT written in decimal is read as that number |
| Config.Lookup | config.py:17-67 | `table[name]` is found exactly when the name is among the table's names, and is that name's entry |
| Config.UnityCommandsWellFormed | config.py:17-67 | no command and no parameter of a command is declared twice |
| Config.CommandNamesDistinct | config.py:17-67 | the seven command names are distinct |
| Config.ParamNamesDistinct | config.py:21-66 | within each command the parameter names are distinct |
| Config.OnlySceneInfoHasNoParams | config.py:18-20 | get_scene_info is the only command with no `params` entry |
| Config.DeclaredKinds | config.py:24-64 | only location, rotation, scale and color are arrays; other types are string or boolean; no parameter declares minItems or maxItems |
| Config.ObjectTypesDistinct | config.py:14 | there are seven object types and they are distinct |
| JsonValues.Truthy | unity_mcp_server.py:92-98 | Python truthiness: None, False, zero, the empty string, the empty list and the empty dict are falsy, every other value is truthy |
| Transport.OrEmpty | unity_mcp_client.py:30 | `params or {}` keeps truthy params and replaces falsy ones by `{}` |
| Transport.Envelope | unity_mcp_client.py:27-32 | the request has exactly the keys jsonrpc "2.0", method, params and id, with the given values |
| UnityTcpClient.NormaliseParams | unity_client.py:69-73 | falsy params become `{}`; a dict holding a "params" key becomes that key's value, dropping its siblings; anything else is kept |
| UnityTcpClient.RequestId | unity_client.py:80 | the id is "0" exactly when the params are falsy; otherwise it parses back to the object's address |
| UnityTcpClient.CommandRequest | unity_client.py:76-81 | the request carries "2.0", the method and the normalised params; its id is "0" exactly when the normalised params are falsy |
| UnityTcpClient.CommandReply | unity_client.py:93-110 | a socket error means connection lost; a non-JSON reply means "not JSON"; an `error` object raises a Unity error with its message, or "Unknown error" without one; an `error` that is not an object raises AttributeError; otherwise the reply's `result` is returned, or None without one |
| UnityTcpClient.CommandOutcome | unity_client.py:65-113 | a command fails with "could not connect" exactly when the client was not connected and Unity does not accept; every other failure is a lost connection, a non-JSON reply, a Unity error or the AttributeError of a non-object `error` |
| UnityTcpClient.StateAfter | unity_client.py:28-113 | the socket and flag left after a command: the new, unconnected socket after a failed connect; none and disconnected after a socket error; otherwise connected, on the old socket or the new one; `connected` always has a socket |
| UnityTcpClient.ReadyForNext | unity_client.py:65-110 | the next command reuses the connection exactly when this one had or made a connection and met no socket error; after a socket error it reconnects |
| UnityTcpClient.UnityClient.constructor | unity_client.py:14-25 | a new client has no socket and is not connected |
| UnityTcpClient.UnityClient.Connect | unity_client.py:28-37 | a socket is always created; `connected` is set only on success; a failure raises ConnectionError |
| UnityTcpClient.UnityClient.Disconnect | unity_client.py:39-48 | only a client with a socket that is connected is closed, leaving no socket and not connected; otherwise nothing changes |
| UnityTcpClient.UnityClient.SendCommand | unity_client.py:50-113 | connects first when not connected or without a socket; the outcome is the request's reply mapped as above; the new socket and flag are those `StateAfter` gives, host and port kept; `connected` implies a socket throughout |
| UnityMcpClient.GetSceneInfo | unity_mcp_client.py:76-78 | calls get_scene_info with no params |
| UnityMcpClient.GetObjectInfo | unity_mcp_client.py:80-83 | sends exactly object_name |
| UnityMcpClient.CreateObject | unity_mcp_client.py:86-97 | always sends type; sends name, location, rotation and scale exactly when they are truthy; sends nothing else |
| UnityMcpClient.ModifyObject | unity_mcp_client.py:99-110 | always sends name; sends visible whenever it is not None, so False is sent; drops falsy location, rotation and scale |
| UnityMcpClient.DeleteObject | unity_mcp_client.py:112-115 | sends exactly name |
| UnityMcpClient.SetMaterial | unity_mcp_client.py:117-124 | always sends object_name; sends material_name and color exactly when truthy |
| UnityMcpClient.CreateImprovedCharacter | unity_mcp_client.py:127-165 | calls "improved_character" with camelCase keys; sends skinColor and hairColor exactly when truthy |
| UnityMcpClient.CreateTerrain | unity_mcp_client.py:168-177 | always sends width, length and height; sends heightmap exactly when truthy |
| UnityMcpClient.CreateWater | unity_mcp_client.py:179-186 | sends exactly width, length and height |
| UnityMcpClient.CreateVegetation | unity_mcp_client.py:188-197 | sends the vegetation type under "type", with position and scale; sends color exactly when truthy |
| UnityMcpClient.CreateSkybox | unity_mcp_client.py:199-206 | sends the sky type under "type"; sends color exactly when truthy |
| UnityMcpClient.CreateLight | unity_mcp_client.py:209-242 | always sends the six light settings; sends position and color exactly when truthy |
| UnityMcpClient.CreateParticleSystem | unity_mcp_client.py:245-261 | sends the colour under startColor, never under color; sends position exactly when truthy |
| UnityMcpClient.SetPostProcessing | unity_mcp_client.py:263-269 | sends exactly effect and intensity |
| UnityMcpClient.AddRigidbody | unity_mcp_client.py:272-279 | sends exactly object_name, mass and use_gravity |
| UnityMcpClient.ApplyForce | unity_mcp_client.py:281-288 | sends exactly object_name, force and mode |
| UnityMcpClient.CreateJoint | unity_mcp_client.py:290-297 | sends exactly object1, object2 and joint_type |
| UnityMcpClient.CreateCamera | unity_mcp_client.py:300-317 | always sends camera_type and fieldOfView; sends position, target and backgroundColor exactly when truthy |
| UnityMcpClient.SetActiveCamera | unity_mcp_client.py:319-324 | sends exactly camera_name |
| UnityMcpClient.SetCameraProperties | unity_mcp_client.py:326-341 | always sends camera_name; drops field_of_view, near_clip and far_clip when falsy, so 0 is never sent |
| UnityMcpClient.PlaySound | unity_mcp_client.py:344-354 | always sends sound_type and volume; sends position exactly when truthy |
| UnityMcpClient.CreateAudioSource | unity_mcp_client.py:356-367 | sends exactly the six audio settings |
| UnityMcpClient.ExecuteUnityCode | unity_mcp_client.py:370-375 | sends exactly code |
| UnityMcpClient.RequestReply | unity_mcp_client.py:58-73 | a failed exchange or an `error` key gives None; a string `result` is decoded a second time, and anything else under `result` gives None; without `result` the whole response is returned |
| UnityMcpClient.McpClient.constructor | unity_mcp_client.py:14-18 | a new client has counted no requests |
| UnityMcpClient.McpClient.SendRequest | unity_mcp_client.py:20-73 | the counter grows by exactly one whatever happens; without a connection the result is None; otherwise it is the interpreted reply to the envelope with params `params or {}` |
| UnityMcpClient.Rgb | unity_mcp_client.py:413-426 | four channels: r, g and b divided by 255, and alpha kept |
| UnityMcpClient.Blend | unity_mcp_client.py:441-444 | the blend is as long as the shorter colour |
| UnityMcpClient.BlendEnds | unity_mcp_client.py:429-445 | at t = 0 the blend is the first colour, at t = 1 the second, both cut to the common length |
| UnityMcpClient.Lerp | unity_mcp_client.py:441-445 | the loop computes the element-wise blend over the common length |
| McpServer.PropertySchema | unity_mcp_server.py:38-58 | a property schema is an object whose `type` is the declared type |
| McpServer.PropertySchemaShape | unity_mcp_server.py:38-58 | every property schema has the declared type; `items` exactly for arrays; minItems and maxItems exactly for arrays declaring both; `enum` (the object types) exactly for create_object's string `type` |
| McpServer.Properties | unity_mcp_server.py:36-58 | the properties are keyed by exactly the declared parameter names |
| McpServer.PropertiesPerParam | unity_mcp_server.py:36-58 | with distinct names, each declared parameter has its own schema among the properties |
| McpServer.SchemaRequired | unity_mcp_server.py:60-62 | the schema's required names are all essential, and there are none for get_scene_info |
| McpServer.InputSchema | unity_mcp_server.py:31-66 | the schema is an object schema with its properties; `required` is present exactly when the required list is non-empty, and is that list; there are no other keys |
| McpServer.ToolFor | unity_mcp_server.py:69-73 | the tool has the entry's name and description, and an object schema holding the entry's properties |
| McpServer.ListTools | unity_mcp_server.py:24-75 | one tool per table entry, in table order, each with the entry's name, description and input schema |
| McpServer.CallRequired | unity_mcp_server.py:88-89 | a name is in the required list exactly when it is essential (type, object_name, name, code) and declared |
| McpServer.CallRequiredAppend | unity_mcp_server.py:88-89 | the required list keeps declaration order: the list of a concatenation is the concatenation of the lists |
| McpServer.SchemaRequiredIsCallRequired | unity_mcp_server.py:61-89 | the schema's required list equals the list call_tool enforces, except for get_scene_info, whose schema requires nothing |
| McpServer.ToolRequiredMatchesValidation | unity_mcp_server.py:61-89 | a listed tool has `required` exactly when call_tool enforces a non-empty list, and it is that list |
| McpServer.FirstMissing | unity_mcp_server.py:96-100 | None exactly when every required parameter is present and truthy; otherwise the first one in declaration order that is missing or falsy |
| McpServer.FirstMissingAppend | unity_mcp_server.py:97-100 | the loop meets a front part first: its missing parameter, if any, wins over the back part's |
| McpServer.FirstMissingDeclared | unity_mcp_server.py:88-100 | the missing parameter found is the first essential one, in declaration order, that is missing or falsy |
| McpServer.PyLen | unity_mcp_server.py:107 | `len` is defined for strings, lists and dicts and raises for other values |
| McpServer.ArrayCheck | unity_mcp_server.py:104-111 | a passing argument is a list of 3 to 5 elements; a failure is the "should be an array" ValueError, or a TypeError exactly for a `color` whose `len` raises |
| McpServer.ArrayWindow | unity_mcp_server.py:103-111 | a color list passes with 3, 4 or 5 elements, any other array with 3 or 4; a value that is not a list fails |
| McpServer.FirstBadArray | unity_mcp_server.py:103-111 | passes exactly when arguments exist for array parameters and every array argument that is present and not None passes its check |
| McpServer.Validate | unity_mcp_server.py:85-111 | validation raises only ValueError or TypeError, and only for a known command other than get_scene_info |
| McpServer.NotValidated | unity_mcp_server.py:85-87 | get_scene_info, unknown names and commands without params are not validated |
| McpServer.ValidatedArguments | unity_mcp_server.py:88-111 | validation passes exactly when the arguments are non-empty where something is required, every required parameter is present and truthy, and, where arrays are declared, arguments exist and every array argument that is present and not None has an acceptable length |
| McpServer.MissingNamedInOrder | unity_mcp_server.py:96-100 | with non-empty arguments the error is "Missing or empty '{param}' parameter for {name}" for the first essential parameter, in declaration order, that is missing or falsy |
| McpServer.RequiredParams | unity_mcp_server.py:88-89 | the loop builds the required list |
| McpServer.FindMissing | unity_mcp_server.py:97-100 | the loop stops at the first required parameter that is missing or falsy |
| McpServer.CheckArrays | unity_mcp_server.py:103-111 | the loop raises at the first array argument that fails its check |
| McpServer.CheckArguments | unity_mcp_server.py:85-111 | the validation block passes or raises exactly as the validation rules say |
| McpServer.ToolText | unity_mcp_server.py:118-127 | a value becomes its JSON text; an exception becomes "Error calling tool" with the tool name |
| McpServer.CallTool | unity_mcp_server.py:80-127 | one text item always; a failed validation is reported without contacting Unity; otherwise the arguments, None replaced by `{}`, are sent under the tool's name, and the client's socket and flag are those `StateAfter` gives, host and port kept |
| McpServer.RemoveAll | unity_mcp_server.py:151 | `str.replace(prefix, "")` never lengthens the string |
| McpServer.RemoveAllAbsent | unity_mcp_server.py:151 | without an occurrence of the prefix nothing is removed |
| McpServer.RouteResource | unity_mcp_server.py:144-163 | the exact scene URI goes to the scene; otherwise the object prefix wins over the material prefix; anything else is unknown |
| McpServer.ObjectUriRoundTrip | unity_mcp_server.py:150-152 | an object URI whose name does not contain the prefix routes back to that name |
| McpServer.MaterialUriRoundTrip | unity_mcp_server.py:157-158 | a material URI whose name does not contain the prefix routes back to that name |
| McpServer.RemoveAllKeeps | unity_mcp_server.py:151 | a front part in which no occurrence of the prefix starts comes through `replace` unchanged |
| McpServer.ObjectNameJoin | unity_mcp_server.py:150-152 | "object://" + x + "object://" + y, for names x and y free of the prefix, routes to x + y: the inner prefix is removed as well |
| McpServer.ObjectNameMangled | unity_mcp_server.py:151 | every occurrence of the prefix is removed, so "object://a/object://b" names "a/b" |
| McpServer.ListResources | unity_mcp_server.py:130-136 | three resources are listed |
| McpServer.ListedResourcesRoute | unity_mcp_server.py:132-158 | the listed scene URI and both templates, filled in with a name, route to their resources |
| McpServer.MaterialRecord | unity_mcp_server.py:160 | the material record holds exactly the name and the info text |
| McpServer.ResourceOutcome | unity_mcp_server.py:139-167 | a served resource carries the requested URI and the JSON mime type; every failure names the URI; "could not connect" arises only for the scene or an object, with the client not connected and Unity not accepting |
| McpServer.ResourceErrors | unity_mcp_server.py:157-167 | an unknown URI fails with "Unknown URI" wrapped in "Error reading resource"; a material is served without contacting Unity |
| McpServer.ReadResource | unity_mcp_server.py:139-167 | the outcome is the routed request's outcome, with every failure wrapped; the client is untouched unless the scene or an object is queried, and then its socket and flag are those `StateAfter` gives for the command sent; host and port are kept |
| McpServer.EveryCommandRequiresSomething | config.py:21-66 | every configured command except get_scene_info has params and a non-empty required list |
| McpServer.EmptyArgumentsRejected | unity_mcp_server.py:92-94 | with the configured table, empty or missing arguments to any command but get_scene_info fail with "Parameters for {name} are empty or null" |
| McpServer.LookupDistinct | unity_mcp_server.py:85-87 | in a table with distinct names, looking up an entry's name finds that entry |
| McpServer.ConfiguredSchemas | unity_mcp_server.py:38-56 | with the configured table no schema has minItems or maxItems, so the bounded-array branch is unreachable; only create_object's `type` has an enum |

## Left out

- Sockets and asyncio are not modelled: connecting, `sendall`, the `recv` loop, the single 4096-byte read and `run_in_executor`. One request/reply exchange is an opaque function of the request.
- `json.dumps` and `json.loads` text, including `indent=2`, are not modelled. A tool's text item holds the JSON value. The second decoding of a `result` string is a parameter.
- Replies that are JSON but not an object are not modelled. Neither is a UTF-8 decoding error of a reply.
- Exception text is not modelled. An exception is the `Exc` value whose constructor documents the Python text. The `ValueError` messages of argument validation are kept exactly.
- Dict key order is not modelled. Dicts are maps, because key order only shows in JSON text, whose object members are unordered (section 4 of RFC 8259). The table's order, which decides the tool order and which missing parameter is reported, is kept.
- Numbers are exact reals, so float rounding in `Colors.rgb` and `Colors.lerp` is not modelled.
- `int()` accepts only an optional sign and ASCII digits here. Surrounding whitespace, underscores and other Unicode digits are not modelled.
- A failing `socket.close()` in `disconnect` is not modelled; closing always succeeds.
- The MCP server name and version settings (`config.py` lines 10-11) are left out. The name is used only by the framework wiring, where it names the `Server` (`unity_mcp_server.py` line 21). The version is not used by the server or the clients.
- Logging, `print` and the test block of `unity_client.py` are left out.
- The MCP framework wiring is left out: the `Server` object, the decorators, `stdio_server` and `main` with its connect and disconnect.
- The wrappers' keyword default values are left out; every argument is passed explicitly.
- `CharacterPresets` and `MaterialPresets` are left out. They are constant float data with no behaviour.
- `lego_builder.py`, the example scripts, `setup.py` and `__init__.py` are not part of this model.
- The engine-side JSON-RPC server that answers these requests is not part of this model.
- McpServer.RemoveAll: requires a non-empty pattern. `str.replace` with an empty pattern inserts instead of removing, and the server only removes the non-empty literal prefixes.
- UnityMcpClient.Blend: describes the blend values, but only over exact reals.
