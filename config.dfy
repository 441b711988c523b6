/** The static configuration the MCP server is built from: connection
    settings, the object types Unity can create, and the command table
    (an ordered dict from command name to description and declared
    parameters). */
module Config {
  import opened Wrappers
  import opened Numerals

  /** One declared parameter: its JSON type name ("string", "array",
      "boolean"), its description and, optionally, array bounds. */
  datatype ParamInfo = ParamInfo(kind: string, description: string, minItems: Option<int>, maxItems: Option<int>)

  /** One command: its description and, optionally, its parameters. */
  datatype CommandInfo = CommandInfo(description: string, params: Option<ParamTable>)

  type ParamTable = seq<(string, ParamInfo)>
  type CommandTable = seq<(string, CommandInfo)>

  /** A parameter entry with only `type` and `description`. */
  function Param(kind: string, description: string): (p: ParamInfo)
    ensures p.kind == kind && p.minItems == None && p.maxItems == None
  {
    ParamInfo(kind, description, None, None)
  }

  /** `os.environ.get("UNITY_HOST", "localhost")` */
  function UnityHost(setting: Option<string>): (host: string)
    ensures setting.None? ==> host == "localhost"
    ensures setting.Some? ==> host == setting.value
  {
    setting.GetOr("localhost")
  }

  /** `int(os.environ.get("UNITY_PORT", "8080"))`; None where `int()`
      raises ValueError while the module loads. */
  function UnityPort(setting: Option<string>): (port: Option<int>)
    ensures setting.None? ==> port == Some(8080)
    ensures setting == Some("") ==> port.None?
    ensures setting.Some? ==> port == ParseInt(setting.value)
  {
    assert "8080" == DecimalString(8080);
    ParseDecimal(8080);
    ParseInt(setting.GetOr("8080"))
  }

  const UnityObjectTypes: seq<string> := ["CUBE", "SPHERE", "CYLINDER", "PLANE", "EMPTY", "CAPSULE", "QUAD"]

  const UnityCommands: CommandTable := [
    ("get_scene_info", CommandInfo("Get details of the current Unity scene", None)),
    ("get_object_info", CommandInfo("Get properties of a specific object", Some([
      ("object_name", Param("string", "Name of the object to get information about"))]))),
    ("create_object", CommandInfo("Create a new object in the Unity scene", Some([
      ("type", Param("string", "Type of object to create (CUBE, SPHERE, etc.)")),
      ("name", Param("string", "Name of the object to create")),
      ("location", Param("array", "Position of the object [x, y, z]")),
      ("rotation", Param("array", "Rotation of the object [x, y, z]")),
      ("scale", Param("array", "Scale of the object [x, y, z]"))]))),
    ("modify_object", CommandInfo("Modify properties of an existing object", Some([
      ("name", Param("string", "Name of the object to modify")),
      ("location", Param("array", "New position [x, y, z]")),
      ("rotation", Param("array", "New rotation [x, y, z]")),
      ("scale", Param("array", "New scale [x, y, z]")),
      ("visible", Param("boolean", "Visibility of the object"))]))),
    ("delete_object", CommandInfo("Delete an object from the scene", Some([
      ("name", Param("string", "Name of the object to delete"))]))),
    ("set_material", CommandInfo("Assign a material to an object", Some([
      ("object_name", Param("string", "Name of the object to assign material to")),
      ("material_name", Param("string", "Name of the material (optional)")),
      ("color", Param("array", "RGB or RGBA color values"))]))),
    ("execute_unity_code", CommandInfo("Execute custom C# code in Unity", Some([
      ("code", Param("string", "C# code to execute"))])))
  ]

  function CommandNames(table: CommandTable): (names: seq<string>)
    ensures |names| == |table|
    ensures forall i :: 0 <= i < |table| ==> names[i] == table[i].0
  {
    if table == [] then [] else [table[0].0] + CommandNames(table[1..])
  }

  /** `table[name]` when `name in table`, else None. */
  function Lookup(table: CommandTable, name: string): (info: Option<CommandInfo>)
    ensures info.Some? <==> name in CommandNames(table)
    ensures info.Some? ==> exists i :: 0 <= i < |table| && table[i] == (name, info.value)
  {
    if table == [] then None
    else if table[0].0 == name then Some(table[0].1)
    else Lookup(table[1..], name)
  }

  /** Dict keys are unique, in the command table and in each parameter table. */
  predicate WellFormedTable(table: CommandTable) {
    && (forall i, j :: 0 <= i < j < |table| ==> table[i].0 != table[j].0)
    && (forall i :: 0 <= i < |table| && table[i].1.params.Some? ==> DistinctNames(table[i].1.params.value))
  }

  predicate DistinctNames(ps: ParamTable) {
    forall i, j :: 0 <= i < j < |ps| ==> ps[i].0 != ps[j].0
  }

  /** A setting written as a decimal number is read back as that number. */
  lemma PortSetting(n: nat)
    ensures UnityPort(Some(DecimalString(n))) == Some(n)
  {
    ParseDecimal(n);
  }

  /** No command and no parameter of a command is declared twice. */
  lemma UnityCommandsWellFormed()
    ensures WellFormedTable(UnityCommands)
  {
    CommandNamesDistinct();
    forall i | 0 <= i < |UnityCommands| && UnityCommands[i].1.params.Some?
      ensures DistinctNames(UnityCommands[i].1.params.value)
    {
      ParamNamesDistinct(i);
    }
  }

  lemma CommandNamesDistinct()
    ensures forall i, j :: 0 <= i < j < |UnityCommands| ==> UnityCommands[i].0 != UnityCommands[j].0
  {
  }

  lemma ParamNamesDistinct(i: int)
    requires 0 <= i < |UnityCommands| && UnityCommands[i].1.params.Some?
    ensures DistinctNames(UnityCommands[i].1.params.value)
  {
  }

  /** `get_scene_info` is the one command without a `params` entry. */
  lemma OnlySceneInfoHasNoParams()
    ensures forall i :: 0 <= i < |UnityCommands| ==>
      (UnityCommands[i].1.params.None? <==> UnityCommands[i].0 == "get_scene_info")
  {
  }

  /** Only location, rotation, scale and color are arrays; every other
      declared parameter is a string or a boolean, and none declares
      minItems or maxItems. */
  lemma DeclaredKinds()
    ensures forall i, j ::
      (0 <= i < |UnityCommands| && UnityCommands[i].1.params.Some? &&
       0 <= j < |UnityCommands[i].1.params.value|) ==>
        var (name, info) := UnityCommands[i].1.params.value[j];
        && (info.kind == "array" <==> name in ["location", "rotation", "scale", "color"])
        && info.kind in ["array", "string", "boolean"]
        && info.minItems.None? && info.maxItems.None?
  {
  }

  /** The seven object types are distinct. */
  lemma ObjectTypesDistinct()
    ensures |UnityObjectTypes| == 7
    ensures forall i, j :: 0 <= i < j < |UnityObjectTypes| ==> UnityObjectTypes[i] != UnityObjectTypes[j]
  {
  }
}
