/** The stand-alone MCP client scripts use: one wrapper per Unity command
    that builds a params dict (optional entries only when given), and
    `send_request`, which opens a connection per request, sends a JSON-RPC
    2.0 request and interprets the reply, JSON-decoding the `result` string
    a second time. */
module UnityMcpClient {
  import opened Wrappers
  import opened JsonValues
  import opened Transport

  /** A command as a wrapper hands it to `send_request`. Python's None is
      JNull. */
  datatype Call = Call(methodName: string, params: Json)

  /** The params dict sends `key` with `value`. */
  predicate Sends(c: Call, key: string, value: Json) {
    c.params.JObj? && Get(c.params.obj, key) == Some(value)
  }

  /** The params dict sends `key` with `value` exactly when `cond` holds. */
  predicate SendsIf(c: Call, cond: bool, key: string, value: Json) {
    c.params.JObj? && Get(c.params.obj, key) == if cond then Some(value) else None
  }

  /** The params dict is a dict whose keys all come from `keys`. */
  predicate SendsOnly(c: Call, keys: set<string>) {
    c.params.JObj? && c.params.obj.Keys <= keys
  }

  // Basic scene management

  function GetSceneInfo(): (c: Call)
    ensures c.methodName == "get_scene_info" && !Truthy(c.params)
  {
    Call("get_scene_info", JNull)
  }

  function GetObjectInfo(objectName: Json): (c: Call)
    ensures c.methodName == "get_object_info"
    ensures Sends(c, "object_name", objectName)
    ensures SendsOnly(c, {"object_name"})
  {
    Call("get_object_info", JObj(map["object_name" := objectName]))
  }

  /** `type` is always sent; name, location, rotation and scale only when
      truthy. */
  function CreateObject(objType: Json, name: Json, location: Json, rotation: Json, scale: Json): (c: Call)
    ensures c.methodName == "create_object"
    ensures Sends(c, "type", objType)
    ensures SendsIf(c, Truthy(name), "name", name)
    ensures SendsIf(c, Truthy(location), "location", location)
    ensures SendsIf(c, Truthy(rotation), "rotation", rotation)
    ensures SendsIf(c, Truthy(scale), "scale", scale)
    ensures SendsOnly(c, {"type", "name", "location", "rotation", "scale"})
  {
    var p := map["type" := objType];
    var p := PutIf(p, Truthy(name), "name", name);
    var p := PutIf(p, Truthy(location), "location", location);
    var p := PutIf(p, Truthy(rotation), "rotation", rotation);
    var p := PutIf(p, Truthy(scale), "scale", scale);
    Call("create_object", JObj(p))
  }

  /** `visible` is sent whenever it is not None, so False is sent; falsy
      location, rotation and scale are dropped. */
  function ModifyObject(name: Json, location: Json, rotation: Json, scale: Json, visible: Json): (c: Call)
    ensures c.methodName == "modify_object"
    ensures Sends(c, "name", name)
    ensures SendsIf(c, Truthy(location), "location", location)
    ensures SendsIf(c, Truthy(rotation), "rotation", rotation)
    ensures SendsIf(c, Truthy(scale), "scale", scale)
    ensures SendsIf(c, visible != JNull, "visible", visible)
    ensures SendsOnly(c, {"name", "location", "rotation", "scale", "visible"})
  {
    var p := map["name" := name];
    var p := PutIf(p, Truthy(location), "location", location);
    var p := PutIf(p, Truthy(rotation), "rotation", rotation);
    var p := PutIf(p, Truthy(scale), "scale", scale);
    var p := PutIf(p, visible != JNull, "visible", visible);
    Call("modify_object", JObj(p))
  }

  function DeleteObject(name: Json): (c: Call)
    ensures c.methodName == "delete_object"
    ensures Sends(c, "name", name)
    ensures SendsOnly(c, {"name"})
  {
    Call("delete_object", JObj(map["name" := name]))
  }

  function SetMaterial(objectName: Json, materialName: Json, color: Json): (c: Call)
    ensures c.methodName == "set_material"
    ensures Sends(c, "object_name", objectName)
    ensures SendsIf(c, Truthy(materialName), "material_name", materialName)
    ensures SendsIf(c, Truthy(color), "color", color)
    ensures SendsOnly(c, {"object_name", "material_name", "color"})
  {
    var p := map["object_name" := objectName];
    var p := PutIf(p, Truthy(materialName), "material_name", materialName);
    var p := PutIf(p, Truthy(color), "color", color);
    Call("set_material", JObj(p))
  }

  // Advanced object creation

  /** The eight settings `create_improved_character` always sends. */
  function CharacterSettings(characterType: Json, position: Json, outfitType: Json, hasWeapon: Json,
                             weaponType: Json, height: Json, bodyType: Json, hairStyle: Json): (p: Object)
    ensures p.Keys == {"characterType", "position", "outfitType", "hasWeapon", "weaponType", "height", "bodyType", "hairStyle"}
    ensures Get(p, "characterType") == Some(characterType) && Get(p, "position") == Some(position)
    ensures Get(p, "outfitType") == Some(outfitType) && Get(p, "hasWeapon") == Some(hasWeapon)
    ensures Get(p, "weaponType") == Some(weaponType) && Get(p, "height") == Some(height)
    ensures Get(p, "bodyType") == Some(bodyType) && Get(p, "hairStyle") == Some(hairStyle)
  {
    map["characterType" := characterType, "position" := position, "outfitType" := outfitType, "hasWeapon" := hasWeapon,
        "weaponType" := weaponType, "height" := height, "bodyType" := bodyType, "hairStyle" := hairStyle]
  }

  /** Calls "improved_character" with camelCase keys; skinColor and
      hairColor only when truthy. */
  function CreateImprovedCharacter(characterType: Json, position: Json, outfitType: Json,
                                   hasWeapon: Json, weaponType: Json, skinColor: Json, height: Json,
                                   bodyType: Json, hairColor: Json, hairStyle: Json): (c: Call)
    ensures c.methodName == "improved_character"
    ensures Sends(c, "characterType", characterType)
    ensures Sends(c, "position", position)
    ensures Sends(c, "outfitType", outfitType)
    ensures Sends(c, "hasWeapon", hasWeapon)
    ensures Sends(c, "weaponType", weaponType)
    ensures Sends(c, "height", height)
    ensures Sends(c, "bodyType", bodyType)
    ensures Sends(c, "hairStyle", hairStyle)
    ensures SendsIf(c, Truthy(skinColor), "skinColor", skinColor)
    ensures SendsIf(c, Truthy(hairColor), "hairColor", hairColor)
    ensures SendsOnly(c, {"characterType", "position", "outfitType", "hasWeapon", "weaponType", "height", "bodyType", "hairStyle", "skinColor", "hairColor"})
  {
    var p := CharacterSettings(characterType, position, outfitType, hasWeapon, weaponType, height, bodyType, hairStyle);
    var p := PutIf(p, Truthy(skinColor), "skinColor", skinColor);
    var p := PutIf(p, Truthy(hairColor), "hairColor", hairColor);
    Call("improved_character", JObj(p))
  }

  // Environment creation

  function CreateTerrain(width: Json, length: Json, height: Json, heightmap: Json): (c: Call)
    ensures c.methodName == "create_terrain"
    ensures Sends(c, "width", width)
    ensures Sends(c, "length", length)
    ensures Sends(c, "height", height)
    ensures SendsIf(c, Truthy(heightmap), "heightmap", heightmap)
    ensures SendsOnly(c, {"width", "length", "height", "heightmap"})
  {
    var p := map["width" := width, "length" := length, "height" := height];
    var p := PutIf(p, Truthy(heightmap), "heightmap", heightmap);
    Call("create_terrain", JObj(p))
  }

  function CreateWater(width: Json, length: Json, height: Json): (c: Call)
    ensures c.methodName == "create_water"
    ensures Sends(c, "width", width)
    ensures Sends(c, "length", length)
    ensures Sends(c, "height", height)
    ensures SendsOnly(c, {"width", "length", "height"})
  {
    Call("create_water", JObj(map["width" := width, "length" := length, "height" := height]))
  }

  function CreateVegetation(vegType: Json, position: Json, scale: Json, color: Json): (c: Call)
    ensures c.methodName == "create_vegetation"
    ensures Sends(c, "type", vegType)
    ensures Sends(c, "position", position)
    ensures Sends(c, "scale", scale)
    ensures SendsIf(c, Truthy(color), "color", color)
    ensures SendsOnly(c, {"type", "position", "scale", "color"})
  {
    var p := map["type" := vegType, "position" := position, "scale" := scale];
    var p := PutIf(p, Truthy(color), "color", color);
    Call("create_vegetation", JObj(p))
  }

  function CreateSkybox(skyType: Json, color: Json): (c: Call)
    ensures c.methodName == "create_skybox"
    ensures Sends(c, "type", skyType)
    ensures SendsIf(c, Truthy(color), "color", color)
    ensures SendsOnly(c, {"type", "color"})
  {
    var p := map["type" := skyType];
    var p := PutIf(p, Truthy(color), "color", color);
    Call("create_skybox", JObj(p))
  }

  // Lighting

  function CreateLight(lightType: Json, position: Json, intensity: Json, color: Json, range: Json,
                       spotAngle: Json, shadows: Json, shadowStrength: Json): (c: Call)
    ensures c.methodName == "create_light"
    ensures Sends(c, "lightType", lightType)
    ensures Sends(c, "intensity", intensity)
    ensures Sends(c, "range", range)
    ensures Sends(c, "spotAngle", spotAngle)
    ensures Sends(c, "shadows", shadows)
    ensures Sends(c, "shadowStrength", shadowStrength)
    ensures SendsIf(c, Truthy(position), "position", position)
    ensures SendsIf(c, Truthy(color), "color", color)
    ensures SendsOnly(c, {"lightType", "intensity", "range", "spotAngle", "shadows", "shadowStrength", "position", "color"})
  {
    var p := map["lightType" := lightType, "intensity" := intensity, "range" := range, "spotAngle" := spotAngle, "shadows" := shadows, "shadowStrength" := shadowStrength];
    var p := PutIf(p, Truthy(position), "position", position);
    var p := PutIf(p, Truthy(color), "color", color);
    Call("create_light", JObj(p))
  }

  // Effects

  /** The colour goes out under `startColor`, never under `color`. */
  function CreateParticleSystem(effectType: Json, position: Json, scale: Json, color: Json,
                                duration: Json, looping: Json): (c: Call)
    ensures c.methodName == "create_particle_system"
    ensures Sends(c, "effectType", effectType)
    ensures Sends(c, "scale", scale)
    ensures Sends(c, "duration", duration)
    ensures Sends(c, "looping", looping)
    ensures SendsIf(c, Truthy(position), "position", position)
    ensures SendsIf(c, Truthy(color), "startColor", color)
    ensures SendsOnly(c, {"effectType", "scale", "duration", "looping", "position", "startColor"})
  {
    var p := map["effectType" := effectType, "scale" := scale, "duration" := duration, "looping" := looping];
    var p := PutIf(p, Truthy(position), "position", position);
    var p := PutIf(p, Truthy(color), "startColor", color);
    Call("create_particle_system", JObj(p))
  }

  function SetPostProcessing(effect: Json, intensity: Json): (c: Call)
    ensures c.methodName == "set_post_processing"
    ensures Sends(c, "effect", effect)
    ensures Sends(c, "intensity", intensity)
    ensures SendsOnly(c, {"effect", "intensity"})
  {
    Call("set_post_processing", JObj(map["effect" := effect, "intensity" := intensity]))
  }

  // Physics

  function AddRigidbody(objectName: Json, mass: Json, useGravity: Json): (c: Call)
    ensures c.methodName == "add_rigidbody"
    ensures Sends(c, "object_name", objectName)
    ensures Sends(c, "mass", mass)
    ensures Sends(c, "use_gravity", useGravity)
    ensures SendsOnly(c, {"object_name", "mass", "use_gravity"})
  {
    Call("add_rigidbody", JObj(map["object_name" := objectName, "mass" := mass, "use_gravity" := useGravity]))
  }

  function ApplyForce(objectName: Json, force: Json, mode: Json): (c: Call)
    ensures c.methodName == "apply_force"
    ensures Sends(c, "object_name", objectName)
    ensures Sends(c, "force", force)
    ensures Sends(c, "mode", mode)
    ensures SendsOnly(c, {"object_name", "force", "mode"})
  {
    Call("apply_force", JObj(map["object_name" := objectName, "force" := force, "mode" := mode]))
  }

  function CreateJoint(object1: Json, object2: Json, jointType: Json): (c: Call)
    ensures c.methodName == "create_joint"
    ensures Sends(c, "object1", object1)
    ensures Sends(c, "object2", object2)
    ensures Sends(c, "joint_type", jointType)
    ensures SendsOnly(c, {"object1", "object2", "joint_type"})
  {
    Call("create_joint", JObj(map["object1" := object1, "object2" := object2, "joint_type" := jointType]))
  }

  // Camera

  function CreateCamera(cameraType: Json, position: Json, target: Json, fieldOfView: Json,
                        backgroundColor: Json): (c: Call)
    ensures c.methodName == "create_camera"
    ensures Sends(c, "camera_type", cameraType)
    ensures Sends(c, "fieldOfView", fieldOfView)
    ensures SendsIf(c, Truthy(position), "position", position)
    ensures SendsIf(c, Truthy(target), "target", target)
    ensures SendsIf(c, Truthy(backgroundColor), "backgroundColor", backgroundColor)
    ensures SendsOnly(c, {"camera_type", "fieldOfView", "position", "target", "backgroundColor"})
  {
    var p := map["camera_type" := cameraType, "fieldOfView" := fieldOfView];
    var p := PutIf(p, Truthy(position), "position", position);
    var p := PutIf(p, Truthy(target), "target", target);
    var p := PutIf(p, Truthy(backgroundColor), "backgroundColor", backgroundColor);
    Call("create_camera", JObj(p))
  }

  function SetActiveCamera(cameraName: Json): (c: Call)
    ensures c.methodName == "set_active_camera"
    ensures Sends(c, "camera_name", cameraName)
    ensures SendsOnly(c, {"camera_name"})
  {
    Call("set_active_camera", JObj(map["camera_name" := cameraName]))
  }

  /** `camera_name` is always sent; field_of_view, near_clip and far_clip
      are dropped when falsy, so a value of 0 is never sent. */
  function SetCameraProperties(cameraName: Json, fieldOfView: Json, nearClip: Json, farClip: Json): (c: Call)
    ensures c.methodName == "set_camera_properties"
    ensures Sends(c, "camera_name", cameraName)
    ensures SendsIf(c, Truthy(fieldOfView), "field_of_view", fieldOfView)
    ensures SendsIf(c, Truthy(nearClip), "near_clip", nearClip)
    ensures SendsIf(c, Truthy(farClip), "far_clip", farClip)
    ensures SendsOnly(c, {"camera_name", "field_of_view", "near_clip", "far_clip"})
  {
    var p := map["camera_name" := cameraName];
    var p := PutIf(p, Truthy(fieldOfView), "field_of_view", fieldOfView);
    var p := PutIf(p, Truthy(nearClip), "near_clip", nearClip);
    var p := PutIf(p, Truthy(farClip), "far_clip", farClip);
    Call("set_camera_properties", JObj(p))
  }

  // Audio

  function PlaySound(soundType: Json, position: Json, volume: Json): (c: Call)
    ensures c.methodName == "play_sound"
    ensures Sends(c, "sound_type", soundType)
    ensures Sends(c, "volume", volume)
    ensures SendsIf(c, Truthy(position), "position", position)
    ensures SendsOnly(c, {"sound_type", "volume", "position"})
  {
    var p := map["sound_type" := soundType, "volume" := volume];
    var p := PutIf(p, Truthy(position), "position", position);
    Call("play_sound", JObj(p))
  }

  function CreateAudioSource(objectName: Json, audioType: Json, loop: Json, volume: Json, pitch: Json,
                             spatialBlend: Json): (c: Call)
    ensures c.methodName == "create_audio_source"
    ensures Sends(c, "object_name", objectName)
    ensures Sends(c, "audio_type", audioType)
    ensures Sends(c, "loop", loop)
    ensures Sends(c, "volume", volume)
    ensures Sends(c, "pitch", pitch)
    ensures Sends(c, "spatialBlend", spatialBlend)
    ensures SendsOnly(c, {"object_name", "audio_type", "loop", "volume", "pitch", "spatialBlend"})
  {
    Call("create_audio_source", JObj(map["object_name" := objectName, "audio_type" := audioType, "loop" := loop, "volume" := volume, "pitch" := pitch, "spatialBlend" := spatialBlend]))
  }

  // Custom code execution

  function ExecuteUnityCode(code: Json): (c: Call)
    ensures c.methodName == "execute_unity_code"
    ensures Sends(c, "code", code)
    ensures SendsOnly(c, {"code"})
  {
    Call("execute_unity_code", JObj(map["code" := code]))
  }

  // Sending

  /** How `send_request` interprets one exchange; every exception inside it
      is caught and turned into None. `decode` is `json.loads`, with None
      where it raises. */
  function RequestReply(x: Exchange, decode: string -> Option<Json>): (r: Json)
    ensures !x.Replied? ==> r == JNull
    ensures x.Replied? && HasKey(x.response, "error") ==> r == JNull
    ensures x.Replied? && !HasKey(x.response, "error") && Get(x.response, "result").Some? ==>
      var result := Get(x.response, "result").value;
      r == if result.JStr? then decode(result.s).GetOr(JNull) else JNull
    ensures x.Replied? && !HasKey(x.response, "error") && !HasKey(x.response, "result") ==>
      r == JObj(x.response)
  {
    match x
    case Replied(response) =>
      if HasKey(response, "error") then JNull
      else if HasKey(response, "result") then
        match Get(response, "result").value
        case JStr(text) => decode(text).GetOr(JNull)
        case _ => JNull
      else JObj(response)
    case _ => JNull
  }

  class McpClient {
    var host: string
    var port: int
    var idCounter: int

    constructor (host: string, port: int)
      ensures this.host == host && this.port == port && idCounter == 0
    {
      this.host := host;
      this.port := port;
      idCounter := 0;
    }

    /** Counts the request, then connects, sends the envelope with id
        `requestId` (a fresh uuid4 text) and interprets the reply; a failed
        connection also yields None. */
    method SendRequest(methodName: string, params: Json, requestId: string, endpoint: Endpoint,
                       decode: string -> Option<Json>) returns (r: Json)
      modifies this`idCounter
      ensures idCounter == old(idCounter) + 1
      ensures !endpoint.listening ==> r == JNull
      ensures endpoint.listening ==>
        r == RequestReply(endpoint.answer(Envelope(methodName, OrEmpty(params), requestId)), decode)
    {
      idCounter := idCounter + 1;
      var request := Envelope(methodName, OrEmpty(params), requestId);
      if !endpoint.listening {
        return JNull;
      }
      r := RequestReply(endpoint.answer(request), decode);
    }
  }

  // Colour helpers

  /** `Colors.rgb`: 0-255 channels scaled to 0.0-1.0, alpha kept. */
  function Rgb(r: real, g: real, b: real, a: real): (color: seq<real>)
    ensures |color| == 4
    ensures color[0] * 255.0 == r && color[1] * 255.0 == g && color[2] * 255.0 == b && color[3] == a
  {
    [r / 255.0, g / 255.0, b / 255.0, a]
  }

  /** Element-wise `(1 - t) * c1 + t * c2` over the common length. */
  function Blend(color1: seq<real>, color2: seq<real>, t: real): (mix: seq<real>)
    ensures |mix| == if |color1| < |color2| then |color1| else |color2|
  {
    var n := if |color1| < |color2| then |color1| else |color2|;
    seq(n, i requires 0 <= i < n => (1.0 - t) * color1[i] + t * color2[i])
  }

  /** At t = 0 a blend is the first colour, at t = 1 the second, both cut to
      the common length. */
  lemma BlendEnds(color1: seq<real>, color2: seq<real>)
    ensures var n := |Blend(color1, color2, 0.0)|;
      Blend(color1, color2, 0.0) == color1[..n] && Blend(color1, color2, 1.0) == color2[..n]
  {
  }

  /** `Colors.lerp` */
  method Lerp(color1: seq<real>, color2: seq<real>, t: real) returns (result: seq<real>)
    ensures result == Blend(color1, color2, t)
  {
    result := [];
    var n := if |color1| < |color2| then |color1| else |color2|;
    for i := 0 to n
      invariant |result| == i
      invariant forall j :: 0 <= j < i ==> result[j] == (1.0 - t) * color1[j] + t * color2[j]
    {
      result := result + [(1.0 - t) * color1[i] + t * color2[i]];
    }
    assert forall j :: 0 <= j < n ==> Blend(color1, color2, t)[j] == result[j];
  }
}
