/**
 The cached form of a configuration: a JSON object written after every accepted fetch and read back at
 start.  The texts of identifiers and instants are parameters with faithful readers; a cached field of a
 wrong JSON type is an error here.
 */
module ConfigSerialization {
  import opened Common
  import opened JsonValues
  import opened Configuration

  /** The standard library's UUID and ISO-8601 readers and writers. */
  datatype Codec = Codec(
    idText: nat -> string, readId: string -> Option<nat>, instantText: int -> string, readInstant: string -> Option<int>)

  ghost predicate Faithful(k: Codec) {
    && (forall n: nat :: k.readId(k.idText(n)) == Some(n))
    && (forall t :: k.readInstant(k.instantText(t)) == Some(t))
  }

  // ---- Writing ---------------------------------------------------------------------------------

  function SerializeCamera(c: Camera, k: Codec): Json {
    JObject(map[
      "cameraId" := JString(k.idText(c.cameraId)), "cameraKey" := JString(c.cameraKey), "name" := JString(c.name),
      "streamUrl" := JString(c.streamUrl), "enabled" := JBool(c.enabled), "sourceOrder" := JInt(c.sourceOrder),
      "outputPath" := JString(c.outputPath)])
  }

  function SerializeCameras(cameras: seq<Camera>, k: Codec): (r: seq<Json>)
    ensures |r| == |cameras| && forall i :: 0 <= i < |cameras| ==> r[i] == SerializeCamera(cameras[i], k)
  {
    if cameras == [] then [] else [SerializeCamera(cameras[0], k)] + SerializeCameras(cameras[1..], k)
  }

  function SerializeConfiguration(c: DeviceConfiguration, k: Codec): Json {
    JObject(map[
      "schemaVersion" := JInt(c.schemaVersion), "configurationVersion" := JString(c.version),
      "deviceId" := JString(k.idText(c.deviceId)), "branchId" := JString(k.idText(c.branchId)),
      "generatedAtUtc" := JString(k.instantText(c.generatedAt)), "cameras" := JArray(SerializeCameras(c.cameras, k)),
      "pipelineHash" := JString(c.version)])
  }

  // ---- Reading ---------------------------------------------------------------------------------

  datatype Malformed = Malformed

  function TextAt(o: Json, name: string): Result<string, Malformed>
    requires o.JObject?
  {
    if Field(o, name).JString? then Ok(Field(o, name).s) else Err(Malformed)
  }

  function IntAt(o: Json, name: string): Result<int, Malformed>
    requires o.JObject?
  {
    if Field(o, name).JInt? then Ok(Field(o, name).n) else Err(Malformed)
  }

  function IdAt(o: Json, name: string, k: Codec): Result<nat, Malformed>
    requires o.JObject?
  {
    if !Field(o, name).JString? then Err(Malformed)
    else
      match k.readId(Field(o, name).s)
      case None => Err(Malformed)
      case Some(n) => Ok(n)
  }

  /** A key that is missing, empty or no text is recovered from the path, which an older cache has too. */
  function KeyOf(o: Json): Result<string, Malformed>
    requires o.JObject?
  {
    var key, path := Field(o, "cameraKey"), Field(o, "outputPath");
    if key.JString? && key.s != "" then Ok(key.s)
    else if !path.JString? || !(OUTPUT_PATH_PREFIX <= path.s) || |path.s| == |OUTPUT_PATH_PREFIX| then Err(Malformed)
    else Ok(path.s[|OUTPUT_PATH_PREFIX|..])
  }

  function DeserializeCamera(o: Json, k: Codec): Result<Camera, Malformed> {
    if !o.JObject? then Err(Malformed)
    else
      match (IdAt(o, "cameraId", k), KeyOf(o), TextAt(o, "name"), TextAt(o, "streamUrl"), Field(o, "enabled"), IntAt(o, "sourceOrder"), TextAt(o, "outputPath"))
      case (Ok(id), Ok(key), Ok(name), Ok(url), JBool(enabled), Ok(order), Ok(path)) => Ok(Camera(id, key, name, url, enabled, order, path))
      case _ => Err(Malformed)
  }

  function DeserializeCameras(items: seq<Json>, k: Codec): Result<seq<Camera>, Malformed> {
    if items == [] then Ok([])
    else
      match (DeserializeCamera(items[0], k), DeserializeCameras(items[1..], k))
      case (Ok(c), Ok(rest)) => Ok([c] + rest)
      case _ => Err(Malformed)
  }

  function DeserializeConfiguration(o: Json, k: Codec): Result<DeviceConfiguration, Malformed> {
    if !o.JObject? || !Field(o, "cameras").JArray? || !Field(o, "generatedAtUtc").JString? then Err(Malformed)
    else
      match (IntAt(o, "schemaVersion"), TextAt(o, "configurationVersion"), IdAt(o, "deviceId", k), IdAt(o, "branchId", k),
             k.readInstant(Field(o, "generatedAtUtc").s), DeserializeCameras(Field(o, "cameras").items, k))
      case (Ok(schema), Ok(version), Ok(device), Ok(branch), Some(at), Ok(cameras)) =>
        Ok(DeviceConfiguration(schema, version, device, branch, at, cameras))
      case _ => Err(Malformed)
  }

  // ---- Round trips -----------------------------------------------------------------------------

  /** What one camera reads back as: itself, unless its key is empty. */
  lemma CameraRoundTrip(c: Camera, k: Codec)
    requires Faithful(k)
    ensures c.cameraKey != "" ==> DeserializeCamera(SerializeCamera(c, k), k) == Ok(c)
    ensures c.cameraKey == "" ==> DeserializeCamera(SerializeCamera(c, k), k) != Ok(c)
  {
    var o := SerializeCamera(c, k);
    FieldsOfCamera(c, k);
    if c.cameraKey == "" && KeyOf(o).Ok? {
      assert KeyOf(o).value == c.outputPath[|OUTPUT_PATH_PREFIX|..];
      assert |KeyOf(o).value| > 0;
    }
  }

  lemma FieldsOfCamera(c: Camera, k: Codec)
    ensures var o := SerializeCamera(c, k);
            && Field(o, "cameraId") == JString(k.idText(c.cameraId)) && Field(o, "cameraKey") == JString(c.cameraKey)
            && Field(o, "name") == JString(c.name) && Field(o, "streamUrl") == JString(c.streamUrl)
            && Field(o, "enabled") == JBool(c.enabled) && Field(o, "sourceOrder") == JInt(c.sourceOrder)
            && Field(o, "outputPath") == JString(c.outputPath)
  {
  }

  predicate AllKeyed(cameras: seq<Camera>) {
    forall i :: 0 <= i < |cameras| ==> cameras[i].cameraKey != ""
  }

  /** A list is read as exactly these cameras when each item is. */
  lemma {:induction false} ItemsReadIff(items: seq<Json>, cameras: seq<Camera>, k: Codec)
    ensures DeserializeCameras(items, k) == Ok(cameras)
       <==> |items| == |cameras| && forall i :: 0 <= i < |items| ==> DeserializeCamera(items[i], k) == Ok(cameras[i])
  {
    if items != [] && cameras != [] {
      ItemsReadIff(items[1..], cameras[1..], k);
      var first, rest := DeserializeCamera(items[0], k), DeserializeCameras(items[1..], k);
      if first.Ok? && rest.Ok? {
        assert ([first.value] + rest.value == cameras) <==> (first.value == cameras[0] && rest.value == cameras[1..]) by {
          assert ([first.value] + rest.value)[1..] == rest.value;
          assert cameras == [cameras[0]] + cameras[1..];
        }
      }
      assert (forall i :: 0 <= i < |items| && |items| == |cameras| ==> DeserializeCamera(items[i], k) == Ok(cameras[i]))
        <==> (|items| == |cameras| ==>
                first == Ok(cameras[0]) && forall i :: 0 <= i < |items[1..]| ==> DeserializeCamera(items[1..][i], k) == Ok(cameras[1..][i])) by {
        assert forall i :: 0 < i < |items| ==> items[i] == items[1..][i - 1];
      }
    }
  }

  lemma CamerasRoundTrip(cameras: seq<Camera>, k: Codec)
    requires Faithful(k)
    ensures DeserializeCameras(SerializeCameras(cameras, k), k) == Ok(cameras) <==> AllKeyed(cameras)
  {
    ItemsReadIff(SerializeCameras(cameras, k), cameras, k);
    forall i | 0 <= i < |cameras|
      ensures DeserializeCamera(SerializeCameras(cameras, k)[i], k) == Ok(cameras[i]) <==> cameras[i].cameraKey != ""
    {
      CameraRoundTrip(cameras[i], k);
    }
  }

  lemma FieldsOfConfiguration(c: DeviceConfiguration, k: Codec)
    ensures var o := SerializeConfiguration(c, k);
            && Field(o, "schemaVersion") == JInt(c.schemaVersion) && Field(o, "configurationVersion") == JString(c.version)
            && Field(o, "deviceId") == JString(k.idText(c.deviceId)) && Field(o, "branchId") == JString(k.idText(c.branchId))
            && Field(o, "generatedAtUtc") == JString(k.instantText(c.generatedAt))
            && Field(o, "cameras") == JArray(SerializeCameras(c.cameras, k))
  {
  }

  /** Serialising and reading back returns the same configuration exactly when every camera has a key. */
  lemma RoundTripIff(c: DeviceConfiguration, k: Codec)
    requires Faithful(k)
    ensures DeserializeConfiguration(SerializeConfiguration(c, k), k) == Ok(c) <==> AllKeyed(c.cameras)
  {
    FieldsOfConfiguration(c, k);
    CamerasRoundTrip(c.cameras, k);
  }

  /** So every accepted configuration survives the cache, and is accepted again when it is read back. */
  lemma AcceptedSurvivesCache(c: DeviceConfiguration, expected: nat, maxCameras: nat, parse: UrlParser, k: Codec)
    requires Faithful(k) && Problem(c, expected, maxCameras, parse).None?
    ensures DeserializeConfiguration(SerializeConfiguration(c, k), k) == Ok(c)
  {
    AcceptedIff(c, expected, maxCameras, parse);
    RoundTripIff(c, k);
  }

  // ---- Caches written before the key existed ---------------------------------------------------

  function WithoutKey(o: Json): Json
    requires o.JObject?
  {
    JObject(o.fields - {"cameraKey"})
  }

  function LegacyCameras(cameras: seq<Camera>, k: Codec): (r: seq<Json>)
    ensures |r| == |cameras| && forall i :: 0 <= i < |cameras| ==> r[i] == WithoutKey(SerializeCamera(cameras[i], k))
  {
    if cameras == [] then [] else [WithoutKey(SerializeCamera(cameras[0], k))] + LegacyCameras(cameras[1..], k)
  }

  /** Without its key a camera is still read back as itself exactly when its path is the key's own. */
  lemma LegacyCameraRoundTrip(c: Camera, k: Codec)
    requires Faithful(k) && c.cameraKey != ""
    ensures DeserializeCamera(WithoutKey(SerializeCamera(c, k)), k) == Ok(c) <==> c.outputPath == OUTPUT_PATH_PREFIX + c.cameraKey
  {
    var o := WithoutKey(SerializeCamera(c, k));
    LegacyFields(c, k);
    if OUTPUT_PATH_PREFIX <= c.outputPath {
      assert c.outputPath == OUTPUT_PATH_PREFIX + c.outputPath[|OUTPUT_PATH_PREFIX|..];
    }
    if c.outputPath == OUTPUT_PATH_PREFIX + c.cameraKey {
      assert c.outputPath[|OUTPUT_PATH_PREFIX|..] == c.cameraKey;
    }
  }

  lemma LegacyFields(c: Camera, k: Codec)
    ensures var o := WithoutKey(SerializeCamera(c, k));
            && Field(o, "cameraKey") == JNull
            && Field(o, "cameraId") == JString(k.idText(c.cameraId))
            && Field(o, "name") == JString(c.name) && Field(o, "streamUrl") == JString(c.streamUrl)
            && Field(o, "enabled") == JBool(c.enabled) && Field(o, "sourceOrder") == JInt(c.sourceOrder)
            && Field(o, "outputPath") == JString(c.outputPath)
  {
  }

  /** The cameras of an accepted configuration are recovered from a cache without keys. */
  lemma LegacyCacheRecovers(cameras: seq<Camera>, parse: UrlParser, k: Codec)
    requires Faithful(k) && forall i :: 0 <= i < |cameras| ==> SoundCamera(cameras[i], parse)
    ensures DeserializeCameras(LegacyCameras(cameras, k), k) == Ok(cameras)
  {
    ItemsReadIff(LegacyCameras(cameras, k), cameras, k);
    forall i | 0 <= i < |cameras|
      ensures DeserializeCamera(LegacyCameras(cameras, k)[i], k) == Ok(cameras[i])
    {
      LegacyCameraRoundTrip(cameras[i], k);
    }
  }
}
