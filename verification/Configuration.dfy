/**
 The Device's camera configuration and the rules it must pass before it is applied.  The URL parser is a
 parameter.
 */
module Configuration {
  import opened Common

  datatype Camera = Camera(
    cameraId: nat, cameraKey: string, name: string, streamUrl: string, enabled: bool, sourceOrder: int, outputPath: string)

  datatype DeviceConfiguration = DeviceConfiguration(
    schemaVersion: int, version: string, deviceId: nat, branchId: nat, generatedAt: int, cameras: seq<Camera>)

  datatype Url = Url(scheme: string, hasNetloc: bool)

  type UrlParser = string -> Url

  datatype Reason =
    | UnsupportedSchemaVersion | DeviceIdMismatch | MissingBranchId | MissingConfigurationVersion | TooManyCameras
    | DuplicateCameraId | EmptyCameraKey | InvalidCameraKey | DuplicateCameraKey | NegativeSourceOrder | DuplicateSourceOrder
    | EmptyStreamUrl | UnapprovedUrlScheme | StreamUrlNotAbsolute
    | EmptyOutputPath | OutputPathTooLong | OutputPathNotRelative | UnsafeOutputPath | OutputPathCameraKeyMismatch | DuplicateOutputPath

  const SUPPORTED_SCHEMA_VERSION := 1
  const NO_BRANCH: nat := 0
  const MAX_OUTPUT_PATH_LENGTH := 512
  const OUTPUT_PATH_PREFIX := "cameras/"

  // ---- The camera key pattern ------------------------------------------------------------------

  predicate Alphanumeric(c: char) {
    'a' <= c <= 'z' || '0' <= c <= '9'
  }

  /** 3 to 64 characters, lower-case letters, digits and inner hyphens. */
  predicate StrictKey(s: string) {
    && 3 <= |s| <= 64 && Alphanumeric(s[0]) && Alphanumeric(s[|s| - 1])
    && forall i :: 0 <= i < |s| ==> Alphanumeric(s[i]) || s[i] == '-'
  }

  /** What the compiled pattern matches: `$` also stands before a final line feed. */
  predicate PatternMatches(s: string) {
    StrictKey(s) || (s != "" && s[|s| - 1] == '\n' && StrictKey(s[..|s| - 1]))
  }

  // ---- One camera ------------------------------------------------------------------------------

  function KeyProblem(c: Camera): Option<Reason> {
    if c.cameraKey == "" then Some(EmptyCameraKey) else if !PatternMatches(c.cameraKey) then Some(InvalidCameraKey) else None
  }

  function UrlProblem(c: Camera, parse: UrlParser): Option<Reason> {
    if c.streamUrl == "" then Some(EmptyStreamUrl)
    else if parse(c.streamUrl).scheme !in {"rtsp", "rtsps"} then Some(UnapprovedUrlScheme)
    else if !parse(c.streamUrl).hasNetloc then Some(StreamUrlNotAbsolute)
    else None
  }

  predicate OccursAt(s: string, token: string, i: nat) {
    i + |token| <= |s| && s[i..i + |token|] == token
  }

  predicate Contains(s: string, token: string) {
    exists i :: 0 <= i <= |s| && OccursAt(s, token, i)
  }

  predicate HasForbiddenToken(s: string) {
    Contains(s, "..") || Contains(s, "://") || Contains(s, "\\") || Contains(s, "?") || Contains(s, "#") || Contains(s, "//")
  }

  predicate HasControl(s: string) {
    exists i :: 0 <= i < |s| && (s[i] < ' ' || s[i] == '\U{7F}')
  }

  function PathProblem(c: Camera): Option<Reason> {
    var path := c.outputPath;
    if path == "" then Some(EmptyOutputPath)
    else if |path| > MAX_OUTPUT_PATH_LENGTH then Some(OutputPathTooLong)
    else if path[0] == '/' then Some(OutputPathNotRelative)
    else if HasForbiddenToken(path) || HasControl(path) then Some(UnsafeOutputPath)
    else if path != OUTPUT_PATH_PREFIX + c.cameraKey then Some(OutputPathCameraKeyMismatch)
    else None
  }

  function Ids(cs: seq<Camera>): set<nat> {
    set c | c in cs :: c.cameraId
  }

  function Keys(cs: seq<Camera>): set<string> {
    set c | c in cs :: c.cameraKey
  }

  function Orders(cs: seq<Camera>): set<int> {
    set c | c in cs :: c.sourceOrder
  }

  function Paths(cs: seq<Camera>): set<string> {
    set c | c in cs :: c.outputPath
  }

  lemma SeenMore(cs: seq<Camera>, c: Camera)
    ensures Ids(cs + [c]) == Ids(cs) + {c.cameraId} && Keys(cs + [c]) == Keys(cs) + {c.cameraKey}
    ensures Orders(cs + [c]) == Orders(cs) + {c.sourceOrder} && Paths(cs + [c]) == Paths(cs) + {c.outputPath}
  {
    assert forall d :: d in cs + [c] <==> d in cs || d == c;
  }

  /** The rules for one camera after those before it, in the order they are applied. */
  function CameraProblem(c: Camera, before: seq<Camera>, parse: UrlParser): Option<Reason> {
    if c.cameraId in Ids(before) then Some(DuplicateCameraId)
    else if KeyProblem(c).Some? then KeyProblem(c)
    else if c.cameraKey in Keys(before) then Some(DuplicateCameraKey)
    else if c.sourceOrder < 0 then Some(NegativeSourceOrder)
    else if c.sourceOrder in Orders(before) then Some(DuplicateSourceOrder)
    else if UrlProblem(c, parse).Some? then UrlProblem(c, parse)
    else if PathProblem(c).Some? then PathProblem(c)
    else if c.outputPath in Paths(before) then Some(DuplicateOutputPath)
    else None
  }

  function CamerasProblem(before: seq<Camera>, rest: seq<Camera>, parse: UrlParser): Option<Reason>
    decreases |rest|
  {
    if rest == [] then None
    else if CameraProblem(rest[0], before, parse).Some? then CameraProblem(rest[0], before, parse)
    else CamerasProblem(before + [rest[0]], rest[1..], parse)
  }

  function Problem(c: DeviceConfiguration, expected: nat, maxCameras: nat, parse: UrlParser): Option<Reason> {
    if c.schemaVersion != SUPPORTED_SCHEMA_VERSION then Some(UnsupportedSchemaVersion)
    else if c.deviceId != expected then Some(DeviceIdMismatch)
    else if c.branchId == NO_BRANCH then Some(MissingBranchId)
    else if c.version == "" then Some(MissingConfigurationVersion)
    else if |c.cameras| > maxCameras then Some(TooManyCameras)
    else CamerasProblem([], c.cameras, parse)
  }

  /** One pass over the cameras, growing the four seen-sets; stops at the first broken rule. */
  method ValidateConfiguration(c: DeviceConfiguration, expected: nat, maxCameras: nat, parse: UrlParser) returns (problem: Option<Reason>)
    ensures problem == Problem(c, expected, maxCameras, parse)
  {
    if c.schemaVersion != SUPPORTED_SCHEMA_VERSION {
      return Some(UnsupportedSchemaVersion);
    }
    if c.deviceId != expected {
      return Some(DeviceIdMismatch);
    }
    if c.branchId == NO_BRANCH {
      return Some(MissingBranchId);
    }
    if c.version == "" {
      return Some(MissingConfigurationVersion);
    }
    if |c.cameras| > maxCameras {
      return Some(TooManyCameras);
    }
    var ids: set<nat>, keys: set<string>, orders: set<int>, paths: set<string> := {}, {}, {}, {};
    var n := 0;
    while n < |c.cameras|
      invariant 0 <= n <= |c.cameras|
      invariant ids == Ids(c.cameras[..n])
      invariant keys == Keys(c.cameras[..n])
      invariant orders == Orders(c.cameras[..n])
      invariant paths == Paths(c.cameras[..n])
      invariant CamerasProblem([], c.cameras, parse) == CamerasProblem(c.cameras[..n], c.cameras[n..], parse)
    {
      var camera := c.cameras[n];
      problem := CheckCamera(camera, c.cameras[..n], ids, keys, orders, paths, parse);
      assert c.cameras[n..][0] == camera && c.cameras[n..][1..] == c.cameras[n + 1..] && c.cameras[..n] + [camera] == c.cameras[..n + 1];
      if problem.Some? {
        return;
      }
      SeenMore(c.cameras[..n], camera);
      ids, keys := ids + {camera.cameraId}, keys + {camera.cameraKey};
      orders, paths := orders + {camera.sourceOrder}, paths + {camera.outputPath};
      n := n + 1;
    }
    return None;
  }

  method CheckCamera(c: Camera, ghost before: seq<Camera>, ids: set<nat>, keys: set<string>, orders: set<int>, paths: set<string>, parse: UrlParser)
    returns (problem: Option<Reason>)
    requires ids == Ids(before)
    requires keys == Keys(before)
    requires orders == Orders(before)
    requires paths == Paths(before)
    ensures problem == CameraProblem(c, before, parse)
  {
    if c.cameraId in ids {
      return Some(DuplicateCameraId);
    }
    problem := KeyProblem(c);
    if problem.Some? {
      return;
    }
    if c.cameraKey in keys {
      return Some(DuplicateCameraKey);
    }
    if c.sourceOrder < 0 {
      return Some(NegativeSourceOrder);
    }
    if c.sourceOrder in orders {
      return Some(DuplicateSourceOrder);
    }
    problem := UrlProblem(c, parse);
    if problem.Some? {
      return;
    }
    problem := PathProblem(c);
    if problem.Some? {
      return;
    }
    if c.outputPath in paths {
      return Some(DuplicateOutputPath);
    }
  }

  // ---- What acceptance means -------------------------------------------------------------------

  predicate SoundCamera(c: Camera, parse: UrlParser) {
    && StrictKey(c.cameraKey) && c.sourceOrder >= 0 && UrlProblem(c, parse).None?
    && c.outputPath == OUTPUT_PATH_PREFIX + c.cameraKey
  }

  /** No two cameras share an id, a key or an order. */
  ghost predicate Unique(cameras: seq<Camera>) {
    forall i, j :: 0 <= i < j < |cameras| ==>
      && cameras[i].cameraId != cameras[j].cameraId
      && cameras[i].cameraKey != cameras[j].cameraKey
      && cameras[i].sourceOrder != cameras[j].sourceOrder
  }

  /** With the path tied to the key, every other path rule follows from the key's pattern, and the
      control-character rule excludes the one key the pattern lets slip. */
  lemma PathRuleIff(c: Camera)
    requires PatternMatches(c.cameraKey)
    ensures PathProblem(c).None? <==> StrictKey(c.cameraKey) && c.outputPath == OUTPUT_PATH_PREFIX + c.cameraKey
  {
    var path := c.outputPath;
    if path == OUTPUT_PATH_PREFIX + c.cameraKey {
      if StrictKey(c.cameraKey) {
        SafePath(c.cameraKey);
      } else {
        assert path[|path| - 1] == '\n';
      }
    }
  }

  predicate PlainChar(c: char) {
    Alphanumeric(c) || c == '-'
  }

  lemma SafePath(key: string)
    requires StrictKey(key)
    ensures var path := OUTPUT_PATH_PREFIX + key;
            path[0] != '/' && |path| <= MAX_OUTPUT_PATH_LENGTH && !HasForbiddenToken(path) && !HasControl(path)
  {
    var path := OUTPUT_PATH_PREFIX + key;
    forall i | 0 <= i < |path|
      ensures i != 7 ==> PlainChar(path[i])
      ensures i == 7 ==> path[i] == '/'
    {
      if i >= 8 {
        assert path[i] == key[i - 8];
      }
    }
    NoToken(path, "..", 0);
    NoToken(path, "://", 0);
    NoToken(path, "\\", 0);
    NoToken(path, "?", 0);
    NoToken(path, "#", 0);
    NoDoubleSlash(path);
  }

  /** A token with a character that the text does not have is not in the text. */
  lemma NoToken(s: string, token: string, k: nat)
    requires k < |token| && !PlainChar(token[k]) && token[k] != '/'
    requires forall i :: 0 <= i < |s| ==> PlainChar(s[i]) || s[i] == '/'
    ensures !Contains(s, token)
  {
    forall i | 0 <= i <= |s|
      ensures !OccursAt(s, token, i)
    {
      assert i + |token| <= |s| ==> s[i..i + |token|][k] == s[i + k];
    }
  }

  lemma NoDoubleSlash(s: string)
    requires forall i :: 0 <= i < |s| && i != 7 ==> PlainChar(s[i])
    ensures !Contains(s, "//")
  {
    forall i | 0 <= i <= |s|
      ensures !OccursAt(s, "//", i)
    {
      assert i + 2 <= |s| ==> s[i..i + 2][0] == s[i] && s[i..i + 2][1] == s[i + 1];
    }
  }

  lemma {:induction false} CamerasAcceptedIff(before: seq<Camera>, rest: seq<Camera>, parse: UrlParser)
    requires Unique(before) && forall i :: 0 <= i < |before| ==> SoundCamera(before[i], parse)
    ensures CamerasProblem(before, rest, parse).None? <==>
              Unique(before + rest) && forall i :: 0 <= i < |rest| ==> SoundCamera(rest[i], parse)
    decreases |rest|
  {
    if rest == [] {
      assert before + rest == before;
    } else {
      var c := rest[0];
      assert before + rest == before + [c] + rest[1..];
      CameraAcceptedIff(c, before, parse);
      if CameraProblem(c, before, parse).None? {
        CamerasAcceptedIff(before + [c], rest[1..], parse);
        assert forall i :: 0 <= i < |rest| ==> rest[i] == if i == 0 then c else rest[1..][i - 1];
      } else if SoundCamera(c, parse) && Unique(before + rest) {
        forall i | 0 <= i < |before|
          ensures before[i].cameraId != c.cameraId && before[i].cameraKey != c.cameraKey && before[i].sourceOrder != c.sourceOrder
        {
          assert (before + rest)[i] == before[i] && (before + rest)[|before|] == c;
        }
      }
    }
  }

  lemma CameraAcceptedIff(c: Camera, before: seq<Camera>, parse: UrlParser)
    requires Unique(before) && forall i :: 0 <= i < |before| ==> SoundCamera(before[i], parse)
    ensures CameraProblem(c, before, parse).None? <==>
              SoundCamera(c, parse)
              && forall i :: 0 <= i < |before| ==>
                   before[i].cameraId != c.cameraId && before[i].cameraKey != c.cameraKey && before[i].sourceOrder != c.sourceOrder
    ensures CameraProblem(c, before, parse).None? ==> Unique(before + [c])
    ensures CameraProblem(c, before, parse) != Some(DuplicateOutputPath)
  {
    if PatternMatches(c.cameraKey) {
      PathRuleIff(c);
    }
    if PathProblem(c).None? {
      forall i | 0 <= i < |before| && before[i].outputPath == c.outputPath
        ensures before[i].cameraKey == c.cameraKey
      {
        assert before[i].outputPath[8..] == before[i].cameraKey && c.outputPath[8..] == c.cameraKey;
      }
    }
  }

  /** Exactly the configurations that are accepted. */
  lemma AcceptedIff(c: DeviceConfiguration, expected: nat, maxCameras: nat, parse: UrlParser)
    ensures Problem(c, expected, maxCameras, parse).None? <==>
              && c.schemaVersion == SUPPORTED_SCHEMA_VERSION && c.deviceId == expected && c.branchId != NO_BRANCH
              && c.version != "" && |c.cameras| <= maxCameras
              && Unique(c.cameras) && forall i :: 0 <= i < |c.cameras| ==> SoundCamera(c.cameras[i], parse)
  {
    AllAcceptedIff(c.cameras, parse);
  }

  lemma AllAcceptedIff(cameras: seq<Camera>, parse: UrlParser)
    ensures CamerasProblem([], cameras, parse).None? <==>
              Unique(cameras) && forall i :: 0 <= i < |cameras| ==> SoundCamera(cameras[i], parse)
  {
    CamerasAcceptedIff([], cameras, parse);
    assert [] + cameras == cameras;
  }

  /** The duplicate-path rule can never be the one that rejects. */
  lemma DuplicatePathNeverFires(c: DeviceConfiguration, expected: nat, maxCameras: nat, parse: UrlParser)
    ensures Problem(c, expected, maxCameras, parse) != Some(DuplicateOutputPath)
  {
    DuplicatePathNeverFiresFrom([], c.cameras, parse);
  }

  lemma {:induction false} DuplicatePathNeverFiresFrom(before: seq<Camera>, rest: seq<Camera>, parse: UrlParser)
    requires Unique(before) && forall i :: 0 <= i < |before| ==> SoundCamera(before[i], parse)
    ensures CamerasProblem(before, rest, parse) != Some(DuplicateOutputPath)
    decreases |rest|
  {
    if rest != [] {
      CameraAcceptedIff(rest[0], before, parse);
      if CameraProblem(rest[0], before, parse).None? {
        DuplicatePathNeverFiresFrom(before + [rest[0]], rest[1..], parse);
      }
    }
  }
}
