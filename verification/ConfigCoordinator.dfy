/**
 Fetching, caching and applying camera configurations, and the one Bridge process they drive.  As a
 transition system a step is one commit, one file replacement, one assignment block between two awaits,
 or one process event, so that a crash can fall between any two; the coordinator's methods are the same
 steps taken in a row.  A crash of the Agent also ends the Bridge it started.
 */
module ConfigCoordinator {
  import opened Common
  import opened Configuration
  import opened ConfigGenerator
  import S = ConfigSerialization
  import opened JsonValues

  type Pid = nat

  /** A live process: the file it read when it started and the generation installed at that moment. */
  datatype Bridge = Bridge(cameras: seq<Camera>, generation: nat)

  /** `booting` tells the cached start from a poll: a failure ends the former, the latter is retried. */
  datatype Stage =
    | Down
    | Idle
    | Saved(c: DeviceConfiguration)
    | Ready(c: DeviceConfiguration, booting: bool)
    | Written(c: DeviceConfiguration, booting: bool)
    | Installed(c: DeviceConfiguration, booting: bool)

  /** `accepted` and `lastApplied` are history: every configuration ever cached, and the place in that list
      of the one installed last. */
  datatype State = State(
    cache: Option<DeviceConfiguration>,
    file: Option<seq<Camera>>,
    alive: map<Pid, Bridge>,
    nextPid: Pid,
    tracked: Option<Pid>,
    bridgeRunning: bool,
    applied: Option<DeviceConfiguration>,
    nextGeneration: nat,
    current: Option<SourceGeneration>,
    stage: Stage,
    accepted: seq<DeviceConfiguration>,
    lastApplied: Option<nat>)

  const INITIAL := State(None, None, map[], 0, None, false, None, 1, None, Down, [], None)

  /** This Agent's own identity and limits. */
  datatype Setting = Setting(deviceId: nat, maxCameras: nat, parse: UrlParser)

  predicate Acceptable(c: DeviceConfiguration, e: Setting) {
    Problem(c, e.deviceId, e.maxCameras, e.parse).None?
  }

  // ---- Steps -----------------------------------------------------------------------------------

  /** Start of the component: the cached configuration is validated again and applied. */
  function Boot(s: State, e: Setting, operational: bool): State {
    if s.stage != Down then s
    else if operational && s.cache.Some? && Acceptable(s.cache.value, e) then s.(stage := Ready(s.cache.value, true))
    else s.(stage := Idle)
  }

  /** A fetched configuration: rejected, unchanged, or cached before anything else happens. */
  function Fetch(s: State, e: Setting, c: DeviceConfiguration): State {
    if s.stage != Idle || !Acceptable(c, e) then s
    else if s.applied.Some? && s.applied.value.version == c.version then s
    else s.(cache := Some(c), accepted := s.accepted + [c], stage := Saved(c))
  }

  function KillTracked(s: State): State {
    s.(alive := if s.tracked.Some? then s.alive - {s.tracked.value} else s.alive, tracked := None, bridgeRunning := false)
  }

  function StopOld(s: State): State {
    if !s.stage.Saved? then s
    else (if s.bridgeRunning then KillTracked(s) else s).(stage := Ready(s.stage.c, false))
  }

  function GiveUp(s: State, booting: bool): State {
    s.(stage := if booting then Down else Idle)
  }

  function Generate(s: State, ok: bool): State {
    if !s.stage.Ready? then s
    else if ok then s.(file := Some(s.stage.c.cameras), stage := Written(s.stage.c, s.stage.booting))
    else GiveUp(s, s.stage.booting)
  }

  function InstallMapping(s: State): State {
    if !s.stage.Written? then s
    else
      s.(current := Some(SourceGeneration(s.nextGeneration, MapOf(s.stage.c.cameras))), nextGeneration := s.nextGeneration + 1,
         applied := Some(s.stage.c), lastApplied := if s.accepted == [] then None else Some(|s.accepted| - 1),
         stage := Installed(s.stage.c, s.stage.booting))
  }

  /** The process manager refuses a second process; with no cameras there is nothing to start. */
  function Launch(s: State, ok: bool): State {
    if !s.stage.Installed? then s
    else if s.stage.c.cameras == [] then s.(stage := Idle)
    else if s.tracked.Some? || !ok || s.file.None? || s.current.None? then GiveUp(s, s.stage.booting)
    else
      s.(alive := s.alive[s.nextPid := Bridge(s.file.value, s.current.value.generation)], nextPid := s.nextPid + 1,
         tracked := Some(s.nextPid), bridgeRunning := true, stage := Idle)
  }

  function Exit(s: State, p: Pid): State {
    s.(alive := s.alive - {p})
  }

  /** The watcher notices that the tracked process is gone. */
  function Reap(s: State): State {
    if s.tracked.Some? && s.tracked.value !in s.alive then s.(tracked := None) else s
  }

  /** The component is stopped: the poll task is cancelled wherever it waits, then the Bridge is stopped. */
  function StopComponent(s: State): State {
    (if s.bridgeRunning then KillTracked(s) else s).(stage := Down)
  }

  function Crash(s: State): State {
    s.(alive := map[], tracked := None, bridgeRunning := false, applied := None, nextGeneration := 1, current := None, stage := Down)
  }

  datatype Step =
    | DoBoot(operational: bool)
    | DoFetch(c: DeviceConfiguration)
    | DoStopOld
    | DoGenerate(ok: bool)
    | DoInstall
    | DoLaunch(ok: bool)
    | DoExit(p: Pid)
    | DoReap
    | DoStop
    | DoCrash

  function Apply(s: State, e: Setting, step: Step): State {
    match step
    case DoBoot(operational) => Boot(s, e, operational)
    case DoFetch(c) => Fetch(s, e, c)
    case DoStopOld => StopOld(s)
    case DoGenerate(ok) => Generate(s, ok)
    case DoInstall => InstallMapping(s)
    case DoLaunch(ok) => Launch(s, ok)
    case DoExit(p) => Exit(s, p)
    case DoReap => Reap(s)
    case DoStop => StopComponent(s)
    case DoCrash => Crash(s)
  }

  function Run(s: State, e: Setting, steps: seq<Step>): State
    decreases |steps|
  {
    if steps == [] then s else Run(Apply(s, e, steps[0]), e, steps[1..])
  }

  // ---- The invariant ---------------------------------------------------------------------------

  /** A live Bridge is the tracked one, reads the file that is there now, and its generation and cameras are
      the ones in force. */
  ghost predicate BridgeOk(s: State, p: Pid, b: Bridge) {
    && s.tracked == Some(p)
    && s.file == Some(b.cameras)
    && s.current == Some(SourceGeneration(b.generation, MapOf(b.cameras)))
    && s.applied.Some? && s.applied.value.cameras == b.cameras
  }

  /** Between stopping the old Bridge and starting the new one nothing runs, and the configuration being
      applied is the cached one. */
  ghost predicate StageOk(s: State) {
    match s.stage
    case Down => s.tracked == None && !s.bridgeRunning
    case Idle => true
    case Saved(c) => s.cache == Some(c)
    case Ready(c, _) => s.cache == Some(c) && s.tracked == None && !s.bridgeRunning
    case Written(c, _) => s.cache == Some(c) && s.tracked == None && !s.bridgeRunning && s.file == Some(c.cameras)
    case Installed(c, _) =>
      && s.cache == Some(c) && s.tracked == None && !s.bridgeRunning && s.file == Some(c.cameras)
      && s.applied == Some(c) && s.current.Some? && s.current.value.cameraOf == MapOf(c.cameras)
  }

  ghost predicate HistoryOk(s: State, e: Setting) {
    && (forall i :: 0 <= i < |s.accepted| ==> Acceptable(s.accepted[i], e))
    && s.cache == (if s.accepted == [] then None else Some(s.accepted[|s.accepted| - 1]))
    && (s.lastApplied.Some? ==> s.lastApplied.value < |s.accepted|)
    && (s.applied.Some? ==> s.lastApplied.Some? && s.applied.value == s.accepted[s.lastApplied.value])
  }

  ghost predicate Inv(s: State, e: Setting) {
    BridgesOk(s) && StageOk(s) && HistoryOk(s, e)
  }

  ghost predicate BridgesOk(s: State) {
    && (forall p :: p in s.alive ==> BridgeOk(s, p, s.alive[p]))
    && (s.tracked.Some? ==> s.bridgeRunning && s.tracked.value < s.nextPid)
    && (s.current.Some? ==> s.current.value.generation < s.nextGeneration)
  }

  lemma NothingAlive(s: State)
    requires BridgesOk(s) && s.tracked == None
    ensures s.alive == map[]
  {
    assert forall p :: p in s.alive ==> BridgeOk(s, p, s.alive[p]);
    assert s.alive.Keys == {};
  }

  lemma BridgeStep(s: State, e: Setting, step: Step)
    requires BridgesOk(s) && StageOk(s)
    ensures BridgesOk(Apply(s, e, step))
  {
    var t := Apply(s, e, step);
    if s.tracked == None {
      NothingAlive(s);
    }
    forall p | p in t.alive
      ensures BridgeOk(t, p, t.alive[p])
    {
      assert p in s.alive ==> BridgeOk(s, p, s.alive[p]);
    }
  }

  lemma StageStep(s: State, e: Setting, step: Step)
    requires BridgesOk(s) && StageOk(s)
    ensures StageOk(Apply(s, e, step))
  {
  }

  lemma HistoryStep(s: State, e: Setting, step: Step)
    requires StageOk(s) && HistoryOk(s, e)
    ensures HistoryOk(Apply(s, e, step), e)
  {
    match step
    case DoFetch(c) => FetchHistory(s, e, c);
    case DoInstall => InstallHistory(s, e);
    case _ =>
  }

  lemma FetchHistory(s: State, e: Setting, c: DeviceConfiguration)
    requires HistoryOk(s, e)
    ensures HistoryOk(Fetch(s, e, c), e)
  {
  }

  lemma InstallHistory(s: State, e: Setting)
    requires StageOk(s) && HistoryOk(s, e)
    ensures HistoryOk(InstallMapping(s), e)
  {
  }

  lemma StepKeeps(s: State, e: Setting, step: Step)
    requires Inv(s, e)
    ensures Inv(Apply(s, e, step), e)
  {
    BridgeStep(s, e, step);
    StageStep(s, e, step);
    HistoryStep(s, e, step);
  }

  lemma {:induction false} RunKeeps(s: State, e: Setting, steps: seq<Step>)
    requires Inv(s, e)
    ensures Inv(Run(s, e, steps), e)
    decreases |steps|
  {
    if steps != [] {
      StepKeeps(s, e, steps[0]);
      RunKeeps(Apply(s, e, steps[0]), e, steps[1..]);
    }
  }

  // ---- What holds over every run ---------------------------------------------------------------

  /** At most one Bridge is alive, and while one is, the generated file and the source map are those of the
      configuration it was started from, which is the one in force. */
  lemma GenerationSafety(e: Setting, steps: seq<Step>, p: Pid, q: Pid)
    requires var s := Run(INITIAL, e, steps); p in s.alive && q in s.alive
    ensures var s := Run(INITIAL, e, steps); var b := s.alive[p];
            && p == q
            && s.file == Some(b.cameras) && s.applied.Some? && s.applied.value.cameras == b.cameras
            && s.current == Some(SourceGeneration(b.generation, MapOf(b.cameras)))
  {
    RunKeeps(INITIAL, e, steps);
    var s := Run(INITIAL, e, steps);
    assert BridgeOk(s, p, s.alive[p]) && BridgeOk(s, q, s.alive[q]);
  }

  /** The answer for a source id: the id of the camera whose section the Bridge read under it, and nothing
      if that camera is disabled or there is none. */
  ghost predicate AnswersFor(cameras: seq<Camera>, sourceId: int, answer: Option<nat>) {
    && (forall n :: 0 <= n < |cameras| && cameras[n].sourceOrder == sourceId ==>
          answer == if cameras[n].enabled then Some(cameras[n].cameraId) else None)
    && ((forall n :: 0 <= n < |cameras| ==> cameras[n].sourceOrder != sourceId) ==> answer == None)
  }

  /** So a source id reported by the live Bridge resolves to its own camera. */
  lemma ResolvesToOwnCamera(e: Setting, steps: seq<Step>, p: Pid, sourceId: int)
    requires p in Run(INITIAL, e, steps).alive
    ensures var s := Run(INITIAL, e, steps);
            s.current.Some? && AnswersFor(s.alive[p].cameras, sourceId, s.current.value.Resolve(sourceId))
  {
    RunKeeps(INITIAL, e, steps);
    ResolvesInState(Run(INITIAL, e, steps), e, p, sourceId);
  }

  lemma ResolvesInState(s: State, e: Setting, p: Pid, sourceId: int)
    requires Inv(s, e) && p in s.alive
    ensures s.current.Some? && AnswersFor(s.alive[p].cameras, sourceId, s.current.value.Resolve(sourceId))
  {
    assert BridgeOk(s, p, s.alive[p]);
    AcceptedAreSound(s.applied.value, e.deviceId, e.maxCameras, e.parse);
    MapOfIff(s.alive[p].cameras, sourceId);
  }

  predicate NoCrash(steps: seq<Step>) {
    forall i :: 0 <= i < |steps| ==> steps[i] != DoCrash
  }

  /** In one process lifetime every generation that replaces another has a larger number. */
  lemma {:induction false} GenerationsIncrease(s: State, e: Setting, steps: seq<Step>)
    requires Inv(s, e) && NoCrash(steps) && s.current.Some?
    ensures var t := Run(s, e, steps);
            t.current.Some? && (t.current == s.current || t.current.value.generation > s.current.value.generation)
    decreases |steps|
  {
    if steps != [] {
      StepKeeps(s, e, steps[0]);
      GenerationStep(s, e, steps[0]);
      GenerationsIncrease(Apply(s, e, steps[0]), e, steps[1..]);
    }
  }

  lemma GenerationStep(s: State, e: Setting, step: Step)
    requires BridgesOk(s) && step != DoCrash && s.current.Some?
    ensures var t := Apply(s, e, step);
            t.current.Some? && (t.current == s.current || t.current.value.generation > s.current.value.generation)
  {
  }

  /** Whatever is applied was accepted by validation and cached first; the configuration applied last only
      ever moves forward in the order of caching, crashes included; and a restart takes up the newest
      cached configuration, which is no older. */
  lemma {:induction false} AppliedMovesForward(s: State, e: Setting, steps: seq<Step>)
    requires Inv(s, e)
    ensures var t := Run(s, e, steps);
            && s.accepted <= t.accepted
            && (s.lastApplied.Some? ==> t.lastApplied.Some? && s.lastApplied.value <= t.lastApplied.value)
            && (t.applied.Some? ==>
                  && Acceptable(t.applied.value, e) && t.lastApplied.Some? && t.lastApplied.value < |t.accepted|
                  && t.applied.value == t.accepted[t.lastApplied.value])
    decreases |steps|
  {
    if steps != [] {
      var next := Apply(s, e, steps[0]);
      StepKeeps(s, e, steps[0]);
      AppliedStep(s, e, steps[0]);
      AppliedMovesForward(next, e, steps[1..]);
      PrefixTransitive(s.accepted, next.accepted, Run(s, e, steps).accepted);
    }
  }

  lemma AppliedStep(s: State, e: Setting, step: Step)
    requires HistoryOk(s, e) && StageOk(s)
    ensures var t := Apply(s, e, step);
            && s.accepted <= t.accepted
            && (s.lastApplied.Some? ==> t.lastApplied.Some? && s.lastApplied.value <= t.lastApplied.value)
  {
  }

  lemma PrefixTransitive(a: seq<DeviceConfiguration>, b: seq<DeviceConfiguration>, c: seq<DeviceConfiguration>)
    requires a <= b && b <= c
    ensures a <= c
  {
  }

  lemma RestartNoOlder(e: Setting, steps: seq<Step>)
    requires Run(INITIAL, e, steps).lastApplied.Some?
    ensures var s := Run(INITIAL, e, steps);
            var restarted := Apply(Apply(s, e, DoCrash), e, DoBoot(true));
            && s.lastApplied.value < |s.accepted|
            && restarted.stage == Ready(s.accepted[|s.accepted| - 1], true)
            && Acceptable(s.accepted[s.lastApplied.value], e) && Acceptable(s.accepted[|s.accepted| - 1], e)
  {
    RunKeeps(INITIAL, e, steps);
  }

  /** What the cache row holds: the configuration as text. */
  function CacheText(s: State, k: S.Codec): Option<Json> {
    if s.cache.None? then None else Some(S.SerializeConfiguration(s.cache.value, k))
  }

  type Reading = Result<DeviceConfiguration, S.Malformed>

  function ReadText(text: Option<Json>, k: S.Codec): Option<Reading> {
    if text.None? then None else Some(S.DeserializeConfiguration(text.value, k))
  }

  /** Start of the component from what was read: an unreadable or unacceptable text is as good as none. */
  function BootFromReading(s: State, e: Setting, reading: Option<Reading>, operational: bool): State {
    if s.stage != Down then s
    else if operational && reading.Some? && reading.value.Ok? && Acceptable(reading.value.value, e)
    then s.(stage := Ready(reading.value.value, true))
    else s.(stage := Idle)
  }

  /** The text of an accepted configuration reads back as that configuration. */
  lemma CacheReads(s: State, e: Setting, k: S.Codec)
    requires S.Faithful(k) && HistoryOk(s, e)
    ensures ReadText(CacheText(s, k), k) == if s.cache.None? then None else Some(Ok(s.cache.value))
  {
    if s.cache.Some? {
      S.AcceptedSurvivesCache(s.cache.value, e.deviceId, e.maxCameras, e.parse, k);
    }
  }

  lemma BootsAlike(s: State, e: Setting, reading: Option<Reading>, operational: bool)
    requires reading == if s.cache.None? then None else Some(Ok(s.cache.value))
    ensures BootFromReading(s, e, reading, operational) == Boot(s, e, operational)
  {
  }

  /** In every reachable state, starting from the text of the cache is starting from the configuration that
      was written to it. */
  lemma BootFromText(e: Setting, steps: seq<Step>, k: S.Codec, operational: bool)
    requires S.Faithful(k)
    ensures var s := Run(INITIAL, e, steps);
            BootFromReading(s, e, ReadText(CacheText(s, k), k), operational) == Boot(s, e, operational)
  {
    RunKeeps(INITIAL, e, steps);
    var s := Run(INITIAL, e, steps);
    CacheReads(s, e, k);
    BootsAlike(s, e, ReadText(CacheText(s, k), k), operational);
  }

  /** So a restart after a crash takes up the newest accepted configuration through its text, which is no
      older than the one applied last. */
  lemma RestartFromText(e: Setting, steps: seq<Step>, k: S.Codec)
    requires S.Faithful(k) && Run(INITIAL, e, steps).lastApplied.Some?
    ensures var s := Run(INITIAL, e, steps); var crashed := Apply(s, e, DoCrash);
            && s.lastApplied.value < |s.accepted|
            && BootFromReading(crashed, e, ReadText(CacheText(crashed, k), k), true).stage == Ready(s.accepted[|s.accepted| - 1], true)
  {
    RestartNoOlder(e, steps);
    RunKeeps(INITIAL, e, steps);
    var crashed := Apply(Run(INITIAL, e, steps), e, DoCrash);
    StepKeeps(Run(INITIAL, e, steps), e, DoCrash);
    CacheReads(crashed, e, k);
    BootsAlike(crashed, e, ReadText(CacheText(crashed, k), k), true);
  }

  // ---- One whole poll --------------------------------------------------------------------------

  /** A poll that is not interrupted: the steps in a row, with the given faults. */
  function Poll(s: State, e: Setting, c: DeviceConfiguration, generateOk: bool, spawnOk: bool): State {
    Launch(InstallMapping(Generate(StopOld(Fetch(s, e, c)), generateOk)), spawnOk)
  }

  /** It is the protocol's own steps: a crash between any two of them is covered by the invariant. */
  lemma PollIsRun(s: State, e: Setting, c: DeviceConfiguration, generateOk: bool, spawnOk: bool)
    ensures Run(s, e, [DoFetch(c), DoStopOld, DoGenerate(generateOk), DoInstall, DoLaunch(spawnOk)]) == Poll(s, e, c, generateOk, spawnOk)
  {
    var steps := [DoFetch(c), DoStopOld, DoGenerate(generateOk), DoInstall, DoLaunch(spawnOk)];
    var s1 := Fetch(s, e, c);
    var s2 := StopOld(s1);
    var s3 := Generate(s2, generateOk);
    var s4 := InstallMapping(s3);
    RunOne(s, e, steps);
    RunOne(s1, e, steps[1..]);
    RunOne(s2, e, steps[2..]);
    RunOne(s3, e, steps[3..]);
    RunOne(s4, e, steps[4..]);
    assert steps[4..][1..] == [];
  }

  lemma RunOne(s: State, e: Setting, steps: seq<Step>)
    requires steps != []
    ensures Run(s, e, steps) == Run(Apply(s, e, steps[0]), e, steps[1..])
  {
  }

  function Polls(s: State, e: Setting, fetched: seq<(DeviceConfiguration, bool, bool)>): State
    decreases |fetched|
  {
    if fetched == [] then s else Polls(Poll(s, e, fetched[0].0, fetched[0].1, fetched[0].2), e, fetched[1..])
  }

  /** From a state without a Bridge, an undisturbed poll starts one exactly when the fetched version is
      accepted, has cameras, and differs from the version in force. */
  lemma PollStartsIff(s: State, e: Setting, c: DeviceConfiguration)
    requires Inv(s, e) && s.stage == Idle && s.tracked == None
    ensures Poll(s, e, c, true, true).tracked.Some? <==>
              Acceptable(c, e) && c.cameras != [] && (s.applied.None? || s.applied.value.version != c.version)
  {
    NothingAlive(s);
  }

  /** So after a failed start, or after the Bridge has died by itself, polls that keep returning the version
      in force never start it again. */
  lemma {:induction false} StrandedForever(s: State, e: Setting, fetched: seq<(DeviceConfiguration, bool, bool)>)
    requires s.stage == Idle && s.tracked == None && s.applied.Some?
    requires forall i :: 0 <= i < |fetched| ==> fetched[i].0.version == s.applied.value.version
    ensures Polls(s, e, fetched) == s
    decreases |fetched|
  {
    if fetched != [] {
      assert Poll(s, e, fetched[0].0, fetched[0].1, fetched[0].2) == s;
      StrandedForever(s, e, fetched[1..]);
    }
  }

  /** A failed start leaves exactly that state: the configuration counts as in force without its Bridge. */
  lemma FailedStartStrands(s: State, e: Setting, c: DeviceConfiguration, later: seq<(DeviceConfiguration, bool, bool)>)
    requires Inv(s, e) && s.stage == Idle && Acceptable(c, e) && c.cameras != []
    requires s.applied.None? || s.applied.value.version != c.version
    requires forall i :: 0 <= i < |later| ==> later[i].0.version == c.version
    ensures var t := Poll(s, e, c, true, false);
            && t.stage == Idle && t.applied == Some(c) && t.alive == map[] && t.tracked == None
            && Polls(t, e, later) == t
  {
    var stopped := StopOld(Fetch(s, e, c));
    StepKeeps(s, e, DoFetch(c));
    StepKeeps(Fetch(s, e, c), e, DoStopOld);
    NothingAlive(stopped);
    StrandedForever(Poll(s, e, c, true, false), e, later);
  }

  /** A first configuration with one camera, fetched by an Agent that has just come up: its Bridge fails to
      start, and the state it leaves is stranded. */
  lemma StrandedInstance() returns (e: Setting, c: DeviceConfiguration, s: State)
    ensures s == Run(INITIAL, e, [DoBoot(true)]) && s.stage == Idle
    ensures Acceptable(c, e) && |c.cameras| == 1 && c.cameras[0].enabled
    ensures var t := Poll(s, e, c, true, false);
            t.applied == Some(c) && t.alive == map[] && Polls(t, e, [(c, true, true)]) == t
  {
    e := Setting(1, 4, _ => Url("rtsp", true));
    var camera := Camera(5, "gate-1", "Gate", "rtsp://gate", true, 0, OUTPUT_PATH_PREFIX + "gate-1");
    c := DeviceConfiguration(SUPPORTED_SCHEMA_VERSION, "v1", 1, 2, 0, [camera]);
    s := Apply(INITIAL, e, DoBoot(true));
    RunOne(INITIAL, e, [DoBoot(true)]);
    assert [DoBoot(true)][1..] == [];
    assert StrictKey("gate-1");
    AcceptedIff(c, 1, 4, e.parse);
    RunKeeps(INITIAL, e, [DoBoot(true)]);
    FailedStartStrands(s, e, c, [(c, true, true)]);
  }

  // ---- The components --------------------------------------------------------------------------

  /** The one tracked Bridge process; `alive` is what the operating system runs. */
  class DeepStreamProcessManager {
    var alive: map<Pid, Bridge>
    var nextPid: Pid
    var process: Option<Pid>

    constructor ()
      ensures alive == map[] && nextPid == 0 && process == None
    {
      alive, nextPid, process := map[], 0, None;
    }

    /** Refuses while one is tracked; a spawn that fails leaves nothing behind. */
    method Start(bridge: Bridge, spawnOk: bool) returns (started: bool)
      modifies this
      ensures started == (old(process) == None && spawnOk)
      ensures if started
              then alive == old(alive)[old(nextPid) := bridge] && process == Some(old(nextPid)) && nextPid == old(nextPid) + 1
              else (alive, nextPid, process) == old((alive, nextPid, process))
    {
      if process.Some? || !spawnOk {
        return false;
      }
      alive := alive[nextPid := bridge];
      process := Some(nextPid);
      nextPid := nextPid + 1;
      return true;
    }

    /** Ends the tracked process and forgets it; nothing to do when none is tracked. */
    method Stop()
      modifies this
      ensures process == None && nextPid == old(nextPid)
      ensures alive == if old(process).Some? then old(alive) - {old(process).value} else old(alive)
    {
      if process.None? {
        return;
      }
      alive := alive - {process.value};
      process := None;
    }

    /** The watcher: an exit nobody asked for is noticed and cleaned up. */
    method Watch()
      modifies this`process
      ensures process == if old(process).Some? && old(process).value !in alive then None else old(process)
    {
      if process.Some? && process.value !in alive {
        process := None;
      }
    }
  }

  class DeviceConfigurationCoordinator {
    const setting: Setting
    const tracker: SourceGenerationTracker
    const manager: DeepStreamProcessManager
    var cache: Option<DeviceConfiguration>
    var file: Option<seq<Camera>>
    var applied: Option<DeviceConfiguration>
    var bridgeRunning: bool
    ghost var stage: Stage
    ghost var accepted: seq<DeviceConfiguration>
    ghost var lastApplied: Option<nat>

    ghost function Current(): State
      reads this, tracker, manager
    {
      State(cache, file, manager.alive, manager.nextPid, manager.process, bridgeRunning, applied, tracker.nextGeneration, tracker.current,
            stage, accepted, lastApplied)
    }

    constructor (setting: Setting, tracker: SourceGenerationTracker, manager: DeepStreamProcessManager)
      requires tracker.nextGeneration == 1 && tracker.current == None
      requires manager.alive == map[] && manager.nextPid == 0 && manager.process == None
      ensures this.setting == setting && this.tracker == tracker && this.manager == manager && Current() == INITIAL
    {
      this.setting, this.tracker, this.manager := setting, tracker, manager;
      cache, file, applied, bridgeRunning := None, None, None, false;
      stage, accepted, lastApplied := Down, [], None;
    }

    /** The synchronous half of applying: the file first, then the mapping, then the record of it. */
    method ApplyConfiguration(c: DeviceConfiguration, generateOk: bool) returns (done: bool)
      requires stage.Ready? && stage.c == c
      modifies this`file, this`applied, this`stage, this`lastApplied, tracker
      ensures done == generateOk
      ensures Current() == InstallMapping(Generate(old(Current()), generateOk))
    {
      ghost var booting := stage.booting;
      if !generateOk {
        stage := if booting then Down else Idle;
        return false;
      }
      file := Some(c.cameras);
      var _ := tracker.Install(c.cameras);
      applied := Some(c);
      lastApplied := if accepted == [] then None else Some(|accepted| - 1);
      stage := Installed(c, booting);
      return true;
    }

    method StartBridge(c: DeviceConfiguration, spawnOk: bool) returns (ok: bool)
      requires stage.Installed? && stage.c == c && file.Some? && tracker.current.Some?
      modifies this`bridgeRunning, this`stage, manager
      ensures Current() == Launch(old(Current()), spawnOk)
    {
      ghost var booting := stage.booting;
      if c.cameras == [] {
        stage := Idle;
        return true;
      }
      ok := manager.Start(Bridge(file.value, tracker.current.value.generation), spawnOk);
      if ok {
        bridgeRunning := true;
        stage := Idle;
      } else {
        stage := if booting then Down else Idle;
      }
    }

    /** One fetch, validate, cache and apply cycle. */
    method PollOnce(fetched: DeviceConfiguration, generateOk: bool, spawnOk: bool)
      requires stage == Idle
      modifies this, tracker, manager
      ensures Current() == Poll(old(Current()), setting, fetched, generateOk, spawnOk)
    {
      var problem := ValidateConfiguration(fetched, setting.deviceId, setting.maxCameras, setting.parse);
      if problem.Some? {
        return;
      }
      if applied.Some? && applied.value.version == fetched.version {
        return;
      }
      cache := Some(fetched);
      accepted := accepted + [fetched];
      if bridgeRunning {
        manager.Stop();
        bridgeRunning := false;
      }
      stage := Ready(fetched, false);
      var done := ApplyConfiguration(fetched, generateOk);
      if done {
        var _ := StartBridge(fetched, spawnOk);
      }
    }

    /** Applies the cached configuration, if there is one and it still passes. */
    method LoadAndApplyCache(operational: bool, generateOk: bool, spawnOk: bool)
      requires stage == Down
      modifies this, tracker, manager
      ensures Current() == Launch(InstallMapping(Generate(Boot(old(Current()), setting, operational), generateOk)), spawnOk)
    {
      if !operational || cache.None? {
        stage := Idle;
        return;
      }
      var problem := ValidateConfiguration(cache.value, setting.deviceId, setting.maxCameras, setting.parse);
      if problem.Some? {
        stage := Idle;
        return;
      }
      stage := Ready(cache.value, true);
      var done := ApplyConfiguration(cache.value, generateOk);
      if done {
        var _ := StartBridge(cache.value, spawnOk);
      }
    }

    method Stop()
      modifies this`bridgeRunning, this`stage, manager
      ensures Current() == StopComponent(old(Current()))
    {
      if bridgeRunning {
        manager.Stop();
        bridgeRunning := false;
      }
      stage := Down;
    }

    /** The camera a reported source stands for in the generation in force: while a Bridge is alive, the
        one it read. */
    method ResolveCameraId(sourceId: int) returns (camera: Option<nat>)
      ensures Inv(Current(), setting) ==> forall p :: p in manager.alive ==> AnswersFor(manager.alive[p].cameras, sourceId, camera)
      ensures camera == if tracker.current.None? then None else tracker.current.value.Resolve(sourceId)
    {
      if Inv(Current(), setting) {
        forall p | p in manager.alive
          ensures tracker.current.Some? && AnswersFor(manager.alive[p].cameras, sourceId, tracker.current.value.Resolve(sourceId))
        {
          ResolvesInState(Current(), setting, p, sourceId);
        }
      }
      if tracker.current.None? {
        return None;
      }
      return tracker.current.value.Resolve(sourceId);
    }
  }
}
