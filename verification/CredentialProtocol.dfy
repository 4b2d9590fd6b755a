/**
 The credential protocol between the Backend and one Agent as a transition system.  The Backend may
 provision devices, regenerate keys and process activation requests at any time, whoever sent them and
 however late; a reply reaches the Agent only while it still waits for it.  A crash or a shutdown can
 come between any two steps and leaves the stored identity, the key file and the Backend.
 */
module CredentialProtocol {
  import opened Common
  import opened Credentials

  /** The Agent process; a `Replied` stage holds an answer that has not been acted on yet. */
  datatype Stage =
    | Stopped
    | Activating(resolved: ResolvedKey)
    | ActivationReplied(resolved: ResolvedKey, reply: ActivationReply)
    | Cleaning
    | StartupValidating(deviceId: DeviceId, secret: Secret)
    | StartupReplied(deviceId: DeviceId, secret: Secret, verdict: Verdict)
    | Operating
    | Polling(deviceId: DeviceId, secret: Secret)
    | PollReplied(deviceId: DeviceId, secret: Secret, verdict: Verdict)
    | Locked
    | Failed

  /** `issued` and `owner` are history: the device each secret was ever issued for, and the record each
      device id was ever given to. */
  datatype State = State(
    backend: Backend,
    issued: map<Secret, DeviceId>,
    owner: map<DeviceId, RecordId>,
    identity: Option<Identity>,
    environmentKey: Option<KeyId>,
    fileKey: Option<KeyId>,
    stage: Stage)

  const INITIAL := State(Backend(map[], map[]), map[], map[], None, None, None, Stopped)

  datatype Step =
    | ProvisionDevice(record: RecordId, key: KeyId)
    | RegenerateKey(record: RecordId, key: KeyId)
    | BackendActivates(key: KeyId, keySecretOk: bool, secret: Secret, newId: DeviceId, delivered: bool)
    | BackendValidates(storageReadable: bool)
    | RequestTimesOut
    | OperatorSetsKeys(environment: Option<KeyId>, file: Option<KeyId>)
    | Start
    | HandleActivation(storageOk: bool)
    | CleanKey(deletionOk: bool)
    | HandleStartupVerdict(storageOk: bool)
    | StartPoll
    | HandlePollVerdict(storageOk: bool)
    | CrashOrShutdown

  function Resolve(s: State): Option<ResolvedKey> {
    if s.environmentKey.Some? then Some(ResolvedKey(s.environmentKey.value, FromEnvironment))
    else if s.fileKey.Some? then Some(ResolvedKey(s.fileKey.value, FromFile))
    else None
  }

  /** Random values are fresh: a secret or a device id is never drawn twice. */
  function ActivateOnBackend(s: State, key: KeyId, keySecretOk: bool, secret: Secret, newId: DeviceId, delivered: bool): State {
    if secret in s.issued || newId in s.owner then s
    else
      var (b, reply) := Activate(s.backend, key, keySecretOk, secret, newId);
      var granted := if reply.Granted? && key in s.backend.keys then
          s.(backend := b, issued := s.issued[reply.secret := reply.deviceId],
             owner := if reply.deviceId in s.owner then s.owner else s.owner[reply.deviceId := s.backend.keys[key].record])
        else s;
      if delivered && s.stage.Activating? && s.stage.resolved.key == key then
        granted.(stage := ActivationReplied(s.stage.resolved, reply))
      else granted
  }

  ghost function ValidateOnBackend(s: State, storageReadable: bool): State {
    match s.stage
    case StartupValidating(d, x) => s.(stage := StartupReplied(d, x, Validate(s.backend, d, x, storageReadable)))
    case Polling(d, x) => s.(stage := PollReplied(d, x, Validate(s.backend, d, x, storageReadable)))
    case _ => s
  }

  /** A lost activation reply ends the start-up; a lost validation reply is indeterminate. */
  function TimeOut(s: State): State {
    match s.stage
    case Activating(_) => s.(stage := Failed)
    case StartupValidating(d, x) => s.(stage := StartupReplied(d, x, Indeterminate))
    case Polling(d, x) => s.(stage := PollReplied(d, x, Indeterminate))
    case _ => s
  }

  /** The start-up decision tree. */
  function StartUp(s: State): State {
    if s.stage != Stopped then s
    else if Resolve(s).Some? then s.(stage := Activating(Resolve(s).value))
    else if s.identity.None? then s.(stage := Failed)
    else if !s.identity.value.operational then s.(stage := Locked)
    else if s.identity.value.secret.None? then s.(stage := Failed)
    else s.(stage := StartupValidating(s.identity.value.deviceId, s.identity.value.secret.value))
  }

  function AcceptReply(s: State, storageOk: bool): State {
    match s.stage
    case ActivationReplied(resolved, reply) =>
      var (row, outcome) := Accept(s.identity, Answered(reply), storageOk);
      s.(identity := row,
         stage := if !(outcome.FirstActivation? || outcome.Reactivation?) then Failed
                  else if resolved.source == FromFile then Cleaning else Operating)
    case _ => s
  }

  function RemoveKeyFile(s: State, deletionOk: bool): State {
    if s.stage != Cleaning then s
    else if deletionOk then s.(fileKey := None, stage := Operating)
    else s.(stage := Failed)
  }

  /** A confirmed rejection is locked durably before anything else; if that fails the Agent fails closed. */
  function ActOnVerdict(s: State, verdict: Verdict, storageOk: bool): State {
    var (row, attempt) := AttemptOutcome(s.identity, (d, x) => verdict, storageOk);
    s.(identity := row,
       stage := match attempt
                case KeepPolling => Operating
                case StopReactivationRequired => Locked
                case NoUsableIdentity => Failed
                case LockNotPersisted => Failed)
  }

  function NextPoll(s: State): State {
    if s.stage != Operating then s
    else if s.identity.None? then s.(stage := Failed)
    else if !s.identity.value.operational then s.(stage := Locked)
    else if s.identity.value.secret.None? then s.(stage := Failed)
    else s.(stage := Polling(s.identity.value.deviceId, s.identity.value.secret.value))
  }

  ghost function Apply(s: State, step: Step): State {
    match step
    case ProvisionDevice(r, k) => s.(backend := Provision(s.backend, r, k))
    case RegenerateKey(r, k) => s.(backend := Regenerate(s.backend, r, k))
    case BackendActivates(k, ok, x, newId, delivered) => ActivateOnBackend(s, k, ok, x, newId, delivered)
    case BackendValidates(readable) => ValidateOnBackend(s, readable)
    case RequestTimesOut => TimeOut(s)
    case OperatorSetsKeys(env, file) => if s.stage == Stopped then s.(environmentKey := env, fileKey := file) else s
    case Start => StartUp(s)
    case HandleActivation(ok) => AcceptReply(s, ok)
    case CleanKey(ok) => RemoveKeyFile(s, ok)
    case HandleStartupVerdict(ok) => if s.stage.StartupReplied? then ActOnVerdict(s, s.stage.verdict, ok) else s
    case StartPoll => NextPoll(s)
    case HandlePollVerdict(ok) => if s.stage.PollReplied? then ActOnVerdict(s, s.stage.verdict, ok) else s
    case CrashOrShutdown => s.(stage := Stopped)
  }

  ghost function Run(s: State, steps: seq<Step>): State
    decreases |steps|
  {
    if steps == [] then s else Run(Apply(s, steps[0]), steps[1..])
  }

  // ---- The invariant ---------------------------------------------------------------------------

  /** No device holds this secret. */
  ghost predicate Dead(b: Backend, x: Secret) {
    forall r :: r in b.devices ==> b.devices[r].secret != Some(x)
  }

  ghost predicate DeviceOk(s: State, r: RecordId, d: DeviceRow) {
    && (d.secret.Some? <==> d.status == Activated)
    && (d.deviceId.None? <==> d.status == Unactivated)
    && (d.deviceId.Some? ==> d.deviceId.value in s.owner && s.owner[d.deviceId.value] == r)
    && (d.secret.Some? ==>
          && d.secret.value in s.issued && d.deviceId == Some(s.issued[d.secret.value])
          && UsableSecret(d.secret.value))
  }

  ghost predicate OwnersOk(s: State) {
    && (forall i :: i in s.owner ==> s.owner[i] in s.backend.devices && s.backend.devices[s.owner[i]].deviceId == Some(i))
    && (forall x :: x in s.issued ==> s.issued[x] in s.owner && UsableSecret(x))
  }

  /** Two keys of the same device that are both still unconsumed. */
  predicate UnusedFor(b: Backend, k: KeyId, l: KeyId) {
    && k in b.keys && l in b.keys && b.keys[k].record == b.keys[l].record
    && b.keys[k].status == Unconsumed && b.keys[l].status == Unconsumed
  }

  ghost predicate KeysOk(b: Backend) {
    && (forall k :: k in b.keys ==> b.keys[k].record in b.devices)
    && (forall k, l :: UnusedFor(b, k, l) ==> k == l)
  }

  ghost predicate IdentityOk(s: State) {
    s.identity.Some? ==>
      && Consistent(s.identity.value)
      && s.identity.value.deviceId in s.owner
      && (s.identity.value.secret.Some? ==>
            s.identity.value.secret.value in s.issued && s.issued[s.identity.value.secret.value] == s.identity.value.deviceId)
  }

  ghost predicate Presents(s: State, d: DeviceId, x: Secret) {
    s.identity == Some(Identity(d, Some(x), true))
  }

  /** A granted secret belongs to its device, and whatever secret is stored for that device is spent. */
  ghost predicate GrantOk(s: State, reply: ActivationReply) {
    reply.Granted? ==>
      && reply.secret in s.issued && s.issued[reply.secret] == reply.deviceId
      && (s.identity.Some? && s.identity.value.deviceId == reply.deviceId && s.identity.value.secret.Some? ==>
            Dead(s.backend, s.identity.value.secret.value))
  }

  ghost predicate StageOk(s: State) {
    match s.stage
    case StartupValidating(d, x) => Presents(s, d, x)
    case StartupReplied(d, x, v) => Presents(s, d, x) && (v == ConfirmedRejected ==> Dead(s.backend, x))
    case Polling(d, x) => Presents(s, d, x)
    case PollReplied(d, x, v) => Presents(s, d, x) && (v == ConfirmedRejected ==> Dead(s.backend, x))
    case ActivationReplied(_, reply) => GrantOk(s, reply)
    case _ => true
  }

  ghost predicate DevicesOk(s: State) {
    forall r :: r in s.backend.devices ==> DeviceOk(s, r, s.backend.devices[r])
  }

  ghost predicate Inv(s: State) {
    DevicesOk(s) && OwnersOk(s) && KeysOk(s.backend) && IdentityOk(s) && StageOk(s)
  }

  // ---- The Backend's own steps -----------------------------------------------------------------

  /** A secret is held only by the device it was issued for. */
  lemma HolderIsOwner(s: State, r: RecordId, x: Secret)
    requires DevicesOk(s) && r in s.backend.devices && s.backend.devices[r].secret == Some(x)
    ensures x in s.issued && s.issued[x] in s.owner && s.owner[s.issued[x]] == r
  {
    assert DeviceOk(s, r, s.backend.devices[r]);
  }

  /** A rejection means that the presented secret is held by no device at all. */
  lemma RejectionMeansDead(s: State, d: DeviceId, x: Secret, readable: bool)
    requires Inv(s) && x in s.issued && s.issued[x] == d
    ensures Validate(s.backend, d, x, readable) == ConfirmedRejected ==> Dead(s.backend, x)
  {
    if r :| r in s.backend.devices && s.backend.devices[r].secret == Some(x) {
      HolderIsOwner(s, r, x);
      assert DeviceOk(s, r, s.backend.devices[r]);
      forall q | q in s.backend.devices && s.backend.devices[q].deviceId == Some(d)
        ensures q == r
      {
        assert DeviceOk(s, q, s.backend.devices[q]);
      }
      assert CanAuthenticate(s.backend.devices[r]);
    }
  }

  /** No device holds a secret that it did not hold before. */
  ghost predicate NoNewSecret(now: Backend, before: Backend) {
    forall r :: r in now.devices && now.devices[r].secret.Some? ==>
      r in before.devices && before.devices[r].secret == now.devices[r].secret
  }

  lemma StageFrame(s: State, s': State)
    requires StageOk(s) && NoNewSecret(s'.backend, s.backend)
    requires s'.stage == s.stage && s'.identity == s.identity && s'.issued == s.issued
    ensures StageOk(s')
  {
    forall x | Dead(s.backend, x)
      ensures Dead(s'.backend, x)
    {
    }
  }

  lemma ProvisionKeeps(s: State, r: RecordId, k: KeyId)
    requires Inv(s)
    ensures Inv(Apply(s, ProvisionDevice(r, k)))
    ensures NoNewSecret(Apply(s, ProvisionDevice(r, k)).backend, s.backend)
  {
    var s' := Apply(s, ProvisionDevice(r, k));
    forall q | q in s'.backend.devices
      ensures DeviceOk(s', q, s'.backend.devices[q])
    {
      if q in s.backend.devices {
        assert DeviceOk(s, q, s.backend.devices[q]);
      }
    }
    ProvisionKeepsKeys(s.backend, r, k);
    StageFrame(s, s');
  }

  lemma ProvisionKeepsKeys(b: Backend, r: RecordId, k: KeyId)
    requires KeysOk(b)
    ensures KeysOk(Provision(b, r, k))
  {
    forall i, j | UnusedFor(Provision(b, r, k), i, j)
      ensures i == j
    {
      assert i != k && j != k && r !in b.devices ==> UnusedFor(b, i, j);
      assert r in b.devices ==> UnusedFor(b, i, j);
    }
  }

  lemma RegenerateKeepsKeys(b: Backend, r: RecordId, k: KeyId)
    requires KeysOk(b)
    ensures KeysOk(Regenerate(b, r, k))
  {
    forall i, j | UnusedFor(Regenerate(b, r, k), i, j)
      ensures i == j
    {
      if r !in b.devices || k in b.keys || (i != k && j != k) {
        assert UnusedFor(b, i, j);
      }
    }
  }

  lemma RegenerateKeeps(s: State, r: RecordId, k: KeyId)
    requires Inv(s)
    ensures Inv(Apply(s, RegenerateKey(r, k)))
    ensures NoNewSecret(Apply(s, RegenerateKey(r, k)).backend, s.backend)
  {
    var s' := Apply(s, RegenerateKey(r, k));
    forall q | q in s'.backend.devices
      ensures DeviceOk(s', q, s'.backend.devices[q])
    {
      assert DeviceOk(s, q, s.backend.devices[q]);
    }
    RegenerateKeepsKeys(s.backend, r, k);
    StageFrame(s, s');
  }

  ghost predicate Grants(s: State, k: KeyId, x: Secret, newId: DeviceId) {
    && k in s.backend.keys && s.backend.keys[k].status == Unconsumed && s.backend.keys[k].record in s.backend.devices
    && x !in s.issued && newId !in s.owner && UsableSecret(x)
  }

  /** A state that differs from `s` by one device row and by longer histories. */
  ghost predicate Extended(s': State, s: State, r: RecordId, row: DeviceRow, x: Secret) {
    && s'.backend.devices == s.backend.devices[r := row] && row.deviceId.Some? && row.secret == Some(x) && row.status == Activated
    && s'.issued == s.issued[x := row.deviceId.value]
    && s'.owner == (if row.deviceId.value in s.owner then s.owner else s.owner[row.deviceId.value := r])
    && s'.identity == s.identity
  }

  lemma GrantExtends(s: State, k: KeyId, x: Secret, newId: DeviceId, delivered: bool)
    requires Grants(s, k, x, newId)
    ensures var r := s.backend.keys[k].record;
            Extended(ActivateOnBackend(s, k, true, x, newId, delivered), s, r, ActivateRow(s.backend.devices[r], x, newId), x)
  {
  }

  lemma ExtendedKeepsDevices(s: State, s': State, r: RecordId, row: DeviceRow, x: Secret)
    requires DevicesOk(s) && x !in s.issued && UsableSecret(x) && Extended(s', s, r, row, x)
    requires row.deviceId.value in s.owner ==> s.owner[row.deviceId.value] == r
    ensures DevicesOk(s')
  {
    forall q | q in s'.backend.devices
      ensures DeviceOk(s', q, s'.backend.devices[q])
    {
      if q != r {
        assert DeviceOk(s, q, s.backend.devices[q]);
      }
    }
  }

  lemma ExtendedKeepsOwners(s: State, s': State, r: RecordId, row: DeviceRow, x: Secret)
    requires OwnersOk(s) && IdentityOk(s) && x !in s.issued && UsableSecret(x) && Extended(s', s, r, row, x)
    requires r in s.backend.devices && (s.backend.devices[r].deviceId.Some? ==> s.backend.devices[r].deviceId == row.deviceId)
    requires row.deviceId.value in s.owner ==> s.owner[row.deviceId.value] == r
    ensures OwnersOk(s') && IdentityOk(s')
  {
  }

  /** What a granted activation does to the Backend, as seen from the history variables. */
  lemma GrantKeeps(s: State, k: KeyId, x: Secret, newId: DeviceId, delivered: bool)
    requires Inv(s) && Grants(s, k, x, newId)
    ensures var s' := ActivateOnBackend(s, k, true, x, newId, delivered);
            DevicesOk(s') && OwnersOk(s') && KeysOk(s'.backend) && IdentityOk(s')
  {
    var s' := ActivateOnBackend(s, k, true, x, newId, delivered);
    var r := s.backend.keys[k].record;
    var row := ActivateRow(s.backend.devices[r], x, newId);
    assert DeviceOk(s, r, s.backend.devices[r]);
    GrantExtends(s, k, x, newId, delivered);
    ExtendedKeepsDevices(s, s', r, row, x);
    ExtendedKeepsOwners(s, s', r, row, x);
    GrantKeepsKeys(s.backend, k, x, newId);
  }

  lemma GrantKeepsKeys(b: Backend, k: KeyId, x: Secret, newId: DeviceId)
    requires KeysOk(b)
    ensures KeysOk(Activate(b, k, true, x, newId).0)
  {
    var b' := Activate(b, k, true, x, newId).0;
    forall i, j | UnusedFor(b', i, j)
      ensures i == j
    {
      assert UnusedFor(b, i, j);
    }
  }

  /** A spent secret is not the one a grant draws, so it stays spent. */
  lemma GrantKeepsDead(s: State, k: KeyId, ok: bool, x: Secret, newId: DeviceId, delivered: bool, y: Secret)
    requires Dead(s.backend, y) && y in s.issued
    ensures var s' := ActivateOnBackend(s, k, ok, x, newId, delivered); Dead(s'.backend, y) && y in s'.issued
  {
  }

  /** The device's former secret is spent by the grant. */
  lemma GrantSpends(s: State, k: KeyId, x: Secret, newId: DeviceId, old': Secret)
    requires Inv(s) && Grants(s, k, x, newId)
    requires var d := ActivateRow(s.backend.devices[s.backend.keys[k].record], x, newId).deviceId.value;
             old' in s.issued && s.issued[old'] == d
    ensures Dead(Activate(s.backend, k, true, x, newId).0, old')
  {
    var r := s.backend.keys[k].record;
    var b := Activate(s.backend, k, true, x, newId).0;
    assert DeviceOk(s, r, s.backend.devices[r]);
    forall q | q in b.devices
      ensures b.devices[q].secret != Some(old')
    {
      if q != r && s.backend.devices[q].secret == Some(old') {
        HolderIsOwner(s, q, old');
      }
    }
  }

  lemma ActivateKeeps(s: State, k: KeyId, ok: bool, x: Secret, newId: DeviceId, delivered: bool)
    requires Inv(s)
    ensures Inv(Apply(s, BackendActivates(k, ok, x, newId, delivered)))
  {
    if ok && Grants(s, k, x, newId) {
      GrantKeeps(s, k, x, newId, delivered);
      GrantKeepsStage(s, k, x, newId, delivered);
    }
  }

  lemma GrantKeepsStage(s: State, k: KeyId, x: Secret, newId: DeviceId, delivered: bool)
    requires Inv(s) && Grants(s, k, x, newId)
    ensures StageOk(ActivateOnBackend(s, k, true, x, newId, delivered))
  {
    var s' := ActivateOnBackend(s, k, true, x, newId, delivered);
    if s.identity.Some? && s.identity.value.secret.Some? {
      var y := s.identity.value.secret.value;
      if Dead(s.backend, y) {
        GrantKeepsDead(s, k, true, x, newId, delivered, y);
      }
      if s'.stage != s.stage && s.identity.value.deviceId == s'.stage.reply.deviceId {
        GrantSpends(s, k, x, newId, y);
      }
    }
  }

  lemma ValidateKeeps(s: State, readable: bool)
    requires Inv(s)
    ensures Inv(Apply(s, BackendValidates(readable)))
  {
    if s.stage.StartupValidating? || s.stage.Polling? {
      RejectionMeansDead(s, s.stage.deviceId, s.stage.secret, readable);
    }
  }

  predicate OnAgent(step: Step) {
    !step.ProvisionDevice? && !step.RegenerateKey? && !step.BackendActivates? && !step.BackendValidates?
  }

  /** The Agent's own steps change the identity only by accepting a grant or by locking. */
  lemma AgentStepKeeps(s: State, step: Step)
    requires Inv(s) && OnAgent(step)
    ensures Inv(Apply(s, step))
  {
    SharedFrame(s, Apply(s, step));
    IdentityStep(s, step);
    StageStep(s, step);
  }

  lemma SharedFrame(s: State, s': State)
    requires DevicesOk(s) && s'.backend == s.backend && s'.issued == s.issued && s'.owner == s.owner
    ensures DevicesOk(s')
  {
    forall r | r in s'.backend.devices
      ensures DeviceOk(s', r, s'.backend.devices[r])
    {
      assert DeviceOk(s, r, s.backend.devices[r]);
    }
  }

  lemma IdentityStep(s: State, step: Step)
    requires OwnersOk(s) && IdentityOk(s) && StageOk(s) && OnAgent(step)
    ensures IdentityOk(Apply(s, step)) && Preserves(Apply(s, step).identity, s.identity)
  {
  }

  lemma StageStep(s: State, step: Step)
    requires IdentityOk(s) && StageOk(s) && OnAgent(step)
    ensures StageOk(Apply(s, step))
  {
  }

  lemma StepKeeps(s: State, step: Step)
    requires Inv(s)
    ensures Inv(Apply(s, step))
  {
    match step
    case ProvisionDevice(r, k) => ProvisionKeeps(s, r, k);
    case RegenerateKey(r, k) => RegenerateKeeps(s, r, k);
    case BackendActivates(k, ok, x, newId, delivered) => ActivateKeeps(s, k, ok, x, newId, delivered);
    case BackendValidates(readable) => ValidateKeeps(s, readable);
    case _ => AgentStepKeeps(s, step);
  }

  lemma {:induction false} RunKeeps(s: State, steps: seq<Step>)
    requires Inv(s)
    ensures Inv(Run(s, steps))
    decreases |steps|
  {
    if steps != [] {
      StepKeeps(s, steps[0]);
      RunKeeps(Apply(s, steps[0]), steps[1..]);
    }
  }

  // ---- What holds over every run ---------------------------------------------------------------

  lemma DeadStep(s: State, step: Step, x: Secret)
    requires Inv(s) && x in s.issued && Dead(s.backend, x)
    ensures x in Apply(s, step).issued && Dead(Apply(s, step).backend, x)
  {
    match step
    case ProvisionDevice(r, k) => ProvisionKeeps(s, r, k);
    case RegenerateKey(r, k) => RegenerateKeeps(s, r, k);
    case BackendActivates(k, ok, y, newId, delivered) => GrantKeepsDead(s, k, ok, y, newId, delivered, x);
    case _ =>
  }

  /** A spent secret stays spent, whatever happens afterwards. */
  lemma {:induction false} DeadForever(s: State, steps: seq<Step>, x: Secret)
    requires Inv(s) && x in s.issued && Dead(s.backend, x)
    ensures x in Run(s, steps).issued && Dead(Run(s, steps).backend, x)
    decreases |steps|
  {
    if steps != [] {
      StepKeeps(s, steps[0]);
      DeadStep(s, steps[0], x);
      DeadForever(Apply(s, steps[0]), steps[1..], x);
    }
  }

  /** Whenever a step makes the Agent drop a stored secret, by erasing or by replacing it, no device holds
      that secret at that moment. */
  lemma DroppedSecretIsDead(s: State, step: Step)
    requires Inv(s) && s.identity.Some? && s.identity.value.secret.Some?
    requires Apply(s, step).identity != s.identity
    ensures s.identity.value.secret.value in Apply(s, step).issued
    ensures Dead(Apply(s, step).backend, s.identity.value.secret.value)
  {
  }

  /** The Agent never locks itself out of valid credentials: over every run, a secret it drops is not one
      the Backend would accept, neither then nor ever after. */
  lemma NeverDropsValidSecret(before: seq<Step>, step: Step, after: seq<Step>, d: DeviceId, readable: bool)
    requires var s := Run(INITIAL, before);
             s.identity.Some? && s.identity.value.secret.Some? && Apply(s, step).identity != s.identity
    ensures var s := Run(INITIAL, before);
            var x := s.identity.value.secret.value;
            !IsCurrent(Run(Apply(s, step), after).backend, d, x)
            && Validate(Run(Apply(s, step), after).backend, d, x, readable) != Valid
  {
    RunKeeps(INITIAL, before);
    DroppedForever(Run(INITIAL, before), step, after, d, readable);
  }

  lemma DroppedForever(s: State, step: Step, after: seq<Step>, d: DeviceId, readable: bool)
    requires Inv(s) && s.identity.Some? && s.identity.value.secret.Some? && Apply(s, step).identity != s.identity
    ensures var x := s.identity.value.secret.value;
            var end := Run(Apply(s, step), after).backend;
            !IsCurrent(end, d, x) && Validate(end, d, x, readable) != Valid
  {
    var x := s.identity.value.secret.value;
    StepKeeps(s, step);
    DroppedSecretIsDead(s, step);
    DeadForever(Apply(s, step), after, x);
  }

  /** Once stored, the device id never changes, and the row is never lost. */
  lemma {:induction false} DeviceIdPermanent(s: State, steps: seq<Step>)
    requires Inv(s) && s.identity.Some?
    ensures Run(s, steps).identity.Some? && Run(s, steps).identity.value.deviceId == s.identity.value.deviceId
    decreases |steps|
  {
    if steps != [] {
      StepKeeps(s, steps[0]);
      IdentityNeverLost(s, steps[0]);
      DeviceIdPermanent(Apply(s, steps[0]), steps[1..]);
    }
  }

  lemma IdentityNeverLost(s: State, step: Step)
    requires Inv(s)
    ensures Preserves(Apply(s, step).identity, s.identity)
  {
    if OnAgent(step) {
      IdentityStep(s, step);
    }
  }

  /** In every reachable state a secret is stored exactly when the identity is operational, the stored
      secret was issued for the stored device id, a presented secret is the stored one, and each device
      has at most one unconsumed key. */
  lemma ReachableCredentials(steps: seq<Step>, k: KeyId, l: KeyId)
    ensures var s := Run(INITIAL, steps);
            && (s.identity.Some? ==> (s.identity.value.operational <==> s.identity.value.secret.Some?))
            && (s.identity.Some? && s.identity.value.secret.Some? ==>
                  s.identity.value.secret.value in s.issued && s.issued[s.identity.value.secret.value] == s.identity.value.deviceId)
            && (s.stage.Polling? || s.stage.StartupValidating? ==> Presents(s, s.stage.deviceId, s.stage.secret))
            && (UnusedFor(s.backend, k, l) ==> k == l)
  {
    RunKeeps(INITIAL, steps);
  }

  // ---- Losing a reply, and recovering from it --------------------------------------------------

  predicate Spent(b: Backend, k: KeyId) {
    k in b.keys && b.keys[k].status != Unconsumed
  }

  /** A key that is not unconsumed never becomes so again. */
  lemma {:induction false} SpentForever(s: State, steps: seq<Step>, k: KeyId)
    requires Spent(s.backend, k)
    ensures Spent(Run(s, steps).backend, k)
    decreases |steps|
  {
    if steps != [] {
      SpentStep(s, steps[0], k);
      SpentForever(Apply(s, steps[0]), steps[1..], k);
    }
  }

  lemma SpentStep(s: State, step: Step, k: KeyId)
    requires Spent(s.backend, k)
    ensures Spent(Apply(s, step).backend, k)
  {
  }

  /** An activation whose reply is lost consumes the key all the same: whatever happens afterwards,
      presenting it again is refused. */
  lemma LostReplyConsumesKey(s: State, k: KeyId, x: Secret, newId: DeviceId, after: seq<Step>, ok: bool, y: Secret, otherId: DeviceId)
    requires Grants(s, k, x, newId)
    ensures var b := Run(Apply(s, BackendActivates(k, true, x, newId, false)), after).backend;
            Spent(b, k) && Activate(b, k, ok, y, otherId) == (b, Refused)
  {
    SpentForever(Apply(s, BackendActivates(k, true, x, newId, false)), after, k);
  }

  /** The operator's recovery: a fresh key in the file, a restart, one activation that gets through. */
  function Recovery(r: RecordId, k: KeyId, x: Secret, newId: DeviceId): seq<Step> {
    [CrashOrShutdown, RegenerateKey(r, k), OperatorSetsKeys(None, Some(k)), Start] + Answer(k, x, newId)
  }

  function Answer(k: KeyId, x: Secret, newId: DeviceId): seq<Step> {
    [BackendActivates(k, true, x, newId, true), HandleActivation(true), CleanKey(true)]
  }

  /** From every reachable state, the recovery for a device record makes the Agent operate with that
      device's current credentials if the Agent has no identity yet or the record is its own; otherwise
      the grant is refused as a mismatch and the stored identity is untouched. */
  lemma RecoveryIff(s: State, r: RecordId, k: KeyId, x: Secret, newId: DeviceId)
    requires Inv(s) && r in s.backend.devices && k !in s.backend.keys
    requires x !in s.issued && newId !in s.owner && UsableSecret(x)
    ensures var own := s.identity.None? || s.backend.devices[r].deviceId == Some(s.identity.value.deviceId);
            var after := Run(s, Recovery(r, k, x, newId));
            && (own ==>
                  && after.stage == Operating && after.fileKey == None
                  && after.identity.Some? && after.identity.value.secret == Some(x)
                  && IsCurrent(after.backend, after.identity.value.deviceId, x))
            && (!own ==> after.stage == Failed && after.identity == s.identity)
  {
    RecoveryRestarts(s, r, k);
    RunRestart(s, r, k, Answer(k, x, newId));
    var t := Restarted(s, r, k);
    RunAnswer(t, k, x, newId);
    RecoveryActivates(t, r, k, x, newId);
  }

  lemma RunRestart(s: State, r: RecordId, k: KeyId, rest: seq<Step>)
    requires Inv(s) && r in s.backend.devices && k !in s.backend.keys
    ensures Run(s, [CrashOrShutdown, RegenerateKey(r, k), OperatorSetsKeys(None, Some(k)), Start] + rest) == Run(Restarted(s, r, k), rest)
  {
    var steps := [CrashOrShutdown, RegenerateKey(r, k), OperatorSetsKeys(None, Some(k)), Start] + rest;
    RecoveryRestarts(s, r, k);
    RunFour(s, steps);
    assert steps[4..] == rest;
  }

  lemma RunFour(s: State, steps: seq<Step>)
    requires |steps| >= 4
    ensures Run(s, steps) == Run(Apply(Apply(Apply(Apply(s, steps[0]), steps[1]), steps[2]), steps[3]), steps[4..])
  {
    var t := Apply(Apply(s, steps[0]), steps[1]);
    assert steps[1..][1..] == steps[2..] && steps[2..][1..] == steps[3..] && steps[3..][1..] == steps[4..];
    RunOne(s, steps);
    RunOne(Apply(s, steps[0]), steps[1..]);
    RunOne(t, steps[2..]);
    RunOne(Apply(t, steps[2]), steps[3..]);
  }

  lemma RunAnswer(s: State, k: KeyId, x: Secret, newId: DeviceId)
    ensures Run(s, Answer(k, x, newId)) == RemoveKeyFile(AcceptReply(ActivateOnBackend(s, k, true, x, newId, true), true), true)
  {
    var steps := Answer(k, x, newId);
    var t := ActivateOnBackend(s, k, true, x, newId, true);
    var u := AcceptReply(t, true);
    RunOne(s, steps);
    RunOne(t, steps[1..]);
    RunOne(u, steps[2..]);
    assert steps[2..][1..] == [];
  }

  /** The state in which the recovery's activation request is waiting for its answer. */
  function Restarted(s: State, r: RecordId, k: KeyId): State {
    s.(backend := Regenerate(s.backend, r, k), environmentKey := None, fileKey := Some(k), stage := Activating(ResolvedKey(k, FromFile)))
  }

  lemma RecoveryRestarts(s: State, r: RecordId, k: KeyId)
    requires Inv(s) && r in s.backend.devices && k !in s.backend.keys
    ensures Apply(Apply(Apply(Apply(s, CrashOrShutdown), RegenerateKey(r, k)), OperatorSetsKeys(None, Some(k))), Start) == Restarted(s, r, k)
    ensures DevicesOk(Restarted(s, r, k)) && OwnersOk(Restarted(s, r, k)) && IdentityOk(Restarted(s, r, k))
    ensures Restarted(s, r, k).backend.keys[k] == KeyRow(r, Unconsumed)
    ensures r in Restarted(s, r, k).backend.devices
    ensures Restarted(s, r, k).backend.devices[r].deviceId == s.backend.devices[r].deviceId
  {
    RegenerateKeeps(s, r, k);
    SharedFrame(Apply(s, RegenerateKey(r, k)), Restarted(s, r, k));
  }

  lemma RecoveryActivates(s: State, r: RecordId, k: KeyId, x: Secret, newId: DeviceId)
    requires DevicesOk(s) && OwnersOk(s) && IdentityOk(s) && r in s.backend.devices
    requires s.stage == Activating(ResolvedKey(k, FromFile)) && k in s.backend.keys && s.backend.keys[k] == KeyRow(r, Unconsumed)
    requires x !in s.issued && newId !in s.owner && UsableSecret(x)
    ensures var own := s.identity.None? || s.backend.devices[r].deviceId == Some(s.identity.value.deviceId);
            var replied := ActivateOnBackend(s, k, true, x, newId, true);
            var after := RemoveKeyFile(AcceptReply(replied, true), true);
            && (own ==>
                  && after.stage == Operating && after.fileKey == None
                  && after.identity.Some? && after.identity.value.secret == Some(x)
                  && IsCurrent(after.backend, after.identity.value.deviceId, x))
            && (!own ==> after.stage == Failed && after.identity == s.identity)
  {
    assert DeviceOk(s, r, s.backend.devices[r]);
    var replied := ActivateOnBackend(s, k, true, x, newId, true);
    assert replied.backend.devices[r].secret == Some(x) && CanAuthenticate(replied.backend.devices[r]);
  }

  lemma RunOne(s: State, steps: seq<Step>)
    requires steps != []
    ensures Run(s, steps) == Run(Apply(s, steps[0]), steps[1..])
  {
  }
}
