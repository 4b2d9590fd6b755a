/**
 Device credentials on both sides: the Backend's Device and ActivationKey entities and the services that
 change them, and the Agent's stored identity and the activation that writes it.  Random secrets and
 identifiers are parameters; the protection of a stored secret is the identity.
 */
module Credentials {
  import opened Common

  type RecordId = nat
  type DeviceId = nat
  type KeyId = nat
  type Secret = string

  const SECRET_MAX_LENGTH := 1024

  datatype ActivationStatus = Unactivated | Activated | ReactivationRequired

  datatype DeviceRow = DeviceRow(deviceId: Option<DeviceId>, status: ActivationStatus, secret: Option<Secret>)

  const NEW_DEVICE := DeviceRow(None, Unactivated, None)

  datatype KeyStatus = Unconsumed | Consumed | Invalidated

  datatype KeyRow = KeyRow(record: RecordId, status: KeyStatus)

  datatype EntityError = BadSecret | NeverActivated | NotConsumable

  /** A secret the entity accepts; white space alone is refused. */
  predicate UsableSecret(s: Secret) {
    |s| <= SECRET_MAX_LENGTH && !Blank(s)
  }

  function ActivateRow(d: DeviceRow, secret: Secret, newId: DeviceId): DeviceRow {
    DeviceRow(Some(if d.deviceId.Some? then d.deviceId.value else newId), Activated, Some(secret))
  }

  function RevokeRow(d: DeviceRow): DeviceRow {
    d.(status := ReactivationRequired, secret := None)
  }

  predicate CanAuthenticate(d: DeviceRow) {
    d.status == Activated && d.secret.Some? && d.secret.value != ""
  }

  class Device {
    var deviceId: Option<DeviceId>
    var activationStatus: ActivationStatus
    var protectedSharedSecret: Option<Secret>

    ghost function Row(): DeviceRow
      reads this
    {
      DeviceRow(deviceId, activationStatus, protectedSharedSecret)
    }

    constructor ()
      ensures Row() == NEW_DEVICE
    {
      deviceId, activationStatus, protectedSharedSecret := None, Unactivated, None;
    }

    /** The external id is given once; every activation replaces the secret. */
    method Activate(secret: Secret, newId: DeviceId) returns (error: Option<EntityError>)
      modifies this
      ensures error.None? <==> UsableSecret(secret)
      ensures Row() == if UsableSecret(secret) then ActivateRow(old(Row()), secret, newId) else old(Row())
    {
      if !UsableSecret(secret) {
        return Some(BadSecret);
      }
      if deviceId.None? {
        deviceId := Some(newId);
      }
      activationStatus := Activated;
      protectedSharedSecret := Some(secret);
      return None;
    }

    method RequireReactivation() returns (error: Option<EntityError>)
      modifies this
      ensures error.None? <==> old(deviceId).Some?
      ensures Row() == if old(deviceId).Some? then RevokeRow(old(Row())) else old(Row())
    {
      if deviceId.None? {
        return Some(NeverActivated);
      }
      activationStatus := ReactivationRequired;
      protectedSharedSecret := None;
      return None;
    }
  }

  class ActivationKey {
    const record: RecordId
    var status: KeyStatus

    constructor (record: RecordId)
      ensures this.record == record && status == Unconsumed
    {
      this.record, status := record, Unconsumed;
    }

    /** Single use: only an unconsumed key can be consumed. */
    method Consume() returns (error: Option<EntityError>)
      modifies this
      ensures error.None? <==> old(status) == Unconsumed
      ensures status == if old(status) == Unconsumed then Consumed else old(status)
    {
      if status != Unconsumed {
        return Some(NotConsumable);
      }
      status := Consumed;
      return None;
    }

    method Invalidate()
      modifies this
      ensures status == Invalidated
    {
      status := Invalidated;
    }
  }

  // ---- Backend services ------------------------------------------------------------------------

  datatype Backend = Backend(devices: map<RecordId, DeviceRow>, keys: map<KeyId, KeyRow>)

  /** A new Branch gets a device and its first key. */
  function Provision(b: Backend, record: RecordId, key: KeyId): Backend {
    if record in b.devices || key in b.keys then b
    else Backend(b.devices[record := NEW_DEVICE], b.keys[key := KeyRow(record, Unconsumed)])
  }

  function InvalidateAll(keys: map<KeyId, KeyRow>, record: RecordId): map<KeyId, KeyRow> {
    map k | k in keys ::
      if keys[k].record == record && keys[k].status == Unconsumed then keys[k].(status := Invalidated) else keys[k]
  }

  /** One transaction: old unused keys are invalidated, the current credentials revoked, a new key added. */
  function Regenerate(b: Backend, record: RecordId, key: KeyId): Backend {
    if record !in b.devices || key in b.keys then b
    else
      var d := b.devices[record];
      Backend(b.devices[record := if d.status == Unactivated then d else RevokeRow(d)],
              InvalidateAll(b.keys, record)[key := KeyRow(record, Unconsumed)])
  }

  datatype ActivationReply = Granted(deviceId: DeviceId, secret: Secret) | Refused

  /** One transaction: the key is consumed and the device gets a fresh secret, or nothing changes. */
  function Activate(b: Backend, key: KeyId, keySecretOk: bool, secret: Secret, newId: DeviceId): (Backend, ActivationReply) {
    if key !in b.keys || !keySecretOk || b.keys[key].status != Unconsumed || b.keys[key].record !in b.devices || !UsableSecret(secret) then
      (b, Refused)
    else
      var row := b.keys[key];
      var d := ActivateRow(b.devices[row.record], secret, newId);
      (Backend(b.devices[row.record := d], b.keys[key := row.(status := Consumed)]), Granted(d.deviceId.value, secret))
  }

  datatype Verdict = Valid | ConfirmedRejected | Indeterminate

  ghost predicate IsCurrent(b: Backend, deviceId: DeviceId, secret: Secret) {
    exists r :: r in b.devices && b.devices[r].deviceId == Some(deviceId) && CanAuthenticate(b.devices[r]) && b.devices[r].secret == Some(secret)
  }

  /** Unreadable credential storage is reported as unavailable, which is no rejection. */
  ghost function Validate(b: Backend, deviceId: DeviceId, secret: Secret, storageReadable: bool): Verdict {
    if secret == "" then ConfirmedRejected
    else if r :| r in b.devices && b.devices[r].deviceId == Some(deviceId) then
      if !CanAuthenticate(b.devices[r]) then ConfirmedRejected
      else if !storageReadable then Indeterminate
      else if b.devices[r].secret == Some(secret) then Valid
      else ConfirmedRejected
    else ConfirmedRejected
  }

  // ---- The Agent's stored identity -------------------------------------------------------------

  datatype Identity = Identity(deviceId: DeviceId, secret: Option<Secret>, operational: bool)

  /** The database's own check: a secret is there exactly when operational. */
  predicate Consistent(i: Identity) {
    i.operational <==> i.secret.Some?
  }

  datatype StoreError = AlreadyExists | NoIdentity | StorageFailed

  function StoreFirst(row: Option<Identity>, deviceId: DeviceId, secret: Secret): Result<Option<Identity>, StoreError> {
    if row.Some? then Err(AlreadyExists) else Ok(Some(Identity(deviceId, Some(secret), true)))
  }

  function ReplaceSecret(row: Option<Identity>, secret: Secret): Result<Option<Identity>, StoreError> {
    if row.None? then Err(NoIdentity) else Ok(Some(row.value.(secret := Some(secret), operational := true)))
  }

  function LockIdentity(row: Option<Identity>): Result<Option<Identity>, StoreError> {
    if row.None? then Err(NoIdentity) else Ok(Some(row.value.(secret := None, operational := false)))
  }

  /** What no write to the identity row may break: the id is permanent and the state matches the secret. */
  predicate Preserves(now: Option<Identity>, before: Option<Identity>) {
    && (before.Some? ==> now.Some? && now.value.deviceId == before.value.deviceId)
    && (now.Some? ==> Consistent(now.value))
  }

  class DeviceIdentityRepository {
    var row: Option<Identity>

    ghost predicate Valid()
      reads this
    {
      row.Some? ==> Consistent(row.value)
    }

    constructor ()
      ensures row == None
    {
      row := None;
    }

    method Store(deviceId: DeviceId, secret: Secret, storageOk: bool) returns (error: Option<StoreError>)
      requires Valid()
      modifies this
      ensures Valid() && Preserves(row, old(row))
      ensures if !storageOk then error == Some(StorageFailed) && row == old(row)
              else match StoreFirst(old(row), deviceId, secret)
                   case Ok(next) => error == None && row == next
                   case Err(e) => error == Some(e) && row == old(row)
    {
      if !storageOk {
        return Some(StorageFailed);
      }
      if row.Some? {
        return Some(AlreadyExists);
      }
      row := Some(Identity(deviceId, Some(secret), true));
      return None;
    }

    method ReplaceSharedSecret(secret: Secret, storageOk: bool) returns (error: Option<StoreError>)
      requires Valid()
      modifies this
      ensures Valid() && Preserves(row, old(row))
      ensures if !storageOk then error == Some(StorageFailed) && row == old(row)
              else match ReplaceSecret(old(row), secret)
                   case Ok(next) => error == None && row == next
                   case Err(e) => error == Some(e) && row == old(row)
    {
      if !storageOk {
        return Some(StorageFailed);
      }
      if row.None? {
        return Some(NoIdentity);
      }
      row := Some(row.value.(secret := Some(secret), operational := true));
      return None;
    }

    method MarkReactivationRequired(storageOk: bool) returns (error: Option<StoreError>)
      requires Valid()
      modifies this
      ensures Valid() && Preserves(row, old(row))
      ensures if !storageOk then error == Some(StorageFailed) && row == old(row)
              else match LockIdentity(old(row))
                   case Ok(next) => error == None && row == next
                   case Err(e) => error == Some(e) && row == old(row)
    {
      if !storageOk {
        return Some(StorageFailed);
      }
      if row.None? {
        return Some(NoIdentity);
      }
      row := Some(row.value.(secret := None, operational := false));
      return None;
    }
  }

  // ---- Activation ------------------------------------------------------------------------------

  datatype KeySource = FromEnvironment | FromFile

  datatype ResolvedKey = ResolvedKey(key: KeyId, source: KeySource)

  /** What one activation request comes back with; a timeout says nothing about the Backend. */
  datatype CallResult = Answered(reply: ActivationReply) | TimedOut

  datatype ActivationOutcome =
    | FirstActivation | Reactivation | AlreadyActivated
    | KeyMissing | RequestRefused | OutcomeAmbiguous | DeviceMismatch | PersistenceFailed(error: StoreError) | KeyCleanupFailed

  /** The stored row and the outcome after a reply, key file aside. */
  function Accept(row: Option<Identity>, result: CallResult, storageOk: bool): (Option<Identity>, ActivationOutcome) {
    match result
    case TimedOut => (row, OutcomeAmbiguous)
    case Answered(Refused) => (row, RequestRefused)
    case Answered(Granted(d, s)) =>
      if row.None? then
        if !storageOk then (row, PersistenceFailed(StorageFailed)) else (Some(Identity(d, Some(s), true)), FirstActivation)
      else if row.value.deviceId != d then (row, DeviceMismatch)
      else if !storageOk then (row, PersistenceFailed(StorageFailed))
      else (Some(row.value.(secret := Some(s), operational := true)), Reactivation)
  }

  class ActivationService {
    const repository: DeviceIdentityRepository
    var environmentKey: Option<KeyId>
    var fileKey: Option<KeyId>

    constructor (repository: DeviceIdentityRepository, environmentKey: Option<KeyId>, fileKey: Option<KeyId>)
      ensures this.repository == repository && this.environmentKey == environmentKey && this.fileKey == fileKey
    {
      this.repository, this.environmentKey, this.fileKey := repository, environmentKey, fileKey;
    }

    /** The environment wins over the file. */
    function Resolve(): Option<ResolvedKey>
      reads this
    {
      if environmentKey.Some? then Some(ResolvedKey(environmentKey.value, FromEnvironment))
      else if fileKey.Some? then Some(ResolvedKey(fileKey.value, FromFile))
      else None
    }

    /** At most one request.  The identity is written only on a grant for the same device, the key file
        removed only after that, and an environment key never. */
    method Activate(backend: KeyId -> CallResult, storageOk: bool, deletionOk: bool) returns (outcome: ActivationOutcome, sent: Option<KeyId>)
      requires repository.Valid()
      modifies this`fileKey, repository
      ensures repository.Valid() && Preserves(repository.row, old(repository.row))
      ensures old(Resolve()).None? ==>
                && outcome == (if old(repository.row).None? then KeyMissing else AlreadyActivated)
                && sent == None && repository.row == old(repository.row) && fileKey == old(fileKey)
      ensures old(Resolve()).Some? ==>
                var resolved := old(Resolve()).value;
                var (row, accepted) := Accept(old(repository.row), backend(resolved.key), storageOk);
                var activated := accepted.FirstActivation? || accepted.Reactivation?;
                && sent == Some(resolved.key) && repository.row == row
                && outcome == (if activated && resolved.source == FromFile && !deletionOk then KeyCleanupFailed else accepted)
                && fileKey == (if activated && resolved.source == FromFile && deletionOk then None else old(fileKey))
    {
      var resolved := Resolve();
      if resolved.None? {
        return if repository.row.None? then KeyMissing else AlreadyActivated, None;
      }
      sent := Some(resolved.value.key);
      var result := backend(resolved.value.key);
      if result.TimedOut? {
        return OutcomeAmbiguous, sent;
      }
      if result.reply.Refused? {
        return RequestRefused, sent;
      }
      var error: Option<StoreError>;
      if repository.row.None? {
        error := repository.Store(result.reply.deviceId, result.reply.secret, storageOk);
        outcome := FirstActivation;
      } else {
        if result.reply.deviceId != repository.row.value.deviceId {
          return DeviceMismatch, sent;
        }
        error := repository.ReplaceSharedSecret(result.reply.secret, storageOk);
        outcome := Reactivation;
      }
      if error.Some? {
        return PersistenceFailed(error.value), sent;
      }
      if resolved.value.source == FromFile {
        if !deletionOk {
          return KeyCleanupFailed, sent;
        }
        fileKey := None;
      }
    }
  }

  // ---- The validation monitor ------------------------------------------------------------------

  datatype Attempt = KeepPolling | StopReactivationRequired | NoUsableIdentity | LockNotPersisted

  /** One step of the loop: what is left stored, and whether to go on. */
  function AttemptOutcome(row: Option<Identity>, validate: (DeviceId, Secret) -> Verdict, storageOk: bool): (Option<Identity>, Attempt) {
    if row.None? then (row, NoUsableIdentity)
    else if !row.value.operational then (row, StopReactivationRequired)
    else if row.value.secret.None? then (row, NoUsableIdentity)
    else
      match validate(row.value.deviceId, row.value.secret.value)
      case Valid => (row, KeepPolling)
      case Indeterminate => (row, KeepPolling)
      case ConfirmedRejected =>
        if storageOk then (Some(row.value.(secret := None, operational := false)), StopReactivationRequired) else (row, LockNotPersisted)
  }

  class CredentialValidationMonitor {
    const repository: DeviceIdentityRepository

    constructor (repository: DeviceIdentityRepository)
      ensures this.repository == repository
    {
      this.repository := repository;
    }

    /** The loop body: loads afresh, asks once, and locks only on a confirmed rejection. */
    method AttemptOnce(validate: (DeviceId, Secret) -> Verdict, storageOk: bool) returns (attempt: Attempt)
      requires repository.Valid()
      modifies repository
      ensures repository.Valid() && Preserves(repository.row, old(repository.row))
      ensures (repository.row, attempt) == AttemptOutcome(old(repository.row), validate, storageOk)
    {
      var row := repository.row;
      if row.None? {
        return NoUsableIdentity;
      }
      if !row.value.operational {
        return StopReactivationRequired;
      }
      if row.value.secret.None? {
        return NoUsableIdentity;
      }
      var verdict := validate(row.value.deviceId, row.value.secret.value);
      if verdict == ConfirmedRejected {
        var error := repository.MarkReactivationRequired(storageOk);
        if error.Some? {
          return LockNotPersisted;
        }
        return StopReactivationRequired;
      }
      return KeepPolling;
    }

    /** The loop over a finite series of verdicts, one a poll; it ends at the first terminal attempt. */
    method Poll(verdicts: seq<Verdict>, storageOk: bool) returns (last: Attempt, polls: nat)
      requires repository.Valid()
      modifies repository
      ensures repository.Valid() && Preserves(repository.row, old(repository.row))
      ensures polls <= |verdicts|
      ensures old(repository.row).Some? && old(repository.row).value.operational ==>
                && (last == KeepPolling <==> ConfirmedRejected !in verdicts)
                && (last == KeepPolling ==> repository.row == old(repository.row) && polls == |verdicts|)
                && (last != KeepPolling ==>
                      && 0 < polls && verdicts[polls - 1] == ConfirmedRejected && ConfirmedRejected !in verdicts[..polls - 1]
                      && (if storageOk then last == StopReactivationRequired && repository.row.value.secret == None
                          else last == LockNotPersisted && repository.row == old(repository.row)))
    {
      last, polls := KeepPolling, 0;
      while polls < |verdicts|
        invariant 0 <= polls <= |verdicts| && last == KeepPolling
        invariant repository.row == old(repository.row) && repository.Valid()
        invariant old(repository.row).Some? && old(repository.row).value.operational ==> ConfirmedRejected !in verdicts[..polls]
      {
        assert verdicts[..polls + 1] == verdicts[..polls] + [verdicts[polls]];
        var verdict := verdicts[polls];
        last := AttemptOnce((d, s) => verdict, storageOk);
        polls := polls + 1;
        if last != KeepPolling {
          return;
        }
      }
      assert verdicts[..polls] == verdicts;
    }
  }
}
