/**
 The Agent's start-up: which branch of the decision tree is taken, what it asks of the Backend, and when
 the runtime may operate.  Whatever happens, the components run and the monitor is started only on a
 durable operational identity with a secret.
 */
module Supervisor {
  import opened Common
  import Credentials
  import R = RuntimeCoordinator

  datatype Branch =
    | FirstActivation | Reactivation | LockedReactivationRequired
    | OperationalValidated | OperationalOffline | StartupConfirmedRejected

  datatype StartupError =
    | AlreadyInvoked | NoIdentityNoKey | InvalidIdentity | ActivationFailed(outcome: Credentials.ActivationOutcome)
    | LockNotPersisted | ComponentsFailed(error: R.Error)

  /** The requests a start-up may make, decided from the stored row and the key alone. */
  datatype Plan = ActivateOnce | ValidateOnce | StayLocked | Refuse(error: StartupError)

  function PlanFor(row: Option<Credentials.Identity>, key: Option<Credentials.ResolvedKey>): Plan {
    if key.Some? then ActivateOnce
    else if row.None? then Refuse(NoIdentityNoKey)
    else if !row.value.operational then StayLocked
    else if row.value.secret.None? then Refuse(InvalidIdentity)
    else ValidateOnce
  }

  predicate Usable(row: Option<Credentials.Identity>) {
    row.Some? && row.value.operational && row.value.secret.Some?
  }

  /** The stored row and the outcome of an activation with the given key and answer. */
  function KeyStart(row: Option<Credentials.Identity>, source: Credentials.KeySource, result: Credentials.CallResult,
                    storageOk: bool, deletionOk: bool): (Option<Credentials.Identity>, Credentials.ActivationOutcome) {
    var (next, outcome) := Credentials.Accept(row, result, storageOk);
    (next, if Activated(outcome) && source == Credentials.FromFile && !deletionOk then Credentials.KeyCleanupFailed else outcome)
  }

  predicate Activated(outcome: Credentials.ActivationOutcome) {
    outcome.FirstActivation? || outcome.Reactivation?
  }

  function BranchOf(verdict: Credentials.Verdict): Branch {
    match verdict
    case Valid => OperationalValidated
    case Indeterminate => OperationalOffline
    case ConfirmedRejected => StartupConfirmedRejected
  }

  const NOT_STARTED := R.Runtime(false, [], {}, [])
  const LOCKED_DOWN := R.Runtime(true, [], {}, [])

  function StartError(error: Option<R.Error>): Option<StartupError> {
    match error
    case None => None
    case Some(e) => Some(ComponentsFailed(e))
  }

  /** How the end of the monitor is taken: the runtime left, whether it counts as fatal, and whether the
      handling itself was cancelled.  A first lock that reports failed stops makes the end fatal, and the
      runtime is locked once more. */
  function MonitorEnd(r: R.Runtime, failed: bool, stop: R.Outcomes, again: R.Outcomes): (R.Runtime, bool, bool) {
    var (first, problem) := R.Lock(r, stop);
    if failed || problem.None? || problem.value.CallCancelled? then (first, failed, problem == Some(R.CallCancelled))
    else
      var (second, left) := R.Lock(first, again);
      (second, true, left == Some(R.CallCancelled))
  }

  class AgentSupervisor {
    const repository: Credentials.DeviceIdentityRepository
    const service: Credentials.ActivationService
    const components: seq<R.Component>
    var coordinator: R.OperationalStateCoordinator?
    var started: bool
    var monitorRunning: bool
    var fatal: bool
    ghost var sentKeys: seq<Credentials.KeyId>
    ghost var presented: seq<(Credentials.DeviceId, Credentials.Secret)>

    ghost predicate Valid()
      reads this, service, repository, coordinator
    {
      && service.repository == repository && repository.Valid() && Distinct(components)
      && (coordinator != null ==> coordinator.components == components && R.Tracked(coordinator.Current(), components))
      && (monitorRunning ==> coordinator != null)
      && (!started ==> coordinator == null && !monitorRunning && sentKeys == [] && presented == [])
    }

    /** The components were started from nothing, and the monitor runs exactly when all of them came up. */
    ghost predicate Entered(error: Option<StartupError>, start: R.Outcomes, stop: R.Outcomes)
      reads this, coordinator
    {
      && coordinator != null
      && (coordinator.Current(), error) == (R.StartAll(NOT_STARTED, components, start, stop).0,
                                            StartError(R.StartAll(NOT_STARTED, components, start, stop).1))
      && (monitorRunning <==> error.None?)
    }

    /** Locked, with nothing ever started or stopped. */
    ghost predicate StaysDown()
      reads this, coordinator
    {
      coordinator != null && coordinator.Current() == LOCKED_DOWN && !monitorRunning
    }

    /** What a start-up with a key leaves, from the row before and the Backend's answer. */
    ghost predicate AfterKey(row: Option<Credentials.Identity>, source: Credentials.KeySource, result: Credentials.CallResult,
                             storageOk: bool, deletionOk: bool, start: R.Outcomes, stop: R.Outcomes,
                             branch: Option<Branch>, error: Option<StartupError>)
      reads this, repository, coordinator
    {
      var (next, outcome) := KeyStart(row, source, result, storageOk, deletionOk);
      && repository.row == next
      && (if Activated(outcome)
          then branch == Some(if row.None? then FirstActivation else Reactivation) && Entered(error, start, stop)
          else branch == None && error == Some(ActivationFailed(outcome)) && coordinator == null && !monitorRunning)
    }

    /** What a start-up without a key leaves, from the usable row before and the verdict on its secret. */
    ghost predicate AfterVerdict(row: Option<Credentials.Identity>, verdict: Credentials.Verdict, storageOk: bool,
                                 start: R.Outcomes, stop: R.Outcomes, branch: Option<Branch>, error: Option<StartupError>)
      reads this, repository, coordinator
    {
      && branch == Some(BranchOf(verdict))
      && (if verdict != Credentials.ConfirmedRejected then repository.row == row && Entered(error, start, stop)
          else if storageOk then Ok(repository.row) == Credentials.LockIdentity(row) && error == None && StaysDown()
          else repository.row == row && error == Some(LockNotPersisted) && StaysDown())
    }

    constructor (repository: Credentials.DeviceIdentityRepository, service: Credentials.ActivationService, components: seq<R.Component>)
      requires service.repository == repository && repository.Valid() && Distinct(components)
      ensures Valid() && !started && this.repository == repository && this.service == service && this.components == components
    {
      this.repository, this.service, this.components := repository, service, components;
      coordinator := null;
      started, monitorRunning, fatal, sentKeys, presented := false, false, false, [], [];
    }

    /** At most one start-up.  Its plan decides which requests are made, with which key or credentials; the
        answers decide the branch, the stored row and what runs. */
    method Startup(backend: Credentials.KeyId -> Credentials.CallResult,
                   validate: (Credentials.DeviceId, Credentials.Secret) -> Credentials.Verdict,
                   storageOk: bool, deletionOk: bool, start: R.Outcomes, stop: R.Outcomes)
      returns (branch: Option<Branch>, error: Option<StartupError>)
      requires Valid()
      modifies this, repository, service
      ensures Valid() && started && Credentials.Preserves(repository.row, old(repository.row))
      ensures old(started) ==> error == Some(AlreadyInvoked) && repository.row == old(repository.row)
                               && (coordinator, monitorRunning) == old((coordinator, monitorRunning))
                               && (sentKeys, presented) == old((sentKeys, presented))
      ensures !old(started) ==> match PlanFor(old(repository.row), old(service.Resolve()))
                                case ActivateOnce =>
                                  var key := old(service.Resolve()).value;
                                  && sentKeys == [key.key] && presented == []
                                  && AfterKey(old(repository.row), key.source, backend(key.key), storageOk, deletionOk, start, stop, branch, error)
                                case ValidateOnce =>
                                  var i := old(repository.row).value;
                                  && sentKeys == [] && presented == [(i.deviceId, i.secret.value)]
                                  && AfterVerdict(Some(i), validate(i.deviceId, i.secret.value), storageOk, start, stop, branch, error)
                                case StayLocked =>
                                  && sentKeys == [] && presented == [] && error == None && branch == Some(LockedReactivationRequired)
                                  && repository.row == old(repository.row) && StaysDown()
                                case Refuse(e) =>
                                  && sentKeys == [] && presented == [] && error == Some(e) && branch == None
                                  && repository.row == old(repository.row) && coordinator == null
      ensures !old(started) && coordinator != null ==> fresh(coordinator)
      ensures !old(started) && monitorRunning ==>
                && error == None && Usable(repository.row)
                && !coordinator.locked && coordinator.running == R.Pending(components, [])
      ensures !old(started) && coordinator != null && coordinator.attempts != [] ==> Usable(repository.row)
      ensures !old(started) && error == None && !monitorRunning ==>
                coordinator != null && coordinator.locked && coordinator.running == [] && coordinator.attempts == [] && !Usable(repository.row)
      ensures !old(started) && branch == Some(StartupConfirmedRejected) ==>
                coordinator != null && coordinator.locked && coordinator.running == [] && !monitorRunning
                && (error == None <==> !Usable(repository.row))
    {
      branch, error := None, None;
      if started {
        return branch, Some(AlreadyInvoked);
      }
      started := true;
      var row := repository.row;
      var key := service.Resolve();
      if key.Some? {
        branch, error := StartWithKey(backend, storageOk, deletionOk, start, stop);
      } else if row.None? {
        error := Some(NoIdentityNoKey);
      } else if !row.value.operational {
        branch := Some(LockedReactivationRequired);
        coordinator := new R.OperationalStateCoordinator(components, true);
      } else if row.value.secret.None? {
        error := Some(InvalidIdentity);
      } else {
        branch, error := ValidateAtStart(validate, storageOk, start, stop);
      }
    }

    method StartWithKey(backend: Credentials.KeyId -> Credentials.CallResult, storageOk: bool, deletionOk: bool, start: R.Outcomes, stop: R.Outcomes)
      returns (branch: Option<Branch>, error: Option<StartupError>)
      requires Valid() && started && coordinator == null && !monitorRunning && sentKeys == [] && service.Resolve().Some?
      modifies this, repository, service
      ensures Valid() && started && Credentials.Preserves(repository.row, old(repository.row))
      ensures presented == old(presented) && sentKeys == [old(service.Resolve()).value.key]
      ensures var key := old(service.Resolve()).value;
              AfterKey(old(repository.row), key.source, backend(key.key), storageOk, deletionOk, start, stop, branch, error)
      ensures coordinator != null ==> fresh(coordinator) && Usable(repository.row)
      ensures error.None? <==> monitorRunning
      ensures monitorRunning ==> coordinator != null && !coordinator.locked && coordinator.running == R.Pending(components, [])
      ensures branch != Some(StartupConfirmedRejected)
    {
      var before := repository.row;
      var outcome, sent := service.Activate(backend, storageOk, deletionOk);
      sentKeys := if sent.Some? then sentKeys + [sent.value] else sentKeys;
      if !(outcome.FirstActivation? || outcome.Reactivation?) {
        return None, Some(ActivationFailed(outcome));
      }
      branch := Some(if before.None? then FirstActivation else Reactivation);
      error := EnterOperational(start, stop);
    }

    /** Indeterminate is no reason to stay down; a confirmed rejection is locked, durably if possible. */
    method ValidateAtStart(validate: (Credentials.DeviceId, Credentials.Secret) -> Credentials.Verdict, storageOk: bool, start: R.Outcomes, stop: R.Outcomes)
      returns (branch: Option<Branch>, error: Option<StartupError>)
      requires Valid() && started && coordinator == null && !monitorRunning && presented == [] && Usable(repository.row)
      modifies this, repository
      ensures Valid() && started && Credentials.Preserves(repository.row, old(repository.row))
      ensures sentKeys == old(sentKeys)
      ensures var i := old(repository.row).value;
              && presented == [(i.deviceId, i.secret.value)]
              && AfterVerdict(Some(i), validate(i.deviceId, i.secret.value), storageOk, start, stop, branch, error)
      ensures coordinator != null && fresh(coordinator)
      ensures monitorRunning ==> error == None && Usable(repository.row) && !coordinator.locked
                                 && coordinator.running == R.Pending(components, [])
      ensures coordinator.attempts != [] ==> Usable(repository.row)
      ensures error == None && !monitorRunning ==>
                coordinator.locked && coordinator.running == [] && coordinator.attempts == [] && !Usable(repository.row)
      ensures branch == Some(StartupConfirmedRejected) ==>
                coordinator.locked && coordinator.running == [] && !monitorRunning && (error == None <==> !Usable(repository.row))
    {
      var deviceId, secret := repository.row.value.deviceId, repository.row.value.secret.value;
      var verdict := validate(deviceId, secret);
      presented := presented + [(deviceId, secret)];
      if verdict == Credentials.ConfirmedRejected {
        branch := Some(StartupConfirmedRejected);
        var failed := repository.MarkReactivationRequired(storageOk);
        coordinator := new R.OperationalStateCoordinator(components, true);
        error := if failed.Some? then Some(LockNotPersisted) else None;
      } else {
        branch := Some(if verdict == Credentials.Valid then OperationalValidated else OperationalOffline);
        error := EnterOperational(start, stop);
      }
    }

    /** Coordinator, then components, then exactly one monitor; a failed start means no monitor. */
    method EnterOperational(start: R.Outcomes, stop: R.Outcomes) returns (error: Option<StartupError>)
      requires Valid() && started && coordinator == null && !monitorRunning && Usable(repository.row)
      modifies this`coordinator, this`monitorRunning
      ensures Valid() && coordinator != null && fresh(coordinator) && !coordinator.locked
      ensures Entered(error, start, stop)
      ensures error.None? <==> monitorRunning
      ensures monitorRunning ==> coordinator.running == R.Pending(components, [])
    {
      var c := new R.OperationalStateCoordinator(components, false);
      ghost var before := c.Current();
      var failure := c.StartOperationalComponents(start, stop);
      R.RunTracked(before, components, [R.StartCall(start, stop)]);
      StartedOrFailed(before, components, start, stop);
      coordinator := c;
      assert R.Run(before, components, [R.StartCall(start, stop)]) == c.Current() by {
        assert [R.StartCall(start, stop)][1..] == [];
      }
      if failure.Some? {
        return Some(ComponentsFailed(failure.value));
      }
      monitorRunning := true;
      return None;
    }

    /** The monitor's terminal result, or its failure, locks the runtime and stops every component.  A stop
        that fails after a terminal result is itself fatal, and every remaining stop is tried once more. */
    method MonitorEnded(failed: bool, stop: R.Outcomes, again: R.Outcomes) returns (cancelled: bool)
      requires Valid() && monitorRunning
      modifies this`monitorRunning, this`fatal, coordinator
      ensures Valid() && !monitorRunning && coordinator.locked
      ensures var (runtime, isFatal, interrupted) := MonitorEnd(old(coordinator.Current()), failed, stop, again);
              coordinator.Current() == runtime && fatal == (old(fatal) || isFatal) && cancelled == interrupted
      ensures var r := old(coordinator.running);
              R.NoneCancelled(r, stop) && R.NoneCancelled(r, again) ==>
                && !cancelled
                && fatal == (old(fatal) || failed || R.Surviving(r, stop) != [])
                && coordinator.running == if failed then R.Surviving(r, stop) else R.Surviving(R.Surviving(r, stop), again)
    {
      MonitorEndTracked(coordinator.Current(), components, failed, stop, again);
      MonitorEndUncancelled(coordinator.Current(), failed, stop, again);
      monitorRunning, cancelled := false, false;
      var problem := coordinator.EnterReactivationRequired(stop);
      if failed {
        fatal := true;
      } else if problem.Some? && !problem.value.CallCancelled? {
        fatal := true;
        problem := coordinator.EnterReactivationRequired(again);
      }
      cancelled := problem == Some(R.CallCancelled);
    }
  }

  lemma LockTracked(r: R.Runtime, components: seq<R.Component>, stop: R.Outcomes)
    requires R.Tracked(r, components) && Distinct(components)
    ensures R.Tracked(R.Lock(r, stop).0, components) && R.Lock(r, stop).0.locked
  {
    R.StopEachTracked(r.(locked := true), components, R.Reverse(r.running), stop, true);
  }

  lemma MonitorEndTracked(r: R.Runtime, components: seq<R.Component>, failed: bool, stop: R.Outcomes, again: R.Outcomes)
    requires R.Tracked(r, components) && Distinct(components)
    ensures var after := MonitorEnd(r, failed, stop, again).0; R.Tracked(after, components) && after.locked
  {
    LockTracked(r, components, stop);
    LockTracked(R.Lock(r, stop).0, components, again);
  }

  /** Uncancelled, the end is fatal exactly when the monitor failed or some first stop did, and what still
      runs is what no try could stop. */
  lemma MonitorEndUncancelled(r: R.Runtime, failed: bool, stop: R.Outcomes, again: R.Outcomes)
    requires Distinct(r.running)
    ensures R.NoneCancelled(r.running, stop) && R.NoneCancelled(r.running, again) ==>
              var (after, fatal, cancelled) := MonitorEnd(r, failed, stop, again);
              && !cancelled && fatal == (failed || R.Surviving(r.running, stop) != [])
              && after.running == if failed then R.Surviving(r.running, stop) else R.Surviving(R.Surviving(r.running, stop), again)
  {
    if R.NoneCancelled(r.running, stop) && R.NoneCancelled(r.running, again) {
      R.LockStopsAll(r, stop);
      var first := R.Lock(r, stop).0;
      SurvivingDistinct(r.running, stop);
      R.LockStopsAll(first, again);
    }
  }

  lemma {:induction false} SurvivingDistinct(cs: seq<R.Component>, stop: R.Outcomes)
    requires Distinct(cs)
    ensures Distinct(R.Surviving(cs, stop))
  {
    if cs != [] {
      SurvivingDistinct(cs[1..], stop);
    }
  }

  /** A start from nothing that reports no error has started every component. */
  lemma StartedOrFailed(r: R.Runtime, components: seq<R.Component>, start: R.Outcomes, stop: R.Outcomes)
    requires !r.locked && r.running == []
    ensures var (after, error) := R.StartAll(r, components, start, stop);
            !after.locked && (error.None? ==> after.running == R.Pending(components, []))
  {
    StartFromOutcome(r, [], R.Pending(components, []), start, stop);
    assert [] + R.Pending(components, []) == R.Pending(components, []);
  }

  lemma {:induction false} StartFromOutcome(r: R.Runtime, begun: seq<R.Component>, pending: seq<R.Component>, start: R.Outcomes, stop: R.Outcomes)
    ensures var (after, error) := R.StartFrom(r, begun, pending, start, stop);
            after.locked == r.locked && (error.None? ==> after.running == r.running + pending)
    decreases |pending|
  {
    if pending == [] {
      assert r.running + pending == r.running;
    } else {
      var c := pending[0];
      if start(c) == R.Failed {
        StopsKeepLock(R.Tried(r, c), R.Reverse(begun), stop);
      } else if start(c) == R.Done {
        var next := R.Runtime(r.locked, r.running + [c], r.live + {c}, r.attempts + [R.Started(c)]);
        StartFromOutcome(next, begun + [c], pending[1..], start, stop);
        assert r.running + [c] + pending[1..] == r.running + pending;
      }
    }
  }

  lemma {:induction false} StopsKeepLock(r: R.Runtime, order: seq<R.Component>, stop: R.Outcomes)
    ensures R.StopEach(r, order, stop, false).0.locked == r.locked
    decreases |order|
  {
    if order != [] && stop(order[0]) != R.Cancelled {
      var c := order[0];
      StopsKeepLock(R.Runtime(r.locked, R.AfterStop(r.running, c, stop, false), if stop(c) == R.Done then r.live - {c} else r.live,
                              r.attempts + [R.Stopped(c)]), order[1..], stop);
    }
  }
}
