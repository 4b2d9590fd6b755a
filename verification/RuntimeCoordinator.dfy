/**
 The in-memory gate that starts and stops the Agent's operational components.  Each call holds the
 coordinator's lock, so calls are sequential; what starting or stopping a component does in a call is
 given by a function from the component to its outcome.  A cancelled start or stop is not caught by the
 handlers, which catch ordinary failures only.
 */
module RuntimeCoordinator {
  import opened Common

  type Component = nat

  datatype Outcome = Done | Failed | Cancelled

  type Outcomes = Component -> Outcome

  datatype Action = Started(c: Component) | Stopped(c: Component)

  datatype Error = ComponentsLocked | StartFailed(c: Component) | ShutdownFailed(names: seq<Component>) | CallCancelled | NotPersisted

  /** What reading the stored identity gives. */
  datatype Load = Unreadable | Absent | Present(operational: bool, hasSecret: bool)

  predicate MayUnlock(l: Load) {
    l.Present? && l.operational && l.hasSecret
  }

  /** `attempts` lists every start and stop ever tried, `live` the components really running. */
  datatype Runtime = Runtime(locked: bool, running: seq<Component>, live: set<Component>, attempts: seq<Action>)

  function Pending(components: seq<Component>, running: seq<Component>): (p: seq<Component>)
    ensures forall c :: c in p <==> c in components && c !in running
  {
    if components == [] then []
    else (if components[0] in running then [] else [components[0]]) + Pending(components[1..], running)
  }

  function Without(s: seq<Component>, c: Component): (r: seq<Component>)
    ensures forall d :: d in r ==> d in s
    ensures c !in s ==> r == s
  {
    if s == [] then [] else if s[0] == c then s[1..] else [s[0]] + Without(s[1..], c)
  }

  function Reverse(s: seq<Component>): (r: seq<Component>)
    ensures |r| == |s| && forall i :: 0 <= i < |s| ==> r[i] == s[|s| - 1 - i]
  {
    if s == [] then [] else Reverse(s[1..]) + [s[0]]
  }

  function Starts(cs: seq<Component>): (r: seq<Action>)
    ensures |r| == |cs| && forall i :: 0 <= i < |cs| ==> r[i] == Started(cs[i])
  {
    if cs == [] then [] else [Started(cs[0])] + Starts(cs[1..])
  }

  function Stops(cs: seq<Component>): (r: seq<Action>)
    ensures |r| == |cs| && forall i :: 0 <= i < |cs| ==> r[i] == Stopped(cs[i])
  {
    if cs == [] then [] else [Stopped(cs[0])] + Stops(cs[1..])
  }

  /** Those of `cs` whose stop failed, in order. */
  function Surviving(cs: seq<Component>, stop: Outcomes): (r: seq<Component>)
    ensures forall c :: c in r <==> c in cs && stop(c) == Failed
  {
    if cs == [] then [] else (if stop(cs[0]) == Failed then [cs[0]] else []) + Surviving(cs[1..], stop)
  }

  class OperationalStateCoordinator {
    const components: seq<Component>
    var locked: bool
    var running: seq<Component>
    ghost var live: set<Component>
    ghost var attempts: seq<Action>

    ghost function Current(): Runtime
      reads this
    {
      Runtime(locked, running, live, attempts)
    }

    constructor (components: seq<Component>, locked: bool)
      requires Distinct(components)
      ensures this.components == components && Current() == Runtime(locked, [], {}, [])
    {
      this.components, this.locked := components, locked;
      running, live, attempts := [], {}, [];
    }

    method TryStart(c: Component, start: Outcomes) returns (o: Outcome)
      modifies this`live, this`attempts
      ensures o == start(c)
      ensures attempts == old(attempts) + [Started(c)]
      ensures live == if o == Done then old(live) + {c} else old(live)
    {
      o := start(c);
      attempts := attempts + [Started(c)];
      if o == Done {
        live := live + {c};
      }
    }

    method TryStop(c: Component, stop: Outcomes) returns (o: Outcome)
      modifies this`live, this`attempts
      ensures o == stop(c)
      ensures attempts == old(attempts) + [Stopped(c)]
      ensures live == if o == Done then old(live) - {c} else old(live)
    {
      o := stop(c);
      attempts := attempts + [Stopped(c)];
      if o == Done {
        live := live - {c};
      }
    }

    /** Starts every component not running yet, in registration order. */
    method StartOperationalComponents(start: Outcomes, stop: Outcomes) returns (error: Option<Error>)
      requires Distinct(components) && Distinct(running)
      modifies this
      ensures (Current(), error) == StartAll(old(Current()), components, start, stop)
    {
      if locked {
        return Some(ComponentsLocked);
      }
      var pending := Pending(components, running);
      var startedNow: seq<Component> := [];
      var i := 0;
      while i < |pending|
        invariant 0 <= i <= |pending| && startedNow == pending[..i] && !locked
        invariant running == old(running) + startedNow
        invariant StartFrom(Current(), startedNow, pending[i..], start, stop) == StartAll(old(Current()), components, start, stop)
      {
        var c := pending[i];
        assert pending[i..][0] == c && pending[i..][1..] == pending[i + 1..];
        var outcome := TryStart(c, start);
        if outcome == Cancelled {
          return Some(CallCancelled);
        }
        if outcome == Failed {
          var cancelled := RollbackStarted(startedNow, stop);
          return Some(if cancelled then CallCancelled else StartFailed(c));
        }
        running := running + [c];
        startedNow := startedNow + [c];
        i := i + 1;
      }
      return None;
    }

    /** Best effort, in reverse order; each one is forgotten once its stop has been tried. */
    method RollbackStarted(startedNow: seq<Component>, stop: Outcomes) returns (cancelled: bool)
      modifies this`running, this`live, this`attempts
      ensures (Current(), cancelled) == StopEach(old(Current()), Reverse(startedNow), stop, false)
    {
      var order := Reverse(startedNow);
      ghost var goal := StopEach(Current(), order, stop, false);
      var i := 0;
      while i < |order|
        invariant 0 <= i <= |order| && locked == old(locked)
        invariant StopEach(Current(), order[i..], stop, false) == goal
      {
        assert order[i..][0] == order[i] && order[i..][1..] == order[i + 1..];
        var outcome := TryStop(order[i], stop);
        if outcome == Cancelled {
          return true;
        }
        running := Without(running, order[i]);
        i := i + 1;
      }
      return false;
    }

    /** Locks first, then stops everything that runs; what fails to stop is kept for a later call. */
    method EnterReactivationRequired(stop: Outcomes) returns (error: Option<Error>)
      modifies this
      ensures (Current(), error) == Lock(old(Current()), stop)
    {
      locked := true;
      var order := Reverse(running);
      ghost var goal := StopEach(Current(), order, stop, true);
      var failures: seq<Component> := [];
      var i := 0;
      while i < |order|
        invariant 0 <= i <= |order| && locked
        invariant failures == Surviving(order[..i], stop)
        invariant StopEach(Current(), order[i..], stop, true) == goal
      {
        OneMoreSurviving(order, i, stop);
        var outcome := TryStop(order[i], stop);
        if outcome == Cancelled {
          return Some(CallCancelled);
        }
        if outcome == Failed {
          failures := failures + [order[i]];
        } else {
          running := Without(running, order[i]);
        }
        i := i + 1;
      }
      assert order[..i] == order;
      if failures != [] {
        return Some(ShutdownFailed(failures));
      }
      return None;
    }

    /** Unlocks only on what the repository says now; starts nothing. */
    method MarkOperationalAfterReactivation(load: Load) returns (error: Option<Error>)
      modifies this`locked
      ensures (Current(), error) == Unlock(old(Current()), load)
    {
      if load.Unreadable? || load.Absent? {
        return Some(NotPersisted);
      }
      if !load.operational {
        return Some(NotPersisted);
      }
      if !load.hasSecret {
        return Some(NotPersisted);
      }
      locked := false;
      return None;
    }
  }

  // ---- The calls as functions ------------------------------------------------------------------

  /** The running list after an uncancelled stop: a failed stop is kept by a lock, never by a rollback. */
  function AfterStop(running: seq<Component>, c: Component, stop: Outcomes, keepFailed: bool): seq<Component> {
    if stop(c) == Failed && keepFailed then running else Without(running, c)
  }

  function StopEach(r: Runtime, order: seq<Component>, stop: Outcomes, keepFailed: bool): (Runtime, bool)
    decreases |order|
  {
    if order == [] then (r, false)
    else
      var c := order[0];
      var tried := r.(attempts := r.attempts + [Stopped(c)], live := if stop(c) == Done then r.live - {c} else r.live);
      if stop(c) == Cancelled then (tried, true)
      else StopEach(tried.(running := AfterStop(r.running, c, stop, keepFailed)), order[1..], stop, keepFailed)
  }

  function StartFrom(r: Runtime, started: seq<Component>, pending: seq<Component>, start: Outcomes, stop: Outcomes): (Runtime, Option<Error>)
    decreases |pending|
  {
    if pending == [] then (r, None)
    else
      var c := pending[0];
      var tried := r.(attempts := r.attempts + [Started(c)], live := if start(c) == Done then r.live + {c} else r.live);
      match start(c)
      case Cancelled => (tried, Some(CallCancelled))
      case Failed =>
        var (after, cancelled) := StopEach(tried, Reverse(started), stop, false);
        (after, Some(if cancelled then CallCancelled else StartFailed(c)))
      case Done => StartFrom(tried.(running := r.running + [c]), started + [c], pending[1..], start, stop)
  }

  function StartAll(r: Runtime, components: seq<Component>, start: Outcomes, stop: Outcomes): (Runtime, Option<Error>) {
    if r.locked then (r, Some(ComponentsLocked))
    else StartFrom(r, [], Pending(components, r.running), start, stop)
  }

  function Lock(r: Runtime, stop: Outcomes): (Runtime, Option<Error>) {
    var order := Reverse(r.running);
    var (after, cancelled) := StopEach(r.(locked := true), order, stop, true);
    (after,
     if cancelled then Some(CallCancelled)
     else if Surviving(order, stop) == [] then None
     else Some(ShutdownFailed(Surviving(order, stop))))
  }

  function Unlock(r: Runtime, load: Load): (Runtime, Option<Error>) {
    if MayUnlock(load) then (r.(locked := false), None) else (r, Some(NotPersisted))
  }

  lemma {:induction false} SurvivingAppend(cs: seq<Component>, c: Component, stop: Outcomes)
    ensures Surviving(cs + [c], stop) == Surviving(cs, stop) + (if stop(c) == Failed then [c] else [])
  {
    if cs == [] {
      assert cs + [c] == [c];
    } else {
      assert (cs + [c])[1..] == cs[1..] + [c];
      SurvivingAppend(cs[1..], c, stop);
    }
  }

  lemma OneMoreSurviving(order: seq<Component>, i: nat, stop: Outcomes)
    requires i < |order|
    ensures order[i..][0] == order[i] && order[i..][1..] == order[i + 1..]
    ensures Surviving(order[..i + 1], stop) == Surviving(order[..i], stop) + (if stop(order[i]) == Failed then [order[i]] else [])
  {
    assert order[..i + 1] == order[..i] + [order[i]];
    SurvivingAppend(order[..i], order[i], stop);
  }

  // ---- Stopping --------------------------------------------------------------------------------

  ghost predicate NoneCancelled(cs: seq<Component>, o: Outcomes) {
    forall c :: c in cs ==> o(c) != Cancelled
  }

  function StoppedIn(cs: seq<Component>, stop: Outcomes): set<Component> {
    set c | c in cs && stop(c) == Done
  }

  function AfterStops(running: seq<Component>, order: seq<Component>, stop: Outcomes, keepFailed: bool): seq<Component>
    decreases |order|
  {
    if order == [] then running
    else AfterStops(AfterStop(running, order[0], stop, keepFailed), order[1..], stop, keepFailed)
  }

  /** Uncancelled, every stop of the list is tried in its order, and those that succeed are no longer live. */
  lemma {:induction false} StopsInOrder(r: Runtime, order: seq<Component>, stop: Outcomes, keepFailed: bool)
    requires NoneCancelled(order, stop)
    ensures StopEach(r, order, stop, keepFailed)
         == (Runtime(r.locked, AfterStops(r.running, order, stop, keepFailed), r.live - StoppedIn(order, stop), r.attempts + Stops(order)), false)
    decreases |order|
  {
    if order == [] {
      assert r.attempts + Stops(order) == r.attempts;
      assert r.live - StoppedIn(order, stop) == r.live;
    } else {
      var c, rest := order[0], order[1..];
      assert c in order;
      var live := if stop(c) == Done then r.live - {c} else r.live;
      StoppedFirst(r.live, order, stop);
      assert r.attempts + [Stopped(c)] + Stops(rest) == r.attempts + Stops(order);
      StopsInOrder(Runtime(r.locked, AfterStop(r.running, c, stop, keepFailed), live, r.attempts + [Stopped(c)]), rest, stop, keepFailed);
    }
  }

  lemma StoppedFirst(live: set<Component>, order: seq<Component>, stop: Outcomes)
    requires order != []
    ensures live - StoppedIn(order, stop)
         == (if stop(order[0]) == Done then live - {order[0]} else live) - StoppedIn(order[1..], stop)
  {
    assert forall d :: d in order <==> d == order[0] || d in order[1..];
  }

  lemma {:induction false} WithoutMiddle(front: seq<Component>, c: Component, back: seq<Component>)
    requires c !in front
    ensures Without(front + [c] + back, c) == front + back
  {
    var whole := front + [c] + back;
    if front == [] {
      assert whole[1..] == back && front + back == back;
    } else {
      assert whole[1..] == front[1..] + [c] + back;
      WithoutMiddle(front[1..], c, back);
    }
  }

  lemma DistinctWithout(front: seq<Component>, c: Component, back: seq<Component>)
    requires Distinct(front + [c] + back)
    ensures Distinct(front + back) && c !in front
  {
    var whole := front + [c] + back;
    assert forall i :: 0 <= i < |front| ==> whole[i] == front[i];
    assert forall i :: 0 <= i < |back| ==> whole[|front| + 1 + i] == back[i];
    assert whole[|front|] == c;
  }

  lemma ReverseLast(front: seq<Component>, c: Component)
    ensures Reverse(front + [c])[0] == c && Reverse(front + [c])[1..] == Reverse(front)
  {
  }

  /** A rollback forgets exactly the components it goes over. */
  lemma {:induction false} RollbackRunning(base: seq<Component>, front: seq<Component>, stop: Outcomes)
    requires Distinct(base + front)
    ensures AfterStops(base + front, Reverse(front), stop, false) == base
    decreases |front|
  {
    if front == [] {
      assert base + front == base;
    } else {
      var rest, c := front[..|front| - 1], front[|front| - 1];
      SplitLast(base, front);
      DistinctWithout(base + rest, c, []);
      WithoutMiddle(base + rest, c, []);
      DropLast(base + front, front, stop, false);
      RollbackRunning(base, rest, stop);
    }
  }

  lemma SplitLast(base: seq<Component>, front: seq<Component>)
    requires front != []
    ensures var rest, c := front[..|front| - 1], front[|front| - 1];
            base + front == (base + rest) + [c] + [] && (base + rest) + [] == base + rest
  {
  }

  /** The stops of `front` in reverse begin with its last component. */
  lemma DropLast(running: seq<Component>, front: seq<Component>, stop: Outcomes, keepFailed: bool)
    requires front != []
    ensures var rest, c := front[..|front| - 1], front[|front| - 1];
            AfterStops(running, Reverse(front), stop, keepFailed)
              == AfterStops(AfterStop(running, c, stop, keepFailed), Reverse(rest), stop, keepFailed)
  {
    var rest, c := front[..|front| - 1], front[|front| - 1];
    assert front == rest + [c];
    ReverseLast(rest, c);
  }

  /** A lock keeps, of the components it goes over, those whose stop fails. */
  lemma {:induction false} LockRunning(front: seq<Component>, kept: seq<Component>, stop: Outcomes)
    requires Distinct(front + kept)
    ensures AfterStops(front + kept, Reverse(front), stop, true) == Surviving(front, stop) + kept
    decreases |front|
  {
    if front == [] {
      assert front + kept == kept;
    } else {
      var rest, c := front[..|front| - 1], front[|front| - 1];
      assert front == rest + [c];
      DropLast(front + kept, front, stop, true);
      SurvivingAppend(rest, c, stop);
      Regroup(rest, c, kept);
      if stop(c) == Failed {
        LockRunning(rest, [c] + kept, stop);
        Regroup(Surviving(rest, stop), c, kept);
      } else {
        DistinctWithout(rest, c, kept);
        WithoutMiddle(rest, c, kept);
        LockRunning(rest, kept, stop);
        assert Surviving(front, stop) == Surviving(rest, stop);
      }
    }
  }

  lemma Regroup(front: seq<Component>, c: Component, back: seq<Component>)
    ensures front + [c] + back == front + ([c] + back)
  {
  }

  lemma ReverseElements(cs: seq<Component>)
    ensures forall c :: c in Reverse(cs) <==> c in cs
  {
    forall c | c in cs
      ensures c in Reverse(cs)
    {
      var i :| 0 <= i < |cs| && cs[i] == c;
      assert Reverse(cs)[|cs| - 1 - i] == c;
    }
  }

  lemma {:induction false} SurvivingReverse(cs: seq<Component>, stop: Outcomes)
    ensures Surviving(Reverse(cs), stop) == Reverse(Surviving(cs, stop))
  {
    if cs != [] {
      SurvivingReverse(cs[1..], stop);
      SurvivingAppend(Reverse(cs[1..]), cs[0], stop);
    }
  }

  /** A lock tries every stop in reverse start order and keeps exactly the components whose stop failed,
      in their start order; it reports them, last started first. */
  lemma LockStopsAll(r: Runtime, stop: Outcomes)
    requires Distinct(r.running) && NoneCancelled(r.running, stop)
    ensures Lock(r, stop)
         == (Runtime(true, Surviving(r.running, stop), r.live - StoppedIn(r.running, stop), r.attempts + Stops(Reverse(r.running))),
             if Surviving(r.running, stop) == [] then None else Some(ShutdownFailed(Reverse(Surviving(r.running, stop)))))
  {
    ReverseElements(r.running);
    StopsInOrder(r.(locked := true), Reverse(r.running), stop, true);
    assert AfterStops(r.running, Reverse(r.running), stop, true) == Surviving(r.running, stop) by {
      LockRunning(r.running, [], stop);
      assert r.running + [] == r.running && Surviving(r.running, stop) + [] == Surviving(r.running, stop);
    }
    SurvivingReverse(r.running, stop);
    SameStopped(r.running, stop);
  }

  lemma SameStopped(cs: seq<Component>, stop: Outcomes)
    ensures StoppedIn(Reverse(cs), stop) == StoppedIn(cs, stop)
  {
    ReverseElements(cs);
  }

  // ---- Starting --------------------------------------------------------------------------------

  function StartedUpTo(r: Runtime, pending: seq<Component>, k: nat): Runtime
    requires k <= |pending|
  {
    Runtime(r.locked, r.running + pending[..k], r.live + Elements(pending[..k]), r.attempts + Starts(pending[..k]))
  }

  /** As long as starts succeed, each is appended and the next is tried. */
  lemma {:induction false} StartsInOrder(r: Runtime, pending: seq<Component>, k: nat, start: Outcomes, stop: Outcomes)
    requires k <= |pending| && forall i :: 0 <= i < k ==> start(pending[i]) == Done
    ensures StartFrom(r, [], pending, start, stop) == StartFrom(StartedUpTo(r, pending, k), pending[..k], pending[k..], start, stop)
  {
    if k == 0 {
      assert StartedUpTo(r, pending, 0) == r by {
        assert Elements(pending[..0]) == {};
        assert r.running + pending[..0] == r.running && r.attempts + Starts(pending[..0]) == r.attempts;
      }
      assert pending[..0] == [] && pending[0..] == pending;
    } else {
      StartsInOrder(r, pending, k - 1, start, stop);
      var c := pending[k - 1];
      assert pending[..k] == pending[..k - 1] + [c];
      assert pending[k - 1..][0] == c && pending[k - 1..][1..] == pending[k..];
      OneMoreStarted(r, pending, k);
    }
  }

  lemma OneMoreStarted(r: Runtime, pending: seq<Component>, k: nat)
    requires 0 < k <= |pending|
    ensures var before, c := StartedUpTo(r, pending, k - 1), pending[k - 1];
            StartedUpTo(r, pending, k)
              == Runtime(before.locked, before.running + [c], before.live + {c}, before.attempts + [Started(c)])
  {
    var c := pending[k - 1];
    assert pending[..k] == pending[..k - 1] + [c];
    assert Elements(pending[..k]) == Elements(pending[..k - 1]) + {c};
    assert Starts(pending[..k]) == Starts(pending[..k - 1]) + [Started(c)];
  }

  /** If every pending component starts, the running list grows by exactly those, in order. */
  lemma StartSucceeds(r: Runtime, components: seq<Component>, start: Outcomes, stop: Outcomes)
    requires !r.locked
    requires var p := Pending(components, r.running); forall c :: c in p ==> start(c) == Done
    ensures var p := Pending(components, r.running);
            StartAll(r, components, start, stop)
              == (Runtime(false, r.running + p, r.live + Elements(p), r.attempts + Starts(p)), None)
  {
    var p := Pending(components, r.running);
    assert forall i :: 0 <= i < |p| ==> p[i] in p;
    StartsInOrder(r, p, |p|, start, stop);
    assert p[..|p|] == p;
  }

  ghost predicate FirstNotStarted(pending: seq<Component>, start: Outcomes, k: int) {
    0 <= k < |pending| && start(pending[k]) != Done && forall j :: 0 <= j < k ==> start(pending[j]) == Done
  }

  /** If some start fails, the components started by this call are stopped again in reverse order and
      the running list is exactly what it was before the call; only those whose own stop failed may
      stay live, without being tracked. */
  lemma FailedStartRestores(r: Runtime, components: seq<Component>, start: Outcomes, stop: Outcomes, k: nat)
    requires !r.locked && Distinct(components) && Distinct(r.running)
    requires var p := Pending(components, r.running);
             FirstNotStarted(p, start, k) && start(p[k]) == Failed && NoneCancelled(p[..k], stop)
    ensures var p := Pending(components, r.running);
            StartAll(r, components, start, stop)
              == (Runtime(false, r.running, r.live + Elements(p[..k]) - StoppedIn(p[..k], stop),
                          r.attempts + Starts(p[..k]) + [Started(p[k])] + Stops(Reverse(p[..k]))),
                  Some(StartFailed(p[k])))
  {
    var p := Pending(components, r.running);
    StartsInOrder(r, p, k, start, stop);
    PendingPrefixDistinct(components, r.running, k);
    RollbackRestores(Tried(StartedUpTo(r, p, k), p[k]), r.running, p[..k], stop);
    FailingHead(StartedUpTo(r, p, k), p[..k], p[k..], start, stop);
  }

  function Tried(r: Runtime, c: Component): Runtime {
    r.(attempts := r.attempts + [Started(c)])
  }

  lemma FailingHead(r: Runtime, started: seq<Component>, pending: seq<Component>, start: Outcomes, stop: Outcomes)
    requires pending != [] && start(pending[0]) == Failed
    ensures var (after, cancelled) := StopEach(Tried(r, pending[0]), Reverse(started), stop, false);
            !cancelled ==> StartFrom(r, started, pending, start, stop) == (after, Some(StartFailed(pending[0])))
  {
  }

  lemma PendingPrefixDistinct(components: seq<Component>, running: seq<Component>, k: nat)
    requires Distinct(components) && Distinct(running) && k <= |Pending(components, running)|
    ensures Distinct(running + Pending(components, running)[..k])
  {
    var p := Pending(components, running);
    PendingDistinct(components, running);
    assert running + p == (running + p[..k]) + p[k..];
    DistinctPrefix(running + p[..k], p[k..]);
  }

  /** Rolling back what was appended to the running list gives the list back. */
  lemma RollbackRestores(r: Runtime, base: seq<Component>, started: seq<Component>, stop: Outcomes)
    requires r.running == base + started && Distinct(r.running) && NoneCancelled(started, stop)
    ensures StopEach(r, Reverse(started), stop, false)
         == (Runtime(r.locked, base, r.live - StoppedIn(started, stop), r.attempts + Stops(Reverse(started))), false)
  {
    ReverseElements(started);
    StopsInOrder(r, Reverse(started), stop, false);
    SameStopped(started, stop);
    RollbackRunning(base, started, stop);
  }

  lemma DistinctPrefix(a: seq<Component>, b: seq<Component>)
    requires Distinct(a + b)
    ensures Distinct(a)
  {
    assert forall i :: 0 <= i < |a| ==> a[i] == (a + b)[i];
  }

  lemma {:induction false} PendingDistinct(components: seq<Component>, running: seq<Component>)
    requires Distinct(components) && Distinct(running)
    ensures Distinct(running + Pending(components, running))
  {
    if components != [] {
      var rest := components[1..];
      assert Distinct(rest) && components[0] !in rest;
      PendingDistinct(rest, running);
      var p := Pending(rest, running);
      if components[0] !in running {
        InsertDistinct(running, components[0], p);
        assert running + Pending(components, running) == running + [components[0]] + p;
      } else {
        assert Pending(components, running) == p;
      }
    }
  }

  lemma InsertDistinct(front: seq<Component>, c: Component, back: seq<Component>)
    requires Distinct(front + back) && c !in front && c !in back
    ensures Distinct(front + [c] + back)
  {
    var old', now := front + back, front + [c] + back;
    forall i, j | 0 <= i < j < |now|
      ensures now[i] != now[j]
    {
      assert i < |front| ==> now[i] == old'[i];
      assert i > |front| ==> now[i] == old'[i - 1];
      assert j < |front| ==> now[j] == old'[j];
      assert j > |front| ==> now[j] == old'[j - 1];
    }
  }

  /** A cancelled start is not rolled back: what this call started stays running and tracked. */
  lemma CancelledStartKeeps(r: Runtime, components: seq<Component>, start: Outcomes, stop: Outcomes, k: nat)
    requires !r.locked
    requires var p := Pending(components, r.running); FirstNotStarted(p, start, k) && start(p[k]) == Cancelled
    ensures var p := Pending(components, r.running);
            StartAll(r, components, start, stop)
              == (StartedUpTo(r, p, k).(attempts := r.attempts + Starts(p[..k]) + [Started(p[k])]), Some(CallCancelled))
  {
    var p := Pending(components, r.running);
    StartsInOrder(r, p, k, start, stop);
    assert p[k..][0] == p[k];
  }

  // ---- Exactly when a start that does not complete leaves no trace ------------------------------

  /** What a rollback over `front` forgets: the components after the last one whose stop is cancelled. */
  function Forgotten(front: seq<Component>, stop: Outcomes): set<Component> {
    if front == [] || stop(front[|front| - 1]) == Cancelled then {}
    else {front[|front| - 1]} + Forgotten(front[..|front| - 1], stop)
  }

  ghost predicate ReachedAt(front: seq<Component>, stop: Outcomes, i: nat) {
    i < |front| && forall j :: i <= j < |front| ==> stop(front[j]) != Cancelled
  }

  lemma {:induction false} ForgottenIff(front: seq<Component>, stop: Outcomes, c: Component)
    ensures c in Forgotten(front, stop) <==> exists i: nat :: ReachedAt(front, stop, i) && front[i] == c
  {
    if front != [] {
      var rest, last := front[..|front| - 1], front[|front| - 1];
      ForgottenIff(rest, stop, c);
      if stop(last) != Cancelled {
        assert ReachedAt(front, stop, |front| - 1);
        if i: nat :| ReachedAt(rest, stop, i) && rest[i] == c {
          assert ReachedAt(front, stop, i);
        }
        if i: nat :| ReachedAt(front, stop, i) && front[i] == c && i < |rest| {
          assert forall j :: i <= j < |rest| ==> rest[j] == front[j];
          assert ReachedAt(rest, stop, i);
        }
      }
    }
  }

  /** A rollback, cancelled or not: what it forgets is no longer tracked, and no longer live where the stop
      succeeded. */
  lemma {:induction false} RollbackLeaves(r: Runtime, front: seq<Component>, stop: Outcomes)
    requires Distinct(r.running)
    ensures var after := StopEach(r, Reverse(front), stop, false).0;
            && Distinct(after.running)
            && Elements(after.running) == Elements(r.running) - Forgotten(front, stop)
            && after.live == r.live - (set c | c in Forgotten(front, stop) && stop(c) == Done)
    decreases |front|
  {
    if front != [] {
      var rest, c := front[..|front| - 1], front[|front| - 1];
      assert front == rest + [c];
      ReverseLast(rest, c);
      if stop(c) != Cancelled {
        WithoutKeepsRest(r.running, c);
        RollbackLeaves(Runtime(r.locked, Without(r.running, c), if stop(c) == Done then r.live - {c} else r.live, r.attempts + [Stopped(c)]), rest, stop);
      }
    }
  }

  /** A start that does not complete leaves the running list as it was if and only if it had started
      nothing yet, or the start failed and no stop of its rollback was cancelled. */
  lemma RunningRestoredIff(r: Runtime, components: seq<Component>, start: Outcomes, stop: Outcomes, k: nat)
    requires !r.locked && Distinct(components) && Distinct(r.running)
    requires FirstNotStarted(Pending(components, r.running), start, k)
    ensures var p := Pending(components, r.running);
            StartAll(r, components, start, stop).0.running == r.running <==>
              k == 0 || (start(p[k]) == Failed && NoneCancelled(p[..k], stop))
  {
    var p := Pending(components, r.running);
    if start(p[k]) == Cancelled {
      CancelledStartKeeps(r, components, start, stop, k);
      assert |r.running + p[..k]| == |r.running| + k;
      assert k == 0 ==> r.running + p[..k] == r.running;
    } else if NoneCancelled(p[..k], stop) {
      FailedStartRestores(r, components, start, stop, k);
    } else {
      var c :| c in p[..k] && stop(c) == Cancelled;
      FailedStartLeaves(r, components, start, stop, k);
      ForgottenIff(p[..k], stop, c);
      assert c in p && c !in r.running;
      var after := StartAll(r, components, start, stop).0;
      assert c in Elements(after.running);
    }
  }

  lemma FailedStartLeaves(r: Runtime, components: seq<Component>, start: Outcomes, stop: Outcomes, k: nat)
    requires !r.locked && Distinct(components) && Distinct(r.running)
    requires var p := Pending(components, r.running); FirstNotStarted(p, start, k) && start(p[k]) == Failed
    ensures var front := Pending(components, r.running)[..k];
            var after := StartAll(r, components, start, stop).0;
            && Elements(after.running) == Elements(r.running) + Elements(front) - Forgotten(front, stop)
            && after.live == r.live + Elements(front) - (set c | c in Forgotten(front, stop) && stop(c) == Done)
  {
    var p := Pending(components, r.running);
    StartsInOrder(r, p, k, start, stop);
    PendingPrefixDistinct(components, r.running, k);
    assert p[k..][0] == p[k];
    RollbackLeaves(Tried(StartedUpTo(r, p, k), p[k]), p[..k], stop);
    assert Elements(r.running + p[..k]) == Elements(r.running) + Elements(p[..k]);
  }

  /** Position i of the rollback's list: its stop failed and was not shielded by a later one, tried before
      it, that was cancelled. */
  ghost predicate LostAt(front: seq<Component>, stop: Outcomes, i: nat) {
    ReachedAt(front, stop, i) && stop(front[i]) == Failed
  }

  /** If everything live was tracked before, a start that does not complete leaves something live and
      untracked if and only if it failed and some stop that its rollback reached failed. */
  lemma AllTrackedIff(r: Runtime, components: seq<Component>, start: Outcomes, stop: Outcomes, k: nat)
    requires !r.locked && Distinct(components) && Distinct(r.running) && r.live == Elements(r.running)
    requires FirstNotStarted(Pending(components, r.running), start, k)
    ensures var p := Pending(components, r.running);
            var after := StartAll(r, components, start, stop).0;
            after.live <= Elements(after.running) <==>
              start(p[k]) == Cancelled || forall i: nat :: !LostAt(p[..k], stop, i)
  {
    var p := Pending(components, r.running);
    var front := p[..k];
    var after := StartAll(r, components, start, stop).0;
    if start(p[k]) == Cancelled {
      CancelledStartKeeps(r, components, start, stop, k);
    } else {
      FailedStartLeaves(r, components, start, stop, k);
      if i: nat :| LostAt(front, stop, i) {
        ForgottenIff(front, stop, front[i]);
        assert front[i] in after.live;
      }
      if !(after.live <= Elements(after.running)) {
        var c :| c in after.live && c !in Elements(after.running);
        ForgottenIff(front, stop, c);
        var i: nat :| ReachedAt(front, stop, i) && front[i] == c;
        assert LostAt(front, stop, i);
      }
    }
  }

  lemma PendingPair()
    ensures Pending([1, 2], []) == [1, 2]
  {
    assert [1, 2][1..] == [2] && [2][1..] == [];
    assert Pending([2], []) == [2];
  }

  /** The second of two starts is cancelled: the first component stays running. */
  lemma CancelledStartInstance() returns (r: Runtime, start: Outcomes, stop: Outcomes)
    ensures r == Runtime(false, [], {}, []) && StartAll(r, [1, 2], start, stop).0.running == [1]
  {
    r, start, stop := Runtime(false, [], {}, []), c => if c == 1 then Done else Cancelled, c => Failed;
    PendingPair();
    CancelledStartKeeps(r, [1, 2], start, stop, 1);
  }

  /** The second of two starts fails and the first component cannot be stopped: it stays live, and nothing
      is tracked. */
  lemma UntrackedInstance() returns (r: Runtime, start: Outcomes, stop: Outcomes)
    ensures r == Runtime(false, [], {}, [])
    ensures var after := StartAll(r, [1, 2], start, stop).0; after.running == [] && 1 in after.live
  {
    r, start, stop := Runtime(false, [], {}, []), c => if c == 1 then Done else Failed, c => Failed;
    PendingPair();
    assert [1, 2][..1] == [1];
    FailedStartRestores(r, [1, 2], start, stop, 1);
  }

  // ---- Every call sequence ---------------------------------------------------------------------

  datatype Call =
    | StartCall(start: Outcomes, stop: Outcomes)
    | LockCall(stop: Outcomes)
    | UnlockCall(load: Load)

  function Apply(r: Runtime, components: seq<Component>, call: Call): Runtime {
    match call
    case StartCall(start, stop) => StartAll(r, components, start, stop).0
    case LockCall(stop) => Lock(r, stop).0
    case UnlockCall(load) => Unlock(r, load).0
  }

  function Run(r: Runtime, components: seq<Component>, calls: seq<Call>): Runtime
    decreases |calls|
  {
    if calls == [] then r else Run(Apply(r, components, calls[0]), components, calls[1..])
  }

  /** The running list holds registered components once each, all of them live. */
  ghost predicate Tracked(r: Runtime, components: seq<Component>) {
    && Distinct(r.running)
    && (forall c :: c in r.running ==> c in components && c in r.live)
  }

  lemma {:induction false} WithoutKeepsRest(s: seq<Component>, c: Component)
    requires Distinct(s)
    ensures Distinct(Without(s, c)) && forall d :: d in Without(s, c) <==> d in s && d != c
  {
    if s != [] {
      assert Distinct(s[1..]) && s[0] !in s[1..];
      WithoutKeepsRest(s[1..], c);
      assert forall d :: d in s <==> d == s[0] || d in s[1..];
    }
  }

  /** Stopping, cancelled or not, leaves the state tracked once the listed components are the running
      ones, and starts nothing. */
  lemma {:induction false} StopEachTracked(r: Runtime, components: seq<Component>, order: seq<Component>, stop: Outcomes, keepFailed: bool)
    requires Tracked(r, components)
    ensures var after := StopEach(r, order, stop, keepFailed).0;
            && Tracked(after, components) && after.locked == r.locked && OnlyStops(after.attempts, r.attempts)
    decreases |order|
  {
    if order != [] {
      var c := order[0];
      WithoutKeepsRest(r.running, c);
      var tried := r.(attempts := r.attempts + [Stopped(c)], live := if stop(c) == Done then r.live - {c} else r.live);
      if stop(c) != Cancelled {
        StopEachTracked(tried.(running := AfterStop(r.running, c, stop, keepFailed)), components, order[1..], stop, keepFailed);
      }
    }
  }

  ghost predicate OnlyStops(now: seq<Action>, before: seq<Action>) {
    before <= now && forall i :: |before| <= i < |now| ==> now[i].Stopped?
  }

  lemma {:induction false} StartFromTracked(r: Runtime, components: seq<Component>, started: seq<Component>, pending: seq<Component>, start: Outcomes, stop: Outcomes)
    requires Tracked(r, components) && Distinct(r.running + pending)
    requires forall c :: c in pending ==> c in components
    ensures var after := StartFrom(r, started, pending, start, stop).0;
            Tracked(after, components) && after.locked == r.locked
    decreases |pending|
  {
    if pending != [] {
      var c := pending[0];
      assert c in pending;
      var tried := r.(attempts := r.attempts + [Started(c)], live := if start(c) == Done then r.live + {c} else r.live);
      if start(c) == Failed {
        StopEachTracked(tried, components, Reverse(started), stop, false);
      } else if start(c) == Done {
        assert r.running + pending == r.running + [c] + pending[1..];
        DistinctPrefix(r.running + [c], pending[1..]);
        StartFromTracked(tried.(running := r.running + [c]), components, started + [c], pending[1..], start, stop);
      }
    }
  }

  /** Over every call sequence and every pattern of failures and cancellations, what is tracked as
      running is live, registered, and listed once. */
  lemma {:induction false} RunTracked(r: Runtime, components: seq<Component>, calls: seq<Call>)
    requires Tracked(r, components) && Distinct(components)
    ensures Tracked(Run(r, components, calls), components)
    decreases |calls|
  {
    if calls != [] {
      match calls[0] {
        case StartCall(start, stop) =>
          PendingDistinct(components, r.running);
          StartFromTracked(r, components, [], Pending(components, r.running), start, stop);
        case LockCall(stop) =>
          StopEachTracked(r.(locked := true), components, Reverse(r.running), stop, true);
        case UnlockCall(_) =>
      }
      RunTracked(Apply(r, components, calls[0]), components, calls[1..]);
    }
  }

  /** From a locked state, unless some call finds a durable operational identity with a secret, the
      Agent stays locked and nothing whatever is started. */
  lemma {:induction false} LockedStartsNothing(r: Runtime, components: seq<Component>, calls: seq<Call>)
    requires r.locked && Tracked(r, components) && Distinct(components)
    requires forall i :: 0 <= i < |calls| && calls[i].UnlockCall? ==> !MayUnlock(calls[i].load)
    ensures var after := Run(r, components, calls);
            after.locked && OnlyStops(after.attempts, r.attempts) && Elements(after.running) <= Elements(r.running)
    decreases |calls|
  {
    if calls != [] {
      var next := Apply(r, components, calls[0]);
      if calls[0].LockCall? {
        StopEachTracked(r.(locked := true), components, Reverse(r.running), calls[0].stop, true);
        StopEachShrinks(r.(locked := true), Reverse(r.running), calls[0].stop, true);
      }
      LockedStartsNothing(next, components, calls[1..]);
    }
  }

  lemma {:induction false} StopEachShrinks(r: Runtime, order: seq<Component>, stop: Outcomes, keepFailed: bool)
    ensures Elements(StopEach(r, order, stop, keepFailed).0.running) <= Elements(r.running)
    decreases |order|
  {
    if order != [] && stop(order[0]) != Cancelled {
      var c := order[0];
      var tried := r.(attempts := r.attempts + [Stopped(c)], live := if stop(c) == Done then r.live - {c} else r.live);
      StopEachShrinks(tried.(running := AfterStop(r.running, c, stop, keepFailed)), order[1..], stop, keepFailed);
    }
  }
}
