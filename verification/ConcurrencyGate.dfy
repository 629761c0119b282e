/**
 The gates every action passes: the process-wide semaphore, then, under the
 parallel strategy, the named lock of its ruleset. Actions of all rulesets
 share the semaphore; waiters are served in any order.
 */
module ConcurrencyGate {
  import opened Wrappers
  import Loop = ActionLoop

  const DEFAULT_MAX_CONCURRENT_ACTIONS := 25

  // setup_semaphores: 0 asks for the default.
  function EffectiveLimit(configured: nat): (limit: nat)
    ensures limit >= 1 && (configured >= 1 ==> limit == configured) && (configured == 0 ==> limit == 25)
  {
    if configured == 0 then DEFAULT_MAX_CONCURRENT_ACTIONS else configured
  }

  // A lock is used under the parallel strategy only; an empty name is none.
  function EffectiveLock(strategy: Loop.Strategy, lock: Option<string>): Option<string> {
    if strategy.Parallel? && lock.Some? && lock.value != "" then lock else None
  }

  datatype Pc =
    | Waiting       // for a permit
    | Inside        // in _call_action, before the body
    | WaitingLock   // for the named lock
    | Body
    | Leaving       // body over, lock released, permit still held
    | Done

  // strategy and asked are what the action was created with, lock what it uses.
  datatype Action = Action(ruleset: string, strategy: Loop.Strategy, asked: Option<string>, lock: Option<string>, pc: Pc)

  // A lock belongs to one ruleset.
  datatype LockName = LockName(ruleset: string, name: string)

  datatype State = State(limit: nat, permits: nat, actions: seq<Action>, holders: map<LockName, nat>)

  function Initial(configured: nat): State {
    State(EffectiveLimit(configured), EffectiveLimit(configured), [], map[])
  }

  datatype Step =
    | Spawn(ruleset: string, strategy: Loop.Strategy, lock: Option<string>)
    | AcquirePermit(id: nat)
    | SkipBody(id: nat)
    | ReachBody(id: nat)
    | AcquireLock(id: nat)
    | EndBody(id: nat)
    | Leave(id: nat)
    | Cancel(id: nat)

  predicate HoldsPermit(a: Action) {
    !a.pc.Waiting? && !a.pc.Done?
  }

  predicate LockFree(s: State, a: Action)
    requires a.lock.Some?
  {
    LockName(a.ruleset, a.lock.value) !in s.holders
  }

  predicate Enabled(s: State, step: Step) {
    match step
    case Spawn(_, _, _) => true
    case AcquirePermit(id) => id < |s.actions| && s.actions[id].pc.Waiting? && s.permits > 0
    case SkipBody(id) => id < |s.actions| && s.actions[id].pc.Inside?
    case ReachBody(id) => id < |s.actions| && s.actions[id].pc.Inside?
    case AcquireLock(id) =>
      id < |s.actions| && s.actions[id].pc.WaitingLock? && s.actions[id].lock.Some? && LockFree(s, s.actions[id])
    case EndBody(id) => id < |s.actions| && s.actions[id].pc.Body?
    case Leave(id) => id < |s.actions| && s.actions[id].pc.Leaving?
    case Cancel(id) => id < |s.actions| && !s.actions[id].pc.Done?
  }

  function Goto(s: State, id: nat, pc: Pc): State
    requires id < |s.actions|
  {
    s.(actions := s.actions[id := s.actions[id].(pc := pc)])
  }

  // Leaving the body by its end or by cancellation releases the lock.
  function ReleaseLock(s: State, id: nat): State
    requires id < |s.actions|
  {
    var a := s.actions[id];
    if a.pc.Body? && a.lock.Some? then s.(holders := s.holders - {LockName(a.ruleset, a.lock.value)}) else s
  }

  function ReleasePermit(s: State, id: nat): State
    requires id < |s.actions|
  {
    if HoldsPermit(s.actions[id]) then s.(permits := s.permits + 1) else s
  }

  function Apply(s: State, step: Step): State
    requires Enabled(s, step)
  {
    match step
    case Spawn(ruleset, strategy, lock) =>
      s.(actions := s.actions + [Action(ruleset, strategy, lock, EffectiveLock(strategy, lock), Waiting)])
    case AcquirePermit(id) => Goto(s.(permits := s.permits - 1), id, Inside)
    case SkipBody(id) => Goto(s, id, Leaving)
    case ReachBody(id) => Goto(s, id, if s.actions[id].lock.Some? then WaitingLock else Body)
    case AcquireLock(id) =>
      var a := s.actions[id];
      Goto(s.(holders := s.holders[LockName(a.ruleset, a.lock.value) := id]), id, Body)
    case EndBody(id) => Goto(ReleaseLock(s, id), id, Leaving)
    case Leave(id) => Goto(ReleasePermit(s, id), id, Done)
    case Cancel(id) => Goto(ReleasePermit(ReleaseLock(s, id), id), id, Done)
  }

  ghost predicate IsRun(s: State, steps: seq<Step>)
    decreases |steps|
  {
    steps == [] || (Enabled(s, steps[0]) && IsRun(Apply(s, steps[0]), steps[1..]))
  }

  ghost function After(s: State, steps: seq<Step>): State
    requires IsRun(s, steps)
    decreases |steps|
  {
    if steps == [] then s else After(Apply(s, steps[0]), steps[1..])
  }

  // --- Sums over the actions -----------------------------------------------

  function Sum(weight: Action -> nat, actions: seq<Action>): nat {
    if actions == [] then 0 else Sum(weight, actions[..|actions| - 1]) + weight(actions[|actions| - 1])
  }

  lemma {:induction false} SumUpdate(weight: Action -> nat, actions: seq<Action>, id: nat, a: Action)
    requires id < |actions|
    ensures Sum(weight, actions[id := a]) + weight(actions[id]) == Sum(weight, actions) + weight(a)
    decreases |actions|
  {
    var n := |actions| - 1;
    if id == n {
      assert actions[id := a][..n] == actions[..n];
    } else {
      SumUpdate(weight, actions[..n], id, a);
      assert actions[id := a][..n] == actions[..n][id := a];
    }
  }

  function PermitsOf(a: Action): nat {
    if HoldsPermit(a) then 1 else 0
  }

  // How far an action is from its end.
  function WorkOf(a: Action): nat {
    match a.pc
    case Waiting => 5
    case Inside => 4
    case WaitingLock => 3
    case Body => 2
    case Leaving => 1
    case Done => 0
  }

  function PermitsHeld(s: State): nat {
    Sum(PermitsOf, s.actions)
  }

  function Work(s: State): nat {
    Sum(WorkOf, s.actions)
  }

  // --- Invariant -----------------------------------------------------------

  // A lock is held exactly by the action that runs its body under it.
  predicate LocksOk(s: State) {
    && (forall id :: 0 <= id < |s.actions| && s.actions[id].pc.Body? && s.actions[id].lock.Some? ==>
          LockName(s.actions[id].ruleset, s.actions[id].lock.value) in s.holders
          && s.holders[LockName(s.actions[id].ruleset, s.actions[id].lock.value)] == id)
    && (forall l :: l in s.holders ==>
          && s.holders[l] < |s.actions|
          && s.actions[s.holders[l]].pc.Body?
          && s.actions[s.holders[l]].lock == Some(l.name)
          && s.actions[s.holders[l]].ruleset == l.ruleset)
    && (forall id :: 0 <= id < |s.actions| && s.actions[id].pc.WaitingLock? ==> s.actions[id].lock.Some?)
  }

  // Under the parallel strategy an action uses the lock it asks for by a name
  // that is not empty, else none.
  predicate UsesAsked(a: Action) {
    if a.strategy == Loop.Parallel && a.asked.Some? && a.asked != Some("") then a.lock == a.asked else a.lock == None
  }

  predicate AskedOk(s: State) {
    forall id :: 0 <= id < |s.actions| ==> UsesAsked(s.actions[id])
  }

  lemma StepKeepsAsked(s: State, step: Step)
    requires AskedOk(s) && Enabled(s, step)
    ensures AskedOk(Apply(s, step))
  {
  }

  predicate PermitsOk(s: State) {
    s.permits + PermitsHeld(s) == s.limit
  }

  lemma AcquireKeepsLocks(s: State, id: nat)
    requires LocksOk(s) && Enabled(s, AcquireLock(id))
    ensures LocksOk(Apply(s, AcquireLock(id)))
  {
  }

  // Going on without touching a lock.
  lemma GotoKeepsLocks(s: State, id: nat, pc: Pc)
    requires LocksOk(s) && id < |s.actions| && !s.actions[id].pc.Body?
    requires pc.Body? ==> s.actions[id].lock.None?
    requires pc.WaitingLock? ==> s.actions[id].lock.Some?
    ensures LocksOk(Goto(s, id, pc))
  {
  }

  // Leaving the body.
  lemma ReleaseKeepsLocks(s: State, id: nat, pc: Pc)
    requires LocksOk(s) && id < |s.actions| && s.actions[id].pc.Body?
    requires !pc.Body? && !pc.WaitingLock?
    ensures LocksOk(Goto(ReleaseLock(s, id), id, pc))
  {
  }

  lemma {:induction false} StepKeepsLocks(s: State, step: Step)
    requires LocksOk(s) && Enabled(s, step)
    ensures LocksOk(Apply(s, step))
  {
    match step
    case Spawn(_, _, _) =>
    case AcquirePermit(id) => GotoKeepsLocks(s.(permits := s.permits - 1), id, Inside);
    case SkipBody(id) => GotoKeepsLocks(s, id, Leaving);
    case ReachBody(id) => GotoKeepsLocks(s, id, if s.actions[id].lock.Some? then WaitingLock else Body);
    case AcquireLock(id) => AcquireKeepsLocks(s, id);
    case EndBody(id) => ReleaseKeepsLocks(s, id, Leaving);
    case Leave(id) => GotoKeepsLocks(ReleasePermit(s, id), id, Done);
    case Cancel(id) =>
      if s.actions[id].pc.Body? {
        ReleaseKeepsLocks(s, id, Done);
      } else {
        GotoKeepsLocks(ReleasePermit(s, id), id, Done);
      }
  }

  lemma StepKeepsPermits(s: State, step: Step)
    requires PermitsOk(s) && Enabled(s, step)
    ensures PermitsOk(Apply(s, step))
  {
    var s' := Apply(s, step);
    if step.Spawn? {
      assert s'.actions[..|s.actions|] == s.actions;
    } else {
      SumUpdate(PermitsOf, s.actions, step.id, s'.actions[step.id]);
    }
  }

  lemma {:induction false} RunKeepsInv(s: State, steps: seq<Step>)
    requires LocksOk(s) && PermitsOk(s) && AskedOk(s) && IsRun(s, steps)
    ensures var e := After(s, steps); LocksOk(e) && PermitsOk(e) && AskedOk(e) && e.limit == s.limit
    decreases |steps|
  {
    if steps != [] {
      StepKeepsLocks(s, steps[0]);
      StepKeepsPermits(s, steps[0]);
      StepKeepsAsked(s, steps[0]);
      RunKeepsInv(Apply(s, steps[0]), steps[1..]);
    }
  }

  // --- What holds over every run -------------------------------------------

  // Spawned under the parallel strategy with a lock that has a name.
  predicate AsksFor(a: Action, name: string) {
    a.strategy == Loop.Parallel && a.asked == Some(name) && name != ""
  }

  // Free permits and actions inside _call_action always make up the limit,
  // over all rulesets together. Two parallel actions of one ruleset that ask for
  // the same lock never run their bodies together, and an action that is
  // sequential or asks for none never waits for a lock.
  lemma {:induction false} GateOverEveryRun(configured: nat, steps: seq<Step>)
    requires IsRun(Initial(configured), steps)
    ensures var e := After(Initial(configured), steps);
            && e.permits + PermitsHeld(e) == EffectiveLimit(configured)
            && (forall a, b, name :: 0 <= a < b < |e.actions| && e.actions[a].pc.Body? && e.actions[b].pc.Body?
                                     && AsksFor(e.actions[a], name) && AsksFor(e.actions[b], name) ==>
                  e.actions[a].ruleset != e.actions[b].ruleset)
            && (forall a :: 0 <= a < |e.actions| && e.actions[a].pc.WaitingLock? ==>
                  e.actions[a].asked.Some? && AsksFor(e.actions[a], e.actions[a].asked.value))
  {
    RunKeepsInv(Initial(configured), steps);
    var e := After(Initial(configured), steps);
    forall id | 0 <= id < |e.actions| ensures UsesAsked(e.actions[id]) {
    }
  }

  // A step that an unfinished action can take on its own account.
  predicate IsProgress(step: Step) {
    !step.Spawn? && !step.Cancel?
  }

  // An action that is not over and holds no permit waits for one.
  lemma {:induction false} NoPermitHeld(actions: seq<Action>)
    requires forall id :: 0 <= id < |actions| ==> !HoldsPermit(actions[id])
    ensures Sum(PermitsOf, actions) == 0
  {
    if actions != [] {
      NoPermitHeld(actions[..|actions| - 1]);
    }
  }

  // No deadlock: permits are taken before locks, so while an action is
  // unfinished some action can step.
  lemma SomeActionCanStep(s: State, id: nat) returns (step: Step)
    requires LocksOk(s) && PermitsOk(s) && s.limit >= 1
    requires id < |s.actions| && !s.actions[id].pc.Done?
    ensures Enabled(s, step) && IsProgress(step) && !step.SkipBody?
  {
    if i :| 0 <= i < |s.actions| && HoldsPermit(s.actions[i]) {
      match s.actions[i].pc
      case Inside => step := ReachBody(i);
      case Body => step := EndBody(i);
      case Leaving => step := Leave(i);
      case WaitingLock =>
        var name := LockName(s.actions[i].ruleset, s.actions[i].lock.value);
        step := if name in s.holders then EndBody(s.holders[name]) else AcquireLock(i);
    } else {
      NoPermitHeld(s.actions);
      step := AcquirePermit(id);
    }
  }

  lemma StepDoesWork(s: State, step: Step)
    requires Enabled(s, step) && !step.Spawn?
    ensures Work(Apply(s, step)) < Work(s)
  {
    SumUpdate(WorkOf, s.actions, step.id, Apply(s, step).actions[step.id]);
  }

  lemma {:induction false} RunDoesWork(s: State, steps: seq<Step>)
    requires IsRun(s, steps) && forall step :: step in steps ==> !step.Spawn?
    ensures |steps| + Work(After(s, steps)) <= Work(s)
    ensures |After(s, steps).actions| == |s.actions|
    decreases |steps|
  {
    if steps != [] {
      assert steps[0] in steps && forall step :: step in steps[1..] ==> step in steps;
      StepDoesWork(s, steps[0]);
      RunDoesWork(Apply(s, steps[0]), steps[1..]);
    }
  }

  // Every action ends: without new actions a run has at most Work(s) steps,
  // and a run that cannot be continued by any action has finished all of them.
  lemma {:induction false} AllActionsFinish(configured: nat, before: seq<Step>, steps: seq<Step>)
    requires IsRun(Initial(configured), before)
    requires IsRun(After(Initial(configured), before), steps)
    requires forall step :: step in steps ==> !step.Spawn?
    ensures var s := After(Initial(configured), before);
            var e := After(s, steps);
            && |steps| <= Work(s)
            && ((forall step :: IsProgress(step) ==> !Enabled(e, step)) ==>
                  forall id :: 0 <= id < |e.actions| ==> e.actions[id].pc.Done?)
  {
    var s := After(Initial(configured), before);
    RunKeepsInv(Initial(configured), before);
    RunKeepsInv(s, steps);
    RunDoesWork(s, steps);
    var e := After(s, steps);
    if (forall step :: IsProgress(step) ==> !Enabled(e, step))
       && exists id :: 0 <= id < |e.actions| && !e.actions[id].pc.Done? {
      var id :| 0 <= id < |e.actions| && !e.actions[id].pc.Done?;
      var step := SomeActionCanStep(e, id);
      assert false;
    }
  }
}
