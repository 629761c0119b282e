/**
 The action loop of one ruleset: contexts are taken from the plan queue and
 dispatched under the sequential or the parallel strategy, and a graceful
 shutdown waits for what was dispatched. Session statistics are off (heartbeat
 0), so nothing waits between taking a context and creating its task.
 */
module ActionLoop {
  import opened Wrappers

  datatype Strategy = Sequential | Parallel

  // The actions of one rule match; the rule schema asks for at least one.
  type Context = c: seq<string> | |c| >= 1 witness [""]

  datatype End = Returned | Raised

  // Contexts are numbered in the order they leave the queue.
  datatype Task =
    | Driver(ctx: nat, next: nat, child: Option<nat>, end: Option<End>)
    | Action(ctx: nat, index: nat, end: Option<End>)

  datatype LoopPc = Getting | Awaiting(task: nat) | Over

  datatype Kind = Graceful | Now

  // active, shutdown and the queue are the source's fields; cancelled says
  // that the loop task was told to stop, sleeping that the shutdown delay is
  // running. dequeued, roots and started record what happened: the contexts
  // taken so far, the asyncio task created for each, and every action dispatched.
  datatype State = State(
    strategy: Strategy,
    queue: seq<Context>,
    active: set<nat>,
    shutdown: Option<Kind>,
    loop: LoopPc,
    cancelled: bool,
    sleeping: bool,
    tasks: seq<Task>,
    dequeued: seq<Context>,
    roots: seq<nat>,
    started: seq<(nat, nat)>)

  function Initial(strategy: Strategy): State {
    State.State(strategy, [], {}, None, Getting, false, false, [], [], [], [])
  }

  datatype Step =
    | Put(context: Context)
    | Get
    | StartNext(driver: nat)
    | ResumeDriver(driver: nat)
    | CancelDriver(driver: nat)
    | EndAction(task: nat, end: End)
    | Callback(task: nat)
    | ResumeLoop
    | LoopCancelled
    | Shutdown(kind: Kind)
    | DelayElapsed

  predicate IsOpenDriver(s: State, d: nat) {
    d < |s.tasks| && s.tasks[d].Driver? && s.tasks[d].end.None? && s.tasks[d].ctx < |s.dequeued|
  }

  predicate ChildEnded(s: State, d: nat)
    requires d < |s.tasks| && s.tasks[d].Driver?
  {
    s.tasks[d].child.Some? && s.tasks[d].child.value < |s.tasks| && s.tasks[s.tasks[d].child.value].end.Some?
  }

  predicate Enabled(s: State, step: Step) {
    match step
    case Put(_) => true
    case Get => s.loop.Getting? && s.queue != []
    case StartNext(d) => IsOpenDriver(s, d) && s.tasks[d].child.None? && s.tasks[d].next < |s.dequeued[s.tasks[d].ctx]|
    case ResumeDriver(d) => IsOpenDriver(s, d) && ChildEnded(s, d)
    case CancelDriver(d) => IsOpenDriver(s, d) && (s.tasks[d].child.None? || ChildEnded(s, d))
    case EndAction(t, _) => t < |s.tasks| && s.tasks[t].Action? && s.tasks[t].end.None?
    case Callback(t) => t in s.active && t < |s.tasks| && s.tasks[t].end.Some?
    case ResumeLoop => s.loop.Awaiting? && s.loop.task < |s.tasks| && s.tasks[s.loop.task].end.Some?
    case LoopCancelled => s.cancelled && !s.loop.Over?
    case Shutdown(_) => s.shutdown.None?
    case DelayElapsed => s.sleeping
  }

  // _drain_actionplan_queue: one context.
  function GetOne(s: State): State
    requires s.queue != []
  {
    var c, n, t := s.queue[0], |s.dequeued|, |s.tasks|;
    var task := if |c| > 1 then Driver(n, 0, None, None) else Action(n, 0, None);
    s.(queue := s.queue[1..],
       dequeued := s.dequeued + [c],
       roots := s.roots + [t],
       tasks := s.tasks + [task],
       active := s.active + {t},
       started := if |c| > 1 then s.started else s.started + [(n, 0)],
       loop := if s.strategy.Sequential? then Awaiting(t) else Getting)
  }

  // _run_multiple_actions: the next action.
  function StartAction(s: State, d: nat): State
    requires IsOpenDriver(s, d)
  {
    var driver, a := s.tasks[d], |s.tasks|;
    s.(tasks := s.tasks[d := driver.(next := driver.next + 1, child := Some(a))]
                + [Action(driver.ctx, driver.next, None)],
       active := s.active + {a},
       started := s.started + [(driver.ctx, driver.next)])
  }

  function Ended(task: Task, end: End): Task {
    match task
    case Driver(ctx, next, child, _) => Driver(ctx, next, child, Some(end))
    case Action(ctx, index, _) => Action(ctx, index, Some(end))
  }

  // _run_multiple_actions: the awaited action is over.
  function ResumeOne(s: State, d: nat): State
    requires IsOpenDriver(s, d) && ChildEnded(s, d)
  {
    var driver := s.tasks[d];
    var driver' :=
      if s.tasks[driver.child.value].end == Some(Raised) then Ended(driver, Raised)
      else if driver.next < |s.dequeued[driver.ctx]| then driver.(child := None)
      else Ended(driver, Returned);
    s.(tasks := s.tasks[d := driver'])
  }

  // _handle_action_completion
  function Complete(s: State, t: nat): State {
    var s1 := s.(active := s.active - {t});
    if s.queue == [] && s.shutdown.Some? && s1.active == {} && !s.loop.Over? then s1.(cancelled := true) else s1
  }

  // _handle_shutdown, up to the delay.
  function HandleShutdown(s: State, kind: Kind): State {
    var s1 := s.(shutdown := Some(kind));
    if kind.Now? then s1.(cancelled := true)
    else if s.queue == [] && s.active == {} then s1.(cancelled := true)
    else s1.(sleeping := true)
  }

  function Apply(s: State, step: Step): State
    requires Enabled(s, step)
  {
    match step
    case Put(context) => s.(queue := s.queue + [context])
    case Get => GetOne(s)
    case StartNext(d) => StartAction(s, d)
    case ResumeDriver(d) => ResumeOne(s, d)
    case CancelDriver(d) => s.(tasks := s.tasks[d := Ended(s.tasks[d], Raised)])
    case EndAction(t, end) => s.(tasks := s.tasks[t := Ended(s.tasks[t], end)])
    case Callback(t) => Complete(s, t)
    case ResumeLoop =>
      s.(loop := if s.tasks[s.loop.task].end == Some(Returned) then Getting else Over)
    case LoopCancelled => s.(loop := Over)
    case Shutdown(kind) => HandleShutdown(s, kind)
    case DelayElapsed =>
      if s.loop.Over? then s.(sleeping := false) else s.(sleeping := false, cancelled := true)
  }

  ghost predicate IsRun(s: State, steps: seq<Step>)
    decreases |steps|
  {
    steps == [] || (Enabled(s, steps[0]) && IsRun(Apply(s, steps[0]), steps[1..]))
  }

  ghost function After(s: State, steps: seq<Step>): State
    requires IsRun(s, steps)
    decreases |steps|
  {
    if steps == [] then s else After(Apply(s, steps[0]), steps[1..])
  }

  // --- Tasks ---------------------------------------------------------------

  predicate RootOk(s: State, n: nat)
    requires n < |s.dequeued| && |s.roots| == |s.dequeued|
  {
    var r := s.roots[n];
    && r < |s.tasks| && s.tasks[r].ctx == n
    && (if |s.dequeued[n]| == 1 then s.tasks[r].Action? && s.tasks[r].index == 0
        else s.tasks[r].Driver? && s.tasks[r].next <= |s.dequeued[n]|)
  }

  // A context has one task of its own: its driver, or its only action.
  predicate RootsOk(s: State) {
    && |s.roots| == |s.dequeued|
    && (forall n :: 0 <= n < |s.dequeued| ==> RootOk(s, n))
    && (forall t :: 0 <= t < |s.tasks| ==> s.tasks[t].ctx < |s.dequeued|)
    && (forall t :: 0 <= t < |s.tasks| && s.tasks[t].Driver? ==> s.roots[s.tasks[t].ctx] == t)
    && (forall t :: 0 <= t < |s.tasks| && |s.dequeued[s.tasks[t].ctx]| == 1 ==> s.roots[s.tasks[t].ctx] == t)
  }

  // A driver has started the actions before `next`; all of them returned,
  // except the one it waits for.
  predicate DriverOk(s: State, d: nat)
    requires d < |s.tasks| && s.tasks[d].Driver?
  {
    var driver := s.tasks[d];
    && (driver.child.Some? ==>
          && driver.child.value < |s.tasks| && s.tasks[driver.child.value].Action?
          && s.tasks[driver.child.value].ctx == driver.ctx && s.tasks[driver.child.value].index + 1 == driver.next)
    && (forall t :: 0 <= t < |s.tasks| && s.tasks[t].Action? && s.tasks[t].ctx == driver.ctx ==>
          && s.tasks[t].index < driver.next
          && (driver.child != Some(t) ==> s.tasks[t].end == Some(Returned)))
    && (driver.end == Some(Returned) ==>
          driver.child.Some? && s.tasks[driver.child.value].end == Some(Returned)
          && driver.ctx < |s.dequeued| && driver.next == |s.dequeued[driver.ctx]|)
    && (driver.child.None? ==> driver.end != Some(Returned))
  }

  predicate DriversOk(s: State) {
    forall d :: 0 <= d < |s.tasks| && s.tasks[d].Driver? ==> DriverOk(s, d)
  }

  // What is not over is active.
  predicate ActiveOk(s: State) {
    && (forall t :: 0 <= t < |s.tasks| && s.tasks[t].end.None? ==> t in s.active)
    && (forall t :: t in s.active ==> t < |s.tasks|)
  }

  predicate NoPendingWork(s: State) {
    s.queue == [] && s.active == {}
  }

  // A shutdown without pending work has told the loop to stop.
  predicate ShutdownOk(s: State) {
    s.shutdown.Some? && NoPendingWork(s) ==> s.cancelled || s.loop.Over?
  }

  predicate TasksOk(s: State) {
    RootsOk(s) && DriversOk(s) && ActiveOk(s)
  }

  predicate Inv(s: State) {
    TasksOk(s) && ShutdownOk(s)
  }

  lemma GetKeepsTasks(s: State)
    requires TasksOk(s) && Enabled(s, Get)
    ensures TasksOk(GetOne(s))
  {
    var s' := GetOne(s);
    var n, r := |s.dequeued|, |s.tasks|;
    assert forall m :: 0 <= m < n ==> RootOk(s, m);
    forall m | 0 <= m < |s'.dequeued| ensures RootOk(s', m) {
      if m < n {
        assert RootOk(s, m);
      }
    }
    forall d | 0 <= d < |s'.tasks| && s'.tasks[d].Driver? ensures DriverOk(s', d) {
      if d < r {
        assert DriverOk(s, d);
      }
    }
  }

  lemma StartKeepsRoots(s: State, d: nat)
    requires TasksOk(s) && Enabled(s, StartNext(d))
    ensures RootsOk(StartAction(s, d))
  {
    var s' := StartAction(s, d);
    assert RootOk(s, s.tasks[d].ctx);
    forall n | 0 <= n < |s'.dequeued| ensures RootOk(s', n) {
      assert RootOk(s, n);
    }
  }

  lemma StartKeepsDriver(s: State, d: nat, e: nat)
    requires TasksOk(s) && Enabled(s, StartNext(d)) && e < |s.tasks| && s.tasks[e].Driver?
    ensures DriverOk(StartAction(s, d), e)
  {
    assert s.roots[s.tasks[d].ctx] == d && DriverOk(s, d) && DriverOk(s, e);
  }

  lemma StartKeepsTasks(s: State, d: nat)
    requires TasksOk(s) && Enabled(s, StartNext(d))
    ensures TasksOk(StartAction(s, d))
  {
    StartKeepsRoots(s, d);
    var s' := StartAction(s, d);
    forall e | 0 <= e < |s'.tasks| && s'.tasks[e].Driver? ensures DriverOk(s', e) {
      StartKeepsDriver(s, d, e);
    }
  }

  lemma ResumeKeepsRoots(s: State, d: nat)
    requires TasksOk(s) && Enabled(s, ResumeDriver(d))
    ensures RootsOk(ResumeOne(s, d))
  {
    var s' := ResumeOne(s, d);
    forall n | 0 <= n < |s'.dequeued| ensures RootOk(s', n) {
      assert RootOk(s, n);
    }
  }

  lemma ResumeKeepsDriver(s: State, d: nat, e: nat)
    requires TasksOk(s) && Enabled(s, ResumeDriver(d)) && e < |s.tasks| && s.tasks[e].Driver?
    ensures DriverOk(ResumeOne(s, d), e)
  {
    assert DriverOk(s, d) && DriverOk(s, e) && RootOk(s, s.tasks[d].ctx) && s.roots[s.tasks[d].ctx] == d;
    assert s.tasks[s.tasks[d].child.value].end.value.Raised? || s.tasks[s.tasks[d].child.value].end.value.Returned?;
  }

  lemma ResumeKeepsTasks(s: State, d: nat)
    requires TasksOk(s) && Enabled(s, ResumeDriver(d))
    ensures TasksOk(ResumeOne(s, d))
  {
    ResumeKeepsRoots(s, d);
    var s' := ResumeOne(s, d);
    forall e | 0 <= e < |s'.tasks| && s'.tasks[e].Driver? ensures DriverOk(s', e) {
      ResumeKeepsDriver(s, d, e);
    }
  }

  lemma EndKeepsTasks(s: State, t: nat, end: End)
    requires TasksOk(s) && t < |s.tasks| && s.tasks[t].end.None? && (s.tasks[t].Driver? ==> end == Raised)
    ensures TasksOk(s.(tasks := s.tasks[t := Ended(s.tasks[t], end)]))
  {
    var s' := s.(tasks := s.tasks[t := Ended(s.tasks[t], end)]);
    forall n | 0 <= n < |s'.dequeued| ensures RootOk(s', n) {
      assert RootOk(s, n);
    }
    forall e | 0 <= e < |s'.tasks| && s'.tasks[e].Driver? ensures DriverOk(s', e) {
      assert DriverOk(s, e);
    }
  }

  // Steps that leave the tasks alone.
  lemma SameTasksStayOk(s: State, s': State)
    requires TasksOk(s)
    requires s'.tasks == s.tasks && s'.dequeued == s.dequeued && s'.roots == s.roots
    requires s'.active <= s.active
    requires forall t :: t in s.active && t !in s'.active && t < |s.tasks| ==> s.tasks[t].end.Some?
    ensures TasksOk(s')
  {
    forall n | 0 <= n < |s'.dequeued| ensures RootOk(s', n) {
      assert RootOk(s, n);
    }
    forall e | 0 <= e < |s'.tasks| && s'.tasks[e].Driver? ensures DriverOk(s', e) {
      assert DriverOk(s, e);
    }
  }

  lemma StepKeepsTasks(s: State, step: Step)
    requires TasksOk(s) && Enabled(s, step)
    ensures TasksOk(Apply(s, step))
  {
    match step
    case Get => GetKeepsTasks(s);
    case StartNext(d) => StartKeepsTasks(s, d);
    case ResumeDriver(d) => ResumeKeepsTasks(s, d);
    case CancelDriver(d) => EndKeepsTasks(s, d, Raised);
    case EndAction(t, end) => EndKeepsTasks(s, t, end);
    case _ => SameTasksStayOk(s, Apply(s, step));
  }

  lemma StepKeepsShutdown(s: State, step: Step)
    requires TasksOk(s) && ShutdownOk(s) && Enabled(s, step)
    ensures ShutdownOk(Apply(s, step))
  {
    if step.Get? {
      assert |s.tasks| in GetOne(s).active;
    } else if step.StartNext? {
      assert |s.tasks| in Apply(s, step).active;
    }
  }

  lemma {:induction false} RunKeepsInv(s: State, steps: seq<Step>)
    requires Inv(s) && IsRun(s, steps)
    ensures Inv(After(s, steps))
    decreases |steps|
  {
    if steps != [] {
      StepKeepsTasks(s, steps[0]);
      StepKeepsShutdown(s, steps[0]);
      RunKeepsInv(Apply(s, steps[0]), steps[1..]);
    }
  }

  // --- Graceful shutdown ---------------------------------------------------

  predicate AllOver(s: State) {
    forall t :: 0 <= t < |s.tasks| ==> s.tasks[t].end.Some?
  }

  ghost predicate RunsTo(start: State, steps: seq<Step>, s: State) {
    IsRun(start, steps) && After(start, steps) == s
  }

  ghost predicate Reachable(s: State) {
    exists strategy, steps :: RunsTo(Initial(strategy), steps, s)
  }

  lemma ReachableKeepsInv(s: State)
    requires Reachable(s)
    ensures Inv(s)
  {
    var strategy, steps :| RunsTo(Initial(strategy), steps, s);
    RunKeepsInv(Initial(strategy), steps);
  }

  lemma {:induction false} RunExtends(s: State, steps: seq<Step>, step: Step)
    requires IsRun(s, steps) && Enabled(After(s, steps), step)
    ensures IsRun(s, steps + [step]) && After(s, steps + [step]) == Apply(After(s, steps), step)
    decreases |steps|
  {
    if steps == [] {
      assert IsRun(Apply(s, step), []);
    } else {
      assert (steps + [step])[1..] == steps[1..] + [step];
      RunExtends(Apply(s, steps[0]), steps[1..], step);
    }
  }

  lemma ReachableNext(s: State, step: Step)
    requires Reachable(s) && Enabled(s, step)
    ensures Reachable(Apply(s, step))
  {
    var strategy, steps :| RunsTo(Initial(strategy), steps, s);
    RunExtends(Initial(strategy), steps, step);
    assert RunsTo(Initial(strategy), steps + [step], Apply(s, step));
  }

  // Before the delay is over, a graceful shutdown stops the loop only when
  // the queue is empty and no task of any context ever dequeued is unfinished.
  lemma EarlyStopOnlyWhenDrained(s: State, step: Step)
    requires Reachable(s) && Enabled(s, step) && !s.cancelled && Apply(s, step).cancelled
    requires step != Shutdown(Now) && !step.DelayElapsed?
    ensures Apply(s, step).shutdown.Some? && Apply(s, step).queue == [] && AllOver(Apply(s, step))
  {
    ReachableKeepsInv(s);
    StepKeepsTasks(s, step);
  }

  // And it does stop the loop then: at the step that removes the last active
  // task, or at once when there is none.
  lemma StopsWhenDrained(s: State)
    requires Reachable(s) && s.shutdown.Some? && NoPendingWork(s)
    ensures s.cancelled || s.loop.Over?
  {
    ReachableKeepsInv(s);
  }

  lemma LastCompletionStops(s: State, t: nat)
    requires Reachable(s) && Enabled(s, Callback(t)) && s.shutdown.Some? && !s.loop.Over?
    requires s.queue == [] && s.active == {t}
    ensures Apply(s, Callback(t)).cancelled && AllOver(s)
  {
    ReachableKeepsInv(s);
  }
}
