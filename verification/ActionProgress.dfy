/**
 What the action loop gets done: contexts leave the queue in the order they were
 put, the loop ends only for a reason, and whatever was put can be carried out.
 */
module ActionProgress {
  import opened Wrappers
  import opened ActionLoop
  import opened ActionOrder

  // --- Nothing is lost between the queue and the loop --------------------------

  // The contexts put by these steps, in order.
  ghost function Puts(steps: seq<Step>): seq<Context> {
    if steps == [] then [] else (if steps[0].Put? then [steps[0].context] else []) + Puts(steps[1..])
  }

  lemma {:induction false} RunConserves(s: State, steps: seq<Step>)
    requires IsRun(s, steps)
    ensures var e := After(s, steps); e.dequeued + e.queue == s.dequeued + s.queue + Puts(steps)
    decreases |steps|
  {
    if steps != [] {
      var s1 := Apply(s, steps[0]);
      StepConserves(s, steps[0]);
      RunConserves(s1, steps[1..]);
    }
  }

  lemma StepConserves(s: State, step: Step)
    requires Enabled(s, step)
    ensures var s' := Apply(s, step);
            s'.dequeued + s'.queue == s.dequeued + s.queue + if step.Put? then [step.context] else []
  {
    match step
    case Get => assert s.queue == [s.queue[0]] + s.queue[1..];
    case Put(c) => assert s.dequeued + (s.queue + [c]) == s.dequeued + s.queue + [c];
    case _ =>
      OthersKeepQueue(s, step);
      assert s.dequeued + s.queue + [] == s.dequeued + s.queue;
  }

  lemma OthersKeepQueue(s: State, step: Step)
    requires Enabled(s, step) && !step.Get? && !step.Put?
    ensures Apply(s, step).dequeued == s.dequeued && Apply(s, step).queue == s.queue
  {
  }

  // Over every run the contexts taken, then those waiting, are those put. Under
  // the sequential strategy the actions dispatched are a prefix of theirs.
  lemma {:induction false} TakenInOrder(strategy: Strategy, steps: seq<Step>)
    requires IsRun(Initial(strategy), steps)
    ensures var e := After(Initial(strategy), steps);
            && e.dequeued + e.queue == Puts(steps)
            && (strategy == Sequential ==> e.started <= Flat(Puts(steps)))
  {
    RunConserves(Initial(strategy), steps);
    var e := After(Initial(strategy), steps);
    assert Initial(strategy).dequeued + Initial(strategy).queue + Puts(steps) == Puts(steps);
    if strategy == Sequential {
      SequentialOrder(steps);
    }
  }

  // --- Why the loop ends ---------------------------------------------------------

  // Only a shutdown tells the loop to stop, and it ends only when told so or
  // when the task it waits for raised.
  predicate StopOk(s: State) {
    && (s.cancelled || s.sleeping ==> s.shutdown.Some?)
    && (s.loop.Over? && !s.cancelled ==> s.strategy == Sequential && SomeRaised(s))
    && (s.loop.Awaiting? ==> s.strategy == Sequential && s.loop.task < |s.tasks|)
  }

  // A driver that waits for nothing has an action left.
  predicate OpenOk(s: State) {
    forall d :: 0 <= d < |s.tasks| ==> HasWork(s.tasks[d], s.dequeued)
  }

  predicate HasWork(task: Task, dequeued: seq<Context>) {
    task.Driver? && task.end.None? && task.child.None? ==>
      task.ctx < |dequeued| && task.next < |dequeued[task.ctx]|
  }

  predicate EndsOk(s: State) {
    StopOk(s) && OpenOk(s)
  }

  predicate SomeRaised(s: State) {
    exists t :: 0 <= t < |s.tasks| && s.tasks[t].end == Some(Raised)
  }

  lemma RaisedStays(s: State, step: Step)
    requires Enabled(s, step) && SomeRaised(s)
    ensures SomeRaised(Apply(s, step))
  {
    var t :| 0 <= t < |s.tasks| && s.tasks[t].end == Some(Raised);
    assert Apply(s, step).tasks[t].end == Some(Raised);
  }

  lemma StepKeepsStop(s: State, step: Step)
    requires StopOk(s) && Enabled(s, step)
    ensures StopOk(Apply(s, step))
  {
    if SomeRaised(s) {
      RaisedStays(s, step);
    }
    if step.ResumeLoop? && s.tasks[s.loop.task].end != Some(Returned) {
      assert s.tasks[s.loop.task].end.value.Raised?;
    }
  }

  lemma StepKeepsOpen(s: State, step: Step)
    requires OpenOk(s) && Enabled(s, step)
    ensures OpenOk(Apply(s, step))
  {
    var s' := Apply(s, step);
    forall d | 0 <= d < |s'.tasks| ensures HasWork(s'.tasks[d], s'.dequeued) {
      if d < |s.tasks| {
        assert HasWork(s.tasks[d], s.dequeued);
      }
    }
  }

  lemma StepKeepsEnds(s: State, step: Step)
    requires EndsOk(s) && Enabled(s, step)
    ensures EndsOk(Apply(s, step))
  {
    StepKeepsStop(s, step);
    StepKeepsOpen(s, step);
  }

  lemma {:induction false} RunKeepsEnds(s: State, steps: seq<Step>)
    requires TasksOk(s) && EndsOk(s) && IsRun(s, steps)
    ensures TasksOk(After(s, steps)) && EndsOk(After(s, steps))
    decreases |steps|
  {
    if steps != [] {
      StepKeepsTasks(s, steps[0]);
      StepKeepsEnds(s, steps[0]);
      RunKeepsEnds(Apply(s, steps[0]), steps[1..]);
    }
  }

  lemma {:induction false} ReachableEnds(s: State)
    requires Reachable(s)
    ensures Inv(s) && EndsOk(s)
  {
    ReachableKeepsInv(s);
    var strategy, steps :| RunsTo(Initial(strategy), steps, s);
    RunKeepsEnds(Initial(strategy), steps);
  }

  // In every reachable state: without a shutdown the loop is over only under
  // the sequential strategy and after something raised, and a loop told to stop
  // can do so at once.
  lemma LoopEndsForAReason(s: State)
    requires Reachable(s)
    ensures s.loop == Over && s.shutdown == None ==> s.strategy == Sequential && SomeRaised(s)
    ensures s.cancelled && s.loop != Over ==>
            Enabled(s, LoopCancelled) && Apply(s, LoopCancelled) == s.(loop := Over)
  {
    ReachableEnds(s);
  }

  // --- Whatever was put can be carried out ------------------------------------

  // How far a task is from its end.
  ghost function TaskWork(task: Task, dequeued: seq<Context>): nat {
    if task.end.Some? || task.ctx >= |dequeued| then 0
    else
      match task
      case Action(_, _, _) => 2
      case Driver(ctx, next, child, _) =>
        (if next < |dequeued[ctx]| then 5 * (|dequeued[ctx]| - next) else 0) + if child.Some? then 1 else 0
  }

  ghost function TasksWork(tasks: seq<Task>, dequeued: seq<Context>): nat {
    if tasks == [] then 0
    else TasksWork(tasks[..|tasks| - 1], dequeued) + TaskWork(tasks[|tasks| - 1], dequeued)
  }

  ghost function QueueWork(queue: seq<Context>): nat {
    if queue == [] then 0 else 5 * |queue[0]| + 3 + QueueWork(queue[1..])
  }

  ghost function Work(s: State): nat {
    QueueWork(s.queue) + TasksWork(s.tasks, s.dequeued) + |s.active| + if s.loop.Awaiting? then 1 else 0
  }

  lemma {:induction false} WorkOfUpdate(tasks: seq<Task>, dequeued: seq<Context>, t: nat, task: Task)
    requires t < |tasks|
    ensures TasksWork(tasks[t := task], dequeued) + TaskWork(tasks[t], dequeued)
            == TasksWork(tasks, dequeued) + TaskWork(task, dequeued)
    decreases |tasks|
  {
    var n := |tasks| - 1;
    if t == n {
      assert tasks[t := task][..n] == tasks[..n];
    } else {
      WorkOfUpdate(tasks[..n], dequeued, t, task);
      assert tasks[t := task][..n] == tasks[..n][t := task];
    }
  }

  lemma {:induction false} WorkOfMore(tasks: seq<Task>, dequeued: seq<Context>, task: Task)
    ensures TasksWork(tasks + [task], dequeued) == TasksWork(tasks, dequeued) + TaskWork(task, dequeued)
  {
    assert (tasks + [task])[..|tasks|] == tasks;
  }

  lemma {:induction false} WorkUnchanged(tasks: seq<Task>, dequeued: seq<Context>, c: Context)
    requires forall t :: 0 <= t < |tasks| ==> tasks[t].ctx < |dequeued|
    ensures TasksWork(tasks, dequeued + [c]) == TasksWork(tasks, dequeued)
    decreases |tasks|
  {
    if tasks != [] {
      WorkUnchanged(tasks[..|tasks| - 1], dequeued, c);
    }
  }

  // A step of the loop, of a driver, or the good end of an action.
  predicate Works(step: Step) {
    || step.Get? || step.StartNext? || step.ResumeDriver? || step.Callback? || step.ResumeLoop?
    || (step.EndAction? && step.end == Returned)
  }

  // What is left of a driver that starts an action, and of that action.
  lemma StartedWork(driver: Task, dequeued: seq<Context>, a: nat)
    requires driver.Driver? && driver.end.None? && driver.child.None?
    requires driver.ctx < |dequeued| && driver.next < |dequeued[driver.ctx]|
    ensures TaskWork(driver.(next := driver.next + 1, child := Some(a)), dequeued)
            + TaskWork(Action(driver.ctx, driver.next, None), dequeued) + 1
            < TaskWork(driver, dequeued)
  {
  }

  lemma StartDoesWork(s: State, d: nat)
    requires Inv(s) && Enabled(s, StartNext(d))
    ensures Work(Apply(s, StartNext(d))) < Work(s)
  {
    var driver, a := s.tasks[d], |s.tasks|;
    var driver', action := driver.(next := driver.next + 1, child := Some(a)), Action(driver.ctx, driver.next, None);
    WorkOfUpdate(s.tasks, s.dequeued, d, driver');
    WorkOfMore(s.tasks[d := driver'], s.dequeued, action);
    StartedWork(driver, s.dequeued, a);
    assert Apply(s, StartNext(d)).tasks == s.tasks[d := driver'] + [action];
    assert a !in s.active;
  }

  lemma GetDoesWork(s: State)
    requires Inv(s) && Enabled(s, Get)
    ensures Work(Apply(s, Get)) < Work(s)
  {
    var c := s.queue[0];
    var task := GetOne(s).tasks[|s.tasks|];
    WorkUnchanged(s.tasks, s.dequeued, c);
    WorkOfMore(s.tasks, s.dequeued + [c], task);
    assert |s.tasks| !in s.active;
  }

  lemma ChangeDoesWork(s: State, t: nat, task: Task)
    requires t < |s.tasks| && TaskWork(task, s.dequeued) < TaskWork(s.tasks[t], s.dequeued)
    ensures Work(s.(tasks := s.tasks[t := task])) < Work(s)
  {
    WorkOfUpdate(s.tasks, s.dequeued, t, task);
  }

  lemma StepDoesWork(s: State, step: Step)
    requires Inv(s) && EndsOk(s) && Enabled(s, step) && Works(step)
    ensures Work(Apply(s, step)) < Work(s)
  {
    match step
    case Get => GetDoesWork(s);
    case StartNext(d) => StartDoesWork(s, d);
    case ResumeDriver(d) => ChangeDoesWork(s, d, Apply(s, step).tasks[d]);
    case EndAction(t, end) => ChangeDoesWork(s, t, Ended(s.tasks[t], end));
    case Callback(t) =>
    case ResumeLoop =>
  }

  // Nothing has raised and the loop runs.
  predicate GoesWell(s: State) {
    && !s.loop.Over?
    && (forall t :: 0 <= t < |s.tasks| ==> s.tasks[t].end != Some(Raised))
  }

  lemma StepGoesWell(s: State, step: Step)
    requires Inv(s) && EndsOk(s) && GoesWell(s) && Enabled(s, step) && (Works(step) || step.Put?)
    ensures GoesWell(Apply(s, step))
  {
    if step.ResumeLoop? {
      assert s.tasks[s.loop.task].end.value.Returned?;
    }
  }

  // While something is left, something can step.
  lemma NextStep(s: State) returns (step: Step)
    requires Inv(s) && EndsOk(s) && GoesWell(s)
    requires s.queue != [] || s.active != {}
    ensures Enabled(s, step) && Works(step)
  {
    if t :| 0 <= t < |s.tasks| && s.tasks[t].Action? && s.tasks[t].end.None? {
      step := EndAction(t, Returned);
    } else if d :| 0 <= d < |s.tasks| && s.tasks[d].end.None? {
      assert DriverOk(s, d);
      step := if s.tasks[d].child.Some? then ResumeDriver(d) else StartNext(d);
    } else if s.active != {} {
      var t :| t in s.active;
      step := Callback(t);
    } else {
      step := if s.loop.Getting? then Get else ResumeLoop;
    }
  }

  // From every such state a run of the program's own steps, every action
  // returning, carries out everything that was put.
  lemma {:induction false} CarriesOut(s: State) returns (steps: seq<Step>)
    requires Reachable(s) && GoesWell(s)
    ensures IsRun(s, steps) && forall step :: step in steps ==> Works(step)
    ensures var e := After(s, steps);
            && Reachable(e) && e.queue == [] && e.active == {} && e.dequeued == s.dequeued + s.queue
            && (forall t :: 0 <= t < |e.tasks| ==> e.tasks[t].end == Some(Returned))
    decreases Work(s)
  {
    ReachableEnds(s);
    if s.queue == [] && s.active == {} {
      steps := [];
      forall t | 0 <= t < |s.tasks| ensures s.tasks[t].end == Some(Returned) {
        assert s.tasks[t].end.value.Returned?;
      }
    } else {
      var step := NextStep(s);
      StepDoesWork(s, step);
      StepGoesWell(s, step);
      ReachableNext(s, step);
      StepConserves(s, step);
      var rest := CarriesOut(Apply(s, step));
      steps := [step] + rest;
      assert steps[1..] == rest;
    }
  }

  // So a context put while nothing has raised can be carried out: all of its
  // actions are dispatched and return.
  lemma {:induction false} PutIsCarriedOut(s: State, c: Context) returns (steps: seq<Step>)
    requires Reachable(s) && GoesWell(s)
    ensures Enabled(s, Put(c)) && IsRun(Apply(s, Put(c)), steps)
    ensures forall step :: step in steps ==> Works(step)
    ensures var e, n := After(Apply(s, Put(c)), steps), |s.dequeued + s.queue|;
            && e.dequeued == s.dequeued + s.queue + [c]
            && (forall t :: 0 <= t < |e.tasks| ==> e.tasks[t].end == Some(Returned))
            && (forall i :: 0 <= i < |c| ==> (n, i) in e.started)
  {
    ReachableEnds(s);
    StepGoesWell(s, Put(c));
    ReachableNext(s, Put(c));
    StepConserves(s, Put(c));
    steps := CarriesOut(Apply(s, Put(c)));
    var e, n := After(Apply(s, Put(c)), steps), |s.dequeued + s.queue|;
    assert e.dequeued == s.dequeued + s.queue + [c] && e.dequeued[n] == c;
    forall i | 0 <= i < |c| ensures (n, i) in e.started {
      DrainedMeansDone(e, n, i);
    }
  }
}
