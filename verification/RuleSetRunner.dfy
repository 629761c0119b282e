/**
 The fields of the rule set runner and the code that changes them, one method
 per stretch between waits. Each takes the step of ActionLoop it stands for.
 */
module RuleSetRunnerClass {
  import opened Wrappers
  import opened ActionLoop
  import opened ActionOrder

  class RuleSetRunner {
    const strategy: Strategy
    var queue: seq<Context>
    var active: set<nat>
    var shutdown: Option<Kind>
    var loop: LoopPc
    var cancelled: bool
    var sleeping: bool
    var tasks: seq<Task>
    // The contexts taken so far; a driver holds its own.
    var dequeued: seq<Context>
    ghost var roots: seq<nat>
    ghost var started: seq<(nat, nat)>

    ghost function Current(): State
      reads this
    {
      State.State(strategy, queue, active, shutdown, loop, cancelled, sleeping, tasks, dequeued, roots, started)
    }

    constructor (strategy: Strategy)
      ensures Current() == Initial(strategy) && Reachable(Current())
    {
      this.strategy := strategy;
      queue, active, shutdown, loop, cancelled, sleeping, tasks := [], {}, None, Getting, false, false, [];
      dequeued, roots, started := [], [], [];
      new;
      assert RunsTo(Initial(strategy), [], Current());
    }

    // What a handler may rely on and leaves behind, whatever ran before it.
    ghost predicate Continues(before: State)
      reads this
    {
      Reachable(before) ==> Reachable(Current())
    }

    // asyncio.create_task, active_actions.add and add_done_callback.
    method CreateTask(task: Task) returns (t: nat)
      modifies this`tasks, this`active
      ensures t == |old(tasks)| && tasks == old(tasks) + [task] && active == old(active) + {t}
    {
      t := |tasks|;
      tasks := tasks + [task];
      active := active + {t};
    }

    // plan.queue.put_nowait, when a rule matched.
    method PutContext(c: Context)
      modifies this`queue
      ensures Current() == Apply(old(Current()), Put(c))
      ensures Continues(old(Current()))
    {
      if Reachable(Current()) {
        ReachableNext(Current(), Put(c));
      }
      queue := queue + [c];
    }

    // _drain_actionplan_queue, from the get to the next wait. n is the number
    // of contexts taken before.
    method DrainOne(n: nat)
      requires loop == Getting && queue != [] && n == |dequeued|
      modifies this
      ensures Current() == Apply(old(Current()), Get)
      ensures Continues(old(Current()))
      ensures old(Reachable(Current())) && strategy.Sequential? ==> AllReturned(old(Current()))
    {
      if Reachable(Current()) {
        ReachableNext(Current(), Get);
        if strategy.Sequential? {
          SequentialWaits(Current());
        }
      }
      var item := queue[0];
      queue := queue[1..];
      var t;
      if |item| > 1 {
        t := CreateTask(Driver(n, 0, None, None));
      } else {
        t := CreateTask(Action(n, 0, None));
        started := started + [(n, 0)];
      }
      dequeued, roots := dequeued + [item], roots + [t];
      if strategy.Sequential? {
        loop := Awaiting(t);
      }
    }

    // _run_multiple_actions: create an asyncio task for the next action and wait for it.
    method RunNextAction(d: nat)
      requires d < |tasks| && tasks[d].Driver? && tasks[d].end.None? && tasks[d].child.None?
      requires tasks[d].ctx < |dequeued| && tasks[d].next < |dequeued[tasks[d].ctx]|
      modifies this
      ensures Current() == Apply(old(Current()), StartNext(d))
      ensures Continues(old(Current()))
      ensures old(Reachable(Current())) ==> ContextReturned(old(Current()), old(tasks)[d].ctx)
    {
      if Reachable(Current()) {
        ReachableNext(Current(), StartNext(d));
        NextActionWaits(Current(), d);
      }
      var driver := tasks[d];
      var a := CreateTask(Action(driver.ctx, driver.next, None));
      tasks := tasks[d := Driver(driver.ctx, driver.next + 1, Some(a), driver.end)];
      started := started + [(driver.ctx, driver.next)];
    }

    // _run_multiple_actions, when the awaited action is over: its exception goes
    // on, or the loop does, or it ends.
    method ActionAwaited(d: nat)
      requires d < |tasks| && tasks[d].Driver? && tasks[d].end.None? && tasks[d].ctx < |dequeued|
      requires tasks[d].child.Some? && tasks[d].child.value < |tasks| && tasks[tasks[d].child.value].end.Some?
      modifies this`tasks
      ensures Current() == Apply(old(Current()), ResumeDriver(d))
      ensures Continues(old(Current()))
    {
      if Reachable(Current()) {
        ReachableNext(Current(), ResumeDriver(d));
      }
      var driver := tasks[d];
      if tasks[driver.child.value].end == Some(Raised) {
        tasks := tasks[d := Driver(driver.ctx, driver.next, driver.child, Some(Raised))];
      } else if driver.next < |dequeued[driver.ctx]| {
        tasks := tasks[d := Driver(driver.ctx, driver.next, None, None)];
      } else {
        tasks := tasks[d := Driver(driver.ctx, driver.next, driver.child, Some(Returned))];
      }
    }

    // The driver is cancelled: at its start, or with the action it waits for.
    method DriverCancelled(d: nat)
      requires d < |tasks| && tasks[d].Driver? && tasks[d].end.None? && tasks[d].ctx < |dequeued|
      requires tasks[d].child.Some? ==> tasks[d].child.value < |tasks| && tasks[tasks[d].child.value].end.Some?
      modifies this`tasks
      ensures Current() == Apply(old(Current()), CancelDriver(d))
      ensures Continues(old(Current()))
    {
      if Reachable(Current()) {
        ReachableNext(Current(), CancelDriver(d));
      }
      var driver := tasks[d];
      tasks := tasks[d := Driver(driver.ctx, driver.next, driver.child, Some(Raised))];
    }

    // The task of an action is over.
    method ActionEnds(t: nat, end: End)
      requires t < |tasks| && tasks[t].Action? && tasks[t].end.None?
      modifies this`tasks
      ensures Current() == Apply(old(Current()), EndAction(t, end))
      ensures Continues(old(Current()))
    {
      if Reachable(Current()) {
        ReachableNext(Current(), EndAction(t, end));
      }
      tasks := tasks[t := Action(tasks[t].ctx, tasks[t].index, Some(end))];
    }

    // _drain_actionplan_queue, when the awaited task is over: its exception ends
    // the loop.
    method TaskAwaited()
      requires loop.Awaiting? && loop.task < |tasks| && tasks[loop.task].end.Some?
      modifies this`loop
      ensures Current() == Apply(old(Current()), ResumeLoop)
      ensures Continues(old(Current()))
    {
      if Reachable(Current()) {
        ReachableNext(Current(), ResumeLoop);
      }
      if tasks[loop.task].end == Some(Raised) {
        loop := Over;
      } else {
        assert tasks[loop.task].end.value.Returned?;
        loop := Getting;
      }
    }

    // _drain_actionplan_queue, cancelled at a wait.
    method LoopStops()
      requires cancelled && loop != Over
      modifies this`loop
      ensures Current() == Apply(old(Current()), LoopCancelled)
      ensures Continues(old(Current()))
    {
      if Reachable(Current()) {
        ReachableNext(Current(), LoopCancelled);
      }
      loop := Over;
    }

    // _handle_action_completion
    method HandleActionCompletion(t: nat)
      requires t in active && t < |tasks| && tasks[t].end.Some?
      modifies this
      ensures Current() == Apply(old(Current()), Callback(t))
      ensures Continues(old(Current()))
      ensures old(Reachable(Current())) && !old(cancelled) && cancelled ==>
              shutdown.Some? && queue == [] && AllOver(Current())
    {
      if Reachable(Current()) {
        ReachableNext(Current(), Callback(t));
        if !cancelled && Apply(Current(), Callback(t)).cancelled {
          EarlyStopOnlyWhenDrained(Current(), Callback(t));
        }
      }
      active := active - {t};
      if queue == [] && shutdown.Some? && |active| == 0 {
        if !loop.Over? {
          cancelled := true;
        }
      }
    }

    // _handle_shutdown, up to the delay.
    method HandleShutdown(kind: Kind)
      requires shutdown.None?
      modifies this
      ensures Current() == Apply(old(Current()), Shutdown(kind))
      ensures Continues(old(Current()))
      ensures shutdown == Some(kind) && (kind == Now ==> cancelled)
      ensures kind == Graceful ==>
              if old(queue) == [] && old(active) == {} then cancelled else sleeping && cancelled == old(cancelled)
      ensures old(Reachable(Current())) && kind.Graceful? && !old(cancelled) && cancelled ==>
              queue == [] && AllOver(Current())
    {
      if Reachable(Current()) {
        ReachableNext(Current(), Shutdown(kind));
        if kind.Graceful? && !cancelled && Apply(Current(), Shutdown(kind)).cancelled {
          EarlyStopOnlyWhenDrained(Current(), Shutdown(kind));
        }
      }
      shutdown := Some(kind);
      if kind.Now? {
        cancelled := true;
      } else if queue == [] && active == {} {
        cancelled := true;
      } else {
        sleeping := true;
      }
    }

    // _handle_shutdown, after the delay.
    method AfterDelay()
      requires sleeping
      modifies this
      ensures Current() == Apply(old(Current()), DelayElapsed)
      ensures Continues(old(Current()))
      ensures cancelled || loop.Over?
    {
      if Reachable(Current()) {
        ReachableNext(Current(), DelayElapsed);
      }
      sleeping := false;
      if !loop.Over? {
        cancelled := true;
      }
    }
  }
}
