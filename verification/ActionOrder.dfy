/**
 The order in which the action loop dispatches actions, under either strategy.
 */
module ActionOrder {
  import opened Wrappers
  import opened ActionLoop

  // Actions 0..count-1 of context n.
  function Row(n: nat, count: nat): seq<(nat, nat)> {
    if count == 0 then [] else Row(n, count - 1) + [(n, count - 1)]
  }

  // All actions of the first `count` contexts, in queue order.
  function Flat(contexts: seq<Context>): seq<(nat, nat)> {
    if contexts == [] then []
    else Flat(contexts[..|contexts| - 1]) + Row(|contexts| - 1, |contexts[|contexts| - 1]|)
  }

  // How many actions of context n were dispatched.
  function StartedOf(s: State, n: nat): nat
    requires TasksOk(s) && n < |s.dequeued|
  {
    assert RootOk(s, n);
    if |s.dequeued[n]| == 1 then 1 else s.tasks[s.roots[n]].next
  }

  // Under either strategy: an action exists only when all earlier actions of
  // its context have returned.
  lemma ActionsFollowPredecessors(s: State, t: nat, u: nat)
    requires Reachable(s) && t < |s.tasks| && u < |s.tasks| && s.tasks[t].Action? && s.tasks[u].Action?
    requires s.tasks[t].ctx == s.tasks[u].ctx && s.tasks[t].index < s.tasks[u].index
    ensures s.tasks[t].end == Some(Returned)
  {
    ReachableKeepsInv(s);
    var n := s.tasks[t].ctx;
    var r := s.roots[n];
    assert RootOk(s, n);
    assert |s.dequeued[n]| == 1 ==> r == t && r == u;
    assert DriverOk(s, r);
  }

  // The sequential invariant: what was dispatched is all actions of all
  // contexts but the last one taken, then the first few of that one; unless
  // the loop waits for it, that one is complete too.
  predicate SequentialOk(s: State)
    requires TasksOk(s)
  {
    var n := |s.dequeued|;
    && (n == 0 ==> s.started == [])
    && (n > 0 ==> s.started == Flat(s.dequeued[..n - 1]) + Row(n - 1, StartedOf(s, n - 1)))
    && (n > 0 ==> s.loop == Awaiting(s.roots[n - 1]) || s.loop.Over? || AllReturned(s))
    && (forall t :: 0 <= t < |s.tasks| && s.tasks[t].ctx + 1 < n ==> s.tasks[t].end == Some(Returned))
  }

  predicate AllReturned(s: State) {
    forall t :: 0 <= t < |s.tasks| ==> s.tasks[t].end == Some(Returned)
  }

  lemma CompleteWhenReturned(s: State, n: nat)
    requires TasksOk(s) && n < |s.dequeued| && RootOk(s, n) && s.tasks[s.roots[n]].end == Some(Returned)
    ensures StartedOf(s, n) == |s.dequeued[n]|
    ensures forall t :: 0 <= t < |s.tasks| && s.tasks[t].ctx == n ==> s.tasks[t].end == Some(Returned)
  {
    if s.tasks[s.roots[n]].Driver? {
      assert DriverOk(s, s.roots[n]);
    }
  }

  // When the next context is taken, the ones before it are complete.
  lemma GetAfterComplete(s: State)
    requires TasksOk(s) && SequentialOk(s) && s.strategy.Sequential? && Enabled(s, Get)
    ensures s.started == Flat(s.dequeued) && AllReturned(s)
  {
    var n := |s.dequeued|;
    if n > 0 {
      assert RootOk(s, n - 1);
      CompleteWhenReturned(s, n - 1);
    }
  }

  lemma GetKeepsSequential(s: State)
    requires TasksOk(s) && SequentialOk(s) && s.strategy.Sequential? && Enabled(s, Get) && TasksOk(GetOne(s))
    ensures SequentialOk(GetOne(s))
  {
    GetAfterComplete(s);
    var s', n := GetOne(s), |s.dequeued|;
    assert s'.dequeued[..n] == s.dequeued;
    assert Row(n, 1) == Row(n, 0) + [(n, 0)];
    assert RootOk(s', n);
    assert s'.started == Flat(s'.dequeued[..n]) + Row(n, StartedOf(s', n));
  }

  lemma StartKeepsSequential(s: State, d: nat)
    requires TasksOk(s) && SequentialOk(s) && s.strategy.Sequential? && Enabled(s, StartNext(d))
    requires TasksOk(StartAction(s, d))
    ensures SequentialOk(StartAction(s, d))
  {
    var s', n, c := StartAction(s, d), |s.dequeued|, s.tasks[d].ctx;
    assert RootOk(s, c) && s.roots[c] == d;
    assert c == n - 1;
    assert StartedOf(s', c) == StartedOf(s, c) + 1;
    var front := Flat(s.dequeued[..n - 1]);
    var row, next := Row(c, StartedOf(s, c)), [(c, s.tasks[d].next)];
    assert front + row + next == front + (row + next);
  }

  // What the loop waited for has returned, so everything has.
  lemma AwaitedReturned(s: State)
    requires TasksOk(s) && SequentialOk(s) && s.dequeued != [] && s.loop == Awaiting(s.roots[|s.dequeued| - 1])
    requires RootOk(s, |s.dequeued| - 1) && s.tasks[s.loop.task].end == Some(Returned)
    ensures AllReturned(s)
  {
    CompleteWhenReturned(s, |s.dequeued| - 1);
  }

  lemma LoopMoves(s: State, loop: LoopPc)
    requires TasksOk(s) && SequentialOk(s) && TasksOk(s.(loop := loop))
    requires s.dequeued == [] || loop.Over? || AllReturned(s)
    ensures SequentialOk(s.(loop := loop))
  {
    var s', n := s.(loop := loop), |s.dequeued|;
    if n > 0 {
      assert RootOk(s, n - 1) && RootOk(s', n - 1);
      assert StartedOf(s', n - 1) == StartedOf(s, n - 1);
    }
  }

  lemma ResumeLoopKeepsSequential(s: State)
    requires TasksOk(s) && SequentialOk(s) && s.strategy.Sequential? && Enabled(s, ResumeLoop)
    ensures TasksOk(Apply(s, ResumeLoop)) && SequentialOk(Apply(s, ResumeLoop))
  {
    StepKeepsTasks(s, ResumeLoop);
    if s.dequeued != [] {
      assert RootOk(s, |s.dequeued| - 1);
      if s.loop == Awaiting(s.roots[|s.dequeued| - 1]) && s.tasks[s.loop.task].end == Some(Returned) {
        AwaitedReturned(s);
      }
    }
    LoopMoves(s, Apply(s, ResumeLoop).loop);
  }

  lemma StepKeepsSequential(s: State, step: Step)
    requires TasksOk(s) && SequentialOk(s) && s.strategy.Sequential? && Enabled(s, step)
    ensures TasksOk(Apply(s, step)) && SequentialOk(Apply(s, step)) && Apply(s, step).strategy == s.strategy
  {
    StepKeepsTasks(s, step);
    match step
    case Get => GetKeepsSequential(s);
    case StartNext(d) => StartKeepsSequential(s, d);
    case ResumeLoop => ResumeLoopKeepsSequential(s);
    case _ =>
      OtherStepsOnlyEnd(s, step);
      OnlyEndsKeepsSequential(s, Apply(s, step));
  }

  // s' differs from s at most in tasks that have ended since, and in waiting.
  predicate OnlyEnds(s: State, s': State) {
    && s'.dequeued == s.dequeued && s'.roots == s.roots && s'.started == s.started && s'.strategy == s.strategy
    && (s'.loop == s.loop || s'.loop.Over?)
    && |s'.tasks| == |s.tasks|
    && (forall t :: 0 <= t < |s.tasks| && s.tasks[t].end.Some? ==> s'.tasks[t] == s.tasks[t])
    && (forall t :: 0 <= t < |s.tasks| ==> SameRole(s.tasks[t], s'.tasks[t]))
  }

  predicate SameRole(a: Task, b: Task) {
    a.ctx == b.ctx && a.Driver? == b.Driver? && (a.Driver? ==> a.next == b.next)
  }

  // A step that dispatches nothing only ends tasks that are not over.
  lemma OtherStepsOnlyEnd(s: State, step: Step)
    requires Enabled(s, step) && !step.Get? && !step.StartNext? && !step.ResumeLoop?
    ensures OnlyEnds(s, Apply(s, step))
  {
  }

  lemma OnlyEndsKeepsSequential(s: State, s': State)
    requires TasksOk(s) && TasksOk(s') && SequentialOk(s) && OnlyEnds(s, s')
    ensures SequentialOk(s')
  {
    var n := |s.dequeued|;
    if n > 0 {
      assert RootOk(s, n - 1) && RootOk(s', n - 1);
      assert SameRole(s.tasks[s.roots[n - 1]], s'.tasks[s.roots[n - 1]]);
      assert StartedOf(s', n - 1) == StartedOf(s, n - 1);
      assert AllReturned(s) ==> AllReturned(s');
    }
    forall t | 0 <= t < |s'.tasks| && s'.tasks[t].ctx + 1 < n ensures s'.tasks[t].end == Some(Returned) {
      assert SameRole(s.tasks[t], s'.tasks[t]);
    }
  }

  lemma {:induction false} SequentialRun(s: State, steps: seq<Step>)
    requires TasksOk(s) && SequentialOk(s) && s.strategy.Sequential? && IsRun(s, steps)
    ensures var e := After(s, steps); TasksOk(e) && SequentialOk(e)
    decreases |steps|
  {
    if steps != [] {
      StepKeepsSequential(s, steps[0]);
      SequentialRun(Apply(s, steps[0]), steps[1..]);
    }
  }

  lemma {:induction false} RunKeepsStrategy(s: State, steps: seq<Step>)
    requires IsRun(s, steps)
    ensures After(s, steps).strategy == s.strategy
    decreases |steps|
  {
    if steps != [] {
      RunKeepsStrategy(Apply(s, steps[0]), steps[1..]);
    }
  }

  // Under the sequential strategy a context is taken only when everything
  // dispatched before has returned.
  lemma {:induction false} SequentialWaits(s: State)
    requires Reachable(s) && s.strategy.Sequential? && Enabled(s, Get)
    ensures AllReturned(s) && s.started == Flat(s.dequeued)
  {
    var strategy, steps :| RunsTo(Initial(strategy), steps, s);
    RunKeepsStrategy(Initial(strategy), steps);
    SequentialRun(Initial(strategy), steps);
    GetAfterComplete(s);
  }

  // The actions of a context that were dispatched have returned.
  predicate ContextReturned(s: State, ctx: nat) {
    forall t :: 0 <= t < |s.tasks| && s.tasks[t].Action? && s.tasks[t].ctx == ctx ==> s.tasks[t].end == Some(Returned)
  }

  // Under either strategy the next action of a context is dispatched only when
  // the ones before it have returned.
  lemma NextActionWaits(s: State, d: nat)
    requires Reachable(s) && Enabled(s, StartNext(d))
    ensures ContextReturned(s, s.tasks[d].ctx)
  {
    ReachableKeepsInv(s);
    assert DriverOk(s, d);
  }

  lemma {:induction false} RowPrefix(n: nat, a: nat, b: nat)
    requires a <= b
    ensures Row(n, a) <= Row(n, b)
    decreases b
  {
    if a < b {
      RowPrefix(n, a, b - 1);
    }
  }

  lemma {:induction false} FlatPrefix(a: seq<Context>, b: seq<Context>)
    requires a <= b
    ensures Flat(a) <= Flat(b)
    decreases |b|
  {
    if |a| < |b| {
      FlatPrefix(a, b[..|b| - 1]);
    } else {
      assert a == b;
    }
  }

  predicate InFlight(s: State, t: int) {
    0 <= t < |s.tasks| && s.tasks[t].Action? && s.tasks[t].end.None?
  }

  lemma DispatchedInOrder(e: State)
    requires TasksOk(e) && SequentialOk(e)
    ensures e.started <= Flat(e.dequeued)
  {
    var n := |e.dequeued|;
    if n > 0 {
      assert RootOk(e, n - 1);
      RowPrefix(n - 1, StartedOf(e, n - 1), |e.dequeued[n - 1]|);
      assert e.dequeued[..n - 1] + [e.dequeued[n - 1]] == e.dequeued;
    }
  }

  lemma OneInFlight(e: State, t: nat, u: nat)
    requires TasksOk(e) && SequentialOk(e) && InFlight(e, t) && InFlight(e, u)
    ensures t == u
  {
    var r := e.roots[|e.dequeued| - 1];
    assert RootOk(e, |e.dequeued| - 1);
    assert e.tasks[r].Driver? ==> DriverOk(e, r);
  }

  // Sequential strategy: the actions dispatched are a prefix of the action
  // lists, concatenated in queue order, and at most one of them is unfinished.
  lemma SequentialOrder(steps: seq<Step>)
    requires IsRun(Initial(Sequential), steps)
    ensures var e := After(Initial(Sequential), steps);
            && e.started <= Flat(e.dequeued + e.queue)
            && (forall t, u :: InFlight(e, t) && InFlight(e, u) ==> t == u)
  {
    SequentialRun(Initial(Sequential), steps);
    var e := After(Initial(Sequential), steps);
    DispatchedInOrder(e);
    FlatPrefix(e.dequeued, e.dequeued + e.queue);
    forall t, u | InFlight(e, t) && InFlight(e, u) ensures t == u {
      OneInFlight(e, t, u);
    }
  }

  // --- Nothing is skipped --------------------------------------------------

  predicate StartedOk(s: State)
    requires TasksOk(s)
  {
    forall n, i :: 0 <= n < |s.dequeued| && 0 <= i < StartedOf(s, n) ==> (n, i) in s.started
  }

  lemma GetKeepsStarted(s: State)
    requires TasksOk(s) && StartedOk(s) && Enabled(s, Get) && TasksOk(GetOne(s))
    ensures StartedOk(GetOne(s))
  {
    var s' := GetOne(s);
    forall n, i | 0 <= n < |s'.dequeued| && 0 <= i < StartedOf(s', n) ensures (n, i) in s'.started {
      assert RootOk(s', n);
      if n < |s.dequeued| {
        assert RootOk(s, n) && StartedOf(s', n) == StartedOf(s, n);
        assert (n, i) in s.started;
      }
    }
  }

  lemma StartKeepsStarted(s: State, d: nat)
    requires TasksOk(s) && StartedOk(s) && Enabled(s, StartNext(d)) && TasksOk(StartAction(s, d))
    ensures StartedOk(StartAction(s, d))
  {
    var s', driver := StartAction(s, d), s.tasks[d];
    assert s.roots[driver.ctx] == d && s'.started == s.started + [(driver.ctx, driver.next)];
    forall n, i | 0 <= n < |s'.dequeued| && 0 <= i < StartedOf(s', n) ensures (n, i) in s'.started {
      assert RootOk(s, n) && RootOk(s', n);
      assert StartedOf(s', n) == StartedOf(s, n) + if n == driver.ctx then 1 else 0;
      assert i < StartedOf(s, n) ==> (n, i) in s.started;
    }
  }

  lemma StepKeepsStarted(s: State, step: Step)
    requires TasksOk(s) && StartedOk(s) && Enabled(s, step)
    ensures TasksOk(Apply(s, step)) && StartedOk(Apply(s, step))
  {
    StepKeepsTasks(s, step);
    match step
    case Get => GetKeepsStarted(s);
    case StartNext(d) => StartKeepsStarted(s, d);
    case _ => StartedUnchanged(s, Apply(s, step), step);
  }

  // Where roles stay, the same actions count as started.
  lemma SameRolesSameStarted(s: State, s': State)
    requires TasksOk(s) && TasksOk(s') && StartedOk(s)
    requires s'.dequeued == s.dequeued && s'.roots == s.roots && s'.started == s.started && |s'.tasks| == |s.tasks|
    requires forall t :: 0 <= t < |s.tasks| ==> SameRole(s.tasks[t], s'.tasks[t])
    ensures StartedOk(s')
  {
    forall n | 0 <= n < |s.dequeued| ensures StartedOf(s', n) == StartedOf(s, n) {
      assert RootOk(s, n) && RootOk(s', n);
      assert SameRole(s.tasks[s.roots[n]], s'.tasks[s.roots[n]]);
    }
  }

  lemma StartedUnchanged(s: State, s': State, step: Step)
    requires TasksOk(s) && StartedOk(s) && Enabled(s, step) && s' == Apply(s, step) && TasksOk(s')
    requires !step.Get? && !step.StartNext?
    ensures StartedOk(s')
  {
    if step.ResumeLoop? {
      assert s'.tasks == s.tasks;
    } else {
      OtherStepsOnlyEnd(s, step);
    }
    SameRolesSameStarted(s, s');
  }

  lemma {:induction false} RunKeepsStarted(s: State, steps: seq<Step>)
    requires TasksOk(s) && StartedOk(s) && IsRun(s, steps)
    ensures var e := After(s, steps); TasksOk(e) && StartedOk(e)
    decreases |steps|
  {
    if steps != [] {
      StepKeepsStarted(s, steps[0]);
      RunKeepsStarted(Apply(s, steps[0]), steps[1..]);
    }
  }

  // When everything is over and nothing raised, every action of every context
  // that left the queue was dispatched and returned.
  lemma DrainedMeansDone(s: State, n: nat, i: nat)
    requires Reachable(s) && n < |s.dequeued| && i < |s.dequeued[n]|
    requires AllReturned(s)
    ensures (n, i) in s.started
  {
    ReachableKeepsInv(s);
    var strategy, steps :| RunsTo(Initial(strategy), steps, s);
    RunKeepsStarted(Initial(strategy), steps);
    assert RootOk(s, n);
    CompleteWhenReturned(s, n);
  }
}
