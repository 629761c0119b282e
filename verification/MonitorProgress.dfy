/**
 What the polling loop gets done, and why a future is settled: a cycle nobody
 interferes with is the one of PollCycle, a pending job can always be settled,
 and nothing is settled without a cause.
 */
module MonitorProgress {
  import opened Wrappers
  import opened JobUrls
  import opened JobMonitor
  import opened PollCycle

  // --- A cycle by itself -----------------------------------------------------------

  // The steps by which loop t polls.
  predicate Polls(step: Step, t: nat) {
    match step
    case LoopGroup(u, _) => u == t
    case LoopResponse(u, _) => u == t
    case LoopResult(u) => u == t
    case _ => false
  }

  lemma {:induction false} RunsCompose(s: State, a: seq<Step>, b: seq<Step>)
    requires IsRun(s, a) && IsRun(After(s, a), b)
    ensures IsRun(s, a + b) && After(s, a + b) == After(After(s, a), b)
    decreases |a|
  {
    if a == [] {
      assert a + b == b;
    } else {
      RunsCompose(Apply(s, a[0]), a[1..], b);
      RunsPrepend(s, a[0], a[1..] + b);
      assert [a[0]] + (a[1..] + b) == a + b;
    }
  }

  lemma {:induction false} RunsPrepend(s: State, step: Step, steps: seq<Step>)
    requires Enabled(s, step) && IsRun(Apply(s, step), steps)
    ensures IsRun(s, [step] + steps) && After(s, [step] + steps) == After(Apply(s, step), steps)
  {
    assert ([step] + steps)[1..] == steps;
  }

  lemma OneStep(s: State, step: Step)
    requires Enabled(s, step)
    ensures IsRun(s, [step]) && After(s, [step]) == Apply(s, step)
  {
    assert [step][1..] == [];
  }

  // Processing results has nothing to do with where the loops are.
  lemma {:induction false} TasksAside(s: State, tasks: seq<Pc>, chunk: Chunk, results: seq<JobData>)
    ensures ProcessAll(s.(tasks := tasks), chunk, results) == ProcessAll(s, chunk, results).(tasks := tasks)
  {
    if results != [] {
      TasksAside(s, tasks, chunk, results[..|results| - 1]);
    }
  }

  // In the middle of a page: i of its results are processed.
  ghost function Midway(s: State, t: nat, chunk: Chunk, results: seq<JobData>, i: nat, rest: seq<Chunk>): State
    requires t < |s.tasks| && i <= |results|
  {
    ProcessAll(s, chunk, results[..i]).(tasks := s.tasks[t := Results(chunk, results[i..], rest)])
  }

  lemma ResultStep(s: State, t: nat, chunk: Chunk, results: seq<JobData>, i: nat, rest: seq<Chunk>)
    requires t < |s.tasks| && i < |results|
    ensures var from := Midway(s, t, chunk, results, i, rest);
            Enabled(from, LoopResult(t)) && Apply(from, LoopResult(t)) == Midway(s, t, chunk, results, i + 1, rest)
  {
    assert results[..i + 1][..i] == results[..i] && results[i..][1..] == results[i + 1..];
  }

  lemma PageDone(s: State, t: nat, chunk: Chunk, results: seq<JobData>, rest: seq<Chunk>)
    requires t < |s.tasks|
    ensures var from := Midway(s, t, chunk, results, |results|, rest);
            && Enabled(from, LoopResult(t))
            && Apply(from, LoopResult(t)) == ProcessAll(s, chunk, results).(tasks := s.tasks[t := Request(rest)])
  {
    assert results[..|results|] == results;
  }

  // From the results not yet processed to the next request.
  lemma {:induction false} ResultsRun(s: State, t: nat, chunk: Chunk, results: seq<JobData>, i: nat, rest: seq<Chunk>)
    returns (steps: seq<Step>)
    requires t < |s.tasks| && i <= |results|
    ensures var from := Midway(s, t, chunk, results, i, rest);
            && IsRun(from, steps) && (forall step :: step in steps ==> Polls(step, t))
            && After(from, steps) == ProcessAll(s, chunk, results).(tasks := s.tasks[t := Request(rest)])
    decreases |results| - i
  {
    var from := Midway(s, t, chunk, results, i, rest);
    steps := [LoopResult(t)];
    if i == |results| {
      PageDone(s, t, chunk, results, rest);
      OneStep(from, LoopResult(t));
    } else {
      ResultStep(s, t, chunk, results, i, rest);
      OneStep(from, LoopResult(t));
      var more := ResultsRun(s, t, chunk, results, i + 1, rest);
      RunsCompose(from, [LoopResult(t)], more);
      steps := [LoopResult(t)] + more;
    }
  }

  // From the chunks not yet asked for to the sleep.
  lemma {:induction false} ChunksRun(s: State, t: nat, chunks: seq<Chunk>, i: nat, serve: Serve)
    returns (steps: seq<Step>)
    requires t < |s.tasks| && i <= |chunks|
    ensures var from := PollChunks(s, chunks[..i], serve).(tasks := s.tasks[t := Request(chunks[i..])]);
            && IsRun(from, steps) && (forall step :: step in steps ==> Polls(step, t))
            && After(from, steps) == PollChunks(s, chunks, serve).(tasks := s.tasks[t := Sleeping])
    decreases |chunks| - i
  {
    var before := PollChunks(s, chunks[..i], serve);
    var from := before.(tasks := s.tasks[t := Request(chunks[i..])]);
    if i == |chunks| {
      assert chunks[..i] == chunks && chunks[i..] == [];
      OneStep(from, LoopResponse(t, []));
      steps := [LoopResponse(t, [])];
    } else {
      var chunk, rest := chunks[i], chunks[i + 1..];
      var results := serve(chunk.workflow, Ids(chunk.jobs));
      assert chunks[i..][1..] == rest && chunks[..i + 1][..i] == chunks[..i] && results[..0] == [];
      OneStep(from, LoopResponse(t, results));
      var based := before.(tasks := s.tasks);
      var one := ResultsRun(based, t, chunk, results, 0, rest);
      assert results[0..] == results;
      assert After(from, [LoopResponse(t, results)]) == Midway(based, t, chunk, results, 0, rest);
      TasksAside(before, s.tasks, chunk, results);
      var more := ChunksRun(s, t, chunks, i + 1, serve);
      RunsCompose(from, [LoopResponse(t, results)], one);
      RunsCompose(from, [LoopResponse(t, results)] + one, more);
      steps := [LoopResponse(t, results)] + one + more;
    }
  }

  // With a snapshot in hand and nobody interfering, the loop's own steps leave
  // the state of a poll cycle and go to sleep.
  lemma {:induction false} CycleIsPollAll(s: State, t: nat, snapshot: Listing, size: nat, serve: Serve)
    returns (steps: seq<Step>)
    requires t < |s.tasks| && s.tasks[t] == Group(snapshot) && size >= 1
    ensures IsRun(s, steps) && forall step :: step in steps ==> Polls(step, t)
    ensures After(s, steps) == PollAll(s, snapshot, size, serve).(tasks := s.tasks[t := Sleeping])
  {
    var chunks := AllChunks(snapshot, s.futures, size);
    OneStep(s, LoopGroup(t, size));
    var more := ChunksRun(s, t, chunks, 0, serve);
    assert chunks[..0] == [] && chunks[0..] == chunks;
    RunsCompose(s, [LoopGroup(t, size)], more);
    steps := [LoopGroup(t, size)] + more;
  }

  // --- A pending job can be settled ----------------------------------------------

  lemma {:induction false} ReachableAfter(s: State, steps: seq<Step>)
    requires Reachable(s) && IsRun(s, steps)
    ensures Reachable(After(s, steps))
  {
    var before :| RunsTo(before, s);
    RunsCompose(INITIAL, before, steps);
    assert RunsTo(before + steps, After(s, steps));
  }

  // A listing of some of the keys.
  ghost predicate ListsKeys(l: Listing, jobs: map<string, Entry>, keys: set<string>) {
    && (forall i :: 0 <= i < |l| ==> l[i].0 in keys && l[i].0 in jobs && jobs[l[i].0] == l[i].1)
    && (forall i, j :: 0 <= i < j < |l| ==> l[i].0 != l[j].0)
    && (forall k :: k in keys ==> exists i :: 0 <= i < |l| && l[i].0 == k)
  }

  lemma OneMoreListed(l: Listing, jobs: map<string, Entry>, keys: set<string>, k: string)
    requires ListsKeys(l, jobs, keys) && k in jobs && k !in keys
    ensures ListsKeys(l + [(k, jobs[k])], jobs, keys + {k})
  {
    var longer := l + [(k, jobs[k])];
    forall m | m in keys + {k} ensures exists i :: 0 <= i < |longer| && longer[i].0 == m {
      if m == k {
        assert longer[|l|].0 == m;
      } else {
        var i :| 0 <= i < |l| && l[i].0 == m;
        assert longer[i].0 == m;
      }
    }
  }

  lemma {:induction false} ListingOf(jobs: map<string, Entry>, keys: set<string>) returns (l: Listing)
    requires keys <= jobs.Keys
    ensures ListsKeys(l, jobs, keys)
  {
    if keys == {} {
      l := [];
    } else {
      var k :| k in keys;
      var fewer := ListingOf(jobs, keys - {k});
      OneMoreListed(fewer, jobs, keys - {k}, k);
      assert keys - {k} + {k} == keys;
      l := fewer + [(k, jobs[k])];
    }
  }

  // What the loop does by itself, unless it fails.
  predicate OwnStep(step: Step, t: nat) {
    || Polls(step, t)
    || step == LoopTransient(t) || step == LoopWake(t) || step == LoopCleanup(t)
    || (step.LoopCheck? && step.task == t)
  }

  // Wherever the loop is, it can get back to its start; a request that is under
  // way is given up by a transient error.
  lemma {:induction false} BackToStart(s: State, t: nat) returns (steps: seq<Step>)
    requires t < |s.tasks| && CanPoll(s.tasks[t]) && s.tasks[t] != Failing
    ensures IsRun(s, steps) && forall step :: step in steps ==> OwnStep(step, t)
    ensures After(s, steps) == Goto(s, t, Cleanup)
  {
    if s.tasks[t] == Cleanup {
      steps := [];
    } else if s.tasks[t] == Sleeping {
      OneStep(s, LoopWake(t));
      steps := [LoopWake(t)];
    } else {
      OneStep(s, LoopTransient(t));
      OneStep(Goto(s, t, Sleeping), LoopWake(t));
      RunsCompose(s, [LoopTransient(t)], [LoopWake(t)]);
      steps := [LoopTransient(t)] + [LoopWake(t)];
    }
  }

  // From the start to the snapshot, when something is tracked.
  lemma {:induction false} ToSnapshot(s: State, t: nat) returns (steps: seq<Step>, snapshot: Listing)
    requires t < |s.tasks| && s.tasks[t] == Cleanup && CleanupStaleJobs(s).jobs != map[]
    ensures IsRun(s, steps) && forall step :: step in steps ==> OwnStep(step, t)
    ensures After(s, steps) == Goto(CleanupStaleJobs(s), t, Group(snapshot)) && Lists(snapshot, CleanupStaleJobs(s).jobs)
  {
    var clean := CleanupStaleJobs(s);
    snapshot := ListingOf(clean.jobs, clean.jobs.Keys);
    OneStep(s, LoopCleanup(t));
    OneStep(Goto(clean, t, Check), LoopCheck(t, snapshot));
    RunsCompose(s, [LoopCleanup(t)], [LoopCheck(t, snapshot)]);
    steps := [LoopCleanup(t)] + [LoopCheck(t, snapshot)];
    assert clean.tasks[t := Check][t := Group(snapshot)] == clean.tasks[t := Group(snapshot)];
  }

  // A state whose loop t is about to poll, with everything s was waiting for.
  ghost predicate Polling(s: State, s': State, t: nat, snapshot: Listing) {
    && Reachable(s') && s'.futures == s.futures && t < |s'.tasks| && s'.tasks[t] == Group(snapshot)
    && Lists(snapshot, s'.jobs)
    && (forall k :: k in s'.jobs ==> k in s.jobs && s'.jobs[k] == s.jobs[k])
    && (forall k :: k in s.jobs && IsPending(s.futures, s.jobs[k].future) ==> k in s'.jobs)
  }

  lemma {:induction false} ToPolling(s: State, t: nat, key: string)
    returns (steps: seq<Step>, s': State, snapshot: Listing)
    requires Reachable(s) && key in s.jobs && IsPending(s.futures, s.jobs[key].future)
    requires t < |s.tasks| && CanPoll(s.tasks[t]) && s.tasks[t] != Failing
    ensures IsRun(s, steps) && After(s, steps) == s' && forall step :: step in steps ==> OwnStep(step, t)
    ensures Polling(s, s', t, snapshot)
  {
    var back := BackToStart(s, t);
    var s1 := Goto(s, t, Cleanup);
    assert key in CleanupStaleJobs(s1).jobs;
    var look;
    look, snapshot := ToSnapshot(s1, t);
    RunsCompose(s, back, look);
    s' := Goto(CleanupStaleJobs(s1), t, Group(snapshot));
    steps := back + look;
    ReachableAfter(s, steps);
    CleanIsPolling(s, t, snapshot);
  }

  lemma CleanIsPolling(s: State, t: nat, snapshot: Listing)
    requires t < |s.tasks| && Lists(snapshot, CleanupStaleJobs(s).jobs)
    requires Reachable(Goto(CleanupStaleJobs(Goto(s, t, Cleanup)), t, Group(snapshot)))
    ensures Polling(s, Goto(CleanupStaleJobs(Goto(s, t, Cleanup)), t, Group(snapshot)), t, snapshot)
  {
  }

  // The controller has a terminal answer for the job with this URL.
  ghost predicate Ended(url: string, answer: Answers) {
    var job := answer(MentionsWorkflow(url), NumericId(url));
    job.Some? && job.value.status in {"successful", "failed", "error", "canceled"}
  }

  // In every reachable state whose loop has not failed: once the controller
  // reports a terminal status, the loop alone can settle the job's future with it.
  lemma {:induction false} PendingJobCanSettle(s: State, key: string, size: nat, serve: Serve, answer: Answers)
    returns (t: nat, steps: seq<Step>)
    requires Reachable(s) && key in s.jobs && IsPending(s.futures, s.jobs[key].future)
    requires size >= 1 && Faithful(serve, answer)
    requires forall k :: k in s.jobs ==> WellFormed(s.jobs[k].target.url)
    requires forall t :: 0 <= t < |s.tasks| ==> s.tasks[t] != Failing
    requires Ended(s.jobs[key].target.url, answer)
    ensures IsRun(s, steps) && forall step :: step in steps ==> OwnStep(step, t)
    ensures var url, f, e := s.jobs[key].target.url, s.jobs[key].future, After(s, steps);
            && f < |e.futures| && key !in e.jobs
            && e.futures[f].outcome == Resolved(answer(MentionsWorkflow(url), NumericId(url)).value)
  {
    ReachableKeepsInv(s);
    t := s.monitor.value;
    var before, s', snapshot := ToPolling(s, t, key);
    var cycle := CycleIsPollAll(s', t, snapshot, size, serve);
    RunsCompose(s, before, cycle);
    steps := before + cycle;
    SettledExactly(s', snapshot, size, serve, answer, key);
  }

  // --- A failing loop ----------------------------------------------------------------

  // s with its futures failed and nothing left to do.
  ghost predicate AllFailed(s: State, e: State) {
    && e.jobs == map[] && e.monitor == None && |e.futures| == |s.futures|
    && (forall f :: 0 <= f < |s.futures| ==>
          e.futures[f].outcome == if s.futures[f].outcome == Pending then Errored else s.futures[f].outcome)
    && (forall u :: 0 <= u < |e.tasks| ==> !CanPoll(e.tasks[u]))
  }

  // From any place at which the loop talks to the controller a failure ends it,
  // and every future that was pending gets the exception.
  lemma {:induction false} FailureFailsAll(s: State, t: nat)
    requires Reachable(s) && t < |s.tasks| && CanPoll(s.tasks[t]) && s.tasks[t] != Failing
    ensures IsRun(s, [LoopError(t)] + ([LoopFailAll(t)] + [LoopFinish(t)]))
    ensures AllFailed(s, After(s, [LoopError(t)] + ([LoopFailAll(t)] + [LoopFinish(t)])))
  {
    var s1 := Apply(s, LoopError(t));
    OneStep(s, LoopError(t));
    ReachableAfter(s, [LoopError(t)]);
    FailingFailsAll(s1, t);
    RunsPrepend(s, LoopError(t), [LoopFailAll(t)] + [LoopFinish(t)]);
  }

  lemma {:induction false} FailingFailsAll(s: State, t: nat)
    requires Reachable(s) && t < |s.tasks| && s.tasks[t] == Failing
    ensures IsRun(s, [LoopFailAll(t)] + [LoopFinish(t)])
    ensures AllFailed(s, After(s, [LoopFailAll(t)] + [LoopFinish(t)]))
  {
    ReachableKeepsInv(s);
    FailAllFails(s);
    var s1 := Apply(s, LoopFailAll(t));
    OneStep(s1, LoopFinish(t));
    RunsPrepend(s, LoopFailAll(t), [LoopFinish(t)]);
  }

  // The steps of loop t.
  predicate IsOf(step: Step, t: nat) {
    match step
    case Register(_) => false
    case Cancel(_) => false
    case LoopCheck(u, _) => u == t
    case LoopGroup(u, _) => u == t
    case LoopResponse(u, _) => u == t
    case _ => step.task == t
  }

  // A loop that failed does nothing but fail its jobs, and one that did so or
  // ran out of jobs does nothing but end.
  lemma FailedLoopOnlyFails(s: State, t: nat, step: Step)
    requires t < |s.tasks| && Enabled(s, step) && IsOf(step, t)
    ensures s.tasks[t] == Failing ==> step == LoopFailAll(t)
    ensures s.tasks[t] == Exiting ==> step == LoopFinish(t)
    ensures s.tasks[t] != Finished
  {
  }

  // --- Causes -----------------------------------------------------------------------------

  // A step so far reported this job.
  ghost predicate Reported(past: seq<Step>, job: JobData) {
    exists i :: 0 <= i < |past| && past[i].LoopResponse? && job in past[i].results
  }

  ghost predicate Erred(past: seq<Step>) {
    exists i :: 0 <= i < |past| && past[i].LoopError?
  }

  ghost predicate Caused(past: seq<Step>, f: nat, outcome: Outcome) {
    match outcome
    case Pending => Cancel(f) !in past
    case Cancelled => Cancel(f) in past
    case Errored => Erred(past) && Cancel(f) !in past
    case Resolved(job) => Reported(past, job) && Cancel(f) !in past
  }

  ghost predicate CausesOk(past: seq<Step>, s: State) {
    && (forall f :: 0 <= f < |s.futures| ==> Caused(past, f, s.futures[f].outcome))
    && (forall f: nat :: f >= |s.futures| ==> Cancel(f) !in past)
    && (forall t :: 0 <= t < |s.tasks| && s.tasks[t].Failing? ==> Erred(past))
    && (forall t :: 0 <= t < |s.tasks| && s.tasks[t].Results? ==>
          forall job :: job in s.tasks[t].results ==> Reported(past, job))
  }

  lemma CausesStay(past: seq<Step>, step: Step)
    ensures Erred(past) ==> Erred(past + [step])
    ensures step.LoopError? ==> Erred(past + [step])
    ensures forall job :: Reported(past, job) ==> Reported(past + [step], job)
    ensures step.LoopResponse? ==> forall job :: job in step.results ==> Reported(past + [step], job)
  {
    var longer := past + [step];
    if Erred(past) {
      var i :| 0 <= i < |past| && past[i].LoopError?;
      assert longer[i].LoopError?;
    }
    assert longer[|past|] == step;
    forall job | Reported(past, job) ensures Reported(longer, job) {
      var i :| 0 <= i < |past| && past[i].LoopResponse? && job in past[i].results;
      assert longer[i] == past[i];
    }
  }

  lemma FuturesStayCaused(past: seq<Step>, s: State, step: Step)
    requires CausesOk(past, s) && Enabled(s, step)
    ensures var s' := Apply(s, step);
            forall f :: 0 <= f < |s'.futures| ==> Caused(past + [step], f, s'.futures[f].outcome)
  {
    CausesStay(past, step);
    var s' := Apply(s, step);
    forall f | 0 <= f < |s'.futures| ensures Caused(past + [step], f, s'.futures[f].outcome) {
      if f < |s.futures| {
        assert Caused(past, f, s.futures[f].outcome);
      }
    }
  }

  lemma ResultsStayCaused(past: seq<Step>, s: State, step: Step, t: nat, job: JobData)
    requires CausesOk(past, s) && Enabled(s, step)
    requires var tasks := Apply(s, step).tasks; t < |tasks| && tasks[t].Results? && job in tasks[t].results
    ensures Reported(past + [step], job)
  {
    CausesStay(past, step);
    if !(step.LoopResponse? && step.task == t) {
      assert t < |s.tasks| && s.tasks[t].Results? && job in s.tasks[t].results;
    }
  }

  lemma StepKeepsCauses(past: seq<Step>, s: State, step: Step)
    requires CausesOk(past, s) && Enabled(s, step)
    ensures CausesOk(past + [step], Apply(s, step))
  {
    CausesStay(past, step);
    FuturesStayCaused(past, s, step);
    var s' := Apply(s, step);
    forall t, job | 0 <= t < |s'.tasks| && s'.tasks[t].Results? && job in s'.tasks[t].results
      ensures Reported(past + [step], job)
    {
      ResultsStayCaused(past, s, step, t, job);
    }
  }

  lemma {:induction false} RunKeepsCauses(past: seq<Step>, s: State, steps: seq<Step>)
    requires CausesOk(past, s) && IsRun(s, steps)
    ensures CausesOk(past + steps, After(s, steps))
    decreases |steps|
  {
    if steps == [] {
      assert past + [] == past;
    } else {
      StepKeepsCauses(past, s, steps[0]);
      RunKeepsCauses(past + [steps[0]], Apply(s, steps[0]), steps[1..]);
      assert past + [steps[0]] + steps[1..] == past + steps;
    }
  }

  // Over every run: a future is cancelled exactly when its caller cancelled it,
  // holds an exception only after an error of the loop, and holds a result only
  // if a response reported it.
  lemma {:induction false} OutcomesHaveCauses(steps: seq<Step>)
    requires IsRun(INITIAL, steps)
    ensures var e := After(INITIAL, steps);
            forall f :: 0 <= f < |e.futures| ==> Caused(steps, f, e.futures[f].outcome)
  {
    RunKeepsCauses([], INITIAL, steps);
    assert [] + steps == steps;
  }
}
