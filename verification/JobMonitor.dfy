/**
 The shared job monitor as a step relation. Every block the source runs under
 `_jobs_lock` is one step, every wait is a place where any other step may come
 in between, and the controller's answers are arbitrary.
 */
module JobMonitor {
  import opened Wrappers
  import opened JobUrls

  // id is the string form of the id the controller reports.
  datatype JobData = JobData(id: string, status: string)

  const TERMINAL := {"successful", "failed", "error", "canceled"}

  datatype Outcome = Pending | Resolved(job: JobData) | Errored | Cancelled

  // A job URL with everything the source derives from it.
  datatype Target = Target(url: string, key: string, numericId: string, workflow: bool)

  function TargetOf(url: string): Target {
    Target(url, JobKey(url), NumericId(url), IsWorkflow(url))
  }

  // A future the monitor created, the job it was created for, and how often
  // something settled it.
  datatype Future = Future(target: Target, outcome: Outcome, settles: nat)

  datatype Entry = Entry(target: Target, future: nat)

  type Listing = seq<(string, Entry)>

  datatype Chunk = Chunk(workflow: bool, jobs: Listing)

  // Where a monitor loop is.
  datatype Pc =
    | Cleanup
    | Check
    | Group(snapshot: Listing)
    | Request(chunks: seq<Chunk>)
    | Results(chunk: Chunk, results: seq<JobData>, chunks: seq<Chunk>)
    | Sleeping
    | Failing
    | Exiting
    | Finished

  datatype State = State(
    jobs: map<string, Entry>,
    futures: seq<Future>,
    monitor: Option<nat>,
    tasks: seq<Pc>,
    total: nat,
    starts: nat)

  const INITIAL := State(map[], [], None, [], 0, 0)

  // --- Pieces of the table -------------------------------------------------

  predicate IsPending(futures: seq<Future>, f: nat) {
    f < |futures| && futures[f].outcome.Pending?
  }

  predicate IsStale(futures: seq<Future>, f: nat) {
    f < |futures| && (futures[f].outcome.Errored? || futures[f].outcome.Cancelled?)
  }

  // set_result, set_exception and cancel.
  function Settle(futures: seq<Future>, f: nat, outcome: Outcome): seq<Future>
    requires f < |futures|
  {
    futures[f := futures[f].(outcome := outcome, settles := futures[f].settles + 1)]
  }

  function TrackedFutures(jobs: map<string, Entry>): set<nat> {
    set k | k in jobs :: jobs[k].future
  }

  // _fail_all_jobs: every tracked future that is not done gets the exception.
  function FailTracked(jobs: map<string, Entry>, futures: seq<Future>): (r: seq<Future>)
    ensures |r| == |futures|
  {
    seq(|futures|, f requires 0 <= f < |futures| =>
      if f in TrackedFutures(jobs) && futures[f].outcome.Pending?
      then futures[f].(outcome := Errored, settles := futures[f].settles + 1)
      else futures[f])
  }

  // A listing enumerates the table once, in some order.
  ghost predicate Lists(snapshot: Listing, jobs: map<string, Entry>) {
    && (forall i :: 0 <= i < |snapshot| ==> snapshot[i].0 in jobs && jobs[snapshot[i].0] == snapshot[i].1)
    && (forall i, j :: 0 <= i < j < |snapshot| ==> snapshot[i].0 != snapshot[j].0)
    && (forall k :: k in jobs ==> exists i :: 0 <= i < |snapshot| && snapshot[i].0 == k)
  }

  // _poll_all_jobs: the entries of one type whose future is not done.
  function OfType(snapshot: Listing, futures: seq<Future>, workflow: bool): Listing {
    if snapshot == [] then []
    else if IsAskedFor(snapshot[0].1, futures, workflow)
    then [snapshot[0]] + OfType(snapshot[1..], futures, workflow)
    else OfType(snapshot[1..], futures, workflow)
  }

  predicate IsAskedFor(e: Entry, futures: seq<Future>, workflow: bool) {
    e.target.workflow == workflow && !(e.future < |futures| && !futures[e.future].outcome.Pending?)
  }

  lemma {:induction false} OfTypeMembers(snapshot: Listing, futures: seq<Future>, workflow: bool)
    ensures forall x :: x in OfType(snapshot, futures, workflow) <==> x in snapshot && IsAskedFor(x.1, futures, workflow)
  {
    if snapshot != [] {
      OfTypeMembers(snapshot[1..], futures, workflow);
      assert snapshot == [snapshot[0]] + snapshot[1..];
    }
  }

  // _batch_poll_jobs: consecutive slices of at most `size` jobs.
  function ChunksOf<T>(xs: seq<T>, size: nat): seq<seq<T>>
    requires size >= 1
  {
    if xs == [] then []
    else if |xs| <= size then [xs]
    else [xs[..size]] + ChunksOf(xs[size..], size)
  }

  // No chunk is empty or longer than the limit, and chunks hold nothing new.
  lemma {:induction false} ChunkMembers<T>(xs: seq<T>, size: nat)
    requires size >= 1
    ensures forall c :: c in ChunksOf(xs, size) ==> 1 <= |c| <= size && forall x :: x in c ==> x in xs
  {
    if |xs| > size {
      ChunkMembers(xs[size..], size);
      forall c | c in ChunksOf(xs, size) ensures 1 <= |c| <= size && forall x :: x in c ==> x in xs {
        assert c == xs[..size] || c in ChunksOf(xs[size..], size);
      }
    }
  }

  function TypedChunks(workflow: bool, chunks: seq<Listing>): (r: seq<Chunk>)
    ensures |r| == |chunks|
    ensures forall i :: 0 <= i < |r| ==> r[i] == Chunk(workflow, chunks[i])
  {
    seq(|chunks|, i requires 0 <= i < |chunks| => Chunk(workflow, chunks[i]))
  }

  function AllChunks(snapshot: Listing, futures: seq<Future>, size: nat): seq<Chunk>
    requires size >= 1
  {
    TypedChunks(false, ChunksOf(OfType(snapshot, futures, false), size))
    + TypedChunks(true, ChunksOf(OfType(snapshot, futures, true), size))
  }

  // id_to_key.get(nid) followed by jobs[key]; the last entry with an id wins.
  function FindById(jobs: Listing, id: string): (r: Option<(string, Entry)>)
    ensures r.Some? ==> r.value in jobs && r.value.1.target.numericId == id
    ensures r.None? ==> forall x :: x in jobs ==> x.1.target.numericId != id
  {
    if jobs == [] then None
    else if jobs[|jobs| - 1].1.target.numericId == id then Some(jobs[|jobs| - 1])
    else FindById(jobs[..|jobs| - 1], id)
  }

  // --- Steps ---------------------------------------------------------------

  datatype Step =
    | Register(url: string)
    | Cancel(future: nat)
    | LoopCleanup(task: nat)
    | LoopCheck(task: nat, snapshot: Listing)
    | LoopGroup(task: nat, size: nat)
    | LoopResponse(task: nat, results: seq<JobData>)
    | LoopResult(task: nat)
    | LoopTransient(task: nat)
    | LoopError(task: nat)
    | LoopFailAll(task: nat)
    | LoopWake(task: nat)
    | LoopFinish(task: nat)

  predicate MonitorStopped(s: State) {
    s.monitor.None? || (s.monitor.value < |s.tasks| && s.tasks[s.monitor.value].Finished?)
  }

  function RegisterTarget(s: State, target: Target): State {
    if target.key in s.jobs then s
    else
      var f := |s.futures|;
      var s1 := s.(jobs := s.jobs[target.key := Entry(target, f)],
                   futures := s.futures + [Future(target, Pending, 0)],
                   total := s.total + 1);
      if MonitorStopped(s) then
        s1.(starts := s.starts + 1, monitor := Some(|s.tasks|), tasks := s.tasks + [Cleanup])
      else s1
  }

  function RegisterJob(s: State, url: string): State {
    RegisterTarget(s, TargetOf(url))
  }

  // The future register_job hands back.
  function RegisteredFuture(s: State, target: Target): nat {
    if target.key in s.jobs then s.jobs[target.key].future else |s.futures|
  }

  function CleanupStaleJobs(s: State): State {
    s.(jobs := map k | k in s.jobs && !IsStale(s.futures, s.jobs[k].future) :: s.jobs[k])
  }

  function FailAllJobs(s: State): State {
    s.(futures := FailTracked(s.jobs, s.futures), jobs := map[], monitor := None)
  }

  function ProcessPollResult(s: State, key: string, e: Entry, job: JobData): State {
    if job.status !in TERMINAL then s
    else if key in s.jobs && IsPending(s.futures, e.future) then
      s.(futures := Settle(s.futures, e.future, Resolved(job)), jobs := s.jobs - {key})
    else s
  }

  function ProcessResult(s: State, chunk: Chunk, job: JobData): State {
    match FindById(chunk.jobs, job.id)
    case None => s
    case Some((key, e)) => ProcessPollResult(s, key, e, job)
  }

  function Goto(s: State, t: nat, pc: Pc): State
    requires t < |s.tasks|
  {
    s.(tasks := s.tasks[t := pc])
  }

  predicate CanPoll(pc: Pc) {
    !pc.Exiting? && !pc.Finished?
  }

  ghost predicate Enabled(s: State, step: Step) {
    match step
    case Register(_) => true
    case Cancel(f) => IsPending(s.futures, f)
    case LoopCleanup(t) => t < |s.tasks| && s.tasks[t].Cleanup?
    case LoopCheck(t, snapshot) => t < |s.tasks| && s.tasks[t].Check? && Lists(snapshot, s.jobs)
    case LoopGroup(t, size) => t < |s.tasks| && s.tasks[t].Group? && size >= 1
    case LoopResponse(t, _) => t < |s.tasks| && s.tasks[t].Request?
    case LoopResult(t) => t < |s.tasks| && s.tasks[t].Results?
    case LoopTransient(t) => t < |s.tasks| && CanPoll(s.tasks[t]) && !s.tasks[t].Failing?
    case LoopError(t) => t < |s.tasks| && CanPoll(s.tasks[t]) && !s.tasks[t].Failing?
    case LoopFailAll(t) => t < |s.tasks| && s.tasks[t].Failing?
    case LoopWake(t) => t < |s.tasks| && s.tasks[t].Sleeping?
    case LoopFinish(t) => t < |s.tasks| && s.tasks[t].Exiting?
  }

  function Apply(s: State, step: Step): State
    requires Enabled(s, step)
  {
    match step
    case Register(url) => RegisterJob(s, url)
    case Cancel(f) => s.(futures := Settle(s.futures, f, Cancelled))
    case LoopCleanup(t) => Goto(CleanupStaleJobs(s), t, Check)
    case LoopCheck(t, snapshot) =>
      if s.jobs == map[] then Goto(s.(monitor := None), t, Exiting)
      else Goto(s, t, Group(snapshot))
    case LoopGroup(t, size) => Goto(s, t, Request(AllChunks(s.tasks[t].snapshot, s.futures, size)))
    case LoopResponse(t, results) =>
      var chunks := s.tasks[t].chunks;
      if chunks == [] then Goto(s, t, Sleeping)
      else Goto(s, t, Results(chunks[0], results, chunks[1..]))
    case LoopResult(t) =>
      var pc := s.tasks[t];
      if pc.results == [] then Goto(s, t, Request(pc.chunks))
      else Goto(ProcessResult(s, pc.chunk, pc.results[0]), t, pc.(results := pc.results[1..]))
    case LoopTransient(t) => Goto(s, t, Sleeping)
    case LoopError(t) => Goto(s, t, Failing)
    case LoopFailAll(t) => Goto(FailAllJobs(s), t, Exiting)
    case LoopWake(t) => Goto(s, t, Cleanup)
    case LoopFinish(t) => Goto(s, t, Finished)
  }

  ghost predicate IsRun(s: State, steps: seq<Step>)
    decreases |steps|
  {
    steps == [] || (Enabled(s, steps[0]) && IsRun(Apply(s, steps[0]), steps[1..]))
  }

  ghost function After(s: State, steps: seq<Step>): State
    requires IsRun(s, steps)
    decreases |steps|
  {
    if steps == [] then s else After(Apply(s, steps[0]), steps[1..])
  }

  // --- Invariants ----------------------------------------------------------

  predicate EntryOk(futures: seq<Future>, key: string, e: Entry) {
    && e.future < |futures|
    && futures[e.future].target == e.target
    && key == e.target.key
  }

  predicate ListingOk(futures: seq<Future>, l: Listing) {
    forall x :: x in l ==> EntryOk(futures, x.0, x.1)
  }

  predicate ChunksOk(futures: seq<Future>, chunks: seq<Chunk>) {
    forall c :: c in chunks ==> ListingOk(futures, c.jobs)
  }

  predicate PcOk(futures: seq<Future>, pc: Pc) {
    match pc
    case Group(snapshot) => ListingOk(futures, snapshot)
    case Request(chunks) => ChunksOk(futures, chunks)
    case Results(chunk, _, chunks) => ListingOk(futures, chunk.jobs) && ChunksOk(futures, chunks)
    case _ => true
  }

  predicate EntriesOk(s: State) {
    && (forall k :: k in s.jobs ==> EntryOk(s.futures, k, s.jobs[k]))
    && (forall t :: 0 <= t < |s.tasks| ==> PcOk(s.futures, s.tasks[t]))
  }

  // Every future that is not done is the one tracked under its key.
  predicate PendingTracked(s: State) {
    forall f :: 0 <= f < |s.futures| && s.futures[f].outcome.Pending? ==>
      s.futures[f].target.key in s.jobs && s.jobs[s.futures[f].target.key].future == f
  }

  predicate FutureOk(f: Future) {
    && f.settles == (if f.outcome.Pending? then 0 else 1)
    && (f.outcome.Resolved? ==> f.outcome.job.id == f.target.numericId && f.outcome.job.status in TERMINAL)
  }

  predicate FuturesOk(s: State) {
    forall f :: 0 <= f < |s.futures| ==> FutureOk(s.futures[f])
  }

  // At most one loop can poll, it is the one _monitor_task names, and there
  // is one whenever jobs are tracked.
  predicate LoopsOk(s: State) {
    && (forall t :: 0 <= t < |s.tasks| && CanPoll(s.tasks[t]) ==> s.monitor == Some(t))
    && (s.monitor.Some? ==> s.monitor.value < |s.tasks| && CanPoll(s.tasks[s.monitor.value]))
    && (s.jobs != map[] ==> s.monitor.Some?)
  }

  predicate Inv(s: State) {
    EntriesOk(s) && PendingTracked(s) && FuturesOk(s) && LoopsOk(s)
  }

  // A snapshot entry whose future is not done is still the tracked entry.
  lemma SnapshotEntryStillTracked(s: State, key: string, e: Entry)
    requires Inv(s) && EntryOk(s.futures, key, e) && IsPending(s.futures, e.future)
    ensures key in s.jobs && s.jobs[key] == e
  {
  }

  // Futures are only ever appended or settled.
  predicate Grows(futures: seq<Future>, futures': seq<Future>) {
    && |futures| <= |futures'|
    && (forall f :: 0 <= f < |futures| ==> futures'[f].target == futures[f].target)
  }

  lemma ListingStaysOk(futures: seq<Future>, futures': seq<Future>, l: Listing)
    requires Grows(futures, futures') && ListingOk(futures, l)
    ensures ListingOk(futures', l)
  {
  }

  lemma PcStaysOk(futures: seq<Future>, futures': seq<Future>, pc: Pc)
    requires Grows(futures, futures') && PcOk(futures, pc)
    ensures PcOk(futures', pc)
  {
    if pc.Request? || pc.Results? {
      forall c | c in pc.chunks ensures ListingOk(futures', c.jobs) {
        ListingStaysOk(futures, futures', c.jobs);
      }
    }
  }

  lemma AllChunksOk(snapshot: Listing, futures: seq<Future>, size: nat)
    requires size >= 1 && ListingOk(futures, snapshot)
    ensures ChunksOk(futures, AllChunks(snapshot, futures, size))
  {
    var regular, workflow := OfType(snapshot, futures, false), OfType(snapshot, futures, true);
    OfTypeMembers(snapshot, futures, false);
    OfTypeMembers(snapshot, futures, true);
    ChunkMembers(regular, size);
    ChunkMembers(workflow, size);
    forall c | c in AllChunks(snapshot, futures, size) ensures ListingOk(futures, c.jobs) {
      var i :| 0 <= i < |AllChunks(snapshot, futures, size)| && AllChunks(snapshot, futures, size)[i] == c;
      assert c.jobs in ChunksOf(regular, size) || c.jobs in ChunksOf(workflow, size);
    }
  }

  lemma TasksStayOk(s: State, futures': seq<Future>)
    requires EntriesOk(s) && Grows(s.futures, futures')
    ensures forall t :: 0 <= t < |s.tasks| ==> PcOk(futures', s.tasks[t])
  {
    forall t | 0 <= t < |s.tasks| ensures PcOk(futures', s.tasks[t]) {
      PcStaysOk(s.futures, futures', s.tasks[t]);
    }
  }

  lemma RegisterKeepsKeys(s: State, target: Target)
    requires EntriesOk(s) && target.key !in s.jobs
    ensures var s' := RegisterTarget(s, target); forall k :: k in s'.jobs ==> EntryOk(s'.futures, k, s'.jobs[k])
  {
    var s' := RegisterTarget(s, target);
    forall k | k in s'.jobs && k != target.key ensures EntryOk(s'.futures, k, s'.jobs[k]) {
      assert EntryOk(s.futures, k, s.jobs[k]);
    }
  }

  lemma RegisterKeepsTasks(s: State, target: Target)
    requires EntriesOk(s)
    ensures var s' := RegisterTarget(s, target); forall t :: 0 <= t < |s'.tasks| ==> PcOk(s'.futures, s'.tasks[t])
  {
    var s' := RegisterTarget(s, target);
    TasksStayOk(s, s'.futures);
    assert s'.tasks == s.tasks || s'.tasks == s.tasks + [Cleanup];
  }

  lemma RegisterKeepsPending(s: State, target: Target)
    requires EntriesOk(s) && PendingTracked(s) && FuturesOk(s) && target.key !in s.jobs
    ensures PendingTracked(RegisterTarget(s, target)) && FuturesOk(RegisterTarget(s, target))
  {
  }

  lemma RegisterKeepsInv(s: State, target: Target)
    requires Inv(s)
    ensures Inv(RegisterTarget(s, target))
  {
    if target.key !in s.jobs {
      RegisterKeepsKeys(s, target);
      RegisterKeepsTasks(s, target);
      RegisterKeepsPending(s, target);
    }
  }

  lemma CleanupKeepsInv(s: State)
    requires Inv(s)
    ensures var s' := CleanupStaleJobs(s);
            EntriesOk(s') && PendingTracked(s') && FuturesOk(s') && LoopsOk(s')
  {
    var s' := CleanupStaleJobs(s);
    if s'.jobs != map[] {
      var k :| k in s'.jobs;
      assert k in s.jobs;
    }
  }

  lemma FailAllKeepsFutures(s: State)
    requires Inv(s)
    ensures var s' := FailAllJobs(s);
            EntriesOk(s') && PendingTracked(s') && FuturesOk(s')
  {
    var s' := FailAllJobs(s);
    TasksStayOk(s, s'.futures);
    forall f | 0 <= f < |s'.futures| ensures FutureOk(s'.futures[f]) && !s'.futures[f].outcome.Pending? {
      assert FutureOk(s.futures[f]);
      if s.futures[f].outcome.Pending? {
        var k := s.futures[f].target.key;
        assert k in s.jobs && s.jobs[k].future == f;
        assert f in TrackedFutures(s.jobs);
      }
    }
  }

  // When the loop fails, every future that is not done gets the exception, the
  // others stay as they are, and nothing is tracked any more.
  lemma FailAllFails(s: State)
    requires Inv(s)
    ensures var s' := FailAllJobs(s);
            && |s'.futures| == |s.futures| && s'.jobs == map[] && s'.monitor == None
            && (forall f :: 0 <= f < |s.futures| ==>
                  s'.futures[f] == if s.futures[f].outcome == Pending then Future(s.futures[f].target, Errored, 1)
                                   else s.futures[f])
  {
    forall f | 0 <= f < |s.futures| && s.futures[f].outcome.Pending?
      ensures FailAllJobs(s).futures[f] == Future(s.futures[f].target, Errored, 1)
    {
      assert FutureOk(s.futures[f]);
      var k := s.futures[f].target.key;
      assert k in s.jobs && s.jobs[k].future == f;
      assert f in TrackedFutures(s.jobs);
    }
  }

  lemma ProcessKeepsInv(s: State, chunk: Chunk, job: JobData)
    requires Inv(s) && ListingOk(s.futures, chunk.jobs)
    ensures Inv(ProcessResult(s, chunk, job))
  {
    match FindById(chunk.jobs, job.id)
    case None =>
    case Some((key, e)) =>
      assert (key, e) in chunk.jobs;
      assert EntryOk(s.futures, key, e);
      if job.status in TERMINAL && key in s.jobs && IsPending(s.futures, e.future) {
        SnapshotEntryStillTracked(s, key, e);
        var s' := ProcessPollResult(s, key, e, job);
        assert Grows(s.futures, s'.futures);
        TasksStayOk(s, s'.futures);
        forall f | 0 <= f < |s'.futures| ensures FutureOk(s'.futures[f]) {
          assert FutureOk(s.futures[f]);
        }
      }
  }

  lemma GotoKeepsInv(s: State, t: nat, pc: Pc)
    requires Inv(s) && t < |s.tasks| && CanPoll(s.tasks[t]) && CanPoll(pc) && PcOk(s.futures, pc)
    ensures Inv(Goto(s, t, pc))
  {
  }

  lemma CancelKeepsInv(s: State, f: nat)
    requires Inv(s) && IsPending(s.futures, f)
    ensures Inv(s.(futures := Settle(s.futures, f, Cancelled)))
  {
    var futures' := Settle(s.futures, f, Cancelled);
    TasksStayOk(s, futures');
    assert FutureOk(s.futures[f]);
  }

  lemma ExitKeepsInv(s: State, t: nat)
    requires EntriesOk(s) && PendingTracked(s) && FuturesOk(s)
    requires forall u :: 0 <= u < |s.tasks| && CanPoll(s.tasks[u]) ==> u == t
    requires t < |s.tasks| && s.jobs == map[] && s.monitor.None?
    ensures Inv(Goto(s, t, Exiting))
  {
  }

  lemma CheckKeepsInv(s: State, t: nat, snapshot: Listing)
    requires Inv(s) && Enabled(s, LoopCheck(t, snapshot))
    ensures Inv(Apply(s, LoopCheck(t, snapshot)))
  {
    if s.jobs == map[] {
      ExitKeepsInv(s.(monitor := None), t);
    } else {
      assert forall x :: x in snapshot ==> x.0 in s.jobs && s.jobs[x.0] == x.1;
      GotoKeepsInv(s, t, Group(snapshot));
    }
  }

  lemma ResponseKeepsInv(s: State, t: nat, results: seq<JobData>)
    requires Inv(s) && Enabled(s, LoopResponse(t, results))
    ensures Inv(Apply(s, LoopResponse(t, results)))
  {
    assert PcOk(s.futures, s.tasks[t]);
    var chunks := s.tasks[t].chunks;
    if chunks != [] {
      assert chunks[0] in chunks;
      GotoKeepsInv(s, t, Results(chunks[0], results, chunks[1..]));
    } else {
      GotoKeepsInv(s, t, Sleeping);
    }
  }

  lemma ResultKeepsInv(s: State, t: nat)
    requires Inv(s) && Enabled(s, LoopResult(t))
    ensures Inv(Apply(s, LoopResult(t)))
  {
    var pc := s.tasks[t];
    assert PcOk(s.futures, pc);
    if pc.results == [] {
      GotoKeepsInv(s, t, Request(pc.chunks));
    } else {
      ProcessKeepsInv(s, pc.chunk, pc.results[0]);
      var s1 := ProcessResult(s, pc.chunk, pc.results[0]);
      assert PcOk(s1.futures, s1.tasks[t]);
      GotoKeepsInv(s1, t, pc.(results := pc.results[1..]));
    }
  }

  lemma {:induction false} StepKeepsInv(s: State, step: Step)
    requires Inv(s) && Enabled(s, step)
    ensures Inv(Apply(s, step))
  {
    match step
    case Register(url) => RegisterKeepsInv(s, TargetOf(url));
    case Cancel(f) => CancelKeepsInv(s, f);
    case LoopCleanup(t) =>
      CleanupKeepsInv(s);
      GotoKeepsInv(CleanupStaleJobs(s), t, Check);
    case LoopCheck(t, snapshot) => CheckKeepsInv(s, t, snapshot);
    case LoopGroup(t, size) =>
      assert PcOk(s.futures, s.tasks[t]);
      AllChunksOk(s.tasks[t].snapshot, s.futures, size);
      GotoKeepsInv(s, t, Request(AllChunks(s.tasks[t].snapshot, s.futures, size)));
    case LoopResponse(t, results) => ResponseKeepsInv(s, t, results);
    case LoopResult(t) => ResultKeepsInv(s, t);
    case LoopTransient(t) => GotoKeepsInv(s, t, Sleeping);
    case LoopError(t) => GotoKeepsInv(s, t, Failing);
    case LoopFailAll(t) =>
      FailAllKeepsFutures(s);
      ExitKeepsInv(FailAllJobs(s), t);
    case LoopWake(t) => GotoKeepsInv(s, t, Cleanup);
    case LoopFinish(t) =>
  }

  lemma {:induction false} RunKeepsInv(s: State, steps: seq<Step>)
    requires Inv(s) && IsRun(s, steps)
    ensures Inv(After(s, steps))
    decreases |steps|
  {
    if steps != [] {
      StepKeepsInv(s, steps[0]);
      RunKeepsInv(Apply(s, steps[0]), steps[1..]);
    }
  }

  // --- What holds over every run -------------------------------------------

  // Every target in sight was derived from its URL.
  predicate Named(s: State) {
    forall f :: 0 <= f < |s.futures| ==> s.futures[f].target == TargetOf(s.futures[f].target.url)
  }

  // Futures keep their job, and one that is done never changes again.
  predicate Evolves(futures: seq<Future>, futures': seq<Future>) {
    && Grows(futures, futures')
    && (forall f :: 0 <= f < |futures| && !futures[f].outcome.Pending? ==> futures'[f] == futures[f])
  }

  lemma {:induction false} StepEvolves(s: State, step: Step)
    requires Enabled(s, step)
    ensures Evolves(s.futures, Apply(s, step).futures)
  {
  }

  lemma StepKeepsNames(s: State, step: Step)
    requires Enabled(s, step) && Named(s)
    ensures Named(Apply(s, step))
  {
    var s' := Apply(s, step);
    StepEvolves(s, step);
    forall f | 0 <= f < |s'.futures| ensures s'.futures[f].target == TargetOf(s'.futures[f].target.url) {
      if f < |s.futures| {
        assert s'.futures[f].target == s.futures[f].target;
      } else {
        assert step.Register? && s'.futures[f] == Future(TargetOf(step.url), Pending, 0);
      }
    }
  }

  lemma {:induction false} RunEvolves(s: State, steps: seq<Step>)
    requires IsRun(s, steps)
    ensures Evolves(s.futures, After(s, steps).futures)
    ensures Named(s) ==> Named(After(s, steps))
    decreases |steps|
  {
    if steps != [] {
      StepEvolves(s, steps[0]);
      if Named(s) {
        StepKeepsNames(s, steps[0]);
      }
      RunEvolves(Apply(s, steps[0]), steps[1..]);
    }
  }

  ghost predicate RunsTo(steps: seq<Step>, s: State) {
    IsRun(INITIAL, steps) && After(INITIAL, steps) == s
  }

  ghost predicate Reachable(s: State) {
    exists steps :: RunsTo(steps, s)
  }

  lemma {:induction false} ReachableKeepsInv(s: State)
    requires Reachable(s)
    ensures Inv(s) && Named(s)
  {
    var steps :| RunsTo(steps, s);
    RunKeepsInv(INITIAL, steps);
    RunEvolves(INITIAL, steps);
  }

  lemma SameKeySameId(u: string, v: string)
    requires JobKey(u) == JobKey(v)
    ensures NumericId(u) == NumericId(v)
  {
    KeyEndsInId(u);
    KeyEndsInId(v);
  }

  // The fate of every future register_job ever hands out: while it is not done
  // it is the one tracked under its key; it is settled at most once; a result
  // it holds is a terminal status of the job it was registered for.
  lemma {:induction false} FateOfReturnedFuture(s: State, url: string, steps: seq<Step>)
    requires Reachable(s) && IsRun(RegisterJob(s, url), steps)
    ensures var f, end, key := RegisteredFuture(s, TargetOf(url)), After(RegisterJob(s, url), steps), JobKey(url);
            && f < |end.futures|
            && (end.futures[f].outcome.Pending? ==> key in end.jobs && end.jobs[key].future == f)
            && end.futures[f].settles == (if end.futures[f].outcome.Pending? then 0 else 1)
            && (end.futures[f].outcome.Resolved? ==>
                  end.futures[f].outcome.job.id == NumericId(url)
                  && end.futures[f].outcome.job.status in TERMINAL)
  {
    ReachableKeepsInv(s);
    StepKeepsNames(s, Register(url));
    FateOfTarget(s, TargetOf(url), steps);
    var s1 := RegisterJob(s, url);
    RunEvolves(s1, steps);
    var end := After(s1, steps);
    var f := RegisteredFuture(s, TargetOf(url));
    SameKeySameId(end.futures[f].target.url, url);
  }

  lemma {:induction false} FateOfTarget(s: State, target: Target, steps: seq<Step>)
    requires Inv(s) && IsRun(RegisterTarget(s, target), steps)
    ensures var f, end := RegisteredFuture(s, target), After(RegisterTarget(s, target), steps);
            && f < |end.futures| && FutureOk(end.futures[f])
            && end.futures[f].target.key == target.key
            && (end.futures[f].outcome.Pending? ==> target.key in end.jobs && end.jobs[target.key].future == f)
  {
    var s1, f := RegisterTarget(s, target), RegisteredFuture(s, target);
    RegisterKeepsInv(s, target);
    RunKeepsInv(s1, steps);
    RunEvolves(s1, steps);
    assert s1.futures[f].target.key == target.key by {
      if target.key in s.jobs {
        assert EntryOk(s.futures, target.key, s.jobs[target.key]);
      }
    }
  }

  // --- When a dead future is handed out --------------------------------------

  predicate LiveOrCancelled(s: State, key: string)
    requires key in s.jobs
  {
    var f := s.jobs[key].future;
    f < |s.futures| && (s.futures[f].outcome.Pending? || s.futures[f].outcome.Cancelled?)
  }

  // No tracked future ever holds a result or an exception.
  predicate TrackedLive(s: State) {
    forall k :: k in s.jobs ==> LiveOrCancelled(s, k)
  }

  lemma ResultKeepsTrackedLive(s: State, chunk: Chunk, job: JobData)
    requires Inv(s) && TrackedLive(s) && ListingOk(s.futures, chunk.jobs)
    ensures TrackedLive(ProcessResult(s, chunk, job))
  {
    match FindById(chunk.jobs, job.id)
    case None =>
    case Some((key, e)) =>
      assert (key, e) in chunk.jobs;
      if job.status in TERMINAL && key in s.jobs && IsPending(s.futures, e.future) {
        SnapshotEntryStillTracked(s, key, e);
        var s' := ProcessPollResult(s, key, e, job);
        forall k | k in s'.jobs ensures LiveOrCancelled(s', k) {
          assert LiveOrCancelled(s, k) && EntryOk(s.futures, k, s.jobs[k]);
        }
      }
  }

  lemma {:induction false} StepKeepsTrackedLive(s: State, step: Step)
    requires Inv(s) && TrackedLive(s) && Enabled(s, step)
    ensures TrackedLive(Apply(s, step))
  {
    var s' := Apply(s, step);
    if step.LoopResult? {
      var pc := s.tasks[step.task];
      assert PcOk(s.futures, pc);
      if pc.results != [] {
        ResultKeepsTrackedLive(s, pc.chunk, pc.results[0]);
        var s1 := ProcessResult(s, pc.chunk, pc.results[0]);
        assert s'.jobs == s1.jobs && s'.futures == s1.futures;
      }
    }
    forall k | k in s'.jobs ensures LiveOrCancelled(s', k) {
      if k in s.jobs {
        assert LiveOrCancelled(s, k) && EntryOk(s.futures, k, s.jobs[k]);
      }
    }
  }

  // The future under the key was cancelled, and the entry is still there.
  predicate IsDead(s: State, key: string) {
    key in s.jobs && s.jobs[key].future < |s.futures| && s.futures[s.jobs[key].future].outcome.Cancelled?
  }

  predicate Cleans(step: Step) {
    step.LoopCleanup? || step.LoopFailAll?
  }

  predicate CancelsTracked(s: State, step: Step, key: string) {
    step.Cancel? && key in s.jobs && s.jobs[key].future == step.future
  }

  lemma {:induction false} StepOnDead(s: State, step: Step, key: string)
    requires Inv(s) && Enabled(s, step)
    ensures IsDead(Apply(s, step), key) <==> !Cleans(step) && (IsDead(s, key) || CancelsTracked(s, step, key))
  {
    if step.LoopResult? {
      ResultOnDead(s, step.task, key);
    } else if step.Register? {
      RegisterOnDead(s, TargetOf(step.url), key);
    }
  }

  lemma RegisterOnDead(s: State, target: Target, key: string)
    requires Inv(s)
    ensures IsDead(RegisterTarget(s, target), key) <==> IsDead(s, key)
  {
    if key in s.jobs {
      assert EntryOk(s.futures, key, s.jobs[key]);
    }
  }

  lemma {:induction false} ResultOnDead(s: State, t: nat, key: string)
    requires Inv(s) && Enabled(s, LoopResult(t))
    ensures IsDead(Apply(s, LoopResult(t)), key) <==> IsDead(s, key)
  {
    var pc := s.tasks[t];
    assert PcOk(s.futures, pc);
    if pc.results != [] {
      var found := FindById(pc.chunk.jobs, pc.results[0].id);
      if found.Some? {
        var (k, e) := found.value;
        assert (k, e) in pc.chunk.jobs && EntryOk(s.futures, k, e);
        if IsPending(s.futures, e.future) {
          SnapshotEntryStillTracked(s, k, e);
        }
        if key in s.jobs {
          assert EntryOk(s.futures, key, s.jobs[key]);
        }
      }
    }
  }

  // The state before step p of a run, or at its end.
  ghost function StateAt(s: State, steps: seq<Step>, p: nat): State
    requires IsRun(s, steps) && p <= |steps|
    ensures p == |steps| ==> StateAt(s, steps, p) == After(s, steps)
    decreases |steps|
  {
    if p == 0 then s else StateAt(Apply(s, steps[0]), steps[1..], p - 1)
  }

  // Step p cancels the future tracked under the key, and no cleanup follows.
  ghost predicate CancelledAt(s: State, steps: seq<Step>, p: nat, key: string)
    requires IsRun(s, steps) && p < |steps|
  {
    CancelsTracked(StateAt(s, steps, p), steps[p], key) && forall q :: p < q < |steps| ==> !Cleans(steps[q])
  }

  lemma {:induction false} DeadOverRun(s: State, steps: seq<Step>, key: string)
    requires Inv(s) && IsRun(s, steps)
    ensures IsDead(After(s, steps), key) <==>
            || (IsDead(s, key) && forall q :: 0 <= q < |steps| ==> !Cleans(steps[q]))
            || exists p :: 0 <= p < |steps| && CancelledAt(s, steps, p, key)
    decreases |steps|
  {
    if steps != [] {
      var s1, rest := Apply(s, steps[0]), steps[1..];
      StepKeepsInv(s, steps[0]);
      StepOnDead(s, steps[0], key);
      DeadOverRun(s1, rest, key);
      assert forall q :: 0 < q < |steps| ==> steps[q] == rest[q - 1];
      CancelledLater(s, steps, key);
    }
  }

  lemma {:induction false} CancelledLater(s: State, steps: seq<Step>, key: string)
    requires IsRun(s, steps) && steps != []
    ensures (exists p :: 0 <= p < |steps| && CancelledAt(s, steps, p, key)) <==>
            || CancelledAt(s, steps, 0, key)
            || exists p :: 0 <= p < |steps| - 1 && CancelledAt(Apply(s, steps[0]), steps[1..], p, key)
  {
    var s1, rest := Apply(s, steps[0]), steps[1..];
    forall p | 0 < p < |steps| ensures CancelledAt(s, steps, p, key) <==> CancelledAt(s1, rest, p - 1, key) {
      assert StateAt(s, steps, p) == StateAt(s1, rest, p - 1) && steps[p] == rest[p - 1];
      assert (forall q :: p < q < |steps| ==> !Cleans(steps[q])) <==>
             (forall q :: p - 1 < q < |rest| ==> !Cleans(rest[q])) by {
        assert forall q :: 0 <= q < |rest| ==> rest[q] == steps[q + 1];
        assert forall q :: 0 < q < |steps| ==> steps[q] == rest[q - 1];
      }
    }
    if p :| 0 <= p < |steps| - 1 && CancelledAt(s1, rest, p, key) {
      var later := p + 1;
      assert CancelledAt(s, steps, later, key);
    }
    if p :| 0 < p < |steps| && CancelledAt(s, steps, p, key) {
      var before := p - 1;
      assert CancelledAt(s1, rest, before, key);
    }
  }

  lemma {:induction false} RunKeepsTrackedLive(s: State, steps: seq<Step>)
    requires Inv(s) && TrackedLive(s) && IsRun(s, steps)
    ensures TrackedLive(After(s, steps))
    decreases |steps|
  {
    if steps != [] {
      StepKeepsInv(s, steps[0]);
      StepKeepsTrackedLive(s, steps[0]);
      RunKeepsTrackedLive(Apply(s, steps[0]), steps[1..]);
    }
  }

  // After every run: the future handed out is live, unless the run cancelled
  // the one tracked under the key and neither a cleanup nor a failing loop has
  // come since. It is never one that holds a result or an exception.
  lemma {:induction false} ReturnedFutureIsLive(steps: seq<Step>, s: State, target: Target)
    requires RunsTo(steps, s)
    ensures var f, futures := RegisteredFuture(s, target), RegisterTarget(s, target).futures;
            && f < |futures| && (futures[f].outcome.Pending? || futures[f].outcome.Cancelled?)
            && (futures[f].outcome.Cancelled? <==>
                  exists p :: 0 <= p < |steps| && CancelledAt(INITIAL, steps, p, target.key))
  {
    RunKeepsTrackedLive(INITIAL, steps);
    DeadOverRun(INITIAL, steps, target.key);
    if target.key in s.jobs {
      assert LiveOrCancelled(s, target.key);
    }
  }

  // Registering a cancelled job again before the next cleanup yields the
  // cancelled future.
  lemma CancelledFutureIsReused(url: string)
    ensures exists s :: Reachable(s) && IsStale(RegisterJob(s, url).futures, RegisteredFuture(s, TargetOf(url)))
  {
    var steps := [Register(url), Cancel(0)];
    var s1 := RegisterJob(INITIAL, url);
    var s2 := Apply(s1, Cancel(0));
    assert steps[1..] == [Cancel(0)] && steps[1..][1..] == [];
    assert IsRun(s2, []) && After(s2, []) == s2;
    assert IsRun(s1, [Cancel(0)]) && After(s1, [Cancel(0)]) == s2;
    assert RunsTo(steps, s2);
    assert Reachable(s2);
  }

  predicate MonitorRunning(s: State) {
    s.monitor.Some? && s.monitor.value < |s.tasks| && !s.tasks[s.monitor.value].Finished?
  }

  predicate Healthy(s: State) {
    s.jobs != map[] ==> MonitorRunning(s)
  }

  // is_healthy in every reachable state; there are never two loops that can
  // still poll, and exactly one while jobs are tracked.
  lemma ExactlyOneMonitor(s: State)
    requires Reachable(s)
    ensures Healthy(s)
    ensures forall t, u :: 0 <= t < |s.tasks| && 0 <= u < |s.tasks| && CanPoll(s.tasks[t]) && CanPoll(s.tasks[u]) ==> t == u
    ensures s.jobs != map[] ==> exists t :: 0 <= t < |s.tasks| && CanPoll(s.tasks[t])
    ensures (exists t :: 0 <= t < |s.tasks| && CanPoll(s.tasks[t])) <==> MonitorRunning(s)
  {
    ReachableKeepsInv(s);
    if s.monitor.Some? {
      assert CanPoll(s.tasks[s.monitor.value]);
    }
  }
}
