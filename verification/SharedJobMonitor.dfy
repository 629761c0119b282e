/**
 The monitor object itself. Each method is one locked block or one stretch of
 code between waits; its postcondition says it takes the step of the same name.
 */
module SharedJobMonitorClass {
  import opened Wrappers
  import opened JobUrls
  import opened JobMonitor
  import opened PollCycle
  import opened Sequences

  class SharedJobMonitor {
    var jobs: map<string, Entry>
    var futures: seq<Future>
    var monitor: Option<nat>
    var tasks: seq<Pc>
    var total: nat
    var starts: nat
    // Every page request sent, in order.
    var requests: seq<(bool, seq<string>)>

    function State(): State
      reads this
    {
      JobMonitor.State(jobs, futures, monitor, tasks, total, starts)
    }

    constructor ()
      ensures State() == INITIAL && requests == []
    {
      jobs, futures, monitor, tasks, total, starts, requests := map[], [], None, [], 0, 0, [];
    }

    method Register(url: string) returns (future: nat)
      modifies this
      ensures State() == RegisterJob(old(State()), url)
      ensures future == RegisteredFuture(old(State()), TargetOf(url))
      ensures requests == old(requests)
    {
      var target := TargetOf(url);
      if target.key in jobs {
        return jobs[target.key].future;
      }
      future := |futures|;
      futures := futures + [Future(target, Pending, 0)];
      jobs := jobs[target.key := Entry(target, future)];
      total := total + 1;
      var stopped := monitor.None? || (monitor.value < |tasks| && tasks[monitor.value].Finished?);
      if stopped {
        starts := starts + 1;
        monitor := Some(|tasks|);
        tasks := tasks + [Cleanup];
      }
    }

    // list(self._jobs.items())
    method Snapshot() returns (snapshot: Listing)
      ensures Lists(snapshot, jobs)
    {
      snapshot := [];
      var todo := jobs.Keys;
      while todo != {}
        invariant todo <= jobs.Keys
        invariant forall i :: 0 <= i < |snapshot| ==>
          snapshot[i].0 in jobs && snapshot[i].0 !in todo && jobs[snapshot[i].0] == snapshot[i].1
        invariant forall i, j :: 0 <= i < j < |snapshot| ==> snapshot[i].0 != snapshot[j].0
        invariant forall k :: k in jobs && k !in todo ==> exists i :: 0 <= i < |snapshot| && snapshot[i].0 == k
        decreases todo
      {
        var k :| k in todo;
        ghost var before := snapshot;
        snapshot := snapshot + [(k, jobs[k])];
        todo := todo - {k};
        forall l | l in jobs && l !in todo ensures exists i :: 0 <= i < |snapshot| && snapshot[i].0 == l {
          if l == k {
            assert snapshot[|before|].0 == l;
          } else {
            var i :| 0 <= i < |before| && before[i].0 == l;
            assert snapshot[i].0 == l;
          }
        }
      }
    }

    // _cleanup_stale_jobs
    method CleanupStale()
      modifies this`jobs
      ensures State() == CleanupStaleJobs(old(State()))
    {
      var stale := set k | k in jobs && IsStale(futures, jobs[k].future);
      ghost var all := stale;
      while stale != {}
        invariant stale <= all
        invariant jobs == old(jobs) - (all - stale)
        decreases stale
      {
        var k :| k in stale;
        jobs := jobs - {k};
        stale := stale - {k};
      }
    }

    // _fail_all_jobs
    method FailAll()
      requires forall k :: k in jobs ==> jobs[k].future < |futures|
      modifies this`jobs, this`futures, this`monitor
      ensures State() == FailAllJobs(old(State()))
      ensures old(Inv(State())) ==>
              jobs == map[] && monitor == None && |futures| == |old(futures)|
              && forall f :: 0 <= f < |futures| ==>
                   futures[f].outcome == if old(futures)[f].outcome == Pending then Errored else old(futures)[f].outcome
    {
      if Inv(State()) {
        FailAllFails(State());
      }
      FailFutures();
      jobs := map[];
      monitor := None;
    }

    // Its loop.
    method FailFutures()
      requires forall k :: k in jobs ==> jobs[k].future < |futures|
      modifies this`futures
      ensures futures == FailTracked(jobs, old(futures))
    {
      var todo := jobs.Keys;
      ghost var before := futures;
      while todo != {}
        invariant todo <= jobs.Keys && jobs == old(jobs)
        invariant |futures| == |before|
        invariant futures == FailTracked(jobs - todo, before)
        decreases todo
      {
        var k :| k in todo;
        var f := jobs[k].future;
        FailOneMore(jobs, todo, k, before);
        if futures[f].outcome.Pending? {
          futures := Settle(futures, f, Errored);
        }
        todo := todo - {k};
      }
      assert jobs - todo == jobs;
    }

    method ProcessResultOf(key: string, info: Entry, job: JobData) returns (processed: nat)
      modifies this`jobs, this`futures
      ensures State() == ProcessPollResult(old(State()), key, info, job)
      ensures processed == 1 <==> job.status !in TERMINAL || (key in old(jobs) && IsPending(old(futures), info.future))
    {
      if job.status !in TERMINAL {
        return 1;
      }
      if key in jobs && IsPending(futures, info.future) {
        futures := Settle(futures, info.future, Resolved(job));
        jobs := jobs - {key};
        return 1;
      }
      return 0;
    }

    // _poll_job_chunk, with the page the controller serves.
    method PollJobChunk(chunk: Chunk, serve: Serve)
      modifies this`jobs, this`futures, this`requests
      ensures State() == PollChunk(old(State()), chunk, serve)
      ensures requests == old(requests) + [(chunk.workflow, Ids(chunk.jobs))]
    {
      var ids: seq<string> := [];
      var idToJob: map<string, (string, Entry)> := map[];
      for i := 0 to |chunk.jobs|
        invariant ids == Ids(chunk.jobs[..i])
        invariant forall id :: id in idToJob <==> FindById(chunk.jobs[..i], id).Some?
        invariant forall id :: id in idToJob ==> FindById(chunk.jobs[..i], id) == Some(idToJob[id])
      {
        var id := chunk.jobs[i].1.target.numericId;
        ids := ids + [id];
        idToJob := idToJob[id := chunk.jobs[i]];
        assert chunk.jobs[..i + 1] == chunk.jobs[..i] + [chunk.jobs[i]];
        assert chunk.jobs[..i + 1][..i] == chunk.jobs[..i];
      }
      assert chunk.jobs[..|chunk.jobs|] == chunk.jobs;
      requests := requests + [(chunk.workflow, ids)];
      var results := serve(chunk.workflow, ids);
      ghost var before := State();
      for i := 0 to |results|
        invariant State() == ProcessAll(before, chunk, results[..i])
        invariant requests == old(requests) + [(chunk.workflow, ids)]
      {
        assert results[..i + 1][..i] == results[..i];
        if results[i].id in idToJob {
          var (key, info) := idToJob[results[i].id];
          var _ := ProcessResultOf(key, info, results[i]);
        }
      }
      assert results[..|results|] == results;
    }

    // The slices of _batch_poll_jobs.
    static method MakeChunks(jobs: Listing, size: nat) returns (chunks: seq<Listing>)
      requires size >= 1
      ensures chunks == ChunksOf(jobs, size)
    {
      chunks := [];
      var i := 0;
      while i < |jobs|
        invariant 0 <= i
        invariant chunks + ChunksOf(Tail(jobs, i), size) == ChunksOf(jobs, size)
      {
        var end := if i + size <= |jobs| then i + size else |jobs|;
        ChunksStep(jobs, size, i);
        chunks := chunks + [jobs[i..end]];
        i := i + size;
      }
    }

    method BatchPollJobs(jobs: Listing, workflow: bool, size: nat, serve: Serve)
      requires size >= 1
      modifies this`jobs, this`futures, this`requests
      ensures State() == PollChunks(old(State()), TypedChunks(workflow, ChunksOf(jobs, size)), serve)
      ensures requests == old(requests) + RequestsFor(TypedChunks(workflow, ChunksOf(jobs, size)))
    {
      if jobs == [] {
        return;
      }
      var lists := MakeChunks(jobs, size);
      var chunks := TypedChunks(workflow, lists);
      PollEachChunk(chunks, serve);
    }

    method PollEachChunk(chunks: seq<Chunk>, serve: Serve)
      modifies this`jobs, this`futures, this`requests
      ensures State() == PollChunks(old(State()), chunks, serve)
      ensures requests == old(requests) + RequestsFor(chunks)
    {
      for i := 0 to |chunks|
        invariant State() == PollChunks(old(State()), chunks[..i], serve)
        invariant requests == old(requests) + RequestsFor(chunks[..i])
      {
        assert chunks[..i + 1][..i] == chunks[..i];
        PollJobChunk(chunks[i], serve);
      }
      assert chunks[..|chunks|] == chunks;
    }

    // The grouping of _poll_all_jobs: undone jobs by type.
    method GroupJobs(snapshot: Listing) returns (regular: Listing, workflow: Listing)
      ensures regular == OfType(snapshot, futures, false)
      ensures workflow == OfType(snapshot, futures, true)
    {
      regular, workflow := [], [];
      for i := 0 to |snapshot|
        invariant regular + OfType(snapshot[i..], futures, false) == OfType(snapshot, futures, false)
        invariant workflow + OfType(snapshot[i..], futures, true) == OfType(snapshot, futures, true)
      {
        var (key, info) := snapshot[i];
        assert snapshot[i..][1..] == snapshot[i + 1..];
        if !(info.future < |futures| && !futures[info.future].outcome.Pending?) {
          if info.target.workflow {
            workflow := workflow + [(key, info)];
          } else {
            regular := regular + [(key, info)];
          }
        }
      }
    }

    // _poll_all_jobs
    method PollAllJobs(snapshot: Listing, size: nat, serve: Serve)
      requires size >= 1
      modifies this`jobs, this`futures, this`requests
      ensures State() == PollAll(old(State()), snapshot, size, serve)
      ensures requests == old(requests) + RequestsFor(AllChunks(snapshot, old(futures), size))
      ensures old(Reachable(State())) && Lists(snapshot, old(jobs)) ==>
              |old(requests)| <= |requests| && AsksByUrl(old(State()), requests[|old(requests)|..])
    {
      ghost var before := State();
      if Reachable(before) && Lists(snapshot, jobs) {
        RequestsByUrl(before, snapshot, size);
      }
      var regular, workflow := GroupJobs(snapshot);
      PollAllByType(State(), snapshot, size, serve);
      BatchPollJobs(regular, false, size, serve);
      BatchPollJobs(workflow, true, size, serve);
      Associates(old(requests), RequestsFor(TypedChunks(false, ChunksOf(regular, size))),
                 RequestsFor(TypedChunks(true, ChunksOf(workflow, size))));
    }

    method IsHealthy() returns (healthy: bool)
      ensures healthy == Healthy(State())
      ensures Reachable(State()) ==> healthy
    {
      if Reachable(State()) {
        ExactlyOneMonitor(State());
      }
      var hasJobs := |jobs| > 0;
      var running := monitor.Some? && monitor.value < |tasks| && !tasks[monitor.value].Finished?;
      healthy := !(hasJobs && !running);
    }
  }

  lemma TrackedOneMore(jobs: map<string, Entry>, todo: set<string>, k: string)
    requires k in todo && todo <= jobs.Keys
    ensures TrackedFutures(jobs - (todo - {k})) == TrackedFutures(jobs - todo) + {jobs[k].future}
  {
    var was, now := jobs - todo, jobs - (todo - {k});
    assert k in now;
    assert forall l :: l in was ==> l in now;
    assert forall l :: l in now ==> l == k || l in was;
  }

  lemma FailOneMore(jobs: map<string, Entry>, todo: set<string>, k: string, before: seq<Future>)
    requires k in todo && todo <= jobs.Keys && jobs[k].future < |before|
    ensures var futures, f := FailTracked(jobs - todo, before), jobs[k].future;
            FailTracked(jobs - (todo - {k}), before)
            == if futures[f].outcome.Pending? then Settle(futures, f, Errored) else futures
  {
    TrackedOneMore(jobs, todo, k);
  }

  ghost function Tail<T>(xs: seq<T>, i: nat): seq<T> {
    if i <= |xs| then xs[i..] else []
  }

  lemma ChunksStep<T>(xs: seq<T>, size: nat, i: nat)
    requires size >= 1 && i < |xs|
    ensures var end := if i + size <= |xs| then i + size else |xs|;
            ChunksOf(xs[i..], size) == [xs[i..end]] + ChunksOf(Tail(xs, i + size), size)
  {
    var rest := xs[i..];
    if |rest| <= size {
      assert xs[i..|xs|] == rest;
      assert Tail(xs, i + size) == [];
    } else {
      assert rest[..size] == xs[i..i + size] && rest[size..] == xs[i + size..];
    }
  }

  function RequestsFor(chunks: seq<Chunk>): (r: seq<(bool, seq<string>)>)
    ensures |r| == |chunks|
  {
    if chunks == [] then []
    else
      var last := chunks[|chunks| - 1];
      RequestsFor(chunks[..|chunks| - 1]) + [(last.workflow, Ids(last.jobs))]
  }

  lemma {:induction false} RequestsAppend(a: seq<Chunk>, b: seq<Chunk>)
    ensures RequestsFor(a + b) == RequestsFor(a) + RequestsFor(b)
    decreases |b|
  {
    if b == [] {
      assert a + b == a;
    } else {
      RequestsAppend(a, b[..|b| - 1]);
      assert (a + b)[..|a + b| - 1] == a + b[..|b| - 1];
    }
  }

  lemma {:induction false} PollChunksAppend(s: State, a: seq<Chunk>, b: seq<Chunk>, serve: Serve)
    ensures PollChunks(s, a + b, serve) == PollChunks(PollChunks(s, a, serve), b, serve)
    decreases |b|
  {
    if b == [] {
      assert a + b == a;
    } else {
      PollChunksAppend(s, a, b[..|b| - 1], serve);
      assert (a + b)[..|a + b| - 1] == a + b[..|b| - 1];
    }
  }

  // A cycle polls the regular jobs, then the workflow jobs.
  lemma PollAllByType(s: State, snapshot: Listing, size: nat, serve: Serve)
    requires size >= 1
    ensures var a, b := TypedChunks(false, ChunksOf(OfType(snapshot, s.futures, false), size)),
                        TypedChunks(true, ChunksOf(OfType(snapshot, s.futures, true), size));
            && PollAll(s, snapshot, size, serve) == PollChunks(PollChunks(s, a, serve), b, serve)
            && RequestsFor(AllChunks(snapshot, s.futures, size)) == RequestsFor(a) + RequestsFor(b)
  {
    var a := TypedChunks(false, ChunksOf(OfType(snapshot, s.futures, false), size));
    var b := TypedChunks(true, ChunksOf(OfType(snapshot, s.futures, true), size));
    PollChunksAppend(s, a, b, serve);
    RequestsAppend(a, b);
  }

  // The requests ask for the id of every undone job under the type its URL
  // names, and for nothing else.
  ghost predicate AsksByUrl(s: State, sent: seq<(bool, seq<string>)>) {
    && (forall key :: key in s.jobs && IsPending(s.futures, s.jobs[key].future) ==>
          exists r :: r in sent && Asks(r, s.jobs[key].target.url))
    && (forall r, id :: r in sent && id in r.1 ==>
          exists key :: key in s.jobs && IsPending(s.futures, s.jobs[key].future)
                        && id == NumericId(s.jobs[key].target.url) && Asks(r, s.jobs[key].target.url))
  }

  ghost predicate Asks(request: (bool, seq<string>), url: string) {
    NumericId(url) in request.1 && (request.0 <==> MentionsWorkflow(url))
  }

  lemma {:induction false} RequestsByUrl(s: State, snapshot: Listing, size: nat)
    requires Reachable(s) && Lists(snapshot, s.jobs) && size >= 1
    ensures AsksByUrl(s, RequestsFor(AllChunks(snapshot, s.futures, size)))
  {
    ReachableKeepsInv(s);
    var chunks := AllChunks(snapshot, s.futures, size);
    RequestMembers(chunks);
    forall key | key in s.jobs && IsPending(s.futures, s.jobs[key].future)
      ensures exists r :: r in RequestsFor(chunks) && Asks(r, s.jobs[key].target.url)
    {
      var c := ChunkWith(s, snapshot, size, key);
      TypedByUrl(s, key);
      assert (c.workflow, Ids(c.jobs)) in RequestsFor(chunks);
    }
    forall r, id | r in RequestsFor(chunks) && id in r.1
      ensures exists key :: key in s.jobs && IsPending(s.futures, s.jobs[key].future)
                            && id == NumericId(s.jobs[key].target.url) && Asks(r, s.jobs[key].target.url)
    {
      var c :| c in chunks && r == (c.workflow, Ids(c.jobs));
      var key := JobOfRequest(s, snapshot, size, c, id);
      TypedByUrl(s, key);
    }
  }

  lemma {:induction false} RequestMembers(chunks: seq<Chunk>)
    ensures forall c :: c in chunks ==> (c.workflow, Ids(c.jobs)) in RequestsFor(chunks)
    ensures forall r :: r in RequestsFor(chunks) ==> exists c :: c in chunks && r == (c.workflow, Ids(c.jobs))
  {
    if chunks != [] {
      var n := |chunks| - 1;
      RequestMembers(chunks[..n]);
      assert chunks == chunks[..n] + [chunks[n]];
      forall r | r in RequestsFor(chunks) ensures exists c :: c in chunks && r == (c.workflow, Ids(c.jobs)) {
        if r in RequestsFor(chunks[..n]) {
          var c :| c in chunks[..n] && r == (c.workflow, Ids(c.jobs));
          assert c in chunks;
        } else {
          assert chunks[n] in chunks;
        }
      }
    }
  }

  lemma {:induction false} InFlatten<T>(xss: seq<seq<T>>, x: T) returns (xs: seq<T>)
    requires x in Flatten(xss)
    ensures xs in xss && x in xs
  {
    if x in xss[0] {
      xs := xss[0];
    } else {
      xs := InFlatten(xss[1..], x);
    }
  }

  lemma {:induction false} ChunkWith(s: State, snapshot: Listing, size: nat, key: string) returns (c: Chunk)
    requires Inv(s) && Lists(snapshot, s.jobs) && size >= 1
    requires key in s.jobs && IsPending(s.futures, s.jobs[key].future)
    ensures c in AllChunks(snapshot, s.futures, size) && c.workflow == s.jobs[key].target.workflow
    ensures s.jobs[key].target.numericId in Ids(c.jobs)
  {
    var w, x := s.jobs[key].target.workflow, (key, s.jobs[key]);
    var i :| 0 <= i < |snapshot| && snapshot[i].0 == key;
    assert snapshot[i] == x;
    var jobs := OfType(snapshot, s.futures, w);
    OfTypeMembers(snapshot, s.futures, w);
    ChunksCover(jobs, size);
    var xs := InFlatten(ChunksOf(jobs, size), x);
    var k :| 0 <= k < |ChunksOf(jobs, size)| && ChunksOf(jobs, size)[k] == xs;
    c := Chunk(w, xs);
    assert TypedChunks(w, ChunksOf(jobs, size))[k] == c;
    var j :| 0 <= j < |xs| && xs[j] == x;
    assert Ids(xs)[j] == s.jobs[key].target.numericId;
  }

  lemma {:induction false} JobOfRequest(s: State, snapshot: Listing, size: nat, c: Chunk, id: string)
    returns (key: string)
    requires Inv(s) && Lists(snapshot, s.jobs) && size >= 1
    requires c in AllChunks(snapshot, s.futures, size) && id in Ids(c.jobs)
    ensures key in s.jobs && IsPending(s.futures, s.jobs[key].future)
    ensures id == s.jobs[key].target.numericId && c.workflow == s.jobs[key].target.workflow
  {
    var jobs := OfType(snapshot, s.futures, c.workflow);
    OfTypeMembers(snapshot, s.futures, c.workflow);
    ChunkMembers(jobs, size);
    assert c.jobs in ChunksOf(jobs, size);
    var j :| 0 <= j < |c.jobs| && Ids(c.jobs)[j] == id;
    var x := c.jobs[j];
    assert x in c.jobs && x in snapshot;
    key := x.0;
    assert EntryOk(s.futures, key, s.jobs[key]);
  }
}
