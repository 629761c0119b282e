/**
 One poll cycle without faults or interference: asking for all jobs in batches
 settles exactly what asking for each job alone would settle.
 */
module PollCycle {
  import opened Wrappers
  import opened JobUrls
  import opened JobMonitor

  // What the controller knows: the job with a number, of a type.
  type Answers = (bool, string) -> Option<JobData>

  // One page request: the results for a list of ids.
  type Serve = (bool, seq<string>) -> seq<JobData>

  function Ids(jobs: Listing): (ids: seq<string>)
    ensures |ids| == |jobs|
    ensures forall i :: 0 <= i < |ids| ==> ids[i] == jobs[i].1.target.numericId
  {
    seq(|jobs|, i requires 0 <= i < |jobs| => jobs[i].1.target.numericId)
  }

  // The page holds the jobs asked for that exist, and nothing else.
  ghost predicate FaithfulPage(page: seq<JobData>, workflow: bool, ids: seq<string>, answer: Answers) {
    && (forall job :: job in page ==> job.id in ids && answer(workflow, job.id) == Some(job))
    && (forall id :: id in ids && answer(workflow, id).Some? ==> answer(workflow, id).value in page)
  }

  ghost predicate Faithful(serve: Serve, answer: Answers) {
    && (forall workflow: bool, id: string :: answer(workflow, id).Some? ==> answer(workflow, id).value.id == id)
    && (forall workflow: bool, ids: seq<string> :: FaithfulPage(serve(workflow, ids), workflow, ids, answer))
  }

  // --- What the batched code does ------------------------------------------

  function ProcessAll(s: State, chunk: Chunk, results: seq<JobData>): State {
    if results == [] then s
    else ProcessResult(ProcessAll(s, chunk, results[..|results| - 1]), chunk, results[|results| - 1])
  }

  function PollChunk(s: State, chunk: Chunk, serve: Serve): State {
    ProcessAll(s, chunk, serve(chunk.workflow, Ids(chunk.jobs)))
  }

  function PollChunks(s: State, chunks: seq<Chunk>, serve: Serve): State {
    if chunks == [] then s
    else PollChunk(PollChunks(s, chunks[..|chunks| - 1], serve), chunks[|chunks| - 1], serve)
  }

  // --- What polling each job alone does ------------------------------------

  // The outcome of asking for one job only.
  function AloneOutcome(f: Future, answer: Answers): Outcome {
    var job := answer(f.target.workflow, f.target.numericId);
    if f.outcome.Pending? && job.Some? && job.value.status in TERMINAL then Resolved(job.value) else f.outcome
  }

  function PolledAlone(f: Future, answer: Answers): Future {
    var outcome := AloneOutcome(f, answer);
    if outcome == f.outcome then f else f.(outcome := outcome, settles := f.settles + 1)
  }

  // The state after each of the jobs in `keys` was asked for alone.
  function PollAlone(s: State, keys: set<string>, answer: Answers): State {
    s.(futures := seq(|s.futures|, f requires 0 <= f < |s.futures| =>
         if s.futures[f].target.key in keys then PolledAlone(s.futures[f], answer) else s.futures[f]),
       jobs := map k | k in s.jobs
                       && !(k in keys && s.jobs[k].future < |s.futures|
                            && PolledAlone(s.futures[s.jobs[k].future], answer) != s.futures[s.jobs[k].future])
                     :: s.jobs[k])
  }

  // --- The batched cycle refines it ----------------------------------------

  ghost predicate ChunkOk(s: State, chunk: Chunk) {
    && ListingOk(s.futures, chunk.jobs)
    && (forall x :: x in chunk.jobs ==> x.1.target.workflow == chunk.workflow && x.0 in s.jobs && s.jobs[x.0] == x.1)
  }

  // Settling a tracked job with the controller's answer is asking for it alone.
  lemma SettleAlone(s: State, keys: set<string>, key: string, e: Entry, job: JobData, answer: Answers)
    requires Inv(s) && key in s.jobs && s.jobs[key] == e
    requires answer(e.target.workflow, e.target.numericId) == Some(job)
    ensures ProcessPollResult(PollAlone(s, keys, answer), key, e, job) == PollAlone(s, keys + {key}, answer)
  {
    assert EntryOk(s.futures, key, e);
    var mid := PollAlone(s, keys, answer);
    var end := ProcessPollResult(mid, key, e, job);
    var goal := PollAlone(s, keys + {key}, answer);
    forall f | 0 <= f < |s.futures| && f != e.future ensures end.futures[f] == goal.futures[f] {
    }
    assert end.futures[e.future] == goal.futures[e.future];
    assert end.futures == goal.futures;
    assert end.jobs == goal.jobs;
  }

  // Processing one honest result is asking for that one job alone.
  lemma OneResult(s: State, keys: set<string>, chunk: Chunk, job: JobData, answer: Answers) returns (key: string)
    requires Inv(s) && ChunkOk(s, chunk)
    requires job.id in Ids(chunk.jobs) && answer(chunk.workflow, job.id) == Some(job)
    ensures key in s.jobs && FindById(chunk.jobs, job.id).Some? && FindById(chunk.jobs, job.id).value.0 == key
    ensures ProcessResult(PollAlone(s, keys, answer), chunk, job) == PollAlone(s, keys + {key}, answer)
  {
    var i :| 0 <= i < |chunk.jobs| && Ids(chunk.jobs)[i] == job.id;
    assert chunk.jobs[i] in chunk.jobs;
    var (k, e) := FindById(chunk.jobs, job.id).value;
    key := k;
    assert (key, e) in chunk.jobs;
    SettleAlone(s, keys, key, e, job, answer);
  }

  function FoundKeys(chunk: Chunk, results: seq<JobData>): (keys: set<string>)
    ensures forall job :: job in results && FindById(chunk.jobs, job.id).Some? ==>
      FindById(chunk.jobs, job.id).value.0 in keys
    ensures forall k :: k in keys ==> exists x :: x in chunk.jobs && x.0 == k
  {
    if results == [] then {}
    else
      var front, found := results[..|results| - 1], FindById(chunk.jobs, results[|results| - 1].id);
      assert results == front + [results[|results| - 1]];
      FoundKeys(chunk, front) + if found.Some? then {found.value.0} else {}
  }

  lemma {:induction false} FoundLast(chunk: Chunk, results: seq<JobData>, keys: set<string>, key: string)
    requires results != []
    requires FindById(chunk.jobs, results[|results| - 1].id).Some?
    requires FindById(chunk.jobs, results[|results| - 1].id).value.0 == key
    ensures keys + FoundKeys(chunk, results) == keys + FoundKeys(chunk, results[..|results| - 1]) + {key}
  {
  }

  // The page holds answers to what was asked, and nothing else.
  ghost predicate Honest(chunk: Chunk, results: seq<JobData>, answer: Answers) {
    forall job :: job in results ==> job.id in Ids(chunk.jobs) && answer(chunk.workflow, job.id) == Some(job)
  }

  lemma {:induction false} AllResults(s: State, keys: set<string>, chunk: Chunk, results: seq<JobData>, answer: Answers)
    requires Inv(s) && ChunkOk(s, chunk) && Honest(chunk, results, answer)
    ensures ProcessAll(PollAlone(s, keys, answer), chunk, results)
            == PollAlone(s, keys + FoundKeys(chunk, results), answer)
  {
    if results == [] {
      assert keys + FoundKeys(chunk, results) == keys;
    } else {
      var front, last := results[..|results| - 1], results[|results| - 1];
      assert last in results && forall job :: job in front ==> job in results;
      AllResults(s, keys, chunk, front, answer);
      var key := OneResult(s, keys + FoundKeys(chunk, front), chunk, last, answer);
      FoundLast(chunk, results, keys, key);
    }
  }

  // A job without a terminal answer is not changed by being asked for.
  lemma IrrelevantKeys(s: State, keys: set<string>, more: set<string>, answer: Answers)
    requires EntriesOk(s) && PendingTracked(s) && keys <= more
    requires forall k :: k in more && k !in keys && k in s.jobs ==>
      PolledAlone(s.futures[s.jobs[k].future], answer) == s.futures[s.jobs[k].future]
    ensures PollAlone(s, keys, answer) == PollAlone(s, more, answer)
  {
    var a, b := PollAlone(s, keys, answer), PollAlone(s, more, answer);
    forall f | 0 <= f < |s.futures| ensures a.futures[f] == b.futures[f] {
      var k := s.futures[f].target.key;
      if k in more && k !in keys && s.futures[f].outcome.Pending? {
        assert k in s.jobs && s.jobs[k].future == f;
      }
    }
    assert a.futures == b.futures;
    assert a.jobs == b.jobs;
  }

  ghost function Keys(jobs: Listing): set<string> {
    set x | x in jobs :: x.0
  }

  // Within a type the number identifies the job; KeyInjective shows that
  // well-formed URLs have this property.
  predicate DistinctIds(s: State) {
    forall k, l ::
      (k in s.jobs && l in s.jobs
       && s.jobs[k].target.workflow == s.jobs[l].target.workflow
       && s.jobs[k].target.numericId == s.jobs[l].target.numericId) ==> k == l
  }

  // A chunk answered by an honest page.
  lemma OneChunk(s: State, keys: set<string>, chunk: Chunk, serve: Serve, answer: Answers)
    requires Inv(s) && ChunkOk(s, chunk) && Faithful(serve, answer) && DistinctIds(s)
    ensures PollChunk(PollAlone(s, keys, answer), chunk, serve) == PollAlone(s, keys + Keys(chunk.jobs), answer)
  {
    var ids := Ids(chunk.jobs);
    var results := serve(chunk.workflow, ids);
    assert FaithfulPage(results, chunk.workflow, ids, answer);
    AllResults(s, keys, chunk, results, answer);
    var found, all := FoundKeys(chunk, results), Keys(chunk.jobs);
    assert found <= all;
    forall k | k in keys + all && k !in keys + found && k in s.jobs
      ensures PolledAlone(s.futures[s.jobs[k].future], answer) == s.futures[s.jobs[k].future]
    {
      var x :| x in chunk.jobs && x.0 == k;
      if answer(chunk.workflow, x.1.target.numericId).Some? {
        AnsweredIsFound(s, chunk, x, serve, answer);
      }
    }
    IrrelevantKeys(s, keys + found, keys + all, answer);
  }

  // A job of the chunk that the controller knows is found by its id.
  lemma AnsweredIsFound(s: State, chunk: Chunk, x: (string, Entry), serve: Serve, answer: Answers)
    requires Inv(s) && ChunkOk(s, chunk) && Faithful(serve, answer) && DistinctIds(s)
    requires x in chunk.jobs && answer(chunk.workflow, x.1.target.numericId).Some?
    ensures x.0 in FoundKeys(chunk, serve(chunk.workflow, Ids(chunk.jobs)))
  {
    var id, ids := x.1.target.numericId, Ids(chunk.jobs);
    var i :| 0 <= i < |chunk.jobs| && chunk.jobs[i] == x;
    assert ids[i] == id;
    assert FaithfulPage(serve(chunk.workflow, ids), chunk.workflow, ids, answer);
    var job := answer(chunk.workflow, id).value;
    assert job in serve(chunk.workflow, ids) && job.id == id;
    var y := FindById(chunk.jobs, id).value;
    assert y in chunk.jobs && y.0 == x.0;
  }

  ghost function AllKeys(chunks: seq<Chunk>): set<string> {
    if chunks == [] then {} else AllKeys(chunks[..|chunks| - 1]) + Keys(chunks[|chunks| - 1].jobs)
  }

  lemma {:induction false} EveryChunk(s: State, chunks: seq<Chunk>, serve: Serve, answer: Answers)
    requires Inv(s) && Faithful(serve, answer) && DistinctIds(s)
    requires forall c :: c in chunks ==> ChunkOk(s, c)
    ensures PollChunks(s, chunks, serve) == PollAlone(s, AllKeys(chunks), answer)
  {
    if chunks == [] {
      var alone := PollAlone(s, {}, answer);
      assert alone.futures == s.futures && alone.jobs == s.jobs;
    } else {
      var front, last := chunks[..|chunks| - 1], chunks[|chunks| - 1];
      assert forall c :: c in front ==> c in chunks;
      assert last in chunks;
      EveryChunk(s, front, serve, answer);
      OneChunk(s, AllKeys(front), last, serve, answer);
    }
  }

  // --- The chunks ----------------------------------------------------------

  function Flatten<T>(xss: seq<seq<T>>): seq<T> {
    if xss == [] then [] else xss[0] + Flatten(xss[1..])
  }

  // The chunks, one after the other, are the list.
  lemma {:induction false} ChunksCover<T>(xs: seq<T>, size: nat)
    requires size >= 1
    ensures Flatten(ChunksOf(xs, size)) == xs
  {
    if xs == [] {
    } else if |xs| <= size {
      assert Flatten([xs]) == xs + Flatten([]);
    } else {
      ChunksCover(xs[size..], size);
      var rest := ChunksOf(xs[size..], size);
      assert ([xs[..size]] + rest)[1..] == rest;
      assert xs == xs[..size] + xs[size..];
    }
  }

  // There are as few as possible: one request less could not hold the jobs.
  lemma {:induction false} FewestChunks<T>(xs: seq<T>, size: nat)
    requires size >= 1
    ensures var n := |ChunksOf(xs, size)|;
            if xs == [] then n == 0 else n >= 1 && (n - 1) * size < |xs| <= n * size
  {
    if |xs| > size {
      FewestChunks(xs[size..], size);
      var n := |ChunksOf(xs[size..], size)|;
      assert |ChunksOf(xs, size)| == n + 1;
      assert (n - 1) * size + size == n * size && n * size + size == (n + 1) * size;
    }
  }

  predicate DistinctKeys(l: Listing) {
    forall i, j :: 0 <= i < j < |l| ==> l[i].0 != l[j].0
  }

  lemma {:induction false} OfTypeDistinct(snapshot: Listing, futures: seq<Future>, workflow: bool)
    requires DistinctKeys(snapshot)
    ensures DistinctKeys(OfType(snapshot, futures, workflow))
  {
    if snapshot != [] {
      OfTypeDistinct(snapshot[1..], futures, workflow);
      OfTypeMembers(snapshot[1..], futures, workflow);
      var rest := OfType(snapshot[1..], futures, workflow);
      forall j | 0 <= j < |rest| ensures rest[j].0 != snapshot[0].0 {
        assert rest[j] in rest && rest[j] in snapshot[1..];
        var i :| 0 <= i < |snapshot[1..]| && snapshot[1..][i] == rest[j];
        assert snapshot[i + 1] == rest[j];
      }
      var l := OfType(snapshot, futures, workflow);
      assert l == rest || l == [snapshot[0]] + rest;
      forall i, j | 0 <= i < j < |l| ensures l[i].0 != l[j].0 {
        if l != rest {
          assert l[j] == rest[j - 1] && l[0] == snapshot[0] && (i > 0 ==> l[i] == rest[i - 1]);
        }
      }
    }
  }

  // Every job whose future is not done is asked for exactly once per cycle,
  // and with the type its URL names.
  lemma AskedExactlyOnce(s: State, snapshot: Listing, size: nat, key: string)
    requires Inv(s) && Named(s) && Lists(snapshot, s.jobs) && size >= 1
    requires key in s.jobs && IsPending(s.futures, s.jobs[key].future)
    ensures var w, x := MentionsWorkflow(s.jobs[key].target.url), (key, s.jobs[key]);
            && multiset(Flatten(ChunksOf(OfType(snapshot, s.futures, w), size)))[x] == 1
            && x !in Flatten(ChunksOf(OfType(snapshot, s.futures, !w), size))
  {
    var w, x := s.jobs[key].target.workflow, (key, s.jobs[key]);
    TypedByUrl(s, key);
    ChunksCover(OfType(snapshot, s.futures, w), size);
    ChunksCover(OfType(snapshot, s.futures, !w), size);
    OncePerType(s, snapshot, key);
  }

  // What is tracked about a job is what its URL says.
  lemma TypedByUrl(s: State, key: string)
    requires Inv(s) && Named(s) && key in s.jobs
    ensures var target := s.jobs[key].target;
            && target.key == key == JobKey(target.url) && target.numericId == NumericId(target.url)
            && (target.workflow <==> MentionsWorkflow(target.url))
  {
    assert EntryOk(s.futures, key, s.jobs[key]);
    WorkflowUrls(s.jobs[key].target.url);
  }

  lemma OncePerType(s: State, snapshot: Listing, key: string)
    requires Inv(s) && Lists(snapshot, s.jobs)
    requires key in s.jobs && IsPending(s.futures, s.jobs[key].future)
    ensures var w, x := s.jobs[key].target.workflow, (key, s.jobs[key]);
            multiset(OfType(snapshot, s.futures, w))[x] == 1 && x !in OfType(snapshot, s.futures, !w)
  {
    var w, x := s.jobs[key].target.workflow, (key, s.jobs[key]);
    var i :| 0 <= i < |snapshot| && snapshot[i].0 == key;
    assert snapshot[i] == x;
    OfTypeMembers(snapshot, s.futures, w);
    OfTypeMembers(snapshot, s.futures, !w);
    OfTypeDistinct(snapshot, s.futures, w);
    OnceInDistinct(OfType(snapshot, s.futures, w), x);
  }

  lemma OnceInDistinct(l: Listing, x: (string, Entry))
    requires x in l && DistinctKeys(l)
    ensures multiset(l)[x] == 1
  {
    var i :| 0 <= i < |l| && l[i] == x;
    assert l == l[..i] + [x] + l[i + 1..];
    assert x !in l[..i] && x !in l[i + 1..];
  }

  lemma {:induction false} KeysOfChunks(workflow: bool, xs: Listing, size: nat)
    requires size >= 1
    ensures AllKeys(TypedChunks(workflow, ChunksOf(xs, size))) == Keys(xs)
  {
    ChunksCover(xs, size);
    KeysOfTyped(workflow, ChunksOf(xs, size));
  }

  lemma {:induction false} KeysOfTyped(workflow: bool, xss: seq<Listing>)
    ensures AllKeys(TypedChunks(workflow, xss)) == Keys(Flatten(xss))
    decreases |xss|
  {
    if xss != [] {
      var n := |xss| - 1;
      KeysOfTyped(workflow, xss[..n]);
      FlattenSnoc(xss[..n], xss[n]);
      assert xss == xss[..n] + [xss[n]];
      assert TypedChunks(workflow, xss)[..n] == TypedChunks(workflow, xss[..n]);
    }
  }

  lemma {:induction false} FlattenSnoc<T>(xss: seq<seq<T>>, xs: seq<T>)
    ensures Flatten(xss + [xs]) == Flatten(xss) + xs
  {
    if xss == [] {
      assert Flatten([] + [xs]) == xs + Flatten(([] + [xs])[1..]);
    } else {
      FlattenSnoc(xss[1..], xs);
      assert (xss + [xs])[1..] == xss[1..] + [xs];
    }
  }

  lemma {:induction false} AllKeysAppend(a: seq<Chunk>, b: seq<Chunk>)
    ensures AllKeys(a + b) == AllKeys(a) + AllKeys(b)
    decreases |b|
  {
    if b == [] {
      assert a + b == a;
    } else {
      var n := |b| - 1;
      AllKeysAppend(a, b[..n]);
      assert (a + b)[..|a + b| - 1] == a + b[..n];
    }
  }

  // --- The refinement ------------------------------------------------------

  function PollAll(s: State, snapshot: Listing, size: nat, serve: Serve): State
    requires size >= 1
  {
    PollChunks(s, AllChunks(snapshot, s.futures, size), serve)
  }

  lemma {:induction false} WellFormedIdsDistinct(s: State)
    requires Inv(s) && Named(s)
    requires forall k :: k in s.jobs ==> WellFormed(s.jobs[k].target.url)
    ensures DistinctIds(s)
  {
    forall k, l | k in s.jobs && l in s.jobs
      ensures (s.jobs[k].target.workflow == s.jobs[l].target.workflow
               && s.jobs[k].target.numericId == s.jobs[l].target.numericId) ==> k == l
    {
      assert EntryOk(s.futures, k, s.jobs[k]) && EntryOk(s.futures, l, s.jobs[l]);
      KeyInjective(s.jobs[k].target.url, s.jobs[l].target.url);
    }
  }

  lemma {:induction false} SnapshotChunksOk(s: State, snapshot: Listing, size: nat)
    requires Inv(s) && Lists(snapshot, s.jobs) && size >= 1
    ensures forall c :: c in AllChunks(snapshot, s.futures, size) ==> ChunkOk(s, c)
  {
    assert forall x :: x in snapshot ==> x.0 in s.jobs && s.jobs[x.0] == x.1;
    AllChunksOk(snapshot, s.futures, size);
    forall c | c in AllChunks(snapshot, s.futures, size) ensures ChunkOk(s, c) {
      OfTypeMembers(snapshot, s.futures, c.workflow);
      ChunkMembers(OfType(snapshot, s.futures, c.workflow), size);
      assert c.jobs in ChunksOf(OfType(snapshot, s.futures, c.workflow), size);
    }
  }

  // From every reachable state, whatever the batch size, a poll cycle against
  // an honest controller leaves the state that asking for every tracked job
  // alone would leave.
  lemma {:induction false} BatchRefinesAlone(s: State, snapshot: Listing, size: nat, serve: Serve, answer: Answers)
    requires Reachable(s) && Lists(snapshot, s.jobs) && size >= 1 && Faithful(serve, answer)
    requires forall k :: k in s.jobs ==> WellFormed(s.jobs[k].target.url)
    ensures PollAll(s, snapshot, size, serve) == PollAlone(s, s.jobs.Keys, answer)
  {
    ReachableKeepsInv(s);
    WellFormedIdsDistinct(s);
    var chunks := AllChunks(snapshot, s.futures, size);
    SnapshotChunksOk(s, snapshot, size);
    EveryChunk(s, chunks, serve, answer);
    CoveredKeys(s, snapshot, size);
    forall k | k in s.jobs.Keys && k !in AllKeys(chunks)
      ensures PolledAlone(s.futures[s.jobs[k].future], answer) == s.futures[s.jobs[k].future]
    {
      assert EntryOk(s.futures, k, s.jobs[k]);
    }
    IrrelevantKeys(s, AllKeys(chunks), s.jobs.Keys, answer);
  }

  // The chunks ask for every tracked job that is not done, and only for
  // tracked jobs.
  lemma {:induction false} CoveredKeys(s: State, snapshot: Listing, size: nat)
    requires Inv(s) && Lists(snapshot, s.jobs) && size >= 1
    ensures AllKeys(AllChunks(snapshot, s.futures, size)) <= s.jobs.Keys
    ensures forall k :: k in s.jobs && IsPending(s.futures, s.jobs[k].future) ==>
      k in AllKeys(AllChunks(snapshot, s.futures, size))
  {
    var regular, workflow := OfType(snapshot, s.futures, false), OfType(snapshot, s.futures, true);
    AllKeysAppend(TypedChunks(false, ChunksOf(regular, size)), TypedChunks(true, ChunksOf(workflow, size)));
    KeysOfChunks(false, regular, size);
    KeysOfChunks(true, workflow, size);
    OfTypeMembers(snapshot, s.futures, false);
    OfTypeMembers(snapshot, s.futures, true);
    assert forall x :: x in snapshot ==> x.0 in s.jobs;
    forall k | k in s.jobs && IsPending(s.futures, s.jobs[k].future)
      ensures k in Keys(regular) + Keys(workflow)
    {
      var i :| 0 <= i < |snapshot| && snapshot[i].0 == k;
      assert snapshot[i] in (if s.jobs[k].target.workflow then workflow else regular);
    }
  }

  // A job with this future and this answer is settled and dropped from the
  // table if and only if it was pending and the answer is a terminal status.
  predicate Settled(s: State, s': State, key: string, f: nat, job: Option<JobData>) {
    && f < |s.futures| == |s'.futures|
    && (key !in s'.jobs <==>
          s.futures[f].outcome.Pending? && job.Some?
          && job.value.status in {"successful", "failed", "error", "canceled"})
    && (key !in s'.jobs ==> s'.futures[f].outcome == Resolved(job.value))
    && (key in s'.jobs ==> s'.futures[f] == s.futures[f])
  }

  // Read off for one job: the controller is asked about the type and number its
  // URL names, and the answer settles it.
  lemma {:induction false} SettledExactly(s: State, snapshot: Listing, size: nat, serve: Serve, answer: Answers, key: string)
    requires Reachable(s) && Lists(snapshot, s.jobs) && size >= 1 && Faithful(serve, answer)
    requires forall k :: k in s.jobs ==> WellFormed(s.jobs[k].target.url)
    requires key in s.jobs
    ensures var e := s.jobs[key];
            Settled(s, PollAll(s, snapshot, size, serve), key, e.future,
                    answer(MentionsWorkflow(e.target.url), NumericId(e.target.url)))
  {
    ReachableKeepsInv(s);
    BatchRefinesAlone(s, snapshot, size, serve, answer);
    TypedByUrl(s, key);
    AloneSettles(s, answer, key);
  }

  lemma {:induction false} AloneSettles(s: State, answer: Answers, key: string)
    requires Inv(s) && key in s.jobs
    ensures var e := s.jobs[key];
            Settled(s, PollAlone(s, s.jobs.Keys, answer), key, e.future,
                    answer(e.target.workflow, e.target.numericId))
  {
    assert EntryOk(s.futures, key, s.jobs[key]);
  }
}
