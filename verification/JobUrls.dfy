/**
 Job URLs of the controller and the key the shared monitor derives from them.
 A URL that ends in `jobs/<n>` or `workflow_jobs/<n>` is called well formed; on
 those the key is as good as the pair (type, number).
 */
module JobUrls {
  import opened Strings

  const SLASH: char := '/'
  const JOBS := "jobs"
  const WORKFLOW_JOBS := "workflow_jobs"

  function StripSlashes(url: string): (r: string)
    ensures |r| <= |url| && r == url[..|r|]
    ensures r == "" || r[|r| - 1] != SLASH
    ensures forall i :: |r| <= i < |url| ==> url[i] == SLASH
  {
    if url == "" || url[|url| - 1] != SLASH then url else StripSlashes(url[..|url| - 1])
  }

  function LastTwo(parts: seq<string>): (r: seq<string>)
    requires |parts| >= 1
    ensures |r| >= 1
  {
    if |parts| <= 2 then parts else parts[|parts| - 2..]
  }

  function JobKey(url: string): string {
    Join(LastTwo(Split(StripSlashes(url), SLASH)), SLASH)
  }

  function NumericId(url: string): string {
    var parts := Split(StripSlashes(url), SLASH);
    parts[|parts| - 1]
  }

  predicate OccursAt(s: string, sub: string, i: nat) {
    i + |sub| <= |s| && s[i..i + |sub|] == sub
  }

  predicate Contains(s: string, sub: string) {
    exists i :: 0 <= i <= |s| && OccursAt(s, sub, i)
  }

  predicate IsWorkflow(url: string) {
    Contains(url, WORKFLOW_JOBS)
  }

  ghost predicate MentionsWorkflow(url: string) {
    exists before, after :: url == before + "workflow_jobs" + after
  }

  lemma WorkflowUrls(url: string)
    ensures IsWorkflow(url) <==> MentionsWorkflow(url)
  {
    if IsWorkflow(url) {
      var i :| 0 <= i <= |url| && OccursAt(url, WORKFLOW_JOBS, i);
      assert url == url[..i] + "workflow_jobs" + url[i + |WORKFLOW_JOBS|..];
    }
    if MentionsWorkflow(url) {
      var before, after :| url == before + "workflow_jobs" + after;
      assert OccursAt(url, WORKFLOW_JOBS, |before|);
    }
  }

  // A word without slashes occurs on one side of a slash or on the other.
  lemma OccursAside(a: string, b: string, sub: string)
    requires SLASH !in sub && Contains(a + [SLASH] + b, sub)
    ensures Contains(a, sub) || Contains(b, sub)
  {
    var s := a + [SLASH] + b;
    var i :| 0 <= i <= |s| && OccursAt(s, sub, i);
    forall k | i <= k < i + |sub| ensures s[k] != SLASH {
      assert s[k] == sub[k - i] && sub[k - i] in sub;
    }
    assert s[|a|] == SLASH;
    if i + |sub| <= |a| {
      assert a[i..i + |sub|] == s[i..i + |sub|];
      assert OccursAt(a, sub, i);
    } else if sub != "" {
      var j := i - |a| - 1;
      assert b[j..j + |sub|] == s[i..i + |sub|];
      assert OccursAt(b, sub, j);
    } else {
      assert OccursAt(a, sub, 0);
    }
  }

  lemma NoWorkflowInSlashes(slashes: string)
    requires forall c :: c in slashes ==> c == SLASH
    ensures !Contains(slashes, WORKFLOW_JOBS)
  {
    assert WORKFLOW_JOBS[0] == 'w';
    forall i | 0 <= i <= |slashes| ensures !OccursAt(slashes, WORKFLOW_JOBS, i) {
      if i + |WORKFLOW_JOBS| <= |slashes| {
        assert slashes[i] in slashes;
        assert slashes[i..i + |WORKFLOW_JOBS|][0] == slashes[i];
      }
    }
  }

  lemma {:induction false} NotInSlashed(n: string, slashes: string)
    requires !Contains(n, WORKFLOW_JOBS) && forall c :: c in slashes ==> c == SLASH
    ensures !Contains(n + slashes, WORKFLOW_JOBS)
  {
    if slashes == "" {
      assert n + slashes == n;
    } else {
      assert slashes[0] in slashes && forall c :: c in slashes[1..] ==> c in slashes;
      assert n + slashes == n + [SLASH] + slashes[1..];
      NoWorkflowInSlashes(slashes[1..]);
      if Contains(n + slashes, WORKFLOW_JOBS) {
        OccursAside(n, slashes[1..], WORKFLOW_JOBS);
      }
    }
  }

  lemma NotInPlainUrl(prefix: string, n: string, slashes: string)
    requires !Contains(prefix, WORKFLOW_JOBS) && !Contains(n, WORKFLOW_JOBS)
    requires forall c :: c in slashes ==> c == SLASH
    ensures !Contains(prefix + [SLASH] + (JOBS + [SLASH] + (n + slashes)), WORKFLOW_JOBS)
  {
    NotInSlashed(n, slashes);
    assert !Contains(JOBS, WORKFLOW_JOBS);
    if Contains(JOBS + [SLASH] + (n + slashes), WORKFLOW_JOBS) {
      OccursAside(JOBS, n + slashes, WORKFLOW_JOBS);
    }
    if Contains(prefix + [SLASH] + (JOBS + [SLASH] + (n + slashes)), WORKFLOW_JOBS) {
      OccursAside(prefix, JOBS + [SLASH] + (n + slashes), WORKFLOW_JOBS);
    }
  }

  // A documented URL is a workflow job's exactly when it says so.
  lemma TypeOfDocumentedUrl(prefix: string, kind: string, n: string, slashes: string)
    requires kind == "jobs" || kind == "workflow_jobs"
    requires !MentionsWorkflow(prefix) && !MentionsWorkflow(n)
    requires forall c :: c in slashes ==> c == SLASH
    ensures IsWorkflow(prefix + "/" + kind + "/" + n + slashes) <==> kind == "workflow_jobs"
  {
    var url := prefix + "/" + kind + "/" + n + slashes;
    if kind == "workflow_jobs" {
      WorkflowUrls(url);
      assert url == (prefix + "/") + "workflow_jobs" + ("/" + n + slashes);
    } else {
      WorkflowUrls(prefix);
      WorkflowUrls(n);
      NotInPlainUrl(prefix, n, slashes);
      assert url == prefix + [SLASH] + (JOBS + [SLASH] + (n + slashes));
    }
  }

  // The URL ends in jobs/<n> or workflow_jobs/<n>, and nothing else in it
  // mentions workflow jobs.
  predicate WellFormed(url: string) {
    var parts := Split(StripSlashes(url), SLASH);
    && |parts| >= 2
    && parts[|parts| - 2] == (if IsWorkflow(url) then WORKFLOW_JOBS else JOBS)
  }

  // The key of a two-segment tail splits back into its two segments.
  lemma {:induction false} KeyOfTwo(kind: string, n: string)
    requires SLASH !in kind && SLASH !in n
    ensures Split(Join([kind, n], SLASH), SLASH) == [kind, n]
  {
    assert [kind, n][1..] == [n];
    assert Join([kind, n], SLASH) == kind + [SLASH] + n;
    SplitAppend(kind, n, SLASH);
    SplitSegment(kind, SLASH);
    SplitSegment(n, SLASH);
  }

  // What a key says about the URL it came from.
  lemma {:induction false} KeyOfWellFormed(url: string)
    requires WellFormed(url)
    ensures Split(JobKey(url), SLASH) == [if IsWorkflow(url) then WORKFLOW_JOBS else JOBS, NumericId(url)]
  {
    var parts := Split(StripSlashes(url), SLASH);
    var kind, n := parts[|parts| - 2], parts[|parts| - 1];
    assert LastTwo(parts) == [kind, n];
    KeyOfTwo(kind, n);
  }

  // Whatever the URL looks like, its key ends in its number.
  lemma {:induction false} KeyEndsInId(url: string)
    ensures var key := Split(JobKey(url), SLASH); key[|key| - 1] == NumericId(url)
  {
    var parts := Split(StripSlashes(url), SLASH);
    if |parts| == 1 {
      SplitSegment(parts[0], SLASH);
    } else {
      var kind, n := parts[|parts| - 2], parts[|parts| - 1];
      assert LastTwo(parts) == [kind, n];
      KeyOfTwo(kind, n);
    }
  }

  // /jobs/123 and /workflow_jobs/123 are tracked apart, and within one type
  // the number identifies the job.
  lemma {:induction false} KeyInjective(u: string, v: string)
    requires WellFormed(u) && WellFormed(v)
    ensures JobKey(u) == JobKey(v) <==> IsWorkflow(u) == IsWorkflow(v) && NumericId(u) == NumericId(v)
  {
    KeyOfWellFormed(u);
    KeyOfWellFormed(v);
    if IsWorkflow(u) == IsWorkflow(v) && NumericId(u) == NumericId(v) {
      SplitInjective(JobKey(u), JobKey(v), SLASH);
    }
  }

  lemma {:induction false} StripAppended(a: string, slashes: string)
    requires a != "" && a[|a| - 1] != SLASH
    requires forall c :: c in slashes ==> c == SLASH
    ensures StripSlashes(a + slashes) == a
  {
    var s := a + slashes;
    if slashes == "" {
      assert s == a;
    } else {
      var shorter := slashes[..|slashes| - 1];
      assert forall c :: c in shorter ==> c in slashes;
      assert slashes[|slashes| - 1] in slashes;
      assert s[..|s| - 1] == a + shorter;
      StripAppended(a, shorter);
    }
  }

  // The documented form of a job URL, with or without trailing slashes, gets
  // the documented key.
  lemma {:induction false} KeyOfDocumentedUrl(prefix: string, kind: string, n: string, slashes: string)
    requires SLASH !in kind && SLASH !in n && n != ""
    requires forall c :: c in slashes ==> c == SLASH
    ensures var url := prefix + [SLASH] + kind + [SLASH] + n + slashes;
            JobKey(url) == kind + [SLASH] + n && NumericId(url) == n
  {
    var head := prefix + [SLASH] + kind;
    var core := head + [SLASH] + n;
    assert n[|n| - 1] in n;
    assert core[|core| - 1] == n[|n| - 1];
    StripAppended(core, slashes);
    SplitAppend(head, n, SLASH);
    SplitAppend(prefix, kind, SLASH);
    SplitSegment(kind, SLASH);
    SplitSegment(n, SLASH);
    var parts := Split(core, SLASH);
    assert prefix + [SLASH] + kind + [SLASH] + n + slashes == core + slashes;
    assert parts == Split(prefix, SLASH) + [kind] + [n];
    assert LastTwo(parts) == [kind, n];
    assert [kind, n][1..] == [n];
    assert Join([kind, n], SLASH) == kind + [SLASH] + n;
    assert StripSlashes(prefix + [SLASH] + kind + [SLASH] + n + slashes) == core;
  }
}
