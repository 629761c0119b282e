/**
 The retry loop of run_job_template. The ghost field `state` is the machine of
 JobTemplate; the loop is proved to be a run of it.
 */
module JobTemplateAction {
  import opened Wrappers
  import opened Sequences
  import opened ActionStore
  import opened JobTemplate

  // The URL of the i-th launch of this life, or None when launching raises.
  type Launches = nat -> Option<Url>

  // The terminal status of a job, or None when monitoring it raises.
  type Statuses = Url -> Option<string>

  ghost predicate LaunchedBefore(launch: Launches, i: nat, url: Url) {
    exists j: nat :: j < i && launch(j) == Some(url)
  }

  // Every launch gives a URL not used before.
  ghost predicate FreshUrls(launch: Launches, used: set<Url>) {
    forall i: nat :: launch(i).Some? ==>
      launch(i).value != "" && launch(i).value !in used && !LaunchedBefore(launch, i, launch(i).value)
  }

  ghost function UsedUrls(s: State, found: Option<Url>): set<Url> {
    (set u | u in s.launched) + s.failed + UrlSet(found) + UrlSet(UrlIn(s.apriori))
  }

  function UrlSet(url: Option<Url>): set<Url> {
    if url.Some? then {url.value} else {}
  }

  function NewUrl(known: Option<Url>, launched: Option<Url>): seq<Url> {
    if known.None? && launched.Some? then [launched.value] else []
  }

  function TurnUrl(known: Option<Url>, launched: Option<Url>): Option<Url> {
    if known.Some? then known else launched
  }

  function TurnStatus(known: Option<Url>, launched: Option<Url>, finalStatus: Statuses): Option<string> {
    var url := TurnUrl(known, launched);
    if url.Some? then finalStatus(url.value) else None
  }

  // The status the loop returns from turn i on, and the jobs it launches.
  function Retried(i: nat, retries: nat, known: Option<Url>, launch: Launches, finalStatus: Statuses)
    : (Option<string>, seq<Url>)
    requires i <= retries
    decreases retries - i
  {
    var status := TurnStatus(known, launch(i), finalStatus);
    if status != Some(FAILED_JOB) || i == retries then (status, NewUrl(known, launch(i)))
    else
      var rest := Retried(i + 1, retries, None, launch, finalStatus);
      (rest.0, NewUrl(known, launch(i)) + rest.1)
  }

  // The result is a failed job exactly when every turn's job failed; each turn
  // launches at most one job, a turn that resumes one launches none, and every
  // job launched but the last one failed.
  lemma {:induction false} RetriesUntilNotFailed(i: nat, retries: nat, known: Option<Url>, launch: Launches,
                                                 finalStatus: Statuses)
    requires i <= retries
    ensures var (status, urls) := Retried(i, retries, known, launch, finalStatus);
            && (status == Some("failed") <==>
                  TurnStatus(known, launch(i), finalStatus) == Some("failed")
                  && forall j: nat :: i < j <= retries ==> TurnStatus(None, launch(j), finalStatus) == Some("failed"))
            && |urls| + (if known.Some? then 1 else 0) <= retries - i + 1
            && (forall k :: 0 <= k < |urls| - 1 ==> finalStatus(urls[k]) == Some("failed"))
    decreases retries - i
  {
    if i < retries && TurnStatus(known, launch(i), finalStatus) == Some(FAILED_JOB) {
      RetriesUntilNotFailed(i + 1, retries, None, launch, finalStatus);
      assert TurnStatus(None, launch(i + 1), finalStatus) == Some(FAILED_JOB)
             || Retried(i + 1, retries, None, launch, finalStatus).0 != Some(FAILED_JOB);
    }
  }

  // goal is what the loop returns and has launched at its end, seen from the
  // start of turn i.
  ghost predicate Ahead(i: nat, retries: nat, known: Option<Url>, launch: Launches, finalStatus: Statuses,
                        launched: seq<Url>, last: Option<string>, goal: (Option<string>, seq<Url>))
  {
    if i <= retries then
      var rest := Retried(i, retries, known, launch, finalStatus);
      goal == (rest.0, launched + rest.1)
    else goal == (last, launched)
  }

  lemma TurnAhead(i: nat, retries: nat, known: Option<Url>, launch: Launches, finalStatus: Statuses,
                  launched: seq<Url>, last: Option<string>, goal: (Option<string>, seq<Url>))
    requires i <= retries && Ahead(i, retries, known, launch, finalStatus, launched, last, goal)
    ensures var status, after := TurnStatus(known, launch(i), finalStatus), launched + NewUrl(known, launch(i));
            if status != Some(FAILED_JOB) then goal == (status, after)
            else Ahead(i + 1, retries, None, launch, finalStatus, after, status, goal)
  {
    if i < retries {
      Associates(launched, NewUrl(known, launch(i)), Retried(i + 1, retries, None, launch, finalStatus).1);
    }
  }

  class RunJobTemplate {
    const useLabel: bool
    const apriori: Option<Info>
    // The store's record of this action.
    var record: Option<Info>
    ghost var state: State

    ghost predicate Valid()
      reads this
    {
      state.record == record && state.useLabel == useLabel
    }

    // A new life of the action: what _run_action read from and left in the store.
    constructor (ghost before: State, useLabel: bool, stored: Option<Info>)
      requires before.pc.Idle? && before.useLabel == useLabel && before.record == stored
      ensures Valid() && state == Apply(before, StartLife) && apriori == state.apriori
      ensures Inv(before) ==> Inv(state)
    {
      if Inv(before) {
        StepKeepsInv(before, StartLife);
      }
      this.useLabel, apriori := useLabel, stored;
      record := Some(stored.UnwrapOr(STARTED_INFO));
      state := Apply(before, StartLife);
    }

    // Helper.update_action_state
    method UpdateActionState(url: Option<Url>)
      modifies this`record
      ensures record == Noted(old(record), url)
      ensures record == Some((if old(record).Some? then old(record).value else map[])["job_url" := url])
    {
      var saved: Info := if record.Some? then record.value else map[];
      record := Some(saved[JOB_URL := url]);
      assert saved[JOB_URL := url] == saved + map[JOB_URL := url];
    }

    // Helper.get_old_job_url; found is what the label query would return.
    method GetOldJobUrl(found: Option<Url>) returns (url: Option<Url>)
      ensures url == OldJobUrl(apriori, useLabel, found)
      ensures url ==
              if apriori.None? then None
              else if "job_url" in apriori.value && apriori.value["job_url"] !in {None, Some("")}
              then apriori.value["job_url"]
              else if "status" in apriori.value && apriori.value["status"] == Some("started") && useLabel then found
              else None
      ensures Valid() && Inv(state) && state.pc.LookingUp? && state.apriori == apriori && OpenJob(state) ==>
              url == if !Lost(state) then Some(state.launched[|state.launched| - 1])
                     else if useLabel then found
                     else None
    {
      ghost var resuming := Valid() && Inv(state) && state.pc.LookingUp? && state.apriori == apriori;
      if resuming && OpenJob(state) {
        OldJobUrlOfOpenJob(state, found);
      }
      if apriori.None? {
        return None;
      }
      var info := apriori.value;
      if JOB_URL in info && info[JOB_URL].Some? && info[JOB_URL].value != "" {
        return info[JOB_URL];
      }
      if STATUS in info && info[STATUS] == Some(STARTED) && useLabel {
        return found;
      }
      return None;
    }

    ghost predicate On(start: State, steps: seq<Step>)
      reads this
    {
      IsFreeRun(start, steps) && FreeAfter(start, steps) == state
    }

    ghost method Take(step: Step, start: State, steps: seq<Step>) returns (longer: seq<Step>)
      requires Enabled(state, step) && On(start, steps)
      modifies this`state
      ensures longer == steps + [step] && state == Apply(old(state), step) && On(start, longer)
      ensures old(Inv(state)) && Recovers(old(state), step) ==> Inv(state)
    {
      if Inv(state) && Recovers(state, step) {
        StepKeepsInv(state, step);
      }
      longer := steps + [step];
      RunExtends(start, steps, step);
      state := Apply(state, step);
    }

    // The part of a turn up to monitoring: launch and record, unless a job of
    // an earlier life is known. None when launching raises.
    method EnsureJob(i: nat, known: Option<Url>, launched: Option<Url>, ghost start: State, ghost steps: seq<Step>)
      returns (url: Option<Url>, ghost steps': seq<Step>)
      requires Valid() && On(start, steps) && state.pc == Turn(i, known)
      requires known.None? && launched.Some? ==> Enabled(state, Launch(launched.value))
      modifies this`record, this`state
      ensures Valid() && On(start, steps') && state.retries == old(state).retries
      ensures old(Inv(state)) ==> Inv(state)
      ensures url == TurnUrl(known, launched) && state.launched == old(state).launched + NewUrl(known, launched)
      ensures state.pc == if url.Some? then Monitoring(i, url.value) else Done
      ensures state.failed == old(state).failed
    {
      steps', url := steps, known;
      if url.Some? {
        steps' := Take(Keep, start, steps');
      } else {
        url := launched;
        if url.None? {
          steps' := Take(LaunchFails, start, steps');
        } else {
          steps' := Take(Launch(url.value), start, steps');
          UpdateActionState(url);
          steps' := Take(RecordUrl, start, steps');
        }
      }
    }

    // The rest of a turn: wait for the job, and clear the record if it failed.
    method AwaitJob(i: nat, url: Url, status: Option<string>, ghost start: State, ghost steps: seq<Step>)
      returns (ghost steps': seq<Step>)
      requires Valid() && On(start, steps) && state.pc == Monitoring(i, url)
      modifies this`record, this`state
      ensures Valid() && On(start, steps') && state.retries == old(state).retries
      ensures old(Inv(state)) ==> Inv(state)
      ensures state.launched == old(state).launched && state.failed <= old(state).failed + {url}
      ensures status != Some(FAILED_JOB) ==> state.pc.Done?
      ensures status == Some(FAILED_JOB) ==>
        && state.pc == (if i < state.retries then Turn(i + 1, None) else Done)
        && UrlIn(record).None? && (old(Inv(state)) ==> !OpenJob(state))
    {
      if status.None? {
        steps' := Take(MonitorFails, start, steps);
        return;
      }
      steps' := Take(Observe(status.value), start, steps);
      if status.value == FAILED_JOB {
        steps' := ClearUrl(i, url, start, steps');
      }
    }

    // The job failed: the record forgets it.
    method ClearUrl(i: nat, url: Url, ghost start: State, ghost steps: seq<Step>) returns (ghost steps': seq<Step>)
      requires Valid() && On(start, steps) && state.pc == Observed(i, url)
      modifies this`record, this`state
      ensures Valid() && On(start, steps') && state.retries == old(state).retries
      ensures old(Inv(state)) ==> Inv(state)
      ensures state.launched == old(state).launched && state.failed == old(state).failed
      ensures state.pc == (if i < state.retries then Turn(i + 1, None) else Done)
      ensures UrlIn(record).None? && (old(Inv(state)) ==> !OpenJob(state))
    {
      UpdateActionState(None);
      steps' := Take(Clear, start, steps);
    }

    // One turn of the retry loop. last is None when the controller raised.
    method OneTurn(i: nat, known: Option<Url>, launched: Option<Url>, finalStatus: Statuses,
                   ghost start: State, ghost steps: seq<Step>)
      returns (last: Option<string>, ghost steps': seq<Step>)
      requires Valid() && On(start, steps) && state.pc == Turn(i, known)
      requires known.None? && launched.Some? ==> Enabled(state, Launch(launched.value))
      modifies this`record, this`state
      ensures Valid() && On(start, steps') && state.retries == old(state).retries
      ensures old(Inv(state)) ==> Inv(state)
      ensures last != Some(FAILED_JOB) ==> state.pc.Done?
      ensures last == Some(FAILED_JOB) ==>
        && state.pc == (if i < state.retries then Turn(i + 1, None) else Done)
        && UrlIn(record).None? && (old(Inv(state)) ==> !OpenJob(state))
      ensures last == TurnStatus(known, launched, finalStatus)
      ensures state.launched == old(state).launched + NewUrl(known, launched)
      ensures forall u :: u in state.failed ==> u in old(state).failed || Some(u) == TurnUrl(known, launched)
    {
      var url;
      url, steps' := EnsureJob(i, known, launched, start, steps);
      if url.None? {
        return None, steps';
      }
      last := finalStatus(url.value);
      steps' := AwaitJob(i, url.value, last, start, steps');
    }

    // The loop before turn i, seen from its start.
    ghost predicate Turning(i: nat, retries: nat, known: Option<Url>, launch: Launches, last: Option<string>,
                            used: set<Url>, resumes: bool)
      reads this
    {
      && Valid() && state.retries == retries
      && state.pc == (if i <= retries then Turn(i, known) else Done)
      && (resumes ==> Inv(state))
      && (i > 0 ==> last == Some(FAILED_JOB) && UrlIn(record).None? && known.None? && (resumes ==> !OpenJob(state)))
      && (known.Some? ==> known.value in used)
      && forall u :: u in state.launched || u in state.failed ==> u in used || LaunchedBefore(launch, i, u)
    }

    // The loop of _run_with_retries.
    method RetryLoop(retries: nat, known: Option<Url>, launch: Launches, finalStatus: Statuses,
                     ghost used: set<Url>, ghost start: State, ghost steps: seq<Step>)
      returns (last: Option<string>, ghost steps': seq<Step>)
      requires Turning(0, retries, known, launch, None, used, Inv(state)) && On(start, steps)
      requires FreshUrls(launch, used)
      modifies this
      ensures Valid() && state.pc.Done? && On(start, steps')
      ensures old(Inv(state)) ==> Inv(state) && (last == Some(FAILED_JOB) ==> !OpenJob(state))
      ensures last == Some(FAILED_JOB) ==> UrlIn(record).None?
      ensures var (status, urls) := Retried(0, retries, known, launch, finalStatus);
              last == status && state.launched == old(state).launched + urls
    {
      last, steps' := None, steps;
      var url := known;
      ghost var all := Retried(0, retries, known, launch, finalStatus);
      ghost var goal := (all.0, state.launched + all.1);
      for i := 0 to retries + 1
        invariant Ahead(i, retries, url, launch, finalStatus, state.launched, last, goal)
        invariant Turning(i, retries, url, launch, last, used, old(Inv(state))) && On(start, steps')
      {
        TurnAhead(i, retries, url, launch, finalStatus, state.launched, last, goal);
        last, steps' := FreshTurn(i, retries, url, launch, finalStatus, used, old(Inv(state)), start, steps');
        if last != Some(FAILED_JOB) {
          return;
        }
        url := None;
      }
    }

    method FreshTurn(i: nat, retries: nat, known: Option<Url>, launch: Launches, finalStatus: Statuses,
                     ghost used: set<Url>, ghost resumes: bool, ghost start: State, ghost steps: seq<Step>)
      returns (last: Option<string>, ghost steps': seq<Step>)
      requires i <= retries && FreshUrls(launch, used) && On(start, steps)
      requires exists before :: Turning(i, retries, known, launch, before, used, resumes)
      modifies this`record, this`state
      ensures last == TurnStatus(known, launch(i), finalStatus)
      ensures state.launched == old(state).launched + NewUrl(known, launch(i))
      ensures Valid() && On(start, steps') && (resumes ==> Inv(state))
      ensures if last == Some(FAILED_JOB) then Turning(i + 1, retries, None, launch, last, used, resumes)
              else state.pc.Done?
    {
      last, steps' := OneTurn(i, known, launch(i), finalStatus, start, steps);
      if last == Some(FAILED_JOB) {
        forall u | u in state.launched || u in state.failed ensures u in used || LaunchedBefore(launch, i + 1, u) {
          assert u in old(state).launched || u in old(state).failed ==> u in used || LaunchedBefore(launch, i, u);
        }
      }
    }

    // _run_with_retries. The result is the status of the last job monitored, or
    // None when the controller raised.
    method RunWithRetries(retriesArg: int, retry: bool, found: Option<Url>, launch: Launches, finalStatus: Statuses)
      returns (last: Option<string>, ghost steps: seq<Step>)
      requires Valid() && state.pc.LookingUp? && state.apriori == apriori
      requires state.retries == EffectiveRetries(retriesArg, retry)
      requires found != Some("")
      requires FreshUrls(launch, UsedUrls(state, found))
      modifies this
      ensures Valid() && state.pc.Done? && On(old(state), steps)
      ensures old(Inv(state)) && Recovers(old(state), Resolve(found)) ==>
              Inv(state) && (last == Some(FAILED_JOB) ==> !OpenJob(state))
      ensures last == Some(FAILED_JOB) ==> UrlIn(record).None?
      ensures var (status, urls) :=
                Retried(0, EffectiveRetries(retriesArg, retry), OldJobUrl(apriori, useLabel, found), launch, finalStatus);
              last == status && state.launched == old(state).launched + urls
    {
      ghost var start := state;
      ghost var used := UsedUrls(state, found);
      var retries := EffectiveRetries(retriesArg, retry);
      var jobUrl := GetOldJobUrl(found);
      steps := Take(Resolve(found), start, []);
      last, steps := RetryLoop(retries, jobUrl, launch, finalStatus, used, start, steps);
    }
  }
}
