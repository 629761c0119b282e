/**
 One run_job_template action over all the process lives it takes: which jobs it
 launches on the controller, and what it knows about the earlier ones then.
 */
module JobTemplate {
  import opened Wrappers
  import opened Sequences
  import opened ActionStore

  const JOB_URL := "job_url"
  const FAILED_JOB := "failed"

  type Url = string

  datatype Pc =
    | Idle                             // no process life is running the action
    | LookingUp                        // get_old_job_url
    | Turn(i: nat, known: Option<Url>)   // in the loop, before `if not job_url`
    | Launched(i: nat, url: Url)       // launched, URL not recorded yet
    | Monitoring(i: nat, url: Url)
    | Observed(i: nat, url: Url)       // seen failed, record not cleared yet
    | Done                             // the body is over
    | Closed                           // its end is recorded: never run again

  // retries and useLabel are the action's arguments; record is what the store
  // holds for it; apriori is what this life read from the store when it
  // started; launched and failed say which jobs were launched, in order, and
  // which ones were seen failed.
  datatype State = State(
    retries: nat,
    useLabel: bool,
    record: Option<Info>,
    apriori: Option<Info>,
    pc: Pc,
    launched: seq<Url>,
    failed: set<Url>)

  function Initial(retries: nat, useLabel: bool): State {
    State(retries, useLabel, None, None, Idle, [], {})
  }

  function EffectiveRetries(retries: int, retry: bool): (r: nat)
    ensures retries >= 1 || (!retry && retries >= 0) ==> r == retries
    ensures retry && retries < 1 ==> r == 1
    ensures !retry && retries < 0 ==> r == 0
  {
    var r := if retry && retries < 1 then 1 else retries;
    if r < 0 then 0 else r
  }

  // A job URL in a record, if there is one; empty counts as none.
  function UrlIn(info: Option<Info>): Option<Url> {
    if info.Some? && JOB_URL in info.value && info.value[JOB_URL].Some? && info.value[JOB_URL].value != ""
    then info.value[JOB_URL] else None
  }

  predicate LooksUpLabel(apriori: Option<Info>, useLabel: bool) {
    && apriori.Some? && UrlIn(apriori).None? && useLabel
    && STATUS in apriori.value && apriori.value[STATUS] == Some(STARTED)
  }

  // get_old_job_url; found is the controller's answer to the label query.
  function OldJobUrl(apriori: Option<Info>, useLabel: bool, found: Option<Url>): Option<Url> {
    if UrlIn(apriori).Some? then UrlIn(apriori)
    else if LooksUpLabel(apriori, useLabel) then found
    else None
  }

  function Noted(record: Option<Info>, url: Option<Url>): Option<Info> {
    Some(Merge(record, map[JOB_URL := url]))
  }

  datatype Step =
    | StartLife
    | Resolve(found: Option<Url>)
    | Keep
    | Launch(url: Url)
    | LaunchFails
    | RecordUrl
    | Observe(status: string)
    | MonitorFails
    | Clear
    | Stop              // crash or cancellation while waiting
    | CrashUnrecorded   // crash between the launch and its record
    | Finish

  predicate Enabled(s: State, step: Step) {
    match step
    case StartLife => s.pc.Idle?
    case Resolve(found) => s.pc.LookingUp? && found != Some("")
    case Keep => s.pc.Turn? && s.pc.known.Some?
    case Launch(url) => s.pc.Turn? && s.pc.known.None? && url != "" && url !in s.launched && url !in s.failed
    case LaunchFails => s.pc.Turn? && s.pc.known.None?
    case RecordUrl => s.pc.Launched?
    case Observe(_) => s.pc.Monitoring?
    case MonitorFails => s.pc.Monitoring?
    case Clear => s.pc.Observed?
    case Stop => !s.pc.Launched? && !s.pc.Idle? && !s.pc.Closed?
    case CrashUnrecorded => s.pc.Launched?
    case Finish => s.pc.Done?
  }

  function Apply(s: State, step: Step): State
    requires Enabled(s, step)
  {
    match step
    case StartLife =>
      s.(apriori := s.record, record := Some(s.record.UnwrapOr(STARTED_INFO)), pc := LookingUp)
    case Resolve(found) =>
      s.(pc := Turn(0, OldJobUrl(s.apriori, s.useLabel, found)))
    case Keep => s.(pc := Monitoring(s.pc.i, s.pc.known.value))
    case Launch(url) =>
      s.(pc := Launched(s.pc.i, url), launched := s.launched + [url])
    case LaunchFails => s.(pc := Done)
    case RecordUrl => s.(record := Noted(s.record, Some(s.pc.url)), pc := Monitoring(s.pc.i, s.pc.url))
    case Observe(status) =>
      if status != FAILED_JOB then s.(pc := Done)
      else s.(failed := s.failed + {s.pc.url}, pc := Observed(s.pc.i, s.pc.url))
    case MonitorFails => s.(pc := Done)
    case Clear =>
      s.(record := Noted(s.record, None), pc := if s.pc.i < s.retries then Turn(s.pc.i + 1, None) else Done)
    case Stop => s.(pc := Idle)
    case CrashUnrecorded => s.(pc := Idle)
    case Finish => s.(pc := Closed)
  }

  // The last launched job, while nothing says that it failed.
  predicate OpenJob(s: State) {
    s.launched != [] && s.launched[|s.launched| - 1] !in s.failed
  }

  // The open job is known to the controller only.
  predicate Lost(s: State) {
    OpenJob(s) && !s.pc.Launched? && UrlIn(s.record) != Some(s.launched[|s.launched| - 1])
  }

  ghost predicate IsFreeRun(s: State, steps: seq<Step>)
    decreases |steps|
  {
    steps == [] || (Enabled(s, steps[0]) && IsFreeRun(Apply(s, steps[0]), steps[1..]))
  }

  ghost function FreeAfter(s: State, steps: seq<Step>): State
    requires IsFreeRun(s, steps)
    decreases |steps|
  {
    if steps == [] then s else FreeAfter(Apply(s, steps[0]), steps[1..])
  }

  // A life that starts after the URL was lost learns it from the label query.
  predicate Recovers(s: State, step: Step) {
    step.Resolve? && Lost(s) ==> s.useLabel && step.found == Some(s.launched[|s.launched| - 1])
  }

  // A free run in which no lost URL stays lost.
  ghost predicate IsRun(s: State, steps: seq<Step>)
    decreases |steps|
  {
    steps == [] || (Enabled(s, steps[0]) && Recovers(s, steps[0]) && IsRun(Apply(s, steps[0]), steps[1..]))
  }

  ghost function After(s: State, steps: seq<Step>): State
    requires IsRun(s, steps)
    decreases |steps|
  {
    if steps == [] then s else After(Apply(s, steps[0]), steps[1..])
  }

  // --- Invariant -----------------------------------------------------------

  // Every job but the last was seen failed before the next one was launched.
  predicate OneOpenJob(s: State) {
    forall j :: 0 <= j < |s.launched| - 1 ==> s.launched[j] in s.failed
  }

  // The record names the last job or none, and still says "started".
  predicate RecordOk(s: State) {
    && (UrlIn(s.record).Some? ==> s.launched != [] && UrlIn(s.record).value == s.launched[|s.launched| - 1])
    && (s.record.Some? ==> STATUS in s.record.value && s.record.value[STATUS] == Some(STARTED))
    && (s.launched != [] || !s.pc.Idle? ==> s.record.Some?)
  }

  predicate PcOk(s: State) {
    match s.pc
    case LookingUp =>
      UrlIn(s.apriori) == UrlIn(s.record) && (s.launched != [] ==> s.apriori == s.record)
    case Turn(_, url) =>
      (OpenJob(s) ==> url == Some(s.launched[|s.launched| - 1])) && (url.None? ==> UrlIn(s.record).None?)
    case Launched(_, url) =>
      UrlIn(s.record).None? && url != "" && s.launched != [] && url == s.launched[|s.launched| - 1]
    case Monitoring(_, url) => OpenJob(s) ==> url == s.launched[|s.launched| - 1]
    case Observed(_, url) => !OpenJob(s)
    case _ => true
  }

  predicate Inv(s: State) {
    OneOpenJob(s) && RecordOk(s) && PcOk(s)
  }

  lemma StepKeepsOneOpenJob(s: State, step: Step)
    requires Inv(s) && Enabled(s, step)
    ensures OneOpenJob(Apply(s, step))
  {
  }

  lemma StepKeepsRecordOk(s: State, step: Step)
    requires Inv(s) && Enabled(s, step)
    ensures RecordOk(Apply(s, step))
  {
  }

  lemma StepKeepsPcOk(s: State, step: Step)
    requires Inv(s) && Enabled(s, step) && Recovers(s, step)
    ensures PcOk(Apply(s, step))
  {
  }

  lemma StepKeepsInv(s: State, step: Step)
    requires Inv(s) && Enabled(s, step) && Recovers(s, step)
    ensures Inv(Apply(s, step))
  {
    StepKeepsOneOpenJob(s, step);
    StepKeepsRecordOk(s, step);
    StepKeepsPcOk(s, step);
  }

  lemma {:induction false} RunKeepsInv(s: State, steps: seq<Step>)
    requires Inv(s) && IsRun(s, steps)
    ensures Inv(After(s, steps))
    decreases |steps|
  {
    if steps != [] {
      StepKeepsInv(s, steps[0]);
      RunKeepsInv(Apply(s, steps[0]), steps[1..]);
    }
  }

  // How many launches a life has left.
  function Budget(s: State): int {
    match s.pc
    case LookingUp => s.retries + 1
    case Turn(i, url) => s.retries - i + if url.None? then 1 else 0
    case Launched(i, _) => s.retries - i
    case Monitoring(i, _) => s.retries - i
    case Observed(i, _) => s.retries - i
    case _ => 0
  }

  predicate TurnOk(s: State) {
    match s.pc
    case Turn(i, _) => i <= s.retries
    case Launched(i, _) => i <= s.retries
    case Monitoring(i, _) => i <= s.retries
    case Observed(i, _) => i <= s.retries
    case _ => true
  }

  // The launches among these steps.
  ghost function Launches(steps: seq<Step>): seq<Url> {
    if steps == [] then [] else (if steps[0].Launch? then [steps[0].url] else []) + Launches(steps[1..])
  }

  lemma {:induction false} LifeLaunches(s: State, life: seq<Step>)
    requires IsFreeRun(s, life) && StartLife !in life && TurnOk(s)
    ensures |Launches(life)| <= Budget(s)
    ensures FreeAfter(s, life).launched == s.launched + Launches(life)
    decreases |life|
  {
    if life != [] {
      var s1 := Apply(s, life[0]);
      LifeLaunches(s1, life[1..]);
      Associates(s.launched, if life[0].Launch? then [life[0].url] else [], Launches(life[1..]));
    }
  }

  // --- What holds over every run -------------------------------------------

  // In every life, the lost URL found or not: at most retries + 1 jobs are
  // launched, and one less when it resumes a job.
  lemma LaunchesPerLife(s: State, life: seq<Step>)
    requires s.pc.LookingUp? && IsFreeRun(s, life) && StartLife !in life
    ensures FreeAfter(s, life).launched == s.launched + Launches(life)
    ensures |Launches(life)| <= s.retries + 1
    ensures life != [] && life[0].Resolve? && OldJobUrl(s.apriori, s.useLabel, life[0].found).Some? ==>
            |Launches(life)| <= s.retries
  {
    LifeLaunches(s, life);
    if life != [] {
      LifeLaunches(Apply(s, life[0]), life[1..]);
    }
  }

  // A life that is not closed can be interrupted wherever it is, and another one
  // start; a body that is over can be closed, and then nothing more happens.
  lemma LivesGoOn(s: State)
    ensures !s.pc.Idle? && !s.pc.Closed? ==>
            var crash := if s.pc.Launched? then CrashUnrecorded else Stop;
            Enabled(s, crash) && Apply(s, crash) == s.(pc := Idle) && Enabled(Apply(s, crash), StartLife)
    ensures s.pc.Done? ==> Enabled(s, Finish) && forall step :: !Enabled(Apply(s, Finish), step)
  {
  }

  // Over all lives: a job is launched only when every job launched before was
  // seen failed.
  lemma LaunchesOverEveryRun(retries: nat, useLabel: bool, steps: seq<Step>)
    requires IsRun(Initial(retries, useLabel), steps)
    ensures var e := After(Initial(retries, useLabel), steps);
            && OneOpenJob(e)
            && (forall url :: Enabled(e, Launch(url)) ==> AllFailed(e))
  {
    RunKeepsInv(Initial(retries, useLabel), steps);
    var e := After(Initial(retries, useLabel), steps);
    forall url | Enabled(e, Launch(url)) ensures AllFailed(e) {
      LaunchNeedsAllFailed(e, url);
    }
  }

  predicate AllFailed(s: State) {
    forall u :: u in s.launched ==> u in s.failed
  }

  lemma LaunchNeedsAllFailed(s: State, url: Url)
    requires Inv(s) && Enabled(s, Launch(url))
    ensures AllFailed(s)
  {
    assert !OpenJob(s);
  }

  // Only a crash between a launch and its record loses a job, so without one
  // the label query is not needed.
  predicate NothingLost(s: State) {
    Inv(s) && !Lost(s)
  }

  lemma OnlyUnrecordedCrashLoses(s: State, step: Step)
    requires NothingLost(s) && Enabled(s, step) && !step.CrashUnrecorded?
    ensures Recovers(s, step) && NothingLost(Apply(s, step))
  {
    StepKeepsInv(s, step);
  }

  // --- When the URL was lost -----------------------------------------------

  // The life that is about to use the answer found can get to where it launches
  // a job while the lost one is open.
  ghost predicate CanDouble(s: State, found: Option<Url>)
    requires Enabled(s, Resolve(found))
  {
    exists rest, url ::
      && StartLife !in rest && IsFreeRun(Apply(s, Resolve(found)), rest)
      && Enabled(FreeAfter(Apply(s, Resolve(found)), rest), Launch(url))
      && !AllFailed(FreeAfter(Apply(s, Resolve(found)), rest))
  }

  // The answer names the lost job.
  predicate NamesLost(s: State, found: Option<Url>)
    requires s.launched != []
  {
    s.useLabel && found == Some(s.launched[|s.launched| - 1])
  }

  // A life that starts after the URL was lost can launch a job beside the open
  // one unless the label query names the open job, or names some other job and
  // no retry is left after that one.
  lemma LostJobIsDoubled(s: State, found: Option<Url>)
    requires Inv(s) && Lost(s) && Enabled(s, Resolve(found))
    ensures CanDouble(s, found) <==>
            !NamesLost(s, found) && (s.useLabel && found.Some? ==> s.retries >= 1)
  {
    if NamesLost(s, found) {
      NamedLostIsKept(s, found);
    } else if !(s.useLabel && found.Some?) {
      DoublesAtOnce(s, found);
    } else if s.retries >= 1 {
      DoublesAfterRetry(s, found);
    } else {
      NoRetryNoLaunch(s, found);
    }
  }

  // A new life resumes the open job from the record; when its URL was lost, it
  // resumes what the label query says.
  lemma OldJobUrlOfOpenJob(s: State, found: Option<Url>)
    requires Inv(s) && OpenJob(s) && s.pc.LookingUp?
    ensures OldJobUrl(s.apriori, s.useLabel, found) ==
            if !Lost(s) then Some(s.launched[|s.launched| - 1])
            else if s.useLabel then found
            else None
  {
    if Lost(s) {
      assert UrlIn(s.record).None?;
      assert LooksUpLabel(s.apriori, s.useLabel) <==> s.useLabel;
    }
  }

  lemma {:induction false} NamedLostIsKept(s: State, found: Option<Url>)
    requires Inv(s) && Lost(s) && Enabled(s, Resolve(found)) && NamesLost(s, found)
    ensures !CanDouble(s, found)
  {
    var t := Apply(s, Resolve(found));
    StepKeepsInv(s, Resolve(found));
    forall rest, url | StartLife !in rest && IsFreeRun(t, rest) && Enabled(FreeAfter(t, rest), Launch(url))
      ensures AllFailed(FreeAfter(t, rest))
    {
      FreeRunWithoutLookup(t, rest);
      RunKeepsInv(t, rest);
      LaunchNeedsAllFailed(FreeAfter(t, rest), url);
    }
  }

  lemma {:induction false} FreeRunWithoutLookup(s: State, steps: seq<Step>)
    requires !s.pc.LookingUp? && StartLife !in steps && IsFreeRun(s, steps)
    ensures IsRun(s, steps) && After(s, steps) == FreeAfter(s, steps)
    decreases |steps|
  {
    if steps != [] {
      FreeRunWithoutLookup(Apply(s, steps[0]), steps[1..]);
    }
  }

  lemma {:induction false} DoublesAtOnce(s: State, found: Option<Url>)
    requires Inv(s) && Lost(s) && Enabled(s, Resolve(found)) && !(s.useLabel && found.Some?)
    ensures CanDouble(s, found)
  {
    OldJobUrlOfOpenJob(s, found);
    var t := Apply(s, Resolve(found));
    var url := FreshUrl(t);
    assert FreeAfter(t, []) == t && Enabled(t, Launch(url)) && !AllFailed(t);
  }

  lemma {:induction false} DoublesAfterRetry(s: State, found: Option<Url>)
    requires Inv(s) && Lost(s) && Enabled(s, Resolve(found)) && s.useLabel && found.Some?
    requires !NamesLost(s, found) && s.retries >= 1
    ensures CanDouble(s, found)
  {
    OldJobUrlOfOpenJob(s, found);
    var t0 := Apply(s, Resolve(found));
    var t1 := Apply(t0, Keep);
    var t2 := Apply(t1, Observe(FAILED_JOB));
    var t3 := Apply(t2, Clear);
    ThreeSteps(t0, Keep, Observe(FAILED_JOB), Clear);
    var url := FreshUrl(t3);
    assert t3.launched == s.launched && t3.failed == s.failed + {found.value};
    var lost := s.launched[|s.launched| - 1];
    assert lost in t3.launched && lost !in t3.failed;
    assert Enabled(t3, Launch(url)) && !AllFailed(t3);
  }

  lemma ThreeSteps(s: State, a: Step, b: Step, c: Step)
    requires Enabled(s, a) && Enabled(Apply(s, a), b) && Enabled(Apply(Apply(s, a), b), c)
    ensures IsFreeRun(s, [a, b, c]) && FreeAfter(s, [a, b, c]) == Apply(Apply(Apply(s, a), b), c)
  {
    var s1, s2 := Apply(s, a), Apply(Apply(s, a), b);
    assert [a, b, c][1..] == [b, c] && [b, c][1..] == [c] && [c][1..] == [];
    assert IsFreeRun(Apply(s2, c), []);
    assert IsFreeRun(s2, [c]) && FreeAfter(s2, [c]) == Apply(s2, c);
    assert IsFreeRun(s1, [b, c]) && FreeAfter(s1, [b, c]) == Apply(s2, c);
  }

  // A URL that no job has: longer than all.
  lemma FreshUrl(s: State) returns (url: Url)
    ensures url != "" && url !in s.launched && url !in s.failed
  {
    var n := LongerThanAll(s.failed + set u | u in s.launched);
    url := seq(n, i => 'x');
  }

  lemma LongerThanAll(urls: set<Url>) returns (n: nat)
    ensures n > 0 && forall u :: u in urls ==> |u| < n
  {
    if urls == {} {
      n := 1;
    } else {
      var u :| u in urls;
      var m := LongerThanAll(urls - {u});
      n := if |u| < m then m else |u| + 1;
    }
  }

  lemma {:induction false} NoRetryNoLaunch(s: State, found: Option<Url>)
    requires Inv(s) && Lost(s) && Enabled(s, Resolve(found)) && s.useLabel && found.Some? && s.retries == 0
    ensures !CanDouble(s, found)
  {
    OldJobUrlOfOpenJob(s, found);
    var t := Apply(s, Resolve(found));
    forall rest, url | StartLife !in rest && IsFreeRun(t, rest)
      ensures !Enabled(FreeAfter(t, rest), Launch(url))
    {
      StaysPastLaunch(t, rest);
    }
  }

  // No turn of the loop is left in which a job could be launched.
  predicate PastLaunch(s: State) {
    && s.retries == 0
    && match s.pc
       case LookingUp => false
       case Turn(i, known) => known.Some?
       case Launched(_, _) => false
       case _ => true
  }

  lemma {:induction false} StaysPastLaunch(s: State, steps: seq<Step>)
    requires PastLaunch(s) && StartLife !in steps && IsFreeRun(s, steps)
    ensures PastLaunch(FreeAfter(s, steps))
    decreases |steps|
  {
    if steps != [] {
      assert PastLaunch(Apply(s, steps[0]));
      StaysPastLaunch(Apply(s, steps[0]), steps[1..]);
    }
  }

  // --- Such states are reachable -------------------------------------------

  ghost predicate Reaches(s: State, e: State) {
    exists steps :: IsFreeRun(s, steps) && FreeAfter(s, steps) == e
  }

  lemma {:induction false} RunExtends(s: State, steps: seq<Step>, step: Step)
    requires IsFreeRun(s, steps) && Enabled(FreeAfter(s, steps), step)
    ensures IsFreeRun(s, steps + [step])
    ensures FreeAfter(s, steps + [step]) == Apply(FreeAfter(s, steps), step)
    decreases |steps|
  {
    if steps == [] {
      assert IsFreeRun(Apply(s, step), []);
    } else {
      assert (steps + [step])[1..] == steps[1..] + [step];
      RunExtends(Apply(s, steps[0]), steps[1..], step);
    }
  }

  lemma {:induction false} ReachesNext(s: State, e: State, step: Step)
    requires Reaches(s, e) && Enabled(e, step)
    ensures Reaches(s, Apply(e, step))
  {
    var steps :| IsFreeRun(s, steps) && FreeAfter(s, steps) == e;
    RunExtends(s, steps, step);
  }

  // The URL of the first job can be lost, whatever the arguments.
  lemma UrlCanBeLost(retries: nat, useLabel: bool, url: Url) returns (s: State)
    requires url != ""
    ensures Reaches(Initial(retries, useLabel), s)
    ensures Inv(s) && Lost(s) && s.pc.LookingUp? && s.launched == [url]
  {
    var init := Initial(retries, useLabel);
    s := FirstLaunch(init, url);
    s := LoseLaunched(init, s);
  }

  lemma {:induction false} FirstLaunch(init: State, url: Url) returns (s: State)
    requires url != "" && init == Initial(init.retries, init.useLabel)
    ensures Reaches(init, s) && Inv(s) && s.launched == [url] && s.failed == {} && s.pc == Launched(0, url)
    ensures s.retries == init.retries && s.useLabel == init.useLabel
  {
    assert FreeAfter(init, []) == init;
    s := Take(init, init, StartLife);
    s := Take(init, s, Resolve(None));
    s := Take(init, s, Launch(url));
  }

  lemma Take(init: State, s: State, step: Step) returns (t: State)
    requires Reaches(init, s) && Inv(s) && Enabled(s, step) && Recovers(s, step)
    ensures t == Apply(s, step) && Reaches(init, t) && Inv(t)
  {
    t := Apply(s, step);
    ReachesNext(init, s, step);
    StepKeepsInv(s, step);
  }

  lemma LoseLaunched(init: State, s: State) returns (t: State)
    requires Reaches(init, s) && Inv(s) && s.pc.Launched? && s.pc.url !in s.failed
    ensures Reaches(init, t) && Inv(t) && Lost(t) && t.pc.LookingUp?
    ensures t.launched == s.launched && t.failed == s.failed && t.retries == s.retries && t.useLabel == s.useLabel
  {
    t := Take(init, s, CrashUnrecorded);
    t := Take(init, t, StartLife);
  }

  // With a retry the label query does not always save the lost job: it can
  // name a job of the same event that failed before.
  lemma {:induction false} OlderJobFoundDoubles(retries: nat, a: Url, b: Url) returns (s: State)
    requires retries >= 1 && a != "" && b != "" && a != b
    ensures Reaches(Initial(retries, true), s)
    ensures Inv(s) && Lost(s) && s.launched == [a, b] && s.failed == {a}
    ensures Enabled(s, Resolve(Some(a))) && CanDouble(s, Some(a))
  {
    var init := Initial(retries, true);
    s := FirstLaunch(init, a);
    s := Take(init, s, RecordUrl);
    s := Take(init, s, Observe(FAILED_JOB));
    s := Take(init, s, Clear);
    s := Take(init, s, Launch(b));
    s := LoseLaunched(init, s);
    LostJobIsDoubled(s, Some(a));
  }
}
