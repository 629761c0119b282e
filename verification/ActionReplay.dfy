/**
 Which actions can still be executed, and so which ones a crash can repeat.
 */
module ActionReplay {
  import opened Wrappers
  import opened ActionStore
  import opened ActionRecords
  import opened ActionCalls

  // Some run from s on executes action i of m.
  ghost predicate CanExecute(s: State, m: MatchId, i: nat) {
    exists steps :: IsRun(s, steps) && ExecutedSince(s, After(s, steps), m, i)
  }

  predicate ExecutedSince(s: State, e: State, m: MatchId, i: nat) {
    |s.log| <= |e.log| && Executed(m, i) in e.log[|s.log|..]
  }

  // Nothing is left to do for action i.
  predicate IsSettled(s: State, m: MatchId, i: nat) {
    m in s.closed || CompletedAt(s.records, m, i)
  }

  // In every reachable state: an action can be executed, again or for the first
  // time, exactly while its end is not recorded and its match is not closed.
  lemma ExecutableUntilRecorded(s0: State, steps: seq<Step>, m: MatchId, i: nat)
    requires Init(s0) && IsRun(s0, steps) && m in s0.sizes && i < s0.sizes[m]
    ensures CanExecute(After(s0, steps), m, i) <==> !IsSettled(After(s0, steps), m, i)
  {
    RunKeepsInv(s0, steps);
    RunKeepsSizes(s0, steps);
    var s := After(s0, steps);
    if IsSettled(s, m, i) {
      forall more | IsRun(s, more) ensures !ExecutedSince(s, After(s, more), m, i) {
        assert s.log[|s.log|..] == [];
        SettledRun(s, more, m, i, |s.log|);
      }
    } else {
      var more := RunUpTo(s, m, i);
      assert ExecutedSince(s, After(s, more), m, i);
    }
  }

  // In particular an action that ended and is not recorded can run again.
  lemma EndedRunsAgain(s0: State, steps: seq<Step>, m: MatchId, i: nat)
    requires Init(s0) && IsRun(s0, steps) && m in s0.sizes && i < s0.sizes[m]
    requires Enabled(After(s0, steps), Record(m, false)) && After(s0, steps).runs[m].index == i
    ensures Ended(m, i) in After(s0, steps).log && CanExecute(After(s0, steps), m, i)
  {
    RunKeepsInv(s0, steps);
    RunKeepsSizes(s0, steps);
    assert MatchOk(After(s0, steps), m);
    ExecutableUntilRecorded(s0, steps, m, i);
  }

  // --- Settled actions stay untouched ----------------------------------------

  lemma SettledStep(s: State, step: Step, m: MatchId, i: nat)
    requires Inv(s) && Enabled(s, step) && m in s.sizes && IsSettled(s, m, i)
    ensures IsSettled(Apply(s, step), m, i)
    ensures !(step.Begin? && step.m == m && s.runs[m].index == i)
  {
    assert MatchOk(s, m);
    if CompletedAt(s.records, m, i) && !(Concerns(step, m) && (step.Record? || step.Skip?)) {
      CompletedUnchanged(s, step, m);
    }
  }

  lemma {:induction false} SettledRun(s: State, steps: seq<Step>, m: MatchId, i: nat, base: nat)
    requires Inv(s) && IsRun(s, steps) && m in s.sizes && IsSettled(s, m, i)
    requires base <= |s.log| && Executed(m, i) !in s.log[base..]
    ensures base <= |After(s, steps).log| && Executed(m, i) !in After(s, steps).log[base..]
    decreases |steps|
  {
    if steps != [] {
      SettledStep(s, steps[0], m, i);
      SettledLog(s, steps[0], m, i, base);
      StepKeepsInv(s, steps[0]);
      SettledRun(Apply(s, steps[0]), steps[1..], m, i, base);
    }
  }

  lemma SettledLog(s: State, step: Step, m: MatchId, i: nat, base: nat)
    requires Enabled(s, step) && !(step.Begin? && step.m == m && s.runs[m].index == i)
    requires base <= |s.log| && Executed(m, i) !in s.log[base..]
    ensures base <= |Apply(s, step).log| && Executed(m, i) !in Apply(s, step).log[base..]
    ensures m in s.sizes ==> m in Apply(s, step).sizes
  {
    assert Apply(s, step).log == s.log + Logged(s, step);
    assert Apply(s, step).log[base..] == s.log[base..] + Logged(s, step);
  }

  // --- A run to an action that is not settled ---------------------------------

  lemma {:induction false} RunUpTo(s: State, m: MatchId, i: nat) returns (steps: seq<Step>)
    requires Inv(s) && m in s.sizes && i < s.sizes[m] && !IsSettled(s, m, i)
    ensures IsRun(s, steps) && ExecutedSince(s, After(s, steps), m, i)
  {
    var restart, dispatched := Restart(s, m);
    var before := CatchUp(dispatched, m, 0, i);
    var ready := After(dispatched, before);
    var last := ExecuteNext(ready, m, i);
    RunsCompose(dispatched, before, last);
    RunsCompose(s, restart, before + last);
    steps := restart + (before + last);
    LastOfLog(ready.log, Executed(m, i), |s.log|);
  }

  lemma LastOfLog(log: seq<Event>, e: Event, base: nat)
    requires base <= |log|
    ensures e in (log + [e])[base..]
  {
    assert (log + [e])[base..][|log| - base] == e;
  }

  lemma Restart(s: State, m: MatchId) returns (steps: seq<Step>, e: State)
    requires Inv(s) && m in s.sizes && m !in s.closed
    ensures IsRun(s, steps) && After(s, steps) == e && Inv(e)
    ensures e == s.(runs := map[m := Ready(0)])
  {
    var crashed := Apply(s, Crash);
    StepKeepsInv(s, Crash);
    StepKeepsInv(crashed, Dispatch(m));
    e := Apply(crashed, Dispatch(m));
    OneStep(crashed, Dispatch(m));
    RunsPrepend(s, Crash, [Dispatch(m)]);
    steps := [Crash] + [Dispatch(m)];
  }

  lemma ExecuteNext(s: State, m: MatchId, i: nat) returns (steps: seq<Step>)
    requires Inv(s) && m in s.sizes && m in s.runs && s.runs[m] == Ready(i) && !CompletedAt(s.records, m, i)
    ensures IsRun(s, steps) && After(s, steps).log == s.log + [Executed(m, i)]
  {
    steps := [Start(m)] + [Begin(m)];
    OneStep(Apply(s, Start(m)), Begin(m));
    RunsPrepend(s, Start(m), [Begin(m)]);
  }

  // The actions before i are skipped or executed.
  lemma {:induction false} CatchUp(s: State, m: MatchId, j: nat, i: nat) returns (steps: seq<Step>)
    requires Inv(s) && m in s.sizes && j <= i < s.sizes[m]
    requires m in s.runs && s.runs[m] == Ready(j) && !CompletedAt(s.records, m, i)
    ensures IsRun(s, steps)
    ensures var e := After(s, steps);
            && Inv(e) && e.sizes == s.sizes && |s.log| <= |e.log|
            && m in e.runs && e.runs[m] == Ready(i) && !CompletedAt(e.records, m, i)
    decreases i - j
  {
    if j == i {
      steps := [];
    } else {
      var one := OneMoreAction(s, m, j, i);
      var more := CatchUp(After(s, one), m, j + 1, i);
      RunsCompose(s, one, more);
      steps := one + more;
    }
  }

  lemma {:induction false} OneMoreAction(s: State, m: MatchId, j: nat, i: nat) returns (steps: seq<Step>)
    requires Inv(s) && m in s.sizes && j < i < s.sizes[m]
    requires m in s.runs && s.runs[m] == Ready(j) && !CompletedAt(s.records, m, i)
    ensures IsRun(s, steps)
    ensures var e := After(s, steps);
            && Inv(e) && e.sizes == s.sizes && |s.log| <= |e.log|
            && m in e.runs && e.runs[m] == Ready(j + 1) && !CompletedAt(e.records, m, i)
  {
    var started := Apply(s, Start(m));
    StepKeepsInv(s, Start(m));
    CompletedUnchanged(s, Start(m), m);
    var call := CallNext(started, m, j, i);
    RunsPrepend(s, Start(m), call);
    steps := [Start(m)] + call;
  }

  lemma {:induction false} CallNext(s: State, m: MatchId, j: nat, i: nat) returns (steps: seq<Step>)
    requires Inv(s) && m in s.sizes && j < i < s.sizes[m]
    requires m in s.runs && s.runs[m].Created? && s.runs[m].index == j && !CompletedAt(s.records, m, i)
    ensures IsRun(s, steps)
    ensures var e := After(s, steps);
            && Inv(e) && e.sizes == s.sizes && |s.log| <= |e.log|
            && m in e.runs && e.runs[m] == Ready(j + 1) && !CompletedAt(e.records, m, i)
  {
    var apriori := s.runs[m].apriori;
    CallIsRun(s, m, j, apriori, Succeeds);
    steps := CallSteps(m, apriori, Succeeds);
    assert !CompletedAt(CallRecords(s, m, j, apriori, Succeeds), m, i);
  }

  // --- An example --------------------------------------------------------------

  lemma ExecutionsOfTwoLives(m: MatchId, log: seq<Event>)
    requires log == [Executed(m, 0), Ended(m, 0), Executed(m, 0), Ended(m, 0)]
    ensures Executions(log, m) == [0, 0]
  {
    var one := [Executed(m, 0)];
    ExecutionsSnoc([], Executed(m, 0), m);
    ExecutionsSnoc(one, Ended(m, 0), m);
    ExecutionsSnoc(one + [Ended(m, 0)], Executed(m, 0), m);
    ExecutionsSnoc(one + [Ended(m, 0)] + one, Ended(m, 0), m);
    assert [] + one == one && log == one + [Ended(m, 0)] + one + [Ended(m, 0)];
  }

  // Between the end of an action and its record a crash makes it run again: a
  // match of one action can be executed twice.
  lemma ExecutedTwiceAfterCrash(m: MatchId)
    ensures exists s: State, steps: seq<Step> ::
      Init(s) && IsRun(s, steps) && Executions(After(s, steps).log, m) == [0, 0]
  {
    var s0 := State(map[m := 1], map[], {}, map[], []);
    var life := CrashedLife(m);
    var s1 := OneCrashedLife(s0, m);
    var s2 := OneCrashedLife(s1, m);
    RunsCompose(s0, life, life);
    ExecutionsOfTwoLives(m, s2.log);
    assert Init(s0) && IsRun(s0, life + life) && Executions(After(s0, life + life).log, m) == [0, 0];
  }

  ghost function CrashedLife(m: MatchId): seq<Step> {
    [Dispatch(m)] + ([Start(m)] + ([Begin(m)] + ([EndBody(m, SUCCESSFUL)] + [Crash])))
  }

  lemma OneCrashedLife(s: State, m: MatchId) returns (e: State)
    requires s.sizes == map[m := 1] && s.closed == {} && s.runs == map[]
    requires s.records == map[] || s.records == map[Key(m, 0) := STARTED_INFO]
    ensures IsRun(s, CrashedLife(m)) && After(s, CrashedLife(m)) == e
    ensures e == State(s.sizes, map[Key(m, 0) := STARTED_INFO], {}, map[], s.log + [Executed(m, 0), Ended(m, 0)])
  {
    var a := Apply(s, Dispatch(m));
    var b := Apply(a, Start(m));
    assert b.runs[m].Created? && b.records == map[Key(m, 0) := STARTED_INFO];
    assert b.runs[m].apriori == None || b.runs[m].apriori == Some(STARTED_INFO);
    var c := Apply(b, Begin(m));
    var d := Apply(c, EndBody(m, SUCCESSFUL));
    e := Apply(d, Crash);
    OneStep(d, Crash);
    RunsPrepend(c, EndBody(m, SUCCESSFUL), [Crash]);
    RunsPrepend(b, Begin(m), [EndBody(m, SUCCESSFUL)] + [Crash]);
    RunsPrepend(a, Start(m), [Begin(m)] + ([EndBody(m, SUCCESSFUL)] + [Crash]));
    RunsPrepend(s, Dispatch(m), [Start(m)] + ([Begin(m)] + ([EndBody(m, SUCCESSFUL)] + [Crash])));
    assert s.log + [Executed(m, 0)] + [Ended(m, 0)] == s.log + [Executed(m, 0), Ended(m, 0)];
  }
}
