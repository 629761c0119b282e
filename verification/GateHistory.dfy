/**
 What becomes of an action at the gates: it is created as asked, runs its body
 once unless it is skipped or cancelled, and can always come to its end.
 */
module GateHistory {
  import opened Wrappers
  import Loop = ActionLoop
  import opened ConcurrencyGate

  // The actions created by these steps, in order.
  ghost function Spawned(steps: seq<Step>): seq<(string, Loop.Strategy, Option<string>)> {
    if steps == [] then []
    else (if steps[0].Spawn? then [(steps[0].ruleset, steps[0].strategy, steps[0].lock)] else []) + Spawned(steps[1..])
  }

  ghost function Identities(actions: seq<Action>): (r: seq<(string, Loop.Strategy, Option<string>)>)
    ensures |r| == |actions|
  {
    seq(|actions|, i requires 0 <= i < |actions| => (actions[i].ruleset, actions[i].strategy, actions[i].asked))
  }

  lemma {:induction false} RunSpawns(s: State, steps: seq<Step>)
    requires IsRun(s, steps)
    ensures Identities(After(s, steps).actions) == Identities(s.actions) + Spawned(steps)
    decreases |steps|
  {
    if steps != [] {
      var s1 := Apply(s, steps[0]);
      RunSpawns(s1, steps[1..]);
      assert Identities(s1.actions)
             == Identities(s.actions)
                + if steps[0].Spawn? then [(steps[0].ruleset, steps[0].strategy, steps[0].lock)] else [];
    }
  }

  // --- What an action has been through -----------------------------------------

  // The steps so far, as far as they tell where action id is.
  ghost predicate HistoryOk(past: seq<Step>, id: nat, pc: Pc) {
    && !(EndBody(id) in past && SkipBody(id) in past)
    && (match pc
        case Leaving => EndBody(id) in past || SkipBody(id) in past
        case Done => EndBody(id) in past || SkipBody(id) in past || Cancel(id) in past
        case _ => EndBody(id) !in past && SkipBody(id) !in past && Cancel(id) !in past)
  }

  ghost predicate HistoriesOk(past: seq<Step>, s: State) {
    && (forall id :: 0 <= id < |s.actions| ==> HistoryOk(past, id, s.actions[id].pc))
    && (forall id: nat :: id >= |s.actions| ==> EndBody(id) !in past && SkipBody(id) !in past && Cancel(id) !in past)
  }

  lemma StepKeepsHistories(past: seq<Step>, s: State, step: Step)
    requires HistoriesOk(past, s) && Enabled(s, step)
    ensures HistoriesOk(past + [step], Apply(s, step))
  {
    var s' := Apply(s, step);
    forall id | 0 <= id < |s'.actions| ensures HistoryOk(past + [step], id, s'.actions[id].pc) {
      if id < |s.actions| {
        assert HistoryOk(past, id, s.actions[id].pc);
      }
    }
  }

  lemma {:induction false} RunKeepsHistories(past: seq<Step>, s: State, steps: seq<Step>)
    requires HistoriesOk(past, s) && IsRun(s, steps)
    ensures HistoriesOk(past + steps, After(s, steps))
    decreases |steps|
  {
    if steps == [] {
      assert past + [] == past;
    } else {
      StepKeepsHistories(past, s, steps[0]);
      RunKeepsHistories(past + [steps[0]], Apply(s, steps[0]), steps[1..]);
      assert past + [steps[0]] + steps[1..] == past + steps;
    }
  }

  // Over every run: the actions are those created, as they were asked for. One
  // that is done ran its body, was skipped or was cancelled; a skipped one never
  // ran it; and none does any of this twice over, or after it is done.
  lemma {:induction false} EveryActionAccounted(configured: nat, steps: seq<Step>)
    requires IsRun(Initial(configured), steps)
    ensures var e := After(Initial(configured), steps);
            && Identities(e.actions) == Spawned(steps)
            && (forall id :: 0 <= id < |e.actions| ==> HistoryOk(steps, id, e.actions[id].pc))
  {
    var s := Initial(configured);
    RunSpawns(s, steps);
    RunKeepsHistories([], s, steps);
    assert [] + steps == steps && Identities(s.actions) + Spawned(steps) == Spawned(steps);
  }

  // --- Every action can come to its end -----------------------------------------

  lemma {:induction false} RunGates(configured: nat, steps: seq<Step>)
    requires IsRun(Initial(configured), steps)
    ensures var s := After(Initial(configured), steps); LocksOk(s) && PermitsOk(s) && AskedOk(s) && s.limit >= 1
  {
    RunKeepsInv(Initial(configured), steps);
  }

  // A run of progress in which nobody skips, and every action is done.
  lemma {:induction false} CanFinish(s: State) returns (steps: seq<Step>)
    requires LocksOk(s) && PermitsOk(s) && AskedOk(s) && s.limit >= 1
    ensures IsRun(s, steps) && forall step :: step in steps ==> IsProgress(step) && !step.SkipBody?
    ensures |After(s, steps).actions| == |s.actions|
    ensures forall id :: 0 <= id < |s.actions| ==> After(s, steps).actions[id].pc == Done
    decreases Work(s)
  {
    if id :| 0 <= id < |s.actions| && !s.actions[id].pc.Done? {
      var step := SomeActionCanStep(s, id);
      StepDoesWork(s, step);
      StepKeepsLocks(s, step);
      StepKeepsPermits(s, step);
      StepKeepsAsked(s, step);
      var rest := CanFinish(Apply(s, step));
      steps := [step] + rest;
      assert steps[1..] == rest;
    } else {
      steps := [];
    }
  }

  // Whatever happened before, a new action can be created and run its body, and
  // every action can come to its end.
  lemma {:induction false} NewActionCanRun(configured: nat, before: seq<Step>, spawn: Step) returns (steps: seq<Step>)
    requires IsRun(Initial(configured), before) && spawn.Spawn?
    ensures var s := After(Initial(configured), before);
            && Enabled(s, spawn) && IsRun(Apply(s, spawn), steps)
            && EndBody(|s.actions|) in steps
            && (forall step :: step in steps ==> IsProgress(step))
            && (forall id :: 0 <= id < |After(Apply(s, spawn), steps).actions| ==>
                  After(Apply(s, spawn), steps).actions[id].pc == Done)
  {
    var s := After(Initial(configured), before);
    RunGates(configured, before);
    StepKeepsLocks(s, spawn);
    StepKeepsPermits(s, spawn);
    StepKeepsAsked(s, spawn);
    var s1, id := Apply(s, spawn), |s.actions|;
    steps := CanFinish(s1);
    RunKeepsHistories([], Initial(configured), before);
    assert [] + before == before;
    StepKeepsHistories(before, s, spawn);
    RunKeepsHistories(before + [spawn], s1, steps);
    assert HistoryOk(before + [spawn] + steps, id, After(s1, steps).actions[id].pc);
    assert EndBody(id) !in before + [spawn] && SkipBody(id) !in before + [spawn] && Cancel(id) !in before + [spawn];
  }

  // An action that is not done can be cancelled wherever it is; it then holds
  // neither a permit nor a lock, and nobody else loses one.
  lemma CancelReleases(configured: nat, steps: seq<Step>, id: nat)
    requires IsRun(Initial(configured), steps)
    requires id < |After(Initial(configured), steps).actions|
    requires After(Initial(configured), steps).actions[id].pc != Done
    ensures var s := After(Initial(configured), steps);
            && Enabled(s, Cancel(id))
            && var e := Apply(s, Cancel(id));
               && e.actions == s.actions[id := s.actions[id].(pc := Done)]
               && e.permits == s.permits + (if s.actions[id].pc == Waiting then 0 else 1)
               && (forall l :: l in e.holders <==> l in s.holders && s.holders[l] != id)
               && (forall l :: l in e.holders ==> e.holders[l] == s.holders[l])
  {
    RunGates(configured, steps);
  }
}
