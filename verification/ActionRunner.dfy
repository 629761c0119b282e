/**
 The code that keeps the action records: persistence.py and the parts of the
 rule set runner that call it. The ghost field `state` is the machine of
 ActionRecords; every method says which of its steps it takes.
 */
module ActionRunnerClass {
  import opened Wrappers
  import opened ActionStore
  import opened ActionCalls
  import opened ActionRecords

  // How the task of an action ends: it can be cancelled before _call_action
  // begins, at the semaphore.
  datatype TaskOutcome = CancelledBefore | Calls(body: BodyOutcome)

  // Action i of a match of which k are completed ends its loop. A completed
  // action has no body to run.
  predicate Stops(outcome: TaskOutcome, i: nat, k: nat) {
    match outcome
    case CancelledBefore => true
    case Calls(body) => i >= k && Escapes(body)
  }

  // The ends after which the loop goes on with the next action.
  const CONTINUING := {Calls(Succeeds), Calls(HandledError(false)), Calls(AsksForShutdown(false))}

  lemma StopsExactlyFor(outcome: TaskOutcome, i: nat, k: nat)
    ensures Stops(outcome, i, k) <==> outcome == CancelledBefore || (i >= k && outcome !in CONTINUING)
  {
  }

  // Which actions of a match a life that found k of them completed executes,
  // said by the outcomes alone.
  ghost predicate RunsUpTo(outcomes: seq<TaskOutcome>, k: nat, raised: bool, executions: seq<nat>) {
    if forall i :: 0 <= i < |outcomes| ==> outcomes[i] in CONTINUING || (i < k && outcomes[i] != CancelledBefore)
    then !raised && executions == Range(k, |outcomes|)
    else
      raised
      && exists i :: 0 <= i < |outcomes| && outcomes[i] !in CONTINUING && (i < k ==> outcomes[i] == CancelledBefore)
                     && (forall j :: 0 <= j < i ==> outcomes[j] in CONTINUING || (j < k && outcomes[j] != CancelledBefore))
                     && executions == Range(k, if outcomes[i] == CancelledBefore then i else i + 1)
  }

  lemma FirstStopRunsUpTo(outcomes: seq<TaskOutcome>, k: nat, raised: bool, executions: seq<nat>)
    requires raised <==> FirstStop(outcomes, k, 0) < |outcomes|
    requires executions == Range(k, ExecutedUpTo(outcomes, FirstStop(outcomes, k, 0)))
    ensures RunsUpTo(outcomes, k, raised, executions)
  {
    forall i | 0 <= i < |outcomes|
      ensures Stops(outcomes[i], i, k) <==> outcomes[i] == CancelledBefore || (i >= k && outcomes[i] !in CONTINUING)
    {
      StopsExactlyFor(outcomes[i], i, k);
    }
    var stop := FirstStop(outcomes, k, 0);
    if stop < |outcomes| {
      assert outcomes[stop] !in CONTINUING;
    }
  }

  // The first action from i on that does, or their number.
  function FirstStop(outcomes: seq<TaskOutcome>, k: nat, i: nat): (stop: nat)
    requires i <= |outcomes|
    ensures i <= stop <= |outcomes|
    ensures stop < |outcomes| ==> Stops(outcomes[stop], stop, k)
    ensures forall j :: i <= j < stop ==> !Stops(outcomes[j], j, k)
    decreases |outcomes| - i
  {
    if i == |outcomes| || Stops(outcomes[i], i, k) then i else FirstStop(outcomes, k, i + 1)
  }

  // Where the actions executed end: before an action cancelled before its call.
  function ExecutedUpTo(outcomes: seq<TaskOutcome>, stop: nat): nat
    requires stop <= |outcomes|
  {
    if stop == |outcomes| || outcomes[stop].CancelledBefore? then stop else stop + 1
  }

  // What one turn adds to the executions of this life, which so far are those
  // from k up to the action before.
  lemma ExecutionsOfTurn(log: seq<Event>, base: nat, m: MatchId, index: nat, k: nat, outcome: TaskOutcome)
    requires base <= |log| && Executions(log[base..], m) == Range(k, Max(index, k))
    ensures var executed := outcome.Calls? && index >= k;
            var longer := log + if executed then CallLog(m, index, true, outcome.body) else [];
            Executions(longer[base..], m) == Range(k, Max(if outcome.CancelledBefore? then index else index + 1, k))
  {
    if outcome.Calls? && index >= k {
      ExecutionsOfCall(log, base, m, index, true, outcome.body);
    } else {
      assert log + [] == log;
    }
  }

  lemma LifeOfTurn(s: State, steps: seq<Step>, m: MatchId, k: nat, base: nat, index: nat)
    requires Inv(s) && IsRun(s, steps) && Crash !in steps && LifeOk(s, m, k, base, Max(index, k))
    requires index < s.sizes[m] && k < s.sizes[m] && After(s, steps).sizes == s.sizes
    requires MovedOn(After(s, steps), m, index) && Inv(After(s, steps))
    ensures LifeOk(After(s, steps), m, k, base, Max(index + 1, k))
  {
    var hi := LifeRun(s, steps, m, k, base, Max(index, k));
    assert MatchOk(After(s, steps), m);
  }

  class ActionRunner {
    const persistenceEnabled: bool
    var records: Records
    ghost var state: State

    ghost predicate Valid()
      reads this
    {
      persistenceEnabled && state.records == records && Inv(state)
    }

    constructor (ghost sizes: map<MatchId, nat>)
      requires forall m :: m in sizes ==> sizes[m] >= 1
      ensures Valid() && Init(state) && state.sizes == sizes
    {
      persistenceEnabled := true;
      records := map[];
      state := State(sizes, map[], {}, map[], []);
    }

    // update_action_info
    method UpdateActionInfo(key: Key, info: Info, create: bool)
      modifies this`records
      ensures records == (if !persistenceEnabled then old(records)
                          else if create then old(records)[key := info]
                          else Updated(old(records), key, info))
    {
      if !persistenceEnabled {
        return;
      }
      if create {
        records := records[key := info];
      } else {
        var data := if key in records then records[key] else map[];
        var todo := info.Keys;
        ghost var saved := data;
        while todo != {}
          invariant todo <= info.Keys
          invariant data == saved + (map k | k in info && k !in todo :: info[k])
          decreases todo
        {
          var k :| k in todo;
          data := data[k := info[k]];
          todo := todo - {k};
        }
        assert data == saved + info;
        records := records[key := data];
      }
    }

    // get_action_a_priori
    method GetActionAPriori(key: Key) returns (apriori: Option<Info>)
      ensures apriori == Lookup(records, key)
      ensures Valid() && key.owner in state.sizes && apriori.Some? ==>
              && (forall j: nat :: j < key.index ==> CompletedAt(records, key.owner, j))
              && (Completed(apriori.value) ==> Ended(key.owner, key.index) in state.log)
    {
      assert Valid() && key.owner in state.sizes ==> MatchOk(state, key.owner);
      if key in records {
        return Some(records[key]);
      }
      return None;
    }

    method DeleteActionInfo(m: MatchId)
      modifies this`records
      ensures records == WithoutMatch(old(records), m)
    {
      records := map k | k in records && k.owner != m :: records[k];
    }

    // _run_action, up to the creation of the asyncio task.
    method RunAction(m: MatchId, index: nat) returns (apriori: Option<Info>)
      requires Valid() && Enabled(state, Start(m)) && state.runs[m] == Ready(index)
      modifies this
      ensures Valid() && state == Apply(old(state), Start(m))
      ensures apriori == Lookup(old(records), Key(m, index))
      ensures records == StartRecords(old(records), Key(m, index))
    {
      apriori := GetActionAPriori(Key(m, index));
      if apriori.None? {
        UpdateActionInfo(Key(m, index), STARTED_INFO, true);
      }
      StepKeepsInv(state, Start(m));
      state := Apply(state, Start(m));
    }

    // What both ends of _call_action do for the last action.
    method DeleteIfLast(m: MatchId, last: bool)
      modifies this`records
      ensures records == if last then WithoutMatch(old(records), m) else old(records)
    {
      if last {
        DeleteActionInfo(m);
      }
    }

    // The finally clause of _call_action.
    method RecordEnd(m: MatchId, index: nat, last: bool, status: string)
      requires persistenceEnabled
      modifies this`records
      ensures records == FinishRecords(old(records), Key(m, index), last, status)
    {
      if last {
        DeleteActionInfo(m);
      } else {
        UpdateActionInfo(Key(m, index), map[STATUS := Some(status)], false);
      }
    }

    // The try statement of _call_action: what its handlers leave behind.
    static method BodyEnds(outcome: BodyOutcome) returns (status: string, cancelled: bool, raised: bool)
      ensures status == StatusOf(outcome) && (cancelled <==> outcome == IsCancelled) && (raised <==> Raises(outcome))
    {
      status, cancelled, raised := FAILED, false, false;
      match outcome {
        case Succeeds => status := SUCCESSFUL;
        case HandledError(putCancelled) => raised := putCancelled;
        case EscapingError => raised := true;
        case AsksForShutdown(broadcastCancelled) => raised := broadcastCancelled;
        case IsCancelled => cancelled, raised := true, true;
      }
    }

    // _call_action: skip what an earlier life completed, else run the body and
    // record its end unless it was cancelled.
    method CallAction(m: MatchId, index: nat, apriori: Option<Info>, last: bool, outcome: BodyOutcome)
      returns (executed: bool, raised: bool)
      requires Valid() && m in state.sizes && m in state.runs && state.runs[m] == Created(index, apriori)
      requires last == Last(state, m, index)
      modifies this
      ensures Valid()
      ensures executed <==> !(apriori.Some? && Completed(apriori.value))
      ensures raised <==> executed && Raises(outcome)
      ensures Stores(old(records), records, Key(m, index), executed, last, outcome)
      ensures state.sizes == old(state).sizes && m in state.runs
      ensures if raised then state.runs[m] == Halted else MovedOn(state, m, index)
      ensures IsRun(old(state), CallSteps(m, apriori, outcome))
      ensures After(old(state), CallSteps(m, apriori, outcome)) == state
      ensures state.log == old(state).log + CallLog(m, index, executed, outcome)
    {
      CallIsRun(state, m, index, apriori, outcome);
      CallStores(state, m, index, apriori, outcome);
      state := After(state, CallSteps(m, apriori, outcome));
      if apriori.Some? && Completed(apriori.value) {
        DeleteIfLast(m, last);
        return false, false;
      }
      var status, cancelled;
      status, cancelled, raised := BodyEnds(outcome);
      if !cancelled {
        RecordEnd(m, index, last, status);
      }
      executed := true;
    }

    // _call_action_with_semaphore
    method CallWithSemaphore(m: MatchId, index: nat, apriori: Option<Info>, last: bool, outcome: TaskOutcome)
      returns (executed: bool, raised: bool, ghost steps: seq<Step>)
      requires Valid() && m in state.sizes && m in state.runs && state.runs[m] == Created(index, apriori)
      requires last == Last(state, m, index)
      modifies this
      ensures Valid() && state.sizes == old(state).sizes && m in state.runs
      ensures IsRun(old(state), steps) && After(old(state), steps) == state && Crash !in steps
      ensures executed <==> outcome.Calls? && !(apriori.Some? && Completed(apriori.value))
      ensures raised <==> outcome == CancelledBefore || (executed && Raises(outcome.body))
      ensures outcome.CancelledBefore? ==> records == old(records)
      ensures if raised then state.runs[m] == Halted else MovedOn(state, m, index)
      ensures state.log == old(state).log + if executed then CallLog(m, index, true, outcome.body) else []
    {
      match outcome
      case CancelledBefore =>
        executed, raised, steps := false, true, [Cancel(m)];
        OneStep(state, Cancel(m));
        StepKeepsInv(state, Cancel(m));
        state := Apply(state, Cancel(m));
      case Calls(body) =>
        steps := CallSteps(m, apriori, body);
        executed, raised := CallAction(m, index, apriori, last, body);
    }

    // One turn of the loop of _run_multiple_actions: await self._run_action(...)
    method RunOne(m: MatchId, index: nat, last: bool, outcome: TaskOutcome)
      returns (raised: bool, ghost steps: seq<Step>)
      requires Valid() && m in state.sizes && m in state.runs && state.runs[m] == Ready(index)
      requires last == Last(state, m, index)
      modifies this
      ensures Valid() && state.sizes == old(state).sizes && m in state.runs
      ensures IsRun(old(state), steps) && After(old(state), steps) == state && Crash !in steps
      ensures if raised then state.runs[m] == Halted else MovedOn(state, m, index)
      ensures var executed := outcome.Calls? && !CompletedAt(old(records), m, index);
              && (raised <==> outcome == CancelledBefore || (executed && Raises(outcome.body)))
              && state.log == old(state).log + if executed then CallLog(m, index, true, outcome.body) else []
    {
      ghost var before := state;
      var apriori := RunAction(m, index);
      assert CompletedAt(before.records, m, index) <==> apriori.Some? && Completed(apriori.value);
      var executed;
      ghost var called;
      executed, raised, called := CallWithSemaphore(m, index, apriori, last, outcome);
      RunsPrepend(before, Start(m), called);
      steps := [Start(m)] + called;
    }

    // Before action `index` of a match dispatched in this life, which found k
    // actions completed and began at `base` of the log.
    ghost predicate AtTurn(m: MatchId, index: nat, k: nat, base: nat)
      reads this
    {
      && Valid() && LifeOk(state, m, k, base, Max(index, k)) && m in state.runs && k < state.sizes[m]
      && if index < state.sizes[m] then state.runs[m] == Ready(index) else m in state.closed
    }

    // One turn, with what this life has executed of the match so far.
    method RunTurn(m: MatchId, index: nat, last: bool, outcome: TaskOutcome, ghost k: nat, ghost base: nat)
      returns (raised: bool)
      requires AtTurn(m, index, k, base) && index < state.sizes[m] && last == Last(state, m, index)
      modifies this
      ensures Valid() && state.sizes == old(state).sizes && base <= |state.log|
      ensures raised <==> Stops(outcome, index, k)
      ensures Executions(state.log[base..], m)
              == Range(k, Max(if outcome.CancelledBefore? then index else index + 1, k))
      ensures if raised then m in state.runs && state.runs[m] == Halted else AtTurn(m, index + 1, k, base)
    {
      ghost var before := state;
      assert CompletedAt(records, m, index) <==> index < k;
      ghost var steps;
      raised, steps := RunOne(m, index, last, outcome);
      ExecutionsOfTurn(before.log, base, m, index, k, outcome);
      if !raised {
        LifeOfTurn(before, steps, m, k, base, index);
      }
    }

    // _run_multiple_actions (and the single action, its case of one): a match
    // of which k actions are recorded as completed is dispatched. The others are
    // executed in order, each once, up to the first action that is cancelled or
    // whose end escapes; if there is none the match ends closed.
    method RunActions(m: MatchId, outcomes: seq<TaskOutcome>, ghost k: nat) returns (raised: bool)
      requires Valid() && Enabled(state, Dispatch(m)) && |outcomes| == state.sizes[m] && Frontier(records, m, k)
      modifies this
      ensures Valid() && |old(state).log| <= |state.log|
      ensures raised <==> FirstStop(outcomes, k, 0) < |outcomes|
      ensures Executions(state.log[|old(state).log|..], m)
              == Range(k, ExecutedUpTo(outcomes, FirstStop(outcomes, k, 0)))
      ensures if raised then m in state.runs && state.runs[m] == Halted else m in state.closed
      ensures RunsUpTo(outcomes, k, raised, Executions(state.log[|old(state).log|..], m))
    {
      ghost var base := |state.log|;
      BeginMatch(m, k);
      raised := RunMultipleActions(m, outcomes, k, base);
      FirstStopRunsUpTo(outcomes, k, raised, Executions(state.log[base..], m));
    }

    // Its loop.
    method RunMultipleActions(m: MatchId, outcomes: seq<TaskOutcome>, ghost k: nat, ghost base: nat)
      returns (raised: bool)
      requires AtTurn(m, 0, k, base) && k < |outcomes| == state.sizes[m]
      modifies this
      ensures Valid() && base <= |state.log|
      ensures raised <==> FirstStop(outcomes, k, 0) < |outcomes|
      ensures Executions(state.log[base..], m) == Range(k, ExecutedUpTo(outcomes, FirstStop(outcomes, k, 0)))
      ensures if raised then m in state.runs && state.runs[m] == Halted else m in state.closed
    {
      for index := 0 to |outcomes|
        invariant AtTurn(m, index, k, base) && |outcomes| == state.sizes[m]
        invariant forall j :: 0 <= j < index ==> !Stops(outcomes[j], j, k)
      {
        raised := RunTurn(m, index, index + 1 == |outcomes|, outcomes[index], k, base);
        if raised {
          assert FirstStop(outcomes, k, 0) == index;
          return;
        }
      }
      raised := false;
    }

    // The match is dispatched; nothing of it was executed yet.
    ghost method BeginMatch(m: MatchId, k: nat)
      requires Valid() && Enabled(state, Dispatch(m)) && Frontier(records, m, k)
      modifies this`state
      ensures Valid() && state == Apply(old(state), Dispatch(m))
      ensures k < state.sizes[m] && AtTurn(m, 0, k, |old(state).log|)
    {
      FrontierBelow(state, m, k);
      StepKeepsInv(state, Dispatch(m));
      assert state.log[|state.log|..] == [];
      state := Apply(state, Dispatch(m));
    }
  }

  // The last action never has a completed record.
  lemma FrontierBelow(s: State, m: MatchId, k: nat)
    requires Inv(s) && m in s.sizes && Frontier(s.records, m, k)
    ensures k < s.sizes[m]
  {
    assert MatchOk(s, m);
    var last: nat := s.sizes[m] - 1;
    assert !CompletedAt(s.records, m, last);
  }
}
