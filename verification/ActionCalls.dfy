/**
 One call of an action as a piece of a run of the record machine: the steps it
 takes and what they leave in the store and in the history.
 */
module ActionCalls {
  import opened Wrappers
  import opened ActionStore
  import opened ActionRecords

  // How the body of an action ends.
  datatype BodyOutcome =
    | Succeeds
    | HandledError(putCancelled: bool)   // the put of the failure on the event log
    | EscapingError
    | AsksForShutdown(broadcastCancelled: bool)
    | IsCancelled

  function StatusOf(outcome: BodyOutcome): string {
    if outcome.Succeeds? then SUCCESSFUL else FAILED
  }

  predicate Escapes(outcome: BodyOutcome) {
    match outcome
    case Succeeds => false
    case HandledError(putCancelled) => putCancelled
    case EscapingError => true
    case AsksForShutdown(broadcastCancelled) => broadcastCancelled
    case IsCancelled => true
  }

  // The ends that raise, one by one.
  ghost predicate Raises(outcome: BodyOutcome) {
    || outcome == EscapingError
    || outcome == IsCancelled
    || outcome == HandledError(true)
    || outcome == AsksForShutdown(true)
  }

  // The steps _call_action takes.
  ghost function CallSteps(m: MatchId, apriori: Option<Info>, outcome: BodyOutcome): (steps: seq<Step>)
    ensures Crash !in steps
  {
    if apriori.Some? && Completed(apriori.value) then [Skip(m)]
    else if outcome.IsCancelled? then [Begin(m)] + [Cancel(m)]
    else [Begin(m)] + ([EndBody(m, StatusOf(outcome))] + [Record(m, Escapes(outcome))])
  }

  // What _call_action adds to the log.
  ghost function CallLog(m: MatchId, index: nat, executed: bool, outcome: BodyOutcome): seq<Event> {
    if !executed then []
    else if outcome.IsCancelled? then [Executed(m, index)]
    else [Executed(m, index), Ended(m, index), Recorded(m, index)]
  }

  // Of that, one execution if the body ran.
  lemma ExecutionsOfCall(log: seq<Event>, base: nat, m: MatchId, index: nat, executed: bool, outcome: BodyOutcome)
    requires base <= |log|
    ensures var longer := log + CallLog(m, index, executed, outcome);
            Executions(longer[base..], m) == Executions(log[base..], m) + if executed then [index] else []
  {
    var before, longer := log[base..], log + CallLog(m, index, executed, outcome);
    if executed {
      ExecutionsSnoc(before, Executed(m, index), m);
      if outcome.IsCancelled? {
        assert longer[base..] == before + [Executed(m, index)];
      } else {
        ExecutionsSnoc(before + [Executed(m, index)], Ended(m, index), m);
        ExecutionsSnoc(before + [Executed(m, index)] + [Ended(m, index)], Recorded(m, index), m);
        assert longer[base..] == before + [Executed(m, index)] + [Ended(m, index)] + [Recorded(m, index)];
      }
    } else {
      assert longer == log;
    }
  }

  // Where a match is after one action.
  ghost predicate MovedOn(s: State, m: MatchId, index: nat) {
    m in s.sizes && m in s.runs && if Last(s, m, index) then m in s.closed else s.runs[m] == Ready(index + 1)
  }

  // What _call_action leaves in the store.
  ghost function CallRecords(s: State, m: MatchId, index: nat, apriori: Option<Info>, outcome: BodyOutcome): Records
    requires m in s.sizes
  {
    if apriori.Some? && Completed(apriori.value) then
      (if Last(s, m, index) then WithoutMatch(s.records, m) else s.records)
    else if outcome.IsCancelled? then s.records
    else FinishRecords(s.records, Key(m, index), Last(s, m, index), StatusOf(outcome))
  }

  // The same, said by the outcome alone: an end that is no cancellation is
  // recorded as successful or failed, or clears the match if it was the last.
  ghost predicate Stores(before: Records, after: Records, key: Key, executed: bool, last: bool, outcome: BodyOutcome) {
    if (if executed then outcome == IsCancelled else !last) then after == before
    else if last then after == map k | k in before && k.owner != key.owner :: before[k]
    else
      key in before
      && after == before[key := before[key]["status" := Some(if outcome == Succeeds then "successful" else "failed")]]
  }

  lemma CallStores(s: State, m: MatchId, index: nat, apriori: Option<Info>, outcome: BodyOutcome)
    requires Inv(s) && m in s.sizes && m in s.runs && s.runs[m] == Created(index, apriori)
    ensures Stores(s.records, CallRecords(s, m, index, apriori, outcome), Key(m, index),
                   !(apriori.Some? && Completed(apriori.value)), Last(s, m, index), outcome)
  {
    assert MatchOk(s, m);
    var saved, status := s.records[Key(m, index)], StatusOf(outcome);
    assert saved + map[STATUS := Some(status)] == saved[STATUS := Some(status)];
  }

  // The steps are a run with the effect described.
  ghost predicate CallRuns(s: State, m: MatchId, index: nat, apriori: Option<Info>, outcome: BodyOutcome)
    requires m in s.sizes
  {
    var steps, skipped := CallSteps(m, apriori, outcome), apriori.Some? && Completed(apriori.value);
    && IsRun(s, steps)
    && After(s, steps).sizes == s.sizes && m in After(s, steps).runs
    && (if skipped || !Escapes(outcome) then MovedOn(After(s, steps), m, index) else After(s, steps).runs[m] == Halted)
    && After(s, steps).records == CallRecords(s, m, index, apriori, outcome)
    && After(s, steps).log == s.log + CallLog(m, index, !skipped, outcome)
  }

  lemma SkippedCall(s: State, m: MatchId, index: nat, apriori: Option<Info>, outcome: BodyOutcome)
    requires m in s.sizes && m in s.runs && s.runs[m] == Created(index, apriori)
    requires apriori.Some? && Completed(apriori.value)
    ensures CallRuns(s, m, index, apriori, outcome)
  {
    OneStep(s, Skip(m));
  }

  lemma CancelledCall(s: State, m: MatchId, index: nat, apriori: Option<Info>)
    requires m in s.sizes && m in s.runs && s.runs[m] == Created(index, apriori)
    requires !(apriori.Some? && Completed(apriori.value))
    ensures CallRuns(s, m, index, apriori, IsCancelled)
  {
    OneStep(Apply(s, Begin(m)), Cancel(m));
    RunsPrepend(s, Begin(m), [Cancel(m)]);
  }

  lemma FinishedCall(s: State, m: MatchId, index: nat, apriori: Option<Info>, outcome: BodyOutcome)
    requires m in s.sizes && m in s.runs && s.runs[m] == Created(index, apriori)
    requires !(apriori.Some? && Completed(apriori.value)) && !outcome.IsCancelled?
    ensures CallRuns(s, m, index, apriori, outcome)
  {
    var end, record := EndBody(m, StatusOf(outcome)), Record(m, Escapes(outcome));
    var s1 := Apply(s, Begin(m));
    OneStep(Apply(s1, end), record);
    RunsPrepend(s1, end, [record]);
    RunsPrepend(s, Begin(m), [end] + [record]);
    assert s.log + [Executed(m, index)] + [Ended(m, index)] + [Recorded(m, index)]
           == s.log + [Executed(m, index), Ended(m, index), Recorded(m, index)];
  }

  // The steps of _call_action, their effect on the records included.
  lemma CallIsRun(s: State, m: MatchId, index: nat, apriori: Option<Info>, outcome: BodyOutcome)
    requires Inv(s) && m in s.sizes && m in s.runs && s.runs[m] == Created(index, apriori)
    ensures var steps, skipped := CallSteps(m, apriori, outcome), apriori.Some? && Completed(apriori.value);
            && IsRun(s, steps) && Inv(After(s, steps))
            && After(s, steps).sizes == s.sizes && m in After(s, steps).runs
            && (if skipped || !Escapes(outcome) then MovedOn(After(s, steps), m, index) else After(s, steps).runs[m] == Halted)
            && After(s, steps).records == CallRecords(s, m, index, apriori, outcome)
            && After(s, steps).log == s.log + CallLog(m, index, !skipped, outcome)
  {
    if apriori.Some? && Completed(apriori.value) {
      SkippedCall(s, m, index, apriori, outcome);
    } else if outcome.IsCancelled? {
      CancelledCall(s, m, index, apriori);
    } else {
      FinishedCall(s, m, index, apriori, outcome);
    }
    RunKeepsInv(s, CallSteps(m, apriori, outcome));
  }
}
