/**
 The crash-surviving record of action progress: what the runner stores about
 each action of a match, over every run with crashes, cancellations and
 restarts. Matches of all rulesets share one store and interleave freely.
 */
module ActionRecords {
  import opened Wrappers
  import opened ActionStore

  // --- The machine ---------------------------------------------------------

  // One dispatch of a match within a process life.
  datatype Run =
    | Ready(next: nat)
    | Created(index: nat, apriori: Option<Info>)
    | Body(index: nat, apriori: Option<Info>)
    | Finishing(index: nat, status: string)
    | Halted

  datatype Event =
    | Executed(owner: MatchId, index: nat)
    | Ended(owner: MatchId, index: nat)
    | Recorded(owner: MatchId, index: nat)

  // records, closed and sizes survive a crash, runs does not. A match is
  // closed once its record was deleted; the engine then forgets it. sizes is
  // the number of actions of each match. log is what happened.
  datatype State = State(
    sizes: map<MatchId, nat>,
    records: Records,
    closed: set<MatchId>,
    runs: map<MatchId, Run>,
    log: seq<Event>)

  predicate Init(s: State) {
    && (forall m :: m in s.sizes ==> s.sizes[m] >= 1)
    && s.records == map[] && s.closed == {} && s.runs == map[] && s.log == []
  }

  datatype Step =
    | Dispatch(m: MatchId)
    | Start(m: MatchId)
    | Skip(m: MatchId)
    | Begin(m: MatchId)
    | Note(m: MatchId, info: Info)
    | EndBody(m: MatchId, status: string)
    | Record(m: MatchId, escapes: bool)
    | Cancel(m: MatchId)
    | Crash

  predicate Last(s: State, m: MatchId, i: nat)
    requires m in s.sizes
  {
    i + 1 == s.sizes[m]
  }

  predicate Enabled(s: State, step: Step) {
    match step
    case Dispatch(m) => m in s.sizes && m !in s.closed && m !in s.runs
    case Start(m) => m in s.sizes && m in s.runs && s.runs[m].Ready?
    case Skip(m) => m in s.sizes && m in s.runs && s.runs[m].Created?
                    && s.runs[m].apriori.Some? && Completed(s.runs[m].apriori.value)
    case Begin(m) => m in s.sizes && m in s.runs && s.runs[m].Created?
                     && !(s.runs[m].apriori.Some? && Completed(s.runs[m].apriori.value))
    case Note(m, info) => m in s.sizes && m in s.runs && s.runs[m].Body? && STATUS !in info
    case EndBody(m, status) => m in s.sizes && m in s.runs && s.runs[m].Body? && status in COMPLETED_STATUSES
    case Record(m, _) => m in s.sizes && m in s.runs && s.runs[m].Finishing?
    case Cancel(m) => m in s.sizes && m in s.runs && (s.runs[m].Ready? || s.runs[m].Created? || s.runs[m].Body?)
    case Crash => true
  }

  function Goto(s: State, m: MatchId, run: Run): State {
    s.(runs := s.runs[m := run])
  }

  function Close(s: State, m: MatchId): State {
    Goto(s.(records := WithoutMatch(s.records, m), closed := s.closed + {m}), m, Halted)
  }

  function Apply(s: State, step: Step): State
    requires Enabled(s, step)
  {
    match step
    case Dispatch(m) => Goto(s, m, Ready(0))
    case Start(m) =>
      var i := s.runs[m].next;
      Goto(s.(records := StartRecords(s.records, Key(m, i))), m, Created(i, Lookup(s.records, Key(m, i))))
    case Skip(m) =>
      var i := s.runs[m].index;
      if Last(s, m, i) then Close(s, m) else Goto(s, m, Ready(i + 1))
    case Begin(m) =>
      var i := s.runs[m].index;
      Goto(s.(log := s.log + [Executed(m, i)]), m, Body(i, s.runs[m].apriori))
    case Note(m, info) =>
      s.(records := Updated(s.records, Key(m, s.runs[m].index), info))
    case EndBody(m, status) =>
      var i := s.runs[m].index;
      Goto(s.(log := s.log + [Ended(m, i)]), m, Finishing(i, status))
    case Record(m, escapes) =>
      var i := s.runs[m].index;
      var s1 := s.(log := s.log + [Recorded(m, i)],
                   records := FinishRecords(s.records, Key(m, i), Last(s, m, i), s.runs[m].status));
      if Last(s, m, i) then Goto(s1.(closed := s.closed + {m}), m, Halted)
      else Goto(s1, m, if escapes then Halted else Ready(i + 1))
    case Cancel(m) => Goto(s, m, Halted)
    case Crash => s.(runs := map[])
  }

  ghost predicate IsRun(s: State, steps: seq<Step>)
    decreases |steps|
  {
    steps == [] || (Enabled(s, steps[0]) && IsRun(Apply(s, steps[0]), steps[1..]))
  }

  ghost function After(s: State, steps: seq<Step>): State
    requires IsRun(s, steps)
    decreases |steps|
  {
    if steps == [] then s else After(Apply(s, steps[0]), steps[1..])
  }

  // --- Invariants ----------------------------------------------------------

  // Records occupy indices 0..k, all of 0..k-1 are completed, and the last
  // action never has a completed record.
  ghost predicate ShapeOk(s: State, m: MatchId)
    requires m in s.sizes
  {
    && (forall i: nat :: Key(m, i) in s.records ==> i < s.sizes[m])
    && (forall i: nat, j: nat :: Key(m, i) in s.records && j < i ==> CompletedAt(s.records, m, j))
    && (forall i: nat :: CompletedAt(s.records, m, i) ==> i + 1 < s.sizes[m])
  }

  ghost predicate RunOk(s: State, m: MatchId)
    requires m in s.sizes
  {
    m in s.runs ==>
      match s.runs[m]
      case Ready(i) => m !in s.closed && i < s.sizes[m] && (forall j: nat :: j < i ==> CompletedAt(s.records, m, j))
      case Created(i, apriori) =>
        m !in s.closed && Key(m, i) in s.records && s.records[Key(m, i)] == apriori.UnwrapOr(STARTED_INFO)
      case Body(i, _) => m !in s.closed && Key(m, i) in s.records && !CompletedAt(s.records, m, i)
      case Finishing(i, status) =>
        && m !in s.closed && Key(m, i) in s.records && !CompletedAt(s.records, m, i)
        && status in COMPLETED_STATUSES && Ended(m, i) in s.log
      case Halted => true
  }

  ghost predicate ClosedOk(s: State, m: MatchId)
    requires m in s.sizes
  {
    m in s.closed ==>
      && (forall i: nat :: Key(m, i) !in s.records)
      && (forall i: nat :: i < s.sizes[m] ==> Ended(m, i) in s.log)
  }

  ghost predicate HistoryOk(s: State, m: MatchId)
    requires m in s.sizes
  {
    && (forall i: nat :: Recorded(m, i) in s.log ==> m in s.closed || CompletedAt(s.records, m, i))
    && (forall i: nat :: CompletedAt(s.records, m, i) ==> Ended(m, i) in s.log)
  }

  ghost predicate MatchOk(s: State, m: MatchId)
    requires m in s.sizes
  {
    s.sizes[m] >= 1 && ShapeOk(s, m) && RunOk(s, m) && ClosedOk(s, m) && HistoryOk(s, m)
  }

  ghost predicate NoReexecution(log: seq<Event>) {
    forall p, q :: 0 <= p < q < |log| && log[p].Recorded? ==> log[q] != Executed(log[p].owner, log[p].index)
  }

  ghost predicate Inv(s: State) {
    && (forall m :: m in s.sizes ==> MatchOk(s, m))
    && NoReexecution(s.log)
  }

  // --- Preservation --------------------------------------------------------

  // A step of another match does not touch this one.
  ghost predicate Untouched(s: State, s': State, m: MatchId) {
    && s'.sizes == s.sizes
    && (forall i: nat :: Lookup(s'.records, Key(m, i)) == Lookup(s.records, Key(m, i)))
    && (m in s'.closed <==> m in s.closed)
    && (m in s'.runs ==> m in s.runs && s'.runs[m] == s.runs[m])
    && s.log <= s'.log
    && (forall p :: |s.log| <= p < |s'.log| ==> s'.log[p].owner != m)
  }

  lemma UntouchedStaysOk(s: State, s': State, m: MatchId)
    requires m in s.sizes && MatchOk(s, m) && Untouched(s, s', m)
    ensures MatchOk(s', m)
  {
    assert forall i: nat :: Key(m, i) in s'.records <==> Lookup(s'.records, Key(m, i)).Some?;
    assert forall i: nat :: Key(m, i) in s.records <==> Lookup(s.records, Key(m, i)).Some?;
    assert forall i: nat :: CompletedAt(s'.records, m, i) <==> CompletedAt(s.records, m, i);
    LogOf(s, s', m);
  }

  lemma LogOf(s: State, s': State, m: MatchId)
    requires Untouched(s, s', m)
    ensures forall e: Event :: e.owner == m ==> (e in s'.log <==> e in s.log)
  {
    forall e: Event | e.owner == m && e in s'.log ensures e in s.log {
      var p :| 0 <= p < |s'.log| && s'.log[p] == e;
      assert s.log[p] == e;
    }
  }

  ghost predicate Concerns(step: Step, m: MatchId) {
    !step.Crash? && step.m == m
  }

  lemma OthersUntouched(s: State, step: Step, m: MatchId)
    requires Enabled(s, step) && !Concerns(step, m)
    ensures Untouched(s, Apply(s, step), m)
  {
  }

  lemma StartKeepsOk(s: State, m: MatchId)
    requires Inv(s) && Enabled(s, Start(m))
    ensures MatchOk(Apply(s, Start(m)), m)
  {
    var i := s.runs[m].next;
    var s' := Apply(s, Start(m));
    assert MatchOk(s, m);
    forall j: nat | j != i ensures Lookup(s'.records, Key(m, j)) == Lookup(s.records, Key(m, j)) {
    }
    assert forall j: nat :: CompletedAt(s'.records, m, j) <==> CompletedAt(s.records, m, j);
  }

  lemma BeginKeepsOk(s: State, m: MatchId)
    requires Inv(s) && Enabled(s, Begin(m))
    ensures MatchOk(Apply(s, Begin(m)), m)
    ensures Recorded(m, s.runs[m].index) !in s.log
  {
    assert MatchOk(s, m);
  }

  lemma NoteKeepsOk(s: State, m: MatchId, info: Info)
    requires Inv(s) && Enabled(s, Note(m, info))
    ensures MatchOk(Apply(s, Note(m, info)), m)
  {
    assert MatchOk(s, m);
    var s' := Apply(s, Note(m, info));
    assert forall j: nat :: CompletedAt(s'.records, m, j) <==> CompletedAt(s.records, m, j);
  }

  lemma EndBodyKeepsOk(s: State, m: MatchId, status: string)
    requires Inv(s) && Enabled(s, EndBody(m, status))
    ensures MatchOk(Apply(s, EndBody(m, status)), m)
  {
    assert MatchOk(s, m);
  }

  lemma RecordKeepsOk(s: State, m: MatchId, escapes: bool)
    requires Inv(s) && Enabled(s, Record(m, escapes))
    ensures MatchOk(Apply(s, Record(m, escapes)), m)
  {
    assert MatchOk(s, m);
    var i := s.runs[m].index;
    var s' := Apply(s, Record(m, escapes));
    if Last(s, m, i) {
      forall j: nat | j < s.sizes[m] ensures Ended(m, j) in s'.log {
        if j < i {
          assert CompletedAt(s.records, m, j);
        }
      }
    } else {
      assert forall j: nat :: CompletedAt(s'.records, m, j) <==> j == i || CompletedAt(s.records, m, j);
    }
  }

  lemma SkipKeepsOk(s: State, m: MatchId)
    requires Inv(s) && Enabled(s, Skip(m))
    ensures MatchOk(Apply(s, Skip(m)), m)
  {
    assert MatchOk(s, m);
    assert CompletedAt(s.records, m, s.runs[m].index);
  }

  lemma LogStaysSafe(s: State, step: Step)
    requires Inv(s) && Enabled(s, step)
    ensures NoReexecution(Apply(s, step).log)
  {
    if step.Begin? {
      BeginKeepsOk(s, step.m);
    }
  }

  lemma StepKeepsInv(s: State, step: Step)
    requires Inv(s) && Enabled(s, step)
    ensures Inv(Apply(s, step))
  {
    var s' := Apply(s, step);
    LogStaysSafe(s, step);
    forall m | m in s'.sizes ensures MatchOk(s', m) {
      assert MatchOk(s, m);
      if !Concerns(step, m) {
        OthersUntouched(s, step, m);
        UntouchedStaysOk(s, s', m);
      } else {
        match step
        case Dispatch(_) =>
        case Start(_) => StartKeepsOk(s, m);
        case Skip(_) => SkipKeepsOk(s, m);
        case Begin(_) => BeginKeepsOk(s, m);
        case Note(_, info) => NoteKeepsOk(s, m, info);
        case EndBody(_, status) => EndBodyKeepsOk(s, m, status);
        case Record(_, escapes) => RecordKeepsOk(s, m, escapes);
        case Cancel(_) =>
      }
    }
  }

  lemma {:induction false} RunKeepsInv(s: State, steps: seq<Step>)
    requires Inv(s) && IsRun(s, steps)
    ensures Inv(After(s, steps))
    decreases |steps|
  {
    if steps != [] {
      StepKeepsInv(s, steps[0]);
      RunKeepsInv(Apply(s, steps[0]), steps[1..]);
    }
  }

  // --- What holds over every run -------------------------------------------

  // The actions of m before k are recorded as completed, the others are not.
  ghost predicate Frontier(records: Records, m: MatchId, k: nat) {
    forall i: nat :: CompletedAt(records, m, i) <==> i < k
  }

  function CountRecords(records: Records, m: MatchId, n: nat): (k: nat)
    ensures k <= n
    ensures forall i: nat :: i < k ==> Key(m, i) in records
    ensures k < n ==> Key(m, k) !in records
  {
    if n == 0 then 0
    else
      var k := CountRecords(records, m, n - 1);
      if k == n - 1 && Key(m, n - 1) in records then n else k
  }

  // The records of m are those of its first k actions; the first c of them,
  // all or all but one, are completed.
  ghost predicate RecordsOfFirst(s: State, m: MatchId, k: nat, c: nat)
    requires m in s.sizes
  {
    && k <= s.sizes[m] && (c == k || c + 1 == k)
    && (forall i: nat :: Key(m, i) in s.records <==> i < k)
    && Frontier(s.records, m, c)
    && (m in s.closed ==> k == 0)
  }

  // Whatever crashed, was cancelled or restarted, the records of a match are
  // those of its first k actions, all but the last of them completed; so the
  // completed ones are a prefix too. A closed match has no record left, and
  // each of its actions ran to its end at least once. An action is never
  // executed after its completion was recorded.
  lemma RecordsOverEveryRun(s: State, steps: seq<Step>, m: MatchId)
    requires Init(s) && IsRun(s, steps) && m in s.sizes
    ensures var e := After(s, steps);
            && m in e.sizes && e.sizes[m] == s.sizes[m]
            && NoReexecution(e.log)
            && (m in e.closed ==> forall i: nat :: i < s.sizes[m] ==> Ended(m, i) in e.log)
            && (exists k: nat, c: nat :: c < s.sizes[m] && RecordsOfFirst(e, m, k, c))
  {
    RunKeepsSizes(s, steps);
    RunKeepsInv(s, steps);
    var e := After(s, steps);
    assert MatchOk(e, m);
    var k := CountRecords(e.records, m, e.sizes[m]);
    var beyond := CompletedAt(e.records, m, k);
    forall i: nat | Key(m, i) in e.records ensures i < k {
    }
    var c := if k > 0 && !CompletedAt(e.records, m, k - 1) then k - 1 else k;
    FrontierOfShape(e, m, c);
    assert RecordsOfFirst(e, m, k, c);
  }

  lemma FrontierOfShape(s: State, m: MatchId, c: nat)
    requires m in s.sizes && ShapeOk(s, m)
    requires !CompletedAt(s.records, m, c) && (c == 0 || CompletedAt(s.records, m, c - 1))
    ensures Frontier(s.records, m, c)
  {
    forall i: nat ensures CompletedAt(s.records, m, i) <==> i < c {
      if CompletedAt(s.records, m, i) {
        assert Key(m, i) in s.records;
      }
    }
  }

  lemma {:induction false} RunKeepsSizes(s: State, steps: seq<Step>)
    requires IsRun(s, steps)
    ensures After(s, steps).sizes == s.sizes
    decreases |steps|
  {
    if steps != [] {
      RunKeepsSizes(Apply(s, steps[0]), steps[1..]);
    }
  }

  // --- One process life ----------------------------------------------------

  // The indices of m whose bodies the log says were executed.
  ghost function Executions(log: seq<Event>, m: MatchId): seq<nat> {
    if log == [] then []
    else
      var last := log[|log| - 1];
      Executions(log[..|log| - 1], m) + if last.Executed? && last.owner == m then [last.index] else []
  }

  ghost function Range(from: nat, to: nat): seq<nat> {
    if to <= from then [] else Range(from, to - 1) + [to - 1]
  }

  ghost function Max(a: nat, b: nat): nat {
    if a < b then b else a
  }

  // Where a life that started with k completed actions has got to.
  ghost predicate LifeOk(s: State, m: MatchId, k: nat, base: nat, hi: nat) {
    && m in s.sizes && base <= |s.log|
    && Executions(s.log[base..], m) == Range(k, hi)
    && (m !in s.runs ==> hi == k && Frontier(s.records, m, k) && m !in s.closed)
    && (m in s.runs ==>
          match s.runs[m]
          case Ready(i) => hi == Max(i, k) && Frontier(s.records, m, hi)
          case Created(i, _) => hi == Max(i, k) && Frontier(s.records, m, hi)
          case Body(i, _) => i >= k && hi == i + 1 && Frontier(s.records, m, i)
          case Finishing(i, _) => i >= k && hi == i + 1 && Frontier(s.records, m, i)
          case Halted => m in s.closed ==> hi == s.sizes[m])
  }

  lemma ExecutionsSnoc(log: seq<Event>, e: Event, m: MatchId)
    ensures Executions(log + [e], m) == Executions(log, m) + if e.Executed? && e.owner == m then [e.index] else []
  {
    assert (log + [e])[..|log|] == log;
  }

  // What a step appends to the log.
  ghost function Logged(s: State, step: Step): seq<Event>
    requires Enabled(s, step)
  {
    match step
    case Begin(m) => [Executed(m, s.runs[m].index)]
    case EndBody(m, _) => [Ended(m, s.runs[m].index)]
    case Record(m, _) => [Recorded(m, s.runs[m].index)]
    case _ => []
  }

  lemma LifeLog(s: State, step: Step, m: MatchId, base: nat)
    requires Enabled(s, step) && base <= |s.log|
    ensures Executions(Apply(s, step).log[base..], m)
            == Executions(s.log[base..], m) + if step.Begin? && step.m == m then [s.runs[m].index] else []
  {
    var s', added := Apply(s, step), Logged(s, step);
    assert s'.log == s.log + added;
    assert s'.log[base..] == s.log[base..] + added;
    if added != [] {
      ExecutionsSnoc(s.log[base..], added[0], m);
    }
  }

  lemma CompletedUnchanged(s: State, step: Step, m: MatchId)
    requires Inv(s) && Enabled(s, step) && m in s.sizes
    requires !(Concerns(step, m) && (step.Record? || step.Skip?))
    ensures forall i: nat :: CompletedAt(Apply(s, step).records, m, i) <==> CompletedAt(s.records, m, i)
  {
    assert MatchOk(s, m);
    if !Concerns(step, m) {
      OthersUntouched(s, step, m);
      var s' := Apply(s, step);
      forall i: nat ensures CompletedAt(s'.records, m, i) <==> CompletedAt(s.records, m, i) {
        assert Lookup(s'.records, Key(m, i)) == Lookup(s.records, Key(m, i));
      }
    }
  }

  lemma LifeStep(s: State, step: Step, m: MatchId, k: nat, base: nat, hi: nat) returns (hi': nat)
    requires Inv(s) && Enabled(s, step) && !step.Crash? && LifeOk(s, m, k, base, hi)
    ensures LifeOk(Apply(s, step), m, k, base, hi')
  {
    LifeLog(s, step, m, base);
    hi' := hi;
    assert MatchOk(s, m);
    if !Concerns(step, m) {
      LifeOther(s, step, m, k, base, hi);
    } else if step.Begin? {
      var i := s.runs[m].index;
      assert !CompletedAt(s.records, m, i);
      hi' := i + 1;
    } else if step.Record? {
      LifeRecord(s, m, step.escapes, k, base, hi);
    } else if step.Skip? {
      assert CompletedAt(s.records, m, s.runs[m].index);
    } else {
      CompletedUnchanged(s, step, m);
    }
  }

  lemma LifeOther(s: State, step: Step, m: MatchId, k: nat, base: nat, hi: nat)
    requires Inv(s) && Enabled(s, step) && !step.Crash? && !Concerns(step, m) && LifeOk(s, m, k, base, hi)
    ensures LifeOk(Apply(s, step), m, k, base, hi)
  {
    var s' := Apply(s, step);
    LifeLog(s, step, m, base);
    CompletedUnchanged(s, step, m);
    OthersUntouched(s, step, m);
    assert m in s'.runs <==> m in s.runs;
  }

  lemma LifeRecord(s: State, m: MatchId, escapes: bool, k: nat, base: nat, hi: nat)
    requires Inv(s) && Enabled(s, Record(m, escapes)) && LifeOk(s, m, k, base, hi)
    ensures LifeOk(Apply(s, Record(m, escapes)), m, k, base, hi)
  {
    assert MatchOk(s, m);
    LifeLog(s, Record(m, escapes), m, base);
    var i, s' := s.runs[m].index, Apply(s, Record(m, escapes));
    if !Last(s, m, i) {
      assert forall j: nat :: CompletedAt(s'.records, m, j) <==> j == i || CompletedAt(s.records, m, j);
    }
  }

  lemma {:induction false} LifeRun(s: State, steps: seq<Step>, m: MatchId, k: nat, base: nat, hi: nat) returns (hi': nat)
    requires Inv(s) && IsRun(s, steps) && Crash !in steps && LifeOk(s, m, k, base, hi)
    ensures LifeOk(After(s, steps), m, k, base, hi')
    decreases |steps|
  {
    hi' := hi;
    if steps != [] {
      assert steps[0] in steps && forall e :: e in steps[1..] ==> e in steps;
      hi' := LifeStep(s, steps[0], m, k, base, hi);
      StepKeepsInv(s, steps[0]);
      hi' := LifeRun(Apply(s, steps[0]), steps[1..], m, k, base, hi');
    }
  }

  // One process life, from the restart on: the actions of a match it executes
  // are k, k+1, ..., hi-1 in this order, each once, where the actions before k
  // were recorded as completed by earlier lives. If the match is closed in
  // this life, hi is the number of its actions, so exactly the unrecorded ones
  // were executed.
  lemma ResumeExecutesExactlyTheRest(s: State, steps: seq<Step>, m: MatchId, k: nat)
    requires Inv(s) && m in s.sizes && m !in s.runs && m !in s.closed && Frontier(s.records, m, k)
    requires IsRun(s, steps) && Crash !in steps
    ensures var e := After(s, steps);
            exists hi: nat ::
              && |s.log| <= |e.log| && Executions(e.log[|s.log|..], m) == Range(k, hi)
              && (m in e.closed ==> hi == s.sizes[m])
  {
    assert s.log[|s.log|..] == [];
    var hi := LifeRun(s, steps, m, k, |s.log|, k);
    RunKeepsSizes(s, steps);
    RunKeepsInv(s, steps);
    assert MatchOk(After(s, steps), m);
  }

  // Cancelling an action that has not finished its body leaves its record, and
  // the next life starts from it.
  lemma CancelledActionIsResumed(s: State, m: MatchId)
    requires Inv(s) && Enabled(s, Cancel(m)) && (s.runs[m].Body? || Enabled(s, Begin(m)))
    ensures var e := Apply(Apply(s, Cancel(m)), Crash);
            e.records == s.records && Key(m, s.runs[m].index) in e.records
            && Frontier(e.records, m, s.runs[m].index) && Enabled(e, Dispatch(m))
  {
    assert MatchOk(s, m);
    var i := s.runs[m].index;
    assert !CompletedAt(s.records, m, i);
    if i > 0 {
      assert CompletedAt(s.records, m, i - 1);
    }
    FrontierOfShape(s, m, i);
  }

  // What an action notes while it runs is merged into its record and survives a
  // crash; the action stays the first one not completed, and is read with it.
  lemma NotesAreKept(s: State, m: MatchId, info: Info)
    requires Inv(s) && Enabled(s, Note(m, info))
    ensures var i, e := s.runs[m].index, Apply(Apply(s, Note(m, info)), Crash);
            && Key(m, i) in s.records && e.records == s.records[Key(m, i) := s.records[Key(m, i)] + info]
            && Frontier(e.records, m, i) && Enabled(e, Dispatch(m))
  {
    StepKeepsInv(s, Note(m, info));
    var i, s1 := s.runs[m].index, Apply(s, Note(m, info));
    assert MatchOk(s, m) && MatchOk(s1, m);
    if i > 0 {
      assert CompletedAt(s1.records, m, i - 1);
    }
    FrontierOfShape(s1, m, i);
  }

  // Finishing the last action leaves no record of the match, of any index.
  lemma LastActionClearsMatch(s: State, m: MatchId, escapes: bool)
    requires Inv(s) && Enabled(s, Record(m, escapes)) && Last(s, m, s.runs[m].index)
    ensures var e := Apply(s, Record(m, escapes));
            && (forall i: nat :: Key(m, i) !in e.records)
            && (forall o: Key :: o.owner != m ==> Lookup(e.records, o) == Lookup(s.records, o))
            && !Enabled(Apply(e, Crash), Dispatch(m))
  {
  }

  lemma OneStep(s: State, step: Step)
    requires Enabled(s, step)
    ensures IsRun(s, [step]) && After(s, [step]) == Apply(s, step)
  {
    assert [step][1..] == [];
  }

  lemma RunsPrepend(s: State, step: Step, steps: seq<Step>)
    requires Enabled(s, step) && IsRun(Apply(s, step), steps)
    ensures IsRun(s, [step] + steps) && After(s, [step] + steps) == After(Apply(s, step), steps)
  {
    assert ([step] + steps)[1..] == steps;
  }

  lemma {:induction false} RunsCompose(s: State, a: seq<Step>, b: seq<Step>)
    requires IsRun(s, a) && IsRun(After(s, a), b)
    ensures IsRun(s, a + b) && After(s, a + b) == After(After(s, a), b)
    decreases |a|
  {
    if a == [] {
      assert a + b == b;
    } else {
      RunsCompose(Apply(s, a[0]), a[1..], b);
      assert (a + b)[1..] == a[1..] + b;
    }
  }
}
