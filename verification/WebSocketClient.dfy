/**
 The reconnecting websocket client around the event log sender: which failures
 it retries, when it refreshes the token, and how long it waits.
 */
module WebSocketClient {
  import opened Wrappers
  import opened EventLogSender

  const BACKOFF_MIN: real := 1.92
  const BACKOFF_MAX: real := 60.0
  const BACKOFF_FACTOR: real := 1.618
  const BACKOFF_INITIAL: real := 5.0
  const WS_TRANSIENT_CLOSE_CODES := {1001, 1006, 1011, 1012, 1013}
  const FORBIDDEN := 403

  // One attempt to connect: accepted, with what happens on the connection, or
  // the exception it ends with.
  datatype Attempt = Accepted(script: seq<Happening>) | Fails(failure: Failure)

  // What the client meets when it waits after an attempt: the random number
  // drawn, and whether the sleep or the token renewal comes to its end or is
  // cancelled or raises.
  datatype Pause = Pause(jitter: real, completes: bool)

  ghost predicate PausesOk(pauses: nat -> Pause) {
    forall i: nat :: 0.0 <= pauses(i).jitter < 1.0
  }

  datatype Action =
    | Connects
    | RefreshesToken
    | Waits(seconds: real)

  datatype Outcome = Returned | Aborted | Waiting

  predicate BackoffOk(backoff: real) {
    BACKOFF_MIN <= backoff <= BACKOFF_MAX
  }

  // _wait_before_retry: how long to sleep and the next delay.
  function WaitBeforeRetry(backoff: real, jitter: real): (r: (real, real))
    requires BackoffOk(backoff) && 0.0 <= jitter < 1.0
    ensures 0.0 <= r.0 <= BACKOFF_MAX && BackoffOk(r.1) && r.1 >= backoff
    ensures r.1 > backoff || backoff == BACKOFF_MAX
  {
    var sleep := if backoff == BACKOFF_MIN then jitter * BACKOFF_INITIAL else backoff.Floor as real;
    var next := backoff * BACKOFF_FACTOR;
    (sleep, if next < BACKOFF_MAX then next else BACKOFF_MAX)
  }

  predicate IsTransient(code: Option<int>) {
    code.None? || code.value in WS_TRANSIENT_CLOSE_CODES
  }

  // At most one token refresh between two connections.
  predicate RefreshesOncePerConnection(actions: seq<Action>) {
    forall i, j :: 0 <= i < j < |actions| && actions[i].RefreshesToken? && actions[j].RefreshesToken? ==>
      exists k :: i < k < j && actions[k].Connects?
  }

  predicate WaitsBounded(actions: seq<Action>) {
    forall i :: 0 <= i < |actions| && actions[i].Waits? ==> 0.0 <= actions[i].seconds <= BACKOFF_MAX
  }

  // The last refresh was before the last connection.
  predicate MayRefresh(actions: seq<Action>) {
    forall i :: 0 <= i < |actions| && actions[i].RefreshesToken? ==>
      exists k :: i < k < |actions| && actions[k].Connects?
  }

  lemma RefreshLater(actions: seq<Action>, a: Action)
    requires RefreshesOncePerConnection(actions) && (a.RefreshesToken? ==> MayRefresh(actions))
    ensures RefreshesOncePerConnection(actions + [a])
    ensures a.Connects? ==> MayRefresh(actions + [a])
    ensures !a.RefreshesToken? && MayRefresh(actions) ==> MayRefresh(actions + [a])
  {
    var longer := actions + [a];
    forall i, j | 0 <= i < j < |longer| && longer[i].RefreshesToken? && longer[j].RefreshesToken?
      ensures exists k :: i < k < j && longer[k].Connects?
    {
      if j < |actions| {
        var k :| i < k < j && actions[k].Connects?;
        assert longer[k].Connects?;
      } else {
        var k :| i < k < |actions| && actions[k].Connects?;
        assert longer[k].Connects?;
      }
    }
    if a.Connects? {
      assert longer[|actions|].Connects?;
    } else if MayRefresh(actions) && !a.RefreshesToken? {
      forall i | 0 <= i < |longer| && longer[i].RefreshesToken? ensures exists k :: i < k < |longer| && longer[k].Connects? {
        var k :| i < k < |actions| && actions[k].Connects?;
        assert longer[k].Connects?;
      }
    }
  }

  // What the loop keeps about the actions so far.
  predicate ActionsOk(actions: seq<Action>, refreshToken: bool) {
    WaitsBounded(actions) && RefreshesOncePerConnection(actions) && (refreshToken ==> MayRefresh(actions))
  }

  lemma Connected(actions: seq<Action>, refreshToken: bool)
    requires ActionsOk(actions, refreshToken)
    ensures ActionsOk(actions + [Connects], true)
  {
    RefreshLater(actions, Connects);
  }

  lemma Refreshed(actions: seq<Action>)
    requires ActionsOk(actions, true)
    ensures ActionsOk(actions + [RefreshesToken], false)
  {
    RefreshLater(actions, RefreshesToken);
  }

  lemma Waited(actions: seq<Action>, seconds: real, refreshToken: bool)
    requires ActionsOk(actions, refreshToken) && 0.0 <= seconds <= BACKOFF_MAX
    ensures ActionsOk(actions + [Waits(seconds)], refreshToken)
  {
    RefreshLater(actions, Waits(seconds));
  }

  // What to do after an exception, raised by connecting or by the handler.
  datatype Reaction = Retry | Refresh | Raise

  function React(failure: Failure, retryOnClose: bool, refreshToken: bool): Reaction {
    match failure
    case Cancelled => Raise
    case InvalidStatus(status) => if refreshToken && status == FORBIDDEN then Refresh else Raise
    case TimedOut => if retryOnClose then Retry else Raise
    case OsError(refused) => if refused then Retry else Raise
    case ClosedError(code) => if retryOnClose && IsTransient(code) then Retry else Raise
    case ClosedOk => if retryOnClose then Retry else Raise
    case InvalidMessage => if retryOnClose then Retry else Raise
    case OtherError => Raise
  }

  // Where the loop is after some attempts; over says that it was left.
  datatype Progress = Progress(history: History, refreshToken: bool, backoff: real, actions: seq<Action>,
                               outcome: Outcome, over: bool)

  // One attempt.
  function Attempted(p: Progress, attempt: Attempt, retryOnClose: bool, pause: Pause): (r: Progress)
    requires BackoffOk(p.backoff) && 0.0 <= pause.jitter < 1.0
    ensures BackoffOk(r.backoff)
  {
    match attempt
    case Fails(failure) => Reacted(p, failure, retryOnClose, pause)
    case Accepted(script) =>
      var (history, end) := Course(p.history, Resends(p.history), script);
      var q := Progress(history, true, BACKOFF_MIN, p.actions + [Connects], Waiting, false);
      match end
      case Exited => q.(outcome := Returned, over := true)
      case StillRunning => q.(over := true)
      case Raised(failure) => Reacted(q, failure, retryOnClose, pause)
  }

  function Reacted(p: Progress, failure: Failure, retryOnClose: bool, pause: Pause): (r: Progress)
    requires BackoffOk(p.backoff) && 0.0 <= pause.jitter < 1.0
    ensures BackoffOk(r.backoff)
  {
    match React(failure, retryOnClose, p.refreshToken)
    case Raise => Left(p)
    case Refresh =>
      var q := p.(actions := p.actions + [RefreshesToken]);
      if pause.completes then q.(refreshToken := false) else Left(q.(refreshToken := false))
    case Retry =>
      var wait := WaitBeforeRetry(p.backoff, pause.jitter);
      var q := p.(actions := p.actions + [Waits(wait.0)]);
      if pause.completes then q.(backoff := wait.1) else Left(q)
  }

  // The loop is left by an exception.
  function Left(p: Progress): Progress {
    p.(outcome := Aborted, over := true)
  }

  function Attempts(h: History, attempts: seq<Attempt>, retryOnClose: bool, pauses: nat -> Pause): (r: Progress)
    requires PausesOk(pauses)
    ensures BackoffOk(r.backoff)
  {
    if attempts == [] then Progress(h, true, BACKOFF_MIN, [], Waiting, false)
    else
      var n := |attempts| - 1;
      var p := Attempts(h, attempts[..n], retryOnClose, pauses);
      if p.over then p else Attempted(p, attempts[n], retryOnClose, pauses(n))
  }

  lemma {:induction false} OverStops(h: History, attempts: seq<Attempt>, n: nat, retryOnClose: bool,
                                     pauses: nat -> Pause)
    requires PausesOk(pauses)
    requires n <= |attempts| && Attempts(h, attempts[..n], retryOnClose, pauses).over
    ensures Attempts(h, attempts, retryOnClose, pauses) == Attempts(h, attempts[..n], retryOnClose, pauses)
    decreases |attempts|
  {
    if n == |attempts| {
      assert attempts[..n] == attempts;
    } else {
      assert attempts[..|attempts| - 1][..n] == attempts[..n];
      OverStops(h, attempts[..|attempts| - 1], n, retryOnClose, pauses);
    }
  }

  lemma ReactedKeeps(p: Progress, failure: Failure, retryOnClose: bool, pause: Pause)
    requires BackoffOk(p.backoff) && 0.0 <= pause.jitter < 1.0
    requires ActionsOk(p.actions, p.refreshToken) && p.outcome.Waiting? && !p.over
    ensures var r := Reacted(p, failure, retryOnClose, pause);
            && ActionsOk(r.actions, r.refreshToken) && r.history == p.history
            && r.outcome == if r.over then Aborted else Waiting
  {
    match React(failure, retryOnClose, p.refreshToken)
    case Raise =>
    case Refresh => Refreshed(p.actions);
    case Retry => Waited(p.actions, WaitBeforeRetry(p.backoff, pause.jitter).0, p.refreshToken);
  }

  // The failures after which the client waits and connects again.
  predicate Retryable(failure: Failure, retryOnClose: bool) {
    match failure
    case OsError(refused) => refused
    case ClosedError(code) =>
      retryOnClose && (code.None? || code.value == 1001 || code.value == 1006 || 1011 <= code.value <= 1013)
    case TimedOut => retryOnClose
    case ClosedOk => retryOnClose
    case InvalidMessage => retryOnClose
    case _ => false
  }

  lemma ReactsTo(failure: Failure, retryOnClose: bool, refreshToken: bool)
    ensures React(failure, retryOnClose, refreshToken)
            == if Retryable(failure, retryOnClose) then Retry
               else if failure == InvalidStatus(403) && refreshToken then Refresh
               else Raise
  {
  }

  // A failure, of connecting or of the handler, is waited out, answered with a
  // new token or ends the client, exactly so.
  lemma FailureDecides(p: Progress, failure: Failure, retryOnClose: bool, pause: Pause)
    requires BackoffOk(p.backoff) && 0.0 <= pause.jitter < 1.0 && !p.over
    ensures var r := Reacted(p, failure, retryOnClose, pause);
            && r.history == p.history
            && (if Retryable(failure, retryOnClose) then
                  && (exists seconds :: r.actions == p.actions + [Waits(seconds)])
                  && (r.over <==> !pause.completes)
                else if failure == InvalidStatus(403) && p.refreshToken then
                  && r.actions == p.actions + [RefreshesToken] && !r.refreshToken && r.backoff == p.backoff
                  && (r.over <==> !pause.completes)
                else r.over && r.actions == p.actions)
            && (r.over ==> r.outcome.Aborted?)
  {
    ReactsTo(failure, retryOnClose, p.refreshToken);
    if Retryable(failure, retryOnClose) {
      var seconds := WaitBeforeRetry(p.backoff, pause.jitter).0;
      assert Reacted(p, failure, retryOnClose, pause).actions == p.actions + [Waits(seconds)];
    }
  }

  // What the loop keeps.
  predicate ProgressOk(h: History, p: Progress) {
    && ActionsOk(p.actions, p.refreshToken) && Conserved(p.history) && Extends(h, p.history)
    && (!p.over ==> p.outcome.Waiting?)
    && (p.outcome.Returned? ==> EndOk(p.history, Exited))
  }

  // Over any sequence of attempts the sender's history stays conserved, waits
  // are bounded, the token is refreshed at most once between two connections,
  // and a normal return means that Exit is next.
  lemma {:induction false} AttemptsKeep(h: History, attempts: seq<Attempt>, retryOnClose: bool, pauses: nat -> Pause)
    requires Conserved(h) && PausesOk(pauses)
    ensures ProgressOk(h, Attempts(h, attempts, retryOnClose, pauses))
  {
    if attempts != [] {
      var n := |attempts| - 1;
      AttemptsKeep(h, attempts[..n], retryOnClose, pauses);
      var p, a := Attempts(h, attempts[..n], retryOnClose, pauses), attempts[n];
      if !p.over {
        OneAttemptKeeps(h, p, a, retryOnClose, pauses(n));
      }
    }
  }

  lemma {:induction false} OneAttemptKeeps(h: History, p: Progress, a: Attempt, retryOnClose: bool, pause: Pause)
    requires BackoffOk(p.backoff) && 0.0 <= pause.jitter < 1.0 && !p.over && ProgressOk(h, p)
    ensures ProgressOk(h, Attempted(p, a, retryOnClose, pause))
  {
    match a
    case Fails(failure) => ReactedKeeps(p, failure, retryOnClose, pause);
    case Accepted(script) =>
      CourseConserves(p.history, Resends(p.history), script);
      Connected(p.actions, p.refreshToken);
      var (history, end) := Course(p.history, Resends(p.history), script);
      if end.Raised? {
        var connected := Progress(history, true, BACKOFF_MIN, p.actions + [Connects], Waiting, false);
        ReactedKeeps(connected, end.failure, retryOnClose, pause);
      }
  }

  // All that was put before Exit was sent in order, and the peer saw it in that
  // order with nothing else but immediate repeats.
  ghost predicate DeliveredUpToExit(h: History) {
    exists rest :: h.put == Sent(h.handled) + [EXIT_EVENT] + rest && Stutters(h.peer, Sent(h.handled))
  }

  lemma ReturnMeansDelivered(h: History)
    requires Conserved(h) && EndOk(h, Exited) && forall e :: e in h.put ==> Truthy(e)
    ensures DeliveredUpToExit(h)
  {
    assert h.queue == [EXIT_EVENT] + h.queue[1..];
    ExitMeansAllSent(h, h.queue[1..]);
  }

  // _connect_websocket with the event log handler: the attempts one after the
  // other, until one returns or is not retried.
  method ConnectWebsocket(logs: EventLogQueue, retryOnClose: bool, attempts: seq<Attempt>, pauses: nat -> Pause)
    returns (outcome: Outcome, actions: seq<Action>)
    requires logs.Valid() && PausesOk(pauses)
    modifies logs
    ensures var p := Attempts(old(logs.history), attempts, retryOnClose, pauses);
            logs.history == p.history && outcome == p.outcome && actions == p.actions
    ensures !outcome.Returned? ==> logs.Valid()
    ensures outcome.Returned? ==> logs.Stopped(Exited)
    ensures outcome.Returned? && (forall e :: e in logs.history.put ==> Truthy(e)) ==> DeliveredUpToExit(logs.history)
  {
    AttemptsKeep(logs.history, attempts, retryOnClose, pauses);
    outcome, actions := RunAttempts(logs, retryOnClose, attempts, pauses);
    if outcome.Returned? && forall e :: e in logs.history.put ==> Truthy(e) {
      ReturnMeansDelivered(logs.history);
    }
  }

  // Its loop.
  method RunAttempts(logs: EventLogQueue, retryOnClose: bool, attempts: seq<Attempt>, pauses: nat -> Pause)
    returns (outcome: Outcome, actions: seq<Action>)
    requires logs.Valid() && PausesOk(pauses)
    modifies logs
    ensures var p := Attempts(old(logs.history), attempts, retryOnClose, pauses);
            logs.history == p.history && outcome == p.outcome && actions == p.actions
    ensures if outcome.Returned? then logs.Stopped(Exited) else logs.Valid()
  {
    actions := [];
    var refreshToken := true;
    var backoff := BACKOFF_MIN;
    for i := 0 to |attempts|
      invariant logs.Valid() && BackoffOk(backoff)
      invariant Attempts(old(logs.history), attempts[..i], retryOnClose, pauses)
                == Progress(logs.history, refreshToken, backoff, actions, Waiting, false)
    {
      assert attempts[..i + 1][..i] == attempts[..i];
      OverAfter(old(logs.history), attempts, i, retryOnClose, pauses);
      var failure;
      match attempts[i] {
        case Fails(f) =>
          failure := f;
        case Accepted(script) =>
          backoff, refreshToken := BACKOFF_MIN, true;
          actions := actions + [Connects];
          var end := logs.HandleSendEventLog(script);
          match end {
            case Exited => return Returned, actions;
            case StillRunning => return Waiting, actions;
            case Raised(f) => failure := f;
          }
      }
      match React(failure, retryOnClose, refreshToken) {
        case Raise => return Aborted, actions;
        case Refresh =>
          actions := actions + [RefreshesToken];
          if !pauses(i).completes {
            return Aborted, actions;
          }
          refreshToken := false;
        case Retry =>
          var wait := WaitBeforeRetry(backoff, pauses(i).jitter);
          actions := actions + [Waits(wait.0)];
          if !pauses(i).completes {
            return Aborted, actions;
          }
          backoff := wait.1;
      }
    }
    assert attempts[..|attempts|] == attempts;
    outcome := Waiting;
  }

  lemma {:induction false} OverAfter(h: History, attempts: seq<Attempt>, i: nat, retryOnClose: bool,
                                     pauses: nat -> Pause)
    requires PausesOk(pauses)
    requires i < |attempts| && !Attempts(h, attempts[..i], retryOnClose, pauses).over
    ensures var p := Attempted(Attempts(h, attempts[..i], retryOnClose, pauses), attempts[i], retryOnClose, pauses(i));
            && Attempts(h, attempts[..i + 1], retryOnClose, pauses) == p
            && (p.over ==> Attempts(h, attempts, retryOnClose, pauses) == p)
  {
    assert attempts[..i + 1][..i] == attempts[..i];
    if Attempts(h, attempts[..i + 1], retryOnClose, pauses).over {
      OverStops(h, attempts, i + 1, retryOnClose, pauses);
    }
  }

  // An empty event whose send fails is lost: the next connection sends the one
  // after it.
  lemma {:induction false} EmptyEventLost(empty: Event, e: Event, delivered: bool, pauses: nat -> Pause)
    requires PausesOk(pauses) && pauses(0).completes
    requires !Truthy(empty) && empty != EXIT_EVENT && e != EXIT_EVENT
    ensures var attempts := [Accepted([SendFails(delivered, ClosedOk)]), Accepted([SendOk])];
            var h := Attempts(History([empty, e], [empty, e], None, 0, [], []), attempts, true, pauses).history;
            Sent(h.handled) == [e] && h.queue == [] && h.slot.None?
  {
    var h := History([empty, e], [empty, e], None, 0, [], []);
    var h1 := AfterFailedSend(AfterTake(h), delivered);
    var h2 := AfterSend(AfterTake(h1));
    FailedSendCourse(h, delivered, ClosedOk);
    SendCourse(h1);
    TwoConnections(h, [SendFails(delivered, ClosedOk)], [SendOk], pauses);
    SeenSnoc([], Handled(empty, false, h1.receipts));
    SeenSnoc([Handled(empty, false, h1.receipts)], Handled(e, true, 1));
    assert h2.handled == [Handled(empty, false, h1.receipts)] + [Handled(e, true, 1)];
  }

  lemma FailedSendCourse(h: History, delivered: bool, failure: Failure)
    requires h.queue != [] && h.queue[0] != EXIT_EVENT
    ensures Course(h, false, [SendFails(delivered, failure)])
            == (AfterFailedSend(AfterTake(h), delivered), Raised(failure))
  {
    assert Course(h, false, [SendFails(delivered, failure)])
           == Course(AfterTake(h), true, [SendFails(delivered, failure)]);
  }

  lemma SendCourse(h: History)
    requires |h.queue| == 1 && h.queue[0] != EXIT_EVENT
    ensures Course(h, false, [SendOk]) == (AfterSend(AfterTake(h)), StillRunning)
  {
    var taken := AfterTake(h);
    assert Course(h, false, [SendOk]) == Course(taken, true, [SendOk]);
    assert Course(taken, true, [SendOk]) == Course(AfterSend(taken), false, [SendOk][1..]);
    assert [SendOk][1..] == [] && AfterSend(taken).queue == [];
  }

  lemma {:induction false} TwoConnections(h: History, first: seq<Happening>, second: seq<Happening>,
                                          pauses: nat -> Pause)
    requires PausesOk(pauses) && pauses(0).completes && Course(h, Resends(h), first).1 == Raised(ClosedOk)
    ensures var h1 := Course(h, Resends(h), first).0;
            var h2 := Course(h1, Resends(h1), second);
            !h2.1.Raised? ==> Attempts(h, [Accepted(first), Accepted(second)], true, pauses).history == h2.0
  {
    var a, b := Accepted(first), Accepted(second);
    assert [a, b][..1] == [a] && [a][..0] == [];
    var p0 := Progress(h, true, BACKOFF_MIN, [], Waiting, false);
    assert Attempts(h, [], true, pauses) == p0;
    var p1 := Attempted(p0, a, true, pauses(0));
    assert Attempts(h, [a], true, pauses) == p1 && !p1.over;
    assert Attempts(h, [a, b], true, pauses) == Attempted(p1, b, true, pauses(1));
  }
}
