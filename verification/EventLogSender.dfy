/**
 The feedback websocket: events leave a queue one at a time and stay in a
 one-slot buffer until they are sent, across any number of disconnects. What
 the network and the producers do is a script, consumed at each wait.
 */
module EventLogSender {
  import opened Wrappers
  import opened Sequences

  type Event = map<string, string>

  const EXIT_EVENT: Event := map["type" := "Exit"]

  // The truth value of a dict.
  predicate Truthy(e: Event) {
    e != map[]
  }

  // What connecting or the handler can raise. ClosedError is
  // ConnectionClosedError with the code received, if any.
  datatype Failure =
    | Cancelled
    | InvalidStatus(status: int)
    | TimedOut
    | OsError(refused: bool)
    | ClosedError(code: Option<int>)
    | ClosedOk
    | InvalidMessage
    | OtherError

  // While the handler runs: an event is put, a send completes, a send fails
  // although the peer may have got the event, or a wait is cancelled.
  datatype Happening =
    | Arrives(event: Event)
    | SendOk
    | SendFails(delivered: bool, failure: Failure)
    | Interrupted

  datatype HandlerEnd = Exited | Raised(failure: Failure) | StillRunning

  // --- Delivery, said over whole histories -----------------------------------

  // An event that left the slot: whether it was sent, and how often the peer
  // received it.
  datatype Handled = Handled(event: Event, sent: bool, receipts: nat)

  function Events(handled: seq<Handled>): (r: seq<Event>)
    ensures |r| == |handled| && forall i :: 0 <= i < |r| ==> r[i] == handled[i].event
  {
    seq(|handled|, i requires 0 <= i < |handled| => handled[i].event)
  }

  function Repeat(e: Event, n: nat): seq<Event> {
    if n == 0 then [] else Repeat(e, n - 1) + [e]
  }

  // What the peer saw: each event as often as it was received, in order.
  function Seen(handled: seq<Handled>): seq<Event> {
    if handled == [] then []
    else Seen(handled[..|handled| - 1]) + Repeat(handled[|handled| - 1].event, handled[|handled| - 1].receipts)
  }

  function SlotSeq(slot: Option<Event>): seq<Event> {
    if slot.Some? then [slot.value] else []
  }

  // Only an empty event can leave the slot unsent; a sent one was received.
  predicate HandledOk(handled: seq<Handled>) {
    forall i :: 0 <= i < |handled| ==>
      if handled[i].sent then handled[i].receipts >= 1 else !Truthy(handled[i].event)
  }

  // The events sent, in order.
  function Sent(handled: seq<Handled>): seq<Event> {
    if handled == [] then []
    else Sent(handled[..|handled| - 1])
         + if handled[|handled| - 1].sent then [handled[|handled| - 1].event] else []
  }

  lemma {:induction false} SeenSnoc(handled: seq<Handled>, x: Handled)
    ensures Seen(handled + [x]) == Seen(handled) + Repeat(x.event, x.receipts)
    ensures Sent(handled + [x]) == Sent(handled) + if x.sent then [x.event] else []
  {
    assert (handled + [x])[..|handled|] == handled;
  }

  lemma {:induction false} AllTruthyAllSent(handled: seq<Handled>)
    requires HandledOk(handled) && forall i :: 0 <= i < |handled| ==> Truthy(handled[i].event)
    ensures Sent(handled) == Events(handled)
  {
    if handled != [] {
      AllTruthyAllSent(handled[..|handled| - 1]);
    }
  }

  // peer is events with each one repeated at once, at least one time each.
  ghost predicate Stutters(peer: seq<Event>, events: seq<Event>) {
    exists counts: seq<nat> :: |counts| == |events| && (forall i :: 0 <= i < |counts| ==> counts[i] >= 1)
                               && peer == Expand(events, counts)
  }

  function Expand(events: seq<Event>, counts: seq<nat>): seq<Event>
    requires |counts| == |events|
  {
    if events == [] then []
    else Expand(events[..|events| - 1], counts[..|counts| - 1]) + Repeat(events[|events| - 1], counts[|counts| - 1])
  }

  lemma {:induction false} SeenStutters(handled: seq<Handled>)
    requires HandledOk(handled) && forall i :: 0 <= i < |handled| ==> Truthy(handled[i].event)
    ensures Stutters(Seen(handled), Events(handled))
  {
    var counts := seq(|handled|, i requires 0 <= i < |handled| => handled[i].receipts);
    SeenIsExpand(handled);
    assert Seen(handled) == Expand(Events(handled), counts);
  }

  lemma {:induction false} SeenIsExpand(handled: seq<Handled>)
    ensures Seen(handled) == Expand(Events(handled), seq(|handled|, i requires 0 <= i < |handled| => handled[i].receipts))
  {
    if handled != [] {
      var n := |handled| - 1;
      SeenIsExpand(handled[..n]);
      var counts := seq(|handled|, i requires 0 <= i < |handled| => handled[i].receipts);
      assert counts[..n] == seq(n, i requires 0 <= i < n => handled[..n][i].receipts);
      assert Events(handled)[..n] == Events(handled[..n]);
    }
  }

  // --- The history of the slot -----------------------------------------------

  // Everything put, what waits, what is in the slot and how often the peer
  // received it, what left the slot, and everything the peer received.
  datatype History = History(
    put: seq<Event>,
    queue: seq<Event>,
    slot: Option<Event>,
    receipts: nat,
    handled: seq<Handled>,
    peer: seq<Event>)

  function SlotSeen(slot: Option<Event>, receipts: nat): seq<Event> {
    if slot.Some? then Repeat(slot.value, receipts) else []
  }

  // Nothing is lost or reordered.
  predicate Conserved(h: History) {
    && h.put == Events(h.handled) + SlotSeq(h.slot) + h.queue
    && HandledOk(h.handled)
    && h.peer == Seen(h.handled) + SlotSeen(h.slot, h.receipts)
  }

  function AfterPut(h: History, e: Event): History {
    h.(put := h.put + [e], queue := h.queue + [e])
  }

  // The next event moves into the slot; an event still there is forgotten.
  function AfterTake(h: History): History
    requires h.queue != []
  {
    var handled := if h.slot.Some? then h.handled + [Handled(h.slot.value, false, h.receipts)] else h.handled;
    h.(queue := h.queue[1..], slot := Some(h.queue[0]), receipts := 0, handled := handled)
  }

  function AfterSend(h: History): History
    requires h.slot.Some?
  {
    h.(slot := None, receipts := 0, handled := h.handled + [Handled(h.slot.value, true, h.receipts + 1)],
       peer := h.peer + [h.slot.value])
  }

  function AfterFailedSend(h: History, delivered: bool): History
    requires h.slot.Some?
  {
    if delivered then h.(receipts := h.receipts + 1, peer := h.peer + [h.slot.value]) else h
  }

  lemma EventsSnoc(handled: seq<Handled>, x: Handled)
    ensures Events(handled + [x]) == Events(handled) + [x.event]
  {
  }

  lemma RepeatSnoc(before: seq<Event>, e: Event, n: nat)
    ensures before + Repeat(e, n + 1) == before + Repeat(e, n) + [e]
  {
    assert Repeat(e, n + 1) == Repeat(e, n) + [e];
  }

  lemma NothingBetween(a: seq<Event>, b: seq<Event>)
    ensures a + [] + b == a + b && a + [] == a
  {
  }

  lemma PutConserves(h: History, e: Event)
    requires Conserved(h)
    ensures Conserved(AfterPut(h, e))
  {
  }

  lemma {:induction false} TakeConserves(h: History)
    requires Conserved(h) && h.queue != [] && (h.slot.Some? ==> !Truthy(h.slot.value))
    ensures Conserved(AfterTake(h))
  {
    if h.slot.Some? {
      ForgetConserves(h);
    }
    var e, rest := h.queue[0], h.queue[1..];
    assert h.queue == [e] + rest;
    Associates(Events(AfterTake(h).handled), [e], rest);
    NothingBetween(Events(h.handled), h.queue);
    NothingBetween(Seen(AfterTake(h).handled), []);
  }

  // The slot is forgotten.
  lemma {:induction false} ForgetConserves(h: History)
    requires Conserved(h) && h.slot.Some? && !Truthy(h.slot.value)
    ensures var handled := h.handled + [Handled(h.slot.value, false, h.receipts)];
            h.put == Events(handled) + h.queue && HandledOk(handled) && h.peer == Seen(handled)
  {
    var x := Handled(h.slot.value, false, h.receipts);
    SeenSnoc(h.handled, x);
    EventsSnoc(h.handled, x);
  }

  lemma SendConserves(h: History)
    requires Conserved(h) && h.slot.Some?
    ensures Conserved(AfterSend(h))
  {
    var x := Handled(h.slot.value, true, h.receipts + 1);
    SeenSnoc(h.handled, x);
    EventsSnoc(h.handled, x);
    RepeatSnoc(Seen(h.handled), x.event, h.receipts);
    NothingBetween(Events(h.handled) + [x.event], h.queue);
    NothingBetween(Seen(h.handled + [x]), []);
    assert SlotSeq(h.slot) == [x.event] && HandledOk(h.handled + [x]);
  }

  lemma FailedSendConserves(h: History, delivered: bool)
    requires Conserved(h) && h.slot.Some?
    ensures Conserved(AfterFailedSend(h, delivered))
  {
    var e := h.slot.value;
    RepeatSnoc(Seen(h.handled), e, h.receipts);
  }

  // If no empty event was ever put: what was sent, then the slot, then the
  // queue is everything put; and the peer saw the events sent, each at least
  // once, in order up to immediate repeats, and nothing else but the slot's.
  lemma {:induction false} NothingLost(h: History)
    requires Conserved(h) && forall e :: e in h.put ==> Truthy(e)
    ensures h.put == Sent(h.handled) + SlotSeq(h.slot) + h.queue
    ensures exists seen: seq<Event> ::
      Stutters(seen, Sent(h.handled)) && h.peer == seen + SlotSeen(h.slot, h.receipts)
  {
    forall i | 0 <= i < |h.handled| ensures Truthy(h.handled[i].event) {
      assert h.put[i] == Events(h.handled)[i];
    }
    AllTruthyAllSent(h.handled);
    SeenStutters(h.handled);
  }

  // A later history: more was put, and what left the slot stays that way.
  predicate Extends(h: History, h': History) {
    h.put <= h'.put && h.handled <= h'.handled
  }

  // --- One connection ----------------------------------------------------------

  // Whether the slot is sent again first.
  predicate Resends(h: History) {
    h.slot.Some? && Truthy(h.slot.value)
  }

  // What the handler makes of a connection, from a state in which it is
  // sending the slot or waiting for the queue: the history it leaves and how it
  // ends. At Exit the event stays in front of the queue of the history.
  function Course(h: History, sending: bool, script: seq<Happening>): (History, HandlerEnd)
    requires sending ==> h.slot.Some?
    decreases |script|, if sending then 0 else 1
  {
    if sending then
      if script == [] then (h, StillRunning)
      else
        match script[0]
        case Arrives(e) => Course(AfterPut(h, e), true, script[1..])
        case SendOk => Course(AfterSend(h), false, script[1..])
        case SendFails(delivered, failure) => (AfterFailedSend(h, delivered), Raised(failure))
        case Interrupted => (h, Raised(Cancelled))
    else if h.queue != [] then
      if h.queue[0] == EXIT_EVENT then (h, Exited) else Course(AfterTake(h), true, script)
    else if script == [] then (h, StillRunning)
    else
      match script[0]
      case Arrives(e) => Course(AfterPut(h, e), false, script[1..])
      case Interrupted => (h, Raised(Cancelled))
      case _ => (h, StillRunning)
  }

  // A normal end means that Exit is next and nothing truthy waits in the slot.
  predicate EndOk(h: History, end: HandlerEnd) {
    end.Exited? ==> h.queue != [] && h.queue[0] == EXIT_EVENT && !Resends(h)
  }

  // Whatever happens on a connection, nothing is lost or reordered.
  lemma {:induction false} CourseConserves(h: History, sending: bool, script: seq<Happening>)
    requires Conserved(h) && (if sending then h.slot.Some? else !Resends(h))
    ensures var (h', end) := Course(h, sending, script);
            Conserved(h') && Extends(h, h') && EndOk(h', end)
    decreases |script|, if sending then 0 else 1, 1
  {
    if sending {
      SendingConserves(h, script);
    } else {
      WaitingConserves(h, script);
    }
  }

  lemma {:induction false} SendingConserves(h: History, script: seq<Happening>)
    requires Conserved(h) && h.slot.Some?
    ensures var (h', end) := Course(h, true, script);
            Conserved(h') && Extends(h, h') && EndOk(h', end)
    decreases |script|, 0, 0
  {
    if script != [] {
      match script[0]
      case Arrives(e) =>
        PutConserves(h, e);
        SendingConserves(AfterPut(h, e), script[1..]);
      case SendOk =>
        SendConserves(h);
        CourseConserves(AfterSend(h), false, script[1..]);
      case SendFails(delivered, _) => FailedSendConserves(h, delivered);
      case Interrupted =>
    }
  }

  lemma {:induction false} WaitingConserves(h: History, script: seq<Happening>)
    requires Conserved(h) && !Resends(h)
    ensures var (h', end) := Course(h, false, script);
            Conserved(h') && Extends(h, h') && EndOk(h', end)
    decreases |script|, 1, 0
  {
    if h.queue != [] {
      if h.queue[0] != EXIT_EVENT {
        TakeConserves(h);
        SendingConserves(AfterTake(h), script);
      }
    } else if script != [] && script[0].Arrives? {
      PutConserves(h, script[0].event);
      WaitingConserves(AfterPut(h, script[0].event), script[1..]);
    }
  }

  // --- When an event is lost ---------------------------------------------------

  // The waiting handler takes another event than Exit.
  predicate TakesEvent(h: History, script: seq<Happening>) {
    if h.queue != [] then h.queue[0] != EXIT_EVENT
    else script != [] && script[0].Arrives? && script[0].event != EXIT_EVENT
  }

  // At its start a connection finds an empty event in the slot, left by a send
  // that failed, does not send it again, and takes another one.
  predicate LosesSlot(h: History, script: seq<Happening>) {
    h.slot.Some? && !Truthy(h.slot.value) && TakesEvent(h, script)
  }

  // What left the slot in `later` beyond `handled` was sent.
  predicate SentSince(handled: seq<Handled>, later: seq<Handled>) {
    handled <= later && forall i :: |handled| <= i < |later| ==> later[i].sent
  }

  // On a connection every event that leaves the slot was sent, from the first
  // send on.
  lemma {:induction false} CourseSends(h: History, sending: bool, script: seq<Happening>)
    requires if sending then h.slot.Some? else h.slot.None?
    ensures SentSince(h.handled, Course(h, sending, script).0.handled)
    decreases |script|, if sending then 0 else 1
  {
    if sending {
      if script != [] {
        match script[0]
        case Arrives(e) => CourseSends(AfterPut(h, e), true, script[1..]);
        case SendOk => CourseSends(AfterSend(h), false, script[1..]);
        case SendFails(_, _) =>
        case Interrupted =>
      }
    } else if h.queue != [] {
      if h.queue[0] != EXIT_EVENT {
        CourseSends(AfterTake(h), true, script);
      }
    } else if script != [] && script[0].Arrives? {
      CourseSends(AfterPut(h, script[0].event), false, script[1..]);
    }
  }

  // For every state and every script: a connection loses an event if and only
  // if it finds an empty one in the slot and takes another one, and then it is
  // that one. Every other event that leaves the slot was sent.
  lemma {:induction false} LostExactlyWhenEmpty(h: History, script: seq<Happening>)
    ensures var (h', _) := Course(h, Resends(h), script);
            && h.handled <= h'.handled
            && (forall i :: |h.handled| <= i < |h'.handled| ==>
                  (h'.handled[i].sent <==> !(LosesSlot(h, script) && i == |h.handled|)))
            && (LosesSlot(h, script) ==> |h'.handled| > |h.handled| && h'.handled[|h.handled|].event == h.slot.value)
  {
    if Resends(h) || h.slot.None? {
      CourseSends(h, Resends(h), script);
    } else {
      EmptySlotCourse(h, script);
    }
  }

  lemma {:induction false} EmptySlotCourse(h: History, script: seq<Happening>)
    requires h.slot.Some? && !Resends(h)
    ensures var (h', _) := Course(h, false, script);
            if !TakesEvent(h, script) then h'.handled == h.handled
            else SentSince(h.handled + [Handled(h.slot.value, false, h.receipts)], h'.handled)
  {
    if h.queue == [] && script != [] && script[0].Arrives? {
      var put := AfterPut(h, script[0].event);
      if TakesEvent(h, script) {
        CourseSends(AfterTake(put), true, script[1..]);
      }
    } else if TakesEvent(h, script) {
      CourseSends(AfterTake(h), true, script);
    }
  }

  class EventLogQueue {
    var queue: seq<Event>
    // logs.event
    var event: Option<Event>
    ghost var history: History

    ghost predicate Valid()
      reads this
    {
      Conserved(history) && history.queue == queue && history.slot == event
    }

    constructor (queue: seq<Event>)
      ensures Valid() && history == History(queue, queue, None, 0, [], [])
    {
      this.queue, event, history := queue, None, History(queue, queue, None, 0, [], []);
    }

    // An event is put while the handler waits.
    method Put(e: Event)
      requires Valid()
      modifies this`queue, this`history
      ensures Valid() && history == AfterPut(old(history), e) && event == old(event)
    {
      PutConserves(history, e);
      history := AfterPut(history, e);
      queue := queue + [e];
    }

    // await websocket.send(...) of what is in the slot, then empty the slot.
    method SendSlot(script: seq<Happening>) returns (end: HandlerEnd, rest: seq<Happening>)
      requires Valid() && event.Some?
      modifies this
      ensures Valid() && !end.Exited? && |rest| <= |script| && (event.None? ==> |rest| < |script|)
      ensures Course(old(history), true, script) == if event.None? then Course(history, false, rest) else (history, end)
    {
      rest := script;
      while rest != [] && rest[0].Arrives?
        invariant Valid() && event.Some? && |rest| <= |script|
        invariant Course(old(history), true, script) == Course(history, true, rest)
      {
        Put(rest[0].event);
        rest := rest[1..];
      }
      if rest == [] {
        return StillRunning, rest;
      }
      match rest[0]
      case SendOk =>
        SendConserves(history);
        history := AfterSend(history);
        event := None;
        rest := rest[1..];
        end := StillRunning;
      case SendFails(delivered, failure) =>
        FailedSendConserves(history, delivered);
        history := AfterFailedSend(history, delivered);
        rest := rest[1..];
        end := Raised(failure);
      case Interrupted =>
        rest := rest[1..];
        end := Raised(Cancelled);
    }

    // logs.queue.get() and logs.event = event
    method TakeNext()
      requires Valid() && queue != [] && !Resends(history)
      modifies this
      ensures Valid() && history == AfterTake(old(history)) && event == Some(old(queue)[0])
    {
      TakeConserves(history);
      history := AfterTake(history);
      event := Some(queue[0]);
      queue := queue[1..];
    }

    ghost predicate Stopped(end: HandlerEnd)
      reads this
    {
      if end.Exited?
      then Conserved(history) && history.queue == [EXIT_EVENT] + queue && history.slot == event && !Resends(history)
      else Valid()
    }

    // One turn of the endless loop; more says that there is another one.
    method HandleNext(script: seq<Happening>) returns (more: bool, end: HandlerEnd, rest: seq<Happening>)
      requires Valid() && !Resends(history)
      modifies this
      ensures Course(old(history), false, script) == if more then Course(history, false, rest) else (history, end)
      ensures |rest| <= |script| && (more ==> Valid() && event.None? && |rest| < |script|)
      ensures !more ==> Stopped(end)
    {
      rest := script;
      if queue == [] {
        if rest == [] || !rest[0].Arrives? {
          return false, if rest != [] && rest[0].Interrupted? then Raised(Cancelled) else StillRunning, rest;
        }
        Put(rest[0].event);
        rest := rest[1..];
      }
      if queue[0] == EXIT_EVENT {
        assert queue == [EXIT_EVENT] + queue[1..];
        queue := queue[1..];
        return false, Exited, rest;
      }
      TakeNext();
      end, rest := SendSlot(rest);
      more := event.None?;
    }

    // _handle_send_event_log: the course of the connection, whatever happens on
    // it. At a normal return Exit has been taken from the queue.
    method HandleSendEventLog(script: seq<Happening>) returns (end: HandlerEnd)
      requires Valid()
      modifies this
      ensures (history, end) == Course(old(history), Resends(old(history)), script)
      ensures Extends(old(history), history) && Stopped(end)
    {
      CourseConserves(history, Resends(history), script);
      var rest := script;
      if event.Some? && Truthy(event.value) {
        end, rest := SendSlot(rest);
        if event.Some? {
          return;
        }
      }
      var more := true;
      end := StillRunning;
      while more
        invariant more ==> Valid() && !Resends(history)
        invariant !more ==> Stopped(end)
        invariant Course(old(history), Resends(old(history)), script)
                  == if more then Course(history, false, rest) else (history, end)
        decreases |rest|, more
      {
        more, end, rest := HandleNext(rest);
      }
    }
  }

  lemma SlotWasPut(h: History)
    requires Conserved(h)
    ensures h.slot.Some? ==> h.slot.value in h.put
  {
    if h.slot.Some? {
      assert h.put[|h.handled|] == h.slot.value;
    }
  }

  // At a normal return without empty events, the events before Exit are the
  // events sent.
  lemma {:induction false} ExitMeansAllSent(h: History, rest: seq<Event>)
    requires Conserved(h) && h.queue == [EXIT_EVENT] + rest && (h.slot.Some? ==> !Truthy(h.slot.value))
    requires forall e :: e in h.put ==> Truthy(e)
    ensures h.put == Sent(h.handled) + [EXIT_EVENT] + rest && Stutters(h.peer, Sent(h.handled))
  {
    NothingLost(h);
    SlotWasPut(h);
    assert Sent(h.handled) + SlotSeq(h.slot) + h.queue == Sent(h.handled) + [EXIT_EVENT] + rest;
    var seen: seq<Event> :| Stutters(seen, Sent(h.handled)) && h.peer == seen + SlotSeen(h.slot, h.receipts);
    assert seen + [] == seen;
  }
}
