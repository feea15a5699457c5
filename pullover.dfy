/** pullover/client.py: the client the command-line program runs. A batch cycle
    fetches the pending messages, hands each to the callback and then advances
    the watermark (the service's "highest message") to the largest id, skipping
    that call on an empty batch. The watch loop schedules a cycle, connects the
    websocket, schedules one more cycle per NEWMESSAGE signal, and on an
    exception sleeps and reconnects. */
module Pullover {
  import opened Protocol
  import opened Events

  // ---------------------------------------------------------------- batch cycle

  /** `message_get_and_update`, given the fetch reply, the messages the callback raises on,
      and the reply to the watermark POST. */
  function GetAndUpdate(fetch: Response, raises: Message -> bool, ack: Response): Cycle {
    match FetchMessages(fetch)
    case Err(e) => Cycle([], Fail(e))
    case Ok(msgs) =>
      var d := DeliverAll(msgs, raises);
      DeliverAllShape(msgs, raises);
      if d.failure.Some? then Cycle(d.events, Fail(d.failure.value))
      else if msgs == [] then Cycle([], Pass)
      else Cycle(d.events + [Advance(MaxOf(IdsOf(msgs)))], UpdateHighestMessage(ack))
  }

  /** A cycle whose fetch fails does nothing. Otherwise it invokes the callback on the
      messages in the order the service returned them, each once; when it gets through all of
      a non-empty batch it then issues one watermark call with the batch's maximum id, and
      when it does not, or the batch is empty, it issues none. */
  lemma GetAndUpdateShape(fetch: Response, raises: Message -> bool, ack: Response)
    ensures var c := GetAndUpdate(fetch, raises, ack);
      && (FetchMessages(fetch).Err? ==> c == Cycle([], Fail(FetchMessages(fetch).error)))
      && (FetchMessages(fetch).Ok? ==>
            var msgs := FetchMessages(fetch).value;
            var all := forall i :: 0 <= i < |msgs| ==> Deliverable(msgs[i], raises);
            && (all && msgs == [] ==> c == Cycle([], Pass))
            && (all && msgs != [] ==>
                  && |c.events| == |msgs| + 1
                  && DeliversPrefix(c.events[..|msgs|], msgs)
                  && c.events[|msgs|].Advance?
                  && IsMaxId(c.events[|msgs|].id, msgs)
                  && c.outcome == UpdateHighestMessage(ack))
            && (!all ==>
                  && DeliversPrefix(c.events, msgs)
                  && DeliverAll(msgs, raises).failure.Some?
                  && c.events == DeliverAll(msgs, raises).events
                  && c.outcome == Fail(DeliverAll(msgs, raises).failure.value)))
  {
    if FetchMessages(fetch).Ok? {
      var msgs := FetchMessages(fetch).value;
      var d := DeliverAll(msgs, raises);
      DeliverAllShape(msgs, raises);
      if d.failure.None? && msgs != [] {
        MaxOfIdsIsMaxId(msgs);
        var c := GetAndUpdate(fetch, raises, ack);
        assert c.events[..|msgs|] == d.events;
      }
    }
  }

  /** A watermark call is only ever the last event, after the callback has been invoked on
      every message of the batch, and carries the batch's maximum id. */
  lemma AdvanceComesLast(fetch: Response, raises: Message -> bool, ack: Response, i: nat)
    requires i < |GetAndUpdate(fetch, raises, ack).events|
    requires GetAndUpdate(fetch, raises, ack).events[i].Advance?
    ensures FetchMessages(fetch).Ok?
    ensures var msgs := FetchMessages(fetch).value;
      && i == |msgs| == |GetAndUpdate(fetch, raises, ack).events| - 1
      && (forall k :: 0 <= k < |msgs| ==> GetAndUpdate(fetch, raises, ack).events[k] == Deliver(msgs[k]))
      && IsMaxId(GetAndUpdate(fetch, raises, ack).events[i].id, msgs)
  {
    GetAndUpdateShape(fetch, raises, ack);
    var c := GetAndUpdate(fetch, raises, ack);
    var msgs := FetchMessages(fetch).value;
    if forall k :: 0 <= k < |msgs| ==> Deliverable(msgs[k], raises) {
      assert forall k :: 0 <= k < |msgs| ==> c.events[k] == c.events[..|msgs|][k];
    }
  }

  /** Two pending messages with ids 5 and 7: the callback runs on 5, then on 7, then the
      watermark advances to 7. */
  lemma TwoMessageCycle(m5: Message, m7: Message, ack: Response)
    requires m5.id == Some(5) && m7.id == Some(7)
    ensures var fetch := Replied(Reply(Some(Int(1)), None, Some([m5, m7])));
      GetAndUpdate(fetch, _ => false, ack) ==
        Cycle([Deliver(m5), Deliver(m7), Advance(7)], UpdateHighestMessage(ack))
  {
    var fetch := Replied(Reply(Some(Int(1)), None, Some([m5, m7])));
    GetAndUpdateShape(fetch, _ => false, ack);
    var c := GetAndUpdate(fetch, _ => false, ack);
    var msgs := [m5, m7];
    assert FetchMessages(fetch) == Ok(msgs);
    assert Deliverable(msgs[0], _ => false) && Deliverable(msgs[1], _ => false);
    var top := c.events[2].id;
    assert IsMaxId(top, msgs);
    assert top == 7;
    assert c.events[..2] == c.events[..|msgs|];
  }

  // ---------------------------------------------------------------- watch loop

  /** The inner `while True`: KEEPALIVE continues, NEWMESSAGE schedules a batch, any other
      signal breaks, and a failed or undecodable receive raises. */
  function PullInner(rs: seq<RecvResult>): InnerRun
    decreases |rs|
  {
    if rs == [] then InnerRun([], RanOut, 0)
    else
      match Wait(rs[0])
      case Err(e) => InnerRun([], Raised(e), 1)
      case Ok(m) =>
        if m == Keepalive then Extend([], 1, PullInner(rs[1..]))
        else if m == NewMessage then Extend([Trigger], 1, PullInner(rs[1..]))
        else InnerRun([], Broke, 1)
  }

  /** One pass of the outer `while True`, opening connection `n`, with `self.wss == w` on entry.
      The bare `except` sleeps; the `finally` runs `wss_destroy` on every way out. */
  function PullRound(n: nat, s: Session, w: Option<nat>, policy: DestroyPolicy): Round {
    match s.connect
    case ConnectFailed(_) =>
      var t := Destroy(w, policy);
      Round([Trigger, Sleep] + t.closed, if t.error.Some? then Some(Crashed(t.error.value)) else None, None)
    case LoginFailed(_) =>
      Round([Trigger, Open(n), Sleep, Close(n)], None, None)
    case Connected =>
      var r := PullInner(s.recv);
      match r.exit
      case RanOut => Round([Trigger, Open(n)] + r.events, Some(Exhausted), Some(n))
      case Broke => Round([Trigger, Open(n)] + r.events + [Close(n)], None, None)
      case Raised(_) => Round([Trigger, Open(n)] + r.events + [Sleep, Close(n)], None, None)
  }

  /** `watch_loop` from pass `i` on, over the remaining sessions. */
  function PullRun(sessions: seq<Session>, i: nat, w: Option<nat>, policy: DestroyPolicy): Watch
    decreases |sessions| - i
  {
    if i >= |sessions| then Watch([], Exhausted, w)
    else
      var r := PullRound(i, sessions[i], w, policy);
      if r.stop.Some? then Watch(r.events, r.stop.value, r.wss)
      else Then(r.events, PullRun(sessions, i + 1, r.wss, policy))
  }

  /** The inner loop from receive result `i` on, once that result has been decoded. */
  lemma PullInnerStep(rs: seq<RecvResult>, i: nat, msg: Result<PushMessage, Exception>)
    requires i < |rs| && msg == Wait(rs[i])
    ensures PullInner(rs[i..]) ==
      if msg.Err? then InnerRun([], Raised(msg.error), 1)
      else if msg.value == Keepalive then Extend([], 1, PullInner(rs[i + 1..]))
      else if msg.value == NewMessage then Extend([Trigger], 1, PullInner(rs[i + 1..]))
      else InnerRun([], Broke, 1)
  {
    assert rs[i..][0] == rs[i] && rs[i..][1..] == rs[i + 1..];
  }

  /** The inner loop reads up to the first receive result that is not KEEPALIVE or
      NEWMESSAGE and leaves on that one: by `break` on RELOADREQUEST or ERROR, by raising
      on a failed or undecodable receive. */
  lemma {:induction false} PullInnerReads(rs: seq<RecvResult>)
    ensures var r := PullInner(rs);
      && r.used <= |rs|
      && (r.exit == RanOut ==> r.used == |rs| && forall j :: 0 <= j < |rs| ==> Continues(rs[j]))
      && (r.exit != RanOut ==> 0 < r.used && forall j :: 0 <= j < r.used - 1 ==> Continues(rs[j]))
      && (r.exit == Broke ==> Wait(rs[r.used - 1]) in {Ok(ReloadRequest), Ok(Error)})
      && (r.exit.Raised? ==> Wait(rs[r.used - 1]) == Err(r.exit.error))
    decreases |rs|
  {
    if rs != [] {
      PullInnerStep(rs, 0, Wait(rs[0]));
      assert rs[0..] == rs;
      if Continues(rs[0]) {
        var tail := rs[1..];
        PullInnerReads(tail);
        assert forall j :: 1 <= j < |rs| ==> rs[j] == tail[j - 1];
      }
    }
  }

  /** The inner loop schedules exactly one batch per NEWMESSAGE among the results it read,
      and nothing else. */
  lemma {:induction false} PullInnerCounts(rs: seq<RecvResult>)
    ensures var r := PullInner(rs);
      r.used <= |rs| && OnlyTriggers(r.events) && |r.events| == CountNew(rs[..r.used])
    decreases |rs|
  {
    if rs != [] {
      var r := PullInner(rs);
      PullInnerStep(rs, 0, Wait(rs[0]));
      assert rs[0..] == rs;
      if Continues(rs[0]) {
        var tail := rs[1..];
        PullInnerCounts(tail);
        var t := PullInner(tail);
        var read := rs[..r.used];
        assert read[0] == rs[0] && read[1..] == tail[..t.used];
      } else {
        assert rs[..r.used] == [rs[0]];
      }
    }
  }

  /** Both of the above, as one predicate on the inner loop's run. */
  lemma PullInnerShape(rs: seq<RecvResult>)
    ensures InnerShape(rs, PullInner(rs))
  {
    PullInnerReads(rs);
    PullInnerCounts(rs);
  }

  /** The pass connected and its receive results ran out while the inner loop was still
      reading: the only way a pass ends the observed run without an exception. */
  predicate RanOutIn(s: Session) {
    s.connect.Connected? && PullInner(s.recv).exit == RanOut
  }

  /** What one pass of the outer loop does: it schedules a batch before connecting, opens a
      connection exactly when `websockets.connect` returned, sleeps exactly on the exception
      path, and destroys the connection on every exit from the inner loop. */
  lemma PullRoundShape(n: nat, s: Session, w: Option<nat>, policy: DestroyPolicy)
    ensures var r := PullRound(n, s, w, policy);
      && |r.events| > 0 && r.events[0] == Trigger
      && (Open(n) in r.events <==> !s.connect.ConnectFailed?)
      && (Sleep in r.events <==> !s.connect.Connected? || PullInner(s.recv).exit.Raised?)
      && (!s.connect.ConnectFailed? && r.stop != Some(Exhausted) ==>
            r.events[|r.events| - 1] == Close(n) && r.wss == None)
      && (r.stop == Some(Exhausted) <==> RanOutIn(s))
      && (r.stop.None? <==> !RanOutIn(s) && !(s.connect.ConnectFailed? && Destroy(w, policy).error.Some?))
  {
    var inner := PullInner(s.recv);
    PullInnerShape(s.recv);
    if s.connect.Connected? {
      assert Sleep !in inner.events && Open(n) !in inner.events;
    }
  }

  /** A pass schedules one batch before connecting and one per NEWMESSAGE it reads, and no
      other. */
  lemma PullRoundTriggers(n: nat, s: Session, w: Option<nat>, policy: DestroyPolicy)
    ensures PullInner(s.recv).used <= |s.recv|
    ensures Triggers(PullRound(n, s, w, policy).events) ==
      1 + (if s.connect.Connected? then CountNew(s.recv[..PullInner(s.recv).used]) else 0)
  {
    var inner := PullInner(s.recv);
    PullInnerShape(s.recv);
    TriggersOnly(inner.events);
    var head: seq<LoopEvent> := [Trigger];
    assert Triggers([]) == 0;
    match s.connect
    case ConnectFailed(_) =>
      var t := Destroy(w, policy);
      TriggersAppend([Trigger, Sleep], t.closed);
      assert Triggers([Sleep]) == 0;
    case LoginFailed(_) =>
      assert Triggers([Close(n)]) == 0;
      assert Triggers([Sleep, Close(n)]) == 0;
      assert Triggers([Open(n), Sleep, Close(n)]) == 0;
    case Connected =>
      var opening: seq<LoopEvent> := [Trigger, Open(n)];
      assert Triggers([Open(n)]) == 0;
      TriggersAppend(opening, inner.events);
      match inner.exit
      case RanOut =>
      case Broke =>
        TriggersAppend(opening + inner.events, [Close(n)]);
        assert Triggers([Close(n)]) == 0;
      case Raised(_) =>
        TriggersAppend(opening + inner.events, [Sleep, Close(n)]);
        assert Triggers([Close(n)]) == 0;
        assert Triggers([Sleep, Close(n)]) == 0;
  }

  /** A pass opens at most its own connection, closes only that one or the one held on entry,
      and leaves its own open only when the inputs run out inside it. */
  lemma PullRoundConnections(n: nat, s: Session, w: Option<nat>, policy: DestroyPolicy)
    ensures var r := PullRound(n, s, w, policy);
      && (forall k: nat :: Open(k) in r.events ==> k == n)
      && (forall k: nat :: Close(k) in r.events ==> (k == n && Open(n) in r.events) || w == Some(k))
      && (Open(n) in r.events && r.stop != Some(Exhausted) ==> Close(n) in r.events)
      && (r.stop == Some(Exhausted) ==> r.wss == Some(n))
      && (r.wss.Some? <==> RanOutIn(s))
      && (r.stop.None? ==> r.wss == None)
  {
    var inner := PullInner(s.recv);
    PullInnerCounts(s.recv);
    assert forall k: nat :: Open(k) !in inner.events && Close(k) !in inner.events;
    if s.connect.Connected? {
      var r := PullRound(n, s, w, policy);
      match inner.exit
      case RanOut =>
        assert r.events == [Trigger, Open(n)] + inner.events;
      case Broke =>
        assert r.events == [Trigger, Open(n)] + inner.events + [Close(n)];
      case Raised(_) =>
        assert r.events == [Trigger, Open(n)] + inner.events + [Sleep, Close(n)];
    }
  }

  /** Every connection the loop opened is closed again, except the one still held in
      `self.wss` when the run ends Exhausted. */
  lemma {:induction false} PullOpenedAreClosed(sessions: seq<Session>, i: nat, w: Option<nat>, policy: DestroyPolicy)
    ensures var r := PullRun(sessions, i, w, policy);
      forall k: nat :: Open(k) in r.events ==>
        Close(k) in r.events || (r.stop == Exhausted && r.wss == Some(k))
    decreases |sessions| - i
  {
    if i < |sessions| {
      var round := PullRound(i, sessions[i], w, policy);
      PullRoundConnections(i, sessions[i], w, policy);
      if round.stop.None? {
        var rest := PullRun(sessions, i + 1, round.wss, policy);
        PullOpenedAreClosed(sessions, i + 1, round.wss, policy);
        var r := PullRun(sessions, i, w, policy);
        assert r == Then(round.events, rest);
        assert r.events == round.events + rest.events && r.stop == rest.stop && r.wss == rest.wss;
        forall k: nat | Open(k) in r.events
          ensures Close(k) in r.events || (r.stop == Exhausted && r.wss == Some(k))
        {
          if Open(k) in round.events {
            assert Close(k) in round.events;
          } else {
            assert Open(k) in rest.events;
          }
        }
      } else {
        assert PullRun(sessions, i, w, policy) == Watch(round.events, round.stop.value, round.wss);
      }
    }
  }

  /** The loop closes no connection it did not open, except the one held on entry. */
  lemma {:induction false} PullClosedWereOpened(sessions: seq<Session>, i: nat, w: Option<nat>, policy: DestroyPolicy)
    ensures var r := PullRun(sessions, i, w, policy);
      forall k: nat :: Close(k) in r.events ==> Open(k) in r.events || w == Some(k)
    decreases |sessions| - i
  {
    if i < |sessions| {
      var round := PullRound(i, sessions[i], w, policy);
      PullRoundConnections(i, sessions[i], w, policy);
      if round.stop.None? {
        var rest := PullRun(sessions, i + 1, round.wss, policy);
        PullClosedWereOpened(sessions, i + 1, round.wss, policy);
        var r := PullRun(sessions, i, w, policy);
        assert r == Then(round.events, rest);
        forall k: nat | Close(k) in r.events
          ensures Open(k) in r.events || w == Some(k)
        {
          if Close(k) !in round.events {
            assert Close(k) in rest.events;
          }
        }
      } else {
        assert PullRun(sessions, i, w, policy) == Watch(round.events, round.stop.value, round.wss);
      }
    }
  }

  /** Every connection the loop opened is closed again, except the one it is still reading
      from when the receive results of its pass run out; and it closes nothing it did not
      open except the connection held on entry. */
  lemma PullClosesConnections(sessions: seq<Session>, i: nat, w: Option<nat>, policy: DestroyPolicy)
    ensures var r := PullRun(sessions, i, w, policy);
      && (forall k: nat :: Open(k) in r.events ==>
            (Close(k) in r.events ||
             (r.stop == Exhausted && r.wss == Some(k) && i <= k < |sessions| && RanOutIn(sessions[k]))))
      && (forall k: nat :: Close(k) in r.events ==> Open(k) in r.events || w == Some(k))
  {
    PullOpenedAreClosed(sessions, i, w, policy);
    PullClosedWereOpened(sessions, i, w, policy);
    PullExhaustedWhenInputsRunOut(sessions, i, w, policy);
    if i >= |sessions| {
      assert PullRun(sessions, i, w, policy).events == [];
    }
  }

  /** A run that ends without an exception ends because its inputs ran out: either the
      first pass whose receive results ran out still holds its connection, or no pass ran out
      and every session was used, leaving no connection held. */
  lemma {:induction false} PullExhaustedWhenInputsRunOut(sessions: seq<Session>, i: nat, w: Option<nat>, policy: DestroyPolicy)
    ensures var r := PullRun(sessions, i, w, policy);
      r.stop == Exhausted ==>
        || (exists k :: i <= k < |sessions| && RanOutIn(sessions[k]) && r.wss == Some(k) &&
              forall j :: i <= j < k ==> !RanOutIn(sessions[j]))
        || (r.wss == (if i < |sessions| then None else w) &&
              forall j :: i <= j < |sessions| ==> !RanOutIn(sessions[j]))
    decreases |sessions| - i
  {
    if i < |sessions| {
      var round := PullRound(i, sessions[i], w, policy);
      PullRoundShape(i, sessions[i], w, policy);
      PullRoundConnections(i, sessions[i], w, policy);
      if round.stop.None? {
        PullExhaustedWhenInputsRunOut(sessions, i + 1, round.wss, policy);
      }
    }
  }

  /** After a `break` or an exception the loop goes round again with no connection held,
      unless `wss_destroy` itself raised. */
  lemma PullRestarts(sessions: seq<Session>, i: nat, w: Option<nat>, policy: DestroyPolicy)
    requires i < |sessions|
    requires !RanOutIn(sessions[i])
    requires !(sessions[i].connect.ConnectFailed? && Destroy(w, policy).error.Some?)
    ensures PullRun(sessions, i, w, policy) ==
      Then(PullRound(i, sessions[i], w, policy).events, PullRun(sessions, i + 1, None, policy))
  {
    PullRoundShape(i, sessions[i], w, policy);
    PullRoundConnections(i, sessions[i], w, policy);
  }

  /** As written, the loop only ever ends with AttributeError, and only after a pass whose
      `websockets.connect` raised. */
  lemma {:induction false} PullAsWrittenCrash(sessions: seq<Session>, i: nat, w: Option<nat>)
    ensures var r := PullRun(sessions, i, w, AsWritten);
      && (r.stop == Exhausted || r.stop == Crashed(AttributeError))
      && (r.stop.Crashed? ==> exists k :: i <= k < |sessions| && sessions[k].connect.ConnectFailed?)
    decreases |sessions| - i
  {
    if i < |sessions| {
      var round := PullRound(i, sessions[i], w, AsWritten);
      if round.stop.None? {
        PullAsWrittenCrash(sessions, i + 1, round.wss);
      }
    }
  }

  /** As written, a pass entered with no open socket whose `websockets.connect` raises ends
      `watch_loop` with AttributeError. */
  lemma ConnectFailureEndsLoop(sessions: seq<Session>, i: nat, cause: Cause)
    requires i < |sessions| && sessions[i].connect == ConnectFailed(cause)
    ensures PullRun(sessions, i, None, AsWritten) == Watch([Trigger, Sleep], Crashed(AttributeError), None)
  {
  }

  /** With `wss_destroy` a no-op on None, no exception escapes the loop: it restarts after
      every `break` and every exception, so each pass up to the first whose receive results
      run out is attempted, and each of those whose `websockets.connect` returned opens its
      connection. */
  lemma {:induction false} PullGuardedNeverStops(sessions: seq<Session>, i: nat, w: Option<nat>)
    ensures var r := PullRun(sessions, i, w, Guarded);
      && r.stop == Exhausted
      && (forall k ::
            (i <= k < |sessions| && !sessions[k].connect.ConnectFailed? &&
             (forall j :: i <= j < k ==> !RanOutIn(sessions[j])))
            ==> Open(k) in r.events)
    decreases |sessions| - i
  {
    if i < |sessions| {
      var round := PullRound(i, sessions[i], w, Guarded);
      PullRoundShape(i, sessions[i], w, Guarded);
      if round.stop.None? {
        PullGuardedNeverStops(sessions, i + 1, round.wss);
        var rest := PullRun(sessions, i + 1, round.wss, Guarded);
        var r := PullRun(sessions, i, w, Guarded);
        assert r.events == round.events + rest.events;
        forall k | i <= k < |sessions| && !sessions[k].connect.ConnectFailed? &&
            (forall j :: i <= j < k ==> !RanOutIn(sessions[j]))
          ensures Open(k) in r.events
        {
          if k > i {
            assert forall j :: i + 1 <= j < k ==> !RanOutIn(sessions[j]);
            assert Open(k) in rest.events;
          }
        }
      }
    }
  }

  // ---------------------------------------------------------------- the client object

  class PulloverClient {
    /** `self.wss`: the open websocket, named by the pass of the outer loop that started it. */
    var wss: Option<nat>

    constructor ()
      ensures wss == None
    {
      wss := None;
    }

    method MessageGetAndUpdate(fetch: Response, raises: Message -> bool, ack: Response) returns (c: Cycle)
      ensures c == GetAndUpdate(fetch, raises, ack)
    {
      var fetched := FetchMessages(fetch);
      if fetched.Err? {
        return Cycle([], Fail(fetched.error));
      }
      var messages := fetched.value;
      var events: seq<BatchEvent> := [];
      var i := 0;
      while i < |messages|
        invariant 0 <= i <= |messages|
        invariant forall k :: 0 <= k < i ==> Deliverable(messages[k], raises)
        invariant DeliverAll(messages, raises) ==
          Delivery(events + DeliverAll(messages[i..], raises).events, DeliverAll(messages[i..], raises).failure)
      {
        var msg := messages[i];
        assert messages[i..][0] == msg && messages[i..][1..] == messages[i + 1..];
        if msg.id.None? {
          assert DeliverAll(messages, raises) == Delivery(events, Some(KeyError("id")));
          return Cycle(events, Fail(KeyError("id")));
        }
        events := events + [Deliver(msg)];
        if raises(msg) {
          assert DeliverAll(messages, raises) == Delivery(events, Some(CallbackError));
          return Cycle(events, Fail(CallbackError));
        }
        i := i + 1;
      }
      if messages != [] {
        c := Cycle(events + [Advance(MaxOf(IdsOf(messages)))], UpdateHighestMessage(ack));
      } else {
        c := Cycle(events, Pass);
      }
    }

    method WssInit(n: nat, connect: ConnectResult) returns (started: seq<LoopEvent>, error: Option<Exception>)
      modifies this
      ensures connect.ConnectFailed? ==> wss == old(wss) && started == []
      ensures !connect.ConnectFailed? ==> wss == Some(n) && started == [Open(n)]
      ensures error.None? <==> connect.Connected?
      ensures error.Some? ==> error.value == ChannelError(connect.cause)
    {
      match connect
      case ConnectFailed(c) =>
        started, error := [], Some(ChannelError(c));
      case LoginFailed(c) =>
        wss := Some(n);
        started, error := [Open(n)], Some(ChannelError(c));
      case Connected =>
        wss := Some(n);
        started, error := [Open(n)], None;
    }

    method WssDestroy(policy: DestroyPolicy) returns (closed: seq<LoopEvent>, error: Option<Exception>)
      modifies this
      ensures wss == None
      ensures old(wss).Some? ==> closed == [Close(old(wss).value)] && error.None?
      ensures old(wss).None? ==> closed == [] && (error.Some? <==> policy == AsWritten)
      ensures error.Some? ==> error.value == AttributeError
      ensures Teardown(closed, error) == Destroy(old(wss), policy)
    {
      if wss.None? {
        closed := [];
        error := if policy == AsWritten then Some(AttributeError) else None;
        return;
      }
      closed := [Close(wss.value)];
      error := None;
      wss := None;
    }

    /** The inner `while True` of `watch_loop`, reading the given receive results. */
    method Listen(frames: seq<RecvResult>) returns (inner: seq<LoopEvent>, exit: InnerExit, used: nat)
      ensures InnerRun(inner, exit, used) == PullInner(frames)
    {
      inner, exit, used := [], RanOut, 0;
      while used < |frames|
        invariant 0 <= used <= |frames|
        invariant PullInner(frames) == Extend(inner, used, PullInner(frames[used..]))
      {
        var msg := Wait(frames[used]);
        PullInnerStep(frames, used, msg);
        used := used + 1;
        if msg.Err? {
          exit := Raised(msg.error);
          break;
        }
        if msg.value == Keepalive {
          assert [] + PullInner(frames[used..]).events == PullInner(frames[used..]).events;
          continue;
        } else if msg.value == NewMessage {
          assert inner + ([Trigger] + PullInner(frames[used..]).events) ==
            inner + [Trigger] + PullInner(frames[used..]).events;
          inner := inner + [Trigger];
        } else {
          exit := Broke;
          break;
        }
      }
    }

    /** One pass of the outer loop of `watch_loop`. */
    method Iterate(n: nat, s: Session, policy: DestroyPolicy) returns (events: seq<LoopEvent>, stop: Option<Stop>)
      modifies this
      ensures Round(events, stop, wss) == PullRound(n, s, old(wss), policy)
    {
      events := [Trigger];
      var started, error := WssInit(n, s.connect);
      events := events + started;
      if error.Some? {
        events := events + [Sleep];
        var closed, failed := WssDestroy(policy);
        events := events + closed;
        stop := if failed.Some? then Some(Crashed(failed.value)) else None;
        return;
      }
      var inner, exit, _ := Listen(s.recv);
      events := events + inner;
      if exit == RanOut {
        stop := Some(Exhausted);
        return;
      }
      if exit.Raised? {
        events := events + [Sleep];
      }
      var closed, _ := WssDestroy(policy);
      events := events + closed;
      stop := None;
    }

    /** `watch_loop`, observed over the given sessions. */
    method WatchLoop(sessions: seq<Session>, policy: DestroyPolicy) returns (events: seq<LoopEvent>, stop: Stop)
      modifies this
      ensures Watch(events, stop, wss) == PullRun(sessions, 0, old(wss), policy)
    {
      events := [];
      var i := 0;
      while i < |sessions|
        invariant 0 <= i <= |sessions|
        invariant PullRun(sessions, 0, old(wss), policy) == Then(events, PullRun(sessions, i, wss, policy))
      {
        var more, halt := Iterate(i, sessions[i], policy);
        events := events + more;
        if halt.Some? {
          stop := halt.value;
          return;
        }
        i := i + 1;
      }
      stop := Exhausted;
    }
  }
}
