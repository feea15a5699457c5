/** pushover/client.py: the older client. Its batch cycle calls `max` on the ids even
    when the batch is empty; its watch loop schedules no batch on (re)connecting,
    restarts at once after an exception, and leaves the loop on KeyboardInterrupt. */
module Pushover {
  import opened Protocol
  import opened Events
  import Pullover

  // ---------------------------------------------------------------- batch cycle

  /** `message_get_and_update`: as in the newer client, but `max` is reached on every batch. */
  function GetAndUpdate(fetch: Response, raises: Message -> bool, ack: Response): Cycle {
    match FetchMessages(fetch)
    case Err(e) => Cycle([], Fail(e))
    case Ok(msgs) =>
      var d := DeliverAll(msgs, raises);
      DeliverAllShape(msgs, raises);
      if d.failure.Some? then Cycle(d.events, Fail(d.failure.value))
      else
        match PyMax(IdsOf(msgs))
        case Err(e) => Cycle(d.events, Fail(e))
        case Ok(top) => Cycle(d.events + [Advance(top)], UpdateHighestMessage(ack))
  }

  /** An empty batch makes this cycle fail with ValueError before any watermark call, where
      the newer client returns normally without one. */
  lemma EmptyBatchFails(fetch: Response, raises: Message -> bool, ack: Response)
    requires FetchMessages(fetch) == Ok([])
    ensures GetAndUpdate(fetch, raises, ack) == Cycle([], Fail(ValueError))
    ensures Pullover.GetAndUpdate(fetch, raises, ack) == Cycle([], Pass)
  {
  }

  /** On every other fetch outcome the two clients' cycles coincide: the callback once per
      message in the returned order, then one watermark call carrying the maximum id. */
  lemma AgreesOnOtherBatches(fetch: Response, raises: Message -> bool, ack: Response)
    requires FetchMessages(fetch) != Ok([])
    ensures GetAndUpdate(fetch, raises, ack) == Pullover.GetAndUpdate(fetch, raises, ack)
  {
  }

  /** A cycle whose fetch fails does nothing. Otherwise it invokes the callback on the
      messages in the returned order, each once, before any watermark call; a batch it gets
      all through ends with one watermark call carrying the maximum id when non-empty, and
      with ValueError and no watermark call when empty. */
  lemma GetAndUpdateShape(fetch: Response, raises: Message -> bool, ack: Response)
    ensures var c := GetAndUpdate(fetch, raises, ack);
      && (FetchMessages(fetch).Err? ==> c == Cycle([], Fail(FetchMessages(fetch).error)))
      && (FetchMessages(fetch).Ok? ==>
            var msgs := FetchMessages(fetch).value;
            var all := forall i :: 0 <= i < |msgs| ==> Deliverable(msgs[i], raises);
            && (msgs == [] ==> c == Cycle([], Fail(ValueError)))
            && (all && msgs != [] ==>
                  && |c.events| == |msgs| + 1
                  && DeliversPrefix(c.events[..|msgs|], msgs)
                  && c.events[|msgs|].Advance?
                  && IsMaxId(c.events[|msgs|].id, msgs)
                  && c.outcome == UpdateHighestMessage(ack))
            && (!all ==>
                  && DeliversPrefix(c.events, msgs)
                  && DeliverAll(msgs, raises).failure.Some?
                  && c.events == DeliverAll(msgs, raises).events
                  && c.outcome == Fail(DeliverAll(msgs, raises).failure.value)))
  {
    if FetchMessages(fetch) != Ok([]) {
      AgreesOnOtherBatches(fetch, raises, ack);
      Pullover.GetAndUpdateShape(fetch, raises, ack);
    }
  }

  // ---------------------------------------------------------------- watch loop

  /** The inner `while True`: KEEPALIVE continues, ERROR or RELOADREQUEST break, and any other
      signal schedules a batch. */
  function PushInner(rs: seq<RecvResult>): InnerRun
    decreases |rs|
  {
    if rs == [] then InnerRun([], RanOut, 0)
    else
      match Wait(rs[0])
      case Err(e) => InnerRun([], Raised(e), 1)
      case Ok(m) =>
        if m == Keepalive then Extend([], 1, PushInner(rs[1..]))
        else if m == Error || m == ReloadRequest then InnerRun([], Broke, 1)
        else Extend([Trigger], 1, PushInner(rs[1..]))
  }

  /** The inner loop from receive result `i` on, once that result has been decoded. */
  lemma PushInnerStep(rs: seq<RecvResult>, i: nat, msg: Result<PushMessage, Exception>)
    requires i < |rs| && msg == Wait(rs[i])
    ensures PushInner(rs[i..]) ==
      if msg.Err? then InnerRun([], Raised(msg.error), 1)
      else if msg.value == Keepalive then Extend([], 1, PushInner(rs[i + 1..]))
      else if msg.value == Error || msg.value == ReloadRequest then InnerRun([], Broke, 1)
      else Extend([Trigger], 1, PushInner(rs[i + 1..]))
  {
    assert rs[i..][0] == rs[i] && rs[i..][1..] == rs[i + 1..];
  }

  /** The two inner loops behave alike on every input: "any other signal" is NEWMESSAGE. */
  lemma {:induction false} InnerLoopsAgree(rs: seq<RecvResult>)
    ensures PushInner(rs) == Pullover.PullInner(rs)
    decreases |rs|
  {
    if rs != [] && Continues(rs[0]) {
      InnerLoopsAgree(rs[1..]);
    }
  }

  /** One pass of the outer `while True`, opening connection `n`, with `self.wss == w` on
      entry. KeyboardInterrupt leaves the loop; every other exception goes round again at
      once; the `finally` runs `wss_destroy` on every way out. */
  function PushRound(n: nat, s: Session, w: Option<nat>, policy: DestroyPolicy): Round {
    match s.connect
    case ConnectFailed(cause) =>
      var t := Destroy(w, policy);
      Round(t.closed,
            if t.error.Some? then Some(Crashed(t.error.value))
            else if cause == KeyboardInterrupt then Some(Quit)
            else None,
            None)
    case LoginFailed(cause) =>
      Round([Open(n), Close(n)], if cause == KeyboardInterrupt then Some(Quit) else None, None)
    case Connected =>
      var r := PushInner(s.recv);
      match r.exit
      case RanOut => Round([Open(n)] + r.events, Some(Exhausted), Some(n))
      case Broke => Round([Open(n)] + r.events + [Close(n)], None, None)
      case Raised(e) =>
        Round([Open(n)] + r.events + [Close(n)],
              if e == ChannelError(KeyboardInterrupt) then Some(Quit) else None,
              None)
  }

  /** `watch_loop` from pass `i` on, over the remaining sessions. */
  function PushRun(sessions: seq<Session>, i: nat, w: Option<nat>, policy: DestroyPolicy): Watch
    decreases |sessions| - i
  {
    if i >= |sessions| then Watch([], Exhausted, w)
    else
      var r := PushRound(i, sessions[i], w, policy);
      if r.stop.Some? then Watch(r.events, r.stop.value, r.wss)
      else Then(r.events, PushRun(sessions, i + 1, r.wss, policy))
  }

  /** The pass connected and its receive results ran out while the inner loop was still
      reading. */
  predicate RanOutIn(s: Session) {
    s.connect.Connected? && PushInner(s.recv).exit == RanOut
  }

  /** The pass ran into KeyboardInterrupt: in `websockets.connect`, in the login send, or in
      a receive. */
  predicate InterruptedIn(s: Session) {
    || s.connect == ConnectFailed(KeyboardInterrupt)
    || s.connect == LoginFailed(KeyboardInterrupt)
    || (s.connect.Connected? && PushInner(s.recv).exit == Raised(ChannelError(KeyboardInterrupt)))
  }

  /** What one pass does: it schedules no batch on connecting and one per NEWMESSAGE it reads,
      never sleeps, opens a connection exactly when `websockets.connect` returned, destroys it
      on every exit from the inner loop, and leaves the outer loop exactly on
      KeyboardInterrupt (unless `wss_destroy` raises first). */
  lemma PushRoundShape(n: nat, s: Session, w: Option<nat>, policy: DestroyPolicy)
    ensures var r := PushRound(n, s, w, policy);
      && Sleep !in r.events
      && (Open(n) in r.events <==> !s.connect.ConnectFailed?)
      && (!s.connect.ConnectFailed? && r.stop != Some(Exhausted) ==>
            r.events[|r.events| - 1] == Close(n) && r.wss == None)
      && (r.stop == Some(Quit) <==>
            InterruptedIn(s) && !(s.connect.ConnectFailed? && Destroy(w, policy).error.Some?))
      && (r.stop == Some(Exhausted) <==> RanOutIn(s))
      && (r.stop.None? <==>
            !RanOutIn(s) && !InterruptedIn(s) && !(s.connect.ConnectFailed? && Destroy(w, policy).error.Some?))
  {
    var inner := PushInner(s.recv);
    InnerLoopsAgree(s.recv);
    Pullover.PullInnerShape(s.recv);
    if s.connect.Connected? {
      assert Sleep !in inner.events && Open(n) !in inner.events;
    }
  }

  /** A pass schedules exactly one batch per NEWMESSAGE it reads, and none on connecting. */
  lemma PushRoundTriggers(n: nat, s: Session, w: Option<nat>, policy: DestroyPolicy)
    ensures PushInner(s.recv).used <= |s.recv|
    ensures Triggers(PushRound(n, s, w, policy).events) ==
      (if s.connect.Connected? then CountNew(s.recv[..PushInner(s.recv).used]) else 0)
  {
    var inner := PushInner(s.recv);
    InnerLoopsAgree(s.recv);
    Pullover.PullInnerShape(s.recv);
    TriggersOnly(inner.events);
    assert Triggers([]) == 0;
    assert Triggers([Close(n)]) == 0;
    match s.connect
    case ConnectFailed(_) =>
    case LoginFailed(_) =>
      assert Triggers([Open(n), Close(n)]) == 0;
    case Connected =>
      assert Triggers([Open(n)]) == 0;
      TriggersAppend([Open(n)], inner.events);
      if !inner.exit.RanOut? {
        TriggersAppend([Open(n)] + inner.events, [Close(n)]);
      }
  }

  /** A pass opens at most its own connection, closes only that one or the one held on entry,
      and leaves its own open only when the inputs run out inside it. */
  lemma PushRoundConnections(n: nat, s: Session, w: Option<nat>, policy: DestroyPolicy)
    ensures var r := PushRound(n, s, w, policy);
      && (forall k: nat :: Open(k) in r.events ==> k == n)
      && (forall k: nat :: Close(k) in r.events ==> (k == n && Open(n) in r.events) || w == Some(k))
      && (Open(n) in r.events && r.stop != Some(Exhausted) ==> Close(n) in r.events)
      && (r.stop == Some(Exhausted) ==> r.wss == Some(n))
      && (r.wss.Some? <==> RanOutIn(s))
      && (r.stop.None? ==> r.wss == None)
  {
    var inner := PushInner(s.recv);
    InnerLoopsAgree(s.recv);
    Pullover.PullInnerCounts(s.recv);
    assert forall k: nat :: Open(k) !in inner.events && Close(k) !in inner.events;
    if s.connect.Connected? {
      var r := PushRound(n, s, w, policy);
      match inner.exit
      case RanOut =>
        assert r.events == [Open(n)] + inner.events;
      case Broke =>
        assert r.events == [Open(n)] + inner.events + [Close(n)];
      case Raised(_) =>
        assert r.events == [Open(n)] + inner.events + [Close(n)];
    }
  }

  /** Every connection the loop opened is closed again, except the one still held in
      `self.wss` when the run ends Exhausted. */
  lemma {:induction false} PushOpenedAreClosed(sessions: seq<Session>, i: nat, w: Option<nat>, policy: DestroyPolicy)
    ensures var r := PushRun(sessions, i, w, policy);
      forall k: nat :: Open(k) in r.events ==>
        Close(k) in r.events || (r.stop == Exhausted && r.wss == Some(k))
    decreases |sessions| - i
  {
    if i < |sessions| {
      var round := PushRound(i, sessions[i], w, policy);
      PushRoundConnections(i, sessions[i], w, policy);
      if round.stop.None? {
        var rest := PushRun(sessions, i + 1, round.wss, policy);
        PushOpenedAreClosed(sessions, i + 1, round.wss, policy);
        var r := PushRun(sessions, i, w, policy);
        assert r == Then(round.events, rest);
        assert r.events == round.events + rest.events && r.stop == rest.stop && r.wss == rest.wss;
        forall k: nat | Open(k) in r.events
          ensures Close(k) in r.events || (r.stop == Exhausted && r.wss == Some(k))
        {
          if Open(k) in round.events {
            assert Close(k) in round.events;
          } else {
            assert Open(k) in rest.events;
          }
        }
      } else {
        assert PushRun(sessions, i, w, policy) == Watch(round.events, round.stop.value, round.wss);
      }
    }
  }

  /** The loop closes no connection it did not open, except the one held on entry. */
  lemma {:induction false} PushClosedWereOpened(sessions: seq<Session>, i: nat, w: Option<nat>, policy: DestroyPolicy)
    ensures var r := PushRun(sessions, i, w, policy);
      forall k: nat :: Close(k) in r.events ==> Open(k) in r.events || w == Some(k)
    decreases |sessions| - i
  {
    if i < |sessions| {
      var round := PushRound(i, sessions[i], w, policy);
      PushRoundConnections(i, sessions[i], w, policy);
      if round.stop.None? {
        var rest := PushRun(sessions, i + 1, round.wss, policy);
        PushClosedWereOpened(sessions, i + 1, round.wss, policy);
        var r := PushRun(sessions, i, w, policy);
        assert r == Then(round.events, rest);
        forall k: nat | Close(k) in r.events
          ensures Open(k) in r.events || w == Some(k)
        {
          if Close(k) !in round.events {
            assert Close(k) in rest.events;
          }
        }
      } else {
        assert PushRun(sessions, i, w, policy) == Watch(round.events, round.stop.value, round.wss);
      }
    }
  }

  /** Every connection the loop opened is closed again, except the one it is still reading
      from when the receive results of its pass run out; and it closes nothing it did not
      open except the connection held on entry. */
  lemma PushClosesConnections(sessions: seq<Session>, i: nat, w: Option<nat>, policy: DestroyPolicy)
    ensures var r := PushRun(sessions, i, w, policy);
      && (forall k: nat :: Open(k) in r.events ==>
            (Close(k) in r.events ||
             (r.stop == Exhausted && r.wss == Some(k) && i <= k < |sessions| && RanOutIn(sessions[k]))))
      && (forall k: nat :: Close(k) in r.events ==> Open(k) in r.events || w == Some(k))
  {
    PushOpenedAreClosed(sessions, i, w, policy);
    PushClosedWereOpened(sessions, i, w, policy);
    PushExhaustedWhenInputsRunOut(sessions, i, w, policy);
    if i >= |sessions| {
      assert PushRun(sessions, i, w, policy).events == [];
    }
  }

  /** A run that ends without an exception or an interrupt ends because its inputs ran out:
      either the first pass whose receive results ran out still holds its connection, or no
      pass ran out or was interrupted and every session was used, leaving no connection held. */
  lemma {:induction false} PushExhaustedWhenInputsRunOut(sessions: seq<Session>, i: nat, w: Option<nat>, policy: DestroyPolicy)
    ensures var r := PushRun(sessions, i, w, policy);
      r.stop == Exhausted ==>
        || (exists k :: i <= k < |sessions| && RanOutIn(sessions[k]) && r.wss == Some(k) &&
              forall j :: i <= j < k ==> !RanOutIn(sessions[j]) && !InterruptedIn(sessions[j]))
        || (r.wss == (if i < |sessions| then None else w) &&
              forall j :: i <= j < |sessions| ==> !RanOutIn(sessions[j]) && !InterruptedIn(sessions[j]))
    decreases |sessions| - i
  {
    if i < |sessions| {
      var round := PushRound(i, sessions[i], w, policy);
      PushRoundShape(i, sessions[i], w, policy);
      PushRoundConnections(i, sessions[i], w, policy);
      if round.stop.None? {
        PushExhaustedWhenInputsRunOut(sessions, i + 1, round.wss, policy);
      }
    }
  }

  /** After a `break` or any exception other than KeyboardInterrupt the loop goes round again
      at once, with no connection held, unless `wss_destroy` itself raised. */
  lemma PushRestarts(sessions: seq<Session>, i: nat, w: Option<nat>, policy: DestroyPolicy)
    requires i < |sessions|
    requires !RanOutIn(sessions[i]) && !InterruptedIn(sessions[i])
    requires !(sessions[i].connect.ConnectFailed? && Destroy(w, policy).error.Some?)
    ensures PushRun(sessions, i, w, policy) ==
      Then(PushRound(i, sessions[i], w, policy).events, PushRun(sessions, i + 1, None, policy))
  {
    PushRoundShape(i, sessions[i], w, policy);
    PushRoundConnections(i, sessions[i], w, policy);
  }

  /** As written, a pass entered with no open socket whose `websockets.connect` raises ends
      `watch_loop` with AttributeError, KeyboardInterrupt or not. */
  lemma ConnectFailureEndsLoop(sessions: seq<Session>, i: nat, cause: Cause)
    requires i < |sessions| && sessions[i].connect == ConnectFailed(cause)
    ensures PushRun(sessions, i, None, AsWritten) == Watch([], Crashed(AttributeError), None)
  {
  }

  /** As written, the loop ends with AttributeError only after a pass whose
      `websockets.connect` raised. */
  lemma {:induction false} PushAsWrittenCrash(sessions: seq<Session>, i: nat, w: Option<nat>)
    ensures var r := PushRun(sessions, i, w, AsWritten);
      && (r.stop.Crashed? ==> r.stop == Crashed(AttributeError))
      && (r.stop.Crashed? ==> exists k :: i <= k < |sessions| && sessions[k].connect.ConnectFailed?)
    decreases |sessions| - i
  {
    if i < |sessions| {
      var round := PushRound(i, sessions[i], w, AsWritten);
      if round.stop.None? {
        PushAsWrittenCrash(sessions, i + 1, round.wss);
      }
    }
  }

  /** With `wss_destroy` a no-op on None, no exception escapes the loop: it restarts after
      every `break` and every exception other than KeyboardInterrupt, so each pass up to the
      first whose receive results run out or that is interrupted is attempted, and each of
      those whose `websockets.connect` returned opens its connection. */
  lemma {:induction false} PushGuardedStopsOnlyOnInterrupt(sessions: seq<Session>, i: nat, w: Option<nat>)
    ensures var r := PushRun(sessions, i, w, Guarded);
      && (r.stop == Exhausted || r.stop == Quit)
      && (r.stop == Quit ==> exists k :: i <= k < |sessions| && InterruptedIn(sessions[k]))
      && (forall k ::
            (i <= k < |sessions| && !sessions[k].connect.ConnectFailed? &&
             (forall j :: i <= j < k ==> !RanOutIn(sessions[j]) && !InterruptedIn(sessions[j])))
            ==> Open(k) in r.events)
    decreases |sessions| - i
  {
    if i < |sessions| {
      var round := PushRound(i, sessions[i], w, Guarded);
      PushRoundShape(i, sessions[i], w, Guarded);
      if round.stop.None? {
        PushGuardedStopsOnlyOnInterrupt(sessions, i + 1, round.wss);
        var rest := PushRun(sessions, i + 1, round.wss, Guarded);
        var r := PushRun(sessions, i, w, Guarded);
        assert r.events == round.events + rest.events;
        forall k | i <= k < |sessions| && !sessions[k].connect.ConnectFailed? &&
            (forall j :: i <= j < k ==> !RanOutIn(sessions[j]) && !InterruptedIn(sessions[j]))
          ensures Open(k) in r.events
        {
          if k > i {
            assert forall j :: i + 1 <= j < k ==> !RanOutIn(sessions[j]) && !InterruptedIn(sessions[j]);
            assert Open(k) in rest.events;
          }
        }
      }
    }
  }

  // ---------------------------------------------------------------- the client object

  class PushoverClient {
    /** `self.wss`: the open websocket, named by the pass of the outer loop that opened it. */
    var wss: Option<nat>

    constructor ()
      ensures wss == None
    {
      wss := None;
    }

    method MessageGetAndUpdate(fetch: Response, raises: Message -> bool, ack: Response) returns (c: Cycle)
      ensures c == GetAndUpdate(fetch, raises, ack)
    {
      var fetched := FetchMessages(fetch);
      if fetched.Err? {
        return Cycle([], Fail(fetched.error));
      }
      var messages := fetched.value;
      var events: seq<BatchEvent> := [];
      var i := 0;
      while i < |messages|
        invariant 0 <= i <= |messages|
        invariant forall k :: 0 <= k < i ==> Deliverable(messages[k], raises)
        invariant DeliverAll(messages, raises) ==
          Delivery(events + DeliverAll(messages[i..], raises).events, DeliverAll(messages[i..], raises).failure)
      {
        var msg := messages[i];
        assert messages[i..][0] == msg && messages[i..][1..] == messages[i + 1..];
        if msg.id.None? {
          assert DeliverAll(messages, raises) == Delivery(events, Some(KeyError("id")));
          return Cycle(events, Fail(KeyError("id")));
        }
        events := events + [Deliver(msg)];
        if raises(msg) {
          assert DeliverAll(messages, raises) == Delivery(events, Some(CallbackError));
          return Cycle(events, Fail(CallbackError));
        }
        i := i + 1;
      }
      var top := PyMax(IdsOf(messages));
      if top.Err? {
        return Cycle(events, Fail(top.error));
      }
      c := Cycle(events + [Advance(top.value)], UpdateHighestMessage(ack));
    }

    method WssInit(n: nat, connect: ConnectResult) returns (started: seq<LoopEvent>, error: Option<Exception>)
      modifies this
      ensures connect.ConnectFailed? ==> wss == old(wss) && started == []
      ensures !connect.ConnectFailed? ==> wss == Some(n) && started == [Open(n)]
      ensures error.None? <==> connect.Connected?
      ensures error.Some? ==> error.value == ChannelError(connect.cause)
    {
      match connect
      case ConnectFailed(c) =>
        started, error := [], Some(ChannelError(c));
      case LoginFailed(c) =>
        wss := Some(n);
        started, error := [Open(n)], Some(ChannelError(c));
      case Connected =>
        wss := Some(n);
        started, error := [Open(n)], None;
    }

    method WssDestroy(policy: DestroyPolicy) returns (closed: seq<LoopEvent>, error: Option<Exception>)
      modifies this
      ensures wss == None
      ensures old(wss).Some? ==> closed == [Close(old(wss).value)] && error.None?
      ensures old(wss).None? ==> closed == [] && (error.Some? <==> policy == AsWritten)
      ensures error.Some? ==> error.value == AttributeError
      ensures Teardown(closed, error) == Destroy(old(wss), policy)
    {
      if wss.None? {
        closed := [];
        error := if policy == AsWritten then Some(AttributeError) else None;
        return;
      }
      closed := [Close(wss.value)];
      error := None;
      wss := None;
    }

    /** The inner `while True` of `watch_loop`, reading the given receive results. */
    method Listen(frames: seq<RecvResult>) returns (inner: seq<LoopEvent>, exit: InnerExit, used: nat)
      ensures InnerRun(inner, exit, used) == PushInner(frames)
    {
      inner, exit, used := [], RanOut, 0;
      while used < |frames|
        invariant 0 <= used <= |frames|
        invariant PushInner(frames) == Extend(inner, used, PushInner(frames[used..]))
      {
        var msg := Wait(frames[used]);
        PushInnerStep(frames, used, msg);
        used := used + 1;
        if msg.Err? {
          exit := Raised(msg.error);
          break;
        }
        if msg.value == Keepalive {
          assert [] + PushInner(frames[used..]).events == PushInner(frames[used..]).events;
          continue;
        } else if msg.value == Error || msg.value == ReloadRequest {
          exit := Broke;
          break;
        } else {
          assert inner + ([Trigger] + PushInner(frames[used..]).events) ==
            inner + [Trigger] + PushInner(frames[used..]).events;
          inner := inner + [Trigger];
        }
      }
    }

    /** One pass of the outer loop of `watch_loop`. */
    method Iterate(n: nat, s: Session, policy: DestroyPolicy) returns (events: seq<LoopEvent>, stop: Option<Stop>)
      modifies this
      ensures Round(events, stop, wss) == PushRound(n, s, old(wss), policy)
    {
      var started, error := WssInit(n, s.connect);
      events := started;
      if error.Some? {
        var closed, failed := WssDestroy(policy);
        events := events + closed;
        stop := if failed.Some? then Some(Crashed(failed.value))
                else if error.value == ChannelError(KeyboardInterrupt) then Some(Quit)
                else None;
        return;
      }
      var inner, exit, _ := Listen(s.recv);
      events := events + inner;
      if exit == RanOut {
        stop := Some(Exhausted);
        return;
      }
      var closed, _ := WssDestroy(policy);
      events := events + closed;
      stop := if exit == Raised(ChannelError(KeyboardInterrupt)) then Some(Quit) else None;
    }

    /** `watch_loop`, observed over the given sessions. */
    method WatchLoop(sessions: seq<Session>, policy: DestroyPolicy) returns (events: seq<LoopEvent>, stop: Stop)
      modifies this
      ensures Watch(events, stop, wss) == PushRun(sessions, 0, old(wss), policy)
    {
      events := [];
      var i := 0;
      while i < |sessions|
        invariant 0 <= i <= |sessions|
        invariant PushRun(sessions, 0, old(wss), policy) == Then(events, PushRun(sessions, i, wss, policy))
      {
        var more, halt := Iterate(i, sessions[i], policy);
        events := events + more;
        if halt.Some? {
          stop := halt.value;
          return;
        }
        i := i + 1;
      }
      stop := Exhausted;
    }
  }
}
