/** The abstract inputs and observable effects of the two clients once the
    network and the event loop are taken away: what the service answers, what
    the websocket yields, and the trace of callback invocations, watermark
    calls, scheduled batches, connections and sleeps. */
module Events {
  import opened Protocol

  // ---------------------------------------------------------------- batches

  /** One effect of a batch cycle: the callback invoked on a message, or the watermark POST issued. */
  datatype BatchEvent = Deliver(msg: Message) | Advance(id: int)

  /** A finished cycle: its effects in order, and whether it returned or raised. */
  datatype Cycle = Cycle(events: seq<BatchEvent>, outcome: Outcome<Exception>)

  /** The per-message loop: the callbacks made, and the exception that stopped it, if any. */
  datatype Delivery = Delivery(events: seq<BatchEvent>, failure: Option<Exception>)

  /** A message the loop gets past: it has an `id` key and the callback returns normally on it. */
  predicate Deliverable(m: Message, raises: Message -> bool) {
    m.id.Some? && !raises(m)
  }

  /** The events are the callbacks on the first |events| messages, each once and in order. */
  predicate DeliversPrefix(events: seq<BatchEvent>, msgs: seq<Message>) {
    |events| <= |msgs| && forall i :: 0 <= i < |events| ==> events[i] == Deliver(msgs[i])
  }

  /** `id` is the largest id of the batch and belongs to one of its messages. */
  predicate IsMaxId(id: int, msgs: seq<Message>) {
    && (exists i :: 0 <= i < |msgs| && msgs[i].id == Some(id))
    && (forall i :: 0 <= i < |msgs| && msgs[i].id.Some? ==> msgs[i].id.value <= id)
  }

  /** `for msg in messages: msg['id']; callback(msg)`, where `raises` says on which messages
      the callback raises. A missing id raises KeyError before the callback is reached. */
  function DeliverAll(msgs: seq<Message>, raises: Message -> bool): Delivery
    decreases |msgs|
  {
    if msgs == [] then Delivery([], None)
    else if msgs[0].id.None? then Delivery([], Some(KeyError("id")))
    else if raises(msgs[0]) then Delivery([Deliver(msgs[0])], Some(CallbackError))
    else
      var rest := DeliverAll(msgs[1..], raises);
      Delivery([Deliver(msgs[0])] + rest.events, rest.failure)
  }

  /** The loop invokes the callback on a prefix of the batch, once per message and in order;
      it gets through the whole batch exactly when every message has an id and the callback
      raises on none, and otherwise stops at the first message that has no id (before its
      callback) or whose callback raises (after it). */
  lemma {:induction false} DeliverAllShape(msgs: seq<Message>, raises: Message -> bool)
    ensures var d := DeliverAll(msgs, raises);
      && DeliversPrefix(d.events, msgs)
      && (d.failure.None? <==> forall i :: 0 <= i < |msgs| ==> Deliverable(msgs[i], raises))
      && (d.failure.None? ==> |d.events| == |msgs|)
      && (d.failure == Some(KeyError("id")) ==>
            |d.events| < |msgs| && msgs[|d.events|].id.None? &&
            forall i :: 0 <= i < |d.events| ==> Deliverable(msgs[i], raises))
      && (d.failure == Some(CallbackError) ==>
            0 < |d.events| && msgs[|d.events| - 1].id.Some? && raises(msgs[|d.events| - 1]) &&
            forall i :: 0 <= i < |d.events| - 1 ==> Deliverable(msgs[i], raises))
      && (d.failure.Some? ==> d.failure == Some(KeyError("id")) || d.failure == Some(CallbackError))
    decreases |msgs|
  {
    if msgs != [] && msgs[0].id.Some? && !raises(msgs[0]) {
      DeliverAllShape(msgs[1..], raises);
    }
  }

  /** The ids of a batch whose messages all carry one (the `map(lambda x: x['id'], ...)`). */
  function IdsOf(msgs: seq<Message>): (ids: seq<int>)
    requires forall i :: 0 <= i < |msgs| ==> msgs[i].id.Some?
    ensures |ids| == |msgs|
    ensures forall i :: 0 <= i < |msgs| ==> Some(ids[i]) == msgs[i].id
  {
    seq(|msgs|, i requires 0 <= i < |msgs| => msgs[i].id.value)
  }

  /** Python's `max` on a non-empty sequence of ints. */
  function MaxOf(xs: seq<int>): (m: int)
    requires xs != []
    ensures m in xs
    ensures forall x :: x in xs ==> x <= m
    decreases |xs|
  {
    if |xs| == 1 then xs[0]
    else
      var rest := MaxOf(xs[1..]);
      assert xs == [xs[0]] + xs[1..];
      if xs[0] >= rest then xs[0] else rest
  }

  /** Python's `max`, which raises ValueError on an empty sequence. */
  function PyMax(xs: seq<int>): (r: Result<int, Exception>)
    ensures r.Err? <==> xs == []
    ensures r.Err? ==> r.error == ValueError
    ensures r.Ok? ==> r.value in xs && forall x :: x in xs ==> x <= r.value
  {
    if xs == [] then Err(ValueError) else Ok(MaxOf(xs))
  }

  /** The maximum id of a batch with ids is the maximum of IdsOf. */
  lemma {:induction false} MaxOfIdsIsMaxId(msgs: seq<Message>)
    requires msgs != []
    requires forall i :: 0 <= i < |msgs| ==> msgs[i].id.Some?
    ensures IsMaxId(MaxOf(IdsOf(msgs)), msgs)
  {
    var ids := IdsOf(msgs);
    var m := MaxOf(ids);
    var k :| 0 <= k < |ids| && ids[k] == m;
    assert msgs[k].id == Some(m);
    forall i | 0 <= i < |msgs| && msgs[i].id.Some?
      ensures msgs[i].id.value <= m
    {
      assert ids[i] in ids;
    }
  }

  // ---------------------------------------------------------------- watch loop

  /** What `wss_init` meets: both steps succeed, `websockets.connect` raises (so `self.wss`
      is not assigned), or the connection opens and sending the login line raises. */
  datatype ConnectResult = Connected | ConnectFailed(cause: Cause) | LoginFailed(cause: Cause)

  /** What one `recv` yields: a frame, or an exception (a closed socket, or the time-out). */
  datatype RecvResult = Received(frame: Frame) | RecvFailed(cause: Cause)

  /** The inputs of one pass of the outer loop: the connection attempt and the results the
      connection's successive `recv` calls would give. */
  datatype Session = Session(connect: ConnectResult, recv: seq<RecvResult>)

  /** An effect of the watch loop: a batch cycle scheduled with `ensure_future`, a
      connection assigned to `self.wss` (numbered by its pass), its close scheduled,
      or the retry sleep. */
  datatype LoopEvent = Trigger | Open(conn: nat) | Close(conn: nat) | Sleep

  /** Why an observed run of `watch_loop` ends: the inputs ran out while it was still
      going, an exception escaped it, or it left the loop on KeyboardInterrupt. */
  datatype Stop = Exhausted | Crashed(error: Exception) | Quit

  /** `wss_destroy` as written (AttributeError on None) or guarded (a no-op on None). */
  datatype DestroyPolicy = AsWritten | Guarded

  /** What `wss_destroy` schedules, and the exception it raises, if any. */
  datatype Teardown = Teardown(closed: seq<LoopEvent>, error: Option<Exception>)

  function Destroy(wss: Option<nat>, policy: DestroyPolicy): (t: Teardown) {
    if wss.Some? then Teardown([Close(wss.value)], None)
    else if policy == AsWritten then Teardown([], Some(AttributeError))
    else Teardown([], None)
  }

  /** `wss_wait`: receive one frame and decode it. */
  function Wait(r: RecvResult): (s: Result<PushMessage, Exception>)
    ensures r.RecvFailed? ==> s == Err(ChannelError(r.cause))
    ensures r.Received? ==> s == Decode(r.frame)
  {
    match r
    case Received(f) => Decode(f)
    case RecvFailed(c) => Err(ChannelError(c))
  }

  /** `wss_wait` returns a signal exactly when the receive gave one of the four payloads. */
  lemma WaitSignalsOnlyKnownFrames(r: RecvResult)
    ensures Wait(r).Ok? <==>
      r.Received? && r.frame in {Bytes([0x23]), Bytes([0x21]), Bytes([0x52]), Bytes([0x45])}
  {
    if r.Received? {
      DecodeOnlyKnownPayloads(r.frame);
    }
  }

  /** A receive result after which the inner loop goes on reading. */
  predicate Continues(r: RecvResult) {
    Wait(r) == Ok(Keepalive) || Wait(r) == Ok(NewMessage)
  }

  /** The number of NEWMESSAGE signals among the receive results. */
  function CountNew(rs: seq<RecvResult>): nat
    decreases |rs|
  {
    if rs == [] then 0 else (if Wait(rs[0]) == Ok(NewMessage) then 1 else 0) + CountNew(rs[1..])
  }

  /** How the inner `while True` ends: the receive results ran out, `break`, or an exception. */
  datatype InnerExit = RanOut | Broke | Raised(error: Exception)

  /** The inner loop's effects, how it ended, and how many receive results it used. */
  datatype InnerRun = InnerRun(events: seq<LoopEvent>, exit: InnerExit, used: nat)

  /** One pass of the outer loop: its effects, whether the run stops (None: the loop goes
      round again), and `self.wss` afterwards. */
  datatype Round = Round(events: seq<LoopEvent>, stop: Option<Stop>, wss: Option<nat>)

  /** An observed run of `watch_loop`: its effects, why it ends, and `self.wss` at the end. */
  datatype Watch = Watch(events: seq<LoopEvent>, stop: Stop, wss: Option<nat>)

  function Extend(pre: seq<LoopEvent>, k: nat, r: InnerRun): InnerRun {
    InnerRun(pre + r.events, r.exit, k + r.used)
  }

  function Then(pre: seq<LoopEvent>, w: Watch): Watch {
    Watch(pre + w.events, w.stop, w.wss)
  }

  /** Every effect of the inner loop is a scheduled batch. */
  predicate OnlyTriggers(events: seq<LoopEvent>) {
    forall i :: 0 <= i < |events| ==> events[i] == Trigger
  }

  /** The inner loop read the receive results up to `r.used`, went on past each one it did
      not stop at, scheduled one batch per NEWMESSAGE among them and nothing else, and
      stopped at a failure, an unknown frame, RELOADREQUEST or ERROR. */
  predicate InnerShape(rs: seq<RecvResult>, r: InnerRun) {
    && r.used <= |rs|
    && OnlyTriggers(r.events)
    && |r.events| == CountNew(rs[..r.used])
    && (r.exit == RanOut ==> r.used == |rs| && forall j :: 0 <= j < |rs| ==> Continues(rs[j]))
    && (r.exit != RanOut ==> 0 < r.used && forall j :: 0 <= j < r.used - 1 ==> Continues(rs[j]))
    && (r.exit == Broke ==> Wait(rs[r.used - 1]) in {Ok(ReloadRequest), Ok(Error)})
    && (r.exit.Raised? ==> Wait(rs[r.used - 1]) == Err(r.exit.error))
  }

  /** The number of batches an effect sequence schedules. */
  function Triggers(events: seq<LoopEvent>): nat
    decreases |events|
  {
    if events == [] then 0 else (if events[0] == Trigger then 1 else 0) + Triggers(events[1..])
  }

  lemma {:induction false} TriggersAppend(a: seq<LoopEvent>, b: seq<LoopEvent>)
    ensures Triggers(a + b) == Triggers(a) + Triggers(b)
    decreases |a|
  {
    if a == [] {
      assert a + b == b;
    } else {
      assert (a + b)[0] == a[0];
      assert (a + b)[1..] == a[1..] + b;
      TriggersAppend(a[1..], b);
    }
  }

  lemma {:induction false} TriggersOnly(events: seq<LoopEvent>)
    requires OnlyTriggers(events)
    ensures Triggers(events) == |events|
    decreases |events|
  {
    if events != [] {
      TriggersOnly(events[1..]);
    }
  }
}
