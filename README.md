# pullover-cli, modelled in Dafny

pullover-cli is a desktop client for the Pushover notification service. It
fetches the messages pending for a device over the HTTP API, hands each one to
a callback that shows a desktop notification, and then advances the device's
"highest message" watermark on the service to the largest id it delivered. It
also listens on a websocket: one-byte push frames tell it to fetch again
(`!`), that the connection is alive (`#`), or that it should reconnect
(`R`, `E`).

The repository has two clients. `pullover/client.py` is the one the
command-line program runs. `pushover/client.py` is an older variant. This
project models the decision logic of both, and the notification formatting of
`pullover-cli.py`. The network and the event loop become abstract inputs:

- an HTTP call becomes a `Response`: either no usable reply or a decoded reply;
- a websocket pass becomes a `Session`: how the connect-and-login step ended,
  then the results that successive `recv` calls would give;
- the callback becomes a predicate saying on which messages it raises.

The observable behaviour becomes a trace. A batch cycle yields `Deliver(msg)`
(the callback ran on `msg`) and `Advance(id)` (the watermark POST was issued),
plus how the cycle ended. The watch loop yields `Trigger` (a batch cycle was
scheduled), `Open(n)` and `Close(n)` (connection `n` was assigned to
`self.wss` or its close was scheduled) and `Sleep` (the retry back-off), plus
why it stopped.

Modules:

- `protocol.dfy` (`Protocol`): the reply status check, the two HTTP calls'
  outcomes, and the push-frame decoding. Both clients carry identical copies of
  this code (`pushover/client.py:24-28`, `44-71`, `88-97`), so one model serves
  both.
- `events.dfy` (`Events`): inputs, traces, the per-message delivery loop
  shared by both clients, Python's `max`, and `wss_destroy`'s effect.
- `pullover.dfy` (`Pullover`): the batch cycle and watch loop of
  `pullover/client.py`, as specification functions, and the class
  `PulloverClient`. Its field `wss` is the open connection. The methods
  `MessageGetAndUpdate`, `Listen` (the inner loop), `Iterate` (one pass of the
  outer loop) and `WatchLoop` are proved equal to those functions. `WssInit`
  and `WssDestroy` state the new `wss` directly, and `WssDestroy` also agrees
  with `Events.Destroy`.
- `pushover.dfy` (`Pushover`): the same for `pushover/client.py`, plus lemmas
  that relate the two clients.
- `cli.dfy` (`PulloverCli`): `notify_send`'s title and body.

The watch loop runs forever in the source. The model runs it over a finite
list of sessions. When the list runs out while the loop is still going, the
run ends as `Exhausted`. When the receive results of a connected pass run out,
the run also ends as `Exhausted`, with that connection still held.

`wss_destroy` is modelled under two policies. `AsWritten` follows the code:
closing `None` raises AttributeError. `Guarded` makes it a no-op on `None`.
See "## Findings".

Behaviour of the code worth noting:

- after a RELOADREQUEST or ERROR signal, `pullover/client.py:123-124` breaks
  out of the inner loop and reconnects at once, with no back-off sleep; only
  the exception path sleeps (`pullover/client.py:125-129`);
- a failed fetch is not retried within the cycle: `messages()` raises out of
  `message_get_and_update` (`pullover/client.py:80`);
- nothing serialises concurrent batch cycles: each is started with
  `ensure_future` and no lock (`pullover/client.py:112`, `121-122`);
- an AttributeError from `wss_destroy` escapes `watch_loop`
  (`pullover/client.py:105-108`, `130-131`).

## Model

| member | source | states |
|---|---|---|
| Protocol.CheckResult | pullover/client.py:49-51 | A reply is accepted exactly when its status equals 1 under Python's `==` (the int 1 or `true`). A missing status counts as 0 and is rejected. A rejected reply raises PushoverException carrying the reply's `errors`, or "Unknown Error" when it has none. |
| Protocol.FetchMessages | pullover/client.py:53-63 | `messages()` returns the reply's message list exactly when there is a reply, it passes the status check, and it has a `messages` key. Otherwise it raises the status error, ClientError when there is no usable reply, or KeyError('messages'). |
| Protocol.UpdateHighestMessage | pullover/client.py:65-76 | The watermark POST succeeds exactly when there is a reply and it passes the status check. Otherwise it raises ClientError when there is no usable reply, or the status check's PushoverException, carrying the reply's `errors` or "Unknown Error". |
| Protocol.PayloadOf | pullover/client.py:29-33 | Each signal's payload is a single byte. |
| Protocol.Lookup | pullover/client.py:97-101 | The for/else search returns a member whose payload equals the frame and that is among the candidates, or none when no candidate's payload matches. |
| Protocol.Decode | pullover/client.py:94-103 | The only decoding error is the unknown-push-message error, and it carries the received frame. A text frame is never decoded, because Python's bytes never equal str. |
| Protocol.PayloadsDistinct | pullover/client.py:29-33 | Two signals have the same payload exactly when they are the same signal. |
| Protocol.DecodeRoundTrip | pullover/client.py:97-99 | Decoding a signal's own payload gives back that signal. |
| Protocol.DecodeOnlyKnownPayloads | pushover/client.py:91-95 | A frame decodes exactly when it is one of the bytes frames `#`, `!`, `R`, `E`. A decoded frame is its signal's payload. Any other frame raises. |
| Events.DeliverAllShape | pullover/client.py:81-83 | The message loop calls back on a prefix of the batch, once per message and in order. It finishes the batch exactly when every message has an id and no callback raises. Otherwise it stops at the first message without an id (before calling back) or the first whose callback raises (after calling back). |
| Events.IdsOf | pullover/client.py:85 | The ids of a batch are, position by position, the messages' `id` values. |
| Events.MaxOf | pullover/client.py:85-86 | `max` of a non-empty sequence is one of its elements and at least every element. |
| Events.PyMax | pushover/client.py:79-80 | `max` raises ValueError exactly on an empty sequence. Otherwise it returns an element that is at least every element. |
| Events.MaxOfIdsIsMaxId | pullover/client.py:85-86 | The maximum of a batch's ids is the id of one of its messages and at least every id in the batch. |
| Events.DeliverAll | pullover/client.py:81-83 | The `for` loop over the batch: the callbacks made and the exception that stopped it. Contract: see `Events.DeliverAllShape`. |
| Events.Destroy | pullover/client.py:105-108 | `wss_destroy`: closes the held connection, or raises AttributeError on None as written. Contract: see `Pullover.PulloverClient.WssDestroy`, whose `ensures` ties it to this function. |
| Events.Wait | pullover/client.py:94-103 | `wss_wait` lets a failed receive or time-out through as a channel error. Otherwise it returns the decoding of the received frame. See also `Events.WaitSignalsOnlyKnownFrames`. |
| Events.WaitSignalsOnlyKnownFrames | pullover/client.py:94-103 | `wss_wait` returns a signal exactly when the receive succeeded with one of the four bytes frames `#`, `!`, `R`, `E`. |
| Pullover.GetAndUpdate | pullover/client.py:78-86 | `message_get_and_update` as a function of the fetch reply, the callback and the watermark reply. Contract: see `Pullover.GetAndUpdateShape` and `Pullover.AdvanceComesLast`. |
| Pullover.GetAndUpdateShape | pullover/client.py:78-86 | A cycle whose fetch fails calls back on nothing and makes no watermark call. Otherwise the callback runs once per message, in returned order. A non-empty batch that is delivered in full then gets exactly one watermark call, carrying its maximum id, and the cycle ends as that call does. An empty batch makes no call. An interrupted batch makes no watermark call: its callbacks are exactly those of the message loop, up to the message that stopped it, and it fails with that loop's exception (see `Events.DeliverAllShape`). |
| Pullover.AdvanceComesLast | pullover/client.py:84-86 | A watermark call happens only after a successful fetch. It is the last event, after the callback has run on every message, and it carries the maximum id. |
| Pullover.TwoMessageCycle | pullover/client.py:78-86 | With pending ids 5 and 7, the callback runs on 5, then on 7, and then the watermark advances to 7. |
| Pullover.PullInner | pullover/client.py:115-124 | The inner `while True` as a function of the receive results. Contract: see `Pullover.PullInnerReads`, `Pullover.PullInnerCounts` and `Pullover.PullInnerShape`. |
| Pullover.PullInnerReads | pullover/client.py:115-124 | The inner loop reads up to the first result that is not KEEPALIVE or NEWMESSAGE, and reads every result when there is none. It leaves on RELOADREQUEST or ERROR by `break`, and on a failed or unknown receive by raising that error. |
| Pullover.PullInnerCounts | pullover/client.py:118-122 | The inner loop schedules exactly one batch per NEWMESSAGE among the results it read, and nothing else. |
| Pullover.PullInnerShape | pullover/client.py:115-124 | The conjunction of `PullInnerReads` and `PullInnerCounts`, as one predicate on the inner loop's run. |
| Pullover.PullRound | pullover/client.py:111-131 | One pass of the outer loop. Contract: see `Pullover.PullRoundShape`, `Pullover.PullRoundTriggers`, `Pullover.PullRoundConnections` and `Pullover.PullRestarts`. |
| Pullover.PullRoundShape | pullover/client.py:110-131 | A pass schedules a batch before anything else. It opens a connection exactly when `websockets.connect` returned. It sleeps exactly on the exception path. It ends the observed run exactly when its receive results ran out inside the inner loop. It goes round again exactly when they did not and `wss_destroy` did not raise. On every other exit from the inner loop it destroys its connection last, leaving `wss` None. |
| Pullover.PullRoundTriggers | pullover/client.py:112-122 | A pass schedules one batch before connecting, plus one per NEWMESSAGE it reads, and no others. |
| Pullover.PullRoundConnections | pullover/client.py:113-131 | A pass opens only its own connection. It closes only that one, after opening it, or the one held on entry. It still holds a connection afterwards exactly when its receive results ran out inside the inner loop; otherwise it closes what it opened. When it goes round again, `wss` is None. |
| Pullover.PullRun | pullover/client.py:110-131 | `watch_loop` over a list of sessions. Contract: see `Pullover.PullRestarts`, `Pullover.PullExhaustedWhenInputsRunOut`, `Pullover.PullClosesConnections`, `Pullover.PullAsWrittenCrash` and `Pullover.PullGuardedNeverStops`. |
| Pullover.PullRestarts | pullover/client.py:123-131 | After a `break` or an exception, the run is that pass's effects followed by the run from the next session with no connection held, unless `wss_destroy` raised. |
| Pullover.PullExhaustedWhenInputsRunOut | pullover/client.py:110-131 | A run ends without an exception only because its inputs ran out. Either the first pass whose receive results ran out ends it, still holding its connection, or no pass ran out and every session was used. |
| Pullover.PullOpenedAreClosed | pullover/client.py:130-131 | Over a run, every opened connection is closed, except the one still held when the run ends without an exception. |
| Pullover.PullClosedWereOpened | pullover/client.py:105-108 | Over a run, nothing is closed that was not opened, except the connection held on entry. |
| Pullover.PullClosesConnections | pullover/client.py:110-131 | Over a whole run, every opened connection is closed, except one: the connection of the pass whose receive results ran out, still held at the end. Nothing is closed that was not opened, except the connection held on entry. |
| Pullover.PullAsWrittenCrash | pullover/client.py:105-131 | As written, the loop ends either without an exception (only when the inputs run out, by `Pullover.PullExhaustedWhenInputsRunOut`) or with AttributeError. AttributeError only happens after a pass whose `websockets.connect` raised. |
| Pullover.ConnectFailureEndsLoop | pullover/client.py:88-131 | As written, when `websockets.connect` raises and no socket is held, the loop schedules a batch, sleeps and then ends with AttributeError from `wss_destroy`. |
| Pullover.PullGuardedNeverStops | pullover/client.py:125-131 | With `wss_destroy` guarded against None, no exception escapes the loop. It restarts after every failure: every pass up to the first whose receive results run out is attempted, and each whose `websockets.connect` returned opens its connection. |
| Pullover.PulloverClient.constructor | pullover/client.py:41-47 | A new client holds no websocket. |
| Pullover.PulloverClient.MessageGetAndUpdate | pullover/client.py:78-86 | The imperative message loop yields exactly the cycle of `GetAndUpdate`, including the early exits on a missing id or a raising callback. |
| Pullover.PulloverClient.WssInit | pullover/client.py:88-92 | When `websockets.connect` raises, `wss` is left as it was. Otherwise `wss` holds the new connection, and the login send's failure, if any, is raised. |
| Pullover.PulloverClient.WssDestroy | pullover/client.py:105-108 | The held connection is closed and `wss` becomes None. With no connection held, the code as written raises AttributeError and the guarded variant does nothing. |
| Pullover.PulloverClient.Listen | pullover/client.py:115-124 | The inner `while` loop with `continue` and `break` produces exactly the run of `PullInner`. |
| Pullover.PulloverClient.Iterate | pullover/client.py:111-131 | One pass of the outer loop produces exactly the trace, stop and final `wss` of `PullRound` from the `wss` on entry. |
| Pullover.PulloverClient.WatchLoop | pullover/client.py:110-131 | The nested loops produce exactly the trace, stop and final `wss` of `PullRun` from the initial `wss`. |
| Pushover.GetAndUpdate | pushover/client.py:73-80 | `message_get_and_update` with the unguarded `max`. Contract: see `Pushover.GetAndUpdateShape`, `Pushover.EmptyBatchFails` and `Pushover.AgreesOnOtherBatches`. |
| Pushover.GetAndUpdateShape | pushover/client.py:73-80 | A failed fetch does nothing. Otherwise the callback runs once per message, in returned order, before any watermark call. A non-empty batch delivered in full ends with one watermark call carrying the maximum id. An empty batch ends with ValueError and no watermark call. An interrupted batch makes no watermark call: its callbacks are exactly those of the message loop, up to the message that stopped it, and it fails with that loop's exception. |
| Pushover.EmptyBatchFails | pushover/client.py:79-80 | On an empty batch this cycle fails with ValueError, while the newer client's cycle returns normally. Neither makes a watermark call. |
| Pushover.AgreesOnOtherBatches | pushover/client.py:73-80 | On every fetch outcome other than an empty batch, the two clients' cycles are identical. |
| Pushover.PushInner | pushover/client.py:107-116 | The inner `while True`. Contract: see `Pushover.InnerLoopsAgree`. |
| Pushover.InnerLoopsAgree | pushover/client.py:107-116 | Both inner loops behave identically. KEEPALIVE continues, ERROR and RELOADREQUEST break, and the only other signal, NEWMESSAGE, schedules one batch. |
| Pushover.PushRound | pushover/client.py:105-125 | One pass of the outer loop, with the KeyboardInterrupt exit. Contract: see `Pushover.PushRoundShape`, `Pushover.PushRoundTriggers`, `Pushover.PushRoundConnections` and `Pushover.PushRestarts`. |
| Pushover.PushRoundShape | pushover/client.py:104-125 | A pass never sleeps. It opens a connection exactly when `websockets.connect` returned. It leaves the outer loop on KeyboardInterrupt exactly when one occurred, unless `wss_destroy` raised first. It ends the observed run as Exhausted exactly when its receive results ran out inside the inner loop. It goes round again exactly when neither happened and `wss_destroy` did not raise. On every other exit from the inner loop it destroys its connection last. |
| Pushover.PushRoundTriggers | pushover/client.py:106-116 | A pass schedules one batch per NEWMESSAGE it reads. Connecting schedules none. |
| Pushover.PushRoundConnections | pushover/client.py:104-125 | A pass opens only its own connection. It closes only that one, after opening it, or the one held on entry. It still holds a connection afterwards exactly when its receive results ran out inside the inner loop; otherwise it closes what it opened. When it goes round again, `wss` is None. |
| Pushover.PushRun | pushover/client.py:104-125 | `watch_loop` over a list of sessions. Contract: see `Pushover.PushRestarts`, `Pushover.PushExhaustedWhenInputsRunOut`, `Pushover.PushClosesConnections`, `Pushover.PushAsWrittenCrash` and `Pushover.PushGuardedStopsOnlyOnInterrupt`. |
| Pushover.PushRestarts | pushover/client.py:114-125 | After a `break` or an exception other than KeyboardInterrupt, the run is that pass's effects followed by the run from the next session with no connection held, unless `wss_destroy` raised. |
| Pushover.PushExhaustedWhenInputsRunOut | pushover/client.py:104-125 | A run ends as Exhausted only because its inputs ran out. Either the first pass whose receive results ran out ends it, still holding its connection, with no KeyboardInterrupt before it, or no pass ran out or was interrupted and every session was used. |
| Pushover.PushOpenedAreClosed | pushover/client.py:124-125 | Over a run, every opened connection is closed, except the one still held when the run ends as Exhausted. |
| Pushover.PushClosedWereOpened | pushover/client.py:99-102 | Over a run, nothing is closed that was not opened, except the connection held on entry. |
| Pushover.PushClosesConnections | pushover/client.py:104-125 | Over a whole run, every opened connection is closed, except one: the connection of the pass whose receive results ran out, still held at the end. Nothing is closed that was not opened, except the connection held on entry. |
| Pushover.ConnectFailureEndsLoop | pushover/client.py:82-125 | As written, when `websockets.connect` raises (KeyboardInterrupt or not) and no socket is held, the loop ends at once with AttributeError. |
| Pushover.PushAsWrittenCrash | pushover/client.py:99-125 | As written, an exception escapes the loop only as AttributeError, and only after a pass whose `websockets.connect` raised. |
| Pushover.PushGuardedStopsOnlyOnInterrupt | pushover/client.py:117-125 | With `wss_destroy` guarded, the loop ends only as Exhausted or on a KeyboardInterrupt in one of its passes. It restarts after every other failure: every pass up to the first that runs out or is interrupted is attempted, and each whose `websockets.connect` returned opens its connection. |
| Pushover.PushoverClient.constructor | pushover/client.py:36-42 | A new client holds no websocket. |
| Pushover.PushoverClient.MessageGetAndUpdate | pushover/client.py:73-80 | The imperative message loop, followed by an unguarded `max`, yields exactly the cycle of `GetAndUpdate`. |
| Pushover.PushoverClient.WssInit | pushover/client.py:82-86 | When `websockets.connect` raises, `wss` is left as it was. Otherwise `wss` holds the new connection, and the login send's failure, if any, is raised. |
| Pushover.PushoverClient.WssDestroy | pushover/client.py:99-102 | The held connection is closed and `wss` becomes None. With no connection held, the code as written raises AttributeError and the guarded variant does nothing. |
| Pushover.PushoverClient.Listen | pushover/client.py:107-116 | The inner `while` loop with `continue` and `break` produces exactly the run of `PushInner`. |
| Pushover.PushoverClient.Iterate | pushover/client.py:105-125 | One pass of the outer loop, including the KeyboardInterrupt exit, produces exactly the trace, stop and final `wss` of `PushRound`. |
| Pushover.PushoverClient.WatchLoop | pushover/client.py:104-125 | The nested loops produce exactly the trace, stop and final `wss` of `PushRun` from the initial `wss`. |
| PulloverCli.NotifySend | pullover-cli.py:21-25 | The title is the message's `title` when present and non-empty, else its `app`, else empty. It is empty exactly when neither is a non-empty string. The body starts with the `message` text (empty when absent). It equals that text exactly when there is no `url` key. With a url it is longer by the url plus three characters. |
| PulloverCli.UrlRecoverable | pullover-cli.py:24-25 | With a `url` key, the body is the message text, then " [", then the url, then "]". |
| PulloverCli.ReadsOnlyItsKeys | pullover-cli.py:21-25 | Two messages that agree on title, app, message and url give the same notification. No other key is read. |

## Left out

- The HTTP requests through the aiohttp session, and JSON decoding. A call is
  reduced to a `Response`, and every transport or decoding failure is one
  ClientError.
- The websocket connect, login send and receive. They are reduced to a
  `ConnectResult` and a list of `RecvResult`. The login line's text is not
  modelled.
- asyncio scheduling. A batch scheduled by `ensure_future` is a `Trigger`
  event. The model does not run it, and does not interleave it with the loop.
  The scheduled `close()` is a `Close` event.
- Real time. The keep-alive time-out of `wait_for` is an ordinary receive
  failure. `asyncio.sleep(RETRY_SLEEP)` is a `Sleep` event without a duration.
- KeyboardInterrupt is modelled only where `websockets.connect`, the login
  send or a receive raise. An interrupt inside the back-off sleep or inside
  `wss_destroy` is not modelled.
- The `_do_pull` timer in `pullover-cli.py`, which schedules a cycle every
  `pull_interval` seconds.
- Logging, the `__main__` blocks, argparse, and libnotify's
  `Notify.Notification.new` and `show`. `NotifySend` returns the title and
  body instead of showing them.
- `pushover/client.py` imports `asyncio` only under `__main__`. Imported as a
  module, its `ensure_future` calls would raise NameError. The model assumes
  that script context.
- Protocol.CheckResult: `str()` is not applied to the errors value. The
  exception carries the value itself.
- JSON floats and objects as `status` and `errors` values, so Python's
  `1.0 == 1` is not covered; and message fields other than `id` whose values
  are not strings.
- A reply that is not a JSON object. `result.get` would raise AttributeError
  (`pullover/client.py:50`); `Reply` cannot represent it.
- A `messages` value that is not a list. The `for` loop, or the `['id']`
  lookup on what it yields, would raise TypeError (`pullover/client.py:81-82`);
  `Reply.messages` is a list of `Message`.
- An `id` that is present but not an int. A batch mixing int and string ids
  makes `max` raise TypeError (`pullover/client.py:85`), and all-string ids
  would be compared as strings; `Message.id` is `Option<int>`.
- The callback's own effects. Only whether it raises is modelled.
- test.py, which holds no client logic.

## Findings

| source | as written | input that shows it | evidently intended | confidence | as-written member | corrected member |
|---|---|---|---|---|---|---|
| pullover/client.py:105-108 | When `websockets.connect` raises, `self.wss` is still None. The `finally` then calls `None.close()`, and the AttributeError replaces the `continue`, so `watch_loop` ends. | A first pass whose `websockets.connect` raises, for example because the network is down. | Skip the close when nothing is held, sleep, and reconnect. | high (by reading; not executed) | Pullover.ConnectFailureEndsLoop | Pullover.PullGuardedNeverStops |
| pushover/client.py:99-102 | The same `None.close()` in the `finally`. It also turns a KeyboardInterrupt during connect into an AttributeError instead of a clean exit. | A first pass whose `websockets.connect` raises, or is interrupted. | Skip the close when nothing is held. Restart on errors and quit on KeyboardInterrupt. | high (by reading; not executed) | Pushover.ConnectFailureEndsLoop | Pushover.PushGuardedStopsOnlyOnInterrupt |
| pushover/client.py:79-80 | `max` is applied to the ids of every batch. | A fetch reply `{"status": 1, "messages": []}` raises ValueError. | Skip the watermark call on an empty batch, as `pullover/client.py:84-86` does. | high (by reading; not executed) | Pushover.EmptyBatchFails | Pullover.GetAndUpdateShape |
