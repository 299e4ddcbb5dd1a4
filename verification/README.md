# AmqpConsumer lifecycle model

A Dafny model of `AmqpConsumer`, a consumer adapter for a fanout publish/subscribe
broker that speaks AMQP. The consumer binds a service to a topic and receives the
messages delivered to the service's queue. It hands each body to an application
handler and stops when it receives the body `"quit"`.

The model is a functional state machine. The object's two nullable fields (the
connection and the channel) become an immutable `Consumer` value. Every operation
returns the next `Consumer` and the calls it made, as a trace of `Event`s. An
`Oracle` stands in for the broker client and answers on its behalf:

- whether each numbered construction attempt succeeds, and which connection it yields;
- what `isConnected()` reports;
- whether `reconnect()` throws, and what;
- which channel `channel()` opens.

The deliveries of one `consume` call are an input sequence. Each delivery says
whether the handler throws when called with that message. Properties are stated
about the traces: what is called, how often, and in what order.

Modules:

- `Results`: `Option` (PHP `null`) and `Result` (return or throw).
- `Broker`: the handles and messages, and the `Event` trace. Also three ways to read a trace: `Count` by kind, `Phase` order, and the `Acked` / `Handled` projections.
- `Lifecycle`: the constructor, `createConnection`, `getConnection`, `getChannel` and `__destruct` (`Teardown`).
- `Consuming`: queue naming, the topology calls, the per-message callback, the delivery loop, `consume`, and series of `consume` calls.

Three behaviours of the code are easy to misread, and the model states them as written:

- The liveness check and reconnect in `getConnection` run only while no channel is cached, because `getChannel` calls `getConnection` only then. Once a channel exists, no later `consume` checks the connection again (`GetChannelReuse`, `RunKeepsHandles`).
- `createConnection` has no early exit. It always makes nine attempts, even after one has succeeded, and keeps the connection of the latest one that succeeded (`CreateConnectionNoEarlyExit`).
- The reconnect `catch` takes only `Exception`. A PHP `Error` thrown by `reconnect()` escapes unwrapped (`ConsumeError.Escaped`), not as "Can not reconnect".

## Model

| member | source | states |
|---|---|---|
| Lifecycle.New | src/AmqpConsumer.php:32-41 | A new consumer holds no connection and no channel. It keeps the service name and the endpoint tuple (host, port, user, password) in that order. |
| Lifecycle.NewDefaults | src/AmqpConsumer.php:35-40 | Without explicit values, port is 5672, user is "guest" and password is "guest". |
| Lifecycle.AttemptLoopAt | src/AmqpConsumer.php:108-117 | In the loop started at attempt n, attempt a (n to 9) sits at position 2(a-n): a construction call numbered a with the endpoint tuple, then a 100 µs pause, whatever the outcomes. |
| Lifecycle.AttemptLoopNone | src/AmqpConsumer.php:110-117 | If every remaining attempt throws, the loop ends holding what it started with. It ends holding nothing iff it started with nothing and they all threw. |
| Lifecycle.AttemptLoopLatest | src/AmqpConsumer.php:110-117 | If some remaining attempt succeeds, the loop ends holding the connection of the latest successful one: every later attempt threw. |
| Lifecycle.AttemptLoopCount | src/AmqpConsumer.php:110-116 | The loop makes exactly one construction call and one pause per remaining attempt, and no other call. |
| Lifecycle.AttemptLoopPhase | src/AmqpConsumer.php:110-116 | The loop makes only acquisition-stage calls. |
| Lifecycle.CreateConnection | src/AmqpConsumer.php:118-121 | A failure is always the creation failure, whose message is "Can not create connection". |
| Lifecycle.CreateConnectionResult | src/AmqpConsumer.php:105-122 | It throws iff all 9 attempts threw. Otherwise it returns the connection of some attempt after which every attempt threw: the latest success. |
| Lifecycle.CreateConnectionCalls | src/AmqpConsumer.php:108-117 | Whatever the outcomes: exactly 9 construction calls and 9 pauses, nothing else, all in the acquisition stage. |
| Lifecycle.CreateConnectionTrace | src/AmqpConsumer.php:107-117 | 18 calls in all. Attempt a (1 to 9) is the construction call with the endpoint tuple at position 2(a-1), directly followed by its pause. |
| Lifecycle.CreateConnectionNoEarlyExit | src/AmqpConsumer.php:110-119 | When every attempt succeeds, all 9 are still made and the 9th connection is returned. |
| Lifecycle.CheckLiveness | src/AmqpConsumer.php:95-101 | First one liveness query on the given connection, then, iff it reports itself dead, one reconnect of that same connection, and no other call. It fails iff that reconnect threw: an Exception becomes "Can not reconnect" with the cause attached, an Error escapes as is. |
| Lifecycle.GetConnection | src/AmqpConsumer.php:90-103 | A cached connection is never replaced and the channel is untouched. The creation failure is thrown iff nothing was cached and creation failed, and then nothing is cached. Otherwise a newly created connection is exactly the one `createConnection` returned, and it stays cached even if the following reconnect throws. Once a connection exists, a failure happens iff it reports itself dead and the reconnect throws, and it is that reconnect's failure. |
| Lifecycle.GetConnectionPrefix | src/AmqpConsumer.php:92-101 | Without a cached connection, the calls begin with exactly those of `createConnection`. Once a connection is held, the next call is the liveness query on that connection. Nothing else is called: the calls are the construction attempts (if any), then the liveness calls on the held connection. |
| Lifecycle.GetConnectionCalls | src/AmqpConsumer.php:90-94 | The 9 construction attempts happen iff no connection was cached. No channel is opened, and every call is an acquisition-stage call. |
| Lifecycle.GetConnectionChecks | src/AmqpConsumer.php:95-101 | One liveness query iff a connection is held afterwards, and one reconnect iff, in addition, it reports itself dead. |
| Lifecycle.GetConnectionCreateFails | src/AmqpConsumer.php:90-94 | The creation failure is thrown iff no connection was cached and all 9 attempts threw. |
| Lifecycle.GetChannel | src/AmqpConsumer.php:82-88 | A cached channel is returned with no call at all and nothing changes. Otherwise it succeeds whenever `getConnection` does, and it fails only with `getConnection`'s failure. Either way it leaves cached the connection that `getConnection` left cached, so a connection created before a failed reconnect is kept. On success it returns the channel that `channel()` opened. That open is the last call, made on the held connection, and the channel is cached. On failure no channel is cached. Well-formedness (no channel without a connection) is kept. |
| Lifecycle.GetChannelCalls | src/AmqpConsumer.php:84-86 | Without a cached channel, the 9 construction attempts happen iff no connection was cached. One channel open happens iff a channel was missing and the acquisition succeeded. |
| Lifecycle.GetChannelPrefix | src/AmqpConsumer.php:84-86 | Without a cached channel, the calls begin with exactly those of `getConnection`, and only the channel open follows, on success. All calls are acquisition-stage calls. |
| Lifecycle.GetChannelFails | src/AmqpConsumer.php:82-121 | Acquisition throws iff no channel is cached and either nothing was cached and all 9 attempts threw, or the connection reports itself dead and the reconnect throws. |
| Lifecycle.GetChannelReuse | src/AmqpConsumer.php:84-87 | After a successful acquisition, any later one returns the same channel and makes no call. This holds even when the broker would now report the connection dead. |
| Lifecycle.Teardown | src/AmqpConsumer.php:124-138 | One channel close iff a channel is cached and one connection close iff a connection is cached, nothing else. The channel is closed before the connection, and nothing is thrown. |
| Lifecycle.TeardownUnused | src/AmqpConsumer.php:126-137 | A consumer without a connection makes no calls on teardown. |
| Lifecycle.TeardownIgnoresOutcomes | src/AmqpConsumer.php:127-136 | The closes made are the same whether or not earlier closes threw. |
| Lifecycle.TeardownNeverConnected | src/AmqpConsumer.php:124-138 | A freshly constructed, never used consumer makes no calls on teardown. |
| Consuming.QueueName | src/AmqpConsumer.php:50 | The queue name is the topic, then one dot, then the service name. |
| Consuming.QueueNameInjective | src/AmqpConsumer.php:50 | For topics without a dot, equal queue names imply equal topics and services. |
| Consuming.QueueNameAmbiguous | src/AmqpConsumer.php:50 | With a dot in the topic, ("a.b", "c") and ("a", "b.c") share the queue "a.b.c". |
| Consuming.QueueNameExample | src/AmqpConsumer.php:50 | Topic "orders" and service "billing" give "orders.billing". |
| Consuming.Callback | src/AmqpConsumer.php:63-76 | The handler is called once, with (body, topic). The message is acked once, whatever the handler did. A cancel of the message's own consumer tag, on its own channel, happens iff the body is exactly "quit" and the message has a channel. Order: handler, ack, cancel. |
| Consuming.CallbackShape | src/AmqpConsumer.php:63-76 | A handler call, an ack and at most one cancel, in that order, reach the handler once, ack once, cancel as often as the cancel part says, and are delivery-stage calls. |
| Consuming.CallbackProjections | src/AmqpConsumer.php:64-68 | Those calls hand exactly the handler call's (body, topic) to the handler and ack exactly the ack's delivery tag. |
| Consuming.CallbackCancels | src/AmqpConsumer.php:70-75 | Those calls cancel exactly as often as the cancel part has calls. |
| Consuming.CallbackIgnoresHandlerOutcome | src/AmqpConsumer.php:64-68 | Whether the handler throws changes nothing after the handler call. |
| Consuming.Dispatch | src/AmqpConsumer.php:63-79 | Deliveries are processed in order. The loop stops right after the first message that cancels, and otherwise processes every delivery. |
| Consuming.DispatchPrefix | src/AmqpConsumer.php:63-76 | For every processed delivery k, the loop's calls begin with the calls for deliveries before k and then k's whole callback. So each delivery is handled, acked and (if it is the sentinel) cancelled before anything is done for the next. |
| Consuming.DispatchCancelled | src/AmqpConsumer.php:70-75 | The loop is cancelled iff some delivery has body "quit" and a channel. |
| Consuming.DispatchCalls | src/AmqpConsumer.php:63-68 | Every processed delivery reaches the handler once with its body and the topic, and is acked once, in delivery order. |
| Consuming.DispatchCancels | src/AmqpConsumer.php:70-75 | At most one cancel, issued iff the loop was cancelled, and it is the loop's last call. |
| Consuming.SetupOrdered | src/AmqpConsumer.php:51-62 | Order of the setup calls: queue declare, exchange declare, bind, basic_consume, consume. |
| Consuming.SetupCounts | src/AmqpConsumer.php:51-62 | The setup makes each of the five calls exactly once and no acquisition call. |
| Consuming.Consume | src/AmqpConsumer.php:46-80 | Only an acquisition failure is thrown, and then no channel is cached. Without a cached channel, the connection left cached is the one `getConnection` left cached, even when `consume` throws. On success a channel is cached. It returns iff some delivery cancels. It keeps the handles well-formed and never replaces a cached one. |
| Consuming.ConsumeOrdered | src/AmqpConsumer.php:46-80 | The whole trace goes in stage order: acquisition, the five setup calls in order, the deliveries. A failed `consume` makes only acquisition calls. |
| Consuming.ConsumeTopology | src/AmqpConsumer.php:50-62 | On success, all on the cached channel: a durable, non-exclusive, non-auto-delete declare of queue topic + "." + service; a durable "fanout" declare of exchange topic; a bind of that queue to it; a basic_consume under the service tag with no-ack false; and a consume. |
| Consuming.ConsumeSetupCounts | src/AmqpConsumer.php:51-62 | On success, each of the five setup calls happens exactly once. |
| Consuming.ConsumeProjections | src/AmqpConsumer.php:63-79 | On success, exactly the processed deliveries were handled with the topic and acked, in order. It returns iff the loop was cancelled. |
| Consuming.ConsumeBlocked | src/AmqpConsumer.php:63-79 | Still blocked: every delivery so far was handled once and acked once, in order. |
| Consuming.ConsumeCancelled | src/AmqpConsumer.php:63-79 | If delivery n is the first with body "quit" and a channel, a successful `consume` returns, and exactly the deliveries up to and including n were handled and acked, in order. |
| Consuming.ConsumeTrace | src/AmqpConsumer.php:46-80 | The calls of `consume` begin with exactly those of `getChannel`. A failed `consume` makes no other call. A successful one adds the five setup calls and ends with exactly the delivery loop's calls. |
| Consuming.ConsumeCancels | src/AmqpConsumer.php:63-79 | A `consume` that returns has issued exactly one cancel, as its last call. One still blocked has issued none. |
| Consuming.ConsumeFails | src/AmqpConsumer.php:82-121 | `consume` throws iff no channel is cached and either nothing was cached and all 9 attempts threw, or the connection reports itself dead and the reconnect throws. What it throws is `getConnection`'s failure. |
| Consuming.ConsumeFailureStops | src/AmqpConsumer.php:46-48 | A failed `consume` makes no setup call, no handler call and no ack. |
| Consuming.ConsumeAcquisitionCounts | src/AmqpConsumer.php:82-93 | Without a cached channel, `consume` makes exactly 9 construction attempts if no connection was cached, and none otherwise. With a cached connection, it makes no construction attempt. With a cached channel, it makes no channel open, liveness query or reconnect. |
| Consuming.RunKeepsHandles | src/AmqpConsumer.php:82-103 | Across any series of `consume` calls, a cached connection is never replaced or constructed again. Once a channel is cached, no call opens another, checks liveness or reconnects. Well-formedness is kept. |
| Consuming.TeardownAfterConsume | src/AmqpConsumer.php:124-138 | After a successful `consume`, teardown closes exactly the cached channel and then the cached connection. |
| Consuming.ScenarioAcquire | src/AmqpConsumer.php:82-121 | When every attempt succeeds and the connection is alive, the first acquisition caches the 9th connection and the opened channel. |
| Consuming.ScenarioLoop | src/AmqpConsumer.php:63-76 | Deliveries "hello" then "quit" on channel 1 under tag "billing": the loop handles both with the topic, acks 1 and 2, and cancels "billing" on channel 1 as its last call. |
| Consuming.OrdersScenario | src/AmqpConsumer.php:46-80 | Topic "orders", service "billing", deliveries "hello" then "quit" (whose handler throws). Both are handled with "orders" and acked as 1, 2. The consumer tag "billing" is cancelled last, and `consume` returns. |

## Left out

- The broker client's internals: AMQP framing, sockets, and how connections and channels behave. They appear only as oracle answers and trace events.
- Failures of `channel()`, `queue_declare`, `exchange_declare`, `queue_bind`, `basic_consume`, `consume()`, `ack()` and `basic_cancel()`: the oracle gives no outcome for them, so the model treats these calls as returning.
- The broker client's loop returning once the callback has issued a cancel is the client's behaviour. `Dispatch` takes it as its stopping rule rather than proving it. The rule ignores which consumer tag and channel the cancel names. A cancel of a null tag (sent as ""), or one on a channel other than the subscribed one, still ends the loop in the model. Deliveries are finite, so a `consume` that has not been cancelled ends as `Blocked`, still waiting.
- `usleep(100)` is a `Pause(100)` event with no timing.
- One `Oracle` serves each `consume` call. Liveness can differ between calls but is asked at most once per call, as in the source.
- The connections of earlier successful attempts that `createConnection` overwrites are dropped without a close. What the client library does with them is not modelled.
- Exception classes beyond three cases: creation failed, reconnect failed with a cause, and an Error escaping from reconnect. The handler's exceptions are only "threw" or "returned".
- The handler's logic is an opaque per-delivery outcome.
- PHP destructor timing and garbage collection: teardown is an explicit operation.
- Concurrency: the consumer is single-threaded.
- Endpoint validation (non-empty host, valid port): the source does none, and neither does the model.
