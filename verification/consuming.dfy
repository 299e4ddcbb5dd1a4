/**
  `consume`: acquire the channel, declare the per-service queue and the
  topic's fanout exchange, bind them, subscribe with the service name as the
  consumer tag, and run the broker client's delivery loop, which hands every
  delivered message to the per-message callback.

  The deliveries the broker makes during one call are an input sequence. The
  broker client's loop returning once the callback has cancelled the
  subscription is the client's behaviour, not the consumer's: `Dispatch`
  takes it as its stopping rule.
 */
module Consuming {
  import opened Results
  import opened Broker
  import opened Lifecycle

  /** The body that makes the callback cancel the subscription. */
  const Sentinel: string := "quit"
  const ExchangeType: string := "fanout"

  /** The per-service queue: the topic, a dot, the service name. */
  function QueueName(topic: string, service: string): (q: string)
    ensures |q| == |topic| + 1 + |service|
    ensures q[..|topic|] == topic && q[|topic|] == '.' && q[|topic| + 1..] == service
  {
    topic + "." + service
  }

  /** Dot-free topics never share a queue name: the first dot marks where the topic ends. */
  lemma QueueNameInjective(t1: string, s1: string, t2: string, s2: string)
    requires '.' !in t1 && '.' !in t2
    requires QueueName(t1, s1) == QueueName(t2, s2)
    ensures t1 == t2 && s1 == s2
  {
    var q := QueueName(t1, s1);
    if |t1| < |t2| {
      assert false;
    } else if |t2| < |t1| {
      assert false;
    }
  }

  /** With a dot in the topic, two different (topic, service) pairs can share one queue. */
  lemma QueueNameAmbiguous()
    ensures QueueName("a.b", "c") == QueueName("a", "b.c")
  {
  }

  lemma QueueNameExample()
    ensures QueueName("orders", "billing") == "orders.billing"
  {
  }

  /** What the broker delivers, with what the handler does when called with it (`Some` when it throws). */
  datatype Delivery = Delivery(message: Message, handler: Option<Thrown>)

  /** PHP's `(string)` cast of a nullable consumer tag. */
  function TagString(tag: Option<string>): string {
    match tag
    case Some(s) => s
    case None => ""
  }

  /** The callback cancels exactly for the sentinel body on a message that reports a channel. */
  predicate Cancels(m: Message) {
    m.body == Sentinel && m.channel.Some?
  }

  /** The order of the callback's three calls. */
  function CallbackRank(e: Event): nat {
    match e
    case Handle(_, _, _) => 0
    case Ack(_) => 1
    case _ => 2
  }

  /**
    The per-message callback: call the handler with the body and the topic,
    swallow whatever it throws, acknowledge, and for the sentinel body cancel
    the consumer tag the message carries on the channel it came in on.
   */
  function Callback(m: Message, topic: string, handler: Option<Thrown>): (t: seq<Event>)
    ensures Handled(t) == [(m.body, topic)]
    ensures Acked(t) == [m.deliveryTag]
    ensures Count(t, CancelK) == (if Cancels(m) then 1 else 0)
    ensures |t| == 2 + Count(t, CancelK)
    ensures forall i, j :: 0 <= i < j < |t| ==> CallbackRank(t[i]) < CallbackRank(t[j])
    ensures Cancels(m) ==> t[|t| - 1] == Cancel(m.channel.value, TagString(m.consumerTag))
    ensures InPhase(t, DeliveryPhase)
  {
    var cancel :=
      if m.body == Sentinel then
        match m.channel
        case Some(ch) => [Cancel(ch, TagString(m.consumerTag))]
        case None => []
      else [];
    CallbackShape(Handle(m.body, topic, handler.Some?), Ack(m.deliveryTag), cancel);
    [Handle(m.body, topic, handler.Some?), Ack(m.deliveryTag)] + cancel
  }

  /** A handler call, an acknowledgement and at most one cancel, in that order. */
  lemma CallbackShape(handle: Event, ack: Event, cancel: seq<Event>)
    requires handle.Handle? && ack.Ack?
    requires |cancel| <= 1 && forall i :: 0 <= i < |cancel| ==> cancel[i].Cancel?
    ensures var t := [handle, ack] + cancel;
            && Handled(t) == [(handle.body, handle.topic)]
            && Acked(t) == [ack.deliveryTag]
            && Count(t, CancelK) == |cancel|
            && |t| == 2 + |cancel|
            && (forall i, j :: 0 <= i < j < |t| ==> CallbackRank(t[i]) < CallbackRank(t[j]))
            && InPhase(t, DeliveryPhase)
  {
    var t := [handle, ack] + cancel;
    CallbackProjections(handle, ack, cancel);
    CallbackCancels(handle, ack, cancel);
    assert forall i :: 0 <= i < |t| ==> t[i] == (if i == 0 then handle else if i == 1 then ack else cancel[0]);
  }

  lemma CallbackProjections(handle: Event, ack: Event, cancel: seq<Event>)
    requires handle.Handle? && ack.Ack?
    requires |cancel| <= 1 && forall i :: 0 <= i < |cancel| ==> cancel[i].Cancel?
    ensures var t := [handle, ack] + cancel;
            && Handled(t) == [(handle.body, handle.topic)]
            && Acked(t) == [ack.deliveryTag]
  {
    var pair := [handle] + [ack];
    assert [handle, ack] == pair;
    HandledAppend(pair, cancel);
    AckedAppend(pair, cancel);
    HandledAppend([handle], [ack]);
    AckedAppend([handle], [ack]);
    SingletonProjections(handle);
    SingletonProjections(ack);
    if |cancel| == 1 {
      assert cancel == [cancel[0]];
      SingletonProjections(cancel[0]);
    } else {
      assert cancel == [];
    }
  }

  /** A handler call and an acknowledgement followed by the cancels hold exactly those cancels. */
  lemma CallbackCancels(handle: Event, ack: Event, cancel: seq<Event>)
    requires handle.Handle? && ack.Ack?
    requires |cancel| <= 1 && forall i :: 0 <= i < |cancel| ==> cancel[i].Cancel?
    ensures Count([handle, ack] + cancel, CancelK) == |cancel|
  {
    ConsPair(handle, ack, cancel, CancelK);
    if |cancel| == 1 {
      assert cancel == [cancel[0]];
      SingletonCount(cancel[0], CancelK);
    } else {
      assert cancel == [];
    }
  }

  /** Whatever the handler does, it changes nothing after its own call. */
  lemma CallbackIgnoresHandlerOutcome(m: Message, topic: string, h1: Option<Thrown>, h2: Option<Thrown>)
    ensures Callback(m, topic, h1)[1..] == Callback(m, topic, h2)[1..]
  {
  }

  /** The delivery loop's outcome: the calls made, how many deliveries were handled, whether it was cancelled. */
  datatype Loop = Loop(trace: seq<Event>, processed: nat, cancelled: bool)

  function Tags(ds: seq<Delivery>): seq<nat> {
    seq(|ds|, i requires 0 <= i < |ds| => ds[i].message.deliveryTag)
  }

  function Calls(ds: seq<Delivery>, topic: string): seq<(string, string)> {
    seq(|ds|, i requires 0 <= i < |ds| => (ds[i].message.body, topic))
  }

  /**
    The broker client's delivery loop: each delivery in turn goes through the
    callback, until a callback has cancelled the subscription.
   */
  function Dispatch(ds: seq<Delivery>, topic: string): (r: Loop)
    ensures r.processed <= |ds|
    ensures r.cancelled <==> 0 < r.processed && Cancels(ds[r.processed - 1].message)
    ensures forall i :: 0 <= i < r.processed - 1 ==> !Cancels(ds[i].message)
    ensures !r.cancelled ==> r.processed == |ds|
    ensures InPhase(r.trace, DeliveryPhase)
    decreases |ds|
  {
    if |ds| == 0 then Loop([], 0, false)
    else
      var head := Callback(ds[0].message, topic, ds[0].handler);
      if Cancels(ds[0].message) then Loop(head, 1, true)
      else
        var rest := Dispatch(ds[1..], topic);
        InPhaseAppend(head, rest.trace, DeliveryPhase);
        Loop(head + rest.trace, rest.processed + 1, rest.cancelled)
  }

  /** The loop is cancelled exactly when some delivery carries the sentinel on a channel. */
  lemma DispatchCancelled(ds: seq<Delivery>, topic: string)
    ensures Dispatch(ds, topic).cancelled <==> exists i :: 0 <= i < |ds| && Cancels(ds[i].message)
  {
    var r := Dispatch(ds, topic);
    if !r.cancelled {
      assert forall i :: 0 <= i < |ds| ==> !Cancels(ds[i].message) by {
        forall i | 0 <= i < |ds| ensures !Cancels(ds[i].message) {
          if i == |ds| - 1 {
          } else {
            assert i < r.processed - 1;
          }
        }
      }
    }
  }

  /** Taking one more delivery from the front of the prefix. */
  lemma PrefixCons(ds: seq<Delivery>, n: nat, topic: string)
    requires 0 < |ds| && n < |ds|
    ensures Calls(ds[..n + 1], topic) == [(ds[0].message.body, topic)] + Calls(ds[1..][..n], topic)
    ensures Tags(ds[..n + 1]) == [ds[0].message.deliveryTag] + Tags(ds[1..][..n])
  {
    assert ds[..n + 1] == [ds[0]] + ds[1..][..n];
  }

  /**
    Every handled delivery reaches the handler once, with its body and the
    topic, and is acknowledged once, in delivery order.
   */
  lemma {:induction false} DispatchCalls(ds: seq<Delivery>, topic: string)
    ensures var r := Dispatch(ds, topic);
            && Handled(r.trace) == Calls(ds[..r.processed], topic)
            && Acked(r.trace) == Tags(ds[..r.processed])
    decreases |ds|
  {
    var r := Dispatch(ds, topic);
    if |ds| > 0 {
      var head := Callback(ds[0].message, topic, ds[0].handler);
      if Cancels(ds[0].message) {
        PrefixCons(ds, 0, topic);
      } else {
        var rest := Dispatch(ds[1..], topic);
        assert r.trace == head + rest.trace && r.processed == rest.processed + 1;
        DispatchCalls(ds[1..], topic);
        PrefixCons(ds, rest.processed, topic);
        HandledAppend(head, rest.trace);
        AckedAppend(head, rest.trace);
        calc {
          Handled(r.trace);
          Handled(head) + Handled(rest.trace);
          [(ds[0].message.body, topic)] + Calls(ds[1..][..rest.processed], topic);
        }
        calc {
          Acked(r.trace);
          Acked(head) + Acked(rest.trace);
          [ds[0].message.deliveryTag] + Tags(ds[1..][..rest.processed]);
        }
      }
    }
  }

  /** One step of the loop: the first delivery's callback, then, unless it cancelled, the loop over the rest. */
  lemma DispatchUnfold(ds: seq<Delivery>, topic: string)
    requires |ds| > 0
    ensures var head := Callback(ds[0].message, topic, ds[0].handler);
            var r := Dispatch(ds, topic);
            && (Cancels(ds[0].message) ==> r.trace == head)
            && (!Cancels(ds[0].message) ==> r.trace == head + Dispatch(ds[1..], topic).trace)
  {
  }

  /**
    Deliveries are handled one at a time: the calls for the first `k`
    deliveries, then the whole callback of delivery `k`, open the loop's calls.
    So each delivery is handled and acknowledged before anything is done for
    the next one.
   */
  lemma {:induction false} DispatchPrefix(ds: seq<Delivery>, topic: string, k: nat)
    requires k < Dispatch(ds, topic).processed
    ensures var p := Dispatch(ds[..k], topic).trace + Callback(ds[k].message, topic, ds[k].handler);
            var t := Dispatch(ds, topic).trace;
            |p| <= |t| && t[..|p|] == p
    decreases k
  {
    var head := Callback(ds[0].message, topic, ds[0].handler);
    DispatchUnfold(ds, topic);
    if k == 0 {
      assert ds[..0] == [];
      if !Cancels(ds[0].message) {
        PrefixExtend(head, Dispatch(ds[1..], topic).trace, [], []);
      }
    } else {
      DispatchPrefixStep(ds, topic, k);
    }
  }

  /** The inductive step of `DispatchPrefix`: the first delivery's callback goes in front of both sides. */
  lemma {:induction false} DispatchPrefixStep(ds: seq<Delivery>, topic: string, k: nat)
    requires 0 < k < Dispatch(ds, topic).processed
    ensures var p := Dispatch(ds[..k], topic).trace + Callback(ds[k].message, topic, ds[k].handler);
            var t := Dispatch(ds, topic).trace;
            |p| <= |t| && t[..|p|] == p
    decreases k, 0
  {
    var head := Callback(ds[0].message, topic, ds[0].handler);
    var front, tail := ds[..k], ds[1..];
    var step := Callback(ds[k].message, topic, ds[k].handler);
    var inner := Dispatch(tail[..k - 1], topic).trace;
    var rest := Dispatch(tail, topic).trace;
    DispatchUnfold(ds, topic);
    DispatchUnfold(front, topic);
    assert front[0] == ds[0] && front[1..] == tail[..k - 1] && tail[k - 1] == ds[k];
    DispatchPrefix(tail, topic, k - 1);
    PrefixExtend(head, rest, inner, step);
  }

  /** A cancel is issued only by the last handled delivery, and only when the loop is cancelled. */
  lemma {:induction false} DispatchCancels(ds: seq<Delivery>, topic: string)
    ensures var r := Dispatch(ds, topic);
            && Count(r.trace, CancelK) == (if r.cancelled then 1 else 0)
            && (r.cancelled ==> r.trace[|r.trace| - 1].Cancel?)
    decreases |ds|
  {
    if |ds| > 0 && !Cancels(ds[0].message) {
      var head := Callback(ds[0].message, topic, ds[0].handler);
      var rest := Dispatch(ds[1..], topic);
      DispatchCancels(ds[1..], topic);
      CountAppend(head, rest.trace, CancelK);
    }
  }

  /** How a `consume` call that did not throw stands: returned after a cancel, or still blocked in the loop. */
  datatype Ended = Cancelled | Blocked

  /** The topology and subscription calls, in the order `consume` makes them. */
  function Setup(ch: Chan, topic: string, service: string): seq<Event> {
    var queue := QueueName(topic, service);
    [DeclareQueue(ch, queue, false, true, false, false)]
    + [DeclareExchange(ch, topic, ExchangeType, false, true, false)]
    + [BindQueue(ch, queue, topic)]
    + [BasicConsume(ch, queue, service, false, false, false, false)]
    + [StartConsuming(ch)]
  }

  /** The setup calls come in stage order. */
  lemma SetupOrdered(ch: Chan, topic: string, service: string)
    ensures Ordered(Setup(ch, topic, service))
  {
    var t := Setup(ch, topic, service);
    assert forall i :: 0 <= i < |t| ==> Phase(t[i]) == i + 1;
  }

  /** The setup calls are one of each of the five setup kinds and nothing else. */
  lemma SetupCounts(ch: Chan, topic: string, service: string)
    ensures var t := Setup(ch, topic, service);
            && Count(t, DeclareQueueK) == 1 && Count(t, DeclareExchangeK) == 1 && Count(t, BindQueueK) == 1
            && Count(t, BasicConsumeK) == 1 && Count(t, StartConsumingK) == 1
            && Count(t, ConstructK) == 0 && Count(t, OpenChannelK) == 0
            && Count(t, ProbeK) == 0 && Count(t, ReconnectK) == 0
  {
    var t := Setup(ch, topic, service);
    assert t == [t[0]] + [t[1]] + [t[2]] + [t[3]] + [t[4]];
    forall k ensures Count(t, k) ==
                       (if k == DeclareQueueK || k == DeclareExchangeK || k == BindQueueK || k == BasicConsumeK || k == StartConsumingK
                        then 1 else 0) {
      CountKinds(t[0], t[1], t[2], t[3], t[4], k);
    }
  }

  /** Counting five events, one per setup kind. */
  lemma CountKinds(e0: Event, e1: Event, e2: Event, e3: Event, e4: Event, k: Kind)
    requires e0.DeclareQueue? && e1.DeclareExchange? && e2.BindQueue? && e3.BasicConsume? && e4.StartConsuming?
    ensures Count([e0] + [e1] + [e2] + [e3] + [e4], k) ==
              (if k == DeclareQueueK || k == DeclareExchangeK || k == BindQueueK || k == BasicConsumeK || k == StartConsumingK
               then 1 else 0)
  {
    CountAppend([e0] + [e1] + [e2] + [e3], [e4], k);
    CountAppend([e0] + [e1] + [e2], [e3], k);
    CountAppend([e0] + [e1], [e2], k);
    CountAppend([e0], [e1], k);
    SingletonCount(e0, k);
    SingletonCount(e1, k);
    SingletonCount(e2, k);
    SingletonCount(e3, k);
    SingletonCount(e4, k);
  }

  /** The setup calls acknowledge nothing and call no handler. */
  lemma SetupProjections(ch: Chan, topic: string, service: string)
    ensures Acked(Setup(ch, topic, service)) == [] && Handled(Setup(ch, topic, service)) == []
  {
    var t := Setup(ch, topic, service);
    PhaseFreeOfDeliveries(t);
  }

  /** A trace with no event of the delivery stage acknowledges nothing and calls no handler. */
  lemma {:induction false} PhaseFreeOfDeliveries(t: seq<Event>)
    requires forall i :: 0 <= i < |t| ==> Phase(t[i]) != DeliveryPhase
    ensures Acked(t) == [] && Handled(t) == []
    decreases |t|
  {
    if |t| > 0 {
      PhaseFreeOfDeliveries(t[1..]);
    }
  }

  /** The setup calls sit between the acquisition and the delivery loop in stage order. */
  lemma ConsumeTraceOrdered(pre: seq<Event>, ch: Chan, topic: string, service: string, loop: seq<Event>)
    requires InPhase(pre, AcquisitionPhase) && InPhase(loop, DeliveryPhase)
    ensures Ordered(pre + Setup(ch, topic, service) + loop)
  {
    var setup := Setup(ch, topic, service);
    SetupOrdered(ch, topic, service);
    assert forall i :: 0 <= i < |setup| ==> 1 <= Phase(setup[i]) <= 5;
    OrderedAppend(pre, setup);
    var ps := pre + setup;
    assert forall i :: 0 <= i < |ps| ==> Phase(ps[i]) <= 5;
    OrderedAppend(ps, loop);
  }

  /** An acquisition, the setup calls and a delivery loop in a row make each setup call exactly once. */
  lemma ConsumeTraceCounts(pre: seq<Event>, ch: Chan, topic: string, service: string, loop: seq<Event>, k: Kind)
    requires InPhase(pre, AcquisitionPhase) && InPhase(loop, DeliveryPhase)
    requires k == DeclareQueueK || k == DeclareExchangeK || k == BindQueueK || k == BasicConsumeK || k == StartConsumingK
    ensures Count(pre + Setup(ch, topic, service) + loop, k) == 1
  {
    var setup := Setup(ch, topic, service);
    SetupCounts(ch, topic, service);
    PhaseFree(pre, AcquisitionPhase);
    PhaseFree(loop, DeliveryPhase);
    CountAppend(pre, setup, k);
    CountAppend(pre + setup, loop, k);
  }

  /** An acquisition, the setup calls and a delivery loop in a row make no acquisition call beyond the acquisition's own. */
  lemma ConsumeTraceAcquisitions(pre: seq<Event>, ch: Chan, topic: string, service: string, loop: seq<Event>, k: Kind)
    requires InPhase(loop, DeliveryPhase)
    requires k == ConstructK || k == OpenChannelK || k == ProbeK || k == ReconnectK
    ensures Count(pre + Setup(ch, topic, service) + loop, k) == Count(pre, k)
  {
    var setup := Setup(ch, topic, service);
    SetupCounts(ch, topic, service);
    KindFree(loop);
    CountAppend(pre, setup, k);
    CountAppend(pre + setup, loop, k);
  }

  /** An acquisition, the setup calls and a delivery loop in a row handle and acknowledge what the loop does. */
  lemma ConsumeTraceProjections(pre: seq<Event>, ch: Chan, topic: string, service: string, loop: seq<Event>)
    requires InPhase(pre, AcquisitionPhase)
    ensures var t := pre + Setup(ch, topic, service) + loop;
            Acked(t) == Acked(loop) && Handled(t) == Handled(loop)
  {
    var setup := Setup(ch, topic, service);
    SetupProjections(ch, topic, service);
    PhaseFree(pre, AcquisitionPhase);
    AckedAppend(pre, setup);
    AckedAppend(pre + setup, loop);
    HandledAppend(pre, setup);
    HandledAppend(pre + setup, loop);
  }

  /** An acquisition, the setup calls and a delivery loop in a row cancel exactly as often as the loop does. */
  lemma ConsumeTraceCancels(pre: seq<Event>, ch: Chan, topic: string, service: string, loop: seq<Event>)
    requires InPhase(pre, AcquisitionPhase)
    ensures Count(pre + Setup(ch, topic, service) + loop, CancelK) == Count(loop, CancelK)
  {
    var setup := Setup(ch, topic, service);
    assert setup == [setup[0]] + [setup[1]] + [setup[2]] + [setup[3]] + [setup[4]];
    CountKinds(setup[0], setup[1], setup[2], setup[3], setup[4], CancelK);
    CancelFree(pre);
    CountAppend(pre, setup, CancelK);
    CountAppend(pre + setup, loop, CancelK);
  }

  /** An acquisition trace issues no cancel. */
  lemma {:induction false} CancelFree(t: seq<Event>)
    requires InPhase(t, AcquisitionPhase)
    ensures Count(t, CancelK) == 0
    decreases |t|
  {
    if |t| > 0 {
      CancelFree(t[1..]);
    }
  }

  /** A trace confined to the acquisition or the delivery stage holds none of the five setup calls; an acquisition trace handles and acknowledges nothing. */
  lemma {:induction false} PhaseFree(t: seq<Event>, p: nat)
    requires InPhase(t, p) && (p == AcquisitionPhase || p == DeliveryPhase)
    ensures Count(t, DeclareQueueK) == 0 && Count(t, DeclareExchangeK) == 0 && Count(t, BindQueueK) == 0
    ensures Count(t, BasicConsumeK) == 0 && Count(t, StartConsumingK) == 0
    ensures p == AcquisitionPhase ==> Acked(t) == [] && Handled(t) == []
    decreases |t|
  {
    if |t| > 0 {
      PhaseFree(t[1..], p);
    }
  }

  /** The delivery loop makes no acquisition calls. */
  lemma {:induction false} KindFree(t: seq<Event>)
    requires InPhase(t, DeliveryPhase)
    ensures Count(t, ConstructK) == 0 && Count(t, OpenChannelK) == 0
    ensures Count(t, ProbeK) == 0 && Count(t, ReconnectK) == 0
    decreases |t|
  {
    if |t| > 0 {
      KindFree(t[1..]);
    }
  }

  /**
    `consume(topic, handler)`, with the deliveries it sees: acquire the
    channel, make the setup calls, and run the delivery loop. Only a failure
    to acquire the channel is thrown, and then nothing else is called.
   */
  function Consume(c: Consumer, topic: string, o: Oracle, ds: seq<Delivery>): (r: Step<Ended>)
    ensures r.state.service == c.service && r.state.settings == c.settings
    ensures Wellformed(c) ==> Wellformed(r.state)
    ensures c.connection.Some? ==> r.state.connection == c.connection
    ensures c.channel.Some? ==> r.state.channel == c.channel
    ensures c.channel.None? ==> r.state.connection == GetConnection(c, o).state.connection
    ensures r.result.Failure? ==> r.state.channel.None?
    ensures r.result.Success? ==> r.state.channel.Some?
    ensures r.result.Success? ==>
              (r.result.value == Cancelled <==> exists i :: 0 <= i < |ds| && Cancels(ds[i].message))
  {
    var acquired := GetChannel(c, o);
    match acquired.result
    case Failure(e) =>
      Step(Failure(e), acquired.state, acquired.trace)
    case Success(ch) =>
      var loop := Dispatch(ds, topic);
      DispatchCancelled(ds, topic);
      Step(Success(if loop.cancelled then Cancelled else Blocked), acquired.state,
           acquired.trace + Setup(ch, topic, c.service) + loop.trace)
  }

  /**
    The calls of one `consume` come in stage order: acquisition, the five setup
    calls, then the deliveries. A failed one made acquisition calls only.
   */
  lemma ConsumeOrdered(c: Consumer, topic: string, o: Oracle, ds: seq<Delivery>)
    ensures var r := Consume(c, topic, o, ds);
            && Ordered(r.trace)
            && (r.result.Failure? ==> InPhase(r.trace, AcquisitionPhase))
  {
    var acquired := GetChannel(c, o);
    GetChannelPrefix(c, o);
    if acquired.result.Success? {
      ConsumeTraceOrdered(acquired.trace, acquired.result.value, topic, c.service, Dispatch(ds, topic).trace);
    }
  }

  /**
    A `consume` that acquired its channel declares the durable queue
    `topic.service` and the durable fanout exchange `topic`, binds them, and
    subscribes the queue under the service name with explicit acknowledgement,
    on the cached channel.
   */
  lemma ConsumeTopology(c: Consumer, topic: string, o: Oracle, ds: seq<Delivery>)
    ensures var r := Consume(c, topic, o, ds);
            var queue := topic + "." + c.service;
            r.result.Success? ==>
              var ch := r.state.channel.value;
              && DeclareQueue(ch, queue, false, true, false, false) in r.trace
              && DeclareExchange(ch, topic, "fanout", false, true, false) in r.trace
              && BindQueue(ch, queue, topic) in r.trace
              && BasicConsume(ch, queue, c.service, false, false, false, false) in r.trace
              && StartConsuming(ch) in r.trace
  {
    var acquired := GetChannel(c, o);
    if acquired.result.Success? {
      var ch := acquired.result.value;
      var loop := Dispatch(ds, topic);
      var setup := Setup(ch, topic, c.service);
      var t := acquired.trace + setup + loop.trace;
      assert t[|acquired.trace|..|acquired.trace| + 5] == setup;
    }
  }

  /** A `consume` that acquired its channel makes each of the five setup calls exactly once. */
  lemma ConsumeSetupCounts(c: Consumer, topic: string, o: Oracle, ds: seq<Delivery>)
    ensures var r := Consume(c, topic, o, ds);
            r.result.Success? ==>
              && Count(r.trace, DeclareQueueK) == 1 && Count(r.trace, DeclareExchangeK) == 1
              && Count(r.trace, BindQueueK) == 1 && Count(r.trace, BasicConsumeK) == 1
              && Count(r.trace, StartConsumingK) == 1
  {
    var acquired := GetChannel(c, o);
    GetChannelPrefix(c, o);
    if acquired.result.Success? {
      var ch, loop := acquired.result.value, Dispatch(ds, topic).trace;
      ConsumeTraceCounts(acquired.trace, ch, topic, c.service, loop, DeclareQueueK);
      ConsumeTraceCounts(acquired.trace, ch, topic, c.service, loop, DeclareExchangeK);
      ConsumeTraceCounts(acquired.trace, ch, topic, c.service, loop, BindQueueK);
      ConsumeTraceCounts(acquired.trace, ch, topic, c.service, loop, BasicConsumeK);
      ConsumeTraceCounts(acquired.trace, ch, topic, c.service, loop, StartConsumingK);
    }
  }

  /** A `consume` that acquired its channel handled and acknowledged exactly what its delivery loop processed. */
  lemma ConsumeProjections(c: Consumer, topic: string, o: Oracle, ds: seq<Delivery>)
    ensures var r := Consume(c, topic, o, ds);
            var loop := Dispatch(ds, topic);
            r.result.Success? ==>
              && Acked(r.trace) == Tags(ds[..loop.processed])
              && Handled(r.trace) == Calls(ds[..loop.processed], topic)
              && (r.result.value == Cancelled <==> loop.cancelled)
  {
    var acquired := GetChannel(c, o);
    GetChannelPrefix(c, o);
    if acquired.result.Success? {
      var loop := Dispatch(ds, topic);
      ConsumeTraceProjections(acquired.trace, acquired.result.value, topic, c.service, loop.trace);
      DispatchCalls(ds, topic);
    }
  }

  /** While `consume` is still blocked, every delivery so far was handled once and acknowledged once, in order. */
  lemma ConsumeBlocked(c: Consumer, topic: string, o: Oracle, ds: seq<Delivery>)
    ensures var r := Consume(c, topic, o, ds);
            r.result == Success(Blocked) ==> Acked(r.trace) == Tags(ds) && Handled(r.trace) == Calls(ds, topic)
  {
    ConsumeProjections(c, topic, o, ds);
    assert ds[..|ds|] == ds;
  }

  /** Delivery `n` is the first sentinel on a channel: it cancels and none before it does. */
  predicate FirstSentinel(ds: seq<Delivery>, n: nat) {
    0 < n <= |ds| && Cancels(ds[n - 1].message) && forall i :: 0 <= i < n - 1 ==> !Cancels(ds[i].message)
  }

  /** There is at most one first sentinel. */
  lemma FirstSentinelUnique(ds: seq<Delivery>, m: nat, n: nat)
    requires FirstSentinel(ds, m) && FirstSentinel(ds, n)
    ensures m == n
  {
  }

  /**
    When the first sentinel on a channel is delivery `n` (counting from 1), a
    `consume` that acquired its channel returns, having handled and acknowledged
    exactly the first `n` deliveries, once each and in order.
   */
  lemma ConsumeCancelled(c: Consumer, topic: string, o: Oracle, ds: seq<Delivery>, n: nat)
    requires FirstSentinel(ds, n)
    ensures var r := Consume(c, topic, o, ds);
            r.result.Success? ==>
              && r.result.value == Cancelled
              && Acked(r.trace) == Tags(ds[..n]) && Handled(r.trace) == Calls(ds[..n], topic)
  {
    ConsumeProjections(c, topic, o, ds);
    DispatchCancelled(ds, topic);
    var loop := Dispatch(ds, topic);
    FirstSentinelUnique(ds, loop.processed, n);
  }

  /** A failed `consume` made only acquisition calls: no setup call, no handler call, no acknowledgement. */
  lemma ConsumeFailureStops(c: Consumer, topic: string, o: Oracle, ds: seq<Delivery>)
    ensures var r := Consume(c, topic, o, ds);
            r.result.Failure? ==>
              && Count(r.trace, DeclareQueueK) == 0 && Count(r.trace, DeclareExchangeK) == 0
              && Count(r.trace, BindQueueK) == 0 && Count(r.trace, BasicConsumeK) == 0
              && Count(r.trace, StartConsumingK) == 0
              && Acked(r.trace) == [] && Handled(r.trace) == []
  {
    var r := Consume(c, topic, o, ds);
    ConsumeOrdered(c, topic, o, ds);
    if r.result.Failure? {
      PhaseFree(r.trace, AcquisitionPhase);
    }
  }

  /**
    The calls of `consume` are those of `getChannel`, and then, only if it
    returned a channel, the five setup calls and the delivery loop's calls.
   */
  lemma ConsumeTrace(c: Consumer, topic: string, o: Oracle, ds: seq<Delivery>)
    ensures var r := Consume(c, topic, o, ds);
            var acquired := GetChannel(c, o).trace;
            var loop := Dispatch(ds, topic).trace;
            && |acquired| <= |r.trace| && r.trace[..|acquired|] == acquired
            && (r.result.Failure? ==> r.trace == acquired)
            && (r.result.Success? ==> |r.trace| == |acquired| + 5 + |loop| && r.trace[|r.trace| - |loop|..] == loop)
  {
    var r := Consume(c, topic, o, ds);
    var acquired := GetChannel(c, o);
    if acquired.result.Success? {
      var setup := Setup(acquired.result.value, topic, c.service);
      var loop := Dispatch(ds, topic).trace;
      assert r.trace == acquired.trace + setup + loop;
      ThreeParts(acquired.trace, setup, loop);
    }
  }

  /**
    A `consume` that returns issued exactly one cancel, as its last call; one
    still blocked issued none.
   */
  lemma ConsumeCancels(c: Consumer, topic: string, o: Oracle, ds: seq<Delivery>)
    ensures var r := Consume(c, topic, o, ds);
            r.result.Success? ==>
              && Count(r.trace, CancelK) == (if r.result.value == Cancelled then 1 else 0)
              && (r.result.value == Cancelled ==> r.trace[|r.trace| - 1].Cancel?)
  {
    var r := Consume(c, topic, o, ds);
    var acquired := GetChannel(c, o);
    if acquired.result.Success? {
      var loop := Dispatch(ds, topic).trace;
      var setup := Setup(acquired.result.value, topic, c.service);
      assert r.trace == acquired.trace + setup + loop;
      DispatchCancels(ds, topic);
      GetChannelPrefix(c, o);
      ConsumeTraceCancels(acquired.trace, acquired.result.value, topic, c.service, loop);
      ThreeParts(acquired.trace, setup, loop);
      if r.result.value == Cancelled {
        assert r.trace[|r.trace| - 1] == r.trace[|r.trace| - |loop|..][|loop| - 1];
      }
    }
  }

  /**
    When `consume` throws: only while no channel is cached, and then either
    because nothing was cached and all nine construction attempts threw, or
    because the connection reports itself dead and the reconnect throws. What
    it throws is what `getConnection` threw.
   */
  lemma ConsumeFails(c: Consumer, topic: string, o: Oracle, ds: seq<Delivery>)
    ensures var r := Consume(c, topic, o, ds);
            && (r.result.Failure? <==>
                  c.channel.None? &&
                  ((c.connection.None? && forall a :: 1 <= a <= MaxAttempts ==> o.construct(a).None?)
                   || (!o.alive && o.reconnect.Some?)))
            && (r.result.Failure? ==> GetConnection(c, o).result == Failure(r.result.error))
  {
    GetChannelFails(c, o);
  }

  /** One `consume` call of a series: its topic, the broker's answers, and the deliveries it sees. */
  datatype Call = Call(topic: string, oracle: Oracle, deliveries: seq<Delivery>)

  /**
    A series of `consume` calls on one consumer. A call that throws or returns
    lets the next one start; a call still blocked in the delivery loop ends the
    series.
   */
  function Run(c: Consumer, calls: seq<Call>): (r: (Consumer, seq<Event>))
    decreases |calls|
  {
    if |calls| == 0 then (c, [])
    else
      var s := Consume(c, calls[0].topic, calls[0].oracle, calls[0].deliveries);
      if s.result == Success(Blocked) then (s.state, s.trace)
      else
        var rest := Run(s.state, calls[1..]);
        (rest.0, s.trace + rest.1)
  }

  /**
    Over any series of calls, a cached connection is never replaced and never
    constructed again, and once a channel is cached no call opens another one,
    checks the connection's liveness or reconnects it.
   */
  lemma {:induction false} RunKeepsHandles(c: Consumer, calls: seq<Call>)
    ensures Wellformed(c) ==> Wellformed(Run(c, calls).0)
    ensures c.connection.Some? ==>
              Run(c, calls).0.connection == c.connection && Count(Run(c, calls).1, ConstructK) == 0
    ensures c.channel.Some? ==>
              && Run(c, calls).0.channel == c.channel
              && Count(Run(c, calls).1, OpenChannelK) == 0
              && Count(Run(c, calls).1, ProbeK) == 0
              && Count(Run(c, calls).1, ReconnectK) == 0
    decreases |calls|
  {
    if |calls| > 0 {
      var s := Consume(c, calls[0].topic, calls[0].oracle, calls[0].deliveries);
      ConsumeAcquisitionCounts(c, calls[0].topic, calls[0].oracle, calls[0].deliveries);
      if s.result != Success(Blocked) {
        RunKeepsHandles(s.state, calls[1..]);
        CountAppendAll(s.trace, Run(s.state, calls[1..]).1);
      }
    }
  }

  /** The acquisition calls one `consume` makes are those of `getChannel`. */
  lemma ConsumeAcquisitionCounts(c: Consumer, topic: string, o: Oracle, ds: seq<Delivery>)
    ensures var r := Consume(c, topic, o, ds);
            && (c.connection.Some? ==> Count(r.trace, ConstructK) == 0)
            && (c.channel.None? ==> Count(r.trace, ConstructK) == (if c.connection.None? then MaxAttempts else 0))
            && (c.channel.Some? ==>
                  Count(r.trace, OpenChannelK) == 0 && Count(r.trace, ProbeK) == 0 && Count(r.trace, ReconnectK) == 0)
  {
    var acquired := GetChannel(c, o);
    GetChannelCalls(c, o);
    GetConnectionCalls(c, o);
    if acquired.result.Success? {
      var ch, loop := acquired.result.value, Dispatch(ds, topic).trace;
      ConsumeTraceAcquisitions(acquired.trace, ch, topic, c.service, loop, ConstructK);
      ConsumeTraceAcquisitions(acquired.trace, ch, topic, c.service, loop, OpenChannelK);
      ConsumeTraceAcquisitions(acquired.trace, ch, topic, c.service, loop, ProbeK);
      ConsumeTraceAcquisitions(acquired.trace, ch, topic, c.service, loop, ReconnectK);
    }
  }

  /** After a `consume` that acquired its channel, teardown closes that channel and then its connection. */
  lemma TeardownAfterConsume(c: Consumer, topic: string, o: Oracle, ds: seq<Delivery>,
                             channelClose: Option<Thrown>, connectionClose: Option<Thrown>)
    requires Wellformed(c)
    requires Consume(c, topic, o, ds).result.Success?
    ensures var r := Consume(c, topic, o, ds);
            var t := Teardown(r.state, channelClose, connectionClose);
            && |t| == 2
            && t[0] == CloseChannel(r.state.channel.value, channelClose.None?)
            && t[1] == CloseConnection(r.state.connection.value, connectionClose.None?)
  {
  }

  /** The broker of the scenario below: every attempt connects, the connection is alive, channel 1 opens. */
  function ScenarioOracle(): Oracle {
    Oracle(EveryAttemptConnects, true, None, Chan(1))
  }

  lemma ScenarioAcquire()
    ensures var r := GetChannel(New("billing", "localhost"), ScenarioOracle());
            r.result == Success(Chan(1)) && r.state.connection == Some(Conn(9)) && r.state.channel == Some(Chan(1))
  {
    var c := New("billing", "localhost");
    CreateConnectionNoEarlyExit(c.settings);
    var got := GetConnection(c, ScenarioOracle());
    assert got.result == Success(Conn(9));
  }

  function ScenarioHello(): Delivery {
    Delivery(Message("hello", 1, Some("billing"), Some(Chan(1))), None)
  }

  function ScenarioQuit(): Delivery {
    Delivery(Message("quit", 2, Some("billing"), Some(Chan(1))), Some(ExceptionThrown("boom")))
  }

  lemma ScenarioLoop()
    ensures var loop := Dispatch([ScenarioHello(), ScenarioQuit()], "orders");
            && loop.cancelled
            && Handled(loop.trace) == [("hello", "orders"), ("quit", "orders")]
            && Acked(loop.trace) == [1, 2]
            && loop.trace[|loop.trace| - 1] == Cancel(Chan(1), "billing")
  {
    var ds := [ScenarioHello(), ScenarioQuit()];
    assert !Cancels(ScenarioHello().message) && Cancels(ScenarioQuit().message);
    assert ds[1..] == [ScenarioQuit()];
    var tail := Callback(ScenarioQuit().message, "orders", ScenarioQuit().handler);
    assert Dispatch([ScenarioQuit()], "orders") == Loop(tail, 1, true);
    var head := Callback(ScenarioHello().message, "orders", ScenarioHello().handler);
    var loop := Dispatch(ds, "orders");
    assert loop == Loop(head + tail, 2, true);
    DispatchCalls(ds, "orders");
    assert ds[..2] == ds;
    assert Calls(ds, "orders") == [("hello", "orders"), ("quit", "orders")];
    assert Tags(ds) == [1, 2];
  }

  /**
    Topic "orders", service "billing", a broker that accepts every attempt:
    "hello" is handled and acknowledged, then "quit" is handled (its handler
    throws), acknowledged and cancels the subscription, and `consume` returns.
   */
  lemma OrdersScenario()
    ensures var r := Consume(New("billing", "localhost"), "orders", ScenarioOracle(), [ScenarioHello(), ScenarioQuit()]);
            && r.result == Success(Cancelled)
            && r.state.connection == Some(Conn(9))
            && Handled(r.trace) == [("hello", "orders"), ("quit", "orders")]
            && Acked(r.trace) == [1, 2]
            && r.trace[|r.trace| - 1] == Cancel(Chan(1), "billing")
  {
    var c := New("billing", "localhost");
    ScenarioAcquire();
    ScenarioLoop();
    var acquired := GetChannel(c, ScenarioOracle());
    GetChannelPrefix(c, ScenarioOracle());
    var loop := Dispatch([ScenarioHello(), ScenarioQuit()], "orders");
    ConsumeTraceProjections(acquired.trace, Chan(1), "orders", "billing", loop.trace);
    var r := Consume(c, "orders", ScenarioOracle(), [ScenarioHello(), ScenarioQuit()]);
    assert r.trace == acquired.trace + Setup(Chan(1), "orders", "billing") + loop.trace;
  }
}
