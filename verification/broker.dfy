/**
  The broker as seen from the consumer: opaque handles that the broker client
  hands out, the messages it delivers, and the trace of calls the consumer makes
  on it. Every call the consumer makes on the broker client (and on the
  application's handler) is recorded as one `Event`, so that properties of the
  consumer become properties of its traces.
 */
module Broker {
  import opened Results

  /** An established connection, as the broker client hands it out. */
  datatype Conn = Conn(id: nat)

  /** A channel multiplexed over a connection. */
  datatype Chan = Chan(id: nat)

  /** The endpoint tuple the connection constructor is called with, in its order. */
  datatype Settings = Settings(host: string, port: int, user: string, password: string)

  /** Something thrown by the broker client or the handler. PHP's `Throwable`
      splits into `Exception` and `Error`; only one `catch` in the consumer
      tells them apart. */
  datatype Thrown = ExceptionThrown(message: string) | ErrorThrown(message: string)

  /** A delivered message. The consumer tag may be null, and so may the channel
      the message reports it came in on. */
  datatype Message = Message(body: string, deliveryTag: nat, consumerTag: Option<string>, channel: Option<Chan>)

  /** One call made by the consumer, with the outcome the oracle gave it. */
  datatype Event =
    | Construct(settings: Settings, attempt: nat, succeeded: bool)
    | Pause(micros: nat)
    | Probe(conn: Conn, alive: bool)
    | Reconnect(conn: Conn, succeeded: bool)
    | OpenChannel(conn: Conn, chan: Chan)
    | DeclareQueue(chan: Chan, queue: string, passive: bool, durable: bool, exclusive: bool, autoDelete: bool)
    | DeclareExchange(chan: Chan, exchange: string, exchangeType: string, passive: bool, durable: bool, autoDelete: bool)
    | BindQueue(chan: Chan, queue: string, exchange: string)
    | BasicConsume(chan: Chan, queue: string, consumerTag: string, noLocal: bool, noAck: bool, exclusive: bool, noWait: bool)
    | StartConsuming(chan: Chan)
    | Handle(body: string, topic: string, threw: bool)
    | Ack(deliveryTag: nat)
    | Cancel(chan: Chan, consumerTag: string)
    | CloseChannel(chan: Chan, succeeded: bool)
    | CloseConnection(conn: Conn, succeeded: bool)

  /** The constructor of an event, without its arguments. */
  datatype Kind =
    | ConstructK | PauseK | ProbeK | ReconnectK | OpenChannelK
    | DeclareQueueK | DeclareExchangeK | BindQueueK | BasicConsumeK | StartConsumingK
    | HandleK | AckK | CancelK | CloseChannelK | CloseConnectionK

  function KindOf(e: Event): Kind {
    match e
    case Construct(_, _, _) => ConstructK
    case Pause(_) => PauseK
    case Probe(_, _) => ProbeK
    case Reconnect(_, _) => ReconnectK
    case OpenChannel(_, _) => OpenChannelK
    case DeclareQueue(_, _, _, _, _, _) => DeclareQueueK
    case DeclareExchange(_, _, _, _, _, _) => DeclareExchangeK
    case BindQueue(_, _, _) => BindQueueK
    case BasicConsume(_, _, _, _, _, _, _) => BasicConsumeK
    case StartConsuming(_) => StartConsumingK
    case Handle(_, _, _) => HandleK
    case Ack(_) => AckK
    case Cancel(_, _) => CancelK
    case CloseChannel(_, _) => CloseChannelK
    case CloseConnection(_, _) => CloseConnectionK
  }

  /** The number of events of kind `k` in trace `t`. */
  function Count(t: seq<Event>, k: Kind): (n: nat)
    ensures n <= |t|
  {
    if |t| == 0 then 0
    else (if KindOf(t[0]) == k then 1 else 0) + Count(t[1..], k)
  }

  lemma {:induction false} CountAppend(a: seq<Event>, b: seq<Event>, k: Kind)
    ensures Count(a + b, k) == Count(a, k) + Count(b, k)
    decreases |a|
  {
    if |a| == 0 {
      assert a + b == b;
    } else {
      assert (a + b)[1..] == a[1..] + b;
      CountAppend(a[1..], b, k);
    }
  }

  lemma CountAppendAll(a: seq<Event>, b: seq<Event>)
    ensures forall k :: Count(a + b, k) == Count(a, k) + Count(b, k)
  {
    forall k ensures Count(a + b, k) == Count(a, k) + Count(b, k) {
      CountAppend(a, b, k);
    }
  }

  /** Prepending one event adds one to the count of its own kind only. */
  lemma ConsCount(e: Event, t: seq<Event>, k: Kind)
    ensures Count([e] + t, k) == (if KindOf(e) == k then 1 else 0) + Count(t, k)
  {
    assert ([e] + t)[1..] == t;
  }

  /** A one-event trace counts its own kind once and nothing else. */
  lemma SingletonCount(e: Event, k: Kind)
    ensures Count([e], k) == (if KindOf(e) == k then 1 else 0)
  {
    assert [e][1..] == [];
  }

  /** Prepending two events adds to the counts of their own kinds only. */
  lemma ConsPair(e: Event, f: Event, t: seq<Event>, k: Kind)
    ensures Count([e, f] + t, k) == (if KindOf(e) == k then 1 else 0) + (if KindOf(f) == k then 1 else 0) + Count(t, k)
  {
    assert ([e, f] + t)[1..] == [f] + t;
    ConsCount(f, t, k);
  }

  /** A trace begins with whatever it was extended from. */
  lemma PrefixOfAppend(a: seq<Event>, b: seq<Event>)
    ensures |a| <= |a + b| && (a + b)[..|a|] == a
  {
  }

  /** A trace made of three parts begins with the first and ends with the last. */
  lemma ThreeParts(a: seq<Event>, b: seq<Event>, c: seq<Event>)
    ensures var t := a + b + c;
            && |t| == |a| + |b| + |c|
            && t[..|a|] == a && t[|t| - |c|..] == c
  {
    var t := a + b + c;
    assert t == a + (b + c);
    assert t[..|a|] == a;
  }

  /**
    A trace made of `head` and then `rest` begins with `head`, `done` and
    `next` whenever `rest` begins with `done` and `next`.
   */
  lemma PrefixExtend(head: seq<Event>, rest: seq<Event>, done: seq<Event>, next: seq<Event>)
    requires |done + next| <= |rest| && rest[..|done + next|] == done + next
    ensures |head + done + next| <= |head + rest| && (head + rest)[..|head + done + next|] == head + done + next
  {
    assert (head + rest)[..|head + done + next|] == head + rest[..|done + next|];
    assert head + done + next == head + (done + next);
  }

  /** What a one-event trace acknowledges and hands to the handler. */
  lemma SingletonProjections(e: Event)
    ensures Acked([e]) == (if e.Ack? then [e.deliveryTag] else [])
    ensures Handled([e]) == (if e.Handle? then [(e.body, e.topic)] else [])
  {
    assert [e][1..] == [];
  }

  /**
    The stage of the consumer's life an event belongs to: acquiring the
    connection and channel, the five topology and subscription calls, the
    per-message calls, and the two closes of teardown.
   */
  function Phase(e: Event): nat {
    match e
    case Construct(_, _, _) => 0
    case Pause(_) => 0
    case Probe(_, _) => 0
    case Reconnect(_, _) => 0
    case OpenChannel(_, _) => 0
    case DeclareQueue(_, _, _, _, _, _) => 1
    case DeclareExchange(_, _, _, _, _, _) => 2
    case BindQueue(_, _, _) => 3
    case BasicConsume(_, _, _, _, _, _, _) => 4
    case StartConsuming(_) => 5
    case Handle(_, _, _) => 6
    case Ack(_) => 6
    case Cancel(_, _) => 6
    case CloseChannel(_, _) => 7
    case CloseConnection(_, _) => 8
  }

  const AcquisitionPhase: nat := 0
  const DeliveryPhase: nat := 6

  /** No event of a later stage is followed by one of an earlier stage. */
  predicate Ordered(t: seq<Event>) {
    forall i, j :: 0 <= i < j < |t| ==> Phase(t[i]) <= Phase(t[j])
  }

  /** Every event of `t` belongs to stage `p`. */
  predicate InPhase(t: seq<Event>, p: nat) {
    forall i :: 0 <= i < |t| ==> Phase(t[i]) == p
  }

  lemma OrderedAppend(a: seq<Event>, b: seq<Event>)
    requires Ordered(a) && Ordered(b)
    requires forall i, j :: 0 <= i < |a| && 0 <= j < |b| ==> Phase(a[i]) <= Phase(b[j])
    ensures Ordered(a + b)
  {
    forall i, j | 0 <= i < j < |a + b|
      ensures Phase((a + b)[i]) <= Phase((a + b)[j])
    {
      if j < |a| {
      } else if i < |a| {
        assert Phase(a[i]) <= Phase(b[j - |a|]);
      } else {
        assert Phase(b[i - |a|]) <= Phase(b[j - |a|]);
      }
    }
  }

  lemma InPhaseAppend(a: seq<Event>, b: seq<Event>, p: nat)
    requires InPhase(a, p) && InPhase(b, p)
    ensures InPhase(a + b, p)
  {
  }

  /** The delivery tags of the acknowledgements in `t`, in order. */
  function Acked(t: seq<Event>): seq<nat> {
    if |t| == 0 then []
    else (if t[0].Ack? then [t[0].deliveryTag] else []) + Acked(t[1..])
  }

  /** The (body, topic) pairs the handler was called with in `t`, in order. */
  function Handled(t: seq<Event>): seq<(string, string)> {
    if |t| == 0 then []
    else (if t[0].Handle? then [(t[0].body, t[0].topic)] else []) + Handled(t[1..])
  }

  lemma {:induction false} AckedAppend(a: seq<Event>, b: seq<Event>)
    ensures Acked(a + b) == Acked(a) + Acked(b)
    decreases |a|
  {
    if |a| == 0 {
      assert a + b == b;
    } else {
      var head := if a[0].Ack? then [a[0].deliveryTag] else [];
      assert (a + b)[0] == a[0];
      assert (a + b)[1..] == a[1..] + b;
      AckedAppend(a[1..], b);
      calc {
        Acked(a + b);
        head + Acked(a[1..] + b);
        head + (Acked(a[1..]) + Acked(b));
        (head + Acked(a[1..])) + Acked(b);
      }
    }
  }

  lemma {:induction false} HandledAppend(a: seq<Event>, b: seq<Event>)
    ensures Handled(a + b) == Handled(a) + Handled(b)
    decreases |a|
  {
    if |a| == 0 {
      assert a + b == b;
    } else {
      var head := if a[0].Handle? then [(a[0].body, a[0].topic)] else [];
      assert (a + b)[0] == a[0];
      assert (a + b)[1..] == a[1..] + b;
      HandledAppend(a[1..], b);
      calc {
        Handled(a + b);
        head + Handled(a[1..] + b);
        head + (Handled(a[1..]) + Handled(b));
        (head + Handled(a[1..])) + Handled(b);
      }
    }
  }
}
