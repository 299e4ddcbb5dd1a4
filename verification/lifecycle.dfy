/**
  The connection and channel lifecycle of the consumer: construction with
  endpoint defaults, the bounded connection-construction loop, lazy cached
  acquisition of the connection (with a single reconnect attempt when it
  reports itself dead) and of the channel, and best-effort teardown.

  The object's two nullable fields become an immutable `Consumer` value; an
  operation returns the consumer's next value together with the calls it made.
  Whatever the broker client would decide (does a construction attempt
  succeed, is the connection alive, does a reconnect or a close succeed, which
  channel does `channel()` return) comes from an `Oracle`.
 */
module Lifecycle {
  import opened Results
  import opened Broker

  const DefaultPort: int := 5672
  const DefaultUser: string := "guest"
  const DefaultPassword: string := "guest"

  /** The construction loop runs while `attempt < AttemptLimit`, starting at 1. */
  const AttemptLimit: nat := 10
  const MaxAttempts: nat := AttemptLimit - 1
  /** The pause after every construction attempt, in microseconds. */
  const RetryPauseMicros: nat := 100

  /** The consumer object: its service name, endpoint tuple and the two cached handles. */
  datatype Consumer = Consumer(service: string, settings: Settings, connection: Option<Conn>, channel: Option<Chan>)

  /** A channel is only ever cached on top of a cached connection. */
  predicate Wellformed(c: Consumer) {
    c.channel.Some? ==> c.connection.Some?
  }

  /** What the consumer can throw out of `consume`. */
  datatype ConsumeError =
    | CreateFailed                   // every construction attempt threw
    | ReconnectFailed(cause: Thrown) // reconnect threw an Exception; it is attached as the cause
    | Escaped(error: Thrown)         // reconnect threw an Error, which the `catch (Exception)` lets through

  /** The message the consumer's own exceptions carry. */
  function FailureMessage(f: ConsumeError): string {
    match f
    case CreateFailed => "Can not create connection"
    case ReconnectFailed(_) => "Can not reconnect"
    case Escaped(e) => e.message
  }

  /**
    The broker's answers during one `consume` call: the outcome of each
    numbered construction attempt (`None` when the constructor throws), what
    `isConnected()` reports, the outcome of `reconnect()` (`None` when it
    returns normally) and the channel `channel()` opens.
   */
  datatype Oracle = Oracle(construct: nat -> Option<Conn>, alive: bool, reconnect: Option<Thrown>, channel: Chan)

  /** The result of an operation: what it returned or threw, the consumer afterwards, the calls it made. */
  datatype Step<+T> = Step(result: Result<T, ConsumeError>, state: Consumer, trace: seq<Event>)

  /** The constructor: no handles yet, and the endpoint defaults of the source. */
  function New(service: string, host: string, port: int := DefaultPort,
               user: string := DefaultUser, password: string := DefaultPassword): (c: Consumer)
    ensures c.connection.None? && c.channel.None? && Wellformed(c)
    ensures c.service == service
    ensures c.settings.host == host && c.settings.port == port
    ensures c.settings.user == user && c.settings.password == password
  {
    Consumer(service, Settings(host, port, user, password), None, None)
  }

  lemma NewDefaults(service: string, host: string)
    ensures New(service, host).settings == Settings(host, 5672, "guest", "guest")
  {
  }

  /**
    The construction loop from attempt number `attempt` on, with `last` the
    connection held so far. Every attempt overwrites `last` when it succeeds and
    leaves it alone when it throws; there is no early exit.
   */
  function AttemptLoop(s: Settings, construct: nat -> Option<Conn>, attempt: nat, last: Option<Conn>): (r: (Option<Conn>, seq<Event>))
    ensures attempt <= AttemptLimit ==> |r.1| == 2 * (AttemptLimit - attempt)
    decreases AttemptLimit - attempt
  {
    if attempt < AttemptLimit then
      var held := if construct(attempt).Some? then construct(attempt) else last;
      var rest := AttemptLoop(s, construct, attempt + 1, held);
      (rest.0, [Construct(s, attempt, construct(attempt).Some?), Pause(RetryPauseMicros)] + rest.1)
    else
      (last, [])
  }

  /**
    Where attempt `a` sits in the loop started at `attempt`: its construction
    call is at position 2 * (a - attempt), directly followed by a pause.
   */
  lemma {:induction false} AttemptLoopAt(s: Settings, construct: nat -> Option<Conn>, attempt: nat, last: Option<Conn>, a: nat)
    requires attempt <= a < AttemptLimit
    ensures var t := AttemptLoop(s, construct, attempt, last).1;
            && t[2 * (a - attempt)] == Construct(s, a, construct(a).Some?)
            && t[2 * (a - attempt) + 1] == Pause(RetryPauseMicros)
    decreases AttemptLimit - attempt
  {
    if attempt < a {
      var held := if construct(attempt).Some? then construct(attempt) else last;
      var t := AttemptLoop(s, construct, attempt, last).1;
      var rest := AttemptLoop(s, construct, attempt + 1, held).1;
      AttemptLoopAt(s, construct, attempt + 1, held, a);
      assert t[2 * (a - attempt)] == rest[2 * (a - (attempt + 1))];
      assert t[2 * (a - attempt) + 1] == rest[2 * (a - (attempt + 1)) + 1];
    }
  }

  /**
    When every remaining attempt throws, the loop ends holding what it started
    with; so it ends holding nothing iff it started with nothing and they all threw.
   */
  lemma {:induction false} AttemptLoopNone(s: Settings, construct: nat -> Option<Conn>, attempt: nat, last: Option<Conn>)
    requires 1 <= attempt <= AttemptLimit
    ensures (forall a :: attempt <= a <= MaxAttempts ==> construct(a).None?) ==> AttemptLoop(s, construct, attempt, last).0 == last
    ensures AttemptLoop(s, construct, attempt, last).0.None? <==>
              last.None? && forall a :: attempt <= a <= MaxAttempts ==> construct(a).None?
    decreases AttemptLimit - attempt
  {
    if attempt < AttemptLimit {
      var held := if construct(attempt).Some? then construct(attempt) else last;
      AttemptLoopNone(s, construct, attempt + 1, held);
    }
  }

  /** When some remaining attempt succeeds, the loop ends holding the connection of the latest one. */
  lemma {:induction false} AttemptLoopLatest(s: Settings, construct: nat -> Option<Conn>, attempt: nat, last: Option<Conn>)
    requires 1 <= attempt <= AttemptLimit
    requires exists a :: attempt <= a <= MaxAttempts && construct(a).Some?
    ensures exists a :: attempt <= a <= MaxAttempts && construct(a) == AttemptLoop(s, construct, attempt, last).0
                        && forall b :: a < b <= MaxAttempts ==> construct(b).None?
    decreases AttemptLimit - attempt
  {
    var r := AttemptLoop(s, construct, attempt, last).0;
    var held := if construct(attempt).Some? then construct(attempt) else last;
    var rest := AttemptLoop(s, construct, attempt + 1, held).0;
    assert r == rest;
    if exists a :: attempt + 1 <= a <= MaxAttempts && construct(a).Some? {
      AttemptLoopLatest(s, construct, attempt + 1, held);
      var a :| attempt + 1 <= a <= MaxAttempts && construct(a) == rest
               && forall b :: a < b <= MaxAttempts ==> construct(b).None?;
      assert attempt <= a <= MaxAttempts && construct(a) == r;
    } else {
      AttemptLoopNone(s, construct, attempt + 1, held);
      assert construct(attempt).Some? && r == construct(attempt);
    }
  }

  /** The loop makes one construction call and one pause per remaining attempt, and nothing else. */
  lemma {:induction false} AttemptLoopCount(s: Settings, construct: nat -> Option<Conn>, attempt: nat, last: Option<Conn>, k: Kind)
    requires 1 <= attempt <= AttemptLimit
    ensures Count(AttemptLoop(s, construct, attempt, last).1, k) ==
              (if k == ConstructK || k == PauseK then AttemptLimit - attempt else 0)
    decreases AttemptLimit - attempt
  {
    if attempt < AttemptLimit {
      var held := if construct(attempt).Some? then construct(attempt) else last;
      var rest := AttemptLoop(s, construct, attempt + 1, held).1;
      var e, f := Construct(s, attempt, construct(attempt).Some?), Pause(RetryPauseMicros);
      AttemptLoopCount(s, construct, attempt + 1, held, k);
      ConsPair(e, f, rest, k);
      assert KindOf(e) == ConstructK && KindOf(f) == PauseK;
    }
  }

  /** The loop makes only acquisition-stage calls. */
  lemma {:induction false} AttemptLoopPhase(s: Settings, construct: nat -> Option<Conn>, attempt: nat, last: Option<Conn>)
    ensures InPhase(AttemptLoop(s, construct, attempt, last).1, AcquisitionPhase)
    decreases AttemptLimit - attempt
  {
    if attempt < AttemptLimit {
      var held := if construct(attempt).Some? then construct(attempt) else last;
      var rest := AttemptLoop(s, construct, attempt + 1, held).1;
      AttemptLoopPhase(s, construct, attempt + 1, held);
      InPhaseAppend([Construct(s, attempt, construct(attempt).Some?), Pause(RetryPauseMicros)], rest, AcquisitionPhase);
    }
  }

  /**
    `createConnection`: nine construction attempts with a pause after each,
    whatever their outcomes. It returns the connection of the latest attempt
    that succeeded, and throws only when all of them threw (`CreateConnectionResult`).
   */
  function CreateConnection(s: Settings, construct: nat -> Option<Conn>): (r: (Result<Conn, ConsumeError>, seq<Event>))
    ensures r.0.Failure? ==> r.0.error == CreateFailed && FailureMessage(r.0.error) == "Can not create connection"
  {
    var loop := AttemptLoop(s, construct, 1, None);
    (if loop.0.Some? then Success(loop.0.value) else Failure(CreateFailed), loop.1)
  }

  /** The outcome of `createConnection`: it throws iff every attempt threw, else it returns the latest success. */
  lemma CreateConnectionResult(s: Settings, construct: nat -> Option<Conn>)
    ensures var r := CreateConnection(s, construct).0;
            && (r.Failure? <==> forall a :: 1 <= a <= MaxAttempts ==> construct(a).None?)
            && (r.Success? ==>
                  exists a :: 1 <= a <= MaxAttempts && construct(a) == Some(r.value)
                              && forall b :: a < b <= MaxAttempts ==> construct(b).None?)
  {
    AttemptLoopNone(s, construct, 1, None);
    if exists a :: 1 <= a <= MaxAttempts && construct(a).Some? {
      AttemptLoopLatest(s, construct, 1, None);
    }
  }

  /** The calls of `createConnection`, whatever the outcomes: nine attempts, nine pauses, nothing else. */
  lemma CreateConnectionCalls(s: Settings, construct: nat -> Option<Conn>, k: Kind)
    ensures var t := CreateConnection(s, construct).1;
            && Count(t, k) == (if k == ConstructK || k == PauseK then MaxAttempts else 0)
            && InPhase(t, AcquisitionPhase)
  {
    AttemptLoopCount(s, construct, 1, None, k);
    AttemptLoopPhase(s, construct, 1, None);
  }

  /**
    The order of those calls: eighteen in all, and attempt `a` (1 to 9) is a
    construction call with the endpoint tuple at position 2 * (a - 1), directly
    followed by a pause.
   */
  lemma CreateConnectionTrace(s: Settings, construct: nat -> Option<Conn>, a: nat)
    requires 1 <= a <= MaxAttempts
    ensures var t := CreateConnection(s, construct).1;
            && |t| == 2 * MaxAttempts
            && t[2 * (a - 1)] == Construct(s, a, construct(a).Some?)
            && t[2 * (a - 1) + 1] == Pause(RetryPauseMicros)
  {
    AttemptLoopAt(s, construct, 1, None, a);
  }

  /**
    The liveness check of `getConnection`: ask whether the connection is
    connected and, only if it is not, reconnect it once. An Exception from the
    reconnect is wrapped with the cause attached; an Error is not caught.
   */
  function CheckLiveness(conn: Conn, o: Oracle): (r: (Result<Conn, ConsumeError>, seq<Event>))
    ensures |r.1| == 1 + Count(r.1, ReconnectK) && r.1[0] == Probe(conn, o.alive)
    ensures forall i :: 0 <= i < |r.1| && r.1[i].Reconnect? ==> i > 0 && r.1[i] == Reconnect(conn, o.reconnect.None?)
    ensures Count(r.1, ProbeK) == 1
    ensures Count(r.1, ReconnectK) == (if o.alive then 0 else 1)
    ensures Count(r.1, ConstructK) == 0 && Count(r.1, OpenChannelK) == 0
    ensures InPhase(r.1, AcquisitionPhase)
    ensures r.0.Failure? <==> !o.alive && o.reconnect.Some?
    ensures r.0.Success? ==> r.0.value == conn
    ensures r.0.Failure? ==>
              r.0.error == (if o.reconnect.value.ExceptionThrown? then ReconnectFailed(o.reconnect.value)
                            else Escaped(o.reconnect.value))
    ensures r.0.Failure? && o.reconnect.value.ExceptionThrown? ==> FailureMessage(r.0.error) == "Can not reconnect"
  {
    if o.alive then (Success(conn), [Probe(conn, true)])
    else
      match o.reconnect
      case None => (Success(conn), [Probe(conn, false), Reconnect(conn, true)])
      case Some(e) =>
        var f := if e.ExceptionThrown? then ReconnectFailed(e) else Escaped(e);
        (Failure(f), [Probe(conn, false), Reconnect(conn, false)])
  }

  /**
    `getConnection`: creates the connection only while none is cached and
    caches it; then checks its liveness. A reconnect keeps the same connection
    object, and a failed one leaves it cached.
   */
  function GetConnection(c: Consumer, o: Oracle): (r: Step<Conn>)
    ensures r.state.service == c.service && r.state.settings == c.settings && r.state.channel == c.channel
    ensures c.connection.Some? ==> r.state.connection == c.connection
    ensures r.result.Success? ==> r.state.connection == Some(r.result.value)
    ensures r.result == Failure(CreateFailed) <==> c.connection.None? && CreateConnection(c.settings, o.construct).0.Failure?
    ensures r.result == Failure(CreateFailed) ==> r.state.connection.None?
    ensures c.connection.None? && CreateConnection(c.settings, o.construct).0.Success? ==>
              r.state.connection == Some(CreateConnection(c.settings, o.construct).0.value)
    ensures r.state.connection.Some? ==> (r.result.Failure? <==> !o.alive && o.reconnect.Some?)
    ensures r.result.Failure? && r.result.error != CreateFailed ==>
              o.reconnect.Some? &&
              r.result.error == (if o.reconnect.value.ExceptionThrown? then ReconnectFailed(o.reconnect.value)
                                 else Escaped(o.reconnect.value))
  {
    if c.connection.None? then
      var created := CreateConnection(c.settings, o.construct);
      match created.0
      case Failure(e) => Step(Failure(e), c, created.1)
      case Success(conn) =>
        var live := CheckLiveness(conn, o);
        Step(live.0, c.(connection := Some(conn)), created.1 + live.1)
    else
      var live := CheckLiveness(c.connection.value, o);
      Step(live.0, c, live.1)
  }

  /**
    The creation calls of `getConnection`: the nine attempts only when nothing
    is cached, never a channel open, all in the acquisition stage.
   */
  lemma GetConnectionCalls(c: Consumer, o: Oracle)
    ensures var r := GetConnection(c, o);
            && Count(r.trace, ConstructK) == (if c.connection.None? then MaxAttempts else 0)
            && Count(r.trace, OpenChannelK) == 0
            && InPhase(r.trace, AcquisitionPhase)
  {
    var r := GetConnection(c, o);
    if c.connection.None? {
      var created := CreateConnection(c.settings, o.construct);
      CreateConnectionCalls(c.settings, o.construct, ConstructK);
      CreateConnectionCalls(c.settings, o.construct, OpenChannelK);
      if created.0.Success? {
        var live := CheckLiveness(created.0.value, o);
        assert r.trace == created.1 + live.1;
        CountAppend(created.1, live.1, ConstructK);
        CountAppend(created.1, live.1, OpenChannelK);
        InPhaseAppend(created.1, live.1, AcquisitionPhase);
      }
    }
  }

  /**
    The order of `getConnection`'s calls: without a cached connection, the
    construction attempts come first; once a connection is held, the next call
    is the liveness query on that very connection. Nothing else is called: the
    calls are the construction attempts, then the liveness calls on the held
    connection.
   */
  lemma GetConnectionPrefix(c: Consumer, o: Oracle)
    ensures var r := GetConnection(c, o);
            var created := if c.connection.None? then CreateConnection(c.settings, o.construct).1 else [];
            && |created| <= |r.trace| && r.trace[..|created|] == created
            && (r.state.connection.Some? ==>
                  |created| < |r.trace| && r.trace[|created|] == Probe(r.state.connection.value, o.alive))
            && (r.state.connection.None? ==> r.trace == created)
            && (r.state.connection.Some? ==> r.trace == created + CheckLiveness(r.state.connection.value, o).1)
  {
    var r := GetConnection(c, o);
    if c.connection.None? {
      var created := CreateConnection(c.settings, o.construct);
      if created.0.Success? {
        var live := CheckLiveness(created.0.value, o);
        assert r.trace == created.1 + live.1;
        assert r.trace[..|created.1|] == created.1;
        assert r.trace[|created.1|] == live.1[0];
      }
    }
  }

  /**
    The liveness calls of `getConnection`: one query once a connection exists,
    and one reconnect exactly when that connection reports itself dead.
   */
  lemma GetConnectionChecks(c: Consumer, o: Oracle)
    ensures var r := GetConnection(c, o);
            && Count(r.trace, ProbeK) == (if r.state.connection.Some? then 1 else 0)
            && Count(r.trace, ReconnectK) == (if r.state.connection.Some? && !o.alive then 1 else 0)
  {
    var r := GetConnection(c, o);
    if c.connection.None? {
      var created := CreateConnection(c.settings, o.construct);
      CreateConnectionCalls(c.settings, o.construct, ProbeK);
      CreateConnectionCalls(c.settings, o.construct, ReconnectK);
      if created.0.Success? {
        var live := CheckLiveness(created.0.value, o);
        assert r.trace == created.1 + live.1 && r.state.connection.Some?;
        CountAppend(created.1, live.1, ProbeK);
        CountAppend(created.1, live.1, ReconnectK);
        assert Count(r.trace, ReconnectK) == Count(live.1, ReconnectK);
      } else {
        assert r.trace == created.1 && r.state.connection.None?;
        assert Count(created.1, ReconnectK) == 0 && Count(created.1, ProbeK) == 0;
      }
    }
  }

  /** `getConnection` throws the creation failure iff nothing is cached and all nine attempts threw. */
  lemma GetConnectionCreateFails(c: Consumer, o: Oracle)
    ensures GetConnection(c, o).result == Failure(CreateFailed) <==>
              c.connection.None? && forall a :: 1 <= a <= MaxAttempts ==> o.construct(a).None?
  {
    CreateConnectionResult(c.settings, o.construct);
  }

  /**
    `getChannel`: opens a channel over the acquired connection only when none
    is cached. A cached channel is returned without any call at all, so the
    connection under it is never checked or reconnected again.
   */
  function GetChannel(c: Consumer, o: Oracle): (r: Step<Chan>)
    ensures r.state.service == c.service && r.state.settings == c.settings
    ensures c.connection.Some? ==> r.state.connection == c.connection
    ensures c.channel.Some? ==> r.result == Success(c.channel.value) && r.state == c && r.trace == []
    ensures r.result.Success? ==> r.state.channel == Some(r.result.value)
    ensures r.result.Failure? ==> r.state.channel.None?
    ensures r.result.Failure? ==> c.channel.None? && GetConnection(c, o).result == Failure(r.result.error)
    ensures c.channel.None? ==> r.state.connection == GetConnection(c, o).state.connection
    ensures c.channel.None? && r.result.Success? ==> r.result.value == o.channel
    ensures c.channel.None? && GetConnection(c, o).result.Success? ==> r.result.Success?
    ensures c.channel.None? && r.result.Success? ==>
              r.state.connection.Some? && |r.trace| > 0 &&
              r.trace[|r.trace| - 1] == OpenChannel(r.state.connection.value, r.result.value)
    ensures Wellformed(c) ==> Wellformed(r.state)
  {
    if c.channel.None? then
      var got := GetConnection(c, o);
      match got.result
      case Failure(e) => Step(Failure(e), got.state, got.trace)
      case Success(conn) =>
        Step(Success(o.channel), got.state.(channel := Some(o.channel)), got.trace + [OpenChannel(conn, o.channel)])
    else
      Step(Success(c.channel.value), c, [])
  }

  /**
    The calls of `getChannel`: with a channel cached, no construction and no
    channel open. Otherwise the nine construction attempts iff no connection
    was cached, and one channel open iff the acquisition succeeds.
   */
  lemma GetChannelCalls(c: Consumer, o: Oracle)
    ensures var r := GetChannel(c, o);
            && (c.channel.None? ==> Count(r.trace, ConstructK) == (if c.connection.None? then MaxAttempts else 0))
            && Count(r.trace, OpenChannelK) == (if c.channel.None? && r.result.Success? then 1 else 0)
  {
    if c.channel.None? {
      var got := GetConnection(c, o);
      GetConnectionCalls(c, o);
      if got.result.Success? {
        var opening := [OpenChannel(got.result.value, o.channel)];
        assert GetChannel(c, o).trace == got.trace + opening;
        CountAppend(got.trace, opening, ConstructK);
        CountAppend(got.trace, opening, OpenChannelK);
        SingletonCount(opening[0], ConstructK);
        SingletonCount(opening[0], OpenChannelK);
      }
    }
  }

  /**
    An acquisition without a cached channel starts with the calls of
    `getConnection` and adds only the channel open, when there is one; every
    call it makes belongs to the acquisition stage.
   */
  lemma GetChannelPrefix(c: Consumer, o: Oracle)
    ensures var r := GetChannel(c, o);
            && (c.channel.None? ==> r.trace[..|GetConnection(c, o).trace|] == GetConnection(c, o).trace)
            && (c.channel.None? ==> |r.trace| == |GetConnection(c, o).trace| + (if r.result.Success? then 1 else 0))
            && InPhase(r.trace, AcquisitionPhase)
  {
    if c.channel.None? {
      var got := GetConnection(c, o);
      GetConnectionCalls(c, o);
      if got.result.Success? {
        var opening := [OpenChannel(got.result.value, o.channel)];
        assert GetChannel(c, o).trace == got.trace + opening;
        InPhaseAppend(got.trace, opening, AcquisitionPhase);
        PrefixOfAppend(got.trace, opening);
      } else {
        assert GetChannel(c, o).trace == got.trace;
      }
    }
  }

  /**
    When acquisition throws: only while no channel is cached, and then either
    because nothing was cached and all nine construction attempts threw, or
    because the connection reports itself dead and the reconnect throws.
   */
  lemma GetChannelFails(c: Consumer, o: Oracle)
    ensures GetChannel(c, o).result.Failure? <==>
              c.channel.None? &&
              ((c.connection.None? && forall a :: 1 <= a <= MaxAttempts ==> o.construct(a).None?)
               || (!o.alive && o.reconnect.Some?))
  {
    if c.channel.None? {
      GetConnectionCreateFails(c, o);
      if c.connection.None? {
        CreateConnectionResult(c.settings, o.construct);
      }
    }
  }

  /**
    Once a channel has been acquired, every later acquisition returns it and
    calls nothing, whatever the broker would now answer: a dead connection
    under it is neither noticed nor reconnected.
   */
  lemma GetChannelReuse(c: Consumer, first: Oracle, later: Oracle)
    requires GetChannel(c, first).result.Success?
    ensures var r := GetChannel(c, first);
            var again := GetChannel(r.state, later);
            again.result == r.result && again.state == r.state && again.trace == []
  {
  }

  /**
    `__destruct`: closes the channel, then the connection, skipping whichever
    was never acquired. A close that throws is swallowed, so the outcomes only
    show in the recorded events and nothing is ever thrown.
   */
  function Teardown(c: Consumer, channelClose: Option<Thrown>, connectionClose: Option<Thrown>): (t: seq<Event>)
    ensures Count(t, CloseChannelK) == (if c.channel.Some? then 1 else 0)
    ensures Count(t, CloseConnectionK) == (if c.connection.Some? then 1 else 0)
    ensures |t| == Count(t, CloseChannelK) + Count(t, CloseConnectionK)
    ensures Ordered(t)
    ensures forall i :: 0 <= i < |t| ==>
              (t[i].CloseChannel? ==> c.channel == Some(t[i].chan)) &&
              (t[i].CloseConnection? ==> c.connection == Some(t[i].conn))
  {
    (match c.channel
     case Some(ch) => [CloseChannel(ch, channelClose.None?)]
     case None => [])
    + (match c.connection
       case Some(conn) => [CloseConnection(conn, connectionClose.None?)]
       case None => [])
  }

  /** A consumer that never acquired a connection calls nothing when torn down. */
  lemma TeardownUnused(c: Consumer, channelClose: Option<Thrown>, connectionClose: Option<Thrown>)
    requires Wellformed(c) && c.connection.None?
    ensures Teardown(c, channelClose, connectionClose) == []
  {
  }

  /** Which closes are made does not depend on whether earlier closes threw. */
  lemma TeardownIgnoresOutcomes(c: Consumer, a1: Option<Thrown>, b1: Option<Thrown>, a2: Option<Thrown>, b2: Option<Thrown>)
    ensures |Teardown(c, a1, b1)| == |Teardown(c, a2, b2)|
    ensures forall i :: 0 <= i < |Teardown(c, a1, b1)| ==>
              KindOf(Teardown(c, a1, b1)[i]) == KindOf(Teardown(c, a2, b2)[i])
  {
  }

  /** A broker that accepts every construction attempt, handing out the attempt's number as the connection. */
  function EveryAttemptConnects(attempt: nat): Option<Conn> {
    Some(Conn(attempt))
  }

  /** With every attempt succeeding, all nine are still made and the ninth connection is kept. */
  lemma CreateConnectionNoEarlyExit(s: Settings)
    ensures var r := CreateConnection(s, EveryAttemptConnects);
            r.0 == Success(Conn(9)) && Count(r.1, ConstructK) == 9
  {
    CreateConnectionCalls(s, EveryAttemptConnects, ConstructK);
    assert EveryAttemptConnects(9) == Some(Conn(9));
  }

  /** A consumer that was constructed and never used calls nothing when torn down. */
  lemma TeardownNeverConnected(service: string, host: string, channelClose: Option<Thrown>, connectionClose: Option<Thrown>)
    ensures Teardown(New(service, host), channelClose, connectionClose) == []
  {
  }
}
