/** The feed listener of server/amqp_listener.py: which routing keys it binds, how it turns a
    parsed message into the record it saves and forwards, the acknowledgement discipline of its
    message callback, and the retry counter of its reconnect loop. The broker, the XML parser,
    the database and the WebSocket server are inputs: their outcomes are supplied to the model. */
module AmqpListener {
  import opened Wrappers
  import opened Text

  // ---------------------------------------------------------------- routing keys

  /** The routing-key setting used when none is configured: every message. */
  const DefaultRoutingKeys: string := "#"

  /** The exchange every key is bound on. */
  const Exchange: string := "unifiedfeed"

  /** The keys `connect` binds: the setting split on "," and each piece stripped of surrounding
      whitespace, in order. */
  function RoutingKeys(setting: string): (keys: seq<string>)
    ensures |keys| == Count(setting, ',') + 1
    ensures forall i :: 0 <= i < |keys| ==> keys[i] == Strip(Split(setting, ',')[i])
    ensures forall i :: 0 <= i < |keys| ==> ',' !in keys[i]
  {
    var pieces := Split(setting, ',');
    var keys := seq(|pieces|, i requires 0 <= i < |pieces| => Strip(pieces[i]));
    forall i | 0 <= i < |keys| ensures ',' !in keys[i] {
      StripKeepsAbsence(pieces[i], ',');
    }
    keys
  }

  /** Stripping only removes characters, so a character absent before is absent after. */
  lemma StripKeepsAbsence(s: string, c: char)
    requires c !in s
    ensures c !in Strip(s)
  {
  }

  /** A setting whose pieces have no surrounding whitespace yields the pieces themselves. */
  lemma RoutingKeysOfStripped(setting: string, pieces: seq<string>)
    requires Split(setting, ',') == pieces
    requires forall i :: 0 <= i < |pieces| ==> pieces[i] == [] || (!IsSpace(pieces[i][0]) && !IsSpace(pieces[i][|pieces[i]| - 1]))
    ensures RoutingKeys(setting) == pieces
  {
    var r := RoutingKeys(setting);
    forall i | 0 <= i < |pieces| ensures r[i] == pieces[i] {
      StripUnchanged(pieces[i]);
    }
  }

  /** Keys written without commas or surrounding whitespace and joined with "," are read back
      exactly, one bind each. */
  lemma RoutingKeysOfJoined(keys: seq<string>)
    requires |keys| >= 1
    requires forall i :: 0 <= i < |keys| ==> ',' !in keys[i]
    requires forall i :: 0 <= i < |keys| ==> keys[i] == [] || (!IsSpace(keys[i][0]) && !IsSpace(keys[i][|keys[i]| - 1]))
    ensures RoutingKeys(Join(keys, ',')) == keys
  {
    SplitJoin(keys, ',');
    RoutingKeysOfStripped(Join(keys, ','), keys);
  }

  /** The default setting binds exactly one key, "#". */
  lemma DefaultBindsOnce()
    ensures RoutingKeys(DefaultRoutingKeys) == ["#"]
  {
    RoutingKeysOfJoined(["#"]);
    assert Join(["#"], ',') == "#";
  }

  // ---------------------------------------------------------------- message records

  /** What the XML parser made of a delivery's body: the decoded text with the root element's tag
      and attributes, or the error raised while decoding or parsing, with the body decoded
      leniently (undecodable bytes dropped). */
  datatype ParseOutcome =
    | Parsed(text: string, tag: string, attributes: map<string, string>)
    | Unparseable(lenientText: string, error: string)

  /** The `parsed_data` summary of a record. */
  datatype ParsedData =
    | Summary(messageType: string, producer: string, timestamp: Option<string>,
              eventId: Option<string>, routingKey: string)
    | ParseError(error: string)

  /** The record saved to the database and forwarded to the WebSocket server. A record built
      from an unparseable body has no match id. */
  datatype MessageRecord = MessageRecord(
    messageType: string,
    producer: string,
    matchId: Option<string>,
    routingKey: string,
    rawContent: string,
    parsedData: ParsedData)

  const Unknown: string := "unknown"

  /** `root.get(name)`. */
  function Attribute(attributes: map<string, string>, name: string): Option<string> {
    if name in attributes then Some(attributes[name]) else None
  }

  /** `parse_message` after the XML parser. Both kinds of record keep the routing key. A parsed
      record takes its type from the root tag, its producer from the "producer" attribute
      ("unknown" when absent) and its match id from a non-empty "event_id" attribute; an
      unparseable one is of unknown type and producer and keeps the leniently decoded body. */
  function ParseMessage(body: ParseOutcome, routingKey: string): (m: MessageRecord)
    ensures m.routingKey == routingKey
    ensures body.Parsed? ==> m.messageType == body.tag && m.rawContent == body.text
    ensures body.Parsed? ==> m.producer == if "producer" in body.attributes then body.attributes["producer"] else Unknown
    ensures body.Parsed? ==> (m.matchId.Some? <==> "event_id" in body.attributes && body.attributes["event_id"] != "")
    ensures body.Parsed? && m.matchId.Some? ==> m.matchId.value == body.attributes["event_id"]
    ensures body.Parsed? ==> (m.parsedData.Summary? && m.parsedData.messageType == m.messageType
      && m.parsedData.producer == m.producer && m.parsedData.routingKey == routingKey)
    ensures body.Unparseable? ==> (m.messageType == Unknown && m.producer == Unknown && m.matchId == None
      && m.rawContent == body.lenientText && m.parsedData == ParseError(body.error))
  {
    match body
    case Parsed(text, tag, attributes) =>
      var producer := Attribute(attributes, "producer").GetOr(Unknown);
      var eventId := Attribute(attributes, "event_id");
      var matchId := if eventId.Some? && eventId.value != "" then eventId else None;
      MessageRecord(tag, producer, matchId, routingKey, text,
                    Summary(tag, producer, Attribute(attributes, "timestamp"), eventId, routingKey))
    case Unparseable(lenientText, error) =>
      MessageRecord(Unknown, Unknown, None, routingKey, lenientText, ParseError(error))
  }

  /** The match id of a record, when it has one, is the event id its summary carries. */
  lemma MatchIdFromSummary(body: ParseOutcome, routingKey: string)
    ensures var m := ParseMessage(body, routingKey);
      m.matchId.Some? ==> m.parsedData.Summary? && m.parsedData.eventId == m.matchId
  {
  }

  // ---------------------------------------------------------------- message callback

  /** A delivery from the broker. */
  datatype Delivery = Delivery(deliveryTag: nat, routingKey: string, body: ParseOutcome)

  /** How a call to the database or the WebSocket server ended: it reported success or failure,
      it raised an exception, or a keyboard interrupt arrived while it was blocked, which neither
      the call's own handler nor the callback's catches. */
  datatype Effect = Reported(ok: bool) | Raised | KeyboardInterrupt

  /** The side effects of the callback, in the order they happen. */
  datatype Action = Save(record: MessageRecord) | Forward(record: MessageRecord) | Ack(deliveryTag: nat)

  // ---------------------------------------------------------------- the listener

  /** How establishing a connection went: no fault, or the step at which it failed (opening the
      connection, opening the channel, declaring the queue, binding the key with the given index),
      or a keyboard interrupt while connecting, which `connect`'s handler does not catch. */
  datatype ConnectFault = NoFault | ConnectionFault | ChannelFault | DeclareFault | BindFault(index: nat) | Interrupt

  /** The broker's side of one connection attempt: the fault, and the connection, channel and
      server-named queue it hands out. */
  datatype Broker = Broker(fault: ConnectFault, connection: nat, channel: nat, queue: string)

  /** `connect` returned True, returned False, or let an interrupt escape. */
  datatype ConnectResult = Connected | ConnectFailed | ConnectInterrupted

  datatype Binding = Binding(exchange: string, queue: string, routingKey: string)

  /** A connection attempt succeeds when no step fails, a bind fault past the last key
      included. */
  predicate ConnectSucceeds(fault: ConnectFault, keyCount: nat) {
    fault.NoFault? || (fault.BindFault? && fault.index >= keyCount)
  }

  /** The binds made with the routing keys `keys[..n]` on `queue`, in order. */
  function Bindings(queue: string, keys: seq<string>): seq<Binding> {
    seq(|keys|, i requires 0 <= i < |keys| => Binding(Exchange, queue, keys[i]))
  }

  /** The connection, channel and queue name a listener holds. */
  datatype Handles = Handles(connection: Option<nat>, channel: Option<nat>, queueName: Option<string>)

  /** A step of `connect` that was reached and succeeded, so that its handle was replaced:
      declaring the queue is the last one. */
  predicate Declared(fault: ConnectFault) {
    !fault.Interrupt? && !fault.ConnectionFault? && !fault.ChannelFault? && !fault.DeclareFault?
  }

  /** The handles after one call of `connect` on `broker`: each is replaced by the broker's exactly
      when its step is reached, so an interrupt or a failed connection leaves all three as they were
      and a declared queue replaces all three. */
  function AfterConnect(h: Handles, broker: Broker): (r: Handles)
    ensures broker.fault.Interrupt? || broker.fault.ConnectionFault? ==> r == h
    ensures broker.fault.ChannelFault? ==> r == h.(connection := Some(broker.connection))
    ensures broker.fault.DeclareFault? ==> r == h.(connection := Some(broker.connection), channel := Some(broker.channel))
    ensures Declared(broker.fault) ==> r == Handles(Some(broker.connection), Some(broker.channel), Some(broker.queue))
    ensures r.queueName == h.queueName || r.queueName == Some(broker.queue)
  {
    if broker.fault.Interrupt? || broker.fault.ConnectionFault? then h
    else if broker.fault.ChannelFault? then h.(connection := Some(broker.connection))
    else if broker.fault.DeclareFault? then h.(connection := Some(broker.connection), channel := Some(broker.channel))
    else Handles(Some(broker.connection), Some(broker.channel), Some(broker.queue))
  }

  /** The handles after a `connect` per round, in order. Rounds that never open a connection change
      nothing, and the last round that declared a queue leaves its three handles. */
  function AfterConnects(h: Handles, rounds: seq<Round>): (r: Handles)
    ensures (forall i :: 0 <= i < |rounds| ==> rounds[i].broker.fault.Interrupt? || rounds[i].broker.fault.ConnectionFault?)
      ==> r == h
    ensures r.queueName == h.queueName || exists i :: 0 <= i < |rounds| && r.queueName == Some(rounds[i].broker.queue)
    decreases |rounds|
  {
    if rounds == [] then h
    else
      var n := |rounds| - 1;
      var before := AfterConnects(h, rounds[..n]);
      assert before.queueName != h.queueName ==> exists i :: 0 <= i < n && before.queueName == Some(rounds[..n][i].broker.queue);
      AfterConnect(before, rounds[n].broker)
  }

  /** How the consumer loop of the channel ended when it was entered: it returned, a keyboard
      interrupt reached it, or it raised. */
  datatype ConsumeOutcome = ConsumerReturned | ConsumerInterrupted | ConsumerRaised

  /** What one pass of the reconnect loop amounts to, for the retry counter. */
  datatype Event = ConnectFail | ConsumeDone | ConsumeFail | Interrupted

  /** The broker and consumer outcomes of one pass of the reconnect loop. */
  datatype Round = Round(broker: Broker, consume: ConsumeOutcome)

  /** The event a round amounts to. A keyboard interrupt inside the consumer is caught by
      `start_consuming`, which stops and returns normally, so it counts as a finished pass; a
      successful connection whose queue name is empty fails `start_consuming`'s check. */
  function RoundEvent(round: Round, keyCount: nat): (e: Event)
    ensures e == Interrupted <==> round.broker.fault.Interrupt?
    ensures e == ConsumeDone ==> ConnectSucceeds(round.broker.fault, keyCount) && !round.consume.ConsumerRaised?
  {
    if round.broker.fault.Interrupt? then Interrupted
    else if !ConnectSucceeds(round.broker.fault, keyCount) then ConnectFail
    else if round.broker.queue == "" || round.consume.ConsumerRaised? then ConsumeFail
    else ConsumeDone
  }

  function Events(rounds: seq<Round>, keyCount: nat): seq<Event> {
    seq(|rounds|, i requires 0 <= i < |rounds| => RoundEvent(rounds[i], keyCount))
  }

  /** Why the reconnect loop ended: the counter reached the limit, an interrupt broke it, or the
      supplied rounds ran out (the source would go on waiting for the next pass). */
  datatype Exit = LimitReached | InterruptedExit | RoundsExhausted

  /** The counter at exit, the number of passes and the reason for ending. */
  datatype Run = Run(retryCount: int, passes: nat, exit: Exit)

  /** The reconnect loop from counter `count` on: a failed connection adds 1, a successful one
      resets the counter to 0, and a consumer that raises after it adds 1 to that. */
  function Reconnect(maxRetries: int, count: int, events: seq<Event>): (r: Run)
    ensures r.passes <= |events|
    ensures r.exit == LimitReached <==> r.retryCount >= maxRetries
    ensures r.exit == RoundsExhausted ==> r.passes == |events|
    ensures r.exit == InterruptedExit ==> 1 <= r.passes && events[r.passes - 1] == Interrupted
    decreases |events|
  {
    if count >= maxRetries then Run(count, 0, LimitReached)
    else if events == [] then Run(count, 0, RoundsExhausted)
    else
      match events[0]
      case Interrupted => Run(count, 1, InterruptedExit)
      case ConnectFail => Later(Reconnect(maxRetries, count + 1, events[1..]))
      case ConsumeDone => Later(Reconnect(maxRetries, 0, events[1..]))
      case ConsumeFail => Later(Reconnect(maxRetries, 1, events[1..]))
  }

  /** A run that comes one pass later. */
  function Later(r: Run): Run {
    After(r, 1)
  }

  /** A run that comes `n` passes later. */
  function After(r: Run, n: nat): Run {
    r.(passes := r.passes + n)
  }

  /** The counter after a pass that did not end the loop. */
  function NextCount(count: int, event: Event): int
    requires event != Interrupted
  {
    match event
    case ConnectFail => count + 1
    case ConsumeDone => 0
    case ConsumeFail => 1
  }

  /** One pass below the limit: an interrupt ends the run after it, any other event continues the
      run from the next counter, one pass later. */
  lemma ReconnectStep(maxRetries: int, count: int, events: seq<Event>, done: nat)
    requires count < maxRetries && events != []
    ensures events[0] == Interrupted ==> After(Reconnect(maxRetries, count, events), done) == Run(count, done + 1, InterruptedExit)
    ensures events[0] != Interrupted ==> (After(Reconnect(maxRetries, count, events), done)
      == After(Reconnect(maxRetries, NextCount(count, events[0]), events[1..]), done + 1))
  {
  }

  /** Starting from a counter in [0, max], the counter stays in [0, max]. */
  lemma {:induction false} ReconnectBounds(maxRetries: int, count: int, events: seq<Event>)
    requires 0 <= count && (count <= maxRetries || count == 0)
    ensures var r := Reconnect(maxRetries, count, events);
      && 0 <= r.retryCount
      && (0 <= maxRetries ==> r.retryCount <= maxRetries)
    decreases |events|
  {
    if count < maxRetries && events != [] {
      ReconnectBounds(maxRetries, count + 1, events[1..]);
      ReconnectBounds(maxRetries, 0, events[1..]);
      ReconnectBounds(maxRetries, 1, events[1..]);
    }
  }

  /** With a limit of 0 or less the loop body never runs and the limit is reported at once. */
  lemma NonPositiveLimit(maxRetries: int, events: seq<Event>)
    requires maxRetries <= 0
    ensures Reconnect(maxRetries, 0, events) == Run(0, 0, LimitReached)
  {
  }

  /** `max - count` consecutive connection failures take the counter to the limit, and the loop
      gives up after exactly that many passes. */
  lemma {:induction false} ConsecutiveFailuresGiveUp(maxRetries: int, count: int, events: seq<Event>)
    requires 0 <= count <= maxRetries
    requires maxRetries - count <= |events|
    requires forall i :: 0 <= i < maxRetries - count ==> events[i] == ConnectFail
    ensures Reconnect(maxRetries, count, events) == Run(maxRetries, maxRetries - count, LimitReached)
    decreases maxRetries - count
  {
    if count < maxRetries {
      ConsecutiveFailuresGiveUp(maxRetries, count + 1, events[1..]);
    }
  }

  /** A connection that always succeeds but whose consumer always raises keeps the counter at 1:
      with a limit above 1 the loop never gives up, only the supplied rounds end it. */
  lemma {:induction false} ConsumerFailuresNeverGiveUp(maxRetries: int, count: int, events: seq<Event>)
    requires maxRetries >= 2 && 0 <= count <= 1
    requires forall i :: 0 <= i < |events| ==> events[i] == ConsumeFail
    ensures Reconnect(maxRetries, count, events) == Run(if events == [] then count else 1, |events|, RoundsExhausted)
    decreases |events|
  {
    if events != [] {
      ConsumerFailuresNeverGiveUp(maxRetries, 1, events[1..]);
    }
  }

  /** Passes that each connect and finish consuming reset the counter every time: below the limit
      the loop never gives up, only the supplied rounds end it. */
  lemma {:induction false} FinishedPassesNeverGiveUp(maxRetries: int, count: int, events: seq<Event>)
    requires 0 <= count < maxRetries
    requires forall i :: 0 <= i < |events| ==> events[i] == ConsumeDone
    ensures Reconnect(maxRetries, count, events) == Run(if events == [] then count else 0, |events|, RoundsExhausted)
    decreases |events|
  {
    if events != [] {
      FinishedPassesNeverGiveUp(maxRetries, 0, events[1..]);
    }
  }

  /** A keyboard interrupt that reaches the consumer does not end the listener: `start_consuming`
      catches it and returns, so the loop reconnects. Rounds that each connect and are interrupted
      while consuming run to the end of the supplied rounds with the counter at 0. */
  lemma InterruptWhileConsumingReconnects(maxRetries: int, rounds: seq<Round>, keyCount: nat)
    requires maxRetries >= 1
    requires forall i :: 0 <= i < |rounds| ==> (rounds[i].broker.fault.NoFault? && rounds[i].broker.queue != ""
      && rounds[i].consume == ConsumerInterrupted)
    ensures Reconnect(maxRetries, 0, Events(rounds, keyCount)) == Run(0, |rounds|, RoundsExhausted)
  {
    FinishedPassesNeverGiveUp(maxRetries, 0, Events(rounds, keyCount));
  }

  /** `AMQPListener`: the connection, channel and queue name `connect` sets; `stop` closes them
      but leaves the fields as they are. */
  class Listener {
    var connection: Option<nat>
    var channel: Option<nat>
    var queueName: Option<string>

    constructor ()
      ensures connection == None && channel == None && queueName == None
    {
      connection, channel, queueName := None, None, None;
    }

    function CurrentHandles(): Handles
      reads this
    {
      Handles(connection, channel, queueName)
    }

    /** The check of `start_consuming`: a channel and a non-empty queue name. */
    predicate Ready()
      reads this
    {
      channel.Some? && queueName.Some? && queueName.value != ""
    }

    /** `connect`: open the connection, open a channel, declare the queue, then bind every
      routing key of the setting in order. A failing step leaves the fields of later steps
      as they were and makes no further binds. */
    method Connect(broker: Broker, setting: string) returns (result: ConnectResult, binds: seq<Binding>)
      modifies this
      ensures result == if broker.fault.Interrupt? then ConnectInterrupted
                        else if ConnectSucceeds(broker.fault, |RoutingKeys(setting)|) then Connected
                        else ConnectFailed
      ensures connection == if broker.fault.Interrupt? || broker.fault.ConnectionFault? then old(connection)
                            else Some(broker.connection)
      ensures channel == if broker.fault.Interrupt? || broker.fault.ConnectionFault? || broker.fault.ChannelFault?
                         then old(channel) else Some(broker.channel)
      ensures queueName == if broker.fault.Interrupt? || broker.fault.ConnectionFault? || broker.fault.ChannelFault?
                              || broker.fault.DeclareFault?
                           then old(queueName) else Some(broker.queue)
      ensures binds == if broker.fault.NoFault? then Bindings(broker.queue, RoutingKeys(setting))
                       else if broker.fault.BindFault? && broker.fault.index < |RoutingKeys(setting)|
                       then Bindings(broker.queue, RoutingKeys(setting)[..broker.fault.index])
                       else if ConnectSucceeds(broker.fault, |RoutingKeys(setting)|)
                       then Bindings(broker.queue, RoutingKeys(setting))
                       else []
    {
      binds := [];
      if broker.fault.Interrupt? {
        return ConnectInterrupted, [];
      }
      if broker.fault.ConnectionFault? {
        return ConnectFailed, [];
      }
      connection := Some(broker.connection);
      if broker.fault.ChannelFault? {
        return ConnectFailed, [];
      }
      channel := Some(broker.channel);
      if broker.fault.DeclareFault? {
        return ConnectFailed, [];
      }
      queueName := Some(broker.queue);
      var keys := RoutingKeys(setting);
      var i := 0;
      while i < |keys|
        invariant 0 <= i <= |keys|
        invariant broker.fault.BindFault? ==> i <= broker.fault.index
        invariant binds == Bindings(broker.queue, keys[..i])
      {
        if broker.fault.BindFault? && broker.fault.index == i {
          return ConnectFailed, binds;
        }
        binds := binds + [Binding(Exchange, broker.queue, keys[i])];
        i := i + 1;
      }
      assert keys[..i] == keys;
      result := Connected;
    }

    /** `on_message`: save, then forward, then acknowledge. Whatever save and forward report, and
      whether or not processing raises an exception, the delivery is acknowledged exactly once,
      last; an exception skips only the steps after it. (`save_message_to_db` and
      `forward_to_websocket` catch every exception themselves, so the `Raised` outcome stands for
      what the handler would do if one escaped; in the code as written only the acknowledgement
      itself can raise into that handler.) A keyboard interrupt during save or
      forward is not an exception to the handler: it escapes with the delivery unacknowledged. */
    method OnMessage(delivery: Delivery, save: Effect, forward: Effect) returns (actions: seq<Action>, interrupted: bool)
      ensures var m := ParseMessage(delivery.body, delivery.routingKey);
        actions == if save.KeyboardInterrupt? then [Save(m)]
                   else if save.Raised? then [Save(m), Ack(delivery.deliveryTag)]
                   else if forward.KeyboardInterrupt? then [Save(m), Forward(m)]
                   else [Save(m), Forward(m), Ack(delivery.deliveryTag)]
      ensures interrupted <==> save.KeyboardInterrupt? || (!save.Raised? && forward.KeyboardInterrupt?)
      ensures interrupted <==> Ack(delivery.deliveryTag) !in actions
      ensures !interrupted ==> |actions| >= 2 && actions[|actions| - 1] == Ack(delivery.deliveryTag)
      ensures forall i :: 0 <= i < |actions| - 1 ==> !actions[i].Ack?
      ensures save.Reported? ==> Forward(ParseMessage(delivery.body, delivery.routingKey)) in actions
    {
      var record := ParseMessage(delivery.body, delivery.routingKey);
      actions := [Save(record)];
      if save.KeyboardInterrupt? {
        return actions, true;
      }
      if save.Raised? {
        // the handler acknowledges anyway, to avoid redelivery
        actions := actions + [Ack(delivery.deliveryTag)];
        return actions, false;
      }
      actions := actions + [Forward(record)];
      if forward.KeyboardInterrupt? {
        return actions, true;
      }
      actions := actions + [Ack(delivery.deliveryTag)];
      interrupted := false;
    }

    /** `start_consuming`: raises when there is no channel or no queue name. Otherwise it runs
      the consumer; an interrupt there is caught, `stop` is called and it returns normally,
      any other exception is raised again. */
    method StartConsuming(outcome: ConsumeOutcome) returns (raised: bool, stoppedOnInterrupt: bool)
      ensures raised <==> !Ready() || outcome.ConsumerRaised?
      ensures stoppedOnInterrupt <==> Ready() && outcome.ConsumerInterrupted?
    {
      if !Ready() {
        return true, false;
      }
      match outcome
      case ConsumerReturned => return false, false;
      case ConsumerInterrupted => return false, true;
      case ConsumerRaised => return true, false;
    }

    /** One pass of `run_with_reconnect` up to its `finally`: connect and, when connected, consume.
      What it amounts to for the counter is the round's event. */
    method Pass(round: Round, setting: string) returns (event: Event)
      modifies this
      ensures event == RoundEvent(round, |RoutingKeys(setting)|)
      ensures CurrentHandles() == AfterConnect(old(CurrentHandles()), round.broker)
    {
      var connected, _ := Connect(round.broker, setting);
      if connected == ConnectInterrupted {
        return Interrupted;
      }
      if connected == ConnectFailed {
        return ConnectFail;
      }
      assert Ready() <==> round.broker.queue != "";
      var raised, _ := StartConsuming(round.consume);
      event := if raised then ConsumeFail else ConsumeDone;
    }

    /** `run_with_reconnect`, over the supplied rounds: the counter, the number of passes and the
      reason for ending follow `Reconnect`; the `finally` clause's `stop` runs once per pass; the
      "max retries" error is reported exactly when the counter is at least the limit at exit. */
    method RunWithReconnect(maxRetries: int, setting: string, rounds: seq<Round>)
      returns (retryCount: int, passes: nat, cleanups: nat, exit: Exit, reportsMaxRetries: bool)
      modifies this
      ensures Run(retryCount, passes, exit) == Reconnect(maxRetries, 0, Events(rounds, |RoutingKeys(setting)|))
      ensures cleanups == passes
      ensures CurrentHandles() == AfterConnects(old(CurrentHandles()), rounds[..passes])
      ensures reportsMaxRetries <==> retryCount >= maxRetries
    {
      ghost var events := Events(rounds, |RoutingKeys(setting)|);
      retryCount, passes, cleanups := 0, 0, 0;
      while retryCount < maxRetries && passes < |rounds|
        invariant 0 <= passes <= |rounds| && cleanups == passes
        invariant CurrentHandles() == AfterConnects(old(CurrentHandles()), rounds[..passes])
        invariant Reconnect(maxRetries, 0, events) == After(Reconnect(maxRetries, retryCount, events[passes..]), passes)
        decreases |rounds| - passes
      {
        assert rounds[..passes + 1][..passes] == rounds[..passes];
        var event := Pass(rounds[passes], setting);
        ReconnectStep(maxRetries, retryCount, events[passes..], passes);
        assert events[passes..][1..] == events[passes + 1..];
        if event == Interrupted {
          passes, cleanups := passes + 1, cleanups + 1;
          exit := InterruptedExit;
          reportsMaxRetries := retryCount >= maxRetries;
          return;
        }
        retryCount := NextCount(retryCount, event);
        passes, cleanups := passes + 1, cleanups + 1;
      }
      exit := if retryCount >= maxRetries then LimitReached else RoundsExhausted;
      reportsMaxRetries := retryCount >= maxRetries;
    }
  }
}
