/** `jsonRpc(handler)`: the dispatch loop that drains a channel, expands
    top-level arrays into batches, and invokes the handler once per message
    in order. The message decoder (`Message.deserialize`) and the handler
    are parameters: the decoder is partial, and the handler is given as the
    list of JSON values it sends for a message. */
module Dispatch {

  import opened Wrappers
  import opened JsonValues
  import opened Errors
  import opened Protocol
  import opened Channels

  /** `Message.deserialize`: an object to a message, or the exception it raises. */
  type Decoder = Json -> Result<Message, Failure>

  /** The handler: the values it sends on the channel for a message, in order. */
  type Handler = Message -> seq<Json>

  /** How the loop ended: the channel ran dry, or a decode raised and the
      exception left the loop (it has no try/catch). */
  datatype Outcome = Drained | Raised(failure: Failure)

  /** The messages one body contributes: an object is one, an array is a
      batch of its elements in order, any other value is skipped. */
  function Units(body: Json): (r: seq<Json>)
    ensures body.JObject? ==> r == [body]
    ensures body.JArray? ==> r == body.items
    ensures !body.JObject? && !body.JArray? ==> r == []
  {
    match body
    case JObject(_) => [body]
    case JArray(items) => items
    case _ => []
  }

  /** All the messages of a sequence of bodies, in receive order. */
  function AllUnits(bodies: seq<Json>): seq<Json>
  {
    if bodies == [] then [] else Units(bodies[0]) + AllUnits(bodies[1..])
  }

  /** The count the tests check: one per object plus the length of each array. */
  function CountUnits(bodies: seq<Json>): nat
  {
    if bodies == [] then 0
    else
      (match bodies[0]
       case JObject(_) => 1
       case JArray(items) => |items|
       case _ => 0) + CountUnits(bodies[1..])
  }

  /** `message.channel = this`. */
  function Attach(m: Message, channel: TestJsonRpcChannel): Message
  {
    Message(m.payload, Some(channel))
  }

  /** Everything a handler sends for the given messages, in call order. */
  function SentBy(handled: seq<Message>, handler: Handler): seq<Json>
  {
    if handled == [] then [] else handler(handled[0]) + SentBy(handled[1..], handler)
  }

  /** What handling a run of messages does: the messages the handler got,
      the values it sent, and the exception that stopped the run, if any. */
  datatype Step = Step(handled: seq<Message>, sent: seq<Json>, failure: Option<Failure>)

  function HandleUnits(units: seq<Json>, decode: Decoder, handler: Handler,
                       channel: TestJsonRpcChannel): Step
  {
    if units == [] then Step([], [], None)
    else
      match decode(units[0])
      case Err(e) => Step([], [], Some(e))
      case Ok(m) =>
        var message := Attach(m, channel);
        var r := HandleUnits(units[1..], decode, handler, channel);
        Step([message] + r.handled, handler(message) + r.sent, r.failure)
  }

  /** What the loop does with a channel whose input is `bodies`: the
      messages handled, the values sent, the input left, and how it ended. */
  datatype Trace = Trace(handled: seq<Message>, sent: seq<Json>, rest: seq<Json>, outcome: Outcome)

  function RunLoop(bodies: seq<Json>, decode: Decoder, handler: Handler,
                   channel: TestJsonRpcChannel): Trace
  {
    if bodies == [] then Trace([], [], [], Drained)
    else
      var s := HandleUnits(Units(bodies[0]), decode, handler, channel);
      if s.failure.Some? then Trace(s.handled, s.sent, bodies[1..], Raised(s.failure.value))
      else
        var t := RunLoop(bodies[1..], decode, handler, channel);
        Trace(s.handled + t.handled, s.sent + t.sent, t.rest, t.outcome)
  }

  /** Decodes one message, sets its channel and runs the handler on it;
      every value the handler sends goes through `send`. */
  method Deliver(channel: TestJsonRpcChannel, decode: Decoder, handler: Handler, unit: Json)
    returns (r: Result<Message, Failure>)
    modifies channel
    ensures decode(unit).Err? ==> r == decode(unit) && channel.output == old(channel.output)
    ensures decode(unit).Ok? ==> r == Ok(Attach(decode(unit).value, channel))
    ensures r.Ok? ==> channel.output == old(channel.output) + handler(r.value)
    ensures channel.input == old(channel.input)
  {
    var decoded := decode(unit);
    if decoded.Err? {
      return decoded;
    }
    var message := Attach(decoded.value, channel);
    var sends := handler(message);
    for k := 0 to |sends|
      invariant channel.output == old(channel.output) + sends[..k]
      invariant channel.input == old(channel.input)
    {
      channel.Send(sends[k]);
    }
    r := Ok(message);
  }

  /** One received body: an object is delivered, each element of an array
      is delivered in order, anything else is skipped. A raised exception
      stops the batch. */
  method DeliverBody(channel: TestJsonRpcChannel, decode: Decoder, handler: Handler, body: Json)
    returns (delivered: seq<Message>, failure: Option<Failure>, ghost step: Step)
    modifies channel
    ensures step == HandleUnits(Units(body), decode, handler, channel)
    ensures delivered == step.handled && failure == step.failure
    ensures channel.output == old(channel.output) + step.sent
    ensures channel.input == old(channel.input)
  {
    step := HandleUnits(Units(body), decode, handler, channel);
    delivered, failure := [], None;
    match body {
      case JObject(_) =>
        var r := Deliver(channel, decode, handler, body);
        if r.Err? {
          failure := Some(r.error);
        } else {
          delivered := [r.value];
        }
      case JArray(items) =>
        delivered, failure, step := DeliverBatch(channel, decode, handler, items);
      case _ =>
    }
  }

  /** A run preceded by messages already handled and values already sent. */
  function Then(handled: seq<Message>, sent: seq<Json>, s: Step): Step
  {
    Step(handled + s.handled, sent + s.sent, s.failure)
  }

  /** Handling a run whose first unit decodes: that message, then the rest. */
  lemma HandleFirst(units: seq<Json>, decode: Decoder, handler: Handler, channel: TestJsonRpcChannel)
    requires units != [] && decode(units[0]).Ok?
    ensures var m := Attach(decode(units[0]).value, channel);
            HandleUnits(units, decode, handler, channel)
              == Then([m], handler(m), HandleUnits(units[1..], decode, handler, channel))
  {
  }

  lemma ThenThen(h1: seq<Message>, s1: seq<Json>, h2: seq<Message>, s2: seq<Json>, s: Step)
    ensures Then(h1, s1, Then(h2, s2, s)) == Then(h1 + h2, s1 + s2, s)
  {
    AppendAssoc(h1, h2, s.handled);
    AppendAssoc(s1, s2, s.sent);
  }

  /** `body.forEach { ... }` over a batch: each element is delivered in
      order; a raised exception stops the batch. */
  method DeliverBatch(channel: TestJsonRpcChannel, decode: Decoder, handler: Handler, items: seq<Json>)
    returns (delivered: seq<Message>, failure: Option<Failure>, ghost step: Step)
    modifies channel
    ensures step == HandleUnits(items, decode, handler, channel)
    ensures delivered == step.handled && failure == step.failure
    ensures channel.output == old(channel.output) + step.sent
    ensures channel.input == old(channel.input)
  {
    step := HandleUnits(items, decode, handler, channel);
    delivered, failure := [], None;
    ghost var sent: seq<Json> := [];
    assert Then([], [], step) == step;
    for i := 0 to |items|
      invariant channel.input == old(channel.input)
      invariant channel.output == old(channel.output) + sent
      invariant Then(delivered, sent, HandleUnits(items[i..], decode, handler, channel)) == step
    {
      ghost var ahead := items[i..];
      assert ahead[1..] == items[i + 1..];
      var r := Deliver(channel, decode, handler, items[i]);
      if r.Err? {
        failure := Some(r.error);
        assert HandleUnits(ahead, decode, handler, channel) == Step([], [], failure);
        assert delivered + [] == delivered && sent + [] == sent;
        return;
      }
      HandleFirst(ahead, decode, handler, channel);
      ThenThen(delivered, sent, [r.value], handler(r.value), HandleUnits(items[i + 1..], decode, handler, channel));
      AppendAssoc(old(channel.output), sent, handler(r.value));
      delivered := delivered + [r.value];
      sent := sent + handler(r.value);
    }
    assert items[|items|..] == [];
    assert delivered + [] == delivered && sent + [] == sent;
  }

  /** A trace preceded by messages already handled and values already sent. */
  function After(handled: seq<Message>, sent: seq<Json>, t: Trace): Trace
  {
    Trace(handled + t.handled, sent + t.sent, t.rest, t.outcome)
  }

  lemma AfterAfter(h1: seq<Message>, s1: seq<Json>, h2: seq<Message>, s2: seq<Json>, t: Trace)
    ensures After(h1, s1, After(h2, s2, t)) == After(h1 + h2, s1 + s2, t)
  {
  }

  /** One turn of the loop, seen from the loop's invariant: `all` is what
      the whole loop does, `handled` and `sent` what the earlier turns did. */
  method Serve(channel: TestJsonRpcChannel, decode: Decoder, handler: Handler, body: Json,
               ghost handled: seq<Message>, ghost sent: seq<Json>, ghost all: Trace)
    returns (delivered: seq<Message>, failure: Option<Failure>, ghost sentNow: seq<Json>)
    modifies channel
    requires After(handled, sent, RunLoop([body] + channel.input, decode, handler, channel)) == all
    ensures channel.input == old(channel.input)
    ensures channel.output == old(channel.output) + sentNow
    ensures failure.Some? ==>
              all == Trace(handled + delivered, sent + sentNow, channel.input, Raised(failure.value))
    ensures failure.None? ==>
              After(handled + delivered, sent + sentNow, RunLoop(channel.input, decode, handler, channel)) == all
  {
    ghost var rest := channel.input;
    ghost var step;
    delivered, failure, step := DeliverBody(channel, decode, handler, body);
    sentNow := step.sent;
    if failure.Some? {
      LoopStops(handled, sent, body, rest, all, step, decode, handler, channel);
    } else {
      LoopGoesOn(handled, sent, body, rest, all, step, decode, handler, channel);
    }
  }

  /** The input still to be read: the body in hand, then the channel's input. */
  function Pending(body: Option<Json>, input: seq<Json>): seq<Json>
  {
    if body.Some? then [body.value] + input else input
  }

  /** The loop. Returns the messages the handler was invoked with (what the
      tests count) and how it ended. */
  method JsonRpc(channel: TestJsonRpcChannel, decode: Decoder, handler: Handler)
    returns (handled: seq<Message>, outcome: Outcome, ghost all: Trace)
    modifies channel
    ensures all == RunLoop(old(channel.input), decode, handler, channel)
    ensures handled == all.handled && outcome == all.outcome
    ensures channel.output == old(channel.output) + all.sent
    ensures channel.input == all.rest
  {
    all := RunLoop(old(channel.input), decode, handler, channel);
    ghost var sent: seq<Json> := [];
    handled := [];
    var body := channel.Receive();
    ghost var todo := old(channel.input);
    assert After([], [], all) == all;
    while body.Some?
      invariant channel.output == old(channel.output) + sent
      invariant todo == Pending(body, channel.input)
      invariant body.None? ==> channel.input == []
      invariant After(handled, sent, RunLoop(todo, decode, handler, channel)) == all
      decreases |channel.input| + (if body.Some? then 1 else 0)
    {
      ghost var rest := channel.input;
      var delivered, failure, sentNow := Serve(channel, decode, handler, body.value, handled, sent, all);
      AppendAssoc(old(channel.output), sent, sentNow);
      handled := handled + delivered;
      sent := sent + sentNow;
      if failure.Some? {
        outcome := Raised(failure.value);
        return;
      }
      body := channel.Receive();
      todo := rest;
    }
    outcome := Drained;
    assert all == Trace(handled, sent, [], Drained);
  }

  /** Concatenation is associative; the solver does not find this unaided. */
  lemma AppendAssoc<T>(a: seq<T>, b: seq<T>, c: seq<T>)
    ensures (a + b) + c == a + (b + c)
  {
  }

  /** One step of the loop's specification: the first body's messages,
      then the rest of the loop, unless the first body raised. */
  lemma RunLoopFirst(body: Json, rest: seq<Json>, decode: Decoder, handler: Handler,
                     channel: TestJsonRpcChannel) returns (next: Trace)
    ensures next == RunLoop(rest, decode, handler, channel)
    ensures var s := HandleUnits(Units(body), decode, handler, channel);
            RunLoop([body] + rest, decode, handler, channel)
              == if s.failure.Some? then Trace(s.handled, s.sent, rest, Raised(s.failure.value))
                 else After(s.handled, s.sent, next)
  {
    assert ([body] + rest)[1..] == rest;
    next := RunLoop(rest, decode, handler, channel);
  }

  /** A turn of the loop whose body raised: the loop's result is complete. */
  lemma LoopStops(handled: seq<Message>, sent: seq<Json>, body: Json, rest: seq<Json>, all: Trace,
                  step: Step, decode: Decoder, handler: Handler, channel: TestJsonRpcChannel)
    requires After(handled, sent, RunLoop([body] + rest, decode, handler, channel)) == all
    requires step == HandleUnits(Units(body), decode, handler, channel) && step.failure.Some?
    ensures all == Trace(handled + step.handled, sent + step.sent, rest, Raised(step.failure.value))
  {
    var next := RunLoopFirst(body, rest, decode, handler, channel);
  }

  /** A turn of the loop whose body did not raise: the invariant moves on to the rest. */
  lemma LoopGoesOn(handled: seq<Message>, sent: seq<Json>, body: Json, rest: seq<Json>, all: Trace,
                   step: Step, decode: Decoder, handler: Handler, channel: TestJsonRpcChannel)
    requires After(handled, sent, RunLoop([body] + rest, decode, handler, channel)) == all
    requires step == HandleUnits(Units(body), decode, handler, channel) && step.failure.None?
    ensures After(handled + step.handled, sent + step.sent, RunLoop(rest, decode, handler, channel)) == all
  {
    var next := RunLoopFirst(body, rest, decode, handler, channel);
    AfterAfter(handled, sent, step.handled, step.sent, next);
  }

}
