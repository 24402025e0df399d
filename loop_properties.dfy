/** What `jsonRpc` does to a channel, stated over `Dispatch.RunLoop`, the
    function the loop method is proved against: order, counts, drain,
    where an exception stops the loop, the channel each message carries,
    and what reaches `output`. */
module LoopProperties {

  import opened Wrappers
  import opened JsonValues
  import opened Protocol
  import opened Channels
  import opened Dispatch

  /** `handled` is the start of `units`, each decoded and bound to `channel`. */
  predicate Delivers(units: seq<Json>, handled: seq<Message>, decode: Decoder,
                     channel: TestJsonRpcChannel)
  {
    |handled| <= |units| &&
    forall i :: 0 <= i < |handled| ==>
      decode(units[i]).Ok? && handled[i] == Attach(decode(units[i]).value, channel)
  }

  /** Every unit decoded and bound to `channel`, in order: the reference
      list of handler calls when nothing raises. */
  function AttachAll(units: seq<Json>, decode: Decoder, channel: TestJsonRpcChannel): (r: seq<Message>)
    requires forall u | u in units :: decode(u).Ok?
    ensures |r| == |units|
  {
    if units == [] then []
    else [Attach(decode(units[0]).value, channel)] + AttachAll(units[1..], decode, channel)
  }

  lemma {:induction false} SentByAppend(a: seq<Message>, b: seq<Message>, handler: Handler)
    ensures SentBy(a + b, handler) == SentBy(a, handler) + SentBy(b, handler)
  {
    if a == [] {
      assert a + b == b;
    } else {
      assert (a + b)[1..] == a[1..] + b;
      SentByAppend(a[1..], b, handler);
      AppendAssoc(handler(a[0]), SentBy(a[1..], handler), SentBy(b, handler));
    }
  }

  /** A handler that sends nothing leaves nothing to send. */
  lemma {:induction false} SentBySilent(handled: seq<Message>, handler: Handler)
    requires forall m :: handler(m) == []
    ensures SentBy(handled, handler) == []
  {
    if handled != [] {
      SentBySilent(handled[1..], handler);
      assert handler(handled[0]) == [];
    }
  }

  /** Within one body: the handler gets a prefix of the units, in order and
      bound to the channel; the run stops exactly at the first unit that does
      not decode, with that unit's exception; what is sent is what the
      handler sent for those messages, in call order. */
  lemma {:induction false} HandleUnitsOrder(units: seq<Json>, decode: Decoder, handler: Handler,
                                            channel: TestJsonRpcChannel)
    ensures var s := HandleUnits(units, decode, handler, channel);
            Delivers(units, s.handled, decode, channel)
    ensures var s := HandleUnits(units, decode, handler, channel);
            s.failure.None? <==> |s.handled| == |units|
    ensures var s := HandleUnits(units, decode, handler, channel);
            s.failure.Some? ==> |s.handled| < |units| && decode(units[|s.handled|]) == Err(s.failure.value)
    ensures var s := HandleUnits(units, decode, handler, channel);
            s.sent == SentBy(s.handled, handler)
  {
    if units != [] {
      var s := HandleUnits(units, decode, handler, channel);
      match decode(units[0])
      case Err(e) =>
      case Ok(m) =>
        var r := HandleUnits(units[1..], decode, handler, channel);
        HandleUnitsOrder(units[1..], decode, handler, channel);
        assert s.handled == [Attach(m, channel)] + r.handled;
        forall i | 0 <= i < |s.handled|
          ensures decode(units[i]).Ok? && s.handled[i] == Attach(decode(units[i]).value, channel)
        {
          if i > 0 {
            assert units[i] == units[1..][i - 1];
            assert s.handled[i] == r.handled[i - 1];
          }
        }
        if s.failure.Some? {
          assert units[|s.handled|] == units[1..][|r.handled|];
        }
        assert s.handled[1..] == r.handled;
    }
  }

  /** A delivered prefix stays one when more units follow. */
  lemma DeliversExtend(first: seq<Json>, later: seq<Json>, handled: seq<Message>, decode: Decoder,
                       channel: TestJsonRpcChannel)
    requires Delivers(first, handled, decode, channel)
    ensures Delivers(first + later, handled, decode, channel)
  {
    forall i | 0 <= i < |handled|
      ensures (first + later)[i] == first[i]
    {
    }
  }

  /** All of one run delivered, then a prefix of the next: a prefix of both. */
  lemma DeliversAppend(first: seq<Json>, later: seq<Json>, h1: seq<Message>, h2: seq<Message>,
                       decode: Decoder, channel: TestJsonRpcChannel)
    requires Delivers(first, h1, decode, channel) && |h1| == |first|
    requires Delivers(later, h2, decode, channel)
    ensures Delivers(first + later, h1 + h2, decode, channel)
  {
    var units, handled := first + later, h1 + h2;
    forall i | 0 <= i < |handled|
      ensures decode(units[i]).Ok? && handled[i] == Attach(decode(units[i]).value, channel)
    {
      if i < |h1| {
        assert units[i] == first[i] && handled[i] == h1[i];
      } else {
        assert units[i] == later[i - |h1|] && handled[i] == h2[i - |h1|];
      }
    }
  }

  /** The whole loop: the handler gets a prefix of all the messages of all
      the bodies, in receive order and bound to the channel; it gets all of
      them exactly when the loop drains, and otherwise the loop stops at the
      first message that does not decode, with that message's exception. */
  lemma {:induction false} RunLoopOrder(bodies: seq<Json>, decode: Decoder, handler: Handler,
                                        channel: TestJsonRpcChannel)
    ensures var t := RunLoop(bodies, decode, handler, channel);
            Delivers(AllUnits(bodies), t.handled, decode, channel)
    ensures var t := RunLoop(bodies, decode, handler, channel);
            t.outcome.Drained? <==> |t.handled| == |AllUnits(bodies)|
    ensures var t := RunLoop(bodies, decode, handler, channel);
            t.outcome.Raised? ==>
              |t.handled| < |AllUnits(bodies)| &&
              decode(AllUnits(bodies)[|t.handled|]) == Err(t.outcome.failure)
  {
    if bodies != [] {
      var units := AllUnits(bodies);
      var first := Units(bodies[0]);
      var later := AllUnits(bodies[1..]);
      assert units == first + later;
      var s := HandleUnits(first, decode, handler, channel);
      HandleUnitsOrder(first, decode, handler, channel);
      var t := RunLoop(bodies, decode, handler, channel);
      if s.failure.Some? {
        DeliversExtend(first, later, s.handled, decode, channel);
        assert units[|t.handled|] == first[|s.handled|];
      } else {
        var r := RunLoop(bodies[1..], decode, handler, channel);
        RunLoopOrder(bodies[1..], decode, handler, channel);
        DeliversAppend(first, later, s.handled, r.handled, decode, channel);
        if t.outcome.Raised? {
          assert units[|t.handled|] == later[|r.handled|];
        }
      }
    }
  }

  /** What the loop leaves unread is a suffix of its input, and nothing
      when it drains. */
  lemma {:induction false} RunLoopRest(bodies: seq<Json>, decode: Decoder, handler: Handler,
                                       channel: TestJsonRpcChannel)
    ensures var t := RunLoop(bodies, decode, handler, channel);
            |t.rest| <= |bodies| && t.rest == bodies[|bodies| - |t.rest|..]
    ensures var t := RunLoop(bodies, decode, handler, channel);
            t.outcome.Drained? ==> t.rest == []
  {
    if bodies != [] {
      var s := HandleUnits(Units(bodies[0]), decode, handler, channel);
      if s.failure.None? {
        var t := RunLoop(bodies, decode, handler, channel);
        var r := RunLoop(bodies[1..], decode, handler, channel);
        RunLoopRest(bodies[1..], decode, handler, channel);
        assert bodies[|bodies| - |t.rest|..] == bodies[1..][|bodies[1..]| - |r.rest|..];
      }
    }
  }

  /** `output` gets exactly what the handler sent, in call order: the loop
      sends nothing of its own. */
  lemma {:induction false} RunLoopSent(bodies: seq<Json>, decode: Decoder, handler: Handler,
                                       channel: TestJsonRpcChannel)
    ensures var t := RunLoop(bodies, decode, handler, channel);
            t.sent == SentBy(t.handled, handler)
  {
    if bodies != [] {
      var s := HandleUnits(Units(bodies[0]), decode, handler, channel);
      HandleUnitsOrder(Units(bodies[0]), decode, handler, channel);
      if s.failure.None? {
        var r := RunLoop(bodies[1..], decode, handler, channel);
        RunLoopSent(bodies[1..], decode, handler, channel);
        SentByAppend(s.handled, r.handled, handler);
      }
    }
  }

  /** Every message the handler is invoked with carries the channel being read. */
  lemma HandledOnChannel(bodies: seq<Json>, decode: Decoder, handler: Handler,
                         channel: TestJsonRpcChannel)
    ensures forall m | m in RunLoop(bodies, decode, handler, channel).handled :: m.channel == Some(channel)
  {
    RunLoopOrder(bodies, decode, handler, channel);
  }

  /** The tests' count: one message per object plus one per array element. */
  lemma {:induction false} CountUnitsIsLength(bodies: seq<Json>)
    ensures CountUnits(bodies) == |AllUnits(bodies)|
  {
    if bodies != [] {
      CountUnitsIsLength(bodies[1..]);
    }
  }

  /** When every message decodes, the loop drains the channel and invokes
      the handler exactly once per message, in order: one per object plus
      the length of each array. */
  lemma AllDecodeDrains(bodies: seq<Json>, decode: Decoder, handler: Handler,
                        channel: TestJsonRpcChannel)
    requires forall u | u in AllUnits(bodies) :: decode(u).Ok?
    ensures var t := RunLoop(bodies, decode, handler, channel);
            t.outcome == Drained && t.rest == [] && |t.handled| == CountUnits(bodies)
    ensures RunLoop(bodies, decode, handler, channel).handled == AttachAll(AllUnits(bodies), decode, channel)
  {
    var units := AllUnits(bodies);
    var t := RunLoop(bodies, decode, handler, channel);
    RunLoopOrder(bodies, decode, handler, channel);
    RunLoopRest(bodies, decode, handler, channel);
    CountUnitsIsLength(bodies);
    AttachAllIndex(units, decode, channel);
  }

  lemma {:induction false} AttachAllIndex(units: seq<Json>, decode: Decoder, channel: TestJsonRpcChannel)
    requires forall u | u in units :: decode(u).Ok?
    ensures forall i :: 0 <= i < |units| ==>
              AttachAll(units, decode, channel)[i] == Attach(decode(units[i]).value, channel)
  {
    if units != [] {
      AttachAllIndex(units[1..], decode, channel);
      forall i | 0 <= i < |units|
        ensures AttachAll(units, decode, channel)[i] == Attach(decode(units[i]).value, channel)
      {
        if i > 0 {
          assert units[i] == units[1..][i - 1];
        }
      }
    }
  }

  /** A body that is neither an object nor an array is skipped: no handler
      call, nothing sent, and the loop goes on with the next body. */
  lemma SkipsOtherValues(body: Json, rest: seq<Json>, decode: Decoder, handler: Handler,
                         channel: TestJsonRpcChannel)
    requires !body.JObject? && !body.JArray?
    ensures RunLoop([body] + rest, decode, handler, channel) == RunLoop(rest, decode, handler, channel)
  {
    var next := RunLoopFirst(body, rest, decode, handler, channel);
    assert [] + next.handled == next.handled;
    assert [] + next.sent == next.sent;
  }

  /** A top-level object that decodes: the handler runs once for it, then
      the loop goes on with the next body. */
  lemma ObjectHandledOnce(body: Json, rest: seq<Json>, decode: Decoder, handler: Handler,
                          channel: TestJsonRpcChannel)
    requires body.JObject? && decode(body).Ok?
    ensures var m := Attach(decode(body).value, channel);
            var t := RunLoop(rest, decode, handler, channel);
            RunLoop([body] + rest, decode, handler, channel)
              == Trace([m] + t.handled, handler(m) + t.sent, t.rest, t.outcome)
  {
    var next := RunLoopFirst(body, rest, decode, handler, channel);
    var m := Attach(decode(body).value, channel);
    assert [body][1..] == [];
    assert HandleUnits([body], decode, handler, channel) == Step([m], handler(m), None);
  }

  /** Handling units that all decode: every one is delivered, in order. */
  lemma {:induction false} HandleAllDecoded(units: seq<Json>, decode: Decoder, handler: Handler,
                                            channel: TestJsonRpcChannel)
    requires forall u | u in units :: decode(u).Ok?
    ensures var handled := AttachAll(units, decode, channel);
            HandleUnits(units, decode, handler, channel) == Step(handled, SentBy(handled, handler), None)
  {
    if units != [] {
      assert forall u | u in units[1..] :: u in units;
      HandleAllDecoded(units[1..], decode, handler, channel);
      var handled := AttachAll(units, decode, channel);
      assert handled[1..] == AttachAll(units[1..], decode, channel);
    }
  }

  /** A top-level array whose elements all decode: the handler runs once per
      element, in array order, then the loop goes on with the next body. */
  lemma ArrayHandledInOrder(items: seq<Json>, rest: seq<Json>, decode: Decoder, handler: Handler,
                            channel: TestJsonRpcChannel)
    requires forall u | u in items :: decode(u).Ok?
    ensures var batch := AttachAll(items, decode, channel);
            var t := RunLoop(rest, decode, handler, channel);
            RunLoop([JArray(items)] + rest, decode, handler, channel)
              == Trace(batch + t.handled, SentBy(batch, handler) + t.sent, t.rest, t.outcome)
  {
    var next := RunLoopFirst(JArray(items), rest, decode, handler, channel);
    HandleAllDecoded(items, decode, handler, channel);
  }

  /** The loop sends nothing of its own: with a handler that sends nothing,
      nothing is sent. */
  lemma SilentHandlerSendsNothing(bodies: seq<Json>, decode: Decoder, handler: Handler,
                                  channel: TestJsonRpcChannel)
    requires forall m :: handler(m) == []
    ensures RunLoop(bodies, decode, handler, channel).sent == []
  {
    RunLoopSent(bodies, decode, handler, channel);
    SentBySilent(RunLoop(bodies, decode, handler, channel).handled, handler);
  }

  /** The tests' set-up: a fresh channel whose input is `bodies`, drained by
      a handler that only counts its calls. Every message decodes, so the
      count is one per object plus one per array element, the input is
      drained and nothing is sent. */
  method CountCalls(bodies: seq<Json>, decode: Decoder) returns (called: nat, output: seq<Json>, input: seq<Json>)
    requires forall u | u in AllUnits(bodies) :: decode(u).Ok?
    ensures called == CountUnits(bodies)
    ensures output == [] && input == []
  {
    var channel := new TestJsonRpcChannel();
    channel.input := channel.input + bodies;
    assert channel.input == bodies;
    var silent: Handler := m => [];
    var handled, outcome, trace := JsonRpc(channel, decode, silent);
    AllDecodeDrains(bodies, decode, silent, channel);
    SilentHandlerSendsNothing(bodies, decode, silent, channel);
    called := |handled|;
    output := channel.output;
    input := channel.input;
  }

  /** The tests' set-up for sending: one request on the input and a
      handler that sends two values for it (two notifications, say);
      `output` then holds exactly those two, in the order they were sent. */
  method SendsInCallOrder(request: Json, decode: Decoder, first: Json, second: Json)
    returns (called: nat, output: seq<Json>)
    requires request.JObject? && decode(request).Ok?
    ensures called == 1 && output == [first, second]
  {
    var channel := new TestJsonRpcChannel();
    channel.input := channel.input + [request];
    assert channel.input == [request] + [];
    var sender: Handler := m => [first, second];
    var handled, outcome, trace := JsonRpc(channel, decode, sender);
    ObjectHandledOnce(request, [], decode, sender, channel);
    called := |handled|;
    output := channel.output;
  }
}
