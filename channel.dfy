/** `TestJsonRpcChannel`: the in-memory channel the tests drive the
    dispatch loop with. `input` is consumed from the front by `Receive`,
    `output` grows at the back with every `Send`. */
module Channels {

  import opened Wrappers
  import opened JsonValues

  class TestJsonRpcChannel {
    var input: seq<Json>
    var output: seq<Json>

    constructor ()
      ensures input == [] && output == []
    {
      input := [];
      output := [];
    }

    /** `send(message)`: appends to `output`, leaves `input` alone. */
    method Send(message: Json)
      modifies this`output
      ensures output == old(output) + [message]
      ensures input == old(input)
    {
      output := output + [message];
    }

    /** `receive()`: removes and returns the first pending value, or null
        with nothing changed when none is pending. */
    method Receive() returns (body: Option<Json>)
      modifies this`input
      ensures old(input) == [] ==> body == None && input == []
      ensures old(input) != [] ==> body == Some(old(input)[0]) && input == old(input)[1..]
      ensures output == old(output)
    {
      if input == [] {
        body := None;
      } else {
        body := Some(input[0]);
        input := input[1..];
      }
    }

    /** `close()`: does nothing to either list. */
    method Close()
      ensures input == old(input) && output == old(output)
    {
    }
  }

  /** Values come out of `Receive` in the order they were put on `input`,
      and `output` keeps the order of the `Send` calls. */
  method FifoOrder(channel: TestJsonRpcChannel, added: seq<Json>) returns (got: seq<Json>, last: Option<Json>)
    modifies channel
    ensures got == old(channel.input) + added && last == None
    ensures channel.input == [] && channel.output == old(channel.output) + got
  {
    channel.input := channel.input + added;
    ghost var pending := channel.input;
    var n := |channel.input|;
    got := [];
    var i := 0;
    while i < n
      invariant 0 <= i <= n == |pending|
      invariant got == pending[..i] && channel.input == pending[i..]
      invariant channel.output == old(channel.output) + got
    {
      var body := channel.Receive();
      got := got + [body.value];
      channel.Send(body.value);
      i := i + 1;
    }
    assert got == pending;
    last := channel.Receive();
  }
}
