/** The chat as its driver keeps it: a state and a data map, moved in place by one message after another. */
module SlotChat {
  import opened SlotMachine
  import opened SlotRuns

  class Chat {
    var state: State
    var data: Data

    constructor ()
      ensures state == NEW && data == map[]
    {
      state, data := NEW, map[];
    }

    method Bank(patch: Data)
      modifies this`data
      ensures data == old(data) + patch
    {
      ghost var start := data;
      var left := patch.Keys;
      while left != {}
        invariant left <= patch.Keys
        invariant data == start + (patch - left)
        decreases |left|
      {
        var k :| k in left;
        data := data[k := patch[k]];
        left := left - {k};
      }
      assert patch - {} == patch;
    }

    method Take(t: Turn) returns (reply: Reply)
      modifies this
      ensures state == t.outcome.next && data == Apply(old(data), t) && reply == t.outcome.reply
    {
      if t.wiped {
        data := map[];
      }
      Bank(t.outcome.patch);
      state := t.outcome.next;
      reply := t.outcome.reply;
    }

    /** One message: the chat moves by Next. What the driver can rely on: the state is a valid one and, if it waits
        for a slot, the first missing; only DONE loses an answer; and moving from slot to slot fills one. */
    method Receive(p: Parsers, body: string) returns (reply: Reply)
      modifies this
      ensures
        var t := Next(p, old(state), body, old(data));
        state == t.outcome.next && data == Apply(old(data), t) && reply == t.outcome.reply
      ensures Sound(p) && old(Kept(state, data)) ==> Kept(state, data) && !state.Unknown?
      ensures Sound(p) && old(Kept(state, data)) && old(state) != DONE ==> Grows(old(data), data)
      ensures Sound(p) && old(Kept(state, data)) && Moves(old(state), state) ==> MissingSlots(data) < MissingSlots(old(data))
    {
      ghost var before, known := state, data;
      var t := Next(p, state, body, data);
      reply := Take(t);
      if Sound(p) && Kept(before, known) {
        NextIsGood(p, before, body, known);
        StepGrows(p, before, body, known);
        MoveFillsASlot(p, before, body, known);
      }
    }
  }

  /** A chat driven message by message ends where the functional run ends, in a valid state. */
  method Drive(p: Parsers, bodies: seq<string>) returns (chat: Chat)
    ensures (chat.state, chat.data) == Feed(p, NEW, map[], bodies)
    ensures Sound(p) ==> Kept(chat.state, chat.data) && !chat.state.Unknown?
  {
    chat := new Chat();
    var i := 0;
    while i < |bodies|
      invariant 0 <= i <= |bodies|
      invariant Feed(p, chat.state, chat.data, bodies[i..]) == Feed(p, NEW, map[], bodies)
      invariant Sound(p) ==> Kept(chat.state, chat.data) && !chat.state.Unknown?
    {
      assert bodies[i..][1..] == bodies[i + 1..];
      var _ := chat.Receive(p, bodies[i]);
      i := i + 1;
    }
  }
}
