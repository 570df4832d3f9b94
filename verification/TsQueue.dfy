/**
 The bounded queue between threads. Every method body runs under the queue's lock, so each is one
 atomic step; a blocking call is made when what it waits for holds.
 */
module TsQueue {
  import opened Types
  import opened MtStreams
  import opened MtPipeline

  class PacketQueue {
    const maxSize: nat
    var items: seq<Packet>
    var shut: bool
    /** All packets that went in, and all that came out. */
    ghost var accepted: seq<Packet>
    ghost var taken: seq<Packet>

    /** First in, first out, nothing lost and nothing twice; never more than fit. */
    ghost predicate Valid()
      reads this
    {
      |items| <= maxSize && accepted == taken + items
    }

    function View(): Queue
      reads this
    {
      Queue(items, shut)
    }

    constructor (maxSize: nat)
      ensures Valid() && this.maxSize == maxSize && View() == EMPTY_QUEUE && accepted == []
    {
      this.maxSize, items, shut, accepted, taken := maxSize, [], false, [], [];
    }

    /** Waits for room or for the shutdown; after a shutdown the packet is let go. */
    method Push(p: Packet)
      requires Valid() && View().PushReturns(maxSize)
      modifies this`items, this`accepted
      ensures Valid() && View() == old(View()).Push(p)
      ensures accepted == old(accepted) + if shut then [] else [p]
    {
      if shut {
        return;
      }
      items := items + [p];
      accepted := accepted + [p];
    }

    method TryPush(p: Packet) returns (ok: bool)
      requires Valid()
      modifies this`items, this`accepted
      ensures Valid() && ok == (|old(items)| < maxSize && !shut)
      ensures View() == (if ok then old(View()).Push(p) else old(View()))
      ensures accepted == old(accepted) + if ok then [p] else []
    {
      ok := |items| < maxSize && !shut;
      if ok {
        items := items + [p];
        accepted := accepted + [p];
      }
    }

    /** Waits for a packet or for the shutdown; what is left after a shutdown can still be taken. */
    method Pop() returns (r: Option<Packet>)
      requires Valid() && (items != [] || shut)
      modifies this`items, this`taken
      ensures Valid() && r == (if old(items) == [] then None else Some(old(items)[0]))
      ensures View() == (if old(items) == [] then old(View()) else old(View()).Pop())
      ensures taken == old(taken) + if r.Some? then [r.value] else []
    {
      r := PopWithTimeout();
    }

    /** Waits no longer than the timeout, so it can be called, and return nothing, at any time. */
    method PopWithTimeout() returns (r: Option<Packet>)
      requires Valid()
      modifies this`items, this`taken
      ensures Valid() && r == (if old(items) == [] then None else Some(old(items)[0]))
      ensures View() == (if old(items) == [] then old(View()) else old(View()).Pop())
      ensures taken == old(taken) + if r.Some? then [r.value] else []
    {
      if items == [] {
        return None;
      }
      assert items == [items[0]] + items[1..];
      r := Some(items[0]);
      taken := taken + [items[0]];
      items := items[1..];
    }

    method Shutdown()
      requires Valid()
      modifies this`shut
      ensures Valid() && View() == old(View()).(shut := true)
    {
      shut := true;
    }
  }
}
