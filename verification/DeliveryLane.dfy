/**
 The lane as the object the source has. Each critical section is a method proved to act as the lane function that the
 transition system in Delivery.dfy uses; `Deliver` is a worker's whole loop when nothing is enqueued meanwhile.
 */
module DeliveryLanes {
  import opened Wrappers
  import opened Domain
  import opened Delivery
  import opened DeliverySafety

  class DeliveryLane {
    var slots: nat
    var pending: seq<Batch>
    var running: bool
    ghost var sent: seq<Batch>
    ghost var finished: seq<Batch>
    ghost var attempts: seq<Event>

    ghost function State(): Lane
      reads this
    {
      Lane(slots, pending, running, sent, finished, attempts)
    }

    constructor ()
      ensures State() == IdleLane
    {
      slots, pending, running := 0, [], false;
      sent, finished, attempts := [], [], [];
    }

    /** A send on the slot channel, without blocking: it fails when all slots are occupied. */
    method TakeSlot() returns (ok: bool)
      modifies this
      ensures ok == (old(slots) < Capacity)
      ensures State() == if ok then old(State()).TakeSlot() else old(State())
    {
      ok := slots < Capacity;
      if ok {
        slots := slots + 1;
      }
    }

    method ReturnSlot()
      requires slots > 0
      modifies this
      ensures State() == old(State()).ReturnSlot()
    {
      slots := slots - 1;
    }

    method Enqueue(batch: Batch)
      modifies this
      ensures State() == old(State()).Enqueue(batch)
    {
      pending := pending + [batch];
      sent := sent + [batch];
    }

    /** Marks the lane running; the caller starts a worker if it was not. */
    method Start() returns (spawn: bool)
      modifies this
      ensures spawn == !old(running)
      ensures State() == old(State()).(running := true)
    {
      spawn := !running;
      running := true;
    }

    /** The next batch, or none, in which case the lane is no longer marked running. */
    method Pop() returns (batch: Option<Batch>)
      modifies this
      ensures if old(pending) == [] then batch == None && State() == old(State()).(running := false)
              else batch == Some(old(pending)[0]) && State() == old(State()).Pop()
    {
      if pending == [] {
        running := false;
        return None;
      }
      batch := Some(pending[0]);
      pending := pending[1..];
    }

    /** Attempts every event of a batch in order; the publisher is only asked once per event, whatever it answers. */
    method PublishAll(batch: Batch)
      modifies this`attempts
      ensures attempts == old(attempts) + batch.events
    {
      for i := 0 to |batch.events|
        invariant attempts == old(attempts) + batch.events[..i]
      {
        assert batch.events[..i + 1] == batch.events[..i] + [batch.events[i]];
        attempts := attempts + [batch.events[i]];
      }
      assert batch.events[..|batch.events|] == batch.events;
    }

    /** The worker's loop: the queued batches in order, each attempted in full, finished, and its slot handed back. */
    method Deliver()
      requires slots >= |pending|
      modifies this
      ensures pending == [] && !running && sent == old(sent)
      ensures finished == old(finished) + old(pending)
      ensures attempts == old(attempts) + Flatten(old(pending))
      ensures slots == old(slots) - |old(pending)|
    {
      ghost var batches := pending;
      ghost var n := 0;
      while true
        invariant n <= |batches| && pending == batches[n..] && sent == old(sent)
        invariant finished == old(finished) + batches[..n]
        invariant attempts == old(attempts) + Flatten(batches[..n])
        invariant slots == old(slots) - n
        decreases |pending|
      {
        var next := Pop();
        if next.None? {
          assert batches[..n] == batches;
          return;
        }
        PublishAll(next.value);
        finished := finished + [next.value];
        ReturnSlot();
        FlattenOne(batches[..n], batches[n]);
        assert batches[..n + 1] == batches[..n] + [batches[n]];
        n := n + 1;
      }
    }
  }
}
