/**
 * The egress pool: one egress worker and its queue per out transport, shared
 * by every rule that uses that transport and kept alive by an active count.
 */
module EgressPool {
  import opened Transports
  import opened RefCount

  /** The `(active, TransportForwarder, Sender)` value of a pool entry; the worker is not modelled here. */
  datatype PoolEntry = PoolEntry(active: nat, sender: Channel)

  /** The pool after an insert that hands out `sender`: one more use of `t`'s entry. */
  function Inserted(m: map<Transport, PoolEntry>, t: Transport, sender: Channel): map<Transport, PoolEntry>
  {
    m[t := PoolEntry((if t in m then m[t].active else 0) + 1, sender)]
  }

  /** The pool after a remove: one use fewer, the entry dropped at zero. */
  function Removed(m: map<Transport, PoolEntry>, t: Transport): map<Transport, PoolEntry>
    requires t in m ==> m[t].active >= 1
  {
    if t !in m then m
    else if m[t].active - 1 == 0 then m - {t}
    else m[t := m[t].(active := m[t].active - 1)]
  }

  /**
   * An insert that reuses the transport's queue (or opens one for a new
   * transport) followed by a remove gives back the pool as it was: same
   * transports, same counts, same queues.
   */
  lemma RemovedInserted(m: map<Transport, PoolEntry>, t: Transport, sender: Channel)
    requires t in m ==> m[t].active >= 1 && sender == m[t].sender
    ensures Removed(Inserted(m, t, sender), t) == m
  {
    var m1 := Inserted(m, t, sender);
    if t in m {
      assert m1[t := m1[t].(active := m1[t].active - 1)] == m[t := m[t]];
    } else {
      assert m1 - {t} == m;
    }
  }

  class TransportForwarders {
    const messageQueueSize: nat
    /** Keyed by transport identity, as `ComparableTransport` keys it. */
    var forwarders: map<Transport, PoolEntry>

    /** No entry lingers with a zero count. */
    ghost predicate Valid()
      reads this
    {
      forall t :: t in forwarders ==> forwarders[t].active >= 1
    }

    /** The active count of every pooled transport. */
    ghost function Counts(): (c: map<Transport, nat>)
      reads this
      ensures c.Keys == forwarders.Keys
      ensures Valid() ==> Positive(c)
    {
      map t | t in forwarders :: forwarders[t].active
    }

    constructor (messageQueueSize: nat)
      ensures this.messageQueueSize == messageQueueSize && forwarders == map[]
      ensures Valid()
    {
      this.messageQueueSize := messageQueueSize;
      forwarders := map[];
    }

    /**
     * `insert`: reuse the transport's queue if it has one, else open a new
     * queue of `messageQueueSize` (starting its worker); in both cases count
     * one more user and hand back the queue's sender.
     */
    method Insert(outTransport: Transport) returns (sender: Channel)
      requires Valid()
      modifies this`forwarders
      ensures Valid()
      ensures outTransport in old(forwarders) ==> sender == old(forwarders)[outTransport].sender
      ensures outTransport !in old(forwarders) ==>
                fresh(sender) && sender.capacity == messageQueueSize && sender.hasReceiver && sender.queue == []
      ensures forwarders == Inserted(old(forwarders), outTransport, sender)
      ensures Counts() == Acquire(old(Counts()), outTransport)
    {
      var entry: PoolEntry;
      if outTransport in forwarders {
        entry := forwarders[outTransport];
      } else {
        var channel := new Channel(messageQueueSize);
        entry := PoolEntry(0, channel);
      }
      entry := entry.(active := entry.active + 1);
      forwarders := forwarders[outTransport := entry];
      sender := entry.sender;
    }

    /**
     * `remove`: an unknown transport is left alone; otherwise count one user
     * fewer and drop the entry (and with it the queue) at zero.
     */
    method Remove(outTransport: Transport)
      requires Valid()
      modifies this`forwarders
      ensures Valid()
      ensures outTransport !in old(forwarders) ==> forwarders == old(forwarders)
      ensures outTransport in old(forwarders) && old(forwarders)[outTransport].active == 1 ==>
                forwarders == old(forwarders) - {outTransport}
      ensures outTransport in old(forwarders) && old(forwarders)[outTransport].active > 1 ==>
                forwarders == old(forwarders)[outTransport := old(forwarders)[outTransport].(
                  active := old(forwarders)[outTransport].active - 1)]
      ensures forwarders == Removed(old(forwarders), outTransport)
      ensures Counts() == Release(old(Counts()), outTransport)
    {
      if outTransport !in forwarders {
        return;
      }
      var entry := forwarders[outTransport];
      var activeNum := entry.active - 1;
      if activeNum == 0 {
        forwarders := forwarders - {outTransport};
      } else {
        forwarders := forwarders[outTransport := entry.(active := activeNum)];
      }
    }
  }
}
