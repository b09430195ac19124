/**
 * The collaborators the streamer drives but does not implement: an attached
 * transport (`dyn UTransport`) and the broadcast channel that feeds an
 * egress worker. Their behaviour is given by oracles fixed per object.
 */
module Transports {
  import opened Wrappers
  import opened UProtocol

  /** The (source filter, sink filter) arguments of `register_listener`. */
  datatype FilterPair = FilterPair(source: Uri, sink: Option<Uri>)

  /** One registration: a filter pair and the listener (`Arc<dyn UListener>`) it delivers to. */
  datatype Registration = Registration(filters: FilterPair, listener: object)

  /** The registrations of `pairs` for one listener, in order. */
  function Registrations(pairs: seq<FilterPair>, listener: object): (rs: seq<Registration>)
    ensures |rs| == |pairs|
  {
    if pairs == [] then [] else [Registration(pairs[0], listener)] + Registrations(pairs[1..], listener)
  }

  /** The i-th registration is that of the i-th pair. */
  lemma {:induction false} RegistrationsIndex(pairs: seq<FilterPair>, listener: object)
    ensures forall i :: 0 <= i < |pairs| ==> Registrations(pairs, listener)[i] == Registration(pairs[i], listener)
  {
    if pairs != [] {
      RegistrationsIndex(pairs[1..], listener);
    }
  }

  /** Registering a concatenation registers each part in turn. */
  lemma RegistrationsAppend(a: seq<FilterPair>, b: seq<FilterPair>, listener: object)
    ensures Registrations(a + b, listener) == Registrations(a, listener) + Registrations(b, listener)
  {
    var lhs := Registrations(a + b, listener);
    var rhs := Registrations(a, listener) + Registrations(b, listener);
    RegistrationsIndex(a + b, listener);
    RegistrationsIndex(a, listener);
    RegistrationsIndex(b, listener);
    assert |lhs| == |rhs|;
    forall i | 0 <= i < |lhs|
      ensures lhs[i] == rhs[i]
    {
      if i < |a| {
        assert (a + b)[i] == a[i];
      } else {
        assert (a + b)[i] == b[i - |a|];
      }
    }
  }

  /** One `register_listener` or `unregister_listener` call and whether the transport accepted it. */
  datatype ListenerCall = Register(reg: Registration, ok: bool) | Unregister(reg: Registration, ok: bool)

  /** The registrations in force after `calls`, starting from `m`. */
  function Replay(m: multiset<Registration>, calls: seq<ListenerCall>): multiset<Registration>
  {
    if calls == [] then m
    else
      var last := calls[|calls| - 1];
      var before := Replay(m, calls[..|calls| - 1]);
      if !last.ok then before
      else if last.Register? then before + multiset{last.reg}
      else before - multiset{last.reg}
  }

  /** Replaying two batches of calls is replaying the second after the first. */
  lemma {:induction false} ReplayAppend(m: multiset<Registration>, a: seq<ListenerCall>, b: seq<ListenerCall>)
    ensures Replay(m, a + b) == Replay(Replay(m, a), b)
  {
    if b == [] {
      assert a + b == a;
    } else {
      assert (a + b)[..|a + b| - 1] == a + b[..|b| - 1];
      ReplayAppend(m, a, b[..|b| - 1]);
    }
  }

  /**
   * An attached transport. Two transports are the same exactly when they are
   * the same object, as `Arc::ptr_eq` decides in the source. What it accepts
   * is fixed when it is created; what is asked of it is logged.
   */
  class Transport {
    /** Filter pairs whose `register_listener` call fails. */
    const rejectsRegister: set<FilterPair>
    /** Filter pairs whose `unregister_listener` call fails. */
    const rejectsUnregister: set<FilterPair>
    /** Messages whose `send` fails. */
    const rejectsSend: set<UMessage>

    /** Every listener call made, with its outcome. */
    ghost var listenerCalls: seq<ListenerCall>
    /** Every message passed to `send`, successful or not. */
    ghost var sendCalls: seq<UMessage>
    /** The messages `send` accepted. */
    ghost var delivered: seq<UMessage>

    /** The registrations in force. */
    ghost function Registered(): multiset<Registration>
      reads this
    {
      Replay(multiset{}, listenerCalls)
    }

    constructor (rejectsRegister: set<FilterPair>, rejectsUnregister: set<FilterPair>, rejectsSend: set<UMessage>)
      ensures this.rejectsRegister == rejectsRegister && this.rejectsUnregister == rejectsUnregister
      ensures this.rejectsSend == rejectsSend
      ensures listenerCalls == [] && sendCalls == [] && delivered == []
    {
      this.rejectsRegister := rejectsRegister;
      this.rejectsUnregister := rejectsUnregister;
      this.rejectsSend := rejectsSend;
      listenerCalls := [];
      sendCalls := [];
      delivered := [];
    }

    method RegisterListener(filters: FilterPair, listener: object) returns (ok: bool)
      modifies this`listenerCalls
      ensures ok <==> filters !in rejectsRegister
      ensures listenerCalls == old(listenerCalls) + [Register(Registration(filters, listener), ok)]
    {
      ok := filters !in rejectsRegister;
      listenerCalls := listenerCalls + [Register(Registration(filters, listener), ok)];
    }

    method UnregisterListener(filters: FilterPair, listener: object) returns (ok: bool)
      modifies this`listenerCalls
      ensures ok <==> filters !in rejectsUnregister
      ensures listenerCalls == old(listenerCalls) + [Unregister(Registration(filters, listener), ok)]
    {
      ok := filters !in rejectsUnregister;
      listenerCalls := listenerCalls + [Unregister(Registration(filters, listener), ok)];
    }

    method Send(msg: UMessage) returns (ok: bool)
      modifies this`sendCalls, this`delivered
      ensures ok <==> msg !in rejectsSend
      ensures sendCalls == old(sendCalls) + [msg]
      ensures delivered == if ok then old(delivered) + [msg] else old(delivered)
    {
      ok := msg !in rejectsSend;
      sendCalls := sendCalls + [msg];
      if ok {
        delivered := delivered + [msg];
      }
    }
  }

  /**
   * A `tokio::sync::broadcast` channel as seen by its sender: the messages
   * queued for the egress worker. A send fails when no receiver is left.
   * Capacity and lagging receivers are not modelled.
   */
  class Channel {
    const capacity: nat
    var hasReceiver: bool
    var queue: seq<UMessage>

    constructor (capacity: nat)
      ensures this.capacity == capacity && hasReceiver && queue == []
    {
      this.capacity := capacity;
      hasReceiver := true;
      queue := [];
    }

    method Send(msg: UMessage) returns (ok: bool)
      modifies this`queue
      ensures ok <==> hasReceiver
      ensures queue == if ok then old(queue) + [msg] else old(queue)
    {
      ok := hasReceiver;
      if ok {
        queue := queue + [msg];
      }
    }
  }
}
