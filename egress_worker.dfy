/** The egress worker: drains its queue and sends every message on the out transport. */
module EgressWorker {
  import opened UProtocol
  import opened Transports

  /** What `broadcast::Receiver::recv` can fail with. */
  datatype RecvError = Closed | Lagged(skipped: nat)

  /** One result of `recv`, in the order the worker observes them. */
  datatype RecvResult = Received(msg: UMessage) | RecvFailed(error: RecvError)

  /** The messages received before the first receive error. */
  function ReceivedPrefix(results: seq<RecvResult>): (msgs: seq<UMessage>)
    ensures |msgs| <= |results|
    ensures |msgs| < |results| ==> results[|msgs|].RecvFailed?
  {
    if results == [] || results[0].RecvFailed? then []
    else [results[0].msg] + ReceivedPrefix(results[1..])
  }

  /** The handled messages are exactly the payloads of the leading `Received` results, in order. */
  lemma {:induction false} ReceivedPrefixReceived(results: seq<RecvResult>)
    ensures forall i :: 0 <= i < |ReceivedPrefix(results)| ==> results[i] == Received(ReceivedPrefix(results)[i])
  {
    if results != [] && results[0].Received? {
      ReceivedPrefixReceived(results[1..]);
    }
  }

  /** The messages of `msgs` a transport rejecting `rejected` accepts, in order. */
  function Accepted(msgs: seq<UMessage>, rejected: set<UMessage>): seq<UMessage>
  {
    if msgs == [] then []
    else (if msgs[0] in rejected then [] else [msgs[0]]) + Accepted(msgs[1..], rejected)
  }

  /** A rejected send loses only its own message: every later accepted message is still delivered. */
  lemma {:induction false} AcceptedKeepsLater(msgs: seq<UMessage>, rejected: set<UMessage>, i: nat)
    requires i < |msgs| && msgs[i] !in rejected
    ensures msgs[i] in Accepted(msgs, rejected)
  {
    if i > 0 {
      AcceptedKeepsLater(msgs[1..], rejected, i - 1);
    }
  }

  lemma {:induction false} AcceptedAppend(a: seq<UMessage>, b: seq<UMessage>, rejected: set<UMessage>)
    ensures Accepted(a + b, rejected) == Accepted(a, rejected) + Accepted(b, rejected)
  {
    if a == [] {
      assert a + b == b;
    } else {
      assert (a + b)[1..] == a[1..] + b;
      AcceptedAppend(a[1..], b, rejected);
    }
  }

  lemma {:induction false} ReceivedPrefixStops(results: seq<RecvResult>, i: nat)
    requires i <= |results|
    requires forall j :: 0 <= j < i ==> results[j].Received?
    requires i == |results| || results[i].RecvFailed?
    ensures ReceivedPrefix(results) == ReceivedPrefix(results[..i])
  {
    if i == |results| {
      assert results[..i] == results;
    } else if i > 0 {
      assert results[..i][1..] == results[1..][..i - 1];
      ReceivedPrefixStops(results[1..], i - 1);
    }
  }

  lemma {:induction false} ReceivedPrefixStep(results: seq<RecvResult>, i: nat)
    requires i < |results|
    requires forall j :: 0 <= j <= i ==> results[j].Received?
    ensures ReceivedPrefix(results[..i + 1]) == ReceivedPrefix(results[..i]) + [results[i].msg]
  {
    if i > 0 {
      assert results[..i + 1][1..] == results[1..][..i];
      assert results[..i][1..] == results[1..][..i - 1];
      ReceivedPrefixStep(results[1..], i - 1);
    }
  }

  /** One turn of the forwarding loop: the handled prefix grows by the received message. */
  lemma ForwardingStep(incoming: seq<RecvResult>, i: nat, done: seq<UMessage>, rejected: set<UMessage>)
    requires i < |incoming| && incoming[i].Received?
    requires forall j :: 0 <= j < i ==> incoming[j].Received?
    requires done == ReceivedPrefix(incoming[..i])
    ensures done + [incoming[i].msg] == ReceivedPrefix(incoming[..i + 1])
    ensures Accepted(done + [incoming[i].msg], rejected)
            == Accepted(done, rejected) + if incoming[i].msg in rejected then [] else [incoming[i].msg]
  {
    var msg := incoming[i].msg;
    ReceivedPrefixStep(incoming, i);
    AcceptedAppend(done, [msg], rejected);
    assert [msg][1..] == [];
  }

  /**
   * `message_forwarding_loop`: send each received message, in order, once;
   * a failed send is only logged and the loop goes on; the loop ends at the
   * first receive error.
   */
  method MessageForwardingLoop(id: string, outTransport: Transport, incoming: seq<RecvResult>)
    returns (handled: nat)
    modifies outTransport`sendCalls, outTransport`delivered
    ensures handled == |ReceivedPrefix(incoming)|
    ensures outTransport.sendCalls == old(outTransport.sendCalls) + ReceivedPrefix(incoming)
    ensures outTransport.delivered == old(outTransport.delivered)
                                      + Accepted(ReceivedPrefix(incoming), outTransport.rejectsSend)
  {
    ghost var sent0 := outTransport.sendCalls;
    ghost var delivered0 := outTransport.delivered;
    ghost var rejected := outTransport.rejectsSend;
    ghost var done: seq<UMessage> := [];
    handled := 0;
    assert incoming[..0] == [];
    while handled < |incoming| && incoming[handled].Received?
      invariant handled <= |incoming|
      invariant forall j :: 0 <= j < handled ==> incoming[j].Received?
      invariant done == ReceivedPrefix(incoming[..handled])
      invariant outTransport.sendCalls == sent0 + done
      invariant outTransport.delivered == delivered0 + Accepted(done, rejected)
    {
      var msg := incoming[handled].msg;
      var _ := outTransport.Send(msg);
      ForwardingStep(incoming, handled, done, rejected);
      done := done + [msg];
      handled := handled + 1;
    }
    assert done == ReceivedPrefix(incoming) by {
      ReceivedPrefixStops(incoming, handled);
    }
  }
}
