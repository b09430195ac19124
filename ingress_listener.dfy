/** The listener registered on an ingress transport: it feeds the egress queue. */
module IngressListener {
  import opened UProtocol
  import opened Transports

  /** Shared-memory payloads are pointers that mean nothing on another device. */
  predicate IsSharedMemory(msg: UMessage)
    ensures msg.payloadFormat.Unknown? ==> !IsSharedMemory(msg)
  {
    EnumValueOrDefault(msg.payloadFormat) == UPAYLOAD_FORMAT_SHM
  }

  /** Only a message that names the SHM format is dropped; an unknown format number is forwarded. */
  lemma SharedMemoryExactly(msg: UMessage)
    ensures IsSharedMemory(msg) <==> msg.payloadFormat == Known(UPAYLOAD_FORMAT_SHM)
  {
  }

  class ForwardingListener {
    const forwardingId: string
    const sender: Channel

    constructor (forwardingId: string, sender: Channel)
      ensures this.forwardingId == forwardingId && this.sender == sender
    {
      this.forwardingId := forwardingId;
      this.sender := sender;
    }

    /**
     * `on_receive`: drop shared-memory messages, enqueue every other message
     * once and unchanged. A failed enqueue is only logged, so the call has no
     * error result.
     */
    method OnReceive(msg: UMessage)
      modifies sender`queue
      ensures IsSharedMemory(msg) ==> sender.queue == old(sender.queue)
      ensures !IsSharedMemory(msg) ==>
                sender.queue == if sender.hasReceiver then old(sender.queue) + [msg] else old(sender.queue)
    {
      if EnumValueOrDefault(msg.payloadFormat) == UPAYLOAD_FORMAT_SHM {
        return;
      }
      var _ := sender.Send(msg);
    }
  }
}
