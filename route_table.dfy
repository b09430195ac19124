/** Endpoints and the identity tuple of a forwarding rule. */
module RouteTable {
  import opened Transports

  /** An endpoint: a name used only in logs, an authority and a transport. */
  datatype Endpoint = Endpoint(name: string, authority: string, transport: Transport)

  /** `(in authority, out authority, in transport identity, out transport identity)`. */
  datatype ForwardingRule = ForwardingRule(inAuthority: string, outAuthority: string,
                                           inTransport: Transport, outTransport: Transport)

  function BuildForwardingRule(inbound: Endpoint, outbound: Endpoint): ForwardingRule
  {
    ForwardingRule(inbound.authority, outbound.authority, inbound.transport, outbound.transport)
  }

  /**
   * Two rules are equal exactly when both authorities and both transport
   * identities agree: endpoint names never matter, another transport
   * object always does.
   */
  lemma BuildForwardingRuleIdentity(in1: Endpoint, out1: Endpoint, in2: Endpoint, out2: Endpoint)
    ensures BuildForwardingRule(in1, out1) == BuildForwardingRule(in2, out2)
            <==> in1.authority == in2.authority && out1.authority == out2.authority
                 && in1.transport == in2.transport && out1.transport == out2.transport
  {
  }

  /** The rule is directed: swapping the endpoints of a rule gives another rule. */
  lemma BuildForwardingRuleDirected(inbound: Endpoint, outbound: Endpoint)
    requires inbound.authority != outbound.authority
    ensures BuildForwardingRule(inbound, outbound) != BuildForwardingRule(outbound, inbound)
  {
  }
}
