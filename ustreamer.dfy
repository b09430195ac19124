/**
 * The streamer: the registered forwarding rules together with the egress
 * pool and the ingress registry they keep alive. Adding a rule acquires one
 * use of the out transport's queue and one use of the route's listener;
 * deleting it releases both.
 */
module Streamer {
  import opened Wrappers
  import opened UProtocol
  import opened Transports
  import opened RefCount
  import opened RouteTable
  import opened RouteLifecycle
  import opened EgressPool
  import opened PublishResolution
  import opened IngressRegistry

  /** The subscriber URI the streamer fetches its subscriptions for: every authority, every entity. */
  function StreamerSubscriberUri(): (u: Uri)
    ensures u.authorityName == "*" && u.ueId == 0x0000_FFFF
    ensures u.ueVersionMajor == 0xFF && u.resourceId == 0xFFFF
  {
    Uri("*", 0x0000_FFFF, 0xFF, 0xFFFF)
  }

  /** The `{:?}` rendering of an authority name; escaping of quotes inside it is not modelled. */
  function DebugString(s: string): (d: string)
    ensures |d| == |s| + 2 && d[0] == '"' && d[|d| - 1] == '"' && d[1..|d| - 1] == s
  {
    "\"" + s + "\""
  }

  /** The forwarding id logged for a rule and handed to its listener. */
  function ForwardingId(inbound: Endpoint, outbound: Endpoint): (id: string)
    ensures |id| > 0 && id[0] == '[' && id[|id| - 1] == ']'
  {
    "[in.name: " + inbound.name + ", in.authority: " + DebugString(inbound.authority)
      + " ; out.name: " + outbound.name + ", out.authority: " + DebugString(outbound.authority) + "]"
  }

  /** The pool key of a rule: its out transport. */
  function OutTransportOf(rule: ForwardingRule): (t: Transport)
    ensures t == rule.outTransport
  {
    rule.outTransport
  }

  /** The registry key of a rule: its in transport and both authorities. */
  function ListenerKeyOf(rule: ForwardingRule): (k: ListenerKey)
    ensures k.inTransport == rule.inTransport
    ensures k.inAuthority == rule.inAuthority && k.outAuthority == rule.outAuthority
  {
    ListenerKey(rule.inTransport, rule.inAuthority, rule.outAuthority)
  }

  /**
   * Two rules share a listener exactly when they share the in transport and
   * both authorities: the out transport is not part of the key, so a rule
   * differing only in its out transport reuses the existing listener.
   */
  lemma ListenerKeyIgnoresOutTransport(a: ForwardingRule, b: ForwardingRule)
    ensures ListenerKeyOf(a) == ListenerKeyOf(b)
            <==> a.inTransport == b.inTransport && a.inAuthority == b.inAuthority && a.outAuthority == b.outAuthority
  {
  }

  class UStreamer {
    const name: string
    const rules: ForwardingRules
    const forwarders: TransportForwarders
    const listeners: ForwardingListeners
    /** The subscription cache built at start-up; nothing in the streamer changes it. */
    const directory: SubscriptionDirectory
    const valid: UriValidator

    /**
     * The pool holds, per out transport, one use for every registered rule
     * that sends there, and the registry one use per route for every rule
     * on it: the counts are exactly the tallies of the rule set.
     */
    ghost predicate Valid()
      reads this, rules, forwarders, listeners
    {
      && forwarders.Valid()
      && listeners.Valid()
      && forwarders.Counts() == Tally(rules.registered, OutTransportOf)
      && listeners.Counts() == Tally(rules.registered, ListenerKeyOf)
    }

    constructor (name: string, messageQueueSize: nat, directory: SubscriptionDirectory, valid: UriValidator)
      ensures this.name == name && this.directory == directory && this.valid == valid
      ensures forwarders.messageQueueSize == messageQueueSize
      ensures rules.registered == {} && forwarders.forwarders == map[] && listeners.listeners == map[]
      ensures fresh(rules) && fresh(forwarders) && fresh(listeners)
      ensures Valid()
    {
      this.name := name;
      this.directory := directory;
      this.valid := valid;
      rules := new ForwardingRules();
      forwarders := new TransportForwarders(messageQueueSize);
      listeners := new ForwardingListeners();
      new;
      assert forwarders.Counts() == map[];
      assert listeners.Counts() == map[];
    }

    /**
     * `new`: fetch the subscriptions for the wildcard subscriber and build
     * the cache from them; a cache that cannot be built is INVALID_ARGUMENT.
     * `buildCache` stands for the fetch and the cache construction together.
     */
    static method New(name: string, messageQueueSize: U16, buildCache: Uri -> Option<SubscriptionDirectory>,
                      valid: UriValidator)
      returns (r: Result<UStreamer, UStatus>)
      ensures r.Err? <==> buildCache(StreamerSubscriberUri()).None?
      ensures r.Err? ==> r.error == UStatus(INVALID_ARGUMENT)
      ensures r.Ok? ==>
                && fresh(r.value) && r.value.Valid()
                && r.value.name == "UStreamer:" + ":" + name + ":"
                && r.value.directory == buildCache(StreamerSubscriberUri()).value
                && r.value.forwarders.messageQueueSize == messageQueueSize as nat
                && r.value.rules.registered == {}
                && r.value.forwarders.forwarders == map[]
                && r.value.listeners.listeners == map[]
    {
      var tagged := "UStreamer:" + ":" + name + ":";
      var cache := buildCache(StreamerSubscriberUri());
      if cache.None? {
        return Err(UStatus(INVALID_ARGUMENT));
      }
      var streamer := new UStreamer(tagged, messageQueueSize as nat, cache.value, valid);
      return Ok(streamer);
    }

    /**
     * `add_forwarding_rule`. Equal authorities are INVALID_ARGUMENT and a
     * rule already registered ALREADY_EXISTS, both before anything changes.
     * Otherwise the rule is registered, the out transport's queue acquired
     * and the route's listener inserted; if the listener cannot be
     * registered the rule and the queue are released again and the
     * listener error is reported as INVALID_ARGUMENT.
     */
    method AddForwardingRule(inbound: Endpoint, outbound: Endpoint) returns (r: Result<(), UStatus>)
      requires Valid()
      modifies rules`registered, forwarders`forwarders, listeners`listeners, inbound.transport`listenerCalls
      ensures Valid()
      ensures var rule := BuildForwardingRule(inbound, outbound);
              inbound.authority == outbound.authority || rule in old(rules.registered) ==>
                && r == Err(UStatus(if inbound.authority == outbound.authority then INVALID_ARGUMENT else ALREADY_EXISTS))
                && rules.registered == old(rules.registered)
                && forwarders.forwarders == old(forwarders.forwarders)
                && listeners.listeners == old(listeners.listeners)
                && inbound.transport.listenerCalls == old(inbound.transport.listenerCalls)
      ensures var rule := BuildForwardingRule(inbound, outbound);
              var pairs := ListenerPairs(valid, directory, inbound.authority, outbound.authority);
              inbound.authority != outbound.authority && rule !in old(rules.registered) ==>
                && (r.Ok? <==> ListenerKeyOf(rule) in old(listeners.listeners)
                               || FirstRejected(pairs, inbound.transport.rejectsRegister) == |pairs|)
                && (r.Err? ==> r == Err(UStatus(INVALID_ARGUMENT)))
      ensures var rule := BuildForwardingRule(inbound, outbound);
              r.Ok? ==>
                && rules.registered == old(rules.registered) + {rule}
                && forwarders.Counts() == Acquire(old(forwarders.Counts()), outbound.transport)
                && listeners.Counts() == Acquire(old(listeners.Counts()), ListenerKeyOf(rule))
      ensures r.Err? ==>
                && r.error.code in {INVALID_ARGUMENT, ALREADY_EXISTS}
                && rules.registered == old(rules.registered)
                && forwarders.forwarders == old(forwarders.forwarders)
                && listeners.listeners == old(listeners.listeners)
    {
      if inbound.authority == outbound.authority {
        return Err(UStatus(INVALID_ARGUMENT));
      }
      var rule := BuildForwardingRule(inbound, outbound);
      ghost var before := rules.registered;
      var inserted := InsertForwardingRule(rules, rule);
      if !inserted {
        assert rules.registered == before;
        return Err(UStatus(ALREADY_EXISTS));
      }
      r := AttachRoute(inbound, outbound, rule);
      if r.Err? {
        assert rules.registered == before;
        return;
      }
      assert forwarders.Counts() == Tally(rules.registered, OutTransportOf) by {
        TallyAdd(before, rule, OutTransportOf);
      }
      assert listeners.Counts() == Tally(rules.registered, ListenerKeyOf) by {
        TallyAdd(before, rule, ListenerKeyOf);
      }
    }

    /**
     * The part of `add_forwarding_rule` after the rule is registered: acquire
     * the out transport's queue and insert the route's listener; if the
     * listener cannot be registered, release the rule and the queue again.
     */
    method AttachRoute(inbound: Endpoint, outbound: Endpoint, rule: ForwardingRule) returns (r: Result<(), UStatus>)
      requires rule == BuildForwardingRule(inbound, outbound) && rule in rules.registered
      requires forwarders.Valid() && listeners.Valid()
      modifies rules`registered, forwarders`forwarders, listeners`listeners, inbound.transport`listenerCalls
      ensures forwarders.Valid() && listeners.Valid()
      ensures var pairs := ListenerPairs(valid, directory, inbound.authority, outbound.authority);
              r.Ok? <==> ListenerKeyOf(rule) in old(listeners.listeners)
                         || FirstRejected(pairs, inbound.transport.rejectsRegister) == |pairs|
      ensures r.Ok? ==>
                && rules.registered == old(rules.registered)
                && forwarders.Counts() == Acquire(old(forwarders.Counts()), outbound.transport)
                && listeners.Counts() == Acquire(old(listeners.Counts()), ListenerKeyOf(rule))
      ensures r.Err? ==>
                && r == Err(UStatus(INVALID_ARGUMENT))
                && rules.registered == old(rules.registered) - {rule}
                && forwarders.forwarders == old(forwarders.forwarders)
                && listeners.listeners == old(listeners.listeners)
    {
      ghost var pool := forwarders.forwarders;
      var outSender := forwarders.Insert(outbound.transport);
      ghost var pooled := forwarders.forwarders;
      var added, _ := listeners.Insert(inbound.transport, inbound.authority, outbound.authority,
                                       ForwardingId(inbound, outbound), outSender, valid, directory);
      assert forwarders.forwarders == pooled;
      if added.Err? {
        var _ := RemoveForwardingRule(rules, rule);
        forwarders.Remove(outbound.transport);
        assert forwarders.forwarders == pool by {
          assert pooled == Inserted(pool, outbound.transport, outSender);
          RemovedInserted(pool, outbound.transport, outSender);
        }
        return Err(UStatus(INVALID_ARGUMENT));
      }
      return Ok(());
    }

    /**
     * `delete_forwarding_rule`. Equal authorities are INVALID_ARGUMENT and a
     * rule not registered NOT_FOUND, both before anything changes.
     * Otherwise the rule is dropped and one use of the out transport's
     * queue and of the route's listener released.
     */
    method DeleteForwardingRule(inbound: Endpoint, outbound: Endpoint) returns (r: Result<(), UStatus>)
      requires Valid()
      modifies rules`registered, forwarders`forwarders, listeners`listeners, inbound.transport`listenerCalls
      ensures Valid()
      ensures var rule := BuildForwardingRule(inbound, outbound);
              r.Err? <==> inbound.authority == outbound.authority || rule !in old(rules.registered)
      ensures r.Err? ==>
                && r.error == UStatus(if inbound.authority == outbound.authority then INVALID_ARGUMENT else NOT_FOUND)
                && rules.registered == old(rules.registered)
                && forwarders.forwarders == old(forwarders.forwarders)
                && listeners.listeners == old(listeners.listeners)
                && inbound.transport.listenerCalls == old(inbound.transport.listenerCalls)
      ensures var rule := BuildForwardingRule(inbound, outbound);
              r.Ok? ==>
                && rules.registered == old(rules.registered) - {rule}
                && forwarders.Counts() == Release(old(forwarders.Counts()), outbound.transport)
                && listeners.Counts() == Release(old(listeners.Counts()), ListenerKeyOf(rule))
    {
      if inbound.authority == outbound.authority {
        return Err(UStatus(INVALID_ARGUMENT));
      }
      var rule := BuildForwardingRule(inbound, outbound);
      ghost var before := rules.registered;
      var removed := RemoveForwardingRule(rules, rule);
      if !removed {
        assert rules.registered == before;
        return Err(UStatus(NOT_FOUND));
      }
      TallyRemove(before, rule, OutTransportOf);
      TallyRemove(before, rule, ListenerKeyOf);
      forwarders.Remove(outbound.transport);
      listeners.Remove(inbound.transport, inbound.authority, outbound.authority, valid, directory);
      return Ok(());
    }
  }
}
