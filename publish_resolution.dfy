/** Derivation of the publish source filters a forwarding listener registers. */
module PublishResolution {
  import opened Wrappers
  import opened UProtocol

  /** One subscription known to the subscription cache. */
  datatype SubscriptionInformation = SubscriptionInformation(topic: Uri, subscriber: Uri)

  /** A `SubscriptionLookup`: the values of the cache entry, in iteration order. */
  type SubscriptionLookup = seq<SubscriptionInformation>

  /**
   * The subscription cache as a given map from egress authority to its
   * subscriptions; wildcard resolution happens inside the cache, which is
   * not part of this model.
   */
  type SubscriptionDirectory = map<string, SubscriptionLookup>

  /** `SubscriptionDirectory::lookup_route_subscribers`: a missing entry reads as empty. */
  function LookupRouteSubscribers(directory: SubscriptionDirectory, outAuthority: string): (r: SubscriptionLookup)
    ensures outAuthority !in directory ==> r == []
    ensures outAuthority in directory ==> r == directory[outAuthority]
  {
    if outAuthority in directory then directory[outAuthority] else []
  }

  /** A topic can originate from the ingress authority: its authority is `*` or that authority. */
  predicate TopicMatchesIngressAuthority(ingressAuthority: string, topic: Uri)
    ensures topic.authorityName == "*" ==> TopicMatchesIngressAuthority(ingressAuthority, topic)
    ensures topic.authorityName != "*" ==>
              (TopicMatchesIngressAuthority(ingressAuthority, topic) <==> topic.authorityName == ingressAuthority)
  {
    topic.authorityName == "*" || topic.authorityName == ingressAuthority
  }

  /** A topic with a concrete authority matches one ingress authority only; a wildcard topic matches them all. */
  lemma {:induction false} ConcreteTopicMatchesOneIngress(a: string, b: string, topic: Uri)
    requires a != b
    ensures TopicMatchesIngressAuthority(a, topic) && TopicMatchesIngressAuthority(b, topic)
            <==> topic.authorityName == "*"
  {
  }

  /**
   * The publish source filter for one subscriber topic: the topic's entity,
   * version and resource under the ingress authority. The egress authority
   * is only logged.
   */
  function DeriveSourceFilterForTopic(valid: UriValidator, ingressAuthority: string,
                                      egressAuthority: string, topic: Uri): (r: Option<Uri>)
    ensures !TopicMatchesIngressAuthority(ingressAuthority, topic) ==> r == None
    ensures TopicMatchesIngressAuthority(ingressAuthority, topic) ==>
              (r.Some? <==> valid(Uri(ingressAuthority, topic.ueId, UEntityMajorVersion(topic), ResourceIdU16(topic))))
    ensures r.Some? ==> && r.value.authorityName == ingressAuthority
                        && r.value.ueId == topic.ueId
                        && UEntityMajorVersion(r.value) == UEntityMajorVersion(topic)
                        && ResourceIdU16(r.value) == ResourceIdU16(topic)
  {
    if !TopicMatchesIngressAuthority(ingressAuthority, topic) then None
    else TryFromParts(valid, ingressAuthority, topic.ueId, UEntityMajorVersion(topic), ResourceIdU16(topic))
  }

  /** The egress authority never changes the derived filter. */
  lemma DeriveSourceFilterIgnoresEgress(valid: UriValidator, ingressAuthority: string,
                                        egress1: string, egress2: string, topic: Uri)
    ensures DeriveSourceFilterForTopic(valid, ingressAuthority, egress1, topic)
            == DeriveSourceFilterForTopic(valid, ingressAuthority, egress2, topic)
  {
  }

  /** The filter a subscription contributes, if any. */
  function FilterOf(valid: UriValidator, ingressAuthority: string, s: SubscriptionInformation): Option<Uri>
  {
    DeriveSourceFilterForTopic(valid, ingressAuthority, "", s.topic)
  }

  /**
   * The deduplicated filters of a lookup, first occurrence kept, in the order
   * subscribers are visited.
   */
  function SourceFilters(valid: UriValidator, ingressAuthority: string, subscribers: SubscriptionLookup): seq<Uri>
  {
    if subscribers == [] then []
    else
      var prev := SourceFilters(valid, ingressAuthority, subscribers[..|subscribers| - 1]);
      var f := FilterOf(valid, ingressAuthority, subscribers[|subscribers| - 1]);
      if f.Some? && f.value !in prev then prev + [f.value] else prev
  }

  /** Every derived filter carries the ingress authority. */
  lemma {:induction false} SourceFiltersAuthority(valid: UriValidator, ingressAuthority: string, subscribers: SubscriptionLookup)
    ensures forall f :: f in SourceFilters(valid, ingressAuthority, subscribers) ==> f.authorityName == ingressAuthority
  {
    if subscribers != [] {
      SourceFiltersAuthority(valid, ingressAuthority, subscribers[..|subscribers| - 1]);
    }
  }

  /** The derived filters are pairwise distinct and at most one per subscriber. */
  lemma {:induction false} SourceFiltersDistinct(valid: UriValidator, ingressAuthority: string, subscribers: SubscriptionLookup)
    ensures var fs := SourceFilters(valid, ingressAuthority, subscribers);
            |fs| <= |subscribers| && forall i, j :: 0 <= i < j < |fs| ==> fs[i] != fs[j]
  {
    if subscribers != [] {
      SourceFiltersDistinct(valid, ingressAuthority, subscribers[..|subscribers| - 1]);
    }
  }

  /**
   * A URI is derived exactly when some subscriber's topic yields it: a
   * mismatched topic or a failed `try_from_parts` contributes nothing.
   */
  lemma {:induction false} SourceFiltersComplete(valid: UriValidator, ingressAuthority: string,
                                                 subscribers: SubscriptionLookup, u: Uri)
    ensures u in SourceFilters(valid, ingressAuthority, subscribers)
            <==> exists i :: 0 <= i < |subscribers| && FilterOf(valid, ingressAuthority, subscribers[i]) == Some(u)
  {
    if subscribers != [] {
      var init := subscribers[..|subscribers| - 1];
      SourceFiltersComplete(valid, ingressAuthority, init, u);
      if exists i :: 0 <= i < |init| && FilterOf(valid, ingressAuthority, init[i]) == Some(u) {
        var i :| 0 <= i < |init| && FilterOf(valid, ingressAuthority, init[i]) == Some(u);
        assert subscribers[i] == init[i];
      }
      if exists i :: 0 <= i < |subscribers| && FilterOf(valid, ingressAuthority, subscribers[i]) == Some(u) {
        var i :| 0 <= i < |subscribers| && FilterOf(valid, ingressAuthority, subscribers[i]) == Some(u);
        if i < |init| {
          assert init[i] == subscribers[i];
        }
      }
    }
  }

  /**
   * `PublishRouteResolver::derive_source_filters`: visit every subscriber
   * and keep the first filter seen for each URI.
   */
  method DeriveSourceFilters(valid: UriValidator, ingressAuthority: string, egressAuthority: string,
                             subscribers: SubscriptionLookup) returns (filters: seq<Uri>)
    ensures filters == SourceFilters(valid, ingressAuthority, subscribers)
  {
    filters := [];
    var i := 0;
    while i < |subscribers|
      invariant 0 <= i <= |subscribers|
      invariant filters == SourceFilters(valid, ingressAuthority, subscribers[..i])
    {
      var source := DeriveSourceFilterForTopic(valid, ingressAuthority, egressAuthority, subscribers[i].topic);
      assert subscribers[..i + 1][..i] == subscribers[..i];
      if source.Some? && source.value !in filters {
        filters := filters + [source.value];
      }
      i := i + 1;
    }
    assert subscribers[..i] == subscribers;
  }
}
