/**
 * The read-only uSubscription backend that serves subscriptions from a
 * static JSON file mapping topic URIs to arrays of subscriber URIs.
 */
module StaticSubscriptions {
  import opened Wrappers
  import opened UProtocol

  /** Every topic served from the file is rewritten to this resource id. */
  const StaticResourceId: U32 := 0x8001

  /** A parsed JSON value; an object keeps its members in iteration order. */
  datatype Json =
    | JNull
    | JBool(b: bool)
    | JNumber(n: int)
    | JString(s: string)
    | JArray(items: seq<Json>)
    | JObject(members: seq<(string, Json)>)

  /** `UUri::from_str`: a URI or a parse failure. */
  type UriParser = string -> Option<Uri>

  /** A subscription of `subscriber` to `topic`; it is also its own identity key. */
  datatype Subscription = Subscription(topic: Uri, subscriber: Uri)

  /** The trait operations whose result does not depend on the file. */
  datatype ConstantOperation = Subscribe | Unsubscribe | RegisterForNotifications | UnregisterForNotifications | Reset

  /** `topic` with its resource id fixed to the static one. */
  function WithStaticResource(topic: Uri): (t: Uri)
    ensures t.resourceId == StaticResourceId
    ensures t.authorityName == topic.authorityName && t.ueId == topic.ueId
    ensures t.ueVersionMajor == topic.ueVersionMajor
  {
    topic.(resourceId := StaticResourceId)
  }

  /** `s` without repetitions, each element kept at its first occurrence. */
  function Dedup<T(==)>(s: seq<T>): seq<T>
  {
    if s == [] then []
    else
      var d := Dedup(s[..|s| - 1]);
      if s[|s| - 1] in d then d else d + [s[|s| - 1]]
  }

  /** Deduplicating keeps exactly the elements of `s`. */
  lemma {:induction false} DedupMembership<T>(s: seq<T>)
    ensures forall x :: x in Dedup(s) <==> x in s
  {
    if s != [] {
      DedupMembership(s[..|s| - 1]);
      assert s == s[..|s| - 1] + [s[|s| - 1]];
    }
  }

  /** Deduplicating leaves no element twice. */
  lemma {:induction false} DedupDistinct<T>(s: seq<T>)
    ensures forall i, j :: 0 <= i < j < |Dedup(s)| ==> Dedup(s)[i] != Dedup(s)[j]
  {
    if s != [] {
      DedupDistinct(s[..|s| - 1]);
    }
  }

  /** Appending one element to the input extends the deduplicated prefix by at most that element. */
  lemma DedupStep<T>(s: seq<T>, x: T)
    ensures Dedup(s + [x]) == if x in Dedup(s) then Dedup(s) else Dedup(s) + [x]
  {
    assert (s + [x])[..|s|] == s;
  }

  /** The subscriptions one subscriber array contributes: strings that parse as URIs, in order. */
  function SubscriberCandidates(topic: Uri, items: seq<Json>, fromStr: UriParser): seq<Subscription>
  {
    if items == [] then []
    else
      var rest := SubscriberCandidates(topic, items[..|items| - 1], fromStr);
      var item := items[|items| - 1];
      if item.JString? && fromStr(item.s).Some? then rest + [Subscription(topic, fromStr(item.s).value)] else rest
  }

  /** The subscriptions one object member contributes: none unless its key parses and its value is an array. */
  function MemberCandidates(member: (string, Json), fromStr: UriParser): seq<Subscription>
  {
    if fromStr(member.0).None? || !member.1.JArray? then []
    else SubscriberCandidates(WithStaticResource(fromStr(member.0).value), member.1.items, fromStr)
  }

  /** Every subscription the file lists, in file order, repetitions included. */
  function Candidates(members: seq<(string, Json)>, fromStr: UriParser): seq<Subscription>
  {
    if members == [] then []
    else Candidates(members[..|members| - 1], fromStr) + MemberCandidates(members[|members| - 1], fromStr)
  }

  lemma CandidatesStep(members: seq<(string, Json)>, i: nat, fromStr: UriParser)
    requires i < |members|
    ensures Candidates(members[..i + 1], fromStr) == Candidates(members[..i], fromStr) + MemberCandidates(members[i], fromStr)
  {
    assert members[..i + 1][..i] == members[..i];
  }

  lemma SubscriberCandidatesStep(listed: seq<Subscription>, topic: Uri, items: seq<Json>, j: nat, fromStr: UriParser)
    requires j < |items|
    ensures var item := items[j];
            listed + SubscriberCandidates(topic, items[..j + 1], fromStr)
            == listed + SubscriberCandidates(topic, items[..j], fromStr)
               + (if item.JString? && fromStr(item.s).Some? then [Subscription(topic, fromStr(item.s).value)] else [])
  {
    assert items[..j + 1][..j] == items[..j];
  }

  /** What the file serves: the listed subscriptions, each once. */
  function StaticSubscriptions(members: seq<(string, Json)>, fromStr: UriParser): seq<Subscription>
  {
    Dedup(Candidates(members, fromStr))
  }

  lemma {:induction false} SubscriberCandidatesTopic(topic: Uri, items: seq<Json>, fromStr: UriParser)
    ensures forall s :: s in SubscriberCandidates(topic, items, fromStr) ==> s.topic == topic
  {
    if items != [] {
      SubscriberCandidatesTopic(topic, items[..|items| - 1], fromStr);
    }
  }

  lemma {:induction false} CandidatesTopic(members: seq<(string, Json)>, fromStr: UriParser)
    ensures forall s :: s in Candidates(members, fromStr) ==> s.topic.resourceId == StaticResourceId
  {
    if members != [] {
      CandidatesTopic(members[..|members| - 1], fromStr);
      var member := members[|members| - 1];
      if fromStr(member.0).Some? && member.1.JArray? {
        SubscriberCandidatesTopic(WithStaticResource(fromStr(member.0).value), member.1.items, fromStr);
      }
    }
  }

  /**
   * Every subscription served has the static resource id, none is served
   * twice, and a subscription is served exactly when the file lists it.
   */
  lemma StaticSubscriptionsProperties(members: seq<(string, Json)>, fromStr: UriParser)
    ensures forall s :: s in StaticSubscriptions(members, fromStr) ==> s.topic.resourceId == StaticResourceId
    ensures forall s :: s in StaticSubscriptions(members, fromStr) <==> s in Candidates(members, fromStr)
    ensures forall i, j :: 0 <= i < j < |StaticSubscriptions(members, fromStr)| ==>
              StaticSubscriptions(members, fromStr)[i] != StaticSubscriptions(members, fromStr)[j]
  {
    DedupMembership(Candidates(members, fromStr));
    DedupDistinct(Candidates(members, fromStr));
    CandidatesTopic(members, fromStr);
  }

  /** A subscriber array entry that is a string parsing as a URI is listed under the member's topic. */
  lemma {:induction false} SubscriberCandidatesComplete(topic: Uri, items: seq<Json>, fromStr: UriParser, k: nat)
    requires k < |items| && items[k].JString? && fromStr(items[k].s).Some?
    ensures Subscription(topic, fromStr(items[k].s).value) in SubscriberCandidates(topic, items, fromStr)
  {
    if k < |items| - 1 {
      SubscriberCandidatesComplete(topic, items[..|items| - 1], fromStr, k);
    }
  }

  lemma {:induction false} CandidatesIncludeMember(members: seq<(string, Json)>, k: nat, fromStr: UriParser)
    requires k < |members|
    ensures forall s :: s in MemberCandidates(members[k], fromStr) ==> s in Candidates(members, fromStr)
  {
    if k < |members| - 1 {
      CandidatesIncludeMember(members[..|members| - 1], k, fromStr);
    }
  }

  /**
   * Nothing well formed is lost: a string entry parsing as a subscriber,
   * in the array of a member whose key parses as a topic, is served with
   * the topic's resource id replaced by the static one.
   */
  lemma StaticSubscriptionsComplete(members: seq<(string, Json)>, k: nat, n: nat, fromStr: UriParser)
    requires k < |members| && fromStr(members[k].0).Some? && members[k].1.JArray?
    requires n < |members[k].1.items| && members[k].1.items[n].JString? && fromStr(members[k].1.items[n].s).Some?
    ensures Subscription(WithStaticResource(fromStr(members[k].0).value), fromStr(members[k].1.items[n].s).value)
            in StaticSubscriptions(members, fromStr)
  {
    SubscriberCandidatesComplete(WithStaticResource(fromStr(members[k].0).value), members[k].1.items, fromStr, n);
    CandidatesIncludeMember(members, k, fromStr);
    DedupMembership(Candidates(members, fromStr));
  }

  /**
   * `parse_static_subscriptions`: a file that cannot be read or parsed, or
   * whose top level is not an object, is INVALID_ARGUMENT. Otherwise every
   * member whose key parses as a topic and whose value is an array
   * contributes a subscription per string entry that parses as a
   * subscriber; anything else is skipped. Repeated (topic, subscriber)
   * pairs are kept once.
   */
  method ParseStaticSubscriptions(contents: Result<Json, UStatus>, fromStr: UriParser)
    returns (r: Result<seq<Subscription>, UStatus>)
    ensures contents.Err? ==> r == Err(contents.error)
    ensures contents.Ok? && !contents.value.JObject? ==> r == Err(UStatus(INVALID_ARGUMENT))
    ensures contents.Ok? && contents.value.JObject? ==> r == Ok(StaticSubscriptions(contents.value.members, fromStr))
  {
    if contents.Err? {
      return Err(contents.error);
    }
    var value := contents.value;
    if !value.JObject? {
      return Err(UStatus(INVALID_ARGUMENT));
    }
    var entries := value.members;
    var subscriptions: seq<Subscription> := [];
    var i := 0;
    while i < |entries|
      invariant 0 <= i <= |entries|
      invariant subscriptions == Dedup(Candidates(entries[..i], fromStr))
    {
      var (topicKey, subscriberValues) := entries[i];
      CandidatesStep(entries, i, fromStr);
      assert entries[i] == (topicKey, subscriberValues);
      var parsedTopic := fromStr(topicKey);
      if parsedTopic.None? || !subscriberValues.JArray? {
        assert MemberCandidates(entries[i], fromStr) == [];
        assert Candidates(entries[..i], fromStr) + [] == Candidates(entries[..i], fromStr);
        assert Candidates(entries[..i + 1], fromStr) == Candidates(entries[..i], fromStr);
        i := i + 1;
        continue;
      }
      var topic := parsedTopic.value;
      if topic.resourceId != StaticResourceId {
        topic := topic.(resourceId := StaticResourceId);
      }
      assert topic == WithStaticResource(parsedTopic.value);
      assert MemberCandidates(entries[i], fromStr) == SubscriberCandidates(topic, subscriberValues.items, fromStr);
      subscriptions := CollectSubscriptions(subscriptions, topic, subscriberValues.items, fromStr,
                                            Candidates(entries[..i], fromStr));
      i := i + 1;
    }
    assert entries[..i] == entries;
    return Ok(subscriptions);
  }

  /**
   * The inner loop of `parse_static_subscriptions`: add a subscription of
   * `topic` for every entry that is a string parsing as a URI, unless the
   * same (topic, subscriber) pair is already held.
   */
  method CollectSubscriptions(held: seq<Subscription>, topic: Uri, subscribers: seq<Json>, fromStr: UriParser,
                              ghost listed: seq<Subscription>)
    returns (subscriptions: seq<Subscription>)
    requires held == Dedup(listed)
    ensures subscriptions == Dedup(listed + SubscriberCandidates(topic, subscribers, fromStr))
  {
    subscriptions := held;
    assert listed + SubscriberCandidates(topic, subscribers[..0], fromStr) == listed;
    var j := 0;
    while j < |subscribers|
      invariant 0 <= j <= |subscribers|
      invariant subscriptions == Dedup(listed + SubscriberCandidates(topic, subscribers[..j], fromStr))
    {
      SubscriberCandidatesStep(listed, topic, subscribers, j, fromStr);
      ghost var before := listed + SubscriberCandidates(topic, subscribers[..j], fromStr);
      var subscriberValue := subscribers[j];
      if subscriberValue.JString? {
        var subscriberUri := fromStr(subscriberValue.s);
        if subscriberUri.Some? {
          var subscription := Subscription(topic, subscriberUri.value);
          DedupStep(before, subscription);
          if subscription !in subscriptions {
            subscriptions := subscriptions + [subscription];
          }
        } else {
          assert before + [] == before;
        }
      } else {
        assert before + [] == before;
      }
      j := j + 1;
    }
    assert subscribers[..j] == subscribers;
  }

  /** The subscribers of the subscriptions to `topic`, in order, repetitions included. */
  function SubscribersOf(subscriptions: seq<Subscription>, topic: Uri): seq<Uri>
  {
    if subscriptions == [] then []
    else
      var last := subscriptions[|subscriptions| - 1];
      SubscribersOf(subscriptions[..|subscriptions| - 1], topic) + (if last.topic == topic then [last.subscriber] else [])
  }

  lemma {:induction false} SubscribersOfMembership(subscriptions: seq<Subscription>, topic: Uri)
    ensures forall u :: u in SubscribersOf(subscriptions, topic) <==> Subscription(topic, u) in subscriptions
  {
    if subscriptions != [] {
      SubscribersOfMembership(subscriptions[..|subscriptions| - 1], topic);
      assert subscriptions == subscriptions[..|subscriptions| - 1] + [subscriptions[|subscriptions| - 1]];
    }
  }

  /**
   * The subscribers served for a requested topic: the distinct subscribers
   * of the subscriptions whose topic is the request with the static
   * resource id.
   */
  function SubscribersFor(subscriptions: seq<Subscription>, requested: Uri): seq<Uri>
  {
    Dedup(SubscribersOf(subscriptions, WithStaticResource(requested)))
  }

  /**
   * A subscriber is served for a topic exactly when it subscribes to the
   * canonical topic, and it is served once.
   */
  lemma SubscribersForProperties(subscriptions: seq<Subscription>, requested: Uri)
    ensures forall u :: u in SubscribersFor(subscriptions, requested)
                        <==> Subscription(WithStaticResource(requested), u) in subscriptions
    ensures forall i, j :: 0 <= i < j < |SubscribersFor(subscriptions, requested)| ==>
              SubscribersFor(subscriptions, requested)[i] != SubscribersFor(subscriptions, requested)[j]
  {
    DedupMembership(SubscribersOf(subscriptions, WithStaticResource(requested)));
    DedupDistinct(SubscribersOf(subscriptions, WithStaticResource(requested)));
    SubscribersOfMembership(subscriptions, WithStaticResource(requested));
  }

  /** The requested topic's resource id never matters: requests differing only there are answered alike. */
  lemma SubscribersForIgnoresResource(subscriptions: seq<Subscription>, a: Uri, b: Uri)
    requires a.authorityName == b.authorityName && a.ueId == b.ueId && a.ueVersionMajor == b.ueVersionMajor
    ensures SubscribersFor(subscriptions, a) == SubscribersFor(subscriptions, b)
  {
    assert WithStaticResource(a) == WithStaticResource(b);
  }

  /**
   * `fetch_subscribers`: a request without a topic is INVALID_ARGUMENT,
   * checked before the file is read; a file error is passed on; otherwise
   * the subscribers for the canonical topic, each once.
   */
  method FetchSubscribers(requested: Option<Uri>, contents: Result<Json, UStatus>, fromStr: UriParser)
    returns (r: Result<seq<Uri>, UStatus>)
    ensures requested.None? ==> r == Err(UStatus(INVALID_ARGUMENT))
    ensures requested.Some? && contents.Err? ==> r == Err(contents.error)
    ensures requested.Some? && contents.Ok? && !contents.value.JObject? ==> r == Err(UStatus(INVALID_ARGUMENT))
    ensures requested.Some? && contents.Ok? && contents.value.JObject? ==>
              r == Ok(SubscribersFor(StaticSubscriptions(contents.value.members, fromStr), requested.value))
  {
    if requested.None? {
      return Err(UStatus(INVALID_ARGUMENT));
    }
    var canonicalTopic := requested.value;
    canonicalTopic := canonicalTopic.(resourceId := StaticResourceId);
    var parsed := ParseStaticSubscriptions(contents, fromStr);
    if parsed.Err? {
      return Err(parsed.error);
    }
    var subscriptions := parsed.value;
    var subscribers: seq<Uri> := [];
    var i := 0;
    while i < |subscriptions|
      invariant 0 <= i <= |subscriptions|
      invariant subscribers == Dedup(SubscribersOf(subscriptions[..i], canonicalTopic))
    {
      var subscription := subscriptions[i];
      assert subscriptions[..i + 1][..i] == subscriptions[..i];
      assert SubscribersOf(subscriptions[..i + 1], canonicalTopic)
             == SubscribersOf(subscriptions[..i], canonicalTopic)
                + (if subscription.topic == canonicalTopic then [subscription.subscriber] else []);
      if subscription.topic == canonicalTopic {
        DedupStep(SubscribersOf(subscriptions[..i], canonicalTopic), subscription.subscriber);
        if subscription.subscriber !in subscribers {
          subscribers := subscribers + [subscription.subscriber];
        }
        assert subscribers == Dedup(SubscribersOf(subscriptions[..i], canonicalTopic) + [subscription.subscriber]);
      } else {
        assert SubscribersOf(subscriptions[..i], canonicalTopic) + [] == SubscribersOf(subscriptions[..i], canonicalTopic);
        assert SubscribersOf(subscriptions[..i + 1], canonicalTopic) == SubscribersOf(subscriptions[..i], canonicalTopic);
      }
      i := i + 1;
    }
    assert subscriptions[..i] == subscriptions;
    return Ok(subscribers);
  }

  /** `fetch_subscriptions`: every subscription the file serves. */
  method FetchSubscriptions(contents: Result<Json, UStatus>, fromStr: UriParser)
    returns (r: Result<seq<Subscription>, UStatus>)
    ensures r.Ok? <==> contents.Ok? && contents.value.JObject?
    ensures r.Ok? ==> r.value == StaticSubscriptions(contents.value.members, fromStr)
    ensures r.Ok? ==> forall s :: s in r.value ==> s.topic.resourceId == StaticResourceId
  {
    r := ParseStaticSubscriptions(contents, fromStr);
    if r.Ok? {
      StaticSubscriptionsProperties(contents.value.members, fromStr);
    }
  }

  /**
   * The trait operations that ignore the file: subscribing and
   * unsubscribing are UNIMPLEMENTED on this read-only backend, the rest
   * succeed.
   */
  function ConstantResult(op: ConstantOperation): (r: Result<(), UStatus>)
    ensures r.Err? <==> op == Subscribe || op == Unsubscribe
    ensures r.Err? ==> r.error.code == UNIMPLEMENTED
  {
    match op
    case Subscribe => Err(UStatus(UNIMPLEMENTED))
    case Unsubscribe => Err(UStatus(UNIMPLEMENTED))
    case RegisterForNotifications => Ok(())
    case UnregisterForNotifications => Ok(())
    case Reset => Ok(())
  }
}
