/**
 * The ingress registry: one forwarding listener per (in transport, in
 * authority, out authority), registered on the in transport for the
 * request/notification filter and for every publish source filter, and
 * kept alive by an active count.
 */
module IngressRegistry {
  import opened Wrappers
  import opened UProtocol
  import opened Transports
  import opened RefCount
  import opened PublishResolution
  import opened IngressListener

  /** The map key: the in transport by identity and both authority names. */
  datatype ListenerKey = ListenerKey(inTransport: Transport, inAuthority: string, outAuthority: string)

  datatype ListenerEntry = ListenerEntry(active: nat, listener: ForwardingListener)

  datatype ForwardingListenerError =
    | FailToRegisterNotificationRequestResponseListener
    | FailToRegisterPublishListener(uri: Uri)

  /** The request/notification filter: anything from the in authority addressed to the out authority. */
  function RequestPair(inAuthority: string, outAuthority: string): (p: FilterPair)
    ensures p.source == UAuthorityToUuri(inAuthority) && p.sink == Some(UAuthorityToUuri(outAuthority))
  {
    FilterPair(UAuthorityToUuri(inAuthority), Some(UAuthorityToUuri(outAuthority)))
  }

  /** Publish filters are registered with no sink filter. */
  function PublishPairs(filters: seq<Uri>): (ps: seq<FilterPair>)
    ensures |ps| == |filters|
  {
    if filters == [] then [] else [FilterPair(filters[0], None)] + PublishPairs(filters[1..])
  }

  /** The i-th publish pair is the i-th filter with no sink. */
  lemma {:induction false} PublishPairsIndex(filters: seq<Uri>, i: nat)
    requires i < |filters|
    ensures PublishPairs(filters)[i] == FilterPair(filters[i], None)
  {
    if i > 0 {
      PublishPairsIndex(filters[1..], i - 1);
    }
  }

  /** The publish source filters of the route from `inAuthority` to `outAuthority`. */
  function RouteFilters(valid: UriValidator, directory: SubscriptionDirectory,
                        inAuthority: string, outAuthority: string): seq<Uri>
  {
    SourceFilters(valid, inAuthority, LookupRouteSubscribers(directory, outAuthority))
  }

  /** Every filter pair a listener for the route is registered under, in registration order. */
  function ListenerPairs(valid: UriValidator, directory: SubscriptionDirectory,
                         inAuthority: string, outAuthority: string): seq<FilterPair>
  {
    [RequestPair(inAuthority, outAuthority)] + PublishPairs(RouteFilters(valid, directory, inAuthority, outAuthority))
  }

  /** A route whose egress authority has no cache entry registers its listener for the request pair only. */
  lemma ListenerPairsWithoutSubscribers(valid: UriValidator, directory: SubscriptionDirectory,
                                        inAuthority: string, outAuthority: string)
    requires outAuthority !in directory
    ensures ListenerPairs(valid, directory, inAuthority, outAuthority) == [RequestPair(inAuthority, outAuthority)]
  {
    assert LookupRouteSubscribers(directory, outAuthority) == [];
  }

  /**
   * The pairs of a listener are pairwise distinct, so the source's set of
   * pairs to roll back holds each of them once; only the first has a sink,
   * and every publish filter names the in authority.
   */
  lemma ListenerPairsShape(valid: UriValidator, directory: SubscriptionDirectory,
                           inAuthority: string, outAuthority: string)
    ensures var ps := ListenerPairs(valid, directory, inAuthority, outAuthority);
            && ps[0] == RequestPair(inAuthority, outAuthority)
            && (forall i :: 1 <= i < |ps| ==> ps[i].sink == None && ps[i].source.authorityName == inAuthority)
            && (forall i, j :: 0 <= i < j < |ps| ==> ps[i] != ps[j])
  {
    var filters := RouteFilters(valid, directory, inAuthority, outAuthority);
    var ps := ListenerPairs(valid, directory, inAuthority, outAuthority);
    SourceFiltersAuthority(valid, inAuthority, LookupRouteSubscribers(directory, outAuthority));
    SourceFiltersDistinct(valid, inAuthority, LookupRouteSubscribers(directory, outAuthority));
    forall i | 1 <= i < |ps|
      ensures ps[i] == FilterPair(filters[i - 1], None)
    {
      PublishPairsIndex(filters, i - 1);
    }
  }

  /** The index of the first pair the transport refuses to register, or `|pairs|`. */
  function FirstRejected(pairs: seq<FilterPair>, rejects: set<FilterPair>): (k: nat)
    ensures k <= |pairs|
    ensures forall j :: 0 <= j < k ==> pairs[j] !in rejects
    ensures k < |pairs| ==> pairs[k] in rejects
  {
    if pairs == [] || pairs[0] in rejects then 0 else 1 + FirstRejected(pairs[1..], rejects)
  }

  /** A pair refused after a run of accepted ones is the first refusal. */
  lemma FirstRejectedAt(pairs: seq<FilterPair>, rejects: set<FilterPair>, k: nat)
    requires k <= |pairs|
    requires forall j :: 0 <= j < k ==> pairs[j] !in rejects
    requires k < |pairs| ==> pairs[k] in rejects
    ensures FirstRejected(pairs, rejects) == k
  {
  }

  /** The `register_listener` calls for `pairs`, in order, as a transport refusing `rejects` answers them. */
  function Attempts(pairs: seq<FilterPair>, listener: object, rejects: set<FilterPair>): (cs: seq<ListenerCall>)
    ensures |cs| == |pairs|
  {
    if pairs == [] then []
    else
      var last := pairs[|pairs| - 1];
      Attempts(pairs[..|pairs| - 1], listener, rejects) + [Register(Registration(last, listener), last !in rejects)]
  }

  /** The `unregister_listener` calls for `pairs`, in order, as a transport refusing `rejects` answers them. */
  function Withdrawals(pairs: seq<FilterPair>, listener: object, rejects: set<FilterPair>): (cs: seq<ListenerCall>)
    ensures |cs| == |pairs|
  {
    if pairs == [] then []
    else
      var last := pairs[|pairs| - 1];
      Withdrawals(pairs[..|pairs| - 1], listener, rejects) + [Unregister(Registration(last, listener), last !in rejects)]
  }

  /** One more pair adds one more call at the end of the log. */
  lemma CallsStep(calls: seq<ListenerCall>, pairs: seq<FilterPair>, i: nat, listener: object, rejects: set<FilterPair>)
    requires i < |pairs|
    ensures calls + Attempts(pairs[..i + 1], listener, rejects)
            == calls + Attempts(pairs[..i], listener, rejects) + [Register(Registration(pairs[i], listener), pairs[i] !in rejects)]
    ensures calls + Withdrawals(pairs[..i + 1], listener, rejects)
            == calls + Withdrawals(pairs[..i], listener, rejects) + [Unregister(Registration(pairs[i], listener), pairs[i] !in rejects)]
  {
    assert pairs[..i + 1][..i] == pairs[..i];
  }

  /** What one successful `unregister_listener` call removes. */
  function UnregisterEffect(p: FilterPair, rejects: set<FilterPair>, listener: object): multiset<Registration>
  {
    if p in rejects then multiset{} else multiset{Registration(p, listener)}
  }

  /** What unregistering `pairs` for `listener` removes: the pairs the transport accepts. */
  function Unregistered(pairs: seq<FilterPair>, rejects: set<FilterPair>, listener: object): multiset<Registration>
  {
    if pairs == [] then multiset{}
    else Unregistered(pairs[..|pairs| - 1], rejects, listener) + UnregisterEffect(pairs[|pairs| - 1], rejects, listener)
  }

  /** What unregistering `pairs` for `listener` leaves behind: the pairs the transport refuses. */
  function Leftover(pairs: seq<FilterPair>, rejects: set<FilterPair>, listener: object): multiset<Registration>
  {
    if pairs == [] then multiset{}
    else
      var last := pairs[|pairs| - 1];
      Leftover(pairs[..|pairs| - 1], rejects, listener)
        + (if last in rejects then multiset{Registration(last, listener)} else multiset{})
  }

  /** Every registration of `pairs` is either removed by unregistering them or left over. */
  lemma {:induction false} UnregisteredSplit(pairs: seq<FilterPair>, rejects: set<FilterPair>, listener: object)
    ensures multiset(Registrations(pairs, listener))
            == Unregistered(pairs, rejects, listener) + Leftover(pairs, rejects, listener)
  {
    if pairs != [] {
      var init := pairs[..|pairs| - 1];
      UnregisteredSplit(init, rejects, listener);
      RegistrationsAppend(init, [pairs[|pairs| - 1]], listener);
      assert init + [pairs[|pairs| - 1]] == pairs;
    }
  }

  /** A transport that accepts every unregistration leaves nothing behind. */
  lemma {:induction false} LeftoverNone(pairs: seq<FilterPair>, rejects: set<FilterPair>, listener: object)
    requires forall j :: 0 <= j < |pairs| ==> pairs[j] !in rejects
    ensures Leftover(pairs, rejects, listener) == multiset{}
  {
    if pairs != [] {
      LeftoverNone(pairs[..|pairs| - 1], rejects, listener);
    }
  }

  /** Accepted registrations add exactly the registrations of `pairs`. */
  lemma {:induction false} ReplayAttempts(m: multiset<Registration>, pairs: seq<FilterPair>, listener: object,
                                          rejects: set<FilterPair>)
    requires forall j :: 0 <= j < |pairs| ==> pairs[j] !in rejects
    ensures Replay(m, Attempts(pairs, listener, rejects)) == m + multiset(Registrations(pairs, listener))
  {
    if pairs != [] {
      var init := pairs[..|pairs| - 1];
      var cs := Attempts(pairs, listener, rejects);
      assert cs[..|cs| - 1] == Attempts(init, listener, rejects);
      ReplayAttempts(m, init, listener, rejects);
      RegistrationsAppend(init, [pairs[|pairs| - 1]], listener);
      assert init + [pairs[|pairs| - 1]] == pairs;
    }
  }

  /** Unregistering `pairs` removes exactly the accepted ones. */
  lemma {:induction false} ReplayWithdrawals(m: multiset<Registration>, pairs: seq<FilterPair>, listener: object,
                                             rejects: set<FilterPair>)
    ensures Replay(m, Withdrawals(pairs, listener, rejects)) == m - Unregistered(pairs, rejects, listener)
  {
    if pairs != [] {
      var init := pairs[..|pairs| - 1];
      var cs := Withdrawals(pairs, listener, rejects);
      assert cs[..|cs| - 1] == Withdrawals(init, listener, rejects);
      ReplayWithdrawals(m, init, listener, rejects);
      var e := UnregisterEffect(pairs[|pairs| - 1], rejects, listener);
      assert m - Unregistered(init, rejects, listener) - e == m - (Unregistered(init, rejects, listener) + e);
    }
  }

  /**
   * A listener that registered all of `pairs` and is then unregistered from
   * all of them by a transport that accepts every call leaves the
   * transport's registrations as they were.
   */
  lemma RegisterThenUnregisterRestores(m: multiset<Registration>, pairs: seq<FilterPair>, listener: object,
                                       registerRejects: set<FilterPair>, unregisterRejects: set<FilterPair>)
    requires forall j :: 0 <= j < |pairs| ==> pairs[j] !in registerRejects && pairs[j] !in unregisterRejects
    ensures Replay(m, Attempts(pairs, listener, registerRejects) + Withdrawals(pairs, listener, unregisterRejects)) == m
  {
    ReplayAppend(m, Attempts(pairs, listener, registerRejects), Withdrawals(pairs, listener, unregisterRejects));
    ReplayAttempts(m, pairs, listener, registerRejects);
    ReplayWithdrawals(m + multiset(Registrations(pairs, listener)), pairs, listener, unregisterRejects);
    UnregisteredSplit(pairs, unregisterRejects, listener);
    LeftoverNone(pairs, unregisterRejects, listener);
  }

  /**
   * The roll-back after a refused publish registration (index k > 0): the
   * registrations made so far are withdrawn, and only those the transport
   * refuses to withdraw stay behind.
   */
  lemma RollbackLeavesLeftover(m: multiset<Registration>, pairs: seq<FilterPair>, k: nat, listener: object,
                               registerRejects: set<FilterPair>, unregisterRejects: set<FilterPair>)
    requires 0 < k < |pairs| && k == FirstRejected(pairs, registerRejects)
    ensures Replay(m, Attempts(pairs[..k + 1], listener, registerRejects) + Withdrawals(pairs[..k], listener, unregisterRejects))
            == m + Leftover(pairs[..k], unregisterRejects, listener)
  {
    var attempts := Attempts(pairs[..k + 1], listener, registerRejects);
    ReplayAppend(m, attempts, Withdrawals(pairs[..k], listener, unregisterRejects));
    assert pairs[..k + 1][..k] == pairs[..k];
    assert attempts[..k] == Attempts(pairs[..k], listener, registerRejects);
    assert !attempts[k].ok;
    ReplayAttempts(m, pairs[..k], listener, registerRejects);
    var registered := m + multiset(Registrations(pairs[..k], listener));
    assert Replay(m, attempts) == registered;
    ReplayWithdrawals(registered, pairs[..k], listener, unregisterRejects);
    UnregisteredSplit(pairs[..k], unregisterRejects, listener);
  }

  /**
   * The roll-back after a refused request registration: the one
   * unregistration changes nothing, since the new listener held no
   * registration.
   */
  lemma RollbackRequestRestores(m: multiset<Registration>, request: FilterPair, listener: object,
                                unregisterRejects: set<FilterPair>)
    requires Registration(request, listener) !in m
    ensures Replay(m, [Register(Registration(request, listener), false)]
                      + Withdrawals([request], listener, unregisterRejects)) == m
  {
    var reg := Registration(request, listener);
    var w := Withdrawals([request], listener, unregisterRejects);
    assert [request][..0] == [];
    assert w == [Unregister(reg, request !in unregisterRejects)];
    var cs := [Register(reg, false)] + w;
    assert cs[..1] == [Register(reg, false)];
    assert cs[..1][..0] == [];
    assert Replay(m, cs[..1]) == m;
    assert m - multiset{reg} == m;
  }

  /** The roll-back loop: unregister every pair for `listener`, ignoring failures. */
  method UnregisterAll(inTransport: Transport, pairs: seq<FilterPair>, listener: object)
    modifies inTransport`listenerCalls
    ensures inTransport.listenerCalls
            == old(inTransport.listenerCalls) + Withdrawals(pairs, listener, inTransport.rejectsUnregister)
  {
    var i := 0;
    while i < |pairs|
      invariant 0 <= i <= |pairs|
      invariant inTransport.listenerCalls
                == old(inTransport.listenerCalls) + Withdrawals(pairs[..i], listener, inTransport.rejectsUnregister)
    {
      var _ := inTransport.UnregisterListener(pairs[i], listener);
      CallsStep(old(inTransport.listenerCalls), pairs, i, listener, inTransport.rejectsUnregister);
      i := i + 1;
    }
    assert pairs[..i] == pairs;
  }

  class ForwardingListeners {
    var listeners: map<ListenerKey, ListenerEntry>

    /** No entry lingers with a zero count. */
    ghost predicate Valid()
      reads this
    {
      forall k :: k in listeners ==> listeners[k].active >= 1
    }

    /** The active count of every listener key. */
    ghost function Counts(): (c: map<ListenerKey, nat>)
      reads this
      ensures c.Keys == listeners.Keys
      ensures Valid() ==> Positive(c)
    {
      map k | k in listeners :: listeners[k].active
    }

    constructor ()
      ensures listeners == map[] && Valid()
    {
      listeners := map[];
    }

    /**
     * `insert`. A known key only gains a user (`Ok(None)`). Otherwise a new
     * listener sending to `outSender` is registered for the request pair and
     * then for every publish filter of the route; on the first refused
     * registration the request pair and every publish pair registered so
     * far are unregistered, the key is not stored and the matching error is
     * returned. When all registrations succeed the listener is stored with
     * count one.
     */
    method Insert(inTransport: Transport, inAuthority: string, outAuthority: string, forwardingId: string,
                  outSender: Channel, valid: UriValidator, directory: SubscriptionDirectory)
      returns (r: Result<Option<ForwardingListener>, ForwardingListenerError>, ghost created: ForwardingListener)
      requires Valid()
      modifies this`listeners, inTransport`listenerCalls
      ensures Valid()
      ensures r.Ok? ==> Counts() == Acquire(old(Counts()), ListenerKey(inTransport, inAuthority, outAuthority))
      ensures r.Err? ==> listeners == old(listeners)
      ensures var key := ListenerKey(inTransport, inAuthority, outAuthority);
              key in old(listeners) ==>
                && r == Ok(None)
                && listeners == old(listeners)[key := old(listeners)[key].(active := old(listeners)[key].active + 1)]
                && inTransport.listenerCalls == old(inTransport.listenerCalls)
      ensures var key := ListenerKey(inTransport, inAuthority, outAuthority);
              var pairs := ListenerPairs(valid, directory, inAuthority, outAuthority);
              var k := FirstRejected(pairs, inTransport.rejectsRegister);
              key !in old(listeners) ==>
                && fresh(created) && created.forwardingId == forwardingId && created.sender == outSender
                && (k == |pairs| ==>
                      && r == Ok(Some(created))
                      && listeners == old(listeners)[key := ListenerEntry(1, created)]
                      && inTransport.listenerCalls
                         == old(inTransport.listenerCalls) + Attempts(pairs, created, inTransport.rejectsRegister))
                && (k == 0 ==>
                      && r == Err(FailToRegisterNotificationRequestResponseListener)
                      && inTransport.listenerCalls
                         == old(inTransport.listenerCalls) + Attempts(pairs[..1], created, inTransport.rejectsRegister)
                            + Withdrawals(pairs[..1], created, inTransport.rejectsUnregister))
                && (0 < k < |pairs| ==>
                      && r == Err(FailToRegisterPublishListener(pairs[k].source))
                      && inTransport.listenerCalls
                         == old(inTransport.listenerCalls) + Attempts(pairs[..k + 1], created, inTransport.rejectsRegister)
                            + Withdrawals(pairs[..k], created, inTransport.rejectsUnregister))
    {
      var key := ListenerKey(inTransport, inAuthority, outAuthority);
      if key in listeners {
        var entry := listeners[key];
        var active := entry.active + 1;
        listeners := listeners[key := entry.(active := active)];
        created := entry.listener;
        if active > 1 {
          return Ok(None), created;
        }
        return Ok(Some(entry.listener)), created;
      }

      var listener := new ForwardingListener(forwardingId, outSender);
      created := listener;
      var registered := RegisterRoute(inTransport, inAuthority, outAuthority, listener, valid, directory);
      if registered.Err? {
        return Err(registered.error), created;
      }
      listeners := listeners[key := ListenerEntry(1, listener)];
      return Ok(Some(listener)), created;
    }

    /**
     * `remove`. An unknown key is left alone. Otherwise the key loses a
     * user; at zero it is dropped and its listener unregistered from the
     * request pair and then from every publish filter of the route, each
     * failure only logged.
     */
    method Remove(inTransport: Transport, inAuthority: string, outAuthority: string,
                  valid: UriValidator, directory: SubscriptionDirectory)
      requires Valid()
      modifies this`listeners, inTransport`listenerCalls
      ensures Valid()
      ensures Counts() == Release(old(Counts()), ListenerKey(inTransport, inAuthority, outAuthority))
      ensures ListenerKey(inTransport, inAuthority, outAuthority) !in old(listeners) ==> listeners == old(listeners)
      ensures var key := ListenerKey(inTransport, inAuthority, outAuthority);
              (key !in old(listeners) || old(listeners)[key].active > 1) ==>
                inTransport.listenerCalls == old(inTransport.listenerCalls)
      ensures var key := ListenerKey(inTransport, inAuthority, outAuthority);
              key in old(listeners) && old(listeners)[key].active > 1 ==>
                listeners == old(listeners)[key := old(listeners)[key].(active := old(listeners)[key].active - 1)]
      ensures var key := ListenerKey(inTransport, inAuthority, outAuthority);
              var pairs := ListenerPairs(valid, directory, inAuthority, outAuthority);
              key in old(listeners) && old(listeners)[key].active == 1 ==>
                && listeners == old(listeners) - {key}
                && inTransport.listenerCalls
                   == old(inTransport.listenerCalls)
                      + Withdrawals(pairs, old(listeners)[key].listener, inTransport.rejectsUnregister)
    {
      var key := ListenerKey(inTransport, inAuthority, outAuthority);
      if key !in listeners {
        return;
      }
      var entry := listeners[key];
      var activeNum := entry.active - 1;
      listeners := listeners[key := entry.(active := activeNum)];
      if activeNum == 0 {
        listeners := listeners - {key};
        UnregisterRoute(inTransport, inAuthority, outAuthority, entry.listener, valid, directory);
      }
    }
  }

  /**
   * The registration half of `insert` for a new listener: the request pair
   * first, then every publish filter of the route in order. On the first
   * refusal every pair registered so far, together with the refused one
   * when it is the request pair, is unregistered again and the matching
   * error is returned.
   */
  method RegisterRoute(inTransport: Transport, inAuthority: string, outAuthority: string, listener: object,
                       valid: UriValidator, directory: SubscriptionDirectory)
    returns (r: Result<(), ForwardingListenerError>)
    modifies inTransport`listenerCalls
    ensures var pairs := ListenerPairs(valid, directory, inAuthority, outAuthority);
            var k := FirstRejected(pairs, inTransport.rejectsRegister);
            && (k == |pairs| ==>
                  && r == Ok(())
                  && inTransport.listenerCalls
                     == old(inTransport.listenerCalls) + Attempts(pairs, listener, inTransport.rejectsRegister))
            && (k == 0 ==>
                  && r == Err(FailToRegisterNotificationRequestResponseListener)
                  && inTransport.listenerCalls
                     == old(inTransport.listenerCalls) + Attempts(pairs[..1], listener, inTransport.rejectsRegister)
                        + Withdrawals(pairs[..1], listener, inTransport.rejectsUnregister))
            && (0 < k < |pairs| ==>
                  && r == Err(FailToRegisterPublishListener(pairs[k].source))
                  && inTransport.listenerCalls
                     == old(inTransport.listenerCalls) + Attempts(pairs[..k + 1], listener, inTransport.rejectsRegister)
                        + Withdrawals(pairs[..k], listener, inTransport.rejectsUnregister))
  {
    ghost var pairs := ListenerPairs(valid, directory, inAuthority, outAuthority);
    ghost var calls := inTransport.listenerCalls;
    ghost var rejects := inTransport.rejectsRegister;

    var request := RequestPair(inAuthority, outAuthority);
    var backpedal := [request];
    var ok := inTransport.RegisterListener(request, listener);
    CallsStep(calls, pairs, 0, listener, rejects);
    assert pairs[..1] == [request];
    if !ok {
      FirstRejectedAt(pairs, rejects, 0);
      UnregisterAll(inTransport, backpedal, listener);
      return Err(FailToRegisterNotificationRequestResponseListener);
    }

    var subscribers := LookupRouteSubscribers(directory, outAuthority);
    var filters := DeriveSourceFilters(valid, inAuthority, outAuthority, subscribers);
    r := RegisterPublish(inTransport, request, filters, listener, calls);
  }

  /**
   * The publish loop of `insert`, entered once the request pair is
   * registered: register every publish filter in order; on the first
   * refusal unregister the request pair and every filter registered so
   * far and report the refused filter.
   */
  method RegisterPublish(inTransport: Transport, request: FilterPair, filters: seq<Uri>, listener: object,
                         ghost calls: seq<ListenerCall>)
    returns (r: Result<(), ForwardingListenerError>)
    requires request !in inTransport.rejectsRegister
    requires inTransport.listenerCalls == calls + Attempts([request], listener, inTransport.rejectsRegister)
    modifies inTransport`listenerCalls
    ensures var pairs := [request] + PublishPairs(filters);
            var k := FirstRejected(pairs, inTransport.rejectsRegister);
            && 0 < k
            && (k == |pairs| ==>
                  && r == Ok(())
                  && inTransport.listenerCalls == calls + Attempts(pairs, listener, inTransport.rejectsRegister))
            && (k < |pairs| ==>
                  && r == Err(FailToRegisterPublishListener(pairs[k].source))
                  && inTransport.listenerCalls
                     == calls + Attempts(pairs[..k + 1], listener, inTransport.rejectsRegister)
                        + Withdrawals(pairs[..k], listener, inTransport.rejectsUnregister))
  {
    ghost var pairs := [request] + PublishPairs(filters);
    ghost var rejects := inTransport.rejectsRegister;
    assert pairs[..1] == [request];
    var backpedal := [request];
    var i := 0;
    while i < |filters|
      invariant 0 <= i <= |filters|
      invariant backpedal == pairs[..i + 1]
      invariant forall j :: 0 <= j <= i ==> pairs[j] !in rejects
      invariant inTransport.listenerCalls == calls + Attempts(pairs[..i + 1], listener, rejects)
    {
      var pair := FilterPair(filters[i], None);
      assert pair == pairs[i + 1] by {
        PublishPairsIndex(filters, i);
      }
      var ok := inTransport.RegisterListener(pair, listener);
      CallsStep(calls, pairs, i + 1, listener, rejects);
      if !ok {
        FirstRejectedAt(pairs, rejects, i + 1);
        UnregisterAll(inTransport, backpedal, listener);
        return Err(FailToRegisterPublishListener(filters[i]));
      }
      assert pairs[..i + 2] == backpedal + [pair];
      backpedal := backpedal + [pair];
      i := i + 1;
    }
    assert pairs[..i + 1] == pairs;
    FirstRejectedAt(pairs, rejects, |pairs|);
    return Ok(());
  }

  /**
   * The tail of `remove` once a key is dropped: unregister the listener from
   * the request pair, then from every publish filter of the route.
   */
  method UnregisterRoute(inTransport: Transport, inAuthority: string, outAuthority: string, listener: object,
                         valid: UriValidator, directory: SubscriptionDirectory)
    modifies inTransport`listenerCalls
    ensures inTransport.listenerCalls
            == old(inTransport.listenerCalls)
               + Withdrawals(ListenerPairs(valid, directory, inAuthority, outAuthority), listener, inTransport.rejectsUnregister)
  {
    ghost var calls := inTransport.listenerCalls;
    var request := RequestPair(inAuthority, outAuthority);
    var _ := inTransport.UnregisterListener(request, listener);
    var subscribers := LookupRouteSubscribers(directory, outAuthority);
    var filters := DeriveSourceFilters(valid, inAuthority, outAuthority, subscribers);
    var publish := PublishPairs(filters);
    UnregisterAll(inTransport, publish, listener);
    ghost var pairs := ListenerPairs(valid, directory, inAuthority, outAuthority);
    assert pairs == [request] + publish;
    assert inTransport.listenerCalls == calls + Withdrawals(pairs, listener, inTransport.rejectsUnregister) by {
      WithdrawalsPrepend(request, publish, listener, inTransport.rejectsUnregister);
    }
  }

  lemma {:induction false} WithdrawalsPrepend(p: FilterPair, rest: seq<FilterPair>, listener: object, rejects: set<FilterPair>)
    ensures Withdrawals([p] + rest, listener, rejects)
            == [Unregister(Registration(p, listener), p !in rejects)] + Withdrawals(rest, listener, rejects)
  {
    if rest == [] {
      assert [p] + rest == [p];
      assert [p][..0] == [];
    } else {
      var init := rest[..|rest| - 1];
      assert ([p] + rest)[..|[p] + rest| - 1] == [p] + init;
      WithdrawalsPrepend(p, init, listener, rejects);
    }
  }
}
