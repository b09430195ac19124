# up-streamer forwarding core in Dafny

This project models the forwarding-rule control plane and data plane of
`UStreamer`, the uProtocol streamer. A forwarding rule connects an ingress
endpoint to an egress endpoint. Each endpoint is an authority name plus a
transport.

- **Rule set.** The streamer keeps the set of rule tuples
  `(in authority, out authority, in transport, out transport)`. Transports
  are compared by identity.
- **Egress pool.** There is one queue, with its worker, per out transport.
  A reference count says how many rules use it.
- **Ingress registry.** There is one forwarding listener per
  `(in transport, in authority, out authority)`, also reference counted.
  - When a listener is created, it is registered on the in transport for the
    request/notification filter pair and for one publish source filter per
    subscriber topic of the route.
  - If any registration is refused, every pair registered so far is
    unregistered again.
- **Routing rule.** This turns the subscription cache into deduplicated
  publish source filters.
- **Small sequential pieces:**
  - the listener's shared-memory filter;
  - the egress worker's send loop;
  - the runtime thread-name sanitiser.
- **Two utilities from the same repository:**
  - the static-file uSubscription backend;
  - the smoke suite's claim evaluator.

The streamer's central invariant is `Streamer.UStreamer.Valid`. The pool's
counts are exactly the number of registered rules per out transport, and the
registry's counts are exactly the number of registered rules per listener key
(`RefCount.Tally`). Adding a rule, deleting it, and the roll-back of a failed
add all preserve it.

## Representing the collaborators

- **Transports.** A transport is a class, so reference equality is
  `Arc::ptr_eq`, which is what `ComparableTransport` and
  `TransportIdentityKey` compare.
  - The transport's answers are fixed sets: the filter pairs it refuses to
    register, the pairs it refuses to unregister, and the messages it fails
    to send.
  - Every `register_listener` and `unregister_listener` call is appended to
    a ghost log. The registrations in force are the log replayed into a
    multiset (`Transports.Replay`).
- **Queues.** A broadcast sender is a `Channel` whose queue is a sequence.
  A send succeeds while a receiver exists.
- **Fixed answers.** A transport's answer to a call depends only on its
  arguments: two equal messages always get the same `send` result. A real
  transport can fail once and succeed later; no property proved here
  depends on that difference.
- **Subscription cache.** It is a given map from egress authority to its
  subscriptions. `UUri::try_from_parts` is a validity predicate passed as a
  parameter. `UUri::from_str` is a partial function passed as a parameter.
- **Files and JSON.** File reading and JSON parsing are an input `Json`
  value, or the status that reading would have produced.
- **Regex matching.** It is a function giving the texts of the matches.
- **Iteration order.** `HashMap` and `HashSet` iteration orders are modelled
  as insertion order. The roll-back unregisters pairs in the order they were
  registered.

## Model

| member | source | states |
|---|---|---|
| UProtocol.UAuthorityToUuri | up-streamer/src/ustreamer.rs:35-43 | the filter has the given authority, ue_id 0xFFFF_FFFF, major version 0xFF and resource_id 0xFFFF |
| UProtocol.UAuthorityToUuriInjective | up-streamer/src/ustreamer.rs:35-43 | two authorities give the same filter exactly when they are equal |
| UProtocol.TryFromParts | up-streamer/src/routing/publish_resolution.rs:43-49 | a URI is built exactly when the parts validate, and it carries the given authority, entity, version and resource |
| UProtocol.UEntityMajorVersion | up-streamer/src/routing/publish_resolution.rs:46 | the 8-bit major version equals the stored version whenever that fits in 8 bits |
| UProtocol.ResourceIdU16 | up-streamer/src/routing/publish_resolution.rs:47 | the 16-bit resource id equals the stored resource whenever that fits in 16 bits |
| UProtocol.EnumValueOrDefault | up-streamer/src/data_plane/ingress_listener.rs:38-39 | a known payload format reads as itself; an unknown number reads as UNSPECIFIED |
| RouteTable.BuildForwardingRuleIdentity | up-streamer/src/control_plane/route_table.rs:9-16 | two rules are equal exactly when both authorities and both transport identities agree, so endpoint names never matter |
| RouteTable.BuildForwardingRuleDirected | up-streamer/src/control_plane/route_table.rs:9-16 | swapping in and out, with distinct authorities, gives a different rule |
| RouteLifecycle.InsertForwardingRule | up-streamer/src/control_plane/route_lifecycle.rs:9-15 | reports true exactly when the rule was absent; afterwards the set is the old set plus the rule |
| RouteLifecycle.RemoveForwardingRule | up-streamer/src/control_plane/route_lifecycle.rs:17-23 | reports true exactly when the rule was present; afterwards the set is the old set minus the rule, so a second remove reports false and changes nothing |
| RouteLifecycle.InsertThenRemoveRestores | up-streamer/src/control_plane/route_lifecycle.rs:9-23 | inserting an absent rule and removing it restores the set |
| RefCount.AcquireEffect | up-streamer/src/data_plane/egress_pool.rs:40-49 | an insert keeps all counts positive, adds the key with count 1 or raises its count by one, and leaves every other key alone |
| RefCount.ReleaseEffect | up-streamer/src/data_plane/egress_pool.rs:58-77 | a remove leaves an unknown key alone, drops the key exactly when its count was 1, otherwise lowers it by one, and leaves every other key alone |
| RefCount.AcquireThenRelease | up-streamer/src/data_plane/egress_pool.rs:32-78 | an insert followed by a remove of the same key restores the counts |
| RefCount.TallyPositive | up-streamer/src/data_plane/ingress_registry.rs:203-210 | the per-key number of rules is never zero for a key present |
| RefCount.TallyAdd | up-streamer/src/ustreamer.rs:150-177 | adding a rule to the set acquires its key once in the per-key tally |
| RefCount.TallyRemove | up-streamer/src/ustreamer.rs:209-227 | removing a rule from the set releases its key once in the per-key tally |
| EgressPool.RemovedInserted | up-streamer/src/data_plane/egress_pool.rs:32-78 | insert then remove of one transport gives back the same pool: the same transports, counts and queues |
| EgressPool.TransportForwarders.constructor | up-streamer/src/data_plane/egress_pool.rs:25-30 | the pool starts empty with the given queue size |
| EgressPool.TransportForwarders.Insert | up-streamer/src/data_plane/egress_pool.rs:32-51 | the same queue is reused for a known transport and a fresh queue of the configured size is opened for a new one; the count rises by one; other transports are untouched |
| EgressPool.TransportForwarders.Remove | up-streamer/src/data_plane/egress_pool.rs:53-78 | an unknown transport is a no-op; otherwise the count falls by one and the entry is dropped exactly at zero; other transports are untouched |
| Transports.RegistrationsIndex | up-streamer/src/data_plane/ingress_registry.rs:112-118 | the i-th registration of a listener's pairs is the i-th pair with that listener |
| Transports.RegistrationsAppend | up-streamer/src/data_plane/ingress_registry.rs:165-199 | the registrations of two batches of pairs are the batches' registrations concatenated |
| Transports.ReplayAppend | up-streamer/src/data_plane/ingress_registry.rs:112-199 | replaying two batches of calls is replaying the second after the first |
| Transports.Transport.RegisterListener | up-streamer/src/data_plane/ingress_registry.rs:112-118 | the call succeeds exactly when the transport accepts the pair, and it is appended to the transport's call log |
| Transports.Transport.UnregisterListener | up-streamer/src/data_plane/ingress_registry.rs:124-131 | the call succeeds exactly when the transport accepts it, and it is appended to the call log |
| Transports.Transport.Send | up-streamer/src/data_plane/egress_worker.rs:54 | every message is attempted; it is delivered exactly when the transport accepts it |
| Transports.Channel.Send | up-streamer/src/data_plane/ingress_listener.rs:51 | the message is enqueued, unchanged, exactly when a receiver exists |
| PublishResolution.LookupRouteSubscribers | up-streamer/src/routing/subscription_directory.rs:22-40 | the subscriptions of the egress authority's cache entry; an authority without an entry reads as no subscribers |
| PublishResolution.TopicMatchesIngressAuthority | up-streamer/src/routing/publish_resolution.rs:20-22 | a wildcard topic always matches; any other topic matches exactly when its authority is the ingress authority |
| PublishResolution.ConcreteTopicMatchesOneIngress | up-streamer/src/routing/publish_resolution.rs:20-22 | a topic matches two different ingress authorities exactly when its authority is `*` |
| PublishResolution.DeriveSourceFilterForTopic | up-streamer/src/routing/publish_resolution.rs:25-63 | a topic whose authority is neither `*` nor the ingress authority yields nothing; a matching topic yields a filter exactly when try_from_parts validates it, and the filter has the ingress authority and the topic's entity, version and resource |
| PublishResolution.DeriveSourceFilterIgnoresEgress | up-streamer/src/routing/publish_resolution.rs:25-63 | the egress authority never changes the result |
| PublishResolution.SourceFiltersAuthority | up-streamer/src/routing/publish_resolution.rs:66-86 | every derived filter has the ingress authority |
| PublishResolution.SourceFiltersDistinct | up-streamer/src/routing/publish_resolution.rs:66-86 | the filters are pairwise distinct and at most one per subscriber |
| PublishResolution.SourceFiltersComplete | up-streamer/src/routing/publish_resolution.rs:66-86 | a URI is derived exactly when some subscriber's topic yields it |
| PublishResolution.DeriveSourceFilters | up-streamer/src/routing/publish_resolution.rs:66-86 | the loop computes the deduplicated filters of the lookup, keeping the first filter seen for each URI |
| IngressListener.IsSharedMemory | up-streamer/src/data_plane/ingress_listener.rs:38-40 | a payload-format number the enum does not name is never taken for shared memory |
| IngressListener.SharedMemoryExactly | up-streamer/src/data_plane/ingress_listener.rs:38-40 | a message counts as shared memory exactly when its payload format is UPAYLOAD_FORMAT_SHM |
| IngressListener.ForwardingListener.constructor | up-streamer/src/data_plane/ingress_listener.rs:19-24 | the listener keeps the given forwarding id and sender |
| IngressListener.ForwardingListener.OnReceive | up-streamer/src/data_plane/ingress_listener.rs:29-57 | a shared-memory message is dropped; any other message is enqueued once, unchanged, if the queue has a receiver; nothing fails |
| EgressWorker.ReceivedPrefix | up-streamer/src/data_plane/egress_worker.rs:46 | at most one message is handled per receive result, and when handling stops early the next result is a receive error |
| EgressWorker.ReceivedPrefixReceived | up-streamer/src/data_plane/egress_worker.rs:46 | the messages handled are the received ones before the first receive error, in order |
| EgressWorker.ReceivedPrefixStops | up-streamer/src/data_plane/egress_worker.rs:46 | the loop ends exactly at the first receive error, or when the input is exhausted |
| EgressWorker.AcceptedAppend | up-streamer/src/data_plane/egress_worker.rs:54-68 | the delivered messages of two batches are the two batches' deliveries concatenated |
| EgressWorker.AcceptedKeepsLater | up-streamer/src/data_plane/egress_worker.rs:55-68 | a refused message does not stop later messages from being delivered |
| EgressWorker.MessageForwardingLoop | up-streamer/src/data_plane/egress_worker.rs:41-70 | every received message is sent once, in queue order, and exactly the accepted ones are delivered; a failed send does not stop the loop |
| IngressRegistry.RequestPair | up-streamer/src/data_plane/ingress_registry.rs:104-110 | the request pair is (the in authority's filter, Some(the out authority's filter)) |
| IngressRegistry.PublishPairsIndex | up-streamer/src/data_plane/ingress_registry.rs:171-172 | each publish filter is registered with no sink filter |
| IngressRegistry.ListenerPairsWithoutSubscribers | up-streamer/src/routing/subscription_directory.rs:35-38 | when the egress authority has no cache entry, the listener is registered for the request pair only |
| IngressRegistry.ListenerPairsShape | up-streamer/src/data_plane/ingress_registry.rs:104-199 | the request pair comes first; every later pair has no sink and the in authority; all pairs are distinct, so the roll-back set holds each once |
| IngressRegistry.FirstRejected | up-streamer/src/data_plane/ingress_registry.rs:112-197 | the index of the first pair the transport refuses: every earlier pair is accepted |
| IngressRegistry.UnregisteredSplit | up-streamer/src/data_plane/ingress_registry.rs:179-193 | each registration of the rolled-back pairs is either removed or, if the transport refuses to unregister it, left over |
| IngressRegistry.LeftoverNone | up-streamer/src/data_plane/ingress_registry.rs:179-193 | nothing is left over when the transport accepts every unregistration |
| IngressRegistry.ReplayAttempts | up-streamer/src/data_plane/ingress_registry.rs:112-199 | accepted registrations add exactly the listener's registrations of those pairs |
| IngressRegistry.ReplayWithdrawals | up-streamer/src/data_plane/ingress_registry.rs:250-291 | unregistering removes exactly the registrations the transport agrees to remove |
| IngressRegistry.RegisterThenUnregisterRestores | up-streamer/src/data_plane/ingress_registry.rs:104-291 | registering a listener's pairs and later unregistering them all restores the transport's registrations when nothing is refused |
| IngressRegistry.RollbackLeavesLeftover | up-streamer/src/data_plane/ingress_registry.rs:171-197 | after a refused publish registration, the roll-back leaves only the registrations the transport refused to withdraw |
| IngressRegistry.RollbackRequestRestores | up-streamer/src/data_plane/ingress_registry.rs:112-140 | after a refused request registration, the roll-back leaves the transport's registrations as they were |
| IngressRegistry.UnregisterAll | up-streamer/src/data_plane/ingress_registry.rs:179-193 | the roll-back loop unregisters every pair once, in order, whatever the transport answers |
| IngressRegistry.ForwardingListeners.constructor | up-streamer/src/data_plane/ingress_registry.rs:67-71 | the registry starts empty |
| IngressRegistry.ForwardingListeners.Insert | up-streamer/src/data_plane/ingress_registry.rs:73-212 | a known key gains a use, returns Ok(None) and makes no transport call; a new key's listener is registered for every pair and stored with count 1; after a refused request or publish registration, the registered pairs are unregistered, nothing is stored and the matching error is returned; counts follow Acquire on success |
| IngressRegistry.RegisterRoute | up-streamer/src/data_plane/ingress_registry.rs:104-201 | the calls made for a new listener: register the request pair then each publish pair, stopping at the first refusal and unregistering what was registered, with the error naming the refused pair |
| IngressRegistry.RegisterPublish | up-streamer/src/data_plane/ingress_registry.rs:165-201 | the publish loop registers filters in order; on the first refusal it unregisters the request pair and the earlier filters and reports the refused filter |
| IngressRegistry.ForwardingListeners.Remove | up-streamer/src/data_plane/ingress_registry.rs:214-296 | an unknown key is a no-op; otherwise the count falls by one; only at zero is the entry dropped and every pair unregistered, failures ignored |
| IngressRegistry.UnregisterRoute | up-streamer/src/data_plane/ingress_registry.rs:246-291 | the request pair then each publish pair is unregistered once, in order |
| Streamer.StreamerSubscriberUri | up-streamer/src/ustreamer.rs:65-71 | the subscriptions are fetched for authority `*`, ue_id 0x0000_FFFF, major 0xFF, resource 0xFFFF |
| Streamer.DebugString | up-streamer/src/ustreamer.rs:112 | an authority is rendered between double quotes |
| Streamer.ForwardingId | up-streamer/src/ustreamer.rs:110-115 | the forwarding id is a bracketed, non-empty string |
| Streamer.OutTransportOf | up-streamer/src/ustreamer.rs:162-165 | a rule's pool key is its out transport |
| Streamer.ListenerKeyOf | up-streamer/src/ustreamer.rs:167-176 | a rule's registry key is its in transport with both authorities |
| Streamer.ListenerKeyIgnoresOutTransport | up-streamer/src/data_plane/ingress_registry.rs:85-95 | two rules share a listener exactly when in transport and both authorities agree, so a rule differing only in its out transport reuses the existing listener |
| Streamer.UStreamer.constructor | up-streamer/src/ustreamer.rs:98-106 | the rule set, pool and registry start empty and the invariant holds |
| Streamer.UStreamer.New | up-streamer/src/ustreamer.rs:54-107 | fails with INVALID_ARGUMENT exactly when the cache cannot be built; otherwise the name is tagged and everything starts empty |
| Streamer.UStreamer.AddForwardingRule | up-streamer/src/ustreamer.rs:133-190 | equal authorities give INVALID_ARGUMENT and an existing rule gives ALREADY_EXISTS, both with no state change; success adds the rule and acquires the pool and listener counts; a refused listener registration gives INVALID_ARGUMENT with the rule set and pool as before; the invariant is kept |
| Streamer.UStreamer.AttachRoute | up-streamer/src/ustreamer.rs:162-187 | after a new rule: succeeds exactly when the route's listener already exists or every pair of the route is accepted; success acquires one use of the queue and of the listener; failure is INVALID_ARGUMENT and drops the rule and leaves the pool and registry exactly as before |
| Streamer.UStreamer.DeleteForwardingRule | up-streamer/src/ustreamer.rs:192-230 | equal authorities give INVALID_ARGUMENT and an absent rule gives NOT_FOUND, both with no state change; otherwise the rule is removed and the pool and listener counts released; the invariant is kept |
| WorkerRuntime.Utf8LenBounds | up-streamer/src/runtime/worker_runtime.rs:13 | a string's byte length lies between its length and four times that, and is zero only for the empty string |
| WorkerRuntime.Utf8LenAscii | up-streamer/src/runtime/worker_runtime.rs:10 | an ASCII string takes one byte per character, which puts the default name within the limit |
| WorkerRuntime.SanitizeRuntimeThreadName | up-streamer/src/runtime/worker_runtime.rs:9-18 | the result is non-empty and at most 15 bytes; a non-empty name of at most 15 bytes is kept; any other result is the default name |
| WorkerRuntime.SanitizeIdempotent | up-streamer/src/runtime/worker_runtime.rs:12-18 | sanitising twice is sanitising once |
| WorkerRuntime.SanitizeKeepsExactlyValidNames | up-streamer/src/runtime/worker_runtime.rs:12-18 | a name is kept exactly when it is non-empty and at most 15 bytes |
| StaticSubscriptions.WithStaticResource | utils/usubscription-static-file/src/lib.rs:106-109 | the topic keeps its authority, entity and version, and its resource id becomes 0x8001 |
| StaticSubscriptions.DedupMembership | utils/usubscription-static-file/src/lib.rs:135-145 | deduplication keeps exactly the elements of the input |
| StaticSubscriptions.DedupDistinct | utils/usubscription-static-file/src/lib.rs:135-145 | deduplication leaves no element twice |
| StaticSubscriptions.StaticSubscriptionsProperties | utils/usubscription-static-file/src/lib.rs:85-150 | every served topic has resource id 0x8001; no subscription is served twice; a subscription is served exactly when some entry of the file yields it |
| StaticSubscriptions.StaticSubscriptionsComplete | utils/usubscription-static-file/src/lib.rs:97-146 | a string entry that parses, under a key that parses with an array value, is served with the topic's resource id replaced |
| StaticSubscriptions.ParseStaticSubscriptions | utils/usubscription-static-file/src/lib.rs:85-150 | a read error is passed on; a non-object top level is INVALID_ARGUMENT; otherwise the result is the deduplicated subscriptions, with unparsable keys, non-array values and bad entries skipped |
| StaticSubscriptions.CollectSubscriptions | utils/usubscription-static-file/src/lib.rs:116-146 | the inner loop adds each parsable subscriber under the topic unless that pair is already held |
| StaticSubscriptions.SubscribersOfMembership | utils/usubscription-static-file/src/lib.rs:214-232 | a subscriber is selected exactly when it has a subscription to the topic |
| StaticSubscriptions.SubscribersForProperties | utils/usubscription-static-file/src/lib.rs:207-232 | a subscriber is served exactly when it subscribes to the canonical topic, and is served once |
| StaticSubscriptions.SubscribersForIgnoresResource | utils/usubscription-static-file/src/lib.rs:207-209 | requests that differ only in resource id are answered alike |
| StaticSubscriptions.FetchSubscribers | utils/usubscription-static-file/src/lib.rs:196-238 | no topic is INVALID_ARGUMENT, checked before the file; file errors are passed on; otherwise the distinct subscribers of the canonical topic |
| StaticSubscriptions.FetchSubscriptions | utils/usubscription-static-file/src/lib.rs:162-175 | succeeds exactly when the file holds an object, and then serves the parsed subscriptions, each with resource id 0x8001 |
| StaticSubscriptions.ConstantResult | utils/usubscription-static-file/src/lib.rs:155-192 | subscribe and unsubscribe, and only those, are UNIMPLEMENTED; notification registration, unregistration and reset (lines 240-242) succeed |
| Claims.MustMatchTemplate | utils/transport-smoke-suite/src/claims.rs:43-58 | a must_match template has kind MustMatch and keeps its fields and threshold |
| Claims.MustNotMatchTemplate | utils/transport-smoke-suite/src/claims.rs:60-74 | a must_not_match template has kind MustNotMatch and threshold Fixed(0) |
| Claims.ResolveThreshold | utils/transport-smoke-suite/src/claims.rs:137-147 | each named selector reads its own configured count; Fixed(v) gives v |
| Claims.Materialize | utils/transport-smoke-suite/src/claims.rs:126-133 | a template becomes the claim with the same id, category, kind, file and pattern and its resolved minimum count |
| Claims.MaterializeClaims | utils/transport-smoke-suite/src/claims.rs:120-135 | one claim per template, in order, copying id, category, kind, file and pattern, with the resolved minimum count |
| Claims.Passes | utils/transport-smoke-suite/src/claims.rs:203-206 | a required pattern passes exactly when the count reaches the minimum; a forbidden one exactly when the count is zero |
| Claims.EvaluateClaim | utils/transport-smoke-suite/src/claims.rs:156-220 | an unreadable file or invalid pattern fails with no match and an error; otherwise the count is the number of matches and MustMatch passes iff the count reaches the minimum, MustNotMatch iff it is zero; the count is zero iff there is no first match |
| Claims.MustNotMatchPassesIffAbsent | utils/transport-smoke-suite/src/claims.rs:60-74 | a forbidden-pattern claim passes exactly when the file was read, the pattern compiled and nothing matched |
| Claims.EvaluateClaims | utils/transport-smoke-suite/src/claims.rs:149-154 | one outcome per claim, in order |
| Claims.NatToString | utils/transport-smoke-suite/src/claims.rs:231-238 | a count is rendered as its decimal digits: non-empty, no leading zero, and denoting the count |
| Claims.NatToStringInjective | utils/transport-smoke-suite/src/claims.rs:231-238 | different counts are rendered differently |
| Claims.FailureReason | utils/transport-smoke-suite/src/claims.rs:231-238 | the reason starts with `claim '` and the claim id and ends with `')` |
| Claims.FirstFailureNoneIffAllPass | utils/transport-smoke-suite/src/claims.rs:229-239 | there is no failure reason exactly when every outcome passes |
| Claims.FirstFailureIsFirst | utils/transport-smoke-suite/src/claims.rs:229-239 | the reported outcome fails and every earlier outcome passed |
| Claims.OfKindPartition | utils/transport-smoke-suite/src/claims.rs:241-245 | the two lists together hold exactly the input outcomes |
| Claims.OfKindLengths | utils/transport-smoke-suite/src/claims.rs:241-245 | the two lengths add up to the input length |
| Claims.OfKindKinds | utils/transport-smoke-suite/src/claims.rs:241-245 | the forbidden list holds only MustNotMatch outcomes and the must list only MustMatch ones |
| Claims.SplitClaimOutcomes | utils/transport-smoke-suite/src/claims.rs:222-249 | the loop produces both lists in their original order and the reason of the first failing outcome |

## Left out

- Logging (`tracing`), the text of every `UStatus` message and the `Display` and `Debug` output of `ForwardingListenerError` are not modelled. A status is its code.
- Streamer.DebugString: escaping of quotes and control characters inside an authority, as `{:?}` does it, is not modelled.
- Concurrency is not modelled: the `tokio` mutexes are plain sequential state.
- Thread and runtime creation is not modelled:
  - `TransportForwarder::new`;
  - `spawn_route_dispatch_loop`;
  - the zenoh plugin;
  - the `block_in_place` bridge in `subscription_runtime`.
- A new pool entry's worker is not started in the model. The egress loop is modelled on its own, over a given sequence of receive results.
- Broadcast-channel capacity and lag are not modelled. A send succeeds exactly when a receiver exists, and a lag ends the loop like any other receive error. The queue size is only recorded.
- A queue that loses its receiver is not modelled. The worker holds the only receiver, so once its loop ends (for instance on a lag) every later listener send fails with only a warning, while the pool entry stays counted. The model never clears a channel's receiver.
- The subscription cache (`SubscriptionCache`, with its wildcard lookup) is not part of this model. It is a fixed map given to the streamer when it is built.
- Streamer.UStreamer.New: the fetch from the uSubscription service and the cache construction are one parameter; only whether the cache could be built is modelled.
- The validation rules of `UUri::try_from_parts` and `UUri::from_str` are parameters. `TransportIdentityKey` is not part of this model; it is taken to compare by pointer, like `ComparableTransport`.
- Iteration order of `HashMap` and `HashSet` is modelled as insertion order. This covers:
  - the roll-back set;
  - the deduplicated filters;
  - the subscriptions and subscribers returned by the static backend.

  The membership and distinctness lemmas do not depend on that order.
- Streamer.UStreamer.AddForwardingRule: what the transport's registrations are after the call is stated for the registry (`IngressRegistry.ForwardingListeners.Insert`), not repeated at the streamer level.
- File reading, path canonicalisation and JSON parsing in the static backend are an input value. A JSON object's members are a sequence in iteration order.
- A subscription built by the static backend always has a topic and a subscriber. The backend's branches that skip a subscription without them are therefore not modelled.
- Regex compilation and matching in the claim evaluator are inputs. The text of an evaluation error is not modelled; only its cause is.
- The smoke-suite binaries and tests, the API facade and the module files are not part of this model.
