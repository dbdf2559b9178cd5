# OpenChirp managed-service framework — a Dafny model

This project models the core of the OpenChirp service framework (Go): the
**managed-service device link manager** and the small helpers it depends on.

- **ServiceManaged** (`service_managed.dfy`, from `service_managed.go`) is the
  link manager. It takes Add, Update and Remove updates one at a time. It keeps
  one `DeviceState` per linked device id: the device's topic, its Device object
  (known by its creation number), its config and its subscriptions. For each
  update it chooses one of five outcomes: link, incremental config change,
  forced relink (unlink then link), no-op or unlink. It also keeps the bounded
  cache of `DeviceControl` handles. The application's Device callbacks and the
  transport are observed through an appended event log. The callbacks'
  answers are the functions of an `Application` value.
- **ConfigDiff** (`config_diff.dfy`) models `configChanges`. The method mirrors
  the source's two loops, and `Changes` is a reference definition.
- **Service** (`service.dfy`, from `service.go`) models the update adapter:
  - the action tag to update kind mapping;
  - the snapshot preload;
  - dropping undecodable events;
  - the failure paths of `StartDeviceUpdates`;
  - `GetProperty`;
  - the status topics.
- **RestService** (`rest_service.dfy`, from `rest/service.go`) models
  `GetConfigMap` (the last pair for a key wins) and `GetID`.
- **PubSubBridge** (`pubsub_bridge.dfy`, from `pubsub/bridge.go`) models the
  per-device table of bridged topics:
  - insertion without duplicates;
  - committing only when the subscription succeeds;
  - removing everything.
- **MqttClient** (`mqtt_client.dfy`, from `pubsub/mqttclient.go`) models
  `ParseMQTTQoS` and the table of subscribed topics kept for resubscription.
- **Wrappers** (`wrappers.dfy`) holds `Option` and `Outcome`. `Outcome` is a Go
  `error` value: nil, or an error with a message.

Design choices:

- The source keeps `*deviceState` pointers and updates `config` and `subs` in
  place. Here the manager's `devices` map holds `DeviceState` values, and a
  field changes by replacing the record.
- A `DeviceControl` names its state by device id and Device creation number.
  `ServiceManager.Valid` proves that this pair identifies one state, and that
  every cached control is bound to the state currently in the table. So a
  control regenerated after an eviction equals the one evicted. The accessors
  `Id()` and `Config()` (service_managed.go:343-350) are the control's `id`
  field and `ServiceManager.ControlConfig`.
- The `DeviceControl` pubsub methods (service_managed.go:357-374) delegate to
  the manager's device-scoped methods. Those take the device id in place of
  the state pointer.
- `DeviceUpdate` carries the device's topic. `runtime` reads `update.Topic`
  (service_managed.go:45), but the declared struct has no such field
  (service.go:76-80). The adapter takes the topic from a `deviceTopic`
  function parameter.
- Three calls in service_managed.go do not match the declarations in
  service.go:233-247. `m.c.Unsubscribe(topics...)` (lines 197 and 211) passes
  a list, but `Unsubscribe` takes one topic. `m.c.Subscribe` (line 222) passes
  a two-argument handler, but `ServiceTopicHandler` takes three. `m.c.Publish`
  (line 243) passes any value, but `Publish` takes bytes. The model follows
  the evident intent: one unsubscribe of the whole list, a plain subscribe
  with that handler, and a publish of the payload.
- The manager reports a device's status through the service client's
  `SetDeviceStatus` (service_managed.go:138, 157). The model appends a
  `Status` event to the manager's log. That event carries
  `DeviceStatusPublication`, the same function that specifies
  `ServiceClient.SetDeviceStatus`.
- The Go `select` loop is replaced by `ServiceManager.Run`, which folds over
  the sequence of updates.
- A Go map's iteration order is arbitrary. The unsubscribe-all list is
  therefore specified by `Enumerates`: each subscribed topic exactly once, in
  some order.
- An undecodable live event is logged and dropped (service.go:162-166): it
  never reaches the updates channel.
- The example at example_service_managed_counter_test.go:60-62 says that no
  new Device is created on relink. The code does create one
  (service_managed.go:129-133 reaches 146). The model follows the code: a
  relink always increments `instances`.

## Model

| member | source | states |
|---|---|---|
| RestService.ServiceDeviceListItem.GetID | rest/service.go:52-54 | the id is returned unchanged |
| RestService.ServiceDeviceListItem.GetConfigMap | rest/service.go:56-62 | the loop builds exactly `ConfigMap(config)`, the pairs applied in order |
| RestService.ConfigMapKeys | rest/service.go:56-62 | the map's keys are exactly the set of keys named in the list; the map is empty iff the list is |
| RestService.ConfigMapLastWins | rest/service.go:58-60 | for a key named more than once, the last occurrence's value is kept |
| ConfigDiff.ConfigChanges | service_managed.go:406-426 | the two loops compute the reference diff `Changes`: new or changed keys carry their new value, vanished keys carry "", and the flag is true iff a key vanished |
| ConfigDiff.SelfDiffIsEmpty | service_managed.go:406-426 | diffing a config with itself gives no changes and no missing key |
| ConfigDiff.EmptyDiffIffEqual | service_managed.go:406-426 | the diff is empty and complete exactly when the two configs are equal |
| ConfigDiff.MissingKeyReported | service_managed.go:419-423 | a key of the original missing from the new config raises the flag and is reported with "" |
| ConfigDiff.ChangesWithoutMissingKeys | service_managed.go:410-419 | without missing keys, the changes are exactly the new config's keys whose value is new or different, each with its new value |
| Service.ActionType | service.go:168-175 | "delete" is the only Remove and "update" the only Update; "new" and every other tag give Add, the zero value |
| Service.DecodeEvent | service.go:157-178 | an undecodable payload yields no update; otherwise the update has the action's kind, the device id and the device's config map |
| Service.PreloadUpdates | service.go:194-201 | one Add per listed device, in list order, with its config map |
| Service.StatusTopic | service.go:130 | the node topic followed by "/status" |
| Service.DeviceStatusTopic | service.go:142 | the node topic followed by "/thing/status" |
| Service.EventsTopic | service.go:156 | the node topic followed by "/thing/events" |
| Service.ServiceTopicsDistinct | service.go:18-20 | the three topics under one node are pairwise different |
| Service.ServiceClient.GetProperty | service.go:256-262 | the stored value when the key is present, "" otherwise |
| Service.ServiceClient.SetStatus | service.go:123-131 | one publication of the service status on the status topic |
| Service.ServiceClient.SetDeviceStatus | service.go:134-143 | one publication of the device's status on the device status topic |
| Service.ServiceClient.StartDeviceUpdates | service.go:148-212 | a failed subscription closes the queue; a failed snapshot also unsubscribes and drops the queue; neither returns a channel; on success the channel starts with the snapshot's Add updates |
| Service.ServiceClient.DeliverEvent | service.go:157-180 | a live update goes behind everything already on the channel, so the snapshot prefix is kept; an undecodable payload adds nothing |
| ServiceManaged.FullTopic | service_managed.go:220 | the device topic, then "/", then the subtopic |
| ServiceManaged.FullTopicInjective | service_managed.go:220 | under one device topic, distinct subtopics give distinct full topics, so each subscription key belongs to one subtopic |
| ServiceManaged.TrimPrefix | service_managed.go:224 | with the prefix present, prefix + result is the topic; otherwise the topic is unchanged |
| ServiceManaged.DeliveredSubtopic | service_managed.go:220-224 | a message on a subscribed topic reports "/" + subtopic, because only the device topic is trimmed |
| ServiceManaged.EnumerationIsListing | service_managed.go:192-197 | the unsubscribe-all list holds exactly the subscribed topics, each once |
| ServiceManaged.FlattenTopics | service_managed.go:192-195 | the flat list enumerates the subscription map's keys |
| ServiceManaged.ReplayLastUpdateWins | service_managed.go:38-46 | after a run of updates, the last update naming a device decides it: unlinked after Remove, otherwise linked with that update's config |
| ServiceManaged.ReplayUntouched | service_managed.go:38-46 | a device no update names keeps its link state and config |
| ServiceManaged.ConsistentWithout | service_managed.go:174-178 | dropping an id from the cache, and from the table when unlinking, keeps every cached control bound to its current state |
| ServiceManaged.ConsistentCaching | service_managed.go:80-88 | caching the control generated for a linked state keeps the cache consistent |
| ServiceManaged.ServiceManager.SameConfigIsNoOp | service_managed.go:106-110 | an update to the config a device already has neither relinks nor produces any event |
| ServiceManaged.ServiceManager.MissingKeyRelinks | service_managed.go:96-103 | a missing key always relinks: unlink with the original config, then link of the next Device object |
| ServiceManaged.ServiceManager.RelinkIsUnlinkThenLink | service_managed.go:96-134 | every relink ends with unlink (original config), unsubscribe, link (new config) and status; an update that does not relink neither unlinks nor links |
| ServiceManaged.ServiceManager.constructor | service_managed.go:274-280 | the manager starts with no device, an empty cache and no Device object created |
| ServiceManaged.ServiceManager.ControlConfig | service_managed.go:348-350 | a live control reports the config its device has in the table now |
| ServiceManaged.ServiceManager.CacheGet | service_managed.go:65-74 | a hit iff the id is cached, and a hit is bound to the device's current state |
| ServiceManaged.ServiceManager.CacheAdd | service_managed.go:61-63 | the control is cached and other entries are kept, except that when the cache is full and the id is new exactly one other entry is evicted, so the size stays the same; the cache never grows past its capacity of 100 |
| ServiceManaged.ServiceManager.CacheRemove | service_managed.go:76-78 | exactly the device's entry is dropped |
| ServiceManaged.ServiceManager.CacheProvide | service_managed.go:80-88 | the cached control, or a new one cached, bound to the device's current state; a cached control is returned without change to the cache |
| ServiceManaged.ServiceManager.DeviceUnsubscribeAll | service_managed.go:190-200 | one unsubscribe listing every subscribed topic once; the subscriptions become empty |
| ServiceManaged.ServiceManager.DeviceUnsubscribe | service_managed.go:203-212 | each caller's entry is rewritten in place to its full topic; exactly those topics leave the subscriptions; they are unsubscribed in one call |
| ServiceManaged.ServiceManager.DeviceSubscribe | service_managed.go:219-238 | the first subscription to a full topic subscribes and records its key; a repeat changes nothing |
| ServiceManaged.ServiceManager.DevicePublish | service_managed.go:241-244 | one publication on the device's full topic |
| ServiceManaged.ServiceManager.DeliverMessage | service_managed.go:222-235 | the device's message callback gets the subscription's key, the trimmed topic and the payload, with its cached control |
| ServiceManaged.ServiceManager.RemoveDevice | service_managed.go:162-180 | a linked device: unlink with its config, one unsubscribe of all its topics, its state leaves the table and its control the cache; an unknown id changes nothing |
| ServiceManaged.ServiceManager.LinkDevice | service_managed.go:139-158 | exactly one new state with the given id, topic and config, empty subscriptions and a new Device object; one link, then its status |
| ServiceManaged.ServiceManager.Relink | service_managed.go:96-103 | unlink then link afresh, with a new Device object, the new config and no subscriptions |
| ServiceManaged.ServiceManager.RefuseChange | service_managed.go:121-134 | the unlink sees the original config; then a new Device object is linked with the new config |
| ServiceManaged.ServiceManager.ChangeConfig | service_managed.go:112-138 | ProcessConfigChange sees the new config, the changes and the original; on ack the new config stays and its status is reported; on refusal unlink then relink |
| ServiceManaged.ServiceManager.UpdateDevice | service_managed.go:93-138 | the events are `UpdateEvents`; a relink leaves a fresh state with the new config; otherwise the state keeps its Device object and takes the new config; an unchanged config leaves the cache untouched |
| ServiceManaged.ServiceManager.AddUpdateDevice | service_managed.go:92-159 | an unknown id is linked; a known one is updated; either way the table's entry ends with the new config and nothing else in the table changes |
| ServiceManaged.ServiceManager.ProcessUpdate | service_managed.go:38-46 | the config table changes as `ApplyUpdate` says; a Remove of a linked id logs Unlink with its config and one Unsubscribe of all its topics and drops its state, and of an unknown id changes nothing; Add and Update, under one clause, link an unknown id (a fresh state, empty subscriptions, `LinkEvents`) or update a linked one (`UpdateEvents`; a relink leaves a fresh state with no subscriptions, otherwise the state keeps its Device object and takes the new config); no other device's state changes |
| ServiceManaged.ServiceManager.RepeatedAddLinksOnce | service_managed.go:92-110 | the same Add delivered twice links the device once: the log gains only `LinkEvents`, and the second delivery changes nothing |
| ServiceManaged.ServiceManager.Run | service_managed.go:36-50 | after a sequence of updates, the config table is `Replay` of them; the manager's invariant is kept |
| PubSubBridge.Appended | pubsub/bridge.go:82-84 | the topic is in the list afterwards; nothing else is added, and the list grows only when the topic was absent |
| PubSubBridge.AppendedNoDup | pubsub/bridge.go:82-84 | marking a topic down never creates a duplicate |
| PubSubBridge.AppendedIdempotent | pubsub/bridge.go:82-84 | marking the same topic down twice is marking it down once |
| PubSubBridge.WithLink | pubsub/bridge.go:81-84 | the direction's list gets the topic and the other direction's list is kept |
| PubSubBridge.FirstError | pubsub/bridge.go:194-204 | nil iff both calls succeeded; the first error when the first call failed, and otherwise the second call's result |
| PubSubBridge.Bridge.constructor | pubsub/bridge.go:34-46 | a new bridge has no device links |
| PubSubBridge.IsIn | pubsub/bridge.go:22-29 | true iff the string occurs in the list |
| PubSubBridge.Bridge.IsDeviceLinked | pubsub/bridge.go:48-51 | true iff the device has an entry; without one its links are two empty lists |
| PubSubBridge.Bridge.IsLinkFwd | pubsub/bridge.go:53-62 | true iff the device is linked and the topic is in its fwd list |
| PubSubBridge.Bridge.IsLinkRev | pubsub/bridge.go:64-73 | true iff the device is linked and the topic is in its rev list |
| PubSubBridge.Bridge.AddLink | pubsub/bridge.go:75-103 | one subscription on the direction's source endpoint; on success the device's list gains the topic and other entries are kept; on failure the table is unchanged and the error is returned |
| PubSubBridge.Bridge.AddLinkFwd | pubsub/bridge.go:75-103 | subscribes on A with a handler republishing to the listed topics on B; commits only on success |
| PubSubBridge.Bridge.AddFwd | pubsub/bridge.go:105-130 | subscribes on A with the application's callback, which is handed B; commits only on success |
| PubSubBridge.Bridge.AddLinkRev | pubsub/bridge.go:132-160 | subscribes on B with a handler republishing to the listed topics on A; commits only on success |
| PubSubBridge.Bridge.AddRev | pubsub/bridge.go:162-187 | subscribes on B with the application's callback, which is handed A; commits only on success |
| PubSubBridge.Bridge.AddRevAsWritten | pubsub/bridge.go:173-179 | as written, the reverse callback is handed B, the endpoint its message came from, and the bridge invariant is broken |
| PubSubBridge.Bridge.RemoveLinksAll | pubsub/bridge.go:189-211 | the entry is deleted even when an unsubscribe fails; only non-empty lists are unsubscribed, fwd before rev; the first error is returned; an unknown id gives nil and no call |
| MqttClient.ParseMQTTQoS | pubsub/mqttclient.go:39-50 | each level from its name or digit (both directions); every other string is unknown (0xFF) |
| MqttClient.ParseRoundTrip | pubsub/mqttclient.go:32-50 | parsing a known level's name or digit gives the level back; the result is always a known level or unknown |
| MqttClient.SubscribeThenUnsubscribe | pubsub/mqttclient.go:183-213 | a successful subscribe then unsubscribe of a new topic restores the table; a failed call never changes it |
| MqttClient.DroppedKeepsOthers | pubsub/mqttclient.go:208-210 | unsubscribing never touches an entry for a topic it does not name |
| MqttClient.NewClientTopicsAsWritten | pubsub/mqttclient.go:63-70 | as written, neither constructor (also lines 112-119) assigns the table, so it is left nil |
| MqttClient.MQTTClient.constructor | pubsub/mqttclient.go:63-70 | the table starts empty |
| MqttClient.MQTTClient.Subscribe | pubsub/mqttclient.go:183-197 | the topic is recorded at the default QoS only when the broker accepted it; the broker's error is returned |
| MqttClient.MQTTClient.Unsubscribe | pubsub/mqttclient.go:199-213 | only when the broker accepted it, each named topic is deleted and nothing else; the broker's error is returned |
| MqttClient.SubscribeAsWritten | pubsub/mqttclient.go:183-197 | as written: a broker error is returned with the table unchanged; an accepted subscribe panics iff the table is nil, and otherwise records the topic at the QoS and returns nil |
| MqttClient.FirstSubscribePanics | pubsub/mqttclient.go:194 | as written, the first accepted Subscribe on a new client assigns into a nil map |
| MqttClient.MadeTableAgrees | pubsub/mqttclient.go:187-196 | on a made table, Subscribe as written behaves as the model's Subscribe |

## Left out

- Goroutines, channels and `select`: `runtime`'s loop and shutdown, `Stop`,
  the forwarding goroutine and the drain in `StopDeviceUpdates`. Updates are
  processed one at a time, as the source's single manager goroutine does.
- The LRU library's internals. The cache is a map, and at capacity the evicted
  entry is arbitrary, not necessarily the least recently used. A lookup does
  not refresh an entry's recency.
- ServiceManaged.ServiceManager.CacheAdd: the capacity bound is proved for each
  insertion (the size never grows past 100, or past the old size if that was
  larger). It is not carried as part of `Valid` through the lifecycle methods,
  because cardinality reasoning over the cache made those proofs too costly.
- DeviceState as a value: the model does not capture aliasing through the
  `*deviceState` pointer. On a refused change, the source also writes the new
  config into the state it has just removed (service_managed.go:131). Nothing
  the manager keeps refers to that state any more, so the write is not modelled.
- The content of the application's callbacks. ProcessLink and
  ProcessConfigChange are functions of the Device object, id and config.
  Subscriptions a callback makes during them are not modelled. ProcessUnlink
  and ProcessMessage appear only as events.
- A control kept by the application after its device was unlinked (a stale
  control) is not modelled. The device-scoped methods take a linked device id.
- The errors the transport returns to the manager: the source ignores them.
- Diagnostic logging to standard error: the missing-keys message before a
  forced relink (service_managed.go:100) and the unmarshal-failure message
  (service.go:164). Neither affects state.
- Service.ServiceClient.SetStatus and Service.ServiceClient.SetDeviceStatus:
  the source returns the publish error, or a marshalling error, to the caller
  (service.go:130, 142). The model records the publication and returns no
  error, because the transport is not modelled.
- JSON encoding and decoding, `fmt.Sprint` of status messages, and
  `Message.String`. Payloads are kept structured, and a decoding failure is a
  `None` input.
- HTTP requests (`rest/*.go` other than `rest/service.go`, `rest.go`). The
  snapshot arrives as a parameter, `None` when the request failed.
- Paho connection handling: connect, reconnect, the `onConnect` resubscription
  and its backoff, `Disconnect` and `Publish`. `GenMQTTClientID` (a crypto
  random number) is also left out.
- Thin wrappers with no logic of their own (`client.go`, `device.go`,
  `user.go`), `utils/utils.go`, and the type-only files.

## Findings

| source | as written | input that shows it | evidently intended | confidence | as-written member | corrected member |
|---|---|---|---|---|---|---|
| pubsub/mqttclient.go:194 | neither constructor (lines 68-70, 117-119) makes `c.topics`, so it stays a nil map, and `Subscribe` assigns into it after the broker accepts | a new client, then `Subscribe("t", cb)` accepted by the broker: the assignment into the nil map panics | the constructors make an empty map, so accepted subscriptions are recorded | high (not executed) | MqttClient.FirstSubscribePanics | MqttClient.MQTTClient.Subscribe |
| pubsub/bridge.go:176 | `AddRev` hands `b.pubsubb` to the callback, whose parameter is named `pubsuba` | `AddRev("d", "tb", cb)`, then a message on "tb" from B: `cb` is handed B, the endpoint the message came from, not A | the reverse callback is handed `b.pubsuba`, mirroring `AddFwd`, which hands the other endpoint | medium (not executed) | PubSubBridge.Bridge.AddRevAsWritten | PubSubBridge.Bridge.AddRev |
