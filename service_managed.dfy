/**
 * The managed-service device link manager (service_managed.go). It consumes
 * Add, Update and Remove updates one at a time and keeps one DeviceState per
 * linked device id, deciding between link, incremental config change, forced
 * relink, no-op and unlink. The application's Device callbacks and the
 * transport are observed through an appended event log.
 */
module ServiceManaged {

  import opened RestService
  import opened ConfigDiff
  import opened Service

  /** Capacity of the DeviceControl cache. */
  const DeviceCtrlsCacheSize := 100

  /** The opaque token an application attaches to a subscription. */
  type Key = int

  /** A message handed to a device's message callback. */
  datatype Message = Message(key: Key, topic: string, payload: seq<bv8>)

  /**
   * The application's Device callbacks, as the values they return. Each Device
   * object that newdevice() creates is known by its creation number.
   * link(instance, id, config) is ProcessLink's status; configChange(instance,
   * id, config, changes, original) is ProcessConfigChange's (status, ack).
   */
  datatype Application = Application(
    link: (nat, string, Config) -> string,
    configChange: (nat, string, Config, Config, Config) -> (string, bool))

  /** What the manager does that can be observed: callbacks invoked and transport calls made, in order. */
  datatype Event =
    | Link(id: string, instance: nat, config: Config)
    | Unlink(id: string, instance: nat, config: Config)
    | ConfigChange(id: string, instance: nat, changes: Config, original: Config, current: Config)
    | MessageDelivered(id: string, instance: nat, msg: Message)
    | Subscribe(topic: string)
    | Unsubscribe(topics: seq<string>)
    | Publish(topic: string, payload: seq<bv8>)
    | Status(publication: Publication)

  /** A device's full topic for one of its subtopics. */
  function FullTopic(deviceTopic: string, subtopic: string): (t: string)
    ensures |t| == |deviceTopic| + 1 + |subtopic|
    ensures t[..|deviceTopic|] == deviceTopic && t[|deviceTopic|] == '/' && t[|deviceTopic| + 1..] == subtopic
  {
    deviceTopic + "/" + subtopic
  }

  /** Under one device topic, different subtopics give different full topics. */
  lemma FullTopicInjective(deviceTopic: string, s1: string, s2: string)
    requires FullTopic(deviceTopic, s1) == FullTopic(deviceTopic, s2)
    ensures s1 == s2
  {
    var n := |deviceTopic| + 1;
    assert s1 == FullTopic(deviceTopic, s1)[n..];
  }

  /** The subtopic a delivered message reports: the topic with the device topic cut off the front, if it is there. */
  function TrimPrefix(s: string, prefix: string): (r: string)
    ensures prefix <= s ==> prefix + r == s
    ensures !(prefix <= s) ==> r == s
  {
    if prefix <= s then s[|prefix|..] else s
  }

  /**
   * A message on a subscribed full topic reports the subtopic with the
   * separating "/" still in front, because only the device topic is trimmed.
   */
  lemma DeliveredSubtopic(deviceTopic: string, subtopic: string)
    ensures TrimPrefix(FullTopic(deviceTopic, subtopic), deviceTopic) == "/" + subtopic
  {
    assert FullTopic(deviceTopic, subtopic)[..|deviceTopic|] == deviceTopic;
    assert FullTopic(deviceTopic, subtopic)[|deviceTopic|..] == "/" + subtopic;
  }

  /** ts lists each key of the set exactly once, in some order. */
  ghost predicate Enumerates(ts: seq<string>, keys: set<string>)
    decreases |ts|
  {
    if ts == [] then keys == {}
    else ts[|ts| - 1] in keys && Enumerates(ts[..|ts| - 1], keys - {ts[|ts| - 1]})
  }

  /** A listing holds exactly the keys, and holds each once: it is as long as the set is large. */
  lemma {:induction false} EnumerationIsListing(ts: seq<string>, keys: set<string>)
    requires Enumerates(ts, keys)
    ensures forall k :: k in ts <==> k in keys
    ensures |ts| == |keys|
  {
    if ts != [] {
      var last := ts[|ts| - 1];
      var init := ts[..|ts| - 1];
      EnumerationIsListing(init, keys - {last});
      assert ts == init + [last];
    }
  }

  /** The flat list of a device's subscribed topics, in the map's (arbitrary) iteration order. */
  method FlattenTopics(subs: map<string, Key>) returns (topics: seq<string>)
    ensures Enumerates(topics, subs.Keys)
  {
    topics := [];
    var rest := subs.Keys;
    while rest != {}
      invariant rest <= subs.Keys
      invariant Enumerates(topics, subs.Keys - rest)
      decreases rest
    {
      var k :| k in rest;
      assert (subs.Keys - (rest - {k})) - {k} == subs.Keys - rest;
      assert (topics + [k])[..|topics|] == topics;
      topics := topics + [k];
      rest := rest - {k};
    }
    assert subs.Keys - rest == subs.Keys;
  }

  /** The events an unlink produces: ProcessUnlink with the given config, then one unsubscribe of the listed topics. */
  function UnlinkEvents(id: string, instance: nat, config: Config, topics: seq<string>): seq<Event>
  {
    [Unlink(id, instance, config), Unsubscribe(topics)]
  }

  /** The table of linked devices' configs that a sequence of updates leads to, folding them in order. */
  function ApplyUpdate(table: map<string, Config>, u: DeviceUpdate): map<string, Config>
  {
    match u.kind
    case Rem => table - {u.id}
    case Add => table[u.id := u.config]
    case Upd => table[u.id := u.config]
  }

  function Replay(table: map<string, Config>, ups: seq<DeviceUpdate>): map<string, Config>
    decreases |ups|
  {
    if ups == [] then table else ApplyUpdate(Replay(table, ups[..|ups| - 1]), ups[|ups| - 1])
  }

  /**
   * After a sequence of updates, a device's fate is decided by the last update
   * naming it: unlinked if that was a Remove, otherwise linked with that
   * update's config.
   */
  lemma {:induction false} ReplayLastUpdateWins(table: map<string, Config>, ups: seq<DeviceUpdate>, i: nat)
    requires i < |ups|
    requires forall j :: i < j < |ups| ==> ups[j].id != ups[i].id
    ensures ups[i].kind == Rem ==> ups[i].id !in Replay(table, ups)
    ensures ups[i].kind != Rem ==> ups[i].id in Replay(table, ups) && Replay(table, ups)[ups[i].id] == ups[i].config
  {
    if i < |ups| - 1 {
      var init := ups[..|ups| - 1];
      assert init[i] == ups[i];
      ReplayLastUpdateWins(table, init, i);
    }
  }

  /** A device no update names keeps its link state and config. */
  lemma {:induction false} ReplayUntouched(table: map<string, Config>, ups: seq<DeviceUpdate>, id: string)
    requires forall j :: 0 <= j < |ups| ==> ups[j].id != id
    ensures id in Replay(table, ups) <==> id in table
    ensures id in table ==> Replay(table, ups)[id] == table[id]
  {
    if ups != [] {
      ReplayUntouched(table, ups[..|ups| - 1], id);
    }
  }

  /**
   * The record of one linked device: its id and topic, its Device object (by
   * creation number), its current config and its subscriptions (full topic ->
   * key). The manager keeps these records in its table and changes a field by
   * replacing the record.
   */
  datatype DeviceState = DeviceState(id: string, topic: string, instance: nat, config: Config, subs: map<string, Key>)

  /** The table of linked devices' configs that a device table holds. */
  function Table(devices: map<string, DeviceState>): map<string, Config>
  {
    map id | id in devices :: devices[id].config
  }

  /** Of two updates of the same entry, the later one wins. */
  lemma Overwrite(devices: map<string, DeviceState>, id: string, first: DeviceState, second: DeviceState)
    ensures devices[id := first][id := second] == devices[id := second]
  {
  }

  /** Removing an entry and adding it back is updating it. */
  lemma Replace(devices: map<string, DeviceState>, id: string, st: DeviceState)
    ensures (devices - {id})[id := st] == devices[id := st]
  {
  }

  /** Removing an updated entry is removing the original one. */
  lemma Discard(devices: map<string, DeviceState>, id: string, st: DeviceState)
    ensures devices[id := st] - {id} == devices - {id}
  {
  }

  lemma TableSet(devices: map<string, DeviceState>, id: string, st: DeviceState)
    ensures Table(devices[id := st]) == Table(devices)[id := st.config]
  {
  }

  lemma TableRemove(devices: map<string, DeviceState>, id: string)
    ensures Table(devices - {id}) == Table(devices) - {id}
  {
  }

  /**
   * The capability handed to callbacks. It names the device state it is bound
   * to by device id and Device object, which identify a state uniquely (see
   * ServiceManager.Valid).
   */
  datatype DeviceControl = DeviceControl(id: string, instance: nat)


  /**
   * Each state sits under its own id and its Device object predates the
   * counter, so no two states ever share one; every cached control is bound
   * to the state currently in the table for its id.
   */
  ghost predicate Consistent(devices: map<string, DeviceState>, ctrls: map<string, DeviceControl>, instances: nat)
  {
    && (forall id :: id in devices ==> devices[id].id == id && devices[id].instance < instances)
    && (forall id :: id in ctrls ==> id in devices && ctrls[id] == DeviceControl(id, devices[id].instance))
  }

  /** Dropping an id from the cache, and from the table too if unlinked, keeps them consistent. */
  lemma ConsistentWithout(devices: map<string, DeviceState>, ctrls: map<string, DeviceControl>, instances: nat,
                          id: string, unlinked: bool)
    requires Consistent(devices, ctrls, instances)
    ensures Consistent(if unlinked then devices - {id} else devices, ctrls - {id}, instances)
  {
  }

  /** Caching the control bound to a linked device's state keeps the cache consistent. */
  lemma ConsistentCaching(devices: map<string, DeviceState>, ctrls: map<string, DeviceControl>, instances: nat, id: string)
    requires Consistent(devices, ctrls, instances) && id in devices
    ensures Consistent(devices, ctrls[id := DeviceControl(id, devices[id].instance)], instances)
  {
  }

  /** A linked device's config can change without disturbing consistency. */
  lemma ConsistentReconfigured(devices: map<string, DeviceState>, ctrls: map<string, DeviceControl>, instances: nat,
                               id: string, config: Config)
    requires Consistent(devices, ctrls, instances) && id in devices
    ensures Consistent(devices[id := devices[id].(config := config)], ctrls, instances)
  {
  }

  /** Evicting a cached entry makes room for exactly one more. */
  lemma EvictionShrinks(ctrls: map<string, DeviceControl>, id: string)
    requires id in ctrls
    ensures |ctrls - {id}| == |ctrls| - 1
  {
    assert (ctrls - {id}).Keys == ctrls.Keys - {id};
  }

  /** Caching a control takes one more entry, none for an id already cached. */
  lemma InsertionGrows(ctrls: map<string, DeviceControl>, id: string, ctrl: DeviceControl)
    ensures |ctrls[id := ctrl]| == if id in ctrls then |ctrls| else |ctrls| + 1
  {
    if id in ctrls {
      assert ctrls[id := ctrl].Keys == ctrls.Keys;
    } else {
      assert ctrls[id := ctrl].Keys == ctrls.Keys + {id};
    }
  }

  class ServiceManager {
    /** The service node's topic, under which device statuses are published. */
    const nodeTopic: string
    const app: Application
    var devices: map<string, DeviceState>
    /** The bounded DeviceControl cache, as the map of its entries. */
    var deviceCtrls: map<string, DeviceControl>
    /** How many Device objects newdevice() has returned so far. */
    var instances: nat
    /** What the application's callbacks and the transport have been asked to do, in order. */
    ghost var log: seq<Event>

    /**
     * Each state sits under its own id and its Device object predates the
     * counter, so no two states ever share one; every cached control is bound
     * to the state currently in the table for its id.
     */
    ghost predicate Valid()
      reads this`devices, this`deviceCtrls, this`instances
    {
      Consistent(devices, deviceCtrls, instances)
    }

    /** The linked devices with their current configs. */
    ghost function ConfigTable(): map<string, Config>
      reads this`devices
    {
      Table(devices)
    }

    /** The control is bound to a state still in the table. */
    predicate Live(ctrl: DeviceControl)
      reads this`devices
    {
      ctrl.id in devices && devices[ctrl.id].instance == ctrl.instance
    }

    /** The config a live control reports (DeviceControl.Config). */
    function ControlConfig(ctrl: DeviceControl): (config: Config)
      reads this`devices
      requires Live(ctrl)
      ensures ctrl.id in ConfigTable() && config == ConfigTable()[ctrl.id]
    {
      devices[ctrl.id].config
    }

    constructor (nodeTopic: string, app: Application)
      ensures Valid()
      ensures this.nodeTopic == nodeTopic && this.app == app
      ensures devices == map[] && deviceCtrls == map[] && instances == 0 && log == []
    {
      this.nodeTopic := nodeTopic;
      this.app := app;
      devices := map[];
      deviceCtrls := map[];
      instances := 0;
      log := [];
    }

    /** The events a link of a new state produces: ProcessLink, then its status reported. */
    function LinkEvents(id: string, instance: nat, config: Config): seq<Event>
    {
      [Link(id, instance, config), Status(DeviceStatusPublication(nodeTopic, id, app.link(instance, id, config)))]
    }

    /**
     * Whether an update of a linked device to config ends in unlink and
     * relink: a key went missing, or the application refused the change.
     */
    function Relinks(id: string, instance: nat, original: Config, config: Config): bool
    {
      var d := Changes(original, config);
      d.omittedKey || (d.changes != map[] && !app.configChange(instance, id, config, d.changes, original).1)
    }

    /**
     * The events an update of a linked device produces, given the topics its
     * unlink (if any) unsubscribes and the creation number of the next Device
     * object: a forced relink; nothing; or ProcessConfigChange followed by the
     * status on ack and by unlink (with the original config) and relink on
     * refusal.
     */
    function UpdateEvents(id: string, instance: nat, original: Config, config: Config,
                          unsubscribed: seq<string>, next: nat): seq<Event>
    {
      var d := Changes(original, config);
      if d.omittedKey then
        UnlinkEvents(id, instance, original, unsubscribed) + LinkEvents(id, next, config)
      else if d.changes == map[] then
        []
      else
        var reply := app.configChange(instance, id, config, d.changes, original);
        [ConfigChange(id, instance, d.changes, original, config)]
        + if reply.1 then [Status(DeviceStatusPublication(nodeTopic, id, reply.0))]
          else UnlinkEvents(id, instance, original, unsubscribed) + LinkEvents(id, next, config)
    }

    /** An update to the config a device already has does nothing: it does not relink and produces no event. */
    lemma SameConfigIsNoOp(id: string, instance: nat, config: Config, unsubscribed: seq<string>, next: nat)
      ensures !Relinks(id, instance, config, config)
      ensures UpdateEvents(id, instance, config, config, unsubscribed, next) == []
    {
      SelfDiffIsEmpty(config);
    }

    /**
     * A key missing from the new config always relinks, whatever the
     * application would answer: the unlink sees the original config, then a
     * new Device object is linked with the new one.
     */
    lemma MissingKeyRelinks(id: string, instance: nat, original: Config, config: Config,
                            unsubscribed: seq<string>, next: nat, k: string)
      requires k in original && k !in config
      ensures Relinks(id, instance, original, config)
      ensures UpdateEvents(id, instance, original, config, unsubscribed, next)
              == UnlinkEvents(id, instance, original, unsubscribed) + LinkEvents(id, next, config)
    {
      MissingKeyReported(original, config, k);
    }

    /**
     * Whenever an update relinks, it ends with unlink then link: ProcessUnlink
     * of the old Device object with the original config, the unsubscribe,
     * ProcessLink of the next Device object with the new config, and its
     * status. An update that does not relink neither unlinks nor links.
     */
    lemma RelinkIsUnlinkThenLink(id: string, instance: nat, original: Config, config: Config,
                                 unsubscribed: seq<string>, next: nat)
      ensures var events := UpdateEvents(id, instance, original, config, unsubscribed, next);
              Relinks(id, instance, original, config) ==>
                |events| >= 4 &&
                events[|events| - 4..] == UnlinkEvents(id, instance, original, unsubscribed) + LinkEvents(id, next, config)
      ensures var events := UpdateEvents(id, instance, original, config, unsubscribed, next);
              !Relinks(id, instance, original, config) ==>
                forall i :: 0 <= i < |events| ==> !events[i].Link? && !events[i].Unlink?
    {
      var d := Changes(original, config);
      var events := UpdateEvents(id, instance, original, config, unsubscribed, next);
      var tail := UnlinkEvents(id, instance, original, unsubscribed) + LinkEvents(id, next, config);
      if !d.omittedKey && d.changes != map[] && Relinks(id, instance, original, config) {
        assert events == [ConfigChange(id, instance, d.changes, original, config)] + tail;
        assert events[|events| - 4..] == tail;
      }
    }

    /* DeviceControl cache */

    /** A cache lookup. */
    method CacheGet(id: string) returns (ctrl: Wrappers.Option<DeviceControl>)
      requires Valid()
      ensures ctrl.Some? <==> id in deviceCtrls
      ensures ctrl.Some? ==> ctrl.value.id == id && Live(ctrl.value)
    {
      if id in deviceCtrls {
        ctrl := Wrappers.Some(deviceCtrls[id]);
      } else {
        ctrl := Wrappers.None;
      }
    }

    /**
     * Adds a control. Below capacity, or when the id is already cached, nothing
     * else changes; at capacity, an entry for another id is evicted first (the
     * least recently used one in the source) and the cache stays full.
     */
    method CacheAdd(ctrl: DeviceControl)
      requires Valid() && Live(ctrl)
      modifies this`deviceCtrls
      ensures Valid()
      ensures ctrl.id in deviceCtrls && deviceCtrls[ctrl.id] == ctrl
      ensures forall id :: id in deviceCtrls && id != ctrl.id ==> id in old(deviceCtrls) && deviceCtrls[id] == old(deviceCtrls[id])
      ensures ctrl.id in old(deviceCtrls) || |old(deviceCtrls)| < DeviceCtrlsCacheSize ==>
                deviceCtrls == old(deviceCtrls)[ctrl.id := ctrl]
      ensures |deviceCtrls| <= if |old(deviceCtrls)| < DeviceCtrlsCacheSize then DeviceCtrlsCacheSize else |old(deviceCtrls)|
      // at capacity, exactly one other entry makes room
      ensures ctrl.id !in old(deviceCtrls) && |old(deviceCtrls)| >= DeviceCtrlsCacheSize ==>
                && (exists v :: v in old(deviceCtrls) && v != ctrl.id && deviceCtrls == (old(deviceCtrls) - {v})[ctrl.id := ctrl])
                && |deviceCtrls| == |old(deviceCtrls)|
    {
      if ctrl.id !in deviceCtrls && |deviceCtrls| >= DeviceCtrlsCacheSize {
        var victim :| victim in deviceCtrls;
        EvictionShrinks(deviceCtrls, victim);
        ConsistentWithout(devices, deviceCtrls, instances, victim, false);
        deviceCtrls := deviceCtrls - {victim};
      }
      InsertionGrows(deviceCtrls, ctrl.id, ctrl);
      ConsistentCaching(devices, deviceCtrls, instances, ctrl.id);
      deviceCtrls := deviceCtrls[ctrl.id := ctrl];
    }

    /** Drops the cached control of a device. */
    method CacheRemove(id: string)
      modifies this`deviceCtrls
      ensures deviceCtrls == old(deviceCtrls) - {id}
    {
      deviceCtrls := deviceCtrls - {id};
    }

    /**
     * The cached control of a linked device, generated and cached when absent.
     * Either way it is bound to the device's state, so a control regenerated
     * after an eviction equals the one evicted.
     */
    method CacheProvide(id: string) returns (ctrl: DeviceControl)
      requires Valid() && id in devices
      modifies this`deviceCtrls
      ensures Valid()
      ensures ctrl == DeviceControl(id, devices[id].instance) && id in deviceCtrls && deviceCtrls[id] == ctrl
      ensures id in old(deviceCtrls) ==> deviceCtrls == old(deviceCtrls)
      ensures forall d :: d in deviceCtrls && d != id ==> d in old(deviceCtrls) && deviceCtrls[d] == old(deviceCtrls[d])
    {
      if id in deviceCtrls {
        ctrl := deviceCtrls[id];
      } else {
        ctrl := DeviceControl(id, devices[id].instance);
        CacheAdd(ctrl);
      }
    }

    /* Device-scoped pubsub */

    /**
     * Unsubscribes from every topic the device subscribed to, in one call, and
     * forgets them all; topics is the list passed to that call.
     */
    method DeviceUnsubscribeAll(id: string) returns (ghost topics: seq<string>)
      requires id in devices
      modifies this`log, this`devices
      ensures devices == old(devices)[id := old(devices[id]).(subs := map[])]
      ensures Enumerates(topics, old(devices[id].subs).Keys)
      ensures log == old(log) + [Unsubscribe(topics)]
    {
      var flat := FlattenTopics(devices[id].subs);
      topics := flat;
      log := log + [Unsubscribe(topics)];
      devices := devices[id := devices[id].(subs := map[])];
    }

    /**
     * Unsubscribes from the named subtopics: each entry of the caller's array
     * is rewritten to its full topic and dropped from the subscriptions, then
     * all of them are unsubscribed in one call.
     */
    method DeviceUnsubscribe(id: string, subtopics: array<string>)
      requires id in devices
      modifies this`log, this`devices, subtopics
      ensures forall i :: 0 <= i < subtopics.Length ==> subtopics[i] == FullTopic(old(devices[id].topic), old(subtopics[i]))
      ensures devices == old(devices)[id := old(devices[id]).(subs := old(devices[id].subs) - (set t | t in subtopics[..]))]
      ensures log == old(log) + [Unsubscribe(subtopics[..])]
    {
      var st := devices[id];
      var subs := st.subs;
      for i := 0 to subtopics.Length
        invariant forall j :: 0 <= j < i ==> subtopics[j] == FullTopic(st.topic, old(subtopics[j]))
        invariant forall j :: i <= j < subtopics.Length ==> subtopics[j] == old(subtopics[j])
        invariant subs == st.subs - (set t | t in subtopics[..i])
        invariant devices == old(devices) && log == old(log)
      {
        var topic := st.topic + "/" + subtopics[i];
        subtopics[i] := topic;
        assert subtopics[..i + 1] == subtopics[..i] + [topic];
        subs := subs - {topic};
      }
      assert subtopics[..subtopics.Length] == subtopics[..];
      devices := devices[id := st.(subs := subs)];
      log := log + [Unsubscribe(subtopics[..])];
    }

    /**
     * Subscribes to a device subtopic under a key. Only the first subscription
     * to a full topic counts: a repeated one neither subscribes again nor
     * changes the recorded key.
     */
    method DeviceSubscribe(id: string, subtopic: string, key: Key)
      requires id in devices
      modifies this`log, this`devices
      ensures var stopic := FullTopic(old(devices[id].topic), subtopic);
              if stopic in old(devices[id].subs) then devices == old(devices) && log == old(log)
              else devices == old(devices)[id := old(devices[id]).(subs := old(devices[id].subs)[stopic := key])]
                   && log == old(log) + [Subscribe(stopic)]
    {
      var stopic := devices[id].topic + "/" + subtopic;
      if stopic !in devices[id].subs {
        log := log + [Subscribe(stopic)];
        devices := devices[id := devices[id].(subs := devices[id].subs[stopic := key])];
      }
    }

    /** Publishes a payload to a device subtopic. */
    method DevicePublish(id: string, subtopic: string, payload: seq<bv8>)
      requires id in devices
      modifies this`log
      ensures log == old(log) + [Publish(FullTopic(devices[id].topic, subtopic), payload)]
    {
      log := log + [Publish(devices[id].topic + "/" + subtopic, payload)];
    }

    /**
     * The handler installed by DeviceSubscribe, run when a message arrives on
     * the subscribed topic: the message carries the subscription's key and the
     * topic with the device topic trimmed off, and goes to the device's
     * message callback with its cached control.
     */
    method DeliverMessage(id: string, stopic: string, topic: string, payload: seq<bv8>)
      requires Valid() && id in devices && stopic in devices[id].subs
      modifies this`log, this`deviceCtrls
      ensures Valid()
      ensures log == old(log) + [MessageDelivered(id, devices[id].instance,
                                                  Message(devices[id].subs[stopic], TrimPrefix(topic, devices[id].topic), payload))]
      ensures id in deviceCtrls && deviceCtrls[id] == DeviceControl(id, devices[id].instance)
    {
      var subtopic := TrimPrefix(topic, devices[id].topic);
      var msg := Message(devices[id].subs[stopic], subtopic, payload);
      var dCtrl := CacheProvide(id);
      log := log + [MessageDelivered(id, dCtrl.instance, msg)];
    }

    /* Lifecycle */

    /**
     * Unlinks a device: ProcessUnlink with its current config, one unsubscribe
     * of all its topics (the list is returned as topics), then the state leaves
     * the table and its control the cache. An unknown id changes nothing.
     */
    method RemoveDevice(id: string) returns (ghost topics: seq<string>)
      requires Valid()
      modifies this
      ensures Valid()
      ensures devices == old(devices) - {id}
      ensures instances == old(instances)
      ensures id !in old(devices) ==> deviceCtrls == old(deviceCtrls) && log == old(log)
      ensures id in old(devices) ==>
                && id !in deviceCtrls
                && Enumerates(topics, old(devices[id].subs).Keys)
                && log == old(log) + UnlinkEvents(id, old(devices[id].instance), old(devices[id].config), topics)
      ensures deviceCtrls.Keys <= old(deviceCtrls).Keys - {id}
    {
      topics := [];
      if id in devices {
        var dCtrl := CacheProvide(id);
        ghost var ctrls := deviceCtrls;
        log := log + [Unlink(id, dCtrl.instance, ControlConfig(dCtrl))];
        topics := DeviceUnsubscribeAll(id);
        Discard(old(devices), id, devices[id]);
        devices := devices - {id};
        CacheRemove(id);
        ConsistentWithout(old(devices), ctrls, instances, id, true);
      }
    }

    /** Links a device id that has no state: a new state and Device object, ProcessLink, then its status. */
    method LinkDevice(id: string, topic: string, config: Config)
      requires Valid() && id !in devices
      modifies this
      ensures Valid()
      ensures devices == old(devices)[id := DeviceState(id, topic, old(instances), config, map[])]
      ensures instances == old(instances) + 1 && id in deviceCtrls
      ensures log == old(log) + LinkEvents(id, old(instances), config)
      ensures deviceCtrls.Keys <= old(deviceCtrls).Keys + {id}
    {
      devices := devices[id := DeviceState(id, topic, instances, config, map[])];
      instances := instances + 1;
      var dCtrl := CacheProvide(id);
      var status := app.link(dCtrl.instance, id, ControlConfig(dCtrl));
      log := log + [Link(id, dCtrl.instance, ControlConfig(dCtrl))];
      // the service client's SetDeviceStatus publishes it
      log := log + [Status(DeviceStatusPublication(nodeTopic, id, status))];
    }

    /** A forced relink (a key went missing): unlink, then link afresh through AddUpdateDevice. */
    method Relink(id: string, topic: string, config: Config) returns (ghost unsubscribed: seq<string>)
      requires Valid() && id in devices
      modifies this
      decreases 1
      ensures Valid()
      ensures devices == old(devices)[id := DeviceState(id, topic, old(instances), config, map[])]
      ensures instances == old(instances) + 1 && id in deviceCtrls
      ensures deviceCtrls.Keys <= old(deviceCtrls).Keys + {id}
      ensures Enumerates(unsubscribed, old(devices[id].subs).Keys)
      ensures log == old(log) + UnlinkEvents(id, old(devices[id].instance), old(devices[id].config), unsubscribed)
                              + LinkEvents(id, old(instances), config)
    {
      unsubscribed := RemoveDevice(id);
      var _ := AddUpdateDevice(id, topic, config);
      Replace(old(devices), id, devices[id]);
    }

    /**
     * A refused config change: the original config is restored for the
     * unlink, then the device is linked afresh through AddUpdateDevice. (The
     * source also gives the evicted state the new config again; nothing the
     * manager keeps refers to that state any more.)
     */
    method RefuseChange(id: string, original: Config, topic: string, config: Config)
      returns (ghost unsubscribed: seq<string>)
      requires Valid() && id in devices
      modifies this
      decreases 1
      ensures Valid()
      ensures devices == old(devices)[id := DeviceState(id, topic, old(instances), config, map[])]
      ensures instances == old(instances) + 1 && id in deviceCtrls
      ensures deviceCtrls.Keys <= old(deviceCtrls).Keys + {id}
      ensures Enumerates(unsubscribed, old(devices[id].subs).Keys)
      ensures log == old(log) + UnlinkEvents(id, old(devices[id].instance), original, unsubscribed)
                              + LinkEvents(id, old(instances), config)
    {
      ConsistentReconfigured(devices, deviceCtrls, instances, id, original);
      devices := devices[id := devices[id].(config := original)];
      unsubscribed := RemoveDevice(id);
      Discard(old(devices), id, old(devices[id]).(config := original));
      var _ := AddUpdateDevice(id, topic, config);
      Replace(old(devices), id, devices[id]);
    }

    /**
     * The incremental part of an update with changes: the state takes the new
     * config and ProcessConfigChange sees it with the changes and the original
     * config; an acknowledged change reports its status, a refused one relinks.
     */
    method ChangeConfig(id: string, topic: string, changes: Config, config: Config)
      returns (ghost unsubscribed: seq<string>)
      requires Valid() && id in devices
      modifies this
      decreases 2
      ensures Valid()
      ensures deviceCtrls.Keys <= old(deviceCtrls).Keys + {id}
      ensures var reply := app.configChange(old(devices[id].instance), id, config, changes, old(devices[id].config));
              reply.1 ==>
                && devices == old(devices)[id := old(devices[id]).(config := config)]
                && instances == old(instances)
                && log == old(log) + [ConfigChange(id, old(devices[id].instance), changes, old(devices[id].config), config),
                                      Status(DeviceStatusPublication(nodeTopic, id, reply.0))]
      ensures var reply := app.configChange(old(devices[id].instance), id, config, changes, old(devices[id].config));
              !reply.1 ==>
                && devices == old(devices)[id := DeviceState(id, topic, old(instances), config, map[])]
                && instances == old(instances) + 1 && id in deviceCtrls
                && Enumerates(unsubscribed, old(devices[id].subs).Keys)
                && log == old(log) + [ConfigChange(id, old(devices[id].instance), changes, old(devices[id].config), config)]
                                   + UnlinkEvents(id, old(devices[id].instance), old(devices[id].config), unsubscribed)
                                   + LinkEvents(id, old(instances), config)
    {
      var coriginal := devices[id].config;
      ConsistentReconfigured(devices, deviceCtrls, instances, id, config);
      devices := devices[id := devices[id].(config := config)];
      var dCtrl := CacheProvide(id);
      var reply := app.configChange(dCtrl.instance, id, ControlConfig(dCtrl), changes, coriginal);
      log := log + [ConfigChange(id, dCtrl.instance, changes, coriginal, ControlConfig(dCtrl))];
      if !reply.1 {
        unsubscribed := RefuseChange(id, coriginal, topic, config);
        Overwrite(old(devices), id, old(devices[id]).(config := config), devices[id]);
        return;
      }
      // the service client's SetDeviceStatus publishes it
      log := log + [Status(DeviceStatusPublication(nodeTopic, id, reply.0))];
      unsubscribed := [];
    }

    /**
     * Add or Update of a linked device: diff the configs; a missing key forces
     * unlink then relink; no change is a no-op; otherwise ProcessConfigChange
     * sees the new config and, on ack, its status is reported, while a refusal
     * relinks.
     */
    method UpdateDevice(id: string, topic: string, config: Config) returns (ghost unsubscribed: seq<string>)
      requires Valid() && id in devices
      modifies this
      decreases 3
      ensures Valid()
      ensures deviceCtrls.Keys <= old(deviceCtrls).Keys + {id}
      ensures log == old(log) + UpdateEvents(id, old(devices[id].instance), old(devices[id].config), config,
                                             unsubscribed, old(instances))
      ensures Relinks(id, old(devices[id].instance), old(devices[id].config), config) ==>
                && devices == old(devices)[id := DeviceState(id, topic, old(instances), config, map[])]
                && instances == old(instances) + 1 && id in deviceCtrls
                && Enumerates(unsubscribed, old(devices[id].subs).Keys)
      ensures !Relinks(id, old(devices[id].instance), old(devices[id].config), config) ==>
                && devices == old(devices)[id := old(devices[id]).(config := config)]
                && instances == old(instances)
                && (old(devices[id].config) == config ==> deviceCtrls == old(deviceCtrls))
    {
      var cchanges, missingKeys := ConfigChanges(devices[id].config, config);
      if missingKeys {
        unsubscribed := Relink(id, topic, config);
        return;
      }
      EmptyDiffIffEqual(devices[id].config, config);
      if cchanges == map[] {
        assert devices[id].(config := config) == devices[id];
        unsubscribed := [];
        return;
      }
      unsubscribed := ChangeConfig(id, topic, cchanges, config);
    }

    /**
     * Add and Update: link an unknown id, update a linked one. unsubscribed
     * is the topic list of the unlink, when the update relinks.
     */
    method AddUpdateDevice(id: string, topic: string, config: Config) returns (ghost unsubscribed: seq<string>)
      requires Valid()
      modifies this
      decreases if id in devices then 4 else 0
      ensures Valid()
      ensures id in devices && devices == old(devices)[id := devices[id]] && devices[id].config == config
      ensures deviceCtrls.Keys <= old(deviceCtrls).Keys + {id}
      // link of an unknown id, or relink of a known one
      ensures id !in old(devices) || Relinks(id, old(devices[id].instance), old(devices[id].config), config) ==>
                && devices == old(devices)[id := DeviceState(id, topic, old(instances), config, map[])]
                && instances == old(instances) + 1 && id in deviceCtrls
      ensures id !in old(devices) ==> log == old(log) + LinkEvents(id, old(instances), config)
      // update of a linked one
      ensures id in old(devices) ==>
                log == old(log) + UpdateEvents(id, old(devices[id].instance), old(devices[id].config), config,
                                               unsubscribed, old(instances))
      ensures id in old(devices) && Relinks(id, old(devices[id].instance), old(devices[id].config), config) ==>
                Enumerates(unsubscribed, old(devices[id].subs).Keys)
      ensures id in old(devices) && !Relinks(id, old(devices[id].instance), old(devices[id].config), config) ==>
                && devices == old(devices)[id := old(devices[id]).(config := config)]
                && instances == old(instances)
                && (old(devices[id].config) == config ==> deviceCtrls == old(deviceCtrls))
    {
      if id in devices {
        unsubscribed := UpdateDevice(id, topic, config);
      } else {
        LinkDevice(id, topic, config);
        unsubscribed := [];
      }
    }

    /** One update taken from the updates channel: Remove unlinks, Add and Update are handled alike. */
    method ProcessUpdate(u: DeviceUpdate) returns (ghost unsubscribed: seq<string>)
      requires Valid()
      modifies this
      ensures Valid()
      ensures ConfigTable() == ApplyUpdate(old(ConfigTable()), u)
      // Remove: unlink a linked id; an unknown one changes nothing
      ensures u.kind == Rem ==> devices == old(devices) - {u.id} && instances == old(instances)
      ensures u.kind == Rem && u.id !in old(devices) ==> log == old(log)
      ensures u.kind == Rem && u.id in old(devices) ==>
                && Enumerates(unsubscribed, old(devices[u.id].subs).Keys)
                && log == old(log) + UnlinkEvents(u.id, old(devices[u.id].instance), old(devices[u.id].config), unsubscribed)
      // Add and Update alike: link an unknown id, update a linked one
      ensures u.kind != Rem && u.id !in old(devices) ==>
                && devices == old(devices)[u.id := DeviceState(u.id, u.topic, old(instances), u.config, map[])]
                && log == old(log) + LinkEvents(u.id, old(instances), u.config)
      ensures u.kind != Rem && u.id in old(devices) ==>
                log == old(log) + UpdateEvents(u.id, old(devices[u.id].instance), old(devices[u.id].config), u.config,
                                               unsubscribed, old(instances))
      ensures u.kind != Rem ==> u.id in devices && devices == old(devices)[u.id := devices[u.id]]
      ensures u.kind != Rem && u.id in old(devices) && Relinks(u.id, old(devices[u.id].instance), old(devices[u.id].config), u.config) ==>
                && devices == old(devices)[u.id := DeviceState(u.id, u.topic, old(instances), u.config, map[])]
                && instances == old(instances) + 1
                && Enumerates(unsubscribed, old(devices[u.id].subs).Keys)
      ensures u.kind != Rem && u.id in old(devices) && !Relinks(u.id, old(devices[u.id].instance), old(devices[u.id].config), u.config) ==>
                && devices == old(devices)[u.id := old(devices[u.id]).(config := u.config)]
                && instances == old(instances)
    {
      match u.kind
      case Rem =>
        unsubscribed := RemoveDevice(u.id);
        TableRemove(old(devices), u.id);
      case Upd =>
        unsubscribed := AddUpdateDevice(u.id, u.topic, u.config);
        TableSet(old(devices), u.id, devices[u.id]);
      case Add =>
        unsubscribed := AddUpdateDevice(u.id, u.topic, u.config);
        TableSet(old(devices), u.id, devices[u.id]);
    }

    /** Delivering the same Add of an unlinked device twice links it once; the repeat is a no-op. */
    method RepeatedAddLinksOnce(u: DeviceUpdate)
      requires Valid() && u.kind == Add && u.id !in devices
      modifies this
      ensures Valid()
      ensures devices == old(devices)[u.id := DeviceState(u.id, u.topic, old(instances), u.config, map[])]
      ensures log == old(log) + LinkEvents(u.id, old(instances), u.config)
    {
      var _ := ProcessUpdate(u);
      ghost var linked := log;
      var _ := ProcessUpdate(u);
      assert log == linked;
    }

    /** The manager's loop, with the channel replaced by the sequence of updates it delivers. */
    method Run(updates: seq<DeviceUpdate>)
      requires Valid()
      modifies this
      ensures Valid()
      ensures ConfigTable() == Replay(old(ConfigTable()), updates)
    {
      for i := 0 to |updates|
        invariant Valid()
        invariant ConfigTable() == Replay(old(ConfigTable()), updates[..i])
      {
        assert updates[..i + 1][..i] == updates[..i];
        var _ := ProcessUpdate(updates[i]);
      }
      assert updates[..|updates|] == updates;
    }
  }
}
