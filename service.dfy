/**
 * The service client's update adapter and status helpers (service.go): live
 * lifecycle events and the directory snapshot become DeviceUpdate records,
 * and status messages are published under the service node's topic.
 */
module Service {

  import opened Wrappers
  import opened RestService

  const EventsSubTopic := "/thing/events"
  const DeviceStatusSubTopic := "/thing/status"
  const StatusSubTopic := "/status"

  /** Update kinds in declaration order (0, 1, 2); the zero value is Add. */
  datatype UpdateType = Add | Rem | Upd

  /** A normalised lifecycle update. The device's pubsub topic travels with it. */
  datatype DeviceUpdate = DeviceUpdate(kind: UpdateType, id: string, config: Config, topic: string)

  /** A live lifecycle event as its JSON payload decodes: an action tag and the device. */
  datatype ServiceUpdatesEncapsulation = ServiceUpdatesEncapsulation(action: string, device: ServiceDeviceListItem)

  /** Status payloads, kept structured (their JSON encoding is not modelled). */
  datatype StatusPayload =
    | ServiceStatus(message: string)
    | ServiceDeviceStatus(deviceId: string, message: string)

  /** A publication on the transport. */
  datatype Publication = Publication(topic: string, payload: StatusPayload)

  /** Maps an event's action tag to an update kind; an unknown tag leaves the zero value, Add. */
  function ActionType(action: string): (t: UpdateType)
    ensures t == Rem <==> action == "delete"
    ensures t == Upd <==> action == "update"
    ensures t == Add <==> action != "delete" && action != "update"
    ensures action == "new" ==> t == Add
  {
    match action
    case "new" => Add
    case "update" => Upd
    case "delete" => Rem
    case _ => Add
  }

  /**
   * One live event handled: a payload that failed to decode (None) is dropped;
   * otherwise the update carries the action's kind, the device id and the
   * device's config map.
   */
  function DecodeEvent(payload: Option<ServiceUpdatesEncapsulation>, deviceTopic: string -> string): (r: Option<DeviceUpdate>)
    ensures r.None? <==> payload.None?
    ensures r.Some? ==> r.value.kind == ActionType(payload.value.action)
                        && r.value.id == payload.value.device.id
                        && r.value.config == ConfigMap(payload.value.device.config)
                        && r.value.topic == deviceTopic(payload.value.device.id)
  {
    match payload
    case None => None
    case Some(msg) =>
      Some(DeviceUpdate(ActionType(msg.action), msg.device.id, ConfigMap(msg.device.config), deviceTopic(msg.device.id)))
  }

  /** The Add update the snapshot yields for one listed device. */
  function SnapshotUpdate(item: ServiceDeviceListItem, deviceTopic: string -> string): DeviceUpdate
  {
    DeviceUpdate(Add, item.id, ConfigMap(item.config), deviceTopic(item.id))
  }

  /** The snapshot preload: one Add per listed device, in list order. */
  method PreloadUpdates(items: seq<ServiceDeviceListItem>, deviceTopic: string -> string) returns (ups: seq<DeviceUpdate>)
    ensures |ups| == |items|
    ensures forall i :: 0 <= i < |items| ==> ups[i] == SnapshotUpdate(items[i], deviceTopic)
  {
    ups := [];
    for i := 0 to |items|
      invariant |ups| == i
      invariant forall j :: 0 <= j < i ==> ups[j] == SnapshotUpdate(items[j], deviceTopic)
    {
      var config := items[i].GetConfigMap();
      ups := ups + [DeviceUpdate(Add, items[i].id, config, deviceTopic(items[i].id))];
    }
  }

  /** The topic of the service-wide status. */
  function StatusTopic(nodeTopic: string): (t: string)
    ensures |t| == |nodeTopic| + 7 && t[..|nodeTopic|] == nodeTopic && t[|nodeTopic|..] == "/status"
  {
    nodeTopic + StatusSubTopic
  }

  /** The topic of per-device link status messages. */
  function DeviceStatusTopic(nodeTopic: string): (t: string)
    ensures |t| == |nodeTopic| + 13 && t[..|nodeTopic|] == nodeTopic && t[|nodeTopic|..] == "/thing/status"
  {
    nodeTopic + DeviceStatusSubTopic
  }

  /** The topic of live lifecycle events. */
  function EventsTopic(nodeTopic: string): (t: string)
    ensures |t| == |nodeTopic| + 13 && t[..|nodeTopic|] == nodeTopic && t[|nodeTopic|..] == "/thing/events"
  {
    nodeTopic + EventsSubTopic
  }

  /** The three topics under one node are pairwise different, so status messages never reach the events topic. */
  lemma ServiceTopicsDistinct(nodeTopic: string)
    ensures StatusTopic(nodeTopic) != DeviceStatusTopic(nodeTopic)
    ensures StatusTopic(nodeTopic) != EventsTopic(nodeTopic)
    ensures DeviceStatusTopic(nodeTopic) != EventsTopic(nodeTopic)
  {
    var n := |nodeTopic|;
    assert DeviceStatusTopic(nodeTopic)[n + 7] != EventsTopic(nodeTopic)[n + 7];
  }

  /** What SetDeviceStatus publishes for a device. */
  function DeviceStatusPublication(nodeTopic: string, id: string, message: string): Publication
  {
    Publication(DeviceStatusTopic(nodeTopic), ServiceDeviceStatus(id, message))
  }

  /** The lifecycle of the queue that live events are pushed onto. */
  datatype QueueState = Unmade | Open | Closed

  /** A call the service client makes on the transport. */
  datatype TransportCall =
    | Subscribed(topic: string)
    | Unsubscribed(topic: string)
    | Published(publication: Publication)

  /**
   * The service client: its node's topic and properties, the queue of live
   * updates, the updates channel (as the sequence of updates delivered on it,
   * in order) and the calls made on the transport.
   */
  class ServiceClient {
    const nodeTopic: string
    const properties: map<string, string>
    /** The pubsub topic of a device, as the directory assigns it. */
    const deviceTopic: string -> string
    var updatesQueue: QueueState
    var updates: seq<DeviceUpdate>
    /** Number of leading updates that came from the snapshot. */
    ghost var preloaded: nat
    var calls: seq<TransportCall>

    constructor (nodeTopic: string, properties: map<string, string>, deviceTopic: string -> string)
      ensures this.nodeTopic == nodeTopic && this.properties == properties && this.deviceTopic == deviceTopic
      ensures updatesQueue == Unmade && updates == [] && preloaded == 0 && calls == []
    {
      this.nodeTopic := nodeTopic;
      this.properties := properties;
      this.deviceTopic := deviceTopic;
      updatesQueue := Unmade;
      updates := [];
      preloaded := 0;
      calls := [];
    }

    /** The stored property value, or "" when the key is absent. */
    function GetProperty(key: string): (r: string)
      ensures key in properties ==> r == properties[key]
      ensures key !in properties ==> r == ""
    {
      if key in properties then properties[key] else ""
    }

    /** Publishes the service status under the node topic plus "/status". */
    method SetStatus(message: string)
      modifies this`calls
      ensures calls == old(calls) + [Published(Publication(StatusTopic(nodeTopic), ServiceStatus(message)))]
    {
      calls := calls + [Published(Publication(nodeTopic + StatusSubTopic, ServiceStatus(message)))];
    }

    /** Publishes a device's link status under the node topic plus "/thing/status". */
    method SetDeviceStatus(id: string, message: string)
      modifies this`calls
      ensures calls == old(calls) + [Published(DeviceStatusPublication(nodeTopic, id, message))]
    {
      calls := calls + [Published(Publication(nodeTopic + DeviceStatusSubTopic, ServiceDeviceStatus(id, message)))];
    }

    /**
     * Subscribes to the live events topic, then preloads the snapshot. A failed
     * subscription closes the queue; a failed snapshot request also
     * unsubscribes and drops the queue. Either failure returns no channel. On
     * success the channel starts with the snapshot's Add updates.
     */
    method StartDeviceUpdates(subscribeOk: bool, snapshot: Option<seq<ServiceDeviceListItem>>)
      returns (channel: Option<seq<DeviceUpdate>>)
      modifies this`updatesQueue, this`updates, this`preloaded, this`calls
      ensures !subscribeOk ==> channel.None? && updatesQueue == Closed
                               && calls == old(calls) + [Subscribed(EventsTopic(nodeTopic))]
                               && updates == old(updates) && preloaded == old(preloaded)
      ensures subscribeOk && snapshot.None? ==>
                channel.None? && updatesQueue == Unmade
                && calls == old(calls) + [Subscribed(EventsTopic(nodeTopic)), Unsubscribed(EventsTopic(nodeTopic))]
                && updates == old(updates) && preloaded == old(preloaded)
      ensures subscribeOk && snapshot.Some? ==>
                channel == Some(updates) && updatesQueue == Open
                && calls == old(calls) + [Subscribed(EventsTopic(nodeTopic))]
                && preloaded == |snapshot.value| == |updates|
                && forall i :: 0 <= i < |updates| ==> updates[i] == SnapshotUpdate(snapshot.value[i], deviceTopic)
    {
      updatesQueue := Open;
      var topicEvents := nodeTopic + EventsSubTopic;
      calls := calls + [Subscribed(topicEvents)];
      if !subscribeOk {
        updatesQueue := Closed;
        return None;
      }
      if snapshot.None? {
        calls := calls + [Unsubscribed(topicEvents)];
        updatesQueue := Unmade;
        return None;
      }
      updates := PreloadUpdates(snapshot.value, deviceTopic);
      preloaded := |updates|;
      channel := Some(updates);
    }

    /**
     * A live event arrives on the events topic and is forwarded to the
     * updates channel behind everything already there; an undecodable
     * payload is dropped.
     */
    method DeliverEvent(payload: Option<ServiceUpdatesEncapsulation>)
      requires updatesQueue == Open
      requires preloaded <= |updates|
      modifies this`updates
      ensures preloaded <= |updates|
      ensures updates[..preloaded] == old(updates[..preloaded])
      ensures payload.None? ==> updates == old(updates)
      ensures payload.Some? ==> updates == old(updates) + [DecodeEvent(payload, deviceTopic).value]
    {
      var u := DecodeEvent(payload, deviceTopic);
      if u.Some? {
        updates := updates + [u.value];
      }
    }
  }
}
