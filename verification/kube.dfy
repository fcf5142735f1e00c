/**
 * The Kubernetes objects a reconcile reads and writes, and an in-memory
 * store standing for the clientset: ConfigMaps keyed by namespace and name,
 * and the events created so far.
 */
module Kube {
  import opened Options

  /** A ConfigMap. `data` is `None` when the Go map is nil. */
  datatype ConfigMap = ConfigMap(
    namespace: string,
    name: string,
    uid: string,
    annotations: map<string, string>,
    data: Option<map<string, string>>)

  /** The data map as Go reads it: a nil map reads as empty. */
  function DataOf(cm: ConfigMap): map<string, string>
  {
    if cm.data.Some? then cm.data.value else map[]
  }

  /** Whether `data` holds `key` (the `_, ok = configMap.Data[key]` test). */
  predicate HasDataKey(cm: ConfigMap, key: string)
  {
    key in DataOf(cm)
  }

  /**
   * The record with `key` set to `value` in its data; a nil data map
   * becomes the singleton map.
   */
  function WithData(cm: ConfigMap, key: string, value: string): (r: ConfigMap)
    ensures r.data.Some? && r.data.value.Keys == DataOf(cm).Keys + {key}
    ensures r.data.value[key] == value
    ensures forall k :: k in DataOf(cm) && k != key ==> r.data.value[k] == DataOf(cm)[k]
    ensures r == cm.(data := r.data)
  {
    if cm.data.None? then cm.(data := Some(map[key := value]))
    else cm.(data := Some(cm.data.value[key := value]))
  }

  /** Identity of a ConfigMap in the store. */
  function KeyOf(cm: ConfigMap): (string, string)
  {
    (cm.namespace, cm.name)
  }

  /** The object an event is about. */
  datatype ObjectReference = ObjectReference(kind: string, namespace: string, name: string, uid: string)

  /**
   * An event. `name` carries a random identifier and `firstTimestamp` the
   * creation time; both are supplied from outside.
   */
  datatype Event = Event(
    name: string,
    message: string,
    reason: string,
    eventType: string,
    firstTimestamp: int,
    involvedObject: ObjectReference,
    sourceComponent: string)

  /** An event as stored: the namespace it was created in, and the event. */
  datatype StoredEvent = StoredEvent(namespace: string, event: Event)

  /** The error text the API server gives when updating a ConfigMap that does not exist. */
  function NotFoundMessage(cm: ConfigMap): string
  {
    "configmaps \"" + cm.name + "\" not found"
  }

  class Store {
    var configMaps: map<(string, string), ConfigMap>
    var events: seq<StoredEvent>
    /** When set, every update is refused with this error. */
    const updateFault: Option<string>
    /** When set, every event creation is refused with this error. */
    const eventFault: Option<string>

    constructor (configMaps: map<(string, string), ConfigMap>, updateFault: Option<string>, eventFault: Option<string>)
      ensures this.configMaps == configMaps && events == []
      ensures this.updateFault == updateFault && this.eventFault == eventFault
    {
      this.configMaps := configMaps;
      events := [];
      this.updateFault := updateFault;
      this.eventFault := eventFault;
    }

    /** The error an update of `cm` would give now, if any. */
    function UpdateError(cm: ConfigMap): Option<string>
      reads this
    {
      if updateFault.Some? then updateFault
      else if KeyOf(cm) !in configMaps then Some(NotFoundMessage(cm))
      else None
    }

    /** `ConfigMaps(namespace).Update(cm)`: replaces the stored ConfigMap. */
    method Update(cm: ConfigMap) returns (err: Option<string>)
      modifies this
      ensures err == old(UpdateError(cm))
      ensures configMaps == if err.None? then old(configMaps)[KeyOf(cm) := cm] else old(configMaps)
      ensures events == old(events)
    {
      err := UpdateError(cm);
      if err.None? {
        configMaps := configMaps[KeyOf(cm) := cm];
      }
    }

    /** `Events(namespace).Create(event)`: records one event. */
    method CreateEvent(namespace: string, event: Event) returns (err: Option<string>)
      modifies this
      ensures err == eventFault
      ensures events == if err.None? then old(events) + [StoredEvent(namespace, event)] else old(events)
      ensures configMaps == old(configMaps)
    {
      err := eventFault;
      if err.None? {
        events := events + [StoredEvent(namespace, event)];
      }
    }
  }
}
