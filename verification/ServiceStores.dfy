/** The two storage backends: one keeps its callers' objects and updates them in place, one keeps copies. */
module ServiceStores {
  import opened RegistrySpec

  /** A ComponentStatusResponse, always held by pointer. */
  class StatusObject {
    var value: Status

    constructor (value: Status)
      ensures this.value == value
    {
      this.value := value;
    }
  }

  /** A Service of the cache or a ServiceInfo of the memory store: both structs have these three fields. */
  class Entry {
    const info: Info
    const status: StatusObject
    var lastSeen: int

    constructor (info: Info, status: StatusObject, lastSeen: int)
      ensures this.info == info && this.status == status && this.lastSeen == lastSeen
    {
      this.info, this.status, this.lastSeen := info, status, lastSeen;
    }

    function Value(): Record
      reads this, status
    {
      Record(info, status.value, lastSeen)
    }
  }

  type Entries = map<string, Entry>

  function Footprint(m: Entries): set<object> {
    (set id | id in m :: m[id]) + (set id | id in m :: m[id].status)
  }

  /** The objects that hold the record of one id. */
  function Under(m: Entries, id: string): set<object> {
    if id in m then {m[id], m[id].status} else {}
  }

  function Values(m: Entries): Records
    reads Footprint(m)
  {
    map id | id in m :: m[id].Value()
  }

  /** No two ids of one map share an entry or a status. */
  predicate Separate(m: Entries) {
    forall a, b :: a in m && b in m && a != b ==> m[a] != m[b] && m[a].status != m[b].status
  }

  /** The entry is not in the map, and its status at most under the given id. */
  predicate Outside(e: Entry, m: Entries, id: string) {
    forall k :: k in m ==> m[k] != e && (k != id ==> m[k].status != e.status)
  }

  /** The entry is not in the map. */
  predicate Lacks(m: Entries, e: Entry) {
    forall k :: k in m ==> m[k] != e
  }

  /** Cache and store share no entry; the same status may be under any ids of theirs. */
  predicate NoCommonEntry(cache: Entries, store: Entries) {
    forall id :: id in cache ==> Lacks(store, cache[id])
  }

  /** Cache and store share no entry, and a status only under one and the same id. */
  predicate Apart(cache: Entries, store: Entries) {
    && (forall id :: id in cache ==> Outside(cache[id], store, id))
    && (forall id :: id in store ==> Outside(store[id], cache, id))
  }

  /** The two updaters that the control plane passes to UpdateService. */
  datatype Update = Beaten(beat: Beat, now: int) | MarkUnhealthy

  function Updated(r: Record, u: Update): (after: Record)
    ensures after.info == r.info
  {
    match u
    case Beaten(b, now) => RecordAfter(r, b, now)
    case MarkUnhealthy => MarkedUnhealthy(r)
  }

  /** Runs an updater on the object it is given. */
  method UpdateInPlace(e: Entry, u: Update)
    modifies e, e.status
    ensures e.Value() == Updated(old(e.Value()), u)
  {
    match u {
      case Beaten(b, now) =>
        e.lastSeen := now;
        e.status.value := e.status.value.(metrics := Merge(e.status.value.metrics, b.metrics));
        if b.health != Unknown && !(RunId(e.status.value.metrics) != "" && b.health == Healthy) {
          e.status.value := e.status.value.(health := b.health);
        } else if e.status.value.health == Unknown {
          e.status.value := e.status.value.(health := Healthy);
        }
        e.status.value := e.status.value.(lastHeartbeat := now);
      case MarkUnhealthy =>
        e.status.value := e.status.value.(health := Unhealthy);
    }
  }

  datatype StoreError = NotFound(id: string) | EmptyKey

  datatype Outcome = Done | Failed(error: StoreError)

  /** The memory backend: the map holds the very objects its callers passed in. */
  class MemoryStorage {
    var services: Entries

    constructor ()
      ensures services == map[]
    {
      services := map[];
    }

    method RegisterService(e: Entry)
      modifies this
      ensures services == old(services)[e.info.id := e]
    {
      services := services[e.info.id := e];
    }

    method UpdateService(id: string, u: Update) returns (r: Outcome)
      requires Separate(services)
      modifies Under(services, id)
      ensures r == if id in services then Done else Failed(NotFound(id))
      ensures Values(services) ==
              if id in services then old(Values(services))[id := Updated(old(services[id].Value()), u)]
              else old(Values(services))
    {
      if id !in services {
        return Failed(NotFound(id));
      }
      UpdateInPlace(services[id], u);
      r := Done;
    }

    method DeleteService(id: string) returns (r: Outcome)
      modifies this
      ensures r == if id in old(services) then Done else Failed(NotFound(id))
      ensures services == old(services) - {id}
    {
      if id !in services {
        return Failed(NotFound(id));
      }
      services := services - {id};
      r := Done;
    }
  }

  /** The file backend: a bucket of records, each decoded to a fresh copy and written back. */
  class BoltStorage {
    var bucket: Records

    constructor ()
      ensures bucket == map[]
    {
      bucket := map[];
    }

    method RegisterService(e: Entry) returns (r: Outcome)
      modifies this
      ensures r == if e.info.id == "" then Failed(EmptyKey) else Done
      ensures bucket == Put(old(bucket), e.Value(), Bolt)
    {
      if e.info.id == "" {
        return Failed(EmptyKey);
      }
      bucket := bucket[e.info.id := e.Value()];
      r := Done;
    }

    /** A stored record is read as a fresh object each time. */
    method Decode(id: string) returns (e: Entry)
      requires id in bucket
      ensures fresh(e) && fresh(e.status) && e.Value() == bucket[id]
    {
      var status := new StatusObject(bucket[id].status);
      e := new Entry(bucket[id].info, status, bucket[id].lastSeen);
    }

    method UpdateService(id: string, u: Update) returns (r: Outcome)
      modifies this
      ensures r == if id in old(bucket) then Done else Failed(NotFound(id))
      ensures bucket == if id in old(bucket) then old(bucket)[id := Updated(old(bucket)[id], u)] else old(bucket)
    {
      if id !in bucket {
        return Failed(NotFound(id));
      }
      var copy := Decode(id);
      UpdateInPlace(copy, u);
      bucket := bucket[id := copy.Value()];
      r := Done;
    }

    method DeleteService(id: string) returns (r: Outcome)
      modifies this
      ensures r == if id in old(bucket) then Done else Failed(NotFound(id))
      ensures bucket == old(bucket) - {id}
    {
      if id !in bucket {
        return Failed(NotFound(id));
      }
      bucket := bucket - {id};
      r := Done;
    }
  }
}
