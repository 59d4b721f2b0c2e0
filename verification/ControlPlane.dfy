/** The control plane's registry: a cache of mutable records kept in step with a storage backend. */
module ControlPlane {
  import opened RegistrySpec
  import opened ServiceStores

  /** Running an updater on an object it has already updated changes nothing. */
  lemma UpdateIsIdempotent(r: Record, s: Record, u: Update)
    requires r.status == s.status
    ensures Updated(r, u).status == Updated(s, u).status
    ensures Updated(r.(status := Updated(s, u).status), u) == Updated(r, u)
  {
    if u.Beaten? {
      HeartbeatIsIdempotent(s.status, u.beat, u.now);
    }
  }

  lemma ValueAt(m: Entries)
    ensures Values(m).Keys == m.Keys && forall k :: k in m ==> Values(m)[k] == m[k].Value()
  {
  }

  /** A map of objects in which at most the record of one id changed. */
  lemma OneChanged(m: Entries, before: Records, id: string)
    requires m.Keys == before.Keys
    requires forall k :: k in m && k != id ==> m[k].Value() == before[k]
    ensures Values(m) == if id in m then before[id := m[id].Value()] else before
  {
  }

  /** The updater's effect on the statuses of the records of `ids`. */
  ghost function Spread(m: Records, ids: set<string>, u: Update): Records {
    map id | id in m :: if id in ids then m[id].(status := Updated(m[id], u).status) else m[id]
  }

  /** The ids whose records are around this status object. */
  ghost function Holders(m: Entries, status: StatusObject): set<string> {
    set id | id in m && m[id].status == status
  }

  lemma NothingHeld(m: Entries, status: StatusObject)
    requires m == map[]
    ensures Holders(m, status) == {}
  {
  }

  lemma SpreadToNone(m: Records, u: Update)
    ensures Spread(m, {}, u) == m
  {
  }

  lemma SpreadKeepsKeyed(m: Records, ids: set<string>, u: Update)
    requires Keyed(m)
    ensures Keyed(Spread(m, ids, u))
  {
    hide Updated;
  }

  /** A record that the updater reaches twice, once through its status, ends as updated once. */
  lemma TwiceIsOnce(m: Records, ids: set<string>, id: string, u: Update)
    requires id in m
    ensures Spread(m, ids, u)[id := Updated(Spread(m, ids, u)[id], u)] ==
            Spread(m[id := Updated(m[id], u)], ids - {id}, u)
    ensures Spread(m[id := Updated(m[id], u)], ids, u) == Spread(m[id := Updated(m[id], u)], ids - {id}, u)
  {
    hide Updated;
    var r := m[id];
    UpdateIsIdempotent(r, r, u);
    UpdateIsIdempotent(r.(status := Updated(r, u).status), Updated(r, u), u);
  }

  /** What a changed status makes of the records around it. */
  lemma StatusSpread(m: Entries, before: Records, status: StatusObject, was: Record, u: Update)
    requires m.Keys == before.Keys && status.value == Updated(was, u).status
    requires forall k :: k in m && m[k].status != status ==> m[k].Value() == before[k]
    requires forall k :: k in m && m[k].status == status ==>
      m[k].Value() == before[k].(status := status.value) && before[k].status == was.status
    ensures Values(m) == Spread(before, Holders(m, status), u)
  {
    hide Updated;
    forall k | k in m && m[k].status == status ensures Updated(before[k], u).status == status.value {
      UpdateIsIdempotent(before[k], was, u);
    }
  }

  /** Updating a cached record in place reaches the stored records around the same status, and no others. */
  method UpdateCached(cache: Entries, ghost store: Entries, id: string, u: Update)
    requires id in cache && Separate(cache) && Lacks(store, cache[id])
    modifies Under(cache, id)
    ensures Values(cache) == old(Values(cache))[id := Updated(old(Values(cache))[id], u)]
    ensures Values(store) == Spread(old(Values(store)), Holders(store, cache[id].status), u)
  {
    hide Updated, Values, Spread, Holders;
    ghost var cached, stored := Values(cache), Values(store);
    ValueAt(cache);
    ValueAt(store);
    UpdateInPlace(cache[id], u);
    OneChanged(cache, cached, id);
    StatusSpread(store, stored, cache[id].status, cached[id], u);
  }

  /** Updating a record of the memory backend reaches the cached records around the same status, and no others. */
  method UpdateStored(ghost cache: Entries, memory: MemoryStorage, id: string, u: Update)
    requires id in memory.services && Separate(memory.services) && Lacks(cache, memory.services[id])
    modifies Under(memory.services, id)
    ensures Values(memory.services) ==
            old(Values(memory.services))[id := Updated(old(Values(memory.services))[id], u)]
    ensures Values(cache) == Spread(old(Values(cache)), Holders(cache, memory.services[id].status), u)
  {
    hide Updated, Values, Spread, Holders, Separate;
    ghost var cached, stored := Values(cache), Values(memory.services);
    ValueAt(cache);
    ValueAt(memory.services);
    var r := memory.UpdateService(id, u);
    ValueAt(memory.services);
    StatusSpread(cache, cached, memory.services[id].status, stored[id], u);
  }

  lemma EntryAdded(m: Entries, id: string, e: Entry)
    ensures Values(m[id := e]) == Values(m)[id := e.Value()]
    ensures Separate(m) && Outside(e, m, id) ==> Separate(m[id := e])
  {
  }

  lemma ApartAdded(cache: Entries, store: Entries, id: string, e: Entry)
    ensures Apart(cache, store) && Outside(e, store, id) ==> Apart(cache[id := e], store)
    ensures Apart(cache, store) && Outside(e, cache, id) ==> Apart(cache, store[id := e])
    ensures NoCommonEntry(cache, store) && Lacks(store, e) ==> NoCommonEntry(cache[id := e], store)
    ensures NoCommonEntry(cache, store) && Lacks(cache, e) ==> NoCommonEntry(cache, store[id := e])
  {
  }

  lemma EntryRemoved(m: Entries, id: string)
    ensures Values(m - {id}) == Values(m) - {id}
    ensures Separate(m) ==> Separate(m - {id})
  {
  }

  lemma ApartRemoved(cache: Entries, store: Entries, id: string)
    ensures Apart(cache, store) ==> Apart(cache - {id}, store) && Apart(cache, store - {id})
    ensures NoCommonEntry(cache, store) ==>
      NoCommonEntry(cache - {id}, store) && NoCommonEntry(cache, store - {id})
  {
  }

  lemma EntriesLackEachOther(cache: Entries, store: Entries, id: string)
    requires NoCommonEntry(cache, store)
    ensures id in cache ==> Lacks(store, cache[id])
    ensures id in store ==> Lacks(cache, store[id])
  {
  }

  /** The records with that of one id updated, if there is one. */
  ghost function Written(m: Records, id: string, u: Update): Records {
    if id in m then m[id := Updated(m[id], u)] else m
  }

  lemma WrittenStaysKeyed(stored: Records, id: string, u: Update)
    requires Keyed(stored)
    ensures Keyed(Written(stored, id, u))
  {
    hide Updated;
  }

  lemma WrittenTwice(m: Records, ids: set<string>, id: string, u: Update)
    requires id in ids ==> id in m
    ensures Written(Spread(m, ids, u), id, u) == Spread(Written(m, id, u), ids - {id}, u)
  {
    hide Updated;
    if id in m {
      TwiceIsOnce(m, ids, id, u);
    } else {
      assert ids - {id} == ids;
    }
  }

  lemma UnderFootprint(m: Entries, id: string)
    ensures Under(m, id) <= Footprint(m)
  {
  }

  lemma SweptNone(cached: Records, stored: Records, now: int, ttl: nat)
    ensures SweptCache(cached, {}, now, ttl) == cached && SweptStore(cached, stored, {}, now, ttl) == stored
  {
  }

  /** One more service looked at. */
  lemma SweptOneMore(cached: Records, stored: Records, swept: set<string>, id: string, now: int, ttl: nat)
    requires id in cached && id !in swept
    ensures SweptCache(cached, swept, now, ttl)[id] == cached[id]
    ensures SweptStore(cached, stored, swept, now, ttl).Keys == stored.Keys
    ensures id in stored ==> SweptStore(cached, stored, swept, now, ttl)[id] == stored[id]
    ensures SweptCache(cached, swept + {id}, now, ttl) ==
            if Demotes(cached[id], now, ttl)
            then SweptCache(cached, swept, now, ttl)[id := Updated(cached[id], MarkUnhealthy)]
            else SweptCache(cached, swept, now, ttl)
    ensures SweptStore(cached, stored, swept + {id}, now, ttl) ==
            if Demotes(cached[id], now, ttl) && id in stored
            then SweptStore(cached, stored, swept, now, ttl)[id := Updated(stored[id], MarkUnhealthy)]
            else SweptStore(cached, stored, swept, now, ttl)
  {
  }

  /** The stored records listed so far. */
  ghost function Listed(stored: Records, done: set<string>): Records {
    map id | id in stored && id in done :: stored[id]
  }

  lemma ListedAll(stored: Records)
    requires Keyed(stored)
    ensures Listed(stored, stored.Keys) == Loaded(stored) && Listed(stored, {}) == map[]
  {
  }

  lemma ListedOneMore(cached: Records, stored: Records, done: set<string>, id: string)
    requires id in stored
    ensures cached + Listed(stored, done + {id}) == (cached + Listed(stored, done))[id := stored[id]]
  {
  }

  /** The cache's record and the one for the backend, with one status between them. */
  method NewService(info: Info, now: int) returns (service: Entry, serviceInfo: Entry)
    ensures fresh(service) && fresh(serviceInfo) && service != serviceInfo
    ensures fresh(service.status) && service.status == serviceInfo.status
    ensures service.info == info && serviceInfo.info == info
    ensures service.Value() == serviceInfo.Value() == FreshRecord(info, now)
  {
    var status := new StatusObject(Status(info, Healthy, now, map[], now));
    service := new Entry(info, status, now);
    serviceInfo := new Entry(info, status, now);
  }

  class ControlPlaneServer {
    var services: Entries
    const memory: MemoryStorage?
    const bolt: BoltStorage?
    const ttl: nat

    /** What the backend's own map of objects holds; empty for the other backends. */
    ghost function Shared(): Entries
      reads memory
    {
      if memory != null then memory.services else map[]
    }

    ghost function Repr(): set<object>
      reads this, memory
    {
      {this} + Footprint(services) + Footprint(Shared()) +
      (if memory != null then {memory} else {}) + (if bolt != null then {bolt} else {})
    }

    ghost function Setup(): RegistrySpec.Setup {
      RegistrySpec.Setup(ttl, if memory != null then Memory else if bolt != null then Bolt else Backend.None)
    }

    ghost function Cache(): Records
      reads Repr()
    {
      Values(services)
    }

    ghost function Stored(): Records
      reads Repr()
    {
      if memory != null then Values(memory.services) else if bolt != null then bolt.bucket else map[]
    }

    ghost function View(): State
      reads Repr()
    {
      State(Cache(), Stored())
    }

    /**
     No record is held twice, and the store is keyed by component id. A record of the cache and one of the store may be
     around the same status.
     */
    ghost predicate Sound()
      reads Repr()
    {
      && (memory == null || bolt == null)
      && Separate(services) && Separate(Shared()) && NoCommonEntry(services, Shared())
      && Keyed(Stored())
    }

    /** Moreover a status is shared only between one and the same id's records. */
    ghost predicate Valid()
      reads Repr()
    {
      Sound() && Apart(services, Shared())
    }

    /** The other services of the cache that a write to the backend's record of this id reaches. */
    ghost function CacheSharers(id: string): set<string>
      reads this, memory
    {
      if id in Shared() then Holders(services, Shared()[id].status) - {id} else {}
    }

    /** The other records of the backend that a write to the cache's record of this id reaches. */
    ghost function StoreSharers(id: string): set<string>
      reads this, memory
    {
      if id in services then Holders(Shared(), services[id].status) - {id} else {}
    }

    lemma OnlyTheStoredAreHeld(id: string)
      requires id in services
      ensures id in Holders(Shared(), services[id].status) ==> id in Stored()
    {
    }

    lemma ApartMeansNoSharers(id: string)
      requires Apart(services, Shared())
      ensures CacheSharers(id) == {} && StoreSharers(id) == {}
    {
    }

    constructor (memory: MemoryStorage?, bolt: BoltStorage?, ttl: nat)
      requires memory == null || bolt == null
      requires memory != null ==> Separate(memory.services) && Keyed(Values(memory.services))
      requires bolt != null ==> Keyed(bolt.bucket)
      ensures Valid() && this.memory == memory && this.bolt == bolt && this.ttl == ttl
      ensures services == map[]
    {
      this.services, this.memory, this.bolt, this.ttl := map[], memory, bolt, ttl;
    }

    /** The backend's update of its record, which reaches the cache through a shared status. */
    method WriteThrough(id: string, u: ServiceStores.Update)
      requires Sound()
      modifies Under(Shared(), id), bolt
      ensures Shared() == old(Shared()) && Sound()
      ensures Stored() == Written(old(Stored()), id, u)
      ensures Cache() ==
              Spread(old(Cache()), if id in Shared() then Holders(services, Shared()[id].status) else {}, u)
    {
      hide Updated, Separate, Keyed, Spread, Holders, NoCommonEntry, Lacks;
      EntriesLackEachOther(services, Shared(), id);
      WrittenStaysKeyed(Stored(), id, u);
      SpreadToNone(Cache(), u);
      if memory != null && id in memory.services {
        UpdateStored(services, memory, id, u);
      } else if bolt != null {
        var r := bolt.UpdateService(id, u);
      }
    }

    /** The update of the cache's own record, which reaches the backend's objects through a shared status. */
    method UpdateOwn(id: string, u: ServiceStores.Update)
      requires Sound() && id in services
      modifies Under(services, id)
      ensures Shared() == old(Shared()) && Sound()
      ensures Cache() == old(Cache())[id := Updated(old(Cache())[id], u)]
      ensures Stored() == Spread(old(Stored()), Holders(Shared(), services[id].status), u)
    {
      hide Updated, Separate, Keyed, Spread, Holders, NoCommonEntry, Lacks;
      EntriesLackEachOther(services, Shared(), id);
      if memory == null {
        NothingHeld(Shared(), services[id].status);
      }
      SpreadKeepsKeyed(Stored(), Holders(Shared(), services[id].status), u);
      SpreadToNone(Stored(), u);
      UpdateCached(services, Shared(), id, u);
    }

    /**
     The effect of one updater on the cached record and on the stored one. Records of other ids around the same statuses
     are updated with them.
     */
    method Update(id: string, u: ServiceStores.Update)
      requires Sound() && id in services
      modifies Under(services, id), Under(Shared(), id), bolt
      ensures Shared() == old(Shared()) && Sound()
      ensures Cache() == Spread(old(Cache())[id := Updated(old(Cache())[id], u)], CacheSharers(id), u)
      ensures Stored() == Spread(Written(old(Stored()), id, u), StoreSharers(id), u)
    {
      hide Sound, Updated, Spread, Holders;
      ghost var cached, stored := Cache(), Stored();
      ghost var inStore := Holders(Shared(), services[id].status);
      ghost var inCache := if id in Shared() then Holders(services, Shared()[id].status) else {};
      OnlyTheStoredAreHeld(id);
      WrittenTwice(stored, inStore, id, u);
      TwiceIsOnce(cached, inCache, id, u);
      UpdateOwn(id, u);
      WriteThrough(id, u);
    }

    /** Keeping a record in the cache. */
    method Keep(id: string, e: Entry)
      requires Sound() && Outside(e, services, id) && Lacks(Shared(), e)
      modifies `services
      ensures Sound() && services == old(services)[id := e]
      ensures old(Valid()) && Outside(e, Shared(), id) ==> Valid()
      ensures Cache() == old(Cache())[id := e.Value()] && Stored() == old(Stored())
    {
      hide Apart, Separate, Outside, NoCommonEntry;
      EntryAdded(services, id, e);
      ApartAdded(services, Shared(), id, e);
      services := services[id := e];
    }

    /** Handing a record to the backend. */
    method Persist(e: Entry)
      requires Sound() && Outside(e, Shared(), e.info.id) && Lacks(services, e)
      modifies memory, bolt
      ensures Sound() && Shared() == if memory != null then old(Shared())[e.info.id := e] else old(Shared())
      ensures old(Valid()) && (memory == null || Outside(e, services, e.info.id)) ==> Valid()
      ensures Cache() == old(Cache()) && Stored() == Put(old(Stored()), e.Value(), Setup().backend)
    {
      hide Apart, Separate, Outside, NoCommonEntry;
      ghost var store := Shared();
      EntryAdded(store, e.info.id, e);
      ApartAdded(services, store, e.info.id, e);
      if memory != null {
        memory.RegisterService(e);
      } else if bolt != null {
        var r := bolt.RegisterService(e);
      }
    }

    /**
     A registration replaces the record of its service id in the cache and of its component's id in the store. The
     two records share their status; if the ids differ and the backend keeps objects, later updates of the one
     reach the other.
     */
    method RegisterComponent(componentId: string, info: Info, generated: string, now: int) returns (serviceId: string)
      requires Sound()
      modifies this, memory, bolt
      ensures serviceId == ServiceId(componentId, info, generated)
      ensures Sound() && (old(Valid()) && (memory == null || serviceId == info.id) ==> Valid())
      ensures View() == Apply(old(View()), Register(componentId, info, generated, now), Setup())
      ensures serviceId in services && services == old(services)[serviceId := services[serviceId]]
      ensures memory != null ==>
        && info.id in Shared() && Shared() == old(Shared())[info.id := Shared()[info.id]]
        && Shared()[info.id].status == services[serviceId].status && fresh(Shared()[info.id])
      ensures fresh(services[serviceId]) && fresh(services[serviceId].status)
    {
      hide Apart, Separate, Put, FreshRecord;
      serviceId := componentId;
      if serviceId == "" {
        serviceId := info.id;
      }
      if serviceId == "" {
        serviceId := generated;
      }
      var service, serviceInfo := NewService(info, now);
      assert Cache() == old(Cache()) && Stored() == old(Stored());
      Keep(serviceId, service);
      Persist(serviceInfo);
    }

    /**
     A heartbeat of an unknown service is an error and changes nothing; the store may lack a service the cache has.
     Where a status is shared between records of different ids, it is a heartbeat of the others too.
     */
    method Heartbeat(id: string, beat: Beat, now: int) returns (r: Outcome)
      requires Sound()
      modifies Under(services, id), Under(Shared(), id), bolt
      ensures Sound() && Shared() == old(Shared()) && (old(Valid()) ==> Valid())
      ensures r == if id in services then Done else Failed(NotFound(id))
      ensures r == Done ==>
        && Cache() == Spread(Written(old(Cache()), id, Beaten(beat, now)), CacheSharers(id), Beaten(beat, now))
        && Stored() == Spread(Written(old(Stored()), id, Beaten(beat, now)), StoreSharers(id), Beaten(beat, now))
      ensures r != Done ==> View() == old(View())
      ensures old(Valid()) ==> View() == Apply(old(View()), RegistrySpec.Heartbeat(id, beat, now), Setup())
    {
      hide Spread, Holders;
      if id !in services {
        return Failed(NotFound(id));
      }
      Update(id, Beaten(beat, now));
      if Valid() {
        ApartMeansNoSharers(id);
        SpreadToNone(Written(old(Cache()), id, Beaten(beat, now)), Beaten(beat, now));
        SpreadToNone(Written(old(Stored()), id, Beaten(beat, now)), Beaten(beat, now));
      }
      r := Done;
    }

    method UnregisterComponent(id: string)
      requires Sound()
      modifies this, memory, bolt
      ensures Sound() && (old(Valid()) ==> Valid())
      ensures View() == Apply(old(View()), Unregister(id), Setup())
    {
      hide Sound, Valid, Cache, Stored;
      Forget(id);
      Discard(id);
    }

    /** Dropping a record from the cache. */
    method Forget(id: string)
      requires Sound()
      modifies `services
      ensures Sound() && (old(Valid()) ==> Valid())
      ensures Cache() == old(Cache()) - {id} && Stored() == old(Stored())
    {
      hide Apart, Separate;
      EntryRemoved(services, id);
      ApartRemoved(services, Shared(), id);
      services := services - {id};
    }

    /** Having the backend drop a record; the backend's complaint about a missing one is only logged. */
    method Discard(id: string)
      requires Sound()
      modifies memory, bolt
      ensures Sound() && (old(Valid()) ==> Valid())
      ensures Cache() == old(Cache()) && Stored() == old(Stored()) - {id}
    {
      hide Apart, Separate;
      EntryRemoved(Shared(), id);
      ApartRemoved(services, Shared(), id);
      if memory != null {
        var r := memory.DeleteService(id);
      } else if bolt != null {
        var r := bolt.DeleteService(id);
      }
    }

    /** A healthy service that has gone stale is marked unhealthy, in the cache and in the store. */
    method CheckOne(id: string, now: int)
      requires Valid() && id in services
      modifies Under(services, id), Under(Shared(), id), bolt
      ensures services == old(services) && Shared() == old(Shared()) && Valid()
      ensures Cache() ==
              if Demotes(old(Cache())[id], now, ttl) then old(Cache())[id := Updated(old(Cache())[id], MarkUnhealthy)]
              else old(Cache())
      ensures Stored() ==
              if Demotes(old(Cache())[id], now, ttl) && id in old(Stored())
              then old(Stored())[id := Updated(old(Stored())[id], MarkUnhealthy)]
              else old(Stored())
    {
      hide Updated, Separate, Apart, Keyed, Spread, Holders, NoCommonEntry;
      if services[id].lastSeen < now - ttl && services[id].status.value.health == Healthy {
        Update(id, MarkUnhealthy);
        ApartMeansNoSharers(id);
        SpreadToNone(Written(old(Cache()), id, MarkUnhealthy), MarkUnhealthy);
        SpreadToNone(Written(old(Stored()), id, MarkUnhealthy), MarkUnhealthy);
      }
    }

    /** One janitor pass, in any order of the services. */
    method CheckServiceHealth(now: int)
      requires Valid()
      modifies Footprint(services), Footprint(Shared()), bolt
      ensures Valid() && View() == Apply(old(View()), Janitor(now), Setup())
      ensures DemotedWhereDue(old(Cache()), old(Cache()), Cache(), now, ttl)
      ensures DemotedWhereDue(old(Cache()), old(Stored()), Stored(), now, ttl)
    {
      hide Valid, DemotedWhereDue, SweptCache, SweptStore, Footprint, Values;
      JanitorDemotes(View(), now, Setup());
      SweepServices(now);
    }

    /** The loop over the services. */
    method SweepServices(now: int)
      requires Valid()
      modifies Footprint(services), Footprint(Shared()), bolt
      ensures Valid() && Cache() == SweptCache(old(Cache()), old(Cache()).Keys, now, ttl)
      ensures Stored() == SweptStore(old(Cache()), old(Stored()), old(Cache()).Keys, now, ttl)
    {
      hide Valid, Updated, Demotes, SweptCache, SweptStore, Footprint, Under, Values;
      ghost var cached, stored := Cache(), Stored();
      ValueAt(services);
      SweptNone(cached, stored, now, ttl);
      var todo := services.Keys;
      assert cached.Keys - todo == {};
      while todo != {}
        invariant services == old(services) && Shared() == old(Shared()) && Valid()
        invariant todo <= services.Keys
        invariant Cache() == SweptCache(cached, cached.Keys - todo, now, ttl)
        invariant Stored() == SweptStore(cached, stored, cached.Keys - todo, now, ttl)
        decreases |todo|
      {
        var id :| id in todo;
        SweptOneMore(cached, stored, cached.Keys - todo, id, now, ttl);
        UnderFootprint(services, id);
        UnderFootprint(Shared(), id);
        assert cached.Keys - (todo - {id}) == cached.Keys - todo + {id};
        CheckOne(id, now);
        todo := todo - {id};
      }
      assert cached.Keys - todo == cached.Keys;
    }

    /** A stored record enters the cache as a new record around the stored status. */
    method LoadOne(id: string)
      requires Valid() && id in Stored()
      modifies `services
      ensures Valid() && Stored() == old(Stored())
      ensures Cache() == old(Cache())[id := Stored()[id]]
    {
      var service: Entry;
      if memory != null {
        var stored := memory.services[id];
        service := new Entry(stored.info, stored.status, stored.lastSeen);
      } else {
        var stored := bolt.Decode(id);
        service := new Entry(stored.info, stored.status, stored.lastSeen);
      }
      assert Cache() == old(Cache()) && Stored() == old(Stored());
      hide Values, Keyed;
      Keep(service.info.id, service);
    }

    /** The ids under which the backend holds records; it may list them in any order. */
    function ListServices(): (ids: set<string>)
      requires Valid()
      reads Repr()
      ensures ids == Stored().Keys
    {
      if memory != null then memory.services.Keys else if bolt != null then bolt.bucket.Keys else {}
    }

    lemma StoreIsKeyed()
      requires Valid()
      ensures Keyed(Stored())
    {
    }

    /** loadServices: whatever the order in which the backend lists its records, each ends up in the cache. */
    method LoadServices()
      requires Valid()
      modifies `services
      ensures Valid() && Stored() == old(Stored())
      ensures Cache() == old(Cache()) + Loaded(Stored())
    {
      hide Valid, Cache, Stored, Keyed, Listed, Loaded;
      ghost var cached, stored := Cache(), Stored();
      StoreIsKeyed();
      ListedAll(stored);
      var todo := ListServices();
      assert stored.Keys - todo == {};
      assert cached + Listed(stored, {}) == cached;
      while todo != {}
        invariant todo <= stored.Keys && Valid() && Stored() == stored
        invariant Cache() == cached + Listed(stored, stored.Keys - todo)
        decreases |todo|
      {
        var id :| id in todo;
        assert stored.Keys - (todo - {id}) == stored.Keys - todo + {id};
        ListedOneMore(cached, stored, stored.Keys - todo, id);
        LoadOne(id);
        todo := todo - {id};
      }
      assert stored.Keys - todo == stored.Keys;
    }
  }

  // ---------- A failure healed through a shared status ----------

  /**
   A heartbeat for another service heals a recorded failure exactly if it reaches it through a shared status, claims
   health and blanks the run id. `reached`: the services that a heartbeat for id reaches beside id itself.
   */
  lemma HealedByAnotherIff(m: Records, id: string, reached: set<string>, other: string, beat: Beat, now: int)
    requires other in m && other != id && RegistrySpec.Failed(m[other])
    ensures Spread(Written(m, id, Beaten(beat, now)), reached, Beaten(beat, now))[other].status.health == Healthy <==>
      other in reached && beat.health == Healthy && RunId(Merge(m[other].status.metrics, beat.metrics)) == ""
  {
    HealsIff(m[other], beat, now);
  }

  function Blanking(): Beat {
    Beat(Healthy, map[RUN_ID := ""])
  }

  /** The store's record under `name` is around the status of the cache's record of `id`. */
  ghost predicate Linked(server: ControlPlaneServer, id: string, name: string)
    reads server, server.memory
  {
    && server.memory != null && id in server.services && name in server.memory.services
    && server.memory.services[name].status == server.services[id].status
  }

  lemma LinkedIsReached(server: ControlPlaneServer, id: string, name: string)
    requires Linked(server, id, name) && id != name
    ensures id in server.CacheSharers(name)
  {
  }

  lemma NotItsOwnSharer(server: ControlPlaneServer, id: string)
    ensures id !in server.CacheSharers(id)
  {
  }

  lemma FailingFails(r: Record, now: int)
    ensures RegistrySpec.Failed(Updated(r, Beaten(Beat(Unhealthy, map[RUN_ID := "run"]), now)))
  {
  }

  lemma WrittenSpreads(m: Records, id: string, reached: set<string>, u: Update)
    requires id in m && id !in reached
    ensures var after := Spread(Written(m, id, u), reached, u);
            id in after && after[id] == Updated(m[id], u)
  {
  }

  lemma CacheIsValues(server: ControlPlaneServer)
    ensures server.Cache().Keys == server.services.Keys
  {
  }

  /** A heartbeat that records a delivery failure. */
  method FailingBeat(server: ControlPlaneServer, id: string, now: int)
    requires server.Sound() && id in server.services
    modifies Under(server.services, id), Under(server.Shared(), id), server.bolt
    ensures server.Sound() && server.Shared() == old(server.Shared())
    ensures id in server.Cache() && RegistrySpec.Failed(server.Cache()[id])
  {
    hide Updated, Spread, Written, RegistrySpec.Failed, Holders, Apart;
    hide ControlPlaneServer.Sound, ControlPlaneServer.Valid, ControlPlaneServer.CacheSharers;
    hide ControlPlaneServer.StoreSharers;
    CacheIsValues(server);
    ghost var cached := server.Cache();
    var failing := Beat(Unhealthy, map[RUN_ID := "run"]);
    var r := server.Heartbeat(id, failing, now);
    NotItsOwnSharer(server, id);
    FailingFails(cached[id], now);
    WrittenSpreads(cached, id, server.CacheSharers(id), Beaten(failing, now));
  }

  /** A component "y" registers as "x" with the memory backend, and its delivery fails. */
  method FailsUnderAnotherName(server: ControlPlaneServer)
    requires server.Sound() && server.memory != null && server.bolt == null
    requires server.services == map[] && server.Shared() == map[]
    modifies server, server.memory
    ensures server.Sound() && Linked(server, "x", "y")
    ensures fresh(Footprint(server.services) + Footprint(server.Shared()))
    ensures "x" in server.Cache() && RegistrySpec.Failed(server.Cache()["x"])
  {
    hide RegistrySpec.Failed, Put, FreshRecord, Holders, Apart;
    hide ControlPlaneServer.Sound, ControlPlaneServer.Valid;
    var x := server.RegisterComponent("x", Info("y", ""), "", 0);
    FailingBeat(server, "x", 1);
  }

  /**
   Then another component registers as the first one's own id and reports health. Neither operation is about the failed
   service, yet it is healthy again.
   */
  method HealedByNamesake(server: ControlPlaneServer, id: string, name: string, info: Info, now: int)
    requires server.Sound() && server.bolt == null && Linked(server, id, name)
    requires id != name && name != "" && info.id != name
    requires id in server.Cache() && RegistrySpec.Failed(server.Cache()[id])
    modifies server, server.memory, Under(server.Shared(), name), Footprint(server.services)
    ensures id in server.Cache() && server.Cache()[id].status.health == Healthy
    ensures LeavesFailure(Register(name, info, "", now), id)
    ensures LeavesFailure(RegistrySpec.Heartbeat(name, Blanking(), now), id)
  {
    hide Updated, Spread, Written, RegistrySpec.Failed, Put, FreshRecord, Holders, Apart;
    hide ControlPlaneServer.Sound, ControlPlaneServer.Valid, ControlPlaneServer.CacheSharers;
    hide ControlPlaneServer.StoreSharers;
    var registered := server.RegisterComponent(name, info, "", now);
    CacheIsValues(server);
    LinkedIsReached(server, id, name);
    HeartbeatForAnother(server, id, name, Blanking(), now);
  }

  /** On the server itself: when a heartbeat for `name` heals the recorded failure of another service. */
  method HeartbeatForAnother(server: ControlPlaneServer, id: string, name: string, beat: Beat, now: int)
    requires server.Sound() && id != name && name in server.services
    requires id in server.Cache() && RegistrySpec.Failed(server.Cache()[id])
    modifies Under(server.services, name), Under(server.Shared(), name), server.bolt
    ensures id in server.Cache() && server.CacheSharers(name) == old(server.CacheSharers(name))
    ensures server.Cache()[id].status.health == Healthy <==>
      && id in server.CacheSharers(name) && beat.health == Healthy
      && RunId(Merge(old(server.Cache()[id].status.metrics), beat.metrics)) == ""
  {
    hide Updated, Spread, Written, RegistrySpec.Failed, Holders, Apart;
    hide ControlPlaneServer.Sound, ControlPlaneServer.Valid, ControlPlaneServer.CacheSharers;
    hide ControlPlaneServer.StoreSharers;
    ghost var cached, reached := server.Cache(), server.CacheSharers(name);
    CacheIsValues(server);
    var r := server.Heartbeat(name, beat, now);
    HealedByAnotherIff(cached, name, reached, id, beat, now);
    WrittenKeepsIds(cached, name, Beaten(beat, now));
    SpreadKeepsIds(Written(cached, name, Beaten(beat, now)), reached, Beaten(beat, now));
    CacheIsValues(server);
  }

  lemma SpreadKeepsIds(m: Records, ids: set<string>, u: Update)
    ensures Spread(m, ids, u).Keys == m.Keys
  {
  }

  lemma WrittenKeepsIds(m: Records, id: string, u: Update)
    ensures Written(m, id, u).Keys == m.Keys
  {
  }

  /**
   The whole run on a new server: "x" fails, and a heartbeat of "y" with a blank run id makes it healthy, although no
   operation after the failure is about "x".
   */
  method FailureHealedUnderAnotherName(ttl: nat) returns (server: ControlPlaneServer)
    ensures "x" in server.Cache() && server.Cache()["x"].status.health == Healthy
  {
    var memory := new MemoryStorage();
    ValueAt(memory.services);
    server := new ControlPlaneServer(memory, null, ttl);
    FailsUnderAnotherName(server);
    assert RegistrySpec.Failed(server.Cache()["x"]);
    HealedByNamesake(server, "x", "y", Info("w", ""), 2);
  }
}
