/**
 * The zone store sync of `storeEntities`: the zone and device-tracker
 * entities of a state dump are upserted into tables keyed by entity ID, and
 * stored zones the dump no longer mentions are deleted.
 */
module ZoneStore {
  import opened Wrappers

  /** A zone entity as the server reports it. Coordinates are only copied. */
  datatype Zone = Zone(
    id: string,
    name: string,
    latitude: real,
    longitude: real,
    radius: real,
    trackingEnabled: bool,
    uuid: Option<string>,
    major: Option<int>,
    minor: Option<int>)

  /** A device tracker entity; its contents are only copied into the store. */
  datatype DeviceTracker = DeviceTracker(id: string, state: string)

  /** What the entity object is, as the `as? Zone` / `as? DeviceTracker` casts see it. */
  datatype EntityObject = ZoneObject(zone: Zone) | TrackerObject(tracker: DeviceTracker) | OtherObject

  /** An entity of the state dump: its domain (from its entity ID) and its object. */
  datatype Entity = Entity(id: string, domain: string, obj: EntityObject)

  /** A stored zone (`RLMZone`). `inRegion` is written by region monitoring, never by the sync. */
  datatype StoredZone = StoredZone(
    id: string,
    name: string,
    latitude: real,
    longitude: real,
    radius: real,
    trackingEnabled: bool,
    beaconUUID: Option<string>,
    beaconMajor: Option<int>,
    beaconMinor: Option<int>,
    inRegion: bool)

  /**
   * `RLMZone(zone:)`: a new stored zone with the entity's fields, not yet
   * inside its region.
   */
  function NewStoredZone(z: Zone): (r: StoredZone)
    ensures r.id == z.id && r.name == z.name && !r.inRegion
  {
    StoredZone(z.id, z.name, z.latitude, z.longitude, z.radius, z.trackingEnabled, z.uuid, z.major, z.minor, false)
  }

  /**
   * `updateZone`: the seven region fields are overwritten from the entity;
   * putting the old seven back gives the stored zone unchanged, so nothing
   * else (name, ID, `inRegion`) is touched.
   */
  function UpdateZone(stored: StoredZone, z: Zone): (r: StoredZone)
    ensures r.latitude == z.latitude && r.longitude == z.longitude && r.radius == z.radius
    ensures r.trackingEnabled == z.trackingEnabled
    ensures r.beaconUUID == z.uuid && r.beaconMajor == z.major && r.beaconMinor == z.minor
    ensures r.(latitude := stored.latitude, longitude := stored.longitude, radius := stored.radius,
               trackingEnabled := stored.trackingEnabled, beaconUUID := stored.beaconUUID,
               beaconMajor := stored.beaconMajor, beaconMinor := stored.beaconMinor) == stored
  {
    stored.(latitude := z.latitude, longitude := z.longitude, radius := z.radius,
            trackingEnabled := z.trackingEnabled, beaconUUID := z.uuid,
            beaconMajor := z.major, beaconMinor := z.minor)
  }

  predicate IsStoreable(e: Entity) {
    e.domain == "zone" || e.domain == "device_tracker"
  }

  /** The entities whose domain is one of `["zone", "device_tracker"]`, in order. */
  function Storeable(es: seq<Entity>): (r: seq<Entity>)
    ensures forall e :: e in r <==> e in es && IsStoreable(e)
  {
    if es == [] then []
    else Storeable(es[..|es| - 1]) + (if IsStoreable(es[|es| - 1]) then [es[|es| - 1]] else [])
  }

  /** An entity the loop treats as a zone: domain "zone" and a `Zone` object. */
  predicate IsZone(e: Entity) {
    e.domain == "zone" && e.obj.ZoneObject?
  }

  predicate IsTracker(e: Entity) {
    e.domain == "device_tracker" && e.obj.TrackerObject?
  }

  /** `seenZoneIDs` after the loop has visited `es`. */
  function SeenZoneIDs(es: seq<Entity>): seq<string> {
    if es == [] then []
    else SeenZoneIDs(es[..|es| - 1]) + (if IsZone(es[|es| - 1]) then [es[|es| - 1].obj.zone.id] else [])
  }

  /** One loop step on the zone table: update the stored zone with that ID, or add a new one. */
  function UpsertZone(zones: map<string, StoredZone>, e: Entity): map<string, StoredZone> {
    if IsZone(e) then
      var z := e.obj.zone;
      if z.id in zones then zones[z.id := UpdateZone(zones[z.id], z)] else zones[z.id := NewStoredZone(z)]
    else
      zones
  }

  /** One loop step on the tracker table: `realm.add(_, update: true)`. */
  function UpsertTracker(trackers: map<string, DeviceTracker>, e: Entity): map<string, DeviceTracker> {
    if IsTracker(e) then trackers[e.obj.tracker.id := e.obj.tracker] else trackers
  }

  function ZonesAfterLoop(zones: map<string, StoredZone>, es: seq<Entity>): map<string, StoredZone> {
    if es == [] then zones else UpsertZone(ZonesAfterLoop(zones, es[..|es| - 1]), es[|es| - 1])
  }

  function TrackersAfterLoop(trackers: map<string, DeviceTracker>, es: seq<Entity>): map<string, DeviceTracker> {
    if es == [] then trackers else UpsertTracker(TrackersAfterLoop(trackers, es[..|es| - 1]), es[|es| - 1])
  }

  /** The zone table after `storeEntities`: the loop's upserts, then the deletion of unseen old IDs. */
  function StoredZonesAfter(zones: map<string, StoredZone>, es: seq<Entity>): map<string, StoredZone> {
    var storeable := Storeable(es);
    var seen := SeenZoneIDs(storeable);
    var toDelete := set id | id in zones.Keys && id !in seen;
    ZonesAfterLoop(zones, storeable) - toDelete
  }

  function TrackersAfter(trackers: map<string, DeviceTracker>, es: seq<Entity>): map<string, DeviceTracker> {
    TrackersAfterLoop(trackers, Storeable(es))
  }

  /** The IDs of the zone entities of a dump. */
  function ZoneIDs(es: seq<Entity>): set<string> {
    set e | e in es && IsZone(e) :: e.obj.zone.id
  }

  /** The last zone entity of `es` with ID `id`, if any. */
  function LastZone(es: seq<Entity>, id: string): Option<Zone> {
    if es == [] then None
    else if IsZone(es[|es| - 1]) && es[|es| - 1].obj.zone.id == id then Some(es[|es| - 1].obj.zone)
    else LastZone(es[..|es| - 1], id)
  }

  lemma {:induction false} SeenAreZoneIDs(es: seq<Entity>)
    ensures forall id :: id in SeenZoneIDs(es) <==> id in ZoneIDs(es)
  {
    if es != [] {
      var init, last := es[..|es| - 1], es[|es| - 1];
      SeenAreZoneIDs(init);
      assert es == init + [last];
      forall id ensures id in ZoneIDs(es) <==> id in ZoneIDs(init) || (IsZone(last) && last.obj.zone.id == id) {
        if id in ZoneIDs(es) {
          var e :| e in es && IsZone(e) && e.obj.zone.id == id;
          if e != last {
            assert e in init;
          }
        }
      }
    }
  }

  /** The loop adds exactly the IDs it sees to the zone table. */
  lemma {:induction false} LoopKeys(zones: map<string, StoredZone>, es: seq<Entity>)
    ensures ZonesAfterLoop(zones, es).Keys == zones.Keys + (set id | id in SeenZoneIDs(es))
  {
    if es != [] {
      LoopKeys(zones, es[..|es| - 1]);
    }
  }

  /**
   * After the sync the stored zone IDs are exactly the IDs of the zone
   * entities reported: zones not reported are deleted.
   */
  lemma StoredIDsAreReportedIDs(zones: map<string, StoredZone>, es: seq<Entity>)
    ensures StoredZonesAfter(zones, es).Keys == ZoneIDs(es)
  {
    var storeable := Storeable(es);
    LoopKeys(zones, storeable);
    SeenAreZoneIDs(storeable);
    assert ZoneIDs(storeable) == ZoneIDs(es);
  }

  /**
   * The loop leaves `inRegion` of a zone that was stored as it was, and a
   * zone it adds starts outside its region.
   */
  lemma {:induction false} LoopKeepsInRegion(zones: map<string, StoredZone>, es: seq<Entity>, id: string)
    requires id in ZonesAfterLoop(zones, es)
    ensures id in zones ==> ZonesAfterLoop(zones, es)[id].inRegion == zones[id].inRegion
    ensures id !in zones ==> !ZonesAfterLoop(zones, es)[id].inRegion
  {
    if es != [] {
      var before := ZonesAfterLoop(zones, es[..|es| - 1]);
      var last := es[|es| - 1];
      if IsZone(last) && last.obj.zone.id == id {
        if id in before {
          LoopKeepsInRegion(zones, es[..|es| - 1], id);
        } else {
          LoopKeys(zones, es[..|es| - 1]);
        }
      } else {
        LoopKeepsInRegion(zones, es[..|es| - 1], id);
      }
    }
  }

  /** The region fields of a zone in the table are those of the last entity reported with its ID. */
  lemma {:induction false} LoopTakesLastReport(zones: map<string, StoredZone>, es: seq<Entity>, id: string)
    requires LastZone(es, id).Some?
    ensures id in ZonesAfterLoop(zones, es)
    ensures var z, r := LastZone(es, id).value, ZonesAfterLoop(zones, es)[id];
      r.latitude == z.latitude && r.longitude == z.longitude && r.radius == z.radius
      && r.trackingEnabled == z.trackingEnabled
      && r.beaconUUID == z.uuid && r.beaconMajor == z.major && r.beaconMinor == z.minor
  {
    var last := es[|es| - 1];
    if !(IsZone(last) && last.obj.zone.id == id) {
      LoopTakesLastReport(zones, es[..|es| - 1], id);
    }
  }

  /**
   * The sync never moves a zone into or out of its region: a zone that stays
   * keeps its `inRegion`, and a newly reported one starts outside.
   */
  lemma SyncKeepsInRegion(zones: map<string, StoredZone>, es: seq<Entity>, id: string)
    requires id in StoredZonesAfter(zones, es)
    ensures id in zones ==> StoredZonesAfter(zones, es)[id].inRegion == zones[id].inRegion
    ensures id !in zones ==> !StoredZonesAfter(zones, es)[id].inRegion
  {
    LoopKeepsInRegion(zones, Storeable(es), id);
  }

  /** The tracker table gains the reported trackers' IDs and loses none. */
  lemma {:induction false} TrackerKeys(trackers: map<string, DeviceTracker>, es: seq<Entity>)
    ensures TrackersAfterLoop(trackers, es).Keys
      == trackers.Keys + (set e | e in es && IsTracker(e) :: e.obj.tracker.id)
  {
    if es != [] {
      var init, last := es[..|es| - 1], es[|es| - 1];
      TrackerKeys(trackers, init);
      assert es == init + [last];
    }
  }

  /** Entities outside the zone and device_tracker domains change nothing. */
  lemma IgnoresOtherDomains(es: seq<Entity>, e: Entity)
    requires !IsStoreable(e)
    ensures Storeable(es + [e]) == Storeable(es)
    ensures forall zones :: StoredZonesAfter(zones, es + [e]) == StoredZonesAfter(zones, es)
    ensures forall trackers :: TrackersAfter(trackers, es + [e]) == TrackersAfter(trackers, es)
  {
    assert (es + [e])[..|es + [e]| - 1] == es;
  }

  /**
   * Realm keeps each `RLMZone` under its primary key, the zone's ID: the
   * zone table maps every key to the zone of that ID.
   */
  predicate KeyedByID(zones: map<string, StoredZone>) {
    forall k | k in zones :: zones[k].id == k
  }

  /** In a table keyed by ID, the zones with a given ID are exactly the one under that key. */
  lemma LookupIsFilterByID(zones: map<string, StoredZone>, id: string)
    requires KeyedByID(zones)
    ensures (exists k | k in zones :: zones[k].id == id) <==> id in zones
    ensures forall k | k in zones && zones[k].id == id :: zones[k] == zones[id]
  {
  }

  /** The upsert loop keeps the table keyed by ID. */
  lemma {:induction false} LoopKeepsKeyedByID(zones: map<string, StoredZone>, es: seq<Entity>)
    requires KeyedByID(zones)
    ensures KeyedByID(ZonesAfterLoop(zones, es))
  {
    if es != [] {
      LoopKeepsKeyedByID(zones, es[..|es| - 1]);
    }
  }

  /** `storeEntities` keeps the zone table keyed by ID. */
  lemma SyncKeepsKeyedByID(zones: map<string, StoredZone>, es: seq<Entity>)
    requires KeyedByID(zones)
    ensures KeyedByID(StoredZonesAfter(zones, es))
  {
    LoopKeepsKeyedByID(zones, Storeable(es));
  }

  /** The Realm tables the sync writes, and the count of region re-syncs it requests. */
  class Store {
    var zones: map<string, StoredZone>
    var trackers: map<string, DeviceTracker>
    var regionSyncs: nat

    /** Every zone is stored under its own ID. */
    predicate Valid()
      reads this
    {
      KeyedByID(zones)
    }

    constructor ()
      ensures Valid()
      ensures zones == map[] && trackers == map[] && regionSyncs == 0
    {
      zones := map[];
      trackers := map[];
      regionSyncs := 0;
    }

    /** `storeEntities`, ending with `syncMonitoredRegions`. */
    method StoreEntities(entities: seq<Entity>)
      requires Valid()
      modifies this
      ensures Valid()
      ensures zones == StoredZonesAfter(old(zones), entities)
      ensures trackers == TrackersAfter(old(trackers), entities)
      ensures regionSyncs == old(regionSyncs) + 1
    {
      var storeableEntities := Storeable(entities);
      var existingZoneIDs := zones.Keys;
      var seenZoneIDs: seq<string> := [];
      var i := 0;
      while i < |storeableEntities|
        invariant 0 <= i <= |storeableEntities|
        invariant zones == ZonesAfterLoop(old(zones), storeableEntities[..i])
        invariant trackers == TrackersAfterLoop(old(trackers), storeableEntities[..i])
        invariant seenZoneIDs == SeenZoneIDs(storeableEntities[..i])
        invariant regionSyncs == old(regionSyncs)
      {
        var entity := storeableEntities[i];
        assert storeableEntities[..i + 1][..i] == storeableEntities[..i];
        if entity.domain == "zone" && entity.obj.ZoneObject? {
          var zone := entity.obj.zone;
          seenZoneIDs := seenZoneIDs + [zone.id];
          if zone.id in zones {
            zones := zones[zone.id := UpdateZone(zones[zone.id], zone)];
          } else {
            zones := zones[zone.id := NewStoredZone(zone)];
          }
        }
        if entity.domain == "device_tracker" && entity.obj.TrackerObject? {
          var device := entity.obj.tracker;
          trackers := trackers[device.id := device];
        }
        i := i + 1;
      }
      assert storeableEntities[..i] == storeableEntities;
      var zoneIDsToDelete := set id | id in existingZoneIDs && id !in seenZoneIDs;
      zones := zones - zoneIDsToDelete;
      regionSyncs := regionSyncs + 1;
      SyncKeepsKeyedByID(old(zones), entities);
    }
  }
}
