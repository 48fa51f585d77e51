/**
 * The location-report decisions of the iOS app: which location is reported,
 * the payload's source type, activity and `home`/`not_home` name, the history
 * entry, the skip when already inside a monitored region, the per-trigger
 * notification table, and the region manager's handling of region events and
 * significant-location updates, with the one-shot request that silences them.
 */
module LocationReport {
  import opened Wrappers
  import opened ZoneStore

  /** `LocationUpdateTrigger`. */
  datatype Trigger =
    | Visit
    | RegionEnter
    | RegionExit
    | BeaconRegionEnter
    | BeaconRegionExit
    | Manual
    | SignificantLocationUpdate
    | BackgroundFetch
    | PushNotification
    | URLScheme
    | Unknown

  const AllTriggers: seq<Trigger> := [Visit, RegionEnter, RegionExit, BeaconRegionEnter, BeaconRegionExit,
    Manual, SignificantLocationUpdate, BackgroundFetch, PushNotification, URLScheme, Unknown]

  function RawValue(t: Trigger): string {
    match t
    case Visit => "Visit"
    case RegionEnter => "Geographic Region Entered"
    case RegionExit => "Geographic Region Exited"
    case BeaconRegionEnter => "iBeacon Region Entered"
    case BeaconRegionExit => "iBeacon Region Exited"
    case Manual => "Manual"
    case SignificantLocationUpdate => "Significant Location Update"
    case BackgroundFetch => "Background Fetch"
    case PushNotification => "Push Notification"
    case URLScheme => "URL Scheme"
    case Unknown => "Unknown"
  }

  /** `LocationUpdateTrigger(rawValue:)`. */
  function TriggerFromRaw(raw: string): (r: Option<Trigger>)
    ensures r.Some? ==> RawValue(r.value) == raw
  {
    if raw == "Visit" then Some(Visit)
    else if raw == "Geographic Region Entered" then Some(RegionEnter)
    else if raw == "Geographic Region Exited" then Some(RegionExit)
    else if raw == "iBeacon Region Entered" then Some(BeaconRegionEnter)
    else if raw == "iBeacon Region Exited" then Some(BeaconRegionExit)
    else if raw == "Manual" then Some(Manual)
    else if raw == "Significant Location Update" then Some(SignificantLocationUpdate)
    else if raw == "Background Fetch" then Some(BackgroundFetch)
    else if raw == "Push Notification" then Some(PushNotification)
    else if raw == "URL Scheme" then Some(URLScheme)
    else if raw == "Unknown" then Some(Unknown)
    else None
  }

  /** Every trigger reads back from its raw value, so no two triggers share one. */
  lemma TriggerRawRoundTrip(t: Trigger)
    ensures TriggerFromRaw(RawValue(t)) == Some(t)
    ensures forall u: Trigger :: RawValue(u) == RawValue(t) ==> u == t
  {
    forall u: Trigger | RawValue(u) == RawValue(t) ensures u == t {
      assert TriggerFromRaw(RawValue(u)) == Some(u);
    }
  }

  /** A coordinate; its values are only copied. */
  datatype Location = Location(latitude: real, longitude: real)

  /** `CLLocation()`, the location reported when nothing better is known. */
  const DefaultLocation := Location(0.0, 0.0)

  /** The centre of a stored zone, as `zone.location()` gives it. */
  function ZoneLocation(z: StoredZone): Location {
    Location(z.latitude, z.longitude)
  }

  /** A visit, reduced to the location it reports. */
  datatype VisitRecord = VisitRecord(location: Location)

  /** The location `submitLocation` reports. */
  function ChooseLocation(location: Option<Location>, zone: Option<StoredZone>, visit: Option<VisitRecord>): (loc: Location)
    ensures location.Some? ==> loc == location.value
    ensures location.None? && zone.Some? ==> loc == ZoneLocation(zone.value)
    ensures location.None? && zone.None? && visit.Some? ==> loc == visit.value.location
    ensures location.None? && zone.None? && visit.None? ==> loc == DefaultLocation
  {
    if location.Some? then location.value
    else if zone.Some? then ZoneLocation(zone.value)
    else if visit.Some? then visit.value.location
    else DefaultLocation
  }

  datatype SourceType = GlobalPositioningSystem | BluetoothLowEnergy

  predicate IsBeaconUpdate(t: Trigger) {
    t == BeaconRegionEnter || t == BeaconRegionExit
  }

  function SourceTypeFor(t: Trigger): (s: SourceType)
    ensures s == BluetoothLowEnergy <==> t == BeaconRegionEnter || t == BeaconRegionExit
  {
    if IsBeaconUpdate(t) then BluetoothLowEnergy else GlobalPositioningSystem
  }

  /** `CMMotionActivityConfidence`. */
  datatype Confidence = Low | Medium | High | OtherConfidence

  /** A motion activity: its flags and its confidence. */
  datatype Activity = Activity(
    walking: bool,
    running: bool,
    automotive: bool,
    cycling: bool,
    stationary: bool,
    confidence: Confidence)

  /** `CMMotionActivity.activityType`: the first flag set, in priority order. */
  function ActivityType(a: Activity): (r: string)
    ensures r == "Walking" <==> a.walking
    ensures r == "Running" <==> !a.walking && a.running
    ensures r == "Automotive" <==> !a.walking && !a.running && a.automotive
    ensures r == "Cycling" <==> !a.walking && !a.running && !a.automotive && a.cycling
    ensures r == "Stationary" <==> !a.walking && !a.running && !a.automotive && !a.cycling && a.stationary
    ensures r == "Unknown" <==> !a.walking && !a.running && !a.automotive && !a.cycling && !a.stationary
  {
    if a.walking then "Walking"
    else if a.running then "Running"
    else if a.automotive then "Automotive"
    else if a.cycling then "Cycling"
    else if a.stationary then "Stationary"
    else "Unknown"
  }

  /** `CMMotionActivityConfidence.description`. */
  function ConfidenceDescription(c: Confidence): (r: string)
    ensures r == "Low" <==> c == Low
    ensures r == "Medium" <==> c == Medium
    ensures r == "High" <==> c == High
    ensures r == "Unknown" <==> c == OtherConfidence
  {
    match c
    case Low => "Low"
    case Medium => "Medium"
    case High => "High"
    case OtherConfidence => "Unknown"
  }

  /** The fields of the device-tracker payload this model follows. */
  datatype Payload = Payload(
    location: Location,
    trigger: Trigger,
    sourceType: SourceType,
    activityType: Option<string>,
    activityConfidence: Option<string>,
    locationName: Option<string>)

  /** The `home`/`not_home` name reported for the zone "zone.home". */
  function LocationName(zone: Option<StoredZone>, t: Trigger): (r: Option<string>)
    ensures r == Some("home") <==> zone.Some? && zone.value.id == "zone.home" && (t == BeaconRegionEnter || t == RegionEnter)
    ensures r == Some("not_home") <==> zone.Some? && zone.value.id == "zone.home" && (t == BeaconRegionExit || t == RegionExit)
    ensures r.None? || r == Some("home") || r == Some("not_home")
  {
    if zone.Some? && zone.value.id == "zone.home" then
      if t == BeaconRegionEnter || t == RegionEnter then Some("home")
      else if t == BeaconRegionExit || t == RegionExit then Some("not_home")
      else None
    else None
  }

  /** The payload `submitLocation` builds. */
  function BuildPayload(t: Trigger, loc: Location, zone: Option<StoredZone>, lastActivity: Option<Activity>): Payload {
    Payload(
      loc, t, SourceTypeFor(t),
      if lastActivity.Some? then Some(ActivityType(lastActivity.value)) else None,
      if lastActivity.Some? then Some(ConfidenceDescription(lastActivity.value.confidence)) else None,
      LocationName(zone, t))
  }

  /** A localised notification body: which text, and the zone name it is filled with if any. */
  datatype NotificationBody = LocationChangeBody(trigger: Trigger, zoneName: Option<string>)

  /** Per trigger: notification identifier, the preference key that enables it, and the body. */
  datatype NotificationOptions = NotificationOptions(identifier: string, prefKey: Option<string>, body: NotificationBody)

  function NotificationFor(t: Trigger, zoneName: string): NotificationOptions {
    match t
    case BeaconRegionEnter => NotificationOptions(zoneName + "_beacon_entered", Some("beaconEnterNotifications"), LocationChangeBody(t, Some(zoneName)))
    case BeaconRegionExit => NotificationOptions(zoneName + "_beacon_exited", Some("beaconExitNotifications"), LocationChangeBody(t, Some(zoneName)))
    case RegionEnter => NotificationOptions(zoneName + "_entered", Some("enterNotifications"), LocationChangeBody(t, Some(zoneName)))
    case RegionExit => NotificationOptions(zoneName + "_exited", Some("exitNotifications"), LocationChangeBody(t, Some(zoneName)))
    case SignificantLocationUpdate => NotificationOptions("sig_change", Some("significantLocationChangeNotifications"), LocationChangeBody(t, None))
    case BackgroundFetch => NotificationOptions("background_fetch", Some("backgroundFetchLocationChangeNotifications"), LocationChangeBody(t, None))
    case PushNotification => NotificationOptions("push_notification", Some("pushLocationRequestNotifications"), LocationChangeBody(t, None))
    case URLScheme => NotificationOptions("url_scheme", Some("urlSchemeLocationRequestNotifications"), LocationChangeBody(t, None))
    case Visit => NotificationOptions("visit", Some("visitLocationRequestNotifications"), LocationChangeBody(t, None))
    case Manual => NotificationOptions("", None, LocationChangeBody(t, None))
    case Unknown => NotificationOptions("", None, LocationChangeBody(t, None))
  }

  /** `prefs.bool(forKey:)`: false when the key is absent. */
  function PrefBool(prefs: map<string, bool>, key: string): bool {
    key in prefs && prefs[key]
  }

  predicate ShouldNotify(t: Trigger, zoneName: string, prefs: map<string, bool>) {
    var options := NotificationFor(t, zoneName);
    options.prefKey.Some? && PrefBool(prefs, options.prefKey.value)
  }

  /** The zone name used in notifications: the zone's name, else "Unknown zone". */
  function ZoneName(zone: Option<StoredZone>): string {
    if zone.Some? then zone.value.name else "Unknown zone"
  }

  /**
   * Manual and Unknown never notify; every other trigger notifies exactly
   * when its own preference is set, and no two triggers share a preference.
   */
  lemma NotificationTable(t: Trigger, zoneName: string, prefs: map<string, bool>)
    ensures (t == Manual || t == Unknown) ==> !ShouldNotify(t, zoneName, prefs)
    ensures NotificationFor(t, zoneName).prefKey.None? <==> t == Manual || t == Unknown
    ensures NotificationFor(t, zoneName).prefKey.Some? ==>
      (ShouldNotify(t, zoneName, prefs) <==> PrefBool(prefs, NotificationFor(t, zoneName).prefKey.value))
    ensures forall u: Trigger :: NotificationFor(u, zoneName).prefKey.Some? && NotificationFor(u, zoneName).prefKey == NotificationFor(t, zoneName).prefKey ==> u == t
    ensures NotificationFor(t, zoneName).body.trigger == t
  {
  }

  /** The region triggers name the zone in the notification identifier. */
  lemma ZoneTriggersNameTheZone(t: Trigger, zoneName: string)
    requires t == BeaconRegionEnter || t == BeaconRegionExit || t == RegionEnter || t == RegionExit
    ensures HasZonePrefix(NotificationFor(t, zoneName).identifier, zoneName)
    ensures NotificationFor(t, zoneName).body.zoneName == Some(zoneName)
  {
  }

  predicate HasZonePrefix(s: string, zoneName: string) {
    |zoneName| < |s| && s[..|zoneName| + 1] == zoneName + "_"
  }

  /** A `LocationHistoryEntry`. */
  datatype HistoryEntry = HistoryEntry(trigger: Trigger, location: Location, zone: Option<StoredZone>, payload: Payload)

  /** A client event of type `locationUpdate`. */
  datatype ClientEvent = ClientEvent(body: NotificationBody, payload: Payload)

  datatype LocalNotification = LocalNotification(identifier: string, title: string, body: NotificationBody)

  /**
   * What location reports leave behind: the history table, the payloads sent
   * (each an identify request followed by the `device_tracker.see` call), the
   * client events and the local notifications.
   */
  datatype ReportLog = ReportLog(
    history: seq<HistoryEntry>,
    sent: seq<Payload>,
    clientEvents: seq<ClientEvent>,
    notifications: seq<LocalNotification>)

  /** The log after a report went out: the payload sent, its client event, and the notification if enabled. */
  function AfterSend(log: ReportLog, t: Trigger, zoneName: string, payload: Payload, prefs: map<string, bool>): ReportLog {
    var options := NotificationFor(t, zoneName);
    ReportLog(
      log.history,
      log.sent + [payload],
      log.clientEvents + [ClientEvent(options.body, payload)],
      log.notifications
        + (if ShouldNotify(t, zoneName, prefs)
           then [LocalNotification(options.identifier, "Location change", options.body)] else []))
  }

  /** The log after one `submitLocation`; `inside` is the answer of the region-containment oracle. */
  function AfterSubmit(log: ReportLog, t: Trigger, location: Option<Location>, visit: Option<VisitRecord>,
    zone: Option<StoredZone>, lastActivity: Option<Activity>, inside: bool, prefs: map<string, bool>): ReportLog
  {
    var loc := ChooseLocation(location, zone, visit);
    var payload := BuildPayload(t, loc, zone, lastActivity);
    var logged := log.(history := log.history + [HistoryEntry(t, loc, zone, payload)]);
    if inside then logged else AfterSend(logged, t, ZoneName(zone), payload, prefs)
  }

  /**
   * A history entry is always written; inside a monitored region nothing is
   * sent, logged or notified; otherwise the payload goes out with the
   * trigger's source type, its client event carries the trigger's
   * notification body, the notification follows exactly when the trigger's
   * preference allows it, and neither Manual nor Unknown notifies.
   */
  lemma SubmitOutcome(log: ReportLog, t: Trigger, location: Option<Location>, visit: Option<VisitRecord>,
    zone: Option<StoredZone>, lastActivity: Option<Activity>, inside: bool, prefs: map<string, bool>)
    ensures var after := AfterSubmit(log, t, location, visit, zone, lastActivity, inside, prefs);
      && |after.history| == |log.history| + 1
      && after.history[..|log.history|] == log.history
      && after.history[|log.history|].trigger == t
      && after.history[|log.history|].location == ChooseLocation(location, zone, visit)
      && (inside ==> after.sent == log.sent && after.clientEvents == log.clientEvents
                     && after.notifications == log.notifications)
      && (!inside ==> |after.sent| == |log.sent| + 1 && after.sent[..|log.sent|] == log.sent
                      && after.sent[|log.sent|].sourceType == SourceTypeFor(t)
                      && after.sent[|log.sent|].location == ChooseLocation(location, zone, visit)
                      && after.clientEvents == log.clientEvents
                           + [ClientEvent(NotificationFor(t, ZoneName(zone)).body, after.sent[|log.sent|])]
                      && after.clientEvents[|log.clientEvents|].body.trigger == t
                      && after.notifications == log.notifications
                           + (if ShouldNotify(t, ZoneName(zone), prefs)
                              then [LocalNotification(NotificationFor(t, ZoneName(zone)).identifier, "Location change",
                                                      NotificationFor(t, ZoneName(zone)).body)]
                              else []))
      && ((t == Manual || t == Unknown) ==> after.notifications == log.notifications)
  {
    NotificationTable(t, ZoneName(zone), prefs);
  }

  /** `EffectiveTrigger`: a beacon zone turns a region enter or exit into the beacon one. */
  function RegionTrigger(t: Trigger, isBeaconRegion: bool): (r: Trigger)
    ensures isBeaconRegion && t == RegionEnter ==> r == BeaconRegionEnter
    ensures isBeaconRegion && t == RegionExit ==> r == BeaconRegionExit
    ensures !(isBeaconRegion && (t == RegionEnter || t == RegionExit)) ==> r == t
  {
    if isBeaconRegion && t == RegionEnter then BeaconRegionEnter
    else if isBeaconRegion && t == RegionExit then BeaconRegionExit
    else t
  }

  predicate IsEnter(t: Trigger) {
    t == RegionEnter || t == BeaconRegionEnter
  }

  /** The converted trigger is an enter exactly when the monitored event was one. */
  lemma InRegionFollowsTrigger(t: Trigger, isBeaconRegion: bool)
    ensures IsEnter(RegionTrigger(t, isBeaconRegion)) <==> IsEnter(t)
  {
  }

  /** What `triggerRegionEvent` did. */
  datatype RegionEventOutcome =
    | NotAuthenticated
    | UnknownZone
    | TrackingDisabled
    | Submitted(trigger: Trigger)

  /** The last element of a list of locations, as `locations.last`. */
  function LastLocation(locations: seq<Location>): (r: Option<Location>)
    ensures r.None? <==> locations == []
    ensures r.Some? ==> r.value == locations[|locations| - 1]
  {
    if locations == [] then None else Some(locations[|locations| - 1])
  }

  /** The region manager's own state. */
  class RegionManager {
    var lastActivity: Option<Activity>
    var lastLocation: Option<Location>
    var oneShotLocationActive: bool
    /** How often `syncMonitoredRegions` has been asked for. */
    var regionSyncs: nat

    constructor ()
      ensures lastActivity.None? && lastLocation.None? && !oneShotLocationActive && regionSyncs == 1
    {
      lastActivity := None;
      lastLocation := None;
      oneShotLocationActive := false;
      regionSyncs := 1;
    }

    /**
     * `triggerRegionEvent`. `api` is the authenticated API or null; the
     * zone is looked up by the region's identifier in the zone table, which
     * finds the zone whose ID it is because the table is keyed by ID
     * (ZoneStore.LookupIsFilterByID).
     */
    method TriggerRegionEvent(api: HomeAssistantAPI?, store: Store, trigger: Trigger, regionID: string,
      isBeaconRegion: StoredZone -> bool, insideAnyRegion: Location -> bool, prefs: map<string, bool>)
      returns (outcome: RegionEventOutcome)
      requires store.Valid()
      modifies this, store, api
      ensures store.Valid()
      ensures api == null ==> outcome == NotAuthenticated && regionSyncs == old(regionSyncs)
      ensures api != null && regionID !in old(store.zones) ==>
        outcome == UnknownZone && regionSyncs == old(regionSyncs) + 1
      ensures api != null && regionID in old(store.zones) && !old(store.zones)[regionID].trackingEnabled ==>
        outcome == TrackingDisabled && regionSyncs == old(regionSyncs)
      ensures !outcome.Submitted? ==>
        store.zones == old(store.zones) && (api != null ==> api.log == old(api.log))
      ensures outcome.Submitted? ==>
        && api != null && regionID in old(store.zones) && old(store.zones)[regionID].trackingEnabled
        && var zone := old(store.zones)[regionID];
           var trig := RegionTrigger(trigger, isBeaconRegion(zone));
           var updated := zone.(inRegion := IsEnter(trig));
           && outcome == Submitted(trig)
           && store.zones == old(store.zones)[regionID := updated]
           && api.log == AfterSubmit(old(api.log), trig, None, None, Some(updated),
                old(api.regionManager.lastActivity), insideAnyRegion(ZoneLocation(updated)), prefs)
           && regionSyncs == old(regionSyncs)
      ensures store.trackers == old(store.trackers) && store.regionSyncs == old(store.regionSyncs)
      ensures lastActivity == old(lastActivity) && lastLocation == old(lastLocation)
      ensures oneShotLocationActive == old(oneShotLocationActive)
    {
      if api == null {
        return NotAuthenticated;
      }
      var trig := trigger;
      if regionID !in store.zones {
        regionSyncs := regionSyncs + 1;
        return UnknownZone;
      }
      var zone := store.zones[regionID];
      if zone.trackingEnabled == false {
        return TrackingDisabled;
      }
      if isBeaconRegion(zone) {
        if trigger == RegionEnter {
          trig := BeaconRegionEnter;
        }
        if trigger == RegionExit {
          trig := BeaconRegionExit;
        }
      }
      zone := zone.(inRegion := trig == RegionEnter || trig == BeaconRegionEnter);
      store.zones := store.zones[regionID := zone];
      api.SubmitLocation(trig, None, None, Some(zone), insideAnyRegion, prefs);
      outcome := Submitted(trig);
    }

    /** `didUpdateLocations`: ignored without an API or while a one-shot request is active. */
    method DidUpdateLocations(api: HomeAssistantAPI?, locations: seq<Location>,
      insideAnyRegion: Location -> bool, prefs: map<string, bool>)
      modifies this, api
      ensures api == null || old(oneShotLocationActive) ==>
        lastLocation == old(lastLocation) && (api != null ==> api.log == old(api.log))
      ensures api != null && !old(oneShotLocationActive) ==>
        && api.log == AfterSubmit(old(api.log), SignificantLocationUpdate, LastLocation(locations), None, None,
             old(api.regionManager.lastActivity), insideAnyRegion(ChooseLocation(LastLocation(locations), None, None)), prefs)
        && lastLocation == LastLocation(locations)
      ensures lastActivity == old(lastActivity) && oneShotLocationActive == old(oneShotLocationActive)
      ensures regionSyncs == old(regionSyncs)
    {
      if api == null {
        return;
      }
      if oneShotLocationActive {
        return;
      }
      var last := LastLocation(locations);
      api.SubmitLocation(SignificantLocationUpdate, last, None, None, insideAnyRegion, prefs);
      lastLocation := last;
    }
  }

  /** What a one-shot location request settled with. */
  datatype OneShotResult = Fulfilled | Rejected | Unsettled

  /** The iOS app's API object, as far as location reports go. */
  class HomeAssistantAPI {
    const regionManager: RegionManager
    var log: ReportLog
    /** The trigger captured by the pending one-shot request's callback. */
    var oneShotTrigger: Trigger

    constructor (regionManager: RegionManager)
      ensures this.regionManager == regionManager
      ensures log == ReportLog([], [], [], []) && oneShotTrigger == Manual
    {
      this.regionManager := regionManager;
      log := ReportLog([], [], [], []);
      oneShotTrigger := Manual;
    }

    /** The first half of `submitLocation`: the reported location and the payload's fields. */
    method MakePayload(updateType: Trigger, location: Option<Location>, visit: Option<VisitRecord>,
      zone: Option<StoredZone>)
      returns (loc: Location, payload: Payload)
      ensures loc == ChooseLocation(location, zone, visit)
      ensures payload == BuildPayload(updateType, loc, zone, regionManager.lastActivity)
    {
      loc := DefaultLocation;
      if location.Some? {
        loc := location.value;
      } else if zone.Some? {
        loc := ZoneLocation(zone.value);
      } else if visit.Some? {
        loc := visit.value.location;
      }
      payload := Payload(loc, updateType, GlobalPositioningSystem, None, None, None);
      var isBeaconUpdate := updateType == BeaconRegionEnter || updateType == BeaconRegionExit;
      payload := payload.(sourceType := if isBeaconUpdate then BluetoothLowEnergy else GlobalPositioningSystem);
      if regionManager.lastActivity.Some? {
        var activity := regionManager.lastActivity.value;
        payload := payload.(activityType := Some(ActivityType(activity)),
                            activityConfidence := Some(ConfidenceDescription(activity.confidence)));
      }
      if zone.Some? && zone.value.id == "zone.home" {
        if updateType == BeaconRegionEnter || updateType == RegionEnter {
          payload := payload.(locationName := Some("home"));
        } else if updateType == BeaconRegionExit || updateType == RegionExit {
          payload := payload.(locationName := Some("not_home"));
        }
      }
    }

    /** `submitLocation`. */
    method SubmitLocation(updateType: Trigger, location: Option<Location>, visit: Option<VisitRecord>,
      zone: Option<StoredZone>, insideAnyRegion: Location -> bool, prefs: map<string, bool>)
      modifies this
      ensures log == AfterSubmit(old(log), updateType, location, visit, zone, regionManager.lastActivity,
        insideAnyRegion(ChooseLocation(location, zone, visit)), prefs)
      ensures oneShotTrigger == old(oneShotTrigger)
    {
      var loc, payload := MakePayload(updateType, location, visit, zone);
      log := log.(history := log.history + [HistoryEntry(updateType, loc, zone, payload)]);
      if insideAnyRegion(loc) {
        return;
      }
      ghost var logged := log;
      log := log.(sent := log.sent + [payload]);
      var zoneName := "Unknown zone";
      if zone.Some? {
        zoneName := zone.value.name;
      }
      assert zoneName == ZoneName(zone);
      var options := NotificationFor(updateType, zoneName);
      var shouldNotify := options.prefKey.Some? && PrefBool(prefs, options.prefKey.value);
      log := log.(clientEvents := log.clientEvents + [ClientEvent(options.body, payload)]);
      if shouldNotify {
        log := log.(notifications := log.notifications
          + [LocalNotification(options.identifier, "Location change", options.body)]);
      }
      assert log == AfterSend(logged, updateType, zoneName, payload, prefs);
    }

    /** `getAndSendLocation`: a nil trigger means Manual; significant updates are silenced meanwhile. */
    method GetAndSendLocation(trigger: Option<Trigger>)
      modifies this, regionManager
      ensures regionManager.oneShotLocationActive
      ensures oneShotTrigger == trigger.GetOr(Manual)
      ensures log == old(log)
      ensures regionManager.lastActivity == old(regionManager.lastActivity)
      ensures regionManager.lastLocation == old(regionManager.lastLocation)
      ensures regionManager.regionSyncs == old(regionManager.regionSyncs)
    {
      var updateTrigger := Manual;
      if trigger.Some? {
        updateTrigger := trigger.value;
      }
      regionManager.oneShotLocationActive := true;
      oneShotTrigger := updateTrigger;
    }

    /** The one-shot request's callback: the flag is cleared, then a location is submitted. */
    method OneShotLocationReceived(location: Option<Location>, failed: bool,
      insideAnyRegion: Location -> bool, prefs: map<string, bool>)
      returns (result: OneShotResult)
      modifies this, regionManager
      ensures !regionManager.oneShotLocationActive
      ensures location.Some? ==>
        && result == Fulfilled
        && log == AfterSubmit(old(log), oneShotTrigger, location, None, None, regionManager.lastActivity,
             insideAnyRegion(location.value), prefs)
      ensures location.None? ==> log == old(log) && result == (if failed then Rejected else Unsettled)
      ensures oneShotTrigger == old(oneShotTrigger)
      ensures regionManager.lastActivity == old(regionManager.lastActivity)
      ensures regionManager.lastLocation == old(regionManager.lastLocation)
      ensures regionManager.regionSyncs == old(regionManager.regionSyncs)
    {
      regionManager.oneShotLocationActive := false;
      if location.Some? {
        SubmitLocation(oneShotTrigger, location, None, None, insideAnyRegion, prefs);
        return Fulfilled;
      }
      if failed {
        return Rejected;
      }
      return Unsettled;
    }
  }

  /**
   * While a one-shot request is pending, a significant-location update leaves
   * the report log alone (`during` is the log right after it); once the
   * callback ran, the next update is reported as a significant-location
   * update on top of that log.
   */
  method OneShotSilencesUpdates(api: HomeAssistantAPI, locations: seq<Location>,
    insideAnyRegion: Location -> bool, prefs: map<string, bool>)
    returns (during: ReportLog)
    modifies api, api.regionManager
    ensures during == old(api.log)
    ensures api.log == AfterSubmit(during, SignificantLocationUpdate, LastLocation(locations), None, None,
      old(api.regionManager.lastActivity), insideAnyRegion(ChooseLocation(LastLocation(locations), None, None)), prefs)
    ensures |api.log.history| == |during.history| + 1 && api.log.history[..|during.history|] == during.history
    ensures api.log.history[|during.history|].trigger == SignificantLocationUpdate
  {
    api.GetAndSendLocation(None);
    api.regionManager.DidUpdateLocations(api, locations, insideAnyRegion, prefs);
    during := api.log;
    var _ := api.OneShotLocationReceived(None, true, insideAnyRegion, prefs);
    api.regionManager.DidUpdateLocations(api, locations, insideAnyRegion, prefs);
    SubmitOutcome(during, SignificantLocationUpdate, LastLocation(locations), None, None,
      old(api.regionManager.lastActivity), insideAnyRegion(ChooseLocation(LastLocation(locations), None, None)), prefs);
  }
}
