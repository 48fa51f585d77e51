/**
 * The shared API's decisions: the permissions it reports, whether an event,
 * a service call or a location goes out as a webhook or as a REST request,
 * what `Connect` asks for once the configuration is known, the source type of
 * a location payload, and the one-shot location request with its default
 * trigger.
 */
module ApiRouting {
  import opened Wrappers
  import opened ZoneStore
  import LocationReport

  /** `enabledPermissions`. */
  method EnabledPermissions(notificationsEnabled: bool, locationEnabled: bool) returns (permissions: seq<string>)
    ensures permissions == (if notificationsEnabled then ["notifications"] else [])
                         + (if locationEnabled then ["location"] else [])
  {
    permissions := [];
    if notificationsEnabled {
      permissions := permissions + ["notifications"];
    }
    if locationEnabled {
      permissions := permissions + ["location"];
    }
  }

  /**
   * The permission list holds each entry exactly when its flag is set, in
   * the order notifications then location, and never the same entry twice.
   */
  lemma PermissionsAreOrderedSubsequence(notificationsEnabled: bool, locationEnabled: bool)
    ensures var p := (if notificationsEnabled then ["notifications"] else [])
                   + (if locationEnabled then ["location"] else []);
      && ("notifications" in p <==> notificationsEnabled)
      && ("location" in p <==> locationEnabled)
      && (forall i, j :: 0 <= i < j < |p| ==> p[i] == "notifications" && p[j] == "location")
      && |p| <= 2
  {
  }

  /** A JSON value; values the model does not inspect are `JOther`. */
  datatype Json = JString(s: string) | JObject(fields: map<string, Json>) | JOther

  /** An outgoing request: a mobile-app webhook of some type, or a POST to a REST path. */
  datatype Request =
    | Webhook(kind: string, payload: map<string, Json>)
    | Rest(path: string, body: map<string, Json>)

  /** `createEvent`. */
  function CreateEventRoute(webhookID: Option<string>, eventType: string, eventData: map<string, Json>): Request {
    if webhookID.Some? then
      Webhook("fire_event", map["event_type" := JString(eventType), "event_data" := JObject(eventData)])
    else
      Rest("events/" + eventType, eventData)
  }

  /** `callService`. */
  function CallServiceRoute(webhookID: Option<string>, domain: string, service: string,
    serviceData: map<string, Json>): Request
  {
    if webhookID.Some? then
      Webhook("call_service", map["domain" := JString(domain), "service" := JString(service),
                                  "service_data" := JObject(serviceData)])
    else
      Rest("services/" + domain + "/" + service, serviceData)
  }

  /** `submitLocation`: an "update_location" webhook, or the `device_tracker.see` service call. */
  function SubmitLocationRoute(webhookID: Option<string>, payload: map<string, Json>): Request {
    if webhookID.Some? then Webhook("update_location", payload)
    else CallServiceRoute(None, "device_tracker", "see", payload)
  }

  /**
   * With a webhook ID each call is a webhook with its fixed type and payload
   * keys; without one it is a REST request carrying the data unchanged.
   */
  lemma WebhookExactlyWithID(webhookID: Option<string>, name: string, service: string, data: map<string, Json>)
    ensures CreateEventRoute(webhookID, name, data).Webhook? <==> webhookID.Some?
    ensures CallServiceRoute(webhookID, name, service, data).Webhook? <==> webhookID.Some?
    ensures SubmitLocationRoute(webhookID, data).Webhook? <==> webhookID.Some?
    ensures webhookID.Some? ==>
      && CreateEventRoute(webhookID, name, data).kind == "fire_event"
      && CreateEventRoute(webhookID, name, data).payload.Keys == {"event_type", "event_data"}
      && CreateEventRoute(webhookID, name, data).payload["event_data"] == JObject(data)
      && CallServiceRoute(webhookID, name, service, data).kind == "call_service"
      && CallServiceRoute(webhookID, name, service, data).payload.Keys == {"domain", "service", "service_data"}
      && CallServiceRoute(webhookID, name, service, data).payload["service_data"] == JObject(data)
      && SubmitLocationRoute(webhookID, data) == Webhook("update_location", data)
    ensures webhookID.None? ==>
      && CreateEventRoute(webhookID, name, data).body == data
      && CallServiceRoute(webhookID, name, service, data).body == data
      && SubmitLocationRoute(webhookID, data) == CallServiceRoute(None, "device_tracker", "see", data)
  {
  }

  /**
   * A REST service path names its domain and service: two calls on the same
   * path are to the same service, provided domains contain no "/".
   */
  lemma {:induction false} ServicePathDeterminesService(d1: string, s1: string, d2: string, s2: string)
    requires '/' !in d1 && '/' !in d2
    requires "services/" + d1 + "/" + s1 == "services/" + d2 + "/" + s2
    ensures d1 == d2 && s1 == s2
  {
    var p := "services/";
    assert (p + d1 + "/" + s1)[|p|..] == d1 + "/" + s1;
    assert (p + d2 + "/" + s2)[|p|..] == d2 + "/" + s2;
    SlashSplit(d1, s1, d2, s2);
  }

  /** The position of the first "/" of a string, or its length when there is none. */
  function FirstSlash(x: string): (i: nat)
    ensures i <= |x|
  {
    if x == [] || x[0] == '/' then 0 else 1 + FirstSlash(x[1..])
  }

  lemma {:induction false} FirstSlashAfter(d: string, s: string)
    requires '/' !in d
    ensures FirstSlash(d + "/" + s) == |d|
  {
    if d != [] {
      assert (d + "/" + s)[1..] == d[1..] + "/" + s;
      FirstSlashAfter(d[1..], s);
    }
  }

  lemma SlashSplit(d1: string, s1: string, d2: string, s2: string)
    requires '/' !in d1 && '/' !in d2
    requires d1 + "/" + s1 == d2 + "/" + s2
    ensures d1 == d2 && s1 == s2
  {
    var x1, x2 := d1 + "/" + s1, d2 + "/" + s2;
    FirstSlashAfter(d1, s1);
    FirstSlashAfter(d2, s2);
    assert d1 == x1[..|d1|] == x2[..|d2|] == d2;
    assert s1 == x1[|d1| + 1..] == x2[|d2| + 1..] == s2;
  }

  /** Event paths are "events/" followed by the event type, so the type reads back from the path. */
  lemma EventPathReadsBack(eventType: string, data: map<string, Json>)
    ensures var r := CreateEventRoute(None, eventType, data);
      |r.path| >= 7 && r.path[..7] == "events/" && r.path[7..] == eventType
  {
  }

  /** What the shared API asks of the server or posts locally. */
  datatype Action =
    | PostedConnected
    | RequestManifest
    | RegisterDevice
    | RequestStates
    | IdentifyDevice
    | Send(request: Request)

  /** The parts of the server configuration `Connect` acts on. */
  datatype ConfigResponse = ConfigResponse(components: Option<seq<string>>)

  predicate ShouldRegister(loadedComponents: seq<string>, webhookID: Option<string>) {
    "mobile_app" in loadedComponents && webhookID.None?
  }

  /** The location payload fields the shared API sets itself. */
  datatype LocationPayload = LocationPayload(
    trigger: LocationReport.Trigger,
    location: Option<LocationReport.Location>,
    zone: Option<StoredZone>,
    sourceType: LocationReport.SourceType)

  /** `buildLocationPayload` and `buildWebhookLocationPayload` set the same trigger and source type. */
  method BuildLocationPayload(updateType: LocationReport.Trigger, location: Option<LocationReport.Location>,
    zone: Option<StoredZone>)
    returns (payload: LocationPayload)
    ensures payload.trigger == updateType && payload.location == location && payload.zone == zone
    ensures payload.sourceType == LocationReport.BluetoothLowEnergy
      <==> updateType == LocationReport.BeaconRegionEnter || updateType == LocationReport.BeaconRegionExit
  {
    payload := LocationPayload(updateType, location, zone, LocationReport.GlobalPositioningSystem);
    var isBeaconUpdate := updateType == LocationReport.BeaconRegionEnter || updateType == LocationReport.BeaconRegionExit;
    payload := payload.(sourceType := if isBeaconUpdate then LocationReport.BluetoothLowEnergy
                                      else LocationReport.GlobalPositioningSystem);
  }

  /** `ActionSource`. */
  datatype ActionSource = Watch | Widget | AppShortcut | Preview

  const AllActionSources: seq<ActionSource> := [Watch, Widget, AppShortcut, Preview]

  function ActionSourceDescription(s: ActionSource): string {
    match s
    case Watch => "watch"
    case Widget => "widget"
    case AppShortcut => "appShortcut"
    case Preview => "preview"
  }

  /** Different sources never share a description, so the description identifies the source. */
  lemma ActionSourceDescriptionInjective(a: ActionSource, b: ActionSource)
    requires ActionSourceDescription(a) == ActionSourceDescription(b)
    ensures a == b
  {
  }

  /** Each source is listed once, and the listed descriptions are pairwise different. */
  lemma ActionSourcesDistinct(s: ActionSource)
    ensures s in AllActionSources
    ensures forall i, j :: 0 <= i < j < |AllActionSources| ==> AllActionSources[i] != AllActionSources[j]
    ensures forall i, j :: 0 <= i < j < |AllActionSources| ==>
      ActionSourceDescription(AllActionSources[i]) != ActionSourceDescription(AllActionSources[j])
  {
  }

  /** The shared API object with the settings it consults. */
  class HomeAssistantAPI {
    var loadedComponents: seq<string>
    /** `Current.settingsStore.webhookID`. */
    var webhookID: Option<string>
    var actions: seq<Action>
    /** `Current.isPerformingSingleShotLocationQuery`. */
    var singleShotQueryActive: bool
    /** The trigger the pending one-shot request will report with. */
    var oneShotTrigger: LocationReport.Trigger

    constructor (webhookID: Option<string>)
      ensures loadedComponents == [] && this.webhookID == webhookID && actions == []
      ensures !singleShotQueryActive && oneShotTrigger == LocationReport.Manual
    {
      loadedComponents := [];
      this.webhookID := webhookID;
      actions := [];
      singleShotQueryActive := false;
      oneShotTrigger := LocationReport.Manual;
    }

    /**
     * `Connect`, once the configuration arrived: the component list is taken
     * when present, "connected" is posted, the manifest requested, the device
     * registered when the mobile_app component is loaded and no webhook is
     * set up yet, and the states requested.
     */
    method Connect(config: ConfigResponse)
      modifies this
      ensures loadedComponents == config.components.GetOr(old(loadedComponents))
      ensures actions == old(actions) + [PostedConnected, RequestManifest]
        + (if ShouldRegister(loadedComponents, webhookID) then [RegisterDevice] else []) + [RequestStates]
      ensures webhookID == old(webhookID) && singleShotQueryActive == old(singleShotQueryActive)
      ensures oneShotTrigger == old(oneShotTrigger)
    {
      if config.components.Some? {
        loadedComponents := config.components.value;
      }
      actions := actions + [PostedConnected, RequestManifest];
      if "mobile_app" in loadedComponents && webhookID == None {
        actions := actions + [RegisterDevice];
      }
      actions := actions + [RequestStates];
    }

    /** `Connect`'s states callback: the entities are stored, then the device identified if "ios" is loaded. */
    method StatesReceived(store: Store, entities: seq<Entity>)
      requires store.Valid()
      modifies this, store
      ensures store.Valid()
      ensures store.zones == StoredZonesAfter(old(store.zones), entities)
      ensures store.trackers == TrackersAfter(old(store.trackers), entities)
      ensures store.regionSyncs == old(store.regionSyncs) + 1
      ensures actions == old(actions) + (if "ios" in loadedComponents then [IdentifyDevice] else [])
      ensures loadedComponents == old(loadedComponents) && webhookID == old(webhookID)
      ensures singleShotQueryActive == old(singleShotQueryActive) && oneShotTrigger == old(oneShotTrigger)
    {
      store.StoreEntities(entities);
      if "ios" in loadedComponents {
        actions := actions + [IdentifyDevice];
      }
    }

    /** `submitLocation`: the request it sends; without a webhook the device is identified first. */
    method SubmitLocation(payloadDict: map<string, Json>)
      modifies this
      ensures actions == old(actions)
        + (if webhookID.Some? then [] else [IdentifyDevice]) + [Send(SubmitLocationRoute(webhookID, payloadDict))]
      ensures loadedComponents == old(loadedComponents) && webhookID == old(webhookID)
      ensures singleShotQueryActive == old(singleShotQueryActive) && oneShotTrigger == old(oneShotTrigger)
    {
      if webhookID != None {
        actions := actions + [Send(Webhook("update_location", payloadDict))];
        return;
      }
      actions := actions + [IdentifyDevice, Send(CallServiceRoute(webhookID, "device_tracker", "see", payloadDict))];
    }

    /** `getAndSendLocation`: a nil trigger defaults to Manual. */
    method GetAndSendLocation(trigger: Option<LocationReport.Trigger>)
      modifies this
      ensures oneShotTrigger == (if trigger.Some? then trigger.value else LocationReport.Manual)
      ensures singleShotQueryActive
      ensures actions == old(actions) && loadedComponents == old(loadedComponents) && webhookID == old(webhookID)
    {
      var updateTrigger := LocationReport.Manual;
      if trigger.Some? {
        updateTrigger := trigger.value;
      }
      singleShotQueryActive := true;
      oneShotTrigger := updateTrigger;
    }

    /**
     * The one-shot callback as written: without a location it rejects and
     * changes nothing; with one it sets the single-shot flag to true a second
     * time and submits, so the flag is never cleared.
     */
    method OneShotLocationReceivedAsWritten(location: Option<LocationReport.Location>, payloadDict: map<string, Json>)
      modifies this
      ensures location.None? ==> actions == old(actions) && singleShotQueryActive == old(singleShotQueryActive)
      ensures location.Some? ==> singleShotQueryActive
      ensures location.Some? ==>
        actions == old(actions)
          + (if webhookID.Some? then [] else [IdentifyDevice]) + [Send(SubmitLocationRoute(webhookID, payloadDict))]
      ensures oneShotTrigger == old(oneShotTrigger) && webhookID == old(webhookID)
    {
      if location.None? {
        return;
      }
      singleShotQueryActive := true;
      SubmitLocation(payloadDict);
    }

    /**
     * The one-shot callback with the flag cleared first, whether or not a
     * location arrived, as the iOS app's own version does.
     */
    method OneShotLocationReceived(location: Option<LocationReport.Location>, payloadDict: map<string, Json>)
      modifies this
      ensures !singleShotQueryActive
      ensures location.None? ==> actions == old(actions)
      ensures location.Some? ==>
        actions == old(actions)
          + (if webhookID.Some? then [] else [IdentifyDevice]) + [Send(SubmitLocationRoute(webhookID, payloadDict))]
      ensures oneShotTrigger == old(oneShotTrigger) && webhookID == old(webhookID)
    {
      singleShotQueryActive := false;
      if location.None? {
        return;
      }
      SubmitLocation(payloadDict);
    }
  }

  /**
   * A one-shot request that does deliver a location leaves the single-shot
   * query flag set as written, and clear with the corrected callback.
   */
  method SingleShotFlagStaysSet(location: LocationReport.Location, payloadDict: map<string, Json>)
    returns (asWritten: bool, corrected: bool)
    ensures asWritten && !corrected
  {
    var api := new HomeAssistantAPI(None);
    api.GetAndSendLocation(None);
    api.OneShotLocationReceivedAsWritten(Some(location), payloadDict);
    asWritten := api.singleShotQueryActive;
    var fixedAPI := new HomeAssistantAPI(None);
    fixedAPI.GetAndSendLocation(None);
    fixedAPI.OneShotLocationReceived(Some(location), payloadDict);
    corrected := fixedAPI.singleShotQueryActive;
  }
}
