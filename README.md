# Home Assistant for iOS: a verified model of the app's core logic

This project models the decision-making core of the Home Assistant iOS
companion app and proves properties of it. The app is a Swift client for a
Home Assistant server. The model covers these parts:

- **Complications** (`complications.dfy`): how watch complication families, members and
  templates relate, their raw names, text areas and styles.
- **Media player** (`media_player.dfy`): the media-player entity. This covers the
  `supported_media_commands` bit set, the duration text (with Swift's truncating
  `/` and `%`), the state icon and the attribute mapping.
- **Bonjour** (`bonjour.dfy`): discovery and publishing. TXT records are normalised
  into discovery info, services are resolved and removed, and the publish dictionary
  is built.
- **Zone store** (`zone_store.dfy`): `storeEntities`, which keeps the zone and
  device-tracker tables in step with the server's states.
- **Shared API** (`api_routing.dfy`): webhook routing versus REST routing, the
  enabled-permission list, the connect sequence, the location payload header and the
  action sources.
- **Location reporting** (`location_report.dfy`): location reports from the iOS app.
  These are region enter and exit events, which zone a report names, the payload, the
  history entry and the local notification rules, significant-location updates and
  one-shot location requests.
- **Watch extension** (`watch_extension.dfy`): the render-complications request and the
  merge of rendered texts. It also covers the background URL session lifetime and the
  device model name.
- **Authentication** (`authentication.dfy`): the authorize URL, the redirect URI and
  client ID, and the callback that extracts the authorization code.
- **Defaults** (`defaults.dfy`): `setDefaults`, which seeds the user defaults, and the
  reset of the shared app-group defaults.
- **Permissions** (`permissions.dfy`): the launch check that aligns the stored
  permission flags with the system authorization and posts a `permission_change`
  notification for each change.
- **Root tab bar** (`root_tab_bar.dfy`): which groups become tabs, the icon and title of
  each tab, Settings as the last tab, and the state-change subtitle.
- **Entity mapping** (`entity.dfy`): the subclass chosen for a state, the base fields,
  the domain transform and the persisted properties.
- **Group component** (`group_component.dfy`): the group "all" flag transform.
- **Camera intent** (`camera_intent.dfy`): the Siri camera-image intent's `confirm` and
  `handle`.

Where the source mutates objects the model uses classes whose methods state
their new state. Examples are the region manager, the shared API object, the
Bonjour delegate and browser, the extension delegate, the authentication
controller, user defaults, the settings store and the intent. Pure
decisions stay as functions, each with lemmas about them.

Some services the code calls are not visible in the source. These become
parameters of the model:
- The domain of an entity ID (`getEntityType`).
- The icon for a domain and title capitalization.
- Region containment (`checkIfInsideAnyRegions`).
- The permission library's status answers.
- Whether Chrome is installed.
- Whether an authenticated API exists.
- The camera fetch's outcome.
- The clipboard's text.

## Model

| member | source | states |
|---|---|---|
| Complications.MemberNameRoundTrip | HomeAssistant/Utilities/CLKComplication+Strings.swift:72-114 | Reading a member's raw name back through `init(name:)` gives the same member. |
| Complications.UnknownMemberName | HomeAssistant/Utilities/CLKComplication+Strings.swift:85-114 | A name that is no member's raw name falls back to the circular-small member. |
| Complications.MemberName | HomeAssistant/Utilities/CLKComplication+Strings.swift:72-83 | The members' raw names; Complications.MemberNameRoundTrip and Complications.MemberNamesDistinct state their properties. |
| Complications.MemberFromName | HomeAssistant/Utilities/CLKComplication+Strings.swift:85-114 | `init(name:)`; Complications.MemberNameRoundTrip and Complications.UnknownMemberName state its behaviour. |
| Complications.MemberNamesDistinct | HomeAssistant/Utilities/CLKComplication+Strings.swift:72-83 | Distinct members have distinct raw names. |
| Complications.GroupMembership | HomeAssistant/Utilities/CLKComplication+Strings.swift:52-68 | A member is listed in a group's members exactly when the member's `group` is that group. |
| Complications.GroupMembersPartition | HomeAssistant/Utilities/CLKComplication+Strings.swift:15-69 | The five groups' member lists together list all 11 members, each exactly once. |
| Complications.TemplateMembership | HomeAssistant/Utilities/CLKComplication+Strings.swift:299-331 | A template is in a member's template list exactly when its `groupMember` is that member. |
| Complications.ListedTemplatesBelong | HomeAssistant/Utilities/CLKComplication+Strings.swift:595-625 | Every template a member lists has that member as its `groupMember`. |
| Complications.TemplateInOwnList | HomeAssistant/Utilities/CLKComplication+Strings.swift:299-331 | Every template appears in the template list of its own `groupMember`. |
| Complications.MemberTemplatesDistinct | HomeAssistant/Utilities/CLKComplication+Strings.swift:299-331 | No member lists a template twice. |
| Complications.TemplatesOfPartition | HomeAssistant/Utilities/CLKComplication+Strings.swift:299-331 | For distinct members, the joined template lists hold exactly the templates of those members, with no duplicates. |
| Complications.TemplatesPartition | HomeAssistant/Utilities/CLKComplication+Strings.swift:336-380 | The members' template lists together list all 44 templates exactly once. |
| Complications.TemplatesCount | HomeAssistant/Utilities/CLKComplication+Strings.swift:299-331 | The members' template lists hold 44 templates in all. |
| Complications.TemplateGroupAgrees | HomeAssistant/Utilities/CLKComplication+Strings.swift:571-593 | A template's `group` is the group of its `groupMember`. |
| Complications.GaugeStyleExclusive | HomeAssistant/Utilities/CLKComplication+Strings.swift:825-861 | A gauge template has exactly one of the three gauge styles, and a non-gauge template has none. |
| Complications.ImageTypeHasImage | HomeAssistant/Utilities/CLKComplication+Strings.swift:530-569 | Image-type templates have an image; the only image-bearing template of another type is utilitarian-small ring image. |
| Complications.RingTextAreas | HomeAssistant/Utilities/CLKComplication+Strings.swift:815-823 | A ring template's only text area is the inside-ring area. |
| Complications.Row2AlignmentAreas | HomeAssistant/Utilities/CLKComplication+Strings.swift:876-884 | A template that supports row-2 alignment has both row-2 column areas. |
| Complications.TextAreasWellFormed | HomeAssistant/Utilities/CLKComplication+Strings.swift:627-719 | No template lists a text area twice; row-3 column areas are never used. |
| Complications.TextAreaNamesDistinct | HomeAssistant/Utilities/CLKComplication+Strings.swift:888-906 | Distinct text areas have distinct names. |
| MediaPlayer.SwiftDivision | HomeAssistant/Classes/Components/MediaPlayerComponent.swift:87-96 | The model's truncating quotient and remainder obey Swift's rules: they recompose the dividend, and the remainder takes the dividend's sign. |
| MediaPlayer.DurationParts | HomeAssistant/Classes/Components/MediaPlayerComponent.swift:87-96 | A non-negative duration splits into hours, minutes below 60 and seconds below 60 that recompose it. |
| MediaPlayer.HumanReadableDuration | HomeAssistant/Classes/Components/MediaPlayerComponent.swift:87-96 | `humanReadableMediaDuration`; MediaPlayer.DurationTextReadsBack and the MediaPlayer.DurationExample lemmas state its results. |
| MediaPlayer.DurationTextReadsBack | HomeAssistant/Classes/Components/MediaPlayerComponent.swift:87-96 | The text of a non-negative duration is "h:m:s" in decimal, with those parts. |
| MediaPlayer.DurationExampleMinuteAndSeconds | HomeAssistant/Classes/Components/MediaPlayerComponent.swift:87-96 | 65 seconds reads "0:1:5", with no zero padding. |
| MediaPlayer.DurationExampleHour | HomeAssistant/Classes/Components/MediaPlayerComponent.swift:87-96 | 3725 seconds reads "1:2:5". |
| MediaPlayer.DurationExampleNegative | HomeAssistant/Classes/Components/MediaPlayerComponent.swift:87-96 | -65 seconds reads "0:-1:-5", because of truncating division. |
| MediaPlayer.DurationExampleMissing | HomeAssistant/Classes/Components/MediaPlayerComponent.swift:87-96 | A missing duration reads "00:00:00". |
| MediaPlayer.StateIcon | HomeAssistant/Classes/Components/MediaPlayerComponent.swift:113-115 | The icon is "mdi:cast" exactly for the off and idle states, and "mdi:cast-connected" otherwise. |
| MediaPlayer.RawValuesAreDistinctBits | HomeAssistant/Classes/Components/MediaPlayerComponent.swift:118-134 | Every option's raw value is a single power of two, options have distinct bits, and bit 6 (value 64) is unassigned. |
| MediaPlayer.PowerHasOneBit | HomeAssistant/Classes/Components/MediaPlayerComponent.swift:118-134 | 2^k has bit j set exactly when j = k. |
| MediaPlayer.AddClearBit | HomeAssistant/Classes/Components/MediaPlayerComponent.swift:118-134 | Adding 2^k to a number whose bit k is clear sets bit k and keeps every other bit. |
| MediaPlayer.Decode | HomeAssistant/Classes/Components/MediaPlayerComponent.swift:63-80 | The decoded set of commands holds exactly the commands whose bit the raw value contains. |
| MediaPlayer.EncodeHolds | HomeAssistant/Classes/Components/MediaPlayerComponent.swift:118-134 | The union of distinct options' raw values contains exactly those options. |
| MediaPlayer.DecodeEncode | HomeAssistant/Classes/Components/MediaPlayerComponent.swift:118-134 | Decoding the union of distinct options gives back the set of those options. |
| MediaPlayer.DecodeSingle | HomeAssistant/Classes/Components/MediaPlayerComponent.swift:118-134 | A single option's raw value decodes to that option alone. |
| MediaPlayer.UnassignedBitIgnored | HomeAssistant/Classes/Components/MediaPlayerComponent.swift:118-134 | Setting the unassigned bit 6 does not change which commands are supported. |
| MediaPlayer.NothingSupportedHasNothing | HomeAssistant/Classes/Components/MediaPlayerComponent.swift:26-38 | A fresh player supports no command. |
| MediaPlayer.SupportedFrom | HomeAssistant/Classes/Components/MediaPlayerComponent.swift:63-80 | Each `Supports…` flag is set exactly when its command is in the decoded raw value. |
| MediaPlayer.Player.constructor | HomeAssistant/Classes/Components/MediaPlayerComponent.swift:13-39 | A fresh player has empty state, no duration, no command mask, no sources and no supported commands. |
| MediaPlayer.Player.Mapping | HomeAssistant/Classes/Components/MediaPlayerComponent.swift:41-81 | Mapping copies the state, duration and mask, appends the given source list to the stored list, and sets the `Supports…` flags from the mask if one is present; otherwise it keeps them. |
| MediaPlayer.MapFromJSON | HomeAssistant/Classes/Components/MediaPlayerComponent.swift:41-81 | Mapping a fresh player supports nothing without a mask, and exactly the decoded commands with one. |
| Bonjour.NormalizeTxtValue | HomeAssistant/Utilities/Bonjour.swift:56-61 | Non-UTF-8 TXT values are dropped; "true" and "false" become booleans; other text stays a string. |
| Bonjour.LocationNameIsServiceName | HomeAssistant/Utilities/Bonjour.swift:62 | The discovery info's `location_name` is always the service name. |
| Bonjour.OtherKeysNormalized | HomeAssistant/Utilities/Bonjour.swift:51-70 | Every other key is present exactly when its TXT value is UTF-8, and has the normalised value. |
| Bonjour.BaseURLTrimmed | HomeAssistant/Utilities/Bonjour.swift:63-66 | A `base_url` ending in "/" loses that last character; any other `base_url` is kept. |
| Bonjour.DiscoveryKeys | HomeAssistant/Utilities/Bonjour.swift:51-70 | The discovery info has only the TXT keys plus `location_name`. |
| Bonjour.DiscoveryInfo | HomeAssistant/Utilities/Bonjour.swift:51-70 | The dictionary `DiscoveryInfoFromDict` builds; Bonjour.LocationNameIsServiceName, Bonjour.OtherKeysNormalized, Bonjour.BaseURLTrimmed and Bonjour.DiscoveryKeys state its contents. |
| Bonjour.BonjourDelegate.DidFind | HomeAssistant/Utilities/Bonjour.swift:20-27 | A found service is kept in the resolving table under its name; nothing is posted. |
| Bonjour.BonjourDelegate.DidRemove | HomeAssistant/Utilities/Bonjour.swift:40-49 | A removed service leaves the table and an "undiscovered" post with its name follows. |
| Bonjour.BonjourDelegate.DidResolveAddress | HomeAssistant/Utilities/Bonjour.swift:29-38 | A resolved service with a TXT record posts the normalised TXT dictionary; without one nothing is posted. |
| Bonjour.DiscoveryInfoFromDict | HomeAssistant/Utilities/Bonjour.swift:51-70 | The loop over the TXT record builds exactly the specified discovery info. |
| Bonjour.BuildPublishDict | HomeAssistant/Utilities/Bonjour.swift:87-112 | `permanentID` is always published; the build number, version and bundle identifier are published exactly when the bundle provides them as strings. |
| Bonjour.PublishDictDetermined | HomeAssistant/Utilities/Bonjour.swift:87-112 | The description of the publish dictionary fixes it completely: two dictionaries that fit the same bundle facts are equal. |
| Bonjour.Browser.StartDiscovery | HomeAssistant/Utilities/Bonjour.swift:114-119 | Discovery runs afterwards with a new delegate whose resolving dictionary is empty; publishing is untouched. |
| Bonjour.Browser.StopDiscovery | HomeAssistant/Utilities/Bonjour.swift:121-124 | Discovery is stopped; publishing is untouched. |
| Bonjour.Browser.StartPublish | HomeAssistant/Utilities/Bonjour.swift:126-132 | Publishing runs with the publish dictionary as its TXT record: `permanentID` always, each bundle entry exactly when the bundle provides it as a string. Discovery and the delegate are untouched. |
| Bonjour.Browser.StopPublish | HomeAssistant/Utilities/Bonjour.swift:134-137 | Publishing is stopped; discovery is untouched. |
| ZoneStore.NewStoredZone | Shared/API/HAAPI.swift:738-743 | A newly stored zone has the zone's ID and name and starts outside the region. |
| ZoneStore.UpdateZone | Shared/API/HAAPI.swift:767-775 | Updating copies coordinates, radius, tracking and beacon fields; nothing else changes (ID, name, in-region flag). |
| ZoneStore.Storeable | Shared/API/HAAPI.swift:718-721 | Exactly the zone and device-tracker entities are kept, in order. |
| ZoneStore.SeenAreZoneIDs | Shared/API/HAAPI.swift:727-732 | The seen-zone list holds exactly the IDs of the zone entities. |
| ZoneStore.LoopKeys | Shared/API/HAAPI.swift:729-744 | After the loop the zone table has the old zones plus every seen zone. |
| ZoneStore.StoredIDsAreReportedIDs | Shared/API/HAAPI.swift:729-762 | After the sync the stored zones are exactly the zones the server reported. |
| ZoneStore.UpsertZone | Shared/API/HAAPI.swift:729-744 | One step of the upsert loop; ZoneStore.LoopKeys, ZoneStore.LoopKeepsInRegion and ZoneStore.LoopTakesLastReport state what the loop does. |
| ZoneStore.StoredZonesAfter | Shared/API/HAAPI.swift:718-762 | The zone table after `storeEntities`; ZoneStore.StoredIDsAreReportedIDs, ZoneStore.SyncKeepsInRegion and ZoneStore.SyncKeepsKeyedByID state its properties. |
| ZoneStore.LookupIsFilterByID | HomeAssistant/HAAPI.swift:1064 | In a table keyed by ID, some zone has a given ID exactly when that ID is a key, and every zone with that ID is the one under the key, so a key lookup finds what filtering on `ID` finds. |
| ZoneStore.LoopKeepsKeyedByID | Shared/API/HAAPI.swift:729-744 | The upsert loop keeps every zone stored under its own ID. |
| ZoneStore.SyncKeepsKeyedByID | Shared/API/HAAPI.swift:718-762 | `storeEntities` keeps every zone stored under its own ID. |
| ZoneStore.LoopKeepsInRegion | Shared/API/HAAPI.swift:733-743 | An existing zone keeps its in-region flag; a new zone starts outside. |
| ZoneStore.LoopTakesLastReport | Shared/API/HAAPI.swift:729-744 | A zone reported several times holds the fields of its last report. |
| ZoneStore.SyncKeepsInRegion | Shared/API/HAAPI.swift:729-762 | Across the whole sync, surviving zones keep their in-region flag and new zones start outside. |
| ZoneStore.TrackerKeys | Shared/API/HAAPI.swift:746-751 | The tracker table gains exactly the reported device trackers. |
| ZoneStore.IgnoresOtherDomains | Shared/API/HAAPI.swift:718-721 | Entities of other domains change neither table. |
| ZoneStore.Store.StoreEntities | Shared/API/HAAPI.swift:717-765 | The zone and tracker tables become the synced tables, the region sync counter goes up by one, and every zone stays stored under its own ID, as Realm's primary key keeps it. |
| ApiRouting.EnabledPermissions | Shared/API/HAAPI.swift:71-80 | The list is "notifications" if enabled, then "location" if enabled. |
| ApiRouting.PermissionsAreOrderedSubsequence | Shared/API/HAAPI.swift:71-80 | Each permission is listed exactly when its flag is set, at most once, with notifications first. |
| ApiRouting.WebhookExactlyWithID | Shared/API/HAAPI.swift:307-406 | Events, service calls and location submissions use the webhook exactly when a webhook ID exists, with their fixed types and payload keys; otherwise they are REST requests carrying the data unchanged. |
| ApiRouting.ServicePathDeterminesService | Shared/API/HAAPI.swift:403-406 | Two REST service calls on the same path are to the same domain and service, provided domains have no "/". |
| ApiRouting.EventPathReadsBack | Shared/API/HAAPI.swift:314-317 | The event type reads back from the REST event path after "events/". |
| ApiRouting.CreateEventRoute | Shared/API/HAAPI.swift:307-317 | `createEvent`'s request; ApiRouting.WebhookExactlyWithID and ApiRouting.EventPathReadsBack state its shape. |
| ApiRouting.CallServiceRoute | Shared/API/HAAPI.swift:386-406 | `callService`'s request; ApiRouting.WebhookExactlyWithID and ApiRouting.ServicePathDeterminesService state its shape. |
| ApiRouting.SubmitLocationRoute | Shared/API/HAAPI.swift:901-970 | `submitLocation`'s request; ApiRouting.WebhookExactlyWithID states its shape. |
| ApiRouting.BuildLocationPayload | Shared/API/HAAPI.swift:842-899 | The payload carries the trigger, location and zone; its source type is Bluetooth LE exactly for beacon triggers. |
| ApiRouting.ActionSourceDescriptionInjective | Shared/API/HAAPI.swift:1025-1043 | Two sources with the same description are the same source. |
| ApiRouting.ActionSourceDescription | Shared/API/HAAPI.swift:1025-1043 | `ActionSource.description`; ApiRouting.ActionSourceDescriptionInjective and ApiRouting.ActionSourcesDistinct state its properties. |
| ApiRouting.ActionSourcesDistinct | Shared/API/HAAPI.swift:1025-1043 | Every source is listed, each once, and the listed descriptions differ pairwise. |
| ApiRouting.HomeAssistantAPI.Connect | Shared/API/HAAPI.swift:163-192 | Loaded components come from the config if present; "connected" is posted, and the manifest is requested; device registration is requested exactly with `mobile_app` and no webhook ID; then states are requested. |
| ApiRouting.ShouldRegister | Shared/API/HAAPI.swift:190-192 | The registration test; ApiRouting.HomeAssistantAPI.Connect states where it decides the requests. |
| ApiRouting.HomeAssistantAPI.StatesReceived | Shared/API/HAAPI.swift:194-199 | Received states are stored, and the device is identified exactly when the `ios` component is loaded. |
| ApiRouting.HomeAssistantAPI.SubmitLocation | Shared/API/HAAPI.swift:937-976 | With a webhook ID, one "update_location" webhook goes out; without one, an identify request is followed by `device_tracker.see`. |
| ApiRouting.HomeAssistantAPI.GetAndSendLocation | Shared/API/HAAPI.swift:978-986 | The single-shot flag is set and a missing trigger defaults to Manual. |
| ApiRouting.HomeAssistantAPI.OneShotLocationReceivedAsWritten | Shared/API/HAAPI.swift:987-1002 | As written, a received location leaves the single-shot flag set and submits. |
| ApiRouting.HomeAssistantAPI.OneShotLocationReceived | Shared/API/HAAPI.swift:987-1002 | The corrected callback clears the flag whether or not a location arrived, then submits a received location. |
| ApiRouting.SingleShotFlagStaysSet | Shared/API/HAAPI.swift:986-993 | After a one-shot request receives a location, the flag is still set as written and clear as corrected. |
| LocationReport.TriggerFromRaw | HomeAssistant/HAAPI.swift:1273-1285 | A raw value reads back only as the trigger with that raw value. |
| LocationReport.TriggerRawRoundTrip | HomeAssistant/HAAPI.swift:1273-1285 | Every trigger reads back from its raw value, and raw values are distinct. |
| LocationReport.ChooseLocation | HomeAssistant/HAAPI.swift:253-260 | The location given wins; then the zone's centre; then the visit's location; then the default location. |
| LocationReport.SourceTypeFor | HomeAssistant/HAAPI.swift:267-272 | The source type is Bluetooth LE exactly for beacon triggers, GPS otherwise. |
| LocationReport.ActivityType | HomeAssistant/HAAPI.swift:1287-1303 | The activity is named by the first true flag in the order walking, running, automotive, cycling, stationary, or "Unknown". |
| LocationReport.ConfidenceDescription | HomeAssistant/HAAPI.swift:1305-1316 | Each confidence level has its own name and anything else is "Unknown". |
| LocationReport.LocationName | HomeAssistant/HAAPI.swift:279-285 | The home zone reports "home" on enter and "not_home" on exit; other zones report no name. |
| LocationReport.NotificationTable | HomeAssistant/HAAPI.swift:333-376 | Manual and Unknown never notify; every other trigger notifies exactly when its own preference is on, and no two triggers share a preference. |
| LocationReport.NotificationFor | HomeAssistant/HAAPI.swift:333-376 | The per-trigger notification options; LocationReport.NotificationTable and LocationReport.ZoneTriggersNameTheZone state their properties. |
| LocationReport.ZoneTriggersNameTheZone | HomeAssistant/HAAPI.swift:333-376 | Region triggers use an identifier beginning with the zone name and "_", and name the zone in the body. |
| LocationReport.SubmitOutcome | HomeAssistant/HAAPI.swift:248-400 | A history entry with the trigger and the chosen location is always appended. Inside a monitored region nothing else happens. Otherwise the payload with the trigger's source type is sent, one client event carrying the trigger's notification body and that payload is appended, and the trigger's notification is appended exactly when it notifies. |
| LocationReport.AfterSubmit | HomeAssistant/HAAPI.swift:248-400 | The report log after one `submitLocation`; LocationReport.SubmitOutcome states its contents. |
| LocationReport.RegionTrigger | HomeAssistant/HAAPI.swift:1075-1082 | On a beacon region, region enter and exit become beacon enter and exit; other triggers are kept. |
| LocationReport.InRegionFollowsTrigger | HomeAssistant/HAAPI.swift:1091 | The zone's in-region flag follows whether the original trigger was an enter. |
| LocationReport.LastLocation | HomeAssistant/HAAPI.swift:1143-1158 | The last delivered location, and none for an empty list. |
| LocationReport.RegionManager.constructor | HomeAssistant/HAAPI.swift:1018-1050 | The manager starts without activity or location, with no one-shot request, after one region sync. |
| LocationReport.RegionManager.TriggerRegionEvent | HomeAssistant/HAAPI.swift:1057-1097 | Without an API nothing happens. An unknown region triggers a region sync. A zone with tracking disabled is skipped. Otherwise the beacon-converted trigger sets the zone's in-region flag and the location is submitted for that zone. The zone is looked up by key in a table keyed by ID, which finds the zone the source's filter on `ID` finds (ZoneStore.LookupIsFilterByID). |
| LocationReport.RegionManager.DidUpdateLocations | HomeAssistant/HAAPI.swift:1143-1158 | Updates are ignored without an API or during a one-shot request; otherwise the last location is remembered and submitted as a significant update. |
| LocationReport.HomeAssistantAPI.constructor | HomeAssistant/HAAPI.swift:56-57 | The API starts with an empty report log and the Manual one-shot trigger. |
| LocationReport.HomeAssistantAPI.MakePayload | HomeAssistant/HAAPI.swift:253-285 | The payload is built for the chosen location with the trigger's source type and the zone's name. |
| LocationReport.BuildPayload | HomeAssistant/HAAPI.swift:253-285 | The payload `submitLocation` builds; LocationReport.HomeAssistantAPI.MakePayload and LocationReport.SubmitOutcome state its fields. |
| LocationReport.HomeAssistantAPI.SubmitLocation | HomeAssistant/HAAPI.swift:248-400 | The report log becomes exactly the specified outcome of one submission. |
| LocationReport.HomeAssistantAPI.GetAndSendLocation | HomeAssistant/HAAPI.swift:402-410 | A one-shot request is started, and a missing trigger becomes Manual; nothing is reported yet. |
| LocationReport.HomeAssistantAPI.OneShotLocationReceived | HomeAssistant/HAAPI.swift:411-421 | The one-shot flag is cleared. A received location is submitted under the saved trigger and the request fulfils; without a location it rejects on error and otherwise stays pending. |
| LocationReport.OneShotSilencesUpdates | HomeAssistant/HAAPI.swift:402-421 | A significant update during a pending one-shot request leaves the log as it was. After the callback, the next update is submitted on top of that log, adding one history entry with the significant-update trigger. |
| WatchExtension.RenderTemplatesSound | WatchAppExtension/ExtensionDelegate.swift:292-330 | Every rendered template comes from an active complication with text areas, and every rendered key is one of its areas that needs rendering. |
| WatchExtension.RenderTemplates | WatchAppExtension/ExtensionDelegate.swift:292-330 | The render payload's templates; WatchExtension.RenderTemplatesSound, WatchExtension.LastComplicationRendered and WatchExtension.SkippedComplication state its contents. |
| WatchExtension.LastComplicationRendered | WatchAppExtension/ExtensionDelegate.swift:304-318 | The last active complication's text that needs rendering is in the payload under its template and key. |
| WatchExtension.SkippedComplication | WatchAppExtension/ExtensionDelegate.swift:304-306 | A complication of an inactive family or without text areas adds nothing to the payload. |
| WatchExtension.MergeAreasNothingVisited | WatchAppExtension/ExtensionDelegate.swift:308-316 | With no area left to render, a template's texts are unchanged. |
| WatchExtension.MergeAreasStep | WatchAppExtension/ExtensionDelegate.swift:308-316 | Rendering one more area sets its key to its text, or removes the key when the text is missing. |
| WatchExtension.ApplyAreasStep | WatchAppExtension/ExtensionDelegate.swift:308-316 | An area that needs no render leaves the payload as it was; one that does creates the template entry and sets its key. |
| WatchExtension.FirstWithTemplate | WatchAppExtension/ExtensionDelegate.swift:362-384 | The index of the first stored complication with that template, and none when there is no such complication. |
| WatchExtension.MergeTouchesOnlyRenderedText | WatchAppExtension/ExtensionDelegate.swift:362-384 | After the merge each complication keeps its template and family. Only the first complication with a rendered template gets that template's rendered texts. |
| WatchExtension.UnknownTemplateSkipped | WatchAppExtension/ExtensionDelegate.swift:362-384 | A rendered template that no stored complication has changes nothing. |
| WatchExtension.ModelName | WatchAppExtension/ExtensionDelegate.swift:332-341 | The model name is no longer than the machine field and contains no NUL. |
| WatchExtension.ModelNameIsNonZeroBytes | WatchAppExtension/ExtensionDelegate.swift:332-341 | The model name is exactly the machine field's non-zero bytes as characters, in order. |
| WatchExtension.ExtensionDelegate.MakeHTTPPayload | WatchAppExtension/ExtensionDelegate.swift:292-330 | The payload has type "render_complications" and exactly the specified templates. |
| WatchExtension.ExtensionDelegate.CompletePendingURLSessionTask | WatchAppExtension/ExtensionDelegate.swift:413-423 | The session, task and start time are cleared. A running session is cancelled, and a pending background task is completed and cleared. |
| WatchExtension.ExtensionDelegate.ScheduleURLSessionIfNeeded | WatchAppExtension/ExtensionDelegate.swift:258-285 | A session younger than 10 minutes is left alone. An older one is completed first. A new session starts with the current time only when one can be scheduled. |
| WatchExtension.ExtensionDelegate.DidCompleteWithError | WatchAppExtension/ExtensionDelegate.swift:399-407 | The error is kept. On an error the pending task completes and the session is cancelled and cleared; otherwise nothing else changes. |
| WatchExtension.ExtensionDelegate.DidFinishDownloading | WatchAppExtension/ExtensionDelegate.swift:343-396 | An unreadable download keeps its error and leaves the session, download task, start time and pending task as they were. Any other reply clears the error, completes the pending task and cancels the session. A non-dictionary reply changes no complication; rendered templates are merged into the stored complications. |
| WatchExtension.MergeRenderedTexts | WatchAppExtension/ExtensionDelegate.swift:362-384 | The loop over rendered templates produces exactly the specified merge. |
| WatchExtension.MergeRendered | WatchAppExtension/ExtensionDelegate.swift:362-384 | The merge of rendered texts; WatchExtension.MergeTouchesOnlyRenderedText, WatchExtension.RenderedAreas, WatchExtension.TemplatesKept and WatchExtension.UnknownTemplateSkipped state its effect. |
| WatchExtension.RenderedAreas | WatchAppExtension/ExtensionDelegate.swift:368-380 | Each rendered key's stored area gets the rendered text under `renderedText`. |
| WatchExtension.TemplatesKept | WatchAppExtension/ExtensionDelegate.swift:362-384 | Merging keeps the number of complications, each template, and so the first index of every template. |
| WatchExtension.MergeLookup | WatchAppExtension/ExtensionDelegate.swift:362-384 | The first complication with a rendered template is found at the same place during the merge, and has the rendered keys. |
| Authentication.RedirectURI | HomeAssistant/Authentication/AuthenticationController.swift:43 | The redirect URI is the URL handler followed by "://auth-callback". |
| Authentication.RedirectURIInjective | HomeAssistant/Authentication/AuthenticationController.swift:43 | Different URL handlers give different redirect URIs. |
| Authentication.ClientID | HomeAssistant/Authentication/AuthenticationController.swift:45-51 | The dev and beta handlers get their own client IDs; every other handler gets the release client ID. |
| Authentication.AuthorizeComponents | HomeAssistant/Authentication/AuthenticationController.swift:53-58 | The authorize URL keeps scheme, host and port, with path "/auth/authorize" and the query response_type=code, client_id, redirect_uri, in that order. |
| Authentication.FirstNamed | HomeAssistant/Authentication/AuthenticationController.swift:100-106 | The index of the first query item with the name, and none when no item has it. |
| Authentication.CodeIsFirstCodeItem | HomeAssistant/Authentication/AuthenticationController.swift:100-106 | The callback's code is the value of the first query item named "code", when that item has a value. |
| Authentication.CodeFromQuery | HomeAssistant/Authentication/AuthenticationController.swift:100-106 | The callback's code; Authentication.CodeIsFirstCodeItem states which item it comes from. |
| Authentication.AuthorizeQueryHasNoCode | HomeAssistant/Authentication/AuthenticationController.swift:53-58 | The authorize request itself carries no code. |
| Authentication.AuthenticationController.constructor | HomeAssistant/Authentication/AuthenticationController.swift:22-29 | A new controller has no pending promise and no browser. |
| Authentication.AuthenticationController.AuthenticateWithBrowser | HomeAssistant/Authentication/AuthenticationController.swift:32-73 | The resolver is stored first. A missing URL handler rejects. A missing base URL or an unbuildable URL rejects. Otherwise the browser is presented on the authorize URL. |
| Authentication.AuthenticationController.SafariViewControllerDidFinish | HomeAssistant/Authentication/AuthenticationController.swift:77-84 | Closing the browser rejects a pending promise as cancelled and clears the state. |
| Authentication.AuthenticationController.AuthCallback | HomeAssistant/Authentication/AuthenticationController.swift:88-109 | An unparseable callback URL changes nothing. Otherwise a pending promise is fulfilled with the code when there is one (and left unresolved when there is none), and the state is cleared. |
| Authentication.AuthenticationController.CleanUp | HomeAssistant/Authentication/AuthenticationController.swift:112-115 | The browser and the pending promise are cleared. |
| Defaults.WithFlagsSeedsAbsent | HomeAssistant/Utilities/Utils.swift:144-174 | Seeding flags adds exactly the flags that were missing, set to true, and keeps every existing value. |
| Defaults.FlagsSeededIfAbsent | HomeAssistant/Utilities/Utils.swift:144-174 | After `setDefaults` each seeded flag is true if it was missing and keeps its value otherwise. |
| Defaults.MessagingEnabledRule | HomeAssistant/Utilities/Utils.swift:176-178 | `messagingEnabled` is true when it was missing or notifications are enabled, and keeps its value otherwise. |
| Defaults.OpenInChromeRule | HomeAssistant/Utilities/Utils.swift:140-142 | `openInChrome` is set to true only when missing with Chrome installed, and is otherwise untouched or absent. |
| Defaults.InstalledVersionRecorded | HomeAssistant/Utilities/Utils.swift:130-138 | With string versions, the bundle, short and combined "short (bundle)" versions are recorded. |
| Defaults.OtherKeysUntouched | HomeAssistant/Utilities/Utils.swift:129-181 | Keys that `setDefaults` never writes keep their values and their presence. |
| Defaults.SeedIdempotent | HomeAssistant/Utilities/Utils.swift:129-181 | Running `setDefaults` twice with the same inputs gives the same defaults as running it once. |
| Defaults.UserDefaults.SetDefaults | HomeAssistant/Utilities/Utils.swift:129-181 | The defaults become the specified seeding of the old defaults. |
| Defaults.SeedDefaults | HomeAssistant/Utilities/Utils.swift:129-181 | `setDefaults` as a whole; Defaults.FlagsSeededIfAbsent, Defaults.MessagingEnabledRule, Defaults.OpenInChromeRule, Defaults.InstalledVersionRecorded, Defaults.OtherKeysUntouched and Defaults.SeedIdempotent state its properties. |
| Defaults.UserDefaults.RecordInstalledVersion | HomeAssistant/Utilities/Utils.swift:130-138 | The versions are written exactly when both are strings. |
| Defaults.UserDefaults.SeedFlags | HomeAssistant/Utilities/Utils.swift:144-174 | The eight flags are seeded in source order. |
| Defaults.UserDefaults.SetFlagIfAbsent | HomeAssistant/Utilities/Utils.swift:144-146 | A missing flag is set to true; a present one is kept. |
| Defaults.UserDefaults.RemoveAllKeys | HomeAssistant/Utilities/Utils.swift:93-95 | Removing each key in turn leaves the defaults empty. |
| Defaults.ResetGroupDefaults | HomeAssistant/Utilities/Utils.swift:92-97 | The app-group defaults, if they exist, end up empty. |
| Permissions.KeyOf | HomeAssistant/Utilities/Permissions.swift:115-155 | Each permission is posted under its own userInfo key. |
| Permissions.Set | HomeAssistant/Utilities/Permissions.swift:115-155 | Writing one permission's flag leaves the other two unchanged. |
| Permissions.Ensured | HomeAssistant/Utilities/Permissions.swift:115-155 | The flag becomes "authorized", the other flags are unchanged, and a change is posted exactly when the flag changed, with its new value. |
| Permissions.EnsureRepeatPostsNothing | HomeAssistant/Utilities/Permissions.swift:115-155 | Ensuring a permission twice with the same status changes nothing and posts nothing the second time. |
| Permissions.SkippedEnsureIsNoOp | HomeAssistant/Utilities/Permissions.swift:87-113 | When the launch check skips a permission, ensuring it would change nothing. |
| Permissions.CheckPostsOnlyChanges | HomeAssistant/Utilities/Permissions.swift:87-113 | Each permission posts at most once during the launch check: exactly when it is checked and its flag changes, and with the new value. |
| Permissions.Ensure | HomeAssistant/Utilities/Permissions.swift:115-155 | The store and the posts follow `Ensured` for the permission. |
| Permissions.CheckPermission | HomeAssistant/Utilities/Permissions.swift:93-111 | A permission is ensured exactly when its status is undetermined or disagrees with its flag. |
| Permissions.NeedsEnsure | HomeAssistant/Utilities/Permissions.swift:93-111 | The launch check's test; Permissions.CheckPermission states when it ensures. |
| Permissions.CheckOne | HomeAssistant/Utilities/Permissions.swift:93-111 | One permission's part of the launch check; Permissions.SkippedEnsureIsNoOp and Permissions.CheckPostsOnlyChanges state its effect. |
| Permissions.CheckPermissionsStatus | HomeAssistant/Utilities/Permissions.swift:87-113 | Each flag becomes the managed "authorized" answer if it was checked, or keeps its value. The posts are the changes, in order: location, motion, notifications. |
| RootTabBar.UniqueDomainIsGroup | HomeAssistant/RootTabBarViewController.swift:53-60 | The distinct member domains are exactly {"group"} iff the list is non-empty and every domain is "group". |
| RootTabBar.ShouldShowGroup | HomeAssistant/RootTabBarViewController.swift:36-61 | The filter keeps a state exactly when it is a group, not hidden=false, not view=false, not auto=true, and not made only of groups. |
| RootTabBar.TabGroups | HomeAssistant/RootTabBarViewController.swift:36-61 | The filtered list holds exactly the states that pass the filter. |
| RootTabBar.TabIcon | HomeAssistant/RootTabBarViewController.swift:88-94 | `mobile_icon` wins over `icon`, and `icon` wins over the first member's domain icon. |
| RootTabBar.FirstMember | HomeAssistant/RootTabBarViewController.swift:88-94 | The member whose domain icon a group falls back to; RootTabBar.TabIcon states where it is used. |
| RootTabBar.MemberStates | HomeAssistant/RootTabBarViewController.swift:79-84 | A group tab receives exactly the states whose ID is one of its members. |
| RootTabBar.GroupTabFor | HomeAssistant/RootTabBarViewController.swift:73-96 | A group's tab has the capitalized name, the chosen icon, the index as tag and the member states. |
| RootTabBar.BuildTabs | HomeAssistant/RootTabBarViewController.swift:73-120 | There is one tab per group, in order, each built for its index, followed by the Settings tab. |
| RootTabBar.SettingsIsLast | HomeAssistant/RootTabBarViewController.swift:114-120 | The Settings tab is the last tab and no other tab is a Settings tab. |
| RootTabBar.Subtitle | HomeAssistant/RootTabBarViewController.swift:147-154 | With units on both states the subtitle is "new unit. It was old unit"; otherwise it is "name is now new. It was old". |
| RootTabBar.UnitSubtitleDropsName | HomeAssistant/RootTabBarViewController.swift:150-152 | With both units present the friendly name does not affect the subtitle. |
| RootTabBar.OneUnitIgnored | HomeAssistant/RootTabBarViewController.swift:150-152 | A unit on only one of the two states is ignored. |
| EntityMapping.DispatchMatchesDomain | HomeAssistant/Entity.swift:27-69 | A domain maps to a subclass exactly when it is that subclass's domain. |
| EntityMapping.KindForDomain | HomeAssistant/Entity.swift:27-69 | The domain dispatch; EntityMapping.DispatchMatchesDomain and EntityMapping.EveryKindReachable state it both ways. |
| EntityMapping.EveryKindReachable | HomeAssistant/Entity.swift:27-69 | Every subclass is chosen for its own domain. |
| EntityMapping.ObjectForMapping | HomeAssistant/Entity.swift:27-69 | Without a string `entity_id` there is no object. Otherwise there is one exactly when some subclass has the ID's domain, and it is that subclass. |
| EntityMapping.DomainFromJSON | HomeAssistant/Entity.swift:123-128 | A string ID always reads back as its domain, and nothing else does. |
| EntityMapping.DomainToJSON | HomeAssistant/Entity.swift:130-132 | The domain is never written back. |
| EntityMapping.DomainFollowsID | HomeAssistant/Entity.swift:75-87 | The mapped domain is the domain of the mapped ID, and both stay empty without an ID. |
| EntityMapping.MapFields | HomeAssistant/Entity.swift:75-87 | The fields `mapping(map:)` reads; EntityMapping.DomainFollowsID states how the domain follows the ID. |
| EntityMapping.Without | HomeAssistant/Entity.swift:89-91 | A property is kept exactly when it is not ignored. |
| EntityMapping.PrimaryKeyPersisted | HomeAssistant/Entity.swift:89-95 | The primary key "ID" is persisted and the attributes dictionary is not. |
| GroupComponent.IsAllGroupFromJSON | HomeAssistant/GroupComponent.swift:12-13 | The flag is true exactly when "group.all_" occurs somewhere in the ID. |
| GroupComponent.IsAllGroupToJSON | HomeAssistant/GroupComponent.swift:14-19 | A flag is written as "true" or "false", and no flag as nothing. |
| GroupComponent.IsAllGroupWriteReadsBack | HomeAssistant/GroupComponent.swift:12-19 | A written flag reads back as the same boolean. |
| GroupComponent.AllGroupAnywhere | HomeAssistant/GroupComponent.swift:13 | Any ID with "group.all_" inside it, not only as a prefix, is an "all" group. |
| CameraIntent.Confirm | Intents/GetCameraImage.swift:15-23 | "Ready" is always answered first; a connectivity failure follows exactly when no authenticated API is available. |
| CameraIntent.Handle | Intents/GetCameraImage.swift:25-63 | Without an API the answer is a connectivity failure. Without a "camera." clipboard string in place of a camera ID, it is clipboard-not-parseable. Otherwise that camera is fetched, and the answer is success-via-clipboard with the image pasted, or failure with the prefixed error text. |
| CameraIntent.GivenCameraRefused | Intents/GetCameraImage.swift:31-40 | A camera ID already on the intent is never fetched; the answer is clipboard-not-parseable. |
| CameraIntent.HandleCorrected | Intents/GetCameraImage.swift:24-62 | The corrected handler: a camera ID already on the intent is fetched and answered with `.success`; without one the clipboard is used or refused as before. |
| CameraIntent.GivenCameraFetched | Intents/GetCameraImage.swift:31-40 | With the corrected handler, a given camera is fetched and a frame answers `.success`. |
| CameraIntent.FetchErrorPrefixed | Intents/GetCameraImage.swift:51-56 | A failure's error text is the fixed prefix followed by the fetch's description. |
| Text.ParseBool | HomeAssistant/Utilities/Bonjour.swift:56-59 | Only "true" and "false" read as booleans, to true and false. |
| Text.BoolTextRoundTrip | HomeAssistant/GroupComponent.swift:15-17 | A boolean's text reads back as the boolean. |
| Text.Contains | HomeAssistant/GroupComponent.swift:13 | The search is true exactly when the substring occurs at some position. |

## Left out

- Networking, promises and their timing: HTTP requests, Alamofire, PromiseKit. Requests become values appended to an action list or a report log, and asynchronous callbacks are taken to run in the order they are registered.
- CheckPermissionsStatus: the three permission status callbacks are asynchronous in the app; the model runs them in order (location, motion, notifications).
- System frameworks are not modelled: UIKit views, Core Location and Core Motion managers, WatchKit, ClockKit rendering, the keychain, Realm transactions and NotificationCenter delivery. Their inputs become method parameters.
- Floating-point geometry: coordinates are opaque numbers, and `checkIfInsideAnyRegions` is a parameter.
- Localized strings (the L10n bodies of notifications) stand as fixed English texts or constructor fields; their exact wording is not modelled.
- The permission popup and library configuration texts (`LocationPermission`, `MotionPermission`, `NotificationPermission`) are UI set-up with no decisions to model.
- The sort of the root tab bar's group list is left out. Its comparator ignores "order" for "all" groups in one direction only, so it is not a strict weak order and has no well-defined result to state. `BuildTabs` takes the groups in whatever order the sort left them.
- The domain of an entity ID (`getEntityType`), `iconForDomain` and `capitalizedString` are not part of this model; they are function parameters.
- Right bar button items, icon images and colours of the tab bar are UI only.
- Entity dates (`LastChanged`, `LastUpdated`) and the attributes dictionary are not mapped; only the persistence of the property names is modelled.
- URL serialization: URLs are modelled as component records, and building an invalid URL is an oracle result.
- The group component's other mapped fields are not modelled, only the "all" flag transform.
- The "mute" and "volume" service calls of the media player are not modelled.
- `RLMZone`'s initializer body and `location()` are not part of this model. The zone's beacon configuration is a `StoredZone -> bool` function parameter, `isBeaconRegion`.
- The preference writes of `Connect` (config directory, units, time zone, version, theme colour) are not modelled; only its effect on the loaded components and the requests it makes is.
- The battery level, host name, device ID, SSID and pedometer fields of location payloads are not modelled.
- The shared API's `callService` client event (the `shouldLog` branch) is not modelled.
- `handle(backgroundTasks)` of the watch extension is not modelled; the URL session logic it drives is.
- JSON serialization of payloads is not modelled.
- The keychain removal in `resetStores` is not modelled, only the clearing of the app-group defaults.
- `authCallback`'s observer returns before `cleanUp()` when the callback URL is missing or cannot be parsed (HomeAssistant/Authentication/AuthenticationController.swift:95-98), and `authenticateWithBrowser` stores the resolver before it checks the URL handler (HomeAssistant/Authentication/AuthenticationController.swift:34-41); the model does the same.
- The duplicated Bonjour discovery code in the onboarding views is not part of this model.
- WatchExtension.ModelName: a negative byte in the machine field, where the source's `UInt8(Int8)` conversion traps, is excluded by its precondition (and by that of WatchExtension.ModelNameIsNonZeroBytes).
- Bonjour.DiscoveryInfoFromDict, Bonjour.BonjourDelegate.DidResolveAddress: the source turns the built dictionary into a `DiscoveredHomeAssistant` (HomeAssistant/Utilities/Bonjour.swift:68), force-unwrapping the result, and posts that object's `toJSON()` (:36). That mapping, the trap when it fails, and the re-serialisation (which keeps only the keys the type maps) are not modelled; the normalised dictionary stands for the posted info. The trimmed `base_url` is a `Substring` in the source (:65) and a plain string here.
- Text.HasPrefix, Text.HasSuffix, Text.Contains: these compare Unicode code points, where Swift's `hasPrefix`, `hasSuffix` and `contains` compare grapheme clusters. The patterns are ASCII, but the texts tested against them can be anything. The two agree unless a character that Swift joins into one grapheme cluster with the pattern's edge sits next to the match: a combining mark or zero-width joiner right after it, or a prepend character right before it. For example, a clipboard holding "camera." followed by U+0301 does not have the prefix "camera." in Swift but does here. Entity IDs, being ASCII, are unaffected.
- ApiRouting.HomeAssistantAPI.SubmitLocation: the app-group copy also writes a `LocationHistoryEntry` and, once the request succeeds, calls `sendLocalNotification` (Shared/API/HAAPI.swift:916-924 and :957-965). This model records only the requests; the history entry and the notification are modelled for the iOS copy, in LocationReport.HomeAssistantAPI.SubmitLocation.
- Authentication.AuthenticationController.AuthenticateWithBrowser: the browser is presented through the optional `Current.authenticationControllerPresenter` (HomeAssistant/Authentication/AuthenticationController.swift:68), which shows nothing when no presenter is set. The model always records the presentation.

## Findings

| source | as written | input that shows it | evidently intended | confidence | as-written member | corrected member |
|---|---|---|---|---|---|---|
| Shared/API/HAAPI.swift:993 | The one-shot callback sets `isPerformingSingleShotLocationQuery` to true again, so the flag is never cleared | any `getAndSendLocation` whose one-shot manager delivers a location | clear the flag to false on every callback, before the location check, as HomeAssistant/HAAPI.swift:411-412 does | low, not executed | ApiRouting.HomeAssistantAPI.OneShotLocationReceivedAsWritten | ApiRouting.HomeAssistantAPI.OneShotLocationReceived |
| Intents/GetCameraImage.swift:33-40 | the `else` branch of the clipboard test also catches an intent that already has a camera ID, so such an intent is answered `.failureClipboardNotParseable` and the `.success` code set at :31 is never used | an intent whose camera ID is set, with any clipboard | fetch a camera ID already on the intent and answer `.success`; fall back to the clipboard only when there is none | medium, not executed | CameraIntent.GivenCameraRefused | CameraIntent.HandleCorrected |
