/**
 * The app's stored defaults: the values `setDefaults` seeds when a key is
 * absent, the installed-version record, and the removal of every key of the
 * app-group defaults on reset.
 */
module Defaults {
  import opened Wrappers

  /** A stored defaults value. */
  datatype PrefValue = PString(s: string) | PBool(b: bool) | POther

  /**
   * A defaults key: the keys `setDefaults` writes, and any other key by its
   * name (a name none of the named keys has).
   */
  datatype Key =
    | LastInstalledBundleVersion | LastInstalledShortVersion | LastInstalledVersion
    | OpenInChrome | MessagingEnabled | ConfirmBeforeOpeningUrl
    | LocationUpdateOnZone | LocationUpdateOnBackgroundFetch | LocationUpdateOnSignificant
    | LocationUpdateOnNotification | AutohideToolbar | AnalyticsEnabled | CrashlyticsEnabled
    // An `OtherKey` name is taken to be none of the named keys' strings.
    | OtherKey(name: string)

  /** An Info.plist value: a string, or an object of another type. */
  datatype InfoValue = InfoString(s: string) | InfoOther

  /** The flags that are seeded with `true` when absent, in the order they are checked. */
  const SeededFlags: seq<Key> := [ConfirmBeforeOpeningUrl, LocationUpdateOnZone,
    LocationUpdateOnBackgroundFetch, LocationUpdateOnSignificant, LocationUpdateOnNotification,
    AutohideToolbar, AnalyticsEnabled, CrashlyticsEnabled]

  /** The keys `setDefaults` may write. */
  const WrittenKeys: set<Key> := {LastInstalledBundleVersion, LastInstalledShortVersion,
    LastInstalledVersion, OpenInChrome, MessagingEnabled, ConfirmBeforeOpeningUrl,
    LocationUpdateOnZone, LocationUpdateOnBackgroundFetch, LocationUpdateOnSignificant,
    LocationUpdateOnNotification, AutohideToolbar, AnalyticsEnabled, CrashlyticsEnabled}

  /** The short and bundle versions, when both are present and strings. */
  function Versions(bundleVersion: Option<InfoValue>, shortVersion: Option<InfoValue>): Option<(string, string)> {
    if bundleVersion.Some? && shortVersion.Some? && shortVersion.value.InfoString? && bundleVersion.value.InfoString?
    then Some((shortVersion.value.s, bundleVersion.value.s))
    else None
  }

  /** "short (bundle)". */
  function CombinedVersion(short: string, bundle: string): string {
    short + " (" + bundle + ")"
  }

  /** The version record: written when both versions are strings. */
  function WithVersions(prefs: map<Key, PrefValue>, bundleVersion: Option<InfoValue>, shortVersion: Option<InfoValue>): map<Key, PrefValue> {
    var versions := Versions(bundleVersion, shortVersion);
    if versions.Some? then
      prefs[LastInstalledBundleVersion := PString(versions.value.1)]
           [LastInstalledShortVersion := PString(versions.value.0)]
           [LastInstalledVersion := PString(CombinedVersion(versions.value.0, versions.value.1))]
    else prefs
  }

  /** `openInChrome` seeded when absent and Chrome is installed. */
  function WithChrome(prefs: map<Key, PrefValue>, chromeInstalled: bool): map<Key, PrefValue> {
    if OpenInChrome !in prefs && chromeInstalled then prefs[OpenInChrome := PBool(true)] else prefs
  }

  /** A flag set to `true` when it has no value. */
  function SeedFlag(prefs: map<Key, PrefValue>, k: Key): map<Key, PrefValue> {
    if k in prefs then prefs else prefs[k := PBool(true)]
  }

  /** Every flag of `flags`, seeded in order. */
  function WithFlags(prefs: map<Key, PrefValue>, flags: seq<Key>): map<Key, PrefValue>
    decreases |flags|
  {
    if flags == [] then prefs else SeedFlag(WithFlags(prefs, flags[..|flags| - 1]), flags[|flags| - 1])
  }

  /** Seeding the flags adds exactly the absent ones, each as `true`, and keeps every present value. */
  lemma {:induction false} WithFlagsSeedsAbsent(prefs: map<Key, PrefValue>, flags: seq<Key>)
    ensures WithFlags(prefs, flags).Keys == prefs.Keys + set f | f in flags
    ensures forall k | k in WithFlags(prefs, flags) ::
      WithFlags(prefs, flags)[k] == if k in prefs then prefs[k] else PBool(true)
    decreases |flags|
  {
    if flags != [] {
      var init := flags[..|flags| - 1];
      WithFlagsSeedsAbsent(prefs, init);
      assert flags == init + [flags[|flags| - 1]];
      assert (set f | f in flags) == (set f | f in init) + {flags[|flags| - 1]};
    }
  }

  /** `messagingEnabled` set when absent or when notifications are enabled. */
  function WithMessaging(prefs: map<Key, PrefValue>, notificationsEnabled: bool): map<Key, PrefValue> {
    if MessagingEnabled !in prefs || notificationsEnabled then prefs[MessagingEnabled := PBool(true)] else prefs
  }

  /** `setDefaults` as a whole: the store it leaves behind. */
  function SeedDefaults(prefs: map<Key, PrefValue>, bundleVersion: Option<InfoValue>, shortVersion: Option<InfoValue>,
    chromeInstalled: bool, notificationsEnabled: bool): map<Key, PrefValue>
  {
    WithMessaging(WithFlags(WithChrome(WithVersions(prefs, bundleVersion, shortVersion), chromeInstalled), SeededFlags), notificationsEnabled)
  }

  /** Each seeded flag is `true` when it was absent and untouched when present. */
  lemma FlagsSeededIfAbsent(prefs: map<Key, PrefValue>, bundleVersion: Option<InfoValue>,
    shortVersion: Option<InfoValue>, chromeInstalled: bool, notificationsEnabled: bool, k: Key)
    requires k in SeededFlags
    ensures var after := SeedDefaults(prefs, bundleVersion, shortVersion, chromeInstalled, notificationsEnabled);
      k in after && after[k] == (if k in prefs then prefs[k] else PBool(true))
  {
    var withVersions := WithVersions(prefs, bundleVersion, shortVersion);
    var withChrome := WithChrome(withVersions, chromeInstalled);
    assert k !in WrittenKeys - set f | f in SeededFlags;
    assert (k in withChrome <==> k in prefs) && (k in prefs ==> withChrome[k] == prefs[k]);
    WithFlagsSeedsAbsent(withChrome, SeededFlags);
  }

  /** `messagingEnabled` becomes true when absent or when notifications are enabled, and is otherwise kept. */
  lemma MessagingEnabledRule(prefs: map<Key, PrefValue>, bundleVersion: Option<InfoValue>,
    shortVersion: Option<InfoValue>, chromeInstalled: bool, notificationsEnabled: bool)
    ensures var after := SeedDefaults(prefs, bundleVersion, shortVersion, chromeInstalled, notificationsEnabled);
      && MessagingEnabled in after
      && (MessagingEnabled !in prefs || notificationsEnabled ==> after[MessagingEnabled] == PBool(true))
      && (MessagingEnabled in prefs && !notificationsEnabled ==> after[MessagingEnabled] == prefs[MessagingEnabled])
  {
    WithFlagsSeedsAbsent(WithChrome(WithVersions(prefs, bundleVersion, shortVersion), chromeInstalled), SeededFlags);
  }

  /** `openInChrome` is written only when absent, and then only when Chrome is installed. */
  lemma OpenInChromeRule(prefs: map<Key, PrefValue>, bundleVersion: Option<InfoValue>,
    shortVersion: Option<InfoValue>, chromeInstalled: bool, notificationsEnabled: bool)
    ensures var after := SeedDefaults(prefs, bundleVersion, shortVersion, chromeInstalled, notificationsEnabled);
      && (OpenInChrome in prefs ==> OpenInChrome in after && after[OpenInChrome] == prefs[OpenInChrome])
      && (OpenInChrome !in prefs && chromeInstalled ==> OpenInChrome in after && after[OpenInChrome] == PBool(true))
      && (OpenInChrome !in prefs && !chromeInstalled ==> OpenInChrome !in after)
  {
    WithFlagsSeedsAbsent(WithChrome(WithVersions(prefs, bundleVersion, shortVersion), chromeInstalled), SeededFlags);
  }

  /** With both versions as strings, the three version keys record them. */
  lemma InstalledVersionRecorded(prefs: map<Key, PrefValue>, short: string, bundle: string,
    chromeInstalled: bool, notificationsEnabled: bool)
    ensures var after := SeedDefaults(prefs, Some(InfoString(bundle)), Some(InfoString(short)), chromeInstalled, notificationsEnabled);
      && LastInstalledVersion in after && LastInstalledShortVersion in after && LastInstalledBundleVersion in after
      && after[LastInstalledVersion] == PString(short + " (" + bundle + ")")
      && after[LastInstalledShortVersion] == PString(short)
      && after[LastInstalledBundleVersion] == PString(bundle)
  {
    WithFlagsSeedsAbsent(WithChrome(WithVersions(prefs, Some(InfoString(bundle)), Some(InfoString(short))), chromeInstalled), SeededFlags);
  }

  /** Keys `setDefaults` does not know keep their value, and none is removed. */
  lemma OtherKeysUntouched(prefs: map<Key, PrefValue>, bundleVersion: Option<InfoValue>,
    shortVersion: Option<InfoValue>, chromeInstalled: bool, notificationsEnabled: bool)
    ensures var after := SeedDefaults(prefs, bundleVersion, shortVersion, chromeInstalled, notificationsEnabled);
      && prefs.Keys <= after.Keys
      && after.Keys <= prefs.Keys + WrittenKeys
      && forall k | k in prefs && k !in WrittenKeys :: after[k] == prefs[k]
  {
    WithFlagsSeedsAbsent(WithChrome(WithVersions(prefs, bundleVersion, shortVersion), chromeInstalled), SeededFlags);
  }

  /** Seeding flags that all have a value changes nothing. */
  lemma WithFlagsPresent(prefs: map<Key, PrefValue>, flags: seq<Key>)
    requires forall i | 0 <= i < |flags| :: flags[i] in prefs
    ensures WithFlags(prefs, flags) == prefs
  {
    WithFlagsSeedsAbsent(prefs, flags);
    assert WithFlags(prefs, flags).Keys == prefs.Keys;
  }

  /** Seeding twice leaves the store as seeding once. */
  lemma SeedIdempotent(prefs: map<Key, PrefValue>, bundleVersion: Option<InfoValue>,
    shortVersion: Option<InfoValue>, chromeInstalled: bool, notificationsEnabled: bool)
    ensures var once := SeedDefaults(prefs, bundleVersion, shortVersion, chromeInstalled, notificationsEnabled);
      SeedDefaults(once, bundleVersion, shortVersion, chromeInstalled, notificationsEnabled) == once
  {
    var withChrome := WithChrome(WithVersions(prefs, bundleVersion, shortVersion), chromeInstalled);
    var once := SeedDefaults(prefs, bundleVersion, shortVersion, chromeInstalled, notificationsEnabled);
    WithFlagsSeedsAbsent(withChrome, SeededFlags);
    assert WithVersions(once, bundleVersion, shortVersion) == once;
    assert WithChrome(once, chromeInstalled) == once;
    WithFlagsPresent(once, SeededFlags);
  }

  /** A defaults store: `UserDefaults.standard` or the app-group suite. */
  class UserDefaults {
    var values: map<Key, PrefValue>

    constructor (values: map<Key, PrefValue>)
      ensures this.values == values
    {
      this.values := values;
    }

    /** `setDefaults`, with the bundle's version entries, Chrome's presence and the notification setting as inputs. */
    method SetDefaults(bundleVersion: Option<InfoValue>, shortVersion: Option<InfoValue>,
      chromeInstalled: bool, notificationsEnabled: bool)
      modifies this
      ensures values == SeedDefaults(old(values), bundleVersion, shortVersion, chromeInstalled, notificationsEnabled)
    {
      RecordInstalledVersion(bundleVersion, shortVersion);
      if OpenInChrome !in values && chromeInstalled {
        values := values[OpenInChrome := PBool(true)];
      }
      ghost var withChrome := values;
      SeedFlags();
      assert values == WithFlags(withChrome, SeededFlags);
      ghost var withFlags := values;
      if MessagingEnabled !in values || notificationsEnabled {
        values := values[MessagingEnabled := PBool(true)];
      }
      assert values == WithMessaging(withFlags, notificationsEnabled);
    }

    /** The version record of `setDefaults`. */
    method RecordInstalledVersion(bundleVersion: Option<InfoValue>, shortVersion: Option<InfoValue>)
      modifies this
      ensures values == WithVersions(old(values), bundleVersion, shortVersion)
    {
      if bundleVersion.Some? && shortVersion.Some? && shortVersion.value.InfoString? && bundleVersion.value.InfoString? {
        var stringedShortVersion := shortVersion.value.s;
        var stringedBundleVersion := bundleVersion.value.s;
        var combined := stringedShortVersion + " (" + stringedBundleVersion + ")";
        values := values[LastInstalledBundleVersion := PString(stringedBundleVersion)];
        values := values[LastInstalledShortVersion := PString(stringedShortVersion)];
        values := values[LastInstalledVersion := PString(combined)];
      }
    }

    /** The eight flags of `setDefaults` seeded in turn. */
    method SeedFlags()
      modifies this
      ensures values == WithFlags(old(values), SeededFlags)
    {
      ghost var before := values;
      ghost var seeded: seq<Key> := [];
      SetFlagIfAbsent(ConfirmBeforeOpeningUrl);
      seeded := seeded + [ConfirmBeforeOpeningUrl];
      assert values == WithFlags(before, seeded);
      SetFlagIfAbsent(LocationUpdateOnZone);
      seeded := seeded + [LocationUpdateOnZone];
      assert values == WithFlags(before, seeded);
      SetFlagIfAbsent(LocationUpdateOnBackgroundFetch);
      seeded := seeded + [LocationUpdateOnBackgroundFetch];
      assert values == WithFlags(before, seeded);
      SetFlagIfAbsent(LocationUpdateOnSignificant);
      seeded := seeded + [LocationUpdateOnSignificant];
      assert values == WithFlags(before, seeded);
      SetFlagIfAbsent(LocationUpdateOnNotification);
      seeded := seeded + [LocationUpdateOnNotification];
      assert values == WithFlags(before, seeded);
      SetFlagIfAbsent(AutohideToolbar);
      seeded := seeded + [AutohideToolbar];
      assert values == WithFlags(before, seeded);
      SetFlagIfAbsent(AnalyticsEnabled);
      seeded := seeded + [AnalyticsEnabled];
      assert values == WithFlags(before, seeded);
      SetFlagIfAbsent(CrashlyticsEnabled);
      seeded := seeded + [CrashlyticsEnabled];
      assert values == WithFlags(before, seeded);
      assert seeded == SeededFlags;
    }

    /** Sets a flag to `true` when it has no value. */
    method SetFlagIfAbsent(k: Key)
      modifies this
      ensures values == SeedFlag(old(values), k)
    {
      if k !in values {
        values := values[k := PBool(true)];
      }
    }

    /** The group-defaults part of `resetStores`: every key is removed. */
    method RemoveAllKeys()
      modifies this
      ensures values == map[]
    {
      var keys := values.Keys;
      while keys != {}
        invariant values.Keys <= keys
        decreases keys
      {
        var key :| key in keys;
        values := values - {key};
        keys := keys - {key};
      }
    }
  }

  /** `resetStores`' handling of the group defaults, which may be unavailable. */
  method ResetGroupDefaults(groupDefaults: UserDefaults?)
    modifies groupDefaults
    ensures groupDefaults != null ==> groupDefaults.values == map[]
  {
    if groupDefaults != null {
      groupDefaults.RemoveAllKeys();
    }
  }
}
