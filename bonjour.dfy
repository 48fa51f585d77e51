/**
 * Bonjour discovery and publishing: how the TXT record of a discovered Home
 * Assistant instance becomes the discovery dictionary, the bookkeeping of
 * services being resolved, the TXT record the app publishes about itself,
 * and the browser/publisher running flags.
 */
module Bonjour {
  import opened Wrappers
  import opened Text

  /** A TXT record value: bytes that either decode as UTF-8 text or do not. */
  datatype TxtData = Utf8(text: string) | NotUtf8

  /** A value of the discovery dictionary. */
  datatype DiscoveryValue = StringValue(text: string) | BoolValue(flag: bool)

  /** `String(data:encoding: .utf8)`, then "true"/"false" turned into `Bool`. */
  function NormalizeTxtValue(v: TxtData): (r: Option<DiscoveryValue>)
    ensures v.NotUtf8? <==> r.None?
    ensures v.Utf8? && ParseBool(v.text).Some? ==> r == Some(BoolValue(ParseBool(v.text).value))
    ensures v.Utf8? && ParseBool(v.text).None? ==> r == Some(StringValue(v.text))
  {
    match v
    case NotUtf8 => None
    case Utf8(s) =>
      var b := ParseBool(s);
      if b.Some? then Some(BoolValue(b.value)) else Some(StringValue(s))
  }

  /** The TXT values that decode, each normalised. */
  function NormalizedTxt(txt: map<string, TxtData>): map<string, DiscoveryValue> {
    map k | k in txt && NormalizeTxtValue(txt[k]).Some? :: NormalizeTxtValue(txt[k]).value
  }

  /** `base_url` with one trailing "/" removed, when it is text ending in "/". */
  function TrimBaseURL(info: map<string, DiscoveryValue>): map<string, DiscoveryValue> {
    if "base_url" in info && info["base_url"].StringValue? && HasSuffix(info["base_url"].text, "/") then
      var url := info["base_url"].text;
      info["base_url" := StringValue(url[..|url| - 1])]
    else
      info
  }

  /** The dictionary `DiscoveryInfoFromDict` hands to `DiscoveredHomeAssistant`. */
  function DiscoveryInfo(locationName: string, txt: map<string, TxtData>): map<string, DiscoveryValue> {
    TrimBaseURL(NormalizedTxt(txt)["location_name" := StringValue(locationName)])
  }

  /** `location_name` is always the service name, whatever the TXT record holds under that key. */
  lemma LocationNameIsServiceName(locationName: string, txt: map<string, TxtData>)
    ensures "location_name" in DiscoveryInfo(locationName, txt)
    ensures DiscoveryInfo(locationName, txt)["location_name"] == StringValue(locationName)
  {
  }

  /**
   * Every other key except `base_url` is present exactly when its value
   * decodes, and holds a boolean exactly when the text is "true" or "false".
   */
  lemma OtherKeysNormalized(locationName: string, txt: map<string, TxtData>, k: string)
    requires k != "location_name" && k != "base_url"
    ensures k in DiscoveryInfo(locationName, txt) <==> k in txt && txt[k].Utf8?
    ensures k in txt && txt[k] == Utf8("true") ==> DiscoveryInfo(locationName, txt)[k] == BoolValue(true)
    ensures k in txt && txt[k] == Utf8("false") ==> DiscoveryInfo(locationName, txt)[k] == BoolValue(false)
    ensures k in txt && txt[k].Utf8? && txt[k].text != "true" && txt[k].text != "false" ==>
      DiscoveryInfo(locationName, txt)[k] == StringValue(txt[k].text)
  {
  }

  /** A textual `base_url` loses exactly one character, and only when that character is "/". */
  lemma BaseURLTrimmed(locationName: string, txt: map<string, TxtData>, url: string)
    requires "base_url" in txt && txt["base_url"] == Utf8(url)
    requires url != "true" && url != "false"
    ensures "base_url" in DiscoveryInfo(locationName, txt)
    ensures HasSuffix(url, "/") ==>
      exists trimmed :: DiscoveryInfo(locationName, txt)["base_url"] == StringValue(trimmed) && trimmed + "/" == url
    ensures !HasSuffix(url, "/") ==> DiscoveryInfo(locationName, txt)["base_url"] == StringValue(url)
  {
    if HasSuffix(url, "/") {
      var trimmed := url[..|url| - 1];
      assert trimmed + "/" == url;
    }
  }

  /** The only keys are those of the TXT record, plus `location_name`. */
  lemma DiscoveryKeys(locationName: string, txt: map<string, TxtData>)
    ensures DiscoveryInfo(locationName, txt).Keys <= txt.Keys + {"location_name"}
  {
  }

  /** A service the browser found; its identity beyond the name is opaque. */
  datatype NetService = NetService(name: string, handle: nat)

  /** What the delegate posts to the notification center. */
  datatype Posted =
    | Discovered(info: map<string, DiscoveryValue>)
    | Undiscovered(name: string)

  class BonjourDelegate {
    var resolvingDict: map<string, NetService>
    var posted: seq<Posted>

    constructor ()
      ensures resolvingDict == map[] && posted == []
    {
      resolvingDict := map[];
      posted := [];
    }

    /** `didFind`: the service is kept under its name while it resolves. */
    method DidFind(service: NetService)
      modifies this
      ensures resolvingDict == old(resolvingDict)[service.name := service]
      ensures posted == old(posted)
    {
      resolvingDict := resolvingDict[service.name := service];
    }

    /** `didRemove`: "homeassistant.undiscovered" is posted and the name is dropped. */
    method DidRemove(service: NetService)
      modifies this
      ensures resolvingDict == old(resolvingDict) - {service.name}
      ensures posted == old(posted) + [Undiscovered(service.name)]
    {
      posted := posted + [Undiscovered(service.name)];
      resolvingDict := resolvingDict - {service.name};
    }

    /** `netServiceDidResolveAddress`: with a TXT record, its discovery info is posted. */
    method DidResolveAddress(service: NetService, txtRecord: Option<map<string, TxtData>>)
      modifies this
      ensures txtRecord.None? ==> posted == old(posted)
      ensures txtRecord.Some? ==> posted == old(posted) + [Discovered(DiscoveryInfo(service.name, txtRecord.value))]
      ensures resolvingDict == old(resolvingDict)
    {
      if txtRecord.Some? {
        var info := DiscoveryInfoFromDict(service.name, txtRecord.value);
        posted := posted + [Discovered(info)];
      }
    }
  }

  /**
   * `DiscoveryInfoFromDict`: the loop over the TXT record's entries, in no
   * particular order, then `location_name` and the `base_url` trim.
   */
  method DiscoveryInfoFromDict(locationName: string, txt: map<string, TxtData>)
    returns (outputDict: map<string, DiscoveryValue>)
    ensures outputDict == DiscoveryInfo(locationName, txt)
  {
    outputDict := map[];
    var remaining := txt.Keys;
    while remaining != {}
      invariant remaining <= txt.Keys
      invariant outputDict == map k | k in txt.Keys - remaining && NormalizeTxtValue(txt[k]).Some? ::
        NormalizeTxtValue(txt[k]).value
      decreases remaining
    {
      var key :| key in remaining;
      var decoded: Option<DiscoveryValue> := if txt[key].Utf8? then Some(StringValue(txt[key].text)) else None;
      if decoded.Some? && (decoded.value == StringValue("true") || decoded.value == StringValue("false")) {
        decoded := Some(BoolValue(ParseBool(decoded.value.text).value));
      }
      // Assigning nil through the subscript removes the key.
      outputDict := if decoded.Some? then outputDict[key := decoded.value] else outputDict - {key};
      remaining := remaining - {key};
    }
    assert txt.Keys - remaining == txt.Keys;
    outputDict := outputDict["location_name" := StringValue(locationName)];
    if "base_url" in outputDict && outputDict["base_url"].StringValue? {
      var baseURL := outputDict["base_url"].text;
      if HasSuffix(baseURL, "/") {
        outputDict := outputDict["base_url" := StringValue(baseURL[..|baseURL| - 1])];
      }
    }
  }

  /** An Info.plist entry: a string or a value of another type. */
  datatype InfoValue = InfoString(s: string) | InfoOther

  /** The app's bundle facts `buildPublishDict` reads. */
  datatype BundleInfo = BundleInfo(
    bundleVersion: Option<InfoValue>,
    shortVersion: Option<InfoValue>,
    bundleIdentifier: Option<string>)

  /**
   * What `buildPublishDict` produces: `permanentID` always, and each bundle
   * entry exactly when the Info.plist holds a string for it, under its key
   * and with that text. Data values are the UTF-8 text itself; encoding a
   * Swift string as UTF-8 cannot fail.
   */
  predicate IsPublishDict(publishDict: map<string, string>, info: BundleInfo, permanentID: string) {
    && publishDict.Keys <= {"buildNumber", "versionNumber", "permanentID", "bundleIdentifier"}
    && "permanentID" in publishDict && publishDict["permanentID"] == permanentID
    && ("buildNumber" in publishDict <==> info.bundleVersion.Some? && info.bundleVersion.value.InfoString?)
    && ("buildNumber" in publishDict ==> publishDict["buildNumber"] == info.bundleVersion.value.s)
    && ("versionNumber" in publishDict <==> info.shortVersion.Some? && info.shortVersion.value.InfoString?)
    && ("versionNumber" in publishDict ==> publishDict["versionNumber"] == info.shortVersion.value.s)
    && ("bundleIdentifier" in publishDict <==> info.bundleIdentifier.Some?)
    && ("bundleIdentifier" in publishDict ==> publishDict["bundleIdentifier"] == info.bundleIdentifier.value)
  }

  /** The description leaves no freedom: one dictionary fits given bundle facts. */
  lemma PublishDictDetermined(d1: map<string, string>, d2: map<string, string>, info: BundleInfo, permanentID: string)
    requires IsPublishDict(d1, info, permanentID) && IsPublishDict(d2, info, permanentID)
    ensures d1 == d2
  {
  }

  /** `buildPublishDict`. */
  method BuildPublishDict(info: BundleInfo, permanentID: string) returns (publishDict: map<string, string>)
    ensures IsPublishDict(publishDict, info, permanentID)
  {
    publishDict := map[];
    if info.bundleVersion.Some? && info.bundleVersion.value.InfoString? {
      publishDict := publishDict["buildNumber" := info.bundleVersion.value.s];
    }
    if info.shortVersion.Some? && info.shortVersion.value.InfoString? {
      publishDict := publishDict["versionNumber" := info.shortVersion.value.s];
    }
    publishDict := publishDict["permanentID" := permanentID];
    if info.bundleIdentifier.Some? {
      publishDict := publishDict["bundleIdentifier" := info.bundleIdentifier.value];
    }
  }

  /** The browser and the publisher, each with its running flag. */
  class Browser {
    var browserIsRunning: bool
    var publishIsRunning: bool
    /** The TXT record last set on the published service. */
    var publishedTxt: Option<map<string, string>>
    /** The browser's delegate, installed afresh by each `startDiscovery`. */
    var delegate: BonjourDelegate?

    constructor ()
      ensures !browserIsRunning && !publishIsRunning && publishedTxt.None? && delegate == null
    {
      browserIsRunning := false;
      publishIsRunning := false;
      publishedTxt := None;
      delegate := null;
    }

    /** `startDiscovery`: running, with a new delegate that resolves nothing yet and has posted nothing. */
    method StartDiscovery()
      modifies this
      ensures browserIsRunning
      ensures delegate != null && fresh(delegate) && delegate.resolvingDict == map[] && delegate.posted == []
      ensures publishIsRunning == old(publishIsRunning) && publishedTxt == old(publishedTxt)
    {
      browserIsRunning := true;
      delegate := new BonjourDelegate();
    }

    method StopDiscovery()
      modifies this
      ensures !browserIsRunning
      ensures publishIsRunning == old(publishIsRunning) && publishedTxt == old(publishedTxt)
      ensures delegate == old(delegate)
    {
      browserIsRunning := false;
    }

    /** `startPublish`: the flag is set and the TXT record is the publish dictionary. */
    method StartPublish(info: BundleInfo, permanentID: string)
      modifies this
      ensures publishIsRunning
      ensures browserIsRunning == old(browserIsRunning)
      ensures publishedTxt.Some? && IsPublishDict(publishedTxt.value, info, permanentID)
      ensures delegate == old(delegate)
    {
      publishIsRunning := true;
      var txt := BuildPublishDict(info, permanentID);
      publishedTxt := Some(txt);
    }

    method StopPublish()
      modifies this
      ensures !publishIsRunning
      ensures browserIsRunning == old(browserIsRunning) && publishedTxt == old(publishedTxt)
      ensures delegate == old(delegate)
    {
      publishIsRunning := false;
    }
  }
}
