/**
 * The entity object mapping: which entity class a state maps to by its
 * domain, how the base entity fields are read, the domain transform, and
 * what the store persists.
 */
module EntityMapping {
  import opened Wrappers

  /** The entity subclasses a state can map to. */
  datatype EntityKind =
    | BinarySensor | DeviceTracker | Group | GarageDoor | InputBoolean | InputSelect
    | Light | Lock | MediaPlayer | Scene | Script | Sensor | Sun | Switch | Thermostat | Weblink

  /** The domain each subclass is chosen for. */
  function DomainOf(kind: EntityKind): string {
    match kind
    case BinarySensor => "binary_sensor"
    case DeviceTracker => "device_tracker"
    case Group => "group"
    case GarageDoor => "garage_door"
    case InputBoolean => "input_boolean"
    case InputSelect => "input_select"
    case Light => "light"
    case Lock => "lock"
    case MediaPlayer => "media_player"
    case Scene => "scene"
    case Script => "script"
    case Sensor => "sensor"
    case Sun => "sun"
    case Switch => "switch"
    case Thermostat => "thermostat"
    case Weblink => "weblink"
  }

  /** The subclass for a domain; `None` for a domain with no mapper. */
  function KindForDomain(domain: string): Option<EntityKind> {
    if domain == "binary_sensor" then Some(BinarySensor)
    else if domain == "device_tracker" then Some(DeviceTracker)
    else if domain == "group" then Some(Group)
    else if domain == "garage_door" then Some(GarageDoor)
    else if domain == "input_boolean" then Some(InputBoolean)
    else if domain == "input_select" then Some(InputSelect)
    else if domain == "light" then Some(Light)
    else if domain == "lock" then Some(Lock)
    else if domain == "media_player" then Some(MediaPlayer)
    else if domain == "scene" then Some(Scene)
    else if domain == "script" then Some(Script)
    else if domain == "sensor" then Some(Sensor)
    else if domain == "sun" then Some(Sun)
    else if domain == "switch" then Some(Switch)
    else if domain == "thermostat" then Some(Thermostat)
    else if domain == "weblink" then Some(Weblink)
    else None
  }

  /** The dispatch is exactly the inverse of `DomainOf`: a domain maps to a kind iff it is that kind's domain. */
  lemma DispatchMatchesDomain(domain: string, kind: EntityKind)
    ensures KindForDomain(domain) == Some(kind) <==> DomainOf(kind) == domain
  {
  }

  /** Every kind is reached from its own domain. */
  lemma EveryKindReachable(kind: EntityKind)
    ensures KindForDomain(DomainOf(kind)) == Some(kind)
  {
    DispatchMatchesDomain(DomainOf(kind), kind);
  }

  /** A JSON value as the mapper reads it. */
  datatype JsonValue = JString(s: string) | JBool(b: bool) | JOther

  /** The string at a key, when there is a string there. */
  function StringAt(json: map<string, JsonValue>, key: string): Option<string> {
    if key in json && json[key].JString? then Some(json[key].s) else None
  }

  /**
   * `objectForMapping`: the subclass for the domain of `entity_id`;
   * `entityType` is the domain reading of an ID, which is not part of this model.
   */
  function ObjectForMapping(json: map<string, JsonValue>, entityType: string -> string): (r: Option<EntityKind>)
    ensures StringAt(json, "entity_id").None? ==> r.None?
    ensures StringAt(json, "entity_id").Some? ==>
      (r.Some? <==> exists kind :: DomainOf(kind) == entityType(StringAt(json, "entity_id").value))
    ensures r.Some? ==> DomainOf(r.value) == entityType(StringAt(json, "entity_id").value)
  {
    var entityId := StringAt(json, "entity_id");
    if entityId.Some? then
      var kind := KindForDomain(entityType(entityId.value));
      if kind.Some? then
        DispatchMatchesDomain(entityType(entityId.value), kind.value);
        kind
      else
        assert forall k :: DomainOf(k) != entityType(entityId.value) by {
          forall k ensures DomainOf(k) != entityType(entityId.value) {
            DispatchMatchesDomain(entityType(entityId.value), k);
          }
        }
        None
    else None
  }

  /** `EntityIDToDomainTransform.transformFromJSON`: the domain of a string ID, nothing otherwise. */
  function DomainFromJSON(value: Option<JsonValue>, entityType: string -> string): (r: Option<string>)
    ensures r.Some? <==> value.Some? && value.value.JString?
    ensures r.Some? ==> r.value == entityType(value.value.s)
  {
    if value.Some? && value.value.JString? then Some(entityType(value.value.s)) else None
  }

  /** `EntityIDToDomainTransform.transformToJSON`: never writes anything back. */
  function DomainToJSON(value: Option<string>): (r: Option<string>)
    ensures r.None?
  {
    None
  }

  /** The base `Entity` fields read by `mapping`. */
  datatype EntityFields = EntityFields(
    id: string,
    domain: string,
    state: string,
    friendlyName: Option<string>,
    hidden: bool,
    icon: Option<string>,
    mobileIcon: Option<string>,
    picture: Option<string>)

  /** A fresh `Entity`'s field values. */
  const DefaultFields: EntityFields := EntityFields("", "", "", None, false, None, None, None)

  /**
   * `Entity.mapping` on a fresh entity: each non-optional field keeps its
   * default when its key holds no value of the field's type. Keys of
   * nested attributes are written with ObjectMapper's dotted paths.
   */
  function MapFields(json: map<string, JsonValue>, entityType: string -> string): EntityFields {
    var id := StringAt(json, "entity_id");
    var domain := DomainFromJSON(if "entity_id" in json then Some(json["entity_id"]) else None, entityType);
    var hidden := if "attributes.hidden" in json && json["attributes.hidden"].JBool? then json["attributes.hidden"].b else false;
    EntityFields(
      id.GetOr(""),
      domain.GetOr(""),
      StringAt(json, "state").GetOr(""),
      StringAt(json, "attributes.friendly_name"),
      hidden,
      StringAt(json, "attributes.icon"),
      StringAt(json, "attributes.mobile_icon"),
      StringAt(json, "attributes.entity_picture"))
  }

  /** The domain is always the domain of the ID when the ID is read, and both stay empty when it is not. */
  lemma DomainFollowsID(json: map<string, JsonValue>, entityType: string -> string)
    ensures var fields := MapFields(json, entityType);
      && (StringAt(json, "entity_id").Some? ==>
            fields.id == StringAt(json, "entity_id").value && fields.domain == entityType(fields.id))
      && (StringAt(json, "entity_id").None? ==> fields.id == "" && fields.domain == "")
  {
  }

  /** The properties of `Entity`. */
  const Properties: seq<string> := ["ID", "Domain", "State", "Attributes", "FriendlyName", "Hidden",
    "Icon", "MobileIcon", "Picture", "LastChanged", "LastUpdated"]

  /** `ignoredProperties`. */
  const IgnoredProperties: seq<string> := ["Attributes"]

  /** `primaryKey`. */
  const PrimaryKey: string := "ID"

  /** The properties of `props` that are not in `ignored`, in order. */
  function Without(props: seq<string>, ignored: seq<string>): (r: seq<string>)
    ensures |r| <= |props|
    ensures forall p :: p in r <==> p in props && p !in ignored
  {
    if props == [] then []
    else (if props[0] in ignored then [] else [props[0]]) + Without(props[1..], ignored)
  }

  /** The properties the store keeps: every property that is not ignored. */
  function PersistedProperties(): seq<string> {
    Without(Properties, IgnoredProperties)
  }

  /** The primary key is persisted and the attributes dictionary is not. */
  lemma PrimaryKeyPersisted()
    ensures PrimaryKey in PersistedProperties()
    ensures "Attributes" !in PersistedProperties()
  {
    assert Properties[0] == PrimaryKey;
  }
}
