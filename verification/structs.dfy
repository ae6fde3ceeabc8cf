/**
 The wire records of src/structs.rs and the rules serde's derived code follows when it reads
 them from a response or writes them into a request.

 Reading a struct (serde's derived `Deserialize`, driven by serde_json):
 - an object binds each declared field to the one member whose key names it (the field name
   or one of its aliases); other keys are skipped, a field named twice is an error, a missing
   non-`Option` field is an error, and a missing or `null` `Option` field reads as `None`;
 - a struct without a `#[serde(flatten)]` field may also be written as an array holding exactly
   one element per field, in declaration order;
 - a struct with a `#[serde(flatten)]` catch-all (`Attributes`) reads only objects, and the
   catch-all receives every member no named field took.
 */
module Structs {
  import opened Wrappers
  import opened Json

  /** Rust's `u16`. */
  type U16 = n: int | 0 <= n < 0x1_0000

  datatype UnitSystem = UnitSystem(length: string, mass: string, temperature: string, volume: string)

  /** `ConfigResponse`; its three `f64` fields hold the JSON number, an integer in this model. */
  datatype ConfigResponse = ConfigResponse(
    components: seq<string>,
    configDir: string,
    elevation: int,
    latitude: int,
    locationName: string,
    longitude: int,
    timeZone: string,
    unitSystem: UnitSystem,
    version: string,
    whitelistExternalDirs: seq<string>)

  datatype EventResponse = EventResponse(event: string, listenerCount: U16)

  datatype HistoryResponse = HistoryResponse(
    entityId: Option<string>,
    state: string,
    attributes: Option<Attributes>,
    lastChanged: string,
    lastUpdated: Option<string>)

  /** An entity's attributes: six well-known ones, and every other key in `otherFields`. */
  datatype Attributes = Attributes(
    friendlyName: Option<string>,
    editable: Option<bool>,
    id: Option<string>,
    source: Option<string>,
    userId: Option<string>,
    icon: Option<string>,
    otherFields: map<string, Value>)

  datatype LogBook = LogBook(
    name: string,
    message: Option<string>,
    source: Option<string>,
    entityId: string,
    contextId: Option<string>,
    domain: Option<string>,
    when: string)

  datatype StatesResponse = StatesResponse(
    entityId: Option<string>,
    state: string,
    attributes: Option<Attributes>,
    lastChanged: Option<string>,
    lastReported: Option<string>,
    lastUpdated: Option<string>,
    context: Option<Context>)

  datatype Context = Context(id: string, parentId: Option<string>, userId: Option<string>)

  /** The body of a state update; `attributes` is flattened beside `state` when written. */
  datatype StatesRequest = StatesRequest(state: string, attributes: Option<Value>)

  /** Declared for the unimplemented calendars endpoint; never read. */
  datatype CalendarResponse = CalendarResponse(entityId: string, name: string)

  datatype SimpleResponse = SimpleResponse(message: string)

  datatype TemplateRequest = TemplateRequest(template: string)

  datatype ConfigCheckResponse = ConfigCheckResponse(
    errors: Option<string>,
    result: string,
    warnings: Option<string>)

  // ---------------------------------------------------------------------------------------
  // Scalar fields

  function AsString(v: Value): (r: Option<string>)
    ensures r.Some? <==> v.String?
    ensures r.Some? ==> v == String(r.value)
  {
    if v.String? then Some(v.s) else None
  }

  function AsBool(v: Value): (r: Option<bool>)
    ensures r.Some? <==> v.Bool?
    ensures r.Some? ==> v == Bool(r.value)
  {
    if v.Bool? then Some(v.b) else None
  }

  /** An `f64` field: any number (integers only in this model). */
  function AsNumber(v: Value): (r: Option<int>)
    ensures r.Some? <==> v.Number?
    ensures r.Some? ==> v == Number(r.value)
  {
    if v.Number? then Some(v.n) else None
  }

  /** A `u16` field: an integer in 0..65535; anything else is refused. */
  function AsU16(v: Value): (r: Option<U16>)
    ensures r.Some? <==> v.Number? && 0 <= v.n <= 65535
    ensures r.Some? ==> v == Number(r.value)
  {
    if v.Number? && 0 <= v.n < 0x1_0000 then Some(v.n as U16) else None
  }

  /** A `Vec<T>` field or body: an array whose every element reads as a `T`. */
  function ListOf<T>(v: Value, decode: Value -> Option<T>): (r: Option<seq<T>>)
    ensures r.Some? <==> v.Array? && forall i :: 0 <= i < |v.items| ==> decode(v.items[i]).Some?
    ensures r.Some? ==> |r.value| == |v.items|
    ensures r.Some? ==> forall i :: 0 <= i < |v.items| ==> decode(v.items[i]) == Some(r.value[i])
  {
    match v
    case Array(items) => DecodeAll(items, decode)
    case _ => None
  }

  function DecodeAll<T>(items: seq<Value>, decode: Value -> Option<T>): (r: Option<seq<T>>)
    ensures r.Some? <==> forall i :: 0 <= i < |items| ==> decode(items[i]).Some?
    ensures r.Some? ==> |r.value| == |items|
    ensures r.Some? ==> forall i :: 0 <= i < |items| ==> decode(items[i]) == Some(r.value[i])
  {
    if |items| == 0 then Some([])
    else
      match decode(items[0])
      case None => None
      case Some(x) =>
        match DecodeAll(items[1..], decode)
        case None =>
          assert exists i :: 1 <= i < |items| && decode(items[i]).None? by {
            var j :| 0 <= j < |items[1..]| && decode(items[1..][j]).None?;
            assert decode(items[j + 1]).None?;
          }
          None
        case Some(xs) =>
          assert forall i :: 1 <= i < |items| ==> items[i] == items[1..][i - 1];
          Some([x] + xs)
  }

  function AsStringList(v: Value): Option<seq<string>> {
    ListOf(v, AsString)
  }

  // ---------------------------------------------------------------------------------------
  // Struct fields

  /**
   The value the derived deserializer binds to one field of a struct read from `v`: from an
   object, the one value given under the keys naming the field (`Some(None)` when absent,
   `None` when named more than once); from an array, the element at the field's position.
   */
  function Field(v: Value, position: nat, names: set<string>): Option<Option<Value>> {
    match v
    case Object(members) =>
      var vs := ValuesAt(members, names);
      if |vs| > 1 then None else if |vs| == 0 then Some(None) else Some(Some(vs[0]))
    case Array(items) => if position < |items| then Some(Some(items[position])) else Some(None)
    case _ => None
  }

  /** A non-`Option` field: it must be present and read as a `T`. */
  function RequiredField<T(==)>(v: Value, position: nat, names: set<string>, decode: Value -> Option<T>): (r: Option<T>)
    ensures v.Object? ==> (r.Some? <==> RequiredOk(v.members, names, decode))
    ensures v.Object? && r.Some? ==> RequiredIs(v.members, names, decode, r.value)
    ensures v.Array? && r.Some? ==> position < |v.items| && decode(v.items[position]) == Some(r.value)
  {
    var slot :- Field(v, position, names);
    match slot
    case None => None
    case Some(x) => decode(x)
  }

  /** An `Option` field: absent or `null` reads as `None`, anything else must read as a `T`. */
  function OptionalField<T(==)>(v: Value, position: nat, names: set<string>, decode: Value -> Option<T>): (r: Option<Option<T>>)
    ensures v.Object? ==> (r.Some? <==> OptionalOk(v.members, names, decode))
    ensures v.Object? && r.Some? ==> OptionalIs(v.members, names, decode, r.value)
    ensures v.Array? && r.Some? && position < |v.items| && v.items[position].Null? ==> r.value.None?
    ensures v.Array? && r.Some? && r.value.Some? ==> position < |v.items| && decode(v.items[position]) == r.value
  {
    var slot :- Field(v, position, names);
    match slot
    case None => Some(None)
    case Some(Null) => Some(None)
    case Some(x) =>
      match decode(x)
      case None => None
      case Some(y) => Some(Some(y))
  }

  /**
   A struct without a flattened field reads from an object, or from an array holding exactly
   one element per field.
   */
  predicate StructShape(v: Value, fieldCount: nat) {
    v.Object? || (v.Array? && |v.items| == fieldCount)
  }

  // Independent statements of the field rules above, in terms of what an object holds.

  /** A non-`Option` field is given exactly once, with a value that reads as a `T`. */
  predicate RequiredOk<T>(members: seq<Member>, names: set<string>, decode: Value -> Option<T>) {
    var vs := ValuesAt(members, names);
    |vs| == 1 && decode(vs[0]).Some?
  }

  /** An `Option` field is absent, or given once as `null` or as a value that reads as a `T`. */
  predicate OptionalOk<T>(members: seq<Member>, names: set<string>, decode: Value -> Option<T>) {
    var vs := ValuesAt(members, names);
    |vs| == 0 || (|vs| == 1 && (vs[0].Null? || decode(vs[0]).Some?))
  }

  /** A non-`Option` field holds `x`: the one value given for it reads as `x`. */
  predicate RequiredIs<T(==)>(members: seq<Member>, names: set<string>, decode: Value -> Option<T>, x: T) {
    var vs := ValuesAt(members, names);
    |vs| == 1 && decode(vs[0]) == Some(x)
  }

  /** An `Option` field holds `o`: `None` when absent or `null`, else the value read. */
  predicate OptionalIs<T(==)>(members: seq<Member>, names: set<string>, decode: Value -> Option<T>, o: Option<T>) {
    var vs := ValuesAt(members, names);
    match o
    case None => |vs| == 0 || (|vs| == 1 && vs[0].Null?)
    case Some(x) => |vs| == 1 && !vs[0].Null? && decode(vs[0]) == Some(x)
  }

  // ---------------------------------------------------------------------------------------
  // Records read from responses

  predicate ContextOk(members: seq<Member>) {
    && RequiredOk(members, {"id"}, AsString)
    && OptionalOk(members, {"parent_id"}, AsString)
    && OptionalOk(members, {"user_id"}, AsString)
  }

  /** `Context`: `id` is required, the two parent/user ids are optional. */
  function DecodeContext(v: Value): (r: Option<Context>)
    ensures v.Object? ==> (r.Some? <==> ContextOk(v.members))
    ensures r.Some? && v.Object? ==>
      && RequiredIs(v.members, {"id"}, AsString, r.value.id)
      && OptionalIs(v.members, {"parent_id"}, AsString, r.value.parentId)
      && OptionalIs(v.members, {"user_id"}, AsString, r.value.userId)
    ensures r.Some? && v.Array? ==> |v.items| == 3 && v.items[0] == String(r.value.id)
    ensures !v.Object? && !v.Array? ==> r.None?
  {
    if !StructShape(v, 3) then None else
    var id :- RequiredField(v, 0, {"id"}, AsString);
    var parentId :- OptionalField(v, 1, {"parent_id"}, AsString);
    var userId :- OptionalField(v, 2, {"user_id"}, AsString);
    Some(Context(id, parentId, userId))
  }

  /** The keys `Attributes` names; every other key lands in `otherFields`. */
  const AttributeNames: set<string> := {"friendly_name", "editable", "id", "source", "user_id", "icon"}

  predicate AttributesOk(members: seq<Member>) {
    && OptionalOk(members, {"friendly_name"}, AsString)
    && OptionalOk(members, {"editable"}, AsBool)
    && OptionalOk(members, {"id"}, AsString)
    && OptionalOk(members, {"source"}, AsString)
    && OptionalOk(members, {"user_id"}, AsString)
    && OptionalOk(members, {"icon"}, AsString)
  }

  /**
   `Attributes`: six optional named keys, and a flattened catch-all that keeps every other
   member of the object (last occurrence wins, as in a serde_json map). Objects only.
   */
  function DecodeAttributes(v: Value): (r: Option<Attributes>)
    ensures r.Some? ==> v.Object?
    ensures v.Object? ==> (r.Some? <==> AttributesOk(v.members))
    ensures r.Some? ==>
      && OptionalIs(v.members, {"friendly_name"}, AsString, r.value.friendlyName)
      && OptionalIs(v.members, {"editable"}, AsBool, r.value.editable)
      && OptionalIs(v.members, {"id"}, AsString, r.value.id)
      && OptionalIs(v.members, {"source"}, AsString, r.value.source)
      && OptionalIs(v.members, {"user_id"}, AsString, r.value.userId)
      && OptionalIs(v.members, {"icon"}, AsString, r.value.icon)
    ensures r.Some? ==> r.value.otherFields.Keys == Keys(v.members) - AttributeNames
  {
    match v
    case Object(members) =>
      var friendlyName :- OptionalField(v, 0, {"friendly_name"}, AsString);
      var editable :- OptionalField(v, 1, {"editable"}, AsBool);
      var id :- OptionalField(v, 2, {"id"}, AsString);
      var source :- OptionalField(v, 3, {"source"}, AsString);
      var userId :- OptionalField(v, 4, {"user_id"}, AsString);
      var icon :- OptionalField(v, 5, {"icon"}, AsString);
      Some(Attributes(friendlyName, editable, id, source, userId, icon,
                      LastWins(Without(members, AttributeNames))))
    case _ => None
  }

  /**
   Every key `Attributes` does not name is kept in `otherFields`, bound to the value of its
   last occurrence in the object.
   */
  lemma AttributesKeepOthers(members: seq<Member>, i: nat)
    requires DecodeAttributes(Object(members)).Some?
    requires i < |members| && members[i].key !in AttributeNames
    requires forall j :: i < j < |members| ==> members[j].key != members[i].key
    ensures var others := DecodeAttributes(Object(members)).value.otherFields;
      members[i].key in others && others[members[i].key] == members[i].value
  {
    var k := members[i].key;
    assert k in Keys(members);
    LastWinsWithout(members, AttributeNames, k);
    LastWinsValue(members, i);
  }

  predicate LogBookOk(members: seq<Member>) {
    && RequiredOk(members, {"name"}, AsString)
    && OptionalOk(members, {"message"}, AsString)
    && OptionalOk(members, {"source"}, AsString)
    && RequiredOk(members, {"entity_id"}, AsString)
    && OptionalOk(members, {"context_id", "context_user_id"}, AsString)
    && OptionalOk(members, {"domain"}, AsString)
    && RequiredOk(members, {"when"}, AsString)
  }

  /** `LogBook`; `context_id` is read from the key `context_id` or its alias `context_user_id`. */
  function DecodeLogBook(v: Value): (r: Option<LogBook>)
    ensures v.Object? ==> (r.Some? <==> LogBookOk(v.members))
    ensures r.Some? && v.Object? ==>
      && RequiredIs(v.members, {"name"}, AsString, r.value.name)
      && OptionalIs(v.members, {"message"}, AsString, r.value.message)
      && OptionalIs(v.members, {"source"}, AsString, r.value.source)
      && RequiredIs(v.members, {"entity_id"}, AsString, r.value.entityId)
      && OptionalIs(v.members, {"context_id", "context_user_id"}, AsString, r.value.contextId)
      && OptionalIs(v.members, {"domain"}, AsString, r.value.domain)
      && RequiredIs(v.members, {"when"}, AsString, r.value.when)
    ensures r.Some? && v.Array? ==> |v.items| == 7
    ensures !v.Object? && !v.Array? ==> r.None?
  {
    if !StructShape(v, 7) then None else
    var name :- RequiredField(v, 0, {"name"}, AsString);
    var message :- OptionalField(v, 1, {"message"}, AsString);
    var source :- OptionalField(v, 2, {"source"}, AsString);
    var entityId :- RequiredField(v, 3, {"entity_id"}, AsString);
    var contextId :- OptionalField(v, 4, {"context_id", "context_user_id"}, AsString);
    var domain :- OptionalField(v, 5, {"domain"}, AsString);
    var when :- RequiredField(v, 6, {"when"}, AsString);
    Some(LogBook(name, message, source, entityId, contextId, domain, when))
  }

  predicate StatesResponseOk(members: seq<Member>) {
    && OptionalOk(members, {"entity_id"}, AsString)
    && RequiredOk(members, {"state"}, AsString)
    && OptionalOk(members, {"attributes"}, DecodeAttributes)
    && OptionalOk(members, {"last_changed"}, AsString)
    && OptionalOk(members, {"last_reported"}, AsString)
    && OptionalOk(members, {"last_updated"}, AsString)
    && OptionalOk(members, {"context"}, DecodeContext)
  }

  /**
   The alias on `LogBook.context_id`: whichever of `context_id` and `context_user_id` the
   object uses fills the field; using both is a duplicate field and the entry is refused.
   */
  lemma LogBookContextAlias(members: seq<Member>, key: string, id: string)
    requires key in {"context_id", "context_user_id"}
    requires LogBookOk(members)
    requires ValuesAt(members, {key}) == [String(id)]
    ensures DecodeLogBook(Object(members)).Some?
    ensures DecodeLogBook(Object(members)).value.contextId == Some(id)
  {
    var other := if key == "context_id" then "context_user_id" else "context_id";
    assert {"context_id", "context_user_id"} == {key} + {other};
    ValuesAtDisjoint(members, {key}, {other});
  }

  lemma LogBookBothContextKeys(members: seq<Member>)
    requires ValuesAt(members, {"context_id"}) != [] && ValuesAt(members, {"context_user_id"}) != []
    ensures DecodeLogBook(Object(members)).None?
  {
    assert {"context_id", "context_user_id"} == {"context_id"} + {"context_user_id"};
    ValuesAtDisjoint(members, {"context_id"}, {"context_user_id"});
    assert !OptionalOk(members, {"context_id", "context_user_id"}, AsString);
  }

  /** `StatesResponse`: only `state` is required. */
  function DecodeStatesResponse(v: Value): (r: Option<StatesResponse>)
    ensures v.Object? ==> (r.Some? <==> StatesResponseOk(v.members))
    ensures r.Some? && v.Object? ==>
      && OptionalIs(v.members, {"entity_id"}, AsString, r.value.entityId)
      && RequiredIs(v.members, {"state"}, AsString, r.value.state)
      && OptionalIs(v.members, {"attributes"}, DecodeAttributes, r.value.attributes)
      && OptionalIs(v.members, {"last_changed"}, AsString, r.value.lastChanged)
      && OptionalIs(v.members, {"last_reported"}, AsString, r.value.lastReported)
      && OptionalIs(v.members, {"last_updated"}, AsString, r.value.lastUpdated)
      && OptionalIs(v.members, {"context"}, DecodeContext, r.value.context)
    ensures r.Some? && v.Array? ==> |v.items| == 7
    ensures !v.Object? && !v.Array? ==> r.None?
  {
    if !StructShape(v, 7) then None else
    var entityId :- OptionalField(v, 0, {"entity_id"}, AsString);
    var state :- RequiredField(v, 1, {"state"}, AsString);
    var attributes :- OptionalField(v, 2, {"attributes"}, DecodeAttributes);
    var lastChanged :- OptionalField(v, 3, {"last_changed"}, AsString);
    var lastReported :- OptionalField(v, 4, {"last_reported"}, AsString);
    var lastUpdated :- OptionalField(v, 5, {"last_updated"}, AsString);
    var context :- OptionalField(v, 6, {"context"}, DecodeContext);
    Some(StatesResponse(entityId, state, attributes, lastChanged, lastReported, lastUpdated, context))
  }

  /**
   A state object holding only `state` reads with every optional field `None`; one that does
   not give `state` at all is refused.
   */
  lemma StatesResponseMissingFields(state: string, members: seq<Member>)
    requires ValuesAt(members, {"state"}) == []
    ensures DecodeStatesResponse(Object([Member("state", String(state))]))
         == Some(StatesResponse(None, state, None, None, None, None, None))
    ensures DecodeStatesResponse(Object(members)).None?
  {
    var ms := [Member("state", String(state))];
    assert ValuesAt(ms, {"state"}) == [String(state)];
    assert forall names :: "state" !in names ==> ValuesAt(ms, names) == [];
  }

  predicate HistoryResponseOk(members: seq<Member>) {
    && OptionalOk(members, {"entity_id"}, AsString)
    && RequiredOk(members, {"state"}, AsString)
    && OptionalOk(members, {"attributes"}, DecodeAttributes)
    && RequiredOk(members, {"last_changed"}, AsString)
    && OptionalOk(members, {"last_updated"}, AsString)
  }

  /** `HistoryResponse`: `state` and `last_changed` are required. */
  function DecodeHistoryResponse(v: Value): (r: Option<HistoryResponse>)
    ensures v.Object? ==> (r.Some? <==> HistoryResponseOk(v.members))
    ensures r.Some? && v.Object? ==>
      && OptionalIs(v.members, {"entity_id"}, AsString, r.value.entityId)
      && RequiredIs(v.members, {"state"}, AsString, r.value.state)
      && OptionalIs(v.members, {"attributes"}, DecodeAttributes, r.value.attributes)
      && RequiredIs(v.members, {"last_changed"}, AsString, r.value.lastChanged)
      && OptionalIs(v.members, {"last_updated"}, AsString, r.value.lastUpdated)
    ensures r.Some? && v.Array? ==> |v.items| == 5
    ensures !v.Object? && !v.Array? ==> r.None?
  {
    if !StructShape(v, 5) then None else
    var entityId :- OptionalField(v, 0, {"entity_id"}, AsString);
    var state :- RequiredField(v, 1, {"state"}, AsString);
    var attributes :- OptionalField(v, 2, {"attributes"}, DecodeAttributes);
    var lastChanged :- RequiredField(v, 3, {"last_changed"}, AsString);
    var lastUpdated :- OptionalField(v, 4, {"last_updated"}, AsString);
    Some(HistoryResponse(entityId, state, attributes, lastChanged, lastUpdated))
  }

  /** `EventResponse`: `listener_count` must be an integer that fits a `u16`. */
  function DecodeEventResponse(v: Value): (r: Option<EventResponse>)
    ensures v.Object? ==>
      (r.Some? <==> RequiredOk(v.members, {"event"}, AsString) && RequiredOk(v.members, {"listener_count"}, AsU16))
    ensures r.Some? && v.Object? ==>
      && RequiredIs(v.members, {"event"}, AsString, r.value.event)
      && RequiredIs(v.members, {"listener_count"}, AsU16, r.value.listenerCount)
    ensures r.Some? && v.Array? ==> v.items == [String(r.value.event), Number(r.value.listenerCount)]
    ensures !v.Object? && !v.Array? ==> r.None?
  {
    if !StructShape(v, 2) then None else
    var event :- RequiredField(v, 0, {"event"}, AsString);
    var listenerCount :- RequiredField(v, 1, {"listener_count"}, AsU16);
    Some(EventResponse(event, listenerCount))
  }

  /**
   `listener_count` is accepted exactly when it is an integer in 0..65535; otherwise the
   whole event is refused.
   */
  lemma ListenerCountRange(event: string, n: int)
    ensures var r := DecodeEventResponse(Object([Member("event", String(event)), Member("listener_count", Number(n))]));
      (r.Some? <==> 0 <= n <= 65535) && (r.Some? ==> r.value == EventResponse(event, n))
  {
    var ms := [Member("event", String(event)), Member("listener_count", Number(n))];
    assert ValuesAt(ms, {"event"}) == [String(event)];
    assert ValuesAt(ms, {"listener_count"}) == [Number(n)];
  }

  /** `SimpleResponse`: a required `message`. */
  function DecodeSimpleResponse(v: Value): (r: Option<SimpleResponse>)
    ensures v.Object? ==> (r.Some? <==> RequiredOk(v.members, {"message"}, AsString))
    ensures r.Some? && v.Object? ==> RequiredIs(v.members, {"message"}, AsString, r.value.message)
    ensures r.Some? && v.Array? ==> v.items == [String(r.value.message)]
    ensures !v.Object? && !v.Array? ==> r.None?
  {
    if !StructShape(v, 1) then None else
    var message :- RequiredField(v, 0, {"message"}, AsString);
    Some(SimpleResponse(message))
  }

  predicate ConfigCheckOk(members: seq<Member>) {
    && OptionalOk(members, {"errors"}, AsString)
    && RequiredOk(members, {"result"}, AsString)
    && OptionalOk(members, {"warnings"}, AsString)
  }

  /** `ConfigCheckResponse`: `result` is required, `errors` and `warnings` are optional. */
  function DecodeConfigCheckResponse(v: Value): (r: Option<ConfigCheckResponse>)
    ensures v.Object? ==> (r.Some? <==> ConfigCheckOk(v.members))
    ensures r.Some? && v.Object? ==>
      && OptionalIs(v.members, {"errors"}, AsString, r.value.errors)
      && RequiredIs(v.members, {"result"}, AsString, r.value.result)
      && OptionalIs(v.members, {"warnings"}, AsString, r.value.warnings)
    ensures r.Some? && v.Array? ==> |v.items| == 3 && v.items[1] == String(r.value.result)
    ensures !v.Object? && !v.Array? ==> r.None?
  {
    if !StructShape(v, 3) then None else
    var errors :- OptionalField(v, 0, {"errors"}, AsString);
    var result :- RequiredField(v, 1, {"result"}, AsString);
    var warnings :- OptionalField(v, 2, {"warnings"}, AsString);
    Some(ConfigCheckResponse(errors, result, warnings))
  }

  predicate UnitSystemOk(members: seq<Member>) {
    && RequiredOk(members, {"length"}, AsString)
    && RequiredOk(members, {"mass"}, AsString)
    && RequiredOk(members, {"temperature"}, AsString)
    && RequiredOk(members, {"volume"}, AsString)
  }

  /** `UnitSystem`: four required strings. */
  function DecodeUnitSystem(v: Value): (r: Option<UnitSystem>)
    ensures v.Object? ==> (r.Some? <==> UnitSystemOk(v.members))
    ensures r.Some? && v.Object? ==>
      && RequiredIs(v.members, {"length"}, AsString, r.value.length)
      && RequiredIs(v.members, {"mass"}, AsString, r.value.mass)
      && RequiredIs(v.members, {"temperature"}, AsString, r.value.temperature)
      && RequiredIs(v.members, {"volume"}, AsString, r.value.volume)
    ensures !v.Object? && !v.Array? ==> r.None?
  {
    if !StructShape(v, 4) then None else
    var length :- RequiredField(v, 0, {"length"}, AsString);
    var mass :- RequiredField(v, 1, {"mass"}, AsString);
    var temperature :- RequiredField(v, 2, {"temperature"}, AsString);
    var volume :- RequiredField(v, 3, {"volume"}, AsString);
    Some(UnitSystem(length, mass, temperature, volume))
  }

  predicate ConfigOk(members: seq<Member>) {
    && RequiredOk(members, {"components"}, AsStringList)
    && RequiredOk(members, {"config_dir"}, AsString)
    && RequiredOk(members, {"elevation"}, AsNumber)
    && RequiredOk(members, {"latitude"}, AsNumber)
    && RequiredOk(members, {"location_name"}, AsString)
    && RequiredOk(members, {"longitude"}, AsNumber)
    && RequiredOk(members, {"time_zone"}, AsString)
    && RequiredOk(members, {"unit_system"}, DecodeUnitSystem)
    && RequiredOk(members, {"version"}, AsString)
    && RequiredOk(members, {"whitelist_external_dirs"}, AsStringList)
  }

  /** `ConfigResponse`: every field is required. */
  function DecodeConfigResponse(v: Value): (r: Option<ConfigResponse>)
    ensures v.Object? ==> (r.Some? <==> ConfigOk(v.members))
    ensures r.Some? && v.Object? ==>
      && RequiredIs(v.members, {"components"}, AsStringList, r.value.components)
      && RequiredIs(v.members, {"config_dir"}, AsString, r.value.configDir)
      && RequiredIs(v.members, {"elevation"}, AsNumber, r.value.elevation)
      && RequiredIs(v.members, {"latitude"}, AsNumber, r.value.latitude)
      && RequiredIs(v.members, {"location_name"}, AsString, r.value.locationName)
      && RequiredIs(v.members, {"longitude"}, AsNumber, r.value.longitude)
      && RequiredIs(v.members, {"time_zone"}, AsString, r.value.timeZone)
      && RequiredIs(v.members, {"unit_system"}, DecodeUnitSystem, r.value.unitSystem)
      && RequiredIs(v.members, {"version"}, AsString, r.value.version)
      && RequiredIs(v.members, {"whitelist_external_dirs"}, AsStringList, r.value.whitelistExternalDirs)
    ensures !v.Object? && !v.Array? ==> r.None?
  {
    if !StructShape(v, 10) then None else
    var components :- RequiredField(v, 0, {"components"}, AsStringList);
    var configDir :- RequiredField(v, 1, {"config_dir"}, AsString);
    var elevation :- RequiredField(v, 2, {"elevation"}, AsNumber);
    var latitude :- RequiredField(v, 3, {"latitude"}, AsNumber);
    var locationName :- RequiredField(v, 4, {"location_name"}, AsString);
    var longitude :- RequiredField(v, 5, {"longitude"}, AsNumber);
    var timeZone :- RequiredField(v, 6, {"time_zone"}, AsString);
    var unitSystem :- RequiredField(v, 7, {"unit_system"}, DecodeUnitSystem);
    var version :- RequiredField(v, 8, {"version"}, AsString);
    var whitelist :- RequiredField(v, 9, {"whitelist_external_dirs"}, AsStringList);
    Some(ConfigResponse(components, configDir, elevation, latitude, locationName, longitude,
                        timeZone, unitSystem, version, whitelist))
  }

  // ---------------------------------------------------------------------------------------
  // Records written into requests

  /** The members `attributes` contributes when flattened: none for absent or `null`. */
  function Flattened(attributes: Option<Value>): seq<Member> {
    match attributes
    case Some(Object(members)) => members
    case _ => []
  }

  /**
   `StatesRequest` as serde writes it: one object holding `state` and, beside it, every member
   of the `attributes` object. `None` when `attributes` is a value serde refuses to flatten
   (anything but an object or `null`), which makes the request fail before it is sent.
   */
  function EncodeStatesRequest(req: StatesRequest): (r: Option<Value>)
    ensures r.None? <==> req.attributes.Some? && !req.attributes.value.Null? && !req.attributes.value.Object?
    ensures r.Some? ==> r.value.Object?
    ensures r.Some? ==> Keys(r.value.members) == {"state"} + Keys(Flattened(req.attributes))
    ensures r.Some? ==> forall k :: k != "state" ==>
      ValuesAt(r.value.members, {k}) == ValuesAt(Flattened(req.attributes), {k})
    ensures r.Some? ==>
      ValuesAt(r.value.members, {"state"}) == [String(req.state)] + ValuesAt(Flattened(req.attributes), {"state"})
  {
    match req.attributes
    case Some(a) =>
      if a.Null? || a.Object? then
        var members := [Member("state", String(req.state))] + Flattened(req.attributes);
        KeysAppend([Member("state", String(req.state))], Flattened(req.attributes));
        KeysSingle(Member("state", String(req.state)));
        assert forall k :: (ValuesAt(members, {k}) ==
            ValuesAt([Member("state", String(req.state))], {k}) + ValuesAt(Flattened(req.attributes), {k})) by {
          forall k {
            ValuesAtAppend([Member("state", String(req.state))], Flattened(req.attributes), {k});
          }
        }
        Some(Object(members))
      else None
    case None =>
      KeysSingle(Member("state", String(req.state)));
      Some(Object([Member("state", String(req.state))]))
  }

  /** With no attributes the body is exactly `{"state": s}`. */
  lemma StatesRequestWithoutAttributes(state: string)
    ensures EncodeStatesRequest(StatesRequest(state, None)) == Some(Object([Member("state", String(state))]))
  {
  }

  /** `TemplateRequest` as serde writes it: an object with the single key `template`. */
  function EncodeTemplateRequest(req: TemplateRequest): (r: Value)
    ensures r.Object? && Keys(r.members) == {"template"}
    ensures ValuesAt(r.members, {"template"}) == [String(req.template)]
  {
    var members := [Member("template", String(req.template))];
    KeysSingle(members[0]);
    Object(members)
  }
}
