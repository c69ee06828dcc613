/**
 * The event records of event.py. `Event` holds the fields common to every
 * event-viewer event; `FastPurgeEvent` and `PropertyManagerEvent` extend it.
 * Dafny has no class inheritance here, so each subclass owns its `Event`
 * part as `base`: the fields Python keeps on the one object are split over
 * the two, and the subclass method that calls `Event.parseJson(self, json)`
 * calls `base.ParseJson(json)`.
 *
 * Every parse is also given as a function on values (ParseBase, PurgeOf,
 * PropertyOf); the methods are proved to leave the objects in the state
 * those functions describe, and the properties are proved about the
 * functions.
 */
module Events {
  import opened Wrappers
  import opened Json

  /** The classes a selector row can name. */
  datatype Kind = FastPurge | PropertyManager | Eccu

  /** The fields `Event.parseJson` assigns. */
  datatype BaseFields = BaseFields(
    eventId: Json,
    eventTime: Json,
    eventTypeId: Json,
    eventTypeName: Json,
    eventDefinitionId: Json,
    eventName: Json,
    username: Json,
    impersonator: Json,
    eventData: Json)

  /** What `Event.parseJson(json)` stores, or the exception it raises. */
  function ParseBase(json: Json): Result<BaseFields, PyError> {
    var eventId :- Member(json, "eventId");
    var eventTime :- Member(json, "eventTime");
    var eventType :- Member(json, "eventType");
    var (eventTypeId, eventTypeName, eventDefinitionId, eventName) :- TypeFields(eventType);
    var username :- Member(json, "username");
    var impersonator :- Member(json, "impersonator");
    var eventData :- Member(json, "eventData");
    Success(BaseFields(eventId, eventTime, eventTypeId, eventTypeName,
                       eventDefinitionId, eventName, username, impersonator, eventData))
  }

  /** The four fields `Event.parseJson` reads under `eventType`, in its order. */
  function TypeFields(eventType: Json): Result<(Json, Json, Json, Json), PyError> {
    var eventTypeId :- Member(eventType, "eventTypeId");
    var eventTypeName :- Member(eventType, "eventTypeName");
    var definition :- Member(eventType, "eventDefinition");
    var eventDefinitionId :- Member(definition, "eventDefinitionId");
    var eventName :- Member(definition, "eventName");
    Success((eventTypeId, eventTypeName, eventDefinitionId, eventName))
  }

  /** The subclasses read `json['eventData']` again after the base parse; it holds what the base stored. */
  lemma ParseBaseEventData(json: Json)
    requires ParseBase(json).Success?
    ensures Member(json, "eventData") == Success(ParseBase(json).value.eventData)
  {
    assert Member(json, "eventId").Success? && Member(json, "eventTime").Success?;
    assert Member(json, "eventType").Success? && TypeFields(Member(json, "eventType").value).Success?;
    assert Member(json, "username").Success? && Member(json, "impersonator").Success?;
  }

  /**
   * `Event.parseJson` succeeds exactly when every path it reads is present,
   * and then each field holds the value at its path.
   */
  lemma ParseBaseReadsPaths(json: Json)
    ensures ParseBase(json).Success? <==>
              && At(json, ["eventId"]).Success?
              && At(json, ["eventTime"]).Success?
              && At(json, ["eventType", "eventTypeId"]).Success?
              && At(json, ["eventType", "eventTypeName"]).Success?
              && At(json, ["eventType", "eventDefinition", "eventDefinitionId"]).Success?
              && At(json, ["eventType", "eventDefinition", "eventName"]).Success?
              && At(json, ["username"]).Success?
              && At(json, ["impersonator"]).Success?
              && At(json, ["eventData"]).Success?
    ensures ParseBase(json).Success? ==>
              ParseBase(json).value == BaseFields(
                At(json, ["eventId"]).value,
                At(json, ["eventTime"]).value,
                At(json, ["eventType", "eventTypeId"]).value,
                At(json, ["eventType", "eventTypeName"]).value,
                At(json, ["eventType", "eventDefinition", "eventDefinitionId"]).value,
                At(json, ["eventType", "eventDefinition", "eventName"]).value,
                At(json, ["username"]).value,
                At(json, ["impersonator"]).value,
                At(json, ["eventData"]).value)
  {
    AtOne(json, "eventId");
    AtOne(json, "eventTime");
    AtOne(json, "username");
    AtOne(json, "impersonator");
    AtOne(json, "eventData");
    AtTwo(json, "eventType", "eventTypeId");
    AtTwo(json, "eventType", "eventTypeName");
    AtThree(json, "eventType", "eventDefinition", "eventDefinitionId");
    AtThree(json, "eventType", "eventDefinition", "eventName");
  }

  lemma AtOne(j: Json, a: string)
    ensures At(j, [a]) == Member(j, a)
  {
    assert [a][1..] == [];
  }

  lemma AtTwo(j: Json, a: string, b: string)
    ensures At(j, [a, b]) == (var v :- Member(j, a); Member(v, b))
  {
    assert [a, b][1..] == [b];
    if Member(j, a).Success? {
      AtOne(Member(j, a).value, b);
    }
  }

  lemma AtThree(j: Json, a: string, b: string, c: string)
    ensures At(j, [a, b, c]) == (var v :- Member(j, a); var w :- Member(v, b); Member(w, c))
  {
    assert [a, b, c][1..] == [b, c];
    if Member(j, a).Success? {
      AtTwo(Member(j, a).value, b, c);
    }
  }

  /** One turn of the `for kv in eventData` loops: `kv['key']`, then `kv['value']`. */
  function KeyValue(kv: Json): Result<(Json, Json), PyError> {
    var k :- Member(kv, "key");
    var v :- Member(kv, "value");
    Success((k, v))
  }

  /** The key/value pairs of all entries, or the exception of the first entry that lacks one. */
  function Pairs(items: seq<Json>): (r: Result<seq<(Json, Json)>, PyError>)
    ensures r.Success? ==> |r.value| == |items|
    ensures r.Success? ==> forall i :: 0 <= i < |items| ==> KeyValue(items[i]) == Success(r.value[i])
  {
    if items == [] then Success([])
    else
      var ps :- Pairs(items[..|items| - 1]);
      var kv :- KeyValue(items[|items| - 1]);
      Success(ps + [kv])
  }

  /** Any entry without a `key` or a `value`, relevant or not, makes the whole scan fail. */
  lemma {:induction false} PairsFailsIff(items: seq<Json>)
    ensures Pairs(items).Failure? <==> exists i :: 0 <= i < |items| && KeyValue(items[i]).Failure?
  {
    if items != [] {
      var init := items[..|items| - 1];
      PairsFailsIff(init);
      if Pairs(init).Failure? {
        var i :| 0 <= i < |init| && KeyValue(init[i]).Failure?;
        assert KeyValue(items[i]).Failure?;
      }
      if exists i :: 0 <= i < |items| && KeyValue(items[i]).Failure? {
        var i :| 0 <= i < |items| && KeyValue(items[i]).Failure?;
        if i < |init| {
          assert KeyValue(init[i]).Failure?;
        }
      }
    }
  }

  /** The scan stops with the exception of the first bad entry. */
  lemma {:induction false} PairsStopsAt(items: seq<Json>, i: nat)
    requires i < |items|
    requires Pairs(items[..i]).Success? && KeyValue(items[i]).Failure?
    ensures Pairs(items) == Failure(KeyValue(items[i]).error)
    decreases |items|
  {
    if i < |items| - 1 {
      var init := items[..|items| - 1];
      assert init[..i] == items[..i];
      PairsStopsAt(init, i);
    } else {
      assert items[..|items| - 1] == items[..i];
    }
  }

  lemma PairsStep(items: seq<Json>, i: nat)
    requires i < |items|
    requires Pairs(items[..i]).Success? && KeyValue(items[i]).Success?
    ensures Pairs(items[..i + 1]) == Success(Pairs(items[..i]).value + [KeyValue(items[i]).value])
  {
    assert items[..i + 1][..i] == items[..i];
  }

  /** The value of the last pair whose key is the string `key`. */
  function Latest(pairs: seq<(Json, Json)>, key: string): Option<Json> {
    if pairs == [] then None
    else if pairs[|pairs| - 1].0 == JStr(key) then Some(pairs[|pairs| - 1].1)
    else Latest(pairs[..|pairs| - 1], key)
  }

  lemma LatestStep(pairs: seq<(Json, Json)>, p: (Json, Json), key: string)
    ensures Latest(pairs + [p], key) == if p.0 == JStr(key) then Some(p.1) else Latest(pairs, key)
  {
    assert (pairs + [p])[..|pairs|] == pairs;
  }

  /** Entry `i` is the last pair with key `key`. */
  ghost predicate LastWith(pairs: seq<(Json, Json)>, key: string, i: int) {
    && 0 <= i < |pairs|
    && pairs[i].0 == JStr(key)
    && forall j :: i < j < |pairs| ==> pairs[j].0 != JStr(key)
  }

  /** A field the loop assigns when it meets `key`: it holds the value of the last such pair, or `init` when there is none. */
  ghost predicate LastWins(pairs: seq<(Json, Json)>, key: string, init: Option<Json>, field: Option<Json>) {
    && ((forall i :: 0 <= i < |pairs| ==> pairs[i].0 != JStr(key)) ==> field == init)
    && (forall i :: LastWith(pairs, key, i) ==> field == Some(pairs[i].1))
  }

  /** A field left unset keeps its value; otherwise it is the value of the pair met last. */
  function Override(current: Option<Json>, found: Option<Json>): Option<Json> {
    if found.Some? then found else current
  }

  lemma {:induction false} LatestIsLast(pairs: seq<(Json, Json)>, key: string, init: Option<Json>)
    ensures LastWins(pairs, key, init, Override(init, Latest(pairs, key)))
  {
    if pairs != [] {
      var init' := pairs[..|pairs| - 1];
      LatestIsLast(init', key, init);
      if pairs[|pairs| - 1].0 != JStr(key) {
        forall i | LastWith(pairs, key, i)
          ensures Override(init, Latest(pairs, key)) == Some(pairs[i].1)
        {
          assert LastWith(init', key, i);
        }
        if forall i :: 0 <= i < |pairs| ==> pairs[i].0 != JStr(key) {
          assert forall i :: 0 <= i < |init'| ==> init'[i].0 != JStr(key);
        }
      } else {
        forall i | LastWith(pairs, key, i)
          ensures i == |pairs| - 1
        {
        }
      }
    }
  }

  // ----- FastPurgeEvent -----

  datatype PurgeFields = PurgeFields(
    purgeAction: Option<Json>,
    purgeNetwork: Option<Json>,
    purgeRequest: Option<Json>,
    purgeResponse: Option<Json>)

  /** A fresh FastPurgeEvent has none of its purge attributes. */
  const PurgeUnset := PurgeFields(None, None, None, None)

  /** The purge fields after the `for kv in eventData` loop, starting from `init`. */
  function ScanPurge(init: PurgeFields, pairs: seq<(Json, Json)>): PurgeFields {
    PurgeFields(
      Override(init.purgeAction, Latest(pairs, "Purge action")),
      Override(init.purgeNetwork, Latest(pairs, "Purge network")),
      Override(init.purgeRequest, Latest(pairs, "Purge request")),
      Override(init.purgeResponse, Latest(pairs, "Purge response")))
  }

  /** One turn of the loop: a pair overwrites the purge field its key names, if any. */
  function PurgeStep(f: PurgeFields, k: Json, v: Json): PurgeFields {
    PurgeFields(
      if k == JStr("Purge action") then Some(v) else f.purgeAction,
      if k == JStr("Purge network") then Some(v) else f.purgeNetwork,
      if k == JStr("Purge request") then Some(v) else f.purgeRequest,
      if k == JStr("Purge response") then Some(v) else f.purgeResponse)
  }

  /** Scanning one more pair is one more turn of the loop. */
  lemma ScanPurgeStep(init: PurgeFields, pairs: seq<(Json, Json)>, k: Json, v: Json)
    ensures ScanPurge(init, pairs + [(k, v)]) == PurgeStep(ScanPurge(init, pairs), k, v)
  {
    LatestStep(pairs, (k, v), "Purge action");
    LatestStep(pairs, (k, v), "Purge network");
    LatestStep(pairs, (k, v), "Purge request");
    LatestStep(pairs, (k, v), "Purge response");
  }

  /** What `FastPurgeEvent.parseJson(json)` leaves in the base and in the purge fields, starting from `init`. */
  function PurgeOf(json: Json, init: PurgeFields): Result<(BaseFields, PurgeFields), PyError> {
    var base :- ParseBase(json);
    var items :- Elements(base.eventData);
    var pairs :- Pairs(items);
    Success((base, ScanPurge(init, pairs)))
  }

  /**
   * Each purge field comes from the last `eventData` entry with its exact key
   * and stays as it was when no entry has that key; the base part is what
   * `Event.parseJson` stores; and parsing succeeds exactly when the base
   * parse does and every entry has both `key` and `value`.
   */
  lemma PurgeParse(json: Json, init: PurgeFields)
    ensures ParseBase(json).Success? ==>
              (PurgeOf(json, init).Success? <==>
                 Elements(ParseBase(json).value.eventData).Success? &&
                 forall i :: 0 <= i < |Elements(ParseBase(json).value.eventData).value| ==>
                   KeyValue(Elements(ParseBase(json).value.eventData).value[i]).Success?)
    ensures PurgeOf(json, init).Success? ==>
              var items := Elements(ParseBase(json).value.eventData).value;
              var pairs := Pairs(items).value;
              var p := PurgeOf(json, init).value.1;
              && PurgeOf(json, init).value.0 == ParseBase(json).value
              && LastWins(pairs, "Purge action", init.purgeAction, p.purgeAction)
              && LastWins(pairs, "Purge network", init.purgeNetwork, p.purgeNetwork)
              && LastWins(pairs, "Purge request", init.purgeRequest, p.purgeRequest)
              && LastWins(pairs, "Purge response", init.purgeResponse, p.purgeResponse)
  {
    if ParseBase(json).Success? {
      var items := Elements(ParseBase(json).value.eventData);
      if items.Success? {
        PairsFailsIff(items.value);
        if Pairs(items.value).Success? {
          var pairs := Pairs(items.value).value;
          LatestIsLast(pairs, "Purge action", init.purgeAction);
          LatestIsLast(pairs, "Purge network", init.purgeNetwork);
          LatestIsLast(pairs, "Purge request", init.purgeRequest);
          LatestIsLast(pairs, "Purge response", init.purgeResponse);
        }
      }
    }
  }

  // ----- PropertyManagerEvent -----

  datatype PropertyFields = PropertyFields(propertyName: Option<Json>, propertyVersion: Option<Json>)

  const PropertyUnset := PropertyFields(None, None)

  /**
   * The base and property fields after the `for kv in eventData` loop: a
   * `USERNAME` entry overwrites the `username` the base parse stored.
   */
  function ScanProperty(base: BaseFields, init: PropertyFields, pairs: seq<(Json, Json)>): (BaseFields, PropertyFields) {
    (base.(username := Latest(pairs, "USERNAME").GetOr(base.username)),
     PropertyFields(
       Override(init.propertyName, Latest(pairs, "PROPERTY_NAME")),
       Override(init.propertyVersion, Latest(pairs, "PROPERTY_VERSION"))))
  }

  /** One turn of the loop: a pair overwrites the field its key names, if any. */
  function PropertyStep(b: BaseFields, f: PropertyFields, k: Json, v: Json): (BaseFields, PropertyFields) {
    (if k == JStr("USERNAME") then b.(username := v) else b,
     PropertyFields(
       if k == JStr("PROPERTY_NAME") then Some(v) else f.propertyName,
       if k == JStr("PROPERTY_VERSION") then Some(v) else f.propertyVersion))
  }

  /** Scanning one more pair is one more turn of the loop. */
  lemma ScanPropertyStep(base: BaseFields, init: PropertyFields, pairs: seq<(Json, Json)>, k: Json, v: Json)
    ensures var before := ScanProperty(base, init, pairs);
            ScanProperty(base, init, pairs + [(k, v)]) == PropertyStep(before.0, before.1, k, v)
  {
    LatestStep(pairs, (k, v), "USERNAME");
    LatestStep(pairs, (k, v), "PROPERTY_NAME");
    LatestStep(pairs, (k, v), "PROPERTY_VERSION");
  }

  /** What `PropertyManagerEvent.parseJson(json)` leaves in the base and property fields, starting from `init`. */
  function PropertyOf(json: Json, init: PropertyFields): Result<(BaseFields, PropertyFields), PyError> {
    var base :- ParseBase(json);
    var items :- Elements(base.eventData);
    var pairs :- Pairs(items);
    Success(ScanProperty(base, init, pairs))
  }

  /**
   * `propertyName` and `propertyVersion` come from the last `PROPERTY_NAME`
   * and `PROPERTY_VERSION` entries; `username` is the last `USERNAME` value
   * and otherwise the top-level `username`; the other base fields are what
   * `Event.parseJson` stores; and parsing succeeds exactly when the base
   * parse does and every entry has both `key` and `value`.
   */
  lemma PropertyParse(json: Json, init: PropertyFields)
    ensures ParseBase(json).Success? ==>
              (PropertyOf(json, init).Success? <==>
                 Elements(ParseBase(json).value.eventData).Success? &&
                 forall i :: 0 <= i < |Elements(ParseBase(json).value.eventData).value| ==>
                   KeyValue(Elements(ParseBase(json).value.eventData).value[i]).Success?)
    ensures PropertyOf(json, init).Success? ==>
              var base := ParseBase(json).value;
              var pairs := Pairs(Elements(base.eventData).value).value;
              var (b, p) := PropertyOf(json, init).value;
              && b.(username := base.username) == base
              && LastWins(pairs, "USERNAME", Some(base.username), Some(b.username))
              && LastWins(pairs, "PROPERTY_NAME", init.propertyName, p.propertyName)
              && LastWins(pairs, "PROPERTY_VERSION", init.propertyVersion, p.propertyVersion)
  {
    if ParseBase(json).Success? {
      var base := ParseBase(json).value;
      var items := Elements(base.eventData);
      if items.Success? {
        PairsFailsIff(items.value);
        if Pairs(items.value).Success? {
          var pairs := Pairs(items.value).value;
          LatestIsLast(pairs, "USERNAME", Some(base.username));
          LatestIsLast(pairs, "PROPERTY_NAME", init.propertyName);
          LatestIsLast(pairs, "PROPERTY_VERSION", init.propertyVersion);
        }
      }
    }
  }

  // ----- The classes -----

  /** A getter on an attribute that may not be assigned yet: Python raises AttributeError. */
  function Attribute(field: Option<Json>, name: string): Result<Json, PyError> {
    if field.Some? then Success(field.value) else Failure(AttributeError(name))
  }

  class Event {
    var eventId: Json
    var eventTime: Option<Json>
    var eventTypeId: Option<Json>
    var eventTypeName: Option<Json>
    var eventDefinitionId: Option<Json>
    var eventName: Option<Json>
    var username: Option<Json>
    var impersonator: Option<Json>
    var eventData: Option<Json>

    /** `Event(eventId)`; Python's default argument is None, here JNull. */
    constructor (eventId: Json)
      ensures this.eventId == eventId && Unparsed()
    {
      this.eventId := eventId;
      eventTime, eventTypeId, eventTypeName := None, None, None;
      eventDefinitionId, eventName := None, None;
      username, impersonator, eventData := None, None, None;
    }

    /** No attribute but `eventId` is assigned yet. */
    predicate Unparsed()
      reads this
    {
      && eventTime == None && eventTypeId == None && eventTypeName == None
      && eventDefinitionId == None && eventName == None
      && username == None && impersonator == None && eventData == None
    }

    function GetEventId(): Json reads this { eventId }
    function GetEventTime(): Result<Json, PyError> reads this { Attribute(eventTime, "eventTime") }
    function GetEventTypeId(): Result<Json, PyError> reads this { Attribute(eventTypeId, "eventTypeId") }
    function GetEventTypeName(): Result<Json, PyError> reads this { Attribute(eventTypeName, "eventTypeName") }
    function GetEventDefinitionId(): Result<Json, PyError> reads this { Attribute(eventDefinitionId, "eventDefinitionId") }
    function GetEventName(): Result<Json, PyError> reads this { Attribute(eventName, "eventName") }
    function GetUsername(): Result<Json, PyError> reads this { Attribute(username, "username") }
    function GetImpersonator(): Result<Json, PyError> reads this { Attribute(impersonator, "impersonator") }
    function GetEventData(): Result<Json, PyError> reads this { Attribute(eventData, "eventData") }

    /** All fields, once every attribute is assigned; each getter then returns its field. */
    function Stored(): (r: Option<BaseFields>)
      reads this
      ensures r.Some? ==>
                && GetEventId() == r.value.eventId
                && GetEventTime() == Success(r.value.eventTime)
                && GetEventTypeId() == Success(r.value.eventTypeId)
                && GetEventTypeName() == Success(r.value.eventTypeName)
                && GetEventDefinitionId() == Success(r.value.eventDefinitionId)
                && GetEventName() == Success(r.value.eventName)
                && GetUsername() == Success(r.value.username)
                && GetImpersonator() == Success(r.value.impersonator)
                && GetEventData() == Success(r.value.eventData)
    {
      if && eventTime.Some? && eventTypeId.Some? && eventTypeName.Some?
         && eventDefinitionId.Some? && eventName.Some?
         && username.Some? && impersonator.Some? && eventData.Some?
      then
        Some(BaseFields(eventId, eventTime.value, eventTypeId.value, eventTypeName.value,
                        eventDefinitionId.value, eventName.value,
                        username.value, impersonator.value, eventData.value))
      else None
    }

    /** `Event.parseJson(self, json)`: afterwards every getter returns the value read from its path. */
    method ParseJson(json: Json) returns (r: Result<(), PyError>)
      modifies this
      ensures r.Success? <==> ParseBase(json).Success?
      ensures r.Success? ==> Stored() == Some(ParseBase(json).value)
      ensures r.Failure? ==> r.error == ParseBase(json).error && unchanged(this)
    {
      var f :- ParseBase(json);
      eventId := f.eventId;
      eventTime := Some(f.eventTime);
      eventTypeId := Some(f.eventTypeId);
      eventTypeName := Some(f.eventTypeName);
      eventDefinitionId := Some(f.eventDefinitionId);
      eventName := Some(f.eventName);
      username := Some(f.username);
      impersonator := Some(f.impersonator);
      eventData := Some(f.eventData);
      r := Success(());
    }

    /** `self.username = value`, as `PropertyManagerEvent.parseJson` does on a `USERNAME` entry. */
    method SetUsername(value: Json)
      requires Stored().Some?
      modifies this
      ensures Stored() == Some(old(Stored()).value.(username := value))
    {
      username := Some(value);
    }
  }

  class FastPurgeEvent {
    const base: Event
    var purgeAction: Option<Json>
    var purgeNetwork: Option<Json>
    var purgeRequest: Option<Json>
    var purgeResponse: Option<Json>

    /** `FastPurgeEvent(eventId)`: the argument is ignored and the base gets no id. */
    constructor (eventId: Json)
      ensures fresh(base) && base.eventId == JNull && base.Unparsed()
      ensures Purge() == PurgeUnset
    {
      base := new Event(JNull);
      purgeAction, purgeNetwork, purgeRequest, purgeResponse := None, None, None, None;
    }

    /** The purge fields; each getter returns its field, or raises AttributeError while it is unset. */
    function Purge(): (r: PurgeFields)
      reads this
      ensures r.purgeAction.Some? ==> GetPurgeAction() == Success(r.purgeAction.value)
      ensures r.purgeAction.None? ==> GetPurgeAction() == Failure(AttributeError("purgeAction"))
      ensures r.purgeNetwork.Some? ==> GetPurgeNetwork() == Success(r.purgeNetwork.value)
      ensures r.purgeNetwork.None? ==> GetPurgeNetwork() == Failure(AttributeError("purgeNetwork"))
      ensures r.purgeRequest.Some? ==> GetPurgeRequest() == Success(r.purgeRequest.value)
      ensures r.purgeRequest.None? ==> GetPurgeRequest() == Failure(AttributeError("purgeRequest"))
      ensures r.purgeResponse.Some? ==> GetPurgeResponse() == Success(r.purgeResponse.value)
      ensures r.purgeResponse.None? ==> GetPurgeResponse() == Failure(AttributeError("purgeResponse"))
    {
      PurgeFields(purgeAction, purgeNetwork, purgeRequest, purgeResponse)
    }

    function GetPurgeAction(): Result<Json, PyError> reads this { Attribute(purgeAction, "purgeAction") }
    function GetPurgeNetwork(): Result<Json, PyError> reads this { Attribute(purgeNetwork, "purgeNetwork") }
    function GetPurgeRequest(): Result<Json, PyError> reads this { Attribute(purgeRequest, "purgeRequest") }
    function GetPurgeResponse(): Result<Json, PyError> reads this { Attribute(purgeResponse, "purgeResponse") }

    /** The body of the `for kv in eventData` loop, once `k` and `v` are read. */
    method Assign(k: Json, v: Json)
      modifies this
      ensures Purge() == PurgeStep(old(Purge()), k, v)
    {
      if k == JStr("Purge action") { purgeAction := Some(v); }
      if k == JStr("Purge network") { purgeNetwork := Some(v); }
      if k == JStr("Purge request") { purgeRequest := Some(v); }
      if k == JStr("Purge response") { purgeResponse := Some(v); }
    }

    /** `FastPurgeEvent.parseJson(self, json)`. */
    method ParseJson(json: Json) returns (r: Result<(), PyError>)
      modifies this, base
      ensures r.Success? <==> PurgeOf(json, old(Purge())).Success?
      ensures r.Failure? ==> r.error == PurgeOf(json, old(Purge())).error
      ensures r.Success? ==> base.Stored() == Some(PurgeOf(json, old(Purge())).value.0)
      ensures r.Success? ==> Purge() == PurgeOf(json, old(Purge())).value.1
    {
      var parsed :- base.ParseJson(json);
      ParseBaseEventData(json);
      var eventData := Member(json, "eventData").value;
      var items :- Elements(eventData);
      var i := 0;
      while i < |items|
        invariant 0 <= i <= |items|
        invariant base.Stored() == Some(ParseBase(json).value)
        invariant Pairs(items[..i]).Success?
        invariant Purge() == ScanPurge(old(Purge()), Pairs(items[..i]).value)
        modifies this
      {
        var kv := KeyValue(items[i]);
        if kv.Failure? {
          PairsStopsAt(items, i);
          return Failure(kv.error);
        }
        var (k, v) := kv.value;
        PairsStep(items, i);
        ScanPurgeStep(old(Purge()), Pairs(items[..i]).value, k, v);
        Assign(k, v);
        i := i + 1;
      }
      assert items[..i] == items;
      r := Success(());
    }
  }

  class PropertyManagerEvent {
    const base: Event
    var propertyName: Option<Json>
    var propertyVersion: Option<Json>

    /** `PropertyManagerEvent(eventId)`: the argument is ignored and the base gets no id. */
    constructor (eventId: Json)
      ensures fresh(base) && base.eventId == JNull && base.Unparsed()
      ensures Property() == PropertyUnset
    {
      base := new Event(JNull);
      propertyName, propertyVersion := None, None;
    }

    function Property(): PropertyFields
      reads this
    {
      PropertyFields(propertyName, propertyVersion)
    }

    /** The body of the `for kv in eventData` loop, once `k` and `v` are read. */
    method Assign(k: Json, v: Json)
      requires base.Stored().Some?
      modifies this, base
      ensures base.Stored() == Some(PropertyStep(old(base.Stored()).value, old(Property()), k, v).0)
      ensures Property() == PropertyStep(old(base.Stored()).value, old(Property()), k, v).1
    {
      if k == JStr("PROPERTY_NAME") { propertyName := Some(v); }
      if k == JStr("PROPERTY_VERSION") { propertyVersion := Some(v); }
      if k == JStr("USERNAME") { base.SetUsername(v); }
    }

    /** `PropertyManagerEvent.parseJson(self, json)`. */
    method ParseJson(json: Json) returns (r: Result<(), PyError>)
      modifies this, base
      ensures r.Success? <==> PropertyOf(json, old(Property())).Success?
      ensures r.Failure? ==> r.error == PropertyOf(json, old(Property())).error
      ensures r.Success? ==> base.Stored() == Some(PropertyOf(json, old(Property())).value.0)
      ensures r.Success? ==> Property() == PropertyOf(json, old(Property())).value.1
    {
      var parsed :- base.ParseJson(json);
      ParseBaseEventData(json);
      var eventData := Member(json, "eventData").value;
      var items :- Elements(eventData);
      ghost var parsedBase := ParseBase(json).value;
      assert Pairs(items[..0]) == Success([]);
      var i := 0;
      while i < |items|
        invariant 0 <= i <= |items|
        invariant Pairs(items[..i]).Success?
        invariant base.Stored() == Some(ScanProperty(parsedBase, old(Property()), Pairs(items[..i]).value).0)
        invariant Property() == ScanProperty(parsedBase, old(Property()), Pairs(items[..i]).value).1
        modifies this, base
      {
        var kv := KeyValue(items[i]);
        if kv.Failure? {
          PairsStopsAt(items, i);
          return Failure(kv.error);
        }
        var (k, v) := kv.value;
        PairsStep(items, i);
        ScanPropertyStep(parsedBase, old(Property()), Pairs(items[..i]).value, k, v);
        Assign(k, v);
        i := i + 1;
      }
      assert items[..i] == items;
      assert PropertyOf(json, old(Property())) == Success(ScanProperty(parsedBase, old(Property()), Pairs(items).value));
      r := Success(());
    }
  }
}
