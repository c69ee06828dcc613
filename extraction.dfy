/**
 * The extraction pipeline of mpulse-annotator.py: `parseEvents` and
 * `parseEccuEvents` classify raw JSON entries against the selector table,
 * instantiate and parse the selected ones and keep those that pass the
 * filters; `getECCUEvents` and `getEventViewerEvents` fetch the entries
 * through a session, the latter following `next` links page after page.
 */
module Extraction {
  import opened Wrappers
  import opened Json
  import opened Text
  import opened Events
  import opened Selector
  import opened Http

  /** `EVENTS_SELECTOR_ECCU`: the selector key that enables ECCU requests. */
  const EventsSelectorEccu := "000001"

  /** The first request path of the two API calls. */
  const EventViewerPath := "/event-viewer-api/v1/events"
  const EccuPath := "/eccu-api/v1/requests"

  /** A parsed event, as the fields of its object once `parseJson` has returned. */
  datatype Record =
    | PurgeRecord(base: BaseFields, purge: PurgeFields)
    | PropertyRecord(base: BaseFields, property: PropertyFields)
    | EccuRecord(state: Json)

  /**
   * The members the pipeline calls that event.py does not define:
   * `EccuEvent.parseJson` (the state it leaves, or the exception it raises),
   * `matchCriteria` and `getEventStartTime`.
   */
  datatype EventOracle = EventOracle(
    parseEccu: Json -> Result<Json, PyError>,
    matchCriteria: (Record, string) -> bool,
    startTime: Record -> string)

  // ----- One entry -----

  /** `eventsSelector[id][0]()` followed by `e.parseJson(event)`, as a value. */
  function ParseRecord(kind: Kind, event: Json, o: EventOracle): Result<Record, PyError> {
    match kind
    case FastPurge =>
      var parsed :- PurgeOf(event, PurgeUnset);
      Success(PurgeRecord(parsed.0, parsed.1))
    case PropertyManager =>
      var parsed :- PropertyOf(event, PropertyUnset);
      Success(PropertyRecord(parsed.0, parsed.1))
    case Eccu =>
      var state :- o.parseEccu(event);
      Success(EccuRecord(state))
  }

  /**
   * Instantiate the class of `kind` with no argument and call its
   * `parseJson`; the result is the state the new object holds.
   */
  method NewParsedEvent(kind: Kind, event: Json, o: EventOracle) returns (r: Result<Record, PyError>)
    ensures r == ParseRecord(kind, event, o)
  {
    match kind
    case FastPurge =>
      var e := new FastPurgeEvent(JNull);
      var parsed := e.ParseJson(event);
      if parsed.Failure? {
        return Failure(parsed.error);
      }
      r := Success(PurgeRecord(e.base.Stored().value, e.Purge()));
    case PropertyManager =>
      var e := new PropertyManagerEvent(JNull);
      var parsed := e.ParseJson(event);
      if parsed.Failure? {
        return Failure(parsed.error);
      }
      r := Success(PropertyRecord(e.base.Stored().value, e.Property()));
    case Eccu =>
      var state := o.parseEccu(event);
      if state.Failure? {
        return Failure(state.error);
      }
      r := Success(EccuRecord(state.value));
  }

  /** `event['eventType']['eventDefinition']['eventDefinitionId']`. */
  function DefinitionId(event: Json): Result<Json, PyError> {
    At(event, ["eventType", "eventDefinition", "eventDefinitionId"])
  }

  /**
   * `id in eventsSelector` and `eventsSelector[id]`: the keys are strings, so
   * only a string ID can be found, and a list or an object cannot be hashed.
   */
  function Select(table: Table, id: Json): (r: Result<Option<SelectorEntry>, PyError>)
    ensures r.Failure? <==> id.JArr? || id.JObj?
    ensures r.Success? && r.value.Some? <==> id.JStr? && id.s in table
    ensures r.Success? && r.value.Some? ==> r.value.value == table[id.s]
  {
    match id
    case JArr(_) => Failure(TypeError("unhashable type: 'list'"))
    case JObj(_) => Failure(TypeError("unhashable type: 'dict'"))
    case JStr(s) => Success(if s in table then Some(table[s]) else None)
    case _ => Success(None)
  }

  /** Which of the two loops an entry goes through, with what that loop reads besides the entry. */
  datatype Flow =
    | Viewer(table: Table, o: EventOracle)
    | EccuRequests(table: Table, o: EventOracle, from: string)

  /** One turn of the `for event in json_object` loop: the event it appends, if any. */
  function Classify(flow: Flow, event: Json): Result<Option<Record>, PyError> {
    match flow
    case Viewer(table, o) =>
      var id :- DefinitionId(event);
      var entry :- Select(table, id);
      if entry.None? then Success(None)
      else
        var e :- ParseRecord(entry.value.kind, event, o);
        Success(if o.matchCriteria(e, entry.value.criteria) then Some(e) else None)
    case EccuRequests(table, o, from) =>
      if EventsSelectorEccu !in table then Success(None)
      else
        var entry := table[EventsSelectorEccu];
        var e :- ParseRecord(entry.kind, event, o);
        Success(if StrLe(from, o.startTime(e)) && o.matchCriteria(e, entry.criteria) then Some(e) else None)
  }

  /** The loop body of `parseEvents` and of `parseEccuEvents`, with the new object it creates. */
  method ClassifyEntry(flow: Flow, event: Json) returns (r: Result<Option<Record>, PyError>)
    ensures r == Classify(flow, event)
  {
    match flow
    case Viewer(table, o) =>
      var id := DefinitionId(event);
      if id.Failure? {
        return Failure(id.error);
      }
      var entry := Select(table, id.value);
      if entry.Failure? {
        return Failure(entry.error);
      }
      if entry.value.None? {
        return Success(None);
      }
      var e := NewParsedEvent(entry.value.value.kind, event, o);
      if e.Failure? {
        return Failure(e.error);
      }
      if o.matchCriteria(e.value, entry.value.value.criteria) {
        return Success(Some(e.value));
      }
      return Success(None);
    case EccuRequests(table, o, from) =>
      if EventsSelectorEccu !in table {
        return Success(None);
      }
      var entry := table[EventsSelectorEccu];
      var e := NewParsedEvent(entry.kind, event, o);
      if e.Failure? {
        return Failure(e.error);
      }
      if StrLe(from, o.startTime(e.value)) {
        if o.matchCriteria(e.value, entry.criteria) {
          return Success(Some(e.value));
        }
      }
      return Success(None);
  }

  /** A viewer entry is kept with `rec` when its ID names a selector row, it parses to `rec`, and `rec` matches that row's criteria. */
  ghost predicate Accepted(table: Table, o: EventOracle, event: Json, rec: Record) {
    && DefinitionId(event).Success?
    && DefinitionId(event).value.JStr?
    && var id := DefinitionId(event).value.s;
    && id in table
    && ParseRecord(table[id].kind, event, o) == Success(rec)
    && o.matchCriteria(rec, table[id].criteria)
  }

  lemma ViewerKeepsAccepted(table: Table, o: EventOracle, event: Json, rec: Record)
    ensures Classify(Viewer(table, o), event) == Success(Some(rec)) <==> Accepted(table, o, event, rec)
  {
  }

  /**
   * An entry whose ID is not a selector key is never instantiated: it is
   * dropped whatever parsing it would have done.
   */
  lemma UnselectedEntryIgnored(table: Table, o: EventOracle, event: Json)
    requires DefinitionId(event).Success?
    requires var id := DefinitionId(event).value; !id.JArr? && !id.JObj? && !(id.JStr? && id.s in table)
    ensures Classify(Viewer(table, o), event) == Success(None)
  {
  }

  /**
   * An ECCU request is kept with `rec` exactly when the selector has the
   * ECCU key, the request parses to `rec`, its start time is not before
   * `from` as strings compare, and it matches the criteria.
   */
  lemma EccuKeeps(table: Table, o: EventOracle, from: string, event: Json, rec: Record)
    ensures Classify(EccuRequests(table, o, from), event) == Success(Some(rec)) <==>
              && EventsSelectorEccu in table
              && ParseRecord(table[EventsSelectorEccu].kind, event, o) == Success(rec)
              && StrLe(from, o.startTime(rec))
              && o.matchCriteria(rec, table[EventsSelectorEccu].criteria)
  {
  }

  // ----- The loops over the entries -----

  /** What one turn of a loop contributes: an event to append, nothing, or an exception. */
  type Outcome = Result<Option<Record>, PyError>

  function Option2Seq(c: Option<Record>): seq<Record> {
    if c.Some? then [c.value] else []
  }

  /** The events appended turn after turn, or the exception of the first turn that raises. */
  function Gathered(cs: seq<Outcome>): Result<seq<Record>, PyError> {
    if cs == [] then Success([])
    else
      var done :- Gathered(cs[..|cs| - 1]);
      var c :- cs[|cs| - 1];
      Success(done + Option2Seq(c))
  }

  /** The outcome of each entry on its own. */
  function Classified(flow: Flow, entries: seq<Json>): (cs: seq<Outcome>)
    ensures |cs| == |entries|
    ensures forall i :: 0 <= i < |entries| ==> cs[i] == Classify(flow, entries[i])
  {
    seq(|entries|, i requires 0 <= i < |entries| => Classify(flow, entries[i]))
  }

  /** The events both loops return, or the exception of the first entry that raises. */
  function Collect(flow: Flow, entries: seq<Json>): Result<seq<Record>, PyError> {
    Gathered(Classified(flow, entries))
  }

  lemma GatheredStep(cs: seq<Outcome>, i: nat)
    requires i < |cs|
    requires Gathered(cs[..i]).Success? && cs[i].Success?
    ensures Gathered(cs[..i + 1]) == Success(Gathered(cs[..i]).value + Option2Seq(cs[i].value))
  {
    assert cs[..i + 1][..i] == cs[..i];
  }

  /** The loop stops with the exception of the first entry that raises: nothing is skipped. */
  lemma {:induction false} GatheredStopsAt(cs: seq<Outcome>, i: nat)
    requires i < |cs|
    requires Gathered(cs[..i]).Success? && cs[i].Failure?
    ensures Gathered(cs) == Failure(cs[i].error)
    decreases |cs|
  {
    if i < |cs| - 1 {
      var init := cs[..|cs| - 1];
      assert init[..i] == cs[..i];
      GatheredStopsAt(init, i);
    } else {
      assert cs[..|cs| - 1] == cs[..i];
    }
  }

  /** The whole call raises exactly when one entry does. */
  lemma {:induction false} GatheredFailsIff(cs: seq<Outcome>)
    ensures Gathered(cs).Failure? <==> exists i :: 0 <= i < |cs| && cs[i].Failure?
  {
    if cs != [] {
      var init := cs[..|cs| - 1];
      GatheredFailsIff(init);
      if Gathered(init).Failure? {
        var i :| 0 <= i < |init| && init[i].Failure?;
        assert cs[i].Failure?;
      }
      if exists i :: 0 <= i < |cs| && cs[i].Failure? {
        var i :| 0 <= i < |cs| && cs[i].Failure?;
        if i < |init| {
          assert init[i].Failure?;
        }
      }
    }
  }

  /**
   * `out` is the subsequence of the entries at the increasing positions `ix`,
   * each kept entry giving its own record, and every other entry is dropped.
   */
  ghost predicate Picks(cs: seq<Outcome>, ix: seq<int>, out: seq<Record>) {
    && |ix| == |out|
    && (forall k :: 0 <= k < |ix| ==> 0 <= ix[k] < |cs| && cs[ix[k]] == Success(Some(out[k])))
    && (forall k, l :: 0 <= k < l < |ix| ==> ix[k] < ix[l])
    && (forall i :: 0 <= i < |cs| && i !in ix ==> cs[i] == Success(None))
  }

  /** A dropped entry at the end keeps the picks. */
  lemma PicksDropped(cs: seq<Outcome>, ix: seq<int>, out: seq<Record>)
    requires cs != [] && Picks(cs[..|cs| - 1], ix, out) && cs[|cs| - 1] == Success(None)
    ensures Picks(cs, ix, out)
  {
    var init := cs[..|cs| - 1];
    assert forall i :: 0 <= i < |init| ==> init[i] == cs[i];
  }

  /** A kept entry at the end is picked last. */
  lemma PicksKept(cs: seq<Outcome>, ix: seq<int>, out: seq<Record>, rec: Record)
    requires cs != [] && Picks(cs[..|cs| - 1], ix, out) && cs[|cs| - 1] == Success(Some(rec))
    ensures Picks(cs, ix + [|cs| - 1], out + [rec])
  {
    var init := cs[..|cs| - 1];
    assert forall i :: 0 <= i < |init| ==> init[i] == cs[i];
    var ix', out' := ix + [|cs| - 1], out + [rec];
    assert forall k :: 0 <= k < |ix| ==> ix'[k] == ix[k] && out'[k] == out[k];
  }

  /** What the loops return is the subsequence of the entries they keep, in input order. */
  lemma {:induction false} GatheredPicks(cs: seq<Outcome>)
    requires Gathered(cs).Success?
    ensures exists ix :: Picks(cs, ix, Gathered(cs).value)
  {
    if cs == [] {
      assert Picks(cs, [], []);
    } else {
      var init := cs[..|cs| - 1];
      GatheredPicks(init);
      var out := Gathered(init).value;
      var ix :| Picks(init, ix, out);
      var c := cs[|cs| - 1].value;
      if c.None? {
        PicksDropped(cs, ix, out);
        assert Gathered(cs).value == out;
      } else {
        PicksKept(cs, ix, out, c.value);
        assert Gathered(cs).value == out + [c.value];
      }
    }
  }

  /** Entries that are all dropped give no events. */
  lemma {:induction false} GatheredNone(cs: seq<Outcome>)
    requires forall i :: 0 <= i < |cs| ==> cs[i] == Success(None)
    ensures Gathered(cs) == Success([])
  {
    if cs != [] {
      var init := cs[..|cs| - 1];
      assert forall i :: 0 <= i < |init| ==> init[i] == cs[i];
      GatheredNone(init);
      var last := cs[|cs| - 1];
      assert last == Success(None);
      assert Gathered(init).value + Option2Seq(last.value) == [];
    }
  }

  /** The loop shared by `parseEvents` and `parseEccuEvents`: appends each kept event in turn. */
  method Gather(flow: Flow, entries: seq<Json>) returns (r: Result<seq<Record>, PyError>)
    ensures r == Collect(flow, entries)
  {
    ghost var cs := Classified(flow, entries);
    var events: seq<Record> := [];
    var i := 0;
    while i < |entries|
      invariant 0 <= i <= |entries|
      invariant Gathered(cs[..i]) == Success(events)
    {
      var c := ClassifyEntry(flow, entries[i]);
      assert c == cs[i];
      if c.Failure? {
        GatheredStopsAt(cs, i);
        return Failure(c.error);
      }
      GatheredStep(cs, i);
      ghost var old_events := events;
      if c.value.Some? {
        events := events + [c.value.value];
      }
      assert events == old_events + Option2Seq(c.value);
      i := i + 1;
    }
    assert cs[..i] == cs;
    return Success(events);
  }

  /** What `parseEvents(json_object, eventsSelector)` returns. */
  function SelectEvents(jsonObject: Json, table: Table, o: EventOracle): Result<seq<Record>, PyError> {
    var entries :- Elements(jsonObject);
    Collect(Viewer(table, o), entries)
  }

  /** What `parseEccuEvents(json_object, fromTimeStamp, eventsSelector)` returns. */
  function SelectEccuEvents(jsonObject: Json, from: string, table: Table, o: EventOracle): Result<seq<Record>, PyError> {
    var entries :- Elements(jsonObject);
    Collect(EccuRequests(table, o, from), entries)
  }

  method ParseEvents(jsonObject: Json, table: Table, o: EventOracle) returns (r: Result<seq<Record>, PyError>)
    ensures r == SelectEvents(jsonObject, table, o)
  {
    var entries := Elements(jsonObject);
    if entries.Failure? {
      return Failure(entries.error);
    }
    r := Gather(Viewer(table, o), entries.value);
  }

  method ParseEccuEvents(jsonObject: Json, from: string, table: Table, o: EventOracle) returns (r: Result<seq<Record>, PyError>)
    ensures r == SelectEccuEvents(jsonObject, from, table, o)
  {
    var entries := Elements(jsonObject);
    if entries.Failure? {
      return Failure(entries.error);
    }
    r := Gather(EccuRequests(table, o, from), entries.value);
  }

  /**
   * `parseEvents` returns, in input order, exactly the entries whose ID is a
   * selector key and whose parsed record matches that key's criteria.
   */
  lemma ParseEventsSubsequence(jsonObject: Json, table: Table, o: EventOracle)
    requires SelectEvents(jsonObject, table, o).Success?
    ensures var entries := Elements(jsonObject).value;
            var out := SelectEvents(jsonObject, table, o).value;
            && (exists ix :: Picks(Classified(Viewer(table, o), entries), ix, out))
            && forall k :: 0 <= k < |out| ==> exists i :: 0 <= i < |entries| && Accepted(table, o, entries[i], out[k])
  {
    var entries := Elements(jsonObject).value;
    var out := SelectEvents(jsonObject, table, o).value;
    var cs := Classified(Viewer(table, o), entries);
    GatheredPicks(cs);
    var ix :| Picks(cs, ix, out);
    forall k | 0 <= k < |out|
      ensures exists i :: 0 <= i < |entries| && Accepted(table, o, entries[i], out[k])
    {
      ViewerKeepsAccepted(table, o, entries[ix[k]], out[k]);
    }
  }

  /** An ECCU request is kept with `rec`: the conditions of `EccuKeeps`. */
  ghost predicate EccuAccepted(table: Table, o: EventOracle, from: string, event: Json, rec: Record) {
    && EventsSelectorEccu in table
    && ParseRecord(table[EventsSelectorEccu].kind, event, o) == Success(rec)
    && StrLe(from, o.startTime(rec))
    && o.matchCriteria(rec, table[EventsSelectorEccu].criteria)
  }

  /**
   * `parseEccuEvents` returns, in input order, exactly the requests that
   * parse, start no earlier than `from` and match the ECCU criteria.
   */
  lemma ParseEccuEventsSubsequence(jsonObject: Json, from: string, table: Table, o: EventOracle)
    requires SelectEccuEvents(jsonObject, from, table, o).Success?
    ensures var entries := Elements(jsonObject).value;
            var out := SelectEccuEvents(jsonObject, from, table, o).value;
            && (exists ix :: Picks(Classified(EccuRequests(table, o, from), entries), ix, out))
            && forall k :: 0 <= k < |out| ==> exists i :: 0 <= i < |entries| && EccuAccepted(table, o, from, entries[i], out[k])
  {
    var entries := Elements(jsonObject).value;
    var out := SelectEccuEvents(jsonObject, from, table, o).value;
    var cs := Classified(EccuRequests(table, o, from), entries);
    GatheredPicks(cs);
    var ix :| Picks(cs, ix, out);
    forall k | 0 <= k < |out|
      ensures exists i :: 0 <= i < |entries| && EccuAccepted(table, o, from, entries[i], out[k])
    {
      EccuKeeps(table, o, from, entries[ix[k]], out[k]);
    }
  }

  /** Without the ECCU key every request is dropped: the result is empty. */
  lemma EccuWithoutSelector(jsonObject: Json, from: string, table: Table, o: EventOracle)
    requires EventsSelectorEccu !in table
    ensures SelectEccuEvents(jsonObject, from, table, o) ==
              if Elements(jsonObject).Success? then Success([]) else Failure(Elements(jsonObject).error)
  {
    if Elements(jsonObject).Success? {
      GatheredNone(Classified(EccuRequests(table, o, from), Elements(jsonObject).value));
    }
  }

  // ----- getECCUEvents -----

  /**
   * `getECCUEvents(sess, start, eventsSelector)`: nothing unless the request
   * is answered with 200, and then `parseEccuEvents` over `data['requests']`
   * (whose `len` is logged first).
   */
  method GetEccuEvents(session: Session, start: string, table: Table, o: EventOracle)
    returns (r: Result<seq<Record>, PyError>)
    ensures session(EccuPath).status != 200 ==> r == Success([])
    ensures session(EccuPath).status == 200 ==>
              r == (var requests :- Member(session(EccuPath).body, "requests");
                    var count :- Len(requests);
                    SelectEccuEvents(requests, start, table, o))
  {
    var events: seq<Record> := [];
    var result := session(EccuPath);
    if result.status == 200 {
      var data := result.body;
      var requests := Member(data, "requests");
      if requests.Failure? {
        return Failure(requests.error);
      }
      var count := Len(requests.value);
      if count.Failure? {
        return Failure(count.error);
      }
      var selected := ParseEccuEvents(requests.value, start, table, o);
      if selected.Failure? {
        return Failure(selected.error);
      }
      events := events + selected.value;
      assert events == selected.value;
    }
    return Success(events);
  }

  // ----- getEventViewerEvents -----

  /** The path of the first request: `?start=<start>` is added only for a non-empty `start`. */
  function FirstPath(start: string): (r: string)
    ensures EventViewerPath <= r
    ensures r == EventViewerPath <==> start == []
    ensures start != [] ==> r[|EventViewerPath|..] == "?start=" + start
  {
    if start != [] then EventViewerPath + "?start=" + start else EventViewerPath
  }

  /** The `next_href` the `for link in data['links']` loop leaves: the last `next` link's `href`, or None. */
  function NextScan(links: seq<Json>): Result<Json, PyError> {
    if links == [] then Success(JNull)
    else
      var before :- NextScan(links[..|links| - 1]);
      var link := links[|links| - 1];
      var rel :- Member(link, "rel");
      if rel == JStr("next") then Member(link, "href") else Success(before)
  }

  function NextHref(links: Json): Result<Json, PyError> {
    var items :- Elements(links);
    NextScan(items)
  }

  /** Link `i` is the last one whose `rel` is `next`. */
  ghost predicate LastNext(links: seq<Json>, i: int) {
    && 0 <= i < |links|
    && Member(links[i], "rel") == Success(JStr("next"))
    && forall j :: i < j < |links| ==> Member(links[j], "rel") != Success(JStr("next"))
  }

  /** When the scan succeeds, `next_href` is the `href` of the last `next` link, and None when there is none. */
  lemma {:induction false} NextScanLast(links: seq<Json>)
    requires NextScan(links).Success?
    ensures (forall i :: 0 <= i < |links| ==> Member(links[i], "rel") != Success(JStr("next"))) ==>
              NextScan(links).value == JNull
    ensures forall i :: LastNext(links, i) ==> Member(links[i], "href") == NextScan(links)
  {
    if links != [] {
      var n := |links| - 1;
      var init := links[..n];
      NextScanLast(init);
      assert forall i :: 0 <= i < n ==> init[i] == links[i];
      if Member(links[n], "rel") != Success(JStr("next")) {
        forall i | LastNext(links, i)
          ensures Member(links[i], "href") == NextScan(links)
        {
          assert LastNext(init, i);
        }
      } else {
        forall i | LastNext(links, i)
          ensures i == n
        {
        }
      }
    }
  }

  lemma NextScanStep(links: seq<Json>, i: nat)
    requires i < |links|
    requires NextScan(links[..i]).Success?
    ensures NextScan(links[..i + 1]) ==
              (var rel :- Member(links[i], "rel");
               if rel == JStr("next") then Member(links[i], "href") else NextScan(links[..i]))
  {
    assert links[..i + 1][..i] == links[..i];
  }

  lemma {:induction false} NextScanStopsAt(links: seq<Json>, i: nat, e: PyError)
    requires i < |links|
    requires NextScan(links[..i]).Success? && NextScan(links[..i + 1]) == Failure(e)
    ensures NextScan(links) == Failure(e)
    decreases |links|
  {
    if i < |links| - 1 {
      var init := links[..|links| - 1];
      assert init[..i] == links[..i];
      assert init[..i + 1] == links[..i + 1];
      NextScanStopsAt(init, i, e);
    } else {
      assert links[..i + 1] == links;
    }
  }

  /** The `for link in data['links']` loop. */
  method FindNext(links: Json) returns (r: Result<Json, PyError>)
    ensures r == NextHref(links)
  {
    var items := Elements(links);
    if items.Failure? {
      return Failure(items.error);
    }
    var nextHref := JNull;
    var i := 0;
    while i < |items.value|
      invariant 0 <= i <= |items.value|
      invariant NextScan(items.value[..i]) == Success(nextHref)
    {
      var link := items.value[i];
      NextScanStep(items.value, i);
      var rel := Member(link, "rel");
      if rel.Failure? {
        NextScanStopsAt(items.value, i, rel.error);
        return Failure(rel.error);
      }
      if rel.value == JStr("next") {
        var href := Member(link, "href");
        if href.Failure? {
          NextScanStopsAt(items.value, i, href.error);
          return Failure(href.error);
        }
        nextHref := href.value;
      }
      i := i + 1;
    }
    assert items.value[..i] == items.value;
    return Success(nextHref);
  }

  /** The events of one fetched page: `len(data['events'])` is logged, then `parseEvents(data['events'])`. */
  function PageEvents(data: Json, table: Table, o: EventOracle): Result<seq<Record>, PyError> {
    var events :- Member(data, "events");
    var count :- Len(events);
    SelectEvents(events, table, o)
  }

  method FetchedPage(data: Json, table: Table, o: EventOracle) returns (r: Result<seq<Record>, PyError>)
    ensures r == PageEvents(data, table, o)
  {
    var events := Member(data, "events");
    if events.Failure? {
      return Failure(events.error);
    }
    var count := Len(events.value);
    if count.Failure? {
      return Failure(count.error);
    }
    r := ParseEvents(events.value, table, o);
  }

  /**
   * How the pagination ends when it does not return: an exception, or more
   * than `fuel` follow-up requests, which is where the source would keep
   * requesting the same page for ever.
   */
  datatype Halt = Raised(error: PyError) | OutOfFuel

  function Lift<T>(r: Result<T, PyError>): Result<T, Halt> {
    if r.Success? then Success(r.value) else Failure(Raised(r.error))
  }

  /** `done` followed by what the rest of the loop returns. */
  function Then(done: seq<Record>, rest: Result<seq<Record>, Halt>): Result<seq<Record>, Halt> {
    if rest.Success? then Success(done + rest.value) else Failure(rest.error)
  }

  /** What a fetched page contributes; the pagination lemmas hold for any such function. */
  type PageParser = Json -> Result<seq<Record>, PyError>

  /** The page parser of `getEventViewerEvents`. */
  function ViewerPages(table: Table, o: EventOracle): PageParser {
    data => PageEvents(data, table, o)
  }

  /**
   * The events of the pages reached from `data` through `next` links, with
   * at most `fuel` more requests. A page not answered with 200 leaves `data`
   * as it was, so the same link is requested again.
   */
  function Follow(session: Session, parse: PageParser, data: Json, fuel: nat): Result<seq<Record>, Halt>
    decreases fuel
  {
    var links :- Lift(Member(data, "links"));
    if links == JNull then Success([])
    else
      var next :- Lift(NextHref(links));
      if !Truthy(next) then Success([])
      else if fuel == 0 then Failure(OutOfFuel)
      else
        var path :- Lift(AsPath(next));
        var result := session(path);
        if result.status != 200 then Follow(session, parse, data, fuel - 1)
        else
          var page :- Lift(parse(result.body));
          var rest :- Follow(session, parse, result.body, fuel - 1);
          Success(page + rest)
  }

  /** What `getEventViewerEvents(sess, start, eventsSelector)` returns, within `fuel` follow-up requests. */
  function ViewerEvents(session: Session, start: string, table: Table, o: EventOracle, fuel: nat): (r: Result<seq<Record>, Halt>)
    ensures session(FirstPath(start)).status != 200 ==> r == Success([])
  {
    var result := session(FirstPath(start));
    if result.status != 200 then Success([])
    else
      var first :- Lift(PageEvents(result.body, table, o));
      Then(first, Follow(session, ViewerPages(table, o), result.body, fuel))
  }

  /** More fuel changes nothing once the pages have been followed to the end. */
  lemma {:induction false} FuelSuffices(session: Session, parse: PageParser, data: Json, fuel: nat, more: nat)
    requires fuel <= more
    requires Follow(session, parse, data, fuel) != Failure(OutOfFuel)
    ensures Follow(session, parse, data, more) == Follow(session, parse, data, fuel)
    decreases fuel
  {
    if !Steps(data) {
      FollowHalts(session, parse, data, fuel, more);
    } else if fuel > 0 {
      FollowOnce(session, parse, data, fuel);
      FollowOnce(session, parse, data, more);
      var next := NextHref(Member(data, "links").value).value;
      if AsPath(next).Success? {
        var result := session(AsPath(next).value);
        if result.status != 200 {
          FuelSuffices(session, parse, data, fuel - 1, more - 1);
        } else if parse(result.body).Success? {
          FuelSuffices(session, parse, result.body, fuel - 1, more - 1);
        }
      }
    }
  }

  /** The loop goes on from `data`: it has links, and a truthy `next` among them. */
  ghost predicate Steps(data: Json) {
    && Member(data, "links").Success? && Member(data, "links").value != JNull
    && NextHref(Member(data, "links").value).Success?
    && Truthy(NextHref(Member(data, "links").value).value)
  }

  /** A page the loop does not go on from ends it the same way whatever the fuel. */
  lemma FollowHalts(session: Session, parse: PageParser, data: Json, fuel: nat, more: nat)
    requires !Steps(data)
    ensures Follow(session, parse, data, more) == Follow(session, parse, data, fuel)
  {
  }

  /** With fuel left and a `next` link to follow, `Follow` makes one request and goes on from its answer. */
  lemma FollowOnce(session: Session, parse: PageParser, data: Json, fuel: nat)
    requires fuel > 0 && Steps(data)
    ensures var next := NextHref(Member(data, "links").value).value;
            Follow(session, parse, data, fuel) ==
              if AsPath(next).Failure? then Failure(Raised(AsPath(next).error))
              else
                var result := session(AsPath(next).value);
                if result.status != 200 then Follow(session, parse, data, fuel - 1)
                else if parse(result.body).Failure? then Failure(Raised(parse(result.body).error))
                else Then(parse(result.body).value, Follow(session, parse, result.body, fuel - 1))
  {
  }

  /**
   * A `next` link answered with anything but 200 is requested again and
   * again: no amount of fuel gets the loop past it.
   */
  lemma {:induction false} StuckOnRejectedPage(session: Session, parse: PageParser, data: Json, path: string, fuel: nat)
    requires Member(data, "links").Success? && Member(data, "links").value != JNull
    requires NextHref(Member(data, "links").value) == Success(JStr(path)) && path != []
    requires session(path).status != 200
    ensures Follow(session, parse, data, fuel) == Failure(OutOfFuel)
    decreases fuel
  {
    if fuel > 0 {
      StuckOnRejectedPage(session, parse, data, path, fuel - 1);
    }
  }

  /** The last page of a chain: no links, or no `next` among them. */
  ghost predicate LastPage(page: Json) {
    Member(page, "links") == Success(JNull) ||
    (Member(page, "links").Success? && NextHref(Member(page, "links").value).Success? &&
     !Truthy(NextHref(Member(page, "links").value).value))
  }

  /** Page `k` links through `next` to `path`, which the session answers with 200 and page `k + 1`. */
  ghost predicate Links(session: Session, page: Json, path: string, successor: Json) {
    && Member(page, "links").Success?
    && Member(page, "links").value != JNull
    && NextHref(Member(page, "links").value) == Success(JStr(path))
    && path != []
    && session(path) == Response(200, successor)
  }

  /** Each page of `pages` links to the following one. */
  ghost predicate Chain(session: Session, pages: seq<Json>, paths: seq<string>) {
    && |paths| == |pages| - 1
    && forall k :: 0 <= k < |paths| ==> Links(session, pages[k], paths[k], pages[k + 1])
  }

  lemma ChainTail(session: Session, pages: seq<Json>, paths: seq<string>)
    requires |pages| > 1 && Chain(session, pages, paths)
    ensures Links(session, pages[0], paths[0], pages[1])
    ensures Chain(session, pages[1..], paths[1..])
  {
    var tail, tailPaths := pages[1..], paths[1..];
    forall k | 0 <= k < |tailPaths|
      ensures Links(session, tail[k], tailPaths[k], tail[k + 1])
    {
      assert tail[k] == pages[k + 1] && tail[k + 1] == pages[k + 2] && tailPaths[k] == paths[k + 1];
    }
  }

  /** The events of the pages in order, or the first exception parsing them raises. */
  function PagesEvents(parse: PageParser, pages: seq<Json>): Result<seq<Record>, PyError> {
    if pages == [] then Success([])
    else
      var page :- parse(pages[0]);
      var rest :- PagesEvents(parse, pages[1..]);
      Success(page + rest)
  }

  /** Along a chain of 200 pages, the loop concatenates the events of the pages after the first. */
  lemma {:induction false} FollowChain(session: Session, parse: PageParser, pages: seq<Json>, paths: seq<string>, fuel: nat)
    requires |pages| >= 1 && Chain(session, pages, paths) && LastPage(pages[|pages| - 1])
    requires fuel >= |pages| - 1
    ensures Follow(session, parse, pages[0], fuel) == Lift(PagesEvents(parse, pages[1..]))
    decreases |pages|
  {
    if |pages| > 1 {
      ChainTail(session, pages, paths);
      FollowChain(session, parse, pages[1..], paths[1..], fuel - 1);
      assert pages[1..][1..] == pages[2..];
      assert pages[1..][0] == pages[1];
    }
  }

  /**
   * `getEventViewerEvents` answered with 200 along a chain of pages returns
   * the events of all of them, first page first, once the fuel covers the
   * follow-up requests.
   */
  lemma ViewerChain(session: Session, start: string, table: Table, o: EventOracle, pages: seq<Json>, paths: seq<string>, fuel: nat)
    requires |pages| >= 1 && session(FirstPath(start)) == Response(200, pages[0])
    requires Chain(session, pages, paths) && LastPage(pages[|pages| - 1])
    requires fuel >= |pages| - 1
    ensures ViewerEvents(session, start, table, o, fuel) == Lift(PagesEvents(ViewerPages(table, o), pages))
  {
    FollowChain(session, ViewerPages(table, o), pages, paths, fuel);
  }

  lemma ThenPage(events: seq<Record>, page: seq<Record>, rest: Result<seq<Record>, Halt>)
    ensures Then(events, (var r :- rest; Success(page + r))) == Then(events + page, rest)
  {
    if rest.Success? {
      assert events + (page + rest.value) == events + page + rest.value;
    }
  }

  /** `getEventViewerEvents(sess, start, eventsSelector)`, with at most `fuel` follow-up requests. */
  method GetEventViewerEvents(session: Session, start: string, table: Table, o: EventOracle, fuel: nat)
    returns (r: Result<seq<Record>, Halt>)
    ensures r == ViewerEvents(session, start, table, o, fuel)
  {
    var events: seq<Record> := [];
    var result := session(FirstPath(start));
    if result.status != 200 {
      return Success(events);
    }
    var data := result.body;
    var first := FetchedPage(data, table, o);
    if first.Failure? {
      return Failure(Raised(first.error));
    }
    events := events + first.value;
    assert events == first.value;
    r := FollowLinks(session, table, o, data, events, fuel);
  }

  /**
   * The `while data['links'] is not None` loop of `getEventViewerEvents`,
   * starting on page `data` with `events` selected so far.
   */
  method FollowLinks(session: Session, table: Table, o: EventOracle, page: Json, selected: seq<Record>, fuel: nat)
    returns (r: Result<seq<Record>, Halt>)
    ensures r == Then(selected, Follow(session, ViewerPages(table, o), page, fuel))
  {
    ghost var target := Then(selected, Follow(session, ViewerPages(table, o), page, fuel));
    var data, events, f := page, selected, fuel;
    while Member(data, "links") != Success(JNull)
      invariant target == Then(events, Follow(session, ViewerPages(table, o), data, f))
      decreases f
    {
      var done, result, data', events', f' := FollowStep(session, table, o, data, events, f);
      if done {
        return result;
      }
      data, events, f := data', events', f';
    }
    assert Follow(session, ViewerPages(table, o), data, f) == Success([]);
    assert events + [] == events;
    return Success(events);
  }

  /**
   * One turn of that loop: it returns (`done`), or moves on to page `data'`
   * with `events'` selected and `f'` requests left, where the rest of the
   * loop gives the same result.
   */
  method FollowStep(session: Session, table: Table, o: EventOracle, data: Json, events: seq<Record>, f: nat)
    returns (done: bool, r: Result<seq<Record>, Halt>, data': Json, events': seq<Record>, f': nat)
    requires Member(data, "links") != Success(JNull)
    ensures done ==> r == Then(events, Follow(session, ViewerPages(table, o), data, f))
    ensures !done ==> f' < f && Then(events', Follow(session, ViewerPages(table, o), data', f')) ==
                                Then(events, Follow(session, ViewerPages(table, o), data, f))
  {
    ghost var parse := ViewerPages(table, o);
    data', events', f' := data, events, 0;
    var links := Member(data, "links");
    if links.Failure? {
      return true, Failure(Raised(links.error)), data', events', f';
    }
    var nextHref := FindNext(links.value);
    if nextHref.Failure? {
      return true, Failure(Raised(nextHref.error)), data', events', f';
    }
    if !Truthy(nextHref.value) {
      assert Follow(session, parse, data, f) == Success([]);
      assert events + [] == events;
      return true, Success(events), data', events', f';
    }
    if f == 0 {
      return true, Failure(OutOfFuel), data', events', f';
    }
    var path := AsPath(nextHref.value);
    if path.Failure? {
      return true, Failure(Raised(path.error)), data', events', f';
    }
    var result := session(path.value);
    f' := f - 1;
    if result.status == 200 {
      var page := FetchedPage(result.body, table, o);
      assert parse(result.body) == page;
      if page.Failure? {
        return true, Failure(Raised(page.error)), data', events', f';
      }
      ThenPage(events, page.value, Follow(session, parse, result.body, f - 1));
      data', events' := result.body, events + page.value;
    }
    done, r := false, Success([]);
  }
}
