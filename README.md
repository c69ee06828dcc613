# ak-mpulse-annotator, modelled in Dafny

ak-mpulse-annotator reads Akamai configuration events and posts them as
annotations on mPulse dashboards. This project models the data path of that
tool, which runs from the selector file to the selected event objects:

- **The event-selector CSV file** (`selector.dfy`). `decomment` keeps each
  line's text before the first `#`, stripped of whitespace, and drops the
  lines left empty. `parseEventsSelector` maps each remaining row's
  event-definition ID to an event class and a criteria string.
- **The event classes of event.py** (`events.dfy`). `Event`,
  `FastPurgeEvent` and `PropertyManagerEvent` are Dafny classes whose fields
  their `ParseJson` methods assign. Each method is proved to succeed or
  fail exactly as a function on values (`ParseBase`, `PurgeOf`,
  `PropertyOf`) does, and on success to leave exactly the state that
  function describes. The lemmas state what that state means: every field holds
  the value at its JSON path, and a key/value entry met later overrides an
  earlier one.
- **Event selection** (`extraction.dfy`). `parseEvents` and
  `parseEccuEvents` keep, in input order, the entries that the selector
  names, that parse, and that pass the filters. `getECCUEvents` fetches the
  ECCU requests once. `getEventViewerEvents` fetches the first page, then
  follows `next` links page after page.
- **The two request bodies of mpulseapihandler.py and the token answer**
  (`mpulse_api.dfy`). The bodies are built by pasting the arguments between
  fixed literals, with no escaping. A reader that takes each field up to
  the next double quote gets the fields back from any arguments without a
  double quote. One title holding a quote is shown to break the body.

Supporting modules:

- `wrappers.dfy`: `Option` and `Result`.
- `json.dfy`: JSON values and Python's `[...]`, `len` and truth testing on
  them. Each Python exception is a `PyError`.
- `text.dfy`: `strip`, `split` and string ordering.
- `http.dfy`: an HTTP answer, and a session modelled as a function from a
  path to that answer.

How the Python behaviour maps onto the model:

- Errors that Python raises are explicit `Failure` values. A missing key is
  `KeyError`. A list or dict used as a dict key is `TypeError`. A short CSV
  row is `IndexError(1)` or `IndexError(2)`. An attribute read before it is
  assigned is `AttributeError`.
- The code is followed where its behaviour looks unintended:
  - `FastPurgeEvent(eventId)` and `PropertyManagerEvent(eventId)` drop their
    argument, because they call `Event.__init__(self)` with none.
  - A failing entry aborts the whole `parseEvents` call, even if it would
    not have been selected.
  - A later page answered with anything but 200 leaves `data` unchanged,
    so the loop requests the same link again. The model bounds that with
    fuel and proves the bound is reached.

## Model

| member | source | states |
|---|---|---|
| Json.Lookup | event.py:8-16 | A dict lookup finds a value exactly when some member has the key. The value found is that of the last member with the key, as `json.loads` keeps the last duplicate. |
| Json.Len | mpulse-annotator.py:134 | `len` succeeds exactly on the values Python can iterate, and gives the number of items iteration yields. |
| Text.TrimStart | mpulse-annotator.py:55 | The result is a suffix of the input. Everything cut off is whitespace. The result does not start with whitespace. |
| Text.TrimEnd | mpulse-annotator.py:55 | The result is a prefix of the input. Everything cut off is whitespace. The result does not end with whitespace. |
| Text.Strip | mpulse-annotator.py:55 | `strip()` gives a contiguous slice of the input with only whitespace cut off on either side, and no whitespace left at either end. It is the identity on a stripped string. It gives the empty string exactly when the input is all whitespace. |
| Text.StripOmits | mpulse-annotator.py:55 | Stripping adds no character: a `#` absent before is absent after. |
| Text.Split | mpulse-annotator.py:55 | `split(sep)` gives at least one piece, and no piece holds the separator. |
| Text.JoinSplit | mpulse-annotator.py:55 | Joining the pieces of a split with the separator gives the string back. |
| Text.SplitAfterPiece | mpulse-annotator.py:55 | Splitting a separator-free piece, the separator and a rest gives the piece followed by the split of the rest. |
| Text.SplitPiece | mpulse-annotator.py:55 | A string without the separator splits into itself alone. |
| Text.SplitJoin | mpulse-annotator.py:55 | Splitting the join of separator-free pieces gives the pieces back. |
| Text.FirstPieceCut | mpulse-annotator.py:55 | `split('#')[0]` ignores everything after the first `#`. |
| Text.StrLeTotalOrder | mpulse-annotator.py:106 | String `>=`, as used to compare start times, is a total order: reflexive, total, antisymmetric and transitive. |
| Selector.Cleaned | mpulse-annotator.py:55 | The cleaned text of a line holds no `#`. |
| Selector.Kept | mpulse-annotator.py:55-56 | A line yields a row exactly when its cleaned text is non-empty, and then one row: that text, stripped. |
| Selector.Decomment | mpulse-annotator.py:53-56 | `decomment` yields at most as many rows as lines. Each row is non-empty, holds no `#` and is stripped. |
| Selector.HashCutsLine | mpulse-annotator.py:55 | Text after the first `#` never reaches the row. A line without `#` is only stripped. |
| Selector.DecommentAppend | mpulse-annotator.py:53-56 | `decomment` works line by line: on two files in a row it gives the rows of the first, then those of the second. |
| Selector.KeptIdempotent | mpulse-annotator.py:55-56 | A kept row passes through `decomment` again unchanged. |
| Selector.DecommentIdempotent | mpulse-annotator.py:53-56 | `decomment` of its own output is that output. |
| Selector.KindNamed | mpulse-annotator.py:72-77 | A class name is recognised exactly when it is one of the three class names the selector knows, and gives that class. |
| Selector.Rows | mpulse-annotator.py:70 | There is one CSV row per decommented line. Its fields hold no comma, and joined with commas they give the line back. |
| Selector.RowEntryMeaning | mpulse-annotator.py:72-77 | A row of fewer than two fields raises IndexError(1). An unknown class name adds nothing. A known class with no third field raises IndexError(2). Otherwise the row maps its ID to that class and its criteria. |
| Selector.BuildStep | mpulse-annotator.py:71-77 | After one more good row, the table is the earlier table with that row's entry put in. |
| Selector.BuildStopsAt | mpulse-annotator.py:71-77 | The first row that raises ends the parse with its exception. |
| Selector.BuildFailsIff | mpulse-annotator.py:71-77 | The parse fails exactly when some row raises. |
| Selector.UnknownClassIgnored | mpulse-annotator.py:71-77 | A row naming an unknown class leaves the table as it was. |
| Selector.BuildHas | mpulse-annotator.py:71-77 | An ID is in the table exactly when some row defines it. |
| Selector.BuildLastWins | mpulse-annotator.py:73-77 | For an ID defined by several rows, the table holds the entry of the last one. |
| Selector.ApplyRow | mpulse-annotator.py:72-77 | One turn of the loop raises the row's exception, or puts the row's entry (if any) into the table. |
| Selector.ParseEventsSelector | mpulse-annotator.py:59-78 | The loop builds the table that `Build` describes from the decommented rows. |
| Events.ParseBaseEventData | event.py:76-77 | After a successful base parse, `json['eventData']` is the stored `eventData`. |
| Events.ParseBaseReadsPaths | event.py:7-16 | `Event.parseJson` succeeds exactly when all nine paths it reads exist, and each field then holds the value at its path. |
| Events.AtTwo | event.py:10-11 | A two-key path is a lookup in the result of a lookup. |
| Events.AtThree | event.py:12-13 | A three-key path is three lookups in turn. |
| Events.Pairs | event.py:78-80 | On success there is one `(key, value)` pair per entry, read from that entry. |
| Events.PairsFailsIff | event.py:78-80 | The scan fails exactly when some entry lacks `key` or `value`, whether or not its key is relevant. |
| Events.PairsStopsAt | event.py:78-80 | The scan ends with the exception of the first bad entry. |
| Events.PairsStep | event.py:78-80 | One more good entry adds its pair at the end. |
| Events.LatestStep | event.py:81-88 | The latest value for a key is the newest pair's value when that pair has the key, and otherwise the earlier latest value. |
| Events.LatestIsLast | event.py:81-88 | A field the loop assigns holds the value of the last entry with its key, and keeps its initial value when no entry has that key. |
| Events.ScanPurgeStep | event.py:81-88 | Scanning one more pair is one turn of the four `if`s of the purge loop. |
| Events.PurgeParse | event.py:75-88 | `FastPurgeEvent.parseJson` succeeds exactly when the base parse does and every `eventData` entry has both `key` and `value`. The base part is then `Event.parseJson`'s, and each purge field comes from the last entry with its exact key, or stays as it was. |
| Events.ScanPropertyStep | event.py:110-115 | Scanning one more pair is one turn of the three `if`s of the property loop. |
| Events.PropertyParse | event.py:104-115 | `PropertyManagerEvent.parseJson` succeeds exactly as the purge parse does. The property fields come from the last `PROPERTY_NAME` and `PROPERTY_VERSION` entries. `username` is the last `USERNAME` value, and otherwise the top-level one. No other base field changes. |
| Events.Event.constructor | event.py:4-5 | A new event holds the given ID and no other attribute. |
| Events.Event.Stored | event.py:18-43 | Once every attribute is assigned, each of the nine getters returns its field. |
| Events.Event.ParseJson | event.py:7-16 | Succeeds exactly when `ParseBase` does, and then stores its fields. On failure the exception is `ParseBase`'s and no field changes. |
| Events.Event.SetUsername | event.py:114-115 | Only `username` changes. |
| Events.FastPurgeEvent.constructor | event.py:60-61 | The base gets no ID, whatever is passed. No purge attribute is set. |
| Events.FastPurgeEvent.Purge | event.py:63-73 | Each of the four purge getters returns its field once assigned, and raises AttributeError naming the field while it is unset. |
| Events.FastPurgeEvent.Assign | event.py:81-88 | One loop turn updates the purge fields as `PurgeStep` says. |
| Events.FastPurgeEvent.ParseJson | event.py:75-88 | Succeeds or fails with `PurgeOf`, and on success leaves the base and purge fields `PurgeOf` gives. |
| Events.PropertyManagerEvent.constructor | event.py:101-102 | The base gets no ID, whatever is passed. No property attribute is set. |
| Events.PropertyManagerEvent.Assign | event.py:110-115 | One loop turn updates the property fields and the base `username` as `PropertyStep` says. |
| Events.PropertyManagerEvent.ParseJson | event.py:104-115 | Succeeds or fails with `PropertyOf`, and on success leaves the base and property fields `PropertyOf` gives. |
| Extraction.NewParsedEvent | mpulse-annotator.py:93-94 | A new object of the selected class, after `parseJson`, holds the state `ParseRecord` describes. |
| Extraction.Select | mpulse-annotator.py:92-93 | A list or dict ID raises. An entry is found exactly when the ID is a string key of the table, and the entry is the table's. |
| Extraction.ClassifyEntry | mpulse-annotator.py:90-108 | One turn of either entry loop appends what `Classify` says, or raises its exception. |
| Extraction.ViewerKeepsAccepted | mpulse-annotator.py:91-96 | A viewer entry is kept with a record exactly when its ID is a string in the table, it parses to that record, and the record matches the criteria. |
| Extraction.UnselectedEntryIgnored | mpulse-annotator.py:91-92 | An entry whose ID is not a selector key is dropped before any parsing. |
| Extraction.EccuKeeps | mpulse-annotator.py:102-108 | An ECCU request is kept exactly when the ECCU key is in the table, the request parses, its start time is not before `from`, and it matches the criteria. |
| Extraction.GatheredStep | mpulse-annotator.py:89-97 | One more good outcome appends its event, if any. |
| Extraction.GatheredStopsAt | mpulse-annotator.py:89-97 | The first raising entry ends the loop with its exception. |
| Extraction.GatheredFailsIff | mpulse-annotator.py:89-97 | The loop fails exactly when some entry raises. |
| Extraction.GatheredPicks | mpulse-annotator.py:89-97 | The output is the kept records in input order: the subsequence at increasing indices whose outcome was "keep". |
| Extraction.GatheredNone | mpulse-annotator.py:99-109 | When every entry is dropped, the output is empty. |
| Extraction.Gather | mpulse-annotator.py:89-97 | The loop returns what `Collect` describes. |
| Extraction.ParseEvents | mpulse-annotator.py:81-97 | `parseEvents` returns `SelectEvents`. |
| Extraction.ParseEccuEvents | mpulse-annotator.py:99-109 | `parseEccuEvents` returns `SelectEccuEvents`. |
| Extraction.ParseEventsSubsequence | mpulse-annotator.py:81-97 | Each event `parseEvents` returns comes from an accepted entry, and the events keep input order. |
| Extraction.ParseEccuEventsSubsequence | mpulse-annotator.py:99-109 | Each event `parseEccuEvents` returns comes from a request that parses, starts no earlier than `from` and matches the ECCU criteria. The events keep input order. |
| Extraction.EccuWithoutSelector | mpulse-annotator.py:102-103 | Without the ECCU key, `parseEccuEvents` returns nothing, unless the requests cannot be iterated. |
| Extraction.GetEccuEvents | mpulse-annotator.py:112-139 | A non-200 answer gives no events. A 200 answer gives `parseEccuEvents` of `data['requests']`, after `len` of it succeeds. |
| Extraction.FirstPath | mpulse-annotator.py:156-158 | The first path is the events path, with `?start=<start>` added exactly when `start` is non-empty. |
| Extraction.NextScanLast | mpulse-annotator.py:172-177 | `next_href` is None when no link is `next`, and otherwise the `href` of the last `next` link. |
| Extraction.NextScanStep | mpulse-annotator.py:175-177 | One more link leaves `next_href` or replaces it with that link's `href`. |
| Extraction.NextScanStopsAt | mpulse-annotator.py:175-177 | A link that raises ends the scan with its exception. |
| Extraction.FindNext | mpulse-annotator.py:172-177 | The `for link in data['links']` loop leaves `NextHref`. |
| Extraction.FetchedPage | mpulse-annotator.py:184-188 | One page gives `parseEvents(data['events'])`, after `len` of it succeeds. |
| Extraction.ViewerEvents | mpulse-annotator.py:160-167 | A non-200 first answer gives no events. |
| Extraction.FuelSuffices | mpulse-annotator.py:170-190 | Once the pages are followed to the end within some fuel, more fuel changes nothing. |
| Extraction.StuckOnRejectedPage | mpulse-annotator.py:179-188 | A `next` link answered with anything but 200 is requested again forever, so no fuel is enough. |
| Extraction.FollowChain | mpulse-annotator.py:170-190 | Along a chain of 200 pages ending in a page without `next`, the loop returns the events of the later pages, in order. |
| Extraction.ViewerChain | mpulse-annotator.py:143-193 | `getEventViewerEvents` along such a chain returns the events of every page, first page first. |
| Extraction.GetEventViewerEvents | mpulse-annotator.py:143-193 | The method returns `ViewerEvents`. |
| Extraction.FollowLinks | mpulse-annotator.py:170-190 | The `while` loop returns the events met so far, followed by `Follow` from the current page. |
| Extraction.FollowStep | mpulse-annotator.py:172-188 | One turn of the `while` loop either returns what the rest of the loop from that page would, or moves to the next page with fewer requests left and the same final result. |
| MPulseApi.AnnotationPayload | mpulseapihandler.py:47-50 | The body is exactly as long as its literals and fields together: nothing is escaped or dropped. |
| MPulseApi.TokenPayload | mpulseapihandler.py:21 | The body is exactly as long as its literals and fields together. |
| MPulseApi.Consume | mpulseapihandler.py:48 | A literal is consumed exactly when it is a prefix, and the rest is what follows it. |
| MPulseApi.Field | mpulseapihandler.py:48 | A field is read up to the first quote, and the two parts rebuild the input. |
| MPulseApi.FieldBeforeQuote | mpulseapihandler.py:48 | A quote-free field followed by a quote reads back as itself. |
| MPulseApi.LiteralField | mpulseapihandler.py:48 | A literal, then a quote-free field, then a quote: both read back. |
| MPulseApi.AnnotationRoundTrip | mpulseapihandler.py:47-50 | With no quote in any field, the body reads back as the annotation, with an `end` member exactly when an end time was given. |
| MPulseApi.RoundTripWithoutEnd | mpulseapihandler.py:48 | The body without an end time reads back as its three fields and no end. |
| MPulseApi.RoundTripWithEnd | mpulseapihandler.py:50 | The body with an end time reads back as its four fields. |
| MPulseApi.TokenRoundTrip | mpulseapihandler.py:21 | With no quote in either argument, the token body reads back as the token and the tenant. |
| MPulseApi.QuoteInTitleBreaksPayload | mpulseapihandler.py:48 | A title that is a double quote closes the string early, and the body no longer reads back. |
| MPulseApi.NatDecimal | mpulseapihandler.py:28 | `str()` of a natural number is a non-empty string of decimal digits. |
| MPulseApi.Digit | mpulseapihandler.py:28 | A digit below ten is a decimal digit character. |
| MPulseApi.NatDecimalValue | mpulseapihandler.py:28 | The digits of `str(n)` stand for `n`. |
| MPulseApi.SecurityToken | mpulseapihandler.py:25-31 | Any status but 200 gives None. A 200 never gives None: it gives the exception of a missing `token`, or the token string. |
| MPulseApi.GetSecurityToken | mpulseapihandler.py:21-31 | The token body goes out. A non-200 answer gives None, and a 200 answer `{"token": s}` gives `s`. |

## Left out

- timezones.py is not part of this model. It defines UTC and local `tzinfo` classes that none of the other files uses.
- HTTP, EdgeGrid authentication, `.edgerc` reading, logging and the command line are not modelled. This covers `main`, `getopt`, the annotation loop at the end of `main`, and the parsing of the start date.
- `urljoin(baseUrl, path)` is not modelled: the session is asked for the path itself.
- Sessions are modelled as deterministic functions of the path. A server that answers the same path differently over time is not captured.
- The request URLs, the headers and the answer of `addAnnotation` are not modelled: only the bodies are.
- `csv.reader` quoting is not modelled: a CSV row is its line split on commas.
- JSON numbers are integers. Floats, and `str()` of a float, are not modelled.
- `str()` of a list or dict is not modelled: `MPulseApi.SecurityToken` returns `NotModelled` for such a token.
- The `__str__` methods of event.py are not modelled. They only format text for logging.
- MPulseApi.AnnotationPayload: takes `start` and `end` as the strings `str()` gives, rather than as integers.
- `EccuEvent`, `matchCriteria` and `getEventStartTime` are not defined in event.py. The missing `EccuEvent` makes the import on line 9 of mpulse-annotator.py fail. The two missing methods would raise `AttributeError` when called. The model takes all three as parameters of `EventOracle`: how an ECCU request parses, whether a record matches a criteria string, and the record's start time.
- Events.Event.ParseJson: on failure no field changes, whereas Python keeps the attributes it assigned before the failing lookup.
- Events.FastPurgeEvent.ParseJson: on failure the contract says nothing about the object's state. In Python the base fields and the purge fields set by earlier entries stay assigned.
- Events.PropertyManagerEvent.ParseJson: on failure the contract says nothing about the object's state. In Python the base fields, and the property fields and `username` set by earlier entries, stay assigned.
- Selected events are returned as `Record` values, the state of each object after `parseJson`, rather than as the objects themselves.
- Extraction.ViewerEvents: the pagination loop is bounded by `fuel` follow-up requests. `OutOfFuel` stands for the source looping forever, and `StuckOnRejectedPage` shows such a loop.
- Extraction.GetEccuEvents: `start` is compared with the start times as strings, as `>=` on two Python strings does; the source gives a string there.
- MPulseApi.AnnotationRoundTrip: the body is read back by a reader that takes each field up to the next double quote. The round trip does not show the body is valid JSON: a field holding a backslash or a control character reads back here, though a JSON parser would reject the body or read it differently. The same holds for MPulseApi.TokenRoundTrip.
