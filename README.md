# adsbxcot in Dafny

adsbxcot is a gateway from ADS-B Exchange to Cursor-on-Target (CoT). A worker
polls the ADS-B Exchange aircraft feed. It renders each aircraft record as a
CoT position event (an XML `event` with `point`, `detail` and `_aircot_`
children) and puts the serialised event on a transmit queue. That queue is
handed to the TAK networking library.

This project models the core of that gateway:

- `wrappers.dfy` (module `Wrappers`): an `Option` type.
- `pytext.dfy` (module `PyText`): the Python string built-ins the core relies
  on. These are `str.strip()` (over the characters `str.isspace()` accepts),
  `str.upper()`, the substring test `a in b`, `" ".join(filter(None, ...))`
  and `int(text)`. Each has the lemmas the rest of the model needs:
  - the characterisation of `strip()`;
  - normalisation (`strip().upper()`) is idempotent;
  - `int()` reads back the decimal text of any integer.
- `aircraft.dfy` (module `Aircraft`): the data the gateway reads.
  - An aircraft record is a dictionary of JSON values (`null`, string,
    number).
  - A known-craft row is a dictionary of strings.
  - Python truthiness is modelled explicitly.
- `functions.dfy` (module `AdsbxFunctions`): `adsbx_to_cot_xml` and
  `adsbx_to_cot`, which turn one aircraft record into a CoT event or into
  nothing.
  - The library calls the converter makes become the fields of a `Foreign`
    value that the caller passes in. These are aircot's callsign, category,
    CoT type, height and speed helpers; pytak's clock and defaults; and
    ElementTree serialisation.
- `interpolation.dfy` (module `Interpolation`): the validation `configparser`'s
  basic interpolation makes when a value is set. After the escapes `%%` and
  the references `%(name)s` are removed, no `%` may remain.
- `classes.dfy` (module `AdsbxClasses`): the `ADSBXWorker` class.
  - Its option defaults, as a constructor.
  - The filter-type selection `run` performs before polling, as a method
    that updates the worker's fields.
  - `handle_message`, as a method that appends to the worker's `queue`
    field.

`handle_message` is proved against a specification on values.
- `Decide` gives the verdict on one record:
  - it raises, ending the call;
  - or it skips the record as excluded TIS-B, as not a known craft, or as
    yielding no event;
  - or it emits an event.
- `Emitted` gives the events a run of verdicts queues, up to the first one
  that raises.
- The method's `ensures` ties the new queue to those two functions.
- Lemmas about `Emitted` and `Pipeline` state what that means:
  - events come out in record order, one per emitting record;
  - nothing is queued after a raise;
  - handling two lists in turn is the same as handling their concatenation.

Most raises of the Python code are modelled as results:
- the `Raises` verdict in `handle_message`;
- the `raised` result of `SelectFilterType`;
- a `None` from `StaleSetting` and `ParseInt`.

The rest are preconditions, each listed under "## Left out".

The remarks are the non-empty identity segments and the host id, joined
with single blanks. `RemarksTidy` states when they hold no doubled or outer
blank. The squawk, category and type must be tidy. The host id, flight,
registration and hex must be empty or tidy.
- A squawk, category or type that is only white space still adds its label
  (`Squawk: ` followed by nothing). This leaves two blanks in a row, as
  `BlankSquawkLeavesDoubleSpace` shows.
- `strip()` keeps inner runs of blanks, so a field such as `A  B` keeps its
  double blank too.

## Model

| member | source | states |
|---|---|---|
| PyText.Strip | adsbxcot/functions.py:72-73 | the stripped text is no longer than the input and neither starts nor ends with white space |
| PyText.StripSplits | adsbxcot/functions.py:72-73 | `strip()` keeps a contiguous middle of the text and removes only white space on either side of it |
| PyText.StripPadded | adsbxcot/functions.py:72-73 | stripping white-space padding around a trimmed core gives exactly that core |
| PyText.StripOfTrimmed | adsbxcot/functions.py:72-73 | `strip()` leaves text without surrounding white space unchanged |
| PyText.StripAllSpace | adsbxcot/functions.py:72-73 | `strip()` turns white-space-only text into the empty string |
| PyText.Upper | adsbxcot/functions.py:72-73 | `upper()` keeps the length and maps each character through the ASCII upper-case map |
| PyText.NormalizeShape | adsbxcot/classes.py:74-76 | `strip().upper()` is no longer than its input, has no surrounding white space and no lower-case ASCII letter |
| PyText.UpperChar | adsbxcot/functions.py:72-73 | a lower-case ASCII letter becomes its capital; every other character is kept, so white space stays white space |
| PyText.UpperAppend | adsbxcot/functions.py:72-73 | `upper()` distributes over concatenation |
| PyText.UpperTwice | adsbxcot/functions.py:72-73 | `upper()` is idempotent |
| PyText.StripUpper | adsbxcot/classes.py:74-76 | stripping and upper-casing commute |
| PyText.NormalizeIdempotent | adsbxcot/classes.py:95-97 | `strip().upper()` applied twice equals applying it once, so a record key and a normalised row cell compare alike |
| PyText.StripIgnoresPadding | adsbxcot/classes.py:95-97 | added white-space padding does not change what `strip()` yields |
| PyText.NormalizeIgnoresCaseAndPadding | adsbxcot/classes.py:95-97 | a known-craft cell differing from a key only by case and surrounding white space normalises to the same text |
| PyText.Contains | adsbxcot/classes.py:78 | `m in s` holds exactly when `m` occurs at some position of `s` |
| PyText.NonEmpty | adsbxcot/functions.py:164 | `filter(None, ...)` keeps exactly the non-empty strings, never adding one |
| PyText.JoinSpace | adsbxcot/functions.py:164 | `" ".join` of no strings is ""; otherwise its length is the total length plus one blank between neighbours, and it starts with the first string |
| PyText.JoinTidy | adsbxcot/functions.py:164 | joining segments that have no outer or doubled blanks with single spaces never yields a double blank |
| PyText.ParseInt | adsbxcot/classes.py:42 | `int(text)` succeeds only on text holding a decimal digit; `None` stands for the `ValueError` |
| PyText.NatText | adsbxcot/classes.py:42 | the decimal text of a natural number is non-empty and all digits |
| PyText.DigitsOfNatText | adsbxcot/classes.py:42 | the digits of `n` read back as `n` |
| PyText.ParseIntText | adsbxcot/classes.py:42 | `int(str(n)) == n` for every integer `n`, negative ones included |
| AdsbxFunctions.IntegerFieldText | adsbxcot/functions.py:129-144 | an integer `lat`, `lon`, `nac_p`, `nac_v` or `track` is written into the event as its decimal text, and a float `track` as Python's float text, so `8` and `8.0` stay apart |
| AdsbxFunctions.ReadField | adsbxcot/functions.py:72-100 | the raw value is kept; a field is normalised exactly when it is truthy, and then its text is the raw string stripped and upper-cased |
| AdsbxFunctions.Uid | adsbxcot/functions.py:102-113 | there is no UID exactly when flight and hex are both empty; `FLIGHT-` wins when `UID_KEY` names FLIGHT and there is a flight; otherwise `ICAO-` when there is a hex, else `FLIGHT-` |
| AdsbxFunctions.ChooseUid | adsbxcot/functions.py:102-113 | the two UID chains as written (a `REG-`/`ICAO-` choice, then an unconditional re-choice) give exactly `Uid`, and never a UID starting with `REG-` |
| AdsbxFunctions.Appended | adsbxcot/functions.py:72-100 | the six `if field:` blocks append at most one segment per field |
| AdsbxFunctions.RemarkFields | adsbxcot/functions.py:56-162 | `remarks_fields` holds one to seven entries, the last being the host id |
| AdsbxFunctions.AdsbxToCotXml | adsbxcot/functions.py:41-182 | no event without `lat`/`lon`; with a position, an event exactly when flight or hex is non-empty. Its version is 2.0 and how is m-g. The event and detail UID is the chosen UID. lat and lon are `str()` of the record's values, an integer written as its decimal text. ce, le and course fall back to 9999999.0. The user icon is set exactly when the known craft has a non-empty `ICON`, with that path. `Droid` is the callsign. time, start and stale are three separate clock reads: `cot_time()`, `cot_time()` and `cot_time(COT_STALE or default)`. The `_aircot_` host id is `COT_HOST_ID` or the default, and its flight, reg, squawk, icao, cat and type are the normalised fields. The remarks are the non-empty identity segments followed by the host id, joined by single blanks |
| AdsbxFunctions.AdsbxToCot | adsbxcot/functions.py:185-190 | no bytes exactly when there is no event; otherwise the serialisation of that event |
| AdsbxFunctions.NoRegistrationUid | adsbxcot/functions.py:102-113 | whatever `UID_KEY` says, no UID starts with `REG-` |
| AdsbxFunctions.RegistrationOnlyYieldsNothing | adsbxcot/functions.py:102-113 | a positioned record with a registration but no hex, icao or flight yields no event |
| AdsbxFunctions.NonEmptyAppend | adsbxcot/functions.py:164 | dropping empty strings distributes over concatenation |
| AdsbxFunctions.NonEmptyDropsBlank | adsbxcot/functions.py:164 | an empty entry among the remarks fields does not change the filtered list |
| AdsbxFunctions.BlankField | adsbxcot/functions.py:72-74 | a white-space-only field is truthy and normalises to ""; an empty field is falsy |
| AdsbxFunctions.BlankIdentityLeavesRemarks | adsbxcot/functions.py:72-90 | a white-space-only flight, registration or hex gives the same remarks as an empty one |
| AdsbxFunctions.BlankLeavesRemarks | adsbxcot/functions.py:160-166 | two identities differing only in one of those fields, blank in one and absent in the other, give the same remarks |
| AdsbxFunctions.SameOtherFields | adsbxcot/functions.py:65-100 | setting flight, registration or hex to a blank or to "" changes only that field of the identity |
| AdsbxFunctions.BlankSquawkLeavesDoubleSpace | adsbxcot/functions.py:82-85 | a record with hex `A1` and squawk `" "` gets the remarks `Squawk:  A1 h`, with two blanks in a row |
| AdsbxFunctions.LabelTidy | adsbxcot/functions.py:84 | a label ending in its only blank, followed by a value without outer or doubled blanks, gives such a segment |
| AdsbxFunctions.AppendedTidy | adsbxcot/functions.py:72-100 | when each labelled field gives an empty or tidy segment, every appended segment is empty or tidy |
| AdsbxFunctions.RemarksTidy | adsbxcot/functions.py:160-166 | with a tidy squawk, category and type and an empty-or-tidy host id, flight, registration and hex, the remarks text has no doubled or outer blank |
| AdsbxClasses.FirstFilterName | adsbxcot/classes.py:175-181 | the first of HEX, FLIGHT, REG the source holds, with the earlier names absent; `None` exactly when it holds none |
| AdsbxClasses.DeriveFilterType | adsbxcot/classes.py:172-182 | the filter type is the previous one or HEX, FLIGHT or REG. It is unchanged without filters or a known-craft table, with a falsy source, or when the source holds none of the three. Otherwise it is the first name the source holds |
| AdsbxClasses.KnownCraftFilterType | adsbxcot/classes.py:164-182 | with a known-craft table the filter type becomes the key column when that is HEX, FLIGHT or REG, and stays as it was otherwise |
| AdsbxClasses.FilterTextPrecedence | adsbxcot/classes.py:172-182 | a `FILTERS` text mentioning HEX selects HEX; one mentioning none of the three changes nothing |
| AdsbxClasses.StaleSetting | adsbxcot/classes.py:41 | no `COT_STALE` gives the converter's default; otherwise the option is read with `int`, and non-integer text is the raise |
| AdsbxClasses.FilterKey | adsbxcot/classes.py:83-91 | the record's hex, flight or registration by filter type, "" for any other type |
| AdsbxClasses.KeysNormalised | adsbxcot/classes.py:74-76 | the worker's hex, flight and registration keys are already normalised |
| AdsbxClasses.KeyCells | adsbxcot/classes.py:170 | one normalised key cell per table row, in row order |
| AdsbxClasses.MatchingRows | adsbxcot/classes.py:95-97 | the rows kept by the filter are exactly the table rows whose normalised key cell equals the key |
| AdsbxClasses.FirstMatchIsEarliest | adsbxcot/classes.py:95-98 | the known craft is `{}` exactly when no row matches; otherwise it is the earliest matching row |
| AdsbxClasses.FirstMatchFound | adsbxcot/classes.py:95-98 | a non-empty first match sits at a matching row with no matching row before it |
| AdsbxClasses.KnownCraft | adsbxcot/classes.py:81-98 | `{}` unless a filter type is set, the record has a key for it and a table is loaded; a non-empty known craft is a table row whose normalised key cell equals the key |
| AdsbxClasses.UnknownMeansNoMatch | adsbxcot/classes.py:81-109 | with a table and without `INCLUDE_ALL_CRAFT`, a record is skipped as unknown exactly when there is no filter type, no key for it, or no row whose key cell matches |
| AdsbxClasses.TisbSkipNeverRaises | adsbxcot/classes.py:74-79 | a readable TIS-B record that is excluded is skipped, whatever the filters and the table hold |
| AdsbxClasses.Decide | adsbxcot/classes.py:71-131 | a record raises exactly when it is not handleable. It is skipped as TIS-B exactly when its hex holds `~` and TIS-B is excluded. It is skipped as unknown exactly when the table has no row for it. For a converted record, it is emitted exactly when the converter returns non-empty bytes, and the event is those bytes (the serialised conversion with the worker's config and its known craft) |
| AdsbxClasses.Admit | adsbxcot/classes.py:78-120 | for a record that does not raise (the others get `Raises` from `Decide`): skipped as TIS-B exactly when gated, as unknown exactly when the lookup finds no row; for a converted record, emitted exactly when the converter returns non-empty bytes, which are the event |
| AdsbxClasses.Convert | adsbxcot/classes.py:107-120 | skipped exactly when unknown; otherwise emitted exactly when the converter returns non-empty bytes, and the event is those bytes |
| AdsbxClasses.Reached | adsbxcot/classes.py:71 | the number of records handled before the first that raises; every verdict before it does not raise |
| AdsbxClasses.Emitted | adsbxcot/classes.py:117-131 | no more events are queued than there are records |
| AdsbxClasses.EmittedConcat | adsbxcot/classes.py:71-131 | after a stretch without a raise, the rest's events follow on |
| AdsbxClasses.EmittedStopsAtRaise | adsbxcot/classes.py:71-131 | once a record raises, nothing after it is queued |
| AdsbxClasses.EmittedStep | adsbxcot/classes.py:117-131 | a record that does not raise adds exactly what it queues |
| AdsbxClasses.EmittedAtRaise | adsbxcot/classes.py:71-131 | the first raise at position `i` ends the run with the events of the first `i` records |
| AdsbxClasses.EmittedOrigins | adsbxcot/classes.py:71-131 | each queued event comes from its own emitting verdict before the first raise, in order, and every such verdict contributes |
| AdsbxClasses.PipelineConcat | adsbxcot/classes.py:71-131 | handling two lists in turn, the first without a raise, queues what handling their concatenation queues |
| AdsbxClasses.PipelineOrigins | adsbxcot/classes.py:71-131 | each queued event is the event of its own record, in record order, and every emitting record before the first raise contributes |
| AdsbxClasses.StaleReachesEvent | adsbxcot/classes.py:111-115 | with the worker's `COT_STALE` handed to the converter, an option text `n` gives every queued event the stale time `cot_time(n)`, and no option gives the default |
| AdsbxClasses.DecideAsWritten | adsbxcot/classes.py:111-115 | as written, no record is ever emitted; a record raises exactly when it fails the tests before the call or reaches the call |
| AdsbxClasses.AsWrittenQueuesNothing | adsbxcot/classes.py:111-115 | as written, `handle_message` queues nothing for any list of records |
| AdsbxClasses.StaleKeywordRaises | adsbxcot/classes.py:111-115 | every record the corrected call converts raises as written |
| AdsbxClasses.PollIntervalRoundTrip | adsbxcot/classes.py:42 | a `POLL_INTERVAL` of `str(n)` is read back as `n`; an empty one gives the default of 30 |
| AdsbxClasses.PollInterval | adsbxcot/classes.py:42 | a non-empty `POLL_INTERVAL` is the integer its text parses to; a missing or empty one gives the default |
| AdsbxClasses.FalseTextIsOn | adsbxcot/classes.py:45 | `INCLUDE_TISB = false` turns TIS-B records on, since any non-empty text is truthy |
| AdsbxClasses.AdsbxWorker.constructor | adsbxcot/classes.py:37-53 | every option is read as the source reads it. The poll interval defaults to 30 and the key column to HEX. Flags are on for any non-empty text. The filter type starts empty, with no table loaded, and the queue is the given one |
| AdsbxClasses.AdsbxWorker.SelectFilterType | adsbxcot/classes.py:164-182 | loads the table and replaces the filters when a known-craft file is set. It raises exactly for the key column `DEFAULT`, a row without the key column, or an `include` text (the `str()` of the normalised key cells) that interpolation rejects. Otherwise the filter type is the derived one, the key column itself when that is HEX, FLIGHT or REG |
| AdsbxClasses.AdsbxWorker.HandleMessage | adsbxcot/classes.py:56-131 | anything but a list queues nothing and does not raise. For a list it raises exactly when some record's verdict raises, and the queue grows by exactly the events its verdicts emit, in order |
| AdsbxClasses.AdsbxWorker.HandleRecords | adsbxcot/classes.py:71-131 | the loop raises exactly when a verdict raises and queues exactly the emitted events |
| AdsbxClasses.AdsbxWorker.HandleRecordAt | adsbxcot/classes.py:71-131 | one pass raises exactly when that record's verdict does and queues what that verdict queues |
| AdsbxClasses.AdsbxWorker.HandleRecord | adsbxcot/classes.py:74-131 | one record: raises exactly on `Raises`, otherwise queues what `Decide` queues |
| AdsbxClasses.AdsbxWorker.AdmitRecord | adsbxcot/classes.py:78-131 | for a record that does not raise, the TIS-B gate, the lookup and the conversion queue what `Admit` says |
| AdsbxClasses.AdsbxWorker.ConvertRecord | adsbxcot/classes.py:107-131 | the unknown skip, conversion and `put` queue what `Convert` says |
| AdsbxClasses.AdsbxWorker.LookupAndConvert | adsbxcot/classes.py:81-131 | for a record past the TIS-B gate, queues what `Convert` says for its known craft |
| AdsbxClasses.AdsbxWorker.LookupKnownCraft | adsbxcot/classes.py:81-98 | the lookup loop body yields exactly `KnownCraft` for the record's keys |
| Interpolation.DropEscapes | adsbxcot/classes.py:169-170 | removing `%%` escapes never lengthens the text nor adds a character |
| Interpolation.CloseParen | adsbxcot/classes.py:169-170 | the index of the first `)`, or the length when there is none |
| Interpolation.RefLength | adsbxcot/classes.py:169-170 | a reference found at the start is at least five characters long and starts with `%` |
| Interpolation.DropRefs | adsbxcot/classes.py:169-170 | removing `%(name)s` references never lengthens the text nor adds a character |
| Interpolation.NoPercentAccepted | adsbxcot/classes.py:169-170 | a value without `%` is accepted |
| Interpolation.DropEscapesPrefix | adsbxcot/classes.py:169-170 | a prefix without `%` passes escape removal unchanged |
| Interpolation.DropRefsPrefix | adsbxcot/classes.py:169-170 | a prefix without `%` passes reference removal unchanged |
| Interpolation.LonePercentRejected | adsbxcot/classes.py:169-170 | a value with one `%` that does not open a reference is rejected, so a key cell such as `N1%` makes `run` raise |

## Findings

| source | as written | input that shows it | evidently intended | confidence | as-written member | corrected member |
|---|---|---|---|---|---|---|
| adsbxcot/classes.py:111-115 | `handle_message` calls `adsbx_to_cot(craft, stale=self.cot_stale, known_craft=known_craft)`. `adsbx_to_cot` (adsbxcot/functions.py:185-187) has no `stale` parameter, so every record that reaches the call raises `TypeError` and no event is ever queued | a worker with no filters and no known-craft file, given `[{"lat": 1, "lon": 2, "hex": "A1"}]` | hand the worker's `COT_STALE` to the converter as its config (`config={"COT_STALE": ...}`), so the option sets each event's stale time | not executed | AdsbxClasses.DecideAsWritten | AdsbxClasses.StaleReachesEvent |

The rest of the model (`Decide`, `HandleMessage`) uses the corrected call.
`AsWrittenQueuesNothing` and `StaleKeywordRaises` state what the call as
written does instead.

## Left out

- Fetching the feed (`_get_adsbx_feed`: HTTP headers, `aiohttp`, the JSON body's `ac` list) is not modelled. It is network I/O, so the feed arrives as the `Feed` parameter of `HandleMessage`.
- The polling loop and `asyncio.sleep` in `run` (adsbxcot/classes.py:184-186) are not modelled; they are a timer loop with no state of its own.
- `create_tasks` and adsbxcot/commands.py (command-line entry, config file reading) are not modelled; they are wiring only.
- The aircot helpers, `pytak.cot_time`, pytak's defaults and `ET.tostring` are not modelled. They are foreign code, so they are parameters (`Foreign`). Their results are only carried into the event.
- The wall clock read by `cot_time()` is not modelled. It is the foreign `cotTime` function, told which of the three reads of one conversion it serves (`time`, `start`, `stale`), so the model does not equate them. The same function serves every record of a batch, so every record of one batch gets the same three timestamps (for one `COT_STALE`), where the source reads the clock again for each record.
- PyText.UpperChar: only ASCII letters are mapped; any other character, `é` included, is kept, where Python maps it to its capital.
- PyText.Upper: only ASCII letters are upper-cased. Python also maps other Unicode letters (and some to several characters).
- PyText.ParseInt: underscores between digits and non-ASCII digits, which Python's `int` also accepts, are refused.
- The include/exclude branch of `handle_message` (adsbxcot/classes.py:100-104) is modelled only as raising. It indexes the `FILTERS` text by a string (`TypeError`), or reaches `self.filters.get(filter_type, ...)` with the undefined name `filter_type` (`NameError`), so it always raises. A record that reaches it gets the verdict `Raises`.
- AdsbxClasses.AdsbxWorker.SelectFilterType: the `include` value written into the new filter section (adsbxcot/classes.py:169-170) is not kept, only whether interpolation accepts it, because nothing reads it back.
- AdsbxClasses.AdsbxWorker.constructor: requires a `POLL_INTERVAL` that `int` accepts, where the source raises `ValueError` during construction.
- The record counter `_acn` and the log messages are not modelled; they affect nothing but logging.
- JSON booleans, arrays and objects in a record are not modelled. `Value` holds null, strings, integers and floats. Python's text for a float (its shortest round-trip form) is the foreign `floatText`.
- Known-craft cells are assumed to be strings (`Row` maps to text). `csv.DictReader` fills the missing cells of a short row with `None`, and `.strip()` on such a key cell raises `AttributeError` (adsbxcot/classes.py:97 and 170); the model does not represent it.
- The URL is kept as its option text; `urllib.parse.urlparse` is not modelled.
- `_put_event_queue` is modelled as appending to the `queue` field. Queue capacity and waiting on a full queue are not modelled.
- AdsbxFunctions.AdsbxToCotXml: the CoT type, the callsign, `hae` and `speed` come from aircot helpers that are not modelled; the contract states only that `Droid` equals the callsign.
- AdsbxFunctions.AdsbxToCotXml: requires string identity fields on a record with a position (`IdentityStripSafe`). In the source a non-string hex, registration, flight, category, squawk or type raises `AttributeError` (adsbxcot/functions.py:72-98). Inside `handle_message` that raise is modelled: such a record gets `Raises` from `Decide`.
- AdsbxFunctions.AdsbxToCot: the same `IdentityStripSafe` requirement, for the same reason.
- AdsbxFunctions.AdsbxToCotXml: `COT_STALE` arrives already read as an integer (`Config.cotStale`). The `ValueError` of `int()` on non-integer text (adsbxcot/functions.py:59) is modelled on the worker side by `StaleSetting`, since the worker is the only caller that passes it.
- Every element of the feed list is a dictionary (`Feed` holds `Craft` values). A non-dictionary element raises `AttributeError` at adsbxcot/classes.py:74; the model does not represent it.
- AdsbxClasses.AdsbxWorker.SelectFilterType: Python's `str()` of a list of strings is the parameter `listText`, not modelled; only what interpolation then makes of it is.
- The worker supplies only `COT_STALE` to the converter. `UID_KEY` and `COT_HOST_ID` take the converter's defaults, since the worker has no such options.
- Interpolation: only the validation made when a value is set is modelled; reading a value back (substituting references) is not, because nothing reads the `include` value.
