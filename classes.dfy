/**
 * The ADS-B Exchange worker: its settings, how it derives the filter type
 * from its options and the known-craft table, and how it turns one fetched
 * aircraft list into Cursor-on-Target events on its transmit queue.
 */
module AdsbxClasses {
  import opened Wrappers
  import opened PyText
  import opened Aircraft
  import opened AdsbxFunctions
  import Interpolation

  /** `DEFAULT_POLL_INTERVAL`, in seconds. */
  const DefaultPollInterval := 30

  /** What the feed handed to `handle_message`: a list of aircraft records or
      anything else. */
  datatype Feed = AircraftList(records: seq<Craft>) | NotAList

  /** The worker's `filters` attribute: absent, the `FILTERS` option text, or
      the `ConfigParser` built from the known-craft table (only its section
      names matter to the model). */
  datatype FilterSource = NoFilters | FilterText(text: string) | FilterSections(names: seq<string>)
  {
    /** Python truthiness: a `ConfigParser` always holds its `DEFAULT`
        section, so it is never empty. */
    predicate Truthy() {
      match this
      case NoFilters => false
      case FilterText(t) => t != ""
      case FilterSections(_) => true
    }

    /** `name in filters`: a substring test on text, a section test on a
        `ConfigParser` (which always holds `DEFAULT`). */
    predicate Has(name: string) {
      match this
      case NoFilters => false
      case FilterText(t) => Contains(t, name)
      case FilterSections(ns) => name == "DEFAULT" || name in ns
    }
  }

  /** Python truthiness of the known-craft table (`None` or a list). */
  predicate DbTruthy(db: Option<seq<Row>>) {
    db.Some? && |db.value| > 0
  }

  /** Every row has the key column, so `row[key]` cannot raise. */
  predicate Keyed(rows: seq<Row>, key: string) {
    forall i :: 0 <= i < |rows| ==> key in rows[i]
  }

  /** `[x[key].strip().upper() for x in rows]`. */
  function {:induction false} KeyCells(rows: seq<Row>, key: string): (r: seq<string>)
    requires Keyed(rows, key)
    ensures |r| == |rows|
    ensures forall i :: 0 <= i < |rows| ==> r[i] == Normalize(rows[i][key])
  {
    if rows == [] then []
    else
      assert Keyed(rows[1..], key);
      [Normalize(rows[0][key])] + KeyCells(rows[1..], key)
  }

  /** The filter source `run` inspects: `filters or known_craft_key`. */
  function SourceOf(filters: FilterSource, key: string): FilterSource {
    if filters.Truthy() then filters else FilterText(key)
  }

  /** The first of `HEX`, `FLIGHT` and `REG` that the source holds, or `None`. */
  function FirstFilterName(src: FilterSource): (r: Option<string>)
    ensures r.Some? ==> src.Has(r.value)
    ensures r == Some("FLIGHT") ==> !src.Has("HEX")
    ensures r == Some("REG") ==> !src.Has("HEX") && !src.Has("FLIGHT")
    ensures r.None? <==> !src.Has("HEX") && !src.Has("FLIGHT") && !src.Has("REG")
  {
    if src.Has("HEX") then Some("HEX")
    else if src.Has("FLIGHT") then Some("FLIGHT")
    else if src.Has("REG") then Some("REG")
    else None
  }

  /** The filter type `run` settles on before polling, given the filter
      type held before (`prev`). */
  function DeriveFilterType(filters: FilterSource, db: Option<seq<Row>>, key: string, prev: string): (r: string)
    ensures r == prev || r == "HEX" || r == "FLIGHT" || r == "REG"
    ensures !filters.Truthy() && !DbTruthy(db) ==> r == prev
    ensures (filters.Truthy() || DbTruthy(db)) && SourceOf(filters, key).Truthy()
            && FirstFilterName(SourceOf(filters, key)).Some?
            ==> r == FirstFilterName(SourceOf(filters, key)).value
    ensures !SourceOf(filters, key).Truthy() ==> r == prev
    ensures FirstFilterName(SourceOf(filters, key)).None? ==> r == prev
  {
    if filters.Truthy() || DbTruthy(db) then
      var src := SourceOf(filters, key);
      if src.Truthy() then FirstFilterName(src).GetOr(prev) else prev
    else prev
  }

  /** With a known-craft table the filters are one section named after the
      key column, so the filter type is that key when it is one of `HEX`,
      `FLIGHT`, `REG`, and stays as it was otherwise, whatever the table. */
  lemma KnownCraftFilterType(key: string, db: Option<seq<Row>>, prev: string)
    requires key != "DEFAULT"
    ensures DeriveFilterType(FilterSections([key]), db, key, prev)
         == if key in ["HEX", "FLIGHT", "REG"] then key else prev
  {
    var src := FilterSections([key]);
    assert src.Has("HEX") <==> key == "HEX";
    assert src.Has("FLIGHT") <==> key == "FLIGHT";
    assert src.Has("REG") <==> key == "REG";
  }

  /** A `FILTERS` text naming `HEX` anywhere selects `HEX`, even when it also
      names another key; one naming none of the three changes nothing. */
  lemma FilterTextPrecedence(text: string, db: Option<seq<Row>>, key: string, prev: string)
    requires text != ""
    ensures Contains(text, "HEX") ==> DeriveFilterType(FilterText(text), db, key, prev) == "HEX"
    ensures !Contains(text, "HEX") && !Contains(text, "FLIGHT") && !Contains(text, "REG")
            ==> DeriveFilterType(FilterText(text), db, key, prev) == prev
  {
  }

  /** What `handle_message` reads from the worker. */
  datatype WorkerSettings = WorkerSettings(
    includeTisb: bool,
    includeAllCraft: bool,
    knownCraftKey: string,
    filterType: string,
    knownCraftDb: Option<seq<Row>>,
    cotStale: Option<string>)

  /** `int(config.get("COT_STALE", ...))` on the worker's `COT_STALE`
      option: `Some(None)` when it is absent (the converter's default
      applies), `None` when its text is not an integer (`int` raises). */
  function StaleSetting(s: WorkerSettings): (r: Option<Option<int>>)
    ensures s.cotStale.None? ==> r == Some(None)
    ensures s.cotStale.Some? ==> (r.Some? <==> ParseInt(s.cotStale.value).Some?)
    ensures r.Some? && r.value.Some? ==> r.value == ParseInt(s.cotStale.value)
  {
    match s.cotStale
    case None => Some(None)
    case Some(t) =>
      match ParseInt(t)
      case None => None
      case Some(n) => Some(Some(n))
  }

  /** The configuration the worker hands the converter: its `COT_STALE`. */
  function ConverterConfig(s: WorkerSettings): Config {
    Config(None, StaleSetting(s).GetOr(None), None)
  }

  /** `craft.get("hex", craft.get("icao"))`: unlike the converter, the
      worker has no "" default, so a record with neither key yields `None`. */
  function IcaoValue(craft: Craft): Value {
    GetOr(craft, "hex", Get(craft, "icao"))
  }

  /** The three keys the worker strips unconditionally are strings. */
  predicate Readable(craft: Craft) {
    && IcaoValue(craft).Str?
    && GetOr(craft, "flight", Str("")).Str?
    && GetOr(craft, "r", Str("")).Str?
  }

  /** The record's ICAO hex, flight and registration, stripped and upper-cased. */
  datatype Keys = Keys(icao: string, flight: string, reg: string)

  function KeysOf(craft: Craft): Keys
    requires Readable(craft)
  {
    Keys(Normalize(IcaoValue(craft).s), Normalize(GetOr(craft, "flight", Str("")).s),
         Normalize(GetOr(craft, "r", Str("")).s))
  }

  /** The keys are already normalised, so comparing them with a normalised
      known-craft cell compares two normalised texts. */
  lemma KeysNormalised(craft: Craft)
    requires Readable(craft)
    ensures var k := KeysOf(craft);
      Normalize(k.icao) == k.icao && Normalize(k.flight) == k.flight && Normalize(k.reg) == k.reg
  {
    NormalizeIdempotent(IcaoValue(craft).s);
    NormalizeIdempotent(GetOr(craft, "flight", Str("")).s);
    NormalizeIdempotent(GetOr(craft, "r", Str("")).s);
  }

  /** A TIS-B record (its hex holds `~`) the settings do not include. */
  predicate TisbSkipped(s: WorkerSettings, k: Keys) {
    Contains(k.icao, "~") && !s.includeTisb
  }

  /** The key a record is looked up by, chosen by the filter type. */
  function FilterKey(filterType: string, k: Keys): (r: string)
    ensures filterType == "HEX" ==> r == k.icao
    ensures filterType == "FLIGHT" ==> r == k.flight
    ensures filterType == "REG" ==> r == k.reg
    ensures filterType !in ["HEX", "FLIGHT", "REG"] ==> r == ""
  {
    if filterType == "HEX" then k.icao
    else if filterType == "FLIGHT" then k.flight
    else if filterType == "REG" then k.reg
    else ""
  }

  /** The row's key column normalised equals the record's key. */
  predicate RowMatches(row: Row, key: string, fk: string)
    requires key in row
  {
    Normalize(row[key]) == fk
  }

  /** `filter(lambda x: ..., known_craft_db)`: the matching rows, in order. */
  function {:induction false} MatchingRows(rows: seq<Row>, key: string, fk: string): (r: seq<Row>)
    requires Keyed(rows, key)
    ensures |r| <= |rows|
    ensures forall row :: row in r <==> row in rows && key in row && RowMatches(row, key, fk)
    ensures |r| > 0 && |rows| > 0 && RowMatches(rows[0], key, fk) ==> r[0] == rows[0]
  {
    if rows == [] then []
    else
      var rest := MatchingRows(rows[1..], key, fk);
      assert Keyed(rows[1..], key);
      if RowMatches(rows[0], key, fk) then [rows[0]] + rest else rest
  }

  /** `(list(filter(...)) or [{}])[0]`: the first matching row, or `{}`. */
  function FirstMatch(rows: seq<Row>, key: string, fk: string): Row
    requires Keyed(rows, key)
  {
    var m := MatchingRows(rows, key, fk);
    if |m| > 0 then m[0] else map[]
  }

  /** The first match is the earliest matching row; `{}` means no row matches. */
  lemma FirstMatchIsEarliest(rows: seq<Row>, key: string, fk: string)
    requires Keyed(rows, key)
    ensures FirstMatch(rows, key, fk) == map[] ==>
      forall i :: 0 <= i < |rows| ==> !RowMatches(rows[i], key, fk)
    ensures FirstMatch(rows, key, fk) != map[] ==>
      exists i :: 0 <= i < |rows| && rows[i] == FirstMatch(rows, key, fk) && RowMatches(rows[i], key, fk)
        && forall j :: 0 <= j < i ==> !RowMatches(rows[j], key, fk)
  {
    var m := MatchingRows(rows, key, fk);
    if |m| > 0 {
      assert m[0] in m;
    }
    if FirstMatch(rows, key, fk) != map[] {
      var i := FirstMatchFound(rows, key, fk);
    } else {
      forall i | 0 <= i < |rows|
        ensures !RowMatches(rows[i], key, fk)
      {
        assert rows[i] in rows && rows[i] !in m;
      }
    }
  }

  /** Where the first match sits: at the earliest matching row. */
  lemma {:induction false} FirstMatchFound(rows: seq<Row>, key: string, fk: string) returns (i: nat)
    requires Keyed(rows, key) && FirstMatch(rows, key, fk) != map[]
    ensures i < |rows| && rows[i] == FirstMatch(rows, key, fk) && RowMatches(rows[i], key, fk)
    ensures forall j :: 0 <= j < i ==> !RowMatches(rows[j], key, fk)
  {
    if RowMatches(rows[0], key, fk) {
      i := 0;
    } else {
      var t := rows[1..];
      assert Keyed(t, key);
      assert MatchingRows(rows, key, fk) == MatchingRows(t, key, fk);
      var i' := FirstMatchFound(t, key, fk);
      i := i' + 1;
      assert rows[i] == t[i'];
      forall j | 0 <= j < i
        ensures !RowMatches(rows[j], key, fk)
      {
        if j > 0 {
          assert rows[j] == t[j - 1];
        }
      }
    }
  }

  /** The known craft the worker hands to the converter: `{}` unless a
      filter type is set, the record has a key for it and a table is loaded;
      then the earliest row whose key cell matches, or `{}`. */
  function KnownCraft(s: WorkerSettings, k: Keys): (r: Row)
    requires DbTruthy(s.knownCraftDb) && s.filterType != "" && FilterKey(s.filterType, k) != ""
             ==> Keyed(s.knownCraftDb.value, s.knownCraftKey)
    ensures !(DbTruthy(s.knownCraftDb) && s.filterType != "" && FilterKey(s.filterType, k) != "") ==> r == map[]
    ensures r != map[] ==>
      && DbTruthy(s.knownCraftDb) && s.filterType != "" && FilterKey(s.filterType, k) != ""
      && var rows := s.knownCraftDb.value;
      && exists i :: 0 <= i < |rows| && rows[i] == r && RowMatches(rows[i], s.knownCraftKey, FilterKey(s.filterType, k))
  {
    var fk := FilterKey(s.filterType, k);
    if s.filterType != "" && DbTruthy(s.knownCraftDb) && fk != "" then
      FirstMatchIsEarliest(s.knownCraftDb.value, s.knownCraftKey, fk);
      FirstMatch(s.knownCraftDb.value, s.knownCraftKey, fk)
    else map[]
  }

  /** With a known-craft table and without `INCLUDE_ALL_CRAFT`, a record is
      skipped as unknown exactly when no lookup happens (no filter type, or
      an empty key for it) or no row of the table matches its key. */
  lemma UnknownMeansNoMatch(s: WorkerSettings, k: Keys)
    requires DbTruthy(s.knownCraftDb) && s.filterType != "" && FilterKey(s.filterType, k) != ""
             ==> Keyed(s.knownCraftDb.value, s.knownCraftKey)
    ensures Unknown(s, KnownCraft(s, k)) <==>
      && DbTruthy(s.knownCraftDb) && !s.includeAllCraft
      && (|| s.filterType == "" || FilterKey(s.filterType, k) == ""
          || var rows := s.knownCraftDb.value;
             forall i :: 0 <= i < |rows| ==> !RowMatches(rows[i], s.knownCraftKey, FilterKey(s.filterType, k)))
  {
    var fk := FilterKey(s.filterType, k);
    if DbTruthy(s.knownCraftDb) && s.filterType != "" && fk != "" {
      FirstMatchIsEarliest(s.knownCraftDb.value, s.knownCraftKey, fk);
    }
  }

  /** A record reaches the include/exclude lookup of the `FILTERS` option:
      a filter type is set, the record has a key for it, and there is no
      known-craft table. That lookup raises (it indexes a string by a string,
      or names an undefined `filter_type`), so no handled record may get there. */
  predicate ReachesFilterLookup(s: WorkerSettings, k: Keys) {
    !TisbSkipped(s, k) && s.filterType != "" && FilterKey(s.filterType, k) != "" && !DbTruthy(s.knownCraftDb)
  }

  /** With a known-craft table, a record found in no row is skipped unless
      all craft are included. */
  predicate Unknown(s: WorkerSettings, known: Row) {
    DbTruthy(s.knownCraftDb) && known == map[] && !s.includeAllCraft
  }

  /** The record is converted rather than skipped before conversion. */
  predicate Converted(s: WorkerSettings, k: Keys)
    requires !TisbSkipped(s, k) && DbTruthy(s.knownCraftDb) && s.filterType != "" && FilterKey(s.filterType, k) != ""
             ==> Keyed(s.knownCraftDb.value, s.knownCraftKey)
  {
    !TisbSkipped(s, k) && !Unknown(s, KnownCraft(s, k))
  }

  /** `handle_message` gets as far as the converter call without raising. */
  predicate Screenable(s: WorkerSettings, craft: Craft) {
    && Readable(craft)
    && var k := KeysOf(craft);
    && !ReachesFilterLookup(s, k)
    && (!TisbSkipped(s, k) && DbTruthy(s.knownCraftDb) && s.filterType != "" && FilterKey(s.filterType, k) != ""
        ==> Keyed(s.knownCraftDb.value, s.knownCraftKey))
  }

  /** The converter does not raise on this record: past the position check
      it reads `COT_STALE` with `int` and strips the identity fields. */
  predicate ConvertSafe(s: WorkerSettings, craft: Craft) {
    HasPosition(craft) ==> StaleSetting(s).Some? && IdentityStripSafe(craft)
  }

  /** `handle_message` gets through this record without raising. */
  predicate Handleable(s: WorkerSettings, craft: Craft) {
    Screenable(s, craft) && (Converted(s, KeysOf(craft)) ==> ConvertSafe(s, craft))
  }

  /** What `handle_message` does with one record: raise (ending the call),
      skip it for one of three reasons, or queue its event. */
  datatype Verdict = Raises | SkipTisb | SkipUnknown | SkipEmpty | Emit(event: Bytes)

  /** A readable TIS-B record the settings exclude is skipped, whatever the
      filters and the known-craft table hold: the TIS-B test comes before any
      lookup. */
  lemma TisbSkipNeverRaises(s: WorkerSettings, craft: Craft, f: Foreign)
    requires Readable(craft) && TisbSkipped(s, KeysOf(craft))
    ensures Decide(s, craft, f) == SkipTisb
  {
    assert Handleable(s, craft);
  }

  function Decide(s: WorkerSettings, craft: Craft, f: Foreign): (r: Verdict)
    ensures r == Raises <==> !Handleable(s, craft)
    ensures r == SkipTisb <==> Handleable(s, craft) && TisbSkipped(s, KeysOf(craft))
    ensures r == SkipUnknown <==>
      Handleable(s, craft) && !TisbSkipped(s, KeysOf(craft)) && Unknown(s, KnownCraft(s, KeysOf(craft)))
    ensures r.Emit? ==>
      && Handleable(s, craft) && Converted(s, KeysOf(craft))
      && HasPosition(craft)
      && var id := ReadIdentity(craft);
      && (Text(id.flight) != "" || Text(id.hex) != "")
      && r.event != []
      && r.event == f.toString(AdsbxToCotXml(craft, ConverterConfig(s), KnownCraft(s, KeysOf(craft)), f).value)
    ensures Handleable(s, craft) && Converted(s, KeysOf(craft)) ==>
      var c := AdsbxToCot(craft, ConverterConfig(s), KnownCraft(s, KeysOf(craft)), f);
      (r.Emit? <==> c.Some? && c.value != [])
  {
    if !Handleable(s, craft) then Raises else Admit(s, craft, f)
  }

  /** The verdict on a record the worker gets through: the TIS-B gate, then
      the known-craft lookup, then conversion. */
  function Admit(s: WorkerSettings, craft: Craft, f: Foreign): (r: Verdict)
    requires Handleable(s, craft)
    ensures r != Raises
    ensures r == SkipTisb <==> TisbSkipped(s, KeysOf(craft))
    ensures r == SkipUnknown <==> !TisbSkipped(s, KeysOf(craft)) && Unknown(s, KnownCraft(s, KeysOf(craft)))
    ensures r.Emit? ==>
      && Converted(s, KeysOf(craft)) && HasPosition(craft)
      && var id := ReadIdentity(craft);
      && (Text(id.flight) != "" || Text(id.hex) != "")
      && r.event != []
      && r.event == f.toString(AdsbxToCotXml(craft, ConverterConfig(s), KnownCraft(s, KeysOf(craft)), f).value)
    ensures Converted(s, KeysOf(craft)) ==>
      var c := AdsbxToCot(craft, ConverterConfig(s), KnownCraft(s, KeysOf(craft)), f);
      (r.Emit? <==> c.Some? && c.value != [])
  {
    var k := KeysOf(craft);
    if TisbSkipped(s, k) then SkipTisb else Convert(s, craft, KnownCraft(s, k), f)
  }

  /** The verdict once the known craft is looked up: skipped as unknown, or
      converted, with an empty event skipped. */
  function Convert(s: WorkerSettings, craft: Craft, known: Row, f: Foreign): (r: Verdict)
    requires !Unknown(s, known) ==> ConvertSafe(s, craft)
    ensures r != Raises && r != SkipTisb
    ensures r == SkipUnknown <==> Unknown(s, known)
    ensures r.Emit? ==>
      && HasPosition(craft)
      && var id := ReadIdentity(craft);
      && (Text(id.flight) != "" || Text(id.hex) != "")
      && r.event != []
      && r.event == f.toString(AdsbxToCotXml(craft, ConverterConfig(s), known, f).value)
    ensures !Unknown(s, known) ==>
      var c := AdsbxToCot(craft, ConverterConfig(s), known, f);
      (r.Emit? <==> c.Some? && c.value != [])
  {
    if Unknown(s, known) then SkipUnknown
    else
      match AdsbxToCot(craft, ConverterConfig(s), known, f)
      case None => SkipEmpty
      case Some(event) => if event == [] then SkipEmpty else Emit(event)
  }

  /** `[g(x) for x in xs]`. */
  function MapSeq<T, U>(g: T -> U, xs: seq<T>): (r: seq<U>)
    ensures |r| == |xs|
  {
    if xs == [] then [] else [g(xs[0])] + MapSeq(g, xs[1..])
  }

  lemma {:induction false} MapSeqAt<T, U>(g: T -> U, xs: seq<T>, i: nat)
    requires i < |xs|
    ensures MapSeq(g, xs)[i] == g(xs[i])
  {
    if i > 0 {
      MapSeqAt(g, xs[1..], i - 1);
    }
  }

  lemma {:induction false} MapSeqConcat<T, U>(g: T -> U, xs: seq<T>, ys: seq<T>)
    ensures MapSeq(g, xs + ys) == MapSeq(g, xs) + MapSeq(g, ys)
  {
    if xs == [] {
      assert xs + ys == ys;
    } else {
      assert (xs + ys)[0] == xs[0] && (xs + ys)[1..] == xs[1..] + ys;
      MapSeqConcat(g, xs[1..], ys);
    }
  }

  /** The worker's decision as a function of the record alone. */
  function DecideIn(s: WorkerSettings, f: Foreign): Craft -> Verdict {
    (craft: Craft) => Decide(s, craft, f)
  }

  /** The verdict on each record, each decided on its own. */
  function Verdicts(s: WorkerSettings, rs: seq<Craft>, f: Foreign): seq<Verdict> {
    MapSeq(DecideIn(s, f), rs)
  }

  /** A record's verdict does not depend on its neighbours. */
  lemma VerdictAt(s: WorkerSettings, rs: seq<Craft>, f: Foreign, i: nat)
    requires i < |rs|
    ensures |Verdicts(s, rs, f)| == |rs|
    ensures Verdicts(s, rs, f)[i] == Decide(s, rs[i], f)
  {
    MapSeqAt(DecideIn(s, f), rs, i);
  }

  /** `vs` holds the verdict on each record of `rs`. */
  predicate VerdictsOf(s: WorkerSettings, rs: seq<Craft>, f: Foreign, vs: seq<Verdict>) {
    && |vs| == |rs|
    && forall i {:trigger Decide(s, rs[i], f)} :: 0 <= i < |rs| ==> vs[i] == Decide(s, rs[i], f)
  }

  lemma VerdictsListed(s: WorkerSettings, rs: seq<Craft>, f: Foreign)
    ensures VerdictsOf(s, rs, f, Verdicts(s, rs, f))
  {
    forall i | 0 <= i < |rs|
      ensures Verdicts(s, rs, f)[i] == Decide(s, rs[i], f)
    {
      VerdictAt(s, rs, f, i);
    }
  }

  /** How many verdicts `handle_message` gets through before one raises. */
  function {:induction false} Reached(vs: seq<Verdict>): (n: nat)
    ensures n <= |vs|
    ensures forall i :: 0 <= i < n ==> vs[i] != Raises
    ensures n < |vs| ==> vs[n] == Raises
  {
    if vs == [] || vs[0] == Raises then 0
    else
      var n := Reached(vs[1..]);
      assert forall i :: 1 <= i < n + 1 ==> vs[i] == vs[1..][i - 1];
      1 + n
  }

  /** What one verdict queues. */
  function Queued(v: Verdict): seq<Bytes> {
    match v
    case Emit(event) => [event]
    case _ => []
  }

  /** The events queued for a run of verdicts, in order, up to the first
      one that raises. */
  function {:induction false} Emitted(vs: seq<Verdict>): (r: seq<Bytes>)
    ensures |r| <= |vs|
  {
    if vs == [] || vs[0] == Raises then [] else Queued(vs[0]) + Emitted(vs[1..])
  }

  /** Past a stretch that does not raise, the events of the rest follow on. */
  lemma {:induction false} EmittedConcat(xs: seq<Verdict>, ys: seq<Verdict>)
    requires Raises !in xs
    ensures Emitted(xs + ys) == Emitted(xs) + Emitted(ys)
  {
    if xs == [] {
      assert xs + ys == ys;
    } else {
      var h, t := xs[0], xs[1..];
      assert xs == [h] + t;
      assert h != Raises && Raises !in t;
      assert (xs + ys)[0] == h && (xs + ys)[1..] == t + ys;
      EmittedConcat(t, ys);
      calc {
        Emitted(xs + ys);
        Queued(h) + Emitted(t + ys);
        Queued(h) + (Emitted(t) + Emitted(ys));
        (Queued(h) + Emitted(t)) + Emitted(ys);
        Emitted(xs) + Emitted(ys);
      }
    }
  }

  /** Once a verdict raises, nothing after it is queued. */
  lemma {:induction false} EmittedStopsAtRaise(xs: seq<Verdict>, ys: seq<Verdict>)
    requires Raises in xs
    ensures Emitted(xs + ys) == Emitted(xs)
  {
    var h, t := xs[0], xs[1..];
    assert xs == [h] + t;
    assert (xs + ys)[0] == h && (xs + ys)[1..] == t + ys;
    if h != Raises {
      assert Raises in t;
      EmittedStopsAtRaise(t, ys);
    }
  }

  /** A verdict that does not raise adds what it queues. */
  lemma EmittedStep(vs: seq<Verdict>, i: nat)
    requires i < |vs| && Raises !in vs[..i] && vs[i] != Raises
    ensures Raises !in vs[..i + 1]
    ensures Emitted(vs[..i + 1]) == Emitted(vs[..i]) + Queued(vs[i])
  {
    assert vs[..i + 1] == vs[..i] + [vs[i]];
    assert Emitted([vs[i]]) == Queued(vs[i]) + Emitted([]);
    EmittedConcat(vs[..i], [vs[i]]);
  }

  /** A verdict that raises ends the run: nothing from it on is queued. */
  lemma EmittedAtRaise(vs: seq<Verdict>, i: nat)
    requires i < |vs| && Raises !in vs[..i] && vs[i] == Raises
    ensures Emitted(vs) == Emitted(vs[..i])
    ensures Reached(vs) == i
  {
    assert vs == vs[..i] + vs[i..];
    assert vs[i..][0] == Raises;
    EmittedConcat(vs[..i], vs[i..]);
    forall k | 0 <= k < i
      ensures vs[k] != Raises
    {
      assert vs[k] == vs[..i][k];
    }
  }

  /** The positions, offset by `base`, of the `Emit` verdicts before the
      first that raises. */
  function Origins(vs: seq<Verdict>, base: nat): seq<nat>
    decreases |vs|
  {
    if vs == [] || vs[0] == Raises then []
    else (if vs[0].Emit? then [base] else []) + Origins(vs[1..], base + 1)
  }

  lemma {:induction false} OriginsLength(vs: seq<Verdict>, base: nat)
    ensures |Origins(vs, base)| == |Emitted(vs)|
    decreases |vs|
  {
    if vs != [] && vs[0] != Raises {
      OriginsLength(vs[1..], base + 1);
    }
  }

  lemma {:induction false} OriginsBound(vs: seq<Verdict>, base: nat, j: nat)
    requires j < |Origins(vs, base)|
    ensures base <= Origins(vs, base)[j] < base + Reached(vs)
    decreases |vs|
  {
    var t := vs[1..];
    var o, ot := Origins(vs, base), Origins(t, base + 1);
    assert Reached(vs) == 1 + Reached(t);
    if vs[0].Emit? {
      assert o == [base] + ot;
      if j > 0 {
        OriginsBound(t, base + 1, j - 1);
      }
    } else {
      assert o == ot;
      OriginsBound(t, base + 1, j);
    }
  }

  lemma {:induction false} OriginsPoint(vs: seq<Verdict>, base: nat, j: nat)
    requires j < |Origins(vs, base)|
    ensures j < |Emitted(vs)| && base <= Origins(vs, base)[j] < base + |vs|
    ensures vs[Origins(vs, base)[j] - base] == Emit(Emitted(vs)[j])
    decreases |vs|, 1
  {
    OriginsLength(vs, base);
    OriginsBound(vs, base, j);
    if vs[0].Emit? && j == 0 {
      var o, e := Origins(vs, base), Emitted(vs);
      assert o[0] == base && e[0] == vs[0].event;
      assert vs[o[j] - base] == vs[0] == Emit(e[j]);
    } else if vs[0].Emit? {
      OriginsPointAfterEmit(vs, base, j);
    } else {
      OriginsPointAfterSkip(vs, base, j);
    }
  }

  lemma {:induction false} OriginsPointAfterEmit(vs: seq<Verdict>, base: nat, j: nat)
    requires 0 < j < |Origins(vs, base)| && vs[0].Emit?
    requires j < |Emitted(vs)| && base <= Origins(vs, base)[j] < base + |vs|
    ensures vs[Origins(vs, base)[j] - base] == Emit(Emitted(vs)[j])
    decreases |vs|, 0
  {
    var t := vs[1..];
    var o, ot := Origins(vs, base), Origins(t, base + 1);
    var e, et := Emitted(vs), Emitted(t);
    assert o == [base] + ot && e == [vs[0].event] + et;
    OriginsPoint(t, base + 1, j - 1);
    OriginsShift(vs, ot[j - 1] - base);
    assert o[j] == ot[j - 1] && e[j] == et[j - 1];
    assert vs[o[j] - base] == t[ot[j - 1] - (base + 1)] == Emit(et[j - 1]);
  }

  lemma {:induction false} OriginsPointAfterSkip(vs: seq<Verdict>, base: nat, j: nat)
    requires j < |Origins(vs, base)| && !vs[0].Emit?
    requires j < |Emitted(vs)| && base <= Origins(vs, base)[j] < base + |vs|
    ensures vs[Origins(vs, base)[j] - base] == Emit(Emitted(vs)[j])
    decreases |vs|, 0
  {
    var t := vs[1..];
    var o, ot := Origins(vs, base), Origins(t, base + 1);
    var e, et := Emitted(vs), Emitted(t);
    assert o == ot && e == et;
    OriginsPoint(t, base + 1, j);
    OriginsShift(vs, ot[j] - base);
    assert vs[o[j] - base] == t[ot[j] - (base + 1)] == Emit(et[j]);
  }

  lemma OriginsShift(vs: seq<Verdict>, x: nat)
    requires 1 <= x < |vs|
    ensures vs[x] == vs[1..][x - 1]
  {
  }

  lemma {:induction false} OriginsIncreasing(vs: seq<Verdict>, base: nat, j: nat, k: nat)
    requires j < k < |Origins(vs, base)|
    ensures Origins(vs, base)[j] < Origins(vs, base)[k]
    decreases |vs|
  {
    var t := vs[1..];
    var o, ot := Origins(vs, base), Origins(t, base + 1);
    if vs[0].Emit? {
      assert o == [base] + ot;
      if j == 0 {
        OriginsBound(t, base + 1, k - 1);
      } else {
        OriginsIncreasing(t, base + 1, j - 1, k - 1);
      }
    } else {
      assert o == ot;
      OriginsIncreasing(t, base + 1, j, k);
    }
  }

  lemma {:induction false} OriginsComplete(vs: seq<Verdict>, base: nat, i: nat)
    requires i < Reached(vs) && vs[i].Emit?
    ensures base + i in Origins(vs, base)
    decreases |vs|
  {
    var t := vs[1..];
    var o, ot := Origins(vs, base), Origins(t, base + 1);
    assert Reached(vs) == 1 + Reached(t);
    if i == 0 {
      assert o[0] == base;
    } else {
      assert t[i - 1] == vs[i];
      OriginsComplete(t, base + 1, i - 1);
      assert o == (if vs[0].Emit? then [base] else []) + ot;
    }
  }

  /** Each queued event comes from its own `Emit` verdict before the first
      that raises, in the verdicts' order, and every such `Emit` verdict
      contributes its event. */
  lemma EmittedOrigins(vs: seq<Verdict>) returns (idx: seq<nat>)
    ensures |idx| == |Emitted(vs)|
    ensures forall j :: 0 <= j < |idx| ==> idx[j] < Reached(vs) && vs[idx[j]] == Emit(Emitted(vs)[j])
    ensures forall j, k :: 0 <= j < k < |idx| ==> idx[j] < idx[k]
    ensures forall i :: 0 <= i < Reached(vs) && vs[i].Emit? ==> i in idx
  {
    idx := Origins(vs, 0);
    OriginsLength(vs, 0);
    forall j | 0 <= j < |idx|
      ensures idx[j] < Reached(vs) && vs[idx[j]] == Emit(Emitted(vs)[j])
    {
      OriginsBound(vs, 0, j);
      OriginsPoint(vs, 0, j);
    }
    forall j, k | 0 <= j < k < |idx|
      ensures idx[j] < idx[k]
    {
      OriginsIncreasing(vs, 0, j, k);
    }
    forall i | 0 <= i < Reached(vs) && vs[i].Emit?
      ensures i in idx
    {
      OriginsComplete(vs, 0, i);
    }
  }

  /** The events `handle_message` queues for a list of records, in order. */
  function Pipeline(s: WorkerSettings, rs: seq<Craft>, f: Foreign): seq<Bytes> {
    Emitted(Verdicts(s, rs, f))
  }

  /** Handling two lists one after the other, the first without raising,
      queues what handling their concatenation queues. */
  lemma PipelineConcat(s: WorkerSettings, xs: seq<Craft>, ys: seq<Craft>, f: Foreign)
    requires Raises !in Verdicts(s, xs, f)
    ensures Pipeline(s, xs + ys, f) == Pipeline(s, xs, f) + Pipeline(s, ys, f)
  {
    MapSeqConcat(DecideIn(s, f), xs, ys);
    EmittedConcat(Verdicts(s, xs, f), Verdicts(s, ys, f));
  }

  /** Each queued event is the event of its own record, in the records'
      order; every record before the first that raises, and whose verdict is
      to emit, contributes its event. */
  lemma PipelineOrigins(s: WorkerSettings, rs: seq<Craft>, f: Foreign) returns (idx: seq<nat>)
    ensures |idx| == |Pipeline(s, rs, f)|
    ensures forall j :: 0 <= j < |idx| ==>
      idx[j] < Reached(Verdicts(s, rs, f)) && Verdicts(s, rs, f)[idx[j]] == Emit(Pipeline(s, rs, f)[j])
    ensures forall j, k :: 0 <= j < k < |idx| ==> idx[j] < idx[k]
    ensures forall i :: 0 <= i < Reached(Verdicts(s, rs, f)) && Verdicts(s, rs, f)[i].Emit? ==> i in idx
  {
    idx := EmittedOrigins(Verdicts(s, rs, f));
  }

  /** With `COT_STALE` handed to the converter, the worker's option sets the
      stale time of every event it queues: an integer text `n` gives
      `cot_time(n)`, and no option gives the converter's default. */
  lemma StaleReachesEvent(s: WorkerSettings, craft: Craft, f: Foreign) returns (e: Event)
    requires Decide(s, craft, f).Emit?
    ensures Decide(s, craft, f).event == f.toString(e)
    ensures s.cotStale.None? ==> e.stale == f.cotTime(StaleRead, Some(f.defaultStale))
    ensures forall n :: s.cotStale == Some(IntText(n)) ==> e.stale == f.cotTime(StaleRead, Some(n))
  {
    e := AdsbxToCotXml(craft, ConverterConfig(s), KnownCraft(s, KeysOf(craft)), f).value;
    forall n | s.cotStale == Some(IntText(n))
      ensures e.stale == f.cotTime(StaleRead, Some(n))
    {
      ParseIntText(n);
    }
  }

  /** The verdict as the source is written: the converter call passes a
      `stale=` keyword that `adsbx_to_cot` does not accept, so every record
      that gets that far raises `TypeError`. */
  function DecideAsWritten(s: WorkerSettings, craft: Craft): (r: Verdict)
    ensures !r.Emit?
    ensures r == Raises <==> !Screenable(s, craft) || Converted(s, KeysOf(craft))
  {
    if !Screenable(s, craft) then Raises
    else
      var k := KeysOf(craft);
      if TisbSkipped(s, k) then SkipTisb
      else if Unknown(s, KnownCraft(s, k)) then SkipUnknown
      else Raises
  }

  function AsWrittenIn(s: WorkerSettings): Craft -> Verdict {
    (craft: Craft) => DecideAsWritten(s, craft)
  }

  /** A run of verdicts none of which emits queues nothing. */
  lemma {:induction false} EmittedNothing(vs: seq<Verdict>)
    requires forall i :: 0 <= i < |vs| ==> !vs[i].Emit?
    ensures Emitted(vs) == []
  {
    if vs != [] && vs[0] != Raises {
      assert forall i :: 0 <= i < |vs[1..]| ==> vs[1..][i] == vs[i + 1];
      EmittedNothing(vs[1..]);
    }
  }

  /** As written, `handle_message` never queues an event, whatever the list. */
  lemma AsWrittenQueuesNothing(s: WorkerSettings, rs: seq<Craft>)
    ensures Emitted(MapSeq(AsWrittenIn(s), rs)) == []
  {
    var vs := MapSeq(AsWrittenIn(s), rs);
    forall i | 0 <= i < |vs|
      ensures !vs[i].Emit?
    {
      MapSeqAt(AsWrittenIn(s), rs, i);
    }
    EmittedNothing(vs);
  }

  /** A record the corrected call converts, say one with `lat`, `lon` and a
      `hex` and no known-craft table, is exactly one the call as written
      raises on. */
  lemma StaleKeywordRaises(s: WorkerSettings, craft: Craft, f: Foreign)
    requires Handleable(s, craft) && Converted(s, KeysOf(craft))
    ensures DecideAsWritten(s, craft) == Raises
    ensures Decide(s, craft, f) != Raises
  {
  }

  /** Options arrive as a config section: text by option name. */
  function Opt(opts: map<string, string>, name: string): Option<string> {
    if name in opts then Some(opts[name]) else None
  }

  /** `bool(opts.get(name))`: any non-empty text, `"false"` included, is on. */
  predicate OptFlag(opts: map<string, string>, name: string) {
    name in opts && opts[name] != ""
  }

  /** `int(opts.get("POLL_INTERVAL") or DEFAULT_POLL_INTERVAL)` does not raise. */
  predicate PollIntervalReadable(opts: map<string, string>) {
    OptFlag(opts, "POLL_INTERVAL") ==> ParseInt(opts["POLL_INTERVAL"]).Some?
  }

  function PollInterval(opts: map<string, string>): (n: int)
    requires PollIntervalReadable(opts)
    ensures OptFlag(opts, "POLL_INTERVAL") ==> ParseInt(opts["POLL_INTERVAL"]) == Some(n)
    ensures !OptFlag(opts, "POLL_INTERVAL") ==> n == DefaultPollInterval
  {
    if OptFlag(opts, "POLL_INTERVAL") then ParseInt(opts["POLL_INTERVAL"]).value else DefaultPollInterval
  }

  /** A configured interval is read back as written; a missing or empty one
      falls back to the default. */
  lemma PollIntervalRoundTrip(opts: map<string, string>, n: int)
    ensures PollIntervalReadable(opts["POLL_INTERVAL" := IntText(n)])
    ensures PollInterval(opts["POLL_INTERVAL" := IntText(n)]) == n
    ensures PollInterval(opts["POLL_INTERVAL" := ""]) == DefaultPollInterval
  {
    ParseIntText(n);
  }

  /** The option set of the class tests (`INCLUDE_TISB = false`) turns
      TIS-B records on. */
  lemma FalseTextIsOn()
    ensures OptFlag(map["INCLUDE_TISB" := "false"], "INCLUDE_TISB")
  {
  }

  /** `ADSBXWorker`: reads the feed, renders each aircraft to CoT and puts it
      on the transmit queue. */
  class AdsbxWorker {
    var queue: seq<Bytes>
    var url: Option<string>
    var cotStale: Option<string>
    var pollInterval: int
    var apiKey: Option<string>
    var includeTisb: bool
    var includeAllCraft: bool
    var filters: FilterSource
    var knownCraft: Option<string>
    var knownCraftKey: string
    var filterType: string
    var knownCraftDb: Option<seq<Row>>

    /** The part of the worker's state `handle_message` reads. */
    function Settings(): WorkerSettings
      reads this`includeTisb, this`includeAllCraft, this`knownCraftKey, this`filterType, this`knownCraftDb,
            this`cotStale
    {
      WorkerSettings(includeTisb, includeAllCraft, knownCraftKey, filterType, knownCraftDb, cotStale)
    }

    constructor (eventQueue: seq<Bytes>, opts: map<string, string>)
      requires PollIntervalReadable(opts)
      ensures queue == eventQueue
      ensures url == Opt(opts, "ADSBX_URL") && cotStale == Opt(opts, "COT_STALE")
      ensures pollInterval == PollInterval(opts) && apiKey == Opt(opts, "API_KEY")
      ensures includeTisb == OptFlag(opts, "INCLUDE_TISB")
      ensures includeAllCraft == OptFlag(opts, "INCLUDE_ALL_CRAFT")
      ensures filters == (if "FILTERS" in opts then FilterText(opts["FILTERS"]) else NoFilters)
      ensures knownCraft == Opt(opts, "KNOWN_CRAFT")
      ensures knownCraftKey == (if OptFlag(opts, "KNOWN_CRAFT_KEY") then opts["KNOWN_CRAFT_KEY"] else "HEX")
      ensures filterType == "" && knownCraftDb.None?
    {
      queue := eventQueue;
      url := Opt(opts, "ADSBX_URL");
      cotStale := Opt(opts, "COT_STALE");
      pollInterval := PollInterval(opts);
      apiKey := Opt(opts, "API_KEY");
      includeTisb := OptFlag(opts, "INCLUDE_TISB");
      includeAllCraft := OptFlag(opts, "INCLUDE_ALL_CRAFT");
      filters := if "FILTERS" in opts then FilterText(opts["FILTERS"]) else NoFilters;
      knownCraft := Opt(opts, "KNOWN_CRAFT");
      knownCraftKey := if OptFlag(opts, "KNOWN_CRAFT_KEY") then opts["KNOWN_CRAFT_KEY"] else "HEX";
      filterType := "";
      knownCraftDb := None;
    }

    /** The set-up `run` does before it starts polling: load the known-craft
        table, if one is configured, in place of the `FILTERS` option, then
        settle the filter type. `readKnownCraft` stands for reading the CSV
        and `listText` for Python's `str()` of a list of strings. Adding a
        section named `DEFAULT` raises, so does a row without the key column,
        and so does an `include` text that interpolation rejects; `raised`
        says so, and the filter type is then left as it was. */
    method SelectFilterType(readKnownCraft: string -> seq<Row>, listText: seq<string> -> string)
      returns (raised: bool)
      modifies this`knownCraftDb, this`filters, this`filterType
      ensures raised <==>
        && knownCraft.Some?
        && var rows := readKnownCraft(knownCraft.value);
        || knownCraftKey == "DEFAULT"
        || !Keyed(rows, knownCraftKey)
        || Interpolation.Rejects(listText(KeyCells(rows, knownCraftKey)))
      ensures knownCraft.Some? ==>
        && knownCraftDb == Some(readKnownCraft(knownCraft.value))
        && filters == FilterSections(if knownCraftKey == "DEFAULT" then [] else [knownCraftKey])
      ensures knownCraft.None? ==> knownCraftDb == old(knownCraftDb) && filters == old(filters)
      ensures raised ==> filterType == old(filterType)
      ensures !raised ==> filterType == DeriveFilterType(filters, knownCraftDb, knownCraftKey, old(filterType))
      ensures !raised && knownCraft.Some? ==>
        filterType == if knownCraftKey in ["HEX", "FLIGHT", "REG"] then knownCraftKey else old(filterType)
    {
      raised := false;
      if knownCraft.Some? {
        var rows := readKnownCraft(knownCraft.value);
        knownCraftDb := Some(rows);
        filters := FilterSections([]);
        if knownCraftKey == "DEFAULT" {
          return true;
        }
        filters := FilterSections([knownCraftKey]);
        if !Keyed(rows, knownCraftKey) {
          return true;
        }
        if Interpolation.Rejects(listText(KeyCells(rows, knownCraftKey))) {
          return true;
        }
      }
      if filters.Truthy() || DbTruthy(knownCraftDb) {
        var src := SourceOf(filters, knownCraftKey);
        if src.Truthy() {
          if src.Has("HEX") {
            filterType := "HEX";
          } else if src.Has("FLIGHT") {
            filterType := "FLIGHT";
          } else if src.Has("REG") {
            filterType := "REG";
          }
        }
      }
      if knownCraft.Some? {
        KnownCraftFilterType(knownCraftKey, knownCraftDb, old(filterType));
      }
    }

    /** `handle_message`: convert each record of the list and queue every
        non-empty event, skipping excluded TIS-B records and, with a
        known-craft table, records not in it. Anything but a list, and the
        empty list, queue nothing. A record the source would raise on ends
        the call, with the events queued before it kept; `raised` says so. */
    method HandleMessage(aircraft: Feed, f: Foreign) returns (raised: bool)
      modifies this`queue
      ensures !aircraft.AircraftList? ==> !raised && queue == old(queue)
      ensures aircraft.AircraftList? ==>
        var vs := Verdicts(old(Settings()), aircraft.records, f);
        && (raised <==> Reached(vs) < |vs|)
        && queue == old(queue) + Emitted(vs)
    {
      raised := false;
      if !aircraft.AircraftList? {
        return;
      }
      if aircraft.records == [] {
        return;
      }
      ghost var vs := Verdicts(Settings(), aircraft.records, f);
      VerdictsListed(Settings(), aircraft.records, f);
      raised := HandleRecords(aircraft.records, f, vs);
    }

    /** `handle_message`'s loop over a list of records whose verdicts are
        `vs`: each verdict carried out in turn, until one raises. */
    method HandleRecords(records: seq<Craft>, f: Foreign, ghost vs: seq<Verdict>) returns (raised: bool)
      requires VerdictsOf(Settings(), records, f, vs)
      modifies this`queue
      ensures raised <==> Reached(vs) < |vs|
      ensures queue == old(queue) + Emitted(vs)
    {
      ghost var q0 := queue;
      raised := false;
      var i := 0;
      while i < |records| && !raised
        invariant 0 <= i <= |records| == |vs|
        invariant Settings() == old(Settings())
        invariant !raised ==> Raises !in vs[..i] && queue == q0 + Emitted(vs[..i])
        invariant raised ==> Reached(vs) < |vs| && queue == q0 + Emitted(vs)
      {
        raised := HandleRecordAt(records, i, f, vs);
        if raised {
          EmittedAtRaise(vs, i);
        } else {
          EmittedStep(vs, i);
        }
        i := i + 1;
      }
      if !raised {
        assert vs[..i] == vs;
      }
    }

    /** One pass of `handle_message`'s loop, over the `i`-th record, whose
        verdict is `vs[i]`. */
    method HandleRecordAt(records: seq<Craft>, i: nat, f: Foreign, ghost vs: seq<Verdict>) returns (raised: bool)
      requires i < |records| && VerdictsOf(Settings(), records, f, vs)
      modifies this`queue
      ensures raised <==> vs[i] == Raises
      ensures queue == old(queue) + Queued(vs[i])
    {
      raised := HandleRecord(records[i], f);
    }

    /** One pass of `handle_message`'s loop over the record `craft`: what
        its verdict says, done. */
    method HandleRecord(craft: Craft, f: Foreign) returns (raised: bool)
      modifies this`queue
      ensures raised <==> Decide(old(Settings()), craft, f) == Raises
      ensures queue == old(queue) + Queued(Decide(old(Settings()), craft, f))
    {
      raised := false;
      if !Handleable(Settings(), craft) {
        // the source raises on this record
        return true;
      }
      AdmitRecord(craft, f);
    }

    /** The rest of the pass, for a record the worker gets through. */
    method AdmitRecord(craft: Craft, f: Foreign)
      requires Handleable(Settings(), craft)
      modifies this`queue
      ensures queue == old(queue) + Queued(Admit(old(Settings()), craft, f))
    {
      var k := KeysOf(craft);
      if Contains(k.icao, "~") && !includeTisb {
        return;
      }
      LookupAndConvert(craft, f);
    }

    /** The pass for a record past the TIS-B gate: look up its known craft,
        then convert it. */
    method LookupAndConvert(craft: Craft, f: Foreign)
      requires Handleable(Settings(), craft) && !TisbSkipped(Settings(), KeysOf(craft))
      modifies this`queue
      ensures queue == old(queue) + Queued(Convert(old(Settings()), craft, KnownCraft(old(Settings()), KeysOf(craft)), f))
    {
      var known := LookupKnownCraft(KeysOf(craft));
      ConvertRecord(craft, known, f);
    }

    /** The known-craft lookup of the pass, for a record not skipped as TIS-B. */
    method LookupKnownCraft(k: Keys) returns (known: Row)
      requires !ReachesFilterLookup(Settings(), k) && !TisbSkipped(Settings(), k)
      requires DbTruthy(knownCraftDb) && filterType != "" && FilterKey(filterType, k) != ""
               ==> Keyed(knownCraftDb.value, knownCraftKey)
      ensures known == KnownCraft(Settings(), k)
    {
      known := map[];
      if filterType != "" {
        var fk := FilterKey(filterType, k);
        if DbTruthy(knownCraftDb) && fk != "" {
          known := FirstMatch(knownCraftDb.value, knownCraftKey, fk);
        } else if fk != "" {
          assert false;
        }
      }
    }

    /** The last steps of the pass: the unknown-craft skip, conversion, and
        queueing a non-empty event. */
    method ConvertRecord(craft: Craft, known: Row, f: Foreign)
      requires !Unknown(Settings(), known) ==> ConvertSafe(Settings(), craft)
      modifies this`queue
      ensures queue == old(queue) + Queued(Convert(old(Settings()), craft, known, f))
    {
      if DbTruthy(knownCraftDb) && known == map[] && !includeAllCraft {
        return;
      }
      var event := AdsbxToCot(craft, ConverterConfig(Settings()), known, f);
      if event.None? || event.value == [] {
        return;
      }
      queue := queue + [event.value];
    }
  }
}
