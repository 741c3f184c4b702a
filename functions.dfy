/**
 * adsbxcot/functions.py: turning one ADS-B Exchange aircraft record into a
 * Cursor-on-Target (CoT) event.
 *
 * The XML tree is modelled as records (event, point, detail, the `_aircot_`
 * element). The library helpers the source calls but does not define
 * (aircot's naming, category, CoT type, height and speed helpers, pytak's
 * clock and defaults, ElementTree serialisation, Python's text for a float)
 * are the fields of a `Foreign` value passed in by the caller.
 */
module AdsbxFunctions {
  import opened Wrappers
  import opened PyText
  import opened Aircraft

  newtype byte = x: int | 0 <= x < 256

  /** Serialised XML, as `ET.tostring` returns it. */
  type Bytes = seq<byte>

  /** The configuration dictionary the converter reads: `UID_KEY`,
      `COT_STALE` (already converted with `int`) and `COT_HOST_ID`. */
  datatype Config = Config(uidKey: Option<string>, cotStale: Option<int>, hostId: Option<string>)

  /** `config=None`, which the source replaces by `{}`. */
  const NoConfig := Config(None, None, None)

  /** The text written for a missing accuracy or course. */
  const Sentinel := "9999999.0"

  datatype Point = Point(lat: string, lon: string, ce: string, le: string, hae: string)

  /** The `detail` element: its `uid` attribute, the `UID` Droid name, the
      contact callsign, the track, the optional user icon and the remarks. */
  datatype Detail = Detail(
    uid: string, droid: string, callsign: string,
    course: string, speed: string,
    usericon: Option<string>, remarks: string)

  /** The `_aircot_` element: the host id and each identity attribute that
      was set. */
  datatype AircotTags = AircotTags(
    hostId: string, flight: Option<string>, reg: Option<string>, squawk: Option<string>,
    icao: Option<string>, cat: Option<string>, craftType: Option<string>)

  /** The three clock reads of one conversion: `time`, `start` and `stale`
      each call `cot_time` anew, so each sees its own instant. */
  datatype ClockRead = TimeRead | StartRead | StaleRead

  /** The root `event` element with its three children. */
  datatype Event = Event(
    version: string, eventType: string, uid: string, how: string,
    time: string, start: string, stale: string,
    point: Point, detail: Detail, aircot: AircotTags)

  /** The behaviour of the libraries the converter calls. */
  datatype Foreign = Foreign(
    nameCallsign: (Value, Value, Value, Value, Row) -> string, // aircot.set_name_callsign(...)[1], through str()
    setCategory: (Value, Row) -> Value,                        // aircot.set_category
    cotType: (Value, Value, Value, Row) -> string,             // aircot.set_cot_type
    hae: Value -> string,                                      // aircot.functions.get_hae
    speed: Value -> string,                                    // aircot.functions.get_speed
    floatText: real -> string,                                 // Python's str() of a JSON float
    cotTime: (ClockRead, Option<int>) -> string,               // pytak.cot_time at that read of the wall clock
    defaultStale: int,                                         // pytak.DEFAULT_COT_STALE
    defaultHostId: string,                                     // pytak.DEFAULT_HOST_ID
    toString: Event -> Bytes)                                  // ET.tostring

  /** Python's `str(v)` of a JSON value. */
  function PyStr(v: Value, f: Foreign): string {
    match v
    case Null => "None"
    case Str(s) => s
    case Int(i) => IntText(i)
    case Num(n) => f.floatText(n)
  }

  /** One identity field: its raw value and, when the raw value is truthy,
      the normalised text the source replaces it with. */
  datatype Field = Field(raw: Value, norm: Option<string>)

  function ReadField(raw: Value): (fld: Field)
    requires StripSafe(raw)
    ensures fld.raw == raw
    ensures fld.norm.Some? <==> Truthy(raw)
    ensures Truthy(raw) ==> fld.norm == Some(Normalize(raw.s))
  {
    if Truthy(raw) then Field(raw, Some(Normalize(raw.s))) else Field(raw, None)
  }

  /** The local variable after its `if field: field = field.strip().upper()`. */
  function Local(fld: Field): Value {
    if fld.norm.Some? then Str(fld.norm.value) else fld.raw
  }

  /** The field as text when it is truthy after normalisation, else "". */
  function Text(fld: Field): string {
    fld.norm.GetOr("")
  }

  /** The identity fields the converter reads. */
  datatype Identity = Identity(hex: Field, reg: Field, flight: Field, cat: Field, squawk: Field, craftType: Field)

  /** `craft.get("hex", craft.get("icao", ""))`. */
  function HexOrIcao(craft: Craft): Value {
    GetOr(craft, "hex", GetOr(craft, "icao", Str("")))
  }

  /** Every identity field the converter strips is a string. */
  predicate IdentityStripSafe(craft: Craft) {
    && StripSafe(HexOrIcao(craft))
    && StripSafe(GetOr(craft, "r", Str("")))
    && StripSafe(GetOr(craft, "flight", Str("")))
    && StripSafe(Get(craft, "category"))
    && StripSafe(Get(craft, "squawk"))
    && StripSafe(GetOr(craft, "t", Str("")))
  }

  function ReadIdentity(craft: Craft): Identity
    requires IdentityStripSafe(craft)
  {
    Identity(
      ReadField(HexOrIcao(craft)),
      ReadField(GetOr(craft, "r", Str(""))),
      ReadField(GetOr(craft, "flight", Str(""))),
      ReadField(Get(craft, "category")),
      ReadField(Get(craft, "squawk")),
      ReadField(GetOr(craft, "t", Str(""))))
  }

  /** The remarks segment a field appends when it was truthy. */
  function Segment(prefix: string, fld: Field): seq<string> {
    if fld.norm.Some? then [prefix + fld.norm.value] else []
  }

  /** The identity fields with their remarks labels, in the order the source
      appends them: flight, registration, squawk, hex, category, type. */
  function Labelled(id: Identity): seq<(string, Field)> {
    [("", id.flight), ("", id.reg), ("Squawk: ", id.squawk), ("", id.hex), ("Cat.: ", id.cat), ("Type: ", id.craftType)]
  }

  /** The segments the labelled fields append, in order. */
  function {:induction false} Appended(fields: seq<(string, Field)>): (r: seq<string>)
    ensures |r| <= |fields|
  {
    if fields == [] then [] else Segment(fields[0].0, fields[0].1) + Appended(fields[1..])
  }

  /** `remarks_fields` as the source fills it: the identity segments, then
      the host id. */
  function RemarkFields(id: Identity, hostId: string): (r: seq<string>)
    ensures 1 <= |r| <= 7 && r[|r| - 1] == hostId
  {
    Appended(Labelled(id)) + [hostId]
  }

  /** `" ".join(filter(None, remarks_fields))`. */
  function RemarksText(id: Identity, hostId: string): string {
    JoinSpace(NonEmpty(RemarkFields(id, hostId)))
  }

  /** The event UID. The source first picks `REG-`/`ICAO-` by `UID_KEY`,
      then unconditionally re-picks with the chain below, which assigns or
      returns `None` in every branch; only the second choice survives. */
  function Uid(uidKey: string, flight: string, reg: string, hex: string): (r: Option<string>)
    ensures r.None? <==> flight == "" && hex == ""
    ensures Contains(uidKey, "FLIGHT") && flight != "" ==> r == Some("FLIGHT-" + flight)
    ensures !(Contains(uidKey, "FLIGHT") && flight != "") && hex != "" ==> r == Some("ICAO-" + hex)
    ensures hex == "" && flight != "" ==> r == Some("FLIGHT-" + flight)
  {
    if Contains(uidKey, "FLIGHT") && flight != "" then Some("FLIGHT-" + flight)
    else if hex != "" then Some("ICAO-" + hex)
    else if flight != "" then Some("FLIGHT-" + flight)
    else None
  }

  /** The UID statements as written: the first chain sets `cot_uid` by
      `UID_KEY` (`REG-` or `ICAO-`), then the second chain assigns it in
      every branch or returns `None`, so the first choice never survives. */
  method ChooseUid(uidKey: string, flight: string, reg: string, hex: string) returns (r: Option<string>)
    ensures r == Uid(uidKey, flight, reg, hex)
    ensures r.Some? ==> |r.value| >= 4 && r.value[..4] != "REG-"
  {
    var cotUid := ""; // unbound in the source until a branch assigns it
    if Contains(uidKey, "REG") && reg != "" {
      cotUid := "REG-" + reg;
    } else if Contains(uidKey, "ICAO") && hex != "" {
      cotUid := "ICAO-" + hex;
    }
    if Contains(uidKey, "FLIGHT") && flight != "" {
      cotUid := "FLIGHT-" + flight;
      assert cotUid[..4] == "FLIG";
    } else if hex != "" {
      cotUid := "ICAO-" + hex;
      assert cotUid[..4] == "ICAO";
    } else if flight != "" {
      cotUid := "FLIGHT-" + flight;
      assert cotUid[..4] == "FLIG";
    } else {
      return None;
    }
    r := Some(cotUid);
  }

  /** The user icon path: set only when the known-craft row has a non-empty `ICON`. */
  function IconOf(knownCraft: Row): Option<string> {
    if "ICON" in knownCraft && knownCraft["ICON"] != "" then Some(knownCraft["ICON"]) else None
  }

  function Tags(hostId: string, id: Identity): AircotTags {
    AircotTags(hostId, id.flight.norm, id.reg.norm, id.squawk.norm, id.hex.norm, id.cat.norm, id.craftType.norm)
  }

  /** The UID the converter picks for a record under a configuration. */
  function UidOf(craft: Craft, config: Config): Option<string>
    requires IdentityStripSafe(craft)
  {
    var id := ReadIdentity(craft);
    Uid(config.uidKey.GetOr("ICAO"), Text(id.flight), Text(id.reg), Text(id.hex))
  }

  /** `adsbx_to_cot_xml`: the CoT event for one aircraft record, or `None`.
      A record without a position is refused before any other field is read,
      so only records with a position need string identity fields. */
  function AdsbxToCotXml(craft: Craft, config: Config, knownCraft: Row, f: Foreign): (r: Option<Event>)
    requires HasPosition(craft) ==> IdentityStripSafe(craft)
    ensures !HasPosition(craft) ==> r.None?
    ensures HasPosition(craft) ==>
      (r.Some? <==> Text(ReadIdentity(craft).flight) != "" || Text(ReadIdentity(craft).hex) != "")
    ensures r.Some? ==>
      && r.value.version == "2.0" && r.value.how == "m-g"
      && Some(r.value.uid) == UidOf(craft, config)
      && r.value.detail.uid == r.value.uid
    ensures r.Some? ==>
      && r.value.point.ce == (if "nac_p" in craft then PyStr(craft["nac_p"], f) else Sentinel)
      && r.value.point.le == (if "nac_v" in craft then PyStr(craft["nac_v"], f) else Sentinel)
      && r.value.detail.course == (if "track" in craft then PyStr(craft["track"], f) else Sentinel)
    ensures r.Some? ==>
      && r.value.point.lat == PyStr(Get(craft, "lat"), f)
      && r.value.point.lon == PyStr(Get(craft, "lon"), f)
    ensures r.Some? ==>
      && (r.value.detail.usericon.Some? <==> "ICON" in knownCraft && knownCraft["ICON"] != "")
      && (r.value.detail.usericon.Some? ==> r.value.detail.usericon.value == knownCraft["ICON"])
    ensures r.Some? ==>
      && r.value.detail.droid == r.value.detail.callsign
      && r.value.time == f.cotTime(TimeRead, None)
      && r.value.start == f.cotTime(StartRead, None)
    ensures r.Some? ==>
      var id := ReadIdentity(craft);
      && r.value.aircot.hostId == config.hostId.GetOr(f.defaultHostId)
      && r.value.aircot.flight == id.flight.norm && r.value.aircot.reg == id.reg.norm
      && r.value.aircot.squawk == id.squawk.norm && r.value.aircot.icao == id.hex.norm
      && r.value.aircot.cat == id.cat.norm && r.value.aircot.craftType == id.craftType.norm
    ensures r.Some? ==> r.value.stale == f.cotTime(StaleRead, Some(config.cotStale.GetOr(f.defaultStale)))
    ensures r.Some? ==>
      r.value.detail.remarks == RemarksText(ReadIdentity(craft), config.hostId.GetOr(f.defaultHostId))
  {
    if !HasPosition(craft) then None
    else
      var uidKey := config.uidKey.GetOr("ICAO");
      var stale := config.cotStale.GetOr(f.defaultStale);
      var hostId := config.hostId.GetOr(f.defaultHostId);
      var id := ReadIdentity(craft);
      var uid := Uid(uidKey, Text(id.flight), Text(id.reg), Text(id.hex));
      if uid.None? then None
      else
        var callsign := f.nameCallsign(Local(id.hex), Local(id.reg), Local(id.craftType), Local(id.flight), knownCraft);
        var cat := f.setCategory(Local(id.cat), knownCraft);
        var cotType := f.cotType(Local(id.hex), cat, Local(id.flight), knownCraft);
        var point := Point(
          PyStr(Get(craft, "lat"), f), PyStr(Get(craft, "lon"), f),
          PyStr(GetOr(craft, "nac_p", Str(Sentinel)), f), PyStr(GetOr(craft, "nac_v", Str(Sentinel)), f),
          f.hae(Get(craft, "alt_geom")));
        var detail := Detail(
          uid.value, callsign, callsign,
          PyStr(GetOr(craft, "track", Str(Sentinel)), f), f.speed(Get(craft, "gs")),
          IconOf(knownCraft), RemarksText(id, hostId));
        Some(Event(
          "2.0", cotType, uid.value, "m-g",
          f.cotTime(TimeRead, None), f.cotTime(StartRead, None), f.cotTime(StaleRead, Some(stale)),
          point, detail, Tags(hostId, id)))
  }

  /** `adsbx_to_cot`: the serialised event, or `None` exactly when there is
      no event. (An ElementTree element is truthy when it has children; the
      root always has three.) */
  function AdsbxToCot(craft: Craft, config: Config, knownCraft: Row, f: Foreign): (r: Option<Bytes>)
    requires HasPosition(craft) ==> IdentityStripSafe(craft)
    ensures r.None? <==> AdsbxToCotXml(craft, config, knownCraft, f).None?
    ensures r.Some? ==> r.value == f.toString(AdsbxToCotXml(craft, config, knownCraft, f).value)
  {
    match AdsbxToCotXml(craft, config, knownCraft, f)
    case None => None
    case Some(event) => Some(f.toString(event))
  }

  /** A JSON integer in a position, accuracy or course field reaches the event
      as its decimal text (`8`), while a float takes Python's float text
      (`8.0`), so an integer and an equal float are written apart. */
  lemma IntegerFieldText(craft: Craft, config: Config, knownCraft: Row, f: Foreign, i: int, x: real)
    requires HasPosition(craft) ==> IdentityStripSafe(craft)
    requires AdsbxToCotXml(craft, config, knownCraft, f).Some?
    ensures var e := AdsbxToCotXml(craft, config, knownCraft, f).value;
      && (Get(craft, "lat") == Int(i) ==> e.point.lat == IntText(i))
      && (Get(craft, "lon") == Int(i) ==> e.point.lon == IntText(i))
      && (Get(craft, "nac_p") == Int(i) ==> e.point.ce == IntText(i))
      && (Get(craft, "nac_v") == Int(i) ==> e.point.le == IntText(i))
      && (Get(craft, "track") == Int(i) ==> e.detail.course == IntText(i))
      && (Get(craft, "track") == Num(x) ==> e.detail.course == f.floatText(x))
  {
  }

  /** Whatever `UID_KEY` says, no UID starts with `REG-`: the registration
      branch is always overwritten. */
  lemma NoRegistrationUid(craft: Craft, config: Config)
    requires IdentityStripSafe(craft)
    ensures UidOf(craft, config).Some? ==> UidOf(craft, config).value[..4] != "REG-"
  {
    var id := ReadIdentity(craft);
    var flight, hex := Text(id.flight), Text(id.hex);
    assert ("FLIGHT-" + flight)[..4] == "FLIG";
    assert ("ICAO-" + hex)[..4] == "ICAO";
  }

  /** A record that carries a registration but neither hex nor flight yields
      no event, even with `UID_KEY` `"REG"`. */
  lemma RegistrationOnlyYieldsNothing(craft: Craft, config: Config, knownCraft: Row, f: Foreign)
    requires HasPosition(craft) && IdentityStripSafe(craft)
    requires "hex" !in craft && "icao" !in craft && "flight" !in craft
    ensures AdsbxToCotXml(craft, config, knownCraft, f).None?
  {
  }

  lemma {:induction false} NonEmptyAppend(x: seq<string>, y: seq<string>)
    ensures NonEmpty(x + y) == NonEmpty(x) + NonEmpty(y)
  {
    if x != [] {
      assert (x + y)[1..] == x[1..] + y;
      NonEmptyAppend(x[1..], y);
    } else {
      assert x + y == y;
    }
  }

  /** An empty segment in `remarks_fields` leaves the joined remarks unchanged. */
  lemma NonEmptyDropsBlank(a: seq<string>, b: seq<string>)
    ensures NonEmpty(a + [""] + b) == NonEmpty(a + b)
  {
    NonEmptyAppend(a + [""], b);
    NonEmptyAppend(a, [""]);
    NonEmptyAppend(a, b);
  }

  /** A flight, registration or hex that is only white space adds no
      segment to the remarks: they read as if the field were empty. */
  lemma BlankIdentityLeavesRemarks(craft: Craft, key: string, blank: string, hostId: string)
    requires key == "flight" || key == "r" || key == "hex"
    requires AllSpace(blank)
    requires IdentityStripSafe(craft)
    ensures IdentityStripSafe(craft[key := Str(blank)]) && IdentityStripSafe(craft[key := Str("")])
    ensures RemarksText(ReadIdentity(craft[key := Str(blank)]), hostId)
         == RemarksText(ReadIdentity(craft[key := Str("")]), hostId)
  {
    StripAllSpace(blank);
    if blank == "" {
      StripSafeUpdate(craft, key, "");
    } else {
      SameOtherFields(craft, key, blank);
      BlankLeavesRemarks(ReadIdentity(craft[key := Str(blank)]), ReadIdentity(craft[key := Str("")]), key, hostId);
    }
  }

  /** Setting any key to a string keeps every stripped field a string. */
  lemma StripSafeUpdate(craft: Craft, key: string, s: string)
    requires IdentityStripSafe(craft)
    ensures IdentityStripSafe(craft[key := Str(s)])
  {
  }

  /** Empty, or a segment without outer or doubled blanks. */
  ghost predicate TidyOrEmpty(x: string) {
    x == "" || Tidy(x)
  }

  /** The segment a labelled field appends, if any, is empty or tidy. */
  ghost predicate SegmentOk(prefix: string, fld: Field) {
    fld.norm.Some? ==> TidyOrEmpty(prefix + fld.norm.value)
  }

  /** A label that ends in its only blank keeps a tidy value tidy. */
  lemma LabelTidy(prefix: string, v: string)
    requires |prefix| >= 2 && prefix[|prefix| - 1] == ' '
    requires forall k :: 0 <= k < |prefix| - 1 ==> prefix[k] != ' '
    requires Tidy(v)
    ensures Tidy(prefix + v)
  {
    var s := prefix + v;
    var n := |prefix|;
    assert s[|s| - 1] == v[|v| - 1];
    assert forall k :: 0 <= k < n ==> s[k] == prefix[k];
    forall i | 0 <= i < |s| - 1 && s[i] == ' '
      ensures s[i + 1] != ' '
    {
      if i + 1 < n {
        assert false;
      } else if i + 1 == n {
        assert s[i + 1] == v[0];
      } else {
        assert s[i] == v[i - n] && s[i + 1] == v[i + 1 - n];
      }
    }
  }

  lemma {:induction false} AppendedTidy(fields: seq<(string, Field)>)
    requires forall k :: 0 <= k < |fields| ==> SegmentOk(fields[k].0, fields[k].1)
    ensures forall x :: x in Appended(fields) ==> TidyOrEmpty(x)
  {
    if fields != [] {
      AppendedTidy(fields[1..]);
      assert SegmentOk(fields[0].0, fields[0].1);
      assert Appended(fields) == Segment(fields[0].0, fields[0].1) + Appended(fields[1..]);
    }
  }

  /** The remarks hold no two blanks in a row, and neither start nor end
      with one, when the host id and every normalised field are tidy (a
      flight, registration or hex may also be blank): only a blank squawk,
      category or type leaves a dangling label blank. */
  lemma RemarksTidy(id: Identity, hostId: string)
    requires TidyOrEmpty(hostId)
    requires id.flight.norm.Some? ==> TidyOrEmpty(id.flight.norm.value)
    requires id.reg.norm.Some? ==> TidyOrEmpty(id.reg.norm.value)
    requires id.hex.norm.Some? ==> TidyOrEmpty(id.hex.norm.value)
    requires id.squawk.norm.Some? ==> Tidy(id.squawk.norm.value)
    requires id.cat.norm.Some? ==> Tidy(id.cat.norm.value)
    requires id.craftType.norm.Some? ==> Tidy(id.craftType.norm.value)
    ensures TidyOrEmpty(RemarksText(id, hostId))
  {
    var l := Labelled(id);
    forall k | 0 <= k < |l|
      ensures SegmentOk(l[k].0, l[k].1)
    {
      if l[k].1.norm.Some? {
        var v := l[k].1.norm.value;
        if l[k].0 == "" {
          assert l[k].0 + v == v;
        } else {
          LabelTidy(l[k].0, v);
        }
      }
    }
    AppendedTidy(l);
    var xs := RemarkFields(id, hostId);
    assert forall x :: x in xs ==> TidyOrEmpty(x);
    var ys := NonEmpty(xs);
    if ys != [] {
      forall k | 0 <= k < |ys|
        ensures Tidy(ys[k])
      {
        assert ys[k] in ys;
      }
      JoinTidy(ys);
    }
  }

  /** Two identities that differ only in one of flight, registration or hex,
      blank in the first and empty in the second, give the same remarks. */
  lemma BlankLeavesRemarks(id1: Identity, id0: Identity, key: string, hostId: string)
    requires id1.cat == id0.cat && id1.squawk == id0.squawk && id1.craftType == id0.craftType
    requires key == "flight" || key == "r" || key == "hex"
    requires key != "flight" ==> id1.flight == id0.flight
    requires key != "r" ==> id1.reg == id0.reg
    requires key != "hex" ==> id1.hex == id0.hex
    requires key == "flight" ==> id1.flight.norm == Some("") && id0.flight.norm == None
    requires key == "r" ==> id1.reg.norm == Some("") && id0.reg.norm == None
    requires key == "hex" ==> id1.hex.norm == Some("") && id0.hex.norm == None
    ensures RemarksText(id1, hostId) == RemarksText(id0, hostId)
  {
    var a, b := BlankSplit(id1, id0, key, hostId);
    NonEmptyDropsBlank(a, b);
  }

  /** A white-space-only field is truthy and normalises to the empty string;
      an empty one is falsy. */
  lemma BlankField(blank: string)
    requires AllSpace(blank) && blank != ""
    ensures ReadField(Str(blank)).norm == Some("")
    ensures ReadField(Str("")).norm == None
  {
    StripAllSpace(blank);
  }

  lemma {:induction false} AppendedConcat(x: seq<(string, Field)>, y: seq<(string, Field)>)
    ensures Appended(x + y) == Appended(x) + Appended(y)
  {
    if x != [] {
      assert (x + y)[1..] == x[1..] + y;
      AppendedConcat(x[1..], y);
    } else {
      assert x + y == y;
    }
  }

  /** Two labelled field lists that differ only at position `k`, a truthy
      but empty unlabelled field in the first and a falsy one in the second,
      append the same segments except for one empty segment. */
  lemma {:induction false} AppendedDropsBlank(l1: seq<(string, Field)>, l0: seq<(string, Field)>, k: nat)
    returns (a: seq<string>, b: seq<string>)
    requires |l1| == |l0| && k < |l1|
    requires l1[..k] == l0[..k] && l1[k + 1..] == l0[k + 1..]
    requires l1[k].0 == "" && l1[k].1.norm == Some("") && l0[k].1.norm == None
    ensures Appended(l1) == a + [""] + b
    ensures Appended(l0) == a + b
  {
    assert l1 == l1[..k] + [l1[k]] + l1[k + 1..];
    assert l0 == l0[..k] + [l0[k]] + l0[k + 1..];
    AppendedConcat(l1[..k] + [l1[k]], l1[k + 1..]);
    AppendedConcat(l1[..k], [l1[k]]);
    AppendedConcat(l0[..k] + [l0[k]], l0[k + 1..]);
    AppendedConcat(l0[..k], [l0[k]]);
    var e := l1[k].1.norm.value;
    assert l1[k].0 + e == "";
    assert Segment(l1[k].0, l1[k].1) == [""];
    assert [l1[k]][1..] == [] && [l0[k]][1..] == [];
    assert Appended([l1[k]]) == [""];
    assert Appended([l0[k]]) == [];
    a, b := Appended(l1[..k]), Appended(l1[k + 1..]);
  }

  /** Two identities that differ only in one of flight, registration or hex,
      blank in the first and empty in the second, give field lists that
      differ only by one empty segment. */
  lemma BlankSplit(id1: Identity, id0: Identity, key: string, hostId: string) returns (a: seq<string>, b: seq<string>)
    requires id1.cat == id0.cat && id1.squawk == id0.squawk && id1.craftType == id0.craftType
    requires key == "flight" || key == "r" || key == "hex"
    requires key != "flight" ==> id1.flight == id0.flight
    requires key != "r" ==> id1.reg == id0.reg
    requires key != "hex" ==> id1.hex == id0.hex
    requires key == "flight" ==> id1.flight.norm == Some("") && id0.flight.norm == None
    requires key == "r" ==> id1.reg.norm == Some("") && id0.reg.norm == None
    requires key == "hex" ==> id1.hex.norm == Some("") && id0.hex.norm == None
    ensures RemarkFields(id1, hostId) == a + [""] + b
    ensures RemarkFields(id0, hostId) == a + b
  {
    var l1, l0 := Labelled(id1), Labelled(id0);
    if key == "flight" {
      assert l1[..0] == l0[..0] && l1[1..] == l0[1..];
      a, b := AppendedDropsBlank(l1, l0, 0);
    } else if key == "r" {
      assert l1[..1] == l0[..1] && l1[2..] == l0[2..];
      a, b := AppendedDropsBlank(l1, l0, 1);
    } else {
      assert l1[..3] == l0[..3] && l1[4..] == l0[4..];
      a, b := AppendedDropsBlank(l1, l0, 3);
    }
    b := b + [hostId];
  }

  /** Setting one identity key to a blank or to "" changes only that field. */
  lemma SameOtherFields(craft: Craft, key: string, blank: string)
    requires key == "flight" || key == "r" || key == "hex"
    requires AllSpace(blank) && blank != ""
    requires IdentityStripSafe(craft)
    ensures IdentityStripSafe(craft[key := Str(blank)]) && IdentityStripSafe(craft[key := Str("")])
    ensures var id1, id0 := ReadIdentity(craft[key := Str(blank)]), ReadIdentity(craft[key := Str("")]);
      && id1.cat == id0.cat && id1.squawk == id0.squawk && id1.craftType == id0.craftType
      && (key != "flight" ==> id1.flight == id0.flight)
      && (key != "r" ==> id1.reg == id0.reg)
      && (key != "hex" ==> id1.hex == id0.hex)
      && (key == "flight" ==> id1.flight.norm == Some("") && id0.flight.norm == None)
      && (key == "r" ==> id1.reg.norm == Some("") && id0.reg.norm == None)
      && (key == "hex" ==> id1.hex.norm == Some("") && id0.hex.norm == None)
  {
    BlankField(blank);
  }

  /** The identity read from `{"hex": "A1", "squawk": " "}`. */
  lemma BlankSquawkIdentity()
    ensures ReadIdentity(map["hex" := Str("A1"), "squawk" := Str(" ")])
         == Identity(Field(Str("A1"), Some("A1")), Field(Str(""), None), Field(Str(""), None),
                     Field(Null, None), Field(Str(" "), Some("")), Field(Str(""), None))
  {
    var craft := map["hex" := Str("A1"), "squawk" := Str(" ")];
    assert HexOrIcao(craft) == Str("A1");
    assert GetOr(craft, "r", Str("")) == Str("") && GetOr(craft, "flight", Str("")) == Str("");
    assert Get(craft, "category") == Null && Get(craft, "squawk") == Str(" ");
    assert GetOr(craft, "t", Str("")) == Str("");
    BlankField(" ");
    StripOfTrimmed("A1");
    assert Upper("A1")[0] == 'A' && Upper("A1")[1] == '1';
    assert Normalize("A1") == "A1";
    assert ReadField(Str("A1")) == Field(Str("A1"), Some("A1"));
    assert ReadField(Str("")) == Field(Str(""), None) && ReadField(Null) == Field(Null, None);
    assert ReadField(Str(" ")) == Field(Str(" "), Some(""));
  }

  /** The labelled segments of the identity read from a record whose squawk
      is one blank: the squawk label survives with an empty value. */
  lemma BlankSquawkSegments(id: Identity)
    requires id == Identity(Field(Str("A1"), Some("A1")), Field(Str(""), None), Field(Str(""), None),
                            Field(Null, None), Field(Str(" "), Some("")), Field(Str(""), None))
    ensures RemarkFields(id, "h") == ["Squawk: ", "A1", "h"]
  {
    var l := Labelled(id);
    assert "Squawk: " + "" == "Squawk: " && "" + "A1" == "A1";
    assert Appended(l[5..]) == [];
    assert Appended(l[4..]) == [];
    assert Appended(l[3..]) == ["A1"];
    assert Appended(l[2..]) == ["Squawk: ", "A1"];
    assert Appended(l[1..]) == ["Squawk: ", "A1"];
    assert Appended(l) == ["Squawk: ", "A1"];
  }

  lemma BlankSquawkJoin()
    ensures JoinSpace(NonEmpty(["Squawk: ", "A1", "h"])) == "Squawk:  A1 h"
  {
    assert NonEmpty(["Squawk: ", "A1", "h"]) == ["Squawk: ", "A1", "h"];
    assert JoinSpace(["h"]) == "h";
    assert ["Squawk: ", "A1", "h"][1..] == ["A1", "h"];
    assert ["A1", "h"][1..] == ["h"];
    assert JoinSpace(["A1", "h"]) == "A1 h";
  }

  /** A squawk (likewise a category or type) that is only white space still
      adds its labelled segment, so the remarks hold two blanks in a row. */
  lemma BlankSquawkLeavesDoubleSpace()
    ensures RemarksText(ReadIdentity(map["hex" := Str("A1"), "squawk" := Str(" ")]), "h") == "Squawk:  A1 h"
  {
    BlankSquawkIdentity();
    var id := ReadIdentity(map["hex" := Str("A1"), "squawk" := Str(" ")]);
    BlankSquawkSegments(id);
    BlankSquawkJoin();
  }
}
