/**
 * What the processing job makes of one buffer row's payload: the shapes it
 * accepts, the items it skips, and the `lbn.dtp_main` row it builds from an
 * item (the 28 columns of the INSERT, in their order).
 */
module Normalize {
  import opened Wrappers
  import opened Json
  import opened Fields
  import opened Buffer

  /** One row of `lbn.dtp_main`; `kartId` is its unique key. */
  datatype MainRow = MainRow(
    kartId: Value,
    regionId: Value,
    districtId: Value,
    rowNum: int,
    dtpDate: Option<Date>,
    dtpTime: Option<Time>,
    district: Value,
    dtpType: Value,
    deaths: int,
    wounded: int,
    vehiclesCount: int,
    participantsCount: int,
    emtpNumber: Value,
    settlement: Value,
    street: Value,
    house: Value,
    road: Value,
    km: Value,
    m: Value,
    roadCategory: Value,
    roadClass: Value,
    roadQuality: Value,
    weather: Value,
    roadCondition: Value,
    lighting: Value,
    dtpSeverity: Value,
    coordW: Coord,
    coordL: Coord)

  /** The settlement used when the row has no city name. */
  const NoCity: string := "Не указан"

  /** `city_name if city_name else "Не указан"` */
  function CityOrDefault(c: Option<string>): (s: string)
    ensures s != ""
    ensures c.Some? && c.value != "" ==> s == c.value
    ensures !(c.Some? && c.value != "") ==> s == NoCity
  {
    if c.Some? && c.value != "" then c.value else NoCity
  }

  // ---------------------------------------------------------------------
  // Payload shape
  // ---------------------------------------------------------------------

  /** The items a payload holds, or `Malformed` where parsing raises. */
  datatype Payload = Items(items: seq<Value>) | Malformed

  /**
   * A dict is one item; otherwise the payload goes through `json.loads`
   * (which raises on anything but valid JSON text) and a decoded dict is one
   * item, a decoded list is its elements, and anything else is an error.
   */
  function Classify(raw: Value, decode: Decoder): (p: Payload)
    ensures raw.Object? ==> p == Items([raw])
    ensures p.Items? && !raw.Object? ==>
              raw.Str? && decode(raw.s).Some? &&
              ((decode(raw.s).value.Object? && p.items == [decode(raw.s).value]) ||
               (decode(raw.s).value.Array? && p.items == decode(raw.s).value.items))
    ensures p.Malformed? <==>
              !raw.Object? &&
              (!raw.Str? || decode(raw.s).None? || !(decode(raw.s).value.Object? || decode(raw.s).value.Array?))
  {
    match raw
    case Object(_) => Items([raw])
    case Str(s) =>
      (match decode(s)
       case Some(Object(f)) => Items([Object(f)])
       case Some(Array(items)) => Items(items)
       case _ => Malformed)
    case _ => Malformed
  }

  // ---------------------------------------------------------------------
  // One item
  // ---------------------------------------------------------------------

  /**
   * What the job does with one item: skip it, fail on it (`infoDtp` present
   * but not a dict, so `info.get` raises AttributeError), or insert a row.
   */
  datatype Plan = Skip | BadInfo | Insert(main: MainRow)

  function TextField(fields: seq<(string, Value)>, key: string): Value
  {
    Get(fields, key, Str(""))
  }

  function Count(fields: seq<(string, Value)>, key: string): int
  {
    ParseInt(Get(fields, key, Int(0)))
  }

  function Coordinate(fields: seq<(string, Value)>, key: string): Coord
  {
    ParseFloat(Get(fields, key, Float(0.0)))
  }

  /** The values bound to the INSERT's placeholders, from the item `d` and its `infoDtp` dict `info`. */
  function Normalized(d: seq<(string, Value)>, info: seq<(string, Value)>, kart: Value, row: Row): MainRow
  {
    MainRow(
      kart, row.regionId, row.districtId,
      ParseInt(Get(d, "rowNum", Null)),
      ParseDate(Get(d, "date", Null)),
      ParseTime(Get(d, "Time", Null)),
      TextField(d, "District"), TextField(d, "DTP_V"),
      Count(d, "POG"), Count(d, "RAN"), Count(d, "K_TS"), Count(d, "K_UCH"),
      TextField(d, "emtp_number"),
      Get(info, "n_p", Str(CityOrDefault(row.cityName))),
      TextField(info, "street"), TextField(info, "house"), TextField(info, "dor"),
      TextField(info, "km"), TextField(info, "m"), TextField(info, "k_ul"),
      TextField(info, "dor_z"), TextField(info, "s_pch"), TextField(info, "osv"),
      TextField(info, "sdor"), TextField(info, "change_org_motion"), TextField(info, "s_dtp"),
      Coordinate(info, "COORD_W"), Coordinate(info, "COORD_L"))
  }

  function PlanItem(item: Value, row: Row): (p: Plan)
  {
    if !item.Object? then Skip
    else
      var kart := Get(item.fields, "KartId", Null);
      if !Truthy(kart) then Skip
      else match Get(item.fields, "infoDtp", Object([]))
        case Object(info) => Insert(Normalized(item.fields, info, kart, row))
        case _ => BadInfo
  }

  /** An item is skipped exactly when it is not a dict or carries no truthy `KartId`. */
  lemma SkipIff(item: Value, row: Row)
    ensures PlanItem(item, row).Skip? <==> !item.Object? || !Truthy(Get(item.fields, "KartId", Null))
  {
  }

  /**
   * An inserted row is keyed by the item's `KartId`, is tagged with the buffer
   * row's region and district, and has a date and time that are valid when
   * present.
   */
  lemma InsertedRow(item: Value, row: Row)
    requires PlanItem(item, row).Insert?
    ensures item.Object?
    ensures var m := PlanItem(item, row).main;
      Lookup(item.fields, "KartId") == Some(m.kartId) && Truthy(m.kartId) &&
      m.regionId == row.regionId && m.districtId == row.districtId &&
      (m.dtpDate.Some? ==> ValidDate(m.dtpDate.value)) &&
      (m.dtpTime.Some? ==> ValidTime(m.dtpTime.value))
  {
    var kart := Get(item.fields, "KartId", Null);
    assert Truthy(kart);
  }

  /** An item whose `infoDtp` is present but not a dict fails; with no `infoDtp` it is inserted. */
  lemma BadInfoIff(item: Value, row: Row)
    ensures PlanItem(item, row).BadInfo? <==>
      item.Object? && Truthy(Get(item.fields, "KartId", Null)) &&
      Lookup(item.fields, "infoDtp").Some? && !Lookup(item.fields, "infoDtp").value.Object?
  {
  }

  /**
   * An item holding nothing but a key yields a row of defaults: zero counts,
   * empty texts, no date or time, zero coordinates, and the row's city (or
   * "Не указан") as the settlement.
   */
  lemma KeyOnlyItem(k: Value, row: Row)
    requires Truthy(k)
    ensures PlanItem(Object([("KartId", k)]), row) ==
      Insert(MainRow(
        k, row.regionId, row.districtId, 0, None, None, Str(""), Str(""), 0, 0, 0, 0, Str(""),
        Str(CityOrDefault(row.cityName)),
        Str(""), Str(""), Str(""), Str(""), Str(""), Str(""), Str(""), Str(""), Str(""), Str(""), Str(""), Str(""),
        Number(0.0), Number(0.0)))
  {
    var d := [("KartId", k)];
    assert Get(d, "KartId", Null) == k;
    assert Get(d, "infoDtp", Object([])) == Object([]);
  }

  /** The item `{"KartId":"K1","date":"01.03.2024","infoDtp":{"COORD_W":"55,7"}}`. */
  lemma SampleItem(row: Row)
    ensures var item := Object([("KartId", Str("K1")), ("date", Str("01.03.2024")),
                                ("infoDtp", Object([("COORD_W", Str("55,7"))]))]);
      PlanItem(item, row).Insert? &&
      PlanItem(item, row).main.kartId == Str("K1") &&
      PlanItem(item, row).main.dtpDate == Some(Date(2024, 3, 1)) &&
      PlanItem(item, row).main.coordW == Spelled("55.7")
  {
    var d := [("KartId", Str("K1")), ("date", Str("01.03.2024")),
              ("infoDtp", Object([("COORD_W", Str("55,7"))]))];
    var info := [("COORD_W", Str("55,7"))];
    SampleLookups(d, info);
    ParseDateMarchFirst();
    InsertOfDict(d, info, row);
  }

  /** A dict with a truthy key and a dict `infoDtp` is inserted as `Normalized` builds it. */
  lemma InsertOfDict(d: seq<(string, Value)>, info: seq<(string, Value)>, row: Row)
    requires Truthy(Get(d, "KartId", Null))
    requires Get(d, "infoDtp", Object([])) == Object(info)
    ensures PlanItem(Object(d), row) == Insert(Normalized(d, info, Get(d, "KartId", Null), row))
    ensures PlanItem(Object(d), row).main.kartId == Get(d, "KartId", Null)
    ensures PlanItem(Object(d), row).main.dtpDate == ParseDate(Get(d, "date", Null))
    ensures PlanItem(Object(d), row).main.coordW == Coordinate(info, "COORD_W")
  {
  }

  lemma SampleLookups(d: seq<(string, Value)>, info: seq<(string, Value)>)
    requires d == [("KartId", Str("K1")), ("date", Str("01.03.2024")),
                   ("infoDtp", Object([("COORD_W", Str("55,7"))]))]
    requires info == [("COORD_W", Str("55,7"))]
    ensures Get(d, "KartId", Null) == Str("K1")
    ensures Get(d, "date", Null) == Str("01.03.2024")
    ensures Get(d, "infoDtp", Object([])) == Object(info)
    ensures Coordinate(info, "COORD_W") == Spelled("55.7")
  {
    assert d[0].0 != "date" && d[0].0 != "infoDtp";
    assert d[1..][0] == ("date", Str("01.03.2024"));
    assert d[1..][1..][0] == ("infoDtp", Object(info));
    assert Lookup(d, "date") == Lookup(d[1..], "date");
    assert Lookup(d, "infoDtp") == Lookup(d[1..], "infoDtp") == Lookup(d[1..][1..], "infoDtp");
    assert Get(info, "COORD_W", Float(0.0)) == Str("55,7");
    assert CommaToDot("55,7") == "55.7";
  }
}
