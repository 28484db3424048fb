/**
 * The download job (`dtp_download.py`): the date window from the command-line
 * arguments and the current month, the months it enumerates, the records it
 * collects from each month's response, and how the insert loop splits them
 * into inserted and failed.
 */
module Download {
  import opened Wrappers
  import opened Json
  import opened Retry

  datatype City = City(name: string, regionId: string, districtId: string)

  /** `CITIES` */
  const Cities: seq<City> := [City("Лобня", "46", "46440"), City("Калининград", "27", "27401")]

  /** `--start_year`, `--start_month`, `--end_year`, `--end_month`, each optional. */
  datatype DateArgs = DateArgs(startYear: Option<int>, startMonth: Option<int>, endYear: Option<int>, endMonth: Option<int>)

  datatype Window = Window(startYear: int, startMonth: int, endYear: int, endMonth: int)

  /** `get_date_range`, with `datetime.now()` given as its year and month. */
  function DateRange(args: DateArgs, nowYear: int, nowMonth: int): (w: Window)
    requires 1 <= nowMonth <= 12
  {
    var m := nowMonth - 5;
    var defaultStartMonth := if m <= 0 then m + 12 else m;
    var defaultStartYear := if m <= 0 then nowYear - 1 else nowYear;
    Window(
      args.startYear.GetOr(defaultStartYear),
      args.startMonth.GetOr(defaultStartMonth),
      args.endYear.GetOr(nowYear),
      args.endMonth.GetOr(nowMonth))
  }

  /** The month `y`/`m` counted from year zero. */
  function MonthIndex(y: int, m: int): int
  {
    12 * y + m
  }

  /**
   * Without arguments the window ends at the current month and starts five
   * months earlier, with a start month that is always a real month.
   */
  lemma DefaultWindow(nowYear: int, nowMonth: int)
    requires 1 <= nowMonth <= 12
    ensures var w := DateRange(DateArgs(None, None, None, None), nowYear, nowMonth);
      w.endYear == nowYear && w.endMonth == nowMonth &&
      1 <= w.startMonth <= 12 &&
      MonthIndex(w.startYear, w.startMonth) == MonthIndex(nowYear, nowMonth) - 5
  {
  }

  /** Each argument overrides its own field of the window and no other. */
  lemma ArgumentsOverrideOwnField(args: DateArgs, nowYear: int, nowMonth: int, v: int)
    requires 1 <= nowMonth <= 12
    ensures DateRange(args.(startYear := Some(v)), nowYear, nowMonth) == DateRange(args, nowYear, nowMonth).(startYear := v)
    ensures DateRange(args.(startMonth := Some(v)), nowYear, nowMonth) == DateRange(args, nowYear, nowMonth).(startMonth := v)
    ensures DateRange(args.(endYear := Some(v)), nowYear, nowMonth) == DateRange(args, nowYear, nowMonth).(endYear := v)
    ensures DateRange(args.(endMonth := Some(v)), nowYear, nowMonth) == DateRange(args, nowYear, nowMonth).(endMonth := v)
  {
  }

  // ---------------------------------------------------------------------
  // The months of the window
  // ---------------------------------------------------------------------

  /** The first and the last month visited in year `y`. */
  function FirstMonth(w: Window, y: int): int
  {
    if y == w.startYear then w.startMonth else 1
  }

  function LastMonth(w: Window, y: int): int
  {
    if y == w.endYear then w.endMonth else 12
  }

  /** `(y, lo), ..., (y, hi)`: `range(lo, hi + 1)` in year `y`. */
  function MonthSpan(y: int, lo: int, hi: int): seq<(int, int)>
    decreases hi - lo
  {
    if hi < lo then [] else MonthSpan(y, lo, hi - 1) + [(y, hi)]
  }

  lemma {:induction false} MonthSpanSpec(y: int, lo: int, hi: int)
    ensures forall p :: p in MonthSpan(y, lo, hi) <==> p.0 == y && lo <= p.1 <= hi
    ensures forall i, j :: 0 <= i < j < |MonthSpan(y, lo, hi)| ==>
              MonthSpan(y, lo, hi)[i].0 == y && MonthSpan(y, lo, hi)[i].1 < MonthSpan(y, lo, hi)[j].1
    decreases hi - lo
  {
    if lo <= hi {
      MonthSpanSpec(y, lo, hi - 1);
      var a := MonthSpan(y, lo, hi - 1);
      var r := a + [(y, hi)];
      assert MonthSpan(y, lo, hi) == r;
      forall i, j | 0 <= i < j < |r|
        ensures r[i].0 == y && r[i].1 < r[j].1
      {
        assert r[i] == a[i] && r[i] in a;
        if j < |a| {
          assert r[j] == a[j];
        }
      }
    } else {
      assert MonthSpan(y, lo, hi) == [];
    }
  }

  /** The months of the years `startYear .. y - 1` of the window, in loop order. */
  function MonthsBefore(w: Window, y: int): seq<(int, int)>
    decreases y - w.startYear
  {
    if y <= w.startYear then []
    else MonthsBefore(w, y - 1) + MonthSpan(y - 1, FirstMonth(w, y - 1), LastMonth(w, y - 1))
  }

  /** Every `(year, month)` the nested loops visit. */
  function Months(w: Window): seq<(int, int)>
  {
    MonthsBefore(w, w.endYear + 1)
  }

  /** Lexicographic order on `(year, month)`. */
  predicate Earlier(a: (int, int), b: (int, int))
  {
    a.0 < b.0 || (a.0 == b.0 && a.1 < b.1)
  }

  predicate InWindow(w: Window, p: (int, int))
  {
    w.startYear <= p.0 <= w.endYear && FirstMonth(w, p.0) <= p.1 <= LastMonth(w, p.0)
  }

  lemma {:induction false} MonthsBeforeSpec(w: Window, y: int)
    requires y <= w.endYear + 1
    ensures forall p :: p in MonthsBefore(w, y) <==> InWindow(w, p) && p.0 < y
    ensures forall i, j :: 0 <= i < j < |MonthsBefore(w, y)| ==>
              Earlier(MonthsBefore(w, y)[i], MonthsBefore(w, y)[j])
    ensures forall p :: p in MonthsBefore(w, y) ==> p.0 < y
    decreases y - w.startYear
  {
    if y > w.startYear {
      MonthsBeforeSpec(w, y - 1);
      var a := MonthsBefore(w, y - 1);
      var b := MonthSpan(y - 1, FirstMonth(w, y - 1), LastMonth(w, y - 1));
      MonthSpanSpec(y - 1, FirstMonth(w, y - 1), LastMonth(w, y - 1));
      var s := a + b;
      forall i, j | 0 <= i < j < |s|
        ensures Earlier(s[i], s[j])
      {
        if j < |a| {
        } else if i < |a| {
          assert s[i] in a && s[j] == b[j - |a|];
        } else {
          assert s[i] == b[i - |a|] && s[j] == b[j - |a|];
        }
      }
    }
  }

  /**
   * The loops visit exactly the months of the window, each once, in strictly
   * increasing order; intermediate years are visited in full, and a window
   * whose start year lies after its end year visits nothing.
   */
  lemma MonthsSpec(w: Window)
    ensures forall p :: p in Months(w) <==> InWindow(w, p)
    ensures forall i, j :: 0 <= i < j < |Months(w)| ==> Earlier(Months(w)[i], Months(w)[j])
    ensures forall y, m :: w.startYear < y < w.endYear && 1 <= m <= 12 ==> (y, m) in Months(w)
    ensures w.startYear > w.endYear ==> Months(w) == []
  {
    MonthsBeforeSpec(w, w.endYear + 1);
  }

  /** The loops `for year in range(start_year, end_year + 1)` and `for month in range(start_m, end_m + 1)`. */
  method MonthsToFetch(w: Window) returns (ms: seq<(int, int)>)
    ensures ms == Months(w)
  {
    ms := [];
    if w.endYear < w.startYear {
      return;
    }
    var year := w.startYear;
    while year <= w.endYear
      invariant w.startYear <= year <= w.endYear + 1
      invariant ms == MonthsBefore(w, year)
      decreases w.endYear + 1 - year
    {
      var lo := FirstMonth(w, year);
      var hi := LastMonth(w, year);
      var month := lo;
      while month <= hi
        invariant month == lo || lo < month <= hi + 1
        invariant ms == MonthsBefore(w, year) + MonthSpan(year, lo, month - 1)
        decreases hi + 1 - month
      {
        ms := ms + [(year, month)];
        month := month + 1;
      }
      assert MonthSpan(year, lo, month - 1) == MonthSpan(year, lo, hi);
      year := year + 1;
    }
  }

  // ---------------------------------------------------------------------
  // Responses and records
  // ---------------------------------------------------------------------

  /** A response's decoded JSON, or a request that raised. */
  datatype Response = Received(body: Value) | RequestFailed

  /** One row for the buffer table; `rawJson` is `json.dumps(record, ensure_ascii=False)`. */
  datatype Record = Record(cityName: string, regionId: string, districtId: string, rawJson: string)

  /**
   * What the job cannot see: the API's response for a city and a month,
   * `json.loads` and `json.dumps`.
   */
  datatype Source = Source(fetch: (City, int, int) -> Response, decode: Decoder, encode: Value -> string)

  /**
   * The items of a month's response, or `None` where the loop body reaches a
   * `continue` (no `data` field, invalid JSON, an empty or absent `tab`, or
   * any exception on the way). With a result the month also sleeps a second.
   */
  function Extract(resp: Response, decode: Decoder): (r: Option<seq<Value>>)
    ensures r.Some? ==> r.value != []
  {
    match resp
    case RequestFailed => None
    case Received(body) =>
      if !body.Object? then None
      else match Lookup(body.fields, "data")
        case Some(Str(s)) =>
          (match decode(s)
           case Some(Object(g)) =>
             var tab := Get(g, "tab", Array([]));
             if Truthy(tab) then Iterate(tab) else None
           case _ => None)
        case _ => None
  }

  /**
   * A response without `data`, with text that does not decode, or whose `tab`
   * is empty or absent adds nothing; a non-empty `tab` list adds its items.
   */
  lemma ExtractCases(f: seq<(string, Value)>, decode: Decoder)
    ensures Lookup(f, "data").None? ==> Extract(Received(Object(f)), decode).None?
    ensures forall s :: Lookup(f, "data") == Some(Str(s)) && decode(s).None? ==>
              Extract(Received(Object(f)), decode).None?
    ensures forall s, g ::
              (Lookup(f, "data") == Some(Str(s)) && decode(s) == Some(Object(g)) && Lookup(g, "tab").None?) ==>
              Extract(Received(Object(f)), decode).None?
    ensures forall s, g, items ::
              (Lookup(f, "data") == Some(Str(s)) && decode(s) == Some(Object(g)) && Lookup(g, "tab") == Some(Array(items))) ==>
              Extract(Received(Object(f)), decode) == if items == [] then None else Some(items)
  {
  }

  /** Each item becomes one record tagged with the city it was fetched for. */
  function Tag(city: City, items: seq<Value>, encode: Value -> string): (r: seq<Record>)
    ensures |r| == |items|
    ensures forall i :: 0 <= i < |r| ==>
              r[i].cityName == city.name && r[i].regionId == city.regionId &&
              r[i].districtId == city.districtId && r[i].rawJson == encode(items[i])
  {
    if items == [] then []
    else [Record(city.name, city.regionId, city.districtId, encode(items[0]))] + Tag(city, items[1..], encode)
  }

  /** Records and pauses gathered so far. */
  datatype Gathered = Gathered(records: seq<Record>, sleeps: seq<real>)

  function Join(a: Gathered, b: Gathered): Gathered
  {
    Gathered(a.records + b.records, a.sleeps + b.sleeps)
  }

  /** One pass of the month loop body. */
  function MonthRecords(city: City, ym: (int, int), src: Source): Gathered
  {
    match Extract(src.fetch(city, ym.0, ym.1), src.decode)
    case Some(items) => Gathered(Tag(city, items, src.encode), [1.0])
    case None => Gathered([], [])
  }

  /** The month loops for one city. */
  function CityRecords(city: City, months: seq<(int, int)>, src: Source): Gathered
  {
    if months == [] then Gathered([], [])
    else Join(CityRecords(city, months[..|months| - 1], src), MonthRecords(city, months[|months| - 1], src))
  }

  /** `all_records` and the pauses after the city loop. */
  function Collected(cities: seq<City>, months: seq<(int, int)>, src: Source): Gathered
  {
    if cities == [] then Gathered([], [])
    else Join(Collected(cities[..|cities| - 1], months, src), CityRecords(cities[|cities| - 1], months, src))
  }

  /** Every record of a city's months carries that city and the encoding of an item fetched for it. */
  lemma {:induction false} CityProvenance(city: City, months: seq<(int, int)>, src: Source)
    ensures forall r :: r in CityRecords(city, months, src).records ==>
      r.cityName == city.name && r.regionId == city.regionId && r.districtId == city.districtId &&
      exists k, i :: 0 <= k < |months| && Extract(src.fetch(city, months[k].0, months[k].1), src.decode).Some? &&
        0 <= i < |Extract(src.fetch(city, months[k].0, months[k].1), src.decode).value| &&
        r.rawJson == src.encode(Extract(src.fetch(city, months[k].0, months[k].1), src.decode).value[i])
    decreases |months|
  {
    if months != [] {
      var init := months[..|months| - 1];
      var last := months[|months| - 1];
      CityProvenance(city, init, src);
      forall r | r in CityRecords(city, months, src).records
        ensures r.cityName == city.name && r.regionId == city.regionId && r.districtId == city.districtId &&
          exists k, i :: 0 <= k < |months| && Extract(src.fetch(city, months[k].0, months[k].1), src.decode).Some? &&
            0 <= i < |Extract(src.fetch(city, months[k].0, months[k].1), src.decode).value| &&
            r.rawJson == src.encode(Extract(src.fetch(city, months[k].0, months[k].1), src.decode).value[i])
      {
        if r in CityRecords(city, init, src).records {
          var k, i :| 0 <= k < |init| && Extract(src.fetch(city, init[k].0, init[k].1), src.decode).Some? &&
            0 <= i < |Extract(src.fetch(city, init[k].0, init[k].1), src.decode).value| &&
            r.rawJson == src.encode(Extract(src.fetch(city, init[k].0, init[k].1), src.decode).value[i]);
          assert init[k] == months[k];
        } else {
          var t := MonthRecords(city, last, src).records;
          assert r in t;
          var items := Extract(src.fetch(city, last.0, last.1), src.decode).value;
          var i :| 0 <= i < |t| && t[i] == r;
          assert r.rawJson == src.encode(items[i]);
          assert months[|months| - 1] == last;
        }
      }
    }
  }

  /** A city yields as many records as its months' responses hold items, and one pause per month with items. */
  function ItemCount(city: City, months: seq<(int, int)>, src: Source): nat
  {
    if months == [] then 0
    else
      var last := months[|months| - 1];
      var added := match Extract(src.fetch(city, last.0, last.1), src.decode)
        case Some(items) => |items|
        case None => 0;
      ItemCount(city, months[..|months| - 1], src) + added
  }

  lemma {:induction false} CityCount(city: City, months: seq<(int, int)>, src: Source)
    ensures |CityRecords(city, months, src).records| == ItemCount(city, months, src)
    ensures |CityRecords(city, months, src).sleeps| <= |months|
    decreases |months|
  {
    if months != [] {
      CityCount(city, months[..|months| - 1], src);
    }
  }

  lemma CityRecordsSnoc(city: City, months: seq<(int, int)>, m: (int, int), src: Source)
    ensures CityRecords(city, months + [m], src) == Join(CityRecords(city, months, src), MonthRecords(city, m, src))
  {
    assert (months + [m])[..|months|] == months;
  }

  lemma CollectedSnoc(cities: seq<City>, c: City, months: seq<(int, int)>, src: Source)
    ensures Collected(cities + [c], months, src) == Join(Collected(cities, months, src), CityRecords(c, months, src))
  {
    assert (cities + [c])[..|cities|] == cities;
  }

  /** The month loop for one city: fetch, extract, tag, pause. */
  method CollectCity(city: City, ms: seq<(int, int)>, src: Source) returns (g: Gathered)
    ensures g == CityRecords(city, ms, src)
  {
    g := Gathered([], []);
    for i := 0 to |ms|
      invariant g == CityRecords(city, ms[..i], src)
    {
      assert ms[..i + 1] == ms[..i] + [ms[i]];
      CityRecordsSnoc(city, ms[..i], ms[i], src);
      g := Join(g, MonthRecords(city, ms[i], src));
    }
    assert ms[..|ms|] == ms;
  }

  /** The nested city, year and month loops of `main`. */
  method Collect(cities: seq<City>, w: Window, src: Source) returns (g: Gathered)
    ensures g == Collected(cities, Months(w), src)
  {
    g := Gathered([], []);
    for c := 0 to |cities|
      invariant g == Collected(cities[..c], Months(w), src)
    {
      var ms := MonthsToFetch(w);
      var cg := CollectCity(cities[c], ms, src);
      assert cities[..c + 1] == cities[..c] + [cities[c]];
      CollectedSnoc(cities[..c], cities[c], ms, src);
      g := Join(g, cg);
    }
    assert cities[..|cities|] == cities;
  }

  // ---------------------------------------------------------------------
  // The insert loop
  // ---------------------------------------------------------------------

  /** The database's outcomes for the attempts at inserting record `i`; none means success. */
  function ScriptFor(scripts: seq<seq<Attempt>>, i: nat): seq<Attempt>
  {
    if i < |scripts| then scripts[i] else []
  }

  predicate InsertedOk(scripts: seq<seq<Attempt>>, i: nat)
  {
    InsertPlan(ScriptFor(scripts, i)).ok
  }

  datatype Inserted = Inserted(successCount: nat, failed: seq<Record>, sleeps: seq<real>)

  /** `success_count`, `failed_records` and the back-off pauses after the insert loop. */
  function InsertAll(records: seq<Record>, scripts: seq<seq<Attempt>>): (r: Inserted)
    ensures r.successCount + |r.failed| == |records|
    ensures forall x :: x in r.failed ==> x in records
  {
    if records == [] then Inserted(0, [], [])
    else
      var n := |records| - 1;
      var prev := InsertAll(records[..n], scripts);
      var p := InsertPlan(ScriptFor(scripts, n));
      if InsertedOk(scripts, n) then Inserted(prev.successCount + 1, prev.failed, prev.sleeps + p.sleeps)
      else Inserted(prev.successCount, prev.failed + [records[n]], prev.sleeps + p.sleeps)
  }

  /** Whether each of the first `n` insertions returned True. */
  function InsertResults(scripts: seq<seq<Attempt>>, n: nat): (oks: seq<bool>)
    ensures |oks| == n
  {
    if n == 0 then [] else InsertResults(scripts, n - 1) + [InsertedOk(scripts, n - 1)]
  }

  /** Entry `i` is the result of inserting record `i`. */
  lemma {:induction false} InsertResultsSpec(scripts: seq<seq<Attempt>>, n: nat)
    ensures forall i :: 0 <= i < n ==> InsertResults(scripts, n)[i] == InsertedOk(scripts, i)
  {
    if n > 0 {
      InsertResultsSpec(scripts, n - 1);
      var prev := InsertResults(scripts, n - 1);
      assert InsertResults(scripts, n) == prev + [InsertedOk(scripts, n - 1)];
      forall i | 0 <= i < n
        ensures InsertResults(scripts, n)[i] == InsertedOk(scripts, i)
      {
        if i < n - 1 {
          assert InsertResults(scripts, n)[i] == prev[i];
        }
      }
    }
  }

  /** The positions of the false entries, in increasing order. */
  function FailedIndices(oks: seq<bool>): (r: seq<nat>)
    ensures forall k :: 0 <= k < |r| ==> r[k] < |oks|
    ensures forall i, j :: 0 <= i < j < |r| ==> r[i] < r[j]
  {
    if oks == [] then []
    else FailedIndices(oks[..|oks| - 1]) + if oks[|oks| - 1] then [] else [|oks| - 1]
  }

  /** A position is listed exactly when its entry is false. */
  lemma {:induction false} FailedIndicesSpec(oks: seq<bool>)
    ensures forall i :: 0 <= i < |oks| ==> (i in FailedIndices(oks) <==> !oks[i])
  {
    if oks != [] {
      var n := |oks| - 1;
      FailedIndicesSpec(oks[..n]);
      var prev := FailedIndices(oks[..n]);
      forall i | 0 <= i < |oks|
        ensures i in FailedIndices(oks) <==> !oks[i]
      {
        if i == n {
          assert i !in prev;
        } else {
          assert oks[..n][i] == oks[i];
        }
      }
    }
  }

  /** The elements of `xs` whose entry in `oks` is false, in order. */
  function Rejected<T>(xs: seq<T>, oks: seq<bool>): (r: seq<T>)
    requires |xs| == |oks|
    ensures |r| <= |xs|
  {
    if xs == [] then []
    else
      var n := |xs| - 1;
      Rejected(xs[..n], oks[..n]) + if oks[n] then [] else [xs[n]]
  }

  /** The rejected elements are the elements at the false positions, in order. */
  lemma {:induction false} RejectedAtFailedIndices<T>(xs: seq<T>, oks: seq<bool>)
    requires |xs| == |oks|
    ensures var idx := FailedIndices(oks);
      |Rejected(xs, oks)| == |idx| &&
      forall k :: 0 <= k < |idx| ==> Rejected(xs, oks)[k] == xs[idx[k]]
  {
    if xs != [] {
      var n := |xs| - 1;
      RejectedAtFailedIndices(xs[..n], oks[..n]);
      var prev := Rejected(xs[..n], oks[..n]);
      var idx := FailedIndices(oks[..n]);
      if !oks[n] {
        var r := Rejected(xs, oks);
        var all := FailedIndices(oks);
        assert r == prev + [xs[n]] && all == idx + [n];
        forall k | 0 <= k < |all|
          ensures r[k] == xs[all[k]]
        {
          if k < |idx| {
            assert r[k] == prev[k] && all[k] == idx[k] && xs[..n][idx[k]] == xs[idx[k]];
          }
        }
      } else {
        forall k | 0 <= k < |idx|
          ensures prev[k] == xs[idx[k]]
        {
          assert xs[..n][idx[k]] == xs[idx[k]];
        }
      }
    }
  }

  /** `failed_records` is the records whose insertion returned False, in their order. */
  lemma {:induction false} InsertAllRejects(records: seq<Record>, scripts: seq<seq<Attempt>>)
    ensures InsertAll(records, scripts).failed == Rejected(records, InsertResults(scripts, |records|))
  {
    if records != [] {
      var n := |records| - 1;
      InsertAllRejects(records[..n], scripts);
      var oks := InsertResults(scripts, |records|);
      assert oks[..n] == InsertResults(scripts, n);
      assert oks[n] == InsertedOk(scripts, n);
    }
  }

  /**
   * `failed_records` holds exactly the records whose insertion failed, in
   * their original order.
   */
  lemma FailedInOrder(records: seq<Record>, scripts: seq<seq<Attempt>>)
    ensures var idx := FailedIndices(InsertResults(scripts, |records|));
      |InsertAll(records, scripts).failed| == |idx| &&
      forall k :: 0 <= k < |idx| ==> InsertAll(records, scripts).failed[k] == records[idx[k]]
  {
    InsertAllRejects(records, scripts);
    RejectedAtFailedIndices(records, InsertResults(scripts, |records|));
  }

  /** The insert loop of `main`, one `insert_single_record` per record. */
  method InsertRecords(records: seq<Record>, scripts: seq<seq<Attempt>>) returns (result: Inserted)
    ensures result == InsertAll(records, scripts)
  {
    var successCount := 0;
    var failed := [];
    var sleeps := [];
    for index := 0 to |records|
      invariant Inserted(successCount, failed, sleeps) == InsertAll(records[..index], scripts)
    {
      var ok, pauses := InsertSingleRecord(ScriptFor(scripts, index));
      assert records[..index + 1][..index] == records[..index];
      if ok {
        successCount := successCount + 1;
      } else {
        failed := failed + [records[index]];
      }
      sleeps := sleeps + pauses;
    }
    assert records[..|records|] == records;
    result := Inserted(successCount, failed, sleeps);
  }

  datatype Run = Run(window: Window, collected: Gathered, inserted: Inserted)

  /** `main` of the download job, as a function of its inputs. */
  function DownloadRun(args: DateArgs, nowYear: int, nowMonth: int, src: Source, scripts: seq<seq<Attempt>>): Run
    requires 1 <= nowMonth <= 12
  {
    var w := DateRange(args, nowYear, nowMonth);
    var g := Collected(Cities, Months(w), src);
    Run(w, g, InsertAll(g.records, scripts))
  }

  /** `main`: the window, the collection, and (when anything was collected) the insert loop. */
  method DownloadMain(args: DateArgs, nowYear: int, nowMonth: int, src: Source, scripts: seq<seq<Attempt>>)
    returns (run: Run)
    requires 1 <= nowMonth <= 12
    ensures run == DownloadRun(args, nowYear, nowMonth, src, scripts)
    ensures run.inserted.successCount + |run.inserted.failed| == |run.collected.records|
  {
    var w := DateRange(args, nowYear, nowMonth);
    var g := Collect(Cities, w, src);
    var ins := Inserted(0, [], []);
    if g.records != [] {
      ins := InsertRecords(g.records, scripts);
    }
    run := Run(w, g, ins);
  }
}
