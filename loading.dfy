/** The loading stage of etl_process.py (lines 41-87): one pass over the
    cleaned rows that resolves each row's location and date to surrogate keys
    in the dimensions `dim_location` and `dim_date`, inserting a dimension row
    on first sight of a natural key, and appends one row to `fact_covid`.
    The warehouse tables are the fields of a `Warehouse` object. */
module Loading {
  import opened Wrappers
  import opened Calendar
  import opened Cleaning

  /** A `dim_location` row (lines 44-46): both attributes form the natural key. */
  datatype LocationKey = LocationKey(provinceState: string, countryRegion: string)

  /** A `dim_date` row (lines 48-50): `full_date` is the natural key. */
  datatype DateRow = DateRow(fullDate: CalendarDate, day: int, month: int, year: int, quarter: int)

  /** A `fact_covid` row (lines 52-54). */
  datatype FactRow = FactRow(locationId: nat, dateId: nat, measures: Measures)

  /** The location natural key of a cleaned row as the loader reads it back
      from the cleaned CSV: an empty country cell is read as "". */
  function LocationKeyOf(r: CleanRecord): (k: LocationKey)
    ensures k.provinceState == r.provinceState
    ensures r.country.Some? ==> k.countryRegion == r.country.value
    ensures r.country.None? ==> k.countryRegion == ""
  {
    LocationKey(r.provinceState, r.country.GetOr(""))
  }

  /** The `dim_date` row inserted for a date (lines 68-74). */
  function DateRowOf(d: CalendarDate): (row: DateRow)
    ensures row.fullDate == d
    ensures row.day == d.day && row.month == d.month && row.year == d.year
    ensures 1 <= row.quarter <= 4 && 3 * (row.quarter - 1) < d.month <= 3 * row.quarter
  {
    DateRow(d, d.day, d.month, d.year, Quarter(d.month))
  }

  /** `dim_location` as its rows (surrogate key to row) and its lookup
      (natural key to surrogate key): both describe the same rows, so no
      natural key has two rows; every surrogate key is below `next`. */
  ghost predicate LocationsIndexed(index: map<LocationKey, nat>, rows: map<nat, LocationKey>, next: nat) {
    && (forall k :: k in index ==> index[k] in rows && rows[index[k]] == k)
    && (forall id :: id in rows ==> rows[id] in index && index[rows[id]] == id)
    && (forall id :: id in rows ==> id < next)
  }

  /** `dim_date` likewise, keyed by `full_date`; every row also carries the
      attributes derived from its date. */
  ghost predicate DatesIndexed(index: map<CalendarDate, nat>, rows: map<nat, DateRow>, next: nat) {
    && (forall d :: d in index ==> index[d] in rows && rows[index[d]].fullDate == d)
    && (forall id :: id in rows ==> rows[id].fullDate in index && index[rows[id].fullDate] == id)
    && (forall id :: id in rows ==> id < next && rows[id] == DateRowOf(rows[id].fullDate))
  }

  /** `dim_location` never holds two rows with the same natural key. */
  lemma LocationRowsUnique(index: map<LocationKey, nat>, rows: map<nat, LocationKey>, next: nat)
    requires LocationsIndexed(index, rows, next)
    ensures forall id1, id2 :: id1 in rows && id2 in rows && rows[id1] == rows[id2] ==> id1 == id2
  {
    forall id1, id2 | id1 in rows && id2 in rows && rows[id1] == rows[id2] ensures id1 == id2 {
      assert index[rows[id1]] == id1 && index[rows[id2]] == id2;
    }
  }

  /** `dim_date` never holds two rows for the same `full_date`, and every
      row's quarter is in 1..4. */
  lemma DateRowsUnique(index: map<CalendarDate, nat>, rows: map<nat, DateRow>, next: nat)
    requires DatesIndexed(index, rows, next)
    ensures forall id1, id2 :: id1 in rows && id2 in rows && rows[id1].fullDate == rows[id2].fullDate ==> id1 == id2
    ensures forall id :: id in rows ==> 1 <= rows[id].quarter <= 4
  {
    forall id1, id2 | id1 in rows && id2 in rows && rows[id1].fullDate == rows[id2].fullDate ensures id1 == id2 {
      assert index[rows[id1].fullDate] == id1 && index[rows[id2].fullDate] == id2;
    }
  }

  /** After a row is loaded, looking its location up gives the id its fact
      row carries, and likewise for its date. */
  lemma LookupGivesLoadedIds(locationIndex: map<LocationKey, nat>, locations: map<nat, LocationKey>, nextLocation: nat,
                             dateIndex: map<CalendarDate, nat>, dates: map<nat, DateRow>, nextDate: nat,
                             f: FactRow, r: CleanRecord)
    requires LocationsIndexed(locationIndex, locations, nextLocation)
    requires DatesIndexed(dateIndex, dates, nextDate)
    requires LoadedFrom(locations, dates, f, r)
    ensures LocationKeyOf(r) in locationIndex && locationIndex[LocationKeyOf(r)] == f.locationId
    ensures r.lastUpdate in dateIndex && dateIndex[r.lastUpdate] == f.dateId
  {
    assert locations[f.locationId] == LocationKeyOf(r);
    assert dates[f.dateId].fullDate == r.lastUpdate;
  }

  /** Every fact row refers to an existing location row and date row. */
  ghost predicate References(facts: seq<FactRow>, locations: map<nat, LocationKey>, dates: map<nat, DateRow>) {
    forall j :: 0 <= j < |facts| ==> facts[j].locationId in locations && facts[j].dateId in dates
  }

  /** A dimension whose lookup gained no natural key gained no row: rows are
      only ever added under a new key. */
  lemma SameKeysSameLocations(index1: map<LocationKey, nat>, rows1: map<nat, LocationKey>, next1: nat,
                              index2: map<LocationKey, nat>, rows2: map<nat, LocationKey>, next2: nat)
    requires LocationsIndexed(index1, rows1, next1) && LocationsIndexed(index2, rows2, next2)
    requires Extends(rows1, rows2) && index2.Keys == index1.Keys
    ensures rows2 == rows1
  {
    forall id | id in rows2 ensures id in rows1 {
      var k := rows2[id];
      assert index1[k] in rows1 && rows2[index1[k]] == k;
    }
  }

  lemma SameKeysSameDates(index1: map<CalendarDate, nat>, rows1: map<nat, DateRow>, next1: nat,
                          index2: map<CalendarDate, nat>, rows2: map<nat, DateRow>, next2: nat)
    requires DatesIndexed(index1, rows1, next1) && DatesIndexed(index2, rows2, next2)
    requires Extends(rows1, rows2) && index2.Keys == index1.Keys
    ensures rows2 == rows1
  {
    forall id | id in rows2 ensures id in rows1 {
      var d := rows2[id].fullDate;
      assert index1[d] in rows1 && rows2[index1[d]].fullDate == d;
    }
  }

  /** Resolving the same location twice gives the same surrogate key: two fact
      rows loaded from cleaned rows with equal (province, country) refer to
      the same `dim_location` row. */
  lemma SameKeySameLocation(index: map<LocationKey, nat>, locations: map<nat, LocationKey>, next: nat,
                            f1: FactRow, r1: CleanRecord, f2: FactRow, r2: CleanRecord)
    requires LocationsIndexed(index, locations, next)
    requires LocationKeyOf(r1) == LocationKeyOf(r2)
    requires f1.locationId in locations && locations[f1.locationId] == LocationKeyOf(r1)
    requires f2.locationId in locations && locations[f2.locationId] == LocationKeyOf(r2)
    ensures f1.locationId == f2.locationId
  {
    assert index[locations[f1.locationId]] == f1.locationId;
    assert index[locations[f2.locationId]] == f2.locationId;
  }

  /** Sum of measures, column by column. */
  function Add(a: Measures, b: Measures): Measures {
    Measures(a.confirmed + b.confirmed, a.deaths + b.deaths,
             a.recovered + b.recovered, a.suspected + b.suspected)
  }

  const NoMeasures: Measures := Measures(0, 0, 0, 0)

  /** `SUM(...)` of each measure over a sequence of rows. */
  function Total(ms: seq<Measures>): Measures {
    if ms == [] then NoMeasures else Add(ms[0], Total(ms[1..]))
  }

  function FactMeasures(fs: seq<FactRow>): (ms: seq<Measures>)
    ensures |ms| == |fs|
    ensures forall i :: 0 <= i < |fs| ==> ms[i] == fs[i].measures
  {
    if fs == [] then [] else [fs[0].measures] + FactMeasures(fs[1..])
  }

  function RecordMeasures(rs: seq<CleanRecord>): (ms: seq<Measures>)
    ensures |ms| == |rs|
    ensures forall i :: 0 <= i < |rs| ==> ms[i] == rs[i].measures
  {
    seq(|rs|, i requires 0 <= i < |rs| => rs[i].measures)
  }

  /** Sums over consecutive slices add up. */
  lemma {:induction false} TotalAppend(a: seq<Measures>, b: seq<Measures>)
    ensures Total(a + b) == Add(Total(a), Total(b))
  {
    if a == [] {
      assert a + b == b;
    } else {
      assert (a + b)[1..] == a[1..] + b;
      TotalAppend(a[1..], b);
    }
  }

  /** The reconciliation of the CSV total with `SUM(confirmed)` (and the other
      measures): fact rows carrying the cleaned rows' measures, one for one,
      sum to the cleaned rows' totals. */
  lemma {:induction false} Reconciliation(fs: seq<FactRow>, rows: seq<CleanRecord>)
    requires |fs| == |rows|
    requires forall i :: 0 <= i < |fs| ==> fs[i].measures == rows[i].measures
    ensures Total(FactMeasures(fs)) == Total(RecordMeasures(rows))
  {
    if fs != [] {
      Reconciliation(fs[1..], rows[1..]);
      assert FactMeasures(fs)[1..] == FactMeasures(fs[1..]);
      assert RecordMeasures(rows)[1..] == RecordMeasures(rows[1..]);
    }
  }

  class Warehouse {
    /** `dim_location`: location_id to row, and its lookup on the natural key. */
    var locations: map<nat, LocationKey>
    var locationIndex: map<LocationKey, nat>
    var nextLocationId: nat
    /** `dim_date`: date_id to row, and its lookup on `full_date`. */
    var dates: map<nat, DateRow>
    var dateIndex: map<CalendarDate, nat>
    var nextDateId: nat
    /** `fact_covid`, in insertion order. */
    var facts: seq<FactRow>

    /** Each dimension holds one row per natural key and its lookup agrees
        with it; every date row carries the attributes derived from its date;
        every fact row refers to existing dimension rows. */
    ghost predicate Valid()
      reads this
    {
      && LocationsIndexed(locationIndex, locations, nextLocationId)
      && DatesIndexed(dateIndex, dates, nextDateId)
      && References(facts, locations, dates)
    }

    /** An empty warehouse. */
    constructor ()
      ensures Valid()
      ensures locations == map[] && dates == map[] && facts == []
    {
      locations, locationIndex, nextLocationId := map[], map[], 1;
      dates, dateIndex, nextDateId := map[], map[], 1;
      facts := [];
    }

    /** `location_dim.lookup` (line 60): the id of the row with this natural
        key, or nothing when no row has it. */
    method LookupLocation(key: LocationKey) returns (id: Option<nat>)
      requires Valid()
      ensures id.Some? ==> id.value in locations && locations[id.value] == key
      ensures id.None? ==> forall i :: i in locations ==> locations[i] != key
    {
      if key in locationIndex {
        id := Some(locationIndex[key]);
      } else {
        id := None;
      }
    }

    /** `location_dim.insert` (line 62): a new row under a fresh id. */
    method InsertLocation(key: LocationKey) returns (id: nat)
      requires Valid()
      requires forall i :: i in locations ==> locations[i] != key
      modifies this`locations, this`locationIndex, this`nextLocationId
      ensures Valid()
      ensures id !in old(locations)
      ensures locations == old(locations)[id := key]
      ensures locationIndex == old(locationIndex)[key := id]
    {
      id := nextLocationId;
      locations := locations[id := key];
      locationIndex := locationIndex[key := id];
      nextLocationId := nextLocationId + 1;
    }

    /** Lines 60-62: lookup-or-insert of a location. Afterwards the key has
        exactly the row whose id is returned; a row is added only when the key
        was absent, and no existing row changes. */
    method ResolveLocation(key: LocationKey) returns (id: nat)
      requires Valid()
      modifies this`locations, this`locationIndex, this`nextLocationId
      ensures Valid()
      ensures id in locations && locations[id] == key && locationIndex[key] == id
      ensures Extends(old(locations), locations)
      ensures locationIndex.Keys == old(locationIndex).Keys + {key}
      ensures key in old(locationIndex) ==> id == old(locationIndex)[key]
                                             && locations == old(locations)
                                             && locationIndex == old(locationIndex)
      ensures key !in old(locationIndex) ==> id !in old(locations)
                                              && locations == old(locations)[id := key]
                                              && locationIndex == old(locationIndex)[key := id]
    {
      var found := LookupLocation(key);
      if found.None? {
        id := InsertLocation(key);
      } else {
        id := found.value;
      }
    }

    /** `date_dim.lookup` (line 66). */
    method LookupDate(d: CalendarDate) returns (id: Option<nat>)
      requires Valid()
      ensures id.Some? ==> id.value in dates && dates[id.value].fullDate == d
      ensures id.None? ==> forall i :: i in dates ==> dates[i].fullDate != d
    {
      if d in dateIndex {
        id := Some(dateIndex[d]);
      } else {
        id := None;
      }
    }

    /** `date_dim.insert` (lines 68-74): the date with its derived day, month,
        year and quarter, under a fresh id. */
    method InsertDate(d: CalendarDate) returns (id: nat)
      requires Valid()
      requires forall i :: i in dates ==> dates[i].fullDate != d
      modifies this`dates, this`dateIndex, this`nextDateId
      ensures Valid()
      ensures id !in old(dates)
      ensures dates == old(dates)[id := DateRowOf(d)]
      ensures dateIndex == old(dateIndex)[d := id]
    {
      id := nextDateId;
      dates := dates[id := DateRowOf(d)];
      dateIndex := dateIndex[d := id];
      nextDateId := nextDateId + 1;
    }

    /** Lines 65-74: lookup-or-insert of a date. */
    method ResolveDate(d: CalendarDate) returns (id: nat)
      requires Valid()
      modifies this`dates, this`dateIndex, this`nextDateId
      ensures Valid()
      ensures id in dates && dates[id].fullDate == d && dateIndex[d] == id
      ensures Extends(old(dates), dates)
      ensures dateIndex.Keys == old(dateIndex).Keys + {d}
      ensures 1 <= dates[id].quarter <= 4
      ensures d in old(dateIndex) ==> id == old(dateIndex)[d]
                                      && dates == old(dates)
                                      && dateIndex == old(dateIndex)
      ensures d !in old(dateIndex) ==> id !in old(dates)
                                       && dates == old(dates)[id := DateRowOf(d)]
                                       && dateIndex == old(dateIndex)[d := id]
    {
      var found := LookupDate(d);
      if found.None? {
        id := InsertDate(d);
      } else {
        id := found.value;
      }
    }

    /** `covid_fact.insert` (lines 77-84): appends one fact row. */
    method InsertFact(locationId: nat, dateId: nat, m: Measures)
      requires Valid()
      requires locationId in locations && dateId in dates
      modifies this`facts
      ensures Valid()
      ensures facts == old(facts) + [FactRow(locationId, dateId, m)]
    {
      facts := facts + [FactRow(locationId, dateId, m)];
    }

    /** Lines 59-84 for one cleaned row: resolve its location and date, then
        append its fact row. */
    method LoadRow(row: CleanRecord)
      requires Valid()
      modifies this
      ensures Valid()
      ensures Loaded(old(locations), old(locationIndex).Keys, old(dates), old(dateIndex).Keys, old(facts),
                     locations, locationIndex.Keys, dates, dateIndex.Keys, facts, [row])
    {
      var locationId := ResolveLocation(LocationKeyOf(row));
      var dateId := ResolveDate(row.lastUpdate);
      InsertFact(locationId, dateId, row.measures);
      LoadedOne(old(locations), old(locationIndex).Keys, old(dates), old(dateIndex).Keys, old(facts),
                locations, locationIndex.Keys, dates, dateIndex.Keys, facts, row);
    }

    /** Lines 58-84: the loading loop. One fact row is appended per cleaned
        row, in order; existing dimension and fact rows are kept as they were;
        the dimensions gain exactly the natural keys not seen before; and the
        measure totals of the fact table grow by those of the cleaned rows. */
    method Load(rows: seq<CleanRecord>)
      requires Valid()
      modifies this
      ensures Valid()
      ensures Loaded(old(locations), old(locationIndex).Keys, old(dates), old(dateIndex).Keys, old(facts),
                     locations, locationIndex.Keys, dates, dateIndex.Keys, facts, rows)
      ensures locationIndex.Keys == old(locationIndex).Keys + (set r | r in rows :: LocationKeyOf(r))
      ensures dateIndex.Keys == old(dateIndex).Keys + (set r | r in rows :: r.lastUpdate)
      ensures Total(FactMeasures(facts))
              == Add(old(Total(FactMeasures(facts))), Total(RecordMeasures(rows)))
    {
      var i := 0;
      assert rows[..0] == [];
      while i < |rows|
        invariant 0 <= i <= |rows|
        invariant Valid()
        invariant Loaded(old(locations), old(locationIndex).Keys, old(dates), old(dateIndex).Keys, old(facts),
                         locations, locationIndex.Keys, dates, dateIndex.Keys, facts, rows[..i])
      {
        ghost var locations1, locationKeys1, dates1, dateKeys1, facts1 :=
          locations, locationIndex.Keys, dates, dateIndex.Keys, facts;
        LoadRow(rows[i]);
        LoadedStep(old(locations), old(locationIndex).Keys, old(dates), old(dateIndex).Keys, old(facts),
                   locations1, locationKeys1, dates1, dateKeys1, facts1,
                   locations, locationIndex.Keys, dates, dateIndex.Keys, facts, rows, i);
        i := i + 1;
      }
      assert rows[..i] == rows;
      KeysAreRowKeys(rows);
      LoadedTotals(old(facts), facts, rows);
    }
  }

  /** Loading `rows` took the warehouse from the first state to the second:
      one fact row per cleaned row appended in order, each loaded from its
      row; dimension rows only added, never altered; the lookups gained
      exactly the rows' natural keys. */
  ghost predicate Loaded(
    locations0: map<nat, LocationKey>, locationKeys0: set<LocationKey>,
    dates0: map<nat, DateRow>, dateKeys0: set<CalendarDate>, facts0: seq<FactRow>,
    locations: map<nat, LocationKey>, locationKeys: set<LocationKey>,
    dates: map<nat, DateRow>, dateKeys: set<CalendarDate>, facts: seq<FactRow>,
    rows: seq<CleanRecord>)
  {
    && |facts| == |facts0| + |rows| && facts[..|facts0|] == facts0
    && AllLoadedFrom(locations, dates, facts[|facts0|..], rows)
    && Extends(locations0, locations) && Extends(dates0, dates)
    && locationKeys == locationKeys0 + LocationKeys(rows)
    && dateKeys == dateKeys0 + DateKeys(rows)
  }

  /** One fact row appended for `row`, with the dimensions extended by its keys,
      is loading `[row]`. */
  lemma LoadedOne(
    locations0: map<nat, LocationKey>, locationKeys0: set<LocationKey>,
    dates0: map<nat, DateRow>, dateKeys0: set<CalendarDate>, facts0: seq<FactRow>,
    locations: map<nat, LocationKey>, locationKeys: set<LocationKey>,
    dates: map<nat, DateRow>, dateKeys: set<CalendarDate>, facts: seq<FactRow>,
    row: CleanRecord)
    requires |facts| == |facts0| + 1 && facts[..|facts0|] == facts0
    requires LoadedFrom(locations, dates, facts[|facts0|], row)
    requires Extends(locations0, locations) && Extends(dates0, dates)
    requires locationKeys == locationKeys0 + {LocationKeyOf(row)}
    requires dateKeys == dateKeys0 + {row.lastUpdate}
    ensures Loaded(locations0, locationKeys0, dates0, dateKeys0, facts0,
                   locations, locationKeys, dates, dateKeys, facts, [row])
  {
    assert [row][..0] == [];
    assert facts[|facts0|..][0] == facts[|facts0|];
  }

  /** Loading `rows[..i]` and then `rows[i]` is loading `rows[..i + 1]`. */
  lemma LoadedStep(
    locations0: map<nat, LocationKey>, locationKeys0: set<LocationKey>,
    dates0: map<nat, DateRow>, dateKeys0: set<CalendarDate>, facts0: seq<FactRow>,
    locations1: map<nat, LocationKey>, locationKeys1: set<LocationKey>,
    dates1: map<nat, DateRow>, dateKeys1: set<CalendarDate>, facts1: seq<FactRow>,
    locations2: map<nat, LocationKey>, locationKeys2: set<LocationKey>,
    dates2: map<nat, DateRow>, dateKeys2: set<CalendarDate>, facts2: seq<FactRow>,
    rows: seq<CleanRecord>, i: nat)
    requires i < |rows|
    requires Loaded(locations0, locationKeys0, dates0, dateKeys0, facts0,
                    locations1, locationKeys1, dates1, dateKeys1, facts1, rows[..i])
    requires Loaded(locations1, locationKeys1, dates1, dateKeys1, facts1,
                    locations2, locationKeys2, dates2, dateKeys2, facts2, [rows[i]])
    ensures Loaded(locations0, locationKeys0, dates0, dateKeys0, facts0,
                   locations2, locationKeys2, dates2, dateKeys2, facts2, rows[..i + 1])
  {
    var n := |facts0|;
    assert facts2[..n] == facts1[..n];
    assert facts2[|facts1|] == facts2[|facts1|..][0];
    AllLoadedFromStep(locations1, dates1, locations2, dates2, facts1, facts2, n, rows, i);
    assert [rows[i]][..0] == [];
    assert LocationKeys([rows[i]]) == {LocationKeyOf(rows[i])};
    assert DateKeys([rows[i]]) == {rows[i].lastUpdate};
    KeysStep(rows, i);
    UnionStep(locationKeys0, LocationKeys(rows[..i]), locationKeys1, locationKeys2, LocationKeyOf(rows[i]));
    UnionStep(dateKeys0, DateKeys(rows[..i]), dateKeys1, dateKeys2, rows[i].lastUpdate);
  }

  /** Every fact row of `fs` was loaded from the cleaned row at the same position. */
  ghost predicate AllLoadedFrom(locations: map<nat, LocationKey>, dates: map<nat, DateRow>,
                                fs: seq<FactRow>, rows: seq<CleanRecord>) {
    |fs| == |rows| && forall j :: 0 <= j < |fs| ==> LoadedFrom(locations, dates, fs[j], rows[j])
  }

  /** One more row loaded, with the dimensions only extended, keeps every
      earlier fact row loaded from its cleaned row. */
  lemma AllLoadedFromStep(locations: map<nat, LocationKey>, dates: map<nat, DateRow>,
                          locations': map<nat, LocationKey>, dates': map<nat, DateRow>,
                          before: seq<FactRow>, after: seq<FactRow>, n: nat,
                          rows: seq<CleanRecord>, i: nat)
    requires n <= |before| && i < |rows|
    requires AllLoadedFrom(locations, dates, before[n..], rows[..i])
    requires Extends(locations, locations') && Extends(dates, dates')
    requires |after| == |before| + 1 && after[..|before|] == before
    requires LoadedFrom(locations', dates', after[|before|], rows[i])
    ensures AllLoadedFrom(locations', dates', after[n..], rows[..i + 1])
  {
    forall j | 0 <= j < i + 1
      ensures LoadedFrom(locations', dates', after[n..][j], rows[..i + 1][j])
    {
      if j < i {
        assert after[n..][j] == before[n..][j];
        LoadedFromKept(locations, dates, locations', dates', before[n..][j], rows[..i][j]);
      }
    }
  }

  /** The location natural keys of a sequence of cleaned rows, built up row
      by row as the loading loop meets them. */
  ghost function LocationKeys(rows: seq<CleanRecord>): set<LocationKey> {
    if rows == [] then {} else LocationKeys(rows[..|rows| - 1]) + {LocationKeyOf(rows[|rows| - 1])}
  }

  /** The dates of a sequence of cleaned rows, likewise. */
  ghost function DateKeys(rows: seq<CleanRecord>): set<CalendarDate> {
    if rows == [] then {} else DateKeys(rows[..|rows| - 1]) + {rows[|rows| - 1].lastUpdate}
  }

  lemma {:induction false} KeysAreRowKeys(rows: seq<CleanRecord>)
    ensures LocationKeys(rows) == set r | r in rows :: LocationKeyOf(r)
    ensures DateKeys(rows) == set r | r in rows :: r.lastUpdate
  {
    if rows != [] {
      var init := rows[..|rows| - 1];
      KeysAreRowKeys(init);
      assert rows == init + [rows[|rows| - 1]];
    }
  }

  lemma UnionStep<K>(base: set<K>, seen: set<K>, before: set<K>, after: set<K>, k: K)
    requires before == base + seen && after == before + {k}
    ensures after == base + (seen + {k})
  {
  }

  lemma KeysStep(rows: seq<CleanRecord>, i: nat)
    requires i < |rows|
    ensures LocationKeys(rows[..i + 1]) == LocationKeys(rows[..i]) + {LocationKeyOf(rows[i])}
    ensures DateKeys(rows[..i + 1]) == DateKeys(rows[..i]) + {rows[i].lastUpdate}
  {
    assert rows[..i + 1][..i] == rows[..i];
  }

  /** `m2` keeps every entry of `m1` unchanged (it may add more). */
  ghost predicate Extends<K, V>(m1: map<K, V>, m2: map<K, V>) {
    forall k :: k in m1 ==> k in m2 && m2[k] == m1[k]
  }

  /** The fact row `f` was loaded from the cleaned row `r`: it refers to the
      dimension rows holding `r`'s location and date, and carries `r`'s measures. */
  ghost predicate LoadedFrom(locations: map<nat, LocationKey>, dates: map<nat, DateRow>, f: FactRow, r: CleanRecord) {
    && f.locationId in locations && locations[f.locationId] == LocationKeyOf(r)
    && f.dateId in dates && dates[f.dateId].fullDate == r.lastUpdate
    && f.measures == r.measures
  }

  /** Dimension rows are never altered, so a loaded fact stays loaded. */
  lemma LoadedFromKept(locations: map<nat, LocationKey>, dates: map<nat, DateRow>,
                       locations': map<nat, LocationKey>, dates': map<nat, DateRow>,
                       f: FactRow, r: CleanRecord)
    requires LoadedFrom(locations, dates, f, r)
    requires Extends(locations, locations') && Extends(dates, dates')
    ensures LoadedFrom(locations', dates', f, r)
  {
  }

  /** Appending fact rows loaded from `rows` grows the totals by those of `rows`. */
  lemma LoadedTotals(before: seq<FactRow>, after: seq<FactRow>, rows: seq<CleanRecord>)
    requires |after| == |before| + |rows| && after[..|before|] == before
    requires forall j :: 0 <= j < |rows| ==> after[|before| + j].measures == rows[j].measures
    ensures Total(FactMeasures(after)) == Add(Total(FactMeasures(before)), Total(RecordMeasures(rows)))
  {
    var added := after[|before|..];
    assert after == before + added;
    Reconciliation(added, rows);
    TotalAppend(FactMeasures(before), FactMeasures(added));
    FactMeasuresAppend(before, added);
  }

  lemma {:induction false} FactMeasuresAppend(a: seq<FactRow>, b: seq<FactRow>)
    ensures FactMeasures(a + b) == FactMeasures(a) + FactMeasures(b)
  {
    assert |FactMeasures(a + b)| == |FactMeasures(a) + FactMeasures(b)|;
    forall i | 0 <= i < |a + b|
      ensures FactMeasures(a + b)[i] == (FactMeasures(a) + FactMeasures(b))[i]
    {
    }
  }
}
