/** The script etl_process.py as a whole: clean the raw table, then load the
    cleaned rows into the warehouse, and what the reconciliation in
    test_data.py checks afterwards. */
module Etl {
  import opened Wrappers
  import opened Calendar
  import opened Cleaning
  import opened Loading

  /** Lines 13-84: one run of the script against a warehouse that may already
      hold rows. The cleaned CSV written and read back in between is taken to
      give back the cleaned rows unchanged. */
  method Run(w: Warehouse, parse: DateParser, raws: seq<RawRow>)
    requires w.Valid()
    modifies w
    ensures w.Valid()
    ensures Loaded(old(w.locations), old(w.locationIndex).Keys, old(w.dates), old(w.dateIndex).Keys, old(w.facts),
                   w.locations, w.locationIndex.Keys, w.dates, w.dateIndex.Keys, w.facts, Clean(parse, raws))
    ensures |w.facts| == |old(w.facts)| + |Clean(parse, raws)|
    ensures Total(FactMeasures(w.facts))
            == Add(old(Total(FactMeasures(w.facts))), Total(RecordMeasures(Clean(parse, raws))))
    ensures old(w.facts) == [] ==>
              Total(FactMeasures(w.facts)).confirmed == Total(RecordMeasures(Clean(parse, raws))).confirmed
    ensures old(w.facts) == [] && Clean(parse, raws) != [] ==>
              Reconcile(Total(RecordMeasures(Clean(parse, raws))).confirmed, Total(FactMeasures(w.facts)).confirmed)
              == IntegrityVerified
    ensures old(w.facts) == [] && Clean(parse, raws) == [] ==> w.facts == []
  {
    var cleaned := Clean(parse, raws);
    w.Load(cleaned);
  }

  /** The loader run on rows whose natural keys the dimensions already hold,
      as on a second run over the same file: no dimension row is added or
      changed, and one fact row per cleaned row is appended all the same. */
  method LoadAgain(w: Warehouse, rows: seq<CleanRecord>)
    requires w.Valid()
    requires (set r | r in rows :: LocationKeyOf(r)) <= w.locationIndex.Keys
    requires (set r | r in rows :: r.lastUpdate) <= w.dateIndex.Keys
    modifies w
    ensures w.Valid()
    ensures w.locations == old(w.locations) && w.dates == old(w.dates)
    ensures |w.facts| == |old(w.facts)| + |rows|
    ensures w.facts[..|old(w.facts)|] == old(w.facts)
    ensures AllLoadedFrom(w.locations, w.dates, w.facts[|old(w.facts)|..], rows)
    ensures Total(FactMeasures(w.facts))
            == Add(old(Total(FactMeasures(w.facts))), Total(RecordMeasures(rows)))
  {
    ghost var locations0, locationIndex0, next0 := w.locations, w.locationIndex, w.nextLocationId;
    ghost var dates0, dateIndex0, nextDate0 := w.dates, w.dateIndex, w.nextDateId;
    w.Load(rows);
    KeysAlreadyPresent(locationIndex0.Keys, w.locationIndex.Keys, set r | r in rows :: LocationKeyOf(r));
    KeysAlreadyPresent(dateIndex0.Keys, w.dateIndex.Keys, set r | r in rows :: r.lastUpdate);
    SameKeysSameLocations(locationIndex0, locations0, next0, w.locationIndex, w.locations, w.nextLocationId);
    SameKeysSameDates(dateIndex0, dates0, nextDate0, w.dateIndex, w.dates, w.nextDateId);
  }

  lemma KeysAlreadyPresent<K>(before: set<K>, after: set<K>, added: set<K>)
    requires added <= before && after == before + added
    ensures after == before
  {
  }

  lemma AddAssociative(a: Measures, b: Measures, c: Measures)
    ensures Add(Add(a, b), c) == Add(a, Add(b, c))
  {
  }

  /** Running the loader twice on the same cleaned rows without emptying the
      warehouse: the second pass (`LoadAgain`) adds no dimension row but
      appends a duplicate of every fact row of the first pass, after the
      facts already there, so every measure total counts the rows twice. */
  method LoadTwice(w: Warehouse, rows: seq<CleanRecord>)
    requires w.Valid()
    modifies w
    ensures w.Valid()
    ensures |w.facts| == |old(w.facts)| + 2 * |rows|
    ensures w.facts[..|old(w.facts)|] == old(w.facts)
    ensures AllLoadedFrom(w.locations, w.dates, w.facts[|old(w.facts)|..|old(w.facts)| + |rows|], rows)
    ensures w.facts[|old(w.facts)|..|old(w.facts)| + |rows|] == w.facts[|old(w.facts)| + |rows|..]
    ensures Total(FactMeasures(w.facts))
            == Add(old(Total(FactMeasures(w.facts))), Add(Total(RecordMeasures(rows)), Total(RecordMeasures(rows))))
  {
    ghost var total0, n := Total(FactMeasures(w.facts)), |w.facts|;
    w.Load(rows);
    ghost var facts1 := w.facts;
    LoadAgain(w, rows);
    AddAssociative(total0, Total(RecordMeasures(rows)), Total(RecordMeasures(rows)));
    assert w.facts[..n] == facts1[..n];
    assert w.facts[n..n + |rows|] == facts1[n..];
    DuplicateLoads(w.locationIndex, w.locations, w.nextLocationId, w.dateIndex, w.dates, w.nextDateId,
                   w.facts[n..n + |rows|], w.facts[n + |rows|..], rows);
  }

  /** A cleaned row determines the fact row loaded from it: the lookups give
      one id per natural key, and the measures are the row's. */
  lemma SameRowSameFact(locationIndex: map<LocationKey, nat>, locations: map<nat, LocationKey>, nextLocation: nat,
                        dateIndex: map<CalendarDate, nat>, dates: map<nat, DateRow>, nextDate: nat,
                        f1: FactRow, f2: FactRow, r: CleanRecord)
    requires LocationsIndexed(locationIndex, locations, nextLocation)
    requires DatesIndexed(dateIndex, dates, nextDate)
    requires LoadedFrom(locations, dates, f1, r) && LoadedFrom(locations, dates, f2, r)
    ensures f1 == f2
  {
    LookupGivesLoadedIds(locationIndex, locations, nextLocation, dateIndex, dates, nextDate, f1, r);
    LookupGivesLoadedIds(locationIndex, locations, nextLocation, dateIndex, dates, nextDate, f2, r);
  }

  /** Two runs of fact rows loaded from the same cleaned rows are equal. */
  lemma DuplicateLoads(locationIndex: map<LocationKey, nat>, locations: map<nat, LocationKey>, nextLocation: nat,
                       dateIndex: map<CalendarDate, nat>, dates: map<nat, DateRow>, nextDate: nat,
                       fs1: seq<FactRow>, fs2: seq<FactRow>, rows: seq<CleanRecord>)
    requires LocationsIndexed(locationIndex, locations, nextLocation)
    requires DatesIndexed(dateIndex, dates, nextDate)
    requires AllLoadedFrom(locations, dates, fs1, rows) && AllLoadedFrom(locations, dates, fs2, rows)
    ensures fs1 == fs2
  {
    forall j | 0 <= j < |rows|
      ensures fs1[j] == fs2[j]
    {
      SameRowSameFact(locationIndex, locations, nextLocation, dateIndex, dates, nextDate, fs1[j], fs2[j], rows[j]);
    }
  }

  /** The message test_data.py prints after comparing the confirmed total of
      the cleaned CSV with `SUM(confirmed)` of `fact_covid` (lines 16-19). */
  datatype Report =
    | IntegrityVerified        // "Intégrité des données vérifiée : Succès !"
    | NoDiscrepancyDetected    // "Aucun écart détecté dans les données."
    | DiscrepancyDetected      // the message the failing branch evidently means

  /** A report that tells the reader the two totals agree. */
  predicate ClaimsAgreement(r: Report) {
    r == IntegrityVerified || r == NoDiscrepancyDetected
  }

  function Abs(x: int): (a: nat)
    ensures a == x || a == -x
  {
    if x < 0 then -x else x
  }

  /** Lines 16-19 as written: the branch taken when the totals differ also
      prints a message saying that no discrepancy was found. */
  function ReportAsWritten(csvTotal: int, dbTotal: int): (r: Report)
    ensures r == IntegrityVerified <==> csvTotal == dbTotal
    ensures r != DiscrepancyDetected
  {
    if Abs(csvTotal - dbTotal) < 1 then IntegrityVerified else NoDiscrepancyDetected
  }

  /** Whatever the totals, the script as written reports agreement: the
      reconciliation cannot reveal a mismatch (totals 1 and 0, say). */
  lemma AsWrittenAlwaysClaimsAgreement(csvTotal: int, dbTotal: int)
    ensures ClaimsAgreement(ReportAsWritten(csvTotal, dbTotal))
    ensures csvTotal != dbTotal ==> ReportAsWritten(csvTotal, dbTotal) == NoDiscrepancyDetected
  {
  }

  /** Lines 16-19 with the failing branch reporting the discrepancy. On whole
      counts the tolerance `< 1` is equality. */
  function Reconcile(csvTotal: int, dbTotal: int): (r: Report)
    ensures ClaimsAgreement(r) <==> csvTotal == dbTotal
    ensures r != NoDiscrepancyDetected
  {
    if Abs(csvTotal - dbTotal) < 1 then IntegrityVerified else DiscrepancyDetected
  }

  /** The derived attributes of 15 June 2020: day 15, month 6, year 2020,
      second quarter. */
  lemma MidJuneDateRow()
    ensures DateRowOf(Date(2020, 6, 15)) == DateRow(Date(2020, 6, 15), 15, 6, 2020, 2)
  {
  }
}
