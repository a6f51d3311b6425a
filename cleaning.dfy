/** The cleaning stage of etl_process.py (lines 13-32): column-wise DataFrame
    operations over the raw case-count table, modelled as functions over a
    sequence of rows. Each stage keeps the relative order of the rows it keeps. */
module Cleaning {
  import opened Wrappers
  import opened Calendar

  /** One row of the raw CSV. `observationDate` is the cell as rendered by
      `astype(str)`; `None` stands for an empty cell (NaN). */
  datatype RawRow = RawRow(
    observationDate: string,
    provinceState: Option<string>,
    countryRegion: Option<string>,
    confirmed: Option<int>,
    deaths: Option<int>,
    recovered: Option<int>)

  /** The four additive measures of a cleaned row and of a fact row. */
  datatype Measures = Measures(confirmed: int, deaths: int, recovered: int, suspected: int)

  /** A row after renaming and filling (lines 18-26); its date is still text. */
  datatype StagedRow = StagedRow(
    lastUpdate: string,
    provinceState: string,
    country: Option<string>,
    measures: Measures)

  /** A row of the cleaned table (line 32): the date is a calendar day. */
  datatype CleanRecord = CleanRecord(
    provinceState: string,
    country: Option<string>,
    lastUpdate: CalendarDate,
    measures: Measures)

  /** `pd.to_datetime(..., errors='coerce')` on one cell: `None` is NaT. */
  type DateParser = string -> Option<Timestamp>

  /** The text the first filter rejects (line 15). */
  const ZeroText: string := "0"

  /** The default province for an empty cell (line 24). */
  const UnknownProvince: string := "Unknown"

  /** Line 15: keep the rows whose date text is not exactly "0". */
  function DropZeroDates(rows: seq<RawRow>): (kept: seq<RawRow>)
    ensures |kept| <= |rows|
    ensures forall r :: r in kept <==> r in rows && r.observationDate != ZeroText
  {
    if rows == [] then []
    else if rows[0].observationDate == ZeroText then DropZeroDates(rows[1..])
    else [rows[0]] + DropZeroDates(rows[1..])
  }

  /** The "0" filter keeps the surviving rows in their original order. */
  lemma {:induction false} DropZeroDatesAppend(a: seq<RawRow>, b: seq<RawRow>)
    ensures DropZeroDates(a + b) == DropZeroDates(a) + DropZeroDates(b)
  {
    if a != [] {
      assert (a + b)[0] == a[0];
      assert (a + b)[1..] == a[1..] + b;
      DropZeroDatesAppend(a[1..], b);
    } else {
      assert a + b == b;
    }
  }

  /** Lines 18-26 on one row: rename the date and country columns, default
      the province to "Unknown", force Suspected to 0, default the other
      measures to 0. */
  function Conform(r: RawRow): (s: StagedRow)
    ensures s.lastUpdate == r.observationDate && s.country == r.countryRegion
    ensures r.provinceState.Some? ==> s.provinceState == r.provinceState.value
    ensures r.provinceState.None? ==> s.provinceState == UnknownProvince
    ensures s.measures.suspected == 0
    ensures r.confirmed.Some? ==> s.measures.confirmed == r.confirmed.value
    ensures r.confirmed.None? ==> s.measures.confirmed == 0
    ensures r.deaths.Some? ==> s.measures.deaths == r.deaths.value
    ensures r.deaths.None? ==> s.measures.deaths == 0
    ensures r.recovered.Some? ==> s.measures.recovered == r.recovered.value
    ensures r.recovered.None? ==> s.measures.recovered == 0
  {
    StagedRow(
      r.observationDate,
      r.provinceState.GetOr(UnknownProvince),
      r.countryRegion,
      Measures(r.confirmed.GetOr(0), r.deaths.GetOr(0), r.recovered.GetOr(0), 0))
  }

  /** Lines 18-26 on the table: every row conformed, none dropped. */
  function FillDefaults(rows: seq<RawRow>): (staged: seq<StagedRow>)
    ensures |staged| == |rows|
    ensures forall i :: 0 <= i < |rows| ==> staged[i] == Conform(rows[i])
  {
    if rows == [] then [] else [Conform(rows[0])] + FillDefaults(rows[1..])
  }

  /** Lines 30-32 on one row: parse the date, drop the row on NaT, keep the day. */
  function ParseRow(parse: DateParser, s: StagedRow): (c: Option<CleanRecord>)
    ensures c.None? <==> parse(s.lastUpdate).None?
    ensures c.Some? ==> c.value.lastUpdate == parse(s.lastUpdate).value.date
    ensures c.Some? ==> c.value.provinceState == s.provinceState
    ensures c.Some? ==> c.value.country == s.country && c.value.measures == s.measures
  {
    match parse(s.lastUpdate)
    case None => None
    case Some(t) => Some(CleanRecord(s.provinceState, s.country, t.date, s.measures))
  }

  /** Lines 30-32 on the table. */
  function ParseDates(parse: DateParser, rows: seq<StagedRow>): (cleaned: seq<CleanRecord>)
    ensures |cleaned| <= |rows|
    ensures forall c :: c in cleaned <==> exists s :: s in rows && ParseRow(parse, s) == Some(c)
  {
    if rows == [] then []
    else
      var rest := ParseDates(parse, rows[1..]);
      assert forall s :: s in rows <==> s == rows[0] || s in rows[1..];
      match ParseRow(parse, rows[0])
      case None => rest
      case Some(c) => [c] + rest
  }

  /** The whole cleaning stage, lines 13-32, stage after stage as the script runs it. */
  function Clean(parse: DateParser, raws: seq<RawRow>): (cleaned: seq<CleanRecord>)
    ensures |cleaned| <= |raws|
  {
    ParseDates(parse, FillDefaults(DropZeroDates(raws)))
  }

  /** The same cleaning, stated one raw row at a time: the reference the
      column-wise pipeline is proved equal to. */
  function CleanOne(parse: DateParser, r: RawRow): (c: Option<CleanRecord>)
    ensures c.Some? <==> r.observationDate != ZeroText && parse(r.observationDate).Some?
    ensures c.Some? ==> c.value.lastUpdate == parse(r.observationDate).value.date
    ensures c.Some? ==> c.value.provinceState == r.provinceState.GetOr(UnknownProvince)
    ensures c.Some? ==> c.value.country == r.countryRegion
    ensures c.Some? ==> c.value.measures
                        == Measures(r.confirmed.GetOr(0), r.deaths.GetOr(0), r.recovered.GetOr(0), 0)
  {
    if r.observationDate == ZeroText then None else ParseRow(parse, Conform(r))
  }

  /** Row-at-a-time cleaning of a table. */
  function CleanRows(parse: DateParser, raws: seq<RawRow>): (cleaned: seq<CleanRecord>)
    ensures |cleaned| <= |raws|
    ensures forall c :: c in cleaned <==> exists r :: r in raws && CleanOne(parse, r) == Some(c)
  {
    if raws == [] then []
    else
      var rest := CleanRows(parse, raws[1..]);
      assert forall r :: r in raws <==> r == raws[0] || r in raws[1..];
      match CleanOne(parse, raws[0])
      case None => rest
      case Some(c) => [c] + rest
  }

  /** The column-wise pipeline equals the row-at-a-time reference. */
  lemma {:induction false} CleanIsRowwise(parse: DateParser, raws: seq<RawRow>)
    ensures Clean(parse, raws) == CleanRows(parse, raws)
  {
    if raws != [] {
      CleanIsRowwise(parse, raws[1..]);
      var r := raws[0];
      if r.observationDate == ZeroText {
        assert DropZeroDates(raws) == DropZeroDates(raws[1..]);
      } else {
        assert DropZeroDates(raws) == [r] + DropZeroDates(raws[1..]);
        assert FillDefaults([r] + DropZeroDates(raws[1..]))
            == [Conform(r)] + FillDefaults(DropZeroDates(raws[1..]));
        var staged := [Conform(r)] + FillDefaults(DropZeroDates(raws[1..]));
        assert staged[1..] == FillDefaults(DropZeroDates(raws[1..]));
      }
    }
  }

  /** Row-at-a-time cleaning distributes over concatenation: the order of the
      surviving rows is the order of the raw rows. */
  lemma {:induction false} CleanRowsAppend(parse: DateParser, a: seq<RawRow>, b: seq<RawRow>)
    ensures CleanRows(parse, a + b) == CleanRows(parse, a) + CleanRows(parse, b)
  {
    if a != [] {
      assert (a + b)[1..] == a[1..] + b;
      CleanRowsAppend(parse, a[1..], b);
    } else {
      assert a + b == b;
    }
  }

  /** Cleaning keeps the relative order of the rows: cleaning two consecutive
      slices of a table gives the two cleaned slices, one after the other. */
  lemma CleanAppend(parse: DateParser, a: seq<RawRow>, b: seq<RawRow>)
    ensures Clean(parse, a + b) == Clean(parse, a) + Clean(parse, b)
  {
    CleanIsRowwise(parse, a + b);
    CleanIsRowwise(parse, a);
    CleanIsRowwise(parse, b);
    CleanRowsAppend(parse, a, b);
  }

  /** What the cleaned table holds: exactly the row-wise cleanings of the raw
      rows that survive, so every cleaned row has a province, Suspected = 0,
      the parsed day of a date text other than "0", and the raw row's
      measures with empty cells as 0. */
  lemma CleanMembership(parse: DateParser, raws: seq<RawRow>, c: CleanRecord)
    ensures c in Clean(parse, raws) <==> exists r :: r in raws && CleanOne(parse, r) == Some(c)
    ensures c in Clean(parse, raws) ==> c.measures.suspected == 0
  {
    CleanIsRowwise(parse, raws);
  }
}
