/**
 * The spreadsheet connector: a table fetched from a sheet, kept in a
 * time-limited cache, and typed column by column for the dashboard.
 *
 * The network fetch is a parameter (`sheet`, the rows of strings the sheet
 * would return), and so is the clock (`now`, in microseconds). The string
 * parsers of the dataframe library are parameters too (`parseDate`,
 * `parseNumber`).
 */
module Sheets {
  import opened Base
  import opened Sales

  // ---------------------------------------------------------------------
  // Data frames
  // ---------------------------------------------------------------------

  /** One cell of a data frame; `Missing` is None, NaN or NaT. */
  datatype Cell = Missing | Text(text: string) | Number(number: real) | Timestamp(day: Date)

  /** A data frame: column names and rows of cells. */
  datatype Table = Table(columns: seq<string>, rows: seq<seq<Cell>>)

  /** Every row has one cell per column. */
  predicate WellFormed(t: Table)
  {
    forall i :: 0 <= i < |t.rows| ==> |t.rows[i]| == |t.columns|
  }

  /** `pd.DataFrame()`. */
  const EmptyTable: Table := Table([], [])

  /** The exceptions the modelled code can raise. */
  datatype FrameError =
    | ShapeMismatch(columnsPassed: nat, dataColumns: nat)  // ValueError from the DataFrame constructor
    | MissingColumn(name: string)                          // KeyError on `df[name]`
    | AmbiguousColumn(name: string)                        // `df[name]` is a frame, not a column
    | UnparseableDate(text: string)                        // `pd.to_datetime` rejects a value

  /** The widest row (0 for no rows). */
  function MaxWidth(rows: seq<seq<string>>): (w: nat)
    ensures forall i :: 0 <= i < |rows| ==> |rows[i]| <= w
    ensures rows != [] ==> exists i :: 0 <= i < |rows| && |rows[i]| == w
  {
    if rows == [] then 0
    else
      var w := MaxWidth(rows[1..]);
      assert forall i :: 1 <= i < |rows| ==> rows[i] == rows[1..][i - 1];
      if |rows[0]| >= w then |rows[0]| else w
  }

  /** A row of strings as cells, padded on the right with `Missing` up to `width`. */
  function PadRow(row: seq<string>, width: nat): (cells: seq<Cell>)
    requires |row| <= width
  {
    seq(width, j requires 0 <= j < width => if j < |row| then Text(row[j]) else Missing)
  }

  /**
   * `pd.DataFrame(values[1:], columns=values[0])`: the first row names the
   * columns and the others become the rows, in order. Short rows are padded
   * with missing cells; the constructor raises unless the widest data row
   * is exactly as wide as the header (a header with no data rows is fine).
   */
  function BuildFrame(values: seq<seq<string>>): (r: Result<Table, FrameError>)
    requires values != []
    ensures r.Ok? <==> |values| == 1 || MaxWidth(values[1..]) == |values[0]|
    ensures r.Err? ==> r.error == ShapeMismatch(|values[0]|, MaxWidth(values[1..]))
    ensures r.Ok? ==> WellFormed(r.value) && r.value.columns == values[0] && |r.value.rows| == |values| - 1
    ensures r.Ok? ==> forall i, j :: 0 <= i < |r.value.rows| && 0 <= j < |values[0]| ==>
      r.value.rows[i][j] == if j < |values[i + 1]| then Text(values[i + 1][j]) else Missing
  {
    var header, body := values[0], values[1..];
    if body == [] then Ok(Table(header, []))
    else if MaxWidth(body) != |header| then Err(ShapeMismatch(|header|, MaxWidth(body)))
    else Ok(Table(header, seq(|body|, i requires 0 <= i < |body| => PadRow(body[i], |header|))))
  }

  /** The strings of a row's leading text cells: the row as the sheet sent it. */
  function TextPrefix(cells: seq<Cell>): seq<string>
  {
    if cells == [] || !cells[0].Text? then [] else [cells[0].text] + TextPrefix(cells[1..])
  }

  /** A frame back as sheet values: the header row, then each row's text. */
  function SheetValues(t: Table): seq<seq<string>>
  {
    [t.columns] + seq(|t.rows|, i requires 0 <= i < |t.rows| => TextPrefix(t.rows[i]))
  }

  lemma {:induction false} TextPrefixOfPadRow(row: seq<string>, width: nat)
    requires |row| <= width
    ensures TextPrefix(PadRow(row, width)) == row
  {
    if row != [] {
      var cells := PadRow(row, width);
      assert cells[1..] == PadRow(row[1..], width - 1);
      TextPrefixOfPadRow(row[1..], width - 1);
      assert row == [row[0]] + row[1..];
    } else if width > 0 {
      assert PadRow(row, width)[0] == Missing;
    }
  }

  /** Building a frame loses nothing: the sheet values can be read back from it. */
  lemma BuildFrameRoundTrip(values: seq<seq<string>>)
    requires values != []
    requires BuildFrame(values).Ok?
    ensures SheetValues(BuildFrame(values).value) == values
  {
    var t := BuildFrame(values).value;
    var body := values[1..];
    if body != [] {
      forall i | 0 <= i < |body| ensures TextPrefix(t.rows[i]) == body[i] {
        TextPrefixOfPadRow(body[i], |values[0]|);
      }
    }
    assert values == [values[0]] + body;
  }

  // ---------------------------------------------------------------------
  // The cache
  // ---------------------------------------------------------------------

  /** The connector's two mutable fields. */
  datatype CacheState = CacheState(cachedData: Option<Table>, lastCacheTime: Option<int>)

  /** The cache invariant: data and time are set together, and the data is a well-formed frame. */
  predicate ValidCache(s: CacheState)
  {
    && (s.cachedData.Some? <==> s.lastCacheTime.Some?)
    && (s.cachedData.Some? ==> WellFormed(s.cachedData.value))
  }

  /** How a `get_data` call was answered. */
  datatype Reply =
    | CacheHit(frame: Table)       // the cached frame itself
    | Refreshed(frame: Table)      // a frame built from a fresh fetch, now cached
    | EmptySheet                   // the fetch returned no rows
    | Failed(error: FrameError)    // the frame could not be built
  {
    /** What `get_data` returns, or the exception it raises. */
    function Frame(): Result<Table, FrameError>
    {
      match this
      case CacheHit(t) => Ok(t)
      case Refreshed(t) => Ok(t)
      case EmptySheet => Ok(EmptyTable)
      case Failed(e) => Err(e)
    }
  }

  /** The cached frame may be served: caching is asked for, data and time are set, and it is strictly younger than the duration. */
  predicate ServesCache(s: CacheState, cacheDuration: int, now: int, useCache: bool)
  {
    && useCache
    && s.cachedData.Some?
    && s.lastCacheTime.Some?
    && now - s.lastCacheTime.value < cacheDuration
  }

  /**
   * One `get_data` call as a transition of the cache: serve the cache, or
   * fetch; an empty fetch and a failed frame leave the cache alone; a built
   * frame replaces the cache, stamped with the call's time.
   */
  function GetDataStep(s: CacheState, cacheDuration: int, now: int, useCache: bool, sheet: seq<seq<string>>)
    : (res: (CacheState, Reply))
    ensures res.1.CacheHit? <==> ServesCache(s, cacheDuration, now, useCache)
    ensures res.1.CacheHit? ==> res.1.frame == s.cachedData.value
    ensures res.1.EmptySheet? <==> !ServesCache(s, cacheDuration, now, useCache) && sheet == []
    ensures res.1.Refreshed? ==> sheet != [] && BuildFrame(sheet) == Ok(res.1.frame)
    ensures res.0 != s ==> res.1.Refreshed?
    ensures res.1.Refreshed? ==> res.0 == CacheState(Some(res.1.frame), Some(now))
    ensures !ServesCache(s, cacheDuration, now, useCache) && sheet != [] && BuildFrame(sheet).Ok? ==>
      res == (CacheState(Some(BuildFrame(sheet).value), Some(now)), Refreshed(BuildFrame(sheet).value))
    ensures !ServesCache(s, cacheDuration, now, useCache) && sheet != [] && BuildFrame(sheet).Err? ==>
      res == (s, Failed(BuildFrame(sheet).error))
    ensures ServesCache(s, cacheDuration, now, useCache) ==> res.1.Frame() == Ok(s.cachedData.value)
    ensures !ServesCache(s, cacheDuration, now, useCache) ==>
      res.1.Frame() == (if sheet == [] then Ok(EmptyTable) else BuildFrame(sheet))
    ensures ValidCache(s) ==> ValidCache(res.0)
  {
    if ServesCache(s, cacheDuration, now, useCache) then (s, CacheHit(s.cachedData.value))
    else if sheet == [] then (s, EmptySheet)
    else match BuildFrame(sheet)
      case Err(e) => (s, Failed(e))
      case Ok(t) => (CacheState(Some(t), Some(now)), Refreshed(t))
  }

  /** A connector that has never fetched cannot serve from its cache. */
  lemma FirstCallFetches(cacheDuration: int, now: int, useCache: bool, sheet: seq<seq<string>>)
    ensures !GetDataStep(CacheState(None, None), cacheDuration, now, useCache, sheet).1.CacheHit?
  {
  }

  /**
   * Once a fetch has refreshed the cache at time `t0`, a cached call at `t1`
   * strictly less than the duration later is answered with the same frame
   * and fetches nothing; a call at or after the duration fetches again.
   */
  lemma RefreshThenServe(s: CacheState, cacheDuration: int, t0: int, t1: int, sheet0: seq<seq<string>>, sheet1: seq<seq<string>>)
    requires GetDataStep(s, cacheDuration, t0, true, sheet0).1.Refreshed?
    ensures var (s1, r0) := GetDataStep(s, cacheDuration, t0, true, sheet0);
            var r1 := GetDataStep(s1, cacheDuration, t1, true, sheet1).1;
            (t1 - t0 < cacheDuration ==> r1 == CacheHit(r0.frame))
            && (t1 - t0 >= cacheDuration ==> !r1.CacheHit?)
  {
  }

  /**
   * A new connector, asked twice for the same sheet: the first call fetches
   * and caches, and a second call strictly within the cache duration gets
   * the very frame the first built, whatever the sheet holds by then.
   */
  method FetchThenHit(minutes: int, t0: int, t1: int, sheet0: seq<seq<string>>, sheet1: seq<seq<string>>)
    returns (first: Reply, second: Reply)
    requires sheet0 != [] && BuildFrame(sheet0).Ok?
    requires 0 <= t1 - t0 < minutes * MicrosPerMinute
    ensures first == Refreshed(BuildFrame(sheet0).value)
    ensures second == CacheHit(first.frame)
  {
    var connector := new SheetsConnector("sheet", minutes);
    first := connector.GetData(t0, true, sheet0);
    second := connector.GetData(t1, true, sheet1);
  }

  // ---------------------------------------------------------------------
  // Typing the columns
  // ---------------------------------------------------------------------

  const DateColumn: string := "date"

  /** The columns `get_sales_data` converts to numbers, in order. */
  const NumericColumns: seq<string> := ["sales_amount", "quantity", "cost"]

  /** The positions of the columns called `name`. */
  function Positions(columns: seq<string>, name: string): (ps: seq<nat>)
    ensures forall p: int :: p in ps <==> 0 <= p < |columns| && columns[p] == name
    ensures |ps| == 0 <==> name !in columns
  {
    if columns == [] then []
    else
      var n := |columns| - 1;
      var ps := Positions(columns[..n], name);
      assert forall p :: 0 <= p < n ==> columns[..n][p] == columns[p];
      assert columns == columns[..n] + [columns[n]];
      if columns[n] == name then ps + [n] else ps
  }

  /** Each column carrying the name is listed once, left to right, so `|Positions|` counts those columns. */
  lemma {:induction false} PositionsIncreasing(columns: seq<string>, name: string)
    ensures forall a, b :: 0 <= a < b < |Positions(columns, name)| ==> Positions(columns, name)[a] < Positions(columns, name)[b]
  {
    if columns != [] {
      var n := |columns| - 1;
      var ps := Positions(columns[..n], name);
      PositionsIncreasing(columns[..n], name);
      assert forall p :: p in ps ==> p < n;
      var qs := Positions(columns, name);
      forall a, b | 0 <= a < b < |qs|
        ensures qs[a] < qs[b]
      {
        if b == |ps| {
          assert qs[a] == ps[a];
          assert ps[a] in ps;
        }
      }
    }
  }

  /** A name has more than one position exactly when two different columns carry it. */
  lemma PositionsShared(columns: seq<string>, name: string)
    ensures |Positions(columns, name)| > 1 <==>
      exists a, b :: 0 <= a < b < |columns| && columns[a] == name && columns[b] == name
  {
    var ps := Positions(columns, name);
    if |ps| > 1 {
      PositionsIncreasing(columns, name);
      assert ps[0] in ps && ps[1] in ps;
    }
  }

  /** `pd.to_numeric(cell, errors='coerce')`: text becomes its number, or missing when it is not one. */
  function ToNumeric(c: Cell, parseNumber: string -> Option<real>): (r: Cell)
    ensures !r.Text?
    ensures c.Text? && parseNumber(c.text).Some? ==> r == Number(parseNumber(c.text).value)
    ensures c.Text? && parseNumber(c.text).None? ==> r == Missing
    ensures !c.Text? ==> r == c
  {
    match c
    case Text(s) => (match parseNumber(s) case Some(x) => Number(x) case None => Missing)
    case _ => c
  }

  /** Replace the cells of column `j`, leaving every other cell alone. */
  function WithColumn(t: Table, j: nat, cells: seq<Cell>): (t': Table)
    requires WellFormed(t) && j < |t.columns| && |cells| == |t.rows|
    ensures WellFormed(t') && t'.columns == t.columns && |t'.rows| == |t.rows|
    ensures forall i, k :: 0 <= i < |t.rows| && 0 <= k < |t.columns| ==>
      t'.rows[i][k] == if k == j then cells[i] else t.rows[i][k]
  {
    Table(t.columns, seq(|t.rows|, i requires 0 <= i < |t.rows| => t.rows[i][j := cells[i]]))
  }

  /**
   * One iteration of the numeric loop: `if col in df.columns:
   * df[col] = pd.to_numeric(df[col], errors='coerce')`. It never raises on
   * a value; it raises only when two columns share the name, which is
   * what `|Positions| > 1` means (`PositionsShared`).
   */
  function CoerceNamed(t: Table, name: string, parseNumber: string -> Option<real>): (r: Result<Table, FrameError>)
    requires WellFormed(t)
    ensures r.Err? <==> |Positions(t.columns, name)| > 1
    ensures r.Err? ==> r.error == AmbiguousColumn(name)
    ensures r.Ok? ==> WellFormed(r.value) && r.value.columns == t.columns && |r.value.rows| == |t.rows|
    ensures r.Ok? ==> forall i, k :: 0 <= i < |t.rows| && 0 <= k < |t.columns| ==>
      r.value.rows[i][k] == if t.columns[k] == name then ToNumeric(t.rows[i][k], parseNumber) else t.rows[i][k]
  {
    var ps := Positions(t.columns, name);
    if |ps| == 0 then Ok(t)
    else if |ps| > 1 then Err(AmbiguousColumn(name))
    else
      assert forall k :: 0 <= k < |t.columns| && t.columns[k] == name ==> k == ps[0] by {
        forall k | 0 <= k < |t.columns| && t.columns[k] == name ensures k == ps[0] {
          assert k in ps;
        }
      }
      Ok(WithColumn(t, ps[0], seq(|t.rows|, i requires 0 <= i < |t.rows| => ToNumeric(t.rows[i][ps[0]], parseNumber))))
  }

  /** Where the numeric loop stopped: the frame as it then stood, and the exception if one was raised. */
  datatype Progress = Progress(table: Table, failure: Option<FrameError>)

  /**
   * How many of `names` the numeric loop gets through: the index of the
   * first name shared by two or more columns (`PositionsShared`), or all
   * of them.
   */
  function FirstShared(columns: seq<string>, names: seq<string>): (k: nat)
    ensures k <= |names|
    ensures forall i :: 0 <= i < k ==> |Positions(columns, names[i])| <= 1
    ensures k < |names| ==> |Positions(columns, names[k])| > 1
  {
    if names == [] then 0
    else if |Positions(columns, names[0])| > 1 then 0
    else 1 + FirstShared(columns, names[1..])
  }

  /**
   * The numeric loop over `names`, stopping at the first exception. Columns
   * keep their names and the frame its rows. The loop raises exactly when a
   * listed name is shared by two columns, naming the first such one; the
   * columns listed before it are coerced and every other column is left as
   * it was.
   */
  function CoerceColumns(t: Table, names: seq<string>, parseNumber: string -> Option<real>): (p: Progress)
    requires WellFormed(t)
    ensures WellFormed(p.table) && p.table.columns == t.columns && |p.table.rows| == |t.rows|
    ensures p.failure.None? <==> FirstShared(t.columns, names) == |names|
    ensures p.failure.Some? ==> p.failure.value == AmbiguousColumn(names[FirstShared(t.columns, names)])
    ensures forall i, k :: 0 <= i < |t.rows| && 0 <= k < |t.columns| ==>
      p.table.rows[i][k] ==
        if t.columns[k] in names[..FirstShared(t.columns, names)] then ToNumeric(t.rows[i][k], parseNumber) else t.rows[i][k]
    decreases |names|
  {
    if names == [] then Progress(t, None)
    else match CoerceNamed(t, names[0], parseNumber)
      case Err(e) => Progress(t, Some(e))
      case Ok(t') =>
        var p := CoerceColumns(t', names[1..], parseNumber);
        CoerceColumnsStep(t, names, parseNumber, t', p);
        p
  }

  /**
   * The numeric loop succeeds exactly when no listed name is shared by two
   * columns, and a failure names a column that is shared.
   */
  lemma CoerceColumnsFailsOnlyOnShared(t: Table, names: seq<string>, parseNumber: string -> Option<real>)
    requires WellFormed(t)
    ensures CoerceColumns(t, names, parseNumber).failure.None? <==>
      forall i :: 0 <= i < |names| ==> |Positions(t.columns, names[i])| <= 1
    ensures CoerceColumns(t, names, parseNumber).failure.Some? ==>
      var e := CoerceColumns(t, names, parseNumber).failure.value;
      e.AmbiguousColumn? && e.name in names && |Positions(t.columns, e.name)| > 1
  {
  }

  /** One turn of the numeric loop: the first name is coerced, then the rest. */
  lemma CoerceColumnsUnfold(t: Table, names: seq<string>, parseNumber: string -> Option<real>)
    requires WellFormed(t) && names != []
    ensures CoerceNamed(t, names[0], parseNumber).Err? ==>
      CoerceColumns(t, names, parseNumber) == Progress(t, Some(CoerceNamed(t, names[0], parseNumber).error))
    ensures CoerceNamed(t, names[0], parseNumber).Ok? ==>
      CoerceColumns(t, names, parseNumber) == CoerceColumns(CoerceNamed(t, names[0], parseNumber).value, names[1..], parseNumber)
  {
  }

  lemma CoerceColumnsStep(t: Table, names: seq<string>, parseNumber: string -> Option<real>, t': Table, p: Progress)
    requires WellFormed(t) && names != []
    requires CoerceNamed(t, names[0], parseNumber) == Ok(t')
    requires |p.table.rows| == |t.rows| && WellFormed(p.table) && p.table.columns == t.columns
    requires forall i, k :: 0 <= i < |t.rows| && 0 <= k < |t.columns| ==>
      p.table.rows[i][k] ==
        if t'.columns[k] in names[1..][..FirstShared(t'.columns, names[1..])]
        then ToNumeric(t'.rows[i][k], parseNumber) else t'.rows[i][k]
    ensures forall i, k :: 0 <= i < |t.rows| && 0 <= k < |t.columns| ==>
      p.table.rows[i][k] ==
        if t.columns[k] in names[..FirstShared(t.columns, names)] then ToNumeric(t.rows[i][k], parseNumber) else t.rows[i][k]
  {
    var m := FirstShared(t.columns, names);
    assert m == 1 + FirstShared(t'.columns, names[1..]);
    forall i, k | 0 <= i < |t.rows| && 0 <= k < |t.columns|
      ensures p.table.rows[i][k] ==
        if t.columns[k] in names[..m] then ToNumeric(t.rows[i][k], parseNumber) else t.rows[i][k]
    {
      PrefixMembership(names, m, t.columns[k]);
    }
  }

  lemma PrefixMembership(names: seq<string>, m: nat, n: string)
    requires 1 <= m <= |names|
    ensures n in names[..m] <==> n == names[0] || n in names[1..][..m - 1]
  {
    assert names[..m] == [names[0]] + names[1..][..m - 1];
  }

  /** `pd.to_datetime` on one cell: empty text and missing values are NaT. */
  function ToDate(c: Cell, parseDate: string -> Option<Date>): (r: Result<Cell, FrameError>)
    ensures r.Ok? ==> !r.value.Text?
    ensures c == Text("") ==> r == Ok(Missing)
    ensures !c.Text? || c.text == "" ==> r.Ok?
    ensures !c.Text? ==> r == Ok(c)
    ensures c.Text? && c.text != "" ==> (r.Ok? <==> parseDate(c.text).Some?)
    ensures c.Text? && c.text != "" && r.Ok? ==> r.value == Timestamp(parseDate(c.text).value)
    ensures r.Err? ==> c.Text? && r.error == UnparseableDate(c.text)
  {
    match c
    case Text(s) =>
      if s == "" then Ok(Missing)
      else (match parseDate(s) case Some(d) => Ok(Timestamp(d)) case None => Err(UnparseableDate(s)))
    case _ => Ok(c)
  }

  /** `pd.to_datetime` down column `j`, raising on the first value it cannot read. */
  function ToDateColumn(rows: seq<seq<Cell>>, j: nat, parseDate: string -> Option<Date>): (r: Result<seq<Cell>, FrameError>)
    requires forall i :: 0 <= i < |rows| ==> j < |rows[i]|
    ensures r.Ok? ==> |r.value| == |rows|
    ensures r.Ok? ==> forall i :: 0 <= i < |rows| ==> ToDate(rows[i][j], parseDate) == Ok(r.value[i])
    ensures r.Err? ==>
      exists i :: 0 <= i < |rows| && ToDate(rows[i][j], parseDate) == Err(r.error) &&
        forall i' :: 0 <= i' < i ==> ToDate(rows[i'][j], parseDate).Ok?
  {
    if rows == [] then Ok([])
    else match ToDate(rows[0][j], parseDate)
      case Err(e) => Err(e)
      case Ok(c) =>
        match ToDateColumn(rows[1..], j, parseDate)
        case Err(e) =>
          assert forall i :: 1 <= i < |rows| ==> rows[i] == rows[1..][i - 1];
          ghost var i :| 0 <= i < |rows[1..]| && ToDate(rows[1..][i][j], parseDate) == Err(e) &&
            forall i' :: 0 <= i' < i ==> ToDate(rows[1..][i'][j], parseDate).Ok?;
          assert ToDate(rows[i + 1][j], parseDate) == Err(e);
          Err(e)
        case Ok(cs) =>
          assert forall i :: 1 <= i < |rows| ==> rows[i] == rows[1..][i - 1];
          Ok([c] + cs)
  }

  /** `df['date'] = pd.to_datetime(df['date'])`. */
  function ConvertDates(t: Table, parseDate: string -> Option<Date>): (r: Result<Table, FrameError>)
    requires WellFormed(t)
    ensures |Positions(t.columns, DateColumn)| == 0 ==> r == Err(MissingColumn(DateColumn))
    ensures |Positions(t.columns, DateColumn)| > 1 ==> r == Err(AmbiguousColumn(DateColumn))
    ensures r.Ok? ==> WellFormed(r.value) && r.value.columns == t.columns && |r.value.rows| == |t.rows|
    ensures r.Ok? ==> forall i, k :: 0 <= i < |t.rows| && 0 <= k < |t.columns| && t.columns[k] != DateColumn ==>
      r.value.rows[i][k] == t.rows[i][k]
    ensures r.Ok? ==> forall i, k :: 0 <= i < |t.rows| && 0 <= k < |t.columns| && t.columns[k] == DateColumn ==>
      ToDate(t.rows[i][k], parseDate) == Ok(r.value.rows[i][k])
    ensures |Positions(t.columns, DateColumn)| == 1 ==>
      (r.Ok? <==> forall i, k :: 0 <= i < |t.rows| && 0 <= k < |t.columns| && t.columns[k] == DateColumn ==>
        ToDate(t.rows[i][k], parseDate).Ok?)
    ensures |Positions(t.columns, DateColumn)| == 1 && r.Err? ==>
      exists i, k :: 0 <= i < |t.rows| && 0 <= k < |t.columns| && t.columns[k] == DateColumn &&
        ToDate(t.rows[i][k], parseDate) == Err(r.error) &&
        forall i' :: 0 <= i' < i ==> ToDate(t.rows[i'][k], parseDate).Ok?
  {
    var ps := Positions(t.columns, DateColumn);
    if |ps| == 0 then Err(MissingColumn(DateColumn))
    else if |ps| > 1 then Err(AmbiguousColumn(DateColumn))
    else
      assert ps[0] in ps;
      assert forall k :: 0 <= k < |t.columns| && t.columns[k] == DateColumn ==> k == ps[0] by {
        forall k | 0 <= k < |t.columns| && t.columns[k] == DateColumn ensures k == ps[0] {
          assert k in ps;
        }
      }
      match ToDateColumn(t.rows, ps[0], parseDate)
      case Err(e) => Err(e)
      case Ok(cells) => Ok(WithColumn(t, ps[0], cells))
  }

  /**
   * What `get_sales_data` makes of one cell of column `name`: a date column
   * cell is parsed as a date, a numeric column cell is coerced to a number,
   * and any other cell is left as it was.
   */
  predicate Typed(name: string, before: Cell, after: Cell, parseDate: string -> Option<Date>, parseNumber: string -> Option<real>)
  {
    if name == DateColumn then ToDate(before, parseDate) == Ok(after)
    else if name in NumericColumns then after == ToNumeric(before, parseNumber)
    else after == before
  }

  /** `t` is the frame `f` with every cell typed: same shape, each cell `Typed`. */
  predicate TypedFrame(f: Table, t: Table, parseDate: string -> Option<Date>, parseNumber: string -> Option<real>)
  {
    && WellFormed(f) && WellFormed(t) && t.columns == f.columns && |t.rows| == |f.rows|
    && forall i, k :: 0 <= i < |f.rows| && 0 <= k < |f.columns| ==>
         Typed(f.columns[k], f.rows[i][k], t.rows[i][k], parseDate, parseNumber)
  }

  /**
   * The conversions of `get_sales_data` on the frame `f`: the date column,
   * then each numeric column present. The result is the frame as the
   * conversions, made in place, leave it, and the exception if one was
   * raised. It succeeds exactly when the date column converts and no
   * numeric name is shared; a date failure leaves the frame untouched; once
   * the dates converted, the frame is the numeric loop's, so a shared
   * numeric name leaves the dates and the earlier numeric columns converted;
   * on success every cell is typed.
   */
  function TypeFrame(f: Table, parseDate: string -> Option<Date>, parseNumber: string -> Option<real>): (p: Progress)
    requires WellFormed(f)
    ensures WellFormed(p.table) && p.table.columns == f.columns && |p.table.rows| == |f.rows|
    ensures p.failure.None? <==> ConvertDates(f, parseDate).Ok? && FirstShared(f.columns, NumericColumns) == |NumericColumns|
    ensures ConvertDates(f, parseDate).Err? ==> p == Progress(f, Some(ConvertDates(f, parseDate).error))
    ensures ConvertDates(f, parseDate).Ok? && p.failure.Some? ==>
      p.failure.value == AmbiguousColumn(NumericColumns[FirstShared(f.columns, NumericColumns)])
    ensures ConvertDates(f, parseDate).Ok? ==> p == CoerceColumns(ConvertDates(f, parseDate).value, NumericColumns, parseNumber)
    ensures p.failure.None? ==> TypedFrame(f, p.table, parseDate, parseNumber)
  {
    match ConvertDates(f, parseDate)
    case Err(e) => Progress(f, Some(e))
    case Ok(d) =>
      var p := CoerceColumns(d, NumericColumns, parseNumber);
      if p.failure.None? then
        TypedAfterConversion(f, d, p.table, parseDate, parseNumber);
        p
      else p
  }

  /**
   * A frame `d` whose date column was converted from `f`, and a frame `t`
   * whose numeric columns were then coerced from `d`, is typed cell by cell.
   */
  lemma TypedAfterConversion(f: Table, d: Table, t: Table, parseDate: string -> Option<Date>, parseNumber: string -> Option<real>)
    requires WellFormed(f) && WellFormed(d) && WellFormed(t)
    requires d.columns == f.columns && |d.rows| == |f.rows| && t.columns == f.columns && |t.rows| == |f.rows|
    requires forall i, k :: 0 <= i < |f.rows| && 0 <= k < |f.columns| && f.columns[k] != DateColumn ==>
      d.rows[i][k] == f.rows[i][k]
    requires forall i, k :: 0 <= i < |f.rows| && 0 <= k < |f.columns| && f.columns[k] == DateColumn ==>
      ToDate(f.rows[i][k], parseDate) == Ok(d.rows[i][k])
    requires FirstShared(d.columns, NumericColumns) == |NumericColumns|
    requires forall i, k :: 0 <= i < |d.rows| && 0 <= k < |d.columns| ==>
      t.rows[i][k] ==
        if d.columns[k] in NumericColumns[..FirstShared(d.columns, NumericColumns)] then ToNumeric(d.rows[i][k], parseNumber) else d.rows[i][k]
    ensures TypedFrame(f, t, parseDate, parseNumber)
  {
    assert NumericColumns[..FirstShared(d.columns, NumericColumns)] == NumericColumns;
    forall i, k | 0 <= i < |f.rows| && 0 <= k < |f.columns|
      ensures Typed(f.columns[k], f.rows[i][k], t.rows[i][k], parseDate, parseNumber)
    {
      TypedCell(f.columns[k], f.rows[i][k], d.rows[i][k], t.rows[i][k], parseDate, parseNumber);
    }
  }

  /** One cell through both conversions: the date parse, then the numeric coercion. */
  lemma TypedCell(name: string, before: Cell, mid: Cell, after: Cell, parseDate: string -> Option<Date>, parseNumber: string -> Option<real>)
    requires name == DateColumn ==> ToDate(before, parseDate) == Ok(mid)
    requires name != DateColumn ==> mid == before
    requires after == if name in NumericColumns then ToNumeric(mid, parseNumber) else mid
    ensures Typed(name, before, after, parseDate, parseNumber)
  {
    assert DateColumn !in NumericColumns;
  }

  /**
   * `get_sales_data` after its `get_data` call. The frame `get_data` hands
   * back is the cached object whenever it came from the cache or was just
   * stored there, so the conversions, made in place, also change the
   * cache, and one that raises leaves the earlier ones in place.
   */
  function AfterFetch(s: CacheState, reply: Reply, parseDate: string -> Option<Date>, parseNumber: string -> Option<real>)
    : (res: (CacheState, Result<Table, FrameError>))
    requires ValidCache(s)
    requires (reply.CacheHit? || reply.Refreshed?) ==> s.cachedData == Some(reply.frame)
    ensures ValidCache(res.0) && res.0.lastCacheTime == s.lastCacheTime
    ensures reply == EmptySheet ==> res == (s, Err(MissingColumn(DateColumn)))
    ensures reply.Failed? ==> res == (s, Err(reply.error))
    ensures (reply.CacheHit? || reply.Refreshed?) ==>
      res.0.cachedData == Some(TypeFrame(reply.frame, parseDate, parseNumber).table)
    ensures (reply.CacheHit? || reply.Refreshed?) ==>
      (res.1.Ok? <==> TypeFrame(reply.frame, parseDate, parseNumber).failure.None?)
    ensures res.1.Ok? ==> (reply.CacheHit? || reply.Refreshed?) && res.0.cachedData == Some(res.1.value)
    ensures res.1.Err? && (reply.CacheHit? || reply.Refreshed?) ==>
      Some(res.1.error) == TypeFrame(reply.frame, parseDate, parseNumber).failure
  {
    match reply
    case Failed(e) => (s, Err(e))
    case EmptySheet => (s, Err(MissingColumn(DateColumn)))
    case _ =>
      var p := TypeFrame(reply.frame, parseDate, parseNumber);
      (CacheState(Some(p.table), s.lastCacheTime), if p.failure.None? then Ok(p.table) else Err(p.failure.value))
  }

  /**
   * Typing is idempotent: a frame that was typed without an exception comes
   * back unchanged, and without an exception, when it is typed again.
   */
  lemma TypeFrameIdempotent(f: Table, parseDate: string -> Option<Date>, parseNumber: string -> Option<real>)
    requires WellFormed(f) && TypeFrame(f, parseDate, parseNumber).failure.None?
    ensures var t := TypeFrame(f, parseDate, parseNumber).table;
            TypeFrame(t, parseDate, parseNumber) == Progress(t, None)
  {
    var p := TypeFrame(f, parseDate, parseNumber);
    TypedFrameIsStable(f, p.table, parseDate, parseNumber);
  }

  /** A frame typed from a frame whose conversions succeeded types to itself. */
  lemma TypedFrameIsStable(f: Table, t: Table, parseDate: string -> Option<Date>, parseNumber: string -> Option<real>)
    requires TypedFrame(f, t, parseDate, parseNumber)
    requires ConvertDates(f, parseDate).Ok? && FirstShared(f.columns, NumericColumns) == |NumericColumns|
    ensures TypeFrame(t, parseDate, parseNumber) == Progress(t, None)
  {
    RetypedDatesParse(f, t, parseDate, parseNumber);
    var p := TypeFrame(t, parseDate, parseNumber);
    RetypedFrameUnchanged(f, t, p.table, parseDate, parseNumber);
  }

  /** The date column of a typed frame holds no text, so every cell of it converts. */
  lemma RetypedDatesParse(f: Table, t: Table, parseDate: string -> Option<Date>, parseNumber: string -> Option<real>)
    requires TypedFrame(f, t, parseDate, parseNumber) && |Positions(t.columns, DateColumn)| == 1
    ensures ConvertDates(t, parseDate).Ok?
  {
    forall i, k | 0 <= i < |t.rows| && 0 <= k < |t.columns| && t.columns[k] == DateColumn
      ensures ToDate(t.rows[i][k], parseDate).Ok?
    {
      assert Typed(f.columns[k], f.rows[i][k], t.rows[i][k], parseDate, parseNumber);
    }
  }

  /** Typing a typed cell again leaves it as it is. */
  lemma TypedTwice(name: string, a: Cell, b: Cell, c: Cell, parseDate: string -> Option<Date>, parseNumber: string -> Option<real>)
    requires Typed(name, a, b, parseDate, parseNumber) && Typed(name, b, c, parseDate, parseNumber)
    ensures c == b
  {
  }

  /** Typing a typed frame again leaves it as it is. */
  lemma RetypedFrameUnchanged(f: Table, t: Table, t2: Table, parseDate: string -> Option<Date>, parseNumber: string -> Option<real>)
    requires TypedFrame(f, t, parseDate, parseNumber) && TypedFrame(t, t2, parseDate, parseNumber)
    ensures t2 == t
  {
    forall i | 0 <= i < |t.rows| ensures t2.rows[i] == t.rows[i] {
      forall k | 0 <= k < |t.columns| ensures t2.rows[i][k] == t.rows[i][k] {
        TypedTwice(t.columns[k], f.rows[i][k], t.rows[i][k], t2.rows[i][k], parseDate, parseNumber);
      }
    }
  }

  /**
   * Two `get_sales_data` calls, the second within the cache duration of the
   * stored time: the second is answered from the cache with the very frame
   * the first returned, and the cache is left as the first call left it.
   */
  lemma SalesDataRepeatsWithinTtl(s: CacheState, cacheDuration: int, t0: int, t1: int,
                                  sheet0: seq<seq<string>>, sheet1: seq<seq<string>>,
                                  parseDate: string -> Option<Date>, parseNumber: string -> Option<real>,
                                  s0: CacheState, reply: Reply, s1: CacheState, first: Result<Table, FrameError>)
    requires ValidCache(s) && (s0, reply) == GetDataStep(s, cacheDuration, t0, true, sheet0)
    requires (s1, first) == AfterFetch(s0, reply, parseDate, parseNumber) && first.Ok?
    requires t1 - s1.lastCacheTime.value < cacheDuration
    ensures GetDataStep(s1, cacheDuration, t1, true, sheet1) == (s1, CacheHit(first.value))
    ensures AfterFetch(s1, CacheHit(first.value), parseDate, parseNumber) == (s1, first)
  {
    TypeFrameIdempotent(reply.frame, parseDate, parseNumber);
  }

  /** `timedelta(minutes=1)` in the clock's unit. */
  const MicrosPerMinute: int := 60_000_000

  /** The cache lifetime a connector gets when none is given. */
  const DefaultCacheMinutes: int := 60

  /** `GoogleSheetsConnector`. */
  class SheetsConnector {
    const spreadsheetId: string
    /** `cache_duration`, in microseconds. */
    const cacheDuration: int
    var cachedData: Option<Table>
    var lastCacheTime: Option<int>

    function State(): CacheState
      reads this
    {
      CacheState(cachedData, lastCacheTime)
    }

    ghost predicate Valid()
      reads this
    {
      ValidCache(State())
    }

    /** `__init__`: no data and no time cached yet. */
    constructor (spreadsheetId: string, cacheDurationMinutes: int := DefaultCacheMinutes)
      ensures Valid()
      ensures this.spreadsheetId == spreadsheetId
      ensures cacheDuration == cacheDurationMinutes * MicrosPerMinute
      ensures cachedData == None && lastCacheTime == None
    {
      this.spreadsheetId := spreadsheetId;
      cacheDuration := cacheDurationMinutes * MicrosPerMinute;
      cachedData := None;
      lastCacheTime := None;
    }

    /** `get_data(sheet_name, use_cache)`, where `sheet` is what the fetch would return at time `now`. */
    method GetData(now: int, useCache: bool, sheet: seq<seq<string>>) returns (reply: Reply)
      requires Valid()
      modifies this
      ensures Valid()
      ensures (State(), reply) == GetDataStep(old(State()), cacheDuration, now, useCache, sheet)
    {
      if useCache && cachedData.Some? && lastCacheTime.Some? && now - lastCacheTime.value < cacheDuration {
        return CacheHit(cachedData.value);
      }
      if sheet == [] {
        return EmptySheet;
      }
      var built := BuildFrame(sheet);
      if built.Err? {
        return Failed(built.error);
      }
      cachedData := Some(built.value);
      lastCacheTime := Some(now);
      reply := Refreshed(built.value);
    }

    /** `get_sales_data()`: fetch (through the cache), then type the date and numeric columns. */
    method GetSalesData(now: int, sheet: seq<seq<string>>, parseDate: string -> Option<Date>, parseNumber: string -> Option<real>)
      returns (result: Result<Table, FrameError>)
      requires Valid()
      modifies this
      ensures Valid()
      ensures var (s, reply) := GetDataStep(old(State()), cacheDuration, now, true, sheet);
              (State(), result) == AfterFetch(s, reply, parseDate, parseNumber)
    {
      var reply := GetData(now, true, sheet);
      if reply.Failed? {
        return Err(reply.error);
      }
      if reply.EmptySheet? {
        return Err(MissingColumn(DateColumn));
      }
      var converted := ConvertDates(reply.frame, parseDate);
      if converted.Err? {
        return Err(converted.error);
      }
      cachedData := Some(converted.value);
      result := CoerceCachedColumns(converted.value, parseNumber);
    }

    /**
     * The numeric loop of `get_sales_data` on the cached frame `df0`: each
     * column is coerced in place, so the cache follows every step, and the
     * first shared name raises.
     */
    method CoerceCachedColumns(df0: Table, parseNumber: string -> Option<real>) returns (result: Result<Table, FrameError>)
      requires WellFormed(df0) && lastCacheTime.Some?
      modifies this
      ensures Valid() && lastCacheTime == old(lastCacheTime)
      ensures var p := CoerceColumns(df0, NumericColumns, parseNumber);
              cachedData == Some(p.table) && result == if p.failure.None? then Ok(p.table) else Err(p.failure.value)
    {
      var df := df0;
      cachedData := Some(df);
      var i := 0;
      while i < |NumericColumns|
        invariant 0 <= i <= |NumericColumns|
        invariant WellFormed(df)
        invariant cachedData == Some(df) && lastCacheTime == old(lastCacheTime)
        invariant CoerceColumns(df0, NumericColumns, parseNumber) == CoerceColumns(df, NumericColumns[i..], parseNumber)
      {
        assert NumericColumns[i..][1..] == NumericColumns[i + 1..];
        CoerceColumnsUnfold(df, NumericColumns[i..], parseNumber);
        var step := CoerceNamed(df, NumericColumns[i], parseNumber);
        if step.Err? {
          return Err(step.error);
        }
        df := step.value;
        cachedData := Some(df);
        i := i + 1;
      }
      result := Ok(df);
    }
  }
}
