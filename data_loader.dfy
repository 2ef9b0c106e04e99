/** The loader of the energy time series: a parsed table is checked for the
    required columns, rows with a missing required value are dropped, and
    capacity-factor data is scaled to MW by fixed nameplate capacities.
    Reading the CSV file and turning its text into numbers happen before this
    model: a cell is already either a number or missing (None, pandas' NaN). */
module DataLoader {
  import opened Wrappers

  /** One row of the table: column name to value; None is a missing or
      non-numeric cell. */
  type Row = map<string, Option<real>>

  datatype Frame = Frame(columns: seq<string>, rows: seq<Row>)

  /** Every row has a cell for every column of the frame. */
  ghost predicate WellFormed(f: Frame) {
    forall i :: 0 <= i < |f.rows| ==> HasColumns(f.rows[i], f.columns)
  }

  ghost predicate HasColumns(row: Row, columns: seq<string>) {
    forall c :: c in columns ==> c in row
  }

  const Required: seq<string> := ["wind", "solar", "hydro", "price", "load"]

  /** The columns the capacity-factor test looks at; price is not among them. */
  const Magnitude: seq<string> := ["wind", "solar", "hydro", "load"]

  /** The threshold above which a column counts as already being in MW. */
  const CapacityFactorLimit: real := 2.0

  // ---------------------------------------------------------------------
  // Order-preserving filter (the list comprehension and DataFrame.dropna)
  // ---------------------------------------------------------------------

  function Filter<T>(s: seq<T>, keep: T -> bool): (r: seq<T>)
    ensures |r| <= |s|
    ensures forall i :: 0 <= i < |r| ==> r[i] in s && keep(r[i])
    ensures forall i :: 0 <= i < |s| && keep(s[i]) ==> s[i] in r
  {
    if s == [] then []
    else (if keep(s[0]) then [s[0]] else []) + Filter(s[1..], keep)
  }

  /** Filtering a concatenation filters each part and keeps them in order:
      the survivors keep their original relative order. */
  lemma {:induction false} FilterAppend<T>(a: seq<T>, b: seq<T>, keep: T -> bool)
    ensures Filter(a + b, keep) == Filter(a, keep) + Filter(b, keep)
    decreases |a|
  {
    if a == [] {
      assert a + b == b;
    } else {
      assert (a + b)[0] == a[0];
      assert (a + b)[1..] == a[1..] + b;
      FilterAppend(a[1..], b, keep);
    }
  }

  /** Filtering twice with the same test changes nothing more. */
  lemma {:induction false} FilterIdempotent<T>(s: seq<T>, keep: T -> bool)
    ensures Filter(Filter(s, keep), keep) == Filter(s, keep)
    decreases |s|
  {
    if s != [] {
      FilterIdempotent(s[1..], keep);
      var head := if keep(s[0]) then [s[0]] else [];
      FilterAppend(head, Filter(s[1..], keep), keep);
      assert Filter(head, keep) == head by {
        if keep(s[0]) {
          assert head[1..] == [];
        }
      }
    }
  }

  // ---------------------------------------------------------------------
  // Required columns
  // ---------------------------------------------------------------------

  /** `[col for col in names if col not in columns]` */
  function MissingFrom(names: seq<string>, columns: seq<string>): (r: seq<string>)
    ensures |r| <= |names|
    ensures forall c :: c in r <==> c in names && c !in columns
  {
    if names == [] then []
    else (if names[0] in columns then [] else [names[0]]) + MissingFrom(names[1..], columns)
  }

  /** The required columns absent from the table, in the order of Required. */
  function MissingColumns(columns: seq<string>): (r: seq<string>)
    ensures forall c :: c in r <==> c in Required && c !in columns
    ensures r == [] <==> forall c :: c in Required ==> c in columns
  {
    var r := MissingFrom(Required, columns);
    assert r != [] ==> r[0] in r;
    r
  }

  /** The missing names come out in the order wind, solar, hydro, price, load. */
  lemma MissingColumnsInOrder(columns: seq<string>)
    ensures MissingColumns(columns) ==
      (if "wind" in columns then [] else ["wind"]) +
      ((if "solar" in columns then [] else ["solar"]) +
      ((if "hydro" in columns then [] else ["hydro"]) +
      ((if "price" in columns then [] else ["price"]) +
      (if "load" in columns then [] else ["load"]))))
  {
    var s1, s2, s3, s4: seq<string> := ["solar", "hydro", "price", "load"], ["hydro", "price", "load"], ["price", "load"], ["load"];
    assert Required[1..] == s1 && s1[1..] == s2 && s2[1..] == s3 && s3[1..] == s4 && s4[1..] == [];
    assert MissingFrom(s4, columns) == (if "load" in columns then [] else ["load"]) + MissingFrom([], columns);
    assert MissingFrom(s4, columns) == (if "load" in columns then [] else ["load"]);
    assert MissingFrom(s3, columns) == (if "price" in columns then [] else ["price"]) + MissingFrom(s4, columns);
    assert MissingFrom(s2, columns) == (if "hydro" in columns then [] else ["hydro"]) + MissingFrom(s3, columns);
    assert MissingFrom(s1, columns) == (if "solar" in columns then [] else ["solar"]) + MissingFrom(s2, columns);
    assert MissingFrom(Required, columns) == (if "wind" in columns then [] else ["wind"]) + MissingFrom(s1, columns);
  }

  // ---------------------------------------------------------------------
  // Dropping incomplete rows
  // ---------------------------------------------------------------------

  /** A row whose every required value is present and numeric. */
  predicate Complete(row: Row) {
    forall c :: c in Required ==> c in row && row[c].Some?
  }

  /** DataFrame.dropna(subset=Required).reset_index(drop=True). */
  function DropNa(f: Frame): (r: Frame)
    ensures r.columns == f.columns
    ensures |r.rows| <= |f.rows|
    ensures forall row :: row in r.rows <==> row in f.rows && Complete(row)
    ensures forall i :: 0 <= i < |r.rows| ==> Complete(r.rows[i])
  {
    Frame(f.columns, Filter(f.rows, Complete))
  }

  /** Dropping rows keeps the table well formed. */
  lemma DropNaWellFormed(f: Frame)
    requires WellFormed(f)
    ensures WellFormed(DropNa(f))
  {
    forall i | 0 <= i < |DropNa(f).rows|
      ensures HasColumns(DropNa(f).rows[i], f.columns)
    {
      var row := DropNa(f).rows[i];
      assert row in f.rows;
      var j :| 0 <= j < |f.rows| && f.rows[j] == row;
    }
  }

  /** The surviving rows of two stacked tables are the survivors of each, in order. */
  lemma DropNaAppend(columns: seq<string>, a: seq<Row>, b: seq<Row>)
    ensures DropNa(Frame(columns, a + b)).rows ==
            DropNa(Frame(columns, a)).rows + DropNa(Frame(columns, b)).rows
  {
    FilterAppend(a, b, Complete);
  }

  // ---------------------------------------------------------------------
  // Capacity-factor detection
  // ---------------------------------------------------------------------

  /** Series.max() with NaN skipped: None when the column has no number. */
  function ColumnMax(rows: seq<Row>, c: string): (m: Option<real>)
    ensures m.Some? ==> exists i :: 0 <= i < |rows| && c in rows[i] && rows[i][c] == Some(m.value)
    ensures forall i :: 0 <= i < |rows| && c in rows[i] && rows[i][c].Some? ==>
              m.Some? && rows[i][c].value <= m.value
  {
    if rows == [] then None
    else
      var rest := ColumnMax(rows[1..], c);
      var here: Option<real> := if c in rows[0] then rows[0][c] else None;
      if here.None? then
        assert forall i :: 1 <= i < |rows| ==> rows[i] == rows[1..][i - 1];
        rest
      else if rest.None? || here.value >= rest.value then
        assert forall i :: 1 <= i < |rows| ==> rows[i] == rows[1..][i - 1];
        here
      else
        assert forall i :: 1 <= i < |rows| ==> rows[i] == rows[1..][i - 1];
        rest
  }

  /** `column in df.columns and df[column].max() > 2.0` */
  predicate ExceedsLimit(f: Frame, c: string) {
    c in f.columns && var m := ColumnMax(f.rows, c); m.Some? && m.value > CapacityFactorLimit
  }

  /** The loop over wind, solar, hydro and load with its early return. */
  function ScanForRawMw(f: Frame, columns: seq<string>): bool {
    if columns == [] then true
    else if ExceedsLimit(f, columns[0]) then false
    else ScanForRawMw(f, columns[1..])
  }

  /** No present magnitude column holds a value above the limit. */
  ghost predicate WithinLimit(f: Frame) {
    forall c, i :: c in Magnitude && c in f.columns && 0 <= i < |f.rows| && c in f.rows[i] && f.rows[i][c].Some? ==>
      f.rows[i][c].value <= CapacityFactorLimit
  }

  /** One global decision: the data are capacity factors unless some present
      wind, solar, hydro or load value exceeds 2.0. */
  function IsCapacityFactorData(f: Frame): (r: bool)
    ensures r <==> WithinLimit(f)
  {
    ScanForRawMwSound(f, Magnitude);
    ScanForRawMw(f, Magnitude)
  }

  lemma {:induction false} ScanForRawMwSound(f: Frame, columns: seq<string>)
    ensures ScanForRawMw(f, columns) <==>
      forall c, i :: c in columns && c in f.columns && 0 <= i < |f.rows| && c in f.rows[i] && f.rows[i][c].Some? ==>
        f.rows[i][c].value <= CapacityFactorLimit
    decreases |columns|
  {
    if columns != [] {
      ScanForRawMwSound(f, columns[1..]);
      assert forall c :: c in columns <==> c == columns[0] || c in columns[1..];
    }
  }

  /** The price column is never consulted: frames that agree everywhere except
      on price get the same decision. */
  lemma PriceIgnored(f: Frame, g: Frame)
    requires f.columns == g.columns && |f.rows| == |g.rows|
    requires forall i, c :: 0 <= i < |f.rows| && c in Magnitude ==>
      (c in f.rows[i] <==> c in g.rows[i]) && (c in f.rows[i] ==> f.rows[i][c] == g.rows[i][c])
    ensures IsCapacityFactorData(f) == IsCapacityFactorData(g)
  {
  }

  // ---------------------------------------------------------------------
  // Conversion to MW
  // ---------------------------------------------------------------------

  /** The fixed nameplate capacities (MW) used to scale capacity factors. */
  function Capacity(c: string): Option<real> {
    if c == "wind" then Some(1103.0)
    else if c == "solar" then Some(100.0)
    else if c == "hydro" then Some(534.0)
    else if c == "load" then Some(2999.0)
    else None
  }

  function ScaleCell(c: string, v: Option<real>): Option<real> {
    match Capacity(c)
    case None => v
    case Some(cap) => if v.Some? then Some(v.value * cap) else None
  }

  /** _convert_to_raw_mw: a scaled copy; the argument itself is a value and is
      therefore left as it was. */
  function ConvertToRawMw(f: Frame): (r: Frame)
    ensures r.columns == f.columns && |r.rows| == |f.rows|
    ensures forall i :: 0 <= i < |r.rows| ==> r.rows[i].Keys == f.rows[i].Keys
    ensures forall i, c :: 0 <= i < |r.rows| && c in f.rows[i] && c !in Magnitude ==>
              r.rows[i][c] == f.rows[i][c]
    ensures forall i, c :: 0 <= i < |r.rows| && c in f.rows[i] && f.rows[i][c].None? ==> r.rows[i][c].None?
    ensures forall i :: 0 <= i < |r.rows| && "wind" in f.rows[i] && f.rows[i]["wind"].Some? ==>
              r.rows[i]["wind"] == Some(f.rows[i]["wind"].value * 1103.0)
    ensures forall i :: 0 <= i < |r.rows| && "solar" in f.rows[i] && f.rows[i]["solar"].Some? ==>
              r.rows[i]["solar"] == Some(f.rows[i]["solar"].value * 100.0)
    ensures forall i :: 0 <= i < |r.rows| && "hydro" in f.rows[i] && f.rows[i]["hydro"].Some? ==>
              r.rows[i]["hydro"] == Some(f.rows[i]["hydro"].value * 534.0)
    ensures forall i :: 0 <= i < |r.rows| && "load" in f.rows[i] && f.rows[i]["load"].Some? ==>
              r.rows[i]["load"] == Some(f.rows[i]["load"].value * 2999.0)
  {
    Frame(f.columns, seq(|f.rows|, i requires 0 <= i < |f.rows| =>
      map c | c in f.rows[i] :: ScaleCell(c, f.rows[i][c])))
  }

  /** Scaling keeps complete rows complete and the table well formed. */
  lemma ConvertKeepsShape(f: Frame)
    requires WellFormed(f)
    requires forall i :: 0 <= i < |f.rows| ==> Complete(f.rows[i])
    ensures WellFormed(ConvertToRawMw(f))
    ensures forall i :: 0 <= i < |f.rows| ==> Complete(ConvertToRawMw(f).rows[i])
  {
    var r := ConvertToRawMw(f);
    forall i | 0 <= i < |f.rows| ensures Complete(r.rows[i]) && HasColumns(r.rows[i], f.columns) {
      forall c | c in Required ensures c in r.rows[i] && r.rows[i][c].Some? {
        assert c in f.rows[i] && f.rows[i][c].Some?;
        assert r.rows[i][c] == ScaleCell(c, f.rows[i][c]);
      }
    }
  }

  // ---------------------------------------------------------------------
  // load_energy_dataframe
  // ---------------------------------------------------------------------

  datatype LoadError = MissingRequiredColumns(names: seq<string>)

  /** A table as the loader hands it to the simulator: every required column
      present and every row complete. */
  ghost predicate Loaded(f: Frame) {
    WellFormed(f) &&
    (forall c :: c in Required ==> c in f.columns) &&
    (forall i :: 0 <= i < |f.rows| ==> Complete(f.rows[i]))
  }

  function LoadEnergyFrame(f: Frame, convertToRawUnits: bool): (r: Result<Frame, LoadError>)
    requires WellFormed(f)
    ensures r.Failure? <==> exists c :: c in Required && c !in f.columns
    ensures r.Failure? ==> r.error == MissingRequiredColumns(MissingColumns(f.columns))
    ensures r.Success? ==> Loaded(r.value) && r.value.columns == f.columns
    ensures r.Success? ==> |r.value.rows| == |DropNa(f).rows|
    ensures r.Success? && !convertToRawUnits ==> r.value == DropNa(f)
    ensures r.Success? && !IsCapacityFactorData(DropNa(f)) ==> r.value == DropNa(f)
    ensures r.Success? && convertToRawUnits && IsCapacityFactorData(DropNa(f)) ==>
              r.value == ConvertToRawMw(DropNa(f))
  {
    var missing := MissingColumns(f.columns);
    if missing != [] then
      Failure(MissingRequiredColumns(missing))
    else
      var kept := DropNa(f);
      DropNaWellFormed(f);
      if convertToRawUnits && IsCapacityFactorData(kept) then
        ConvertKeepsShape(kept);
        Success(ConvertToRawMw(kept))
      else
        Success(kept)
  }

  // ---------------------------------------------------------------------
  // Column extraction used by the fallback environment
  // ---------------------------------------------------------------------

  /** `data[c].to_numpy() if c in data.columns else np.zeros(n)` */
  function ColumnOrZeros(f: Frame, c: string): (r: seq<real>)
    requires Loaded(f) && c in Required
    ensures |r| == |f.rows|
    ensures forall i :: 0 <= i < |r| ==> Some(r[i]) == f.rows[i][c]
  {
    seq(|f.rows|, i requires 0 <= i < |f.rows| => f.rows[i][c].value)
  }
}
