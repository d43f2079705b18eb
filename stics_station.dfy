/** The STICS station file writer: `FormatSticsData` turns one entry of the
    model dictionary into a name line and a value line, and `export` builds
    `station.txt` from a fixed sequence of such entries per coordinate row,
    then writes it, the snow file and the three `.mod` files it is given.
    How a number is rendered (`"{:.Nf}"`, `"{:.3e}"`) and how text is read as
    a number are parameters. */
module SticsStation {
  import opened Wrappers
  import opened Seqs
  import opened PyText

  /** A `dv` cell of the dictionary query: text, an integer, a real, or NULL
      as pandas delivers it: `None` in a column of text or mixed values,
      NaN in a column of numbers. */
  datatype DictValue = Text(s: string) | Whole(i: int) | Decimal(r: real) | Null | NullAsNaN

  /** A value of Python's `float`: a real number or NaN. */
  datatype Number = Finite(x: real) | Nan

  /** One row of the `st_station` dictionary query: `Champ` and `dv`. */
  datatype DictRow = DictRow(champ: string, dv: DictValue)

  /** `"{:.Nf}"` or `"{:0.3e}"`. */
  datatype NumberFormat = FixedPoint(digits: nat) | Exponent3

  datatype StationError =
    | MissingField(key: string)  // `rw["dv"].values[0]` on no row: IndexError
    | NotANumber(key: string)    // `float(data)` raises
    | ShortPath                  // `directory_path.split(os.sep)[-3]` raises

  /** A coordinate row of the unit: `altitude` and `latitudeDD`; `None` for a
      NULL pandas delivers as `None`, `Some(Nan)` for one it delivers as NaN. */
  datatype CoordRow = CoordRow(altitude: Option<Number>, latitude: Option<Number>)

  /** One entry of the station content. */
  datatype Field =
    | FromDict(champ: string, precision: Option<int>)  // `FormatSticsData(DT, champ, precision)`
    | Literal(name: string, value: string)             // a fixed name and value
    | LatitudeLine                                     // `latitude` with 7 decimals
    | AltisimulLine                                    // `altisimul`, `-99` without altitude

  datatype FileWrite = FileWrite(directory: string, fileName: string, content: string)

  /** The default `precision` of `FormatSticsData`. */
  const DefaultPrecision := 5

  const SnowContent := "   0.00000000       0.00000000       0.00000000       0.00000000 \n"

  /** Lines joined as text, each followed by a newline. */
  function Unlines(lines: seq<string>): string
  {
    if lines == [] then "" else lines[0] + "\n" + Unlines(lines[1..])
  }

  lemma {:induction false} UnlinesAppend(a: seq<string>, b: seq<string>)
    ensures Unlines(a + b) == Unlines(a) + Unlines(b)
  {
    if a != [] {
      assert (a + b)[1..] == a[1..] + b;
      UnlinesAppend(a[1..], b);
    } else {
      assert a + b == b;
    }
  }

  /** The value of the first dictionary row whose `Champ` is `key`. */
  function Lookup(table: seq<DictRow>, key: string): (r: Option<DictValue>)
    ensures r.None? <==> forall i :: 0 <= i < |table| ==> table[i].champ != key
    ensures r.Some? ==> exists i :: (0 <= i < |table| && table[i].champ == key && table[i].dv == r.value &&
      forall j :: 0 <= j < i ==> table[j].champ != key)
  {
    if table == [] then None
    else if table[0].champ == key then Some(table[0].dv)
    else
      var r := Lookup(table[1..], key);
      if r.Some? then
        ghost var i :| 0 <= i < |table[1..]| && table[1..][i].champ == key && table[1..][i].dv == r.value &&
          forall j :: 0 <= j < i ==> table[1..][j].champ != key;
        assert table[i + 1].champ == key && forall j :: 0 <= j < i + 1 ==> table[j].champ != key;
        r
      else r
  }

  /** `float(data)`: text is parsed, `None` raises, NaN stays NaN. */
  function ToFloat(v: DictValue, parseFloat: string -> Option<real>): Option<Number>
  {
    match v
    case Text(s) => (match parseFloat(s) case None => None case Some(x) => Some(Finite(x)))
    case Whole(i) => Some(Finite(i as real))
    case Decimal(r) => Some(Finite(r))
    case Null => None
    case NullAsNaN => Some(Nan)
  }

  /** `format` of a float: a real number as `render` writes it, NaN as `nan`
      whatever the format. */
  function RenderNumber(format: NumberFormat, n: Number, render: (NumberFormat, real) -> string): string
  {
    match n
    case Finite(x) => render(format, x)
    case Nan => "nan"
  }

  /** The precision dispatch. */
  function FormatFor(precision: Option<int>): NumberFormat
  {
    if precision.None? || precision.value == 0 then FixedPoint(0)
    else if 1 < precision.value < 7 then FixedPoint(precision.value)
    else Exponent3
  }

  /** Fixed-point output has 0 or 2 to 6 decimals: a precision of 1, of 7 or
      more, or a negative one, gives three-digit scientific notation. */
  lemma PrecisionDispatch(precision: Option<int>)
    ensures var f := FormatFor(precision);
      (f.FixedPoint? <==> precision.None? || precision.value == 0 || 1 < precision.value < 7) &&
      (f.FixedPoint? ==> f.digits != 1 && f.digits < 7 && (precision.Some? ==> f.digits == precision.value))
  {
  }

  /** The dictionary key: `champ`, followed by `fieldIt` when it is not 0. */
  function FieldKey(champ: string, fieldIt: int): string
  {
    if fieldIt != 0 then champ + IntToString(fieldIt) else champ
  }

  /** `FormatSticsData(row, champ, precision, fieldIt)`. */
  function FormatSticsData(table: seq<DictRow>, champ: string, precision: Option<int>, fieldIt: int,
                           parseFloat: string -> Option<real>, render: (NumberFormat, real) -> string)
    : (r: Result<seq<string>, StationError>)
    ensures r.Success? ==> |r.value| == 2 && r.value[0] == champ
  {
    var key := FieldKey(champ, fieldIt);
    match Lookup(table, key)
    case None => Failure(MissingField(key))
    case Some(data) =>
      match ToFloat(data, parseFloat)
      case None => Failure(NotANumber(key))
      case Some(x) => Success([champ, RenderNumber(FormatFor(precision), x, render)])
  }

  /** The value line is the first matching entry of the iterated key,
      rendered with the dispatched format (`nan` for a NaN); a key without an
      entry and a value that is no number are the two errors. */
  lemma FormatSticsDataValue(table: seq<DictRow>, champ: string, precision: Option<int>, fieldIt: int,
                             parseFloat: string -> Option<real>, render: (NumberFormat, real) -> string)
    ensures var r := FormatSticsData(table, champ, precision, fieldIt, parseFloat, render);
      var key := FieldKey(champ, fieldIt);
      var found := Lookup(table, key);
      (r == Failure(MissingField(key)) <==> found.None?) &&
      (r == Failure(NotANumber(key)) <==> found.Some? && ToFloat(found.value, parseFloat).None?) &&
      (r.Success? ==> found.Some? && r.value[1] == RenderNumber(FormatFor(precision), ToFloat(found.value, parseFloat).value, render)) &&
      (found == Some(NullAsNaN) ==> r == Success([champ, "nan"]))
  {
  }

  /** An iterated key is the base name followed by the iteration number. */
  lemma FieldKeyIterated(champ: string, fieldIt: int)
    ensures fieldIt == 0 ==> FieldKey(champ, fieldIt) == champ
    ensures fieldIt != 0 ==> |FieldKey(champ, fieldIt)| > |champ| && FieldKey(champ, fieldIt)[..|champ|] == champ
  {
  }

  /** The station entries of one coordinate row, in the order `export`
      appends them. */
  function StationFields(sticsv: string, managements: nat): (fs: seq<Field>)
  {
    [FromDict("zr", Some(0)), FromDict("NH3ref", Some(5))] +
    (if sticsv == "v10" then [FromDict("concrr", Some(2))] else []) +
    [LatitudeLine, FromDict("patm", Some(DefaultPrecision)), FromDict("aclim", Some(6))] +
    (if managements == 1 then [FromDict("codeetp", Some(0))]
     else if managements == 2 then [Literal("codeetp", "3")]
     else []) +
    [FromDict("alphapt", Some(DefaultPrecision)), FromDict("codeclichange", Some(0)),
     FromDict("codaltitude", Some(0)), FromDict("altistation", Some(DefaultPrecision)),
     AltisimulLine,
     FromDict("gradtn", Some(DefaultPrecision)), FromDict("gradtx", Some(DefaultPrecision)),
     FromDict("altinversion", Some(DefaultPrecision)), FromDict("gradtninv", Some(DefaultPrecision)),
     FromDict("cielclair", Some(DefaultPrecision)), FromDict("codadret", Some(0)),
     FromDict("ombragetx", Some(DefaultPrecision)), FromDict("ra", Some(DefaultPrecision)),
     FromDict("albveg", Some(DefaultPrecision)), FromDict("aangst", Some(DefaultPrecision)),
     FromDict("bangst", Some(DefaultPrecision)), FromDict("corecTrosee", Some(DefaultPrecision)),
     FromDict("codecaltemp", Some(0)), FromDict("codernet", Some(0)),
     FromDict("coefdevil", Some(DefaultPrecision)), FromDict("aks", Some(DefaultPrecision)),
     FromDict("bks", Some(DefaultPrecision)), FromDict("cvent", Some(DefaultPrecision)),
     FromDict("phiv0", Some(DefaultPrecision)), FromDict("coefrnet", Some(DefaultPrecision))]
  }

  function FieldName(f: Field): string
  {
    match f
    case FromDict(champ, _) => champ
    case Literal(name, _) => name
    case LatitudeLine => "latitude"
    case AltisimulLine => "altisimul"
  }

  /** The conditional entries: `concrr` only for STICS v10; `codeetp` from
      the dictionary (0 decimals) for one management row, the literal 3 for
      two, and not at all otherwise; 30 entries besides these. */
  lemma StationFieldsShape(sticsv: string, managements: nat)
    ensures var fs := StationFields(sticsv, managements);
      var c := if sticsv == "v10" then 1 else 0;
      var e := if managements == 1 || managements == 2 then 1 else 0;
      |fs| == 30 + c + e &&
      fs[0] == FromDict("zr", Some(0)) && fs[1] == FromDict("NH3ref", Some(5)) &&
      (sticsv == "v10" ==> fs[2] == FromDict("concrr", Some(2))) &&
      fs[2 + c] == LatitudeLine &&
      (managements == 1 ==> fs[5 + c] == FromDict("codeetp", Some(0))) &&
      (managements == 2 ==> fs[5 + c] == Literal("codeetp", "3")) &&
      fs[9 + c + e] == AltisimulLine &&
      fs[|fs| - 1] == FromDict("coefrnet", Some(DefaultPrecision))
  {
  }

  /** The two lines of one entry for one coordinate row. */
  function FieldLines(table: seq<DictRow>, row: CoordRow, f: Field,
                      parseFloat: string -> Option<real>, render: (NumberFormat, real) -> string)
    : (r: Result<seq<string>, StationError>)
    ensures r.Success? ==> |r.value| == 2 && r.value[0] == FieldName(f)
  {
    match f
    case FromDict(champ, precision) => FormatSticsData(table, champ, precision, 0, parseFloat, render)
    case Literal(name, value) => Success([name, value])
    case LatitudeLine =>
      if row.latitude.None? then Failure(NotANumber("latitudeDD"))
      else Success(["latitude", RenderNumber(FixedPoint(7), row.latitude.value, render)])
    case AltisimulLine =>
      Success(["altisimul", if row.altitude.None? then "-99" else RenderNumber(FixedPoint(5), row.altitude.value, render)])
  }

  /** `altisimul` never fails: `-99` for an altitude that is `None`, the
      altitude with 5 decimals otherwise (so `nan` for NaN); the latitude
      always has 7 decimals, and only `None` makes it fail. */
  lemma AltitudeAndLatitude(table: seq<DictRow>, row: CoordRow,
                            parseFloat: string -> Option<real>, render: (NumberFormat, real) -> string)
    ensures var a := FieldLines(table, row, AltisimulLine, parseFloat, render);
      a.Success? &&
      (row.altitude.None? ==> a.value[1] == "-99") &&
      (row.altitude.Some? ==> a.value[1] == RenderNumber(FixedPoint(5), row.altitude.value, render)) &&
      (row.altitude == Some(Nan) ==> a.value[1] == "nan")
    ensures var l := FieldLines(table, row, LatitudeLine, parseFloat, render);
      (l.Success? <==> row.latitude.Some?) &&
      (l.Success? ==> l.value[1] == RenderNumber(FixedPoint(7), row.latitude.value, render))
  {
  }

  /** The lines of one coordinate row: the entries in order, or the first
      error. */
  function RowLines(table: seq<DictRow>, row: CoordRow, fields: seq<Field>,
                    parseFloat: string -> Option<real>, render: (NumberFormat, real) -> string)
    : Result<seq<string>, StationError>
  {
    if fields == [] then Success([])
    else
      match FieldLines(table, row, fields[0], parseFloat, render)
      case Failure(e) => Failure(e)
      case Success(first) =>
        match RowLines(table, row, fields[1..], parseFloat, render)
        case Failure(e) => Failure(e)
        case Success(rest) => Success(first + rest)
  }

  /** A row gives two lines per entry, the names on the even lines, and it
      fails exactly when one of its entries fails. */
  lemma {:induction false} RowLinesShape(table: seq<DictRow>, row: CoordRow, fields: seq<Field>,
                                         parseFloat: string -> Option<real>, render: (NumberFormat, real) -> string)
    ensures var r := RowLines(table, row, fields, parseFloat, render);
      (r.Failure? <==> exists i :: 0 <= i < |fields| && FieldLines(table, row, fields[i], parseFloat, render).Failure?) &&
      (r.Success? ==> (|r.value| == 2 * |fields| &&
         forall i :: 0 <= i < |fields| ==>
           r.value[2 * i] == FieldName(fields[i]) &&
           r.value[2 * i + 1] == FieldLines(table, row, fields[i], parseFloat, render).value[1]))
  {
    if fields != [] {
      RowLinesShape(table, row, fields[1..], parseFloat, render);
      var r := RowLines(table, row, fields, parseFloat, render);
      var f := FieldLines(table, row, fields[0], parseFloat, render);
      if f.Failure? {
        assert FieldLines(table, row, fields[0], parseFloat, render).Failure?;
      } else {
        var rest := RowLines(table, row, fields[1..], parseFloat, render);
        if rest.Failure? {
          var i :| 0 <= i < |fields[1..]| && FieldLines(table, row, fields[1..][i], parseFloat, render).Failure?;
          assert fields[1..][i] == fields[i + 1];
        } else {
          forall i | 0 <= i < |fields|
            ensures FieldLines(table, row, fields[i], parseFloat, render).Success?
            ensures r.value[2 * i] == FieldName(fields[i])
            ensures r.value[2 * i + 1] == FieldLines(table, row, fields[i], parseFloat, render).value[1]
          {
            if i > 0 {
              assert fields[i] == fields[1..][i - 1];
              assert r.value[2 * i] == rest.value[2 * (i - 1)];
              assert r.value[2 * i + 1] == rest.value[2 * (i - 1) + 1];
            }
          }
        }
      }
    }
  }

  /** The station lines of the first rows, or the first error. */
  function StationLines(table: seq<DictRow>, rows: seq<CoordRow>, fields: seq<Field>,
                        parseFloat: string -> Option<real>, render: (NumberFormat, real) -> string)
    : Result<seq<string>, StationError>
  {
    if rows == [] then Success([])
    else
      match StationLines(table, rows[..|rows| - 1], fields, parseFloat, render)
      case Failure(e) => Failure(e)
      case Success(done) =>
        match RowLines(table, rows[|rows| - 1], fields, parseFloat, render)
        case Failure(e) => Failure(e)
        case Success(more) => Success(done + more)
  }

  /** Every coordinate row contributes the same number of lines: two per
      entry. */
  lemma {:induction false} StationLinesLength(table: seq<DictRow>, rows: seq<CoordRow>, fields: seq<Field>,
                                              parseFloat: string -> Option<real>, render: (NumberFormat, real) -> string)
    ensures var r := StationLines(table, rows, fields, parseFloat, render);
      r.Success? ==> |r.value| == |rows| * (2 * |fields|)
  {
    if rows != [] {
      StationLinesLength(table, rows[..|rows| - 1], fields, parseFloat, render);
      RowLinesShape(table, rows[|rows| - 1], fields, parseFloat, render);
    }
  }

  /** The value `export` returns and the files it writes. */
  function ExportResult(directoryPath: string, table: seq<DictRow>, rows: seq<CoordRow>, managements: nat,
                        sticsv: string, rap: string, var_: string, prof: string, usmdir: string,
                        parseFloat: string -> Option<real>, render: (NumberFormat, real) -> string)
    : (Result<seq<string>, StationError>, seq<FileWrite>)
  {
    if |Split(directoryPath, '/')| < 3 then (Failure(ShortPath), [])
    else
      match StationLines(table, rows, StationFields(sticsv, managements), parseFloat, render)
      case Failure(e) => (Failure(e), [])
      case Success(lines) =>
        var station := Unlines(lines);
        (Success([station, SnowContent]),
         [FileWrite(usmdir, "station.txt", station), FileWrite(usmdir, "snow_variables.txt", SnowContent),
          FileWrite(usmdir, "prof.mod", prof), FileWrite(usmdir, "rap.mod", rap), FileWrite(usmdir, "var.mod", var_)])
  }

  /** `export`: `table` is the `st_station` dictionary query, `rows` the
      unit's coordinate rows and `managements` the number of its management
      rows. */
  method Export(directoryPath: string, table: seq<DictRow>, rows: seq<CoordRow>, managements: nat,
                sticsv: string, rap: string, var_: string, prof: string, usmdir: string,
                parseFloat: string -> Option<real>, render: (NumberFormat, real) -> string)
    returns (r: Result<seq<string>, StationError>, writes: seq<FileWrite>)
    ensures (r, writes) == ExportResult(directoryPath, table, rows, managements, sticsv, rap, var_, prof, usmdir, parseFloat, render)
  {
    var st := Split(directoryPath, '/');
    if |st| < 3 {
      return Failure(ShortPath), [];
    }
    var fields := StationFields(sticsv, managements);
    var fileContent := "";
    for i := 0 to |rows|
      invariant StationLines(table, rows[..i], fields, parseFloat, render).Success?
      invariant fileContent == Unlines(StationLines(table, rows[..i], fields, parseFloat, render).value)
    {
      assert rows[..i + 1][..i] == rows[..i];
      var rowLines := RowLines(table, rows[i], fields, parseFloat, render);
      if rowLines.Failure? {
        assert rows[..i + 1][i] == rows[i];
        assert StationLines(table, rows[..i + 1], fields, parseFloat, render) == Failure(rowLines.error);
        StationFailsFrom(table, rows, fields, parseFloat, render, i + 1);
        assert StationLines(table, rows, fields, parseFloat, render) == Failure(rowLines.error);
        return Failure(rowLines.error), [];
      }
      assert rows[..i + 1][i] == rows[i];
      UnlinesAppend(StationLines(table, rows[..i], fields, parseFloat, render).value, rowLines.value);
      fileContent := fileContent + Unlines(rowLines.value);
    }
    assert rows[..|rows|] == rows;
    assert fileContent == Unlines(StationLines(table, rows, fields, parseFloat, render).value);
    var station := fileContent;
    writes := [FileWrite(usmdir, "station.txt", station)];
    var snow := SnowContent;
    writes := writes + [FileWrite(usmdir, "snow_variables.txt", snow)];
    writes := writes + [FileWrite(usmdir, "prof.mod", prof)];
    writes := writes + [FileWrite(usmdir, "rap.mod", rap)];
    writes := writes + [FileWrite(usmdir, "var.mod", var_)];
    r := Success([station, snow]);
    assert writes == [FileWrite(usmdir, "station.txt", station), FileWrite(usmdir, "snow_variables.txt", snow),
                      FileWrite(usmdir, "prof.mod", prof), FileWrite(usmdir, "rap.mod", rap), FileWrite(usmdir, "var.mod", var_)];
  }

  /** Once a prefix of the rows fails, so does every longer prefix, with the
      same error. */
  lemma {:induction false} StationFailsFrom(table: seq<DictRow>, rows: seq<CoordRow>, fields: seq<Field>,
                                            parseFloat: string -> Option<real>, render: (NumberFormat, real) -> string, k: nat)
    requires k <= |rows| && StationLines(table, rows[..k], fields, parseFloat, render).Failure?
    ensures StationLines(table, rows, fields, parseFloat, render) == StationLines(table, rows[..k], fields, parseFloat, render)
    decreases |rows| - k
  {
    if k < |rows| {
      assert rows[..k + 1][..k] == rows[..k];
      StationFailsFrom(table, rows, fields, parseFloat, render, k + 1);
    } else {
      assert rows[..k] == rows;
    }
  }

  /** A successful `export` returns the station text, which is what it
      writes to `station.txt`, and the fixed snow line; the three `.mod`
      files get the given text unchanged; a failed one writes nothing. */
  lemma ExportWrites(directoryPath: string, table: seq<DictRow>, rows: seq<CoordRow>, managements: nat,
                     sticsv: string, rap: string, var_: string, prof: string, usmdir: string,
                     parseFloat: string -> Option<real>, render: (NumberFormat, real) -> string)
    ensures var (r, writes) := ExportResult(directoryPath, table, rows, managements, sticsv, rap, var_, prof, usmdir, parseFloat, render);
      (r.Failure? ==> writes == []) &&
      (r.Success? ==>
        |r.value| == 2 && |writes| == 5 &&
        writes[0] == FileWrite(usmdir, "station.txt", r.value[0]) &&
        r.value[1] == SnowContent && writes[1].content == SnowContent &&
        writes[2] == FileWrite(usmdir, "prof.mod", prof) &&
        writes[3] == FileWrite(usmdir, "rap.mod", rap) &&
        writes[4] == FileWrite(usmdir, "var.mod", var_) &&
        r.value[0] == Unlines(StationLines(table, rows, StationFields(sticsv, managements), parseFloat, render).value))
    ensures var (r, _) := ExportResult(directoryPath, table, rows, managements, sticsv, rap, var_, prof, usmdir, parseFloat, render);
      (|Split(directoryPath, '/')| < 3 ==> r == Failure(ShortPath)) &&
      (|Split(directoryPath, '/')| >= 3 ==>
         (r.Success? <==> StationLines(table, rows, StationFields(sticsv, managements), parseFloat, render).Success?))
  {
  }
}
