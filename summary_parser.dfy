/** The DSSAT output parser: `get_coord` recovers the coordinates and year from
    the unit identifier, `transform` turns one `Summary_<idsim>.OUT` file into a
    result frame of one row, or of no row when its header names no variable. */
module SummaryParser {
  import opened Wrappers
  import opened Seqs
  import opened PyText
  import opened Tables

  datatype ParseError =
    | CoordinatesNotFound       // fewer than three regex matches: IndexError
    | NoVariableLine            // fewer than four lines: FILE[3] raises IndexError
    | NotANumber                // float() of a data token raises ValueError
    | NoDataLine                // no line after the header: [...][0] raises IndexError
    | MissingValue              // fewer values than names: dataArr[i] raises IndexError
    | ColumnExists(name: string) // pandas refuses to insert an existing column

  // ---------------------------------------------------------------------------
  // get_coord: re.findall("([-]?\d+[.]?\d+)[_]", d)
  // ---------------------------------------------------------------------------

  /** Length of the run of ASCII digits starting at index `i`. */
  function DigitRun(s: string, i: nat): (n: nat)
    requires i <= |s|
    ensures i + n <= |s|
    decreases |s| - i
  {
    if i < |s| && IsDigit(s[i]) then 1 + DigitRun(s, i + 1) else 0
  }

  lemma {:induction false} DigitRunFacts(s: string, i: nat)
    requires i <= |s|
    ensures forall j :: i <= j < i + DigitRun(s, i) ==> IsDigit(s[j])
    ensures i + DigitRun(s, i) == |s| || !IsDigit(s[i + DigitRun(s, i)])
    decreases |s| - i
  {
    if i < |s| && IsDigit(s[i]) {
      DigitRunFacts(s, i + 1);
    }
  }

  /** A text the capture group can match: an optional minus sign, then either
      two or more digits, or digits, one dot and digits. */
  predicate IsNumberText(t: string)
  {
    var a := Sign(t);
    var d := DigitRun(t, a);
    d >= 1 &&
    ((a + d == |t| && d >= 2) ||
     (a + d < |t| - 1 && t[a + d] == '.' && a + d + 1 + DigitRun(t, a + d + 1) == |t|))
  }

  /** Length of the match of `[-]?\d+[.]?\d+_` at the start of `s`, if any. The
      regex is greedy and backtracks, but since the match must end in `_` and can
      contain no `_` before it, there is at most one match at a position. */
  function MatchLength(s: string): (r: Option<nat>)
    ensures r.Some? ==> 3 <= r.value <= |s| && s[r.value - 1] == '_'
  {
    var a := Sign(s);
    var d1 := DigitRun(s, a);
    var e := a + d1;
    if d1 == 0 || e >= |s| then None
    else if s[e] == '_' then (if d1 >= 2 then Some(e + 1) else None)
    else if s[e] == '.' then
      var d2 := DigitRun(s, e + 1);
      if d2 >= 1 && e + 1 + d2 < |s| && s[e + 1 + d2] == '_' then Some(e + 2 + d2) else None
    else None
  }

  /** 1 when `s` starts with a minus sign. */
  function Sign(s: string): (a: nat)
    ensures a <= 1 && a <= |s|
  {
    if |s| > 0 && s[0] == '-' then 1 else 0
  }

  /** What a match captures is a number text. */
  lemma MatchIsNumberText(s: string)
    requires MatchLength(s).Some?
    ensures IsNumberText(s[..MatchLength(s).value - 1])
  {
    var q := MatchLength(s).value - 1;
    var t := s[..q];
    var a := Sign(s);
    assert Sign(t) == a;
    var d1 := DigitRun(s, a);
    assert s == t + s[q..];
    DigitRunAppend(t, s[q..], a);
    if s[a + d1] == '.' {
      DigitRunAppend(t, s[q..], a + d1 + 1);
    }
  }

  /** Appending text after a digit run that already ended (or that the text
      does not continue) leaves the run unchanged. */
  lemma {:induction false} DigitRunAppend(t: string, u: string, i: nat)
    requires i <= |t|
    requires i + DigitRun(t, i) < |t| || u == [] || !IsDigit(u[0])
    ensures DigitRun(t + u, i) == DigitRun(t, i)
    decreases |t| - i
  {
    if i < |t| {
      assert (t + u)[i] == t[i];
      if IsDigit(t[i]) {
        DigitRunAppend(t, u, i + 1);
      }
    } else if u != [] {
      assert (t + u)[i] == u[0];
    }
  }

  /** `re.findall`: scan left to right; after a match resume behind it (behind
      the `_`), otherwise one character further. */
  function FindAll(s: string): (r: seq<string>)
    decreases |s|
  {
    if s == [] then []
    else match MatchLength(s)
      case Some(q) => [s[..q - 1]] + FindAll(s[q..])
      case None => FindAll(s[1..])
  }

  /** Every match is a number text. */
  lemma {:induction false} FindAllNumbers(s: string)
    ensures forall i :: 0 <= i < |FindAll(s)| ==> IsNumberText(FindAll(s)[i])
    decreases |s|
  {
    if s != [] {
      match MatchLength(s)
      case Some(q) =>
        MatchIsNumberText(s);
        FindAllNumbers(s[q..]);
        assert FindAll(s) == [s[..q - 1]] + FindAll(s[q..]);
      case None =>
        FindAllNumbers(s[1..]);
    }
  }

  lemma AllDigitsOfRun(s: string, i: nat)
    requires i <= |s|
    ensures AllDigits(s[i..i + DigitRun(s, i)])
  {
    DigitRunFacts(s, i);
    var t := s[i..i + DigitRun(s, i)];
    forall k | 0 <= k < |t| ensures IsDigit(t[k]) {
      assert t[k] == s[i + k];
    }
  }

  /** A number text followed by an underscore is matched as a whole. */
  lemma MatchNumberText(x: string, rest: string)
    requires IsNumberText(x)
    ensures MatchLength(x + ("_" + rest)) == Some(|x| + 1)
  {
    var u := "_" + rest;
    var s := x + u;
    var a := Sign(x);
    assert s[0] == x[0];
    var d := DigitRun(x, a);
    DigitRunAppend(x, u, a);
    assert s[|x|] == '_';
    if a + d < |x| {
      var e := a + d;
      assert s[e] == x[e] == '.';
      DigitRunAppend(x, u, e + 1);
    }
  }

  /** At a match, `findall` records the captured text and resumes behind the `_`. */
  lemma FindAllMatch(s: string, x: string, rest: string)
    requires MatchLength(s) == Some(|x| + 1) && s[..|x|] == x && s[|x| + 1..] == rest
    ensures FindAll(s) == [x] + FindAll(rest)
  {
  }

  lemma FindAllNumberFirst(x: string, rest: string)
    requires IsNumberText(x)
    ensures FindAll(x + ("_" + rest)) == [x] + FindAll(rest)
  {
    var s := x + ("_" + rest);
    MatchNumberText(x, rest);
    assert s[..|x|] == x;
    assert s[|x| + 1..] == rest;
    FindAllMatch(s, x, rest);
  }

  /** Without an underscore nothing matches: the last number of a name is only
      found when an underscore follows it. */
  lemma {:induction false} FindAllNeedsUnderscore(s: string)
    requires '_' !in s
    ensures FindAll(s) == []
    decreases |s|
  {
    if s != [] {
      assert '_' !in s[1..];
      FindAllNeedsUnderscore(s[1..]);
    }
  }

  /** Every match has at least two digits, so a single-digit number never matches. */
  lemma MatchHasTwoDigits(t: string)
    requires IsNumberText(t)
    ensures exists i, j :: 0 <= i < j < |t| && IsDigit(t[i]) && IsDigit(t[j])
  {
    var a := Sign(t);
    var d := DigitRun(t, a);
    DigitRunFacts(t, a);
    if d < 2 {
      DigitRunFacts(t, a + 2);
    }
    if d >= 2 {
      assert IsDigit(t[a]) && IsDigit(t[a + 1]);
    } else {
      assert IsDigit(t[a]) && IsDigit(t[a + 2]);
    }
  }

  function Pow10(n: nat): (r: nat)
    ensures r >= 1
  {
    if n == 0 then 1 else 10 * Pow10(n - 1)
  }

  lemma {:induction false} DigitsBelowPow10(s: string)
    requires AllDigits(s)
    ensures DigitsValue(s) < Pow10(|s|)
  {
    if s != [] {
      DigitsBelowPow10(s[..|s| - 1]);
    }
  }

  /** The value of the digits before the dot (or of all digits). */
  function WholePart(t: string): nat
    requires IsNumberText(t)
  {
    var a := Sign(t);
    AllDigitsOfRun(t, a);
    DigitsValue(t[a..a + DigitRun(t, a)])
  }

  /** The value of the digits after the dot, as a fraction below one. */
  function FractionPart(t: string): (f: real)
    requires IsNumberText(t)
    ensures 0.0 <= f < 1.0
  {
    var e := Sign(t) + DigitRun(t, Sign(t));
    if e < |t| then
      var digits := t[e + 1..];
      AllDigitsOfRun(t, e + 1);
      assert t[e + 1..e + 1 + DigitRun(t, e + 1)] == digits;
      DigitsBelowPow10(digits);
      FractionBelowOne(DigitsValue(digits), Pow10(|digits|));
      DigitsValue(digits) as real / Pow10(|digits|) as real
    else 0.0
  }

  lemma FractionBelowOne(v: nat, p: nat)
    requires v < p
    ensures 0.0 <= v as real / p as real < 1.0
  {
  }

  /** The exact decimal value of a number text (`float()` rounds it to the
      nearest double; that rounding is not modelled). */
  function DecimalValue(t: string): real
    requires IsNumberText(t)
  {
    var magnitude := WholePart(t) as real + FractionPart(t);
    if Sign(t) == 1 then -magnitude else magnitude
  }

  /** `int(float(t))`: the integer part with the sign, truncated toward zero. */
  function TruncatedValue(t: string): int
    requires IsNumberText(t)
  {
    var whole: int := WholePart(t);
    if Sign(t) == 1 then -whole else whole
  }

  /** `int(float(t))` is the decimal value truncated toward zero. */
  lemma TruncationTowardZero(t: string)
    requires IsNumberText(t)
    ensures var v, n := DecimalValue(t), TruncatedValue(t) as real;
      if v >= 0.0 then n <= v < n + 1.0 else n - 1.0 < v <= n
  {
  }

  datatype Coord = Coord(lon: real, lat: real, year: int)

  /** `get_coord(d)`: match 0 is the latitude, match 1 the longitude, match 2
      the year (truncated); fewer than three matches raise. */
  function GetCoord(d: string): (r: Result<Coord, ParseError>)
    ensures r.Failure? <==> |FindAll(d)| < 3
    ensures r.Failure? ==> r.error == CoordinatesNotFound
  {
    var res := FindAll(d);
    if |res| < 3 then Failure(CoordinatesNotFound)
    else
      FindAllNumbers(d);
      Success(Coord(lon := DecimalValue(res[1]), lat := DecimalValue(res[0]),
                       year := TruncatedValue(res[2])))
  }

  /** A name whose first three underscore-terminated numbers are x, y, z yields
      latitude x, longitude y and year int(z). */
  lemma GetCoordOfName(x: string, y: string, z: string, rest: string)
    requires IsNumberText(x) && IsNumberText(y) && IsNumberText(z)
    ensures GetCoord(x + ("_" + (y + ("_" + (z + ("_" + rest))))))
         == Success(Coord(DecimalValue(y), DecimalValue(x), TruncatedValue(z)))
  {
    FindAllOfName(x, y, z, rest);
  }

  lemma FindAllOfName(x: string, y: string, z: string, rest: string)
    requires IsNumberText(x) && IsNumberText(y) && IsNumberText(z)
    ensures FindAll(x + ("_" + (y + ("_" + (z + ("_" + rest)))))) == [x, y, z] + FindAll(rest)
  {
    FindAllNumberFirst(z, rest);
    FindAllNumberFirst(y, z + ("_" + rest));
    FindAllNumberFirst(x, y + ("_" + (z + ("_" + rest))));
  }

  /** The name `-12.5_45.3_2020` (no underscore after the year) has only two
      matches, so `get_coord` raises. */
  lemma ThreeTokenNameWithoutTrailingUnderscoreFails()
    ensures GetCoord("-12.5" + ("_" + ("45.3" + ("_" + "2020")))).Failure?
  {
    NumberTexts();
    FindAllNeedsUnderscore("2020");
    FindAllNumberFirst("45.3", "2020");
    FindAllNumberFirst("-12.5", "45.3" + ("_" + "2020"));
  }

  lemma NumberTexts()
    ensures IsNumberText("-12.5") && IsNumberText("45.3")
  {
    assert DigitRun("-12.5", 1) == 2;
    assert DigitRun("-12.5", 4) == 1;
    assert DigitRun("45.3", 0) == 2;
    assert DigitRun("45.3", 3) == 1;
  }

  // ---------------------------------------------------------------------------
  // transform
  // ---------------------------------------------------------------------------

  /** The variable codes the summary header may carry that get a new column name. */
  const RenamedCodes: set<string> :=
    {"PDAT", "EDAT", "ADAT", "MDAT", "CWAM", "HWAM", "H#AM", "LAIX", "NLCM", "NIAM", "CNAM", "ESCP", "EPCP"}

  /** The columns the parser adds itself. */
  const AddedColumns: set<string> := {"index", "level_0", "Model", "Idsim", "Texte", "lon", "lat", "time"}

  /** The `rename(columns=...)` table; other labels pass through. */
  function Rename(code: string): (r: string)
    ensures code !in RenamedCodes ==> r == code
    ensures code in RenamedCodes ==> r !in RenamedCodes && r != code
    ensures r in AddedColumns <==> code in AddedColumns
  {
    match code
    case "PDAT" => "Planting"
    case "EDAT" => "Emergence"
    case "ADAT" => "Ant"
    case "MDAT" => "Mat"
    case "CWAM" => "Biom_ma"
    case "HWAM" => "Yield"
    case "H#AM" => "GNumber"
    case "LAIX" => "MaxLai"
    case "NLCM" => "Nleac"
    case "NIAM" => "SoilN"
    case "CNAM" => "CroN_ma"
    case "ESCP" => "CumE"
    case "EPCP" => "Transp"
    case _ => code
  }

  /** `varId`: the tokens of line 3 after its first character, minus the first 13. */
  function VariableNames(lines: seq<string>): seq<string>
    requires |lines| >= 4
  {
    Drop(Tokens(Drop(lines[3], 1)), 13)
  }

  /** `list(map(float, tokens))`. */
  function ParseNumbers(tokens: seq<string>, parseFloat: string -> Option<real>): (r: Option<seq<real>>)
    ensures r.Some? <==> forall i :: 0 <= i < |tokens| ==> parseFloat(tokens[i]).Some?
    ensures r.Some? ==> (|r.value| == |tokens| &&
      forall i :: 0 <= i < |tokens| ==> r.value[i] == parseFloat(tokens[i]).value)
  {
    if tokens == [] then Some([])
    else match (parseFloat(tokens[0]), ParseNumbers(tokens[1..], parseFloat))
      case (Some(x), Some(xs)) => Some([x] + xs)
      case (None, _) => None
      case (_, None) =>
        assert forall i :: 1 <= i < |tokens| ==> tokens[i] == tokens[1..][i - 1];
        None
  }

  /** The values of one data line: its tokens minus the first 13, as floats. */
  function LineValues(line: string, parseFloat: string -> Option<real>): Option<seq<real>>
  {
    ParseNumbers(Drop(Tokens(line), 13), parseFloat)
  }

  /** The comprehension over every data line; it raises if any line does. */
  function ParseDataLines(lines: seq<string>, parseFloat: string -> Option<real>): (r: Option<seq<seq<real>>>)
    ensures r.Some? <==> forall i :: 0 <= i < |lines| ==> LineValues(lines[i], parseFloat).Some?
    ensures r.Some? ==> (|r.value| == |lines| &&
      forall i :: 0 <= i < |lines| ==> r.value[i] == LineValues(lines[i], parseFloat).value)
  {
    if lines == [] then Some([])
    else match (LineValues(lines[0], parseFloat), ParseDataLines(lines[1..], parseFloat))
      case (Some(x), Some(xs)) => Some([x] + xs)
      case (None, _) => None
      case (_, None) =>
        assert forall i :: 1 <= i < |lines| ==> lines[i] == lines[1..][i - 1];
        None
  }

  /** `{names[i]: [values[i]] for i in range(len(names))}`: a repeated name keeps
      its first position and takes the later value. */
  function DictFrom(names: seq<string>, values: seq<real>): (r: Record)
    requires |values| >= |names|
    ensures forall k :: k in Names(r) <==> k in names
    decreases |names|
  {
    if names == [] then []
    else
      var n := |names| - 1;
      var d := DictFrom(names[..n], values);
      assert forall k :: k in names <==> k in names[..n] || k == names[n] by {
        assert names == names[..n] + [names[n]];
      }
      SetColumnNames(d, names[n], Real(values[n]));
      SetColumn(d, names[n], Real(values[n]))
  }

  predicate Distinct(ns: seq<string>)
  {
    forall i, j :: 0 <= i < j < |ns| ==> ns[i] != ns[j]
  }

  /** With distinct names the dictionary pairs them with their values by position. */
  lemma {:induction false} DictFromDistinct(names: seq<string>, values: seq<real>)
    requires |values| >= |names| && Distinct(names)
    ensures DictFrom(names, values) == Pairs(names, values)
    decreases |names|
  {
    if names != [] {
      var n := |names| - 1;
      DistinctSnoc(names);
      DictFromDistinct(names[..n], values);
      PairsSnoc(names, values);
      SetColumnNames(DictFrom(names[..n], values), names[n], Real(values[n]));
    }
  }

  lemma DistinctSnoc(names: seq<string>)
    requires names != [] && Distinct(names)
    ensures Distinct(names[..|names| - 1]) && names[|names| - 1] !in names[..|names| - 1]
  {
  }

  lemma PairsSnoc(names: seq<string>, values: seq<real>)
    requires names != [] && |values| >= |names|
    ensures var n := |names| - 1;
      Pairs(names, values) == Pairs(names[..n], values) + [(names[n], Real(values[n]))]
  {
  }

  /** The columns of a dictionary built from distinct names: name i with value i. */
  function Pairs(names: seq<string>, values: seq<real>): (r: Record)
    requires |values| >= |names|
    ensures |r| == |names|
    ensures forall i :: 0 <= i < |names| ==> r[i] == (names[i], Real(values[i]))
  {
    seq(|names|, i requires 0 <= i < |names| => (names[i], Real(values[i])))
  }

  /** `reset_index()`: the row label becomes column `index` (or `level_0` when
      `index` is taken; pandas refuses when both are). */
  function ResetIndex(r: Record): (out: Result<Record, ParseError>)
    ensures out.Success? <==> !("index" in Names(r) && "level_0" in Names(r))
  {
    var col := if "index" !in Names(r) then "index" else "level_0";
    if col in Names(r) then Failure(ColumnExists(col)) else Success([(col, Int(0))] + r)
  }

  function RenameColumns(r: Record): (out: Record)
    ensures |out| == |r|
    ensures forall i :: 0 <= i < |r| ==> out[i] == (Rename(r[i].0), r[i].1)
  {
    seq(|r|, i requires 0 <= i < |r| => (Rename(r[i].0), r[i].1))
  }

  /** `df.insert(pos, name, v)`: refused when the column exists. */
  function InsertColumn(r: Record, pos: nat, name: string, v: Cell): (out: Result<Record, ParseError>)
    requires pos <= |r|
    ensures out.Success? <==> name !in Names(r)
    ensures out.Success? ==> out.value == r[..pos] + [(name, v)] + r[pos..]
  {
    if name in Names(r) then Failure(ColumnExists(name)) else Success(r[..pos] + [(name, v)] + r[pos..])
  }

  /** `d_name`: the file's stem with its first `len("Summary_")` characters dropped. */
  function UnitName(path: string): string
  {
    Drop(Stem(BaseName(path)), |"Summary_"|)
  }

  /** `transform(fil)` on the path and the lines `readlines()` returns: the
      rows of the frame it returns. */
  function Transform(path: string, lines: seq<string>, parseFloat: string -> Option<real>): Result<seq<Record>, ParseError>
  {
    var dName := UnitName(path);
    match GetCoord(dName)
    case Failure(e) => Failure(e)
    case Success(c) =>
      if |lines| < 4 then Failure(NoVariableLine)
      else
        var names := VariableNames(lines);
        match ParseDataLines(lines[4..], parseFloat)
        case None => Failure(NotANumber)
        case Some(rows) =>
          if rows == [] then Failure(NoDataLine)
          else if |rows[0]| < |names| then Failure(MissingValue)
          else BuildFrame(dName, c, names, rows[0])
  }

  /** `insert` of `Model` (position 0), `Idsim` (1) and `Texte` (2). */
  function Label(renamed: Record, dName: string): Result<Record, ParseError>
  {
    match InsertColumn(renamed, 0, "Model", Str("Dssat"))
    case Failure(e) => Failure(e)
    case Success(r1) =>
      match InsertColumn(r1, 1, "Idsim", Str(dName))
      case Failure(e) => Failure(e)
      case Success(r2) => InsertColumn(r2, 2, "Texte", Str(""))
  }

  /** `df["lon"] = lon`, `df["lat"] = lat`, `df["time"] = int(year)`. */
  function AddCoordinates(r: Record, c: Coord): Record
  {
    SetColumn(SetColumn(SetColumn(r, "lon", Real(c.lon)), "lat", Real(c.lat)), "time", Int(c.year))
  }

  /** The rows of the frame built from the first data line, once the
      coordinates are known. A dict of one-element lists makes a one-row
      frame, the empty dict a frame without rows; the later steps add
      columns to it but never a row. */
  function BuildFrame(dName: string, c: Coord, names: seq<string>, values: seq<real>): Result<seq<Record>, ParseError>
    requires |values| >= |names|
  {
    match ResetIndex(DictFrom(names, values))
    case Failure(e) => Failure(e)
    case Success(indexed) =>
      match Label(RenameColumns(indexed), dName)
      case Failure(e) => Failure(e)
      case Success(r3) => Success(if names == [] then [] else [AddCoordinates(r3, c)])
  }

  /** Labels pandas accepts: `reset_index` needs `index` or `level_0` free, and
      `insert` refuses `Model`, `Idsim` and `Texte` when they already exist
      (no other label is renamed into one of these). */
  predicate LabelsAccepted(names: seq<string>)
  {
    !("index" in names && "level_0" in names) && "Model" !in names && "Idsim" !in names && "Texte" !in names
  }

  /** No column code the parser renames is one of the labels it adds. */
  lemma RenamedNotAdded(code: string)
    requires code in RenamedCodes
    ensures code !in AddedColumns
  {
  }

  /** Renaming maps a label onto an added one only when it is that label. */
  lemma {:induction false} RenameOnto(code: string, k: string)
    requires k in AddedColumns
    ensures Rename(code) == k <==> code == k
  {
    if code in RenamedCodes {
      RenamedNotAdded(code);
    }
  }

  lemma RenamedNames(r: Record, k: string)
    requires k in AddedColumns
    ensures k in Names(RenameColumns(r)) <==> k in Names(r)
  {
    var out := RenameColumns(r);
    if k in Names(out) {
      var i :| 0 <= i < |out| && Names(out)[i] == k;
      RenameOnto(r[i].0, k);
      assert Names(r)[i] == k;
    }
    if k in Names(r) {
      var i :| 0 <= i < |r| && Names(r)[i] == k;
      RenameOnto(k, k);
      assert Names(out)[i] == k;
    }
  }

  lemma InsertedNames(r: Record, pos: nat, name: string, v: Cell, k: string)
    requires pos <= |r|
    ensures k in Names(r[..pos] + [(name, v)] + r[pos..]) <==> k in Names(r) || k == name
  {
    var out := r[..pos] + [(name, v)] + r[pos..];
    assert Names(out) == Names(r)[..pos] + [name] + Names(r)[pos..];
    assert Names(r) == Names(r)[..pos] + Names(r)[pos..];
  }

  /** Labelling succeeds exactly when none of the three labels is taken. */
  lemma LabelSucceeds(renamed: Record, dName: string)
    ensures Label(renamed, dName).Success? <==>
      "Model" !in Names(renamed) && "Idsim" !in Names(renamed) && "Texte" !in Names(renamed)
  {
    if "Model" !in Names(renamed) {
      InsertedNames(renamed, 0, "Model", Str("Dssat"), "Idsim");
      InsertedNames(renamed, 0, "Model", Str("Dssat"), "Texte");
      var r1 := InsertColumn(renamed, 0, "Model", Str("Dssat")).value;
      if "Idsim" !in Names(renamed) {
        InsertedNames(r1, 1, "Idsim", Str(dName), "Texte");
      }
    }
  }

  lemma BuildFrameSucceeds(dName: string, c: Coord, names: seq<string>, values: seq<real>)
    requires |values| >= |names|
    ensures BuildFrame(dName, c, names, values).Success? <==> LabelsAccepted(names)
  {
    var d := DictFrom(names, values);
    var res := ResetIndex(d);
    if res.Success? {
      RenamedNames(res.value, "Model");
      RenamedNames(res.value, "Idsim");
      RenamedNames(res.value, "Texte");
      assert Names(res.value) == Names(res.value)[..1] + Names(d);
      LabelSucceeds(RenameColumns(res.value), dName);
    }
  }

  /** When `transform` succeeds: exactly when the unit name holds three matches,
      the file has a variable line and at least one data line, every data line
      parses, the first one has a value for every name, and pandas accepts the
      labels. */
  lemma TransformSucceeds(path: string, lines: seq<string>, parseFloat: string -> Option<real>)
    ensures Transform(path, lines, parseFloat).Success? <==>
      |FindAll(UnitName(path))| >= 3 && |lines| >= 5 &&
      ParseDataLines(lines[4..], parseFloat).Some? &&
      |LineValues(lines[4], parseFloat).value| >= |VariableNames(lines)| &&
      LabelsAccepted(VariableNames(lines))
  {
    if |FindAll(UnitName(path))| >= 3 && |lines| >= 4 {
      var parsed := ParseDataLines(lines[4..], parseFloat);
      if parsed.Some? && parsed.value != [] && |parsed.value[0]| >= |VariableNames(lines)| {
        assert lines[4..][0] == lines[4];
        BuildFrameSucceeds(UnitName(path), GetCoord(UnitName(path)).value, VariableNames(lines), parsed.value[0]);
      }
    }
  }

  /** Whatever the variables, a produced frame has one row when the header
      names a variable and none otherwise, and its row starts with `Model`,
      `Idsim` (the unit name) and `Texte`. */
  lemma TransformLabels(path: string, lines: seq<string>, parseFloat: string -> Option<real>)
    requires Transform(path, lines, parseFloat).Success?
    ensures var f := Transform(path, lines, parseFloat).value;
      |f| == (if VariableNames(lines) == [] then 0 else 1) &&
      forall r :: r in f ==>
        |r| >= 3 && r[0] == ("Model", Str("Dssat")) && r[1] == ("Idsim", Str(UnitName(path))) && r[2] == ("Texte", Str(""))
  {
    var rows := ParseDataLines(lines[4..], parseFloat).value;
    BuildFrameLabels(UnitName(path), GetCoord(UnitName(path)).value, VariableNames(lines), rows[0]);
  }

  lemma BuildFrameLabels(dName: string, c: Coord, names: seq<string>, values: seq<real>)
    requires |values| >= |names| && BuildFrame(dName, c, names, values).Success?
    ensures var f := BuildFrame(dName, c, names, values).value;
      |f| == (if names == [] then 0 else 1) &&
      forall r :: r in f ==>
        |r| >= 3 && r[0] == ("Model", Str("Dssat")) && r[1] == ("Idsim", Str(dName)) && r[2] == ("Texte", Str(""))
  {
    var renamed := RenameColumns(ResetIndex(DictFrom(names, values)).value);
    LabelSucceeds(renamed, dName);
    LabelShape(renamed, dName);
    KeepsFront(Label(renamed, dName).value, c);
  }

  lemma KeepsFront(r: Record, c: Coord)
    requires |r| >= 3 && r[0].0 == "Model" && r[1].0 == "Idsim" && r[2].0 == "Texte"
    ensures var out := AddCoordinates(r, c); |out| >= 3 && out[0] == r[0] && out[1] == r[1] && out[2] == r[2]
  {
    KeepsLabel(r, c, 0);
    KeepsLabel(r, c, 1);
    KeepsLabel(r, c, 2);
  }

  lemma KeepsLabel(r: Record, c: Coord, i: nat)
    requires i < |r| && (r[i].0 == "Model" || r[i].0 == "Idsim" || r[i].0 == "Texte")
    ensures i < |AddCoordinates(r, c)| && AddCoordinates(r, c)[i] == r[i]
  {
    assert "Model"[0] != "lon"[0] && "Model"[0] != "lat"[0] && "Model"[0] != "time"[0];
    assert "Idsim"[0] != "lon"[0] && "Idsim"[0] != "lat"[0] && "Idsim"[0] != "time"[0];
    assert "Texte"[0] != "lon"[0] && "Texte"[0] != "lat"[0] && "Texte"[0] != "time"[0];
    var r4 := SetColumn(r, "lon", Real(c.lon));
    SetColumnKeepsOthers(r, "lon", Real(c.lon), i);
    var r5 := SetColumn(r4, "lat", Real(c.lat));
    SetColumnKeepsOthers(r4, "lat", Real(c.lat), i);
    SetColumnKeepsOthers(r5, "time", Int(c.year), i);
  }

  /** Only the first data line supplies values: files that agree up to it and
      whose data lines all parse give the same record. */
  lemma FirstDataLineOnly(path: string, lines1: seq<string>, lines2: seq<string>, parseFloat: string -> Option<real>)
    requires |lines1| >= 5 && |lines2| >= 5 && lines1[..5] == lines2[..5]
    requires ParseDataLines(lines1[4..], parseFloat).Some? && ParseDataLines(lines2[4..], parseFloat).Some?
    ensures Transform(path, lines1, parseFloat) == Transform(path, lines2, parseFloat)
  {
    assert lines1[3] == lines1[..5][3] && lines2[3] == lines2[..5][3];
    assert lines1[4] == lines1[..5][4] && lines2[4] == lines2[..5][4];
    assert lines1[4..][0] == lines1[4] && lines2[4..][0] == lines2[4];
  }

  /** Yet every data line is converted: one token after the first 13 that is
      not a float, on any data line, makes `transform` fail. */
  lemma EveryDataLineMustParse(path: string, lines: seq<string>, parseFloat: string -> Option<real>, i: nat)
    requires 4 <= i < |lines| && LineValues(lines[i], parseFloat).None?
    ensures Transform(path, lines, parseFloat).Failure?
  {
    assert lines[4..][i - 4] == lines[i];
    TransformSucceeds(path, lines, parseFloat);
  }

  /** The renamed variable columns, with their values. */
  function VariableColumns(names: seq<string>, values: seq<real>): (r: Record)
    requires |values| >= |names|
    ensures |r| == |names|
    ensures forall i :: 0 <= i < |names| ==> r[i] == (Rename(names[i]), Real(values[i]))
  {
    seq(|names|, i requires 0 <= i < |names| => (Rename(names[i]), Real(values[i])))
  }

  /** The record of a well-formed summary: `Model`, `Idsim`, `Texte`, `index`,
      the variables (renamed) in header order, then `lon`, `lat`, `time`. */
  function SummaryRecord(dName: string, c: Coord, names: seq<string>, values: seq<real>): Record
    requires |values| >= |names|
  {
    [("Model", Str("Dssat")), ("Idsim", Str(dName)), ("Texte", Str("")), ("index", Int(0))]
    + VariableColumns(names, values)
    + [("lon", Real(c.lon)), ("lat", Real(c.lat)), ("time", Int(c.year))]
  }

  /** On distinct variable codes that clash with no added column, `transform`
      returns exactly the record above as its one row, or no row when the
      header names no variable. */
  lemma TransformFrame(path: string, lines: seq<string>, parseFloat: string -> Option<real>)
    requires |FindAll(UnitName(path))| >= 3 && |lines| >= 5
    requires ParseDataLines(lines[4..], parseFloat).Some?
    requires |LineValues(lines[4], parseFloat).value| >= |VariableNames(lines)|
    requires Distinct(VariableNames(lines))
    requires forall k :: k in VariableNames(lines) ==> k !in AddedColumns
    ensures Transform(path, lines, parseFloat) ==
      Success(if VariableNames(lines) == [] then []
              else [SummaryRecord(UnitName(path), GetCoord(UnitName(path)).value, VariableNames(lines),
                                  LineValues(lines[4], parseFloat).value)])
  {
    assert lines[4..][0] == lines[4];
    BuildFrameShape(UnitName(path), GetCoord(UnitName(path)).value, VariableNames(lines),
                     LineValues(lines[4], parseFloat).value);
  }

  lemma BuildFrameShape(dName: string, c: Coord, names: seq<string>, values: seq<real>)
    requires |values| >= |names|
    requires Distinct(names)
    requires forall k :: k in names ==> k !in AddedColumns
    ensures BuildFrame(dName, c, names, values) == Success(if names == [] then [] else [SummaryRecord(dName, c, names, values)])
  {
    var renamed := [("index", Int(0))] + VariableColumns(names, values);
    DictFromDistinct(names, values);
    IndexedAndRenamed(names, values);
    AddedColumnsAbsent(names, values, renamed);
    LabelShape(renamed, dName);
    CoordinatesLast(dName, c, names, values);
  }

  lemma CoordinatesLast(dName: string, c: Coord, names: seq<string>, values: seq<real>)
    requires |values| >= |names|
    requires forall k :: k in names ==> k !in AddedColumns
    ensures AddCoordinates([("Model", Str("Dssat")), ("Idsim", Str(dName)), ("Texte", Str(""))]
                           + ([("index", Int(0))] + VariableColumns(names, values)), c)
         == SummaryRecord(dName, c, names, values)
  {
    var renamed := [("index", Int(0))] + VariableColumns(names, values);
    var front := [("Model", Str("Dssat")), ("Idsim", Str(dName)), ("Texte", Str(""))];
    CoordinatesFree(names, values, front, renamed);
    AddCoordinatesShape(front + renamed, c);
    Regroup(front[0], front[1], front[2], ("index", Int(0)), VariableColumns(names, values),
            [("lon", Real(c.lon)), ("lat", Real(c.lat)), ("time", Int(c.year))]);
  }

  lemma CoordinatesFree(names: seq<string>, values: seq<real>, front: Record, renamed: Record)
    requires |values| >= |names|
    requires forall k :: k in names ==> k !in AddedColumns
    requires renamed == [("index", Int(0))] + VariableColumns(names, values)
    requires Names(front) == ["Model", "Idsim", "Texte"]
    ensures "lon" !in Names(front + renamed) && "lat" !in Names(front + renamed) && "time" !in Names(front + renamed)
  {
    AddedColumnsAbsent(names, values, renamed);
    NamesAppend(front, renamed);
  }

  lemma Regroup(a: (string, Cell), b: (string, Cell), c: (string, Cell), x: (string, Cell), middle: Record, back: Record)
    ensures [a, b, c] + ([x] + middle) + back == [a, b, c, x] + middle + back
  {
  }

  /** `reset_index` puts `index` first, and renaming leaves it alone. */
  lemma IndexedAndRenamed(names: seq<string>, values: seq<real>)
    requires |values| >= |names|
    requires forall k :: k in names ==> k !in AddedColumns
    ensures ResetIndex(Pairs(names, values)).Success?
    ensures RenameColumns(ResetIndex(Pairs(names, values)).value)
         == [("index", Int(0))] + VariableColumns(names, values)
  {
    var p := Pairs(names, values);
    IndexFree(names, values);
    ResetFresh(p);
    RenameFront(("index", Int(0)), p);
    RenamePairs(names, values);
  }

  lemma ResetFresh(r: Record)
    requires "index" !in Names(r)
    ensures ResetIndex(r) == Success([("index", Int(0))] + r)
  {
  }

  lemma IndexFree(names: seq<string>, values: seq<real>)
    requires |values| >= |names|
    requires forall k :: k in names ==> k !in AddedColumns
    ensures "index" !in Names(Pairs(names, values))
  {
    var p := Pairs(names, values);
    assert "index" in AddedColumns;
    forall i | 0 <= i < |p| ensures Names(p)[i] != "index" {
      assert names[i] in names;
    }
  }

  lemma RenameFront(x: (string, Cell), r: Record)
    ensures RenameColumns([x] + r) == [(Rename(x.0), x.1)] + RenameColumns(r)
  {
    assert forall i :: 0 < i < |r| + 1 ==> ([x] + r)[i] == r[i - 1];
  }

  lemma RenamePairs(names: seq<string>, values: seq<real>)
    requires |values| >= |names|
    ensures RenameColumns(Pairs(names, values)) == VariableColumns(names, values)
  {
  }

  lemma AddedColumnsAbsent(names: seq<string>, values: seq<real>, renamed: Record)
    requires |values| >= |names|
    requires forall k :: k in names ==> k !in AddedColumns
    requires renamed == [("index", Int(0))] + VariableColumns(names, values)
    ensures forall k :: k in AddedColumns && k != "index" ==> k !in Names(renamed)
  {
    forall k | k in AddedColumns && k != "index" ensures k !in Names(renamed) {
      forall i | 1 <= i < |renamed| ensures Names(renamed)[i] != k {
        assert names[i - 1] in names;
      }
    }
  }

  lemma InsertAfterPrefix(p: Record, x: (string, Cell), r: Record)
    ensures (p + r)[..|p|] + [x] + (p + r)[|p|..] == p + [x] + r
  {
    assert (p + r)[..|p|] == p;
    assert (p + r)[|p|..] == r;
  }

  lemma InsertThreeAbsent(a: (string, Cell), b: (string, Cell), c: (string, Cell), r: Record)
    requires a.0 != b.0 && a.0 != c.0 && b.0 != c.0
    requires a.0 !in Names(r) && b.0 !in Names(r) && c.0 !in Names(r)
    ensures InsertColumn(r, 0, a.0, a.1) == Success([a] + r)
    ensures InsertColumn([a] + r, 1, b.0, b.1) == Success([a, b] + r)
    ensures InsertColumn([a, b] + r, 2, c.0, c.1) == Success([a, b, c] + r)
  {
    NamesAppend([a], r);
    NamesAppend([a, b], r);
    assert Names([a]) == [a.0] && Names([a, b]) == [a.0, b.0];
    InsertAfterPrefix([], a, r);
    assert [] + r == r && [] + [a] + r == [a] + r;
    InsertAfterPrefix([a], b, r);
    assert [a] + [b] + r == [a, b] + r;
    InsertAfterPrefix([a, b], c, r);
    assert [a, b] + [c] + r == [a, b, c] + r;
  }

  lemma LabelShape(renamed: Record, dName: string)
    requires "Model" !in Names(renamed) && "Idsim" !in Names(renamed) && "Texte" !in Names(renamed)
    ensures Label(renamed, dName)
      == Success([("Model", Str("Dssat")), ("Idsim", Str(dName)), ("Texte", Str(""))] + renamed)
  {
    assert "Model"[0] != "Idsim"[0] && "Model"[0] != "Texte"[0] && "Idsim"[0] != "Texte"[0];
    InsertThreeAbsent(("Model", Str("Dssat")), ("Idsim", Str(dName)), ("Texte", Str("")), renamed);
  }

  lemma SetThreeAbsent(a: (string, Cell), b: (string, Cell), c: (string, Cell), r: Record)
    requires a.0 != b.0 && a.0 != c.0 && b.0 != c.0
    requires a.0 !in Names(r) && b.0 !in Names(r) && c.0 !in Names(r)
    ensures SetColumn(SetColumn(SetColumn(r, a.0, a.1), b.0, b.1), c.0, c.1) == r + [a, b, c]
  {
    NamesAppend(r, [a]);
    NamesAppend(r, [a, b]);
    assert Names([a]) == [a.0] && Names([a, b]) == [a.0, b.0];
    SetColumnNames(r, a.0, a.1);
    SetColumnNames(r + [a], b.0, b.1);
    SetColumnNames(r + [a, b], c.0, c.1);
    assert r + [a] + [b] == r + [a, b];
    assert r + [a, b] + [c] == r + [a, b, c];
  }

  lemma AddCoordinatesShape(r: Record, c: Coord)
    requires "lon" !in Names(r) && "lat" !in Names(r) && "time" !in Names(r)
    ensures AddCoordinates(r, c) == r + [("lon", Real(c.lon)), ("lat", Real(c.lat)), ("time", Int(c.year))]
  {
    assert "lon"[1] != "lat"[1] && |"lon"| != |"time"| && |"lat"| != |"time"|;
    SetThreeAbsent(("lon", Real(c.lon)), ("lat", Real(c.lat)), ("time", Int(c.year)), r);
  }
}
