/** The APSIM `.met` weather file writer `write_apsim_met`: where the file
    goes (an if/elif table over the `filename` entry of the weather record,
    the `wrt_dir` argument and the `filename` argument, with its `ValueError`
    cases), and what goes into it, in order, one write at a time. The file
    system is abstracted: `open` is taken to succeed, and the result names
    the path and lists the lines written to it, each of which the writer
    ends with a newline. */
module ApsimMet {
  import opened Wrappers
  import opened PyText

  /** The weather record: a Python dict whose entries may be missing. The
      data frame is given as its rendered cells, one sequence per row. */
  datatype Met = Met(
    filename: Option<string>,
    comments: Option<string>,
    site: Option<string>,
    latitude: Option<string>,
    longitude: Option<string>,
    tav: Option<string>,
    amp: Option<string>,
    constants: Option<seq<string>>,
    colnames: Option<seq<string>>,
    units: Option<seq<string>>,
    data: Option<seq<seq<string>>>)

  datatype MetError =
    | NeedFilename      // ValueError: a directory, but the record's name is the placeholder
    | NeedDirectory     // ValueError: a file name without a directory
    | NotMetFile        // ValueError: the file name does not end in `.met`
    | NoPath            // TypeError: the path is `None` (no name anywhere)
    | MissingLatitude   // ValueError: latitude missing or empty
    | MissingKey(key: string)  // KeyError on a required entry

  /** The placeholder name of a record read without a file name. */
  const NoName := "noname.met"

  const Header := "[weather.met.weather]"

  /** `key in met and met[key]`: present and not the empty string. */
  predicate Given(o: Option<string>)
  {
    o.Some? && o.value != ""
  }

  /** The `filename` after the first statement: the record's own name
      unless that is the placeholder or a name was passed. */
  function EffectiveFilename(metFilename: Option<string>, filename: Option<string>): Option<string>
  {
    if metFilename != Some(NoName) && filename.None? then metFilename else filename
  }

  /** The destination of the file, or the error raised before it is opened. */
  function ResolvePath(metFilename: Option<string>, wrtDir: Option<string>, filename: Option<string>)
    : Result<string, MetError>
  {
    var f := EffectiveFilename(metFilename, filename);
    var path: Result<string, MetError> :=
      if wrtDir.None? && f.None? then
        (match metFilename case None => Failure(NoPath) case Some(n) => Success(n))
      else if wrtDir.Some? && f.None? then
        (if metFilename == Some(NoName) then Failure(NeedFilename)
         else match metFilename case None => Failure(NoPath) case Some(n) => Success(Join(wrtDir.value, n)))
      else if wrtDir.None? then Failure(NeedDirectory)
      else Success(Join(wrtDir.value, f.value));
    if path.Failure? then path
    else if f.Some? && !EndsWith(f.value, ".met") then Failure(NotMetFile)
    else path
  }

  /** Directory and file name both given: their join, provided the name ends
      in `.met`. */
  lemma ResolveBothGiven(metFilename: Option<string>, wrtDir: string, filename: string)
    ensures ResolvePath(metFilename, Some(wrtDir), Some(filename)) ==
      if EndsWith(filename, ".met") then Success(Join(wrtDir, filename)) else Failure(NotMetFile)
  {
  }

  /** Without a directory, any file name, passed or taken from the record,
      is refused; the only success is the placeholder record with no name
      passed, and it writes to the placeholder name itself. */
  lemma ResolveWithoutDirectory(metFilename: Option<string>, filename: Option<string>)
    ensures var r := ResolvePath(metFilename, None, filename);
      (r.Success? <==> filename.None? && metFilename == Some(NoName)) &&
      (r.Success? ==> r.value == NoName) &&
      (filename.Some? || (metFilename.Some? && metFilename != Some(NoName)) ==> r == Failure(NeedDirectory)) &&
      (filename.None? && metFilename.None? ==> r == Failure(NoPath))
  {
  }

  /** A directory without a file name: the record's name is used, unless it
      is the placeholder, which is refused. */
  lemma ResolveDirectoryOnly(metFilename: Option<string>, wrtDir: string)
    ensures var r := ResolvePath(metFilename, Some(wrtDir), None);
      (metFilename == Some(NoName) ==> r == Failure(NeedFilename)) &&
      (metFilename.None? ==> r == Failure(NoPath)) &&
      (metFilename.Some? && metFilename != Some(NoName) ==>
        r == if EndsWith(metFilename.value, ".met") then Success(Join(wrtDir, metFilename.value)) else Failure(NotMetFile))
  {
  }

  /** Every path the writer opens ends in `.met`. */
  lemma ResolvedPathIsMet(metFilename: Option<string>, wrtDir: Option<string>, filename: Option<string>)
    ensures var r := ResolvePath(metFilename, wrtDir, filename);
      r.Success? ==> EndsWith(r.value, ".met")
  {
    var r := ResolvePath(metFilename, wrtDir, filename);
    var f := EffectiveFilename(metFilename, filename);
    if r.Success? {
      if wrtDir.None? {
        assert r.value == NoName;
        assert NoName[|NoName| - 4..] == ".met";
      } else {
        assert f.Some? && EndsWith(f.value, ".met") && r.value == Join(wrtDir.value, f.value);
        JoinKeepsSuffix(wrtDir.value, f.value, ".met");
      }
    }
  }

  /** `to_csv(sep=" ", index=False, header=False)` on the rendered cells. */
  function DataLines(rows: seq<seq<string>>): (r: seq<string>)
    ensures |r| == |rows|
    ensures forall i :: 0 <= i < |rows| ==> r[i] == JoinWith(rows[i], ' ')
  {
    if rows == [] then [] else [JoinWith(rows[0], ' ')] + DataLines(rows[1..])
  }

  /** The optional lines before the latitude. */
  function Preamble(met: Met): seq<string>
  {
    (if Given(met.comments) then [met.comments.value] else []) +
    [Header] +
    (if Given(met.site) then [met.site.value] else [])
  }

  /** What the body writes, in order, and the error that stops it. */
  function MetWrites(met: Met): (seq<string>, Option<MetError>)
  {
    var pre := Preamble(met);
    if !Given(met.latitude) then (pre, Some(MissingLatitude))
    else
      var (rest, e) := FromLatitude(met, met.latitude.value);
      (pre + rest, e)
  }

  /** The writes from the latitude on. */
  function FromLatitude(met: Met, latitude: string): (seq<string>, Option<MetError>)
  {
    var a := if Given(met.longitude) then [latitude] + [met.longitude.value] else [latitude];
    if met.tav.None? then (a, Some(MissingKey("tav")))
    else if met.amp.None? then (a + [met.tav.value], Some(MissingKey("amp")))
    else
      var a2 := a + [met.tav.value] + [met.amp.value];
      var b := if met.constants.Some? then a2 + met.constants.value else a2;
      var (t, e) := Columns(met);
      (b + t, e)
  }

  /** The writes from the column names on. */
  function Columns(met: Met): (seq<string>, Option<MetError>)
  {
    if met.colnames.None? then ([], Some(MissingKey("colnames")))
    else if met.units.None? then ([JoinWith(met.colnames.value, ' ')], Some(MissingKey("units")))
    else
      var c := [JoinWith(met.colnames.value, ' ')] + [JoinWith(met.units.value, ' ')];
      if met.data.None? then (c, Some(MissingKey("data")))
      else (c + DataLines(met.data.value), None)
  }

  /** The body, written step by step to the open file. */
  method WriteBody(met: Met) returns (writes: seq<string>, err: Option<MetError>)
    ensures (writes, err) == MetWrites(met)
  {
    writes := [];
    if Given(met.comments) {
      writes := writes + [met.comments.value];
    }
    writes := writes + [Header];
    if Given(met.site) {
      writes := writes + [met.site.value];
    }
    assert writes == Preamble(met);
    if !Given(met.latitude) {
      return writes, Some(MissingLatitude);
    }
    var more;
    more, err := WriteFromLatitude(met, met.latitude.value);
    writes := writes + more;
  }

  /** The body from the latitude on: what it writes and the error that
      stops it. */
  method WriteFromLatitude(met: Met, latitude: string) returns (writes: seq<string>, err: Option<MetError>)
    ensures (writes, err) == FromLatitude(met, latitude)
  {
    writes := [latitude];
    if Given(met.longitude) {
      writes := writes + [met.longitude.value];
    }
    if met.tav.None? {
      return writes, Some(MissingKey("tav"));
    }
    writes := writes + [met.tav.value];
    if met.amp.None? {
      return writes, Some(MissingKey("amp"));
    }
    writes := writes + [met.amp.value];
    if met.constants.Some? {
      writes := WriteConstants(writes, met.constants.value);
    }
    var more;
    more, err := WriteColumns(met);
    writes := writes + more;
  }

  /** The column names, the units and the data. */
  method WriteColumns(met: Met) returns (writes: seq<string>, err: Option<MetError>)
    ensures (writes, err) == Columns(met)
  {
    if met.colnames.None? {
      return [], Some(MissingKey("colnames"));
    }
    writes := [JoinWith(met.colnames.value, ' ')];
    if met.units.None? {
      return writes, Some(MissingKey("units"));
    }
    writes := writes + [JoinWith(met.units.value, ' ')];
    if met.data.None? {
      return writes, Some(MissingKey("data"));
    }
    writes := writes + DataLines(met.data.value);
    err := None;
  }

  /** `for constant in constants: con.write(constant + "\n")`. */
  method WriteConstants(writes0: seq<string>, constants: seq<string>) returns (writes: seq<string>)
    ensures writes == writes0 + constants
  {
    writes := writes0;
    ghost var done: seq<string> := [];
    for i := 0 to |constants|
      invariant done == constants[..i]
      invariant writes == writes0 + done
    {
      writes := writes + [constants[i]];
      done := done + [constants[i]];
    }
    assert done == constants;
  }

  /** The written file, if one was opened. */
  datatype MetFile = MetFile(path: string, writes: seq<string>)

  /** `write_apsim_met`: the path it returns a success for, or the error it
      raises, and the file it leaves behind. A body error leaves the file
      opened with the lines written before it. */
  method WriteApsimMet(met: Met, wrtDir: Option<string>, filename: Option<string>)
    returns (r: Result<string, MetError>, file: Option<MetFile>)
    ensures match ResolvePath(met.filename, wrtDir, filename)
      case Failure(e) => r == Failure(e) && file == None
      case Success(path) =>
        file == Some(MetFile(path, MetWrites(met).0)) &&
        r == (if MetWrites(met).1.Some? then Failure(MetWrites(met).1.value) else Success(path))
  {
    var path := ResolvePath(met.filename, wrtDir, filename);
    if path.Failure? {
      return Failure(path.error), None;
    }
    var writes, err := WriteBody(met);
    file := Some(MetFile(path.value, writes));
    if err.Some? {
      return Failure(err.value), file;
    }
    r := Success(path.value);
  }

  /** The header is always written, whatever else is missing, right after
      the comments line if there is one. */
  lemma HeaderAlwaysWritten(met: Met)
    ensures var (w, _) := MetWrites(met);
      var c := if Given(met.comments) then 1 else 0;
      |w| > c && w[c] == Header &&
      (c == 1 ==> w[0] == met.comments.value)
  {
    var pre := Preamble(met);
    var w := MetWrites(met).0;
    if Given(met.latitude) {
      assert w == pre + FromLatitude(met, met.latitude.value).0;
    }
    assert w[..|pre|] == pre;
  }

  /** A missing or empty latitude stops the writer after the comments,
      header and site: everything written up to then is what a record with
      a latitude would have begun with. */
  lemma {:induction false} LatitudeRequired(met: Met, latitude: string)
    requires !Given(met.latitude) && latitude != ""
    ensures var (w, e) := MetWrites(met);
      var (w2, _) := MetWrites(met.(latitude := Some(latitude)));
      e == Some(MissingLatitude) && w == Preamble(met) &&
      |w| < |w2| && w2[..|w|] == w && w2[|w|] == latitude
  {
    var met2 := met.(latitude := Some(latitude));
    var pre := Preamble(met);
    assert Preamble(met2) == pre;
    var rest := FromLatitude(met2, latitude).0;
    assert MetWrites(met2).0 == pre + rest;
    assert rest[0] == latitude;
  }

  /** A complete record gives the lines in the fixed order: the preamble,
      then latitude, optional longitude, tav and amp, then (see
      `CompleteRecordConstants`) each constant, then (see
      `CompleteRecordTail`) the column names, the units and the data. */
  lemma CompleteRecordOrder(met: Met)
    requires Given(met.latitude) && met.tav.Some? && met.amp.Some? && met.colnames.Some? &&
             met.units.Some? && met.data.Some?
    ensures var (w, e) := MetWrites(met);
      var rest := FromLatitude(met, met.latitude.value).0;
      var l := if Given(met.longitude) then 1 else 0;
      e.None? && w == Preamble(met) + rest && |rest| >= 3 + l &&
      rest[0] == met.latitude.value &&
      (l == 1 ==> rest[1] == met.longitude.value) &&
      rest[1 + l] == met.tav.value && rest[2 + l] == met.amp.value
  {
  }

  /** The constants follow the amplitude, one per line, in their order. */
  lemma CompleteRecordConstants(met: Met)
    requires Given(met.latitude) && met.tav.Some? && met.amp.Some? && met.constants.Some?
    ensures var rest := FromLatitude(met, met.latitude.value).0;
      var l := if Given(met.longitude) then 1 else 0;
      var ks := met.constants.value;
      |rest| >= 3 + l + |ks| &&
      forall i :: 0 <= i < |ks| ==> rest[3 + l + i] == ks[i]
  {
    var ks := met.constants.value;
    var a := if Given(met.longitude) then [met.latitude.value] + [met.longitude.value] else [met.latitude.value];
    var a2 := a + [met.tav.value] + [met.amp.value];
    var rest := a2 + ks + Columns(met).0;
    assert FromLatitude(met, met.latitude.value).0 == rest;
    forall i | 0 <= i < |ks|
      ensures rest[|a2| + i] == ks[i]
    {
      assert rest[|a2| + i] == (a2 + ks)[|a2| + i];
    }
  }

  /** The last lines of a complete record: the space-joined column names,
      the space-joined units, then one line per data row, and nothing after. */
  lemma CompleteRecordTail(met: Met)
    requires Given(met.latitude) && met.tav.Some? && met.amp.Some? && met.colnames.Some? &&
             met.units.Some? && met.data.Some?
    ensures var rest := FromLatitude(met, met.latitude.value).0;
      var l := if Given(met.longitude) then 1 else 0;
      var ks := if met.constants.Some? then met.constants.value else [];
      var t := Columns(met).0;
      rest == rest[..3 + l + |ks|] + t &&
      |t| == 2 + |met.data.value| &&
      t[0] == JoinWith(met.colnames.value, ' ') && t[1] == JoinWith(met.units.value, ' ') &&
      (forall i :: 0 <= i < |met.data.value| ==> t[2 + i] == JoinWith(met.data.value[i], ' '))
  {
    var t := Columns(met).0;
    var d := DataLines(met.data.value);
    assert t == [JoinWith(met.colnames.value, ' ')] + [JoinWith(met.units.value, ' ')] + d;
    forall i | 0 <= i < |met.data.value|
      ensures t[2 + i] == JoinWith(met.data.value[i], ' ')
    {
      assert t[2 + i] == d[i];
    }
    var l := if Given(met.longitude) then 1 else 0;
    var ks := if met.constants.Some? then met.constants.value else [];
    var a := if Given(met.longitude) then [met.latitude.value] + [met.longitude.value] else [met.latitude.value];
    var a2 := a + [met.tav.value] + [met.amp.value];
    var b := if met.constants.Some? then a2 + met.constants.value else a2;
    assert |b| == 3 + l + |ks|;
    var rest := b + t;
    assert rest[..|b|] == b;
  }
}
