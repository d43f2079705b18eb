/** One DSSAT worker: `process_chunk` runs every simulation unit of its chunk
    (cultivar, weather, soil and experiment files, the engine, the summary),
    skips a unit whose step raises, memoises converted weather and soil per
    climate and soil key, clears both caches every `CacheClearInterval` rows,
    and concatenates the frames it collected (one row each, or none when a
    summary names no variable). The converters, the
    engine and the file system are parameters (`Collaborators`); what the
    worker asks of them is recorded as a sequence of `Event`s. */
module ChunkProcessor {
  import opened Wrappers
  import opened Seqs
  import opened PyText
  import opened Tables
  import opened SummaryParser

  const CacheClearInterval: nat := 50000
  const ConcatBatchSize: nat := 1000

  /** A row of `SimUnitList`: the `str()` of each field, and whether `idsoil`
      and `idMangt` are text in the database (the soil key joins them with
      `+`, which raises `TypeError` on anything else). */
  datatype SimUnit = SimUnit(idsim: string, idPoint: string, startYear: string, idMangt: string, idsoil: string,
                             soilKeyText: bool)

  /** How the engine script ended: normally, after its 300-second timeout,
      with a non-zero exit status, or without starting. */
  datatype EngineOutcome = Completed | TimedOut | NonZeroExit(code: int) | LaunchError

  /** The code the worker calls but that is not modelled: `None` or `false`
      stands for an exception raised by that call; `summary` gives the lines of
      an existing file and `None` for a missing one. */
  datatype Collaborators = Collaborators(
    cultivar: (string, string) -> Option<string>,
    weather: (string, string) -> Option<seq<string>>,
    soil: (string, string) -> Option<string>,
    xfile: (string, string, string, int) -> bool,
    engine: (string, string, string) -> EngineOutcome,
    summary: string -> Option<seq<string>>,
    parseFloat: string -> Option<real>,
    parseInt: string -> Option<int>)

  datatype Config = Config(directoryPath: string, dt: int)

  datatype Event =
    | CultivarExport(simPath: string, usmdir: string)
    | WeatherExport(simPath: string, usmdir: string)
    | SoilExport(simPath: string, usmdir: string)
    | XFileExport(simPath: string, usmdir: string, crop: string, dt: int)
    | WriteFile(path: string, content: string)
    | RunEngine(usmdir: string, root: string, mode: string)
    | RemoveFile(path: string)

  /** `weathertable` (climate key to the weather converter's file contents)
      and `soiltable` (soil key to the soil file's content). */
  datatype Caches = Caches(weather: map<string, seq<string>>, soil: map<string, string>)

  /** What one row does: its events, the caches it leaves and the rows of the
      frame it appends to `dataframes` (`None`: it appends nothing). */
  datatype RowOutcome = RowOutcome(events: seq<Event>, caches: Caches, frame: Option<seq<Record>>)

  function UsmDir(dir: string, u: SimUnit): string { Join(dir, u.idsim) }

  function WeatherPath(dir: string, u: SimUnit): string
  {
    Join(Join(Join(Join(dir, u.idsim), u.idPoint), u.startYear), u.idMangt)
  }

  function SoilPath(dir: string, u: SimUnit): string
  {
    Join(Join(Join(Join(Join(dir, u.idsim), u.idsoil), u.idPoint), u.startYear), u.idMangt)
  }

  function XFilePath(dir: string, u: SimUnit): string { Join(Join(dir, u.idsim), u.idMangt) }

  function SummaryPath(dir: string, idsim: string): string { Join(dir, "Summary_" + idsim + ".OUT") }

  function ClimId(u: SimUnit): string { u.idPoint + "." + u.startYear }

  function SoilId(u: SimUnit): string { u.idsoil + "." + u.idMangt }

  /** The name of a copied weather file: management code (upper case), two
      year digits, then `01.WTH`. */
  function WeatherFileName(mngt: string, yy: string): string { Upper(mngt) + yy + "01.WTH" }

  /** A cache hit for the weather: the two cached files are written again,
      named after the management and year components of `simPath`. */
  function WeatherHit(env: Collaborators, usmdir: string, simPath: string, values: seq<string>): (seq<Event>, bool)
  {
    var st := Split(simPath, '/');
    if |st| < 2 then ([], false)
    else
      var mngt := Slice(st[|st| - 1], 0, 4);
      var year := st[|st| - 2];
      if |values| < 1 then ([], false)
      else
        var first := WriteFile(Join(usmdir, WeatherFileName(mngt, Slice(year, 2, 4))), values[0]);
        match env.parseInt(year)
        case None => ([first], false)
        case Some(y) =>
          if |values| < 2 then ([first], false)
          else ([first, WriteFile(Join(usmdir, WeatherFileName(mngt, Slice(IntToString(y + 1), 2, 4))), values[1])], true)
  }

  function WeatherStage(env: Collaborators, dir: string, u: SimUnit, c: Caches): (seq<Event>, Caches, bool)
  {
    var sp := WeatherPath(dir, u);
    var usm := UsmDir(dir, u);
    var key := ClimId(u);
    if key !in c.weather then
      match env.weather(sp, usm)
      case None => ([WeatherExport(sp, usm)], c, false)
      case Some(v) => ([WeatherExport(sp, usm)], c.(weather := c.weather[key := v]), true)
    else
      var (ev, ok) := WeatherHit(env, usm, sp, c.weather[key]);
      (ev, c, ok)
  }

  function SoilStage(env: Collaborators, dir: string, u: SimUnit, c: Caches): (seq<Event>, Caches, bool)
  {
    var sp := SoilPath(dir, u);
    var usm := UsmDir(dir, u);
    var key := SoilId(u);
    if !u.soilKeyText then ([], c, false)
    else if key !in c.soil then
      match env.soil(sp, usm)
      case None => ([SoilExport(sp, usm)], c, false)
      case Some(content) => ([SoilExport(sp, usm)], c.(soil := c.soil[key := content]), true)
    else ([WriteFile(Join(usm, "XX.SOL"), c.soil[key])], c, true)
  }

  /** Experiment file, engine run and summary: the part that touches no cache. */
  function Tail(env: Collaborators, cfg: Config, u: SimUnit, crop: string): (seq<Event>, Option<seq<Record>>)
  {
    var dir := cfg.directoryPath;
    var xp := XFilePath(dir, u);
    var usm := UsmDir(dir, u);
    var x := XFileExport(xp, usm, crop, cfg.dt);
    if !env.xfile(xp, usm, crop, cfg.dt) then ([x], None)
    else
      var mode := IntToString(cfg.dt);
      var run := RunEngine(usm, dir, mode);
      if env.engine(usm, dir, mode) != Completed then ([x, run], None)
      else
        var sp := SummaryPath(dir, u.idsim);
        match env.summary(sp)
        case None => ([x, run], None)
        case Some(lines) =>
          match Transform(sp, lines, env.parseFloat)
          case Failure(_) => ([x, run], None)
          case Success(rows) => ([x, run] + (if cfg.dt == 1 then [RemoveFile(sp)] else []), Some(rows))
  }

  /** One pass of the loop body: the `try` block, ending early (and keeping
      what it already did) where a step raises. */
  function RowStep(env: Collaborators, cfg: Config, u: SimUnit, c: Caches): RowOutcome
  {
    var dir := cfg.directoryPath;
    var sp := WeatherPath(dir, u);
    var usm := UsmDir(dir, u);
    var cult := CultivarExport(sp, usm);
    match env.cultivar(sp, usm)
    case None => RowOutcome([cult], c, None)
    case Some(crop) =>
      var (we, c1, wok) := WeatherStage(env, dir, u, c);
      var rest := AfterWeather(env, cfg, u, crop, c1, wok);
      RowOutcome([cult] + we + rest.events, rest.caches, rest.frame)
  }

  /** The soil step and the tail, reached only when the weather step succeeded. */
  function AfterWeather(env: Collaborators, cfg: Config, u: SimUnit, crop: string, c: Caches, weatherOk: bool): RowOutcome
  {
    if !weatherOk then RowOutcome([], c, None)
    else
      var (se, c2, sok) := SoilStage(env, cfg.directoryPath, u, c);
      if !sok then RowOutcome(se, c2, None)
      else
        var (te, rows) := Tail(env, cfg, u, crop);
        RowOutcome(se + te, c2, rows)
  }

  const NoCaches := Caches(map[], map[])

  /** The caches as row `i` finds them: emptied at every positive multiple of
      the interval. */
  function ClearAt(c: Caches, i: nat): Caches
  {
    if i > 0 && i % CacheClearInterval == 0 then NoCaches else c
  }

  datatype ChunkState = ChunkState(events: seq<Event>, caches: Caches, outcomes: seq<Option<seq<Record>>>)

  /** The worker's state after the first `k` rows of the chunk. */
  function Run(env: Collaborators, cfg: Config, chunk: seq<SimUnit>, k: nat): (s: ChunkState)
    requires k <= |chunk|
    ensures |s.outcomes| == k
    decreases k, 0
  {
    if k == 0 then ChunkState([], NoCaches, [])
    else
      var s := Run(env, cfg, chunk, k - 1);
      var r := RowAt(env, cfg, chunk, k - 1);
      ChunkState(s.events + r.events, r.caches, s.outcomes + [r.frame])
  }

  /** The caches row `i` starts from, and what that row does. */
  function CachesBefore(env: Collaborators, cfg: Config, chunk: seq<SimUnit>, i: nat): Caches
    requires i <= |chunk|
    decreases i, 1
  {
    ClearAt(Run(env, cfg, chunk, i).caches, i)
  }

  function RowAt(env: Collaborators, cfg: Config, chunk: seq<SimUnit>, i: nat): RowOutcome
    requires i < |chunk|
    decreases i, 2
  {
    RowStep(env, cfg, chunk[i], CachesBefore(env, cfg, chunk, i))
  }

  lemma RunStep(env: Collaborators, cfg: Config, chunk: seq<SimUnit>, i: nat)
    requires i < |chunk|
    ensures var s := Run(env, cfg, chunk, i); var r := RowAt(env, cfg, chunk, i);
      Run(env, cfg, chunk, i + 1) == ChunkState(s.events + r.events, r.caches, s.outcomes + [r.frame])
  {
  }

  lemma RunOutcomesStep(env: Collaborators, cfg: Config, chunk: seq<SimUnit>, i: nat)
    requires i < |chunk|
    ensures Run(env, cfg, chunk, i + 1).outcomes == Run(env, cfg, chunk, i).outcomes + [RowAt(env, cfg, chunk, i).frame]
  {
  }

  lemma RunCachesStep(env: Collaborators, cfg: Config, chunk: seq<SimUnit>, i: nat)
    requires i < |chunk|
    ensures Run(env, cfg, chunk, i + 1).caches == RowAt(env, cfg, chunk, i).caches
  {
  }

  /** `process_chunk`: the rows of the frames the rows appended, in row
      order, and everything asked of the collaborators. */
  method ProcessChunk(env: Collaborators, cfg: Config, chunk: seq<SimUnit>) returns (frame: seq<Record>, events: seq<Event>)
    ensures frame == Flatten(Somes(Run(env, cfg, chunk, |chunk|).outcomes))
    ensures events == Run(env, cfg, chunk, |chunk|).events
  {
    var dataframes: seq<seq<Record>> := [];
    var weathertable: map<string, seq<string>> := map[];
    var soiltable: map<string, string> := map[];
    events := [];
    for i := 0 to |chunk|
      invariant Caches(weathertable, soiltable) == Run(env, cfg, chunk, i).caches
      invariant events == Run(env, cfg, chunk, i).events
      invariant dataframes == Somes(Run(env, cfg, chunk, i).outcomes)
    {
      if i > 0 && i % CacheClearInterval == 0 {
        weathertable := map[];
        soiltable := map[];
      }
      assert Caches(weathertable, soiltable) == CachesBefore(env, cfg, chunk, i);
      var out := RowStep(env, cfg, chunk[i], Caches(weathertable, soiltable));
      RunStep(env, cfg, chunk, i);
      events := events + out.events;
      weathertable := out.caches.weather;
      soiltable := out.caches.soil;
      SomesSnoc(Run(env, cfg, chunk, i).outcomes, out.frame);
      if out.frame.Some? {
        dataframes := dataframes + [out.frame.value];
      }
    }
    frame := Concatenate(dataframes);
  }

  /** The final `pd.concat`: at once for up to `ConcatBatchSize` frames,
      otherwise batch by batch onto the running result; either way the rows
      come out in order. */
  method Concatenate(dataframes: seq<seq<Record>>) returns (result: seq<Record>)
    ensures result == Flatten(dataframes)
  {
    if |dataframes| <= ConcatBatchSize {
      return Flatten(dataframes);
    }
    result := [];
    var lo := 0;
    while lo < |dataframes|
      invariant 0 <= lo <= |dataframes|
      invariant result == Flatten(dataframes[..lo])
    {
      var hi := Min(lo + ConcatBatchSize, |dataframes|);
      var batch := dataframes[lo..hi];
      assert dataframes[..hi] == dataframes[..lo] + batch;
      FlattenAppend(dataframes[..lo], batch);
      result := result + Flatten(batch);
      lo := hi;
    }
    assert dataframes[..|dataframes|] == dataframes;
  }

  /** Row `i` converts the weather itself: exactly one weather key is added,
      when its cultivar step and its weather converter both succeed. */
  predicate WeatherFetched(env: Collaborators, dir: string, u: SimUnit)
  {
    env.cultivar(WeatherPath(dir, u), UsmDir(dir, u)).Some? && env.weather(WeatherPath(dir, u), UsmDir(dir, u)).Some?
  }

  lemma RowWeatherKeys(env: Collaborators, cfg: Config, u: SimUnit, c: Caches)
    ensures RowStep(env, cfg, u, c).caches.weather.Keys
         == c.weather.Keys + (if WeatherFetched(env, cfg.directoryPath, u) then {ClimId(u)} else {})
  {
    var dir := cfg.directoryPath;
    match env.cultivar(WeatherPath(dir, u), UsmDir(dir, u))
    case None =>
    case Some(crop) =>
      var (we, c1, wok) := WeatherStage(env, dir, u, c);
      WeatherStageKeys(env, dir, u, c);
      AfterWeatherKeepsWeather(env, cfg, u, crop, c1, wok);
  }

  /** The first row of the cache window row `i` belongs to. */
  function WindowStart(i: nat): (w: nat)
    ensures w <= i && i - w < CacheClearInterval
  {
    (i / CacheClearInterval) * CacheClearInterval
  }

  lemma WindowStep(i: nat)
    requires i > 0 && i % CacheClearInterval != 0
    ensures WindowStart(i) == WindowStart(i - 1)
  {
    var q := i / CacheClearInterval;
    assert i == q * CacheClearInterval + i % CacheClearInterval;
    assert (i - 1) / CacheClearInterval == q;
  }

  /** The weather cache row `i` sees holds exactly the climate keys of the
      earlier rows of its window whose weather was converted. */
  lemma {:induction false} CachedWeatherKeys(env: Collaborators, cfg: Config, chunk: seq<SimUnit>, i: nat)
    requires i <= |chunk|
    ensures forall key :: key in CachesBefore(env, cfg, chunk, i).weather <==>
      exists j :: WindowStart(i) <= j < i && ClimId(chunk[j]) == key && WeatherFetched(env, cfg.directoryPath, chunk[j])
  {
    if i > 0 && i % CacheClearInterval != 0 {
      CachedWeatherKeys(env, cfg, chunk, i - 1);
      WindowStep(i);
      KeysStep(env, cfg, chunk, i);
      WindowExtend(env, cfg.directoryPath, chunk, i, CachesBefore(env, cfg, chunk, i).weather.Keys,
                   CachesBefore(env, cfg, chunk, i - 1).weather.Keys);
    } else if i > 0 {
      assert WindowStart(i) == i;
    }
  }

  lemma WindowExtend(env: Collaborators, dir: string, chunk: seq<SimUnit>, i: nat, now: set<string>, before: set<string>)
    requires 0 < i <= |chunk| && WindowStart(i) == WindowStart(i - 1)
    requires now == before + (if WeatherFetched(env, dir, chunk[i - 1]) then {ClimId(chunk[i - 1])} else {})
    requires forall key :: key in before <==>
      exists j :: WindowStart(i - 1) <= j < i - 1 && ClimId(chunk[j]) == key && WeatherFetched(env, dir, chunk[j])
    ensures forall key :: key in now <==>
      exists j :: WindowStart(i) <= j < i && ClimId(chunk[j]) == key && WeatherFetched(env, dir, chunk[j])
  {
    forall key ensures key in now <==>
      exists j :: WindowStart(i) <= j < i && ClimId(chunk[j]) == key && WeatherFetched(env, dir, chunk[j])
    {
      if key in before {
        var j :| WindowStart(i - 1) <= j < i - 1 && ClimId(chunk[j]) == key && WeatherFetched(env, dir, chunk[j]);
        assert WindowStart(i) <= j < i;
      } else if key in now {
        assert ClimId(chunk[i - 1]) == key && WeatherFetched(env, dir, chunk[i - 1]);
      }
    }
  }

  lemma KeysStep(env: Collaborators, cfg: Config, chunk: seq<SimUnit>, i: nat)
    requires 0 < i <= |chunk| && i % CacheClearInterval != 0
    ensures CachesBefore(env, cfg, chunk, i).weather.Keys
         == CachesBefore(env, cfg, chunk, i - 1).weather.Keys
          + (if WeatherFetched(env, cfg.directoryPath, chunk[i - 1]) then {ClimId(chunk[i - 1])} else {})
  {
    RunStep(env, cfg, chunk, i - 1);
    RowWeatherKeys(env, cfg, chunk[i - 1], CachesBefore(env, cfg, chunk, i - 1));
  }

  lemma WeatherExportOnMiss(env: Collaborators, cfg: Config, u: SimUnit, c: Caches)
    ensures WeatherExport(WeatherPath(cfg.directoryPath, u), UsmDir(cfg.directoryPath, u)) in RowStep(env, cfg, u, c).events
        <==> env.cultivar(WeatherPath(cfg.directoryPath, u), UsmDir(cfg.directoryPath, u)).Some? && ClimId(u) !in c.weather
  {
    var dir := cfg.directoryPath;
    match env.cultivar(WeatherPath(dir, u), UsmDir(dir, u))
    case None =>
    case Some(crop) =>
      var (we, c1, wok) := WeatherStage(env, dir, u, c);
      WeatherStageExport(env, dir, u, c);
      AfterWeatherEvents(env, cfg, u, crop, c1, wok);
  }

  lemma WeatherStageExport(env: Collaborators, dir: string, u: SimUnit, c: Caches)
    ensures WeatherExport(WeatherPath(dir, u), UsmDir(dir, u)) in WeatherStage(env, dir, u, c).0 <==> ClimId(u) !in c.weather
  {
  }

  lemma AfterWeatherKeepsWeather(env: Collaborators, cfg: Config, u: SimUnit, crop: string, c: Caches, weatherOk: bool)
    ensures AfterWeather(env, cfg, u, crop, c, weatherOk).caches.weather == c.weather
  {
    SoilStageKeepsWeather(env, cfg.directoryPath, u, c);
  }

  lemma AfterWeatherEvents(env: Collaborators, cfg: Config, u: SimUnit, crop: string, c: Caches, weatherOk: bool)
    ensures forall e :: e in AfterWeather(env, cfg, u, crop, c, weatherOk).events ==>
      e.SoilExport? || e.WriteFile? || e.XFileExport? || e.RunEngine? || e.RemoveFile?
  {
    SoilStageEvents(env, cfg.directoryPath, u, c);
    TailEvents(env, cfg, u, crop);
  }

  lemma WeatherStageKeys(env: Collaborators, dir: string, u: SimUnit, c: Caches)
    ensures WeatherStage(env, dir, u, c).1.weather.Keys
         == c.weather.Keys + (if env.weather(WeatherPath(dir, u), UsmDir(dir, u)).Some? then {ClimId(u)} else {})
    ensures WeatherStage(env, dir, u, c).1.soil == c.soil
  {
  }

  lemma SoilStageKeepsWeather(env: Collaborators, dir: string, u: SimUnit, c: Caches)
    ensures SoilStage(env, dir, u, c).1.weather == c.weather
  {
  }

  lemma SoilStageEvents(env: Collaborators, dir: string, u: SimUnit, c: Caches)
    ensures forall e :: e in SoilStage(env, dir, u, c).0 ==> e.SoilExport? || e.WriteFile?
  {
  }

  lemma TailEvents(env: Collaborators, cfg: Config, u: SimUnit, crop: string)
    ensures forall e :: e in Tail(env, cfg, u, crop).0 ==> e.XFileExport? || e.RunEngine? || e.RemoveFile?
  {
  }

  /** The weather converter runs for row `i` exactly when its cultivar step
      succeeds and no earlier row of the window with the same climate key had
      its weather converted. */
  lemma WeatherConvertedOncePerKey(env: Collaborators, cfg: Config, chunk: seq<SimUnit>, i: nat)
    requires i < |chunk|
    ensures var dir := cfg.directoryPath; var u := chunk[i];
      WeatherExport(WeatherPath(dir, u), UsmDir(dir, u)) in RowAt(env, cfg, chunk, i).events <==>
      env.cultivar(WeatherPath(dir, u), UsmDir(dir, u)).Some? &&
      !(exists j :: WindowStart(i) <= j < i && ClimId(chunk[j]) == ClimId(u) && WeatherFetched(env, dir, chunk[j]))
  {
    CachedWeatherKeys(env, cfg, chunk, i);
    WeatherExportOnMiss(env, cfg, chunk[i], CachesBefore(env, cfg, chunk, i));
  }

  /** Components a weather path can be split back into. */
  predicate WellFormedUnit(u: SimUnit)
  {
    u.startYear != [] && '/' !in u.startYear && '/' !in u.idMangt
  }

  lemma WeatherHitFiles(env: Collaborators, usm: string, p: string, y: string, m: string, values: seq<string>)
    requires y != [] && '/' !in y && '/' !in m && |values| >= 1
    ensures var h := WeatherHit(env, usm, Join(Join(p, y), m), values);
      |h.0| >= 1 && h.0[0] == WriteFile(Join(usm, WeatherFileName(Slice(m, 0, 4), Slice(y, 2, 4))), values[0]) &&
      (h.1 <==> env.parseInt(y).Some? && |values| >= 2) &&
      (h.1 ==> |h.0| == 2 && h.0[1] == WriteFile(Join(usm, WeatherFileName(Slice(m, 0, 4),
                                                   Slice(IntToString(env.parseInt(y).value + 1), 2, 4))), values[1])) &&
      (!h.1 ==> |h.0| == 1)
  {
    var path := Join(Join(p, y), m);
    JoinTwoLastComponents(p, y, m);
    var st := Split(path, '/');
    assert |st| >= 2 && st[|st| - 1] == m && st[|st| - 2] == y;
    var mngt := Slice(m, 0, 4);
    var first := WriteFile(Join(usm, WeatherFileName(mngt, Slice(y, 2, 4))), values[0]);
    var h := WeatherHit(env, usm, path, values);
    match env.parseInt(y)
    case None =>
      assert h == ([first], false);
    case Some(n) =>
      if |values| < 2 {
        assert h == ([first], false);
      } else {
        assert h == ([first, WriteFile(Join(usm, WeatherFileName(mngt, Slice(IntToString(n + 1), 2, 4))), values[1])], true);
      }
  }

  /** On a weather cache hit the cached contents are written under the names
      of the row being processed (its management code and its start year),
      not those of the row that filled the cache; when the year does not parse
      or the second file is missing, only the first file is written and the
      row yields nothing. */
  lemma WeatherHitWritesOwnNames(env: Collaborators, cfg: Config, u: SimUnit, c: Caches)
    requires env.cultivar(WeatherPath(cfg.directoryPath, u), UsmDir(cfg.directoryPath, u)).Some?
    requires ClimId(u) in c.weather && |c.weather[ClimId(u)]| >= 1 && WellFormedUnit(u)
    ensures var r := RowStep(env, cfg, u, c); var v := c.weather[ClimId(u)];
      var usm := UsmDir(cfg.directoryPath, u); var mngt := Slice(u.idMangt, 0, 4);
      |r.events| >= 2 && r.events[1] == WriteFile(Join(usm, WeatherFileName(mngt, Slice(u.startYear, 2, 4))), v[0]) &&
      (env.parseInt(u.startYear).Some? && |v| >= 2 ==>
         |r.events| >= 3 &&
         r.events[2] == WriteFile(Join(usm, WeatherFileName(mngt, Slice(IntToString(env.parseInt(u.startYear).value + 1), 2, 4))), v[1])) &&
      (env.parseInt(u.startYear).None? || |v| < 2 ==> |r.events| == 2 && r.frame.None?)
  {
    var dir := cfg.directoryPath;
    var crop := env.cultivar(WeatherPath(dir, u), UsmDir(dir, u)).value;
    WeatherHitFiles(env, UsmDir(dir, u), Join(Join(dir, u.idsim), u.idPoint), u.startYear, u.idMangt, c.weather[ClimId(u)]);
    var (we, c1, wok) := WeatherStage(env, dir, u, c);
    if !wok {
      assert AfterWeather(env, cfg, u, crop, c1, wok).events == [];
    }
  }

  lemma SoilStageFacts(env: Collaborators, dir: string, u: SimUnit, c: Caches)
    ensures SoilExport(SoilPath(dir, u), UsmDir(dir, u)) in SoilStage(env, dir, u, c).0 <==> u.soilKeyText && SoilId(u) !in c.soil
    ensures u.soilKeyText && SoilId(u) in c.soil ==>
      WriteFile(Join(UsmDir(dir, u), "XX.SOL"), c.soil[SoilId(u)]) in SoilStage(env, dir, u, c).0
    ensures !u.soilKeyText ==> SoilStage(env, dir, u, c) == ([], c, false)
    ensures SoilStage(env, dir, u, c).1.soil.Keys
         == c.soil.Keys + (if u.soilKeyText && env.soil(SoilPath(dir, u), UsmDir(dir, u)).Some? then {SoilId(u)} else {})
  {
  }

  /** The soil step of one row, once its weather step has succeeded: the soil
      converter runs exactly when the soil key can be built and is not
      cached, a hit copies the cached file into the unit's directory, a
      converted soil is cached under its key, and a key that cannot be built
      ends the row before any soil or experiment-file event. */
  lemma RowSoilStage(env: Collaborators, cfg: Config, u: SimUnit, c: Caches)
    requires env.cultivar(WeatherPath(cfg.directoryPath, u), UsmDir(cfg.directoryPath, u)).Some?
    requires WeatherStage(env, cfg.directoryPath, u, c).2
    ensures var dir := cfg.directoryPath; var r := RowStep(env, cfg, u, c);
      (SoilExport(SoilPath(dir, u), UsmDir(dir, u)) in r.events <==> u.soilKeyText && SoilId(u) !in c.soil) &&
      (u.soilKeyText && SoilId(u) in c.soil ==> WriteFile(Join(UsmDir(dir, u), "XX.SOL"), c.soil[SoilId(u)]) in r.events) &&
      (!u.soilKeyText ==> r.frame.None? && forall e :: e in r.events ==> !e.SoilExport? && !e.XFileExport?) &&
      r.caches.soil.Keys == c.soil.Keys + (if u.soilKeyText && env.soil(SoilPath(dir, u), UsmDir(dir, u)).Some? then {SoilId(u)} else {})
  {
    var dir := cfg.directoryPath;
    var crop := env.cultivar(WeatherPath(dir, u), UsmDir(dir, u)).value;
    var (we, c1, wok) := WeatherStage(env, dir, u, c);
    WeatherStageKeys(env, dir, u, c);
    WeatherStageEvents(env, dir, u, c);
    SoilStageFacts(env, dir, u, c1);
    TailEvents(env, cfg, u, crop);
  }

  lemma WeatherStageEvents(env: Collaborators, dir: string, u: SimUnit, c: Caches)
    ensures forall e :: e in WeatherStage(env, dir, u, c).0 ==> e.WeatherExport? || e.WriteFile?
  {
  }

  lemma TailFacts(env: Collaborators, cfg: Config, u: SimUnit, crop: string)
    ensures var t := Tail(env, cfg, u, crop);
      (RemoveFile(SummaryPath(cfg.directoryPath, u.idsim)) in t.0 <==> cfg.dt == 1 && t.1.Some?) &&
      (forall e :: e in t.0 && e.RemoveFile? ==> e == RemoveFile(SummaryPath(cfg.directoryPath, u.idsim))) &&
      (env.engine(UsmDir(cfg.directoryPath, u), cfg.directoryPath, IntToString(cfg.dt)) != Completed ==>
         t.1.None? && forall e :: e in t.0 ==> !e.RemoveFile?) &&
      (env.summary(SummaryPath(cfg.directoryPath, u.idsim)).None? ==>
         t.1.None? && forall e :: e in t.0 ==> !e.RemoveFile?) &&
      (t.1.Some? ==> t.1 == UnitFrame(env, cfg, u))
  {
  }

  /** A unit whose engine run fails (timeout, non-zero exit, launch error)
      appends no frame and its summary file is left in place. */
  lemma EngineFailureDropsRow(env: Collaborators, cfg: Config, u: SimUnit, c: Caches)
    requires env.engine(UsmDir(cfg.directoryPath, u), cfg.directoryPath, IntToString(cfg.dt)) != Completed
    ensures RowStep(env, cfg, u, c).frame.None?
    ensures forall e :: e in RowStep(env, cfg, u, c).events ==> !e.RemoveFile?
  {
    var dir := cfg.directoryPath;
    match env.cultivar(WeatherPath(dir, u), UsmDir(dir, u))
    case None =>
    case Some(crop) =>
      var (we, c1, wok) := WeatherStage(env, dir, u, c);
      WeatherStageEvents(env, dir, u, c);
      SoilStageEvents(env, dir, u, c1);
      TailFacts(env, cfg, u, crop);
  }

  /** A unit whose summary file does not exist is skipped: it appends no
      frame and removes nothing. */
  lemma MissingSummarySkipsRow(env: Collaborators, cfg: Config, u: SimUnit, c: Caches)
    requires env.summary(SummaryPath(cfg.directoryPath, u.idsim)).None?
    ensures RowStep(env, cfg, u, c).frame.None?
    ensures forall e :: e in RowStep(env, cfg, u, c).events ==> !e.RemoveFile?
  {
    var dir := cfg.directoryPath;
    match env.cultivar(WeatherPath(dir, u), UsmDir(dir, u))
    case None =>
    case Some(crop) =>
      var (we, c1, wok) := WeatherStage(env, dir, u, c);
      WeatherStageEvents(env, dir, u, c);
      SoilStageEvents(env, dir, u, c1);
      TailFacts(env, cfg, u, crop);
  }

  /** A summary that `transform` cannot convert is caught like any other
      exception: the unit appends no frame and removes nothing. */
  lemma UnconvertibleSummarySkipsRow(env: Collaborators, cfg: Config, u: SimUnit, c: Caches)
    requires var sp := SummaryPath(cfg.directoryPath, u.idsim);
      env.summary(sp).Some? && Transform(sp, env.summary(sp).value, env.parseFloat).Failure?
    ensures RowStep(env, cfg, u, c).frame.None?
    ensures forall e :: e in RowStep(env, cfg, u, c).events ==> !e.RemoveFile?
  {
    var dir := cfg.directoryPath;
    match env.cultivar(WeatherPath(dir, u), UsmDir(dir, u))
    case None =>
    case Some(crop) =>
      var (we, c1, wok) := WeatherStage(env, dir, u, c);
      WeatherStageEvents(env, dir, u, c);
      SoilStageEvents(env, dir, u, c1);
      TailEvents(env, cfg, u, crop);
  }

  /** Conversely, a row appends a frame only when each of its steps
      succeeded (cultivar, weather, soil, experiment file, engine, summary),
      and the frame is then what `transform` makes of its summary. */
  lemma FrameOnlyWhenEveryStepSucceeds(env: Collaborators, cfg: Config, u: SimUnit, c: Caches)
    requires RowStep(env, cfg, u, c).frame.Some?
    ensures var dir := cfg.directoryPath; var sp := WeatherPath(dir, u); var usm := UsmDir(dir, u);
      env.cultivar(sp, usm).Some? && WeatherStage(env, dir, u, c).2 && u.soilKeyText &&
      SoilStage(env, dir, u, WeatherStage(env, dir, u, c).1).2 &&
      env.xfile(XFilePath(dir, u), usm, env.cultivar(sp, usm).value, cfg.dt) &&
      env.engine(usm, dir, IntToString(cfg.dt)) == Completed &&
      env.summary(SummaryPath(dir, u.idsim)).Some? &&
      RowStep(env, cfg, u, c).frame == UnitFrame(env, cfg, u)
  {
    var dir := cfg.directoryPath;
    var crop := env.cultivar(WeatherPath(dir, u), UsmDir(dir, u)).value;
    TailFacts(env, cfg, u, crop);
  }

  /** The summary is removed exactly when `dt == 1` and the unit appended a
      frame (even one without rows). */
  lemma SummaryRemovedIff(env: Collaborators, cfg: Config, u: SimUnit, c: Caches)
    ensures var r := RowStep(env, cfg, u, c);
      RemoveFile(SummaryPath(cfg.directoryPath, u.idsim)) in r.events <==> cfg.dt == 1 && r.frame.Some?
  {
    var dir := cfg.directoryPath;
    match env.cultivar(WeatherPath(dir, u), UsmDir(dir, u))
    case None =>
    case Some(crop) =>
      var (we, c1, wok) := WeatherStage(env, dir, u, c);
      WeatherStageEvents(env, dir, u, c);
      SoilStageEvents(env, dir, u, c1);
      TailFacts(env, cfg, u, crop);
  }

  /** Every collaborator succeeds for this unit. */
  predicate UnitSucceeds(env: Collaborators, cfg: Config, u: SimUnit)
  {
    var dir := cfg.directoryPath;
    var sp := WeatherPath(dir, u);
    var usm := UsmDir(dir, u);
    var summary := SummaryPath(dir, u.idsim);
    WellFormedUnit(u) && u.soilKeyText && env.cultivar(sp, usm).Some? &&
    env.weather(sp, usm).Some? && |env.weather(sp, usm).value| >= 2 && env.parseInt(u.startYear).Some? &&
    env.soil(SoilPath(dir, u), usm).Some? &&
    env.xfile(XFilePath(dir, u), usm, env.cultivar(sp, usm).value, cfg.dt) &&
    env.engine(usm, dir, IntToString(cfg.dt)) == Completed &&
    UnitFrame(env, cfg, u).Some?
  }

  /** The rows of the frame `transform` makes of the unit's summary, if the
      summary exists and converts. */
  function UnitFrame(env: Collaborators, cfg: Config, u: SimUnit): Option<seq<Record>>
  {
    var summary := SummaryPath(cfg.directoryPath, u.idsim);
    match env.summary(summary)
    case None => None
    case Some(lines) =>
      match Transform(summary, lines, env.parseFloat)
      case Failure(_) => None
      case Success(r) => Some(r)
  }

  /** Every cached weather entry holds the two files a hit writes. */
  predicate LongWeather(c: Caches)
  {
    forall key :: key in c.weather ==> |c.weather[key]| >= 2
  }

  lemma WeatherStageSucceeds(env: Collaborators, dir: string, u: SimUnit, c: Caches)
    requires WellFormedUnit(u) && LongWeather(c)
    requires env.weather(WeatherPath(dir, u), UsmDir(dir, u)).Some? && |env.weather(WeatherPath(dir, u), UsmDir(dir, u)).value| >= 2
    requires env.parseInt(u.startYear).Some?
    ensures WeatherStage(env, dir, u, c).2 && LongWeather(WeatherStage(env, dir, u, c).1)
  {
    if ClimId(u) in c.weather {
      WeatherHitFiles(env, UsmDir(dir, u), Join(Join(dir, u.idsim), u.idPoint), u.startYear, u.idMangt, c.weather[ClimId(u)]);
    }
  }

  /** A unit whose collaborators all succeed appends its frame, whatever the
      caches hold (as long as cached weather entries are complete). */
  lemma UnitSucceedsGivesFrame(env: Collaborators, cfg: Config, u: SimUnit, c: Caches)
    requires UnitSucceeds(env, cfg, u) && LongWeather(c)
    ensures RowStep(env, cfg, u, c).frame == UnitFrame(env, cfg, u)
    ensures LongWeather(RowStep(env, cfg, u, c).caches)
  {
    var dir := cfg.directoryPath;
    WeatherStageSucceeds(env, dir, u, c);
    var c1 := WeatherStage(env, dir, u, c).1;
    var crop := env.cultivar(WeatherPath(dir, u), UsmDir(dir, u)).value;
    AfterWeatherSucceeds(env, cfg, u, crop, c1);
  }

  lemma AfterWeatherSucceeds(env: Collaborators, cfg: Config, u: SimUnit, crop: string, c: Caches)
    requires UnitSucceeds(env, cfg, u) && LongWeather(c)
    requires crop == env.cultivar(WeatherPath(cfg.directoryPath, u), UsmDir(cfg.directoryPath, u)).value
    ensures AfterWeather(env, cfg, u, crop, c, true).frame == UnitFrame(env, cfg, u)
    ensures LongWeather(AfterWeather(env, cfg, u, crop, c, true).caches)
  {
    SoilStageKeepsWeather(env, cfg.directoryPath, u, c);
  }

  lemma {:induction false} WeatherStaysComplete(env: Collaborators, cfg: Config, chunk: seq<SimUnit>, k: nat)
    requires k <= |chunk|
    requires forall j :: 0 <= j < |chunk| ==> UnitSucceeds(env, cfg, chunk[j])
    ensures LongWeather(CachesBefore(env, cfg, chunk, k))
  {
    if k > 0 {
      WeatherStaysComplete(env, cfg, chunk, k - 1);
      var before := CachesBefore(env, cfg, chunk, k - 1);
      RunStep(env, cfg, chunk, k - 1);
      assert Run(env, cfg, chunk, k).caches == RowAt(env, cfg, chunk, k - 1).caches;
      UnitSucceedsGivesFrame(env, cfg, chunk[k - 1], before);
      assert LongWeather(RowAt(env, cfg, chunk, k - 1).caches);
      ClearKeepsLong(Run(env, cfg, chunk, k).caches, k);
    }
  }

  lemma ClearKeepsLong(c: Caches, i: nat)
    requires LongWeather(c)
    ensures LongWeather(ClearAt(c, i))
  {
  }

  lemma RowAtSucceeds(env: Collaborators, cfg: Config, chunk: seq<SimUnit>, i: nat)
    requires i < |chunk|
    requires forall j :: 0 <= j < |chunk| ==> UnitSucceeds(env, cfg, chunk[j])
    ensures RowAt(env, cfg, chunk, i).frame == UnitFrame(env, cfg, chunk[i])
  {
    WeatherStaysComplete(env, cfg, chunk, i);
    UnitSucceedsGivesFrame(env, cfg, chunk[i], CachesBefore(env, cfg, chunk, i));
  }

  /** A sequence grown by one element per step holds, at `j`, the element
      step `j` added. */
  lemma {:induction false} GrownAt<T>(grown: nat --> seq<T>, added: nat --> T, n: nat, k: nat, j: nat)
    requires forall i :: 0 <= i <= n ==> grown.requires(i)
    requires forall i :: 0 <= i < n ==> added.requires(i)
    requires grown(0) == []
    requires forall i {:trigger added(i)} :: 0 <= i < n ==> grown(i + 1) == grown(i) + [added(i)]
    requires j < k <= n
    ensures |grown(k)| == k && grown(k)[j] == added(j)
  {
    assert grown(k) == grown(k - 1) + [added(k - 1)];
    if k - 1 > 0 {
      GrownAt(grown, added, n, k - 1, if j < k - 1 then j else 0);
    }
  }

  /** Row `j`'s outcome stays where it was put: once the worker is past row
      `j`, its `j`-th outcome is that row's. */
  lemma OutcomeIsRow(env: Collaborators, cfg: Config, chunk: seq<SimUnit>, k: nat, j: nat)
    requires j < k <= |chunk|
    ensures Run(env, cfg, chunk, k).outcomes[j] == RowAt(env, cfg, chunk, j).frame
  {
    var grown := (i: nat) requires i <= |chunk| => Run(env, cfg, chunk, i).outcomes;
    var added := (i: nat) requires i < |chunk| => RowAt(env, cfg, chunk, i).frame;
    forall i | 0 <= i < |chunk|
      ensures grown(i + 1) == grown(i) + [added(i)]
    {
      RunOutcomesStep(env, cfg, chunk, i);
    }
    GrownAt(grown, added, |chunk|, k, j);
  }

  /** When every unit of the chunk succeeds, each row appends its unit's
      frame. */
  lemma EveryUnitYieldsItsFrame(env: Collaborators, cfg: Config, chunk: seq<SimUnit>)
    requires forall j :: 0 <= j < |chunk| ==> UnitSucceeds(env, cfg, chunk[j])
    ensures forall j :: 0 <= j < |chunk| ==> Run(env, cfg, chunk, |chunk|).outcomes[j] == UnitFrame(env, cfg, chunk[j])
  {
    forall j | 0 <= j < |chunk|
      ensures Run(env, cfg, chunk, |chunk|).outcomes[j] == UnitFrame(env, cfg, chunk[j])
    {
      OutcomeIsRow(env, cfg, chunk, |chunk|, j);
      RowAtSucceeds(env, cfg, chunk, j);
    }
  }

  /** The variable names of the unit's summary header (none without a
      summary). */
  function SummaryVariables(env: Collaborators, cfg: Config, u: SimUnit): seq<string>
  {
    match env.summary(SummaryPath(cfg.directoryPath, u.idsim))
    case None => []
    case Some(lines) => if |lines| >= 4 then VariableNames(lines) else []
  }

  /** `process_chunk` on units that all succeed: one frame per unit, in
      order, with one row when the unit's summary names a variable and none
      otherwise, every row carrying its unit's `idsim`. */
  lemma ChunkOfSucceedingUnits(env: Collaborators, cfg: Config, chunk: seq<SimUnit>)
    requires forall j :: 0 <= j < |chunk| ==> UnitSucceeds(env, cfg, chunk[j])
    ensures var frames := Somes(Run(env, cfg, chunk, |chunk|).outcomes);
      |frames| == |chunk| &&
      forall j :: 0 <= j < |chunk| ==>
        (Some(frames[j]) == UnitFrame(env, cfg, chunk[j]) &&
         |frames[j]| == (if SummaryVariables(env, cfg, chunk[j]) == [] then 0 else 1) &&
         ('/' !in chunk[j].idsim ==> forall r :: r in frames[j] ==> |r| >= 2 && r[1] == ("Idsim", Str(chunk[j].idsim))))
  {
    EveryUnitYieldsItsFrame(env, cfg, chunk);
    SomesAllPresent(Run(env, cfg, chunk, |chunk|).outcomes);
    forall j | 0 <= j < |chunk|
      ensures |UnitFrame(env, cfg, chunk[j]).value| == (if SummaryVariables(env, cfg, chunk[j]) == [] then 0 else 1)
      ensures '/' !in chunk[j].idsim ==>
        forall r :: r in UnitFrame(env, cfg, chunk[j]).value ==> |r| >= 2 && r[1] == ("Idsim", Str(chunk[j].idsim))
    {
      var summary := SummaryPath(cfg.directoryPath, chunk[j].idsim);
      TransformLabels(summary, env.summary(summary).value, env.parseFloat);
      if '/' !in chunk[j].idsim {
        SummaryUnitName(cfg.directoryPath, chunk[j].idsim);
      }
    }
  }

  /** When moreover every summary names a variable, the chunk's frame has
      exactly one row per unit, in unit order: the row of that unit's frame. */
  lemma ChunkRowsOfSucceedingUnits(env: Collaborators, cfg: Config, chunk: seq<SimUnit>)
    requires forall j :: 0 <= j < |chunk| ==> UnitSucceeds(env, cfg, chunk[j]) && SummaryVariables(env, cfg, chunk[j]) != []
    ensures var frame := Flatten(Somes(Run(env, cfg, chunk, |chunk|).outcomes));
      |frame| == |chunk| && forall j :: 0 <= j < |chunk| ==> UnitFrame(env, cfg, chunk[j]) == Some([frame[j]])
  {
    ChunkOfSucceedingUnits(env, cfg, chunk);
    FlattenSingletons(Somes(Run(env, cfg, chunk, |chunk|).outcomes));
  }

  /** `env` with other code for the steps after the soil step: the
      experiment-file writer, the engine, the summary reader and float
      parsing. */
  function WithOtherTail(env: Collaborators, x2: (string, string, string, int) -> bool,
                         e2: (string, string, string) -> EngineOutcome, s2: string -> Option<seq<string>>,
                         p2: string -> Option<real>): Collaborators
  {
    env.(xfile := x2, engine := e2, summary := s2, parseFloat := p2)
  }

  /** What happens after the soil step (experiment file, engine, summary)
      never changes the caches a row leaves behind. */
  lemma RowCachesIgnoreTail(env: Collaborators, env2: Collaborators, cfg: Config, u: SimUnit, c: Caches)
    requires env2 == WithOtherTail(env, env2.xfile, env2.engine, env2.summary, env2.parseFloat)
    ensures RowStep(env2, cfg, u, c).caches == RowStep(env, cfg, u, c).caches
  {
    var dir := cfg.directoryPath;
    assert WeatherStage(env2, dir, u, c) == WeatherStage(env, dir, u, c);
    var (_, c1, _) := WeatherStage(env, dir, u, c);
    assert SoilStage(env2, dir, u, c1) == SoilStage(env, dir, u, c1);
  }

  /** A row depends on the engine only through this row's own run: an engine
      that agrees on it gives the very same row. */
  lemma RowIgnoresOtherRuns(env: Collaborators, e2: (string, string, string) -> EngineOutcome, cfg: Config, u: SimUnit, c: Caches)
    requires var dir := cfg.directoryPath;
      e2(UsmDir(dir, u), dir, IntToString(cfg.dt)) == env.engine(UsmDir(dir, u), dir, IntToString(cfg.dt))
    ensures RowStep(env.(engine := e2), cfg, u, c) == RowStep(env, cfg, u, c)
  {
    var env2 := env.(engine := e2);
    var dir := cfg.directoryPath;
    assert WeatherStage(env2, dir, u, c) == WeatherStage(env, dir, u, c);
    var (_, c1, _) := WeatherStage(env, dir, u, c);
    assert SoilStage(env2, dir, u, c1) == SoilStage(env, dir, u, c1);
    match env.cultivar(WeatherPath(dir, u), UsmDir(dir, u))
    case None =>
    case Some(crop) =>
      assert Tail(env2, cfg, u, crop) == Tail(env, cfg, u, crop);
  }

  /** Failure isolation across rows: a failing experiment file, engine run
      or summary leaves the caches of every later row as they would
      otherwise be. */
  lemma {:induction false} CachesIgnoreTail(env: Collaborators, env2: Collaborators, cfg: Config, chunk: seq<SimUnit>, k: nat)
    requires k <= |chunk|
    requires env2 == WithOtherTail(env, env2.xfile, env2.engine, env2.summary, env2.parseFloat)
    ensures Run(env2, cfg, chunk, k).caches == Run(env, cfg, chunk, k).caches
  {
    if k > 0 {
      CachesIgnoreTail(env, env2, cfg, chunk, k - 1);
      RunCachesStep(env, cfg, chunk, k - 1);
      RunCachesStep(env2, cfg, chunk, k - 1);
      assert CachesBefore(env2, cfg, chunk, k - 1) == CachesBefore(env, cfg, chunk, k - 1);
      RowCachesIgnoreTail(env, env2, cfg, chunk[k - 1], CachesBefore(env, cfg, chunk, k - 1));
    }
  }

  /** Row `j`'s result depends on the engine only through row `j`'s own run:
      the engine failing on any other row changes nothing about it. */
  lemma OutcomeIgnoresOtherRuns(env: Collaborators, e2: (string, string, string) -> EngineOutcome, cfg: Config, chunk: seq<SimUnit>, k: nat, j: nat)
    requires j < k <= |chunk|
    requires var dir := cfg.directoryPath; var u := chunk[j];
      e2(UsmDir(dir, u), dir, IntToString(cfg.dt)) == env.engine(UsmDir(dir, u), dir, IntToString(cfg.dt))
    ensures Run(env.(engine := e2), cfg, chunk, k).outcomes[j] == Run(env, cfg, chunk, k).outcomes[j]
  {
    var env2 := env.(engine := e2);
    OutcomeIsRow(env, cfg, chunk, k, j);
    OutcomeIsRow(env2, cfg, chunk, k, j);
    CachesIgnoreTail(env, env2, cfg, chunk, j);
    assert CachesBefore(env2, cfg, chunk, j) == CachesBefore(env, cfg, chunk, j);
    RowIgnoresOtherRuns(env, e2, cfg, chunk[j], CachesBefore(env, cfg, chunk, j));
  }

  /** `Path(summary).stem[len("Summary_"):]` gives back the unit's `idsim`. */
  lemma SummaryUnitName(dir: string, idsim: string)
    requires '/' !in idsim
    ensures UnitName(SummaryPath(dir, idsim)) == idsim
  {
    var name := "Summary_" + idsim + ".OUT";
    assert '/' !in name by {
      assert name == "Summary_" + idsim + ".OUT";
      forall k | 0 <= k < |name| ensures name[k] != '/' {
        if k >= 8 && k < 8 + |idsim| {
          assert name[k] == idsim[k - 8];
        }
      }
    }
    JoinLastComponent(dir, name);
    assert name == ("Summary_" + idsim) + "." + "OUT";
    StemDropsSuffix("Summary_" + idsim, "OUT");
    assert ("Summary_" + idsim)[8..] == idsim;
  }
}
