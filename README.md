# ModFileGen converter core in Dafny

This project models three parts of ModFileGen, the tool that turns a master
input database of simulation units into the input files of crop models and
collects their outputs.

**DSSAT converter** (`dssatconverter.py`):
- `chunk_data` cuts the list of simulation units into `parts * nthreads`
  balanced sublists (`ChunkPlanner`).
- `process_chunk` is one worker (`ChunkProcessor`). For every unit it runs
  the cultivar, weather, soil and experiment-file converters, then the DSSAT
  engine script, then reads the unit's `Summary_<idsim>.OUT`.
  - It keeps the converted weather and soil per climate key and soil key.
  - It clears both caches every 50000 rows.
  - It skips a unit whose step raises.
  - It concatenates the frames it collected: one row per unit, or none
    when the unit's summary names no variable.
- `get_coord` and `transform` turn a summary file into a frame of one row,
  or of no row when its header names no variable after the 13 skipped codes
  (`SummaryParser`, on the records and frames of `Tables`).
- `main` probes for a result file name that does not exist yet. It then runs
  the chunks in batches of `max(1, nthreads)` workers and appends every
  non-empty chunk frame to the result CSV, with the header only once
  (`Orchestrator`).

**STICS station writer** (`sticsstationconverter.py`): `FormatSticsData` turns
one model-dictionary entry into a name line and a value line. `export` builds
`station.txt` from a fixed sequence of entries per coordinate row and writes
the five files (`SticsStation`).

**APSIM weather writer** (`apsimclimatconverter.py`): `write_apsim_met`
decides where the `.met` file goes and writes its lines in a fixed order
(`ApsimMet`).

`PyText` models the Python string and POSIX path operations these use:
- `str.split()` and `str.split(sep)`;
- clamped slices and `upper`;
- `os.path.join` and `PurePath.stem`;
- `endswith` and `str(int)`.

`Seqs` holds list concatenation and the filter of present values; `Wrappers`
holds `Option` and `Result`.

The collaborators are parameters of the model and are not modelled further:
- the converters the worker calls, the engine script and the summary files
  (`ChunkProcessor.Collaborators`);
- the number parsers and number renderers (`parseFloat`, `parseInt`,
  `render`);
- the uuid draws and the set of existing paths.

A Python exception is an error value (`Result.Failure`, `None`, or an error
field). What a worker asks of its collaborators is recorded as a sequence of
events. The parallel workers are modelled as running one after the other,
with their results in submission order.

### Where the code and its documentation disagree (the model follows the code)

- The regular expression in `get_coord` needs an `_` after each number. A unit
  name such as `-12.5_45.3_2020` has only two matches, so `get_coord` raises.
- `get_coord` uses match 0 as the latitude and match 1 as the longitude.
- `transform` converts every data line with `float`, although only the first
  line's values are kept. A bad token on any later line makes it raise.
- The module docstring says caches are cleared every 50 rows; the constant is
  50000.
- In `FormatSticsData`, `float(data)` runs before the `data is None` test,
  so that branch can never run. A NULL delivered as `None` (a column of text
  or mixed values) makes `float` raise. A NULL delivered as NaN (a column of
  numbers) is rendered as `nan`.
- `FormatSticsData` always replaces the `str(data)` text it computes first
  with the float rendering.
- A `None` `latitudeDD` makes `"{:.7f}".format` raise; a NaN one is written as `nan`.
- `chunk_data` is called outside the `try` of `main`. A zero
  `parts * nthreads` therefore ends `main` with an uncaught `ZeroDivisionError`.
- In `write_apsim_met`, a missing `filename` entry leaves the path `None`,
  which raises a `TypeError`. The model calls this `NoPath`.
- `process_chunk` builds the soil key as `row["idsoil"] + "." + row["idMangt"]`
  without `str()`. A value that is not text raises `TypeError` there, after the
  cultivar and weather steps have run. The `except` then drops the row.

## Model

| member | source | states |
|---|---|---|
| ChunkPlanner.ChunkData | src/modfilegen/Converter/DssatConverter/dssatconverter.py:271-274 | fails exactly when `parts * chunk_size` is 0 (`divmod` by zero); a negative product gives no sublists; a positive one gives exactly that many sublists |
| ChunkPlanner.BoundEnd | src/modfilegen/Converter/DssatConverter/dssatconverter.py:272-273 | the end bound of the last sublist is `len(data)`, so the slices cover the whole list |
| ChunkPlanner.PieceSize | src/modfilegen/Converter/DssatConverter/dssatconverter.py:272-273 | sublist `i` holds `len // n + 1` units when `i < len % n` and `len // n` otherwise |
| ChunkPlanner.ChunkSizes | src/modfilegen/Converter/DssatConverter/dssatconverter.py:271-274 | the same sizes, stated on the result of `chunk_data` |
| ChunkPlanner.ChunksBalanced | src/modfilegen/Converter/DssatConverter/dssatconverter.py:271-274 | any two sublists differ in size by at most one |
| ChunkPlanner.ShortDataLeavesEmptyChunks | src/modfilegen/Converter/DssatConverter/dssatconverter.py:271-274 | with fewer units than sublists, every sublist from index `len(data)` on is empty |
| ChunkPlanner.PieceSlice | src/modfilegen/Converter/DssatConverter/dssatconverter.py:272-273 | sublist `i` is the slice between bounds `i` and `i + 1`, which are ordered and lie within the data |
| ChunkPlanner.CutsOrdered | src/modfilegen/Converter/DssatConverter/dssatconverter.py:272-273 | the bounds start at 0, end at `len(data)` and never decrease |
| ChunkPlanner.SlicesFlatten | src/modfilegen/Converter/DssatConverter/dssatconverter.py:273 | slices between consecutive ordered bounds, concatenated, give the data up to the last bound used |
| ChunkPlanner.ChunksConcatenate | src/modfilegen/Converter/DssatConverter/dssatconverter.py:271-274 | the sublists concatenated in order give back the unit list: no unit is lost, repeated or moved |
| ChunkPlanner.SevenUnitsOverTwoWorkers | src/modfilegen/Converter/DssatConverter/dssatconverter.py:298 | seven units, one part, two threads: the first four units, then the last three |
| SummaryParser.MatchLength | src/modfilegen/Converter/DssatConverter/dssatconverter.py:35 | a match of `[-]?\d+[.]?\d+_` is at least three characters long and ends at the underscore |
| SummaryParser.MatchIsNumberText | src/modfilegen/Converter/DssatConverter/dssatconverter.py:35 | the captured group is an optional minus, digits, an optional dot and digits |
| SummaryParser.FindAllNumbers | src/modfilegen/Converter/DssatConverter/dssatconverter.py:35 | every text `re.findall` returns is such a number text |
| SummaryParser.MatchNumberText | src/modfilegen/Converter/DssatConverter/dssatconverter.py:35 | a number text followed by `_` is matched as a whole, underscore included |
| SummaryParser.FindAllMatch | src/modfilegen/Converter/DssatConverter/dssatconverter.py:35 | at a match, `findall` records the captured text and resumes behind the underscore |
| SummaryParser.FindAllNumberFirst | src/modfilegen/Converter/DssatConverter/dssatconverter.py:35 | a number text and `_` at the start give the first match, the rest is scanned after the `_` |
| SummaryParser.FindAllNeedsUnderscore | src/modfilegen/Converter/DssatConverter/dssatconverter.py:35 | a text without `_` has no match |
| SummaryParser.MatchHasTwoDigits | src/modfilegen/Converter/DssatConverter/dssatconverter.py:35 | every match holds at least two digits, so a one-digit number is never captured |
| SummaryParser.TruncationTowardZero | src/modfilegen/Converter/DssatConverter/dssatconverter.py:38 | `int(float(t))` is the decimal value truncated toward zero, for either sign |
| SummaryParser.GetCoord | src/modfilegen/Converter/DssatConverter/dssatconverter.py:34-39 | raises (`CoordinatesNotFound`) exactly when the name has fewer than three matches |
| SummaryParser.GetCoordOfName | src/modfilegen/Converter/DssatConverter/dssatconverter.py:34-39 | for `x_y_z_rest`, the latitude is `x`, the longitude `y` and the year `int(float(z))` |
| SummaryParser.FindAllOfName | src/modfilegen/Converter/DssatConverter/dssatconverter.py:35 | for `x_y_z_rest` the matches are `x`, `y`, `z`, then those of `rest` |
| SummaryParser.ThreeTokenNameWithoutTrailingUnderscoreFails | src/modfilegen/Converter/DssatConverter/dssatconverter.py:35-38 | the name `-12.5_45.3_2020` makes `get_coord` raise |
| SummaryParser.Rename | src/modfilegen/Converter/DssatConverter/dssatconverter.py:55 | the thirteen DSSAT codes get a new label that is not itself a code; every other label passes through; a label is one the parser adds exactly when its source label is |
| SummaryParser.ParseNumbers | src/modfilegen/Converter/DssatConverter/dssatconverter.py:52 | `map(float, tokens)` succeeds exactly when every token parses, and then gives their values in order |
| SummaryParser.ParseDataLines | src/modfilegen/Converter/DssatConverter/dssatconverter.py:52-53 | the comprehension succeeds exactly when every data line parses, one value list per line |
| SummaryParser.DictFrom | src/modfilegen/Converter/DssatConverter/dssatconverter.py:54 | the dictionary's labels are exactly the variable names |
| SummaryParser.DictFromDistinct | src/modfilegen/Converter/DssatConverter/dssatconverter.py:54 | with distinct names, column `i` is name `i` with value `i` |
| SummaryParser.ResetIndex | src/modfilegen/Converter/DssatConverter/dssatconverter.py:55 | `reset_index` succeeds unless both `index` and `level_0` are taken |
| SummaryParser.RenameOnto | src/modfilegen/Converter/DssatConverter/dssatconverter.py:55 | renaming yields a label the parser adds only from that same label |
| SummaryParser.RenamedNames | src/modfilegen/Converter/DssatConverter/dssatconverter.py:55 | a label the parser adds is present after the rename exactly when it was present before |
| SummaryParser.IndexedAndRenamed | src/modfilegen/Converter/DssatConverter/dssatconverter.py:55 | on codes that clash with no added label, `index` comes first and the variables follow, renamed, in header order |
| SummaryParser.InsertedNames | src/modfilegen/Converter/DssatConverter/dssatconverter.py:56-58 | after an insert the labels are the old ones and the new one |
| SummaryParser.InsertThreeAbsent | src/modfilegen/Converter/DssatConverter/dssatconverter.py:56-58 | three fresh labels inserted at positions 0, 1 and 2 end up in front, in that order |
| SummaryParser.LabelSucceeds | src/modfilegen/Converter/DssatConverter/dssatconverter.py:56-58 | the three inserts succeed exactly when none of `Model`, `Idsim`, `Texte` is taken |
| SummaryParser.LabelShape | src/modfilegen/Converter/DssatConverter/dssatconverter.py:56-58 | then the record is `Model`=`Dssat`, `Idsim`=unit name, `Texte`=`""`, then the renamed columns |
| SummaryParser.SetThreeAbsent | src/modfilegen/Converter/DssatConverter/dssatconverter.py:60-62 | three assignments of fresh labels append them at the end, in order |
| SummaryParser.AddCoordinatesShape | src/modfilegen/Converter/DssatConverter/dssatconverter.py:60-62 | with `lon`, `lat`, `time` free, they are appended last with the coordinates and the integer year |
| SummaryParser.KeepsFront | src/modfilegen/Converter/DssatConverter/dssatconverter.py:60-62 | the coordinate assignments leave the first three columns as they were |
| SummaryParser.KeepsLabel | src/modfilegen/Converter/DssatConverter/dssatconverter.py:60-62 | they leave any `Model`, `Idsim` or `Texte` column where it was |
| SummaryParser.BuildFrameSucceeds | src/modfilegen/Converter/DssatConverter/dssatconverter.py:54-62 | building the frame succeeds exactly when pandas accepts the labels |
| SummaryParser.BuildFrameShape | src/modfilegen/Converter/DssatConverter/dssatconverter.py:54-62 | on distinct, non-clashing codes the frame is the summary record as its one row, or has no row when there is no variable name (`pd.DataFrame({})`) |
| SummaryParser.BuildFrameLabels | src/modfilegen/Converter/DssatConverter/dssatconverter.py:54-62 | a built frame has one row when a variable is named and none otherwise; its row starts with `Model`=`Dssat`, `Idsim`, `Texte`=`""` |
| SummaryParser.CoordinatesLast | src/modfilegen/Converter/DssatConverter/dssatconverter.py:60-62 | adding the coordinates to the labelled record gives the summary record, with `lon`, `lat`, `time` last |
| SummaryParser.TransformSucceeds | src/modfilegen/Converter/DssatConverter/dssatconverter.py:42-64 | `transform` succeeds exactly when the name has three matches, there is a variable line and a data line, every data line parses, the first has a value per name, and pandas accepts the labels |
| SummaryParser.TransformLabels | src/modfilegen/Converter/DssatConverter/dssatconverter.py:56-58 | a produced frame has one row when the header names a variable and none otherwise; its row starts with `Model`=`Dssat`, `Idsim`=the unit name, `Texte`=`""` |
| SummaryParser.FirstDataLineOnly | src/modfilegen/Converter/DssatConverter/dssatconverter.py:52-53 | two files that agree up to the first data line and parse fully give the same frame |
| SummaryParser.EveryDataLineMustParse | src/modfilegen/Converter/DssatConverter/dssatconverter.py:52-53 | one unparsable data line anywhere makes `transform` raise |
| SummaryParser.TransformFrame | src/modfilegen/Converter/DssatConverter/dssatconverter.py:42-64 | on distinct codes that clash with no added label, the frame's one row is `Model`, `Idsim`, `Texte`, `index`, the renamed variables with the first line's values, `lon`, `lat`, `time`; with no variable name the frame has no row |
| Tables.SetColumnExisting | src/modfilegen/Converter/DssatConverter/dssatconverter.py:60-62 | assigning an existing column keeps the labels and the length |
| Tables.SetColumnAbsent | src/modfilegen/Converter/DssatConverter/dssatconverter.py:60-62 | assigning a new column appends it at the end |
| Tables.SetColumnNames | src/modfilegen/Converter/DssatConverter/dssatconverter.py:60-62 | both cases; either way the labels afterwards are the old ones and the assigned one |
| Tables.SetColumnKeepsOthers | src/modfilegen/Converter/DssatConverter/dssatconverter.py:60-62 | every other column's cell stays where it was |
| ChunkProcessor.Run | src/modfilegen/Converter/DssatConverter/dssatconverter.py:87-181 | the worker has one outcome per row processed |
| ChunkProcessor.ProcessChunk | src/modfilegen/Converter/DssatConverter/dssatconverter.py:74-214 | the loop with its two mutable caches returns the rows of the frames the rows appended, in row order, and asks its collaborators what the row-by-row specification says |
| ChunkProcessor.Concatenate | src/modfilegen/Converter/DssatConverter/dssatconverter.py:198-214 | concatenating in batches of 1000 loses and reorders nothing |
| ChunkProcessor.RowWeatherKeys | src/modfilegen/Converter/DssatConverter/dssatconverter.py:107-113 | a row adds exactly its climate key to the weather cache, when its cultivar step and the weather converter succeed |
| ChunkProcessor.WindowStart | src/modfilegen/Converter/DssatConverter/dssatconverter.py:89-92 | each row belongs to a cache window that started fewer than 50000 rows before it |
| ChunkProcessor.CachedWeatherKeys | src/modfilegen/Converter/DssatConverter/dssatconverter.py:87-113 | the weather cache a row sees holds exactly the climate keys of earlier rows of its window whose weather was converted |
| ChunkProcessor.WeatherStageExport | src/modfilegen/Converter/DssatConverter/dssatconverter.py:109-113 | the weather converter runs exactly when the climate key is not cached |
| ChunkProcessor.WeatherExportOnMiss | src/modfilegen/Converter/DssatConverter/dssatconverter.py:102-113 | for a whole row: it runs exactly when the cultivar step succeeds and the key is not cached |
| ChunkProcessor.WeatherConvertedOncePerKey | src/modfilegen/Converter/DssatConverter/dssatconverter.py:87-113 | within a cache window the weather is converted at most once per climate key: exactly when no earlier row of the window converted that key |
| ChunkProcessor.WeatherHitFiles | src/modfilegen/Converter/DssatConverter/dssatconverter.py:115-123 | a hit writes `MNGT` + `yy` + `01.WTH` and the same name for the next year, from the last two path components |
| ChunkProcessor.WeatherHitWritesOwnNames | src/modfilegen/Converter/DssatConverter/dssatconverter.py:114-123 | a hit writes the cached contents under the current row's management code and years; a year that does not parse or a missing second file writes only the first file and drops the row |
| ChunkProcessor.SoilStageFacts | src/modfilegen/Converter/DssatConverter/dssatconverter.py:129-136 | the soil converter runs exactly on a miss of a key that can be built; a hit writes `XX.SOL`; a converted soil is cached under its key; a non-text `idsoil` or `idMangt` ends the step with nothing written or cached |
| ChunkProcessor.RowSoilStage | src/modfilegen/Converter/DssatConverter/dssatconverter.py:126-136 | for a whole row whose weather step succeeded: the soil converter runs exactly when the soil key can be built and is not cached, a hit writes `XX.SOL`, a converted soil is cached, and a key that cannot be built (non-text `idsoil`/`idMangt`) drops the row before any soil or experiment-file event |
| ChunkProcessor.TailFacts | src/modfilegen/Converter/DssatConverter/dssatconverter.py:138-176 | the summary is removed exactly when `dt == 1` and a frame was made; only that file is removed; a failed engine run or a missing summary makes no frame and removes nothing; any frame made is `transform` of the unit's summary |
| ChunkProcessor.MissingSummarySkipsRow | src/modfilegen/Converter/DssatConverter/dssatconverter.py:169-173 | a unit whose summary file does not exist appends no frame and removes nothing |
| ChunkProcessor.UnconvertibleSummarySkipsRow | src/modfilegen/Converter/DssatConverter/dssatconverter.py:174-182 | a summary `transform` cannot convert is caught: no frame, nothing removed |
| ChunkProcessor.FrameOnlyWhenEveryStepSucceeds | src/modfilegen/Converter/DssatConverter/dssatconverter.py:98-182 | a row appends a frame only if its cultivar, weather, soil, experiment-file, engine and summary steps all succeeded, and the frame is then `transform` of its summary |
| ChunkProcessor.EngineFailureDropsRow | src/modfilegen/Converter/DssatConverter/dssatconverter.py:145-181 | a timed-out, failed or unlaunchable engine run appends no frame and leaves the summary in place |
| ChunkProcessor.SummaryRemovedIff | src/modfilegen/Converter/DssatConverter/dssatconverter.py:169-176 | a row removes its summary exactly when `dt == 1` and it appended a frame |
| ChunkProcessor.UnitSucceedsGivesFrame | src/modfilegen/Converter/DssatConverter/dssatconverter.py:98-177 | when every collaborator succeeds for a unit, its row appends the frame `transform` makes of its summary, whatever the caches hold |
| ChunkProcessor.WeatherStaysComplete | src/modfilegen/Converter/DssatConverter/dssatconverter.py:107-123 | if every unit succeeds, every cached weather entry holds the two files a hit writes |
| ChunkProcessor.RowAtSucceeds | src/modfilegen/Converter/DssatConverter/dssatconverter.py:87-177 | if every unit succeeds, row `i` appends its unit's frame |
| ChunkProcessor.OutcomeIsRow | src/modfilegen/Converter/DssatConverter/dssatconverter.py:87-181 | the worker's `j`-th outcome is row `j`'s, at every later point |
| ChunkProcessor.EveryUnitYieldsItsFrame | src/modfilegen/Converter/DssatConverter/dssatconverter.py:87-177 | if every unit succeeds, each outcome is that unit's frame |
| ChunkProcessor.ChunkOfSucceedingUnits | src/modfilegen/Converter/DssatConverter/dssatconverter.py:74-214 | then there is one frame per unit, in order, with one row when the unit's summary names a variable and none otherwise, each row labelled with its unit's `idsim` |
| ChunkProcessor.ChunkRowsOfSucceedingUnits | src/modfilegen/Converter/DssatConverter/dssatconverter.py:74-214 | when moreover every summary names a variable, the chunk's frame has exactly one row per unit, in unit order |
| ChunkProcessor.SummaryUnitName | src/modfilegen/Converter/DssatConverter/dssatconverter.py:169 | the stem of `Summary_<idsim>.OUT` minus `Summary_` gives back `idsim` |
| ChunkProcessor.RowCachesIgnoreTail | src/modfilegen/Converter/DssatConverter/dssatconverter.py:138-181 | what a row leaves in the caches does not depend on the experiment file, the engine or the summary |
| ChunkProcessor.CachesIgnoreTail | src/modfilegen/Converter/DssatConverter/dssatconverter.py:87-181 | so a failing experiment file, engine run or summary of any row leaves every later row's caches as they would have been |
| ChunkProcessor.RowIgnoresOtherRuns | src/modfilegen/Converter/DssatConverter/dssatconverter.py:147-168 | a row depends on the engine only through its own run |
| ChunkProcessor.OutcomeIgnoresOtherRuns | src/modfilegen/Converter/DssatConverter/dssatconverter.py:87-181 | the engine failing on other rows changes nothing about row `j`'s result |
| Orchestrator.ProbeResultPath | src/modfilegen/Converter/DssatConverter/dssatconverter.py:286-292 | the chosen path does not exist, is the `tries`-th draw, and every earlier draw existed |
| Orchestrator.FramesAt | src/modfilegen/Converter/DssatConverter/dssatconverter.py:321-323 | the results of a batch are the chunk frames in submission order |
| Orchestrator.RowsOfDataLines | src/modfilegen/Converter/DssatConverter/dssatconverter.py:329 | `to_csv` without header writes one data line per record, in order |
| Orchestrator.EmitRows | src/modfilegen/Converter/DssatConverter/dssatconverter.py:326-331 | the appended lines hold every record of every frame, in order |
| Orchestrator.EmitEmpty | src/modfilegen/Converter/DssatConverter/dssatconverter.py:326-331 | nothing is appended exactly when every frame is empty |
| Orchestrator.EmitDataOnly | src/modfilegen/Converter/DssatConverter/dssatconverter.py:329-330 | once `write_header` is false, only data lines are written |
| Orchestrator.HeaderOnce | src/modfilegen/Converter/DssatConverter/dssatconverter.py:310-330 | the header is written once, as the first line, when some frame has a row; every other line is a record |
| Orchestrator.EmitAppend | src/modfilegen/Converter/DssatConverter/dssatconverter.py:326-331 | appending more frames: the header flag stays set for them only if all earlier frames were empty |
| Orchestrator.FailingBatchStops | src/modfilegen/Converter/DssatConverter/dssatconverter.py:317-323 | every worker before the first failing batch succeeded, and that batch has a failing worker |
| Orchestrator.RunBatch | src/modfilegen/Converter/DssatConverter/dssatconverter.py:318-323 | a batch gives its frames in order, or nothing exactly when one of its workers raises |
| Orchestrator.AppendFrames | src/modfilegen/Converter/DssatConverter/dssatconverter.py:326-336 | the inner loop appends what the specification emits; `write_header` stays true and the count stays zero exactly while every frame so far was empty |
| Orchestrator.RunBatches | src/modfilegen/Converter/DssatConverter/dssatconverter.py:305-348 | the batch loop and its end state are the batch specification |
| Orchestrator.RunJob | src/modfilegen/Converter/DssatConverter/dssatconverter.py:276-348 | `main`: a fresh result path, then chunking and the batch loop as specified |
| Orchestrator.SavedRunWritesEveryRecord | src/modfilegen/Converter/DssatConverter/dssatconverter.py:340-343 | a run that saves its result wrote the header once and first, then every record of every chunk, in chunk order |
| Orchestrator.NoDataIff | src/modfilegen/Converter/DssatConverter/dssatconverter.py:340-342 | "No data" exactly when no worker raised and every frame is empty; then nothing was written |
| Orchestrator.FailedRunKeepsEarlierBatches | src/modfilegen/Converter/DssatConverter/dssatconverter.py:345-348 | a raising worker ends the run with status 1 after only the earlier, fully successful batches were appended |
| SticsStation.Lookup | src/modfilegen/Converter/SticsConverter/sticsstationconverter.py:134-135 | the value is that of the first dictionary row whose `Champ` is the key; there is none exactly when no row has that key |
| SticsStation.PrecisionDispatch | src/modfilegen/Converter/SticsConverter/sticsstationconverter.py:144-149 | fixed point exactly for no precision, 0, or 2 to 6 (with that many decimals); 1, 7 and more, and negative precisions use `{:0.3e}` |
| SticsStation.FieldKeyIterated | src/modfilegen/Converter/SticsConverter/sticsstationconverter.py:131-132 | the dictionary key is the name itself for `fieldIt == 0`, else the name followed by more text |
| SticsStation.FormatSticsData | src/modfilegen/Converter/SticsConverter/sticsstationconverter.py:124-156 | two lines, the first the base name (not the iterated key) |
| SticsStation.FormatSticsDataValue | src/modfilegen/Converter/SticsConverter/sticsstationconverter.py:129-149 | a missing key and a value that is not a number are the two errors; otherwise the value line is the found value rendered with the dispatched format |
| SticsStation.StationFieldsShape | src/modfilegen/Converter/SticsConverter/sticsstationconverter.py:26-69 | 30 entries plus `concrr` for v10 and `codeetp` for one or two management rows, with `zr`, `NH3ref`, `concrr`, `latitude`, `codeetp`, `altisimul` and `coefrnet` at their places |
| SticsStation.FieldLines | src/modfilegen/Converter/SticsConverter/sticsstationconverter.py:27-48 | every entry gives two lines, its name first |
| SticsStation.AltitudeAndLatitude | src/modfilegen/Converter/SticsConverter/sticsstationconverter.py:31-48 | `altisimul` never fails, `-99` without altitude, five decimals otherwise; the latitude has seven decimals and fails exactly when it is NULL |
| SticsStation.RowLinesShape | src/modfilegen/Converter/SticsConverter/sticsstationconverter.py:26-69 | a row fails exactly when one of its entries fails; otherwise it gives two lines per entry, names on even lines and values on odd lines |
| SticsStation.StationLinesLength | src/modfilegen/Converter/SticsConverter/sticsstationconverter.py:26-83 | every coordinate row contributes two lines per entry |
| SticsStation.StationFailsFrom | src/modfilegen/Converter/SticsConverter/sticsstationconverter.py:26-69 | once a row fails, the whole content fails with that error |
| SticsStation.Export | src/modfilegen/Converter/SticsConverter/sticsstationconverter.py:10-122 | the row loop that grows `fileContent`, and the five writes, are the export specification |
| SticsStation.ExportWrites | src/modfilegen/Converter/SticsConverter/sticsstationconverter.py:84-122 | a failure writes nothing; a success returns the station text it wrote to `station.txt` and the snow line, and writes `prof.mod`, `rap.mod`, `var.mod` unchanged; a path with fewer than three components fails; otherwise success exactly when every row succeeds |
| ApsimMet.ResolveBothGiven | src/modfilegen/Converter/ApsimConverter/apsimclimatconverter.py:38-42 | directory and file name given: their join when the name ends in `.met`, else the `.met` error |
| ApsimMet.ResolveWithoutDirectory | src/modfilegen/Converter/ApsimConverter/apsimclimatconverter.py:26-37 | without a directory the only success is the placeholder record with no name passed, and it writes to `noname.met`; any other name needs a directory; no name at all gives no path |
| ApsimMet.ResolveDirectoryOnly | src/modfilegen/Converter/ApsimConverter/apsimclimatconverter.py:31-42 | a directory alone uses the record's name, refuses the placeholder, and gives no path when the record has none |
| ApsimMet.ResolvedPathIsMet | src/modfilegen/Converter/ApsimConverter/apsimclimatconverter.py:26-42 | every path the writer opens ends in `.met` |
| ApsimMet.DataLines | src/modfilegen/Converter/ApsimConverter/apsimclimatconverter.py:80 | one line per data row, its cells joined by single spaces |
| ApsimMet.WriteBody | src/modfilegen/Converter/ApsimConverter/apsimclimatconverter.py:47-80 | the writes, one at a time, are the body specification, including the error that stops it |
| ApsimMet.WriteFromLatitude | src/modfilegen/Converter/ApsimConverter/apsimclimatconverter.py:60-80 | the same from the latitude on |
| ApsimMet.WriteConstants | src/modfilegen/Converter/ApsimConverter/apsimclimatconverter.py:71-73 | the loop writes each constant, in order |
| ApsimMet.WriteColumns | src/modfilegen/Converter/ApsimConverter/apsimclimatconverter.py:76-80 | column names, units and data, or the missing entry that stops them |
| ApsimMet.WriteApsimMet | src/modfilegen/Converter/ApsimConverter/apsimclimatconverter.py:26-82 | a path error opens no file; otherwise the file at the path holds the body's writes, and the result is the path or the body's error |
| ApsimMet.HeaderAlwaysWritten | src/modfilegen/Converter/ApsimConverter/apsimclimatconverter.py:47-51 | the header is always written, right after the comments line if there is one |
| ApsimMet.LatitudeRequired | src/modfilegen/Converter/ApsimConverter/apsimclimatconverter.py:57-60 | a missing or empty latitude stops the writer after comments, header and site, a strict prefix of what it writes with a latitude |
| ApsimMet.CompleteRecordOrder | src/modfilegen/Converter/ApsimConverter/apsimclimatconverter.py:57-68 | a complete record writes no error, the preamble, then latitude, the longitude if given, tav and amp |
| ApsimMet.CompleteRecordConstants | src/modfilegen/Converter/ApsimConverter/apsimclimatconverter.py:66-73 | the constants follow the amplitude, one per line, in their order |
| ApsimMet.CompleteRecordTail | src/modfilegen/Converter/ApsimConverter/apsimclimatconverter.py:75-80 | then come the space-joined column names, the units and one line per data row, and nothing after |
| PyText.Tokens | src/modfilegen/Converter/DssatConverter/dssatconverter.py:50 | `str.split()` gives non-empty tokens without whitespace |
| PyText.TokensKeepContent | src/modfilegen/Converter/DssatConverter/dssatconverter.py:50 | the tokens glued back are the text without its whitespace |
| PyText.Drop | src/modfilegen/Converter/DssatConverter/dssatconverter.py:46 | `s[n:]` has the clamped length and the elements from `n` on |
| PyText.Slice | src/modfilegen/Converter/DssatConverter/dssatconverter.py:116 | `s[i:j]` clamps both bounds to the length |
| PyText.Upper | src/modfilegen/Converter/DssatConverter/dssatconverter.py:122 | `upper()` on ASCII text: keeps the length, maps `a`-`z` to `A`-`Z` and leaves no lower-case ASCII letter |
| PyText.JoinEnds | src/modfilegen/Converter/DssatConverter/dssatconverter.py:99 | `os.path.join(a, b)` ends with `b` and starts with `a` unless `b` is absolute |
| PyText.Split | src/modfilegen/Converter/SticsConverter/sticsstationconverter.py:13 | `split(sep)` gives at least one piece, none containing `sep` |
| PyText.SplitJoin | src/modfilegen/Converter/SticsConverter/sticsstationconverter.py:13 | joining the pieces with `sep` gives back the text |
| PyText.JoinLastComponent | src/modfilegen/Converter/DssatConverter/dssatconverter.py:115-116 | the last component of a joined path is the joined file name |
| PyText.JoinTwoLastComponents | src/modfilegen/Converter/DssatConverter/dssatconverter.py:115-117 | `ST[-1]` and `ST[-2]` are the last two joined components |
| PyText.Stem | src/modfilegen/Converter/DssatConverter/dssatconverter.py:46 | a stem is a prefix of the name |
| PyText.StemDropsSuffix | src/modfilegen/Converter/DssatConverter/dssatconverter.py:46 | the stem of `base.ext` is `base` |
| PyText.JoinKeepsSuffix | src/modfilegen/Converter/ApsimConverter/apsimclimatconverter.py:39-42 | a suffix of the file name is a suffix of the joined path |
| PyText.IntToString | src/modfilegen/Converter/DssatConverter/dssatconverter.py:123 | `str(n)` is non-empty and starts with a minus exactly for negative `n` |
| PyText.NatToStringRoundTrip | src/modfilegen/Converter/DssatConverter/dssatconverter.py:123 | reading back the decimal text of a natural number gives the number |

## Left out

- Database access (`export`'s pragmas and indexes, `fetch_data_from_sqlite`, the dictionary and coordinate queries of the STICS writer): the query results are inputs of the model.
- The cultivar, weather, soil and experiment-file converters, the `dssatrun.sh` engine script and its 300-second timeout, `os.path.exists`, `open` and `readlines`: parameters (`Collaborators`), with `None`/`false` standing for an exception.
- The joblib/loky parallelism: workers are modelled one after the other, with results in submission order, which is what `Parallel()` returns.
- `uuid.uuid4()`: a parameter `draw`; termination of the probe loop is assumed as its precondition (a fresh name exists among the draws).
- Floating-point rounding of `float()` and the `"{:.Nf}"`/`"{:0.3e}"` renderings: `SummaryParser.GetCoord` keeps the exact decimal value, and the renderings and `float` on text are parameters (`render`, `parseFloat`).
- `str()` of the database values in paths and in the climate key: a `SimUnit` holds these texts already. The soil key takes no `str()`, so `SimUnit.soilKeyText` records whether `idsoil` and `idMangt` are text.
- PyText.Upper: ASCII only. Python's `upper()` also maps other letters and can change the length (`ß` becomes `SS`); management codes are assumed to be ASCII.
- SummaryParser.FindAll: `\d` is read as an ASCII digit, where Python's `re` also accepts other Unicode decimal digits; unit names are assumed to be ASCII.
- SticsStation.ToFloat: a NULL `dv` is either pandas' `None` (raises) or NaN (rendered `nan`); which of the two a column delivers is an input (`Null` or `NullAsNaN`), not derived from the column's other values.
- `print`, `traceback`, `gc.collect()`, `del` and closing the connections: no effect on the modelled results.
- Failures of `write_file`: caught and printed in the source, so writes are recorded as events and never fail.
- `pd.concat` column alignment and `to_csv` quoting and cell rendering: a frame is a sequence of records, a CSV line is a header or a record, and an APSIM data row is given as its rendered cells.
- The other converters of the repository (`converter.py`, the remaining STICS and APSIM writers): not part of this model.
- The commented-out STICS v10 snow entries: dead text in the source.
- SticsStation.StationFieldsShape: pins the conditional entries and seven landmarks, not every one of the other entries one by one (`StationFields` lists them all in source order).
- SticsStation.FormatSticsData: `fieldIt` is modelled, but `export` never passes it, and the text of `str(fieldIt)` is `IntToString`.
- ApsimMet.WriteApsimMet: failures of `open` (a `wrt_dir` that does not exist, say) are not modelled; the file is always opened.
- ApsimMet.WriteApsimMet: a value of a wrong type (a number for `latitude`, say), which raises `TypeError` in the source, is outside the `Met` type.
