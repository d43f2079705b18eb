/** `main` of the DSSAT converter: it picks a result file name that does not
    exist yet, cuts the simulation units into chunks, runs the chunks in
    consecutive batches of `max(1, nthreads)` workers, and appends every
    non-empty chunk frame to the result file, writing the header only with
    the first one. The workers run one after the other, and their results
    come back in submission order. */
module Orchestrator {
  import opened Wrappers
  import opened Seqs
  import opened PyText
  import opened Tables
  import opened ChunkPlanner
  import opened ChunkProcessor

  /** A line of the result CSV file: the column header or one record. */
  datatype Line = Header(columns: seq<string>) | Data(row: Record)

  /** How `main` ends. */
  datatype JobResult =
    | Uncaught(error: PlanError)  // `chunk_data` raised outside the `try`
    | Exited(status: int)         // `sys.exit(1)` after an exception in a batch
    | NoData                      // no chunk produced a row
    | Saved(path: string)         // the rows were appended to `path`

  /** `os.path.join(directoryPath, f"{uuid}_dssat.csv")`. */
  function ResultPath(dir: string, name: string): string { Join(dir, name + "_dssat.csv") }

  /** The name probe: `draw(0)`, `draw(1)`, ... are the successive
      `uuid.uuid4()` names, and the first one whose path does not exist is
      kept. */
  method ProbeResultPath(dir: string, existing: set<string>, draw: nat -> string) returns (path: string, tries: nat)
    requires exists n: nat :: ResultPath(dir, draw(n)) !in existing
    ensures path == ResultPath(dir, draw(tries)) && path !in existing
    ensures forall i :: 0 <= i < tries ==> ResultPath(dir, draw(i)) in existing
  {
    ghost var n: nat :| ResultPath(dir, draw(n)) !in existing;
    tries := 0;
    path := ResultPath(dir, draw(0));
    while path in existing
      invariant tries <= n && path == ResultPath(dir, draw(tries))
      invariant forall i :: 0 <= i < tries ==> ResultPath(dir, draw(i)) in existing
      decreases n - tries
    {
      tries := tries + 1;
      path := ResultPath(dir, draw(tries));
    }
  }

  /** The frame `process_chunk` returns for a chunk. */
  function ChunkFrame(env: Collaborators, cfg: Config, chunk: seq<SimUnit>): seq<Record>
  {
    Flatten(Somes(Run(env, cfg, chunk, |chunk|).outcomes))
  }

  /** The frames of the chunks, in order. */
  function Frames(env: Collaborators, cfg: Config, chunks: seq<seq<SimUnit>>): seq<seq<Record>>
  {
    if chunks == [] then [] else [ChunkFrame(env, cfg, chunks[0])] + Frames(env, cfg, chunks[1..])
  }

  lemma {:induction false} FramesAppend(env: Collaborators, cfg: Config, a: seq<seq<SimUnit>>, c: seq<seq<SimUnit>>)
    ensures Frames(env, cfg, a + c) == Frames(env, cfg, a) + Frames(env, cfg, c)
  {
    if a == [] {
      assert a + c == c;
    } else {
      assert (a + c)[1..] == a[1..] + c;
      FramesAppend(env, cfg, a[1..], c);
    }
  }

  lemma {:induction false} FramesAt(env: Collaborators, cfg: Config, chunks: seq<seq<SimUnit>>, i: nat)
    requires i < |chunks|
    ensures |Frames(env, cfg, chunks)| == |chunks| && Frames(env, cfg, chunks)[i] == ChunkFrame(env, cfg, chunks[i])
  {
    if i > 0 {
      FramesAt(env, cfg, chunks[1..], i - 1);
    } else if |chunks| > 1 {
      FramesAt(env, cfg, chunks[1..], 0);
    }
  }

  /** The columns `to_csv` writes for a frame. */
  function HeaderOf(frame: seq<Record>): seq<string>
    requires frame != []
  {
    Names(frame[0])
  }

  function DataLines(frame: seq<Record>): seq<Line>
  {
    if frame == [] then [] else [Data(frame[0])] + DataLines(frame[1..])
  }

  /** What the appends of `main` put in the result file for `frames`, in
      order: an empty frame is skipped, and the header goes with the first
      non-empty frame when `header` (`write_header`) is still set. */
  function Emit(frames: seq<seq<Record>>, header: bool): seq<Line>
  {
    if frames == [] then []
    else if frames[0] == [] then Emit(frames[1..], header)
    else (if header then [Header(HeaderOf(frames[0]))] else []) + DataLines(frames[0]) + Emit(frames[1..], false)
  }

  /** The records of the data lines, in order. */
  function Rows(lines: seq<Line>): seq<Record>
  {
    if lines == [] then [] else (if lines[0].Data? then [lines[0].row] else []) + Rows(lines[1..])
  }

  predicate AllEmpty(frames: seq<seq<Record>>)
  {
    forall i :: 0 <= i < |frames| ==> frames[i] == []
  }

  lemma {:induction false} RowsAppend(a: seq<Line>, b: seq<Line>)
    ensures Rows(a + b) == Rows(a) + Rows(b)
  {
    if a == [] {
      assert a + b == b;
    } else {
      assert (a + b)[1..] == a[1..] + b;
      RowsAppend(a[1..], b);
    }
  }

  lemma {:induction false} RowsOfDataLines(frame: seq<Record>)
    ensures Rows(DataLines(frame)) == frame
    ensures forall i :: 0 <= i < |DataLines(frame)| ==> DataLines(frame)[i].Data?
  {
    if frame != [] {
      RowsOfDataLines(frame[1..]);
      RowsAppend([Data(frame[0])], DataLines(frame[1..]));
    }
  }

  /** The result file holds every record of the frames it was given, in
      order, and nothing else as data. */
  lemma {:induction false} EmitRows(frames: seq<seq<Record>>, header: bool)
    ensures Rows(Emit(frames, header)) == Flatten(frames)
  {
    if frames != [] {
      EmitRows(frames[1..], frames[0] == [] && header);
      if frames[0] != [] {
        var h: seq<Line> := if header then [Header(HeaderOf(frames[0]))] else [];
        RowsAppend(h + DataLines(frames[0]), Emit(frames[1..], false));
        RowsAppend(h, DataLines(frames[0]));
        RowsOfDataLines(frames[0]);
        assert Rows(h) == [] by {
          if header {
            assert Rows(h) == [] + Rows(h[1..]);
          }
        }
      }
    }
  }

  /** Nothing is written exactly when every frame is empty. */
  lemma {:induction false} EmitEmpty(frames: seq<seq<Record>>, header: bool)
    ensures Emit(frames, header) == [] <==> AllEmpty(frames)
  {
    if frames != [] {
      EmitEmpty(frames[1..], frames[0] == [] && header);
      AllEmptyCons(frames);
      if frames[0] != [] {
        assert DataLines(frames[0]) != [];
      }
    }
  }

  /** Without the header flag, only data lines are written. */
  lemma {:induction false} EmitDataOnly(frames: seq<seq<Record>>)
    ensures forall i :: 0 <= i < |Emit(frames, false)| ==> Emit(frames, false)[i].Data?
  {
    if frames != [] {
      EmitDataOnly(frames[1..]);
      if frames[0] != [] {
        RowsOfDataLines(frames[0]);
        assert Emit(frames, false) == DataLines(frames[0]) + Emit(frames[1..], false);
      }
    }
  }

  /** The header is written once, as the first line, when some frame has a
      row; every other line is a record. */
  lemma {:induction false} HeaderOnce(frames: seq<seq<Record>>)
    ensures var ls := Emit(frames, true);
      (!AllEmpty(frames) ==> ls != [] && ls[0].Header?) &&
      (forall i :: 0 < i < |ls| ==> ls[i].Data?)
  {
    EmitEmpty(frames, true);
    if frames != [] {
      HeaderOnce(frames[1..]);
      if frames[0] != [] {
        RowsOfDataLines(frames[0]);
        EmitDataOnly(frames[1..]);
        var ls := Emit(frames, true);
        assert ls == [Header(HeaderOf(frames[0]))] + (DataLines(frames[0]) + Emit(frames[1..], false));
      }
    }
  }

  /** Some worker among the chunks `b` to `end` raises. */
  predicate BatchFails(fails: nat -> bool, b: nat, end: nat)
  {
    exists j :: b <= j < end && fails(j)
  }

  /** Appending more frames: the header flag is still set for them only
      while everything before was empty. */
  lemma {:induction false} EmitAppend(a: seq<seq<Record>>, c: seq<seq<Record>>, header: bool)
    ensures Emit(a + c, header) == Emit(a, header) + Emit(c, header && AllEmpty(a))
  {
    if a == [] {
      assert a + c == c;
    } else {
      assert (a + c)[1..] == a[1..] + c;
      AllEmptyCons(a);
      EmitAppend(a[1..], c, a[0] == [] && header);
    }
  }

  /** A single frame: nothing when it is empty, else the header when the
      flag is set, then its rows. */
  lemma EmitOne(f: seq<Record>, header: bool)
    ensures Emit([f], header) == if f == [] then [] else (if header then [Header(HeaderOf(f))] else []) + DataLines(f)
  {
    assert [f][1..] == [];
  }

  lemma AllEmptyCons(frames: seq<seq<Record>>)
    requires frames != []
    ensures AllEmpty(frames) <==> frames[0] == [] && AllEmpty(frames[1..])
  {
    if frames[0] == [] && AllEmpty(frames[1..]) {
      forall i | 0 <= i < |frames| ensures frames[i] == [] {
        if i > 0 {
          assert frames[i] == frames[1..][i - 1];
        }
      }
    }
  }

  lemma AllEmptyAppend(a: seq<seq<Record>>, c: seq<seq<Record>>)
    ensures AllEmpty(a + c) <==> AllEmpty(a) && AllEmpty(c)
  {
    if AllEmpty(a + c) {
      forall i | 0 <= i < |a| ensures a[i] == [] {
        assert (a + c)[i] == a[i];
      }
      forall i | 0 <= i < |c| ensures c[i] == [] {
        assert (a + c)[|a| + i] == c[i];
      }
    }
  }

  /** Start of the first batch whose workers include a failing one, or `n`
      when no batch fails; batches start at `b`, `b + size`, ... */
  function FailingBatch(fails: nat -> bool, n: nat, size: nat, b: nat): (s: nat)
    requires size > 0
    ensures s <= n
    decreases n - b
  {
    if b >= n then n
    else if BatchFails(fails, b, Min(b + size, n)) then b
    else FailingBatch(fails, n, size, b + size)
  }

  /** Every worker before the stop succeeded, and the batch at the stop has
      a failing worker. */
  lemma {:induction false} FailingBatchStops(fails: nat -> bool, n: nat, size: nat, b: nat)
    requires size > 0 && b <= n
    ensures var s := FailingBatch(fails, n, size, b);
      b <= s <= n &&
      (forall j :: b <= j < s ==> !fails(j)) &&
      (s < n ==> BatchFails(fails, s, Min(s + size, n)))
    decreases n - b
  {
    if b < n && !BatchFails(fails, b, Min(b + size, n)) {
      if b + size <= n {
        FailingBatchStops(fails, n, size, b + size);
      }
    }
  }

  /** What `main` does, as a function of its inputs and the probed path: the
      frames of the batches before the first failing one are appended, and
      the run ends with exit status 1, "No data", or the saved path. */
  function Job(env: Collaborators, cfg: Config, units: seq<SimUnit>, parts: int, nthreads: int,
               fails: nat -> bool, path: string): (JobResult, seq<Line>)
  {
    match ChunkData(units, parts, nthreads)
    case Failure(e) => (Uncaught(e), [])
    case Success(chunks) => Batches(env, cfg, chunks, Max(1, nthreads), fails, path)
  }

  /** The batch loop of `main` over the chunks, in batches of `size`. */
  function Batches(env: Collaborators, cfg: Config, chunks: seq<seq<SimUnit>>, size: nat,
                   fails: nat -> bool, path: string): (JobResult, seq<Line>)
    requires size > 0
  {
    var stop := FailingBatch(fails, |chunks|, size, 0);
    var lines := Emit(Frames(env, cfg, chunks[..stop]), true);
    if stop < |chunks| then (Exited(1), lines)
    else if lines == [] then (NoData, [])
    else (Saved(path), lines)
  }

  lemma FramesSnoc(env: Collaborators, cfg: Config, chunks: seq<seq<SimUnit>>, b: nat, j: nat)
    requires b <= j < |chunks|
    ensures Frames(env, cfg, chunks[b..j + 1]) == Frames(env, cfg, chunks[b..j]) + [ChunkFrame(env, cfg, chunks[j])]
  {
    assert chunks[b..j + 1] == chunks[b..j] + [chunks[j]];
    FramesAppend(env, cfg, chunks[b..j], [chunks[j]]);
    assert Frames(env, cfg, [chunks[j]]) == [ChunkFrame(env, cfg, chunks[j])] + Frames(env, cfg, []);
  }

  /** One batch: `Parallel()` over the chunks `b` to `end`; when a worker
      raises, the batch gives no results at all. */
  method RunBatch(env: Collaborators, cfg: Config, chunks: seq<seq<SimUnit>>, b: nat, end: nat, fails: nat -> bool)
    returns (results: Option<seq<seq<Record>>>)
    requires b <= end <= |chunks|
    ensures results.None? <==> BatchFails(fails, b, end)
    ensures results.Some? ==> results.value == Frames(env, cfg, chunks[b..end])
  {
    var frames: seq<seq<Record>> := [];
    var j := b;
    while j < end
      invariant b <= j <= end
      invariant forall k :: b <= k < j ==> !fails(k)
      invariant frames == Frames(env, cfg, chunks[b..j])
    {
      if fails(j) {
        return None;
      }
      var frame, _ := ProcessChunk(env, cfg, chunks[j]);
      FramesSnoc(env, cfg, chunks, b, j);
      frames := frames + [frame];
      j := j + 1;
    }
    return Some(frames);
  }

  /** `main`: `existing` is the set of paths that exist, `draw` the uuid
      names, `fails` says which chunk's worker raises. */
  method RunJob(env: Collaborators, cfg: Config, existing: set<string>, draw: nat -> string,
                units: seq<SimUnit>, parts: int, nthreads: int, fails: nat -> bool)
    returns (path: string, tries: nat, result: JobResult, lines: seq<Line>)
    requires exists n: nat :: ResultPath(cfg.directoryPath, draw(n)) !in existing
    ensures path == ResultPath(cfg.directoryPath, draw(tries)) && path !in existing
    ensures forall i :: 0 <= i < tries ==> ResultPath(cfg.directoryPath, draw(i)) in existing
    ensures (result, lines) == Job(env, cfg, units, parts, nthreads, fails, path)
  {
    path, tries := ProbeResultPath(cfg.directoryPath, existing, draw);
    var plan := ChunkData(units, parts, nthreads);
    if plan.Failure? {
      return path, tries, Uncaught(plan.error), [];
    }
    result, lines := RunBatches(env, cfg, plan.value, Max(1, nthreads), fails, path);
  }

  /** The `try` block of `main` once the chunks are known. */
  method RunBatches(env: Collaborators, cfg: Config, chunks: seq<seq<SimUnit>>, batchSize: nat,
                    fails: nat -> bool, path: string) returns (result: JobResult, lines: seq<Line>)
    requires batchSize > 0
    ensures (result, lines) == Batches(env, cfg, chunks, batchSize, fails, path)
  {
    var writeHeader := true;
    var totalChunksWritten := 0;
    lines := [];
    var b := 0;
    while b < |chunks|
      invariant b <= |chunks|
      invariant FailingBatch(fails, |chunks|, batchSize, 0) == FailingBatch(fails, |chunks|, batchSize, b)
      invariant lines == Emit(Frames(env, cfg, chunks[..b]), true)
      invariant writeHeader <==> AllEmpty(Frames(env, cfg, chunks[..b]))
      invariant totalChunksWritten == 0 <==> AllEmpty(Frames(env, cfg, chunks[..b]))
      decreases |chunks| - b
    {
      var end := Min(b + batchSize, |chunks|);
      var results := RunBatch(env, cfg, chunks, b, end, fails);
      if results.None? {
        return Exited(1), lines;
      }
      BatchStep(env, cfg, chunks, b, end);
      lines, writeHeader, totalChunksWritten := AppendFrames(results.value, lines, writeHeader, totalChunksWritten);
      // `batch_idx + batch_size`, which is `end` unless this was the last batch
      b := end;
    }
    assert chunks[..|chunks|] == chunks;
    EmitEmpty(Frames(env, cfg, chunks), true);
    if totalChunksWritten == 0 {
      return NoData, lines;
    }
    result := Saved(path);
  }

  /** The file and the flag after one more batch of frames. */
  lemma BatchStep(env: Collaborators, cfg: Config, chunks: seq<seq<SimUnit>>, b: nat, end: nat)
    requires b <= end <= |chunks|
    ensures var done := Frames(env, cfg, chunks[..b]); var batch := Frames(env, cfg, chunks[b..end]);
      Emit(Frames(env, cfg, chunks[..end]), true) == Emit(done, true) + Emit(batch, AllEmpty(done)) &&
      (AllEmpty(Frames(env, cfg, chunks[..end])) <==> AllEmpty(done) && AllEmpty(batch))
  {
    assert chunks[..end] == chunks[..b] + chunks[b..end];
    FramesAppend(env, cfg, chunks[..b], chunks[b..end]);
    EmitAppend(Frames(env, cfg, chunks[..b]), Frames(env, cfg, chunks[b..end]), true);
    AllEmptyAppend(Frames(env, cfg, chunks[..b]), Frames(env, cfg, chunks[b..end]));
  }

  /** The inner loop of a batch: each non-empty frame is appended, with the
      header while `write_header` is set, and counted. */
  method AppendFrames(results: seq<seq<Record>>, lines0: seq<Line>, writeHeader0: bool, total0: nat)
    returns (lines: seq<Line>, writeHeader: bool, total: nat)
    ensures lines == lines0 + Emit(results, writeHeader0)
    ensures writeHeader <==> writeHeader0 && AllEmpty(results)
    ensures total == 0 <==> total0 == 0 && AllEmpty(results)
  {
    lines, writeHeader, total := lines0, writeHeader0, total0;
    ghost var done: seq<seq<Record>> := [];
    var i := 0;
    while i < |results|
      invariant 0 <= i <= |results| && done == results[..i]
      invariant lines == lines0 + Emit(done, writeHeader0)
      invariant writeHeader <==> writeHeader0 && AllEmpty(done)
      invariant total == 0 <==> total0 == 0 && AllEmpty(done)
    {
      var df := results[i];
      EmitStep(done, df, writeHeader0, writeHeader);
      if df != [] {
        lines := lines + ((if writeHeader then [Header(HeaderOf(df))] else []) + DataLines(df));
        writeHeader := false;
        total := total + 1;
      }
      done := done + [df];
      i := i + 1;
    }
    assert done == results;
  }

  /** One pass of the inner loop, with `header` the current `write_header`. */
  lemma EmitStep(done: seq<seq<Record>>, df: seq<Record>, header0: bool, header: bool)
    requires header <==> header0 && AllEmpty(done)
    ensures Emit(done + [df], header0) ==
      Emit(done, header0) + (if df == [] then [] else (if header then [Header(HeaderOf(df))] else []) + DataLines(df))
    ensures AllEmpty(done + [df]) <==> AllEmpty(done) && df == []
  {
    EmitAppend(done, [df], header0);
    EmitOne(df, header);
    AllEmptySnoc(done, df);
  }

  lemma AllEmptySnoc(frames: seq<seq<Record>>, f: seq<Record>)
    ensures AllEmpty(frames + [f]) <==> AllEmpty(frames) && f == []
  {
    if AllEmpty(frames + [f]) {
      assert (frames + [f])[|frames|] == f;
      forall i | 0 <= i < |frames| ensures frames[i] == [] {
        assert (frames + [f])[i] == frames[i];
      }
    }
  }

  /** A run that ends normally wrote the header once, first, then every
      record of every chunk frame, in chunk order. */
  lemma SavedRunWritesEveryRecord(env: Collaborators, cfg: Config, chunks: seq<seq<SimUnit>>, size: nat,
                                  fails: nat -> bool, path: string)
    requires size > 0
    ensures var (result, lines) := Batches(env, cfg, chunks, size, fails, path);
      result.Saved? ==>
        (result.path == path && lines != [] && lines[0].Header? &&
         (forall i :: 0 < i < |lines| ==> lines[i].Data?) &&
         Rows(lines) == Flatten(Frames(env, cfg, chunks)))
  {
    var stop := FailingBatch(fails, |chunks|, size, 0);
    if stop == |chunks| {
      assert chunks[..stop] == chunks;
      EmitEmpty(Frames(env, cfg, chunks), true);
      HeaderOnce(Frames(env, cfg, chunks));
      EmitRows(Frames(env, cfg, chunks), true);
    }
  }

  /** "No data" exactly when no worker raised and every chunk frame is
      empty; then nothing was written. */
  lemma NoDataIff(env: Collaborators, cfg: Config, chunks: seq<seq<SimUnit>>, size: nat,
                  fails: nat -> bool, path: string)
    requires size > 0
    ensures var (result, lines) := Batches(env, cfg, chunks, size, fails, path);
      (result == NoData <==> (forall j :: 0 <= j < |chunks| ==> !fails(j)) && AllEmpty(Frames(env, cfg, chunks))) &&
      (result == NoData ==> lines == [])
  {
    FailingBatchStops(fails, |chunks|, size, 0);
    var stop := FailingBatch(fails, |chunks|, size, 0);
    if stop == |chunks| {
      assert chunks[..stop] == chunks;
      EmitEmpty(Frames(env, cfg, chunks), true);
    } else {
      var j :| stop <= j < Min(stop + size, |chunks|) && fails(j);
    }
  }

  /** A raising worker ends the run with status 1 once the batches before
      its own were written: every worker before that batch succeeded, and
      only their frames reached the file. */
  lemma FailedRunKeepsEarlierBatches(env: Collaborators, cfg: Config, chunks: seq<seq<SimUnit>>, size: nat,
                                     fails: nat -> bool, path: string, j: nat)
    requires size > 0 && j < |chunks| && fails(j)
    ensures var (result, lines) := Batches(env, cfg, chunks, size, fails, path);
      var stop := FailingBatch(fails, |chunks|, size, 0);
      result == Exited(1) && stop <= j &&
      (forall k :: 0 <= k < stop ==> !fails(k)) &&
      BatchFails(fails, stop, Min(stop + size, |chunks|)) &&
      lines == Emit(Frames(env, cfg, chunks[..stop]), true)
  {
    FailingBatchStops(fails, |chunks|, size, 0);
  }
}
