/** `chunk_data` of the DSSAT converter: the unit list is cut into
    `parts * chunk_size` contiguous sublists whose sizes come from
    `divmod(len(data), parts * chunk_size)`. */
module ChunkPlanner {
  import opened Wrappers
  import opened Seqs

  /** `divmod(len(data), 0)` raises ZeroDivisionError. */
  datatype PlanError = ZeroDivision

  /** Start index of sublist `i`: `i * k + min(i, m)`. */
  function Bound(i: nat, k: nat, m: nat): nat
  {
    i * k + Min(i, m)
  }

  lemma BoundStep(i: nat, k: nat, m: nat)
    ensures Bound(i + 1, k, m) == Bound(i, k, m) + k + (if i < m then 1 else 0)
  {
  }

  lemma {:induction false} BoundMonotone(i: nat, j: nat, k: nat, m: nat)
    requires i <= j
    ensures Bound(i, k, m) <= Bound(j, k, m)
    decreases j - i
  {
    if i < j {
      BoundStep(j - 1, k, m);
      BoundMonotone(i, j - 1, k, m);
    }
  }

  lemma BoundEnd(len: nat, n: nat)
    requires n > 0
    ensures Bound(n, len / n, len % n) == len
  {
    assert len % n < n;
  }

  /** Sublist `i` of a plan with `n` sublists. */
  function Piece<T>(data: seq<T>, n: nat, i: nat): seq<T>
    requires 0 <= i < n
  {
    var k, m := |data| / n, |data| % n;
    BoundEnd(|data|, n);
    BoundMonotone(i + 1, n, k, m);
    BoundStep(i, k, m);
    data[Bound(i, k, m)..Bound(i + 1, k, m)]
  }

  /** `chunk_data(data, parts, chunk_size)`. A zero product raises; a negative
      one gives `range` nothing to iterate, so the plan is empty. */
  function ChunkData<T>(data: seq<T>, parts: int, chunkSize: int): (r: Result<seq<seq<T>>, PlanError>)
    ensures r.Failure? <==> parts * chunkSize == 0
    ensures parts * chunkSize < 0 ==> r == Success([])
    ensures parts * chunkSize > 0 ==> r.Success? && |r.value| == parts * chunkSize
  {
    var n := parts * chunkSize;
    if n == 0 then Failure(ZeroDivision)
    else if n < 0 then Success([])
    else Success(seq(n, i requires 0 <= i < n => Piece(data, n, i)))
  }

  /** The size of every sublist: the first `len % n` get one more unit. */
  lemma PieceSize<T>(data: seq<T>, n: nat, i: nat)
    requires 0 <= i < n
    ensures |Piece(data, n, i)| == |data| / n + (if i < |data| % n then 1 else 0)
  {
    var k, m := |data| / n, |data| % n;
    BoundEnd(|data|, n);
    BoundMonotone(i + 1, n, k, m);
    BoundStep(i, k, m);
    var lo, hi := Bound(i, k, m), Bound(i + 1, k, m);
    assert Piece(data, n, i) == data[lo..hi];
    assert |data[lo..hi]| == hi - lo;
  }

  /** Sizes of a successful plan: `k + 1` for the first `m` sublists, `k` after,
      with `k, m = divmod(len(data), parts * chunk_size)`. */
  lemma ChunkSizes<T>(data: seq<T>, parts: int, chunkSize: int, i: nat)
    requires parts * chunkSize > 0 && i < parts * chunkSize
    ensures var n := parts * chunkSize;
      |ChunkData(data, parts, chunkSize).value[i]| == |data| / n + (if i < |data| % n then 1 else 0)
  {
    PieceSize(data, parts * chunkSize, i);
  }

  /** Any two sublists differ in size by at most one. */
  lemma ChunksBalanced<T>(data: seq<T>, parts: int, chunkSize: int, i: nat, j: nat)
    requires parts * chunkSize > 0 && i < parts * chunkSize && j < parts * chunkSize
    ensures var c := ChunkData(data, parts, chunkSize).value;
      |c[i]| - |c[j]| <= 1 && |c[j]| - |c[i]| <= 1
  {
    ChunkSizes(data, parts, chunkSize, i);
    ChunkSizes(data, parts, chunkSize, j);
  }

  /** With fewer units than sublists, every sublist from index `len(data)` on is empty. */
  lemma ShortDataLeavesEmptyChunks<T>(data: seq<T>, parts: int, chunkSize: int, i: nat)
    requires parts * chunkSize > |data| && |data| <= i < parts * chunkSize
    ensures ChunkData(data, parts, chunkSize).value[i] == []
  {
    var n := parts * chunkSize;
    assert |data| / n == 0 && |data| % n == |data| by {
      assert 0 <= |data| < n;
    }
    ChunkSizes(data, parts, chunkSize, i);
  }

  /** Sublist `i` is the slice between the bounds `i` and `i + 1`, which are
      ordered and within the data. */
  lemma PieceSlice<T>(data: seq<T>, n: nat, i: nat)
    requires 0 <= i < n
    ensures var k, m := |data| / n, |data| % n;
      Bound(i, k, m) <= Bound(i + 1, k, m) <= |data| &&
      Piece(data, n, i) == data[Bound(i, k, m)..Bound(i + 1, k, m)]
  {
    var k, m := |data| / n, |data| % n;
    BoundEnd(|data|, n);
    BoundMonotone(i + 1, n, k, m);
    BoundStep(i, k, m);
  }

  /** The bounds of a plan with `n` sublists over `len` units. */
  function Cuts(len: nat, n: nat): (cuts: seq<nat>)
    requires n > 0
    ensures |cuts| == n + 1
  {
    seq(n + 1, i requires 0 <= i <= n => Bound(i, len / n, len % n))
  }

  lemma CutsOrdered(len: nat, n: nat)
    requires n > 0
    ensures var cuts := Cuts(len, n);
      cuts[0] == 0 && cuts[n] == len && forall i, j :: 0 <= i <= j <= n ==> cuts[i] <= cuts[j]
  {
    BoundEnd(len, n);
    forall i, j | 0 <= i <= j <= n
      ensures Cuts(len, n)[i] <= Cuts(len, n)[j]
    {
      BoundMonotone(i, j, len / n, len % n);
    }
  }

  /** Slices of `data` between consecutive cut points, concatenated, give the
      data up to the last cut point used. */
  lemma {:induction false} SlicesFlatten<T>(data: seq<T>, pieces: seq<seq<T>>, cuts: seq<nat>, j: nat)
    requires |cuts| == |pieces| + 1 && cuts[0] == 0 && cuts[|pieces|] <= |data| && j <= |pieces|
    requires forall i, i' :: 0 <= i <= i' < |cuts| ==> cuts[i] <= cuts[i']
    requires forall i :: 0 <= i < |pieces| ==> pieces[i] == data[cuts[i]..cuts[i + 1]]
    ensures Flatten(pieces[..j]) == data[..cuts[j]]
  {
    if j == 0 {
      assert pieces[..0] == [];
    } else {
      SlicesFlatten(data, pieces, cuts, j - 1);
      assert pieces[..j] == pieces[..j - 1] + [pieces[j - 1]];
      FlattenAppend(pieces[..j - 1], [pieces[j - 1]]);
      assert Flatten([pieces[j - 1]]) == pieces[j - 1] + Flatten([]);
      assert data[..cuts[j]] == data[..cuts[j - 1]] + data[cuts[j - 1]..cuts[j]];
    }
  }

  /** The sublists, concatenated in order, give back the unit list. */
  lemma ChunksConcatenate<T>(data: seq<T>, parts: int, chunkSize: int)
    requires parts * chunkSize > 0
    ensures Flatten(ChunkData(data, parts, chunkSize).value) == data
  {
    var n := parts * chunkSize;
    var c := ChunkData(data, parts, chunkSize).value;
    var cuts := Cuts(|data|, n);
    CutsOrdered(|data|, n);
    forall i | 0 <= i < n
      ensures c[i] == data[cuts[i]..cuts[i + 1]]
    {
      PieceSlice(data, n, i);
    }
    SlicesFlatten(data, c, cuts, n);
    assert c[..n] == c;
  }

  /** Seven units over two workers with one part each: sizes 4 and 3. */
  lemma SevenUnitsOverTwoWorkers(data: seq<int>)
    requires |data| == 7
    ensures var c := ChunkData(data, 1, 2).value;
      |c| == 2 && c[0] == data[..4] && c[1] == data[4..]
  {
  }
}
