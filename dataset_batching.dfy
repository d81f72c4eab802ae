/**
 * Batching of the deep hashing network's datasets (`dhn.py`, class `Dataset`): a
 * shuffled permutation of the samples is walked batch by batch, the network's output
 * rows are written back at the batch's samples, and building the hash database walks
 * the validation set once. The network and the random shuffles are parameters.
 */
module DatasetBatching {
  import opened Wrappers

  /** One output row of the network (a hash code before binarisation). */
  type Code = seq<real>

  /** p lists each of the samples 0..n-1 exactly once. */
  predicate IsPermutation(p: seq<nat>, n: nat)
  {
    && |p| == n
    && (forall i | 0 <= i < |p| :: p[i] < n)
    && (forall s | 0 <= s < n :: s in p)
    && (forall i, j | 0 <= i < j < |p| :: p[i] != p[j])
  }

  function Range(n: nat): (r: seq<nat>)
    ensures |r| == n && forall i | 0 <= i < n :: r[i] == i
  {
    seq(n, i => i)
  }

  /** `np.arange(n)` is a permutation, so a dataset can always be built. */
  lemma RangeIsPermutation(n: nat)
    ensures IsPermutation(Range(n), n)
  {
    forall s | 0 <= s < n
      ensures s in Range(n)
    {
      assert Range(n)[s] == s;
    }
  }

  /** A Python slice bound: a negative one counts from the end, and both are clamped to the sequence. */
  function SliceBound(i: int, len: nat): (r: nat)
    ensures r <= len
    ensures 0 <= i <= len ==> r == i
  {
    if i < 0 then (if i + len < 0 then 0 else i + len) else if i > len then len else i
  }

  /** Python `s[start:end]`. */
  function PySlice<T>(s: seq<T>, start: int, end: int): (r: seq<T>)
    ensures 0 <= start <= end <= |s| ==> r == s[start..end]
  {
    var a, b := SliceBound(start, |s|), SliceBound(end, |s|);
    if a <= b then s[a..b] else []
  }

  /**
   * Where a batch that runs past the end starts in validation mode: the last full batch,
   * or the whole set when the batch is larger than the set.
   */
  function ValidationStart(n: nat, batchSize: nat): (r: nat)
    ensures r <= n
    ensures batchSize <= n ==> r + batchSize == n
    ensures batchSize >= n ==> r == 0
  {
    if batchSize <= n then n - batchSize else 0
  }

  /** The batch validation mode reads past the end as written: from `n - batch_size`, a negative start when the batch is larger. */
  function AsWrittenValidationBatch(perm: seq<nat>, batchSize: nat): (r: seq<nat>)
    ensures batchSize <= |perm| ==> r == perm[|perm| - batchSize..]
  {
    PySlice(perm, |perm| - batchSize, |perm|)
  }

  /**
   * With three samples and a validation batch of five, the database is built in one
   * batch, which as written holds only perm[1..3]: the negative start -2 counts from the
   * end, so the first sample of the permutation never gets its hash code.
   */
  lemma AsWrittenSkipsSamples()
    ensures AsWrittenValidationBatch([0, 1, 2], 5) == [1, 2]
    ensures 0 !in AsWrittenValidationBatch([0, 1, 2], 5)
  {
    assert SliceBound(-2, 3) == 1;
  }

  /** Whenever n < batch < 2n the as-written batch misses the first 2n - batch samples of the permutation. */
  lemma AsWrittenMissesPrefix(perm: seq<nat>, batchSize: nat)
    requires |perm| < batchSize < 2 * |perm|
    ensures AsWrittenValidationBatch(perm, batchSize) == perm[2 * |perm| - batchSize..]
    ensures |AsWrittenValidationBatch(perm, batchSize)| < |perm|
  {
  }

  /** The corrected batch holds the last `batch_size` samples, or all of them. */
  lemma ValidationBatchCovers(perm: seq<nat>, batchSize: nat)
    ensures var start := ValidationStart(|perm|, batchSize);
      perm[start..] == (if batchSize <= |perm| then perm[|perm| - batchSize..] else perm)
  {
  }

  class Dataset {
    const n: nat
    const train: bool
    var perm: seq<nat>
    var indexInEpoch: nat
    var epochsComplete: nat
    var output: seq<Code>
    var paths: seq<Option<string>>

    ghost predicate Valid()
      reads this
    {
      IsPermutation(perm, n) && |output| == n && |paths| == n
    }

    /** A new dataset: zero rows, no paths, the shuffled order, at the start of epoch 0. */
    constructor (nSamples: nat, isTrain: bool, outputDim: nat, shuffled: seq<nat>)
      requires IsPermutation(shuffled, nSamples)
      ensures Valid()
      ensures n == nSamples && train == isTrain && perm == shuffled
      ensures indexInEpoch == 0 && epochsComplete == 0
      ensures output == seq(nSamples, _ => seq(outputDim, _ => 0.0)) && paths == seq(nSamples, _ => None)
    {
      n, train := nSamples, isTrain;
      perm := shuffled;
      indexInEpoch, epochsComplete := 0, 0;
      output := seq(nSamples, _ => seq(outputDim, _ => 0.0));
      paths := seq(nSamples, _ => None);
    }

    /** Where the batch last handed out starts, given where it ends. */
    function BatchStart(batchSize: nat): (r: nat)
      reads this
      ensures r <= indexInEpoch
    {
      if indexInEpoch >= batchSize then indexInEpoch - batchSize else 0
    }

    /**
     * `next_batch`: the next `batch_size` samples of the permutation. Past the end, the
     * training set starts a new epoch in the `reshuffled` order, while the validation set
     * hands out its last batch and stays at the end.
     */
    method NextBatch(batchSize: nat, reshuffled: seq<nat>) returns (batch: seq<nat>)
      requires Valid() && IsPermutation(reshuffled, n)
      modifies this
      ensures Valid()
      ensures output == old(output) && paths == old(paths)
      ensures old(indexInEpoch) + batchSize <= n ==>
        && batch == perm[old(indexInEpoch)..old(indexInEpoch) + batchSize]
        && indexInEpoch == old(indexInEpoch) + batchSize
        && perm == old(perm) && epochsComplete == old(epochsComplete)
      ensures old(indexInEpoch) + batchSize > n && train ==>
        && epochsComplete == old(epochsComplete) + 1 && perm == reshuffled
        && indexInEpoch == batchSize && batch == PySlice(reshuffled, 0, batchSize)
      ensures old(indexInEpoch) + batchSize > n && !train ==>
        && indexInEpoch == n && batch == perm[ValidationStart(n, batchSize)..]
        && perm == old(perm) && epochsComplete == old(epochsComplete)
      ensures batch == PySlice(perm, BatchStart(batchSize), indexInEpoch)
    {
      var start: int := indexInEpoch;
      indexInEpoch := indexInEpoch + batchSize;
      if indexInEpoch > n {
        if train {
          epochsComplete := epochsComplete + 1;
          perm := reshuffled;
          start := 0;
          indexInEpoch := batchSize;
        } else {
          start := ValidationStart(n, batchSize);
          indexInEpoch := n;
        }
      }
      batch := PySlice(perm, start, indexInEpoch);
    }

    /**
     * `feed_batch_output`: the rows and paths of the batch last handed out are stored
     * at its samples; every other sample keeps its row and path.
     */
    method FeedBatchOutput(batchSize: nat, rows: seq<Code>, names: seq<string>)
      requires Valid()
      requires |rows| == |PySlice(perm, BatchStart(batchSize), indexInEpoch)| == |names|
      modifies this
      ensures Valid()
      ensures perm == old(perm) && indexInEpoch == old(indexInEpoch) && epochsComplete == old(epochsComplete)
      ensures var idx := PySlice(perm, BatchStart(batchSize), indexInEpoch);
        && (forall k | 0 <= k < |idx| :: output[idx[k]] == rows[k] && paths[idx[k]] == Some(names[k]))
        && (forall s | 0 <= s < n && s !in idx :: output[s] == old(output)[s] && paths[s] == old(paths)[s])
    {
      var idx := PySlice(perm, BatchStart(batchSize), indexInEpoch);
      SliceDistinct(perm, n, BatchStart(batchSize), indexInEpoch);
      ghost var out0, paths0 := output, paths;
      for k := 0 to |idx|
        invariant |output| == n && |paths| == n
        invariant perm == old(perm) && indexInEpoch == old(indexInEpoch) && epochsComplete == old(epochsComplete)
        invariant Fed(output, paths, out0, paths0, idx, rows, names, k)
      {
        FedStep(output, paths, out0, paths0, idx, rows, names, k);
        output := output[idx[k] := rows[k]];
        paths := paths[idx[k] := Some(names[k])];
      }
      FedAll(output, paths, out0, paths0, idx, rows, names);
    }

    /** `finish_epoch`: back to the start, in the `reshuffled` order. */
    method FinishEpoch(reshuffled: seq<nat>)
      requires Valid() && IsPermutation(reshuffled, n)
      modifies this
      ensures Valid()
      ensures indexInEpoch == 0 && perm == reshuffled
      ensures epochsComplete == old(epochsComplete) && output == old(output) && paths == old(paths)
    {
      indexInEpoch := 0;
      perm := reshuffled;
    }
  }

  /**
   * The first `k` rows and names of a batch are stored at its samples `idx[..k]`, and
   * every other sample keeps its row and path from `out0` and `paths0`.
   */
  ghost predicate Fed(out: seq<Code>, ps: seq<Option<string>>, out0: seq<Code>, paths0: seq<Option<string>>,
                      idx: seq<nat>, rows: seq<Code>, names: seq<string>, k: nat)
  {
    && |out| == |out0| && |ps| == |paths0|
    && k <= |idx| <= |rows| && |idx| <= |names|
    && (forall j | 0 <= j < k :: idx[j] < |out| && idx[j] < |ps| && out[idx[j]] == rows[j] && ps[idx[j]] == Some(names[j]))
    && (forall s | 0 <= s < |out| && s < |ps| && s !in idx[..k] :: out[s] == out0[s] && ps[s] == paths0[s])
  }

  /** Storing the next row and name of a batch of distinct samples keeps the earlier ones. */
  lemma FedStep(out: seq<Code>, ps: seq<Option<string>>, out0: seq<Code>, paths0: seq<Option<string>>,
                idx: seq<nat>, rows: seq<Code>, names: seq<string>, k: nat)
    requires Fed(out, ps, out0, paths0, idx, rows, names, k) && k < |idx|
    requires forall i | 0 <= i < |idx| :: idx[i] < |out| && idx[i] < |ps|
    requires forall i, j | 0 <= i < j < |idx| :: idx[i] != idx[j]
    ensures Fed(out[idx[k] := rows[k]], ps[idx[k] := Some(names[k])], out0, paths0, idx, rows, names, k + 1)
  {
    var out1, ps1 := out[idx[k] := rows[k]], ps[idx[k] := Some(names[k])];
    assert idx[..k + 1] == idx[..k] + [idx[k]];
    forall j | 0 <= j < k + 1
      ensures out1[idx[j]] == rows[j] && ps1[idx[j]] == Some(names[j])
    {
      if j < k {
        assert idx[j] != idx[k];
      }
    }
  }

  /** A whole batch fed: its samples hold their rows and names, the others are as before. */
  lemma FedAll(out: seq<Code>, ps: seq<Option<string>>, out0: seq<Code>, paths0: seq<Option<string>>,
               idx: seq<nat>, rows: seq<Code>, names: seq<string>)
    requires Fed(out, ps, out0, paths0, idx, rows, names, |idx|)
    ensures forall k | 0 <= k < |idx| :: out[idx[k]] == rows[k] && ps[idx[k]] == Some(names[k])
    ensures forall s | 0 <= s < |out| && s < |ps| && s !in idx :: out[s] == out0[s] && ps[s] == paths0[s]
  {
    assert idx[..|idx|] == idx;
  }

  /** A slice of a permutation lists distinct samples of the set. */
  lemma SliceDistinct(p: seq<nat>, n: nat, start: int, end: int)
    requires IsPermutation(p, n)
    ensures var idx := PySlice(p, start, end);
      (forall i | 0 <= i < |idx| :: idx[i] < n) && forall i, j | 0 <= i < j < |idx| :: idx[i] != idx[j]
  {
    var a, b := SliceBound(start, |p|), SliceBound(end, |p|);
    if a <= b {
      var idx := p[a..b];
      forall i, j | 0 <= i < j < |idx|
        ensures idx[i] != idx[j]
      {
        assert idx[i] == p[a + i] && idx[j] == p[a + j];
      }
    }
  }

  /** The samples at positions below `upto` of the permutation hold their own code and path. */
  ghost predicate Covered(out: seq<Code>, names: seq<Option<string>>, perm: seq<nat>, upto: nat,
                          encode: nat -> Code, pathOf: nat -> string)
  {
    forall j | 0 <= j < upto && j < |perm| && perm[j] < |out| && perm[j] < |names| ::
      out[perm[j]] == encode(perm[j]) && names[perm[j]] == Some(pathOf(perm[j]))
  }

  /**
   * Building the hash database (`DHN` database processing): ceil(n / batch) validation
   * batches, each run through the network (`encode`) and fed back. Afterwards every
   * sample holds its own code and path.
   */
  method CreateDatabase(d: Dataset, valBatchSize: nat, encode: nat -> Code, pathOf: nat -> string)
    requires d.Valid() && !d.train && d.indexInEpoch == 0 && valBatchSize >= 1
    modifies d
    ensures d.Valid()
    ensures forall s | 0 <= s < d.n :: d.output[s] == encode(s) && d.paths[s] == Some(pathOf(s))
  {
    var databaseBatch := (d.n + valBatchSize - 1) / valBatchSize;
    CeilDivCovers(d.n, valBatchSize);
    ghost var p := d.perm;
    for i := 0 to databaseBatch
      invariant d.Valid() && d.perm == p
      invariant d.indexInEpoch == d.n || (d.indexInEpoch == i * valBatchSize && d.indexInEpoch <= d.n)
      invariant Covered(d.output, d.paths, p, d.indexInEpoch, encode, pathOf)
    {
      DatabaseBatch(d, valBatchSize, encode, pathOf, p);
      NextMultiple(i, valBatchSize);
    }
    assert d.indexInEpoch == d.n;
    CoveredAll(p, d.n, d.output, d.paths, encode, pathOf);
  }

  /** One pass of the database loop: the next validation batch, encoded and fed back. */
  method DatabaseBatch(d: Dataset, valBatchSize: nat, encode: nat -> Code, pathOf: nat -> string, ghost p: seq<nat>)
    requires d.Valid() && d.perm == p && !d.train && d.indexInEpoch <= d.n && valBatchSize >= 1
    requires Covered(d.output, d.paths, p, d.indexInEpoch, encode, pathOf)
    modifies d
    ensures d.Valid() && d.perm == p
    ensures old(d.indexInEpoch) + valBatchSize <= d.n ==> d.indexInEpoch == old(d.indexInEpoch) + valBatchSize
    ensures old(d.indexInEpoch) + valBatchSize > d.n ==> d.indexInEpoch == d.n
    ensures Covered(d.output, d.paths, p, d.indexInEpoch, encode, pathOf)
  {
    ghost var before, out0, paths0 := d.indexInEpoch, d.output, d.paths;
    var batch := d.NextBatch(valBatchSize, d.perm);
    ghost var a, end := d.BatchStart(valBatchSize), d.indexInEpoch;
    assert a <= before <= end <= d.n;
    assert batch == p[a..end];
    var rows := seq(|batch|, k requires 0 <= k < |batch| => encode(batch[k]));
    var names := seq(|batch|, k requires 0 <= k < |batch| => pathOf(batch[k]));
    d.FeedBatchOutput(valBatchSize, rows, names);
    CoveredStep(p, d.n, out0, paths0, d.output, d.paths, a, before, end, batch, encode, pathOf);
  }

  lemma NextMultiple(i: nat, b: nat)
    ensures (i + 1) * b == i * b + b
  {
  }

  /** Covering the whole permutation covers every sample. */
  lemma CoveredAll(p: seq<nat>, n: nat, out: seq<Code>, names: seq<Option<string>>,
                   encode: nat -> Code, pathOf: nat -> string)
    requires IsPermutation(p, n) && |out| == n && |names| == n
    requires Covered(out, names, p, n, encode, pathOf)
    ensures forall s | 0 <= s < n :: out[s] == encode(s) && names[s] == Some(pathOf(s))
  {
    forall s | 0 <= s < n
      ensures out[s] == encode(s) && names[s] == Some(pathOf(s))
    {
      assert s in p;
      var j :| 0 <= j < |p| && p[j] == s;
    }
  }

  lemma CeilDivCovers(n: nat, b: nat)
    requires b >= 1
    ensures (n + b - 1) / b * b >= n
  {
    var q, r := (n + b - 1) / b, (n + b - 1) % b;
    assert q * b + r == n + b - 1;
  }

  /** Feeding the batch p[a..end] onto a prefix covered up to `before` covers up to `end`. */
  lemma CoveredStep(p: seq<nat>, n: nat, out0: seq<Code>, paths0: seq<Option<string>>,
                    out1: seq<Code>, paths1: seq<Option<string>>, a: nat, before: nat, end: nat,
                    batch: seq<nat>, encode: nat -> Code, pathOf: nat -> string)
    requires IsPermutation(p, n) && |out0| == |paths0| == |out1| == |paths1| == n
    requires a <= before <= end <= n && batch == p[a..end]
    requires Covered(out0, paths0, p, before, encode, pathOf)
    requires forall k | 0 <= k < |batch| :: out1[batch[k]] == encode(batch[k]) && paths1[batch[k]] == Some(pathOf(batch[k]))
    requires forall s | 0 <= s < n && s !in batch :: out1[s] == out0[s] && paths1[s] == paths0[s]
    ensures Covered(out1, paths1, p, end, encode, pathOf)
  {
    forall j | 0 <= j < end
      ensures out1[p[j]] == encode(p[j]) && paths1[p[j]] == Some(pathOf(p[j]))
    {
      if a <= j {
        assert batch[j - a] == p[j];
      } else {
        assert p[j] !in batch by {
          forall k | 0 <= k < |batch|
            ensures batch[k] != p[j]
          {
            assert batch[k] == p[a + k];
          }
        }
      }
    }
  }
}
