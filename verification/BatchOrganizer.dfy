/** Splitting the scans of an input file into batches and mini-batches. */
module BatchOrganizer {
  import opened Sequences
  import opened ScanCheckpoint

  datatype MiniBatch = MiniBatch(miniBatchNumber: nat, scans: seq<Scan>)

  datatype Batch = Batch(batchNumber: nat, scans: seq<Scan>, miniBatches: seq<MiniBatch>)

  /** The mini-batch size, forced into 1..10. */
  function Constrained(miniBatchSize: int): (n: nat)
    ensures 1 <= n <= 10
    ensures 1 <= miniBatchSize <= 10 ==> n == miniBatchSize
    ensures (miniBatchSize < 1 ==> n == 1) && (miniBatchSize > 10 ==> n == 10)
  {
    if miniBatchSize < 1 then 1 else if miniBatchSize > 10 then 10 else miniBatchSize
  }

  function Numbered(chunks: seq<seq<Scan>>): seq<MiniBatch> {
    seq(|chunks|, i requires 0 <= i < |chunks| => MiniBatch(i + 1, chunks[i]))
  }

  function Organized(chunks: seq<seq<Scan>>, size: nat): seq<Batch>
    requires size > 0
  {
    seq(|chunks|, i requires 0 <= i < |chunks| => Batch(i + 1, chunks[i], Numbered(Chunks(chunks[i], size))))
  }

  method OrganizeBatches(scans: seq<Scan>, batchSize: nat, miniBatchSize: int) returns (batches: seq<Batch>)
    requires batchSize > 0
    ensures batches == Organized(Chunks(scans, batchSize), Constrained(miniBatchSize))
  {
    hide Chunks;
    ChunksNothing<Scan>(batchSize);
    batches := [];
    if |scans| == 0 {
      assert scans == [];
      return;
    }
    var constrainedMiniBatchSize := Constrained(miniBatchSize);
    var batchNumber := 1;
    var i := 0;
    assert scans[..0] == [];
    while i < |scans|
      invariant batchNumber >= 1 && i == (batchNumber - 1) * batchSize
      invariant batches == Organized(Chunks(scans[..Min(i, |scans|)], batchSize), constrainedMiniBatchSize) && |batches| == batchNumber - 1
      decreases |scans| - i
    {
      var batchScans := scans[i..Min(i + batchSize, |scans|)];
      var miniBatches := SplitBatch(batchScans, constrainedMiniBatchSize);
      ChunkStep(scans, batchSize, batchNumber - 1, i);
      batches := batches + [Batch(batchNumber, batchScans, miniBatches)];
      batchNumber := batchNumber + 1;
      i := i + batchSize;
    }
    assert scans[..|scans|] == scans;
  }

  /** The inner loop. */
  method SplitBatch(batchScans: seq<Scan>, size: nat) returns (miniBatches: seq<MiniBatch>)
    requires size > 0
    ensures miniBatches == Numbered(Chunks(batchScans, size))
  {
    hide Chunks;
    ChunksNothing<Scan>(size);
    miniBatches := [];
    var miniBatchNumber := 1;
    var j := 0;
    assert batchScans[..0] == [];
    while j < |batchScans|
      invariant miniBatchNumber >= 1 && j == (miniBatchNumber - 1) * size
      invariant miniBatches == Numbered(Chunks(batchScans[..Min(j, |batchScans|)], size)) && |miniBatches| == miniBatchNumber - 1
      decreases |batchScans| - j
    {
      var miniBatchScans := batchScans[j..Min(j + size, |batchScans|)];
      ChunkStep(batchScans, size, miniBatchNumber - 1, j);
      miniBatches := miniBatches + [MiniBatch(miniBatchNumber, miniBatchScans)];
      miniBatchNumber := miniBatchNumber + 1;
      j := j + size;
    }
    assert batchScans[..|batchScans|] == batchScans;
  }

  // ---- Conservation ---------------------------------------------------------------------------

  /** The scans of a batch's mini-batches, and of all batches, in order. */
  function MiniScans(minis: seq<MiniBatch>): seq<Scan> {
    if minis == [] then [] else minis[0].scans + MiniScans(minis[1..])
  }

  function AllScans(batches: seq<Batch>): seq<Scan> {
    if batches == [] then [] else MiniScans(batches[0].miniBatches) + AllScans(batches[1..])
  }

  lemma {:induction false} MiniScansOfChunks(minis: seq<MiniBatch>, chunks: seq<seq<Scan>>)
    requires |minis| == |chunks| && forall i :: 0 <= i < |minis| ==> minis[i].scans == chunks[i]
    ensures MiniScans(minis) == Flatten(chunks)
  {
    if minis != [] { MiniScansOfChunks(minis[1..], chunks[1..]); }
  }

  lemma {:induction false} AllScansOfChunks(batches: seq<Batch>, chunks: seq<seq<Scan>>)
    requires |batches| == |chunks| && forall i :: 0 <= i < |batches| ==> MiniScans(batches[i].miniBatches) == chunks[i]
    ensures AllScans(batches) == Flatten(chunks)
  {
    if batches != [] { AllScansOfChunks(batches[1..], chunks[1..]); }
  }

  /** The mini-batches, one after the other, are the input; all but the last of a batch, and all batches but
      the last, are full; and batches and mini-batches are numbered from 1. */
  lemma OrganizeConserves(scans: seq<Scan>, batchSize: nat, miniBatchSize: int)
    requires batchSize > 0
    ensures var n := Constrained(miniBatchSize);
      var batches := Organized(Chunks(scans, batchSize), n);
      && AllScans(batches) == scans
      && (forall i :: 0 <= i < |batches| ==>
            && batches[i].batchNumber == i + 1
            && 1 <= |batches[i].scans| <= batchSize
            && (i < |batches| - 1 ==> |batches[i].scans| == batchSize)
            && MiniScans(batches[i].miniBatches) == batches[i].scans
            && (forall j :: 0 <= j < |batches[i].miniBatches| ==>
                  batches[i].miniBatches[j].miniBatchNumber == j + 1 && 1 <= |batches[i].miniBatches[j].scans| <= n)
            && (forall j :: 0 <= j < |batches[i].miniBatches| - 1 ==> |batches[i].miniBatches[j].scans| == n))
  {
    hide Chunks, MiniScans, AllScans, Flatten;
    var n := Constrained(miniBatchSize);
    var chunks := Chunks(scans, batchSize);
    var batches := Organized(chunks, n);
    ChunksPartition(scans, batchSize);
    forall i | 0 <= i < |chunks|
      ensures MiniScans(batches[i].miniBatches) == chunks[i]
      ensures forall j :: 0 <= j < |batches[i].miniBatches| ==> 1 <= |batches[i].miniBatches[j].scans| <= n
      ensures forall j :: 0 <= j < |batches[i].miniBatches| - 1 ==> |batches[i].miniBatches[j].scans| == n
    {
      ChunksPartition(chunks[i], n);
      MiniScansOfChunks(batches[i].miniBatches, Chunks(chunks[i], n));
    }
    AllScansOfChunks(batches, chunks);
  }
}
