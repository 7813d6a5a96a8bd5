/**
 Resize-strategy selection of betterResize: a direct triangle-filtered resize,
 or a box sample to five times the target followed by that resize. The area
 test uses the rows the caller passed, taken before any inference, so a request
 with 0 rows has area factor 0 and never takes the direct-by-area branch.
 */
module Strategy {
  import opened Engine
  import opened Planning

  /** Linear factor of the box-sample pre-pass (`$SampleFactor`). */
  const SampleFactor: nat := 5

  /** Smallest sampled dimension worth a pre-pass. */
  const MinSampled: nat := 128

  /** Blur argument passed with every resize. */
  const ResizeBlur: real := 1.0

  /** Which branch of betterResize issues the resize. */
  datatype Branch =
    | DirectByArea       // the factors' product exceeds 0.1
    | DirectSmallTarget  // a sampled dimension would fall below 128
    | SampleFirst        // box sample to 5x the target, then resize

  /** The branch betterResize takes for a request on an image of the given natural size. */
  function Choose(columns: nat, rows: nat, width: nat, height: nat): (b: Branch)
    requires width > 0 && height > 0
    ensures b == DirectByArea <==> Factor(columns, width) * Factor(rows, height) > 0.1
    ensures b == SampleFirst <==>
      && !(Factor(columns, width) * Factor(rows, height) > 0.1)
      && SampleFactor * columns >= MinSampled
      && SampleFactor * TargetRows(columns, rows, width, height) >= MinSampled
  {
    var target := TargetRows(columns, rows, width, height);
    if AreaAboveTenth(columns, rows, width, height) then DirectByArea
    else if SampleFactor * columns < MinSampled || SampleFactor * target < MinSampled then DirectSmallTarget
    else SampleFirst
  }

  /** The final filtered resize every branch ends with. */
  function FinalResize(columns: nat, rows: nat): (op: Op)
    ensures op.Resize? && op.columns == columns && op.rows == rows
    ensures op.filter == Triangle && op.blur == 1.0
  {
    Resize(columns, rows, Triangle, ResizeBlur)
  }

  /** The resize commands betterResize issues, in order. */
  function ResizeOps(columns: nat, rows: nat, width: nat, height: nat): (ops: seq<Op>)
    requires width > 0 && height > 0
    ensures 1 <= |ops| <= 2
    ensures ops[|ops| - 1] == FinalResize(columns, TargetRows(columns, rows, width, height))
    ensures forall i :: 0 <= i < |ops| - 1 ==> !ops[i].Resize?
    ensures (exists i :: 0 <= i < |ops| && ops[i].Sample?) <==> Choose(columns, rows, width, height) == SampleFirst
    ensures Choose(columns, rows, width, height) == SampleFirst ==>
      ops[0] == Sample(SampleFactor * columns, SampleFactor * TargetRows(columns, rows, width, height))
  {
    var target := TargetRows(columns, rows, width, height);
    match Choose(columns, rows, width, height)
    case DirectByArea => [FinalResize(columns, target)]
    case DirectSmallTarget => [FinalResize(columns, target)]
    case SampleFirst =>
      var ops := [Sample(SampleFactor * columns, SampleFactor * target), FinalResize(columns, target)];
      assert ops[0].Sample?;
      ops
  }

  /** When the factors' product exceeds 0.1, the only command is the resize to
      `(columns, rows)`; a product of exactly 0.1 is not enough. */
  lemma DirectWhenAreaAboveTenth(columns: nat, rows: nat, width: nat, height: nat)
    requires width > 0 && height > 0
    requires Factor(columns, width) * Factor(rows, height) > 0.1
    ensures ResizeOps(columns, rows, width, height) == [FinalResize(columns, TargetRows(columns, rows, width, height))]
  {
  }

  /** A request with 0 rows never takes the direct-by-area branch, however
      mild the reduction the inferred rows make. */
  lemma ZeroRowsNeverDirectByArea(columns: nat, width: nat, height: nat)
    requires width > 0 && height > 0
    ensures Choose(columns, 0, width, height) != DirectByArea
  {
  }

  /** In the low-area branch, a target whose five-fold size is below 128 on
      either axis gets a single resize and no sample. */
  lemma SmallTargetSingleResize(columns: nat, rows: nat, width: nat, height: nat)
    requires width > 0 && height > 0
    requires !(Factor(columns, width) * Factor(rows, height) > 0.1)
    requires SampleFactor * columns < MinSampled || SampleFactor * TargetRows(columns, rows, width, height) < MinSampled
    ensures ResizeOps(columns, rows, width, height) == [FinalResize(columns, TargetRows(columns, rows, width, height))]
  {
  }

  /** Whatever branch runs, the engine ends at `(columns, rows)` with rows
      inferred when 0 was passed. */
  lemma FinalSizeIndependentOfBranch(img: Image, columns: nat, rows: nat)
    requires img.width > 0 && img.height > 0
    ensures var out := Run(img, ResizeOps(columns, rows, img.width, img.height));
      out.width == columns && out.height == TargetRows(columns, rows, img.width, img.height)
      && out.(width := img.width, height := img.height) == img
  {
    var ops := ResizeOps(columns, rows, img.width, img.height);
    if |ops| == 1 {
      RunSingle(img, ops[0]);
      assert ops == [ops[0]];
    } else {
      RunAppend(img, [ops[0]], [ops[1]]);
      assert ops == [ops[0]] + [ops[1]];
      RunSingle(img, ops[0]);
      RunSingle(Apply(img, ops[0]), ops[1]);
    }
  }

  /** An area factor of exactly one tenth (100 x 1000 out of 1000 x 1000) misses
      the direct branch, and at that size the sample pre-pass runs. */
  lemma ExactTenthSamplesFirst()
    ensures Factor(100, 1000) * Factor(1000, 1000) == 0.1
    ensures ResizeOps(100, 1000, 1000, 1000) == [Sample(500, 5000), FinalResize(100, 1000)]
  {
  }

  /** With 0 rows the sample pre-pass can target more pixels than the image has:
      600 columns of a 1000 x 1000 image samples it up to 3000 x 3000, although
      the factors' product with the inferred rows (0.36) exceeds 0.1. */
  lemma ZeroRowsSamplesAboveNaturalSize()
    ensures TargetRows(600, 0, 1000, 1000) == 600
    ensures Factor(600, 1000) * Factor(600, 1000) > 0.1
    ensures ResizeOps(600, 0, 1000, 1000) == [Sample(3000, 3000), FinalResize(600, 600)]
  {
  }
}
