/**
  make_mask (libraries/reducer.py and lib/reducer.py, the same code in both):
  a boolean mask of a frame's shape that is set on the bad-column block of the
  camera and on four border strips of width 100 // binning, together with one
  rectangular aperture per marked region.

  The mask is indexed [row, column] like the frame's data array. Each region
  is a NumPy slice assignment `mask[r0:r1, c0:c1] = True`, with Python's
  slice rules: a negative bound counts from the end, and bounds are clipped
  to the axis.
*/
module Mask {

  /** The bounds of one `mask[rowStart:rowStop, colStart:colStop] = True`. */
  datatype Rect = Rect(rowStart: int, rowStop: int, colStart: int, colStop: int)

  /** `RectangularAperture((x, y), w, h, theta=0.)`: centre, width along x
      (columns) and height along y (rows). */
  datatype Aperture = Aperture(x: int, y: int, w: int, h: int)

  /** A slice bound as Python resolves it against an axis of length `len`. */
  function Bound(x: int, len: nat): (r: nat)
    ensures r <= len
    ensures 0 <= x <= len ==> r == x
    ensures x > len ==> r == len
    ensures x < 0 <= x + len ==> r == x + len
    ensures x + len < 0 ==> r == 0
  {
    if x < 0 then (if x + len < 0 then 0 else x + len)
    else if x > len then len
    else x
  }

  /** Pixel (i, j) is written by the slice assignment of `r`. */
  predicate InRect(r: Rect, rows: nat, cols: nat, i: int, j: int) {
    && Bound(r.rowStart, rows) <= i < Bound(r.rowStop, rows)
    && Bound(r.colStart, cols) <= j < Bound(r.colStop, cols)
  }

  function Edge(binning: int): (e: int)
    requires binning >= 1
    ensures 0 <= e <= 100
  {
    100 / binning
  }

  /** The bad-column block: rows [860//b, 4089//b), columns [1200//b, 1210//b). */
  function BadBlock(binning: int): Rect
    requires binning >= 1
  {
    Rect(860 / binning, 4089 / binning, 1200 / binning, 1210 / binning)
  }

  /** The five slice assignments of make_mask, in source order, for the
      values the code calls `dx` and `dy`: the block, then the left, top,
      right and bottom strips. */
  function Regions(dx: int, dy: int, binning: int): (rs: seq<Rect>)
    requires binning >= 1
    ensures |rs| == 5 && rs[0] == BadBlock(binning)
  {
    var edge := Edge(binning);
    [ BadBlock(binning),
      Rect(0, dy, 0, edge),
      Rect(dy - edge, dy, 0, dx),
      Rect(0, dy, dx - edge, dx),
      Rect(0, edge, 0, dx) ]
  }

  predicate Marked(rs: seq<Rect>, rows: nat, cols: nat, i: int, j: int) {
    exists k :: 0 <= k < |rs| && InRect(rs[k], rows, cols, i, j)
  }

  /** The code as written takes `dx = shape[0]` (the number of rows) and
      `dy = shape[1]` (the number of columns). */
  function RegionsAsWritten(rows: nat, cols: nat, binning: int): seq<Rect>
    requires binning >= 1
  {
    Regions(rows, cols, binning)
  }

  /** Used on [row, column] slices, `dx` must be the number of columns and
      `dy` the number of rows, which is what the strips' names (left, top,
      right, bottom) and their apertures call for. */
  function RegionsCorrected(rows: nat, cols: nat, binning: int): seq<Rect>
    requires binning >= 1
  {
    Regions(cols, rows, binning)
  }

  /** Pixel (i, j) lies within `edge` of one of the frame's four sides. */
  predicate InBorder(rows: nat, cols: nat, edge: int, i: int, j: int) {
    i < edge || i >= rows - edge || j < edge || j >= cols - edge
  }

  /** The corrected mask is exactly the border of width 100 // binning plus
      the bad-column block, whatever the frame's size (the slice rules
      included). */
  lemma CorrectedMaskIsBorderAndBlock(rows: nat, cols: nat, binning: int, i: int, j: int)
    requires binning >= 1 && 0 <= i < rows && 0 <= j < cols
    ensures Marked(RegionsCorrected(rows, cols, binning), rows, cols, i, j) <==>
              InBorder(rows, cols, Edge(binning), i, j) || InRect(BadBlock(binning), rows, cols, i, j)
  {
    if InBorder(rows, cols, Edge(binning), i, j) {
      BorderMarked(rows, cols, binning, i, j);
    } else if InRect(BadBlock(binning), rows, cols, i, j) {
      assert InRect(RegionsCorrected(rows, cols, binning)[0], rows, cols, i, j);
    } else if Marked(RegionsCorrected(rows, cols, binning), rows, cols, i, j) {
      MarkedInBorderOrBlock(rows, cols, binning, i, j);
    }
  }

  lemma BorderMarked(rows: nat, cols: nat, binning: int, i: int, j: int)
    requires binning >= 1 && 0 <= i < rows && 0 <= j < cols
    requires InBorder(rows, cols, Edge(binning), i, j)
    ensures Marked(RegionsCorrected(rows, cols, binning), rows, cols, i, j)
  {
    var rs := RegionsCorrected(rows, cols, binning);
    var edge := Edge(binning);
    if j < edge {
      assert InRect(rs[1], rows, cols, i, j);
    } else if i < edge {
      assert InRect(rs[4], rows, cols, i, j);
    } else if i >= rows - edge {
      assert InRect(rs[2], rows, cols, i, j);
    } else {
      assert InRect(rs[3], rows, cols, i, j);
    }
  }

  lemma MarkedInBorderOrBlock(rows: nat, cols: nat, binning: int, i: int, j: int)
    requires binning >= 1 && 0 <= i < rows && 0 <= j < cols
    requires Marked(RegionsCorrected(rows, cols, binning), rows, cols, i, j)
    ensures InBorder(rows, cols, Edge(binning), i, j) || InRect(BadBlock(binning), rows, cols, i, j)
  {
    var rs := RegionsCorrected(rows, cols, binning);
    var k :| 0 <= k < 5 && InRect(rs[k], rows, cols, i, j);
  }

  /** On a frame that is not square the code as written leaves part of the
      border unmasked: on a 2532 x 3352 frame (the ST8300 camera, rows first)
      at binning 1, pixel (2500, 3000) lies 32 rows from the top edge yet no
      slice covers it, while the corrected regions do. */
  lemma AsWrittenMissesBorder()
    ensures InBorder(2532, 3352, Edge(1), 2500, 3000)
    ensures !Marked(RegionsAsWritten(2532, 3352, 1), 2532, 3352, 2500, 3000)
    ensures Marked(RegionsCorrected(2532, 3352, 1), 2532, 3352, 2500, 3000)
  {
    var rs := RegionsAsWritten(2532, 3352, 1);
    assert Bound(3252, 2532) == 2532;
    forall k | 0 <= k < |rs|
      ensures !InRect(rs[k], 2532, 3352, 2500, 3000)
    {
    }
    assert InRect(RegionsCorrected(2532, 3352, 1)[2], 2532, 3352, 2500, 3000);
  }

  lemma MarkedFive(rs: seq<Rect>, rows: nat, cols: nat, i: int, j: int)
    requires |rs| == 5
    ensures Marked(rs, rows, cols, i, j) <==>
              InRect(rs[0], rows, cols, i, j) || InRect(rs[1], rows, cols, i, j) || InRect(rs[2], rows, cols, i, j)
              || InRect(rs[3], rows, cols, i, j) || InRect(rs[4], rows, cols, i, j)
  {
    if Marked(rs, rows, cols, i, j) {
      var k :| 0 <= k < |rs| && InRect(rs[k], rows, cols, i, j);
    }
  }

  /** The aperture drawn around the pixels of a slice given by its bounds:
      centre at start + extent // 2 on each axis. */
  function ApertureOf(r: Rect): Aperture {
    var w := r.colStop - r.colStart;
    var h := r.rowStop - r.rowStart;
    Aperture(r.colStart + FloorDiv(w, 2), r.rowStart + FloorDiv(h, 2), w, h)
  }

  /** Python's `//` by a positive divisor. */
  function FloorDiv(a: int, b: int): (q: int)
    requires b > 0
    ensures q * b <= a < q * b + b
  {
    a / b
  }

  const BoxNames: seq<string> := ["mask_box", "eml_box", "emt_box", "emr_box", "emb_box"]

  /** make_mask for a frame of `rows` x `cols` pixels with the given
      XBINNING, with `dx` and `dy` on the axes they stand for. The mask is
      exactly the corrected regions, and each box is the aperture around
      the region it names. */
  method MakeMask(rows: nat, cols: nat, binning: int) returns (mask: array2<bool>, boxes: map<string, Aperture>)
    requires binning >= 1
    ensures fresh(mask) && mask.Length0 == rows && mask.Length1 == cols
    ensures forall i, j :: 0 <= i < rows && 0 <= j < cols ==>
              mask[i, j] == Marked(RegionsCorrected(rows, cols, binning), rows, cols, i, j)
    ensures boxes.Keys == set k | 0 <= k < 5 :: BoxNames[k]
    ensures forall k :: 0 <= k < 5 ==> boxes[BoxNames[k]] == ApertureOf(RegionsCorrected(rows, cols, binning)[k])
  {
    mask := new bool[rows, cols]((i, j) => false);
    var edge := 100 / binning;
    var dx := cols;
    var dy := rows;

    var maskY1 := 860 / binning;
    var maskY2 := 4089 / binning;
    var maskX1 := 1200 / binning;
    var maskX2 := 1210 / binning;

    ghost var rs := RegionsCorrected(rows, cols, binning);
    SetRegion(mask, Rect(maskY1, maskY2, maskX1, maskX2));
    assert forall i, j :: 0 <= i < rows && 0 <= j < cols ==>
             mask[i, j] == InRect(rs[0], rows, cols, i, j);
    SetRegion(mask, Rect(0, dy, 0, edge));
    assert forall i, j :: 0 <= i < rows && 0 <= j < cols ==>
             mask[i, j] == (InRect(rs[0], rows, cols, i, j) || InRect(rs[1], rows, cols, i, j));
    SetRegion(mask, Rect(dy - edge, dy, 0, dx));
    assert forall i, j :: 0 <= i < rows && 0 <= j < cols ==>
             mask[i, j] == (InRect(rs[0], rows, cols, i, j) || InRect(rs[1], rows, cols, i, j)
                            || InRect(rs[2], rows, cols, i, j));
    SetRegion(mask, Rect(0, dy, dx - edge, dx));
    assert forall i, j :: 0 <= i < rows && 0 <= j < cols ==>
             mask[i, j] == (InRect(rs[0], rows, cols, i, j) || InRect(rs[1], rows, cols, i, j)
                            || InRect(rs[2], rows, cols, i, j) || InRect(rs[3], rows, cols, i, j));
    SetRegion(mask, Rect(0, edge, 0, dx));
    forall i, j | 0 <= i < rows && 0 <= j < cols
      ensures mask[i, j] == Marked(rs, rows, cols, i, j)
    {
      MarkedFive(rs, rows, cols, i, j);
    }

    boxes := MakeBoxes(rows, cols, binning);
  }

  /** The `boxes` dictionary of make_mask. */
  method MakeBoxes(rows: nat, cols: nat, binning: int) returns (boxes: map<string, Aperture>)
    requires binning >= 1
    ensures boxes.Keys == set k | 0 <= k < 5 :: BoxNames[k]
    ensures forall k :: 0 <= k < 5 ==> boxes[BoxNames[k]] == ApertureOf(RegionsCorrected(rows, cols, binning)[k])
  {
    var edge := 100 / binning;
    var dx := cols;
    var dy := rows;
    var maskY1 := 860 / binning;
    var maskY2 := 4089 / binning;
    var maskDeltaY := maskY2 - maskY1;
    var centerY := FloorDiv(maskDeltaY, 2);
    var maskX1 := 1200 / binning;
    var maskX2 := 1210 / binning;
    var maskDeltaX := maskX2 - maskX1;
    var centerX := FloorDiv(maskDeltaX, 2);

    ghost var rs := RegionsCorrected(rows, cols, binning);
    var maskBox := Aperture(centerX + maskX1, centerY + maskY1, maskDeltaX, maskDeltaY);
    var emlBox := Aperture(FloorDiv(edge, 2), FloorDiv(dy, 2), edge, dy);
    var emtBox := Aperture(FloorDiv(dx, 2), FloorDiv(edge, 2) + dy - edge, dx, edge);
    var emrBox := Aperture(FloorDiv(edge, 2) + dx - edge, FloorDiv(dy, 2), edge, dy);
    var embBox := Aperture(FloorDiv(dx, 2), FloorDiv(edge, 2), dx, edge);
    assert maskBox == ApertureOf(rs[0]);
    assert emlBox == ApertureOf(rs[1]);
    assert emtBox == ApertureOf(rs[2]);
    assert emrBox == ApertureOf(rs[3]);
    assert embBox == ApertureOf(rs[4]);

    boxes := map[];
    boxes := boxes["mask_box" := maskBox];
    boxes := boxes["eml_box" := emlBox];
    boxes := boxes["emt_box" := emtBox];
    boxes := boxes["emr_box" := emrBox];
    boxes := boxes["emb_box" := embBox];
    assert boxes.Keys == set k | 0 <= k < 5 :: BoxNames[k] by {
      assert BoxNames[0] in boxes && BoxNames[1] in boxes && BoxNames[2] in boxes;
      assert BoxNames[3] in boxes && BoxNames[4] in boxes;
    }
  }

  /** `mask[r.rowStart:r.rowStop, r.colStart:r.colStop] = True` */
  method SetRegion(mask: array2<bool>, r: Rect)
    modifies mask
    ensures forall i, j :: 0 <= i < mask.Length0 && 0 <= j < mask.Length1 ==>
              mask[i, j] == (old(mask[i, j]) || InRect(r, mask.Length0, mask.Length1, i, j))
  {
    forall i, j | 0 <= i < mask.Length0 && 0 <= j < mask.Length1 && InRect(r, mask.Length0, mask.Length1, i, j) {
      mask[i, j] := true;
    }
  }
}
