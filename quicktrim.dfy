/**
  scripts/quicktrim.py: the data regions of an STA1600 frame. Each of the
  8 horizontal taps holds 1320 data columns followed by 180 overscan
  columns; each of the 2 vertical taps holds 5280 data rows followed by
  twice 20 overscan rows. The script lists the start and end of every data
  range, pairs them into slices, and keeps the columns and rows those
  slices cover.
*/
module Quicktrim {
  const HorizontalTaps: nat := 8
  const TapWidth: nat := 1320
  const OverscanWidth: nat := 180
  const VerticalTaps: nat := 2
  const TapHeight: nat := 5280
  const OverscanHeight: nat := 20

  /** `slice(start, end)` */
  datatype Slice = Slice(start: int, end: int)

  /** The data range of each of `taps` taps that are `pitch` apart and
      `width` long, in tap order. */
  function DataRanges(taps: nat, width: nat, pitch: nat): seq<Slice> {
    if taps == 0 then []
    else DataRanges(taps - 1, width, pitch) + [Slice((taps - 1) * pitch, (taps - 1) * pitch + width)]
  }

  /** `zip(starts, ends)` turned into slices: as many as the shorter list. */
  function Zip(starts: seq<int>, ends: seq<int>): (r: seq<Slice>)
    ensures |r| == if |starts| <= |ends| then |starts| else |ends|
    ensures forall k :: 0 <= k < |r| ==> r[k] == Slice(starts[k], ends[k])
  {
    if starts == [] || ends == [] then [] else [Slice(starts[0], ends[0])] + Zip(starts[1..], ends[1..])
  }

  /** The loops of scripts/quicktrim.py:39-42 and 47-50: tap `tap` (from 1)
      starts at `(tap - 1) * pitch` and ends `width` later. */
  method TapRanges(taps: nat, width: nat, pitch: nat) returns (starts: seq<int>, ends: seq<int>)
    ensures |starts| == |ends| == taps
    ensures Zip(starts, ends) == DataRanges(taps, width, pitch)
  {
    starts, ends := [], [];
    for tap := 1 to taps + 1
      invariant |starts| == |ends| == tap - 1
      invariant Zip(starts, ends) == DataRanges(tap - 1, width, pitch)
    {
      ZipSnoc(starts, ends, (tap - 1) * pitch, (tap - 1) * pitch + width);
      starts := starts + [(tap - 1) * pitch];
      ends := ends + [(tap - 1) * pitch + width];
    }
  }

  /** Pairing lists that grow together grows the pairing by one. */
  lemma ZipSnoc(starts: seq<int>, ends: seq<int>, s: int, e: int)
    requires |starts| == |ends|
    ensures Zip(starts + [s], ends + [e]) == Zip(starts, ends) + [Slice(s, e)]
  {
  }

  /** The loops of scripts/quicktrim.py:57-61: one slice per pair, built by
      concatenation. */
  method SliceList(starts: seq<int>, ends: seq<int>) returns (slices: seq<Slice>)
    ensures slices == Zip(starts, ends)
  {
    slices := [];
    var n := if |starts| <= |ends| then |starts| else |ends|;
    for k := 0 to n
      invariant |slices| == k
      invariant forall j :: 0 <= j < k ==> slices[j] == Slice(starts[j], ends[j])
    {
      slices := slices + [Slice(starts[k], ends[k])];
    }
  }

  /** scripts/quicktrim.py:26-61: the column slices and the row slices. */
  method Overscan() returns (xslices: seq<Slice>, yslices: seq<Slice>)
    ensures xslices == DataRanges(HorizontalTaps, TapWidth, TapWidth + OverscanWidth)
    ensures yslices == DataRanges(VerticalTaps, TapHeight, TapHeight + 2 * OverscanHeight)
  {
    var xstart, xend := TapRanges(HorizontalTaps, TapWidth, TapWidth + OverscanWidth);
    var ystart, yend := TapRanges(VerticalTaps, TapHeight, TapHeight + 2 * OverscanHeight);
    xslices := SliceList(xstart, xend);
    yslices := SliceList(ystart, yend);
  }

  /** Tap k covers [k * pitch, k * pitch + width). */
  lemma {:induction false} DataRangesAt(taps: nat, width: nat, pitch: nat)
    ensures |DataRanges(taps, width, pitch)| == taps
    ensures forall k :: 0 <= k < taps ==> DataRanges(taps, width, pitch)[k] == Slice(k * pitch, k * pitch + width)
  {
    if taps > 0 {
      DataRangesAt(taps - 1, width, pitch);
    }
  }

  /** The ranges are increasing and disjoint, each `width` long, with a gap
      of `pitch - width` between neighbours. */
  lemma RangesSeparated(taps: nat, width: nat, pitch: nat)
    requires width <= pitch
    ensures var r := DataRanges(taps, width, pitch);
            && (forall k :: 0 <= k < |r| ==> r[k].end - r[k].start == width)
            && (forall k :: 0 < k < |r| ==> r[k].start - r[k - 1].end == pitch - width)
            && forall k, l :: 0 <= k < l < |r| ==> r[k].end <= r[l].start
  {
    DataRangesAt(taps, width, pitch);
    var r := DataRanges(taps, width, pitch);
    forall k | 0 < k < |r|
      ensures r[k].start - r[k - 1].end == pitch - width
    {
      NextMultiple(k - 1, pitch);
    }
    forall k, l | 0 <= k < l < |r|
      ensures r[k].end <= r[l].start
    {
      NextMultiple(k, pitch);
      MulMonotone(k + 1, l, pitch);
    }
  }

  lemma MulMonotone(a: nat, b: nat, p: nat)
    requires a <= b
    ensures a * p <= b * p
  {
  }

  lemma NextMultiple(k: nat, p: nat)
    ensures (k + 1) * p == k * p + p
  {
  }

  /** The columns of the frame: 180 overscan columns between neighbouring
      data ranges, and the rows: 40 overscan rows between the two. */
  lemma FrameGaps()
    ensures var x := DataRanges(HorizontalTaps, TapWidth, TapWidth + OverscanWidth);
            && |x| == 8 && x[0] == Slice(0, 1320) && x[7] == Slice(10500, 11820)
            && forall k :: 0 < k < |x| ==> x[k].start - x[k - 1].end == 180
    ensures var y := DataRanges(VerticalTaps, TapHeight, TapHeight + 2 * OverscanHeight);
            && y == [Slice(0, 5280), Slice(5320, 10600)] && y[1].start - y[0].end == 40
  {
    RangesSeparated(HorizontalTaps, TapWidth, TapWidth + OverscanWidth);
    DataRangesAt(HorizontalTaps, TapWidth, TapWidth + OverscanWidth);
    DataRangesAt(VerticalTaps, TapHeight, TapHeight + 2 * OverscanHeight);
  }

  /** `range(a, b)` */
  function Range(a: int, b: int): (r: seq<int>)
    ensures |r| == if a <= b then b - a else 0
    ensures forall c :: c in r <==> a <= c < b
    decreases b - a
  {
    if a >= b then [] else [a] + Range(a + 1, b)
  }

  /** `np.r_[slices]`: the indices the slices cover, in slice order. */
  function Indices(slices: seq<Slice>): seq<int> {
    if slices == [] then []
    else Indices(slices[..|slices| - 1]) + Range(slices[|slices| - 1].start, slices[|slices| - 1].end)
  }

  /** An index is kept exactly when it lies in the frame's taps and is not
      an overscan index: its offset within its tap is below `width`. */
  lemma {:induction false} KeptIff(taps: nat, width: nat, pitch: nat)
    requires 0 < width <= pitch
    ensures forall c :: c in Indices(DataRanges(taps, width, pitch)) <==> 0 <= c < taps * pitch && c % pitch < width
    ensures |Indices(DataRanges(taps, width, pitch))| == taps * width
  {
    if taps > 0 {
      var t := taps - 1;
      KeptIff(t, width, pitch);
      var r := DataRanges(taps, width, pitch);
      var prev := Indices(DataRanges(t, width, pitch));
      var last := Range(t * pitch, t * pitch + width);
      assert r[..|r| - 1] == DataRanges(t, width, pitch);
      assert Indices(r) == prev + last;
      assert taps * pitch == t * pitch + pitch;
      assert taps * width == t * width + width;
      forall c
        ensures c in prev + last <==> 0 <= c < taps * pitch && c % pitch < width
      {
        NextBlock(c, t, width, pitch);
      }
    }
  }

  /** Adding block t to the first t blocks keeps the data offsets of the
      t + 1 blocks. */
  lemma NextBlock(c: int, t: nat, width: nat, pitch: nat)
    requires 0 < width <= pitch
    ensures || (0 <= c < t * pitch && c % pitch < width)
            || (t * pitch <= c < t * pitch + width)
            <==> 0 <= c < t * pitch + pitch && c % pitch < width
  {
    if t * pitch <= c < t * pitch + pitch {
      ModInBlock(c, t, pitch);
    }
  }

  /** Within block t, the remainder is the offset from the block's start. */
  lemma ModInBlock(c: int, t: nat, p: nat)
    requires p > 0 && t * p <= c < t * p + p
    ensures c % p == c - t * p
  {
    var q := c / p;
    var r := c % p;
    assert c == q * p + r;
    if q < t {
      MulMonotone(q + 1, t, p);
    } else if q > t {
      MulMonotone(t + 1, q, p);
    }
  }

  /** The trimmed frame keeps 8 x 1320 = 10560 columns and 2 x 5280 = 10560
      rows, none of them overscan. */
  lemma TrimmedSize()
    ensures |Indices(DataRanges(HorizontalTaps, TapWidth, TapWidth + OverscanWidth))| == 10560
    ensures |Indices(DataRanges(VerticalTaps, TapHeight, TapHeight + 2 * OverscanHeight))| == 10560
    ensures forall c :: c in Indices(DataRanges(HorizontalTaps, TapWidth, TapWidth + OverscanWidth)) <==>
              0 <= c < 12000 && c % 1500 < 1320
  {
    KeptIff(HorizontalTaps, TapWidth, TapWidth + OverscanWidth);
    KeptIff(VerticalTaps, TapHeight, TapHeight + 2 * OverscanHeight);
  }

  /** The name a trimmed frame is written under (scripts/quicktrim.py:90). */
  function TrimmedPath(fname: string): string {
    "./trimmed/" + "trimmed_" + fname
  }

  /** The frame's own name follows an 18-character prefix, so different
      frames are written to different files. */
  lemma TrimmedPathInjective(f: string, g: string)
    ensures |TrimmedPath(f)| == 18 + |f| && TrimmedPath(f)[18..] == f
    ensures TrimmedPath(f) == TrimmedPath(g) ==> f == g
  {
    assert TrimmedPath(f)[18..] == f;
    assert TrimmedPath(g)[18..] == g;
  }
}
