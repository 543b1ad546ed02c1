/**
  The multi-order sky map carried by a gravitational-wave alert and the two
  things the router computes from it (libraries/router.py:780-831): the most
  probable cell, and the 90 percent credible region written as a MOC file.

  Cells are indexed by NUNIQ, uniq = 4 * 4^level + ipix, as defined in section
  2.3.1 of the IVOA MOC Recommendation 1.1; a cell at `level` covers
  1 / (12 * 4^level) of the sphere.
*/
module Skymap {
  import opened Wrappers
  import Sorting

  /** One row of the sky-map table: its UNIQ index and its PROBDENSITY. */
  datatype Cell = Cell(uniq: int, density: real)

  datatype MapError =
    | EmptyMap     // numpy's argmax of an empty column raises ValueError
    | InvalidUniq  // astropy_healpix rejects a UNIQ below 4 (negative level)

  /** 4π steradians, as the double the library computes. */
  const SphereArea: real := 12.566370614359172

  /** The fraction of probability the credible region is cut at. */
  const Confidence: real := 0.9

  function Pow4(n: nat): (r: nat)
    ensures r >= 1
  {
    if n == 0 then 1 else 4 * Pow4(n - 1)
  }

  /** Number of pixels of the HEALPix tessellation at `level`. */
  function PixelCount(level: nat): nat {
    12 * Pow4(level)
  }

  /** NUNIQ of pixel `ipix` at `level`. */
  function Uniq(level: nat, ipix: nat): int {
    4 * Pow4(level) + ipix
  }

  /** `uniq_to_level_ipix(uniq)[0]`: the level whose NUNIQ range holds `uniq`. */
  function LevelOf(uniq: int): (level: nat)
    requires uniq >= 4
    ensures 4 * Pow4(level) <= uniq < 16 * Pow4(level)
  {
    if uniq < 16 then 0 else 1 + LevelOf(uniq / 4)
  }

  /** `uniq_to_level_ipix(uniq)[1]` */
  function IpixOf(uniq: int): nat
    requires uniq >= 4
  {
    uniq - 4 * Pow4(LevelOf(uniq))
  }

  lemma {:induction false} LevelUnique(uniq: int, level: nat)
    requires 4 * Pow4(level) <= uniq < 16 * Pow4(level)
    ensures LevelOf(uniq) == level
    decreases level
  {
    if level > 0 {
      assert Pow4(level) == 4 * Pow4(level - 1);
      LevelUnique(uniq / 4, level - 1);
    }
  }

  /** Decoding a NUNIQ gives back the level and pixel it was built from. */
  lemma UniqDecodes(level: nat, ipix: nat)
    requires ipix < PixelCount(level)
    ensures Uniq(level, ipix) >= 4
    ensures LevelOf(Uniq(level, ipix)) == level && IpixOf(Uniq(level, ipix)) == ipix
  {
    LevelUnique(Uniq(level, ipix), level);
  }

  /** Every NUNIQ is the encoding of a pixel that exists at its level. */
  lemma UniqEncodes(uniq: int)
    requires uniq >= 4
    ensures IpixOf(uniq) < PixelCount(LevelOf(uniq))
    ensures Uniq(LevelOf(uniq), IpixOf(uniq)) == uniq
  {
  }

  /** `nside_to_pixel_area(level_to_nside(level))` in steradians. */
  function PixelArea(level: nat): (a: real)
    ensures a > 0.0
  {
    SphereArea / (PixelCount(level) as real)
  }

  /** The pixels of one level tile the sphere, and each pixel is four of the
      next level: the area depends only on the level. */
  lemma PixelAreaPartitions(level: nat)
    ensures (PixelCount(level) as real) * PixelArea(level) == SphereArea
    ensures 4.0 * PixelArea(level + 1) == PixelArea(level)
  {
    var n := PixelCount(level) as real;
    assert PixelCount(level + 1) as real == 4.0 * n;
    calc {
      4.0 * PixelArea(level + 1);
      4.0 * (SphereArea / (4.0 * n));
      SphereArea / n;
    }
  }

  predicate ValidCells(cells: seq<Cell>) {
    forall k :: 0 <= k < |cells| ==> cells[k].uniq >= 4
  }

  function CellArea(c: Cell): real
    requires c.uniq >= 4
  {
    PixelArea(LevelOf(c.uniq))
  }

  /** Probability in one cell: pixel area times probability density. */
  function Mass(c: Cell): real
    requires c.uniq >= 4
  {
    CellArea(c) * c.density
  }

  /** `sum(prob[:n])` over the first n cells. */
  function PrefixMass(cells: seq<Cell>, n: nat): real
    requires ValidCells(cells) && n <= |cells|
  {
    if n == 0 then 0.0 else PrefixMass(cells, n - 1) + Mass(cells[n - 1])
  }

  /** `np.cumsum(prob)[j]`: the probability of the cells up to and including j. */
  function CumSum(cells: seq<Cell>, j: nat): real
    requires ValidCells(cells) && j < |cells|
  {
    PrefixMass(cells, j + 1)
  }

  /** `pixel_area[:n].sum()` */
  function PrefixArea(cells: seq<Cell>, n: nat): real
    requires ValidCells(cells) && n <= |cells|
  {
    if n == 0 then 0.0 else PrefixArea(cells, n - 1) + CellArea(cells[n - 1])
  }

  // ---------------------------------------------------------------------------
  // Peak

  /** `np.argmax(xs)`: the first index holding the largest value. */
  function ArgMax(xs: seq<real>): (i: nat)
    requires |xs| > 0
    ensures i < |xs|
    ensures forall j :: 0 <= j < |xs| ==> xs[j] <= xs[i]
    ensures forall j :: 0 <= j < i ==> xs[j] < xs[i]
  {
    if |xs| == 1 then 0
    else
      var k := ArgMax(xs[..|xs| - 1]);
      if xs[|xs| - 1] > xs[k] then |xs| - 1 else k
  }

  function Densities(cells: seq<Cell>): (ds: seq<real>)
    ensures |ds| == |cells| && forall k :: 0 <= k < |cells| ==> ds[k] == cells[k].density
  {
    seq(|cells|, k requires 0 <= k < |cells| => cells[k].density)
  }

  /** The most probable cell (router.py:781-785): its row and its HEALPix
      level and pixel. The conversion to sky coordinates is not modelled. */
  datatype Peak = Peak(row: nat, level: nat, ipix: nat)

  function PeakOf(cells: seq<Cell>): (r: Result<Peak, MapError>)
    ensures cells == [] ==> r == Err(EmptyMap)
    ensures r.Ok? ==> r.value.row < |cells|
  {
    if cells == [] then Err(EmptyMap)
    else
      var i := ArgMax(Densities(cells));
      var u := cells[i].uniq;
      if u < 4 then Err(InvalidUniq) else Ok(Peak(i, LevelOf(u), IpixOf(u)))
  }

  /** The peak has the largest density, every earlier row a strictly smaller
      one (ties go to the first row), and its level and pixel encode its UNIQ. */
  lemma PeakIsFirstMaximum(cells: seq<Cell>)
    requires PeakOf(cells).Ok?
    ensures var p := PeakOf(cells).value;
            && (forall j :: 0 <= j < |cells| ==> cells[j].density <= cells[p.row].density)
            && (forall j :: 0 <= j < p.row ==> cells[j].density < cells[p.row].density)
            && Uniq(p.level, p.ipix) == cells[p.row].uniq
  {
    var ds := Densities(cells);
    var i := ArgMax(ds);
    assert forall j :: 0 <= j < |cells| ==> ds[j] == cells[j].density;
  }

  // ---------------------------------------------------------------------------
  // Credible region

  /** `np.cumsum(prob).searchsorted(level)` for a cumulative sum read left to
      right: the first index whose running total reaches `level`, or the
      number of cells when none does. */
  function CrossingIndex(cells: seq<Cell>, level: real, from: nat): (i: nat)
    requires ValidCells(cells) && from <= |cells|
    requires forall j :: 0 <= j < from ==> CumSum(cells, j) < level
    ensures from <= i <= |cells|
    ensures forall j :: 0 <= j < i ==> CumSum(cells, j) < level
    ensures i < |cells| ==> CumSum(cells, i) >= level
    decreases |cells| - from
  {
    if from == |cells| then from
    else if CumSum(cells, from) >= level then from
    else CrossingIndex(cells, level, from + 1)
  }

  function Crossing(cells: seq<Cell>, level: real): (i: nat)
    requires ValidCells(cells)
    ensures i <= |cells|
    ensures forall j :: 0 <= j < i ==> CumSum(cells, j) < level
    ensures i < |cells| ==> CumSum(cells, i) >= level
  {
    CrossingIndex(cells, level, 0)
  }

  /** The first index is the same however it is searched for: a higher level
      is reached no earlier. */
  lemma CrossingMonotone(cells: seq<Cell>, lo: real, hi: real)
    requires ValidCells(cells) && lo <= hi
    ensures Crossing(cells, lo) <= Crossing(cells, hi)
  {
    var k := Crossing(cells, hi);
    if k < |cells| {
      assert CumSum(cells, k) >= lo;
    }
  }

  /** With no negative density the running total never decreases. */
  lemma {:induction false} PrefixMassMonotone(cells: seq<Cell>, m: nat, n: nat)
    requires ValidCells(cells) && m <= n <= |cells|
    requires forall k :: 0 <= k < |cells| ==> cells[k].density >= 0.0
    ensures PrefixMass(cells, m) <= PrefixMass(cells, n)
    decreases n - m
  {
    if m < n {
      PrefixMassMonotone(cells, m, n - 1);
      assert CellArea(cells[n - 1]) > 0.0;
      assert Mass(cells[n - 1]) >= 0.0;
    }
  }

  /** With no negative density the cumulative sum is sorted, and every
      running total from the crossing index on reaches the level: the first
      index found left to right is the insertion point that searchsorted's
      binary search returns on that sorted array. */
  lemma CrossingIsSearchsorted(cells: seq<Cell>, level: real)
    requires ValidCells(cells)
    requires forall k :: 0 <= k < |cells| ==> cells[k].density >= 0.0
    ensures forall a, b :: 0 <= a <= b < |cells| ==> CumSum(cells, a) <= CumSum(cells, b)
    ensures var i := Crossing(cells, level);
            && (forall j :: 0 <= j < i ==> CumSum(cells, j) < level)
            && (forall j :: i <= j < |cells| ==> CumSum(cells, j) >= level)
  {
    forall a, b | 0 <= a <= b < |cells|
      ensures CumSum(cells, a) <= CumSum(cells, b)
    {
      PrefixMassMonotone(cells, a + 1, b + 1);
    }
  }

  function ByDensity(c: Cell): real {
    c.density
  }

  /** The sky map after `skymap.sort('PROBDENSITY', reverse=True)`. */
  function SortedByDensity(cells: seq<Cell>): (s: seq<Cell>)
    ensures |s| == |cells| && multiset(s) == multiset(cells)
    ensures Sorting.SortedDesc(s, ByDensity)
  {
    Sorting.SortDesc(cells, ByDensity)
  }

  lemma SortedKeepsValid(cells: seq<Cell>)
    requires ValidCells(cells)
    ensures ValidCells(SortedByDensity(cells))
  {
    var s := SortedByDensity(cells);
    forall k | 0 <= k < |s| ensures s[k].uniq >= 4 {
      assert s[k] in multiset(cells);
    }
  }

  /** `skymap[:i]` with i the crossing index of the sorted map: the crossing
      cell itself is left out, as the router does. */
  function Region(sorted: seq<Cell>, level: real): (r: seq<Cell>)
    requires ValidCells(sorted)
    ensures r == sorted[..Crossing(sorted, level)]
  {
    sorted[..Crossing(sorted, level)]
  }

  /** What the region holds: strictly less than `level` of the probability,
      and adding the next cell would reach it; every cell in it is at least
      as dense as every cell left out. */
  lemma RegionIsCutBeforeCrossing(sorted: seq<Cell>, level: real)
    requires ValidCells(sorted) && Sorting.SortedDesc(sorted, ByDensity)
    requires level > 0.0
    ensures var n := |Region(sorted, level)|;
            && PrefixMass(sorted, n) < level
            && (n < |sorted| ==> PrefixMass(sorted, n) + Mass(sorted[n]) >= level)
            && forall a, b :: 0 <= a < n <= b < |sorted| ==> sorted[a].density >= sorted[b].density
  {
    var n := Crossing(sorted, level);
    if n > 0 {
      assert CumSum(sorted, n - 1) < level;
    }
    forall a, b | 0 <= a < n <= b < |sorted|
      ensures sorted[a].density >= sorted[b].density
    {
      assert ByDensity(sorted[a]) >= ByDensity(sorted[b]);
    }
  }

  lemma {:induction false} PrefixAreaMonotone(cells: seq<Cell>, m: nat, n: nat)
    requires ValidCells(cells) && m <= n <= |cells|
    ensures PrefixArea(cells, m) <= PrefixArea(cells, n)
    decreases n - m
  {
    if m < n {
      PrefixAreaMonotone(cells, m, n - 1);
    }
  }

  /** `area_90`, the summed pixel area of the region, grows with the level. */
  lemma RegionAreaMonotone(sorted: seq<Cell>, lo: real, hi: real)
    requires ValidCells(sorted) && lo <= hi
    ensures PrefixArea(sorted, Crossing(sorted, lo)) <= PrefixArea(sorted, Crossing(sorted, hi))
  {
    CrossingMonotone(sorted, lo, hi);
    PrefixAreaMonotone(sorted, Crossing(sorted, lo), Crossing(sorted, hi));
  }

  /** The UNIQ column of a table. */
  function UniqColumn(cells: seq<Cell>): (u: seq<int>)
    ensures |u| == |cells| && forall k :: 0 <= k < |cells| ==> u[k] == cells[k].uniq
  {
    seq(|cells|, k requires 0 <= k < |cells| => cells[k].uniq)
  }

  function AscendingKey(u: int): real {
    -(u as real)
  }

  /** The UNIQ column of the region after `sort('UNIQ')`. */
  function MocUniqs(region: seq<Cell>): (u: seq<int>)
    ensures |u| == |region|
  {
    Sorting.SortDesc(UniqColumn(region), AscendingKey)
  }

  /** The MOC file lists exactly the region's UNIQ values, in ascending order. */
  lemma MocIsSortedRegion(region: seq<Cell>)
    ensures var u := MocUniqs(region);
            && (forall a, b :: 0 <= a < b < |u| ==> u[a] <= u[b])
            && multiset(u) == multiset(UniqColumn(region))
  {
    var u := MocUniqs(region);
    forall a, b | 0 <= a < b < |u| ensures u[a] <= u[b] {
      assert AscendingKey(u[a]) >= AscendingKey(u[b]);
    }
  }

  function ByUniq(c: Cell): real {
    AscendingKey(c.uniq)
  }

  /** The sky map after `skymap90 = skymap[:i]; skymap90.sort('UNIQ')`: the
      slice is a view of the table, so the in-place sort reorders the table's
      own first i rows by ascending UNIQ and leaves the others where they were. */
  function SortPrefixByUniq(sorted: seq<Cell>, i: nat): (t: seq<Cell>)
    requires i <= |sorted|
    ensures |t| == |sorted| && multiset(t) == multiset(sorted)
    ensures t[i..] == sorted[i..]
    ensures multiset(t[..i]) == multiset(sorted[..i])
    ensures forall a, b :: 0 <= a < b < i ==> t[a].uniq <= t[b].uniq
  {
    var head := Sorting.SortDesc(sorted[..i], ByUniq);
    assert sorted == sorted[..i] + sorted[i..];
    var t := head + sorted[i..];
    assert t[..i] == head;
    forall a, b | 0 <= a < b < i ensures t[a].uniq <= t[b].uniq {
      assert ByUniq(head[a]) >= ByUniq(head[b]);
    }
    t
  }

  /** A table sorted by UNIQ has its UNIQ column sorted the same way. */
  lemma UniqColumnSortedDesc(s: seq<Cell>)
    requires Sorting.SortedDesc(s, ByUniq)
    ensures Sorting.SortedDesc(UniqColumn(s), AscendingKey)
  {
    var u := UniqColumn(s);
    forall a, b | 0 <= a < b < |u| ensures AscendingKey(u[a]) >= AscendingKey(u[b]) {
      assert ByUniq(s[a]) >= ByUniq(s[b]);
    }
  }

  /** Inserting a row by UNIQ inserts its UNIQ into the column at the same place. */
  lemma {:induction false} UniqColumnInsert(x: Cell, s: seq<Cell>)
    requires Sorting.SortedDesc(s, ByUniq)
    ensures Sorting.SortedDesc(UniqColumn(s), AscendingKey)
    ensures UniqColumn(Sorting.Insert(x, s, ByUniq)) == Sorting.Insert(x.uniq, UniqColumn(s), AscendingKey)
  {
    UniqColumnSortedDesc(s);
    if s != [] && ByUniq(x) < ByUniq(s[0]) {
      var tail := s[1..];
      assert Sorting.SortedDesc(tail, ByUniq) by {
        forall a, b | 0 <= a < b < |tail| ensures ByUniq(tail[a]) >= ByUniq(tail[b]) {
          assert tail[a] == s[a + 1] && tail[b] == s[b + 1];
        }
      }
      UniqColumnInsert(x, tail);
      assert UniqColumn(tail) == UniqColumn(s)[1..];
      assert UniqColumn([s[0]] + Sorting.Insert(x, tail, ByUniq))
             == [s[0].uniq] + UniqColumn(Sorting.Insert(x, tail, ByUniq));
    } else if s != [] {
      assert UniqColumn([x] + s) == [x.uniq] + UniqColumn(s);
    }
  }

  /** Sorting the rows by UNIQ and taking the column gives the column sorted. */
  lemma {:induction false} UniqColumnSort(s: seq<Cell>)
    ensures UniqColumn(Sorting.SortDesc(s, ByUniq)) == Sorting.SortDesc(UniqColumn(s), AscendingKey)
  {
    if s != [] {
      UniqColumnSort(s[1..]);
      assert UniqColumn(s[1..]) == UniqColumn(s)[1..];
      UniqColumnInsert(s[0], Sorting.SortDesc(s[1..], ByUniq));
    }
  }

  /** Once the MOC has been written, the sky map's first i rows hold, in
      order, exactly the UNIQ values the MOC file lists. */
  lemma MocMatchesSortedPrefix(sorted: seq<Cell>, i: nat)
    requires i <= |sorted|
    ensures UniqColumn(SortPrefixByUniq(sorted, i)[..i]) == MocUniqs(sorted[..i])
  {
    assert SortPrefixByUniq(sorted, i)[..i] == Sorting.SortDesc(sorted[..i], ByUniq);
    UniqColumnSort(sorted[..i]);
  }

  // ---------------------------------------------------------------------------
  // Everything the router derives from one sky map

  datatype Localization = Localization(
    peak: Peak,              // most probable cell
    sorted: seq<Cell>,       // the table as written to <id>-skymap.fits
    region: seq<Cell>,       // skymap[:i]
    moc: seq<int>            // the UNIQ column of <id>-90percent.moc.fits
  )

  /** router.py:781-831: peak, descending sort, crossing index, region and
      MOC column, with the library errors for an empty table or a bad UNIQ. */
  function Localize(cells: seq<Cell>): (r: Result<Localization, MapError>)
    ensures cells == [] ==> r == Err(EmptyMap)
    ensures cells != [] && ValidCells(cells) ==> r.Ok?
    ensures r.Ok? ==> ValidCells(cells)
    ensures r.Ok? ==> (&& multiset(r.value.sorted) == multiset(cells)
                       && Sorting.SortedDesc(r.value.sorted, ByDensity)
                       && ValidCells(r.value.sorted)
                       && |r.value.region| <= |r.value.sorted|
                       && r.value.region == r.value.sorted[..|r.value.region|]
                       && PrefixMass(r.value.sorted, |r.value.region|) < Confidence
                       && r.value.moc == MocUniqs(r.value.region))
    ensures r.Ok? ==> PeakOf(cells).Ok? && r.value.peak == PeakOf(cells).value
    ensures r.Ok? ==> && r.value.sorted == SortedByDensity(cells)
                      && r.value.region == Region(r.value.sorted, Confidence)
                      && (|r.value.region| < |r.value.sorted| ==>
                            PrefixMass(r.value.sorted, |r.value.region|) + Mass(r.value.sorted[|r.value.region|])
                            >= Confidence)
  {
    match PeakOf(cells)
    case Err(e) => Err(e)
    case Ok(p) =>
      if !ValidCells(cells) then Err(InvalidUniq)
      else
        var sorted := SortedByDensity(cells);
        SortedKeepsValid(cells);
        var region := Region(sorted, Confidence);
        RegionIsCutBeforeCrossing(sorted, Confidence);
        Ok(Localization(p, sorted, region, MocUniqs(region)))
  }
}
