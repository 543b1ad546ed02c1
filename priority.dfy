/**
  Survey tiling and target ranking (libraries/priority.py): the survey field
  list laid out in declination strips, its cache file, the galaxy-catalog
  cut by declination and by right ascension relative to the Sun, and the
  ranking of fields and galaxies by sky-map probability density.

  Trigonometry, the equatorial-to-galactic conversion, the Sun's position and
  the sky-map crossmatch are foreign library calls and enter as parameters.
*/
module Priority {
  import opened Wrappers
  import PyStr
  import Sorting

  /** The declination limit of the telescope (config.py). */
  const DecLimit: real := -40.0

  /** The latitude of the observatory (config.py). */
  const Latitude: real := 25.995789

  /** One row of the survey field table. The first row has no value in the
      `observations` and `moon_phase` columns. */
  datatype Field = Field(
    fieldId: string, ra: real, dec: real, l: real, b: real, program: string,
    exposureTime: real, cadence: int, ephemeris: int, period: int,
    observations: Option<int>, moonPhase: Option<int>)

  /** What field_generator needs from outside: the field size, the strip
      separation (derived from the camera's field of view), cos of an angle
      in degrees, and the galactic (l, b) of an (ra, dec) position. */
  datatype Geometry = Geometry(
    fieldSize: real,
    fieldSep: real,
    cosDeg: real -> real,
    galactic: (real, real) -> (real, real))

  /** `np.ceil(x)` as an integer. */
  function Ceil(x: real): (c: int)
    ensures x <= c as real < x + 1.0
  {
    -((-x).Floor)
  }

  function FieldNumber(g: Geometry): int
    requires g.fieldSize != 0.0
  {
    Ceil((90.0 + DecLimit) / g.fieldSize)
  }

  /** `declination_strips[idx]` */
  function StripDec(g: Geometry, idx: int): real {
    90.0 - (idx as real) * g.fieldSep
  }

  /** `nfr`: how many fields strip `idx` is cut into (none when the ceiling
      is not positive, as `range(int(nfr))` is then empty). */
  function TileCount(g: Geometry, idx: int): nat
    requires g.fieldSize != 0.0
  {
    var nfr := Ceil(360.0 * g.cosDeg(StripDec(g, idx)) / g.fieldSize);
    if nfr > 0 then nfr else 0
  }

  /** `ra_sep` */
  function RaSep(g: Geometry, idx: int): (s: real)
    requires g.fieldSize != 0.0 && TileCount(g, idx) > 0
    ensures s > 0.0
  {
    360.0 / (TileCount(g, idx) as real)
  }

  /** `ra_off`: odd strips start at RA 0, even strips half a step further. */
  function RaOffset(g: Geometry, idx: int): real
    requires g.fieldSize != 0.0 && TileCount(g, idx) > 0
  {
    if idx % 2 == 1 then 0.0 else 0.5 * RaSep(g, idx)
  }

  // ---------------------------------------------------------------------------
  // Field ids

  /** `hex(idx)` padded to at least two digits. */
  function Hex2(n: nat): string {
    var h := PyStr.Hex(n);
    if |h| == 1 then "0" + h else h
  }

  /** `hex(idy)` padded to at least three digits. */
  function Hex3(n: nat): string {
    var h := PyStr.Hex(n);
    if |h| == 1 then "00" + h else if |h| == 2 then "0" + h else h
  }

  function FieldId(idx: nat, idy: nat): string {
    Hex2(idx) + "." + Hex3(idy)
  }

  function DigitValue(c: char): nat {
    if '0' <= c <= '9' then c as nat - '0' as nat
    else if 'a' <= c <= 'f' then c as nat - 'a' as nat + 10
    else 0
  }

  /** The number a string of hexadecimal digits denotes. */
  function HexValue(s: string): nat {
    if s == [] then 0 else 16 * HexValue(s[..|s| - 1]) + DigitValue(s[|s| - 1])
  }

  lemma {:induction false} HexValueOfHex(n: nat)
    ensures HexValue(PyStr.Hex(n)) == n
    decreases n
  {
    if n >= 16 {
      var h := PyStr.Hex(n);
      HexValueOfHex(n / 16);
      assert h[..|h| - 1] == PyStr.Hex(n / 16);
      assert DigitValue(PyStr.HexChar(n % 16)) == n % 16;
    } else {
      assert DigitValue(PyStr.HexChar(n)) == n;
    }
  }

  lemma {:induction false} LeadingZero(s: string)
    ensures HexValue("0" + s) == HexValue(s)
    decreases |s|
  {
    if s != [] {
      LeadingZero(s[..|s| - 1]);
      assert ("0" + s)[..|s|] == "0" + s[..|s| - 1];
    }
  }

  /** The index of the first '.', or the length when there is none. */
  function DotIndex(s: string): (i: nat)
    ensures i <= |s| && (i < |s| ==> s[i] == '.')
    ensures forall j :: 0 <= j < i ==> s[j] != '.'
  {
    if s == [] then 0 else if s[0] == '.' then 0 else 1 + DotIndex(s[1..])
  }

  /** The strip number a field id encodes. */
  function StripOf(id: string): nat {
    HexValue(id[..DotIndex(id)])
  }

  /** The position in its strip a field id encodes. */
  function TileOf(id: string): nat {
    var i := DotIndex(id);
    if i < |id| then HexValue(id[i + 1..]) else 0
  }

  lemma Hex2Value(n: nat)
    ensures HexValue(Hex2(n)) == n
    ensures forall i :: 0 <= i < |Hex2(n)| ==> PyStr.IsHexDigit(Hex2(n)[i])
  {
    var h := PyStr.Hex(n);
    HexValueOfHex(n);
    if |h| == 1 {
      LeadingZero(h);
    }
  }

  lemma Hex3Value(n: nat)
    ensures HexValue(Hex3(n)) == n
  {
    var h := PyStr.Hex(n);
    HexValueOfHex(n);
    if |h| == 1 {
      LeadingZero(h);
      LeadingZero("0" + h);
      assert "00" + h == "0" + ("0" + h);
    } else if |h| == 2 {
      LeadingZero(h);
    }
  }

  /** In `a + "." + b` with no dot in `a`, the first dot ends `a`. */
  lemma DotAfter(a: string, b: string)
    requires forall j :: 0 <= j < |a| ==> a[j] != '.'
    ensures DotIndex(a + "." + b) == |a|
    ensures (a + "." + b)[..|a|] == a && (a + "." + b)[|a| + 1..] == b
  {
    var s := a + "." + b;
    var i := DotIndex(s);
    assert s[|a|] == '.';
    assert s[..|a|] == a;
  }

  /** A field id gives back the strip and position it was built from. */
  lemma FieldIdDecodes(idx: nat, idy: nat)
    ensures StripOf(FieldId(idx, idy)) == idx && TileOf(FieldId(idx, idy)) == idy
  {
    Hex2Value(idx);
    Hex3Value(idy);
    DotAfter(Hex2(idx), Hex3(idy));
  }

  /** Two fields of the generated grid have the same id only if they are the
      same strip and position; the first field, "00.000", is strip 0. */
  lemma FieldIdInjective(a: nat, b: nat, c: nat, d: nat)
    requires FieldId(a, b) == FieldId(c, d)
    ensures a == c && b == d
  {
    FieldIdDecodes(a, b);
    FieldIdDecodes(c, d);
  }

  // ---------------------------------------------------------------------------
  // The field list

  /** `(b < 15) or (b > -15)`, which every latitude satisfies. */
  function MoonPhase(b: real): int {
    if b < 15.0 || b > -15.0 then 1 else 0
  }

  /** The RA of field `idy` of strip `idx`: `idy * ra_sep + ra_off`. */
  function TileRa(g: Geometry, idx: nat, idy: nat): real
    requires g.fieldSize != 0.0 && idy < TileCount(g, idx)
  {
    (idy as real) * RaSep(g, idx) + RaOffset(g, idx)
  }

  /** Field `idy` of strip `idx`. */
  function Tile(g: Geometry, idx: nat, idy: nat): Field
    requires g.fieldSize != 0.0 && idy < TileCount(g, idx)
  {
    var ra := TileRa(g, idx, idy);
    var dec := StripDec(g, idx);
    var lb := g.galactic(ra, dec);
    Field(FieldId(idx, idy), ra, dec, lb.0, lb.1, "main_survey", 300.0, 1, 0, 0, Some(0), Some(MoonPhase(lb.1)))
  }

  /** The first `n` fields of strip `idx`. */
  function Tiles(g: Geometry, idx: nat, n: nat): (ts: seq<Field>)
    requires g.fieldSize != 0.0 && n <= TileCount(g, idx)
    ensures |ts| == n && forall t :: 0 <= t < n ==> ts[t] == Tile(g, idx, t)
  {
    seq(n, t requires 0 <= t < n => Tile(g, idx, t))
  }

  lemma TilesSnoc(g: Geometry, idx: nat, n: nat)
    requires g.fieldSize != 0.0 && n < TileCount(g, idx)
    ensures Tiles(g, idx, n + 1) == Tiles(g, idx, n) + [Tile(g, idx, n)]
  {
  }

  /** The fields of strips 1 .. k - 1. */
  function Strips(g: Geometry, k: nat): seq<Field>
    requires g.fieldSize != 0.0
  {
    if k <= 1 then [] else Strips(g, k - 1) + Tiles(g, k - 1, TileCount(g, k - 1))
  }

  /** The first row as the source writes it: the id of strip 0 and the
      galactic coordinates of the pole, but RA 90 and Dec 0. */
  function FirstRowAsWritten(g: Geometry): Field {
    var lb := g.galactic(0.0, 90.0);
    Field("00.000", 90.0, 0.0, lb.0, lb.1, "main_survey", 300.0, 1, 0, 0, None, None)
  }

  /** The first row at the pole, where strip 0 lies. */
  function FirstRow(g: Geometry): Field {
    var lb := g.galactic(0.0, 90.0);
    Field("00.000", 0.0, 90.0, lb.0, lb.1, "main_survey", 300.0, 1, 0, 0, None, None)
  }

  datatype FieldError = ZeroFieldSize   // ZeroDivisionError

  /** A field table that opens with `first` and continues strip by strip. */
  function FieldTable(g: Geometry, first: Field): Result<seq<Field>, FieldError> {
    if g.fieldSize == 0.0 then Err(ZeroFieldSize)
    else Ok([first] + Strips(g, if FieldNumber(g) > 1 then FieldNumber(g) else 1))
  }

  /** The table field_generator builds, with the first row as written. */
  function FieldList(g: Geometry): Result<seq<Field>, FieldError> {
    FieldTable(g, FirstRowAsWritten(g))
  }

  /** The table with its first row at the pole. */
  function CorrectedFieldList(g: Geometry): Result<seq<Field>, FieldError> {
    FieldTable(g, FirstRow(g))
  }

  /** As written, the table opens with a row whose galactic coordinates are
      those of the pole while its own position is on the equator, off strip
      0; the corrected table differs from it in that row's position only. */
  lemma FirstRowAsWrittenMisplaced(g: Geometry)
    ensures var f := FirstRowAsWritten(g);
            (f.l, f.b) == g.galactic(0.0, 90.0) && (f.ra, f.dec) != (0.0, 90.0)
            && f.dec != StripDec(g, 0)
    ensures FieldList(g).Ok? ==> FieldList(g).value[0] == FirstRowAsWritten(g)
    ensures FieldList(g).Ok? <==> CorrectedFieldList(g).Ok?
    ensures FieldList(g).Ok? ==>
              CorrectedFieldList(g).value == FieldList(g).value[0 := FirstRowAsWritten(g).(ra := 0.0, dec := 90.0)]
  {
  }

  /** priority.py:28-84: one strip per `idx`, alternating the RA offset with
      the `eo` toggle, one row per `idy`. */
  method GenerateFields(g: Geometry) returns (r: Result<seq<Field>, FieldError>)
    ensures r == FieldList(g)
  {
    if g.fieldSize == 0.0 {
      return Err(ZeroFieldSize);
    }
    var fields := [FirstRowAsWritten(g)];
    var fieldNumber := Ceil((90.0 + DecLimit) / g.fieldSize);
    var eo := 0;
    var idx := 1;
    while idx < fieldNumber
      invariant 1 <= idx && (idx <= fieldNumber || idx == 1)
      invariant eo == (if idx % 2 == 1 then 0 else 1)
      invariant fields == [FirstRowAsWritten(g)] + Strips(g, idx)
    {
      var dec := StripDec(g, idx);
      var nfr := Ceil(360.0 * g.cosDeg(dec) / g.fieldSize);
      var raSep := if nfr > 0 then 360.0 / (nfr as real) else 0.0;
      var raOff: real;
      if eo == 1 {
        raOff := 0.5 * raSep;
        eo := 0;
      } else {
        raOff := 0.0;
        eo := 1;
      }
      assert nfr > 0 ==> nfr == TileCount(g, idx) && raSep == RaSep(g, idx) && raOff == RaOffset(g, idx);
      ghost var before := fields;
      fields := AppendStrip(g, idx, dec, nfr, raSep, raOff, fields);
      StripsSnoc(g, idx, before, fields);
      ParityFlips(idx);
      idx := idx + 1;
    }
    return Ok(fields);
  }

  lemma ParityFlips(i: int)
    ensures (i + 1) % 2 == 1 <==> i % 2 != 1
  {
  }

  lemma StripsSnoc(g: Geometry, idx: nat, before: seq<Field>, after: seq<Field>)
    requires g.fieldSize != 0.0 && idx >= 1
    requires before == [FirstRowAsWritten(g)] + Strips(g, idx)
    requires after == before + Tiles(g, idx, TileCount(g, idx))
    ensures after == [FirstRowAsWritten(g)] + Strips(g, idx + 1)
  {
    var ts := Tiles(g, idx, TileCount(g, idx));
    assert Strips(g, idx + 1) == Strips(g, idx) + ts;
    SeqAssoc([FirstRowAsWritten(g)], Strips(g, idx), ts);
  }

  lemma SeqAssoc<T>(a: seq<T>, b: seq<T>, c: seq<T>)
    ensures (a + b) + c == a + (b + c)
  {
  }

  /** priority.py:55-84: the rows of strip `idx`, one per `idy`. */
  method AppendStrip(g: Geometry, idx: nat, dec: real, nfr: int, raSep: real, raOff: real, fields: seq<Field>)
    returns (r: seq<Field>)
    requires g.fieldSize != 0.0 && dec == StripDec(g, idx)
    requires nfr > 0 ==> nfr == TileCount(g, idx) && raSep == RaSep(g, idx) && raOff == RaOffset(g, idx)
    requires nfr <= 0 ==> TileCount(g, idx) == 0
    ensures r == fields + Tiles(g, idx, TileCount(g, idx))
  {
    r := fields;
    var idy := 0;
    while idy < nfr
      invariant 0 <= idy && (idy <= nfr || idy == 0)
      invariant r == fields + Tiles(g, idx, idy)
    {
      var ra := (idy as real) * raSep + raOff;
      assert ra == TileRa(g, idx, idy);
      var lb := g.galactic(ra, dec);
      var moonPhase: int := if lb.1 < 15.0 || lb.1 > -15.0 then 1 else 0;
      var field := Field(FieldId(idx, idy), ra, dec, lb.0, lb.1, "main_survey",
                         300.0, 1, 0, 0, Some(0), Some(moonPhase));
      assert field == Tile(g, idx, idy);
      TilesSnoc(g, idx, idy);
      r := r + [field];
      idy := idy + 1;
    }
  }

  /** Within a strip the fields are 360/nfr apart in RA, start at the strip's
      offset, and all lie in [0, 360). */
  lemma TilesCoverCircle(g: Geometry, idx: nat, idy: nat)
    requires g.fieldSize != 0.0 && idy < TileCount(g, idx)
    ensures 0.0 <= Tile(g, idx, idy).ra < 360.0
  {
    TileRaWithinCircle(g, idx, idy);
  }

  lemma TileRaWithinCircle(g: Geometry, idx: nat, idy: nat)
    requires g.fieldSize != 0.0 && idy < TileCount(g, idx)
    ensures 0.0 <= TileRa(g, idx, idy) < 360.0
  {
    StepsWithinCircle(idy, TileCount(g, idx), RaSep(g, idx), RaOffset(g, idx));
  }

  lemma StepsWithinCircle(y: nat, n: nat, sep: real, off: real)
    requires y < n && sep == 360.0 / (n as real) && 0.0 <= off <= 0.5 * sep
    ensures 0.0 <= (y as real) * sep + off < 360.0
  {
    RaBelowCircle(y as real, sep, off, n as real);
  }



  /** The first field of a strip sits at the strip's RA offset. */
  lemma TileFirst(g: Geometry, idx: nat)
    requires g.fieldSize != 0.0 && 0 < TileCount(g, idx)
    ensures Tile(g, idx, 0).ra == (if idx % 2 == 1 then 0.0 else 0.5 * RaSep(g, idx))
  {
    assert (0 as real) * RaSep(g, idx) == 0.0;
  }

  /** Consecutive fields of a strip are one RA step apart. */
  lemma TileStep(g: Geometry, idx: nat, idy: nat)
    requires g.fieldSize != 0.0 && idy + 1 < TileCount(g, idx)
    ensures Tile(g, idx, idy + 1).ra - Tile(g, idx, idy).ra == RaSep(g, idx)
  {
    TileRaStep(g, idx, idy);
  }

  lemma TileRaStep(g: Geometry, idx: nat, idy: nat)
    requires g.fieldSize != 0.0 && idy + 1 < TileCount(g, idx)
    ensures TileRa(g, idx, idy + 1) - TileRa(g, idx, idy) == RaSep(g, idx)
  {
    OneStep(TileRa(g, idx, idy), TileRa(g, idx, idy + 1), idy, RaSep(g, idx), RaOffset(g, idx));
  }

  lemma OneStep(a: real, b: real, y: nat, sep: real, off: real)
    requires a == (y as real) * sep + off && b == ((y + 1) as real) * sep + off
    ensures b - a == sep
  {
    assert ((y + 1) as real) * sep == (y as real) * sep + sep;
  }

  lemma RaBelowCircle(y: real, sep: real, off: real, n: real)
    requires 0.0 <= y && y + 0.5 < n && sep > 0.0 && 0.0 <= off <= 0.5 * sep && sep == 360.0 / n
    ensures 0.0 <= y * sep + off < 360.0
  {
    var d := n - (y + 0.5);
    assert d * sep > 0.0;
    assert n * sep == 360.0;
    assert y * sep + 0.5 * sep + d * sep == n * sep;
  }

  lemma {:induction false} StripsIds(g: Geometry, k: nat)
    requires g.fieldSize != 0.0
    ensures forall i :: 0 <= i < |Strips(g, k)| ==> 1 <= StripOf(Strips(g, k)[i].fieldId) < k
    ensures forall i, j :: 0 <= i < j < |Strips(g, k)| ==> Strips(g, k)[i].fieldId != Strips(g, k)[j].fieldId
    decreases k
  {
    if k > 1 {
      StripsIds(g, k - 1);
      var ts := Tiles(g, k - 1, TileCount(g, k - 1));
      forall t | 0 <= t < |ts|
        ensures StripOf(ts[t].fieldId) == k - 1 && TileOf(ts[t].fieldId) == t
      {
        FieldIdDecodes(k - 1, t);
      }
      AppendStripIds(Strips(g, k - 1), ts, k - 1);
    }
  }

  /** Appending strip `strip` to the fields of the strips before it keeps
      the ids distinct. */
  lemma AppendStripIds(prev: seq<Field>, ts: seq<Field>, strip: nat)
    requires forall i :: 0 <= i < |prev| ==> 1 <= StripOf(prev[i].fieldId) < strip
    requires forall i, j :: 0 <= i < j < |prev| ==> prev[i].fieldId != prev[j].fieldId
    requires forall t :: 0 <= t < |ts| ==> StripOf(ts[t].fieldId) == strip && TileOf(ts[t].fieldId) == t
    requires strip >= 1
    ensures forall i :: 0 <= i < |prev + ts| ==> 1 <= StripOf((prev + ts)[i].fieldId) < strip + 1
    ensures forall i, j :: 0 <= i < j < |prev + ts| ==> (prev + ts)[i].fieldId != (prev + ts)[j].fieldId
  {
    var all := prev + ts;
    forall i | 0 <= i < |all|
      ensures 1 <= StripOf(all[i].fieldId) < strip + 1
    {
      if i >= |prev| {
        assert all[i] == ts[i - |prev|];
      }
    }
    forall i, j | 0 <= i < j < |all|
      ensures all[i].fieldId != all[j].fieldId
    {
      if j >= |prev| {
        assert all[j] == ts[j - |prev|];
        if i >= |prev| {
          assert all[i] == ts[i - |prev|];
        }
      }
    }
  }

  /** The ids of the generated table are pairwise distinct. */
  lemma FieldIdsUnique(g: Geometry)
    requires FieldList(g).Ok?
    ensures var fs := FieldList(g).value;
            forall i, j :: 0 <= i < j < |fs| ==> fs[i].fieldId != fs[j].fieldId
  {
    var k := if FieldNumber(g) > 1 then FieldNumber(g) else 1;
    var rest := Strips(g, k);
    StripsIds(g, k);
    assert StripOf(FirstRowAsWritten(g).fieldId) == 0 by {
      assert FieldId(0, 0) == "00.000";
      FieldIdDecodes(0, 0);
    }
    PrependPoleIds(FirstRowAsWritten(g), rest);
  }

  /** With the first row at the pole, the table opens with a field on strip
      0, and every row, the first included, carries the galactic
      coordinates of its own position. */
  lemma FieldsAtOwnPosition(g: Geometry)
    requires CorrectedFieldList(g).Ok?
    ensures CorrectedFieldList(g).value[0] == FirstRow(g) && FirstRow(g).dec == StripDec(g, 0)
    ensures forall f :: f in CorrectedFieldList(g).value ==> (f.l, f.b) == g.galactic(f.ra, f.dec)
  {
    FieldSettings(g, if FieldNumber(g) > 1 then FieldNumber(g) else 1);
  }

  lemma PrependPoleIds(first: Field, rest: seq<Field>)
    requires StripOf(first.fieldId) == 0
    requires forall i :: 0 <= i < |rest| ==> 1 <= StripOf(rest[i].fieldId)
    requires forall i, j :: 0 <= i < j < |rest| ==> rest[i].fieldId != rest[j].fieldId
    ensures forall i, j :: 0 <= i < j < |[first] + rest| ==> ([first] + rest)[i].fieldId != ([first] + rest)[j].fieldId
  {
    var fs := [first] + rest;
    forall i, j | 0 <= i < j < |fs|
      ensures fs[i].fieldId != fs[j].fieldId
    {
      assert fs[j] == rest[j - 1];
      if i > 0 {
        assert fs[i] == rest[i - 1];
      }
    }
  }

  /** Every field after the first has constant survey settings, a moon phase
      of 1, and the galactic coordinates of its own position. */
  lemma FieldSettings(g: Geometry, k: nat)
    requires g.fieldSize != 0.0
    ensures forall f :: f in Strips(g, k) ==>
              && f.program == "main_survey" && f.exposureTime == 300.0 && f.cadence == 1
              && f.ephemeris == 0 && f.period == 0 && f.observations == Some(0)
              && f.moonPhase == Some(1)
              && (f.l, f.b) == g.galactic(f.ra, f.dec)
              && 0.0 <= f.ra < 360.0
  {
    forall f | f in Strips(g, k)
      ensures f.moonPhase == Some(1) && (f.l, f.b) == g.galactic(f.ra, f.dec) && 0.0 <= f.ra < 360.0
      ensures f.program == "main_survey" && f.exposureTime == 300.0 && f.cadence == 1
      ensures f.ephemeris == 0 && f.period == 0 && f.observations == Some(0)
    {
      var idx, idy := StripAndTile(g, k, f);
      TilesCoverCircle(g, idx, idy);
    }
  }

  lemma {:induction false} StripAndTile(g: Geometry, k: nat, f: Field) returns (idx: nat, idy: nat)
    requires g.fieldSize != 0.0 && f in Strips(g, k)
    ensures 1 <= idx < k && idy < TileCount(g, idx) && f == Tile(g, idx, idy)
    decreases k
  {
    var prev := Strips(g, k - 1);
    var ts := Tiles(g, k - 1, TileCount(g, k - 1));
    if f in prev {
      idx, idy := StripAndTile(g, k - 1, f);
    } else {
      assert f in ts;
      var t :| 0 <= t < |ts| && ts[t] == f;
      idx, idy := k - 1, t;
    }
  }

  /** What field_generator returns, and what `survey_fields.dat` holds
      afterwards. */
  datatype CacheStep = CacheStep(result: Result<seq<Field>, FieldError>, saved: Option<seq<Field>>)

  /** field_generator from the file's previous contents: a missing file or
      FIELD_GENERATION 'Y' builds the table and saves it, otherwise the saved
      table is read back. The file then holds what was returned, and a
      failure leaves it as it was. */
  function FieldGeneration(g: Geometry, saved: Option<seq<Field>>, regenerate: bool): (c: CacheStep)
    ensures saved.None? || regenerate ==> c.result == FieldList(g)
    ensures c.result.Ok? ==> c.saved == Some(c.result.value)
    ensures c.result.Err? ==> c.saved == saved
  {
    if saved.None? || regenerate then
      var r := FieldList(g);
      CacheStep(r, if r.Ok? then Some(r.value) else saved)
    else CacheStep(Ok(saved.value), saved)
  }

  /** Calling field_generator again right away returns the same table and
      leaves the file as it is. */
  lemma FieldGenerationRepeats(g: Geometry, saved: Option<seq<Field>>, regenerate: bool)
    ensures var c := FieldGeneration(g, saved, regenerate);
            FieldGeneration(g, c.saved, regenerate) == c
  {
  }

  /** The field list as read from or written to `survey_fields.dat`. */
  class FieldCache {
    var saved: Option<seq<Field>>
    const regenerate: bool   // FIELD_GENERATION == 'Y'

    constructor (saved: Option<seq<Field>>, regenerate: bool)
      ensures this.saved == saved && this.regenerate == regenerate
    {
      this.saved := saved;
      this.regenerate := regenerate;
    }

    /** field_generator: build and save the table when the file is missing or
      regeneration is requested, otherwise read the saved one back. */
    method FieldGenerator(g: Geometry) returns (r: Result<seq<Field>, FieldError>)
      modifies this
      ensures CacheStep(r, saved) == FieldGeneration(g, old(saved), regenerate)
    {
      if saved.None? || regenerate {
        r := GenerateFields(g);
        if r.Ok? {
          saved := Some(r.value);
        }
      } else {
        r := Ok(saved.value);
      }
    }
  }

  // ---------------------------------------------------------------------------
  // Galaxy targets

  /** A row of the GLADE+ catalog; None stands for a missing value. */
  datatype CatalogRow = CatalogRow(name: Option<string>, ra: Option<real>, dec: Option<real>, dist: Option<real>)

  datatype Galaxy = Galaxy(name: string, ra: real, dec: real, dist: real)

  /** `df.dropna()` for one row. */
  function Complete(row: CatalogRow): Option<Galaxy> {
    if row.name.Some? && row.ra.Some? && row.dec.Some? && row.dist.Some? then
      Some(Galaxy(row.name.value, row.ra.value, row.dec.value, row.dist.value))
    else None
  }

  function Abs(x: real): real {
    if x < 0.0 then -x else x
  }

  /** `alpha_obs_min` and `alpha_obs_max`: 45 degrees either side of the Sun. */
  function AlphaMin(sunRa: real): real {
    sunRa - (-15.0) + 30.0
  }

  function AlphaMax(sunRa: real): real {
    sunRa + (-15.0) - 30.0
  }

  /** Whether generate_targets keeps a complete row. */
  predicate Keep(x: Galaxy, sunRa: real) {
    var circum := 90.0 - Abs(x.dec) < Abs(Latitude);
    var alfaMin := x.ra > AlphaMin(sunRa);
    var alfaMax := x.ra <= AlphaMax(sunRa);
    && x.dec > -90.0 + Latitude
    && if AlphaMax(sunRa) > AlphaMin(sunRa) then (alfaMin && alfaMax) || circum
       else (alfaMin || alfaMax) || circum
  }

  /** priority.py:114-144: drop incomplete rows, then keep rows above the
      declination cut that are circumpolar or in the RA window. */
  function GenerateTargets(catalog: seq<CatalogRow>, sunRa: real): (r: seq<Galaxy>)
    ensures |r| <= |catalog|
  {
    if catalog == [] then []
    else
      var init := GenerateTargets(catalog[..|catalog| - 1], sunRa);
      match Complete(catalog[|catalog| - 1])
      case Some(x) => if Keep(x, sunRa) then init + [x] else init
      case None => init
  }

  /** The window's upper end is always 90 degrees below its lower end, so the
      wrap-around form applies: a galaxy is kept iff it lies above the
      declination cut and is circumpolar, or its RA is above the Sun's RA
      plus 45 degrees, or at most the Sun's RA minus 45 degrees (the ends
      are not wrapped into [0, 360)). */
  lemma TargetsWindowWraps(catalog: seq<CatalogRow>, sunRa: real, x: Galaxy)
    ensures AlphaMax(sunRa) < AlphaMin(sunRa)
    ensures x in GenerateTargets(catalog, sunRa) <==>
              && (exists row :: row in catalog && Complete(row) == Some(x))
              && x.dec > -90.0 + Latitude
              && (90.0 - Abs(x.dec) < Abs(Latitude) || x.ra > sunRa + 45.0 || x.ra <= sunRa - 45.0)
  {
    TargetsMembers(catalog, sunRa, x);
  }

  lemma {:induction false} TargetsMembers(catalog: seq<CatalogRow>, sunRa: real, x: Galaxy)
    ensures x in GenerateTargets(catalog, sunRa) <==>
              (exists row :: row in catalog && Complete(row) == Some(x)) && Keep(x, sunRa)
  {
    if catalog != [] {
      var init := catalog[..|catalog| - 1];
      var last := catalog[|catalog| - 1];
      TargetsMembers(init, sunRa, x);
      assert catalog == init + [last];
      if row :| row in catalog && Complete(row) == Some(x) {
        if row in init {
        } else {
          assert row == last;
        }
      }
      if row :| row in init && Complete(row) == Some(x) {
        assert row in catalog;
      }
    }
  }

  // ---------------------------------------------------------------------------
  // Ranking by sky-map probability

  datatype RankedField = RankedField(field: Field, prob: real)

  datatype RankedGalaxy = RankedGalaxy(galaxy: Galaxy, prob: real)

  function FieldProb(r: RankedField): real {
    r.prob
  }

  function GalaxyProb(r: RankedGalaxy): real {
    r.prob
  }

  /** The fields with the crossmatched density of each, in table order. */
  function WithFieldProb(fields: seq<Field>, density: (real, real) -> real): (r: seq<RankedField>)
    ensures |r| == |fields|
    ensures forall i :: 0 <= i < |r| ==> r[i].field == fields[i] && r[i].prob == density(fields[i].ra, fields[i].dec)
  {
    seq(|fields|, i requires 0 <= i < |fields| => RankedField(fields[i], density(fields[i].ra, fields[i].dec)))
  }

  function Retag(r: seq<RankedField>, program: string): (s: seq<RankedField>)
    ensures |s| == |r|
    ensures forall i :: 0 <= i < |s| ==> s[i].field == r[i].field.(program := program) && s[i].prob == r[i].prob
  {
    seq(|r|, i requires 0 <= i < |r| => RankedField(r[i].field.(program := program), r[i].prob))
  }

  /** sort_field_skymap: every field with its density, densest first, with
      the program renamed after the event. */
  function SortFieldSkymap(fields: seq<Field>, density: (real, real) -> real, event: string): (r: seq<RankedField>)
    ensures |r| == |fields|
  {
    Retag(Sorting.SortDesc(WithFieldProb(fields, density), FieldProb), "lvc_alert_" + event)
  }

  /** The ranked table is ordered by density and carries the event's
      program, each field with its own density. */
  lemma SortFieldSkymapRanks(fields: seq<Field>, density: (real, real) -> real, event: string)
    ensures var r := SortFieldSkymap(fields, density, event);
            && Sorting.SortedDesc(r, FieldProb)
            && forall i :: 0 <= i < |r| ==>
                 r[i].field.program == "lvc_alert_" + event && r[i].prob == density(r[i].field.ra, r[i].field.dec)
  {
    var ranked := WithFieldProb(fields, density);
    var sorted := Sorting.SortDesc(ranked, FieldProb);
    var r := SortFieldSkymap(fields, density, event);
    forall i, j | 0 <= i < j < |r| ensures FieldProb(r[i]) >= FieldProb(r[j]) {
      assert FieldProb(sorted[i]) >= FieldProb(sorted[j]);
    }
    forall i | 0 <= i < |r| ensures r[i].prob == density(r[i].field.ra, r[i].field.dec) {
      assert sorted[i] in multiset(ranked);
    }
  }

  /** The ranked table holds exactly the input fields, renamed. */
  lemma SortFieldSkymapKeepsFields(fields: seq<Field>, density: (real, real) -> real, event: string)
    ensures var r := SortFieldSkymap(fields, density, event);
            && (forall k :: 0 <= k < |fields| ==>
                  exists i :: 0 <= i < |r| && r[i].field == fields[k].(program := "lvc_alert_" + event))
            && (forall i :: 0 <= i < |r| ==>
                  exists k :: 0 <= k < |fields| && r[i].field == fields[k].(program := "lvc_alert_" + event))
  {
    var r := SortFieldSkymap(fields, density, event);
    forall i | 0 <= i < |r|
      ensures exists k :: 0 <= k < |fields| && r[i].field == fields[k].(program := "lvc_alert_" + event)
    {
      var k := SortedFieldFrom(fields, density, event, i);
    }
    forall k | 0 <= k < |fields|
      ensures exists i :: 0 <= i < |r| && r[i].field == fields[k].(program := "lvc_alert_" + event)
    {
      var i := SortedFieldTo(fields, density, event, k);
    }
  }

  lemma SortedFieldFrom(fields: seq<Field>, density: (real, real) -> real, event: string, i: nat) returns (k: nat)
    requires i < |fields|
    ensures k < |fields| && SortFieldSkymap(fields, density, event)[i].field == fields[k].(program := "lvc_alert_" + event)
  {
    var ranked := WithFieldProb(fields, density);
    var sorted := Sorting.SortDesc(ranked, FieldProb);
    assert sorted[i] in multiset(ranked);
    k :| 0 <= k < |ranked| && ranked[k] == sorted[i];
  }

  lemma SortedFieldTo(fields: seq<Field>, density: (real, real) -> real, event: string, k: nat) returns (i: nat)
    requires k < |fields|
    ensures i < |fields| && SortFieldSkymap(fields, density, event)[i].field == fields[k].(program := "lvc_alert_" + event)
  {
    var ranked := WithFieldProb(fields, density);
    var sorted := Sorting.SortDesc(ranked, FieldProb);
    assert ranked[k] in multiset(sorted);
    i :| 0 <= i < |sorted| && sorted[i] == ranked[k];
  }


  /** The galaxies with the crossmatched density of each, in table order. */
  function WithGalaxyProb(galaxies: seq<Galaxy>, density: (real, real) -> real): (r: seq<RankedGalaxy>)
    ensures |r| == |galaxies|
    ensures forall i :: 0 <= i < |r| ==> r[i] == RankedGalaxy(galaxies[i], density(galaxies[i].ra, galaxies[i].dec))
  {
    seq(|galaxies|, i requires 0 <= i < |galaxies| =>
          RankedGalaxy(galaxies[i], density(galaxies[i].ra, galaxies[i].dec)))
  }

  /** sort_galaxy_skymap: the 50 densest galaxies (all of them when fewer). */
  function SortGalaxySkymap(galaxies: seq<Galaxy>, density: (real, real) -> real): (r: seq<RankedGalaxy>)
    ensures |r| == if |galaxies| < 50 then |galaxies| else 50
  {
    var sorted := Sorting.SortDesc(WithGalaxyProb(galaxies, density), GalaxyProb);
    if |sorted| <= 50 then sorted else sorted[..50]
  }

  /** The kept galaxies are the head of a descending ranking of all of them:
      none left out is denser than any kept. */
  lemma SortGalaxySkymapTopFifty(galaxies: seq<Galaxy>, density: (real, real) -> real)
    ensures var all := Sorting.SortDesc(WithGalaxyProb(galaxies, density), GalaxyProb);
            var r := SortGalaxySkymap(galaxies, density);
            && multiset(all) == multiset(WithGalaxyProb(galaxies, density))
            && r == all[..|r|]
            && Sorting.SortedDesc(r, GalaxyProb)
            && forall i, j :: 0 <= i < |r| <= j < |all| ==> all[j].prob <= r[i].prob
  {
    var all := Sorting.SortDesc(WithGalaxyProb(galaxies, density), GalaxyProb);
    var r := SortGalaxySkymap(galaxies, density);
    forall i, j | 0 <= i < |r| <= j < |all| ensures all[j].prob <= r[i].prob {
      assert GalaxyProb(all[i]) >= GalaxyProb(all[j]);
    }
    forall i, j | 0 <= i < j < |r| ensures GalaxyProb(r[i]) >= GalaxyProb(r[j]) {
      assert GalaxyProb(all[i]) >= GalaxyProb(all[j]);
    }
  }
}
