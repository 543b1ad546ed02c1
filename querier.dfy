/**
  libraries/querier.py: the checks and the request that precede a
  Pan-STARRS 1 catalog query at MAST, and the clean-up of the table the
  cone search returns.

  The HTTP calls are outside the model: a search yields the URL and the
  query parameters it would send, the metadata request yields its URL, and
  the column names the metadata service lists are an argument. A `columns`
  argument of None and an empty list are the same here: both are falsy.
*/
module Querier {
  import opened Wrappers
  import PyStr

  datatype QueryError = ValueError(message: string)

  /** A query parameter value. */
  datatype Param = Int(i: int) | Real(r: real) | Text(s: string)

  /** A request to send: the URL and its query parameters. */
  datatype Request = Request(url: string, params: map<string, Param>)

  const DefaultBaseUrl: string := "https://catalogs.mast.stsci.edu/api/v0.1/panstarrs"

  // ---------------------------------------------------------------------------
  // ps1_checklegal

  const Releases: seq<string> := ["dr1", "dr2"]

  /** The tables a release offers. */
  function TableList(release: string): seq<string> {
    if release == "dr1" then ["mean", "stack"] else ["mean", "stack", "detection"]
  }

  /** `ps1_checklegal(table, release)`: the ValueError it raises, if any. */
  function CheckLegal(table: string, release: string): Option<QueryError> {
    if release !in Releases then
      Some(ValueError("Bad value for release (must be one of " + PyStr.Join(", ", Releases) + ")"))
    else if table !in TableList(release) then
      Some(ValueError("Bad value for table (for " + release + " must be one of "
                      + PyStr.Join(", ", TableList(release)) + ")"))
    else None
  }

  /** dr1 offers mean and stack, dr2 also detection; nothing else passes. */
  lemma CheckLegalIff(table: string, release: string)
    ensures CheckLegal(table, release).None? <==>
              || (release == "dr1" && table in {"mean", "stack"})
              || (release == "dr2" && table in {"mean", "stack", "detection"})
    ensures release != "dr1" && release != "dr2" ==>
              CheckLegal(table, release) == Some(ValueError("Bad value for release (must be one of " + "dr1, dr2" + ")"))
  {
    var joined := PyStr.Join(", ", Releases);
    assert joined == "dr1" + ", " + "dr2";
    assert joined == "dr1, dr2";
  }

  // ---------------------------------------------------------------------------
  // ps1_metadata and ps1_search

  /** The URL `ps1_metadata` requests, after the same check. */
  function MetadataUrl(table: string, release: string, baseurl: string): Result<string, QueryError> {
    match CheckLegal(table, release)
    case Some(e) => Err(e)
    case None => Ok(baseurl + "/" + release + "/" + table + "/metadata")
  }

  const Formats: set<string> := {"csv", "votable", "json"}

  /** The requested columns missing from the table, in request order: a
      column is compared lower-cased and stripped against the lower-cased
      metadata names. */
  function BadCols(columns: seq<string>, dcols: set<string>): seq<string> {
    if columns == [] then []
    else
      var prev := BadCols(columns[..|columns| - 1], dcols);
      var col := columns[|columns| - 1];
      if PyStr.Strip(PyStr.Lower(col)) !in dcols then prev + [col] else prev
  }

  /** A column is reported exactly when it is requested and its normalised
      form is not a table column. */
  lemma {:induction false} BadColsMembers(columns: seq<string>, dcols: set<string>)
    ensures forall c :: c in BadCols(columns, dcols) <==> c in columns && PyStr.Strip(PyStr.Lower(c)) !in dcols
    ensures |BadCols(columns, dcols)| <= |columns|
    decreases |columns|
  {
    if columns != [] {
      var init := columns[..|columns| - 1];
      BadColsMembers(init, dcols);
      assert columns == init + [columns[|columns| - 1]];
    }
  }

  /** The lower-cased metadata names: the keys of `dcols`. */
  function ColumnIndexSpec(names: seq<string>): set<string> {
    set n | n in names :: PyStr.Lower(n)
  }

  /** The `dcols` loop. */
  method ColumnIndex(names: seq<string>) returns (dcols: set<string>)
    ensures dcols == ColumnIndexSpec(names)
  {
    dcols := {};
    var i := 0;
    while i < |names|
      invariant 0 <= i <= |names|
      invariant dcols == ColumnIndexSpec(names[..i])
    {
      assert names[..i + 1] == names[..i] + [names[i]];
      dcols := dcols + {PyStr.Lower(names[i])};
      i := i + 1;
    }
    assert names[..i] == names;
  }

  /** The `badcols` loop. */
  method BadColumns(columns: seq<string>, dcols: set<string>) returns (badcols: seq<string>)
    ensures badcols == BadCols(columns, dcols)
  {
    badcols := [];
    var i := 0;
    while i < |columns|
      invariant 0 <= i <= |columns|
      invariant badcols == BadCols(columns[..i], dcols)
    {
      assert columns[..i + 1][..i] == columns[..i];
      var col := columns[i];
      if PyStr.Strip(PyStr.Lower(col)) !in dcols {
        badcols := badcols + [col];
      }
      i := i + 1;
    }
    assert columns[..i] == columns;
  }

  /** What `ps1_search` sends, or the ValueError it raises first: no
      parameters, an illegal table or release, an unknown format, then
      unknown columns. */
  function SearchSpec(table: string, release: string, format: string, columns: seq<string>, baseurl: string,
                      data: map<string, Param>, metadataNames: seq<string>): Result<Request, QueryError>
  {
    if data == map[] then Err(ValueError("You must specify some parameters for search"))
    else if CheckLegal(table, release).Some? then Err(CheckLegal(table, release).value)
    else if format !in Formats then Err(ValueError("Bad value for format"))
    else
      var url := baseurl + "/" + release + "/" + table + "." + format;
      if columns == [] then Ok(Request(url, data))
      else
        var badcols := BadCols(columns, ColumnIndexSpec(metadataNames));
        if badcols != [] then Err(ValueError("Some columns not found in table: " + PyStr.Join(", ", badcols)))
        else Ok(Request(url, data["columns" := Text("[" + PyStr.Join(",", columns) + "]")]))
  }

  /** libraries/querier.py:55-94 up to the request. */
  method Search(table: string, release: string, format: string, columns: seq<string>, baseurl: string,
                kw: map<string, Param>, metadataNames: seq<string>) returns (r: Result<Request, QueryError>)
    ensures r == SearchSpec(table, release, format, columns, baseurl, kw, metadataNames)
  {
    var data := kw;
    if data == map[] {
      return Err(ValueError("You must specify some parameters for search"));
    }
    var legal := CheckLegal(table, release);
    if legal.Some? {
      return Err(legal.value);
    }
    if format !in Formats {
      return Err(ValueError("Bad value for format"));
    }
    var url := baseurl + "/" + release + "/" + table + "." + format;
    if columns != [] {
      var dcols := ColumnIndex(metadataNames);
      var badcols := BadColumns(columns, dcols);
      if badcols != [] {
        return Err(ValueError("Some columns not found in table: " + PyStr.Join(", ", badcols)));
      }
      data := data["columns" := Text("[" + PyStr.Join(",", columns) + "]")];
    }
    return Ok(Request(url, data));
  }

  /** A search succeeds exactly when there are parameters, the table and
      release are legal, the format is known and every requested column is
      a table column; with no parameters it fails before any other check. */
  lemma SearchSucceeds(table: string, release: string, format: string, columns: seq<string>, baseurl: string,
                       data: map<string, Param>, metadataNames: seq<string>)
    ensures var r := SearchSpec(table, release, format, columns, baseurl, data, metadataNames);
            && (r.Ok? <==>
                  && data != map[] && CheckLegal(table, release).None? && format in Formats
                  && forall c :: c in columns ==> PyStr.Strip(PyStr.Lower(c)) in ColumnIndexSpec(metadataNames))
            && (data == map[] ==> r == Err(ValueError("You must specify some parameters for search")))
  {
    var dcols := ColumnIndexSpec(metadataNames);
    BadColsMembers(columns, dcols);
    var bad := BadCols(columns, dcols);
    if bad != [] {
      assert bad[0] in bad;
    }
  }

  /** A request goes to `baseurl/release/table.format` with the caller's
      parameters, plus "columns" set to "[c1,c2,...]" when columns were
      asked for. */
  lemma SearchRequestShape(table: string, release: string, format: string, columns: seq<string>, baseurl: string,
                           data: map<string, Param>, metadataNames: seq<string>)
    requires SearchSpec(table, release, format, columns, baseurl, data, metadataNames).Ok?
    ensures var q := SearchSpec(table, release, format, columns, baseurl, data, metadataNames).value;
            && q.url == baseurl + "/" + release + "/" + table + "." + format
            && q.params.Keys == data.Keys + (if columns == [] then {} else {"columns"})
            && (columns != [] ==> q.params["columns"] == Text("[" + PyStr.Join(",", columns) + "]"))
            && forall k :: k in data && k != "columns" ==> q.params[k] == data[k]
  {
  }

  /** The search and the metadata request name the same release and table,
      and differ in their last component. */
  lemma UrlsAgree(table: string, release: string, format: string, columns: seq<string>, baseurl: string,
                  data: map<string, Param>, metadataNames: seq<string>)
    requires SearchSpec(table, release, format, columns, baseurl, data, metadataNames).Ok?
    ensures MetadataUrl(table, release, baseurl).Ok?
    ensures var prefix := baseurl + "/" + release + "/" + table;
            && MetadataUrl(table, release, baseurl).value == prefix + "/metadata"
            && SearchSpec(table, release, format, columns, baseurl, data, metadataNames).value.url == prefix + "." + format
            && MetadataUrl(table, release, baseurl).value
               != SearchSpec(table, release, format, columns, baseurl, data, metadataNames).value.url
  {
    var prefix := baseurl + "/" + release + "/" + table;
    var m := prefix + "/metadata";
    var s := prefix + "." + format;
    assert m[|prefix|] == '/' && s[|prefix|] == '.';
  }

  // ---------------------------------------------------------------------------
  // ps1_cone

  /** The parameters `ps1_cone` passes on: a copy of the caller's keywords
      with ra, dec and radius set. */
  function ConeData(ra: real, dec: real, radius: real, kw: map<string, Param>): map<string, Param> {
    kw["ra" := Real(ra)]["dec" := Real(dec)]["radius" := Real(radius)]
  }

  /** ra, dec and radius override any keyword of the same name, every other
      keyword is passed on unchanged, and nothing else is added. */
  lemma ConeDataKeys(ra: real, dec: real, radius: real, kw: map<string, Param>)
    ensures var d := ConeData(ra, dec, radius, kw);
            && d.Keys == kw.Keys + {"ra", "dec", "radius"}
            && d["ra"] == Real(ra) && d["dec"] == Real(dec) && d["radius"] == Real(radius)
            && forall k :: k in kw && k !in {"ra", "dec", "radius"} ==> d[k] == kw[k]
  {
  }

  /** libraries/querier.py:30-37: a search with the cone's parameters. */
  function Cone(ra: real, dec: real, radius: real, table: string, release: string, format: string,
                columns: seq<string>, baseurl: string, kw: map<string, Param>, metadataNames: seq<string>)
    : Result<Request, QueryError>
  {
    SearchSpec(table, release, format, columns, baseurl, ConeData(ra, dec, radius, kw), metadataNames)
  }

  /** A cone search never fails for want of parameters. */
  lemma ConeNeverEmpty(ra: real, dec: real, radius: real, table: string, release: string, format: string,
                       columns: seq<string>, baseurl: string, kw: map<string, Param>, metadataNames: seq<string>)
    ensures Cone(ra, dec, radius, table, release, format, columns, baseurl, kw, metadataNames)
            != Err(ValueError("You must specify some parameters for search"))
  {
    assert "ra" in ConeData(ra, dec, radius, kw);
    var none := "You must specify some parameters for search";
    assert none[0] == 'Y';
    if CheckLegal(table, release).Some? {
      assert CheckLegal(table, release).value.message[0] == 'B';
    } else if format !in Formats {
      assert "Bad value for format"[0] == 'B';
    } else if columns != [] {
      var t := PyStr.Join(", ", BadCols(columns, ColumnIndexSpec(metadataNames)));
      assert ("Some columns not found in table: " + t)[0] == 'S';
    }
  }

  /** A request a cone search makes carries the cone's ra, dec and radius. */
  lemma ConeSendsCone(ra: real, dec: real, radius: real, table: string, release: string, format: string,
                      columns: seq<string>, baseurl: string, kw: map<string, Param>, metadataNames: seq<string>)
    requires Cone(ra, dec, radius, table, release, format, columns, baseurl, kw, metadataNames).Ok?
    ensures var q := Cone(ra, dec, radius, table, release, format, columns, baseurl, kw, metadataNames).value;
            q.params["ra"] == Real(ra) && q.params["dec"] == Real(dec) && q.params["radius"] == Real(radius)
  {
    SearchRequestShape(table, release, format, columns, baseurl, ConeData(ra, dec, radius, kw), metadataNames);
  }

  // ---------------------------------------------------------------------------
  // query_ps1_cone

  /** The fourteen columns the cone query asks for. */
  const ColumnNames: seq<string> := [
    "objID", "raMean", "decMean", "nDetections", "ng", "nr", "ni", "nz", "ny",
    "gMeanPSFMag", "rMeanPSFMag", "iMeanPSFMag", "zMeanPSFMag", "yMeanPSFMag"]

  /** The column specification of libraries/querier.py:148, the names joined
      by ", ". */
  const ColumnSpec: string := PyStr.Join(", ", ColumnNames)

  function StripAll(xs: seq<string>): (ys: seq<string>)
    ensures |ys| == |xs| && forall k :: 0 <= k < |xs| ==> ys[k] == PyStr.Strip(xs[k])
  {
    if xs == [] then [] else [PyStr.Strip(xs[0])] + StripAll(xs[1..])
  }

  /** Drops the empty entries and those starting with "#". */
  function KeepColumns(xs: seq<string>): (ys: seq<string>)
    ensures forall y :: y in ys <==> y in xs && y != [] && y[0] != '#'
  {
    if xs == [] then []
    else if xs[0] != [] && xs[0][0] != '#' then [xs[0]] + KeepColumns(xs[1..])
    else KeepColumns(xs[1..])
  }

  /** libraries/querier.py:148-150: split on ",", strip, drop blank and "#"
      entries. */
  function ParseColumns(spec: string): seq<string> {
    KeepColumns(StripAll(PyStr.Split(spec, ",")))
  }

  /** A comma-separated list of plain names parses back to the names. */
  lemma {:induction false} ParseJoined(names: seq<string>)
    requires |names| >= 1
    requires forall k :: 0 <= k < |names| ==> Plain(names[k])
    ensures ParseColumns(PyStr.Join(", ", names)) == names
    decreases |names|
  {
    var n0 := names[0];
    if |names| == 1 {
      ParseOne(n0);
    } else {
      var rest := PyStr.Join(", ", names[1..]);
      ParseJoined(names[1..]);
      ParseStep(n0, rest);
      assert names == [n0] + names[1..];
    }
  }

  /** A name as the column list holds it: letters and digits only, so no
      whitespace, no comma, and not a comment. */
  predicate Plain(w: string) {
    w != [] && forall c :: c in w ==> 'a' <= c <= 'z' || 'A' <= c <= 'Z' || '0' <= c <= '9'
  }

  /** A plain name has no comma and no whitespace. */
  lemma NoComma(w: string)
    requires Plain(w)
    ensures forall j :: 0 <= j < |w| ==> !PyStr.At(w, j, ",")
    ensures PyStr.Find(w, ",").None? && PyStr.NoSpace(w) && w[0] != '#'
  {
    assert w[0] in w;
    forall j | 0 <= j < |w|
      ensures w[j] != ',' && !PyStr.IsSpace(w[j]) && !PyStr.At(w, j, ",")
    {
      assert w[j] in w;
      assert j + 1 <= |w| ==> w[j..j + 1] == [w[j]];
    }
    PyStr.FindFirst(w, ",");
  }

  /** A single plain name parses to itself. */
  lemma ParseOne(w: string)
    requires Plain(w)
    ensures ParseColumns(PyStr.Join(", ", [w])) == [w]
  {
    assert PyStr.Join(", ", [w]) == w;
    NoComma(w);
    PyStr.SplitFirst(w, ",");
    PyStr.StripNoSpace(w);
    assert StripAll([w]) == [w];
    assert [w][1..] == [];
    assert KeepColumns([w]) == [w] + KeepColumns([]);
  }

  /** Parsing "w, rest" gives w and then what "rest" parses to. */
  lemma ParseStep(w: string, rest: string)
    requires Plain(w)
    ensures ParseColumns(w + ", " + rest) == [w] + ParseColumns(rest)
  {
    var s := w + ", " + rest;
    assert s == w + "," + (" " + rest);
    SplitAtComma(w, " " + rest);
    SplitLeadingSpace(rest);
    var tail := PyStr.Split(" " + rest, ",");
    var parts := PyStr.Split(rest, ",");
    NoComma(w);
    PyStr.StripNoSpace(w);
    StripLeadingSpace(parts[0]);
    assert StripAll(tail) == StripAll(parts) by {
      assert forall k :: 1 <= k < |tail| ==> tail[k] == parts[k];
    }
    var stripped := StripAll([w] + tail);
    assert stripped == [w] + StripAll(tail);
    assert stripped[1..] == StripAll(parts);
  }

  /** Splitting `w + "," + t` on "," cuts after `w` when `w` has no comma. */
  lemma SplitAtComma(w: string, t: string)
    requires Plain(w)
    ensures PyStr.Split(w + "," + t, ",") == [w] + PyStr.Split(t, ",")
  {
    var s := w + "," + t;
    NoComma(w);
    forall j | 0 <= j < |w|
      ensures !PyStr.At(s, j, ",")
    {
      assert !PyStr.At(w, j, ",");
      assert j + 1 <= |w| ==> s[j..j + 1] == w[j..j + 1];
    }
    assert s[|w|..|w| + 1] == ",";
    assert PyStr.At(s, |w|, ",");
    PyStr.FindFirst(s, ",");
    assert PyStr.Find(s, ",") == Some(|w|);
    assert s[..|w|] == w;
    assert s[|w| + 1..] == t;
  }

  /** Searching for "," after a leading space finds the same comma, one
      place later. */
  lemma {:induction false} FindFromShift(t: string, k: nat)
    ensures PyStr.FindFrom(" " + t, ",", k + 1) ==
              match PyStr.FindFrom(t, ",", k) case None => None case Some(i) => Some(i + 1)
    decreases |t| - k
  {
    var s := " " + t;
    if k + 1 <= |t| {
      assert s[k + 1..k + 2] == t[k..k + 1];
      if t[k..k + 1] != "," {
        FindFromShift(t, k + 1);
      }
    }
  }

  /** The first comma after a leading space is one place later. */
  lemma FindShift(t: string)
    ensures PyStr.Find(" " + t, ",") ==
              match PyStr.Find(t, ",") case None => None case Some(i) => Some(i + 1)
  {
    assert (" " + t)[0..1] == " ";
    FindFromShift(t, 0);
  }

  /** A leading space stays in the first piece. */
  lemma SplitLeadingSpace(t: string)
    ensures |PyStr.Split(" " + t, ",")| == |PyStr.Split(t, ",")|
    ensures PyStr.Split(" " + t, ",")[0] == " " + PyStr.Split(t, ",")[0]
    ensures PyStr.Split(" " + t, ",")[1..] == PyStr.Split(t, ",")[1..]
  {
    var s := " " + t;
    FindShift(t);
    match PyStr.Find(t, ",")
    case None =>
    case Some(i) =>
      assert s[..i + 1] == " " + t[..i];
      assert s[i + 2..] == t[i + 1..];
  }

  /** Stripping ignores one more leading space. */
  lemma StripLeadingSpace(t: string)
    ensures PyStr.Strip(" " + t) == PyStr.Strip(t)
  {
    assert (" " + t)[1..] == t;
  }

  /** Every name of the column list is plain. */
  lemma ColumnNamesPlain()
    ensures forall k :: 0 <= k < |ColumnNames| ==> Plain(ColumnNames[k])
  {
    forall k | 0 <= k < |ColumnNames|
      ensures Plain(ColumnNames[k])
    {
      var w := ColumnNames[k];
      forall c | c in w
        ensures 'a' <= c <= 'z' || 'A' <= c <= 'Z' || '0' <= c <= '9'
      {
      }
    }
  }

  /** The cone query asks for the fourteen columns, in order. */
  lemma ColumnSpecParses()
    ensures ParseColumns(ColumnSpec) == ColumnNames
  {
    ColumnNamesPlain();
    ParseJoined(ColumnNames);
  }

  // ---------------------------------------------------------------------------
  // The returned table

  /** A magnitude cell; NaN is what the code writes over the -999 sentinel. */
  datatype Cell = Value(x: real) | NaN

  const Bands: string := "grizy"

  /** The PSF magnitude column of a band. */
  function MagColumn(band: char): string {
    [band] + "MeanPSFMag"
  }

  function Unsentinel(cells: seq<Cell>): (r: seq<Cell>)
    ensures |r| == |cells|
    ensures forall k :: 0 <= k < |cells| ==> r[k] == if cells[k] == Value(-999.0) then NaN else cells[k]
  {
    if cells == [] then [] else [if cells[0] == Value(-999.0) then NaN else cells[0]] + Unsentinel(cells[1..])
  }

  class Table {
    var columns: map<string, seq<Cell>>

    constructor (columns: map<string, seq<Cell>>)
      ensures this.columns == columns
    {
      this.columns := columns;
    }

    /** libraries/querier.py:156-162: in each band's column present, -999.0
        becomes NaN; the names of the missing columns are reported, in band
        order. */
    method MaskSentinels() returns (missing: seq<string>)
      modifies this
      ensures columns == Masked(old(columns), Bands)
      ensures missing == Missing(old(columns), Bands)
    {
      missing := [];
      var i := 0;
      while i < |Bands|
        invariant 0 <= i <= |Bands|
        invariant columns == Masked(old(columns), Bands[..i])
        invariant missing == Missing(old(columns), Bands[..i])
      {
        assert Bands[..i + 1][..i] == Bands[..i];
        var col := MagColumn(Bands[i]);
        MaskedKeys(old(columns), Bands[..i], col);
        if col in columns {
          columns := columns[col := Unsentinel(columns[col])];
        } else {
          missing := missing + [col];
        }
        i := i + 1;
      }
      assert Bands[..i] == Bands;
    }
  }

  /** The columns after the bands so far have been handled. */
  function Masked(columns: map<string, seq<Cell>>, bands: string): map<string, seq<Cell>> {
    if bands == [] then columns
    else
      var prev := Masked(columns, bands[..|bands| - 1]);
      var col := MagColumn(bands[|bands| - 1]);
      if col in prev then prev[col := Unsentinel(prev[col])] else prev
  }

  /** The columns reported missing so far. */
  function Missing(columns: map<string, seq<Cell>>, bands: string): seq<string> {
    if bands == [] then []
    else
      var prev := Missing(columns, bands[..|bands| - 1]);
      var col := MagColumn(bands[|bands| - 1]);
      if col in columns then prev else prev + [col]
  }

  /** Masking keeps the set of columns. */
  lemma {:induction false} MaskedKeys(columns: map<string, seq<Cell>>, bands: string, col: string)
    ensures Masked(columns, bands).Keys == columns.Keys
    decreases |bands|
  {
    if bands != [] {
      MaskedKeys(columns, bands[..|bands| - 1], col);
    }
  }

  /** The five band names are distinct. */
  lemma MagColumnsDistinct(a: char, b: char)
    requires a != b
    ensures MagColumn(a) != MagColumn(b)
  {
    assert MagColumn(a)[0] == a && MagColumn(b)[0] == b;
  }

  /** After the loop no band column holds the sentinel, every other cell
      and every other column is unchanged, and lengths are kept. */
  lemma {:induction false} MaskedColumns(columns: map<string, seq<Cell>>, bands: string)
    requires forall i, j :: 0 <= i < j < |bands| ==> bands[i] != bands[j]
    ensures var m := Masked(columns, bands);
            && m.Keys == columns.Keys
            && (forall c :: c in columns && (forall b :: b in bands ==> c != MagColumn(b)) ==> m[c] == columns[c])
            && forall b :: b in bands && MagColumn(b) in columns ==> m[MagColumn(b)] == Unsentinel(columns[MagColumn(b)])
    decreases |bands|
  {
    MaskedKeys(columns, bands, "");
    if bands != [] {
      var init := bands[..|bands| - 1];
      var last := bands[|bands| - 1];
      MaskedColumns(columns, init);
      forall b | b in init
        ensures MagColumn(b) != MagColumn(last)
      {
        var i :| 0 <= i < |init| && init[i] == b;
        MagColumnsDistinct(b, last);
      }
      assert forall b :: b in bands ==> b in init || b == last;
    }
  }

  /** None of the five band columns holds -999.0 after masking, and no
      missing column is reported when all five are present. */
  lemma NoSentinelLeft(columns: map<string, seq<Cell>>)
    ensures var m := Masked(columns, Bands);
            forall b :: b in Bands && MagColumn(b) in m ==> Value(-999.0) !in m[MagColumn(b)]
  {
    assert forall i, j :: 0 <= i < j < |Bands| ==> Bands[i] != Bands[j];
    MaskedColumns(columns, Bands);
  }

  /** The reported columns are exactly the absent band columns, in band
      order. */
  lemma {:induction false} MissingIff(columns: map<string, seq<Cell>>, bands: string)
    ensures forall c :: c in Missing(columns, bands) <==> c !in columns && exists b :: b in bands && c == MagColumn(b)
    decreases |bands|
  {
    if bands != [] {
      var init := bands[..|bands| - 1];
      MissingIff(columns, init);
      assert forall b :: b in bands <==> b in init || b == bands[|bands| - 1];
    }
  }
}
