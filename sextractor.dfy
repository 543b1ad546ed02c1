/**
  lib/sextractor.py: the configuration files written for SourceExtractor
  (default.conv, default.param, default.sex), the run that reads them, and
  the filter over the catalog lines it writes, which collects the seeing
  in pixels and in arcseconds and the growth radius of each detected star.

  Files are text; a loop of `f.write(x)` appends to the text, and iterating
  over an open file yields its lines. SourceExtractor itself is outside the
  model: it finds the catalog name in default.sex and writes the catalog
  text it is given. `float()` is a parameter that yields None where Python
  raises ValueError.
*/
module Sextractor {
  import opened Wrappers
  import PyStr

  // ---------------------------------------------------------------------------
  // Text written piece by piece, and read back line by line

  /** Each of `xs` followed by `end`: what a loop of `f.write(x + end)`
      leaves in a file. */
  function Terminated(xs: seq<string>, end: string): string {
    if xs == [] then "" else xs[0] + end + Terminated(xs[1..], end)
  }

  lemma {:induction false} TerminatedSnoc(xs: seq<string>, end: string, i: nat)
    requires i < |xs|
    ensures Terminated(xs[..i + 1], end) == Terminated(xs[..i], end) + xs[i] + end
    decreases i
  {
    if i == 0 {
      assert xs[..1][1..] == [];
    } else {
      var ys := xs[1..];
      assert xs[..i + 1][1..] == ys[..i];
      assert xs[..i][1..] == ys[..i - 1];
      TerminatedSnoc(ys, end, i - 1);
      assert ys[i - 1] == xs[i];
      calc {
        Terminated(xs[..i + 1], end);
        xs[0] + end + Terminated(ys[..i], end);
        xs[0] + end + (Terminated(ys[..i - 1], end) + xs[i] + end);
        (xs[0] + end + Terminated(ys[..i - 1], end)) + xs[i] + end;
        Terminated(xs[..i], end) + xs[i] + end;
      }
    }
  }

  predicate OneLine(x: string) {
    '\n' !in x
  }

  /** The length of the first line of `s`. */
  function LineLength(s: string): (n: nat)
    ensures n <= |s| && (n < |s| ==> s[n] == '\n')
    ensures forall i :: 0 <= i < n ==> s[i] != '\n'
  {
    if s == [] || s[0] == '\n' then 0 else 1 + LineLength(s[1..])
  }

  /** `for line in f`: the lines of a text, each without its '\n'; text
      after the last '\n' is one more line. */
  function LinesOf(s: string): seq<string>
    decreases |s|
  {
    if s == [] then []
    else
      var n := LineLength(s);
      if n == |s| then [s] else [s[..n]] + LinesOf(s[n + 1..])
  }

  lemma LinesOfCons(x: string, rest: string)
    requires OneLine(x)
    ensures LinesOf(x + "\n" + rest) == [x] + LinesOf(rest)
  {
    var s := x + "\n" + rest;
    assert s[|x|] == '\n';
    assert forall i :: 0 <= i < |x| ==> s[i] == x[i] && x[i] in x;
    assert LineLength(s) == |x|;
    assert s[..|x|] == x;
    assert s[|x| + 1..] == rest;
  }

  /** A text of lines each ended by '\n' reads back as those lines. */
  lemma {:induction false} LinesOfTerminated(xs: seq<string>, tail: string)
    requires forall k :: 0 <= k < |xs| ==> OneLine(xs[k])
    ensures LinesOf(Terminated(xs, "\n") + tail) == xs + LinesOf(tail)
    decreases |xs|
  {
    if xs == [] {
      assert Terminated(xs, "\n") + tail == tail;
    } else {
      LinesOfStep(xs[0], Terminated(xs[1..], "\n"), tail);
      LinesOfTerminated(xs[1..], tail);
      var l := LinesOf(tail);
      assert [xs[0]] + (xs[1..] + l) == ([xs[0]] + xs[1..]) + l;
      assert [xs[0]] + xs[1..] == xs;
    }
  }

  lemma LinesOfStep(x: string, rest: string, tail: string)
    requires OneLine(x)
    ensures LinesOf(x + "\n" + rest + tail) == [x] + LinesOf(rest + tail)
  {
    assert x + "\n" + rest + tail == x + "\n" + (rest + tail);
    LinesOfCons(x, rest + tail);
  }

  /** A non-empty text without '\n' is one line. */
  lemma LinesOfOne(x: string)
    requires x != [] && OneLine(x)
    ensures LinesOf(x) == [x]
  {
    assert forall i :: 0 <= i < |x| ==> x[i] in x;
    assert LineLength(x) == |x|;
  }

  /** A single word: not empty, no whitespace. */
  predicate Token(w: string) {
    w != [] && forall c :: c in w ==> !PyStr.IsSpace(c)
  }

  lemma WordLengthOf(w: string, rest: string)
    requires Token(w)
    ensures PyStr.WordLength(w + " " + rest) == |w|
  {
    var s := w + " " + rest;
    assert PyStr.IsSpace(s[|w|]);
    var n := PyStr.WordLength(s);
    assert forall i :: 0 <= i < |w| ==> s[i] == w[i] && w[i] in w;
  }

  lemma WordsAfterSpace(s: string)
    ensures PyStr.Words(" " + s) == PyStr.Words(s)
  {
    assert (" " + s)[1..] == s;
    assert PyStr.TrimLeft(" " + s) == PyStr.TrimLeft(s);
  }

  /** Tokens each followed by a space split back into those tokens. */
  lemma {:induction false} WordsOfTerminated(ws: seq<string>)
    requires forall k :: 0 <= k < |ws| ==> Token(ws[k])
    ensures PyStr.Words(Terminated(ws, " ")) == ws
    decreases |ws|
  {
    if ws != [] {
      var w := ws[0];
      var rest := Terminated(ws[1..], " ");
      var s := Terminated(ws, " ");
      assert s == w + " " + rest;
      assert s[0] == w[0] && w[0] in w;
      assert PyStr.TrimLeft(s) == s;
      WordLengthOf(w, rest);
      assert s[..|w|] == w;
      assert s[|w|..] == " " + rest;
      WordsAfterSpace(rest);
      WordsOfTerminated(ws[1..]);
      assert ws == [w] + ws[1..];
    }
  }

  // ---------------------------------------------------------------------------
  // The files in the working directory

  class TextFiles {
    var files: map<string, string>

    constructor (files: map<string, string>)
      ensures this.files == files
    {
      this.files := files;
    }

    /** `open(name, "w")`: creates the file or empties it. */
    method Create(name: string)
      modifies this
      ensures files == old(files)[name := ""]
    {
      files := files[name := ""];
    }

    /** `f.write(text)` on a file opened for writing. */
    method Append(name: string, text: string)
      requires name in files
      modifies this
      ensures files == old(files)[name := old(files)[name] + text]
    {
      files := files[name := files[name] + text];
    }

    /** `rm name` run as a subprocess: a missing file only prints an error. */
    method Remove(name: string)
      modifies this
      ensures files == old(files) - {name}
    {
      files := files - {name};
    }
  }

  /** `for x in xs: f.write(x + end)` */
  method AppendEach(fs: TextFiles, name: string, xs: seq<string>, end: string)
    requires name in fs.files
    modifies fs
    ensures fs.files == old(fs.files)[name := old(fs.files)[name] + Terminated(xs, end)]
  {
    var i := 0;
    assert old(fs.files)[name] + Terminated(xs[..0], end) == old(fs.files)[name];
    assert old(fs.files)[name := old(fs.files)[name]] == old(fs.files);
    while i < |xs|
      invariant 0 <= i <= |xs|
      invariant fs.files == old(fs.files)[name := old(fs.files)[name] + Terminated(xs[..i], end)]
    {
      TerminatedSnoc(xs, end, i);
      fs.Append(name, xs[i] + end);
      assert old(fs.files)[name] + Terminated(xs[..i], end) + (xs[i] + end)
             == old(fs.files)[name] + Terminated(xs[..i + 1], end);
      i := i + 1;
    }
    assert xs[..i] == xs;
  }

  // ---------------------------------------------------------------------------
  // default.conv

  /** The rows of the 3x3 convolution mask file (the long comment row is
      written as a concatenation only to keep proofs about it short). */
  const ConvRows: seq<string> := [
    "CONV NORM",
    "# 3x3 ``all-" + "ground'' convol" + "ution mask with" + " FWHM = 2 pixels.",
    "1 2 1",
    "2 4 2",
    "1 2 1"]

  /** The pieces sextractor_conv writes, in order: every row but the last
      with its newline. */
  const ConvPieces: seq<string> :=
    [ConvRows[0] + "\n", ConvRows[1] + "\n", ConvRows[2] + "\n", ConvRows[3] + "\n", ConvRows[4]]

  /** lib/sextractor.py:58-75 */
  method WriteConv(fs: TextFiles)
    modifies fs
    ensures fs.files == old(fs.files)["default.conv" := Terminated(ConvPieces, "")]
  {
    WriteFile(fs, "default.conv", ConvPieces, "");
  }

  /** `open(name, "w")` followed by a loop of `f.write(x + end)`. */
  method WriteFile(fs: TextFiles, name: string, xs: seq<string>, end: string)
    modifies fs
    ensures fs.files == old(fs.files)[name := Terminated(xs, end)]
  {
    fs.Create(name);
    AppendEach(fs, name, xs, end);
    assert "" + Terminated(xs, end) == Terminated(xs, end);
  }

  lemma ConvRowsOneLine()
    ensures forall x | x in ConvRows :: OneLine(x)
  {
  }

  /** default.conv is the five rows, each but the last ended by a newline,
      and reads back as those rows. */
  lemma ConvFile()
    ensures Terminated(ConvPieces, "") == Terminated(ConvRows[..4], "\n") + ConvRows[4]
    ensures LinesOf(Terminated(ConvPieces, "")) == ConvRows
  {
    var rows := ConvRows;
    var p := ConvPieces;
    TerminatedPieces(p, rows, 0);
    assert rows[..4] + [rows[4]] == rows;
    ConvRowsOneLine();
    assert forall k :: 0 <= k < 4 ==> rows[..4][k] in rows;
    LinesOfTerminated(rows[..4], rows[4]);
    LinesOfOne(rows[4]);
  }

  /** Writing each row with its newline, the last without, is the same
      text as ending every row but the last with a newline. */
  lemma {:induction false} TerminatedPieces(pieces: seq<string>, rows: seq<string>, i: nat)
    requires |pieces| == |rows| && i < |rows|
    requires pieces[|pieces| - 1] == rows[|rows| - 1]
    requires forall k :: 0 <= k < |rows| - 1 ==> pieces[k] == rows[k] + "\n"
    ensures Terminated(pieces[i..], "") == Terminated(rows[i..|rows| - 1], "\n") + rows[|rows| - 1]
    decreases |rows| - i
  {
    var n := |rows| - 1;
    if i == n {
      assert pieces[i..][1..] == [];
      assert rows[i..n] == [];
    } else {
      TerminatedPieces(pieces, rows, i + 1);
      assert pieces[i..][1..] == pieces[i + 1..];
      assert rows[i..n][1..] == rows[i + 1..n];
      var t := Terminated(rows[i + 1..n], "\n");
      assert rows[i] + "\n" + "" + (t + rows[n]) == rows[i] + "\n" + t + rows[n];
    }
  }

  // ---------------------------------------------------------------------------
  // default.param

  /** The catalog columns, in the order SourceExtractor writes them. */
  const ParamNames: seq<string> := [
    "NUMBER", "ALPHAPEAK_J2000", "DELTAPEAK_J2000", "XPEAK_IMAGE", "YPEAK_IMAGE",
    "FLUX_GROWTH", "FLUXERR_BEST", "FLUX_GROWTHSTEP", "FWHM_IMAGE", "FWHM_WORLD"]

  /** lib/sextractor.py:112-133 */
  method WriteParam(fs: TextFiles)
    modifies fs
    ensures fs.files == old(fs.files)["default.param" := Terminated(ParamNames, "\n")]
  {
    WriteFile(fs, "default.param", ParamNames, "\n");
  }

  lemma ParamNamesOneLine()
    ensures forall x | x in ParamNames :: OneLine(x)
  {
  }

  /** default.param reads back as the ten column names, in order. */
  lemma ParamFile()
    ensures LinesOf(Terminated(ParamNames, "\n")) == ParamNames
  {
    ParamNamesOneLine();
    assert forall k :: 0 <= k < |ParamNames| ==> ParamNames[k] in ParamNames;
    LinesOfTerminated(ParamNames, "");
    assert LinesOf("") == [];
    assert Terminated(ParamNames, "\n") + "" == Terminated(ParamNames, "\n");
  }

  // ---------------------------------------------------------------------------
  // default.sex

  /** `str()` of sextractor_sex's default inverse gain and pixel scale. */
  const DefaultGain: string := "1.39"
  const DefaultPixelScale: string := "0.63"

  /** The configuration entries, one per line of default.sex, in the order
      of lib/sextractor.py:202-209; `gain` and `pixelScale` are the `str()`
      of the parameters. */
  function SexEntries(objectName: string, gain: string, pixelScale: string): (es: seq<seq<string>>)
    ensures |es| == 50
    ensures es[0] == ["CATALOG_NAME", objectName + ".cat"]
  {
    CatalogEntries(objectName) + DetectionEntries() + PhotometryEntries(gain, pixelScale)
    + BackgroundEntries() + AssocEntries()
  }

  function CatalogEntries(objectName: string): seq<seq<string>> {
    [["CATALOG_NAME", objectName + ".cat"], ["CATALOG_TYPE", "ASCII_HEAD"], ["PARAMETERS_NAME", "default.param"]]
  }

  function DetectionEntries(): seq<seq<string>> {
    [["DETECT_TYPE", "CCD"], ["DETECT_MINAREA", "3"], ["DETECT_THRESH", "5.0"],
     ["ANALYSIS_THRESH", "5.0"], ["FILTER", "Y"], ["FILTER_NAME", "default.conv"],
     ["DEBLEND_NTHRESH", "32"], ["DEBLEND_MINCONT", "0.005"],
     ["CLEAN", "Y"], ["CLEAN_PARAM", "1.0"], ["WEIGHT_TYPE", "NONE"], ["WEIGHT_IMAGE", "weight.fits"],
     ["FLAG_IMAGE", "flag.fits"], ["FLAG_TYPE", "OR"]]
  }

  function PhotometryEntries(gain: string, pixelScale: string): seq<seq<string>> {
    [["PHOT_APERTURES", "10"], ["PHOT_AUTOPARAMS", "2.5", "3.5"], ["PHOT_PETROPARAMS", "2.0", "3.5"],
     ["PHOT_AUTOAPERS", "0.0", "0.0"], ["SATUR_LEVEL", "65535.0"], ["SATUR_KEY", "SATURATE"],
     ["MAG_ZEROPOINT", "0.0"], ["MAG_GAMMA", "4.0"], ["GAIN", gain], ["GAIN_KEY", "GAIN"],
     ["PIXEL_SCALE", pixelScale], ["SEEING_FWHM", "1.2"], ["STARNNW_NAME", "default.nnw"]]
  }

  function BackgroundEntries(): seq<seq<string>> {
    [["BACK_TYPE", "AUTO"], ["BACK_VALUE", "0.0"], ["BACK_SIZE", "64"], ["BACK_FILTERSIZE", "3"],
     ["CHECKIMAGE_TYPE", "NONE"], ["CHECKIMAGE_NAME", "check.fits"],
     ["MEMORY_OBJSTACK", "3000"], ["MEMORY_PIXSTACK", "300000"], ["MEMORY_BUFSIZE", "1024"]]
  }

  function AssocEntries(): seq<seq<string>> {
    [["ASSOC_NAME", "sky.list"], ["ASSOC_DATA", "2", "3", "4"], ["ASSOC_PARAMS", "2", "3", "4"],
     ["ASSOC_RADIUS", "2.0"], ["ASSOC_TYPE", "NEAREST"], ["ASSOCSELEC_TYPE", "MATCHED"],
     ["VERBOSE_TYPE", "NORMAL"], ["HEADER_SUFFIX", ".head"], ["WRITE_XML", "N"], ["XML_NAME", "sex.xml"],
     ["XSL_URL", "file:///usr/local/share/sextractor/sextractor.xsl"]]
  }

  /** The GAIN and PIXEL_SCALE entries carry the two parameters. */
  lemma SexNumbers(objectName: string, gain: string, pixelScale: string)
    ensures SexEntries(objectName, gain, pixelScale)[25] == ["GAIN", gain]
    ensures SexEntries(objectName, gain, pixelScale)[27] == ["PIXEL_SCALE", pixelScale]
  {
    var es := SexEntries(objectName, gain, pixelScale);
    var front := CatalogEntries(objectName) + DetectionEntries();
    assert |front| == 17;
    assert es == front + PhotometryEntries(gain, pixelScale) + (BackgroundEntries() + AssocEntries());
    assert es[25] == PhotometryEntries(gain, pixelScale)[8];
    assert es[27] == PhotometryEntries(gain, pixelScale)[10];
  }

  /** The lines of default.sex: each entry's tokens, each followed by a
      space. */
  function SexLines(entries: seq<seq<string>>): (ls: seq<string>)
    ensures |ls| == |entries|
  {
    if entries == [] then [] else [Terminated(entries[0], " ")] + SexLines(entries[1..])
  }

  lemma {:induction false} SexLinesSnoc(entries: seq<seq<string>>, i: nat)
    requires i < |entries|
    ensures SexLines(entries[..i + 1]) == SexLines(entries[..i]) + [Terminated(entries[i], " ")]
    decreases i
  {
    if i == 0 {
      assert entries[..1][1..] == [];
    } else {
      assert entries[..i + 1][1..] == entries[1..][..i];
      assert entries[..i][1..] == entries[1..][..i - 1];
      SexLinesSnoc(entries[1..], i - 1);
    }
  }

  lemma {:induction false} SexLinesAt(entries: seq<seq<string>>, k: nat)
    requires k < |entries|
    ensures SexLines(entries)[k] == Terminated(entries[k], " ")
    decreases k
  {
    if k > 0 {
      SexLinesAt(entries[1..], k - 1);
    }
  }

  /** The text of default.sex for some entries. */
  function SexText(entries: seq<seq<string>>): string {
    Terminated(SexLines(entries), "\n")
  }

  /** lib/sextractor.py:135-218: `str()` of the two numeric parameters is
      taken as given. */
  method WriteSex(fs: TextFiles, objectName: string, gain: string, pixelScale: string)
    modifies fs
    ensures fs.files == old(fs.files)["default.sex" := SexText(SexEntries(objectName, gain, pixelScale))]
  {
    var configParameters := SexEntries(objectName, gain, pixelScale);
    WriteEntries(fs, configParameters);
  }

  /** The loop of sextractor_sex over its entries. */
  method WriteEntries(fs: TextFiles, entries: seq<seq<string>>)
    modifies fs
    ensures fs.files == old(fs.files)["default.sex" := SexText(entries)]
  {
    fs.Create("default.sex");
    var i := 0;
    assert entries[..0] == [];
    while i < |entries|
      invariant 0 <= i <= |entries|
      invariant fs.files == old(fs.files)["default.sex" := SexText(entries[..i])]
    {
      WriteEntry(fs, entries, i);
      i := i + 1;
    }
    assert entries[..i] == entries;
  }

  /** One entry of default.sex: its tokens, each followed by a space, and
      a newline. */
  method WriteEntry(fs: TextFiles, entries: seq<seq<string>>, i: nat)
    requires i < |entries| && "default.sex" in fs.files && fs.files["default.sex"] == SexText(entries[..i])
    modifies fs
    ensures fs.files == old(fs.files)["default.sex" := SexText(entries[..i + 1])]
  {
    AppendEach(fs, "default.sex", entries[i], " ");
    fs.Append("default.sex", "\n");
    SexLinesSnoc(entries, i);
    var ls := SexLines(entries[..i + 1]);
    TerminatedSnoc(ls, "\n", i);
    assert ls[..i] == SexLines(entries[..i]);
    assert ls[..i + 1] == ls;
    assert SexText(entries[..i]) + Terminated(entries[i], " ") + "\n" == SexText(entries[..i + 1]);
  }

  /** Read back line by line and split on whitespace, default.sex gives
      each entry on its own line, provided every token is one word. */
  lemma SexFileReadsBack(entries: seq<seq<string>>)
    requires forall k, j :: 0 <= k < |entries| && 0 <= j < |entries[k]| ==> Token(entries[k][j])
    ensures |LinesOf(SexText(entries))| == |entries|
    ensures forall k :: 0 <= k < |entries| ==> PyStr.Words(LinesOf(SexText(entries))[k]) == entries[k]
  {
    var ls := SexLines(entries);
    forall k | 0 <= k < |ls|
      ensures OneLine(ls[k])
    {
      SexLinesAt(entries, k);
      TerminatedOneLine(entries[k]);
    }
    LinesOfTerminated(ls, "");
    assert LinesOf("") == [];
    assert Terminated(ls, "\n") + "" == Terminated(ls, "\n");
    forall k | 0 <= k < |entries|
      ensures PyStr.Words(ls[k]) == entries[k]
    {
      SexLinesAt(entries, k);
      WordsOfTerminated(entries[k]);
    }
  }

  /** One-word tokens each followed by a space make one line. */
  lemma {:induction false} TerminatedOneLine(ws: seq<string>)
    requires forall j :: 0 <= j < |ws| ==> Token(ws[j])
    ensures OneLine(Terminated(ws, " "))
    decreases |ws|
  {
    if ws != [] {
      TerminatedOneLine(ws[1..]);
      assert Terminated(ws, " ") == ws[0] + " " + Terminated(ws[1..], " ");
      assert '\n' !in ws[0];
    }
  }

  /** The value SourceExtractor reads for `key`: the second word of the
      first line whose first word is `key`. */
  function ConfigValue(lines: seq<string>, key: string): Option<string> {
    if lines == [] then None
    else
      var ws := PyStr.Words(lines[0]);
      if |ws| >= 2 && ws[0] == key then Some(ws[1]) else ConfigValue(lines[1..], key)
  }

  /** SourceExtractor finds in default.sex the catalog name that
      sextractor later opens, `object_frame[:-4] + ".cat"`, whenever that
      name is a single word. */
  lemma CatalogNameAgrees(objectName: string, gain: string, pixelScale: string)
    requires PyStr.NoSpace(objectName)
    ensures ConfigValue(LinesOf(SexText(SexEntries(objectName, gain, pixelScale))), "CATALOG_NAME")
            == Some(objectName + ".cat")
  {
    CatalogToken(objectName);
    KeyToken();
    var es := SexEntries(objectName, gain, pixelScale);
    assert es != [] && es[0] == ["CATALOG_NAME", objectName + ".cat"];
    FirstValue(SexEntries(objectName, gain, pixelScale), "CATALOG_NAME", objectName + ".cat");
  }

  lemma KeyToken()
    ensures Token("CATALOG_NAME")
  {
  }

  lemma CatalogToken(objectName: string)
    requires PyStr.NoSpace(objectName)
    ensures Token(objectName + ".cat")
  {
    var cat := objectName + ".cat";
    forall c | c in cat
      ensures !PyStr.IsSpace(c)
    {
      var i :| 0 <= i < |cat| && cat[i] == c;
      if i < |objectName| {
        assert cat[i] == objectName[i];
      }
    }
  }

  /** The value of the first entry's key is read from the first line. */
  lemma FirstValue(es: seq<seq<string>>, key: string, value: string)
    requires es != [] && es[0] == [key, value] && Token(key) && Token(value)
    ensures ConfigValue(LinesOf(SexText(es)), key) == Some(value)
  {
    var first := Terminated(es[0], " ");
    TerminatedOneLine(es[0]);
    WordsOfTerminated(es[0]);
    var ls := SexLines(es);
    assert ls == [first] + SexLines(es[1..]);
    assert ls[1..] == SexLines(es[1..]);
    assert SexText(es) == first + "\n" + Terminated(SexLines(es[1..]), "\n");
    LinesOfCons(first, Terminated(SexLines(es[1..]), "\n"));
  }

  // ---------------------------------------------------------------------------
  // The catalog

  datatype CatalogError = IndexError | ValueError(text: string) | FileNotFound(name: string)

  /** What one star contributes: FWHM in pixels, FWHM in arcseconds, and
      the growth-curve step. */
  datatype Seeing = Seeing(pix: real, sky: real, growth: real)

  /** One catalog line after `line.split()`: skipped when it is a comment,
      or when its right ascension or declination is exactly zero; otherwise
      tokens 8, 9 and 7 are read. An index past the end raises IndexError
      and a token that is not a number ValueError. */
  function Row(t: seq<string>, float: string -> Option<real>): Result<Option<Seeing>, CatalogError> {
    if |t| < 1 then Err(IndexError)
    else if t[0] == "#" then Ok(None)
    else if |t| < 2 then Err(IndexError)
    else if t[1] == "0.0000000" then Ok(None)
    else if |t| < 3 then Err(IndexError)
    else if t[2] == "+0.0000000" then Ok(None)
    else if |t| < 9 then Err(IndexError)
    else if float(t[8]).None? then Err(ValueError(t[8]))
    else if |t| < 10 then Err(IndexError)
    else if float(t[9]).None? then Err(ValueError(t[9]))
    else if float(t[7]).None? then Err(ValueError(t[7]))
    else Ok(Some(Seeing(float(t[8]).value, float(t[9]).value * 3600.0, float(t[7]).value)))
  }

  /** The catalog columns the row reads are the ones default.param names:
      token 8 is FWHM_IMAGE, token 9 FWHM_WORLD (in degrees, hence × 3600),
      token 7 FLUX_GROWTHSTEP, and the zero tests look at ALPHAPEAK_J2000
      and DELTAPEAK_J2000. A line yields a star exactly when it is no
      comment, neither coordinate is the zero string, and the three
      columns are numbers. */
  lemma RowColumns(t: seq<string>, float: string -> Option<real>)
    ensures ParamNames[1] == "ALPHAPEAK_J2000" && ParamNames[2] == "DELTAPEAK_J2000"
    ensures ParamNames[7] == "FLUX_GROWTHSTEP" && ParamNames[8] == "FWHM_IMAGE" && ParamNames[9] == "FWHM_WORLD"
    ensures (Row(t, float).Ok? && Row(t, float).value.Some?) <==>
            (&& |t| >= 10 && t[0] != "#" && t[1] != "0.0000000" && t[2] != "+0.0000000"
             && float(t[7]).Some? && float(t[8]).Some? && float(t[9]).Some?)
    ensures Row(t, float).Ok? && Row(t, float).value.Some? ==>
              Row(t, float).value.value == Seeing(float(t[8]).value, float(t[9]).value * 3600.0, float(t[7]).value)
    ensures |t| >= 1 && t[0] == "#" ==> Row(t, float) == Ok(None)
  {
  }

  /** The three lists of sextractor's loop. */
  datatype Lists = Lists(pix: seq<real>, sky: seq<real>, growth: seq<real>)

  /** The catalog loop over the lines so far, stopping at the first error. */
  function Gather(lines: seq<string>, float: string -> Option<real>): Result<Lists, CatalogError> {
    if lines == [] then Ok(Lists([], [], []))
    else
      var prev := Gather(lines[..|lines| - 1], float);
      if prev.Err? then prev
      else
        match Row(PyStr.Words(lines[|lines| - 1]), float)
        case Err(e) => Err(e)
        case Ok(None) => prev
        case Ok(Some(s)) => Ok(Lists(prev.value.pix + [s.pix], prev.value.sky + [s.sky], prev.value.growth + [s.growth]))
  }

  /** The star rows of the lines, in order. */
  function Stars(lines: seq<string>, float: string -> Option<real>): seq<Seeing> {
    if lines == [] then []
    else
      var prev := Stars(lines[..|lines| - 1], float);
      match Row(PyStr.Words(lines[|lines| - 1]), float)
      case Ok(Some(s)) => prev + [s]
      case _ => prev
  }

  /** The loop fails exactly when some line raises. */
  lemma {:induction false} GatherFails(lines: seq<string>, float: string -> Option<real>)
    ensures Gather(lines, float).Err? <==> exists j :: 0 <= j < |lines| && Raises(lines[j], float)
    decreases |lines|
  {
    if lines != [] {
      var init := lines[..|lines| - 1];
      GatherFails(init, float);
      assert forall j :: 0 <= j < |init| ==> init[j] == lines[j];
      assert Gather(lines, float).Err? <==> Gather(init, float).Err? || Raises(lines[|lines| - 1], float);
    }
  }

  /** The line raises IndexError or ValueError. */
  predicate Raises(line: string, float: string -> Option<real>) {
    Row(PyStr.Words(line), float).Err?
  }

  /** When the loop succeeds the three lists grow together: entry k of
      each comes from the k-th star row. */
  lemma {:induction false} GatherStars(lines: seq<string>, float: string -> Option<real>)
    ensures Gather(lines, float).Ok? ==>
              var l := Gather(lines, float).value;
              var st := Stars(lines, float);
              && |l.pix| == |st| && |l.sky| == |st| && |l.growth| == |st|
              && forall k :: 0 <= k < |st| ==> Seeing(l.pix[k], l.sky[k], l.growth[k]) == st[k]
    decreases |lines|
  {
    if lines != [] {
      GatherStars(lines[..|lines| - 1], float);
    }
  }

  /** sextractor's loop over the catalog lines. */
  method ReadCatalog(lines: seq<string>, float: string -> Option<real>) returns (r: Result<Lists, CatalogError>)
    ensures r == Gather(lines, float)
  {
    var seeingPixList: seq<real> := [];
    var seeingSkyList: seq<real> := [];
    var growthRadiusList: seq<real> := [];
    var i := 0;
    while i < |lines|
      invariant 0 <= i <= |lines|
      invariant Gather(lines[..i], float) == Ok(Lists(seeingPixList, seeingSkyList, growthRadiusList))
    {
      assert lines[..i + 1][..i] == lines[..i];
      var row := Row(PyStr.Words(lines[i]), float);
      if row.Err? {
        GatherStops(lines, float, i + 1);
        return Err(row.error);
      }
      if row.value.Some? {
        var s := row.value.value;
        seeingPixList := seeingPixList + [s.pix];
        seeingSkyList := seeingSkyList + [s.sky];
        growthRadiusList := growthRadiusList + [s.growth];
      }
      i := i + 1;
    }
    assert lines[..i] == lines;
    return Ok(Lists(seeingPixList, seeingSkyList, growthRadiusList));
  }

  /** Once a line has raised, the later lines change nothing. */
  lemma {:induction false} GatherStops(lines: seq<string>, float: string -> Option<real>, i: nat)
    requires i <= |lines| && Gather(lines[..i], float).Err?
    ensures Gather(lines, float) == Gather(lines[..i], float)
    decreases |lines|
  {
    if i == |lines| {
      assert lines[..i] == lines;
    } else {
      var init := lines[..|lines| - 1];
      assert init[..i] == lines[..i];
      GatherStops(init, float, i);
    }
  }

  function Sum(xs: seq<real>): real {
    if xs == [] then 0.0 else Sum(xs[..|xs| - 1]) + xs[|xs| - 1]
  }

  /** `np.mean`; None stands for the NaN of an empty list. */
  function Mean(xs: seq<real>): Option<real> {
    if xs == [] then None else Some(Sum(xs) / |xs| as real)
  }

  lemma {:induction false} SumBounds(xs: seq<real>, lo: real, hi: real)
    requires forall i :: 0 <= i < |xs| ==> lo <= xs[i] <= hi
    ensures |xs| as real * lo <= Sum(xs) <= |xs| as real * hi
    decreases |xs|
  {
    if xs != [] {
      SumBounds(xs[..|xs| - 1], lo, hi);
    }
  }

  /** The mean of values in [lo, hi] lies in [lo, hi]. */
  lemma MeanBounds(xs: seq<real>, lo: real, hi: real)
    requires xs != [] && forall i :: 0 <= i < |xs| ==> lo <= xs[i] <= hi
    ensures Mean(xs).Some? && lo <= Mean(xs).value <= hi
  {
    SumBounds(xs, lo, hi);
    var n := |xs| as real;
    assert Sum(xs) / n * n == Sum(xs);
  }

  /** What sextractor returns: the mean seeing in pixels, in arcseconds,
      and the mean growth radius. */
  datatype Means = Means(pix: Option<real>, sky: Option<real>, growth: Option<real>)

  function Summary(catalog: string, float: string -> Option<real>): Result<Means, CatalogError> {
    var g := Gather(LinesOf(catalog), float);
    if g.Err? then Err(g.error) else Ok(Means(Mean(g.value.pix), Mean(g.value.sky), Mean(g.value.growth)))
  }

  /** The working directory once the four configuration files are written. */
  function Configured(files: map<string, string>, objectName: string, nnw: string): map<string, string> {
    files["default.conv" := Terminated(ConvPieces, "")]["default.nnw" := nnw]
         ["default.param" := Terminated(ParamNames, "\n")]
         ["default.sex" := SexText(SexEntries(objectName, DefaultGain, DefaultPixelScale))]
  }

  /** The files sextractor leaves: its configuration files written, the
      catalog written, and default.conv and default.nnw removed. */
  function AfterRun(files: map<string, string>, objectName: string, nnw: string, extracted: string)
    : map<string, string>
  {
    Leave(Configured(files, objectName, nnw), objectName + ".cat", extracted)
  }

  /** The catalog written and the two removed. */
  function Leave(files: map<string, string>, catalog: string, extracted: string): map<string, string> {
    files[catalog := extracted] - {"default.conv"} - {"default.nnw"}
  }

  lemma LeaveHas(files: map<string, string>, catalog: string, extracted: string)
    requires catalog != "default.conv" && catalog != "default.nnw"
    ensures catalog in Leave(files, catalog, extracted) && Leave(files, catalog, extracted)[catalog] == extracted
  {
  }

  /** lib/sextractor.py:11-56. The network-weights file `nnw` is written and
      removed again; SourceExtractor writes `extracted` to the catalog named
      in default.sex. When the frame name holds no whitespace, the run
      leaves the catalog under the name sextractor opens, and returns the
      means of the star rows of `extracted`. */
  method RunSextractor(fs: TextFiles, objectFrame: string, nnw: string, extracted: string, float: string -> Option<real>)
    returns (r: Result<Means, CatalogError>)
    modifies fs
    ensures PyStr.NoSpace(objectFrame) ==>
              && r == Summary(extracted, float)
              && fs.files == AfterRun(old(fs.files), PyStr.DropLast(objectFrame, 4), nnw, extracted)
  {
    var objectName := PyStr.DropLast(objectFrame, 4);
    Extract(fs, objectName, nnw, extracted);
    if PyStr.NoSpace(objectFrame) {
      DropLastNoSpace(objectFrame, 4);
      ExtractedCatalog(old(fs.files), objectName, nnw, extracted);
      CatalogNotConfig(objectName);
      LeaveHas(Configured(old(fs.files), objectName, nnw), objectName + ".cat", extracted);
    }
    r := ReadSummary(fs, objectName + ".cat", float);
  }

  /** Everything up to reading the catalog: the configuration written,
      SourceExtractor run, and default.conv and default.nnw removed. */
  method Extract(fs: TextFiles, objectName: string, nnw: string, extracted: string)
    modifies fs
    ensures fs.files == Extracted(old(fs.files), objectName, nnw, extracted)
  {
    WriteConfig(fs, objectName, nnw);
    RunExtractor(fs, extracted);
    fs.Remove("default.conv");
    fs.Remove("default.nnw");
  }

  /** The files once SourceExtractor has run and the two removed. */
  function Extracted(files: map<string, string>, objectName: string, nnw: string, extracted: string)
    : map<string, string>
  {
    var c := Configured(files, objectName, nnw);
    var name := ConfigValue(LinesOf(c["default.sex"]), "CATALOG_NAME");
    if name.Some? then Leave(c, name.value, extracted) else c - {"default.conv"} - {"default.nnw"}
  }

  /** With a frame name free of whitespace, SourceExtractor writes the
      catalog under the name sextractor opens. */
  lemma ExtractedCatalog(files: map<string, string>, objectName: string, nnw: string, extracted: string)
    requires PyStr.NoSpace(objectName)
    ensures Extracted(files, objectName, nnw, extracted) == AfterRun(files, objectName, nnw, extracted)
  {
    CatalogNameAgrees(objectName, DefaultGain, DefaultPixelScale);
    ConfiguredSex(files, objectName, nnw);
  }

  lemma ConfiguredSex(files: map<string, string>, objectName: string, nnw: string)
    ensures "default.sex" in Configured(files, objectName, nnw)
    ensures Configured(files, objectName, nnw)["default.sex"] == SexText(SexEntries(objectName, DefaultGain, DefaultPixelScale))
  {
  }

  /** Opening the catalog and the loop over its lines. */
  method ReadSummary(fs: TextFiles, catalogFile: string, float: string -> Option<real>)
    returns (r: Result<Means, CatalogError>)
    ensures catalogFile in fs.files ==> r == Summary(fs.files[catalogFile], float)
  {
    if catalogFile !in fs.files {
      return Err(FileNotFound(catalogFile));
    }
    var lists := ReadCatalog(LinesOf(fs.files[catalogFile]), float);
    if lists.Err? {
      return Err(lists.error);
    }
    return Ok(Means(Mean(lists.value.pix), Mean(lists.value.sky), Mean(lists.value.growth)));
  }

  lemma DropLastNoSpace(s: string, k: nat)
    requires PyStr.NoSpace(s)
    ensures PyStr.NoSpace(PyStr.DropLast(s, k))
  {
    var r := PyStr.DropLast(s, k);
    forall i | 0 <= i < |r|
      ensures !PyStr.IsSpace(r[i])
    {
      assert r[i] == s[i];
    }
  }

  /** `sex` as a subprocess: SourceExtractor reads default.sex and writes
      the catalog text `extracted` under the CATALOG_NAME it finds there. */
  method RunExtractor(fs: TextFiles, extracted: string)
    requires "default.sex" in fs.files
    modifies fs
    ensures var name := ConfigValue(LinesOf(old(fs.files)["default.sex"]), "CATALOG_NAME");
            fs.files == if name.Some? then old(fs.files)[name.value := extracted] else old(fs.files)
  {
    var catalogName := ConfigValue(LinesOf(fs.files["default.sex"]), "CATALOG_NAME");
    if catalogName.Some? {
      fs.Create(catalogName.value);
      fs.Append(catalogName.value, extracted);
      assert "" + extracted == extracted;
    }
  }

  /** The four configuration files, written before SourceExtractor runs. */
  method WriteConfig(fs: TextFiles, objectName: string, nnw: string)
    modifies fs
    ensures fs.files == Configured(old(fs.files), objectName, nnw)
    ensures "default.sex" in fs.files && fs.files["default.sex"] == SexText(SexEntries(objectName, DefaultGain, DefaultPixelScale))
  {
    WriteConv(fs);
    WriteFile(fs, "default.nnw", [nnw], "");
    assert Terminated([nnw], "") == nnw + "" + "";
    assert nnw + "" + "" == nnw;
    WriteParam(fs);
    WriteSex(fs, objectName, DefaultGain, DefaultPixelScale);
  }

  /** The catalog is none of the files removed after the run. */
  lemma CatalogNotConfig(objectName: string)
    ensures objectName + ".cat" != "default.conv" && objectName + ".cat" != "default.nnw"
  {
    var c := objectName + ".cat";
    assert c[|c| - 1] == 't';
  }


}
