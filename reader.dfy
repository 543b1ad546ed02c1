/**
  lib/reader.py: the camera parameter table and the observing-log rows
  built from the FITS headers of the frames in a directory.

  A header is a map from card name to the text `str()` gives for its value;
  `fits.open` of each `*.fit` file is taken to succeed. Whether a DATE-OBS
  text is an ISO timestamp (`Time(dateobs, format="isot")`) is a parameter.
*/
module Reader {
  import opened Wrappers
  import Disk
  import Sorting

  // ---------------------------------------------------------------------------
  // config_camera

  datatype Number = Int(i: int) | Real(r: real)

  const CameraKeys: set<string> := {"dx", "dy", "gain", "inverse_gain", "read_noise"}

  /** `config_camera(name)`: the SBIG ST-8300 has its own entry; every other
      name, the default "PL16803" among them, gets the 4096 x 4096 camera. */
  function ConfigCamera(name: string): (params: map<string, Number>)
    ensures params.Keys == CameraKeys
  {
    var (dx, dy, gain, inverseGain, readNoise) :=
      if name == "ST8300" then (3352, 2532, 2.48, 0.403, 28.5)
      else (4096, 4096, 0.72, 1.39, 11.4);
    map["dx" := Int(dx), "dy" := Int(dy), "gain" := Real(gain),
        "inverse_gain" := Real(inverseGain), "read_noise" := Real(readNoise)]
  }

  /** The two entries of the table. */
  lemma CameraTable(name: string)
    ensures name == "ST8300" ==>
              ConfigCamera(name) == map["dx" := Int(3352), "dy" := Int(2532), "gain" := Real(2.48),
                                        "inverse_gain" := Real(0.403), "read_noise" := Real(28.5)]
    ensures name != "ST8300" ==>
              ConfigCamera(name) == map["dx" := Int(4096), "dy" := Int(4096), "gain" := Real(0.72),
                                        "inverse_gain" := Real(1.39), "read_noise" := Real(11.4)]
  {
  }

  /** Any name but "ST8300" is the default camera. */
  lemma DefaultCamera(name: string)
    requires name != "ST8300"
    ensures ConfigCamera(name) == ConfigCamera("PL16803")
  {
  }

  /** For both cameras the inverse gain is the reciprocal of the gain to
      within one part in a thousand, and the frame is at most 4096 pixels
      on a side. */
  lemma InverseGain(name: string)
    ensures var p := ConfigCamera(name);
            && p["gain"].Real? && p["inverse_gain"].Real?
            && 0.999 <= p["gain"].r * p["inverse_gain"].r <= 1.001
            && p["dx"].Int? && p["dy"].Int? && 0 < p["dy"].i <= p["dx"].i <= 4096
  {
  }

  // ---------------------------------------------------------------------------
  // read_directory

  type Header = map<string, string>

  datatype ReadError = KeyError(card: string) | ValueError(text: string) | NameError(name: string)

  /** One row of the observing log. */
  datatype Row = Row(item: string, imageType: string, obsTime: string, exposure: string,
                     filter: string, binning: string)

  /** The `*.fit` frames of the directory, in `sorted()` order. */
  function FrameList(dir: map<string, Header>): (names: seq<string>)
    ensures forall n :: n in names <==> n in dir && Disk.Matches(n, "", ".fit")
    ensures Sorting.StrictlySorted(names)
  {
    Sorting.SortedNames(set n | n in dir && Disk.Matches(n, "", ".fit"))
  }

  /** The row for one frame, reading XBINNING, EXPTIME, DATE-OBS, FILTER and
      IMAGETYP in that order; a missing card other than FILTER raises
      KeyError. */
  function FrameRow(item: string, h: Header, isot: string -> bool): Result<Row, ReadError> {
    if "XBINNING" !in h then Err(KeyError("XBINNING"))
    else if "EXPTIME" !in h then Err(KeyError("EXPTIME"))
    else if "DATE-OBS" !in h then Err(KeyError("DATE-OBS"))
    else if !isot(h["DATE-OBS"]) then Err(ValueError(h["DATE-OBS"]))
    else if "IMAGETYP" !in h then Err(KeyError("IMAGETYP"))
    else
      var filter := if "FILTER" in h then h["FILTER"] else "n/a";
      Ok(Row(item, h["IMAGETYP"], h["DATE-OBS"], h["EXPTIME"], filter,
             h["XBINNING"] + "x" + h["XBINNING"]))
  }

  /** A frame yields a row exactly when its four required cards are present
      and DATE-OBS is a timestamp; binning reads "NxN", and a missing FILTER
      card gives "n/a". */
  lemma FrameRowFields(item: string, h: Header, isot: string -> bool)
    ensures FrameRow(item, h, isot).Ok? <==>
              "XBINNING" in h && "EXPTIME" in h && "DATE-OBS" in h && "IMAGETYP" in h && isot(h["DATE-OBS"])
    ensures FrameRow(item, h, isot).Ok? ==>
              var row := FrameRow(item, h, isot).value;
              && row.item == item && row.imageType == h["IMAGETYP"] && row.obsTime == h["DATE-OBS"]
              && row.exposure == h["EXPTIME"]
              && row.binning == h["XBINNING"] + "x" + h["XBINNING"]
              && row.filter == (if "FILTER" in h then h["FILTER"] else "n/a")
  {
  }

  /** The rows of the first frames, stopping at the first frame that raises. */
  function Rows(dir: map<string, Header>, frames: seq<string>, isot: string -> bool): Result<seq<Row>, ReadError>
    requires forall n :: n in frames ==> n in dir
  {
    if frames == [] then Ok([])
    else
      var prev := Rows(dir, frames[..|frames| - 1], isot);
      var last := frames[|frames| - 1];
      if prev.Err? then prev
      else
        var row := FrameRow(last, dir[last], isot);
        if row.Err? then Err(row.error) else Ok(prev.value + [row.value])
  }

  /** What `read_directory` returns once its imports are in place. */
  function ReadDirectorySpec(dir: map<string, Header>, isot: string -> bool)
    : Result<(seq<string>, seq<Row>), ReadError>
  {
    var frames := FrameList(dir);
    var rows := Rows(dir, frames, isot);
    if rows.Err? then Err(rows.error) else Ok((frames, rows.value))
  }

  /** lib/reader.py:45-92 with `os` and `glob` imported; the tabulated
      printout is left out. */
  method ReadDirectory(dir: map<string, Header>, isot: string -> bool)
    returns (r: Result<(seq<string>, seq<Row>), ReadError>)
    ensures r == ReadDirectorySpec(dir, isot)
  {
    var frameList := FrameList(dir);
    var dataTable := DataTable(dir, frameList, isot);
    if dataTable.Err? {
      return Err(dataTable.error);
    }
    return Ok((frameList, dataTable.value));
  }

  /** The loop of `read_directory` over the sorted frames. */
  method DataTable(dir: map<string, Header>, frameList: seq<string>, isot: string -> bool)
    returns (r: Result<seq<Row>, ReadError>)
    requires forall n :: n in frameList ==> n in dir
    ensures r == Rows(dir, frameList, isot)
  {
    var dataTable: seq<Row> := [];
    var i := 0;
    while i < |frameList|
      invariant 0 <= i <= |frameList|
      invariant Rows(dir, frameList[..i], isot) == Ok(dataTable)
    {
      var item := frameList[i];
      assert frameList[..i + 1][..i] == frameList[..i];
      var row := FrameRow(item, dir[item], isot);
      if row.Err? {
        RowsStop(dir, frameList, isot, i + 1);
        return Err(row.error);
      }
      dataTable := dataTable + [row.value];
      i := i + 1;
    }
    assert frameList[..i] == frameList;
    return Ok(dataTable);
  }

  /** Once a frame has raised, the later frames change nothing. */
  lemma {:induction false} RowsStop(dir: map<string, Header>, frames: seq<string>, isot: string -> bool, i: nat)
    requires forall n :: n in frames ==> n in dir
    requires i <= |frames| && Rows(dir, frames[..i], isot).Err?
    ensures Rows(dir, frames, isot) == Rows(dir, frames[..i], isot)
    decreases |frames|
  {
    if i == |frames| {
      assert frames[..i] == frames;
    } else {
      var init := frames[..|frames| - 1];
      assert init[..i] == frames[..i];
      RowsStop(dir, init, isot, i);
    }
  }

  /** On success there is one row per frame, in frame order, each the
      frame's own row. */
  lemma {:induction false} RowsInOrder(dir: map<string, Header>, frames: seq<string>, isot: string -> bool)
    requires forall n :: n in frames ==> n in dir
    ensures Rows(dir, frames, isot).Ok? ==>
              && |Rows(dir, frames, isot).value| == |frames|
              && forall k :: 0 <= k < |frames| ==>
                   FrameRow(frames[k], dir[frames[k]], isot) == Ok(Rows(dir, frames, isot).value[k])
    decreases |frames|
  {
    if frames != [] {
      var init := frames[..|frames| - 1];
      RowsInOrder(dir, init, isot);
      assert forall k :: 0 <= k < |init| ==> init[k] == frames[k];
    }
  }

  /** The listing fails exactly when some frame raises. */
  lemma {:induction false} RowsFail(dir: map<string, Header>, frames: seq<string>, isot: string -> bool)
    requires forall n :: n in frames ==> n in dir
    ensures Rows(dir, frames, isot).Err? <==> exists k :: 0 <= k < |frames| && FrameRow(frames[k], dir[frames[k]], isot).Err?
    decreases |frames|
  {
    if frames != [] {
      var init := frames[..|frames| - 1];
      RowsFail(dir, init, isot);
      assert forall k :: 0 <= k < |init| ==> init[k] == frames[k];
    }
  }

  /** `read_directory` returns the sorted `*.fit` names and one row per
      name, the k-th row describing the k-th name. */
  lemma ReadDirectoryRows(dir: map<string, Header>, isot: string -> bool)
    ensures ReadDirectorySpec(dir, isot).Ok? ==>
              var (frames, rows) := ReadDirectorySpec(dir, isot).value;
              && Sorting.StrictlySorted(frames)
              && (forall n :: n in frames <==> n in dir && Disk.Matches(n, "", ".fit"))
              && |rows| == |frames|
              && forall k :: 0 <= k < |rows| ==> rows[k].item == frames[k] && FrameRow(frames[k], dir[frames[k]], isot) == Ok(rows[k])
  {
    var frames := FrameList(dir);
    RowsInOrder(dir, frames, isot);
    if Rows(dir, frames, isot).Ok? {
      var rows := Rows(dir, frames, isot).value;
      forall k | 0 <= k < |rows|
        ensures rows[k].item == frames[k]
      {
        FrameRowFields(frames[k], dir[frames[k]], isot);
      }
    }
  }

  /** `read_directory` raises exactly when one of the `*.fit` frames does. */
  lemma ReadDirectoryFails(dir: map<string, Header>, isot: string -> bool)
    ensures ReadDirectorySpec(dir, isot).Err? <==>
              exists n :: n in dir && Disk.Matches(n, "", ".fit") && FrameRow(n, dir[n], isot).Err?
  {
    var frames := FrameList(dir);
    RowsFail(dir, frames, isot);
    if exists n :: n in dir && Disk.Matches(n, "", ".fit") && FrameRow(n, dir[n], isot).Err? {
      var n :| n in dir && Disk.Matches(n, "", ".fit") && FrameRow(n, dir[n], isot).Err?;
      var k :| 0 <= k < |frames| && frames[k] == n;
    }
  }

  /** lib/reader.py imports neither `os` nor `glob`, so the `os.chdir(path)`
      that opens `read_directory` (line 47) raises NameError for every
      directory. */
  function ReadDirectoryAsWritten(dir: map<string, Header>, isot: string -> bool)
    : (r: Result<(seq<string>, seq<Row>), ReadError>)
    ensures r.Err?
  {
    Err(NameError("os"))
  }

  /** An empty directory shows the difference: as written the call raises,
      while with the imports it returns two empty lists. */
  lemma ReadDirectoryAsWrittenFails(isot: string -> bool)
    ensures ReadDirectoryAsWritten(map[], isot) == Err(NameError("os"))
    ensures ReadDirectorySpec(map[], isot) == Ok(([], []))
  {
    var empty: map<string, Header> := map[];
    assert (set n | n in empty && Disk.Matches(n, "", ".fit")) == {};
  }
}
