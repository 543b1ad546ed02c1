/**
  The bookkeeping of the image-reduction steps in libraries/reducer.py:
  which frames each step reads (a sorted `glob`), which outputs it writes
  (`a-`, `red-`, `wcs-` names), which it skips because the output is already
  there, which master files (dark, flatfield, stack) it reuses, and where it
  stops with FileNotFoundError or IndexError.

  Each step is a function from the directories before the call to the
  step's result and the directories after it, and a method that runs the
  step's loops against a `FileSystem` and is proved to match that function.
*/
module Reducer {
  import opened Wrappers
  import opened Disk
  import PyStr

  type Dirs = map<string, Dir>

  const DarkName: string := "master-dark.fit"
  const FlatName: string := "flatfield.fit"
  const StackName: string := "stack.fit"

  // ---------------------------------------------------------------------------
  // align_frames

  function AlignFramesSpec(dirs: Dirs, objDir: string): (Result<seq<string>, IoError>, Dirs) {
    var wcs := Join(objDir, "wcs");
    var align := Join(objDir, "align");
    if wcs !in dirs then (Err(FileNotFound(wcs)), dirs)
    else
      var names := Listing(dirs[wcs], "", ".fit");
      if names == [] then (Err(IndexError), dirs)
      else if align !in dirs then (Err(FileNotFound(Join(align, "a-" + names[0]))), dirs)
      else (Ok(names), dirs[align := SaveMissing(dirs[align], names, "a-", AlignTo(names[0]))])
  }

  /** libraries/reducer.py:25-66. The reference frame is the first name in
      sorted order; every frame, the reference included, is written to
      `align/a-<name>` unless that file exists. */
  method AlignFrames(fs: FileSystem, objDir: string) returns (r: Result<seq<string>, IoError>)
    modifies fs
    ensures (r, fs.dirs) == AlignFramesSpec(old(fs.dirs), objDir)
  {
    var wcsDir := Join(objDir, "wcs");
    var alignDir := Join(objDir, "align");
    if wcsDir !in fs.dirs {
      return Err(FileNotFound(wcsDir));
    }
    var objList := Listing(fs.dirs[wcsDir], "", ".fit");
    if |objList| == 0 {
      return Err(IndexError);
    }
    var step := AlignTo(objList[0]);
    var alignPath := "a-" + objList[0];
    if !fs.IsFile(alignDir, alignPath) {
      var ok := fs.Write(alignDir, alignPath, Product(step, objList[0]));
      if !ok {
        return Err(FileNotFound(Join(alignDir, alignPath)));
      }
    }
    ghost var base := old(fs.dirs)[alignDir];
    assert objList[..1] == [objList[0]];
    assert fs.dirs == old(fs.dirs)[alignDir := SaveMissing(base, objList[..1], "a-", step)];
    SaveMissingFrom(fs, alignDir, objList, "a-", step, 1, base);
    UpdateTwice(old(fs.dirs), alignDir, SaveMissing(base, objList[..1], "a-", step), SaveMissing(base, objList, "a-", step));
    return Ok(objList);
  }

  /** align_frames fails exactly when the `wcs` directory is missing (the
      FileNotFoundError of a bad object directory), holds no `.fit` frame
      (IndexError), or the `align` directory is missing; a failure writes
      nothing. */
  lemma AlignFramesFailures(dirs: Dirs, objDir: string)
    ensures var wcs := Join(objDir, "wcs");
            var res := AlignFramesSpec(dirs, objDir);
            && (wcs !in dirs ==> res.0 == Err(FileNotFound(wcs)))
            && (res.0.Err? ==> res.1 == dirs)
            && (res.0.Ok? <==> wcs in dirs && Join(objDir, "align") in dirs && Listing(dirs[wcs], "", ".fit") != [])
  {
  }

  /** After a successful align_frames every frame of `wcs` has its aligned
      copy in `align`, each one it wrote is the frame reprojected onto the
      first frame, no file is removed or overwritten, and no directory other
      than `align` changes. */
  lemma AlignFramesWrites(dirs: Dirs, objDir: string, names: seq<string>, after: Dirs)
    requires AlignFramesSpec(dirs, objDir) == (Ok(names), after)
    ensures var align := Join(objDir, "align");
            && align in dirs && names != []
            && after.Keys == dirs.Keys
            && (forall d :: d in dirs && d != align ==> after[d] == dirs[d])
            && (forall n :: n in dirs[align] ==> n in after[align] && after[align][n] == dirs[align][n])
            && (forall n :: n in names ==> "a-" + n in after[align])
            && (forall n :: n in names && "a-" + n !in dirs[align] ==> after[align]["a-" + n] == Aligned(n, names[0]))
  {
    var align := Join(objDir, "align");
    SaveMissingKeeps(dirs[align], names, "a-", AlignTo(names[0]));
    SaveMissingCovers(dirs[align], names, "a-", AlignTo(names[0]));
    SaveMissingProducts(dirs[align], names, "a-", AlignTo(names[0]));
    forall n | n in names
      ensures "a-" + n in after[align]
    {
      var k :| 0 <= k < |names| && names[k] == n;
    }
  }

  /** Running align_frames again after it succeeded changes nothing and
      returns the same frames. */
  lemma AlignFramesRerun(dirs: Dirs, objDir: string, names: seq<string>, after: Dirs)
    requires AlignFramesSpec(dirs, objDir) == (Ok(names), after)
    ensures AlignFramesSpec(after, objDir) == (Ok(names), after)
  {
    var wcs := Join(objDir, "wcs");
    var align := Join(objDir, "align");
    JoinDistinct(objDir, "wcs", "align");
    assert wcs != align;
    var saved := SaveMissing(dirs[align], names, "a-", AlignTo(names[0]));
    SaveMissingCovers(dirs[align], names, "a-", AlignTo(names[0]));
    SaveMissingUnchanged(saved, names, "a-", AlignTo(names[0]));
    assert after == dirs[align := saved];
    assert after[wcs] == dirs[wcs];
    assert after[align := saved] == after;
  }

  // ---------------------------------------------------------------------------
  // make_dark, make_flat, make_stack

  /** A master file: the one on disk when there is one, otherwise the
      combination of the `.fit` files of `inputDir`, written to `dir`;
      combining no files raises. */
  function MasterSpec(dirs: Dirs, dir: string, name: string, kind: Kind, inputDir: string): (Result<Blob, IoError>, Dirs) {
    if IsFileIn(dirs, dir, name) then (Ok(dirs[dir][name]), dirs)
    else if inputDir !in dirs then (Err(FileNotFound(inputDir)), dirs)
    else if Listing(dirs[inputDir], "", ".fit") == [] then (Err(EmptyCombine), dirs)
    else
      var m := Master(kind, Listing(dirs[inputDir], "", ".fit"));
      if dir !in dirs then (Err(FileNotFound(Join(dir, name))), dirs)
      else (Ok(m), dirs[dir := dirs[dir][name := m]])
  }

  method BuildMaster(fs: FileSystem, dir: string, name: string, kind: Kind, inputDir: string) returns (r: Result<Blob, IoError>)
    modifies fs
    ensures (r, fs.dirs) == MasterSpec(old(fs.dirs), dir, name, kind, inputDir)
  {
    if fs.IsFile(dir, name) {
      return Ok(fs.dirs[dir][name]);
    }
    if inputDir !in fs.dirs {
      return Err(FileNotFound(inputDir));
    }
    var inputs := Listing(fs.dirs[inputDir], "", ".fit");
    if inputs == [] {
      return Err(EmptyCombine);
    }
    var master := Master(kind, inputs);
    var ok := fs.Write(dir, name, master);
    if !ok {
      return Err(FileNotFound(Join(dir, name)));
    }
    return Ok(master);
  }

  /** libraries/reducer.py:69-90 */
  method MakeDark(fs: FileSystem, darkDir: string) returns (r: Result<Blob, IoError>)
    modifies fs
    ensures (r, fs.dirs) == MasterSpec(old(fs.dirs), darkDir, DarkName, Dark, darkDir)
  {
    r := BuildMaster(fs, darkDir, DarkName, Dark, darkDir);
  }

  function MakeFlatSpec(dirs: Dirs, flatDir: string, darkDir: string): (Result<Blob, IoError>, Dirs) {
    if IsFileIn(dirs, flatDir, FlatName) then (Ok(dirs[flatDir][FlatName]), dirs)
    else if !IsFileIn(dirs, darkDir, DarkName) then (Err(FileNotFound(Join(darkDir, DarkName))), dirs)
    else MasterSpec(dirs, flatDir, FlatName, Flatfield, flatDir)
  }

  /** libraries/reducer.py:93-126: the master dark is read before the flat
      frames are listed. */
  method MakeFlat(fs: FileSystem, flatDir: string, darkDir: string) returns (r: Result<Blob, IoError>)
    modifies fs
    ensures (r, fs.dirs) == MakeFlatSpec(old(fs.dirs), flatDir, darkDir)
  {
    if fs.IsFile(flatDir, FlatName) {
      return Ok(fs.dirs[flatDir][FlatName]);
    }
    if !fs.IsFile(darkDir, DarkName) {
      return Err(FileNotFound(Join(darkDir, DarkName)));
    }
    r := BuildMaster(fs, flatDir, FlatName, Flatfield, flatDir);
  }

  /** libraries/reducer.py:193-212 */
  method MakeStack(fs: FileSystem, objDir: string) returns (r: Result<Blob, IoError>)
    modifies fs
    ensures (r, fs.dirs) == MasterSpec(old(fs.dirs), Join(objDir, "align"), StackName, Stack, Join(objDir, "align"))
  {
    var alignDir := Join(objDir, "align");
    r := BuildMaster(fs, alignDir, StackName, Stack, alignDir);
  }

  /** A master file already on disk is reused as it is; one that is built
      combines exactly the `.fit` files of its input directory, of which
      there is at least one, and is written; an input directory without
      `.fit` files raises; either way a second call changes nothing and
      returns the same master. */
  lemma MasterReused(dirs: Dirs, dir: string, name: string, kind: Kind, inputDir: string)
    ensures var res := MasterSpec(dirs, dir, name, kind, inputDir);
            && (IsFileIn(dirs, dir, name) ==> res == (Ok(dirs[dir][name]), dirs))
            && (!IsFileIn(dirs, dir, name) && inputDir in dirs && Listing(dirs[inputDir], "", ".fit") == [] ==>
                  res == (Err(EmptyCombine), dirs))
            && (!IsFileIn(dirs, dir, name) && res.0.Ok? ==>
                  && res.0.value.Master? && res.0.value.kind == kind && res.0.value.inputs != []
                  && (forall n :: n in res.0.value.inputs <==> n in dirs[inputDir] && Matches(n, "", ".fit"))
                  && res.1 == dirs[dir := dirs[dir][name := res.0.value]])
            && (res.0.Ok? ==> MasterSpec(res.1, dir, name, kind, inputDir) == res)
            && (res.0.Err? ==> res.1 == dirs)
  {
    if !IsFileIn(dirs, dir, name) && inputDir in dirs && Listing(dirs[inputDir], "", ".fit") != [] && dir in dirs {
      var m := Master(kind, Listing(dirs[inputDir], "", ".fit"));
      var after := dirs[dir := dirs[dir][name := m]];
      assert IsFileIn(after, dir, name) && after[dir][name] == m;
    }
  }

  // ---------------------------------------------------------------------------
  // reduce_objects

  /** The background subtracted for a `bkg_method`: the scalar median for
      'flat', the 2-D background for '2d' and for any other value. */
  function BackgroundFor(bkgMethod: string): (b: Background)
    ensures b == MedianLevel <==> bkgMethod == "flat"
  {
    if bkgMethod == "2d" then Background2D
    else if bkgMethod == "flat" then MedianLevel
    else Background2D
  }

  /** The state of a step's loop: the error it stopped with, if any, and the
      directories. */
  datatype Run = Run(err: Option<IoError>, dirs: Dirs)

  /** One frame of reduce_objects: skipped when `cal/red-<obj>` exists,
      otherwise the master dark and the flatfield are opened and the reduced
      frame is written. */
  function ReduceFrame(dirs: Dirs, cal: string, prefix: string, darkDir: string, flatDir: string, step: Step, obj: string): Run {
    if IsFileIn(dirs, cal, prefix + obj) then Run(None, dirs)
    else if !IsFileIn(dirs, darkDir, DarkName) then Run(Some(FileNotFound(Join(darkDir, DarkName))), dirs)
    else if !IsFileIn(dirs, flatDir, FlatName) then Run(Some(FileNotFound(Join(flatDir, FlatName))), dirs)
    else if cal !in dirs then Run(Some(FileNotFound(Join(cal, prefix + obj))), dirs)
    else Run(None, dirs[cal := dirs[cal][prefix + obj := Product(step, obj)]])
  }

  /** The frames in order, stopping at the first error. */
  function ReduceAll(dirs: Dirs, cal: string, prefix: string, darkDir: string, flatDir: string, step: Step, names: seq<string>): Run {
    if names == [] then Run(None, dirs)
    else
      var prev := ReduceAll(dirs, cal, prefix, darkDir, flatDir, step, names[..|names| - 1]);
      if prev.err.Some? then prev
      else ReduceFrame(prev.dirs, cal, prefix, darkDir, flatDir, step, names[|names| - 1])
  }

  function ReduceObjectsSpec(dirs: Dirs, objDir: string, flatDir: string, darkDir: string, bkgMethod: string)
    : (Result<seq<string>, IoError>, Dirs)
  {
    var raw := Join(objDir, "raw");
    if raw !in dirs then (Err(FileNotFound(raw)), dirs)
    else
      var names := Listing(dirs[raw], "", ".fit");
      var run := ReduceAll(dirs, Join(objDir, "cal"), "red-", darkDir, flatDir, ReduceWith(BackgroundFor(bkgMethod)), names);
      if run.err.Some? then (Err(run.err.value), run.dirs) else (Ok(names), run.dirs)
  }

  /** libraries/reducer.py:215-276 */
  method ReduceObjects(fs: FileSystem, objDir: string, flatDir: string, darkDir: string, bkgMethod: string)
    returns (r: Result<seq<string>, IoError>)
    modifies fs
    ensures (r, fs.dirs) == ReduceObjectsSpec(old(fs.dirs), objDir, flatDir, darkDir, bkgMethod)
  {
    var rawDir := Join(objDir, "raw");
    var calDir := Join(objDir, "cal");
    if rawDir !in fs.dirs {
      return Err(FileNotFound(rawDir));
    }
    var objList := Listing(fs.dirs[rawDir], "", ".fit");
    var err := ReduceEach(fs, calDir, "red-", darkDir, flatDir, ReduceWith(BackgroundFor(bkgMethod)), objList);
    if err.Some? {
      return Err(err.value);
    }
    return Ok(objList);
  }

  /** reduce_objects' loop over the sorted frames. */
  method ReduceEach(fs: FileSystem, calDir: string, prefix: string, darkDir: string, flatDir: string, step: Step, objList: seq<string>)
    returns (err: Option<IoError>)
    modifies fs
    ensures Run(err, fs.dirs) == ReduceAll(old(fs.dirs), calDir, prefix, darkDir, flatDir, step, objList)
  {
    var i := 0;
    while i < |objList|
      invariant 0 <= i <= |objList|
      invariant ReduceAll(old(fs.dirs), calDir, prefix, darkDir, flatDir, step, objList[..i]) == Run(None, fs.dirs)
    {
      assert objList[..i + 1][..i] == objList[..i];
      err := ReduceOne(fs, calDir, prefix, darkDir, flatDir, step, objList[i]);
      if err.Some? {
        ReduceAllStops(old(fs.dirs), calDir, prefix, darkDir, flatDir, step, objList, i + 1);
        return;
      }
      i := i + 1;
    }
    assert objList[..i] == objList;
    return None;
  }

  /** The body of reduce_objects' loop for one frame. */
  method ReduceOne(fs: FileSystem, calDir: string, prefix: string, darkDir: string, flatDir: string, step: Step, obj: string)
    returns (err: Option<IoError>)
    modifies fs
    ensures Run(err, fs.dirs) == ReduceFrame(old(fs.dirs), calDir, prefix, darkDir, flatDir, step, obj)
  {
    var calPath := prefix + obj;
    if fs.IsFile(calDir, calPath) {
      return None;
    }
    if !fs.IsFile(darkDir, DarkName) {
      return Some(FileNotFound(Join(darkDir, DarkName)));
    }
    if !fs.IsFile(flatDir, FlatName) {
      return Some(FileNotFound(Join(flatDir, FlatName)));
    }
    var ok := fs.Write(calDir, calPath, Product(step, obj));
    if !ok {
      return Some(FileNotFound(Join(calDir, calPath)));
    }
    return None;
  }

  /** Every frame's output is already in `dir`. */
  predicate AllPresent(dirs: Dirs, dir: string, names: seq<string>, prefix: string) {
    forall k :: 0 <= k < |names| ==> IsFileIn(dirs, dir, prefix + names[k])
  }

  /** What the frame loop amounts to: nothing when every frame is reduced
      already; otherwise the first missing master (dark, then flatfield) or
      a missing `cal` directory stops it before anything is written; and with
      both masters and `cal` present it is the presence-guarded loop. */
  lemma {:induction false} ReduceAllClosed(dirs: Dirs, cal: string, prefix: string, darkDir: string, flatDir: string, step: Step, names: seq<string>)
    ensures var run := ReduceAll(dirs, cal, prefix, darkDir, flatDir, step, names);
            var dark := IsFileIn(dirs, darkDir, DarkName);
            var flat := IsFileIn(dirs, flatDir, FlatName);
            && (AllPresent(dirs, cal, names, prefix) ==> run == Run(None, dirs))
            && (!AllPresent(dirs, cal, names, prefix) && !dark ==>
                  run == Run(Some(FileNotFound(Join(darkDir, DarkName))), dirs))
            && (!AllPresent(dirs, cal, names, prefix) && dark && !flat ==>
                  run == Run(Some(FileNotFound(Join(flatDir, FlatName))), dirs))
            && (names != [] && cal !in dirs && dark && flat ==>
                  run == Run(Some(FileNotFound(Join(cal, prefix + names[0]))), dirs))
            && (cal in dirs && dark && flat ==>
                  run == Run(None, dirs[cal := SaveMissing(dirs[cal], names, prefix, step)]))
    decreases |names|
  {
    if names == [] {
      if cal in dirs {
        assert dirs[cal := dirs[cal]] == dirs;
      }
    } else {
      var init := names[..|names| - 1];
      var last := names[|names| - 1];
      assert forall k :: 0 <= k < |init| ==> init[k] == names[k];
      ReduceAllClosed(dirs, cal, prefix, darkDir, flatDir, step, init);
      if cal in dirs && IsFileIn(dirs, darkDir, DarkName) && IsFileIn(dirs, flatDir, FlatName) {
        ReduceLastSaved(dirs, cal, prefix, darkDir, flatDir, step, names);
      }
      if AllPresent(dirs, cal, names, prefix) {
        assert AllPresent(dirs, cal, init, prefix);
        assert IsFileIn(dirs, cal, prefix + names[|names| - 1]);
      } else if AllPresent(dirs, cal, init, prefix) {
        assert !IsFileIn(dirs, cal, prefix + last);
      }
    }
  }

  /** The inductive step of ReduceAllClosed when both masters and `cal`
      are present: the masters stay present through the writes. */
  lemma ReduceLastSaved(dirs: Dirs, cal: string, prefix: string, darkDir: string, flatDir: string, step: Step, names: seq<string>)
    requires names != [] && cal in dirs && IsFileIn(dirs, darkDir, DarkName) && IsFileIn(dirs, flatDir, FlatName)
    requires ReduceAll(dirs, cal, prefix, darkDir, flatDir, step, names[..|names| - 1])
             == Run(None, dirs[cal := SaveMissing(dirs[cal], names[..|names| - 1], prefix, step)])
    ensures ReduceAll(dirs, cal, prefix, darkDir, flatDir, step, names)
            == Run(None, dirs[cal := SaveMissing(dirs[cal], names, prefix, step)])
  {
    var init := names[..|names| - 1];
    var last := names[|names| - 1];
    var saved := SaveMissing(dirs[cal], init, prefix, step);
    var prev := dirs[cal := saved];
    SaveMissingKeeps(dirs[cal], init, prefix, step);
    assert IsFileIn(prev, darkDir, DarkName);
    assert IsFileIn(prev, flatDir, FlatName);
    assert ReduceAll(dirs, cal, prefix, darkDir, flatDir, step, names) == ReduceFrame(prev, cal, prefix, darkDir, flatDir, step, last);
    if prefix + last !in saved {
      assert prev[cal := saved[prefix + last := Product(step, last)]] == dirs[cal := saved[prefix + last := Product(step, last)]];
    }
  }

  /** Once the loop has stopped with an error, the remaining frames change
      nothing. */
  lemma {:induction false} ReduceAllStops(dirs: Dirs, cal: string, prefix: string, darkDir: string, flatDir: string, step: Step, names: seq<string>, i: nat)
    requires i <= |names| && ReduceAll(dirs, cal, prefix, darkDir, flatDir, step, names[..i]).err.Some?
    ensures ReduceAll(dirs, cal, prefix, darkDir, flatDir, step, names) == ReduceAll(dirs, cal, prefix, darkDir, flatDir, step, names[..i])
    decreases |names|
  {
    if i == |names| {
      assert names[..i] == names;
    } else {
      var init := names[..|names| - 1];
      assert init[..i] == names[..i];
      ReduceAllStops(dirs, cal, prefix, darkDir, flatDir, step, init, i);
    }
  }

  /** reduce_objects succeeds exactly when the `raw` directory exists and
      either every frame is reduced already or both masters and `cal` exist;
      a failure writes nothing, and a success is the presence-guarded loop
      with the background `bkg_method` selects. */
  lemma ReduceObjectsOutcome(dirs: Dirs, objDir: string, flatDir: string, darkDir: string, bkgMethod: string)
    ensures var raw := Join(objDir, "raw");
            var cal := Join(objDir, "cal");
            var res := ReduceObjectsSpec(dirs, objDir, flatDir, darkDir, bkgMethod);
            && (raw !in dirs ==> res.0 == Err(FileNotFound(raw)))
            && (res.0.Err? ==> res.1 == dirs)
            && (res.0.Ok? <==>
                  raw in dirs &&
                  (AllPresent(dirs, cal, Listing(dirs[raw], "", ".fit"), "red-") ||
                   (cal in dirs && IsFileIn(dirs, darkDir, DarkName) && IsFileIn(dirs, flatDir, FlatName))))
            && (res.0.Ok? && cal in dirs ==>
                  res.1 == dirs[cal := SaveMissing(dirs[cal], res.0.value, "red-", ReduceWith(BackgroundFor(bkgMethod)))])
            && (res.0.Ok? && cal !in dirs ==> res.1 == dirs)
  {
    var raw := Join(objDir, "raw");
    var cal := Join(objDir, "cal");
    if raw in dirs {
      var names := Listing(dirs[raw], "", ".fit");
      var step := ReduceWith(BackgroundFor(bkgMethod));
      ReduceAllClosed(dirs, cal, "red-", darkDir, flatDir, step, names);
      if cal in dirs && AllPresent(dirs, cal, names, "red-") {
        SaveMissingUnchanged(dirs[cal], names, "red-", step);
        assert dirs[cal := dirs[cal]] == dirs;
      }
    }
  }

  /** Running reduce_objects again after it succeeded changes nothing. */
  lemma ReduceObjectsRerun(dirs: Dirs, objDir: string, flatDir: string, darkDir: string, bkgMethod: string)
    requires ReduceObjectsSpec(dirs, objDir, flatDir, darkDir, bkgMethod).0.Ok?
    ensures var res := ReduceObjectsSpec(dirs, objDir, flatDir, darkDir, bkgMethod);
            ReduceObjectsSpec(res.1, objDir, flatDir, darkDir, bkgMethod) == res
  {
    var raw := Join(objDir, "raw");
    var cal := Join(objDir, "cal");
    var step := ReduceWith(BackgroundFor(bkgMethod));
    var names := Listing(dirs[raw], "", ".fit");
    JoinDistinct(objDir, "raw", "cal");
    ReduceAllOnlyCal(dirs, cal, "red-", darkDir, flatDir, step, names, raw);
    ReduceAllRerun(dirs, cal, "red-", darkDir, flatDir, step, names);
  }

  /** The frame loop writes only in `cal`. */
  lemma {:induction false} ReduceAllOnlyCal(dirs: Dirs, cal: string, prefix: string, darkDir: string, flatDir: string, step: Step, names: seq<string>, d: string)
    requires d != cal
    ensures var after := ReduceAll(dirs, cal, prefix, darkDir, flatDir, step, names).dirs;
            (d in after <==> d in dirs) && (d in dirs ==> after[d] == dirs[d])
    decreases |names|
  {
    if names != [] {
      ReduceAllOnlyCal(dirs, cal, prefix, darkDir, flatDir, step, names[..|names| - 1], d);
    }
  }

  /** After the frame loop has gone through without an error, going through
      it again finds every output present. */
  lemma ReduceAllRerun(dirs: Dirs, cal: string, prefix: string, darkDir: string, flatDir: string, step: Step, names: seq<string>)
    requires ReduceAll(dirs, cal, prefix, darkDir, flatDir, step, names).err.None?
    ensures var after := ReduceAll(dirs, cal, prefix, darkDir, flatDir, step, names).dirs;
            ReduceAll(after, cal, prefix, darkDir, flatDir, step, names) == Run(None, after)
  {
    ReduceAllClosed(dirs, cal, prefix, darkDir, flatDir, step, names);
    var after := ReduceAll(dirs, cal, prefix, darkDir, flatDir, step, names).dirs;
    if !AllPresent(dirs, cal, names, prefix) {
      SaveMissingSpec(dirs[cal], names, prefix, step);
    }
    assert AllPresent(after, cal, names, prefix);
    ReduceAllClosed(after, cal, prefix, darkDir, flatDir, step, names);
  }

  // ---------------------------------------------------------------------------
  // solve_plates

  /** The plate-solving loop over the calibrated frames: a frame is solved
      unless `wcs/wcs-<name>` exists. The loop does not write the `wcs`
      directory, so the check looks at its contents before the call. */
  function SolveAll(cal: Dir, names: seq<string>, wcs: Dir, solves: string -> bool): Dir {
    if names == [] then cal
    else
      var prev := SolveAll(cal, names[..|names| - 1], wcs, solves);
      var obj := names[|names| - 1];
      if "wcs-" + obj in wcs then prev else SolveFrame(prev, obj, solves(obj))
  }

  /** Every frame that solve-field solves and that had no solution in `wcs`
      ends the loop with its solution `wcs-<name>` in `cal`: a later frame
      neither removes nor overwrites it. */
  lemma {:induction false} SolveAllSolves(cal: Dir, names: seq<string>, wcs: Dir, solves: string -> bool, k: nat)
    requires forall j :: 0 <= j < |names| ==> PyStr.EndsWith(names[j], ".fit")
    requires k < |names| && "wcs-" + names[k] !in wcs && solves(names[k])
    ensures "wcs-" + names[k] in SolveAll(cal, names, wcs, solves)
    ensures SolveAll(cal, names, wcs, solves)["wcs-" + names[k]] == Solved(names[k])
    decreases |names|
  {
    var init := names[..|names| - 1];
    var last := names[|names| - 1];
    var prev := SolveAll(cal, init, wcs, solves);
    if k == |names| - 1 {
      SolveFrameSpec(prev, last, true);
    } else {
      assert forall j :: 0 <= j < |init| ==> init[j] == names[j];
      SolveAllSolves(cal, init, wcs, solves, k);
      if "wcs-" + last !in wcs {
        assert SolveAll(cal, names, wcs, solves) == SolveFrame(prev, last, solves(last));
        SuffixAfterPrefix("wcs-", names[k], ".fit");
        if "wcs-" + names[k] == "wcs-" + last {
          PrefixInjective("wcs-", names[k], last);
        }
        SolveFrameKeeps(prev, last, solves(last), "wcs-" + names[k]);
      }
    }
  }

  /** Solving `obj` leaves any other solution name as it was. */
  lemma SolveFrameKeeps(files: Dir, obj: string, solves: bool, n: string)
    requires PyStr.EndsWith(obj, ".fit") && PyStr.EndsWith(n, ".fit") && n in files
    requires n != "wcs-" + obj || solves
    ensures n in SolveFrame(files, obj, solves)
    ensures n == "wcs-" + obj || SolveFrame(files, obj, solves)[n] == files[n]
    ensures n == "wcs-" + obj ==> SolveFrame(files, obj, solves)[n] == Solved(obj)
  {
    SolveFrameSpec(files, obj, solves);
  }

  /** `shutil.move(from/name, to/name)`; nothing happens when the source
      file is gone. */
  function Move(dirs: Dirs, fromDir: string, toDir: string, name: string): Dirs {
    if IsFileIn(dirs, fromDir, name) && toDir in dirs then MoveIn(dirs, fromDir, name, toDir, name) else dirs
  }

  function MoveAll(dirs: Dirs, fromDir: string, toDir: string, names: seq<string>): Dirs {
    if names == [] then dirs
    else Move(MoveAll(dirs, fromDir, toDir, names[..|names| - 1]), fromDir, toDir, names[|names| - 1])
  }

  /** Moving a list of files of one directory to another, seen from one
      file name `n`: a listed file leaves `fromDir` and arrives unchanged in
      `toDir`; any other file stays where it was with its contents. */
  lemma {:induction false} MoveAllFile(dirs: Dirs, fromDir: string, toDir: string, names: seq<string>, n: string)
    requires fromDir != toDir && fromDir in dirs && toDir in dirs
    requires forall m :: m in names ==> m in dirs[fromDir]
    ensures var r := MoveAll(dirs, fromDir, toDir, names);
            && fromDir in r && toDir in r
            && (n in names ==> n !in r[fromDir] && n in r[toDir] && r[toDir][n] == dirs[fromDir][n])
            && (n !in names ==> (n in r[fromDir] <==> n in dirs[fromDir]) && (n in r[toDir] <==> n in dirs[toDir]))
            && (n !in names && n in dirs[fromDir] ==> r[fromDir][n] == dirs[fromDir][n])
            && (n !in names && n in dirs[toDir] ==> r[toDir][n] == dirs[toDir][n])
    decreases |names|
  {
    if names != [] {
      var init := names[..|names| - 1];
      var last := names[|names| - 1];
      assert forall m :: m in init ==> m in names;
      assert n in names ==> n in init || n == last;
      MoveAllFile(dirs, fromDir, toDir, init, n);
      MoveAllFile(dirs, fromDir, toDir, init, last);
    }
  }

  /** Moving files between two directories changes no other directory. */
  lemma {:induction false} MoveAllDirs(dirs: Dirs, fromDir: string, toDir: string, names: seq<string>)
    requires fromDir in dirs && toDir in dirs
    ensures var r := MoveAll(dirs, fromDir, toDir, names);
            && r.Keys == dirs.Keys
            && forall d :: d in dirs && d != fromDir && d != toDir ==> r[d] == dirs[d]
    decreases |names|
  {
    if names != [] {
      MoveAllDirs(dirs, fromDir, toDir, names[..|names| - 1]);
    }
  }

  function SolvePlatesSpec(dirs: Dirs, objDir: string, solves: string -> bool): (Result<seq<string>, IoError>, Dirs) {
    var cal := Join(objDir, "cal");
    var wcs := Join(objDir, "wcs");
    if cal !in dirs then (Err(FileNotFound(cal)), dirs)
    else
      var names := Listing(dirs[cal], "", ".fit");
      var solved := SolveAll(dirs[cal], names, if wcs in dirs then dirs[wcs] else map[], solves);
      var moving := Listing(solved, "wcs-", ".fit");
      if moving == [] then (Ok(names), dirs[cal := solved])
      else if wcs !in dirs then (Err(FileNotFound(Join(wcs, moving[0]))), dirs[cal := solved])
      else (Ok(names), MoveAll(dirs[cal := solved], cal, wcs, moving))
  }

  /** libraries/reducer.py:279-328. solve-field itself is outside the model:
      `solves(name)` says whether it finds a solution for a frame. */
  method SolvePlates(fs: FileSystem, objDir: string, solves: string -> bool) returns (r: Result<seq<string>, IoError>)
    modifies fs
    ensures (r, fs.dirs) == SolvePlatesSpec(old(fs.dirs), objDir, solves)
  {
    var calDir := Join(objDir, "cal");
    var wcsDir := Join(objDir, "wcs");
    JoinDistinct(objDir, "cal", "wcs");
    if calDir !in fs.dirs {
      return Err(FileNotFound(calDir));
    }
    var objList := Listing(fs.dirs[calDir], "", ".fit");
    SolveEach(fs, calDir, wcsDir, objList, solves);
    var moving := Listing(fs.dirs[calDir], "wcs-", ".fit");
    if |moving| == 0 {
      return Ok(objList);
    }
    if wcsDir !in fs.dirs {
      return Err(FileNotFound(Join(wcsDir, moving[0])));
    }
    MoveEach(fs, calDir, wcsDir, moving);
    return Ok(objList);
  }

  /** The first loop of solve_plates, run in `calDir`. */
  method SolveEach(fs: FileSystem, calDir: string, wcsDir: string, objList: seq<string>, solves: string -> bool)
    requires calDir in fs.dirs && calDir != wcsDir
    modifies fs
    ensures fs.dirs == old(fs.dirs)[calDir := SolveAll(old(fs.dirs)[calDir], objList,
                                                      if wcsDir in old(fs.dirs) then old(fs.dirs)[wcsDir] else map[], solves)]
  {
    ghost var wcs: Dir := if wcsDir in fs.dirs then fs.dirs[wcsDir] else map[];
    var i := 0;
    while i < |objList|
      invariant 0 <= i <= |objList|
      invariant fs.dirs == old(fs.dirs)[calDir := SolveAll(old(fs.dirs)[calDir], objList[..i], wcs, solves)]
    {
      var obj := objList[i];
      assert objList[..i + 1][..i] == objList[..i];
      if !fs.IsFile(wcsDir, "wcs-" + obj) {
        SolveFrameIn(fs, calDir, obj, solves(obj));
      }
      i := i + 1;
    }
    assert objList[..i] == objList;
  }

  /** The last loop of solve_plates: `shutil.move` of every solution. */
  method MoveEach(fs: FileSystem, calDir: string, wcsDir: string, moving: seq<string>)
    modifies fs
    ensures fs.dirs == MoveAll(old(fs.dirs), calDir, wcsDir, moving)
  {
    var k := 0;
    while k < |moving|
      invariant 0 <= k <= |moving|
      invariant fs.dirs == MoveAll(old(fs.dirs), calDir, wcsDir, moving[..k])
    {
      assert moving[..k + 1][..k] == moving[..k];
      var _ := fs.Rename(calDir, moving[k], wcsDir, moving[k]);
      k := k + 1;
    }
    assert moving[..k] == moving;
  }

  /** solve_plates fails with FileNotFoundError when `cal` is missing, or
      when there are solutions to move and `wcs` is missing. When it
      succeeds, every frame that solve-field solves and that had no
      solution in `wcs` has it there, holding that frame's solution, and no
      solution is left behind in `cal`. */
  lemma SolvePlatesOutcome(dirs: Dirs, objDir: string, solves: string -> bool)
    ensures var cal := Join(objDir, "cal");
            var wcs := Join(objDir, "wcs");
            var res := SolvePlatesSpec(dirs, objDir, solves);
            && (cal !in dirs ==> res == (Err(FileNotFound(cal)), dirs))
            && (res.0.Ok? && wcs in dirs ==>
                  && res.1.Keys == dirs.Keys
                  && (forall n :: n in res.1[cal] ==> !Matches(n, "wcs-", ".fit"))
                  && (forall n :: n in res.0.value && solves(n) && "wcs-" + n !in dirs[wcs] ==>
                        "wcs-" + n in res.1[wcs] && res.1[wcs]["wcs-" + n] == Solved(n)))
  {
    var cal := Join(objDir, "cal");
    var wcs := Join(objDir, "wcs");
    JoinDistinct(objDir, "cal", "wcs");
    if cal in dirs && wcs in dirs {
      var names := Listing(dirs[cal], "", ".fit");
      var solved := SolveAll(dirs[cal], names, dirs[wcs], solves);
      var moving := Listing(solved, "wcs-", ".fit");
      SolvedFramesListed(dirs[cal], dirs[wcs], solves);
      if moving != [] {
        SolvePlatesMoved(dirs, cal, wcs, names, solved, moving, solves);
      }
    }
  }

  /** Each frame the loop solves has its solution among the names the final
      loop moves. */
  lemma SolvedFramesListed(cal: Dir, wcs: Dir, solves: string -> bool)
    ensures var names := Listing(cal, "", ".fit");
            var solved := SolveAll(cal, names, wcs, solves);
            forall n :: n in names && solves(n) && "wcs-" + n !in wcs ==>
              "wcs-" + n in Listing(solved, "wcs-", ".fit") && solved["wcs-" + n] == Solved(n)
  {
    var names := Listing(cal, "", ".fit");
    var solved := SolveAll(cal, names, wcs, solves);
    forall j | 0 <= j < |names| ensures PyStr.EndsWith(names[j], ".fit") {
      assert names[j] in names;
    }
    forall n | n in names && solves(n) && "wcs-" + n !in wcs
      ensures "wcs-" + n in Listing(solved, "wcs-", ".fit") && solved["wcs-" + n] == Solved(n)
    {
      var k :| 0 <= k < |names| && names[k] == n;
      SolveAllSolves(cal, names, wcs, solves, k);
      SolutionListed(solved, n);
    }
  }

  /** A solution file for a `.fit` frame is among the names the final loop
      moves. */
  lemma SolutionListed(files: Dir, n: string)
    requires PyStr.EndsWith(n, ".fit") && "wcs-" + n in files
    ensures "wcs-" + n in Listing(files, "wcs-", ".fit")
  {
    var m := "wcs-" + n;
    assert m[..4] == "wcs-";
    assert m[|m| - 4..] == n[|n| - 4..];
  }

  lemma SolvePlatesMoved(dirs: Dirs, cal: string, wcs: string, names: seq<string>, solved: Dir, moving: seq<string>, solves: string -> bool)
    requires cal != wcs && cal in dirs && wcs in dirs
    requires moving == Listing(solved, "wcs-", ".fit") && moving != []
    requires forall n :: n in names && solves(n) && "wcs-" + n !in dirs[wcs] ==> "wcs-" + n in moving
    ensures var r := MoveAll(dirs[cal := solved], cal, wcs, moving);
            && r.Keys == dirs.Keys
            && (forall n :: n in r[cal] ==> !Matches(n, "wcs-", ".fit"))
            && (forall n :: n in names && solves(n) && "wcs-" + n !in dirs[wcs] ==>
                  "wcs-" + n in r[wcs] && r[wcs]["wcs-" + n] == solved["wcs-" + n])
  {
    var before := dirs[cal := solved];
    var r := MoveAll(before, cal, wcs, moving);
    MoveAllDirs(before, cal, wcs, moving);
    forall n | n in r[cal]
      ensures !Matches(n, "wcs-", ".fit")
    {
      MoveAllFile(before, cal, wcs, moving, n);
    }
    forall n | n in names && solves(n) && "wcs-" + n !in dirs[wcs]
      ensures "wcs-" + n in r[wcs] && r[wcs]["wcs-" + n] == solved["wcs-" + n]
    {
      MoveAllFile(before, cal, wcs, moving, "wcs-" + n);
    }
  }
}
