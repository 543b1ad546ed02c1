/**
  The bookkeeping of the older reduction pipeline in lib/reducer.py, where
  every step works in one object directory: reduce_objects writes
  `reduced-<frame>`, solve_plate turns it into `wcs-reduced-<frame>`,
  align_frames writes `a-wcs-reduced-<frame>`, and make_stack combines the
  `a-wcs-reduced-*.fit` files into `stack.fit`.

  The steps share the file-system model and the frame loops of the newer
  pipeline (modules Disk and Reducer); what differs is which names each
  step selects and where it writes.
*/
module LibReducer {
  import opened Wrappers
  import opened Disk
  import Reducer
  import PyStr
  import Sorting

  type Dirs = map<string, Dir>

  const StackName: string := "stack.fit"

  // ---------------------------------------------------------------------------
  // align_frames

  function AlignFramesSpec(dirs: Dirs, objDir: string): (Result<seq<string>, IoError>, Dirs) {
    if objDir !in dirs then (Err(FileNotFound(objDir)), dirs)
    else
      var names := Listing(dirs[objDir], "wcs", ".fit");
      if names == [] then (Err(IndexError), dirs)
      else (Ok(names), dirs[objDir := SaveMissing(dirs[objDir], names, "a-", AlignTo(names[0]))])
  }

  /** lib/reducer.py:26-61. `os.chdir(obj_dir)` fails on a missing
      directory; the first `wcs*.fit` name in sorted order is the reference
      frame, and every frame gets `a-<name>` unless that file exists. */
  method AlignFrames(fs: FileSystem, objDir: string) returns (r: Result<seq<string>, IoError>)
    modifies fs
    ensures (r, fs.dirs) == AlignFramesSpec(old(fs.dirs), objDir)
  {
    if objDir !in fs.dirs {
      return Err(FileNotFound(objDir));
    }
    var objList := Listing(fs.dirs[objDir], "wcs", ".fit");
    if |objList| == 0 {
      return Err(IndexError);
    }
    var step := AlignTo(objList[0]);
    ghost var base := fs.dirs[objDir];
    if !fs.IsFile(objDir, "a-" + objList[0]) {
      var _ := fs.Write(objDir, "a-" + objList[0], Product(step, objList[0]));
    }
    assert objList[..1] == [objList[0]];
    assert fs.dirs == old(fs.dirs)[objDir := SaveMissing(base, objList[..1], "a-", step)];
    SaveMissingFrom(fs, objDir, objList, "a-", step, 1, base);
    UpdateTwice(old(fs.dirs), objDir, SaveMissing(base, objList[..1], "a-", step), SaveMissing(base, objList, "a-", step));
    return Ok(objList);
  }

  /** align_frames fails exactly when the directory is missing or holds no
      `wcs*.fit` frame; after a success every listed frame has its aligned
      copy, each copy it wrote is that frame reprojected onto the first one,
      and no file is removed or overwritten. */
  lemma AlignFramesOutcome(dirs: Dirs, objDir: string)
    ensures var res := AlignFramesSpec(dirs, objDir);
            && (res.0.Err? ==> res.1 == dirs)
            && (res.0.Ok? <==> objDir in dirs && Listing(dirs[objDir], "wcs", ".fit") != [])
            && (res.0.Ok? ==>
                  var names := res.0.value;
                  && res.1.Keys == dirs.Keys
                  && (forall n :: n in dirs[objDir] ==> n in res.1[objDir] && res.1[objDir][n] == dirs[objDir][n])
                  && (forall k :: 0 <= k < |names| ==> "a-" + names[k] in res.1[objDir])
                  && (forall k :: 0 <= k < |names| && "a-" + names[k] !in dirs[objDir] ==>
                        res.1[objDir]["a-" + names[k]] == Aligned(names[k], names[0])))
  {
    if objDir in dirs {
      var names := Listing(dirs[objDir], "wcs", ".fit");
      if names != [] {
        SaveMissingKeeps(dirs[objDir], names, "a-", AlignTo(names[0]));
        SaveMissingCovers(dirs[objDir], names, "a-", AlignTo(names[0]));
        SaveMissingProducts(dirs[objDir], names, "a-", AlignTo(names[0]));
      }
    }
  }

  // ---------------------------------------------------------------------------
  // reduce_objects

  /** The if/elif chain of reduce_objects' listing loop: the frame is
      appended only when no branch before the `else` matches. */
  predicate Selected(item: string) {
    if PyStr.Contains(item, "reduced") then false
    else if PyStr.Contains(item, "wcs-reduced") then false
    else if PyStr.Contains(item, "a-wcs-reduced") then false
    else if PyStr.Contains(item, "stack") then false
    else true
  }

  /** A string that contains `p + q` contains `q`. */
  lemma ContainsTail(s: string, p: string, q: string)
    requires PyStr.Contains(s, p + q)
    ensures PyStr.Contains(s, q)
  {
    var j :| 0 <= j <= |s| && PyStr.At(s, j, p + q);
    assert s[j + |p|..j + |p| + |q|] == (p + q)[|p|..];
    assert PyStr.At(s, j + |p|, q);
  }

  /** The `wcs-reduced` and `a-wcs-reduced` branches never decide anything:
      a frame is kept iff its name contains neither "reduced" nor "stack". */
  lemma SelectedIff(item: string)
    ensures Selected(item) <==> !PyStr.Contains(item, "reduced") && !PyStr.Contains(item, "stack")
  {
    if PyStr.Contains(item, "wcs-reduced") {
      assert "wcs-reduced" == "wcs-" + "reduced";
      ContainsTail(item, "wcs-", "reduced");
    }
    if PyStr.Contains(item, "a-wcs-reduced") {
      assert "a-wcs-reduced" == "a-wcs-" + "reduced";
      ContainsTail(item, "a-wcs-", "reduced");
    }
  }

  /** The frames the listing loop keeps, in listing order. */
  function Selection(items: seq<string>): seq<string> {
    if items == [] then []
    else
      var prev := Selection(items[..|items| - 1]);
      var item := items[|items| - 1];
      if Selected(item) then prev + [item] else prev
  }

  /** A name is kept iff it is listed and passes the filter. */
  lemma {:induction false} SelectionMembers(items: seq<string>)
    ensures forall n :: n in Selection(items) <==> n in items && Selected(n)
    decreases |items|
  {
    if items != [] {
      var init := items[..|items| - 1];
      SelectionMembers(init);
      assert items == init + [items[|items| - 1]];
    }
  }

  /** Keeping some names of a sorted list leaves it sorted, so `sorted()`
      after the loop is the identity on the sorted listing. */
  lemma {:induction false} SelectionSorted(items: seq<string>)
    requires Sorting.StrictlySorted(items)
    ensures Sorting.StrictlySorted(Selection(items))
    decreases |items|
  {
    if items != [] {
      var init := items[..|items| - 1];
      var last := items[|items| - 1];
      assert Sorting.StrictlySorted(init);
      SelectionSorted(init);
      SelectionMembers(init);
      var prev := Selection(init);
      if Selected(last) {
        var r := prev + [last];
        forall i, j | 0 <= i < j < |r|
          ensures Sorting.StrLe(r[i], r[j]) && r[i] != r[j]
        {
          if j < |prev| {
            assert r[i] == prev[i] && r[j] == prev[j];
          } else {
            assert r[i] == prev[i] && prev[i] in init;
            var k :| 0 <= k < |init| && init[k] == prev[i];
            assert items[k] == r[i] && items[|items| - 1] == r[j];
          }
        }
      }
    }
  }

  /** The listing loop of reduce_objects. */
  method SelectFrames(items: seq<string>) returns (objList: seq<string>)
    ensures objList == Selection(items)
  {
    objList := [];
    var i := 0;
    while i < |items|
      invariant 0 <= i <= |items|
      invariant objList == Selection(items[..i])
    {
      assert items[..i + 1][..i] == items[..i];
      var item := items[i];
      if PyStr.Contains(item, "reduced") {
      } else if PyStr.Contains(item, "wcs-reduced") {
      } else if PyStr.Contains(item, "a-wcs-reduced") {
      } else if PyStr.Contains(item, "stack") {
      } else {
        objList := objList + [item];
      }
      i := i + 1;
    }
    assert items[..i] == items;
  }

  const Reduce: Step := ReduceWith(Background2D)

  function ReduceObjectsSpec(dirs: Dirs, objDir: string, flatDir: string, darkDir: string)
    : (Result<seq<string>, IoError>, Dirs)
  {
    if objDir !in dirs then (Err(FileNotFound(objDir)), dirs)
    else
      var names := Selection(Listing(dirs[objDir], "", ".fit"));
      var run := Reducer.ReduceAll(dirs, objDir, "reduced-", darkDir, flatDir, Reduce, names);
      if run.err.Some? then (Err(run.err.value), run.dirs) else (Ok(names), run.dirs)
  }

  /** lib/reducer.py:219-281: the frames are the selected `*.fit` names in
      sorted order; a frame is skipped when `reduced-<frame>` exists and is
      otherwise reduced, with the 2-D background removed, into the same
      directory. */
  method ReduceObjects(fs: FileSystem, objDir: string, flatDir: string, darkDir: string)
    returns (r: Result<seq<string>, IoError>)
    modifies fs
    ensures (r, fs.dirs) == ReduceObjectsSpec(old(fs.dirs), objDir, flatDir, darkDir)
  {
    if objDir !in fs.dirs {
      return Err(FileNotFound(objDir));
    }
    var objList := SelectFrames(Listing(fs.dirs[objDir], "", ".fit"));
    var err := Reducer.ReduceEach(fs, objDir, "reduced-", darkDir, flatDir, Reduce, objList);
    if err.Some? {
      return Err(err.value);
    }
    return Ok(objList);
  }

  /** The frames reduce_objects returns are exactly the `.fit` files of the
      directory whose names contain neither "reduced" nor "stack", sorted;
      in particular none of its own outputs is among them. */
  lemma ReduceObjectsFrames(dirs: Dirs, objDir: string, flatDir: string, darkDir: string)
    requires ReduceObjectsSpec(dirs, objDir, flatDir, darkDir).0.Ok?
    ensures var names := ReduceObjectsSpec(dirs, objDir, flatDir, darkDir).0.value;
            && Sorting.StrictlySorted(names)
            && forall n :: n in names <==>
                 n in dirs[objDir] && Matches(n, "", ".fit") && !PyStr.Contains(n, "reduced") && !PyStr.Contains(n, "stack")
  {
    var items := Listing(dirs[objDir], "", ".fit");
    SelectionMembers(items);
    SelectionSorted(items);
    forall n
      ensures Selected(n) <==> !PyStr.Contains(n, "reduced") && !PyStr.Contains(n, "stack")
    {
      SelectedIff(n);
    }
  }

  /** reduce_objects fails exactly when the directory is missing, or some
      frame still needs reducing and a master (the dark first, then the
      flatfield) is missing; a failure writes nothing, and a success is the
      presence-guarded loop writing `reduced-<frame>`. */
  lemma ReduceObjectsOutcome(dirs: Dirs, objDir: string, flatDir: string, darkDir: string)
    ensures var res := ReduceObjectsSpec(dirs, objDir, flatDir, darkDir);
            && (res.0.Err? ==> res.1 == dirs)
            && (res.0.Ok? <==>
                  objDir in dirs &&
                  (Reducer.AllPresent(dirs, objDir, Selection(Listing(dirs[objDir], "", ".fit")), "reduced-") ||
                   (IsFileIn(dirs, darkDir, Reducer.DarkName) && IsFileIn(dirs, flatDir, Reducer.FlatName))))
            && (res.0.Ok? ==> res.1 == dirs[objDir := SaveMissing(dirs[objDir], res.0.value, "reduced-", Reduce)])
  {
    if objDir in dirs {
      var names := Selection(Listing(dirs[objDir], "", ".fit"));
      Reducer.ReduceAllClosed(dirs, objDir, "reduced-", darkDir, flatDir, Reduce, names);
      if Reducer.AllPresent(dirs, objDir, names, "reduced-") {
        SaveMissingUnchanged(dirs[objDir], names, "reduced-", Reduce);
        assert dirs[objDir := dirs[objDir]] == dirs;
      }
    }
  }

  // ---------------------------------------------------------------------------
  // solve_plate

  /** solve_plate's loop: a frame is solved unless `wcs-<frame>` is in the
      directory the loop itself is changing. */
  function SolveHere(files: Dir, names: seq<string>, solves: string -> bool): Dir {
    if names == [] then files
    else
      var prev := SolveHere(files, names[..|names| - 1], solves);
      var obj := names[|names| - 1];
      if "wcs-" + obj in prev then prev else SolveFrame(prev, obj, solves(obj))
  }

  function SolvePlateSpec(dirs: Dirs, objDir: string, solves: string -> bool): (Result<seq<string>, IoError>, Dirs) {
    if objDir !in dirs then (Err(FileNotFound(objDir)), dirs)
    else
      var names := Listing(dirs[objDir], "reduced", ".fit");
      (Ok(names), dirs[objDir := SolveHere(dirs[objDir], names, solves)])
  }

  /** lib/reducer.py:283-323. solve-field itself, with the ra, dec and
      radius it is given, is outside the model: `solves(name)` says whether
      it finds a solution for a frame. */
  method SolvePlate(fs: FileSystem, objDir: string, solves: string -> bool) returns (r: Result<seq<string>, IoError>)
    modifies fs
    ensures (r, fs.dirs) == SolvePlateSpec(old(fs.dirs), objDir, solves)
  {
    if objDir !in fs.dirs {
      return Err(FileNotFound(objDir));
    }
    var objList := Listing(fs.dirs[objDir], "reduced", ".fit");
    var i := 0;
    while i < |objList|
      invariant 0 <= i <= |objList|
      invariant fs.dirs == old(fs.dirs)[objDir := SolveHere(old(fs.dirs)[objDir], objList[..i], solves)]
    {
      SolveNext(fs, objDir, objList, i, solves, old(fs.dirs));
      i := i + 1;
    }
    assert objList[..i] == objList;
    return Ok(objList);
  }

  /** The body of solve_plate's loop for frame `i`. */
  method SolveNext(fs: FileSystem, objDir: string, objList: seq<string>, i: nat, solves: string -> bool, ghost base: Dirs)
    requires i < |objList| && objDir in base
    requires fs.dirs == base[objDir := SolveHere(base[objDir], objList[..i], solves)]
    modifies fs
    ensures fs.dirs == base[objDir := SolveHere(base[objDir], objList[..i + 1], solves)]
  {
    var obj := objList[i];
    assert objList[..i + 1][..i] == objList[..i];
    if !fs.IsFile(objDir, "wcs-" + obj) {
      SolveFrameIn(fs, objDir, obj, solves(obj));
      UpdateTwice(base, objDir, SolveHere(base[objDir], objList[..i], solves),
                  SolveHere(base[objDir], objList[..i + 1], solves));
    }
  }

  /** The loop never removes a `.fit` file. */
  lemma {:induction false} SolveHereKeeps(files: Dir, names: seq<string>, solves: string -> bool, n: string)
    requires forall j :: 0 <= j < |names| ==> PyStr.EndsWith(names[j], ".fit")
    requires PyStr.EndsWith(n, ".fit") && n in files
    ensures n in SolveHere(files, names, solves)
    decreases |names|
  {
    if names != [] {
      var init := names[..|names| - 1];
      var last := names[|names| - 1];
      assert forall j :: 0 <= j < |init| ==> init[j] == names[j];
      SolveHereKeeps(files, init, solves, n);
      var prev := SolveHere(files, init, solves);
      if "wcs-" + last !in prev {
        SolveFrameSpec(prev, last, solves(last));
      }
    }
  }

  /** After the loop every frame has its `wcs-` solution when solve-field
      solves it or the solution was there before. */
  lemma {:induction false} SolveHereSolves(files: Dir, names: seq<string>, solves: string -> bool, k: nat)
    requires forall j :: 0 <= j < |names| ==> PyStr.EndsWith(names[j], ".fit")
    requires k < |names| && (solves(names[k]) || "wcs-" + names[k] in files)
    ensures "wcs-" + names[k] in SolveHere(files, names, solves)
    decreases |names|
  {
    SuffixAfterPrefix("wcs-", names[k], ".fit");
    if "wcs-" + names[k] in files {
      SolveHereKeeps(files, names, solves, "wcs-" + names[k]);
    } else {
      var init := names[..|names| - 1];
      var last := names[|names| - 1];
      var prev := SolveHere(files, init, solves);
      if k == |names| - 1 {
        if "wcs-" + last !in prev {
          SolveFrameSpec(prev, last, true);
        }
      } else {
        assert forall j :: 0 <= j < |init| ==> init[j] == names[j];
        SolveHereSolves(files, init, solves, k);
        if "wcs-" + last !in prev {
          SolveFrameSpec(prev, last, solves(last));
        }
      }
    }
  }

  // ---------------------------------------------------------------------------
  // make_stack

  /** lib/reducer.py:192-217 as written: the existence test looks in the
      object directory, but the extant stack is then read as "stack.fit"
      relative to the working directory `cwd`, which only the building
      branch changes to the object directory. */
  function MakeStackAsWritten(dirs: Dirs, cwd: string, objDir: string): (Result<Blob, IoError>, Dirs) {
    if IsFileIn(dirs, objDir, StackName) then
      if IsFileIn(dirs, cwd, StackName) then (Ok(dirs[cwd][StackName]), dirs)
      else (Err(FileNotFound(StackName)), dirs)
    else if objDir !in dirs then (Err(FileNotFound(objDir)), dirs)
    else if Listing(dirs[objDir], "a-wcs-reduced-", ".fit") == [] then (Err(EmptyCombine), dirs)
    else
      var m := Master(Stack, Listing(dirs[objDir], "a-wcs-reduced-", ".fit"));
      (Ok(m), dirs[objDir := dirs[objDir][StackName := m]])
  }

  /** make_stack reading the extant stack from the object directory. */
  function MakeStackSpec(dirs: Dirs, objDir: string): (Result<Blob, IoError>, Dirs) {
    if IsFileIn(dirs, objDir, StackName) then (Ok(dirs[objDir][StackName]), dirs)
    else if objDir !in dirs then (Err(FileNotFound(objDir)), dirs)
    else if Listing(dirs[objDir], "a-wcs-reduced-", ".fit") == [] then (Err(EmptyCombine), dirs)
    else
      var m := Master(Stack, Listing(dirs[objDir], "a-wcs-reduced-", ".fit"));
      (Ok(m), dirs[objDir := dirs[objDir][StackName := m]])
  }

  method MakeStack(fs: FileSystem, objDir: string) returns (r: Result<Blob, IoError>)
    modifies fs
    ensures (r, fs.dirs) == MakeStackSpec(old(fs.dirs), objDir)
  {
    if fs.IsFile(objDir, StackName) {
      return Ok(fs.dirs[objDir][StackName]);
    }
    if objDir !in fs.dirs {
      return Err(FileNotFound(objDir));
    }
    var stackList := Listing(fs.dirs[objDir], "a-wcs-reduced-", ".fit");
    if stackList == [] {
      return Err(EmptyCombine);
    }
    var stack := Master(Stack, stackList);
    var _ := fs.Write(objDir, StackName, stack);
    return Ok(stack);
  }

  /** The two agree whenever the working directory is the object directory. */
  lemma MakeStackInObjDir(dirs: Dirs, objDir: string)
    ensures MakeStackAsWritten(dirs, objDir, objDir) == MakeStackSpec(dirs, objDir)
  {
  }

  /** A stack in the object directory is not found when the working
      directory is another one. */
  lemma MakeStackAsWrittenMissesStack()
    ensures var dirs: Dirs := map["obj" := map[StackName := Stored(0)], "home" := map[]];
            && MakeStackAsWritten(dirs, "home", "obj").0 == Err(FileNotFound(StackName))
            && MakeStackSpec(dirs, "obj").0 == Ok(Stored(0))
  {
  }

  /** An extant stack is returned as it is; a built one combines exactly
      the aligned, solved, reduced frames of the directory, and fails when
      there are none; a second call returns the same stack and changes
      nothing. */
  lemma MakeStackReuses(dirs: Dirs, objDir: string)
    ensures var res := MakeStackSpec(dirs, objDir);
            && (IsFileIn(dirs, objDir, StackName) ==> res == (Ok(dirs[objDir][StackName]), dirs))
            && (res.0.Err? <==>
                  || objDir !in dirs
                  || (!IsFileIn(dirs, objDir, StackName) && Listing(dirs[objDir], "a-wcs-reduced-", ".fit") == []))
            && (res.0.Err? ==> res.1 == dirs)
            && (res.0.Ok? && !IsFileIn(dirs, objDir, StackName) ==>
                  && res.0.value.Master? && res.0.value.kind == Stack && res.0.value.inputs != []
                  && Sorting.StrictlySorted(res.0.value.inputs)
                  && (forall n :: n in res.0.value.inputs <==> n in dirs[objDir] && Matches(n, "a-wcs-reduced-", ".fit")))
            && (res.0.Ok? ==> MakeStackSpec(res.1, objDir) == res)
  {
  }

  // ---------------------------------------------------------------------------
  // The chain reduce_objects -> solve_plate -> align_frames -> make_stack

  /** The name each step gives a raw frame `f`. */
  lemma ChainNames(f: string)
    requires Matches(f, "", ".fit")
    ensures Matches("reduced-" + f, "reduced", ".fit")
    ensures PyStr.DropLast("reduced-" + f, 4) + ".fit" == "reduced-" + f
    ensures Matches("wcs-" + ("reduced-" + f), "wcs", ".fit")
    ensures "a-" + ("wcs-" + ("reduced-" + f)) == "a-wcs-reduced-" + f
    ensures Matches("a-wcs-reduced-" + f, "a-wcs-reduced-", ".fit")
  {
    var r := "reduced-" + f;
    SuffixAfterPrefix("reduced-", f, ".fit");
    assert r[..7] == "reduced";
    PyStr.DropSuffixRestores(r, ".fit");
    var w := "wcs-" + r;
    SuffixAfterPrefix("wcs-", r, ".fit");
    assert w[..3] == "wcs";
    var a := "a-wcs-reduced-" + f;
    assert "a-" + ("wcs-" + ("reduced-" + f)) == a;
    SuffixAfterPrefix("a-wcs-reduced-", f, ".fit");
    assert a[..14] == "a-wcs-reduced-";
  }

  /** Each frame reduce_objects selects has its reduced frame afterwards. */
  lemma ReducedPresent(dirs: Dirs, objDir: string, flatDir: string, darkDir: string, f: string)
    requires var res := ReduceObjectsSpec(dirs, objDir, flatDir, darkDir); res.0.Ok? && f in res.0.value
    ensures var res := ReduceObjectsSpec(dirs, objDir, flatDir, darkDir);
            objDir in res.1 && "reduced-" + f in res.1[objDir]
  {
    var names := Selection(Listing(dirs[objDir], "", ".fit"));
    ReduceObjectsOutcome(dirs, objDir, flatDir, darkDir);
    SaveMissingCovers(dirs[objDir], names, "reduced-", Reduce);
    var k :| 0 <= k < |names| && names[k] == f;
  }

  /** A reduced frame that solve-field solves has its `wcs-` solution after
      solve_plate. */
  lemma SolvedPresent(dirs: Dirs, objDir: string, solves: string -> bool, r: string)
    requires objDir in dirs && r in dirs[objDir] && Matches(r, "reduced", ".fit") && solves(r)
    ensures var res := SolvePlateSpec(dirs, objDir, solves);
            objDir in res.1 && "wcs-" + r in res.1[objDir]
  {
    var names := Listing(dirs[objDir], "reduced", ".fit");
    forall j | 0 <= j < |names| ensures PyStr.EndsWith(names[j], ".fit") {
      assert names[j] in names;
    }
    var k :| 0 <= k < |names| && names[k] == r;
    SolveHereSolves(dirs[objDir], names, solves, k);
  }

  /** A solved frame has its aligned copy after align_frames. */
  lemma AlignedPresent(dirs: Dirs, objDir: string, w: string)
    requires objDir in dirs && w in dirs[objDir] && Matches(w, "wcs", ".fit")
    ensures var res := AlignFramesSpec(dirs, objDir);
            res.0.Ok? && objDir in res.1 && "a-" + w in res.1[objDir]
  {
    var names := Listing(dirs[objDir], "wcs", ".fit");
    assert w in names;
    var k :| 0 <= k < |names| && names[k] == w;
    SaveMissingCovers(dirs[objDir], names, "a-", AlignTo(names[0]));
  }

  /** Run in order, the steps take every selected raw frame whose reduced
      frame solve-field solves into the list of frames make_stack combines,
      so make_stack then succeeds. */
  lemma ChainReachesStack(dirs: Dirs, objDir: string, flatDir: string, darkDir: string, solves: string -> bool, f: string)
    requires var res := ReduceObjectsSpec(dirs, objDir, flatDir, darkDir); res.0.Ok? && f in res.0.value
    requires solves("reduced-" + f)
    ensures var reduced := ReduceObjectsSpec(dirs, objDir, flatDir, darkDir).1;
            var solved := SolvePlateSpec(reduced, objDir, solves).1;
            var aligned := AlignFramesSpec(solved, objDir);
            && aligned.0.Ok?
            && objDir in aligned.1
            && "a-wcs-reduced-" + f in Listing(aligned.1[objDir], "a-wcs-reduced-", ".fit")
            && MakeStackSpec(aligned.1, objDir).0.Ok?
  {
    var reduced := ReduceObjectsSpec(dirs, objDir, flatDir, darkDir).1;
    ReduceObjectsFrames(dirs, objDir, flatDir, darkDir);
    ChainNames(f);
    ReducedPresent(dirs, objDir, flatDir, darkDir, f);
    SolvedPresent(reduced, objDir, solves, "reduced-" + f);
    var solved := SolvePlateSpec(reduced, objDir, solves).1;
    AlignedPresent(solved, objDir, "wcs-" + ("reduced-" + f));
  }
}
