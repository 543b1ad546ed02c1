/**
  The part of the file system the reduction pipelines see: directories of
  named files, `os.path.isfile`, writes, `rm`/`mv` run as subprocesses,
  `shutil.move`, and `glob.glob` patterns of the form `prefix*suffix`.

  The working directory that the code changes with `os.chdir` is an explicit
  argument here. File contents are reduced to what the bookkeeping needs:
  which step produced a file and from which inputs.
*/
module Disk {
  import opened Wrappers
  import PyStr
  import Sorting

  datatype Background = MedianLevel | Background2D

  datatype Kind = Dark | Flatfield | Stack

  /** What a file holds. */
  datatype Blob =
    | Stored(id: nat)                                 // a file the pipeline did not write
    | Aligned(frame: string, reference: string)       // `frame` reprojected onto `reference`
    | Reduced(frame: string, background: Background)  // dark- and flat-corrected, background removed
    | Solved(frame: string)                           // solve-field's `.new` output for `frame`
    | Master(kind: Kind, inputs: seq<string>)         // ccdproc.combine of `inputs`

  datatype IoError =
    | FileNotFound(path: string)
    | IndexError
    | EmptyCombine                // ccdproc.combine of an empty list of frames

  type Dir = map<string, Blob>

  /** `os.path.join(dir, name)` and `dir + "/" + name` */
  function Join(dir: string, name: string): string {
    dir + "/" + name
  }

  /** Two entries of one directory are the same path exactly when they
      have the same name. */
  lemma JoinDistinct(dir: string, a: string, b: string)
    ensures Join(dir, a) == Join(dir, b) <==> a == b
  {
    assert Join(dir, a) == (dir + "/") + a && Join(dir, b) == (dir + "/") + b;
    PrefixInjective(dir + "/", a, b);
  }

  /** `name` matches the glob pattern `prefix*suffix`; as glob does, a `*`
      at the start of the pattern does not match a leading '.'. */
  predicate Matches(name: string, prefix: string, suffix: string) {
    && |name| >= |prefix| + |suffix|
    && PyStr.StartsWith(name, prefix)
    && PyStr.EndsWith(name, suffix)
    && (name == [] || name[0] != '.' || (prefix != [] && prefix[0] == '.'))
  }

  /** `sorted(glob.glob(prefix + "*" + suffix))` in a directory. */
  function Listing(files: Dir, prefix: string, suffix: string): (names: seq<string>)
    ensures forall n :: n in names <==> n in files && Matches(n, prefix, suffix)
    ensures Sorting.StrictlySorted(names)
  {
    Sorting.SortedNames(set n | n in files && Matches(n, prefix, suffix))
  }

  /** Putting a prefix in front of a name keeps its suffix. */
  lemma SuffixAfterPrefix(prefix: string, name: string, suffix: string)
    requires PyStr.EndsWith(name, suffix)
    ensures PyStr.EndsWith(prefix + name, suffix)
  {
    assert (prefix + name)[|prefix + name| - |suffix|..] == name[|name| - |suffix|..];
  }

  predicate IsFileIn(dirs: map<string, Dir>, dir: string, name: string) {
    dir in dirs && name in dirs[dir]
  }

  /** For each name in order, write `prefix + name` from `step` unless a file
      of that name is already there: the presence-guarded loop the pipeline
      steps share. */
  function SaveMissing(files: Dir, names: seq<string>, prefix: string, make: Step): Dir {
    if names == [] then files
    else
      var prev := SaveMissing(files, names[..|names| - 1], prefix, make);
      var n := names[|names| - 1];
      if prefix + n in prev then prev else prev[prefix + n := Product(make, n)]
  }

  /** What a step writes for an input frame. */
  datatype Step = AlignTo(reference: string) | ReduceWith(background: Background)

  function Product(step: Step, frame: string): Blob {
    match step
    case AlignTo(reference) => Aligned(frame, reference)
    case ReduceWith(background) => Reduced(frame, background)
  }

  /** After the loop, every input has its output, files that were there are
      untouched, a new output holds its own input's product, and nothing else
      is written. */
  lemma SaveMissingSpec(files: Dir, names: seq<string>, prefix: string, make: Step)
    ensures var r := SaveMissing(files, names, prefix, make);
            && (forall n :: n in files ==> n in r && r[n] == files[n])
            && (forall k :: 0 <= k < |names| ==> prefix + names[k] in r)
            && (forall k :: 0 <= k < |names| && prefix + names[k] !in files ==>
                  r[prefix + names[k]] == Product(make, names[k]))
            && (forall n :: n in r ==> n in files || exists k :: 0 <= k < |names| && n == prefix + names[k])
  {
    SaveMissingKeeps(files, names, prefix, make);
    SaveMissingCovers(files, names, prefix, make);
    SaveMissingProducts(files, names, prefix, make);
    SaveMissingOnly(files, names, prefix, make);
  }

  /** The loop neither removes nor overwrites a file. */
  lemma {:induction false} SaveMissingKeeps(files: Dir, names: seq<string>, prefix: string, make: Step)
    ensures var r := SaveMissing(files, names, prefix, make);
            forall n :: n in files ==> n in r && r[n] == files[n]
    decreases |names|
  {
    if names != [] {
      SaveMissingKeeps(files, names[..|names| - 1], prefix, make);
    }
  }

  /** Every input has its output after the loop. */
  lemma {:induction false} SaveMissingCovers(files: Dir, names: seq<string>, prefix: string, make: Step)
    ensures var r := SaveMissing(files, names, prefix, make);
            forall k :: 0 <= k < |names| ==> prefix + names[k] in r
    decreases |names|
  {
    if names != [] {
      var init := names[..|names| - 1];
      SaveMissingCovers(files, init, prefix, make);
      var r := SaveMissing(files, names, prefix, make);
      forall k | 0 <= k < |names|
        ensures prefix + names[k] in r
      {
        if k < |names| - 1 {
          assert names[k] == init[k];
        }
      }
    }
  }

  /** An output the loop wrote holds its own input's product. */
  lemma {:induction false} SaveMissingProducts(files: Dir, names: seq<string>, prefix: string, make: Step)
    ensures var r := SaveMissing(files, names, prefix, make);
            forall k :: 0 <= k < |names| && prefix + names[k] !in files ==>
              prefix + names[k] in r && r[prefix + names[k]] == Product(make, names[k])
    decreases |names|
  {
    if names != [] {
      var init := names[..|names| - 1];
      var last := names[|names| - 1];
      SaveMissingProducts(files, init, prefix, make);
      SaveMissingOnly(files, init, prefix, make);
      var prev := SaveMissing(files, init, prefix, make);
      var r := SaveMissing(files, names, prefix, make);
      forall k | 0 <= k < |names| && prefix + names[k] !in files
        ensures prefix + names[k] in r && r[prefix + names[k]] == Product(make, names[k])
      {
        if k < |names| - 1 {
          assert names[k] == init[k];
          if prefix + last == prefix + names[k] {
            PrefixInjective(prefix, last, names[k]);
          }
        } else if prefix + last in prev {
          var k' :| 0 <= k' < |init| && prefix + last == prefix + init[k'];
          PrefixInjective(prefix, last, init[k']);
        }
      }
    }
  }

  /** The loop writes nothing but the outputs of its inputs. */
  lemma {:induction false} SaveMissingOnly(files: Dir, names: seq<string>, prefix: string, make: Step)
    ensures var r := SaveMissing(files, names, prefix, make);
            forall n :: n in r ==> n in files || exists k :: 0 <= k < |names| && n == prefix + names[k]
    decreases |names|
  {
    if names != [] {
      var init := names[..|names| - 1];
      SaveMissingOnly(files, init, prefix, make);
      var prev := SaveMissing(files, init, prefix, make);
      var r := SaveMissing(files, names, prefix, make);
      forall n | n in r
        ensures n in files || exists k :: 0 <= k < |names| && n == prefix + names[k]
      {
        if n in prev && n !in files {
          var k :| 0 <= k < |init| && n == prefix + init[k];
          assert n == prefix + names[k];
        } else if n !in prev {
          assert n == prefix + names[|names| - 1];
        }
      }
    }
  }

  /** The same prefix before two names gives the same string exactly when
      the names are equal. */
  lemma PrefixInjective(prefix: string, a: string, b: string)
    ensures prefix + a == prefix + b <==> a == b
  {
    assert a == (prefix + a)[|prefix|..];
    assert b == (prefix + b)[|prefix|..];
  }

  /** When every output is already there the loop writes nothing. */
  lemma {:induction false} SaveMissingUnchanged(files: Dir, names: seq<string>, prefix: string, make: Step)
    requires forall k :: 0 <= k < |names| ==> prefix + names[k] in files
    ensures SaveMissing(files, names, prefix, make) == files
    decreases |names|
  {
    if names != [] {
      var init := names[..|names| - 1];
      assert forall k :: 0 <= k < |init| ==> init[k] == names[k];
      SaveMissingUnchanged(files, init, prefix, make);
    }
  }

  /** The seven helper files solve-field leaves next to `stem.new`. */
  function HelperFiles(stem: string): set<string> {
    { stem + ".axy", stem + ".corr", stem + ".match", stem + ".rdls",
      stem + ".solved", stem + ".wcs", stem + "-indx.xyls" }
  }

  /** Plate-solving one frame in a directory: solve-field writes `stem.new`
      when it finds a solution, the seven helper files are removed with `rm`,
      and `mv` renames `stem.new`, if there is one, to `wcs-stem.fit`.
      A failing `rm` or `mv` only prints an error. */
  function SolveFrame(files: Dir, obj: string, solves: bool): Dir {
    var stem := PyStr.DropLast(obj, 4);
    var solved := if solves then files[stem + ".new" := Solved(obj)] else files;
    var cleaned := solved - HelperFiles(stem);
    if stem + ".new" in cleaned then
      (cleaned - {stem + ".new"})["wcs-" + stem + ".fit" := cleaned[stem + ".new"]]
    else cleaned
  }

  /** Solving a frame whose name ends in ".fit" stores the solution under
      `wcs-` + the frame's name, and leaves every other `.fit` file as it was. */
  lemma SolveFrameSpec(files: Dir, obj: string, solves: bool)
    requires PyStr.EndsWith(obj, ".fit")
    ensures var r := SolveFrame(files, obj, solves);
            && PyStr.DropLast(obj, 4) + ".fit" == obj
            && (solves ==> "wcs-" + obj in r && r["wcs-" + obj] == Solved(obj))
            && (forall n :: PyStr.EndsWith(n, ".fit") && n != "wcs-" + obj ==>
                  (n in r <==> n in files) && (n in files ==> r[n] == files[n]))
  {
    var stem := PyStr.DropLast(obj, 4);
    PyStr.DropSuffixRestores(obj, ".fit");
    assert "wcs-" + stem + ".fit" == "wcs-" + obj;
    // No `.fit` name is removed by the clean-up or is `stem.new`: their last
    // characters differ.
    forall n | PyStr.EndsWith(n, ".fit") && n != "wcs-" + obj
      ensures (n in SolveFrame(files, obj, solves) <==> n in files)
    {
      assert n[|n| - 1] == 't';
    }
    var n := stem + ".new";
    assert n[|n| - 1] == 'w';
    assert (stem + ".axy")[|stem| + 3] == 'y';
    assert (stem + ".corr")[|stem| + 4] == 'r';
    assert (stem + ".match")[|stem| + 5] == 'h';
    assert (stem + ".rdls")[|stem| + 4] == 's';
    assert (stem + ".solved")[|stem| + 6] == 'd';
    assert (stem + ".wcs")[|stem| + 3] == 's';
    assert (stem + "-indx.xyls")[|stem| + 9] == 's';
  }

  function MoveIn(dirs: map<string, Dir>, fromDir: string, fromName: string, toDir: string, toName: string): map<string, Dir>
    requires IsFileIn(dirs, fromDir, fromName) && toDir in dirs
  {
    var removed := dirs[fromDir := dirs[fromDir] - {fromName}];
    removed[toDir := removed[toDir][toName := dirs[fromDir][fromName]]]
  }

  lemma UpdateTwice(dirs: map<string, Dir>, dir: string, a: Dir, b: Dir)
    ensures dirs[dir := a][dir := b] == dirs[dir := b]
  {
  }

  lemma MinusMinus(d: Dir, a: set<string>, b: set<string>)
    ensures d - a - b == d - (a + b)
  {
  }

  /** The seven `rm` calls after solve-field. */
  method RemoveHelpers(fs: FileSystem, dir: string, stem: string)
    requires dir in fs.dirs
    modifies fs
    ensures fs.dirs == old(fs.dirs)[dir := old(fs.dirs)[dir] - HelperFiles(stem)]
  {
    ghost var base := fs.dirs;
    ghost var gone: set<string> := {};
    assert base[dir] - gone == base[dir];
    assert base[dir := base[dir]] == base;
    RemoveOne(fs, dir, stem + ".axy", base, gone);
    gone := gone + {stem + ".axy"};
    RemoveOne(fs, dir, stem + ".corr", base, gone);
    gone := gone + {stem + ".corr"};
    RemoveOne(fs, dir, stem + ".match", base, gone);
    gone := gone + {stem + ".match"};
    RemoveOne(fs, dir, stem + ".rdls", base, gone);
    gone := gone + {stem + ".rdls"};
    RemoveOne(fs, dir, stem + ".solved", base, gone);
    gone := gone + {stem + ".solved"};
    RemoveOne(fs, dir, stem + ".wcs", base, gone);
    gone := gone + {stem + ".wcs"};
    RemoveOne(fs, dir, stem + "-indx.xyls", base, gone);
    gone := gone + {stem + "-indx.xyls"};
    assert gone == HelperFiles(stem);
  }

  /** One `rm` in a directory from which the files `gone` are already removed. */
  method RemoveOne(fs: FileSystem, dir: string, name: string, ghost base: map<string, Dir>, ghost gone: set<string>)
    requires dir in base && fs.dirs == base[dir := base[dir] - gone]
    modifies fs
    ensures fs.dirs == base[dir := base[dir] - (gone + {name})]
  {
    fs.Remove(dir, name);
    UpdateTwice(base, dir, base[dir] - gone, base[dir] - gone - {name});
    MinusMinus(base[dir], gone, {name});
  }


  /** The presence-guarded loop run against the file system, continuing
      from frame `start` over what earlier frames left in `dir`. */
  method SaveMissingFrom(fs: FileSystem, dir: string, names: seq<string>, prefix: string, make: Step,
                         start: nat, ghost base: Dir)
    requires start <= |names| && dir in fs.dirs
    requires fs.dirs[dir] == SaveMissing(base, names[..start], prefix, make)
    modifies fs
    ensures fs.dirs == old(fs.dirs)[dir := SaveMissing(base, names, prefix, make)]
  {
    var i := start;
    while i < |names|
      invariant start <= i <= |names|
      invariant fs.dirs == old(fs.dirs)[dir := SaveMissing(base, names[..i], prefix, make)]
    {
      assert names[..i + 1][..i] == names[..i];
      if !fs.IsFile(dir, prefix + names[i]) {
        var _ := fs.Write(dir, prefix + names[i], Product(make, names[i]));
      }
      i := i + 1;
    }
    assert names[..i] == names;
  }

  /** solve_plates / solve_plate for one frame, run in `dir`. */
  method SolveFrameIn(fs: FileSystem, dir: string, obj: string, solves: bool)
    requires dir in fs.dirs
    modifies fs
    ensures fs.dirs == old(fs.dirs)[dir := SolveFrame(old(fs.dirs)[dir], obj, solves)]
  {
    var stem := PyStr.DropLast(obj, 4);
    if solves {
      var _ := fs.Write(dir, stem + ".new", Solved(obj));
    }
    RemoveHelpers(fs, dir, stem);
    var _ := fs.Rename(dir, stem + ".new", dir, "wcs-" + stem + ".fit");
  }

  /** The directories, as the code reaches them by path. */
  class FileSystem {
    var dirs: map<string, Dir>

    constructor (dirs: map<string, Dir>)
      ensures this.dirs == dirs
    {
      this.dirs := dirs;
    }

    /** `os.path.isfile(os.path.join(dir, name))` */
    predicate IsFile(dir: string, name: string)
      reads this
    {
      IsFileIn(dirs, dir, name)
    }

    /** Writing a file succeeds only in an existing directory; otherwise
        FileNotFoundError is raised and nothing changes. */
    method Write(dir: string, name: string, b: Blob) returns (ok: bool)
      modifies this
      ensures ok == (dir in old(dirs))
      ensures dirs == if ok then old(dirs)[dir := old(dirs)[dir][name := b]] else old(dirs)
    {
      ok := dir in dirs;
      if ok {
        dirs := dirs[dir := dirs[dir][name := b]];
      }
    }

    /** `rm` run as a subprocess: a missing file only prints an error. */
    method Remove(dir: string, name: string)
      modifies this
      ensures dir in old(dirs) ==> dirs == old(dirs)[dir := old(dirs)[dir] - {name}]
      ensures dir !in old(dirs) ==> dirs == old(dirs)
    {
      if dir in dirs {
        dirs := dirs[dir := dirs[dir] - {name}];
      }
    }

    /** Moving a file (`mv` or `shutil.move`): it succeeds when the file
        exists and the target directory does; otherwise nothing changes. */
    method Rename(fromDir: string, fromName: string, toDir: string, toName: string) returns (ok: bool)
      modifies this
      ensures ok == (IsFileIn(old(dirs), fromDir, fromName) && toDir in old(dirs))
      ensures ok ==> dirs == MoveIn(old(dirs), fromDir, fromName, toDir, toName)
      ensures !ok ==> dirs == old(dirs)
    {
      ok := IsFileIn(dirs, fromDir, fromName) && toDir in dirs;
      if ok {
        dirs := MoveIn(dirs, fromDir, fromName, toDir, toName);
      }
    }
  }
}
