# Hades alert-triage core in Dafny

Hades is a toolkit for following up gravitational-wave and gamma-ray alerts
with a small telescope. This project models its deterministic core and
proves properties of it:

- **router** (`libraries/router.py`): decoding of classic `Key: value` notices, the
  topic dispatch table, the GUANO record branching, and the per-event file
  life cycle of `process_kafka_alert`. The life cycle covers the raw record,
  the sky map, the 90 percent MOC, and the ranked field and galaxy lists,
  which are built from the survey field table and the galaxy-catalog cut.
  The sky-map step covers the peak, the descending sort, the cumulative
  sum, the crossing index and the MOC column, with cells indexed by HEALPix
  NUNIQ. Before any file is written, an update reads its event parameters
  and the sky-map header, and a missing key raises. Writing the MOC sorts
  a view of the sky map's first rows by UNIQ, so the rankings made in the
  same call read the map with those rows reordered.
- **priority** (`libraries/priority.py`): the survey field grid and its
  cache, the galaxy-catalog cut, and the two rankings by sky-map density.
- **reducers** (`libraries/reducer.py`, `lib/reducer.py`):
  - `make_mask` writes a boolean array in place. The model marks the
    border with the row and column extents the code evidently intends (see
    "## Findings").
  - The pipeline steps are modelled as bookkeeping: which files each step
    reads, writes, skips or reuses, and where it raises.
- **small parsers and writers**:
  - the SourceExtractor configuration files and catalog reader (`lib/sextractor.py`);
  - the camera table and observing log (`lib/reader.py`);
  - the PanSTARRS query checks and URLs (`libraries/querier.py`);
  - the team alert message (`libraries/alerts.py`);
  - the overscan slices of the trimming script (`scripts/quicktrim.py`).

Modules:

| module | file | models |
|---|---|---|
| `Wrappers` | `wrappers.dfy` | Option and Result |
| `PyStr` | `strings.dfy` | the Python `str` operations the code uses: `split`, `split()`, `strip`, `lower`, `join`, `hex`, `startswith`/`endswith`, slicing off a suffix |
| `Sorting` | `sorting.dfy` | a descending sort by key, and `sorted()` of a set of names |
| `Disk` | `disk.dfy` | directories as maps from names to contents, `glob` patterns, presence-guarded writes, `rm`/`mv`/`shutil.move`, solve-field's clean-up |
| `Skymap` | `skymap.dfy` | NUNIQ, pixel area, argmax, cumulative sum and credible region, MOC column |
| `Router` | `router.dfy` | `libraries/router.py` |
| `Priority` | `priority.dfy` | `libraries/priority.py` |
| `Mask` | `mask.dfy` | `make_mask` (the same code in both reducer files) |
| `Reducer` | `reducer.dfy` | `libraries/reducer.py` pipeline steps |
| `LibReducer` | `lib_reducer.dfy` | `lib/reducer.py` pipeline steps |
| `Sextractor` | `sextractor.dfy` | `lib/sextractor.py` |
| `Reader` | `reader.dfy` | `lib/reader.py` |
| `Querier` | `querier.dfy` | `libraries/querier.py` |
| `Alerts` | `alerts.dfy` | `libraries/alerts.py` |
| `Quicktrim` | `quicktrim.dfy` | `scripts/quicktrim.py` |

Code that works by changing state is modelled with state:

- Objects whose fields change are classes:
  - the per-event files (`Router.EventStore`);
  - the field cache (`Priority.FieldCache`);
  - the file system of the reducers (`Disk.FileSystem`);
  - the working directory of SourceExtractor (`Sextractor.TextFiles`);
  - the MIME message (`Alerts.Message`);
  - the query result table (`Querier.Table`).
- The mask is an `array2<bool>`.
- The loops of the source are `while`/`for` loops. Each loop method is proved equal to a function of its inputs. The properties are then proved about that function.

Library calls outside the program become parameters:

- trigonometry and the galactic transform;
- the sky-map density crossmatch and the Sun's RA;
- `float()` of a catalog token and the ISO-time check;
- whether solve-field solves a frame;
- the text SourceExtractor writes.

Where the code's comments and its behaviour differ, the model follows the behaviour:

- The 90 percent region keeps the cells before the crossing index, so the cell whose running total reaches 0.9 is left out.
- A topic without a handler is decoded verbosely and raises nothing.
- An update alert without a sky map raises as soon as a ranked list is missing (the source's UnboundLocalError, `Router.SkymapUnbound` here).

## Model

| member | source | states |
|---|---|---|
| Router.EntryIffSeparator | libraries/router.py:26 | a notice line contributes an entry exactly when it contains ": " |
| Router.EntryFromSeparator | libraries/router.py:26-31 | the key is the stripped text before the first ": ", the value the stripped text between the first and the second ": " (or to the end) |
| Router.Entries | libraries/router.py:24-33 | the notice has at most one entry per line |
| Router.Zip | libraries/router.py:35 | `zip(keys, items)` pairs the k-th key with the k-th item |
| Router.DecodeClassicNotice | libraries/router.py:18-41 | the loop and the dict build return the dictionary of the notice's entries |
| Router.NoticeLines | libraries/router.py:20-33 | the loop over the lines collects keys and items that pair up into the entries of the lines, in order |
| Router.NoticeLine | libraries/router.py:26-31 | one line appends its entry, if it has one, and nothing else |
| Router.DictOfZip | libraries/router.py:35 | `dict(zip(keys, items))` is the dictionary of the pairs |
| Router.DictKeys | libraries/router.py:35 | a key is in the dictionary exactly when some pair carries it |
| Router.DictLastWins | libraries/router.py:35 | a repeated key keeps the value of its last line |
| Router.EntryInEntries | libraries/router.py:24-31 | every line that yields an entry contributes it |
| Router.EntryOfEntries | libraries/router.py:24-31 | every entry comes from a line that yields it |
| Router.DictOfLinesKeys | libraries/router.py:24-35 | a key is decoded exactly when some line yields an entry for it |
| Router.NoticeKeyIff | libraries/router.py:20-35 | the same for the notice text split on newlines |
| Router.ReadKeys | libraries/router.py:48-90 | reading keys succeeds exactly when all are present, and then gives their values in order; otherwise it raises KeyError for the first missing key |
| Router.RouteJson | libraries/router.py:981-991 | the three JSON topics, and only they, go to `process_kafka_alert` |
| Router.RouteFermi | libraries/router.py:993-1013 | the seven Fermi topics, and only they, go to the Fermi handler |
| Router.FermiTopicsRouted | libraries/router.py:993-1013 | each Fermi topic reaches the Fermi handler |
| Router.RouteSwift | libraries/router.py:1015-1023 | the three Swift topics, and only they, go to the Swift handler |
| Router.SwiftTopicsRouted | libraries/router.py:1015-1023 | each Swift topic reaches the Swift handler |
| Router.RouteOther | libraries/router.py:1025-1027 | every other topic is decoded verbosely |
| Router.DispatchCoversSubscriptions | config.py:14-59 | every handled topic is subscribed; FERMI_LAT_MONITOR, ICECUBE_CASCADE and SWIFT_XRT_POSITION are subscribed but fall through to the verbose decode |
| Router.ProcessClassic | libraries/router.py:44-615 | a Fermi or Swift notice is read without error exactly when every key of its topic's branch is in the decoded notice |
| Router.ProcessIceCube | libraries/router.py:869-887 | the IceCube record is read exactly when its thirteen plain keys are present and `neutrino_flux_sensitivity_range` is an object holding `flux_sensitivity` and `sensitive_energy_range`; the fifteen values come back in reading order; a non-object range raises TypeError, and a KeyError names a key that is missing |
| Router.ReadGuano | libraries/router.py:906-975 | a GUANO record read without error runs the branches its record number selects |
| Router.GuanoRecordOneFallsThrough | libraries/router.py:929-975 | as written, a well-formed record 1 runs its own branch and then also the "could not read" branch |
| Router.GuanoBranchesExclusive | libraries/router.py:929-975 | with one branch per record, exactly records 1 to 4 are read and each by one branch; this differs from the code only for record 1 |
| Router.OriginOf | libraries/router.py:633-642 | the id's first character classifies the event: 'M' or 'T' mock, 'S' real, anything else unknown; an empty id raises |
| Router.PathsFor | libraries/router.py:644-648 | the five per-event paths are pairwise different |
| Router.EndsDiffer | libraries/router.py:644-648 | two names whose fixed suffixes differ at the same distance from the end differ |
| Router.WriteIfAbsent | libraries/router.py:650-655 | a guarded write adds the path with the given contents when it is absent and otherwise changes nothing; no other file changes |
| Router.ProcessUpdate | libraries/router.py:696-865 | an update keeps every existing file and adds only files of the event |
| Router.SaveMaps | libraries/router.py:811-830 | saving the sky map and the MOC keeps every existing file and adds exactly those two paths |
| Router.RankFields | libraries/router.py:836-847 | a missing field list runs field_generator and is written when the table is built and a sky map is bound; on an error no file changes, and with a sky map the only error is a zero field size; the cached table is the old one or the generated one, and a saved table is kept when regeneration is off |
| Router.RankGalaxies | libraries/router.py:850-864 | a missing galaxy list runs field_generator again and is written when the table is built and a sky map is bound, with the same error and cache rules as the field list |
| Router.Rank | libraries/router.py:836-864 | ranking keeps every file, adds at most the two lists, fails with a sky map only on a zero field size, and leaves the cache as field_generator does |
| Router.ReadNested | libraries/router.py:737-745 | `m[key][k]` for each inner key succeeds exactly when `m[key]` is an object holding them all, and gives their values in order; a missing outer key raises KeyError for it, a non-object raises TypeError, and any other KeyError names a missing inner key |
| Router.ReadEvent | libraries/router.py:704-754 | the event parameters are read exactly when `event` is an object with the seven common keys and, for a Burst event, duration and central frequency, or, for a CBC event, `properties` and `classification` objects with their keys; the values come in reading order, and a missing or non-object `event` raises KeyError or TypeError |
| Router.UpdateReadError | libraries/router.py:704-768 | an update's reads succeed exactly when the event parameters can be read, `event` holds a `skymap` entry, and a non-empty sky map's header holds OBJECT, DATE-OBS and MJD-OBS; a failing event-parameter read raises first, and a missing `skymap` entry raises KeyError('skymap') |
| Router.UnreadableUpdateRaises | libraries/router.py:650-768 | an update whose reads fail raises that lookup error after saving only the raw record, and leaves the field cache as it was |
| Router.RankingTableRows | libraries/router.py:811-864 | the table the rankings read holds the sky map's rows; when the MOC is written in this call its first rows carry the MOC's UNIQ values in the MOC's order and the others stay in density order; otherwise it is the density-sorted map |
| Router.ProcessLocalized | libraries/router.py:757-864 | an update whose record reads cleanly and whose sky map is usable saves the record, the sorted map and the MOC, then ranks against the sky map as the MOC step left it |
| Router.EventStore.SaveSkymap | libraries/router.py:811-830 | the files afterwards are those with the sky map and MOC saved when absent, and the rows returned are the table the rankings read |
| Router.EventStore.constructor | libraries/router.py:618 | the store starts with the given setup and files, and a fresh field cache holding the saved survey table, if any, and the regeneration setting |
| Router.EventStore.SaveIfAbsent | libraries/router.py:650-655 | `if not os.path.isfile`: write |
| Router.EventStore.RemoveIfPresent | libraries/router.py:663-665 | `if os.path.isfile`: `rm`; the path is gone afterwards |
| Router.EventStore.RemoveEventFiles | libraries/router.py:660-691 | a retraction removes the event's five files and nothing else |
| Router.EventStore.ProcessGwAlert | libraries/router.py:620-867 | the method's result, its files and the field cache afterwards equal the life-cycle function of the files and cache before |
| Router.EventStore.RunUpdate | libraries/router.py:756-865 | the update steps' result, files and field cache equal the update function, field_generator being called once per missing list |
| Router.EmptyIdTouchesNothing | libraries/router.py:633 | an empty superevent id raises before any file is touched |
| Router.JsonWrittenOnce | libraries/router.py:650-657 | the raw record is saved on first delivery whatever the alert type, and a re-delivery never rewrites it |
| Router.RetractionRemovesAll | libraries/router.py:660-691 | after a retraction none of the five files exists, and nothing else changes |
| Router.NeverOverwrites | libraries/router.py:650-865 | any other alert never removes or rewrites a file, and adds only files of its event |
| Router.OtherTypesOnlySaveJson | libraries/router.py:657-696 | an alert type other than the update types and RETRACTION writes at most the raw record |
| Router.ProcessIdempotent | libraries/router.py:620-867 | delivering the same alert twice has the effect of delivering it once |
| Router.RankIdempotent | libraries/router.py:836-864 | ranking again right after ranking, even against a table the MOC step reordered, returns the same result and changes no file and no cache |
| Router.SurveyFileWrites | libraries/router.py:836-855 | `survey_fields.dat` is left as it was or holds the generated table; a saved table survives when regeneration is off, and only update alerts can write it |
| Router.RankingsPublished | libraries/router.py:836-864 | with a readable record, a usable sky map and a table field_generator can give, an update succeeds; a missing field list is sort_field_skymap of that table and a missing galaxy list sort_galaxy_skymap of the catalog cut, both by the crossmatched density of the sky map as the MOC step left it; the table is cached whenever a list was made |
| Router.RankPublishes | libraries/router.py:836-864 | the same for the ranking step alone, from any files |
| Router.MocHoldsRegion | libraries/router.py:791-831 | after an update with a readable record, a usable sky map and no MOC yet, the MOC file holds the UNIQ values of the density-sorted map cut before the 90 percent crossing, in ascending order and as a permutation; that region holds less than 90 percent and the next cell would reach it; the alert ends without error or with the zero-field-size error |
| Router.NoSkymapNeedsRankings | libraries/router.py:756-865 | with a readable record and no sky map, an update saves the raw record; with both lists present it succeeds; otherwise field_generator runs and the alert raises: the zero-field-size error when the table cannot be built, the unbound sky map otherwise, and the cache holds what field_generator left |
| Skymap.Pow4 | libraries/router.py:784 | 4^n is at least 1 |
| Skymap.LevelOf | libraries/router.py:784 | the decoded level is the one whose NUNIQ range [4·4^l, 16·4^l) holds the value |
| Skymap.LevelUnique | libraries/router.py:784 | that level is unique |
| Skymap.UniqDecodes | libraries/router.py:784 | decoding the NUNIQ of a pixel gives back its level and index |
| Skymap.UniqEncodes | libraries/router.py:784 | every NUNIQ from 4 up encodes an existing pixel of its level |
| Skymap.PixelArea | libraries/router.py:795-796 | a pixel's area is positive |
| Skymap.PixelAreaPartitions | libraries/router.py:795-796 | the pixels of one level tile the sphere, and each is four pixels of the next level |
| Skymap.ArgMax | libraries/router.py:781-785 | `np.argmax` returns the first index of the largest value |
| Skymap.Densities | libraries/router.py:781 | the PROBDENSITY column of the table |
| Skymap.PeakOf | libraries/router.py:781-785 | an empty map raises; otherwise the peak is a row of the map |
| Skymap.PeakIsFirstMaximum | libraries/router.py:781-785 | the peak row has the largest density, every earlier row a smaller one, and its level and pixel encode its UNIQ |
| Skymap.CrossingIndex | libraries/router.py:799-805 | `searchsorted` on the running total finds the first index whose total reaches the level |
| Skymap.Crossing | libraries/router.py:799-805 | the same, searched from the start |
| Skymap.CrossingMonotone | libraries/router.py:799-805 | a higher level is reached no earlier |
| Skymap.SortedByDensity | libraries/router.py:792 | the sorted map is a permutation of the map, in non-increasing density |
| Skymap.SortedKeepsValid | libraries/router.py:792 | sorting keeps every UNIQ valid |
| Skymap.Region | libraries/router.py:824 | the region is the sorted map cut before the crossing index |
| Skymap.RegionIsCutBeforeCrossing | libraries/router.py:799-824 | the region holds less than the level, and adding the next cell would reach it; no cell left out is denser than a cell kept |
| Skymap.PrefixMassMonotone | libraries/router.py:799-802 | with no negative density the running total never decreases |
| Skymap.CrossingIsSearchsorted | libraries/router.py:802-805 | with no negative density the cumulative sum is sorted, and the first index whose total reaches the level is the insertion point searchsorted returns: every earlier total is below the level, every later one reaches it |
| Skymap.PrefixAreaMonotone | libraries/router.py:808 | the area of a prefix grows with its length |
| Skymap.RegionAreaMonotone | libraries/router.py:808 | the area of the credible region grows with the level |
| Skymap.UniqColumn | libraries/router.py:824-827 | the UNIQ column of a table |
| Skymap.MocUniqs | libraries/router.py:824-831 | the MOC column has one entry per region cell |
| Skymap.MocIsSortedRegion | libraries/router.py:824-831 | the MOC column is exactly the region's UNIQ values, in ascending order |
| Skymap.SortPrefixByUniq | libraries/router.py:824-827 | sorting the view `skymap[:i]` by UNIQ leaves the table a permutation of itself, with its first i rows a permutation of the old ones in ascending UNIQ order and the other rows in place |
| Skymap.UniqColumnSort | libraries/router.py:824-827 | sorting rows by UNIQ and taking their UNIQ column gives that column sorted |
| Skymap.MocMatchesSortedPrefix | libraries/router.py:824-831 | after the MOC step the sky map's first i rows hold, in order, exactly the UNIQ values the MOC file lists |
| Skymap.Localize | libraries/router.py:781-831 | an empty map raises; a map of valid UNIQs is localised: the peak is the first densest cell, the sorted map is a descending permutation, the region is that map cut before the 90 percent crossing (below 90 percent, and the next cell would reach it), and the MOC column is its UNIQ values |
| Priority.Ceil | libraries/priority.py:33 | `np.ceil` is the least integer at or above x |
| Priority.RaSep | libraries/priority.py:45-46 | the RA step of a strip with fields is positive |
| Priority.HexValueOfHex | libraries/priority.py:57-68 | Python's `hex` digits denote the number they print |
| Priority.Hex2Value | libraries/priority.py:57-60 | the padded strip number reads back as the number, in hex digits |
| Priority.Hex3Value | libraries/priority.py:63-68 | the padded position reads back as the number |
| Priority.FieldIdDecodes | libraries/priority.py:57-78 | a field id gives back the strip and the position it was built from |
| Priority.FieldIdInjective | libraries/priority.py:57-78 | different strips or positions give different ids |
| Priority.FirstRowAsWrittenMisplaced | libraries/priority.py:28-29 | as written, the first row has the pole's galactic coordinates but lies at RA 90, Dec 0, off strip 0; the table opens on that row, fails exactly when the corrected one does, and differs from it only in that row's RA and Dec |
| Priority.FieldsAtOwnPosition | libraries/priority.py:28-78 | in the corrected table, with the first row at the pole, the table opens on strip 0, and every row carries the galactic coordinates of its own position |
| Priority.GenerateFields | libraries/priority.py:28-84 | the nested loop builds the table as written: the first row at RA 90, Dec 0, then every strip in order; a zero field size raises |
| Priority.AppendStrip | libraries/priority.py:55-84 | the inner loop appends the strip's fields in order |
| Priority.Tiles | libraries/priority.py:55-78 | the first n fields of a strip are its fields 0 to n-1 |
| Priority.TilesCoverCircle | libraries/priority.py:45-71 | every field's RA lies in [0, 360) |
| Priority.TileFirst | libraries/priority.py:43-53 | a strip's first field is at RA 0 on odd strips and half a step on even strips |
| Priority.TileStep | libraries/priority.py:46-71 | neighbouring fields of a strip are 360/nfr apart |
| Priority.FieldIdsUnique | libraries/priority.py:29-84 | the ids of the table are pairwise distinct |
| Priority.FieldSettings | libraries/priority.py:71-78 | every generated field has the constant survey settings, moon phase 1, its own galactic coordinates and an RA in [0, 360) |
| Priority.StripAndTile | libraries/priority.py:44-78 | every generated field is field idy of some strip idx ≥ 1 |
| Priority.FieldCache.constructor | libraries/priority.py:24 | the cache starts with the saved table, if any, and the regeneration setting |
| Priority.FieldCache.FieldGenerator | libraries/priority.py:22-92 | the call's result and the cache afterwards equal the field_generator function of the cache before |
| Priority.FieldGeneration | libraries/priority.py:22-92 | when no table is saved or regeneration is set, the result is the generated table; a table returned is the one saved afterwards; a failure leaves the saved table as it was |
| Priority.FieldGenerationRepeats | libraries/priority.py:22-92 | a second call right after the first returns the same result and leaves the same cache |
| Priority.GenerateTargets | libraries/priority.py:95-144 | the cut keeps at most the catalog's rows |
| Priority.TargetsMembers | libraries/priority.py:114-142 | a galaxy is kept exactly when it is a complete catalog row that passes the declination cut and the window test |
| Priority.TargetsWindowWraps | libraries/priority.py:129-142 | the window's upper end is always below its lower end, so a galaxy is kept exactly when it is above the cut and circumpolar, or its RA is above the Sun's RA plus 45 degrees, or at most the Sun's RA minus 45 degrees, the ends not wrapped into [0, 360) |
| Priority.WithFieldProb | libraries/priority.py:150-159 | every field gets its own crossmatched density, in table order |
| Priority.Retag | libraries/priority.py:163 | only the program changes |
| Priority.SortFieldSkymap | libraries/priority.py:147-165 | one ranked row per field |
| Priority.SortFieldSkymapRanks | libraries/priority.py:159-163 | the ranking is in non-increasing density; each row carries its own density and the event's program |
| Priority.SortFieldSkymapKeepsFields | libraries/priority.py:150-163 | the ranking holds exactly the input fields, renamed |
| Priority.SortedFieldFrom | libraries/priority.py:162 | every ranked row is an input field |
| Priority.SortedFieldTo | libraries/priority.py:162 | every input field is ranked |
| Priority.WithGalaxyProb | libraries/priority.py:170-176 | every galaxy gets its own density, in catalog order |
| Priority.SortGalaxySkymap | libraries/priority.py:168-183 | the result has min(50, n) rows |
| Priority.SortGalaxySkymapTopFifty | libraries/priority.py:176-181 | the result is the head of a descending ranking of all galaxies: no galaxy left out is denser than one kept |
| Mask.Bound | libraries/reducer.py:154-174 | a slice bound resolves as Python's does: counted from the end when negative, clipped to the axis |
| Mask.Edge | libraries/reducer.py:139 | the border width 100 // binning is between 0 and 100 |
| Mask.Regions | libraries/reducer.py:154-174 | five slice assignments, the first the bad-column block |
| Mask.FloorDiv | libraries/reducer.py:146-149 | `//` by a positive divisor is floor division |
| Mask.CorrectedMaskIsBorderAndBlock | libraries/reducer.py:137-174 | with `dx` the columns and `dy` the rows, a pixel is marked exactly when it lies in the border of width 100 // binning or in the bad-column block |
| Mask.AsWrittenMissesBorder | libraries/reducer.py:140-174 | as written, a 2532 x 3352 frame at binning 1 leaves a border pixel unmarked |
| Mask.MakeMask | libraries/reducer.py:129-190 | the mask has the frame's shape and is set exactly on the corrected regions; the boxes are the five named apertures of those regions |
| Mask.MakeBoxes | lib/reducer.py:175-188 | exactly the five box names, each the aperture centred on its region |
| Mask.SetRegion | lib/reducer.py:152-173 | a slice assignment sets the slice's pixels and keeps every other pixel |
| Disk.Listing | libraries/reducer.py:31-34 | a sorted glob lists exactly the names that match the pattern, in strictly increasing order |
| Disk.SaveMissingSpec | libraries/reducer.py:229-274 | the presence-guarded loop gives every input its output, never removes or rewrites a file, writes a new output from its own input, and writes nothing else |
| Disk.SaveMissingKeeps | libraries/reducer.py:234-235 | every file present before the loop is still there with the same contents |
| Disk.SaveMissingCovers | libraries/reducer.py:229-274 | every input has its output after the loop |
| Disk.SaveMissingProducts | libraries/reducer.py:264-274 | an output that was missing holds its own input's product |
| Disk.SaveMissingOnly | libraries/reducer.py:229-274 | the loop writes nothing but the outputs of its inputs |
| Disk.SaveMissingUnchanged | libraries/reducer.py:229-235 | when every output exists the loop writes nothing |
| Disk.SolveFrameSpec | libraries/reducer.py:300-318 | solving a frame stores the solution under `wcs-` plus the frame's name and leaves every other `.fit` file as it was |
| Disk.RemoveHelpers | libraries/reducer.py:311-317 | the seven `rm` calls remove the seven helper files |
| Disk.SaveMissingFrom | libraries/reducer.py:229-274 | the loop run against the file system is the presence-guarded loop |
| Disk.SolveFrameIn | libraries/reducer.py:299-318 | one frame's plate solve run against the file system |
| Disk.FileSystem.constructor | libraries/reducer.py:27-28 | the file system starts with the given directories |
| Disk.FileSystem.Write | libraries/reducer.py:45 | a write succeeds only in an existing directory |
| Disk.FileSystem.Remove | libraries/reducer.py:311 | `rm` removes the file; a missing file changes nothing |
| Disk.FileSystem.Rename | libraries/reducer.py:318 | `mv` moves an existing file into an existing directory; otherwise nothing changes |
| Reducer.AlignFrames | libraries/reducer.py:25-66 | the method's effect equals the align_frames function |
| Reducer.AlignFramesFailures | libraries/reducer.py:27-36 | align_frames fails exactly when `wcs` is missing, has no frame, or `align` is missing; a failure writes nothing |
| Reducer.AlignFramesWrites | libraries/reducer.py:40-64 | every frame gets its aligned copy, a new copy is the frame reprojected onto the first, and nothing is removed, overwritten or written elsewhere |
| Reducer.AlignFramesRerun | libraries/reducer.py:42-51 | a second run changes nothing and returns the same frames |
| Reducer.BuildMaster | libraries/reducer.py:73-88 | the read-or-build of a master file; combining an empty list of frames raises |
| Reducer.MakeDark | libraries/reducer.py:69-90 | the master dark is read when present and otherwise built from the directory's frames, raising when there are none |
| Reducer.MakeFlat | libraries/reducer.py:93-126 | the flatfield is read when present, otherwise built after the master dark is read, raising when there are no flat frames |
| Reducer.MakeStack | libraries/reducer.py:193-212 | the stack is read when present, otherwise built from the aligned frames, raising when there are none |
| Reducer.MasterReused | libraries/reducer.py:73-88 | an existing master is reused unchanged; an input directory without frames raises and changes nothing; a built one combines exactly the input directory's frames, at least one; a second call changes nothing |
| Reducer.BackgroundFor | libraries/reducer.py:264-271 | the scalar median is used exactly for 'flat'; '2d' and any other value use the 2-D background |
| Reducer.ReduceObjects | libraries/reducer.py:215-276 | the method's effect equals the reduce_objects function |
| Reducer.ReduceEach | libraries/reducer.py:229-274 | the frame loop |
| Reducer.ReduceOne | libraries/reducer.py:231-274 | one frame: skipped when `red-` exists, otherwise reduced or stopped by a missing master |
| Reducer.ReduceAllClosed | libraries/reducer.py:229-274 | the loop writes nothing when every frame is reduced, stops on the first missing master or `cal` before writing, and is otherwise the presence-guarded loop |
| Reducer.ReduceAllStops | libraries/reducer.py:229-274 | after an error the later frames change nothing |
| Reducer.ReduceObjectsOutcome | libraries/reducer.py:215-276 | reduce_objects succeeds exactly when `raw` exists and either all frames are reduced or both masters and `cal` exist; a failure writes nothing; a success writes each missing `red-` frame with the chosen background |
| Reducer.ReduceObjectsRerun | libraries/reducer.py:229-235 | a second run changes nothing |
| Reducer.ReduceAllOnlyCal | libraries/reducer.py:232-274 | the loop writes only in `cal` |
| Reducer.ReduceAllRerun | libraries/reducer.py:234-235 | after a clean run every output is present |
| Reducer.SolveAllSolves | libraries/reducer.py:290-318 | every frame solve-field solves, without a solution in `wcs`, ends the loop with its solution in `cal` |
| Reducer.SolveFrameKeeps | libraries/reducer.py:300-318 | solving one frame leaves other solutions alone |
| Reducer.MoveAllFile | libraries/reducer.py:320-326 | each listed file leaves `cal` and arrives unchanged in `wcs`; other files stay |
| Reducer.MoveAllDirs | libraries/reducer.py:320-326 | moving changes no other directory |
| Reducer.SolvePlates | libraries/reducer.py:279-328 | the method's effect equals the solve_plates function |
| Reducer.SolveEach | libraries/reducer.py:290-318 | the solving loop |
| Reducer.MoveEach | libraries/reducer.py:320-326 | the moving loop |
| Reducer.SolvePlatesOutcome | libraries/reducer.py:279-328 | a missing `cal` raises; after a success every newly solved frame's solution is in `wcs` and no solution is left in `cal` |
| Reducer.SolvedFramesListed | libraries/reducer.py:290-321 | each solved frame's solution is among the names moved |
| Reducer.SolutionListed | libraries/reducer.py:318-321 | a `.fit` frame's solution matches `wcs-*.fit` |
| Reducer.SolvePlatesMoved | libraries/reducer.py:320-326 | the final loop leaves no solution in `cal` and brings each new solution to `wcs` |
| LibReducer.AlignFrames | lib/reducer.py:26-61 | the method's effect equals the align_frames function |
| LibReducer.AlignFramesOutcome | lib/reducer.py:29-59 | align_frames fails exactly when the directory is missing or has no `wcs*.fit` frame; a success gives every frame its copy, writes new copies aligned to the first frame, and removes or overwrites nothing |
| LibReducer.ContainsTail | lib/reducer.py:235-239 | a name containing "wcs-reduced" or "a-wcs-reduced" contains "reduced" |
| LibReducer.SelectedIff | lib/reducer.py:234-244 | a frame is kept exactly when its name contains neither "reduced" nor "stack" |
| LibReducer.SelectionMembers | lib/reducer.py:234-244 | the kept names are exactly the listed names that pass |
| LibReducer.SelectionSorted | lib/reducer.py:246 | filtering a sorted listing keeps it sorted |
| LibReducer.SelectFrames | lib/reducer.py:234-244 | the if/elif filter loop |
| LibReducer.ReduceObjects | lib/reducer.py:219-281 | the method's effect equals the reduce_objects function |
| LibReducer.ReduceObjectsFrames | lib/reducer.py:231-246 | the frames are exactly the sorted `.fit` names containing neither "reduced" nor "stack" |
| LibReducer.ReduceObjectsOutcome | lib/reducer.py:219-281 | reduce_objects fails exactly when the directory is missing, or a frame needs reducing and a master is missing; a success writes each missing `reduced-` frame |
| LibReducer.SolvePlate | lib/reducer.py:283-323 | the method's effect equals the solve_plate function |
| LibReducer.SolveNext | lib/reducer.py:297-321 | one pass of the loop |
| LibReducer.SolveHereKeeps | lib/reducer.py:297-321 | the loop never removes a `.fit` file |
| LibReducer.SolveHereSolves | lib/reducer.py:297-321 | afterwards every frame solved now or before has its `wcs-` solution |
| LibReducer.MakeStackInObjDir | lib/reducer.py:199-207 | run from the object directory, the code as written and the corrected one agree |
| LibReducer.MakeStackAsWrittenMissesStack | lib/reducer.py:199-203 | as written, a stack in the object directory is not found from another working directory |
| LibReducer.MakeStack | lib/reducer.py:192-217 | the method's effect equals the corrected make_stack |
| LibReducer.MakeStackReuses | lib/reducer.py:199-215 | an existing stack is returned as it is; make_stack fails exactly when the directory is missing or, with no stack, holds no `a-wcs-reduced-*.fit` file, and then changes nothing; a built stack combines exactly those files, sorted; a second call changes nothing |
| LibReducer.ChainNames | lib/reducer.py:210 | the names each step gives a raw frame chain to `a-wcs-reduced-<frame>` |
| LibReducer.ReducedPresent | lib/reducer.py:279 | each selected frame has its reduced frame afterwards |
| LibReducer.SolvedPresent | lib/reducer.py:321 | a solved reduced frame has its `wcs-` solution afterwards |
| LibReducer.AlignedPresent | lib/reducer.py:59 | a solved frame has its aligned copy afterwards |
| LibReducer.ChainReachesStack | lib/reducer.py:210-214 | reduce, solve and align take every selected frame that solve-field solves into the list make_stack combines, so make_stack then succeeds |
| Sextractor.TextFiles.constructor | lib/sextractor.py:16-19 | the working directory starts with the given files |
| Sextractor.TextFiles.Create | lib/sextractor.py:69 | `open(name, "w")` empties or creates the file |
| Sextractor.TextFiles.Append | lib/sextractor.py:71 | `write` appends to the file |
| Sextractor.TextFiles.Remove | lib/sextractor.py:22-23 | `rm` removes the file |
| Sextractor.AppendEach | lib/sextractor.py:129-130 | a write loop appends each item with its terminator |
| Sextractor.WriteConv | lib/sextractor.py:58-75 | default.conv holds the five pieces |
| Sextractor.WriteFile | lib/sextractor.py:128-131 | open then loop: the file holds each item with its terminator |
| Sextractor.ConvFile | lib/sextractor.py:61-73 | default.conv is the five rows, the last without a newline, and reads back as those rows |
| Sextractor.WriteParam | lib/sextractor.py:112-133 | default.param holds the ten names, each with a newline |
| Sextractor.ParamFile | lib/sextractor.py:115-131 | default.param reads back as the ten names, in order |
| Sextractor.SexEntries | lib/sextractor.py:141-209 | fifty entries, the first CATALOG_NAME with `<object>.cat` |
| Sextractor.SexNumbers | lib/sextractor.py:136-172 | the GAIN and PIXEL_SCALE entries carry the two parameters |
| Sextractor.SexLines | lib/sextractor.py:212-215 | one line per entry |
| Sextractor.WriteSex | lib/sextractor.py:135-218 | default.sex holds the text of the fifty entries |
| Sextractor.WriteEntries | lib/sextractor.py:211-216 | the entry loop writes the text of its entries |
| Sextractor.WriteEntry | lib/sextractor.py:213-215 | one entry's tokens, each followed by a space, then a newline |
| Sextractor.SexFileReadsBack | lib/sextractor.py:211-216 | read back line by line and split on whitespace, default.sex gives each entry on its own line |
| Sextractor.CatalogNameAgrees | lib/sextractor.py:14-29 | SourceExtractor finds in default.sex the catalog name that is later opened, when the frame name is one word |
| Sextractor.RowColumns | lib/sextractor.py:31-50 | the tokens read are FWHM_IMAGE, FWHM_WORLD and FLUX_GROWTHSTEP of default.param; a line yields a star exactly when it is no comment, neither coordinate is the zero string and the three tokens are numbers; a comment yields nothing |
| Sextractor.GatherFails | lib/sextractor.py:31-50 | the loop raises exactly when some line raises |
| Sextractor.GatherStars | lib/sextractor.py:25-50 | the three lists grow together, entry k of each from the k-th star line |
| Sextractor.ReadCatalog | lib/sextractor.py:25-51 | the catalog loop |
| Sextractor.GatherStops | lib/sextractor.py:31-50 | after a raise the later lines change nothing |
| Sextractor.MeanBounds | lib/sextractor.py:52-54 | the mean of values in [lo, hi] lies in [lo, hi] |
| Sextractor.RunSextractor | lib/sextractor.py:11-56 | with a one-word frame name, the run returns the means of the catalog's star lines and leaves the catalog written and default.conv and default.nnw removed |
| Sextractor.Extract | lib/sextractor.py:14-23 | configuration written, SourceExtractor run, two files removed |
| Sextractor.ExtractedCatalog | lib/sextractor.py:14-29 | with a one-word frame name, the catalog is written under the name that is opened |
| Sextractor.ConfiguredSex | lib/sextractor.py:16-19 | after configuration, default.sex holds the entries for the default gain and pixel scale |
| Sextractor.ReadSummary | lib/sextractor.py:29-56 | reading the catalog file gives the summary of its text |
| Sextractor.RunExtractor | lib/sextractor.py:21 | SourceExtractor writes its catalog under the CATALOG_NAME it reads |
| Sextractor.WriteConfig | lib/sextractor.py:16-19 | the four configuration files are written |
| Sextractor.CatalogNotConfig | lib/sextractor.py:22-29 | the catalog is neither of the removed files |
| Reader.ConfigCamera | lib/reader.py:36-42 | the dictionary has exactly the five keys |
| Reader.CameraTable | lib/reader.py:22-34 | the ST8300 entry and the default entry, value by value |
| Reader.DefaultCamera | lib/reader.py:18-34 | every name but "ST8300" gives the default camera's table |
| Reader.InverseGain | lib/reader.py:25-33 | for both cameras the inverse gain is the gain's reciprocal to within 0.1 percent, and the frame is at most 4096 pixels on a side |
| Reader.FrameList | lib/reader.py:48-52 | the frames are exactly the `*.fit` names, sorted |
| Reader.FrameRowFields | lib/reader.py:59-83 | a frame yields a row exactly when its four required cards are present and DATE-OBS is a timestamp; the row's six fields come from those cards, with "NxN" binning and "n/a" for a missing filter |
| Reader.ReadDirectory | lib/reader.py:45-92 | the method equals read_directory with its imports in place |
| Reader.DataTable | lib/reader.py:56-85 | the row loop |
| Reader.RowsStop | lib/reader.py:56-85 | after a raise the later frames change nothing |
| Reader.RowsInOrder | lib/reader.py:56-85 | one row per frame, in frame order, each the frame's own |
| Reader.RowsFail | lib/reader.py:56-85 | the loop raises exactly when some frame raises |
| Reader.ReadDirectoryRows | lib/reader.py:48-92 | the result is the sorted frame names and one row per name, the k-th row describing the k-th name |
| Reader.ReadDirectoryFails | lib/reader.py:56-85 | read_directory raises exactly when one of the frames does |
| Reader.ReadDirectoryAsWritten | lib/reader.py:47 | as written, the function raises NameError |
| Reader.ReadDirectoryAsWrittenFails | lib/reader.py:45-52 | on an empty directory the code as written raises while the corrected one returns two empty lists |
| Querier.CheckLegalIff | libraries/querier.py:14-27 | the check passes exactly for dr1 with mean or stack and dr2 with mean, stack or detection; a bad release raises the listed message |
| Querier.BadColsMembers | libraries/querier.py:75-78 | a column is reported exactly when requested and its lower-cased stripped form is not a table column |
| Querier.ColumnIndex | libraries/querier.py:70-73 | the `dcols` loop gives the lower-cased metadata names |
| Querier.BadColumns | libraries/querier.py:75-78 | the `badcols` loop gives the bad columns in request order |
| Querier.Search | libraries/querier.py:55-82 | the method equals the search function: the same request or the same ValueError |
| Querier.SearchSucceeds | libraries/querier.py:57-80 | a search succeeds exactly when there are parameters, the table and release are legal, the format is known and every column exists; no parameters raises first |
| Querier.SearchRequestShape | libraries/querier.py:67-82 | the request goes to `baseurl/release/table.format` with the caller's parameters plus "[c1,c2,...]" columns |
| Querier.UrlsAgree | libraries/querier.py:44-67 | the metadata URL is `baseurl/release/table/metadata`, sharing its prefix with the search URL and differing from it |
| Querier.ConeDataKeys | libraries/querier.py:32-35 | ra, dec and radius override keywords of the same name; all others pass unchanged and nothing else is added |
| Querier.ConeNeverEmpty | libraries/querier.py:30-37 | a cone search never fails for want of parameters |
| Querier.ConeSendsCone | libraries/querier.py:30-37 | a cone request carries the cone's ra, dec and radius |
| Querier.StripAll | libraries/querier.py:149 | every entry stripped, in order |
| Querier.KeepColumns | libraries/querier.py:150 | an entry is kept exactly when it is non-empty and not a comment |
| Querier.ParseJoined | libraries/querier.py:148-150 | plain names joined by ", " parse back to the names |
| Querier.ColumnSpecParses | libraries/querier.py:148-150 | the cone query asks for the fourteen columns, in order |
| Querier.Unsentinel | libraries/querier.py:160 | each -999.0 becomes NaN and every other cell stays |
| Querier.Table.constructor | libraries/querier.py:154 | the table starts with the given columns |
| Querier.Table.MaskSentinels | libraries/querier.py:156-162 | each band column is masked, and the missing columns are reported in band order |
| Querier.MaskedKeys | libraries/querier.py:156-162 | masking keeps the set of columns |
| Querier.MagColumnsDistinct | libraries/querier.py:157 | the five band column names differ |
| Querier.MaskedColumns | libraries/querier.py:156-162 | each band column is unsentinelled; every other column is unchanged |
| Querier.NoSentinelLeft | libraries/querier.py:160 | no band column holds -999.0 afterwards |
| Querier.MissingIff | libraries/querier.py:161-162 | the reported names are exactly the absent band columns |
| Alerts.SubjectNamesEvent | libraries/alerts.py:36-54 | the event name can be read back from the subject between a fixed prefix and suffix; the observer subject is the same for every event |
| Alerts.SubjectsDistinct | libraries/alerts.py:36-54 | two subjects are equal exactly when their kinds agree and, except in the observer notice, so do the event names |
| Alerts.SubjectFirstChar | libraries/alerts.py:37-53 | the subject opens with its kind's initial |
| Alerts.EndsWithNewline | libraries/alerts.py:37-54 | every subject and every body ends with a newline |
| Alerts.NewEventBodyShared | libraries/alerts.py:36-42 | the new-event body is used exactly for PRELIMINARY and INITIAL |
| Alerts.Message.constructor | libraries/alerts.py:31 | a new message has no headers and no parts |
| Alerts.Message.SetHeader | libraries/alerts.py:32-33 | setting a header changes only that header |
| Alerts.Message.Attach | libraries/alerts.py:57 | attaching appends one part |
| Alerts.ComposeAlert | libraries/alerts.py:31-57 | the message is from the account, to the list joined by ", ", with the kind's subject, and carries the kind's body as its one part |
| Quicktrim.Zip | scripts/quicktrim.py:57-61 | `zip` pairs index-wise, as many pairs as the shorter list |
| Quicktrim.TapRanges | scripts/quicktrim.py:39-50 | the tap loop yields start and end lists that pair into the data ranges |
| Quicktrim.ZipSnoc | scripts/quicktrim.py:41-42 | lists that grow together grow their pairing by one |
| Quicktrim.SliceList | scripts/quicktrim.py:54-61 | the concatenation loop builds one slice per pair |
| Quicktrim.Overscan | scripts/quicktrim.py:28-61 | the x and y slices are the data ranges of the 8 and 2 taps |
| Quicktrim.DataRangesAt | scripts/quicktrim.py:39-50 | tap k covers [k·pitch, k·pitch + width) |
| Quicktrim.RangesSeparated | scripts/quicktrim.py:39-50 | the ranges are width long, increasing and disjoint, with a gap of pitch − width |
| Quicktrim.FrameGaps | scripts/quicktrim.py:28-50 | x runs from [0, 1320) to [10500, 11820) with 180-column gaps; y is [0, 5280) and [5320, 10600), 40 rows apart |
| Quicktrim.Range | scripts/quicktrim.py:85-86 | `range(a, b)` holds exactly the integers from a up to b |
| Quicktrim.KeptIff | scripts/quicktrim.py:85-86 | an index is kept exactly when it lies in the taps and its offset in its tap is below the width; taps·width indices are kept |
| Quicktrim.TrimmedSize | scripts/quicktrim.py:85-86 | 10560 columns and 10560 rows are kept; a column is kept exactly when it is below 12000 and its offset in its 1500-column tap is below 1320 |
| Quicktrim.TrimmedPathInjective | scripts/quicktrim.py:90 | the frame's name follows an 18-character prefix, so different frames go to different files |

## Left out

- Network and mail I/O: the Kafka consumer, the SMTP session and sending (libraries/alerts.py:26-28, 58-62), the HTTP requests of the querier and the response parsing (libraries/querier.py:46-50, 84-94), and the Gaia and MAST queries (libraries/querier.py:97-135). These are outside the program.
- Logging and printing: `Utils.log` is not defined in libraries/utils.py, so it is treated as doing nothing. The verbose printout of `read_directory` (lib/reader.py:87-90) and `print` calls elsewhere are left out.
- Foreign library calls become parameters or are not modelled:
  - FITS, QTable and base64 decoding of the sky-map attachment;
  - the sky coordinates of the peak (libraries/router.py:787);
  - `SkyCoord` galactic transforms, `get_sun` and `crossmatch`;
  - ccdproc, reproject, Background2D and photutils image arithmetic;
  - solve-field and SourceExtractor themselves.
  The model keeps which files these read and write, not their pixel data.
- Floating point is modelled as Dafny `real`. `str()` and `format` of floats (`.4f` column formats, `%.3f` in the field file, the `str(inverse_gain)` of default.sex) are taken as given texts. NaN is a separate cell value (`Querier.Cell.NaN`), and `np.mean` of an empty list is `None`.
- The content of default.nnw (lib/sextractor.py:78-110) is a parameter.
- The image loop of scripts/quicktrim.py (lines 70-91: reading frames, bias subtraction, writing) is left out. The kept indices (`np.r_`) and the output name are modelled.
- `read_frame` (lib/reader.py:94-132) is left out. It only reads header cards into a dictionary through WCS and sigma clipping.
- `make_dark` and `make_flat` of lib/reducer.py (lines 63-125) follow the same read-or-build logic as in libraries/reducer.py. `Reducer.MasterSpec` models both.
- Router.ProcessClassic: the Fermi and Swift handlers are modelled only by the keys they read. The values they log are left out.
- Router.ProcessIceCube, Router.ReadGuano: JSON records are taken as already decoded. Only key presence and, for IceCube, the nesting of `neutrino_flux_sensitivity_range` are modelled.
- Router.ProcessIceCube: the `len(coincident_events)` of the printout (libraries/router.py:899) is not modelled. It would raise TypeError for a value without a length.
- Mask.MakeMask: the border is marked with `dx` the number of columns and `dy` the number of rows, as the code evidently intends. The slices as written are modelled only by Mask.AsWrittenMissesBorder (see "## Findings").
- Mask.MakeBoxes: the box apertures are centred on the corrected regions, as for Mask.MakeMask.
- LibReducer.MakeStack: an extant stack is read from `stack_path`. The read relative to the working directory, as written, is modelled only by LibReducer.MakeStackAsWritten (see "## Findings").
- Reader.ReadDirectory: the function runs with `os` and `glob` imported. As written it raises NameError, which Reader.ReadDirectoryAsWritten models (see "## Findings"). The directory is taken to exist: `os.chdir(path)` (lib/reader.py:47) raises FileNotFoundError for a missing one, which is not modelled.
- Priority.FieldCache.FieldGenerator: the table written with `float_format='%.3f'` (libraries/priority.py:86) and read back with `read_csv` (line 90) is cached as the exact table, not as its rounded text.
- Reducer.MakeDark, Reducer.MakeFlat, Reducer.MakeStack, LibReducer.AlignFrames, LibReducer.ReduceObjects, LibReducer.MakeStack: directory arguments are taken as absolute paths. After `os.chdir` (libraries/reducer.py:79, 107, 204; lib/reducer.py:29, 207, 231), a relative directory given to a later call, or joined after the change as at lib/reducer.py:43, 59, 199 and 279, would name another directory.
- Skymap.Crossing: the crossing index is the first index whose running total reaches the level. Skymap.CrossingIsSearchsorted shows this is what `searchsorted` returns when no density is negative. With a negative density the cumulative sum is not sorted, and the index numpy's binary search would return is not modelled.
- PyStr.Lower: only ASCII letters are folded. Python's `str.lower` also folds other letters, so Querier.BadCols may differ on column names with non-ASCII capitals.
- Priority.TargetsWindowWraps: the Sun's RA is a real parameter, and the window ends are not wrapped into [0, 360). Arithmetic on astropy's `Longitude` returns an unwrapped `Angle`.
- Priority.SortFieldSkymap, Priority.SortGalaxySkymap, Skymap.SortedByDensity: pandas and numpy sorts are not stable. The model uses one particular descending sort, and its lemmas state only what holds for any such order: non-increasing by density, a permutation, and the top fifty.
- Querier.Search: `columns=None` and `columns=[]` are both falsy in `if columns:`, so the model has one empty list for both.
- Querier.ColumnSpecParses: the column-spec literal of libraries/querier.py:148 is written as its fourteen names joined by ", ", which is the same text.
- Sextractor.RunSextractor: the result is stated only for frame names without whitespace. With whitespace, SourceExtractor would read a different CATALOG_NAME token than the one sextractor opens.
- Router.EventStore.ProcessGwAlert: the superevent id and alert type are fields of the decoded alert, so their KeyErrors (libraries/router.py:626, 657) are not modelled. The time and GraceDB URL reads (libraries/router.py:627-628) are not modelled either.
- Router.UpdateReadError: the values read and printed at libraries/router.py:704-768 are not modelled, only whether each read raises. Whether the `skymap` entry is empty is taken from whether the alert carries a decoded sky map. A non-empty entry that base64 or QTable cannot decode raises in those libraries, which is not modelled.
- The working directory that `os.chdir` changes is an explicit argument, and directories are maps from names to contents.

## Findings

| source | as written | input that shows it | evidently intended | confidence | as-written member | corrected member |
|---|---|---|---|---|---|---|
| libraries/router.py:929-975 | record 1 is handled by its own `if`, and the `if`/`elif` chain that follows sends it on to the final `else`, which reports the notice unreadable | a GUANO record with `record_number` 1 and all its keys | one `if`/`elif` chain, so record 1 is read by its branch only | not executed | Router.GuanoRecordOneFallsThrough | Router.GuanoBranchesExclusive |
| libraries/priority.py:28-29 | the first field row has RA 90, Dec 0, but the galactic l and b of RA 0, Dec 90 | any field size: row "00.000" has Dec 0 while strip 0 is at Dec 90 | the first row at the pole (RA 0, Dec 90), where its id and its galactic coordinates put it | not executed | Priority.FirstRowAsWrittenMisplaced | Priority.FieldsAtOwnPosition |
| libraries/reducer.py:140-174, lib/reducer.py:139-173 | `dx = shape[0]` (rows) and `dy = shape[1]` (columns) are used as column and row extents of `[row, column]` slices | a 2532 x 3352 frame at binning 1: pixel (2500, 3000) lies 32 rows from the edge but is not masked | `dx` the number of columns and `dy` the number of rows, so the whole border of width 100 // binning is masked | not executed | Mask.AsWrittenMissesBorder | Mask.CorrectedMaskIsBorderAndBlock |
| lib/reducer.py:199-203 | the existence test looks for `obj_dir/stack.fit`, but the extant stack is read as "stack.fit" relative to the working directory | a stack in "obj" with the working directory "home" | read the stack from `stack_path` | not executed | LibReducer.MakeStackAsWrittenMissesStack | LibReducer.MakeStackReuses |
| lib/reader.py:47 | `os` and `glob` are used but not imported, so `read_directory` raises NameError | any directory, e.g. an empty one | `import os, glob` at the top of the file | not executed | Reader.ReadDirectoryAsWrittenFails | Reader.ReadDirectoryRows |
