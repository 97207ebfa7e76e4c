/** The colormap artifacts of a source: for every configured resolution r, a frames x r x 3
    array of the r palette colours of every extracted frame, saved as `<hash>_<r>.npy` in
    the data directory and, in encoded text form, under `map:rgb_map:resolution:<r>` of
    the source's hash, together with the source's duration (its frame count). */
module Colormap {
  import opened Wrappers
  import opened Strings
  import opened Sorting
  import opened Keys
  import opened World
  import opened Encoding
  import opened Frames

  /** COLORMAP_RESOLUTIONS */
  const Resolutions: seq<int> := [1, 4, 8, 16, 32]

  /** The data directory (XDG_DATA_HOME/vizaviz unless --data-dir says otherwise). */
  const DataDir: string := "$XDG_DATA_HOME/vizaviz"

  /** The map every colormap is stored under. */
  const RgbMap: string := "rgb_map"

  function MapPath(prefix: string, r: int): Path {
    Path(DataDir, MapFileName(prefix, r))
  }

  /** Different resolutions give different artifact names. */
  lemma MapPathInjective(prefix: string, r1: int, r2: int)
    requires MapPath(prefix, r1) == MapPath(prefix, r2)
    ensures r1 == r2
  {
    var a := IntToString(r1) + ".npy";
    var b := IntToString(r2) + ".npy";
    assert MapFileName(prefix, r1) == (prefix + "_") + a;
    assert MapFileName(prefix, r2) == (prefix + "_") + b;
    assert a == MapFileName(prefix, r1)[|prefix + "_"|..];
    assert b == MapFileName(prefix, r2)[|prefix + "_"|..];
    assert IntToString(r1) == a[..|a| - 4] == b[..|b| - 4] == IntToString(r2);
    ParseIntOfString(r1);
    ParseIntOfString(r2);
  }

  /** Different resolutions are stored under different fields. */
  lemma ResolutionFieldInjective(name: string, r1: int, r2: int)
    requires ResolutionField(name, r1) == ResolutionField(name, r2)
    ensures r1 == r2
  {
    var head := "map:" + name + ":resolution:";
    assert ResolutionField(name, r1) == head + IntToString(r1);
    assert ResolutionField(name, r2) == head + IntToString(r2);
    assert IntToString(r1) == ResolutionField(name, r1)[|head|..];
    assert IntToString(r2) == ResolutionField(name, r2)[|head|..];
    ParseIntOfString(r1);
    ParseIntOfString(r2);
  }

  // ---------------------------------------------------------------------------
  // file_already_processed (lines 355-363)

  /** The loop over the resolutions, which answers False at the first missing file. */
  function AllMapsExist(files: map<Path, Blob>, hash: string, rs: seq<int>): bool {
    if rs == [] then true
    else if MapPath(hash, rs[0]) !in files then false
    else AllMapsExist(files, hash, rs[1..])
  }

  predicate FileAlreadyProcessed(files: map<Path, Blob>, hash: string) {
    AllMapsExist(files, hash, Resolutions)
  }

  /** True exactly when every resolution's artifact exists. */
  lemma {:induction false} AllMapsExistMeans(files: map<Path, Blob>, hash: string, rs: seq<int>)
    ensures AllMapsExist(files, hash, rs) <==> forall i :: 0 <= i < |rs| ==> MapPath(hash, rs[i]) in files
    decreases |rs|
  {
    if rs != [] {
      AllMapsExistMeans(files, hash, rs[1..]);
      assert forall i :: 1 <= i < |rs| ==> rs[i] == rs[1..][i - 1];
    }
  }

  // ---------------------------------------------------------------------------
  // building one array (lines 208-219)

  /** One entry of `getcolors()` on an RGB image: a pixel count and a colour. */
  datatype Color = Color(count: int, red: Byte, green: Byte, blue: Byte)

  /** Channel `k` of a colour, in the order the fill loop enumerates them. */
  function Channel(c: Color, k: int): Byte {
    if k == 0 then c.red else if k == 1 then c.green else c.blue
  }

  /** What the outside libraries give the pipeline. */
  datatype Tools = Tools(
    quantize: (Path, int) -> Option<seq<Color>>,  // create_map; None when PIL raises
    breaks: seq<int> -> seq<bool>)                 // where numpy's str breaks the printed lines

  /** color_map: the palette of every frame, in the given order; None when one raises. */
  function Palettes(frames: seq<Path>, r: int, quantize: (Path, int) -> Option<seq<Color>>): (ps: Option<seq<seq<Color>>>)
    ensures ps.Some? ==> |ps.value| == |frames|
    ensures ps.Some? ==> forall i :: 0 <= i < |frames| ==> quantize(frames[i], r) == Some(ps.value[i])
  {
    if frames == [] then Some([])
    else match (quantize(frames[0], r), Palettes(frames[1..], r, quantize))
      case (Some(p), Some(rest)) => Some([p] + rest)
      case _ => None
  }

  /** Every palette fits in a row of `r` cells. */
  predicate Fits(pals: seq<seq<Color>>, r: int) {
    forall i :: 0 <= i < |pals| ==> |pals[i]| <= r
  }

  /** Cell channel (i, j, k): channel k of colour j of frame i, 0 beyond the palette. */
  function CellOf(pals: seq<seq<Color>>, i: int, j: int, k: int): Byte
    requires 0 <= i < |pals| && 0 <= j
  {
    if j < |pals[i]| then Channel(pals[i][j], k) else 0
  }

  function GridOf(pals: seq<seq<Color>>, r: nat): (g: seq<seq<seq<Byte>>>)
    ensures |g| == |pals|
    ensures forall i :: 0 <= i < |g| ==> |g[i]| == r
    ensures forall i, j :: 0 <= i < |g| && 0 <= j < r ==> |g[i][j]| == 3
    ensures forall i, j, k :: 0 <= i < |g| && 0 <= j < r && 0 <= k < 3 ==> g[i][j][k] == CellOf(pals, i, j, k)
  {
    seq(|pals|, i requires 0 <= i < |pals| => seq(r, j requires 0 <= j < r => seq(3, k => CellOf(pals, i, j, k))))
  }

  /** The array built for resolution `r` from the frame files: the frames are sorted,
      each is quantized, and an array of zeros is filled from the palettes. A palette
      with more than `r` colours overruns its row (IndexError). */
  function Build(frames: seq<Path>, r: int, tools: Tools): Result<seq<seq<seq<Byte>>>> {
    match Palettes(SortPaths(frames), r, tools.quantize)
    case None => Err("create_map")
    case Some(pals) =>
      if r < 0 then Err("ValueError")
      else if !Fits(pals, r) then Err("IndexError")
      else Ok(GridOf(pals, r))
  }

  /** A built array has one row of `r` cells of three channels per frame; cell j of row i
      holds colour j of the i-th frame in sorted order, and the cells beyond that frame's
      palette stay 0. */
  lemma BuildShape(frames: seq<Path>, r: int, tools: Tools)
    requires Build(frames, r, tools).Ok?
    ensures var g := Build(frames, r, tools).value;
      var sorted := SortPaths(frames);
      && |g| == |frames|
      && (forall i :: 0 <= i < |g| ==> |g[i]| == r && tools.quantize(sorted[i], r).Some?)
      && (forall i, j :: 0 <= i < |g| && 0 <= j < r ==> |g[i][j]| == 3)
      && (forall i, j, k :: 0 <= i < |g| && 0 <= j < r && 0 <= k < 3 ==>
            var pal := tools.quantize(sorted[i], r).value;
            g[i][j][k] == if j < |pal| then Channel(pal[j], k) else 0)
  {
  }

  /** Build fails exactly when a frame cannot be quantized or a palette does not fit. */
  lemma BuildFails(frames: seq<Path>, r: nat, tools: Tools)
    ensures Build(frames, r, tools).Err? <==>
      (exists i :: 0 <= i < |frames| && tools.quantize(SortPaths(frames)[i], r).None?) ||
      (exists i :: 0 <= i < |frames| && tools.quantize(SortPaths(frames)[i], r).Some? && |tools.quantize(SortPaths(frames)[i], r).value| > r)
  {
    var sorted := SortPaths(frames);
    PalettesNone(sorted, r, tools.quantize);
    var ps := Palettes(sorted, r, tools.quantize);
    if ps.Some? && !Fits(ps.value, r) {
      var i :| 0 <= i < |ps.value| && |ps.value[i]| > r;
      assert tools.quantize(sorted[i], r) == Some(ps.value[i]);
    } else if ps.Some? {
      forall i | 0 <= i < |frames| ensures tools.quantize(sorted[i], r) == Some(ps.value[i]) && |ps.value[i]| <= r {
      }
      assert Build(frames, r, tools) == Ok(GridOf(ps.value, r));
      assert !exists i :: 0 <= i < |frames| && tools.quantize(sorted[i], r).Some? && |tools.quantize(sorted[i], r).value| > r;
    }
  }

  lemma {:induction false} PalettesNone(frames: seq<Path>, r: int, quantize: (Path, int) -> Option<seq<Color>>)
    ensures Palettes(frames, r, quantize).None? <==> exists i :: 0 <= i < |frames| && quantize(frames[i], r).None?
    decreases |frames|
  {
    if frames != [] {
      PalettesNone(frames[1..], r, quantize);
      if quantize(frames[0], r).Some? && Palettes(frames[1..], r, quantize).Some? {
        forall i | 0 <= i < |frames| ensures quantize(frames[i], r).Some? {
          if i > 0 {
            assert frames[i] == frames[1..][i - 1];
          }
        }
      } else if quantize(frames[0], r).Some? {
        var i :| 0 <= i < |frames[1..]| && quantize(frames[1..][i], r).None?;
        assert frames[i + 1] == frames[1..][i];
      }
    }
  }

  // ---------------------------------------------------------------------------
  // colormap_to_db (lines 225-235)

  /** `rgb_array.flatten()`: the cells in row-major order. */
  function Flatten(g: seq<seq<seq<Byte>>>): seq<Byte> {
    if g == [] then [] else FlattenRow(g[0]) + Flatten(g[1..])
  }

  function FlattenRow(row: seq<seq<Byte>>): seq<Byte> {
    if row == [] then [] else row[0] + FlattenRow(row[1..])
  }

  lemma {:induction false} FlattenRowLength(row: seq<seq<Byte>>, width: nat)
    requires forall j :: 0 <= j < |row| ==> |row[j]| == width
    ensures |FlattenRow(row)| == |row| * width
    decreases |row|
  {
    if row != [] {
      FlattenRowLength(row[1..], width);
    }
  }

  /** A frames x r x 3 array flattens to 3r numbers per frame. */
  lemma {:induction false} FlattenLength(g: seq<seq<seq<Byte>>>, r: nat)
    requires forall i :: 0 <= i < |g| ==> |g[i]| == r
    requires forall i, j :: 0 <= i < |g| && 0 <= j < r ==> |g[i][j]| == 3
    ensures |Flatten(g)| == |g| * r * 3
    decreases |g|
  {
    if g != [] {
      FlattenRowLength(g[0], 3);
      FlattenLength(g[1..], r);
    }
  }

  /** The two fields colormap_to_db writes for an array: its encoding under the
      resolution's field, and its frame count as the duration. */
  function MapFields(g: seq<seq<seq<Byte>>>, r: int, breaks: seq<int> -> seq<bool>): (Fields, Fields) {
    var flat := Flatten(g);
    (map[ResolutionField(RgbMap, r) := Encode(flat, breaks(flat))], map["duration" := IntToString(|g|)])
  }

  /** colormap_to_db on the world: np.load raises when the artifact is missing. */
  function ColormapToDb(st: State, path: Path, r: int, prefix: string, breaks: seq<int> -> seq<bool>): Result<State> {
    if path !in st.files || !st.files[path].Grid? then Err("FileNotFoundError")
    else
      var (m, d) := MapFields(st.files[path].cells, r, breaks);
      Ok(Store(Store(st, SourceKey(prefix), m), SourceKey(prefix), d))
  }

  /** After colormap_to_db the GUI reads back the flattened array from the resolution's
      field, and the frame count from the duration; nothing else changes but those two
      fields of the source's hash. */
  lemma ColormapToDbRoundTrip(st: State, path: Path, r: int, prefix: string, breaks: seq<int> -> seq<bool>)
    requires path in st.files && st.files[path].Grid?
    ensures var g := st.files[path].cells;
      var st2 := ColormapToDb(st, path, r, prefix, breaks).value;
      && ColormapToDb(st, path, r, prefix, breaks).Ok?
      && FieldOf(st2.db, SourceKey(prefix), ResolutionField(RgbMap, r)).Some?
      && Decode(FieldOf(st2.db, SourceKey(prefix), ResolutionField(RgbMap, r)).value) == Some(Flatten(g))
      && FieldOf(st2.db, SourceKey(prefix), "duration") == Some(IntToString(|g|))
      && ParseFloat(FieldOf(st2.db, SourceKey(prefix), "duration").value) == Some(|g| as real)
      && st2.files == st.files && st2.trace == st.trace && st2.db.sets == st.db.sets
      && (forall k :: k != SourceKey(prefix) ==> HashOf(st2.db, k) == HashOf(st.db, k))
      && (forall f :: f != ResolutionField(RgbMap, r) && f != "duration" ==>
            FieldOf(st2.db, SourceKey(prefix), f) == FieldOf(st.db, SourceKey(prefix), f))
  {
    var g := st.files[path].cells;
    var flat := Flatten(g);
    var field := ResolutionField(RgbMap, r);
    var st1 := Store(st, SourceKey(prefix), map[field := Encode(flat, breaks(flat))]);
    assert ColormapToDb(st, path, r, prefix, breaks) == Ok(Store(st1, SourceKey(prefix), map["duration" := IntToString(|g|)]));
    StoreOneField(st, SourceKey(prefix), field, Encode(flat, breaks(flat)));
    StoreOneField(st1, SourceKey(prefix), "duration", IntToString(|g|));
    DecodeEncode(flat, breaks(flat));
    ResolutionFieldIsNotDuration(r);
    ParseFloatOfIntString(|g|);
  }

  lemma ResolutionFieldIsNotDuration(r: int)
    ensures ResolutionField(RgbMap, r) != "duration"
  {
    assert ResolutionField(RgbMap, r)[0] == 'm';
  }

  // ---------------------------------------------------------------------------
  // colormap_from_frames (lines 203-223)

  /** One resolution: nothing when its artifact exists; otherwise build, save, and store. */
  function MapFor(st: State, frames: seq<Path>, prefix: string, r: int, tools: Tools): Result<State> {
    var path := MapPath(prefix, r);
    if path in st.files then Ok(st)
    else match Build(frames, r, tools)
      case Err(e) => Err(e)
      case Ok(g) => ColormapToDb(st.(files := st.files[path := Grid(g)]), path, r, prefix, tools.breaks)
  }

  /** colormap_from_frames over the resolutions `rs`: the artifact paths, one per
      resolution; an exception leaves what the earlier resolutions did. */
  function FromFrames(st: State, frames: seq<Path>, prefix: string, rs: seq<int>, tools: Tools): (State, Result<seq<Path>>)
    decreases |rs|
  {
    if rs == [] then (st, Ok([]))
    else match MapFor(st, frames, prefix, rs[0], tools)
      case Err(e) => (st, Err(e))
      case Ok(st1) =>
        var (st2, r) := FromFrames(st1, frames, prefix, rs[1..], tools);
        (st2, if r.Ok? then Ok([MapPath(prefix, rs[0])] + r.value) else r)
  }

  /** Whether colormap_from_frames over `rs` may write field `f` of the source's hash. */
  function Touched(f: string, rs: seq<int>): bool {
    f == "duration" || (rs != [] && (f == ResolutionField(RgbMap, rs[0]) || Touched(f, rs[1..])))
  }

  /** `st2` keeps every file of `st` and its content, the trace, the sets and every hash
      but the source's, and of the source's hash every field but the duration and the
      resolution fields of the resolutions `rs`. */
  ghost predicate KeepsAllBut(st: State, st2: State, prefix: string, rs: seq<int>) {
    && (forall p :: p in st.files ==> p in st2.files && st2.files[p] == st.files[p])
    && st2.trace == st.trace && st2.db.sets == st.db.sets && st2.nextPid == st.nextPid
    && (forall k :: k != SourceKey(prefix) ==> HashOf(st2.db, k) == HashOf(st.db, k))
    && (forall f :: !Touched(f, rs) ==> FieldOf(st2.db, SourceKey(prefix), f) == FieldOf(st.db, SourceKey(prefix), f))
  }

  /** A resolution whose artifact is missing is built and saved, and its encoding and the
      duration are stored. */
  lemma MapForNew(st: State, frames: seq<Path>, prefix: string, r: int, tools: Tools)
    requires MapFor(st, frames, prefix, r, tools).Ok? && MapPath(prefix, r) !in st.files
    ensures var st1 := MapFor(st, frames, prefix, r, tools).value;
      && KeepsAllBut(st, st1, prefix, [r])
      && Build(frames, r, tools).Ok?
      && MapPath(prefix, r) in st1.files
      && st1.files[MapPath(prefix, r)] == Grid(Build(frames, r, tools).value)
      && FieldOf(st1.db, SourceKey(prefix), ResolutionField(RgbMap, r)).Some?
      && Decode(FieldOf(st1.db, SourceKey(prefix), ResolutionField(RgbMap, r)).value) == Some(Flatten(Build(frames, r, tools).value))
      && FieldOf(st1.db, SourceKey(prefix), "duration") == Some(IntToString(|frames|))
  {
    var path := MapPath(prefix, r);
    var g := Build(frames, r, tools).value;
    assert |g| == |frames| by { BuildShape(frames, r, tools); }
    var saved := st.(files := st.files[path := Grid(g)]);
    assert MapFor(st, frames, prefix, r, tools) == ColormapToDb(saved, path, r, prefix, tools.breaks);
    ColormapToDbRoundTrip(saved, path, r, prefix, tools.breaks);
    var st1 := MapFor(st, frames, prefix, r, tools).value;
    forall f | !Touched(f, [r])
      ensures FieldOf(st1.db, SourceKey(prefix), f) == FieldOf(st.db, SourceKey(prefix), f)
    {
      assert f != ResolutionField(RgbMap, r) && f != "duration";
    }
  }

  /** One resolution whose artifact exists changes nothing; a missing one is built and
      saved, and its encoding and the duration are stored, and nothing else changes. */
  lemma MapForEffect(st: State, frames: seq<Path>, prefix: string, r: int, tools: Tools)
    requires MapFor(st, frames, prefix, r, tools).Ok?
    ensures var st1 := MapFor(st, frames, prefix, r, tools).value;
      && KeepsAllBut(st, st1, prefix, [r])
      && MapPath(prefix, r) in st1.files
      && st1.files.Keys <= st.files.Keys + {MapPath(prefix, r)}
      && (MapPath(prefix, r) in st.files ==> st1 == st)
  {
    if MapPath(prefix, r) !in st.files {
      MapForNew(st, frames, prefix, r, tools);
    }
  }

  /** `ps` holds one artifact path per resolution of `rs`, in their order. */
  predicate PathsFor(ps: seq<Path>, prefix: string, rs: seq<int>) {
    |ps| == |rs| && forall i :: 0 <= i < |rs| ==> ps[i] == MapPath(prefix, rs[i])
  }

  lemma PathsForCons(ps: seq<Path>, prefix: string, rs: seq<int>)
    requires rs != [] && PathsFor(ps, prefix, rs[1..])
    ensures PathsFor([MapPath(prefix, rs[0])] + ps, prefix, rs)
  {
    var qs := [MapPath(prefix, rs[0])] + ps;
    forall i | 0 <= i < |rs| ensures qs[i] == MapPath(prefix, rs[i]) {
      if i > 0 {
        assert qs[i] == ps[i - 1] && rs[1..][i - 1] == rs[i];
      }
    }
  }

  /** On success, one artifact path per resolution, in the configured order. */
  lemma {:induction false} FromFramesPaths(st: State, frames: seq<Path>, prefix: string, rs: seq<int>, tools: Tools)
    ensures var r := FromFrames(st, frames, prefix, rs, tools).1;
      r.Ok? ==> PathsFor(r.value, prefix, rs)
    decreases |rs|
  {
    if rs != [] && MapFor(st, frames, prefix, rs[0], tools).Ok? {
      var st1 := MapFor(st, frames, prefix, rs[0], tools).value;
      FromFramesPaths(st1, frames, prefix, rs[1..], tools);
      var r := FromFrames(st1, frames, prefix, rs[1..], tools).1;
      if r.Ok? {
        PathsForCons(r.value, prefix, rs);
      }
    }
  }

  lemma KeepsChain(st: State, st1: State, st2: State, prefix: string, rs: seq<int>)
    requires rs != []
    requires KeepsAllBut(st, st1, prefix, [rs[0]]) && KeepsAllBut(st1, st2, prefix, rs[1..])
    ensures KeepsAllBut(st, st2, prefix, rs)
  {
    forall f | !Touched(f, rs)
      ensures FieldOf(st2.db, SourceKey(prefix), f) == FieldOf(st.db, SourceKey(prefix), f)
    {
      assert !Touched(f, [rs[0]]) by { assert [rs[0]][1..] == []; }
    }
  }

  /** Whatever happens, the pass keeps every existing file as it was and touches only
      the duration and the resolution fields of the source's hash; on success every
      resolution's artifact exists. */
  lemma {:induction false} FromFramesFrame(st: State, frames: seq<Path>, prefix: string, rs: seq<int>, tools: Tools)
    ensures var (st2, r) := FromFrames(st, frames, prefix, rs, tools);
      && KeepsAllBut(st, st2, prefix, rs)
      && (r.Ok? ==> forall i :: 0 <= i < |rs| ==> MapPath(prefix, rs[i]) in st2.files)
    decreases |rs|
  {
    if rs != [] {
      match MapFor(st, frames, prefix, rs[0], tools)
      case Err(_) =>
      case Ok(st1) =>
        MapForEffect(st, frames, prefix, rs[0], tools);
        FromFramesFrame(st1, frames, prefix, rs[1..], tools);
        var (st2, r) := FromFrames(st1, frames, prefix, rs[1..], tools);
        KeepsChain(st, st1, st2, prefix, rs);
        if r.Ok? {
          forall i | 0 <= i < |rs| ensures MapPath(prefix, rs[i]) in st2.files {
            if i > 0 {
              assert rs[i] == rs[1..][i - 1];
            }
          }
        }
    }
  }

  /** After a successful colormap_from_frames over the configured resolutions, the
      source counts as processed. */
  lemma FromFramesProcesses(st: State, frames: seq<Path>, prefix: string, tools: Tools)
    requires FromFrames(st, frames, prefix, Resolutions, tools).1.Ok?
    ensures FileAlreadyProcessed(FromFrames(st, frames, prefix, Resolutions, tools).0.files, prefix)
  {
    FromFramesFrame(st, frames, prefix, Resolutions, tools);
    AllMapsExistMeans(FromFrames(st, frames, prefix, Resolutions, tools).0.files, prefix, Resolutions);
  }

  /** A resolution whose artifact already exists is neither recomputed nor stored: its
      file and its field are as they were. */
  lemma {:induction false} ExistingMapIsLeftAlone(st: State, frames: seq<Path>, prefix: string, rs: seq<int>, tools: Tools, r: int)
    requires MapPath(prefix, r) in st.files
    ensures var st2 := FromFrames(st, frames, prefix, rs, tools).0;
      && MapPath(prefix, r) in st2.files
      && st2.files[MapPath(prefix, r)] == st.files[MapPath(prefix, r)]
      && FieldOf(st2.db, SourceKey(prefix), ResolutionField(RgbMap, r)) == FieldOf(st.db, SourceKey(prefix), ResolutionField(RgbMap, r))
    decreases |rs|
  {
    FromFramesFrame(st, frames, prefix, rs, tools);
    if rs != [] {
      match MapFor(st, frames, prefix, rs[0], tools)
      case Err(_) =>
      case Ok(st1) =>
        MapForEffect(st, frames, prefix, rs[0], tools);
        ExistingMapIsLeftAlone(st1, frames, prefix, rs[1..], tools, r);
        if ResolutionField(RgbMap, r) == ResolutionField(RgbMap, rs[0]) {
          ResolutionFieldInjective(RgbMap, r, rs[0]);
        } else {
          assert ResolutionField(RgbMap, r) != "duration" by {
            assert ResolutionField(RgbMap, r)[0] == 'm';
          }
          assert !Touched(ResolutionField(RgbMap, r), [rs[0]]) by { assert [rs[0]][1..] == []; }
        }
    }
  }

  /** Every store of the duration writes the frame count. */
  lemma {:induction false} FromFramesDuration(st: State, frames: seq<Path>, prefix: string, rs: seq<int>, tools: Tools)
    ensures var d := FieldOf(FromFrames(st, frames, prefix, rs, tools).0.db, SourceKey(prefix), "duration");
      d == FieldOf(st.db, SourceKey(prefix), "duration") || d == Some(IntToString(|frames|))
    decreases |rs|
  {
    if rs != [] && MapFor(st, frames, prefix, rs[0], tools).Ok? {
      var st1 := MapFor(st, frames, prefix, rs[0], tools).value;
      if MapPath(prefix, rs[0]) !in st.files {
        MapForNew(st, frames, prefix, rs[0], tools);
      }
      FromFramesDuration(st1, frames, prefix, rs[1..], tools);
    }
  }

  /** The first resolution of the pass, when its artifact was missing. */
  lemma MissingFirstIsBuilt(st: State, frames: seq<Path>, prefix: string, rs: seq<int>, tools: Tools)
    requires rs != [] && MapPath(prefix, rs[0]) !in st.files
    requires FromFrames(st, frames, prefix, rs, tools).1.Ok?
    ensures var st2 := FromFrames(st, frames, prefix, rs, tools).0;
      && Build(frames, rs[0], tools).Ok?
      && MapPath(prefix, rs[0]) in st2.files
      && st2.files[MapPath(prefix, rs[0])] == Grid(Build(frames, rs[0], tools).value)
      && FieldOf(st2.db, SourceKey(prefix), ResolutionField(RgbMap, rs[0])).Some?
      && Decode(FieldOf(st2.db, SourceKey(prefix), ResolutionField(RgbMap, rs[0])).value) == Some(Flatten(Build(frames, rs[0], tools).value))
      && FieldOf(st2.db, SourceKey(prefix), "duration") == Some(IntToString(|frames|))
  {
    var st1 := MapFor(st, frames, prefix, rs[0], tools).value;
    MapForNew(st, frames, prefix, rs[0], tools);
    ExistingMapIsLeftAlone(st1, frames, prefix, rs[1..], tools, rs[0]);
    FromFramesDuration(st1, frames, prefix, rs[1..], tools);
  }

  /** A resolution whose artifact was missing ends up with the array Build computes, and
      its field with that array's encoding, once the pass succeeds; the duration is then
      the frame count. */
  lemma {:induction false} MissingMapIsBuilt(st: State, frames: seq<Path>, prefix: string, rs: seq<int>, tools: Tools, r: int)
    requires MapPath(prefix, r) !in st.files && r in rs
    requires FromFrames(st, frames, prefix, rs, tools).1.Ok?
    ensures var st2 := FromFrames(st, frames, prefix, rs, tools).0;
      && Build(frames, r, tools).Ok?
      && MapPath(prefix, r) in st2.files
      && st2.files[MapPath(prefix, r)] == Grid(Build(frames, r, tools).value)
      && FieldOf(st2.db, SourceKey(prefix), ResolutionField(RgbMap, r)).Some?
      && Decode(FieldOf(st2.db, SourceKey(prefix), ResolutionField(RgbMap, r)).value) == Some(Flatten(Build(frames, r, tools).value))
      && FieldOf(st2.db, SourceKey(prefix), "duration") == Some(IntToString(|frames|))
    decreases |rs|
  {
    if rs[0] == r {
      MissingFirstIsBuilt(st, frames, prefix, rs, tools);
    } else {
      var st1 := MapFor(st, frames, prefix, rs[0], tools).value;
      MapForEffect(st, frames, prefix, rs[0], tools);
      assert MapPath(prefix, r) !in st1.files by {
        if MapPath(prefix, r) == MapPath(prefix, rs[0]) {
          MapPathInjective(prefix, r, rs[0]);
        }
      }
      assert r in rs[1..] by {
        var i :| 0 <= i < |rs| && rs[i] == r;
        assert rs[1..][i - 1] == r;
      }
      MissingMapIsBuilt(st1, frames, prefix, rs[1..], tools, r);
    }
  }

  // ---------------------------------------------------------------------------
  // acting on the world

  /** The contents of a three-dimensional array. */
  function ArrayCells(a: array3<int>): (g: seq<seq<seq<int>>>)
    reads a
    ensures |g| == a.Length0
    ensures forall i :: 0 <= i < |g| ==> |g[i]| == a.Length1
    ensures forall i, j :: 0 <= i < |g| && 0 <= j < a.Length1 ==> |g[i][j]| == a.Length2
    ensures forall i, j, k :: 0 <= i < a.Length0 && 0 <= j < a.Length1 && 0 <= k < a.Length2 ==> g[i][j][k] == a[i, j, k]
  {
    seq(a.Length0, i requires 0 <= i < a.Length0 reads a =>
      seq(a.Length1, j requires 0 <= j < a.Length1 reads a =>
        seq(a.Length2, k requires 0 <= k < a.Length2 reads a => a[i, j, k])))
  }

  /** Two arrays of the same shape with the same cells are the same value. */
  lemma GridsEqual(g: seq<seq<seq<int>>>, h: seq<seq<seq<int>>>, r: nat)
    requires |g| == |h|
    requires forall i :: 0 <= i < |g| ==> |g[i]| == r && |h[i]| == r
    requires forall i, j :: 0 <= i < |g| && 0 <= j < r ==> |g[i][j]| == 3 && |h[i][j]| == 3
    requires forall i, j, k :: 0 <= i < |g| && 0 <= j < r && 0 <= k < 3 ==> g[i][j][k] == h[i][j][k]
    ensures g == h
  {
    forall i | 0 <= i < |g| ensures g[i] == h[i] {
      forall j | 0 <= j < r ensures g[i][j] == h[i][j] {
      }
    }
  }

  /** The fill loop of colormap_from_frames: an array of zeros, then channel k of colour j
      of frame i into cell (i, j, k). A palette that overruns its row raises IndexError,
      reported as `ok` false. */
  method FillGrid(pals: seq<seq<Color>>, r: nat) returns (a: array3<int>, ok: bool)
    ensures a.Length0 == |pals| && a.Length1 == r && a.Length2 == 3
    ensures ok <==> Fits(pals, r)
    ensures ok ==> ArrayCells(a) == GridOf(pals, r)
  {
    a := new int[|pals|, r, 3]((i, j, k) => 0);
    var i := 0;
    while i < |pals|
      invariant 0 <= i <= |pals|
      invariant forall i' :: 0 <= i' < i ==> |pals[i']| <= r
      invariant forall i', j', k' :: 0 <= i' < |pals| && 0 <= j' < r && 0 <= k' < 3 ==>
        a[i', j', k'] == if i' < i then CellOf(pals, i', j', k') else 0
    {
      var j := 0;
      while j < |pals[i]|
        invariant 0 <= j <= |pals[i]| && j <= r
        invariant forall i', j', k' :: 0 <= i' < |pals| && 0 <= j' < r && 0 <= k' < 3 ==>
          a[i', j', k'] == if i' < i || (i' == i && j' < j) then CellOf(pals, i', j', k') else 0
      {
        if j >= r {
          return a, false;
        }
        var k := 0;
        while k < 3
          invariant 0 <= k <= 3
          invariant forall i', j', k' :: 0 <= i' < |pals| && 0 <= j' < r && 0 <= k' < 3 ==>
            a[i', j', k'] == if i' < i || (i' == i && (j' < j || (j' == j && k' < k))) then CellOf(pals, i', j', k') else 0
        {
          a[i, j, k] := Channel(pals[i][j], k);
          k := k + 1;
        }
        j := j + 1;
      }
      i := i + 1;
    }
    ok := true;
    GridsEqual(ArrayCells(a), GridOf(pals, r), r);
  }

  /** `for file in sources: color_map.append(create_map(file, resolution))` */
  method CollectPalettes(frames: seq<Path>, r: int, quantize: (Path, int) -> Option<seq<Color>>)
    returns (ps: Option<seq<seq<Color>>>)
    ensures ps == Palettes(frames, r, quantize)
  {
    var acc: seq<seq<Color>> := [];
    var i := 0;
    assert frames[i..] == frames;
    assert Palettes(frames, r, quantize).Some? ==> acc + Palettes(frames, r, quantize).value == Palettes(frames, r, quantize).value;
    while i < |frames|
      invariant 0 <= i <= |frames|
      invariant Palettes(frames, r, quantize) == Then(acc, Palettes(frames[i..], r, quantize))
    {
      var p := quantize(frames[i], r);
      if p.None? {
        PalettesStep(frames[i..], r, quantize);
        return None;
      }
      PalettesStep(frames[i..], r, quantize);
      assert frames[i..][1..] == frames[i + 1..];
      ThenAssoc(acc, p.value, Palettes(frames[i + 1..], r, quantize));
      acc := acc + [p.value];
      i := i + 1;
    }
    assert frames[i..] == [];
    assert acc + [] == acc;
    ps := Some(acc);
  }

  /** The palettes `done` followed by the outcome for the remaining frames. */
  function Then(done: seq<seq<Color>>, rest: Option<seq<seq<Color>>>): Option<seq<seq<Color>>> {
    if rest.Some? then Some(done + rest.value) else None
  }

  lemma PalettesStep(frames: seq<Path>, r: int, quantize: (Path, int) -> Option<seq<Color>>)
    requires frames != []
    ensures Palettes(frames, r, quantize) ==
      if quantize(frames[0], r).None? then None else Then([quantize(frames[0], r).value], Palettes(frames[1..], r, quantize))
  {
  }

  lemma ThenAssoc(acc: seq<seq<Color>>, p: seq<Color>, rest: Option<seq<seq<Color>>>)
    ensures Then(acc, Then([p], rest)) == Then(acc + [p], rest)
  {
    if rest.Some? {
      assert acc + ([p] + rest.value) == acc + [p] + rest.value;
    }
  }

  /** colormap_to_db, acting on the world. */
  method StoreColormap(env: Env, path: Path, r: int, prefix: string, breaks: seq<int> -> seq<bool>) returns (res: Result<()>)
    modifies env
    ensures var want := ColormapToDb(old(env.Snapshot()), path, r, prefix, breaks);
      && (want.Ok? ==> res == Ok(()) && env.Snapshot() == want.value)
      && (want.Err? ==> res == Err(want.error) && env.Snapshot() == old(env.Snapshot()))
  {
    var b := env.Load(path);
    if b.None? || !b.value.Grid? {
      return Err("FileNotFoundError");
    }
    var g := b.value.cells;
    var flat := Flatten(g);
    env.HmSet(SourceKey(prefix), map[ResolutionField(RgbMap, r) := Encode(flat, breaks(flat))]);
    env.HmSet(SourceKey(prefix), map["duration" := IntToString(|g|)]);
    res := Ok(());
  }

  /** One resolution of colormap_from_frames, acting on the world. */
  method MakeMap(env: Env, frames: seq<Path>, prefix: string, r: int, tools: Tools) returns (res: Result<()>)
    modifies env
    ensures var want := MapFor(old(env.Snapshot()), frames, prefix, r, tools);
      && (want.Ok? ==> res == Ok(()) && env.Snapshot() == want.value)
      && (want.Err? ==> res == Err(want.error) && env.Snapshot() == old(env.Snapshot()))
  {
    var path := MapPath(prefix, r);
    var present := env.IsFile(path);
    if present {
      return Ok(());
    }
    var sorted := SortPaths(frames);
    var pals := CollectPalettes(sorted, r, tools.quantize);
    if pals.None? {
      return Err("create_map");
    }
    if r < 0 {
      return Err("ValueError");
    }
    var a, ok := FillGrid(pals.value, r);
    if !ok {
      return Err("IndexError");
    }
    env.Save(path, Grid(ArrayCells(a)));
    res := StoreColormap(env, path, r, prefix, tools.breaks);
  }

  /** The paths `done` followed by the outcome of the remaining resolutions. */
  function After(done: seq<Path>, rest: (State, Result<seq<Path>>)): (State, Result<seq<Path>>) {
    (rest.0, if rest.1.Ok? then Ok(done + rest.1.value) else rest.1)
  }

  lemma FromFramesStep(st: State, frames: seq<Path>, prefix: string, rs: seq<int>, i: nat, tools: Tools, done: seq<Path>)
    requires i < |rs|
    ensures var m := MapFor(st, frames, prefix, rs[i], tools);
      && (m.Err? ==> After(done, FromFrames(st, frames, prefix, rs[i..], tools)) == (st, Err(m.error)))
      && (m.Ok? ==>
            After(done, FromFrames(st, frames, prefix, rs[i..], tools)) ==
            After(done + [MapPath(prefix, rs[i])], FromFrames(m.value, frames, prefix, rs[i + 1..], tools)))
  {
    assert rs[i..][0] == rs[i] && rs[i..][1..] == rs[i + 1..];
    var m := MapFor(st, frames, prefix, rs[i], tools);
    if m.Ok? {
      var rest := FromFrames(m.value, frames, prefix, rs[i + 1..], tools);
      if rest.1.Ok? {
        assert done + ([MapPath(prefix, rs[i])] + rest.1.value) == done + [MapPath(prefix, rs[i])] + rest.1.value;
      }
    }
  }

  /** The loop of colormap_from_frames over the resolutions `rs`. */
  method MakeMaps(env: Env, frames: seq<Path>, prefix: string, rs: seq<int>, tools: Tools) returns (r: Result<seq<Path>>)
    modifies env
    ensures (env.Snapshot(), r) == FromFrames(old(env.Snapshot()), frames, prefix, rs, tools)
  {
    ghost var want := FromFrames(env.Snapshot(), frames, prefix, rs, tools);
    var created: seq<Path> := [];
    var i := 0;
    assert rs[0..] == rs;
    assert want.1.Ok? ==> created + want.1.value == want.1.value;
    while i < |rs|
      invariant 0 <= i <= |rs|
      invariant want == After(created, FromFrames(env.Snapshot(), frames, prefix, rs[i..], tools))
    {
      FromFramesStep(env.Snapshot(), frames, prefix, rs, i, tools, created);
      var made := MakeMap(env, frames, prefix, rs[i], tools);
      if made.Err? {
        return Err(made.error);
      }
      created := created + [MapPath(prefix, rs[i])];
      i := i + 1;
    }
    assert rs[i..] == [];
    assert created + [] == created;
    r := Ok(created);
  }

  /** colormap_from_frames, acting on the world. */
  method ColormapFromFrames(env: Env, frames: seq<Path>, prefix: string, tools: Tools) returns (r: Result<seq<Path>>)
    modifies env
    ensures (env.Snapshot(), r) == FromFrames(old(env.Snapshot()), frames, prefix, Resolutions, tools)
  {
    r := MakeMaps(env, frames, prefix, Resolutions, tools);
  }
}
