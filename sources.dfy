/** Source discovery: for every video file of a watched directory, the audio image and
    the auxiliary images are stored, and either the colormaps are computed from
    extracted frames or, for an already known source, the existing colormaps are stored
    again (source_from, images_to_db, audio_image_from_file, frames_from_file). */
module Sources {
  import opened Wrappers
  import opened Strings
  import opened Keys
  import opened World
  import opened Encoding
  import opened Colormap

  /** VIZAVIZ_TEMP_DIR, where frames are extracted. */
  const TempDir: string := "/tmp"

  /** What the outside libraries and the filesystem give source discovery. */
  datatype SourceTools = SourceTools(
    fingerprint: Path -> string,              // sha1 hexdigest of the file's bytes
    spectrogram: Path -> Option<string>,      // the spectrogram image; None when librosa raises
    images: map<Path, Blob> -> seq<Path>,     // glob('map_image*.jpg') of the data directory
    extracted: (Path, string) -> seq<Path>,   // glob('**/<prefix>*.bmp') of the temp directory after ffmpeg
    colormap: Tools)

  /** `str(path)`: pathlib drops an empty or "." directory and adds no second slash
      after one that already ends in a slash, such as the root. */
  function PathText(p: Path): string {
    if p.dir == "" || p.dir == "." then p.name
    else if EndsWith(p.dir, "/") then p.dir + p.name
    else p.dir + "/" + p.name
  }

  // ---------------------------------------------------------------------------
  // audio_image_from_file (lines 165-172)

  function SpectrogramPath(prefix: string): Path {
    Path(DataDir, ImageFileName("spectrogram", prefix))
  }

  /** The spectrogram is saved as `map_image_spectrogram_<prefix>.jpg`; a failure is
      printed and swallowed. */
  function AudioImage(st: State, source: Path, prefix: string, tools: SourceTools): (r: State)
    ensures r.db == st.db && r.trace == st.trace && r.nextPid == st.nextPid
    ensures tools.spectrogram(source).Some? ==> r.files == st.files[SpectrogramPath(prefix) := Image(tools.spectrogram(source).value)]
    ensures tools.spectrogram(source).None? ==> r == st
  {
    match tools.spectrogram(source)
    case None => st
    case Some(bytes) => st.(files := st.files[SpectrogramPath(prefix) := Image(bytes)])
  }

  // ---------------------------------------------------------------------------
  // images_to_db (lines 174-186)

  /** The map name and source prefix a listed image's name stands for. */
  function ImageTarget(p: Path): Result<(string, string)> {
    ParseImageStem(JpgStem(p.name))
  }

  /** Every listed image is stored, as bytes, under `map:<name>:image:<name>` of the
      source its name ends with. The name is parsed before the file is opened; the first
      name that does not split into four pieces raises ValueError and stops the loop,
      keeping the earlier stores. */
  function ImagesToDb(st: State, listing: seq<Path>): (State, Result<()>)
    decreases |listing|
  {
    if listing == [] then (st, Ok(()))
    else
      var p := listing[0];
      match ImageTarget(p)
      case Err(e) => (st, Err(e))
      case Ok((m, prefix)) =>
        if p !in st.files || !st.files[p].Image? then (st, Err("FileNotFoundError"))
        else ImagesToDb(Store(st, SourceKey(prefix), map[ImageField(m, m) := st.files[p].data]), listing[1..])
  }

  /** The (key, field) pairs images_to_db may write for a listing. */
  function ImageTargets(listing: seq<Path>): set<(string, string)> {
    if listing == [] then {}
    else
      (match ImageTarget(listing[0])
       case Err(_) => {}
       case Ok((m, prefix)) => {(SourceKey(prefix), ImageField(m, m))}) + ImageTargets(listing[1..])
  }

  /** images_to_db writes only image fields of the listed sources, and nothing but the
      hashes. */
  lemma {:induction false} ImagesToDbFrame(st: State, listing: seq<Path>)
    ensures var st2 := ImagesToDb(st, listing).0;
      && st2.files == st.files && st2.trace == st.trace && st2.nextPid == st.nextPid && st2.db.sets == st.db.sets
      && (forall k, f :: (k, f) !in ImageTargets(listing) ==> FieldOf(st2.db, k, f) == FieldOf(st.db, k, f))
    decreases |listing|
  {
    if listing != [] {
      var p := listing[0];
      if ImageTarget(p).Ok? && p in st.files && st.files[p].Image? {
        var (m, prefix) := ImageTarget(p).value;
        var st1 := Store(st, SourceKey(prefix), map[ImageField(m, m) := st.files[p].data]);
        ImagesToDbFrame(st1, listing[1..]);
      }
    }
  }

  /** No two listed files aim at the same field of the same source. */
  predicate TargetsIdentify(listing: seq<Path>) {
    forall i, j :: 0 <= i < |listing| && 0 <= j < |listing| && ImageTarget(listing[i]).Ok? && ImageTarget(listing[i]) == ImageTarget(listing[j]) ==> listing[i] == listing[j]
  }

  /** After a successful images_to_db, every listed image's bytes are under its field. */
  lemma {:induction false} ImagesToDbStores(st: State, listing: seq<Path>, i: nat)
    requires ImagesToDb(st, listing).1.Ok? && TargetsIdentify(listing) && i < |listing|
    ensures listing[i] in st.files && st.files[listing[i]].Image? && ImageTarget(listing[i]).Ok?
    ensures var (m, prefix) := ImageTarget(listing[i]).value;
      FieldOf(ImagesToDb(st, listing).0.db, SourceKey(prefix), ImageField(m, m)) == Some(st.files[listing[i]].data)
    decreases |listing|
  {
    var p := listing[0];
    var (m0, prefix0) := ImageTarget(p).value;
    var st1 := Store(st, SourceKey(prefix0), map[ImageField(m0, m0) := st.files[p].data]);
    assert ImagesToDb(st, listing) == ImagesToDb(st1, listing[1..]);
    assert TargetsIdentify(listing[1..]) by {
      forall a, b | 0 <= a < |listing[1..]| && 0 <= b < |listing[1..]| && ImageTarget(listing[1..][a]).Ok? && ImageTarget(listing[1..][a]) == ImageTarget(listing[1..][b])
        ensures listing[1..][a] == listing[1..][b]
      {
        assert listing[1..][a] == listing[a + 1] && listing[1..][b] == listing[b + 1];
      }
    }
    if i == 0 {
      ImagesToDbFrame(st1, listing[1..]);
      if (SourceKey(prefix0), ImageField(m0, m0)) in ImageTargets(listing[1..]) {
        var j := TargetWitness(listing[1..], SourceKey(prefix0), ImageField(m0, m0));
        var (m1, prefix1) := ImageTarget(listing[1..][j]).value;
        ImageTargetInjective(m0, prefix0, m1, prefix1);
        assert listing[j + 1] == listing[1..][j];
        assert listing[j + 1] == p;
        ImagesToDbStores(st1, listing[1..], j);
      }
    } else {
      assert listing[i] == listing[1..][i - 1];
      ImagesToDbStores(st1, listing[1..], i - 1);
    }
  }

  /** A listed image whose target is among a listing's targets. */
  lemma {:induction false} TargetWitness(listing: seq<Path>, k: string, f: string) returns (j: nat)
    requires (k, f) in ImageTargets(listing)
    ensures j < |listing| && ImageTarget(listing[j]).Ok?
    ensures (k, f) == (SourceKey(ImageTarget(listing[j]).value.1), ImageField(ImageTarget(listing[j]).value.0, ImageTarget(listing[j]).value.0))
    decreases |listing|
  {
    var t := ImageTarget(listing[0]);
    if t.Ok? && (k, f) == (SourceKey(t.value.1), ImageField(t.value.0, t.value.0)) {
      j := 0;
    } else {
      var j' := TargetWitness(listing[1..], k, f);
      j := j' + 1;
      assert listing[j] == listing[1..][j'];
    }
  }

  /** Different images aim at different fields or different sources. */
  lemma ImageTargetInjective(m1: string, x1: string, m2: string, x2: string)
    requires SourceKey(x1) == SourceKey(x2) && ImageField(m1, m1) == ImageField(m2, m2)
    ensures m1 == m2 && x1 == x2
  {
    assert x1 == SourceKey(x1)[7..] && x2 == SourceKey(x2)[7..];
    assert |m1| == |m2|;
    assert m1 == ImageField(m1, m1)[4..4 + |m1|];
    assert m2 == ImageField(m2, m2)[4..4 + |m2|];
  }

  /** The spectrogram of a source whose fingerprint has no `_` ends up under
      `map:spectrogram:image:spectrogram` of the source's hash, once images_to_db lists
      it and succeeds. */
  lemma SpectrogramIsStored(st: State, source: Path, h: string, tools: SourceTools, listing: seq<Path>)
    requires '_' !in h && tools.spectrogram(source).Some?
    requires SpectrogramPath(h) in listing && TargetsIdentify(listing)
    requires ImagesToDb(AudioImage(st, source, h, tools), listing).1.Ok?
    ensures FieldOf(ImagesToDb(AudioImage(st, source, h, tools), listing).0.db, SourceKey(h), ImageField("spectrogram", "spectrogram"))
      == Some(tools.spectrogram(source).value)
  {
    var i :| 0 <= i < |listing| && listing[i] == SpectrogramPath(h);
    var audio := AudioImage(st, source, h, tools);
    assert ImageTarget(listing[i]) == Ok(("spectrogram", h)) by {
      ImageStemRoundTrip("spectrogram", h);
    }
    assert audio.files[listing[i]] == Image(tools.spectrogram(source).value);
    ImagesToDbStores(audio, listing, i);
  }

  // ---------------------------------------------------------------------------
  // frames_from_file (lines 188-201)

  /** ffmpeg extracts one frame per second into the temp directory, and the frame files
      it finds there are turned into colormaps; an exception of colormap_from_frames
      propagates. */
  function FramesFromFile(st: State, source: Path, prefix: string, tools: SourceTools): (State, Result<()>) {
    var extracted := Emit(st, Extract(PathText(source), prefix));
    var (st2, r) := FromFrames(extracted, tools.extracted(source, prefix), prefix, Resolutions, tools.colormap);
    (st2, if r.Ok? then Ok(()) else Err(r.error))
  }

  // ---------------------------------------------------------------------------
  // source_from (lines 373-411)

  /** The re-sync of a known source: colormap_to_db for every resolution whose artifact
      exists. */
  function Resync(st: State, h: string, rs: seq<int>, breaks: seq<int> -> seq<bool>): (State, Result<()>)
    decreases |rs|
  {
    if rs == [] then (st, Ok(()))
    else if MapPath(h, rs[0]) !in st.files then Resync(st, h, rs[1..], breaks)
    else match ColormapToDb(st, MapPath(h, rs[0]), rs[0], h, breaks)
      case Err(e) => (st, Err(e))
      case Ok(st1) => Resync(st1, h, rs[1..], breaks)
  }

  /** The file name and fingerprint written to a recorded source's hash. */
  function Record(st: State, file: Path, h: string): State {
    Store(Store(st, SourceKey(h), map["filename" := PathText(file)]), SourceKey(h), map["filehash" := h])
  }

  /** The audio image and images_to_db, which come first for every new file. */
  function Prepared(st: State, file: Path, tools: SourceTools): (State, Result<()>) {
    var audio := AudioImage(st, file, tools.fingerprint(file), tools);
    ImagesToDb(audio, tools.images(audio.files))
  }

  /** Whether a source is computed: its fingerprint is not yet known and some artifact
      is missing. */
  predicate MustCompute(st: State, processed: map<Path, string>, h: string) {
    h !in processed.Values && !FileAlreadyProcessed(st.files, h)
  }

  /** One file of source_from, with the map `processed` from file to fingerprint. A file
      already in the map is skipped. Otherwise the audio image and images_to_db come
      first (an exception of images_to_db propagates); a source whose fingerprint is new
      and whose artifacts are not all there is computed, and recorded only if that did
      not raise; any other source is recorded and its existing artifacts are stored
      again. */
  function SourceFile(st: State, processed: map<Path, string>, file: Path, tools: SourceTools): (State, map<Path, string>, Result<()>) {
    if file in processed then (st, processed, Ok(()))
    else
      var h := tools.fingerprint(file);
      var (st1, ir) := Prepared(st, file, tools);
      if ir.Err? then (st1, processed, ir)
      else if MustCompute(st1, processed, h) then
        var (st2, fr) := FramesFromFile(st1, file, h, tools);
        if fr.Ok? then (Record(st2, file, h), processed[file := h], Ok(()))
        else (st2, processed, Ok(()))
      else
        var (st2, rr) := Resync(Record(st1, file, h), h, Resolutions, tools.colormap.breaks);
        (st2, processed[file := h], rr)
  }

  /** The loop of source_from over the files found; an exception ends the pass. */
  function SourceFrom(st: State, processed: map<Path, string>, files: seq<Path>, tools: SourceTools): (State, map<Path, string>, Result<()>)
    decreases |files|
  {
    if files == [] then (st, processed, Ok(()))
    else
      var (st1, p1, r) := SourceFile(st, processed, files[0], tools);
      if r.Err? then (st1, p1, r) else SourceFrom(st1, p1, files[1..], tools)
  }

  /** A file seen before changes nothing. */
  lemma SeenFileIsSkipped(st: State, processed: map<Path, string>, file: Path, tools: SourceTools)
    requires file in processed
    ensures SourceFile(st, processed, file, tools) == (st, processed, Ok(()))
  {
  }

  /** A source that must be computed is recorded exactly when frames_from_file did not
      raise, and then all its artifacts exist and its hash names the file and its
      fingerprint. */
  lemma ComputedSourceIsRecordedIffExtracted(st: State, processed: map<Path, string>, file: Path, tools: SourceTools)
    requires file !in processed
    requires Prepared(st, file, tools).1.Ok?
    requires MustCompute(Prepared(st, file, tools).0, processed, tools.fingerprint(file))
    ensures var h := tools.fingerprint(file);
      var (st2, p2, r) := SourceFile(st, processed, file, tools);
      && r.Ok?
      && (file in p2 <==> FramesFromFile(Prepared(st, file, tools).0, file, h, tools).1.Ok?)
      && (file in p2 ==>
            && p2 == processed[file := h]
            && FileAlreadyProcessed(st2.files, h)
            && FieldOf(st2.db, SourceKey(h), "filename") == Some(PathText(file))
            && FieldOf(st2.db, SourceKey(h), "filehash") == Some(h))
      && (file !in p2 ==> p2 == processed)
  {
    var h := tools.fingerprint(file);
    var st1 := Prepared(st, file, tools).0;
    var (st2, fr) := FramesFromFile(st1, file, h, tools);
    assert SourceFile(st, processed, file, tools) ==
      if fr.Ok? then (Record(st2, file, h), processed[file := h], Ok(())) else (st2, processed, Ok(()));
    if fr.Ok? {
      var extracted := Emit(st1, Extract(PathText(file), h));
      FromFramesProcesses(extracted, tools.extracted(file, h), h, tools.colormap);
      RecordFields(st2, file, h);
    }
  }

  lemma RecordFields(st: State, file: Path, h: string)
    ensures Record(st, file, h).files == st.files
    ensures FieldOf(Record(st, file, h).db, SourceKey(h), "filename") == Some(PathText(file))
    ensures FieldOf(Record(st, file, h).db, SourceKey(h), "filehash") == Some(h)
    ensures forall f :: f != "filename" && f != "filehash" ==>
      FieldOf(Record(st, file, h).db, SourceKey(h), f) == FieldOf(st.db, SourceKey(h), f)
  {
  }

  /** Re-syncing stores nothing but the duration and the resolution fields of the
      source's hash: the files, the trace and the other keys stay as they are. */
  lemma {:induction false} ResyncFrame(st: State, h: string, rs: seq<int>, breaks: seq<int> -> seq<bool>)
    ensures var st2 := Resync(st, h, rs, breaks).0;
      && st2.files == st.files && st2.trace == st.trace && st2.nextPid == st.nextPid && st2.db.sets == st.db.sets
      && (forall k :: k != SourceKey(h) ==> HashOf(st2.db, k) == HashOf(st.db, k))
      && (forall f :: !Touched(f, rs) ==> FieldOf(st2.db, SourceKey(h), f) == FieldOf(st.db, SourceKey(h), f))
    decreases |rs|
  {
    if rs != [] {
      if MapPath(h, rs[0]) !in st.files {
        ResyncFrame(st, h, rs[1..], breaks);
      } else if st.files[MapPath(h, rs[0])].Grid? {
        var st1 := ColormapToDb(st, MapPath(h, rs[0]), rs[0], h, breaks).value;
        ColormapToDbRoundTrip(st, MapPath(h, rs[0]), rs[0], h, breaks);
        ResyncFrame(st1, h, rs[1..], breaks);
      }
    }
  }

  /** A resolution without an artifact keeps its field; after a successful re-sync, one
      with an artifact holds that artifact's encoding. */
  lemma {:induction false} ResyncFields(st: State, h: string, rs: seq<int>, breaks: seq<int> -> seq<bool>, r: int)
    ensures var st2 := Resync(st, h, rs, breaks).0;
      MapPath(h, r) !in st.files ==> FieldOf(st2.db, SourceKey(h), ResolutionField(RgbMap, r)) == FieldOf(st.db, SourceKey(h), ResolutionField(RgbMap, r))
    ensures var (st2, res) := Resync(st, h, rs, breaks);
      res.Ok? && r in rs && MapPath(h, r) in st.files ==>
        && st.files[MapPath(h, r)].Grid?
        && FieldOf(st2.db, SourceKey(h), ResolutionField(RgbMap, r)).Some?
        && Decode(FieldOf(st2.db, SourceKey(h), ResolutionField(RgbMap, r)).value) == Some(Flatten(st.files[MapPath(h, r)].cells))
    decreases |rs|
  {
    if rs != [] {
      var field := ResolutionField(RgbMap, r);
      assert field != "duration" by { assert field[0] == 'm'; }
      if MapPath(h, rs[0]) !in st.files {
        ResyncFields(st, h, rs[1..], breaks, r);
        if r == rs[0] {
          assert MapPath(h, r) !in st.files;
        } else if r in rs {
          var i :| 0 <= i < |rs| && rs[i] == r;
          assert rs[1..][i - 1] == r;
        }
      } else if st.files[MapPath(h, rs[0])].Grid? {
        var st1 := ColormapToDb(st, MapPath(h, rs[0]), rs[0], h, breaks).value;
        ColormapToDbRoundTrip(st, MapPath(h, rs[0]), rs[0], h, breaks);
        ResyncFields(st1, h, rs[1..], breaks, r);
        if r == rs[0] {
          if !(r in rs[1..]) {
            ResyncFrame(st1, h, rs[1..], breaks);
            assert !Touched(field, rs[1..]) by { NotTouched(r, rs[1..]); }
          }
        } else {
          assert field != ResolutionField(RgbMap, rs[0]) by {
            if field == ResolutionField(RgbMap, rs[0]) { ResolutionFieldInjective(RgbMap, r, rs[0]); }
          }
          if r in rs {
            var i :| 0 <= i < |rs| && rs[i] == r;
            assert rs[1..][i - 1] == r;
          }
        }
      }
    }
  }

  /** The field of a resolution outside `rs` is not one of theirs. */
  lemma {:induction false} NotTouched(r: int, rs: seq<int>)
    requires r !in rs
    ensures !Touched(ResolutionField(RgbMap, r), rs)
    decreases |rs|
  {
    assert ResolutionField(RgbMap, r)[0] == 'm';
    if rs != [] {
      if ResolutionField(RgbMap, r) == ResolutionField(RgbMap, rs[0]) {
        ResolutionFieldInjective(RgbMap, r, rs[0]);
      }
      NotTouched(r, rs[1..]);
    }
  }

  /** A field that is neither the duration nor a map field is never touched. */
  lemma {:induction false} PlainNotTouched(f: string, rs: seq<int>)
    requires |f| > 0 && f[0] != 'm' && f != "duration"
    ensures !Touched(f, rs)
    decreases |rs|
  {
    if rs != [] {
      assert ResolutionField(RgbMap, rs[0])[0] == 'm';
      PlainNotTouched(f, rs[1..]);
    }
  }

  /** A known source, or one whose artifacts all exist, is recorded, keeps its files,
      and has exactly its existing artifacts stored again: a resolution without an
      artifact keeps its field, and after a successful re-sync every artifact's field
      holds its encoding. */
  lemma KnownSourceIsResynced(st: State, processed: map<Path, string>, file: Path, tools: SourceTools)
    requires file !in processed
    requires Prepared(st, file, tools).1.Ok?
    requires !MustCompute(Prepared(st, file, tools).0, processed, tools.fingerprint(file))
    ensures var h := tools.fingerprint(file);
      var st1 := Prepared(st, file, tools).0;
      var (st2, p2, r) := SourceFile(st, processed, file, tools);
      && p2 == processed[file := h]
      && st2.files == st1.files
      && FieldOf(st2.db, SourceKey(h), "filename") == Some(PathText(file))
      && FieldOf(st2.db, SourceKey(h), "filehash") == Some(h)
      && (forall res :: MapPath(h, res) !in st1.files ==>
            FieldOf(st2.db, SourceKey(h), ResolutionField(RgbMap, res)) == FieldOf(st1.db, SourceKey(h), ResolutionField(RgbMap, res)))
      && (r.Ok? ==> forall i :: 0 <= i < |Resolutions| && MapPath(h, Resolutions[i]) in st1.files ==>
            && st1.files[MapPath(h, Resolutions[i])].Grid?
            && FieldOf(st2.db, SourceKey(h), ResolutionField(RgbMap, Resolutions[i])).Some?
            && Decode(FieldOf(st2.db, SourceKey(h), ResolutionField(RgbMap, Resolutions[i])).value) == Some(Flatten(st1.files[MapPath(h, Resolutions[i])].cells)))
  {
    var h := tools.fingerprint(file);
    var st1 := Prepared(st, file, tools).0;
    var breaks := tools.colormap.breaks;
    assert SourceFile(st, processed, file, tools) ==
      (Resync(Record(st1, file, h), h, Resolutions, breaks).0, processed[file := h], Resync(Record(st1, file, h), h, Resolutions, breaks).1);
    RecordThenResyncFrame(st1, file, h, Resolutions, breaks);
    forall res | MapPath(h, res) !in st1.files
      ensures FieldOf(Resync(Record(st1, file, h), h, Resolutions, breaks).0.db, SourceKey(h), ResolutionField(RgbMap, res))
        == FieldOf(st1.db, SourceKey(h), ResolutionField(RgbMap, res))
    {
      RecordThenResyncKeeps(st1, file, h, Resolutions, breaks, res);
    }
    if Resync(Record(st1, file, h), h, Resolutions, breaks).1.Ok? {
      forall i | 0 <= i < |Resolutions| && MapPath(h, Resolutions[i]) in st1.files
        ensures var st2 := Resync(Record(st1, file, h), h, Resolutions, breaks).0;
          && st1.files[MapPath(h, Resolutions[i])].Grid?
          && FieldOf(st2.db, SourceKey(h), ResolutionField(RgbMap, Resolutions[i])).Some?
          && Decode(FieldOf(st2.db, SourceKey(h), ResolutionField(RgbMap, Resolutions[i])).value) == Some(Flatten(st1.files[MapPath(h, Resolutions[i])].cells))
      {
        RecordThenResyncStores(st1, file, h, Resolutions, breaks, Resolutions[i]);
      }
    }
  }

  /** The recording and re-sync of a known source keep the files and the two recorded
      fields. */
  lemma RecordThenResyncFrame(st1: State, file: Path, h: string, rs: seq<int>, breaks: seq<int> -> seq<bool>)
    ensures var st2 := Resync(Record(st1, file, h), h, rs, breaks).0;
      && st2.files == st1.files
      && FieldOf(st2.db, SourceKey(h), "filename") == Some(PathText(file))
      && FieldOf(st2.db, SourceKey(h), "filehash") == Some(h)
  {
    var recorded := Record(st1, file, h);
    RecordFields(st1, file, h);
    ResyncFrame(recorded, h, rs, breaks);
    PlainNotTouched("filename", rs);
    PlainNotTouched("filehash", rs);
  }

  /** A resolution without an artifact keeps its field through recording and re-sync. */
  lemma RecordThenResyncKeeps(st1: State, file: Path, h: string, rs: seq<int>, breaks: seq<int> -> seq<bool>, res: int)
    requires MapPath(h, res) !in st1.files
    ensures var st2 := Resync(Record(st1, file, h), h, rs, breaks).0;
      FieldOf(st2.db, SourceKey(h), ResolutionField(RgbMap, res)) == FieldOf(st1.db, SourceKey(h), ResolutionField(RgbMap, res))
  {
    var recorded := Record(st1, file, h);
    var f := ResolutionField(RgbMap, res);
    assert f[0] == 'm';
    RecordFields(st1, file, h);
    assert FieldOf(recorded.db, SourceKey(h), f) == FieldOf(st1.db, SourceKey(h), f);
    ResyncFields(recorded, h, rs, breaks, res);
  }

  /** After a successful re-sync, a resolution with an artifact holds its encoding. */
  lemma RecordThenResyncStores(st1: State, file: Path, h: string, rs: seq<int>, breaks: seq<int> -> seq<bool>, res: int)
    requires Resync(Record(st1, file, h), h, rs, breaks).1.Ok?
    requires res in rs && MapPath(h, res) in st1.files
    ensures var st2 := Resync(Record(st1, file, h), h, rs, breaks).0;
      && st1.files[MapPath(h, res)].Grid?
      && FieldOf(st2.db, SourceKey(h), ResolutionField(RgbMap, res)).Some?
      && Decode(FieldOf(st2.db, SourceKey(h), ResolutionField(RgbMap, res)).value) == Some(Flatten(st1.files[MapPath(h, res)].cells))
  {
    RecordFields(st1, file, h);
    ResyncFields(Record(st1, file, h), h, rs, breaks, res);
  }

  /** `p2` keeps every entry of `p` and adds only files of `files`, each under its
      fingerprint. */
  ghost predicate GrowsBy(p: map<Path, string>, p2: map<Path, string>, files: seq<Path>, fingerprint: Path -> string) {
    && (forall f :: f in p ==> f in p2 && p2[f] == p[f])
    && (forall f :: f in p2 && f !in p ==> f in files && p2[f] == fingerprint(f))
  }

  lemma GrowsByChain(p: map<Path, string>, p1: map<Path, string>, p2: map<Path, string>, files: seq<Path>, fingerprint: Path -> string)
    requires files != []
    requires p1 == p || (files[0] !in p && p1 == p[files[0] := fingerprint(files[0])])
    requires GrowsBy(p1, p2, files[1..], fingerprint)
    ensures GrowsBy(p, p2, files, fingerprint)
  {
    assert files == [files[0]] + files[1..];
    forall f | f in p2 && f !in p
      ensures f in files && p2[f] == fingerprint(f)
    {
      if f !in p1 {
        assert f in files[1..];
      }
    }
  }

  /** A pass of source_from forgets no file and records only files it was given, each
      under its fingerprint. */
  lemma {:induction false} SourceFromGrows(st: State, processed: map<Path, string>, files: seq<Path>, tools: SourceTools)
    ensures GrowsBy(processed, SourceFrom(st, processed, files, tools).1, files, tools.fingerprint)
    decreases |files|
  {
    if files != [] {
      var (st1, p1, r) := SourceFile(st, processed, files[0], tools);
      SourceFileGrows(st, processed, files[0], tools);
      if r.Ok? {
        SourceFromGrows(st1, p1, files[1..], tools);
        GrowsByChain(processed, p1, SourceFrom(st1, p1, files[1..], tools).1, files, tools.fingerprint);
      }
    }
  }

  /** One file adds at most its own fingerprint to the processed map. */
  lemma SourceFileGrows(st: State, processed: map<Path, string>, file: Path, tools: SourceTools)
    ensures var p1 := SourceFile(st, processed, file, tools).1;
      p1 == processed || (file !in processed && p1 == processed[file := tools.fingerprint(file)])
  {
  }

  // ---------------------------------------------------------------------------
  // acting on the world

  /** audio_image_from_file, acting on the world. */
  method SaveAudioImage(env: Env, source: Path, prefix: string, tools: SourceTools)
    modifies env
    ensures env.Snapshot() == AudioImage(old(env.Snapshot()), source, prefix, tools)
  {
    var image := tools.spectrogram(source);
    if image.Some? {
      env.Save(SpectrogramPath(prefix), Image(image.value));
    }
  }

  /** images_to_db, acting on the world, over the listed image files. */
  method StoreImages(env: Env, listing: seq<Path>) returns (r: Result<()>)
    modifies env
    ensures (env.Snapshot(), r) == ImagesToDb(old(env.Snapshot()), listing)
  {
    var i := 0;
    assert listing[0..] == listing;
    while i < |listing|
      invariant 0 <= i <= |listing|
      invariant ImagesToDb(old(env.Snapshot()), listing) == ImagesToDb(env.Snapshot(), listing[i..])
    {
      var file := listing[i];
      assert listing[i..][0] == file && listing[i..][1..] == listing[i + 1..];
      var target := ImageTarget(file);
      if target.Err? {
        return Err(target.error);
      }
      var (mapName, prefix) := target.value;
      var bytes := env.Load(file);
      if bytes.None? || !bytes.value.Image? {
        return Err("FileNotFoundError");
      }
      env.HmSet(SourceKey(prefix), map[ImageField(mapName, mapName) := bytes.value.data]);
      i := i + 1;
    }
    assert listing[i..] == [];
    r := Ok(());
  }

  /** frames_from_file, acting on the world. */
  method ExtractFrames(env: Env, source: Path, prefix: string, tools: SourceTools) returns (r: Result<()>)
    modifies env
    ensures (env.Snapshot(), r) == FramesFromFile(old(env.Snapshot()), source, prefix, tools)
  {
    env.Issue(Extract(PathText(source), prefix));
    var frames := tools.extracted(source, prefix);
    var created := ColormapFromFrames(env, frames, prefix, tools.colormap);
    r := if created.Ok? then Ok(()) else Err(created.error);
  }

  /** The re-sync loop of source_from, acting on the world. */
  method ResyncMaps(env: Env, h: string, breaks: seq<int> -> seq<bool>) returns (r: Result<()>)
    modifies env
    ensures (env.Snapshot(), r) == Resync(old(env.Snapshot()), h, Resolutions, breaks)
  {
    var rs := Resolutions;
    var i := 0;
    assert rs[0..] == rs;
    while i < |rs|
      invariant 0 <= i <= |rs|
      invariant Resync(old(env.Snapshot()), h, rs, breaks) == Resync(env.Snapshot(), h, rs[i..], breaks)
    {
      assert rs[i..][0] == rs[i] && rs[i..][1..] == rs[i + 1..];
      var mapFile := MapPath(h, rs[i]);
      var present := env.IsFile(mapFile);
      if present {
        var stored := StoreColormap(env, mapFile, rs[i], h, breaks);
        if stored.Err? {
          return stored;
        }
      }
      i := i + 1;
    }
    assert rs[i..] == [];
    r := Ok(());
  }

  /** The file name and fingerprint writes, acting on the world. */
  method RecordSource(env: Env, file: Path, h: string)
    modifies env
    ensures env.Snapshot() == Record(old(env.Snapshot()), file, h)
  {
    env.HmSet(SourceKey(h), map["filename" := PathText(file)]);
    env.HmSet(SourceKey(h), map["filehash" := h]);
  }

  /** One file of source_from, acting on the world. */
  method ProcessSource(env: Env, processed: map<Path, string>, file: Path, tools: SourceTools)
    returns (processed2: map<Path, string>, r: Result<()>)
    modifies env
    ensures (env.Snapshot(), processed2, r) == SourceFile(old(env.Snapshot()), processed, file, tools)
  {
    processed2 := processed;
    if file in processed {
      return processed2, Ok(());
    }
    var h := tools.fingerprint(file);
    SaveAudioImage(env, file, h, tools);
    var images := StoreImages(env, tools.images(env.files));
    if images.Err? {
      return processed2, images;
    }
    if h !in processed.Values && !FileAlreadyProcessed(env.files, h) {
      var extracted := ExtractFrames(env, file, h, tools);
      if extracted.Ok? {
        processed2 := processed2[file := h];
        RecordSource(env, file, h);
      }
      r := Ok(());
    } else {
      processed2 := processed2[file := h];
      RecordSource(env, file, h);
      r := ResyncMaps(env, h, tools.colormap.breaks);
    }
  }

  /** source_from over the files found in a watched directory, acting on the world; the
      updated map is what it puts on the queue. */
  method SourceFromDirectory(env: Env, processed: map<Path, string>, files: seq<Path>, tools: SourceTools)
    returns (processed2: map<Path, string>, r: Result<()>)
    modifies env
    ensures (env.Snapshot(), processed2, r) == SourceFrom(old(env.Snapshot()), processed, files, tools)
  {
    processed2 := processed;
    var i := 0;
    assert files[0..] == files;
    while i < |files|
      invariant 0 <= i <= |files|
      invariant SourceFrom(old(env.Snapshot()), processed, files, tools) == SourceFrom(env.Snapshot(), processed2, files[i..], tools)
    {
      assert files[i..][0] == files[i] && files[i..][1..] == files[i + 1..];
      var one;
      processed2, one := ProcessSource(env, processed2, files[i], tools);
      if one.Err? {
        return processed2, one;
      }
      i := i + 1;
    }
    assert files[i..] == [];
    r := Ok(());
  }
}
