/** The GUI's catalogue of sources (update_sources, vizaviz_gui.py lines 553-613): every
    `source:` hash is read field by field into an entry keyed by its filehash, and its
    `map:` fields into the entry's maps; image fields also go into the app's index of
    (map, image) pairs. */
module SourceCatalog {
  import opened Wrappers
  import opened Strings
  import opened Keys
  import opened World
  import opened Encoding

  /** A map of a source as update_sources builds it: a map first met through an image
      field holds that one image; one first met through a resolution field holds the raw
      colormap text per resolution. */
  datatype MapEntry = FromImage(imageName: string, image: string) | FromResolutions(raws: map<int, string>)

  /** `self.sources[h]`: the dict is filled one field at a time, so an exception leaves
      it partly filled; `maps` is None until the "maps" key is set. */
  datatype Entry = Entry(info: Fields, maps: Option<map<string, MapEntry>>)

  /** `self.sources` and the keys of `self.map_index`, in insertion order. */
  datatype Catalog = Catalog(sources: map<string, Entry>, index: seq<(string, string)>)

  /** How reading one source ends: completely, cut short by a KeyError (caught, the next
      source follows), or by an exception that leaves update_sources. */
  datatype Outcome = Loaded | Skipped | Raised(error: string)

  /** The `source` dict: the field names HKEYS listed, with their values. */
  function Fetched(fields: Fields, ks: seq<string>): Fields {
    map k | k in fields && k in ks :: fields[k]
  }

  /** Reading one more listed name into the `source` dict. */
  lemma FetchedStep(fields: Fields, ks: seq<string>, i: nat)
    requires i < |ks|
    ensures Fetched(fields, ks[..i + 1]) ==
      if ks[i] in fields then Fetched(fields, ks[..i])[ks[i] := fields[ks[i]]] else Fetched(fields, ks[..i])
  {
    assert ks[..i + 1] == ks[..i] + [ks[i]];
  }

  /** `map_index[p] = p`: a new key goes last, a known one keeps its place. */
  function Indexed(index: seq<(string, string)>, p: (string, string)): (r: seq<(string, string)>)
    ensures index <= r && p in r
  {
    if p in index then index else index + [p]
  }

  /** The exceptions that leave update_sources, which catches only KeyError. */
  predicate Escaping(e: string) {
    e == "ValueError" || e == "UnboundLocalError" || e == "ZeroDivisionError" || e == "OSError"
  }

  /** The pieces update_sources keeps of a stored colormap text: `filter(None, v.split(" "))`. */
  function Pieces(v: string): seq<string> {
    NonEmpty(Split(v, ' '))
  }

  /** np.split's test `N % sections` with the float `sections = N / r` of vizaviz.py line
      306: the remainder is computed exactly, so it is zero exactly when N / r is a
      binary64 number, which for N below 2^53 holds exactly when the odd part of r
      divides N. */
  predicate SplitAccepted(rows: nat, r: nat)
    requires r >= 1
    decreases r
  {
    if r % 2 == 0 then SplitAccepted(rows, r / 2) else rows % r == 0
  }

  predicate PowerOfTwo(r: nat)
    decreases r
  {
    r == 1 || (r >= 2 && r % 2 == 0 && PowerOfTwo(r / 2))
  }

  /** JPEG_MAX_DIMENSION of libjpeg: the largest width or height a JPEG can be saved with. */
  const JpegLimit: nat := 65500

  /** Whether a render of `frames` frames of r cells exceeds the JPEG limit: the vertical
      render (cell_width=1, cell_height=10) is frames * r pixels wide and 10 high, the
      horizontal one (columns="auto") r * 10 wide and 10 * frames high. */
  predicate TooLarge(frames: nat, r: nat) {
    frames * r > JpegLimit || 10 * r > JpegLimit || 10 * frames > JpegLimit
  }

  /** visualize_map(map_raw=tuple(raw), resolution=r) as update_sources calls it twice
      (vizaviz.py lines 291-351): the exception it raises, None when it renders. With no
      pieces `elif map_raw:` is false and `array` is never bound; the pieces are reshaped
      into rows of three channels; np.split checks the float number of sections and
      array_split makes int(rows / r) frames, of which there must be one; every channel
      is read with `int`; and saving as JPEG fails beyond the JPEG size limit. */
  function RenderError(raw: seq<string>, r: int): Option<string> {
    if raw == [] then Some("UnboundLocalError")
    else if |raw| % 3 != 0 then Some("ValueError")
    else if r == 0 then Some("ZeroDivisionError")
    else if r < 0 then Some("ValueError")
    else SplitError(raw, |raw| / 3, r)
  }

  /** The rest of visualize_map, for `rows` rows of three pieces and r >= 1. */
  function SplitError(raw: seq<string>, rows: nat, r: nat): Option<string>
    requires r >= 1
  {
    if !SplitAccepted(rows, r) || rows < r then Some("ValueError")
    else if ParseAll(raw).None? then Some("ValueError")
    else if TooLarge(rows / r, r) then Some("OSError")
    else None
  }

  /** One iteration of the loop over `source.items()` (lines 574-611). An image field
      creates its map only if the map name is new; a resolution field of a map created
      by an image field fails on the missing "resolutions" key (KeyError); a field name
      that does not split into four pieces, or whose resolution is not an integer,
      raises ValueError; a resolution field stores its raw text and is then rendered,
      which can raise. */
  function FieldStep(maps: map<string, MapEntry>, index: seq<(string, string)>, k: string, v: string)
    : (map<string, MapEntry>, seq<(string, string)>, Outcome)
  {
    match ParseMapField(k)
    case Err(e) => (maps, index, Raised(e))
    case Ok(PlainField) => (maps, index, Loaded)
    case Ok(ImageEntry(m, i)) =>
      if m in maps then (maps, index, Loaded)
      else (maps[m := FromImage(i, v)], Indexed(index, (m, i)), Loaded)
    case Ok(ResolutionEntry(m, r)) =>
      var e := if m in maps then maps[m] else FromResolutions(map[]);
      if e.FromImage? then (maps, index, Skipped)
      else
        var maps1 := maps[m := FromResolutions(e.raws[r := v])];
        match RenderError(Pieces(v), r)
        case Some(err) => (maps1, index, Raised(err))
        case None => (maps1, index, Loaded)
  }

  /** The loop over the fields, stopping at the first exception with what was built
      until then. The index only grows, a map built from an image is never changed again,
      every pair added to the index names the image of its map, and what escapes is a
      ValueError, an UnboundLocalError or a ZeroDivisionError. */
  function LoadMaps(maps: map<string, MapEntry>, index: seq<(string, string)>, source: Fields, ks: seq<string>)
    : (r: (map<string, MapEntry>, seq<(string, string)>, Outcome))
    ensures index <= r.1 && maps.Keys <= r.0.Keys
    ensures forall m :: m in maps && maps[m].FromImage? ==> r.0[m] == maps[m]
    ensures forall p :: p in r.1 && p !in index ==> p.0 in r.0 && r.0[p.0].FromImage? && r.0[p.0].imageName == p.1
    ensures r.2.Raised? ==> Escaping(r.2.error)
    decreases |ks|
  {
    if ks == [] then (maps, index, Loaded)
    else if ks[0] !in source then LoadMaps(maps, index, source, ks[1..])
    else
      var (maps1, index1, out) := FieldStep(maps, index, ks[0], source[ks[0]]);
      if out == Loaded then LoadMaps(maps1, index1, source, ks[1..]) else (maps1, index1, out)
  }

  /** One source hash, its field names listed in `ks` (lines 555-613). A missing
      filehash skips the source; a missing filename or duration leaves the entry for
      the filehash partly filled and without maps; otherwise the fields are loaded. */
  function LoadSource(cat: Catalog, fields: Fields, ks: seq<string>): (r: (Catalog, Outcome))
    ensures var source := Fetched(fields, ks);
      && ("filehash" !in source ==> r == (cat, Skipped))
      && ("filehash" in source ==>
           && r.0.sources.Keys == cat.sources.Keys + {source["filehash"]}
           && (forall h :: h in cat.sources && h != source["filehash"] ==> r.0.sources[h] == cat.sources[h])
           && (r.0.sources[source["filehash"]].maps.Some? <==> "filename" in source && "duration" in source)
           && (r.1 == Loaded ==>
                 && "filename" in source && "duration" in source
                 && r.0.sources[source["filehash"]].info ==
                      map["filename" := source["filename"], "filehash" := source["filehash"], "duration" := source["duration"]]))
    ensures cat.index <= r.0.index
    ensures r.1.Raised? ==> Escaping(r.1.error)
  {
    var source := Fetched(fields, ks);
    if "filehash" !in source then (cat, Skipped)
    else
      var h := source["filehash"];
      if "filename" !in source then (cat.(sources := cat.sources[h := Entry(map[], None)]), Skipped)
      else if "duration" !in source then
        (cat.(sources := cat.sources[h := Entry(map["filename" := source["filename"], "filehash" := h], None)]), Skipped)
      else
        var info := map["filename" := source["filename"], "filehash" := h, "duration" := source["duration"]];
        var (maps, index, out) := LoadMaps(map[], cat.index, source, ks);
        (Catalog(cat.sources[h := Entry(info, Some(maps))], index), out)
  }

  /** update_sources over the source keys in scan order: a source cut short by a
      KeyError is passed over; any other exception leaves update_sources with the
      catalogue as far as it got. */
  function UpdateSources(cat: Catalog, db: Db, keys: seq<string>, order: Fields -> seq<string>): (r: (Catalog, Result<()>))
    ensures cat.index <= r.0.index && cat.sources.Keys <= r.0.sources.Keys
    ensures r.1.Err? ==> Escaping(r.1.error)
    decreases |keys|
  {
    if keys == [] then (cat, Ok(()))
    else
      var fields := HashOf(db, keys[0]);
      var (cat1, out) := LoadSource(cat, fields, order(fields));
      if out.Raised? then (cat1, Err(out.error)) else UpdateSources(cat1, db, keys[1..], order)
  }

  // ---------------------------------------------------------------------------
  // what the loop over the fields keeps

  /** Loading `a + b` is loading `a` and, if that went through, `b` after it. */
  lemma {:induction false} LoadMapsAppend(maps: map<string, MapEntry>, index: seq<(string, string)>, source: Fields, a: seq<string>, b: seq<string>)
    ensures LoadMaps(maps, index, source, a + b) ==
      var (m1, i1, o1) := LoadMaps(maps, index, source, a);
      if o1 == Loaded then LoadMaps(m1, i1, source, b) else (m1, i1, o1)
    decreases |a|
  {
    if a != [] {
      assert (a + b)[0] == a[0] && (a + b)[1..] == a[1..] + b;
      if a[0] in source {
        var (m1, i1, o1) := FieldStep(maps, index, a[0], source[a[0]]);
        if o1 == Loaded {
          LoadMapsAppend(m1, i1, source, a[1..], b);
        }
      } else {
        LoadMapsAppend(maps, index, source, a[1..], b);
      }
    } else {
      assert a + b == b;
    }
  }

  /** A raw colormap text stays as it is unless a later field names the same map and
      resolution. */
  lemma {:induction false} ResolutionKept(maps: map<string, MapEntry>, index: seq<(string, string)>, source: Fields, ks: seq<string>, m: string, r: int)
    requires m in maps && maps[m].FromResolutions? && r in maps[m].raws
    requires forall k :: k in ks && k in source ==> ParseMapField(k) != Ok(ResolutionEntry(m, r))
    ensures var maps2 := LoadMaps(maps, index, source, ks).0;
      m in maps2 && maps2[m].FromResolutions? && r in maps2[m].raws && maps2[m].raws[r] == maps[m].raws[r]
    decreases |ks|
  {
    if ks != [] {
      if ks[0] in source {
        var (m1, i1, o1) := FieldStep(maps, index, ks[0], source[ks[0]]);
        assert m in m1 && m1[m].FromResolutions? && r in m1[m].raws && m1[m].raws[r] == maps[m].raws[r];
        if o1 == Loaded {
          ResolutionKept(m1, i1, source, ks[1..], m, r);
        }
      } else {
        ResolutionKept(maps, index, source, ks[1..], m, r);
      }
    }
  }

  /** A name mentioned by no field is not given a map. */
  lemma {:induction false} Unmentioned(maps: map<string, MapEntry>, index: seq<(string, string)>, source: Fields, ks: seq<string>, m: string)
    requires m !in maps
    requires forall k :: k in ks && k in source && ParseMapField(k).Ok? && !ParseMapField(k).value.PlainField? ==>
      ParseMapField(k).value.mapName != m
    ensures m !in LoadMaps(maps, index, source, ks).0
    decreases |ks|
  {
    if ks != [] {
      if ks[0] in source {
        var (m1, i1, o1) := FieldStep(maps, index, ks[0], source[ks[0]]);
        if o1 == Loaded {
          Unmentioned(m1, i1, source, ks[1..], m);
        }
      } else {
        Unmentioned(maps, index, source, ks[1..], m);
      }
    }
  }

  /** No listed field makes update_sources raise: every name parses, and every
      resolution field's text renders. */
  predicate Parses(source: Fields, ks: seq<string>) {
    forall k :: k in ks && k in source ==>
      && ParseMapField(k).Ok?
      && (ParseMapField(k).value.ResolutionEntry? ==> RenderError(Pieces(source[k]), ParseMapField(k).value.resolution).None?)
  }

  /** The map names of the listed resolution fields. */
  function ResolutionNames(source: Fields, ks: seq<string>): set<string> {
    set k | k in ks && k in source && ParseMapField(k).Ok? && ParseMapField(k).value.ResolutionEntry? :: ParseMapField(k).value.mapName
  }

  /** No map name has both an image field and a resolution field, as in what the
      server writes (the spectrogram image, the rgb colormaps). */
  predicate Separate(source: Fields, ks: seq<string>) {
    forall k :: k in ks && k in source && ParseMapField(k).Ok? && ParseMapField(k).value.ImageEntry? ==>
      ParseMapField(k).value.mapName !in ResolutionNames(source, ks)
  }

  /** Fields that parse, where no map of `names` meets an image field and every
      resolution field is for a map of `names`, are loaded completely. */
  lemma {:induction false} LoadMapsLoads(maps: map<string, MapEntry>, index: seq<(string, string)>, source: Fields, ks: seq<string>, names: set<string>)
    requires Parses(source, ks)
    requires forall k :: k in ks && k in source && ParseMapField(k).Ok? && ParseMapField(k).value.ImageEntry? ==>
      ParseMapField(k).value.mapName !in names
    requires forall k :: k in ks && k in source && ParseMapField(k).Ok? && ParseMapField(k).value.ResolutionEntry? ==>
      ParseMapField(k).value.mapName in names
    requires forall m :: m in maps && maps[m].FromImage? ==> m !in names
    ensures LoadMaps(maps, index, source, ks).2 == Loaded
    ensures var maps2 := LoadMaps(maps, index, source, ks).0;
      forall m :: m in maps2 && maps2[m].FromImage? ==> m !in names
    decreases |ks|
  {
    if ks != [] {
      if ks[0] in source {
        var (m1, i1, o1) := FieldStep(maps, index, ks[0], source[ks[0]]);
        assert o1 == Loaded;
        LoadMapsLoads(m1, i1, source, ks[1..], names);
      } else {
        LoadMapsLoads(maps, index, source, ks[1..], names);
      }
    }
  }

  lemma LastOccurrence(ks: seq<string>, k: string) returns (j: nat)
    requires k in ks
    ensures j < |ks| && ks[j] == k && k !in ks[j + 1..]
    ensures ks == ks[..j] + [k] + ks[j + 1..]
    decreases |ks|
  {
    if k in ks[1..] {
      var j1 := LastOccurrence(ks[1..], k);
      j := j1 + 1;
      assert ks[j + 1..] == ks[1..][j1 + 1..];
    } else {
      j := 0;
    }
  }

  lemma FirstOccurrence(ks: seq<string>, j: nat)
    requires j < |ks|
    ensures ks == ks[..j] + [ks[j]] + ks[j + 1..]
  {
  }

  // ---------------------------------------------------------------------------
  // what the GUI reads back

  /** The three fields that make update_sources give an entry its maps. */
  predicate Described(fields: Fields, ks: seq<string>) {
    && "filename" in fields && "filehash" in fields && "duration" in fields
    && "filename" in ks && "filehash" in ks && "duration" in ks
  }

  /** The last field naming map m and resolution r decides the raw text, when the
      fields parse and keep images and resolutions apart. */
  lemma LastResolutionWins(index: seq<(string, string)>, source: Fields, ks: seq<string>, m: string, r: int, k: string)
    requires k in ks && k in source && ParseMapField(k) == Ok(ResolutionEntry(m, r))
    requires Parses(source, ks) && Separate(source, ks)
    requires forall k' :: k' in ks && k' in source && ParseMapField(k') == Ok(ResolutionEntry(m, r)) ==> k' == k
    ensures var (maps, _, out) := LoadMaps(map[], index, source, ks);
      && out == Loaded && m in maps && maps[m].FromResolutions?
      && r in maps[m].raws && maps[m].raws[r] == source[k]
  {
    var names := ResolutionNames(source, ks);
    assert m in names;
    var j := LastOccurrence(ks, k);
    var a, b := ks[..j], ks[j + 1..];
    assert a + ([k] + b) == ks;
    LoadsPrefix(index, source, ks, j, names);
    assert RenderError(Pieces(source[k]), r).None?;
    ResolutionAfterPrefix(index, source, a, k, b, m, r);
  }

  /** A resolution field that renders, after fields that load and leave its map not
      built from an image, and before fields that do not name its resolution again,
      decides that resolution's raw text. */
  lemma ResolutionAfterPrefix(index: seq<(string, string)>, source: Fields, a: seq<string>, k: string, b: seq<string>, m: string, r: int)
    requires k in source && ParseMapField(k) == Ok(ResolutionEntry(m, r)) && RenderError(Pieces(source[k]), r).None?
    requires LoadMaps(map[], index, source, a).2 == Loaded
    requires var m1 := LoadMaps(map[], index, source, a).0; m in m1 ==> m1[m].FromResolutions?
    requires k !in b
    requires forall k' :: k' in a + ([k] + b) && k' in source && ParseMapField(k') == Ok(ResolutionEntry(m, r)) ==> k' == k
    ensures var maps := LoadMaps(map[], index, source, a + ([k] + b)).0;
      m in maps && maps[m].FromResolutions? && r in maps[m].raws && maps[m].raws[r] == source[k]
  {
    forall k' | k' in b && k' in source
      ensures ParseMapField(k') != Ok(ResolutionEntry(m, r))
    {
      assert k' in a + ([k] + b);
    }
    var (m1, i1, o1) := LoadMaps(map[], index, source, a);
    LoadMapsAppend(map[], index, source, a, [k] + b);
    ResolutionThenKept(m1, i1, source, k, b, m, r);
  }

  /** A resolution field that renders, followed by fields that do not name its
      resolution again, leaves its raw text in the map. */
  lemma ResolutionThenKept(maps: map<string, MapEntry>, index: seq<(string, string)>, source: Fields, k: string, b: seq<string>, m: string, r: int)
    requires k in source && ParseMapField(k) == Ok(ResolutionEntry(m, r)) && RenderError(Pieces(source[k]), r).None?
    requires m in maps ==> maps[m].FromResolutions?
    requires forall k' :: k' in b && k' in source ==> ParseMapField(k') != Ok(ResolutionEntry(m, r))
    ensures var maps2 := LoadMaps(maps, index, source, [k] + b).0;
      m in maps2 && maps2[m].FromResolutions? && r in maps2[m].raws && maps2[m].raws[r] == source[k]
  {
    ResolutionStep(maps, index, k, source[k], m, r);
    var (m2, i2, o2) := FieldStep(maps, index, k, source[k]);
    assert LoadMaps(maps, index, source, [k] + b) == LoadMaps(m2, i2, source, b) by {
      assert ([k] + b)[0] == k && ([k] + b)[1..] == b;
    }
    ResolutionKept(m2, i2, source, b, m, r);
  }

  /** The fields before position j load completely, and leave no map of `names` built
      from an image; all the fields load completely. */
  lemma LoadsPrefix(index: seq<(string, string)>, source: Fields, ks: seq<string>, j: nat, names: set<string>)
    requires j <= |ks| && Parses(source, ks)
    requires forall k :: k in ks && k in source && ParseMapField(k).Ok? && ParseMapField(k).value.ImageEntry? ==>
      ParseMapField(k).value.mapName !in names
    requires forall k :: k in ks && k in source && ParseMapField(k).Ok? && ParseMapField(k).value.ResolutionEntry? ==>
      ParseMapField(k).value.mapName in names
    ensures var (m1, _, o1) := LoadMaps(map[], index, source, ks[..j]);
      o1 == Loaded && forall m :: m in m1 && m1[m].FromImage? ==> m !in names
    ensures LoadMaps(map[], index, source, ks).2 == Loaded
  {
    var a := ks[..j];
    assert forall k :: k in a ==> k in ks;
    LoadMapsLoads(map[], index, source, a, names);
    LoadMapsLoads(map[], index, source, ks, names);
  }

  /** A resolution field for a map not built from an image stores its text. */
  lemma ResolutionStep(maps: map<string, MapEntry>, index: seq<(string, string)>, k: string, v: string, m: string, r: int)
    requires ParseMapField(k) == Ok(ResolutionEntry(m, r)) && RenderError(Pieces(v), r).None?
    requires m in maps ==> maps[m].FromResolutions?
    ensures var (m2, _, o) := FieldStep(maps, index, k, v);
      o == Loaded && m in m2 && m2[m].FromResolutions? && r in m2[m].raws && m2[m].raws[r] == v
  {
  }

  /** An image field for a new map creates it with its image and indexes it. */
  lemma ImageStep(maps: map<string, MapEntry>, index: seq<(string, string)>, k: string, v: string, m: string, i: string)
    requires ParseMapField(k) == Ok(ImageEntry(m, i)) && m !in maps
    ensures FieldStep(maps, index, k, v) == (maps[m := FromImage(i, v)], Indexed(index, (m, i)), Loaded)
  {
  }

  /** The colormap colormap_to_db stored under `map:<m>:resolution:<r>` is what the GUI
      finds under map m and resolution r of the source's entry: the key parses back to
      (m, r), and the text decodes to the flattened array. */
  lemma ColormapIsReadBack(cat: Catalog, fields: Fields, ks: seq<string>, m: string, r: int, xs: seq<Byte>, breaks: seq<bool>)
    requires ':' !in m && !EndsWith(m, "image")
    requires Described(fields, ks)
    requires ResolutionField(m, r) in fields && ResolutionField(m, r) in ks
    requires fields[ResolutionField(m, r)] == Encode(xs, breaks)
    requires Parses(Fetched(fields, ks), ks) && Separate(Fetched(fields, ks), ks)
    requires forall k :: k in ks && k in fields && ParseMapField(k) == Ok(ResolutionEntry(m, r)) ==> k == ResolutionField(m, r)
    ensures var (cat2, out) := LoadSource(cat, fields, ks);
      var e := cat2.sources[fields["filehash"]];
      && out == Loaded && e.maps.Some? && m in e.maps.value && e.maps.value[m].FromResolutions?
      && r in e.maps.value[m].raws && Decode(e.maps.value[m].raws[r]) == Some(xs)
  {
    var source := Fetched(fields, ks);
    ResolutionFieldRoundTrip(m, r);
    LastResolutionWins(cat.index, source, ks, m, r, ResolutionField(m, r));
    var (maps, index, out) := LoadMaps(map[], cat.index, source, ks);
    assert source["filehash"] == fields["filehash"];
    assert LoadSource(cat, fields, ks).0.sources[fields["filehash"]].maps == Some(maps);
    DecodeEncode(xs, breaks);
  }

  /** The first field naming map m, an image field, creates the map with its image
      and enters (m, i) in the index; nothing later replaces it or enters another image
      of m. */
  lemma FirstImageWins(index: seq<(string, string)>, source: Fields, ks: seq<string>, j: nat, m: string, i: string)
    requires j < |ks| && ks[j] in source && ParseMapField(ks[j]) == Ok(ImageEntry(m, i))
    requires Parses(source, ks) && Separate(source, ks)
    requires forall j' :: 0 <= j' < j && ks[j'] in source && ParseMapField(ks[j']).Ok? && !ParseMapField(ks[j']).value.PlainField? ==>
      ParseMapField(ks[j']).value.mapName != m
    ensures var (maps, index2, out) := LoadMaps(map[], index, source, ks);
      && out == Loaded && m in maps && maps[m] == FromImage(i, source[ks[j]]) && (m, i) in index2
      && (forall i2 :: i2 != i && (m, i2) !in index ==> (m, i2) !in index2)
  {
    var k := ks[j];
    var names := ResolutionNames(source, ks);
    FirstOccurrence(ks, j);
    var a, b := ks[..j], ks[j + 1..];
    var (m1, i1, o1) := LoadMaps(map[], index, source, a);
    LoadsPrefix(index, source, ks, j, names);
    assert m !in m1 by {
      Unmentioned(map[], index, source, a, m);
    }
    assert LoadMaps(map[], index, source, ks) == LoadMaps(m1, i1, source, [k] + b) by {
      LoadMapsAppend(map[], index, source, a, [k] + b);
      assert a + ([k] + b) == ks;
    }
    ImageThenKept(m1, i1, source, k, b, m, i);
  }

  /** An image field for a map not created yet, then any fields: the map keeps that
      image, and no other image of it is entered in the index. */
  lemma ImageThenKept(maps: map<string, MapEntry>, index: seq<(string, string)>, source: Fields, k: string, b: seq<string>, m: string, i: string)
    requires k in source && ParseMapField(k) == Ok(ImageEntry(m, i)) && m !in maps
    ensures var (maps2, index2, _) := LoadMaps(maps, index, source, [k] + b);
      && m in maps2 && maps2[m] == FromImage(i, source[k]) && (m, i) in index2
      && (forall i3 :: i3 != i && (m, i3) !in index ==> (m, i3) !in index2)
  {
    ImageStep(maps, index, k, source[k], m, i);
    var (m2, i2, o2) := FieldStep(maps, index, k, source[k]);
    assert LoadMaps(maps, index, source, [k] + b) == LoadMaps(m2, i2, source, b) by {
      assert ([k] + b)[0] == k && ([k] + b)[1..] == b;
    }
  }

  /** An image field images_to_db stored is recorded with its image and in the index
      when it is the first field naming its map; a later image field of that map adds
      nothing. */
  lemma FirstImageIsRecorded(cat: Catalog, fields: Fields, ks: seq<string>, j: nat, m: string, i: string)
    requires ':' !in m && ':' !in i
    requires Described(fields, ks)
    requires j < |ks| && ks[j] == ImageField(m, i) && ImageField(m, i) in fields
    requires Parses(Fetched(fields, ks), ks) && Separate(Fetched(fields, ks), ks)
    requires forall j' :: 0 <= j' < j && ks[j'] in fields && ParseMapField(ks[j']).Ok? && !ParseMapField(ks[j']).value.PlainField? ==>
      ParseMapField(ks[j']).value.mapName != m
    ensures var (cat2, out) := LoadSource(cat, fields, ks);
      var e := cat2.sources[fields["filehash"]];
      && out == Loaded && e.maps.Some? && m in e.maps.value
      && e.maps.value[m] == FromImage(i, fields[ImageField(m, i)])
      && (m, i) in cat2.index
      && (forall i2 :: i2 != i && (m, i2) !in cat.index ==> (m, i2) !in cat2.index)
  {
    var source := Fetched(fields, ks);
    ImageFieldRoundTrip(m, i);
    FirstImageWins(cat.index, source, ks, j, m, i);
    var (maps, index, out) := LoadMaps(map[], cat.index, source, ks);
    assert source["filehash"] == fields["filehash"];
    assert LoadSource(cat, fields, ks) == (Catalog(cat.sources[fields["filehash"]
      := Entry(map["filename" := source["filename"], "filehash" := source["filehash"], "duration" := source["duration"]], Some(maps))], index), out);
  }

  /** A resolution field of a map already created by an image field ends the source
      with a KeyError: the fields after it are not read. */
  lemma ResolutionAfterImageSkipsRest(maps: map<string, MapEntry>, index: seq<(string, string)>, source: Fields, m: string, r: int, rest: seq<string>)
    requires ':' !in m && !EndsWith(m, "image")
    requires m in maps && maps[m].FromImage? && ResolutionField(m, r) in source
    ensures LoadMaps(maps, index, source, [ResolutionField(m, r)] + rest) == (maps, index, Skipped)
  {
    ResolutionFieldRoundTrip(m, r);
  }

  // ---------------------------------------------------------------------------
  // rendering what the server stored

  lemma MultipleOfThree(frames: nat, r: nat)
    ensures (frames * r * 3) % 3 == 0 && (frames * r * 3) / 3 == frames * r
  {
  }

  lemma MultipleMod(k: nat, d: nat)
    requires d >= 1
    ensures (k * d) % d == 0
  {
    var m := k * d;
    var q, rest := m / d, m % d;
    assert m == q * d + rest && 0 <= rest < d;
    assert (k - q) * d == rest;
    if k - q >= 1 {
      assert false;
    } else if k - q <= -1 {
      assert false;
    }
  }

  /** A whole number of frames of r cells passes np.split, into exactly those frames. */
  lemma {:induction false} WholeFramesSplit(frames: nat, r: nat)
    requires frames >= 1 && r >= 1
    ensures SplitAccepted(frames * r, r) && (frames * r) / r == frames
    decreases r
  {
    if r % 2 == 0 {
      WholeFramesSplit(2 * frames, r / 2);
      assert (2 * frames) * (r / 2) == frames * r;
    } else {
      MultipleMod(frames, r);
    }
    MultipleDiv(frames, r);
  }

  lemma MultipleDiv(k: nat, d: nat)
    requires d >= 1
    ensures (k * d) / d == k
  {
    MultipleMod(k, d);
  }

  /** At a power-of-two resolution, such as each of COLORMAP_RESOLUTIONS, every row count
      of at least r passes np.split, even one r does not divide. */
  lemma {:induction false} PowerOfTwoSplits(rows: nat, r: nat)
    requires PowerOfTwo(r) && rows >= r
    ensures r >= 1 && SplitAccepted(rows, r) && rows / r >= 1
    decreases r
  {
    if r != 1 {
      PowerOfTwoSplits(rows, r / 2);
    }
  }

  /** A colormap colormap_to_db stored for a source with frames, at a positive
      resolution, renders within the JPEG size limit and raises OSError beyond it: its
      pieces are the channel values, three per cell and r cells per frame. */
  lemma StoredColormapRenders(xs: seq<Byte>, breaks: seq<bool>, frames: nat, r: int)
    requires frames >= 1 && r >= 1 && |xs| == frames * r * 3
    ensures RenderError(Pieces(Encode(xs, breaks)), r) == if TooLarge(frames, r) then Some("OSError") else None
  {
    var raw := Pieces(Encode(xs, breaks));
    assert raw == Texts(xs) by { EncodedPieces(xs, breaks); }
    assert ParseAll(raw) == Some(xs) by { ParseTexts(xs); }
    var cells := frames * r;
    assert |raw| == cells * 3;
    MultipleOfThree(frames, r);
    WholeFramesSplit(frames, r);
    assert cells >= 1 by { PositiveProduct(frames, r); }
  }

  /** At a power-of-two resolution, any text of parseable whole rows, at least r of them,
      renders within the JPEG size limit, split into int(rows / r) frames. */
  lemma PowerOfTwoResolutionRenders(raw: seq<string>, r: nat)
    requires PowerOfTwo(r) && |raw| % 3 == 0 && |raw| / 3 >= r && ParseAll(raw).Some?
    ensures RenderError(raw, r) == if TooLarge(|raw| / 3 / r, r) then Some("OSError") else None
  {
    PowerOfTwoSplits(|raw| / 3, r);
  }

  lemma PositiveProduct(a: nat, b: nat)
    requires a >= 1 && b >= 1
    ensures a * b >= 1
  {
  }

  /** What colormap_to_db stores for a source without frames, the empty array, makes
      visualize_map raise UnboundLocalError, which leaves update_sources; the raw text
      has been entered first. */
  lemma EmptyColormapRaises(maps: map<string, MapEntry>, index: seq<(string, string)>, source: Fields, m: string, r: int,
                            breaks: seq<bool>, rest: seq<string>)
    requires ':' !in m && !EndsWith(m, "image")
    requires m in maps ==> maps[m].FromResolutions?
    requires ResolutionField(m, r) in source && source[ResolutionField(m, r)] == Encode([], breaks)
    ensures var (maps2, index2, out) := LoadMaps(maps, index, source, [ResolutionField(m, r)] + rest);
      && out == Raised("UnboundLocalError") && index2 == index
      && m in maps2 && maps2[m].FromResolutions? && r in maps2[m].raws && maps2[m].raws[r] == ""
  {
    ResolutionFieldRoundTrip(m, r);
    assert Encode([], breaks) == "" by {
      assert Strip(NumpyStr([], breaks)) == "[]" by { StripPlain("[]"); }
    }
    assert Pieces("") == [] by {
      assert Split("", ' ') == [""];
      assert NonEmpty([""]) == [] by { assert [""][1..] == []; }
    }
  }

  /** A resolution field named 0 makes visualize_map divide by zero, unless the text is
      empty or not whole rows of three. */
  lemma ZeroResolutionRaises(maps: map<string, MapEntry>, index: seq<(string, string)>, source: Fields, m: string,
                             xs: seq<Byte>, breaks: seq<bool>, rest: seq<string>)
    requires ':' !in m && !EndsWith(m, "image")
    requires m in maps ==> maps[m].FromResolutions?
    requires |xs| > 0 && |xs| % 3 == 0
    requires ResolutionField(m, 0) in source && source[ResolutionField(m, 0)] == Encode(xs, breaks)
    ensures LoadMaps(maps, index, source, [ResolutionField(m, 0)] + rest).2 == Raised("ZeroDivisionError")
  {
    ResolutionFieldRoundTrip(m, 0);
    EncodedPieces(xs, breaks);
  }
}
