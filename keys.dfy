/** The colon-separated Redis keys, hash field names and file names that the server
    writes and the GUI reads back, with the decoders on the reading side. */
module Keys {
  import opened Wrappers
  import opened Strings

  /** The server id the GUI hard-codes for every loop key it writes. */
  const GuiServer: string := "foo"
  /** The server's own default id (overridable with --server-name). */
  const DefaultServer: string := "vzz"

  /** The prefix scanned for loop records of server `sid`. */
  function LoopKeyPrefix(sid: string): string {
    "vizaviz:" + sid + ":loop:"
  }

  function LoopKey(sid: string, uuid: string): string {
    LoopKeyPrefix(sid) + uuid
  }

  /** The running-set hash of server `sid`: loop uuid -> pid. */
  function RunningKey(sid: string): string {
    "vizaviz:" + sid + ":state:running"
  }

  /** The set of URLs server `sid` has ingested. */
  function HistoryKey(sid: string): string {
    "vizaviz:" + sid + ":history"
  }

  function SourceKey(fingerprint: string): string {
    "source:" + fingerprint
  }

  /** Hash field holding a colormap encoding. */
  function ResolutionField(mapName: string, resolution: int): string {
    "map:" + mapName + ":resolution:" + IntToString(resolution)
  }

  /** Hash field holding an auxiliary image. */
  function ImageField(mapName: string, imageName: string): string {
    "map:" + mapName + ":image:" + imageName
  }

  /** Colormap artifact `<prefix>_<r>.npy`. */
  function MapFileName(prefix: string, resolution: int): string {
    prefix + "_" + IntToString(resolution) + ".npy"
  }

  /** Auxiliary image `map_image_<name>_<prefix>.jpg`. */
  function ImageFileName(mapName: string, prefix: string): string {
    "map_image_" + mapName + "_" + prefix + ".jpg"
  }

  const KeyspacePrefix: string := "__keyspace@0__:"

  /** The channel on which Redis announces a change of `key`. */
  function KeyspaceChannel(key: string): string {
    KeyspacePrefix + key
  }

  lemma JoinFour(a: string, b: string, c: string, d: string, sep: char)
    ensures Join([a, b, c, d], sep) == a + [sep] + b + [sep] + c + [sep] + d
  {
    assert [c, d][1..] == [d];
    assert Join([c, d], sep) == c + [sep] + d;
    assert [b, c, d][1..] == [c, d];
    assert Join([b, c, d], sep) == b + [sep] + (c + [sep] + d);
    assert [a, b, c, d][1..] == [b, c, d];
  }

  lemma JoinFive(a: string, b: string, c: string, d: string, e: string, sep: char)
    ensures Join([a, b, c, d, e], sep) == a + [sep] + b + [sep] + c + [sep] + d + [sep] + e
  {
    assert [a, b, c, d, e][1..] == [b, c, d, e];
    JoinFour(b, c, d, e, sep);
  }

  // ---------------------------------------------------------------------------
  // the running-set key is not a loop key

  lemma LoopKeyIsNotRunningKey(sid: string, key: string)
    requires StartsWith(key, LoopKeyPrefix(sid))
    ensures key != RunningKey(sid)
  {
    var i := |"vizaviz:" + sid + ":"|;
    assert key[i] == LoopKeyPrefix(sid)[i] == 'l';
    assert RunningKey(sid)[i] == 's';
  }

  lemma LoopKeyHasPrefix(sid: string, uuid: string)
    ensures StartsWith(LoopKey(sid, uuid), LoopKeyPrefix(sid))
  {
    assert LoopKey(sid, uuid)[..|LoopKeyPrefix(sid)|] == LoopKeyPrefix(sid);
  }

  // ---------------------------------------------------------------------------
  // artifact names, read back by the GUI's get_hash / get_resolution

  /** GUI `get_hash`: the text before the first `_`. */
  function GetHash(x: string): string {
    Partition(x, '_').0
  }

  /** GUI `get_resolution`: `int` of the text between the first `_` and the next `.`. */
  function GetResolution(x: string): Option<int> {
    ParseInt(Partition(Partition(x, '_').2, '.').0)
  }

  /** A fingerprint without `_` (a hex digest) and a resolution survive the artifact name. */
  lemma MapFileNameRoundTrip(h: string, r: int)
    requires '_' !in h
    ensures GetHash(MapFileName(h, r)) == h
    ensures GetResolution(MapFileName(h, r)) == Some(r)
  {
    var digits := IntToString(r);
    assert MapFileName(h, r) == h + ['_'] + (digits + ".npy");
    PartitionAt(h, digits + ".npy", '_');
    assert '.' !in digits by { IntToStringChars(r, '.'); }
    assert digits + ".npy" == digits + ['.'] + "npy";
    PartitionAt(digits, "npy", '.');
    ParseIntOfString(r);
  }

  // ---------------------------------------------------------------------------
  // image artifacts, read back by images_to_db

  /** `pathlib.Path(name).stem` for a name ending in `.jpg`. */
  function JpgStem(name: string): string {
    if EndsWith(name, ".jpg") then name[..|name| - 4] else name
  }

  /** images_to_db: `_, _, map_name, prefix = stem.split("_")`; any other count of
      pieces raises ValueError. */
  function ParseImageStem(stem: string): Result<(string, string)> {
    var parts := Split(stem, '_');
    if |parts| != 4 then Err("ValueError") else Ok((parts[2], parts[3]))
  }

  lemma ImageStemRoundTrip(mapName: string, prefix: string)
    requires '_' !in mapName && '_' !in prefix
    ensures ParseImageStem(JpgStem(ImageFileName(mapName, prefix))) == Ok((mapName, prefix))
  {
    var name := ImageFileName(mapName, prefix);
    var stem := "map_image_" + mapName + "_" + prefix;
    assert name == stem + ".jpg";
    assert JpgStem(name) == stem;
    JoinFour("map", "image", mapName, prefix, '_');
    assert stem == Join(["map", "image", mapName, prefix], '_');
    SplitJoin(["map", "image", mapName, prefix], '_');
  }

  // ---------------------------------------------------------------------------
  // source hash fields, read back by update_sources

  datatype MapField =
    | ImageEntry(mapName: string, imageName: string)
    | ResolutionEntry(mapName: string, resolution: int)
    | PlainField

  /** update_sources' reading of one field name of a `source:` hash. A name with
      "map:" and "image:" (tested first) or "resolution:" must split into exactly four
      pieces, and a resolution must be an integer; otherwise Python raises ValueError. */
  function ParseMapField(k: string): Result<MapField> {
    if !Contains(k, "map:") then Ok(PlainField)
    else
      var parts := Split(k, ':');
      if Contains(k, "image:") then
        if |parts| != 4 then Err("ValueError") else Ok(ImageEntry(parts[1], parts[3]))
      else if Contains(k, "resolution:") then
        if |parts| != 4 then Err("ValueError")
        else match ParseInt(parts[3])
          case None => Err("ValueError")
          case Some(r) => Ok(ResolutionEntry(parts[1], r))
      else Ok(PlainField)
  }

  lemma ImageFieldRoundTrip(m: string, i: string)
    requires ':' !in m && ':' !in i
    ensures ParseMapField(ImageField(m, i)) == Ok(ImageEntry(m, i))
  {
    var k := ImageField(m, i);
    assert k[0..4] == "map:";
    ContainsAt(k, "map:", 0);
    assert k[4 + |m| + 1..4 + |m| + 1 + 6] == "image:";
    ContainsAt(k, "image:", 4 + |m| + 1);
    JoinFour("map", m, "image", i, ':');
    assert k == Join(["map", m, "image", i], ':');
    SplitJoin(["map", m, "image", i], ':');
  }

  /** The only `:` characters of a resolution field are the three separators. */
  lemma ResolutionFieldColons(name: string, digits: string, p: nat)
    requires ':' !in name && ':' !in digits
    requires p < |"map:" + name + ":resolution:" + digits| && ("map:" + name + ":resolution:" + digits)[p] == ':'
    ensures p == 3 || p == 4 + |name| || p == 4 + |name| + 11
  {
    var k := "map:" + name + ":resolution:" + digits;
    forall q | 4 <= q < 4 + |name| ensures k[q] != ':' {
      assert k[q] == name[q - 4];
    }
    forall q | 4 + |name| + 12 <= q < |k| ensures k[q] != ':' {
      assert k[q] == digits[q - (4 + |name| + 12)];
    }
  }

  lemma ContainsWitness(s: string, sub: string) returns (i: nat)
    requires Contains(s, sub)
    ensures i + |sub| <= |s| && s[i..i + |sub|] == sub
    decreases |s|
  {
    if StartsWith(s, sub) {
      i := 0;
    } else {
      var j := ContainsWitness(s[1..], sub);
      i := j + 1;
      assert s[i..i + |sub|] == s[1..][j..j + |sub|];
    }
  }

  /** An occurrence of "image:" whose `:` is the one after the map name means the map
      name ends in "image". */
  lemma ImageTagBeforeName(name: string, rest: string, i: nat)
    requires ':' !in name
    requires i + 6 <= |"map:" + name + rest| && ("map:" + name + rest)[i..i + 6] == "image:"
    requires i + 5 == 4 + |name|
    ensures EndsWith(name, "image")
  {
    var k := "map:" + name + rest;
    assert forall p :: i <= p < i + 5 ==> k[p] == "image:"[p - i];
    assert k[3] == ':';
    assert i >= 4;
    assert k[i..i + 5] == name[|name| - 5..];
    assert k[i..i + 5] == k[i..i + 6][..5] == "image";
  }

  /** "image:" cannot end at the `:` after "resolution". */
  lemma ImageTagNotAfterResolution(head: string, digits: string, i: nat)
    requires i + 6 <= |head + ":resolution:" + digits|
    requires i + 5 == |head| + 11
    ensures (head + ":resolution:" + digits)[i..i + 6] != "image:"
  {
    var k := head + ":resolution:" + digits;
    assert k[i] == 'u';
  }

  /** A map name without `:` that does not end in "image" gives a resolution field
      whose name does not contain "image:". */
  lemma ResolutionFieldHasNoImageTag(name: string, digits: string)
    requires ':' !in name && ':' !in digits && !EndsWith(name, "image")
    ensures !Contains("map:" + name + ":resolution:" + digits, "image:")
  {
    var k := "map:" + name + ":resolution:" + digits;
    if Contains(k, "image:") {
      var i := ContainsWitness(k, "image:");
      assert k[i..i + 6][5] == ':';
      ResolutionFieldColons(name, digits, i + 5);
      if i + 5 == 4 + |name| {
        assert k == "map:" + name + (":resolution:" + digits);
        ImageTagBeforeName(name, ":resolution:" + digits, i);
      } else if i + 5 == 4 + |name| + 11 {
        ImageTagNotAfterResolution("map:" + name, digits, i);
      }
    }
  }

  /** How ParseMapField sees a resolution field: "map:" and "resolution:" but no
      "image:". */
  lemma ResolutionFieldTags(name: string, digits: string)
    requires ':' !in name && ':' !in digits && !EndsWith(name, "image")
    ensures var k := "map:" + name + ":resolution:" + digits;
      Contains(k, "map:") && Contains(k, "resolution:") && !Contains(k, "image:")
  {
    var k := "map:" + name + ":resolution:" + digits;
    ResolutionFieldHasNoImageTag(name, digits);
    assert k[0..4] == "map:";
    ContainsAt(k, "map:", 0);
    assert k[4 + |name| + 1..4 + |name| + 1 + 11] == "resolution:";
    ContainsAt(k, "resolution:", 4 + |name| + 1);
  }

  /** A resolution field splits into four `:`-separated pieces. */
  lemma ResolutionFieldSplit(name: string, digits: string)
    requires ':' !in name && ':' !in digits
    ensures Split("map:" + name + ":resolution:" + digits, ':') == ["map", name, "resolution", digits]
  {
    JoinFour("map", name, "resolution", digits, ':');
    assert "map:" == "map" + [':'];
    assert ":resolution:" == [':'] + "resolution" + [':'];
    assert "map:" + name + ":resolution:" + digits == Join(["map", name, "resolution", digits], ':');
    SplitJoin(["map", name, "resolution", digits], ':');
  }

  lemma ResolutionFieldRoundTrip(name: string, r: int)
    requires ':' !in name && !EndsWith(name, "image")
    ensures ParseMapField(ResolutionField(name, r)) == Ok(ResolutionEntry(name, r))
  {
    var digits := IntToString(r);
    assert ':' !in digits by { IntToStringChars(r, ':'); }
    ResolutionFieldTags(name, digits);
    ResolutionFieldSplit(name, digits);
    ParseIntOfString(r);
  }

  // ---------------------------------------------------------------------------
  // keyspace channels, read back by the event handler

  /** The fifth `:`-separated field of the channel announcing a change to the loop
      key of `uuid` is `uuid` itself. */
  lemma LoopChannelField(sid: string, uuid: string)
    requires ':' !in sid && ':' !in uuid
    ensures |Split(KeyspaceChannel(LoopKey(sid, uuid)), ':')| == 5
    ensures Split(KeyspaceChannel(LoopKey(sid, uuid)), ':')[4] == uuid
  {
    var parts := ["__keyspace@0__", "vizaviz", sid, "loop", uuid];
    JoinFive("__keyspace@0__", "vizaviz", sid, "loop", uuid, ':');
    assert KeyspaceChannel(LoopKey(sid, uuid)) == Join(parts, ':');
    SplitJoin(parts, ':');
  }
}
