/** The outside world the server acts on: the Redis keyspace, the files in its data
    directories, the ordered trace of external commands it issues (player launches,
    socket writes, terminations, frame extraction, downloads) and a source of fresh pids. */
module World {
  import opened Wrappers
  import opened Ipc
  import Encoding

  // ---------------------------------------------------------------------------
  // Redis

  type Fields = map<string, string>

  /** The keyspace: hashes and sets by key. A Redis hash without fields does not exist,
      so an absent key and an empty hash read the same. */
  datatype Db = Db(hashes: map<string, Fields>, sets: map<string, set<string>>)

  /** HGETALL */
  function HashOf(db: Db, key: string): Fields {
    if key in db.hashes then db.hashes[key] else map[]
  }

  /** HGET: None for an absent key or field. */
  function FieldOf(db: Db, key: string, field: string): Option<string> {
    var h := HashOf(db, key);
    if field in h then Some(h[field]) else None
  }

  /** HMSET: the given fields are merged into the hash; every other key is untouched. */
  function WithFields(db: Db, key: string, fields: Fields): (r: Db)
    ensures HashOf(r, key) == HashOf(db, key) + fields
    ensures forall k :: k != key ==> HashOf(r, k) == HashOf(db, k)
    ensures r.sets == db.sets
  {
    db.(hashes := db.hashes[key := HashOf(db, key) + fields])
  }

  /** SMEMBERS: the empty set for an absent key. */
  function MembersOf(db: Db, key: string): set<string> {
    if key in db.sets then db.sets[key] else {}
  }

  /** SADD of one member. */
  function WithMember(db: Db, key: string, member: string): (r: Db)
    ensures MembersOf(r, key) == MembersOf(db, key) + {member}
    ensures forall k :: k != key ==> MembersOf(r, k) == MembersOf(db, k)
    ensures r.hashes == db.hashes
  {
    db.(sets := db.sets[key := MembersOf(db, key) + {member}])
  }

  /** DEL: the key is gone, whatever it held; every other key is untouched. */
  function WithoutKey(db: Db, key: string): (r: Db)
    ensures HashOf(r, key) == map[] && MembersOf(r, key) == {}
    ensures forall k :: k != key ==> HashOf(r, k) == HashOf(db, k) && MembersOf(r, k) == MembersOf(db, k)
  {
    Db(db.hashes - {key}, db.sets - {key})
  }

  // ---------------------------------------------------------------------------
  // files

  /** A file by directory and base name. */
  datatype Path = Path(dir: string, name: string)

  /** What the core stores in files: a frames x resolution x 3 colormap array, or an
      opaque image. */
  datatype Blob = Grid(cells: seq<seq<seq<Encoding.Byte>>>) | Image(data: string)

  // ---------------------------------------------------------------------------
  // external commands

  datatype Event =
    | Spawn(file: string, channel: string, pid: int)  // a player on `file`, listening on socket `channel`
    | Write(channel: string, command: Command)        // one write_to_pipe
    | Terminate(pid: int)                             // despawn_loop
    | Extract(source: string, prefix: string)         // ffmpeg frame extraction
    | Fetch(url: string, dir: string)                 // a youtube-dl download

  /** Everything the core can observe or change, as one value. */
  datatype State = State(db: Db, files: map<Path, Blob>, trace: seq<Event>, nextPid: int)

  function Emit(st: State, e: Event): (r: State)
    ensures r.trace == st.trace + [e] && r.db == st.db && r.files == st.files && r.nextPid == st.nextPid
  {
    st.(trace := st.trace + [e])
  }

  function Store(st: State, key: string, fields: Fields): (r: State)
    ensures r.db == WithFields(st.db, key, fields)
    ensures r.trace == st.trace && r.files == st.files && r.nextPid == st.nextPid
  {
    st.(db := WithFields(st.db, key, fields))
  }

  /** HSET of one field: that field holds the value; every other field and key, and the
      rest of the world, are untouched. */
  lemma StoreOneField(st: State, key: string, f: string, v: string)
    ensures var st2 := Store(st, key, map[f := v]);
      && FieldOf(st2.db, key, f) == Some(v)
      && (forall g :: g != f ==> FieldOf(st2.db, key, g) == FieldOf(st.db, key, g))
      && (forall k :: k != key ==> HashOf(st2.db, k) == HashOf(st.db, k))
      && st2.files == st.files && st2.trace == st.trace && st2.nextPid == st.nextPid && st2.db.sets == st.db.sets
  {
  }

  /** The Write events of a sequence of commands on one channel. */
  function Writes(channel: string, cmds: seq<Command>): (r: seq<Event>)
    ensures |r| == |cmds|
    ensures forall i :: 0 <= i < |cmds| ==> r[i] == Write(channel, cmds[i])
  {
    if cmds == [] then [] else [Write(channel, cmds[0])] + Writes(channel, cmds[1..])
  }

  lemma WritesAppend(channel: string, a: seq<Command>, b: seq<Command>)
    ensures Writes(channel, a + b) == Writes(channel, a) + Writes(channel, b)
  {
  }

  /** A launched player: the next pid is taken and the launch is traced. */
  function Launched(st: State, file: string, channel: string): (r: State)
    ensures r.nextPid == st.nextPid + 1 && r.trace == st.trace + [Spawn(file, channel, st.nextPid)]
    ensures r.db == st.db && r.files == st.files
  {
    State(st.db, st.files, st.trace + [Spawn(file, channel, st.nextPid)], st.nextPid + 1)
  }

  /** The world as mutable state, with one method per primitive the core calls. */
  class Env {
    var db: Db
    var files: map<Path, Blob>
    var trace: seq<Event>
    var nextPid: int

    function Snapshot(): State
      reads this
    {
      State(db, files, trace, nextPid)
    }

    constructor (st: State)
      ensures Snapshot() == st
    {
      db := st.db;
      files := st.files;
      trace := st.trace;
      nextPid := st.nextPid;
    }

    method HGetAll(key: string) returns (h: Fields)
      ensures h == HashOf(db, key)
    {
      h := HashOf(db, key);
    }

    method HGet(key: string, field: string) returns (v: Option<string>)
      ensures v == FieldOf(db, key, field)
    {
      v := FieldOf(db, key, field);
    }

    method HmSet(key: string, fields: Fields)
      modifies this
      ensures Snapshot() == Store(old(Snapshot()), key, fields)
    {
      db := WithFields(db, key, fields);
    }

    method Del(key: string)
      modifies this
      ensures Snapshot() == old(Snapshot()).(db := WithoutKey(old(db), key))
    {
      db := WithoutKey(db, key);
    }

    method SMembers(key: string) returns (s: set<string>)
      ensures s == MembersOf(db, key)
    {
      s := MembersOf(db, key);
    }

    method SAdd(key: string, member: string)
      modifies this
      ensures Snapshot() == old(Snapshot()).(db := WithMember(old(db), key, member))
    {
      db := WithMember(db, key, member);
    }

    method IsFile(p: Path) returns (b: bool)
      ensures b <==> p in files
    {
      b := p in files;
    }

    /** Reading a file: None when it does not exist. */
    method Load(p: Path) returns (b: Option<Blob>)
      ensures b == if p in files then Some(files[p]) else None
    {
      b := if p in files then Some(files[p]) else None;
    }

    method Save(p: Path, blob: Blob)
      modifies this
      ensures Snapshot() == old(Snapshot()).(files := old(files)[p := blob])
    {
      files := files[p := blob];
    }

    method Issue(e: Event)
      modifies this
      ensures Snapshot() == Emit(old(Snapshot()), e)
    {
      trace := trace + [e];
    }

    /** spawn_loop: launch a player and return its pid, which no earlier launch used. */
    method SpawnLoop(file: string, channel: string) returns (pid: int)
      modifies this
      ensures pid == old(nextPid)
      ensures Snapshot() == Launched(old(Snapshot()), file, channel)
    {
      pid := nextPid;
      trace := trace + [Spawn(file, channel, pid)];
      nextPid := nextPid + 1;
    }

    /** write_to_pipe: send the framed command to the player on `channel` and return its
        reply, which `reply` gives for the channel and the exact bytes written (the empty
        string stands for any transport failure). */
    method WriteToPipe(reply: (string, string) -> string, channel: string, cmd: Command)
      returns (out: string)
      modifies this
      ensures out == reply(channel, Wire(cmd))
      ensures Snapshot() == Emit(old(Snapshot()), Write(channel, cmd))
    {
      var toWrite := CommandText(cmd);
      if !Strings.EndsWith(toWrite, "\n") {
        toWrite := toWrite + "\n";
      }
      trace := trace + [Write(channel, cmd)];
      out := reply(channel, toWrite);
    }
  }
}
