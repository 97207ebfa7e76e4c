/** The reconciliation pass (get_state): for every scanned loop record, make sure a player
    runs for it, then read the player's loop points and volume over IPC and correct the
    ones that drifted from the stored record. */
module Reconcile {
  import opened Wrappers
  import opened Strings
  import opened Keys
  import opened Ipc
  import opened World
  import opened Supervisor

  /** What the pass consults outside the store. */
  datatype Host = Host(
    status: int -> ProcStatus,          // the OS's view of a pid
    reply: (string, string) -> string,  // a player's answer on a channel to the bytes written
    decode: string -> Option<Json>)     // `json.loads(text)['data']`, None when that raises

  // ---------------------------------------------------------------------------
  // supervision (lines 106-120)

  /** The try block decides to call idempotent_create_loop (again) when the record has no
      uuid, the running set has no pid text for it, the text is not an integer, or the
      process is gone or a zombie. */
  predicate NeedsRespawn(db: Db, sid: string, data: Fields, status: int -> ProcStatus) {
    "uuid" !in data ||
    match FieldOf(db, RunningKey(sid), data["uuid"])
    case None => true
    case Some(t) =>
      match ParseInt(t)
      case None => true
      case Some(pid) => status(pid) != Alive
  }

  /** Lines 107-108: launch when the loop is not running. */
  function EnsureRunning(st: State, sid: string, key: string, data: Fields): (State, Result<Fields>) {
    if LoopRunning(st.db, sid, data) then (st, Ok(data)) else CreateLoop(st, sid, key, data)
  }

  /** Lines 109-120: launch (again) when the recorded pid is not that of a live process. */
  function Recheck(st: State, sid: string, key: string, data: Fields, status: int -> ProcStatus): (State, Result<Fields>) {
    if NeedsRespawn(st.db, sid, data, status) then CreateLoop(st, sid, key, data) else (st, Ok(data))
  }

  /** Lines 106-124 for one record: launch if not running, re-launch on a bad pid, and fail
      (the exception leaves get_state) when a launch lacks its file or uuid, or the record
      has no uuid at line 124. A call that raises inside the try is retried once by the
      bare except, with the same data and so the same failure. A failure changes
      nothing; a success keeps the uuid. */
  function Supervise(st: State, sid: string, key: string, data: Fields, status: int -> ProcStatus): (r: (State, Result<Fields>))
    ensures r.1.Ok? ==> "uuid" in r.1.value
    ensures r.1.Err? ==> r.0 == st
  {
    var (st1, r1) := EnsureRunning(st, sid, key, data);
    if r1.Err? then (st1, r1)
    else
      var (st2, r2) := Recheck(st1, sid, key, r1.value, status);
      if r2.Err? then (st2, r2)
      else if "uuid" !in r2.value then
        assert "uuid" !in data && st2 == st;
        (st2, Err("KeyError"))
      else (st2, r2)
  }

  // ---------------------------------------------------------------------------
  // IPC checks (lines 124-160)

  /** The three property reads, in order. */
  const Probes: seq<Command> := [GetProperty(LoopStart), GetProperty(LoopEnd), GetProperty(Volume)]

  /** `float(data[f])`; None when the field is missing or not a number. */
  function StoredNumber(data: Fields, f: string): Option<real> {
    if f in data then ParseFloat(data[f]) else None
  }

  /** A stored loop point the player has to be told: non-negative, and not what the
      player reports. */
  predicate Drifted(live: Json, stored: real) {
    DiffersFromFloat(live, stored) && stored >= 0.0
  }

  /** `float(data['end'])` raises ValueError: the end is present but not a number. */
  predicate EndUnreadable(data: Fields) {
    "end" in data && StoredNumber(data, "end").None?
  }

  /** The raw volume reply, newline and all, is not the stored volume text. */
  predicate VolumeDrifted(data: Fields, reply: string) {
    "volume" in data && reply != data["volume"]
  }

  /** The set and seek commands sent after the three reads, given the decoded start and
      end replies and the raw volume reply. Nothing is sent when a start or end reply
      does not decode, or when the stored start is missing or not a number (line 139 is
      outside the inner handlers). An unreadable end raises past the KeyError handler
      and stops the rest. */
  function Corrections(data: Fields, ls: Option<Json>, le: Option<Json>, rv: string): seq<Command> {
    if ls.None? || le.None? || StoredNumber(data, "start").None? then []
    else
      var adjusted := Drifted(ls.value, StoredNumber(data, "start").value);
      var setStart := if adjusted then [SetProperty(LoopStart, data["start"])] else [];
      if EndUnreadable(data) then setStart
      else
        var fe := StoredNumber(data, "end");
        var setEnd := if fe.Some? && Drifted(le.value, fe.value) then [SetProperty(LoopEnd, data["end"])] else [];
        var setVolume := if VolumeDrifted(data, rv) then [SetProperty(Volume, data["volume"])] else [];
        setStart + setEnd + setVolume + (if adjusted then [SeekAbsolute(data["start"])] else [])
  }

  /** Everything written to the player of a supervised record, in order. */
  function PlayerCommands(data: Fields, host: Host): seq<Command>
    requires "uuid" in data
  {
    var ch := data["uuid"];
    var rs := host.reply(ch, Wire(Probes[0]));
    var re := host.reply(ch, Wire(Probes[1]));
    var rv := host.reply(ch, Wire(Probes[2]));
    Probes + Corrections(data, host.decode(rs), host.decode(re), rv)
  }

  /** `st` after writing `cmds` to the player on `ch`. */
  function Sent(st: State, ch: string, cmds: seq<Command>): State {
    st.(trace := st.trace + Writes(ch, cmds))
  }

  /** One iteration of get_state's loop over the key `key`: the new world, and whether
      the pass goes on (false when the iteration raised). */
  function ReconcileKey(st: State, sid: string, key: string, host: Host): (State, bool) {
    var (st1, r) := Supervise(st, sid, key, HashOf(st.db, key), host.status);
    match r
    case Err(_) => (st1, false)
    case Ok(d) => (Sent(st1, d["uuid"], PlayerCommands(d, host)), true)
  }

  /** get_state over the scanned keys, in scan order; it stops at the first iteration
      that raises. */
  function Pass(st: State, sid: string, keys: seq<string>, host: Host): (State, bool)
    decreases |keys|
  {
    if keys == [] then (st, true)
    else
      var (st1, ok) := ReconcileKey(st, sid, keys[0], host);
      if !ok then (st1, false) else Pass(st1, sid, keys[1..], host)
  }

  // ---------------------------------------------------------------------------
  // the corrections

  lemma PropertyNamesDiffer()
    ensures LoopStart != LoopEnd && LoopStart != Volume && LoopEnd != Volume
  {
    assert LoopStart[8] != LoopEnd[8];
    assert |LoopStart| != |Volume| && |LoopEnd| != |Volume|;
  }

  /** The commands of the full list, one by one: each set is there exactly when its
      value drifted, and the seek exactly when the start did. */
  lemma CorrectionsMembers(data: Fields, ls: Json, le: Json, rv: string, fs: real)
    requires StoredNumber(data, "start") == Some(fs) && !EndUnreadable(data)
    ensures forall c :: c in Corrections(data, Some(ls), Some(le), rv) <==>
      || (c == SetProperty(LoopStart, data["start"]) && Drifted(ls, fs))
      || ("end" in data && c == SetProperty(LoopEnd, data["end"]) && StoredNumber(data, "end").Some? && Drifted(le, StoredNumber(data, "end").value))
      || ("volume" in data && c == SetProperty(Volume, data["volume"]) && VolumeDrifted(data, rv))
      || (c == SeekAbsolute(data["start"]) && Drifted(ls, fs))
  {
    var fe := StoredNumber(data, "end");
    var setStart := if Drifted(ls, fs) then [SetProperty(LoopStart, data["start"])] else [];
    var setEnd := if fe.Some? && Drifted(le, fe.value) then [SetProperty(LoopEnd, data["end"])] else [];
    var setVolume := if VolumeDrifted(data, rv) then [SetProperty(Volume, data["volume"])] else [];
    var seek := if Drifted(ls, fs) then [SeekAbsolute(data["start"])] else [];
    assert Corrections(data, Some(ls), Some(le), rv) == setStart + setEnd + setVolume + seek;
    InFour(setStart, setEnd, setVolume, seek);
  }

  lemma InFour<T>(a: seq<T>, b: seq<T>, c: seq<T>, d: seq<T>)
    ensures forall x :: x in a + b + c + d <==> x in a || x in b || x in c || x in d
  {
  }

  /** With an unreadable end only the start is corrected. */
  lemma CorrectionsStopAtEnd(data: Fields, ls: Json, le: Json, rv: string, fs: real)
    requires StoredNumber(data, "start") == Some(fs) && EndUnreadable(data)
    ensures Corrections(data, Some(ls), Some(le), rv) == if Drifted(ls, fs) then [SetProperty(LoopStart, data["start"])] else []
  {
  }

  /** ab-loop-a is set exactly when the stored start drifted, and exactly then a seek to
      the stored start is sent too (unless an unreadable end stopped the list first). */
  lemma StartCorrection(data: Fields, ls: Json, le: Json, rv: string, fs: real)
    requires StoredNumber(data, "start") == Some(fs)
    ensures var cmds := Corrections(data, Some(ls), Some(le), rv);
      && (SetProperty(LoopStart, data["start"]) in cmds <==> Drifted(ls, fs))
      && (SeekAbsolute(data["start"]) in cmds <==> Drifted(ls, fs) && !EndUnreadable(data))
  {
    PropertyNamesDiffer();
    if EndUnreadable(data) {
      CorrectionsStopAtEnd(data, ls, le, rv, fs);
    } else {
      CorrectionsMembers(data, ls, le, rv, fs);
    }
  }

  /** At most one seek is sent, as the last command, after all the set commands. */
  lemma SeekComesLast(data: Fields, ls: Option<Json>, le: Option<Json>, rv: string)
    ensures var cmds := Corrections(data, ls, le, rv);
      && (forall i :: 0 <= i < |cmds| && cmds[i].SeekAbsolute? ==> i == |cmds| - 1)
      && (forall i :: 0 <= i < |cmds| - 1 ==> cmds[i].SetProperty?)
  {
    if ls.Some? && le.Some? && StoredNumber(data, "start").Some? && !EndUnreadable(data) {
      var adjusted := Drifted(ls.value, StoredNumber(data, "start").value);
      var fe := StoredNumber(data, "end");
      var setStart := if adjusted then [SetProperty(LoopStart, data["start"])] else [];
      var setEnd := if fe.Some? && Drifted(le.value, fe.value) then [SetProperty(LoopEnd, data["end"])] else [];
      var setVolume := if VolumeDrifted(data, rv) then [SetProperty(Volume, data["volume"])] else [];
      var seek := if adjusted then [SeekAbsolute(data["start"])] else [];
      CorrectionsAre(data, ls.value, le.value, rv, StoredNumber(data, "start").value);
      LaterCorrectionsAre(data, le.value, rv, adjusted, setEnd, setVolume, seek);
      ConcatAssoc(setStart, setEnd + setVolume, seek);
      ConcatAssoc(setStart, setEnd, setVolume);
      SetsThenSeek(setStart, setEnd, setVolume, seek);
    }
  }

  lemma SetsThenSeek(a: seq<Command>, b: seq<Command>, c: seq<Command>, d: seq<Command>)
    requires forall x :: x in a + b + c ==> x.SetProperty?
    requires |d| <= 1
    ensures var cmds := a + b + c + d;
      && (forall i :: 0 <= i < |cmds| && cmds[i].SeekAbsolute? ==> i == |cmds| - 1)
      && (forall i :: 0 <= i < |cmds| - 1 ==> cmds[i].SetProperty?)
  {
    var sets := a + b + c;
    var cmds := sets + d;
    forall i | 0 <= i < |cmds| - 1 ensures cmds[i].SetProperty? {
      assert cmds[i] == sets[i] && sets[i] in sets;
    }
  }

  /** ab-loop-b is set exactly when the stored end is a number that drifted; it plays no
      part in whether a seek follows. */
  lemma EndCorrection(data: Fields, ls: Json, le: Json, rv: string, fs: real)
    requires StoredNumber(data, "start") == Some(fs)
    ensures var cmds := Corrections(data, Some(ls), Some(le), rv);
      ("end" in data && SetProperty(LoopEnd, data["end"]) in cmds) <==>
        (StoredNumber(data, "end").Some? && Drifted(le, StoredNumber(data, "end").value))
  {
    PropertyNamesDiffer();
    if EndUnreadable(data) {
      CorrectionsStopAtEnd(data, ls, le, rv, fs);
    } else {
      CorrectionsMembers(data, ls, le, rv, fs);
    }
  }

  /** The volume is set exactly when the stored volume differs from the raw reply text
      (unless an unreadable end stopped the list first). */
  lemma VolumeCorrection(data: Fields, ls: Json, le: Json, rv: string, fs: real)
    requires StoredNumber(data, "start") == Some(fs)
    ensures var cmds := Corrections(data, Some(ls), Some(le), rv);
      ("volume" in data && SetProperty(Volume, data["volume"]) in cmds) <==>
        (VolumeDrifted(data, rv) && !EndUnreadable(data))
  {
    PropertyNamesDiffer();
    if EndUnreadable(data) {
      CorrectionsStopAtEnd(data, ls, le, rv, fs);
    } else {
      CorrectionsMembers(data, ls, le, rv, fs);
    }
  }

  /** A stored end below zero, the -1 of a loop without an end among them, is never
      sent to the player. */
  lemma NegativeEndIsNotSent(data: Fields, ls: Option<Json>, le: Option<Json>, rv: string)
    requires StoredNumber(data, "end").Some? && StoredNumber(data, "end").value < 0.0
    ensures forall c :: c in Corrections(data, ls, le, rv) ==> !(c.SetProperty? && c.property == LoopEnd)
  {
    PropertyNamesDiffer();
    if ls.Some? && le.Some? && StoredNumber(data, "start").Some? {
      CorrectionsMembers(data, ls.value, le.value, rv, StoredNumber(data, "start").value);
    }
  }

  /** A start or end reply that does not decode (the "" of a failed write among them),
      or a stored start that is missing or not a number, means no correction at all. */
  lemma NoCorrectionWithoutReadings(data: Fields, ls: Option<Json>, le: Option<Json>, rv: string)
    requires ls.None? || le.None? || StoredNumber(data, "start").None?
    ensures Corrections(data, ls, le, rv) == []
  {
  }

  /** The commands other than a set of `property`. */
  function Without(cmds: seq<Command>, property: string): (r: seq<Command>)
    ensures forall c :: c in r <==> c in cmds && !(c.SetProperty? && c.property == property)
  {
    if cmds == [] then []
    else if cmds[0].SetProperty? && cmds[0].property == property then Without(cmds[1..], property)
    else [cmds[0]] + Without(cmds[1..], property)
  }

  lemma WithoutOne(c: Command, property: string)
    ensures Without([c], property) == if c.SetProperty? && c.property == property then [] else [c]
  {
    assert [c][1..] == [];
  }

  lemma {:induction false} WithoutAppend(a: seq<Command>, b: seq<Command>, property: string)
    ensures Without(a + b, property) == Without(a, property) + Without(b, property)
    decreases |a|
  {
    if a == [] {
      assert a + b == b;
    } else {
      assert (a + b)[1..] == a[1..] + b;
      WithoutAppend(a[1..], b, property);
    }
  }

  /** Removing the end field from a record removes only the ab-loop-b correction and
      leaves the others, in their order. */
  lemma MissingEndSkipsOnlyItsCorrection(data: Fields, ls: Json, le: Json, rv: string, fs: real)
    requires StoredNumber(data, "start") == Some(fs) && !EndUnreadable(data)
    ensures Corrections(data - {"end"}, Some(ls), Some(le), rv) == Without(Corrections(data, Some(ls), Some(le), rv), LoopEnd)
  {
    PropertyNamesDiffer();
    var fe := StoredNumber(data, "end");
    var setStart := if Drifted(ls, fs) then [SetProperty(LoopStart, data["start"])] else [];
    var setEnd := if fe.Some? && Drifted(le, fe.value) then [SetProperty(LoopEnd, data["end"])] else [];
    var setVolume := if VolumeDrifted(data, rv) then [SetProperty(Volume, data["volume"])] else [];
    var seek := if Drifted(ls, fs) then [SeekAbsolute(data["start"])] else [];
    assert Corrections(data, Some(ls), Some(le), rv) == setStart + setEnd + setVolume + seek;
    var noEnd := data - {"end"};
    assert noEnd["start"] == data["start"];
    assert StoredNumber(noEnd, "start") == Some(fs) && StoredNumber(noEnd, "end").None?;
    assert VolumeDrifted(noEnd, rv) == VolumeDrifted(data, rv);
    assert Corrections(noEnd, Some(ls), Some(le), rv) == setStart + [] + setVolume + seek;
    WithoutAppend(setStart, setEnd, LoopEnd);
    WithoutAppend(setStart + setEnd, setVolume, LoopEnd);
    WithoutAppend(setStart + setEnd + setVolume, seek, LoopEnd);
    if setStart != [] { WithoutOne(setStart[0], LoopEnd); }
    if setEnd != [] { WithoutOne(setEnd[0], LoopEnd); }
    if setVolume != [] { WithoutOne(setVolume[0], LoopEnd); }
    if seek != [] { WithoutOne(seek[0], LoopEnd); }
    assert Without(setEnd, LoopEnd) == [];
  }

  /** Removing the volume field from a record removes only the volume correction and
      leaves the others, in their order. */
  lemma MissingVolumeSkipsOnlyItsCorrection(data: Fields, ls: Json, le: Json, rv: string, fs: real)
    requires StoredNumber(data, "start") == Some(fs) && !EndUnreadable(data)
    ensures Corrections(data - {"volume"}, Some(ls), Some(le), rv) == Without(Corrections(data, Some(ls), Some(le), rv), Volume)
  {
    PropertyNamesDiffer();
    var fe := StoredNumber(data, "end");
    var setStart := if Drifted(ls, fs) then [SetProperty(LoopStart, data["start"])] else [];
    var setEnd := if fe.Some? && Drifted(le, fe.value) then [SetProperty(LoopEnd, data["end"])] else [];
    var setVolume := if VolumeDrifted(data, rv) then [SetProperty(Volume, data["volume"])] else [];
    var seek := if Drifted(ls, fs) then [SeekAbsolute(data["start"])] else [];
    assert Corrections(data, Some(ls), Some(le), rv) == setStart + setEnd + setVolume + seek;
    var noVolume := data - {"volume"};
    assert noVolume["start"] == data["start"];
    assert StoredNumber(noVolume, "start") == Some(fs) && StoredNumber(noVolume, "end") == fe;
    assert !EndUnreadable(noVolume) && !VolumeDrifted(noVolume, rv);
    assert fe.Some? ==> noVolume["end"] == data["end"];
    assert Corrections(noVolume, Some(ls), Some(le), rv) == setStart + setEnd + [] + seek;
    WithoutAppend(setStart, setEnd, Volume);
    WithoutAppend(setStart + setEnd, setVolume, Volume);
    WithoutAppend(setStart + setEnd + setVolume, seek, Volume);
    if setStart != [] { WithoutOne(setStart[0], Volume); }
    if setEnd != [] { WithoutOne(setEnd[0], Volume); }
    if setVolume != [] { WithoutOne(setVolume[0], Volume); }
    if seek != [] { WithoutOne(seek[0], Volume); }
    assert Without(setVolume, Volume) == [];
  }

  /** The player's "not set" reply to a start read never equals a float, so a stored
      non-negative start is always written back, and the seek closes the list. */
  lemma NotSetStartIsCorrected(data: Fields, le: Json, rv: string, fs: real)
    requires StoredNumber(data, "start") == Some(fs) && fs >= 0.0 && !EndUnreadable(data)
    ensures var cmds := Corrections(data, Some(NotSet), Some(le), rv);
      SetProperty(LoopStart, data["start"]) in cmds && cmds[|cmds| - 1] == SeekAbsolute(data["start"])
  {
  }

  // ---------------------------------------------------------------------------
  // one iteration

  /** A record that can be supervised: it has a uuid, and a file whenever a launch may be
      due. */
  predicate Supervisable(data: Fields) {
    "uuid" in data && (Archived(data) || "filename" in data)
  }

  /** Two records agree on everything but the pid field. */
  ghost predicate SameRecord(a: Fields, b: Fields) {
    forall f :: f != "pid" ==> (f in a <==> f in b) && (f in a ==> a[f] == b[f])
  }

  /** Every launch in `t` is of the file of `data`, on its uuid, and `data` is not archived. */
  ghost predicate LaunchesOf(t: seq<Event>, data: Fields) {
    forall e :: e in t && e.Spawn? ==>
      !Archived(data) && "filename" in data && "uuid" in data && e.file == data["filename"] && e.channel == data["uuid"]
  }

  /** From `st` to `st2`, only the pid field of the record at `key` and the running set of
      `sid` may change. */
  ghost predicate DbStep(st: State, st2: State, sid: string, key: string) {
    && st2.db.sets == st.db.sets && st2.files == st.files
    && (forall k :: k != key && k != RunningKey(sid) ==> HashOf(st2.db, k) == HashOf(st.db, k))
    && SameRecord(HashOf(st2.db, key), HashOf(st.db, key))
  }

  /** `t2` extends `t`. */
  ghost predicate Grows<T>(t: seq<T>, t2: seq<T>) {
    |t| <= |t2| && t2[..|t|] == t
  }

  /** A step of supervision: the store changes as DbStep allows, the trace only grows,
      and it grows only by launches for `data`. */
  ghost predicate Step(st: State, st2: State, sid: string, key: string, data: Fields) {
    && DbStep(st, st2, sid, key)
    && Grows(st.trace, st2.trace)
    && LaunchesOf(st2.trace[|st.trace|..], data)
  }

  lemma SameRecordChain(a: Fields, b: Fields, c: Fields)
    requires SameRecord(a, b) && SameRecord(b, c)
    ensures SameRecord(a, c)
  {
  }

  lemma DbStepChain(st: State, st1: State, st2: State, sid: string, key: string)
    requires DbStep(st, st1, sid, key) && DbStep(st1, st2, sid, key)
    ensures DbStep(st, st2, sid, key)
  {
    SameRecordChain(HashOf(st2.db, key), HashOf(st1.db, key), HashOf(st.db, key));
  }

  lemma LaunchesOfAppend(a: seq<Event>, b: seq<Event>, data: Fields)
    requires LaunchesOf(a, data) && LaunchesOf(b, data)
    ensures LaunchesOf(a + b, data)
  {
  }

  lemma LaunchesOfSame(t: seq<Event>, d1: Fields, data: Fields)
    requires LaunchesOf(t, d1) && SameRecord(d1, data)
    ensures LaunchesOf(t, data)
  {
    assert "pid" != "filename" && "pid" != "uuid" && "pid" != "status";
    assert ("status" in d1 <==> "status" in data) && ("status" in d1 ==> d1["status"] == data["status"]);
    assert Archived(d1) == Archived(data);
  }

  lemma StepChain(st: State, st1: State, st2: State, sid: string, key: string, data: Fields, d1: Fields)
    requires Step(st, st1, sid, key, data) && Step(st1, st2, sid, key, d1) && SameRecord(d1, data)
    ensures Step(st, st2, sid, key, data)
  {
    DbStepChain(st, st1, st2, sid, key);
    SegmentSplit(st.trace, st1.trace, st2.trace);
    LaunchesOfSame(st2.trace[|st1.trace|..], d1, data);
    LaunchesOfAppend(st1.trace[|st.trace|..], st2.trace[|st1.trace|..], data);
  }

  lemma WritesLaunchNothing(ch: string, cmds: seq<Command>, data: Fields)
    ensures LaunchesOf(Writes(ch, cmds), data)
  {
    var w := Writes(ch, cmds);
    forall e | e in w ensures !e.Spawn? {
      var i :| 0 <= i < |w| && w[i] == e;
      assert w[i] == Write(ch, cmds[i]);
    }
  }

  /** Player writes do not break a step. */
  lemma StepThenWrites(st: State, st1: State, sid: string, key: string, data: Fields, ch: string, cmds: seq<Command>)
    requires Step(st, st1, sid, key, data)
    ensures Step(st, st1.(trace := st1.trace + Writes(ch, cmds)), sid, key, data)
  {
    var st2 := st1.(trace := st1.trace + Writes(ch, cmds));
    assert DbStep(st, st2, sid, key);
    SegmentSplit(st.trace, st1.trace, st2.trace);
    WritesLaunchNothing(ch, cmds, data);
    LaunchesOfAppend(st1.trace[|st.trace|..], Writes(ch, cmds), data);
  }

  lemma CreateLoopStep(st: State, sid: string, key: string, data: Fields)
    requires StartsWith(key, LoopKeyPrefix(sid))
    ensures var (st2, r) := CreateLoop(st, sid, key, data);
      Step(st, st2, sid, key, data) && (r.Ok? ==> SameRecord(r.value, data))
      && NewSpawns(st, st2) == (if !Archived(data) && "filename" in data && "uuid" in data then 1 else 0)
  {
    var st2 := CreateLoop(st, sid, key, data).0;
    if !Archived(data) && "filename" in data && "uuid" in data {
      SpawnRecordsOnePid(st, sid, key, data);
      var seg := st2.trace[|st.trace|..];
      assert seg == [Spawn(data["filename"], data["uuid"], st.nextPid)];
      assert SpawnCount(seg) == 1 by { assert seg[1..] == []; }
      assert LaunchesOf(seg, data);
      assert SameRecord(HashOf(st2.db, key), HashOf(st.db, key));
      assert SameRecord(data["pid" := IntToString(st.nextPid)], data);
    } else {
      assert st2.trace[|st.trace|..] == [];
    }
  }

  lemma NoStep(st: State, sid: string, key: string, data: Fields)
    ensures Step(st, st, sid, key, data)
  {
    assert st.trace[|st.trace|..] == [];
  }

  lemma EnsureRunningStep(st: State, sid: string, key: string, data: Fields)
    requires StartsWith(key, LoopKeyPrefix(sid))
    ensures var (st1, r) := EnsureRunning(st, sid, key, data);
      Step(st, st1, sid, key, data) && (r.Ok? ==> SameRecord(r.value, data))
  {
    if LoopRunning(st.db, sid, data) {
      NoStep(st, sid, key, data);
    } else {
      CreateLoopStep(st, sid, key, data);
    }
  }

  lemma RecheckStep(st: State, sid: string, key: string, data: Fields, status: int -> ProcStatus)
    requires StartsWith(key, LoopKeyPrefix(sid))
    ensures var (st1, r) := Recheck(st, sid, key, data, status);
      Step(st, st1, sid, key, data) && (r.Ok? ==> SameRecord(r.value, data))
  {
    if NeedsRespawn(st.db, sid, data, status) {
      CreateLoopStep(st, sid, key, data);
    } else {
      NoStep(st, sid, key, data);
    }
  }

  lemma {:induction false} SuperviseStep(st: State, sid: string, key: string, data: Fields, status: int -> ProcStatus)
    requires StartsWith(key, LoopKeyPrefix(sid))
    ensures var (st2, r) := Supervise(st, sid, key, data, status);
      Step(st, st2, sid, key, data) && (r.Ok? ==> SameRecord(r.value, data))
  {
    var (st1, r1) := EnsureRunning(st, sid, key, data);
    EnsureRunningStep(st, sid, key, data);
    if r1.Ok? {
      var d1 := r1.value;
      var (st2, r2) := Recheck(st1, sid, key, d1, status);
      RecheckStep(st1, sid, key, d1, status);
      StepChain(st, st1, st2, sid, key, data, d1);
      if r2.Ok? {
        SameRecordChain(r2.value, d1, data);
      }
    }
  }

  /** An iteration only sets the pid field of its own record and entries of the running
      set, only appends to the trace, and every launch it makes is of its own record's
      file on its own record's uuid, which is not archived. */
  lemma ReconcileKeyFrame(st: State, sid: string, key: string, host: Host)
    requires StartsWith(key, LoopKeyPrefix(sid))
    ensures Step(st, ReconcileKey(st, sid, key, host).0, sid, key, HashOf(st.db, key))
  {
    var data := HashOf(st.db, key);
    SuperviseStep(st, sid, key, data, host.status);
    var (st1, r) := Supervise(st, sid, key, data, host.status);
    if r.Ok? {
      StepThenWrites(st, st1, sid, key, data, r.value["uuid"], PlayerCommands(r.value, host));
    }
  }

  /** A supervisable record never makes the pass stop; a record without a uuid always
      does. */
  lemma KeyOutcome(st: State, sid: string, key: string, host: Host)
    ensures Supervisable(HashOf(st.db, key)) ==> ReconcileKey(st, sid, key, host).1
    ensures "uuid" !in HashOf(st.db, key) ==> !ReconcileKey(st, sid, key, host).1
  {
    var data := HashOf(st.db, key);
    if Supervisable(data) {
      SupervisableLaunches(st, sid, key, data);
      var (st1, r1) := EnsureRunning(st, sid, key, data);
      SupervisableLaunches(st1, sid, key, r1.value);
    }
    if "uuid" !in data {
      UnnamedLaunches(st, sid, key, data);
      var (st1, r1) := EnsureRunning(st, sid, key, data);
      if r1.Ok? {
        UnnamedLaunches(st1, sid, key, r1.value);
      }
    }
  }

  /** A supervisable record launches without error, and stays supervisable. */
  lemma SupervisableLaunches(st: State, sid: string, key: string, data: Fields)
    requires Supervisable(data)
    ensures var (_, r) := CreateLoop(st, sid, key, data); r.Ok? && Supervisable(r.value)
    ensures var (_, r) := EnsureRunning(st, sid, key, data); r.Ok? && Supervisable(r.value)
    ensures forall status: int -> ProcStatus :: var (_, r) := Recheck(st, sid, key, data, status); r.Ok? && Supervisable(r.value)
  {
    if !Archived(data) {
      var d := data["pid" := IntToString(st.nextPid)];
      assert "pid" != "uuid" && "pid" != "filename";
      assert d["uuid"] == data["uuid"] && d["filename"] == data["filename"];
    }
  }

  /** A record without a uuid launches nothing, and either fails or comes back as it was. */
  lemma UnnamedLaunches(st: State, sid: string, key: string, data: Fields)
    requires "uuid" !in data
    ensures var (_, r) := EnsureRunning(st, sid, key, data); r.Ok? ==> r.value == data
    ensures forall status: int -> ProcStatus :: var (_, r) := Recheck(st, sid, key, data, status); r.Ok? ==> r.value == data
  {
  }

  /** An archived record is never launched, and the iteration leaves the store as it was:
      it only talks to the (possibly absent) player. */
  lemma ArchivedRecordIsOnlyQueried(st: State, sid: string, key: string, host: Host)
    requires Archived(HashOf(st.db, key)) && "uuid" in HashOf(st.db, key)
    ensures var (st2, ok) := ReconcileKey(st, sid, key, host);
      var data := HashOf(st.db, key);
      ok && st2 == Sent(st, data["uuid"], PlayerCommands(data, host))
  {
    var data := HashOf(st.db, key);
    assert EnsureRunning(st, sid, key, data) == (st, Ok(data));
    assert Recheck(st, sid, key, data, host.status) == (st, Ok(data));
  }

  lemma NewSpawnsChain(st: State, st1: State, st2: State)
    requires |st.trace| <= |st1.trace| && st1.trace[..|st.trace|] == st.trace
    requires |st1.trace| <= |st2.trace| && st2.trace[..|st1.trace|] == st1.trace
    ensures NewSpawns(st, st2) == NewSpawns(st, st1) + NewSpawns(st1, st2)
  {
    assert st2.trace[|st.trace|..] == st1.trace[|st.trace|..] + st2.trace[|st1.trace|..];
    SpawnCountAppend(st1.trace[|st.trace|..], st2.trace[|st1.trace|..]);
  }

  /** Writing to a player launches nothing. */
  lemma SentSpawnsNothing(st: State, st1: State, ch: string, cmds: seq<Command>)
    requires |st.trace| <= |st1.trace| && st1.trace[..|st.trace|] == st.trace
    ensures NewSpawns(st, Sent(st1, ch, cmds)) == NewSpawns(st, st1)
  {
    var st2 := Sent(st1, ch, cmds);
    assert st2.trace[|st1.trace|..] == Writes(ch, cmds);
    WritesSpawnNothing(ch, cmds);
    NewSpawnsChain(st, st1, st2);
  }

  /** The supervision of a launchable record, as a count of launches. */
  lemma {:induction false} SuperviseSpawns(st: State, sid: string, key: string, data: Fields, status: int -> ProcStatus)
    requires StartsWith(key, LoopKeyPrefix(sid))
    requires !Archived(data) && "filename" in data && "uuid" in data
    ensures var (st2, r) := Supervise(st, sid, key, data, status);
      && r.Ok? && |st.trace| <= |st2.trace| && st2.trace[..|st.trace|] == st.trace
      && NewSpawns(st, st2) ==
        if !LoopRunning(st.db, sid, data) then (if status(st.nextPid) == Alive then 1 else 2)
        else if NeedsRespawn(st.db, sid, data, status) then 1 else 0
  {
    var (st1, r1) := EnsureRunning(st, sid, key, data);
    EnsureRunningSpawns(st, sid, key, data, status);
    var (st2, r2) := Recheck(st1, sid, key, r1.value, status);
    RecheckSpawns(st1, sid, key, r1.value, status);
    NewSpawnsChain(st, st1, st2);
  }

  lemma EnsureRunningSpawns(st: State, sid: string, key: string, data: Fields, status: int -> ProcStatus)
    requires StartsWith(key, LoopKeyPrefix(sid))
    requires !Archived(data) && "filename" in data && "uuid" in data
    ensures var (st1, r1) := EnsureRunning(st, sid, key, data);
      && r1.Ok? && !Archived(r1.value) && "filename" in r1.value && "uuid" in r1.value
      && |st.trace| <= |st1.trace| && st1.trace[..|st.trace|] == st.trace
      && NewSpawns(st, st1) == (if LoopRunning(st.db, sid, data) then 0 else 1)
      && NeedsRespawn(st1.db, sid, r1.value, status) ==
           if LoopRunning(st.db, sid, data) then NeedsRespawn(st.db, sid, data, status) else status(st.nextPid) != Alive
  {
    var (st1, r1) := EnsureRunning(st, sid, key, data);
    if !LoopRunning(st.db, sid, data) {
      CreateLoopStep(st, sid, key, data);
      SpawnRecordsOnePid(st, sid, key, data);
      assert FieldOf(st1.db, RunningKey(sid), data["uuid"]) == Some(IntToString(st.nextPid));
      ParseIntOfString(st.nextPid);
    } else {
      assert st1.trace[|st.trace|..] == [];
    }
  }

  lemma RecheckSpawns(st: State, sid: string, key: string, data: Fields, status: int -> ProcStatus)
    requires StartsWith(key, LoopKeyPrefix(sid))
    requires !Archived(data) && "filename" in data && "uuid" in data
    ensures var (st1, r1) := Recheck(st, sid, key, data, status);
      && r1.Ok? && "uuid" in r1.value
      && |st.trace| <= |st1.trace| && st1.trace[..|st.trace|] == st.trace
      && NewSpawns(st, st1) == (if NeedsRespawn(st.db, sid, data, status) then 1 else 0)
  {
    var (st1, r1) := Recheck(st, sid, key, data, status);
    if NeedsRespawn(st.db, sid, data, status) {
      CreateLoopStep(st, sid, key, data);
      SpawnRecordsOnePid(st, sid, key, data);
    } else {
      assert st1.trace[|st.trace|..] == [];
    }
  }

  /** How many players an iteration launches for a record that can be launched: one and a
      second if the fresh pid is then seen as gone or a zombie, when the uuid has no
      running-set entry; otherwise one exactly when the recorded pid is unreadable or not
      a live process, and none for a live one. */
  lemma LaunchCount(st: State, sid: string, key: string, host: Host)
    requires StartsWith(key, LoopKeyPrefix(sid))
    requires var data := HashOf(st.db, key); !Archived(data) && "filename" in data && "uuid" in data
    ensures var data := HashOf(st.db, key);
      NewSpawns(st, ReconcileKey(st, sid, key, host).0) ==
        if !LoopRunning(st.db, sid, data) then (if host.status(st.nextPid) == Alive then 1 else 2)
        else if NeedsRespawn(st.db, sid, data, host.status) then 1 else 0
  {
    var data := HashOf(st.db, key);
    SuperviseSpawns(st, sid, key, data, host.status);
    var (st2, r) := Supervise(st, sid, key, data, host.status);
    var d := r.value;
    SentSpawnsNothing(st, st2, d["uuid"], PlayerCommands(d, host));
  }

  // ---------------------------------------------------------------------------
  // the whole pass

  /** The launches a trace segment holds are all for records among `keys` of `db` that
      are not archived. */
  ghost predicate LaunchesOnlyFor(t: seq<Event>, db: Db, keys: seq<string>) {
    forall e :: e in t && e.Spawn? ==>
      exists k :: k in keys && "uuid" in HashOf(db, k) && e.channel == HashOf(db, k)["uuid"] && !Archived(HashOf(db, k))
  }

  /** When every scanned record can be supervised, the pass processes them all: a failure
      to reach one player (no reply, bad JSON, unreadable fields) never stops it. */
  lemma {:induction false} PassCompletes(st: State, sid: string, keys: seq<string>, host: Host)
    requires forall k :: k in keys ==> StartsWith(k, LoopKeyPrefix(sid)) && Supervisable(HashOf(st.db, k))
    ensures Pass(st, sid, keys, host).1
    decreases |keys|
  {
    if keys != [] {
      KeyOutcome(st, sid, keys[0], host);
      var st1 := ReconcileKey(st, sid, keys[0], host).0;
      ReconcileKeyFrame(st, sid, keys[0], host);
      forall k | k in keys[1..] ensures StartsWith(k, LoopKeyPrefix(sid)) && Supervisable(HashOf(st1.db, k)) {
        LoopKeyIsNotRunningKey(sid, k);
        assert k in keys;
        assert SameRecord(HashOf(st1.db, k), HashOf(st.db, k));
      }
      PassCompletes(st1, sid, keys[1..], host);
    }
  }

  lemma SegmentSplit<T>(t0: seq<T>, t1: seq<T>, t2: seq<T>)
    requires |t0| <= |t1| && t1[..|t0|] == t0
    requires |t1| <= |t2| && t2[..|t1|] == t1
    ensures |t0| <= |t2| && t2[..|t0|] == t0
    ensures t2[|t0|..] == t1[|t0|..] + t2[|t1|..]
  {
  }

  lemma LaunchesOnlyForAppend(a: seq<Event>, b: seq<Event>, db: Db, keys: seq<string>)
    requires LaunchesOnlyFor(a, db, keys) && LaunchesOnlyFor(b, db, keys)
    ensures LaunchesOnlyFor(a + b, db, keys)
  {
  }

  /** The launches of the first iteration are for its own record. */
  lemma FirstLaunches(t: seq<Event>, db: Db, key: string, keys: seq<string>)
    requires key in keys && LaunchesOf(t, HashOf(db, key))
    ensures LaunchesOnlyFor(t, db, keys)
  {
    forall e | e in t && e.Spawn?
      ensures exists k :: k in keys && "uuid" in HashOf(db, k) && e.channel == HashOf(db, k)["uuid"] && !Archived(HashOf(db, k))
    {
      assert "uuid" in HashOf(db, key) && e.channel == HashOf(db, key)["uuid"] && !Archived(HashOf(db, key));
    }
  }

  /** The launches of the later iterations are for records the first iteration did not
      change but for their pid. */
  lemma LaterLaunches(t: seq<Event>, st: State, st1: State, sid: string, key: string, keys: seq<string>)
    requires keys != [] && DbStep(st, st1, sid, key)
    requires forall k :: k in keys ==> StartsWith(k, LoopKeyPrefix(sid))
    requires LaunchesOnlyFor(t, st1.db, keys[1..])
    ensures LaunchesOnlyFor(t, st.db, keys)
  {
    forall e | e in t && e.Spawn?
      ensures exists k :: k in keys && "uuid" in HashOf(st.db, k) && e.channel == HashOf(st.db, k)["uuid"] && !Archived(HashOf(st.db, k))
    {
      var k :| k in keys[1..] && "uuid" in HashOf(st1.db, k) && e.channel == HashOf(st1.db, k)["uuid"] && !Archived(HashOf(st1.db, k));
      assert k in keys;
      LoopKeyIsNotRunningKey(sid, k);
      var a, b := HashOf(st1.db, k), HashOf(st.db, k);
      assert SameRecord(a, b);
      assert "pid" != "uuid" && "pid" != "status";
      assert "uuid" in b && b["uuid"] == a["uuid"];
      assert ("status" in a <==> "status" in b) && ("status" in a ==> a["status"] == b["status"]);
      assert !Archived(b);
    }
  }

  /** The pass launches players only for scanned records that are not archived; an
      archived loop is never launched. */
  lemma {:induction false} PassLaunchesOnlyLiveLoops(st: State, sid: string, keys: seq<string>, host: Host)
    requires forall k :: k in keys ==> StartsWith(k, LoopKeyPrefix(sid))
    ensures var st2 := Pass(st, sid, keys, host).0;
      |st.trace| <= |st2.trace| && st2.trace[..|st.trace|] == st.trace
      && LaunchesOnlyFor(st2.trace[|st.trace|..], st.db, keys)
    decreases |keys|
  {
    if keys != [] {
      var key := keys[0];
      var (st1, ok) := ReconcileKey(st, sid, key, host);
      ReconcileKeyFrame(st, sid, key, host);
      var seg1 := st1.trace[|st.trace|..];
      FirstLaunches(seg1, st.db, key, keys);
      if ok {
        assert forall k :: k in keys[1..] ==> k in keys;
        PassLaunchesOnlyLiveLoops(st1, sid, keys[1..], host);
        var st2 := Pass(st1, sid, keys[1..], host).0;
        assert Pass(st, sid, keys, host).0 == st2;
        SegmentSplit(st.trace, st1.trace, st2.trace);
        LaterLaunches(st2.trace[|st1.trace|..], st, st1, sid, key, keys);
        LaunchesOnlyForAppend(seg1, st2.trace[|st1.trace|..], st.db, keys);
      }
    }
  }

  // ---------------------------------------------------------------------------
  // the pass, acting on the world

  lemma WritesIf(ch: string, cond: bool, cmd: Command)
    ensures Writes(ch, if cond then [cmd] else []) == if cond then [Write(ch, cmd)] else []
  {
  }

  /** write_to_pipe when `cond` holds. */
  method SendIf(env: Env, reply: (string, string) -> string, ch: string, cond: bool, cmd: Command) returns (out: string)
    modifies env
    ensures cond ==> out == reply(ch, Wire(cmd))
    ensures env.trace == old(env.trace) + if cond then [Write(ch, cmd)] else []
    ensures env.db == old(env.db) && env.files == old(env.files) && env.nextPid == old(env.nextPid)
  {
    out := "";
    if cond {
      out := env.WriteToPipe(reply, ch, cmd);
    } else {
      assert env.trace + [] == env.trace;
    }
  }

  lemma WritesOfThree(ch: string, a: seq<Command>, b: seq<Command>, c: seq<Command>)
    ensures Writes(ch, a + b + c) == Writes(ch, a) + Writes(ch, b) + Writes(ch, c)
  {
    WritesAppend(ch, a + b, c);
    WritesAppend(ch, a, b);
  }

  /** Lines 129-160, once the three replies are in. */
  method SendCorrections(env: Env, reply: (string, string) -> string, ch: string, data: Fields,
                         ls: Option<Json>, le: Option<Json>, loopVolume: string)
    modifies env
    ensures env.trace == old(env.trace) + Writes(ch, Corrections(data, ls, le, loopVolume))
    ensures env.db == old(env.db) && env.files == old(env.files) && env.nextPid == old(env.nextPid)
  {
    if ls.None? || le.None? || "start" !in data {
      // json.loads raised, or the reply had no data member, or line 139 raised KeyError
      NoCorrectionWithoutReadings(data, ls, le, loopVolume);
      assert env.trace + [] == env.trace;
      return;
    }
    var fs := ParseFloat(data["start"]);
    assert fs == StoredNumber(data, "start");
    if fs.None? {
      // line 139 raised ValueError
      NoCorrectionWithoutReadings(data, ls, le, loopVolume);
      assert env.trace + [] == env.trace;
      return;
    }
    var adjustedLoop := DiffersFromFloat(ls.value, fs.value) && fs.value >= 0.0;
    var startCmd := SetProperty(LoopStart, data["start"]);
    ghost var setStart := if adjustedLoop then [startCmd] else [];
    ghost var t0 := env.trace;
    var _ := SendIf(env, reply, ch, adjustedLoop, startCmd);
    WritesIf(ch, adjustedLoop, startCmd);
    assert env.trace == t0 + Writes(ch, setStart);
    if "end" in data {
      var fe := ParseFloat(data["end"]);
      if fe.None? {
        // line 148 raised ValueError, which the KeyError handler does not catch
        CorrectionsStopAtEnd(data, ls.value, le.value, loopVolume, fs.value);
        return;
      }
    }
    ghost var t1 := env.trace;
    SendLater(env, reply, ch, data, le.value, loopVolume, adjustedLoop);
    ghost var later := LaterCorrections(data, le.value, loopVolume, adjustedLoop);
    assert env.trace == t1 + Writes(ch, later);
    CorrectionsAre(data, ls.value, le.value, loopVolume, fs.value);
    WritesAppend(ch, setStart, later);
    ConcatAssoc(t0, Writes(ch, setStart), Writes(ch, later));
  }

  lemma CorrectionsAre(data: Fields, ls: Json, le: Json, rv: string, fs: real)
    requires StoredNumber(data, "start") == Some(fs) && !EndUnreadable(data)
    ensures var adjusted := DiffersFromFloat(ls, fs) && fs >= 0.0;
      Corrections(data, Some(ls), Some(le), rv) ==
        (if adjusted then [SetProperty(LoopStart, data["start"])] else []) + LaterCorrections(data, le, rv, adjusted)
  {
  }

  /** The corrections after the start: the end, the volume and the seek. */
  function LaterCorrections(data: Fields, le: Json, rv: string, adjusted: bool): seq<Command>
    requires "start" in data
  {
    var fe := StoredNumber(data, "end");
    (if fe.Some? && Drifted(le, fe.value) then [SetProperty(LoopEnd, data["end"])] else [])
    + (if VolumeDrifted(data, rv) then [SetProperty(Volume, data["volume"])] else [])
    + (if adjusted then [SeekAbsolute(data["start"])] else [])
  }

  /** Lines 150-160. */
  method SendLater(env: Env, reply: (string, string) -> string, ch: string, data: Fields,
                   le: Json, loopVolume: string, adjustedLoop: bool)
    requires "start" in data && !EndUnreadable(data)
    modifies env
    ensures env.trace == old(env.trace) + Writes(ch, LaterCorrections(data, le, loopVolume, adjustedLoop))
    ensures env.db == old(env.db) && env.files == old(env.files) && env.nextPid == old(env.nextPid)
  {
    var fe: Option<real> := None;
    if "end" in data {
      fe := ParseFloat(data["end"]);
    }
    assert fe == StoredNumber(data, "end");
    var endDrifted := fe.Some? && DiffersFromFloat(le, fe.value) && fe.value >= 0.0;
    var endCmd := SetProperty(LoopEnd, if "end" in data then data["end"] else "");
    var volumeDrifted := "volume" in data && loopVolume != data["volume"];
    var volumeCmd := SetProperty(Volume, if "volume" in data then data["volume"] else "");
    var seekCmd := SeekAbsolute(data["start"]);
    Send3(env, reply, ch, endDrifted, endCmd, volumeDrifted, volumeCmd, adjustedLoop, seekCmd);
    LaterCorrectionsAre(data, le, loopVolume, adjustedLoop,
      if endDrifted then [endCmd] else [], if volumeDrifted then [volumeCmd] else [], if adjustedLoop then [seekCmd] else []);
  }

  /** Three writes, each when its condition holds. */
  method Send3(env: Env, reply: (string, string) -> string, ch: string, c1: bool, x1: Command, c2: bool, x2: Command, c3: bool, x3: Command)
    modifies env
    ensures env.trace == old(env.trace) + Writes(ch, (if c1 then [x1] else []) + (if c2 then [x2] else []) + (if c3 then [x3] else []))
    ensures env.db == old(env.db) && env.files == old(env.files) && env.nextPid == old(env.nextPid)
  {
    ghost var a, b, c := (if c1 then [x1] else []), (if c2 then [x2] else []), (if c3 then [x3] else []);
    ghost var t0 := env.trace;
    var _ := SendIf(env, reply, ch, c1, x1);
    WritesIf(ch, c1, x1);
    ghost var t1 := env.trace;
    assert t1 == t0 + Writes(ch, a);
    var _ := SendIf(env, reply, ch, c2, x2);
    WritesIf(ch, c2, x2);
    ghost var t2 := env.trace;
    assert t2 == t1 + Writes(ch, b);
    var _ := SendIf(env, reply, ch, c3, x3);
    WritesIf(ch, c3, x3);
    assert env.trace == t2 + Writes(ch, c);
    WritesOfThree(ch, a, b, c);
    Assoc3(t0, Writes(ch, a), Writes(ch, b), Writes(ch, c));
  }


  lemma Assoc3<T>(t: seq<T>, a: seq<T>, b: seq<T>, c: seq<T>)
    ensures t + a + b + c == t + (a + b + c)
  {
  }

  lemma LaterCorrectionsAre(data: Fields, le: Json, rv: string, adjusted: bool, setEnd: seq<Command>, setVolume: seq<Command>, seek: seq<Command>)
    requires "start" in data
    requires setEnd == if StoredNumber(data, "end").Some? && Drifted(le, StoredNumber(data, "end").value) then [SetProperty(LoopEnd, data["end"])] else []
    requires setVolume == if VolumeDrifted(data, rv) then [SetProperty(Volume, data["volume"])] else []
    requires seek == if adjusted then [SeekAbsolute(data["start"])] else []
    ensures LaterCorrections(data, le, rv, adjusted) == setEnd + setVolume + seek
  {
  }

  /** Lines 124-160: read the three properties, then send the corrections. */
  method QueryPlayer(env: Env, data: Fields, host: Host)
    requires "uuid" in data
    modifies env
    ensures env.Snapshot() == Sent(old(env.Snapshot()), data["uuid"], PlayerCommands(data, host))
  {
    var ch := data["uuid"];
    ghost var t0 := env.trace;
    var loopStart, loopEnd, loopVolume := SendProbes(env, host.reply, ch);
    ghost var t1 := env.trace;
    SendCorrections(env, host.reply, ch, data, host.decode(loopStart), host.decode(loopEnd), loopVolume);
    ghost var corrections := Corrections(data, host.decode(loopStart), host.decode(loopEnd), loopVolume);
    assert env.trace == t1 + Writes(ch, corrections);
    WritesAppend(ch, Probes, corrections);
    ConcatAssoc(t0, Writes(ch, Probes), Writes(ch, corrections));
  }

  /** Lines 124-128: the three reads. */
  method SendProbes(env: Env, reply: (string, string) -> string, ch: string) returns (rs: string, re: string, rv: string)
    modifies env
    ensures rs == reply(ch, Wire(Probes[0])) && re == reply(ch, Wire(Probes[1])) && rv == reply(ch, Wire(Probes[2]))
    ensures env.trace == old(env.trace) + Writes(ch, Probes)
    ensures env.db == old(env.db) && env.files == old(env.files) && env.nextPid == old(env.nextPid)
  {
    ghost var t0 := env.trace;
    rs := SendIf(env, reply, ch, true, Probes[0]);
    re := SendIf(env, reply, ch, true, Probes[1]);
    rv := SendIf(env, reply, ch, true, Probes[2]);
    WritesIf(ch, true, Probes[0]);
    WritesIf(ch, true, Probes[1]);
    WritesIf(ch, true, Probes[2]);
    assert env.trace == t0 + [Write(ch, Probes[0])] + [Write(ch, Probes[1])] + [Write(ch, Probes[2])];
    WritesOfThree(ch, [Probes[0]], [Probes[1]], [Probes[2]]);
    assert [Probes[0]] + [Probes[1]] + [Probes[2]] == Probes;
    Assoc3(t0, [Write(ch, Probes[0])], [Write(ch, Probes[1])], [Write(ch, Probes[2])]);
  }

  /** Lines 107-108. */
  method EnsureLoopRunning(env: Env, sid: string, key: string, data: Fields) returns (r: Result<Fields>)
    modifies env
    ensures (env.Snapshot(), r) == EnsureRunning(old(env.Snapshot()), sid, key, data)
  {
    var running := env.HGetAll(RunningKey(sid));
    if "uuid" in data && data["uuid"] in running {
      return Ok(data);
    }
    r := IdempotentCreateLoop(env, sid, key, data);
  }

  /** Lines 109-120. */
  method RecheckLoop(env: Env, sid: string, key: string, data: Fields, status: int -> ProcStatus) returns (r: Result<Fields>)
    modifies env
    ensures (env.Snapshot(), r) == Recheck(old(env.Snapshot()), sid, key, data, status)
  {
    var respawn := true;
    if "uuid" in data {
      var pidText := env.HGet(RunningKey(sid), data["uuid"]);
      if pidText.Some? {
        var pid := ParseInt(pidText.value);
        if pid.Some? && status(pid.value) == Alive {
          respawn := false;
        }
      }
    }
    if !respawn {
      return Ok(data);
    }
    r := IdempotentCreateLoop(env, sid, key, data);
  }

  /** One iteration of get_state's loop (lines 106-163); false when it raised. */
  method ReconcileLoop(env: Env, sid: string, key: string, host: Host) returns (ok: bool)
    modifies env
    ensures (env.Snapshot(), ok) == ReconcileKey(old(env.Snapshot()), sid, key, host)
  {
    var data := env.HGetAll(key);
    var r := EnsureLoopRunning(env, sid, key, data);
    if r.Err? {
      return false;
    }
    r := RecheckLoop(env, sid, key, r.value, host.status);
    if r.Err? {
      return false;
    }
    if "uuid" !in r.value {
      // KeyError at line 124
      return false;
    }
    QueryPlayer(env, r.value, host);
    ok := true;
  }

  /** get_state: reconcile every scanned loop key of server `sid`, in scan order; false
      when an iteration raised and so ended the pass. */
  method GetState(env: Env, sid: string, keys: seq<string>, host: Host) returns (ok: bool)
    modifies env
    ensures (env.Snapshot(), ok) == Pass(old(env.Snapshot()), sid, keys, host)
  {
    var i := 0;
    ok := true;
    while i < |keys|
      invariant 0 <= i <= |keys|
      invariant Pass(old(env.Snapshot()), sid, keys, host) == Pass(env.Snapshot(), sid, keys[i..], host)
    {
      assert keys[i..][1..] == keys[i + 1..];
      ok := ReconcileLoop(env, sid, keys[i], host);
      if !ok {
        return;
      }
      i := i + 1;
    }
  }
}
