/** Player supervision: which loop records have a running player, and launching one
    (idempotent_create_loop), against a world whose loop records live under
    `vizaviz:<sid>:loop:<uuid>` and whose running set is `vizaviz:<sid>:state:running`. */
module Supervisor {
  import opened Wrappers
  import opened Strings
  import opened Keys
  import opened Ipc
  import opened World

  /** What the OS reports for a pid: a vanished (or unreadable) process, a zombie, or any
      other status. */
  datatype ProcStatus = Gone | Zombie | Alive

  /** loop_running: the record has a uuid and the running set has an entry for it. */
  predicate LoopRunning(db: Db, sid: string, data: Fields) {
    "uuid" in data && data["uuid"] in HashOf(db, RunningKey(sid))
  }

  /** `'archive' in data['status']`: the status text contains "archive". */
  predicate Archived(data: Fields) {
    "status" in data && Contains(data["status"], "archive")
  }

  /** idempotent_create_loop on the world `st`: an archived record is returned as it is;
      otherwise a player is launched on the record's file, listening on the record's uuid,
      and its pid goes into the running set and into the record's "pid" field. A missing
      filename or uuid is a KeyError, raised before anything happens. */
  function CreateLoop(st: State, sid: string, key: string, data: Fields): (State, Result<Fields>) {
    if Archived(data) then (st, Ok(data))
    else if "filename" !in data || "uuid" !in data then (st, Err("KeyError"))
    else
      var pid := IntToString(st.nextPid);
      var launched := Launched(st, data["filename"], data["uuid"]);
      var registered := Store(launched, RunningKey(sid), map[data["uuid"] := pid]);
      (Store(registered, key, map["pid" := pid]), Ok(data["pid" := pid]))
  }

  /** The number of player launches in a trace. */
  function SpawnCount(t: seq<Event>): nat {
    if t == [] then 0 else (if t[0].Spawn? then 1 else 0) + SpawnCount(t[1..])
  }

  lemma {:induction false} SpawnCountAppend(a: seq<Event>, b: seq<Event>)
    ensures SpawnCount(a + b) == SpawnCount(a) + SpawnCount(b)
    decreases |a|
  {
    if a == [] {
      assert a + b == b;
    } else {
      assert (a + b)[1..] == a[1..] + b;
      SpawnCountAppend(a[1..], b);
    }
  }

  lemma {:induction false} WritesSpawnNothing(channel: string, cmds: seq<Command>)
    ensures SpawnCount(Writes(channel, cmds)) == 0
    decreases |cmds|
  {
    if cmds != [] {
      WritesSpawnNothing(channel, cmds[1..]);
    }
  }

  /** The launches `st2` added to the trace of `st1`. */
  function NewSpawns(st1: State, st2: State): nat {
    if |st1.trace| <= |st2.trace| then SpawnCount(st2.trace[|st1.trace|..]) else 0
  }

  /** An archived record launches nothing and is handed back unchanged. */
  lemma ArchivedIsLeftAlone(st: State, sid: string, key: string, data: Fields)
    requires Archived(data)
    ensures CreateLoop(st, sid, key, data) == (st, Ok(data))
  {
  }

  /** A record without a status field is launched, on its own file and as a player
      listening on its uuid. */
  lemma NoStatusIsSpawned(st: State, sid: string, key: string, data: Fields)
    requires "status" !in data && "filename" in data && "uuid" in data
    ensures CreateLoop(st, sid, key, data).0.trace == st.trace + [Spawn(data["filename"], data["uuid"], st.nextPid)]
    ensures CreateLoop(st, sid, key, data).1 == Ok(data["pid" := IntToString(st.nextPid)])
  {
  }

  /** The call fails exactly when a launch is due and the record lacks its file or uuid;
      a failed call changes nothing. */
  lemma CreateLoopFails(st: State, sid: string, key: string, data: Fields)
    ensures CreateLoop(st, sid, key, data).1.Err? <==> !Archived(data) && ("filename" !in data || "uuid" !in data)
    ensures CreateLoop(st, sid, key, data).1.Err? ==> CreateLoop(st, sid, key, data).0 == st
  {
  }

  /** On a launch, the new pid (the one no earlier launch used) is written both to the
      running set under the record's uuid and to the record's "pid" field; no other
      running-set entry and no other key changes, and the loop now counts as running. */
  lemma {:induction false} SpawnRecordsOnePid(st: State, sid: string, key: string, data: Fields)
    requires StartsWith(key, LoopKeyPrefix(sid))
    requires !Archived(data) && "filename" in data && "uuid" in data
    ensures var (st2, r) := CreateLoop(st, sid, key, data);
      var pid := IntToString(st.nextPid);
      && r == Ok(data["pid" := pid])
      && st2.nextPid == st.nextPid + 1
      && st2.trace == st.trace + [Spawn(data["filename"], data["uuid"], st.nextPid)]
      && HashOf(st2.db, RunningKey(sid)) == HashOf(st.db, RunningKey(sid))[data["uuid"] := pid]
      && HashOf(st2.db, key) == HashOf(st.db, key)["pid" := pid]
      && (forall k :: k != key && k != RunningKey(sid) ==> HashOf(st2.db, k) == HashOf(st.db, k))
      && st2.db.sets == st.db.sets && st2.files == st.files
      && LoopRunning(st2.db, sid, data)
  {
    LoopKeyIsNotRunningKey(sid, key);
    var pid := IntToString(st.nextPid);
    var running := HashOf(st.db, RunningKey(sid));
    assert running + map[data["uuid"] := pid] == running[data["uuid"] := pid];
    assert HashOf(st.db, key) + map["pid" := pid] == HashOf(st.db, key)["pid" := pid];
  }

  /** idempotent_create_loop, acting on the world. */
  method IdempotentCreateLoop(env: Env, sid: string, key: string, data: Fields) returns (r: Result<Fields>)
    modifies env
    ensures (env.Snapshot(), r) == CreateLoop(old(env.Snapshot()), sid, key, data)
  {
    var spawn := true;
    if "status" in data && Contains(data["status"], "archive") {
      spawn := false;
    }
    if !spawn {
      return Ok(data);
    }
    if "filename" !in data || "uuid" !in data {
      return Err("KeyError");
    }
    var pid := env.SpawnLoop(data["filename"], data["uuid"]);
    var pidText := IntToString(pid);
    env.HmSet(RunningKey(sid), map[data["uuid"] := pidText]);
    env.HmSet(key, map["pid" := pidText]);
    r := Ok(data["pid" := pidText]);
  }
}
