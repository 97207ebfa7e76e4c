/** One step of handle_key_events: a keyspace notification is dispatched (an `sadd` on an
    ingest key ingests its URLs; a `del` of a loop key terminates that loop's player),
    and a reconciliation pass follows; without a message, a stop request ends the
    handler. */
module Events {
  import opened Wrappers
  import opened Strings
  import opened Keys
  import opened World
  import opened Supervisor
  import opened Reconcile
  import opened Ingest

  /** A keyspace notification: the channel names the key, the data the command. */
  datatype Message = Message(channel: string, data: string)

  /** What the handler consults outside the store. */
  datatype EventTools = EventTools(
    host: Host,                          // for the reconciliation pass
    ingest: IngestTools,
    members: set<string> -> seq<string>, // the order in which SMEMBERS returns a set
    scan: Db -> seq<string>,             // the loop keys scan_iter yields, in its order
    dest: string)                        // VIZAVIZ_SERVER_DIRS[0]

  /** How the step ends: the loop goes on, breaks on a stop request, or an exception
      leaves the handler. */
  datatype StepResult = Continue | Stop | Failed(error: string)

  /** The `del` branch (lines 430-439): the fifth colon field of the channel is the
      uuid, whose pid is read from the running set and terminated. The channel needs
      five fields (IndexError); an absent entry is `int(None)` (TypeError), a non-integer
      one ValueError, and a vanished process NoSuchProcess. The running-set entry is left
      in place. */
  function DeleteLoop(st: State, sid: string, channel: string, status: int -> ProcStatus): (State, Result<()>) {
    var parts := Split(channel, ':');
    if |parts| < 5 then (st, Err("IndexError"))
    else match FieldOf(st.db, RunningKey(sid), parts[4])
      case None => (st, Err("TypeError"))
      case Some(text) =>
        match ParseInt(text)
        case None => (st, Err("ValueError"))
        case Some(pid) =>
          if status(pid) == Gone then (st, Err("NoSuchProcess")) else (Emit(st, Terminate(pid)), Ok(()))
  }

  /** Whether a message asks for an ingest: an `sadd` on a channel naming an ingest key. */
  predicate IsIngest(m: Message) {
    m.data == "sadd" && Contains(m.channel, "ingest")
  }

  /** Whether a message reports a deleted loop key. */
  predicate IsLoopDelete(m: Message) {
    m.data == "del" && Contains(m.channel, "loop")
  }

  /** The `sadd` branch (lines 421-429): the URLs of the key the channel names. */
  function IngestKeyUrls(st: State, sid: string, m: Message, tools: EventTools): (State, Result<()>) {
    var key := ReplaceAll(m.channel, KeyspacePrefix, "");
    IngestUrls(st, sid, tools.members(MembersOf(st.db, key)), tools.dest, tools.ingest)
  }

  /** What follows the `sadd` branch: the `del` branch, then get_state. */
  function AfterIngest(st: State, sid: string, m: Message, tools: EventTools): (State, StepResult) {
    var (st2, r2) := if IsLoopDelete(m) then DeleteLoop(st, sid, m.channel, tools.host.status) else (st, Ok(()));
    if r2.Err? then (st2, Failed(r2.error))
    else
      var (st3, ok) := Pass(st2, sid, tools.scan(st2.db), tools.host);
      (st3, if ok then Continue else Failed("get_state"))
  }

  /** One message, then get_state, with ingest as intended. */
  function HandleMessage(st: State, sid: string, m: Message, tools: EventTools): (State, StepResult) {
    var (st1, r1) := if IsIngest(m) then IngestKeyUrls(st, sid, m, tools) else (st, Ok(()));
    if r1.Err? then (st1, Failed(r1.error)) else AfterIngest(st1, sid, m, tools)
  }

  /** The `sadd` branch as the code is written, with ingest raising TypeError at the
      first valid URL. */
  function IngestKeyUrlsAsWritten(st: State, m: Message, tools: EventTools): (State, Result<()>) {
    var key := ReplaceAll(m.channel, KeyspacePrefix, "");
    IngestAsWritten(st, tools.members(MembersOf(st.db, key)), tools.ingest)
  }

  /** One message, then get_state, as the code is written. */
  function HandleMessageAsWritten(st: State, sid: string, m: Message, tools: EventTools): (State, StepResult) {
    var (st1, r1) := if IsIngest(m) then IngestKeyUrlsAsWritten(st, m, tools) else (st, Ok(()));
    if r1.Err? then (st1, Failed(r1.error)) else AfterIngest(st1, sid, m, tools)
  }

  /** As written, an ingest notification for a set holding a valid URL ends
      handle_key_events with TypeError: nothing is fetched or recorded and get_state
      does not run. Only sets without a valid URL reach the pass, unchanged. */
  lemma IngestEventAsWritten(st: State, sid: string, m: Message, tools: EventTools)
    requires IsIngest(m)
    ensures var urls := tools.members(MembersOf(st.db, ReplaceAll(m.channel, KeyspacePrefix, "")));
      && ((exists i :: 0 <= i < |urls| && Valid(tools.ingest.parse(urls[i]))) ==>
            HandleMessageAsWritten(st, sid, m, tools) == (st, Failed("TypeError")))
      && ((forall i :: 0 <= i < |urls| ==> !Valid(tools.ingest.parse(urls[i]))) ==>
            HandleMessageAsWritten(st, sid, m, tools) == AfterIngest(st, sid, m, tools))
  {
    var urls := tools.members(MembersOf(st.db, ReplaceAll(m.channel, KeyspacePrefix, "")));
    AsWrittenIngestsNothing(st, urls, tools.ingest);
  }

  /** One turn of the handler's loop: a message is handled; without one, a queued stop
      request ends the loop (any queued item does) and otherwise the handler sleeps. */
  function HandleStep(st: State, sid: string, message: Option<Message>, stopQueued: bool, tools: EventTools): (State, StepResult) {
    match message
    case Some(m) => HandleMessage(st, sid, m, tools)
    case None => (st, if stopQueued then Stop else Continue)
  }

  /** Deleting `vizaviz:<g>:loop:<uuid>` terminates the pid the running set of the
      server has for the uuid, and leaves that entry in place; nothing else changes. */
  lemma DeleteTerminatesRecordedPid(st: State, sid: string, g: string, uuid: string, pid: int, status: int -> ProcStatus)
    requires ':' !in g && ':' !in uuid
    requires FieldOf(st.db, RunningKey(sid), uuid) == Some(IntToString(pid)) && status(pid) != Gone
    ensures DeleteLoop(st, sid, KeyspaceChannel(LoopKey(g, uuid)), status) == (Emit(st, Terminate(pid)), Ok(()))
    ensures FieldOf(DeleteLoop(st, sid, KeyspaceChannel(LoopKey(g, uuid)), status).0.db, RunningKey(sid), uuid) == Some(IntToString(pid))
  {
    LoopChannelField(g, uuid);
    ParseIntOfString(pid);
  }

  /** A delete for a uuid the running set does not know, or whose process is gone, is
      an error, not a no-op; a failed delete changes nothing. */
  lemma DeleteFailures(st: State, sid: string, g: string, uuid: string, status: int -> ProcStatus)
    requires ':' !in g && ':' !in uuid
    ensures var (st2, r) := DeleteLoop(st, sid, KeyspaceChannel(LoopKey(g, uuid)), status);
      && (FieldOf(st.db, RunningKey(sid), uuid).None? ==> r == Err("TypeError"))
      && (forall pid :: FieldOf(st.db, RunningKey(sid), uuid) == Some(IntToString(pid)) && status(pid) == Gone ==> r == Err("NoSuchProcess"))
      && (r.Err? ==> st2 == st)
      && (r.Ok? ==> exists pid :: st2 == Emit(st, Terminate(pid)))
  {
    LoopChannelField(g, uuid);
    forall pid | FieldOf(st.db, RunningKey(sid), uuid) == Some(IntToString(pid)) {
      ParseIntOfString(pid);
    }
  }

  /** A message that is neither an ingest nor a loop delete only triggers the pass. */
  lemma OtherMessagesOnlyReconcile(st: State, sid: string, m: Message, tools: EventTools)
    requires !IsIngest(m) && !IsLoopDelete(m)
    ensures HandleMessage(st, sid, m, tools) ==
      (Pass(st, sid, tools.scan(st.db), tools.host).0, if Pass(st, sid, tools.scan(st.db), tools.host).1 then Continue else Failed("get_state"))
  {
  }

  /** For a loop delete, the player's termination is issued before anything the pass
      issues, and the pass still sees the running-set entry. */
  lemma DeleteComesBeforePass(st: State, sid: string, g: string, uuid: string, pid: int, tools: EventTools)
    requires ':' !in g && ':' !in uuid
    requires FieldOf(st.db, RunningKey(sid), uuid) == Some(IntToString(pid)) && tools.host.status(pid) != Gone
    ensures var m := Message(KeyspaceChannel(LoopKey(g, uuid)), "del");
      var st1 := Emit(st, Terminate(pid));
      && HandleMessage(st, sid, m, tools) ==
           (Pass(st1, sid, tools.scan(st1.db), tools.host).0, if Pass(st1, sid, tools.scan(st1.db), tools.host).1 then Continue else Failed("get_state"))
      && st1.trace == st.trace + [Terminate(pid)]
      && HashOf(st1.db, RunningKey(sid)) == HashOf(st.db, RunningKey(sid))
  {
    var m := Message(KeyspaceChannel(LoopKey(g, uuid)), "del");
    assert IsLoopDelete(m) by {
      var ch := KeyspaceChannel(LoopKey(g, uuid));
      var at := |KeyspacePrefix| + |"vizaviz:" + g + ":"|;
      assert ch[at..at + 4] == "loop";
      ContainsAt(ch, "loop", at);
    }
    assert !IsIngest(m);
    DeleteTerminatesRecordedPid(st, sid, g, uuid, pid, tools.host.status);
  }

  // ---------------------------------------------------------------------------
  // acting on the world

  /** The `del` branch, acting on the world. */
  method StopDeletedLoop(env: Env, sid: string, channel: string, status: int -> ProcStatus) returns (r: Result<()>)
    modifies env
    ensures (env.Snapshot(), r) == DeleteLoop(old(env.Snapshot()), sid, channel, status)
  {
    var parts := Split(channel, ':');
    if |parts| < 5 {
      return Err("IndexError");
    }
    var loopId := parts[4];
    var text := env.HGet(RunningKey(sid), loopId);
    if text.None? {
      return Err("TypeError");
    }
    var pid := ParseInt(text.value);
    if pid.None? {
      return Err("ValueError");
    }
    if status(pid.value) == Gone {
      return Err("NoSuchProcess");
    }
    env.Issue(Terminate(pid.value));
    r := Ok(());
  }

  /** One turn of handle_key_events, acting on the world. */
  method HandleKeyEvent(env: Env, sid: string, message: Option<Message>, stopQueued: bool, tools: EventTools) returns (r: StepResult)
    modifies env
    ensures (env.Snapshot(), r) == HandleStep(old(env.Snapshot()), sid, message, stopQueued, tools)
  {
    if message.None? {
      return if stopQueued then Stop else Continue;
    }
    var m := message.value;
    if m.data == "sadd" && Contains(m.channel, "ingest") {
      var key := ReplaceAll(m.channel, KeyspacePrefix, "");
      var urls := env.SMembers(key);
      var ingested := IngestLoop(env, sid, tools.members(urls), tools.dest, tools.ingest);
      if ingested.Err? {
        return Failed(ingested.error);
      }
    }
    if m.data == "del" && Contains(m.channel, "loop") {
      var stopped := StopDeletedLoop(env, sid, m.channel, tools.host.status);
      if stopped.Err? {
        return Failed(stopped.error);
      }
    }
    var keys := tools.scan(env.db);
    var ok := GetState(env, sid, keys, tools.host);
    r := if ok then Continue else Failed("get_state");
  }
}
