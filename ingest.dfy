/** URL ingest: every URL of a set is parsed; a URL with a scheme, a host and a path that
    is not in the server's history is resolved to the file name youtube-dl would give
    it, fetched into the destination directory unless that file exists, and added to
    the history. */
module Ingest {
  import opened Wrappers
  import opened Keys
  import opened World

  /** The three parts of `urlparse(url)` the filter looks at. */
  datatype UrlParts = UrlParts(scheme: string, netloc: string, path: string)

  /** What the outside world gives ingest. */
  datatype IngestTools = IngestTools(
    parse: string -> UrlParts,              // urlparse
    resolveName: string -> Option<string>)  // `youtube-dl --get-filename`; None when it fails

  /** `valid_url.scheme and valid_url.netloc and valid_url.path` */
  predicate Valid(u: UrlParts) {
    u.scheme != "" && u.netloc != "" && u.path != ""
  }

  // ---------------------------------------------------------------------------
  // as written (vizaviz.py lines 270-289)

  /** The loop as the code has it: the parsed object, not the URL text, is tested
      against the history and handed to youtube-dl. A parse result is never equal to a
      history entry, which is text, so the membership test never holds; and subprocess
      refuses an argument that is not text, raising TypeError before anything is
      fetched or recorded. Invalid URLs are only printed. */
  function IngestAsWritten(st: State, urls: seq<string>, tools: IngestTools): (State, Result<()>)
    decreases |urls|
  {
    if urls == [] then (st, Ok(()))
    else if Valid(tools.parse(urls[0])) then (st, Err("TypeError"))
    else IngestAsWritten(st, urls[1..], tools)
  }

  /** As written, ingest never fetches and never records anything: it fails exactly when
      some URL is valid, always with TypeError, and leaves the world as it was either
      way. */
  lemma {:induction false} AsWrittenIngestsNothing(st: State, urls: seq<string>, tools: IngestTools)
    ensures IngestAsWritten(st, urls, tools).0 == st
    ensures IngestAsWritten(st, urls, tools).1.Err? <==> exists i :: 0 <= i < |urls| && Valid(tools.parse(urls[i]))
    ensures IngestAsWritten(st, urls, tools).1 in {Ok(()), Err("TypeError")}
    decreases |urls|
  {
    if urls != [] && !Valid(tools.parse(urls[0])) {
      AsWrittenIngestsNothing(st, urls[1..], tools);
      if exists i :: 0 <= i < |urls[1..]| && Valid(tools.parse(urls[1..][i])) {
        var i :| 0 <= i < |urls[1..]| && Valid(tools.parse(urls[1..][i]));
        assert urls[i + 1] == urls[1..][i];
      }
      if exists i :: 0 <= i < |urls| && Valid(tools.parse(urls[i])) {
        var i :| 0 <= i < |urls| && Valid(tools.parse(urls[i]));
        assert i > 0 && urls[1..][i - 1] == urls[i];
      }
    }
  }

  // ---------------------------------------------------------------------------
  // as intended

  /** One URL, against the history snapshot `history` read once before the loop. */
  function IngestOne(st: State, sid: string, history: set<string>, url: string, dest: string, tools: IngestTools): (State, Result<()>) {
    if !Valid(tools.parse(url)) || url in history then (st, Ok(()))
    else match tools.resolveName(url)
      case None => (st, Err("CalledProcessError"))
      case Some(name) =>
        var fetched := if Path(dest, name) in st.files then st else Emit(st, Fetch(url, dest));
        (fetched.(db := WithMember(fetched.db, HistoryKey(sid), url)), Ok(()))
  }

  function IngestAll(st: State, sid: string, history: set<string>, urls: seq<string>, dest: string, tools: IngestTools): (State, Result<()>)
    decreases |urls|
  {
    if urls == [] then (st, Ok(()))
    else
      var (st1, r) := IngestOne(st, sid, history, urls[0], dest, tools);
      if r.Err? then (st1, r) else IngestAll(st1, sid, history, urls[1..], dest, tools)
  }

  /** ingest with the URL text used where the code uses the parsed object. */
  function IngestUrls(st: State, sid: string, urls: seq<string>, dest: string, tools: IngestTools): (State, Result<()>) {
    IngestAll(st, sid, MembersOf(st.db, HistoryKey(sid)), urls, dest, tools)
  }

  /** Whether ingest adds `url` to the history: valid, not in the snapshot, and its file
      name resolves. */
  predicate Admitted(history: set<string>, url: string, tools: IngestTools) {
    Valid(tools.parse(url)) && url !in history && tools.resolveName(url).Some?
  }

  /** The effect of one URL: only the history set and the trace can change; an invalid
      URL or one in the snapshot changes nothing; an admitted one joins the history, and
      a fetch is issued exactly when its file is absent. */
  lemma IngestOneEffect(st: State, sid: string, history: set<string>, url: string, dest: string, tools: IngestTools)
    ensures var (st1, r) := IngestOne(st, sid, history, url, dest, tools);
      && st1.files == st.files && st1.db.hashes == st.db.hashes && st1.nextPid == st.nextPid
      && (forall k :: k != HistoryKey(sid) ==> MembersOf(st1.db, k) == MembersOf(st.db, k))
      && (!Valid(tools.parse(url)) || url in history ==> st1 == st && r.Ok?)
      && (r.Err? <==> Valid(tools.parse(url)) && url !in history && tools.resolveName(url).None?)
      && (r.Err? ==> st1 == st)
      && (Admitted(history, url, tools) ==>
            && MembersOf(st1.db, HistoryKey(sid)) == MembersOf(st.db, HistoryKey(sid)) + {url}
            && st1.trace == st.trace + (if Path(dest, tools.resolveName(url).value) in st.files then [] else [Fetch(url, dest)]))
  {
  }

  /** Whether a fetch of `url` into `dest` is due: admitted, and its file absent. */
  predicate FetchDue(st: State, history: set<string>, url: string, dest: string, tools: IngestTools) {
    Admitted(history, url, tools) && Path(dest, tools.resolveName(url).value) !in st.files
  }

  /** The whole loop: only the history set and the trace change, and the trace grows
      only by fetches into `dest` that were due. */
  lemma {:induction false} IngestAllFrame(st: State, sid: string, history: set<string>, urls: seq<string>, dest: string, tools: IngestTools)
    ensures var st2 := IngestAll(st, sid, history, urls, dest, tools).0;
      && st2.files == st.files && st2.db.hashes == st.db.hashes && st2.nextPid == st.nextPid
      && (forall k :: k != HistoryKey(sid) ==> MembersOf(st2.db, k) == MembersOf(st.db, k))
      && |st.trace| <= |st2.trace| && st2.trace[..|st.trace|] == st.trace
      && (forall e :: e in st2.trace[|st.trace|..] ==> e.Fetch? && e.dir == dest && FetchDue(st, history, e.url, dest, tools))
    decreases |urls|
  {
    if urls != [] {
      IngestOneEffect(st, sid, history, urls[0], dest, tools);
      var (st1, r1) := IngestOne(st, sid, history, urls[0], dest, tools);
      if r1.Ok? {
        IngestAllFrame(st1, sid, history, urls[1..], dest, tools);
        var st2 := IngestAll(st1, sid, history, urls[1..], dest, tools).0;
        assert st2.trace[|st.trace|..] == st1.trace[|st.trace|..] + st2.trace[|st1.trace|..];
        assert forall e :: e in st1.trace[|st.trace|..] ==> e == Fetch(urls[0], dest) && FetchDue(st, history, urls[0], dest, tools);
        assert forall u :: FetchDue(st1, history, u, dest, tools) <==> FetchDue(st, history, u, dest, tools);
      }
    }
  }

  /** The URLs of a listing ingest admits. */
  function AdmittedUrls(history: set<string>, urls: seq<string>, tools: IngestTools): set<string> {
    set i | 0 <= i < |urls| && Admitted(history, urls[i], tools) :: urls[i]
  }

  lemma AdmittedUrlsStep(history: set<string>, urls: seq<string>, tools: IngestTools)
    requires urls != []
    ensures AdmittedUrls(history, urls, tools) ==
      (if Admitted(history, urls[0], tools) then {urls[0]} else {}) + AdmittedUrls(history, urls[1..], tools)
  {
    var head := if Admitted(history, urls[0], tools) then {urls[0]} else {};
    forall u | u in AdmittedUrls(history, urls, tools) ensures u in head + AdmittedUrls(history, urls[1..], tools) {
      var i :| 0 <= i < |urls| && Admitted(history, urls[i], tools) && urls[i] == u;
      if i > 0 { assert urls[1..][i - 1] == u; }
    }
    forall u | u in AdmittedUrls(history, urls[1..], tools) ensures u in AdmittedUrls(history, urls, tools) {
      var i :| 0 <= i < |urls[1..]| && Admitted(history, urls[1..][i], tools) && urls[1..][i] == u;
      assert urls[i + 1] == u;
    }
  }

  /** After a successful pass the history has gained exactly the admitted URLs. */
  lemma {:induction false} IngestAllHistory(st: State, sid: string, history: set<string>, urls: seq<string>, dest: string, tools: IngestTools)
    requires IngestAll(st, sid, history, urls, dest, tools).1.Ok?
    ensures MembersOf(IngestAll(st, sid, history, urls, dest, tools).0.db, HistoryKey(sid)) ==
      MembersOf(st.db, HistoryKey(sid)) + AdmittedUrls(history, urls, tools)
    decreases |urls|
  {
    if urls != [] {
      IngestOneEffect(st, sid, history, urls[0], dest, tools);
      var st1 := IngestOne(st, sid, history, urls[0], dest, tools).0;
      IngestAllHistory(st1, sid, history, urls[1..], dest, tools);
      AdmittedUrlsStep(history, urls, tools);
    }
  }

  /** After a successful pass a fetch was issued for every URL for which one was due. */
  lemma {:induction false} IngestAllFetches(st: State, sid: string, history: set<string>, urls: seq<string>, dest: string, tools: IngestTools, i: nat)
    requires IngestAll(st, sid, history, urls, dest, tools).1.Ok?
    requires i < |urls| && FetchDue(st, history, urls[i], dest, tools)
    ensures var st2 := IngestAll(st, sid, history, urls, dest, tools).0;
      |st.trace| <= |st2.trace| && Fetch(urls[i], dest) in st2.trace[|st.trace|..]
    decreases |urls|
  {
    IngestOneEffect(st, sid, history, urls[0], dest, tools);
    var st1 := IngestOne(st, sid, history, urls[0], dest, tools).0;
    var st2 := IngestAll(st1, sid, history, urls[1..], dest, tools).0;
    IngestAllFrame(st1, sid, history, urls[1..], dest, tools);
    assert st2.trace[|st.trace|..] == st1.trace[|st.trace|..] + st2.trace[|st1.trace|..];
    if i == 0 {
      assert st1.trace[|st.trace|..] == [Fetch(urls[0], dest)];
    } else {
      assert urls[1..][i - 1] == urls[i];
      assert FetchDue(st1, history, urls[i], dest, tools);
      IngestAllFetches(st1, sid, history, urls[1..], dest, tools, i - 1);
    }
  }

  /** The fix changes what the as-written code does for every valid URL outside the
      history: as written nothing is recorded and the call fails; as intended the URL
      joins the history. */
  lemma IngestFinding(st: State, sid: string, url: string, dest: string, tools: IngestTools)
    requires Valid(tools.parse(url)) && url !in MembersOf(st.db, HistoryKey(sid)) && tools.resolveName(url).Some?
    ensures IngestAsWritten(st, [url], tools) == (st, Err("TypeError"))
    ensures url !in MembersOf(IngestAsWritten(st, [url], tools).0.db, HistoryKey(sid))
    ensures IngestUrls(st, sid, [url], dest, tools).1 == Ok(())
    ensures url in MembersOf(IngestUrls(st, sid, [url], dest, tools).0.db, HistoryKey(sid))
  {
    var history := MembersOf(st.db, HistoryKey(sid));
    assert [url][0] == url && [url][1..] == [];
    IngestOneEffect(st, sid, history, url, dest, tools);
    var st1 := IngestOne(st, sid, history, url, dest, tools).0;
    assert IngestAll(st1, sid, history, [], dest, tools) == (st1, Ok(()));
    assert IngestAll(st, sid, history, [url], dest, tools) == (st1, Ok(()));
  }

  // ---------------------------------------------------------------------------
  // acting on the world

  /** ingest as intended, acting on the world. */
  method IngestLoop(env: Env, sid: string, urls: seq<string>, dest: string, tools: IngestTools) returns (r: Result<()>)
    modifies env
    ensures (env.Snapshot(), r) == IngestUrls(old(env.Snapshot()), sid, urls, dest, tools)
  {
    var alreadyIngested := env.SMembers(HistoryKey(sid));
    var i := 0;
    assert urls[0..] == urls;
    while i < |urls|
      invariant 0 <= i <= |urls|
      invariant IngestUrls(old(env.Snapshot()), sid, urls, dest, tools) == IngestAll(env.Snapshot(), sid, alreadyIngested, urls[i..], dest, tools)
    {
      var url := urls[i];
      assert urls[i..][0] == url && urls[i..][1..] == urls[i + 1..];
      var parsed := tools.parse(url);
      if parsed.scheme != "" && parsed.netloc != "" && parsed.path != "" {
        if url !in alreadyIngested {
          var name := tools.resolveName(url);
          if name.None? {
            return Err("CalledProcessError");
          }
          var present := env.IsFile(Path(dest, name.value));
          if !present {
            env.Issue(Fetch(url, dest));
          }
          env.SAdd(HistoryKey(sid), url);
        }
      }
      i := i + 1;
    }
    assert urls[i..] == [];
    r := Ok(());
  }
}
