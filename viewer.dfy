/** The GUI application (VzzGuiApp, vizaviz_gui.py lines 513-929): the catalogue of
    sources, tab and map browsing, the key dispatch to the app's own actions, and new
    loop records; with the end sentinel of a drag on a source image (lines 942-987). */
module Viewer {
  import opened Wrappers
  import opened Strings
  import opened Sorting
  import opened Keys
  import opened World
  import opened Ipc
  import opened Reconcile
  import opened SourceCatalog
  import opened Dispatch

  // ---------------------------------------------------------------------------
  // tabs (lines 820-839)

  /** The first position of `x` in `s`. */
  function IndexOf(s: seq<string>, x: string): (r: Option<nat>)
    ensures r.None? <==> x !in s
    ensures r.Some? ==> r.value < |s| && s[r.value] == x && x !in s[..r.value]
  {
    if s == [] then None
    else if s[0] == x then Some(0)
    else
      match IndexOf(s[1..], x)
      case None => None
      case Some(i) =>
        assert s[..i + 1] == [s[0]] + s[1..][..i];
        Some(i + 1)
  }

  /** tab_next: the tab before the first one equal to the current tab, the last tab
      before the first; a current tab not in the list stays. */
  function NextTab(tabs: seq<string>, current: string): string {
    match IndexOf(tabs, current)
    case None => current
    case Some(i) => if i > 0 then tabs[i - 1] else tabs[|tabs| - 1]
  }

  /** tab_previous: the tab after it; past the end, the IndexError handler switches to
      the first tab. */
  function PreviousTab(tabs: seq<string>, current: string): string {
    match IndexOf(tabs, current)
    case None => current
    case Some(i) => if i + 1 < |tabs| then tabs[i + 1] else tabs[0]
  }

  /** From the tab at index i of n, tab_next shows index (i - 1) mod n and
      tab_previous index (i + 1) mod n. */
  lemma TabCycle(tabs: seq<string>, current: string)
    ensures IndexOf(tabs, current).None? ==> NextTab(tabs, current) == current && PreviousTab(tabs, current) == current
    ensures IndexOf(tabs, current).Some? ==>
      var i := IndexOf(tabs, current).value;
      NextTab(tabs, current) == tabs[(i - 1) % |tabs|] && PreviousTab(tabs, current) == tabs[(i + 1) % |tabs|]
  {
    if IndexOf(tabs, current).Some? {
      Neighbours(IndexOf(tabs, current).value, |tabs|);
    }
  }

  lemma Neighbours(i: int, n: int)
    requires 0 <= i < n
    ensures (i - 1) % n == if i > 0 then i - 1 else n - 1
    ensures (i + 1) % n == if i + 1 < n then i + 1 else 0
  {
    if i == 0 {
      assert -1 == -1 * n + (n - 1);
    }
  }

  lemma IndexOfDistinct(s: seq<string>, j: nat)
    requires NoDuplicates(s) && j < |s|
    ensures IndexOf(s, s[j]) == Some(j)
  {
  }

  /** With distinct tabs, tab_next and tab_previous undo each other. */
  lemma TabsUndo(tabs: seq<string>, current: string)
    requires NoDuplicates(tabs) && current in tabs
    ensures PreviousTab(tabs, NextTab(tabs, current)) == current
    ensures NextTab(tabs, PreviousTab(tabs, current)) == current
  {
    var i := IndexOf(tabs, current).value;
    var n := |tabs|;
    var p := if i > 0 then i - 1 else n - 1;
    var q := if i + 1 < n then i + 1 else 0;
    IndexOfDistinct(tabs, p);
    IndexOfDistinct(tabs, q);
  }

  // ---------------------------------------------------------------------------
  // map browsing (lines 841-862)

  /** `sorted(self.map_index.keys())` */
  function SortedIndex(index: seq<(string, string)>): (r: seq<(string, string)>)
    ensures |r| == |index|
  {
    Sort(index, PairLe)
  }

  /** The `try` of lines 848-852: the map at the position in sorted order, or no map
      and no position when the position is past the end. */
  function Show(index: seq<(string, string)>, p: nat): (Option<(string, string)>, Option<nat>) {
    var sorted := SortedIndex(index);
    if p < |sorted| then (Some(sorted[p]), Some(p)) else (None, None)
  }

  /** map_next as written: line 847 reads `=+1`, which assigns +1. */
  function NextMapAsWritten(index: seq<(string, string)>, position: Option<nat>): (Option<(string, string)>, Option<nat>) {
    Show(index, if position.None? then 0 else 1)
  }

  /** map_next as intended: one map further. */
  function NextMap(index: seq<(string, string)>, position: Option<nat>): (Option<(string, string)>, Option<nat>) {
    Show(index, if position.None? then 0 else position.value + 1)
  }

  /** The map and position after `n` presses from the start. */
  function PressesAsWritten(index: seq<(string, string)>, n: nat): (Option<(string, string)>, Option<nat>) {
    if n == 0 then (None, None) else NextMapAsWritten(index, PressesAsWritten(index, n - 1).1)
  }

  function Presses(index: seq<(string, string)>, n: nat): (Option<(string, string)>, Option<nat>) {
    if n == 0 then (None, None) else NextMap(index, Presses(index, n - 1).1)
  }

  /** As written, with two maps or more, every press from the second on shows the second
      map in sorted order again: a third map is never reached. */
  lemma {:induction false} MapNextAsWrittenStalls(index: seq<(string, string)>, n: nat)
    requires |index| >= 2 && n >= 2
    ensures PressesAsWritten(index, n) == (Some(SortedIndex(index)[1]), Some(1))
  {
    if n == 2 {
      assert PressesAsWritten(index, 1) == (Some(SortedIndex(index)[0]), Some(0));
    } else {
      MapNextAsWrittenStalls(index, n - 1);
    }
  }

  /** As intended, the presses show every map in sorted order, then no map, and then
      start over. */
  lemma {:induction false} MapNextVisitsAll(index: seq<(string, string)>, k: nat)
    requires k <= |index|
    ensures k < |index| ==> Presses(index, k + 1) == (Some(SortedIndex(index)[k]), Some(k))
    ensures k == |index| ==> Presses(index, k + 1) == (None, None) && Presses(index, k + 2) == Presses(index, 1)
  {
    if k > 0 {
      MapNextVisitsAll(index, k - 1);
    }
  }

  // ---------------------------------------------------------------------------
  // the key dispatch (lines 864-906)

  /** The part of the app the keyboard changes. */
  datatype View = View(currentTab: string, activeMap: Option<(string, string)>, position: Option<nat>)

  /** `getattr(self, name)()` on the app: tab_next, tab_previous and map_next are the
      app's own browsing actions. Any other name is no method of the app (the handler
      swallows the AttributeError), or app_exit. */
  function Act(v: View, name: string, tabs: seq<string>, index: seq<(string, string)>): View {
    if name == "tab_next" then v.(currentTab := NextTab(tabs, v.currentTab))
    else if name == "tab_previous" then v.(currentTab := PreviousTab(tabs, v.currentTab))
    else if name == "map_next" then
      var (m, p) := NextMap(index, v.position);
      v.(activeMap := m, position := p)
    else v
  }

  /** The triggered actions, one after the other. */
  function ActAll(v: View, names: seq<string>, tabs: seq<string>, index: seq<(string, string)>): View {
    if names == [] then v
    else Act(ActAll(v, names[..|names| - 1], tabs, index), names[|names| - 1], tabs, index)
  }

  lemma ActAllSnoc(v: View, names: seq<string>, name: string, tabs: seq<string>, index: seq<(string, string)>)
    ensures ActAll(v, names + [name], tabs, index) == Act(ActAll(v, names, tabs, index), name, tabs, index)
  {
    assert (names + [name])[..|names|] == names;
  }

  /** _on_keyboard_down: the "app" group, then the group of the tab shown when the key
      went down. A tab without a group in the table raises KeyError once the app group
      has run. */
  function KeyDown(v: View, tabs: seq<string>, index: seq<(string, string)>, actions: map<string, Group>, key: string, pressed: seq<string>)
    : (View, Result<()>)
  {
    if "app" !in actions then (v, Err("KeyError"))
    else
      var v1 := ActAll(v, Fired(actions["app"], key, pressed), tabs, index);
      if v.currentTab !in actions then (v1, Err("KeyError"))
      else (ActAll(v1, Fired(actions[v.currentTab], key, pressed), tabs, index), Ok(()))
  }

  /** On the maps tab, Ctrl+Left moves from the tab at index i to the one at
      (i - 1) mod n, and leaves the map selection alone. */
  lemma CtrlLeftOnMapsTab(v: View, tabs: seq<string>, index: seq<(string, string)>, actions: map<string, Group>)
    requires "app" in actions && actions["app"] == AppBindings
    requires v.currentTab in actions && actions[v.currentTab] == MapsBindings
    requires v.currentTab in tabs
    ensures var (v2, r) := KeyDown(v, tabs, index, actions, "left", ["ctrl"]);
      && r == Ok(())
      && v2 == v.(currentTab := tabs[(IndexOf(tabs, v.currentTab).value - 1) % |tabs|])
  {
    CtrlLeftKeys();
    TabCycle(tabs, v.currentTab);
    assert ActAll(v, ["tab_next"], tabs, index) == Act(v, "tab_next", tabs, index) by {
      assert ["tab_next"][..0] == [];
    }
  }

  /** On the maps tab, Tab alone asks for the next map and changes no tab. */
  lemma TabOnMapsTab(v: View, tabs: seq<string>, index: seq<(string, string)>, actions: map<string, Group>)
    requires "app" in actions && actions["app"] == AppBindings
    requires v.currentTab in actions && actions[v.currentTab] == MapsBindings
    ensures var (v2, r) := KeyDown(v, tabs, index, actions, "tab", []);
      && r == Ok(())
      && v2 == v.(activeMap := NextMap(index, v.position).0, position := NextMap(index, v.position).1)
  {
    TabKeys();
    assert ActAll(v, ["map_next"], tabs, index) == Act(v, "map_next", tabs, index) by {
      assert ["map_next"][..0] == [];
    }
  }

  // ---------------------------------------------------------------------------
  // new loop records

  /** on_touch_up: a drag that ends in the row (horizontal rendering) or column
      (vertical rendering) it started in gives the end -1. */
  function DragEnd(startCell: int, endCell: int): int {
    if endCell == startCell then -1 else endCell
  }

  /** The record create_loop writes (lines 913-922): redis stores the numbers as their
      text, and the filehash is written only when one is given and not empty. */
  function LoopRecord(uuid: string, filename: string, start: int, end: int, status: string, filehash: Option<string>): Fields {
    var base := map["uuid" := uuid, "filename" := filename, "status" := status,
                    "start" := IntToString(start), "end" := IntToString(end)];
    if filehash.Some? && filehash.value != "" then base["filehash" := filehash.value] else base
  }

  /** `focus:<name>`, the trace key of this GUI. */
  function FocusKey(focusName: string): string {
    "focus:" + focusName
  }

  /** create_loop: the loop record under the GUI's server id and the focus trace
      (its 30 second expiry is not modelled). */
  function CreatedLoop(st: State, uuid: string, focusName: string, filename: string, start: int, end: int, status: string, filehash: Option<string>): State {
    var st1 := Store(st, LoopKey(GuiServer, uuid), LoopRecord(uuid, filename, start, end, status, filehash));
    Store(st1, FocusKey(focusName), map["filename" := filename, "start" := IntToString(start), "end" := IntToString(end)])
  }

  /** For a fresh uuid the new record is exactly the given fields, with the filehash
      only when given, and start and end read back as the numbers given; only the loop
      key and the focus key change. */
  lemma NewLoopRecord(st: State, uuid: string, focusName: string, filename: string, start: int, end: int, status: string, filehash: Option<string>)
    requires HashOf(st.db, LoopKey(GuiServer, uuid)) == map[]
    ensures var st2 := CreatedLoop(st, uuid, focusName, filename, start, end, status, filehash);
      var rec := HashOf(st2.db, LoopKey(GuiServer, uuid));
      && rec == LoopRecord(uuid, filename, start, end, status, filehash)
      && rec.Keys == {"uuid", "filename", "status", "start", "end"} + (if filehash.Some? && filehash.value != "" then {"filehash"} else {})
      && rec["uuid"] == uuid && rec["status"] == status
      && StoredNumber(rec, "start") == Some(start as real) && StoredNumber(rec, "end") == Some(end as real)
      && (forall k :: k != LoopKey(GuiServer, uuid) && k != FocusKey(focusName) ==> HashOf(st2.db, k) == HashOf(st.db, k))
      && st2.trace == st.trace && st2.files == st.files
  {
    var key := LoopKey(GuiServer, uuid);
    var rec := LoopRecord(uuid, filename, start, end, status, filehash);
    assert FocusKey(focusName)[0] == 'f' && key[0] == 'v';
    assert map[] + rec == rec;
    LoopRecordFields(uuid, filename, start, end, status, filehash);
  }

  lemma LoopRecordFields(uuid: string, filename: string, start: int, end: int, status: string, filehash: Option<string>)
    ensures var rec := LoopRecord(uuid, filename, start, end, status, filehash);
      && rec.Keys == {"uuid", "filename", "status", "start", "end"} + (if filehash.Some? && filehash.value != "" then {"filehash"} else {})
      && rec["uuid"] == uuid && rec["status"] == status
      && StoredNumber(rec, "start") == Some(start as real) && StoredNumber(rec, "end") == Some(end as real)
  {
    var rec := LoopRecord(uuid, filename, start, end, status, filehash);
    assert rec["start"] == IntToString(start) && rec["end"] == IntToString(end);
    ParseFloatOfIntString(start);
    ParseFloatOfIntString(end);
  }

  /** The defaults: status "active", start 0, end -1, no filehash. */
  lemma DefaultLoopRecord(uuid: string, filename: string)
    ensures LoopRecord(uuid, filename, 0, -1, "active", None) ==
      map["uuid" := uuid, "filename" := filename, "status" := "active", "start" := "0", "end" := "-1"]
  {
    assert IntToString(0) == "0";
    assert IntToString(-1) == "-" + NatToString(1) == "-1";
  }

  /** A click, or a drag to a negative cell, records the end -1, and the reconciler
      never sends that end to the player, whatever the player reports. */
  lemma ClickEndIsNeverSent(uuid: string, filename: string, startCell: int, endCell: int, status: string, filehash: Option<string>,
                            ls: Option<Json>, le: Option<Json>, rv: string)
    requires endCell == startCell || endCell < 0
    ensures var rec := LoopRecord(uuid, filename, startCell, DragEnd(startCell, endCell), status, filehash);
      forall c :: c in Corrections(rec, ls, le, rv) ==> !(c.SetProperty? && c.property == LoopEnd)
  {
    var rec := LoopRecord(uuid, filename, startCell, DragEnd(startCell, endCell), status, filehash);
    ParseFloatOfIntString(DragEnd(startCell, endCell));
    assert StoredNumber(rec, "end") == Some(DragEnd(startCell, endCell) as real);
    NegativeEndIsNotSent(rec, ls, le, rv);
  }

  // ---------------------------------------------------------------------------
  // reading a source (lines 555-613)

  /** `hget` of each field name in turn, keeping the ones present. */
  method ReadSource(env: Env, key: string, ks: seq<string>) returns (source: Fields)
    ensures source == Fetched(HashOf(env.db, key), ks)
  {
    source := map[];
    var i := 0;
    while i < |ks|
      invariant 0 <= i <= |ks| && source == Fetched(HashOf(env.db, key), ks[..i])
    {
      FetchedStep(HashOf(env.db, key), ks, i);
      var v := env.HGet(key, ks[i]);
      if v.Some? {
        source := source[ks[i] := v.value];
      }
      i := i + 1;
    }
    assert ks[..i] == ks;
  }

  /** The body of the loop over the fields, for a field that is present. */
  method ReadMapField(maps: map<string, MapEntry>, index: seq<(string, string)>, k: string, v: string)
    returns (maps': map<string, MapEntry>, index': seq<(string, string)>, out: Outcome)
    ensures (maps', index', out) == FieldStep(maps, index, k, v)
  {
    maps', index', out := maps, index, Loaded;
    var parsed := ParseMapField(k);
    match parsed {
      case Err(e) =>
        out := Raised(e);
      case Ok(PlainField) =>
      case Ok(ImageEntry(m, image)) =>
        if m !in maps {
          maps' := maps[m := FromImage(image, v)];
          if (m, image) !in index {
            index' := index + [(m, image)];
          }
        }
      case Ok(ResolutionEntry(m, r)) =>
        var e := if m in maps then maps[m] else FromResolutions(map[]);
        if e.FromImage? {
          out := Skipped;
        } else {
          maps' := maps[m := FromResolutions(e.raws[r := v])];
          var failure := RenderError(Pieces(v), r);
          if failure.Some? {
            out := Raised(failure.value);
          }
        }
    }
  }

  /** The loop over the fields, from a source with no maps yet. */
  method ReadMapFields(index: seq<(string, string)>, source: Fields, ks: seq<string>)
    returns (maps: map<string, MapEntry>, index': seq<(string, string)>, out: Outcome)
    ensures (maps, index', out) == LoadMaps(map[], index, source, ks)
  {
    maps, index', out := map[], index, Loaded;
    var j := 0;
    assert ks[0..] == ks;
    while j < |ks| && out == Loaded
      invariant 0 <= j <= |ks|
      invariant out == Loaded ==> LoadMaps(map[], index, source, ks) == LoadMaps(maps, index', source, ks[j..])
      invariant out != Loaded ==> LoadMaps(map[], index, source, ks) == (maps, index', out)
    {
      assert ks[j..][0] == ks[j] && ks[j..][1..] == ks[j + 1..];
      if ks[j] in source {
        maps, index', out := ReadMapField(maps, index', ks[j], source[ks[j]]);
      }
      j := j + 1;
    }
    if out == Loaded {
      assert ks[j..] == [];
    }
  }

  // ---------------------------------------------------------------------------
  // the app

  class App {
    var sources: map<string, Entry>
    var mapIndex: seq<(string, string)>
    var activeMap: Option<(string, string)>
    var activeMapPosition: Option<nat>
    var tabs: seq<string>
    var currentTab: string
    const focusName: string

    function Cat(): Catalog
      reads this
    {
      Catalog(sources, mapIndex)
    }

    function ViewOf(): View
      reads this
    {
      View(currentTab, activeMap, activeMapPosition)
    }

    /** Lines 514-537, with the tabs build() adds. */
    constructor (tabs: seq<string>, currentTab: string, focusName: string)
      ensures Cat() == Catalog(map[], []) && ViewOf() == View(currentTab, None, None)
      ensures this.tabs == tabs && this.focusName == focusName
    {
      sources := map[];
      mapIndex := [];
      activeMap := None;
      activeMapPosition := None;
      this.tabs := tabs;
      this.currentTab := currentTab;
      this.focusName := focusName;
    }

    method TabNext()
      modifies this
      ensures currentTab == NextTab(old(tabs), old(currentTab))
      ensures tabs == old(tabs) && Cat() == old(Cat())
      ensures activeMap == old(activeMap) && activeMapPosition == old(activeMapPosition)
    {
      var i := 0;
      while i < |tabs|
        invariant 0 <= i <= |tabs| && currentTab !in tabs[..i]
      {
        if tabs[i] == currentTab {
          currentTab := if i > 0 then tabs[i - 1] else tabs[|tabs| - 1];
          return;
        }
        assert tabs[..i + 1] == tabs[..i] + [tabs[i]];
        i := i + 1;
      }
      assert tabs[..i] == tabs;
    }

    method TabPrevious()
      modifies this
      ensures currentTab == PreviousTab(old(tabs), old(currentTab))
      ensures tabs == old(tabs) && Cat() == old(Cat())
      ensures activeMap == old(activeMap) && activeMapPosition == old(activeMapPosition)
    {
      var i := 0;
      while i < |tabs|
        invariant 0 <= i <= |tabs| && currentTab !in tabs[..i]
      {
        if tabs[i] == currentTab {
          currentTab := if i + 1 < |tabs| then tabs[i + 1] else tabs[0];
          return;
        }
        assert tabs[..i + 1] == tabs[..i] + [tabs[i]];
        i := i + 1;
      }
      assert tabs[..i] == tabs;
    }

    method MapNext()
      modifies this
      ensures (activeMap, activeMapPosition) == NextMap(mapIndex, old(activeMapPosition))
      ensures tabs == old(tabs) && currentTab == old(currentTab) && Cat() == old(Cat())
    {
      var p: nat := if activeMapPosition.None? then 0 else activeMapPosition.value + 1;
      var sorted := SortedIndex(mapIndex);
      if p < |sorted| {
        activeMap, activeMapPosition := Some(sorted[p]), Some(p);
      } else {
        activeMap, activeMapPosition := None, None;
      }
    }

    method Perform(name: string)
      modifies this
      ensures ViewOf() == Act(old(ViewOf()), name, tabs, mapIndex)
      ensures tabs == old(tabs) && Cat() == old(Cat())
    {
      if name == "tab_next" {
        TabNext();
      } else if name == "tab_previous" {
        TabPrevious();
      } else if name == "map_next" {
        MapNext();
      }
    }

    /** The loop over one group of the table. */
    method RunGroup(g: Group, key: string, pressed: seq<string>)
      modifies this
      ensures ViewOf() == ActAll(old(ViewOf()), Fired(g, key, pressed), tabs, mapIndex)
      ensures tabs == old(tabs) && Cat() == old(Cat())
    {
      var i := 0;
      while i < |g|
        invariant 0 <= i <= |g|
        invariant tabs == old(tabs) && Cat() == old(Cat())
        invariant ViewOf() == ActAll(old(ViewOf()), Fired(g[..i], key, pressed), tabs, mapIndex)
      {
        var (name, b) := g[i];
        ghost var fired := Fired(g[..i], key, pressed);
        assert g[..i + 1][..i] == g[..i];
        assert Fired(g[..i + 1], key, pressed) == fired + (if Fires(b, key, pressed) then [name] else []);
        if Fires(b, key, pressed) {
          Perform(name);
          ActAllSnoc(old(ViewOf()), fired, name, tabs, mapIndex);
        } else {
          assert fired + [] == fired;
        }
        i := i + 1;
      }
      assert g[..i] == g;
    }

    method OnKeyDown(actions: map<string, Group>, key: string, pressed: seq<string>) returns (r: Result<()>)
      modifies this
      ensures (ViewOf(), r) == KeyDown(old(ViewOf()), tabs, mapIndex, actions, key, pressed)
      ensures tabs == old(tabs) && Cat() == old(Cat())
    {
      var groups := ["app", currentTab];
      if groups[0] !in actions {
        return Err("KeyError");
      }
      RunGroup(actions[groups[0]], key, pressed);
      if groups[1] !in actions {
        return Err("KeyError");
      }
      RunGroup(actions[groups[1]], key, pressed);
      r := Ok(());
    }

    /** One `source:` hash (lines 555-613). */
    method LoadSourceHash(env: Env, key: string, order: Fields -> seq<string>) returns (out: Outcome)
      modifies this
      ensures (Cat(), out) == LoadSource(old(Cat()), HashOf(env.db, key), order(HashOf(env.db, key)))
      ensures ViewOf() == old(ViewOf()) && tabs == old(tabs)
    {
      var fields := env.HGetAll(key);
      var ks := order(fields);
      var source := ReadSource(env, key, ks);
      if "filehash" !in source {
        return Skipped;
      }
      var h := source["filehash"];
      if "filename" !in source {
        sources := sources[h := Entry(map[], None)];
        return Skipped;
      }
      if "duration" !in source {
        sources := sources[h := Entry(map["filename" := source["filename"], "filehash" := h], None)];
        return Skipped;
      }
      var info := map["filename" := source["filename"], "filehash" := h, "duration" := source["duration"]];
      var maps;
      maps, mapIndex, out := ReadMapFields(mapIndex, source, ks);
      sources := sources[h := Entry(info, Some(maps))];
    }

    /** update_sources: every source hash the scan yields, in its order; a ValueError
        ends the method. */
    method UpdateSources(env: Env, scan: Db -> seq<string>, order: Fields -> seq<string>) returns (r: Result<()>)
      modifies this
      ensures (Cat(), r) == SourceCatalog.UpdateSources(old(Cat()), env.db, scan(env.db), order)
      ensures ViewOf() == old(ViewOf()) && tabs == old(tabs)
    {
      var keys := scan(env.db);
      var i := 0;
      assert keys[0..] == keys;
      while i < |keys|
        invariant 0 <= i <= |keys|
        invariant SourceCatalog.UpdateSources(old(Cat()), env.db, keys, order) == SourceCatalog.UpdateSources(Cat(), env.db, keys[i..], order)
        invariant ViewOf() == old(ViewOf()) && tabs == old(tabs)
      {
        assert keys[i..][0] == keys[i] && keys[i..][1..] == keys[i + 1..];
        var out := LoadSourceHash(env, keys[i], order);
        if out.Raised? {
          return Err(out.error);
        }
        i := i + 1;
      }
      r := Ok(());
    }

    /** create_loop, with the fresh uuid `uuid4` would give. */
    method CreateLoop(env: Env, uuid: string, filename: string, start: int, end: int, status: string, filehash: Option<string>)
      modifies env
      ensures env.Snapshot() == CreatedLoop(old(env.Snapshot()), uuid, focusName, filename, start, end, status, filehash)
    {
      var loop: Fields := map[];
      loop := loop["uuid" := uuid];
      loop := loop["filename" := filename];
      loop := loop["status" := status];
      loop := loop["start" := IntToString(start)];
      loop := loop["end" := IntToString(end)];
      if filehash.Some? && filehash.value != "" {
        loop := loop["filehash" := filehash.value];
      }
      env.HmSet(LoopKey(GuiServer, loop["uuid"]), loop);
      env.HmSet(FocusKey(focusName), map["filename" := filename, "start" := IntToString(start), "end" := IntToString(end)]);
    }
  }
}
