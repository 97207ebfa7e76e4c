/** The GUI's loop widget (LoopItem, vizaviz_gui.py lines 82-297): a copy of one loop
    record, the settings shown beside it, and the edits it writes back to the record in
    Redis under the GUI's server id. */
module Loops {
  import opened Wrappers
  import opened Strings
  import opened Keys
  import opened World
  import opened Ipc
  import opened Reconcile

  /** A setting's value: a number, a list of numbers (the default resolutions and
      increments) or a record field's text. Python's int and float are both a number. */
  datatype Setting = Number(x: real) | Numbers(xs: seq<real>) | Text(s: string)

  /** initialize_settings (lines 160-177); the duration is the source entry's, read
      with `float`. */
  function Defaults(duration: real): map<string, Setting> {
    map[
      "viewgrid_rows" := Number(30.0),
      "viewgrid_columns" := Number(30.0),
      "viewgrid_opacity" := Number(0.75),
      "viewgrid_start_row" := Number(0.0),
      "viewgrid_start_segment" := Number(0.0),
      "viewgrid_start_column" := Number(0.0),
      "viewgrid_scroll_amount" := Number(10.0),
      "columns" := Number(4.0),
      "cell_height" := Number(15.0),
      "cell_width" := Number(15.0),
      "default_resolutions" := Numbers([1.0, 4.0, 16.0, 32.0, 64.0, 128.0, 256.0, 512.0]),
      "resolution" := Number(4.0),
      "default_increments" := Numbers([0.001, 0.01, 0.1, 1.0, 10.0, 100.0, 1000.0]),
      "increment" := Number(1.0),
      "duration" := Number(duration)]
  }

  const LoopPrefix: string := "loop_"

  /** update_loop_settings (lines 156-158): every field of the record as the setting
      `loop_<field>`, holding the field's text. */
  function LoopSettings(loop: Fields): map<string, Setting> {
    Prefixed(loop, loop.Keys)
  }

  /** The settings of the fields in `ks`, each named after its field. */
  function Prefixed(loop: Fields, ks: set<string>): map<string, Setting> {
    map n | n in (set k | k in ks :: LoopPrefix + k) && |n| >= 5 && n[5..] in loop :: Text(loop[n[5..]])
  }

  lemma PrefixedStep(loop: Fields, ks: set<string>, k: string)
    requires k in loop
    ensures Prefixed(loop, ks + {k}) == Prefixed(loop, ks)[LoopPrefix + k := Text(loop[k])]
  {
    assert (LoopPrefix + k)[5..] == k;
    forall n | n in Prefixed(loop, ks + {k})
      ensures n == LoopPrefix + k || n in Prefixed(loop, ks)
    {
      var k' :| k' in ks + {k} && n == LoopPrefix + k';
      assert n[5..] == k';
    }
    forall n | n in Prefixed(loop, ks) ensures n in Prefixed(loop, ks + {k}) {
      var k' :| k' in ks && n == LoopPrefix + k';
    }
  }

  lemma UpdateAfterMerge(a: map<string, Setting>, b: map<string, Setting>, n: string, v: Setting)
    ensures (a + b)[n := v] == a + b[n := v]
  {
  }

  /** Python's `s[n:]`: empty when `s` is shorter. */
  function SliceFrom(s: string, n: nat): string {
    if |s| >= n then s[n..] else ""
  }

  /** The loop settings offered for editing (lines 104-108). */
  const Whitelist: set<string> := {"loop_start", "loop_end", "loop_volume", "loop_status"}

  /** The settings shown but not editable (lines 110-112). */
  const ReadOnly: set<string> := {"duration", "default_increments", "default_resolutions"}

  /** add_settings (line 143): whether the setting gets a text input, and can thus be
      passed to adjust_setting. */
  predicate Editable(name: string) {
    || (name !in ReadOnly && !StartsWith(name, LoopPrefix))
    || (StartsWith(name, LoopPrefix) && name in Whitelist)
  }

  /** adjust_loop (lines 292-297): one field written to the loop's record, and only when
      the record exists, so that no record with a single field is created. */
  function AdjustLoop(db: Db, uuid: string, field: string, value: string): Db {
    var key := LoopKey(GuiServer, uuid);
    if HashOf(db, key) != map[] then WithFields(db, key, map[field := value]) else db
  }

  /** adjust_setting (lines 279-290): the setting takes `float(value)`; a setting whose
      name contains "loop_" also sends the unparsed text to the record, under the name
      without its first five characters. A value `float` rejects raises before
      anything changes, and the handler swallows it. */
  function AdjustSetting(settings: map<string, Setting>, db: Db, uuid: string, attribute: string, value: string)
    : (map<string, Setting>, Db)
  {
    match ParseFloat(value)
    case None => (settings, db)
    case Some(x) =>
      var settings2 := settings[attribute := Number(x)];
      if Contains(attribute, LoopPrefix) then (settings2, AdjustLoop(db, uuid, SliceFrom(attribute, 5), value))
      else (settings2, db)
  }

  const StartSegment: string := "viewgrid_start_segment"
  const ScrollAmount: string := "viewgrid_scroll_amount"

  /** viewgrid_scroll_up and viewgrid_scroll_down (lines 203-209), which the "loops"
      group binds to the up and down keys: the first segment of the view grid moves by
      the scroll amount, up adding it and down subtracting it; no other setting
      changes. A missing setting raises KeyError, and a setting that is not a number
      is taken as a TypeError. */
  function Scrolled(settings: map<string, Setting>, up: bool): (r: Result<map<string, Setting>>)
    ensures r.Ok? ==> r.value.Keys == settings.Keys
    ensures r.Ok? ==> forall n :: n in settings && n != StartSegment ==> r.value[n] == settings[n]
    ensures r.Err? ==> !Scrollable(settings)
  {
    if StartSegment !in settings || ScrollAmount !in settings then Err("KeyError")
    else match (settings[StartSegment], settings[ScrollAmount])
      case (Number(a), Number(b)) => Ok(settings[StartSegment := Number(if up then a + b else a - b)])
      case _ => Err("TypeError")
  }

  /** Both scroll settings are present and numbers. */
  predicate Scrollable(settings: map<string, Setting>) {
    && StartSegment in settings && settings[StartSegment].Number?
    && ScrollAmount in settings && settings[ScrollAmount].Number?
  }

  /** remove_loop (lines 274-277): the record's key is deleted. */
  function RemoveLoop(db: Db, uuid: string): Db {
    WithoutKey(db, LoopKey(GuiServer, uuid))
  }

  // ---------------------------------------------------------------------------
  // properties

  /** adjust_loop never creates a record; for an existing one it sets exactly the one
      field, and no other key changes. */
  lemma AdjustLoopNeverCreates(db: Db, uuid: string, field: string, value: string)
    ensures var key := LoopKey(GuiServer, uuid);
      var db2 := AdjustLoop(db, uuid, field, value);
      && (HashOf(db, key) == map[] ==> db2 == db)
      && (HashOf(db, key) != map[] ==> HashOf(db2, key) == HashOf(db, key)[field := value])
      && (forall k :: k != key ==> HashOf(db2, k) == HashOf(db, k))
      && db2.sets == db.sets
  {
    var key := LoopKey(GuiServer, uuid);
    assert HashOf(db, key) + map[field := value] == HashOf(db, key)[field := value];
  }

  /** A value `float` rejects changes neither the settings nor the store. */
  lemma NonNumericValueChangesNothing(settings: map<string, Setting>, db: Db, uuid: string, attribute: string, value: string)
    requires ParseFloat(value).None?
    ensures AdjustSetting(settings, db, uuid, attribute, value) == (settings, db)
  {
  }

  /** The settings update_loop_settings adds are exactly the record's fields under the
      `loop_` prefix, and dropping the first five characters of such a name gives the
      field back. */
  lemma LoopSettingNames(loop: Fields)
    ensures forall k :: k in loop ==>
      LoopPrefix + k in LoopSettings(loop) && LoopSettings(loop)[LoopPrefix + k] == Text(loop[k])
      && SliceFrom(LoopPrefix + k, 5) == k && Contains(LoopPrefix + k, LoopPrefix)
    ensures forall n :: n in LoopSettings(loop) ==>
      StartsWith(n, LoopPrefix) && SliceFrom(n, 5) in loop && n == LoopPrefix + SliceFrom(n, 5)
  {
    forall k | k in loop
      ensures SliceFrom(LoopPrefix + k, 5) == k && Contains(LoopPrefix + k, LoopPrefix)
    {
      assert (LoopPrefix + k)[0..5] == LoopPrefix;
      ContainsAt(LoopPrefix + k, LoopPrefix, 0);
    }
    forall k | k in loop ensures LoopPrefix + k in LoopSettings(loop) {
      assert (LoopPrefix + k)[5..] == k;
    }
    forall n | n in LoopSettings(loop)
      ensures StartsWith(n, LoopPrefix) && SliceFrom(n, 5) in loop && n == LoopPrefix + SliceFrom(n, 5)
    {
      var k :| k in loop && n == LoopPrefix + k;
      assert n[5..] == k;
    }
  }

  /** Editing the setting `loop_<k>` with a number's text: the setting holds the
      number, the record (if it exists) has the text under its own field k, and the
      reconciler reads back the same number from that field. */
  lemma LoopSettingEdit(settings: map<string, Setting>, db: Db, uuid: string, k: string, value: string, x: real)
    requires ParseFloat(value) == Some(x)
    ensures var key := LoopKey(GuiServer, uuid);
      var (settings2, db2) := AdjustSetting(settings, db, uuid, LoopPrefix + k, value);
      && settings2 == settings[LoopPrefix + k := Number(x)]
      && (HashOf(db, key) != map[] ==>
           HashOf(db2, key) == HashOf(db, key)[k := value] && StoredNumber(HashOf(db2, key), k) == Some(x))
      && (HashOf(db, key) == map[] ==> db2 == db)
  {
    LoopSettingNames(map[k := value]);
    AdjustLoopNeverCreates(db, uuid, k, value);
  }

  /** The record fields the widget lets the user edit are start, end, volume and
      status; uuid, filename and filehash are shown read-only. */
  lemma EditableLoopFields(k: string)
    ensures Editable(LoopPrefix + k) <==> k in {"start", "end", "volume", "status"}
  {
    assert StartsWith(LoopPrefix + k, LoopPrefix);
    assert LoopPrefix + "start" == "loop_start" && LoopPrefix + "end" == "loop_end";
    assert LoopPrefix + "volume" == "loop_volume" && LoopPrefix + "status" == "loop_status";
    if LoopPrefix + k in Whitelist {
      var n := LoopPrefix + k;
      assert n[5..] == k;
      assert n == "loop_start" || n == "loop_end" || n == "loop_volume" || n == "loop_status";
      assert "loop_start"[5..] == "start" && "loop_end"[5..] == "end";
      assert "loop_volume"[5..] == "volume" && "loop_status"[5..] == "status";
    }
  }

  /** A setting without "loop_" in its name stays in the widget. */
  lemma PlainSettingStaysLocal(settings: map<string, Setting>, db: Db, uuid: string, attribute: string, value: string)
    requires !Contains(attribute, LoopPrefix)
    ensures AdjustSetting(settings, db, uuid, attribute, value).1 == db
  {
  }

  /** After remove_loop, a late edit from the widget does not bring the record back. */
  lemma RemovedLoopStaysRemoved(settings: map<string, Setting>, db: Db, uuid: string, attribute: string, value: string)
    ensures var db1 := RemoveLoop(db, uuid);
      HashOf(AdjustSetting(settings, db1, uuid, attribute, value).1, LoopKey(GuiServer, uuid)) == map[]
  {
    var db1 := RemoveLoop(db, uuid);
    AdjustLoopNeverCreates(db1, uuid, SliceFrom(attribute, 5), value);
  }

  /** Scrolling up moves the first segment by the scroll amount, and scrolling down
      undoes it exactly. */
  lemma ScrollUpDown(settings: map<string, Setting>)
    requires Scrollable(settings)
    ensures Scrolled(settings, true).Ok?
    ensures Scrolled(settings, true).value[StartSegment].x == settings[StartSegment].x + settings[ScrollAmount].x
    ensures Scrollable(Scrolled(settings, true).value)
    ensures Scrolled(Scrolled(settings, true).value, false) == Ok(settings)
  {
    var up := Scrolled(settings, true).value;
    assert up[StartSegment := settings[StartSegment]] == settings;
  }

  /** A fresh widget can scroll: initialize_settings gives both settings numbers, and no
      field of the record overrides them, since every name update_loop_settings adds
      starts with `loop_`. */
  lemma FreshSettingsScroll(duration: real, loop: Fields)
    ensures Scrollable(Defaults(duration) + LoopSettings(loop))
  {
    LoopSettingNames(loop);
    assert StartSegment[4] == 'g' != LoopPrefix[4];
    assert ScrollAmount[4] == 'g' != LoopPrefix[4];
  }

  /** adjust_setting and scrolling keep both settings numbers, so no scroll of a widget
      raises. */
  lemma EditsKeepScrollable(settings: map<string, Setting>, db: Db, uuid: string, attribute: string, value: string, up: bool)
    requires Scrollable(settings)
    ensures Scrollable(AdjustSetting(settings, db, uuid, attribute, value).0)
    ensures Scrolled(settings, up).Ok? && Scrollable(Scrolled(settings, up).value)
  {
  }

  // ---------------------------------------------------------------------------
  // the widget

  class LoopItem {
    var loop: Fields
    var settings: map<string, Setting>

    /** The label shows `loop['uuid']`: a record without one fails the constructor. */
    ghost predicate Valid()
      reads this
    {
      "uuid" in loop
    }

    constructor (loop: Fields, duration: real)
      requires "uuid" in loop
      ensures Valid() && this.loop == loop
      ensures settings == Defaults(duration) + LoopSettings(loop)
    {
      this.loop := loop;
      settings := map[];
      new;
      InitializeSettings(duration);
      UpdateLoopSettings();
    }

    method InitializeSettings(duration: real)
      modifies this
      ensures loop == old(loop) && settings == old(settings) + Defaults(duration)
    {
      settings := settings + Defaults(duration);
    }

    /** The loop over the record's fields. */
    method UpdateLoopSettings()
      modifies this
      ensures loop == old(loop) && settings == old(settings) + LoopSettings(loop)
    {
      var todo := loop.Keys;
      ghost var done: set<string> := {};
      assert Prefixed(loop, done) == map[];
      while todo != {}
        invariant todo + done == loop.Keys && todo !! done
        invariant loop == old(loop)
        invariant settings == old(settings) + Prefixed(loop, done)
        decreases todo
      {
        var k :| k in todo;
        PrefixedStep(loop, done, k);
        UpdateAfterMerge(old(settings), Prefixed(loop, done), LoopPrefix + k, Text(loop[k]));
        settings := settings[LoopPrefix + k := Text(loop[k])];
        todo := todo - {k};
        done := done + {k};
      }
      assert done == loop.Keys;
    }

    method AdjustLoopField(env: Env, attribute: string, value: string)
      requires Valid()
      modifies env
      ensures env.Snapshot() == old(env.Snapshot()).(db := AdjustLoop(old(env.db), loop["uuid"], attribute, value))
    {
      var key := LoopKey(GuiServer, loop["uuid"]);
      var present := env.HGetAll(key);
      if present != map[] {
        env.HmSet(key, map[attribute := value]);
      }
    }

    method AdjustSettingValue(env: Env, attribute: string, value: string)
      requires Valid()
      modifies this, env
      ensures loop == old(loop)
      ensures (settings, env.db) == AdjustSetting(old(settings), old(env.db), loop["uuid"], attribute, value)
      ensures env.Snapshot() == old(env.Snapshot()).(db := env.db)
    {
      var x := ParseFloat(value);
      if x.None? {
        return;
      }
      settings := settings[attribute := Number(x.value)];
      if Contains(attribute, LoopPrefix) {
        AdjustLoopField(env, SliceFrom(attribute, 5), value);
      }
    }

    /** viewgrid_scroll_up without the redraw. */
    method ViewgridScrollUp() returns (r: Result<()>)
      modifies this
      ensures loop == old(loop)
      ensures match Scrolled(old(settings), true)
        case Ok(s) => r == Ok(()) && settings == s
        case Err(e) => r == Err(e) && settings == old(settings)
    {
      r := Scroll(true);
    }

    /** viewgrid_scroll_down without the redraw. */
    method ViewgridScrollDown() returns (r: Result<()>)
      modifies this
      ensures loop == old(loop)
      ensures match Scrolled(old(settings), false)
        case Ok(s) => r == Ok(()) && settings == s
        case Err(e) => r == Err(e) && settings == old(settings)
    {
      r := Scroll(false);
    }

    /** `settings['viewgrid_start_segment'] ±= settings['viewgrid_scroll_amount']`. */
    method Scroll(up: bool) returns (r: Result<()>)
      modifies this
      ensures loop == old(loop)
      ensures match Scrolled(old(settings), up)
        case Ok(s) => r == Ok(()) && settings == s
        case Err(e) => r == Err(e) && settings == old(settings)
    {
      if StartSegment !in settings || ScrollAmount !in settings {
        return Err("KeyError");
      }
      var start := settings[StartSegment];
      var amount := settings[ScrollAmount];
      if !start.Number? || !amount.Number? {
        return Err("TypeError");
      }
      settings := settings[StartSegment := Number(if up then start.x + amount.x else start.x - amount.x)];
      r := Ok(());
    }

    method Remove(env: Env)
      requires Valid()
      modifies env
      ensures env.Snapshot() == old(env.Snapshot()).(db := RemoveLoop(old(env.db), loop["uuid"]))
    {
      env.Del(LoopKey(GuiServer, loop["uuid"]));
    }
  }
}
