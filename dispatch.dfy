/** The GUI's key dispatch (_on_keyboard_down, vizaviz_gui.py lines 864-906): which
    bound actions a key press with a list of held modifiers triggers. */
module Dispatch {
  import opened Wrappers

  /** One entry of the binding table: the keys that trigger the action and the
      modifiers it is bound with. */
  datatype Binding = Binding(keys: seq<string>, mods: seq<string>)

  /** A group of the table: action names with their bindings, in the dict's order. */
  type Group = seq<(string, Binding)>

  function Elements(s: seq<string>): set<string> {
    set x | x in s
  }

  /** Lines 867 and 885-886: the key is bound, and either neither the binding nor the
      press has modifiers, or some are pressed and the set of bound modifiers shares as
      many elements with the set of pressed ones as the press lists. */
  predicate Fires(b: Binding, key: string, pressed: seq<string>) {
    || (key in b.keys && b.mods == [] && pressed == [])
    || (key in b.keys && pressed != [] && |Elements(b.mods) * Elements(pressed)| == |pressed|)
  }

  predicate NoDuplicates(s: seq<string>) {
    forall i, j :: 0 <= i < j < |s| ==> s[i] != s[j]
  }

  lemma {:induction false} ElementsCount(s: seq<string>)
    ensures |Elements(s)| <= |s|
    ensures |Elements(s)| == |s| <==> NoDuplicates(s)
    decreases |s|
  {
    if s != [] {
      var t := s[..|s| - 1];
      var x := s[|s| - 1];
      assert s == t + [x];
      ElementsSnoc(t, x);
      NoDuplicatesSnoc(t, x);
      ElementsCount(t);
      if x in t {
        assert Elements(s) == Elements(t);
      } else {
        assert x !in Elements(t);
      }
    } else {
      assert Elements(s) == {};
    }
  }

  lemma ElementsSnoc(t: seq<string>, x: string)
    ensures Elements(t + [x]) == Elements(t) + {x}
  {
  }

  lemma NoDuplicatesSnoc(t: seq<string>, x: string)
    ensures NoDuplicates(t + [x]) <==> NoDuplicates(t) && x !in t
  {
    var s := t + [x];
    if NoDuplicates(s) {
      forall i, j | 0 <= i < j < |t| ensures t[i] != t[j] {
        assert s[i] == t[i] && s[j] == t[j];
      }
      forall i | 0 <= i < |t| ensures t[i] != x {
        assert s[i] == t[i] && s[|t|] == x;
      }
    }
    if NoDuplicates(t) && x !in t {
      forall i, j | 0 <= i < j < |s| ensures s[i] != s[j] {
        if j < |t| {
          assert s[i] == t[i] && s[j] == t[j];
        } else {
          assert s[i] == t[i] && s[j] == x;
        }
      }
    }
  }

  lemma SubsetCount(a: set<string>, b: set<string>)
    ensures |a * b| <= |b|
    ensures |a * b| == |b| <==> b <= a
  {
    assert b == (a * b) + (b - a);
    assert (a * b) !! (b - a);
    assert |b| == |a * b| + |b - a|;
  }

  /** The match rule in plain terms: the key is bound and either nothing is pressed
      and nothing is bound, or the pressed modifiers are distinct and all among the
      bound ones. A modifier bound but not pressed does not prevent the action, and a
      modifier pressed twice prevents it. */
  lemma FiresIff(b: Binding, key: string, pressed: seq<string>)
    ensures Fires(b, key, pressed) <==>
      key in b.keys &&
      ((pressed == [] && b.mods == []) ||
       (pressed != [] && NoDuplicates(pressed) && forall m :: m in pressed ==> m in b.mods))
  {
    ElementsCount(pressed);
    SubsetCount(Elements(b.mods), Elements(pressed));
    if pressed != [] && NoDuplicates(pressed) && (forall m :: m in pressed ==> m in b.mods) {
      assert Elements(pressed) <= Elements(b.mods);
    }
    if pressed != [] && Elements(pressed) <= Elements(b.mods) {
      forall m | m in pressed ensures m in b.mods {
        assert m in Elements(pressed);
      }
    }
  }

  /** The actions of a group the press triggers, in the group's order. */
  function Fired(g: Group, key: string, pressed: seq<string>): (r: seq<string>)
    ensures |r| <= |g|
  {
    if g == [] then []
    else
      var last := g[|g| - 1];
      Fired(g[..|g| - 1], key, pressed) + (if Fires(last.1, key, pressed) then [last.0] else [])
  }

  /** An action name is triggered iff a binding of that name in the group fires. */
  lemma {:induction false} FiredIff(g: Group, key: string, pressed: seq<string>, name: string)
    ensures name in Fired(g, key, pressed) <==>
      exists j :: 0 <= j < |g| && g[j].0 == name && Fires(g[j].1, key, pressed)
    decreases |g|
  {
    if g != [] {
      var t := g[..|g| - 1];
      FiredIff(t, key, pressed, name);
      if name in Fired(g, key, pressed) {
        if name in Fired(t, key, pressed) {
          var j :| 0 <= j < |t| && t[j].0 == name && Fires(t[j].1, key, pressed);
          assert g[j] == t[j];
        } else {
          assert g[|g| - 1].0 == name && Fires(g[|g| - 1].1, key, pressed);
        }
      }
      if exists j :: 0 <= j < |g| && g[j].0 == name && Fires(g[j].1, key, pressed) {
        var j :| 0 <= j < |g| && g[j].0 == name && Fires(g[j].1, key, pressed);
        if j < |t| {
          assert t[j] == g[j];
        }
      }
    }
  }

  // ---------------------------------------------------------------------------
  // the table (bindings.py)

  /** The "app" group, always consulted. */
  const AppBindings: Group := [
    ("app_exit", Binding(["c"], ["ctrl"])),
    ("tab_next", Binding(["left"], ["ctrl"])),
    ("tab_previous", Binding(["right"], ["ctrl"])),
    ("ingest", Binding(["i"], ["ctrl"]))]

  /** The "maps" group, consulted while the maps tab is shown. */
  const MapsBindings: Group := [
    ("map_next", Binding(["tab"], [])),
    ("mark_next", Binding(["left"], ["shift"])),
    ("zoom_in", Binding(["up"], ["shift"])),
    ("zoom_out", Binding(["down"], ["shift"])),
    ("pan_up", Binding(["up", "w"], [])),
    ("pan_down", Binding(["down", "a"], [])),
    ("pan_left", Binding(["left", "s"], [])),
    ("pan_right", Binding(["right", "d"], [])),
    ("mark_view", Binding(["space"], []))]

  lemma {:induction false} FiredNone(g: Group, key: string, pressed: seq<string>)
    requires forall i :: 0 <= i < |g| ==> !Fires(g[i].1, key, pressed)
    ensures Fired(g, key, pressed) == []
    decreases |g|
  {
    if g != [] {
      FiredNone(g[..|g| - 1], key, pressed);
    }
  }

  lemma {:induction false} FiredExactly(g: Group, key: string, pressed: seq<string>, j: nat)
    requires j < |g| && Fires(g[j].1, key, pressed)
    requires forall i :: 0 <= i < |g| && i != j ==> !Fires(g[i].1, key, pressed)
    ensures Fired(g, key, pressed) == [g[j].0]
    decreases |g|
  {
    var t := g[..|g| - 1];
    if j == |g| - 1 {
      FiredNone(t, key, pressed);
    } else {
      FiredExactly(t, key, pressed, j);
    }
  }

  lemma SingleElements(x: string)
    ensures Elements([x]) == {x} && |Elements([x])| == 1
  {
    assert Elements([x]) == {x};
  }

  /** Ctrl+Left triggers tab_next in the app group and nothing in the maps group. */
  lemma CtrlLeftKeys()
    ensures Fired(AppBindings, "left", ["ctrl"]) == ["tab_next"]
    ensures Fired(MapsBindings, "left", ["ctrl"]) == []
  {
    SingleElements("ctrl");
    SingleElements("shift");
    assert Elements([]) == {};
    assert Fires(AppBindings[1].1, "left", ["ctrl"]);
    FiredExactly(AppBindings, "left", ["ctrl"], 1);
    assert forall i :: 0 <= i < |MapsBindings| ==> |Elements(MapsBindings[i].1.mods) * {"ctrl"}| == 0;
    FiredNone(MapsBindings, "left", ["ctrl"]);
  }

  /** Left alone pans the map, and triggers nothing in the app group. */
  lemma LeftKeys()
    ensures Fired(AppBindings, "left", []) == [] && Fired(MapsBindings, "left", []) == ["pan_left"]
  {
    FiredNone(AppBindings, "left", []);
    FiredExactly(MapsBindings, "left", [], 6);
  }

  /** Tab alone asks for the next map. */
  lemma TabKeys()
    ensures Fired(AppBindings, "tab", []) == [] && Fired(MapsBindings, "tab", []) == ["map_next"]
  {
    FiredNone(AppBindings, "tab", []);
    FiredExactly(MapsBindings, "tab", [], 0);
  }
}
