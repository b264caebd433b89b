/** Pui/player_ui.py: the players' display.

    Every tick the display reads the state file. The list model
    (`CombatantModel`) rebuilds its rows from the payload, replacing only
    the rows that changed while the ids stay the same and resetting
    everything otherwise. `PlayerUiState` compares the payload with the one
    before, combatant by combatant (matched by id), and narrates what
    happened in a three-line log, newest line first.

    The payload is the decoded JSON dict. The display crashes on payloads
    whose parts have the wrong type (a combatant that is not a dict, a
    non-string name); `WellFormedPayload` states the shape it relies on,
    which is the shape the DM side writes. Qt notifications become a ghost
    log of `Notice`s; the clear-logs timer is the flag `clearPending`. */
module PlayerUi {
  import opened Wrappers
  import opened Text
  import opened Json

  type Dict = map<string, Json>

  // ---------------------------------------------------------------------
  // The shape of a payload
  // ---------------------------------------------------------------------

  /** A combatant the display can read without raising: its id, labels and
      state are strings (or missing), its two effect collections dicts. */
  predicate WellFormedCombatant(c: Dict) {
    StringOrNull(Get(c, "id", JNull)) && StringOrNull(Get(c, "display_name", JNull))
    && StringOrNull(Get(c, "name", JNull)) && StringOrNull(Get(c, "state", JNull))
    && Get(c, "effects", JObject(map[])).JObject? && Get(c, "custom_effects", JObject(map[])).JObject?
  }

  predicate WellFormedList(j: Json) {
    j.JList? && forall k :: 0 <= k < |j.items| ==> j.items[k].JObject? && WellFormedCombatant(j.items[k].fields)
  }

  /** `combatants` is a list of such combatants and `active_ids` a list. */
  predicate WellFormedPayload(p: Dict) {
    WellFormedList(Get(p, "combatants", JList([]))) && Get(p, "active_ids", JList([])).JList?
  }

  /** `payload.get("combatants", [])`. */
  function Combatants(p: Dict): (r: seq<Dict>)
    requires WellFormedPayload(p)
    ensures |r| == |Get(p, "combatants", JList([])).items|
    ensures forall k :: 0 <= k < |r| ==> JObject(r[k]) == Get(p, "combatants", JList([])).items[k]
    ensures forall c :: c in r ==> WellFormedCombatant(c)
  {
    var items := Get(p, "combatants", JList([])).items;
    seq(|items|, k requires 0 <= k < |items| => items[k].fields)
  }

  /** `payload.get("active_ids", [])`. */
  function ActiveIdList(p: Dict): seq<Json>
    requires WellFormedPayload(p)
  {
    Get(p, "active_ids", JList([])).items
  }

  // ---------------------------------------------------------------------
  // The list model
  // ---------------------------------------------------------------------

  /** One row of the list model. */
  datatype Item = Item(id: Json, name: Json, hp: Json, maxHp: Json, tempHp: Json, state: Json,
                       active: bool, effects: Json, customEffects: Json, kind: Json, displayName: Json)

  /** `_build_item` (Pui/player_ui.py:74-89): the fields with their
      defaults; the row is active when its id is among the active ids. */
  function BuildItem(c: Dict, activeIds: seq<Json>): (it: Item)
    ensures it.id == (if "id" in c then c["id"] else JNull)
    ensures it.active <==> it.id in activeIds
  {
    var id := Get(c, "id", JNull);
    Item(id, Get(c, "name", JStr("—")), Get(c, "hp", JNull), Get(c, "max_hp", JNull),
         Get(c, "temp_hp", JInt(0)), Get(c, "state", JStr("alive")), id in activeIds,
         Get(c, "effects", JObject(map[])), Get(c, "custom_effects", JObject(map[])),
         Get(c, "kind", JStr("combatant")), Get(c, "display_name", Get(c, "name", JStr("—"))))
  }

  /** The defaults `_build_item` fills in for missing keys; the display
      name falls back to the name. */
  lemma BuildItemDefaults(c: Dict, activeIds: seq<Json>)
    ensures var it := BuildItem(c, activeIds);
            ("name" !in c ==> it.name == JStr("—"))
            && ("temp_hp" !in c ==> it.tempHp == JInt(0))
            && ("hp" !in c ==> it.hp == JNull)
            && ("max_hp" !in c ==> it.maxHp == JNull)
            && ("state" !in c ==> it.state == JStr("alive"))
            && ("kind" !in c ==> it.kind == JStr("combatant"))
            && ("effects" !in c ==> it.effects == JObject(map[]))
            && ("custom_effects" !in c ==> it.customEffects == JObject(map[]))
            && ("display_name" !in c ==> it.displayName == it.name)
            && (forall key :: key in c && key in {"name", "hp", "max_hp", "temp_hp", "state", "kind", "display_name"} ==>
                  c[key] == match key
                            case "name" => it.name
                            case "hp" => it.hp
                            case "max_hp" => it.maxHp
                            case "temp_hp" => it.tempHp
                            case "state" => it.state
                            case "kind" => it.kind
                            case _ => it.displayName)
  {
  }

  /** The rows the payload calls for. */
  function BuiltItems(cs: seq<Dict>, activeIds: seq<Json>): (r: seq<Item>)
    ensures |r| == |cs| && forall k :: 0 <= k < |cs| ==> r[k] == BuildItem(cs[k], activeIds)
  {
    seq(|cs|, k requires 0 <= k < |cs| => BuildItem(cs[k], activeIds))
  }

  /** `c.get("id")` for a payload combatant. */
  function IdOf(c: Dict): Json {
    Get(c, "id", JNull)
  }

  /** The row shape is kept when the number of rows and the ids, in order,
      are the same (Pui/player_ui.py:99-107). */
  predicate SameShape(items: seq<Item>, cs: seq<Dict>) {
    |cs| == |items| && IncomingIds(cs) == RowIds(items)
  }

  /** `[combatant.get("id") for combatant in combatants]`. */
  function IncomingIds(cs: seq<Dict>): (r: seq<Json>)
    ensures |r| == |cs| && forall k :: 0 <= k < |cs| ==> r[k] == IdOf(cs[k])
  {
    seq(|cs|, k requires 0 <= k < |cs| => IdOf(cs[k]))
  }

  /** `[item.get("id") for item in self._items]`. */
  function RowIds(items: seq<Item>): (r: seq<Json>)
    ensures |r| == |items| && forall k :: 0 <= k < |items| ==> r[k] == items[k].id
  {
    seq(|items|, k requires 0 <= k < |items| => items[k].id)
  }

  /** What the view is told: everything was reset, or one row changed. */
  datatype Notice = Reset | RowChanged(row: nat)

  /** The `dataChanged` notices of the first `n` rows: one per row whose
      item differs, in row order. */
  function ChangedRows(before: seq<Item>, after: seq<Item>, n: nat): seq<Notice>
    requires n <= |before| && n <= |after|
  {
    if n == 0 then []
    else ChangedRows(before, after, n - 1) + (if before[n - 1] != after[n - 1] then [RowChanged(n - 1)] else [])
  }

  /** Row notices only, for rows in strictly increasing order. */
  predicate Ascending(notices: seq<Notice>) {
    forall i, j :: 0 <= i < j < |notices| ==> notices[i].RowChanged? && notices[j].RowChanged? && notices[i].row < notices[j].row
  }

  /** A row is reported exactly when its item changed, and the reports come
      in increasing row order. */
  lemma {:induction false} ChangedRowsExactly(before: seq<Item>, after: seq<Item>, n: nat)
    requires n <= |before| && n <= |after|
    ensures forall row: nat :: RowChanged(row) in ChangedRows(before, after, n) <==> row < n && before[row] != after[row]
    ensures Ascending(ChangedRows(before, after, n))
  {
    if n > 0 {
      ChangedRowsExactly(before, after, n - 1);
      var r := ChangedRows(before, after, n - 1);
      forall i | 0 <= i < |r|
        ensures r[i].RowChanged? && r[i].row < n - 1
      {
        ChangedRowsBelow(before, after, n - 1, i);
      }
      assert RowChanged(n - 1) !in r;
      var full := ChangedRows(before, after, n);
      forall i, j | 0 <= i < j < |full|
        ensures full[i].RowChanged? && full[j].RowChanged? && full[i].row < full[j].row
      {
        assert full[i] == r[i];
        if j >= |r| {
          assert full[j] == RowChanged(n - 1);
        } else {
          assert full[j] == r[j];
        }
      }
    }
  }

  lemma {:induction false} ChangedRowsBelow(before: seq<Item>, after: seq<Item>, n: nat, i: nat)
    requires n <= |before| && n <= |after| && i < |ChangedRows(before, after, n)|
    ensures ChangedRows(before, after, n)[i].RowChanged? && ChangedRows(before, after, n)[i].row < n
  {
    var r := ChangedRows(before, after, n - 1);
    if i < |r| {
      ChangedRowsBelow(before, after, n - 1, i);
    }
  }

  class CombatantModel {
    var items: seq<Item>
    ghost var notices: seq<Notice>

    constructor ()
      ensures items == [] && notices == []
    {
      items := [];
      notices := [];
    }

    /** `_full_reset` (Pui/player_ui.py:91-94). */
    method FullReset(cs: seq<Dict>, activeIds: seq<Json>)
      modifies this
      ensures items == BuiltItems(cs, activeIds) && notices == old(notices) + [Reset]
    {
      items := BuiltItems(cs, activeIds);
      notices := notices + [Reset];
    }

    /** `update_items` (Pui/player_ui.py:96-114): in the end the rows are
        always the built items; with the shape kept, only the rows that
        differ are replaced and reported, otherwise the model is reset. */
    method UpdateItems(cs: seq<Dict>, activeIds: seq<Json>)
      modifies this
      ensures items == BuiltItems(cs, activeIds)
      ensures !SameShape(old(items), cs) ==> notices == old(notices) + [Reset]
      ensures SameShape(old(items), cs) ==>
                notices == old(notices) + ChangedRows(old(items), BuiltItems(cs, activeIds), |cs|)
    {
      if |cs| != |items| {
        FullReset(cs, activeIds);
        return;
      }
      if IncomingIds(cs) != RowIds(items) {
        FullReset(cs, activeIds);
        return;
      }
      ReplaceChangedRows(cs, activeIds);
    }

    /** The row-by-row loop of `update_items` (Pui/player_ui.py:109-114). */
    method ReplaceChangedRows(cs: seq<Dict>, activeIds: seq<Json>)
      requires |cs| == |items|
      modifies this
      ensures items == BuiltItems(cs, activeIds)
      ensures notices == old(notices) + ChangedRows(old(items), BuiltItems(cs, activeIds), |cs|)
    {
      ghost var built := BuiltItems(cs, activeIds);
      var before := items;
      var rows := items;
      ghost var changed: seq<Notice> := [];
      for row := 0 to |cs|
        invariant |rows| == |cs|
        invariant forall k :: 0 <= k < row ==> rows[k] == built[k]
        invariant forall k :: row <= k < |cs| ==> rows[k] == before[k]
        invariant changed == ChangedRows(before, built, row)
      {
        var updated := BuildItem(cs[row], activeIds);
        if rows[row] != updated {
          rows := rows[row := updated];
          changed := changed + [RowChanged(row)];
        }
      }
      items := rows;
      notices := notices + changed;
    }
  }

  // ---------------------------------------------------------------------
  // The rolling log
  // ---------------------------------------------------------------------

  const EmptyLog: seq<string> := ["", "", ""]

  /** `s[:n]`. */
  function Take<T>(s: seq<T>, n: nat): (r: seq<T>)
    ensures |r| == if |s| < n then |s| else n
    ensures r == s[..|r|]
  {
    if |s| <= n then s else s[..n]
  }

  /** `_push_log` (Pui/player_ui.py:162-166) on values. */
  function Pushed(log: seq<string>, message: string): (r: seq<string>)
    ensures message == "" ==> r == log
    ensures message != "" ==> r == Take([message] + log, 3)
  {
    if message == "" then log else [message] + Take(log, 2)
  }

  /** The log after pushing `messages` one after another. */
  function PushAll(log: seq<string>, messages: seq<string>): seq<string>
    decreases |messages|
  {
    if messages == [] then log
    else Pushed(PushAll(log, messages[..|messages| - 1]), messages[|messages| - 1])
  }

  /** The non-empty messages, newest first. */
  function NewestFirst(messages: seq<string>): (r: seq<string>)
    ensures forall k :: 0 <= k < |r| ==> r[k] != ""
    decreases |messages|
  {
    if messages == [] then []
    else
      var m := messages[|messages| - 1];
      (if m == "" then [] else [m]) + NewestFirst(messages[..|messages| - 1])
  }

  /** Pushing onto the three newest lines of `y` keeps the three newest of
      the message followed by `y`. */
  lemma PushTake(m: string, y: seq<string>)
    requires m != ""
    ensures Pushed(Take(y, 3), m) == Take([m] + y, 3)
  {
    assert Take(Take(y, 3), 2) == Take(y, 2);
    if |y| >= 2 {
      assert ([m] + y)[..3] == [m] + y[..2];
    }
  }

  /** The log keeps the three newest non-empty messages, newest first,
      topped up with the older lines. */
  lemma {:induction false} RollingLog(log: seq<string>, messages: seq<string>)
    ensures PushAll(log, messages) == (if NewestFirst(messages) == [] then log else Take(NewestFirst(messages) + log, 3))
    decreases |messages|
  {
    if messages != [] {
      var init := messages[..|messages| - 1];
      var m := messages[|messages| - 1];
      RollingLog(log, init);
      var before := PushAll(log, init);
      var rest := NewestFirst(init);
      assert PushAll(log, messages) == Pushed(before, m);
      if m == "" {
        assert NewestFirst(messages) == rest;
      } else {
        assert NewestFirst(messages) == [m] + rest;
        if rest == [] {
          assert before == log;
        } else {
          assert before == Take(rest + log, 3);
          PushTake(m, rest + log);
          assert [m] + (rest + log) == ([m] + rest) + log;
        }
      }
    }
  }

  /** Three lines stay three lines. */
  lemma {:induction false} PushAllKeepsThree(log: seq<string>, messages: seq<string>)
    requires |log| == 3
    ensures |PushAll(log, messages)| == 3
    decreases |messages|
  {
    if messages != [] {
      PushAllKeepsThree(log, messages[..|messages| - 1]);
    }
  }

  lemma {:induction false} PushAllAppend(log: seq<string>, a: seq<string>, b: seq<string>)
    ensures PushAll(log, a + b) == PushAll(PushAll(log, a), b)
    decreases |b|
  {
    if b == [] {
      assert a + b == a;
    } else {
      assert (a + b)[..|a + b| - 1] == a + b[..|b| - 1];
      PushAllAppend(log, a, b[..|b| - 1]);
    }
  }

  // ---------------------------------------------------------------------
  // Narration
  // ---------------------------------------------------------------------

  /** `_display_name` (Pui/player_ui.py:150-152): the first non-empty of
      `display_name` and `name`, else a dash. */
  function UiName(c: Dict): (r: string)
    requires WellFormedCombatant(c)
    ensures r != []
  {
    var d := Get(c, "display_name", JNull);
    var n := Get(c, "name", JNull);
    if d.JStr? && d.s != "" then d.s else if n.JStr? && n.s != "" then n.s else "—"
  }

  /** `_actor_log`'s line (Pui/player_ui.py:154-160): the name, escaped and
      coloured, then the text. */
  function ActorLine(name: string, suffix: string): (r: string)
    ensures r != []
  {
    "<span style=\"color:#E0B26B;\">" + HtmlEscape(name) + "</span>" + " " + suffix
  }

  /** The text for a change of state (Pui/player_ui.py:195-210). */
  function StateText(prev: Json, curr: Json): string
    requires StringOrNull(curr)
  {
    if curr == JStr("dead") then "погибает"
    else if curr == JStr("unconscious") then "без сознания"
    else if curr == JStr("left") then "покидает бой"
    else if curr == JStr("alive") then
      (if prev == JStr("dead") then "воскресает"
       else if prev == JStr("left") then "возвращается в бой"
       else "приходит в себя")
    else "состояние " + TextOf(curr)
  }

  /** The HP texts of a combatant whose state did not change
      (Pui/player_ui.py:212-233): only changes between two ints count. */
  function HpTexts(previous: Dict, current: Dict): (r: seq<string>)
    ensures var ph := AsInt(Get(previous, "hp", JNull));
            var ch := AsInt(Get(current, "hp", JNull));
            var pt := AsInt(Get(previous, "temp_hp", JInt(0)));
            var ct := AsInt(Get(current, "temp_hp", JInt(0)));
            var heal := ph.Some? && ch.Some? && ch.value > ph.value;
            var grant := pt.Some? && ct.Some? && ct.value > pt.value;
            (r != [] <==> (ph.Some? && ch.Some? && ph != ch) || (pt.Some? && ct.Some? && pt != ct))
            && (r != [] && heal ==> r == ["восстанавливает HP"])
            && (r != [] && !heal && grant ==> r == ["получает временные HP"])
            && (r != [] && !heal && !grant ==>
                  r[0] == "получает урон" && |r| <= 2
                  && (|r| == 2 <==> pt.Some? && ct.Some? && pt.value > 0 && ct.value == 0)
                  && (|r| == 2 ==> r[1] == "теряет временные HP"))
  {
    var ph := AsInt(Get(previous, "hp", JNull));
    var ch := AsInt(Get(current, "hp", JNull));
    var pt := AsInt(Get(previous, "temp_hp", JInt(0)));
    var ct := AsInt(Get(current, "temp_hp", JInt(0)));
    var hpChanged := ph.Some? && ch.Some? && ch.value != ph.value;
    var tempChanged := pt.Some? && ct.Some? && ct.value != pt.value;
    if !(hpChanged || tempChanged) then []
    else if ph.Some? && ch.Some? && ch.value > ph.value then ["восстанавливает HP"]
    else if pt.Some? && ct.Some? && ct.value > pt.value then ["получает временные HP"]
    else ["получает урон"] + (if pt.Some? && ct.Some? && pt.value > 0 && ct.value == 0 then ["теряет временные HP"] else [])
  }

  /** The text for a flag of `effects` that was switched. */
  function ToggleTexts(before: bool, after: bool, onText: string, offText: string): seq<string> {
    if before == after then [] else if after then [onText] else [offText]
  }

  /** `set(d.keys())` of a dict-valued field. */
  function Names(c: Dict, key: string): set<string>
    requires Get(c, key, JObject(map[])).JObject?
  {
    Get(c, key, JObject(map[])).fields.Keys
  }

  /** The `effects` flag `key`, read with `bool(...)`. */
  predicate Flag(c: Dict, key: string)
    requires Get(c, "effects", JObject(map[])).JObject?
  {
    Truthy(Get(Get(c, "effects", JObject(map[])).fields, key, JNull))
  }

  /** `s.startswith(prefix)`. */
  predicate StartsWith(s: string, prefix: string) {
    |prefix| <= |s| && s[..|prefix|] == prefix
  }

  /** One line per name, `prefix` followed by the escaped name. */
  function Prefixed(prefix: string, names: seq<string>): (r: seq<string>)
    ensures |r| == |names| && forall k :: 0 <= k < |names| ==> r[k] == prefix + HtmlEscape(names[k])
    ensures forall k :: 0 <= k < |r| ==> StartsWith(r[k], prefix)
  {
    var r := seq(|names|, k requires 0 <= k < |names| => prefix + HtmlEscape(names[k]));
    assert forall k :: 0 <= k < |r| ==> r[k][..|prefix|] == prefix;
    r
  }

  /** Every name gets its line. */
  lemma PrefixedCovers(prefix: string, names: seq<string>)
    ensures forall name :: name in names ==> prefix + HtmlEscape(name) in Prefixed(prefix, names)
  {
    forall name | name in names
      ensures prefix + HtmlEscape(name) in Prefixed(prefix, names)
    {
      var k :| 0 <= k < |names| && names[k] == name;
      assert Prefixed(prefix, names)[k] == prefix + HtmlEscape(name);
    }
  }

  /** The lines about custom effects (Pui/player_ui.py:253-260): one per
      effect that appeared, each reading "получает эффект" and the name,
      then one per effect that went away, each reading "теряет эффект" and
      the name. */
  function EffectTexts(previous: Dict, current: Dict): (r: seq<string>)
    requires Get(previous, "custom_effects", JObject(map[])).JObject?
    requires Get(current, "custom_effects", JObject(map[])).JObject?
    ensures var added := Names(current, "custom_effects") - Names(previous, "custom_effects");
            var removed := Names(previous, "custom_effects") - Names(current, "custom_effects");
            |r| == |added| + |removed|
            && (forall name :: name in added ==> "получает эффект " + HtmlEscape(name) in r[..|added|])
            && (forall name :: name in removed ==> "теряет эффект " + HtmlEscape(name) in r[|added|..])
            && (forall k :: 0 <= k < |added| ==> StartsWith(r[k], "получает эффект "))
            && (forall k :: |added| <= k < |r| ==> StartsWith(r[k], "теряет эффект "))
  {
    var added := SortedNames(Names(current, "custom_effects") - Names(previous, "custom_effects"));
    var removed := SortedNames(Names(previous, "custom_effects") - Names(current, "custom_effects"));
    PrefixedCovers("получает эффект ", added);
    PrefixedCovers("теряет эффект ", removed);
    var r := Prefixed("получает эффект ", added) + Prefixed("теряет эффект ", removed);
    assert r[..|added|] == Prefixed("получает эффект ", added);
    assert r[|added|..] == Prefixed("теряет эффект ", removed);
    r
  }

  /** The lines about HP, concentration and incapacitation
      (Pui/player_ui.py:212-251). */
  function StatusTexts(previous: Dict, current: Dict): seq<string>
    requires Get(previous, "effects", JObject(map[])).JObject? && Get(current, "effects", JObject(map[])).JObject?
  {
    HpTexts(previous, current)
    + ToggleTexts(Flag(previous, "concentration"), Flag(current, "concentration"),
                  "концентрируется на заклинании", "теряет концентрацию")
    + ToggleTexts(Flag(previous, "incapacitated"), Flag(current, "incapacitated"),
                  "теряет возможность действовать", "снова может действовать")
  }

  /** The texts about one combatant seen in both payloads
      (Pui/player_ui.py:190-260), in the order they are logged: a changed
      state replaces the HP, concentration and incapacitation lines. */
  function CombatantTexts(previous: Dict, current: Dict): seq<string>
    requires WellFormedCombatant(previous) && WellFormedCombatant(current)
  {
    var ps := Get(previous, "state", JNull);
    var cs := Get(current, "state", JNull);
    (if ps != cs then [StateText(ps, cs)] else StatusTexts(previous, current)) + EffectTexts(previous, current)
  }

  function ActorLines(name: string, texts: seq<string>): (r: seq<string>)
    ensures |r| == |texts| && forall k :: 0 <= k < |texts| ==> r[k] == ActorLine(name, texts[k])
  {
    seq(|texts|, k requires 0 <= k < |texts| => ActorLine(name, texts[k]))
  }

  /** The log lines about one combatant. */
  function CombatantMessages(previous: Dict, current: Dict): seq<string>
    requires WellFormedCombatant(previous) && WellFormedCombatant(current)
  {
    ActorLines(UiName(current), CombatantTexts(previous, current))
  }

  const Damage: string := "получает урон"

  /** Damage is narrated exactly when the state stayed the same, HP or
      temporary HP changed between two ints, and neither went up
      (Pui/player_ui.py:212-233); no other line reads the same. */
  lemma DamageIsNarrated(previous: Dict, current: Dict)
    requires WellFormedCombatant(previous) && WellFormedCombatant(current)
    ensures var ph := AsInt(Get(previous, "hp", JNull));
            var ch := AsInt(Get(current, "hp", JNull));
            var pt := AsInt(Get(previous, "temp_hp", JInt(0)));
            var ct := AsInt(Get(current, "temp_hp", JInt(0)));
            Damage in CombatantTexts(previous, current)
            <==> Get(previous, "state", JNull) == Get(current, "state", JNull)
                 && ((ph.Some? && ch.Some? && ph != ch) || (pt.Some? && ct.Some? && pt != ct))
                 && !(ph.Some? && ch.Some? && ch.value > ph.value)
                 && !(pt.Some? && ct.Some? && ct.value > pt.value)
  {
    var ps := Get(previous, "state", JNull);
    var cs := Get(current, "state", JNull);
    EffectsAreNotDamage(previous, current);
    if ps != cs {
      StateIsNotDamage(ps, cs);
      assert CombatantTexts(previous, current) == [StateText(ps, cs)] + EffectTexts(previous, current);
    } else {
      StatusDamage(previous, current);
      assert CombatantTexts(previous, current) == StatusTexts(previous, current) + EffectTexts(previous, current);
    }
  }

  lemma EffectsAreNotDamage(previous: Dict, current: Dict)
    requires Get(previous, "custom_effects", JObject(map[])).JObject?
    requires Get(current, "custom_effects", JObject(map[])).JObject?
    ensures Damage !in EffectTexts(previous, current)
  {
    var effects := EffectTexts(previous, current);
    forall k | 0 <= k < |effects| ensures effects[k] != Damage {
      assert |effects[k]| > |Damage|;
    }
  }

  lemma StateIsNotDamage(ps: Json, cs: Json)
    requires StringOrNull(cs)
    ensures StateText(ps, cs) != Damage
  {
    if StateText(ps, cs) == "состояние " + TextOf(cs) {
      assert StateText(ps, cs)[0] != Damage[0];
    }
  }

  lemma StatusDamage(previous: Dict, current: Dict)
    requires Get(previous, "effects", JObject(map[])).JObject? && Get(current, "effects", JObject(map[])).JObject?
    ensures var hp := HpTexts(previous, current);
            Damage in StatusTexts(previous, current) <==> hp != [] && hp[0] == Damage
  {
    var hp := HpTexts(previous, current);
    var all := StatusTexts(previous, current);
    var rest := all[|hp|..];
    assert all == hp + rest;
    forall k | 0 <= k < |rest| ensures rest[k] != Damage {
      assert |rest[k]| > |Damage|;
    }
    assert Damage in hp <==> hp != [] && hp[0] == Damage;
  }

  /** A line about a custom effect. */
  predicate EffectLine(s: string) {
    StartsWith(s, "получает эффект ") || StartsWith(s, "теряет эффект ")
  }

  lemma NotAnEffectLine(s: string, previous: Dict, current: Dict)
    requires Get(previous, "custom_effects", JObject(map[])).JObject?
    requires Get(current, "custom_effects", JObject(map[])).JObject?
    requires !EffectLine(s)
    ensures s !in EffectTexts(previous, current)
  {
    var effects := EffectTexts(previous, current);
    assert forall k :: 0 <= k < |effects| ==> EffectLine(effects[k]);
  }

  /** `r` tells the names `added` (exactly the set `a`, in increasing order)
      as gained effects, then the names `removed` (exactly `d`, in
      increasing order) as lost ones. */
  ghost predicate OrderedEffectLines(r: seq<string>, a: set<string>, d: set<string>, added: seq<string>, removed: seq<string>) {
    StrictlySorted(added) && StrictlySorted(removed)
    && (forall x :: x in added <==> x in a) && (forall x :: x in removed <==> x in d)
    && r == Prefixed("получает эффект ", added) + Prefixed("теряет эффект ", removed)
  }

  /** The added effects are told first, one line per name in increasing
      order, then the removed ones in increasing order
      (Pui/player_ui.py:257-260). */
  lemma EffectTextsInOrder(previous: Dict, current: Dict)
    requires Get(previous, "custom_effects", JObject(map[])).JObject?
    requires Get(current, "custom_effects", JObject(map[])).JObject?
    ensures exists added: seq<string>, removed: seq<string> ::
              OrderedEffectLines(EffectTexts(previous, current),
                                 Names(current, "custom_effects") - Names(previous, "custom_effects"),
                                 Names(previous, "custom_effects") - Names(current, "custom_effects"),
                                 added, removed)
  {
    var a := Names(current, "custom_effects") - Names(previous, "custom_effects");
    var d := Names(previous, "custom_effects") - Names(current, "custom_effects");
    EffectTextsOfSorted(previous, current);
    assert OrderedEffectLines(EffectTexts(previous, current), a, d, SortedNames(a), SortedNames(d));
  }

  lemma EffectTextsOfSorted(previous: Dict, current: Dict)
    requires Get(previous, "custom_effects", JObject(map[])).JObject?
    requires Get(current, "custom_effects", JObject(map[])).JObject?
    ensures EffectTexts(previous, current)
            == Prefixed("получает эффект ", SortedNames(Names(current, "custom_effects") - Names(previous, "custom_effects")))
               + Prefixed("теряет эффект ", SortedNames(Names(previous, "custom_effects") - Names(current, "custom_effects")))
  {
  }

  const ConcentrationOn: string := "концентрируется на заклинании"
  const ConcentrationOff: string := "теряет концентрацию"
  const IncapacitatedOn: string := "теряет возможность действовать"
  const IncapacitatedOff: string := "снова может действовать"

  const Toggles: set<string> := {ConcentrationOn, ConcentrationOff, IncapacitatedOn, IncapacitatedOff}
  const HpPhrases: set<string> := {"восстанавливает HP", "получает временные HP", Damage, "теряет временные HP"}

  /** Every HP text is one of the four HP phrases. */
  lemma HpTextsArePhrases(previous: Dict, current: Dict)
    ensures forall k :: 0 <= k < |HpTexts(previous, current)| ==> HpTexts(previous, current)[k] in HpPhrases
  {
  }

  /** The toggle texts are neither HP phrases nor effect lines. */
  lemma ToggleIsNoPhrase(t: string)
    requires t in Toggles
    ensures t !in HpPhrases && !EffectLine(t)
  {
    assert ConcentrationOn[0] == 'к' && IncapacitatedOff[0] == 'с';
    assert ConcentrationOff[7] == 'к' && IncapacitatedOn[8] == 'о';
    assert "теряет временные HP"[7] == 'в' && "теряет временные HP"[8] == 'р';
    assert "теряет эффект "[7] == 'э';
  }

  /** None of the four toggle texts is an HP text or an effect line. */
  lemma ToggleTextsDistinct(previous: Dict, current: Dict, t: string)
    requires Get(previous, "custom_effects", JObject(map[])).JObject?
    requires Get(current, "custom_effects", JObject(map[])).JObject?
    requires t in Toggles
    ensures t !in HpTexts(previous, current) && t !in EffectTexts(previous, current)
  {
    ToggleIsNoPhrase(t);
    HpTextsArePhrases(previous, current);
    NotAnEffectLine(t, previous, current);
  }

  /** A change of state is told alone, before the effect lines; otherwise a
      concentration or incapacitation line is told exactly when that flag
      switched, in the direction it switched (Pui/player_ui.py:195-251). */
  lemma StateGatesToggles(previous: Dict, current: Dict)
    requires WellFormedCombatant(previous) && WellFormedCombatant(current)
    ensures var ps := Get(previous, "state", JNull);
            var cs := Get(current, "state", JNull);
            ps != cs ==> CombatantTexts(previous, current) == [StateText(ps, cs)] + EffectTexts(previous, current)
    ensures var t := CombatantTexts(previous, current);
            var pc := Flag(previous, "concentration");
            var cc := Flag(current, "concentration");
            var pi := Flag(previous, "incapacitated");
            var ci := Flag(current, "incapacitated");
            Get(previous, "state", JNull) == Get(current, "state", JNull) ==>
              (ConcentrationOn in t <==> !pc && cc) && (ConcentrationOff in t <==> pc && !cc)
              && (IncapacitatedOn in t <==> !pi && ci) && (IncapacitatedOff in t <==> pi && !ci)
  {
    if Get(previous, "state", JNull) == Get(current, "state", JNull) {
      var hp := HpTexts(previous, current);
      var conc := ToggleTexts(Flag(previous, "concentration"), Flag(current, "concentration"), ConcentrationOn, ConcentrationOff);
      var inc := ToggleTexts(Flag(previous, "incapacitated"), Flag(current, "incapacitated"), IncapacitatedOn, IncapacitatedOff);
      var e := EffectTexts(previous, current);
      assert CombatantTexts(previous, current) == hp + conc + inc + e;
      ToggleTextsDistinct(previous, current, ConcentrationOn);
      ToggleTextsDistinct(previous, current, ConcentrationOff);
      ToggleTextsDistinct(previous, current, IncapacitatedOn);
      ToggleTextsDistinct(previous, current, IncapacitatedOff);
    }
  }

  /** Coming back to life is told apart by where the combatant came from. */
  lemma ReturnPhrases(prev: Json)
    ensures StateText(JStr("dead"), JStr("alive")) == "воскресает"
    ensures StateText(JStr("left"), JStr("alive")) == "возвращается в бой"
    ensures prev != JStr("dead") && prev != JStr("left") ==> StateText(prev, JStr("alive")) == "приходит в себя"
  {
  }

  // ---------------------------------------------------------------------
  // Matching combatants by id
  // ---------------------------------------------------------------------

  predicate AllWellFormed(m: map<Json, Dict>) {
    forall x :: x in m ==> WellFormedCombatant(m[x])
  }

  /** `{c.get("id"): c for c in cs}`: every id maps to the last combatant
      carrying it. */
  function IdIndex(cs: seq<Dict>): (m: map<Json, Dict>)
    ensures forall k :: 0 <= k < |cs| ==> IdOf(cs[k]) in m
    ensures forall x :: x in m ==> m[x] in cs && IdOf(m[x]) == x
    ensures cs != [] ==> m[IdOf(cs[|cs| - 1])] == cs[|cs| - 1]
  {
    if cs == [] then map[]
    else
      var m := IdIndex(cs[..|cs| - 1]);
      assert forall c :: c in cs[..|cs| - 1] ==> c in cs;
      m[IdOf(cs[|cs| - 1]) := cs[|cs| - 1]]
  }

  /** The keys of that dict in insertion order: each id once, where it
      first occurs. */
  function IdOrder(cs: seq<Dict>): (r: seq<Json>)
    ensures forall x :: x in r ==> x in IdIndex(cs)
    ensures forall k :: 0 <= k < |cs| ==> IdOf(cs[k]) in r
    ensures forall i, j :: 0 <= i < j < |r| ==> r[i] != r[j]
  {
    if cs == [] then []
    else
      var o := IdOrder(cs[..|cs| - 1]);
      var x := IdOf(cs[|cs| - 1]);
      assert forall k :: 0 <= k < |cs| - 1 ==> cs[k] == cs[..|cs| - 1][k];
      if x in o then o else o + [x]
  }

  /** The lines for the ids of `order`, in that order; an id the previous
      payload did not have gives none. */
  function DiffOver(order: seq<Json>, previous: map<Json, Dict>, current: map<Json, Dict>): seq<string>
    requires forall x :: x in order ==> x in current
    requires AllWellFormed(previous) && AllWellFormed(current)
  {
    if order == [] then []
    else
      var x := order[|order| - 1];
      DiffOver(order[..|order| - 1], previous, current)
      + (if x in previous then CombatantMessages(previous[x], current[x]) else [])
  }

  /** `_collect_diff_logs` (Pui/player_ui.py:172-260) on values: the lines
      logged for `payload` after `prev`. */
  function DiffMessages(prev: Option<Dict>, payload: Dict): (r: seq<string>)
    requires WellFormedPayload(payload) && (prev.Some? ==> WellFormedPayload(prev.value))
  {
    if prev.None? then []
    else
      var curr := Combatants(payload);
      DiffOver(IdOrder(curr), IdIndex(Combatants(prev.value)), IdIndex(curr))
  }

  /** Combatants that are new in this payload produce no lines. */
  lemma {:induction false} NewcomersAreSilent(order: seq<Json>, previous: map<Json, Dict>, current: map<Json, Dict>)
    requires forall x :: x in order ==> x in current
    requires AllWellFormed(previous) && AllWellFormed(current)
    requires forall x :: x in order ==> x !in previous
    ensures DiffOver(order, previous, current) == []
    decreases |order|
  {
    if order != [] {
      NewcomersAreSilent(order[..|order| - 1], previous, current);
    }
  }

  /** Nothing is narrated without a previous payload, or when no id of the
      new payload was in the previous one (Pui/player_ui.py:173-188). */
  lemma DiffNeedsKnownIds(prev: Option<Dict>, payload: Dict)
    requires WellFormedPayload(payload) && (prev.Some? ==> WellFormedPayload(prev.value))
    requires prev.Some? ==> forall c, d :: c in Combatants(payload) && d in Combatants(prev.value) ==> IdOf(c) != IdOf(d)
    ensures DiffMessages(prev, payload) == []
  {
    if prev.Some? {
      var curr := Combatants(payload);
      var before := IdIndex(Combatants(prev.value));
      forall x | x in IdOrder(curr) ensures x !in before {
        assert x in IdIndex(curr);
      }
      NewcomersAreSilent(IdOrder(curr), before, IdIndex(curr));
    }
  }

  // ---------------------------------------------------------------------
  // The display state
  // ---------------------------------------------------------------------

  /** The fields of `PlayerUiState` that its methods change. */
  datatype Ui = Ui(running: bool, round: int, prev: Option<Dict>, activeIds: seq<Json>,
                   log: seq<string>, clearPending: bool)

  /** The lines pushed when the fight starts or ends (Pui/player_ui.py:269-275). */
  function Transition(wasRunning: bool, running: bool): seq<string> {
    if running && !wasRunning then ["Бой начался"]
    else if !running && wasRunning then ["Бой закончен"]
    else []
  }

  /** `update_state` (Pui/player_ui.py:262-285) on values: an unreadable
      round fails before anything changes; otherwise the diff lines, then
      the start or end line, are logged and the payload is remembered. */
  function Updated(u: Ui, payload: Dict): (r: Result<Ui>)
    requires WellFormedPayload(payload) && (u.prev.Some? ==> WellFormedPayload(u.prev.value))
    ensures r.Fail? <==> IntOf(Get(payload, "round", JInt(0))).Fail?
    ensures r.Ok? ==> r.value.prev == Some(payload)
                      && r.value.running == Truthy(Get(payload, "running", JBool(false)))
                      && r.value.log == PushAll(u.log, DiffMessages(u.prev, payload) + Transition(u.running, r.value.running))
    ensures "round" !in payload ==> r.Ok? && r.value.round == 0
  {
    var running := Truthy(Get(payload, "running", JBool(false)));
    var roundValue := IntOf(Get(payload, "round", JInt(0)));
    if roundValue.Fail? then Fail(roundValue.error)
    else
      var clear := if running && !u.running then false else if !running && u.running then true else u.clearPending;
      Ok(Ui(running, roundValue.value, Some(payload), ActiveIdList(payload),
            PushAll(u.log, DiffMessages(u.prev, payload) + Transition(u.running, running)), clear))
  }

  /** A fight that starts is announced after the lines about what changed,
      so the announcement is the newest line; an end likewise, and the
      logs are then due to be cleared. */
  lemma AnnouncementIsNewest(u: Ui, payload: Dict)
    requires WellFormedPayload(payload) && (u.prev.Some? ==> WellFormedPayload(u.prev.value))
    requires Updated(u, payload).Ok?
    ensures var v := Updated(u, payload).value;
            (v.running && !u.running ==> v.log[0] == "Бой начался" && !v.clearPending)
            && (!v.running && u.running ==> v.log[0] == "Бой закончен" && v.clearPending)
  {
    var v := Updated(u, payload).value;
    var lines := DiffMessages(u.prev, payload) + Transition(u.running, v.running);
    RollingLog(u.log, lines);
    if v.running != u.running {
      assert lines[|lines| - 1] == Transition(u.running, v.running)[0];
      assert NewestFirst(lines)[0] == lines[|lines| - 1];
    }
  }

  /** The payload a tick uses when there is nothing readable and nothing
      was read before (Pui/player_ui.py:313-315). */
  const Fallback: Dict := map["running" := JBool(false), "round" := JInt(0)]

  /** With nothing read yet, an unreadable file shows a display that is not
      running, in round 0, and logs nothing but a possible end of fight. */
  lemma FallbackStops(u: Ui)
    requires u.prev.Some? ==> WellFormedPayload(u.prev.value)
    ensures WellFormedPayload(Fallback) && Combatants(Fallback) == []
    ensures var r := Updated(u, Fallback);
            r.Ok? && !r.value.running && r.value.round == 0
            && r.value.log == PushAll(u.log, Transition(u.running, false))
  {
    assert Combatants(Fallback) == [];
    if u.prev.Some? {
      assert IdOrder(Combatants(Fallback)) == [];
    }
    assert DiffMessages(u.prev, Fallback) == [];
  }

  /** A successful `update_state` in the order the method takes its steps:
      the diff lines are pushed, then the start or end line, and the log
      keeps its three lines. */
  lemma UpdatedOk(u: Ui, payload: Dict, log: seq<string>, clear: bool)
    requires WellFormedPayload(payload) && (u.prev.Some? ==> WellFormedPayload(u.prev.value))
    requires IntOf(Get(payload, "round", JInt(0))).Ok?
    requires var running := Truthy(Get(payload, "running", JBool(false)));
             log == PushAll(PushAll(u.log, DiffMessages(u.prev, payload)), Transition(u.running, running))
             && clear == (if running && !u.running then false else if !running && u.running then true else u.clearPending)
    ensures Updated(u, payload) == Ok(Ui(Truthy(Get(payload, "running", JBool(false))),
                                         IntOf(Get(payload, "round", JInt(0))).value,
                                         Some(payload), ActiveIdList(payload), log, clear))
    ensures |u.log| == 3 ==> |log| == 3
  {
    var lines := DiffMessages(u.prev, payload) + Transition(u.running, Truthy(Get(payload, "running", JBool(false))));
    PushAllAppend(u.log, DiffMessages(u.prev, payload), Transition(u.running, Truthy(Get(payload, "running", JBool(false)))));
    if |u.log| == 3 {
      PushAllKeepsThree(u.log, lines);
    }
  }

  /** `load_state` (Pui/player_ui.py:288-295): the decoded document, None
      when the file could not be read or decoded (`decoded` is None) or does
      not hold a dict. */
  function LoadState(decoded: Option<Json>): (r: Option<Dict>)
    ensures r.Some? <==> decoded.Some? && decoded.value.JObject?
    ensures r.Some? ==> r.value == decoded.value.fields
  {
    if decoded.Some? && decoded.value.JObject? then Some(decoded.value.fields) else None
  }

  class PlayerUiState {
    var running: bool
    var round: int
    var prevPayload: Option<Dict>
    var activeIds: seq<Json>
    var logLines: seq<string>
    /** Whether the single-shot timer that clears the log is running. */
    var clearPending: bool

    function View(): Ui
      reads this
    {
      Ui(running, round, prevPayload, activeIds, logLines, clearPending)
    }

    predicate Valid()
      reads this
    {
      |logLines| == 3 && (prevPayload.Some? ==> WellFormedPayload(prevPayload.value))
    }

    /** `PlayerUiState(model)` (Pui/player_ui.py:122-132). */
    constructor ()
      ensures Valid() && View() == Ui(false, 0, None, [], EmptyLog, false)
    {
      running := false;
      round := 0;
      prevPayload := None;
      activeIds := [];
      logLines := EmptyLog;
      clearPending := false;
    }

    /** `_push_log` (Pui/player_ui.py:162-166). */
    method PushLog(message: string)
      modifies this`logLines
      ensures logLines == Pushed(old(logLines), message)
    {
      if message == "" {
        return;
      }
      logLines := [message] + Take(logLines, 2);
    }

    /** `_clear_logs` (Pui/player_ui.py:168-170), run when the timer fires. */
    method ClearLogs()
      modifies this`logLines, this`clearPending
      ensures logLines == EmptyLog && !clearPending
    {
      logLines := EmptyLog;
      clearPending := false;
    }

    /** One `_actor_log` after another. */
    method PushLines(lines: seq<string>)
      modifies this`logLines
      ensures logLines == PushAll(old(logLines), lines)
    {
      for i := 0 to |lines|
        invariant logLines == PushAll(old(logLines), lines[..i])
      {
        PushLog(lines[i]);
        assert lines[..i + 1][..i] == lines[..i];
      }
      assert lines[..|lines|] == lines;
    }

    /** `_collect_diff_logs` (Pui/player_ui.py:172-260). */
    method CollectDiffLogs(payload: Dict)
      requires WellFormedPayload(payload) && (prevPayload.Some? ==> WellFormedPayload(prevPayload.value))
      modifies this`logLines
      ensures logLines == PushAll(old(logLines), DiffMessages(prevPayload, payload))
    {
      if prevPayload.None? {
        return;
      }
      var curr := Combatants(payload);
      PushDiffs(IdOrder(curr), IdIndex(Combatants(prevPayload.value)), IdIndex(curr));
    }

    /** The loop of `_collect_diff_logs` over the ids of the new payload
        (Pui/player_ui.py:181-260). */
    method PushDiffs(order: seq<Json>, previous: map<Json, Dict>, current: map<Json, Dict>)
      requires forall x :: x in order ==> x in current
      requires AllWellFormed(previous) && AllWellFormed(current)
      modifies this`logLines
      ensures logLines == PushAll(old(logLines), DiffOver(order, previous, current))
    {
      for k := 0 to |order|
        invariant logLines == PushAll(old(logLines), DiffOver(order[..k], previous, current))
      {
        var id := order[k];
        assert order[..k + 1][..k] == order[..k];
        var lines := if id in previous then CombatantMessages(previous[id], current[id]) else [];
        PushAllAppend(old(logLines), DiffOver(order[..k], previous, current), lines);
        PushLines(lines);
      }
      assert order[..|order|] == order;
    }

    /** The start or end line, and the clear-logs timer
        (Pui/player_ui.py:269-275). */
    method Announce(wasRunning: bool, isRunning: bool)
      modifies this`logLines, this`clearPending
      ensures logLines == PushAll(old(logLines), Transition(wasRunning, isRunning))
      ensures clearPending == if isRunning && !wasRunning then false
                              else if !isRunning && wasRunning then true
                              else old(clearPending)
    {
      if isRunning && !wasRunning {
        clearPending := false;
        PushLog("Бой начался");
      } else if !isRunning && wasRunning {
        PushLog("Бой закончен");
        clearPending := true;
      }
    }

    /** `update_state` (Pui/player_ui.py:262-285); `error` is the exception
        `int(round)` raised, in which case nothing changed. */
    method UpdateState(payload: Dict) returns (error: Option<Error>)
      requires Valid() && WellFormedPayload(payload)
      modifies this
      ensures Valid()
      ensures var r := Updated(old(View()), payload);
              (r.Ok? ==> View() == r.value && error.None?)
              && (r.Fail? ==> View() == old(View()) && error == Some(r.error))
    {
      var isRunning := Truthy(Get(payload, "running", JBool(false)));
      var roundValue := IntOf(Get(payload, "round", JInt(0)));
      if roundValue.Fail? {
        return Some(roundValue.error);
      }
      Apply(payload, isRunning, roundValue.value);
      error := None;
    }

    /** The part of `update_state` after `int(round)` has succeeded
        (Pui/player_ui.py:266-285). */
    method Apply(payload: Dict, isRunning: bool, roundValue: int)
      requires Valid() && WellFormedPayload(payload)
      requires isRunning == Truthy(Get(payload, "running", JBool(false)))
      requires IntOf(Get(payload, "round", JInt(0))) == Ok(roundValue)
      modifies this
      ensures Valid()
      ensures Updated(old(View()), payload) == Ok(View())
    {
      LogUpdate(payload, isRunning);
      running := isRunning;
      round := roundValue;
      var ids := Get(payload, "active_ids", JList([]));
      activeIds := if Truthy(ids) then ids.items else [];
      prevPayload := Some(payload);
    }

    /** The log lines of `update_state` (Pui/player_ui.py:266-275): the
        diff lines, then the start or end line. */
    method LogUpdate(payload: Dict, isRunning: bool)
      requires Valid() && WellFormedPayload(payload)
      requires isRunning == Truthy(Get(payload, "running", JBool(false)))
      requires IntOf(Get(payload, "round", JInt(0))).Ok?
      modifies this`logLines, this`clearPending
      ensures |logLines| == 3
      ensures Updated(old(View()), payload)
              == Ok(Ui(isRunning, IntOf(Get(payload, "round", JInt(0))).value, Some(payload),
                       ActiveIdList(payload), logLines, clearPending))
    {
      ghost var before := View();
      var wasRunning := running;
      CollectDiffLogs(payload);
      Announce(wasRunning, isRunning);
      UpdatedOk(before, payload, logLines, clearPending);
    }
  }

  /** The closure `tick` of `main` (Pui/player_ui.py:309-321). */
  class Viewer {
    const state: PlayerUiState
    const model: CombatantModel
    var lastPayload: Option<Dict>

    constructor (state: PlayerUiState, model: CombatantModel)
      ensures this.state == state && this.model == model && lastPayload == None
    {
      this.state := state;
      this.model := model;
      lastPayload := None;
    }

    /** One poll; `loaded` is what `load_state` returned. Nothing readable:
        the fallback state is shown while nothing was ever read, otherwise
        the display stays as it is. A readable payload is remembered, then
        shown; when its round cannot be read, the exception leaves the rows
        as they were. */
    method Tick(loaded: Option<Dict>)
      requires state.Valid() && (loaded.Some? ==> WellFormedPayload(loaded.value))
      modifies this`lastPayload, state, model
      ensures state.Valid()
      ensures loaded.None? && old(lastPayload).None? ==>
                lastPayload == None && state.View() == Updated(old(state.View()), Fallback).value && model.items == []
      ensures loaded.None? && old(lastPayload).Some? ==>
                lastPayload == old(lastPayload) && state.View() == old(state.View()) && model.items == old(model.items)
      ensures loaded.Some? ==>
                lastPayload == loaded
                && var r := Updated(old(state.View()), loaded.value);
                   (r.Fail? ==> state.View() == old(state.View()) && model.items == old(model.items))
                   && (r.Ok? ==> state.View() == r.value
                                 && model.items == BuiltItems(Combatants(loaded.value), ActiveIdList(loaded.value)))
    {
      if loaded.None? {
        if lastPayload.None? {
          FallbackStops(state.View());
          var _ := state.UpdateState(Fallback);
          model.UpdateItems([], []);
        }
        return;
      }
      var payload := loaded.value;
      lastPayload := loaded;
      var error := state.UpdateState(payload);
      if error.Some? {
        return;
      }
      var combatants := Combatants(payload);
      var activeIds := Get(payload, "active_ids", JList([])).items;
      model.UpdateItems(combatants, activeIds);
    }
  }
}
