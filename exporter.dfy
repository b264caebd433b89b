/** battle_state_exporter.py: the snapshot of the fight that the DM side
    publishes for the players' display.

    A snapshot (`payload`) lists every combatant of the roster with its
    hit points, state and effects, the round, and the ids of the members of
    the group that acted last. `_tick` writes it only when it differs from
    the one written before; outside combat, and on `stop`, the file receives
    the empty document instead. The file itself is a ghost log of the
    documents written, in order; `time.time()` is a parameter of the tick and
    `id(combatant)` is the combatant's constant `addr`. */
module StateExporter {
  import opened Wrappers
  import opened Text
  import opened Combatants
  import opened BattleEngine

  /** The `effects` object of one exported combatant. */
  datatype StatusFlags = StatusFlags(tempHp: bool, concentration: bool, dead: bool,
                                     unconscious: bool, incapacitated: bool)

  /** One element of the exported `combatants` list. */
  datatype Entry = Entry(id: string, name: string, displayName: string, kind: string,
                         hp: Option<int>, maxHp: Option<int>, tempHp: int, state: string,
                         effects: StatusFlags, customEffects: map<string, Option<int>>)

  /** The document written while a fight is on (`"running": true`). */
  datatype Payload = Payload(timestamp: real, round: int, activeIds: seq<string>, combatants: seq<Entry>)

  /** What one write leaves in the file: the empty document of
      `_write_empty`, or a payload. */
  datatype Document = Stopped | Published(payload: Payload)

  // ---------------------------------------------------------------------
  // Ids and names
  // ---------------------------------------------------------------------

  /** `_combatant_id` (battle_state_exporter.py:152-153): `"id_"` and the
      decimal object address. */
  function CombatantId(addr: nat): (r: string)
    ensures |r| > 3 && r[..3] == "id_"
  {
    "id_" + NatToString(addr)
  }

  /** Different objects get different ids. */
  lemma CombatantIdInjective(a: nat, b: nat)
    requires CombatantId(a) == CombatantId(b)
    ensures a == b
  {
    assert CombatantId(a)[3..] == NatToString(a);
    assert CombatantId(b)[3..] == NatToString(b);
    NatToStringValue(a);
    NatToStringValue(b);
  }

  /** `c.custom_name or c.name`. */
  function ShownName(c: Combatant): (r: string)
    reads c`customName, c`name
    ensures c.customName != "" ==> r == c.customName
    ensures c.customName == "" ==> r == c.name
  {
    if c.customName != "" then c.customName else c.name
  }

  /** The exported `kind` of each class. */
  function KindText(k: Kind): string {
    match k
    case Player => "player"
    case Monster => "monster"
    case Base => "combatant"
  }

  /** `s` without its trailing run of digits. */
  function DropDigits(s: string): (r: string)
    ensures |r| <= |s| && r == s[..|r|]
    ensures forall k :: |r| <= k < |s| ==> IsDigit(s[k])
    ensures r != [] ==> !IsDigit(r[|r| - 1])
  {
    if s != [] && IsDigit(s[|s| - 1]) then DropDigits(s[..|s| - 1]) else s
  }

  /** A text that the regular expression `\s*\d+` matches as a whole:
      whitespace, then at least one digit. */
  predicate NumberSuffix(t: string) {
    t != [] && IsDigit(t[|t| - 1])
    && (forall i :: 0 <= i < |t| ==> IsDigit(t[i]) || IsSpace(t[i]))
    && (forall i, j :: 0 <= i < j < |t| && IsDigit(t[i]) ==> IsDigit(t[j]))
  }

  /** `c` is `t` with the longest suffix matching `\s*\d+` removed. */
  predicate LongestNumberCut(t: string, c: string) {
    |c| < |t| && c == t[..|c|] && NumberSuffix(t[|c|..])
    && (c == [] || !NumberSuffix(t[|c| - 1..]))
  }

  /** `t` with the match of `\s*\d+$` cut off, for `t` ending in a digit:
      the leftmost match, which is the longest suffix of that form. */
  function CutNumber(t: string): (r: string)
    requires t != [] && IsDigit(t[|t| - 1])
    ensures LongestNumberCut(t, r)
  {
    var d := DropDigits(t);
    CutIsNumber(t, d, StripRight(d));
    CutIsLongest(t, d, StripRight(d));
    StripRight(d)
  }

  lemma CutIsNumber(t: string, d: string, r: string)
    requires t != [] && IsDigit(t[|t| - 1])
    requires d == DropDigits(t) && r == StripRight(d)
    ensures |r| < |t| && r == t[..|r|]
    ensures NumberSuffix(t[|r|..])
  {
    assert |d| < |t|;
    assert d[..|r|] == r;
    forall k | |r| <= k < |d| ensures IsSpace(t[k]) {
      assert t[k] == d[k];
    }
    NumberSuffixOfParts(t, |r|, |d|);
  }

  /** Whitespace from `a` to `b` and digits from `b` to the end make a
      number suffix. */
  lemma NumberSuffixOfParts(t: string, a: nat, b: nat)
    requires a <= b < |t|
    requires forall k :: a <= k < b ==> IsSpace(t[k])
    requires forall k :: b <= k < |t| ==> IsDigit(t[k])
    ensures NumberSuffix(t[a..])
  {
    var u := t[a..];
    assert forall k :: 0 <= k < |u| ==> u[k] == t[a + k];
  }

  lemma CutIsLongest(t: string, d: string, r: string)
    requires t != [] && IsDigit(t[|t| - 1])
    requires d == DropDigits(t) && r == StripRight(d)
    ensures r == [] || !NumberSuffix(t[|r| - 1..])
  {
    if r != [] {
      var v := t[|r| - 1..];
      assert d[..|r|] == r;
      assert v[0] == r[|r| - 1];
      if IsDigit(v[0]) && |r| < |d| {
        assert v[1] == d[|r|];
        assert IsSpace(v[1]);
      }
    }
  }

  /** `re.sub(r"\s*\d+$", "", s)`: the longest suffix of whitespace followed
      by digits is removed, where `$` also matches just before a final
      newline, which then stays; a text with no such suffix is unchanged. */
  function TrailingNumberRemoved(s: string): (r: string)
    ensures s != [] && IsDigit(s[|s| - 1]) ==> LongestNumberCut(s, r)
    ensures |s| >= 2 && s[|s| - 1] == '\n' && IsDigit(s[|s| - 2]) ==>
              r != [] && r[|r| - 1] == '\n' && LongestNumberCut(s[..|s| - 1], r[..|r| - 1])
    ensures !(s != [] && IsDigit(s[|s| - 1])) && !(|s| >= 2 && s[|s| - 1] == '\n' && IsDigit(s[|s| - 2])) ==>
              r == s
  {
    if s != [] && IsDigit(s[|s| - 1]) then CutNumber(s)
    else if |s| >= 2 && s[|s| - 1] == '\n' && IsDigit(s[|s| - 2]) then
      var c := CutNumber(s[..|s| - 1]);
      assert (c + "\n")[..|c|] == c;
      c + "\n"
    else s
  }

  /** `_display_name` (battle_state_exporter.py:108-113): for a monster, the
      shown name without its trailing number and surrounding whitespace,
      unless nothing would be left; everybody else keeps the shown name. */
  function DisplayName(kind: Kind, shown: string): (r: string)
    ensures kind != Monster ==> r == shown
    ensures r == [] ==> shown == []
  {
    if kind != Monster then shown
    else
      var cleaned := Strip(TrailingNumberRemoved(shown));
      if cleaned != [] then cleaned else shown
  }

  lemma {:induction false} DropDigitsOfNumber(p: string, d: string)
    requires forall k :: 0 <= k < |d| ==> IsDigit(d[k])
    requires p == [] || !IsDigit(p[|p| - 1])
    ensures DropDigits(p + d) == p
    decreases |d|
  {
    if d != [] {
      var s := p + d;
      assert s[..|s| - 1] == p + d[..|d| - 1];
      DropDigitsOfNumber(p, d[..|d| - 1]);
    } else {
      assert p + d == p;
    }
  }

  /** The monsters of the factory are called `"<name> <i>"`; the display
      name that reaches the players is `<name>` again, for a name without
      surrounding whitespace that does not end in a digit. */
  lemma DisplayNameOfNumbered(base: string, i: nat)
    requires base != [] && !IsSpace(base[0]) && !IsSpace(base[|base| - 1]) && !IsDigit(base[|base| - 1])
    ensures DisplayName(Monster, base + " " + NatToString(i)) == base
  {
    var digits := NatToString(i);
    var s := base + " " + digits;
    assert s == (base + " ") + digits;
    DropDigitsOfNumber(base + " ", digits);
    assert (base + " ")[..|base|] == base;
    assert StripRight(base + " ") == base;
    assert TrailingNumberRemoved(s) == base;
    StripOfUnpadded(base);
  }

  // ---------------------------------------------------------------------
  // The per-combatant projection
  // ---------------------------------------------------------------------

  /** `{name: {"duration": d}}` for the entries of `custom_effects`. */
  function Durations(m: map<string, CustomEffect>): (r: map<string, Option<int>>)
    ensures r.Keys == m.Keys
    ensures forall n :: n in m ==> r[n] == m[n].duration
  {
    map n | n in m :: m[n].duration
  }

  /** One element of `_build_combatants` (battle_state_exporter.py:81-104). */
  function EntryOf(c: Combatant): (e: Entry)
    reads c
  {
    Entry(CombatantId(c.addr), ShownName(c), DisplayName(c.kind, ShownName(c)), KindText(c.kind),
          c.hp, c.maxHp, c.tempHp, c.state.Text(),
          StatusFlags(c.hp.Some? && c.tempHp > 0, c.concentration, c.state == Dead,
                      c.state == Unconscious, c.Incapacitated()),
          Durations(c.customEffects))
  }

  /** The exported list for the roster `cs`: one entry per combatant, in
      roster order (battle_state_exporter.py:79-106). */
  function Entries(cs: seq<Combatant>): (r: seq<Entry>)
    reads set c | c in cs
    ensures |r| == |cs|
  {
    if cs == [] then [] else Entries(cs[..|cs| - 1]) + [EntryOf(cs[|cs| - 1])]
  }

  /** The fields of one exported entry: the id from `id(c)`, `custom_name
      or name`, the kind of object, the HP fields as they are, and the
      flags mirroring the state (`temp_hp` only for a tracked HP with a
      positive buffer). */
  lemma EntryFields(c: Combatant)
    ensures var e := EntryOf(c);
            && e.id == CombatantId(c.addr)
            && (c.customName != "" ==> e.name == c.customName) && (c.customName == "" ==> e.name == c.name)
            && e.displayName == DisplayName(c.kind, e.name)
            && (e.kind == "player" <==> c.kind == Player) && (e.kind == "monster" <==> c.kind == Monster)
            && e.hp == c.hp && e.maxHp == c.maxHp && e.tempHp == c.tempHp && e.state == c.state.Text()
            && (e.effects.tempHp <==> c.hp.Some? && c.tempHp > 0)
            && e.effects.concentration == c.concentration
            && (e.effects.dead <==> c.state == Dead) && (e.effects.unconscious <==> c.state == Unconscious)
            && e.effects.incapacitated == c.Incapacitated()
            && e.customEffects.Keys == c.customEffects.Keys
  {
  }

  /** Entry `i` of the exported list is the entry of roster member `i`. */
  lemma {:induction false} EntriesAt(cs: seq<Combatant>, i: nat)
    requires i < |cs|
    ensures Entries(cs)[i] == EntryOf(cs[i])
    decreases |cs|
  {
    var init := cs[..|cs| - 1];
    assert Entries(cs) == Entries(init) + [EntryOf(cs[|cs| - 1])];
    if i < |cs| - 1 {
      EntriesAt(init, i);
      assert init[i] == cs[i];
    }
  }

  /** The ids of the members of `g` that are able to act, in group order. */
  function ActiveIds(g: seq<Combatant>): (r: seq<string>)
    reads (set c | c in g)`incapacitatedFlag, (set c | c in g)`state
    ensures |r| <= |g|
  {
    if g == [] then []
    else
      var c := g[|g| - 1];
      assert forall x :: x in g[..|g| - 1] ==> x in g;
      ActiveIds(g[..|g| - 1]) + (if c.Incapacitated() then [] else [CombatantId(c.addr)])
  }

  /** An id is active exactly when it belongs to a member who can act
      (battle_state_exporter.py:141-146). */
  lemma {:induction false} ActiveIdsMembers(g: seq<Combatant>)
    ensures forall x :: x in ActiveIds(g) <==> exists c :: c in g && !c.Incapacitated() && x == CombatantId(c.addr)
  {
    if g != [] {
      var p := g[..|g| - 1];
      var c := g[|g| - 1];
      ActiveIdsMembers(p);
      assert g == p + [c];
      forall x | x in ActiveIds(g)
        ensures exists d :: d in g && !d.Incapacitated() && x == CombatantId(d.addr)
      {
        if x in ActiveIds(p) {
          var d :| d in p && !d.Incapacitated() && x == CombatantId(d.addr);
          assert d in g;
        } else {
          assert !c.Incapacitated() && x == CombatantId(c.addr);
        }
      }
      forall x | exists d :: d in g && !d.Incapacitated() && x == CombatantId(d.addr)
        ensures x in ActiveIds(g)
      {
        var d :| d in g && !d.Incapacitated() && x == CombatantId(d.addr);
        if d != c {
          assert d in p;
        }
      }
    }
  }

  /** The group `_get_active_group_ids` reads (battle_state_exporter.py:133-139):
      the one before the cursor, the last one when the cursor is at 0, none
      when there are no groups. */
  function PreviousIndex(currentIndex: nat, n: nat): (r: Option<nat>)
    ensures r.Some? ==> r.value < n
    ensures n > 0 && currentIndex <= n ==> r.Some?
    ensures n == 0 ==> r.None?
  {
    var idx: int := currentIndex - 1;
    var idx := if idx < 0 then n - 1 else idx;
    if idx < 0 || idx >= n then None else Some(idx)
  }

  /** After a turn the cursor stands just past the group that acted, so the
      group the exporter shows as active is exactly the one `next_turn`
      returned. */
  lemma {:induction false} PreviousOfScan(flags: seq<bool>, index: nat, round: int, checked: nat)
    requires index < |flags| && checked <= |flags|
    ensures var t := Scan(flags, index, round, checked);
            t.found.Some? ==> PreviousIndex(t.index, |flags|) == t.found
    decreases |flags| - checked
  {
    if checked < |flags| && !flags[index] {
      var next := Step(|flags|, index, round);
      PreviousOfScan(flags, next.0, next.1, checked + 1);
    }
  }

  /** `_get_active_group_ids` (battle_state_exporter.py:126-146). */
  function ActiveGroupIds(e: Engine): (r: seq<string>)
    reads e, set g, c | g in e.groups && c in g :: c
    ensures !e.inCombat || e.groups == [] ==> r == []
  {
    if !e.inCombat then []
    else
      match PreviousIndex(e.currentIndex, |e.groups|)
      case None => []
      case Some(i) =>
        assert forall c :: c in e.groups[i] ==> c in set g, c | g in e.groups && c in g :: c;
        ActiveIds(e.groups[i])
  }

  /** The payload `_tick` builds (battle_state_exporter.py:56-65). */
  function Snapshot(e: Engine, timestamp: real): (p: Payload)
    reads e, set c | c in e.combatants, set g, c | g in e.groups && c in g :: c
    ensures |p.combatants| == |e.combatants| && p.round == e.round && p.timestamp == timestamp
  {
    Payload(timestamp, e.round, ActiveGroupIds(e), Entries(e.combatants))
  }

  // ---------------------------------------------------------------------
  // The builders, as the loops they are
  // ---------------------------------------------------------------------

  /** `_export_custom_effects` (battle_state_exporter.py:115-124). */
  method ExportCustomEffects(c: Combatant) returns (exported: map<string, Option<int>>)
    ensures exported == Durations(c.customEffects)
  {
    var effects := c.customEffects;
    var names := effects.Keys;
    exported := map[];
    while names != {}
      invariant names <= effects.Keys
      invariant exported.Keys == effects.Keys - names
      invariant forall n :: n in exported ==> exported[n] == effects[n].duration
      decreases |names|
    {
      var name :| name in names;
      exported := exported[name := effects[name].duration];
      names := names - {name};
    }
  }

  /** One entry of `_build_combatants` (battle_state_exporter.py:78-105). */
  method BuildEntry(c: Combatant) returns (entry: Entry)
    ensures entry == EntryOf(c)
  {
    var custom := ExportCustomEffects(c);
    var kind := if c.kind == Player then "player" else if c.kind == Monster then "monster" else "combatant";
    var shown := if c.customName != "" then c.customName else c.name;
    entry := Entry(CombatantId(c.addr), shown, DisplayName(c.kind, shown), kind,
                   c.hp, c.maxHp, c.tempHp, c.state.Text(),
                   StatusFlags(c.hp.Some? && c.tempHp > 0, c.concentration, c.state == Dead,
                               c.state == Unconscious, c.Incapacitated()),
                   custom);
  }

  /** `_build_combatants` (battle_state_exporter.py:76-106). */
  method BuildCombatants(roster: seq<Combatant>) returns (result: seq<Entry>)
    ensures result == Entries(roster)
  {
    result := [];
    for i := 0 to |roster|
      invariant result == Entries(roster[..i])
    {
      var entry := BuildEntry(roster[i]);
      assert roster[..i + 1][..i] == roster[..i];
      result := result + [entry];
    }
    assert roster[..|roster|] == roster;
  }

  // ---------------------------------------------------------------------
  // The publisher
  // ---------------------------------------------------------------------

  /** One `_tick` on values: what it writes (None: nothing) and what it then
      remembers as `_prev_payload`, given what it remembered before and the
      engine's snapshot (None outside combat). */
  function TickStep(prev: Option<Payload>, snapshot: Option<Payload>): (r: (Option<Document>, Option<Payload>))
    ensures snapshot.None? ==> r == (Some(Stopped), None)
    ensures snapshot.Some? ==> r.1 == snapshot
    ensures snapshot.Some? ==> (r.0.None? <==> prev == snapshot)
    ensures r.0.Some? && snapshot.Some? ==> r.0.value == Published(snapshot.value)
  {
    if snapshot.None? then (Some(Stopped), None)
    else if snapshot == prev then (None, prev)
    else (Some(Published(snapshot.value)), snapshot)
  }

  /** Ticking again on an unchanged fight (and an equal timestamp) writes
      nothing; outside combat every tick writes the empty document. */
  lemma RepeatedTick(prev: Option<Payload>, snapshot: Option<Payload>)
    ensures var (written, remembered) := TickStep(prev, snapshot);
            snapshot.Some? ==> TickStep(remembered, snapshot).0 == None
    ensures var (written, remembered) := TickStep(prev, snapshot);
            snapshot.None? ==> written == Some(Stopped) && TickStep(remembered, snapshot).0 == Some(Stopped)
  {
  }

  /** The log of documents that a sequence of ticks writes. */
  function Writes(prev: Option<Payload>, snapshots: seq<Option<Payload>>): seq<Document>
    decreases |snapshots|
  {
    if snapshots == [] then []
    else
      var (w, next) := TickStep(prev, snapshots[0]);
      (if w.Some? then [w.value] else []) + Writes(next, snapshots[1..])
  }

  /** Two payloads written one after the other by ticks with no empty
      document in between always differ: the file never receives the same
      payload twice in a row. */
  lemma {:induction false} NoRepeatedPublication(prev: Option<Payload>, snapshots: seq<Option<Payload>>)
    ensures var w := Writes(prev, snapshots);
            forall i :: 0 <= i < |w| - 1 && w[i].Published? && w[i + 1].Published? ==> w[i] != w[i + 1]
    ensures var w := Writes(prev, snapshots);
            prev.Some? && w != [] && w[0].Published? ==> w[0].payload != prev.value
    decreases |snapshots|
  {
    if snapshots != [] {
      var (w0, next) := TickStep(prev, snapshots[0]);
      NoRepeatedPublication(next, snapshots[1..]);
      var rest := Writes(next, snapshots[1..]);
      var w := Writes(prev, snapshots);
      assert w == (if w0.Some? then [w0.value] else []) + rest;
      if w0.Some? && w0.value.Published? && rest != [] && rest[0].Published? {
        assert next == Some(w0.value.payload);
      }
    }
  }

  class Publisher {
    const engine: Engine
    /** `_running`: whether the polling thread is on. */
    var running: bool
    var prevPayload: Option<Payload>
    /** The documents written to the state file, oldest first. */
    ghost var written: seq<Document>

    /** `BattleStateExporter(engine)` (battle_state_exporter.py:15-24). */
    constructor (engine: Engine)
      ensures this.engine == engine && !running && prevPayload == None && written == []
    {
      this.engine := engine;
      running := false;
      prevPayload := None;
      written := [];
    }

    /** `start` (battle_state_exporter.py:30-35) without the thread it
        launches. */
    method Start()
      modifies this`running
      ensures running
    {
      if running {
        return;
      }
      running := true;
    }

    /** `stop` (battle_state_exporter.py:37-39): always writes the empty
        document. */
    method Stop()
      modifies this`running, this`written
      ensures !running && written == old(written) + [Stopped]
    {
      running := false;
      written := written + [Stopped];
    }

    /** `_tick` (battle_state_exporter.py:50-70). */
    method Tick(timestamp: real)
      modifies this`prevPayload, this`written
      ensures var snapshot := if engine.inCombat then Some(Snapshot(engine, timestamp)) else None;
              var (w, remembered) := TickStep(old(prevPayload), snapshot);
              prevPayload == remembered && written == old(written) + (if w.Some? then [w.value] else [])
    {
      if !engine.inCombat {
        written := written + [Stopped];
        prevPayload := None;
        return;
      }
      var combatants := BuildCombatants(engine.combatants);
      var activeIds := ActiveGroupIds(engine);
      var payload := Payload(timestamp, engine.round, activeIds, combatants);
      assert payload == Snapshot(engine, timestamp);
      if Some(payload) != prevPayload {
        written := written + [Published(payload)];
        prevPayload := Some(payload);
      }
    }
  }
}
