/** DMui/qml_parallel_bridge.py: the DM window's controller. Its slots
    receive row indices and texts from the QML form, clean them up and apply
    them to the engine's roster. Qt signals are left out; the status line
    is the field `status`. Indices arrive as a QML list of arbitrary values,
    modelled as JSON values. */
module MasterBridge {
  import opened Wrappers
  import opened Text
  import opened Json
  import opened Combatants
  import opened BattleEngine

  // ---------------------------------------------------------------------
  // Cleaning up the form's input
  // ---------------------------------------------------------------------

  /** `_parse_optional_int` (DMui/qml_parallel_bridge.py:81-91): None for
      None, blank or non-integer text, the integer otherwise. */
  function ParseOptionalInt(raw: Option<string>): (r: Option<int>)
    ensures raw.None? ==> r.None?
    ensures raw.Some? && Strip(raw.value) == [] ==> r.None?
    ensures raw.Some? ==> r == ParseInt(raw.value)
  {
    if raw.None? then None
    else
      var text := Strip(raw.value);
      ParseIntOfStripped(raw.value);
      if text == [] then None else ParseInt(text)
  }

  /** What the form writes for a number is read back as that number. */
  lemma ParseOptionalIntDecimal(n: int)
    ensures ParseOptionalInt(Some(IntToString(n))) == Some(n)
  {
    IntToStringRoundTrip(n);
  }

  /** The index a value yields in `_safe_indices`: `int(value)` when that
      succeeds and is not negative. */
  function Kept(value: Json): seq<nat> {
    var parsed := IntOf(value);
    if parsed.Ok? && parsed.value >= 0 then [parsed.value] else []
  }

  /** The list `_safe_indices` returns. */
  function ValidIndices(values: seq<Json>): (r: seq<nat>)
    ensures |r| <= |values|
    decreases |values|
  {
    if values == [] then [] else ValidIndices(values[..|values| - 1]) + Kept(values[|values| - 1])
  }

  /** The indices of a concatenation are those of its parts, in order. */
  lemma {:induction false} ValidIndicesAppend(a: seq<Json>, b: seq<Json>)
    ensures ValidIndices(a + b) == ValidIndices(a) + ValidIndices(b)
    decreases |b|
  {
    if b == [] {
      assert a + b == a;
    } else {
      assert (a + b)[..|a + b| - 1] == a + b[..|b| - 1];
      ValidIndicesAppend(a, b[..|b| - 1]);
    }
  }

  /** Exactly the values that parse to a non-negative int are kept. */
  lemma {:induction false} ValidIndicesExactly(values: seq<Json>, n: nat)
    ensures n in ValidIndices(values) <==> exists k :: 0 <= k < |values| && IntOf(values[k]) == Ok(n)
    decreases |values|
  {
    if values != [] {
      var init := values[..|values| - 1];
      var last := values[|values| - 1];
      ValidIndicesExactly(init, n);
      assert ValidIndices(values) == ValidIndices(init) + Kept(last);
      assert n in Kept(last) <==> IntOf(last) == Ok(n);
      if exists k :: 0 <= k < |values| && IntOf(values[k]) == Ok(n) {
        var k :| 0 <= k < |values| && IntOf(values[k]) == Ok(n);
        if k < |init| {
          assert init[k] == values[k];
        }
      }
      if n in ValidIndices(init) {
        var k :| 0 <= k < |init| && IntOf(init[k]) == Ok(n);
        assert values[k] == init[k];
      }
    }
  }

  /** `_safe_indices` (DMui/qml_parallel_bridge.py:93-103). */
  method SafeIndices(values: seq<Json>) returns (result: seq<nat>)
    ensures result == ValidIndices(values)
  {
    result := [];
    for k := 0 to |values|
      invariant result == ValidIndices(values[..k])
    {
      assert values[..k + 1][..k] == values[..k];
      var parsed := IntOf(values[k]);
      if parsed.Ok? && parsed.value >= 0 {
        result := result + [parsed.value];
      }
    }
    assert values[..|values|] == values;
  }

  /** The roster entries at the indices below the roster's length, in the
      order given, repeats included. */
  function Select(roster: seq<Combatant>, indices: seq<nat>): (r: seq<Combatant>)
    ensures |r| <= |indices|
    ensures forall c :: c in r ==> c in roster
    decreases |indices|
  {
    if indices == [] then []
    else
      var i := indices[|indices| - 1];
      Select(roster, indices[..|indices| - 1]) + (if i < |roster| then [roster[i]] else [])
  }

  /** Selecting from a concatenation selects from each part, in order. */
  lemma {:induction false} SelectAppend(roster: seq<Combatant>, a: seq<nat>, b: seq<nat>)
    ensures Select(roster, a + b) == Select(roster, a) + Select(roster, b)
    decreases |b|
  {
    if b == [] {
      assert a + b == a;
    } else {
      assert (a + b)[..|a + b| - 1] == a + b[..|b| - 1];
      SelectAppend(roster, a, b[..|b| - 1]);
    }
  }

  /** Every in-range index selects its row; out-of-range ones select
      nothing. */
  lemma SelectOne(roster: seq<Combatant>, i: nat)
    ensures i < |roster| ==> Select(roster, [i]) == [roster[i]]
    ensures i >= |roster| ==> Select(roster, [i]) == []
  {
    assert [i][..0] == [];
  }

  // ---------------------------------------------------------------------
  // Repeated HP changes: a combatant selected `n` times is hit `n` times
  // ---------------------------------------------------------------------

  /** `(hp, temp_hp)` after `n` calls of `take_damage(amount)`. */
  function DamagedTimes(kind: Kind, state: State, hp: Option<int>, temp: nat, amount: int, n: nat): (r: (Option<int>, nat))
    ensures r.0.None? <==> hp.None?
    decreases n
  {
    if n == 0 then (hp, temp)
    else
      var p := DamagedTimes(kind, state, hp, temp, amount, n - 1);
      Damaged(kind, state, p.0, p.1, amount)
  }

  /** `n` hits of `amount` take `n * amount` off HP plus temporary HP,
      never going below 0. */
  lemma {:induction false} RepeatedDamage(kind: Kind, state: State, hp: int, temp: nat, amount: nat, n: nat)
    requires kind != Player && state != Dead && state != Left && hp >= 0
    ensures var r := DamagedTimes(kind, state, Some(hp), temp, amount, n);
            r.0.value >= 0 && r.0.value + r.1 == (if hp + temp - n * amount > 0 then hp + temp - n * amount else 0)
    decreases n
  {
    if n > 0 {
      RepeatedDamage(kind, state, hp, temp, amount, n - 1);
      var p := DamagedTimes(kind, state, Some(hp), temp, amount, n - 1);
      DamageConservesTotal(p.0.value, p.1, amount);
      assert n * amount == (n - 1) * amount + amount;
    }
  }

  /** `hp` after `n` calls of `heal(amount)`. */
  function HealedTimes(kind: Kind, state: State, hp: Option<int>, maxHp: Option<int>, amount: int, n: nat): (r: Option<int>)
    ensures r.None? <==> hp.None?
    decreases n
  {
    if n == 0 then hp
    else
      Healed(kind, state, HealedTimes(kind, state, hp, maxHp, amount, n - 1), maxHp, amount)
  }

  /** `n` heals of `amount` add `n * amount`, up to the maximum. */
  lemma {:induction false} RepeatedHeal(kind: Kind, state: State, hp: int, maxHp: int, amount: nat, n: nat)
    requires kind != Player && state != Dead && hp <= maxHp
    ensures HealedTimes(kind, state, Some(hp), Some(maxHp), amount, n)
            == Some(if hp + n * amount < maxHp then hp + n * amount else maxHp)
    decreases n
  {
    if n > 0 {
      RepeatedHeal(kind, state, hp, maxHp, amount, n - 1);
      assert n * amount == (n - 1) * amount + amount;
    }
  }

  /** `temp_hp` after `n` calls of `add_temp_hp(amount)`. */
  function GrantedTimes(kind: Kind, state: State, temp: int, amount: int, n: nat): int
    decreases n
  {
    if n == 0 then temp
    else
      Granted(kind, state, GrantedTimes(kind, state, temp, amount, n - 1), amount)
  }

  /** Granting the same amount again changes nothing. */
  lemma {:induction false} RepeatedGrant(kind: Kind, state: State, temp: int, amount: int, n: nat)
    requires kind != Player && state != Dead && n >= 1
    ensures GrantedTimes(kind, state, temp, amount, n) == AfterTemp(temp, amount)
    decreases n
  {
    if n > 1 {
      RepeatedGrant(kind, state, temp, amount, n - 1);
    }
  }

  /** How many times `x` is among the selected. */
  function Count(s: seq<Combatant>, x: Combatant): nat
    decreases |s|
  {
    if s == [] then 0 else Count(s[..|s| - 1], x) + (if s[|s| - 1] == x then 1 else 0)
  }

  /** Selecting `y` once more counts it once more and nobody else. */
  lemma CountSnoc(s: seq<Combatant>, y: Combatant)
    ensures forall x :: Count(s + [y], x) == Count(s, x) + (if x == y then 1 else 0)
  {
    assert (s + [y])[..|s|] == s;
  }

  /** `max(0, int(amount))`. */
  function Clamped(amount: int): (r: nat)
    ensures r >= amount
    ensures amount >= 0 ==> r == amount
  {
    if amount > 0 then amount else 0
  }

  /** Damages every combatant of `selected` by `a`, in order, each once per
      time it appears. */
  method DamageEach(roster: seq<Combatant>, selected: seq<Combatant>, a: nat)
    requires forall c :: c in roster ==> c.Valid()
    requires forall c :: c in selected ==> c in roster
    modifies (set c | c in roster)`hp, (set c | c in roster)`tempHp
    ensures forall c :: c in roster ==>
              c.Valid() && old(c.tempHp) >= 0 && (c.hp, c.tempHp) == DamagedTimes(c.kind, c.state, old(c.hp), old(c.tempHp), a, Count(selected, c))
  {
    for k := 0 to |selected|
      invariant forall c :: c in roster ==>
                  c.Valid() && (c.hp, c.tempHp) == DamagedTimes(c.kind, c.state, old(c.hp), old(c.tempHp), a, Count(selected[..k], c))
    {
      var target := selected[k];
      assert selected[..k + 1] == selected[..k] + [target];
      label before:
      target.TakeDamage(a);
      forall c | c in roster
        ensures (c.hp, c.tempHp) == DamagedTimes(c.kind, c.state, old(c.hp), old(c.tempHp), a, Count(selected[..k + 1], c))
      {
        if c != target {
          assert c.hp == old@before(c.hp) && c.tempHp == old@before(c.tempHp);
        }
      }
    }
    assert selected[..|selected|] == selected;
  }

  /** Grants `a` temporary hit points to every combatant of `selected`, in
      order. */
  method GrantEach(roster: seq<Combatant>, selected: seq<Combatant>, a: nat)
    requires forall c :: c in roster ==> c.Valid()
    requires forall c :: c in selected ==> c in roster
    modifies (set c | c in roster)`tempHp
    ensures forall c :: c in roster ==>
              c.Valid() && c.tempHp == GrantedTimes(c.kind, c.state, old(c.tempHp), a, Count(selected, c))
  {
    for k := 0 to |selected|
      invariant forall c :: c in roster ==>
                  c.Valid() && c.tempHp == GrantedTimes(c.kind, c.state, old(c.tempHp), a, Count(selected[..k], c))
    {
      var target := selected[k];
      assert selected[..k + 1] == selected[..k] + [target];
      label before:
      target.AddTempHp(a);
      forall c | c in roster
        ensures c.tempHp == GrantedTimes(c.kind, c.state, old(c.tempHp), a, Count(selected[..k + 1], c))
      {
        if c != target {
          assert c.tempHp == old@before(c.tempHp);
        }
      }
    }
    assert selected[..|selected|] == selected;
  }

  /** Writes `entry` under `name` into the effects of every combatant of
      `targets`. */
  method PutEffectEach(roster: seq<Combatant>, targets: seq<Combatant>, name: string, entry: CustomEffect)
    requires forall c :: c in targets ==> c in roster
    modifies (set c | c in roster)`customEffects
    ensures forall c :: c in roster ==>
              c.customEffects == if c in targets then old(c.customEffects)[name := entry] else old(c.customEffects)
  {
    for k := 0 to |targets|
      invariant forall c :: c in roster ==>
                  c.customEffects == if c in targets[..k] then old(c.customEffects)[name := entry] else old(c.customEffects)
    {
      var target := targets[k];
      assert targets[..k + 1] == targets[..k] + [target];
      target.customEffects := target.customEffects[name := entry];
    }
    assert targets[..|targets|] == targets;
  }

  /** Deletes the effect `name`, where present, from every combatant of
      `targets`. */
  method DropEffectEach(roster: seq<Combatant>, targets: seq<Combatant>, name: string)
    requires forall c :: c in targets ==> c in roster
    modifies (set c | c in roster)`customEffects
    ensures forall c :: c in roster ==>
              c.customEffects == if c in targets then old(c.customEffects) - {name} else old(c.customEffects)
  {
    for k := 0 to |targets|
      invariant forall c :: c in roster ==>
                  c.customEffects == if c in targets[..k] then old(c.customEffects) - {name} else old(c.customEffects)
    {
      var target := targets[k];
      assert targets[..k + 1] == targets[..k] + [target];
      if name in target.customEffects {
        target.customEffects := target.customEffects - {name};
      }
    }
    assert targets[..|targets|] == targets;
  }

  /** Heals every combatant of `selected` by `a`, in order, each once per
      time it appears. */
  method HealEach(roster: seq<Combatant>, selected: seq<Combatant>, a: nat)
    requires forall c :: c in roster ==> c.Valid()
    requires forall c :: c in selected ==> c in roster
    modifies (set c | c in roster)`hp
    ensures forall c :: c in roster ==>
              c.Valid() && c.hp == HealedTimes(c.kind, c.state, old(c.hp), c.maxHp, a, Count(selected, c))
  {
    for k := 0 to |selected|
      invariant forall c :: c in roster ==>
                  c.Valid() && c.hp == HealedTimes(c.kind, c.state, old(c.hp), c.maxHp, a, Count(selected[..k], c))
    {
      var target := selected[k];
      assert selected[..k + 1] == selected[..k] + [target];
      label before:
      target.Heal(a);
      forall c | c in roster
        ensures c.hp == HealedTimes(c.kind, c.state, old(c.hp), c.maxHp, a, Count(selected[..k + 1], c))
      {
        if c != target {
          assert c.hp == old@before(c.hp);
        }
      }
    }
    assert selected[..|selected|] == selected;
  }

  // ---------------------------------------------------------------------
  // Labels
  // ---------------------------------------------------------------------

  /** The labels of the state menu (DMui/qml_parallel_bridge.py:261-266). */
  function StateOfLabel(caption: string): (r: Option<State>)
  {
    if caption == "Жив" then Some(Alive)
    else if caption == "Без сознания" then Some(Unconscious)
    else if caption == "Мертв" then Some(Dead)
    else if caption == "Покинул бой" then Some(Left)
    else None
  }

  /** The label shown for a state (DMui/qml_parallel_bridge.py:42-47). */
  function Label(s: State): string {
    match s
    case Alive => "Жив"
    case Unconscious => "Без сознания"
    case Dead => "Мертв"
    case Left => "Покинул бой"
  }

  /** The menu and the table agree: choosing the label a state is shown
      with selects that state, and only the four labels select anything. */
  lemma LabelsRoundTrip(s: State, caption: string)
    ensures StateOfLabel(Label(s)) == Some(s)
    ensures StateOfLabel(caption).Some? ==> Label(StateOfLabel(caption).value) == caption
  {
  }

  // ---------------------------------------------------------------------
  // The controller
  // ---------------------------------------------------------------------

  class Bridge {
    const engine: Engine
    var currentInitiativeGroup: Option<int>
    var status: string

    /** The engine is consistent and every combatant on the roster is. */
    predicate Valid()
      reads engine, (set c | c in engine.combatants)`tempHp, (set c | c in engine.combatants)`hp
      reads (set c | c in engine.combatants)`maxHp, (set c | c in engine.combatants)`ac
    {
      engine.Valid() && forall c :: c in engine.combatants ==> c.Valid()
    }

    /** `QmlMasterBridge()` (DMui/qml_parallel_bridge.py:16-22), with an
        empty fight. */
    constructor ()
      ensures Valid() && fresh(engine) && engine.combatants == [] && !engine.inCombat
      ensures currentInitiativeGroup == None && status == "Готов к бою"
    {
      engine := new Engine([]);
      currentInitiativeGroup := None;
      status := "Готов к бою";
    }

    /** `_selected_combatants` (DMui/qml_parallel_bridge.py:105-111). */
    method SelectedCombatants(indices: seq<Json>) returns (selected: seq<Combatant>)
      ensures selected == Select(engine.combatants, ValidIndices(indices))
    {
      var valid := SafeIndices(indices);
      selected := [];
      for k := 0 to |valid|
        invariant selected == Select(engine.combatants, valid[..k])
      {
        assert valid[..k + 1][..k] == valid[..k];
        if valid[k] < |engine.combatants| {
          selected := selected + [engine.combatants[valid[k]]];
        }
      }
      assert valid[..|valid|] == valid;
    }

    /** `applyDamage` (DMui/qml_parallel_bridge.py:182-186): every selected
        combatant takes `max(0, damage)`, once per time it was selected. */
    method ApplyDamage(indices: seq<Json>, damage: int)
      requires Valid()
      modifies (set c | c in engine.combatants)`hp, (set c | c in engine.combatants)`tempHp
      ensures Valid()
      ensures var selected := Select(engine.combatants, ValidIndices(indices));
              forall c :: c in engine.combatants ==>
                (c.hp, c.tempHp) == DamagedTimes(c.kind, c.state, old(c.hp), old(c.tempHp), Clamped(damage), Count(selected, c))
    {
      var selected := SelectedCombatants(indices);
      DamageEach(engine.combatants, selected, Clamped(damage));
    }

    /** `applyHeal` (DMui/qml_parallel_bridge.py:188-192). */
    method ApplyHeal(indices: seq<Json>, amount: int)
      requires Valid()
      modifies (set c | c in engine.combatants)`hp
      ensures Valid()
      ensures var selected := Select(engine.combatants, ValidIndices(indices));
              forall c :: c in engine.combatants ==>
                c.hp == HealedTimes(c.kind, c.state, old(c.hp), c.maxHp, Clamped(amount), Count(selected, c))
    {
      var selected := SelectedCombatants(indices);
      HealEach(engine.combatants, selected, Clamped(amount));
    }

    /** `setTempHp` (DMui/qml_parallel_bridge.py:194-198). */
    method SetTempHp(indices: seq<Json>, amount: int)
      requires Valid()
      modifies (set c | c in engine.combatants)`tempHp
      ensures Valid()
      ensures var selected := Select(engine.combatants, ValidIndices(indices));
              forall c :: c in engine.combatants ==>
                c.tempHp == GrantedTimes(c.kind, c.state, old(c.tempHp), Clamped(amount), Count(selected, c))
    {
      var selected := SelectedCombatants(indices);
      GrantEach(engine.combatants, selected, Clamped(amount));
    }

    /** `addEffect` (DMui/qml_parallel_bridge.py:200-215): a blank name is
        refused; otherwise every selected combatant gets (or has replaced)
        the effect, 0 rounds meaning permanent, applied in the engine's
        round. */
    method AddEffect(indices: seq<Json>, name: string, duration: int)
      requires Valid()
      modifies (set c | c in engine.combatants)`customEffects, this`status
      ensures Valid()
      ensures Strip(name) == [] ==> status == "Введите название эффекта"
      ensures Strip(name) == [] ==> forall c :: c in engine.combatants ==> c.customEffects == old(c.customEffects)
      ensures Strip(name) != [] ==>
                status == "Эффект добавлен"
                && var selected := Select(engine.combatants, ValidIndices(indices));
                   var entry := CustomEffect(if duration == 0 then None else Some(duration), engine.round);
                   forall c :: c in engine.combatants ==>
                     c.customEffects == if c in selected then old(c.customEffects)[Strip(name) := entry] else old(c.customEffects)
    {
      var effectName := Strip(name);
      if effectName == [] {
        status := "Введите название эффекта";
        return;
      }
      var entry := CustomEffect(if duration == 0 then None else Some(duration), engine.round);
      var selected := SelectedCombatants(indices);
      PutEffectEach(engine.combatants, selected, effectName, entry);
      status := "Эффект добавлен";
    }

    /** `removeEffect` (DMui/qml_parallel_bridge.py:217-231): a blank name
        does nothing; otherwise the effect is removed from the selection,
        or from everybody when nothing valid is selected. */
    method RemoveEffect(indices: seq<Json>, name: string)
      requires Valid()
      modifies (set c | c in engine.combatants)`customEffects, this`status
      ensures Valid()
      ensures Strip(name) == [] ==> status == old(status)
      ensures Strip(name) == [] ==> forall c :: c in engine.combatants ==> c.customEffects == old(c.customEffects)
      ensures Strip(name) != [] ==>
                status == "Эффект удален"
                && var selected := Select(engine.combatants, ValidIndices(indices));
                   var targets := if selected != [] then selected else engine.combatants;
                   forall c :: c in engine.combatants ==>
                     c.customEffects == if c in targets then old(c.customEffects) - {Strip(name)} else old(c.customEffects)
    {
      var effectName := Strip(name);
      if effectName == [] {
        return;
      }
      var selected := SelectedCombatants(indices);
      var targets := if selected != [] then selected else engine.combatants;
      DropEffectEach(engine.combatants, targets, effectName);
      status := "Эффект удален";
    }

    /** `setConcentration` (DMui/qml_parallel_bridge.py:233-246): an
        incapacitated combatant cannot concentrate, and the engine is only
        asked to change a value that differs. */
    method SetConcentration(index: int, checked: bool)
      requires Valid()
      modifies (set c | c in engine.combatants)`concentration
      ensures Valid()
      ensures index < 0 || index >= |engine.combatants| ==>
                forall c :: c in engine.combatants ==> c.concentration == old(c.concentration)
      ensures 0 <= index < |engine.combatants| ==>
                var target := engine.combatants[index];
                target.HasConcentration() == (checked && !target.Incapacitated())
                && forall c :: c in engine.combatants && c != target ==> c.concentration == old(c.concentration)
    {
      if index < 0 || index >= |engine.combatants| {
        return;
      }
      var target := engine.combatants[index];
      var targetChecked := checked;
      if target.Incapacitated() {
        targetChecked := false;
      }
      if targetChecked && !target.HasConcentration() {
        engine.AddConcentration(target);
      } else if !targetChecked && target.HasConcentration() {
        engine.RemoveConcentration(target);
      }
    }

    /** `setIncapacitated` (DMui/qml_parallel_bridge.py:248-254). */
    method SetIncapacitated(index: int, checked: bool)
      requires Valid()
      modifies (set c | c in engine.combatants)`incapacitatedFlag
      ensures Valid()
      ensures index < 0 || index >= |engine.combatants| ==>
                forall c :: c in engine.combatants ==> c.incapacitatedFlag == old(c.incapacitatedFlag)
      ensures 0 <= index < |engine.combatants| ==>
                var target := engine.combatants[index];
                target.ManuallyDisabled() == checked && (checked ==> target.Incapacitated())
                && forall c :: c in engine.combatants && c != target ==> c.incapacitatedFlag == old(c.incapacitatedFlag)
    {
      if index < 0 || index >= |engine.combatants| {
        return;
      }
      engine.combatants[index].SetManuallyDisabled(checked);
    }

    /** `setState` (DMui/qml_parallel_bridge.py:256-272): an index out of
        range or a label off the menu changes nothing. */
    method SetState(index: int, caption: string)
      requires Valid()
      modifies set c | c in engine.combatants
      ensures Valid()
      ensures index < 0 || index >= |engine.combatants| || StateOfLabel(caption).None? ==>
                forall c :: c in engine.combatants ==> unchanged(c)
      ensures 0 <= index < |engine.combatants| && StateOfLabel(caption).Some? ==>
                var target := engine.combatants[index];
                var s := StateOfLabel(caption).value;
                target.state == s && target.hp == StateHp(old(target.state), s, old(target.hp))
                && (target.Incapacitated() <==> s != Alive)
                && (forall c :: c in engine.combatants && c != target ==> unchanged(c))
    {
      if index < 0 || index >= |engine.combatants| {
        return;
      }
      var stateValue := StateOfLabel(caption);
      if stateValue.None? {
        return;
      }
      engine.SetState(engine.combatants[index], stateValue.value);
    }

    /** `nextTurn` (DMui/qml_parallel_bridge.py:163-171): the initiative of
        the group whose turn it is becomes the highlighted one; without a
        next group only the status changes. */
    method NextTurn()
      requires Valid()
      modifies engine`currentIndex, engine`round, engine`prevGroup, (set c | c in engine.prevGroup)`customEffects
      modifies this`currentInitiativeGroup, this`status
      ensures Valid()
      ensures !old(engine.inCombat) || engine.groups == [] ==>
                status == "Нет доступного следующего хода" && currentInitiativeGroup == old(currentInitiativeGroup)
      ensures old(engine.inCombat) && engine.groups != [] ==>
                var t := Scan(old(Flags(engine.groups)), old(engine.currentIndex), old(engine.round), 0);
                engine.currentIndex == t.index && engine.round == t.round
                && (t.found.Some? ==> currentInitiativeGroup == Some(engine.groups[t.found.value][0].initiative)
                                      && status == "Ход обновлен")
                && (t.found.None? ==> currentInitiativeGroup == old(currentInitiativeGroup)
                                      && status == "Нет доступного следующего хода")
    {
      var group := engine.NextTurn();
      if group.None? || group.value == [] {
        status := "Нет доступного следующего хода";
        return;
      }
      currentInitiativeGroup := Some(group.value[0].initiative);
      status := "Ход обновлен";
    }
  }
}
