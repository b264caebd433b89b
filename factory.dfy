/** combatant_factory.py: id allocation and the creation of monsters (and,
    as written, of players) from a bestiary. The bestiary the module loads
    at import time is a parameter, as are the draws of `random.randint`
    (an oracle and the number of the next draw) and the identities the new
    objects receive. */
module CombatantFactory {
  import opened Wrappers
  import opened Text
  import opened Dice
  import opened Combatants

  /** A bestiary entry: the monster's fields by their JSON keys. */
  type Entry = map<string, string>

  // ---------------------------------------------------------------------
  // What one `create_monster` call decides once for all its monsters
  // ---------------------------------------------------------------------

  /** `bestiary_data.get(name)`, read the way `if data:` reads it: an
      absent entry and an empty one both count as no data. */
  function EntryOf(bestiary: map<string, Entry>, name: string): (r: Option<Entry>)
    ensures r.Some? <==> name in bestiary && bestiary[name] != map[]
    ensures r.Some? ==> r.value == bestiary[name]
  {
    if name in bestiary && bestiary[name] != map[] then Some(bestiary[name]) else None
  }

  /** `custom_name.strip() if custom_name else name`
      (combatant_factory.py:49). */
  function BaseName(name: string, customName: Option<string>): (r: string)
    ensures customName.None? || customName == Some("") ==> r == name
    ensures customName.Some? && customName.value != "" ==> r == Strip(customName.value)
  {
    if customName.Some? && customName.value != "" then Strip(customName.value) else name
  }

  /** `f"{display_name} {i}"` (combatant_factory.py:67, 79). */
  function MonsterName(base: string, i: nat): string {
    base + " " + NatToString(i)
  }

  /** The `i`-th name ends with the decimal digits of `i`, after one space,
      so different numbers give different names. */
  lemma MonsterNamesDiffer(base: string, i: nat, j: nat)
    requires i != j
    ensures MonsterName(base, i) != MonsterName(base, j)
  {
    NatToStringValue(i);
    NatToStringValue(j);
    var p := base + " ";
    assert MonsterName(base, i)[|p|..] == NatToString(i);
    assert MonsterName(base, j)[|p|..] == NatToString(j);
  }

  /** The formula the hit points are rolled from
      (combatant_factory.py:53-54, 75): `hp_input` when it is not empty,
      else the bestiary's "Hit Points", else `"1d10"`. */
  function HpFormula(hpInput: Option<string>, data: Option<Entry>): (r: string)
    ensures hpInput.Some? && hpInput.value != "" ==> r == hpInput.value
    ensures (hpInput.None? || hpInput == Some("")) && data.Some? && "Hit Points" in data.value ==>
              r == data.value["Hit Points"]
    ensures (hpInput.None? || hpInput == Some("")) && (data.None? || "Hit Points" !in data.value) ==> r == "1d10"
  {
    if hpInput.Some? && hpInput.value != "" then hpInput.value
    else if data.Some? && "Hit Points" in data.value then data.value["Hit Points"]
    else "1d10"
  }

  /** The armour class (combatant_factory.py:55-65, 76): the explicit `ac`
      when given, else the leading integer of the bestiary's "Armor
      Class", else 10. A non-empty "Armor Class" made only of whitespace
      has no first word: `split()[0]` raises IndexError, which nothing
      catches, even when `ac` was given. */
  function ArmorClass(ac: Option<int>, data: Option<Entry>): (r: Result<int>)
    ensures r.Fail? <==> data.Some? && "Armor Class" in data.value && data.value["Armor Class"] != ""
                         && AllSpace(data.value["Armor Class"])
    ensures r.Fail? ==> r.error == IndexError
    ensures r.Ok? && ac.Some? ==> r.value == ac.value
    ensures r.Ok? && ac.None? ==>
              r.value == (if data.Some? && "Armor Class" in data.value && data.value["Armor Class"] != ""
                          then ParseInt(FirstToken(data.value["Armor Class"]).value).GetOr(10) else 10)
  {
    var text := if data.Some? && "Armor Class" in data.value then data.value["Armor Class"] else "";
    if text == "" then Ok(ac.GetOr(10))
    else
      match FirstToken(text)
      case None => Fail(IndexError)
      case Some(word) => Ok(if ac.Some? then ac.value else ParseInt(word).GetOr(10))
  }

  /** The common "12 (natural armour)" form gives 12. */
  lemma LeadingArmorClass(n: nat, rest: string)
    ensures ArmorClass(None, Some(map["Armor Class" := NatToString(n) + " " + rest])) == Ok(n)
  {
    var digits := NatToString(n);
    var text := digits + " " + rest;
    assert text[|digits|] == ' ';
    DigitIsNotSpace(digits[0]);
    assert text[0] == digits[0];
    assert StripLeft(text) == text by {
      assert LeadEnd(text, 0) == 0;
    }
    var word := TakeWord(text);
    forall k | 0 <= k < |digits| ensures !IsSpace(text[k]) {
      assert text[k] == digits[k];
      DigitIsNotSpace(digits[k]);
    }
    assert word == digits;
    NatToStringValue(n);
    ParseDigitRun(digits);
  }

  // ---------------------------------------------------------------------
  // The hit points of the monsters, one roll each
  // ---------------------------------------------------------------------

  /** `roll_formula(formula)` with its draws starting at draw `at`. */
  function RollerOf(formula: string, draw: Oracle): nat -> Result<Roll> {
    (at: nat) => RollFormula(formula, map[], draw, at)
  }

  /** The first `n` values rolled by `roller`, each roll starting at the
      draw where the one before stopped, and the number of the next draw. */
  function Rolls(roller: nat -> Result<Roll>, offset: nat, n: nat): (r: Result<(seq<int>, nat)>)
    ensures r.Ok? ==> |r.value.0| == n && r.value.1 >= offset
    decreases n
  {
    if n == 0 then Ok(([], offset))
    else
      match Rolls(roller, offset, n - 1)
      case Fail(e) => Fail(e)
      case Ok(done) =>
        match roller(done.1)
        case Fail(e) => Fail(e)
        case Ok(roll) => Ok((done.0 + [roll.value], done.1 + roll.draws))
  }

  /** Rolling more dice first rolls the fewer. */
  lemma {:induction false} RollsPrefix(roller: nat -> Result<Roll>, offset: nat, m: nat, n: nat)
    requires m <= n && Rolls(roller, offset, n).Ok?
    ensures Rolls(roller, offset, m).Ok?
    ensures Rolls(roller, offset, m).value.0 == Rolls(roller, offset, n).value.0[..m]
    decreases n - m
  {
    if m < n {
      RollsPrefix(roller, offset, m, n - 1);
      var all := Rolls(roller, offset, n).value.0;
      assert all[..n - 1] == Rolls(roller, offset, n - 1).value.0;
      assert all[..n - 1][..m] == all[..m];
    } else {
      assert Rolls(roller, offset, n).value.0[..m] == Rolls(roller, offset, n).value.0;
    }
  }

  /** A formula without dice is a fixed number: every monster gets it. */
  lemma RollsOfNumber(v: nat, draw: Oracle, offset: nat, n: nat)
    ensures Rolls(RollerOf(NatToString(v), draw), offset, n).Ok?
    ensures Rolls(RollerOf(NatToString(v), draw), offset, n).value.1 == offset
    ensures forall k :: 0 <= k < n ==> Rolls(RollerOf(NatToString(v), draw), offset, n).value.0[k] == v
  {
    var roller := RollerOf(NatToString(v), draw);
    forall at: nat
      ensures roller(at) == Ok(Roll(v, 0))
    {
      RollNumber(v, draw, at);
    }
    RollsSteady(roller, v, offset, n);
  }

  /** A roller that always gives `v` without drawing gives `v` every time. */
  lemma {:induction false} RollsSteady(roller: nat -> Result<Roll>, v: int, offset: nat, n: nat)
    requires forall at: nat :: roller(at) == Ok(Roll(v, 0))
    ensures Rolls(roller, offset, n).Ok? && Rolls(roller, offset, n).value.1 == offset
    ensures forall k :: 0 <= k < n ==> Rolls(roller, offset, n).value.0[k] == v
    decreases n
  {
    if n > 0 {
      RollsSteady(roller, v, offset, n - 1);
      assert roller(offset) == Ok(Roll(v, 0));
    }
  }

  /** `roll_formula(str(v))` is `v` and draws nothing. */
  lemma RollNumber(v: nat, draw: Oracle, offset: nat)
    ensures RollFormula(NatToString(v), map[], draw, offset) == Ok(Roll(v, 0))
  {
    var s := NatToString(v);
    FormatPlain(s, Defaulted(map[], s));
    NormaliseNumber(s);
    DigitsHaveNoGroup(s, 0);
    assert Expression(s, map[]) == Ok(s);
    DigitPrefixOfDigits(s, []);
    assert s + [] == s;
    assert ParseDice(s).None?;
    NatToStringValue(v);
    ParseDigitRun(s);
  }

  /** Text of digits holds no parenthesised group. */
  lemma {:induction false} DigitsHaveNoGroup(s: string, from: nat)
    requires AllDigits(s)
    ensures ParenGroup(s, from).None?
    decreases |s| - from
  {
    if from < |s| {
      DigitsHaveNoGroup(s, from + 1);
    }
  }

  // ---------------------------------------------------------------------
  // The factory
  // ---------------------------------------------------------------------

  /** `m` is a monster with these name, initiative, hit points, armour
      class, type and factory id. */
  ghost predicate Spawned(m: Combatant, name: string, initiative: int, hp: int, ac: int, monsterType: string, id: int)
    reads m
  {
    m.Valid() && m.kind == Monster && m.name == name && m.initiative == initiative
    && m.hp == Some(hp) && m.maxHp == Some(hp) && m.tempHp == 0 && m.ac == Some(ac)
    && m.monsterType == monsterType && m.factoryId == Some(id)
  }

  /** How `create_monster`'s loop ends: with the hit points rolled and the
      draw after them, or with the first error. The first monster's roll
      comes before the armour class, which is the same for every monster;
      the rest of the rolls follow. */
  function LoopOutcome(roller: nat -> Result<Roll>, start: nat, count: nat, armor: Result<int>): (r: Result<(seq<int>, nat)>)
  {
    if count == 0 then Ok(([], start))
    else if roller(start).Fail? then Fail(roller(start).error)
    else if armor.Fail? then Fail(armor.error)
    else Rolls(roller, start, count)
  }

  /** The loop finishes exactly when there is nothing to build, or every
      roll and the armour class succeed; it then holds one roll per
      monster. */
  lemma LoopOutcomeOk(roller: nat -> Result<Roll>, start: nat, count: nat, armor: Result<int>)
    ensures LoopOutcome(roller, start, count, armor).Ok? <==>
              count == 0 || (Rolls(roller, start, count).Ok? && armor.Ok?)
    ensures LoopOutcome(roller, start, count, armor).Ok? ==>
              |LoopOutcome(roller, start, count, armor).value.0| == count
  {
    if count > 0 && Rolls(roller, start, count).Ok? {
      RollsPrefix(roller, start, 1, count);
      assert Rolls(roller, start, 1).Ok?;
    }
  }

  /** `monsters` are `base 1`, `base 2`, ... with hit points `hps`, the
      armour class `ac` and consecutive ids from `firstId`. */
  ghost predicate Batch(monsters: seq<Combatant>, base: string, initiative: int, hps: seq<int>, ac: int,
                        monsterType: string, firstId: int)
    reads set m | m in monsters
  {
    |hps| == |monsters|
    && forall k :: 0 <= k < |monsters| ==>
         var title := MonsterName(base, k + 1);
         Spawned(monsters[k], title, initiative, hps[k], ac, if monsterType != "" then monsterType else title,
                 firstId + k)
  }

  /** One more monster, numbered next, keeps the batch. */
  lemma BatchGrows(monsters: seq<Combatant>, monster: Combatant, base: string, initiative: int, hps: seq<int>,
                   hp: int, ac: int, monsterType: string, firstId: int)
    requires Batch(monsters, base, initiative, hps, ac, monsterType, firstId)
    requires var title := MonsterName(base, |monsters| + 1);
             Spawned(monster, title, initiative, hp, ac, if monsterType != "" then monsterType else title,
                     firstId + |monsters|)
    ensures Batch(monsters + [monster], base, initiative, hps + [hp], ac, monsterType, firstId)
  {
  }

  /** The members of a batch one by one. */
  lemma BatchAt(monsters: seq<Combatant>, base: string, initiative: int, hps: seq<int>, ac: int,
                monsterType: string, firstId: int)
    requires Batch(monsters, base, initiative, hps, ac, monsterType, firstId)
    ensures forall k :: 0 <= k < |monsters| ==>
              var title := MonsterName(base, k + 1);
              Spawned(monsters[k], title, initiative, hps[k], ac, if monsterType != "" then monsterType else title,
                      firstId + k)
  {
  }

  /** `CombatantFactory`, whose class attribute `next_id` every instance
      shares: one object stands for the class. */
  class Factory {
    /** The id the next combatant gets; ids only ever grow, so no two
        combatants get the same one. */
    var nextId: int

    /** The class as the module defines it: `next_id = 1`
        (combatant_factory.py:11). */
    constructor ()
      ensures nextId == 1
    {
      nextId := 1;
    }

    /** `_assign_id` (combatant_factory.py:13-16). */
    method AssignId(c: Combatant)
      modifies this, c`factoryId
      ensures c.factoryId == Some(old(nextId)) && nextId == old(nextId) + 1
    {
      c.factoryId := Some(nextId);
      nextId := nextId + 1;
    }

    /** One monster of `create_monster`'s loop (combatant_factory.py:67-86):
        built with its hit points and armour class and given the next id. */
    method Spawn(addr: nat, name: string, initiative: int, hp: int, ac: int, data: Option<Entry>, monsterType: string)
      returns (monster: Combatant)
      modifies this
      ensures fresh(monster)
      ensures Spawned(monster, name, initiative, hp, ac, if monsterType != "" then monsterType else name, old(nextId))
      ensures nextId == old(nextId) + 1
    {
      monster := new Combatant.NewMonster(addr, name, Some(initiative), 0, hp, ac, data, monsterType);
      AssignId(monster);
    }

    /** One turn of `create_monster`'s loop (combatant_factory.py:52-86) for
        monster number `i`: its hit points are rolled from draw `at`, then
        the armour class is checked; the first of the two that fails
        raises, and otherwise the monster is built and registered. */
    method SpawnOne(base: string, i: nat, initiative: int, roller: nat -> Result<Roll>, at: nat,
                    armor: Result<int>, data: Option<Entry>, monsterType: string, addr: nat -> nat)
      returns (step: Result<(Combatant, Roll)>)
      modifies this
      ensures step.Fail? <==> roller(at).Fail? || armor.Fail?
      ensures step.Fail? ==> step.error == (if roller(at).Fail? then roller(at).error else armor.error)
      ensures step.Fail? ==> nextId == old(nextId)
      ensures step.Ok? ==>
                var title := MonsterName(base, i);
                roller(at) == Ok(step.value.1) && fresh(step.value.0)
                && Spawned(step.value.0, title, initiative, step.value.1.value, armor.value,
                           if monsterType != "" then monsterType else title, old(nextId))
                && nextId == old(nextId) + 1
    {
      var roll := roller(at);
      if roll.Fail? {
        return Fail(roll.error);
      }
      if armor.Fail? {
        return Fail(armor.error);
      }
      var monster := Spawn(addr(i), MonsterName(base, i), initiative, roll.value.value, armor.value, data, monsterType);
      step := Ok((monster, roll.value));
    }

    /** The loop of `create_monster` (combatant_factory.py:51-86): monsters
        `base 1` to `base count`, each with the next roll of `roller` for
        its hit points and the armour class `armor`, each given the next
        id; it stops at the first error, as `LoopOutcome` says. */
    method SpawnAll(base: string, count: nat, initiative: int, roller: nat -> Result<Roll>, start: nat,
                    armor: Result<int>, data: Option<Entry>, monsterType: string, addr: nat -> nat)
      returns (result: Result<seq<Combatant>>, next: nat)
      modifies this
      ensures nextId >= old(nextId)
      ensures var out := LoopOutcome(roller, start, count, armor);
              && result.Ok? == out.Ok?
              && (result.Fail? ==> result.error == out.error && nextId < old(nextId) + count)
              && (result.Fail? ==> var built := nextId - old(nextId);
                    Rolls(roller, start, built).Ok?
                    && (armor.Fail? ==> built == 0) && (armor.Ok? ==> Rolls(roller, start, built + 1).Fail?))
              && (result.Ok? ==> |result.value| == count && nextId == old(nextId) + count && next == out.value.1)
      ensures result.Ok? ==> (forall m :: m in result.value ==> fresh(m))
      ensures result.Ok? && count > 0 ==>
                Batch(result.value, base, initiative, LoopOutcome(roller, start, count, armor).value.0,
                      armor.value, monsterType, old(nextId))
    {
      ghost var firstId := nextId;
      ghost var hps: seq<int> := [];
      var monsters: seq<Combatant> := [];
      next := start;
      while |monsters| < count
        invariant |monsters| <= count && |hps| == |monsters|
        invariant nextId == firstId + |monsters|
        invariant Rolls(roller, start, |monsters|) == Ok((hps, next))
        invariant |monsters| > 0 ==> armor.Ok? && roller(start).Ok?
        invariant forall m :: m in monsters ==> fresh(m)
        invariant armor.Ok? ==> Batch(monsters, base, initiative, hps, armor.value, monsterType, firstId)
        decreases count - |monsters|
      {
        var step := SpawnOne(base, |monsters| + 1, initiative, roller, next, armor, data, monsterType, addr);
        if step.Fail? {
          result := Fail(step.error);
          if roller(next).Fail? {
            assert Rolls(roller, start, |monsters| + 1) == Fail(step.error);
            RollsFail(roller, start, |monsters| + 1, count);
          }
          return;
        }
        var (monster, roll) := step.value;
        BatchGrows(monsters, monster, base, initiative, hps, roll.value, armor.value, monsterType, firstId);
        monsters := monsters + [monster];
        hps := hps + [roll.value];
        next := next + roll.draws;
      }
      result := Ok(monsters);
    }

    /** `create_monster` (combatant_factory.py:36-87). `count` monsters,
        numbered from 1, share one initiative (drawn first when none is
        given) and take their hit points from one roll each of the formula
        `HpFormula` picks; the armour class is `ArmorClass`'s. The first
        error stops the loop; the monsters built before it keep their ids. */
    method CreateMonster(bestiary: map<string, Entry>, name: string, count: int, initiative: Option<int>,
                         customName: Option<string>, ac: Option<int>, hpInput: Option<string>,
                         draw: Oracle, offset: nat, addr: nat -> nat)
      returns (result: Result<seq<Combatant>>, next: nat)
      modifies this
      ensures nextId >= old(nextId)
      ensures var data := EntryOf(bestiary, name);
              var start := if initiative.Some? then offset else offset + 1;
              var n := if count > 0 then count else 0;
              var out := LoopOutcome(RollerOf(HpFormula(hpInput, data), draw), start, n, ArmorClass(ac, data));
              && result.Ok? == out.Ok?
              && (result.Fail? ==> result.error == out.error && nextId < old(nextId) + n)
              && (result.Fail? ==> var built := nextId - old(nextId);
                    Rolls(RollerOf(HpFormula(hpInput, data), draw), start, built).Ok?
                    && (ArmorClass(ac, data).Fail? ==> built == 0)
                    && (ArmorClass(ac, data).Ok? ==> Rolls(RollerOf(HpFormula(hpInput, data), draw), start, built + 1).Fail?))
              && (result.Ok? ==> |result.value| == n && nextId == old(nextId) + n && next == out.value.1
                                 && (forall m :: m in result.value ==> fresh(m))
                                 && (n > 0 ==> Batch(result.value, BaseName(name, customName),
                                                     initiative.GetOr(draw(offset, 20)), out.value.0,
                                                     ArmorClass(ac, data).value, name, old(nextId))))
    {
      var data := EntryOf(bestiary, name);
      var groupInitiative: int;
      var start := offset;
      if initiative.Some? {
        groupInitiative := initiative.value;
      } else {
        groupInitiative := draw(offset, 20);
        start := offset + 1;
      }
      var base := BaseName(name, customName);
      var roller := RollerOf(HpFormula(hpInput, data), draw);
      result, next := SpawnAll(base, if count > 0 then count else 0, groupInitiative, roller, start,
                               ArmorClass(ac, data), data, name, addr);
    }

    /** `create_player` as written (combatant_factory.py:18-34): the
        arguments are worked out, which draws an initiative when none is
        given, and then `Player(name=..., hp=..., ac=..., initiative=...)`
        raises TypeError, since `Player.__init__` (combatants.py:82) takes
        neither `hp` nor `ac`. No id is assigned. */
    method CreatePlayerAsWritten(name: string, initiative: Option<int>, ac: Option<int>, hp: Option<int>,
                                 draw: Oracle, offset: nat)
      returns (result: Result<Combatant>, next: nat)
      ensures result == Fail(TypeError)
      ensures next == if initiative.Some? then offset else offset + 1
    {
      var hpArgument := hp.GetOr(10);
      var acArgument := ac.GetOr(10);
      var init := if initiative.Some? then initiative.value else draw(offset, 20);
      next := if initiative.Some? then offset else offset + 1;
      result := Fail(TypeError);
    }

    /** `create_player` as evidently intended: a player named `name` with
        the given initiative (drawn when none is given), registered under
        the next id. A player keeps no hit points or armour class of its
        own (combatants.py:82-88). */
    method CreatePlayer(name: string, initiative: Option<int>, draw: Oracle, offset: nat, addr: nat)
      returns (player: Combatant, next: nat)
      modifies this
      ensures fresh(player) && player.Valid()
      ensures player.kind == Player && player.name == name && player.hp == None && player.ac == None
      ensures player.initiative == initiative.GetOr(draw(offset, 20))
      ensures next == if initiative.Some? then offset else offset + 1
      ensures player.factoryId == Some(old(nextId)) && nextId == old(nextId) + 1
    {
      var init := if initiative.Some? then initiative.value else draw(offset, 20);
      next := if initiative.Some? then offset else offset + 1;
      player := new Combatant.NewPlayer(addr, name, Some(init), 0, "");
      AssignId(player);
    }
  }

  /** A roll that fails makes all longer runs of rolls fail, with its error. */
  lemma {:induction false} RollsFail(roller: nat -> Result<Roll>, offset: nat, m: nat, n: int)
    requires m <= n && Rolls(roller, offset, m).Fail?
    ensures Rolls(roller, offset, n) == Rolls(roller, offset, m)
    decreases n - m
  {
    if m < n {
      assert Rolls(roller, offset, m + 1).Fail?;
      RollsFail(roller, offset, m + 1, n);
    }
  }
}
