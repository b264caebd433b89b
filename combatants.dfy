/** combatants.py: one participant of a fight.

    The Python `effects` dict is split into the three keys the program
    uses: `effects["incapacitated"]` (the manual disable flag, always present
    because the constructor assigns `manually_disabled = False`),
    `effects["concentration"]` (written by the engine's `set_state`, read by
    nobody) and `effects["custom_effects"]` (named timed effects; an absent
    key reads as the empty dict everywhere, so it is an always-present map
    here). `id(combatant)` is the constant `addr`. */
module Combatants {
  import opened Wrappers

  /** `Combatant`, its subclass `Player`, or its subclass `Monster`. */
  datatype Kind = Base | Player | Monster

  /** The four values of `state`. */
  datatype State = Alive | Unconscious | Dead | Left {
    /** The text stored in `state` and shown in the exported document. */
    function Text(): string {
      match this
      case Alive => "alive"
      case Unconscious => "unconscious"
      case Dead => "dead"
      case Left => "left"
    }
  }

  /** One entry of `effects["custom_effects"]`: `{"duration", "applied_round"}`;
      a duration of None never runs out. */
  datatype CustomEffect = CustomEffect(duration: Option<int>, appliedRound: int)

  /** The value of a bestiary field, `""` when the entry is missing or
      empty (an empty dict is falsy) or lacks the key. */
  function DataField(data: Option<map<string, string>>, key: string): string {
    if data.Some? && data.value != map[] && key in data.value then data.value[key] else ""
  }

  // ---------------------------------------------------------------------
  // HP arithmetic on values
  // ---------------------------------------------------------------------

  /** The hit points after `take_damage(amount)` (combatants.py:50-61):
      temporary HP absorb the damage first, the rest comes off `hp`, which
      does not go below 0. The pair is `(hp, temp_hp)`. */
  function AfterDamage(hp: int, temp: nat, amount: int): (r: (int, nat))
    ensures temp > 0 && temp >= amount ==> r == (hp, temp - amount)
    ensures r.0 < hp ==> r.1 == 0 && r.0 == (if hp + temp - amount > 0 then hp + temp - amount else 0)
    ensures hp >= 0 ==> r.0 >= 0
  {
    var rest := if temp > 0 then (if temp >= amount then 0 else amount - temp) else amount;
    var t := if temp > 0 then (if temp >= amount then temp - amount else 0) else temp;
    if rest > 0 then (if hp - rest <= 0 then 0 else hp - rest, t) else (hp, t)
  }

  /** The hit points after `heal(amount)` (combatants.py:66): raised by
      `amount` but never above the maximum. */
  function AfterHeal(hp: int, maxHp: int, amount: int): (r: int)
    ensures r <= maxHp
    ensures r == hp + amount || r == maxHp
    ensures hp + amount <= maxHp ==> r == hp + amount
  {
    if hp + amount < maxHp then hp + amount else maxHp
  }

  /** The temporary HP after `add_temp_hp(amount)` (combatants.py:71-72):
      the larger of the old buffer and the grant. */
  function AfterTemp(temp: int, amount: int): (r: int)
    ensures r >= temp && r >= amount
    ensures r == temp || r == amount
  {
    if amount > temp then amount else temp
  }

  /** What `take_damage(amount)` (combatants.py:47-61, 92-93) leaves of `(hp,
      temp_hp)`: players and the dead or departed are not touched. */
  function Damaged(kind: Kind, state: State, hp: Option<int>, temp: nat, amount: int): (r: (Option<int>, nat))
    ensures r.0.None? <==> hp.None?
  {
    if kind == Player || state == Dead || state == Left || hp.None? then (hp, temp)
    else
      var d := AfterDamage(hp.value, temp, amount);
      (Some(d.0), d.1)
  }

  /** What `heal(amount)` (combatants.py:63-66, 95-96) leaves of `hp`: players and
      the dead are not touched. */
  function Healed(kind: Kind, state: State, hp: Option<int>, maxHp: Option<int>, amount: int): (r: Option<int>)
    ensures r.None? <==> hp.None?
  {
    if kind == Player || state == Dead || hp.None? || maxHp.None? then hp
    else Some(AfterHeal(hp.value, maxHp.value, amount))
  }

  /** What `add_temp_hp(amount)` (combatants.py:68-72, 98-99) leaves of
      `temp_hp`. */
  function Granted(kind: Kind, state: State, temp: int, amount: int): int {
    if kind == Player || state == Dead then temp else AfterTemp(temp, amount)
  }

  /** Damage takes exactly `amount` off the sum of HP and temporary HP,
      stopping at 0. */
  lemma DamageConservesTotal(hp: int, temp: nat, amount: int)
    requires hp >= 0 && amount >= 0
    ensures var r := AfterDamage(hp, temp, amount);
            r.0 + r.1 == (if hp + temp - amount > 0 then hp + temp - amount else 0)
  {
  }

  /** HP are only lost once the temporary buffer is empty. */
  lemma TempAbsorbsFirst(hp: int, temp: nat, amount: int)
    requires AfterDamage(hp, temp, amount).0 < hp
    ensures AfterDamage(hp, temp, amount).1 == 0 && amount > temp
  {
  }

  /** Repeated grants do not stack: two grants leave the larger of the two
      (and of the old buffer), not their sum. */
  lemma TempGrantsDoNotStack(temp: int, a: int, b: int)
    ensures AfterTemp(AfterTemp(temp, a), b) == AfterTemp(temp, if a > b then a else b)
  {
  }

  /** `0 <= hp <= max_hp` is kept by damage and healing of non-negative
      amounts. */
  lemma HpStaysInRange(hp: int, maxHp: int, temp: nat, amount: int)
    requires 0 <= hp <= maxHp && amount >= 0
    ensures 0 <= AfterDamage(hp, temp, amount).0 <= maxHp
    ensures 0 <= AfterHeal(hp, maxHp, amount) <= maxHp
  {
  }

  // ---------------------------------------------------------------------
  // The combatant object
  // ---------------------------------------------------------------------

  class Combatant {
    const kind: Kind
    /** `id(self)`. */
    const addr: nat
    var name: string
    var customName: string
    var maxHp: Option<int>
    var hp: Option<int>
    var tempHp: int
    var ac: Option<int>
    const initiative: int
    var state: State
    var concentration: bool
    /** `effects["incapacitated"]`. */
    var incapacitatedFlag: bool
    /** `effects["concentration"]`; None while the key is absent. */
    var concentrationEntry: Option<bool>
    /** `effects["custom_effects"]`. */
    var customEffects: map<string, CustomEffect>
    /** The `id` the factory assigns to players and monsters. */
    var factoryId: Option<int>
    var monsterType: string
    var traits: string
    var actions: string
    var legendaryActions: string
    var immunities: string

    /** A player tracks no HP or AC; everybody else tracks both; the
        temporary buffer is never negative. */
    predicate Valid()
      reads this`tempHp, this`hp, this`maxHp, this`ac
    {
      tempHp >= 0
      && (kind == Player <==> hp.None?)
      && (kind == Player ==> maxHp.None? && ac.None? && tempHp == 0)
      && (kind != Player ==> maxHp.Some? && ac.Some?)
    }

    /** `Combatant(name, initiative, hp, ac, custom_name=...)`
        (combatants.py:4-15); `d20` is what `random.randint(1, 20)` returns
        when no initiative is given. */
    constructor (addr: nat, name: string, initiative: Option<int>, d20: int, hp: int, ac: int, customName: string)
      ensures Valid() && kind == Base && this.addr == addr
      ensures this.name == name && this.customName == customName
      ensures this.hp == Some(hp) && maxHp == Some(hp) && tempHp == 0 && this.ac == Some(ac)
      ensures this.initiative == initiative.GetOr(d20) && state == Alive
      ensures !concentration && !incapacitatedFlag && concentrationEntry == None
      ensures customEffects == map[] && factoryId == None
    {
      kind := Base;
      this.addr := addr;
      this.name := name;
      this.customName := customName;
      maxHp := Some(hp);
      this.hp := Some(hp);
      tempHp := 0;
      this.ac := Some(ac);
      concentration := false;
      incapacitatedFlag := false;
      concentrationEntry := None;
      customEffects := map[];
      this.initiative := initiative.GetOr(d20);
      state := Alive;
      factoryId := None;
      monsterType := "";
      traits := "";
      actions := "";
      legendaryActions := "";
      immunities := "";
    }

    /** `Player(name, initiative, custom_name=...)` (combatants.py:82-90):
        HP, maximum HP and AC are None. */
    constructor NewPlayer(addr: nat, name: string, initiative: Option<int>, d20: int, customName: string)
      ensures Valid() && kind == Player && this.addr == addr
      ensures this.name == name && this.customName == customName
      ensures hp == None && maxHp == None && tempHp == 0 && ac == None
      ensures this.initiative == initiative.GetOr(d20) && state == Alive
      ensures !concentration && !incapacitatedFlag && concentrationEntry == None
      ensures customEffects == map[] && factoryId == None
    {
      kind := Player;
      this.addr := addr;
      this.name := name;
      this.customName := customName;
      maxHp := None;
      hp := None;
      tempHp := 0;
      ac := None;
      concentration := false;
      incapacitatedFlag := false;
      concentrationEntry := None;
      customEffects := map[];
      this.initiative := initiative.GetOr(d20);
      state := Alive;
      factoryId := None;
      monsterType := "";
      traits := "";
      actions := "";
      legendaryActions := "";
      immunities := "";
    }

    /** `Monster(name, initiative, hp, ac, monster_data=..., monster_type=...)`
        (combatants.py:103-111): the type defaults to the name, the text
        fields come from the bestiary entry. */
    constructor NewMonster(addr: nat, name: string, initiative: Option<int>, d20: int, hp: int, ac: int,
                           data: Option<map<string, string>>, monsterType: string)
      ensures Valid() && kind == Monster && this.addr == addr
      ensures this.name == name && customName == ""
      ensures this.hp == Some(hp) && maxHp == Some(hp) && tempHp == 0 && this.ac == Some(ac)
      ensures this.initiative == initiative.GetOr(d20) && state == Alive
      ensures !concentration && !incapacitatedFlag && concentrationEntry == None
      ensures customEffects == map[] && factoryId == None
      ensures this.monsterType == (if monsterType != "" then monsterType else name)
      ensures traits == DataField(data, "Traits") && actions == DataField(data, "Actions")
      ensures legendaryActions == DataField(data, "Legendary Actions")
      ensures immunities == DataField(data, "Damage Immunities")
    {
      kind := Monster;
      this.addr := addr;
      this.name := name;
      customName := "";
      maxHp := Some(hp);
      this.hp := Some(hp);
      tempHp := 0;
      this.ac := Some(ac);
      concentration := false;
      incapacitatedFlag := false;
      concentrationEntry := None;
      customEffects := map[];
      this.initiative := initiative.GetOr(d20);
      state := Alive;
      factoryId := None;
      this.monsterType := if monsterType != "" then monsterType else name;
      traits := DataField(data, "Traits");
      actions := DataField(data, "Actions");
      legendaryActions := DataField(data, "Legendary Actions");
      immunities := DataField(data, "Damage Immunities");
    }

    /** `incapacitated` (combatants.py:17-21): disabled by hand, or out of
        the fight. */
    predicate Incapacitated()
      reads this`incapacitatedFlag, this`state
    {
      incapacitatedFlag || state == Dead || state == Unconscious || state == Left
    }

    /** The `manually_disabled` getter (combatants.py:23-25). */
    function ManuallyDisabled(): (r: bool)
      reads this`incapacitatedFlag, this`state
      ensures r ==> Incapacitated()
    {
      incapacitatedFlag
    }

    /** The `manually_disabled` setter (combatants.py:28-30). */
    method SetManuallyDisabled(v: bool)
      modifies this`incapacitatedFlag
      ensures ManuallyDisabled() == v
      ensures v ==> Incapacitated()
      ensures !v ==> (Incapacitated() <==> state != Alive)
    {
      incapacitatedFlag := v;
    }

    function HasConcentration(): bool
      reads this`concentration
    {
      concentration
    }

    method AddConcentration()
      modifies this`concentration
      ensures HasConcentration()
    {
      concentration := true;
    }

    method RemoveConcentration()
      modifies this`concentration
      ensures !HasConcentration()
    {
      concentration := false;
    }

    /** `is_alive` (combatants.py:41-45). */
    predicate IsAlive()
      reads this`state, this`hp
    {
      state == Alive && (hp.None? || hp.value > 0)
    }

    /** `take_damage` (combatants.py:47-61, and the player's no-op at
        92-93). */
    method TakeDamage(amount: int)
      requires Valid()
      modifies this`hp, this`tempHp
      ensures Valid()
      ensures (hp, tempHp) == Damaged(kind, state, old(hp), old(tempHp), amount)
      ensures kind == Player || state == Dead || state == Left ==> hp == old(hp) && tempHp == old(tempHp)
      ensures amount >= 0 && old(hp).Some? && old(hp).value >= 0 ==> hp.Some? && hp.value >= 0
    {
      if kind == Player {
        return;
      }
      if state == Dead || state == Left {
        return;
      }
      var amount := amount;
      if tempHp > 0 {
        if tempHp >= amount {
          tempHp := tempHp - amount;
          amount := 0;
        } else {
          amount := amount - tempHp;
          tempHp := 0;
        }
      }
      if amount > 0 {
        hp := Some(hp.value - amount);
        if hp.value <= 0 {
          hp := Some(0);
        }
      }
    }

    /** `heal` (combatants.py:63-66, and the player's no-op at 95-96). */
    method Heal(amount: int)
      requires Valid()
      modifies this`hp
      ensures Valid()
      ensures hp == Healed(kind, state, old(hp), maxHp, amount)
      ensures kind == Player || state == Dead ==> hp == old(hp)
      ensures kind != Player && state != Dead ==> hp.value <= maxHp.value
    {
      if kind == Player {
        return;
      }
      if state == Dead {
        return;
      }
      hp := Some(if hp.value + amount < maxHp.value then hp.value + amount else maxHp.value);
    }

    /** `add_temp_hp` (combatants.py:68-72, and the player's no-op at
        98-99). */
    method AddTempHp(amount: int)
      requires Valid()
      modifies this`tempHp
      ensures Valid()
      ensures tempHp == Granted(kind, state, old(tempHp), amount)
      ensures kind == Player || state == Dead ==> tempHp == old(tempHp)
      ensures kind != Player && state != Dead ==> tempHp >= old(tempHp) && tempHp >= amount
    {
      if kind == Player {
        return;
      }
      if state == Dead {
        return;
      }
      if amount > tempHp {
        tempHp := amount;
      }
    }
  }

  /** `is_alive` and `incapacitated` agree on the living: a living
      combatant is incapacitated only when disabled by hand, and one out of
      the `alive` state, or at 0 HP or below, is not alive. */
  lemma AliveIsActiveUnlessDisabled(c: Combatant)
    ensures c.IsAlive() ==> (c.Incapacitated() <==> c.ManuallyDisabled())
    ensures c.state != Alive || (c.hp.Some? && c.hp.value <= 0) ==> !c.IsAlive()
  {
  }
}
