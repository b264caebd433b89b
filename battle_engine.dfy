/** battle_engine.py: the roster, its initiative groups, the turn cursor and
    the rules for state changes and timed effects. */
module BattleEngine {
  import opened Wrappers
  import opened Combatants

  // ---------------------------------------------------------------------
  // Sorting by initiative: `list.sort(key=..., reverse=True)` is a stable
  // sort, highest initiative first, equal initiatives in their old order
  // ---------------------------------------------------------------------

  /** Puts `c` before the first element whose initiative is not greater
      than its own. */
  function Insert(c: Combatant, cs: seq<Combatant>): (r: seq<Combatant>)
    ensures |r| == |cs| + 1 && forall x :: x in r ==> x == c || x in cs
  {
    if cs == [] || cs[0].initiative <= c.initiative then [c] + cs
    else [cs[0]] + Insert(c, cs[1..])
  }

  /** The roster after `sort(key=initiative, reverse=True)`. */
  function SortedRoster(cs: seq<Combatant>): (r: seq<Combatant>)
    ensures |r| == |cs| && forall x :: x in r ==> x in cs
  {
    if cs == [] then [] else Insert(cs[0], SortedRoster(cs[1..]))
  }

  lemma {:induction false} InsertPermutation(c: Combatant, cs: seq<Combatant>)
    ensures multiset(Insert(c, cs)) == multiset(cs) + multiset{c}
  {
    if cs != [] && cs[0].initiative > c.initiative {
      InsertPermutation(c, cs[1..]);
      assert cs == [cs[0]] + cs[1..];
    }
  }

  /** Sorting neither adds nor drops anybody. */
  lemma {:induction false} SortedIsPermutation(cs: seq<Combatant>)
    ensures multiset(SortedRoster(cs)) == multiset(cs)
  {
    if cs != [] {
      SortedIsPermutation(cs[1..]);
      InsertPermutation(cs[0], SortedRoster(cs[1..]));
      assert cs == [cs[0]] + cs[1..];
    }
  }

  predicate Descending(cs: seq<Combatant>)
  {
    forall i, j :: 0 <= i < j < |cs| ==> cs[i].initiative >= cs[j].initiative
  }

  /** The members of `cs` with initiative `k`, in order. */
  function WithInitiative(cs: seq<Combatant>, k: int): seq<Combatant>
  {
    if cs == [] then []
    else (if cs[0].initiative == k then [cs[0]] else []) + WithInitiative(cs[1..], k)
  }

  lemma {:induction false} InsertDescending(c: Combatant, cs: seq<Combatant>)
    requires Descending(cs)
    ensures Descending(Insert(c, cs))
  {
    if cs != [] && cs[0].initiative > c.initiative {
      InsertDescending(c, cs[1..]);
      var r := Insert(c, cs[1..]);
      forall x | x in r ensures x.initiative <= cs[0].initiative {
        assert x == c || x in cs[1..];
      }
      assert forall j :: 0 <= j < |r| ==> r[j] in r;
    }
  }

  /** The sorted roster is ordered by initiative, highest first. */
  lemma {:induction false} SortedIsDescending(cs: seq<Combatant>)
    ensures Descending(SortedRoster(cs))
  {
    if cs != [] {
      SortedIsDescending(cs[1..]);
      InsertDescending(cs[0], SortedRoster(cs[1..]));
    }
  }

  lemma {:induction false} InsertStable(c: Combatant, cs: seq<Combatant>, k: int)
    ensures WithInitiative(Insert(c, cs), k) == (if c.initiative == k then [c] else []) + WithInitiative(cs, k)
  {
    if cs == [] || cs[0].initiative <= c.initiative {
      assert ([c] + cs)[1..] == cs;
    } else {
      var rest := Insert(c, cs[1..]);
      var w := WithInitiative(cs[1..], k);
      InsertStable(c, cs[1..], k);
      assert ([cs[0]] + rest)[1..] == rest;
      assert WithInitiative(Insert(c, cs), k) == (if cs[0].initiative == k then [cs[0]] else []) + WithInitiative(rest, k);
      assert WithInitiative(cs, k) == (if cs[0].initiative == k then [cs[0]] else []) + w;
      if c.initiative == k {
        assert cs[0].initiative != k;
        assert WithInitiative(rest, k) == [c] + w;
      }
    }
  }

  /** Combatants with equal initiative keep their relative order. */
  lemma {:induction false} SortedIsStable(cs: seq<Combatant>, k: int)
    ensures WithInitiative(SortedRoster(cs), k) == WithInitiative(cs, k)
  {
    if cs != [] {
      SortedIsStable(cs[1..], k);
      InsertStable(cs[0], SortedRoster(cs[1..]), k);
    }
  }

  // ---------------------------------------------------------------------
  // Initiative groups
  // ---------------------------------------------------------------------

  function Flatten<T>(gs: seq<seq<T>>): seq<T> {
    if gs == [] then [] else Flatten(gs[..|gs| - 1]) + gs[|gs| - 1]
  }

  lemma FlattenAppend<T>(gs: seq<seq<T>>, g: seq<T>)
    ensures Flatten(gs + [g]) == Flatten(gs) + g
  {
    assert (gs + [g])[..|gs|] == gs;
  }

  /** One unit appended to the groups: to the last group when it `joins`
      it, as a group of its own otherwise. */
  function AddUnit(r: seq<seq<Combatant>>, x: Combatant, joins: bool): (r2: seq<seq<Combatant>>)
    requires joins ==> r != []
    ensures r2 != []
  {
    if joins then r[..|r| - 1] + [r[|r| - 1] + [x]] else r + [[x]]
  }

  /** Whether the last unit of `s` has the initiative of the one before. */
  predicate JoinsPrevious(s: seq<Combatant>) {
    |s| > 1 && s[|s| - 2].initiative == s[|s| - 1].initiative
  }

  /** The runs of equal initiative in `s`, left to right: a unit whose
      initiative differs from its predecessor's opens a new group. */
  function Runs(s: seq<Combatant>): (r: seq<seq<Combatant>>)
    ensures r == [] <==> s == []
  {
    if s == [] then [] else AddUnit(Runs(s[..|s| - 1]), s[|s| - 1], JoinsPrevious(s))
  }

  /** The groups built so far with the open group, if any, closed. */
  function Closed(gs: seq<seq<Combatant>>, current: seq<Combatant>): seq<seq<Combatant>> {
    if current == [] then gs else gs + [current]
  }

  /** One pass of the grouping loop: a unit whose initiative differs from
      its predecessor's closes the open group and opens its own. */
  lemma RunsExtend(s: seq<Combatant>, i: nat, gs: seq<seq<Combatant>>, current: seq<Combatant>)
    requires i < |s| && (current == [] <==> i == 0) && Closed(gs, current) == Runs(s[..i])
    ensures i == 0 || s[i - 1].initiative != s[i].initiative ==>
              Closed(Closed(gs, current), [s[i]]) == Runs(s[..i + 1])
    ensures i > 0 && s[i - 1].initiative == s[i].initiative ==>
              Closed(gs, current + [s[i]]) == Runs(s[..i + 1])
  {
    var p := s[..i + 1];
    assert p[..i] == s[..i] && p[i] == s[i];
    if i > 0 {
      assert p[i - 1] == s[i - 1];
      var r := Runs(s[..i]);
      assert r[..|r| - 1] == gs;
    }
  }

  lemma AddUnitFlatten(r: seq<seq<Combatant>>, x: Combatant, joins: bool)
    requires joins ==> r != []
    ensures Flatten(AddUnit(r, x, joins)) == Flatten(r) + [x]
  {
    if joins {
      var init := r[..|r| - 1];
      assert r == init + [r[|r| - 1]];
      FlattenAppend(init, r[|r| - 1]);
      FlattenAppend(init, r[|r| - 1] + [x]);
    } else {
      FlattenAppend(r, [x]);
    }
  }

  /** Cutting into runs neither drops, adds nor reorders anybody. */
  lemma {:induction false} RunsFlatten(s: seq<Combatant>)
    ensures Flatten(Runs(s)) == s
  {
    if s != [] {
      var p := s[..|s| - 1];
      RunsFlatten(p);
      AddUnitFlatten(Runs(p), s[|s| - 1], JoinsPrevious(s));
      assert p + [s[|s| - 1]] == s;
    }
  }

  /** Every run is non-empty, all its members share the initiative of its
      first member, and the last unit closes the last run. */
  lemma {:induction false} RunsUniform(s: seq<Combatant>)
    ensures var r := Runs(s);
            (forall i :: 0 <= i < |r| ==> r[i] != [])
            && (forall i, j :: 0 <= i < |r| && 0 <= j < |r[i]| ==> r[i][j].initiative == r[i][0].initiative)
            && (s != [] ==> r[|r| - 1][|r[|r| - 1]| - 1] == s[|s| - 1])
  {
    if s != [] {
      var p := s[..|s| - 1];
      RunsUniform(p);
      var r := Runs(p);
      var x := s[|s| - 1];
      var r2 := Runs(s);
      if JoinsPrevious(s) {
        assert p[|p| - 1] == s[|s| - 2];
        var last := r[|r| - 1];
        assert r2 == r[..|r| - 1] + [last + [x]];
        assert x.initiative == last[0].initiative by {
          assert last[|last| - 1] == s[|s| - 2];
        }
      } else {
        assert r2 == r + [[x]];
      }
    }
  }

  /** Non-empty groups whose first members come in strictly decreasing
      initiative. */
  predicate HeadsDecrease(r: seq<seq<Combatant>>) {
    (forall i :: 0 <= i < |r| ==> r[i] != [])
    && forall i, i2 :: 0 <= i < i2 < |r| ==> r[i][0].initiative > r[i2][0].initiative
  }

  lemma AddUnitHeads(r: seq<seq<Combatant>>, x: Combatant, joins: bool)
    requires joins ==> r != []
    requires HeadsDecrease(r)
    requires !joins && r != [] ==> r[|r| - 1][0].initiative > x.initiative
    ensures HeadsDecrease(AddUnit(r, x, joins))
  {
    var r2 := AddUnit(r, x, joins);
    if joins {
      assert forall i :: 0 <= i < |r| ==> r2[i][0] == r[i][0];
    } else {
      assert forall i :: 0 <= i < |r| ==> r2[i] == r[i];
    }
  }

  /** On a sorted roster, the runs come in strictly decreasing initiative,
      so two units share a group exactly when they share an initiative. */
  lemma {:induction false} RunsDescending(s: seq<Combatant>)
    requires Descending(s)
    ensures HeadsDecrease(Runs(s))
  {
    if s != [] {
      var p := s[..|s| - 1];
      var r := Runs(p);
      assert Descending(p);
      RunsDescending(p);
      if p != [] {
        RunsUniform(p);
        assert p[|p| - 1] == s[|s| - 2];
        var last := r[|r| - 1];
        assert last[|last| - 1] == s[|s| - 2];
        assert last[|last| - 1].initiative == last[0].initiative;
      }
      AddUnitHeads(r, s[|s| - 1], JoinsPrevious(s));
    }
  }

  /** `any(not c.incapacitated for c in group)`. */
  predicate GroupReady(g: seq<Combatant>)
    reads (set c | c in g)`incapacitatedFlag, (set c | c in g)`state
  {
    exists c :: c in g && !c.Incapacitated()
  }

  /** Which groups may act. */
  function Flags(gs: seq<seq<Combatant>>): (r: seq<bool>)
    reads (set g, c | g in gs && c in g :: c)`incapacitatedFlag, (set g, c | g in gs && c in g :: c)`state
    ensures |r| == |gs|
  {
    if gs == [] then []
    else
      assert gs[0] in gs && forall g :: g in gs[1..] ==> g in gs;
      [GroupReady(gs[0])] + Flags(gs[1..])
  }

  /** Readiness depends on nothing but incapacitation and state. */
  /** The `i`-th flag says whether the `i`-th group may act. */
  lemma {:induction false} FlagsAt(gs: seq<seq<Combatant>>)
    ensures forall i :: 0 <= i < |gs| ==> Flags(gs)[i] == GroupReady(gs[i])
  {
    if gs != [] {
      FlagsAt(gs[1..]);
      assert forall i :: 1 <= i < |gs| ==> gs[i] == gs[1..][i - 1];
    }
  }

  /** The readiness of the groups `gs` as their members were in the earlier
      state. */
  twostate function FlagsBefore(gs: seq<seq<Combatant>>): seq<bool> {
    old(Flags(gs))
  }

  twostate lemma {:induction false} FlagsUnchanged(gs: seq<seq<Combatant>>)
    requires forall g, c :: g in gs && c in g ==> old(c.incapacitatedFlag) == c.incapacitatedFlag && old(c.state) == c.state
    ensures Flags(gs) == old(Flags(gs))
  {
    if gs != [] {
      assert forall g :: g in gs[1..] ==> g in gs;
      FlagsUnchanged(gs[1..]);
      assert GroupReady(gs[0]) == old(GroupReady(gs[0])) by {
        assert forall c :: c in gs[0] ==> c.Incapacitated() == old(c.Incapacitated());
      }
    }
  }

  // ---------------------------------------------------------------------
  // The turn cursor
  // ---------------------------------------------------------------------

  /** One step of the cursor: to the next group, or back to the first
      group of the next round. */
  function Step(n: nat, index: nat, round: int): (r: (nat, int))
    requires index < n
    ensures r.0 < n
  {
    if index + 1 >= n then (0, round + 1) else (index + 1, round)
  }

  /** What a call of `next_turn` finds: the group that acts (None when no
      group may act) and the new cursor position and round. */
  datatype Turn = Turn(found: Option<nat>, index: nat, round: int)

  /** The loop of `next_turn` (battle_engine.py:93-110) on the groups'
      readiness flags, `checked` groups having been skipped already. */
  function Scan(flags: seq<bool>, index: nat, round: int, checked: nat): (t: Turn)
    requires index < |flags| && checked <= |flags|
    ensures t.index < |flags|
    ensures t.found.Some? ==> t.found.value < |flags|
    decreases |flags| - checked
  {
    if checked == |flags| then Turn(None, index, round)
    else
      var next := Step(|flags|, index, round);
      if flags[index] then Turn(Some(index), next.0, next.1)
      else Scan(flags, next.0, next.1, checked + 1)
  }

  /** The position `k` groups after `start` on a circle of `n` groups. */
  function At(n: nat, start: nat, k: nat): nat
    requires start < n && k <= n
  {
    if start + k < n then start + k else start + k - n
  }

  /** Whether walking `k` groups on from `start` passes the last group. */
  function LapsAt(n: nat, start: nat, k: nat): nat
    requires start < n && k <= n
  {
    if start + k < n then 0 else 1
  }

  lemma StepAt(n: nat, start: nat, k: nat, round0: int)
    requires start < n && k < n
    ensures Step(n, At(n, start, k), round0 + LapsAt(n, start, k))
            == (At(n, start, k + 1), round0 + LapsAt(n, start, k + 1))
  {
  }

  lemma {:induction false} ScanFrom(flags: seq<bool>, start: nat, round0: int, s: nat)
    requires start < |flags| && s <= |flags|
    requires forall k :: 0 <= k < s ==> !flags[At(|flags|, start, k)]
    ensures var n := |flags|;
            var t := Scan(flags, At(n, start, s), round0 + LapsAt(n, start, s), s);
            (t.found.Some? ==>
               exists u :: s <= u < n && t.found.value == At(n, start, u) && flags[t.found.value]
                           && (forall k :: 0 <= k < u ==> !flags[At(n, start, k)])
                           && t.index == At(n, start, u + 1) && t.round == round0 + LapsAt(n, start, u + 1))
            && (t.found.None? ==>
                  (forall k :: 0 <= k < n ==> !flags[At(n, start, k)])
                  && t.index == start && t.round == round0 + 1)
    decreases |flags| - s
  {
    var n := |flags|;
    if s < n {
      var index := At(n, start, s);
      StepAt(n, start, s, round0);
      if !flags[index] {
        assert forall k :: 0 <= k < s + 1 ==> !flags[At(n, start, k)];
        ScanFrom(flags, start, round0, s + 1);
      } else {
        var t := Scan(flags, index, round0 + LapsAt(n, start, s), s);
        assert t.found == Some(At(n, start, s));
      }
    }
  }

  /** `next_turn` hands the turn to the first group, going round from the
      cursor, that has a member able to act; the cursor ends just after it
      and the round went up by one exactly when the cursor passed the last
      group (battle_engine.py:95-104). */
  lemma ScanFindsFirstReady(flags: seq<bool>, start: nat, round: int)
    requires start < |flags|
    ensures var n := |flags|;
            var t := Scan(flags, start, round, 0);
            t.found.Some? ==>
              exists u :: 0 <= u < n && t.found.value == At(n, start, u) && flags[t.found.value]
                          && (forall k :: 0 <= k < u ==> !flags[At(n, start, k)])
                          && t.index == At(n, start, u + 1) && t.round == round + LapsAt(n, start, u + 1)
  {
    ScanFrom(flags, start, round, 0);
    assert At(|flags|, start, 0) == start && LapsAt(|flags|, start, 0) == 0;
  }

  /** When no group can act, `next_turn` finds nothing, the cursor comes back
      to where it was and the round has gone up by exactly one; and it finds
      nothing only then (battle_engine.py:93-110). */
  lemma ScanNoneIffNoneReady(flags: seq<bool>, start: nat, round: int)
    requires start < |flags|
    ensures Scan(flags, start, round, 0).found.None? <==> forall j :: 0 <= j < |flags| ==> !flags[j]
  {
    var n := |flags|;
    ScanFrom(flags, start, round, 0);
    assert At(n, start, 0) == start && LapsAt(n, start, 0) == 0;
    if Scan(flags, start, round, 0).found.None? {
      forall j | 0 <= j < n ensures !flags[j] {
        var k := if j >= start then j - start else j + n - start;
        assert At(n, start, k) == j;
      }
    }
  }

  /** When it finds nothing, the cursor went once round: it is back where
      it was and the round has gone up by exactly one. */
  lemma ScanNoneFullLap(flags: seq<bool>, start: nat, round: int)
    requires start < |flags|
    ensures var t := Scan(flags, start, round, 0);
            t.found.None? ==> t.index == start && t.round == round + 1
  {
    ScanFrom(flags, start, round, 0);
    assert At(|flags|, start, 0) == start && LapsAt(|flags|, start, 0) == 0;
  }

  // ---------------------------------------------------------------------
  // Timed effects
  // ---------------------------------------------------------------------

  /** The entry after one decay in `round`: permanent effects and effects
      applied in this very round are left alone, the others lose one. */
  function Tick(e: CustomEffect, round: int): CustomEffect {
    if e.duration.None? || e.appliedRound == round then e
    else e.(duration := Some(e.duration.value - 1))
  }

  /** Whether an entry survives one decay in `round`. */
  predicate Survives(e: CustomEffect, round: int) {
    Tick(e, round).duration.None? || e.appliedRound == round || Tick(e, round).duration.value > 0
  }

  /** The custom effects after one decay in `round`
      (battle_engine.py:160-169). */
  function Decayed(m: map<string, CustomEffect>, round: int): (r: map<string, CustomEffect>)
    ensures r.Keys <= m.Keys
    ensures forall name :: name in m && (m[name].duration.None? || m[name].appliedRound == round) ==>
              name in r && r[name] == m[name]
    ensures forall name :: name in m && m[name].duration.Some? && m[name].appliedRound != round ==>
              (name in r <==> m[name].duration.value > 1)
              && (name in r ==> r[name].duration == Some(m[name].duration.value - 1)
                                && r[name].appliedRound == m[name].appliedRound)
  {
    map name | name in m && Survives(m[name], round) :: Tick(m[name], round)
  }

  /** `k` decays in the same round (a combatant listed `k` times in the
      group that just acted). */
  function DecayTimes(m: map<string, CustomEffect>, round: int, k: nat): map<string, CustomEffect>
    decreases k
  {
    if k == 0 then m else Decayed(DecayTimes(m, round, k - 1), round)
  }

  /** How many times `x` is listed in `s`. */
  function Occurrences(s: seq<Combatant>, x: Combatant): (n: nat)
    ensures n == multiset(s)[x]
  {
    if s == [] then 0
    else
      assert s == s[..|s| - 1] + [s[|s| - 1]];
      Occurrences(s[..|s| - 1], x) + (if s[|s| - 1] == x then 1 else 0)
  }

  /** Decays in the successive rounds of `rounds`. */
  function DecayAll(m: map<string, CustomEffect>, rounds: seq<int>): map<string, CustomEffect>
    decreases |rounds|
  {
    if rounds == [] then m else DecayAll(Decayed(m, rounds[0]), rounds[1..])
  }

  /** An effect of duration `d`, decayed in rounds other than the one it was
      applied in, lives through exactly `d - 1` decays, losing one each
      time; a permanent effect is never touched. */
  lemma {:induction false} EffectLifetime(m: map<string, CustomEffect>, rounds: seq<int>, name: string)
    requires name in m
    requires m[name].duration.Some? ==> m[name].duration.value >= 1
    requires forall i :: 0 <= i < |rounds| ==> rounds[i] != m[name].appliedRound
    ensures m[name].duration.None? ==> name in DecayAll(m, rounds) && DecayAll(m, rounds)[name] == m[name]
    ensures m[name].duration.Some? ==>
              (name in DecayAll(m, rounds) <==> |rounds| < m[name].duration.value)
              && (name in DecayAll(m, rounds) ==>
                    DecayAll(m, rounds)[name].duration == Some(m[name].duration.value - |rounds|))
    decreases |rounds|
  {
    if rounds != [] {
      var m1 := Decayed(m, rounds[0]);
      assert DecayAll(m, rounds) == DecayAll(m1, rounds[1..]);
      assert rounds[0] != m[name].appliedRound;
      if name in m1 {
        assert m1[name].appliedRound == m[name].appliedRound;
        assert forall i :: 0 <= i < |rounds[1..]| ==> rounds[1..][i] == rounds[i + 1];
        EffectLifetime(m1, rounds[1..], name);
      } else {
        NeverComesBack(m1, rounds[1..], name);
      }
    }
  }

  lemma {:induction false} NeverComesBack(m: map<string, CustomEffect>, rounds: seq<int>, name: string)
    requires name !in m
    ensures name !in DecayAll(m, rounds)
    decreases |rounds|
  {
    if rounds != [] {
      NeverComesBack(Decayed(m, rounds[0]), rounds[1..], name);
    }
  }

  /** The argument of `add_effect`: the word `"вечный"` (permanent), or a
      number of rounds or None. */
  datatype DurationArg = Eternal | Rounds(value: Option<int>)

  function StoredDuration(d: DurationArg): Option<int> {
    match d
    case Eternal => None
    case Rounds(v) => v
  }

  // ---------------------------------------------------------------------
  // set_state
  // ---------------------------------------------------------------------

  /** The HP after `set_state(c, new_state)` (battle_engine.py:118-133):
      dead and unconscious drop tracked HP to 0, coming back to life from
      dead or unconscious sets them to 1, anything else keeps them. */
  function StateHp(oldState: State, newState: State, hp: Option<int>): (r: Option<int>)
    ensures r.None? <==> hp.None?
    ensures hp.Some? && (newState == Dead || newState == Unconscious) ==> r == Some(0)
    ensures hp.Some? && newState == Alive && (oldState == Dead || oldState == Unconscious) ==> r == Some(1)
    ensures newState == Left || (newState == Alive && oldState != Dead && oldState != Unconscious) ==> r == hp
  {
    if hp.None? then None
    else if newState == Dead || newState == Unconscious then Some(0)
    else if newState == Alive && (oldState == Dead || oldState == Unconscious) then Some(1)
    else hp
  }

  // ---------------------------------------------------------------------
  // The engine
  // ---------------------------------------------------------------------

  class Engine {
    var combatants: seq<Combatant>
    var groups: seq<seq<Combatant>>
    var currentIndex: nat
    var subIndex: nat
    var round: int
    var inCombat: bool
    /** `prev_group`; the empty sequence stands for None (both are falsy). */
    var prevGroup: seq<Combatant>
    var currentInitiativeGroup: Option<int>

    /** The cursor points into the groups (0 when there are none) and no
        group is empty. */
    predicate Valid()
      reads this`currentIndex, this`groups
    {
      (currentIndex == 0 || currentIndex < |groups|)
      && forall i :: 0 <= i < |groups| ==> groups[i] != []
    }

    /** `BattleEngine(combatants)` (battle_engine.py:7-16). */
    constructor (roster: seq<Combatant>)
      ensures Valid() && combatants == roster && groups == [] && prevGroup == []
      ensures currentIndex == 0 && subIndex == 0 && round == 1 && !inCombat
      ensures currentInitiativeGroup == None
    {
      combatants := roster;
      currentIndex := 0;
      round := 1;
      inCombat := false;
      groups := [];
      subIndex := 0;
      prevGroup := [];
      currentInitiativeGroup := None;
    }

    /** `sort_initiative` (battle_engine.py:49-56): a no-op during combat. */
    method SortInitiative()
      modifies this`combatants
      ensures inCombat ==> combatants == old(combatants)
      ensures !inCombat ==> combatants == SortedRoster(old(combatants))
    {
      if inCombat {
        return;
      }
      combatants := SortedRoster(combatants);
    }

    /** `add_combatant` (battle_engine.py:18-21): appended, and the roster
        re-sorted unless a fight is on. */
    method AddCombatant(c: Combatant)
      modifies this`combatants
      ensures inCombat ==> combatants == old(combatants) + [c]
      ensures !inCombat ==> combatants == SortedRoster(old(combatants) + [c])
                            && Descending(combatants)
                            && multiset(combatants) == multiset(old(combatants)) + multiset{c}
    {
      combatants := combatants + [c];
      if !inCombat {
        SortInitiative();
        SortedIsDescending(old(combatants) + [c]);
        SortedIsPermutation(old(combatants) + [c]);
      }
    }

    /** `build_initiative_groups` (battle_engine.py:58-75): the sorted roster
        cut into runs of equal initiative; the cursor goes back to the start. */
    method BuildInitiativeGroups()
      modifies this`groups, this`currentIndex, this`subIndex
      ensures groups == Runs(SortedRoster(combatants))
      ensures currentIndex == 0 && subIndex == 0 && Valid()
    {
      var sortedUnits := SortedRoster(combatants);
      var gs: seq<seq<Combatant>> := [];
      var current: seq<Combatant> := [];
      var currentInit: Option<int> := None;
      for i := 0 to |sortedUnits|
        invariant Closed(gs, current) == Runs(sortedUnits[..i])
        invariant current == [] <==> i == 0
        invariant currentInit == (if i == 0 then None else Some(sortedUnits[i - 1].initiative))
      {
        var unit := sortedUnits[i];
        RunsExtend(sortedUnits, i, gs, current);
        if currentInit.None? || unit.initiative != currentInit.value {
          if current != [] {
            gs := gs + [current];
          }
          current := [unit];
          currentInit := Some(unit.initiative);
        } else {
          current := current + [unit];
        }
      }
      if current != [] {
        gs := gs + [current];
      }
      assert sortedUnits[..|sortedUnits|] == sortedUnits;
      RunsUniform(sortedUnits);
      groups := gs;
      currentIndex := 0;
      subIndex := 0;
    }

    /** `get_current` (battle_engine.py:77-85). */
    function GetCurrent(): (r: Option<Combatant>)
      requires Valid()
      reads this
      ensures r.Some? <==> inCombat && groups != [] && subIndex < |groups[currentIndex]|
      ensures r.Some? ==> r.value in groups[currentIndex]
    {
      if !inCombat then None
      else if groups == [] then None
      else
        var group := groups[currentIndex];
        if subIndex >= |group| then None else Some(group[subIndex])
    }

    /** One timed-effect decay for one combatant: the loop over
        `list(effects.items())` (battle_engine.py:160-169). */
    method DecayEffects(c: Combatant)
      modifies c`customEffects
      ensures c.customEffects == Decayed(old(c.customEffects), round)
    {
      var names := c.customEffects.Keys;
      ghost var m := c.customEffects;
      while names != {}
        invariant names <= m.Keys
        invariant c.customEffects.Keys <= m.Keys
        invariant forall n :: n in names ==> n in c.customEffects && c.customEffects[n] == m[n]
        invariant forall n :: n in m && n !in names ==>
                    (n in c.customEffects <==> Survives(m[n], round))
                    && (n in c.customEffects ==> c.customEffects[n] == Tick(m[n], round))
        decreases names
      {
        var name :| name in names;
        names := names - {name};
        var eff := c.customEffects[name];
        if eff.duration.None? {
          continue;
        }
        if eff.appliedRound == round {
          continue;
        }
        c.customEffects := c.customEffects[name := eff.(duration := Some(eff.duration.value - 1))];
        if c.customEffects[name].duration.value <= 0 {
          c.customEffects := c.customEffects - {name};
        }
      }
      assert c.customEffects == Decayed(m, round);
    }

    /** `_update_effects_for_prev_turn(group)` (battle_engine.py:158-169):
        every member of the group, once per time it is listed, has its
        timed effects decayed; nobody else is touched. */
    method UpdateEffectsForPrevTurn(group: seq<Combatant>)
      modifies (set c | c in group)`customEffects
      ensures forall c :: c in group ==> c.customEffects == DecayTimes(old(c.customEffects), round, Occurrences(group, c))
    {
      for i := 0 to |group|
        invariant forall x :: x in group ==> x.customEffects == DecayTimes(old(x.customEffects), round, Occurrences(group[..i], x))
      {
        var c := group[i];
        assert group[..i + 1][..i] == group[..i] && group[..i + 1][i] == c;
        label before:
        DecayEffects(c);
        forall x | x in group
          ensures x.customEffects == DecayTimes(old(x.customEffects), round, Occurrences(group[..i + 1], x))
        {
          if x == c {
            assert Occurrences(group[..i + 1], x) == Occurrences(group[..i], x) + 1;
          } else {
            assert x.customEffects == old@before(x.customEffects);
            assert Occurrences(group[..i + 1], x) == Occurrences(group[..i], x);
          }
        }
      }
      assert group[..|group|] == group;
    }

    /** The `while checked < total` loop of `next_turn`
        (battle_engine.py:93-110) on a copy of the cursor: it walks at most
        once round the groups from `index`, stepping past the last group
        into the next round, and stops just after the first group with a
        member able to act. */
    method FindReady(start: nat, round0: int) returns (t: Turn)
      requires start < |groups|
      ensures t == Scan(Flags(groups), start, round0, 0)
    {
      ghost var flags := Flags(groups);
      FlagsAt(groups);
      var total := |groups|;
      var checked := 0;
      var index: nat, rnd: int := start, round0;
      while checked < total
        invariant 0 <= checked <= total && index < total
        invariant Scan(flags, index, rnd, checked) == Scan(flags, start, round0, 0)
        decreases total - checked
      {
        var group := groups[index];
        var ready := GroupReady(group);
        index := index + 1;
        if index >= total {
          index := 0;
          rnd := rnd + 1;
        }
        if ready {
          return Turn(Some(if index == 0 then total - 1 else index - 1), index, rnd);
        }
        checked := checked + 1;
      }
      return Turn(None, index, rnd);
    }

    /** `next_turn` (battle_engine.py:87-110). The groups' readiness is
        taken as it is on entry: the decay of the previous group's effects
        touches no member's state or incapacitation. */
    method NextTurn() returns (r: Option<seq<Combatant>>)
      requires Valid()
      modifies this`currentIndex, this`round, this`prevGroup, (set c | c in prevGroup)`customEffects
      ensures Valid()
      ensures !inCombat || groups == [] ==>
                r == None && currentIndex == old(currentIndex) && round == old(round) && prevGroup == old(prevGroup)
                && forall c :: c in prevGroup ==> c.customEffects == old(c.customEffects)
      ensures inCombat && groups != [] ==>
                var t := Scan(old(Flags(groups)), old(currentIndex), old(round), 0);
                currentIndex == t.index && round == t.round
                && r == (if t.found.Some? then Some(groups[t.found.value]) else None)
                && prevGroup == (if t.found.Some? then groups[t.found.value] else old(prevGroup))
                && forall c :: c in old(prevGroup) ==>
                     c.customEffects == DecayTimes(old(c.customEffects), old(round), Occurrences(old(prevGroup), c))
    {
      if !inCombat || groups == [] {
        return None;
      }
      ghost var flags := Flags(groups);
      if prevGroup != [] {
        UpdateEffectsForPrevTurn(prevGroup);
        FlagsUnchanged(groups);
      }
      assert Flags(groups) == flags;
      var turn := FindReady(currentIndex, round);
      assert turn == Scan(flags, old(currentIndex), old(round), 0);
      currentIndex, round := turn.index, turn.round;
      if turn.found.Some? {
        r := Some(groups[turn.found.value]);
        prevGroup := groups[turn.found.value];
      } else {
        r := None;
      }
    }

    /** The set-up half of `start_combat` (battle_engine.py:32-37): roster
        sorted, groups rebuilt, the fight marked as on and the cursor and
        the previous group reset. */
    method Prepare()
      requires !inCombat
      modifies this`combatants, this`groups, this`currentIndex, this`subIndex, this`inCombat, this`prevGroup
      ensures combatants == SortedRoster(old(combatants)) && groups == Runs(SortedRoster(combatants))
      ensures inCombat && currentIndex == 0 && subIndex == 0 && prevGroup == [] && Valid()
    {
      SortInitiative();
      BuildInitiativeGroups();
      inCombat := true;
      currentIndex := 0;
      subIndex := 0;
      prevGroup := [];
    }

    /** `start_combat` (battle_engine.py:29-41). It dereferences the first
        group `next_turn` returns; when no group can act that is None and
        the call fails with a TypeError, returned here as `Fail`, after the
        cursor went once round the groups. */
    method StartCombat() returns (outcome: Result<bool>)
      requires Valid()
      modifies this
      ensures Valid()
      ensures old(inCombat) || old(combatants) == [] ==> outcome == Ok(false) && unchanged(this)
      ensures !old(inCombat) && old(combatants) != [] ==>
                inCombat && combatants == SortedRoster(old(combatants)) && groups == Runs(SortedRoster(combatants))
                && subIndex == 0
                && var t := Scan(FlagsBefore(groups), 0, old(round), 0);
                   currentIndex == t.index
                   && (t.found.Some? ==> outcome == Ok(true) && round == 1 && prevGroup == groups[t.found.value]
                                         && currentInitiativeGroup == Some(groups[t.found.value][0].initiative))
                   && (t.found.None? ==> outcome == Fail(TypeError) && round == old(round) + 1 && prevGroup == []
                                         && currentInitiativeGroup == old(currentInitiativeGroup))
    {
      if inCombat || combatants == [] {
        return Ok(false);
      }
      outcome := Begin();
    }

    /** The part of `start_combat` after its guard: prepare the groups, then
        let the first group whose turn it is act. */
    method Begin() returns (outcome: Result<bool>)
      requires Valid() && !inCombat && combatants != []
      modifies this
      ensures Valid()
      ensures inCombat && combatants == SortedRoster(old(combatants)) && groups == Runs(SortedRoster(combatants))
      ensures subIndex == 0
      ensures var t := Scan(FlagsBefore(groups), 0, old(round), 0);
              currentIndex == t.index
              && (t.found.Some? ==> outcome == Ok(true) && round == 1 && prevGroup == groups[t.found.value]
                                    && currentInitiativeGroup == Some(groups[t.found.value][0].initiative))
              && (t.found.None? ==> outcome == Fail(TypeError) && round == old(round) + 1 && prevGroup == []
                                    && currentInitiativeGroup == old(currentInitiativeGroup))
    {
      Prepare();
      FlagsUnchanged(groups);
      ghost var flags := Flags(groups);
      ghost var t := Scan(flags, 0, round, 0);
      var firstGroup := NextTurn();
      assert currentIndex == t.index && subIndex == 0 && inCombat;
      if firstGroup.None? {
        assert t.found.None?;
        ScanNoneFullLap(flags, 0, old(round));
        outcome := Fail(TypeError);
      } else {
        assert t.found.Some? && firstGroup.value == groups[t.found.value] && prevGroup == firstGroup.value;
        currentInitiativeGroup := Some(firstGroup.value[0].initiative);
        round := 1;
        outcome := Ok(true);
      }
    }

    /** `end_combat` (battle_engine.py:43-47): roster and groups stay. */
    method EndCombat()
      requires Valid()
      modifies this
      ensures !inCombat && currentIndex == 0 && subIndex == 0 && round == 1
      ensures combatants == old(combatants) && groups == old(groups) && prevGroup == old(prevGroup)
      ensures currentInitiativeGroup == old(currentInitiativeGroup)
      ensures Valid()
    {
      inCombat := false;
      currentIndex := 0;
      subIndex := 0;
      round := 1;
    }

    /** `set_state` (battle_engine.py:112-134). */
    method SetState(c: Combatant, newState: State)
      modifies c`state, c`concentrationEntry, c`hp, c`incapacitatedFlag
      ensures c.state == newState && c.concentrationEntry == Some(false)
      ensures c.hp == StateHp(old(c.state), newState, old(c.hp))
      ensures c.incapacitatedFlag == (newState != Alive)
      ensures c.Incapacitated() <==> newState != Alive
    {
      var oldState := c.state;
      c.state := newState;
      c.concentrationEntry := Some(false);
      if newState == Dead {
        if c.hp.Some? {
          c.hp := Some(0);
        }
        c.incapacitatedFlag := true;
      } else if newState == Unconscious {
        if c.hp.Some? {
          c.hp := Some(0);
        }
        c.incapacitatedFlag := true;
      } else if newState == Left {
        c.incapacitatedFlag := true;
      } else if newState == Alive {
        if (oldState == Dead || oldState == Unconscious) && c.hp.Some? {
          c.hp := Some(1);
        }
        c.incapacitatedFlag := false;
      }
    }

    /** `add_effect` (battle_engine.py:136-144): the entry is (over)written
        with the current round as its application round. */
    method AddEffect(c: Combatant, name: string, duration: DurationArg)
      modifies c`customEffects
      ensures c.customEffects == old(c.customEffects)[name := CustomEffect(StoredDuration(duration), round)]
    {
      var d := if duration == Eternal then None else duration.value;
      c.customEffects := c.customEffects[name := CustomEffect(d, round)];
    }

    /** `remove_effect` (battle_engine.py:146-150): removing an absent name
        changes nothing. */
    method RemoveEffect(c: Combatant, name: string)
      modifies c`customEffects
      ensures c.customEffects == old(c.customEffects) - {name}
      ensures name !in old(c.customEffects) ==> c.customEffects == old(c.customEffects)
    {
      if name in c.customEffects {
        c.customEffects := c.customEffects - {name};
      }
    }

    /** `add_concentration` (battle_engine.py:152-153). */
    method AddConcentration(c: Combatant)
      modifies c`concentration
      ensures c.HasConcentration()
    {
      c.AddConcentration();
    }

    /** `remove_concentration` (battle_engine.py:155-156). */
    method RemoveConcentration(c: Combatant)
      modifies c`concentration
      ensures !c.HasConcentration()
    {
      c.RemoveConcentration();
    }
  }

  /** Sorting a sorted roster again changes nothing (`build_initiative_groups`
      re-sorts what `start_combat` has just sorted). */
  lemma {:induction false} SortedIdempotent(cs: seq<Combatant>)
    ensures SortedRoster(SortedRoster(cs)) == SortedRoster(cs)
  {
    SortedIsDescending(cs);
    SortOfDescending(SortedRoster(cs));
  }

  lemma {:induction false} SortOfDescending(cs: seq<Combatant>)
    requires Descending(cs)
    ensures SortedRoster(cs) == cs
  {
    if cs != [] {
      assert Descending(cs[1..]);
      SortOfDescending(cs[1..]);
      var rest := cs[1..];
      assert rest == [] || rest[0].initiative <= cs[0].initiative;
      assert [cs[0]] + rest == cs;
    }
  }
}
