/** The engine of app.js, the plain-script revision of the planner: three squads keyed 1 to
    3 whose slots are an object keyed by slot number (a missing key is an empty slot), a
    base reduction typed by the user, and a front/back damage-reduction total computed
    from the placed heroes' skills. A hero already placed anywhere is refused rather
    than moved. */
module LegacyEngine {
  import opened Squads

  /** A filled slot: `{ id, name, ex_lvl, skills }`. */
  datatype LegacySlot = LegacySlot(id: string, name: string, exLvl: int, skills: Skills)

  /** A squad's `slots` object: slot number to slot, only filled slots present. */
  type Formation = map<int, LegacySlot>

  /** Front-line and back-line reduction totals, in percent. */
  datatype Totals = Totals(front: real, back: real) {
    function Plus(other: Totals): Totals {
      Totals(front + other.front, back + other.back)
    }
  }

  const NoShare: Totals := Totals(0.0, 0.0)

  // ----- the damage-reduction formula -----

  /** What one skill at level `lvl` of the hero in slot `key` adds: nothing without damage
      reduction; otherwise `base + lvl * inc`, to both lines for `team`, to the front for
      `front`, and for `self` half of it to the front from slots 0 and 1, a third of it to
      the back from the others; any other target adds nothing. */
  function SkillShare(def: SkillDef, lvl: int, key: int): (r: Totals)
    ensures !def.hasDR ==> r == NoShare
    ensures def.hasDR ==> var val := def.base + lvl as real * def.inc;
      && (def.target == "team" ==> r == Totals(val, val))
      && (def.target == "front" ==> r == Totals(val, 0.0))
      && (def.target == "self" && key < 2 ==> r == Totals(val / 2.0, 0.0))
      && (def.target == "self" && key >= 2 ==> r == Totals(0.0, val / 3.0))
      && (def.target !in {"team", "front", "self"} ==> r == NoShare)
  {
    if !def.hasDR then NoShare
    else
      var val := def.base + lvl as real * def.inc;
      if def.target == "team" then Totals(val, val)
      else if def.target == "front" then Totals(val, 0.0)
      else if def.target == "self" then (if key < 2 then Totals(val / 2.0, 0.0) else Totals(0.0, val / 3.0))
      else NoShare
  }

  /** What the slot under `key` adds: its hero's tactics and passive skills at the slot's
      levels; nothing when the id is not in the catalog. */
  function SlotShare(heroes: seq<HeroBase>, slot: LegacySlot, key: int): Totals {
    match FindHero(heroes, slot.id)
    case None => NoShare
    case Some(hero) =>
      SkillShare(hero.tactics, slot.skills.tactics, key).Plus(SkillShare(hero.passive, slot.skills.passive, key))
  }

  /** Both lines start at `base`; every filled slot with a key below `n` adds its share. */
  function TotalsUpTo(heroes: seq<HeroBase>, slots: Formation, base: real, n: nat): Totals {
    if n == 0 then Totals(base, base)
    else
      var before := TotalsUpTo(heroes, slots, base, n - 1);
      if n - 1 in slots then before.Plus(SlotShare(heroes, slots[n - 1], n - 1)) else before
  }

  /** The totals of a formation whose keys are slot numbers 0 to 4. */
  function FormationTotals(heroes: seq<HeroBase>, slots: Formation, base: real): Totals {
    TotalsUpTo(heroes, slots, base, SlotCount)
  }

  /** `parseFloat(db.global) || 0`: `None` is a value that does not parse. */
  function BaseDr(global: Option<real>): (r: real)
    ensures global.Some? ==> r == global.value
    ensures global.None? ==> r == 0.0
  {
    global.GetOr(0.0)
  }

  /** An empty formation leaves both lines at the base. */
  lemma {:induction false} EmptyFormationTotals(heroes: seq<HeroBase>, base: real, n: nat)
    ensures TotalsUpTo(heroes, map[], base, n) == Totals(base, base)
  {
    if n > 0 {
      EmptyFormationTotals(heroes, base, n - 1);
    }
  }

  /** Removing the hero in slot `k` takes exactly that slot's share off the totals. */
  lemma {:induction false} RemovalSubtractsShare(heroes: seq<HeroBase>, slots: Formation, base: real, k: int, n: nat)
    requires k in slots && 0 <= k < n
    ensures TotalsUpTo(heroes, slots, base, n)
         == TotalsUpTo(heroes, slots - {k}, base, n).Plus(SlotShare(heroes, slots[k], k))
  {
    if n - 1 == k {
      UnchangedBelow(heroes, slots, slots - {k}, base, k);
    } else {
      RemovalSubtractsShare(heroes, slots, base, k, n - 1);
    }
  }

  /** Totals up to `n` only read the slots below `n`. */
  lemma {:induction false} UnchangedBelow(heroes: seq<HeroBase>, a: Formation, b: Formation, base: real, n: nat)
    requires forall k :: 0 <= k < n ==> (k in a <==> k in b) && (k in a ==> a[k] == b[k])
    ensures TotalsUpTo(heroes, a, base, n) == TotalsUpTo(heroes, b, base, n)
  {
    if n > 0 {
      UnchangedBelow(heroes, a, b, base, n - 1);
    }
  }

  /** Every damage-reducing skill of the heroes placed in `slots` reaches the whole team. */
  ghost predicate TeamSkillsOnly(heroes: seq<HeroBase>, slots: Formation) {
    forall k, hero :: k in slots && FindHero(heroes, slots[k].id) == Some(hero) ==>
      (hero.tactics.hasDR ==> hero.tactics.target == "team") && (hero.passive.hasDR ==> hero.passive.target == "team")
  }

  /** When every reducing skill targets the team, front and back lines get the same total. */
  lemma {:induction false} TeamSkillsBalanceLines(heroes: seq<HeroBase>, slots: Formation, base: real, n: nat)
    requires TeamSkillsOnly(heroes, slots)
    ensures TotalsUpTo(heroes, slots, base, n).front == TotalsUpTo(heroes, slots, base, n).back
  {
    if n > 0 {
      TeamSkillsBalanceLines(heroes, slots, base, n - 1);
    }
  }

  // ----- the state and its invariants -----

  /** `id` sits in some slot of some squad. */
  predicate UsedAnywhere(squads: map<int, Formation>, id: string) {
    exists s, k :: s in squads && k in squads[s] && squads[s][k].id == id
  }

  /** No hero id sits in two slots. */
  ghost predicate NoDuplicates(squads: map<int, Formation>) {
    forall s1, k1, s2, k2 ::
      s1 in squads && k1 in squads[s1] && s2 in squads && k2 in squads[s2] && squads[s1][k1].id == squads[s2][k2].id
      ==> s1 == s2 && k1 == k2
  }

  /** Weapon levels in [1, 30] and skill levels in [1, cap of the weapon level]. */
  ghost predicate WithinCaps(squads: map<int, Formation>) {
    forall s, k :: s in squads && k in squads[s] ==> SlotWithinCaps(squads[s][k])
  }

  ghost predicate SlotWithinCaps(slot: LegacySlot) {
    && 1 <= slot.exLvl <= 30
    && 1 <= slot.skills.tactics <= SkillCap(slot.exLvl)
    && 1 <= slot.skills.passive <= SkillCap(slot.exLvl)
  }

  /** Squads 1 to 3, slot keys 0 to 4. */
  ghost predicate Shaped(squads: map<int, Formation>) {
    && squads.Keys == {1, 2, 3}
    && forall s :: s in squads ==> forall k :: k in squads[s] ==> 0 <= k < SlotCount
  }

  /** The slot `assignHeroToSlot` writes for a newly placed hero. */
  function FreshSlot(hero: HeroBase): (r: LegacySlot)
    ensures r.id == hero.id && r.name == hero.name && r.exLvl == 1 && r.skills == Skills(1, 1)
  {
    LegacySlot(hero.id, hero.name, 1, Skills(1, 1))
  }

  /** The squads after placing `hero` in slot `k` of squad `s`: only that slot changes, and
      a hero used nowhere before keeps every id in at most one slot. */
  function Placed(squads: map<int, Formation>, s: int, k: int, hero: HeroBase): (r: map<int, Formation>)
    requires s in squads
    ensures r.Keys == squads.Keys && r[s] == squads[s][k := FreshSlot(hero)]
    ensures forall t :: t in squads && t != s ==> r[t] == squads[t]
    ensures NoDuplicates(squads) && !UsedAnywhere(squads, hero.id) ==> NoDuplicates(r)
    ensures WithinCaps(squads) ==> WithinCaps(r)
  {
    var r := squads[s := squads[s][k := FreshSlot(hero)]];
    assert NoDuplicates(squads) && !UsedAnywhere(squads, hero.id) ==> NoDuplicates(r) by {
      if NoDuplicates(squads) && !UsedAnywhere(squads, hero.id) {
        forall s1, k1, s2, k2 |
          s1 in r && k1 in r[s1] && s2 in r && k2 in r[s2] && r[s1][k1].id == r[s2][k2].id
          ensures s1 == s2 && k1 == k2
        {
          assert (s1, k1) != (s, k) ==> r[s1][k1] == squads[s1][k1] && squads[s1][k1].id != hero.id;
          assert (s2, k2) != (s, k) ==> r[s2][k2] == squads[s2][k2] && squads[s2][k2].id != hero.id;
        }
      }
    }
    r
  }

  /** The squads with slot `k` of squad `s` replaced by `slot`, nothing else changed. */
  function WithSlot(squads: map<int, Formation>, s: int, k: int, slot: LegacySlot): (r: map<int, Formation>)
    requires s in squads && k in squads[s]
    ensures r.Keys == squads.Keys && r[s] == squads[s][k := slot]
    ensures forall t :: t in squads && t != s ==> r[t] == squads[t]
    ensures NoDuplicates(squads) && slot.id == squads[s][k].id ==> NoDuplicates(r)
    ensures WithinCaps(squads) && SlotWithinCaps(slot) ==> WithinCaps(r)
  {
    var r := squads[s := squads[s][k := slot]];
    assert NoDuplicates(squads) && slot.id == squads[s][k].id ==> NoDuplicates(r) by {
      if NoDuplicates(squads) && slot.id == squads[s][k].id {
        forall s1, k1, s2, k2 |
          s1 in r && k1 in r[s1] && s2 in r && k2 in r[s2] && r[s1][k1].id == r[s2][k2].id
          ensures s1 == s2 && k1 == k2
        {
          assert r[s1][k1].id == squads[s1][k1].id && r[s2][k2].id == squads[s2][k2].id;
        }
      }
    }
    r
  }

  /** The squads with squad `s`'s formation replaced by one of its sub-formations: slots
      only disappear, so no id gains a second slot and no level changes. */
  function Shrunk(squads: map<int, Formation>, s: int, f: Formation): (r: map<int, Formation>)
    requires s in squads && f.Keys <= squads[s].Keys && forall k :: k in f ==> f[k] == squads[s][k]
    ensures r.Keys == squads.Keys && r[s] == f
    ensures forall t :: t in squads && t != s ==> r[t] == squads[t]
    ensures NoDuplicates(squads) ==> NoDuplicates(r)
    ensures WithinCaps(squads) ==> WithinCaps(r)
  {
    var r := squads[s := f];
    assert NoDuplicates(squads) ==> NoDuplicates(r) by {
      if NoDuplicates(squads) {
        forall s1, k1, s2, k2 |
          s1 in r && k1 in r[s1] && s2 in r && k2 in r[s2] && r[s1][k1].id == r[s2][k2].id
          ensures s1 == s2 && k1 == k2
        {
          assert r[s1][k1] == squads[s1][k1] && r[s2][k2] == squads[s2][k2];
        }
      }
    }
    r
  }

  /** `Math.min(max, Math.max(1, parseInt(val) || 1))`: a skill level in [1, cap], the typed
      level itself when it lies there. */
  function SkillLevelInput(raw: Option<int>, cap: int): (v: int)
    requires cap >= 1
    ensures 1 <= v <= cap
    ensures raw.Some? && 1 <= raw.value <= cap ==> v == raw.value
    ensures raw.None? || raw.value < 1 ==> v == 1
    ensures raw.Some? && raw.value > cap ==> v == cap
  {
    var p := ParseOr(raw, 1);
    if p < 1 then 1 else if p > cap then cap else p
  }

  /** The slot after `updateExLvl(slotId, raw)`: the weapon level becomes the typed level
      clamped into [1, 30] (1 when it does not parse), skills above the new cap come down
      to it, and the slot stays within its caps. */
  function WithExLvl(slot: LegacySlot, raw: Option<int>): (r: LegacySlot)
    ensures r.exLvl == ClampExLvl(ParseOr(raw, 1))
    ensures CappedFrom(slot.skills, r.skills, SkillCap(r.exLvl))
    ensures r.id == slot.id && r.name == slot.name
    ensures slot.skills.tactics >= 1 && slot.skills.passive >= 1 ==>
      1 <= r.skills.tactics <= SkillCap(r.exLvl) && 1 <= r.skills.passive <= SkillCap(r.exLvl)
  {
    var v := ClampExLvl(ParseOr(raw, 1));
    slot.(exLvl := v, skills := CapSkills(slot.skills, SkillCap(v)))
  }

  /** Adds one skill's share to the running totals, branching on its target. */
  method AddSkill(front: real, back: real, def: SkillDef, lvl: int, key: int) returns (front': real, back': real)
    ensures Totals(front', back') == Totals(front, back).Plus(SkillShare(def, lvl, key))
  {
    front', back' := front, back;
    if def.hasDR {
      var val := def.base + lvl as real * def.inc;
      if def.target == "team" {
        front' := front' + val;
        back' := back' + val;
      } else if def.target == "front" {
        front' := front' + val;
      } else if def.target == "self" {
        if key < 2 {
          front' := front' + val / 2.0;
        } else {
          back' := back' + val / 3.0;
        }
      }
    }
  }

  /** Adds the share of the slot under `key`: its hero's tactics, then its passive skill. */
  method AddSlot(heroes: seq<HeroBase>, front: real, back: real, slot: LegacySlot, key: int) returns (front': real, back': real)
    ensures Totals(front', back') == Totals(front, back).Plus(SlotShare(heroes, slot, key))
  {
    front', back' := front, back;
    var hero := FindHero(heroes, slot.id);
    if hero.Some? {
      front', back' := AddSkill(front', back', hero.value.tactics, slot.skills.tactics, key);
      front', back' := AddSkill(front', back', hero.value.passive, slot.skills.passive, key);
    }
  }

  /** A non-empty set has an element: the witness the scans' choices need. */
  lemma SomeElement<T>(s: set<T>) returns (x: T)
    requires s != {}
    ensures x in s
  {
    x :| x in s;
  }

  /** The engine: the module-level `db` and `currentSquad` of app.js over a fixed catalog. */
  class Engine {
    const heroes: seq<HeroBase>
    var squads: map<int, Formation>
    var currentSquad: int
    var global: Option<real>

    ghost predicate Valid()
      reads this
    {
      Shaped(squads) && currentSquad in squads && NoDuplicates(squads) && WithinCaps(squads)
    }

    /** The initial `db`: three empty squads, squad 1 current, a base reduction of 44. */
    constructor (heroes: seq<HeroBase>)
      ensures Valid() && this.heroes == heroes
      ensures squads == map[1 := map[], 2 := map[], 3 := map[]] && currentSquad == 1 && global == Some(44.0)
    {
      this.heroes := heroes;
      squads := map[1 := map[], 2 := map[], 3 := map[]];
      currentSquad := 1;
      global := Some(44.0);
    }

    /** `isHeroUsedAnywhere(id)`: the scan of every slot of every squad. */
    method IsHeroUsedAnywhere(id: string) returns (used: bool)
      ensures used <==> UsedAnywhere(squads, id)
    {
      var squadKeys := squads.Keys;
      while squadKeys != {}
        invariant squadKeys <= squads.Keys
        invariant forall s, k :: s in squads && s !in squadKeys && k in squads[s] ==> squads[s][k].id != id
        decreases squadKeys
      {
        ghost var _ := SomeElement(squadKeys);
        var s :| s in squadKeys;
        var slots := squads[s];
        var slotKeys := slots.Keys;
        while slotKeys != {}
          invariant slotKeys <= slots.Keys
          invariant forall k :: k in slots && k !in slotKeys ==> slots[k].id != id
          decreases slotKeys
        {
          ghost var _ := SomeElement(slotKeys);
          var k :| k in slotKeys;
          if slots[k].id == id {
            return true;
          }
          slotKeys := slotKeys - {k};
        }
        squadKeys := squadKeys - {s};
      }
      return false;
    }

    /** `assignHeroToSlot(hero, slotId)`: refused (the interface shows a notice) when the
      hero is already placed anywhere; otherwise the hero is written into the slot,
      replacing whatever it held. */
    method AssignHeroToSlot(hero: HeroBase, slotId: int) returns (placed: bool)
      requires Valid() && 0 <= slotId < SlotCount
      modifies this`squads
      ensures Valid()
      ensures placed <==> !UsedAnywhere(old(squads), hero.id)
      ensures placed ==> squads == Placed(old(squads), currentSquad, slotId, hero)
      ensures !placed ==> squads == old(squads)
    {
      var used := IsHeroUsedAnywhere(hero.id);
      if used {
        return false;
      }
      squads := squads[currentSquad := squads[currentSquad][slotId := FreshSlot(hero)]];
      assert squads == Placed(old(squads), currentSquad, slotId, hero);
      return true;
    }

    /** `calculateDR()`: the front and back totals of the current squad. */
    method CalculateDR() returns (front: real, back: real)
      requires Valid()
      ensures Totals(front, back) == FormationTotals(heroes, squads[currentSquad], BaseDr(global))
    {
      var base := BaseDr(global);
      front, back := base, base;
      var slots := squads[currentSquad];
      var k := 0;
      while k < SlotCount
        invariant 0 <= k <= SlotCount
        invariant Totals(front, back) == TotalsUpTo(heroes, slots, base, k)
      {
        if k in slots {
          front, back := AddSlot(heroes, front, back, slots[k], k);
        }
        k := k + 1;
      }
    }

    /** `updateExLvl(slotId, raw)` on a filled slot of the current squad. */
    method UpdateExLvl(slotId: int, raw: Option<int>)
      requires Valid() && slotId in squads[currentSquad]
      modifies this`squads
      ensures Valid()
      ensures squads == WithSlot(old(squads), currentSquad, slotId, WithExLvl(old(squads)[currentSquad][slotId], raw))
    {
      ghost var before := squads;
      var slot := squads[currentSquad][slotId];
      var v := ClampExLvl(ParseOr(raw, 1));
      slot := slot.(exLvl := v);
      var maxSkill := SkillCap(v);
      var skills := slot.skills;
      if skills.tactics > maxSkill {
        skills := skills.(tactics := maxSkill);
      }
      if skills.passive > maxSkill {
        skills := skills.(passive := maxSkill);
      }
      slot := slot.(skills := skills);
      assert slot == WithExLvl(before[currentSquad][slotId], raw);
      squads := squads[currentSquad := squads[currentSquad][slotId := slot]];
      assert squads == WithSlot(before, currentSquad, slotId, slot);
    }

    /** `updateSkillLvl(slotId, kind, raw)` on a filled slot of the current squad. */
    method UpdateSkillLvl(slotId: int, kind: SkillKind, raw: Option<int>)
      requires Valid() && slotId in squads[currentSquad]
      modifies this`squads
      ensures Valid()
      ensures var slot := old(squads)[currentSquad][slotId];
        squads == WithSlot(old(squads), currentSquad, slotId,
                           slot.(skills := slot.skills.With(kind, SkillLevelInput(raw, SkillCap(slot.exLvl)))))
    {
      var data := squads[currentSquad][slotId];
      var max := SkillCap(data.exLvl);
      data := data.(skills := data.skills.With(kind, SkillLevelInput(raw, max)));
      squads := squads[currentSquad := squads[currentSquad][slotId := data]];
    }

    /** `removeFromSlot(slotId)`: the key is deleted from the current squad's slots. */
    method RemoveFromSlot(slotId: int)
      requires Valid()
      modifies this`squads
      ensures Valid()
      ensures squads == Shrunk(old(squads), currentSquad, old(squads)[currentSquad] - {slotId})
    {
      squads := squads[currentSquad := squads[currentSquad] - {slotId}];
    }

    /** `clearFormation()`: once the user confirms, the current squad's slots become `{}`. */
    method ClearFormation(confirmed: bool)
      requires Valid()
      modifies this`squads
      ensures Valid()
      ensures confirmed ==> squads == Shrunk(old(squads), currentSquad, map[])
      ensures !confirmed ==> squads == old(squads)
    {
      if confirmed {
        squads := squads[currentSquad := map[]];
      }
    }

    method SwitchSquad(n: int)
      requires Valid() && n in {1, 2, 3}
      modifies this`currentSquad
      ensures Valid() && currentSquad == n
    {
      currentSquad := n;
    }

    /** `updateBaseDR()`: the typed base reduction, kept as typed. */
    method UpdateBaseDR(raw: Option<real>)
      requires Valid()
      modifies this`global
      ensures Valid() && global == raw
    {
      global := raw;
    }
  }
}
