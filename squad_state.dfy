/** The squad store of src/hooks/useSquadState.ts: the same squads and archive as the
    other store, with the ten global stats of the advanced-protection and drone-chip
    revision, a load that fills in missing stat keys, and an assignment that archives the
    hero it displaces from the target slot. There is no confirmation step. */
module SquadState {
  import opened Squads
  import opened SquadOps

  /** The keys of this revision's `globalBaseStats`. */
  const StateKeys: set<string> := {
    "sf_advanced_protection_1", "sf_advanced_protection_2", "drone_lvl",
    "drone_quantum_chip_ac_lvl", "drone_memory_chip_ac_lvl",
    "drone_quantum_chip_missile_lvl", "drone_memory_chip_missile_lvl",
    "drone_quantum_chip_tank_lvl", "drone_memory_chip_tank_lvl",
    "other_red"}

  /** The six drone-chip keys among them. */
  predicate IsChipKey(key: string) {
    || key == "drone_quantum_chip_ac_lvl" || key == "drone_memory_chip_ac_lvl"
    || key == "drone_quantum_chip_missile_lvl" || key == "drone_memory_chip_missile_lvl"
    || key == "drone_quantum_chip_tank_lvl" || key == "drone_memory_chip_tank_lvl"
  }

  // ----- string facts the stat rules dispatch on -----

  /** A drone key with "chip" at position `i` (13 or later) is a chip key to every rule. */
  lemma ChipKeyAt(key: string, i: nat)
    requires 13 <= i && i + 4 <= |key| && key[0] == 'd'
    requires key[i] == 'c' && key[i + 1] == 'h' && key[i + 2] == 'i' && key[i + 3] == 'p'
    ensures Contains(key, "chip") && !StartsWith(key, "sf_advanced_protection") && key != "drone_lvl"
  {
    assert |key| != |"drone_lvl"|;
    assert key[i..][..4] == "chip";
    assert StartsWith(key[i..], "chip");
    if 22 <= |key| {
      assert key[..22][0] == key[0];
    }
  }

  lemma ChipKeysContainChip(key: string)
    requires IsChipKey(key)
    ensures Contains(key, "chip") && !StartsWith(key, "sf_advanced_protection") && key != "drone_lvl"
  {
    if key == "drone_quantum_chip_ac_lvl" {
      ChipKeyAt(key, 14);
    } else if key == "drone_quantum_chip_missile_lvl" {
      ChipKeyAt(key, 14);
    } else if key == "drone_quantum_chip_tank_lvl" {
      ChipKeyAt(key, 14);
    } else if key == "drone_memory_chip_ac_lvl" {
      ChipKeyAt(key, 13);
    } else if key == "drone_memory_chip_missile_lvl" {
      ChipKeyAt(key, 13);
    } else {
      ChipKeyAt(key, 13);
    }
  }

  lemma OtherRedHasNoChip()
    ensures !Contains("other_red", "chip") && !StartsWith("other_red", "sf_advanced_protection")
  {
    var s := "other_red";
    assert forall j :: 0 <= j < |s| ==> s[j] != 'c';
    forall i | 0 <= i <= |s| ensures !StartsWith(s[i..], "chip") {
      if i + 4 <= |s| {
        assert s[i..][..4][0] == s[i];
      }
    }
  }

  /** How the stat rules classify the known keys. */
  lemma KeyFacts(key: string)
    ensures IsChipKey(key) ==> Contains(key, "chip") && !StartsWith(key, "sf_advanced_protection") && key != "drone_lvl"
    ensures key == "other_red" ==> !Contains(key, "chip") && !StartsWith(key, "sf_advanced_protection")
  {
    if IsChipKey(key) {
      ChipKeysContainChip(key);
    }
    if key == "other_red" {
      OtherRedHasNoChip();
    }
  }

  // ----- global stats -----

  /** The stat stored for `key` at `level`: a drone at level 200 or more gives 5 %, each
      advanced-protection node 1.5 % per level, a drone chip nothing, `other_red` its own
      level as a percentage, any other key nothing. */
  function DeriveStat(key: string, level: int): (r: GlobalStat)
    ensures r.level == level && r.phys == r.ener
    ensures key == "drone_lvl" ==> r.phys == if level >= 200 then 5.0 else 0.0
    ensures StartsWith(key, "sf_advanced_protection") ==> r.phys == 1.5 * level as real
    ensures IsChipKey(key) ==> r.phys == 0.0
    ensures key == "other_red" ==> r.phys == level as real
  {
    KeyFacts(key);
    if key == "drone_lvl" && level >= 200 then GlobalStat(level, 5.0, 5.0)
    else if StartsWith(key, "sf_advanced_protection") then GlobalStat(level, 1.5 * level as real, 1.5 * level as real)
    else if Contains(key, "chip") then GlobalStat(level, 0.0, 0.0)
    else if key == "other_red" then GlobalStat(level, level as real, level as real)
    else GlobalStat(level, 0.0, 0.0)
  }

  /** Every stored stat carries the reductions its level derives. */
  ghost predicate Derived(stats: map<string, GlobalStat>) {
    forall key :: key in stats ==> stats[key] == DeriveStat(key, stats[key].level)
  }

  function InitialStats(): (r: map<string, GlobalStat>)
    ensures r.Keys == StateKeys && Derived(r)
    ensures forall k :: k in r ==> r[k] == GlobalStat(0, 0.0, 0.0)
  {
    map key | key in StateKeys :: GlobalStat(0, 0.0, 0.0)
  }

  function InitialDb(): (db: AppDb)
    ensures WellShaped(db) && Unique(db.squads) && db.heroStats == map[]
    ensures db.globalBaseStats.Keys == StateKeys && Derived(db.globalBaseStats)
    ensures db.currentSquadIdx == 0 && db.squads == InitialSquads() && db.globalBaseStats == InitialStats()
  {
    AppDb(0, InitialSquads(), InitialStats(), map[])
  }

  /** `{ ...defaults, ...stored }`: every default key is present, a stored stat wins over
      the default, and a stored key outside the defaults is kept. */
  function MergeStats(stored: map<string, GlobalStat>): (r: map<string, GlobalStat>)
    ensures r.Keys == StateKeys + stored.Keys
    ensures forall key :: key in stored ==> r[key] == stored[key]
    ensures forall key :: key in StateKeys && key !in stored ==> r[key] == GlobalStat(0, 0.0, 0.0)
    ensures Derived(stored) ==> Derived(r)
  {
    InitialStats() + stored
  }

  /** The state read at start-up from an already parsed snapshot (`None`: nothing stored, or
      a snapshot that did not parse): null slots become empty slots, a missing squad list
      becomes the defaults, and the stored stats are laid over the default table. */
  function LoadDb(saved: Option<StoredDb>): (db: AppDb)
    ensures saved.None? ==> db == InitialDb()
    ensures saved.Some? ==>
      && db.currentSquadIdx == saved.value.currentSquadIdx
      && db.heroStats == saved.value.heroStats
      && db.squads == (if saved.value.squads.Some? then NormaliseSquads(saved.value.squads.value) else InitialSquads())
      && db.globalBaseStats == MergeStats(saved.value.globalBaseStats.GetOr(map[]))
    ensures StateKeys <= db.globalBaseStats.Keys
  {
    match saved
    case None => InitialDb()
    case Some(p) =>
      AppDb(p.currentSquadIdx,
            if p.squads.Some? then NormaliseSquads(p.squads.value) else InitialSquads(),
            MergeStats(p.globalBaseStats.GetOr(map[])),
            p.heroStats)
  }

  /** The stats after `updateGlobalStat(key, raw)`: the parsed level (0 when it does not
      parse) and its derived reductions under `key`; every other key is kept and the
      table stays consistent with its levels. */
  function WithStat(stats: map<string, GlobalStat>, key: string, raw: Option<int>): (r: map<string, GlobalStat>)
    ensures r.Keys == stats.Keys + {key}
    ensures r[key].level == ParseOr(raw, 0) && r[key] == DeriveStat(key, r[key].level)
    ensures forall other :: other in stats && other != key ==> r[other] == stats[other]
    ensures Derived(stats) ==> Derived(r)
  {
    stats[key := DeriveStat(key, ParseOr(raw, 0))]
  }

  lemma DerivedAt(stats: map<string, GlobalStat>, key: string)
    requires Derived(stats) && key in stats
    ensures stats[key] == DeriveStat(key, stats[key].level)
  {
  }

  /** Both advanced-protection keys fall under the 1.5 % per level rule. */
  lemma ProtectionNodeKeys()
    ensures StartsWith("sf_advanced_protection_1", "sf_advanced_protection")
    ensures StartsWith("sf_advanced_protection_2", "sf_advanced_protection")
  {
    assert "sf_advanced_protection_1"[..22] == "sf_advanced_protection";
    assert "sf_advanced_protection_2"[..22] == "sf_advanced_protection";
  }

  /** In a table consistent with its levels the chip entries reduce nothing, whatever
      level was typed into them. */
  lemma ChipsReduceNothing(stats: map<string, GlobalStat>, key: string)
    requires Derived(stats) && key in stats && IsChipKey(key)
    ensures stats[key].phys == 0.0 && stats[key].ener == 0.0
  {
  }

  // ----- assignment -----

  /** The state after `performAssignHero(heroId, slotIdx)`: an unknown id changes nothing;
      otherwise the hero is moved into the target slot of the current squad (see
      `MovedSquads`), and a different hero that sat in the target slot is archived whole
      under its id. */
  function AssignedDb(db: AppDb, heroes: seq<HeroBase>, heroId: string, slotIdx: int): (r: AppDb)
    requires WellShaped(db) && 0 <= slotIdx < SlotCount
    ensures WellShaped(r)
    ensures r.currentSquadIdx == db.currentSquadIdx && r.globalBaseStats == db.globalBaseStats
    ensures FindHero(heroes, heroId).None? ==> r == db
    ensures FindHero(heroes, heroId).Some? ==> r.squads == MovedSquads(db, FindHero(heroes, heroId).value, slotIdx)
    ensures FindHero(heroes, heroId).Some? && AtMostOnce(db.squads, heroId) ==>
      forall s, k :: HoldsAt(r.squads, s, k, heroId) <==> s == db.currentSquadIdx && k == slotIdx
    ensures var occupant := CurrentSlot(db, slotIdx);
      FindHero(heroes, heroId).Some? && Occupied(occupant) && occupant.id != Some(heroId) ==>
        r.heroStats == db.heroStats[occupant.id.value := occupant]
    ensures var occupant := CurrentSlot(db, slotIdx);
      AtMostOnce(db.squads, heroId) && (!Occupied(occupant) || occupant.id == Some(heroId)) ==>
        r.heroStats == db.heroStats
    ensures Unique(db.squads) ==> Unique(r.squads)
  {
    match FindHero(heroes, heroId)
    case None => db
    case Some(hero) =>
      MoveKeepsUnique(db, hero, slotIdx);
      AssignedDbFromMove(db, hero, slotIdx)
  }

  /** The reducer of `performAssignHero` for a hero found in the catalog. */
  function AssignedDbFromMove(db: AppDb, hero: HeroBase, slotIdx: int): (r: AppDb)
    requires WellShaped(db) && 0 <= slotIdx < SlotCount
    ensures r.squads == MovedSquads(db, hero, slotIdx)
    ensures r.currentSquadIdx == db.currentSquadIdx && r.globalBaseStats == db.globalBaseStats
    ensures var occupant := CurrentSlot(db, slotIdx);
      Occupied(occupant) && occupant.id != Some(hero.id) ==>
        r.heroStats == db.heroStats[occupant.id.value := occupant]
    ensures var occupant := CurrentSlot(db, slotIdx);
      AtMostOnce(db.squads, hero.id) && (!Occupied(occupant) || occupant.id == Some(hero.id)) ==>
        r.heroStats == db.heroStats
  {
    var occupant := ClearHero(db.squads, hero.id)[db.currentSquadIdx].slots[slotIdx];
    var heroStats := if Occupied(occupant) then db.heroStats[occupant.id.value := occupant] else db.heroStats;
    db.(squads := MovedSquads(db, hero, slotIdx), heroStats := heroStats)
  }

  /** Archive round trip for a displaced hero: after `hero` takes a slot held by `other`,
      assigning `other` again, to any slot of any squad, restores the levels it had. */
  lemma DisplacedThenReassignedRestores(db: AppDb, hero: HeroBase, k: int, c2: int, other: HeroBase, t: int)
    requires WellShaped(db) && Unique(db.squads)
    requires 0 <= k < SlotCount && 0 <= c2 < SquadCount && 0 <= t < SlotCount
    requires CurrentSlot(db, k).id == Some(other.id) && other.id != "" && other.id != hero.id
    ensures var displaced := AssignedDbFromMove(db, hero, k).(currentSquadIdx := c2);
            var placed := MovedSquads(displaced, other, t)[c2].slots[t];
            && placed.id == Some(other.id)
            && placed.exLvl == CurrentSlot(db, k).exLvl
            && placed.stars == CurrentSlot(db, k).stars
            && placed.skills == CurrentSlot(db, k).skills
  {
    var displaced := AssignedDbFromMove(db, hero, k).(currentSquadIdx := c2);
    assert AtMostOnce(db.squads, other.id) && AtMostOnce(db.squads, hero.id);
    forall s, j ensures !HoldsAt(displaced.squads, s, j, other.id) {
      if HoldsAt(displaced.squads, s, j, other.id) {
        assert (s, j) != (db.currentSquadIdx, k);
        assert HoldsAt(db.squads, s, j, other.id);
        assert HoldsAt(db.squads, db.currentSquadIdx, k, other.id);
        assert false;
      }
    }
    assert SavedStats(displaced, other.id) == Some(CurrentSlot(db, k));
  }

  /** The store: the state `db` over a fixed hero catalog. */
  class Store {
    const heroes: seq<HeroBase>
    var db: AppDb

    ghost predicate Valid()
      reads this
    {
      WellShaped(db) && StateKeys <= db.globalBaseStats.Keys
    }

    constructor (heroes: seq<HeroBase>, saved: Option<StoredDb>)
      requires WellShaped(LoadDb(saved))
      ensures Valid() && this.heroes == heroes && db == LoadDb(saved)
    {
      this.heroes := heroes;
      db := LoadDb(saved);
    }

    method UpdateGlobalStat(key: string, raw: Option<int>)
      requires Valid()
      modifies this
      ensures Valid()
      ensures db == old(db).(globalBaseStats := WithStat(old(db).globalBaseStats, key, raw))
    {
      var val := ParseOr(raw, 0);
      var stat := DeriveStat(key, val);
      db := db.(globalBaseStats := db.globalBaseStats[key := stat]);
    }

    method SwitchSquad(idx: int)
      requires Valid() && 0 <= idx < SquadCount
      modifies this
      ensures Valid() && db == old(db).(currentSquadIdx := idx)
    {
      db := db.(currentSquadIdx := idx);
    }

    method UpdateHeroSlot(slotIdx: int, updates: SlotUpdate)
      requires Valid() && 0 <= slotIdx < SlotCount
      modifies this
      ensures Valid() && db == UpdateHeroSlotDb(old(db), slotIdx, updates)
    {
      var newSquads := db.squads;
      var squad := newSquads[db.currentSquadIdx];
      var slots := squad.slots;
      var u := updates;
      if updates.exLvl.Some? {
        var v := ClampExLvl(updates.exLvl.value);
        var maxSkill := SkillCap(v);
        u := u.(exLvl := Some(v), skills := Some(CapSkills(slots[slotIdx].skills, maxSkill)));
      }
      slots := slots[slotIdx := Merge(slots[slotIdx], u)];
      newSquads := newSquads[db.currentSquadIdx := squad.(slots := slots)];
      db := db.(squads := newSquads);
    }

    method UpdateSkill(slotIdx: int, kind: SkillKind, raw: Option<int>)
      requires Valid() && 0 <= slotIdx < SlotCount
      modifies this
      ensures Valid() && db == UpdateSkillDb(old(db), slotIdx, kind, raw)
    {
      var val := SkillInput(raw);
      var newSquads := db.squads;
      var currentSquadIdx := db.currentSquadIdx;
      var squad := newSquads[currentSquadIdx];
      var slots := squad.slots;
      var slot := slots[slotIdx];
      slot := slot.(skills := slot.skills.With(kind, val));
      slots := slots[slotIdx := slot];
      newSquads := newSquads[currentSquadIdx := squad.(slots := slots)];
      db := db.(squads := newSquads);
    }

    method PerformAssignHero(heroId: string, slotIdx: int)
      requires Valid() && 0 <= slotIdx < SlotCount
      modifies this
      ensures Valid() && db == AssignedDb(old(db), heroes, heroId, slotIdx)
    {
      var heroBase := FindHero(heroes, heroId);
      if heroBase.None? {
        return;
      }
      var hero := heroBase.value;
      var found := FindExisting(db.squads, heroId);
      var savedStats: Option<SlotData> := None;
      if found.Some? {
        savedStats := Some(db.squads[found.value.squad].slots[found.value.slot]);
      }
      if savedStats.None? && heroId in db.heroStats {
        savedStats := Some(db.heroStats[heroId]);
      }
      assert savedStats == SavedStats(db, hero.id);
      var newSquads := ClearHeroEverywhere(db.squads, heroId);
      var currentSquadIdx := db.currentSquadIdx;
      var currentSquad := newSquads[currentSquadIdx];
      var occupant := currentSquad.slots[slotIdx];
      var updatedHeroStats := db.heroStats;
      if Occupied(occupant) {
        updatedHeroStats := updatedHeroStats[occupant.id.value := occupant];
      }
      var newSlots := currentSquad.slots[slotIdx := RestoredSlot(hero, savedStats)];
      newSquads := newSquads[currentSquadIdx := currentSquad.(slots := newSlots)];
      db := db.(squads := newSquads, heroStats := updatedHeroStats);
    }

    method RemoveHero(slotIdx: int)
      requires Valid() && 0 <= slotIdx < SlotCount
      modifies this
      ensures Valid() && db == RemovedDb(old(db), slotIdx)
    {
      var currentSquadIdx := db.currentSquadIdx;
      var hero := db.squads[currentSquadIdx].slots[slotIdx];
      if !Occupied(hero) {
        return;
      }
      var newHeroStats := db.heroStats[hero.id.value := ArchiveEntry(hero)];
      var newSquads := db.squads;
      var currentSquad := newSquads[currentSquadIdx];
      newSquads := newSquads[currentSquadIdx := currentSquad.(slots := currentSquad.slots[slotIdx := EmptySlot()])];
      db := db.(squads := newSquads, heroStats := newHeroStats);
    }
  }
}
