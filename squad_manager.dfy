/** The squad store of src/hooks/useSquadManager.ts, the revision the application
    mounts: a state of three squads, the global stats keyed `sf_tech_1`, `sf_tech_2`,
    `drone_lvl` and `other_red`, and an archive of removed heroes' levels; hero
    assignment moves a hero, asking for confirmation first unless the user opted out. */
module SquadManager {
  import opened Squads
  import opened SquadOps

  /** The keys of this revision's `globalBaseStats`. */
  const StatKeys: set<string> := {"sf_tech_1", "sf_tech_2", "drone_lvl", "other_red"}

  // ----- global stats -----

  /** The stat stored for `key` at `level`: a drone at level 200 or more gives 5 %, each
      special-forces technology 1.5 % per level, everything else (`other_red` included) 0. */
  function DeriveStat(key: string, level: int): (r: GlobalStat)
    ensures r.level == level && r.phys == r.ener
    ensures key == "drone_lvl" ==> r.phys == if level >= 200 then 5.0 else 0.0
    ensures StartsWith(key, "sf_tech") ==> r.phys == 1.5 * level as real
    ensures key != "drone_lvl" && !StartsWith(key, "sf_tech") ==> r.phys == 0.0
  {
    DroneKeyIsNoTechnology();
    if key == "drone_lvl" && level >= 200 then GlobalStat(level, 5.0, 5.0)
    else if StartsWith(key, "sf_tech") then GlobalStat(level, 1.5 * level as real, 1.5 * level as real)
    else if key == "other_red" then GlobalStat(level, 0.0, 0.0)
    else GlobalStat(level, 0.0, 0.0)
  }

  lemma DroneKeyIsNoTechnology()
    ensures !StartsWith("drone_lvl", "sf_tech")
  {
    assert "drone_lvl"[..7][0] == 'd';
  }

  /** Every stored stat carries the reductions its level derives. */
  ghost predicate Derived(stats: map<string, GlobalStat>) {
    forall key :: key in stats ==> stats[key] == DeriveStat(key, stats[key].level)
  }

  function InitialStats(): (r: map<string, GlobalStat>)
    ensures r.Keys == StatKeys && Derived(r)
    ensures forall k :: k in r ==> r[k] == GlobalStat(0, 0.0, 0.0)
  {
    map key | key in StatKeys :: GlobalStat(0, 0.0, 0.0)
  }

  function InitialDb(): (db: AppDb)
    ensures WellShaped(db) && Unique(db.squads) && db.heroStats == map[]
    ensures db.globalBaseStats.Keys == StatKeys && Derived(db.globalBaseStats)
    ensures db.currentSquadIdx == 0 && db.squads == InitialSquads() && db.globalBaseStats == InitialStats()
  {
    AppDb(0, InitialSquads(), InitialStats(), map[])
  }

  /** The state read at start-up from an already parsed snapshot (`None`: nothing stored, or
      a snapshot that did not parse). Null slots become empty slots, a missing squad list
      or stats table falls back to the defaults; a stats table that is present is kept
      whole, with none of the default keys added to it. */
  function LoadDb(saved: Option<StoredDb>): (db: AppDb)
    ensures saved.None? ==> db == InitialDb()
    ensures saved.Some? ==>
      && db.currentSquadIdx == saved.value.currentSquadIdx
      && db.heroStats == saved.value.heroStats
      && db.squads == (if saved.value.squads.Some? then NormaliseSquads(saved.value.squads.value) else InitialSquads())
      && db.globalBaseStats == saved.value.globalBaseStats.GetOr(InitialStats())
  {
    match saved
    case None => InitialDb()
    case Some(p) =>
      AppDb(p.currentSquadIdx,
            if p.squads.Some? then NormaliseSquads(p.squads.value) else InitialSquads(),
            p.globalBaseStats.GetOr(InitialStats()),
            p.heroStats)
  }

  /** The stats after `updateGlobalStat(key, raw)`: the parsed level (0 when it does not
      parse) and its derived reductions under `key`; every other key is kept and the
      table stays consistent with its levels. */
  function WithStat(stats: map<string, GlobalStat>, key: string, raw: Option<int>): (r: map<string, GlobalStat>)
    ensures r.Keys == stats.Keys + {key}
    ensures r[key].level == ParseOr(raw, 0) && r[key] == DeriveStat(key, r[key].level)
    ensures forall other :: other in stats && other != key ==> r[other] == stats[other]
    ensures Derived(stats) ==> Derived(r)
  {
    stats[key := DeriveStat(key, ParseOr(raw, 0))]
  }

  /** `calculateDR(slotIdx)`: the drone and both technology reductions added up. */
  function CalculateDR(stats: map<string, GlobalStat>, slotIdx: int): DrStats
    requires "drone_lvl" in stats && "sf_tech_1" in stats && "sf_tech_2" in stats
  {
    DrStats(stats["drone_lvl"].phys + stats["sf_tech_1"].phys + stats["sf_tech_2"].phys,
            stats["drone_lvl"].ener + stats["sf_tech_1"].ener + stats["sf_tech_2"].ener)
  }

  /** With every stat derived from its level, the reduction shown for a slot is 5 % for a
      drone at level 200 or more plus 1.5 % per technology level, in both kinds, for every
      slot alike; `other_red` plays no part. */
  lemma DrFromLevels(stats: map<string, GlobalStat>, i: int, j: int)
    requires "drone_lvl" in stats && "sf_tech_1" in stats && "sf_tech_2" in stats
    requires Derived(stats)
    ensures var x := (if stats["drone_lvl"].level >= 200 then 5.0 else 0.0)
                     + 1.5 * (stats["sf_tech_1"].level + stats["sf_tech_2"].level) as real;
            CalculateDR(stats, i) == DrStats(x, x)
    ensures CalculateDR(stats, i) == CalculateDR(stats, j)
  {
    assert "sf_tech_1"[..7] == "sf_tech" && "sf_tech_2"[..7] == "sf_tech";
  }

  // ----- assignment -----

  /** The state after `performAssignHero(heroId, slotIdx)`: an unknown id changes nothing;
      otherwise the hero is moved into the target slot of the current squad (see
      `MovedSquads`), keeping every hero in at most one slot. */
  function PerformAssignDb(db: AppDb, heroes: seq<HeroBase>, heroId: string, slotIdx: int): (r: AppDb)
    requires WellShaped(db) && 0 <= slotIdx < SlotCount
    ensures WellShaped(r)
    ensures r.currentSquadIdx == db.currentSquadIdx && r.globalBaseStats == db.globalBaseStats
    ensures r.heroStats == db.heroStats
    ensures FindHero(heroes, heroId).None? ==> r == db
    ensures FindHero(heroes, heroId).Some? ==> r.squads == MovedSquads(db, FindHero(heroes, heroId).value, slotIdx)
    ensures FindHero(heroes, heroId).Some? && AtMostOnce(db.squads, heroId) ==>
      forall s, k :: HoldsAt(r.squads, s, k, heroId) <==> s == db.currentSquadIdx && k == slotIdx
    ensures Unique(db.squads) ==> Unique(r.squads)
  {
    match FindHero(heroes, heroId)
    case None => db
    case Some(hero) =>
      MoveKeepsUnique(db, hero, slotIdx);
      db.(squads := MovedSquads(db, hero, slotIdx))
  }

  /** What `assignHero` does with a request. */
  datatype Gate = Ignore | AlreadyThere | AskConfirmation | Move

  /** The decision of `assignHero(heroId, slotIdx)`: an unknown hero is ignored, a hero
      already in the target slot stays, a hero placed elsewhere asks for confirmation unless
      the user opted out; every other request moves the hero. */
  function AssignGate(db: AppDb, heroes: seq<HeroBase>, dontAsk: bool, heroId: string, slotIdx: int): (g: Gate)
    requires WellShaped(db)
    ensures g == Ignore <==> FindHero(heroes, heroId).None?
    ensures g == AlreadyThere ==> HoldsAt(db.squads, db.currentSquadIdx, slotIdx, heroId)
    ensures g == AskConfirmation ==>
      !dontAsk && exists s, k :: HoldsAt(db.squads, s, k, heroId) && (s != db.currentSquadIdx || k != slotIdx)
    ensures g == Move ==> dontAsk || forall s, k :: !HoldsAt(db.squads, s, k, heroId)
    ensures g != Ignore && AtMostOnce(db.squads, heroId) ==>
      (g == AlreadyThere <==> HoldsAt(db.squads, db.currentSquadIdx, slotIdx, heroId))
  {
    if FindHero(heroes, heroId).None? then Ignore
    else
      match FirstHolder(db.squads, heroId, 0)
      case None => Move
      case Some(p) =>
        if p == Pos(db.currentSquadIdx, slotIdx) then AlreadyThere
        else if dontAsk then Move
        else AskConfirmation
  }

  /** The move waiting in the confirmation dialog. */
  datatype PendingMove = PendingMove(heroId: string, slotIdx: int)

  /** The store: the state `db`, the persisted "don't ask again" preference, and the move
      the confirmation dialog is showing, if any. */
  class Store {
    const heroes: seq<HeroBase>
    var db: AppDb
    var dontAskMoveConfirmation: bool
    var pending: Option<PendingMove>

    ghost predicate Valid()
      reads this
    {
      && WellShaped(db)
      && (pending.Some? ==> 0 <= pending.value.slotIdx < SlotCount)
      && (pending.Some? ==> FindHero(heroes, pending.value.heroId).Some?)
    }

    constructor (heroes: seq<HeroBase>, saved: Option<StoredDb>, dontAsk: bool)
      requires WellShaped(LoadDb(saved))
      ensures Valid() && this.heroes == heroes && db == LoadDb(saved)
      ensures dontAskMoveConfirmation == dontAsk && pending == None
    {
      this.heroes := heroes;
      db := LoadDb(saved);
      dontAskMoveConfirmation := dontAsk;
      pending := None;
    }

    method UpdateGlobalStat(key: string, raw: Option<int>)
      requires Valid()
      modifies this`db
      ensures Valid()
      ensures db == old(db).(globalBaseStats := WithStat(old(db).globalBaseStats, key, raw))
    {
      var val := ParseOr(raw, 0);
      var stat := DeriveStat(key, val);
      db := db.(globalBaseStats := db.globalBaseStats[key := stat]);
    }

    method SwitchSquad(idx: int)
      requires Valid() && 0 <= idx < SquadCount
      modifies this`db
      ensures Valid() && db == old(db).(currentSquadIdx := idx)
    {
      db := db.(currentSquadIdx := idx);
    }

    method UpdateHeroSlot(slotIdx: int, updates: SlotUpdate)
      requires Valid() && 0 <= slotIdx < SlotCount
      modifies this`db
      ensures Valid() && db == UpdateHeroSlotDb(old(db), slotIdx, updates)
    {
      var newSquads := db.squads;
      var squad := newSquads[db.currentSquadIdx];
      var slots := squad.slots;
      var u := updates;
      if updates.exLvl.Some? {
        var v := ClampExLvl(updates.exLvl.value);
        var maxSkill := SkillCap(v);
        u := u.(exLvl := Some(v), skills := Some(CapSkills(slots[slotIdx].skills, maxSkill)));
      }
      slots := slots[slotIdx := Merge(slots[slotIdx], u)];
      newSquads := newSquads[db.currentSquadIdx := squad.(slots := slots)];
      db := db.(squads := newSquads);
    }

    method UpdateSkill(slotIdx: int, kind: SkillKind, raw: Option<int>)
      requires Valid() && 0 <= slotIdx < SlotCount
      modifies this`db
      ensures Valid() && db == UpdateSkillDb(old(db), slotIdx, kind, raw)
    {
      var val := SkillInput(raw);
      var newSquads := db.squads;
      var squad := newSquads[db.currentSquadIdx];
      var slots := squad.slots;
      var slot := slots[slotIdx];
      slot := slot.(skills := slot.skills.With(kind, val));
      slots := slots[slotIdx := slot];
      newSquads := newSquads[db.currentSquadIdx := squad.(slots := slots)];
      db := db.(squads := newSquads);
    }

    method PerformAssignHero(heroId: string, slotIdx: int)
      requires Valid() && 0 <= slotIdx < SlotCount
      modifies this`db, this`pending
      ensures Valid()
      ensures db == PerformAssignDb(old(db), heroes, heroId, slotIdx)
      ensures pending == if FindHero(heroes, heroId).Some? then None else old(pending)
    {
      var heroBase := FindHero(heroes, heroId);
      if heroBase.None? {
        return;
      }
      var hero := heroBase.value;
      ghost var before := db;
      var found := FindExisting(db.squads, heroId);
      var savedStats: Option<SlotData> := None;
      if found.Some? {
        savedStats := Some(db.squads[found.value.squad].slots[found.value.slot]);
      }
      if savedStats.None? && heroId in db.heroStats {
        savedStats := Some(db.heroStats[heroId]);
      }
      assert savedStats == SavedStats(db, hero.id);
      var newSquads := ClearHeroEverywhere(db.squads, heroId);
      var currentSquad := newSquads[db.currentSquadIdx];
      var newSlots := currentSquad.slots[slotIdx := RestoredSlot(hero, savedStats)];
      newSquads := newSquads[db.currentSquadIdx := currentSquad.(slots := newSlots)];
      assert newSquads == MovedSquads(before, hero, slotIdx);
      db := db.(squads := newSquads);
      pending := None;
    }

    method AssignHero(heroId: string, slotIdx: int)
      requires Valid() && 0 <= slotIdx < SlotCount
      modifies this`db, this`pending
      ensures Valid()
      ensures var g := AssignGate(old(db), heroes, dontAskMoveConfirmation, heroId, slotIdx);
        && (g == Ignore || g == AlreadyThere ==> db == old(db) && pending == old(pending))
        && (g == AskConfirmation ==> db == old(db) && pending == Some(PendingMove(heroId, slotIdx)))
        && (g == Move ==> db == PerformAssignDb(old(db), heroes, heroId, slotIdx) && pending == None)
    {
      var heroBase := FindHero(heroes, heroId);
      if heroBase.None? {
        return;
      }
      var existing := FindExisting(db.squads, heroId);
      if existing.Some? {
        if existing.value == Pos(db.currentSquadIdx, slotIdx) {
          return;
        }
        if dontAskMoveConfirmation {
          PerformAssignHero(heroId, slotIdx);
          return;
        }
        pending := Some(PendingMove(heroId, slotIdx));
        return;
      }
      PerformAssignHero(heroId, slotIdx);
    }

    /** The dialog's confirm button, only shown while a move is pending. */
    method ConfirmMove(dontAskAgain: bool)
      requires Valid() && pending.Some?
      modifies this`db, this`pending, this`dontAskMoveConfirmation
      ensures Valid()
      ensures dontAskMoveConfirmation == (old(dontAskMoveConfirmation) || dontAskAgain)
      ensures db == PerformAssignDb(old(db), heroes, old(pending).value.heroId, old(pending).value.slotIdx)
      ensures pending == None
    {
      var move := pending.value;
      if dontAskAgain {
        dontAskMoveConfirmation := true;
      }
      PerformAssignHero(move.heroId, move.slotIdx);
    }

    /** The dialog's cancel button: the state is left as it was. */
    method CloseModal()
      requires Valid()
      modifies this`pending
      ensures Valid() && pending == None
    {
      pending := None;
    }

    method RemoveHero(slotIdx: int)
      requires Valid() && 0 <= slotIdx < SlotCount
      modifies this`db
      ensures Valid() && db == RemovedDb(old(db), slotIdx)
    {
      var currentSquadIdx := db.currentSquadIdx;
      var hero := db.squads[currentSquadIdx].slots[slotIdx];
      if !Occupied(hero) {
        return;
      }
      var newHeroStats := db.heroStats[hero.id.value := ArchiveEntry(hero)];
      var newSquads := db.squads;
      var currentSquad := newSquads[currentSquadIdx];
      newSquads := newSquads[currentSquadIdx := currentSquad.(slots := currentSquad.slots[slotIdx := EmptySlot()])];
      db := db.(squads := newSquads, heroStats := newHeroStats);
    }
  }

  /** Move confirmation: a request to move a hero placed elsewhere leaves the squads
      untouched while the user has not opted out, and once the user has opted out the same
      request performs the move directly. */
  lemma OptOutSkipsConfirmation(db: AppDb, heroes: seq<HeroBase>, heroId: string, slotIdx: int)
    requires WellShaped(db) && 0 <= slotIdx < SlotCount && Unique(db.squads)
    requires FindHero(heroes, heroId).Some?
    requires exists s, k :: HoldsAt(db.squads, s, k, heroId) && (s != db.currentSquadIdx || k != slotIdx)
    ensures AssignGate(db, heroes, false, heroId, slotIdx) == AskConfirmation
    ensures AssignGate(db, heroes, true, heroId, slotIdx) == Move
  {
    var s, k :| HoldsAt(db.squads, s, k, heroId) && (s != db.currentSquadIdx || k != slotIdx);
    assert AtMostOnce(db.squads, heroId);
    assert !HoldsAt(db.squads, db.currentSquadIdx, slotIdx, heroId);
  }
}
