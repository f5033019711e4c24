/** The reducers on which src/hooks/useSquadManager.ts and src/hooks/useSquadState.ts
    behave alike: the empty slot, the slot and skill edits, removal with archiving, the
    hero search and clearing loops of an assignment, and the slot normalisation applied
    to a loaded snapshot. The two differ on moving a hero into an occupied slot (only
    useSquadState.ts archives the displaced hero); each store builds that step on
    `MovedSquads` itself. */
module SquadOps {
  import opened Squads

  /** `createEmptySlot()` */
  function EmptySlot(): (r: SlotData)
    ensures !Occupied(r) && r.id == None && r.name == None && r.cat == None
    ensures r.exLvl == 0 && r.stars == 0 && r.skills == Skills(1, 1)
  {
    SlotData(None, 0, 0, Skills(1, 1), None, None)
  }

  function EmptySlots(): (r: seq<SlotData>)
    ensures |r| == SlotCount && forall k :: 0 <= k < |r| ==> r[k] == EmptySlot()
  {
    seq(SlotCount, _ => EmptySlot())
  }

  /** The three default squads of `initialDb`. */
  function InitialSquads(): (r: seq<Squad>)
    ensures |r| == SquadCount && forall s :: 0 <= s < |r| ==> r[s].slots == EmptySlots()
    ensures r[0].name == "Squad 1" && r[1].name == "Squad 2" && r[2].name == "Squad 3"
  {
    [Squad("Squad 1", EmptySlots()), Squad("Squad 2", EmptySlots()), Squad("Squad 3", EmptySlots())]
  }

  /** The slot at `slotIdx` of the current squad. */
  function CurrentSlot(db: AppDb, slotIdx: int): SlotData
    requires WellShaped(db) && 0 <= slotIdx < SlotCount
  {
    db.squads[db.currentSquadIdx].slots[slotIdx]
  }

  // ----- updateHeroSlot -----

  /** A `Partial<SlotData>`: `None` is a key the caller did not pass. */
  datatype SlotUpdate = SlotUpdate(id: Option<Option<string>>, exLvl: Option<int>, stars: Option<int>,
                                   skills: Option<Skills>, name: Option<string>, cat: Option<string>)

  /** `{ ...slot, ...updates }` */
  function Merge(slot: SlotData, u: SlotUpdate): SlotData {
    SlotData(u.id.GetOr(slot.id), u.exLvl.GetOr(slot.exLvl), u.stars.GetOr(slot.stars),
             u.skills.GetOr(slot.skills),
             if u.name.Some? then u.name else slot.name,
             if u.cat.Some? then u.cat else slot.cat)
  }

  /** The new slot written by `updateHeroSlot`. When the update carries an exclusive-weapon
      level it is clamped into [1,30], and the skills become the slot's current skills cut
      down to the cap of that level; a `skills` the caller passed along is discarded. */
  function ApplySlotUpdate(slot: SlotData, u: SlotUpdate): (r: SlotData)
    ensures u.exLvl.Some? ==> r.exLvl == ClampExLvl(u.exLvl.value)
    ensures u.exLvl.Some? ==> CappedFrom(slot.skills, r.skills, SkillCap(r.exLvl))
    ensures u.exLvl.None? ==> r.exLvl == slot.exLvl && r.skills == u.skills.GetOr(slot.skills)
    ensures r.id == u.id.GetOr(slot.id) && r.stars == u.stars.GetOr(slot.stars)
    ensures r.name == (if u.name.Some? then u.name else slot.name)
    ensures r.cat == (if u.cat.Some? then u.cat else slot.cat)
  {
    var effective :=
      if u.exLvl.Some? then
        var v := ClampExLvl(u.exLvl.value);
        u.(exLvl := Some(v), skills := Some(CapSkills(slot.skills, SkillCap(v))))
      else u;
    Merge(slot, effective)
  }

  /** The state after `updateHeroSlot(slotIdx, u)`: only that slot of the current squad changes. */
  function UpdateHeroSlotDb(db: AppDb, slotIdx: int, u: SlotUpdate): (r: AppDb)
    requires WellShaped(db) && 0 <= slotIdx < SlotCount
    ensures WellShaped(r)
    ensures r.currentSquadIdx == db.currentSquadIdx && r.globalBaseStats == db.globalBaseStats
    ensures r.heroStats == db.heroStats
    ensures CurrentSlot(r, slotIdx) == ApplySlotUpdate(CurrentSlot(db, slotIdx), u)
    ensures forall s, k :: InRange(db.squads, s, k) && (s != db.currentSquadIdx || k != slotIdx) ==>
      r.squads[s].slots[k] == db.squads[s].slots[k]
    ensures Unique(db.squads) && u.id.None? ==> Unique(r.squads)
  {
    var r := db.(squads := SetSlot(db.squads, db.currentSquadIdx, slotIdx, ApplySlotUpdate(CurrentSlot(db, slotIdx), u)));
    if u.id.None? then
      FewerIdsKeepsUnique(db.squads, r.squads);
      r
    else r
  }

  // ----- updateSkill -----

  /** `Math.max(1, parseInt(value) || 1)`: at least 1, the typed level when that is at least 1. */
  function SkillInput(raw: Option<int>): (v: int)
    ensures v >= 1
    ensures raw.Some? && raw.value >= 1 ==> v == raw.value
    ensures raw.None? || raw.value < 1 ==> v == 1
  {
    var p := ParseOr(raw, 1);
    if p < 1 then 1 else p
  }

  /** The state after `updateSkill(slotIdx, kind, raw)`: the named skill of that slot becomes
      `SkillInput(raw)` with no upper cap; the other skill, the weapon level and every other
      slot stay as they were. */
  function UpdateSkillDb(db: AppDb, slotIdx: int, kind: SkillKind, raw: Option<int>): (r: AppDb)
    requires WellShaped(db) && 0 <= slotIdx < SlotCount
    ensures WellShaped(r)
    ensures r.currentSquadIdx == db.currentSquadIdx && r.globalBaseStats == db.globalBaseStats
    ensures r.heroStats == db.heroStats
    ensures CurrentSlot(r, slotIdx).skills.Get(kind) == SkillInput(raw)
    ensures CurrentSlot(r, slotIdx) == CurrentSlot(db, slotIdx).(skills := CurrentSlot(r, slotIdx).skills)
    ensures forall other :: other != kind ==>
      CurrentSlot(r, slotIdx).skills.Get(other) == CurrentSlot(db, slotIdx).skills.Get(other)
    ensures forall s, k :: InRange(db.squads, s, k) && (s != db.currentSquadIdx || k != slotIdx) ==>
      r.squads[s].slots[k] == db.squads[s].slots[k]
    ensures Unique(db.squads) ==> Unique(r.squads)
  {
    var slot := CurrentSlot(db, slotIdx);
    var r := db.(squads := SetSlot(db.squads, db.currentSquadIdx, slotIdx,
                                   slot.(skills := slot.skills.With(kind, SkillInput(raw)))));
    FewerIdsKeepsUnique(db.squads, r.squads);
    r
  }

  // ----- removeHero -----

  /** The archive record `{ id, ex_lvl, stars, skills }` kept for a removed hero. */
  function ArchiveEntry(slot: SlotData): SlotData {
    SlotData(slot.id, slot.exLvl, slot.stars, slot.skills, None, None)
  }

  /** The state after `removeHero(slotIdx)`: an empty slot leaves the state as it was;
      otherwise the hero's levels are archived under its id and only that slot is reset. */
  function RemovedDb(db: AppDb, slotIdx: int): (r: AppDb)
    requires WellShaped(db) && 0 <= slotIdx < SlotCount
    ensures WellShaped(r)
    ensures !Occupied(CurrentSlot(db, slotIdx)) ==> r == db
    ensures Occupied(CurrentSlot(db, slotIdx)) ==>
      var slot := CurrentSlot(db, slotIdx);
      && r.heroStats == db.heroStats[slot.id.value := ArchiveEntry(slot)]
      && r.squads == SetSlot(db.squads, db.currentSquadIdx, slotIdx, EmptySlot())
      && r.currentSquadIdx == db.currentSquadIdx && r.globalBaseStats == db.globalBaseStats
    ensures Unique(db.squads) ==> Unique(r.squads)
  {
    var slot := CurrentSlot(db, slotIdx);
    if !Occupied(slot) then db
    else
      var r := db.(squads := SetSlot(db.squads, db.currentSquadIdx, slotIdx, EmptySlot()),
                   heroStats := db.heroStats[slot.id.value := ArchiveEntry(slot)]);
      FewerIdsKeepsUnique(db.squads, r.squads);
      r
  }

  // ----- the searches of an assignment -----

  /** `p` comes no later than slot `k` of squad `s` in search order (squads, then slots). */
  predicate NotAfter(p: Pos, s: int, k: int) {
    p.squad < s || (p.squad == s && p.slot <= k)
  }

  /** The first position, from squad `from` on, whose slot holds `id`. */
  function FirstHolder(squads: seq<Squad>, id: string, from: nat): (r: Option<Pos>)
    requires from <= |squads|
    decreases |squads| - from
    ensures r.Some? ==> from <= r.value.squad && HoldsAt(squads, r.value.squad, r.value.slot, id)
    ensures r.Some? ==> forall s, k :: from <= s && HoldsAt(squads, s, k, id) ==> NotAfter(r.value, s, k)
    ensures r.None? ==> forall s, k :: from <= s ==> !HoldsAt(squads, s, k, id)
  {
    if from == |squads| then None
    else
      var k := FirstIndex(squads[from].slots, (x: SlotData) => x.id == Some(id));
      if k >= 0 then Some(Pos(from, k)) else FirstHolder(squads, id, from + 1)
  }

  /** The levels an assignment restores: those of the first slot holding the hero, else its
      archive entry, else none. */
  function SavedStats(db: AppDb, id: string): (r: Option<SlotData>)
    ensures (exists s, k :: HoldsAt(db.squads, s, k, id)) ==>
      exists s, k :: HoldsAt(db.squads, s, k, id) && r == Some(db.squads[s].slots[k])
        && forall s2, k2 :: HoldsAt(db.squads, s2, k2, id) ==> NotAfter(Pos(s, k), s2, k2)
    ensures (forall s, k :: !HoldsAt(db.squads, s, k, id)) ==>
      r == if id in db.heroStats then Some(db.heroStats[id]) else None
  {
    match FirstHolder(db.squads, id, 0)
    case Some(p) => Some(db.squads[p.squad].slots[p.slot])
    case None => if id in db.heroStats then Some(db.heroStats[id]) else None
  }

  /** The slot written for `hero`: its identity, with the saved levels, or the defaults
      `ex_lvl 0`, `stars 0`, `skills {1, 1}` when nothing was saved. */
  function RestoredSlot(hero: HeroBase, saved: Option<SlotData>): (r: SlotData)
    ensures r.id == Some(hero.id) && r.name == Some(hero.name) && r.cat == Some(hero.cat)
    ensures saved.Some? ==>
      r.exLvl == saved.value.exLvl && r.stars == saved.value.stars && r.skills == saved.value.skills
    ensures saved.None? ==> r.exLvl == 0 && r.stars == 0 && r.skills == Skills(1, 1)
  {
    match saved
    case Some(s) => SlotData(Some(hero.id), s.exLvl, s.stars, s.skills, Some(hero.name), Some(hero.cat))
    case None => SlotData(Some(hero.id), 0, 0, Skills(1, 1), Some(hero.name), Some(hero.cat))
  }

  /** One squad with the first slot holding `id` reset to an empty slot. */
  function ClearFirst(squad: Squad, id: string): Squad {
    var k := FirstIndex(squad.slots, (x: SlotData) => x.id == Some(id));
    if k == -1 then squad else squad.(slots := squad.slots[k := EmptySlot()])
  }

  /** Every squad with its first slot holding `id` reset: slots that do not hold `id` are
      untouched, and when `id` sat in at most one slot it sits in none afterwards. */
  function ClearHero(squads: seq<Squad>, id: string): (r: seq<Squad>)
    ensures |r| == |squads|
    ensures forall s :: 0 <= s < |r| ==> r[s].name == squads[s].name && |r[s].slots| == |squads[s].slots|
    ensures forall s, k :: InRange(squads, s, k) && squads[s].slots[k].id != Some(id) ==>
      r[s].slots[k] == squads[s].slots[k]
    ensures AtMostOnce(squads, id) ==>
      forall s, k :: HoldsAt(squads, s, k, id) ==> r[s].slots[k] == EmptySlot()
  {
    var r := seq(|squads|, i requires 0 <= i < |squads| => ClearFirst(squads[i], id));
    assert AtMostOnce(squads, id) ==> forall s, k :: HoldsAt(squads, s, k, id) ==> r[s].slots[k] == EmptySlot() by {
      if AtMostOnce(squads, id) {
        forall s, k | HoldsAt(squads, s, k, id) ensures r[s].slots[k] == EmptySlot() {
          var first := FirstIndex(squads[s].slots, (x: SlotData) => x.id == Some(id));
          assert first != -1;
          assert HoldsAt(squads, s, first, id);
        }
      }
    }
    r
  }

  /** The squads after moving `hero` into slot `slotIdx` of the current squad, as both
      `performAssignHero` reducers compute them: the hero's former slot is emptied, every
      other slot except the target is kept, and the hero ends in exactly the target. */
  function MovedSquads(db: AppDb, hero: HeroBase, slotIdx: int): (r: seq<Squad>)
    requires WellShaped(db) && 0 <= slotIdx < SlotCount
    ensures WellShaped(db.(squads := r))
    ensures r[db.currentSquadIdx].slots[slotIdx] == RestoredSlot(hero, SavedStats(db, hero.id))
    ensures forall s, k ::
      InRange(db.squads, s, k) && (s != db.currentSquadIdx || k != slotIdx) && db.squads[s].slots[k].id != Some(hero.id)
      ==> r[s].slots[k] == db.squads[s].slots[k]
    ensures AtMostOnce(db.squads, hero.id) ==>
      forall s, k :: HoldsAt(db.squads, s, k, hero.id) && (s != db.currentSquadIdx || k != slotIdx) ==>
        r[s].slots[k] == EmptySlot()
    ensures AtMostOnce(db.squads, hero.id) ==>
      forall s, k :: HoldsAt(r, s, k, hero.id) <==> s == db.currentSquadIdx && k == slotIdx
  {
    var cleared := ClearHero(db.squads, hero.id);
    SetSlot(cleared, db.currentSquadIdx, slotIdx, RestoredSlot(hero, SavedStats(db, hero.id)))
  }

  /** Moving a hero keeps every hero id in at most one slot. */
  lemma MoveKeepsUnique(db: AppDb, hero: HeroBase, slotIdx: int)
    requires WellShaped(db) && 0 <= slotIdx < SlotCount
    ensures Unique(db.squads) ==> Unique(MovedSquads(db, hero, slotIdx))
  {
    var r := MovedSquads(db, hero, slotIdx);
    forall id | Unique(db.squads) ensures AtMostOnce(r, id) {
      assert AtMostOnce(db.squads, hero.id);
      if id != hero.id {
        forall s1, k1, s2, k2 | HoldsAt(r, s1, k1, id) && HoldsAt(r, s2, k2, id)
          ensures s1 == s2 && k1 == k2
        {
          assert AtMostOnce(db.squads, id);
          assert HoldsAt(db.squads, s1, k1, id) && HoldsAt(db.squads, s2, k2, id);
        }
      }
    }
  }

  /** Archive round trip: removing a hero and later assigning it again, to any slot of any
      squad, restores the levels it had when it was removed. */
  lemma RemoveThenReassignRestores(db: AppDb, k: int, c2: int, hero: HeroBase, t: int)
    requires WellShaped(db) && Unique(db.squads)
    requires 0 <= k < SlotCount && 0 <= c2 < SquadCount && 0 <= t < SlotCount
    requires CurrentSlot(db, k).id == Some(hero.id) && hero.id != ""
    ensures var removed := RemovedDb(db, k).(currentSquadIdx := c2);
            var placed := MovedSquads(removed, hero, t)[c2].slots[t];
            && placed.id == Some(hero.id)
            && placed.exLvl == CurrentSlot(db, k).exLvl
            && placed.stars == CurrentSlot(db, k).stars
            && placed.skills == CurrentSlot(db, k).skills
  {
    var removed := RemovedDb(db, k).(currentSquadIdx := c2);
    assert AtMostOnce(db.squads, hero.id);
    forall s, j ensures !HoldsAt(removed.squads, s, j, hero.id) {
      if HoldsAt(removed.squads, s, j, hero.id) {
        assert HoldsAt(db.squads, s, j, hero.id);
        assert HoldsAt(db.squads, db.currentSquadIdx, k, hero.id);
        assert false;
      }
    }
    assert SavedStats(removed, hero.id) == Some(ArchiveEntry(CurrentSlot(db, k)));
  }

  /** Every id held after the change was held at the same place before it: removing or
      renaming nothing, it cannot create a second occupancy. */
  lemma FewerIdsKeepsUnique(a: seq<Squad>, b: seq<Squad>)
    requires |b| == |a| && forall s :: 0 <= s < |a| ==> |b[s].slots| == |a[s].slots|
    requires forall s, k :: InRange(a, s, k) && b[s].slots[k].id.Some? ==> b[s].slots[k].id == a[s].slots[k].id
    ensures Unique(a) ==> Unique(b)
  {
    forall id | Unique(a) ensures AtMostOnce(b, id) {
      forall s1, k1, s2, k2 | HoldsAt(b, s1, k1, id) && HoldsAt(b, s2, k2, id)
        ensures s1 == s2 && k1 == k2
      {
        assert AtMostOnce(a, id);
        assert HoldsAt(a, s1, k1, id) && HoldsAt(a, s2, k2, id);
      }
    }
  }

  // ----- the loops of assignHero and performAssignHero -----

  /** The scan of every squad for the hero, stopping at the first slot that holds it. */
  method FindExisting(squads: seq<Squad>, id: string) returns (found: Option<Pos>)
    ensures found == FirstHolder(squads, id, 0)
  {
    var i := 0;
    while i < |squads|
      invariant 0 <= i <= |squads|
      invariant FirstHolder(squads, id, i) == FirstHolder(squads, id, 0)
    {
      var k := FirstIndex(squads[i].slots, (x: SlotData) => x.id == Some(id));
      if k != -1 {
        return Some(Pos(i, k));
      }
      i := i + 1;
    }
    return None;
  }

  /** The loop over all squads resetting the first slot of each that holds the hero. */
  method ClearHeroEverywhere(squads: seq<Squad>, id: string) returns (r: seq<Squad>)
    ensures r == ClearHero(squads, id)
  {
    r := squads;
    var i := 0;
    while i < |r|
      invariant 0 <= i <= |r| == |squads|
      invariant forall j :: 0 <= j < i ==> r[j] == ClearFirst(squads[j], id)
      invariant forall j :: i <= j < |r| ==> r[j] == squads[j]
    {
      var k := FirstIndex(r[i].slots, (x: SlotData) => x.id == Some(id));
      if k != -1 {
        r := r[i := r[i].(slots := r[i].slots[k := EmptySlot()])];
      }
      i := i + 1;
    }
    assert forall j :: 0 <= j < |r| ==> r[j] == ClearHero(squads, id)[j];
  }

  // ----- loading a snapshot -----

  /** A squad as parsed from storage: a slot may be `null`. */
  datatype StoredSquad = StoredSquad(name: string, slots: seq<Option<SlotData>>)

  /** A parsed snapshot: `squads` or `globalBaseStats` may be missing. */
  datatype StoredDb = StoredDb(currentSquadIdx: int, squads: Option<seq<StoredSquad>>,
                               globalBaseStats: Option<map<string, GlobalStat>>,
                               heroStats: map<string, SlotData>)

  /** `squad.slots.map(slot => slot || createEmptySlot())` on every stored squad:
      every null slot becomes an empty slot, every present slot is kept in its position. */
  function NormaliseSquads(stored: seq<StoredSquad>): (r: seq<Squad>)
    ensures |r| == |stored|
    ensures forall s :: 0 <= s < |r| ==> r[s].name == stored[s].name && |r[s].slots| == |stored[s].slots|
    ensures forall s, k :: 0 <= s < |r| && 0 <= k < |stored[s].slots| && stored[s].slots[k].None? ==>
      r[s].slots[k] == EmptySlot()
    ensures forall s, k :: 0 <= s < |r| && 0 <= k < |stored[s].slots| && stored[s].slots[k].Some? ==>
      r[s].slots[k] == stored[s].slots[k].value
  {
    seq(|stored|, s requires 0 <= s < |stored| =>
      Squad(stored[s].name,
            seq(|stored[s].slots|, k requires 0 <= k < |stored[s].slots| => stored[s].slots[k].GetOr(EmptySlot()))))
  }
}
