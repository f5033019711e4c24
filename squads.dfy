/** The planner's data model (the shapes of src/types.ts), the hero catalog lookup,
    and the occupancy predicates every revision is judged by. */
module Squads {

  datatype Option<+T> = None | Some(value: T) {
    function GetOr(default: T): T {
      if Some? then value else default
    }
  }

  /** Number of squads and of slots per squad; both are fixed by the application. */
  const SquadCount: int := 3
  const SlotCount: int := 5

  // ----- parsing fallbacks -----

  /** `parseInt(x) || fallback`: an input that does not parse (NaN) and a parsed zero are
      both falsy, so both give the fallback. */
  function ParseOr(raw: Option<int>, fallback: int): (v: int)
    ensures raw.Some? && raw.value != 0 ==> v == raw.value
    ensures raw.None? || raw.value == 0 ==> v == fallback
  {
    if raw.Some? && raw.value != 0 then raw.value else fallback
  }

  // ----- strings -----

  /** `s.startsWith(p)` */
  predicate StartsWith(s: string, p: string) {
    |p| <= |s| && s[..|p|] == p
  }

  /** `s.includes(p)` */
  predicate Contains(s: string, p: string) {
    exists i :: 0 <= i <= |s| && StartsWith(s[i..], p)
  }

  // ----- the hero catalog (heroes.json) -----

  /** One skill of a hero; `base` and `inc` are only meaningful when `hasDR` holds. */
  datatype SkillDef = SkillDef(name: string, hasDR: bool, base: real, inc: real, target: string)

  datatype HeroBase = HeroBase(id: string, name: string, cat: string,
                               auto: SkillDef, tactics: SkillDef, passive: SkillDef)

  /** `Array.prototype.findIndex`: the first index whose element satisfies `p`, or -1. */
  function FirstIndex<T>(s: seq<T>, p: T -> bool): (r: int)
    ensures -1 <= r < |s|
    ensures r >= 0 ==> p(s[r]) && forall j :: 0 <= j < r ==> !p(s[j])
    ensures r == -1 ==> forall j :: 0 <= j < |s| ==> !p(s[j])
  {
    if |s| == 0 then -1
    else if p(s[0]) then 0
    else
      var r := FirstIndex(s[1..], p);
      if r == -1 then -1 else r + 1
  }

  /** `HERO_DATA.find(h => h.id === id)`: the first catalog entry with that id. */
  function FindHero(heroes: seq<HeroBase>, id: string): (r: Option<HeroBase>)
    ensures r.Some? ==> r.value in heroes && r.value.id == id
    ensures r.None? <==> forall h :: h in heroes ==> h.id != id
  {
    var i := FirstIndex(heroes, (h: HeroBase) => h.id == id);
    if i < 0 then None else Some(heroes[i])
  }

  // ----- squads and slots -----

  datatype Skills = Skills(tactics: int, passive: int) {
    function Get(kind: SkillKind): int {
      match kind
      case Tactics => tactics
      case Passive => passive
    }

    function With(kind: SkillKind, v: int): (r: Skills)
      ensures r.Get(kind) == v
      ensures forall other :: other != kind ==> r.Get(other) == Get(other)
    {
      match kind
      case Tactics => this.(tactics := v)
      case Passive => this.(passive := v)
    }
  }

  datatype SkillKind = Tactics | Passive

  /** One squad position. `id == None` is the JavaScript `null` of an empty slot;
      `name` and `cat` are `None` when the object has no such key. */
  datatype SlotData = SlotData(id: Option<string>, exLvl: int, stars: int, skills: Skills,
                               name: Option<string>, cat: Option<string>)

  /** A slot counts as holding a hero when its id is truthy (non-null, non-empty). */
  predicate Occupied(slot: SlotData) {
    slot.id.Some? && slot.id.value != ""
  }

  datatype Squad = Squad(name: string, slots: seq<SlotData>)

  /** A global bonus source: the entered level and the reductions derived from it. */
  datatype GlobalStat = GlobalStat(level: int, phys: real, ener: real)

  datatype AppDb = AppDb(currentSquadIdx: int, squads: seq<Squad>,
                         globalBaseStats: map<string, GlobalStat>,
                         heroStats: map<string, SlotData>)

  /** Physical and energy damage reduction, in percent. */
  datatype DrStats = DrStats(phys: real, ener: real)

  /** Three squads of exactly five slots and a current index that selects one of them. */
  predicate WellShaped(db: AppDb) {
    && |db.squads| == SquadCount
    && 0 <= db.currentSquadIdx < SquadCount
    && forall s :: 0 <= s < |db.squads| ==> |db.squads[s].slots| == SlotCount
  }

  // ----- skill caps -----

  /** Skill levels may reach 40 once the exclusive weapon is at level 30, else 30. */
  function SkillCap(exLvl: int): int {
    if exLvl >= 30 then 40 else 30
  }

  /** `Math.min(30, Math.max(1, v))` */
  function ClampExLvl(v: int): (r: int)
    ensures 1 <= r <= 30
    ensures 1 <= v <= 30 ==> r == v
    ensures v < 1 ==> r == 1
    ensures v > 30 ==> r == 30
  {
    if v < 1 then 1 else if v > 30 then 30 else v
  }

  /** `after` is `before` with every skill lowered to `cap` where it exceeded it:
      skills are never raised, end at most `cap`, and those already within `cap` stay. */
  ghost predicate CappedFrom(before: Skills, after: Skills, cap: int) {
    forall kind: SkillKind ::
      && after.Get(kind) <= cap
      && after.Get(kind) <= before.Get(kind)
      && (before.Get(kind) <= cap ==> after.Get(kind) == before.Get(kind))
      && (before.Get(kind) > cap ==> after.Get(kind) == cap)
  }

  /** `Math.min(skill, cap)` on both skills. */
  function CapSkills(skills: Skills, cap: int): (r: Skills)
    ensures CappedFrom(skills, r, cap)
  {
    Skills(if skills.tactics > cap then cap else skills.tactics,
           if skills.passive > cap then cap else skills.passive)
  }

  // ----- positions and single occupancy -----

  datatype Pos = Pos(squad: int, slot: int)

  predicate InRange(squads: seq<Squad>, s: int, k: int) {
    0 <= s < |squads| && 0 <= k < |squads[s].slots|
  }

  predicate HoldsAt(squads: seq<Squad>, s: int, k: int, id: string) {
    InRange(squads, s, k) && squads[s].slots[k].id == Some(id)
  }

  /** The hero `id` sits in at most one slot across all squads. */
  ghost predicate AtMostOnce(squads: seq<Squad>, id: string) {
    forall s1, k1, s2, k2 ::
      HoldsAt(squads, s1, k1, id) && HoldsAt(squads, s2, k2, id) ==> s1 == s2 && k1 == k2
  }

  /** The single-occupancy invariant: every hero id sits in at most one slot. */
  ghost predicate Unique(squads: seq<Squad>) {
    forall id :: AtMostOnce(squads, id)
  }

  /** `squads` with slot `k` of squad `s` replaced and nothing else changed. */
  function SetSlot(squads: seq<Squad>, s: int, k: int, slot: SlotData): (r: seq<Squad>)
    requires InRange(squads, s, k)
    ensures |r| == |squads|
    ensures forall i :: 0 <= i < |r| ==> r[i].name == squads[i].name && |r[i].slots| == |squads[i].slots|
    ensures r[s].slots[k] == slot
    ensures forall i, j :: InRange(squads, i, j) && (i != s || j != k) ==> r[i].slots[j] == squads[i].slots[j]
  {
    squads[s := squads[s].(slots := squads[s].slots[k := slot])]
  }
}
