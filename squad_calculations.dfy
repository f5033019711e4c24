/** The values src/hooks/useSquadCalculations.ts derives from the state of the store in
    src/hooks/useSquadState.ts: the meta build the current squad forms, and the damage
    reduction of each of its slots. (src/hooks/useSquadManager.ts carries the same meta
    classifier, character for character.) */
module SquadCalculations {
  import opened Squads
  import opened SquadState

  // ----- the active heroes of a squad -----

  /** `{ ...HERO_DATA.find(h => h.id === s.id)!, ...s, slotIdx }` as far as the classifier
      reads it: the slot's own name and category win over the catalog's, and a field that
      neither has is `None`. */
  datatype ActiveHero = ActiveHero(name: Option<string>, cat: Option<string>, exLvl: int, slotIdx: int)

  function Activate(slot: SlotData, heroes: seq<HeroBase>, slotIdx: int): ActiveHero
    requires slot.id.Some?
  {
    var base := FindHero(heroes, slot.id.value);
    ActiveHero(if slot.name.Some? then slot.name else if base.Some? then Some(base.value.name) else None,
               if slot.cat.Some? then slot.cat else if base.Some? then Some(base.value.cat) else None,
               slot.exLvl, slotIdx)
  }

  /** The positions from `i` on whose slots hold a hero (truthy id), in increasing order. */
  function OccupiedFrom(slots: seq<SlotData>, i: nat): (r: seq<int>)
    requires i <= |slots|
    decreases |slots| - i
    ensures |r| <= |slots| - i
    ensures forall j :: 0 <= j < |r| ==> i <= r[j] < |slots| && Occupied(slots[r[j]])
    ensures forall k :: i <= k < |slots| && Occupied(slots[k]) ==> k in r
    ensures forall j1, j2 :: 0 <= j1 < j2 < |r| ==> r[j1] < r[j2]
  {
    if i == |slots| then []
    else if Occupied(slots[i]) then [i] + OccupiedFrom(slots, i + 1)
    else OccupiedFrom(slots, i + 1)
  }

  /** `activeHeroes`: the heroes of the squad's occupied slots, in slot order. */
  function ActiveHeroes(slots: seq<SlotData>, heroes: seq<HeroBase>): (r: seq<ActiveHero>)
    ensures |r| <= |slots|
    ensures forall j :: 0 <= j < |r| ==>
      0 <= r[j].slotIdx < |slots| && Occupied(slots[r[j].slotIdx])
      && r[j] == Activate(slots[r[j].slotIdx], heroes, r[j].slotIdx)
    ensures forall k :: 0 <= k < |slots| && Occupied(slots[k]) ==> exists j :: 0 <= j < |r| && r[j].slotIdx == k
    ensures forall j1, j2 :: 0 <= j1 < j2 < |r| ==> r[j1].slotIdx < r[j2].slotIdx
  {
    var idx := OccupiedFrom(slots, 0);
    var r := seq(|idx|, j requires 0 <= j < |idx| => Activate(slots[idx[j]], heroes, idx[j]));
    assert |r| == |idx| && forall j :: 0 <= j < |r| ==> r[j].slotIdx == idx[j];
    assert forall k :: 0 <= k < |slots| && Occupied(slots[k]) ==> exists j :: 0 <= j < |r| && r[j].slotIdx == k by {
      forall k | 0 <= k < |slots| && Occupied(slots[k]) ensures exists j :: 0 <= j < |r| && r[j].slotIdx == k {
        var j :| 0 <= j < |idx| && idx[j] == k;
        assert r[j].slotIdx == k;
      }
    }
    r
  }

  function Names(active: seq<ActiveHero>): (r: seq<Option<string>>)
    ensures |r| == |active| && forall j :: 0 <= j < |r| ==> r[j] == active[j].name
  {
    seq(|active|, j requires 0 <= j < |active| => active[j].name)
  }

  function Cats(active: seq<ActiveHero>): (r: seq<Option<string>>)
    ensures |r| == |active| && forall j :: 0 <= j < |r| ==> r[j] == active[j].cat
  {
    seq(|active|, j requires 0 <= j < |active| => active[j].cat)
  }

  /** `names.includes(n)` */
  predicate Has(names: seq<Option<string>>, n: string) {
    Some(n) in names
  }

  /** `cats.filter(c => c === cat).length` */
  function CountCat(active: seq<ActiveHero>, cat: string): nat {
    multiset(Cats(active))[Some(cat)]
  }

  /** The weapon level of the first active hero named `n`, if any. */
  function FirstExLvl(active: seq<ActiveHero>, n: string): Option<int> {
    var i := FirstIndex(active, (h: ActiveHero) => h.name == Some(n));
    if i < 0 then None else Some(active[i].exLvl)
  }

  // ----- the meta rules -----

  /** Lucius, DVA, Shuyler, Murphy and Sarah or Morrison: the air 4+1 build. */
  predicate AirCombo(names: seq<Option<string>>) {
    Has(names, "Lucius") && Has(names, "DVA") && Has(names, "Shuyler")
    && (Has(names, "Sarah") || Has(names, "Morrison")) && Has(names, "Murphy")
  }

  /** Scarlett, Kim, Murphy, Adam and Marshall are all present. */
  predicate TankNames(names: seq<Option<string>>) {
    Has(names, "Scarlett") && Has(names, "Kim") && Has(names, "Murphy") && Has(names, "Adam") && Has(names, "Marshall")
  }

  /** The tank 4+1 build: its five heroes, the first Adam with a weapon of level 1 or more. */
  predicate TankCombo(active: seq<ActiveHero>) {
    && TankNames(Names(active))
    && var adam := FirstExLvl(active, "Adam"); adam.Some? && adam.value >= 1
  }

  /** Lucius, Swift, Tesla, McGregor and Adam are all present. */
  predicate MissileNames(names: seq<Option<string>>) {
    Has(names, "Lucius") && Has(names, "Swift") && Has(names, "Tesla") && Has(names, "McGregor") && Has(names, "Adam")
  }

  /** The missile 4+1 build: its five heroes, the first Lucius with a weapon of level 10 or more. */
  predicate MissileCombo(active: seq<ActiveHero>) {
    && MissileNames(Names(active))
    && var lucius := FirstExLvl(active, "Lucius"); lucius.Some? && lucius.value >= 10
  }

  predicate FullTankSquad(active: seq<ActiveHero>) {
    CountCat(active, "Tank") == 5 && !Has(Names(active), "Scarlett")
  }

  predicate FullMissileSquad(active: seq<ActiveHero>) {
    CountCat(active, "Missile") == 5
  }

  datatype MetaType = NoMeta | Air41 | Tank41 | Missile41 | FullTank | FullMissile {
    /** The label the interface receives; the empty string when no build is recognised. */
    function Label(): string {
      match this
      case NoMeta => ""
      case Air41 => "air41"
      case Tank41 => "tank41"
      case Missile41 => "missile41"
      case FullTank => "fullTank"
      case FullMissile => "fullMissile"
    }
  }

  /** Each build reaches the interface under its own label, and only "no build" under the
      empty one, so the interface can tell the results of `metaStatus` apart. */
  lemma LabelsIdentifyMeta(a: MetaType, b: MetaType)
    ensures a.Label() == b.Label() <==> a == b
    ensures a.Label() == "" <==> a == NoMeta
  {
  }

  datatype MetaStatus = MetaStatus(metaType: MetaType, showNerzi: bool)

  /** `metaStatus` of a squad's slots: the rules run in source order, each 4+1 rule that
      holds overwriting the label, and the full-category rules only consulted while no
      label is set. */
  function MetaStatusOf(slots: seq<SlotData>, heroes: seq<HeroBase>): (r: MetaStatus)
    ensures var active := ActiveHeroes(slots, heroes);
      && (r.showNerzi <==> AirCombo(Names(active)))
      && (r.metaType == Missile41 <==> MissileCombo(active))
      && (r.metaType == Tank41 <==> TankCombo(active) && !MissileCombo(active))
      && (r.metaType == Air41 <==> AirCombo(Names(active)) && !TankCombo(active) && !MissileCombo(active))
      && var noCombo := !AirCombo(Names(active)) && !TankCombo(active) && !MissileCombo(active);
         && (r.metaType == FullMissile <==> noCombo && FullMissileSquad(active))
         && (r.metaType == FullTank <==> noCombo && FullTankSquad(active) && !FullMissileSquad(active))
         && (r.metaType == NoMeta <==> noCombo && !FullTankSquad(active) && !FullMissileSquad(active))
  {
    var active := ActiveHeroes(slots, heroes);
    var air := AirCombo(Names(active));
    var m1 := if air then Air41 else NoMeta;
    var m2 := if TankCombo(active) then Tank41 else m1;
    var m3 := if MissileCombo(active) then Missile41 else m2;
    var m4 := if m3 == NoMeta && FullTankSquad(active) then FullTank else m3;
    var m5 := if m3 == NoMeta && FullMissileSquad(active) then FullMissile else m4;
    MetaStatus(m5, air)
  }

  /** The precedence the rules are documented with: the first rule that holds wins. */
  function FirstMatchMeta(active: seq<ActiveHero>): MetaType {
    if AirCombo(Names(active)) then Air41
    else if TankCombo(active) then Tank41
    else if MissileCombo(active) then Missile41
    else if FullTankSquad(active) then FullTank
    else if FullMissileSquad(active) then FullMissile
    else NoMeta
  }

  // ----- why the order of the rules does not matter on a five-slot squad -----

  /** A sequence has at most as many distinct elements as it is long. */
  lemma {:induction false} DistinctAtMostLength<T>(s: seq<T>)
    ensures |set x | x in s| <= |s|
  {
    if |s| > 0 {
      DistinctAtMostLength(s[1..]);
      assert (set x | x in s) == {s[0]} + (set x | x in s[1..]);
    }
  }

  /** A set of values all found in `names` is no larger than `names`. */
  lemma AllPresentBound(names: seq<Option<string>>, wanted: set<Option<string>>)
    requires forall x :: x in wanted ==> x in names
    ensures |wanted| <= |names|
  {
    DistinctAtMostLength(names);
    assert wanted <= set x | x in names;
    SubsetCard(wanted, set x | x in names);
  }

  lemma {:induction false} SubsetCard<T>(a: set<T>, b: set<T>)
    requires a <= b
    ensures |a| <= |b|
    decreases |b|
  {
    if a != {} {
      var x :| x in a;
      SubsetCard(a - {x}, b - {x});
    }
  }

  lemma AirTankApart(names: seq<Option<string>>)
    requires |names| <= SlotCount
    ensures !(AirCombo(names) && TankNames(names))
  {
    if AirCombo(names) && TankNames(names) {
      var w := if Has(names, "Sarah") then
        {Some("Lucius"), Some("DVA"), Some("Shuyler"), Some("Sarah"), Some("Murphy"),
         Some("Scarlett"), Some("Kim"), Some("Adam"), Some("Marshall")}
      else
        {Some("Lucius"), Some("DVA"), Some("Shuyler"), Some("Morrison"), Some("Murphy"),
         Some("Scarlett"), Some("Kim"), Some("Adam"), Some("Marshall")};
      assert |w| == 9;
      AllPresentBound(names, w);
    }
  }

  lemma AirMissileApart(names: seq<Option<string>>)
    requires |names| <= SlotCount
    ensures !(AirCombo(names) && MissileNames(names))
  {
    if AirCombo(names) && MissileNames(names) {
      var w := if Has(names, "Sarah") then
        {Some("Lucius"), Some("DVA"), Some("Shuyler"), Some("Sarah"), Some("Murphy"),
         Some("Swift"), Some("Tesla"), Some("McGregor"), Some("Adam")}
      else
        {Some("Lucius"), Some("DVA"), Some("Shuyler"), Some("Morrison"), Some("Murphy"),
         Some("Swift"), Some("Tesla"), Some("McGregor"), Some("Adam")};
      assert |w| == 9;
      AllPresentBound(names, w);
    }
  }

  lemma TankMissileApart(names: seq<Option<string>>)
    requires |names| <= SlotCount
    ensures !(TankNames(names) && MissileNames(names))
  {
    if TankNames(names) && MissileNames(names) {
      var w := {Some("Scarlett"), Some("Kim"), Some("Murphy"), Some("Adam"), Some("Marshall"),
                Some("Lucius"), Some("Swift"), Some("Tesla"), Some("McGregor")};
      assert |w| == 9;
      AllPresentBound(names, w);
    }
  }

  /** On a squad of at most five slots no two of the 4+1 builds can hold at once: any two of
      them name nine different heroes between them. */
  lemma FourPlusOneExclusive(slots: seq<SlotData>, heroes: seq<HeroBase>)
    requires |slots| <= SlotCount
    ensures var active := ActiveHeroes(slots, heroes);
      && !(AirCombo(Names(active)) && TankCombo(active))
      && !(AirCombo(Names(active)) && MissileCombo(active))
      && !(TankCombo(active) && MissileCombo(active))
  {
    var names := Names(ActiveHeroes(slots, heroes));
    AirTankApart(names);
    AirMissileApart(names);
    TankMissileApart(names);
  }

  /** Two different values are counted apart: together at most the length of the sequence. */
  lemma {:induction false} TwoCountsBound<T>(s: seq<T>, x: T, y: T)
    requires x != y
    ensures multiset(s)[x] + multiset(s)[y] <= |s|
  {
    if |s| > 0 {
      TwoCountsBound(s[1..], x, y);
      assert s == [s[0]] + s[1..];
      assert multiset(s) == multiset{s[0]} + multiset(s[1..]);
    }
  }

  /** On a squad of at most five slots the overwriting order of the source and the
      documented first-match order classify every squad alike. */
  lemma MetaMatchesFirstRule(slots: seq<SlotData>, heroes: seq<HeroBase>)
    requires |slots| <= SlotCount
    ensures MetaStatusOf(slots, heroes).metaType == FirstMatchMeta(ActiveHeroes(slots, heroes))
  {
    var active := ActiveHeroes(slots, heroes);
    FourPlusOneExclusive(slots, heroes);
    TwoCountsBound(Cats(active), Some("Tank"), Some("Missile"));
  }

  lemma {:induction false} OccupiedIgnoresEmpty(a: seq<SlotData>, b: seq<SlotData>, i: nat)
    requires |a| == |b| && i <= |a|
    requires forall k :: 0 <= k < |a| && (Occupied(a[k]) || Occupied(b[k])) ==> a[k] == b[k]
    ensures OccupiedFrom(a, i) == OccupiedFrom(b, i)
    decreases |a| - i
  {
    if i < |a| {
      OccupiedIgnoresEmpty(a, b, i + 1);
    }
  }

  /** Empty slots take no part in the classification: squads that agree on every occupied
      slot are classified alike. */
  lemma MetaIgnoresEmptySlots(a: seq<SlotData>, b: seq<SlotData>, heroes: seq<HeroBase>)
    requires |a| == |b|
    requires forall k :: 0 <= k < |a| && (Occupied(a[k]) || Occupied(b[k])) ==> a[k] == b[k]
    ensures MetaStatusOf(a, heroes) == MetaStatusOf(b, heroes)
  {
    OccupiedIgnoresEmpty(a, b, 0);
    assert ActiveHeroes(a, heroes) == ActiveHeroes(b, heroes);
  }

  // ----- damage reduction per slot -----

  /** The keys `squadDRStats` reads. */
  predicate HasDrKeys(stats: map<string, GlobalStat>) {
    StateKeys <= stats.Keys
  }

  /** The part every slot receives: drone, both protection nodes and `other_red`. */
  function GlobalPart(stats: map<string, GlobalStat>): DrStats
    requires HasDrKeys(stats)
  {
    DrStats(stats["drone_lvl"].phys + stats["sf_advanced_protection_1"].phys
              + stats["sf_advanced_protection_2"].phys + stats["other_red"].phys,
            stats["drone_lvl"].ener + stats["sf_advanced_protection_1"].ener
              + stats["sf_advanced_protection_2"].ener + stats["other_red"].ener)
  }

  /** The quantum and memory chip pair of the slot's own category; nothing for any other. */
  function ChipPart(stats: map<string, GlobalStat>, cat: Option<string>): DrStats
    requires HasDrKeys(stats)
  {
    if cat == Some("Tank") then Pair(stats, "drone_quantum_chip_tank_lvl", "drone_memory_chip_tank_lvl")
    else if cat == Some("Missile") then Pair(stats, "drone_quantum_chip_missile_lvl", "drone_memory_chip_missile_lvl")
    else if cat == Some("Aircraft") then Pair(stats, "drone_quantum_chip_ac_lvl", "drone_memory_chip_ac_lvl")
    else DrStats(0.0, 0.0)
  }

  function Pair(stats: map<string, GlobalStat>, quantum: string, memory: string): DrStats
    requires quantum in stats && memory in stats
  {
    DrStats(stats[quantum].phys + stats[memory].phys, stats[quantum].ener + stats[memory].ener)
  }

  function SlotDr(stats: map<string, GlobalStat>, slot: SlotData): DrStats
    requires HasDrKeys(stats)
  {
    var g := GlobalPart(stats);
    var c := ChipPart(stats, slot.cat);
    DrStats(g.phys + c.phys, g.ener + c.ener)
  }

  /** `squadDRStats`: one entry per slot of the squad, in slot order. */
  function SquadDrStats(stats: map<string, GlobalStat>, slots: seq<SlotData>): (r: seq<DrStats>)
    requires HasDrKeys(stats)
    ensures |r| == |slots| && forall k :: 0 <= k < |r| ==> r[k] == SlotDr(stats, slots[k])
  {
    seq(|slots|, k requires 0 <= k < |slots| => SlotDr(stats, slots[k]))
  }

  /** `calculateDR(slotIdx)`: the slot's entry, or zero for an index without one. */
  function CalculateDR(stats: map<string, GlobalStat>, slots: seq<SlotData>, slotIdx: int): (r: DrStats)
    requires HasDrKeys(stats)
    ensures 0 <= slotIdx < |slots| ==> r == SlotDr(stats, slots[slotIdx])
    ensures !(0 <= slotIdx < |slots|) ==> r == DrStats(0.0, 0.0)
  {
    var all := SquadDrStats(stats, slots);
    if 0 <= slotIdx < |all| then all[slotIdx] else DrStats(0.0, 0.0)
  }

  /** A slot that is empty, or whose category is none of Tank, Missile and Aircraft,
      receives exactly the global part. */
  lemma UncategorisedGetsGlobalPart(stats: map<string, GlobalStat>, slots: seq<SlotData>, k: int)
    requires HasDrKeys(stats) && 0 <= k < |slots|
    requires slots[k].cat !in {Some("Tank"), Some("Missile"), Some("Aircraft")}
    ensures CalculateDR(stats, slots, k) == GlobalPart(stats)
  {
  }

  /** Slots of one category receive the same reduction, wherever they sit. */
  lemma SameCategorySameDr(stats: map<string, GlobalStat>, slots: seq<SlotData>, i: int, j: int)
    requires HasDrKeys(stats) && 0 <= i < |slots| && 0 <= j < |slots|
    requires slots[i].cat == slots[j].cat
    ensures CalculateDR(stats, slots, i) == CalculateDR(stats, slots, j)
  {
  }

  /** With every stat derived from its level the global part is 5 % for a drone at level
      200 or more, 1.5 % per protection-node level, and the `other_red` level itself. */
  lemma GlobalPartFromLevels(stats: map<string, GlobalStat>)
    requires HasDrKeys(stats) && Derived(stats)
    ensures var x := (if stats["drone_lvl"].level >= 200 then 5.0 else 0.0)
                     + 1.5 * (stats["sf_advanced_protection_1"].level + stats["sf_advanced_protection_2"].level) as real
                     + stats["other_red"].level as real;
            GlobalPart(stats) == DrStats(x, x)
  {
    ProtectionNodeKeys();
    DerivedAt(stats, "drone_lvl");
    DerivedAt(stats, "sf_advanced_protection_1");
    DerivedAt(stats, "sf_advanced_protection_2");
    DerivedAt(stats, "other_red");
  }

  /** With every stat derived from its level no chip pair adds anything. */
  lemma ChipPartZero(stats: map<string, GlobalStat>, cat: Option<string>)
    requires HasDrKeys(stats) && Derived(stats)
    ensures ChipPart(stats, cat) == DrStats(0.0, 0.0)
  {
    if cat == Some("Tank") {
      ChipsReduceNothing(stats, "drone_quantum_chip_tank_lvl");
      ChipsReduceNothing(stats, "drone_memory_chip_tank_lvl");
    } else if cat == Some("Missile") {
      ChipsReduceNothing(stats, "drone_quantum_chip_missile_lvl");
      ChipsReduceNothing(stats, "drone_memory_chip_missile_lvl");
    } else if cat == Some("Aircraft") {
      ChipsReduceNothing(stats, "drone_quantum_chip_ac_lvl");
      ChipsReduceNothing(stats, "drone_memory_chip_ac_lvl");
    }
  }

  /** With every stat derived from its level the chips contribute nothing, so every slot
      receives the same reduction, the global part. */
  lemma DerivedStatsGiveUniformDr(stats: map<string, GlobalStat>, slots: seq<SlotData>, i: int, j: int)
    requires HasDrKeys(stats) && Derived(stats) && 0 <= i < |slots| && 0 <= j < |slots|
    ensures CalculateDR(stats, slots, i) == GlobalPart(stats)
    ensures CalculateDR(stats, slots, i) == CalculateDR(stats, slots, j)
  {
    ChipPartZero(stats, slots[i].cat);
    ChipPartZero(stats, slots[j].cat);
  }
}
