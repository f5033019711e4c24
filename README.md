# Squad planner core, modelled in Dafny

The planner helps a player of a strategy game arrange heroes into three squads of five
slots. It keeps each placed hero's exclusive-weapon level, stars and skill levels. It
archives the levels of heroes that leave a squad and restores them when the hero returns.
It derives damage-reduction figures from global bonus sources (a drone, technology nodes,
drone chips) and from the heroes' own skills. It also recognises a few well-known squad
builds ("4+1" air, tank and missile builds, full tank and full missile squads).

The repository holds three revisions of this core, and each is modelled as it is written:

- `src/hooks/useSquadManager.ts`: a store with four global stat keys. It asks for
  confirmation before moving a hero that is already placed elsewhere, and it remembers a
  "don't ask again" preference. Module `SquadManager`, class `Store`.
- `src/hooks/useSquadState.ts`: a store with ten global stat keys. It merges stored stats
  over the defaults at start-up. When a hero takes an occupied slot, the displaced hero's
  levels go to the archive. Module `SquadState`, class `Store`.
- `src/hooks/useSquadCalculations.ts`: the derived values over a `useSquadState` state,
  namely the recognised build, the per-slot reduction table and the reduction of one slot.
  Module `SquadCalculations`, pure functions.
- `app.js`: the older plain-script engine. Its squads are keyed 1 to 3, and its slots are
  an object in which a missing key is an empty slot. A hero that is placed anywhere is
  refused rather than moved. The front-line and back-line totals come from the heroes'
  skills. Module `LegacyEngine`, class `Engine`.

The two TypeScript stores behave alike when they create, merge, level and remove slots,
and when they search for a hero and clear it from the squads. These shared reducers live
once, in module `SquadOps`. The two stores differ in how they move a hero into an occupied
slot: only `useSquadState.ts` archives the displaced hero. Each store states that step
itself, on top of `SquadOps.MovedSquads`. The data shapes of `src/types.ts` are in module
`Squads`.

Modelling choices:

- State that the source updates in place becomes the fields of a class. `setDb(prev => …)`
  becomes a method that `modifies` the store and is proved equal to a pure function of the
  old state. The properties are proved about those functions.
- The loops become methods with loop invariants: the search for a placed hero, the clearing
  of a hero from every squad, `isHeroUsedAnywhere` and `calculateDR` of `app.js`.
- `parseInt(x) || d` and `parseFloat(x) || d` take an already parsed `Option`. `None` stands
  for NaN, and both `None` and zero fall back to `d`.
- Reductions are reals, because the source multiplies by 1.5 and divides by 2 and 3.
- The catalog of heroes is a constructor parameter, not the bundled JSON file.

What the proofs establish, beyond each operation's own contract:

- Single occupancy ("every hero id sits in at most one slot"): every operation of both
  TypeScript stores keeps it on a state that has it. The one exception is a slot edit that
  sets an `id`, which the source allows and which can put a hero in a second slot. Neither
  store's invariant includes single occupancy, because a loaded snapshot need not have it.
  `app.js` keeps single occupancy as part of its engine invariant, in every operation.
- Archive round trips: a removed hero, or a hero displaced from its slot, comes back with
  the same weapon level, stars and skills.
- The confirmation gate of `useSquadManager.ts` asks exactly when the hero is placed
  elsewhere and the user has not opted out.
- In `metaStatus`, a later rule overwrites an earlier one. On squads of five slots this
  gives the same result as "the first matching rule wins", because no two 4+1 builds fit
  in five slots.
- Empty slots play no part in the classification.
- In `useSquadState.ts` a chip key is stored with zero reduction whatever its level. So in
  a table whose stats follow their levels, every slot receives the same reduction.
- In `app.js`, removing a hero takes exactly its share off the totals. A squad whose
  reducing skills all target the team has equal front and back totals.

## Model

| member | source | states |
|---|---|---|
| Squads.ParseOr | src/hooks/useSquadState.ts:68 | the parsed value when it parses to a non-zero number, the fallback for NaN and for zero |
| Squads.FirstIndex | src/hooks/useSquadState.ts:160 | `findIndex`: the first index satisfying the predicate, with none before it, or -1 when no element does |
| Squads.FindHero | src/hooks/useSquadState.ts:144 | the catalog entry found has the requested id; none is found exactly when no entry has that id |
| Squads.Skills.With | src/hooks/useSquadState.ts:132-135 | the named skill gets the new level and the other skill keeps its level |
| Squads.ClampExLvl | src/hooks/useSquadState.ts:106 | the weapon level lies in [1, 30], equals the input inside that range, and is 1 below it and 30 above it |
| Squads.CapSkills | src/hooks/useSquadState.ts:108-113 | each skill is lowered to the cap where it exceeded it and is otherwise unchanged |
| Squads.SetSlot | src/hooks/useSquadState.ts:180-183 | exactly one slot is replaced; squad names, squad sizes and every other slot are unchanged |
| SquadOps.EmptySlot | src/hooks/useSquadState.ts:7-12 | the empty slot holds no hero and has weapon level 0, 0 stars and both skills at 1 |
| SquadOps.EmptySlots | src/hooks/useSquadState.ts:18 | five empty slots |
| SquadOps.InitialSquads | src/hooks/useSquadState.ts:17-21 | three squads named "Squad 1", "Squad 2" and "Squad 3", each of five empty slots |
| SquadOps.ApplySlotUpdate | src/hooks/useSquadState.ts:105-116 | a weapon-level update is clamped into [1, 30] and brings both skills down to the new cap; every other field takes the update's value when one is given and keeps the slot's value otherwise |
| SquadOps.UpdateHeroSlotDb | src/hooks/useSquadState.ts:99-121 | only the addressed slot of the current squad changes, to the merged slot; the rest of the state is kept, and single occupancy survives an update that does not change the id |
| SquadOps.SkillInput | src/hooks/useSquadState.ts:124 | the skill level is at least 1, is the typed level when that is at least 1, and is 1 for NaN or a level below 1 |
| SquadOps.UpdateSkillDb | src/hooks/useSquadState.ts:123-141 | only the named skill of the addressed slot changes, to the clamped input; everything else is kept, including single occupancy |
| SquadOps.RemovedDb | src/hooks/useSquadState.ts:187-204 | removing from an empty slot changes nothing; otherwise the slot is emptied and the hero's levels are archived under its id; single occupancy is kept |
| SquadOps.FirstHolder | src/hooks/useSquadState.ts:147-154 | the holder found holds the hero, and no slot earlier in search order (squads first, then slots) holds it; none is found only when no slot holds the hero |
| SquadOps.SavedStats | src/hooks/useSquadState.ts:147-155 | the levels of the first slot holding the hero when one does, else the archived entry |
| SquadOps.RestoredSlot | src/hooks/useSquadState.ts:170-172 | the written slot carries the hero's identity plus the saved weapon level, stars (0 when falsy) and skills, or the defaults 0, 0 and 1/1 when nothing is saved |
| SquadOps.ClearHero | src/hooks/useSquadState.ts:157-168 | slots that do not hold the hero are untouched; when the hero sits in at most one slot, that slot becomes empty |
| SquadOps.MovedSquads | src/hooks/useSquadState.ts:143-183 | the target slot holds the restored hero; every other slot is kept except the one the hero left, which becomes empty; a hero held at most once before is afterwards held exactly once, in the target |
| SquadOps.MoveKeepsUnique | src/hooks/useSquadState.ts:157-183 | moving a hero keeps every hero id in at most one slot |
| SquadOps.RemoveThenReassignRestores | src/hooks/useSquadState.ts:187-204 | removing a hero and assigning it again, to any slot of any squad, restores its weapon level, stars and skills |
| SquadOps.FewerIdsKeepsUnique | src/hooks/useSquadState.ts:157-168 | a change that only empties slots or keeps their ids keeps single occupancy |
| SquadOps.FindExisting | src/hooks/useSquadManager.ts:225-233 | the loop returns the first holder in search order, as `FirstHolder` specifies |
| SquadOps.ClearHeroEverywhere | src/hooks/useSquadState.ts:158-168 | the loop over all squads produces `ClearHero` of its input |
| SquadOps.NormaliseSquads | src/hooks/useSquadState.ts:43-49 | stored squads keep their names and sizes; a `null` slot becomes an empty slot and a stored slot is kept |
| SquadManager.DeriveStat | src/hooks/useSquadManager.ts:83-98 | the level is stored, physical equals energy, a drone at level 200 or more gives 5 and below that 0, `sf_tech*` gives 1.5 per level, and every other key gives 0 |
| SquadManager.DroneKeyIsNoTechnology | src/hooks/useSquadManager.ts:88-93 | the drone key is not caught by the technology rule |
| SquadManager.InitialStats | src/hooks/useSquadManager.ts:22-27 | the four default stats, every one at level 0 with zero physical and energy reduction |
| SquadManager.InitialDb | src/hooks/useSquadManager.ts:14-29 | the initial state shows squad 0 of the three empty default squads, holds no hero twice, has an empty archive and the four zero stats |
| SquadManager.LoadDb | src/hooks/useSquadManager.ts:32-53 | nothing stored gives the initial state; a stored snapshot keeps its data, has its null slots filled, and falls back to the default squads or stats only where those are missing |
| SquadManager.WithStat | src/hooks/useSquadManager.ts:83-107 | the edited key gets the parsed level (0 when it does not parse) and its derived reductions; other keys are kept; a consistent table stays consistent |
| SquadManager.DrFromLevels | src/hooks/useSquadManager.ts:345-355 | with stats consistent with their levels, a slot's reduction is 5 for a drone at level 200 or more, plus 1.5 per technology level, and it is the same for every slot |
| SquadManager.PerformAssignDb | src/hooks/useSquadManager.ts:158-215 | an unknown hero changes nothing; otherwise the squads are `MovedSquads` (restored levels in the target, the former slot emptied, every other slot kept), the archive is untouched (this revision does not archive a displaced hero), and single occupancy is kept |
| SquadManager.AssignGate | src/hooks/useSquadManager.ts:217-264 | an unknown hero is ignored; a hero already in the target slot is left alone; a hero placed elsewhere asks for confirmation unless the user opted out; an unplaced hero is moved directly |
| SquadManager.Store.constructor | src/hooks/useSquadManager.ts:32-57 | the store starts from `LoadDb` of the snapshot and the stored preference, with no pending move |
| SquadManager.Store.UpdateGlobalStat | src/hooks/useSquadManager.ts:83-107 | the new state is the old one with `WithStat` applied to its stats |
| SquadManager.Store.SwitchSquad | src/hooks/useSquadManager.ts:109-111 | only the current squad index changes |
| SquadManager.Store.UpdateHeroSlot | src/hooks/useSquadManager.ts:113-136 | the new state is `UpdateHeroSlotDb` of the old one |
| SquadManager.Store.UpdateSkill | src/hooks/useSquadManager.ts:138-156 | the new state is `UpdateSkillDb` of the old one |
| SquadManager.Store.PerformAssignHero | src/hooks/useSquadManager.ts:158-215 | the new state is `PerformAssignDb` of the old one, and the dialog closes once a known hero is assigned |
| SquadManager.Store.AssignHero | src/hooks/useSquadManager.ts:217-264 | the gate's decision is carried out: nothing happens, the move is made, or the move is left pending confirmation |
| SquadManager.Store.ConfirmMove | src/hooks/useSquadManager.ts:251-257 | the pending move is made, the dialog closes, and ticking "don't ask again" sets the preference for good |
| SquadManager.Store.CloseModal | src/hooks/useSquadManager.ts:357-359 | the dialog closes with the state unchanged |
| SquadManager.Store.RemoveHero | src/hooks/useSquadManager.ts:281-307 | the new state is `RemovedDb` of the old one |
| SquadManager.OptOutSkipsConfirmation | src/hooks/useSquadManager.ts:235-259 | moving a hero placed elsewhere asks for confirmation exactly when the user has not opted out |
| SquadState.ChipKeysContainChip | src/hooks/useSquadState.ts:26-31 | each of the six chip keys contains "chip" and is neither the drone key nor a protection-node key |
| SquadState.OtherRedHasNoChip | src/hooks/useSquadState.ts:32 | `other_red` falls under neither the chip rule nor the protection rule |
| SquadState.KeyFacts | src/hooks/useSquadState.ts:72-84 | how the stat rules classify the known keys |
| SquadState.DeriveStat | src/hooks/useSquadState.ts:67-84 | the level is stored, physical equals energy, the drone gives 5 from level 200 on and 0 before, the protection nodes give 1.5 per level, every chip key gives 0, and `other_red` gives its level |
| SquadState.InitialStats | src/hooks/useSquadState.ts:22-33 | the ten default stats, every one at level 0 with zero physical and energy reduction |
| SquadState.InitialDb | src/hooks/useSquadState.ts:14-35 | the initial state shows squad 0 of the three empty default squads, holds no hero twice, has an empty archive and the ten zero stats |
| SquadState.MergeStats | src/hooks/useSquadState.ts:52 | every default key is present, a stored stat wins over the default, a default fills every missing key, and consistency is kept |
| SquadState.LoadDb | src/hooks/useSquadState.ts:38-59 | nothing stored gives the initial state; a stored snapshot keeps its data, has its null slots filled and its stats merged over the defaults, so all ten keys are present |
| SquadState.WithStat | src/hooks/useSquadState.ts:67-93 | the edited key gets the parsed level (0 when it does not parse) and its derived reductions; other keys are kept; a consistent table stays consistent |
| SquadState.DerivedAt | src/hooks/useSquadState.ts:86-92 | in a consistent table each stored stat is the one derived from its level |
| SquadState.ProtectionNodeKeys | src/hooks/useSquadState.ts:75 | both protection-node keys fall under the 1.5-per-level rule |
| SquadState.ChipsReduceNothing | src/hooks/useSquadState.ts:78-80 | in a consistent table a chip entry reduces nothing, whatever its level |
| SquadState.AssignedDb | src/hooks/useSquadState.ts:143-185 | an unknown hero changes nothing; otherwise the squads are `MovedSquads`, a different hero displaced from the target slot is archived with its levels, the archive is otherwise unchanged, and single occupancy is kept |
| SquadState.AssignedDbFromMove | src/hooks/useSquadState.ts:146-184 | the reducer for a known hero: it moves the hero and archives the occupant found after clearing, when that slot is occupied |
| SquadState.DisplacedThenReassignedRestores | src/hooks/useSquadState.ts:176-180 | a hero displaced by another and later assigned anywhere comes back with its weapon level, stars and skills |
| SquadState.Store.constructor | src/hooks/useSquadState.ts:38-59 | the store starts from `LoadDb` of the snapshot |
| SquadState.Store.UpdateGlobalStat | src/hooks/useSquadState.ts:67-93 | the new state is the old one with `WithStat` applied to its stats |
| SquadState.Store.SwitchSquad | src/hooks/useSquadState.ts:95-97 | only the current squad index changes |
| SquadState.Store.UpdateHeroSlot | src/hooks/useSquadState.ts:99-121 | the new state is `UpdateHeroSlotDb` of the old one |
| SquadState.Store.UpdateSkill | src/hooks/useSquadState.ts:123-141 | the new state is `UpdateSkillDb` of the old one |
| SquadState.Store.PerformAssignHero | src/hooks/useSquadState.ts:143-185 | the new state is `AssignedDb` of the old one |
| SquadState.Store.RemoveHero | src/hooks/useSquadState.ts:187-204 | the new state is `RemovedDb` of the old one |
| SquadCalculations.OccupiedFrom | src/hooks/useSquadCalculations.ts:11-13 | the positions listed hold heroes, every occupied position is listed, and they are in increasing order |
| SquadCalculations.ActiveHeroes | src/hooks/useSquadCalculations.ts:11-13 | one entry per occupied slot, in slot order, each built from its slot |
| SquadCalculations.Names | src/hooks/useSquadCalculations.ts:15 | the active heroes' names, in order |
| SquadCalculations.Cats | src/hooks/useSquadCalculations.ts:16 | the active heroes' categories, in order |
| SquadCalculations.MetaStatusOf | src/hooks/useSquadCalculations.ts:10-40 | the Nerzi hint shows exactly for the air build; the missile, tank and air labels hold exactly when their rule is the last to match; the full-squad labels and the empty label hold exactly when no 4+1 build matches and the category counts say so |
| SquadCalculations.LabelsIdentifyMeta | src/hooks/useSquadCalculations.ts:18-37 | the six labels "", "air41", "tank41", "missile41", "fullTank" and "fullMissile" are pairwise distinct, and only "no build" has the empty one |
| SquadCalculations.AirTankApart | src/hooks/useSquadCalculations.ts:21-30 | the air and tank builds need nine distinct heroes between them, so they never both fit in five slots |
| SquadCalculations.AirMissileApart | src/hooks/useSquadCalculations.ts:21-34 | the air and missile builds never both fit in five slots |
| SquadCalculations.TankMissileApart | src/hooks/useSquadCalculations.ts:27-34 | the tank and missile builds never both fit in five slots |
| SquadCalculations.FourPlusOneExclusive | src/hooks/useSquadCalculations.ts:21-34 | on a squad of five slots at most one 4+1 build is present |
| SquadCalculations.MetaMatchesFirstRule | src/hooks/useSquadCalculations.ts:18-38 | on a squad of five slots, the overwriting order of the code gives the same build as "the first matching rule wins" |
| SquadCalculations.OccupiedIgnoresEmpty | src/hooks/useSquadCalculations.ts:11-13 | squads that agree on their occupied slots have the same occupied positions |
| SquadCalculations.MetaIgnoresEmptySlots | src/hooks/useSquadCalculations.ts:10-40 | the build recognised does not depend on the contents of empty slots |
| SquadCalculations.SquadDrStats | src/hooks/useSquadCalculations.ts:42-63 | one entry per slot, in slot order, each the slot's reduction |
| SquadCalculations.CalculateDR | src/hooks/useSquadCalculations.ts:65 | the slot's entry when the index has one, otherwise zero |
| SquadCalculations.UncategorisedGetsGlobalPart | src/hooks/useSquadCalculations.ts:44-59 | a slot with no Tank, Missile or Aircraft category receives only the global part |
| SquadCalculations.SameCategorySameDr | src/hooks/useSquadCalculations.ts:46-61 | slots of one category receive the same reduction, wherever they sit |
| SquadCalculations.GlobalPartFromLevels | src/hooks/useSquadCalculations.ts:44-45 | with stats consistent with their levels, the global part is 5 for a drone at level 200 or more, plus 1.5 per protection level, plus the `other_red` level |
| SquadCalculations.ChipPartZero | src/hooks/useSquadCalculations.ts:50-59 | with stats consistent with their levels, no chip pair adds anything |
| SquadCalculations.DerivedStatsGiveUniformDr | src/hooks/useSquadCalculations.ts:42-65 | with stats consistent with their levels, every slot receives exactly the global part |
| LegacyEngine.SkillShare | app.js:114-125 | a skill without damage reduction adds nothing; otherwise `base + lvl * inc` goes to both lines for `team` and to the front for `front`; for `self` half goes to the front from slots 0 and 1 and a third goes to the back from the others; any other target adds nothing |
| LegacyEngine.BaseDr | app.js:102 | the typed base when it parses, else 0 |
| LegacyEngine.EmptyFormationTotals | app.js:101-127 | an empty formation leaves both lines at the base |
| LegacyEngine.RemovalSubtractsShare | app.js:101-127 | removing the hero of one slot takes exactly that slot's share off both totals |
| LegacyEngine.UnchangedBelow | app.js:108-127 | the totals read only the slots they visit |
| LegacyEngine.TeamSkillsBalanceLines | app.js:114-126 | when every reducing skill targets the team, the front and back totals are equal |
| LegacyEngine.FreshSlot | app.js:86-94 | a placed hero starts at weapon level 1 with both skills at 1 |
| LegacyEngine.Placed | app.js:86-94 | only the target slot changes; a hero placed nowhere before keeps single occupancy, and the level caps hold |
| LegacyEngine.WithSlot | app.js:188-202 | only the addressed slot changes; keeping its id keeps single occupancy |
| LegacyEngine.Shrunk | app.js:218 | deleting slots keeps the other squads, single occupancy and the level caps |
| LegacyEngine.SkillLevelInput | app.js:201-202 | the skill level lies in [1, cap], is the typed level inside that range, is 1 for NaN or below 1, and is the cap above it |
| LegacyEngine.WithExLvl | app.js:186-194 | the weapon level is clamped into [1, 30] (1 for NaN); skills above the new cap come down to it and the others are kept |
| LegacyEngine.AddSkill | app.js:116-124 | the running totals grow by the skill's share |
| LegacyEngine.AddSlot | app.js:109-126 | the running totals grow by the slot's share, and by nothing for a hero missing from the catalog |
| LegacyEngine.Engine.constructor | app.js:7-16 | three empty squads, squad 1 current, a base reduction of 44 |
| LegacyEngine.Engine.IsHeroUsedAnywhere | app.js:209-216 | true exactly when some slot of some squad holds the id |
| LegacyEngine.Engine.AssignHeroToSlot | app.js:83-96 | a hero placed anywhere is refused and nothing changes; otherwise it is written into the slot and whatever the slot held is replaced; single occupancy and the caps are kept |
| LegacyEngine.Engine.CalculateDR | app.js:101-127 | the loop's totals equal the front and back totals of the current squad for the parsed base |
| LegacyEngine.Engine.UpdateExLvl | app.js:186-197 | only the addressed slot changes, as `WithExLvl` says |
| LegacyEngine.Engine.UpdateSkillLvl | app.js:199-204 | only the named skill of the addressed slot changes, to the typed level clamped into [1, cap of the weapon level] |
| LegacyEngine.Engine.RemoveFromSlot | app.js:218 | the slot's key is deleted from the current squad and nothing else changes |
| LegacyEngine.Engine.ClearFormation | app.js:242-244 | a confirmed clear empties the current squad; a declined one changes nothing |
| LegacyEngine.Engine.SwitchSquad | app.js:221-222 | only the current squad changes |
| LegacyEngine.Engine.UpdateBaseDR | app.js:219 | the base reduction becomes the typed value |

## Left out

- Rendering, React hooks and effects, drag and drop, toasts and notices, the hero selection
  dialog (`openSelectionModal`, `closeSelectionModal` and `selectHeroForSlot` only forward to
  `assignHero`), and `console` output.
- Persistence to `localStorage`: the stores take an already parsed snapshot, and the
  "don't ask again" preference is a constructor parameter. A snapshot that fails to parse
  is modelled as no snapshot. JSON parsing itself is not modelled.
- The `init` of `app.js` is left out: it fetches `heroes.json`, sorts the catalog and
  reads storage. The engine starts from the initial `db`, with the catalog as a parameter.
- `confirm()` in `clearFormation` becomes a boolean parameter.
- The refresh of the grid and hero storage in `app.js` (`refreshSquadGrid`,
  `renderHeroStorage`) only displays the state.
- `updateBaseDR` keeps the raw input string in `db.global`; the model keeps its parsed value.
- Floating-point rounding is not modelled: reductions are exact reals, and `toFixed(2)`
  is display only.
- Stored values that break the data shapes (squads that are not arrays, levels that are
  strings) are not modelled. The stores' constructors require a snapshot that loads to
  three squads of five slots.
- SquadManager.Store.SwitchSquad and SquadState.Store.SwitchSquad require an index in
  0 to 2, which is what the interface passes; the source does not check this.
- LegacyEngine.Engine.UpdateExLvl and LegacyEngine.Engine.UpdateSkillLvl require the
  slot to be filled. The interface only offers them on filled slots, and the source would
  throw on an empty one.
- LegacyEngine.Engine.SwitchSquad requires a squad number from 1 to 3, which is what the
  squad buttons pass. The source accepts any number, but the grid refresh it triggers
  throws for a squad that does not exist.
- LegacyEngine.Engine.AssignHeroToSlot requires a slot number from 0 to 4, the ids of the
  drop targets.
- SquadManager.CalculateDR is stated only through `SquadManager.DrFromLevels`. The function
  is the plain sum the source computes, and the lemma states what that sum is.
- The `global` field of the TypeScript state (declared in `src/types.ts`, set to 0.0 in
  both stores' initial state) is not part of `AppDb`. Neither store nor the calculations
  read it.
- The `description` strings of the stats in `useSquadState.ts` are not modelled. They are
  tooltip text. No store operation reads them, and `updateGlobalStat` drops the description
  of the entry it rewrites.
