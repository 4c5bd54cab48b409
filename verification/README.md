# A verified model of the Terrafaust progression engine

Terrafaust is a French incremental ("idle") browser game. The player studies
to earn *bons points* (BP), hires élèves, classes, images and professeurs,
ascends into ascension points (PA) to buy écoles, lycées and collèges, and
prestiges into prestige points (PP) to buy licences, masters and doctorates.
Three skill trees (studies, ascension, prestige), a table of achievements and
a quest log feed a shared *effects accumulator* (`skillEffects`) that scales
production and discounts prices.

This project models the game's economy as pure Dafny functions over one
immutable `GameState.State` record, the game's mutable globals gathered in one
place. It covers:

- the immutable tables of data.js (`GameData`, `AchievementData`): skill trees,
  prestige purchases, quests and their permanence, the two point thresholds;
- the accumulator and its rebuild (`SkillEffects`, `Production`):
  resetSkillEffects, applyAllSkillEffects, calculateTotalBPS and
  calculateOfflineProgress;
- the price curves of every purchasable item (`Costs`);
- the purchase loop of performPurchase (`Purchase`), both as a recursive
  function and as the loop the game writes, proved equal;
- the study click and performStudyPurchase (`StudyActions`);
- the latching unlock flags of checkUnlockConditions (`Unlocks`);
- the quest machine (`QuestLog`) and the achievement sweep (`Achievements`);
- the three resets (`Resets`), ascension (`AscensionActions`) and prestige
  (`PrestigeActions`);
- purchaseSkill (`SkillPurchase`), the skill-reset and buy-all buttons
  (`SkillHandlers`), the automations (`Automation`), and the option-unlock and
  hard-reset buttons (`OptionHandlers`).

Amounts (the break_infinity `Decimal`s) are exact `real`s, and counts are `nat`s.
Images are a `nat`, because every change to them is whole. The clock
(`Date.now()`) is a `now: int` parameter in milliseconds. Skill ids and
achievement ids are enumerations, with one constructor per id of the data
tables.

The code is modelled as written, except where "## Left out" says otherwise. Where it evidently misbehaves, the behaviour
is stated by a lemma. In five places the model also carries the evidently
intended operation; these are listed under "Findings".

## Model

| member | source | states |
|---|---|---|
| `GameData.ParseTree` | skills.js:81-85 | `skillsData[key]` finds a tree for exactly the keys 'studies', 'ascension' and 'prestige' |
| `GameData.FindSkill` | skills.js:88-92 | the skill found has the requested id and belongs to the table; nothing is found exactly when no entry has that id |
| `GameData.Ids` | data.js:217-454 | the id list has one entry per skill, in table order |
| `GameData.ParseItem` | core.js:499-575 | each of the twelve item-type strings of performPurchase's switch names its own item, and every other string names none; the match is case-sensitive ('Professeur', 'postDoctorat') |
| `GameData.PurchaseRow` | data.js:457-515 | every prestige item has its row in prestigePurchasesData |
| `GameData.FindPurchase` | prestige.js:218-223 | the row found has the requested id; nothing is found exactly when no row has it |
| `GameData.QuestAt` | quests.js:233-234 | a `for…in` key of questsData names a quest position whose decimal spelling it is; no other key names one |
| `GameData.QuestAtFrom` | quests.js:233-234 | the same lookup restricted to positions from i on |
| `GameData.NonPermanentIds` | core.js:1080-1089 | the ids the resets delete are exactly those of the quests not marked permanent |
| `GameData.TreesWellFormed` | data.js:217-454 | each tree has unique ids, and every prerequisite names a skill of the same tree with a lower tier, so the prerequisite graph is acyclic |
| `GameData.TreeIdsUnique` | data.js:217-454 | no two skills of a tree share an id |
| `GameData.StudyIdsUnique` | data.js:218-337 | the studies tree's ids are unique |
| `GameData.AscensionIdsUnique` | data.js:338-403 | the ascension tree's ids are unique |
| `GameData.PrestigeIdsUnique` | data.js:404-453 | the prestige tree's ids are unique |
| `GameData.TreePrerequisitesPrecede` | data.js:217-454 | every prerequisite precedes its skill by tier |
| `GameData.PrerequisiteIndex` | data.js:217-454 | the position of each prerequisite: same id, strictly lower tier |
| `GameData.PrestigeMultipliersAboveOne` | data.js:457-515 | every prestige purchase has a positive base cost and a cost multiplier above 1, namely 2, 2.5, 3, 4 and 5 |
| `GameData.SevenPermanentQuests` | data.js:518-751 | exactly seven quests are permanent: those at positions 8, 9, 14, 18, 19, 20 and 21 |
| `SkillEffects.DefaultOf` | core.js:997-1027 | resetSkillEffects gives each field 0 or 1 |
| `SkillEffects.ApplyStep` | data.js:217-454 | a step adds to or multiplies exactly one field, leaving every other field alone |
| `SkillEffects.StepAt` | data.js:217-454 | a per-level effect always acts; a first-level effect acts exactly at level 1 |
| `SkillEffects.ApplyEffect` | data.js:217-454 | one effect touches only its own field |
| `SkillEffects.ApplySkill` | skills.js:160-162 | applying a skill's effects never moves the doctorate minimum |
| `SkillEffects.ApplyTree` | core.js:1416-1440 | a tree's loop never moves the doctorate minimum |
| `SkillEffects.ApplySkillAtLevelZero` | data.js:217-454 | every skill at level 0 leaves the accumulator reading as before |
| `SkillEffects.SameRespected` | data.js:217-454 | a skill's effect depends only on what the accumulator reads |
| `SkillEffects.ApplySkillUntouched` | data.js:217-454 | a skill leaves untouched every field none of its effects names |
| `SkillEffects.ApplyTreeUntouched` | core.js:1416-1440 | a tree's loop leaves untouched every field no skill of it names |
| `SkillEffects.ApplyTreeAtLevelZero` | core.js:1416-1440 | a tree whose levels are all 0 changes nothing |
| `SkillEffects.SameTreeRespected` | core.js:1416-1440 | a tree's loop depends only on what the accumulator reads |
| `SkillEffects.AdditiveStudySkillsLinear` | data.js:218-337 | click power adds 0.1 per level, and each of the four per-item cost reductions adds 0.05 per level |
| `SkillEffects.CostReductionSkillsBelowOne` | data.js:284-322 | up to the maximum level of 5, a per-item cost reduction stays within 0 and 0.25, below 1 |
| `SkillEffects.TablesRaising` | data.js:217-454 | every effect of the three trees only raises its field |
| `SkillEffects.EffectKeepsWellSigned` | data.js:217-454 | a raising effect keeps every field at or above its default |
| `SkillEffects.SkillKeepsWellSigned` | data.js:217-454 | a skill of raising effects keeps every field at or above its default |
| `SkillEffects.TreeKeepsWellSigned` | core.js:1416-1440 | a raising tree keeps every field at or above its default at any levels |
| `GameState.AddToCounter` | core.js:642-679 | only the item's own counter rises, by exactly k; the currencies are untouched |
| `GameState.Debit` | core.js:634-639 | exactly the amount leaves the one currency debited; every other currency and counter is unchanged |
| `GameState.WithTree` | events.js:516-521 | writing one tree's points and levels leaves the two other trees as they were |
| `GameState.QuestKeyRoundTrip` | quests.js:233-237 | the key of a quest position looks that position up again |
| `GameState.QuestIdIsNotAKey` | core.js:1084 | a quest id never looks up a quest in the position-keyed log |
| `Production.PrestigeFieldsUntouched` | core.js:1416-1440 | no skill of any tree acts on the five fields the prestige purchases feed |
| `Production.AddPrestigeContributions` | core.js:1457-1462 | each prestige field gains 0.01 per unit owned, and no other field moves |
| `Production.Contribute` | core.js:1457-1462 | one prestige field gains 0.01 per unit owned |
| `Production.FinishRebuild` | core.js:1451-1466 | after the skill loops: the PA gain multiplier is scaled by the quest multiplier, the prestige fields gain their contributions, the doctorate minimum is 5 per doctorate, nothing else moves |
| `Production.ScaleQuest` | core.js:1451 | the quest multiplier scales the PA gain multiplier only |
| `Production.WithMinClasses` | core.js:1464-1466 | the doctorate minimum is set and every field kept |
| `Production.PrestigeFieldReadsItsCount` | core.js:1457-1462 | after a rebuild each prestige field reads exactly 0.01 per unit owned, whatever the skill levels |
| `Production.PrestigeTableRatesIgnored` | data.js:457-515 | only the licence's own rate is 0.01; the other four rows promise more than the rebuild gives |
| `Production.TreeLeavesPrestigeField` | core.js:1416-1440 | a tree's loop passes a prestige field through |
| `Production.SkillsLeavePrestigeField` | core.js:1411-1440 | after the three skill loops a prestige field still reads 0 |
| `Production.StudiesLeave` | core.js:1416-1423 | the studies loop passes a prestige field through |
| `Production.AscensionLeave` | core.js:1424-1431 | the ascension loop passes a prestige field through |
| `Production.PrestigeLeave` | core.js:1432-1440 | the prestige loop passes a prestige field through |
| `Production.RebuildWellSigned` | core.js:1411-1467 | with a quest multiplier of at least 1, every rebuilt field reads at least its default |
| `Production.TreeStepWellSigned` | core.js:1416-1440 | each tree's loop keeps every field at or above its default |
| `Production.SkillsAppliedWellSigned` | core.js:1416-1440 | the three loops together keep every field at or above its default |
| `Production.AscensionAppliedWellSigned` | core.js:1416-1431 | the first two loops keep every field at or above its default |
| `Production.StudiesAppliedWellSigned` | core.js:1416-1423 | the studies loop keeps every field at or above its default |
| `Production.FinishKeepsWellSigned` | core.js:1451-1466 | the final steps keep every field at or above its default |
| `Production.FinishPaGainAtLeastOne` | core.js:1451 | the PA gain multiplier stays at least 1 |
| `Production.FinishPrestigeNonNegative` | core.js:1457-1462 | a prestige field stays non-negative |
| `Production.NoStudentsNoProduction` | core.js:1211-1243 | with no élèves and no classes nothing is produced, whatever the multipliers |
| `Production.ProductionSigns` | core.js:1211-1243 | with sane multipliers production is never negative, and classes alone produce something even with no professeur |
| `Production.AllBpsScalesProduction` | core.js:1211-1243 | the all-production multiplier enters as a factor: scaling it by k scales production by k |
| `Production.ApplyAllSkillEffects` | core.js:1411-1467 | only the accumulator and production change; the accumulator is the rebuild of the state's levels, quest multiplier and prestige counts, with a doctorate minimum of 5 per doctorate |
| `Production.ApplyKeepsTrees` | core.js:1411-1467 | the rebuild leaves the three trees alone |
| `Production.TotalBpsIgnoresTotal` | core.js:1211-1243 | production does not read its own cached value |
| `Production.ApplyAllSkillEffectsIdempotent` | core.js:1411-1467 | a second rebuild changes nothing |
| `Production.OfflineProgress` | core.js:1484-1500 | when disabled nothing changes; otherwise the timestamp moves to now, and bons points and their total both gain the cached production total × (1 + offline bonus) × seconds exactly when more than 60 s have passed |
| `Production.OfflineGainNonNegative` | core.js:1484-1500 | with a non-negative cached total and offline bonus, offline progress never takes bons points away, and both totals gain the same |
| `Production.OfflineProgressAtLoad` | core.js:789-889 | at its only call, during loading and before the rebuild, the accumulator holds its initial values, so the gain is the loaded total × seconds and the offline skill has no effect |
| `Production.OfflineProgressAtSameInstant` | core.js:1484-1500 | a second offline check at the same instant changes nothing more |
| `Costs.StudyCost` | studies.js:159-208 | the study price is the floor of base × ratio^n × (1 − own reduction) × (1 − global reduction): a whole number within one below the raw price |
| `Costs.StudyCostAtZero` | studies.js:159-166 | with both reductions 0 the first unit costs the base price |
| `Costs.StudyCostMonotone` | studies.js:159-208 | for reductions in [0, 1] the floored price is non-negative and never falls as n grows |
| `Costs.RawStudyCostMonotone` | studies.js:159-208 | the same for the unfloored price |
| `Costs.StructureCostStrictlyIncreasing` | ascension.js:104-130 | école, lycée and collège prices start at their base (1, 5, 25) and strictly rise with the count |
| `Costs.PrestigeCostStrictlyIncreasing` | prestige.js:129-172 | each prestige price starts at the row's base cost and strictly rises with the count |
| `Costs.AutomationCost` | automation.js:67-83 | with neither reduction positive the automation price is the base |
| `Costs.AutomationCostBounds` | automation.js:67-83 | for reductions of at most 1 the automation price lies within 0 and the base |
| `Costs.CostOfSane` | core.js:499-575 | the price performPurchase picks is non-negative, and whole for the items paid in images |
| `Purchase.Limit` | core.js:593-632 | a fixed quantity allows that many attempts; 'max' allows 100 000 |
| `Purchase.SumCostsSplit` | core.js:593-632 | the price of a run of units splits at any point |
| `Purchase.Resolve` | core.js:593-632 | the loop buys at most its limit, and the total is the sum of the prices of the units bought |
| `Purchase.ResolveBounds` | core.js:593-632 | the loop never spends more than it has, and when it stops before its limit the next unit is unaffordable |
| `Purchase.ResolveAffordable` | core.js:593-632 | every unit bought was affordable when its turn came |
| `Purchase.ResolveUnique` | core.js:593-632 | the greedy count is the only count that is affordable unit by unit and stops at the first unaffordable unit or at the limit |
| `Purchase.ResolveLoop` | core.js:593-632 | the loop as written, with its counter and running cost, computes exactly the recursive outcome |
| `Purchase.ResolveStep` | core.js:603-610 | an affordable next unit is bought and the loop goes on from the following unit |
| `Purchase.ResolveStop` | core.js:603-610 | no attempt left or an unaffordable next unit: nothing is bought |
| `Purchase.SumCostsIntegral` | core.js:620-628 | whole prices add up to a whole total |
| `Purchase.Outcome` | core.js:490-632 | the outcome counts from the item's counter, pays in its currency, stays within the limit, never exceeds the funds, and is whole for images |
| `Purchase.Pay` | core.js:634-679 | the counter rises by the count and the currency drops by the total; nothing else held moves |
| `Purchase.AfterPurchase` | core.js:682-689 | the quest update, rebuild and unlock check move no counter, no currency and no automation |
| `Purchase.HoldingsAgree` | core.js:634-679 | equal holdings mean equal counters and currencies |
| `Purchase.Buy` | core.js:579-588 | doctorates and post-doctorates are always refused, their prerequisite being called without its arguments |
| `Purchase.PerformPurchase` | core.js:490-700 | the achievement check runs first, even for an unknown item type, which then changes nothing more |
| `Purchase.PaidOutcome` | core.js:634-689 | after a paid purchase and its follow-up the counter is up by the count and the currency down by the total; every other counter and currency is unchanged |
| `Purchase.BuyOutcome` | core.js:490-700 | a purchase of the loop's k units raises the counter by k and debits their exact price, never driving funds negative; k = 0 changes nothing |
| `StudyActions.ClickGain` | studies.js:251-263 | a click value above 0 is earned in full, exactly 0 earns 1, and below 0 earns nothing |
| `StudyActions.ClickGainBounds` | studies.js:251-263 | a click earns at least its value, and something exactly when its value is non-negative |
| `StudyActions.Click` | events.js:307-335 | a click adds 1 to the click count and its gain to the bons points, refreshes production, only switches flags on, and changes nothing else |
| `StudyActions.TotalBpsIgnoresClicks` | core.js:1211-1243 | production does not read the click count |
| `StudyActions.GrantHiringPoints` | studies.js:370-376 | hiring k professeurs adds exactly k ascension skill points; other items add none |
| `StudyActions.PerformStudyPurchase` | studies.js:281-315 | an item type that is not a study item changes nothing |
| `StudyActions.StudyBuyOutcome` | studies.js:281-392 | a study purchase of k units raises the counter by k, debits their price, keeps funds non-negative, and buying nothing only checks the unlocks |
| `StudyActions.StudyBuyPaid` | studies.js:357-387 | the paid case of the same |
| `StudyActions.StudyBuyNothing` | studies.js:320-355 | the case of no unit bought |
| `Unlocks.FlagsMet` | core.js:1248-1405 | a flag is met exactly when it latches and its threshold holds |
| `Unlocks.EarnedFlags` | core.js:1248-1405 | the same on a state |
| `Unlocks.FreshRunFlags` | core.js:1249-1276 | below 100 BP with no image, only the élève flag of the four study flags is met |
| `Unlocks.CheckUnlocks` | core.js:1248-1405 | the check only switches flags on, adds exactly the earned ones, always leaves the élève flag on, and changes the quest log only when it first opens it |
| `Unlocks.EarnedIgnoresFlagsAndQuests` | core.js:1248-1405 | no threshold reads the flags or the quest log |
| `Unlocks.QuestFlagAfterCheck` | core.js:1248-1405 | after a check the quest-log flag is on whenever the clicks earn it |
| `Unlocks.EarnedFlagsIgnoresFlagsAndQuests` | core.js:1248-1405 | the earned set does not depend on the flags or the quest log |
| `Unlocks.CheckUnlocksIdempotent` | core.js:1248-1405 | a second check changes nothing |
| `Unlocks.CheckUnlocksLatches` | core.js:1248-1405 | a flag that was on stays on; one neither on nor earned stays off |
| `QuestLog.Advance` | quests.js:236-299 | one key: an absent entry is created, a settled one is kept, a pending one completes, and no other key changes |
| `QuestLog.AdvanceFromKey` | quests.js:233-299 | the loop settles every quest key it visits, keeps settled entries and claimed marks, and touches no other key |
| `QuestLog.UpdateQuestProgress` | quests.js:231-316 | only the quest log changes |
| `QuestLog.UpdateQuestProgressSettles` | quests.js:231-316 | after an update every quest has a settled entry, completed if the log was consistent |
| `QuestLog.UpdateQuestProgressMonotone` | quests.js:240-245 | a completed or claimed entry is never touched, claimed marks are kept, and non-quest keys are left alone |
| `QuestLog.AdvanceFromSettled` | quests.js:240-245 | a loop over settled entries changes nothing |
| `QuestLog.UpdateQuestProgressIdempotent` | quests.js:231-316 | a second update changes nothing |
| `QuestLog.UpdateKeepsConsistent` | quests.js:231-316 | claimed entries stay completed |
| `QuestLog.GrantQuestReward` | data.js:518-750 | the evidently intended grant of a `{ type, amount }` reward: BP, image, PA and PP rewards add their amount, a PA multiplier reward raises the quest multiplier by its percentage (× (1 + amount)), and the kinds claimQuestReward never names grant nothing |
| `QuestLog.ClaimQuestReward` | quests.js:322-375 | the intended claim: an unknown, uncompleted or claimed quest changes nothing; otherwise the intended grant, the claimed mark and the rebuild |
| `QuestLog.GrantAsWritten` | quests.js:341-371 | the five tests read properties (bonsPoints, images, ascensionPoints, prestigePoints, paMultiplier) that a `{ type, amount }` record does not have, so the grant changes nothing |
| `QuestLog.ClaimQuestRewardAsWritten` | quests.js:322-375 | the same refusals; otherwise only the claimed mark and the rebuild |
| `QuestLog.ClaimAsWrittenGrantsNothing` | quests.js:341-375 | as written a claim leaves BP, images, PA, PP and the quest multiplier as they were |
| `QuestLog.FirstClickClaimDiffers` | quests.js:341-347 | claiming the first-click quest grants its 10 BP as intended and none as written |
| `QuestLog.ClaimTwiceIsClaimOnce` | quests.js:330-338 | a second claim is refused |
| `QuestLog.ClaimKeepsConsistent` | quests.js:373 | claimed entries stay completed |
| `QuestLog.PaMultiplierRewardMultiplies` | data.js:598-606 | the intended claim of the first-ascension quest raises the quest PA multiplier by 10 %, a factor of 1.10 |
| `QuestLog.ClaimByIdRefused` | events.js:833-840 | a claim by the quest's id finds no quest and changes nothing |
| `Achievements.Grant` | achievements.js:238-269 | a bonus adds to the running bonus, an effect reward acts on the running accumulator, an ascension grant sets the PA from the snapshot, a skill-point grant adds to its tree |
| `Achievements.Visit` | achievements.js:224-275 | an achievement not yet unlocked whose condition holds is unlocked and rewarded; any other is skipped |
| `Achievements.VisitUnlocked` | achievements.js:224-232 | one visit adds the achievement's id exactly when its condition holds |
| `Achievements.EarnedFromStep` | achievements.js:224-275 | earned from k means earned at k or from k + 1 |
| `Achievements.SweepFromUnlocked` | achievements.js:224-275 | the sweep unlocks exactly the ids already unlocked or earned |
| `Achievements.SweepFromChanged` | achievements.js:224-275 | the unlocked set only grows, and the change flag is set exactly when it grew |
| `Achievements.NewBonus` | achievements.js:227-243 | the reference sum of the bonus amounts of the achievements that unlock, each once: never negative, and 0 when no entry left is a bonus |
| `Achievements.SweepFromBonus` | achievements.js:227-243 | the sweep raises the permanent bonus by exactly the reference sum of the newly unlocked bonus amounts |
| `Achievements.SweepFromUnchanged` | achievements.js:224-275 | a sweep that unlocks nothing changes nothing |
| `Achievements.SweepFromChangedLatches` | achievements.js:224-275 | once set, the change flag stays set |
| `Achievements.WriteBack` | achievements.js:238-269 | the sweep's values are written back and nothing else changes |
| `Achievements.CheckAchievements` | achievements.js:183-283 | when anything changes the accumulator is rebuilt, erasing effect rewards; BP, élèves, classes, images, professeurs, clicks, quests, flags, automations and skill levels never change |
| `Achievements.CheckAchievementsUnlocks` | achievements.js:183-283 | after a check an achievement is unlocked exactly when it was before or its condition holds |
| `Achievements.CheckAchievementsNothingNew` | achievements.js:277-282 | when nothing new is earned nothing changes |
| `Achievements.CheckAchievementsBonus` | achievements.js:227-283 | a check raises the permanent bonus by exactly the bonus amounts of the achievements it newly unlocks |
| `Achievements.AscensionGrantsOverwrite` | achievements.js:255-258 | two ascension grants in one sweep: the second overwrites the first, since both start from the snapshot |
| `Achievements.LastPa` | achievements.js:255-258 | the reference for the PA a sweep assigns: each ascension grant that newly unlocks sets the snapshot's PA plus its own amount, so the last one decides; with no grant left in the table the PA stands |
| `Achievements.LastPaIsSomeGrant` | data.js:1115-1163 | the reference yields the PA it started from, or the snapshot's PA plus the fixed amount of one ascension grant not yet unlocked whose condition holds |
| `Achievements.SweepFromAscensionPoints` | achievements.js:224-258 | the sweep assigns exactly the reference PA |
| `Achievements.CheckAchievementsAscensionPoints` | achievements.js:183-283 | after a check the PA is exactly the reference PA, rebuild included |
| `Achievements.CheckAchievementsAscensionGrant` | achievements.js:255-258 | after a check the PA is as before, or the PA before plus the fixed amount of one newly unlocked ascension grant, never a sum of two |
| `Achievements.LastPoints` | achievements.js:259-267 | the reference for a tree's skill points: a grant for that tree that newly unlocks sets the snapshot's points plus one; the points move only when such a grant unlocks, and stand when the table has none |
| `Achievements.LastPointsRise` | achievements.js:259-267 | a grant for the tree that unlocks, its id not met earlier in the table, leaves the snapshot's points plus one |
| `Achievements.SweepFromSkillPoints` | achievements.js:224-267 | the sweep assigns exactly the reference points, tree by tree |
| `Achievements.CheckAchievementsSkillPoints` | achievements.js:183-283 | after a check each tree holds exactly the reference points |
| `Achievements.QuestIndex` | data.js:1389-1412 | the position of each tree's quest achievement, which grants a point of that tree |
| `Achievements.QuestGrantAlone` | data.js:754-1440 | a tree's quest achievement is the table's only skill-point grant for that tree and the only entry with its id |
| `Achievements.CheckAchievementsQuestPoint` | achievements.js:259-267 | a check gives a tree one more skill point exactly when that tree's quest achievement (ACH_QUESTS_1, ACH_QUESTS_5, ACH_QUESTS_ALL) newly unlocks, and leaves its points alone otherwise |
| `Resets.Settle` | core.js:977-981 | the shared tail rebuilds the accumulator and adds exactly the earned flags |
| `Resets.Tail` | core.js:977-981 | the same, given the rebuilt state |
| `Resets.ResetGameVariables` | core.js:897-992 | every counter, currency and tree is zeroed, only the élève flag is on, no automation, quest or achievement remains, and the clock reads now |
| `Resets.HardResetOwnsNothing` | core.js:897-992 | after a hard reset no item is owned |
| `Resets.HardResetGame` | core.js:1034-1039 | the hard reset is resetGameVariables |
| `Resets.HardResetForgets` | core.js:1034-1039 | the hard reset does not depend on the state it starts from |
| `Resets.DropNonPermanent` | core.js:1080-1089 | the resets delete exactly the keys that are ids of non-permanent quests, keeping every other entry |
| `Resets.DropNonPermanentKeepsPositionKeys` | core.js:1080-1089 | on a log keyed by quest position the deletion removes nothing |
| `Resets.SoftReset` | core.js:1045-1106 | the run fields, study tree, automations and quest multiplier are cleared; the ascension and prestige tiers, the BP total and the achievements are kept |
| `Resets.SuperSoftReset` | core.js:1112-1190 | the soft reset plus the ascension tier and all trees cleared, the ascension bonus reset to 1 and one prestige skill point added; the prestige tier is kept |
| `AscensionActions.PAGained` | ascension.js:88-97 | the gain is 0 below 1e10 BP ever earned, else the whole number of 1e10 tranches |
| `AscensionActions.PAGainedExample` | ascension.js:88-97 | 2.5e10 BP give 2 PA |
| `AscensionActions.PerformAscension` | ascension.js:138-173 | refused below five professeurs or below one point; otherwise the count rises by 1, the PA and PA total by the gain, and the run is soft reset |
| `AscensionActions.AscensionThresholdMismatch` | ascension.js:139-142 | with one to four professeurs the menu and the button open, yet the ascension does nothing |
| `AscensionActions.AscensionGainNotConsumed` | core.js:1045-1106 | the soft reset keeps the BP total, so the same gain is available again at once |
| `PrestigeActions.PPGained` | prestige.js:100-107 | the gain is 0 below 1e5 PA ever earned, else the whole number of 1e5 tranches |
| `PrestigeActions.PerformPrestigeAsWritten` | prestige.js:179-211 | below one point nothing happens; otherwise resetGameVariables wipes the grant with everything else |
| `PrestigeActions.PerformPrestige` | prestige.js:179-194 | below one point nothing happens |
| `PrestigeActions.PerformPrestigeOutcome` | prestige.js:191-199 | the intended prestige keeps its grant, clears the lower tiers, keeps the purchases and achievements, and resets the trees |
| `PrestigeActions.GrantThenSuperSoftReset` | core.js:1112-1190 | the grant survives the super soft reset and its rebuild |
| `PrestigeActions.GrantThenSuperSoftResetTrees` | core.js:1151-1157 | after the super soft reset the prestige tree holds one more point and no levels, and the other trees are empty |
| `PrestigeActions.PrestigeGrantWiped` | prestige.js:191-197 | as written the grant is lost and the result does not depend on the starting state; the intended prestige keeps at least one point |
| `PrestigeActions.IndexedRow` | prestige.js:218 | indexing the array by a key finds a row only for a one-character key |
| `PrestigeActions.CounterOf` | prestige.js:226-235 | the counter switch accepts exactly the purchase names, all longer than one character |
| `PrestigeActions.BuyPrestigeUnit` | prestige.js:237-255 | below the price nothing changes |
| `PrestigeActions.AfterPrestigeBuy` | prestige.js:251-258 | the rebuild and unlock check move no holding |
| `PrestigeActions.BuyPrestigeUnitOutcome` | prestige.js:237-252 | an affordable unit costs exactly its price in PP and raises only its own counter by 1 |
| `PrestigeActions.PerformPrestigePurchaseAsWritten` | prestige.js:217-235 | no key passes both lookups, so nothing is ever bought |
| `PrestigeActions.PerformPrestigePurchase` | prestige.js:217-263 | an unknown id or an unaffordable price changes nothing |
| `PrestigeActions.PrestigePurchaseByName` | prestige.js:217-252 | each purchase name buys one unit of its own item |
| `SkillPurchase.AllMaxed` | skills.js:125-128 | the prerequisites are met exactly when each names a skill of the tree at its maximum level |
| `SkillPurchase.LevelSumOther` | events.js:429-441 | raising a skill outside a table leaves the table's sum alone |
| `SkillPurchase.LevelSumBump` | events.js:429-441 | raising a skill of the table by n raises the table's sum by n |
| `SkillPurchase.FoundIsOnly` | skills.js:88 | with unique ids the skill found is the only entry of that id |
| `SkillPurchase.BumpWithinMax` | skills.js:116-122 | raising within the maximum keeps the record within the maxima |
| `SkillPurchase.RaiseWithinMax` | skills.js:116-157 | one level more below the maximum keeps the record within the maxima |
| `SkillPurchase.RaiseKeepsKeys` | skills.js:157 | raising a skill of the tree adds no foreign key |
| `SkillPurchase.Refresh` | skills.js:175-179 | the rebuild and unlock check leave the trees, clicks and automations alone |
| `SkillPurchase.Learn` | skills.js:145-157 | the skill's level rises by one, the tree keeps the given points, and the other trees are untouched |
| `SkillPurchase.SameTrees` | skills.js:145-157 | equal trees read equal |
| `SkillPurchase.PurchaseSkill` | skills.js:80-181 | an unknown tree, an unknown skill, or a refused guard changes nothing |
| `SkillPurchase.PurchaseSkillRefusals` | skills.js:116-141 | a skill at its maximum, an unmet prerequisite, or too few points each refuse the purchase |
| `SkillPurchase.PurchaseSkillOutcome` | skills.js:145-181 | an allowed purchase raises exactly that skill by one, within its maximum, and leaves the tree's points as they were |
| `SkillPurchase.PurchaseSkillKeepsWithinMax` | skills.js:116-157 | a purchase keeps every level within its maximum |
| `SkillPurchase.PurchaseSkillKeepsKeys` | skills.js:157 | a purchase adds only keys of the tree |
| `SkillPurchase.LearnWorth` | skills.js:157 | learning adds one level to the tree's worth |
| `SkillPurchase.PurchaseSkillMintsPoint` | skills.js:145-157 | as written an allowed purchase makes the tree worth one point more |
| `SkillPurchase.PurchaseSkillCharged` | skills.js:80-141 | the charged purchase refuses exactly as purchaseSkill does |
| `SkillPurchase.AllowedAffords` | skills.js:135-141 | an allowed purchase names a skill whose cost the points cover |
| `SkillPurchase.Charged` | skills.js:116-141 | a refused charged purchase changes nothing |
| `SkillPurchase.PointsAfter` | skills.js:145-155 | the points left plus the cost are the points held |
| `SkillPurchase.ChargedByKey` | skills.js:81-114 | in a known tree the charged purchase is the tree's own |
| `SkillPurchase.ChargedIsLearn` | skills.js:145-157 | an allowed charged purchase learns the skill at the points less its cost |
| `SkillPurchase.PurchaseSkillChargedOutcome` | skills.js:145-181 | an allowed charged purchase takes exactly the cost and raises exactly that skill by one |
| `SkillPurchase.PurchaseSkillChargedWorth` | skills.js:145-157 | the tree's worth moves by one less the cost |
| `Automation.AutomationBase` | events.js:749-776 | the automation base prices are 100, 500, 10 000 and 100 000 PA |
| `Automation.ToggleAutomation` | events.js:749-776 | an active automation is switched off for free; an inactive one is switched on and paid for exactly when the PA cover its price; nothing else moves |
| `Automation.ToggleOnOff` | events.js:749-776 | on then off costs the price and nothing else |
| `Automation.ToggleOffOn` | events.js:749-776 | off then on restores the automation and pays again, when it can be paid |
| `Automation.ToggleFunds` | events.js:749-776 | a toggle never spends more PA than there are |
| `Automation.AutomationKey` | automation.js:89-102 | each automation's item-type name parses back to its item |
| `Automation.AutomationItem` | automation.js:114-135 | the switch of toggleAutomation accepts the four names and inverts AutomationKey |
| `Automation.ToggleByKey` | automation.js:111-153 | an unknown name changes nothing; otherwise only that automation toggles |
| `Automation.ToggleByKeyIsButton` | automation.js:111-153 | called with the button's base price, toggleAutomation does what the button does |
| `Automation.PerformPurchaseKeepsAutomation` | core.js:490-700 | a purchase never switches an automation |
| `Automation.AutoStep` | automation.js:90-101 | an inactive automation does nothing, and a step never switches one |
| `Automation.AutoRun` | automation.js:89-102 | a run never switches an automation |
| `Automation.RunAutomation` | automation.js:89-102 | the intended run never switches an automation |
| `Automation.RunAutomationAsWritten` | automation.js:89-102 | the four tests read the `value` property of a boolean flag, which is undefined, so the run changes nothing |
| `Automation.AsWrittenMissesPurchase` | automation.js:89-102 | with one automation on whose one-unit purchase goes through, the intended run raises its counter by one and the written run differs from it |
| `Automation.Active` | automation.js:89-102 | the active automations, in order, and only those |
| `Automation.AutoRunBuysActive` | automation.js:89-102 | the run is one x1 purchase of each initially active item, in order |
| `Automation.RunAutomationBuysActive` | automation.js:89-102 | the same for the run over élève, classe, image, professeur |
| `Automation.RunWithoutAutomation` | automation.js:89-102 | with none active both runs change nothing |
| `Automation.AutoStepIsBuy` | automation.js:90-101 | an active step is a one-unit purchase after the achievement check |
| `Automation.AutoStepBuysOne` | automation.js:90-101 | an active step raises its counter by at most one |
| `SkillHandlers.TablesPartitioned` | data.js:217-454 | each tree holds only its own ids |
| `SkillHandlers.IdIndex` | data.js:217-454 | every skill id of the game appears in one of the trees |
| `SkillHandlers.AllSkillsUnique` | data.js:217-454 | no id appears twice across the three trees |
| `SkillHandlers.LevelSumConcat` | events.js:431-441 | a sum over two tables is the sum of the two sums |
| `SkillHandlers.LevelSumNone` | events.js:431-441 | a table none of whose ids has a level sums to 0 |
| `SkillHandlers.FoundInItsTree` | skills.js:88 | an id found in a tree's table belongs to that tree |
| `SkillHandlers.OtherTreeSumsToZero` | events.js:431-441 | a record of one tree sums to 0 over another |
| `SkillHandlers.ValuesSumOfTree` | events.js:431-441 | summing all of a record's values is summing over its own tree |
| `SkillHandlers.RefundAll` | events.js:429-443 | each tree's levels become points and are cleared, the secret-skill clicks are 0, nothing else moves |
| `SkillHandlers.SkillReset` | events.js:429-445 | the confirmed skill reset refunds and clears every tree and rebuilds the accumulator; nothing else changes |
| `SkillHandlers.RefundedWorth` | events.js:429-441 | a refunded tree keeps its worth, all of it in free points |
| `SkillHandlers.SkillResetRefunds` | events.js:429-441 | the reset hands back exactly one point per level bought |
| `SkillHandlers.ResetAfterPurchaseMints` | skills.js:145-157 | a reset after an as-written purchase hands back one point more than the tree was worth |
| `SkillHandlers.ResetAfterChargedPurchase` | skills.js:145-157 | after a charged purchase the reset hands back the worth less the cost plus one |
| `SkillHandlers.Insert` | events.js:489 | insertion adds one element |
| `SkillHandlers.InsertPermutes` | events.js:489 | insertion loses nothing and adds only its element |
| `SkillHandlers.InsertKeepsSorted` | events.js:489 | insertion keeps a tier-sorted list sorted |
| `SkillHandlers.SortByTier` | events.js:489 | the sort by tier gives a tier-sorted list of the same length |
| `SkillHandlers.OfTier` | events.js:489 | the skills of one tier, in order, all of that tier |
| `SkillHandlers.InsertOfTier` | events.js:489 | an insertion step lands before the skills of its own tier already there |
| `SkillHandlers.SortStable` | events.js:489-513 | the sort is stable: within every tier the skills keep their table order, which decides which skill buy-all offers scarce points first |
| `SkillHandlers.SortPermutes` | events.js:489 | the sort is a permutation of the tree's skills |
| `SkillHandlers.SortedMembers` | events.js:489 | the sorted list holds the tree's skills and no others |
| `SkillHandlers.BuyLevels` | events.js:491-513 | one skill: points spent equal levels bought, a skill whose lower tier is not all maxed is skipped, and buying stops at the maximum or when the points run out |
| `SkillHandlers.SweepSkills` | events.js:491-513 | over all skills, points spent equal levels bought |
| `SkillHandlers.SweepCounts` | events.js:491-513 | the levels added to the record are exactly the levels bought |
| `SkillHandlers.FoundEntry` | skills.js:88 | the skill found for an entry's id is that entry |
| `SkillHandlers.SweepWithinMax` | events.js:505-513 | no level passes its maximum |
| `SkillHandlers.SweepKeys` | events.js:505-513 | no foreign key enters the record |
| `SkillHandlers.Install` | events.js:516-521 | the tree's record is written back and the accumulator rebuilt, other trees untouched |
| `SkillHandlers.SweepFacts` | events.js:491-513 | the three facts of one sweep together |
| `SkillHandlers.TierOrderDrawn` | events.js:489 | the tier order visits exactly the tree's skills, whose ids are unique |
| `SkillHandlers.BuyAllIn` | events.js:457-531 | the sweep touches only its own tree |
| `SkillHandlers.BuyAllInFacts` | events.js:491-521 | the tree keeps its worth, its points never rise, levels stay within their maxima and no foreign key enters |
| `SkillHandlers.BuyAllSkills` | events.js:457-531 | with no panel shown nothing happens, and only the panel's tree changes |
| `SkillHandlers.BuyAllSkillsConserves` | events.js:491-521 | buy-all spends one point per level bought, so the tree keeps its worth and its points never rise |
| `SkillHandlers.BuyAllSkillsKeepsRecord` | events.js:491-521 | buy-all keeps every level within its maximum and the record free of foreign keys |
| `OptionHandlers.OptionFlagInjective` | events.js:641-695 | each unlock button sets its own flag |
| `OptionHandlers.Grants` | events.js:667-673 | the new-settings unlock also switches the statistics button on; the others switch on only their own flag |
| `OptionHandlers.OptionCost` | events.js:641-695 | multi-purchase and new settings cost 10 PA, max purchase 100 PA |
| `OptionHandlers.UnlockOption` | events.js:641-695 | an option still locked whose price is covered is paid for and its flags switched on; otherwise nothing changes; only PA and flags move |
| `OptionHandlers.UnlockOptionOnce` | events.js:641-695 | a second press changes nothing more |
| `OptionHandlers.UnlockOptionsCommute` | events.js:641-695 | two different options unlock in either order to the same state |
| `OptionHandlers.UnlockOptionFunds` | events.js:641-695 | an unlock never spends more PA than there are |
| `OptionHandlers.CheckUnlocksLeavesOptions` | core.js:1248-1405 | the unlock check neither sets nor clears the option flags |
| `OptionHandlers.HardResetGate` | events.js:535-566 | below ten images nothing happens; otherwise the game is hard reset |
| `OptionHandlers.HardResetGateForgets` | events.js:563-567 | the ten images are spent and forgotten: no image remains, and the result does not depend on the starting state |

## Left out

- User interface: DOM rendering, tooltips, modals and notifications (ui.js, settings.js, logger.js, and the render functions of the other files). A confirmation modal is modelled as accepted.
- Saving and loading (saveGameState, loadGameState, localStorage): I/O.
- The game tick (setInterval) and initializeGame: event-loop plumbing. Offline progress and the automation run are modelled as the functions the tick calls.
- formatNumber: floating-point display formatting.
- break_infinity Decimal internals: amounts are exact reals, so rounding of the floating mantissa is not modelled.
- The cached cost variables refreshed by updateCosts: prices are computed when needed.
- calculateStudiesBPS (studies.js:220-240): nothing uses its result, and it reads accumulator fields that do not exist.
- getPrestigeBonusMultiplier (prestige.js:115-122): it indexes an array by a string, so it always answers 1, which is how production reads it.
- bonusPointThresholds (data.js:1443-1706): unused.
- The secret skill 'S5_2_Secret': no tree of data.js holds it, so purchaseSkill never finds it and buy-all has nothing to skip. Its click counter is modelled only as far as the skill reset clears it.
- The call from ui.js to purchaseSkill passes its two arguments in swapped order, so the tree lookup fails and nothing is bought; the model takes the arguments in the declared order.
- The ascension and prestige buttons' own preview and confirmation code (events.js:591-635, 698-743): display only. The prestige button's extra demand of a doctorate is not modelled.
- Reassignment of imported ES-module bindings and writes through `window.*`: modelled as the update the code evidently means.
- The five prestige cost functions read `prestigePurchasesData.licence` and so on from an array, which yields undefined; they are modelled as the row lookup they mean.
- claimQuestReward and updateQuestProgress read `quest.rewards`, while data.js spells the field `reward`. Literally, claimQuestReward then throws at quests.js:341, before the claimed mark, so a claim changes nothing at all; the model reads `reward`, under which the claim is marked but still grants nothing (see Findings). No quest has `conditions`, so every quest not yet completed passes the test. Literally, updateQuestProgress then marks the first such quest completed (quests.js:299) and throws at quests.js:217, where getRewardNotificationText (called at quests.js:301) reads `bonsPoints` of the missing `rewards`. So each call completes one quest and aborts the rest of its caller: performPurchase's rebuild and unlock check (core.js:685-690), and the remainder of checkUnlockConditions after the quest unlock (core.js:1333). The model reads `reward`, under which every pending quest completes at one update.
- The all-quests achievement: achievements.js:136 imports questsData from quests.js, which imports it from data.js but never exports it, a link error; and the condition (data.js:1410) reads a second parameter that checkAchievements (achievements.js:227) never passes, so as written every sweep would throw at that entry, before the write-back and rebuild. Modelled as comparing the number of log entries with the 22 quests.
- The prestige-tree skills PRES_PP_BOOST and PRES_ALL_SKILL_POINTS scale accumulator fields that resetSkillEffects never creates: modelled as multipliers with a default of 1.
- Achievements.CheckAchievements: the permanent bonus is one field here. As written achievements.js declares its own permanentBpsBonusFromAchievements (achievements.js:140) and the sweep updates that copy (achievements.js:241), while production reads core.js's copy (core.js:412, read at core.js:1232), which only loading (core.js:866) and the hard reset (core.js:969) set. So as written the bonus achievements never raise production, and a hard reset does not clear the sweep's copy. The model treats the two as the one variable both files evidently mean.
- QuestLog.ClaimQuestReward: the quest PA multiplier is one field here. As written quests.js declares its own paMultiplierFromQuests (quests.js:208) and the claim's multiplier branch writes that copy (quests.js:370), while the rebuild reads core.js's copy (core.js:373, read at core.js:1451), which the resets set back to 1 (core.js:973, 1089, 1168). So even with the grant corrected, the multiplier quests would never raise the PA gain, and the resets would not clear the claimed copy. The model treats the two as one variable.
- Automation.ToggleByKey: models toggleAutomation with its flags read as the booleans they are; as written it reads `.value` of a boolean, which is undefined, and writes to a primitive, so it always takes the switch-on branch, and its write of `.value` onto a boolean never reaches the flag, so as written it never toggles anything. No caller uses it.
- Skill ids and achievement ids are enumerations: a free-form id from the DOM that names no skill is represented only by the unknown-tree case.
- superSoftResetGame has no caller as written; it is modelled because the corrected prestige uses it.
- events.js:185 imports `handleSkillClick` from skills.js, which never defines it (it is exported by ui.js:1312): a link error, like the questsData import of achievements.js:136. The skill buttons are modelled as calling the purchase they mean.
- The reset-progression button reads and assigns `images` (events.js:536, 563), which events.js never imports; the name resolves only to the global that studies.js creates when it writes `window.images` (studies.js:362, 369), and the assignment writes that global, not core.js's images. OptionHandlers.HardResetGate models it as core.js's images.
- Sorting skillsData in place inside buy-all mutates the shared table; the model sorts a copy with the same stable order (SortStable).

## Findings

| source | as written | input that shows it | evidently intended | confidence | as-written member | corrected member |
|---|---|---|---|---|---|---|
| prestige.js:191-197 | the grant is made, then resetGameVariables zeroes prestige points, the prestige count and the purchases | totalPAEarned = 1e5, prestigePoints = 0: the prestige ends with 0 PP instead of 1 | grant, then the super soft reset that keeps the prestige tier | not executed | `PrestigeActions.PrestigeGrantWiped` | `PrestigeActions.PerformPrestigeOutcome` |
| prestige.js:218-235 | the row is looked up by array index and the counter by name, so no key passes both | id 'licence' with ample PP: nothing is bought | look the row up by its id | not executed | `PrestigeActions.PerformPrestigePurchaseAsWritten` | `PrestigeActions.BuyPrestigeUnitOutcome` |
| automation.js:90-101 | each test reads `.value` of a boolean flag, which is undefined | the élève automation on and enough BP: the tick buys nothing | test the flag itself | not executed | `Automation.AsWrittenMissesPurchase` | `Automation.RunAutomationBuysActive` |
| quests.js:341-371 | the grant tests properties bonsPoints, images, ascensionPoints, prestigePoints and paMultiplier of a `{ type, amount }` record, none of which exists | the first-click quest completed and unclaimed: it is marked claimed and grants no BP instead of 10 | grant `amount` by `type`, a PA multiplier as × (1 + amount) | not executed | `QuestLog.FirstClickClaimDiffers` | `QuestLog.PaMultiplierRewardMultiplies` |
| skills.js:145-155 | `.minus(cost)` returns a new value that is discarded, so no point is spent | 1 studies point, click power at level 0: after the purchase the tree still holds 1 point and level 1 | subtract the cost from the tree's points | not executed | `SkillPurchase.PurchaseSkillMintsPoint` | `SkillPurchase.PurchaseSkillChargedOutcome` |
