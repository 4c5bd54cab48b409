/** The immutable tables of data.js: initial costs, the three skill trees,
    the prestige purchases, the quests and the point thresholds. */
module GameData {
  import opened Wrappers
  import opened Numeric

  /** The three skill trees, keyed 'studies', 'ascension' and 'prestige'. */
  datatype Tree = Studies | Ascension | Prestige

  /** The numeric fields of the effects accumulator that a skill, an
      achievement or a quest can change. */
  datatype Field =
    | ClickBonus
    | EleveBpsMultiplier | ClasseBpsMultiplier | ImageBpsMultiplier | ProfesseurBpsMultiplier
    | EleveCostReduction | ClasseCostReduction | ImageCostReduction | ProfesseurCostReduction
    | EcoleCostReduction | AutomationCostReduction | AllCostReduction
    | AllBpsMultiplier | PaGainMultiplier | AscensionBonusIncrease
    | OfflineProductionIncrease | AllProductionMultiplier
    | EcoleMultiplier | LyceeMultiplier | CollegeMultiplier
    | LicenceProfMultiplier | Master1ClassProduction | Master2ClassProduction
    | DoctoratBpsBonus | PostDoctoratPaGain
    | PpGainMultiplier
    | StudiesSkillPointGain | AscensionSkillPointGain | PrestigeSkillPointGain

  /** One change to one accumulator field: `field += amount` or `field *= factor`. */
  datatype Step = Add(field: Field, amount: real) | Scale(field: Field, factor: real)

  /** How a skill at level L changes the accumulator:
      `field += rate * L`, `field *= 1 + rate * L`, or a step taken only at L = 1. */
  datatype SkillEffect =
    | PerLevelAdd(field: Field, rate: real)
    | PerLevelScale(field: Field, rate: real)
    | AtFirstLevel(step: Step)

  /** A skill id of skillsData: `StudyClickPower` stands for STUDY_CLICK_POWER,
      and so on for every id of the three trees. */
  datatype SkillId =
    | StudyClickPower | StudyEleveEfficiency | StudyClassEfficiency | StudyImageEfficiency
    | StudyProfessorEfficiency | StudyAllBps
    | StudyCostReductionEleve | StudyCostReductionClass | StudyCostReductionImage
    | StudyCostReductionProfessor | StudyAllCostReduction
    | AscPaBoost | AscOfflineProd | AscEcoleEfficiency | AscLyceeEfficiency | AscCollegeEfficiency | AscAllProdBoost
    | PresPpBoost | PresAutomationCostReduction | PresAllSkillPoints | PresGlobalBpsBoost

  datatype Skill = Skill(id: SkillId, cost: nat, maxLevel: nat, tier: nat,
                         prerequisites: seq<SkillId>, effects: seq<SkillEffect>)

  const StudySkills: seq<Skill> := [
    Skill(StudyClickPower, 1, 10, 1, [], [PerLevelAdd(ClickBonus, 0.1)]),
    Skill(StudyEleveEfficiency, 1, 5, 1, [], [PerLevelScale(EleveBpsMultiplier, 0.25)]),
    Skill(StudyClassEfficiency, 2, 5, 2, [StudyEleveEfficiency], [PerLevelScale(ClasseBpsMultiplier, 0.20)]),
    Skill(StudyImageEfficiency, 3, 10, 2, [StudyClickPower], [PerLevelAdd(ImageBpsMultiplier, 0.01)]),
    Skill(StudyProfessorEfficiency, 5, 5, 3, [StudyClassEfficiency, StudyImageEfficiency],
          [PerLevelScale(ProfesseurBpsMultiplier, 0.5)]),
    Skill(StudyAllBps, 10, 1, 4, [StudyProfessorEfficiency], [AtFirstLevel(Scale(AllBpsMultiplier, 1.5))]),
    Skill(StudyCostReductionEleve, 2, 5, 2, [StudyEleveEfficiency], [PerLevelAdd(EleveCostReduction, 0.05)]),
    Skill(StudyCostReductionClass, 3, 5, 3, [StudyCostReductionEleve], [PerLevelAdd(ClasseCostReduction, 0.05)]),
    Skill(StudyCostReductionImage, 4, 5, 3, [StudyImageEfficiency], [PerLevelAdd(ImageCostReduction, 0.05)]),
    Skill(StudyCostReductionProfessor, 5, 5, 4, [StudyCostReductionClass, StudyCostReductionImage],
          [PerLevelAdd(ProfesseurCostReduction, 0.05)]),
    Skill(StudyAllCostReduction, 15, 1, 5, [StudyCostReductionProfessor, StudyAllBps],
          [AtFirstLevel(Add(AllCostReduction, 0.10))])
  ]

  const AscensionSkills: seq<Skill> := [
    Skill(AscPaBoost, 1, 5, 1, [], [PerLevelScale(PaGainMultiplier, 0.25)]),
    Skill(AscOfflineProd, 2, 10, 1, [], [PerLevelAdd(OfflineProductionIncrease, 0.10)]),
    Skill(AscEcoleEfficiency, 3, 5, 2, [AscPaBoost], [PerLevelAdd(AscensionBonusIncrease, 0.1)]),
    Skill(AscLyceeEfficiency, 4, 5, 3, [AscEcoleEfficiency], [PerLevelAdd(AscensionBonusIncrease, 0.2)]),
    Skill(AscCollegeEfficiency, 5, 5, 4, [AscLyceeEfficiency], [PerLevelAdd(AscensionBonusIncrease, 0.3)]),
    Skill(AscAllProdBoost, 10, 1, 5, [AscCollegeEfficiency], [AtFirstLevel(Scale(AllProductionMultiplier, 2.0))])
  ]

  const PrestigeSkills: seq<Skill> := [
    Skill(PresPpBoost, 1, 5, 1, [], [PerLevelScale(PpGainMultiplier, 0.25)]),
    Skill(PresAutomationCostReduction, 2, 5, 1, [], [PerLevelAdd(AutomationCostReduction, 0.10)]),
    Skill(PresAllSkillPoints, 3, 5, 2, [PresPpBoost, PresAutomationCostReduction],
          [PerLevelScale(StudiesSkillPointGain, 0.10), PerLevelScale(AscensionSkillPointGain, 0.10),
           PerLevelScale(PrestigeSkillPointGain, 0.10)]),
    Skill(PresGlobalBpsBoost, 10, 1, 3, [PresAllSkillPoints], [AtFirstLevel(Scale(AllBpsMultiplier, 3.0))])
  ]

  function SkillTable(t: Tree): seq<Skill> {
    match t
    case Studies => StudySkills
    case Ascension => AscensionSkills
    case Prestige => PrestigeSkills
  }

  /** `skillsData[key]`: the tree a category key names, if any. */
  function ParseTree(key: string): (r: Option<Tree>)
    ensures r == Some(Studies) <==> key == "studies"
    ensures r == Some(Ascension) <==> key == "ascension"
    ensures r == Some(Prestige) <==> key == "prestige"
  {
    if key == "studies" then Some(Studies)
    else if key == "ascension" then Some(Ascension)
    else if key == "prestige" then Some(Prestige)
    else None
  }

  /** `table.find(s => s.id === id)`: the first skill with that id. */
  function FindSkill(table: seq<Skill>, id: SkillId): (r: Option<Skill>)
    ensures r.Some? ==> r.value in table && r.value.id == id
    ensures r.None? <==> forall k :: 0 <= k < |table| ==> table[k].id != id
    decreases |table|
  {
    if |table| == 0 then None
    else if table[0].id == id then Some(table[0])
    else FindSkill(table[1..], id)
  }

  /** The ids of a table, in order. */
  function Ids(table: seq<Skill>): (r: seq<SkillId>)
    ensures |r| == |table|
    ensures forall k :: 0 <= k < |table| ==> r[k] == table[k].id
    decreases |table|
  {
    if |table| == 0 then [] else [table[0].id] + Ids(table[1..])
  }

  /** The purchasable items of performPurchase, by their item-type strings. */
  datatype Item =
    | Eleve | Classe | Image | Professeur
    | Ecole | Lycee | College
    | Licence | Master1 | Master2 | Doctorat | PostDoctorat

  /** The resource an item is paid in. */
  datatype Currency = BonsPoints | Images | AscensionPoints | PrestigePoints

  /** The item-type string of each item, as the cases of performPurchase's
      switch spell it. */
  function ItemKey(item: Item): string {
    match item
    case Eleve => "eleve"
    case Classe => "classe"
    case Image => "image"
    case Professeur => "Professeur"
    case Ecole => "ecole"
    case Lycee => "lycee"
    case College => "college"
    case Licence => "licence"
    case Master1 => "master1"
    case Master2 => "master2"
    case Doctorat => "doctorat"
    case PostDoctorat => "postDoctorat"
  }

  /** The switch of performPurchase: a key names an item exactly when it is
      that item's spelling, and no other string names one. */
  function ParseItem(key: string): (r: Option<Item>)
    ensures r.Some? ==> ItemKey(r.value) == key
    ensures forall item :: ItemKey(item) == key ==> r == Some(item)
    ensures r.None? <==> forall item :: ItemKey(item) != key
    ensures r == Some(Professeur) <==> key == "Professeur"
    ensures r == Some(PostDoctorat) <==> key == "postDoctorat"
  {
    if key == "eleve" then Some(Eleve)
    else if key == "classe" then Some(Classe)
    else if key == "image" then Some(Image)
    else if key == "Professeur" then Some(Professeur)
    else if key == "ecole" then Some(Ecole)
    else if key == "lycee" then Some(Lycee)
    else if key == "college" then Some(College)
    else if key == "licence" then Some(Licence)
    else if key == "master1" then Some(Master1)
    else if key == "master2" then Some(Master2)
    else if key == "doctorat" then Some(Doctorat)
    else if key == "postDoctorat" then Some(PostDoctorat)
    else None
  }

  function CurrencyOf(item: Item): Currency {
    match item
    case Eleve | Classe | Image => BonsPoints
    case Professeur => Images
    case Ecole | Lycee | College => AscensionPoints
    case Licence | Master1 | Master2 | Doctorat | PostDoctorat => PrestigePoints
  }

  predicate IsStudyItem(item: Item) {
    item.Eleve? || item.Classe? || item.Image? || item.Professeur?
  }

  predicate IsPrestigeItem(item: Item) {
    item.Licence? || item.Master1? || item.Master2? || item.Doctorat? || item.PostDoctorat?
  }

  /** One row of prestigePurchasesData: its id, cost curve and the per-level
      effect rate its own effect function uses. */
  datatype PrestigePurchase = PrestigePurchase(id: string, item: Item, baseCost: real,
                                               costMultiplier: real, effectRate: real)

  const PrestigePurchases: seq<PrestigePurchase> := [
    PrestigePurchase("licence", Licence, 1.0, 2.0, 0.01),
    PrestigePurchase("master1", Master1, 5.0, 2.5, 0.02),
    PrestigePurchase("master2", Master2, 25.0, 3.0, 0.05),
    PrestigePurchase("doctorat", Doctorat, 100.0, 4.0, 0.10),
    PrestigePurchase("postDoctorat", PostDoctorat, 500.0, 5.0, 0.05)
  ]

  /** The row for a prestige item. */
  function PurchaseRow(item: Item): (p: PrestigePurchase)
    requires IsPrestigeItem(item)
    ensures p in PrestigePurchases && p.item == item
  {
    match item
    case Licence => PrestigePurchases[0]
    case Master1 => PrestigePurchases[1]
    case Master2 => PrestigePurchases[2]
    case Doctorat => PrestigePurchases[3]
    case PostDoctorat => PrestigePurchases[4]
  }

  /** `prestigePurchasesData.find(p => p.id === id)`. */
  function FindPurchase(id: string): (r: Option<PrestigePurchase>)
    ensures r.Some? ==> r.value in PrestigePurchases && r.value.id == id
    ensures r.None? <==> forall k :: 0 <= k < |PrestigePurchases| ==> PrestigePurchases[k].id != id
  {
    if id == "licence" then Some(PrestigePurchases[0])
    else if id == "master1" then Some(PrestigePurchases[1])
    else if id == "master2" then Some(PrestigePurchases[2])
    else if id == "doctorat" then Some(PrestigePurchases[3])
    else if id == "postDoctorat" then Some(PrestigePurchases[4])
    else None
  }

  /** What a quest's `reward: {type, amount}` grants. */
  datatype QuestReward =
    | BonsPointsReward(amount: real)
    | ImagesReward(count: nat)
    | AscensionPointsReward(amount: real)
    | PrestigePointsReward(amount: real)
    | PaMultiplierReward(increase: real)
    | PpMultiplierReward(increase: real)
    | SkillPointsReward(tree: Tree, points: nat)
    | AllCostReductionReward(amount: real)
    | AllBpsMultiplierReward(factor: real)

  datatype Quest = Quest(id: string, reward: QuestReward, permanent: bool)

  const Quests: seq<Quest> := [
    Quest("Q_FIRST_CLICK", BonsPointsReward(10.0), false),
    Quest("Q_FIRST_ELEVE", BonsPointsReward(50.0), false),
    Quest("Q_10_ELEVES", BonsPointsReward(200.0), false),
    Quest("Q_FIRST_CLASS", ImagesReward(1), false),
    Quest("Q_10_CLASSES", ImagesReward(5), false),
    Quest("Q_FIRST_IMAGE", BonsPointsReward(1000.0), false),
    Quest("Q_FIRST_PROFESSOR", AscensionPointsReward(1.0), false),
    Quest("Q_5_PROFESSORS", AscensionPointsReward(5.0), false),
    Quest("Q_FIRST_ASCENSION", PaMultiplierReward(0.10), true),
    Quest("Q_FIRST_PRESTIGE", PpMultiplierReward(0.10), true),
    Quest("Q_BPS_1K", BonsPointsReward(1e4), false),
    Quest("Q_BPS_1M", ImagesReward(10), false),
    Quest("Q_TOTAL_CLICKS_100", SkillPointsReward(Studies, 1), false),
    Quest("Q_AUTOMATION_UNLOCKED", AscensionPointsReward(2.0), false),
    Quest("Q_ALL_AUTOMATION_ACTIVE", PaMultiplierReward(0.20), true),
    Quest("Q_STUDIES_SKILL_TREE", SkillPointsReward(Studies, 3), false),
    Quest("Q_ASCENSION_SKILL_TREE", SkillPointsReward(Ascension, 3), false),
    Quest("Q_PRESTIGE_SKILL_TREE", SkillPointsReward(Prestige, 3), false),
    Quest("Q_100_PA_EARNED", PrestigePointsReward(1.0), true),
    Quest("Q_10_ASCENSIONS", PaMultiplierReward(0.50), true),
    Quest("Q_ALL_STUDIES_SKILLS", AllCostReductionReward(0.05), true),
    Quest("Q_ALL_QUESTS_COMPLETED", AllBpsMultiplierReward(1.10), true)
  ]

  /** `questsData[key]` on the array: a canonical index string finds the quest
      at that index; any other string (a quest id included) finds nothing. */
  function QuestAt(key: string): (r: Option<nat>)
    ensures r.Some? ==> r.value < |Quests| && DecimalKey(r.value) == key
    ensures r.None? ==> forall i :: 0 <= i < |Quests| ==> DecimalKey(i) != key
  {
    QuestAtFrom(key, 0)
  }

  function QuestAtFrom(key: string, i: nat): (r: Option<nat>)
    requires i <= |Quests|
    ensures r.Some? ==> i <= r.value < |Quests| && DecimalKey(r.value) == key
    ensures r.None? ==> forall j :: i <= j < |Quests| ==> DecimalKey(j) != key
    decreases |Quests| - i
  {
    if i == |Quests| then None
    else if DecimalKey(i) == key then Some(i)
    else QuestAtFrom(key, i + 1)
  }

  /** The ids that the resets remove from the completed-quest record. */
  function NonPermanentIds(): (r: set<string>)
    ensures forall i :: 0 <= i < |Quests| && !Quests[i].permanent ==> Quests[i].id in r
    ensures forall id :: id in r ==> exists i :: 0 <= i < |Quests| && !Quests[i].permanent && Quests[i].id == id
  {
    set i | 0 <= i < |Quests| && !Quests[i].permanent :: Quests[i].id
  }

  const AscensionPointThreshold: real := 1e10
  const PrestigePointThreshold: real := 1e5

  /** The safety cap of the 'max' purchase loop. */
  const MaxPurchaseIterations: nat := 100000

  /** Base production per élève and per classe (studies.js). */
  const EleveBpsPerItem: real := 0.5
  const ClasseBpsPerItem: real := 25.0

  /** Every prerequisite of a skill names a skill of the same table with a
      strictly lower tier. */
  predicate PrerequisitesPrecede(table: seq<Skill>) {
    forall k, i :: 0 <= k < |table| && 0 <= i < |table[k].prerequisites| ==>
      exists j :: 0 <= j < |table| && table[j].id == table[k].prerequisites[i] && table[j].tier < table[k].tier
  }

  predicate UniqueIds(table: seq<Skill>) {
    forall i, j :: 0 <= i < j < |table| ==> table[i].id != table[j].id
  }

  /** The three trees are well formed: ids are unique, and prerequisites point
      strictly down the tiers, so following prerequisites always ends. */
  lemma TreesWellFormed(t: Tree)
    ensures UniqueIds(SkillTable(t))
    ensures PrerequisitesPrecede(SkillTable(t))
  {
    TreeIdsUnique(t);
    TreePrerequisitesPrecede(t);
  }

  lemma TreeIdsUnique(t: Tree)
    ensures UniqueIds(SkillTable(t))
  {
    match t
    case Studies => StudyIdsUnique();
    case Ascension => AscensionIdsUnique();
    case Prestige => PrestigeIdsUnique();
  }

  lemma StudyIdsUnique()
    ensures UniqueIds(StudySkills)
  {
  }

  lemma AscensionIdsUnique()
    ensures UniqueIds(AscensionSkills)
  {
  }

  lemma PrestigeIdsUnique()
    ensures UniqueIds(PrestigeSkills)
  {
  }

  lemma TreePrerequisitesPrecede(t: Tree)
    ensures PrerequisitesPrecede(SkillTable(t))
  {
    var table := SkillTable(t);
    forall k, i | 0 <= k < |table| && 0 <= i < |table[k].prerequisites|
      ensures exists j :: 0 <= j < |table| && table[j].id == table[k].prerequisites[i] && table[j].tier < table[k].tier
    {
      var j := PrerequisiteIndex(t, k, i);
    }
  }

  /** The position of a prerequisite in its table. */
  function PrerequisiteIndex(t: Tree, k: nat, i: nat): (j: nat)
    requires k < |SkillTable(t)| && i < |SkillTable(t)[k].prerequisites|
    ensures j < |SkillTable(t)|
    ensures SkillTable(t)[j].id == SkillTable(t)[k].prerequisites[i]
    ensures SkillTable(t)[j].tier < SkillTable(t)[k].tier
  {
    match t
    case Studies =>
      if k == 2 || k == 6 then 1
      else if k == 3 then 0
      else if k == 4 then (if i == 0 then 2 else 3)
      else if k == 5 then 4
      else if k == 7 then 6
      else if k == 8 then 3
      else if k == 9 then (if i == 0 then 7 else 8)
      else (if i == 0 then 9 else 5)
    case Ascension => if k == 2 then 0 else k - 1
    case Prestige =>
      if k == 2 then i else k - 1
  }

  /** Every prestige purchase grows in price: its multiplier exceeds 1. */
  lemma PrestigeMultipliersAboveOne()
    ensures forall p :: p in PrestigePurchases ==> p.costMultiplier > 1.0 && p.baseCost > 0.0
    ensures [PrestigePurchases[0].costMultiplier, PrestigePurchases[1].costMultiplier,
             PrestigePurchases[2].costMultiplier, PrestigePurchases[3].costMultiplier,
             PrestigePurchases[4].costMultiplier] == [2.0, 2.5, 3.0, 4.0, 5.0]
  {
  }

  /** Exactly seven quests survive the resets: those at positions 8, 9, 14 and
      18 to 21. */
  lemma SevenPermanentQuests()
    ensures (set i | 0 <= i < |Quests| && Quests[i].permanent) == {8, 9, 14, 18, 19, 20, 21}
  {
  }
}
