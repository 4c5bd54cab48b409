/** The achievement table of data.js (82 entries): what each one waits for and
    what it grants when it unlocks. */
module AchievementData {
  import opened GameData

  /** The achievements, one constructor per id of the table. */
  datatype AchievementId =
    | Bp1 | Bp1K | Bp10K | Bp1M | Bp1B | Bp1T
    | Bp1Qa | Bp1Sx | Bp1Oc | Bp1Googol | Bp1Googolplex | Eleves1
    | Eleves10 | Eleves100 | Eleves1K | Eleves10K | Eleves1M | Eleves1T
    | Images1 | Images10 | Images100 | Images1K | Images1M | Classes1
    | Classes5 | Classes10 | Classes100 | Classes1K | Profs1 | Profs5
    | Profs10 | Profs20 | Profs50 | Ecole1 | Ecole3 | Ecole5
    | Ecole10 | Lycee1 | Lycee3 | Lycee5 | College1 | College2
    | College3 | Ascend1 | Ascend2 | Ascend5 | Ascend10 | Ascend25
    | Ascend50 | TotalPa100 | TotalPa1000 | AutoEleve | AutoClasse | AutoImage
    | AutoProf | AutoAllActive | Click1 | Click10 | Click100 | Click200
    | Click500 | Click1K | Click10K | Licence1 | Licence5 | MasterOne1
    | MasterOne3 | MasterTwo1 | MasterTwo3 | Doctorat1 | Doctorat2 | Postdoctorat1
    | Postdoctorat2 | Bps1K | Bps1M | Bps1B | Quests1 | Quests5
    | QuestsAll | SkillStudies10 | SkillAscension5 | SkillPrestige3

  /** The quantity of the snapshot that a threshold condition compares. */
  datatype Metric =
    | BonsPointsHeld | ElevesOwned | ImagesOwned | ClassesOwned | ProfesseursOwned
    | SchoolsOwned | LyceesOwned | CollegesOwned | Ascensions | TotalPaEarned | Clicks
    | LicencesOwned | Master1Owned | Master2Owned | DoctoratsOwned | PostDoctoratsOwned
    | Production
    | QuestEntries
    | LevelSum(tree: Tree)

  /** An achievement condition: a threshold on one metric, one automation
      flag, all four automation flags, or every quest having an entry. */
  datatype Condition =
    | AtLeast(metric: Metric, threshold: real)
    | AutomationActive(item: Item)
    | AllAutomationActive
    | AllQuestEntries

  /** What an unlock grants, by the dispatch of checkAchievements: a permanent
      production bonus, a change to the effects accumulator, ascension points
      or one skill point, both counted from the snapshot. */
  datatype Reward =
    | BpsBonus(bonus: Bonus)
    | EffectReward(step: Step)
    | AscensionPointsGrant(amount: real)
    | SkillPointGrant(tree: Tree)

  /** Every production bonus of the table is a positive fraction. */
  type Bonus = x: real | x > 0.0 witness 0.001

  datatype Achievement = Achievement(id: AchievementId, condition: Condition, reward: Reward)

  /** The table, in data.js order, group by group as data.js lays it out. */
  const Achievements: seq<Achievement> :=
    BonsPointsAchievements + ElevesAchievements + ImagesAchievements + ClassesAchievements
    + ProfesseurAchievements + EcoleAchievements + LyceeAchievements + CollegeAchievements
    + AscensionAchievements + AutomationAchievements + ClickAchievements
    + PrestigePurchaseAchievements + ProductionAchievements + QuestAchievements + SkillAchievements

  /** The achievements on bons points held. */
  const BonsPointsAchievements: seq<Achievement> := [
    Achievement(Bp1, AtLeast(BonsPointsHeld, 1.0), BpsBonus(0.001)),
    Achievement(Bp1K, AtLeast(BonsPointsHeld, 1e3), BpsBonus(0.01)),
    Achievement(Bp10K, AtLeast(BonsPointsHeld, 1e4), BpsBonus(0.015)),
    Achievement(Bp1M, AtLeast(BonsPointsHeld, 1e6), BpsBonus(0.02)),
    Achievement(Bp1B, AtLeast(BonsPointsHeld, 1e9), BpsBonus(0.03)),
    Achievement(Bp1T, AtLeast(BonsPointsHeld, 1e12), BpsBonus(0.05)),
    Achievement(Bp1Qa, AtLeast(BonsPointsHeld, 1e15), BpsBonus(0.10)),
    Achievement(Bp1Sx, AtLeast(BonsPointsHeld, 1e21), BpsBonus(0.20)),
    Achievement(Bp1Oc, AtLeast(BonsPointsHeld, 1e50), BpsBonus(0.50)),
    Achievement(Bp1Googol, AtLeast(BonsPointsHeld, 1e100), BpsBonus(1.0)),
    Achievement(Bp1Googolplex, AtLeast(BonsPointsHeld, 1e10000), BpsBonus(2.0))
  ]

  /** The achievements on élèves owned. */
  const ElevesAchievements: seq<Achievement> := [
    Achievement(Eleves1, AtLeast(ElevesOwned, 1.0), EffectReward(Add(EleveCostReduction, 0.001))),
    Achievement(Eleves10, AtLeast(ElevesOwned, 10.0), EffectReward(Add(EleveCostReduction, 0.005))),
    Achievement(Eleves100, AtLeast(ElevesOwned, 100.0), EffectReward(Add(EleveCostReduction, 0.01))),
    Achievement(Eleves1K, AtLeast(ElevesOwned, 1000.0), EffectReward(Add(EleveCostReduction, 0.02))),
    Achievement(Eleves10K, AtLeast(ElevesOwned, 1e4), EffectReward(Add(EleveCostReduction, 0.03))),
    Achievement(Eleves1M, AtLeast(ElevesOwned, 1e6), EffectReward(Add(EleveCostReduction, 0.05))),
    Achievement(Eleves1T, AtLeast(ElevesOwned, 1e12), EffectReward(Add(EleveCostReduction, 0.10)))
  ]

  /** The achievements on images owned. */
  const ImagesAchievements: seq<Achievement> := [
    Achievement(Images1, AtLeast(ImagesOwned, 1.0), EffectReward(Add(ImageCostReduction, 0.001))),
    Achievement(Images10, AtLeast(ImagesOwned, 10.0), EffectReward(Add(ImageCostReduction, 0.01))),
    Achievement(Images100, AtLeast(ImagesOwned, 100.0), EffectReward(Add(ImageCostReduction, 0.015))),
    Achievement(Images1K, AtLeast(ImagesOwned, 1000.0), EffectReward(Add(ImageCostReduction, 0.02))),
    Achievement(Images1M, AtLeast(ImagesOwned, 1e6), EffectReward(Add(ImageCostReduction, 0.05)))
  ]

  /** The achievements on classes owned. */
  const ClassesAchievements: seq<Achievement> := [
    Achievement(Classes1, AtLeast(ClassesOwned, 1.0), EffectReward(Add(ClasseCostReduction, 0.001))),
    Achievement(Classes5, AtLeast(ClassesOwned, 5.0), EffectReward(Add(ClasseCostReduction, 0.005))),
    Achievement(Classes10, AtLeast(ClassesOwned, 10.0), EffectReward(Add(ClasseCostReduction, 0.01))),
    Achievement(Classes100, AtLeast(ClassesOwned, 100.0), EffectReward(Add(ClasseCostReduction, 0.02))),
    Achievement(Classes1K, AtLeast(ClassesOwned, 1000.0), EffectReward(Add(ClasseCostReduction, 0.05)))
  ]

  /** The achievements on professeurs owned. */
  const ProfesseurAchievements: seq<Achievement> := [
    Achievement(Profs1, AtLeast(ProfesseursOwned, 1.0), EffectReward(Add(ProfesseurCostReduction, 0.001))),
    Achievement(Profs5, AtLeast(ProfesseursOwned, 5.0), EffectReward(Add(ProfesseurCostReduction, 0.01))),
    Achievement(Profs10, AtLeast(ProfesseursOwned, 10.0), EffectReward(Add(ProfesseurCostReduction, 0.02))),
    Achievement(Profs20, AtLeast(ProfesseursOwned, 20.0), EffectReward(Add(ProfesseurCostReduction, 0.05))),
    Achievement(Profs50, AtLeast(ProfesseursOwned, 50.0), EffectReward(Scale(ProfesseurBpsMultiplier, 1.1)))
  ]

  /** The achievements on schools owned. */
  const EcoleAchievements: seq<Achievement> := [
    Achievement(Ecole1, AtLeast(SchoolsOwned, 1.0), BpsBonus(0.001)),
    Achievement(Ecole3, AtLeast(SchoolsOwned, 3.0), BpsBonus(0.005)),
    Achievement(Ecole5, AtLeast(SchoolsOwned, 5.0), BpsBonus(0.01)),
    Achievement(Ecole10, AtLeast(SchoolsOwned, 10.0), BpsBonus(0.02))
  ]

  /** The achievements on lycées owned. */
  const LyceeAchievements: seq<Achievement> := [
    Achievement(Lycee1, AtLeast(LyceesOwned, 1.0), BpsBonus(0.001)),
    Achievement(Lycee3, AtLeast(LyceesOwned, 3.0), BpsBonus(0.01)),
    Achievement(Lycee5, AtLeast(LyceesOwned, 5.0), BpsBonus(0.015))
  ]

  /** The achievements on collèges owned. */
  const CollegeAchievements: seq<Achievement> := [
    Achievement(College1, AtLeast(CollegesOwned, 1.0), BpsBonus(0.005)),
    Achievement(College2, AtLeast(CollegesOwned, 2.0), BpsBonus(0.01)),
    Achievement(College3, AtLeast(CollegesOwned, 3.0), BpsBonus(0.015))
  ]

  /** The achievements on ascensions and PA earned. */
  const AscensionAchievements: seq<Achievement> := [
    Achievement(Ascend1, AtLeast(Ascensions, 1.0), AscensionPointsGrant(5.0)),
    Achievement(Ascend2, AtLeast(Ascensions, 2.0), AscensionPointsGrant(10.0)),
    Achievement(Ascend5, AtLeast(Ascensions, 5.0), AscensionPointsGrant(25.0)),
    Achievement(Ascend10, AtLeast(Ascensions, 10.0), AscensionPointsGrant(50.0)),
    Achievement(Ascend25, AtLeast(Ascensions, 25.0), AscensionPointsGrant(100.0)),
    Achievement(Ascend50, AtLeast(Ascensions, 50.0), AscensionPointsGrant(250.0)),
    Achievement(TotalPa100, AtLeast(TotalPaEarned, 100.0), EffectReward(Scale(PaGainMultiplier, 1.01))),
    Achievement(TotalPa1000, AtLeast(TotalPaEarned, 1000.0), EffectReward(Scale(PaGainMultiplier, 1.02)))
  ]

  /** The achievements on automations switched on. */
  const AutomationAchievements: seq<Achievement> := [
    Achievement(AutoEleve, AutomationActive(Eleve), EffectReward(Add(EleveCostReduction, 0.005))),
    Achievement(AutoClasse, AutomationActive(Classe), EffectReward(Add(ClasseCostReduction, 0.005))),
    Achievement(AutoImage, AutomationActive(Image), EffectReward(Add(ImageCostReduction, 0.005))),
    Achievement(AutoProf, AutomationActive(Professeur), EffectReward(Add(ProfesseurCostReduction, 0.005))),
    Achievement(AutoAllActive, AllAutomationActive, EffectReward(Scale(AllBpsMultiplier, 1.05)))
  ]

  /** The achievements on clicks. */
  const ClickAchievements: seq<Achievement> := [
    Achievement(Click1, AtLeast(Clicks, 1.0), EffectReward(Add(ClickBonus, 0.1))),
    Achievement(Click10, AtLeast(Clicks, 10.0), EffectReward(Add(ClickBonus, 0.5))),
    Achievement(Click100, AtLeast(Clicks, 100.0), EffectReward(Add(ClickBonus, 1.0))),
    Achievement(Click200, AtLeast(Clicks, 200.0), EffectReward(Add(ClickBonus, 2.0))),
    Achievement(Click500, AtLeast(Clicks, 500.0), EffectReward(Add(ClickBonus, 5.0))),
    Achievement(Click1K, AtLeast(Clicks, 1000.0), EffectReward(Add(ClickBonus, 10.0))),
    Achievement(Click10K, AtLeast(Clicks, 10000.0), EffectReward(Add(ClickBonus, 20.0)))
  ]

  /** The achievements on prestige purchases owned. */
  const PrestigePurchaseAchievements: seq<Achievement> := [
    Achievement(Licence1, AtLeast(LicencesOwned, 1.0), EffectReward(Add(LicenceProfMultiplier, 0.001))),
    Achievement(Licence5, AtLeast(LicencesOwned, 5.0), EffectReward(Add(LicenceProfMultiplier, 0.005))),
    Achievement(MasterOne1, AtLeast(Master1Owned, 1.0), EffectReward(Add(Master1ClassProduction, 0.001))),
    Achievement(MasterOne3, AtLeast(Master1Owned, 3.0), EffectReward(Add(Master1ClassProduction, 0.003))),
    Achievement(MasterTwo1, AtLeast(Master2Owned, 1.0), EffectReward(Add(Master2ClassProduction, 0.001))),
    Achievement(MasterTwo3, AtLeast(Master2Owned, 3.0), EffectReward(Add(Master2ClassProduction, 0.003))),
    Achievement(Doctorat1, AtLeast(DoctoratsOwned, 1.0), EffectReward(Add(DoctoratBpsBonus, 0.001))),
    Achievement(Doctorat2, AtLeast(DoctoratsOwned, 2.0), EffectReward(Add(DoctoratBpsBonus, 0.002))),
    Achievement(Postdoctorat1, AtLeast(PostDoctoratsOwned, 1.0), EffectReward(Add(PostDoctoratPaGain, 0.001))),
    Achievement(Postdoctorat2, AtLeast(PostDoctoratsOwned, 2.0), EffectReward(Add(PostDoctoratPaGain, 0.002)))
  ]

  /** The achievements on production. */
  const ProductionAchievements: seq<Achievement> := [
    Achievement(Bps1K, AtLeast(Production, 1e3), EffectReward(Scale(AllBpsMultiplier, 1.01))),
    Achievement(Bps1M, AtLeast(Production, 1e6), EffectReward(Scale(AllBpsMultiplier, 1.02))),
    Achievement(Bps1B, AtLeast(Production, 1e9), EffectReward(Scale(AllBpsMultiplier, 1.03)))
  ]

  /** The achievements on quest-log entries. */
  const QuestAchievements: seq<Achievement> := [
    Achievement(Quests1, AtLeast(QuestEntries, 1.0), SkillPointGrant(Studies)),
    Achievement(Quests5, AtLeast(QuestEntries, 5.0), SkillPointGrant(Ascension)),
    Achievement(QuestsAll, AllQuestEntries, SkillPointGrant(Prestige))
  ]

  /** The achievements on skill levels. */
  const SkillAchievements: seq<Achievement> := [
    Achievement(SkillStudies10, AtLeast(LevelSum(Studies), 10.0), BpsBonus(0.005)),
    Achievement(SkillAscension5, AtLeast(LevelSum(Ascension), 5.0), EffectReward(Scale(PaGainMultiplier, 1.01))),
    Achievement(SkillPrestige3, AtLeast(LevelSum(Prestige), 3.0), BpsBonus(0.01))
  ]
}
