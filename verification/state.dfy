/** The game's mutable globals (core.js, achievements.js, quests.js) gathered
    into one immutable record, with accessors by item, currency and tree. */
module GameState {
  import opened Numeric
  import opened GameData
  import opened SkillEffects
  import opened AchievementData

  /** The latching unlock flags of core.js. */
  datatype Flag =
    | ElevesUnlocked | ClassesUnlocked | ImagesUnlocked | ProfesseurUnlocked
    | AscensionUnlocked | PrestigeUnlocked
    | SkillsButton | SettingsButton | AutomationCategory | QuestsUnlocked | AchievementsButton
    | NewSettings | MultiPurchaseOption | MaxPurchaseOption | StatsButton
    | PrestigeMenuButton | AscensionMenuButton
    | LyceesUnlocked | CollegesUnlocked
    | StudiesSkillsPanel | AscensionSkillsPanel | PrestigeSkillsPanel

  /** `currentPurchaseMultiplier`: '1', '10', '100' or 'max'. */
  datatype Quantity = Units(n: nat) | Max

  /** One skill tree's points and its level record (`{skillId: level}`). */
  datatype TreeState = TreeState(points: nat, levels: map<SkillId, nat>)

  /** One `completedQuests` entry. */
  datatype QuestEntry = QuestEntry(completed: bool, claimed: bool)

  datatype State = State(
    bonsPoints: real,
    bonsPointsTotal: real,
    totalBps: real,
    images: nat,
    eleves: nat,
    classes: nat,
    professeurs: nat,
    schools: nat,
    lycees: nat,
    colleges: nat,
    ascensionPoints: real,
    ascensionCount: nat,
    totalPAEarned: real,
    ascensionBonus: real,
    prestigePoints: real,
    prestigeCount: nat,
    totalClicks: nat,
    purchaseMultiplier: Quantity,
    flags: set<Flag>,
    automation: set<Item>,
    studies: TreeState,
    ascension: TreeState,
    prestige: TreeState,
    secretSkillClicks: nat,
    offlineProgressEnabled: bool,
    licences: nat,
    master1: nat,
    master2: nat,
    doctorats: nat,
    postDoctorats: nat,
    lastUpdate: int,
    unlockedAchievements: set<AchievementId>,
    permanentBpsBonus: real,
    completedQuests: map<string, QuestEntry>,
    paMultiplierFromQuests: real,
    effects: Effects)

  /** Every field but the accumulator, production, flags and quest log
      agrees. */
  predicate Kept(s: State, r: State) {
    r.bonsPoints == s.bonsPoints && r.bonsPointsTotal == s.bonsPointsTotal
    && r.images == s.images && r.eleves == s.eleves && r.classes == s.classes
    && r.professeurs == s.professeurs && r.schools == s.schools && r.lycees == s.lycees
    && r.colleges == s.colleges && r.ascensionPoints == s.ascensionPoints
    && r.ascensionCount == s.ascensionCount && r.totalPAEarned == s.totalPAEarned
    && r.ascensionBonus == s.ascensionBonus && r.prestigePoints == s.prestigePoints
    && r.prestigeCount == s.prestigeCount && r.totalClicks == s.totalClicks
    && r.purchaseMultiplier == s.purchaseMultiplier && r.automation == s.automation
    && r.studies == s.studies && r.ascension == s.ascension && r.prestige == s.prestige
    && r.secretSkillClicks == s.secretSkillClicks && r.offlineProgressEnabled == s.offlineProgressEnabled
    && r.licences == s.licences && r.master1 == s.master1 && r.master2 == s.master2
    && r.doctorats == s.doctorats && r.postDoctorats == s.postDoctorats
    && r.lastUpdate == s.lastUpdate && r.unlockedAchievements == s.unlockedAchievements
    && r.permanentBpsBonus == s.permanentBpsBonus && r.paMultiplierFromQuests == s.paMultiplierFromQuests
  }

  /** The counter a purchase of the item raises (images count themselves). */
  function Counter(s: State, item: Item): nat {
    match item
    case Eleve => s.eleves
    case Classe => s.classes
    case Image => s.images
    case Professeur => s.professeurs
    case Ecole => s.schools
    case Lycee => s.lycees
    case College => s.colleges
    case Licence => s.licences
    case Master1 => s.master1
    case Master2 => s.master2
    case Doctorat => s.doctorats
    case PostDoctorat => s.postDoctorats
  }

  /** Raise the item's counter by k, leaving every other field alone. */
  function AddToCounter(s: State, item: Item, k: nat): (r: State)
    ensures Counter(r, item) == Counter(s, item) + k
    ensures forall other :: other != item ==> Counter(r, other) == Counter(s, other)
    ensures r.bonsPoints == s.bonsPoints && r.ascensionPoints == s.ascensionPoints
    ensures r.prestigePoints == s.prestigePoints
    ensures item != Image ==> r.images == s.images
  {
    match item
    case Eleve => s.(eleves := s.eleves + k)
    case Classe => s.(classes := s.classes + k)
    case Image => s.(images := s.images + k)
    case Professeur => s.(professeurs := s.professeurs + k)
    case Ecole => s.(schools := s.schools + k)
    case Lycee => s.(lycees := s.lycees + k)
    case College => s.(colleges := s.colleges + k)
    case Licence => s.(licences := s.licences + k)
    case Master1 => s.(master1 := s.master1 + k)
    case Master2 => s.(master2 := s.master2 + k)
    case Doctorat => s.(doctorats := s.doctorats + k)
    case PostDoctorat => s.(postDoctorats := s.postDoctorats + k)
  }

  /** The amount held of a currency. */
  function Funds(s: State, c: Currency): real {
    match c
    case BonsPoints => s.bonsPoints
    case Images => s.images as real
    case AscensionPoints => s.ascensionPoints
    case PrestigePoints => s.prestigePoints
  }

  /** Take `amount` from a currency. Images are whole, so an image debit must
      be a whole number no larger than the images held. */
  function Debit(s: State, c: Currency, amount: real): (r: State)
    requires c == Images ==> IsIntegral(amount) && amount <= s.images as real
    ensures Funds(r, c) == Funds(s, c) - amount
    ensures forall other :: other != c ==> Funds(r, other) == Funds(s, other)
    ensures forall item :: item != Image ==> Counter(r, item) == Counter(s, item)
    ensures r.(bonsPoints := s.bonsPoints, images := s.images, ascensionPoints := s.ascensionPoints,
               prestigePoints := s.prestigePoints) == s
  {
    match c
    case BonsPoints => s.(bonsPoints := s.bonsPoints - amount)
    case Images =>
      var k := amount.Floor;
      assert k as real == amount;
      s.(images := s.images - k)
    case AscensionPoints => s.(ascensionPoints := s.ascensionPoints - amount)
    case PrestigePoints => s.(prestigePoints := s.prestigePoints - amount)
  }

  function Tree(s: State, t: GameData.Tree): TreeState {
    match t
    case Studies => s.studies
    case Ascension => s.ascension
    case Prestige => s.prestige
  }

  function WithTree(s: State, t: GameData.Tree, ts: TreeState): (r: State)
    ensures Tree(r, t) == ts
    ensures forall u :: u != t ==> Tree(r, u) == Tree(s, u)
    ensures r.(studies := s.studies, ascension := s.ascension, prestige := s.prestige) == s
  {
    s.(studies := if t == Studies then ts else s.studies,
       ascension := if t == Ascension then ts else s.ascension,
       prestige := if t == Prestige then ts else s.prestige)
  }

  /** A skill's level in a level record; an absent id is level 0. */
  function LevelOf(levels: map<SkillId, nat>, id: SkillId): nat {
    if id in levels then levels[id] else 0
  }

  /** The sum of the levels of a table's skills: the points spent in that
      tree, one per level. */
  function LevelSum(table: seq<Skill>, levels: map<SkillId, nat>): nat {
    if |table| == 0 then 0 else LevelOf(levels, table[0].id) + LevelSum(table[1..], levels)
  }

  /** The `completedQuests` key of the quest at position i of the table: the
      index spelling a `for ... in` loop over the array yields. */
  function QuestKey(i: nat): string {
    DecimalKey(i)
  }

  /** The quest position a key spells: the inverse of QuestKey on the table. */
  lemma QuestKeyRoundTrip(i: nat)
    requires i < |Quests|
    ensures QuestAt(QuestKey(i)) == Wrappers.Some(i)
  {
    var r := QuestAt(QuestKey(i));
    if r.Some? {
      DecimalKeyInjective(r.value, i);
    }
  }

  /** A quest id is never a quest key: ids start with a letter, keys are all
      digits. */
  lemma QuestIdIsNotAKey(q: nat)
    requires q < |Quests|
    ensures QuestAt(Quests[q].id) == Wrappers.None
  {
    assert Quests[q].id[0] == 'Q';
  }
}
