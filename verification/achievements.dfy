/** checkAchievements of achievements.js: one sweep over the achievement
    table, the conditions read from a snapshot of the state taken before the
    sweep, and the rewards dispatched by kind. */
module Achievements {
  import opened GameData
  import opened SkillEffects
  import opened GameState
  import opened AchievementData
  import opened Production

  /** The value a threshold condition compares. Skill levels are summed over
      the ids of the tree's table. */
  function MetricValue(s: State, m: Metric): real {
    match m
    case BonsPointsHeld => s.bonsPoints
    case ElevesOwned => s.eleves as real
    case ImagesOwned => s.images as real
    case ClassesOwned => s.classes as real
    case ProfesseursOwned => s.professeurs as real
    case SchoolsOwned => s.schools as real
    case LyceesOwned => s.lycees as real
    case CollegesOwned => s.colleges as real
    case Ascensions => s.ascensionCount as real
    case TotalPaEarned => s.totalPAEarned
    case Clicks => s.totalClicks as real
    case LicencesOwned => s.licences as real
    case Master1Owned => s.master1 as real
    case Master2Owned => s.master2 as real
    case DoctoratsOwned => s.doctorats as real
    case PostDoctoratsOwned => s.postDoctorats as real
    case Production => s.totalBps
    case QuestEntries => |s.completedQuests| as real
    case LevelSum(t) => GameState.LevelSum(SkillTable(t), GameState.Tree(s, t).levels) as real
  }

  /** The four automations a condition can name. */
  const AutomatedItems: set<Item> := {Eleve, Classe, Image, Professeur}

  /** Does the snapshot meet the condition? The all-quests condition compares
      the number of quest-log entries with the number of quests. */
  predicate Holds(s: State, c: Condition) {
    match c
    case AtLeast(m, t) => MetricValue(s, m) >= t
    case AutomationActive(item) => item in s.automation
    case AllAutomationActive => AutomatedItems <= s.automation
    case AllQuestEntries => |s.completedQuests| == |Quests|
  }

  /** What the sweep carries from one achievement to the next: the unlocked
      set, the running permanent bonus, the effects accumulator rewards act
      on, the points the grants assign, and whether anything unlocked. */
  datatype Sweep = Sweep(
    unlocked: set<AchievementId>,
    bonus: real,
    effects: Effects,
    ascensionPoints: real,
    studiesPoints: nat,
    ascensionSkillPoints: nat,
    prestigeSkillPoints: nat,
    changed: bool)

  /** The sweep's starting point: the state's own values. */
  function Start(s: State): Sweep {
    Sweep(s.unlockedAchievements, s.permanentBpsBonus, s.effects, s.ascensionPoints,
          s.studies.points, s.ascension.points, s.prestige.points, false)
  }

  /** The skill points a sweep holds for a tree. */
  function SweepPoints(w: Sweep, t: GameData.Tree): nat {
    match t
    case Studies => w.studiesPoints
    case Ascension => w.ascensionSkillPoints
    case Prestige => w.prestigeSkillPoints
  }

  /** One reward. A bonus adds to the running bonus and an effect reward acts
      on the running accumulator; an ascension-point or skill-point grant
      assigns the snapshot's value plus the amount, so it overwrites what an
      earlier grant of the same sweep assigned. */
  function Grant(snap: State, w: Sweep, rw: Reward): (r: Sweep)
    ensures r.unlocked == w.unlocked && r.changed == w.changed
    ensures rw.BpsBonus? ==> r == w.(bonus := w.bonus + rw.bonus)
    ensures rw.EffectReward? ==> r == w.(effects := ApplyStep(w.effects, rw.step))
    ensures rw.AscensionPointsGrant? ==> r == w.(ascensionPoints := snap.ascensionPoints + rw.amount)
    ensures rw.SkillPointGrant? ==>
              SweepPoints(r, rw.tree) == GameState.Tree(snap, rw.tree).points + 1
              && forall u :: u != rw.tree ==> SweepPoints(r, u) == SweepPoints(w, u)
    ensures rw.SkillPointGrant? ==>
              r.(studiesPoints := w.studiesPoints, ascensionSkillPoints := w.ascensionSkillPoints,
                 prestigeSkillPoints := w.prestigeSkillPoints) == w
  {
    match rw
    case BpsBonus(b) => w.(bonus := w.bonus + b)
    case EffectReward(st) => w.(effects := ApplyStep(w.effects, st))
    case AscensionPointsGrant(x) => w.(ascensionPoints := snap.ascensionPoints + x)
    case SkillPointGrant(t) =>
      match t
      case Studies => w.(studiesPoints := snap.studies.points + 1)
      case Ascension => w.(ascensionSkillPoints := snap.ascension.points + 1)
      case Prestige => w.(prestigeSkillPoints := snap.prestige.points + 1)
  }

  /** Does the achievement unlock now: not yet unlocked, and its condition
      met by the snapshot? */
  predicate Fires(snap: State, w: Sweep, a: Achievement) {
    a.id !in w.unlocked && Holds(snap, a.condition)
  }

  /** One achievement of the sweep. */
  function Visit(snap: State, w: Sweep, a: Achievement): (r: Sweep)
    ensures !Fires(snap, w, a) ==> r == w
    ensures Fires(snap, w, a) ==>
              r.unlocked == w.unlocked + {a.id} && r.changed
              && r == Grant(snap, w, a.reward).(unlocked := r.unlocked, changed := true)
  {
    if !Fires(snap, w, a) then w
    else Grant(snap, w.(unlocked := w.unlocked + {a.id}, changed := true), a.reward)
  }

  /** The sweep over the table from position k. */
  function SweepFrom(snap: State, w: Sweep, table: seq<Achievement>, k: nat): Sweep
    requires k <= |table|
    decreases |table| - k
  {
    if k == |table| then w
    else SweepFrom(snap, Visit(snap, w, table[k]), table, k + 1)
  }

  /** Is id the id of an achievement at position k or later whose condition
      the snapshot meets? */
  predicate EarnedFrom(snap: State, id: AchievementId, table: seq<Achievement>, k: nat) {
    exists j :: k <= j < |table| && table[j].id == id && Holds(snap, table[j].condition)
  }

  /** One visit adds the achievement's id when its condition holds, and no
      other. */
  lemma VisitUnlocked(snap: State, w: Sweep, a: Achievement, id: AchievementId)
    ensures id in Visit(snap, w, a).unlocked <==> id in w.unlocked || (id == a.id && Holds(snap, a.condition))
  {
  }

  /** Earned from k: earned at k itself, or from k + 1 on. */
  lemma EarnedFromStep(snap: State, id: AchievementId, table: seq<Achievement>, k: nat)
    requires k < |table|
    ensures EarnedFrom(snap, id, table, k) <==>
              (table[k].id == id && Holds(snap, table[k].condition)) || EarnedFrom(snap, id, table, k + 1)
  {
    if EarnedFrom(snap, id, table, k) && !EarnedFrom(snap, id, table, k + 1) {
      var j :| k <= j < |table| && table[j].id == id && Holds(snap, table[j].condition);
      assert j == k;
    }
  }

  /** The sweep from k unlocks exactly the ids earned from k on that were not
      unlocked before. */
  lemma {:induction false} SweepFromUnlocked(snap: State, w: Sweep, table: seq<Achievement>, k: nat, id: AchievementId)
    requires k <= |table|
    ensures id in SweepFrom(snap, w, table, k).unlocked <==> id in w.unlocked || EarnedFrom(snap, id, table, k)
    decreases |table| - k
  {
    if k < |table| {
      var a := table[k];
      var w1 := Visit(snap, w, a);
      VisitUnlocked(snap, w, a, id);
      EarnedFromStep(snap, id, table, k);
      SweepFromUnlocked(snap, w1, table, k + 1, id);
      assert SweepFrom(snap, w, table, k) == SweepFrom(snap, w1, table, k + 1);
    }
  }

  /** The unlocked set only grows, and the sweep reports a change exactly when
      it grew. */
  lemma {:induction false} SweepFromChanged(snap: State, w: Sweep, table: seq<Achievement>, k: nat)
    requires k <= |table|
    ensures w.unlocked <= SweepFrom(snap, w, table, k).unlocked
    ensures SweepFrom(snap, w, table, k).changed <==> w.changed || SweepFrom(snap, w, table, k).unlocked != w.unlocked
    decreases |table| - k
  {
    if k < |table| {
      var a := table[k];
      var w1 := Visit(snap, w, a);
      SweepFromChanged(snap, w1, table, k + 1);
      assert SweepFrom(snap, w, table, k) == SweepFrom(snap, w1, table, k + 1);
      if Fires(snap, w, a) {
        assert a.id in SweepFrom(snap, w, table, k).unlocked && a.id !in w.unlocked;
      }
    }
  }

  /** The bonus amount an achievement's reward adds, if it is a bonus. */
  function BonusOf(rw: Reward): real {
    if rw.BpsBonus? then rw.bonus else 0.0
  }

  /** The reference sum: the bonus amounts of the achievements from position
      k on that unlock, each counted once, given the ids already unlocked. */
  function NewBonus(snap: State, unlocked: set<AchievementId>, table: seq<Achievement>, k: nat): (r: real)
    requires k <= |table|
    ensures r >= 0.0
    ensures (forall j :: k <= j < |table| ==> !table[j].reward.BpsBonus?) ==> r == 0.0
    decreases |table| - k
  {
    if k == |table| then 0.0
    else if table[k].id !in unlocked && Holds(snap, table[k].condition) then
      BonusOf(table[k].reward) + NewBonus(snap, unlocked + {table[k].id}, table, k + 1)
    else NewBonus(snap, unlocked, table, k + 1)
  }

  /** The permanent bonus rises by exactly the bonus amounts of the
      achievements the sweep unlocks. */
  lemma {:induction false} SweepFromBonus(snap: State, w: Sweep, table: seq<Achievement>, k: nat)
    requires k <= |table|
    ensures SweepFrom(snap, w, table, k).bonus == w.bonus + NewBonus(snap, w.unlocked, table, k)
    decreases |table| - k
  {
    if k < |table| {
      var a := table[k];
      var w1 := Visit(snap, w, a);
      if Fires(snap, w, a) {
        assert w1.unlocked == w.unlocked + {a.id};
        assert w1.bonus == w.bonus + BonusOf(a.reward);
      }
      SweepFromBonus(snap, w1, table, k + 1);
    }
  }

  /** The reference for the ascension points a sweep assigns: each ascension
      grant that unlocks sets the snapshot's points plus its own amount, so
      the last one to unlock decides, and pa stands when none unlocks. */
  function LastPa(snap: State, unlocked: set<AchievementId>, table: seq<Achievement>, k: nat, pa: real): (r: real)
    requires k <= |table|
    ensures (forall j :: k <= j < |table| ==> !table[j].reward.AscensionPointsGrant?) ==> r == pa
    decreases |table| - k
  {
    if k == |table| then pa
    else if table[k].id !in unlocked && Holds(snap, table[k].condition) then
      var next := if table[k].reward.AscensionPointsGrant? then snap.ascensionPoints + table[k].reward.amount else pa;
      LastPa(snap, unlocked + {table[k].id}, table, k + 1, next)
    else LastPa(snap, unlocked, table, k + 1, pa)
  }

  /** The reference yields pa, or the snapshot's points plus the amount of
      one ascension grant not yet unlocked whose condition holds. */
  lemma {:induction false} LastPaIsSomeGrant(snap: State, unlocked: set<AchievementId>, table: seq<Achievement>,
                                             k: nat, pa: real)
    requires k <= |table|
    ensures var r := LastPa(snap, unlocked, table, k, pa);
            r == pa || exists j :: k <= j < |table| && table[j].reward.AscensionPointsGrant?
                                   && table[j].id !in unlocked && Holds(snap, table[j].condition)
                                   && r == snap.ascensionPoints + table[j].reward.amount
    decreases |table| - k
  {
    if k < |table| {
      if table[k].id !in unlocked && Holds(snap, table[k].condition) {
        var next := if table[k].reward.AscensionPointsGrant? then snap.ascensionPoints + table[k].reward.amount else pa;
        LastPaIsSomeGrant(snap, unlocked + {table[k].id}, table, k + 1, next);
      } else {
        LastPaIsSomeGrant(snap, unlocked, table, k + 1, pa);
      }
    }
  }

  /** One step of the sweep. */
  lemma SweepFromStep(snap: State, w: Sweep, table: seq<Achievement>, k: nat)
    requires k < |table|
    ensures SweepFrom(snap, w, table, k) == SweepFrom(snap, Visit(snap, w, table[k]), table, k + 1)
  {
  }

  /** One visit, as the reference reads it: the unlocked set and the
      ascension points it leaves. */
  lemma VisitAscensionPoints(snap: State, w: Sweep, a: Achievement)
    ensures Visit(snap, w, a).unlocked == if Fires(snap, w, a) then w.unlocked + {a.id} else w.unlocked
    ensures Visit(snap, w, a).ascensionPoints
            == if Fires(snap, w, a) && a.reward.AscensionPointsGrant? then snap.ascensionPoints + a.reward.amount
               else w.ascensionPoints
  {
  }

  /** The sweep assigns exactly the ascension points of the reference. */
  lemma {:induction false} SweepFromAscensionPoints(snap: State, w: Sweep, table: seq<Achievement>, k: nat)
    requires k <= |table|
    ensures SweepFrom(snap, w, table, k).ascensionPoints == LastPa(snap, w.unlocked, table, k, w.ascensionPoints)
    decreases |table| - k
  {
    if k < |table| {
      var a := table[k];
      var w1 := Visit(snap, w, a);
      VisitAscensionPoints(snap, w, a);
      SweepFromStep(snap, w, table, k);
      SweepFromAscensionPoints(snap, w1, table, k + 1);
      if Fires(snap, w, a) {
        var next := if a.reward.AscensionPointsGrant? then snap.ascensionPoints + a.reward.amount else w.ascensionPoints;
        assert w1.unlocked == w.unlocked + {a.id} && w1.ascensionPoints == next;
        assert LastPa(snap, w.unlocked, table, k, w.ascensionPoints) == LastPa(snap, w.unlocked + {a.id}, table, k + 1, next);
      } else {
        assert w1 == w;
        assert LastPa(snap, w.unlocked, table, k, w.ascensionPoints) == LastPa(snap, w.unlocked, table, k + 1, w.ascensionPoints);
      }
    }
  }

  /** The reference for the skill points of tree t a sweep assigns: a grant
      for t that unlocks sets the snapshot's points plus one, and p stands
      when none unlocks. */
  function LastPoints(snap: State, unlocked: set<AchievementId>, table: seq<Achievement>, k: nat,
                      t: GameData.Tree, p: nat): (r: nat)
    requires k <= |table|
    ensures r == p || r == GameState.Tree(snap, t).points + 1
    ensures r != p ==> exists j :: k <= j < |table| && table[j].reward == SkillPointGrant(t)
                                   && table[j].id !in unlocked && Holds(snap, table[j].condition)
    ensures (forall j :: k <= j < |table| ==> table[j].reward != SkillPointGrant(t)) ==> r == p
    decreases |table| - k
  {
    if k == |table| then p
    else if table[k].id !in unlocked && Holds(snap, table[k].condition) then
      var next := if table[k].reward == SkillPointGrant(t) then GameState.Tree(snap, t).points + 1 else p;
      LastPoints(snap, unlocked + {table[k].id}, table, k + 1, t, next)
    else LastPoints(snap, unlocked, table, k + 1, t, p)
  }

  /** A grant for t that unlocks at position j, its id not met earlier in the
      table, leaves the tree with the snapshot's points plus one. */
  lemma {:induction false} LastPointsRise(snap: State, unlocked: set<AchievementId>, table: seq<Achievement>, k: nat,
                                          t: GameData.Tree, p: nat, j: nat)
    requires k <= j < |table| && table[j].reward == SkillPointGrant(t)
    requires table[j].id !in unlocked && Holds(snap, table[j].condition)
    requires forall i :: k <= i < j ==> table[i].id != table[j].id
    ensures LastPoints(snap, unlocked, table, k, t, p) == GameState.Tree(snap, t).points + 1
    decreases j - k
  {
    if k < j {
      var next := if table[k].reward == SkillPointGrant(t) then GameState.Tree(snap, t).points + 1 else p;
      if table[k].id !in unlocked && Holds(snap, table[k].condition) {
        LastPointsRise(snap, unlocked + {table[k].id}, table, k + 1, t, next, j);
      } else {
        LastPointsRise(snap, unlocked, table, k + 1, t, p, j);
      }
    }
  }

  /** One visit, as the reference reads it: the unlocked set and the skill
      points of tree t it leaves. */
  lemma VisitSkillPoints(snap: State, w: Sweep, a: Achievement, t: GameData.Tree)
    ensures Visit(snap, w, a).unlocked == if Fires(snap, w, a) then w.unlocked + {a.id} else w.unlocked
    ensures SweepPoints(Visit(snap, w, a), t)
            == if Fires(snap, w, a) && a.reward == SkillPointGrant(t) then GameState.Tree(snap, t).points + 1
               else SweepPoints(w, t)
  {
  }

  /** The sweep assigns exactly the skill points of the reference. */
  lemma {:induction false} SweepFromSkillPoints(snap: State, w: Sweep, table: seq<Achievement>, k: nat, t: GameData.Tree)
    requires k <= |table|
    ensures SweepPoints(SweepFrom(snap, w, table, k), t) == LastPoints(snap, w.unlocked, table, k, t, SweepPoints(w, t))
    decreases |table| - k
  {
    if k < |table| {
      var w1 := Visit(snap, w, table[k]);
      VisitSkillPoints(snap, w, table[k], t);
      assert SweepFrom(snap, w, table, k) == SweepFrom(snap, w1, table, k + 1);
      assert LastPoints(snap, w.unlocked, table, k, t, SweepPoints(w, t))
             == LastPoints(snap, w1.unlocked, table, k + 1, t, SweepPoints(w1, t));
      SweepFromSkillPoints(snap, w1, table, k + 1, t);
    }
  }

  /** A sweep that unlocks nothing leaves every running value as it was. */
  lemma {:induction false} SweepFromUnchanged(snap: State, w: Sweep, table: seq<Achievement>, k: nat)
    requires k <= |table|
    requires !SweepFrom(snap, w, table, k).changed
    ensures SweepFrom(snap, w, table, k) == w
    decreases |table| - k
  {
    if k < |table| {
      var w1 := Visit(snap, w, table[k]);
      assert SweepFrom(snap, w, table, k) == SweepFrom(snap, w1, table, k + 1);
      SweepFromChangedLatches(snap, w1, table, k + 1);
      SweepFromUnchanged(snap, w1, table, k + 1);
    }
  }

  /** Once set, the change flag stays set. */
  lemma {:induction false} SweepFromChangedLatches(snap: State, w: Sweep, table: seq<Achievement>, k: nat)
    requires k <= |table|
    ensures w.changed ==> SweepFrom(snap, w, table, k).changed
    decreases |table| - k
  {
    if k < |table| {
      SweepFromChangedLatches(snap, Visit(snap, w, table[k]), table, k + 1);
    }
  }

  /** The state the sweep writes back: the unlocked set, the bonus, the
      accumulator, the ascension points and the three skill-point counts. */
  function WriteBack(s: State, w: Sweep): (r: State)
    ensures r.(unlockedAchievements := s.unlockedAchievements, permanentBpsBonus := s.permanentBpsBonus,
               effects := s.effects, ascensionPoints := s.ascensionPoints,
               studies := s.studies, ascension := s.ascension, prestige := s.prestige) == s
    ensures r.studies.levels == s.studies.levels && r.ascension.levels == s.ascension.levels
            && r.prestige.levels == s.prestige.levels
  {
    s.(unlockedAchievements := w.unlocked, permanentBpsBonus := w.bonus, effects := w.effects,
       ascensionPoints := w.ascensionPoints,
       studies := s.studies.(points := w.studiesPoints),
       ascension := s.ascension.(points := w.ascensionSkillPoints),
       prestige := s.prestige.(points := w.prestigeSkillPoints))
  }

  /** checkAchievements: sweep the table against the snapshot; if anything
      unlocked, write the sweep back and rebuild the accumulator, which
      erases what the effect rewards did to it. */
  function CheckAchievements(s: State): (r: State)
    ensures r != s ==> r.effects == RebuildEffects(s) && r.totalBps == TotalBps(r)
    ensures r.bonsPoints == s.bonsPoints && r.images == s.images && r.totalClicks == s.totalClicks
    ensures r.completedQuests == s.completedQuests && r.flags == s.flags && r.automation == s.automation
    ensures r.eleves == s.eleves && r.classes == s.classes && r.professeurs == s.professeurs
    ensures r.studies.levels == s.studies.levels && r.ascension.levels == s.ascension.levels
            && r.prestige.levels == s.prestige.levels
  {
    var w := SweepFrom(s, Start(s), Achievements, 0);
    if !w.changed then s
    else
      var t := WriteBack(s, w);
      assert InputsOf(t) == InputsOf(s);
      ApplyAllSkillEffects(t)
  }

  /** After a check, an achievement is unlocked exactly when it was before or
      its condition held when the check began. */
  lemma CheckAchievementsUnlocks(s: State, id: AchievementId)
    ensures id in CheckAchievements(s).unlockedAchievements <==>
              id in s.unlockedAchievements || EarnedFrom(s, id, Achievements, 0)
  {
    SweepFromUnlocked(s, Start(s), Achievements, 0, id);
    var w := SweepFrom(s, Start(s), Achievements, 0);
    if !w.changed {
      SweepFromUnchanged(s, Start(s), Achievements, 0);
    }
  }

  /** A check that unlocks nothing changes nothing. */
  lemma CheckAchievementsNothingNew(s: State)
    ensures (forall id :: EarnedFrom(s, id, Achievements, 0) ==> id in s.unlockedAchievements) ==> CheckAchievements(s) == s
  {
    var w := SweepFrom(s, Start(s), Achievements, 0);
    if forall id :: EarnedFrom(s, id, Achievements, 0) ==> id in s.unlockedAchievements {
      forall id ensures id in w.unlocked <==> id in s.unlockedAchievements {
        SweepFromUnlocked(s, Start(s), Achievements, 0, id);
      }
      assert w.unlocked == s.unlockedAchievements;
      SweepFromChanged(s, Start(s), Achievements, 0);
      SweepFromUnchanged(s, Start(s), Achievements, 0);
    }
  }

  /** A check raises the permanent bonus by exactly the bonus amounts of the
      achievements it newly unlocks. */
  lemma CheckAchievementsBonus(s: State)
    ensures CheckAchievements(s).permanentBpsBonus
            == s.permanentBpsBonus + NewBonus(s, s.unlockedAchievements, Achievements, 0)
  {
    var w := SweepFrom(s, Start(s), Achievements, 0);
    SweepFromBonus(s, Start(s), Achievements, 0);
    if !w.changed {
      SweepFromUnchanged(s, Start(s), Achievements, 0);
    }
  }

  /** A check assigns exactly the ascension points of the reference: the
      points before the check, or the snapshot's points plus the amount of
      the last ascension grant it unlocks. */
  lemma CheckAchievementsAscensionPoints(s: State)
    ensures CheckAchievements(s).ascensionPoints == LastPa(s, s.unlockedAchievements, Achievements, 0, s.ascensionPoints)
  {
    var w := SweepFrom(s, Start(s), Achievements, 0);
    SweepFromAscensionPoints(s, Start(s), Achievements, 0);
    if !w.changed {
      SweepFromUnchanged(s, Start(s), Achievements, 0);
    }
  }

  /** After a check the ascension points are as before, or the points
      before plus the amount of one ascension grant the check newly unlocks:
      never the sum of two grants. */
  lemma CheckAchievementsAscensionGrant(s: State)
    ensures var pa := CheckAchievements(s).ascensionPoints;
            pa == s.ascensionPoints
            || exists j :: 0 <= j < |Achievements| && Achievements[j].reward.AscensionPointsGrant?
                           && Achievements[j].id !in s.unlockedAchievements && Holds(s, Achievements[j].condition)
                           && pa == s.ascensionPoints + Achievements[j].reward.amount
  {
    CheckAchievementsAscensionPoints(s);
    LastPaIsSomeGrant(s, s.unlockedAchievements, Achievements, 0, s.ascensionPoints);
  }

  /** A check assigns exactly the skill points of the reference for every
      tree. */
  lemma CheckAchievementsSkillPoints(s: State, t: GameData.Tree)
    ensures GameState.Tree(CheckAchievements(s), t).points
            == LastPoints(s, s.unlockedAchievements, Achievements, 0, t, GameState.Tree(s, t).points)
  {
    var w := SweepFrom(s, Start(s), Achievements, 0);
    assert SweepPoints(Start(s), t) == GameState.Tree(s, t).points;
    SweepFromSkillPoints(s, Start(s), Achievements, 0, t);
    if !w.changed {
      SweepFromUnchanged(s, Start(s), Achievements, 0);
    } else {
      assert GameState.Tree(WriteBack(s, w), t).points == SweepPoints(w, t);
    }
  }

  /** The position of the quest achievement that grants a point of tree t. */
  function QuestIndex(t: GameData.Tree): (i: nat)
    ensures i < |Achievements| && Achievements[i].reward == SkillPointGrant(t)
  {
    match t
    case Studies => 76
    case Ascension => 77
    case Prestige => 78
  }

  /** An entry that is neither a skill-point grant nor one of the three
      quest achievements. */
  predicate OtherThanQuest(a: Achievement) {
    !a.reward.SkillPointGrant? && a.id != Quests1 && a.id != Quests5 && a.id != QuestsAll
  }

  /** The entries before the quest achievements. */
  const BeforeQuests: seq<Achievement> :=
    BonsPointsAchievements + ElevesAchievements + ImagesAchievements + ClassesAchievements
    + ProfesseurAchievements + EcoleAchievements + LyceeAchievements + CollegeAchievements
    + AscensionAchievements + AutomationAchievements + ClickAchievements
    + PrestigePurchaseAchievements + ProductionAchievements

  /** No entry before the quest achievements is a skill-point grant or
      carries a quest achievement's id. */
  lemma BeforeQuestsOther(i: nat)
    requires i < |BeforeQuests|
    ensures OtherThanQuest(BeforeQuests[i])
  {
    EarlyGroupsOther();
    MiddleGroupsOther();
    LateGroupsOther();
  }

  /** Every entry of g is other than a quest achievement. */
  predicate AllOther(g: seq<Achievement>) {
    forall i :: 0 <= i < |g| ==> OtherThanQuest(g[i])
  }

  /** The groups up to the classe achievements hold no quest entry. */
  lemma EarlyGroupsOther()
    ensures AllOther(BonsPointsAchievements) && AllOther(ElevesAchievements) && AllOther(ImagesAchievements)
    ensures AllOther(ClassesAchievements)
  {
  }

  /** The groups from the professeur achievements to the collège ones hold
      no quest entry. */
  lemma MiddleGroupsOther()
    ensures AllOther(ProfesseurAchievements) && AllOther(EcoleAchievements)
    ensures AllOther(LyceeAchievements) && AllOther(CollegeAchievements)
  {
  }

  /** The groups from the ascension achievements to the production ones
      hold no quest entry. */
  lemma LateGroupsOther()
    ensures AllOther(AscensionAchievements) && AllOther(AutomationAchievements) && AllOther(ClickAchievements)
    ensures AllOther(PrestigePurchaseAchievements) && AllOther(ProductionAchievements)
  {
  }

  /** Every entry outside positions 76 to 78 is other than a quest
      achievement. */
  lemma OtherEntry(i: nat)
    requires i < |Achievements| && !(76 <= i <= 78)
    ensures OtherThanQuest(Achievements[i])
  {
    assert Achievements == BeforeQuests + QuestAchievements + SkillAchievements;
    if i < 76 {
      assert Achievements[i] == BeforeQuests[i];
      BeforeQuestsOther(i);
    } else {
      assert Achievements[i] == SkillAchievements[i - 79];
    }
  }

  /** The quest achievement is the one entry of the table that grants a
      point of tree t, and the one entry with its id. */
  lemma QuestGrantAlone(t: GameData.Tree, i: nat)
    requires i < |Achievements|
    requires Achievements[i].reward == SkillPointGrant(t) || Achievements[i].id == Achievements[QuestIndex(t)].id
    ensures i == QuestIndex(t)
  {
    if !(76 <= i <= 78) {
      OtherEntry(i);
    }
  }

  /** The reference gives tree t one more skill point when t's quest
      achievement newly unlocks. */
  lemma QuestPointRises(s: State, t: GameData.Tree, p: nat)
    requires Achievements[QuestIndex(t)].id !in s.unlockedAchievements
    requires Holds(s, Achievements[QuestIndex(t)].condition)
    ensures LastPoints(s, s.unlockedAchievements, Achievements, 0, t, p) == GameState.Tree(s, t).points + 1
  {
    var a := Achievements[QuestIndex(t)];
    forall i | 0 <= i < QuestIndex(t)
      ensures Achievements[i].id != a.id
    {
      if Achievements[i].id == a.id {
        QuestGrantAlone(t, i);
      }
    }
    LastPointsRise(s, s.unlockedAchievements, Achievements, 0, t, p, QuestIndex(t));
  }

  /** Otherwise the reference leaves the points at p. */
  lemma QuestPointStays(s: State, t: GameData.Tree, p: nat)
    requires Achievements[QuestIndex(t)].id in s.unlockedAchievements
             || !Holds(s, Achievements[QuestIndex(t)].condition)
    ensures LastPoints(s, s.unlockedAchievements, Achievements, 0, t, p) == p
  {
    if LastPoints(s, s.unlockedAchievements, Achievements, 0, t, p) != p {
      var j :| 0 <= j < |Achievements| && Achievements[j].reward == SkillPointGrant(t)
               && Achievements[j].id !in s.unlockedAchievements && Holds(s, Achievements[j].condition);
      QuestGrantAlone(t, j);
    }
  }

  /** A check gives tree t one more skill point exactly when t's quest
      achievement newly unlocks, and leaves its points alone otherwise. */
  lemma CheckAchievementsQuestPoint(s: State, t: GameData.Tree)
    ensures var a := Achievements[QuestIndex(t)];
            GameState.Tree(CheckAchievements(s), t).points
            == GameState.Tree(s, t).points + (if a.id !in s.unlockedAchievements && Holds(s, a.condition) then 1 else 0)
  {
    CheckAchievementsSkillPoints(s, t);
    var a := Achievements[QuestIndex(t)];
    if a.id !in s.unlockedAchievements && Holds(s, a.condition) {
      QuestPointRises(s, t, GameState.Tree(s, t).points);
    } else {
      QuestPointStays(s, t, GameState.Tree(s, t).points);
    }
  }

  /** Two ascension grants in one sweep: the second overwrites the first, so
      the points rise by the second amount only, not by the sum. */
  lemma AscensionGrantsOverwrite(snap: State, w: Sweep, a: Achievement, b: Achievement)
    requires a.reward.AscensionPointsGrant? && b.reward.AscensionPointsGrant?
    requires Fires(snap, w, a) && Fires(snap, Visit(snap, w, a), b)
    ensures Visit(snap, Visit(snap, w, a), b).ascensionPoints == snap.ascensionPoints + b.reward.amount
  {
  }
}
