/** The three resets of core.js: resetGameVariables (the hard reset),
    softResetGame (after an ascension) and superSoftResetGame (after a
    prestige). */
module Resets {
  import opened GameData
  import opened SkillEffects
  import opened GameState
  import opened Production
  import opened Unlocks

  /** The four study unlock flags every reset clears. */
  const StudyFlags: set<Flag> := {ElevesUnlocked, ClassesUnlocked, ImagesUnlocked, ProfesseurUnlocked}

  /** The flags the super soft reset clears: all but the prestige unlock, the
      lycée and collège unlocks and the three skill panels. */
  const PrestigeClearedFlags: set<Flag> := StudyFlags + {
    AscensionUnlocked, SkillsButton, SettingsButton, AutomationCategory, QuestsUnlocked,
    AchievementsButton, NewSettings, MultiPurchaseOption, MaxPurchaseOption, StatsButton,
    PrestigeMenuButton, AscensionMenuButton
  }

  const EmptyTree: TreeState := TreeState(0, map[])

  /** The tail every reset shares: rebuild, then check the unlocks. With no
      clicks counted the quest log is left alone. */
  function Settle(s: State): (r: State)
    ensures Kept(s, r)
    ensures r.effects == RebuildEffects(s)
    ensures s.totalClicks < 5 ==> r.completedQuests == s.completedQuests
    ensures r.flags == s.flags + EarnedFlags(s)
    ensures s.eleves == 0 && s.classes == 0 ==> r.totalBps == 0.0
  {
    var a := ApplyAllSkillEffects(s);
    if s.eleves == 0 && s.classes == 0 then NoStudentsNoProduction(a); Tail(s, a) else Tail(s, a)
  }

  function Tail(s: State, a: State): (r: State)
    requires a == ApplyAllSkillEffects(s)
    ensures Kept(s, r)
    ensures r.effects == RebuildEffects(s)
    ensures s.totalClicks < 5 ==> r.completedQuests == s.completedQuests
    ensures r.flags == s.flags + EarnedFlags(s)
    ensures r.totalBps == a.totalBps
  {
    assert ReadingsOf(a) == ReadingsOf(s);
    var r := CheckUnlocks(a);
    assert Kept(a, r) && r.effects == a.effects;
    assert r.flags == a.flags + EarnedFlags(a);
    r
  }

  /** The state resetGameVariables writes, before its rebuild and unlock
      check; `now` is the clock reading it stores. */
  function Initial(now: int): State {
    State(
      bonsPoints := 0.0, bonsPointsTotal := 0.0, totalBps := 0.0,
      images := 0, eleves := 0, classes := 0, professeurs := 0,
      schools := 0, lycees := 0, colleges := 0,
      ascensionPoints := 0.0, ascensionCount := 0, totalPAEarned := 0.0, ascensionBonus := 1.0,
      prestigePoints := 0.0, prestigeCount := 0, totalClicks := 0,
      purchaseMultiplier := Units(1), flags := {}, automation := {},
      studies := EmptyTree, ascension := EmptyTree, prestige := EmptyTree,
      secretSkillClicks := 0, offlineProgressEnabled := true,
      licences := 0, master1 := 0, master2 := 0, doctorats := 0, postDoctorats := 0,
      lastUpdate := now, unlockedAchievements := {}, permanentBpsBonus := 0.0,
      completedQuests := map[], paMultiplierFromQuests := 1.0, effects := Defaults)
  }

  /** resetGameVariables (and hardResetGame, which only adds the removal of
      the save): everything back to its start value, the accumulator rebuilt
      from no skills and no purchases, and only the élève unlock earned. */
  function ResetGameVariables(now: int): (r: State)
    ensures r.bonsPoints == 0.0 && r.bonsPointsTotal == 0.0 && r.totalBps == 0.0
    ensures r.eleves == 0 && r.classes == 0 && r.images == 0 && r.professeurs == 0
    ensures r.schools == 0 && r.lycees == 0 && r.colleges == 0
    ensures r.licences == 0 && r.master1 == 0 && r.master2 == 0 && r.doctorats == 0 && r.postDoctorats == 0
    ensures r.ascensionPoints == 0.0 && r.prestigePoints == 0.0 && r.ascensionBonus == 1.0
    ensures r.ascensionCount == 0 && r.prestigeCount == 0 && r.totalPAEarned == 0.0
    ensures r.studies == EmptyTree && r.ascension == EmptyTree && r.prestige == EmptyTree
    ensures r.flags == {ElevesUnlocked} && r.automation == {}
    ensures r.completedQuests == map[] && r.unlockedAchievements == {} && r.permanentBpsBonus == 0.0
    ensures r.paMultiplierFromQuests == 1.0 && r.offlineProgressEnabled && r.lastUpdate == now
    ensures r.effects == RebuildEffects(Initial(now))
  {
    var t := Initial(now);
    assert ReadingsOf(t) == Readings(0.0, 0, 0, 0, 0.0, 0, 0, 0, 0, 0, 0);
    ZeroReadingsFlags();
    Settle(t)
  }

  /** After a hard reset no item is owned. */
  lemma HardResetOwnsNothing(now: int, item: Item)
    ensures Counter(ResetGameVariables(now), item) == 0
  {
  }

  function HardResetGame(s: State, now: int): (r: State)
    ensures r == ResetGameVariables(now)
  {
    ResetGameVariables(now)
  }

  /** A hard reset forgets the state it started from. */
  lemma HardResetForgets(s: State, t: State, now: int)
    ensures HardResetGame(s, now) == HardResetGame(t, now)
  {
  }

  /** The completed-quest record after a reset's quest loop: the entries
      keyed by the id of a non-permanent quest are deleted. */
  function DropNonPermanent(m: map<string, QuestEntry>): (r: map<string, QuestEntry>)
    ensures forall k :: k in r <==> k in m && k !in NonPermanentIds()
    ensures forall k :: k in r ==> r[k] == m[k]
  {
    m - NonPermanentIds()
  }

  /** The record is keyed by quest position, and a position key is never a
      quest id, so the loop deletes nothing from a record the quest machine
      filled. */
  lemma DropNonPermanentKeepsPositionKeys(m: map<string, QuestEntry>)
    requires forall k :: k in m ==> QuestLog.IsQuestKey(k)
    ensures DropNonPermanent(m) == m
  {
    forall k | k in m ensures k !in NonPermanentIds() {
      var j :| 0 <= j < |Quests| && QuestKey(j) == k;
      QuestKeyRoundTrip(j);
      if k in NonPermanentIds() {
        var i :| 0 <= i < |Quests| && !Quests[i].permanent && Quests[i].id == k;
        QuestIdIsNotAKey(i);
        assert false;
      }
    }
  }

  /** The fields softResetGame writes, before its rebuild and unlock check. */
  function SoftCleared(s: State): State {
    s.(bonsPoints := 0.0, images := 0, eleves := 0, classes := 0, professeurs := 0,
       totalClicks := 0, purchaseMultiplier := Units(1), flags := s.flags - StudyFlags,
       automation := {}, studies := EmptyTree, secretSkillClicks := 0,
       completedQuests := DropNonPermanent(s.completedQuests), paMultiplierFromQuests := 1.0)
  }

  /** softResetGame: the run's bons points, images, students, professeurs,
      clicks, study skills, automations, non-permanent quests and quest PA
      multiplier go; every ascension-tier and prestige-tier field stays. */
  function SoftReset(s: State): (r: State)
    ensures r.bonsPoints == 0.0 && r.images == 0 && r.eleves == 0 && r.classes == 0 && r.professeurs == 0
    ensures r.totalClicks == 0 && r.purchaseMultiplier == Units(1) && r.secretSkillClicks == 0
    ensures r.studies == EmptyTree && r.automation == {} && r.paMultiplierFromQuests == 1.0
    ensures r.completedQuests == DropNonPermanent(s.completedQuests)
    ensures r.schools == s.schools && r.lycees == s.lycees && r.colleges == s.colleges
    ensures r.ascensionPoints == s.ascensionPoints && r.ascensionCount == s.ascensionCount
    ensures r.totalPAEarned == s.totalPAEarned && r.ascensionBonus == s.ascensionBonus
    ensures r.ascension == s.ascension && r.prestige == s.prestige
    ensures r.prestigePoints == s.prestigePoints && r.prestigeCount == s.prestigeCount
    ensures r.licences == s.licences && r.master1 == s.master1 && r.master2 == s.master2
    ensures r.doctorats == s.doctorats && r.postDoctorats == s.postDoctorats
    ensures r.bonsPointsTotal == s.bonsPointsTotal && r.unlockedAchievements == s.unlockedAchievements
    ensures r.permanentBpsBonus == s.permanentBpsBonus
    ensures forall f :: f in s.flags && f !in StudyFlags ==> f in r.flags
    ensures ElevesUnlocked in r.flags && ClassesUnlocked !in r.flags
    ensures ImagesUnlocked !in r.flags && ProfesseurUnlocked !in r.flags
  {
    var t := SoftCleared(s);
    FreshRunFlags(ReadingsOf(t));
    Settle(t)
  }

  /** The fields superSoftResetGame writes, before its rebuild and unlock
      check: one prestige skill point is granted. */
  function SuperSoftCleared(s: State): State {
    s.(bonsPoints := 0.0, images := 0, eleves := 0, classes := 0, professeurs := 0,
       schools := 0, lycees := 0, colleges := 0,
       ascensionPoints := 0.0, ascensionCount := 0, totalPAEarned := 0.0, ascensionBonus := 1.0,
       totalClicks := 0, purchaseMultiplier := Units(1), flags := s.flags - PrestigeClearedFlags,
       automation := {}, studies := EmptyTree, ascension := EmptyTree,
       prestige := TreeState(s.prestige.points + 1, map[]), secretSkillClicks := 0,
       completedQuests := DropNonPermanent(s.completedQuests), paMultiplierFromQuests := 1.0,
       effects := Defaults)
  }

  /** superSoftResetGame: the soft reset plus every ascension-tier field and
      all three skill trees; the prestige tree keeps its points and gains
      one. Prestige points, the prestige count and the five prestige
      purchases stay, and the rebuilt accumulator reads only those
      purchases. */
  function SuperSoftReset(s: State): (r: State)
    ensures r.bonsPoints == 0.0 && r.images == 0 && r.eleves == 0 && r.classes == 0 && r.professeurs == 0
    ensures r.schools == 0 && r.lycees == 0 && r.colleges == 0
    ensures r.ascensionPoints == 0.0 && r.ascensionCount == 0 && r.totalPAEarned == 0.0 && r.ascensionBonus == 1.0
    ensures r.totalClicks == 0 && r.automation == {} && r.paMultiplierFromQuests == 1.0
    ensures r.studies == EmptyTree && r.ascension == EmptyTree
    ensures r.prestige == TreeState(s.prestige.points + 1, map[])
    ensures r.completedQuests == DropNonPermanent(s.completedQuests)
    ensures r.prestigePoints == s.prestigePoints && r.prestigeCount == s.prestigeCount
    ensures r.licences == s.licences && r.master1 == s.master1 && r.master2 == s.master2
    ensures r.doctorats == s.doctorats && r.postDoctorats == s.postDoctorats
    ensures r.bonsPointsTotal == s.bonsPointsTotal && r.unlockedAchievements == s.unlockedAchievements
    ensures forall f :: f in s.flags && f !in PrestigeClearedFlags ==> f in r.flags
    ensures forall f :: f in r.flags && f !in s.flags ==> f in LatchingFlags
    ensures r.effects == Rebuild(Inputs(map[], map[], map[], 1.0, s.licences, s.master1, s.master2,
                                        s.doctorats, s.postDoctorats))
  {
    var t := SuperSoftCleared(s);
    assert t.prestige == TreeState(s.prestige.points + 1, map[]);
    Settle(t)
  }
}
