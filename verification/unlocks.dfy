/** checkUnlockConditions of core.js: latching flags that only ever switch
    on, each when its threshold is met. */
module Unlocks {
  import opened GameData
  import opened GameState
  import opened QuestLog

  /** The flags checkUnlockConditions sets; the option flags it only shows
      (multi-purchase, max purchase, new settings, automation category) are
      set by their own buttons. */
  const LatchingFlags: set<Flag> := {
    ElevesUnlocked, ClassesUnlocked, ImagesUnlocked, ProfesseurUnlocked,
    AscensionMenuButton, AscensionUnlocked, PrestigeMenuButton, PrestigeUnlocked,
    SkillsButton, SettingsButton, QuestsUnlocked, AchievementsButton,
    LyceesUnlocked, CollegesUnlocked,
    StudiesSkillsPanel, AscensionSkillsPanel, PrestigeSkillsPanel
  }

  /** The fields the thresholds read. */
  datatype Readings = Readings(
    bonsPoints: real, images: nat, professeurs: nat, ascensionCount: nat, totalPAEarned: real,
    studiesPoints: nat, ascensionPoints: nat, prestigePoints: nat, totalClicks: nat,
    schools: nat, lycees: nat)

  function ReadingsOf(s: State): Readings {
    Readings(s.bonsPoints, s.images, s.professeurs, s.ascensionCount, s.totalPAEarned,
             s.studies.points, s.ascension.points, s.prestige.points, s.totalClicks,
             s.schools, s.lycees)
  }

  /** The threshold each latching flag waits for. The menu and the ascension
      itself both unlock at one professeur. */
  predicate Meets(v: Readings, f: Flag) {
    match f
    case ElevesUnlocked => true
    case ClassesUnlocked => v.bonsPoints >= 100.0
    case ImagesUnlocked => v.bonsPoints >= 1000.0
    case ProfesseurUnlocked => v.images >= 1
    case AscensionMenuButton => v.professeurs >= 1
    case AscensionUnlocked => v.professeurs >= 1
    case PrestigeMenuButton => v.ascensionCount >= 1
    case PrestigeUnlocked => v.totalPAEarned >= 1.0
    case SkillsButton => v.studiesPoints >= 1 || v.ascensionPoints >= 1 || v.prestigePoints >= 1
    case SettingsButton => v.totalClicks >= 10
    case QuestsUnlocked => v.totalClicks >= 5
    case AchievementsButton => v.totalClicks >= 15
    case LyceesUnlocked => v.schools >= 1
    case CollegesUnlocked => v.lycees >= 1
    case StudiesSkillsPanel => v.studiesPoints > 0
    case AscensionSkillsPanel => v.ascensionPoints > 0
    case PrestigeSkillsPanel => v.prestigePoints > 0
    case _ => false
  }

  predicate Earned(s: State, f: Flag) {
    Meets(ReadingsOf(s), f)
  }

  /** The flags whose threshold the readings meet. */
  function FlagsMet(v: Readings): (r: set<Flag>)
    ensures forall f :: f in r <==> f in LatchingFlags && Meets(v, f)
  {
    set f | f in LatchingFlags && Meets(v, f)
  }

  /** The flags whose threshold the state meets. */
  function EarnedFlags(s: State): (r: set<Flag>)
    ensures forall f :: f in r <==> f in LatchingFlags && Earned(s, f)
  {
    FlagsMet(ReadingsOf(s))
  }

  /** With no bons points and no image yet, of the four study flags only
      the élève unlock is earned. */
  lemma FreshRunFlags(v: Readings)
    requires v.bonsPoints < 100.0 && v.images == 0
    ensures ElevesUnlocked in FlagsMet(v) && ClassesUnlocked !in FlagsMet(v)
    ensures ImagesUnlocked !in FlagsMet(v) && ProfesseurUnlocked !in FlagsMet(v)
  {
  }

  /** Readings all at zero earn the élève unlock and nothing else. */
  lemma ZeroReadingsFlags()
    ensures FlagsMet(Readings(0.0, 0, 0, 0, 0.0, 0, 0, 0, 0, 0, 0)) == {ElevesUnlocked}
  {
    var v := Readings(0.0, 0, 0, 0, 0.0, 0, 0, 0, 0, 0, 0);
    forall f ensures f in FlagsMet(v) <==> f == ElevesUnlocked {
      assert f in LatchingFlags && Meets(v, f) <==> f == ElevesUnlocked;
    }
  }

  /** checkUnlockConditions: every met threshold switches its flag on. The
      quest log unlocking for the first time also runs updateQuestProgress.
      No threshold reads a flag or the quest log, so the checks may be taken
      together. */
  function CheckUnlocks(s: State): (r: State)
    ensures s.flags <= r.flags
    ensures r.(flags := s.flags, completedQuests := s.completedQuests) == s
    ensures Kept(s, r) && r.effects == s.effects && r.totalBps == s.totalBps
    ensures r.flags == s.flags + EarnedFlags(s)
    ensures QuestsUnlocked in s.flags || s.totalClicks < 5 ==> r.completedQuests == s.completedQuests
    ensures ElevesUnlocked in r.flags
    ensures forall f :: f in r.flags <==> f in s.flags || (f in LatchingFlags && Earned(s, f))
    ensures QuestsUnlocked !in s.flags && s.totalClicks >= 5 ==>
              r == UpdateQuestProgress(s).(flags := s.flags + EarnedFlags(s))
    ensures !(QuestsUnlocked !in s.flags && s.totalClicks >= 5) ==> r == s.(flags := s.flags + EarnedFlags(s))
  {
    var t := if QuestsUnlocked !in s.flags && s.totalClicks >= 5 then UpdateQuestProgress(s) else s;
    t.(flags := s.flags + EarnedFlags(s))
  }

  /** The thresholds read neither flags nor quests. */
  lemma EarnedIgnoresFlagsAndQuests(s: State, fs: set<Flag>, m: map<string, QuestEntry>, f: Flag)
    ensures Earned(s.(flags := fs, completedQuests := m), f) == Earned(s, f)
  {
  }

  /** After a check the quest-log flag is on whenever the clicks earn it. */
  lemma QuestFlagAfterCheck(s: State)
    ensures QuestsUnlocked in CheckUnlocks(s).flags || CheckUnlocks(s).totalClicks < 5
  {
    var r := CheckUnlocks(s);
    assert r.totalClicks == s.totalClicks;
    if s.totalClicks >= 5 {
      assert QuestsUnlocked in LatchingFlags && Earned(s, QuestsUnlocked);
    }
  }

  /** A check earns the same flags whatever the flags and the quest log. */
  lemma EarnedFlagsIgnoresFlagsAndQuests(s: State, fs: set<Flag>, m: map<string, QuestEntry>)
    ensures EarnedFlags(s.(flags := fs, completedQuests := m)) == EarnedFlags(s)
  {
    forall f ensures Earned(s.(flags := fs, completedQuests := m), f) == Earned(s, f) {
      EarnedIgnoresFlagsAndQuests(s, fs, m, f);
    }
  }

  /** A second check right after the first changes nothing. */
  lemma CheckUnlocksIdempotent(s: State)
    ensures CheckUnlocks(CheckUnlocks(s)) == CheckUnlocks(s)
  {
    var r := CheckUnlocks(s);
    QuestFlagAfterCheck(s);
    assert CheckUnlocks(r) == r.(flags := r.flags + EarnedFlags(r));
    assert r == s.(flags := r.flags, completedQuests := r.completedQuests);
    EarnedFlagsIgnoresFlagsAndQuests(s, r.flags, r.completedQuests);
    assert EarnedFlags(r) <= r.flags;
    assert r.flags + EarnedFlags(r) == r.flags;
  }

  /** A flag that was on stays on, and one that the state has not earned and
      was off stays off. */
  lemma CheckUnlocksLatches(s: State, f: Flag)
    ensures f in s.flags ==> f in CheckUnlocks(s).flags
    ensures f !in s.flags && !(f in LatchingFlags && Earned(s, f)) ==> f !in CheckUnlocks(s).flags
  {
  }
}
