/** The effects rebuild (applyAllSkillEffects), total production
    (calculateTotalBPS) and offline progress of core.js. */
module Production {
  import opened Numeric
  import opened GameData
  import opened SkillEffects
  import opened GameState

  /** What each prestige purchase unit adds in the rebuild: a flat 0.01,
      whatever the purchase table says. */
  const PrestigeUnitContribution: real := 0.01

  /** Minimum classes demanded per doctorate. */
  const DoctoratMinClassesPerUnit: nat := 5

  /** What the rebuild reads from the state: the three trees' levels, the
      quest PA multiplier and the five prestige purchase counts. */
  datatype Inputs = Inputs(
    studies: map<SkillId, nat>, ascension: map<SkillId, nat>, prestige: map<SkillId, nat>,
    questMultiplier: real,
    licences: nat, master1: nat, master2: nat, doctorats: nat, postDoctorats: nat)

  function InputsOf(s: State): Inputs {
    Inputs(s.studies.levels, s.ascension.levels, s.prestige.levels, s.paMultiplierFromQuests,
           s.licences, s.master1, s.master2, s.doctorats, s.postDoctorats)
  }

  /** The accumulator after the studies loop, then the ascension loop, then
      the prestige loop. */
  function StudiesApplied(i: Inputs): Effects {
    TreeLoop(Defaults, Studies, i.studies)
  }

  function AscensionApplied(i: Inputs): Effects {
    TreeLoop(StudiesApplied(i), Ascension, i.ascension)
  }

  function SkillsApplied(i: Inputs): Effects {
    TreeLoop(AscensionApplied(i), Prestige, i.prestige)
  }

  /** One tree's loop over its table. */
  function TreeLoop(e: Effects, t: Tree, levels: map<SkillId, nat>): Effects {
    ApplyTree(e, SkillTable(t), levels)
  }

  /** The five accumulator fields the prestige purchases feed. */
  predicate PrestigeField(f: Field) {
    f == LicenceProfMultiplier || f == Master1ClassProduction || f == Master2ClassProduction
    || f == DoctoratBpsBonus || f == PostDoctoratPaGain
  }

  /** The purchase count feeding a prestige field. */
  function PrestigeCount(i: Inputs, f: Field): nat {
    match f
    case LicenceProfMultiplier => i.licences
    case Master1ClassProduction => i.master1
    case Master2ClassProduction => i.master2
    case DoctoratBpsBonus => i.doctorats
    case _ => i.postDoctorats
  }

  /** No skill of any tree acts on a prestige field. */
  lemma PrestigeFieldsUntouched(f: Field, t: Tree)
    requires PrestigeField(f)
    ensures !TreeTouches(SkillTable(t), f)
  {
  }

  /** The prestige-count contributions: 0.01 per unit added to each of the
      five prestige fields. */
  function AddPrestigeContributions(e: Effects, i: Inputs): (r: Effects)
    ensures forall f :: !PrestigeField(f) ==> Get(r, f) == Get(e, f)
    ensures forall f :: PrestigeField(f) ==> Get(r, f) == Get(e, f) + PrestigeUnitContribution * PrestigeCount(i, f) as real
    ensures r.doctoratMinClasses == e.doctoratMinClasses
  {
    var e1 := Contribute(e, i, LicenceProfMultiplier);
    var e2 := Contribute(e1, i, Master1ClassProduction);
    var e3 := Contribute(e2, i, Master2ClassProduction);
    var e4 := Contribute(e3, i, DoctoratBpsBonus);
    Contribute(e4, i, PostDoctoratPaGain)
  }

  /** One prestige field's contribution: 0.01 per unit owned. */
  function Contribute(e: Effects, i: Inputs, f: Field): (r: Effects)
    ensures Get(r, f) == Get(e, f) + PrestigeUnitContribution * PrestigeCount(i, f) as real
    ensures forall g :: g != f ==> Get(r, g) == Get(e, g)
    ensures r.doctoratMinClasses == e.doctoratMinClasses
  {
    ApplyStep(e, Add(f, PrestigeUnitContribution * PrestigeCount(i, f) as real))
  }

  /** The steps of the rebuild that follow the skill loops, applied to the
      accumulator `a` they leave: the quest PA multiplier, the prestige
      contributions and the doctorate class minimum. */
  function FinishRebuild(a: Effects, i: Inputs): (r: Effects)
    ensures r.doctoratMinClasses == DoctoratMinClassesPerUnit * i.doctorats
    ensures Get(r, PaGainMultiplier) == Get(a, PaGainMultiplier) * i.questMultiplier
    ensures forall f :: f != PaGainMultiplier && !PrestigeField(f) ==> Get(r, f) == Get(a, f)
    ensures forall f :: PrestigeField(f) ==> Get(r, f) == Get(a, f) + PrestigeUnitContribution * PrestigeCount(i, f) as real
  {
    PaGainNotPrestige();
    WithMinClasses(AddPrestigeContributions(ScaleQuest(a, i.questMultiplier), i),
                   DoctoratMinClassesPerUnit * i.doctorats)
  }

  /** The quest multiplier applied to the PA gain multiplier. */
  function ScaleQuest(a: Effects, q: real): (r: Effects)
    ensures Get(r, PaGainMultiplier) == Get(a, PaGainMultiplier) * q
    ensures forall g :: g != PaGainMultiplier ==> Get(r, g) == Get(a, g)
  {
    ApplyStep(a, Scale(PaGainMultiplier, q))
  }

  /** `doctoratMinClasses` set, every other field kept. */
  function WithMinClasses(e: Effects, n: nat): (r: Effects)
    ensures forall f :: Get(r, f) == Get(e, f)
    ensures r.doctoratMinClasses == n
  {
    e.(doctoratMinClasses := n)
  }

  lemma PaGainNotPrestige()
    ensures !PrestigeField(PaGainMultiplier)
  {
  }

  /** The accumulator applyAllSkillEffects rebuilds from scratch. */
  function Rebuild(i: Inputs): Effects {
    FinishRebuild(SkillsApplied(i), i)
  }

  function RebuildEffects(s: State): Effects {
    Rebuild(InputsOf(s))
  }

  /** Each prestige field reads exactly 0.01 per unit owned, whatever the
      skill levels. */
  lemma PrestigeFieldReadsItsCount(i: Inputs, f: Field)
    requires PrestigeField(f)
    ensures Get(Rebuild(i), f) == PrestigeUnitContribution * PrestigeCount(i, f) as real
  {
    SkillsLeavePrestigeField(i, f);
  }

  /** The per-unit rates of the purchase table differ from the flat 0.01 the
      rebuild adds: 0.02 for a Master I, 0.05 for a Master II, 0.10 for a
      doctorate, 0.05 for a post-doctorate. */
  lemma PrestigeTableRatesIgnored()
    ensures PrestigePurchases[0].effectRate == PrestigeUnitContribution
    ensures forall k :: 1 <= k < |PrestigePurchases| ==> PrestigePurchases[k].effectRate > PrestigeUnitContribution
  {
  }

  /** No tree's loop acts on a prestige field. */
  lemma TreeLeavesPrestigeField(e: Effects, t: Tree, levels: map<SkillId, nat>, f: Field)
    requires PrestigeField(f)
    ensures Get(TreeLoop(e, t, levels), f) == Get(e, f)
  {
    PrestigeFieldsUntouched(f, t);
    ApplyTreeUntouched(e, SkillTable(t), levels, f);
  }

  /** The skill loops leave each prestige field at its default 0. */
  lemma SkillsLeavePrestigeField(i: Inputs, f: Field)
    requires PrestigeField(f)
    ensures Get(SkillsApplied(i), f) == 0.0
  {
    StudiesLeave(i, f);
    AscensionLeave(i, f);
    PrestigeLeave(i, f);
    PrestigeDefaultZero(f);
  }

  /** Each loop in turn passes a prestige field through. */
  lemma StudiesLeave(i: Inputs, f: Field)
    requires PrestigeField(f)
    ensures Get(StudiesApplied(i), f) == Get(Defaults, f)
  {
    TreeLeavesPrestigeField(Defaults, Studies, i.studies, f);
  }

  lemma AscensionLeave(i: Inputs, f: Field)
    requires PrestigeField(f)
    ensures Get(AscensionApplied(i), f) == Get(StudiesApplied(i), f)
  {
    TreeLeavesPrestigeField(StudiesApplied(i), Ascension, i.ascension, f);
  }

  lemma PrestigeLeave(i: Inputs, f: Field)
    requires PrestigeField(f)
    ensures Get(SkillsApplied(i), f) == Get(AscensionApplied(i), f)
  {
    TreeLeavesPrestigeField(AscensionApplied(i), Prestige, i.prestige, f);
  }

  /** The prestige fields start at 0. */
  lemma PrestigeDefaultZero(f: Field)
    requires PrestigeField(f)
    ensures Get(Defaults, f) == 0.0
  {
  }

  /** With a quest multiplier of at least 1, the rebuilt accumulator keeps
      every multiplier at least 1 and every other field at least 0. */
  lemma RebuildWellSigned(i: Inputs)
    requires i.questMultiplier >= 1.0
    ensures WellSigned(Rebuild(i))
  {
    SkillsAppliedWellSigned(i);
    FinishKeepsWellSigned(SkillsApplied(i), i);
  }

  /** Each tree's loop keeps every field at or above its default. */
  lemma TreeStepWellSigned(e: Effects, t: Tree, levels: map<SkillId, nat>)
    requires WellSigned(e)
    ensures WellSigned(TreeLoop(e, t, levels))
  {
    TablesRaising(t);
    TreeKeepsWellSigned(e, SkillTable(t), levels);
  }

  /** The three skill loops keep every field at or above its default. */
  lemma SkillsAppliedWellSigned(i: Inputs)
    ensures WellSigned(SkillsApplied(i))
  {
    AscensionAppliedWellSigned(i);
    TreeStepWellSigned(AscensionApplied(i), Prestige, i.prestige);
  }

  lemma AscensionAppliedWellSigned(i: Inputs)
    ensures WellSigned(AscensionApplied(i))
  {
    StudiesAppliedWellSigned(i);
    TreeStepWellSigned(StudiesApplied(i), Ascension, i.ascension);
  }

  lemma StudiesAppliedWellSigned(i: Inputs)
    ensures WellSigned(StudiesApplied(i))
  {
    assert WellSigned(Defaults);
    TreeStepWellSigned(Defaults, Studies, i.studies);
  }

  lemma FinishKeepsWellSigned(a: Effects, i: Inputs)
    requires WellSigned(a) && i.questMultiplier >= 1.0
    ensures WellSigned(FinishRebuild(a, i))
  {
    forall f ensures Get(FinishRebuild(a, i), f) >= DefaultOf(f) {
      if f == PaGainMultiplier {
        assert Get(a, f) >= DefaultOf(f);
        FinishPaGainAtLeastOne(a, i);
      } else if PrestigeField(f) {
        assert Get(a, f) >= DefaultOf(f);
        FinishPrestigeNonNegative(a, i, f);
      }
    }
  }

  lemma FinishPaGainAtLeastOne(a: Effects, i: Inputs)
    requires Get(a, PaGainMultiplier) >= 1.0 && i.questMultiplier >= 1.0
    ensures Get(FinishRebuild(a, i), PaGainMultiplier) >= 1.0
  {
    ScaleWeak(1.0, Get(a, PaGainMultiplier), i.questMultiplier);
  }

  lemma FinishPrestigeNonNegative(a: Effects, i: Inputs, f: Field)
    requires Get(a, f) >= 0.0 && PrestigeField(f)
    ensures Get(FinishRebuild(a, i), f) >= 0.0
  {
  }

  /** Production from students: 0.5 per élève and 25 per classe, the class
      output multiplied by (professeurs + 1). */
  function StudiesProduction(s: State): real {
    EleveBpsPerItem * s.eleves as real * Get(s.effects, EleveBpsMultiplier)
    + ClasseBpsPerItem * s.classes as real * (s.professeurs as real + 1.0) * Get(s.effects, ClasseBpsMultiplier)
  }

  /** The product of the global multipliers: ascension (bonus × (1 + increase)),
      prestige (constant 1), achievements (1 + permanent bonus), all-BPS and
      all-production. */
  function GlobalMultiplier(s: State): real {
    s.ascensionBonus * (Get(s.effects, AscensionBonusIncrease) + 1.0)
    * 1.0
    * (s.permanentBpsBonus + 1.0)
    * Get(s.effects, AllBpsMultiplier)
    * Get(s.effects, AllProductionMultiplier)
  }

  /** calculateTotalBPS. */
  function TotalBps(s: State): real {
    StudiesProduction(s) * GlobalMultiplier(s)
  }

  /** No élèves and no classes: nothing is produced, whatever the multipliers. */
  lemma NoStudentsNoProduction(s: State)
    requires s.eleves == 0 && s.classes == 0
    ensures TotalBps(s) == 0.0
  {
    assert StudiesProduction(s) == 0.0;
  }

  /** With sane multipliers, production is never negative, and classes
      produce even without a single professeur. */
  lemma ProductionSigns(s: State)
    requires WellSigned(s.effects)
    requires s.ascensionBonus > 0.0 && s.permanentBpsBonus >= 0.0
    ensures TotalBps(s) >= 0.0
    ensures s.classes > 0 ==> TotalBps(s) > 0.0
  {
    var em := Get(s.effects, EleveBpsMultiplier);
    var cm := Get(s.effects, ClasseBpsMultiplier);
    assert em >= 1.0 && cm >= 1.0;
    var ev := EleveBpsPerItem * s.eleves as real;
    var cv := ClasseBpsPerItem * s.classes as real * (s.professeurs as real + 1.0);
    assert ev >= 0.0 && cv >= 0.0;
    assert ev * em >= 0.0 && cv * cm >= 0.0;
    assert s.classes > 0 ==> cv > 0.0 && cv * cm > 0.0;
    var g1 := s.ascensionBonus * (Get(s.effects, AscensionBonusIncrease) + 1.0);
    assert g1 > 0.0;
    var g2 := g1 * 1.0 * (s.permanentBpsBonus + 1.0);
    assert g2 > 0.0;
    var g3 := g2 * Get(s.effects, AllBpsMultiplier);
    assert g3 > 0.0;
    var g := g3 * Get(s.effects, AllProductionMultiplier);
    assert g > 0.0;
    assert GlobalMultiplier(s) == g;
    var p := StudiesProduction(s);
    assert p >= 0.0;
    assert s.classes > 0 ==> p > 0.0;
    assert p * g >= 0.0;
    assert s.classes > 0 ==> p * g > 0.0;
  }

  /** Scaling the all-BPS multiplier by k scales production by k: each global
      multiplier enters as a factor. */
  lemma AllBpsScalesProduction(s: State, k: real)
    ensures TotalBps(s.(effects := ApplyStep(s.effects, Scale(AllBpsMultiplier, k)))) == k * TotalBps(s)
  {
    var t := s.(effects := ApplyStep(s.effects, Scale(AllBpsMultiplier, k)));
    assert StudiesProduction(t) == StudiesProduction(s);
    var a := s.ascensionBonus * (Get(s.effects, AscensionBonusIncrease) + 1.0) * 1.0 * (s.permanentBpsBonus + 1.0);
    var b := Get(s.effects, AllBpsMultiplier);
    var c := Get(s.effects, AllProductionMultiplier);
    assert GlobalMultiplier(s) == a * b * c;
    assert GlobalMultiplier(t) == a * (b * k) * c;
    assert a * (b * k) * c == k * (a * b * c);
  }

  /** applyAllSkillEffects: rebuild the accumulator, then recompute production. */
  function ApplyAllSkillEffects(s: State): (r: State)
    ensures r.(effects := s.effects, totalBps := s.totalBps) == s
    ensures Kept(s, r) && r.flags == s.flags && r.completedQuests == s.completedQuests
    ensures r.effects == RebuildEffects(s)
    ensures r.effects.doctoratMinClasses == DoctoratMinClassesPerUnit * s.doctorats
    ensures r.totalBps == TotalBps(r)
  {
    var t := s.(effects := RebuildEffects(s));
    TotalBpsIgnoresTotal(t, TotalBps(t));
    t.(totalBps := TotalBps(t))
  }

  /** The rebuild leaves the three trees alone. */
  lemma ApplyKeepsTrees(u: State)
    ensures ApplyAllSkillEffects(u).prestige == u.prestige && ApplyAllSkillEffects(u).studies == u.studies
    ensures ApplyAllSkillEffects(u).ascension == u.ascension
  {
  }

  lemma TotalBpsIgnoresTotal(s: State, x: real)
    ensures TotalBps(s.(totalBps := x)) == TotalBps(s)
  {
  }

  /** The rebuild reads only skill levels, the quest multiplier and the
      prestige counts, and none of these does it change: a second rebuild
      changes nothing. */
  lemma ApplyAllSkillEffectsIdempotent(s: State)
    ensures ApplyAllSkillEffects(ApplyAllSkillEffects(s)) == ApplyAllSkillEffects(s)
  {
    var r := ApplyAllSkillEffects(s);
    assert InputsOf(r) == InputsOf(s);
  }

  /** Offline time is counted in whole milliseconds; the gain needs more than
      a minute. */
  const OfflineThresholdSeconds: real := 60.0

  function ElapsedSeconds(s: State, now: int): real {
    (now - s.lastUpdate) as real / 1000.0
  }

  /** The bons points earned offline: the cached production total raised by
      the offline increase, times the seconds elapsed. */
  function OfflineGain(s: State, now: int): real {
    s.totalBps * (Get(s.effects, OfflineProductionIncrease) + 1.0) * ElapsedSeconds(s, now)
  }

  /** calculateOfflineProgress, with the clock reading passed in as `now`. */
  function OfflineProgress(s: State, now: int): (r: State)
    ensures !s.offlineProgressEnabled ==> r == s
    ensures s.offlineProgressEnabled ==> r.lastUpdate == now
    ensures s.offlineProgressEnabled && ElapsedSeconds(s, now) <= OfflineThresholdSeconds ==> r == s.(lastUpdate := now)
    ensures s.offlineProgressEnabled && ElapsedSeconds(s, now) > OfflineThresholdSeconds ==>
              r == s.(lastUpdate := now, bonsPoints := s.bonsPoints + OfflineGain(s, now),
                      bonsPointsTotal := s.bonsPointsTotal + OfflineGain(s, now))
  {
    if !s.offlineProgressEnabled then s
    else
      var t := ElapsedSeconds(s, now);
      if t > OfflineThresholdSeconds then
        var g := OfflineGain(s, now);
        s.(bonsPoints := s.bonsPoints + g, bonsPointsTotal := s.bonsPointsTotal + g, lastUpdate := now)
      else s.(lastUpdate := now)
  }

  /** Offline progress never takes bons points away when the cached total and
      the offline increase are non-negative, and both totals rise by the same
      amount. */
  lemma OfflineGainNonNegative(s: State, now: int)
    requires s.totalBps >= 0.0 && Get(s.effects, OfflineProductionIncrease) >= 0.0
    ensures OfflineProgress(s, now).bonsPoints >= s.bonsPoints
    ensures OfflineProgress(s, now).bonsPoints - s.bonsPoints
            == OfflineProgress(s, now).bonsPointsTotal - s.bonsPointsTotal
  {
    if s.offlineProgressEnabled && ElapsedSeconds(s, now) > OfflineThresholdSeconds {
      var b := s.totalBps;
      var m := Get(s.effects, OfflineProductionIncrease) + 1.0;
      assert b * m >= 0.0;
      assert b * m * ElapsedSeconds(s, now) >= 0.0;
    }
  }

  /** The only call, in loadGameState at start-up, comes before the load
      rebuilds the accumulator, which then still holds its initial values:
      the offline increase reads 0, so the gain is the loaded total times the
      seconds elapsed, whatever offline skill levels were loaded. */
  lemma OfflineProgressAtLoad(s: State, now: int)
    requires s.effects == Defaults
    requires s.offlineProgressEnabled && ElapsedSeconds(s, now) > OfflineThresholdSeconds
    ensures OfflineProgress(s, now).bonsPoints == s.bonsPoints + s.totalBps * ElapsedSeconds(s, now)
  {
    assert Get(Defaults, OfflineProductionIncrease) == 0.0;
  }

  /** A second offline check at the same instant finds no time elapsed. */
  lemma OfflineProgressAtSameInstant(s: State, now: int)
    ensures OfflineProgress(OfflineProgress(s, now), now) == OfflineProgress(s, now)
  {
  }
}
