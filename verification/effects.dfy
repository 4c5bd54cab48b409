/** The effects accumulator (`skillEffects` of core.js): its defaults, and how
    one skill effect, one skill and one whole tree change it. */
module SkillEffects {
  import opened Wrappers
  import opened GameData

  /** The accumulator. A field absent from `values` holds its default; only
      `doctoratMinClasses` is a plain count. */
  datatype Effects = Effects(values: map<Field, real>, doctoratMinClasses: nat)

  /** The value resetSkillEffects gives a field: 1 for multipliers, 0 for
      bonuses and reductions. The four gain multipliers that the prestige
      skills scale are absent from the reset and read as 1 here. */
  function DefaultOf(f: Field): (r: real)
    ensures r == 0.0 || r == 1.0
  {
    match f
    case EleveBpsMultiplier | ClasseBpsMultiplier | ImageBpsMultiplier | ProfesseurBpsMultiplier
      | AllBpsMultiplier | PaGainMultiplier | AllProductionMultiplier
      | EcoleMultiplier | LyceeMultiplier | CollegeMultiplier
      | PpGainMultiplier | StudiesSkillPointGain | AscensionSkillPointGain | PrestigeSkillPointGain => 1.0
    case _ => 0.0
  }

  function Get(e: Effects, f: Field): real {
    if f in e.values then e.values[f] else DefaultOf(f)
  }

  /** resetSkillEffects. */
  const Defaults: Effects := Effects(map[], 0)

  /** Two accumulators that read the same on every field. */
  predicate Same(a: Effects, b: Effects) {
    a.doctoratMinClasses == b.doctoratMinClasses && forall f :: Get(a, f) == Get(b, f)
  }

  /** `field = field.add(amount)` or `field = field.times(factor)`. */
  function ApplyStep(e: Effects, st: Step): (r: Effects)
    ensures st.Add? ==> Get(r, st.field) == Get(e, st.field) + st.amount
    ensures st.Scale? ==> Get(r, st.field) == Get(e, st.field) * st.factor
    ensures forall g :: g != st.field ==> Get(r, g) == Get(e, g)
    ensures r.doctoratMinClasses == e.doctoratMinClasses
  {
    match st
    case Add(f, a) => e.(values := e.values[f := Get(e, f) + a])
    case Scale(f, k) => e.(values := e.values[f := Get(e, f) * k])
  }

  /** The step a skill effect takes at a level, if any: a per-level addition
      adds `rate × level`, a per-level scaling multiplies by `1 + rate × level`,
      and a first-level effect fires only when the level is exactly 1. */
  function StepAt(eff: SkillEffect, level: nat): (r: Option<Step>)
    ensures r.Some? ==> r.value.field == FieldOf(eff)
    ensures eff.AtFirstLevel? ==> (r.Some? <==> level == 1)
    ensures !eff.AtFirstLevel? ==> r.Some?
  {
    match eff
    case PerLevelAdd(f, rate) => Some(Add(f, rate * level as real))
    case PerLevelScale(f, rate) => Some(Scale(f, 1.0 + rate * level as real))
    case AtFirstLevel(st) => if level == 1 then Some(st) else None
  }

  function FieldOf(eff: SkillEffect): Field {
    match eff
    case PerLevelAdd(f, _) => f
    case PerLevelScale(f, _) => f
    case AtFirstLevel(st) => st.field
  }

  function ApplyEffect(e: Effects, eff: SkillEffect, level: nat): (r: Effects)
    ensures forall g :: g != FieldOf(eff) ==> Get(r, g) == Get(e, g)
    ensures r.doctoratMinClasses == e.doctoratMinClasses
  {
    match StepAt(eff, level)
    case Some(st) => ApplyStep(e, st)
    case None => e
  }

  /** `skill.effect(level, skillEffects)`: every effect of the skill, in order. */
  function ApplySkill(e: Effects, effs: seq<SkillEffect>, level: nat): (r: Effects)
    ensures r.doctoratMinClasses == e.doctoratMinClasses
    decreases |effs|
  {
    if |effs| == 0 then e else ApplySkill(ApplyEffect(e, effs[0], level), effs[1..], level)
  }

  /** One tree's loop of applyAllSkillEffects: each skill of the table that has
      a recorded level applies its effect at that level; recorded keys that
      name no skill of the table are skipped. */
  function ApplyTree(e: Effects, table: seq<Skill>, levels: map<SkillId, nat>): (r: Effects)
    ensures r.doctoratMinClasses == e.doctoratMinClasses
    decreases |table|
  {
    if |table| == 0 then e
    else
      var e1 := if table[0].id in levels then ApplySkill(e, table[0].effects, levels[table[0].id]) else e;
      ApplyTree(e1, table[1..], levels)
  }

  /** Does some effect in the list act on field f? */
  predicate Touches(effs: seq<SkillEffect>, f: Field) {
    exists k :: 0 <= k < |effs| && FieldOf(effs[k]) == f
  }

  predicate TreeTouches(table: seq<Skill>, f: Field) {
    exists k :: 0 <= k < |table| && Touches(table[k].effects, f)
  }

  /** Every skill effect at level 0 leaves every field as it was. */
  lemma {:induction false} ApplySkillAtLevelZero(e: Effects, effs: seq<SkillEffect>)
    ensures Same(ApplySkill(e, effs, 0), e)
    decreases |effs|
  {
    if |effs| > 0 {
      var e1 := ApplyEffect(e, effs[0], 0);
      assert Same(e1, e) by {
        match effs[0]
        case PerLevelAdd(f, rate) =>
          assert Get(e1, f) == Get(e, f) + rate * 0.0;
        case PerLevelScale(f, rate) =>
          assert Get(e1, f) == Get(e, f) * (1.0 + rate * 0.0);
        case AtFirstLevel(_) =>
      }
      ApplySkillAtLevelZero(e1, effs[1..]);
      SameRespected(e1, e, effs[1..], 0);
    }
  }

  /** Applying a skill to two accumulators that read the same gives two that
      read the same. */
  lemma {:induction false} SameRespected(a: Effects, b: Effects, effs: seq<SkillEffect>, level: nat)
    requires Same(a, b)
    ensures Same(ApplySkill(a, effs, level), ApplySkill(b, effs, level))
    decreases |effs|
  {
    if |effs| > 0 {
      var a1 := ApplyEffect(a, effs[0], level);
      var b1 := ApplyEffect(b, effs[0], level);
      assert Same(a1, b1) by {
        match StepAt(effs[0], level)
        case Some(st) =>
          assert Get(a, st.field) == Get(b, st.field);
        case None =>
      }
      SameRespected(a1, b1, effs[1..], level);
    }
  }

  /** A skill leaves untouched every field none of its effects names. */
  lemma {:induction false} ApplySkillUntouched(e: Effects, effs: seq<SkillEffect>, level: nat, f: Field)
    requires !Touches(effs, f)
    ensures Get(ApplySkill(e, effs, level), f) == Get(e, f)
    decreases |effs|
  {
    if |effs| > 0 {
      assert FieldOf(effs[0]) != f;
      assert !Touches(effs[1..], f) by {
        forall k | 0 <= k < |effs[1..]| ensures FieldOf(effs[1..][k]) != f {
          assert effs[1..][k] == effs[k + 1];
        }
      }
      ApplySkillUntouched(ApplyEffect(e, effs[0], level), effs[1..], level, f);
    }
  }

  /** A tree leaves untouched every field no skill of it names. */
  lemma {:induction false} ApplyTreeUntouched(e: Effects, table: seq<Skill>, levels: map<SkillId, nat>, f: Field)
    requires !TreeTouches(table, f)
    ensures Get(ApplyTree(e, table, levels), f) == Get(e, f)
    decreases |table|
  {
    if |table| > 0 {
      assert !Touches(table[0].effects, f);
      var e1 := if table[0].id in levels then ApplySkill(e, table[0].effects, levels[table[0].id]) else e;
      if table[0].id in levels {
        ApplySkillUntouched(e, table[0].effects, levels[table[0].id], f);
      }
      assert !TreeTouches(table[1..], f) by {
        forall k | 0 <= k < |table[1..]| ensures !Touches(table[1..][k].effects, f) {
          assert table[1..][k] == table[k + 1];
        }
      }
      ApplyTreeUntouched(e1, table[1..], levels, f);
    }
  }

  /** A tree whose recorded levels are all zero leaves the accumulator reading
      as it did. */
  lemma {:induction false} ApplyTreeAtLevelZero(e: Effects, table: seq<Skill>, levels: map<SkillId, nat>)
    requires forall id :: id in levels ==> levels[id] == 0
    ensures Same(ApplyTree(e, table, levels), e)
    decreases |table|
  {
    if |table| > 0 {
      var e1 := if table[0].id in levels then ApplySkill(e, table[0].effects, levels[table[0].id]) else e;
      if table[0].id in levels {
        ApplySkillAtLevelZero(e, table[0].effects);
      }
      ApplyTreeAtLevelZero(e1, table[1..], levels);
      SameTreeRespected(e1, e, table[1..], levels);
    }
  }

  lemma {:induction false} SameTreeRespected(a: Effects, b: Effects, table: seq<Skill>, levels: map<SkillId, nat>)
    requires Same(a, b)
    ensures Same(ApplyTree(a, table, levels), ApplyTree(b, table, levels))
    decreases |table|
  {
    if |table| > 0 {
      var a1 := if table[0].id in levels then ApplySkill(a, table[0].effects, levels[table[0].id]) else a;
      var b1 := if table[0].id in levels then ApplySkill(b, table[0].effects, levels[table[0].id]) else b;
      if table[0].id in levels {
        SameRespected(a, b, table[0].effects, levels[table[0].id]);
      }
      SameTreeRespected(a1, b1, table[1..], levels);
    }
  }

  /** The additive study skills are linear in their level: click power adds
      0.1 per level and each cost-reduction skill 0.05 per level, to its own
      field only. */
  lemma AdditiveStudySkillsLinear(e: Effects, level: nat)
    ensures Get(ApplySkill(e, StudySkills[0].effects, level), ClickBonus) == Get(e, ClickBonus) + 0.1 * level as real
    ensures Get(ApplySkill(e, StudySkills[6].effects, level), EleveCostReduction)
            == Get(e, EleveCostReduction) + 0.05 * level as real
    ensures Get(ApplySkill(e, StudySkills[7].effects, level), ClasseCostReduction)
            == Get(e, ClasseCostReduction) + 0.05 * level as real
    ensures Get(ApplySkill(e, StudySkills[8].effects, level), ImageCostReduction)
            == Get(e, ImageCostReduction) + 0.05 * level as real
    ensures Get(ApplySkill(e, StudySkills[9].effects, level), ProfesseurCostReduction)
            == Get(e, ProfesseurCostReduction) + 0.05 * level as real
  {
    var effs := [PerLevelAdd(EleveCostReduction, 0.05)];
    assert ApplySkill(e, effs, level) == ApplySkill(ApplyEffect(e, effs[0], level), [], level);
  }

  /** At most their maximum level the four per-item cost-reduction skills add
      at most 5 × 0.05 = 0.25, well below a full reduction. */
  lemma CostReductionSkillsBelowOne(e: Effects, k: nat, level: nat)
    requires 6 <= k <= 9
    requires level <= StudySkills[k].maxLevel
    ensures StudySkills[k].maxLevel == 5
    ensures StudySkills[k].effects[0].PerLevelAdd?
    ensures 0.0 <= StudySkills[k].effects[0].rate * level as real <= 0.25 < 1.0
  {
  }

  /** Every field reads at least its default: multipliers at least 1, bonuses
      and reductions at least 0. */
  predicate WellSigned(e: Effects) {
    forall f :: Get(e, f) >= DefaultOf(f)
  }

  /** An effect that can only raise its field: non-negative rates and
      additions, scalings by at least 1. */
  predicate Raising(eff: SkillEffect) {
    match eff
    case PerLevelAdd(_, rate) => rate >= 0.0
    case PerLevelScale(_, rate) => rate >= 0.0
    case AtFirstLevel(Add(_, a)) => a >= 0.0
    case AtFirstLevel(Scale(_, k)) => k >= 1.0
  }

  predicate TableRaising(table: seq<Skill>) {
    forall k, j :: 0 <= k < |table| && 0 <= j < |table[k].effects| ==> Raising(table[k].effects[j])
  }

  /** Every effect of the three skill tables only raises its field. */
  lemma TablesRaising(t: Tree)
    ensures TableRaising(SkillTable(t))
  {
  }

  lemma EffectKeepsWellSigned(e: Effects, eff: SkillEffect, level: nat)
    requires WellSigned(e) && Raising(eff)
    ensures WellSigned(ApplyEffect(e, eff, level))
  {
    var r := ApplyEffect(e, eff, level);
    var f := FieldOf(eff);
    var v := Get(e, f);
    assert v >= DefaultOf(f) >= 0.0;
    match StepAt(eff, level)
    case None =>
    case Some(Add(_, a)) =>
      assert a >= 0.0;
    case Some(Scale(_, k)) =>
      assert k >= 1.0;
      assert v * k >= v * 1.0;
  }

  /** Applying a raising skill keeps every field at or above its default. */
  lemma {:induction false} SkillKeepsWellSigned(e: Effects, effs: seq<SkillEffect>, level: nat)
    requires WellSigned(e)
    requires forall j :: 0 <= j < |effs| ==> Raising(effs[j])
    ensures WellSigned(ApplySkill(e, effs, level))
    decreases |effs|
  {
    if |effs| > 0 {
      EffectKeepsWellSigned(e, effs[0], level);
      assert forall j :: 0 <= j < |effs[1..]| ==> Raising(effs[1..][j]) by {
        forall j | 0 <= j < |effs[1..]| ensures Raising(effs[1..][j]) {
          assert effs[1..][j] == effs[j + 1];
        }
      }
      SkillKeepsWellSigned(ApplyEffect(e, effs[0], level), effs[1..], level);
    }
  }

  /** Applying a raising tree at any levels keeps every field at or above its
      default. */
  lemma {:induction false} TreeKeepsWellSigned(e: Effects, table: seq<Skill>, levels: map<SkillId, nat>)
    requires WellSigned(e) && TableRaising(table)
    ensures WellSigned(ApplyTree(e, table, levels))
    decreases |table|
  {
    if |table| > 0 {
      var e1 := if table[0].id in levels then ApplySkill(e, table[0].effects, levels[table[0].id]) else e;
      if table[0].id in levels {
        assert forall j :: 0 <= j < |table[0].effects| ==> Raising(table[0].effects[j]);
        SkillKeepsWellSigned(e, table[0].effects, levels[table[0].id]);
      }
      assert TableRaising(table[1..]) by {
        forall k, j | 0 <= k < |table[1..]| && 0 <= j < |table[1..][k].effects|
          ensures Raising(table[1..][k].effects[j])
        {
          assert table[1..][k] == table[k + 1];
        }
      }
      TreeKeepsWellSigned(e1, table[1..], levels);
    }
  }
}
