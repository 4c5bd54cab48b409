/** The price of the next unit of every purchasable item: the study items of
    studies.js (reduced and floored), the ascension structures of
    ascension.js, the prestige purchases of prestige.js, and the automation
    price of automation.js. */
module Costs {
  import opened Numeric
  import opened GameData
  import opened SkillEffects

  /** Base price and growth ratio of a study item. */
  function StudyBase(item: Item): real
    requires IsStudyItem(item)
  {
    match item
    case Eleve => 10.0
    case Classe => 100.0
    case Image => 1000.0
    case Professeur => 10.0
  }

  function StudyRatio(item: Item): real
    requires IsStudyItem(item)
  {
    match item
    case Eleve => 1.15
    case Classe => 1.2
    case Image => 1.25
    case Professeur => 1.3
  }

  /** The accumulator field holding a study item's own cost reduction. */
  function ReductionField(item: Item): Field
    requires IsStudyItem(item)
  {
    match item
    case Eleve => EleveCostReduction
    case Classe => ClasseCostReduction
    case Image => ImageCostReduction
    case Professeur => ProfesseurCostReduction
  }

  /** A reduction usable as a fraction off the price. */
  predicate Fraction(x: real) {
    0.0 <= x <= 1.0
  }

  /** The unfloored study price: base × ratio^n × (1 − own reduction) × (1 − global reduction). */
  function RawStudyCost(e: Effects, item: Item, n: nat): real
    requires IsStudyItem(item)
  {
    Scaled(StudyBase(item), Pow(StudyRatio(item), n),
           1.0 - Get(e, ReductionField(item)), 1.0 - Get(e, AllCostReduction))
  }

  /** A price times two discount factors. */
  function Scaled(base: real, growth: real, own: real, all: real): real {
    base * growth * own * all
  }

  /** calculateNext{Eleve,Classe,Image,Professor}Cost: the unfloored price
      rounded down to a whole number. */
  function StudyCost(e: Effects, item: Item, n: nat): (c: real)
    requires IsStudyItem(item)
    ensures IsIntegral(c)
    ensures c <= RawStudyCost(e, item, n) < c + 1.0
  {
    RawStudyCost(e, item, n).Floor as real
  }

  /** With both reductions zero, the first unit costs exactly the base price. */
  lemma StudyCostAtZero(e: Effects, item: Item)
    requires IsStudyItem(item)
    requires Get(e, ReductionField(item)) == 0.0 && Get(e, AllCostReduction) == 0.0
    ensures StudyCost(e, item, 0) == StudyBase(item)
  {
    assert RawStudyCost(e, item, 0) == StudyBase(item);
  }

  /** With reductions between 0 and 1, the price is a non-negative whole
      number that never falls as more units are owned. */
  lemma StudyCostMonotone(e: Effects, item: Item, m: nat, n: nat)
    requires IsStudyItem(item)
    requires Fraction(Get(e, ReductionField(item))) && Fraction(Get(e, AllCostReduction))
    requires m <= n
    ensures 0.0 <= StudyCost(e, item, m) <= StudyCost(e, item, n)
  {
    RawStudyCostMonotone(e, item, m, n);
    var xm, xn := RawStudyCost(e, item, m), RawStudyCost(e, item, n);
    FloorMonotone(0.0, xm);
    FloorMonotone(xm, xn);
  }

  lemma RawStudyCostMonotone(e: Effects, item: Item, m: nat, n: nat)
    requires IsStudyItem(item)
    requires Fraction(Get(e, ReductionField(item))) && Fraction(Get(e, AllCostReduction))
    requires m <= n
    ensures 0.0 <= RawStudyCost(e, item, m) <= RawStudyCost(e, item, n)
  {
    var base, ratio := StudyBase(item), StudyRatio(item);
    var a, b := 1.0 - Get(e, ReductionField(item)), 1.0 - Get(e, AllCostReduction);
    PowMonotone(ratio, m, n);
    PowAtLeastOne(ratio, m);
    ProductMonotone(base, Pow(ratio, m), Pow(ratio, n), a, b);
  }

  /** Scaling two ordered non-negative prices by the same non-negative factors keeps them ordered. */
  lemma ProductMonotone(base: real, pm: real, pn: real, a: real, b: real)
    requires base >= 0.0 && 0.0 <= pm <= pn && a >= 0.0 && b >= 0.0
    ensures 0.0 <= Scaled(base, pm, a, b) <= Scaled(base, pn, a, b)
  {
    MulMonotone(pm, pn, base);
    MulNonNegative(base, pm);
    MulMonotone(base * pm, base * pn, a);
    MulNonNegative(base * pm, a);
    MulMonotone(base * pm * a, base * pn * a, b);
    MulNonNegative(base * pm * a, b);
  }

  lemma MulMonotone(x: real, y: real, c: real)
    requires x <= y && c >= 0.0
    ensures x * c <= y * c && c * x <= c * y
  {
  }

  lemma MulNonNegative(x: real, y: real)
    requires x >= 0.0 && y >= 0.0
    ensures x * y >= 0.0
  {
  }

  lemma FloorMonotone(x: real, y: real)
    requires x <= y
    ensures x.Floor <= y.Floor
  {
  }

  /** Base price and ratio of the ascension structures (initialCosts and
      ascension.js). */
  predicate IsStructure(item: Item) {
    item.Ecole? || item.Lycee? || item.College?
  }

  function StructureBase(item: Item): real
    requires IsStructure(item)
  {
    match item
    case Ecole => 1.0
    case Lycee => 5.0
    case College => 25.0
  }

  function StructureRatio(item: Item): real
    requires IsStructure(item)
  {
    match item
    case Ecole => 1.15
    case Lycee => 1.18
    case College => 1.2
  }

  /** calculateNext{Ecole,Lycee,College}Cost: no reduction, no rounding. */
  function StructureCost(item: Item, n: nat): real
    requires IsStructure(item)
  {
    StructureBase(item) * Pow(StructureRatio(item), n)
  }

  /** Each structure's price starts at its base and strictly rises with the
      number owned. */
  lemma StructureCostStrictlyIncreasing(item: Item, m: nat, n: nat)
    requires IsStructure(item)
    requires m < n
    ensures StructureCost(item, 0) == StructureBase(item)
    ensures 0.0 < StructureCost(item, m) < StructureCost(item, n)
  {
    PowStrictlyIncreasing(StructureRatio(item), m, n);
    PowPositive(StructureRatio(item), m);
    var b := StructureBase(item);
    assert b * Pow(StructureRatio(item), m) < b * Pow(StructureRatio(item), n);
  }

  /** calculate{Licence,Master1,Master2,Doctorat,PostDoctorat}Cost:
      baseCost × costMultiplier^n from the purchase table. */
  function PrestigeCost(item: Item, n: nat): real
    requires IsPrestigeItem(item)
  {
    PurchaseRow(item).baseCost * Pow(PurchaseRow(item).costMultiplier, n)
  }

  /** Each prestige price starts at the table's base cost and strictly rises
      with the number owned. */
  lemma PrestigeCostStrictlyIncreasing(item: Item, m: nat, n: nat)
    requires IsPrestigeItem(item)
    requires m < n
    ensures PrestigeCost(item, 0) == PurchaseRow(item).baseCost
    ensures 0.0 < PrestigeCost(item, m) < PrestigeCost(item, n)
  {
    var p := PurchaseRow(item);
    PrestigeMultipliersAboveOne();
    assert p.costMultiplier > 1.0 && p.baseCost > 0.0;
    PowStrictlyIncreasing(p.costMultiplier, m, n);
    PowPositive(p.costMultiplier, m);
    assert p.baseCost * Pow(p.costMultiplier, m) < p.baseCost * Pow(p.costMultiplier, n);
  }

  /** calculateAutomationCost: each reduction is applied only when it is
      positive. */
  function AutomationCost(e: Effects, base: real): (c: real)
    ensures Get(e, AutomationCostReduction) <= 0.0 && Get(e, AllCostReduction) <= 0.0 ==> c == base
  {
    var a := Get(e, AutomationCostReduction);
    var g := Get(e, AllCostReduction);
    var c1 := if a > 0.0 then base * (1.0 - a) else base;
    if g > 0.0 then c1 * (1.0 - g) else c1
  }

  /** For reductions between 0 and 1 the automation price lies between 0 and
      its base; a non-positive reduction is ignored rather than raising it. */
  lemma AutomationCostBounds(e: Effects, base: real)
    requires base >= 0.0
    requires Get(e, AutomationCostReduction) <= 1.0 && Get(e, AllCostReduction) <= 1.0
    ensures 0.0 <= AutomationCost(e, base) <= base
  {
    var a := Get(e, AutomationCostReduction);
    var g := Get(e, AllCostReduction);
    var c1 := if a > 0.0 then base * (1.0 - a) else base;
    if a > 0.0 {
      Discount(base, a);
    }
    assert 0.0 <= c1 <= base;
    if g > 0.0 {
      Discount(c1, g);
    }
  }

  /** The price function performPurchase picks for an item. */
  function CostOf(e: Effects, item: Item, n: nat): real {
    if IsStudyItem(item) then StudyCost(e, item, n)
    else if IsStructure(item) then StructureCost(item, n)
    else PrestigeCost(item, n)
  }

  /** Prices are never negative for reductions between 0 and 1, and items paid
      in images always cost a whole number. */
  lemma CostOfSane(e: Effects, item: Item, n: nat)
    requires Fraction(Get(e, ReductionField(Eleve))) && Fraction(Get(e, ReductionField(Classe)))
    requires Fraction(Get(e, ReductionField(Image))) && Fraction(Get(e, ReductionField(Professeur)))
    requires Fraction(Get(e, AllCostReduction))
    ensures CostOf(e, item, n) >= 0.0
    ensures CurrencyOf(item) == Images ==> IsIntegral(CostOf(e, item, n))
  {
    if IsStudyItem(item) {
      StudyCostMonotone(e, item, n, n);
    } else if IsStructure(item) {
      StructureCostStrictlyIncreasing(item, n, n + 1);
    } else {
      PrestigeCostStrictlyIncreasing(item, n, n + 1);
    }
  }
}
