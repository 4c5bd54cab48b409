/** The four study automations: the toggle buttons of events.js, the
    toggleAutomation of automation.js they duplicate, and runAutomation,
    which the game loop calls on every tick to buy one unit of each active
    item. */
module Automation {
  import opened Wrappers
  import opened GameData
  import opened SkillEffects
  import opened GameState
  import opened Costs
  import opened Production
  import opened QuestLog
  import opened Unlocks
  import opened Achievements
  import opened Purchase

  /** The base price, in ascension points, of each automation. */
  function AutomationBase(item: Item): (c: real)
    requires IsStudyItem(item)
    ensures c >= 100.0
  {
    match item
    case Eleve => 100.0
    case Classe => 500.0
    case Image => 10000.0
    case Professeur => 100000.0
  }

  /** The price of an automation under the current reductions. */
  function ToggleCost(s: State, item: Item): real
    requires IsStudyItem(item)
  {
    AutomationCost(s.effects, AutomationBase(item))
  }

  /** A toggle button: an active automation is switched off for free; an
      inactive one is switched on when the ascension points cover its price,
      which is then paid; otherwise nothing changes. No other automation
      and no other field moves. */
  function ToggleAutomation(s: State, item: Item): (r: State)
    requires IsStudyItem(item)
    ensures item in r.automation <==> item !in s.automation && s.ascensionPoints >= ToggleCost(s, item)
    ensures forall other :: other != item ==> (other in r.automation <==> other in s.automation)
    ensures item !in s.automation && s.ascensionPoints >= ToggleCost(s, item)
            ==> r.ascensionPoints == s.ascensionPoints - ToggleCost(s, item)
    ensures !(item !in s.automation && s.ascensionPoints >= ToggleCost(s, item))
            ==> r.ascensionPoints == s.ascensionPoints
    ensures r.(ascensionPoints := s.ascensionPoints, automation := s.automation) == s
  {
    var cost := ToggleCost(s, item);
    if item in s.automation then s.(automation := s.automation - {item})
    else if s.ascensionPoints >= cost then
      s.(ascensionPoints := s.ascensionPoints - cost, automation := s.automation + {item})
    else s
  }

  /** Switching an automation on and straight back off costs its price and
      nothing else. */
  lemma ToggleOnOff(s: State, item: Item)
    requires IsStudyItem(item)
    requires item !in s.automation && s.ascensionPoints >= ToggleCost(s, item)
    ensures ToggleAutomation(ToggleAutomation(s, item), item)
            == s.(ascensionPoints := s.ascensionPoints - ToggleCost(s, item))
  {
    var r := ToggleAutomation(s, item);
    assert r.automation - {item} == s.automation;
  }

  /** Switching off and on again restores the automation, and pays its price
      a second time, when it can be paid. */
  lemma ToggleOffOn(s: State, item: Item)
    requires IsStudyItem(item)
    requires item in s.automation
    ensures var r := ToggleAutomation(ToggleAutomation(s, item), item);
            (s.ascensionPoints >= ToggleCost(s, item) ==>
               r == s.(ascensionPoints := s.ascensionPoints - ToggleCost(s, item)))
            && (s.ascensionPoints < ToggleCost(s, item) ==> r == s.(automation := s.automation - {item}))
  {
    var u := ToggleAutomation(s, item);
    assert ToggleCost(u, item) == ToggleCost(s, item);
    assert u.automation + {item} == s.automation;
  }

  /** With reductions of at most one, a toggle never spends more ascension
      points than there are, and never adds any. */
  lemma ToggleFunds(s: State, item: Item)
    requires IsStudyItem(item)
    requires Get(s.effects, AutomationCostReduction) <= 1.0 && Get(s.effects, AllCostReduction) <= 1.0
    ensures var r := ToggleAutomation(s, item);
            r.ascensionPoints <= s.ascensionPoints
            && (s.ascensionPoints >= 0.0 ==> r.ascensionPoints >= 0.0)
  {
    AutomationCostBounds(s.effects, AutomationBase(item));
  }

  /** The item-type names toggleAutomation and runAutomation use. */
  function AutomationKey(item: Item): (key: string)
    requires IsStudyItem(item)
    ensures ParseItem(key) == Some(item)
  {
    match item
    case Eleve => "eleve"
    case Classe => "classe"
    case Image => "image"
    case Professeur => "Professeur"
  }

  /** The switch of toggleAutomation: the four item-type names. */
  function AutomationItem(key: string): (r: Option<Item>)
    ensures r.Some? ==> IsStudyItem(r.value) && AutomationKey(r.value) == key
  {
    if key == "eleve" then Some(Eleve)
    else if key == "classe" then Some(Classe)
    else if key == "image" then Some(Image)
    else if key == "Professeur" then Some(Professeur)
    else None
  }

  /** toggleAutomation of automation.js, with the flags read as the
      booleans they are: an unknown item type changes nothing, and the
      base price is the caller's. */
  function ToggleByKey(s: State, key: string, base: real): (r: State)
    ensures AutomationItem(key).None? ==> r == s
    ensures AutomationItem(key).Some? ==>
              var item := AutomationItem(key).value;
              (item in r.automation <==> item !in s.automation && s.ascensionPoints >= AutomationCost(s.effects, base))
              && forall other :: other != item ==> (other in r.automation <==> other in s.automation)
  {
    match AutomationItem(key)
    case None => s
    case Some(item) =>
      var cost := AutomationCost(s.effects, base);
      if item in s.automation then s.(automation := s.automation - {item})
      else if s.ascensionPoints >= cost then
        s.(ascensionPoints := s.ascensionPoints - cost, automation := s.automation + {item})
      else s
  }

  /** Called with the button's base price, toggleAutomation does what the
      button does. */
  lemma ToggleByKeyIsButton(s: State, item: Item)
    requires IsStudyItem(item)
    ensures ToggleByKey(s, AutomationKey(item), AutomationBase(item)) == ToggleAutomation(s, item)
  {
    assert AutomationItem(AutomationKey(item)) == Some(item);
  }

  /** The order in which runAutomation visits the automations. */
  const AutomationOrder: seq<Item> := [Eleve, Classe, Image, Professeur]

  /** A purchase never switches an automation. */
  lemma PerformPurchaseKeepsAutomation(s: State, key: string, q: Quantity)
    ensures PerformPurchase(s, key, q).automation == s.automation
  {
  }

  /** The loop body for one automation, reading the flag from the state it
      is handed. */
  function AutoStep(s: State, item: Item): (r: State)
    requires IsStudyItem(item)
    ensures r.automation == s.automation
    ensures item !in s.automation ==> r == s
  {
    if item in s.automation then
      PerformPurchaseKeepsAutomation(s, AutomationKey(item), Units(1));
      PerformPurchase(s, AutomationKey(item), Units(1))
    else s
  }

  /** The steps for items[k..], in order. */
  function AutoRun(s: State, items: seq<Item>, k: nat): (r: State)
    requires k <= |items| && forall i :: 0 <= i < |items| ==> IsStudyItem(items[i])
    ensures r.automation == s.automation
    decreases |items| - k
  {
    if k == |items| then s
    else AutoRun(AutoStep(s, items[k]), items, k + 1)
  }

  /** runAutomation as intended: each active automation buys one unit of
      its item, in the order élève, classe, image, professeur. */
  function RunAutomation(s: State): (r: State)
    ensures r.automation == s.automation
  {
    AutoRun(s, AutomationOrder, 0)
  }

  /** A value a JavaScript test can read: `undefined`, or a boolean. */
  datatype JsValue = Undefined | JsBool(b: bool)

  /** `flag.value` for a boolean flag: a boolean has no `value` property. */
  function ValueProperty(flag: bool): JsValue {
    Undefined
  }

  /** Does an `if` on the value take its branch? */
  predicate Truthy(v: JsValue) {
    v.JsBool? && v.b
  }

  /** One guarded purchase of runAutomation: the test reads the `value`
      property of the item's flag. */
  function GuardedStep(s: State, item: Item): State
    requires IsStudyItem(item)
  {
    if Truthy(ValueProperty(item in s.automation)) then PerformPurchase(s, AutomationKey(item), Units(1))
    else s
  }

  /** runAutomation as written: the four guarded purchases in order. Since
      no test passes, nothing is bought. */
  function RunAutomationAsWritten(s: State): (r: State)
    ensures r == s
  {
    var s1 := GuardedStep(s, Eleve);
    var s2 := GuardedStep(s1, Classe);
    var s3 := GuardedStep(s2, Image);
    GuardedStep(s3, Professeur)
  }

  /** The automations that are active, in visiting order. */
  function Active(items: seq<Item>, on: set<Item>): (r: seq<Item>)
    ensures forall i :: 0 <= i < |r| ==> r[i] in on && r[i] in items
    ensures forall i :: 0 <= i < |items| && items[i] in on ==> items[i] in r
    ensures |r| <= |items|
  {
    if |items| == 0 then []
    else if items[0] in on then [items[0]] + Active(items[1..], on)
    else Active(items[1..], on)
  }

  /** One-unit purchases of each listed item, in order. */
  function BuyEach(s: State, items: seq<Item>): State
    requires forall i :: 0 <= i < |items| ==> IsStudyItem(items[i])
    decreases |items|
  {
    if |items| == 0 then s
    else BuyEach(PerformPurchase(s, AutomationKey(items[0]), Units(1)), items[1..])
  }

  /** Since a purchase never switches an automation, the flags read along
      the way are the ones the run began with: the run is exactly one
      purchase of each initially active item, in order. */
  lemma {:induction false} AutoRunBuysActive(s: State, items: seq<Item>, k: nat)
    requires k <= |items| && forall i :: 0 <= i < |items| ==> IsStudyItem(items[i])
    ensures forall i :: 0 <= i < |items[k..]| ==> IsStudyItem(items[k..][i])
    ensures AutoRun(s, items, k) == BuyEach(s, Active(items[k..], s.automation))
    decreases |items| - k
  {
    assert forall i :: 0 <= i < |items[k..]| ==> items[k..][i] == items[k + i];
    if k < |items| {
      var u := AutoStep(s, items[k]);
      AutoRunBuysActive(u, items, k + 1);
      assert items[k..][1..] == items[k + 1..];
      assert u.automation == s.automation;
      if items[k] in s.automation {
        assert Active(items[k..], s.automation) == [items[k]] + Active(items[k + 1..], s.automation);
      } else {
        assert Active(items[k..], s.automation) == Active(items[k + 1..], s.automation);
      }
    }
  }

  lemma RunAutomationBuysActive(s: State)
    ensures RunAutomation(s) == BuyEach(s, Active(AutomationOrder, s.automation))
  {
    AutoRunBuysActive(s, AutomationOrder, 0);
    assert AutomationOrder[0..] == AutomationOrder;
  }

  /** With no automation active the run changes nothing, as the written
      run never does. */
  lemma RunWithoutAutomation(s: State)
    requires s.automation == {}
    ensures RunAutomation(s) == s == RunAutomationAsWritten(s)
  {
    RunAutomationBuysActive(s);
    assert Active(AutomationOrder, {}) == [];
  }

  /** The discrepancy: with one automation active whose one-unit purchase
      goes through, the intended run buys that unit and the written run
      does not. */
  lemma AsWrittenMissesPurchase(s: State, item: Item)
    requires IsStudyItem(item) && s.automation == {item}
    requires Outcome(CheckAchievements(s), item, Units(1)).count == 1
    ensures Counter(RunAutomation(s), item) == Counter(s, item) + 1
    ensures RunAutomation(s) != RunAutomationAsWritten(s)
  {
    RunAlone(s, item);
    AutoStepBuysOne(s, item);
    CheckKeepsStudyCounter(s, item);
  }

  /** With one automation on, the run is that automation's step. */
  lemma RunAlone(s: State, item: Item)
    requires IsStudyItem(item) && s.automation == {item}
    ensures RunAutomation(s) == AutoStep(s, item)
  {
    RunAutomationBuysActive(s);
    ActiveAlone(item);
    assert [item][1..] == [];
  }

  /** The achievement check leaves the four automated counters alone. */
  lemma CheckKeepsStudyCounter(s: State, item: Item)
    requires IsStudyItem(item)
    ensures Counter(CheckAchievements(s), item) == Counter(s, item)
  {
  }

  /** With one automation on, the active list is that one item. */
  lemma ActiveAlone(item: Item)
    requires IsStudyItem(item)
    ensures Active(AutomationOrder, {item}) == [item]
  {
    var o := AutomationOrder;
    assert o[1..] == [Classe, Image, Professeur] && o[1..][1..] == [Image, Professeur];
    assert o[1..][1..][1..] == [Professeur] && o[1..][1..][1..][1..] == [];
    var a3 := Active(o[1..][1..][1..], {item});
    assert a3 == if item == Professeur then [item] else [];
    var a2 := Active(o[1..][1..], {item});
    assert a2 == if item == Image then [item] + a3 else a3;
    var a1 := Active(o[1..], {item});
    assert a1 == if item == Classe then [item] + a2 else a2;
  }

  /** An active automation's step is a one-unit purchase after the
      achievement check. */
  lemma AutoStepIsBuy(s: State, item: Item)
    requires IsStudyItem(item) && item in s.automation
    ensures AutoStep(s, item) == Buy(CheckAchievements(s), item, Units(1))
  {
    assert ParseItem(AutomationKey(item)) == Some(item);
  }

  /** So its counter rises by at most one, and by one when the purchase goes
      through. */
  lemma AutoStepBuysOne(s: State, item: Item)
    requires IsStudyItem(item) && item in s.automation
    ensures var s1 := CheckAchievements(s);
            var r := AutoStep(s, item);
            Counter(r, item) == Counter(s1, item) + Outcome(s1, item, Units(1)).count
            && Counter(r, item) <= Counter(s1, item) + 1
  {
    AutoStepIsBuy(s, item);
    BuyOutcome(CheckAchievements(s), item, Units(1));
  }
}
