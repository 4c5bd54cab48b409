/** prestige.js: the prestige point gain, performPrestige and
    performPrestigePurchase, each as written and as evidently intended. */
module PrestigeActions {
  import opened Wrappers
  import opened Numeric
  import opened GameData
  import opened GameState
  import opened Costs
  import opened Production
  import opened Unlocks
  import opened Resets
  import opened Purchase

  /** calculatePPGained: one prestige point per whole 1e5 ascension points
      ever earned, none below the first 1e5. */
  function PPGained(s: State): (g: real)
    ensures IsIntegral(g) && g >= 0.0
    ensures s.totalPAEarned < PrestigePointThreshold ==> g == 0.0
    ensures s.totalPAEarned >= PrestigePointThreshold ==>
              1.0 <= g && g * PrestigePointThreshold <= s.totalPAEarned < (g + 1.0) * PrestigePointThreshold
  {
    Tranches(s.totalPAEarned, PrestigePointThreshold)
  }

  /** What performPrestige adds before its reset. */
  function GrantPrestige(s: State, g: real): State {
    s.(prestigeCount := s.prestigeCount + 1, prestigePoints := s.prestigePoints + g)
  }

  /** performPrestige as written: below one point of gain nothing happens;
      otherwise the grant is made and then resetGameVariables, which reads
      none of the state, wipes it together with everything else. */
  function PerformPrestigeAsWritten(s: State, now: int): (r: State)
    ensures PPGained(s) < 1.0 ==> r == s
    ensures PPGained(s) >= 1.0 ==>
              r.prestigePoints == 0.0 && r.prestigeCount == 0 && r.prestige == EmptyTree
              && r.licences == 0 && r.doctorats == 0 && r.lastUpdate == now
  {
    if PPGained(s) < 1.0 then s
    else
      var u := ResetGameVariables(now);
      var r := ApplyAllSkillEffects(u);
      assert Kept(u, r);
      r
  }

  /** The state a prestige of gain g leaves after s: the grant is kept, the
      ascension tier is cleared, and the prestige purchases and achievements
      stay. */
  predicate Prestiged(s: State, g: real, r: State) {
    r.prestigeCount == s.prestigeCount + 1 && r.prestigePoints == s.prestigePoints + g
    && r.bonsPoints == 0.0 && r.images == 0 && r.professeurs == 0
    && r.schools == 0 && r.lycees == 0 && r.colleges == 0
    && r.ascensionPoints == 0.0 && r.ascensionCount == 0 && r.totalPAEarned == 0.0 && r.ascensionBonus == 1.0
    && r.licences == s.licences && r.master1 == s.master1 && r.master2 == s.master2
    && r.doctorats == s.doctorats && r.postDoctorats == s.postDoctorats
    && r.unlockedAchievements == s.unlockedAchievements && r.bonsPointsTotal == s.bonsPointsTotal
  }

  /** The trees after a prestige: the studies and ascension trees are
      cleared, and the prestige tree is cleared and gains one point. */
  predicate PrestigedTrees(s: State, r: State) {
    r.prestige == TreeState(s.prestige.points + 1, map[])
    && r.studies == EmptyTree && r.ascension == EmptyTree
  }

  /** performPrestige as intended: the grant followed by superSoftResetGame,
      which keeps the prestige tier, and a rebuild. */
  function PerformPrestige(s: State): (r: State)
    ensures PPGained(s) < 1.0 ==> r == s
  {
    var g := PPGained(s);
    if g < 1.0 then s
    else ApplyAllSkillEffects(SuperSoftReset(GrantPrestige(s, g)))
  }

  /** A prestige with some gain keeps its grant, clears the lower tiers and
      resets the trees. */
  lemma PerformPrestigeOutcome(s: State)
    requires PPGained(s) >= 1.0
    ensures Prestiged(s, PPGained(s), PerformPrestige(s))
    ensures PrestigedTrees(s, PerformPrestige(s))
  {
    GrantThenSuperSoftReset(s, PPGained(s));
    GrantThenSuperSoftResetTrees(s, PPGained(s));
  }

  lemma GrantThenSuperSoftReset(s: State, g: real)
    ensures Prestiged(s, g, ApplyAllSkillEffects(SuperSoftReset(GrantPrestige(s, g))))
  {
    var u := SuperSoftReset(GrantPrestige(s, g));
    assert Prestiged(s, g, u);
    var r := ApplyAllSkillEffects(u);
    assert Kept(u, r);
  }

  lemma GrantThenSuperSoftResetTrees(s: State, g: real)
    ensures PrestigedTrees(s, ApplyAllSkillEffects(SuperSoftReset(GrantPrestige(s, g))))
  {
    ApplyKeepsTrees(SuperSoftReset(GrantPrestige(s, g)));
  }

  /** As written the prestige points just granted are lost, and the result
      is the same whatever state the prestige started from; the intended
      prestige keeps them. */
  lemma PrestigeGrantWiped(s: State, t: State, now: int)
    requires PPGained(s) >= 1.0 && PPGained(t) >= 1.0
    requires s.prestigePoints >= 0.0
    ensures PerformPrestigeAsWritten(s, now) == PerformPrestigeAsWritten(t, now)
    ensures PerformPrestigeAsWritten(s, now).prestigePoints == 0.0
    ensures PerformPrestige(s).prestigePoints >= 1.0
  {
  }

  /** `prestigePurchasesData[key]`: the table is an array, so only its
      index keys "0" … "4" find a row. */
  function IndexedRow(key: string): (r: Option<PrestigePurchase>)
    ensures r.Some? ==> |key| == 1 && r.value in PrestigePurchases
  {
    if key == DecimalKey(0) then Some(PrestigePurchases[0])
    else if key == DecimalKey(1) then Some(PrestigePurchases[1])
    else if key == DecimalKey(2) then Some(PrestigePurchases[2])
    else if key == DecimalKey(3) then Some(PrestigePurchases[3])
    else if key == DecimalKey(4) then Some(PrestigePurchases[4])
    else None
  }

  /** The `switch (purchaseId)` that picks the counter: the five purchase
      names. */
  function CounterOf(key: string): (r: Option<Item>)
    ensures r.Some? ==> IsPrestigeItem(r.value) && |key| >= 7
    ensures r.Some? <==> FindPurchase(key).Some?
  {
    if key == "licence" then Some(Licence)
    else if key == "master1" then Some(Master1)
    else if key == "master2" then Some(Master2)
    else if key == "doctorat" then Some(Doctorat)
    else if key == "postDoctorat" then Some(PostDoctorat)
    else None
  }

  /** The purchase once a row and a counter are found: refused below the
      price, otherwise one unit is paid in prestige points, the accumulator
      rebuilt and the unlocks checked. */
  function BuyPrestigeUnit(s: State, item: Item): (r: State)
    requires IsPrestigeItem(item)
    ensures s.prestigePoints < PrestigeCost(item, Counter(s, item)) ==> r == s
  {
    var cost := PrestigeCost(item, Counter(s, item));
    if s.prestigePoints < cost then s
    else AfterPrestigeBuy(Pay(s, item, Bought(1, cost)))
  }

  /** The rebuild and unlock check that follow a paid prestige unit. */
  function AfterPrestigeBuy(s: State): (r: State)
    ensures SameHoldings(s, r)
  {
    var a := ApplyAllSkillEffects(s);
    assert SameHoldings(s, a);
    CheckUnlocks(a)
  }

  /** An affordable unit costs exactly its price in prestige points and
      raises only its own counter. */
  lemma BuyPrestigeUnitOutcome(s: State, item: Item)
    requires IsPrestigeItem(item)
    requires s.prestigePoints >= PrestigeCost(item, Counter(s, item))
    ensures var r := BuyPrestigeUnit(s, item);
            Funds(r, PrestigePoints) == Funds(s, PrestigePoints) - PrestigeCost(item, Counter(s, item))
            && Counter(r, item) == Counter(s, item) + 1
            && (forall other :: other != item ==> Counter(r, other) == Counter(s, other))
            && (forall c :: c != PrestigePoints ==> Funds(r, c) == Funds(s, c))
  {
    var b := Bought(1, PrestigeCost(item, Counter(s, item)));
    var r := AfterPrestigeBuy(Pay(s, item, b));
    assert BuyPrestigeUnit(s, item) == r;
    PaidOutcome(s, item, b, r);
  }

  /** performPrestigePurchase as written: the row is looked up by array
      index and the counter by name. No key passes both lookups, an index
      key being one character long and every name longer, so nothing is
      ever bought. */
  function PerformPrestigePurchaseAsWritten(s: State, key: string): (r: State)
    ensures r == s
  {
    match IndexedRow(key)
    case None => s
    case Some(_) =>
      match CounterOf(key)
      case None => s
      case Some(item) => assert false; s
  }

  /** performPrestigePurchase as intended: the row looked up by its id;
      an unknown id and an unaffordable price change nothing. */
  function PerformPrestigePurchase(s: State, id: string): (r: State)
    ensures FindPurchase(id).None? ==> r == s
    ensures FindPurchase(id).Some? ==>
              var item := FindPurchase(id).value.item;
              s.prestigePoints < PrestigeCost(item, Counter(s, item)) ==> r == s
  {
    match FindPurchase(id)
    case None => s
    case Some(p) => BuyPrestigeUnit(s, p.item)
  }

  /** Each purchase name finds its own row, so buying by name is buying
      one unit of that item. */
  lemma PrestigePurchaseByName(s: State, item: Item)
    requires IsPrestigeItem(item)
    ensures PerformPrestigePurchase(s, PurchaseRow(item).id) == BuyPrestigeUnit(s, item)
  {
    match item
    case Licence => assert FindPurchase("licence") == Some(PurchaseRow(item));
    case Master1 => assert FindPurchase("master1") == Some(PurchaseRow(item));
    case Master2 => assert FindPurchase("master2") == Some(PurchaseRow(item));
    case Doctorat => assert FindPurchase("doctorat") == Some(PurchaseRow(item));
    case PostDoctorat => assert FindPurchase("postDoctorat") == Some(PurchaseRow(item));
  }
}
