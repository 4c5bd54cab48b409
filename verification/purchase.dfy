/** The purchase loop of performPurchase (core.js): buy unit after unit while
    the next one is affordable, up to the requested quantity or, for 'max',
    up to 100 000 units, then debit the exact total once. */
module Purchase {
  import opened Wrappers
  import opened Numeric
  import opened GameData
  import opened SkillEffects
  import opened GameState
  import opened Costs
  import opened Production
  import opened QuestLog
  import opened Unlocks
  import opened Achievements

  /** How many units the loop may attempt. */
  function Limit(q: Quantity): (k: nat)
    ensures q.Units? ==> k == q.n
    ensures q.Max? ==> k == MaxPurchaseIterations
  {
    match q
    case Units(n) => n
    case Max => MaxPurchaseIterations
  }

  /** A price list: the price of unit number n. */
  type PriceList = nat -> real

  /** The price list of an item under the current effects. */
  function PriceOf(e: Effects, item: Item): PriceList {
    (n: nat) => CostOf(e, item, n)
  }

  /** The price of k consecutive units, the first being unit number n. */
  function SumCosts(price: PriceList, n: nat, k: nat): real
    decreases k
  {
    if k == 0 then 0.0 else price(n) + SumCosts(price, n + 1, k - 1)
  }

  /** Prefix sums split at any point. */
  lemma {:induction false} SumCostsSplit(price: PriceList, n: nat, j: nat, k: nat)
    requires j <= k
    ensures SumCosts(price, n, k) == SumCosts(price, n, j) + SumCosts(price, n + j, k - j)
    decreases j
  {
    if j > 0 {
      SumCostsSplit(price, n + 1, j - 1, k - 1);
    }
  }

  /** The loop's outcome: units bought and their total price. */
  datatype Bought = Bought(count: nat, total: real)

  /** Can each of the first k units be paid for in turn out of `funds`? */
  predicate AffordableRun(price: PriceList, n: nat, funds: real, k: nat) {
    forall j :: 0 <= j < k ==> SumCosts(price, n, j) + price(n + j) <= funds
  }

  /** The loop itself, from unit number n with `funds` in hand and `limit`
      attempts left. It stops at the first unit it cannot pay for. */
  function Resolve(price: PriceList, n: nat, funds: real, limit: nat): (b: Bought)
    ensures b.count <= limit
    ensures b.total == SumCosts(price, n, b.count)
    decreases limit
  {
    if limit == 0 then Bought(0, 0.0)
    else if funds >= price(n) then
      var rest := Resolve(price, n + 1, funds - price(n), limit - 1);
      Bought(rest.count + 1, price(n) + rest.total)
    else Bought(0, 0.0)
  }

  /** The loop never spends more than it has, and when it stops before the
      limit the remaining funds cannot pay for the next unit. */
  lemma {:induction false} ResolveBounds(price: PriceList, n: nat, funds: real, limit: nat)
    ensures var b := Resolve(price, n, funds, limit);
            (b.count > 0 ==> b.total <= funds)
            && (b.count < limit ==> funds - b.total < price(n + b.count))
    decreases limit
  {
    if limit > 0 && funds >= price(n) {
      ResolveBounds(price, n + 1, funds - price(n), limit - 1);
    }
  }

  /** Every unit the loop bought was affordable when its turn came. */
  lemma {:induction false} ResolveAffordable(price: PriceList, n: nat, funds: real, limit: nat)
    ensures AffordableRun(price, n, funds, Resolve(price, n, funds, limit).count)
    decreases limit
  {
    var b := Resolve(price, n, funds, limit);
    if limit > 0 && funds >= price(n) {
      var c := price(n);
      ResolveAffordable(price, n + 1, funds - c, limit - 1);
      forall j | 0 <= j < b.count
        ensures SumCosts(price, n, j) + price(n + j) <= funds
      {
        if j > 0 {
          assert SumCosts(price, n + 1, j - 1) + price(n + 1 + (j - 1)) <= funds - c;
        }
      }
    }
  }

  /** The greedy outcome is the only one: a count that stays within the
      limit, pays for each unit in turn and stops only at the limit or at an
      unaffordable unit is the loop's count. */
  lemma {:induction false} ResolveUnique(price: PriceList, n: nat, funds: real, limit: nat, k: nat)
    requires k <= limit
    requires AffordableRun(price, n, funds, k)
    requires k < limit ==> funds - SumCosts(price, n, k) < price(n + k)
    ensures k == Resolve(price, n, funds, limit).count
    decreases limit
  {
    var c := price(n);
    if k == 0 {
      if limit > 0 {
        assert funds < c;
      }
    } else {
      assert SumCosts(price, n, 0) + price(n + 0) <= funds;
      var n1 := n + 1;
      forall j | 0 <= j < k - 1
        ensures SumCosts(price, n1, j) + price(n1 + j) <= funds - c
      {
        assert SumCosts(price, n, j + 1) + price(n + (j + 1)) <= funds;
      }
      ResolveUnique(price, n1, funds - c, limit - 1, k - 1);
    }
  }

  /** The loop as performPurchase writes it: a counter, a running resource
      and a running total, left at the first unaffordable unit. */
  method ResolveLoop(price: PriceList, n: nat, funds: real, limit: nat) returns (count: nat, total: real)
    ensures Bought(count, total) == Resolve(price, n, funds, limit)
  {
    count := 0;
    total := 0.0;
    var resource := funds;
    var counter := n;
    var left := limit;
    while left > 0
      invariant count + left == limit
      invariant counter == n + count
      invariant resource == funds - total
      invariant Resolve(price, n, funds, limit) == Then(count, total, Resolve(price, counter, resource, left))
    {
      var c := price(counter);
      if resource >= c {
        ResolveStep(price, counter, resource, left);
        resource := resource - c;
        counter := counter + 1;
        count := count + 1;
        total := total + c;
        left := left - 1;
      } else {
        break;
      }
    }
    ResolveStop(price, counter, resource, left);
  }

  /** `k` units bought for `t`, followed by the outcome `b`. */
  function Then(k: nat, t: real, b: Bought): Bought {
    Bought(k + b.count, t + b.total)
  }

  /** One unit bought: the rest of the loop runs from the next unit. */
  lemma ResolveStep(price: PriceList, n: nat, funds: real, limit: nat)
    requires limit > 0 && funds >= price(n)
    ensures Resolve(price, n, funds, limit) == Then(1, price(n), Resolve(price, n + 1, funds - price(n), limit - 1))
  {
  }

  /** No attempt left, or the next unit unaffordable: nothing is bought. */
  lemma ResolveStop(price: PriceList, n: nat, funds: real, limit: nat)
    requires limit == 0 || funds < price(n)
    ensures Resolve(price, n, funds, limit) == Bought(0, 0.0)
  {
  }

  /** Whole prices sum to a whole amount. */
  lemma {:induction false} SumCostsIntegral(price: PriceList, n: nat, k: nat)
    requires forall m :: IsIntegral(price(m))
    ensures IsIntegral(SumCosts(price, n, k))
    decreases k
  {
    if k > 0 {
      SumCostsIntegral(price, n + 1, k - 1);
      SumIntegral(price(n), SumCosts(price, n + 1, k - 1));
    }
  }

  /** The loop's outcome for an item in a state: counted from the item's
      counter, paid out of its currency, priced with the state's effects. */
  function Outcome(s: State, item: Item, q: Quantity): (b: Bought)
    ensures b == Resolve(PriceOf(s.effects, item), Counter(s, item), Funds(s, CurrencyOf(item)), Limit(q))
    ensures b.count <= Limit(q)
    ensures b.count > 0 ==> b.total <= Funds(s, CurrencyOf(item))
    ensures CurrencyOf(item) == Images ==> IsIntegral(b.total)
  {
    var price := PriceOf(s.effects, item);
    var b := Resolve(price, Counter(s, item), Funds(s, CurrencyOf(item)), Limit(q));
    ResolveBounds(price, Counter(s, item), Funds(s, CurrencyOf(item)), Limit(q));
    if CurrencyOf(item) == Images then
      assert forall m :: IsIntegral(price(m)) by {
        forall m ensures IsIntegral(price(m)) {
          assert price(m) == StudyCost(s.effects, item, m);
        }
      }
      SumCostsIntegral(price, Counter(s, item), b.count); b
    else b
  }

  /** Debit the total and raise the counter. */
  function Pay(s: State, item: Item, b: Bought): (r: State)
    requires b.count > 0 ==> b.total <= Funds(s, CurrencyOf(item))
    requires CurrencyOf(item) == Images ==> IsIntegral(b.total)
    requires b.count > 0
    ensures Counter(r, item) == Counter(s, item) + b.count
    ensures forall other :: other != item && !(CurrencyOf(item) == Images && other == Image) ==>
              Counter(r, other) == Counter(s, other)
    ensures Funds(r, CurrencyOf(item)) == Funds(s, CurrencyOf(item)) - b.total
    ensures forall c :: c != CurrencyOf(item) && !(item == Image && c == Images) ==> Funds(r, c) == Funds(s, c)
    ensures r.automation == s.automation
  {
    AddToCounter(Debit(s, CurrencyOf(item), b.total), item, b.count)
  }

  /** What follows a successful purchase: the quest update, the rebuild and
      the unlock check. */
  function AfterPurchase(s: State): (r: State)
    ensures SameHoldings(s, r) && r.automation == s.automation
  {
    var a := UpdateQuestProgress(s);
    var b := ApplyAllSkillEffects(a);
    assert SameHoldings(s, a);
    assert SameHoldings(a, b);
    CheckUnlocks(b)
  }

  /** States with the same holdings agree on every counter and currency. */
  lemma HoldingsAgree(s: State, t: State)
    requires SameHoldings(s, t)
    ensures forall item :: Counter(t, item) == Counter(s, item)
    ensures forall c :: Funds(t, c) == Funds(s, c)
  {
  }

  /** Two states with the same counters and the same currencies. */
  predicate SameHoldings(s: State, t: State) {
    s.bonsPoints == t.bonsPoints && s.images == t.images && s.eleves == t.eleves
    && s.classes == t.classes && s.professeurs == t.professeurs && s.schools == t.schools
    && s.lycees == t.lycees && s.colleges == t.colleges && s.licences == t.licences
    && s.master1 == t.master1 && s.master2 == t.master2 && s.doctorats == t.doctorats
    && s.postDoctorats == t.postDoctorats && s.ascensionPoints == t.ascensionPoints
    && s.prestigePoints == t.prestigePoints
  }

  /** performPurchase after its opening achievement check, for a known item
      type. The doctorate and post-doctorate prerequisite checks are called
      without arguments and so always fail. */
  function Buy(s: State, item: Item, q: Quantity): (r: State)
    ensures item == Doctorat || item == PostDoctorat ==> r == s
    ensures r.automation == s.automation
  {
    if item == Doctorat || item == PostDoctorat then s
    else
      var b := Outcome(s, item, q);
      if b.count == 0 then s
      else AfterPurchase(Pay(s, item, b))
  }

  /** performPurchase: the achievement check runs first, even for an
      unknown item type, which then changes nothing more. */
  function PerformPurchase(s: State, key: string, q: Quantity): (r: State)
    ensures ParseItem(key).None? ==> r == CheckAchievements(s)
    ensures ParseItem(key).Some? ==> r == Buy(CheckAchievements(s), ParseItem(key).value, q)
  {
    var s1 := CheckAchievements(s);
    match ParseItem(key)
    case None => s1
    case Some(item) => Buy(s1, item, q)
  }

  /** What a paid purchase of b.count units leaves behind, in any later
      state with the same holdings. */
  lemma PaidOutcome(s: State, item: Item, b: Bought, r: State)
    requires b.count > 0 && b.total <= Funds(s, CurrencyOf(item))
    requires CurrencyOf(item) == Images ==> IsIntegral(b.total)
    requires SameHoldings(Pay(s, item, b), r)
    ensures Counter(r, item) == Counter(s, item) + b.count
    ensures Funds(r, CurrencyOf(item)) == Funds(s, CurrencyOf(item)) - b.total
    ensures forall other :: other != item && !(CurrencyOf(item) == Images && other == Image) ==>
              Counter(r, other) == Counter(s, other)
    ensures forall c :: c != CurrencyOf(item) && !(item == Image && c == Images) ==> Funds(r, c) == Funds(s, c)
  {
    HoldingsAgree(Pay(s, item, b), r);
  }

  /** A purchase of k units, k the loop's count: the counter rises by k,
      the currency falls by the sum of the k unit prices and never below
      zero, and no other counter or currency moves. With k = 0 nothing
      changes. */
  lemma BuyOutcome(s: State, item: Item, q: Quantity)
    requires item != Doctorat && item != PostDoctorat
    ensures var k := Outcome(s, item, q).count;
            var r := Buy(s, item, q);
            var cur := CurrencyOf(item);
            k <= Limit(q)
            && Counter(r, item) == Counter(s, item) + k
            && Funds(r, cur) == Funds(s, cur) - SumCosts(PriceOf(s.effects, item), Counter(s, item), k)
            && (Funds(s, cur) >= 0.0 ==> Funds(r, cur) >= 0.0)
            && (forall other :: other != item && !(cur == Images && other == Image) ==> Counter(r, other) == Counter(s, other))
            && (forall c :: c != cur && !(item == Image && c == Images) ==> Funds(r, c) == Funds(s, c))
            && (k == 0 ==> r == s)
  {
    var b := Outcome(s, item, q);
    var cur := CurrencyOf(item);
    if b.count > 0 {
      var r := AfterPurchase(Pay(s, item, b));
      assert Buy(s, item, q) == r;
      PaidOutcome(s, item, b, r);
    }
  }
}
