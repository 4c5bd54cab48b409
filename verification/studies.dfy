/** The study actions of studies.js and their twins in events.js: the
    "study" click and the purchase of élèves, classes, images and
    professeurs. */
module StudyActions {
  import opened Wrappers
  import opened Numeric
  import opened GameData
  import opened SkillEffects
  import opened GameState
  import opened Production
  import opened Unlocks
  import opened Purchase

  /** The bons points one click earns for a click value v: v itself when it
      is positive, one point when it is exactly zero, nothing when it is
      negative. */
  function ClickGain(v: real): (g: real)
    ensures g >= 0.0
    ensures v > 0.0 ==> g == v
    ensures v == 0.0 ==> g == 1.0
    ensures v < 0.0 ==> g == 0.0
  {
    if v > 0.0 then v else if v == 0.0 then 1.0 else 0.0
  }

  /** A click never earns less than its value, and earns something exactly
      when its value is not negative. */
  lemma ClickGainBounds(v: real)
    ensures ClickGain(v) >= v
    ensures ClickGain(v) > 0.0 <==> v >= 0.0
  {
  }

  /** A click's value: the click bonus plus a tenth of the current production. */
  function ClickValue(s: State): real {
    Get(s.effects, ClickBonus) + 0.1 * TotalBps(s)
  }

  /** The "study" click (handleStudyClick, and the handler events.js installs
      on the same button): one more click, production recomputed, the click's
      gain added to the bons points (not to the lifetime total), then the
      unlock check. */
  function Click(s: State): (r: State)
    ensures r.totalClicks == s.totalClicks + 1
    ensures r.totalBps == TotalBps(s)
    ensures r.bonsPoints == s.bonsPoints + ClickGain(ClickValue(s))
    ensures r.bonsPoints >= s.bonsPoints
    ensures s.flags <= r.flags
    ensures r.(bonsPoints := s.bonsPoints, totalClicks := s.totalClicks, totalBps := s.totalBps,
               flags := s.flags, completedQuests := s.completedQuests) == s
  {
    var t := s.(totalClicks := s.totalClicks + 1);
    TotalBpsIgnoresClicks(s, t.totalClicks);
    var u := t.(totalBps := TotalBps(t));
    TotalBpsIgnoresTotal(t, TotalBps(t));
    var v := ClickValue(u);
    assert v == ClickValue(s);
    CheckUnlocks(u.(bonsPoints := u.bonsPoints + ClickGain(v)))
  }

  lemma TotalBpsIgnoresClicks(s: State, n: nat)
    ensures TotalBps(s.(totalClicks := n)) == TotalBps(s)
  {
  }

  /** Hiring k professeurs earns k ascension skill points. */
  function GrantHiringPoints(s: State, item: Item, k: nat): (r: State)
    ensures item == Professeur ==> r.ascension.points == s.ascension.points + k
    ensures item != Professeur ==> r == s
    ensures SameHoldings(s, r)
    ensures r.(ascension := s.ascension) == s
  {
    if item == Professeur then s.(ascension := s.ascension.(points := s.ascension.points + k)) else s
  }

  /** performStudyPurchase for one of the four study items: the loop, then,
      when something was bought, the debit, the counter, the professeurs'
      skill points and the rebuild; the unlock check runs either way. There
      is no achievement check and no quest update here. */
  function StudyBuy(s: State, item: Item, q: Quantity): (r: State)
    requires IsStudyItem(item)
  {
    var b := Outcome(s, item, q);
    if b.count == 0 then CheckUnlocks(s)
    else CheckUnlocks(ApplyAllSkillEffects(GrantHiringPoints(Pay(s, item, b), item, b.count)))
  }

  /** performStudyPurchase: a key that names no study item changes nothing at
      all, not even the unlocks. */
  function PerformStudyPurchase(s: State, key: string, q: Quantity): (r: State)
    ensures ParseItem(key).None? || !IsStudyItem(ParseItem(key).value) ==> r == s
    ensures ParseItem(key).Some? && IsStudyItem(ParseItem(key).value) ==> r == StudyBuy(s, ParseItem(key).value, q)
  {
    match ParseItem(key)
    case None => s
    case Some(item) => if IsStudyItem(item) then StudyBuy(s, item, q) else s
  }

  /** What a study purchase of k units leaves behind: the counter up by k,
      the currency down by the k unit prices, no other counter or currency
      moved, and k more ascension skill points for professeurs. */
  predicate StudyOutcome(s: State, item: Item, k: nat, r: State) {
    var cur := CurrencyOf(item);
    Counter(r, item) == Counter(s, item) + k
    && Funds(r, cur) == Funds(s, cur) - SumCosts(PriceOf(s.effects, item), Counter(s, item), k)
    && (forall other :: other != item && !(cur == Images && other == Image) ==> Counter(r, other) == Counter(s, other))
    && (forall c :: c != cur && !(item == Image && c == Images) ==> Funds(r, c) == Funds(s, c))
    && r.ascension.points == s.ascension.points + (if item == Professeur then k else 0)
  }

  /** A study purchase of k units, k the loop's count, leaves the outcome
      above, never drives the currency below zero, and with k = 0 only the
      unlock check ran. */
  lemma StudyBuyOutcome(s: State, item: Item, q: Quantity)
    requires IsStudyItem(item)
    ensures Outcome(s, item, q).count <= Limit(q)
    ensures StudyOutcome(s, item, Outcome(s, item, q).count, StudyBuy(s, item, q))
    ensures Funds(s, CurrencyOf(item)) >= 0.0 ==> Funds(StudyBuy(s, item, q), CurrencyOf(item)) >= 0.0
    ensures Outcome(s, item, q).count == 0 ==> StudyBuy(s, item, q) == CheckUnlocks(s)
  {
    var b := Outcome(s, item, q);
    if b.count > 0 {
      StudyBuyPaid(s, item, q);
    } else {
      StudyBuyNothing(s, item, q);
    }
  }

  lemma StudyBuyPaid(s: State, item: Item, q: Quantity)
    requires IsStudyItem(item) && Outcome(s, item, q).count > 0
    ensures StudyOutcome(s, item, Outcome(s, item, q).count, StudyBuy(s, item, q))
  {
    var b := Outcome(s, item, q);
    var p := Pay(s, item, b);
    var g := GrantHiringPoints(p, item, b.count);
    var a := ApplyAllSkillEffects(g);
    var r := CheckUnlocks(a);
    assert StudyBuy(s, item, q) == r;
    assert a.ascension == g.ascension;
    assert r.ascension == a.ascension;
    assert SameHoldings(p, r);
    PaidOutcome(s, item, b, r);
  }

  lemma StudyBuyNothing(s: State, item: Item, q: Quantity)
    requires IsStudyItem(item) && Outcome(s, item, q).count == 0
    ensures StudyOutcome(s, item, 0, StudyBuy(s, item, q))
  {
    var r := CheckUnlocks(s);
    assert StudyBuy(s, item, q) == r;
    assert SameHoldings(s, r);
    HoldingsAgree(s, r);
    assert SumCosts(PriceOf(s.effects, item), Counter(s, item), 0) == 0.0;
  }
}
