/** The option-unlock buttons of the ascension menu and the gate in front of
    the hard reset, both input handlers of events.js. */
module OptionHandlers {
  import opened GameData
  import opened SkillEffects
  import opened GameState
  import opened Costs
  import opened Unlocks
  import opened Resets

  /** The four options the ascension menu sells. */
  datatype Unlockable = MultiPurchaseUnlock | MaxPurchaseUnlock | NewSettingsUnlock | AutomationCategoryUnlock

  /** The flag each button checks and sets. */
  function OptionFlag(o: Unlockable): Flag {
    match o
    case MultiPurchaseUnlock => MultiPurchaseOption
    case MaxPurchaseUnlock => MaxPurchaseOption
    case NewSettingsUnlock => NewSettings
    case AutomationCategoryUnlock => AutomationCategory
  }

  /** Each button names its own flag. */
  lemma OptionFlagInjective(o: Unlockable, p: Unlockable)
    ensures OptionFlag(o) == OptionFlag(p) <==> o == p
  {
  }

  /** The flags a granted unlock switches on: its own, and for the new
      settings also the statistics button. */
  function Grants(o: Unlockable): (g: set<Flag>)
    ensures OptionFlag(o) in g
    ensures forall f :: f in g ==> f == OptionFlag(o) || (o == NewSettingsUnlock && f == StatsButton)
  {
    if o == NewSettingsUnlock then {NewSettings, StatsButton} else {OptionFlag(o)}
  }

  /** The price in ascension points: fixed for three options, and the
      automation price of a base of 1000 for the automation category. */
  function OptionCost(s: State, o: Unlockable): (c: real)
    ensures o != AutomationCategoryUnlock ==> c == 10.0 || c == 100.0
  {
    match o
    case MultiPurchaseUnlock => 10.0
    case MaxPurchaseUnlock => 100.0
    case NewSettingsUnlock => 10.0
    case AutomationCategoryUnlock => AutomationCost(s.effects, 1000.0)
  }

  /** An unlock goes through when the option is still locked and the
      ascension points cover its price. */
  predicate Granted(s: State, o: Unlockable) {
    OptionFlag(o) !in s.flags && s.ascensionPoints >= OptionCost(s, o)
  }

  /** An unlock button: when granted, the price is paid and the option's
      flags switch on; an option already unlocked, or one that cannot be
      paid, changes nothing. Only the ascension points and the flags move. */
  function UnlockOption(s: State, o: Unlockable): (r: State)
    ensures forall f :: f in r.flags <==> f in s.flags || (Granted(s, o) && f in Grants(o))
    ensures OptionFlag(o) in r.flags <==> OptionFlag(o) in s.flags || Granted(s, o)
    ensures Granted(s, o) ==> r.ascensionPoints == s.ascensionPoints - OptionCost(s, o)
    ensures !Granted(s, o) ==> r == s
    ensures r.(ascensionPoints := s.ascensionPoints, flags := s.flags) == s
  {
    var cost := OptionCost(s, o);
    if s.ascensionPoints >= cost && OptionFlag(o) !in s.flags then
      s.(ascensionPoints := s.ascensionPoints - cost, flags := s.flags + Grants(o))
    else s
  }

  /** A second press of the same button changes nothing more: the option is
      paid for once. */
  lemma {:induction false} UnlockOptionOnce(s: State, o: Unlockable)
    ensures UnlockOption(UnlockOption(s, o), o) == UnlockOption(s, o)
  {
    var r := UnlockOption(s, o);
    assert OptionFlag(o) in r.flags ==> !Granted(r, o);
    if !(OptionFlag(o) in r.flags) {
      assert !Granted(s, o) && r == s;
      assert !Granted(r, o);
    }
  }

  /** Two different options unlock independently: pressing them in either
      order gives the same flags, and the same points when both go through. */
  lemma UnlockOptionsCommute(s: State, o: Unlockable, p: Unlockable)
    requires o != p && Granted(s, o) && Granted(s, p)
    requires s.ascensionPoints >= OptionCost(s, o) + OptionCost(s, p)
    ensures UnlockOption(UnlockOption(s, o), p) == UnlockOption(UnlockOption(s, p), o)
  {
    var a := UnlockOption(s, o);
    var b := UnlockOption(s, p);
    assert OptionCost(a, p) == OptionCost(s, p) && OptionCost(b, o) == OptionCost(s, o);
    OptionFlagInjective(o, p);
    assert Granted(a, p) && Granted(b, o);
    assert s.flags + Grants(o) + Grants(p) == s.flags + Grants(p) + Grants(o);
  }

  /** With reductions of at most one, an unlock never spends more ascension
      points than there are, and never adds any. */
  lemma UnlockOptionFunds(s: State, o: Unlockable)
    requires Get(s.effects, AutomationCostReduction) <= 1.0 && Get(s.effects, AllCostReduction) <= 1.0
    ensures var r := UnlockOption(s, o);
            r.ascensionPoints <= s.ascensionPoints
            && (s.ascensionPoints >= 0.0 ==> r.ascensionPoints >= 0.0)
  {
    AutomationCostBounds(s.effects, 1000.0);
  }

  /** The option flags and the statistics button are set by these buttons
      only: the unlock check neither sets nor clears them. */
  lemma CheckUnlocksLeavesOptions(s: State, o: Unlockable)
    ensures forall f :: f in Grants(o) ==> (f in CheckUnlocks(s).flags <==> f in s.flags)
  {
    assert forall f :: f in Grants(o) ==> f !in LatchingFlags;
  }

  /** How many images the hard reset costs. */
  const HardResetPrice: nat := 10

  /** The reset-progression button, once its confirmation is accepted: with
      ten images or more, ten are spent and the game is hard reset; with
      fewer, nothing happens. */
  function HardResetGate(s: State, now: int): (r: State)
    ensures s.images < HardResetPrice ==> r == s
    ensures s.images >= HardResetPrice ==> r == ResetGameVariables(now)
  {
    if s.images >= HardResetPrice then HardResetGame(s.(images := s.images - HardResetPrice), now)
    else s
  }

  /** The ten images are spent and then forgotten: the reset leaves no
      images, and what the game held before does not show in the result. */
  lemma HardResetGateForgets(s: State, t: State, now: int)
    requires s.images >= HardResetPrice && t.images >= HardResetPrice
    ensures HardResetGate(s, now) == HardResetGate(t, now)
    ensures HardResetGate(s, now).images == 0
  {
  }
}
