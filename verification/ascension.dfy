/** ascension.js: the ascension point gain and performAscension, the first
    reset tier. */
module AscensionActions {
  import opened Numeric
  import opened GameData
  import opened GameState
  import opened Production
  import opened Unlocks
  import opened Resets

  /** The professeurs performAscension demands. */
  const ProfesseursToAscend: nat := 5

  /** calculatePAGained: one ascension point per whole 1e10 bons points
      earned this run, none below the first 1e10. */
  function PAGained(s: State): (g: real)
    ensures IsIntegral(g) && g >= 0.0
    ensures s.bonsPointsTotal < AscensionPointThreshold ==> g == 0.0
    ensures s.bonsPointsTotal >= AscensionPointThreshold ==>
              1.0 <= g && g * AscensionPointThreshold <= s.bonsPointsTotal < (g + 1.0) * AscensionPointThreshold
  {
    Tranches(s.bonsPointsTotal, AscensionPointThreshold)
  }

  /** 2.5e10 bons points earned give two ascension points. */
  lemma PAGainedExample(s: State)
    requires s.bonsPointsTotal == 25000000000.0
    ensures PAGained(s) == 2.0
  {
    var g := PAGained(s);
    assert 1.5 < g <= 2.5;
    assert g.Floor == 2;
  }

  /** What performAscension adds before its soft reset. */
  function GrantAscension(s: State, g: real): State {
    s.(ascensionCount := s.ascensionCount + 1, ascensionPoints := s.ascensionPoints + g,
       totalPAEarned := s.totalPAEarned + g)
  }

  /** The state an ascension of gain g leaves after the state s: the grant
      is kept, the run is cleared, and the prestige tier, the bons points
      earned this run and the ascension tree are untouched. */
  predicate Ascended(s: State, g: real, r: State) {
    r.ascensionCount == s.ascensionCount + 1
    && r.ascensionPoints == s.ascensionPoints + g && r.totalPAEarned == s.totalPAEarned + g
    && r.bonsPoints == 0.0 && r.images == 0 && r.eleves == 0 && r.classes == 0 && r.professeurs == 0
    && r.totalClicks == 0 && r.studies == EmptyTree && r.automation == {}
    && r.completedQuests == DropNonPermanent(s.completedQuests)
    && r.bonsPointsTotal == s.bonsPointsTotal && r.ascensionBonus == s.ascensionBonus
    && r.schools == s.schools && r.lycees == s.lycees && r.colleges == s.colleges
    && r.ascension == s.ascension && r.prestige == s.prestige
    && r.prestigePoints == s.prestigePoints && r.prestigeCount == s.prestigeCount
  }

  /** performAscension: refused below five professeurs and below one point
      of gain; otherwise the grant, the soft reset and a rebuild. */
  function PerformAscension(s: State): (r: State)
    ensures s.professeurs < ProfesseursToAscend ==> r == s
    ensures PAGained(s) < 1.0 ==> r == s
    ensures s.professeurs >= ProfesseursToAscend && PAGained(s) >= 1.0 ==> Ascended(s, PAGained(s), r)
  {
    if s.professeurs < ProfesseursToAscend then s
    else
      var g := PAGained(s);
      if g < 1.0 then s
      else
        var t := GrantAscension(s, g);
        var u := SoftReset(t);
        var r := ApplyAllSkillEffects(u);
        assert Kept(u, r);
        r
  }

  /** The ascension menu's unlock (checkUnlockConditions) and the ascension
      button both ask for one professeur only. */
  predicate AscensionButtonOpens(s: State) {
    s.professeurs >= 1
  }

  /** With one to four professeurs the menu is unlocked and the button
      opens its confirmation, yet the ascension is refused. */
  lemma AscensionThresholdMismatch(s: State)
    requires 1 <= s.professeurs < ProfesseursToAscend
    ensures AscensionUnlocked in CheckUnlocks(s).flags && AscensionMenuButton in CheckUnlocks(s).flags
    ensures AscensionButtonOpens(s)
    ensures PerformAscension(s) == s
  {
    assert AscensionUnlocked in LatchingFlags && Earned(s, AscensionUnlocked);
    assert AscensionMenuButton in LatchingFlags && Earned(s, AscensionMenuButton);
  }

  /** The soft reset leaves the run's bons points total in place, so the
      next ascension offers the same gain again once five professeurs are
      bought back. */
  lemma AscensionGainNotConsumed(s: State)
    requires s.professeurs >= ProfesseursToAscend && PAGained(s) >= 1.0
    ensures PAGained(PerformAscension(s)) == PAGained(s)
  {
  }
}
