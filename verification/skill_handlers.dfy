/** The two skill buttons of events.js: the skill reset, which refunds
    every level bought in all three trees, and "buy all", which spends the
    visible tree's points one per level, skill by skill in tier order. */
module SkillHandlers {
  import opened Wrappers
  import opened GameData
  import opened GameState
  import opened Production
  import opened SkillPurchase

  // ---------------------------------------------------------------------
  // The sum of a level record's values
  // ---------------------------------------------------------------------

  /** Every skill of the game, tree after tree. */
  const AllSkills: seq<Skill> := StudySkills + AscensionSkills + PrestigeSkills

  /** The tree a skill id belongs to. */
  function TreeOf(id: SkillId): GameData.Tree {
    match id
    case StudyClickPower | StudyEleveEfficiency | StudyClassEfficiency | StudyImageEfficiency
       | StudyProfessorEfficiency | StudyAllBps | StudyCostReductionEleve | StudyCostReductionClass
       | StudyCostReductionImage | StudyCostReductionProfessor | StudyAllCostReduction => Studies
    case AscPaBoost | AscOfflineProd | AscEcoleEfficiency | AscLyceeEfficiency | AscCollegeEfficiency
       | AscAllProdBoost => Ascension
    case PresPpBoost | PresAutomationCostReduction | PresAllSkillPoints | PresGlobalBpsBoost => Prestige
  }

  /** Each tree holds only its own ids. */
  lemma TablesPartitioned(t: GameData.Tree)
    ensures forall k :: 0 <= k < |SkillTable(t)| ==> TreeOf(SkillTable(t)[k].id) == t
  {
    match t
    case Studies =>
    case Ascension =>
    case Prestige =>
  }

  /** Where each id sits in AllSkills: every id of the game appears there. */
  function IdIndex(id: SkillId): (k: nat)
    ensures k < |AllSkills| && AllSkills[k].id == id
  {
    match id
    case StudyClickPower => 0
    case StudyEleveEfficiency => 1
    case StudyClassEfficiency => 2
    case StudyImageEfficiency => 3
    case StudyProfessorEfficiency => 4
    case StudyAllBps => 5
    case StudyCostReductionEleve => 6
    case StudyCostReductionClass => 7
    case StudyCostReductionImage => 8
    case StudyCostReductionProfessor => 9
    case StudyAllCostReduction => 10
    case AscPaBoost => 11
    case AscOfflineProd => 12
    case AscEcoleEfficiency => 13
    case AscLyceeEfficiency => 14
    case AscCollegeEfficiency => 15
    case AscAllProdBoost => 16
    case PresPpBoost => 17
    case PresAutomationCostReduction => 18
    case PresAllSkillPoints => 19
    case PresGlobalBpsBoost => 20
  }

  /** And it appears there once only. */
  lemma AllSkillsUnique()
    ensures UniqueIds(AllSkills)
  {
    TreesWellFormed(Studies);
    TreesWellFormed(Ascension);
    TreesWellFormed(Prestige);
    TablesPartitioned(Studies);
    TablesPartitioned(Ascension);
    TablesPartitioned(Prestige);
    forall i, j | 0 <= i < j < |AllSkills| ensures AllSkills[i].id != AllSkills[j].id {
      var a := |StudySkills|;
      var b := |StudySkills| + |AscensionSkills|;
      if j < a {
        assert AllSkills[i] == StudySkills[i] && AllSkills[j] == StudySkills[j];
      } else if i >= b {
        assert AllSkills[i] == PrestigeSkills[i - b] && AllSkills[j] == PrestigeSkills[j - b];
      } else if a <= i && j < b {
        assert AllSkills[i] == AscensionSkills[i - a] && AllSkills[j] == AscensionSkills[j - a];
      } else {
        assert TreeOf(AllSkills[i].id) != TreeOf(AllSkills[j].id) by {
          if i < a { assert AllSkills[i] == StudySkills[i]; }
          else { assert AllSkills[i] == AscensionSkills[i - a]; }
          if j < b { assert AllSkills[j] == AscensionSkills[j - a]; }
          else { assert AllSkills[j] == PrestigeSkills[j - b]; }
        }
      }
    }
  }

  /** `Object.values(levels).reduce((sum, level) => sum + level, 0)`: since
      every id appears exactly once in AllSkills, this is the sum of all the
      record's values. */
  function ValuesSum(levels: map<SkillId, nat>): nat {
    LevelSum(AllSkills, levels)
  }

  lemma {:induction false} LevelSumConcat(a: seq<Skill>, b: seq<Skill>, levels: map<SkillId, nat>)
    ensures LevelSum(a + b, levels) == LevelSum(a, levels) + LevelSum(b, levels)
    decreases |a|
  {
    if |a| == 0 {
      assert a + b == b;
    } else {
      assert (a + b)[0] == a[0] && (a + b)[1..] == a[1..] + b;
      LevelSumConcat(a[1..], b, levels);
    }
  }

  /** A table none of whose ids has a level sums to zero. */
  lemma {:induction false} LevelSumNone(table: seq<Skill>, levels: map<SkillId, nat>)
    requires forall k :: 0 <= k < |table| ==> table[k].id !in levels
    ensures LevelSum(table, levels) == 0
    decreases |table|
  {
    if |table| > 0 {
      assert forall k :: 0 <= k < |table[1..]| ==> table[1..][k] == table[k + 1];
      LevelSumNone(table[1..], levels);
    }
  }

  /** An id found in a tree's table belongs to that tree. */
  lemma FoundInItsTree(t: GameData.Tree, id: SkillId)
    ensures FindSkill(SkillTable(t), id).Some? ==> TreeOf(id) == t
  {
    TablesPartitioned(t);
    if FindSkill(SkillTable(t), id).Some? {
      var x := FindSkill(SkillTable(t), id).value;
      var j :| 0 <= j < |SkillTable(t)| && SkillTable(t)[j] == x;
    }
  }

  /** A record holding only ids of tree t sums to zero over another tree. */
  lemma OtherTreeSumsToZero(t: GameData.Tree, u: GameData.Tree, levels: map<SkillId, nat>)
    requires t != u && KeysInTable(SkillTable(t), levels)
    ensures LevelSum(SkillTable(u), levels) == 0
  {
    TablesPartitioned(u);
    forall k | 0 <= k < |SkillTable(u)| ensures SkillTable(u)[k].id !in levels {
      FoundInItsTree(t, SkillTable(u)[k].id);
    }
    LevelSumNone(SkillTable(u), levels);
  }

  /** For a record holding only ids of its own tree, the sum of all values
      is the sum over that tree. */
  lemma ValuesSumOfTree(t: GameData.Tree, levels: map<SkillId, nat>)
    requires KeysInTable(SkillTable(t), levels)
    ensures ValuesSum(levels) == LevelSum(SkillTable(t), levels)
  {
    LevelSumConcat(StudySkills, AscensionSkills, levels);
    LevelSumConcat(StudySkills + AscensionSkills, PrestigeSkills, levels);
    match t
    case Studies =>
      OtherTreeSumsToZero(t, Ascension, levels);
      OtherTreeSumsToZero(t, Prestige, levels);
    case Ascension =>
      OtherTreeSumsToZero(t, Studies, levels);
      OtherTreeSumsToZero(t, Prestige, levels);
    case Prestige =>
      OtherTreeSumsToZero(t, Studies, levels);
      OtherTreeSumsToZero(t, Ascension, levels);
  }

  // ---------------------------------------------------------------------
  // The skill reset
  // ---------------------------------------------------------------------

  /** One tree after the reset: its levels turned back into points. */
  function Refunded(ts: TreeState): TreeState {
    TreeState(ts.points + ValuesSum(ts.levels), map[])
  }

  /** The refunds and the cleared secret-skill click count, before the
      rebuild. */
  function RefundAll(s: State): (u: State)
    ensures u.studies == Refunded(s.studies) && u.ascension == Refunded(s.ascension)
            && u.prestige == Refunded(s.prestige) && u.secretSkillClicks == 0
    ensures u.(studies := s.studies, ascension := s.ascension, prestige := s.prestige,
               secretSkillClicks := s.secretSkillClicks) == s
  {
    s.(studies := Refunded(s.studies), ascension := Refunded(s.ascension),
       prestige := Refunded(s.prestige), secretSkillClicks := 0)
  }

  /** The confirmed skill reset: every tree's levels are refunded and
      cleared, the secret-skill click count returns to zero, and the
      accumulator is rebuilt; nothing else changes. */
  function SkillReset(s: State): (r: State)
    ensures r.studies == Refunded(s.studies) && r.ascension == Refunded(s.ascension)
            && r.prestige == Refunded(s.prestige)
    ensures r.secretSkillClicks == 0
    ensures r.(studies := s.studies, ascension := s.ascension, prestige := s.prestige,
               secretSkillClicks := s.secretSkillClicks, effects := s.effects, totalBps := s.totalBps) == s
  {
    var u := RefundAll(s);
    ApplyKeepsTrees(u);
    ApplyAllSkillEffects(u)
  }

  /** A refunded record that held only ids of the table keeps its worth
      over that table, all of it now free points. */
  lemma RefundedWorth(ts: TreeState, table: seq<Skill>)
    requires ValuesSum(ts.levels) == LevelSum(table, ts.levels)
    ensures Refunded(ts).points == ts.points + LevelSum(table, ts.levels)
    ensures LevelSum(table, Refunded(ts).levels) == 0
  {
    LevelSumNone(table, map[]);
  }

  /** For a tree whose record holds only its own ids, the reset hands back
      exactly one point per level: its worth is kept and all of it is free
      points. */
  lemma SkillResetRefunds(s: State, t: GameData.Tree)
    requires KeysInTable(SkillTable(t), GameState.Tree(s, t).levels)
    ensures GameState.Tree(SkillReset(s), t).points == Worth(s, t)
    ensures Worth(SkillReset(s), t) == Worth(s, t)
  {
    var ts := GameState.Tree(s, t);
    var rs := GameState.Tree(SkillReset(s), t);
    assert rs == Refunded(ts);
    ValuesSumOfTree(t, ts.levels);
    RefundedWorth(ts, SkillTable(t));
    assert Worth(s, t) == ts.points + LevelSum(SkillTable(t), ts.levels);
    assert Worth(SkillReset(s), t) == rs.points + LevelSum(SkillTable(t), rs.levels);
  }

  /** A reset right after an as-written purchase hands back one point more
      than the tree was worth before it: the point the purchase never took. */
  lemma ResetAfterPurchaseMints(s: State, key: string, t: GameData.Tree, id: SkillId)
    requires ParseTree(key) == Some(t) && Allowed(s, t, id)
    requires KeysInTable(SkillTable(t), GameState.Tree(s, t).levels)
    ensures GameState.Tree(SkillReset(PurchaseSkill(s, key, id)), t).points == Worth(s, t) + 1
  {
    PurchaseSkillKeepsKeys(s, key, t, id);
    PurchaseSkillMintsPoint(s, key, t, id);
    SkillResetRefunds(PurchaseSkill(s, key, id), t);
  }

  /** After a charged purchase the reset hands back the tree's worth less
      the cost, plus the one refunded level: for a skill of cost one, exactly
      what the tree was worth. */
  lemma ResetAfterChargedPurchase(s: State, key: string, t: GameData.Tree, id: SkillId)
    requires ParseTree(key) == Some(t) && Allowed(s, t, id)
    requires KeysInTable(SkillTable(t), GameState.Tree(s, t).levels)
    ensures GameState.Tree(SkillReset(PurchaseSkillCharged(s, key, id)), t).points + SkillCost(t, id) == Worth(s, t) + 1
  {
    var r := PurchaseSkillCharged(s, key, id);
    PurchaseSkillChargedOutcome(s, key, t, id);
    RaiseKeepsKeys(SkillTable(t), GameState.Tree(s, t).levels, id, 1);
    PurchaseSkillChargedWorth(s, key, t, id);
    SkillResetRefunds(r, t);
  }

  // ---------------------------------------------------------------------
  // The tier sort
  // ---------------------------------------------------------------------

  predicate TierSorted(q: seq<Skill>) {
    forall i, j :: 0 <= i < j < |q| ==> q[i].tier <= q[j].tier
  }

  /** Insert x before the first skill of a tier at least its own. */
  function Insert(x: Skill, q: seq<Skill>): (r: seq<Skill>)
    ensures |r| == |q| + 1
    decreases |q|
  {
    if |q| == 0 then [x]
    else if x.tier <= q[0].tier then [x] + q
    else [q[0]] + Insert(x, q[1..])
  }

  /** Insertion adds x and loses nothing. */
  lemma {:induction false} InsertPermutes(x: Skill, q: seq<Skill>)
    ensures multiset(Insert(x, q)) == multiset(q) + multiset{x}
    decreases |q|
  {
    if |q| > 0 && x.tier > q[0].tier {
      InsertPermutes(x, q[1..]);
      assert q == [q[0]] + q[1..];
    }
  }

  lemma {:induction false} InsertKeepsSorted(x: Skill, q: seq<Skill>)
    requires TierSorted(q)
    ensures TierSorted(Insert(x, q))
    decreases |q|
  {
    if |q| > 0 && x.tier > q[0].tier {
      var rest := Insert(x, q[1..]);
      InsertKeepsSorted(x, q[1..]);
      InsertPermutes(x, q[1..]);
      forall j | 0 <= j < |rest| ensures q[0].tier <= rest[j].tier {
        assert rest[j] in multiset(rest);
        assert rest[j] == x || rest[j] in multiset(q[1..]);
        if rest[j] != x {
          var m :| 0 <= m < |q[1..]| && q[1..][m] == rest[j];
          assert q[1..][m] == q[m + 1];
        }
      }
      assert Insert(x, q) == [q[0]] + rest;
    }
  }

  /** `skillsData[panel].sort((a, b) => a.tier - b.tier)`: a stable sort by
      tier, as an insertion sort that puts each skill before the later ones
      of its tier. */
  function SortByTier(q: seq<Skill>): (r: seq<Skill>)
    ensures |r| == |q|
    ensures TierSorted(r)
    decreases |q|
  {
    if |q| == 0 then []
    else
      var rest := SortByTier(q[1..]);
      InsertKeepsSorted(q[0], rest);
      Insert(q[0], rest)
  }

  /** The sort is a permutation of its input. */
  lemma {:induction false} SortPermutes(q: seq<Skill>)
    ensures multiset(SortByTier(q)) == multiset(q)
    decreases |q|
  {
    if |q| > 0 {
      SortPermutes(q[1..]);
      InsertPermutes(q[0], SortByTier(q[1..]));
      assert q == [q[0]] + q[1..];
    }
  }

  /** The skills of one tier, in the order they appear. */
  function OfTier(q: seq<Skill>, tier: nat): (r: seq<Skill>)
    ensures forall i :: 0 <= i < |r| ==> r[i].tier == tier
    decreases |q|
  {
    if |q| == 0 then []
    else (if q[0].tier == tier then [q[0]] else []) + OfTier(q[1..], tier)
  }

  /** Insertion passes only skills of a lower tier, so within every tier x
      lands before the skills already there. */
  lemma {:induction false} InsertOfTier(x: Skill, q: seq<Skill>, tier: nat)
    ensures OfTier(Insert(x, q), tier) == (if x.tier == tier then [x] else []) + OfTier(q, tier)
    decreases |q|
  {
    if |q| > 0 {
      if x.tier <= q[0].tier {
        assert ([x] + q)[1..] == q;
      } else {
        InsertOfTier(x, q[1..], tier);
        assert ([q[0]] + Insert(x, q[1..]))[1..] == Insert(x, q[1..]);
      }
    }
  }

  /** The sort is stable: within each tier the skills keep their table
      order, which is the order buy-all offers them the points. */
  lemma {:induction false} SortStable(q: seq<Skill>, tier: nat)
    ensures OfTier(SortByTier(q), tier) == OfTier(q, tier)
    decreases |q|
  {
    if |q| > 0 {
      SortStable(q[1..], tier);
      InsertOfTier(q[0], SortByTier(q[1..]), tier);
    }
  }

  /** The sorted table holds the table's skills and no others. */
  lemma SortedMembers(q: seq<Skill>)
    ensures |SortByTier(q)| == |q|
    ensures Drawn(q, SortByTier(q))
  {
    var r := SortByTier(q);
    SortPermutes(q);
    forall i | 0 <= i < |r| ensures exists j :: 0 <= j < |q| && q[j] == r[i] {
      assert r[i] in multiset(r);
      assert r[i] in q;
    }
  }

  // ---------------------------------------------------------------------
  // Buy all
  // ---------------------------------------------------------------------

  /** The loop's running values: the points left, the level record and the
      number of levels bought. */
  datatype Sweep = Sweep(points: nat, levels: map<SkillId, nat>, bought: nat)

  /** A skill of tier above one may be bought only when every skill of the
      tier below, in the whole table, is at its maximum. */
  predicate PreviousTierMaxed(table: seq<Skill>, levels: map<SkillId, nat>, tier: nat) {
    tier <= 1
    || forall k :: 0 <= k < |table| && table[k].tier == tier - 1 ==>
         LevelOf(levels, table[k].id) >= table[k].maxLevel
  }

  function Min(a: nat, b: nat): nat {
    if a <= b then a else b
  }

  /** The loop body for one skill: a skill at its maximum, or whose tier
      below is not all at its maximum, is skipped; otherwise levels are
      bought one point each until the maximum or the points run out. */
  function BuyLevels(table: seq<Skill>, w: Sweep, x: Skill): (r: Sweep)
    ensures r.points + r.bought == w.points + w.bought && r.bought >= w.bought
    ensures r.bought == w.bought ==> r == w
    ensures r.bought > w.bought ==>
              r.levels == Raise(w.levels, x.id, r.bought - w.bought)
              && LevelOf(w.levels, x.id) + (r.bought - w.bought) <= x.maxLevel
    ensures r.bought > w.bought ==> PreviousTierMaxed(table, w.levels, x.tier)
    ensures r.bought > w.bought ==>
              r.points == 0 || LevelOf(r.levels, x.id) == x.maxLevel
  {
    var cur := LevelOf(w.levels, x.id);
    if cur >= x.maxLevel || !PreviousTierMaxed(table, w.levels, x.tier) then w
    else
      var n := Min(x.maxLevel - cur, w.points);
      if n == 0 then w
      else Sweep(w.points - n, Raise(w.levels, x.id, n), w.bought + n)
  }

  /** The loop over order[k..]. */
  function SweepSkills(table: seq<Skill>, order: seq<Skill>, w: Sweep, k: nat): (r: Sweep)
    requires k <= |order|
    ensures r.points + r.bought == w.points + w.bought && r.bought >= w.bought
    decreases |order| - k
  {
    if k == |order| then w
    else SweepSkills(table, order, BuyLevels(table, w, order[k]), k + 1)
  }

  /** The skills of the order all belong to the table. */
  predicate Drawn(table: seq<Skill>, order: seq<Skill>) {
    forall i :: 0 <= i < |order| ==> exists j :: 0 <= j < |table| && table[j] == order[i]
  }

  /** The levels bought are exactly the points spent. */
  lemma {:induction false} SweepCounts(table: seq<Skill>, order: seq<Skill>, w: Sweep, k: nat)
    requires k <= |order| && UniqueIds(table) && Drawn(table, order)
    ensures var r := SweepSkills(table, order, w, k);
            LevelSum(table, r.levels) == LevelSum(table, w.levels) + (r.bought - w.bought)
    decreases |order| - k
  {
    if k < |order| {
      var x := order[k];
      var w1 := BuyLevels(table, w, x);
      SweepCounts(table, order, w1, k + 1);
      if w1.bought > w.bought {
        var j :| 0 <= j < |table| && table[j] == x;
        LevelSumBump(table, w.levels, x.id, w1.bought - w.bought);
      }
    }
  }

  /** The skill FindSkill returns for the id of a table entry is that entry. */
  lemma FoundEntry(table: seq<Skill>, x: Skill)
    requires UniqueIds(table) && exists j :: 0 <= j < |table| && table[j] == x
    ensures FindSkill(table, x.id) == Some(x)
  {
    var j :| 0 <= j < |table| && table[j] == x;
    FoundIsOnly(table, x.id, j);
  }

  /** No level is pushed past its maximum. */
  lemma {:induction false} SweepWithinMax(table: seq<Skill>, order: seq<Skill>, w: Sweep, k: nat)
    requires k <= |order| && UniqueIds(table) && Drawn(table, order)
    requires WithinMax(table, w.levels)
    ensures WithinMax(table, SweepSkills(table, order, w, k).levels)
    decreases |order| - k
  {
    if k < |order| {
      var x := order[k];
      var w1 := BuyLevels(table, w, x);
      if w1.bought > w.bought {
        FoundEntry(table, x);
        BumpWithinMax(table, w.levels, x.id, w1.bought - w.bought);
      }
      SweepWithinMax(table, order, w1, k + 1);
    }
  }

  /** No foreign key enters the record. */
  lemma {:induction false} SweepKeys(table: seq<Skill>, order: seq<Skill>, w: Sweep, k: nat)
    requires k <= |order| && UniqueIds(table) && Drawn(table, order)
    requires KeysInTable(table, w.levels)
    ensures KeysInTable(table, SweepSkills(table, order, w, k).levels)
    decreases |order| - k
  {
    if k < |order| {
      var x := order[k];
      var w1 := BuyLevels(table, w, x);
      if w1.bought > w.bought {
        FoundEntry(table, x);
        RaiseKeepsKeys(table, w.levels, x.id, w1.bought - w.bought);
      }
      SweepKeys(table, order, w1, k + 1);
    }
  }

  /** The tree's record written back and the accumulator rebuilt. */
  function Install(s: State, t: GameData.Tree, ts: TreeState): (r: State)
    ensures GameState.Tree(r, t) == ts
    ensures t != Studies ==> r.studies == s.studies
    ensures t != Ascension ==> r.ascension == s.ascension
    ensures t != Prestige ==> r.prestige == s.prestige
    ensures r.totalClicks == s.totalClicks && r.automation == s.automation && r.flags == s.flags
  {
    var u := WithTree(s, t, ts);
    ApplyKeepsTrees(u);
    ApplyAllSkillEffects(u)
  }

  /** The three facts about one sweep over any table with unique ids, in an
      order drawn from it. */
  lemma SweepFacts(table: seq<Skill>, order: seq<Skill>, w0: Sweep)
    requires UniqueIds(table) && Drawn(table, order)
    ensures var r := SweepSkills(table, order, w0, 0);
            LevelSum(table, r.levels) == LevelSum(table, w0.levels) + (r.bought - w0.bought)
            && (WithinMax(table, w0.levels) ==> WithinMax(table, r.levels))
            && (KeysInTable(table, w0.levels) ==> KeysInTable(table, r.levels))
  {
    SweepCounts(table, order, w0, 0);
    if WithinMax(table, w0.levels) {
      SweepWithinMax(table, order, w0, 0);
    }
    if KeysInTable(table, w0.levels) {
      SweepKeys(table, order, w0, 0);
    }
  }

  /** The order the button visits tree t's skills in. */
  function TierOrder(t: GameData.Tree): seq<Skill> {
    SortByTier(SkillTable(t))
  }

  /** The order visits exactly the table's skills, whose ids are unique. */
  lemma TierOrderDrawn(t: GameData.Tree)
    ensures UniqueIds(SkillTable(t)) && Drawn(SkillTable(t), TierOrder(t))
  {
    TreesWellFormed(t);
    SortedMembers(SkillTable(t));
  }

  /** The button's sweep over tree t, given the table it checks tiers
      against and the order it visits: nothing happens when no level could
      be bought; otherwise the tree's points and levels are written back and
      the accumulator rebuilt. */
  function BuyAllIn(s: State, t: GameData.Tree, table: seq<Skill>, order: seq<Skill>): (r: State)
    ensures t != Studies ==> r.studies == s.studies
    ensures t != Ascension ==> r.ascension == s.ascension
    ensures t != Prestige ==> r.prestige == s.prestige
  {
    var ts := GameState.Tree(s, t);
    var w := SweepSkills(table, order, Sweep(ts.points, ts.levels, 0), 0);
    if w.bought == 0 then s else Install(s, t, TreeState(w.points, w.levels))
  }

  /** Over a table with unique ids, in an order drawn from it, the sweep
      spends one point per level bought, never raises the free points, keeps
      the levels within their maxima and lets no foreign key in. */
  lemma BuyAllInFacts(s: State, t: GameData.Tree, table: seq<Skill>, order: seq<Skill>)
    requires UniqueIds(table) && Drawn(table, order)
    ensures var a := GameState.Tree(s, t);
            var b := GameState.Tree(BuyAllIn(s, t, table, order), t);
            b.points + LevelSum(table, b.levels) == a.points + LevelSum(table, a.levels)
            && b.points <= a.points
            && (WithinMax(table, a.levels) ==> WithinMax(table, b.levels))
            && (KeysInTable(table, a.levels) ==> KeysInTable(table, b.levels))
  {
    var a := GameState.Tree(s, t);
    SweepFacts(table, order, Sweep(a.points, a.levels, 0));
  }

  /** The buy-all button for the visible panel, if any, sweeping the tree's
      skills in tier order; with no panel shown nothing happens, and the
      trees other than the panel's are never touched. */
  function BuyAllSkills(s: State, panel: Option<GameData.Tree>): (r: State)
    ensures panel.None? ==> r == s
    ensures panel.Some? ==>
              (panel.value != Studies ==> r.studies == s.studies)
              && (panel.value != Ascension ==> r.ascension == s.ascension)
              && (panel.value != Prestige ==> r.prestige == s.prestige)
  {
    match panel
    case None => s
    case Some(t) => BuyAllIn(s, t, SkillTable(t), TierOrder(t))
  }

  /** Buying all spends one point per level bought, so the tree keeps its
      worth and its points never rise. */
  lemma BuyAllSkillsConserves(s: State, t: GameData.Tree)
    ensures var r := BuyAllSkills(s, Some(t));
            Worth(r, t) == Worth(s, t)
            && GameState.Tree(r, t).points <= GameState.Tree(s, t).points
  {
    TierOrderDrawn(t);
    assert GameState.Tree(BuyAllSkills(s, Some(t)), t) == GameState.Tree(BuyAllIn(s, t, SkillTable(t), TierOrder(t)), t);
    BuyAllInFacts(s, t, SkillTable(t), TierOrder(t));
  }

  /** Buying all keeps every level within its maximum and the record free of
      foreign keys. */
  lemma BuyAllSkillsKeepsRecord(s: State, t: GameData.Tree)
    ensures var r := BuyAllSkills(s, Some(t));
            (WithinMax(SkillTable(t), GameState.Tree(s, t).levels) ==> WithinMax(SkillTable(t), GameState.Tree(r, t).levels))
            && (KeysInTable(SkillTable(t), GameState.Tree(s, t).levels) ==> KeysInTable(SkillTable(t), GameState.Tree(r, t).levels))
  {
    TierOrderDrawn(t);
    assert GameState.Tree(BuyAllSkills(s, Some(t)), t) == GameState.Tree(BuyAllIn(s, t, SkillTable(t), TierOrder(t)), t);
    BuyAllInFacts(s, t, SkillTable(t), TierOrder(t));
  }
}
