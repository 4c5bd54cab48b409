/** purchaseSkill of skills.js, as written (the skill points are never
    charged) and as its comments intend (the cost is paid), together with the
    level-record facts the skill handlers of events.js share. */
module SkillPurchase {
  import opened Wrappers
  import opened GameData
  import opened GameState
  import opened Production
  import opened Unlocks

  /** One prerequisite: the tree has a skill of that id and the level
      record has it at that skill's maximum. */
  predicate PrerequisiteMaxed(table: seq<Skill>, levels: map<SkillId, nat>, id: SkillId) {
    match FindSkill(table, id)
    case None => false
    case Some(p) => LevelOf(levels, id) >= p.maxLevel
  }

  /** `skill.prerequisites.every(...)`. */
  function AllMaxed(table: seq<Skill>, levels: map<SkillId, nat>, ids: seq<SkillId>): (b: bool)
    ensures b <==> forall i :: 0 <= i < |ids| ==> PrerequisiteMaxed(table, levels, ids[i])
    decreases |ids|
  {
    if |ids| == 0 then true
    else PrerequisiteMaxed(table, levels, ids[0]) && AllMaxed(table, levels, ids[1..])
  }

  /** Every level of the record within its skill's maximum. */
  predicate WithinMax(table: seq<Skill>, levels: map<SkillId, nat>) {
    forall k :: 0 <= k < |table| ==> LevelOf(levels, table[k].id) <= table[k].maxLevel
  }

  /** Every key of the level record is a skill of the tree. */
  predicate KeysInTable(table: seq<Skill>, levels: map<SkillId, nat>) {
    forall id :: id in levels ==> FindSkill(table, id).Some?
  }

  /** The points a tree holds, spent or not: its free points and one per
      level bought. */
  function Worth(s: State, t: GameData.Tree): nat {
    GameState.Tree(s, t).points + LevelSum(SkillTable(t), GameState.Tree(s, t).levels)
  }

  /** The level record with one skill raised by n levels. */
  function Raise(levels: map<SkillId, nat>, id: SkillId, n: nat): map<SkillId, nat> {
    levels[id := LevelOf(levels, id) + n]
  }

  /** Raising one id leaves the sum over a table without that id alone. */
  lemma {:induction false} LevelSumOther(table: seq<Skill>, levels: map<SkillId, nat>, id: SkillId, v: nat)
    requires forall k :: 0 <= k < |table| ==> table[k].id != id
    ensures LevelSum(table, levels[id := v]) == LevelSum(table, levels)
    decreases |table|
  {
    if |table| > 0 {
      LevelSumOther(table[1..], levels, id, v);
    }
  }

  /** Raising the level of a skill of the table by n raises the table's sum
      by n, ids being unique. */
  lemma {:induction false} LevelSumBump(table: seq<Skill>, levels: map<SkillId, nat>, id: SkillId, n: nat)
    requires UniqueIds(table)
    requires FindSkill(table, id).Some?
    ensures LevelSum(table, Raise(levels, id, n)) == LevelSum(table, levels) + n
    decreases |table|
  {
    var m := Raise(levels, id, n);
    if table[0].id == id {
      forall k | 0 <= k < |table[1..]| ensures table[1..][k].id != id {
        assert table[1..][k] == table[k + 1];
      }
      LevelSumOther(table[1..], levels, id, LevelOf(levels, id) + n);
      assert LevelOf(m, id) == LevelOf(levels, id) + n;
    } else {
      assert FindSkill(table[1..], id) == FindSkill(table, id);
      assert UniqueIds(table[1..]) by {
        forall i, j | 0 <= i < j < |table[1..]| ensures table[1..][i].id != table[1..][j].id {
          assert table[1..][i] == table[i + 1] && table[1..][j] == table[j + 1];
        }
      }
      LevelSumBump(table[1..], levels, id, n);
      assert LevelOf(m, table[0].id) == LevelOf(levels, table[0].id);
    }
  }

  /** With unique ids, the skill FindSkill returns is the one entry of the
      table carrying that id. */
  lemma FoundIsOnly(table: seq<Skill>, id: SkillId, j: nat)
    requires UniqueIds(table)
    requires FindSkill(table, id).Some?
    requires j < |table| && table[j].id == id
    ensures table[j] == FindSkill(table, id).value
  {
    var x := FindSkill(table, id).value;
    var i :| 0 <= i < |table| && table[i] == x;
    assert table[i].id == table[j].id;
  }

  /** Raising a skill to a level within its maximum keeps the record within
      the maxima. */
  lemma BumpWithinMax(table: seq<Skill>, levels: map<SkillId, nat>, id: SkillId, n: nat)
    requires UniqueIds(table) && WithinMax(table, levels)
    requires FindSkill(table, id).Some? && LevelOf(levels, id) + n <= FindSkill(table, id).value.maxLevel
    ensures WithinMax(table, Raise(levels, id, n))
  {
    forall k | 0 <= k < |table| ensures LevelOf(Raise(levels, id, n), table[k].id) <= table[k].maxLevel {
      if table[k].id == id {
        FoundIsOnly(table, id, k);
      }
    }
  }

  /** One more level of a skill below its maximum, in a tree of the game. */
  lemma RaiseWithinMax(t: GameData.Tree, levels: map<SkillId, nat>, id: SkillId)
    requires FindSkill(SkillTable(t), id).Some? && LevelOf(levels, id) < FindSkill(SkillTable(t), id).value.maxLevel
    requires WithinMax(SkillTable(t), levels)
    ensures WithinMax(SkillTable(t), Raise(levels, id, 1))
  {
    TreesWellFormed(t);
    BumpWithinMax(SkillTable(t), levels, id, 1);
  }

  /** Raising a skill of the table adds no foreign key. */
  lemma RaiseKeepsKeys(table: seq<Skill>, levels: map<SkillId, nat>, id: SkillId, n: nat)
    requires FindSkill(table, id).Some? && KeysInTable(table, levels)
    ensures KeysInTable(table, Raise(levels, id, n))
  {
  }

  /** The four guards of purchaseSkill once the tree is known: the skill
      exists in that tree, is below its maximum, has every prerequisite at
      its maximum, and the tree's points cover its cost. */
  predicate Allowed(s: State, t: GameData.Tree, id: SkillId) {
    match FindSkill(SkillTable(t), id)
    case None => false
    case Some(k) =>
      LevelOf(GameState.Tree(s, t).levels, id) < k.maxLevel
      && AllMaxed(SkillTable(t), GameState.Tree(s, t).levels, k.prerequisites)
      && GameState.Tree(s, t).points >= k.cost
  }

  /** The rebuild and unlock check that follow a change of levels; they
      leave every tree as it is. */
  function Refresh(u: State): (r: State)
    ensures r.studies == u.studies && r.ascension == u.ascension && r.prestige == u.prestige
    ensures r.totalClicks == u.totalClicks && r.automation == u.automation
  {
    var a := ApplyAllSkillEffects(u);
    ApplyKeepsTrees(u);
    CheckUnlocks(a)
  }

  /** The level raised by one, the tree left with the given points, the
      accumulator rebuilt and the unlocks checked. */
  function Learn(s: State, t: GameData.Tree, id: SkillId, points: nat): (r: State)
    ensures GameState.Tree(r, t) == TreeState(points, Raise(GameState.Tree(s, t).levels, id, 1))
    ensures t != Studies ==> r.studies == s.studies
    ensures t != Ascension ==> r.ascension == s.ascension
    ensures t != Prestige ==> r.prestige == s.prestige
    ensures r.totalClicks == s.totalClicks && r.automation == s.automation
  {
    var u := WithTree(s, t, TreeState(points, Raise(GameState.Tree(s, t).levels, id, 1)));
    var r := Refresh(u);
    SameTrees(u, r, t);
    r
  }

  /** States with the same three trees agree on each of them. */
  lemma SameTrees(u: State, r: State, t: GameData.Tree)
    requires r.studies == u.studies && r.ascension == u.ascension && r.prestige == u.prestige
    ensures GameState.Tree(r, t) == GameState.Tree(u, t)
  {
  }

  /** purchaseSkill as written: an unknown tree, an unknown skill, a skill
      at its maximum, a missing prerequisite and too few points are each
      refused; otherwise the level rises by one, and the points stay, the
      subtraction's result being discarded. */
  function PurchaseSkill(s: State, key: string, id: SkillId): (r: State)
    ensures ParseTree(key).None? ==> r == s
    ensures ParseTree(key).Some? && FindSkill(SkillTable(ParseTree(key).value), id).None? ==> r == s
    ensures ParseTree(key).Some? && !Allowed(s, ParseTree(key).value, id) ==> r == s
  {
    match ParseTree(key)
    case None => s
    case Some(t) => if Allowed(s, t, id) then Learn(s, t, id, GameState.Tree(s, t).points) else s
  }

  /** The refusals one by one, in the order purchaseSkill tests them. */
  lemma PurchaseSkillRefusals(s: State, t: GameData.Tree, id: SkillId)
    requires FindSkill(SkillTable(t), id).Some?
    ensures var k := FindSkill(SkillTable(t), id).value;
            (LevelOf(GameState.Tree(s, t).levels, id) >= k.maxLevel ==> !Allowed(s, t, id))
            && ((exists i :: 0 <= i < |k.prerequisites| && !PrerequisiteMaxed(SkillTable(t), GameState.Tree(s, t).levels, k.prerequisites[i]))
                ==> !Allowed(s, t, id))
            && (GameState.Tree(s, t).points < k.cost ==> !Allowed(s, t, id))
            && ((LevelOf(GameState.Tree(s, t).levels, id) < k.maxLevel
                 && (forall i :: 0 <= i < |k.prerequisites| ==> PrerequisiteMaxed(SkillTable(t), GameState.Tree(s, t).levels, k.prerequisites[i]))
                 && GameState.Tree(s, t).points >= k.cost) ==> Allowed(s, t, id))
  {
  }

  /** An allowed purchase raises exactly that skill's level by one, to at
      most its maximum, leaves the tree's points and the other trees as they
      were. */
  lemma PurchaseSkillOutcome(s: State, key: string, t: GameData.Tree, id: SkillId)
    requires ParseTree(key) == Some(t) && Allowed(s, t, id)
    ensures var r := PurchaseSkill(s, key, id);
            GameState.Tree(r, t).points == GameState.Tree(s, t).points
            && GameState.Tree(r, t).levels == Raise(GameState.Tree(s, t).levels, id, 1)
            && LevelOf(GameState.Tree(r, t).levels, id) <= FindSkill(SkillTable(t), id).value.maxLevel
            && (t != Studies ==> r.studies == s.studies)
            && (t != Ascension ==> r.ascension == s.ascension)
            && (t != Prestige ==> r.prestige == s.prestige)
  {
    assert PurchaseSkill(s, key, id) == Learn(s, t, id, GameState.Tree(s, t).points);
  }

  /** A purchase keeps every level within its maximum. */
  lemma PurchaseSkillKeepsWithinMax(s: State, key: string, t: GameData.Tree, id: SkillId)
    requires ParseTree(key) == Some(t) && WithinMax(SkillTable(t), GameState.Tree(s, t).levels)
    ensures WithinMax(SkillTable(t), GameState.Tree(PurchaseSkill(s, key, id), t).levels)
  {
    if Allowed(s, t, id) {
      PurchaseSkillOutcome(s, key, t, id);
      RaiseWithinMax(t, GameState.Tree(s, t).levels, id);
    }
  }

  /** A purchase only ever adds a key of the tree to its level record. */
  lemma PurchaseSkillKeepsKeys(s: State, key: string, t: GameData.Tree, id: SkillId)
    requires ParseTree(key) == Some(t) && KeysInTable(SkillTable(t), GameState.Tree(s, t).levels)
    ensures KeysInTable(SkillTable(t), GameState.Tree(PurchaseSkill(s, key, id), t).levels)
  {
    if Allowed(s, t, id) {
      PurchaseSkillOutcome(s, key, t, id);
      RaiseKeepsKeys(SkillTable(t), GameState.Tree(s, t).levels, id, 1);
    }
  }

  /** Learning a skill of the tree adds one level to the tree's sum. */
  lemma LearnWorth(s: State, t: GameData.Tree, id: SkillId, points: nat)
    requires FindSkill(SkillTable(t), id).Some?
    ensures Worth(Learn(s, t, id, points), t) == points + LevelSum(SkillTable(t), GameState.Tree(s, t).levels) + 1
  {
    TreesWellFormed(t);
    LevelSumBump(SkillTable(t), GameState.Tree(s, t).levels, id, 1);
  }

  /** As written, an allowed purchase mints a point: the tree is worth one
      more than before, so a skill reset afterwards hands back a point that
      was never paid. */
  lemma PurchaseSkillMintsPoint(s: State, key: string, t: GameData.Tree, id: SkillId)
    requires ParseTree(key) == Some(t) && Allowed(s, t, id)
    ensures Worth(PurchaseSkill(s, key, id), t) == Worth(s, t) + 1
  {
    assert PurchaseSkill(s, key, id) == Learn(s, t, id, GameState.Tree(s, t).points);
    LearnWorth(s, t, id, GameState.Tree(s, t).points);
  }

  /** purchaseSkill as its comments intend: the same guards, and the cost
      taken from the tree's points. */
  function PurchaseSkillCharged(s: State, key: string, id: SkillId): (r: State)
    ensures ParseTree(key).None? ==> r == s
    ensures ParseTree(key).Some? && !Allowed(s, ParseTree(key).value, id) ==> r == s
  {
    match ParseTree(key)
    case None => s
    case Some(t) => Charged(s, t, id)
  }

  /** An allowed purchase names a skill of the tree whose cost the points
      cover. */
  lemma AllowedAffords(s: State, t: GameData.Tree, id: SkillId)
    requires Allowed(s, t, id)
    ensures FindSkill(SkillTable(t), id).Some?
    ensures GameState.Tree(s, t).points >= SkillCost(t, id)
  {
  }

  /** The price of a skill of the tree. */
  function SkillCost(t: GameData.Tree, id: SkillId): nat
    requires FindSkill(SkillTable(t), id).Some?
  {
    FindSkill(SkillTable(t), id).value.cost
  }

  /** The charged purchase in a known tree. */
  function Charged(s: State, t: GameData.Tree, id: SkillId): (r: State)
    ensures !Allowed(s, t, id) ==> r == s
  {
    if Allowed(s, t, id) then Learn(s, t, id, PointsAfter(s, t, id)) else s
  }

  /** The points an allowed charged purchase leaves: the cost comes off. */
  function PointsAfter(s: State, t: GameData.Tree, id: SkillId): (p: nat)
    requires Allowed(s, t, id)
    ensures FindSkill(SkillTable(t), id).Some? && p + SkillCost(t, id) == GameState.Tree(s, t).points
  {
    AllowedAffords(s, t, id);
    GameState.Tree(s, t).points - SkillCost(t, id)
  }

  /** In a known tree the charged purchase is Charged... */
  lemma ChargedByKey(s: State, key: string, t: GameData.Tree, id: SkillId)
    requires ParseTree(key) == Some(t)
    ensures PurchaseSkillCharged(s, key, id) == Charged(s, t, id)
  {
  }

  /** ... and, when allowed, the learning of the skill at the points less
      its cost. */
  lemma ChargedIsLearn(s: State, t: GameData.Tree, id: SkillId)
    requires Allowed(s, t, id)
    ensures Charged(s, t, id) == Learn(s, t, id, PointsAfter(s, t, id))
  {
  }

  /** A charged purchase takes exactly the cost from the tree's points and
      raises exactly one level, leaving the other trees as they were. */
  lemma PurchaseSkillChargedOutcome(s: State, key: string, t: GameData.Tree, id: SkillId)
    requires ParseTree(key) == Some(t) && Allowed(s, t, id)
    ensures var r := PurchaseSkillCharged(s, key, id);
            GameState.Tree(r, t).points + SkillCost(t, id) == GameState.Tree(s, t).points
            && GameState.Tree(r, t).levels == Raise(GameState.Tree(s, t).levels, id, 1)
            && (t != Studies ==> r.studies == s.studies)
            && (t != Ascension ==> r.ascension == s.ascension)
            && (t != Prestige ==> r.prestige == s.prestige)
  {
    ChargedByKey(s, key, t, id);
    ChargedIsLearn(s, t, id);
  }

  /** So the tree's worth moves by one less the cost: a skill of cost one,
      refunded at one point per level, keeps the worth. */
  lemma PurchaseSkillChargedWorth(s: State, key: string, t: GameData.Tree, id: SkillId)
    requires ParseTree(key) == Some(t) && Allowed(s, t, id)
    ensures Worth(PurchaseSkillCharged(s, key, id), t) + SkillCost(t, id) == Worth(s, t) + 1
  {
    ChargedByKey(s, key, t, id);
    ChargedIsLearn(s, t, id);
    LearnWorth(s, t, id, PointsAfter(s, t, id));
  }
}
