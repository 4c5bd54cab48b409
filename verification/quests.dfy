/** The quest machine of quests.js. `completedQuests` is keyed by the array
    index of a quest ("0" … "21"), and each entry moves from pending to
    completed to claimed. */
module QuestLog {
  import opened Wrappers
  import opened Numeric
  import opened GameData
  import opened GameState
  import opened Production

  /** Is the key the index key of some quest? */
  predicate IsQuestKey(key: string) {
    KeyFrom(key, 0)
  }

  /** Is the key the index key of a quest at position i or later? */
  predicate KeyFrom(key: string, i: nat) {
    exists j :: i <= j < |Quests| && QuestKey(j) == key
  }

  /** An entry the update skips: completed or claimed. */
  predicate Settled(e: QuestEntry) {
    e.completed || e.claimed
  }

  /** Claimed entries are always completed ones. */
  predicate Consistent(m: map<string, QuestEntry>) {
    forall k :: k in m && m[k].claimed ==> m[k].completed
  }

  /** One pass of updateQuestProgress's loop body for one key: an absent entry
      is created pending; an entry already completed or claimed is skipped;
      a pending one completes, since no quest of the table carries the
      `conditions` record the loop reads. */
  function Advance(m: map<string, QuestEntry>, key: string): (r: map<string, QuestEntry>)
    ensures key in r && (r[key].completed || r[key].claimed)
    ensures key !in m || !m[key].claimed ==> r[key].completed
    ensures key in m && Settled(m[key]) ==> r == m
    ensures key in m ==> r[key].claimed == m[key].claimed
    ensures forall k :: k != key ==> (k in r <==> k in m) && (k in m ==> r[k] == m[k])
  {
    if key in m && Settled(m[key]) then m
    else m[key := QuestEntry(true, false)]
  }

  /** The loop over the index keys i, i+1, …, 21. */
  function AdvanceFrom(m: map<string, QuestEntry>, i: nat): map<string, QuestEntry>
    requires i <= |Quests|
    decreases |Quests| - i
  {
    if i == |Quests| then m
    else AdvanceFrom(Advance(m, QuestKey(i)), i + 1)
  }

  /** What the loop from position i does to one key: every quest key it
      visits ends settled, settled entries stay as they were, `claimed` never
      changes, only quest keys are added (pending-completed, unclaimed), and a
      key it never visits is left alone. */
  lemma {:induction false} AdvanceFromKey(m: map<string, QuestEntry>, i: nat, k: string)
    requires i <= |Quests|
    ensures KeyFrom(k, i) ==> k in AdvanceFrom(m, i) && Settled(AdvanceFrom(m, i)[k])
    ensures k in m && Settled(m[k]) ==> k in AdvanceFrom(m, i) && AdvanceFrom(m, i)[k] == m[k]
    ensures k in m ==> k in AdvanceFrom(m, i) && AdvanceFrom(m, i)[k].claimed == m[k].claimed
    ensures k in AdvanceFrom(m, i) && k !in m ==> KeyFrom(k, i) && AdvanceFrom(m, i)[k] == QuestEntry(true, false)
    ensures !KeyFrom(k, i) ==> (k in AdvanceFrom(m, i) <==> k in m) && (k in m ==> AdvanceFrom(m, i)[k] == m[k])
    decreases |Quests| - i
  {
    if i < |Quests| {
      var m1 := Advance(m, QuestKey(i));
      AdvanceFromKey(m1, i + 1, k);
      assert AdvanceFrom(m, i) == AdvanceFrom(m1, i + 1);
      if KeyFrom(k, i) && !KeyFrom(k, i + 1) {
        var j :| i <= j < |Quests| && QuestKey(j) == k;
        assert j == i;
      }
      if KeyFrom(k, i + 1) {
        var j :| i + 1 <= j < |Quests| && QuestKey(j) == k;
        assert KeyFrom(k, i);
      }
    }
  }

  /** updateQuestProgress. */
  function UpdateQuestProgress(s: State): (r: State)
    ensures r.(completedQuests := s.completedQuests) == s
    ensures Kept(s, r) && r.flags == s.flags && r.effects == s.effects && r.totalBps == s.totalBps
  {
    s.(completedQuests := AdvanceFrom(s.completedQuests, 0))
  }

  /** After an update every quest has an entry, completed or claimed; with
      claimed entries completed, every quest is completed. */
  lemma UpdateQuestProgressSettles(s: State)
    ensures forall i :: 0 <= i < |Quests| ==>
              QuestKey(i) in UpdateQuestProgress(s).completedQuests
              && Settled(UpdateQuestProgress(s).completedQuests[QuestKey(i)])
    ensures Consistent(s.completedQuests) ==>
              forall i :: 0 <= i < |Quests| ==> UpdateQuestProgress(s).completedQuests[QuestKey(i)].completed
  {
    forall i | 0 <= i < |Quests|
      ensures QuestKey(i) in UpdateQuestProgress(s).completedQuests
      ensures Settled(UpdateQuestProgress(s).completedQuests[QuestKey(i)])
      ensures Consistent(s.completedQuests) ==> UpdateQuestProgress(s).completedQuests[QuestKey(i)].completed
    {
      assert KeyFrom(QuestKey(i), 0);
      AdvanceFromKey(s.completedQuests, 0, QuestKey(i));
    }
  }

  /** Entries already completed or claimed are never touched, `completed`
      only ever moves from false to true, and the keys that are no quest's
      index are left alone. */
  lemma UpdateQuestProgressMonotone(s: State, k: string)
    ensures k in s.completedQuests && Settled(s.completedQuests[k]) ==>
              k in UpdateQuestProgress(s).completedQuests
              && UpdateQuestProgress(s).completedQuests[k] == s.completedQuests[k]
    ensures k in s.completedQuests ==>
              (k in UpdateQuestProgress(s).completedQuests &&
               (s.completedQuests[k].completed ==> UpdateQuestProgress(s).completedQuests[k].completed))
    ensures !IsQuestKey(k) ==>
              (k in UpdateQuestProgress(s).completedQuests <==> k in s.completedQuests) &&
              (k in s.completedQuests ==> UpdateQuestProgress(s).completedQuests[k] == s.completedQuests[k])
  {
    AdvanceFromKey(s.completedQuests, 0, k);
  }

  /** A second update finds nothing pending and changes nothing. */
  lemma {:induction false} AdvanceFromSettled(m: map<string, QuestEntry>, i: nat)
    requires i <= |Quests|
    requires forall j :: i <= j < |Quests| ==> QuestKey(j) in m && Settled(m[QuestKey(j)])
    ensures AdvanceFrom(m, i) == m
    decreases |Quests| - i
  {
    if i < |Quests| {
      assert Advance(m, QuestKey(i)) == m;
      AdvanceFromSettled(m, i + 1);
    }
  }

  lemma UpdateQuestProgressIdempotent(s: State)
    ensures UpdateQuestProgress(UpdateQuestProgress(s)) == UpdateQuestProgress(s)
  {
    UpdateQuestProgressSettles(s);
    AdvanceFromSettled(UpdateQuestProgress(s).completedQuests, 0);
  }

  /** The update keeps claimed entries completed. */
  lemma UpdateKeepsConsistent(s: State)
    requires Consistent(s.completedQuests)
    ensures Consistent(UpdateQuestProgress(s).completedQuests)
  {
    var r := UpdateQuestProgress(s).completedQuests;
    forall k | k in r && r[k].claimed ensures r[k].completed {
      AdvanceFromKey(s.completedQuests, 0, k);
    }
  }

  /** What one claimed reward evidently should grant: the five reward kinds
      claimQuestReward names add their amount, a PA multiplier reward raises
      the quest PA multiplier by its percentage, and the kinds it does not
      name grant nothing. */
  function GrantQuestReward(s: State, reward: QuestReward): (r: State)
    ensures reward.BonsPointsReward? ==> r == s.(bonsPoints := s.bonsPoints + reward.amount)
    ensures reward.ImagesReward? ==> r == s.(images := s.images + reward.count)
    ensures reward.AscensionPointsReward? ==> r == s.(ascensionPoints := s.ascensionPoints + reward.amount)
    ensures reward.PrestigePointsReward? ==> r == s.(prestigePoints := s.prestigePoints + reward.amount)
    ensures reward.PaMultiplierReward? ==>
              r == s.(paMultiplierFromQuests := s.paMultiplierFromQuests * (1.0 + reward.increase))
    ensures (reward.PpMultiplierReward? || reward.SkillPointsReward? || reward.AllCostReductionReward?
             || reward.AllBpsMultiplierReward?) ==> r == s
  {
    match reward
    case BonsPointsReward(a) => s.(bonsPoints := s.bonsPoints + a)
    case ImagesReward(n) => s.(images := s.images + n)
    case AscensionPointsReward(a) => s.(ascensionPoints := s.ascensionPoints + a)
    case PrestigePointsReward(a) => s.(prestigePoints := s.prestigePoints + a)
    case PaMultiplierReward(x) => s.(paMultiplierFromQuests := s.paMultiplierFromQuests * (1.0 + x))
    case _ => s
  }

  /** Can the quest at this key be claimed now? */
  predicate Claimable(s: State, key: string) {
    QuestAt(key).Some? && key in s.completedQuests
    && s.completedQuests[key].completed && !s.completedQuests[key].claimed
  }

  /** The claim shared by both readings: an unknown key, an uncompleted quest
      and an already claimed one change nothing; otherwise the grant of the
      quest's reward, the claimed mark and the rebuild. */
  function Claim(s: State, key: string, grant: (State, QuestReward) -> State): State {
    if !Claimable(s, key) then s
    else
      var t := grant(s, Quests[QuestAt(key).value].reward);
      ApplyAllSkillEffects(t.(completedQuests := s.completedQuests[key := QuestEntry(true, true)]))
  }

  /** claimQuestReward with the evidently intended grant. */
  function ClaimQuestReward(s: State, key: string): (r: State)
    ensures !Claimable(s, key) ==> r == s
    ensures Claimable(s, key) ==>
              r.completedQuests == s.completedQuests[key := QuestEntry(true, true)]
              && r == ApplyAllSkillEffects(GrantQuestReward(s, Quests[QuestAt(key).value].reward)
                                             .(completedQuests := r.completedQuests))
  {
    Claim(s, key, GrantQuestReward)
  }

  /** The number a reward record `{ type, amount }` holds. */
  function AmountOf(reward: QuestReward): real {
    match reward
    case BonsPointsReward(a) => a
    case ImagesReward(n) => n as real
    case AscensionPointsReward(a) => a
    case PrestigePointsReward(a) => a
    case PaMultiplierReward(x) => x
    case PpMultiplierReward(x) => x
    case SkillPointsReward(_, n) => n as real
    case AllCostReductionReward(a) => a
    case AllBpsMultiplierReward(x) => x
  }

  /** Reading a property of a reward record: only `amount` holds a number,
      and any other name reads undefined. */
  function RewardField(reward: QuestReward, name: string): Option<real> {
    if name == "amount" then Some(AmountOf(reward)) else None
  }

  /** `if (p) x = x.add(p)` on a property p that may be undefined. */
  function AddIfSet(x: real, p: Option<real>): real {
    match p
    case Some(a) => if a != 0.0 then x + a else x
    case None => x
  }

  /** The same for the image count, which the model keeps whole. */
  function AddWholeIfSet(n: nat, p: Option<real>): nat {
    match p
    case Some(a) => if a != 0.0 && a.Floor >= 0 then n + a.Floor as nat else n
    case None => n
  }

  /** `if (p) x = x.mul(p)` on a property p that may be undefined. */
  function ScaleIfSet(x: real, p: Option<real>): real {
    match p
    case Some(a) => if a != 0.0 then x * a else x
    case None => x
  }

  /** The grant as claimQuestReward writes it, reading the record through
      `reward`: five tests of the properties bonsPoints, images,
      ascensionPoints, prestigePoints and paMultiplier, none of which a
      `{ type, amount }` record has, so nothing is granted. */
  function GrantAsWritten(s: State, reward: QuestReward): (r: State)
    ensures r == s
  {
    s.(bonsPoints := AddIfSet(s.bonsPoints, RewardField(reward, "bonsPoints")),
       images := AddWholeIfSet(s.images, RewardField(reward, "images")),
       ascensionPoints := AddIfSet(s.ascensionPoints, RewardField(reward, "ascensionPoints")),
       prestigePoints := AddIfSet(s.prestigePoints, RewardField(reward, "prestigePoints")),
       paMultiplierFromQuests := ScaleIfSet(s.paMultiplierFromQuests, RewardField(reward, "paMultiplier")))
  }

  /** claimQuestReward as written: the refusals, then a grant of nothing, the
      claimed mark and the rebuild. */
  function ClaimQuestRewardAsWritten(s: State, key: string): (r: State)
    ensures !Claimable(s, key) ==> r == s
    ensures Claimable(s, key) ==>
              r == ApplyAllSkillEffects(s.(completedQuests := s.completedQuests[key := QuestEntry(true, true)]))
  {
    Claim(s, key, GrantAsWritten)
  }

  /** As written a claim grants nothing: every holding a reward could raise
      is as it was. */
  lemma ClaimAsWrittenGrantsNothing(s: State, key: string)
    ensures var r := ClaimQuestRewardAsWritten(s, key);
            r.bonsPoints == s.bonsPoints && r.images == s.images && r.ascensionPoints == s.ascensionPoints
            && r.prestigePoints == s.prestigePoints && r.paMultiplierFromQuests == s.paMultiplierFromQuests
  {
  }

  /** The discrepancy: claiming the first-click quest grants its 10 bons points
      as intended, and none as written. */
  lemma FirstClickClaimDiffers(s: State)
    requires Claimable(s, QuestKey(0))
    ensures ClaimQuestReward(s, QuestKey(0)).bonsPoints == s.bonsPoints + 10.0
    ensures ClaimQuestRewardAsWritten(s, QuestKey(0)).bonsPoints == s.bonsPoints
  {
    QuestKeyRoundTrip(0);
    assert Quests[0].reward == BonsPointsReward(10.0);
  }

  /** A claimed quest cannot be claimed a second time. */
  lemma ClaimTwiceIsClaimOnce(s: State, key: string)
    ensures ClaimQuestReward(ClaimQuestReward(s, key), key) == ClaimQuestReward(s, key)
  {
  }

  /** A claim keeps every claimed entry completed. */
  lemma ClaimKeepsConsistent(s: State, key: string)
    requires Consistent(s.completedQuests)
    ensures Consistent(ClaimQuestReward(s, key).completedQuests)
  {
  }

  /** Claiming the first-ascension quest raises the quest PA multiplier by its
      10 %, as data.js describes the reward. */
  lemma PaMultiplierRewardMultiplies(s: State)
    requires Claimable(s, QuestKey(8))
    ensures ClaimQuestReward(s, QuestKey(8)).paMultiplierFromQuests == s.paMultiplierFromQuests * 1.10
  {
    QuestKeyRoundTrip(8);
    assert Quests[8].reward == PaMultiplierReward(0.10);
    var t := GrantQuestReward(s, PaMultiplierReward(0.10));
    var u := t.(completedQuests := s.completedQuests[QuestKey(8) := QuestEntry(true, true)]);
    assert ClaimQuestReward(s, QuestKey(8)) == ApplyAllSkillEffects(u);
    assert u.paMultiplierFromQuests == s.paMultiplierFromQuests * 1.10;
  }

  /** A quest's own id is no key of the log, so claiming by id is refused. */
  lemma ClaimByIdRefused(s: State, q: nat)
    requires q < |Quests|
    ensures ClaimQuestReward(s, Quests[q].id) == s
  {
    QuestIdIsNotAKey(q);
  }
}
