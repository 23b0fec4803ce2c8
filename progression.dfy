/** The progression engine: how a character's stats change when a quest is completed,
    when a completion is undone, and when the stats are edited by hand. Each transition is
    a function of the old stats; the handlers of class `Application.App` run the same steps with
    while loops and are proved equal to these functions. */
module Progression {
  import opened Types

  /** `Math.floor(t * 1.5)`: the threshold of the next level. */
  function Grow(t: int): (r: int)
    ensures 2 * r <= 3 * t < 2 * r + 2
    ensures t >= 1 ==> t <= r
  {
    t + t / 2
  }

  /** `Math.floor(t / 1.5)`: the threshold one level down. */
  function Shrink(t: int): (r: int)
    ensures 3 * r <= 2 * t < 3 * r + 3
  {
    (2 * t) / 3
  }

  /** Clamps a negative amount to zero and leaves the rest alone. */
  function ClampAtZero(x: int): (r: int)
    ensures 0 <= r && x <= r
    ensures x >= 0 ==> r == x
    ensures x < 0 ==> r == 0
  {
    if x < 0 then 0 else x
  }

  /** The perks list recomputed for a level: every flag reflects the level, nothing else moves. */
  function SyncPerks(perks: seq<Perk>, level: int): (r: seq<Perk>)
    ensures |r| == |perks|
    ensures forall i :: 0 <= i < |r| ==> r[i].unlocked == (r[i].level <= level)
    ensures SameShape(r, perks)
  {
    seq(|perks|, i requires 0 <= i < |perks| => perks[i].(unlocked := perks[i].level <= level))
  }

  /** Same perks, in the same order, differing at most in their `unlocked` flags. */
  predicate SameShape(p: seq<Perk>, q: seq<Perk>)
  {
    |p| == |q| && forall i :: 0 <= i < |p| ==> p[i].(unlocked := q[i].unlocked) == q[i]
  }

  /** Every perk is unlocked exactly when the character has reached its level. */
  predicate PerksSynced(s: UserStats)
  {
    forall i :: 0 <= i < |s.perks| ==> s.perks[i].unlocked == (s.perks[i].level <= s.level)
  }

  /** The state the stats panel expects: a positive level and threshold,
      experience below the threshold, no debt. */
  predicate Progressing(s: UserStats)
  {
    1 <= s.level && 1 <= s.nextLevelXp && 0 <= s.xp < s.nextLevelXp && 0 <= s.gold
  }

  /** Recomputing the flags twice is recomputing them once, for the last level. */
  lemma SyncPerksTwice(perks: seq<Perk>, a: int, b: int)
    ensures SyncPerks(SyncPerks(perks, a), b) == SyncPerks(perks, b)
  {
  }

  /** Recomputing the flags of perks that already agree with the level changes nothing. */
  lemma SyncPerksWhenSynced(s: UserStats)
    requires PerksSynced(s)
    ensures SyncPerks(s.perks, s.level) == s.perks
  {
    var r := SyncPerks(s.perks, s.level);
    forall i | 0 <= i < |r| ensures r[i] == s.perks[i] {
      assert r[i].(unlocked := s.perks[i].unlocked) == s.perks[i];
    }
  }

  // ---------------------------------------------------------------- level up

  /** One turn of the level-up loop: raise the level, pay the threshold, grow the
      threshold, recompute the perks for the new level. */
  function Step(s: UserStats): UserStats
  {
    s.(level := s.level + 1,
       xp := s.xp - s.nextLevelXp,
       nextLevelXp := Grow(s.nextLevelXp),
       perks := SyncPerks(s.perks, s.level + 1))
  }

  /** The level-up loop: take steps while the experience reaches the threshold. */
  function LevelUp(s: UserStats): (r: UserStats)
    requires 1 <= s.nextLevelXp
    ensures s.nextLevelXp <= r.nextLevelXp
    ensures r.xp < r.nextLevelXp
    ensures r.xp <= s.xp
    ensures 0 <= s.xp ==> 0 <= r.xp
    ensures s.level <= r.level
    ensures r.gold == s.gold && r.categories == s.categories
    ensures SameShape(r.perks, s.perks)
    ensures r.level == s.level ==> r == s
    ensures s.level < r.level ==> PerksSynced(r)
    decreases s.xp
  {
    if s.xp >= s.nextLevelXp then LevelUp(Step(s)) else s
  }

  /** The threshold after `k` level-ups starting from threshold `t`. */
  function Threshold(t: int, k: nat): int
  {
    if k == 0 then t else Grow(Threshold(t, k - 1))
  }

  /** The experience paid for `k` level-ups starting from threshold `t`. */
  function XpSpent(t: int, k: nat): int
  {
    if k == 0 then 0 else XpSpent(t, k - 1) + Threshold(t, k - 1)
  }

  lemma {:induction false} ThresholdShift(t: int, k: nat)
    ensures Threshold(t, k + 1) == Threshold(Grow(t), k)
  {
    if k > 0 {
      ThresholdShift(t, k - 1);
    }
  }

  lemma {:induction false} XpSpentShift(t: int, k: nat)
    ensures XpSpent(t, k + 1) == t + XpSpent(Grow(t), k)
  {
    if k > 0 {
      XpSpentShift(t, k - 1);
      ThresholdShift(t, k - 1);
    }
  }

  /** With `x` experience and threshold `t`, the `j`-th level-up (counting from 0) can be paid. */
  predicate Affordable(t: int, x: int, j: nat)
  {
    Threshold(t, j) <= x - XpSpent(t, j)
  }

  lemma AffordableStep(t: int, x: int, i: nat)
    ensures Affordable(t, x, i + 1) == Affordable(Grow(t), x - t, i)
  {
    ThresholdShift(t, i);
    XpSpentShift(t, i);
  }

  /** Paying the first `k + 1` thresholds from `t` is paying `t`, then the first `k` from `Grow(t)`. */
  lemma AffordableShift(t: int, x: int, t': int, x': int, k: nat)
    requires t <= x && t' == Grow(t) && x' == x - t
    requires forall j :: 0 <= j < k ==> Affordable(t', x', j)
    ensures forall j :: 0 <= j < k + 1 ==> Affordable(t, x, j)
  {
    forall j | 0 <= j < k + 1
      ensures Affordable(t, x, j)
    {
      if j > 0 {
        AffordableStep(t, x, j - 1);
      }
    }
  }

  /** Closed form of the level-up loop: the number of levels gained is the least `k`
      for which the experience left after paying `k` thresholds is below the next one;
      the result has paid exactly those thresholds, holds the grown threshold and, when
      some level was gained, perks recomputed once for the final level. */
  lemma {:induction false} LevelUpClosedForm(s: UserStats) returns (k: nat)
    requires 1 <= s.nextLevelXp
    ensures forall j :: 0 <= j < k ==> Affordable(s.nextLevelXp, s.xp, j)
    ensures !Affordable(s.nextLevelXp, s.xp, k)
    ensures LevelUp(s).level == s.level + k
    ensures LevelUp(s).xp == s.xp - XpSpent(s.nextLevelXp, k)
    ensures LevelUp(s).nextLevelXp == Threshold(s.nextLevelXp, k)
    ensures LevelUp(s).perks == if k == 0 then s.perks else SyncPerks(s.perks, s.level + k)
    decreases s.xp
  {
    var t := s.nextLevelXp;
    if s.xp < t {
      k := 0;
    } else {
      var s' := Step(s);
      assert s'.nextLevelXp == Grow(t) && s'.xp == s.xp - t && s'.level == s.level + 1;
      assert LevelUp(s) == LevelUp(s');
      var k' := LevelUpClosedForm(s');
      k := k' + 1;
      ThresholdShift(t, k');
      XpSpentShift(t, k');
      AffordableShift(t, s.xp, s'.nextLevelXp, s'.xp, k');
      AffordableStep(t, s.xp, k');
      if k' > 0 {
        SyncPerksTwice(s.perks, s.level + 1, s.level + k);
      }
    }
  }

  // ---------------------------------------------------------------- complete

  /** Stats after completing `q`: nothing when it is already completed, otherwise the
      rewards are added and the level-up loop runs. */
  function CompleteStats(s: UserStats, q: Quest): (r: UserStats)
    requires 1 <= s.nextLevelXp
    ensures q.completed ==> r == s
    ensures !q.completed ==> r.gold == s.gold + q.gold && r.xp < r.nextLevelXp
    ensures s.level <= r.level && s.nextLevelXp <= r.nextLevelXp
    ensures 0 <= s.xp ==> 0 <= r.xp
    ensures r.categories == s.categories && SameShape(r.perks, s.perks)
    ensures r.level == s.level ==> r.perks == s.perks
    ensures PerksSynced(s) ==> PerksSynced(r)
    ensures !q.completed && s.level < r.level ==> PerksSynced(r)
  {
    if q.completed then s else LevelUp(s.(xp := s.xp + q.xp, gold := s.gold + q.gold))
  }

  // ---------------------------------------------------------------- undo

  /** The level-down loop: while the experience is negative above level 1, drop a
      level, shrink the threshold and give back the shrunk threshold as experience. */
  function LevelDown(s: UserStats): (r: UserStats)
    ensures 0 <= r.xp || r.level <= 1
    ensures r.level <= s.level
    ensures 1 <= s.level ==> 1 <= r.level
    ensures r.level < s.level ==> s.xp < 0
    ensures r.gold == s.gold && r.categories == s.categories && r.perks == s.perks
    decreases s.level
  {
    if s.xp < 0 && s.level > 1 then
      var t := Shrink(s.nextLevelXp);
      LevelDown(s.(level := s.level - 1, nextLevelXp := t, xp := s.xp + t))
    else
      s
  }

  /** Because the experience is clamped before the level-down loop tests it,
      the loop never runs: whatever is undone, the level-down step is the identity. */
  lemma LevelDownIsDead(s: UserStats, xpReward: nat, goldReward: nat)
    ensures var cleared := s.(xp := ClampAtZero(s.xp - xpReward), gold := ClampAtZero(s.gold - goldReward));
            LevelDown(cleared) == cleared
  {
  }

  /** Stats after undoing `q`: nothing when it is not completed, otherwise the rewards
      are taken back with experience and gold clamped at zero, the (dead) level-down
      loop runs and the perks are recomputed once. */
  function UndoStats(s: UserStats, q: Quest): (r: UserStats)
    ensures !q.completed ==> r == s
    ensures q.completed ==> r.level == s.level && r.nextLevelXp == s.nextLevelXp && PerksSynced(r)
    ensures q.completed && q.xp <= s.xp ==> r.xp == s.xp - q.xp
    ensures q.completed && s.xp < q.xp ==> r.xp == 0
    ensures q.completed && q.gold <= s.gold ==> r.gold == s.gold - q.gold
    ensures q.completed && s.gold < q.gold ==> r.gold == 0
    ensures r.categories == s.categories && SameShape(r.perks, s.perks)
  {
    if !q.completed then s
    else
      var cleared := s.(xp := ClampAtZero(s.xp - q.xp), gold := ClampAtZero(s.gold - q.gold));
      var down := LevelDown(cleared);
      down.(perks := SyncPerks(down.perks, down.level))
  }

  // ---------------------------------------------------------------- invariants and round trips

  /** Completing and undoing keep the stats in the state the panel expects. */
  lemma TransitionsPreserveProgressing(s: UserStats, q: Quest)
    requires Progressing(s)
    ensures Progressing(CompleteStats(s, q))
    ensures Progressing(UndoStats(s, q))
  {
  }

  /** Completing and undoing keep the perk flags in step with the level. */
  lemma TransitionsPreservePerksSynced(s: UserStats, q: Quest)
    requires 1 <= s.nextLevelXp && PerksSynced(s)
    ensures PerksSynced(CompleteStats(s, q))
    ensures PerksSynced(UndoStats(s, q))
  {
  }

  /** A completion that gains no level is undone exactly. */
  lemma {:induction false} UndoReversesCompleteWithoutLevelUp(s: UserStats, q: Quest)
    requires Progressing(s) && PerksSynced(s)
    requires !q.completed && s.xp + q.xp < s.nextLevelXp
    ensures UndoStats(CompleteStats(s, q), q.(completed := true)) == s
  {
    var c := CompleteStats(s, q);
    assert c == s.(xp := s.xp + q.xp, gold := s.gold + q.gold);
    SyncPerksWhenSynced(s);
  }

  /** A completion that gains a level is never undone in level: undo keeps the higher
      level and threshold, so the round trip of completing then undoing does not return
      to the starting stats. */
  lemma UndoKeepsLevelsGained(s: UserStats, q: Quest)
    requires 1 <= s.nextLevelXp
    requires !q.completed && s.nextLevelXp <= s.xp + q.xp
    ensures UndoStats(CompleteStats(s, q), q.(completed := true)).level > s.level
    ensures UndoStats(CompleteStats(s, q), q.(completed := true)) != s
  {
    var t := s.(xp := s.xp + q.xp, gold := s.gold + q.gold);
    assert LevelUp(t) == LevelUp(Step(t));
  }

  /** Completing a 50 xp / 10 gold quest at level 1 with 80 of 100 xp reaches level 2
      with 30 of 150 xp and 10 gold. */
  lemma CompleteExample(q: Quest)
    requires !q.completed && q.xp == 50 && q.gold == 10
    ensures CompleteStats(UserStats(1, 80, 0, 100, [], []), q) == UserStats(2, 30, 10, 150, [], [])
  {
    var t := UserStats(1, 130, 10, 100, [], []);
    assert Step(t) == UserStats(2, 30, 10, 150, [], []);
  }

  /** Undoing the same quest from level 2 with 30 of 150 xp stays at level 2 with the
      experience and gold clamped to 0: the level gained is not taken back. */
  lemma UndoExample(q: Quest)
    requires q.completed && q.xp == 50 && q.gold == 10
    ensures UndoStats(UserStats(2, 30, 10, 150, [], []), q) == UserStats(2, 0, 0, 150, [], [])
  {
  }

  // ---------------------------------------------------------------- manual edit

  /** A manual edit: every field present in the patch overwrites the stats' field,
      every absent one is kept, and nothing is recomputed. */
  function EditStats(s: UserStats, p: StatsPatch): (r: UserStats)
    ensures r.level == (if p.level.Some? then p.level.value else s.level)
    ensures r.xp == (if p.xp.Some? then p.xp.value else s.xp)
    ensures r.gold == (if p.gold.Some? then p.gold.value else s.gold)
    ensures r.nextLevelXp == (if p.nextLevelXp.Some? then p.nextLevelXp.value else s.nextLevelXp)
    ensures r.categories == (if p.categories.Some? then p.categories.value else s.categories)
    ensures r.perks == (if p.perks.Some? then p.perks.value else s.perks)
  {
    UserStats(
      if p.level.Some? then p.level.value else s.level,
      if p.xp.Some? then p.xp.value else s.xp,
      if p.gold.Some? then p.gold.value else s.gold,
      if p.nextLevelXp.Some? then p.nextLevelXp.value else s.nextLevelXp,
      if p.categories.Some? then p.categories.value else s.categories,
      if p.perks.Some? then p.perks.value else s.perks)
  }

  /** An empty patch changes nothing, and applying a patch twice is applying it once. */
  lemma EditLaws(s: UserStats, p: StatsPatch)
    ensures EditStats(s, StatsPatch(None, None, None, None, None, None)) == s
    ensures EditStats(EditStats(s, p), p) == EditStats(s, p)
  {
  }

  /** An edit of the level alone leaves the perk flags as they were, so it can break
      the agreement between perks and level that completing and undoing keep. */
  lemma EditCanDesyncPerks(p: Perk)
    requires p.level == 2 && !p.unlocked
    ensures PerksSynced(UserStats(1, 0, 0, 100, [], [p]))
    ensures !PerksSynced(EditStats(UserStats(1, 0, 0, 100, [], [p]),
                                   StatsPatch(Some(2), None, None, None, None, None)))
  {
    assert EditStats(UserStats(1, 0, 0, 100, [], [p]), StatsPatch(Some(2), None, None, None, None, None)).perks[0] == p;
  }
}
