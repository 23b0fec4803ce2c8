/** The application's state (the character's stats and the quest list) and the four
    handlers the dashboard calls. Each handler copies the stats, updates the copy step
    by step as the application does, and is proved to produce the transition that
    `Progression` and `QuestStore` define. Clock readings and generated identifiers are
    parameters. */
module Application {
  import opened Types
  import opened Progression
  import opened QuestStore

  /** The stats a session starts with: level 1, no experience, no gold, a threshold of
      100, four categories and two perks, both locked. */
  function InitialStats(): (s: UserStats)
    ensures Progressing(s) && s.level == 1 && s.xp == 0 && s.gold == 0 && s.nextLevelXp == 100
    ensures |s.categories| == 4 && |s.perks| == 2
    ensures s.perks[0].level == 1 && s.perks[1].level == 2
    ensures forall i :: 0 <= i < |s.perks| ==> !s.perks[i].unlocked
  {
    UserStats(
      1, 0, 0, 100,
      [Category("1", "Fitness", "#ef4444"),
       Category("2", "Learning", "#3b82f6"),
       Category("3", "Social", "#10b981"),
       Category("4", "Productivity", "#f59e0b")],
      [Perk("1", "Early Bird", "Wake up early for 7 days straight", 1, false, None),
       Perk("2", "Bookworm", "Read for 30 minutes daily", 2, false, None)])
  }

  /** The three quests a session starts with, none completed; `t1`..`t3` are the
      creation times read from the clock. */
  function InitialQuests(t1: string, t2: string, t3: string): (qs: seq<Quest>)
    ensures |qs| == 3 && AllWellFormed(qs)
    ensures forall i :: 0 <= i < |qs| ==> !qs[i].completed
    ensures forall i, j :: 0 <= i < j < |qs| ==> qs[i].id != qs[j].id
  {
    [Quest("1", "Morning Workout", "Complete a 30-minute workout session",
           50, 10, "Fitness", Daily, false, t1, None),
     Quest("2", "Study Session", "Study a new programming concept for 1 hour",
           75, 15, "Learning", Daily, false, t2, None),
     Quest("3", "Social Challenge", "Attend a networking event",
           200, 50, "Social", Challenge, false, t3, None)]
  }

  /** The first perk requires level 1 yet starts locked, so the initial stats do not
      satisfy the perk agreement that completing and undoing otherwise keep. */
  lemma InitialPerksOutOfStep()
    ensures !PerksSynced(InitialStats())
  {
    assert InitialStats().perks[0].level <= InitialStats().level;
  }

  /** Completing the three initial quests in order reaches level 3 with 75 of 225
      experience and 75 gold, with both perks unlocked. */
  lemma InitialPlaythrough(t1: string, t2: string, t3: string, a1: string, a2: string)
    ensures var qs := InitialQuests(t1, t2, t3);
            var s := CompleteStats(CompleteStats(CompleteStats(InitialStats(), qs[0]), qs[1]), qs[2]);
            s.level == 3 && s.xp == 75 && s.gold == 75 && s.nextLevelXp == 225 &&
            s.perks[0].unlocked && s.perks[1].unlocked
  {
    var qs := InitialQuests(t1, t2, t3);
    var s0 := InitialStats();
    var s1 := CompleteStats(s0, qs[0]);
    assert s1 == s0.(xp := 50, gold := 10);
    var u2 := s1.(xp := 125, gold := 25);
    assert LevelUp(u2) == LevelUp(Step(u2));
    var s2 := CompleteStats(s1, qs[1]);
    assert s2 == Step(u2);
    assert s2.level == 2 && s2.xp == 25 && s2.nextLevelXp == 150;
    var u3 := s2.(xp := 225, gold := 75);
    assert LevelUp(u3) == LevelUp(Step(u3));
    var s3 := CompleteStats(s2, qs[2]);
    assert s3 == Step(u3);
  }

  /** What a user can do to the stats from the dashboard, apart from a manual edit. */
  datatype Action = CompleteQuest(quest: Quest) | UndoQuest(quest: Quest)

  /** The stats after a history of completions and undos. From stats in the state the
      panel expects (the initial stats among them) every history stays in that state,
      never loses a level, and keeps the perk flags in step once they are. */
  function Replay(s: UserStats, history: seq<Action>): (r: UserStats)
    requires Progressing(s)
    ensures Progressing(r)
    ensures s.level <= r.level
    ensures PerksSynced(s) ==> PerksSynced(r)
    decreases |history|
  {
    if history == [] then s
    else
      var a := history[0];
      TransitionsPreserveProgressing(s, a.quest);
      var next := if a.CompleteQuest? then CompleteStats(s, a.quest) else UndoStats(s, a.quest);
      Replay(next, history[1..])
  }

  /** The level-down loop of the undo handler, run on a copy of the stats: while the
      experience is negative above level 1, drop a level, shrink the threshold and give
      the shrunk threshold back as experience. It stops with non-negative experience or
      at level 1, never raising the level. */
  method RunLevelDown(s: UserStats) returns (r: UserStats)
    ensures r == LevelDown(s)
    ensures 0 <= r.xp || r.level <= 1
    ensures r.level <= s.level && r.gold == s.gold && r.perks == s.perks
  {
    r := s;
    while r.xp < 0 && r.level > 1
      invariant LevelDown(r) == LevelDown(s)
      decreases r.level
    {
      r := r.(level := r.level - 1);
      r := r.(nextLevelXp := Shrink(r.nextLevelXp));
      r := r.(xp := r.xp + r.nextLevelXp);
    }
  }

  class App {
    var stats: UserStats
    var quests: seq<Quest>

    constructor (t1: string, t2: string, t3: string)
      ensures stats == InitialStats() && quests == InitialQuests(t1, t2, t3)
    {
      stats := InitialStats();
      quests := InitialQuests(t1, t2, t3);
    }

    /** Completes `quest` at time `now`: adds its rewards, levels up while the experience
        reaches the threshold (recomputing perks on each level-up) and marks every quest
        with its identifier completed. A quest already completed changes nothing. */
    method HandleQuestComplete(quest: Quest, now: string)
      requires 1 <= stats.nextLevelXp
      modifies this
      ensures stats == CompleteStats(old(stats), quest)
      ensures quests == if quest.completed then old(quests) else MarkCompleted(old(quests), quest.id, now)
    {
      if quest.completed {
        return;
      }
      var newStats := stats;
      newStats := newStats.(xp := newStats.xp + quest.xp);
      newStats := newStats.(gold := newStats.gold + quest.gold);
      ghost var rewarded := newStats;

      while newStats.xp >= newStats.nextLevelXp
        invariant 1 <= newStats.nextLevelXp
        invariant LevelUp(newStats) == LevelUp(rewarded)
        decreases newStats.xp
      {
        newStats := newStats.(level := newStats.level + 1);
        newStats := newStats.(xp := newStats.xp - newStats.nextLevelXp);
        newStats := newStats.(nextLevelXp := Grow(newStats.nextLevelXp));
        newStats := newStats.(perks := SyncPerks(newStats.perks, newStats.level));
      }

      stats := newStats;
      quests := MarkCompleted(quests, quest.id, now);
    }

    /** Undoes `quest`: takes its rewards back, clamping experience and gold at zero,
        runs the level-down loop, recomputes perks and clears the completion of every
        quest with its identifier. A quest not completed changes nothing. */
    method HandleQuestUndo(quest: Quest)
      modifies this
      ensures stats == UndoStats(old(stats), quest)
      ensures quests == if !quest.completed then old(quests) else MarkUndone(old(quests), quest.id)
      ensures stats.level == old(stats.level) && stats.nextLevelXp == old(stats.nextLevelXp)
    {
      if !quest.completed {
        return;
      }
      var newStats := stats;
      newStats := newStats.(xp := newStats.xp - quest.xp);
      newStats := newStats.(gold := newStats.gold - quest.gold);

      if newStats.xp < 0 {
        newStats := newStats.(xp := 0);
      }
      if newStats.gold < 0 {
        newStats := newStats.(gold := 0);
      }
      newStats := RunLevelDown(newStats);
      newStats := newStats.(perks := SyncPerks(newStats.perks, newStats.level));

      stats := newStats;
      quests := MarkUndone(quests, quest.id);
    }

    /** Appends a quest built from `draft` with identifier `id` created at `now`. */
    method HandleQuestSubmit(draft: QuestDraft, id: string, now: string)
      modifies this
      ensures stats == old(stats)
      ensures quests == Submit(old(quests), draft, id, now)
      ensures quests[..|old(quests)|] == old(quests) && |quests| == |old(quests)| + 1
    {
      quests := quests + [NewQuest(draft, id, now)];
    }

    /** Overwrites the stats' fields present in `patch`; the quest list is untouched. */
    method HandleStatsEdit(patch: StatsPatch)
      modifies this
      ensures stats == EditStats(old(stats), patch)
      ensures quests == old(quests)
    {
      stats := EditStats(stats, patch);
    }
  }
}
