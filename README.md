# Quest tracker progression engine in Dafny

This project models the logic of a single-user quest tracker. Quests are to-do items that
carry experience (xp) and gold rewards. Completing a quest adds its rewards to the
character's stats. Enough experience raises the level, and the threshold for the next
level grows by half each time. Perks unlock by level. Undoing a completion takes the rewards back.

Five modules:

- `Types` (`types.dfy`): the records `Quest`, `Category`, `Perk`, `UserStats`, a
  three-valued `Frequency`, the submitted `QuestDraft` and a partial `StatsPatch`.
- `Progression` (`progression.dfy`): the stats transitions as functions. They cover the
  level-up loop, the level-down loop, completing, undoing and the manual edit. It also holds
  the lemmas about them: a closed form of the level-up loop, the proof that the level-down
  loop is dead, preserved invariants, the partial round trip and concrete scenarios.
- `QuestStore` (`quest_store.dfy`): the quest-list updates. These are mark completed,
  mark undone and append a submitted quest, with their frame and round-trip lemmas.
- `Application` (`app.dfy`): class `App` holds the two pieces of state, `stats` and
  `quests`. The complete and undo handlers update a copy of the stats step by step with
  the same while loops as the application (the undo handler's level-down loop sits in the
  helper method `RunLevelDown`); the submit handler only appends to the list and the edit
  handler overwrites the stats. Each handler is proved to produce the transition defined
  in `Progression` and `QuestStore`. The module also holds the initial stats and quests
  and `Replay`, the stats after any history of completions and undos.
- `QuestList` (`quest_list.dfy`): the frequency/category filter and the deduplicated,
  first-occurrence-ordered list of category names.

Numbers in the stats are `int`, so that negative values written by a manual edit are
representable (fractional ones are not; see below). Quest rewards
are `nat`. `Math.floor(t * 1.5)` is modelled as `t + t / 2` and `Math.floor(t / 1.5)` as
`(2 * t) / 3`. Both are exact for every integer, because Dafny's division by a positive
constant rounds down. Clock readings (`new Date().toISOString()`) and generated identifiers
(`Date.now().toString()`) are method parameters.

Three behaviours of the code are easy to misread, and the model keeps them as written:

- Completing a quest recomputes the perks only inside the level-up loop, so a completion
  with no level-up leaves the perks untouched (`LevelUp`, `CompleteStats`). The initial
  stats have the level-1 perk locked, so it stays locked until the first level-up or undo
  (`InitialPerksOutOfStep`).
- Undo clamps experience at zero before the level-down loop tests `xp < 0`, so that loop
  never runs. Undo never changes the level or the threshold, and completing then undoing
  a quest that gained a level does not restore the level
  (`LevelDownIsDead`, `UndoStats`, `UndoKeepsLevelsGained`, `UndoExample`).
- The complete and undo handlers test only the passed record's `completed` flag, not
  whether the list contains a quest with its identifier. The stats change even when no
  quest in the list has that identifier, and the list map then changes nothing.

## Model

| member | source | states |
|---|---|---|
| `Progression.Grow` | src/App.tsx:87 | the next threshold `r` is `floor(1.5 t)` (`2r <= 3t < 2r + 2`) and, for a positive threshold, is no smaller than it |
| `Progression.Shrink` | src/App.tsx:118 | the lower threshold `r` is `floor(t / 1.5)` (`3r <= 2t < 3r + 3`) |
| `Progression.ClampAtZero` | src/App.tsx:112-113 | the result is zero for a negative amount and the amount itself otherwise |
| `Progression.SyncPerks` | src/App.tsx:90-93 | every recomputed perk is unlocked exactly when its level is at most the given level; count, order and all other perk fields are kept |
| `Progression.SyncPerksTwice` | src/App.tsx:84-94 | recomputing the perks on every level-up equals recomputing them once for the last level |
| `Progression.SyncPerksWhenSynced` | src/App.tsx:123-126 | recomputing perks that already agree with the level changes nothing |
| `Progression.LevelUp` | src/App.tsx:84-94 | the loop ends with `xp < nextLevelXp`; the threshold and level never decrease; xp never increases and stays non-negative if it was; gold and categories are kept; perk shape is kept; no level gained means nothing changed; a level gained means every perk flag matches the new level |
| `Progression.LevelUpClosedForm` | src/App.tsx:84-88 | the number of levels gained `k` is the least count for which the experience left after paying `k` thresholds is below the next one; level, xp, threshold and perks after the loop are given in closed form in `k`, so each iteration adds exactly one level |
| `Progression.CompleteStats` | src/App.tsx:76-94 | completing a quest already completed changes nothing; otherwise gold becomes old gold plus the quest's gold and `xp < nextLevelXp`; level and threshold never decrease; perks agree with the level afterwards if they did before or if a level was gained, and are untouched when no level is gained |
| `Progression.LevelDown` | src/App.tsx:116-120 | the level-down loop stops with non-negative experience or at level 1; it never raises the level, keeps it at least 1, lowers it only from negative experience, and keeps gold, categories and perks |
| `Progression.LevelDownIsDead` | src/App.tsx:111-120 | after experience and gold are clamped, the level-down loop is the identity whatever rewards are undone |
| `Progression.UndoStats` | src/App.tsx:104-126 | undoing a quest that is not completed changes nothing; otherwise xp becomes `max(0, xp - quest.xp)` and gold becomes `max(0, gold - quest.gold)`; level and threshold are unchanged; every perk flag matches the level; perk shape and categories are kept |
| `Progression.TransitionsPreserveProgressing` | src/App.tsx:76-126 | from stats with positive level and threshold, `0 <= xp < nextLevelXp` and non-negative gold, both completing and undoing lead to such stats again, whatever the perk flags |
| `Progression.TransitionsPreservePerksSynced` | src/App.tsx:76-126 | from stats whose perk flags agree with the level, both completing and undoing keep them in agreement |
| `Progression.UndoReversesCompleteWithoutLevelUp` | src/App.tsx:79-126 | from stats in that state whose perk flags already agree with the level, undoing a completion that gained no level returns exactly the starting stats (without that agreement undo unlocks perks, so the round trip fails from the initial stats) |
| `Progression.UndoKeepsLevelsGained` | src/App.tsx:84-120 | after a completion that gained a level, undo leaves a higher level than at the start, so the round trip does not restore the stats |
| `Progression.CompleteExample` | src/App.tsx:79-94 | level 1 with 80/100 xp plus a 50 xp / 10 gold quest gives level 2 with 30/150 xp and 10 gold |
| `Progression.UndoExample` | src/App.tsx:107-126 | undoing that quest from level 2 with 30/150 xp and 10 gold gives level 2 with 0/150 xp and 0 gold |
| `Progression.EditStats` | src/App.tsx:150-152 | each field present in the patch overwrites the stats' field and each absent one is kept, with nothing recomputed |
| `Progression.EditLaws` | src/App.tsx:150-152 | an empty patch is the identity; applying a patch twice equals applying it once |
| `Progression.EditCanDesyncPerks` | src/App.tsx:150-152 | editing the level alone can leave perk flags that disagree with the level |
| `QuestStore.MarkCompleted` | src/App.tsx:97-101 | every quest with the target identifier becomes completed with the given completion time; every other quest, the length and the order are unchanged; a marked quest differs only in flag and time |
| `QuestStore.MarkUndone` | src/App.tsx:129-133 | every quest with the target identifier loses its completion flag and time; every other quest, the length and the order are unchanged |
| `QuestStore.NewQuest` | src/App.tsx:141-146 | a submitted quest takes the draft's fields, the given identifier and creation time, and starts not completed without a completion time |
| `QuestStore.Submit` | src/App.tsx:147 | submitting appends exactly one new quest at the end and leaves the existing quests and their order unchanged |
| `QuestStore.UpdatesPreserveWellFormed` | src/App.tsx:97-147 | completing, undoing and submitting keep every quest's completion time present exactly when it is completed |
| `QuestStore.UndoAfterComplete` | src/App.tsx:97-133 | marking undone after marking completed restores the list when the target quests were not completed |
| `QuestStore.CompleteTwice` | src/App.tsx:97-101 | marking completed twice equals marking once at the later time |
| `Application.InitialStats` | src/App.tsx:6-33 | the starting stats are level 1 with 0/100 xp and no gold, four categories and two perks, of levels 1 and 2, both locked |
| `Application.InitialQuests` | src/App.tsx:35-69 | the starting list has three quests with distinct identifiers, none completed, each well formed |
| `Application.InitialPerksOutOfStep` | src/App.tsx:17-24 | the level-1 perk starts locked at level 1, so the starting stats do not have synced perks |
| `Application.InitialPlaythrough` | src/App.tsx:6-94 | completing the three starting quests in order gives level 3 with 75/225 xp and 75 gold, with both perks unlocked |
| `Application.Replay` | src/App.tsx:76-126 | from stats in the state the panel expects, in particular the initial stats, every history of completions and undos stays in that state and never lowers the level; perk flags that agree with the level stay in agreement |
| `Application.RunLevelDown` | src/App.tsx:116-120 | the while loop computes exactly `LevelDown`, stopping with non-negative experience or at level 1 and never raising the level |
| `Application.App.constructor` | src/App.tsx:72-73 | the state starts as the initial stats and initial quests |
| `Application.App.HandleQuestComplete` | src/App.tsx:76-102 | the loop-based handler yields exactly `CompleteStats` of the old stats and, unless the quest was already completed, `MarkCompleted` of the old list |
| `Application.App.HandleQuestUndo` | src/App.tsx:104-134 | the loop-based handler yields exactly `UndoStats` of the old stats, keeps level and threshold, and, if the quest was completed, yields `MarkUndone` of the old list |
| `Application.App.HandleQuestSubmit` | src/App.tsx:140-148 | the stats are unchanged and the list is the old list followed by the new quest |
| `Application.App.HandleStatsEdit` | src/App.tsx:150-152 | the stats become the patched stats and the list is unchanged |
| `QuestList.FilterQuests` | src/components/QuestList.tsx:15-19 | every returned quest has the chosen frequency and category when those are not "all"; every input quest meeting both conditions is returned; the output is no longer than the input |
| `QuestList.FilterIsOrderedSelection` | src/components/QuestList.tsx:15-19 | the output is exactly the quests at the positions the filter accepts, in increasing order of position, so it is an order-preserving subsequence |
| `QuestList.FilterAllIsIdentity` | src/components/QuestList.tsx:15-19 | with both filters on "all" the output equals the input |
| `QuestList.Dedup` | src/components/QuestList.tsx:21 | insertion-ordered deduplication has no repeated name and holds exactly the names of its input |
| `QuestList.Categories` | src/components/QuestList.tsx:21 | the category list has no duplicates and holds exactly the categories of the quests |
| `QuestList.DedupFirstOccurrenceOrder` | src/components/QuestList.tsx:21 | deduplicated names appear in the order of their first occurrence in the input |
| `QuestList.CategoriesInFirstOccurrenceOrder` | src/components/QuestList.tsx:21 | each category is listed in the order in which the quest list first mentions it |

## Left out

- React state hooks, JSX rendering, icons, button wiring and the form toggle (`handleQuestAdd`) are user-interface plumbing. `App` fields stand for the two state hooks.
- src/components/QuestForm.tsx is not part of this model. Its `parseInt` may produce NaN or negative rewards; quest rewards are `nat` instead.
- src/components/StatsPanel.tsx and src/components/Dashboard.tsx are display only and not part of this model. The progress bar uses floating-point division.
- JavaScript numbers are doubles: the model's integers are unbounded, so behaviour beyond 2^53 is not modelled.
- Identifiers from `Date.now()` are parameters. Their uniqueness is not proved, because the code does not guarantee it.
- Progression.EditStats: a `Partial<UserStats>` key that is present with the value `undefined` would overwrite a field with `undefined`. The patch models only present or absent fields.
- Application.App.HandleQuestComplete: requires `nextLevelXp >= 1`. The initial threshold is 100 and `Grow` never lowers a positive threshold, so complete and undo alone always meet it (`Replay`). Only `handleStatsEdit` could write a threshold of 0 or less, and no component calls it: src/components/StatsPanel.tsx:10-27 receives `onEdit` but its button only toggles an editing flag. With such a threshold the code's loop either returns at once (when the experience after the reward is below the threshold) or never terminates; the model does not capture either case.
- Fractional numbers: a `Partial<UserStats>` edit could write non-integer level, xp, gold or threshold values. The model's stats are integers and do not capture them.
- The category filter uses the string "all" as its "every category" value, as the code does. A category literally named "all" therefore cannot be selected; the model keeps this behaviour and does not try to correct it.
