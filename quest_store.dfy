/** The quest store: the ordered list of quests and the three ways the application
    changes it. Each is a pure map or append over the list. */
module QuestStore {
  import opened Types

  /** A quest carries a completion time exactly when it is completed. */
  predicate WellFormed(q: Quest)
  {
    q.completed <==> q.completedAt.Some?
  }

  predicate AllWellFormed(qs: seq<Quest>)
  {
    forall i :: 0 <= i < |qs| ==> WellFormed(qs[i])
  }

  /** The list after completing the quest with identifier `id` at time `at`: every quest
      with that identifier is marked completed at `at`; every other quest, the length and
      the order are kept. */
  function MarkCompleted(qs: seq<Quest>, id: string, at: string): (r: seq<Quest>)
    ensures |r| == |qs|
    ensures forall i :: 0 <= i < |qs| && qs[i].id == id ==> r[i].completed && r[i].completedAt == Some(at)
    ensures forall i :: 0 <= i < |qs| && qs[i].id != id ==> r[i] == qs[i]
    ensures forall i :: 0 <= i < |qs| ==> r[i].(completed := qs[i].completed, completedAt := qs[i].completedAt) == qs[i]
  {
    seq(|qs|, i requires 0 <= i < |qs| =>
      if qs[i].id == id then qs[i].(completed := true, completedAt := Some(at)) else qs[i])
  }

  /** The list after undoing the quest with identifier `id`: every quest with that
      identifier loses its completion flag and time; nothing else changes. */
  function MarkUndone(qs: seq<Quest>, id: string): (r: seq<Quest>)
    ensures |r| == |qs|
    ensures forall i :: 0 <= i < |qs| && qs[i].id == id ==> !r[i].completed && r[i].completedAt == None
    ensures forall i :: 0 <= i < |qs| && qs[i].id != id ==> r[i] == qs[i]
    ensures forall i :: 0 <= i < |qs| ==> r[i].(completed := qs[i].completed, completedAt := qs[i].completedAt) == qs[i]
  {
    seq(|qs|, i requires 0 <= i < |qs| =>
      if qs[i].id == id then qs[i].(completed := false, completedAt := None) else qs[i])
  }

  /** The quest built from a submitted draft, its identifier and its creation time. */
  function NewQuest(d: QuestDraft, id: string, createdAt: string): (q: Quest)
    ensures !q.completed && q.completedAt == None && WellFormed(q)
    ensures q.id == id && q.createdAt == createdAt
    ensures q.name == d.name && q.description == d.description && q.xp == d.xp && q.gold == d.gold
    ensures q.category == d.category && q.frequency == d.frequency
  {
    Quest(id, d.name, d.description, d.xp, d.gold, d.category, d.frequency, false, createdAt, None)
  }

  /** The list after submitting a draft: the existing quests in their order, then the new one. */
  function Submit(qs: seq<Quest>, d: QuestDraft, id: string, createdAt: string): (r: seq<Quest>)
    ensures |r| == |qs| + 1
    ensures r[..|qs|] == qs
    ensures r[|qs|] == NewQuest(d, id, createdAt)
  {
    qs + [NewQuest(d, id, createdAt)]
  }

  /** All three updates keep every quest's flag and time in agreement. */
  lemma UpdatesPreserveWellFormed(qs: seq<Quest>, id: string, at: string, d: QuestDraft, newId: string)
    requires AllWellFormed(qs)
    ensures AllWellFormed(MarkCompleted(qs, id, at))
    ensures AllWellFormed(MarkUndone(qs, id))
    ensures AllWellFormed(Submit(qs, d, newId, at))
  {
  }

  /** Undoing a completion restores the list when the quests with that identifier were
      all not completed before. */
  lemma UndoAfterComplete(qs: seq<Quest>, id: string, at: string)
    requires AllWellFormed(qs)
    requires forall i :: 0 <= i < |qs| && qs[i].id == id ==> !qs[i].completed
    ensures MarkUndone(MarkCompleted(qs, id, at), id) == qs
  {
    var r := MarkUndone(MarkCompleted(qs, id, at), id);
    forall i | 0 <= i < |qs| ensures r[i] == qs[i] {
      if qs[i].id == id {
        assert WellFormed(qs[i]);
      }
    }
  }

  /** Completing twice with the same identifier is completing once, at the later time. */
  lemma CompleteTwice(qs: seq<Quest>, id: string, at: string, at': string)
    ensures MarkCompleted(MarkCompleted(qs, id, at), id, at') == MarkCompleted(qs, id, at')
  {
  }
}
