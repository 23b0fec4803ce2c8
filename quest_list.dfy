/** The two list views the quest list computes before rendering: the quests that pass the
    frequency and category filters, and the category names offered as filter buttons. */
module QuestList {
  import opened Types

  /** The frequency filter: every quest, or only quests of one frequency. */
  datatype FrequencyFilter = AllFrequencies | OnlyFrequency(frequency: Frequency)

  /** The category filter is a category name, or this word for every category. */
  const AllCategories: string := "all"

  /** The filter callback: a quest is rejected when a frequency is chosen and differs,
      or when a category is chosen and differs. */
  predicate Shown(q: Quest, filter: FrequencyFilter, categoryFilter: string)
  {
    if filter.OnlyFrequency? && q.frequency != filter.frequency then false
    else if categoryFilter != AllCategories && q.category != categoryFilter then false
    else true
  }

  /** The quests shown, in list order. */
  function FilterQuests(qs: seq<Quest>, filter: FrequencyFilter, categoryFilter: string): (r: seq<Quest>)
    ensures |r| <= |qs|
    ensures forall i :: 0 <= i < |r| && filter.OnlyFrequency? ==> r[i].frequency == filter.frequency
    ensures forall i :: 0 <= i < |r| && categoryFilter != AllCategories ==> r[i].category == categoryFilter
    ensures forall i :: (0 <= i < |qs| && (filter.AllFrequencies? || qs[i].frequency == filter.frequency)
                         && (categoryFilter == AllCategories || qs[i].category == categoryFilter)) ==> qs[i] in r
  {
    if qs == [] then []
    else (if Shown(qs[0], filter, categoryFilter) then [qs[0]] else []) + FilterQuests(qs[1..], filter, categoryFilter)
  }

  /** The filtered list is exactly the shown quests in their original order: `idx` lists,
      in increasing order, the positions of the input whose quest is shown. */
  lemma {:induction false} FilterIsOrderedSelection(qs: seq<Quest>, filter: FrequencyFilter, categoryFilter: string)
    returns (idx: seq<nat>)
    ensures IsOrderedSelection(idx, FilterQuests(qs, filter, categoryFilter), qs, filter, categoryFilter)
  {
    if qs == [] {
      idx := [];
    } else {
      var rest := FilterIsOrderedSelection(qs[1..], filter, categoryFilter);
      idx := SelectionCons(qs, FilterQuests(qs[1..], filter, categoryFilter), rest, filter, categoryFilter);
    }
  }

  /** `idx` lists, in increasing order, exactly the positions of `qs` whose quest is shown,
      and `r` holds the quests at those positions. */
  ghost predicate IsOrderedSelection(idx: seq<nat>, r: seq<Quest>, qs: seq<Quest>, filter: FrequencyFilter, categoryFilter: string)
  {
    && |idx| == |r|
    && (forall k :: 0 <= k < |idx| ==> idx[k] < |qs| && r[k] == qs[idx[k]])
    && (forall k, l :: 0 <= k < l < |idx| ==> idx[k] < idx[l])
    && (forall i :: 0 <= i < |qs| ==> (i in idx <==> Shown(qs[i], filter, categoryFilter)))
  }

  /** The selection of a non-empty list from the selection of its tail. */
  lemma SelectionCons(qs: seq<Quest>, rt: seq<Quest>, rest: seq<nat>, filter: FrequencyFilter, categoryFilter: string)
    returns (idx: seq<nat>)
    requires qs != [] && IsOrderedSelection(rest, rt, qs[1..], filter, categoryFilter)
    ensures IsOrderedSelection(idx, (if Shown(qs[0], filter, categoryFilter) then [qs[0]] else []) + rt,
                               qs, filter, categoryFilter)
  {
    var b := Shown(qs[0], filter, categoryFilter);
    var head: seq<nat> := if b then [0] else [];
    idx := head + Shifted(rest);
    ConsPositions(qs, rt, rest, b);
    ConsOrdered(rest, b);
    ConsMembers(qs, rest, filter, categoryFilter);
  }

  lemma ConsPositions(qs: seq<Quest>, rt: seq<Quest>, rest: seq<nat>, b: bool)
    requires qs != [] && |rest| == |rt|
    requires forall k :: 0 <= k < |rest| ==> rest[k] < |qs| - 1 && rt[k] == qs[1..][rest[k]]
    ensures var idx := (if b then [0] else []) + Shifted(rest);
            var r := (if b then [qs[0]] else []) + rt;
            |idx| == |r| && forall k :: 0 <= k < |idx| ==> idx[k] < |qs| && r[k] == qs[idx[k]]
  {
    var idx := (if b then [0] else []) + Shifted(rest);
    var r := (if b then [qs[0]] else []) + rt;
    var n := if b then 1 else 0;
    forall k | 0 <= k < |idx|
      ensures idx[k] < |qs| && r[k] == qs[idx[k]]
    {
      if k >= n {
        assert idx[k] == rest[k - n] + 1 && r[k] == rt[k - n];
      }
    }
  }

  lemma ConsOrdered(rest: seq<nat>, b: bool)
    requires forall k, l :: 0 <= k < l < |rest| ==> rest[k] < rest[l]
    ensures var idx := (if b then [0] else []) + Shifted(rest);
            forall k, l :: 0 <= k < l < |idx| ==> idx[k] < idx[l]
  {
    var shifted := Shifted(rest);
    var idx := (if b then [0] else []) + shifted;
    var n := if b then 1 else 0;
    forall k, l | 0 <= k < l < |idx|
      ensures idx[k] < idx[l]
    {
      assert idx[l] == shifted[l - n];
      if k >= n {
        assert idx[k] == shifted[k - n];
      }
    }
  }

  lemma ConsMembers(qs: seq<Quest>, rest: seq<nat>, filter: FrequencyFilter, categoryFilter: string)
    requires qs != []
    requires forall i :: 0 <= i < |qs| - 1 ==> (i in rest <==> Shown(qs[1..][i], filter, categoryFilter))
    ensures var b := Shown(qs[0], filter, categoryFilter);
            var idx := (if b then [0] else []) + Shifted(rest);
            forall i :: 0 <= i < |qs| ==> (i in idx <==> Shown(qs[i], filter, categoryFilter))
  {
    var b := Shown(qs[0], filter, categoryFilter);
    var shifted := Shifted(rest);
    var idx := (if b then [0] else []) + shifted;
    forall i | 0 <= i < |qs|
      ensures i in idx <==> Shown(qs[i], filter, categoryFilter)
    {
      if i > 0 {
        assert qs[i] == qs[1..][i - 1];
        assert i in idx <==> i in shifted;
      }
    }
  }

  /** Every position moved one place to the right. */
  function Shifted(idx: seq<nat>): (r: seq<nat>)
    ensures |r| == |idx|
    ensures forall k :: 0 <= k < |r| ==> r[k] == idx[k] + 1
    ensures forall i :: i in r <==> i > 0 && i - 1 in idx
    ensures forall k, l :: 0 <= k < l < |idx| && idx[k] < idx[l] ==> r[k] < r[l]
  {
    seq(|idx|, k requires 0 <= k < |idx| => idx[k] + 1)
  }

  /** With both filters on "all", every quest is shown. */
  lemma {:induction false} FilterAllIsIdentity(qs: seq<Quest>)
    ensures FilterQuests(qs, AllFrequencies, AllCategories) == qs
  {
    if qs != [] {
      FilterAllIsIdentity(qs[1..]);
      assert qs == [qs[0]] + qs[1..];
    }
  }

  // ---------------------------------------------------------------- categories

  /** The category of each quest, in list order. */
  function CategoryNames(qs: seq<Quest>): seq<string>
  {
    seq(|qs|, i requires 0 <= i < |qs| => qs[i].category)
  }

  /** Inserting the names one by one into an insertion-ordered set: a name is added at
      the end the first time it is seen and ignored afterwards. */
  function Dedup(s: seq<string>): (r: seq<string>)
    ensures forall x :: x in r <==> x in s
    ensures forall i, j :: 0 <= i < j < |r| ==> r[i] != r[j]
  {
    if s == [] then []
    else
      var seen := Dedup(s[..|s| - 1]);
      if s[|s| - 1] in seen then seen else seen + [s[|s| - 1]]
  }

  /** The category names offered as filter buttons. */
  function Categories(qs: seq<Quest>): (r: seq<string>)
    ensures forall i, j :: 0 <= i < j < |r| ==> r[i] != r[j]
    ensures forall i :: 0 <= i < |qs| ==> qs[i].category in r
    ensures forall x :: x in r ==> exists i :: 0 <= i < |qs| && qs[i].category == x
  {
    var names := CategoryNames(qs);
    assert forall i :: 0 <= i < |qs| ==> names[i] == qs[i].category;
    Dedup(names)
  }

  /** The position of the first occurrence of `x` in `s`. */
  function FirstIndex(s: seq<string>, x: string): (r: nat)
    requires x in s
    ensures r < |s| && s[r] == x && x !in s[..r]
  {
    if s[0] == x then 0 else 1 + FirstIndex(s[1..], x)
  }

  /** Appending to a sequence does not move the first occurrence of a name already in it. */
  lemma FirstIndexPrefix(s: seq<string>, x: string)
    requires |s| > 0 && x in s[..|s| - 1]
    ensures FirstIndex(s, x) == FirstIndex(s[..|s| - 1], x)
  {
    var p := s[..|s| - 1];
    var a, b := FirstIndex(p, x), FirstIndex(s, x);
    assert s[..a] == p[..a];
  }

  /** Each name appears in the order of its first occurrence. */
  lemma {:induction false} DedupFirstOccurrenceOrder(s: seq<string>)
    ensures forall i, j :: 0 <= i < j < |Dedup(s)| ==> FirstIndex(s, Dedup(s)[i]) < FirstIndex(s, Dedup(s)[j])
  {
    if s != [] {
      var p := s[..|s| - 1];
      var e := s[|s| - 1];
      var seen := Dedup(p);
      DedupFirstOccurrenceOrder(p);
      var r := Dedup(s);
      forall i | 0 <= i < |seen| ensures FirstIndex(s, seen[i]) == FirstIndex(p, seen[i]) {
        FirstIndexPrefix(s, seen[i]);
      }
      if e !in seen {
        assert r == seen + [e];
        assert s[..|s| - 1] == p;
        assert FirstIndex(s, e) == |s| - 1;
      }
    }
  }

  /** The categories appear in the order in which the quest list first mentions them. */
  lemma CategoriesInFirstOccurrenceOrder(qs: seq<Quest>)
    ensures forall i, j :: 0 <= i < j < |Categories(qs)| ==>
              FirstIndex(CategoryNames(qs), Categories(qs)[i]) < FirstIndex(CategoryNames(qs), Categories(qs)[j])
  {
    DedupFirstOccurrenceOrder(CategoryNames(qs));
  }
}
