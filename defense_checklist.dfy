/** The defense checklist component: a selection list toggled by id in
    multiple- or single-selection mode, the membership test that drives
    each item's checked state, grouping of the defenses by category for
    display, and the "N defenses selected" summary. */
module DefenseChecklist {
  import opened Wrappers
  import opened Text

  datatype Category = Procedural | Substantive | Financial

  datatype DefenseItem = DefenseItem(id: string, title: string, description: string,
                                     selected: bool, category: Option<Category>)

  // ---------------------------------------------------------------------
  // Order-keeping filter

  /** `s.filter(p)`: the elements satisfying `p`, in their order in `s`. */
  function Filter<T>(s: seq<T>, p: T -> bool): (r: seq<T>)
    ensures |r| <= |s|
    ensures forall k :: 0 <= k < |r| ==> p(r[k])
    decreases |s|
  {
    if s == [] then []
    else Filter(s[..|s| - 1], p) + (if p(s[|s| - 1]) then [s[|s| - 1]] else [])
  }

  /** `r` is `s` restricted to the strictly increasing positions `idx`. */
  ghost predicate Embeds<T>(r: seq<T>, s: seq<T>, idx: seq<nat>) {
    && |idx| == |r|
    && (forall k :: 0 <= k < |idx| ==> idx[k] < |s| && r[k] == s[idx[k]])
    && (forall k, l :: 0 <= k < l < |idx| ==> idx[k] < idx[l])
  }

  /** The positions of `s` that `Filter(s, p)` keeps. */
  ghost function Kept<T>(s: seq<T>, p: T -> bool): (idx: seq<nat>)
    ensures Embeds(Filter(s, p), s, idx)
    ensures forall i :: 0 <= i < |s| && p(s[i]) ==> i in idx
    decreases |s|
  {
    if s == [] then []
    else
      var n := |s| - 1;
      var prefix := Kept(s[..n], p);
      EmbedsExtend(Filter(s[..n], p), s, prefix, p(s[n]));
      assert forall i :: 0 <= i < n ==> s[..n][i] == s[i];
      prefix + (if p(s[n]) then [n] else [])
  }

  /** An embedding into all but the last element of `s` extends to `s`,
      with or without that element. */
  lemma EmbedsExtend<T>(r: seq<T>, s: seq<T>, idx: seq<nat>, keep: bool)
    requires |s| > 0 && Embeds(r, s[..|s| - 1], idx)
    ensures Embeds(r + (if keep then [s[|s| - 1]] else []), s, idx + (if keep then [|s| - 1] else []))
  {
    var n := |s| - 1;
    assert forall k :: 0 <= k < |idx| ==> idx[k] < n && r[k] == s[idx[k]];
  }

  lemma FilterSnoc<T>(s: seq<T>, x: T, p: T -> bool)
    ensures Filter(s + [x], p) == Filter(s, p) + (if p(x) then [x] else [])
  {
    assert (s + [x])[..|s|] == s;
  }

  lemma {:induction false} FilterKeepsAll<T>(s: seq<T>, p: T -> bool)
    requires forall k :: 0 <= k < |s| ==> p(s[k])
    ensures Filter(s, p) == s
    decreases |s|
  {
    if s != [] {
      FilterKeepsAll(s[..|s| - 1], p);
      assert s[..|s| - 1] + [s[|s| - 1]] == s;
    }
  }

  lemma {:induction false} FilterDropsAll<T>(s: seq<T>, p: T -> bool)
    requires forall k :: 0 <= k < |s| ==> !p(s[k])
    ensures Filter(s, p) == []
    decreases |s|
  {
    if s != [] {
      FilterDropsAll(s[..|s| - 1], p);
    }
  }

  /** Filtering keeps exactly the elements that satisfy `p`, in order: the
      result embeds in `s` at increasing positions, and every position whose
      element satisfies `p` is one of them. */
  lemma FilterIsOrderedSublist<T>(s: seq<T>, p: T -> bool)
    ensures forall k :: 0 <= k < |Filter(s, p)| ==> p(Filter(s, p)[k])
    ensures Embeds(Filter(s, p), s, Kept(s, p))
    ensures forall i :: 0 <= i < |s| && p(s[i]) ==> s[i] in Filter(s, p)
  {
    var r := Filter(s, p);
    var idx := Kept(s, p);
    forall i | 0 <= i < |s| && p(s[i]) ensures s[i] in r {
      var k :| 0 <= k < |idx| && idx[k] == i;
      assert r[k] == s[i];
    }
  }

  // ---------------------------------------------------------------------
  // Selection

  /** The selection the component starts from. */
  function InitialSelection(defenses: seq<DefenseItem>): seq<DefenseItem> {
    Filter(defenses, (d: DefenseItem) => d.selected)
  }

  /** The initial selection is the sub-list of flagged defenses, in input
      order, leaving none of them out. */
  lemma InitialSelectionIsFlagged(defenses: seq<DefenseItem>)
    ensures var r := InitialSelection(defenses);
      && (forall k :: 0 <= k < |r| ==> r[k].selected)
      && Embeds(r, defenses, Kept(defenses, (d: DefenseItem) => d.selected))
      && (forall i :: 0 <= i < |defenses| && defenses[i].selected ==> defenses[i] in r)
  {
    FilterIsOrderedSublist(defenses, (d: DefenseItem) => d.selected);
  }

  /** `defenses.find(d => d.id === id)`: the first defense with that id. */
  function FindById(defenses: seq<DefenseItem>, id: string): (r: Option<DefenseItem>)
    ensures r.None? <==> forall k :: 0 <= k < |defenses| ==> defenses[k].id != id
    ensures r.Some? ==> r.value.id == id
    ensures r.Some? ==>
      exists k :: 0 <= k < |defenses| && defenses[k] == r.value &&
                  forall j :: 0 <= j < k ==> defenses[j].id != id
    decreases |defenses|
  {
    if defenses == [] then None
    else if defenses[0].id == id then
      Some(defenses[0])
    else
      var r := FindById(defenses[1..], id);
      if r.Some? then
        var k :| 0 <= k < |defenses[1..]| && defenses[1..][k] == r.value &&
                 forall j :: 0 <= j < k ==> defenses[1..][j].id != id;
        assert defenses[k + 1] == r.value;
        assert forall j :: 0 <= j < k + 1 ==> defenses[j].id != id by {
          forall j | 0 <= j < k + 1 ensures defenses[j].id != id {
            if j > 0 { assert defenses[j] == defenses[1..][j - 1]; }
          }
        }
        r
      else
        assert forall k :: 0 <= k < |defenses| ==> defenses[k].id != id by {
          forall k | 0 <= k < |defenses| ensures defenses[k].id != id {
            if k > 0 { assert defenses[k] == defenses[1..][k - 1]; }
          }
        }
        r
  }

  /** `selectedDefenses.some(d => d.id === id)`. */
  predicate IsSelected(selection: seq<DefenseItem>, id: string) {
    exists k :: 0 <= k < |selection| && selection[k].id == id
  }

  /** `selectedDefenses.filter(d => d.id !== id)`. */
  function Without(selection: seq<DefenseItem>, id: string): seq<DefenseItem> {
    Filter(selection, (d: DefenseItem) => d.id != id)
  }

  /** The new selection after a click on `id`, or None when no defense has
      that id (the handler returns before updating or notifying). */
  function Toggle(defenses: seq<DefenseItem>, selection: seq<DefenseItem>, id: string,
                  allowMultiple: bool): (r: Option<seq<DefenseItem>>)
    ensures r.None? <==> forall k :: 0 <= k < |defenses| ==> defenses[k].id != id
  {
    match FindById(defenses, id)
    case None => None
    case Some(d) =>
      if allowMultiple then
        if IsSelected(selection, id) then Some(Without(selection, id))
        else Some(selection + [d.(selected := true)])
      else if IsSelected(selection, id) then Some([])
      else Some([d.(selected := true)])
  }

  /** Removing an id keeps every other selected id and the order of what is
      kept. */
  lemma WithoutKeepsOthers(selection: seq<DefenseItem>, id: string)
    ensures var r := Without(selection, id);
      && !IsSelected(r, id)
      && (forall x :: x != id ==> (IsSelected(r, x) <==> IsSelected(selection, x)))
      && Embeds(r, selection, Kept(selection, (d: DefenseItem) => d.id != id))
  {
    var p := (d: DefenseItem) => d.id != id;
    FilterIsOrderedSublist(selection, p);
    forall x | x != id ensures IsSelected(Without(selection, id), x) <==> IsSelected(selection, x) {
      WithoutKeepsId(selection, id, x);
    }
  }

  lemma WithoutKeepsId(selection: seq<DefenseItem>, id: string, x: string)
    requires x != id
    ensures IsSelected(Without(selection, id), x) <==> IsSelected(selection, x)
  {
    var p := (d: DefenseItem) => d.id != id;
    var r := Without(selection, id);
    FilterIsOrderedSublist(selection, p);
    if IsSelected(r, x) {
      var idx := Kept(selection, p);
      var k :| 0 <= k < |r| && r[k].id == x;
      assert selection[idx[k]].id == x;
    }
    if IsSelected(selection, x) {
      var i :| 0 <= i < |selection| && selection[i].id == x;
      assert selection[i] in r;
    }
  }

  /** Multiple mode, a selected id: it is removed and the other selections
      stay, in order. */
  lemma MultipleDeselects(defenses: seq<DefenseItem>, selection: seq<DefenseItem>, id: string)
    requires FindById(defenses, id).Some? && IsSelected(selection, id)
    ensures var r := Toggle(defenses, selection, id, true);
      && r.Some?
      && !IsSelected(r.value, id)
      && (forall x :: x != id ==> (IsSelected(r.value, x) <==> IsSelected(selection, x)))
      && Embeds(r.value, selection, Kept(selection, (d: DefenseItem) => d.id != id))
  {
    WithoutKeepsOthers(selection, id);
  }

  /** Multiple mode, an unselected id: the first defense with that id is
      appended, flagged as selected, after the unchanged selection. */
  lemma MultipleAppends(defenses: seq<DefenseItem>, selection: seq<DefenseItem>, id: string)
    requires FindById(defenses, id).Some? && !IsSelected(selection, id)
    ensures var r := Toggle(defenses, selection, id, true);
      var d := FindById(defenses, id).value;
      && r.Some? && |r.value| == |selection| + 1
      && r.value[..|selection|] == selection
      && r.value[|selection|] == d.(selected := true)
      && IsSelected(r.value, id)
  {
    var r := Toggle(defenses, selection, id, true).value;
    assert r[|selection|].id == id;
  }

  /** Single mode: a click on the selected id empties the selection, a
      click on any other known id makes that defense the only one. */
  lemma SingleSelectsOne(defenses: seq<DefenseItem>, selection: seq<DefenseItem>, id: string)
    requires FindById(defenses, id).Some?
    ensures var r := Toggle(defenses, selection, id, false);
      && r.Some? && |r.value| <= 1
      && (forall x :: IsSelected(r.value, x) <==> x == id && !IsSelected(selection, id))
      && (!IsSelected(selection, id) ==> r.value == [FindById(defenses, id).value.(selected := true)])
  {
    var r := Toggle(defenses, selection, id, false).value;
    if !IsSelected(selection, id) {
      assert r[0].id == id;
    }
  }

  /** An id is selected after appending an item exactly when it was
      selected before or is the item's. */
  lemma IsSelectedSnoc(selection: seq<DefenseItem>, d: DefenseItem, x: string)
    ensures IsSelected(selection + [d], x) <==> IsSelected(selection, x) || d.id == x
  {
    var s := selection + [d];
    if IsSelected(s, x) {
      var k :| 0 <= k < |s| && s[k].id == x;
      if k < |selection| {
        assert selection[k].id == x;
      }
    }
    if IsSelected(selection, x) {
      var k :| 0 <= k < |selection| && selection[k].id == x;
      assert s[k].id == x;
    }
    if d.id == x {
      assert s[|selection|].id == x;
    }
  }

  /** No two selected items share an id. */
  predicate UniqueIds(selection: seq<DefenseItem>) {
    forall i, j :: 0 <= i < j < |selection| ==> selection[i].id != selection[j].id
  }

  /** Defenses listed under distinct ids start a selection without a
      duplicate. */
  lemma InitialSelectionUnique(defenses: seq<DefenseItem>)
    requires UniqueIds(defenses)
    ensures UniqueIds(InitialSelection(defenses))
  {
    FilterIsOrderedSublist(defenses, (d: DefenseItem) => d.selected);
  }

  /** Toggling never introduces a duplicate id, in either mode. */
  lemma ToggleKeepsIdsUnique(defenses: seq<DefenseItem>, selection: seq<DefenseItem>, id: string,
                             allowMultiple: bool)
    requires UniqueIds(selection)
    ensures var r := Toggle(defenses, selection, id, allowMultiple);
      r.Some? ==> UniqueIds(r.value)
  {
    var r := Toggle(defenses, selection, id, allowMultiple);
    if r.Some? && allowMultiple {
      if IsSelected(selection, id) {
        WithoutKeepsUnique(selection, id);
      } else {
        UniqueSnoc(selection, FindById(defenses, id).value.(selected := true));
      }
    }
  }

  lemma WithoutKeepsUnique(selection: seq<DefenseItem>, id: string)
    requires UniqueIds(selection)
    ensures UniqueIds(Without(selection, id))
  {
    var p := (d: DefenseItem) => d.id != id;
    var r := Without(selection, id);
    FilterIsOrderedSublist(selection, p);
    var idx := Kept(selection, p);
    assert forall i, j :: 0 <= i < j < |r| ==> r[i] == selection[idx[i]] && idx[i] < idx[j];
  }

  lemma UniqueSnoc(selection: seq<DefenseItem>, d: DefenseItem)
    requires UniqueIds(selection) && !IsSelected(selection, d.id)
    ensures UniqueIds(selection + [d])
  {
    var r := selection + [d];
    forall i, j | 0 <= i < j < |r| ensures r[i].id != r[j].id {
      if j == |selection| {
        assert r[i] == selection[i];
      } else {
        assert r[i] == selection[i] && r[j] == selection[j];
      }
    }
  }

  /** Every selected item is one of the defenses, flagged as selected. */
  ghost predicate DrawnFrom(defenses: seq<DefenseItem>, selection: seq<DefenseItem>) {
    forall k :: 0 <= k < |selection| ==> selection[k].selected && selection[k].(selected := false) in FlagsCleared(defenses)
  }

  function FlagsCleared(defenses: seq<DefenseItem>): (r: seq<DefenseItem>)
    ensures |r| == |defenses|
    ensures forall k :: 0 <= k < |r| ==> r[k] == defenses[k].(selected := false)
  {
    seq(|defenses|, k requires 0 <= k < |defenses| => defenses[k].(selected := false))
  }

  /** The initial selection and every toggle keep the selection drawn from
      the listed defenses. */
  lemma SelectionDrawnFromDefenses(defenses: seq<DefenseItem>, selection: seq<DefenseItem>, id: string,
                                   allowMultiple: bool)
    ensures DrawnFrom(defenses, InitialSelection(defenses))
    ensures DrawnFrom(defenses, selection) ==>
      var r := Toggle(defenses, selection, id, allowMultiple);
      r.Some? ==> DrawnFrom(defenses, r.value)
  {
    InitialDrawnFrom(defenses);
    if DrawnFrom(defenses, selection) {
      ToggleDrawnFrom(defenses, selection, id, allowMultiple);
    }
  }

  lemma InitialDrawnFrom(defenses: seq<DefenseItem>)
    ensures DrawnFrom(defenses, InitialSelection(defenses))
  {
    var flagged := (d: DefenseItem) => d.selected;
    FilterIsOrderedSublist(defenses, flagged);
    var init := InitialSelection(defenses);
    var idx := Kept(defenses, flagged);
    forall k | 0 <= k < |init| ensures init[k].(selected := false) in FlagsCleared(defenses) {
      assert FlagsCleared(defenses)[idx[k]] == init[k].(selected := false);
    }
  }

  lemma ToggleDrawnFrom(defenses: seq<DefenseItem>, selection: seq<DefenseItem>, id: string, allowMultiple: bool)
    requires DrawnFrom(defenses, selection)
    ensures var r := Toggle(defenses, selection, id, allowMultiple);
      r.Some? ==> DrawnFrom(defenses, r.value)
  {
    var r := Toggle(defenses, selection, id, allowMultiple);
    if r.Some? {
      var d := FindById(defenses, id).value;
      FoundDrawnFrom(defenses, id);
      if allowMultiple && IsSelected(selection, id) {
        WithoutDrawnFrom(defenses, selection, id);
      } else if allowMultiple {
        assert r.value == selection + [d.(selected := true)];
        assert forall k :: 0 <= k < |selection| ==> r.value[k] == selection[k];
      }
    }
  }

  /** The defense found for an id, flagged, is drawn from the defenses. */
  lemma FoundDrawnFrom(defenses: seq<DefenseItem>, id: string)
    requires FindById(defenses, id).Some?
    ensures DrawnFrom(defenses, [FindById(defenses, id).value.(selected := true)])
  {
    var d := FindById(defenses, id).value;
    var j :| 0 <= j < |defenses| && defenses[j] == d;
    assert FlagsCleared(defenses)[j] == d.(selected := true).(selected := false);
  }

  /** Removing an id keeps a selection drawn from the defenses. */
  lemma WithoutDrawnFrom(defenses: seq<DefenseItem>, selection: seq<DefenseItem>, id: string)
    requires DrawnFrom(defenses, selection)
    ensures DrawnFrom(defenses, Without(selection, id))
  {
    var p := (x: DefenseItem) => x.id != id;
    var r := Without(selection, id);
    FilterIsOrderedSublist(selection, p);
    var sidx := Kept(selection, p);
    assert forall k :: 0 <= k < |r| ==> r[k] == selection[sidx[k]];
  }


  /** Multiple mode: a second click on the same id restores which ids are
      selected; when the id was not selected, the selection comes back
      exactly. */
  lemma ToggleTwiceRestores(defenses: seq<DefenseItem>, selection: seq<DefenseItem>, id: string)
    requires FindById(defenses, id).Some?
    ensures var once := Toggle(defenses, selection, id, true).value;
      var twice := Toggle(defenses, once, id, true);
      && twice.Some?
      && (forall x :: IsSelected(twice.value, x) <==> IsSelected(selection, x))
      && (!IsSelected(selection, id) ==> twice.value == selection)
  {
    var once := Toggle(defenses, selection, id, true).value;
    var twice := Toggle(defenses, once, id, true).value;
    var d := FindById(defenses, id).value;
    if IsSelected(selection, id) {
      WithoutKeepsOthers(selection, id);
      assert twice == once + [d.(selected := true)];
      forall x ensures IsSelected(twice, x) <==> IsSelected(selection, x) {
        IsSelectedSnoc(once, d.(selected := true), x);
      }
    } else {
      assert once == selection + [d.(selected := true)];
      assert IsSelected(once, id) by { assert once[|selection|].id == id; }
      var p := (x: DefenseItem) => x.id != id;
      assert twice == Filter(once, p);
      FilterSnoc(selection, d.(selected := true), p);
      FilterKeepsAll(selection, p);
      assert twice == selection;
    }
  }

  /** The component's state: the selection and every selection it has
      handed to `onSelectionChange`, oldest first. */
  class Checklist {
    const defenses: seq<DefenseItem>
    const allowMultiple: bool
    var selected: seq<DefenseItem>
    var notified: seq<seq<DefenseItem>>

    /** The selection is made of listed defenses, and it holds no id twice
        when the listed defenses do not. */
    ghost predicate Valid()
      reads this
    {
      && DrawnFrom(defenses, selected)
      && (UniqueIds(defenses) ==> UniqueIds(selected))
    }

    constructor(defenses: seq<DefenseItem>, allowMultiple: bool)
      ensures this.defenses == defenses && this.allowMultiple == allowMultiple
      ensures selected == InitialSelection(defenses) && notified == []
      ensures Valid()
    {
      this.defenses := defenses;
      this.allowMultiple := allowMultiple;
      selected := InitialSelection(defenses);
      notified := [];
      InitialDrawnFrom(defenses);
      if UniqueIds(defenses) {
        InitialSelectionUnique(defenses);
      }
    }

    /** A click (or Enter/space) on the item with `id`: the selection, when
        it changes, is both stored and handed to the callback. */
    method HandleToggle(id: string)
      requires Valid()
      modifies this
      ensures Valid()
      ensures match Toggle(defenses, old(selected), id, allowMultiple)
        case None => selected == old(selected) && notified == old(notified)
        case Some(r) => selected == r && notified == old(notified) + [r]
    {
      var found := FindById(defenses, id);
      if found.None? {
        return;
      }
      var d := found.value;
      var next: seq<DefenseItem>;
      if allowMultiple {
        if IsSelected(selected, id) {
          next := Without(selected, id);
        } else {
          next := selected + [d.(selected := true)];
        }
      } else {
        next := if IsSelected(selected, id) then [] else [d.(selected := true)];
      }
      ToggleDrawnFrom(defenses, selected, id, allowMultiple);
      if UniqueIds(defenses) {
        ToggleKeepsIdsUnique(defenses, selected, id, allowMultiple);
      }
      selected := next;
      notified := notified + [next];
    }
  }

  // ---------------------------------------------------------------------
  // Grouping for display

  /** The keys of the grouping record: a defense's category name, or
      'other' when it has none. */
  datatype Group = ProceduralGroup | SubstantiveGroup | FinancialGroup | OtherGroup

  /** The record key each group is stored under. */
  function GroupName(g: Group): string {
    match g
    case ProceduralGroup => "procedural"
    case SubstantiveGroup => "substantive"
    case FinancialGroup => "financial"
    case OtherGroup => "other"
  }

  /** The display order of the groups. */
  const CategoryOrder: seq<Group> := [ProceduralGroup, SubstantiveGroup, FinancialGroup, OtherGroup]

  /** `defense.category || 'other'`. */
  function GroupKey(d: DefenseItem): Group {
    match d.category
    case None => OtherGroup
    case Some(Procedural) => ProceduralGroup
    case Some(Substantive) => SubstantiveGroup
    case Some(Financial) => FinancialGroup
  }

  function CategoryLabel(g: Group): string {
    match g
    case ProceduralGroup => "Procedural Defenses"
    case SubstantiveGroup => "Substantive Defenses"
    case FinancialGroup => "Financial Defenses"
    case OtherGroup => "Other Defenses"
  }

  /** The defenses filed under `key`, in input order. */
  function InGroup(defenses: seq<DefenseItem>, key: Group): seq<DefenseItem> {
    Filter(defenses, (d: DefenseItem) => GroupKey(d) == key)
  }

  /** The `reduce`: each defense is pushed onto the list of its key,
      the list being created at the key's first defense. */
  method GroupByCategory(defenses: seq<DefenseItem>) returns (groups: map<Group, seq<DefenseItem>>)
    ensures forall key :: key in groups <==> InGroup(defenses, key) != []
    ensures forall key :: key in groups ==> groups[key] == InGroup(defenses, key)
  {
    groups := map[];
    for i := 0 to |defenses|
      invariant forall key :: key in groups <==> InGroup(defenses[..i], key) != []
      invariant forall key :: key in groups ==> groups[key] == InGroup(defenses[..i], key)
    {
      var d := defenses[i];
      var key := GroupKey(d);
      assert defenses[..i + 1] == defenses[..i] + [d];
      forall k ensures InGroup(defenses[..i + 1], k) == InGroup(defenses[..i], k) + (if GroupKey(d) == k then [d] else []) {
        FilterSnoc(defenses[..i], d, (x: DefenseItem) => GroupKey(x) == k);
      }
      if key !in groups {
        groups := groups[key := []];
      }
      groups := groups[key := groups[key] + [d]];
    }
    assert defenses[..|defenses|] == defenses;
  }

  /** Each defense lies in the group of its own key and in no other. */
  lemma EveryDefenseInOneGroup(defenses: seq<DefenseItem>, i: nat, key: Group)
    requires i < |defenses|
    ensures defenses[i] in InGroup(defenses, key) <==> key == GroupKey(defenses[i])
  {
    var p := (d: DefenseItem) => GroupKey(d) == key;
    FilterIsOrderedSublist(defenses, p);
  }

  /** One rendered category: its key, heading and items. */
  datatype Section = Section(key: Group, heading: string, items: seq<DefenseItem>)

  /** Whether the category map renders a section for `key`. */
  predicate Visible(groups: map<Group, seq<DefenseItem>>, key: Group) {
    key in groups && groups[key] != []
  }

  /** The sections for the first `n` categories of the display order,
      empty groups skipped. */
  function ShownUpTo(groups: map<Group, seq<DefenseItem>>, n: nat): (r: seq<Section>)
    requires n <= |CategoryOrder|
    ensures forall k :: 0 <= k < |r| ==> Visible(groups, r[k].key) && r[k].items == groups[r[k].key]
  {
    if n == 0 then []
    else
      var key := CategoryOrder[n - 1];
      ShownUpTo(groups, n - 1)
        + (if Visible(groups, key) then [Section(key, CategoryLabel(key), groups[key])] else [])
  }

  /** The sections rendered. */
  function Sections(groups: map<Group, seq<DefenseItem>>): seq<Section> {
    ShownUpTo(groups, |CategoryOrder|)
  }

  function Keys(sections: seq<Section>): (r: seq<Group>)
    ensures |r| == |sections| && forall k :: 0 <= k < |r| ==> r[k] == sections[k].key
  {
    seq(|sections|, k requires 0 <= k < |sections| => sections[k].key)
  }

  /** The items of the sections one after another. */
  function Flatten(sections: seq<Section>): seq<DefenseItem>
  {
    if sections == [] then [] else Flatten(sections[..|sections| - 1]) + sections[|sections| - 1].items
  }

  /** The entries of the first `n` groups of the display order, as a
      multiset. */
  ghost function GroupsUpTo(groups: map<Group, seq<DefenseItem>>, n: nat): multiset<DefenseItem>
    requires n <= |CategoryOrder|
  {
    if n == 0 then multiset{}
    else
      var key := CategoryOrder[n - 1];
      GroupsUpTo(groups, n - 1) + Entry(groups, key)
  }

  lemma {:induction false} ShownUpToHoldsGroups(groups: map<Group, seq<DefenseItem>>, n: nat)
    requires n <= |CategoryOrder|
    ensures multiset(Flatten(ShownUpTo(groups, n))) == GroupsUpTo(groups, n)
  {
    if n > 0 {
      ShownUpToHoldsGroups(groups, n - 1);
      var r := ShownUpTo(groups, n);
      var prev := ShownUpTo(groups, n - 1);
      var key := CategoryOrder[n - 1];
      if Visible(groups, key) {
        assert r == prev + [Section(key, CategoryLabel(key), groups[key])];
        assert r[..|r| - 1] == prev;
        assert Flatten(r) == Flatten(prev) + groups[key];
      } else {
        assert r == prev;
        assert key in groups ==> groups[key] == [];
      }
    }
  }

  /** The rendered keys are the display order with the empty groups
      filtered out. */
  lemma {:induction false} ShownUpToKeys(groups: map<Group, seq<DefenseItem>>, n: nat)
    requires n <= |CategoryOrder|
    ensures Keys(ShownUpTo(groups, n)) == Filter(CategoryOrder[..n], (g: Group) => Visible(groups, g))
  {
    if n > 0 {
      ShownUpToKeys(groups, n - 1);
      assert CategoryOrder[..n][..n - 1] == CategoryOrder[..n - 1];
    }
  }

  lemma InGroupSnoc(defenses: seq<DefenseItem>, d: DefenseItem, key: Group)
    ensures InGroup(defenses + [d], key) == InGroup(defenses, key) + (if GroupKey(d) == key then [d] else [])
    ensures multiset(InGroup(defenses + [d], key))
         == multiset(InGroup(defenses, key)) + (if GroupKey(d) == key then multiset{d} else multiset{})
  {
    FilterSnoc(defenses, d, (x: DefenseItem) => GroupKey(x) == key);
  }

  /** The four categories' defenses taken together, as a multiset. */
  function AllGroups(defenses: seq<DefenseItem>): multiset<DefenseItem> {
    multiset(InGroup(defenses, ProceduralGroup)) + multiset(InGroup(defenses, SubstantiveGroup))
    + multiset(InGroup(defenses, FinancialGroup)) + multiset(InGroup(defenses, OtherGroup))
  }

  /** A defense added at the end lands in exactly one category. */
  lemma AllGroupsSnoc(defenses: seq<DefenseItem>, d: DefenseItem)
    ensures AllGroups(defenses + [d]) == AllGroups(defenses) + multiset{d}
  {
    var s := defenses + [d];
    InGroupSnoc(defenses, d, ProceduralGroup);
    InGroupSnoc(defenses, d, SubstantiveGroup);
    InGroupSnoc(defenses, d, FinancialGroup);
    InGroupSnoc(defenses, d, OtherGroup);
    AddToOneGroup(
      multiset(InGroup(defenses, ProceduralGroup)), multiset(InGroup(defenses, SubstantiveGroup)),
      multiset(InGroup(defenses, FinancialGroup)), multiset(InGroup(defenses, OtherGroup)),
      multiset(InGroup(s, ProceduralGroup)), multiset(InGroup(s, SubstantiveGroup)),
      multiset(InGroup(s, FinancialGroup)), multiset(InGroup(s, OtherGroup)), d);
  }

  /** Four group multisets of which exactly the one for `d`'s key gains
      `d`: their sum gains `d`. */
  lemma AddToOneGroup(p0: multiset<DefenseItem>, s0: multiset<DefenseItem>, f0: multiset<DefenseItem>, o0: multiset<DefenseItem>,
                      p1: multiset<DefenseItem>, s1: multiset<DefenseItem>, f1: multiset<DefenseItem>, o1: multiset<DefenseItem>,
                      d: DefenseItem)
    requires p1 == p0 + (if GroupKey(d) == ProceduralGroup then multiset{d} else multiset{})
    requires s1 == s0 + (if GroupKey(d) == SubstantiveGroup then multiset{d} else multiset{})
    requires f1 == f0 + (if GroupKey(d) == FinancialGroup then multiset{d} else multiset{})
    requires o1 == o0 + (if GroupKey(d) == OtherGroup then multiset{d} else multiset{})
    ensures p1 + s1 + f1 + o1 == p0 + s0 + f0 + o0 + multiset{d}
  {
    match GroupKey(d)
    case ProceduralGroup =>
      assert s1 == s0 && f1 == f0 && o1 == o0;
    case SubstantiveGroup =>
      assert p1 == p0 && f1 == f0 && o1 == o0;
    case FinancialGroup =>
      assert p1 == p0 && s1 == s0 && o1 == o0;
    case OtherGroup =>
      assert p1 == p0 && s1 == s0 && f1 == f0;
  }

  lemma {:induction false} GroupsPartition(defenses: seq<DefenseItem>)
    ensures multiset(defenses) == AllGroups(defenses)
    decreases |defenses|
  {
    if defenses != [] {
      var n := |defenses| - 1;
      var prefix, d := defenses[..n], defenses[n];
      GroupsPartition(prefix);
      assert defenses == prefix + [d];
      AllGroupsSnoc(prefix, d);
      assert multiset(defenses) == multiset(prefix) + multiset{d};
    }
  }

  /** What the grouping reduce yields, rendered: the sections' items are
      all the defenses, each once (a permutation of the input); every
      section holds its category's defenses in input order and is
      non-empty; and the sections' keys are the fixed display order with
      the empty categories left out. */
  lemma ShownIsPermutation(defenses: seq<DefenseItem>, groups: map<Group, seq<DefenseItem>>)
    requires forall key :: key in groups <==> InGroup(defenses, key) != []
    requires forall key :: key in groups ==> groups[key] == InGroup(defenses, key)
    ensures var r := Sections(groups);
      && multiset(Flatten(r)) == multiset(defenses)
      && (forall k :: 0 <= k < |r| ==> r[k].items == InGroup(defenses, r[k].key) != [])
      && Keys(r) == Filter(CategoryOrder, (g: Group) => Visible(groups, g))
  {
    GroupsHoldAll(defenses, groups);
    ShownUpToHoldsGroups(groups, |CategoryOrder|);
    ShownUpToKeys(groups, |CategoryOrder|);
    assert CategoryOrder[..|CategoryOrder|] == CategoryOrder;
  }

  /** The groups of the reduce hold every defense once. */
  lemma GroupsHoldAll(defenses: seq<DefenseItem>, groups: map<Group, seq<DefenseItem>>)
    requires forall key :: key in groups <==> InGroup(defenses, key) != []
    requires forall key :: key in groups ==> groups[key] == InGroup(defenses, key)
    ensures GroupsUpTo(groups, |CategoryOrder|) == multiset(defenses)
  {
    GroupsUpToAll(groups);
    forall g ensures Entry(groups, g) == multiset(InGroup(defenses, g)) {
      if g !in groups {
        assert InGroup(defenses, g) == [];
      }
    }
    GroupsPartition(defenses);
  }

  /** All four groups of the display order, as one multiset. */
  lemma GroupsUpToAll(groups: map<Group, seq<DefenseItem>>)
    ensures GroupsUpTo(groups, |CategoryOrder|) == Entry(groups, ProceduralGroup) + Entry(groups, SubstantiveGroup)
                                                   + Entry(groups, FinancialGroup) + Entry(groups, OtherGroup)
  {
    assert GroupsUpTo(groups, 1) == Entry(groups, ProceduralGroup);
    assert GroupsUpTo(groups, 2) == Entry(groups, ProceduralGroup) + Entry(groups, SubstantiveGroup);
    assert GroupsUpTo(groups, 3) == Entry(groups, ProceduralGroup) + Entry(groups, SubstantiveGroup)
                                    + Entry(groups, FinancialGroup);
  }

  /** One group's entries as a multiset, none when the key is absent. */
  ghost function Entry(groups: map<Group, seq<DefenseItem>>, g: Group): multiset<DefenseItem> {
    if g in groups then multiset(groups[g]) else multiset{}
  }

  // ---------------------------------------------------------------------
  // Summary

  /** `{n} defense{n !== 1 ? 's' : ''} selected:`. */
  function CountLabel(n: nat): string {
    NatToString(n) + " defense" + (if n != 1 then "s" else "") + " selected:"
  }

  function Titles(selection: seq<DefenseItem>): (r: seq<string>)
    ensures |r| == |selection| && forall k :: 0 <= k < |r| ==> r[k] == selection[k].title
  {
    seq(|selection|, k requires 0 <= k < |selection| => selection[k].title)
  }

  /** The summary line, shown only while something is selected: the count
      label, then the titles joined by ", ". */
  function Summary(selection: seq<DefenseItem>): (r: Option<string>)
    ensures r.Some? <==> |selection| > 0
    ensures r.Some? ==> CountLabel(|selection|) <= r.value
  {
    if |selection| > 0 then Some(CountLabel(|selection|) + " " + Join(Titles(selection), ", "))
    else None
  }

  /** The label names the count in decimal, singular for exactly one. */
  lemma CountLabelReadsCount(n: nat)
    ensures var text := CountLabel(n);
      var digits := NatToString(n);
      && text[..|digits|] == digits && DecimalValue(digits) == n
      && (n == 1 <==> text == "1 defense selected:")
      && (n != 1 ==> text[|digits|..] == " defenses selected:")
  {
    NatToStringRoundTrip(n);
    var digits := NatToString(n);
    if n == 1 {
      assert digits == "1";
    } else {
      assert CountLabel(n) == digits + " defenses selected:";
      assert |CountLabel(n)| == |digits| + 19;
    }
  }

  // ---------------------------------------------------------------------
  // The sample list

  const ImproperNotice: DefenseItem :=
    DefenseItem("improper_notice", "Improper Notice", "The landlord did not provide proper notice as required by law", false, Some(Procedural))
  const RentPaid: DefenseItem :=
    DefenseItem("rent_payment", "Rent Was Paid", "I paid the rent that was claimed to be owed", false, Some(Financial))
  const Habitability: DefenseItem :=
    DefenseItem("warranty_habitability", "Warranty of Habitability", "The landlord failed to maintain the property in livable condition", false, Some(Substantive))
  const Retaliation: DefenseItem :=
    DefenseItem("retaliatory_eviction", "Retaliatory Eviction", "This eviction is in retaliation for exercising my legal rights", false, Some(Substantive))
  const Discrimination: DefenseItem :=
    DefenseItem("discrimination", "Discrimination", "This eviction is based on discrimination against a protected class", false, Some(Substantive))

  const SampleDefenses: seq<DefenseItem> := [ImproperNotice, RentPaid, Habitability, Retaliation, Discrimination]

  /** Single mode on the sample list: after clicking "Improper Notice" and
      then "Rent Was Paid", only the second is selected. */
  lemma SingleModeLastClickWins()
    ensures Toggle(SampleDefenses, InitialSelection(SampleDefenses), "improper_notice", false)
         == Some([SampleDefenses[0].(selected := true)])
    ensures Toggle(SampleDefenses, [SampleDefenses[0].(selected := true)], "rent_payment", false)
         == Some([SampleDefenses[1].(selected := true)])
  {
    FilterDropsAll(SampleDefenses, (d: DefenseItem) => d.selected);
    assert InitialSelection(SampleDefenses) == [];
    var first := Toggle(SampleDefenses, [], "improper_notice", false);
    assert FindById(SampleDefenses, "improper_notice") == Some(SampleDefenses[0]);
    assert first == Some([SampleDefenses[0].(selected := true)]);
    var sel := first.value;
    assert FindById(SampleDefenses[1..], "rent_payment") == Some(SampleDefenses[1]);
    assert FindById(SampleDefenses, "rent_payment") == Some(SampleDefenses[1]);
    assert !IsSelected(sel, "rent_payment") by {
      assert sel[0].id == "improper_notice";
    }
    var second := Toggle(SampleDefenses, sel, "rent_payment", false).value;
    assert second == [SampleDefenses[1].(selected := true)];
  }

  /** A single selection is summarised as the singular label and its
      title. */
  lemma SummaryOfOne(x: DefenseItem)
    ensures Summary([x]) == Some("1 defense selected: " + x.title)
  {
    assert Titles([x]) == [x.title];
    assert Join(Titles([x]), ", ") == x.title;
    CountLabelOne();
    assert CountLabel(1) + " " == "1 defense selected: ";
  }

  /** The summary line under that single selection. */
  lemma SingleSelectionSummary()
    ensures Summary([RentPaid.(selected := true)]) == Some("1 defense selected: Rent Was Paid")
  {
    SummaryOfOne(RentPaid.(selected := true));
    assert "1 defense selected: " + "Rent Was Paid" == "1 defense selected: Rent Was Paid";
  }

  lemma CountLabelOne()
    ensures CountLabel(1) == "1 defense selected:"
  {
    assert NatToString(1) == "1";
  }

  lemma CountLabelTwo()
    ensures CountLabel(2) == "2 defenses selected:"
  {
    assert NatToString(2) == "2";
  }

  /** Two selections are summarised as the plural label and their titles
      in selection order. */
  lemma SummaryOfTwo(x: DefenseItem, y: DefenseItem)
    ensures Summary([x, y]) == Some("2 defenses selected: " + x.title + ", " + y.title)
  {
    var t := Titles([x, y]);
    assert t == [x.title, y.title];
    assert t[1..] == [y.title];
    assert Join(t, ", ") == x.title + ", " + y.title;
    CountLabelTwo();
    var head := "2 defenses selected: ";
    assert CountLabel(2) + " " == head;
    assert head + (x.title + ", " + y.title) == head + x.title + ", " + y.title;
  }

  /** The summary line under the two selections of multiple mode. */
  lemma MultipleModeSummary()
    ensures Summary([ImproperNotice.(selected := true), RentPaid.(selected := true)])
         == Some("2 defenses selected: Improper Notice, Rent Was Paid")
  {
    SummaryOfTwo(ImproperNotice.(selected := true), RentPaid.(selected := true));
    TwoSampleTitles();
  }

  lemma TwoSampleTitles()
    ensures "2 defenses selected: " + "Improper Notice" + ", " + "Rent Was Paid"
         == "2 defenses selected: Improper Notice, Rent Was Paid"
  {
    assert "2 defenses selected: " + "Improper Notice" == "2 defenses selected: Improper Notice";
  }

  /** Multiple mode on the sample list: clicking "Improper Notice" and then
      "Rent Was Paid" selects both, in click order. */
  lemma MultipleModeKeepsBoth()
    ensures Toggle(SampleDefenses, [SampleDefenses[0].(selected := true)], "rent_payment", true)
         == Some([SampleDefenses[0].(selected := true), SampleDefenses[1].(selected := true)])
  {
    var sel := [SampleDefenses[0].(selected := true)];
    assert FindById(SampleDefenses[1..], "rent_payment") == Some(SampleDefenses[1]);
    assert FindById(SampleDefenses, "rent_payment") == Some(SampleDefenses[1]);
    assert !IsSelected(sel, "rent_payment") by {
      assert sel[0].id == "improper_notice";
    }
    var both := [SampleDefenses[0].(selected := true), SampleDefenses[1].(selected := true)];
    assert Toggle(SampleDefenses, sel, "rent_payment", true) == Some(sel + [SampleDefenses[1].(selected := true)]);
    assert sel + [SampleDefenses[1].(selected := true)] == both;
  }
}
