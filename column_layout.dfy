/** The table's column layout (app/components/VideoAdTable.tsx): the order
    and visibility state, the column selector's lists and search, its
    drag-to-reorder and reset, and the table's own drag handler. */
module ColumnLayout {
  import opened Wrappers
  import opened SeqUtil

  /** The ids of the columns in the order `columns` declares them; this is
      also the initial `columnOrder`. */
  const ColumnIds: seq<string> := [
    "preview", "actions", "name", "recentConsumption", "recentROI",
    "consumptionCurve", "roiCurve", "impressions", "clicks", "ctr",
    "conversionRate", "orders", "revenue", "spend", "spendRatio",
    "baseSpend", "orderCost", "roi", "revenueRatio", "presaleAmount",
    "presaleOrders", "estimatedPresaleAmount", "couponAmount",
    "toolEffectiveness", "reinvestmentSpend", "reinvestmentOrders",
    "reinvestmentRevenue", "reinvestmentROI"]

  /** The two columns the selector never lists and always puts first. */
  const SelectorPinned: seq<string> := ["preview", "actions"]

  /** The seven columns the table's drag handler always puts first. */
  const TablePinned: seq<string> := [
    "preview", "actions", "name", "recentConsumption", "recentROI",
    "consumptionCurve", "roiCurve"]

  predicate IsSelectorPinned(id: string) { id == "preview" || id == "actions" }

  /** A column's title in the selector: its header when the header is a
      string, otherwise its id (the two windowed columns have a header
      function, `actions` has no header). */
  function Title(id: string): string {
    if id == "preview" then "预览"
    else if id == "name" then "素材名称"
    else if id == "consumptionCurve" then "消耗曲线"
    else if id == "roiCurve" then "ROI曲线"
    else if id == "impressions" then "整体展现次数"
    else if id == "clicks" then "整体点击次数"
    else if id == "ctr" then "整体点击率"
    else if id == "conversionRate" then "整体转化率"
    else if id == "orders" then "整体成交订单数"
    else if id == "revenue" then "整体成交金额"
    else if id == "spend" then "整体消耗"
    else if id == "spendRatio" then "整体消耗占比"
    else if id == "baseSpend" then "基础消耗"
    else if id == "orderCost" then "整体成交订单成本"
    else if id == "roi" then "整体支付ROI"
    else if id == "revenueRatio" then "整体成交金额占比"
    else if id == "presaleAmount" then "整体预售订单金额"
    else if id == "presaleOrders" then "整体预售订单数"
    else if id == "estimatedPresaleAmount" then "整体未完结预售订单预估金额"
    else if id == "couponAmount" then "整体成交智能优惠券金额"
    else if id == "toolEffectiveness" then "工具效果"
    else if id == "reinvestmentSpend" then "追投消耗"
    else if id == "reinvestmentOrders" then "追投成交订单数"
    else if id == "reinvestmentRevenue" then "追投成交金额"
    else if id == "reinvestmentROI" then "追投ROI"
    else id
  }

  /** The visibility state: a column without an entry is visible. */
  type Visibility = map<string, bool>

  predicate IsVisible(vis: Visibility, id: string) { id !in vis || vis[id] }

  /** One entry of the selector's column list. */
  datatype ColumnInfo = ColumnInfo(id: string, title: string, isVisible: bool)

  function IdOf(c: ColumnInfo): string { c.id }

  function Ids(cs: seq<ColumnInfo>): seq<string> { MapSeq(IdOf, cs) }

  predicate Unpinned(id: string) { !IsSelectorPinned(id) }

  /** The declared ids without the pinned two, in declaration order. */
  function ListedIds(cols: seq<string>): seq<string> { Filter(Unpinned, cols) }

  /** The list entry of a column under a visibility state. */
  function InfoOf(vis: Visibility): string -> ColumnInfo {
    (id: string) => ColumnInfo(id, Title(id), IsVisible(vis, id))
  }

  /** The columns the selector lists (`table.getAllColumns()` gives them in
      declaration order `cols`): every column but the two pinned ones, with
      its title and visibility. */
  function AllColumns(cols: seq<string>, vis: Visibility): seq<ColumnInfo> {
    MapSeq(InfoOf(vis), ListedIds(cols))
  }

  predicate Shown(c: ColumnInfo) { c.isVisible }

  /** The right-hand panel: the listed columns that are visible. */
  function SelectedColumns(cols: seq<string>, vis: Visibility): seq<ColumnInfo> {
    Filter(Shown, AllColumns(cols, vis))
  }

  /** ASCII upper case to lower case; every other character is kept. */
  function LowerChar(c: char): char {
    if 'A' <= c <= 'Z' then (c as int + 32) as char else c
  }

  function ToLower(s: string): string { MapSeq(LowerChar, s) }

  predicate OccursAt(s: string, sub: string, i: nat) {
    i + |sub| <= |s| && s[i..i + |sub|] == sub
  }

  /** `s.includes(sub)`. */
  predicate Contains(s: string, sub: string) {
    exists i: nat | i <= |s| :: OccursAt(s, sub, i)
  }

  /** Whether a column's title contains the search term, ignoring case. */
  function Matches(term: string): ColumnInfo -> bool {
    (c: ColumnInfo) => Contains(ToLower(c.title), ToLower(term))
  }

  /** The left-hand panel: the listed columns whose title contains the
      search term, ignoring case. */
  function FilteredColumns(cols: seq<string>, vis: Visibility, term: string): seq<ColumnInfo> {
    Filter(Matches(term), AllColumns(cols, vis))
  }

  /** The order the selector's drag handler installs: the two pinned ids,
      then the ids of the selected columns after moving the one at `src`
      to `dst`. Hidden columns are not in it. */
  function SelectorOrder(cols: seq<string>, vis: Visibility, src: nat, dst: nat): seq<string>
    requires src < |SelectedColumns(cols, vis)|
  {
    SelectorPinned + Ids(Move(SelectedColumns(cols, vis), src, dst))
  }

  /** The order the table's drag handler installs: the seven pinned ids,
      then every other id of the order after the move, in that order. */
  function TableDragOrder(order: seq<string>, src: nat, dst: nat): seq<string>
    requires src < |order|
  {
    PinnedFirst(TablePinned, Move(order, src, dst))
  }

  /** The visibility after the reset sweep has visited the first `n`
      declared columns: each one but the two pinned is set hidden. */
  function ResetPrefix(cols: seq<string>, vis: Visibility, n: nat): Visibility
    requires n <= |cols|
  {
    if n == 0 then vis
    else
      var v := ResetPrefix(cols, vis, n - 1);
      if IsSelectorPinned(cols[n - 1]) then v else v[cols[n - 1] := false]
  }

  /** The visibility after the reset button. */
  function ResetVisibility(cols: seq<string>, vis: Visibility): Visibility {
    ResetPrefix(cols, vis, |cols|)
  }

  /** A column the reset hides: a declared column other than the pinned two. */
  predicate Resettable(cols: seq<string>, id: string) { id in cols && !IsSelectorPinned(id) }

  /** Whether a column id is visible under a visibility state. */
  function VisibleIn(vis: Visibility): string -> bool {
    (id: string) => IsVisible(vis, id)
  }

  // ----- the view state -----

  /** The table's `columnOrder` and `columnVisibility` state. */
  class TableView {
    /** The ids of the column definitions the table was built with. */
    const columns: seq<string>
    var columnOrder: seq<string>
    var columnVisibility: Visibility

    /** No column is declared twice; the order starts with the selector's two
        pinned columns and names no column twice. */
    ghost predicate Valid()
      reads this
    {
      && NoDup(columns)
      && |columnOrder| >= 2 && columnOrder[..2] == SelectorPinned && NoDup(columnOrder)
    }

    constructor()
      ensures columns == ColumnIds
      ensures columnOrder == ColumnIds && columnVisibility == map[]
      ensures Valid()
    {
      columns := ColumnIds;
      columnOrder := ColumnIds;
      columnVisibility := map[];
      new;
      ColumnIdsDistinct();
    }

    /** `table.getColumn(id)` then `toggleVisibility(visible)`; an id that
        names no column changes nothing. */
    method SetColumnVisibility(id: string, visible: bool)
      requires Valid()
      modifies this
      ensures Valid()
      ensures columnOrder == old(columnOrder)
      ensures columnVisibility == if id in columns then old(columnVisibility)[id := visible]
                                  else old(columnVisibility)
    {
      if id in columns {
        columnVisibility := columnVisibility[id := visible];
      }
    }

    /** The selector's `onDragEnd`: nothing without a destination, else the
        order becomes the pinned pair followed by the reordered selection. */
    method SelectorDragEnd(src: nat, dst: Option<nat>)
      requires Valid()
      requires dst.Some? ==> src < |SelectedColumns(columns, columnVisibility)|
      modifies this
      ensures Valid()
      ensures columnVisibility == old(columnVisibility)
      ensures columnOrder == if dst.None? then old(columnOrder)
                             else SelectorOrder(columns, old(columnVisibility), src, dst.value)
    {
      if dst.None? {
        return;
      }
      var items := SelectedColumns(columns, columnVisibility);
      var moved := items[src];
      items := RemoveAt(items, src);
      items := InsertAt(items, dst.value, moved);
      columnOrder := SelectorPinned + Ids(items);
      SelectorOrderNoDup(columns, columnVisibility, src, dst.value);
    }

    /** The table's `onDragEnd`: nothing without a destination, else the
        order after the move with the seven pinned ids put first. */
    method TableDragEnd(src: nat, dst: Option<nat>)
      requires Valid()
      requires dst.Some? ==> src < |columnOrder|
      modifies this
      ensures Valid()
      ensures columnVisibility == old(columnVisibility)
      ensures columnOrder == if dst.None? then old(columnOrder)
                             else TableDragOrder(old(columnOrder), src, dst.value)
    {
      if dst.None? {
        return;
      }
      var order := columnOrder;
      var moved := order[src];
      order := RemoveAt(order, src);
      order := InsertAt(order, dst.value, moved);
      columnOrder := TablePinned + Filter(NotIn(TablePinned), order);
      TableDragOrderNoDup(old(columnOrder), src, dst.value);
    }

    /** The reset button: every declared column but the pinned two is
        switched off, one after the other. */
    method Reset()
      requires Valid()
      modifies this
      ensures Valid()
      ensures columnOrder == old(columnOrder)
      ensures columnVisibility == ResetVisibility(columns, old(columnVisibility))
    {
      for i := 0 to |columns|
        invariant columnOrder == old(columnOrder)
        invariant columnVisibility == ResetPrefix(columns, old(columnVisibility), i)
      {
        var id := columns[i];
        if !IsSelectorPinned(id) {
          columnVisibility := columnVisibility[id := false];
        }
      }
    }
  }

  // ----- facts -----

  /** No column is declared twice. */
  lemma ColumnIdsDistinct()
    ensures NoDup(ColumnIds)
  {
    PositionsFirst();
    PositionsSecond();
    PositionsThird();
    PositionsFourth();
    LeftInverseNoDup(ColumnIds, Position);
  }

  /** The position of a column in the declaration order; 28 for an id that
      names no column. It serves to show the declared ids distinct. */
  function Position(id: string): int {
    if id == "preview" then 0
    else if id == "actions" then 1
    else if id == "name" then 2
    else if id == "recentConsumption" then 3
    else if id == "recentROI" then 4
    else if id == "consumptionCurve" then 5
    else if id == "roiCurve" then 6
    else if id == "impressions" then 7
    else if id == "clicks" then 8
    else if id == "ctr" then 9
    else if id == "conversionRate" then 10
    else if id == "orders" then 11
    else if id == "revenue" then 12
    else if id == "spend" then 13
    else if id == "spendRatio" then 14
    else if id == "baseSpend" then 15
    else if id == "orderCost" then 16
    else if id == "roi" then 17
    else if id == "revenueRatio" then 18
    else if id == "presaleAmount" then 19
    else if id == "presaleOrders" then 20
    else if id == "estimatedPresaleAmount" then 21
    else if id == "couponAmount" then 22
    else if id == "toolEffectiveness" then 23
    else if id == "reinvestmentSpend" then 24
    else if id == "reinvestmentOrders" then 25
    else if id == "reinvestmentRevenue" then 26
    else if id == "reinvestmentROI" then 27
    else 28
  }

  lemma PositionsFirst()
    ensures forall i :: 0 <= i < 7 ==> Position(ColumnIds[i]) == i
  {
  }

  lemma PositionsSecond()
    ensures forall i :: 7 <= i < 14 ==> Position(ColumnIds[i]) == i
  {
  }

  lemma PositionsThird()
    ensures forall i :: 14 <= i < 21 ==> Position(ColumnIds[i]) == i
  {
  }

  lemma PositionsFourth()
    ensures forall i :: 21 <= i < 28 ==> Position(ColumnIds[i]) == i
  {
  }


  /** The ids of the listed columns are the declared ids without the pinned
      two, in declaration order. */
  lemma AllColumnsIds(cols: seq<string>, vis: Visibility)
    ensures Ids(AllColumns(cols, vis)) == ListedIds(cols)
  {
    MapLeftInverse(InfoOf(vis), IdOf, ListedIds(cols));
  }

  /** The ids of the selected columns are the visible listed ids, in
      declaration order. */
  lemma SelectedIds(cols: seq<string>, vis: Visibility)
    ensures Ids(SelectedColumns(cols, vis)) == Filter(VisibleIn(vis), ListedIds(cols))
  {
    FilterMapCommute(InfoOf(vis), Shown, VisibleIn(vis), ListedIds(cols));
    MapLeftInverse(InfoOf(vis), IdOf, Filter(VisibleIn(vis), ListedIds(cols)));
  }

  /** The selector lists every declared column except `preview` and
      `actions`, in declaration order, and each once when no column is
      declared twice. */
  lemma ListedIdsSpec(cols: seq<string>)
    ensures forall id :: id in ListedIds(cols) <==> Resettable(cols, id)
    ensures IsSubsequence(ListedIds(cols), cols)
    ensures NoDup(cols) ==> NoDup(ListedIds(cols))
  {
    if NoDup(cols) {
      FilterNoDup(Unpinned, cols);
    }
    FilterIsSubsequence(Unpinned, cols);
    FilterMembers(Unpinned, cols);
  }

  /** A column is selected exactly when it is listed and visible. */
  lemma SelectedMembers(cols: seq<string>, vis: Visibility)
    ensures forall id :: id in Ids(SelectedColumns(cols, vis)) <==> Resettable(cols, id) && IsVisible(vis, id)
  {
    SelectedIds(cols, vis);
    ListedIdsSpec(cols);
    FilterMembers(VisibleIn(vis), ListedIds(cols));
  }

  /** The selected list is the visible part of the listed columns in the same
      order: a column is selected exactly when it is listed and visible. */
  lemma SelectedColumnsAreVisibleOnes(cols: seq<string>, vis: Visibility)
    ensures IsSubsequence(SelectedColumns(cols, vis), AllColumns(cols, vis))
    ensures forall id :: id in Ids(SelectedColumns(cols, vis)) <==> Resettable(cols, id) && IsVisible(vis, id)
    ensures NoDup(cols) ==> NoDup(Ids(SelectedColumns(cols, vis)))
  {
    FilterIsSubsequence(Shown, AllColumns(cols, vis));
    SelectedMembers(cols, vis);
    if NoDup(cols) {
      SelectedIds(cols, vis);
      ListedIdsSpec(cols);
      FilterNoDup(VisibleIn(vis), ListedIds(cols));
    }
  }

  /** An empty search term lists every column. */
  lemma EmptySearchMatchesAll(cols: seq<string>, vis: Visibility)
    ensures FilteredColumns(cols, vis, "") == AllColumns(cols, vis)
  {
    forall c | c in AllColumns(cols, vis) ensures Matches("")(c) {
      assert OccursAt(ToLower(c.title), ToLower(""), 0);
    }
    FilterKeepsAll(Matches(""), AllColumns(cols, vis));
  }

  /** Two terms that differ only in ASCII letter case list the same columns,
      e.g. "roi" and "ROI". */
  lemma SearchIgnoresCase(cols: seq<string>, vis: Visibility, a: string, b: string)
    requires ToLower(a) == ToLower(b)
    ensures FilteredColumns(cols, vis, a) == FilteredColumns(cols, vis, b)
  {
    FilterAgree(Matches(a), Matches(b), AllColumns(cols, vis));
  }

  lemma ContainsPrefix(s: string, a: string, b: string)
    requires Contains(s, a + b)
    ensures Contains(s, a)
  {
    var i: nat :| i <= |s| && OccursAt(s, a + b, i);
    assert s[i..i + |a|] == (a + b)[..|a|] == a;
    assert OccursAt(s, a, i);
  }

  /** Typing more of a term never brings a column back: the columns listed
      for `a + b` are a subsequence of those listed for `a`. */
  lemma SearchNarrows(cols: seq<string>, vis: Visibility, a: string, b: string)
    ensures IsSubsequence(FilteredColumns(cols, vis, a + b), FilteredColumns(cols, vis, a))
  {
    assert ToLower(a + b) == ToLower(a) + ToLower(b);
    forall c | c in AllColumns(cols, vis) && Matches(a + b)(c) ensures Matches(a)(c) {
      ContainsPrefix(ToLower(c.title), ToLower(a), ToLower(b));
    }
    FilterStrengthen(Matches(a), Matches(a + b), AllColumns(cols, vis));
  }

  /** Switching one column's visibility changes the selected list for that
      column alone. */
  lemma SetVisibilitySelects(cols: seq<string>, vis: Visibility, id: string, visible: bool)
    ensures forall c :: c in Ids(SelectedColumns(cols, vis[id := visible])) <==>
      if c == id then visible && Resettable(cols, id) else c in Ids(SelectedColumns(cols, vis))
  {
    var after := vis[id := visible];
    SelectedMembers(cols, vis);
    SelectedMembers(cols, after);
    assert IsVisible(after, id) == visible;
    forall c | c != id ensures IsVisible(after, c) == IsVisible(vis, c) {
    }
  }

  /** The selector's drag: the pinned pair comes first, the moved column
      lands at the (clamped) destination, and the rest is a permutation of
      the selected ids. */
  lemma SelectorOrderSpec(cols: seq<string>, vis: Visibility, src: nat, dst: nat)
    requires src < |SelectedColumns(cols, vis)|
    ensures var r := SelectorOrder(cols, vis, src, dst);
            var sel := Ids(SelectedColumns(cols, vis));
            && |r| == |sel| + 2
            && r[..2] == SelectorPinned
            && r[2 + Min(dst, |sel| - 1)] == sel[src]
            && multiset(r[2..]) == multiset(sel)
  {
    var items := SelectedColumns(cols, vis);
    MapMove(IdOf, items, src, dst);
    assert SelectorOrder(cols, vis, src, dst)[2..] == Move(Ids(items), src, dst);
  }

  /** After the selector's drag the order holds exactly the pinned pair and
      the visible listed columns, so hidden columns leave it. */
  lemma SelectorOrderMembers(cols: seq<string>, vis: Visibility, src: nat, dst: nat)
    requires src < |SelectedColumns(cols, vis)|
    ensures forall id :: id in SelectorOrder(cols, vis, src, dst) <==>
              IsSelectorPinned(id) || (Resettable(cols, id) && IsVisible(vis, id))
  {
    var items := SelectedColumns(cols, vis);
    var sel := Ids(items);
    MapMove(IdOf, items, src, dst);
    var rest := Move(sel, src, dst);
    var r := SelectorOrder(cols, vis, src, dst);
    assert r == SelectorPinned + rest;
    SelectedMembers(cols, vis);
    SameMembers(sel, rest);
    SelectorPinnedMembers();
    forall id ensures id in r <==> IsSelectorPinned(id) || (Resettable(cols, id) && IsVisible(vis, id)) {
      assert id in r <==> id in SelectorPinned || id in rest;
      assert id in rest <==> id in sel;
    }
  }

  /** When no column is declared twice, the selector's drag names no column
      twice. */
  lemma SelectorOrderNoDup(cols: seq<string>, vis: Visibility, src: nat, dst: nat)
    requires src < |SelectedColumns(cols, vis)| && NoDup(cols)
    ensures var r := SelectorOrder(cols, vis, src, dst);
            |r| >= 2 && r[..2] == SelectorPinned && NoDup(r)
  {
    var items := SelectedColumns(cols, vis);
    var sel := Ids(items);
    MapMove(IdOf, items, src, dst);
    var rest := Move(sel, src, dst);
    assert SelectorOrder(cols, vis, src, dst) == SelectorPinned + rest;
    SelectedNoDup(cols, vis);
    PermutationNoDup(sel, rest);
    SelectedMembers(cols, vis);
    SameMembers(sel, rest);
    SelectorPinnedMembers();
    forall x | x in SelectorPinned ensures x !in rest {
      assert IsSelectorPinned(x);
      assert x in rest ==> x in sel;
      assert x in sel ==> !IsSelectorPinned(x);
    }
    NoDupConcat(SelectorPinned, rest);
  }

  lemma SelectedNoDup(cols: seq<string>, vis: Visibility)
    requires NoDup(cols)
    ensures NoDup(Ids(SelectedColumns(cols, vis)))
  {
    SelectedIds(cols, vis);
    FilterNoDup(Unpinned, cols);
    FilterNoDup(VisibleIn(vis), ListedIds(cols));
  }

  lemma SelectorPinnedMembers()
    ensures forall id :: id in SelectorPinned <==> IsSelectorPinned(id)
    ensures NoDup(SelectorPinned)
  {
  }

  /** The table's drag: the seven pinned ids come first, in their fixed
      order, and then exactly the other ids of the order, in the order the
      move left them. */
  lemma TableDragOrderSpec(order: seq<string>, src: nat, dst: nat)
    requires src < |order|
    ensures var r := TableDragOrder(order, src, dst);
            && |r| >= 7 && r[..7] == TablePinned
            && IsSubsequence(r[7..], Move(order, src, dst))
            && forall id :: id in r[7..] <==> id in order && id !in TablePinned
  {
    var moved := Move(order, src, dst);
    PinnedFirstSpec(TablePinned, moved);
    SameMembers(order, moved);
  }

  lemma TablePinnedDistinct()
    ensures NoDup(TablePinned)
  {
  }

  /** The table's drag names no column twice when the order did not. */
  lemma TableDragOrderNoDup(order: seq<string>, src: nat, dst: nat)
    requires src < |order| && NoDup(order)
    ensures NoDup(TableDragOrder(order, src, dst))
  {
    var moved := Move(order, src, dst);
    PermutationNoDup(order, moved);
    TablePinnedDistinct();
    PinnedFirstNoDup(TablePinned, moved);
  }

  /** A duplicate-free order that holds the seven pinned ids keeps exactly
      its ids through the table's drag. */
  lemma TableDragOrderPermutation(order: seq<string>, src: nat, dst: nat)
    requires src < |order| && NoDup(order)
    requires forall i :: 0 <= i < |TablePinned| ==> TablePinned[i] in order
    ensures multiset(TableDragOrder(order, src, dst)) == multiset(order)
  {
    var moved := Move(order, src, dst);
    TablePinnedDistinct();
    PermutationNoDup(order, moved);
    SameMembers(order, moved);
    PinnedFirstPermutation(TablePinned, moved);
  }

  lemma {:induction false} ResetPrefixSpec(cols: seq<string>, vis: Visibility, n: nat)
    requires n <= |cols|
    ensures forall id :: id in cols[..n] && !IsSelectorPinned(id) ==>
              id in ResetPrefix(cols, vis, n) && !ResetPrefix(cols, vis, n)[id]
    ensures forall id :: !(id in cols[..n] && !IsSelectorPinned(id)) ==>
              (id in ResetPrefix(cols, vis, n) <==> id in vis)
              && (id in vis ==> ResetPrefix(cols, vis, n)[id] == vis[id])
  {
    if n > 0 {
      ResetPrefixSpec(cols, vis, n - 1);
      assert cols[..n] == cols[..n - 1] + [cols[n - 1]];
    }
  }

  /** Reset hides every declared column except `preview` and `actions` and
      leaves every other entry (those two included) as it was. */
  lemma ResetHidesAllButPinned(cols: seq<string>, vis: Visibility)
    ensures forall id :: Resettable(cols, id) ==>
              id in ResetVisibility(cols, vis) && !ResetVisibility(cols, vis)[id]
    ensures forall id :: !Resettable(cols, id) ==>
              (id in ResetVisibility(cols, vis) <==> id in vis)
              && (id in vis ==> ResetVisibility(cols, vis)[id] == vis[id])
  {
    ResetPrefixSpec(cols, vis, |cols|);
    assert cols[..|cols|] == cols;
  }

  /** After a reset the selection is empty. */
  lemma ResetEmptiesSelection(cols: seq<string>, vis: Visibility)
    ensures SelectedColumns(cols, ResetVisibility(cols, vis)) == []
  {
    var r := ResetVisibility(cols, vis);
    ResetHidesAllButPinned(cols, vis);
    ListedIdsSpec(cols);
    FilterKeepsNone(VisibleIn(r), ListedIds(cols));
    SelectedIds(cols, r);
    assert |Ids(SelectedColumns(cols, r))| == 0;
  }

  /** Pressing reset a second time changes nothing. */
  lemma ResetIdempotent(cols: seq<string>, vis: Visibility)
    ensures ResetVisibility(cols, ResetVisibility(cols, vis)) == ResetVisibility(cols, vis)
  {
    var r := ResetVisibility(cols, vis);
    ResetHidesAllButPinned(cols, vis);
    ResetHidesAllButPinned(cols, r);
    var rr := ResetVisibility(cols, r);
    assert forall id :: id in rr <==> id in r;
    assert forall id :: id in rr ==> rr[id] == r[id];
  }
}
