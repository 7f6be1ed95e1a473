/**
 * The filter half of `update_tables_and_progress`: the three dropdown
 * selections narrow the info, calendar and history tables, pick the
 * progress rows of the selected bills, and recompute the bill-number
 * dropdown from the title and relevancy selections.  `reset_filters`
 * clears all three dropdowns.
 */
module FilterEngine {
  import opened Wrappers
  import opened Sequences
  import opened Tables

  /** The values of the bill-number, title and relevancy dropdowns; `None` is an unset dropdown. */
  datatype Selection = Selection(
    billNumbers: Option<seq<string>>, titles: Option<seq<string>>, relevancies: Option<seq<string>>)

  /** Python truthiness of a dropdown value: both `None` and `[]` impose no constraint. */
  predicate Active(sel: Option<seq<string>>)
  {
    sel.Some? && |sel.value| > 0
  }

  /** The columns a dropdown filters on. */
  datatype Column = BillNumber | Title | Relevant

  function Cell<C>(r: Row<C>, c: Column): Option<string>
  {
    match c
    case BillNumber => Some(r.billNumber)
    case Title => Some(r.title)
    case Relevant => r.relevant
  }

  /** `Series.isin(values)` on one cell; a NaN cell matches no selected string. */
  predicate IsIn(cell: Option<string>, values: seq<string>)
  {
    cell.Some? && cell.value in values
  }

  /** `if sel: rows = rows[rows[c].isin(sel)]`. */
  function Narrow<C(!new)>(rows: seq<Row<C>>, c: Column, sel: Option<seq<string>>): seq<Row<C>>
  {
    if Active(sel) then Filter(rows, (r: Row<C>) => IsIn(Cell(r, c), sel.value)) else rows
  }

  /** A row satisfies one dimension of a selection: the dropdown is unset, or holds the row's cell. */
  predicate Admits<C>(r: Row<C>, c: Column, sel: Option<seq<string>>)
  {
    !Active(sel) || IsIn(Cell(r, c), sel.value)
  }

  /** A row satisfies every dimension of the selection. */
  predicate Passes<C>(r: Row<C>, s: Selection)
  {
    Admits(r, BillNumber, s.billNumbers) && Admits(r, Title, s.titles) && Admits(r, Relevant, s.relevancies)
  }

  /** The bill-number, title and relevancy passes, applied in that order to a fresh copy of a full table. */
  function ThreePasses<C(!new)>(rows: seq<Row<C>>, s: Selection): seq<Row<C>>
  {
    Narrow(Narrow(Narrow(rows, BillNumber, s.billNumbers), Title, s.titles), Relevant, s.relevancies)
  }

  /** One pass keeps exactly the rows the dimension admits (`keep` is that test as a mask). */
  lemma NarrowKeepsAdmitted<C(!new)>(
    rows: seq<Row<C>>, c: Column, sel: Option<seq<string>>, keep: Row<C> -> bool)
    requires forall r :: keep(r) == Admits(r, c, sel)
    ensures Narrow(rows, c, sel) == Filter(rows, keep)
  {
    if Active(sel) {
      FilterCongruent(rows, (r: Row<C>) => IsIn(Cell(r, c), sel.value), keep);
    } else {
      FilterKeepsAll(rows, keep);
    }
  }

  /** The chained passes are a single pass with the conjunction of the three dimensions. */
  lemma ThreePassesIsConjunction<C(!new)>(rows: seq<Row<C>>, s: Selection)
    ensures ThreePasses(rows, s) == Filter(rows, (r: Row<C>) => Passes(r, s))
  {
    var bill := (r: Row<C>) => Admits(r, BillNumber, s.billNumbers);
    var title := (r: Row<C>) => Admits(r, Title, s.titles);
    var relevant := (r: Row<C>) => Admits(r, Relevant, s.relevancies);
    var billAndTitle := (r: Row<C>) => Admits(r, BillNumber, s.billNumbers) && Admits(r, Title, s.titles);
    var one := Narrow(rows, BillNumber, s.billNumbers);
    var two := Narrow(one, Title, s.titles);
    NarrowKeepsAdmitted(rows, BillNumber, s.billNumbers, bill);
    NarrowKeepsAdmitted(one, Title, s.titles, title);
    FilterFuse(rows, bill, title, billAndTitle);
    NarrowKeepsAdmitted(two, Relevant, s.relevancies, relevant);
    FilterFuse(rows, billAndTitle, relevant, (r: Row<C>) => Passes(r, s));
  }

  /**
   * A view is the order-preserving subsequence of its full table made of the rows
   * that satisfy every set dimension; each such row keeps its multiplicity.
   */
  lemma ThreePassesSelectsPassingRows<C(!new)>(rows: seq<Row<C>>, s: Selection)
    ensures forall r :: r in ThreePasses(rows, s) <==> r in rows && Passes(r, s)
    ensures forall r :: multiset(ThreePasses(rows, s))[r] == if Passes(r, s) then multiset(rows)[r] else 0
    ensures Subsequence(ThreePasses(rows, s), rows)
  {
    ThreePassesIsConjunction(rows, s);
    FilterCounts(rows, (r: Row<C>) => Passes(r, s));
    FilterIsSubsequence(rows, (r: Row<C>) => Passes(r, s));
  }

  /** With no dropdown set, the passes leave the table as it is. */
  lemma UnsetSelectionKeepsTable<C(!new)>(rows: seq<Row<C>>, s: Selection)
    requires !Active(s.billNumbers) && !Active(s.titles) && !Active(s.relevancies)
    ensures ThreePasses(rows, s) == rows
  {
  }

  /** Selecting only bill numbers that occur in no row empties the view; it is not an error. */
  lemma UnknownBillNumbersSelectNothing<C(!new)>(rows: seq<Row<C>>, s: Selection)
    requires Active(s.billNumbers)
    requires forall r :: r in rows ==> r.billNumber !in s.billNumbers.value
    ensures ThreePasses(rows, s) == []
  {
    ThreePassesSelectsPassingRows(rows, s);
    var v := ThreePasses(rows, s);
    assert forall i :: 0 <= i < |v| ==> v[i] in v && !Passes(v[i], s);
  }

  // Info table

  /** The markdown a `source` cell is rendered as: a link, or nothing for NaN. */
  function Hyperlink(source: Option<string>): string
  {
    match source
    case None => ""
    case Some(url) => "[link](" + url + ")"
  }

  /** Rendering loses nothing: distinct sources (NaN included) render distinctly. */
  lemma HyperlinkIsInjective(a: Option<string>, b: Option<string>)
    requires Hyperlink(a) == Hyperlink(b)
    ensures a == b
  {
    var h := Hyperlink(a);
    assert a.Some? ==> |h| >= 8 && a.value == h[7..|h| - 1];
    assert b.Some? ==> |h| >= 8 && b.value == h[7..|h| - 1];
  }

  /** One info row with its `source` cell rendered. */
  function WithLink(r: InfoRow): InfoRow
  {
    r.(columns := r.columns.(source := Some(Hyperlink(r.columns.source))))
  }

  /** `dff_info['source'] = dff_info['source'].apply(...)` on the filtered info table. */
  function LinkSources(rows: seq<InfoRow>): (r: seq<InfoRow>)
    ensures |r| == |rows|
    ensures forall i :: 0 <= i < |r| ==> r[i].columns.source == Some(Hyperlink(rows[i].columns.source))
    ensures forall i :: 0 <= i < |r| ==> r[i].(columns := rows[i].columns) == rows[i]
    ensures forall i :: 0 <= i < |r| ==> r[i].columns.(source := rows[i].columns.source) == rows[i].columns
  {
    seq(|rows|, i requires 0 <= i < |rows| => WithLink(rows[i]))
  }

  /** The info table shown: the three passes, then the rendered `source` column. */
  function InfoView(info: seq<InfoRow>, s: Selection): seq<InfoRow>
  {
    LinkSources(ThreePasses(info, s))
  }

  function CalendarView(calendar: seq<CalendarRow>, s: Selection): seq<CalendarRow>
  {
    ThreePasses(calendar, s)
  }

  function HistoryView(history: seq<HistoryRow>, s: Selection): seq<HistoryRow>
  {
    ThreePasses(history, s)
  }

  // Progress rows

  /** The progress rows behind the timeline: a bill-number pass only, and nothing at all without a bill. */
  function ProgressView(progress: seq<ProgressRow>, s: Selection): seq<ProgressRow>
  {
    if Active(s.billNumbers) then Narrow(progress, BillNumber, s.billNumbers) else []
  }

  /**
   * Without a bill there are no progress rows; with bills, the progress rows are the
   * table's rows whose bill number is selected, each with its multiplicity, in table order.
   */
  lemma ProgressViewSelectsBills(progress: seq<ProgressRow>, s: Selection)
    ensures !Active(s.billNumbers) ==> ProgressView(progress, s) == []
    ensures Active(s.billNumbers) ==>
      ProgressView(progress, s) == Filter(progress, (r: ProgressRow) => r.billNumber in s.billNumbers.value)
    ensures Active(s.billNumbers) ==>
      forall r :: r in ProgressView(progress, s) <==> r in progress && r.billNumber in s.billNumbers.value
    ensures Active(s.billNumbers) ==> forall r :: multiset(ProgressView(progress, s))[r] ==
                                                  (if r.billNumber in s.billNumbers.value then multiset(progress)[r] else 0)
    ensures Subsequence(ProgressView(progress, s), progress)
  {
    if Active(s.billNumbers) {
      var selected := (r: ProgressRow) => r.billNumber in s.billNumbers.value;
      NarrowKeepsAdmitted(progress, BillNumber, s.billNumbers, selected);
      FilterCounts(progress, selected);
      FilterIsSubsequence(progress, selected);
    }
  }

  /** The title and relevancy dropdowns never affect the progress rows. */
  lemma ProgressViewIgnoresTitlesAndRelevancies(progress: seq<ProgressRow>, s: Selection, t: Selection)
    requires s.billNumbers == t.billNumbers
    ensures ProgressView(progress, s) == ProgressView(progress, t)
  {
  }

  // Bill-number dropdown

  /** The `bill_number` column of a table. */
  function BillNumberColumn<C>(rows: seq<Row<C>>): (col: seq<string>)
    ensures |col| == |rows|
    ensures forall i :: 0 <= i < |rows| ==> col[i] == rows[i].billNumber
  {
    seq(|rows|, i requires 0 <= i < |rows| => rows[i].billNumber)
  }

  /** The info rows the title and relevancy dropdowns admit; the bill-number dropdown plays no part. */
  function TitleAndRelevancyView(info: seq<InfoRow>, s: Selection): seq<InfoRow>
  {
    ThreePasses(info, Selection(None, s.titles, s.relevancies))
  }

  /** The bill numbers offered in the bill-number dropdown (`dff_filtered['bill_number'].unique()`). */
  function OfferedBillNumbers(info: seq<InfoRow>, s: Selection): seq<string>
  {
    Unique(BillNumberColumn(TitleAndRelevancyView(info, s)))
  }

  lemma OfferedBillNumbersSpec(info: seq<InfoRow>, s: Selection)
    ensures NoDuplicates(OfferedBillNumbers(info, s))
    ensures forall b :: b in OfferedBillNumbers(info, s) <==>
      exists r :: r in info && r.billNumber == b && Admits(r, Title, s.titles) && Admits(r, Relevant, s.relevancies)
    ensures forall b :: b in OfferedBillNumbers(info, s) ==> b in BillNumberColumn(TitleAndRelevancyView(info, s))
    ensures forall i, j :: 0 <= i < j < |OfferedBillNumbers(info, s)| ==>
      FirstIndex(BillNumberColumn(TitleAndRelevancyView(info, s)), OfferedBillNumbers(info, s)[i])
        < FirstIndex(BillNumberColumn(TitleAndRelevancyView(info, s)), OfferedBillNumbers(info, s)[j])
  {
    var t := Selection(None, s.titles, s.relevancies);
    var view := TitleAndRelevancyView(info, s);
    var col := BillNumberColumn(view);
    ThreePassesSelectsPassingRows(info, t);
    UniqueInFirstAppearanceOrder(col);
    forall b
      ensures b in OfferedBillNumbers(info, s) <==>
        exists r :: r in info && r.billNumber == b && Admits(r, Title, s.titles) && Admits(r, Relevant, s.relevancies)
    {
      if b in col {
        var i :| 0 <= i < |col| && col[i] == b;
        assert view[i] in view;
      }
      if exists r :: r in info && r.billNumber == b && Admits(r, Title, s.titles) && Admits(r, Relevant, s.relevancies) {
        var r :| r in info && r.billNumber == b && Admits(r, Title, s.titles) && Admits(r, Relevant, s.relevancies);
        assert Passes(r, t);
        var i :| 0 <= i < |view| && view[i] == r;
        assert col[i] == b;
      }
    }
  }

  /** Changing which bill numbers are checked never changes which are offered. */
  lemma OfferedIgnoresBillNumbers(info: seq<InfoRow>, s: Selection, bills: Option<seq<string>>)
    ensures OfferedBillNumbers(info, s.(billNumbers := bills)) == OfferedBillNumbers(info, s)
  {
  }

  /** One entry of the dropdown: `{'label': num, 'value': num}`; `label` is a Dafny keyword, hence `display`. */
  datatype Choice = Choice(display: string, value: string)

  function Choices(values: seq<string>): (c: seq<Choice>)
    ensures |c| == |values|
    ensures forall k :: 0 <= k < |values| ==> c[k].display == values[k] && c[k].value == values[k]
  {
    seq(|values|, k requires 0 <= k < |values| => Choice(values[k], values[k]))
  }

  // Reset button

  /** `reset_filters`: every dropdown back to unset, whatever the click count. */
  function ResetFilters(nClicks: int): (s: Selection)
    ensures !Active(s.billNumbers) && !Active(s.titles) && !Active(s.relevancies)
  {
    Selection(None, None, None)
  }

  /** After a reset every table is shown in full, no progress row is picked, and every bill is offered. */
  lemma ResetShowsEverything(d: Dataset, nClicks: int)
    ensures InfoView(d.info, ResetFilters(nClicks)) == LinkSources(d.info)
    ensures CalendarView(d.calendar, ResetFilters(nClicks)) == d.calendar
    ensures HistoryView(d.history, ResetFilters(nClicks)) == d.history
    ensures ProgressView(d.progress, ResetFilters(nClicks)) == []
    ensures OfferedBillNumbers(d.info, ResetFilters(nClicks)) == Unique(BillNumberColumn(d.info))
  {
    var s := ResetFilters(nClicks);
    UnsetSelectionKeepsTable(d.info, s);
    UnsetSelectionKeepsTable(d.calendar, s);
    UnsetSelectionKeepsTable(d.history, s);
    UnsetSelectionKeepsTable(d.info, Selection(None, s.titles, s.relevancies));
  }
}
