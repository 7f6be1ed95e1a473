/**
 * `update_tables_and_progress`, the callback that runs on every dropdown
 * change: it recomputes the three tables, the timeline figure and the
 * bill-number options from the full tables and the current selection.
 */
module Dashboard {
  import opened Wrappers
  import opened Sequences
  import opened Tables
  import opened FilterEngine
  import opened Timeline

  /** The callback's five outputs, in the order it returns them. */
  datatype CallbackOutputs = CallbackOutputs(
    info: seq<InfoRow>, calendar: seq<CalendarRow>, history: seq<HistoryRow>,
    figure: FigureSpec, billNumberOptions: seq<Choice>)

  /** `dff_info['source'] = dff_info['source'].apply(...)`, cell by cell on the local copy. */
  method LinkSourceColumn(frame: array<InfoRow>)
    modifies frame
    ensures frame[..] == LinkSources(old(frame[..]))
  {
    var k := 0;
    while k < frame.Length
      invariant 0 <= k <= frame.Length
      invariant forall j :: 0 <= j < k ==> frame[j] == WithLink(old(frame[j]))
      invariant forall j :: k <= j < frame.Length ==> frame[j] == old(frame[j])
    {
      frame[k] := WithLink(frame[k]);
      k := k + 1;
    }
  }

  /** A figure that gets only a title: `go.Figure()` followed by `update_layout(title=...)`. */
  method TitledFigure(title: string) returns (fig: FigureSpec)
    ensures fig.title == title && fig.shapes == [] && fig.traces == []
  {
    var figure := new Figure();
    figure.UpdateLayout(title);
    fig := figure.Spec();
  }

  /**
   * `update_tables_and_progress(bill_numbers, titles, relevancies)`.  `parse` stands
   * for `pd.to_datetime(..., yearfirst=True, errors='coerce')` on one date string and
   * `palette` for `px.colors.qualitative.Plotly`.
   */
  method UpdateTablesAndProgress(
    d: Dataset, s: Selection, parse: string -> Option<int>, palette: seq<string>)
    returns (out: CallbackOutputs)
    requires |palette| > 0
    ensures out.info == InfoView(d.info, s)
    ensures out.calendar == CalendarView(d.calendar, s)
    ensures out.history == HistoryView(d.history, s)
    ensures out.billNumberOptions == Choices(OfferedBillNumbers(d.info, s))
    ensures !Active(s.billNumbers) ==> out.figure == FigureSpec("Progress Timeline", [], [])
    ensures Active(s.billNumbers) && ProgressView(d.progress, s) != [] ==>
      IsTimeline(out.figure, ProgressView(d.progress, s), s.billNumbers.value, parse, palette)
    ensures Active(s.billNumbers) && ProgressView(d.progress, s) == [] ==>
      out.figure == FigureSpec("Bill Progress", [], [])
  {
    // Info table: the three passes, then the source column rewritten in place.
    var passed := ThreePasses(d.info, s);
    var frame := new InfoRow[|passed|](j requires 0 <= j < |passed| => passed[j]);
    assert frame[..] == passed;
    LinkSourceColumn(frame);
    var info := frame[..];

    var calendar := ThreePasses(d.calendar, s);
    var history := ThreePasses(d.history, s);
    var progress := ProgressView(d.progress, s);
    var options := Choices(OfferedBillNumbers(d.info, s));

    var fig: FigureSpec;
    if !Active(s.billNumbers) {
      fig := TitledFigure("Progress Timeline");
    } else if progress != [] {
      fig := BuildTimeline(progress, s.billNumbers.value, parse, palette);
    } else {
      fig := TitledFigure("Bill Progress");
    }
    out := CallbackOutputs(info, calendar, history, fig, options);
  }
}
