/**
 * The timeline half of `update_tables_and_progress`: the selected bills'
 * progress rows get their dates parsed, are sorted by date (NaT last),
 * receive vertical positions counting down from N - 1, and are coloured
 * by event label; a black baseline spans the dated events at y = 0.
 */
module Timeline {
  import opened Wrappers
  import opened Sequences
  import opened Tables

  /**
   * The two columns of a progress row the figure uses once `pd.to_datetime(..., errors='coerce')`
   * has run: the date as a day number (None for NaT) and the event label.
   */
  datatype Stamp = Stamp(date: Option<int>, event: string)

  /** `dff_progress['date'] = pd.to_datetime(...)`; `parse` stands for pandas' date parser. */
  function ParseDates(view: seq<ProgressRow>, parse: string -> Option<int>): (s: seq<Stamp>)
    ensures |s| == |view|
    ensures forall i :: 0 <= i < |view| ==> s[i] == Stamp(parse(view[i].columns.date), view[i].columns.event)
  {
    seq(|view|, i requires 0 <= i < |view| => Stamp(parse(view[i].columns.date), view[i].columns.event))
  }

  function EventsOf(s: seq<Stamp>): (e: seq<string>)
    ensures |e| == |s|
    ensures forall i :: 0 <= i < |s| ==> e[i] == s[i].event
  {
    seq(|s|, i requires 0 <= i < |s| => s[i].event)
  }

  // Sorting by date

  /** The order of `sort_values('date')`: ascending, with NaT after every date. */
  predicate NotAfter(a: Option<int>, b: Option<int>)
  {
    match a
    case None => b.None?
    case Some(x) => b.None? || x <= b.value
  }

  ghost predicate SortedByDate(s: seq<Stamp>)
  {
    forall i, j :: 0 <= i < j < |s| ==> NotAfter(s[i].date, s[j].date)
  }

  /** A stamp no later than the head of a sorted sequence is no later than any of it. */
  lemma NotAfterHead(x: Stamp, s: seq<Stamp>)
    requires SortedByDate(s) && s != [] && NotAfter(x.date, s[0].date)
    ensures SortedByDate([x] + s)
  {
    forall j | 0 <= j < |s|
      ensures NotAfter(x.date, s[j].date)
    {
      if j > 0 {
        assert NotAfter(s[0].date, s[j].date);
      }
    }
    assert forall j :: 0 < j < |[x] + s| ==> ([x] + s)[j] == s[j - 1];
  }

  /** The head of a sorted sequence is no later than anything inserted behind it. */
  lemma HeadNotAfterRest(s: seq<Stamp>, x: Stamp, rest: seq<Stamp>)
    requires SortedByDate(s) && s != [] && !NotAfter(x.date, s[0].date)
    requires SortedByDate(rest) && multiset(rest) == multiset(s[1..]) + multiset{x}
    ensures SortedByDate([s[0]] + rest)
  {
    forall j | 0 <= j < |rest|
      ensures NotAfter(s[0].date, rest[j].date)
    {
      var y := rest[j];
      assert y in multiset(rest);
      if y != x {
        assert y in multiset(s[1..]);
        assert y in s[1..];
        var k :| 0 <= k < |s[1..]| && s[1..][k] == y;
        assert s[k + 1] == y;
      }
    }
    assert forall j :: 0 < j < |[s[0]] + rest| ==> ([s[0]] + rest)[j] == rest[j - 1];
  }

  /** One step of an insertion sort. */
  function InsertByDate(s: seq<Stamp>, x: Stamp): (r: seq<Stamp>)
    requires SortedByDate(s)
    ensures SortedByDate(r)
    ensures multiset(r) == multiset(s) + multiset{x}
  {
    if s == [] then [x]
    else if NotAfter(x.date, s[0].date) then
      NotAfterHead(x, s);
      [x] + s
    else
      assert s == [s[0]] + s[1..];
      var rest := InsertByDate(s[1..], x);
      HeadNotAfterRest(s, x, rest);
      [s[0]] + rest
  }

  /**
   * `sort_values('date')`.  pandas sorts with an unstable quicksort, so the model
   * promises only a sorted permutation and nothing about the order of equal dates.
   */
  function SortByDate(s: seq<Stamp>): (r: seq<Stamp>)
    ensures SortedByDate(r)
    ensures multiset(r) == multiset(s)
  {
    if s == [] then []
    else
      assert s == [s[0]] + s[1..];
      InsertByDate(SortByDate(s[1..]), s[0])
  }

  // The baseline

  /** `Series.min()` over the parsed dates: NaT is skipped, and an all-NaT column gives NaT. */
  function MinDate(s: seq<Stamp>): (m: Option<int>)
    ensures m.None? <==> forall x :: x in s ==> x.date.None?
    ensures m.Some? ==> exists x :: x in s && x.date == m
    ensures m.Some? ==> forall x :: x in s && x.date.Some? ==> m.value <= x.date.value
  {
    if s == [] then None
    else
      assert s == [s[0]] + s[1..];
      var rest := MinDate(s[1..]);
      match s[0].date
      case None => rest
      case Some(d) => if rest.Some? && rest.value < d then rest else Some(d)
  }

  /** `Series.max()` over the parsed dates, with the same NaT rules. */
  function MaxDate(s: seq<Stamp>): (m: Option<int>)
    ensures m.None? <==> forall x :: x in s ==> x.date.None?
    ensures m.Some? ==> exists x :: x in s && x.date == m
    ensures m.Some? ==> forall x :: x in s && x.date.Some? ==> x.date.value <= m.value
  {
    if s == [] then None
    else
      assert s == [s[0]] + s[1..];
      var rest := MaxDate(s[1..]);
      match s[0].date
      case None => rest
      case Some(d) => if rest.Some? && rest.value > d then rest else Some(d)
  }

  lemma SameMembers(a: seq<Stamp>, b: seq<Stamp>)
    requires multiset(a) == multiset(b)
    ensures forall x :: x in a <==> x in b
  {
    forall x
      ensures x in a <==> x in b
    {
      assert x in a <==> x in multiset(a);
      assert x in b <==> x in multiset(b);
    }
  }

  /** Reordering the rows (the sort) moves neither end of the baseline. */
  lemma EndpointsIgnoreOrder(a: seq<Stamp>, b: seq<Stamp>)
    requires multiset(a) == multiset(b)
    ensures MinDate(a) == MinDate(b) && MaxDate(a) == MaxDate(b)
  {
    SameMembers(a, b);
    MinDateOfSameMembers(a, b);
    MinDateOfSameMembers(b, a);
    MaxDateOfSameMembers(a, b);
    MaxDateOfSameMembers(b, a);
  }

  lemma MinDateOfSameMembers(a: seq<Stamp>, b: seq<Stamp>)
    requires forall x :: x in a <==> x in b
    ensures MinDate(a).Some? ==> MinDate(b).Some? && MinDate(b).value <= MinDate(a).value
  {
    if MinDate(a).Some? {
      var u :| u in a && u.date == MinDate(a);
      assert u in b;
    }
  }

  lemma MaxDateOfSameMembers(a: seq<Stamp>, b: seq<Stamp>)
    requires forall x :: x in a <==> x in b
    ensures MaxDate(a).Some? ==> MaxDate(b).Some? && MaxDate(a).value <= MaxDate(b).value
  {
    if MaxDate(a).Some? {
      var u :| u in a && u.date == MaxDate(a);
      assert u in b;
    }
  }

  /**
   * With at least one parsed date the baseline runs from the earliest to the latest
   * date, covering every dated event; with none, both ends are NaT.
   */
  lemma BaselineSpansDates(s: seq<Stamp>)
    ensures MinDate(s).Some? <==> MaxDate(s).Some?
    ensures (exists x :: x in s && x.date.Some?) <==> MinDate(s).Some?
    ensures MinDate(s).Some? ==> MinDate(s).value <= MaxDate(s).value
    ensures MinDate(s).Some? ==> forall x :: x in s && x.date.Some? ==>
      MinDate(s).value <= x.date.value <= MaxDate(s).value
  {
    if MinDate(s).Some? {
      var u :| u in s && u.date == MinDate(s);
      assert u.date.Some?;
    }
  }

  // Vertical positions

  /** `np.arange(len(dff_progress))[::-1]`. */
  function YPositions(n: nat): seq<int>
  {
    Reverse(Range(n))
  }

  /** The i-th row in date order sits at N - 1 - i, so the positions are 0 .. N - 1, each once. */
  lemma YPositionsCountDown(n: nat)
    ensures |YPositions(n)| == n
    ensures forall i :: 0 <= i < n ==> YPositions(n)[i] == n - 1 - i
    ensures forall v :: v in YPositions(n) <==> 0 <= v < n
    ensures NoDuplicates(YPositions(n))
  {
    var ys := YPositions(n);
    forall v | 0 <= v < n
      ensures v in ys
    {
      assert ys[n - 1 - v] == v;
    }
  }

  // The figure

  /** One marker: its date (NaT is not drawn), vertical position, label text and colour. */
  datatype Point = Point(x: Option<int>, y: int, text: string, colour: string)

  /** A line shape from (x0, y0) to (x1, y1). */
  datatype Line = Line(x0: Option<int>, x1: Option<int>, y0: int, y1: int)

  datatype Trace = Scatter(points: seq<Point>)

  /** What the dashboard shows of a figure: its title, its shapes and its traces. */
  datatype FigureSpec = FigureSpec(title: string, shapes: seq<Line>, traces: seq<Trace>)

  /** The plotly figure object, which the callback builds up call by call. */
  class Figure {
    var title: string
    var shapes: seq<Line>
    var traces: seq<Trace>

    /** `go.Figure()`: no title, no shapes, no traces. */
    constructor ()
      ensures title == "" && shapes == [] && traces == []
    {
      title, shapes, traces := "", [], [];
    }

    /** `fig.add_shape(...)`. */
    method AddShape(line: Line)
      modifies this
      ensures shapes == old(shapes) + [line]
      ensures title == old(title) && traces == old(traces)
    {
      shapes := shapes + [line];
    }

    /** `fig.add_trace(...)`. */
    method AddTrace(trace: Trace)
      modifies this
      ensures traces == old(traces) + [trace]
      ensures title == old(title) && shapes == old(shapes)
    {
      traces := traces + [trace];
    }

    /** `fig.update_layout(title=...)`; the axis and margin settings are not modelled. */
    method UpdateLayout(newTitle: string)
      modifies this
      ensures title == newTitle
      ensures shapes == old(shapes) && traces == old(traces)
    {
      title := newTitle;
    }

    function Spec(): FigureSpec
      reads this
    {
      FigureSpec(title, shapes, traces)
    }
  }

  function StampsOf(p: seq<Point>): (s: seq<Stamp>)
    ensures |s| == |p|
    ensures forall i :: 0 <= i < |p| ==> s[i] == Stamp(p[i].x, p[i].text)
  {
    seq(|p|, i requires 0 <= i < |p| => Stamp(p[i].x, p[i].text))
  }

  function TextsOf(p: seq<Point>): (t: seq<string>)
    ensures |t| == |p|
    ensures forall i :: 0 <= i < |p| ==> t[i] == p[i].text
  {
    seq(|p|, i requires 0 <= i < |p| => p[i].text)
  }

  /** The markers are the parsed rows in date order, at heights N - 1 down to 0. */
  ghost predicate PlacedInDateOrder(p: seq<Point>, stamps: seq<Stamp>)
  {
    && SortedByDate(StampsOf(p))
    && multiset(StampsOf(p)) == multiset(stamps)
    && forall i :: 0 <= i < |p| ==> p[i].y == |p| - 1 - i
  }

  /** The k-th distinct label, in first-appearance order of the markers, has colour `palette[k % |palette|]`. */
  ghost predicate ColouredByFirstAppearance(p: seq<Point>, palette: seq<string>)
    requires |palette| > 0
  {
    var labels := Unique(TextsOf(p));
    forall k, i :: 0 <= k < |labels| && 0 <= i < |p| && p[i].text == labels[k] ==>
      p[i].colour == palette[k % |palette|]
  }

  /** Equal labels get equal colours, and every colour comes from the palette. */
  lemma ColoursFollowLabels(p: seq<Point>, palette: seq<string>)
    requires |palette| > 0 && ColouredByFirstAppearance(p, palette)
    ensures forall i, j :: 0 <= i < |p| && 0 <= j < |p| && p[i].text == p[j].text ==> p[i].colour == p[j].colour
    ensures forall i :: 0 <= i < |p| ==> p[i].colour in palette
  {
    var labels := Unique(TextsOf(p));
    forall i | 0 <= i < |p|
      ensures exists k :: 0 <= k < |labels| && labels[k] == p[i].text
    {
      assert TextsOf(p)[i] == p[i].text;
      assert p[i].text in labels;
    }
  }

  /** The figure of the timeline branch, for the progress rows `view` of the selected bills. */
  ghost predicate IsTimeline(
    fig: FigureSpec, view: seq<ProgressRow>, bills: seq<string>,
    parse: string -> Option<int>, palette: seq<string>)
    requires |palette| > 0
  {
    var stamps := ParseDates(view, parse);
    && fig.title == (if |bills| > 0 then "Progress Timeline for " + Join(", ", bills) else "Progress Timeline")
    && fig.shapes == [Line(MinDate(stamps), MaxDate(stamps), 0, 0)]
    && |fig.traces| == 1
    && PlacedInDateOrder(fig.traces[0].points, stamps)
    && ColouredByFirstAppearance(fig.traces[0].points, palette)
  }

  /** `{event: color_palette[i % len(color_palette)] for i, event in enumerate(unique_events)}`. */
  method ColourMap(uniqueEvents: seq<string>, palette: seq<string>) returns (m: map<string, string>)
    requires |palette| > 0 && NoDuplicates(uniqueEvents)
    ensures forall e :: e in m <==> e in uniqueEvents
    ensures forall k :: 0 <= k < |uniqueEvents| ==> m[uniqueEvents[k]] == palette[k % |palette|]
  {
    m := map[];
    var k := 0;
    while k < |uniqueEvents|
      invariant 0 <= k <= |uniqueEvents|
      invariant forall e :: e in m <==> e in uniqueEvents[..k]
      invariant forall j :: 0 <= j < k ==> m[uniqueEvents[j]] == palette[j % |palette|]
    {
      m := m[uniqueEvents[k] := palette[k % |palette|]];
      k := k + 1;
    }
    assert uniqueEvents[..k] == uniqueEvents;
  }

  /** `[color_map[event] for event in dff_progress['event']]`. */
  method MarkerColours(events: seq<string>, colourMap: map<string, string>) returns (colours: seq<string>)
    requires forall e :: e in events ==> e in colourMap
    ensures |colours| == |events|
    ensures forall j :: 0 <= j < |events| ==> colours[j] == colourMap[events[j]]
  {
    colours := [];
    var i := 0;
    while i < |events|
      invariant 0 <= i <= |events|
      invariant |colours| == i
      invariant forall j :: 0 <= j < i ==> colours[j] == colourMap[events[j]]
    {
      colours := colours + [colourMap[events[i]]];
      i := i + 1;
    }
  }

  /** Markers coloured through a map that gives the k-th distinct label the k-th palette colour. */
  lemma ColouredThroughMap(p: seq<Point>, colourMap: map<string, string>, palette: seq<string>)
    requires |palette| > 0
    requires forall k :: 0 <= k < |Unique(TextsOf(p))| ==>
      Unique(TextsOf(p))[k] in colourMap && colourMap[Unique(TextsOf(p))[k]] == palette[k % |palette|]
    requires forall i :: 0 <= i < |p| ==> p[i].text in colourMap && p[i].colour == colourMap[p[i].text]
    ensures ColouredByFirstAppearance(p, palette)
  {
  }

  /**
   * What a timeline figure promises of its markers: one per progress row, earlier
   * dates (NaT last) further up, heights exactly 0 .. N - 1, colours by label.
   */
  lemma TimelineMarkers(
    fig: FigureSpec, view: seq<ProgressRow>, bills: seq<string>,
    parse: string -> Option<int>, palette: seq<string>)
    requires |palette| > 0 && IsTimeline(fig, view, bills, parse, palette)
    ensures |fig.traces[0].points| == |view|
    ensures forall i, j :: 0 <= i < j < |fig.traces[0].points| ==>
      (NotAfter(fig.traces[0].points[i].x, fig.traces[0].points[j].x) &&
       fig.traces[0].points[i].y > fig.traces[0].points[j].y)
    ensures forall i :: 0 <= i < |fig.traces[0].points| ==> 0 <= fig.traces[0].points[i].y < |view|
    ensures |view| > 0 ==>
      fig.traces[0].points[0].y == |view| - 1 && fig.traces[0].points[|view| - 1].y == 0
    ensures forall i, j ::
      (0 <= i < |fig.traces[0].points| && 0 <= j < |fig.traces[0].points| &&
       fig.traces[0].points[i].text == fig.traces[0].points[j].text) ==>
      fig.traces[0].points[i].colour == fig.traces[0].points[j].colour
    ensures forall i :: 0 <= i < |fig.traces[0].points| ==> fig.traces[0].points[i].colour in palette
  {
    var p := fig.traces[0].points;
    var stamps := ParseDates(view, parse);
    assert |StampsOf(p)| == |multiset(StampsOf(p))| == |multiset(stamps)| == |stamps|;
    forall i, j | 0 <= i < j < |p|
      ensures NotAfter(p[i].x, p[j].x)
    {
      assert StampsOf(p)[i].date == p[i].x && StampsOf(p)[j].date == p[j].x;
    }
    ColoursFollowLabels(p, palette);
  }

  /**
   * With at least one parseable date, the baseline is a horizontal line at y = 0
   * from the earliest to the latest date, and every dated marker lies on its span.
   */
  lemma TimelineBaseline(
    fig: FigureSpec, view: seq<ProgressRow>, bills: seq<string>,
    parse: string -> Option<int>, palette: seq<string>)
    requires |palette| > 0 && IsTimeline(fig, view, bills, parse, palette)
    requires exists i :: 0 <= i < |view| && parse(view[i].columns.date).Some?
    ensures |fig.shapes| == 1 && fig.shapes[0].y0 == 0 && fig.shapes[0].y1 == 0
    ensures fig.shapes[0].x0.Some? && fig.shapes[0].x1.Some?
    ensures fig.shapes[0].x0.value <= fig.shapes[0].x1.value
    ensures forall i :: 0 <= i < |view| && parse(view[i].columns.date).Some? ==>
      fig.shapes[0].x0.value <= parse(view[i].columns.date).value <= fig.shapes[0].x1.value
  {
    var stamps := ParseDates(view, parse);
    var i :| 0 <= i < |view| && parse(view[i].columns.date).Some?;
    assert stamps[i] in stamps;
    BaselineSpansDates(stamps);
    forall j | 0 <= j < |view| && parse(view[j].columns.date).Some?
      ensures MinDate(stamps).value <= parse(view[j].columns.date).value <= MaxDate(stamps).value
    {
      assert stamps[j] in stamps;
    }
  }

  /**
   * Three events dated 2024-03-01, 2024-01-10 and 2024-02-15 (as yyyymmdd day keys) are
   * drawn oldest first: 2024-01-10 at height 2, 2024-02-15 at 1 and 2024-03-01 at 0.
   */
  lemma ThreeEventsNewestAtZero(p: seq<Point>, a: string, b: string, c: string)
    requires PlacedInDateOrder(p, [Stamp(Some(20240301), a), Stamp(Some(20240110), b), Stamp(Some(20240215), c)])
    ensures |p| == 3
    ensures p[0].x == Some(20240110) && p[0].y == 2
    ensures p[1].x == Some(20240215) && p[1].y == 1
    ensures p[2].x == Some(20240301) && p[2].y == 0
  {
    var given := [Stamp(Some(20240301), a), Stamp(Some(20240110), b), Stamp(Some(20240215), c)];
    var s := StampsOf(p);
    assert |s| == |multiset(s)| == |multiset(given)| == 3;
    forall k | 0 <= k < 3
      ensures s[k] in given
    {
      assert s[k] in multiset(s);
    }
    assert given[0] in multiset(s) && given[1] in multiset(s) && given[2] in multiset(s);
    assert given[0] in s && given[1] in s && given[2] in s;
    assert NotAfter(s[0].date, s[1].date) && NotAfter(s[1].date, s[2].date);
    assert s[0].date == Some(20240110);
    assert s[2].date == Some(20240301);
    assert s[1].date == Some(20240215);
  }

  /**
   * The markers of the sorted rows: `y_pos` counting down from N - 1, and each
   * label's colour from the colour map of the distinct labels.
   */
  method PlaceMarkers(sorted: seq<Stamp>, palette: seq<string>) returns (points: seq<Point>)
    requires |palette| > 0
    ensures StampsOf(points) == sorted
    ensures forall i :: 0 <= i < |points| ==> points[i].y == |points| - 1 - i
    ensures ColouredByFirstAppearance(points, palette)
  {
    var n := |sorted|;
    var yPos := YPositions(n);
    YPositionsCountDown(n);
    var events := EventsOf(sorted);
    var uniqueEvents := Unique(events);
    var colourMap := ColourMap(uniqueEvents, palette);
    var colours := MarkerColours(events, colourMap);
    points := seq(n, j requires 0 <= j < n => Point(sorted[j].date, yPos[j], sorted[j].event, colours[j]));
    assert StampsOf(points) == sorted;
    assert TextsOf(points) == events;
    ColouredThroughMap(points, colourMap, palette);
  }

  /** The timeline branch (`elif not dff_progress.empty:`), step by step as the callback runs it. */
  method BuildTimeline(
    view: seq<ProgressRow>, bills: seq<string>, parse: string -> Option<int>, palette: seq<string>)
    returns (fig: FigureSpec)
    requires |palette| > 0
    ensures IsTimeline(fig, view, bills, parse, palette)
  {
    var stamps := ParseDates(view, parse);
    var sorted := SortByDate(stamps);
    var points := PlaceMarkers(sorted, palette);
    var figure := new Figure();
    figure.AddShape(Line(MinDate(sorted), MaxDate(sorted), 0, 0));
    figure.AddTrace(Scatter(points));
    var titleText := "Progress Timeline";
    if |bills| > 0 {
      titleText := titleText + " for " + Join(", ", bills);
    }
    figure.UpdateLayout(titleText);
    fig := figure.Spec();
    EndpointsIgnoreOrder(sorted, stamps);
  }
}
