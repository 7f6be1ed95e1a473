/**
 * The four tables the dashboard loads and the relevancy join that runs once
 * after loading.  Every table shares the three columns the filters act on
 * (`bill_number`, `title`, `relevant`); the rest of a row is table-specific.
 */
module Tables {
  import opened Wrappers

  /** One table row: the shared filter columns plus the table's own columns `C`. */
  datatype Row<C> = Row(billNumber: string, title: string, relevant: Option<string>, columns: C)

  /** bills_info.csv: one row per bill.  `source` is a URL or NaN. */
  datatype InfoColumns = InfoColumns(
    companion: string, subject: string, session: string, status: string,
    statusDate: string, source: Option<string>, chat: string)

  /** bills_history.csv: the legislative actions of each bill. */
  datatype HistoryColumns = HistoryColumns(date: string, chamber: string, action: string)

  /** bills_progress.csv: the dated milestones drawn on the timeline. */
  datatype ProgressColumns = ProgressColumns(date: string, event: string)

  /** bills_calendar.csv: scheduled hearings and sessions (`type` is a Dafny keyword, hence `kind`). */
  datatype CalendarColumns = CalendarColumns(
    kind: string, date: string, time: string, location: string, description: string)

  type InfoRow = Row<InfoColumns>
  type HistoryRow = Row<HistoryColumns>
  type ProgressRow = Row<ProgressColumns>
  type CalendarRow = Row<CalendarColumns>

  /** The precomputed relevancy labels, keyed by bill number. */
  type RelevancyMap = map<string, string>

  datatype Dataset = Dataset(
    info: seq<InfoRow>, history: seq<HistoryRow>,
    progress: seq<ProgressRow>, calendar: seq<CalendarRow>)

  /** `Series.map(dict)` on one cell: the label, or NaN when the bill has none. */
  function Relevancy(m: RelevancyMap, billNumber: string): Option<string>
  {
    if billNumber in m then Some(m[billNumber]) else None
  }

  /** `df['relevant'] = df['bill_number'].map(relevancy_dict)`. */
  function JoinRelevancy<C>(rows: seq<Row<C>>, m: RelevancyMap): (r: seq<Row<C>>)
    ensures |r| == |rows|
    ensures forall i :: 0 <= i < |r| ==>
      && r[i].billNumber == rows[i].billNumber
      && r[i].title == rows[i].title
      && r[i].columns == rows[i].columns
      && (r[i].relevant.Some? <==> rows[i].billNumber in m)
      && (r[i].relevant.Some? ==> r[i].relevant.value == m[rows[i].billNumber])
  {
    seq(|rows|, i requires 0 <= i < |rows| => rows[i].(relevant := Relevancy(m, rows[i].billNumber)))
  }
}
