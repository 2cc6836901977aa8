/**
 * The high-events list (`components/history/EventsTable.tsx`): an empty
 * state without events, else a count badge and one row per event in the
 * order given. Formatting a timestamp for display is the runtime's
 * (`toLocaleString`) and is a parameter here.
 */
module EventsTable {
  import opened Wrappers
  import opened Pressure
  import opened DurationText

  /** `regionLabels`. */
  function RegionLabel(r: Region): string {
    match r
    case Heel => "Heel"
    case LeftAnkle => "L. Ankle"
    case RightAnkle => "R. Ankle"
  }

  /** `regionColors`. */
  function RegionColour(r: Region): string {
    match r
    case Heel => "bg-chart-1 text-white"
    case LeftAnkle => "bg-chart-2 text-white"
    case RightAnkle => "bg-chart-4 text-white"
  }

  /** What one row shows. */
  datatype EventRow = EventRow(regionLabel: string, colour: string, peak: real, start: string, end: string,
                               duration: string, samples: nat)

  /** The card: the empty state, or the count and the rows. */
  datatype EventsView = NoEvents | EventList(count: nat, rows: seq<EventRow>)

  /** The row of one event. */
  function RowOf(e: HighEvent, timeText: int -> string): EventRow {
    EventRow(RegionLabel(e.region), RegionColour(e.region), e.peak, timeText(e.start), timeText(e.end),
             FormatDuration(Duration(e)), e.samples)
  }

  /** The card for a list of events. */
  function View(events: seq<HighEvent>, timeText: int -> string): EventsView {
    if |events| == 0 then NoEvents
    else EventList(|events|, seq(|events|, k requires 0 <= k < |events| => RowOf(events[k], timeText)))
  }

  /** A row shows its event: region label and colour, peak, times, sample count and duration. */
  lemma RowShowsEvent(e: HighEvent, timeText: int -> string)
    ensures var row := RowOf(e, timeText);
            && row.regionLabel == RegionLabel(e.region)
            && row.colour == RegionColour(e.region)
            && row.peak == e.peak && row.samples == e.samples
            && row.start == timeText(e.start) && row.end == timeText(e.end)
            && ReadDuration(row.duration) == Some(Minutes(Duration(e)))
  {
    FormatDurationReads(Duration(e));
  }

  /**
   * The empty state shows exactly when there is no event; otherwise the
   * badge counts the events and row `k` is the row of event `k`.
   */
  lemma ViewRows(events: seq<HighEvent>, timeText: int -> string)
    ensures View(events, timeText).NoEvents? <==> events == []
    ensures events != [] ==>
              var v := View(events, timeText);
              && v.count == |events| && |v.rows| == |events|
              && forall k :: 0 <= k < |events| ==> v.rows[k] == RowOf(events[k], timeText)
  {
  }

  /** The label and colour maps are one-to-one over the three regions. */
  lemma LabelsAndColoursDistinct(r1: Region, r2: Region)
    ensures RegionLabel(r1) == RegionLabel(r2) <==> r1 == r2
    ensures RegionColour(r1) == RegionColour(r2) <==> r1 == r2
  {
  }
}
