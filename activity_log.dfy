/** The call log table: the call record as the log shows it, the badge colour
    and label of a call's outcome, and the choice between the empty state and
    one row per record. */
module ActivityLog {
  import opened Text
  import Durations

  datatype Direction = Inbound | Outbound

  /** The final classification of a call attempt. */
  datatype Outcome = Answered | Declined | Missed

  function OutcomeName(o: Outcome): string {
    match o
    case Answered => "answered"
    case Declined => "declined"
    case Missed => "missed"
  }

  /** A call record as stored in the call log; `receivedAt` is a timestamp in
      milliseconds. */
  datatype CallLog = CallLog(
    id: string,
    phoneNumber: string,
    direction: Direction,
    outcome: Outcome,
    receivedAt: int,
    durationSeconds: int)

  const AnsweredColor := "bg-green-100 text-green-800"
  const DeclinedColor := "bg-red-100 text-red-800"
  const MissedColor := "bg-orange-100 text-orange-800"
  const DefaultColor := "bg-slate-100 text-slate-800"

  /** The badge colour for an outcome name: green, red and orange for the
      three outcomes, slate for any other string. */
  function StatusColor(status: string): (color: string)
    ensures status == "answered" ==> color == AnsweredColor
    ensures status == "declined" ==> color == DeclinedColor
    ensures status == "missed" ==> color == MissedColor
    ensures status !in {"answered", "declined", "missed"} ==> color == DefaultColor
  {
    if status == "answered" then AnsweredColor
    else if status == "declined" then DeclinedColor
    else if status == "missed" then MissedColor
    else DefaultColor
  }

  /** The three outcomes get three different badges, none of them the
      default one, so the badge tells the outcome. */
  lemma OutcomeColorsDistinct(a: Outcome, b: Outcome)
    ensures StatusColor(OutcomeName(a)) != DefaultColor
    ensures a != b ==> StatusColor(OutcomeName(a)) != StatusColor(OutcomeName(b))
  {
  }

  /** The badge label: the first character upper-cased, the rest as is. */
  function StatusLabel(status: string): (r: string)
    ensures |r| == |status|
    ensures status != [] ==> r[0] == UpperChar(status[0]) && r[1..] == status[1..]
  {
    if status == [] then [] else [UpperChar(status[0])] + status[1..]
  }

  /** Capitalising a label that is already capitalised changes nothing, and
      the three outcomes read "Answered", "Declined" and "Missed". */
  lemma StatusLabelIdempotent(status: string)
    ensures StatusLabel(StatusLabel(status)) == StatusLabel(status)
    ensures StatusLabel(OutcomeName(Answered)) == "Answered"
    ensures StatusLabel(OutcomeName(Declined)) == "Declined"
    ensures StatusLabel(OutcomeName(Missed)) == "Missed"
  {
    if status != [] {
      var r := StatusLabel(status);
      assert r[1..] == status[1..];
    }
  }

  /** One row of the table; the time column is the raw timestamp, the
      locale rendering of it is not modelled. */
  datatype Row = Row(
    phoneNumber: string,
    direction: Direction,
    receivedAt: int,
    badgeColor: string,
    badgeLabel: string,
    duration: string)

  datatype View = EmptyState | Table(rows: seq<Row>)

  function RowOf(log: CallLog): Row {
    Row(log.phoneNumber, log.direction, log.receivedAt,
        StatusColor(OutcomeName(log.outcome)), StatusLabel(OutcomeName(log.outcome)),
        Durations.FormatMinutesSeconds(log.durationSeconds))
  }

  /** An empty log shows the empty state; otherwise one row per record, in
      the order the records were given. */
  function Render(logs: seq<CallLog>): (v: View)
    ensures v.EmptyState? <==> logs == []
    ensures v.Table? ==> |v.rows| == |logs|
    ensures v.Table? ==> forall i :: 0 <= i < |logs| ==> v.rows[i] == RowOf(logs[i])
  {
    if |logs| == 0 then EmptyState else Table(seq(|logs|, i requires 0 <= i < |logs| => RowOf(logs[i])))
  }
}
