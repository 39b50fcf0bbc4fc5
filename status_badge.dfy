/** The judge's submission status and the editor page's status badge
    (`statusMap` and the badge above the output, frontend/src/pages/EditorPage.jsx). */
module StatusBadge {
  import opened JsValues

  /** A submission status as the judge reports it: 1 and 2 are "in queue" and
      "processing", 3 and above are final. */
  datatype Status = Status(id: int, description: string)

  /** What the editor page records when a run fails on its side. */
  const InternalError := Status(8, "Internal Error")

  /** `statusMap[id]?.label`. */
  function StatusLabel(id: int): (name: Option<string>)
    ensures name.Some? <==> 1 <= id <= 9
    ensures name.Some? ==> name.value != ""
  {
    if id == 1 then Some("In Queue")
    else if id == 2 then Some("Processing")
    else if id == 3 then Some("Accepted")
    else if id == 4 then Some("Wrong Answer")
    else if id == 5 then Some("Time Limit Exceeded")
    else if id == 6 then Some("Compilation Error")
    else if id == 7 then Some("Runtime Error")
    else if id == 8 then Some("Internal Error")
    else if id == 9 then Some("Execution Error")
    else None
  }

  /** The badge's colour and icon: green tick, red cross or yellow clock. */
  datatype Tone = Success | Failure | Pending

  /** The source tests `id === 3`, then `id >= 4`, then `id <= 2`; for an
      integer id the three cases are disjoint and cover every id. */
  function Classify(id: int): (t: Tone)
    ensures t == Pending <==> id <= 2
    ensures t == Success <==> id == 3
    ensures t == Failure <==> id >= 4
  {
    if id == 3 then Success
    else if id >= 4 then Failure
    else Pending
  }

  /** `statusMap[status.id]?.label || status.description`. */
  function BadgeLabel(s: Status): (text: string)
    ensures 1 <= s.id <= 9 ==> text == StatusLabel(s.id).value
    ensures !(1 <= s.id <= 9) ==> text == s.description
  {
    Or(StatusLabel(s.id), Some(s.description)).value
  }

  datatype Badge = Badge(tone: Tone, text: string)

  /** The badge is shown only once a status has been recorded. */
  function BadgeFor(status: Option<Status>): (b: Option<Badge>)
    ensures b.Some? <==> status.Some?
    ensures b.Some? ==> (b.value.tone == Pending <==> status.value.id <= 2)
    ensures b.Some? ==> (b.value.tone == Success <==> status.value.id == 3)
    ensures b.Some? ==> (b.value.tone == Failure <==> status.value.id >= 4)
    ensures b.Some? ==> b.value.text == BadgeLabel(status.value)
  {
    match status
    case None => None
    case Some(s) => Some(Badge(Classify(s.id), BadgeLabel(s)))
  }
}
