/** The coloured badge shown for a debate's moderation status (components/DebateStatusBadge). */
module DebateStatusBadge {
  import opened JsValues

  datatype Badge = Badge(text: string, className: string)

  /** Open, InReview, Approved, Rejected, Closed. */
  predicate IsKnownStatus(status: Js) {
    status.Num? && 1 <= status.n <= 5
  }

  /** Exactly one badge per value; the five statuses have pairwise distinct labels and
      every other value gets the "Unknown" badge. */
  function StatusBadge(status: Js): (r: Badge)
    ensures IsKnownStatus(status) <==> r.text != "Unknown"
    ensures !IsKnownStatus(status) ==> r.className == "bg-secondary"
    ensures status == Num(1) ==> r == Badge("Open", "bg-secondary")
    ensures status == Num(2) ==> r == Badge("In review", "bg-warning text-dark")
    ensures status == Num(3) ==> r == Badge("Approved", "bg-success")
    ensures status == Num(4) ==> r == Badge("Rejected", "bg-danger")
    ensures status == Num(5) ==> r == Badge("Closed", "bg-dark")
  {
    match status
    case Num(1) => Badge("Open", "bg-secondary")
    case Num(2) => Badge("In review", "bg-warning text-dark")
    case Num(3) => Badge("Approved", "bg-success")
    case Num(4) => Badge("Rejected", "bg-danger")
    case Num(5) => Badge("Closed", "bg-dark")
    case _ => Badge("Unknown", "bg-secondary")
  }

  lemma StatusLabelsDistinct(s: Js, t: Js)
    requires IsKnownStatus(s) && IsKnownStatus(t) && s != t
    ensures StatusBadge(s).text != StatusBadge(t).text
  {
  }
}
