/** The coloured badge shown for a match phase (components/MatchPhaseBadge). */
module MatchPhaseBadge {
  import opened JsValues
  import MatchPhase

  datatype Badge = Badge(text: string, className: string)

  /** Exactly one badge for every value: the four phases have their own label and colour,
      everything else is the grey "Unknown" badge. */
  function PhaseBadge(phase: Js): (r: Badge)
    ensures MatchPhase.IsKnownPhase(phase) <==> r.text != "Unknown"
    ensures MatchPhase.IsKnownPhase(phase) <==> r.className != "bg-secondary"
    ensures MatchPhase.IsKnownPhase(phase) ==> r.text == MatchPhase.PhaseLabel(phase)
    ensures phase == Num(1) ==> r.className == "bg-primary"
    ensures phase == Num(2) ==> r.className == "bg-info text-dark"
    ensures phase == Num(3) ==> r.className == "bg-warning text-dark"
    ensures phase == Num(4) ==> r.className == "bg-dark"
  {
    match phase
    case Num(1) => Badge("Opening", "bg-primary")
    case Num(2) => Badge("Rebuttal", "bg-info text-dark")
    case Num(3) => Badge("Voting", "bg-warning text-dark")
    case Num(4) => Badge("Closed", "bg-dark")
    case _ => Badge("Unknown", "bg-secondary")
  }

  /** Distinct phases get distinct badges. */
  lemma PhaseBadgeInjectiveOnKnown(p: Js, q: Js)
    requires MatchPhase.IsKnownPhase(p) && MatchPhase.IsKnownPhase(q) && p != q
    ensures PhaseBadge(p).text != PhaseBadge(q).text
    ensures PhaseBadge(p).className != PhaseBadge(q).className
  {
  }
}
