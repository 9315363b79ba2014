/** The phase label used in the dashboard (utils/matchPhase). */
module MatchPhase {
  import opened JsValues
  import opened Text

  /** The four phases a match goes through, by their wire numbers. */
  predicate IsKnownPhase(phase: Js) {
    phase == Num(1) || phase == Num(2) || phase == Num(3) || phase == Num(4)
  }

  /** `phaseLabel(phase)`: the name of a known phase, `Phase <value>` for anything else.
      A label starts with "Phase " exactly when the phase is not one of the four. */
  function PhaseLabel(phase: Js): (r: string)
    ensures StartsWith(r, "Phase ") <==> !IsKnownPhase(phase)
    ensures !IsKnownPhase(phase) ==> r[6..] == ToStr(phase)
    ensures phase == Num(1) ==> r == "Opening"
    ensures phase == Num(2) ==> r == "Rebuttal"
    ensures phase == Num(3) ==> r == "Voting"
    ensures phase == Num(4) ==> r == "Closed"
  {
    match phase
    case Num(1) => assert "Opening"[0] == 'O'; "Opening"
    case Num(2) => assert "Rebuttal"[0] == 'R'; "Rebuttal"
    case Num(3) => assert "Voting"[0] == 'V'; "Voting"
    case Num(4) => assert "Closed"[0] == 'C'; "Closed"
    case _ => "Phase " + ToStr(phase)
  }

  /** The four known labels are pairwise distinct. */
  lemma KnownLabelsDistinct(p: Js, q: Js)
    requires IsKnownPhase(p) && IsKnownPhase(q) && p != q
    ensures PhaseLabel(p) != PhaseLabel(q)
  {
  }

  /** No two numeric phases share a label: the label of an unknown phase carries its number. */
  lemma {:induction false} PhaseLabelInjective(m: int, n: int)
    requires PhaseLabel(Num(m)) == PhaseLabel(Num(n))
    ensures m == n
  {
    var lm, ln := PhaseLabel(Num(m)), PhaseLabel(Num(n));
    if !IsKnownPhase(Num(m)) {
      assert StartsWith(ln, "Phase ");
      assert lm[6..] == IntToDecimal(m) && ln[6..] == IntToDecimal(n);
      IntToDecimalInjective(m, n);
    }
  }
}
