/** The badge for the side of a queue entry (components/SideBadge): 1 is Pro, 2 is Contro. */
module SideBadge {
  import opened JsValues

  datatype Badge = Badge(text: string, className: string)

  const Pro := Badge("PRO", "bg-success")
  const Contro := Badge("CONTRO", "bg-danger")
  const NoSide := Badge("—", "bg-secondary")

  /** Every value yields exactly one of the three badges; only the numbers 1 and 2 (compared
      with `===`, so not the strings "1" and "2") name a side. */
  function SideOf(side: Js): (r: Badge)
    ensures r == Pro || r == Contro || r == NoSide
    ensures r == Pro <==> side == Num(1)
    ensures r == Contro <==> side == Num(2)
  {
    if side == Num(1) then Pro else if side == Num(2) then Contro else NoSide
  }
}
