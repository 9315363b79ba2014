/** The card that shows one round's two texts side by side (components/SubmissionsPair). */
module SubmissionsPair {
  import opened JsValues

  /** One column: the side's text, or the "In attesa…" placeholder. */
  datatype Cell = Shown(text: string) | Waiting

  datatype Body = EmptyHint(hint: string) | Columns(pro: Cell, contro: Cell)

  datatype Card = Card(header: string, body: Body)

  /** Truthiness of a nullable string: present and non-empty. */
  predicate Present(t: Option<string>) {
    t.Some? && t.value != ""
  }

  function CellFor(t: Option<string>): (c: Cell)
    ensures c.Shown? <==> Present(t)
    ensures c.Shown? ==> c.text == t.value
  {
    if Present(t) then Shown(t.value) else Waiting
  }

  /** The title always heads the card. With neither text present only the hint is shown;
      otherwise both columns are drawn, each with its own text or the placeholder. */
  function Render(title: string, proText: Option<string>, controText: Option<string>, emptyHint: string): (r: Card)
    ensures r.header == title
    ensures r.body.EmptyHint? <==> !Present(proText) && !Present(controText)
    ensures r.body.EmptyHint? ==> r.body.hint == emptyHint
    ensures r.body.Columns? ==> r.body.pro == CellFor(proText) && r.body.contro == CellFor(controText)
  {
    Card(title, if !Present(proText) && !Present(controText) then EmptyHint(emptyHint) else Columns(CellFor(proText), CellFor(controText)))
  }

  /** With one side present and the other missing, the present side's text is revealed and
      the missing side shows the placeholder: the card does not wait for both. */
  lemma OneSideIsRevealed(title: string, proText: Option<string>, controText: Option<string>, emptyHint: string)
    requires Present(proText) != Present(controText)
    ensures var r := Render(title, proText, controText, emptyHint);
      r.body.Columns? &&
      (Present(proText) ==> r.body.pro == Shown(proText.value) && r.body.contro == Waiting) &&
      (Present(controText) ==> r.body.contro == Shown(controText.value) && r.body.pro == Waiting)
  {
  }
}
