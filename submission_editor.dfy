/** components/SubmissionEditor: the text box with "save draft" and "submit" buttons used for
    the Opening and Rebuttal rounds. The two callbacks are the caller's API calls; their
    outcomes come in as parameters. */
module SubmissionEditor {
  import opened JsValues
  import opened Text

  datatype Action = SaveDraft | SubmitFinal

  /** The confirmation shown after a callback resolves. */
  function SuccessMessage(a: Action): (m: string)
    ensures m != ""
    ensures a.SaveDraft? <==> m == "Bozza salvata"
    ensures a.SubmitFinal? <==> m == "Consegna inviata"
  {
    match a
    case SaveDraft => "Bozza salvata"
    case SubmitFinal => "Consegna inviata"
  }

  class Editor {
    var body: string
    var busy: bool
    var message: Option<string>
    var error: Option<string>
    const disabled: bool

    constructor (initialBody: string, disabled: bool)
      ensures body == initialBody && !busy && message == None && error == None && this.disabled == disabled
    {
      body := initialBody;
      busy := false;
      message := None;
      error := None;
      this.disabled := disabled;
    }

    /** The textarea and the "save draft" button. */
    predicate SaveDisabled()
      reads this
    {
      disabled || busy
    }

    /** The "submit" button: also off while the text is blank, i.e. only whitespace. */
    function SubmitDisabled(): (b: bool)
      reads this
      ensures b <==> disabled || busy || AllSpace(body)
      ensures SaveDisabled() ==> b
    {
      disabled || busy || |Trim(body)| == 0
    }

    /** Typing into the textarea. */
    method Edit(value: string)
      modifies this
      ensures body == value && busy == old(busy) && message == old(message) && error == old(error)
    {
      body := value;
    }

    /** The synchronous half of `run`: both banners go, the editor turns busy, and the
        callback receives the current text. */
    method BeginRun() returns (sent: string)
      modifies this
      ensures busy && message == None && error == None
      ensures body == old(body) && sent == body
    {
      error := None;
      message := None;
      busy := true;
      sent := body;
    }

    /** The rest of `run` once the callback for `a` has settled. Success shows the action's
        confirmation; a failure shows its message and is rethrown to the caller. The editor is
        no longer busy either way and the text is kept. */
    method CompleteRun(a: Action, outcome: Throws<()>) returns (rethrown: Option<string>)
      modifies this
      ensures !busy && body == old(body)
      ensures outcome.Returned? ==> message == Some(SuccessMessage(a)) && error == old(error) && rethrown == None
      ensures outcome.Threw? ==> error == Some(outcome.message) && message == old(message) && rethrown == Some(outcome.message)
    {
      rethrown := None;
      if outcome.Returned? {
        message := Some(SuccessMessage(a));
      } else {
        error := Some(outcome.message);
        rethrown := Some(outcome.message);
      }
      busy := false;
    }
  }
}
