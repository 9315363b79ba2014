/** pages/CreateDebate: the form that proposes a new debate. */
module CreateDebate {
  import opened JsValues
  import opened Text

  const MinTitle := 6
  const MinDescription := 30
  const TitleTooShort := "Il titolo deve avere almeno 6 caratteri."
  const DescriptionTooShort := "La descrizione deve avere almeno 30 caratteri (così è chiaro l’argomento)."
  const CreatedMessage := "Dibattito creato. Ora è in attesa di moderazione."

  /** `canSubmit`: not while a request is out, and only with a long enough trimmed title and
      description. */
  function CanSubmit(loading: bool, title: string, description: string): (b: bool)
    ensures loading ==> !b
    ensures b <==> !loading && |Trim(title)| >= MinTitle && |Trim(description)| >= MinDescription
  {
    if loading then false
    else if |Trim(title)| < MinTitle then false
    else |Trim(description)| >= MinDescription
  }

  /** The client-side check in `handleSubmit`: the title first, then the description. */
  function Validate(title: string, description: string): (r: Option<string>)
    ensures |Trim(title)| < MinTitle ==> r == Some(TitleTooShort)
    ensures |Trim(title)| >= MinTitle && |Trim(description)| < MinDescription ==> r == Some(DescriptionTooShort)
    ensures r.None? <==> |Trim(title)| >= MinTitle && |Trim(description)| >= MinDescription
  {
    if |Trim(title)| < MinTitle then Some(TitleTooShort)
    else if |Trim(description)| < MinDescription then Some(DescriptionTooShort)
    else None
  }

  /** The button and the submit handler agree: an idle form passes validation exactly when
      the button is enabled. */
  lemma ButtonAgreesWithValidation(title: string, description: string)
    ensures CanSubmit(false, title, description) <==> Validate(title, description).None?
  {
  }

  /** A title of only spaces never passes, however long. */
  lemma BlankTitleRejected(title: string, description: string)
    requires AllSpace(title)
    ensures Validate(title, description) == Some(TitleTooShort)
  {
  }

  /** `friendlyError`: checked in the order 401, 403, 409, 400, then the message itself or a
      default. */
  function FriendlyError(msg: string): (r: string)
    ensures r != ""
    ensures Includes(msg, "401") ==> r == "Sessione scaduta: fai login e riprova."
    ensures !Includes(msg, "401") && Includes(msg, "403") ==> r == "Non hai i permessi per creare un dibattito."
    ensures !Includes(msg, "401") && !Includes(msg, "403") && Includes(msg, "409") ==>
      r == "Esiste già un dibattito simile o non puoi crearne uno in questo momento."
    ensures !Includes(msg, "401") && !Includes(msg, "403") && !Includes(msg, "409") && Includes(msg, "400") ==>
      r == "Dati non validi: controlla titolo e descrizione."
    ensures !Includes(msg, "401") && !Includes(msg, "403") && !Includes(msg, "409") && !Includes(msg, "400") ==>
      r == if msg != "" then msg else "Errore nella creazione del dibattito."
  {
    if Includes(msg, "401") then "Sessione scaduta: fai login e riprova."
    else if Includes(msg, "403") then "Non hai i permessi per creare un dibattito."
    else if Includes(msg, "409") then "Esiste già un dibattito simile o non puoi crearne uno in questo momento."
    else if Includes(msg, "400") then "Dati non validi: controlla titolo e descrizione."
    else if msg != "" then msg
    else "Errore nella creazione del dibattito."
  }

  /** The payload `{ title, body }` sent to the API. */
  datatype Payload = Payload(title: string, body: string)

  class CreateDebatePage {
    var form: map<string, string>
    var loading: bool
    var error: Option<string>
    var message: Option<string>

    /** Both fields the page reads are always in the form. */
    ghost predicate Valid()
      reads this
    {
      "title" in form && "description" in form
    }

    constructor ()
      ensures form == map["title" := "", "description" := ""] && !loading && error == None && message == None
      ensures Valid()
    {
      form := map["title" := "", "description" := ""];
      loading := false;
      error := None;
      message := None;
    }

    function Title(): string
      requires Valid()
      reads this
    {
      form["title"]
    }

    function Description(): string
      requires Valid()
      reads this
    {
      form["description"]
    }

    /** A field edit: only the named field changes. */
    method HandleChange(name: string, value: string)
      requires Valid()
      modifies this
      ensures Valid() && form == old(form)[name := value]
      ensures forall k :: k in old(form) && k != name ==> form[k] == old(form)[k]
      ensures loading == old(loading) && error == old(error) && message == old(message)
    {
      form := form[name := value];
    }

    /** The synchronous half of `handleSubmit`: both banners go; a form that fails the check
        gets its error and sends nothing; otherwise the trimmed fields are sent. */
    method BeginSubmit() returns (sent: Option<Payload>)
      requires Valid()
      modifies this
      ensures Valid() && form == old(form) && message == None
      ensures Validate(Title(), Description()).Some? ==>
        sent == None && error == Validate(Title(), Description()) && loading == old(loading)
      ensures Validate(Title(), Description()).None? ==>
        sent == Some(Payload(Trim(Title()), Trim(Description()))) && error == None && loading
    {
      error := None;
      message := None;
      var problem := Validate(form["title"], form["description"]);
      if problem.Some? {
        error := problem;
        return None;
      }
      loading := true;
      return Some(Payload(Trim(form["title"]), Trim(form["description"])));
    }

    /** The rest of `handleSubmit` once the API call has settled. */
    method CompleteSubmit(outcome: Throws<()>)
      modifies this
      ensures !loading && form == old(form)
      ensures outcome.Returned? ==> message == Some(CreatedMessage) && error == old(error)
      ensures outcome.Threw? ==> error == Some(FriendlyError(outcome.message)) && message == old(message)
    {
      if outcome.Returned? {
        message := Some(CreatedMessage);
      } else {
        error := Some(FriendlyError(outcome.message));
      }
      loading := false;
    }
  }
}
