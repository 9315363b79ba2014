/** pages/DebateDetails: one debate, the viewer's place in the matchmaking queue, and the
    "join as PRO / CONTRO" buttons. */
module DebateDetails {
  import opened JsValues
  import opened Text

  const SidePro := 1
  const SideContro := 2

  /** What the queue says about the viewer and this debate. */
  datatype QueueState = Guest | InThis | InOther(debateId: Js) | Free

  /** `String(q.debateId) === String(id)` */
  predicate ForDebate(entry: Js, id: string) {
    ToStr(Get(entry, "debateId")) == id
  }

  /** `q.debateId && String(q.debateId) !== String(id)` */
  predicate ForOtherDebate(entry: Js, id: string) {
    Truthy(Get(entry, "debateId")) && !ForDebate(entry, id)
  }

  predicate InQueueFor(queue: seq<Js>, id: string) {
    exists i :: 0 <= i < |queue| && ForDebate(queue[i], id)
  }

  /** Entry `i` is the first entry for another debate. */
  predicate IsFirstOther(queue: seq<Js>, id: string, i: int) {
    0 <= i < |queue| && ForOtherDebate(queue[i], id) && forall j :: 0 <= j < i ==> !ForOtherDebate(queue[j], id)
  }

  /** `queue.find(...)`: the debate of the first entry for another debate. */
  function FirstOther(queue: seq<Js>, id: string): (r: Option<Js>)
    ensures r.None? <==> forall i :: 0 <= i < |queue| ==> !ForOtherDebate(queue[i], id)
    ensures r.Some? ==> exists i :: IsFirstOther(queue, id, i) && r.value == Get(queue[i], "debateId")
  {
    if queue == [] then None
    else if ForOtherDebate(queue[0], id) then
      assert IsFirstOther(queue, id, 0);
      Some(Get(queue[0], "debateId"))
    else
      var r := FirstOther(queue[1..], id);
      assert forall i :: 1 <= i < |queue| ==> queue[i] == queue[1..][i - 1];
      if r.Some? then
        var k :| IsFirstOther(queue[1..], id, k) && r.value == Get(queue[1..][k], "debateId");
        assert IsFirstOther(queue, id, k + 1);
        r
      else r
  }

  /** `queueState`: guests first, then a queue entry for this debate, then the first entry
      for another debate, otherwise free to join. */
  function Classify(isAuthenticated: bool, queue: seq<Js>, id: string): (st: QueueState)
    ensures st.Guest? <==> !isAuthenticated
    ensures st.InThis? <==> isAuthenticated && InQueueFor(queue, id)
    ensures st.InOther? <==> isAuthenticated && !InQueueFor(queue, id) && FirstOther(queue, id).Some?
    ensures st.InOther? ==> st.debateId == FirstOther(queue, id).value && Truthy(st.debateId)
    ensures st.Free? <==> isAuthenticated && forall i :: 0 <= i < |queue| ==> !Truthy(Get(queue[i], "debateId")) && !ForDebate(queue[i], id)
  {
    if !isAuthenticated then Guest
    else if InQueueFor(queue, id) then InThis
    else match FirstOther(queue, id)
      case Some(d) => InOther(d)
      case None => Free
  }

  /** `joinDisabled` */
  function JoinDisabled(isAuthenticated: bool, joinLoading: bool, st: QueueState): (b: bool)
    ensures !b <==> isAuthenticated && !joinLoading && !st.InThis? && !st.InOther?
  {
    if !isAuthenticated then true
    else if joinLoading then true
    else st.InThis? || st.InOther?
  }

  /** The join buttons are live exactly for a signed-in viewer, not mid-request, with no
      queue entry that names any debate. */
  lemma JoinEnabledIff(isAuthenticated: bool, joinLoading: bool, queue: seq<Js>, id: string)
    ensures !JoinDisabled(isAuthenticated, joinLoading, Classify(isAuthenticated, queue, id)) <==>
      isAuthenticated && !joinLoading && Classify(isAuthenticated, queue, id) == Free
  {
  }

  /** The queue payload becomes a list: a list stays as it is, a single truthy entry is
      wrapped, anything else is empty. */
  function NormalizeQueue(payload: Js): (q: seq<Js>)
    ensures payload.Arr? ==> q == payload.items
    ensures !payload.Arr? && Truthy(payload) ==> q == [payload]
    ensures !Truthy(payload) ==> q == []
  {
    if payload.Arr? then payload.items else if Truthy(payload) then [payload] else []
  }

  /** The entry the page records after a join. */
  function EntryFor(id: string): Js {
    Obj(map["debateId" := Str(id)])
  }

  /** Records the viewer in this debate's queue, unless an entry for it is already there. */
  function AddToQueue(queue: seq<Js>, id: string): (r: seq<Js>)
    ensures InQueueFor(queue, id) ==> r == queue
    ensures !InQueueFor(queue, id) ==> r == [EntryFor(id)] + queue
  {
    if InQueueFor(queue, id) then queue else [EntryFor(id)] + queue
  }

  /** After a join the page sees the viewer in this debate's queue, and joining again adds
      nothing. */
  lemma AddToQueueJoins(queue: seq<Js>, id: string)
    ensures InQueueFor(AddToQueue(queue, id), id)
    ensures Classify(true, AddToQueue(queue, id), id) == InThis
    ensures AddToQueue(AddToQueue(queue, id), id) == AddToQueue(queue, id)
  {
    if !InQueueFor(queue, id) {
      assert ForDebate(AddToQueue(queue, id)[0], id);
    }
  }

  /** What a failed join shows. A 409 (already queued or matched) is not an error: it is an
      informational message and the page records the viewer as queued. */
  datatype JoinFeedback = AlreadyQueued(info: string) | JoinError(text: string)

  const JoinedMessage := "Iscrizione registrata ✅ Sei in coda. Ti porto in Dashboard..."
  const AlreadyQueuedMessage := "Sei già in coda (o hai già un match) per questo dibattito. Vai in Dashboard per vedere lo stato."

  function FeedbackFor(msg: string): (f: JoinFeedback)
    ensures f.AlreadyQueued? <==> Includes(msg, "409")
    ensures f.AlreadyQueued? ==> f.info == AlreadyQueuedMessage
    ensures f.JoinError? ==> f.text != ""
    ensures !Includes(msg, "409") && Includes(msg, "404") ==> f == JoinError("Dibattito non trovato (o non più disponibile).")
    ensures !Includes(msg, "409") && !Includes(msg, "404") && Includes(msg, "401") ==> f == JoinError("Sessione scaduta. Rifai login.")
    ensures !Includes(msg, "409") && !Includes(msg, "404") && !Includes(msg, "401") && Includes(msg, "403") ==>
      f == JoinError("Non hai i permessi per partecipare a questo dibattito.")
    ensures !Includes(msg, "409") && !Includes(msg, "404") && !Includes(msg, "401") && !Includes(msg, "403") ==>
      f == JoinError(if msg != "" then msg else "Errore durante l’iscrizione.")
  {
    if Includes(msg, "409") then AlreadyQueued(AlreadyQueuedMessage)
    else if Includes(msg, "404") then JoinError("Dibattito non trovato (o non più disponibile).")
    else if Includes(msg, "401") then JoinError("Sessione scaduta. Rifai login.")
    else if Includes(msg, "403") then JoinError("Non hai i permessi per partecipare a questo dibattito.")
    else if msg != "" then JoinError(msg)
    else JoinError("Errore durante l’iscrizione.")
  }

  class DebateDetailsPage {
    const id: string
    const token: Js
    var debate: Js
    var loading: bool
    var error: Option<string>
    var queue: seq<Js>
    var joinLoading: bool
    var joinError: Option<string>
    var joinMessage: Option<string>
    /** Navigations scheduled with `setTimeout`, oldest first. */
    var scheduled: seq<string>

    constructor (id: string, token: Js)
      ensures this.id == id && this.token == token
      ensures debate == Null && loading && error == None && queue == []
      ensures !joinLoading && joinError == None && joinMessage == None && scheduled == []
    {
      this.id := id;
      this.token := token;
      debate := Null;
      loading := true;
      error := None;
      queue := [];
      joinLoading := false;
      joinError := None;
      joinMessage := None;
      scheduled := [];
    }

    predicate IsAuthenticated()
      reads this
    {
      Truthy(token)
    }

    function State(): QueueState
      reads this
    {
      Classify(IsAuthenticated(), queue, id)
    }

    /** The start of the load effect: spinner on, every banner cleared. */
    method BeginLoad()
      modifies this
      ensures loading && error == None && joinError == None && joinMessage == None
      ensures debate == old(debate) && queue == old(queue) && joinLoading == old(joinLoading) && scheduled == old(scheduled)
    {
      loading := true;
      error := None;
      joinError := None;
      joinMessage := None;
    }

    /** The load effect once the debate and (for a signed-in viewer) the queue have arrived;
        a guest's queue is the empty list. A failure of either keeps the old data and shows
        the message. */
    method CompleteLoad(result: Throws<(Js, Js)>)
      modifies this
      ensures !loading
      ensures result.Returned? ==> debate == result.value.0 && queue == NormalizeQueue(result.value.1) && error == old(error)
      ensures result.Threw? ==> error == Some(result.message) && debate == old(debate) && queue == old(queue)
      ensures joinLoading == old(joinLoading) && joinError == old(joinError) && joinMessage == old(joinMessage) && scheduled == old(scheduled)
    {
      if result.Returned? {
        debate := result.value.0;
        queue := NormalizeQueue(result.value.1);
      } else {
        error := Some(result.message);
      }
      loading := false;
    }

    /** The synchronous half of `handleJoin(side)`: ignored while the buttons are disabled,
        otherwise it clears both banners and sends the join request for this debate. */
    method BeginJoin(side: int) returns (request: Option<(string, int)>)
      modifies this
      ensures JoinDisabled(IsAuthenticated(), old(joinLoading), old(State())) ==>
        request == None && joinLoading == old(joinLoading) && joinError == old(joinError) && joinMessage == old(joinMessage)
      ensures !JoinDisabled(IsAuthenticated(), old(joinLoading), old(State())) ==>
        request == Some((id, side)) && joinLoading && joinError == None && joinMessage == None
      ensures queue == old(queue) && scheduled == old(scheduled) && debate == old(debate)
      ensures loading == old(loading) && error == old(error)
    {
      if !IsAuthenticated() || JoinDisabled(IsAuthenticated(), joinLoading, State()) {
        return None;
      }
      joinError := None;
      joinMessage := None;
      joinLoading := true;
      return Some((id, side));
    }

    /** The rest of `handleJoin` once the request has settled. Success and a 409 both mark the
        viewer as queued here; only success schedules the move to the dashboard. */
    method CompleteJoin(outcome: Throws<()>)
      modifies this
      ensures !joinLoading && debate == old(debate) && loading == old(loading) && error == old(error)
      ensures outcome.Returned? ==>
        queue == AddToQueue(old(queue), id) && joinMessage == Some(JoinedMessage) && joinError == old(joinError)
        && scheduled == old(scheduled) + ["/dashboard"]
      ensures outcome.Threw? && FeedbackFor(outcome.message).AlreadyQueued? ==>
        queue == AddToQueue(old(queue), id) && joinMessage == Some(AlreadyQueuedMessage) && joinError == old(joinError)
        && scheduled == old(scheduled)
      ensures outcome.Threw? && FeedbackFor(outcome.message).JoinError? ==>
        queue == old(queue) && joinError == Some(FeedbackFor(outcome.message).text) && joinMessage == old(joinMessage)
        && scheduled == old(scheduled)
    {
      if outcome.Returned? {
        queue := AddToQueue(queue, id);
        joinMessage := Some(JoinedMessage);
        scheduled := scheduled + ["/dashboard"];
      } else {
        match FeedbackFor(outcome.message)
        case AlreadyQueued(info) =>
          joinMessage := Some(info);
          queue := AddToQueue(queue, id);
        case JoinError(text) =>
          joinError := Some(text);
      }
      joinLoading := false;
    }
  }

  /** Once a join has succeeded or met a 409, the buttons stay disabled for a signed-in
      viewer: the page now sees them in this debate's queue. */
  lemma NoSecondJoin(queue: seq<Js>, id: string, joinLoading: bool)
    ensures JoinDisabled(true, joinLoading, Classify(true, AddToQueue(queue, id), id))
  {
    AddToQueueJoins(queue, id);
  }
}
