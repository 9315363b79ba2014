/** pages/PublicMatchDetails: a match as the public sees it, with the vote panel. */
module PublicMatchDetails {
  import opened JsValues
  import opened Text
  import opened Records

  /** The viewer takes part in the match: there is a match and a truthy user id, and the id
      is one of the two sides' (`===`). */
  function IsParticipant(m: Option<MatchRecord>, myUserId: Js): (b: bool)
    ensures !Truthy(myUserId) || m.None? ==> !b
    ensures m.Some? && Truthy(myUserId) ==> (b <==> myUserId in {m.value.proUserId, m.value.controUserId})
  {
    if m.None? || !Truthy(myUserId) then false
    else m.value.proUserId == myUserId || m.value.controUserId == myUserId
  }

  /** The index of the first submission by `userId`, or `|subs|` when there is none. */
  function FirstBy(subs: seq<Submission>, userId: Js): (k: nat)
    ensures k <= |subs|
    ensures forall j :: 0 <= j < k ==> subs[j].userId != userId
    ensures k < |subs| ==> subs[k].userId == userId
  {
    if subs == [] then 0
    else if subs[0].userId == userId then 0
    else 1 + FirstBy(subs[1..], userId)
  }

  /** `findBodyByUserId(arr, userId)`: the body of the first submission by that user; `null`
      without a list, without a user id, or without a submission by the user. */
  function FindBodyByUserId(arr: Option<seq<Submission>>, userId: Js): (r: Option<string>)
    ensures arr.None? || !Truthy(userId) ==> r == None
    ensures arr.Some? && Truthy(userId) && (forall i :: 0 <= i < |arr.value| ==> arr.value[i].userId != userId) ==> r == None
    ensures r.Some? ==> arr.Some? && exists i :: 0 <= i < |arr.value| && arr.value[i].userId == userId && arr.value[i].body == r
    ensures arr.Some? && Truthy(userId) ==>
      forall i :: 0 <= i < |arr.value| && arr.value[i].userId == userId && (forall j :: 0 <= j < i ==> arr.value[j].userId != userId)
        ==> r == arr.value[i].body
  {
    if arr.None? || !Truthy(userId) then None
    else
      var k := FirstBy(arr.value, userId);
      if k < |arr.value| then arr.value[k].body else None
  }

  /** The four texts the page shows: each side's text in each round. */
  datatype RoundTexts = RoundTexts(proOpening: Option<string>, controOpening: Option<string>,
                                   proRebuttal: Option<string>, controRebuttal: Option<string>)

  /** `proOpening`, `controOpening`, `proRebuttal`, `controRebuttal`: each side's user looked up
      in that round's list. */
  function Texts(m: Option<MatchRecord>): (t: RoundTexts)
    ensures m.None? ==> t == RoundTexts(None, None, None, None)
    ensures m.Some? ==> t.proOpening == FindBodyByUserId(m.value.openingSubmissions, m.value.proUserId)
    ensures m.Some? ==> t.controOpening == FindBodyByUserId(m.value.openingSubmissions, m.value.controUserId)
    ensures m.Some? ==> t.proRebuttal == FindBodyByUserId(m.value.rebuttalSubmissions, m.value.proUserId)
    ensures m.Some? ==> t.controRebuttal == FindBodyByUserId(m.value.rebuttalSubmissions, m.value.controUserId)
  {
    match m
    case None => RoundTexts(None, None, None, None)
    case Some(r) =>
      RoundTexts(FindBodyByUserId(r.openingSubmissions, r.proUserId), FindBodyByUserId(r.openingSubmissions, r.controUserId),
                 FindBodyByUserId(r.rebuttalSubmissions, r.proUserId), FindBodyByUserId(r.rebuttalSubmissions, r.controUserId))
  }

  /** `text` is what a round shows for `userId`: with a list and a truthy user id, the body of
      the user's first submission in it, and null when the user submitted nothing there. */
  ghost predicate FirstBodyShown(arr: Option<seq<Submission>>, userId: Js, text: Option<string>) {
    arr.Some? && Truthy(userId) ==>
      ((forall i :: 0 <= i < |arr.value| ==> arr.value[i].userId != userId) ==> text == None) &&
      (forall i :: 0 <= i < |arr.value| && arr.value[i].userId == userId && (forall j :: 0 <= j < i ==> arr.value[j].userId != userId)
         ==> text == arr.value[i].body)
  }

  /** Every text shown is attributed correctly: it was submitted in that round by the user on
      that side, it is that user's first submission there, and a side with no submission in a
      round shows nothing for it. */
  lemma TextsAreAttributed(m: MatchRecord)
    ensures var t := Texts(Some(m));
      FirstBodyShown(m.openingSubmissions, m.proUserId, t.proOpening) &&
      FirstBodyShown(m.openingSubmissions, m.controUserId, t.controOpening) &&
      FirstBodyShown(m.rebuttalSubmissions, m.proUserId, t.proRebuttal) &&
      FirstBodyShown(m.rebuttalSubmissions, m.controUserId, t.controRebuttal)
    ensures var t := Texts(Some(m));
      (t.proOpening.Some? ==> exists i :: 0 <= i < |m.openingSubmissions.value| && m.openingSubmissions.value[i] == Submission(m.proUserId, t.proOpening)) &&
      (t.controOpening.Some? ==> exists i :: 0 <= i < |m.openingSubmissions.value| && m.openingSubmissions.value[i] == Submission(m.controUserId, t.controOpening)) &&
      (t.proRebuttal.Some? ==> exists i :: 0 <= i < |m.rebuttalSubmissions.value| && m.rebuttalSubmissions.value[i] == Submission(m.proUserId, t.proRebuttal)) &&
      (t.controRebuttal.Some? ==> exists i :: 0 <= i < |m.rebuttalSubmissions.value| && m.rebuttalSubmissions.value[i] == Submission(m.controUserId, t.controRebuttal))
  {
  }

  /** Each round's texts come from that round's list only: replacing the rebuttals leaves the
      opening texts alone, and the other way round. */
  lemma RoundsAreSeparate(m: MatchRecord, opening: Option<seq<Submission>>, rebuttal: Option<seq<Submission>>)
    ensures Texts(Some(m.(rebuttalSubmissions := rebuttal))).proOpening == Texts(Some(m)).proOpening
    ensures Texts(Some(m.(rebuttalSubmissions := rebuttal))).controOpening == Texts(Some(m)).controOpening
    ensures Texts(Some(m.(openingSubmissions := opening))).proRebuttal == Texts(Some(m)).proRebuttal
    ensures Texts(Some(m.(openingSubmissions := opening))).controRebuttal == Texts(Some(m)).controRebuttal
  {
  }

  const WrongPhaseMessage := "Questo match non è in fase di votazione."
  const LoginToVoteMessage := "Devi fare login per votare."
  const ParticipantMessage := "Non puoi votare un match a cui partecipi."
  const VoteRegisteredMessage := "Voto registrato "

  /** `voteStateMessage`: why the viewer cannot vote, checked in the order phase, sign-in,
      participation; `null` (the vote buttons) when nothing stands in the way. */
  function VoteStateMessage(phase: Option<int>, isAuthenticated: bool, isParticipant: bool): (r: Option<string>)
    ensures phase != Some(3) ==> r == Some(WrongPhaseMessage)
    ensures phase == Some(3) && !isAuthenticated ==> r == Some(LoginToVoteMessage)
    ensures phase == Some(3) && isAuthenticated && isParticipant ==> r == Some(ParticipantMessage)
    ensures r.None? <==> phase == Some(3) && isAuthenticated && !isParticipant
  {
    if phase != Some(3) then Some(WrongPhaseMessage)
    else if !isAuthenticated then Some(LoginToVoteMessage)
    else if isParticipant then Some(ParticipantMessage)
    else None
  }

  /** The vote buttons are offered exactly to a signed-in non-participant during voting; a
      signed-out viewer whose stale user id names a side still gets the sign-in message. */
  lemma VoteButtonsIff(m: MatchRecord, isAuthenticated: bool, myUserId: Js)
    ensures VoteStateMessage(m.phase, isAuthenticated, IsParticipant(Some(m), myUserId)).None? <==>
      m.phase == Some(3) && isAuthenticated && !(Truthy(myUserId) && (myUserId == m.proUserId || myUserId == m.controUserId))
    ensures m.phase == Some(3) && !isAuthenticated ==>
      VoteStateMessage(m.phase, isAuthenticated, IsParticipant(Some(m), myUserId)) == Some(LoginToVoteMessage)
  {
  }

  /** The vote error banner, chosen from the error's message. */
  function VoteErrorText(msg: string): (r: string)
    ensures Includes(msg, "401") ==> r == LoginToVoteMessage
    ensures !Includes(msg, "401") && Includes(msg, "403") ==> r == ParticipantMessage
    ensures !Includes(msg, "401") && !Includes(msg, "403") && Includes(msg, "409") ==> r == "Hai già votato per questo match."
    ensures !Includes(msg, "401") && !Includes(msg, "403") && !Includes(msg, "409") ==> r == msg
  {
    if Includes(msg, "401") then LoginToVoteMessage
    else if Includes(msg, "403") then ParticipantMessage
    else if Includes(msg, "409") then "Hai già votato per questo match."
    else msg
  }

  /** The closed banner: only for phase 4, the draw text or the winner (a dash when there is
      none). */
  function ClosedBanner(m: MatchRecord): (r: Option<string>)
    ensures r.Some? <==> m.phase == Some(4)
    ensures r.Some? && m.isDraw ==> r.value == "Match chiuso: pareggio."
    ensures r.Some? && !m.isDraw && m.winnerUsername.Some? ==> r.value == "Match chiuso: vince " + m.winnerUsername.value + "."
    ensures r.Some? && !m.isDraw && m.winnerUsername.None? ==> r.value == "Match chiuso: vince —."
  {
    if m.phase != Some(4) then None
    else if m.isDraw then Some("Match chiuso: pareggio.")
    else Some("Match chiuso: vince " + (if m.winnerUsername.Some? then m.winnerUsername.value else "—") + ".")
  }

  class PublicMatchDetailsPage {
    const id: string
    const token: Js
    const myUserId: Js
    var current: Option<MatchRecord>
    var debateTitle: Js
    var debateBody: Js
    var loading: bool
    var error: Option<string>
    var voteError: Option<string>
    var voteMessage: Option<string>
    var voting: bool

    constructor (id: string, token: Js, myUserId: Js)
      ensures this.id == id && this.token == token && this.myUserId == myUserId
      ensures current == None && debateTitle == Null && debateBody == Null && loading && error == None
      ensures voteError == None && voteMessage == None && !voting
    {
      this.id := id;
      this.token := token;
      this.myUserId := myUserId;
      current := None;
      debateTitle := Null;
      debateBody := Null;
      loading := true;
      error := None;
      voteError := None;
      voteMessage := None;
      voting := false;
    }

    /** The vote panel's message for the current state. */
    function VoteState(): Option<string>
      reads this
    {
      VoteStateMessage(if current.Some? then current.value.phase else None, Truthy(token), IsParticipant(current, myUserId))
    }

    /** The start of `load`: spinner on, the page error and both vote banners cleared. */
    method BeginLoad()
      modifies this
      ensures loading && error == None && voteError == None && voteMessage == None
      ensures current == old(current) && debateTitle == old(debateTitle) && debateBody == old(debateBody) && voting == old(voting)
    {
      loading := true;
      error := None;
      voteError := None;
      voteMessage := None;
    }

    /** The rest of `load` once the current and then its debate have been fetched. A failed
        debate fetch (or a `null` current, whose debate cannot be asked for) blanks the title
        and description but keeps the current. */
    method CompleteLoad(matchResult: Throws<Option<MatchRecord>>, debateResult: Throws<Js>)
      modifies this
      ensures !loading && voteError == old(voteError) && voteMessage == old(voteMessage) && voting == old(voting)
      ensures matchResult.Threw? ==>
        error == Some(matchResult.message) && current == old(current) && debateTitle == old(debateTitle) && debateBody == old(debateBody)
      ensures matchResult.Returned? ==> error == old(error) && current == matchResult.value
      ensures matchResult.Returned? && matchResult.value.Some? && debateResult.Returned? ==>
        debateTitle == Coalesce(Get(debateResult.value, "title"), Null) && debateBody == Coalesce(Get(debateResult.value, "body"), Null)
      ensures matchResult.Returned? && (matchResult.value.None? || debateResult.Threw?) ==> debateTitle == Null && debateBody == Null
    {
      if matchResult.Threw? {
        error := Some(matchResult.message);
      } else {
        current := matchResult.value;
        if matchResult.value.Some? && debateResult.Returned? {
          debateTitle := Coalesce(Get(debateResult.value, "title"), Null);
          debateBody := Coalesce(Get(debateResult.value, "body"), Null);
        } else {
          debateTitle := Null;
          debateBody := Null;
        }
      }
      loading := false;
    }

    /** The synchronous half of `handleVote(value)`: both banners cleared, voting on. */
    method BeginVote(value: int) returns (request: (string, int))
      modifies this
      ensures voting && voteError == None && voteMessage == None && request == (id, value)
      ensures current == old(current) && loading == old(loading) && error == old(error)
      ensures debateTitle == old(debateTitle) && debateBody == old(debateBody)
    {
      voteError := None;
      voteMessage := None;
      voting := true;
      request := (id, value);
    }

    /** The rest of `handleVote` as written: on success the confirmation is set and the page
        reloads with `reload`; the reload's first step clears the vote banners, so the
        confirmation never survives. */
    method CompleteVoteAsWritten(outcome: Throws<()>, reload: (Throws<Option<MatchRecord>>, Throws<Js>))
      modifies this
      ensures !voting
      ensures outcome.Returned? ==> !loading && voteMessage == None && voteError == None
      ensures outcome.Returned? && reload.0.Returned? ==> current == reload.0.value && error == None
      ensures outcome.Returned? && reload.0.Threw? ==> current == old(current) && error == Some(reload.0.message)
      ensures outcome.Returned? && reload.0.Threw? ==> debateTitle == old(debateTitle) && debateBody == old(debateBody)
      ensures outcome.Returned? && reload.0.Returned? && reload.0.value.Some? && reload.1.Returned? ==>
        debateTitle == Coalesce(Get(reload.1.value, "title"), Null) && debateBody == Coalesce(Get(reload.1.value, "body"), Null)
      ensures outcome.Returned? && reload.0.Returned? && (reload.0.value.None? || reload.1.Threw?) ==>
        debateTitle == Null && debateBody == Null
      ensures outcome.Threw? ==>
        voteError == Some(VoteErrorText(outcome.message)) && voteMessage == old(voteMessage) && current == old(current)
      ensures outcome.Threw? ==>
        loading == old(loading) && error == old(error) && debateTitle == old(debateTitle) && debateBody == old(debateBody)
    {
      if outcome.Returned? {
        voteMessage := Some(VoteRegisteredMessage);
        BeginLoad();
        CompleteLoad(reload.0, reload.1);
      } else {
        voteError := Some(VoteErrorText(outcome.message));
      }
      voting := false;
    }

    /** The rest of `handleVote` with the evident intent: refresh the counts, then confirm the
        vote, so the confirmation is what the viewer sees. */
    method CompleteVote(outcome: Throws<()>, reload: (Throws<Option<MatchRecord>>, Throws<Js>))
      modifies this
      ensures !voting
      ensures outcome.Returned? ==> !loading && voteMessage == Some(VoteRegisteredMessage) && voteError == None
      ensures outcome.Returned? && reload.0.Returned? ==> current == reload.0.value && error == None
      ensures outcome.Returned? && reload.0.Threw? ==> current == old(current) && error == Some(reload.0.message)
      ensures outcome.Returned? && reload.0.Threw? ==> debateTitle == old(debateTitle) && debateBody == old(debateBody)
      ensures outcome.Returned? && reload.0.Returned? && reload.0.value.Some? && reload.1.Returned? ==>
        debateTitle == Coalesce(Get(reload.1.value, "title"), Null) && debateBody == Coalesce(Get(reload.1.value, "body"), Null)
      ensures outcome.Returned? && reload.0.Returned? && (reload.0.value.None? || reload.1.Threw?) ==>
        debateTitle == Null && debateBody == Null
      ensures outcome.Threw? ==>
        voteError == Some(VoteErrorText(outcome.message)) && voteMessage == old(voteMessage) && current == old(current)
      ensures outcome.Threw? ==>
        loading == old(loading) && error == old(error) && debateTitle == old(debateTitle) && debateBody == old(debateBody)
    {
      if outcome.Returned? {
        BeginLoad();
        CompleteLoad(reload.0, reload.1);
        voteMessage := Some(VoteRegisteredMessage);
      } else {
        voteError := Some(VoteErrorText(outcome.message));
      }
      voting := false;
    }
  }
}
