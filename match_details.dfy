/** pages/MatchDetails: a match as its participants see it, with the phase-gated editors,
    the vote panel and the closed notice. */
module MatchDetails {
  import opened JsValues
  import opened Text
  import opened Records
  import PublicMatchDetails

  /** The sections gated on the phase. */
  datatype Section = OpeningEditor | RebuttalEditor | VotingPanel | ClosedNotice

  /** Each section is written as its own `match.phase === k && ...` condition. Neither editor
      checks whether the viewer takes part. */
  function Sections(phase: Option<int>): (r: set<Section>)
    ensures OpeningEditor in r <==> phase == Some(1)
    ensures RebuttalEditor in r <==> phase == Some(2)
    ensures VotingPanel in r <==> phase == Some(3)
    ensures ClosedNotice in r <==> phase == Some(4)
  {
    (if phase == Some(1) then {OpeningEditor} else {}) + (if phase == Some(2) then {RebuttalEditor} else {})
    + (if phase == Some(3) then {VotingPanel} else {}) + (if phase == Some(4) then {ClosedNotice} else {})
  }

  /** Whatever the phase, at most one section shows, and none outside phases 1 to 4. */
  lemma {:induction false} AtMostOneSection(phase: Option<int>)
    ensures |Sections(phase)| <= 1
    ensures Sections(phase) == {} <==> !(phase.Some? && 1 <= phase.value <= 4)
  {
    var r := Sections(phase);
    if phase == Some(1) { assert r == {OpeningEditor}; }
    else if phase == Some(2) { assert r == {RebuttalEditor}; }
    else if phase == Some(3) { assert r == {VotingPanel}; }
    else if phase == Some(4) { assert r == {ClosedNotice}; }
    else {
      assert forall s :: s !in r;
      assert r == {};
    }
  }

  /** The inside of the voting section: the refusal for a participant, the buttons for
      anyone else, signed in or not. */
  datatype VoteArea = Refusal(text: string) | VoteButtons

  function VotingArea(isParticipant: bool): (a: VoteArea)
    ensures a.Refusal? <==> isParticipant
    ensures a.Refusal? ==> a.text == PublicMatchDetails.ParticipantMessage
  {
    if isParticipant then Refusal(PublicMatchDetails.ParticipantMessage) else VoteButtons
  }

  /** The closed notice: the draw text, or the winner put into the template as it is, so a
      winner held as `null` prints as "null". */
  function ClosedText(m: MatchRecord): (r: string)
    ensures m.isDraw ==> r == "Match chiuso: pareggio."
    ensures !m.isDraw && m.winnerUsername.Some? ==> r == "Match chiuso: vince " + m.winnerUsername.value + "."
    ensures !m.isDraw && m.winnerUsername.None? ==> r == "Match chiuso: vince null."
  {
    if m.isDraw then "Match chiuso: pareggio."
    else "Match chiuso: vince " + ToStr(if m.winnerUsername.Some? then Str(m.winnerUsername.value) else Null) + "."
  }

  /** The two pages agree on a closed match with a winner and part only on a missing one,
      where the public page shows a dash. */
  lemma ClosedTextAgreesWithPublicBanner(m: MatchRecord)
    requires m.phase == Some(4)
    ensures m.isDraw || m.winnerUsername.Some? ==> PublicMatchDetails.ClosedBanner(m) == Some(ClosedText(m))
    ensures !m.isDraw && m.winnerUsername.None? ==> PublicMatchDetails.ClosedBanner(m) != Some(ClosedText(m))
  {
    if !m.isDraw && m.winnerUsername.None? {
      var a, b := PublicMatchDetails.ClosedBanner(m).value, ClosedText(m);
      assert a[20] != b[20];
    }
  }

  /** A submissions list is printed only when it has at least one entry; otherwise the page
      says none is available. */
  function ShowsSubmissions(subs: Option<seq<Submission>>): (b: bool)
    ensures b <==> subs.Some? && |subs.value| > 0
  {
    subs.Some? && |subs.value| != 0
  }

  /** The vote error banner: a "403" means the viewer takes part; anything else is shown as
      it came. */
  function VoteErrorText(msg: string): (r: string)
    ensures Includes(msg, "403") ==> r == PublicMatchDetails.ParticipantMessage
    ensures !Includes(msg, "403") ==> r == msg
  {
    if Includes(msg, "403") then PublicMatchDetails.ParticipantMessage else msg
  }

  class MatchDetailsPage {
    const myUserId: Js
    var current: Option<MatchRecord>
    var voteError: Option<string>
    var voteMessage: Option<string>
    var voteLoading: bool

    constructor (myUserId: Js)
      ensures this.myUserId == myUserId && current == None
      ensures voteError == None && voteMessage == None && !voteLoading
    {
      this.myUserId := myUserId;
      current := None;
      voteError := None;
      voteMessage := None;
      voteLoading := false;
    }

    /** The start of the load effect: both vote banners are cleared. */
    method BeginLoad()
      modifies this
      ensures voteError == None && voteMessage == None
      ensures current == old(current) && voteLoading == old(voteLoading)
    {
      voteError := None;
      voteMessage := None;
    }

    /** The load effect once the match has been fetched: a failure keeps what was shown
        (the page then shows the error instead); the debate title is not modelled here. */
    method CompleteLoad(matchResult: Throws<Option<MatchRecord>>)
      modifies this
      ensures matchResult.Returned? ==> current == matchResult.value
      ensures matchResult.Threw? ==> current == old(current)
      ensures voteError == old(voteError) && voteMessage == old(voteMessage) && voteLoading == old(voteLoading)
    {
      if matchResult.Returned? {
        current := matchResult.value;
      }
    }

    function Participant(): bool
      reads this
    {
      PublicMatchDetails.IsParticipant(current, myUserId)
    }

    /** The synchronous half of `handleVote(value)`: nothing happens without a match;
        otherwise both banners are cleared and the vote goes out for the match's id. */
    method BeginVote(value: int) returns (request: Option<(Js, int)>)
      modifies this
      ensures current == old(current)
      ensures current.None? ==> request == None && voteError == old(voteError) && voteMessage == old(voteMessage) && voteLoading == old(voteLoading)
      ensures current.Some? ==> request == Some((current.value.id, value)) && voteError == None && voteMessage == None && voteLoading
    {
      if current.None? {
        return None;
      }
      voteError := None;
      voteMessage := None;
      voteLoading := true;
      return Some((current.value.id, value));
    }

    /** The rest of `handleVote` once the vote has settled. */
    method CompleteVote(outcome: Throws<()>)
      modifies this
      ensures !voteLoading && current == old(current)
      ensures outcome.Returned? ==> voteMessage == Some(PublicMatchDetails.VoteRegisteredMessage) && voteError == old(voteError)
      ensures outcome.Threw? ==> voteError == Some(VoteErrorText(outcome.message)) && voteMessage == old(voteMessage)
    {
      if outcome.Returned? {
        voteMessage := Some(PublicMatchDetails.VoteRegisteredMessage);
      } else {
        voteError := Some(VoteErrorText(outcome.message));
      }
      voteLoading := false;
    }
  }
}
