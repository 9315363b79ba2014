/** pages/Mod: the moderation table, with the status transitions a moderator may apply. */
module Mod {
  import opened JsValues
  import opened Text
  import opened Records
  import DebateStatusBadge

  const Open := 1
  const InReview := 2
  const Approved := 3
  const Rejected := 4
  const Closed := 5

  /** `statusLabel`: the five statuses by name, anything else as `String(status)`. */
  function StatusLabel(status: Js): (r: string)
    ensures status == Num(Open) ==> r == "Open"
    ensures status == Num(InReview) ==> r == "In Review"
    ensures status == Num(Approved) ==> r == "Approved"
    ensures status == Num(Rejected) ==> r == "Rejected"
    ensures status == Num(Closed) ==> r == "Closed"
    ensures !DebateStatusBadge.IsKnownStatus(status) ==> r == ToStr(status)
  {
    match status
    case Num(1) => "Open"
    case Num(2) => "In Review"
    case Num(3) => "Approved"
    case Num(4) => "Rejected"
    case Num(5) => "Closed"
    case _ => ToStr(status)
  }

  /** The table's label and the badge's agree up to letter case on every known status; they
      differ only for status 2, written "In Review" here and "In review" on the badge. */
  lemma LabelMatchesBadgeUpToCase(status: Js)
    requires DebateStatusBadge.IsKnownStatus(status)
    ensures Lower(StatusLabel(status)) == Lower(DebateStatusBadge.StatusBadge(status).text)
    ensures StatusLabel(status) == DebateStatusBadge.StatusBadge(status).text <==> status != Num(InReview)
  {
    if status == Num(InReview) {
      assert StatusLabel(status)[3] != DebateStatusBadge.StatusBadge(status).text[3];
      assert Lower("In Review") == "in review" by {
        assert forall i :: 0 <= i < 9 ==> Lower("In Review")[i] == LowerChar("In Review"[i]);
      }
      assert Lower("In review") == "in review" by {
        assert forall i :: 0 <= i < 9 ==> Lower("In review")[i] == LowerChar("In review"[i]);
      }
    }
  }

  /** The target statuses offered for a row. */
  function Actions(status: Js): (r: seq<int>)
    ensures status == Num(Open) ==> r == [InReview]
    ensures status == Num(InReview) ==> r == [Approved, Rejected]
    ensures status != Num(Open) && status != Num(InReview) ==> r == []
  {
    if status == Num(Open) then [InReview]
    else if status == Num(InReview) then [Approved, Rejected]
    else []
  }

  /** No action ever moves a debate back to Open or on to Closed, and every action moves it
      forward. */
  lemma ActionsMoveForward(status: Js)
    ensures forall t :: t in Actions(status) ==> t != Open && t != Closed
    ensures forall t :: t in Actions(status) ==> status.Num? && status.n < t
  {
  }

  /** `busyId === d.id`: a row's buttons are off while an action runs on that row. */
  predicate RowDisabled(busyId: Js, row: DebateRow) {
    busyId == row.id
  }

  /** While an action runs on one row of a list whose ids are distinct, that row's buttons
      and no other's are off; with no action running, no row with an id is off. */
  lemma BusyDisablesOneRow(items: seq<DebateRow>, k: nat)
    requires k < |items|
    requires forall i, j :: 0 <= i < j < |items| ==> items[i].id != items[j].id
    ensures forall i :: 0 <= i < |items| ==> (RowDisabled(items[k].id, items[i]) <==> i == k)
    ensures forall i :: 0 <= i < |items| && items[i].id != Null ==> !RowDisabled(Null, items[i])
  {
    forall i | 0 <= i < |items| && i != k
      ensures !RowDisabled(items[k].id, items[i])
    {
      if i < k { assert items[i].id != items[k].id; } else { assert items[k].id != items[i].id; }
    }
  }

  class ModPage {
    var items: seq<DebateRow>
    var loading: bool
    var error: Option<string>
    var actionError: Option<string>
    var actionMessage: Option<string>
    var busyId: Js

    constructor ()
      ensures items == [] && loading && error == None && actionError == None && actionMessage == None && busyId == Null
    {
      items := [];
      loading := true;
      error := None;
      actionError := None;
      actionMessage := None;
      busyId := Null;
    }

    method BeginLoad()
      modifies this
      ensures loading && error == None
      ensures items == old(items) && actionError == old(actionError) && actionMessage == old(actionMessage) && busyId == old(busyId)
    {
      loading := true;
      error := None;
    }

    method CompleteLoad(result: Throws<seq<DebateRow>>)
      modifies this
      ensures !loading
      ensures result.Returned? ==> items == result.value && error == old(error)
      ensures result.Threw? ==> items == old(items) && error == Some(result.message)
      ensures actionError == old(actionError) && actionMessage == old(actionMessage) && busyId == old(busyId)
    {
      if result.Returned? {
        items := result.value;
      } else {
        error := Some(result.message);
      }
      loading := false;
    }

    /** The synchronous half of `handleAction`: both banners go and the row turns busy. */
    method BeginAction(debateId: Js, newStatus: int) returns (request: (Js, int))
      modifies this
      ensures busyId == debateId && actionError == None && actionMessage == None
      ensures items == old(items) && loading == old(loading) && error == old(error)
      ensures request == (debateId, newStatus)
    {
      actionError := None;
      actionMessage := None;
      busyId := debateId;
      request := (debateId, newStatus);
    }

    /** The rest of `handleAction`: on success the confirmation is set and the list is
        reloaded with `reload`; on failure the message is shown. No row is busy afterwards. */
    method CompleteAction(outcome: Throws<()>, reload: Throws<seq<DebateRow>>)
      modifies this
      ensures busyId == Null
      ensures outcome.Returned? ==> !loading
      ensures outcome.Returned? ==> actionMessage == Some("Operazione completata") && actionError == old(actionError)
      ensures outcome.Returned? && reload.Returned? ==> items == reload.value && error == None
      ensures outcome.Returned? && reload.Threw? ==> items == old(items) && error == Some(reload.message)
      ensures outcome.Threw? ==> actionError == Some(outcome.message) && actionMessage == old(actionMessage)
      ensures outcome.Threw? ==> items == old(items) && loading == old(loading) && error == old(error)
    {
      if outcome.Returned? {
        actionMessage := Some("Operazione completata");
        BeginLoad();
        CompleteLoad(reload);
      } else {
        actionError := Some(outcome.message);
      }
      busyId := Null;
    }
  }
}
