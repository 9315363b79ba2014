/** The records the remote API returns, as the pages read them. Fields the pages never
    inspect are left out; a field that may be `null` or missing is an `Option`, an
    identifier (compared with `===` or through `String(...)`) a `Js` value. */
module Records {
  import opened JsValues

  /** A match in a list: my matches, public matches, results. `createdAt` is the timestamp
      `new Date(createdAt).getTime()` of a present `createdAt`. */
  datatype MatchSummary = MatchSummary(
    id: Js,
    debateId: Js,
    debateTitle: Option<string>,
    phase: Option<int>,
    createdAt: Option<int>,
    totalVotes: Option<int>,
    isDraw: bool,
    winnerUsername: Option<string>)

  /** `m.createdAt ? new Date(m.createdAt).getTime() : 0` */
  function CreatedTime(m: MatchSummary): int {
    if m.createdAt.Some? then m.createdAt.value else 0
  }

  /** One side's submission for a round. */
  datatype Submission = Submission(userId: Js, body: Option<string>)

  /** A single match, as `GET /api/Matches/{id}` returns it. */
  datatype MatchRecord = MatchRecord(
    id: Js,
    debateId: Js,
    proUserId: Js,
    controUserId: Js,
    phase: Option<int>,
    openingSubmissions: Option<seq<Submission>>,
    rebuttalSubmissions: Option<seq<Submission>>,
    isDraw: bool,
    winnerUsername: Option<string>)

  /** An entry of the signed-in user's matchmaking queue. */
  datatype QueueEntry = QueueEntry(debateId: Js)

  /** A debate in the moderation list. */
  datatype DebateRow = DebateRow(id: Js, status: Js)

  /** A phase as the badge and label helpers receive it: `null` when absent. */
  function PhaseValue(phase: Option<int>): Js {
    if phase.Some? then Num(phase.value) else Null
  }
}
