// Hiring decisions on an application: an append-only log under a lock version and idempotency
// keys, which may only cite a current, non-stale round analysis (hiring_decisions.py), and the
// other writers of the application's pipeline status (resumes.py, candidates.py).
module Hiring {
  import opened Common
  import opened Coverage
  import RoundAnalysis

  datatype Pipeline = PendingParse | PendingHrScreen | Interviewing | PendingOffer | Rejected | TalentPool

  datatype AppStatus = InProgress | ClosedRejected | Terminated | Transferred

  type ClosedStatus = status: AppStatus | status != InProgress witness ClosedRejected

  datatype Kind = RecommendHire | Reject | Hold

  // The catalog of reason codes; Unlisted is any other code.
  datatype Reason =
    | MeetsRoleBar
    | StrongRoundEvidence
    | HireOther
    | SkillGap
    | ExperienceInsufficient
    | CommunicationInsufficient
    | IncompleteOrWeakEvidence
    | RejectOther
    | NeedAnotherRound
    | NeedMoreEvidence
    | AwaitingStakeholder
    | HoldOther
    | Unlisted(code: string)

  // The one decision each listed reason may explain.
  function KindFor(reason: Reason): Option<Kind> {
    match reason
    case MeetsRoleBar | StrongRoundEvidence | HireOther => Some(RecommendHire)
    case SkillGap | ExperienceInsufficient | CommunicationInsufficient | IncompleteOrWeakEvidence | RejectOther => Some(Reject)
    case NeedAnotherRound | NeedMoreEvidence | AwaitingStakeholder | HoldOther => Some(Hold)
    case Unlisted(_) => None
  }

  datatype Decision = Decision(
    id: Id, kind: Kind, reason: Reason, roundId: Id, versionId: Id, overall: Option<real>, versionNo: nat,
    transcriptVersionId: Id, jobVersionId: Id, from: Pipeline, to: Pipeline, decidedBy: Id, key: Option<string>)

  // The columns of an application that decisions read and write.
  datatype Board = Board(pipeline: Pipeline, status: AppStatus, lock: int, decisions: seq<Decision>)

  datatype Error = Conflict | WrongState | Invalid | NotFound

  datatype Outcome = Outcome(board: Board, nextId: Id, reply: Result<Decision, Error>)

  datatype Payload = Payload(kind: Kind, reason: Reason, versionId: Id, lock: int, key: Option<string>)

  function TargetOf(kind: Kind): Pipeline {
    match kind
    case RecommendHire => PendingOffer
    case Reject => Rejected
    case Hold => Interviewing
  }

  function FindByKey(decisions: seq<Decision>, key: string): (r: Option<Decision>)
    ensures r.Some? ==> r.value in decisions && r.value.key == Some(key)
    ensures r.None? ==> forall d | d in decisions :: d.key != Some(key)
  {
    if decisions == [] then None
    else if decisions[0].key == Some(key) then Some(decisions[0])
    else FindByKey(decisions[1..], key)
  }

  // The round whose analysis holds the version of this id.
  function FindOwner(entries: seq<Entry>, versionId: Id): (r: Option<Entry>)
    ensures r.Some? ==> r.value in entries && RoundAnalysis.Find(r.value.analysis.versions, versionId).Some?
    ensures r.None? ==> forall e | e in entries :: RoundAnalysis.Find(e.analysis.versions, versionId).None?
  {
    if entries == [] then None
    else if RoundAnalysis.Find(entries[0].analysis.versions, versionId).Some? then Some(entries[0])
    else FindOwner(entries[1..], versionId)
  }

  function DecisionFor(nextId: Id, actor: Id, p: Payload, owner: Entry, version: RoundAnalysis.Version): Decision {
    Decision(nextId, p.kind, p.reason, owner.round.id, version.id, version.overall, version.no, version.transcriptVersionId,
             version.jobVersionId, Interviewing, TargetOf(p.kind), actor, p.key)
  }

  function Recorded(b: Board, d: Decision): Board {
    Board(d.to, if d.kind == Reject then ClosedRejected else b.status, b.lock + 1, b.decisions + [d])
  }

  // An empty key is not looked up, but it is stored and falls under the unique index.
  function Decide(b: Board, entries: seq<Entry>, nextId: Id, actor: Id, p: Payload): Outcome {
    var keyed := if p.key.Some? && p.key.value != "" then FindByKey(b.decisions, p.key.value) else None;
    var owner := FindOwner(entries, p.versionId);
    if keyed.Some? then Outcome(b, nextId, Ok(keyed.value))
    else if b.lock != p.lock then Outcome(b, nextId, Err(Conflict))
    else if b.status != InProgress || b.pipeline != Interviewing then Outcome(b, nextId, Err(WrongState))
    else if KindFor(p.reason) != Some(p.kind) then Outcome(b, nextId, Err(Invalid))
    else if owner.None? then Outcome(b, nextId, Err(NotFound))
    else
      var version := RoundAnalysis.Find(owner.value.analysis.versions, p.versionId).value;
      if owner.value.analysis.current != Some(version.id) then Outcome(b, nextId, Err(WrongState))
      else if RoundAnalysis.Stale(version.transcriptVersionId, Confirmed(owner.value)) then Outcome(b, nextId, Err(WrongState))
      else if p.key.Some? && FindByKey(b.decisions, p.key.value).Some? then Outcome(b, nextId, Err(Conflict))
      else
        var decision := DecisionFor(nextId, actor, p, owner.value, version);
        Outcome(Recorded(b, decision), nextId + 1, Ok(decision))
  }

  // ---------- the other writers ----------

  datatype Screening = EnterInterview | HoldScreening | RejectScreening | ToTalentPool

  function ScreenedTo(s: Screening): Pipeline {
    match s
    case EnterInterview => Interviewing
    case HoldScreening => PendingHrScreen
    case RejectScreening => Rejected
    case ToTalentPool => TalentPool
  }

  predicate Screenable(b: Board, lock: int) {
    && b.lock == lock
    && b.status == InProgress
    && b.pipeline !in {Rejected, TalentPool, PendingOffer}
  }

  // The writes of a screening that passed its checks on a row read with this lock version and
  // pipeline status. A column set to the value it was read with is left out of the update.
  function Screened(b: Board, readLock: int, from: Pipeline, s: Screening): Board {
    b.(pipeline := if ScreenedTo(s) == from then b.pipeline else ScreenedTo(s), lock := readLock + 1,
       status := match s
                 case RejectScreening => ClosedRejected
                 case ToTalentPool => Terminated
                 case _ => b.status)
  }

  // Read and write in one go.
  function Screen(b: Board, lock: int, s: Screening): Board {
    if Screenable(b, lock) then Screened(b, lock, b.pipeline, s) else b
  }

  // Confirming a resume moves a waiting application on.
  function ResumeConfirmed(b: Board): Board {
    if b.pipeline == PendingParse && b.status == InProgress then b.(pipeline := PendingHrScreen) else b
  }

  function Close(b: Board, status: ClosedStatus): Board {
    if b.status == InProgress then b.(status := status) else b
  }

  // ---------- the log ----------

  predicate IsFinal(d: Decision) {
    d.kind != Hold
  }

  // Holds, then at most one final decision.
  predicate HoldsThenFinal(decisions: seq<Decision>) {
    forall i | 0 <= i < |decisions| - 1 :: !IsFinal(decisions[i])
  }

  predicate KeysOnce(decisions: seq<Decision>) {
    forall i, j | 0 <= i < j < |decisions| && decisions[i].key.Some? :: decisions[i].key != decisions[j].key
  }

  predicate RowFits(d: Decision) {
    && KindFor(d.reason) == Some(d.kind)
    && d.from == Interviewing && d.to == TargetOf(d.kind)
  }

  predicate RowsOk(decisions: seq<Decision>) {
    KeysOnce(decisions) && forall i | 0 <= i < |decisions| :: RowFits(decisions[i])
  }

  predicate LogOk(b: Board) {
    && HoldsThenFinal(b.decisions)
    && RowsOk(b.decisions)
    && (b.decisions != [] && IsFinal(b.decisions[|b.decisions| - 1]) ==>
          b.pipeline == TargetOf(b.decisions[|b.decisions| - 1].kind))
  }

  lemma {:induction false} DecideKeepsRows(b: Board, entries: seq<Entry>, nextId: Id, actor: Id, p: Payload)
    requires RowsOk(b.decisions)
    ensures var later := Decide(b, entries, nextId, actor, p).board.decisions;
            RowsOk(later) && b.decisions <= later
  {
    var o := Decide(b, entries, nextId, actor, p);
    if o.board != b {
      var d := o.reply.value;
      forall i | 0 <= i < |b.decisions| && b.decisions[i].key.Some?
        ensures b.decisions[i].key != d.key
      {
        assert b.decisions[i] in b.decisions;
      }
    }
  }

  lemma {:induction false} DecideKeepsLog(b: Board, entries: seq<Entry>, nextId: Id, actor: Id, p: Payload)
    requires LogOk(b)
    ensures LogOk(Decide(b, entries, nextId, actor, p).board)
  {
    DecideKeepsRows(b, entries, nextId, actor, p);
  }

  lemma {:induction false} OthersKeepLog(b: Board, lock: int, s: Screening, status: ClosedStatus)
    requires LogOk(b)
    ensures LogOk(Screen(b, lock, s)) && LogOk(ResumeConfirmed(b)) && LogOk(Close(b, status))
  {
    if b.decisions != [] && IsFinal(b.decisions[|b.decisions| - 1]) {
      assert b.pipeline in {PendingOffer, Rejected};
    }
  }

  datatype Move =
    | DoDecide(entries: seq<Entry>, actor: Id, payload: Payload)
    | DoScreen(lock: int, screening: Screening)
    | DoConfirmResume
    | DoClose(closed: ClosedStatus)

  datatype State = State(board: Board, nextId: Id)

  function Apply(s: State, m: Move): State {
    match m
    case DoDecide(entries, actor, payload) =>
      var o := Decide(s.board, entries, s.nextId, actor, payload);
      State(o.board, o.nextId)
    case DoScreen(lock, screening) => State(Screen(s.board, lock, screening), s.nextId)
    case DoConfirmResume => State(ResumeConfirmed(s.board), s.nextId)
    case DoClose(closed) => State(Close(s.board, closed), s.nextId)
  }

  function Exec(s: State, moves: seq<Move>): State {
    if moves == [] then s
    else Apply(Exec(s, moves[..|moves| - 1]), moves[|moves| - 1])
  }

  lemma {:induction false} MoveKeepsLog(s: State, m: Move)
    requires LogOk(s.board)
    ensures LogOk(Apply(s, m).board) && s.board.decisions <= Apply(s, m).board.decisions
  {
    match m
    case DoDecide(entries, actor, payload) => DecideKeepsLog(s.board, entries, s.nextId, actor, payload);
    case DoScreen(lock, screening) => OthersKeepLog(s.board, lock, screening, Terminated);
    case DoConfirmResume => OthersKeepLog(s.board, 0, EnterInterview, Terminated);
    case DoClose(closed) => OthersKeepLog(s.board, 0, EnterInterview, closed);
  }

  // Over every run in which screenings are atomic, the log is a run of holds followed by at most
  // one rejection or recommendation, every row fits its decision, no key is used twice, and the
  // rows already written stay.
  lemma {:induction false} LogStaysInShape(s: State, moves: seq<Move>)
    requires LogOk(s.board)
    ensures LogOk(Exec(s, moves).board)
    ensures s.board.decisions <= Exec(s, moves).board.decisions
  {
    if moves != [] {
      LogStaysInShape(s, moves[..|moves| - 1]);
      MoveKeepsLog(Exec(s, moves[..|moves| - 1]), moves[|moves| - 1]);
    }
  }

  // After a final decision every later attempt is a replay or fails: the log is closed for good.
  lemma {:induction false} FinalIsFinal(s: State, moves: seq<Move>)
    requires LogOk(s.board) && s.board.decisions != [] && IsFinal(s.board.decisions[|s.board.decisions| - 1])
    ensures Exec(s, moves).board.decisions == s.board.decisions
  {
    LogStaysInShape(s, moves);
    var n, later := |s.board.decisions|, Exec(s, moves).board.decisions;
    assert later[n - 1] == s.board.decisions[n - 1] && IsFinal(later[n - 1]);
    assert later[..n] == s.board.decisions;
  }

  // The citation behind a new row: the round of the application whose current analysis is the
  // cited version, which was made from the transcript confirmed at that moment.
  ghost predicate Cites(entries: seq<Entry>, d: Decision, e: Entry, v: RoundAnalysis.Version) {
    && e in entries && e.round.id == d.roundId
    && e.analysis.current == Some(d.versionId)
    && RoundAnalysis.Find(e.analysis.versions, d.versionId) == Some(v)
    && Confirmed(e) == Some(v.transcriptVersionId)
    && d.overall == v.overall && d.versionNo == v.no && d.transcriptVersionId == v.transcriptVersionId
    && d.jobVersionId == v.jobVersionId
  }

  // What a new row records of the call, and where each kind of decision leaves the application.
  predicate Records(d: Decision, nextId: Id, actor: Id, p: Payload) {
    && d.id == nextId && d.decidedBy == actor
    && d.kind == p.kind && d.reason == p.reason && d.versionId == p.versionId && d.key == p.key
    && d.from == Interviewing
  }

  predicate LeadsTo(kind: Kind, to: Pipeline, status: AppStatus) {
    && (kind == RecommendHire ==> to == PendingOffer && status == InProgress)
    && (kind == Reject ==> to == Rejected && status == ClosedRejected)
    && (kind == Hold ==> to == Interviewing && status == InProgress)
  }

  predicate Explains(reason: Reason, kind: Kind) {
    && (kind == RecommendHire ==> reason == MeetsRoleBar || reason == StrongRoundEvidence || reason == HireOther)
    && (kind == Reject ==> reason == SkillGap || reason == ExperienceInsufficient || reason == CommunicationInsufficient
                           || reason == IncompleteOrWeakEvidence || reason == RejectOther)
    && (kind == Hold ==> reason == NeedAnotherRound || reason == NeedMoreEvidence || reason == AwaitingStakeholder
                         || reason == HoldOther)
  }

  lemma {:induction false} ExplainsIff(reason: Reason, kind: Kind)
    ensures KindFor(reason) == Some(kind) <==> Explains(reason, kind)
  {
  }

  // A call adds at most one row. A new row raises the lock version by exactly one, moves the
  // application as its decision says, and cites a current, non-stale analysis; a call under a key
  // already in the log adds nothing and answers with that row, whatever its payload says.
  lemma {:induction false} DecideEffect(b: Board, entries: seq<Entry>, nextId: Id, actor: Id, p: Payload)
    ensures var o := Decide(b, entries, nextId, actor, p);
            || (o.board == b && o.nextId == nextId)
            || (&& o.reply.Ok? && o.nextId == nextId + 1
                && o.board.decisions == b.decisions + [o.reply.value]
                && o.board.lock == b.lock + 1 == p.lock + 1
                && Records(o.reply.value, nextId, actor, p)
                && LeadsTo(p.kind, o.board.pipeline, o.board.status) && o.reply.value.to == o.board.pipeline
                && Explains(p.reason, p.kind)
                && exists e, v :: Cites(entries, o.reply.value, e, v))
    ensures p.key.Some? && p.key.value != "" && FindByKey(b.decisions, p.key.value).Some? ==>
              Decide(b, entries, nextId, actor, p) == Outcome(b, nextId, Ok(FindByKey(b.decisions, p.key.value).value))
  {
    var o := Decide(b, entries, nextId, actor, p);
    ExplainsIff(p.reason, p.kind);
    if o.board != b || o.nextId != nextId {
      var owner := FindOwner(entries, p.versionId).value;
      var version := RoundAnalysis.Find(owner.analysis.versions, p.versionId).value;
      assert Cites(entries, o.reply.value, owner, version);
    }
  }

  // A version that a decision may cite: current, and made from the confirmed transcript.
  predicate Citable(entries: seq<Entry>, versionId: Id) {
    var owner := FindOwner(entries, versionId);
    && owner.Some?
    && owner.value.analysis.current == Some(versionId)
    && Confirmed(owner.value) == Some(RoundAnalysis.Find(owner.value.analysis.versions, versionId).value.transcriptVersionId)
  }

  // A decision under an unused key goes through exactly under the current lock version, on an open
  // interviewing application, with a reason that explains its kind, and citing such a version.
  lemma {:induction false} DecideSucceedsIff(b: Board, entries: seq<Entry>, nextId: Id, actor: Id, p: Payload)
    requires p.key.Some? ==> FindByKey(b.decisions, p.key.value).None?
    ensures Decide(b, entries, nextId, actor, p).reply.Ok? <==>
            && b.lock == p.lock
            && b.status == InProgress && b.pipeline == Interviewing
            && Explains(p.reason, p.kind)
            && Citable(entries, p.versionId)
  {
    ExplainsIff(p.reason, p.kind);
  }

  // An empty key is not a key: a second decision under it is no replay but refused, whatever it says.
  lemma {:induction false} EmptyKeyIsNoReplay(b: Board, entries: seq<Entry>, nextId: Id, actor: Id, p: Payload)
    requires p.key == Some("") && FindByKey(b.decisions, "").Some?
    ensures Decide(b, entries, nextId, actor, p).reply.Err?
    ensures Decide(b, entries, nextId, actor, p).board == b && Decide(b, entries, nextId, actor, p).nextId == nextId
  {
  }

  // A screening passes exactly under the current lock version on an open application that was not
  // rejected, put in the talent pool, or recommended; it raises the lock version, moves the
  // application as its choice says, and closes it on a rejection or for the talent pool.
  lemma {:induction false} ScreeningEffect(b: Board, lock: int, s: Screening)
    ensures var passes := b.lock == lock && b.status == InProgress && b.pipeline != Rejected && b.pipeline != TalentPool
                          && b.pipeline != PendingOffer;
            var after := Screen(b, lock, s);
            && (!passes ==> after == b)
            && (passes ==>
                  && after.lock == b.lock + 1 && after.decisions == b.decisions
                  && (s == EnterInterview ==> after.pipeline == Interviewing && after.status == InProgress)
                  && (s == HoldScreening ==> after.pipeline == PendingHrScreen && after.status == InProgress)
                  && (s == RejectScreening ==> after.pipeline == Rejected && after.status == ClosedRejected)
                  && (s == ToTalentPool ==> after.pipeline == TalentPool && after.status == Terminated))
  {
  }

  // A keyed decision replayed at any later time, with whatever payload, answers with its own row
  // and changes nothing.
  lemma {:induction false} ReplayedDecision(s: State, entries: seq<Entry>, actor: Id, p: Payload, moves: seq<Move>,
                                            laterEntries: seq<Entry>, laterActor: Id, replay: Payload)
    requires LogOk(s.board) && p.key.Some? && p.key.value != "" && replay.key == p.key
    requires Decide(s.board, entries, s.nextId, actor, p).reply.Ok?
    ensures var first := Decide(s.board, entries, s.nextId, actor, p);
            var later := Exec(State(first.board, first.nextId), moves);
            Decide(later.board, laterEntries, later.nextId, laterActor, replay) == Outcome(later.board, later.nextId, first.reply)
  {
    var first := Decide(s.board, entries, s.nextId, actor, p);
    DecideKeepsLog(s.board, entries, s.nextId, actor, p);
    LogStaysInShape(State(first.board, first.nextId), moves);
    var later := Exec(State(first.board, first.nextId), moves).board.decisions;
    var row := first.reply.value;
    assert row in first.board.decisions && row.key == p.key;
    var i :| 0 <= i < |first.board.decisions| && first.board.decisions[i] == row;
    assert later[i] == row;
    KeyedRow(later, i, p.key.value);
  }

  lemma {:induction false} KeyedRow(decisions: seq<Decision>, i: nat, key: string)
    requires KeysOnce(decisions) && i < |decisions| && decisions[i].key == Some(key)
    ensures FindByKey(decisions, key) == Some(decisions[i])
  {
    assert decisions[i] in decisions;
    var found := FindByKey(decisions, key);
    var j :| 0 <= j < |decisions| && decisions[j] == found.value;
  }

  class Service {
    var pipeline: Pipeline
    var status: AppStatus
    var lock: int
    var decisions: seq<Decision>
    var nextId: Id

    function Contents(): Board
      reads this
    {
      Board(pipeline, status, lock, decisions)
    }

    constructor (initial: Pipeline, firstId: Id)
      ensures Contents() == Board(initial, InProgress, 1, []) && nextId == firstId && LogOk(Contents())
    {
      pipeline, status, lock, decisions, nextId := initial, InProgress, 1, [], firstId;
    }

    method CreateHiringDecision(entries: seq<Entry>, actor: Id, p: Payload) returns (reply: Result<Decision, Error>)
      requires LogOk(Contents())
      modifies this
      ensures LogOk(Contents())
      ensures Outcome(Contents(), nextId, reply) == old(Decide(Contents(), entries, nextId, actor, p))
    {
      DecideKeepsLog(Contents(), entries, nextId, actor, p);
      if p.key.Some? && p.key.value != "" {
        var existing := FindByKey(decisions, p.key.value);
        if existing.Some? {
          return Ok(existing.value);
        }
      }
      if lock != p.lock {
        return Err(Conflict);
      }
      if status != InProgress || pipeline != Interviewing {
        return Err(WrongState);
      }
      if KindFor(p.reason) != Some(p.kind) {
        return Err(Invalid);
      }
      var owner := FindOwner(entries, p.versionId);
      if owner.None? {
        return Err(NotFound);
      }
      var version := RoundAnalysis.Find(owner.value.analysis.versions, p.versionId).value;
      if owner.value.analysis.current != Some(version.id) {
        return Err(WrongState);
      }
      if RoundAnalysis.Stale(version.transcriptVersionId, Confirmed(owner.value)) {
        return Err(WrongState);
      }
      if p.key.Some? && FindByKey(decisions, p.key.value).Some? {
        return Err(Conflict);
      }
      var row := DecisionFor(nextId, actor, p, owner.value, version);
      nextId := nextId + 1;
      decisions := decisions + [row];
      pipeline := row.to;
      lock := lock + 1;
      if p.kind == Reject {
        status := ClosedRejected;
      }
      return Ok(row);
    }
  }
}
