// Hiring decisions beside the writers that do not lock the application row: a screening
// (resumes.py), the confirmation of a resume (resumes.py) and the closing of an application
// (candidates.py) check the row as they read it and write later, and only the columns whose new
// value differs from the value read.
module HiringRaces {
  import opened Common
  import opened Coverage
  import opened Hiring
  import RoundAnalysis

  // A write whose checks passed on the row as it was read.
  datatype Write =
    | LateScreening(lock: int, from: Pipeline, screening: Screening)
    | LateResumeConfirm
    | LateClose(closed: ClosedStatus)

  // The writes still to come, by the request that will make them.
  datatype Shared = Shared(board: Board, nextId: Id, writes: map<Id, Write>)

  datatype Step =
    | Decides(entries: seq<Entry>, actor: Id, payload: Payload)
    | ReadsToScreen(op: Id, lock: int, screening: Screening)
    | ReadsToConfirm(op: Id)
    | ReadsToClose(op: Id, closed: ClosedStatus)
    | Writes(op: Id)

  function Written(b: Board, w: Write): Board {
    match w
    case LateScreening(lock, from, screening) => Screened(b, lock, from, screening)
    case LateResumeConfirm => b.(pipeline := PendingHrScreen)
    case LateClose(closed) => b.(status := closed)
  }

  // A read whose checks fail ends its request, and so does a write.
  function Do(s: Shared, step: Step): Shared {
    match step
    case Decides(entries, actor, payload) =>
      var o := Decide(s.board, entries, s.nextId, actor, payload);
      s.(board := o.board, nextId := o.nextId)
    case ReadsToScreen(op, lock, screening) =>
      if Screenable(s.board, lock)
      then s.(writes := s.writes[op := LateScreening(lock, s.board.pipeline, screening)])
      else s.(writes := s.writes - {op})
    case ReadsToConfirm(op) =>
      if s.board.pipeline == PendingParse && s.board.status == InProgress
      then s.(writes := s.writes[op := LateResumeConfirm])
      else s.(writes := s.writes - {op})
    case ReadsToClose(op, closed) =>
      if s.board.status == InProgress
      then s.(writes := s.writes[op := LateClose(closed)])
      else s.(writes := s.writes - {op})
    case Writes(op) =>
      if op in s.writes
      then s.(board := Written(s.board, s.writes[op]), writes := s.writes - {op})
      else s
  }

  function Runs(s: Shared, steps: seq<Step>): Shared {
    if steps == [] then s else Do(Runs(s, steps[..|steps| - 1]), steps[|steps| - 1])
  }

  lemma {:induction false} RunsMore(s: Shared, steps: seq<Step>, last: Step)
    ensures Runs(s, steps + [last]) == Do(Runs(s, steps), last)
  {
    assert (steps + [last])[..|steps|] == steps;
  }

  // A read directly followed by its write is the atomic move of Hiring.
  lemma {:induction false} ScreeningAtOnceIsAtomic(s: Shared, op: Id, lock: int, screening: Screening)
    ensures Do(Do(s, ReadsToScreen(op, lock, screening)), Writes(op)) == s.(
              board := Hiring.Apply(State(s.board, s.nextId), DoScreen(lock, screening)).board, writes := s.writes - {op})
  {
    assert s.writes[op := LateScreening(lock, s.board.pipeline, screening)] - {op} == s.writes - {op};
  }

  lemma {:induction false} OthersAtOnceAreAtomic(s: Shared, op: Id, closed: ClosedStatus)
    ensures Do(Do(s, ReadsToConfirm(op)), Writes(op)) == s.(
              board := Hiring.Apply(State(s.board, s.nextId), DoConfirmResume).board, writes := s.writes - {op})
    ensures Do(Do(s, ReadsToClose(op, closed)), Writes(op)) == s.(
              board := Hiring.Apply(State(s.board, s.nextId), DoClose(closed)).board, writes := s.writes - {op})
  {
    assert s.writes[op := LateResumeConfirm] - {op} == s.writes - {op};
    assert s.writes[op := LateClose(closed)] - {op} == s.writes - {op};
  }

  // Whatever is interleaved, rows stay as written, fit their decisions and use no key twice.
  lemma {:induction false} EveryInterleavingKeepsRows(s: Shared, steps: seq<Step>)
    requires RowsOk(s.board.decisions)
    ensures RowsOk(Runs(s, steps).board.decisions) && s.board.decisions <= Runs(s, steps).board.decisions
  {
    if steps != [] {
      var before, last := Runs(s, steps[..|steps| - 1]), steps[|steps| - 1];
      EveryInterleavingKeepsRows(s, steps[..|steps| - 1]);
      if last.Decides? {
        DecideKeepsRows(before.board, last.entries, before.nextId, last.actor, last.payload);
      }
    }
  }

  // ---------- when another row can be added ----------

  predicate Decided(p: Pipeline) {
    p == PendingOffer || p == Rejected || p == TalentPool
  }

  // Moves the pipeline back to a waiting or interviewing status, whatever it has become since the
  // read, and leaves the application open.
  predicate Reopens(w: Write) {
    match w
    case LateScreening(_, from, screening) =>
      (screening == EnterInterview || screening == HoldScreening) && ScreenedTo(screening) != from
    case LateResumeConfirm => true
    case LateClose(_) => false
  }

  predicate SomeReopens(s: Shared) {
    exists op | op in s.writes :: Reopens(s.writes[op])
  }

  predicate CanGrow(s: Shared) {
    s.board.status == InProgress && (!Decided(s.board.pipeline) || SomeReopens(s))
  }

  lemma {:induction false} StuckStep(s: Shared, step: Step)
    requires !CanGrow(s)
    ensures !CanGrow(Do(s, step)) && Do(s, step).board.decisions == s.board.decisions
  {
    if step.Writes? && step.op in s.writes && s.board.status == InProgress {
      assert !Reopens(s.writes[step.op]);
    }
  }

  lemma {:induction false} StuckRuns(s: Shared, steps: seq<Step>)
    requires !CanGrow(s)
    ensures !CanGrow(Runs(s, steps)) && Runs(s, steps).board.decisions == s.board.decisions
  {
    if steps != [] {
      StuckRuns(s, steps[..|steps| - 1]);
      StuckStep(Runs(s, steps[..|steps| - 1]), steps[|steps| - 1]);
    }
  }

  predicate NoDecision(steps: seq<Step>) {
    forall i | 0 <= i < |steps| :: !steps[i].Decides?
  }

  // A decided application gets undecided by the reopening write under way.
  lemma {:induction false} Undecide(s: Shared) returns (steps: seq<Step>)
    requires CanGrow(s)
    ensures var t := Runs(s, steps);
            t.board.status == InProgress && !Decided(t.board.pipeline) && t.board.decisions == s.board.decisions
    ensures NoDecision(steps)
  {
    steps := [];
    if Decided(s.board.pipeline) {
      var op :| op in s.writes && Reopens(s.writes[op]);
      OneWrite(s, op);
      steps := [Writes(op)];
    }
  }

  lemma {:induction false} OneWrite(s: Shared, op: Id)
    requires s.board.status == InProgress && op in s.writes && Reopens(s.writes[op])
    ensures var t := Runs(s, [Writes(op)]);
            t.board.status == InProgress && !Decided(t.board.pipeline) && t.board.decisions == s.board.decisions
  {
    RunsMore(s, [], Writes(op));
    assert [] + [Writes(op)] == [Writes(op)];
    assert Runs(s, [Writes(op)]) == Do(s, Writes(op));
  }

  lemma {:induction false} Interview(s: Shared) returns (steps: seq<Step>)
    requires CanGrow(s)
    ensures var t := Runs(s, steps);
            t.board.status == InProgress && t.board.pipeline == Interviewing && t.board.decisions == s.board.decisions
    ensures NoDecision(steps)
  {
    steps := Undecide(s);
    var t := Runs(s, steps);
    if t.board.pipeline != Interviewing {
      var read := ReadsToScreen(0, t.board.lock, EnterInterview);
      RunsMore(s, steps, read);
      RunsMore(s, steps + [read], Writes(0));
      ScreeningAtOnceIsAtomic(t, 0, t.board.lock, EnterInterview);
      steps := steps + [read] + [Writes(0)];
    }
  }

  // The rounds of the application as they are during a run.
  predicate Within(steps: seq<Step>, entries: seq<Entry>) {
    forall i | 0 <= i < |steps| && steps[i].Decides? :: steps[i].entries == entries
  }

  ghost predicate SomeCitable(entries: seq<Entry>) {
    exists versionId :: Citable(entries, versionId)
  }

  lemma {:induction false} NewRowIsCitable(b: Board, entries: seq<Entry>, nextId: Id, actor: Id, p: Payload)
    requires Decide(b, entries, nextId, actor, p).board.decisions != b.decisions
          || Decide(b, entries, nextId, actor, p).nextId != nextId
    ensures Citable(entries, p.versionId)
  {
  }

  lemma {:induction false} NothingToCite(s: Shared, entries: seq<Entry>, steps: seq<Step>)
    requires Within(steps, entries) && !SomeCitable(entries)
    ensures Runs(s, steps).board.decisions == s.board.decisions
  {
    if steps != [] {
      var n := |steps| - 1;
      var before := Runs(s, steps[..n]);
      NothingToCite(s, entries, steps[..n]);
      if steps[n].Decides? && Do(before, steps[n]).board.decisions != before.board.decisions {
        NewRowIsCitable(before.board, entries, before.nextId, steps[n].actor, steps[n].payload);
      }
    }
  }

  function Recommendation(versionId: Id, lock: int): Payload {
    Payload(RecommendHire, MeetsRoleBar, versionId, lock, None)
  }

  lemma {:induction false} RecommendationGoesThrough(b: Board, entries: seq<Entry>, nextId: Id, actor: Id, versionId: Id)
    requires b.status == InProgress && b.pipeline == Interviewing && Citable(entries, versionId)
    ensures var o := Decide(b, entries, nextId, actor, Recommendation(versionId, b.lock));
            o.reply.Ok? && o.reply.value.kind == RecommendHire && o.board.decisions == b.decisions + [o.reply.value]
  {
  }

  lemma {:induction false} Grow(s: Shared, entries: seq<Entry>, versionId: Id) returns (steps: seq<Step>)
    requires CanGrow(s) && Citable(entries, versionId)
    ensures Within(steps, entries)
    ensures var later := Runs(s, steps).board.decisions;
            |later| == |s.board.decisions| + 1 && later[..|s.board.decisions|] == s.board.decisions
            && IsFinal(later[|s.board.decisions|])
  {
    var before := Interview(s);
    var t := Runs(s, before);
    var last := Decides(entries, 0, Recommendation(versionId, t.board.lock));
    RunsMore(s, before, last);
    RecommendationGoesThrough(t.board, entries, t.nextId, 0, versionId);
    steps := before + [last];
  }

  predicate TwoFinal(decisions: seq<Decision>) {
    exists i, j | 0 <= i < j < |decisions| :: IsFinal(decisions[i]) && IsFinal(decisions[j])
  }

  predicate Closed(decisions: seq<Decision>) {
    decisions != [] && IsFinal(decisions[|decisions| - 1])
  }

  // From a log of holds and one final decision, whatever is under way: a row after the final one,
  // and a second final one, can be reached by some interleaving over the application's rounds
  // exactly when there is an analysis to cite, the application is still in progress, and its
  // pipeline is undecided or some write under way will reopen it. Without the latter two, no
  // interleaving at all adds a row, whatever becomes of the rounds.
  lemma {:induction false} SecondFinalReachableIff(s: Shared, entries: seq<Entry>)
    requires HoldsThenFinal(s.board.decisions) && Closed(s.board.decisions)
    ensures CanGrow(s) && SomeCitable(entries) <==>
            exists steps {:trigger Runs(s, steps)} | Within(steps, entries) :: TwoFinal(Runs(s, steps).board.decisions)
    ensures CanGrow(s) && SomeCitable(entries) <==>
            exists steps {:trigger Runs(s, steps)} | Within(steps, entries) :: !HoldsThenFinal(Runs(s, steps).board.decisions)
    ensures !CanGrow(s) ==> forall steps :: Runs(s, steps).board.decisions == s.board.decisions
  {
    if CanGrow(s) && SomeCitable(entries) {
      var versionId :| Citable(entries, versionId);
      var steps := Grow(s, entries, versionId);
      var n, later := |s.board.decisions|, Runs(s, steps).board.decisions;
      assert later[n - 1] == s.board.decisions[n - 1];
      assert IsFinal(later[n - 1]) && IsFinal(later[n]);
      assert TwoFinal(later) && !HoldsThenFinal(later);
    } else {
      NoGrowth(s, entries);
    }
  }

  lemma {:induction false} NoGrowth(s: Shared, entries: seq<Entry>)
    requires !CanGrow(s) || !SomeCitable(entries)
    ensures forall steps {:trigger Runs(s, steps)} | !CanGrow(s) || Within(steps, entries) ::
              Runs(s, steps).board.decisions == s.board.decisions
  {
    forall steps | !CanGrow(s) || Within(steps, entries)
      ensures Runs(s, steps).board.decisions == s.board.decisions
    {
      if CanGrow(s) {
        NothingToCite(s, entries, steps);
      } else {
        StuckRuns(s, steps);
      }
    }
  }

  // So a recommendation is final in every continuation over the same rounds if and only if, when
  // it is made, no screening or resume confirmation is under way that would set a waiting status
  // it did not read; then it is final whatever becomes of the rounds.
  lemma {:induction false} RecommendationIsFinalIff(s: Shared, entries: seq<Entry>, actor: Id, p: Payload)
    requires HoldsThenFinal(s.board.decisions) && !Closed(s.board.decisions) && p.kind == RecommendHire
    requires Decide(s.board, entries, s.nextId, actor, p).nextId != s.nextId
    ensures var t := Do(s, Decides(entries, actor, p));
            !SomeReopens(s) <==>
            forall steps {:trigger Runs(t, steps)} | Within(steps, entries) :: HoldsThenFinal(Runs(t, steps).board.decisions)
    ensures var t := Do(s, Decides(entries, actor, p));
            !SomeReopens(s) ==> forall steps :: Runs(t, steps).board.decisions == t.board.decisions
  {
    var t := Do(s, Decides(entries, actor, p));
    DecideEffect(s.board, entries, s.nextId, actor, p);
    NewRowKeepsShape(s, entries, actor, p);
    NewRowIsCitable(s.board, entries, s.nextId, actor, p);
    assert CanGrow(t) <==> SomeReopens(s);
    SecondFinalReachableIff(t, entries);
  }

  lemma {:induction false} NewRowKeepsShape(s: Shared, entries: seq<Entry>, actor: Id, p: Payload)
    requires HoldsThenFinal(s.board.decisions) && !Closed(s.board.decisions)
    ensures HoldsThenFinal(Do(s, Decides(entries, actor, p)).board.decisions)
  {
    DecideEffect(s.board, entries, s.nextId, actor, p);
  }

  // A rejection is final in every continuation: no late write opens a closed application.
  lemma {:induction false} RejectionIsFinal(s: Shared, entries: seq<Entry>, actor: Id, p: Payload, steps: seq<Step>)
    requires p.kind == Reject && Decide(s.board, entries, s.nextId, actor, p).nextId != s.nextId
    ensures var t := Do(s, Decides(entries, actor, p));
            Runs(t, steps).board.decisions == t.board.decisions
  {
    DecideEffect(s.board, entries, s.nextId, actor, p);
    StuckRuns(Do(s, Decides(entries, actor, p)), steps);
  }

  // No recommendation is made while a reopening write is under way.
  predicate Guarded(s: Shared, steps: seq<Step>) {
    forall i | 0 <= i < |steps| && steps[i].Decides? && steps[i].payload.kind == RecommendHire ::
      !SomeReopens(Runs(s, steps[..i]))
  }

  ghost predicate ShapeHolds(s: Shared) {
    HoldsThenFinal(s.board.decisions) && (Closed(s.board.decisions) ==> !CanGrow(s))
  }

  // Over every such run, the log is holds followed by at most one final decision.
  lemma {:induction false} GuardedRunsKeepShape(s: Shared, steps: seq<Step>)
    requires ShapeHolds(s) && Guarded(s, steps)
    ensures ShapeHolds(Runs(s, steps))
  {
    if steps != [] {
      var n := |steps| - 1;
      assert forall i | 0 <= i < n :: steps[..n][..i] == steps[..i];
      GuardedRunsKeepShape(s, steps[..n]);
      GuardedStep(Runs(s, steps[..n]), steps[n]);
    }
  }

  lemma {:induction false} GuardedStep(s: Shared, step: Step)
    requires ShapeHolds(s)
    requires step.Decides? && step.payload.kind == RecommendHire ==> !SomeReopens(s)
    ensures ShapeHolds(Do(s, step))
  {
    if Closed(s.board.decisions) {
      StuckStep(s, step);
    } else if step.Decides? {
      DecideEffect(s.board, step.entries, s.nextId, step.actor, step.payload);
      NewRowKeepsShape(s, step.entries, step.actor, step.payload);
    }
  }

  // The failing run: a screening reads an interviewing application and will hold it, the
  // application is recommended, the held status is written over the recommendation, the
  // application enters its interview again, and a second recommendation goes through.
  lemma {:induction false} LateScreeningReopens(s: Shared, entries: seq<Entry>, actor: Id, p: Payload, op: Id)
    requires HoldsThenFinal(s.board.decisions) && p.kind == RecommendHire && p.key.None?
    requires Decide(s.board, entries, s.nextId, actor, p).reply.Ok?
    ensures var again := p.(lock := p.lock + 2);
            var steps := [ReadsToScreen(op, p.lock, HoldScreening), Decides(entries, actor, p), Writes(op),
                          ReadsToScreen(op, p.lock + 1, EnterInterview), Writes(op), Decides(entries, actor, again)];
            TwoFinal(Runs(s, steps).board.decisions)
  {
    var again := p.(lock := p.lock + 2);
    var read, decide := ReadsToScreen(op, p.lock, HoldScreening), Decides(entries, actor, p);
    var enter, more := ReadsToScreen(op, p.lock + 1, EnterInterview), Decides(entries, actor, again);
    SixSteps(s, read, decide, Writes(op), enter, Writes(op), more);
    var recommended := Do(Do(s, read), decide);
    var held := Do(recommended, Writes(op));
    var reopened := Do(Do(held, enter), Writes(op));
    assert recommended.writes[op] == LateScreening(p.lock, Interviewing, HoldScreening);
    assert held.board.pipeline == PendingHrScreen && held.board.lock == p.lock + 1;
    ScreeningAtOnceIsAtomic(held, op, p.lock + 1, EnterInterview);
    assert reopened.board == Screened(held.board, p.lock + 1, PendingHrScreen, EnterInterview);
    DecideEffect(s.board, entries, s.nextId, actor, p);
    var n, later := |s.board.decisions|, Runs(s, [read, decide, Writes(op), enter, Writes(op), more]).board.decisions;
    assert IsFinal(later[n]) && IsFinal(later[n + 1]);
  }

  lemma {:induction false} SixSteps(s: Shared, a: Step, b: Step, c: Step, d: Step, e: Step, f: Step)
    ensures Runs(s, [a, b, c, d, e, f]) == Do(Do(Do(Do(Do(Do(s, a), b), c), d), e), f)
  {
    RunsMore(s, [], a);
    RunsMore(s, [a], b);
    RunsMore(s, [a, b], c);
    RunsMore(s, [a, b, c], d);
    RunsMore(s, [a, b, c, d], e);
    RunsMore(s, [a, b, c, d, e], f);
    assert [] + [a] == [a] && [a] + [b] == [a, b] && [a, b] + [c] == [a, b, c];
    assert [a, b, c] + [d] == [a, b, c, d] && [a, b, c, d] + [e] == [a, b, c, d, e];
    assert [a, b, c, d, e] + [f] == [a, b, c, d, e, f];
  }
}
