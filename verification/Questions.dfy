// The question outline of one round: versioned, edited under an optimistic lock and
// idempotency keys, DRAFT or READY (interview_questions.py, interview_ai_validation.py).
module Questions {
  import opened Common
  import Inputs
  import RoundStatus
  import Text

  // ---------- one outline ----------

  datatype EvidenceSource = JobRequirement | ResumeExperience | General

  datatype Question = Question(
    key: string, text: string, purpose: string, source: EvidenceSource, resumeEvidence: Option<string>,
    followUps: seq<string>, riskFlags: seq<string>, order: int)

  const MAX_QUESTIONS := 30

  // The text without its white space.
  function RemoveSpaces(s: string): string {
    if s == "" then ""
    else if Text.IsSpace(s[0]) then RemoveSpaces(s[1..])
    else [s[0]] + RemoveSpaces(s[1..])
  }

  // casefold is a parameter: any function of the text without its white space.
  type Fold = string -> string

  function Normalized(fold: Fold, text: string): string {
    fold(RemoveSpaces(Text.Strip(text)))
  }

  function NormalizedTexts(items: seq<Question>, fold: Fold): (r: seq<string>)
    ensures |r| == |items| && forall i | 0 <= i < |r| :: r[i] == Normalized(fold, items[i].text)
  {
    seq(|items|, i requires 0 <= i < |items| => Normalized(fold, items[i].text))
  }

  predicate Distinct(texts: seq<string>) {
    forall i, j | 0 <= i < j < |texts| :: texts[i] != texts[j]
  }

  method TextsDistinct(texts: seq<string>) returns (ok: bool)
    ensures ok <==> Distinct(texts)
  {
    var seen: set<string> := {};
    for i := 0 to |texts|
      invariant forall j, k | 0 <= j < k < i :: texts[j] != texts[k]
      invariant seen == set k | 0 <= k < i :: texts[k]
    {
      if texts[i] in seen {
        return false;
      }
      seen := seen + {texts[i]};
    }
    return true;
  }

  predicate EvidenceFits(q: Question) {
    var given := q.resumeEvidence.Some? && !Text.Blank(q.resumeEvidence.value);
    if q.source == ResumeExperience then given else !given
  }

  predicate OutlineAccepted(items: seq<Question>, allowed: set<string>, fold: Fold) {
    && 1 <= |items| <= MAX_QUESTIONS
    && (forall i | 0 <= i < |items| :: items[i].order == i + 1)
    && (forall i | 0 <= i < |items| :: items[i].key in allowed && EvidenceFits(items[i]))
    && Distinct(NormalizedTexts(items, fold))
  }

  method ValidateOutline(items: seq<Question>, allowed: set<string>, fold: Fold) returns (ok: bool)
    ensures ok <==> OutlineAccepted(items, allowed, fold)
  {
    if |items| < 1 || |items| > MAX_QUESTIONS {
      return false;
    }
    if exists i | 0 <= i < |items| :: items[i].order != i + 1 {
      return false;
    }
    for i := 0 to |items|
      invariant forall k | 0 <= k < i :: items[k].key in allowed && EvidenceFits(items[k])
    {
      if items[i].key !in allowed {
        return false;
      }
      if !EvidenceFits(items[i]) {
        return false;
      }
    }
    ok := TextsDistinct(NormalizedTexts(items, fold));
  }

  lemma {:induction false} RemoveSpacesAppend(x: string, y: string)
    ensures RemoveSpaces(x + y) == RemoveSpaces(x) + RemoveSpaces(y)
  {
    if x == "" {
      assert x + y == y;
    } else {
      assert (x + y)[1..] == x[1..] + y;
      RemoveSpacesAppend(x[1..], y);
    }
  }

  lemma {:induction false} RemoveSpacesOfBlank(x: string)
    requires Text.Blank(x)
    ensures RemoveSpaces(x) == ""
  {
    if x != "" {
      RemoveSpacesOfBlank(x[1..]);
    }
  }

  // Stripping before removing white space is redundant.
  lemma {:induction false} StripRedundant(text: string)
    ensures RemoveSpaces(Text.Strip(text)) == RemoveSpaces(text)
  {
    var l, r := Text.StripSplits(text);
    var core := Text.Strip(text);
    RemoveSpacesAppend(l + core, r);
    RemoveSpacesAppend(l, core);
    RemoveSpacesOfBlank(l);
    RemoveSpacesOfBlank(r);
  }

  // Two questions that read the same without white space are never accepted together.
  lemma {:induction false} SpacingMakesNoNewQuestion(items: seq<Question>, allowed: set<string>, fold: Fold, i: nat, j: nat)
    requires OutlineAccepted(items, allowed, fold) && i < j < |items|
    ensures RemoveSpaces(items[i].text) != RemoveSpaces(items[j].text)
  {
    StripRedundant(items[i].text);
    StripRedundant(items[j].text);
    assert NormalizedTexts(items, fold)[i] != NormalizedTexts(items, fold)[j];
  }

  // ---------- the versioned set ----------

  datatype Version = Version(
    id: Id, no: nat, taskId: Option<Id>, jobVersionId: Id, resumeVersionId: Id, inputHash: Inputs.Input,
    createdBy: Id, items: seq<Question>)

  datatype Request =
    | EditRequest(expected: Id, items: seq<Question>)
    | ConfirmRequest(expected: Id)

  datatype KeyAction = EditKey | ConfirmKey

  datatype Key = Key(actor: Id, action: KeyAction, text: string)

  datatype QuestionSet = QuestionSet(
    status: RoundStatus.Status, versions: seq<Version>, current: Option<Id>, ready: bool,
    confirmedBy: Option<Id>, keys: map<Key, Request>)

  datatype Error = Invalid | IdempotencyConflict | OptimisticLock

  datatype Reply = VersionReply(version: Version) | SetReply(ready: bool, confirmedBy: Option<Id>) | Done

  datatype Outcome = Outcome(after: QuestionSet, nextId: Id, reply: Result<Reply, Error>)

  // The frozen input of a generation task.
  datatype TaskInput = TaskInput(
    taskId: Id, createdBy: Id, jobVersionId: Id, resumeVersionId: Id, inputHash: Inputs.Input, allowed: set<string>)

  predicate Mutable(status: RoundStatus.Status) {
    status in {RoundStatus.Scheduled, RoundStatus.Confirmed, RoundStatus.InProgress}
  }

  function Find(versions: seq<Version>, id: Id): (r: Option<Version>)
    ensures r.Some? ==> r.value in versions && r.value.id == id
    ensures r.None? ==> forall v | v in versions :: v.id != id
  {
    if versions == [] then None
    else if versions[0].id == id then Some(versions[0])
    else Find(versions[1..], id)
  }

  function FindByTask(versions: seq<Version>, taskId: Id): (r: Option<Version>)
    ensures r.Some? ==> r.value in versions && r.value.taskId == Some(taskId)
    ensures r.None? ==> forall v | v in versions :: v.taskId != Some(taskId)
  {
    if versions == [] then None
    else if versions[0].taskId == Some(taskId) then Some(versions[0])
    else FindByTask(versions[1..], taskId)
  }

  function FindByNo(versions: seq<Version>, no: nat): (r: Option<Version>)
    ensures r.Some? ==> r.value in versions && r.value.no == no
    ensures r.None? ==> forall v | v in versions :: v.no != no
  {
    if versions == [] then None
    else if versions[0].no == no then Some(versions[0])
    else FindByNo(versions[1..], no)
  }

  function MaxNo(versions: seq<Version>): nat {
    if versions == [] then 0 else Max(MaxNo(versions[..|versions| - 1]), versions[|versions| - 1].no)
  }

  // Every new version becomes the current one and takes the set back to DRAFT.
  function Appended(q: QuestionSet, version: Version): QuestionSet {
    q.(versions := q.versions + [version], current := Some(version.id), ready := false, confirmedBy := None)
  }

  function Generated(q: QuestionSet, nextId: Id, task: TaskInput, items: seq<Question>): Version {
    Version(nextId, MaxNo(q.versions) + 1, Some(task.taskId), task.jobVersionId, task.resumeVersionId, task.inputHash,
            task.createdBy, items)
  }

  function Persist(q: QuestionSet, nextId: Id, task: TaskInput, items: seq<Question>, fold: Fold): Outcome {
    var existing := FindByTask(q.versions, task.taskId);
    if existing.Some? then Outcome(q, nextId, Ok(VersionReply(existing.value)))
    else if !OutlineAccepted(items, task.allowed, fold) then Outcome(q, nextId, Err(Invalid))
    else
      var version := Generated(q, nextId, task, items);
      Outcome(Appended(q, version), nextId + 1, Ok(VersionReply(version)))
  }

  function Edited(q: QuestionSet, nextId: Id, actor: Id, base: Version, items: seq<Question>): Version {
    Version(nextId, MaxNo(q.versions) + 1, None, base.jobVersionId, base.resumeVersionId, base.inputHash, actor, items)
  }

  // What a replayed edit answers: the version numbered after the expected one, failing that the
  // current one.
  function ReplayedEdit(q: QuestionSet, expected: Id): Option<Version> {
    var base := Find(q.versions, expected);
    var next := if base.Some? then FindByNo(q.versions, base.value.no + 1) else None;
    if next.Some? then next
    else if q.current.Some? then Find(q.versions, q.current.value)
    else None
  }

  // allowed is None when the frozen job version cannot be loaded.
  function Edit(q: QuestionSet, nextId: Id, actor: Id, key: string, expected: Id, items: seq<Question>,
                allowed: Option<set<string>>, fold: Fold): Outcome
  {
    var k := Key(actor, EditKey, key);
    var request := EditRequest(expected, items);
    var current := if q.current.Some? then Find(q.versions, q.current.value) else None;
    if !Mutable(q.status) || current.None? || key == "" then Outcome(q, nextId, Err(Invalid))
    else if k in q.keys then
      if q.keys[k] != request then Outcome(q, nextId, Err(IdempotencyConflict))
      else
        match ReplayedEdit(q, expected)
        case Some(version) => Outcome(q, nextId, Ok(VersionReply(version)))
        case None => Outcome(q, nextId, Err(IdempotencyConflict))
    else if q.current != Some(expected) then Outcome(q, nextId, Err(OptimisticLock))
    else if allowed.None? || !OutlineAccepted(items, allowed.value, fold) then Outcome(q, nextId, Err(Invalid))
    else
      var version := Edited(q, nextId, actor, current.value, items);
      Outcome(Appended(q, version).(keys := q.keys[k := request]), nextId + 1, Ok(VersionReply(version)))
  }

  function Confirm(q: QuestionSet, nextId: Id, actor: Id, key: string, expected: Id): Outcome {
    var k := Key(actor, ConfirmKey, key);
    var request := ConfirmRequest(expected);
    if !Mutable(q.status) || q.current.None? || key == "" then Outcome(q, nextId, Err(Invalid))
    else if k in q.keys then
      if q.keys[k] != request then Outcome(q, nextId, Err(IdempotencyConflict))
      else Outcome(q, nextId, Ok(SetReply(q.ready, q.confirmedBy)))
    else if q.current != Some(expected) then Outcome(q, nextId, Err(OptimisticLock))
    else if Find(q.versions, expected).None? || Find(q.versions, expected).value.items == [] then Outcome(q, nextId, Err(Invalid))
    else
      Outcome(q.(ready := true, confirmedBy := Some(actor), keys := q.keys[k := request]), nextId, Ok(SetReply(true, Some(actor))))
  }

  datatype Cmd =
    | DoPersist(task: TaskInput, items: seq<Question>, fold: Fold)
    | DoEdit(actor: Id, key: string, expected: Id, items: seq<Question>, allowed: Option<set<string>>, fold: Fold)
    | DoConfirm(actor: Id, key: string, expected: Id)
    | RoundMoves(status: RoundStatus.Status)
    | ElsewhereIdsTaken(count: nat)

  function Apply(q: QuestionSet, nextId: Id, cmd: Cmd): Outcome {
    match cmd
    case DoPersist(task, items, fold) => Persist(q, nextId, task, items, fold)
    case DoEdit(actor, key, expected, items, allowed, fold) => Edit(q, nextId, actor, key, expected, items, allowed, fold)
    case DoConfirm(actor, key, expected) => Confirm(q, nextId, actor, key, expected)
    case RoundMoves(status) => Outcome(q.(status := status), nextId, Ok(Done))
    case ElsewhereIdsTaken(count) => Outcome(q, nextId + count, Ok(Done))
  }

  datatype State = State(q: QuestionSet, nextId: Id)

  function Step(s: State, cmd: Cmd): State {
    var o := Apply(s.q, s.nextId, cmd);
    State(o.after, o.nextId)
  }

  function Exec(s: State, cmds: seq<Cmd>): State {
    if cmds == [] then s else Step(Exec(s, cmds[..|cmds| - 1]), cmds[|cmds| - 1])
  }

  function Empty(status: RoundStatus.Status, firstId: Id): State {
    State(QuestionSet(status, [], None, false, None, map[]), firstId)
  }

  // ---------- invariant ----------

  ghost predicate NumberedAt(vs: seq<Version>, i: nat, nextId: Id)
    requires i < |vs|
  {
    vs[i].no == i + 1 && vs[i].id < nextId && vs[i].items != []
  }

  ghost predicate Numbered(vs: seq<Version>, nextId: Id) {
    && (forall i {:trigger NumberedAt(vs, i, nextId)} | 0 <= i < |vs| :: NumberedAt(vs, i, nextId))
    && (forall i, j | 0 <= i < j < |vs| :: vs[i].id < vs[j].id)
  }

  // A task is persisted at most once.
  ghost predicate TasksOnce(vs: seq<Version>) {
    forall i, j | 0 <= i < j < |vs| && vs[i].taskId.Some? :: vs[i].taskId != vs[j].taskId
  }

  // Version i + 1 is the one an edit of version i made under this key.
  ghost predicate MadeByEdit(vs: seq<Version>, i: nat, actor: Id, request: Request) {
    && request.EditRequest?
    && i + 1 < |vs|
    && vs[i].id == request.expected
    && vs[i + 1].items == request.items
    && vs[i + 1].createdBy == actor
    && vs[i + 1].taskId == None
  }

  ghost predicate EditKeyHolds(q: QuestionSet, k: Key) {
    k in q.keys && k.action == EditKey ==> exists i: nat :: MadeByEdit(q.versions, i, k.actor, q.keys[k])
  }

  // READY rests on a confirm, by the actor on record, of exactly the version that is current.
  ghost predicate ReadyBacked(q: QuestionSet) {
    q.ready ==>
      && q.confirmedBy.Some? && q.current.Some?
      && exists k :: k in q.keys && k.actor == q.confirmedBy.value && q.keys[k] == ConfirmRequest(q.current.value)
  }

  ghost predicate Inv(s: State) {
    && Numbered(s.q.versions, s.nextId)
    && TasksOnce(s.q.versions)
    && s.q.current == (if s.q.versions == [] then None else Some(s.q.versions[|s.q.versions| - 1].id))
    && (s.q.ready <==> s.q.confirmedBy.Some?)
    && (s.q.ready ==> s.q.versions != [])
    && ReadyBacked(s.q)
    && (forall k {:trigger EditKeyHolds(s.q, k)} :: EditKeyHolds(s.q, k))
  }

  ghost predicate Grows(a: QuestionSet, b: QuestionSet) {
    && |a.versions| <= |b.versions|
    && b.versions[..|a.versions|] == a.versions
    && (forall k | k in a.keys :: k in b.keys && b.keys[k] == a.keys[k])
  }

  lemma {:induction false} FindAt(vs: seq<Version>, i: nat, nextId: Id)
    requires Numbered(vs, nextId) && i < |vs|
    ensures Find(vs, vs[i].id) == Some(vs[i]) && FindByNo(vs, i + 1) == Some(vs[i])
  {
    assert NumberedAt(vs, i, nextId);
    assert vs[i] in vs;
    var found, byNo := Find(vs, vs[i].id), FindByNo(vs, i + 1);
    var j :| 0 <= j < |vs| && vs[j] == found.value;
    var k :| 0 <= k < |vs| && vs[k] == byNo.value;
    assert NumberedAt(vs, k, nextId);
  }

  lemma {:induction false} MaxNoIsCount(vs: seq<Version>, nextId: Id, n: nat)
    requires Numbered(vs, nextId) && n <= |vs|
    ensures MaxNo(vs[..n]) == n
  {
    if n > 0 {
      MaxNoIsCount(vs, nextId, n - 1);
      assert vs[..n][..n - 1] == vs[..n - 1];
      assert NumberedAt(vs, n - 1, nextId);
    }
  }

  lemma {:induction false} NumberedAppend(vs: seq<Version>, nextId: Id, v: Version)
    requires Numbered(vs, nextId) && v.id == nextId && v.no == MaxNo(vs) + 1 && v.items != []
    ensures Numbered(vs + [v], nextId + 1)
  {
    MaxNoIsCount(vs, nextId, |vs|);
    assert vs[..|vs|] == vs;
    var longer, later := vs + [v], nextId + 1;
    forall i | 0 <= i < |longer|
      ensures NumberedAt(longer, i, later)
    {
      assert i < |vs| ==> NumberedAt(vs, i, nextId);
    }
    forall i, j | 0 <= i < j < |longer|
      ensures longer[i].id < longer[j].id
    {
      assert NumberedAt(vs, i, nextId);
    }
  }

  lemma {:induction false} EditKeysFollow(q: QuestionSet, after: QuestionSet, k: Key)
    requires EditKeyHolds(q, k) && Grows(q, after) && (k in after.keys ==> k in q.keys)
    ensures EditKeyHolds(after, k)
  {
    if k in q.keys && k.action == EditKey {
      var i: nat :| MadeByEdit(q.versions, i, k.actor, q.keys[k]);
      assert after.versions[i] == after.versions[..|q.versions|][i];
      assert after.versions[i + 1] == after.versions[..|q.versions|][i + 1];
      assert MadeByEdit(after.versions, i, k.actor, after.keys[k]);
    }
  }

  // Appending a version by a task or an edit keeps the invariant.
  lemma {:induction false} AppendKeeps(s: State, v: Version, after: QuestionSet, newKey: Option<Key>)
    requires Inv(s) && v.id == s.nextId && v.no == MaxNo(s.q.versions) + 1 && v.items != []
    requires v.taskId.Some? ==> FindByTask(s.q.versions, v.taskId.value).None?
    requires after.versions == s.q.versions + [v] && after.current == Some(v.id) && !after.ready && after.confirmedBy == None
    requires forall k | k in s.q.keys :: k in after.keys && after.keys[k] == s.q.keys[k]
    requires forall k | k in after.keys :: k in s.q.keys || newKey == Some(k)
    requires newKey.Some? ==> EditKeyHolds(after, newKey.value)
    ensures Inv(State(after, s.nextId + 1)) && Grows(s.q, after)
  {
    NumberedAppend(s.q.versions, s.nextId, v);
    forall k
      ensures EditKeyHolds(after, k)
    {
      if newKey != Some(k) {
        assert EditKeyHolds(s.q, k);
        EditKeysFollow(s.q, after, k);
      }
    }
  }

  lemma {:induction false} PersistKeeps(s: State, task: TaskInput, items: seq<Question>, fold: Fold)
    requires Inv(s)
    ensures var o := Persist(s.q, s.nextId, task, items, fold);
            Inv(State(o.after, o.nextId)) && Grows(s.q, o.after)
  {
    var o := Persist(s.q, s.nextId, task, items, fold);
    if o.after != s.q {
      AppendKeeps(s, Generated(s.q, s.nextId, task, items), o.after, None);
    }
  }

  // An edit either changes nothing or appends an accepted outline to the expected version.
  lemma {:induction false} EditCases(q: QuestionSet, nextId: Id, actor: Id, key: string, expected: Id, items: seq<Question>,
                                     allowed: Option<set<string>>, fold: Fold)
    ensures var o := Edit(q, nextId, actor, key, expected, items, allowed, fold);
            var k := Key(actor, EditKey, key);
            var base := Find(q.versions, expected);
            || (o.after == q && o.nextId == nextId)
            || (&& k !in q.keys && q.current == Some(expected) && base.Some? && items != []
                && o.nextId == nextId + 1
                && o.after == Appended(q, Edited(q, nextId, actor, base.value, items)).(keys := q.keys[k := EditRequest(expected, items)]))
  {
  }

  lemma {:induction false} EditKeeps(s: State, actor: Id, key: string, expected: Id, items: seq<Question>,
                                     allowed: Option<set<string>>, fold: Fold)
    requires Inv(s)
    ensures var o := Edit(s.q, s.nextId, actor, key, expected, items, allowed, fold);
            Inv(State(o.after, o.nextId)) && Grows(s.q, o.after)
  {
    var o := Edit(s.q, s.nextId, actor, key, expected, items, allowed, fold);
    EditCases(s.q, s.nextId, actor, key, expected, items, allowed, fold);
    if o.after != s.q {
      var version := Edited(s.q, s.nextId, actor, Find(s.q.versions, expected).value, items);
      EditAppends(s, actor, Key(actor, EditKey, key), EditRequest(expected, items), version, o.after);
    }
  }

  lemma {:induction false} EditAppends(s: State, actor: Id, k: Key, request: Request, version: Version, after: QuestionSet)
    requires Inv(s) && k !in s.q.keys && k.action == EditKey && k.actor == actor && request.EditRequest?
    requires s.q.current == Some(request.expected) && request.items != []
    requires version.id == s.nextId && version.no == MaxNo(s.q.versions) + 1 && version.taskId == None
    requires version.items == request.items && version.createdBy == actor
    requires after == Appended(s.q, version).(keys := s.q.keys[k := request])
    ensures Inv(State(after, s.nextId + 1)) && Grows(s.q, after)
  {
    assert MadeByEdit(after.versions, |s.q.versions| - 1, actor, request);
    AppendKeeps(s, version, after, Some(k));
  }

  lemma {:induction false} ConfirmKeeps(s: State, actor: Id, key: string, expected: Id)
    requires Inv(s)
    ensures var o := Confirm(s.q, s.nextId, actor, key, expected);
            Inv(State(o.after, o.nextId)) && Grows(s.q, o.after)
  {
    var after := Confirm(s.q, s.nextId, actor, key, expected).after;
    if after != s.q {
      var k := Key(actor, ConfirmKey, key);
      assert k in after.keys && after.keys[k] == ConfirmRequest(after.current.value);
    }
    forall k
      ensures EditKeyHolds(after, k)
    {
      assert EditKeyHolds(s.q, k);
      if k.action == EditKey {
        EditKeysFollow(s.q, after, k);
      }
    }
  }

  lemma {:induction false} RoundMoveKeeps(s: State, status: RoundStatus.Status)
    requires Inv(s)
    ensures Inv(State(s.q.(status := status), s.nextId))
  {
    var after := s.q.(status := status);
    forall k
      ensures EditKeyHolds(after, k)
    {
      assert EditKeyHolds(s.q, k);
    }
  }

  lemma {:induction false} IdsTakenKeeps(s: State, count: nat)
    requires Inv(s)
    ensures Inv(State(s.q, s.nextId + count))
  {
    var vs, later := s.q.versions, s.nextId + count;
    forall i | 0 <= i < |vs|
      ensures NumberedAt(vs, i, later)
    {
      assert NumberedAt(vs, i, s.nextId);
    }
  }

  lemma {:induction false} StepKeeps(s: State, cmd: Cmd)
    requires Inv(s)
    ensures Inv(Step(s, cmd)) && Grows(s.q, Step(s, cmd).q)
  {
    match cmd
    case DoPersist(task, items, fold) => PersistKeeps(s, task, items, fold);
    case DoEdit(actor, key, expected, items, allowed, fold) => EditKeeps(s, actor, key, expected, items, allowed, fold);
    case DoConfirm(actor, key, expected) => ConfirmKeeps(s, actor, key, expected);
    case RoundMoves(status) => RoundMoveKeeps(s, status);
    case ElsewhereIdsTaken(count) => IdsTakenKeeps(s, count);
  }

  lemma {:induction false} GrowsTrans(a: QuestionSet, b: QuestionSet, c: QuestionSet)
    requires Grows(a, b) && Grows(b, c)
    ensures Grows(a, c)
  {
    assert c.versions[..|a.versions|] == c.versions[..|b.versions|][..|a.versions|];
  }

  lemma {:induction false} RunsKeep(s: State, cmds: seq<Cmd>)
    requires Inv(s)
    ensures Inv(Exec(s, cmds)) && Grows(s.q, Exec(s, cmds).q)
  {
    if cmds != [] {
      var before := Exec(s, cmds[..|cmds| - 1]);
      RunsKeep(s, cmds[..|cmds| - 1]);
      StepKeeps(before, cmds[|cmds| - 1]);
      GrowsTrans(s.q, before.q, Exec(s, cmds).q);
    }
  }

  lemma {:induction false} EmptyInv(status: RoundStatus.Status, firstId: Id)
    ensures Inv(Empty(status, firstId))
  {
    var s := Empty(status, firstId);
    forall k
      ensures EditKeyHolds(s.q, k)
    {
    }
  }

  // ---------- theorems ----------

  // In every reachable state the versions are numbered 1..n, the current one is the last and so
  // has the largest number, a task made at most one version, and READY rests on a confirm of
  // exactly the current, non-empty version.
  lemma {:induction false} CurrentIsNewest(status: RoundStatus.Status, firstId: Id, cmds: seq<Cmd>)
    ensures var q := Exec(Empty(status, firstId), cmds).q;
            && (forall i | 0 <= i < |q.versions| :: q.versions[i].no == i + 1)
            && (q.current.Some? <==> q.versions != [])
            && (q.current.Some? ==> Find(q.versions, q.current.value).Some?
                                    && Find(q.versions, q.current.value).value.no == MaxNo(q.versions)
                                    && Find(q.versions, q.current.value).value.items != [])
            && TasksOnce(q.versions)
            && (q.ready <==> q.confirmedBy.Some?)
            && ReadyBacked(q)
  {
    var s := Exec(Empty(status, firstId), cmds);
    EmptyInv(status, firstId);
    RunsKeep(Empty(status, firstId), cmds);
    var vs := s.q.versions;
    forall i | 0 <= i < |vs|
      ensures vs[i].no == i + 1
    {
      assert NumberedAt(vs, i, s.nextId);
    }
    MaxNoIsCount(vs, s.nextId, |vs|);
    assert vs[..|vs|] == vs;
    if vs != [] {
      FindAt(vs, |vs| - 1, s.nextId);
      assert NumberedAt(vs, |vs| - 1, s.nextId);
    }
  }

  // Whatever edits, generations, confirmations and status moves come in between, replaying a
  // successful edit changes nothing and answers with exactly the version the edit made, as long
  // as the round can still be changed; otherwise it is refused.
  lemma {:induction false} ReplayedEditReturnsItsOwn(
    status: RoundStatus.Status, firstId: Id, before: seq<Cmd>, actor: Id, key: string, expected: Id, items: seq<Question>,
    allowed: Option<set<string>>, fold: Fold, between: seq<Cmd>, laterAllowed: Option<set<string>>)
    requires var s := Exec(Empty(status, firstId), before);
             Key(actor, EditKey, key) !in s.q.keys && Edit(s.q, s.nextId, actor, key, expected, items, allowed, fold).reply.Ok?
    ensures var s := Exec(Empty(status, firstId), before);
            var first := Edit(s.q, s.nextId, actor, key, expected, items, allowed, fold);
            var later := Exec(State(first.after, first.nextId), between);
            Edit(later.q, later.nextId, actor, key, expected, items, laterAllowed, fold)
            == Outcome(later.q, later.nextId, if Mutable(later.q.status) then first.reply else Err(Invalid))
  {
    var s := Exec(Empty(status, firstId), before);
    EmptyInv(status, firstId);
    RunsKeep(Empty(status, firstId), before);
    var first := Edit(s.q, s.nextId, actor, key, expected, items, allowed, fold);
    EditKeeps(s, actor, key, expected, items, allowed, fold);
    var mid := State(first.after, first.nextId);
    RunsKeep(mid, between);
    var later := Exec(mid, between);
    var n := |s.q.versions|;
    var vs := later.q.versions;
    assert vs[n] == vs[..n + 1][n] && vs[n - 1] == vs[..n + 1][n - 1];
    ReplayOfStoredEdit(later, actor, key, EditRequest(expected, items), n, laterAllowed, fold);
  }

  lemma {:induction false} ReplayOfStoredEdit(s: State, actor: Id, key: string, request: Request, n: nat,
                                              allowed: Option<set<string>>, fold: Fold)
    requires Inv(s) && request.EditRequest? && key != "" && 0 < n < |s.q.versions|
    requires Key(actor, EditKey, key) in s.q.keys && s.q.keys[Key(actor, EditKey, key)] == request
    requires s.q.versions[n - 1].id == request.expected
    ensures Edit(s.q, s.nextId, actor, key, request.expected, request.items, allowed, fold)
            == Outcome(s.q, s.nextId, if Mutable(s.q.status) then Ok(VersionReply(s.q.versions[n])) else Err(Invalid))
  {
    var vs := s.q.versions;
    FindAt(vs, |vs| - 1, s.nextId);
    ReplayFindsNext(s, n, request.expected);
  }

  lemma {:induction false} ReplayFindsNext(s: State, n: nat, expected: Id)
    requires Inv(s) && 0 < n < |s.q.versions| && s.q.versions[n - 1].id == expected
    ensures ReplayedEdit(s.q, expected) == Some(s.q.versions[n])
  {
    var vs := s.q.versions;
    assert NumberedAt(vs, n - 1, s.nextId);
    FindAt(vs, n - 1, s.nextId);
    FindAt(vs, n, s.nextId);
  }

  // Of two edits made from the same version under different keys, the second is refused.
  lemma {:induction false} NoLostEdit(s: State, actorA: Id, keyA: string, actorB: Id, keyB: string, expected: Id,
                                      a: seq<Question>, b: seq<Question>, allowed: Option<set<string>>, fold: Fold)
    requires Inv(s) && keyB != "" && (actorA, keyA) != (actorB, keyB)
    requires Key(actorA, EditKey, keyA) !in s.q.keys && Key(actorB, EditKey, keyB) !in s.q.keys
    requires Edit(s.q, s.nextId, actorA, keyA, expected, a, allowed, fold).reply.Ok?
    ensures var first := Edit(s.q, s.nextId, actorA, keyA, expected, a, allowed, fold);
            Edit(first.after, first.nextId, actorB, keyB, expected, b, allowed, fold)
            == Outcome(first.after, first.nextId, Err(OptimisticLock))
  {
    var first := Edit(s.q, s.nextId, actorA, keyA, expected, a, allowed, fold);
    EditKeeps(s, actorA, keyA, expected, a, allowed, fold);
    var vs := first.after.versions;
    FindAt(vs, |vs| - 1, first.nextId);
    assert NumberedAt(s.q.versions, |s.q.versions| - 1, s.nextId);
  }

  // ---------- what each operation does ----------

  predicate GivesEvidence(q: Question) {
    q.resumeEvidence.Some? && !Text.Blank(q.resumeEvidence.value)
  }

  // An outline is accepted exactly when it has 1 to 30 questions ordered from 1, each under a key
  // of the snapshot and with resume evidence exactly if it rests on the resume, and no two that
  // read the same but for case and white space.
  lemma {:induction false} OutlineAcceptedIff(items: seq<Question>, allowed: set<string>, fold: Fold)
    ensures OutlineAccepted(items, allowed, fold) <==>
            && 1 <= |items| <= 30
            && (forall i | 0 <= i < |items| ::
                  && items[i].order == i + 1
                  && items[i].key in allowed
                  && (items[i].source == ResumeExperience <==> GivesEvidence(items[i])))
            && (forall i, j | 0 <= i < j < |items| ::
                  fold(RemoveSpaces(items[i].text)) != fold(RemoveSpaces(items[j].text)))
  {
    forall i | 0 <= i < |items|
      ensures NormalizedTexts(items, fold)[i] == fold(RemoveSpaces(items[i].text))
    {
      StripRedundant(items[i].text);
    }
  }

  // A version stored by a generation task: the accepted outline, under the task's frozen data.
  predicate HoldsOutline(v: Version, no: nat, task: TaskInput, items: seq<Question>) {
    && v.no == no
    && v.items == items
    && v.taskId == Some(task.taskId)
    && v.createdBy == task.createdBy
    && v.jobVersionId == task.jobVersionId
    && v.resumeVersionId == task.resumeVersionId
    && v.inputHash == task.inputHash
  }

  // Persisting a task that has no version yet succeeds exactly for an accepted outline, and then
  // appends one version that holds it, makes that version current and the set a draft again; a
  // task that has one is answered with it and changes nothing.
  lemma {:induction false} PersistEffect(s: State, task: TaskInput, items: seq<Question>, fold: Fold)
    requires Inv(s)
    ensures var o := Persist(s.q, s.nextId, task, items, fold);
            var stored := FindByTask(s.q.versions, task.taskId);
            && (stored.Some? ==> o == Outcome(s.q, s.nextId, Ok(VersionReply(stored.value))))
            && (stored.None? ==>
                  && (o.reply.Ok? <==> OutlineAccepted(items, task.allowed, fold))
                  && (o.reply.Err? ==> o.after == s.q && o.nextId == s.nextId)
                  && (o.reply.Ok? ==>
                        && o.reply.value.VersionReply? && o.nextId == s.nextId + 1
                        && HoldsOutline(o.reply.value.version, |s.q.versions| + 1, task, items)
                        && Appends(s.q, o.after, o.reply.value.version) && o.after.keys == s.q.keys))
  {
    MaxNoIsCount(s.q.versions, s.nextId, |s.q.versions|);
    assert s.q.versions[..|s.q.versions|] == s.q.versions;
  }

  // The version is the new last one and current, and the set is not ready.
  predicate Appends(q: QuestionSet, after: QuestionSet, v: Version) {
    && after.versions == q.versions + [v]
    && after.current == Some(v.id)
    && !after.ready && after.confirmedBy == None
    && after.status == q.status
  }

  // Whatever happens later, the version stays as it was stored, and persisting its task again,
  // with whatever outline, answers with it and changes nothing.
  lemma {:induction false} PersistedForGood(s: State, task: TaskInput, items: seq<Question>, fold: Fold, cmds: seq<Cmd>,
                                            otherItems: seq<Question>, otherFold: Fold)
    requires Inv(s) && FindByTask(s.q.versions, task.taskId).None?
    requires Persist(s.q, s.nextId, task, items, fold).reply.Ok?
    ensures var first := Persist(s.q, s.nextId, task, items, fold);
            var later := Exec(State(first.after, first.nextId), cmds);
            && |s.q.versions| < |later.q.versions|
            && HoldsOutline(later.q.versions[|s.q.versions|], |s.q.versions| + 1, task, items)
            && Persist(later.q, later.nextId, task, otherItems, otherFold) == Outcome(later.q, later.nextId, first.reply)
  {
    var first := Persist(s.q, s.nextId, task, items, fold);
    PersistEffect(s, task, items, fold);
    PersistKeeps(s, task, items, fold);
    RunsKeep(State(first.after, first.nextId), cmds);
    var later, n := Exec(State(first.after, first.nextId), cmds), |s.q.versions|;
    assert later.q.versions[n] == later.q.versions[..n + 1][n] == first.reply.value.version;
    FoundByTask(later, n, task.taskId);
  }

  lemma {:induction false} FoundByTask(s: State, n: nat, taskId: Id)
    requires Inv(s) && n < |s.q.versions| && s.q.versions[n].taskId == Some(taskId)
    ensures FindByTask(s.q.versions, taskId) == Some(s.q.versions[n])
  {
    assert s.q.versions[n] in s.q.versions;
    var found := FindByTask(s.q.versions, taskId);
    var j :| 0 <= j < |s.q.versions| && s.q.versions[j] == found.value;
    assert !(j < n) && !(n < j);
  }

  predicate OpenForChanges(status: RoundStatus.Status) {
    status == RoundStatus.Scheduled || status == RoundStatus.Confirmed || status == RoundStatus.InProgress
  }

  // An edit under an unused key succeeds exactly on a round that is scheduled, confirmed or in
  // progress, from the current version, with an accepted outline; it then appends a version that
  // holds the sent outline and the frozen data of the version it was made from.
  lemma {:induction false} EditEffect(s: State, actor: Id, key: string, expected: Id, items: seq<Question>,
                                      allowed: Option<set<string>>, fold: Fold)
    requires Inv(s) && Key(actor, EditKey, key) !in s.q.keys
    ensures var o := Edit(s.q, s.nextId, actor, key, expected, items, allowed, fold);
            && (o.reply.Ok? <==>
                  && key != "" && OpenForChanges(s.q.status) && s.q.current == Some(expected)
                  && allowed.Some? && OutlineAccepted(items, allowed.value, fold))
            && (o.reply.Err? ==> o.after == s.q && o.nextId == s.nextId)
            && (o.reply.Ok? ==>
                  && s.q.versions != [] && o.reply.value.VersionReply? && o.nextId == s.nextId + 1
                  && HoldsEdit(o.reply.value.version, s.q.versions[|s.q.versions| - 1], actor, items)
                  && Appends(s.q, o.after, o.reply.value.version)
                  && o.after.keys == s.q.keys[Key(actor, EditKey, key) := EditRequest(expected, items)])
  {
    var vs := s.q.versions;
    MaxNoIsCount(vs, s.nextId, |vs|);
    assert vs[..|vs|] == vs;
    if vs != [] {
      FindAt(vs, |vs| - 1, s.nextId);
      assert NumberedAt(vs, |vs| - 1, s.nextId);
    }
  }

  predicate HoldsEdit(v: Version, base: Version, actor: Id, items: seq<Question>) {
    && v.no == base.no + 1
    && v.items == items
    && v.taskId == None
    && v.createdBy == actor
    && v.jobVersionId == base.jobVersionId
    && v.resumeVersionId == base.resumeVersionId
    && v.inputHash == base.inputHash
  }

  // A confirm under an unused key succeeds exactly on such a round and for the current version,
  // and then marks the set ready for the actor and changes no version; a replay changes nothing
  // and shows the set as it is now.
  lemma {:induction false} ConfirmEffect(s: State, actor: Id, key: string, expected: Id)
    requires Inv(s) && OpenForChanges(s.q.status)
    ensures var o := Confirm(s.q, s.nextId, actor, key, expected);
            var k := Key(actor, ConfirmKey, key);
            && o.nextId == s.nextId
            && (k !in s.q.keys ==>
                  && (o.reply.Ok? <==> key != "" && s.q.current == Some(expected))
                  && (o.reply.Err? ==> o.after == s.q)
                  && (o.reply.Ok? ==>
                        && o.after == s.q.(ready := true, confirmedBy := Some(actor), keys := s.q.keys[k := ConfirmRequest(expected)])
                        && o.reply.value == SetReply(true, Some(actor))))
            && (k in s.q.keys && key != "" ==>
                  && o.after == s.q
                  && (o.reply.Ok? <==> s.q.current.Some? && s.q.keys[k] == ConfirmRequest(expected))
                  && (o.reply.Ok? ==> o.reply.value == SetReply(s.q.ready, s.q.confirmedBy)))
  {
    var vs := s.q.versions;
    if vs != [] {
      FindAt(vs, |vs| - 1, s.nextId);
      assert NumberedAt(vs, |vs| - 1, s.nextId);
    }
  }

  // On any other round both are refused and change nothing.
  lemma {:induction false} ClosedForChanges(s: State, actor: Id, key: string, expected: Id, items: seq<Question>,
                                            allowed: Option<set<string>>, fold: Fold)
    requires !OpenForChanges(s.q.status)
    ensures Edit(s.q, s.nextId, actor, key, expected, items, allowed, fold) == Outcome(s.q, s.nextId, Err(Invalid))
    ensures Confirm(s.q, s.nextId, actor, key, expected) == Outcome(s.q, s.nextId, Err(Invalid))
  {
  }
}
