// The transcript of one interview round: one immutable original T1, then alternating editing
// drafts Dk and immutable confirmed copies Ck (interview_transcripts.py). Every service call
// locks the rows it touches, so a call is one atomic step on the state below.
module Transcript {
  import opened Common
  import opened Segments
  import ChangeCounts
  import RoundStatus
  import Text

  // ---------- state ----------

  // T1 is the imported original, Dk a draft, Ck a confirmed copy.
  datatype Kind = T | D | C

  datatype Version = Version(
    id: Id, kind: Kind, no: nat, editing: bool, basedOn: Option<Id>,
    segments: seq<Segment>, rawText: string, lock: nat)

  // The catalog of reasons for completing without a transcript; Unlisted is any other code.
  datatype Reason =
    | ExternalToolUnavailable
    | RecordingNotPermitted
    | TranscriptFileLost
    | ContentUnusable
    | OtherReason
    | Unlisted(code: string)

  datatype Completion =
    | NotCompleted
    | ConfirmedTranscript
    | WithoutTranscript(reason: Reason, description: Option<string>)

  datatype Master = Master(id: Id, original: Option<Id>, draft: Option<Id>, confirmed: Option<Id>, lock: nat)

  // The stored request of an idempotency key stands for its hash.
  datatype Request =
    | ImportRequest(sha256: string, segments: seq<Body>)
    | CreateRequest
    | SaveRequest(draftVersionId: Id, version: int, segments: seq<Body>)
    | ConfirmRequest(version: int)
    | WithoutRequest(reason: Reason, description: Option<string>, version: int)

  datatype KeyAction = ImportKey | CreateKey | SaveKey | ConfirmKey | WithoutKey

  datatype Key = Key(actor: Id, action: KeyAction, scope: Id, text: string)

  type Keys = map<Key, Request>

  datatype Round = Round(
    id: Id, status: RoundStatus.Status, version: nat, completion: Completion,
    master: Option<Master>, versions: seq<Version>, keys: Keys)

  datatype Error = SchemaError | NotFound | Invalid | IdempotencyConflict | OptimisticLock

  datatype Reply =
    | VersionReply(version: Version)
    | SaveReply(saved: Version, counts: ChangeCounts.Counts)
    | WithoutReply(status: RoundStatus.Status, roundVersion: nat, completion: Completion)
    | Done

  // What a call leaves behind: the round, the next unused id, and the answer.
  datatype Outcome = Outcome(round: Round, nextId: Id, reply: Result<Reply, Error>)

  // What decoding and parsing the imported file yields; None is a parse error.
  datatype ParsedFile = ParsedFile(sha256: string, rows: seq<Segment>)

  // ---------- idempotency keys ----------

  datatype Consumed = Fresh | Reused | Clash

  function Consume(keys: Keys, key: Key, request: Request): Consumed {
    if key.text == "" || key !in keys then Fresh
    else if keys[key] == request then Reused
    else Clash
  }

  function Store(keys: Keys, key: Key, request: Request): Keys {
    if key.text == "" then keys else keys[key := request]
  }

  // ---------- lookups ----------

  function FindVersion(versions: seq<Version>, id: Id): (r: Option<Version>)
    ensures r.Some? ==> r.value in versions && r.value.id == id
    ensures r.None? ==> forall v | v in versions :: v.id != id
  {
    if versions == [] then None
    else if versions[0].id == id then Some(versions[0])
    else FindVersion(versions[1..], id)
  }

  function EditingDraft(versions: seq<Version>): (r: Option<Version>)
    ensures r.Some? ==> r.value in versions && r.value.kind == D && r.value.editing
    ensures r.None? ==> forall v | v in versions :: !(v.kind == D && v.editing)
  {
    if versions == [] then None
    else if versions[0].kind == D && versions[0].editing then Some(versions[0])
    else EditingDraft(versions[1..])
  }

  function MaxNo(versions: seq<Version>, kind: Kind): nat {
    if versions == [] then 0
    else
      var n := |versions| - 1;
      Max(MaxNo(versions[..n], kind), if versions[n].kind == kind then versions[n].no else 0)
  }

  function NextNo(versions: seq<Version>, kind: Kind): nat {
    MaxNo(versions, kind) + 1
  }

  // Row updates by primary key.
  function ReplaceVersion(versions: seq<Version>, updated: Version): (r: seq<Version>)
    ensures |r| == |versions|
    ensures forall i | 0 <= i < |r| :: r[i] == if versions[i].id == updated.id then updated else versions[i]
  {
    seq(|versions|, i requires 0 <= i < |versions| => if versions[i].id == updated.id then updated else versions[i])
  }

  function Aggregate(segments: seq<Segment>): string {
    Join(TextsOf(Bodies(segments)))
  }

  // ---------- checks ----------

  predicate SchemaOk(segments: seq<Body>) {
    segments != [] && forall i | 0 <= i < |segments| :: TimeRangeValid(segments[i])
  }

  predicate Confirmable(bodies: seq<Body>) {
    && (forall i | 0 <= i < |bodies| :: !Text.Blank(bodies[i].text) && TimeRangeValid(bodies[i]))
    && (exists i | 0 <= i < |bodies| :: bodies[i].included)
  }

  predicate ReasonOk(reason: Reason, description: Option<string>) {
    && !reason.Unlisted?
    && (reason == OtherReason ==> description.Some? && !Text.Blank(description.value))
  }

  // ---------- the calls ----------

  function Fail(r: Round, nextId: Id, error: Error): Outcome {
    Outcome(r, nextId, Err(error))
  }

  function Answer(r: Round, nextId: Id, version: Version): Outcome {
    Outcome(r, nextId, Ok(VersionReply(version)))
  }

  // The original version of an existing master, if its pointer leads anywhere.
  function OriginalOf(r: Round): Option<Version> {
    if r.master.None? || r.master.value.original.None? then None
    else FindVersion(r.versions, r.master.value.original.value)
  }

  function ConfirmedOf(r: Round): Option<Version> {
    if r.master.None? || r.master.value.confirmed.None? then None
    else FindVersion(r.versions, r.master.value.confirmed.value)
  }

  function FirstVersion(nextId: Id, segments: seq<Body>, file: ParsedFile): Version {
    Version(nextId + 1, T, 1, false, None,
            NewSegments(segments, DeriveSources(segments, ByNo(file.rows)), nextId + 2),
            Join(TextsOf(segments)), 1)
  }

  function Imported(r: Round, nextId: Id, key: Key, request: Request, file: ParsedFile): Outcome
    requires request.ImportRequest?
  {
    var version := FirstVersion(nextId, request.segments, file);
    var master := Master(nextId, Some(version.id), None, None, 1);
    Answer(r.(master := Some(master), versions := [version], keys := Store(r.keys, key, request)),
           nextId + 2 + |request.segments|, version)
  }

  function Import(r: Round, nextId: Id, actor: Id, key: string, request: Request, file: Option<ParsedFile>): Outcome
    requires request.ImportRequest?
  {
    var k := Key(actor, ImportKey, r.id, key);
    var consumed := Consume(r.keys, k, request);
    var original := OriginalOf(r);
    if !SchemaOk(request.segments) then Fail(r, nextId, SchemaError)
    else if consumed.Clash? then Fail(r, nextId, IdempotencyConflict)
    else if consumed.Reused? then
      if original.None? then Fail(r, nextId, IdempotencyConflict) else Answer(r, nextId, original.value)
    else if r.status != RoundStatus.PendingTranscript then Fail(r, nextId, Invalid)
    else if r.master.Some? then
      if original.None? then Fail(r, nextId, Invalid)
      else Answer(r.(keys := Store(r.keys, k, request)), nextId, original.value)
    else if file.None? || file.value.sha256 != request.sha256 then Fail(r, nextId, Invalid)
    else Imported(r, nextId, k, request, file.value)
  }

  // A copied row without references refers to its own number.
  function Referring(s: Segment): Segment {
    if s.body.refs == [] then s.(source := Segments.Original, body := s.body.(refs := [s.no])) else s
  }

  function ReferringAll(segments: seq<Segment>): (r: seq<Segment>)
    ensures |r| == |segments| && forall i | 0 <= i < |r| :: r[i] == Referring(segments[i])
  {
    seq(|segments|, i requires 0 <= i < |segments| => Referring(segments[i]))
  }

  function CopySegments(segments: seq<Segment>, firstId: Id): seq<Segment> {
    NewSegments(Bodies(segments), SourcesOf(segments), firstId)
  }

  function DraftFrom(versions: seq<Version>, nextId: Id, base: Version): Version {
    Version(nextId, D, NextNo(versions, D), true, Some(base.id),
            CopySegments(ReferringAll(base.segments), nextId + 1), Aggregate(base.segments), 1)
  }

  function DraftCreated(r: Round, nextId: Id, key: Key, base: Version): Outcome
    requires r.master.Some?
  {
    var draft := DraftFrom(r.versions, nextId, base);
    var m := r.master.value;
    Answer(r.(master := Some(m.(draft := Some(draft.id), lock := m.lock + 1)),
              versions := r.versions + [draft],
              keys := Store(r.keys, key, CreateRequest)),
           nextId + 1 + |base.segments|, draft)
  }

  function CreateDraft(r: Round, nextId: Id, actor: Id, key: string): Outcome {
    if r.master.None? then Fail(r, nextId, NotFound)
    else if r.status !in {RoundStatus.PendingTranscript, RoundStatus.Completed} then Fail(r, nextId, Invalid)
    else
      var m := r.master.value;
      var k := Key(actor, CreateKey, m.id, key);
      var consumed := Consume(r.keys, k, CreateRequest);
      var editing := EditingDraft(r.versions);
      var baseId := if m.confirmed.Some? then m.confirmed else m.original;
      if consumed.Clash? then Fail(r, nextId, IdempotencyConflict)
      else if editing.Some? then
        Answer(if consumed.Reused? then r else r.(keys := Store(r.keys, k, CreateRequest)), nextId, editing.value)
      else if consumed.Reused? then Fail(r, nextId, IdempotencyConflict)
      else if baseId.None? || FindVersion(r.versions, baseId.value).None? then Fail(r, nextId, Invalid)
      else DraftCreated(r, nextId, k, FindVersion(r.versions, baseId.value).value)
  }

  function BaseRows(versions: seq<Version>, draft: Version): seq<Segment> {
    if draft.basedOn.None? then []
    else
      match FindVersion(versions, draft.basedOn.value)
      case None => []
      case Some(base) => base.segments
  }

  function SavedVersion(versions: seq<Version>, nextId: Id, draft: Version, segments: seq<Body>): Version {
    var sources := DeriveSources(segments, ByNo(BaseRows(versions, draft)));
    draft.(segments := NewSegments(segments, sources, nextId), rawText := Join(TextsOf(segments)), lock := draft.lock + 1)
  }

  function SavedCounts(versions: seq<Version>, draft: Version, segments: seq<Body>): ChangeCounts.Counts {
    ChangeCounts.CountsOf(draft.segments, segments, DeriveSources(segments, ByNo(BaseRows(versions, draft))))
  }

  function DraftSaved(r: Round, nextId: Id, key: Key, request: Request, draft: Version): Outcome
    requires request.SaveRequest? && r.master.Some?
  {
    var saved := SavedVersion(r.versions, nextId, draft, request.segments);
    var m := r.master.value;
    Outcome(r.(master := Some(m.(lock := m.lock + 1)),
               versions := ReplaceVersion(r.versions, saved),
               keys := Store(r.keys, key, request)),
            nextId + |request.segments|,
            Ok(SaveReply(saved, SavedCounts(r.versions, draft, request.segments))))
  }

  function SaveDraft(r: Round, nextId: Id, actor: Id, key: string, draftId: Id, request: Request): Outcome
    requires request.SaveRequest?
  {
    var found := FindVersion(r.versions, draftId);
    if !SchemaOk(request.segments) then Fail(r, nextId, SchemaError)
    else if request.draftVersionId != draftId then Fail(r, nextId, Invalid)
    else if found.None? then Fail(r, nextId, NotFound)
    else if found.value.kind != D || !found.value.editing then Fail(r, nextId, Invalid)
    else if r.master.None? then Fail(r, nextId, NotFound)
    else
      var k := Key(actor, SaveKey, draftId, key);
      match Consume(r.keys, k, request)
      case Clash => Fail(r, nextId, IdempotencyConflict)
      case Reused => Outcome(r, nextId, Ok(SaveReply(found.value, ChangeCounts.NO_CHANGES)))
      case Fresh =>
        if found.value.lock != request.version then Fail(r, nextId, OptimisticLock)
        else DraftSaved(r, nextId, k, request, found.value)
  }

  function ConfirmedFrom(versions: seq<Version>, nextId: Id, draft: Version): Version {
    Version(nextId, C, NextNo(versions, C), false, Some(draft.id),
            CopySegments(draft.segments, nextId + 1), Aggregate(draft.segments), 1)
  }

  function DraftConfirmed(r: Round, nextId: Id, key: Key, request: Request, draft: Version): Outcome
    requires r.master.Some?
  {
    var confirmed := ConfirmedFrom(r.versions, nextId, draft);
    var m := r.master.value;
    var completes := r.status == RoundStatus.PendingTranscript;
    Answer(r.(master := Some(m.(confirmed := Some(confirmed.id), draft := None, lock := m.lock + 1)),
              versions := ReplaceVersion(r.versions, draft.(editing := false)) + [confirmed],
              status := if completes then RoundStatus.Completed else r.status,
              version := if completes then r.version + 1 else r.version,
              completion := ConfirmedTranscript,
              keys := Store(r.keys, key, request)),
           nextId + 1 + |draft.segments|, confirmed)
  }

  function ConfirmDraft(r: Round, nextId: Id, actor: Id, key: string, draftId: Id, request: Request): Outcome
    requires request.ConfirmRequest?
  {
    var found := FindVersion(r.versions, draftId);
    if found.None? then Fail(r, nextId, NotFound)
    else
      var draft := found.value;
      var k := Key(actor, ConfirmKey, draftId, key);
      var consumed := Consume(r.keys, k, request);
      var current := ConfirmedOf(r);
      if draft.kind != D || !draft.editing then
        if r.master.None? || r.master.value.confirmed.None? then Fail(r, nextId, Invalid)
        else if consumed.Clash? then Fail(r, nextId, IdempotencyConflict)
        else if consumed.Reused? && current.Some? then Answer(r, nextId, current.value)
        else Fail(r, nextId, Invalid)
      else if r.master.None? then Fail(r, nextId, NotFound)
      else if consumed.Clash? then Fail(r, nextId, IdempotencyConflict)
      else if consumed.Reused? && current.Some? then Answer(r, nextId, current.value)
      else if draft.lock != request.version then Fail(r, nextId, OptimisticLock)
      else if !Confirmable(Bodies(draft.segments)) then Fail(r, nextId, Invalid)
      else DraftConfirmed(r, nextId, k, request, draft)
  }

  function CompleteWithout(r: Round, nextId: Id, actor: Id, key: string, request: Request): Outcome
    requires request.WithoutRequest?
  {
    var k := Key(actor, WithoutKey, r.id, key);
    var consumed := Consume(r.keys, k, request);
    if !ReasonOk(request.reason, request.description) then Fail(r, nextId, Invalid)
    else if consumed.Clash? then Fail(r, nextId, IdempotencyConflict)
    else if consumed.Reused? then
      var shown := if r.completion.NotCompleted? then WithoutTranscript(request.reason, None) else r.completion;
      Outcome(r, nextId, Ok(WithoutReply(r.status, r.version, shown)))
    else if r.status != RoundStatus.PendingTranscript then Fail(r, nextId, Invalid)
    else if r.version != request.version then Fail(r, nextId, OptimisticLock)
    else if r.master.Some? then Fail(r, nextId, Invalid)
    else
      var completion := WithoutTranscript(request.reason, request.description);
      Outcome(r.(status := RoundStatus.Completed, completion := completion, version := r.version + 1,
                 keys := Store(r.keys, k, request)),
              nextId, Ok(WithoutReply(RoundStatus.Completed, r.version + 1, completion)))
  }

  // Every other status action on the round. Completing is reserved to the calls above, and
  // rescheduling sends a scheduled or confirmed round back to Scheduled.
  function Advance(r: Round, nextId: Id, action: RoundStatus.Action): Outcome {
    if action == RoundStatus.Complete then Fail(r, nextId, Invalid)
    else if action == RoundStatus.Reschedule then
      if r.status in {RoundStatus.Scheduled, RoundStatus.Confirmed}
      then Outcome(r.(status := RoundStatus.Scheduled, version := r.version + 1), nextId, Ok(Done))
      else Fail(r, nextId, Invalid)
    else
      match RoundStatus.NextStatus(r.status, action)
      case None => Fail(r, nextId, Invalid)
      case Some(target) => Outcome(r.(status := target, version := r.version + 1), nextId, Ok(Done))
  }

  datatype Cmd =
    | DoImport(actor: Id, key: string, request: Request, file: Option<ParsedFile>)
    | DoCreateDraft(actor: Id, key: string)
    | DoSaveDraft(actor: Id, key: string, draftId: Id, request: Request)
    | DoConfirm(actor: Id, key: string, draftId: Id, request: Request)
    | DoCompleteWithout(actor: Id, key: string, request: Request)
    | DoAdvance(action: RoundStatus.Action)
    | ElsewhereIdsTaken(count: nat)

  predicate WellTyped(cmd: Cmd) {
    match cmd
    case DoImport(_, _, request, _) => request.ImportRequest?
    case DoSaveDraft(_, _, _, request) => request.SaveRequest?
    case DoConfirm(_, _, _, request) => request.ConfirmRequest?
    case DoCompleteWithout(_, _, request) => request.WithoutRequest?
    case _ => true
  }

  type Call = c: Cmd | WellTyped(c) witness DoAdvance(RoundStatus.Start)

  function Apply(r: Round, nextId: Id, call: Call): Outcome {
    match call
    case DoImport(actor, key, request, file) => Import(r, nextId, actor, key, request, file)
    case DoCreateDraft(actor, key) => CreateDraft(r, nextId, actor, key)
    case DoSaveDraft(actor, key, draftId, request) => SaveDraft(r, nextId, actor, key, draftId, request)
    case DoConfirm(actor, key, draftId, request) => ConfirmDraft(r, nextId, actor, key, draftId, request)
    case DoCompleteWithout(actor, key, request) => CompleteWithout(r, nextId, actor, key, request)
    case DoAdvance(action) => Advance(r, nextId, action)
    case ElsewhereIdsTaken(count) => Outcome(r, nextId + count, Ok(Done))
  }
}
