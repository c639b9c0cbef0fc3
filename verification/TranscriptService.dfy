// The transcript service as it updates its rows in place. Each method is proved to do exactly
// what the corresponding function of module Transcript says, and to keep the invariant.
module TranscriptService {
  import opened Common
  import opened Segments
  import opened Transcript
  import opened TranscriptHistory
  import ChangeCounts
  import RoundStatus
  import Runs = TranscriptRuns
  import Text

  // The loops that build a version's rows one by one.
  method BuildSegments(items: seq<Body>, base: RowsByNo, firstId: Id)
    returns (rows: seq<Segment>, sources: seq<Source>, texts: seq<string>)
    ensures sources == DeriveSources(items, base)
    ensures rows == NewSegments(items, sources, firstId)
    ensures texts == TextsOf(items)
  {
    rows, sources, texts := [], [], [];
    for i := 0 to |items|
      invariant |rows| == |sources| == |texts| == i
      invariant forall k | 0 <= k < i :: sources[k] == DeriveSource(items[k], base)
      invariant forall k | 0 <= k < i :: rows[k] == Segment(firstId + k, k + 1, sources[k], items[k])
      invariant forall k | 0 <= k < i :: texts[k] == items[k].text
    {
      var source := DeriveSource(items[i], base);
      sources := sources + [source];
      texts := texts + [items[i].text];
      rows := rows + [Segment(firstId + i, i + 1, source, items[i])];
    }
  }

  method CopyRows(source: seq<Segment>, firstId: Id) returns (rows: seq<Segment>)
    ensures rows == CopySegments(source, firstId)
  {
    rows := [];
    for i := 0 to |source|
      invariant |rows| == i
      invariant forall k | 0 <= k < i :: rows[k] == Segment(firstId + k, k + 1, source[k].source, source[k].body)
    {
      rows := rows + [Segment(firstId + i, i + 1, source[i].source, source[i].body)];
    }
  }

  method FillReferences(rows: seq<Segment>) returns (filled: seq<Segment>)
    ensures filled == ReferringAll(rows)
  {
    filled := rows;
    for i := 0 to |rows|
      invariant |filled| == |rows|
      invariant forall k | 0 <= k < i :: filled[k] == Referring(rows[k])
      invariant forall k | i <= k < |rows| :: filled[k] == rows[k]
    {
      if filled[i].body.refs == [] {
        filled := filled[i := filled[i].(source := Segments.Original, body := filled[i].body.(refs := [filled[i].no]))];
      }
    }
  }

  // _validate_confirm_segments
  method ValidateConfirmSegments(rows: seq<Segment>) returns (ok: bool)
    ensures ok <==> Confirmable(Bodies(rows))
  {
    var bodies := Bodies(rows);
    var included := 0;
    for i := 0 to |rows|
      invariant forall k | 0 <= k < i :: !Text.Blank(bodies[k].text) && TimeRangeValid(bodies[k])
      invariant included > 0 <==> exists k | 0 <= k < i :: bodies[k].included
    {
      if Text.Blank(bodies[i].text) || !TimeRangeValid(bodies[i]) {
        return false;
      }
      if bodies[i].included {
        included := included + 1;
      }
    }
    return included > 0;
  }

  class Service {
    const roundId: Id
    var status: RoundStatus.Status
    var roundVersion: nat
    var completion: Completion
    var master: Option<Master>
    var versions: seq<Version>
    var keys: Keys
    var nextId: Id

    function Contents(): Round
      reads this
    {
      Round(roundId, status, roundVersion, completion, master, versions, keys)
    }

    ghost predicate Valid()
      reads this
    {
      Inv(Contents(), nextId)
    }

    constructor (id: Id, firstId: Id)
      ensures Valid() && Contents() == NewRound(id) && nextId == firstId
    {
      roundId, status, roundVersion, completion := id, RoundStatus.Draft, 1, NotCompleted;
      master, versions, keys, nextId := None, [], map[], firstId;
      new;
      NewRoundOk(id, firstId);
    }

    method StoreKey(key: Key, request: Request)
      modifies this`keys
      ensures keys == Store(old(keys), key, request)
    {
      if key.text != "" {
        keys := keys[key := request];
      }
    }

    method ImportTranscript(actor: Id, key: string, request: Request, file: Option<ParsedFile>)
    returns (reply: Result<Reply, Error>)
      requires Valid() && request.ImportRequest?
      modifies this
      ensures Valid() && Outcome(Contents(), nextId, reply) == old(Import(Contents(), nextId, actor, key, request, file))
    {
      Runs.ImportKeeps(Contents(), nextId, actor, key, request, file);
      var k := Key(actor, ImportKey, roundId, key);
      if !SchemaOk(request.segments) {
        return Err(SchemaError);
      }
      var consumed := Consume(keys, k, request);
      if consumed.Clash? {
        return Err(IdempotencyConflict);
      }
      var original := OriginalOf(Contents());
      if consumed.Reused? {
        return if original.None? then Err(IdempotencyConflict) else Ok(VersionReply(original.value));
      }
      if status != RoundStatus.PendingTranscript {
        return Err(Invalid);
      }
      if master.Some? {
        if original.None? {
          return Err(Invalid);
        }
        StoreKey(k, request);
        return Ok(VersionReply(original.value));
      }
      if file.None? || file.value.sha256 != request.sha256 {
        return Err(Invalid);
      }
      reply := CreateMaster(k, request, file.value);
    }

    // The writes of a first import.
    method CreateMaster(key: Key, request: Request, file: ParsedFile) returns (reply: Result<Reply, Error>)
      requires request.ImportRequest?
      modifies this
      ensures Outcome(Contents(), nextId, reply) == old(Imported(Contents(), nextId, key, request, file))
    {
      var masterId, versionId := nextId, nextId + 1;
      var rows, sources, texts := BuildSegments(request.segments, ByNo(file.rows), nextId + 2);
      nextId := nextId + 2 + |rows|;
      var version := Version(versionId, T, 1, false, None, rows, Join(texts), 1);
      master := Some(Master(masterId, None, None, None, 1));
      versions := [version];
      master := Some(master.value.(original := Some(versionId)));
      StoreKey(key, request);
      return Ok(VersionReply(version));
    }

    method CreateTranscriptDraft(actor: Id, key: string) returns (reply: Result<Reply, Error>)
      requires Valid()
      modifies this
      ensures Valid() && Outcome(Contents(), nextId, reply) == old(CreateDraft(Contents(), nextId, actor, key))
    {
      Runs.CreateDraftKeeps(Contents(), nextId, actor, key);
      if master.None? {
        return Err(NotFound);
      }
      if status !in {RoundStatus.PendingTranscript, RoundStatus.Completed} {
        return Err(Invalid);
      }
      var k := Key(actor, CreateKey, master.value.id, key);
      var consumed := Consume(keys, k, CreateRequest);
      if consumed.Clash? {
        return Err(IdempotencyConflict);
      }
      var editing := EditingDraft(versions);
      if editing.Some? {
        if consumed.Fresh? {
          StoreKey(k, CreateRequest);
        }
        return Ok(VersionReply(editing.value));
      }
      if consumed.Reused? {
        return Err(IdempotencyConflict);
      }
      var baseId := if master.value.confirmed.Some? then master.value.confirmed else master.value.original;
      if baseId.None? {
        return Err(Invalid);
      }
      var base := FindVersion(versions, baseId.value);
      if base.None? {
        return Err(Invalid);
      }
      reply := OpenDraft(k, base.value);
    }

    // The writes of a new draft.
    method OpenDraft(key: Key, base: Version) returns (reply: Result<Reply, Error>)
      requires master.Some?
      modifies this
      ensures Outcome(Contents(), nextId, reply) == old(DraftCreated(Contents(), nextId, key, base))
    {
      var draftNo := NextNo(versions, D);
      var draftId := nextId;
      var filled := FillReferences(base.segments);
      var rows := CopyRows(filled, nextId + 1);
      var draft := Version(draftId, D, draftNo, true, Some(base.id), rows, Aggregate(base.segments), 1);
      nextId := nextId + 1 + |rows|;
      versions := versions + [draft];
      master := Some(master.value.(draft := Some(draftId)));
      master := Some(master.value.(lock := master.value.lock + 1));
      StoreKey(key, CreateRequest);
      return Ok(VersionReply(draft));
    }

    method SaveTranscriptDraft(actor: Id, key: string, draftId: Id, request: Request) returns (reply: Result<Reply, Error>)
      requires Valid() && request.SaveRequest?
      modifies this
      ensures Valid() && Outcome(Contents(), nextId, reply) == old(SaveDraft(Contents(), nextId, actor, key, draftId, request))
    {
      Runs.SaveDraftKeeps(Contents(), nextId, actor, key, draftId, request);
      if !SchemaOk(request.segments) {
        return Err(SchemaError);
      }
      if request.draftVersionId != draftId {
        return Err(Invalid);
      }
      var found := FindVersion(versions, draftId);
      if found.None? {
        return Err(NotFound);
      }
      var draft := found.value;
      if draft.kind != D || !draft.editing {
        return Err(Invalid);
      }
      if master.None? {
        return Err(NotFound);
      }
      var k := Key(actor, SaveKey, draftId, key);
      var consumed := Consume(keys, k, request);
      if consumed.Clash? {
        return Err(IdempotencyConflict);
      }
      if consumed.Reused? {
        return Ok(SaveReply(draft, ChangeCounts.NO_CHANGES));
      }
      if draft.lock != request.version {
        return Err(OptimisticLock);
      }
      reply := WriteDraft(draft, k, request);
    }

    // The draft with its new rows, aggregate and version, and what changed.
    method ReplaceSegments(draft: Version, items: seq<Body>) returns (saved: Version, counts: ChangeCounts.Counts)
      ensures saved == SavedVersion(versions, nextId, draft, items) && |saved.segments| == |items|
      ensures counts == SavedCounts(versions, draft, items)
    {
      var base := ByNo(BaseRows(versions, draft));
      var rows, sources, texts := BuildSegments(items, base, nextId);
      counts := ChangeCounts.ComputeChangeCounts(draft.segments, items, sources);
      saved := draft.(segments := rows, rawText := Join(texts));
      saved := saved.(lock := draft.lock + 1);
    }

    // The writes of a draft save.
    method WriteDraft(draft: Version, key: Key, request: Request) returns (reply: Result<Reply, Error>)
      requires master.Some? && request.SaveRequest?
      modifies this
      ensures Outcome(Contents(), nextId, reply) == old(DraftSaved(Contents(), nextId, key, request, draft))
    {
      var saved, counts := ReplaceSegments(draft, request.segments);
      nextId := nextId + |saved.segments|;
      versions := ReplaceVersion(versions, saved);
      master := Some(master.value.(lock := master.value.lock + 1));
      StoreKey(key, request);
      return Ok(SaveReply(saved, counts));
    }

    method ConfirmTranscriptDraft(actor: Id, key: string, draftId: Id, request: Request)
    returns (reply: Result<Reply, Error>)
      requires Valid() && request.ConfirmRequest?
      modifies this
      ensures Valid() && Outcome(Contents(), nextId, reply) == old(ConfirmDraft(Contents(), nextId, actor, key, draftId, request))
    {
      Runs.ConfirmKeeps(Contents(), nextId, actor, key, draftId, request);
      var found := FindVersion(versions, draftId);
      if found.None? {
        return Err(NotFound);
      }
      var draft := found.value;
      var k := Key(actor, ConfirmKey, draftId, key);
      var consumed := Consume(keys, k, request);
      var current := ConfirmedOf(Contents());
      if draft.kind != D || !draft.editing {
        if master.Some? && master.value.confirmed.Some? {
          if consumed.Clash? {
            return Err(IdempotencyConflict);
          }
          if consumed.Reused? && current.Some? {
            return Ok(VersionReply(current.value));
          }
        }
        return Err(Invalid);
      }
      if master.None? {
        return Err(NotFound);
      }
      if consumed.Clash? {
        return Err(IdempotencyConflict);
      }
      if consumed.Reused? && current.Some? {
        return Ok(VersionReply(current.value));
      }
      if draft.lock != request.version {
        return Err(OptimisticLock);
      }
      var rows := draft.segments;
      var ok := ValidateConfirmSegments(rows);
      if !ok {
        return Err(Invalid);
      }
      reply := Freeze(draft, k, request);
    }

    // The immutable copy of a draft.
    method CopyConfirmed(draft: Version) returns (confirmed: Version)
      ensures confirmed == ConfirmedFrom(versions, nextId, draft) && |confirmed.segments| == |draft.segments|
    {
      var confirmedNo := NextNo(versions, C);
      var rows := CopyRows(draft.segments, nextId + 1);
      confirmed := Version(nextId, C, confirmedNo, false, Some(draft.id), rows, Aggregate(draft.segments), 1);
    }

    // The writes of a successful confirm.
    method Freeze(draft: Version, key: Key, request: Request) returns (reply: Result<Reply, Error>)
      requires master.Some? && request.ConfirmRequest?
      modifies this
      ensures Outcome(Contents(), nextId, reply) == old(DraftConfirmed(Contents(), nextId, key, request, draft))
    {
      var confirmed := CopyConfirmed(draft);
      nextId := nextId + 1 + |confirmed.segments|;
      versions := ReplaceVersion(versions, draft.(editing := false));
      versions := versions + [confirmed];
      master := Some(master.value.(confirmed := Some(confirmed.id), draft := None, lock := master.value.lock + 1));
      if status == RoundStatus.PendingTranscript {
        status := RoundStatus.NextStatus(status, RoundStatus.Complete).value;
        roundVersion := roundVersion + 1;
      }
      completion := ConfirmedTranscript;
      StoreKey(key, request);
      return Ok(VersionReply(confirmed));
    }

    method CompleteWithoutTranscript(actor: Id, key: string, request: Request) returns (reply: Result<Reply, Error>)
      requires Valid() && request.WithoutRequest?
      modifies this
      ensures Valid() && Outcome(Contents(), nextId, reply) == old(CompleteWithout(Contents(), nextId, actor, key, request))
    {
      Runs.CompleteWithoutKeeps(Contents(), nextId, actor, key, request);
      var k := Key(actor, WithoutKey, roundId, key);
      if !ReasonOk(request.reason, request.description) {
        return Err(Invalid);
      }
      var consumed := Consume(keys, k, request);
      if consumed.Clash? {
        return Err(IdempotencyConflict);
      }
      if consumed.Reused? {
        var shown := if completion.NotCompleted? then WithoutTranscript(request.reason, None) else completion;
        return Ok(WithoutReply(status, roundVersion, shown));
      }
      if status != RoundStatus.PendingTranscript {
        return Err(Invalid);
      }
      if roundVersion != request.version {
        return Err(OptimisticLock);
      }
      if master.Some? {
        return Err(Invalid);
      }
      status := RoundStatus.NextStatus(status, RoundStatus.Complete).value;
      completion := WithoutTranscript(request.reason, request.description);
      roundVersion := roundVersion + 1;
      StoreKey(k, request);
      return Ok(WithoutReply(status, roundVersion, completion));
    }
  }
}
