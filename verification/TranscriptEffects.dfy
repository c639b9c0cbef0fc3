// What a successful transcript call does, stated without the code that does it.
module TranscriptEffects {
  import opened Common
  import opened Segments
  import opened Transcript
  import opened TranscriptHistory
  import opened TranscriptRuns
  import ChangeCounts
  import RoundStatus
  import Text

  // A first import stores the sent rows, numbered from 1, as the immutable original, and a later
  // import by anybody with any other payload answers with that original and stores no version.
  lemma {:induction false} OriginalIsStoredOnce(r: Round, nextId: Id, actor: Id, key: string, request: Request,
                                        file: Option<ParsedFile>,
                                                later: Round, laterId: Id, other: Id, otherKey: string, otherRequest: Request,
                                                otherFile: Option<ParsedFile>)
    requires Inv(r, nextId) && request.ImportRequest? && r.master.None?
    requires Import(r, nextId, actor, key, request, file).reply.Ok?
    requires Inv(later, laterId) && Later(Import(r, nextId, actor, key, request, file).round, later)
    requires otherRequest.ImportRequest? && SchemaOk(otherRequest.segments) && later.status == RoundStatus.PendingTranscript
    requires !Consume(later.keys, Key(other, ImportKey, later.id, otherKey), otherRequest).Clash?
    ensures var first := Import(r, nextId, actor, key, request, file);
            var second := Import(later, laterId, other, otherKey, otherRequest, otherFile);
            && OriginalOf(first.round).Some?
            && Bodies(OriginalOf(first.round).value.segments) == request.segments
            && !OriginalOf(first.round).value.editing
            && second.reply == Ok(VersionReply(OriginalOf(first.round).value))
            && second.round.versions == later.versions && second.nextId == laterId
  {
    var first := Import(r, nextId, actor, key, request, file);
    ImportKeeps(r, nextId, actor, key, request, file);
    FirstImport(r, nextId, actor, key, request, file);
    assert LinkAt(first.round.versions, 0);
    FindAt(first.round.versions, 0);
    FindAt(later.versions, 0);
  }

  lemma {:induction false} FirstImport(r: Round, nextId: Id, actor: Id, key: string, request: Request,
                                       file: Option<ParsedFile>)
    requires request.ImportRequest? && r.master.None?
    requires Import(r, nextId, actor, key, request, file).reply.Ok?
    ensures file.Some?
    ensures Import(r, nextId, actor, key, request, file)
            == Imported(r, nextId, Key(actor, ImportKey, r.id, key), request, file.value)
  {
  }

  // The rows of a draft made from a base: same content and inclusion, and every row refers to
  // where it comes from.
  ghost predicate RepeatsBase(draft: Segment, base: Segment) {
    && draft.no == base.no
    && SameContent(draft.body, base.body)
    && draft.body.included == base.body.included
    && draft.body.unclear == base.body.unclear
    && draft.body.refs == (if base.body.refs == [] then [base.no] else base.body.refs)
    && draft.source == (if base.body.refs == [] then Segments.Original else base.source)
  }

  // A new draft repeats the end of the chain row by row.
  lemma {:induction false} NewDraftRepeatsBase(r: Round, nextId: Id, actor: Id, key: string)
    requires Inv(r, nextId) && r.versions != [] && EditingDraft(r.versions).None?
    requires CreateDraft(r, nextId, actor, key).reply.Ok?
    ensures var o := CreateDraft(r, nextId, actor, key);
            var base := r.versions[|r.versions| - 1];
            var draft := EditingDraft(o.round.versions);
            && draft.Some? && o.reply == Ok(VersionReply(draft.value))
            && draft.value.basedOn == Some(base.id) && draft.value.rawText == base.rawText && draft.value.lock == 1
            && |draft.value.segments| == |base.segments|
            && (forall i | 0 <= i < |base.segments| :: RepeatsBase(draft.value.segments[i], base.segments[i]))
  {
    var base := r.versions[|r.versions| - 1];
    EditingIsLast(r.versions);
    BaseIsLast(r, nextId);
    CreateDraftKeeps(r, nextId, actor, key);
    CreatedFrom(r, nextId, actor, key, base);
    assert VersionOk(base, nextId);
    DraftRows(r.versions, nextId, base);
    LastIsEditing(CreateDraft(r, nextId, actor, key).round.versions, DraftFrom(r.versions, nextId, base));
  }

  lemma {:induction false} CreatedFrom(r: Round, nextId: Id, actor: Id, key: string, base: Version)
    requires EditingDraft(r.versions).None? && CreateDraft(r, nextId, actor, key).reply.Ok?
    requires r.master.Some?
    requires var m := r.master.value;
             var baseId := if m.confirmed.Some? then m.confirmed else m.original;
             baseId.Some? && FindVersion(r.versions, baseId.value) == Some(base)
    ensures CreateDraft(r, nextId, actor, key).reply == Ok(VersionReply(DraftFrom(r.versions, nextId, base)))
    ensures CreateDraft(r, nextId, actor, key).round.versions == r.versions + [DraftFrom(r.versions, nextId, base)]
  {
  }

  lemma {:induction false} LastIsEditing(vs: seq<Version>, draft: Version)
    requires Linear(vs) && vs != [] && vs[|vs| - 1] == draft && draft.kind == D && draft.editing
    ensures EditingDraft(vs) == Some(draft)
  {
    assert LinkAt(vs, |vs| - 1);
    EditingIsLast(vs);
  }

  // While a draft is being edited, asking for one, by anybody under an unused key, answers with
  // that draft and stores no version.
  lemma {:induction false} OneDraftAtATime(r: Round, nextId: Id, actor: Id, key: string)
    requires Inv(r, nextId) && EditingDraft(r.versions).Some?
    requires r.master.Some? && Consume(r.keys, Key(actor, CreateKey, r.master.value.id, key), CreateRequest).Fresh?
    ensures var o := CreateDraft(r, nextId, actor, key);
            && o.reply == Ok(VersionReply(EditingDraft(r.versions).value))
            && o.round.versions == r.versions && o.nextId == nextId
            && o.round == r.(keys := Stored(r.keys, Key(actor, CreateKey, r.master.value.id, key), CreateRequest))
            && r.master.value.draft == Some(EditingDraft(r.versions).value.id)
  {
    EditingIsLast(r.versions);
  }

  lemma {:induction false} DraftRows(vs: seq<Version>, nextId: Id, base: Version)
    requires Numbered(base.segments)
    ensures var draft := DraftFrom(vs, nextId, base);
            && |draft.segments| == |base.segments|
            && forall i | 0 <= i < |base.segments| :: RepeatsBase(draft.segments[i], base.segments[i])
  {
  }

  // A draft fresh from an original whose rows name no source, saved untouched, reports no change.
  lemma {:induction false} FreshDraftSavesSilently(r: Round, nextId: Id, actor: Id, key: string)
    requires Inv(r, nextId) && |r.versions| == 1
    requires forall i | 0 <= i < |r.versions[0].segments| :: r.versions[0].segments[i].body.refs == []
    requires CreateDraft(r, nextId, actor, key).reply.Ok?
    ensures var o := CreateDraft(r, nextId, actor, key);
            var draft := EditingDraft(o.round.versions);
            draft.Some? && SavedCounts(o.round.versions, draft.value, Bodies(draft.value.segments)) == ChangeCounts.NO_CHANGES
  {
    var o := CreateDraft(r, nextId, actor, key);
    assert LinkAt(r.versions, 0);
    EditingIsLast(r.versions);
    NewDraftRepeatsBase(r, nextId, actor, key);
    CreateDraftKeeps(r, nextId, actor, key);
    var draft := EditingDraft(o.round.versions).value;
    var base := r.versions[0];
    assert VersionOk(base, nextId);
    assert o.round.versions[0] == base;
    FindAt(o.round.versions, 0);
    OwnNumbersInBase(base.segments, draft.segments);
    ChangeCounts.OwnNumbersResaveSilently(draft.segments, ByNo(base.segments));
  }

  lemma {:induction false} OwnNumbersInBase(base: seq<Segment>, rows: seq<Segment>)
    requires Numbered(base) && |rows| == |base|
    requires forall i | 0 <= i < |base| :: base[i].body.refs == [] && RepeatsBase(rows[i], base[i])
    ensures NosDistinct(rows)
    ensures forall i | 0 <= i < |rows| :: rows[i].body.refs == [rows[i].no] && rows[i].no in ByNo(base)
  {
    forall i | 0 <= i < |rows|
      ensures rows[i].body.refs == [rows[i].no] && rows[i].no in ByNo(base)
    {
      LookupByNo(base, i);
    }
  }

  // Completing without a transcript succeeds under an unused key exactly with a listed reason
  // (explained if it is OTHER), on a round that waits for its transcript, in its current version,
  // and without a transcript; it then completes the round and records the reason.
  lemma {:induction false} CompleteWithoutIff(r: Round, nextId: Id, actor: Id, key: string, request: Request)
    requires Inv(r, nextId) && request.WithoutRequest?
    requires Consume(r.keys, Key(actor, WithoutKey, r.id, key), request).Fresh?
    ensures var o := CompleteWithout(r, nextId, actor, key, request);
            && (o.reply.Ok? <==>
                  && ReasonOk(request.reason, request.description)
                  && r.status == RoundStatus.PendingTranscript
                  && r.version == request.version
                  && r.versions == [])
            && (o.reply.Ok? ==>
                  && o.round.status == RoundStatus.Completed
                  && o.round.completion == WithoutTranscript(request.reason, request.description)
                  && o.round.version == r.version + 1)
            && (!o.reply.Ok? ==> o.round == r)
  {
  }

  // ---------- imports ----------

  predicate TimesFit(b: Body) {
    || (b.startMs == None && b.endMs == None)
    || (b.startMs.Some? && b.endMs.Some? && 0 <= b.startMs.value && b.startMs.value < b.endMs.value)
  }

  // The key table after a call that stored its request: an empty key stores nothing.
  function Stored(keys: Keys, k: Key, request: Request): Keys {
    if k.text == "" then keys else keys[k := request]
  }

  // Rows as they were sent, marked against the rows they come from, under the newline-joined text.
  predicate HoldsRows(v: Version, sent: seq<Body>, base: seq<Segment>) {
    && |v.segments| == |sent|
    && (forall i | 0 <= i < |sent| ::
          && v.segments[i].no == i + 1
          && v.segments[i].body == sent[i]
          && v.segments[i].source == DeriveSource(sent[i], ByNo(base)))
    && v.rawText == Join(TextsOf(sent))
  }

  // The first import under an unused key succeeds exactly if rows were sent, each with no times or
  // with a start before its end, the round waits for its transcript, and the file could be parsed
  // and is the one the rows were reviewed from. It then stores the rows as T1.
  lemma {:induction false} FirstImportIff(r: Round, nextId: Id, actor: Id, key: string, request: Request,
                                          file: Option<ParsedFile>)
    requires Inv(r, nextId) && request.ImportRequest? && r.master.None?
    requires Consume(r.keys, Key(actor, ImportKey, r.id, key), request).Fresh?
    ensures var o := Import(r, nextId, actor, key, request, file);
            && (o.reply.Ok? <==>
                  && request.segments != [] && (forall i | 0 <= i < |request.segments| :: TimesFit(request.segments[i]))
                  && r.status == RoundStatus.PendingTranscript
                  && file.Some? && file.value.sha256 == request.sha256)
            && (o.reply.Err? ==> o.round == r && o.nextId == nextId)
            && (o.reply.Ok? ==>
                  && |o.round.versions| == 1
                  && o.reply == Ok(VersionReply(o.round.versions[0]))
                  && o.round.versions[0].kind == T && o.round.versions[0].no == 1 && o.round.versions[0].lock == 1
                  && !o.round.versions[0].editing && o.round.versions[0].basedOn == None
                  && HoldsRows(o.round.versions[0], request.segments, file.value.rows)
                  && o.round.master == Some(Master(nextId, Some(o.round.versions[0].id), None, None, 1))
                  && o.round.status == r.status && o.round.version == r.version && o.round.completion == r.completion
                  && o.round.keys == Stored(r.keys, Key(actor, ImportKey, r.id, key), request))
  {
    assert SchemaOk(request.segments) <==>
           request.segments != [] && forall i | 0 <= i < |request.segments| :: TimesFit(request.segments[i]);
  }

  // Once there is a transcript, an import under an unused key is answered with the original while
  // the round still waits, and refused after completion; a replayed import is answered with the
  // original at any time. None of them stores a version.
  lemma {:induction false} LaterImports(r: Round, nextId: Id, actor: Id, key: string, request: Request, file: Option<ParsedFile>)
    requires Inv(r, nextId) && request.ImportRequest? && SchemaOk(request.segments) && r.versions != []
    ensures var o := Import(r, nextId, actor, key, request, file);
            var k := Key(actor, ImportKey, r.id, key);
            && o.round.versions == r.versions && o.nextId == nextId
            && (key != "" && k in r.keys ==>
                  && o.round == r
                  && o.reply == (if r.keys[k] == request then Ok(VersionReply(r.versions[0])) else Err(IdempotencyConflict)))
            && (key == "" || k !in r.keys ==>
                  if r.status == RoundStatus.PendingTranscript
                  then o.reply == Ok(VersionReply(r.versions[0])) && o.round.keys == Stored(r.keys, k, request)
                  else o.round == r && o.reply == Err(Invalid))
  {
    assert LinkAt(r.versions, 0);
    FindAt(r.versions, 0);
  }

  // ---------- drafts ----------

  // Without a draft being edited, asking for one under an unused key succeeds exactly if there is
  // a transcript, and is refused without change otherwise.
  lemma {:induction false} CreateDraftIff(r: Round, nextId: Id, actor: Id, key: string)
    requires Inv(r, nextId) && EditingDraft(r.versions).None?
    requires r.master.Some? ==> Consume(r.keys, Key(actor, CreateKey, r.master.value.id, key), CreateRequest).Fresh?
    ensures var o := CreateDraft(r, nextId, actor, key);
            && (o.reply.Ok? <==> r.versions != [])
            && (o.reply.Err? ==> o.round == r && o.nextId == nextId)
            && (o.reply.Ok? ==>
                  && r.master.Some? && o.reply.value.VersionReply?
                  && o.round.master == Some(r.master.value.(draft := Some(o.reply.value.version.id), lock := r.master.value.lock + 1))
                  && o.round.keys == Stored(r.keys, Key(actor, CreateKey, r.master.value.id, key), CreateRequest))
  {
    if r.versions != [] {
      EditingIsLast(r.versions);
      BaseIsLast(r, nextId);
    }
  }

  // Replayed while a draft is being edited, it answers with that draft; replayed after its draft
  // was confirmed, it is a conflict. Neither changes anything.
  lemma {:induction false} ReplayedCreate(r: Round, nextId: Id, actor: Id, key: string)
    requires Inv(r, nextId) && r.master.Some? && Consume(r.keys, Key(actor, CreateKey, r.master.value.id, key), CreateRequest).Reused?
    ensures CreateDraft(r, nextId, actor, key) ==
            Outcome(r, nextId, if EditingDraft(r.versions).Some? then Ok(VersionReply(EditingDraft(r.versions).value))
                               else Err(IdempotencyConflict))
  {
  }

  // A save under an unused key that succeeds stores the sent rows in the draft, marked against the
  // version the draft is based on, reports the counters against what the draft held before, and
  // touches no other version.
  lemma {:induction false} SaveEffect(r: Round, nextId: Id, actor: Id, key: string, draftId: Id, request: Request)
    requires Inv(r, nextId) && request.SaveRequest? && SchemaOk(request.segments) && request.draftVersionId == draftId
    requires FindVersion(r.versions, draftId).Some? && FindVersion(r.versions, draftId).value.editing
    requires Consume(r.keys, Key(actor, SaveKey, draftId, key), request).Fresh?
    requires SaveDraft(r, nextId, actor, key, draftId, request).reply.Ok?
    ensures |r.versions| >= 2
    ensures SavedFrom(r, SaveDraft(r, nextId, actor, key, draftId, request), Key(actor, SaveKey, draftId, key), request)
    ensures SavedOver(r.versions, SaveDraft(r, nextId, actor, key, draftId, request), request.segments)
  {
    var vs, n := r.versions, |r.versions| - 1;
    EditingPlaceOfDraft(vs, draftId);
    assert LinkAt(vs, n);
    SavedColumns(r, nextId, Key(actor, SaveKey, draftId, key), request, vs[n]);
    SavedOutcome(vs, nextId, request.segments, SaveDraft(r, nextId, actor, key, draftId, request));
  }

  predicate SavedFrom(r: Round, o: Outcome, k: Key, request: Request) {
    && r.master.Some? && o.round.master == Some(r.master.value.(lock := r.master.value.lock + 1))
    && o.round.keys == Stored(r.keys, k, request)
    && o.round.id == r.id && o.round.status == r.status && o.round.version == r.version && o.round.completion == r.completion
  }

  lemma {:induction false} SavedColumns(r: Round, nextId: Id, k: Key, request: Request, draft: Version)
    requires request.SaveRequest? && r.master.Some?
    ensures SavedFrom(r, DraftSaved(r, nextId, k, request, draft), k, request)
  {
  }

  lemma {:induction false} SavedOutcome(vs: seq<Version>, nextId: Id, sent: seq<Body>, o: Outcome)
    requires Linear(vs) && |vs| >= 2 && |vs| % 2 == 0
    requires var saved := SavedVersion(vs, nextId, vs[|vs| - 1], sent);
             && o.round.versions == ReplaceVersion(vs, saved)
             && o.reply == Ok(SaveReply(saved, SavedCounts(vs, vs[|vs| - 1], sent)))
    ensures SavedOver(vs, o, sent)
  {
    SavedPlace(vs, nextId, sent);
    SavedHolds(vs, nextId, sent, o.reply.value.saved);
  }

  // The last version was replaced by one that holds the sent rows, and the reply shows it with the
  // counters.
  predicate SavedOver(vs: seq<Version>, o: Outcome, sent: seq<Body>) {
    && |vs| >= 2
    && o.reply.Ok? && o.reply.value.SaveReply?
    && o.round.versions == vs[|vs| - 1 := o.reply.value.saved]
    && HoldsSave(o.reply.value.saved, o.reply.value.counts, vs[|vs| - 1], vs[|vs| - 2], sent)
  }

  predicate HoldsSave(saved: Version, counts: ChangeCounts.Counts, draft: Version, base: Version, sent: seq<Body>) {
    && HoldsRows(saved, sent, base.segments)
    && saved.id == draft.id && saved.lock == draft.lock + 1
    && counts == ChangeCounts.CountsOf(draft.segments, sent, DeriveSources(sent, ByNo(base.segments)))
  }

  lemma {:induction false} SavedHolds(vs: seq<Version>, nextId: Id, sent: seq<Body>, saved: Version)
    requires Linear(vs) && |vs| >= 2 && |vs| % 2 == 0
    requires saved == SavedVersion(vs, nextId, vs[|vs| - 1], sent)
    ensures HoldsSave(saved, SavedCounts(vs, vs[|vs| - 1], sent), vs[|vs| - 1], vs[|vs| - 2], sent)
  {
    var n := |vs| - 1;
    assert LinkAt(vs, n);
    FindAt(vs, n - 1);
    assert BaseRows(vs, vs[n]) == vs[n - 1].segments;
    var sources := DeriveSources(sent, ByNo(vs[n - 1].segments));
    assert saved.segments == NewSegments(sent, sources, nextId);
    forall i | 0 <= i < |sent|
      ensures saved.segments[i].body == sent[i]
    {
      assert saved.segments[i].body == Bodies(saved.segments)[i];
    }
  }

  // A save is refused without change if its rows do not fit, if it names another draft than it is
  // sent to, and if there is no such draft.
  lemma {:induction false} SaveRefusals(r: Round, nextId: Id, actor: Id, key: string, draftId: Id, request: Request)
    requires request.SaveRequest?
    ensures var o := SaveDraft(r, nextId, actor, key, draftId, request);
            var fit := request.segments != [] && forall i | 0 <= i < |request.segments| :: TimesFit(request.segments[i]);
            && (o.reply.Err? ==> o.round == r && o.nextId == nextId)
            && (!fit ==> o.reply == Err(SchemaError))
            && (fit && request.draftVersionId != draftId ==> o.reply == Err(Invalid))
            && (fit && request.draftVersionId == draftId && (forall v | v in r.versions :: v.id != draftId) ==> o.reply == Err(NotFound))
  {
    assert SchemaOk(request.segments) <==>
           request.segments != [] && forall i | 0 <= i < |request.segments| :: TimesFit(request.segments[i]);
  }

  // A replayed save answers with the draft as it is now and no changes, and changes nothing; once
  // the draft is confirmed it is refused, as is any save under its key with other content.
  lemma {:induction false} ReplayedSave(r: Round, nextId: Id, actor: Id, key: string, draftId: Id, request: Request)
    requires Inv(r, nextId) && request.SaveRequest? && SchemaOk(request.segments) && request.draftVersionId == draftId
    requires FindVersion(r.versions, draftId).Some?
    requires key != "" && Key(actor, SaveKey, draftId, key) in r.keys
    ensures var draft := FindVersion(r.versions, draftId).value;
            SaveDraft(r, nextId, actor, key, draftId, request) ==
            Outcome(r, nextId, if !draft.editing then Err(Invalid)
                               else if r.keys[Key(actor, SaveKey, draftId, key)] != request then Err(IdempotencyConflict)
                               else Ok(SaveReply(draft, ChangeCounts.Counts(0, 0, 0, 0, 0, 0, 0))))
  {
    var i := FoundAt(r.versions, draftId);
    assert LinkAt(r.versions, i);
  }

  // ---------- confirming and completing ----------

  // A version can be confirmed exactly if none of its texts is blank, its times fit, and one row
  // at least is included.
  lemma {:induction false} ConfirmableIff(bodies: seq<Body>)
    ensures Confirmable(bodies) <==>
            && (forall i | 0 <= i < |bodies| :: !Text.Blank(bodies[i].text) && TimesFit(bodies[i]))
            && (exists i | 0 <= i < |bodies| :: bodies[i].included)
  {
  }

  // A confirm that succeeds on an editing draft freezes it and appends a confirmed version with the
  // same rows, sources and text; it completes the round, raising the round's version if it was
  // waiting, and answers with the new version.
  lemma {:induction false} ConfirmEffect(r: Round, nextId: Id, actor: Id, key: string, draftId: Id, request: Request)
    requires Inv(r, nextId) && request.ConfirmRequest?
    requires FindVersion(r.versions, draftId).Some? && FindVersion(r.versions, draftId).value.editing
    requires ConfirmDraft(r, nextId, actor, key, draftId, request).reply.Ok?
    ensures r.versions != []
    ensures var o := ConfirmDraft(r, nextId, actor, key, draftId, request);
            var n := |r.versions|;
            && |o.round.versions| == n + 1 && o.round.versions[..n - 1] == r.versions[..n - 1]
            && o.round.versions[n - 1] == r.versions[n - 1].(editing := false)
            && CopyOf(o.round.versions[n], r.versions[n - 1])
            && o.reply == Ok(VersionReply(o.round.versions[n]))
            && r.master.Some?
            && o.round.master == Some(r.master.value.(confirmed := Some(o.round.versions[n].id), draft := None,
                                                      lock := r.master.value.lock + 1))
            && o.round.status == RoundStatus.Completed && o.round.completion == ConfirmedTranscript
            && o.round.version == (if r.status == RoundStatus.PendingTranscript then r.version + 1 else r.version)
            && o.round.keys == Stored(r.keys, Key(actor, ConfirmKey, draftId, key), request)
  {
    EditingPlaceOfDraft(r.versions, draftId);
    EditingDraftHasNoConfirmKey(r, nextId, Key(actor, ConfirmKey, draftId, key));
    var draft := r.versions[|r.versions| - 1];
    assert VersionOk(draft, nextId);
    ReplaceLast(r.versions, draft.(editing := false));
    ConfirmedFromCopies(r.versions, nextId, draft);
  }

  predicate CopyOf(v: Version, draft: Version) {
    && v.kind == C && !v.editing && v.basedOn == Some(draft.id)
    && |v.segments| == |draft.segments|
    && (forall i | 0 <= i < |v.segments| ::
          v.segments[i].body == draft.segments[i].body && v.segments[i].source == draft.segments[i].source)
    && v.rawText == draft.rawText && v.lock == 1
  }

  lemma {:induction false} ConfirmedFromCopies(vs: seq<Version>, nextId: Id, draft: Version)
    requires draft.rawText == Aggregate(draft.segments)
    ensures CopyOf(ConfirmedFrom(vs, nextId, draft), draft)
  {
    var v := ConfirmedFrom(vs, nextId, draft);
    assert Bodies(v.segments) == Bodies(draft.segments);
    forall i | 0 <= i < |v.segments|
      ensures v.segments[i].body == draft.segments[i].body
    {
      assert v.segments[i].body == Bodies(v.segments)[i];
    }
  }

  // A confirm of a draft that was confirmed before changes nothing: under the key of a confirm of
  // it, with the same version, it is answered with the newest confirmed version; with another
  // version it is a conflict; under any other key it is refused.
  lemma {:induction false} ConfirmOfFrozenDraft(r: Round, nextId: Id, actor: Id, key: string, draftId: Id, request: Request)
    requires Inv(r, nextId) && request.ConfirmRequest? && |r.versions| >= 3
    requires FindVersion(r.versions, draftId).Some? && FindVersion(r.versions, draftId).value.kind == D
    requires !FindVersion(r.versions, draftId).value.editing
    ensures var k := Key(actor, ConfirmKey, draftId, key);
            ConfirmedOf(r).Some? && ConfirmDraft(r, nextId, actor, key, draftId, request) ==
            Outcome(r, nextId, if key == "" || k !in r.keys then Err(Invalid)
                               else if r.keys[k] != request then Err(IdempotencyConflict)
                               else Ok(VersionReply(ConfirmedOf(r).value)))
  {
    ConfirmedHasText(r, nextId);
  }

  // A reason is acceptable exactly if it is one of the five listed, explained if it is OTHER.
  lemma {:induction false} ReasonOkIff(reason: Reason, description: Option<string>)
    ensures ReasonOk(reason, description) <==>
            || reason == ExternalToolUnavailable || reason == RecordingNotPermitted
            || reason == TranscriptFileLost || reason == ContentUnusable
            || (reason == OtherReason && description.Some? && !Text.Blank(description.value))
  {
  }

  // A replayed completion answers with the round as it is now and changes nothing; the same key
  // with another reason, description or version is a conflict.
  lemma {:induction false} ReplayedCompletion(r: Round, nextId: Id, actor: Id, key: string, request: Request)
    requires request.WithoutRequest? && ReasonOk(request.reason, request.description)
    requires key != "" && Key(actor, WithoutKey, r.id, key) in r.keys
    ensures var o := CompleteWithout(r, nextId, actor, key, request);
            && o.round == r && o.nextId == nextId
            && (r.keys[Key(actor, WithoutKey, r.id, key)] != request ==> o.reply == Err(IdempotencyConflict))
            && (r.keys[Key(actor, WithoutKey, r.id, key)] == request && !r.completion.NotCompleted? ==>
                  o.reply == Ok(WithoutReply(r.status, r.version, r.completion)))
  {
  }

  // Any other action moves the round as the table says and raises its version, except that
  // completing is refused here and rescheduling sends a scheduled or confirmed round back.
  lemma {:induction false} AdvanceEffect(r: Round, nextId: Id, action: RoundStatus.Action)
    ensures var o := Advance(r, nextId, action);
            var target := if action == RoundStatus.Complete then None
                          else if action == RoundStatus.Reschedule
                          then (if r.status == RoundStatus.Scheduled || r.status == RoundStatus.Confirmed
                                then Some(RoundStatus.Scheduled) else None)
                          else RoundStatus.NextStatus(r.status, action);
            if target.Some? then o.reply.Ok? && o.round == r.(status := target.value, version := r.version + 1)
            else o.reply == Err(Invalid) && o.round == r
  {
  }
}
