// Every call keeps the transcript invariant, and what follows for whole runs of calls.
module TranscriptRuns {
  import opened Common
  import opened Segments
  import opened Transcript
  import opened TranscriptHistory
  import RoundStatus
  import Text

  // ---------- every call is a good step ----------

  lemma {:induction false} NothingChangesIsGood(r: Round, nextId: Id, o: Outcome)
    requires Inv(r, nextId) && o.round == r && nextId <= o.nextId
    ensures GoodStep(r, nextId, o)
  {
    AllOkLater(r.versions, nextId, o.nextId);
  }

  lemma {:induction false} ImportKeeps(r: Round, nextId: Id, actor: Id, key: string, request: Request,
                                       file: Option<ParsedFile>)
    requires Inv(r, nextId) && request.ImportRequest?
    ensures GoodStep(r, nextId, Import(r, nextId, actor, key, request, file))
  {
    var o := Import(r, nextId, actor, key, request, file);
    var k := Key(actor, ImportKey, r.id, key);
    if o.round == r && o.nextId == nextId {
      NothingChangesIsGood(r, nextId, o);
    } else if r.master.Some? {
      StoringKeepsInv(r, nextId, k, request);
    } else {
      ImportedKeeps(r, nextId, k, request, file.value);
    }
  }

  lemma {:induction false} CreateDraftKeeps(r: Round, nextId: Id, actor: Id, key: string)
    requires Inv(r, nextId)
    ensures GoodStep(r, nextId, CreateDraft(r, nextId, actor, key))
  {
    var o := CreateDraft(r, nextId, actor, key);
    if o.round == r && o.nextId == nextId {
      NothingChangesIsGood(r, nextId, o);
    } else {
      var k := Key(actor, CreateKey, r.master.value.id, key);
      EditingIsLast(r.versions);
      if EditingDraft(r.versions).Some? {
        StoringKeepsInv(r, nextId, k, CreateRequest);
      } else {
        BaseIsLast(r, nextId);
        DraftCreatedKeeps(r, nextId, k, r.versions[|r.versions| - 1]);
      }
    }
  }

  // A new draft is always based on the end of the chain.
  lemma {:induction false} BaseIsLast(r: Round, nextId: Id)
    requires Inv(r, nextId) && r.master.Some? && |r.versions| % 2 == 1
    ensures var m := r.master.value;
            var baseId := if m.confirmed.Some? then m.confirmed else m.original;
            baseId.Some? && FindVersion(r.versions, baseId.value) == Some(r.versions[|r.versions| - 1])
  {
    FindAt(r.versions, |r.versions| - 1);
  }

  lemma {:induction false} EditingPlace(vs: seq<Version>, id: Id)
    requires Linear(vs) && FindVersion(vs, id).Some?
    requires FindVersion(vs, id).value.kind == D && FindVersion(vs, id).value.editing
    ensures |vs| > 0 && |vs| % 2 == 0 && FindVersion(vs, id).value == vs[|vs| - 1]
  {
    var i := FoundAt(vs, id);
    assert LinkAt(vs, i);
  }

  // A save either changes nothing or replaces an editing draft under an unused key.
  lemma {:induction false} SaveCases(r: Round, nextId: Id, actor: Id, key: string, draftId: Id, request: Request)
    requires request.SaveRequest?
    ensures var o := SaveDraft(r, nextId, actor, key, draftId, request);
            var k := Key(actor, SaveKey, draftId, key);
            var found := FindVersion(r.versions, draftId);
            || (o.round == r && o.nextId == nextId)
            || (&& found.Some? && found.value.kind == D && found.value.editing && r.master.Some? && SchemaOk(request.segments)
                && Consume(r.keys, k, request).Fresh? && o == DraftSaved(r, nextId, k, request, found.value))
  {
  }

  lemma {:induction false} SaveDraftKeeps(r: Round, nextId: Id, actor: Id, key: string, draftId: Id, request: Request)
    requires Inv(r, nextId) && request.SaveRequest?
    ensures GoodStep(r, nextId, SaveDraft(r, nextId, actor, key, draftId, request))
  {
    var o := SaveDraft(r, nextId, actor, key, draftId, request);
    SaveCases(r, nextId, actor, key, draftId, request);
    if o.round == r && o.nextId == nextId {
      NothingChangesIsGood(r, nextId, o);
    } else {
      EditingPlace(r.versions, draftId);
      DraftSavedKeeps(r, nextId, Key(actor, SaveKey, draftId, key), request, r.versions[|r.versions| - 1]);
    }
  }

  // No confirm key is stored for a draft that is still being edited.
  lemma {:induction false} EditingDraftHasNoConfirmKey(r: Round, nextId: Id, k: Key)
    requires Inv(r, nextId) && k.action == ConfirmKey && FindVersion(r.versions, k.scope).Some?
    requires FindVersion(r.versions, k.scope).value.editing
    ensures k !in r.keys
  {
    if k in r.keys {
      var i: nat :| FrozenDraftAt(r.versions, i, k.scope);
      FindAt(r.versions, i);
    }
  }

  // A confirm either changes nothing or freezes an editing draft whose key is unused or whose
  // round has nothing confirmed yet.
  lemma {:induction false} ConfirmCases(r: Round, nextId: Id, actor: Id, key: string, draftId: Id, request: Request)
    requires request.ConfirmRequest?
    ensures var o := ConfirmDraft(r, nextId, actor, key, draftId, request);
            var k := Key(actor, ConfirmKey, draftId, key);
            var found := FindVersion(r.versions, draftId);
            || (o.round == r && o.nextId == nextId)
            || (&& found.Some? && found.value.kind == D && found.value.editing && r.master.Some?
                && Confirmable(Bodies(found.value.segments))
                && o == DraftConfirmed(r, nextId, k, request, found.value))
  {
  }

  lemma {:induction false} ConfirmKeeps(r: Round, nextId: Id, actor: Id, key: string, draftId: Id, request: Request)
    requires Inv(r, nextId) && request.ConfirmRequest?
    ensures GoodStep(r, nextId, ConfirmDraft(r, nextId, actor, key, draftId, request))
  {
    var o := ConfirmDraft(r, nextId, actor, key, draftId, request);
    ConfirmCases(r, nextId, actor, key, draftId, request);
    if o.round == r && o.nextId == nextId {
      NothingChangesIsGood(r, nextId, o);
    } else {
      var k := Key(actor, ConfirmKey, draftId, key);
      EditingPlace(r.versions, draftId);
      EditingDraftHasNoConfirmKey(r, nextId, k);
      DraftConfirmedKeeps(r, nextId, k, request, r.versions[|r.versions| - 1]);
    }
  }

  lemma {:induction false} CompleteWithoutKeeps(r: Round, nextId: Id, actor: Id, key: string, request: Request)
    requires Inv(r, nextId) && request.WithoutRequest?
    ensures GoodStep(r, nextId, CompleteWithout(r, nextId, actor, key, request))
  {
    var o := CompleteWithout(r, nextId, actor, key, request);
    if o.round == r && o.nextId == nextId {
      NothingChangesIsGood(r, nextId, o);
    } else {
      StoreGrows(r.keys, Key(actor, WithoutKey, r.id, key), request);
      NoHistoryNoConfirmKey(r);
    }
  }

  // A status action moves only rounds that do not wait for a transcript and are not over, and
  // completes none.
  lemma {:induction false} AdvanceCases(r: Round, nextId: Id, action: RoundStatus.Action)
    ensures var o := Advance(r, nextId, action);
            && o.nextId == nextId
            && (o.round == r
                || (&& o.round == r.(status := o.round.status, version := r.version + 1)
                    && r.status !in {RoundStatus.PendingTranscript, RoundStatus.Completed}
                    && o.round.status != RoundStatus.Completed))
  {
  }

  lemma {:induction false} AdvanceKeeps(r: Round, nextId: Id, action: RoundStatus.Action)
    requires Inv(r, nextId)
    ensures GoodStep(r, nextId, Advance(r, nextId, action))
  {
    var o := Advance(r, nextId, action);
    AdvanceCases(r, nextId, action);
    if o.round == r {
      NothingChangesIsGood(r, nextId, o);
    } else {
      assert r.versions == [];
      NoHistoryNoConfirmKey(r);
    }
  }

  lemma {:induction false} CallKeeps(r: Round, nextId: Id, call: Call)
    requires Inv(r, nextId)
    ensures GoodStep(r, nextId, Apply(r, nextId, call))
  {
    match call
    case DoImport(actor, key, request, file) => ImportKeeps(r, nextId, actor, key, request, file);
    case DoCreateDraft(actor, key) => CreateDraftKeeps(r, nextId, actor, key);
    case DoSaveDraft(actor, key, draftId, request) => SaveDraftKeeps(r, nextId, actor, key, draftId, request);
    case DoConfirm(actor, key, draftId, request) => ConfirmKeeps(r, nextId, actor, key, draftId, request);
    case DoCompleteWithout(actor, key, request) => CompleteWithoutKeeps(r, nextId, actor, key, request);
    case DoAdvance(action) => AdvanceKeeps(r, nextId, action);
    case ElsewhereIdsTaken(count) => NothingChangesIsGood(r, nextId, Apply(r, nextId, call));
  }

  // ---------- runs ----------

  datatype State = State(round: Round, nextId: Id)

  function Exec(s: State, calls: seq<Call>): State {
    if calls == [] then s
    else
      var before := Exec(s, calls[..|calls| - 1]);
      var o := Apply(before.round, before.nextId, calls[|calls| - 1]);
      State(o.round, o.nextId)
  }

  // Any run keeps the invariant and only moves forward.
  lemma {:induction false} RunsKeepInvariant(s: State, calls: seq<Call>)
    requires Inv(s.round, s.nextId)
    ensures var t := Exec(s, calls);
            Inv(t.round, t.nextId) && s.nextId <= t.nextId && Later(s.round, t.round)
            && PointerFresh(s.round, t.round, s.nextId)
  {
    if calls != [] {
      var before := Exec(s, calls[..|calls| - 1]);
      RunsKeepInvariant(s, calls[..|calls| - 1]);
      CallKeeps(before.round, before.nextId, calls[|calls| - 1]);
      LaterIsTransitive(s.round, before.round, Exec(s, calls).round);
    }
  }

  predicate Reachable(s: State, id: Id, firstId: Id, calls: seq<Call>) {
    s == Exec(State(NewRound(id), firstId), calls)
  }

  lemma {:induction false} ReachableInv(s: State, id: Id, firstId: Id, calls: seq<Call>)
    requires Reachable(s, id, firstId, calls)
    ensures Inv(s.round, s.nextId)
  {
    NewRoundOk(id, firstId);
    RunsKeepInvariant(State(NewRound(id), firstId), calls);
  }

  function CountKind(vs: seq<Version>, kind: Kind): nat {
    if vs == [] then 0
    else CountKind(vs[..|vs| - 1], kind) + if vs[|vs| - 1].kind == kind then 1 else 0
  }

  lemma {:induction false} KindCounts(vs: seq<Version>, n: nat)
    requires Linear(vs) && n <= |vs|
    ensures CountKind(vs[..n], T) == if n == 0 then 0 else 1
    ensures CountKind(vs[..n], D) == n / 2
    ensures CountKind(vs[..n], C) == if n == 0 then 0 else (n - 1) / 2
  {
    if n > 0 {
      KindCounts(vs, n - 1);
      assert vs[..n][..n - 1] == vs[..n - 1];
      assert LinkAt(vs, n - 1);
    }
  }

  // In every reachable state the history is one chain: each version is based on the one before
  // it, in the order T1, D1, C1, D2, C2, ...; there is at most one original and one editing
  // draft, and drafts outnumber confirmed versions by one exactly while a draft is being edited.
  lemma {:induction false} HistoryIsOneChain(s: State, id: Id, firstId: Id, calls: seq<Call>)
    requires Reachable(s, id, firstId, calls)
    ensures Linear(s.round.versions)
    ensures CountKind(s.round.versions, T) <= 1
    ensures CountKind(s.round.versions, D)
            == CountKind(s.round.versions, C) + if EditingDraft(s.round.versions).Some? then 1 else 0
  {
    ReachableInv(s, id, firstId, calls);
    var vs := s.round.versions;
    KindCounts(vs, |vs|);
    assert vs[..|vs|] == vs;
    if vs != [] {
      EditingIsLast(vs);
    }
  }

  // The pointers always name the ends of the chain: the original, the draft being edited, and
  // the newest confirmed version.
  lemma {:induction false} PointersNameTheEnds(s: State, id: Id, firstId: Id, calls: seq<Call>)
    requires Reachable(s, id, firstId, calls) && s.round.master.Some?
    ensures OriginalOf(s.round).Some? && OriginalOf(s.round).value.kind == T
    ensures s.round.master.value.draft == IdOf(EditingDraft(s.round.versions))
    ensures s.round.master.value.confirmed == IdOf(ConfirmedOf(s.round))
    ensures NewestConfirmed(s.round.versions, ConfirmedOf(s.round))
  {
    ReachableInv(s, id, firstId, calls);
    var vs := s.round.versions;
    FindAt(vs, 0);
    EditingIsLast(vs);
    assert LinkAt(vs, 0);
    if |vs| >= 3 {
      FindAt(vs, ConfirmedIndex(|vs|));
    }
    ConfirmedIsNewest(vs);
  }

  function IdOf(v: Option<Version>): Option<Id> {
    if v.Some? then Some(v.value.id) else None
  }

  ghost predicate NewestConfirmed(vs: seq<Version>, c: Option<Version>) {
    match c
    case None => forall v | v in vs :: v.kind != C
    case Some(top) => top in vs && top.kind == C && forall v | v in vs && v.kind == C :: v.no <= top.no
  }

  lemma {:induction false} ConfirmedIsNewest(vs: seq<Version>)
    requires Linear(vs)
    ensures NewestConfirmed(vs, if |vs| >= 3 then Some(vs[ConfirmedIndex(|vs|)]) else None)
  {
    forall v | v in vs && v.kind == C
      ensures |vs| >= 3 && v.no <= vs[ConfirmedIndex(|vs|)].no
    {
      var i :| 0 <= i < |vs| && vs[i] == v;
      assert LinkAt(vs, i);
      assert |vs| >= 3 ==> LinkAt(vs, ConfirmedIndex(|vs|));
    }
    if |vs| >= 3 {
      assert LinkAt(vs, ConfirmedIndex(|vs|));
    }
  }

  // In every reachable state every version has rows numbered 1..n and an aggregate equal to the
  // newline join of its texts, and a confirmed version has the rows of the draft it froze.
  lemma {:induction false} VersionsAreWellFormed(s: State, id: Id, firstId: Id, calls: seq<Call>)
    requires Reachable(s, id, firstId, calls)
    ensures forall i | 0 <= i < |s.round.versions| ::
              var v := s.round.versions[i];
              Numbered(v.segments) && v.segments != [] && v.rawText == Join(TextsOf(Bodies(v.segments)))
    ensures forall i | 0 < i < |s.round.versions| && s.round.versions[i].kind == C ::
              && s.round.versions[i].basedOn == Some(s.round.versions[i - 1].id)
              && !s.round.versions[i - 1].editing
              && Bodies(s.round.versions[i].segments) == Bodies(s.round.versions[i - 1].segments)
  {
    ReachableInv(s, id, firstId, calls);
    var vs := s.round.versions;
    forall i | 0 <= i < |vs|
      ensures Numbered(vs[i].segments) && vs[i].segments != [] && vs[i].rawText == Join(TextsOf(Bodies(vs[i].segments)))
    {
      assert VersionOk(vs[i], s.nextId);
    }
    forall i | 0 < i < |vs| && vs[i].kind == C
      ensures vs[i].basedOn == Some(vs[i - 1].id) && !vs[i - 1].editing
      ensures Bodies(vs[i].segments) == Bodies(vs[i - 1].segments)
    {
      assert LinkAt(vs, i) && LinkAt(vs, i - 1) && CopyAt(vs, i);
    }
  }

  // An immutable version found at some moment is found unchanged at every later one.
  lemma {:induction false} ImmutableForever(s: State, id: Id, firstId: Id, calls: seq<Call>, more: seq<Call>, v: Version)
    requires Reachable(s, id, firstId, calls)
    requires v in s.round.versions && !v.editing
    ensures FindVersion(Exec(s, more).round.versions, v.id) == Some(v)
  {
    ReachableInv(s, id, firstId, calls);
    RunsKeepInvariant(s, more);
    var i :| 0 <= i < |s.round.versions| && s.round.versions[i] == v;
    FindAt(Exec(s, more).round.versions, i);
  }

  // The ways of completing a round exclude each other for good.
  lemma {:induction false} CompletionModesExclude(s: State, id: Id, firstId: Id, calls: seq<Call>, more: seq<Call>)
    requires Reachable(s, id, firstId, calls)
    ensures s.round.completion.NotCompleted? <==> s.round.status != RoundStatus.Completed
    ensures s.round.completion.WithoutTranscript? ==> Exec(s, more).round.master.None?
    ensures !s.round.completion.NotCompleted? ==> Exec(s, more).round.completion == s.round.completion
    ensures s.round.completion.ConfirmedTranscript? ==> HasIncludedText(ConfirmedOf(s.round))
  {
    ReachableInv(s, id, firstId, calls);
    RunsKeepInvariant(s, more);
    if s.round.completion.ConfirmedTranscript? {
      ConfirmedHasText(s.round, s.nextId);
    }
  }

  predicate IncludedText(v: Version) {
    exists i | 0 <= i < |v.segments| :: v.segments[i].body.included && !Text.Blank(v.segments[i].body.text)
  }

  predicate HasIncludedText(v: Option<Version>) {
    v.Some? && v.value.kind == C && IncludedText(v.value)
  }

  lemma {:induction false} ConfirmedHasText(r: Round, nextId: Id)
    requires Inv(r, nextId) && |r.versions| >= 3
    ensures HasIncludedText(ConfirmedOf(r))
    ensures ConfirmedOf(r).value == r.versions[ConfirmedIndex(|r.versions|)]
    ensures Confirmable(Bodies(ConfirmedOf(r).value.segments))
  {
    var top := ConfirmedIndex(|r.versions|);
    FindAt(r.versions, top);
    assert LinkAt(r.versions, top) && CopyAt(r.versions, top);
    var v := r.versions[top];
    var i :| 0 <= i < |Bodies(v.segments)| && Bodies(v.segments)[i].included;
    assert v.segments[i].body == Bodies(v.segments)[i];
  }

  // An id that was in use but is not the confirmed one never becomes the confirmed one again.
  lemma {:induction false} SupersededForever(s: State, calls: seq<Call>, versionId: Id)
    requires Inv(s.round, s.nextId) && versionId < s.nextId && CurrentConfirmed(s.round) != Some(versionId)
    ensures CurrentConfirmed(Exec(s, calls).round) != Some(versionId)
  {
    RunsKeepInvariant(s, calls);
  }

  // ---------- replays ----------

  // Confirming an editing draft of the right version with a confirmable content succeeds,
  // freezes it, and completes the round; nothing else succeeds on an editing draft.
  lemma {:induction false} ConfirmSucceedsIff(r: Round, nextId: Id, actor: Id, key: string, draftId: Id, request: Request)
    requires Inv(r, nextId) && request.ConfirmRequest?
    requires FindVersion(r.versions, draftId).Some? && FindVersion(r.versions, draftId).value.editing
    ensures var draft := FindVersion(r.versions, draftId).value;
            var o := ConfirmDraft(r, nextId, actor, key, draftId, request);
            && (o.reply.Ok? <==> draft.lock == request.version && Confirmable(Bodies(draft.segments)))
            && (o.reply.Ok? ==>
                  && o.round.status == RoundStatus.Completed
                  && CurrentConfirmed(o.round) == Some(nextId)
                  && FindVersion(o.round.versions, draftId) == Some(draft.(editing := false)))
  {
    var i := FoundAt(r.versions, draftId);
    assert LinkAt(r.versions, i);
    EditingPlace(r.versions, draftId);
    EditingDraftHasNoConfirmKey(r, nextId, Key(actor, ConfirmKey, draftId, key));
    var o := ConfirmDraft(r, nextId, actor, key, draftId, request);
    if o.reply.Ok? {
      ConfirmKeeps(r, nextId, actor, key, draftId, request);
      FindAt(o.round.versions, i);
    }
  }

  // A replayed confirm answers with the newest confirmed version. That is the one the original
  // call made if and only if nothing was confirmed since, which the caller can read off the
  // current version's base.
  lemma {:induction false} ReplayedConfirm(r: Round, nextId: Id, actor: Id, key: string, draftId: Id, request: Request)
    returns (made: Version)
    requires Inv(r, nextId) && request.ConfirmRequest? && key != ""
    requires var k := Key(actor, ConfirmKey, draftId, key); k in r.keys && r.keys[k] == request
    ensures made in r.versions && made.kind == C && made.basedOn == Some(draftId)
    ensures var o := ConfirmDraft(r, nextId, actor, key, draftId, request);
            && o.round == r && o.nextId == nextId
            && o.reply.Ok? && o.reply.value.VersionReply? && Some(o.reply.value.version) == ConfirmedOf(r)
            && (o.reply.value.version == made <==> ConfirmedOf(r).value.basedOn == Some(draftId))
  {
    made := MadeFrom(r, nextId, Key(actor, ConfirmKey, draftId, key));
    var vs := r.versions;
    FindAt(vs, ConfirmedIndex(|vs|));
  }

  // The version made by the confirm that stored this key, and where both stand in the chain.
  lemma {:induction false} MadeFrom(r: Round, nextId: Id, k: Key) returns (made: Version)
    requires Inv(r, nextId) && k.action == ConfirmKey && k in r.keys
    ensures made in r.versions && made.kind == C && made.basedOn == Some(k.scope)
    ensures |r.versions| >= 3 && r.master.Some?
    ensures FindVersion(r.versions, k.scope).Some? && !FindVersion(r.versions, k.scope).value.editing
    ensures r.versions[ConfirmedIndex(|r.versions|)] == made
            <==> r.versions[ConfirmedIndex(|r.versions|)].basedOn == Some(k.scope)
  {
    var vs := r.versions;
    var i: nat :| FrozenDraftAt(vs, i, k.scope);
    FindAt(vs, i);
    assert LinkAt(vs, i);
    assert LinkAt(vs, i + 1);
    made := vs[i + 1];
    var top := ConfirmedIndex(|vs|);
    assert LinkAt(vs, top);
  }

  lemma {:induction false} ReferringKeepsConfirmable(segments: seq<Segment>)
    requires Confirmable(Bodies(segments))
    ensures Confirmable(Bodies(ReferringAll(segments)))
  {
    var after := Bodies(ReferringAll(segments));
    var i :| 0 <= i < |Bodies(segments)| && Bodies(segments)[i].included;
    assert after[i].included;
    forall j | 0 <= j < |after|
      ensures !Text.Blank(after[j].text) && TimeRangeValid(after[j])
    {
      assert after[j].text == Bodies(segments)[j].text && after[j].startMs == Bodies(segments)[j].startMs;
    }
  }

  // Opening the next draft after a confirm, and confirming it unchanged, always succeeds.
  lemma {:induction false} NextDraftConfirms(r: Round, nextId: Id, actor: Id) returns (o: Outcome)
    requires Inv(r, nextId) && |r.versions| >= 3 && |r.versions| % 2 == 1
    ensures var reopened := CreateDraft(r, nextId, actor, "");
            o == ConfirmDraft(reopened.round, reopened.nextId, actor, "", nextId, ConfirmRequest(1))
    ensures Inv(o.round, o.nextId) && Later(r, o.round) && o.reply.Ok?
    ensures CurrentConfirmed(o.round).Some? && CurrentConfirmed(o.round).value > nextId
  {
    var reopened := CreateDraft(r, nextId, actor, "");
    EditingIsLast(r.versions);
    BaseIsLast(r, nextId);
    CreateDraftKeeps(r, nextId, actor, "");
    var base := r.versions[|r.versions| - 1];
    var draft := DraftFrom(r.versions, nextId, base);
    assert reopened == DraftCreated(r, nextId, Key(actor, CreateKey, r.master.value.id, ""), base);
    ConfirmedHasText(r, nextId);
    ReferringKeepsConfirmable(base.segments);
    assert Confirmable(Bodies(draft.segments));
    FindAt(reopened.round.versions, |r.versions|);
    ConfirmSucceedsIff(reopened.round, reopened.nextId, actor, "", nextId, ConfirmRequest(1));
    o := ConfirmDraft(reopened.round, reopened.nextId, actor, "", nextId, ConfirmRequest(1));
    ConfirmKeeps(reopened.round, reopened.nextId, actor, "", nextId, ConfirmRequest(1));
    LaterIsTransitive(r, reopened.round, o.round);
  }

  // What a keyed confirm that succeeded leaves behind: its key, and its version at the chain's end.
  lemma {:induction false} KeyedConfirm(r: Round, nextId: Id, actor: Id, key: string, draftId: Id, request: Request)
    returns (made: Version)
    requires Inv(r, nextId) && request.ConfirmRequest? && key != ""
    requires FindVersion(r.versions, draftId).Some? && FindVersion(r.versions, draftId).value.editing
    requires ConfirmDraft(r, nextId, actor, key, draftId, request).reply.Ok?
    ensures var first := ConfirmDraft(r, nextId, actor, key, draftId, request);
            var k := Key(actor, ConfirmKey, draftId, key);
            && Inv(first.round, first.nextId) && nextId < first.nextId
            && k in first.round.keys && first.round.keys[k] == request
            && first.reply == Ok(VersionReply(made)) && made.id == nextId
            && |first.round.versions| >= 3 && |first.round.versions| % 2 == 1
            && first.round.versions[|first.round.versions| - 1] == made
            && made.kind == C && !made.editing && made.basedOn == Some(draftId)
  {
    var k := Key(actor, ConfirmKey, draftId, key);
    EditingDraftHasNoConfirmKey(r, nextId, k);
    EditingPlaceOfDraft(r.versions, draftId);
    ConfirmKeeps(r, nextId, actor, key, draftId, request);
    ConfirmCases(r, nextId, actor, key, draftId, request);
    ConfirmSucceedsIff(r, nextId, actor, key, draftId, request);
    made := ConfirmedFrom(r.versions, nextId, FindVersion(r.versions, draftId).value);
  }

  lemma {:induction false} OnlyCopyOf(vs: seq<Version>, i: nat, made: Version)
    requires Linear(vs) && i < |vs| && vs[i].kind == C
    requires made in vs && made.kind == C && made.basedOn == vs[i].basedOn
    ensures made == vs[i]
  {
    var j :| 0 <= j < |vs| && vs[j] == made;
    assert LinkAt(vs, i) && LinkAt(vs, j);
  }

  // After any further calls, the replay of a successful keyed confirm changes nothing and returns
  // what the original call returned if and only if the newest confirmed version is still based
  // on the confirmed draft.
  lemma {:induction false} ReplayReturnsItsOwnIff(r: Round, nextId: Id, actor: Id, key: string, draftId: Id, request: Request,
                                                  first: Outcome, calls: seq<Call>, later: State)
    requires Inv(r, nextId) && request.ConfirmRequest? && key != ""
    requires FindVersion(r.versions, draftId).Some? && FindVersion(r.versions, draftId).value.editing
    requires first == ConfirmDraft(r, nextId, actor, key, draftId, request) && first.reply.Ok?
    requires later == Exec(State(first.round, first.nextId), calls)
    ensures var replay := ConfirmDraft(later.round, later.nextId, actor, key, draftId, request);
            && replay.round == later.round && replay.nextId == later.nextId
            && replay.reply.Ok? && ConfirmedOf(later.round).Some?
            && (replay.reply == first.reply <==> ConfirmedOf(later.round).value.basedOn == Some(draftId))
  {
    ConfirmKeeps(r, nextId, actor, key, draftId, request);
    RunsKeepInvariant(State(first.round, first.nextId), calls);
    ReplayOfFirst(r, nextId, actor, key, draftId, request, first, later.round, later.nextId);
  }

  lemma {:induction false} ReplayOfFirst(r: Round, nextId: Id, actor: Id, key: string, draftId: Id, request: Request,
                                         first: Outcome, later: Round, laterId: Id)
    requires Inv(r, nextId) && request.ConfirmRequest? && key != ""
    requires FindVersion(r.versions, draftId).Some? && FindVersion(r.versions, draftId).value.editing
    requires first == ConfirmDraft(r, nextId, actor, key, draftId, request) && first.reply.Ok?
    requires Inv(later, laterId) && Later(first.round, later)
    ensures var replay := ConfirmDraft(later, laterId, actor, key, draftId, request);
            && replay.round == later && replay.nextId == laterId && replay.reply.Ok? && ConfirmedOf(later).Some?
            && (replay.reply == first.reply <==> ConfirmedOf(later).value.basedOn == Some(draftId))
  {
    var made := KeyedConfirm(r, nextId, actor, key, draftId, request);
    ReplayAfter(first.round, made, later, laterId, actor, key, draftId, request);
  }

  lemma {:induction false} ReplayAfter(before: Round, made: Version, r: Round, nextId: Id, actor: Id, key: string, draftId: Id,
                                       request: Request)
    requires Inv(r, nextId) && Later(before, r) && request.ConfirmRequest? && key != ""
    requires var k := Key(actor, ConfirmKey, draftId, key); k in before.keys && before.keys[k] == request
    requires before.versions != [] && before.versions[|before.versions| - 1] == made
    requires made.kind == C && !made.editing && made.basedOn == Some(draftId)
    ensures var o := ConfirmDraft(r, nextId, actor, key, draftId, request);
            && o.round == r && o.nextId == nextId && o.reply.Ok? && ConfirmedOf(r).Some?
            && o.reply == Ok(VersionReply(ConfirmedOf(r).value))
            && (o.reply == Ok(VersionReply(made)) <==> ConfirmedOf(r).value.basedOn == Some(draftId))
  {
    var found := ReplayedConfirm(r, nextId, actor, key, draftId, request);
    assert r.versions[|before.versions| - 1] == made;
    OnlyCopyOf(r.versions, |before.versions| - 1, found);
  }

  // So a replay misses as soon as the next draft is opened and confirmed, which always succeeds.
  lemma {:induction false} ReplayMissesItsOwn(r: Round, nextId: Id, actor: Id, key: string, draftId: Id, request: Request,
                                              first: Outcome, calls: seq<Call>, later: State)
    requires Inv(r, nextId) && request.ConfirmRequest? && key != ""
    requires FindVersion(r.versions, draftId).Some? && FindVersion(r.versions, draftId).value.editing
    requires first == ConfirmDraft(r, nextId, actor, key, draftId, request) && first.reply.Ok?
    requires calls == [DoCreateDraft(actor, ""), DoConfirm(actor, "", first.nextId, ConfirmRequest(1))]
    requires later == Exec(State(first.round, first.nextId), calls)
    ensures var replay := ConfirmDraft(later.round, later.nextId, actor, key, draftId, request);
            replay.reply.Ok? && replay.reply != first.reply
  {
    var made := KeyedConfirm(r, nextId, actor, key, draftId, request);
    NextConfirmReplaces(first.round, first.nextId, actor, calls, later);
    NewerMisses(made, later.round, later.nextId, actor, key, draftId, request);
  }

  lemma {:induction false} NewerMisses(made: Version, r: Round, nextId: Id, actor: Id, key: string, draftId: Id, request: Request)
    requires Inv(r, nextId) && request.ConfirmRequest? && key != ""
    requires var k := Key(actor, ConfirmKey, draftId, key); k in r.keys && r.keys[k] == request
    requires ConfirmedOf(r).Some? && ConfirmedOf(r).value.id > made.id
    ensures var o := ConfirmDraft(r, nextId, actor, key, draftId, request);
            o.reply.Ok? && o.reply != Ok(VersionReply(made))
  {
    var found := ReplayedConfirm(r, nextId, actor, key, draftId, request);
  }

  lemma {:induction false} NextConfirmReplaces(r: Round, nextId: Id, actor: Id, calls: seq<Call>, later: State)
    requires Inv(r, nextId) && |r.versions| >= 3 && |r.versions| % 2 == 1
    requires calls == [DoCreateDraft(actor, ""), DoConfirm(actor, "", nextId, ConfirmRequest(1))]
    requires later == Exec(State(r, nextId), calls)
    ensures Inv(later.round, later.nextId) && Later(r, later.round)
    ensures ConfirmedOf(later.round).Some? && ConfirmedOf(later.round).value.id > nextId
  {
    var o := NextDraftConfirms(r, nextId, actor);
    ExecTwo(State(r, nextId), calls[0], calls[1]);
    assert calls == [calls[0], calls[1]];
    NewerIsFound(r, nextId, o.round, o.nextId);
  }

  lemma {:induction false} NewerIsFound(r: Round, nextId: Id, after: Round, laterId: Id)
    requires Inv(after, laterId) && Later(r, after) && |r.versions| >= 3
    requires CurrentConfirmed(after).Some? && CurrentConfirmed(after).value > nextId
    ensures ConfirmedOf(after).Some? && ConfirmedOf(after).value.id > nextId
  {
    ConfirmedHasText(after, laterId);
    FoundConfirmedId(after, laterId);
  }

  lemma {:induction false} ExecTwo(s: State, a: Call, b: Call)
    ensures var first := Apply(s.round, s.nextId, a);
            var second := Apply(first.round, first.nextId, b);
            Exec(s, [a, b]) == State(second.round, second.nextId)
  {
    var two, one: seq<Call> := [a, b], [a];
    assert two[..1] == one && one[..0] == [];
    assert Exec(s, one[..0]) == s;
  }

  lemma {:induction false} EditingPlaceOfDraft(vs: seq<Version>, id: Id)
    requires Linear(vs) && FindVersion(vs, id).Some? && FindVersion(vs, id).value.editing
    ensures |vs| > 0 && |vs| % 2 == 0 && FindVersion(vs, id).value == vs[|vs| - 1] && vs[|vs| - 1].kind == D
  {
    var i := FoundAt(vs, id);
    assert LinkAt(vs, i);
  }

  lemma {:induction false} FoundConfirmedId(r: Round, nextId: Id)
    requires Inv(r, nextId) && ConfirmedOf(r).Some?
    ensures CurrentConfirmed(r) == Some(ConfirmedOf(r).value.id)
  {
  }

  // ---------- locks ----------

  // On an editing draft a save under an unused key succeeds exactly when it names the current
  // version of the draft, and then raises that version by one.
  lemma {:induction false} SaveSucceedsIff(r: Round, nextId: Id, actor: Id, key: string, draftId: Id, request: Request)
    requires Inv(r, nextId) && request.SaveRequest? && SchemaOk(request.segments) && request.draftVersionId == draftId
    requires FindVersion(r.versions, draftId).Some? && FindVersion(r.versions, draftId).value.editing
    requires Consume(r.keys, Key(actor, SaveKey, draftId, key), request).Fresh?
    ensures var draft := FindVersion(r.versions, draftId).value;
            var o := SaveDraft(r, nextId, actor, key, draftId, request);
            && (o.reply.Ok? <==> draft.lock == request.version)
            && (o.reply.Ok? ==>
                  && FindVersion(o.round.versions, draftId).Some?
                  && FindVersion(o.round.versions, draftId).value.editing
                  && FindVersion(o.round.versions, draftId).value.lock == draft.lock + 1
                  && Bodies(FindVersion(o.round.versions, draftId).value.segments) == request.segments)
  {
    var vs := r.versions;
    EditingPlaceOfDraft(vs, draftId);
    SavedPlace(vs, nextId, request.segments);
    var o := SaveDraft(r, nextId, actor, key, draftId, request);
    if o.reply.Ok? {
      SaveDraftKeeps(r, nextId, actor, key, draftId, request);
      FindAt(o.round.versions, |vs| - 1);
    }
  }

  // Of two saves made from the same version of a draft, the second is refused and changes nothing.
  lemma {:induction false} NoLostUpdate(r: Round, nextId: Id, draftId: Id,
                                        actorA: Id, keyA: string, a: Request, actorB: Id, keyB: string, b: Request)
    requires Inv(r, nextId) && a.SaveRequest? && b.SaveRequest? && a.version == b.version
    requires SchemaOk(a.segments) && SchemaOk(b.segments) && a.draftVersionId == b.draftVersionId == draftId
    requires FindVersion(r.versions, draftId).Some? && FindVersion(r.versions, draftId).value.editing
    requires Consume(r.keys, Key(actorA, SaveKey, draftId, keyA), a).Fresh?
    requires Consume(r.keys, Key(actorB, SaveKey, draftId, keyB), b).Fresh?
    requires (actorA, keyA) != (actorB, keyB)
    requires SaveDraft(r, nextId, actorA, keyA, draftId, a).reply.Ok?
    ensures var first := SaveDraft(r, nextId, actorA, keyA, draftId, a);
            var second := SaveDraft(first.round, first.nextId, actorB, keyB, draftId, b);
            second == Outcome(first.round, first.nextId, Err(OptimisticLock))
  {
    var first := SaveDraft(r, nextId, actorA, keyA, draftId, a);
    SaveSucceedsIff(r, nextId, actorA, keyA, draftId, a);
    SaveDraftKeeps(r, nextId, actorA, keyA, draftId, a);
    SaveCases(r, nextId, actorA, keyA, draftId, a);
    StaleSaveIsRefused(first.round, first.nextId, actorB, keyB, draftId, b);
  }

  lemma {:induction false} StaleSaveIsRefused(r: Round, nextId: Id, actor: Id, key: string, draftId: Id, request: Request)
    requires Inv(r, nextId) && request.SaveRequest? && SchemaOk(request.segments) && request.draftVersionId == draftId
    requires FindVersion(r.versions, draftId).Some? && FindVersion(r.versions, draftId).value.editing
    requires FindVersion(r.versions, draftId).value.lock != request.version
    requires Consume(r.keys, Key(actor, SaveKey, draftId, key), request).Fresh?
    ensures SaveDraft(r, nextId, actor, key, draftId, request) == Outcome(r, nextId, Err(OptimisticLock))
  {
    EditingPlaceOfDraft(r.versions, draftId);
  }
}
