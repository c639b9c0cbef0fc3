// What every run of transcript calls keeps: the history is one chain T1, D1, C1, D2, C2, ...,
// immutable versions never change, and the two ways of completing a round exclude each other.
module TranscriptHistory {
  import opened Common
  import opened Segments
  import opened Transcript
  import RoundStatus

  // ---------- the chain ----------

  function KindAt(i: nat): Kind {
    if i == 0 then T else if i % 2 == 1 then D else C
  }

  // T1, D1, C1, D2, C2, ...
  function NoAt(i: nat): nat {
    if i == 0 then 1 else (i + 1) / 2
  }

  ghost predicate LinkAt(vs: seq<Version>, i: nat)
    requires i < |vs|
  {
    && vs[i].kind == KindAt(i)
    && vs[i].no == NoAt(i)
    && vs[i].basedOn == (if i == 0 then None else Some(vs[i - 1].id))
    && (vs[i].editing <==> vs[i].kind == D && i == |vs| - 1)
  }

  ghost predicate Linear(vs: seq<Version>) {
    && (forall i {:trigger LinkAt(vs, i)} | 0 <= i < |vs| :: LinkAt(vs, i))
    && (forall i, j | 0 <= i < j < |vs| :: vs[i].id < vs[j].id)
  }

  // A confirmed version repeats the rows of the draft before it, and passed the confirm check.
  ghost predicate CopyAt(vs: seq<Version>, i: nat)
    requires 0 < i < |vs|
  {
    && Bodies(vs[i].segments) == Bodies(vs[i - 1].segments)
    && SourcesOf(vs[i].segments) == SourcesOf(vs[i - 1].segments)
    && Confirmable(Bodies(vs[i].segments))
  }

  ghost predicate Copies(vs: seq<Version>) {
    forall i {:trigger CopyAt(vs, i)} | 0 < i < |vs| && vs[i].kind == C :: CopyAt(vs, i)
  }

  ghost predicate IdsRise(segments: seq<Segment>) {
    forall i, j | 0 <= i < j < |segments| :: segments[i].id < segments[j].id
  }

  ghost predicate VersionOk(v: Version, nextId: Id) {
    && v.id < nextId
    && SchemaOk(Bodies(v.segments))
    && Numbered(v.segments)
    && v.rawText == Aggregate(v.segments)
    && IdsRise(v.segments)
    && (forall i | 0 <= i < |v.segments| :: v.segments[i].id < nextId)
  }

  ghost predicate AllOk(vs: seq<Version>, nextId: Id) {
    forall i {:trigger VersionOk(vs[i], nextId)} | 0 <= i < |vs| :: VersionOk(vs[i], nextId)
  }

  ghost predicate History(vs: seq<Version>, nextId: Id) {
    Linear(vs) && Copies(vs) && AllOk(vs, nextId)
  }

  // ---------- the whole round ----------

  // Where the newest confirmed version stands in a chain of this length.
  function ConfirmedIndex(n: nat): nat
    requires n >= 3
  {
    if n % 2 == 1 then n - 1 else n - 2
  }

  ghost predicate Pointers(m: Master, vs: seq<Version>) {
    && vs != []
    && m.original == Some(vs[0].id)
    && m.draft == (if |vs| % 2 == 0 then Some(vs[|vs| - 1].id) else None)
    && m.confirmed == (if |vs| >= 3 then Some(vs[ConfirmedIndex(|vs|)].id) else None)
  }

  ghost predicate StatusAgrees(r: Round) {
    && (r.status == RoundStatus.Completed <==> !r.completion.NotCompleted?)
    && (r.completion.ConfirmedTranscript? <==> |r.versions| >= 3)
    && (r.master.None? <==> r.versions == [])
    && (r.master.Some? ==> r.status in {RoundStatus.PendingTranscript, RoundStatus.Completed})
    && (r.completion.WithoutTranscript? ==> r.master.None?)
  }

  ghost predicate FrozenDraftAt(vs: seq<Version>, i: nat, id: Id) {
    i < |vs| && vs[i].id == id && vs[i].kind == D && !vs[i].editing
  }

  ghost predicate KeysAgree(r: Round) {
    forall k | k in r.keys && k.action == ConfirmKey :: exists i: nat :: FrozenDraftAt(r.versions, i, k.scope)
  }

  ghost predicate Inv(r: Round, nextId: Id) {
    && History(r.versions, nextId)
    && (r.master.Some? ==> Pointers(r.master.value, r.versions))
    && StatusAgrees(r)
    && KeysAgree(r)
  }

  function NewRound(id: Id): Round {
    Round(id, RoundStatus.Draft, 1, NotCompleted, None, [], map[])
  }

  lemma {:induction false} NewRoundOk(id: Id, nextId: Id)
    ensures Inv(NewRound(id), nextId)
  {
  }

  // ---------- lookups in a chain ----------

  lemma {:induction false} FindAt(vs: seq<Version>, i: nat)
    requires Linear(vs) && i < |vs|
    ensures FindVersion(vs, vs[i].id) == Some(vs[i])
  {
    var found := FindVersion(vs, vs[i].id);
    assert vs[i] in vs;
    var j :| 0 <= j < |vs| && vs[j] == found.value;
  }

  lemma {:induction false} FoundAt(vs: seq<Version>, id: Id) returns (i: nat)
    requires Linear(vs) && FindVersion(vs, id).Some?
    ensures i < |vs| && vs[i] == FindVersion(vs, id).value && vs[i].id == id
  {
    var j :| 0 <= j < |vs| && vs[j] == FindVersion(vs, id).value;
    i := j;
  }

  lemma {:induction false} EditingIsLast(vs: seq<Version>)
    requires Linear(vs) && vs != []
    ensures EditingDraft(vs) == if |vs| % 2 == 0 then Some(vs[|vs| - 1]) else None
  {
    assert LinkAt(vs, |vs| - 1);
    if EditingDraft(vs).Some? {
      var j :| 0 <= j < |vs| && vs[j] == EditingDraft(vs).value;
      assert LinkAt(vs, j);
    } else {
      assert vs[|vs| - 1] in vs;
    }
  }

  lemma {:induction false} MaxNoUpTo(vs: seq<Version>, n: nat)
    requires Linear(vs) && n <= |vs|
    ensures MaxNo(vs[..n], D) == n / 2
    ensures MaxNo(vs[..n], C) == if n == 0 then 0 else (n - 1) / 2
  {
    if n > 0 {
      MaxNoUpTo(vs, n - 1);
      assert vs[..n][..n - 1] == vs[..n - 1];
      assert LinkAt(vs, n - 1);
    }
  }

  // next_version_no continues the chain's numbering.
  lemma {:induction false} NextNoContinues(vs: seq<Version>)
    requires Linear(vs) && vs != []
    ensures |vs| % 2 == 1 ==> NextNo(vs, D) == NoAt(|vs|)
    ensures |vs| % 2 == 0 ==> NextNo(vs, C) == NoAt(|vs|)
  {
    MaxNoUpTo(vs, |vs|);
    assert vs[..|vs|] == vs;
  }

  // ---------- growing a chain ----------

  lemma {:induction false} AllOkLater(vs: seq<Version>, nextId: Id, later: Id)
    requires AllOk(vs, nextId) && nextId <= later
    ensures AllOk(vs, later)
    ensures forall i | 0 <= i < |vs| :: vs[i].id < nextId
  {
    forall i | 0 <= i < |vs|
      ensures VersionOk(vs[i], later) && vs[i].id < nextId
    {
      assert VersionOk(vs[i], nextId);
    }
  }

  lemma {:induction false} AllOkAppend(vs: seq<Version>, v: Version, nextId: Id, later: Id)
    requires AllOk(vs, nextId) && VersionOk(v, later) && nextId <= later
    ensures AllOk(vs + [v], later)
  {
    AllOkLater(vs, nextId, later);
    forall i | 0 <= i < |vs + [v]|
      ensures VersionOk((vs + [v])[i], later)
    {
      assert i < |vs| ==> VersionOk(vs[i], later);
    }
  }

  lemma {:induction false} AllOkUpdate(vs: seq<Version>, k: nat, v: Version, nextId: Id, later: Id)
    requires AllOk(vs, nextId) && VersionOk(v, later) && nextId <= later && k < |vs|
    ensures AllOk(vs[k := v], later)
  {
    AllOkLater(vs, nextId, later);
    var changed := vs[k := v];
    forall i | 0 <= i < |changed|
      ensures VersionOk(changed[i], later)
    {
      assert VersionOk(vs[i], later);
    }
  }

  lemma {:induction false} LinearAppend(vs: seq<Version>, v: Version)
    requires Linear(vs) && vs != []
    requires forall i | 0 <= i < |vs| :: vs[i].id < v.id
    requires !vs[|vs| - 1].editing
    requires v.kind == KindAt(|vs|) && v.no == NoAt(|vs|) && v.basedOn == Some(vs[|vs| - 1].id)
    requires v.editing <==> v.kind == D
    ensures Linear(vs + [v])
  {
    var longer := vs + [v];
    forall i | 0 <= i < |longer|
      ensures LinkAt(longer, i)
    {
      if i < |vs| {
        assert LinkAt(vs, i);
        assert i == |vs| - 1 || !vs[i].editing;
      }
    }
  }

  // Replacing the last version by one that keeps its place in the chain.
  ghost predicate SamePlace(a: Version, b: Version) {
    a.id == b.id && a.kind == b.kind && a.no == b.no && a.basedOn == b.basedOn
  }

  lemma {:induction false} ReplaceLast(vs: seq<Version>, v: Version)
    requires Linear(vs) && vs != [] && v.id == vs[|vs| - 1].id
    ensures ReplaceVersion(vs, v) == vs[|vs| - 1 := v]
  {
  }

  // The links of a chain whose last draft was frozen: all but the last editing flag.
  lemma {:induction false} LinearFreezeAppend(vs: seq<Version>, frozen: Version, v: Version)
    requires Linear(vs) && vs != [] && |vs| % 2 == 0
    requires frozen == vs[|vs| - 1].(editing := false)
    requires forall i | 0 <= i < |vs| :: vs[i].id < v.id
    requires v.kind == C && v.no == NoAt(|vs|) && v.basedOn == Some(frozen.id) && !v.editing
    ensures Linear(vs[|vs| - 1 := frozen] + [v])
  {
    var longer := vs[|vs| - 1 := frozen] + [v];
    forall i | 0 <= i < |longer|
      ensures LinkAt(longer, i)
    {
      if i < |vs| {
        assert LinkAt(vs, i);
      }
    }
  }

  lemma {:induction false} LinearReplaceLast(vs: seq<Version>, v: Version)
    requires Linear(vs) && vs != []
    requires SamePlace(v, vs[|vs| - 1]) && v.editing == vs[|vs| - 1].editing
    ensures Linear(vs[|vs| - 1 := v])
  {
    var changed := vs[|vs| - 1 := v];
    forall i | 0 <= i < |changed|
      ensures LinkAt(changed, i)
    {
      assert LinkAt(vs, i);
    }
  }

  // ---------- fresh rows ----------

  lemma {:induction false} NewVersionOk(v: Version, bodies: seq<Body>, sources: seq<Source>, firstId: Id, nextId: Id)
    requires |bodies| == |sources| && SchemaOk(bodies)
    requires v.segments == NewSegments(bodies, sources, firstId) && v.rawText == Join(TextsOf(bodies))
    requires v.id < nextId && firstId + |bodies| <= nextId
    ensures VersionOk(v, nextId)
  {
  }

  // Filling in a missing reference changes neither the text nor the time range.
  lemma {:induction false} ReferringKeepsContent(segments: seq<Segment>)
    ensures TextsOf(Bodies(ReferringAll(segments))) == TextsOf(Bodies(segments))
    ensures SchemaOk(Bodies(segments)) ==> SchemaOk(Bodies(ReferringAll(segments)))
  {
  }

  // ---------- what a step may do ----------

  // The relation between a round and any later state of it.
  ghost predicate Later(a: Round, b: Round) {
    && a.id == b.id
    && |a.versions| <= |b.versions|
    && (forall i | 0 <= i < |a.versions| :: SamePlace(a.versions[i], b.versions[i]))
    && (forall i | 0 <= i < |a.versions| && !a.versions[i].editing :: b.versions[i] == a.versions[i])
    && (a.status == RoundStatus.Completed ==> b.status == RoundStatus.Completed && b.completion == a.completion)
    && (a.master.Some? ==> b.master.Some? && b.master.value.id == a.master.value.id)
    && (forall k | k in a.keys :: k in b.keys && b.keys[k] == a.keys[k])
  }

  lemma {:induction false} LaterIsTransitive(a: Round, b: Round, c: Round)
    requires Later(a, b) && Later(b, c)
    requires Linear(a.versions) && Linear(b.versions)
    ensures Later(a, c)
  {
    forall i | 0 <= i < |a.versions|
      ensures SamePlace(a.versions[i], c.versions[i])
      ensures !a.versions[i].editing ==> c.versions[i] == a.versions[i]
    {
      assert SamePlace(a.versions[i], b.versions[i]) && SamePlace(b.versions[i], c.versions[i]);
    }
  }

  function CurrentConfirmed(r: Round): Option<Id> {
    if r.master.None? then None else r.master.value.confirmed
  }

  // The confirmed pointer moves only to ids that were unused before.
  ghost predicate PointerFresh(a: Round, b: Round, nextId: Id) {
    CurrentConfirmed(b) == CurrentConfirmed(a) || (CurrentConfirmed(b).Some? && CurrentConfirmed(b).value >= nextId)
  }

  ghost predicate GoodStep(r: Round, nextId: Id, o: Outcome) {
    && Inv(o.round, o.nextId)
    && nextId <= o.nextId
    && Later(r, o.round)
    && PointerFresh(r, o.round, nextId)
  }

  lemma {:induction false} StoringKeepsInv(r: Round, nextId: Id, k: Key, request: Request)
    requires Inv(r, nextId) && k.action != ConfirmKey && Consume(r.keys, k, request).Fresh?
    ensures GoodStep(r, nextId, Outcome(r.(keys := Store(r.keys, k, request)), nextId, Ok(Done)))
  {
    var after := r.(keys := Store(r.keys, k, request));
    forall c | c in after.keys && c.action == ConfirmKey
      ensures exists i: nat :: FrozenDraftAt(after.versions, i, c.scope)
    {
      assert c in r.keys;
    }
  }

  lemma {:induction false} NoHistoryNoConfirmKey(r: Round)
    requires KeysAgree(r) && r.versions == []
    ensures forall k | k in r.keys :: k.action != ConfirmKey
  {
  }

  lemma {:induction false} FirstVersionOk(nextId: Id, segments: seq<Body>, file: ParsedFile)
    requires SchemaOk(segments)
    ensures VersionOk(FirstVersion(nextId, segments, file), nextId + 2 + |segments|)
  {
    NewVersionOk(FirstVersion(nextId, segments, file), segments, DeriveSources(segments, ByNo(file.rows)), nextId + 2,
                 nextId + 2 + |segments|);
  }

  lemma {:induction false} ImportedKeeps(r: Round, nextId: Id, k: Key, request: Request, file: ParsedFile)
    requires Inv(r, nextId) && request.ImportRequest? && SchemaOk(request.segments)
    requires r.master.None? && r.status == RoundStatus.PendingTranscript
    requires k.action == ImportKey && Consume(r.keys, k, request).Fresh?
    ensures GoodStep(r, nextId, Imported(r, nextId, k, request, file))
  {
    var o := Imported(r, nextId, k, request, file);
    FirstVersionOk(nextId, request.segments, file);
    NoHistoryNoConfirmKey(r);
    assert LinkAt(o.round.versions, 0);
  }

  // Confirm keys stay tied to frozen drafts as the chain grows.
  lemma {:induction false} KeysFollow(r: Round, after: Round)
    requires KeysAgree(r) && Later(r, after)
    requires forall k | k in after.keys && k.action == ConfirmKey ::
               k in r.keys || exists i: nat :: FrozenDraftAt(after.versions, i, k.scope)
    ensures KeysAgree(after)
  {
    forall k | k in after.keys && k.action == ConfirmKey
      ensures exists i: nat :: FrozenDraftAt(after.versions, i, k.scope)
    {
      if k in r.keys {
        var i: nat :| FrozenDraftAt(r.versions, i, k.scope);
        assert FrozenDraftAt(after.versions, i, k.scope);
      }
    }
  }

  lemma {:induction false} HistoryAppendDraft(vs: seq<Version>, nextId: Id, draft: Version, later: Id)
    requires History(vs, nextId) && vs != [] && !vs[|vs| - 1].editing
    requires |vs| % 2 == 1 && draft.kind == D && draft.editing && draft.no == NoAt(|vs|)
    requires draft.basedOn == Some(vs[|vs| - 1].id) && draft.id >= nextId
    requires VersionOk(draft, later) && nextId <= later
    ensures History(vs + [draft], later)
  {
    AllOkLater(vs, nextId, later);
    AllOkAppend(vs, draft, nextId, later);
    LinearAppend(vs, draft);
    forall i | 0 < i < |vs + [draft]| && (vs + [draft])[i].kind == C
      ensures CopyAt(vs + [draft], i)
    {
      assert CopyAt(vs, i);
    }
  }

  // The facts about new keys and untouched columns that a step on an existing master leaves.
  ghost predicate KeysGrow(r: Round, after: Round) {
    && (forall k | k in r.keys :: k in after.keys && after.keys[k] == r.keys[k])
    && (forall k | k in after.keys && k.action == ConfirmKey ::
          k in r.keys || exists i: nat :: FrozenDraftAt(after.versions, i, k.scope))
  }

  lemma {:induction false} StoreGrows(keys: Keys, k: Key, request: Request)
    requires Consume(keys, k, request).Fresh?
    ensures forall c | c in keys :: c in Store(keys, k, request) && Store(keys, k, request)[c] == keys[c]
    ensures forall c | c in Store(keys, k, request) :: c in keys || c == k
  {
  }

  lemma {:induction false} AppendDraftStep(r: Round, nextId: Id, after: Round, draft: Version, later: Id)
    requires Inv(r, nextId) && r.master.Some? && |r.versions| % 2 == 1 && nextId <= later
    requires after.id == r.id && after.status == r.status && after.completion == r.completion
    requires after.versions == r.versions + [draft]
    requires after.master.Some? && after.master.value == r.master.value.(draft := Some(draft.id), lock := after.master.value.lock)
    requires draft.kind == D && draft.editing && draft.no == NoAt(|r.versions|) && draft.id >= nextId
    requires draft.basedOn == Some(r.versions[|r.versions| - 1].id)
    requires VersionOk(draft, later) && KeysGrow(r, after)
    ensures Inv(after, later) && Later(r, after) && CurrentConfirmed(after) == CurrentConfirmed(r)
  {
    assert LinkAt(r.versions, |r.versions| - 1);
    HistoryAppendDraft(r.versions, nextId, draft, later);
    KeysFollow(r, after);
  }

  lemma {:induction false} DraftFromOk(vs: seq<Version>, nextId: Id, base: Version)
    requires Linear(vs) && |vs| % 2 == 1 && SchemaOk(Bodies(base.segments))
    ensures VersionOk(DraftFrom(vs, nextId, base), nextId + 1 + |base.segments|)
    ensures DraftFrom(vs, nextId, base).no == NoAt(|vs|)
  {
    var draft := DraftFrom(vs, nextId, base);
    var rows := ReferringAll(base.segments);
    ReferringKeepsContent(base.segments);
    NewVersionOk(draft, Bodies(rows), SourcesOf(rows), nextId + 1, nextId + 1 + |base.segments|);
    NextNoContinues(vs);
  }

  lemma {:induction false} DraftCreatedKeeps(r: Round, nextId: Id, k: Key, base: Version)
    requires Inv(r, nextId) && r.master.Some? && |r.versions| % 2 == 1
    requires base == r.versions[|r.versions| - 1]
    requires k.action == CreateKey && Consume(r.keys, k, CreateRequest).Fresh?
    ensures GoodStep(r, nextId, DraftCreated(r, nextId, k, base))
  {
    var o := DraftCreated(r, nextId, k, base);
    assert VersionOk(base, nextId);
    DraftFromOk(r.versions, nextId, base);
    StoreGrows(r.keys, k, CreateRequest);
    AppendDraftStep(r, nextId, o.round, DraftFrom(r.versions, nextId, base), o.nextId);
  }

  lemma {:induction false} HistoryReplaceDraft(vs: seq<Version>, nextId: Id, saved: Version, later: Id)
    requires History(vs, nextId) && vs != [] && vs[|vs| - 1].kind == D
    requires SamePlace(saved, vs[|vs| - 1]) && saved.editing == vs[|vs| - 1].editing
    requires VersionOk(saved, later) && nextId <= later
    ensures History(vs[|vs| - 1 := saved], later)
  {
    AllOkUpdate(vs, |vs| - 1, saved, nextId, later);
    LinearReplaceLast(vs, saved);
    var changed := vs[|vs| - 1 := saved];
    forall i | 0 < i < |changed| && changed[i].kind == C
      ensures CopyAt(changed, i)
    {
      assert CopyAt(vs, i);
    }
  }

  lemma {:induction false} SaveDraftStep(r: Round, nextId: Id, after: Round, saved: Version, later: Id)
    requires Inv(r, nextId) && r.master.Some? && |r.versions| % 2 == 0 && nextId <= later
    requires after.id == r.id && after.status == r.status && after.completion == r.completion
    requires after.versions == r.versions[|r.versions| - 1 := saved]
    requires after.master.Some? && after.master.value == r.master.value.(lock := after.master.value.lock)
    requires SamePlace(saved, r.versions[|r.versions| - 1]) && saved.editing
    requires VersionOk(saved, later) && KeysGrow(r, after)
    ensures Inv(after, later) && Later(r, after) && CurrentConfirmed(after) == CurrentConfirmed(r)
  {
    assert LinkAt(r.versions, |r.versions| - 1);
    HistoryReplaceDraft(r.versions, nextId, saved, later);
    KeysFollow(r, after);
  }

  lemma {:induction false} SavedVersionOk(vs: seq<Version>, nextId: Id, draft: Version, segments: seq<Body>)
    requires SchemaOk(segments) && draft.id < nextId
    ensures VersionOk(SavedVersion(vs, nextId, draft, segments), nextId + |segments|)
  {
    NewVersionOk(SavedVersion(vs, nextId, draft, segments), segments, DeriveSources(segments, ByNo(BaseRows(vs, draft))),
                 nextId, nextId + |segments|);
  }

  lemma {:induction false} SavedPlace(vs: seq<Version>, nextId: Id, segments: seq<Body>)
    requires Linear(vs) && vs != [] && |vs| % 2 == 0
    ensures var draft := vs[|vs| - 1];
            var saved := SavedVersion(vs, nextId, draft, segments);
            && SamePlace(saved, draft)
            && saved.editing
            && ReplaceVersion(vs, saved) == vs[|vs| - 1 := saved]
  {
    assert LinkAt(vs, |vs| - 1);
    ReplaceLast(vs, SavedVersion(vs, nextId, vs[|vs| - 1], segments));
  }

  lemma {:induction false} DraftSavedKeeps(r: Round, nextId: Id, k: Key, request: Request, draft: Version)
    requires Inv(r, nextId) && r.master.Some? && request.SaveRequest? && SchemaOk(request.segments)
    requires |r.versions| % 2 == 0 && draft == r.versions[|r.versions| - 1]
    requires k.action == SaveKey && Consume(r.keys, k, request).Fresh?
    ensures GoodStep(r, nextId, DraftSaved(r, nextId, k, request, draft))
  {
    var saved := SavedVersion(r.versions, nextId, draft, request.segments);
    assert VersionOk(draft, nextId);
    SavedVersionOk(r.versions, nextId, draft, request.segments);
    SavedPlace(r.versions, nextId, request.segments);
    SaveOutcomeKeeps(r, nextId, k, request, saved, DraftSaved(r, nextId, k, request, draft));
  }

  lemma {:induction false} SaveOutcomeKeeps(r: Round, nextId: Id, k: Key, request: Request, saved: Version, o: Outcome)
    requires Inv(r, nextId) && r.master.Some? && |r.versions| % 2 == 0 && nextId <= o.nextId
    requires k.action == SaveKey && Consume(r.keys, k, request).Fresh?
    requires SamePlace(saved, r.versions[|r.versions| - 1]) && saved.editing && VersionOk(saved, o.nextId)
    requires o.round == r.(master := Some(r.master.value.(lock := r.master.value.lock + 1)),
                           versions := r.versions[|r.versions| - 1 := saved],
                           keys := Store(r.keys, k, request))
    ensures GoodStep(r, nextId, o)
  {
    StoreGrows(r.keys, k, request);
    SaveDraftStep(r, nextId, o.round, saved, o.nextId);
  }

  lemma {:induction false} HistoryConfirm(vs: seq<Version>, nextId: Id, frozen: Version, confirmed: Version, later: Id)
    requires History(vs, nextId) && vs != [] && |vs| % 2 == 0
    requires frozen == vs[|vs| - 1].(editing := false)
    requires confirmed.kind == C && confirmed.no == NoAt(|vs|) && confirmed.basedOn == Some(frozen.id) && !confirmed.editing
    requires confirmed.id >= nextId && VersionOk(confirmed, later) && nextId <= later
    requires Bodies(confirmed.segments) == Bodies(frozen.segments)
    requires SourcesOf(confirmed.segments) == SourcesOf(frozen.segments)
    requires Confirmable(Bodies(frozen.segments))
    ensures History(vs[|vs| - 1 := frozen] + [confirmed], later)
  {
    assert VersionOk(vs[|vs| - 1], nextId);
    AllOkLater(vs, nextId, later);
    AllOkUpdate(vs, |vs| - 1, frozen, nextId, nextId);
    AllOkAppend(vs[|vs| - 1 := frozen], confirmed, nextId, later);
    LinearFreezeAppend(vs, frozen, confirmed);
    var longer := vs[|vs| - 1 := frozen] + [confirmed];
    assert LinkAt(vs, |vs| - 1);
    forall i | 0 < i < |longer| && longer[i].kind == C
      ensures CopyAt(longer, i)
    {
      if i < |vs| {
        assert CopyAt(vs, i);
      }
    }
  }

  lemma {:induction false} ConfirmStep(r: Round, nextId: Id, after: Round, frozen: Version, confirmed: Version, later: Id)
    requires Inv(r, nextId) && r.master.Some? && |r.versions| % 2 == 0 && nextId <= later
    requires after.id == r.id && after.status == RoundStatus.Completed && after.completion == ConfirmedTranscript
    requires frozen == r.versions[|r.versions| - 1].(editing := false)
    requires after.versions == r.versions[|r.versions| - 1 := frozen] + [confirmed]
    requires after.master.Some?
    requires after.master.value == r.master.value.(confirmed := Some(confirmed.id), draft := None, lock := after.master.value.lock)
    requires confirmed.kind == C && confirmed.no == NoAt(|r.versions|) && confirmed.basedOn == Some(frozen.id) && !confirmed.editing
    requires confirmed.id >= nextId && VersionOk(confirmed, later)
    requires Bodies(confirmed.segments) == Bodies(frozen.segments)
    requires SourcesOf(confirmed.segments) == SourcesOf(frozen.segments)
    requires Confirmable(Bodies(frozen.segments))
    requires KeysGrow(r, after)
    ensures Inv(after, later) && Later(r, after)
  {
    ConfirmMovesOn(r, after, frozen, confirmed);
    HistoryConfirm(r.versions, nextId, frozen, confirmed, later);
    KeysFollow(r, after);
  }

  lemma {:induction false} ConfirmMovesOn(r: Round, after: Round, frozen: Version, confirmed: Version)
    requires Linear(r.versions) && StatusAgrees(r) && r.master.Some? && |r.versions| % 2 == 0 && r.versions != []
    requires after.id == r.id && after.status == RoundStatus.Completed && after.completion == ConfirmedTranscript
    requires frozen == r.versions[|r.versions| - 1].(editing := false)
    requires after.versions == r.versions[|r.versions| - 1 := frozen] + [confirmed]
    requires after.master.Some? && after.master.value.id == r.master.value.id
    requires KeysGrow(r, after)
    ensures Later(r, after)
  {
    assert LinkAt(r.versions, |r.versions| - 1);
  }

  lemma {:induction false} ConfirmedFromOk(vs: seq<Version>, nextId: Id, draft: Version)
    requires Linear(vs) && vs != [] && |vs| % 2 == 0 && SchemaOk(Bodies(draft.segments))
    ensures VersionOk(ConfirmedFrom(vs, nextId, draft), nextId + 1 + |draft.segments|)
    ensures ConfirmedFrom(vs, nextId, draft).no == NoAt(|vs|)
    ensures Bodies(ConfirmedFrom(vs, nextId, draft).segments) == Bodies(draft.segments)
    ensures SourcesOf(ConfirmedFrom(vs, nextId, draft).segments) == SourcesOf(draft.segments)
  {
    NewVersionOk(ConfirmedFrom(vs, nextId, draft), Bodies(draft.segments), SourcesOf(draft.segments), nextId + 1,
                 nextId + 1 + |draft.segments|);
    NextNoContinues(vs);
  }

  lemma {:induction false} DraftConfirmedKeeps(r: Round, nextId: Id, k: Key, request: Request, draft: Version)
    requires Inv(r, nextId) && r.master.Some? && request.ConfirmRequest?
    requires |r.versions| % 2 == 0 && draft == r.versions[|r.versions| - 1]
    requires Confirmable(Bodies(draft.segments))
    requires k.action == ConfirmKey && k.scope == draft.id && Consume(r.keys, k, request).Fresh?
    ensures GoodStep(r, nextId, DraftConfirmed(r, nextId, k, request, draft))
  {
    var o := DraftConfirmed(r, nextId, k, request, draft);
    var vs := r.versions;
    var frozen, confirmed := draft.(editing := false), ConfirmedFrom(vs, nextId, draft);
    assert VersionOk(draft, nextId);
    ConfirmedFromOk(vs, nextId, draft);
    ReplaceLast(vs, frozen);
    ConfirmOutcomeKeeps(r, nextId, k, request, frozen, confirmed, o);
  }

  lemma {:induction false} ConfirmOutcomeKeeps(r: Round, nextId: Id, k: Key, request: Request, frozen: Version, confirmed: Version,
                                               o: Outcome)
    requires Inv(r, nextId) && r.master.Some? && |r.versions| % 2 == 0 && nextId <= o.nextId
    requires frozen == r.versions[|r.versions| - 1].(editing := false)
    requires k.action == ConfirmKey && k.scope == frozen.id && Consume(r.keys, k, request).Fresh?
    requires confirmed.kind == C && confirmed.no == NoAt(|r.versions|) && confirmed.basedOn == Some(frozen.id) && !confirmed.editing
    requires confirmed.id >= nextId && VersionOk(confirmed, o.nextId)
    requires Bodies(confirmed.segments) == Bodies(frozen.segments)
    requires SourcesOf(confirmed.segments) == SourcesOf(frozen.segments)
    requires Confirmable(Bodies(frozen.segments))
    requires o.round.id == r.id && o.round.status == RoundStatus.Completed && o.round.completion == ConfirmedTranscript
    requires o.round.master == Some(r.master.value.(confirmed := Some(confirmed.id), draft := None, lock := r.master.value.lock + 1))
    requires o.round.versions == r.versions[|r.versions| - 1 := frozen] + [confirmed]
    requires o.round.keys == Store(r.keys, k, request)
    ensures GoodStep(r, nextId, o)
  {
    StoreGrows(r.keys, k, request);
    assert LinkAt(r.versions, |r.versions| - 1);
    assert FrozenDraftAt(o.round.versions, |r.versions| - 1, k.scope);
    ConfirmStep(r, nextId, o.round, frozen, confirmed, o.nextId);
  }
}
