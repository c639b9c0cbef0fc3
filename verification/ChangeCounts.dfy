// The change counters of a draft save (interview_transcripts.py, _compute_change_counts).
module ChangeCounts {
  import opened Common
  import opened Segments

  datatype Counts = Counts(
    speakerChanges: nat, textCorrections: nat, mergeSplit: nat, deleted: nat,
    manualAdditions: nat, excluded: nat, reorders: nat)

  const NO_CHANGES := Counts(0, 0, 0, 0, 0, 0, 0)

  // What one incoming row adds to the four per-row counters.
  datatype Delta = Delta(speaker: nat, text: nat, mergeSplit: nat, excluded: nat)

  predicate SpeakerDiffers(a: Body, b: Body) {
    a.speakerKey != b.speakerKey || a.speakerName != b.speakerName || a.speakerRole != b.speakerRole
  }

  // The first previous row holding exactly these references.
  function FirstWithRefs(previous: seq<Segment>, refs: seq<int>): (r: Option<Segment>)
    ensures r.Some? ==> r.value in previous && r.value.body.refs == refs
    ensures r.None? ==> forall row | row in previous :: row.body.refs != refs
  {
    if previous == [] then None
    else if previous[0].body.refs == refs then Some(previous[0])
    else FirstWithRefs(previous[1..], refs)
  }

  // The previous row an incoming row with a single reference is compared with: the row of that
  // number, or failing that the first row with the same references.
  function Matched(previous: seq<Segment>, refs: seq<int>): (r: Option<Segment>)
    requires |refs| == 1
  {
    var byNo := ByNo(previous);
    if refs[0] in byNo then Some(byNo[refs[0]]) else FirstWithRefs(previous, refs)
  }

  function One(b: bool): nat {
    if b then 1 else 0
  }

  function DeltaAgainst(row: Body, prev: Body): Delta {
    Delta(One(SpeakerDiffers(row, prev)), One(row.text != prev.text),
          One(|prev.refs| != |row.refs| && |prev.refs| > 0), One(!row.included && prev.included))
  }

  function DeltaOf(previous: seq<Segment>, row: Body, source: Source): Delta {
    if source == ManualAddition then Delta(0, 0, 0, 0)
    else if |row.refs| != 1 then Delta(0, 0, 1, 0)
    else
      match Matched(previous, row.refs)
      case None => Delta(0, 0, 1, 0)
      case Some(prev) => DeltaAgainst(row, prev.body)
  }

  function Plus(a: Delta, b: Delta): Delta {
    Delta(a.speaker + b.speaker, a.text + b.text, a.mergeSplit + b.mergeSplit, a.excluded + b.excluded)
  }

  function Deltas(previous: seq<Segment>, incoming: seq<Body>, sources: seq<Source>): (r: seq<Delta>)
    requires |incoming| == |sources|
    ensures |r| == |incoming| && forall i | 0 <= i < |r| :: r[i] == DeltaOf(previous, incoming[i], sources[i])
  {
    seq(|incoming|, i requires 0 <= i < |incoming| => DeltaOf(previous, incoming[i], sources[i]))
  }

  function Sum(deltas: seq<Delta>): Delta {
    if deltas == [] then Delta(0, 0, 0, 0)
    else Plus(Sum(deltas[..|deltas| - 1]), deltas[|deltas| - 1])
  }

  lemma {:induction false} SumStep(deltas: seq<Delta>, i: nat)
    requires i < |deltas|
    ensures Sum(deltas[..i + 1]) == Plus(Sum(deltas[..i]), deltas[i])
  {
    assert deltas[..i + 1][..i] == deltas[..i];
  }

  function ManualCount(sources: seq<Source>): nat {
    if sources == [] then 0
    else ManualCount(sources[..|sources| - 1]) + One(sources[|sources| - 1] == ManualAddition)
  }

  // The previous numbers that some incoming row refers to.
  function Kept(previous: seq<Segment>, incoming: seq<Body>): set<int> {
    set i, k | 0 <= i < |incoming| && 0 <= k < |incoming[i].refs| && incoming[i].refs[k] in Nos(previous)
      :: incoming[i].refs[k]
  }

  function RefsOrNo(row: Segment): seq<int> {
    if row.body.refs == [] then [row.no] else row.body.refs
  }

  predicate SameRefOrder(previous: seq<Segment>, incoming: seq<Body>) {
    |previous| == |incoming| && forall i | 0 <= i < |incoming| :: RefsOrNo(previous[i]) == incoming[i].refs
  }

  function CountsOf(previous: seq<Segment>, incoming: seq<Body>, sources: seq<Source>): Counts
    requires |incoming| == |sources|
  {
    var d := Sum(Deltas(previous, incoming, sources));
    var gone := |previous| - |Kept(previous, incoming)|;
    Counts(d.speaker, d.text, d.mergeSplit, if gone < 0 then 0 else gone, ManualCount(sources), d.excluded,
           One(!SameRefOrder(previous, incoming) && previous != []))
  }

  // ---------- the loops ----------

  method TallyRows(previous: seq<Segment>, incoming: seq<Body>, sources: seq<Source>) returns (d: Delta)
    requires |incoming| == |sources|
    ensures d == Sum(Deltas(previous, incoming, sources))
  {
    var prevByNo := ByNo(previous);
    ghost var deltas := Deltas(previous, incoming, sources);
    d := Delta(0, 0, 0, 0);
    for i := 0 to |incoming|
      invariant d == Sum(deltas[..i])
    {
      SumStep(deltas, i);
      var row := incoming[i];
      if sources[i] == ManualAddition {
        assert deltas[i] == Delta(0, 0, 0, 0);
        continue;
      }
      if |row.refs| != 1 {
        assert deltas[i] == Delta(0, 0, 1, 0);
        d := d.(mergeSplit := d.mergeSplit + 1);
        continue;
      }
      var prev: Option<Segment> := if row.refs[0] in prevByNo then Some(prevByNo[row.refs[0]]) else None;
      if prev.None? {
        prev := FirstWithRefs(previous, row.refs);
      }
      assert prev == Matched(previous, row.refs);
      if prev.None? {
        assert deltas[i] == Delta(0, 0, 1, 0);
        d := d.(mergeSplit := d.mergeSplit + 1);
        continue;
      }
      assert deltas[i] == DeltaAgainst(row, prev.value.body);
      d := Plus(d, DeltaAgainst(row, prev.value.body));
    }
    assert deltas[..|deltas|] == deltas;
  }

  method CollectKept(previous: seq<Segment>, incoming: seq<Body>) returns (kept: set<int>)
    ensures kept == Kept(previous, incoming)
  {
    var prevByNo := ByNo(previous);
    ByNoContents(previous);
    kept := {};
    for i := 0 to |incoming|
      invariant kept == Kept(previous, incoming[..i])
    {
      var refs := incoming[i].refs;
      ghost var before := kept;
      for k := 0 to |refs|
        invariant kept == before + set j | 0 <= j < k && refs[j] in Nos(previous) :: refs[j]
      {
        if refs[k] in prevByNo {
          kept := kept + {refs[k]};
        }
      }
      KeptStep(previous, incoming, i);
    }
    assert incoming[..|incoming|] == incoming;
  }

  lemma {:induction false} KeptStep(previous: seq<Segment>, incoming: seq<Body>, i: nat)
    requires i < |incoming|
    ensures Kept(previous, incoming[..i + 1])
            == Kept(previous, incoming[..i]) + set j | 0 <= j < |incoming[i].refs| && incoming[i].refs[j] in Nos(previous) :: incoming[i].refs[j]
  {
    var shorter, longer := incoming[..i], incoming[..i + 1];
    forall no | no in Kept(previous, longer)
      ensures no in Kept(previous, shorter) + set j | 0 <= j < |incoming[i].refs| && incoming[i].refs[j] in Nos(previous) :: incoming[i].refs[j]
    {
      var a, k :| 0 <= a < |longer| && 0 <= k < |longer[a].refs| && longer[a].refs[k] in Nos(previous) && longer[a].refs[k] == no;
      if a < i {
        assert shorter[a].refs[k] == no;
      }
    }
    forall no | no in Kept(previous, shorter)
      ensures no in Kept(previous, longer)
    {
      var a, k :| 0 <= a < |shorter| && 0 <= k < |shorter[a].refs| && shorter[a].refs[k] in Nos(previous) && shorter[a].refs[k] == no;
      assert longer[a].refs[k] == no;
    }
    forall j | 0 <= j < |incoming[i].refs| && incoming[i].refs[j] in Nos(previous)
      ensures incoming[i].refs[j] in Kept(previous, longer)
    {
      assert longer[i].refs[j] == incoming[i].refs[j];
    }
  }

  method ComputeChangeCounts(previous: seq<Segment>, incoming: seq<Body>, sources: seq<Source>) returns (c: Counts)
    requires |incoming| == |sources|
    ensures c == CountsOf(previous, incoming, sources)
  {
    var d := TallyRows(previous, incoming, sources);
    var kept := CollectKept(previous, incoming);
    var deleted := if |previous| - |kept| < 0 then 0 else |previous| - |kept|;
    var manual := CountManual(sources);
    c := Counts(d.speaker, d.text, d.mergeSplit, deleted, manual, d.excluded,
                One(!SameRefOrder(previous, incoming) && previous != []));
  }

  method CountManual(sources: seq<Source>) returns (n: nat)
    ensures n == ManualCount(sources)
  {
    n := 0;
    for i := 0 to |sources|
      invariant n == ManualCount(sources[..i])
    {
      assert sources[..i + 1][..i] == sources[..i];
      if sources[i] == ManualAddition {
        n := n + 1;
      }
    }
    assert sources[..|sources|] == sources;
  }

  // ---------- what the counters mean ----------

  // The previous content an incoming row is compared with, if it is compared at all.
  function Compared(previous: seq<Segment>, row: Body, source: Source): Option<Body> {
    if source == ManualAddition || |row.refs| != 1 || Matched(previous, row.refs).None? then None
    else Some(Matched(previous, row.refs).value.body)
  }

  function SpeakerChangedRows(previous: seq<Segment>, incoming: seq<Body>, sources: seq<Source>): set<nat>
    requires |incoming| == |sources|
  {
    set i: nat | i < |incoming|
            && var prev := Compared(previous, incoming[i], sources[i]);
               prev.Some? && (incoming[i].speakerKey != prev.value.speakerKey
                              || incoming[i].speakerName != prev.value.speakerName
                              || incoming[i].speakerRole != prev.value.speakerRole)
  }

  function TextChangedRows(previous: seq<Segment>, incoming: seq<Body>, sources: seq<Source>): set<nat>
    requires |incoming| == |sources|
  {
    set i: nat | i < |incoming|
            && var prev := Compared(previous, incoming[i], sources[i]);
               prev.Some? && incoming[i].text != prev.value.text
  }

  function NewlyExcludedRows(previous: seq<Segment>, incoming: seq<Body>, sources: seq<Source>): set<nat>
    requires |incoming| == |sources|
  {
    set i: nat | i < |incoming|
            && var prev := Compared(previous, incoming[i], sources[i]);
               prev.Some? && !incoming[i].included && prev.value.included
  }

  // Rows that are no manual addition and do not continue exactly one previous row.
  function MergedOrSplitRows(previous: seq<Segment>, incoming: seq<Body>, sources: seq<Source>): set<nat>
    requires |incoming| == |sources|
  {
    set i: nat | i < |incoming| && sources[i] != ManualAddition
            && var prev := Compared(previous, incoming[i], sources[i]);
               prev.None? || |prev.value.refs| > 1
  }

  ghost predicate Additive(f: Delta -> nat) {
    f(Delta(0, 0, 0, 0)) == 0 && forall a, b :: f(Plus(a, b)) == f(a) + f(b)
  }

  // A counter that each row raises by one or not at all counts the rows that raise it.
  lemma {:induction false} SumCounts(deltas: seq<Delta>, f: Delta -> nat, rows: set<nat>, n: nat)
    requires Additive(f) && n <= |deltas|
    requires forall i | i in rows :: i < n
    requires forall i | 0 <= i < n :: f(deltas[i]) == One(i in rows)
    ensures f(Sum(deltas[..n])) == |rows|
  {
    if n == 0 {
      assert rows == {};
    } else {
      SumCounts(deltas, f, rows - {n - 1}, n - 1);
      SumStep(deltas, n - 1);
      assert f(Plus(Sum(deltas[..n - 1]), deltas[n - 1])) == f(Sum(deltas[..n - 1])) + f(deltas[n - 1]);
    }
  }

  lemma {:induction false} DeltaFields(previous: seq<Segment>, row: Body, source: Source)
    ensures var d := DeltaOf(previous, row, source);
            var prev := Compared(previous, row, source);
            && d.speaker == One(prev.Some? && SpeakerDiffers(row, prev.value))
            && d.text == One(prev.Some? && row.text != prev.value.text)
            && d.excluded == One(prev.Some? && !row.included && prev.value.included)
            && d.mergeSplit == One(source != ManualAddition && (prev.None? || |prev.value.refs| > 1))
  {
  }

  // Each per-row counter is the number of incoming rows with the change it is named after.
  lemma {:induction false} CountersCountRows(previous: seq<Segment>, incoming: seq<Body>, sources: seq<Source>)
    requires |incoming| == |sources|
    ensures var c := CountsOf(previous, incoming, sources);
            && c.speakerChanges == |SpeakerChangedRows(previous, incoming, sources)|
            && c.textCorrections == |TextChangedRows(previous, incoming, sources)|
            && c.excluded == |NewlyExcludedRows(previous, incoming, sources)|
            && c.mergeSplit == |MergedOrSplitRows(previous, incoming, sources)|
            && c.manualAdditions == |set i | 0 <= i < |sources| && sources[i] == ManualAddition|
  {
    var deltas := Deltas(previous, incoming, sources);
    var n := |incoming|;
    assert deltas[..n] == deltas && sources[..n] == sources;
    ManualCounts(sources, n);
    forall i | 0 <= i < n
      ensures deltas[i].speaker == One(i in SpeakerChangedRows(previous, incoming, sources))
      ensures deltas[i].text == One(i in TextChangedRows(previous, incoming, sources))
      ensures deltas[i].excluded == One(i in NewlyExcludedRows(previous, incoming, sources))
      ensures deltas[i].mergeSplit == One(i in MergedOrSplitRows(previous, incoming, sources))
    {
      DeltaFields(previous, incoming[i], sources[i]);
    }
    SumCounts(deltas, (d: Delta) => d.speaker, SpeakerChangedRows(previous, incoming, sources), n);
    SumCounts(deltas, (d: Delta) => d.text, TextChangedRows(previous, incoming, sources), n);
    SumCounts(deltas, (d: Delta) => d.excluded, NewlyExcludedRows(previous, incoming, sources), n);
    SumCounts(deltas, (d: Delta) => d.mergeSplit, MergedOrSplitRows(previous, incoming, sources), n);
  }

  lemma {:induction false} ManualCounts(sources: seq<Source>, n: nat)
    requires n <= |sources|
    ensures ManualCount(sources[..n]) == |set i | 0 <= i < n && sources[i] == ManualAddition|
  {
    if n > 0 {
      ManualCounts(sources, n - 1);
      assert sources[..n][..n - 1] == sources[..n - 1];
      assert (set i | 0 <= i < n && sources[i] == ManualAddition)
          == (set i | 0 <= i < n - 1 && sources[i] == ManualAddition)
             + if sources[n - 1] == ManualAddition then {n - 1} else {};
    }
  }

  // A row with a single reference is compared with the previous row of that number, or if there is
  // none with the first previous row that has the same reference itself; any other row with none.
  lemma {:induction false} ComparedIff(previous: seq<Segment>, row: Body, source: Source)
    requires NosDistinct(previous)
    ensures var prev := Compared(previous, row, source);
            && (source == ManualAddition || |row.refs| != 1 ==> prev == None)
            && (source != ManualAddition && |row.refs| == 1 ==>
                  if exists i | 0 <= i < |previous| :: previous[i].no == row.refs[0]
                  then exists i | 0 <= i < |previous| :: previous[i].no == row.refs[0] && prev == Some(previous[i].body)
                  else if exists i | 0 <= i < |previous| :: previous[i].body.refs == row.refs
                  then exists i | 0 <= i < |previous| :: FirstRepeat(previous, i, row.refs) && prev == Some(previous[i].body)
                  else prev == None)
  {
    if source != ManualAddition && |row.refs| == 1 {
      ByNoContents(previous);
      if i :| 0 <= i < |previous| && previous[i].no == row.refs[0] {
        LookupByNo(previous, i);
      } else {
        FirstWithRefsIsFirst(previous, row.refs);
      }
    }
  }

  predicate FirstRepeat(previous: seq<Segment>, i: nat, refs: seq<int>)
    requires i < |previous|
  {
    previous[i].body.refs == refs && forall j | 0 <= j < i :: previous[j].body.refs != refs
  }

  lemma {:induction false} FirstWithRefsIsFirst(previous: seq<Segment>, refs: seq<int>)
    ensures FirstWithRefs(previous, refs).Some? ==>
              exists i | 0 <= i < |previous| :: FirstRepeat(previous, i, refs) && previous[i] == FirstWithRefs(previous, refs).value
    ensures FirstWithRefs(previous, refs).None? ==> forall i | 0 <= i < |previous| :: previous[i].body.refs != refs
  {
    if previous != [] && previous[0].body.refs == refs {
      assert FirstRepeat(previous, 0, refs);
    } else if previous != [] {
      var rest := previous[1..];
      FirstWithRefsIsFirst(rest, refs);
      if FirstWithRefs(rest, refs).Some? {
        var i :| 0 <= i < |rest| && FirstRepeat(rest, i, refs) && rest[i] == FirstWithRefs(rest, refs).value;
        assert FirstRepeat(previous, i + 1, refs) by {
          assert forall j | 0 < j <= i :: previous[j] == rest[j - 1];
        }
      } else {
        assert forall i | 0 < i < |previous| :: previous[i] == rest[i - 1];
      }
    }
  }

  // One reordering is counted exactly when there were rows before and the references of the
  // incoming rows are not, place by place, those of the previous rows (a previous row without
  // references standing for its own number).
  lemma {:induction false} ReorderIff(previous: seq<Segment>, incoming: seq<Body>, sources: seq<Source>)
    requires |incoming| == |sources|
    ensures var c := CountsOf(previous, incoming, sources);
            && c.reorders <= 1
            && (c.reorders == 1 <==>
                  && previous != []
                  && (|previous| != |incoming|
                      || exists i | 0 <= i < |incoming| :: Moved(previous[i], incoming[i])))
  {
    if |previous| == |incoming| {
      assert SameRefOrder(previous, incoming) <==> forall i | 0 <= i < |incoming| :: !Moved(previous[i], incoming[i]);
    }
  }

  predicate Moved(before: Segment, row: Body) {
    if before.body.refs == [] then row.refs != [before.no] else row.refs != before.body.refs
  }

  predicate Referenced(no: int, incoming: seq<Body>) {
    exists i | 0 <= i < |incoming| :: no in incoming[i].refs
  }

  function Unreferenced(previous: seq<Segment>, incoming: seq<Body>): set<int> {
    set no | no in Nos(previous) && !Referenced(no, incoming)
  }

  lemma {:induction false} KeptAreReferenced(previous: seq<Segment>, incoming: seq<Body>)
    ensures Kept(previous, incoming) == Nos(previous) - Unreferenced(previous, incoming)
  {
    forall no
      ensures no in Kept(previous, incoming) <==> no in Nos(previous) && Referenced(no, incoming)
    {
      if no in Nos(previous) && Referenced(no, incoming) {
        var i :| 0 <= i < |incoming| && no in incoming[i].refs;
        var k :| 0 <= k < |incoming[i].refs| && incoming[i].refs[k] == no;
      }
    }
  }

  // deleted_count is exactly the number of previous rows that no incoming row refers to, so
  // cutting it off at zero never matters.
  lemma {:induction false} DeletedIsExact(previous: seq<Segment>, incoming: seq<Body>, sources: seq<Source>)
    requires |incoming| == |sources| && NosDistinct(previous)
    ensures CountsOf(previous, incoming, sources).deleted == |Unreferenced(previous, incoming)|
    ensures |previous| - |Kept(previous, incoming)| >= 0
  {
    KeptAreReferenced(previous, incoming);
    DistinctNosCount(previous);
    var nos, gone := Nos(previous), Unreferenced(previous, incoming);
    assert gone <= nos;
    assert |nos - gone| == |nos| - |gone|;
  }

  // A row is never counted both as a manual addition and as a merge or split, nor twice as either.
  lemma {:induction false} AdditionsAndMergesFit(previous: seq<Segment>, incoming: seq<Body>, sources: seq<Source>)
    requires |incoming| == |sources|
    ensures var c := CountsOf(previous, incoming, sources);
            c.mergeSplit + c.manualAdditions <= |incoming|
  {
    AdditionsAndMergesFitUpTo(Deltas(previous, incoming, sources), sources, |incoming|);
    assert Deltas(previous, incoming, sources)[..|incoming|] == Deltas(previous, incoming, sources);
    assert sources[..|sources|] == sources;
  }

  lemma {:induction false} AdditionsAndMergesFitUpTo(deltas: seq<Delta>, sources: seq<Source>, n: nat)
    requires n <= |deltas| == |sources|
    requires forall i | 0 <= i < n :: deltas[i].mergeSplit + One(sources[i] == ManualAddition) <= 1
    ensures Sum(deltas[..n]).mergeSplit + ManualCount(sources[..n]) <= n
  {
    if n > 0 {
      AdditionsAndMergesFitUpTo(deltas, sources, n - 1);
      SumStep(deltas, n - 1);
      assert sources[..n][..n - 1] == sources[..n - 1];
    }
  }

  predicate Quiet(d: Delta) {
    d == Delta(0, 0, 0, 0)
  }

  lemma {:induction false} PlusQuietIff(a: Delta, b: Delta)
    ensures Quiet(Plus(a, b)) <==> Quiet(a) && Quiet(b)
  {
    var sum := Plus(a, b);
    assert sum == Delta(a.speaker + b.speaker, a.text + b.text, a.mergeSplit + b.mergeSplit, a.excluded + b.excluded);
    if Quiet(sum) {
      assert a.speaker == 0 && a.text == 0 && a.mergeSplit == 0 && a.excluded == 0;
      assert b.speaker == 0 && b.text == 0 && b.mergeSplit == 0 && b.excluded == 0;
    }
  }

  predicate QuietBelow(deltas: seq<Delta>, n: nat)
    requires n <= |deltas|
  {
    forall i | 0 <= i < n :: Quiet(deltas[i])
  }

  lemma {:induction false} QuietBelowStep(deltas: seq<Delta>, n: nat)
    requires n < |deltas|
    ensures QuietBelow(deltas, n + 1) <==> QuietBelow(deltas, n) && Quiet(deltas[n])
  {
  }

  lemma {:induction false} SumQuietIff(deltas: seq<Delta>, n: nat)
    requires n <= |deltas|
    ensures Quiet(Sum(deltas[..n])) <==> QuietBelow(deltas, n)
  {
    if n > 0 {
      var before, last := Sum(deltas[..n - 1]), deltas[n - 1];
      SumQuietIff(deltas, n - 1);
      QuietBelowStep(deltas, n - 1);
      SumStep(deltas, n - 1);
      PlusQuietIff(before, last);
      assert Sum(deltas[..n]) == Plus(before, last);
    }
  }

  lemma {:induction false} NoManualIff(sources: seq<Source>)
    ensures ManualCount(sources) == 0 <==> forall i | 0 <= i < |sources| :: sources[i] != ManualAddition
  {
    if sources != [] {
      var n := |sources| - 1;
      NoManualIff(sources[..n]);
      assert forall i | 0 <= i < n :: sources[..n][i] == sources[i];
    }
  }

  // Row i names one row of the base version, and repeats the previous row that its reference
  // leads to: same speaker and text, no newly dropped inclusion, and no change in the number
  // of references.
  predicate Agrees(previous: seq<Segment>, base: RowsByNo, row: Body) {
    && |row.refs| == 1
    && row.refs[0] in base
    && Matched(previous, row.refs).Some?
    && Quiet(DeltaAgainst(row, Matched(previous, row.refs).value.body))
  }

  // Re-saving the rows of a draft untouched reports no change if and only if every row names one
  // base row and agrees with the previous row its reference leads to, and every previous number
  // is named.
  lemma {:induction false} ResaveIsSilentIff(previous: seq<Segment>, base: RowsByNo)
    requires NosDistinct(previous)
    ensures var rows := Bodies(previous);
            CountsOf(previous, rows, DeriveSources(rows, base)) == NO_CHANGES
            <==> (forall i | 0 <= i < |rows| :: Agrees(previous, base, rows[i]))
                 && (forall i | 0 <= i < |previous| :: Referenced(previous[i].no, rows))
  {
    var rows := Bodies(previous);
    var sources := DeriveSources(rows, base);
    SilentIff(previous, rows, sources);
    ResaveRowsIff(previous, base);
    NothingGoneIff(previous, rows);
    if forall i | 0 <= i < |rows| :: Agrees(previous, base, rows[i]) {
      assert SameRefOrder(previous, rows) by {
        assert forall i | 0 <= i < |rows| :: rows[i].refs != [];
      }
    }
  }

  lemma {:induction false} SilentIff(previous: seq<Segment>, incoming: seq<Body>, sources: seq<Source>)
    requires |incoming| == |sources| && NosDistinct(previous)
    ensures CountsOf(previous, incoming, sources) == NO_CHANGES
            <==> && Quiet(Sum(Deltas(previous, incoming, sources)))
                 && ManualCount(sources) == 0
                 && |Unreferenced(previous, incoming)| == 0
                 && (SameRefOrder(previous, incoming) || previous == [])
  {
    DeletedIsExact(previous, incoming, sources);
  }

  lemma {:induction false} ResaveRowsIff(previous: seq<Segment>, base: RowsByNo)
    ensures var rows := Bodies(previous);
            var sources := DeriveSources(rows, base);
            (Quiet(Sum(Deltas(previous, rows, sources))) && ManualCount(sources) == 0)
            <==> forall i | 0 <= i < |rows| :: Agrees(previous, base, rows[i])
  {
    var rows := Bodies(previous);
    var sources := DeriveSources(rows, base);
    var deltas := Deltas(previous, rows, sources);
    forall i | 0 <= i < |rows|
      ensures sources[i] != ManualAddition && Quiet(deltas[i]) <==> Agrees(previous, base, rows[i])
    {
      ResaveRowIff(previous, base, rows[i]);
    }
    SumQuietIff(deltas, |rows|);
    assert deltas[..|rows|] == deltas;
    NoManualIff(sources);
  }

  lemma {:induction false} ResaveRowIff(previous: seq<Segment>, base: RowsByNo, row: Body)
    ensures var source := DeriveSource(row, base);
            source != ManualAddition && Quiet(DeltaOf(previous, row, source)) <==> Agrees(previous, base, row)
  {
  }

  lemma {:induction false} NothingGoneIff(previous: seq<Segment>, rows: seq<Body>)
    ensures |Unreferenced(previous, rows)| == 0 <==> forall i | 0 <= i < |previous| :: Referenced(previous[i].no, rows)
  {
    var gone := Unreferenced(previous, rows);
    if |gone| == 0 {
      forall i | 0 <= i < |previous|
        ensures Referenced(previous[i].no, rows)
      {
        assert previous[i].no in Nos(previous);
        assert previous[i].no !in gone;
      }
    } else {
      var no :| no in gone;
      var i :| 0 <= i < |previous| && previous[i].no == no;
    }
  }

  // In particular when every row's reference is its own number and the base version has them all.
  lemma {:induction false} OwnNumbersResaveSilently(previous: seq<Segment>, base: RowsByNo)
    requires NosDistinct(previous)
    requires forall i | 0 <= i < |previous| :: previous[i].body.refs == [previous[i].no] && previous[i].no in base
    ensures CountsOf(previous, Bodies(previous), DeriveSources(Bodies(previous), base)) == NO_CHANGES
  {
    var rows := Bodies(previous);
    forall i | 0 <= i < |rows|
      ensures Agrees(previous, base, rows[i]) && Referenced(previous[i].no, rows)
    {
      LookupByNo(previous, i);
      assert previous[i].no in rows[i].refs;
    }
    ResaveIsSilentIff(previous, base);
  }

  // After two rows were swapped in an earlier save, saving again without touching anything
  // reports text corrections: references name base rows, the comparison uses draft rows.
  lemma {:induction false} SwappedRowsResaveLoudly() returns (previous: seq<Segment>, base: seq<Segment>)
    ensures Numbered(previous) && Numbered(base)
    ensures CountsOf(previous, Bodies(previous), DeriveSources(Bodies(previous), ByNo(base))).textCorrections > 0
  {
    var first := Body("A", "Ann", "CANDIDATE", "yes", None, None, false, true, [1]);
    var second := Body("B", "Bob", "INTERVIEWER", "well", None, None, false, true, [2]);
    base := [Segment(1, 1, Original, first), Segment(2, 2, Original, second)];
    previous := [Segment(3, 1, Original, second), Segment(4, 2, Original, first)];
    assert |first.text| != |second.text|;
    SwapIsLoud(previous, base);
  }

  lemma {:induction false} SwapIsLoud(previous: seq<Segment>, base: seq<Segment>)
    requires |previous| == |base| == 2 && Numbered(previous) && Numbered(base)
    requires previous[0].body == base[1].body && previous[1].body == base[0].body
    requires base[1].body.refs == [2] && base[0].body.text != base[1].body.text
    ensures CountsOf(previous, Bodies(previous), DeriveSources(Bodies(previous), ByNo(base))).textCorrections > 0
  {
    var rows := Bodies(previous);
    var sources := DeriveSources(rows, ByNo(base));
    var deltas := Deltas(previous, rows, sources);
    SwappedDelta(previous, base);
    assert sources[0] == DeriveSource(rows[0], ByNo(base));
    assert deltas[0].text == 1;
    SumTextAtLeastFirst(deltas, 2);
    assert deltas[..2] == deltas;
  }

  lemma {:induction false} SumTextAtLeastFirst(deltas: seq<Delta>, n: nat)
    requires 0 < n <= |deltas|
    ensures Sum(deltas[..n]).text >= deltas[0].text
  {
    var before, last := Sum(deltas[..n - 1]), deltas[n - 1];
    SumStep(deltas, n - 1);
    assert Sum(deltas[..n]) == Plus(before, last);
    assert Plus(before, last).text == before.text + last.text;
    if n > 1 {
      SumTextAtLeastFirst(deltas, n - 1);
    }
  }

  lemma {:induction false} SwappedDelta(previous: seq<Segment>, base: seq<Segment>)
    requires |previous| == |base| == 2 && Numbered(previous) && Numbered(base)
    requires previous[0].body == base[1].body && previous[1].body == base[0].body
    requires base[1].body.refs == [2] && base[0].body.text != base[1].body.text
    ensures var row := previous[0].body;
            DeltaOf(previous, row, DeriveSource(row, ByNo(base))).text == 1
  {
    LookupByNo(base, 1);
    LookupByNo(previous, 1);
  }
}
