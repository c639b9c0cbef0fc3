// Transcript segments: their content, their numbering, and the stored aggregate text
// (interview_transcripts.py).
module Segments {
  import opened Common

  datatype Source = Original | Corrected | ManualAddition

  // The content of a row, as an import or a draft save sends it.
  datatype Body = Body(
    speakerKey: string, speakerName: string, speakerRole: string, text: string,
    startMs: Option<int>, endMs: Option<int>, unclear: bool, included: bool, refs: seq<int>)

  datatype Segment = Segment(id: Id, no: nat, source: Source, body: Body)

  predicate TimeRangeValid(b: Body) {
    && (b.startMs.None? <==> b.endMs.None?)
    && (b.startMs.Some? && b.endMs.Some? ==> 0 <= b.startMs.value < b.endMs.value)
  }

  predicate Numbered(segments: seq<Segment>) {
    forall i | 0 <= i < |segments| :: segments[i].no == i + 1
  }

  function Bodies(segments: seq<Segment>): (r: seq<Body>)
    ensures |r| == |segments| && forall i | 0 <= i < |r| :: r[i] == segments[i].body
  {
    seq(|segments|, i requires 0 <= i < |segments| => segments[i].body)
  }

  function TextsOf(bodies: seq<Body>): (r: seq<string>)
    ensures |r| == |bodies| && forall i | 0 <= i < |r| :: r[i] == bodies[i].text
  {
    seq(|bodies|, i requires 0 <= i < |bodies| => bodies[i].text)
  }

  // The texts with one newline between each two.
  function Join(texts: seq<string>): string {
    if |texts| == 0 then ""
    else if |texts| == 1 then texts[0]
    else texts[0] + "\n" + Join(texts[1..])
  }

  // Rows with the given contents and sources, numbered from 1, with consecutive fresh ids.
  function NewSegments(bodies: seq<Body>, sources: seq<Source>, firstId: Id): (r: seq<Segment>)
    requires |bodies| == |sources|
    ensures |r| == |bodies| && Numbered(r) && Bodies(r) == bodies
    ensures forall i | 0 <= i < |r| :: r[i].id == firstId + i && r[i].source == sources[i]
  {
    seq(|bodies|, i requires 0 <= i < |bodies| => Segment(firstId + i, i + 1, sources[i], bodies[i]))
  }

  function SourcesOf(segments: seq<Segment>): (r: seq<Source>)
    ensures |r| == |segments| && forall i | 0 <= i < |r| :: r[i] == segments[i].source
  {
    seq(|segments|, i requires 0 <= i < |segments| => segments[i].source)
  }

  type RowsByNo = map<int, Segment>

  // The rows by their numbers; a later row takes the place of an earlier one.
  function ByNo(rows: seq<Segment>): RowsByNo {
    if rows == [] then map[]
    else
      var n := |rows| - 1;
      ByNo(rows[..n])[rows[n].no := rows[n]]
  }

  predicate NosDistinct(rows: seq<Segment>) {
    forall i, j | 0 <= i < j < |rows| :: rows[i].no != rows[j].no
  }

  function Nos(rows: seq<Segment>): set<int> {
    set i | 0 <= i < |rows| :: rows[i].no
  }

  lemma {:induction false} ByNoContents(rows: seq<Segment>)
    ensures ByNo(rows).Keys == Nos(rows)
    ensures forall no | no in ByNo(rows) :: ByNo(rows)[no] in rows && ByNo(rows)[no].no == no
  {
    if rows != [] {
      var n := |rows| - 1;
      ByNoContents(rows[..n]);
      assert rows == rows[..n] + [rows[n]];
      assert Nos(rows) == Nos(rows[..n]) + {rows[n].no};
    }
  }

  lemma {:induction false} LookupByNo(rows: seq<Segment>, i: nat)
    requires NosDistinct(rows) && i < |rows|
    ensures rows[i].no in ByNo(rows) && ByNo(rows)[rows[i].no] == rows[i]
  {
    ByNoContents(rows);
    assert rows[i].no in Nos(rows);
    var row := ByNo(rows)[rows[i].no];
    var j :| 0 <= j < |rows| && rows[j] == row;
  }

  lemma {:induction false} DistinctNosCount(rows: seq<Segment>)
    requires NosDistinct(rows)
    ensures |Nos(rows)| == |rows|
  {
    if rows != [] {
      var n := |rows| - 1;
      DistinctNosCount(rows[..n]);
      assert Nos(rows) == Nos(rows[..n]) + {rows[n].no};
    }
  }

  // ---------- where a row comes from ----------

  predicate SameContent(a: Body, b: Body) {
    && a.speakerKey == b.speakerKey
    && a.speakerName == b.speakerName
    && a.speakerRole == b.speakerRole
    && a.text == b.text
    && a.startMs == b.startMs
    && a.endMs == b.endMs
  }

  // The import derives sources against the parsed file, the draft save against the base version.
  function DeriveSource(item: Body, base: RowsByNo): Source {
    if item.refs == [] then ManualAddition
    else if |item.refs| != 1 then Corrected
    else if item.refs[0] !in base then ManualAddition
    else if SameContent(item, base[item.refs[0]].body) then Original
    else Corrected
  }

  function DeriveSources(items: seq<Body>, base: RowsByNo): (r: seq<Source>)
    ensures |r| == |items| && forall i | 0 <= i < |r| :: r[i] == DeriveSource(items[i], base)
  {
    seq(|items|, i requires 0 <= i < |items| => DeriveSource(items[i], base))
  }

  // A row is Original exactly when it names one base row and repeats its content.
  lemma {:induction false} OriginalIffRepeatsBase(item: Body, base: seq<Segment>)
    requires NosDistinct(base)
    ensures DeriveSource(item, ByNo(base)) == Original
            <==> exists i | 0 <= i < |base| :: item.refs == [base[i].no] && SameContent(item, base[i].body)
  {
    ByNoContents(base);
    if DeriveSource(item, ByNo(base)) == Original {
      var row := ByNo(base)[item.refs[0]];
      var i :| 0 <= i < |base| && base[i] == row;
      assert item.refs == [base[i].no];
    }
    if i :| 0 <= i < |base| && item.refs == [base[i].no] && SameContent(item, base[i].body) {
      LookupByNo(base, i);
    }
  }

  // Names one base row and changes something of what it holds.
  predicate ChangesRow(item: Body, row: Segment) {
    && item.refs == [row.no]
    && (item.speakerKey != row.body.speakerKey || item.speakerName != row.body.speakerName
        || item.speakerRole != row.body.speakerRole || item.text != row.body.text
        || item.startMs != row.body.startMs || item.endMs != row.body.endMs)
  }

  // A row is an addition exactly when it names no row, or a single one that the base does not
  // have; it is corrected exactly when it names several, or one base row whose content it changes.
  lemma {:induction false} SourceIff(item: Body, base: seq<Segment>)
    requires NosDistinct(base)
    ensures DeriveSource(item, ByNo(base)) == ManualAddition
            <==> item.refs == [] || (|item.refs| == 1 && forall i | 0 <= i < |base| :: base[i].no != item.refs[0])
    ensures DeriveSource(item, ByNo(base)) == Corrected
            <==> |item.refs| >= 2 || exists i | 0 <= i < |base| :: ChangesRow(item, base[i])
  {
    ByNoContents(base);
    if |item.refs| == 1 && item.refs[0] in ByNo(base) {
      var row := ByNo(base)[item.refs[0]];
      var i :| 0 <= i < |base| && base[i] == row;
      forall j | 0 <= j < |base| && item.refs == [base[j].no]
        ensures j == i
      {
        assert base[j].no == base[i].no;
        assert !(i < j) && !(j < i);
      }
      assert SameContent(item, row.body) <==> !ChangesRow(item, base[i]);
    }
  }

  // ---------- aggregate ----------

  predicate NoNewline(s: string) {
    forall i | 0 <= i < |s| :: s[i] != '\n'
  }

  // Splitting at newlines, the inverse of Join.
  function Lines(s: string): seq<string> {
    if s == "" then [""]
    else if s[0] == '\n' then [""] + Lines(s[1..])
    else
      var rest := Lines(s[1..]);
      if rest == [] then [[s[0]]] else [[s[0]] + rest[0]] + rest[1..]
  }

  lemma {:induction false} LinesOfOne(t: string)
    requires NoNewline(t)
    ensures Lines(t) == [t]
  {
    if t != "" {
      LinesOfOne(t[1..]);
      assert [t[0]] + t[1..] == t;
    }
  }

  lemma {:induction false} LinesOfMore(t: string, rest: string)
    requires NoNewline(t)
    ensures Lines(t + "\n" + rest) == [t] + Lines(rest)
  {
    var s := t + "\n" + rest;
    if t == "" {
      assert s[1..] == rest;
    } else {
      LinesOfMore(t[1..], rest);
      assert s[1..] == t[1..] + "\n" + rest;
      var below := Lines(s[1..]);
      assert below == [t[1..]] + Lines(rest);
      assert below[0] == t[1..] && below[1..] == Lines(rest);
      assert [s[0]] + below[0] == t;
    }
  }

  // As long as no segment text holds a newline itself, the aggregate determines the texts.
  lemma {:induction false} AggregateRoundTrip(texts: seq<string>)
    requires |texts| > 0 && forall i | 0 <= i < |texts| :: NoNewline(texts[i])
    ensures Lines(Join(texts)) == texts
  {
    if |texts| == 1 {
      LinesOfOne(texts[0]);
    } else {
      AggregateRoundTrip(texts[1..]);
      LinesOfMore(texts[0], Join(texts[1..]));
      assert texts == [texts[0]] + texts[1..];
    }
  }
}
