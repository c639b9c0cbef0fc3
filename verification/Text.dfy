// Whitespace handling of interview_ai_validation.py: evidence quotes and segment
// texts are compared after CR/LF unification, whitespace collapse and trimming.
module Text {
  import opened Common

  // str.isspace(), which is also what \s matches and what str.strip() removes.
  predicate IsSpace(c: char) {
    || '\t' <= c <= '\r'
    || '\U{1c}' <= c <= ' '
    || c == '\U{85}' || c == '\U{a0}' || c == '\U{1680}'
    || '\U{2000}' <= c <= '\U{200a}'
    || c == '\U{2028}' || c == '\U{2029}' || c == '\U{202f}' || c == '\U{205f}' || c == '\U{3000}'
  }

  // The white-space characters, by their code points.
  lemma {:induction false} WhiteSpaceIs(c: char)
    ensures IsSpace(c) <==>
            var n := c as int;
            || 9 <= n <= 13 || 28 <= n <= 32 || n == 133 || n == 160 || n == 5760 || 8192 <= n <= 8202
            || n == 8232 || n == 8233 || n == 8239 || n == 8287 || n == 12288
  {
  }

  predicate Blank(s: string) {
    forall i | 0 <= i < |s| :: IsSpace(s[i])
  }

  function SkipSpaces(s: string): (r: string)
    ensures |r| <= |s|
    ensures s != "" && IsSpace(s[0]) ==> |r| < |s|
    ensures r == "" || !IsSpace(r[0])
  {
    if s != "" && IsSpace(s[0]) then SkipSpaces(s[1..]) else s
  }

  function DropTrailing(s: string): (r: string)
    ensures |r| <= |s|
    ensures r == "" || !IsSpace(r[|r| - 1])
  {
    if s != "" && IsSpace(s[|s| - 1]) then DropTrailing(s[..|s| - 1]) else s
  }

  // str.strip()
  function Strip(s: string): string {
    DropTrailing(SkipSpaces(s))
  }

  // Every carriage return with a line feed behind it becomes one line feed.
  function ReplaceCrLf(s: string): string {
    if |s| >= 2 && s[0] == '\r' && s[1] == '\n' then "\n" + ReplaceCrLf(s[2..])
    else if s == "" then ""
    else [s[0]] + ReplaceCrLf(s[1..])
  }

  // Every remaining carriage return becomes a line feed.
  function ReplaceCr(s: string): string {
    if s == "" then ""
    else [if s[0] == '\r' then '\n' else s[0]] + ReplaceCr(s[1..])
  }

  // Every run of white space becomes one space.
  function Collapse(s: string): string
    decreases |s|
  {
    if s == "" then ""
    else if IsSpace(s[0]) then " " + Collapse(SkipSpaces(s))
    else [s[0]] + Collapse(s[1..])
  }

  // The text normalize_evidence_text computes before its emptiness check.
  function Canonical(value: string): string {
    Strip(Collapse(ReplaceCr(ReplaceCrLf(value))))
  }

  datatype EvidenceTextError = EvidenceTextEmpty

  function NormalizeEvidenceText(value: string): Result<string, EvidenceTextError> {
    var text := Canonical(value);
    if text == "" then Err(EvidenceTextEmpty) else Ok(text)
  }

  predicate OccursAt(q: string, s: string, i: nat) {
    i + |q| <= |s| && s[i..i + |q|] == q
  }

  // The second text occurs somewhere in the first.
  predicate Contains(s: string, q: string) {
    exists i | 0 <= i <= |s| :: OccursAt(q, s, i)
  }

  // ---------- trimming ----------

  lemma {:induction false} SkipSpacesIsSuffix(s: string)
    ensures SkipSpaces(s) == s[|s| - |SkipSpaces(s)|..]
  {
    if s != "" && IsSpace(s[0]) {
      var t := s[1..];
      var m := |SkipSpaces(t)|;
      SkipSpacesIsSuffix(t);
      assert t[|t| - m..] == s[|s| - m..];
    }
  }

  lemma {:induction false} SkippedAreSpaces(s: string, i: nat)
    requires i < |s| - |SkipSpaces(s)|
    ensures IsSpace(s[i])
  {
    if i > 0 {
      SkippedAreSpaces(s[1..], i - 1);
    }
  }

  lemma {:induction false} SkipSpacesSplits(s: string)
    ensures |SkipSpaces(s)| <= |s|
    ensures s == s[..|s| - |SkipSpaces(s)|] + SkipSpaces(s)
    ensures Blank(s[..|s| - |SkipSpaces(s)|])
  {
    SkipSpacesIsSuffix(s);
    var l := s[..|s| - |SkipSpaces(s)|];
    forall i | 0 <= i < |l|
      ensures IsSpace(l[i])
    {
      SkippedAreSpaces(s, i);
    }
  }

  lemma {:induction false} DropTrailingSplits(s: string)
    ensures DropTrailing(s) == s[..|DropTrailing(s)|]
    ensures Blank(s[|DropTrailing(s)|..])
  {
    if s != "" && IsSpace(s[|s| - 1]) {
      var t := s[..|s| - 1];
      DropTrailingSplits(t);
      assert s[|DropTrailing(t)|..] == t[|DropTrailing(t)|..] + [s[|s| - 1]];
    }
  }

  // s is its trimmed text with blank margins on both sides.
  lemma {:induction false} StripSplits(s: string) returns (l: string, r: string)
    ensures s == l + Strip(s) + r
    ensures Blank(l) && Blank(r)
    ensures Strip(s) != "" ==> !IsSpace(Strip(s)[0]) && !IsSpace(Strip(s)[|Strip(s)| - 1])
  {
    SkipSpacesSplits(s);
    var t := SkipSpaces(s);
    DropTrailingSplits(t);
    l := s[..|s| - |t|];
    r := t[|DropTrailing(t)|..];
    if Strip(s) != "" {
      assert Strip(s)[0] == t[0];
    }
  }

  lemma {:induction false} SkipSpacesOfBlank(l: string, s: string)
    requires Blank(l)
    ensures SkipSpaces(l + s) == SkipSpaces(s)
  {
    if l == "" {
      assert l + s == s;
    } else {
      assert (l + s)[1..] == l[1..] + s;
      assert IsSpace(l[0]);
      SkipSpacesOfBlank(l[1..], s);
    }
  }

  lemma {:induction false} DropTrailingOfBlank(s: string, r: string)
    requires Blank(r)
    ensures DropTrailing(s + r) == DropTrailing(s)
  {
    if r == "" {
      assert s + r == s;
    } else {
      assert (s + r)[..|s + r| - 1] == s + r[..|r| - 1];
      DropTrailingOfBlank(s, r[..|r| - 1]);
    }
  }

  // Trimming is determined by the margins: any blank/solid/blank split is the split.
  lemma {:induction false} StripOfSplit(l: string, m: string, r: string)
    requires Blank(l) && Blank(r)
    requires m == "" || (!IsSpace(m[0]) && !IsSpace(m[|m| - 1]))
    ensures Strip(l + m + r) == m
  {
    assert l + m + r == l + (m + r);
    SkipSpacesOfBlank(l, m + r);
    if m == "" {
      assert m + r == r + "";
      SkipSpacesOfBlank(r, "");
    } else {
      assert SkipSpaces(m + r) == m + r;
      DropTrailingOfBlank(m, r);
    }
  }

  // ---------- collapsing ----------

  lemma {:induction false} CollapseAppend(x: string, y: string)
    requires x == "" || y == "" || !IsSpace(x[|x| - 1]) || !IsSpace(y[0])
    ensures Collapse(x + y) == Collapse(x) + Collapse(y)
    decreases |x|
  {
    if x == "" {
      assert x + y == y;
    } else if !IsSpace(x[0]) {
      assert (x + y)[1..] == x[1..] + y;
      CollapseAppend(x[1..], y);
    } else {
      var t := SkipSpaces(x);
      SkipKeepsEnd(x);
      SkipAppend(x, y);
      CollapseAppend(t, y);
      CollapseSpaceStep(x);
      CollapseSpaceStep(x + y);
      Reassoc(" ", Collapse(t), Collapse(y));
    }
  }

  lemma {:induction false} Reassoc(a: string, b: string, c: string)
    ensures a + (b + c) == (a + b) + c
  {
  }

  lemma {:induction false} SkipKeepsEnd(x: string)
    requires x != ""
    ensures SkipSpaces(x) != "" ==> x[|x| - 1] == SkipSpaces(x)[|SkipSpaces(x)| - 1]
  {
    SkipSpacesIsSuffix(x);
  }

  lemma {:induction false} CollapseSpaceStep(s: string)
    requires s != "" && IsSpace(s[0])
    ensures Collapse(s) == " " + Collapse(SkipSpaces(s))
  {
  }

  // Skipping the leading spaces of x leaves y alone, unless x is blank and y starts with more.
  lemma {:induction false} SkipAppend(x: string, y: string)
    requires x == "" || y == "" || !IsSpace(x[|x| - 1]) || !IsSpace(y[0])
    requires x != "" && IsSpace(x[0])
    ensures SkipSpaces(x + y) == SkipSpaces(x) + y
  {
    var t := SkipSpaces(x);
    SkipSpacesSplits(x);
    var l := x[..|x| - |t|];
    assert x + y == l + (t + y);
    SkipSpacesOfBlank(l, t + y);
    if t == "" {
      assert t + y == y && x == l;
      assert y != "" ==> IsSpace(x[|x| - 1]);
    }
    assert SkipSpaces(t + y) == t + y;
  }

  lemma {:induction false} CollapseOfBlank(l: string)
    requires Blank(l)
    ensures Collapse(l) == if l == "" then "" else " "
  {
    if l != "" {
      assert l + "" == l;
      SkipSpacesOfBlank(l, "");
      assert IsSpace(l[0]);
    }
  }

  lemma {:induction false} CollapseEnds(m: string)
    requires m != "" && !IsSpace(m[0]) && !IsSpace(m[|m| - 1])
    ensures var c := Collapse(m); c != "" && c[0] == m[0] && c[|c| - 1] == m[|m| - 1]
  {
    var n := |m| - 1;
    assert m == m[..n] + [m[n]];
    CollapseAppend(m[..n], [m[n]]);
    assert [m[n]][1..] == "";
    assert Collapse([m[n]]) == [m[n]];
  }

  // Collapsing a solid core between blank margins.
  lemma {:induction false} CollapseOfSplit(l: string, m: string, r: string)
    requires Blank(l) && Blank(r)
    requires m != "" && !IsSpace(m[0]) && !IsSpace(m[|m| - 1])
    ensures Collapse(l + m + r) == Collapse(l) + Collapse(m) + Collapse(r)
  {
    var lm := l + m;
    assert lm[|lm| - 1] == m[|m| - 1];
    CollapseAppend(lm, r);
    CollapseAppend(l, m);
  }

  lemma {:induction false} CollapseOfMargin(l: string)
    requires Blank(l)
    ensures Blank(Collapse(l))
  {
    CollapseOfBlank(l);
  }

  // Trimming and collapsing commute.
  lemma {:induction false} StripCollapseCommute(s: string)
    ensures Strip(Collapse(s)) == Collapse(Strip(s))
  {
    var l, r := StripSplits(s);
    var m := Strip(s);
    if m == "" {
      BlankCollapsesAway(s, l, r);
    } else {
      CollapseOfSplit(l, m, r);
      CollapseOfMargin(l);
      CollapseOfMargin(r);
      CollapseEnds(m);
      StripOfSplit(Collapse(l), Collapse(m), Collapse(r));
    }
  }

  lemma {:induction false} BlankCollapsesAway(s: string, l: string, r: string)
    requires s == l + "" + r && Blank(l) && Blank(r)
    ensures Strip(Collapse(s)) == ""
  {
    assert Blank(s);
    CollapseOfMargin(s);
    StripOfSplit(Collapse(s), "", "");
    assert Collapse(s) + "" + "" == Collapse(s);
  }

  // ---------- the CR/LF replacements are subsumed ----------

  lemma {:induction false} CrLfSkip(s: string)
    ensures SkipSpaces(ReplaceCrLf(s)) == ReplaceCrLf(SkipSpaces(s))
    decreases |s|
  {
    if |s| >= 2 && s[0] == '\r' && s[1] == '\n' {
      assert ReplaceCrLf(s)[1..] == ReplaceCrLf(s[2..]);
      CrLfSkip(s[2..]);
      assert s[1..][1..] == s[2..];
      assert SkipSpaces(s[1..]) == SkipSpaces(s[2..]);
    } else if s != "" {
      assert ReplaceCrLf(s)[1..] == ReplaceCrLf(s[1..]);
      CrLfSkip(s[1..]);
    }
  }

  lemma {:induction false} CrLfCollapse(s: string)
    ensures Collapse(ReplaceCrLf(s)) == Collapse(s)
    decreases |s|
  {
    if s == "" {
    } else if IsSpace(s[0]) {
      CrLfSkip(s);
      CrLfCollapse(SkipSpaces(s));
    } else {
      assert ReplaceCrLf(s)[1..] == ReplaceCrLf(s[1..]);
      CrLfCollapse(s[1..]);
    }
  }

  lemma {:induction false} CrSkip(s: string)
    ensures SkipSpaces(ReplaceCr(s)) == ReplaceCr(SkipSpaces(s))
  {
    if s != "" {
      assert ReplaceCr(s)[1..] == ReplaceCr(s[1..]);
      CrSkip(s[1..]);
    }
  }

  lemma {:induction false} CrCollapse(s: string)
    ensures Collapse(ReplaceCr(s)) == Collapse(s)
    decreases |s|
  {
    if s == "" {
    } else if IsSpace(s[0]) {
      CrSkip(s);
      CrCollapse(SkipSpaces(s));
    } else {
      assert ReplaceCr(s)[1..] == ReplaceCr(s[1..]);
      CrCollapse(s[1..]);
    }
  }

  // The two line-ending replacements change nothing: trimming and collapsing alone
  // give the same text.
  lemma {:induction false} LineEndingsSubsumed(s: string)
    ensures Canonical(s) == Strip(Collapse(s))
    ensures Canonical(s) == Collapse(Strip(s))
  {
    CrCollapse(ReplaceCrLf(s));
    CrLfCollapse(s);
    StripCollapseCommute(s);
  }

  // ---------- idempotence ----------

  predicate CollapsedAt(t: string, i: nat)
    requires i < |t|
  {
    IsSpace(t[i]) ==> t[i] == ' ' && (i + 1 < |t| ==> !IsSpace(t[i + 1]))
  }

  // Every space is a plain one and stands alone.
  predicate Collapsed(t: string) {
    forall i {:trigger CollapsedAt(t, i)} | 0 <= i < |t| :: CollapsedAt(t, i)
  }

  lemma {:induction false} CollapsedPrepend(c: char, t: string)
    requires Collapsed(t) && (IsSpace(c) ==> c == ' ' && (t == "" || !IsSpace(t[0])))
    ensures Collapsed([c] + t)
  {
    var longer := [c] + t;
    forall i | 0 <= i < |longer|
      ensures CollapsedAt(longer, i)
    {
      assert i > 0 ==> CollapsedAt(t, i - 1);
    }
  }

  lemma {:induction false} CollapseIsCollapsed(s: string)
    ensures Collapsed(Collapse(s))
    decreases |s|
  {
    if s == "" {
    } else if IsSpace(s[0]) {
      var t := SkipSpaces(s);
      CollapseIsCollapsed(t);
      SolidStart(t);
      CollapsedPrepend(' ', Collapse(t));
    } else {
      CollapseIsCollapsed(s[1..]);
      CollapsedPrepend(s[0], Collapse(s[1..]));
    }
  }

  lemma {:induction false} CollapseFixesCollapsed(t: string)
    requires Collapsed(t)
    ensures Collapse(t) == t
    decreases |t|
  {
    if t != "" {
      var u := t[1..];
      forall i | 0 <= i < |u|
        ensures CollapsedAt(u, i)
      {
        assert CollapsedAt(t, i + 1);
      }
      CollapseFixesCollapsed(u);
      assert CollapsedAt(t, 0);
      assert t == [t[0]] + u;
      if IsSpace(t[0]) {
        assert SkipSpaces(u) == u;
        assert SkipSpaces(t) == u;
      }
    }
  }

  // Normalisation is idempotent, and its result is in normal form: no margins, and
  // single plain spaces between words.
  lemma {:induction false} NormalizeIdempotent(s: string)
    ensures Canonical(Canonical(s)) == Canonical(s)
    ensures Collapsed(Canonical(s))
    ensures Strip(Canonical(s)) == Canonical(s)
  {
    var c := Canonical(s);
    LineEndingsSubsumed(s);
    LineEndingsSubsumed(c);
    CollapseIsCollapsed(Strip(s));
    CollapseFixesCollapsed(c);
    var l, r := StripSplits(Collapse(s));
    StripOfSplit("", c, "");
    assert "" + c + "" == c;
  }

  // ---------- what "the normalised quote occurs" means ----------

  lemma {:induction false} ContainsSplit(s: string, q: string) returns (a: string, b: string)
    requires Contains(s, q)
    ensures s == a + q + b
  {
    var i :| 0 <= i <= |s| && OccursAt(q, s, i);
    a, b := s[..i], s[i + |q|..];
  }

  lemma {:induction false} ContainsIntro(a: string, q: string, b: string)
    ensures Contains(a + q + b, q)
  {
    assert OccursAt(q, a + q + b, |a|);
  }

  lemma {:induction false} SolidIndexInCore(l: string, t: string, r: string, i: nat)
    requires Blank(l) && Blank(r) && i < |l + t + r|
    requires !IsSpace((l + t + r)[i])
    ensures |l| <= i < |l| + |t|
  {
  }

  // A piece with solid ends lies within the trimmed text.
  lemma {:induction false} SolidPieceInCore(a: string, m: string, b: string) returns (x: string, y: string)
    requires m != "" && !IsSpace(m[0]) && !IsSpace(m[|m| - 1])
    ensures Strip(a + m + b) == x + m + y
  {
    var s := a + m + b;
    var l, r := StripSplits(s);
    var t := Strip(s);
    var i, k := |a|, |m|;
    assert s[i] == m[0] && s[i + k - 1] == m[k - 1];
    SolidIndexInCore(l, t, r, i);
    SolidIndexInCore(l, t, r, i + k - 1);
    x, y := PieceOfMiddle(l, t, r, i, m);
  }

  lemma {:induction false} PieceOfMiddle(l: string, t: string, r: string, i: nat, m: string) returns (x: string, y: string)
    requires |l| <= i && i + |m| <= |l| + |t| && (l + t + r)[i..i + |m|] == m
    ensures t == x + m + y
  {
    var s := l + t + r;
    assert t == s[|l|..|l| + |t|];
    x, y := t[..i - |l|], t[i - |l| + |m|..];
    assert t[i - |l|..i - |l| + |m|] == s[i..i + |m|];
  }

  lemma {:induction false} SolidPieceIsFound(x: string, m: string, y: string)
    requires m != "" && !IsSpace(m[0]) && !IsSpace(m[|m| - 1])
    ensures Contains(Collapse(x + m + y), Collapse(m))
    ensures Collapse(m) != "" && Collapse(x + m + y) != ""
  {
    var xm := x + m;
    assert xm[|xm| - 1] == m[|m| - 1];
    CollapseAppend(xm, y);
    CollapseAppend(x, m);
    ContainsIntro(Collapse(x), Collapse(m), Collapse(y));
  }

  // Completeness: every non-blank contiguous piece of a text is still found after both
  // are normalised.
  lemma {:induction false} VerbatimQuoteIsFound(a: string, q: string, b: string)
    requires !Blank(q)
    ensures NormalizeEvidenceText(q).Ok? && NormalizeEvidenceText(a + q + b).Ok?
    ensures Contains(Canonical(a + q + b), Canonical(q))
  {
    var l, r := StripSplits(q);
    var m := Strip(q);
    assert a + q + b == (a + l) + m + (r + b);
    var x, y := SolidPieceInCore(a + l, m, r + b);
    SolidPieceIsFound(x, m, y);
    LineEndingsSubsumed(q);
    LineEndingsSubsumed(a + q + b);
  }

  lemma {:induction false} CollapseHead(s: string)
    requires Collapse(s) != "" && !IsSpace(Collapse(s)[0])
    ensures s != "" && !IsSpace(s[0]) && s[0] == Collapse(s)[0]
    ensures Collapse(s)[1..] == Collapse(s[1..])
  {
  }

  lemma {:induction false} CollapseSolidHead(c: char, r: string)
    requires !IsSpace(c)
    ensures Collapse([c] + r) == [c] + Collapse(r)
  {
    assert ([c] + r)[1..] == r;
  }

  // A collapsed text with a leading space starts with a run of raw spaces.
  lemma {:induction false} CollapseSpaceHead(s: string) returns (l: string, v: string)
    requires Collapse(s) != "" && IsSpace(Collapse(s)[0])
    ensures s == l + v && l != "" && Blank(l) && |v| < |s|
    ensures v == "" || !IsSpace(v[0])
    ensures Collapse(s) == " " + Collapse(v)
  {
    SkipSpacesSplits(s);
    v := SkipSpaces(s);
    l := s[..|s| - |v|];
  }

  lemma {:induction false} SolidStart(v: string)
    requires v == "" || !IsSpace(v[0])
    ensures Collapse(v) != "" ==> Collapse(v)[0] == v[0]
    ensures Collapse(v) == "" <==> v == ""
  {
  }

  // A prefix of the collapsed text that ends solidly is the collapse of a raw prefix.
  lemma {:induction false} CollapsedPrefixLifts(s: string, t: string, rest: string) returns (r: string, b: string)
    requires Collapse(s) == t + rest
    requires t != "" && !IsSpace(t[0]) && !IsSpace(t[|t| - 1])
    ensures s == r + b && Collapse(r) == t
    decreases |s|, 0
  {
    CollapseHead(s);
    var c, u, t' := s[0], s[1..], t[1..];
    assert Collapse(u) == t' + rest;
    if t' == "" {
      r, b := [c], u;
      CollapseSolidHead(c, "");
      assert [c] + "" == [c];
    } else {
      var r', b' := CollapsedTailLifts(u, t', rest);
      r, b := [c] + r', b';
      CollapseSolidHead(c, r');
    }
  }

  lemma {:induction false} CollapsedTailLifts(u: string, t: string, rest: string) returns (r: string, b: string)
    requires Collapse(u) == t + rest
    requires t != "" && !IsSpace(t[|t| - 1])
    ensures u == r + b && Collapse(r) == t
    decreases |u|, 1
  {
    if !IsSpace(t[0]) {
      r, b := CollapsedPrefixLifts(u, t, rest);
    } else {
      // One collapsed space stands for the whole run of raw spaces.
      var l, v := CollapseSpaceHead(u);
      var t' := t[1..];
      assert Collapse(v) == Collapse(u)[1..] == t' + rest;
      SolidStart(v);
      var r', b' := CollapsedPrefixLifts(v, t', rest);
      r, b := l + r', b';
      assert l + (r' + b') == (l + r') + b';
      CollapseBlankHead(l, r', t');
      assert t == " " + t';
    }
  }

  lemma {:induction false} CollapseBlankHead(l: string, r: string, t: string)
    requires l != "" && Blank(l) && t != "" && !IsSpace(t[0]) && Collapse(r) == t
    ensures Collapse(l + r) == " " + t
  {
    CollapseHead(r);
    CollapseAppend(l, r);
    CollapseOfBlank(l);
  }

  lemma {:induction false} CollapsedPieceLifts(s: string, a: string, t: string, rest: string)
    returns (x: string, r: string, b: string)
    requires Collapse(s) == a + t + rest
    requires t != "" && !IsSpace(t[0]) && !IsSpace(t[|t| - 1])
    ensures s == x + r + b && Collapse(r) == t
    decreases |s|
  {
    if a == "" {
      assert a + t + rest == t + rest;
      r, b := CollapsedPrefixLifts(s, t, rest);
      x := "";
    } else {
      var head, tail := CollapseStep(s);
      assert (a + t + rest)[1..] == a[1..] + t + rest;
      var x', r', b' := CollapsedPieceLifts(tail, a[1..], t, rest);
      x, r, b := head + x', r', b';
      PrependHead(head, x', r', b');
    }
  }

  // One character of the collapsed text stands for a non-empty raw prefix.
  lemma {:induction false} CollapseStep(s: string) returns (head: string, tail: string)
    requires Collapse(s) != ""
    ensures s == head + tail && |tail| < |s| && Collapse(tail) == Collapse(s)[1..]
  {
    if IsSpace(s[0]) {
      SkipSpacesSplits(s);
      tail := SkipSpaces(s);
      head := s[..|s| - |tail|];
    } else {
      head, tail := s[..1], s[1..];
    }
  }

  lemma {:induction false} PrependHead(head: string, x: string, r: string, b: string)
    ensures head + (x + r + b) == (head + x) + r + b
  {
  }

  lemma {:induction false} Reassociate(s: string, l: string, core: string, r: string, a: string, t: string, b: string)
    requires s == l + core + r && core == a + t + b
    ensures s == (l + a) + t + (b + r)
  {
  }

  // Soundness: a normalised quote that is found stands for a contiguous piece of the raw
  // text which normalises to the same quote.
  lemma {:induction false} FoundQuoteIsVerbatim(s: string, q: string) returns (a: string, piece: string, b: string)
    requires NormalizeEvidenceText(q).Ok? && Contains(Canonical(s), Canonical(q))
    ensures s == a + piece + b
    ensures !Blank(piece) && Canonical(piece) == Canonical(q)
  {
    var t := Canonical(q);
    var ca, cb := ContainsSplit(Canonical(s), t);
    LineEndingsSubsumed(s);
    LineEndingsSubsumed(q);
    SolidEnds(Collapse(q));
    var l, r := StripSplits(Collapse(s));
    Reassociate(Collapse(s), l, Canonical(s), r, ca, t, cb);
    a, piece, b := CollapsedPieceLifts(s, l + ca, t, cb + r);
    SolidPieceCanonical(piece);
  }

  lemma {:induction false} SolidEnds(s: string)
    ensures Strip(s) != "" ==> !IsSpace(Strip(s)[0]) && !IsSpace(Strip(s)[|Strip(s)| - 1])
  {
    var l, r := StripSplits(s);
  }

  lemma {:induction false} SolidPieceCanonical(piece: string)
    requires var t := Collapse(piece); t != "" && !IsSpace(t[0]) && !IsSpace(t[|t| - 1])
    ensures Canonical(piece) == Collapse(piece) && !Blank(piece)
  {
    var t := Collapse(piece);
    LineEndingsSubsumed(piece);
    StripOfSplit("", t, "");
    assert "" + t + "" == t;
    if Blank(piece) {
      CollapseOfBlank(piece);
    }
  }

  // The exact meaning of the substring test on normalised texts.
  lemma {:induction false} QuoteFoundIffVerbatimPiece(s: string, q: string)
    requires !Blank(q)
    ensures Contains(Canonical(s), Canonical(q)) <==> HasPiece(s, Canonical(q))
  {
    VerbatimQuoteIsFound("", q, "");
    assert "" + q + "" == q;
    if Contains(Canonical(s), Canonical(q)) {
      var a, piece, b := FoundQuoteIsVerbatim(s, q);
      assert IsPiece(s, Canonical(q), a, piece, b);
    }
    if HasPiece(s, Canonical(q)) {
      var a, piece, b :| IsPiece(s, Canonical(q), a, piece, b);
      VerbatimQuoteIsFound(a, piece, b);
    }
  }

  // piece is a non-blank contiguous piece of s whose normal form is t.
  predicate IsPiece(s: string, t: string, a: string, piece: string, b: string) {
    s == a + piece + b && !Blank(piece) && Canonical(piece) == t
  }

  ghost predicate HasPiece(s: string, t: string) {
    exists a, piece, b :: IsPiece(s, t, a, piece, b)
  }

  // The emptiness error is raised exactly for blank text.
  lemma {:induction false} NormalizeFailsIffBlank(s: string)
    ensures NormalizeEvidenceText(s).Err? <==> Blank(s)
    ensures NormalizeEvidenceText(s).Ok? ==> NormalizeEvidenceText(s).value == Canonical(s)
  {
    LineEndingsSubsumed(s);
    if Blank(s) {
      StripOfSplit(s, "", "");
      assert s + "" + "" == s;
    } else {
      VerbatimQuoteIsFound("", s, "");
      assert "" + s + "" == s;
    }
  }
}
