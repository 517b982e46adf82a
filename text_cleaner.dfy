/**
 * Whitespace normalisation (`clean_text`, src/shared/text_cleaner.py):
 *   1. every run of spaces and tabs becomes one space (`re.sub(r"[ \t]+", " ", text)`),
 *   2. the text is split into lines (`str.splitlines`) and each line stripped,
 *   3. the non-empty lines are joined with "\n",
 *   4. the whole is stripped.
 */
module TextCleaner {

  /** Python's `str.isspace()` for one character: what `strip()` removes. */
  predicate IsSpace(c: char) {
    c == ' ' || c == '\t' || c == '\n' || c == '\r' || c == '\U{B}' || c == '\U{C}'
    || ('\U{1C}' <= c <= '\U{1F}') || c == '\U{85}' || c == '\U{A0}' || c == '\U{1680}'
    || ('\U{2000}' <= c <= '\U{200A}') || c == '\U{2028}' || c == '\U{2029}'
    || c == '\U{202F}' || c == '\U{205F}' || c == '\U{3000}'
  }

  /** The characters `str.splitlines()` breaks lines at ("\r\n" counts as one break). */
  predicate IsLineBoundary(c: char) {
    c == '\n' || c == '\r' || c == '\U{B}' || c == '\U{C}' || c == '\U{1C}' || c == '\U{1D}'
    || c == '\U{1E}' || c == '\U{85}' || c == '\U{2028}' || c == '\U{2029}'
  }

  /** The regular-expression class `[ \t]`. */
  predicate IsBlank(c: char) {
    c == ' ' || c == '\t'
  }

  predicate AllSpace(s: string) {
    forall i :: 0 <= i < |s| ==> IsSpace(s[i])
  }

  predicate NoTabs(s: string) {
    forall i :: 0 <= i < |s| ==> s[i] != '\t'
  }

  predicate NoDoubleSpaces(s: string) {
    forall i :: 0 <= i < |s| - 1 ==> !(s[i] == ' ' && s[i + 1] == ' ')
  }

  predicate NoLineBoundary(s: string) {
    forall i :: 0 <= i < |s| ==> !IsLineBoundary(s[i])
  }

  /** Neither end of `s` is whitespace. */
  predicate Trimmed(s: string) {
    s == [] || (!IsSpace(s[0]) && !IsSpace(s[|s| - 1]))
  }

  /** A line as `clean_text` leaves it: non-empty, stripped, one line, no tab, no double space. */
  predicate CleanLine(l: string) {
    l != [] && Trimmed(l) && NoLineBoundary(l) && NoTabs(l) && NoDoubleSpaces(l)
  }

  // ---------------------------------------------------------------------------
  // Step 1: re.sub(r"[ \t]+", " ", text)

  /** The longest suffix of `s` that does not start with a space or tab. */
  function DropBlanks(s: string): (r: string)
    ensures |r| <= |s| && r == s[|s| - |r|..]
    ensures r == [] || !IsBlank(r[0])
    ensures forall k :: 0 <= k < |s| - |r| ==> IsBlank(s[k])
  {
    if s == [] || !IsBlank(s[0]) then s else DropBlanks(s[1..])
  }

  function Collapse(s: string): string
    decreases |s|
  {
    if s == [] then []
    else if IsBlank(s[0]) then [' '] + Collapse(DropBlanks(s[1..]))
    else [s[0]] + Collapse(s[1..])
  }

  // ---------------------------------------------------------------------------
  // Step 2: str.splitlines() and str.strip()

  /** Index of the first line boundary of `s`, or |s| if there is none. */
  function LineEnd(s: string): (i: nat)
    ensures i <= |s|
    ensures forall k :: 0 <= k < i ==> !IsLineBoundary(s[k])
    ensures i < |s| ==> IsLineBoundary(s[i])
  {
    if s == [] || IsLineBoundary(s[0]) then 0 else 1 + LineEnd(s[1..])
  }

  /** Where the next line starts after a boundary at `i` ("\r\n" is one boundary). */
  function NextLineStart(s: string, i: nat): (j: nat)
    requires i < |s|
    ensures i < j <= |s|
  {
    if s[i] == '\r' && i + 1 < |s| && s[i + 1] == '\n' then i + 2 else i + 1
  }

  function SplitLines(s: string): seq<string>
    decreases |s|
  {
    if s == [] then []
    else
      var i := LineEnd(s);
      if i == |s| then [s]
      else [s[..i]] + SplitLines(s[NextLineStart(s, i)..])
  }

  function StripLeft(s: string): (r: string)
    ensures |r| <= |s| && r == s[|s| - |r|..]
    ensures r == [] || !IsSpace(r[0])
    ensures forall k :: 0 <= k < |s| - |r| ==> IsSpace(s[k])
  {
    if s == [] || !IsSpace(s[0]) then s else StripLeft(s[1..])
  }

  function StripRight(s: string): (r: string)
    ensures |r| <= |s| && r == s[..|r|]
    ensures r == [] || !IsSpace(r[|r| - 1])
    ensures forall k :: |r| <= k < |s| ==> IsSpace(s[k])
  {
    if s == [] || !IsSpace(s[|s| - 1]) then s else StripRight(s[..|s| - 1])
  }

  /** Python's `str.strip()`. */
  function Strip(s: string): string {
    StripRight(StripLeft(s))
  }

  function StripEach(lines: seq<string>): (r: seq<string>)
    ensures |r| == |lines|
    ensures forall k :: 0 <= k < |r| ==> r[k] == Strip(lines[k])
  {
    seq(|lines|, k requires 0 <= k < |lines| => Strip(lines[k]))
  }

  // ---------------------------------------------------------------------------
  // Step 3: "\n".join(line for line in lines if line)

  function NonEmpty(lines: seq<string>): seq<string> {
    if lines == [] then []
    else (if lines[0] != [] then [lines[0]] else []) + NonEmpty(lines[1..])
  }

  function JoinLines(lines: seq<string>): string {
    if lines == [] then []
    else if |lines| == 1 then lines[0]
    else lines[0] + "\n" + JoinLines(lines[1..])
  }

  // ---------------------------------------------------------------------------
  // clean_text

  /** The non-empty stripped lines `clean_text` keeps, in their original order. */
  function CleanLines(text: string): seq<string> {
    NonEmpty(StripEach(SplitLines(Collapse(text))))
  }

  function CleanText(text: string): string {
    Strip(JoinLines(CleanLines(text)))
  }

  // ---------------------------------------------------------------------------
  // Facts about each step

  lemma {:induction false} CollapseShape(s: string)
    ensures NoTabs(Collapse(s)) && NoDoubleSpaces(Collapse(s))
    ensures Collapse(s) != [] && Collapse(s)[0] == ' ' ==> s != [] && IsBlank(s[0])
    decreases |s|
  {
    if s != [] {
      if IsBlank(s[0]) {
        var rest := DropBlanks(s[1..]);
        CollapseShape(rest);
        assert Collapse(rest) == [] || Collapse(rest)[0] != ' ';
      } else {
        CollapseShape(s[1..]);
      }
    }
  }

  /** Text without tabs or double spaces passes through step 1 unchanged. */
  lemma {:induction false} CollapseIdentity(s: string)
    requires NoTabs(s) && NoDoubleSpaces(s)
    ensures Collapse(s) == s
    decreases |s|
  {
    if s != [] {
      assert NoTabs(s[1..]) && NoDoubleSpaces(s[1..]);
      if IsBlank(s[0]) {
        assert s[0] == ' ';
        assert |s| > 1 ==> s[1] != ' ' && s[1] != '\t';
        assert DropBlanks(s[1..]) == s[1..];
      }
      CollapseIdentity(s[1..]);
    }
  }

  lemma AllSpaceConcat(a: string, b: string)
    ensures AllSpace(a + b) <==> AllSpace(a) && AllSpace(b)
  {
    if AllSpace(a) && AllSpace(b) {
      forall i | 0 <= i < |a + b| ensures IsSpace((a + b)[i]) {
        if i >= |a| { assert (a + b)[i] == b[i - |a|]; }
      }
    }
    if AllSpace(a + b) {
      forall i | 0 <= i < |a| ensures IsSpace(a[i]) {
        assert (a + b)[i] == a[i];
      }
      forall i | 0 <= i < |b| ensures IsSpace(b[i]) {
        assert (a + b)[|a| + i] == b[i];
      }
    }
  }

  /** Step 1 keeps whether the text is all whitespace. */
  lemma {:induction false} CollapseAllSpace(s: string)
    ensures AllSpace(Collapse(s)) <==> AllSpace(s)
    decreases |s|
  {
    if s != [] {
      if IsBlank(s[0]) {
        var rest := DropBlanks(s[1..]);
        CollapseAllSpace(rest);
        var d := |s[1..]| - |rest|;
        assert s == ([s[0]] + s[1..][..d]) + rest;
        AllSpaceConcat([s[0]] + s[1..][..d], rest);
        assert AllSpace([s[0]] + s[1..][..d]);
        assert Collapse(s) == [' '] + Collapse(rest);
        AllSpaceConcat([' '], Collapse(rest));
      } else {
        CollapseAllSpace(s[1..]);
        assert s == [s[0]] + s[1..];
        AllSpaceConcat([s[0]], s[1..]);
        assert Collapse(s) == [s[0]] + Collapse(s[1..]);
        AllSpaceConcat([s[0]], Collapse(s[1..]));
      }
    }
  }

  /** A slice of text keeps the per-character properties of the text. */
  lemma SliceKeeps(s: string, a: nat, b: nat)
    requires a <= b <= |s|
    ensures NoTabs(s) ==> NoTabs(s[a..b])
    ensures NoDoubleSpaces(s) ==> NoDoubleSpaces(s[a..b])
    ensures NoLineBoundary(s) ==> NoLineBoundary(s[a..b])
    ensures AllSpace(s) ==> AllSpace(s[a..b])
  {
    var t := s[a..b];
    if NoDoubleSpaces(s) {
      forall i | 0 <= i < |t| - 1 ensures !(t[i] == ' ' && t[i + 1] == ' ') {
        assert t[i] == s[a + i] && t[i + 1] == s[a + i + 1];
      }
    }
  }

  lemma StripShape(s: string)
    ensures Trimmed(Strip(s))
    ensures NoTabs(s) ==> NoTabs(Strip(s))
    ensures NoDoubleSpaces(s) ==> NoDoubleSpaces(Strip(s))
    ensures NoLineBoundary(s) ==> NoLineBoundary(Strip(s))
    ensures Strip(s) == [] <==> AllSpace(s)
  {
    var l := StripLeft(s);
    var r := StripRight(l);
    SliceKeeps(s, |s| - |l|, |s|);
    SliceKeeps(l, 0, |r|);
    if r == [] {
      assert l == [];
    } else {
      assert r[0] == l[0];
      assert !IsSpace(s[|s| - |l|]);
    }
  }

  /** A stripped text strips to itself. */
  lemma StripIdentity(s: string)
    requires Trimmed(s)
    ensures Strip(s) == s
  {
  }

  lemma {:induction false} SplitLinesShape(s: string)
    ensures forall k :: 0 <= k < |SplitLines(s)| ==> NoLineBoundary(SplitLines(s)[k])
    ensures NoTabs(s) ==> forall k :: 0 <= k < |SplitLines(s)| ==> NoTabs(SplitLines(s)[k])
    ensures NoDoubleSpaces(s) ==> forall k :: 0 <= k < |SplitLines(s)| ==> NoDoubleSpaces(SplitLines(s)[k])
    decreases |s|
  {
    if s != [] {
      var i := LineEnd(s);
      SliceKeeps(s, 0, i);
      if i < |s| {
        var j := NextLineStart(s, i);
        SliceKeeps(s, j, |s|);
        SplitLinesShape(s[j..]);
      }
    }
  }

  predicate AllLinesSpace(lines: seq<string>) {
    forall k :: 0 <= k < |lines| ==> AllSpace(lines[k])
  }

  predicate AllLinesEmpty(lines: seq<string>) {
    forall k :: 0 <= k < |lines| ==> lines[k] == []
  }

  lemma AllLinesSpaceCons(line: string, rest: seq<string>)
    ensures AllLinesSpace([line] + rest) <==> AllSpace(line) && AllLinesSpace(rest)
  {
    var all := [line] + rest;
    assert all[0] == line;
    assert forall k :: 0 <= k < |rest| ==> rest[k] == all[k + 1];
    if AllSpace(line) && AllLinesSpace(rest) {
      forall k | 0 <= k < |all| ensures AllSpace(all[k]) {
        if k > 0 { assert all[k] == rest[k - 1]; }
      }
    }
  }

  /** The line break that ends a line is whitespace. */
  lemma BoundaryIsSpace(s: string, i: nat)
    requires i < |s| && IsLineBoundary(s[i])
    ensures AllSpace(s[i..NextLineStart(s, i)])
  {
  }

  /** A text cut around a line break is all whitespace exactly when both sides are. */
  lemma AllSpaceAroundBreak(s: string, i: nat)
    requires i < |s| && IsLineBoundary(s[i])
    ensures AllSpace(s) <==> AllSpace(s[..i]) && AllSpace(s[NextLineStart(s, i)..])
  {
    var j := NextLineStart(s, i);
    BoundaryIsSpace(s, i);
    assert s == s[..i] + (s[i..j] + s[j..]);
    AllSpaceConcat(s[..i], s[i..j] + s[j..]);
    AllSpaceConcat(s[i..j], s[j..]);
  }

  /** Every line is whitespace exactly when the whole text is (boundaries are whitespace). */
  lemma {:induction false} SplitLinesAllSpace(s: string)
    ensures AllSpace(s) <==> AllLinesSpace(SplitLines(s))
    decreases |s|
  {
    if s != [] {
      var i := LineEnd(s);
      if i < |s| {
        var j := NextLineStart(s, i);
        SplitLinesAllSpace(s[j..]);
        assert SplitLines(s) == [s[..i]] + SplitLines(s[j..]);
        AllLinesSpaceCons(s[..i], SplitLines(s[j..]));
        AllSpaceAroundBreak(s, i);
      } else {
        assert SplitLines(s) == [s];
        AllLinesSpaceCons(s, []);
      }
    }
  }

  lemma {:induction false} NonEmptyShape(lines: seq<string>)
    ensures forall k :: 0 <= k < |NonEmpty(lines)| ==> NonEmpty(lines)[k] != []
    ensures forall k :: 0 <= k < |NonEmpty(lines)| ==> NonEmpty(lines)[k] in lines
    ensures NonEmpty(lines) == [] <==> AllLinesEmpty(lines)
  {
    if lines != [] {
      NonEmptyShape(lines[1..]);
      assert forall k :: 0 <= k < |lines[1..]| ==> lines[1..][k] == lines[k + 1];
    }
  }

  lemma {:induction false} NonEmptyIdentity(lines: seq<string>)
    requires forall k :: 0 <= k < |lines| ==> lines[k] != []
    ensures NonEmpty(lines) == lines
  {
    if lines != [] {
      NonEmptyIdentity(lines[1..]);
    }
  }

  lemma {:induction false} StripEachIdentity(lines: seq<string>)
    requires forall k :: 0 <= k < |lines| ==> Trimmed(lines[k])
    ensures StripEach(lines) == lines
  {
    forall k | 0 <= k < |lines| ensures StripEach(lines)[k] == lines[k] {
      StripIdentity(lines[k]);
    }
  }

  /** Joining clean lines gives text whose lines are exactly those lines. */
  lemma {:induction false} JoinLinesShape(lines: seq<string>)
    requires forall k :: 0 <= k < |lines| ==> CleanLine(lines[k])
    ensures NoTabs(JoinLines(lines)) && NoDoubleSpaces(JoinLines(lines))
    ensures Trimmed(JoinLines(lines))
    ensures JoinLines(lines) == [] <==> lines == []
    ensures SplitLines(JoinLines(lines)) == lines
  {
    if |lines| == 1 {
      assert LineEnd(lines[0]) == |lines[0]|;
    } else if |lines| > 1 {
      var head, rest := lines[0], JoinLines(lines[1..]);
      JoinLinesShape(lines[1..]);
      var s := head + "\n" + rest;
      assert s == JoinLines(lines);
      assert s[|head|] == '\n';
      assert LineEnd(s) == |head| by {
        forall k | 0 <= k < |head| ensures !IsLineBoundary(s[k]) {
          assert s[k] == head[k];
        }
      }
      assert NextLineStart(s, |head|) == |head| + 1;
      assert s[..|head|] == head;
      assert s[|head| + 1..] == rest;
      forall i | 0 <= i < |s| ensures s[i] != '\t' {
        if i < |head| { assert s[i] == head[i]; }
        else if i > |head| { assert s[i] == rest[i - |head| - 1]; }
      }
      forall i | 0 <= i < |s| - 1 ensures !(s[i] == ' ' && s[i + 1] == ' ') {
        if i + 1 < |head| { assert s[i] == head[i] && s[i + 1] == head[i + 1]; }
        else if i > |head| { assert s[i] == rest[i - |head| - 1] && s[i + 1] == rest[i - |head|]; }
      }
      assert s[|s| - 1] == rest[|rest| - 1];
    }
  }

  // ---------------------------------------------------------------------------
  // Properties of clean_text

  /** The lines clean_text keeps are clean lines. */
  lemma CleanLinesAreClean(text: string)
    ensures forall k :: 0 <= k < |CleanLines(text)| ==> CleanLine(CleanLines(text)[k])
  {
    var c := Collapse(text);
    CollapseShape(text);
    var split := SplitLines(c);
    SplitLinesShape(c);
    var stripped := StripEach(split);
    forall k | 0 <= k < |stripped|
      ensures Trimmed(stripped[k]) && NoLineBoundary(stripped[k]) && NoTabs(stripped[k]) && NoDoubleSpaces(stripped[k])
    {
      StripShape(split[k]);
    }
    NonEmptyShape(stripped);
  }

  /** The final strip of clean_text changes nothing: the joined lines are already trimmed. */
  lemma CleanTextIsJoinedLines(text: string)
    ensures CleanText(text) == JoinLines(CleanLines(text))
  {
    CleanLinesAreClean(text);
    JoinLinesShape(CleanLines(text));
    StripIdentity(JoinLines(CleanLines(text)));
  }

  /**
   * The output has no tab, no run of two spaces, no leading or trailing
   * whitespace; its lines are exactly the non-empty stripped lines of the
   * input, in their original order, so none is empty and each is stripped.
   */
  lemma CleanTextShape(text: string)
    ensures NoTabs(CleanText(text)) && NoDoubleSpaces(CleanText(text))
    ensures Trimmed(CleanText(text))
    ensures SplitLines(CleanText(text)) == CleanLines(text)
    ensures forall k :: 0 <= k < |SplitLines(CleanText(text))| ==> CleanLine(SplitLines(CleanText(text))[k])
  {
    CleanLinesAreClean(text);
    JoinLinesShape(CleanLines(text));
    CleanTextIsJoinedLines(text);
  }

  /** A line strips to nothing exactly when it is all whitespace. */
  lemma StrippedLinesEmpty(lines: seq<string>)
    ensures AllLinesEmpty(StripEach(lines)) <==> AllLinesSpace(lines)
  {
    forall k | 0 <= k < |lines| ensures StripEach(lines)[k] == [] <==> AllSpace(lines[k]) {
      StripShape(lines[k]);
    }
  }

  /** The text is all whitespace exactly when clean_text keeps no line. */
  lemma CleanLinesEmptyIffBlank(text: string)
    ensures CleanLines(text) == [] <==> AllSpace(text)
  {
    var c := Collapse(text);
    CollapseAllSpace(text);
    var split := SplitLines(c);
    SplitLinesAllSpace(c);
    StrippedLinesEmpty(split);
    NonEmptyShape(StripEach(split));
  }

  /** The output is empty exactly when the input is all whitespace ("" included). */
  lemma CleanTextEmptyIffBlank(text: string)
    ensures CleanText(text) == [] <==> AllSpace(text)
  {
    CleanLinesEmptyIffBlank(text);
    CleanLinesAreClean(text);
    JoinLinesShape(CleanLines(text));
    CleanTextIsJoinedLines(text);
  }

  /** Splitting, stripping and filtering text made of clean lines gives those lines back. */
  lemma CleanLinesOfJoin(lines: seq<string>)
    requires forall k :: 0 <= k < |lines| ==> CleanLine(lines[k])
    ensures CleanLines(JoinLines(lines)) == lines
  {
    var t := JoinLines(lines);
    JoinLinesShape(lines);
    CollapseIdentity(t);
    StripEachIdentity(lines);
    NonEmptyIdentity(lines);
  }

  /** clean_text is idempotent. */
  lemma CleanTextIdempotent(text: string)
    ensures CleanText(CleanText(text)) == CleanText(text)
  {
    var lines := CleanLines(text);
    CleanLinesAreClean(text);
    CleanTextIsJoinedLines(text);
    CleanLinesOfJoin(lines);
    CleanTextIsJoinedLines(JoinLines(lines));
  }
}
