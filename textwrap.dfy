/** `textwrap.dedent`, which every dialogue applies to the triple-quoted text it sends: lines made
    only of spaces and tabs become empty, then the longest run of spaces and tabs that starts every
    other line is removed from each of them. */
module Textwrap {
  import opened Text

  predicate IsMarginChar(c: char) {
    c == ' ' || c == '\t'
  }

  /** A line holding nothing but spaces and tabs (the empty line included). */
  predicate IsBlank(line: string) {
    forall k :: 0 <= k < |line| ==> IsMarginChar(line[k])
  }

  /** The run of spaces and tabs a line starts with. */
  function Indent(line: string): (r: string)
    ensures |r| <= |line| && r == line[..|r|]
    ensures IsBlank(r)
    ensures |r| < |line| ==> !IsMarginChar(line[|r|])
  {
    if line != [] && IsMarginChar(line[0]) then [line[0]] + Indent(line[1..]) else []
  }

  /** The longest common prefix of two strings. */
  function CommonPrefix(a: string, b: string): (r: string)
    ensures |r| <= |a| && |r| <= |b| && r == a[..|r|] && r == b[..|r|]
    ensures |r| == |a| || |r| == |b| || a[|r|] != b[|r|]
  {
    if a != [] && b != [] && a[0] == b[0] then [a[0]] + CommonPrefix(a[1..], b[1..]) else []
  }

  /** The indents of the non-blank lines, in order. */
  function Indents(lines: seq<string>): (r: seq<string>)
    ensures |r| <= |lines|
  {
    if lines == [] then []
    else
      var rest := Indents(lines[1..]);
      if IsBlank(lines[0]) then rest else [Indent(lines[0])] + rest
  }

  /** The margin: the longest common prefix of the given indents, found one indent at a time. */
  function Margin(indents: seq<string>): (r: string)
    requires indents != []
    ensures |r| <= |indents[0]| && r == indents[0][..|r|]
    ensures var last := indents[|indents| - 1]; |r| <= |last| && r == last[..|r|]
  {
    if |indents| == 1 then indents[0]
    else CommonPrefix(Margin(indents[..|indents| - 1]), indents[|indents| - 1])
  }

  /** The margin starts every indent, and it cannot be lengthened: some indent ends right after
      it, or two indents differ in the next character. */
  lemma {:induction false} MarginIsLongestCommonPrefix(indents: seq<string>)
    requires indents != []
    ensures forall i :: 0 <= i < |indents| ==>
      |Margin(indents)| <= |indents[i]| && indents[i][..|Margin(indents)|] == Margin(indents)
    ensures (exists i :: 0 <= i < |indents| && |indents[i]| == |Margin(indents)|)
      || (exists i, j :: 0 <= i < |indents| && 0 <= j < |indents| &&
            |indents[i]| > |Margin(indents)| && |indents[j]| > |Margin(indents)| &&
            indents[i][|Margin(indents)|] != indents[j][|Margin(indents)|])
  {
    var n := |indents|;
    if n > 1 {
      var front := indents[..n - 1];
      MarginIsLongestCommonPrefix(front);
      var m := Margin(front);
      var x := indents[n - 1];
      var p := CommonPrefix(m, x);
      assert Margin(indents) == p;
      forall i | 0 <= i < n
        ensures |p| <= |indents[i]| && indents[i][..|p|] == p
      {
        if i < n - 1 {
          assert indents[i] == front[i];
          assert indents[i][..|p|] == indents[i][..|m|][..|p|];
        }
      }
      if |p| == |x| {
        assert |indents[n - 1]| == |p|;
      } else if |p| == |m| {
        assert m == p;
        if exists i :: 0 <= i < |front| && |front[i]| == |m| {
          var i :| 0 <= i < |front| && |front[i]| == |m|;
          assert indents[i] == front[i];
        } else {
          var i, j :| 0 <= i < |front| && 0 <= j < |front| && |front[i]| > |m| && |front[j]| > |m|
            && front[i][|m|] != front[j][|m|];
          assert indents[i] == front[i] && indents[j] == front[j];
        }
      } else {
        // The two disagree right after p; the first indent carries m's next character.
        assert m[|p|] != x[|p|];
        assert front[0][..|m|] == m;
        assert front[0][|p|] == m[|p|];
        assert indents[0] == front[0];
        assert indents[0][|p|] != indents[n - 1][|p|];
      }
    }
  }

  /** One line after the margin is taken off: blank lines become empty. */
  function DedentLine(line: string, margin: string): string {
    if IsBlank(line) then ""
    else if |margin| <= |line| then line[|margin|..]
    else line
  }

  function DedentLines(lines: seq<string>, margin: string): (r: seq<string>)
    ensures |r| == |lines|
    ensures forall k :: 0 <= k < |r| ==> r[k] == DedentLine(lines[k], margin)
  {
    if lines == [] then [] else [DedentLine(lines[0], margin)] + DedentLines(lines[1..], margin)
  }

  /** The margin of a text split into lines; no margin when every line is blank. */
  function LinesMargin(lines: seq<string>): string {
    var indents := Indents(lines);
    if indents == [] then "" else Margin(indents)
  }

  /** `textwrap.dedent(s)`. */
  function Dedent(s: string): (r: string)
    ensures SplitOn(r, '\n') == DedentLines(SplitOn(s, '\n'), LinesMargin(SplitOn(s, '\n')))
  {
    var lines := SplitOn(s, '\n');
    SplitOnPiecesFree(s, '\n');
    DedentLinesSplit(lines, LinesMargin(lines));
    Join(DedentLines(lines, LinesMargin(lines)), "\n")
  }

  /** A value handed to `dedent`: a string is dedented, anything else is left alone. */
  datatype Value = Str(s: string) | NonStr(id: nat)

  function DedentValue(v: Value): (r: Value)
    ensures v.NonStr? ==> r == v
    ensures v.Str? ==> r == Str(Dedent(v.s))
  {
    if v.Str? then Str(Dedent(v.s)) else v
  }

  lemma {:induction false} IndentsOfNonBlank(lines: seq<string>, k: nat)
    requires k < |lines| && !IsBlank(lines[k])
    ensures Indent(lines[k]) in Indents(lines)
  {
    if k > 0 {
      IndentsOfNonBlank(lines[1..], k - 1);
    }
  }

  lemma {:induction false} IndentsAreOfNonBlank(lines: seq<string>, i: nat)
    requires i < |Indents(lines)|
    ensures exists k :: 0 <= k < |lines| && !IsBlank(lines[k]) && Indents(lines)[i] == Indent(lines[k])
  {
    if IsBlank(lines[0]) {
      IndentsAreOfNonBlank(lines[1..], i);
      var k :| 0 <= k < |lines[1..]| && !IsBlank(lines[1..][k]) && Indents(lines[1..])[i] == Indent(lines[1..][k]);
      assert lines[k + 1] == lines[1..][k];
    } else if i > 0 {
      IndentsAreOfNonBlank(lines[1..], i - 1);
      var k :| 0 <= k < |lines[1..]| && !IsBlank(lines[1..][k]) && Indents(lines[1..])[i - 1] == Indent(lines[1..][k]);
      assert lines[k + 1] == lines[1..][k];
    } else {
      assert Indents(lines)[0] == Indent(lines[0]);
    }
  }

  lemma {:induction false} SplitOnPiecesFree(s: string, c: char)
    ensures forall k :: 0 <= k < |SplitOn(s, c)| ==> c !in SplitOn(s, c)[k]
  {
    if s != [] {
      SplitOnPiecesFree(s[1..], c);
    }
  }

  /** The margin starts every non-blank line, inside its indent. */
  lemma MarginStartsNonBlank(lines: seq<string>, k: nat)
    requires k < |lines| && !IsBlank(lines[k])
    ensures |LinesMargin(lines)| <= |Indent(lines[k])| && lines[k][..|LinesMargin(lines)|] == LinesMargin(lines)
  {
    var indents := Indents(lines);
    IndentsOfNonBlank(lines, k);
    MarginIsLongestCommonPrefix(indents);
    var margin := LinesMargin(lines);
    var i :| 0 <= i < |indents| && indents[i] == Indent(lines[k]);
    assert lines[k][..|margin|] == Indent(lines[k])[..|margin|];
  }

  lemma DedentLineFacts(line: string, margin: string)
    requires !IsBlank(line) && |margin| <= |Indent(line)| && line[..|margin|] == margin
    ensures var out := DedentLine(line, margin);
      |out| <= |line| && line[|line| - |out|..] == out && IsBlank(line[..|line| - |out|])
      && out != [] && !IsBlank(out) && out[0] == line[|margin|]
  {
    var ind := Indent(line);
    assert |ind| < |line|;
    var out := DedentLine(line, margin);
    assert out == line[|margin|..];
    assert |line| - |out| == |margin|;
    assert IsBlank(line[..|margin|]) by {
      assert forall k :: 0 <= k < |margin| ==> line[..|margin|][k] == ind[k];
    }
    assert out[|ind| - |margin|] == line[|ind|];
  }

  lemma DedentLinesSplit(lines: seq<string>, margin: string)
    requires |lines| >= 1
    requires forall k :: 0 <= k < |lines| ==> '\n' !in lines[k]
    ensures SplitOn(Join(DedentLines(lines, margin), "\n"), '\n') == DedentLines(lines, margin)
  {
    var outs := DedentLines(lines, margin);
    forall k | 0 <= k < |outs|
      ensures '\n' !in outs[k]
    {
      assert forall j :: 0 <= j < |outs[k]| ==> outs[k][j] in lines[k];
    }
    SplitOnJoin(outs, '\n');
  }

  /** Dedenting works line by line. */
  lemma DedentSplit(s: string)
    ensures SplitOn(Dedent(s), '\n') == DedentLines(SplitOn(s, '\n'), LinesMargin(SplitOn(s, '\n')))
  {
    SplitOnPiecesFree(s, '\n');
    DedentLinesSplit(SplitOn(s, '\n'), LinesMargin(SplitOn(s, '\n')));
  }

  /** What dedenting does to one non-blank line. */
  predicate KeepsNonBlankLine(line: string, out: string) {
    |out| <= |line| && line[|line| - |out|..] == out && IsBlank(line[..|line| - |out|])
    && out != [] && !IsBlank(out)
  }

  lemma DedentLinesKeep(lines: seq<string>)
    ensures forall k :: 0 <= k < |lines| && !IsBlank(lines[k]) ==>
      KeepsNonBlankLine(lines[k], DedentLines(lines, LinesMargin(lines))[k])
  {
    var margin := LinesMargin(lines);
    var outs := DedentLines(lines, margin);
    forall k | 0 <= k < |lines| && !IsBlank(lines[k])
      ensures KeepsNonBlankLine(lines[k], outs[k])
    {
      MarginStartsNonBlank(lines, k);
      DedentLineFacts(lines[k], margin);
      assert outs[k] == DedentLine(lines[k], margin);
    }
  }

  /** Each line keeps its place; a blank line becomes empty, and every other line loses only
      leading spaces and tabs. */
  lemma DedentKeepsLines(s: string)
    ensures |SplitOn(Dedent(s), '\n')| == |SplitOn(s, '\n')|
    ensures forall k :: 0 <= k < |SplitOn(s, '\n')| && IsBlank(SplitOn(s, '\n')[k]) ==>
      SplitOn(Dedent(s), '\n')[k] == ""
    ensures forall k :: 0 <= k < |SplitOn(s, '\n')| && !IsBlank(SplitOn(s, '\n')[k]) ==>
      KeepsNonBlankLine(SplitOn(s, '\n')[k], SplitOn(Dedent(s), '\n')[k])
  {
    DedentSplit(s);
    DedentLinesKeep(SplitOn(s, '\n'));
  }

  lemma OutStartsAtMargin(lines: seq<string>, k: nat)
    requires k < |lines| && !IsBlank(lines[k])
    ensures |LinesMargin(lines)| < |lines[k]|
    ensures !IsBlank(DedentLines(lines, LinesMargin(lines))[k])
    ensures DedentLines(lines, LinesMargin(lines))[k][0] == lines[k][|LinesMargin(lines)|]
  {
    MarginStartsNonBlank(lines, k);
    DedentLineFacts(lines[k], LinesMargin(lines));
  }

  /** A non-blank line whose indent is exactly the margin starts, once dedented, with something
      other than a space or a tab. */
  lemma OutOfShortestIndent(lines: seq<string>, i: nat)
    requires i < |Indents(lines)| && |Indents(lines)[i]| == |LinesMargin(lines)|
    ensures exists k :: (0 <= k < |lines| && !IsBlank(DedentLines(lines, LinesMargin(lines))[k])
      && !IsMarginChar(DedentLines(lines, LinesMargin(lines))[k][0]))
  {
    IndentsAreOfNonBlank(lines, i);
    var k :| 0 <= k < |lines| && !IsBlank(lines[k]) && Indents(lines)[i] == Indent(lines[k]);
    OutStartsAtMargin(lines, k);
  }

  lemma LinesMarginIsLongest(lines: seq<string>, c: char)
    requires IsMarginChar(c)
    requires exists k :: 0 <= k < |lines| && !IsBlank(lines[k])
    ensures exists k :: (0 <= k < |lines| && !IsBlank(DedentLines(lines, LinesMargin(lines))[k])
      && DedentLines(lines, LinesMargin(lines))[k][0] != c)
  {
    var indents := Indents(lines);
    var k0 :| 0 <= k0 < |lines| && !IsBlank(lines[k0]);
    IndentsOfNonBlank(lines, k0);
    var margin := LinesMargin(lines);
    MarginIsLongestCommonPrefix(indents);
    if exists i :: 0 <= i < |indents| && |indents[i]| == |margin| {
      var i :| 0 <= i < |indents| && |indents[i]| == |margin|;
      OutOfShortestIndent(lines, i);
    } else {
      var i, j :| 0 <= i < |indents| && 0 <= j < |indents| && |indents[i]| > |margin|
        && |indents[j]| > |margin| && indents[i][|margin|] != indents[j][|margin|];
      IndentsAreOfNonBlank(lines, i);
      IndentsAreOfNonBlank(lines, j);
      var ki :| 0 <= ki < |lines| && !IsBlank(lines[ki]) && indents[i] == Indent(lines[ki]);
      var kj :| 0 <= kj < |lines| && !IsBlank(lines[kj]) && indents[j] == Indent(lines[kj]);
      OutStartsAtMargin(lines, ki);
      OutStartsAtMargin(lines, kj);
      assert lines[ki][|margin|] == indents[i][|margin|];
      assert lines[kj][|margin|] == indents[j][|margin|];
    }
  }

  /** After dedenting, no space or tab starts every non-blank line: the margin removed was the
      longest one. */
  lemma DedentMarginIsLongest(s: string, c: char)
    requires IsMarginChar(c)
    requires exists k :: 0 <= k < |SplitOn(s, '\n')| && !IsBlank(SplitOn(s, '\n')[k])
    ensures exists k :: (0 <= k < |SplitOn(Dedent(s), '\n')|
      && !IsBlank(SplitOn(Dedent(s), '\n')[k]) && SplitOn(Dedent(s), '\n')[k][0] != c)
  {
    DedentSplit(s);
    LinesMarginIsLongest(SplitOn(s, '\n'), c);
  }
}
