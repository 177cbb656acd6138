/**
 * `renderJSXLiteral` (lib/visitor.js): a JSX text run or a quoted attribute value becomes one
 * quoted string per line with content, joined by `+ ' ' +`, with the source's line breaks and
 * the indentation between lines kept as raw output outside the strings.
 */
module LiteralRender {
  import opened Base
  import opened Text
  import opened JsonString
  import opened JsxAst
  import opened Emit

  /** `lastNonEmptyLine` after the first loop: the last line holding a character other than a
      space or a tab, or 0 when no line after the first does. */
  function LastNonEmptyLine(lines: seq<string>): (k: nat)
    ensures |lines| > 0 ==> k < |lines|
    ensures k > 0 ==> k < |lines| && HasNonBlank(lines[k])
    ensures forall j :: k < j < |lines| ==> !HasNonBlank(lines[j])
    decreases |lines|
  {
    if |lines| == 0 then 0
    else if HasNonBlank(lines[|lines| - 1]) then |lines| - 1
    else LastNonEmptyLine(lines[..|lines| - 1])
  }

  /** The first `lines.forEach` of renderJSXLiteral. */
  method FindLastNonEmptyLine(lines: seq<string>) returns (lastNonEmptyLine: nat)
    ensures lastNonEmptyLine == LastNonEmptyLine(lines)
  {
    lastNonEmptyLine := 0;
    var index := 0;
    while index < |lines|
      invariant 0 <= index <= |lines|
      invariant lastNonEmptyLine == LastNonEmptyLine(lines[..index])
    {
      assert lines[..index + 1][..index] == lines[..index];
      if HasNonBlank(lines[index]) {
        lastNonEmptyLine := index;
      }
      index := index + 1;
    }
    assert lines[..|lines|] == lines;
  }

  /** `trimmedLine`: tabs made spaces, leading spaces dropped except on the first line, trailing
      spaces dropped except on the last line. */
  function TrimmedLine(line: string, isFirstLine: bool, isLastLine: bool): (t: string)
    ensures forall i :: 0 <= i < |t| ==> t[i] != '\t'
    ensures !isFirstLine ==> t == [] || t[0] != ' '
    ensures !isLastLine ==> t == [] || t[|t| - 1] != ' '
  {
    var spaced := TabsToSpaces(line);
    TrimLeftSuffix(spaced);
    var left := if isFirstLine then spaced else TrimLeft(spaced);
    if isLastLine then left else TrimRight(left)
  }

  /** `t` sits at offset `a` of `u` with only spaces around it. */
  predicate SpacesAt(u: string, a: nat, t: string)
  {
    a + |t| <= |u| && u[a..a + |t|] == t && AllSpaces(u[..a]) && AllSpaces(u[a + |t|..])
  }

  /** Trimming only ever removes spaces, and only at the ends it is asked to trim. */
  lemma TrimmedLineShape(line: string, isFirstLine: bool, isLastLine: bool)
    ensures exists a: nat ::
              && SpacesAt(TabsToSpaces(line), a, TrimmedLine(line, isFirstLine, isLastLine))
              && (isFirstLine ==> a == 0)
              && (isLastLine ==> a + |TrimmedLine(line, isFirstLine, isLastLine)| == |line|)
  {
    var u := TabsToSpaces(line);
    var left := if isFirstLine then u else TrimLeft(u);
    var t := if isLastLine then left else TrimRight(left);
    assert t == TrimmedLine(line, isFirstLine, isLastLine);
    var a := |u| - |left|;
    TrimLeftSuffix(u);
    assert AllSpaces(u[..a]);
    SpacesAround(u, a, left, t, isLastLine);
    assert SpacesAt(u, a, t);
  }

  lemma SpacesAround(u: string, a: nat, left: string, t: string, isLastLine: bool)
    requires a <= |u| && left == u[a..]
    requires t == if isLastLine then left else TrimRight(left)
    ensures a + |t| <= |u| && u[a..a + |t|] == t && AllSpaces(u[a + |t|..])
    ensures isLastLine ==> a + |t| == |u|
  {
    assert t == left[..|t|] && AllSpaces(left[|t|..]);
    assert u[a + |t|..] == left[|t|..];
  }

  /** What one line of the literal contributes, in output order. */
  datatype RenderedLine = RenderedLine(
    lead: Option<string>,     // the raw indentation of a line after the first
    segment: Option<string>,  // the quoted trimmed text
    joiner: bool,             // ` + ' ' +` after the segment
    comma: bool,              // `, ` after the final segment
    tail: Option<string>,     // the raw trailing whitespace of a line with text
    newline: bool)            // `\n` after every line but the last
  {
    function LeadText(): string { if lead.Some? then lead.value else "" }

    function SegmentText(): string { if segment.Some? then segment.value else "" }

    function JoinerText(): string { if joiner then " + ' ' +" else "" }

    function CommaText(): string { if comma then ", " else "" }

    function TailText(): string { if tail.Some? then tail.value else "" }

    function NewlineText(): string { if newline then "\n" else "" }

    /** The line without its line break. */
    function Body(): string
    {
      LeadText() + SegmentText() + JoinerText() + CommaText() + TailText()
    }

    function Text(): string
    {
      Body() + NewlineText()
    }

    /** The appends of the line, made one by one on the emitter state `c`: the segment and its
        joiner go out in one call. */
    function Run(c: Cursor): Cursor
    {
      var c1 := if lead.Some? then c.Append(lead.value) else c;
      var c2 := c1.AppendIf(segment.Some?, SegmentText() + JoinerText());
      var c3 := c2.AppendIf(comma, ", ");
      var c4 := if tail.Some? then c3.Append(tail.value) else c3;
      c4.AppendIf(newline, "\n")
    }
  }

  /** Making the appends one by one adds the line's text and leaves the cursor. */
  lemma RunText(r: RenderedLine, c: Cursor)
    requires r.joiner ==> r.segment.Some?
    ensures r.Run(c) == Cursor(c.position, c.buffer + r.Text())
  {
    var c1 := if r.lead.Some? then c.Append(r.lead.value) else c;
    assert c1.buffer == c.buffer + r.LeadText();
    var c2 := c1.AppendIf(r.segment.Some?, r.SegmentText() + r.JoinerText());
    assert c2.buffer == c1.buffer + (r.SegmentText() + r.JoinerText());
    var c3 := c2.AppendIf(r.comma, ", ");
    assert c3.buffer == c2.buffer + r.CommaText();
    var c4 := if r.tail.Some? then c3.Append(r.tail.value) else c3;
    assert c4.buffer == c3.buffer + r.TailText();
    assert r.Run(c).buffer == c4.buffer + r.NewlineText();
    Regroup(c.buffer, r.LeadText(), r.SegmentText(), r.JoinerText(), r.CommaText(), r.TailText(), r.NewlineText());
  }

  lemma Regroup(b: string, l: string, s: string, j: string, m: string, t: string, n: string)
    ensures b + l + (s + j) + m + t + n == b + (l + s + j + m + t + n)
  {
  }

  /** One iteration of the second `lines.forEach`. */
  function RenderLine(lines: seq<string>, index: nat, lastNonEmptyLine: nat, isLast: bool): RenderedLine
    requires index < |lines|
  {
    var line := lines[index];
    var isFirstLine := index == 0;
    var isLastLine := index == |lines| - 1;
    var isLastNonEmptyLine := index == lastNonEmptyLine;
    var trimmedLine := TrimmedLine(line, isFirstLine, isLastLine);
    var rendered := trimmedLine != "" || isLastNonEmptyLine;
    RenderedLine(
      if isFirstLine then None else Some(LeadingBlanks(line)),
      if rendered then Some(Stringify(trimmedLine)) else None,
      rendered && !isLastNonEmptyLine,
      rendered && isLastNonEmptyLine && !isLast,
      if trimmedLine != "" && !isLastLine then Some(TrailingBlanks(line)) else None,
      !isLastLine)
  }

  /** The output of the first `count` lines. */
  function LinesText(lines: seq<string>, lastNonEmptyLine: nat, isLast: bool, count: nat): string
    requires count <= |lines|
  {
    if count == 0 then ""
    else LinesText(lines, lastNonEmptyLine, isLast, count - 1) + RenderLine(lines, count - 1, lastNonEmptyLine, isLast).Text()
  }

  lemma LinesTextStep(lines: seq<string>, k: nat, isLast: bool, count: nat)
    requires count < |lines|
    ensures LinesText(lines, k, isLast, count + 1) == LinesText(lines, k, isLast, count) + RenderLine(lines, count, k, isLast).Text()
  {
  }

  /** Everything renderJSXLiteral appends for a literal whose value is `value`. */
  function LiteralText(value: string, isLast: bool): string
  {
    var lines := SplitLines(value);
    LinesText(lines, LastNonEmptyLine(lines), isLast, |lines|)
  }

  /** A value on one line is written as one quoted string (tabs made spaces, nothing trimmed),
      followed by `, ` unless it is last. */
  lemma SingleLineLiteral(value: string, isLast: bool)
    requires NoLineBreak(value)
    ensures LiteralText(value, isLast) == Stringify(TabsToSpaces(value)) + (if isLast then "" else ", ")
  {
    SplitLinesSingle(value);
    var r := RenderLine([value], 0, 0, isLast);
    assert r.Text() == Stringify(TabsToSpaces(value)) + (if isLast then "" else ", ");
    assert LinesText([value], 0, isLast, 1) == "" + r.Text();
  }

  /** The effect of `renderJSXLiteral(object, isLast, state)` on the emitter state `c`. */
  function RenderLiteral(c: Cursor, lit: Literal, isLast: bool): Cursor
  {
    c.Append(LiteralText(lit.value, isLast)).Move(lit.range.end)
  }

  /** The quoted segments form one well-formed concatenation: every rendered line before the last
      non-empty one ends in ` + ' ' +`, that line's segment is the only one without it, no line
      after it renders a segment, and `, ` follows that final segment exactly when the literal is
      not the last argument. */
  lemma SegmentChain(value: string, isLast: bool)
    ensures var lines := SplitLines(value); var k := LastNonEmptyLine(lines);
      k < |lines|
      && (forall i :: 0 <= i < |lines| ==>
            var r := RenderLine(lines, i, k, isLast);
            (r.segment.Some? && !r.joiner <==> i == k)
            && (r.joiner ==> r.segment.Some?)
            && (r.comma <==> i == k && !isLast)
            && (i > k ==> r.segment.None?)
            && (r.segment.Some? <==> TrimmedLine(lines[i], i == 0, i == |lines| - 1) != "" || i == k))
  {
    var lines := SplitLines(value);
    var k := LastNonEmptyLine(lines);
    forall i | k < i < |lines|
      ensures TrimmedLine(lines[i], i == 0, i == |lines| - 1) == ""
    {
      BlankLineTrimsToEmpty(lines[i], i == |lines| - 1);
    }
  }

  /** A line of blanks after the first line trims to nothing. */
  lemma BlankLineTrimsToEmpty(line: string, isLastLine: bool)
    requires !HasNonBlank(line)
    ensures TrimmedLine(line, false, isLastLine) == ""
  {
    var u := TabsToSpaces(line);
    TrimLeftSuffix(u);
    assert AllSpaces(u) by {
      forall i | 0 <= i < |u| ensures u[i] == ' ' {
        assert IsBlank(line[i]);
      }
    }
  }

  lemma NoNewlineConcat(a: string, b: string)
    requires '\n' !in a && '\n' !in b
    ensures '\n' !in a + b
  {
  }

  lemma NewlinesConcat(a: string, b: string)
    ensures multiset(a + b)['\n'] == multiset(a)['\n'] + multiset(b)['\n']
  {
  }

  lemma BodyNoNewline(r: RenderedLine)
    requires '\n' !in r.LeadText() && '\n' !in r.TailText()
    requires r.segment.Some? ==> '\n' !in r.segment.value
    ensures '\n' !in r.Body()
  {
    var seg, joiner, comma := r.SegmentText(), r.JoinerText(), r.CommaText();
    assert '\n' !in joiner;
    assert '\n' !in comma;
    NoNewlineConcat(r.LeadText(), seg);
    NoNewlineConcat(r.LeadText() + seg, joiner);
    NoNewlineConcat(r.LeadText() + seg + joiner, comma);
    NoNewlineConcat(r.LeadText() + seg + joiner + comma, r.TailText());
  }

  lemma RenderedTextNewlines(r: RenderedLine)
    requires '\n' !in r.LeadText() && '\n' !in r.TailText()
    requires r.segment.Some? ==> '\n' !in r.segment.value
    ensures multiset(r.Text())['\n'] == if r.newline then 1 else 0
  {
    BodyNoNewline(r);
    assert multiset(r.Body())['\n'] == 0;
    NewlinesConcat(r.Body(), r.NewlineText());
  }

  lemma RenderedLineNewlines(lines: seq<string>, index: nat, k: nat, isLast: bool)
    requires index < |lines|
    ensures multiset(RenderLine(lines, index, k, isLast).Text())['\n'] == if index == |lines| - 1 then 0 else 1
  {
    var r := RenderLine(lines, index, k, isLast);
    assert '\n' !in r.LeadText() by {
      if index != 0 {
        assert AllBlanks(LeadingBlanks(lines[index]));
      }
    }
    assert '\n' !in r.TailText();
    if r.segment.Some? {
      assert r.segment.value == Stringify(TrimmedLine(lines[index], index == 0, index == |lines| - 1));
    }
    RenderedTextNewlines(r);
  }

  lemma LinesTextNewlinesStep(lines: seq<string>, k: nat, isLast: bool, count: nat)
    requires count < |lines|
    ensures multiset(LinesText(lines, k, isLast, count + 1))['\n']
      == multiset(LinesText(lines, k, isLast, count))['\n'] + if count == |lines| - 1 then 0 else 1
  {
    LinesTextStep(lines, k, isLast, count);
    RenderedLineNewlines(lines, count, k, isLast);
    NewlinesConcat(LinesText(lines, k, isLast, count), RenderLine(lines, count, k, isLast).Text());
  }

  lemma {:induction false} LinesTextNewlines(lines: seq<string>, k: nat, isLast: bool, count: nat)
    requires 0 < count <= |lines|
    ensures multiset(LinesText(lines, k, isLast, count))['\n'] == if count == |lines| then count - 1 else count
  {
    LinesTextNewlinesStep(lines, k, isLast, count - 1);
    if count > 1 {
      LinesTextNewlines(lines, k, isLast, count - 1);
    }
  }

  /** The output holds exactly one `\n` per line break of the literal (`\r\n` counting once), so
      the code after the literal stays on its original line. */
  lemma LiteralNewlines(value: string, isLast: bool)
    ensures multiset(LiteralText(value, isLast))['\n'] == LineBreaks(value)
  {
    var lines := SplitLines(value);
    LinesTextNewlines(lines, LastNonEmptyLine(lines), isLast, |lines|);
  }

  lemma Associative(a: string, b: string, c: string)
    ensures a + (b + c) == a + b + c
  {
  }



  /** One call of the callback of the second `lines.forEach` of renderJSXLiteral. */
  method RenderLineInto(em: Emitter, lines: seq<string>, index: nat, lastNonEmptyLine: nat, isLast: bool)
    requires index < |lines|
    modifies em
    ensures em.State() == RenderLine(lines, index, lastNonEmptyLine, isLast).Run(old(em.State()))
  {
    var line := lines[index];
    var isFirstLine := index == 0;
    var isLastLine := index == |lines| - 1;
    var isLastNonEmptyLine := index == lastNonEmptyLine;
    // tabs become spaces, then whitespace touching a line break is trimmed
    var trimmedLine := TrimmedLine(line, isFirstLine, isLastLine);
    if !isFirstLine {
      em.Append(LeadingBlanks(line));
    }
    if trimmedLine != "" || isLastNonEmptyLine {
      em.Append(Stringify(trimmedLine) + (if !isLastNonEmptyLine then " + ' ' +" else ""));
      if isLastNonEmptyLine {
        if !isLast {
          em.Append(", ");
        }
      }
      // only restore tail whitespace if the line had text
      if trimmedLine != "" && !isLastLine {
        em.Append(TrailingBlanks(line));
      }
    }
    if !isLastLine {
      em.Append("\n");
    }
  }

  /** After the lines before `index`, the callback for line `index` adds that line's text. */
  lemma LinesRunStep(c0: Cursor, before: Cursor, lines: seq<string>, k: nat, isLast: bool, index: nat)
    requires index < |lines| && before == c0.Append(LinesText(lines, k, isLast, index))
    ensures RenderLine(lines, index, k, isLast).Run(before) == c0.Append(LinesText(lines, k, isLast, index + 1))
  {
    var r := RenderLine(lines, index, k, isLast);
    RunText(r, before);
    LinesTextStep(lines, k, isLast, index);
    Associative(c0.buffer, LinesText(lines, k, isLast, index), r.Text());
  }

  /** The second `lines.forEach` of renderJSXLiteral. */
  method RenderLines(em: Emitter, lines: seq<string>, lastNonEmptyLine: nat, isLast: bool)
    modifies em
    ensures em.State() == old(em.State()).Append(LinesText(lines, lastNonEmptyLine, isLast, |lines|))
  {
    ghost var c0 := em.State();
    var index := 0;
    assert c0.buffer + LinesText(lines, lastNonEmptyLine, isLast, 0) == c0.buffer;
    while index < |lines|
      invariant 0 <= index <= |lines|
      invariant em.position == c0.position && em.buffer == c0.buffer + LinesText(lines, lastNonEmptyLine, isLast, index)
    {
      ghost var before := em.State();
      RenderLineInto(em, lines, index, lastNonEmptyLine, isLast);
      LinesRunStep(c0, before, lines, lastNonEmptyLine, isLast, index);
      index := index + 1;
    }
  }

  /** `renderJSXLiteral(object, isLast, state)`; `start` and `end` are never passed. */
  method RenderJSXLiteral(em: Emitter, lit: Literal, isLast: bool)
    modifies em
    ensures em.State() == RenderLiteral(old(em.State()), lit, isLast)
  {
    var lines := SplitLines(lit.value);
    var lastNonEmptyLine := FindLastNonEmptyLine(lines);
    RenderLines(em, lines, lastNonEmptyLine, isLast);
    em.Move(lit.range.end);
  }
}
