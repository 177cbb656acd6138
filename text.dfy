/**
 * The string helpers of the visitor (`trimLeft`, `stripNonParen`, `quoteJSObjKey`), the regular
 * expressions it tests strings against, and the built-ins it relies on (`String.prototype.split`
 * with a line-break pattern, `String.prototype.replace` with a string pattern, `JSON.stringify`
 * of a string). A character is a Unicode scalar value, where JavaScript counts UTF-16 code
 * units; the two agree on text without characters outside the Basic Multilingual Plane.
 */
module Text {
  import opened Base

  predicate IsBlank(c: char) { c == ' ' || c == '\t' }

  predicate IsLineBreak(c: char) { c == '\r' || c == '\n' }

  predicate AllSpaces(s: string) { forall i :: 0 <= i < |s| ==> s[i] == ' ' }

  predicate AllBlanks(s: string) { forall i :: 0 <= i < |s| ==> IsBlank(s[i]) }

  /** `/[^ \t]/` finds a match. */
  predicate HasNonBlank(s: string) { exists i :: 0 <= i < |s| && !IsBlank(s[i]) }

  // ---------------------------------------------------------------------------------------
  // trimLeft and the other trimming replacements

  /** `trimLeft(val)`, i.e. `val.replace(/^ +/, '')`: drops the maximal run of leading spaces. */
  function TrimLeft(s: string): (r: string)
    ensures |r| <= |s|
    ensures r == [] || r[0] != ' '
  {
    if s != [] && s[0] == ' ' then TrimLeft(s[1..]) else s
  }

  lemma {:induction false} TrimLeftSuffix(s: string)
    ensures var r := TrimLeft(s); r == s[|s| - |r|..] && AllSpaces(s[..|s| - |r|])
  {
    if s != [] && s[0] == ' ' {
      TrimLeftSuffix(s[1..]);
    }
  }

  lemma {:induction false} TrimLeftIdempotent(s: string)
    ensures TrimLeft(TrimLeft(s)) == TrimLeft(s)
  {
    var r := TrimLeft(s);
    assert r == [] || r[0] != ' ';
  }

  /** `str.replace(/[ ]+$/, '')`: drops the maximal run of trailing spaces. */
  function TrimRight(s: string): (r: string)
    ensures |r| <= |s| && r == s[..|r|]
    ensures AllSpaces(s[|r|..])
    ensures r == [] || r[|r| - 1] != ' '
  {
    if s != [] && s[|s| - 1] == ' ' then
      var t := s[..|s| - 1];
      var r := TrimRight(t);
      assert s[..|r|] == t[..|r|];
      assert s[|r|..] == t[|r|..] + [' '];
      r
    else s
  }

  /** `str.replace(/\t/g, ' ')`. */
  function TabsToSpaces(s: string): (r: string)
    ensures |r| == |s|
    ensures forall i :: 0 <= i < |s| ==> r[i] == (if s[i] == '\t' then ' ' else s[i])
  {
    seq(|s|, i requires 0 <= i < |s| => if s[i] == '\t' then ' ' else s[i])
  }

  /** `str.match(/^[ \t]*\/)[0]`: the maximal prefix of spaces and tabs. */
  function LeadingBlanks(s: string): (r: string)
    ensures |r| <= |s| && r == s[..|r|] && AllBlanks(r)
    ensures |r| == |s| || !IsBlank(s[|r|])
  {
    if s != [] && IsBlank(s[0]) then [s[0]] + LeadingBlanks(s[1..]) else []
  }

  /** `str.match(/[ \t]*$/)[0]`: the maximal suffix of spaces and tabs. */
  function TrailingBlanks(s: string): (r: string)
    ensures |r| <= |s| && r == s[|s| - |r|..] && AllBlanks(r)
    ensures |r| == |s| || !IsBlank(s[|s| - |r| - 1])
  {
    if s != [] && IsBlank(s[|s| - 1]) then TrailingBlanks(s[..|s| - 1]) + [s[|s| - 1]] else []
  }

  // ---------------------------------------------------------------------------------------
  // stripNonParen and its newline counterpart

  /** Keeps exactly the characters of `s` that are in `keep`, in order. */
  function KeepOnly(s: string, keep: set<char>): (r: string)
    ensures forall i :: 0 <= i < |r| ==> r[i] in keep
  {
    if s == [] then [] else (if s[0] in keep then [s[0]] else []) + KeepOnly(s[1..], keep)
  }

  /** Every kept character occurs as often as in the input. */
  lemma {:induction false} KeepOnlyCount(s: string, keep: set<char>, c: char)
    requires c in keep
    ensures multiset(KeepOnly(s, keep))[c] == multiset(s)[c]
  {
    if s != [] {
      assert s == [s[0]] + s[1..];
      KeepOnlyCount(s[1..], keep, c);
    }
  }

  lemma {:induction false} KeepOnlyConcat(a: string, b: string, keep: set<char>)
    ensures KeepOnly(a + b, keep) == KeepOnly(a, keep) + KeepOnly(b, keep)
  {
    if a == [] {
      assert a + b == b;
    } else {
      var head := if a[0] in keep then [a[0]] else [];
      assert (a + b)[0] == a[0];
      assert (a + b)[1..] == a[1..] + b;
      KeepOnlyConcat(a[1..], b, keep);
      assert KeepOnly(a + b, keep) == head + KeepOnly(a[1..] + b, keep);
      assert KeepOnly(a, keep) == head + KeepOnly(a[1..], keep);
    }
  }

  /** `stripNonParen(value)`, i.e. `value.replace(/([^\(\)])/g, '')`. */
  function StripNonParen(s: string): (r: string)
    ensures forall i :: 0 <= i < |r| ==> r[i] == '(' || r[i] == ')'
  {
    KeepOnly(s, {'(', ')'})
  }

  /** Every parenthesis of the input survives. */
  lemma StripNonParenCount(s: string)
    ensures multiset(StripNonParen(s))['('] == multiset(s)['(']
    ensures multiset(StripNonParen(s))[')'] == multiset(s)[')']
  {
    KeepOnlyCount(s, {'(', ')'}, '(');
    KeepOnlyCount(s, {'(', ')'}, ')');
  }

  /** The parentheses keep their order: stripping distributes over concatenation. */
  lemma StripNonParenConcat(a: string, b: string)
    ensures StripNonParen(a + b) == StripNonParen(a) + StripNonParen(b)
  {
    KeepOnlyConcat(a, b, {'(', ')'});
  }

  /** The filter behind `catchupNewlines`: `value.replace(/[^\n]/g, '')`. */
  function StripNonNewline(s: string): (r: string)
    ensures forall i :: 0 <= i < |r| ==> r[i] == '\n'
  {
    KeepOnly(s, {'\n'})
  }

  /** Every `\n` of the input survives. */
  lemma StripNonNewlineCount(s: string)
    ensures multiset(StripNonNewline(s))['\n'] == multiset(s)['\n']
  {
    KeepOnlyCount(s, {'\n'}, '\n');
  }

  // ---------------------------------------------------------------------------------------
  // quoteJSObjKey

  predicate IsIdentifierStart(c: char) { 'a' <= c <= 'z' || 'A' <= c <= 'Z' || c == '_' || c == '$' }

  predicate IsIdentifierPart(c: char) { IsIdentifierStart(c) || '0' <= c <= '9' }

  /** `/^[a-z_$][a-z\d_$]*$/i` matches `s`. */
  predicate IsPlainKey(s: string)
  {
    |s| > 0 && IsIdentifierStart(s[0]) && forall i :: 1 <= i < |s| ==> IsIdentifierPart(s[i])
  }

  /** `quoteJSObjKey(name)`: the name itself when it is a plain key, else the name in single quotes. */
  function QuoteJSObjKey(name: string): (r: string)
    ensures r == name <==> IsPlainKey(name)
    ensures !IsPlainKey(name) ==> |r| == |name| + 2 && r[0] == '\'' && r[|r| - 1] == '\'' && r[1..|r| - 1] == name
  {
    if !IsPlainKey(name) then "'" + name + "'" else name
  }

  /** Two attribute names never produce the same object key. */
  lemma {:induction false} QuoteJSObjKeyInjective(a: string, b: string)
    requires QuoteJSObjKey(a) == QuoteJSObjKey(b)
    ensures a == b
  {
  }

  // ---------------------------------------------------------------------------------------
  // Tag classification

  /** `String.prototype.toUpperCase` on one character, for the ASCII range. */
  function ToUpper(c: char): char
  {
    if 'a' <= c <= 'z' then (c as int - 32) as char else c
  }

  /** `tagName[0] !== tagName[0].toUpperCase()`: the tag is known exactly when it starts with a
      lower-case letter. */
  predicate IsKnownTag(name: string)
    requires |name| > 0
    ensures IsKnownTag(name) <==> 'a' <= name[0] <= 'z'
  {
    name[0] != ToUpper(name[0])
  }

  // ---------------------------------------------------------------------------------------
  // String.prototype.replace with a string pattern

  /** `pat` occurs in `s` at index `j`. */
  predicate OccursAt(s: string, pat: string, j: nat)
  {
    j + |pat| <= |s| && s[j..j + |pat|] == pat
  }

  /** `s.indexOf(pat, from)` as an option. */
  function IndexFrom(s: string, pat: string, from: nat): (r: Option<nat>)
    ensures r.Some? ==> from <= r.value && OccursAt(s, pat, r.value)
    ensures r.Some? ==> forall j: nat :: from <= j < r.value ==> !OccursAt(s, pat, j)
    ensures r.None? ==> forall j: nat :: from <= j ==> !OccursAt(s, pat, j)
    decreases |s| - from
  {
    if from + |pat| > |s| then None
    else if s[from..from + |pat|] == pat then Some(from)
    else IndexFrom(s, pat, from + 1)
  }

  /** The replacement text of `GetSubstitution` when there are no capture groups: `$$`, `$&`,
      `` $` `` and `$'` are expanded, every other character is copied. */
  function Substitution(rep: string, matched: string, before: string, after: string): string
    decreases |rep|
  {
    if |rep| >= 2 && rep[0] == '$' && rep[1] == '$' then "$" + Substitution(rep[2..], matched, before, after)
    else if |rep| >= 2 && rep[0] == '$' && rep[1] == '&' then matched + Substitution(rep[2..], matched, before, after)
    else if |rep| >= 2 && rep[0] == '$' && rep[1] == '`' then before + Substitution(rep[2..], matched, before, after)
    else if |rep| >= 2 && rep[0] == '$' && rep[1] == '\'' then after + Substitution(rep[2..], matched, before, after)
    else if rep == [] then []
    else [rep[0]] + Substitution(rep[1..], matched, before, after)
  }

  lemma {:induction false} SubstitutionPlain(rep: string, matched: string, before: string, after: string)
    requires forall i :: 0 <= i < |rep| ==> rep[i] != '$'
    ensures Substitution(rep, matched, before, after) == rep
  {
    if rep != [] {
      SubstitutionPlain(rep[1..], matched, before, after);
    }
  }

  /** `s.replace(pat, rep)` with a string `pat`: only the first occurrence is replaced. */
  function ReplaceFirst(s: string, pat: string, rep: string): string
  {
    match IndexFrom(s, pat, 0)
    case None => s
    case Some(k) => s[..k] + Substitution(rep, pat, s[..k], s[k + |pat|..]) + s[k + |pat|..]
  }

  /** With `pat` first occurring right after `p1`, the replacement lands there and nothing else
      changes; a replacement without `$` is inserted literally. */
  lemma ReplaceFirstAt(p1: string, pat: string, p2: string, rep: string)
    requires IndexFrom(p1 + pat + p2, pat, 0) == Some(|p1|)
    requires forall i :: 0 <= i < |rep| ==> rep[i] != '$'
    ensures ReplaceFirst(p1 + pat + p2, pat, rep) == p1 + rep + p2
  {
    var s := p1 + pat + p2;
    assert s[..|p1|] == p1;
    assert s[|p1| + |pat|..] == p2;
    SubstitutionPlain(rep, pat, p1, p2);
  }

  /** The replacement `replace` is evidently meant to make when the replacement text is a tag
      name: the first occurrence of `pat` gives way to `rep`, character for character. */
  function ReplaceFirstLiteral(s: string, pat: string, rep: string): string
  {
    match IndexFrom(s, pat, 0)
    case None => s
    case Some(k) => s[..k] + rep + s[k + |pat|..]
  }

  /** With `pat` first occurring right after `p1`, the literal replacement puts `rep` there,
      whatever characters `rep` holds. */
  lemma ReplaceFirstLiteralAt(p1: string, pat: string, p2: string, rep: string)
    requires IndexFrom(p1 + pat + p2, pat, 0) == Some(|p1|)
    ensures ReplaceFirstLiteral(p1 + pat + p2, pat, rep) == p1 + rep + p2
  {
    var s := p1 + pat + p2;
    assert s[..|p1|] == p1;
    assert s[|p1| + |pat|..] == p2;
  }

  /** Without an occurrence of `pat`, `replace` returns its input. */
  lemma ReplaceFirstAbsent(s: string, pat: string, rep: string)
    requires forall j: nat :: !OccursAt(s, pat, j)
    ensures ReplaceFirst(s, pat, rep) == s
  {
  }

  // ---------------------------------------------------------------------------------------
  // String.prototype.split(/\r\n|\n|\r/)

  /** The number of line breaks, a `\r\n` pair counting once. */
  function LineBreaks(s: string): nat
  {
    if s == [] then 0
    else if |s| >= 2 && s[0] == '\r' && s[1] == '\n' then 1 + LineBreaks(s[2..])
    else if IsLineBreak(s[0]) then 1 + LineBreaks(s[1..])
    else LineBreaks(s[1..])
  }

  predicate NoLineBreak(s: string) { forall i :: 0 <= i < |s| ==> !IsLineBreak(s[i]) }

  /** `s.split(/\r\n|\n|\r/)`: one more line than there are line breaks, none of them holding a
      line-break character. */
  function SplitLines(s: string): (r: seq<string>)
    ensures |r| == LineBreaks(s) + 1
    ensures forall j :: 0 <= j < |r| ==> NoLineBreak(r[j])
  {
    if s == [] then [""]
    else if |s| >= 2 && s[0] == '\r' && s[1] == '\n' then [""] + SplitLines(s[2..])
    else if IsLineBreak(s[0]) then [""] + SplitLines(s[1..])
    else
      var rest := SplitLines(s[1..]);
      [[s[0]] + rest[0]] + rest[1..]
  }

  /** A string without line breaks is one line. */
  lemma {:induction false} SplitLinesSingle(s: string)
    requires NoLineBreak(s)
    ensures SplitLines(s) == [s]
  {
    if s != [] {
      SplitLinesSingle(s[1..]);
      assert [s[0]] + s[1..] == s;
    }
  }

  /** `lines.join('\n')`. */
  function JoinLines(lines: seq<string>): string
    requires |lines| > 0
  {
    if |lines| == 1 then lines[0] else lines[0] + "\n" + JoinLines(lines[1..])
  }

  /** Every `\r\n` and every lone `\r` replaced by `\n`. */
  function NormalizeBreaks(s: string): string
  {
    if s == [] then []
    else if |s| >= 2 && s[0] == '\r' && s[1] == '\n' then "\n" + NormalizeBreaks(s[2..])
    else if IsLineBreak(s[0]) then "\n" + NormalizeBreaks(s[1..])
    else [s[0]] + NormalizeBreaks(s[1..])
  }

  /** Joining the split lines with `\n` gives back the text, with its line breaks normalised. */
  lemma {:induction false} JoinSplitLines(s: string)
    ensures JoinLines(SplitLines(s)) == NormalizeBreaks(s)
  {
    if s == [] {
    } else if |s| >= 2 && s[0] == '\r' && s[1] == '\n' {
      JoinSplitLines(s[2..]);
    } else if IsLineBreak(s[0]) {
      JoinSplitLines(s[1..]);
    } else {
      JoinSplitLines(s[1..]);
      var rest := SplitLines(s[1..]);
      assert SplitLines(s) == [[s[0]] + rest[0]] + rest[1..];
      JoinConsLine(s[0], rest);
    }
  }

  /** A character put in front of the first line comes first in the joined text. */
  lemma JoinConsLine(c: char, rest: seq<string>)
    requires |rest| > 0
    ensures JoinLines([[c] + rest[0]] + rest[1..]) == [c] + JoinLines(rest)
  {
    var r := [[c] + rest[0]] + rest[1..];
    if |rest| > 1 {
      assert r[1..] == rest[1..];
      assert JoinLines(r) == [c] + rest[0] + "\n" + JoinLines(rest[1..]);
    }
  }

  // ---------------------------------------------------------------------------------------
  // The whitespace-only child test /^[ \t]*[\r\n][ \t\r\n]*$/

  /** The regular expression, read literally: blanks, one line break, then blanks and breaks. */
  ghost predicate MatchesBlankLineBreak(s: string)
  {
    exists k :: 0 <= k < |s| && AllBlanks(s[..k]) && IsLineBreak(s[k])
      && forall j :: k < j < |s| ==> IsBlank(s[j]) || IsLineBreak(s[j])
  }

  /** The same language, as the filter evaluates it: only blanks and breaks, and some break. */
  predicate IsBlankLineBreak(s: string)
  {
    (forall i :: 0 <= i < |s| ==> IsBlank(s[i]) || IsLineBreak(s[i]))
    && exists i :: 0 <= i < |s| && IsLineBreak(s[i])
  }

  function FirstLineBreak(s: string, from: nat): (k: nat)
    requires from <= |s|
    requires exists i :: from <= i < |s| && IsLineBreak(s[i])
    ensures from <= k < |s| && IsLineBreak(s[k])
    ensures forall j :: from <= j < k ==> !IsLineBreak(s[j])
    decreases |s| - from
  {
    if IsLineBreak(s[from]) then from else FirstLineBreak(s, from + 1)
  }

  lemma BlankLineBreakRegex(s: string)
    ensures IsBlankLineBreak(s) <==> MatchesBlankLineBreak(s)
  {
    if IsBlankLineBreak(s) {
      var k := FirstLineBreak(s, 0);
      assert AllBlanks(s[..k]);
    }
    if MatchesBlankLineBreak(s) {
      var k :| 0 <= k < |s| && AllBlanks(s[..k]) && IsLineBreak(s[k])
        && forall j :: k < j < |s| ==> IsBlank(s[j]) || IsLineBreak(s[j]);
      forall i | 0 <= i < |s| ensures IsBlank(s[i]) || IsLineBreak(s[i]) {
        if i < k { assert s[..k][i] == s[i]; }
      }
    }
  }
}
