/**
 * The props argument of one element as a whole (lib/visitor.js:77-179): the visitor writes it
 * attribute by attribute, and the lemmas here show what the pieces add up to. The text is
 * described by a list of marks: the braces and separators the visitor writes, the source text it
 * copies between attributes, and the text of each attribute. `PropsOutput` shows that the
 * visitor writes exactly the marks of `PropsMarks`, and `PropsGrouped` what shape those marks
 * have: one `spreadFn(...)` call whose arguments are object groups and spread arguments in
 * source order, or a single object literal.
 */
module PropsGroups {
  import opened Base
  import opened Text
  import opened JsxAst
  import opened Emit
  import opened Visitor
  import opened VisitorProps

  /** A piece of the props text: `{`, `}`, `, `, the source before attribute `i` as the visitor
      copies it, the text of attribute `i`, and the source after the last attribute up to the
      end of the opening element. */
  datatype Mark = OpenGroup | CloseGroup | Comma | Gap(i: nat) | Item(i: nat) | EndGap

  /** The marks of attribute `i`: a spread that starts a run of spreads closes the open group
      (`}, `), a plain attribute after a spread opens one (`{`), after the source before it. */
  function AttributeMarks(attrs: seq<Attribute>, i: nat): seq<Mark>
    requires i < |attrs|
  {
    var prev := PreviousWasSpread(attrs, i);
    if attrs[i].SpreadAttribute? then
      (if prev then [] else [CloseGroup] + [Comma]) + ([Gap(i)] + [Item(i)])
    else
      [Gap(i)] + ((if prev then [OpenGroup] else []) + [Item(i)])
  }

  /** The marks of the attributes from `i` on. */
  function Marks(attrs: seq<Attribute>, i: nat): seq<Mark>
    requires i <= |attrs|
    decreases |attrs| - i
  {
    if i == |attrs| then [] else AttributeMarks(attrs, i) + Marks(attrs, i + 1)
  }

  /** The marks of the whole props argument: the group `OpenProps` opens, the attributes, the
      rest of the opening element, and the group `CloseProps` closes. */
  function PropsMarks(attrs: seq<Attribute>): seq<Mark>
  {
    (if |attrs| > 0 then [OpenGroup] else []) + Marks(attrs, 0) + [EndGap]
      + (if |attrs| > 0 && !PreviousWasSpread(attrs, |attrs|) then [CloseGroup] else [])
  }

  // ---------------------------------------------------------------------------------------
  // The shape of the marks

  /** One mark read at group depth `d` (1 inside an object literal): a group opens only at depth
      0 and closes only at depth 1, a plain attribute is read inside a group and a spread outside
      any; `None` when the mark breaks these rules. */
  function Step(attrs: seq<Attribute>, m: Mark, d: nat): Option<nat>
  {
    match m
    case OpenGroup => if d == 0 then Some(1) else None
    case CloseGroup => if d == 1 then Some(0) else None
    case Item(i) => if i < |attrs| && (d == 1 <==> attrs[i].PlainAttribute?) then Some(d) else None
    case _ => Some(d)
  }

  /** The depth after reading all of `ms` from depth `d`, `None` if some mark breaks the rules. */
  function Walk(attrs: seq<Attribute>, ms: seq<Mark>, d: nat): Option<nat>
    decreases |ms|
  {
    if ms == [] then Some(d)
    else match Step(attrs, ms[0], d)
      case None => None
      case Some(d1) => Walk(attrs, ms[1..], d1)
  }

  /** The attribute indices of the items, in the order they are written. */
  function ItemsOf(ms: seq<Mark>): seq<nat>
    decreases |ms|
  {
    if ms == [] then [] else (if ms[0].Item? then [ms[0].i] else []) + ItemsOf(ms[1..])
  }

  /** `[lo, lo + 1, ..., hi - 1]`. */
  function Upto(lo: nat, hi: nat): (r: seq<nat>)
    ensures |r| == if lo <= hi then hi - lo else 0
    ensures forall k :: 0 <= k < |r| ==> r[k] == lo + k
    decreases hi - lo
  {
    if lo >= hi then [] else [lo] + Upto(lo + 1, hi)
  }

  /** The depth before the marks of attribute `i`: inside a group unless a spread came last. */
  function DepthBefore(attrs: seq<Attribute>, i: nat): nat
    requires i <= |attrs|
  {
    if PreviousWasSpread(attrs, i) then 0 else 1
  }

  lemma {:induction false} WalkConcat(attrs: seq<Attribute>, s: seq<Mark>, t: seq<Mark>, d: nat)
    ensures Walk(attrs, s + t, d) == match Walk(attrs, s, d) case None => None case Some(d1) => Walk(attrs, t, d1)
    decreases |s|
  {
    if s == [] {
      assert s + t == t;
    } else {
      assert (s + t)[0] == s[0];
      assert (s + t)[1..] == s[1..] + t;
      match Step(attrs, s[0], d)
      case None =>
      case Some(d1) => WalkConcat(attrs, s[1..], t, d1);
    }
  }

  lemma {:induction false} ItemsOfConcat(s: seq<Mark>, t: seq<Mark>)
    ensures ItemsOf(s + t) == ItemsOf(s) + ItemsOf(t)
    decreases |s|
  {
    if s == [] {
      assert s + t == t;
    } else {
      assert (s + t)[0] == s[0];
      assert (s + t)[1..] == s[1..] + t;
      ItemsOfConcat(s[1..], t);
    }
  }

  lemma WalkOne(attrs: seq<Attribute>, m: Mark, d: nat)
    ensures Walk(attrs, [m], d) == Step(attrs, m, d)
  {
    assert [m][1..] == [];
  }

  lemma ItemsOne(m: Mark)
    ensures ItemsOf([m]) == if m.Item? then [m.i] else []
  {
    assert [m][1..] == [];
  }

  /** The marks of one attribute keep the rules and carry the depth from before it to before the
      next one; their only item is the attribute's own. */
  lemma AttributeMarksWalk(attrs: seq<Attribute>, i: nat)
    requires i < |attrs|
    ensures Walk(attrs, AttributeMarks(attrs, i), DepthBefore(attrs, i)) == Some(DepthBefore(attrs, i + 1))
    ensures ItemsOf(AttributeMarks(attrs, i)) == [i]
  {
    var prev := PreviousWasSpread(attrs, i);
    var d := DepthBefore(attrs, i);
    var d1 := DepthBefore(attrs, i + 1);
    if attrs[i].SpreadAttribute? {
      var lead: seq<Mark> := if prev then [] else [CloseGroup] + [Comma];
      var tail := [Gap(i)] + [Item(i)];
      assert d1 == 0;
      assert Walk(attrs, lead, d) == Some(0) by {
        if !prev {
          WalkConcat(attrs, [CloseGroup], [Comma], d);
          WalkOne(attrs, CloseGroup, d);
          WalkOne(attrs, Comma, 0);
        }
      }
      assert Walk(attrs, tail, 0) == Some(0) by {
        WalkConcat(attrs, [Gap(i)], [Item(i)], 0);
        WalkOne(attrs, Gap(i), 0);
        WalkOne(attrs, Item(i), 0);
      }
      WalkConcat(attrs, lead, tail, d);
      assert ItemsOf(lead) == [] by {
        if !prev {
          ItemsOfConcat([CloseGroup], [Comma]);
          ItemsOne(CloseGroup);
          ItemsOne(Comma);
        }
      }
      ItemsOfConcat([Gap(i)], [Item(i)]);
      ItemsOne(Gap(i));
      ItemsOne(Item(i));
      ItemsOfConcat(lead, tail);
    } else {
      var mid: seq<Mark> := if prev then [OpenGroup] else [];
      var tail := mid + [Item(i)];
      assert d1 == 1;
      assert Walk(attrs, tail, d) == Some(1) by {
        WalkConcat(attrs, mid, [Item(i)], d);
        if prev {
          WalkOne(attrs, OpenGroup, d);
        }
        WalkOne(attrs, Item(i), 1);
      }
      WalkOne(attrs, Gap(i), d);
      WalkConcat(attrs, [Gap(i)], tail, d);
      assert ItemsOf(mid) == [] by {
        if prev {
          ItemsOne(OpenGroup);
        }
      }
      ItemsOfConcat(mid, [Item(i)]);
      ItemsOne(Gap(i));
      ItemsOne(Item(i));
      ItemsOfConcat([Gap(i)], tail);
    }
  }

  lemma {:induction false} MarksWalk(attrs: seq<Attribute>, i: nat)
    requires i <= |attrs|
    ensures Walk(attrs, Marks(attrs, i), DepthBefore(attrs, i)) == Some(DepthBefore(attrs, |attrs|))
    ensures ItemsOf(Marks(attrs, i)) == Upto(i, |attrs|)
    decreases |attrs| - i, 1
  {
    if i < |attrs| {
      MarksWalkNext(attrs, i);
    } else {
      MarksWalkEnd(attrs);
    }
  }

  /** The walk from attribute `i` on, when there is one: the attributes after it, then it. */
  lemma {:induction false} MarksWalkNext(attrs: seq<Attribute>, i: nat)
    requires i < |attrs|
    ensures Walk(attrs, Marks(attrs, i), DepthBefore(attrs, i)) == Some(DepthBefore(attrs, |attrs|))
    ensures ItemsOf(Marks(attrs, i)) == Upto(i, |attrs|)
    decreases |attrs| - i, 0
  {
    MarksWalk(attrs, i + 1);
    MarksWalkStep(attrs, i);
  }

  lemma MarksWalkEnd(attrs: seq<Attribute>)
    ensures Walk(attrs, Marks(attrs, |attrs|), DepthBefore(attrs, |attrs|)) == Some(DepthBefore(attrs, |attrs|))
    ensures ItemsOf(Marks(attrs, |attrs|)) == Upto(|attrs|, |attrs|)
  {
  }

  /** The walk over attribute `i` joins the walk over the attributes after it. */
  lemma MarksWalkStep(attrs: seq<Attribute>, i: nat)
    requires i < |attrs|
    requires Walk(attrs, Marks(attrs, i + 1), DepthBefore(attrs, i + 1)) == Some(DepthBefore(attrs, |attrs|))
    requires ItemsOf(Marks(attrs, i + 1)) == Upto(i + 1, |attrs|)
    ensures Walk(attrs, Marks(attrs, i), DepthBefore(attrs, i)) == Some(DepthBefore(attrs, |attrs|))
    ensures ItemsOf(Marks(attrs, i)) == Upto(i, |attrs|)
  {
    var head, rest := AttributeMarks(attrs, i), Marks(attrs, i + 1);
    assert Marks(attrs, i) == head + rest;
    AttributeMarksWalk(attrs, i);
    WalkConcat(attrs, head, rest, DepthBefore(attrs, i));
    ItemsOfConcat(head, rest);
  }

  /** Without a spread only the attributes' own source and text lie between the two braces. */
  lemma {:induction false} MarksWithoutSpread(attrs: seq<Attribute>, i: nat)
    requires i <= |attrs| && !HasSpread(attrs)
    ensures forall m :: m in Marks(attrs, i) ==> m.Gap? || m.Item?
    decreases |attrs| - i
  {
    if i < |attrs| {
      assert !attrs[i].SpreadAttribute?;
      assert !PreviousWasSpread(attrs, i) by {
        if i > 0 {
          assert !attrs[i - 1].SpreadAttribute?;
        }
      }
      assert AttributeMarks(attrs, i) == [Gap(i)] + ([] + [Item(i)]);
      MarksWithoutSpread(attrs, i + 1);
    }
  }

  /** The shape of the props argument. Read from outside any group, the marks keep the rules of
      `Step` and end outside any group: groups never nest and all are closed, every `key: value`
      is written inside a group and every spread argument outside. Every attribute is written
      once, in source order. A leading spread follows an empty group (`{}, `). Without a spread
      the props are one object literal: no brace but the first and the last. */
  lemma PropsGrouped(attrs: seq<Attribute>)
    ensures Walk(attrs, PropsMarks(attrs), 0) == Some(0)
    ensures ItemsOf(PropsMarks(attrs)) == Upto(0, |attrs|)
    ensures |attrs| > 0 && attrs[0].SpreadAttribute? ==> var ms := PropsMarks(attrs);
      |ms| >= 3 && ms[0] == OpenGroup && ms[1] == CloseGroup && ms[2] == Comma
    ensures |attrs| > 0 && !HasSpread(attrs) ==> var ms := PropsMarks(attrs);
      && ms[0] == OpenGroup && ms[|ms| - 1] == CloseGroup
      && forall k :: 0 < k < |ms| - 1 ==> ms[k] != OpenGroup && ms[k] != CloseGroup
  {
    PropsWalk(attrs);
    PropsItems(attrs);
    if |attrs| > 0 && attrs[0].SpreadAttribute? {
      LeadingSpread(attrs);
    }
    if |attrs| > 0 && !HasSpread(attrs) {
      SingleObject(attrs);
    }
  }

  /** `PropsMarks` split at its parts. */
  lemma PropsMarksParts(attrs: seq<Attribute>)
    ensures var n := |attrs|;
      PropsMarks(attrs) ==
        (if n > 0 then [OpenGroup] else []) + Marks(attrs, 0) + [EndGap]
          + (if n > 0 && !PreviousWasSpread(attrs, n) then [CloseGroup] else [])
  {
  }

  lemma PropsWalk(attrs: seq<Attribute>)
    ensures Walk(attrs, PropsMarks(attrs), 0) == Some(0)
  {
    var n := |attrs|;
    var open: seq<Mark> := if n > 0 then [OpenGroup] else [];
    var close: seq<Mark> := if n > 0 && !PreviousWasSpread(attrs, n) then [CloseGroup] else [];
    var body := Marks(attrs, 0);
    var dn := DepthBefore(attrs, n);
    PropsMarksParts(attrs);
    if n == 0 {
      assert PropsMarks(attrs) == [EndGap];
      WalkOne(attrs, EndGap, 0);
      return;
    }
    assert Walk(attrs, open, 0) == Some(DepthBefore(attrs, 0)) by {
      WalkOne(attrs, OpenGroup, 0);
    }
    assert Walk(attrs, body, DepthBefore(attrs, 0)) == Some(dn) by {
      MarksWalk(attrs, 0);
    }
    assert Walk(attrs, close, dn) == Some(0) by {
      if close != [] {
        WalkOne(attrs, CloseGroup, 1);
      } else if n > 0 {
        assert dn == 0;
      }
    }
    WalkOne(attrs, EndGap, dn);
    WalkConcat(attrs, open, body, 0);
    WalkConcat(attrs, open + body, [EndGap], 0);
    WalkConcat(attrs, open + body + [EndGap], close, 0);
  }

  lemma PropsItems(attrs: seq<Attribute>)
    ensures ItemsOf(PropsMarks(attrs)) == Upto(0, |attrs|)
  {
    var n := |attrs|;
    var open: seq<Mark> := if n > 0 then [OpenGroup] else [];
    var close: seq<Mark> := if n > 0 && !PreviousWasSpread(attrs, n) then [CloseGroup] else [];
    var body := Marks(attrs, 0);
    var items := Upto(0, n);
    PropsMarksParts(attrs);
    assert ItemsOf(open + body) == items by {
      MarksWalk(attrs, 0);
      ItemsOfConcat(open, body);
      if n > 0 {
        ItemsOne(OpenGroup);
      }
      EmptyLeft(items);
    }
    assert ItemsOf(open + body + [EndGap]) == items by {
      ItemsOne(EndGap);
      ItemsOfConcat(open + body, [EndGap]);
      EmptyRight(items);
    }
    assert ItemsOf(open + body + [EndGap] + close) == items by {
      if close != [] {
        ItemsOne(CloseGroup);
      }
      ItemsOfConcat(open + body + [EndGap], close);
      EmptyRight(items);
    }
  }

  lemma EmptyLeft<T>(s: seq<T>)
    ensures [] + s == s
  {
  }

  lemma EmptyRight<T>(s: seq<T>)
    ensures s + [] == s
  {
  }

  lemma LeadingSpread(attrs: seq<Attribute>)
    requires |attrs| > 0 && attrs[0].SpreadAttribute?
    ensures var ms := PropsMarks(attrs);
      |ms| >= 3 && ms[0] == OpenGroup && ms[1] == CloseGroup && ms[2] == Comma
  {
    var n := |attrs|;
    var close: seq<Mark> := if !PreviousWasSpread(attrs, n) then [CloseGroup] else [];
    var first := AttributeMarks(attrs, 0);
    assert first == ([CloseGroup] + [Comma]) + ([Gap(0)] + [Item(0)]);
    var ms := [OpenGroup] + (first + Marks(attrs, 1)) + [EndGap] + close;
    PropsMarksParts(attrs);
    assert PropsMarks(attrs) == ms;
    assert first[0] == CloseGroup && first[1] == Comma;
  }

  lemma SingleObject(attrs: seq<Attribute>)
    requires |attrs| > 0 && !HasSpread(attrs)
    ensures var ms := PropsMarks(attrs);
      && ms[0] == OpenGroup && ms[|ms| - 1] == CloseGroup
      && forall k :: 0 < k < |ms| - 1 ==> ms[k] != OpenGroup && ms[k] != CloseGroup
  {
    var n := |attrs|;
    var body := Marks(attrs, 0);
    MarksWithoutSpread(attrs, 0);
    assert !PreviousWasSpread(attrs, n) by {
      assert !attrs[n - 1].SpreadAttribute?;
    }
    PropsMarksParts(attrs);
    var ms := PropsMarks(attrs);
    assert ms == [OpenGroup] + body + [EndGap] + [CloseGroup];
    forall k | 0 < k < |ms| - 1
      ensures ms[k] != OpenGroup && ms[k] != CloseGroup
    {
      if k - 1 < |body| {
        assert ms[k] == body[k - 1];
        assert body[k - 1] in body;
      } else {
        assert ms[k] == EndGap;
      }
    }
  }

  // ---------------------------------------------------------------------------------------
  // The text of the marks

  /** Where the source before attribute `i` starts: the end of the one before, or `pos`. */
  function PrevEnd(attrs: seq<Attribute>, pos: int, i: nat): int
    requires i <= |attrs|
  {
    if i == 0 then pos else attrs[i - 1].range.end
  }

  /** Attribute `i` lies after the one before it, inside the source, as the parser places it;
      a plain one has no namespace, and no spread argument or container holds JSX. The props may
      start at a `pos` past the first attribute's start: the head of a pattern moves by the
      length the pattern adds to the name (lib/visitor.js:70-73). */
  ghost predicate AttributePlaced(src: string, attrs: seq<Attribute>, pos: int, i: nat)
    requires i < |attrs|
  {
    var a := attrs[i];
    && 0 <= PrevEnd(attrs, pos, i) && 0 <= a.range.start
    && (i > 0 ==> PrevEnd(attrs, pos, i) <= a.range.start)
    && (a.SpreadAttribute? ==> SpreadPlaced(src, a))
    && (a.PlainAttribute? ==>
          && a.namespace.None? && a.range.start <= a.range.end
          && ValuePlaced(src, a.value, a.nameRange.end, a.range.end))
  }

  /** Every attribute of `e` is placed, from `pos` on; the rest of the opening element lies
      inside the source. */
  ghost predicate AttrsPlaced(src: string, e: Element, pos: int)
  {
    var attrs := e.attributes;
    && 0 <= pos
    && (forall i :: 0 <= i < |attrs| ==> AttributePlaced(src, attrs, pos, i))
    && (!e.closing.SelfClosing? ==> 0 <= e.opening.end - 1 <= |src|)
  }

  /** The source from `lo` to `hi` as a catchup from `lo` copies it through `f`: nothing when
      `lo` is already past `hi`. */
  function Between(src: string, lo: int, hi: int, f: Filter): string
    requires 0 <= lo && 0 <= hi <= |src|
  {
    if lo <= hi then f.Apply(src[lo..hi]) else ""
  }

  /** The source before attribute `i` as the visitor copies it: only its parentheses before a
      spread, trimmed of leading spaces before a plain attribute. */
  function GapText(src: string, e: Element, pos: int, i: nat): string
    requires AttrsPlaced(src, e, pos) && i < |e.attributes|
  {
    var attrs := e.attributes;
    assert AttributePlaced(src, attrs, pos, i);
    Between(src, PrevEnd(attrs, pos, i), attrs[i].range.start,
      if attrs[i].SpreadAttribute? then StripNonParenFilter else TrimLeftFilter)
  }

  /** A catchup writes `Between` its cursor and its target. */
  lemma CatchupBetween(src: string, c: Cursor, end: int, f: Filter)
    requires 0 <= c.position && 0 <= end <= |src|
    ensures c.Catchup(src, end, f).buffer == c.buffer + Between(src, c.position, end, f)
  {
    if end < c.position {
      assert c.buffer + "" == c.buffer;
    }
  }

  /** The text of attribute `i` itself: the spread's text, or the key, `: ` and the value. */
  function ItemText(src: string, attrs: seq<Attribute>, i: nat): string
    requires i < |attrs|
    requires attrs[i].SpreadAttribute? ==> SpreadBounds(src, attrs[i])
    requires attrs[i].PlainAttribute? ==> ValuePlaced(src, attrs[i].value, attrs[i].nameRange.end, attrs[i].range.end)
  {
    var a := attrs[i];
    if a.SpreadAttribute? then SpreadText(src, a, i == |attrs| - 1)
    else QuoteJSObjKey(a.name) + ": " + ValueText(src, a.value, a.nameRange.end, a.range.end, LastBeforeSpread(attrs, i))
  }

  /** The rest of the opening element after the last attribute, trimmed of leading spaces. */
  function TailText(src: string, e: Element, pos: int): string
    requires AttrsPlaced(src, e, pos)
  {
    if e.closing.SelfClosing? then "" else Between(src, PrevEnd(e.attributes, pos, |e.attributes|), e.opening.end - 1, TrimLeftFilter)
  }

  /** The text of every piece of the props: `gaps[i]` for the source before attribute `i`,
      `items[i]` for the attribute itself, `tail` for the rest of the opening element. */
  datatype Texts = Texts(gaps: seq<string>, items: seq<string>, tail: string)

  ghost predicate GapIs(src: string, e: Element, pos: int, tx: Texts, i: nat)
    requires AttrsPlaced(src, e, pos) && i < |e.attributes| && i < |tx.gaps|
  {
    tx.gaps[i] == GapText(src, e, pos, i)
  }

  ghost predicate ItemIs(src: string, e: Element, pos: int, tx: Texts, i: nat)
    requires AttrsPlaced(src, e, pos) && i < |e.attributes| && i < |tx.items|
  {
    assert AttributePlaced(src, e.attributes, pos, i);
    tx.items[i] == ItemText(src, e.attributes, i)
  }

  /** `tx` holds the texts of the attributes of `e`, placed in `src` from `pos` on. */
  ghost predicate TextsOf(src: string, e: Element, pos: int, tx: Texts)
  {
    && AttrsPlaced(src, e, pos)
    && |tx.gaps| == |e.attributes| && |tx.items| == |e.attributes|
    && tx.tail == TailText(src, e, pos)
    && (forall i :: 0 <= i < |e.attributes| ==> GapIs(src, e, pos, tx, i) && ItemIs(src, e, pos, tx, i))
  }

  /** `TextsOf`, as one fact to pass on. */
  ghost predicate TextsReady(src: string, e: Element, pos: int, tx: Texts)
  {
    TextsOf(src, e, pos, tx)
  }

  /** The texts of placed attributes, as the source gives them. */
  ghost function SourceTexts(src: string, e: Element, pos: int): (tx: Texts)
    requires AttrsPlaced(src, e, pos)
    ensures TextsOf(src, e, pos, tx)
  {
    var n := |e.attributes|;
    Texts(seq(n, i requires 0 <= i < n => GapText(src, e, pos, i)),
      seq(n, i requires 0 <= i < n => assert AttributePlaced(src, e.attributes, pos, i); ItemText(src, e.attributes, i)),
      TailText(src, e, pos))
  }

  function RenderMark(tx: Texts, m: Mark): string
  {
    match m
    case OpenGroup => "{"
    case CloseGroup => "}"
    case Comma => ", "
    case Gap(i) => if i < |tx.gaps| then tx.gaps[i] else ""
    case Item(i) => if i < |tx.items| then tx.items[i] else ""
    case EndGap => tx.tail
  }

  function Render(tx: Texts, ms: seq<Mark>): string
    decreases |ms|
  {
    if ms == [] then "" else RenderMark(tx, ms[0]) + Render(tx, ms[1..])
  }

  lemma {:induction false} RenderConcat(tx: Texts, s: seq<Mark>, t: seq<Mark>)
    ensures Render(tx, s + t) == Render(tx, s) + Render(tx, t)
    decreases |s|
  {
    if s == [] {
      EmptyLeft(t);
    } else {
      ConsConcat(s, t);
      RenderConcat(tx, s[1..], t);
      Associate3(RenderMark(tx, s[0]), Render(tx, s[1..]), Render(tx, t));
    }
  }

  lemma ConsConcat<T>(s: seq<T>, t: seq<T>)
    requires s != []
    ensures s + t != [] && (s + t)[0] == s[0] && (s + t)[1..] == s[1..] + t
  {
  }

  lemma RenderOne(tx: Texts, m: Mark)
    ensures Render(tx, [m]) == RenderMark(tx, m)
  {
    assert [m][1..] == [];
  }

  // ---------------------------------------------------------------------------------------
  // The visitor writes the marks

  /** The callback of a spread attribute, from the end of the attribute before. */
  lemma SpreadStep(src: string, cfg: Config, e: Element, pos: int, tx: Texts, i: nat, b: string)
    requires TextsOf(src, e, pos, tx) && i < |e.attributes| && e.attributes[i].SpreadAttribute?
    ensures VisitAttribute(src, cfg, Cursor(PrevEnd(e.attributes, pos, i), b), e, i) ==
      Ok(Cursor(e.attributes[i].range.end, b + (if PreviousWasSpread(e.attributes, i) then "" else "}, ")
        + tx.gaps[i] + tx.items[i]))
  {
    var attrs := e.attributes;
    var a := attrs[i];
    var c := Cursor(PrevEnd(attrs, pos, i), b);
    var prev := PreviousWasSpread(attrs, i);
    var isLast := i == |attrs| - 1;
    assert AttributePlaced(src, attrs, pos, i);
    assert GapIs(src, e, pos, tx, i) && ItemIs(src, e, pos, tx, i);
    var lead := if prev then "" else "}, ";
    var c1 := c.AppendIf(!prev, "}, ").Catchup(src, a.range.start, StripNonParenFilter);
    assert c1.buffer == b + lead + tx.gaps[i] by {
      assert GapText(src, e, pos, i) == Between(src, c.position, a.range.start, StripNonParenFilter);
      CatchupBetween(src, c.AppendIf(!prev, "}, "), a.range.start, StripNonParenFilter);
    }
    assert VisitAttribute(src, cfg, c, e, i) == Spread(src, cfg, c, a.range, a.argument, prev, isLast);
    SpreadOutput(src, cfg, c, a, prev, isLast);
  }

  /** The callback of a plain attribute, from the end of the attribute before. */
  lemma PlainStep(src: string, cfg: Config, e: Element, pos: int, tx: Texts, i: nat, b: string)
    requires TextsOf(src, e, pos, tx) && i < |e.attributes| && e.attributes[i].PlainAttribute?
    ensures VisitAttribute(src, cfg, Cursor(PrevEnd(e.attributes, pos, i), b), e, i) ==
      Ok(Cursor(e.attributes[i].range.end, b + tx.gaps[i]
        + (if PreviousWasSpread(e.attributes, i) then "{" else "") + tx.items[i]))
  {
    assert AttributePlaced(src, e.attributes, pos, i);
    AttributeOutput(src, cfg, Cursor(PrevEnd(e.attributes, pos, i), b), e, i);
    PlainText(src, e, pos, tx, i, b);
  }

  lemma PlainText(src: string, e: Element, pos: int, tx: Texts, i: nat, b: string)
    requires TextsOf(src, e, pos, tx) && i < |e.attributes| && e.attributes[i].PlainAttribute?
    requires AttributePlaced(src, e.attributes, pos, i)
    ensures var attrs, a := e.attributes, e.attributes[i];
      var prev := PreviousWasSpread(attrs, i);
      Cursor(PrevEnd(attrs, pos, i), b).Catchup(src, a.range.start, TrimLeftFilter).buffer
        + AttributeText(src, a, prev, LastBeforeSpread(attrs, i)) ==
      b + tx.gaps[i] + (if prev then "{" else "") + tx.items[i]
  {
    var attrs, a := e.attributes, e.attributes[i];
    var prev := PreviousWasSpread(attrs, i);
    var c := Cursor(PrevEnd(attrs, pos, i), b);
    var open := if prev then "{" else "";
    var k, v := QuoteJSObjKey(a.name), ValueText(src, a.value, a.nameRange.end, a.range.end, LastBeforeSpread(attrs, i));
    assert c.Catchup(src, a.range.start, TrimLeftFilter).buffer == b + tx.gaps[i] by {
      assert GapIs(src, e, pos, tx, i);
      CatchupBetween(src, c, a.range.start, TrimLeftFilter);
    }
    assert tx.items[i] == k + ": " + v by {
      assert ItemIs(src, e, pos, tx, i);
    }
    assert AttributeText(src, a, prev, LastBeforeSpread(attrs, i)) == open + k + ": " + v;
    OpenKeyValue(b + tx.gaps[i], open, k, v);
  }

  lemma OpenKeyValue(b: string, open: string, k: string, v: string)
    ensures b + (open + k + ": " + v) == b + open + (k + ": " + v)
  {
  }

  /** One attribute callback, from the end of the attribute before, writes the text of the
      attribute's marks and moves to its end. */
  lemma AttributeStep(src: string, cfg: Config, e: Element, pos: int, tx: Texts, i: nat, b: string)
    requires TextsOf(src, e, pos, tx) && i < |e.attributes|
    ensures VisitAttribute(src, cfg, Cursor(PrevEnd(e.attributes, pos, i), b), e, i) ==
      Ok(Cursor(e.attributes[i].range.end, b + Render(tx, AttributeMarks(e.attributes, i))))
  {
    if e.attributes[i].SpreadAttribute? {
      SpreadAttributeStep(src, cfg, e, pos, tx, i, b);
    } else {
      PlainAttributeStep(src, cfg, e, pos, tx, i, b);
    }
  }

  lemma SpreadAttributeStep(src: string, cfg: Config, e: Element, pos: int, tx: Texts, i: nat, b: string)
    requires TextsOf(src, e, pos, tx) && i < |e.attributes| && e.attributes[i].SpreadAttribute?
    ensures VisitAttribute(src, cfg, Cursor(PrevEnd(e.attributes, pos, i), b), e, i) ==
      Ok(Cursor(e.attributes[i].range.end, b + Render(tx, AttributeMarks(e.attributes, i))))
  {
    var lead := if PreviousWasSpread(e.attributes, i) then "" else "}, ";
    assert b + Render(tx, AttributeMarks(e.attributes, i)) == b + lead + tx.gaps[i] + tx.items[i] by {
      SpreadMarksText(tx, e.attributes, i);
      Associate(b, lead, tx.gaps[i], tx.items[i]);
    }
    SpreadStep(src, cfg, e, pos, tx, i, b);
  }

  lemma PlainAttributeStep(src: string, cfg: Config, e: Element, pos: int, tx: Texts, i: nat, b: string)
    requires TextsOf(src, e, pos, tx) && i < |e.attributes| && e.attributes[i].PlainAttribute?
    ensures VisitAttribute(src, cfg, Cursor(PrevEnd(e.attributes, pos, i), b), e, i) ==
      Ok(Cursor(e.attributes[i].range.end, b + Render(tx, AttributeMarks(e.attributes, i))))
  {
    PlainMarksText(tx, e.attributes, i, b);
    PlainStep(src, cfg, e, pos, tx, i, b);
  }

  lemma SpreadMarksText(tx: Texts, attrs: seq<Attribute>, i: nat)
    requires i < |attrs| && attrs[i].SpreadAttribute? && i < |tx.gaps| && i < |tx.items|
    ensures Render(tx, AttributeMarks(attrs, i)) ==
      (if PreviousWasSpread(attrs, i) then "" else "}, ") + (tx.gaps[i] + tx.items[i])
  {
    var prev := PreviousWasSpread(attrs, i);
    var lead: seq<Mark> := if prev then [] else [CloseGroup] + [Comma];
    var tail := [Gap(i)] + [Item(i)];
    assert Render(tx, tail) == tx.gaps[i] + tx.items[i] by {
      RenderConcat(tx, [Gap(i)], [Item(i)]);
      RenderOne(tx, Gap(i));
      RenderOne(tx, Item(i));
    }
    assert Render(tx, lead) == if prev then "" else "}, " by {
      if !prev {
        RenderConcat(tx, [CloseGroup], [Comma]);
        RenderOne(tx, CloseGroup);
        RenderOne(tx, Comma);
      }
    }
    RenderConcat(tx, lead, tail);
  }

  lemma PlainMarksText(tx: Texts, attrs: seq<Attribute>, i: nat, b: string)
    requires i < |attrs| && attrs[i].PlainAttribute? && i < |tx.gaps| && i < |tx.items|
    ensures b + Render(tx, AttributeMarks(attrs, i)) ==
      b + tx.gaps[i] + (if PreviousWasSpread(attrs, i) then "{" else "") + tx.items[i]
  {
    var prev := PreviousWasSpread(attrs, i);
    var mid: seq<Mark> := if prev then [OpenGroup] else [];
    var tail := mid + [Item(i)];
    var o := if prev then "{" else "";
    assert Render(tx, tail) == o + tx.items[i] by {
      RenderConcat(tx, mid, [Item(i)]);
      RenderOne(tx, Item(i));
      if prev {
        RenderOne(tx, OpenGroup);
      }
    }
    RenderConcat(tx, [Gap(i)], tail);
    RenderOne(tx, Gap(i));
    Associate(b, tx.gaps[i], o, tx.items[i]);
  }

  /** An attribute callback that succeeds is followed by the callbacks after it. */
  lemma AttributesUnfold(src: string, cfg: Config, c: Cursor, e: Element, i: nat)
    requires i < |e.attributes| && VisitAttribute(src, cfg, c, e, i).Ok?
    ensures Attributes(src, cfg, c, e, i) == Attributes(src, cfg, VisitAttribute(src, cfg, c, e, i).value, e, i + 1)
  {
  }

  /** The callbacks from attribute `i` on write the text of their marks. */
  lemma {:induction false} AttributesRender(src: string, cfg: Config, e: Element, pos: int, tx: Texts, i: nat, b: string)
    requires TextsReady(src, e, pos, tx) && i <= |e.attributes|
    ensures Attributes(src, cfg, Cursor(PrevEnd(e.attributes, pos, i), b), e, i) ==
      Ok(Cursor(PrevEnd(e.attributes, pos, |e.attributes|), b + Render(tx, Marks(e.attributes, i))))
    decreases |e.attributes| - i, 1
  {
    if i == |e.attributes| {
      AttributesEnd(src, cfg, e, pos, tx, b);
    } else {
      AttributesNext(src, cfg, e, pos, tx, i, b);
    }
  }

  /** The callbacks from attribute `i` on, when there is one: the first, then the rest. */
  lemma {:induction false} AttributesNext(src: string, cfg: Config, e: Element, pos: int, tx: Texts, i: nat, b: string)
    requires TextsReady(src, e, pos, tx) && i < |e.attributes|
    ensures Attributes(src, cfg, Cursor(PrevEnd(e.attributes, pos, i), b), e, i) ==
      Ok(Cursor(PrevEnd(e.attributes, pos, |e.attributes|), b + Render(tx, Marks(e.attributes, i))))
    decreases |e.attributes| - i, 0
  {
    var t := AttributesFirst(src, cfg, e, pos, tx, i, b);
    AttributesRender(src, cfg, e, pos, tx, i + 1, b + t);
  }

  /** After the last attribute nothing more is written. */
  lemma AttributesEnd(src: string, cfg: Config, e: Element, pos: int, tx: Texts, b: string)
    ensures Attributes(src, cfg, Cursor(PrevEnd(e.attributes, pos, |e.attributes|), b), e, |e.attributes|) ==
      Ok(Cursor(PrevEnd(e.attributes, pos, |e.attributes|), b + Render(tx, Marks(e.attributes, |e.attributes|))))
  {
    EmptyRight(b);
  }

  /** The first callback from attribute `i` writes the text of its marks, and the rest follow. */
  lemma AttributesFirst(src: string, cfg: Config, e: Element, pos: int, tx: Texts, i: nat, b: string) returns (t: string)
    requires TextsReady(src, e, pos, tx) && i < |e.attributes|
    ensures t == Render(tx, AttributeMarks(e.attributes, i))
    ensures
      && Attributes(src, cfg, Cursor(PrevEnd(e.attributes, pos, i), b), e, i) ==
           Attributes(src, cfg, Cursor(PrevEnd(e.attributes, pos, i + 1), b + t), e, i + 1)
      && b + t + Render(tx, Marks(e.attributes, i + 1)) == b + Render(tx, Marks(e.attributes, i))
  {
    t := Render(tx, AttributeMarks(e.attributes, i));
    var c := Cursor(PrevEnd(e.attributes, pos, i), b);
    AttributeStep(src, cfg, e, pos, tx, i, b);
    AttributesUnfold(src, cfg, c, e, i);
    MarksText(tx, e.attributes, i, b);
  }

  lemma Associate3(a: string, b: string, c: string)
    ensures a + b + c == a + (b + c)
  {
  }

  lemma MarksText(tx: Texts, attrs: seq<Attribute>, i: nat, b: string)
    requires i < |attrs|
    ensures b + Render(tx, AttributeMarks(attrs, i)) + Render(tx, Marks(attrs, i + 1)) ==
      b + Render(tx, Marks(attrs, i))
  {
    var t, rest := Render(tx, AttributeMarks(attrs, i)), Render(tx, Marks(attrs, i + 1));
    RenderConcat(tx, AttributeMarks(attrs, i), Marks(attrs, i + 1));
    Associate3(b, t, rest);
  }

  /** What comes before the marks: `, ` after a first argument, and the spread call's name. */
  function PropsPrefix(cfg: Config, e: Element): string
  {
    (if |e.attributes| > 0 && SecondArg(cfg, e) then ", " else "")
      + (if HasSpread(e.attributes) then cfg.spreadFn + "(" else "")
  }

  /** Where the props leave the cursor. */
  function PropsEnd(e: Element, pos: int): int
  {
    if e.closing.SelfClosing? then PrevEnd(e.attributes, pos, |e.attributes|) else e.opening.end
  }

  /** `OpenProps` writes the prefix and the group it opens. */
  lemma OpenPropsMarks(cfg: Config, c: Cursor, e: Element, tx: Texts)
    ensures OpenProps(cfg, c, e) == Cursor(c.position, c.buffer + PropsPrefix(cfg, e)
      + Render(tx, if |e.attributes| > 0 then [OpenGroup] else []))
  {
    var pre := PropsPrefix(cfg, e);
    if |e.attributes| > 0 {
      RenderOne(tx, OpenGroup);
      if HasSpread(e.attributes) {
        if SecondArg(cfg, e) {
          assert c.buffer + (", " + cfg.spreadFn + "({") == c.buffer + pre + "{";
        } else {
          assert c.buffer + (cfg.spreadFn + "({") == c.buffer + pre + "{";
        }
      }
    } else {
      assert !HasSpread(e.attributes);
      assert c.buffer + "" + "" == c.buffer;
    }
  }

  /** `CloseProps`, after the last attribute, writes the rest of the opening element, the group
      it closes and the end of the spread call. */
  lemma ClosePropsMarks(src: string, e: Element, pos: int, tx: Texts, b: string)
    requires TextsOf(src, e, pos, tx)
    ensures var n := |e.attributes|;
      CloseProps(src, Cursor(PrevEnd(e.attributes, pos, n), b), e) ==
        Cursor(PropsEnd(e, pos), b + Render(tx, [EndGap])
          + Render(tx, if n > 0 && !PreviousWasSpread(e.attributes, n) then [CloseGroup] else [])
          + (if HasSpread(e.attributes) then ")" else ""))
  {
    var attrs := e.attributes;
    var n := |attrs|;
    var r := Cursor(PrevEnd(attrs, pos, n), b);
    var rg := Render(tx, [EndGap]);
    RenderOne(tx, EndGap);
    var c1 := if e.closing.SelfClosing? then r else r.Catchup(src, e.opening.end - 1, TrimLeftFilter).Move(e.opening.end);
    assert c1 == Cursor(PropsEnd(e, pos), b + rg) by {
      if !e.closing.SelfClosing? {
        CatchupBetween(src, r, e.opening.end - 1, TrimLeftFilter);
      } else {
        assert b + "" == b;
      }
    }
    if n > 0 && !PreviousWasSpread(attrs, n) {
      RenderOne(tx, CloseGroup);
    } else {
      assert b + rg + "" == b + rg;
    }
  }

  /** The whole props argument, from the end of the head: attributes placed as the parser places
      them never throw, and the visitor writes the texts of the marks of `PropsMarks`, inside one
      `spreadFn(...)` call when some attribute is a spread. */
  lemma PropsOutput(src: string, cfg: Config, c: Cursor, e: Element, tx: Texts)
    requires TextsReady(src, e, c.position, tx)
    ensures var r := Attributes(src, cfg, OpenProps(cfg, c, e), e, 0);
      && r.Ok?
      && CloseProps(src, r.value, e) == Cursor(PropsEnd(e, c.position),
           c.buffer + PropsPrefix(cfg, e) + Render(tx, PropsMarks(e.attributes))
             + (if HasSpread(e.attributes) then ")" else ""))
  {
    var attrs := e.attributes;
    var n := |attrs|;
    var pos := c.position;
    var pre := PropsPrefix(cfg, e);
    var open: seq<Mark> := if n > 0 then [OpenGroup] else [];
    var close: seq<Mark> := if n > 0 && !PreviousWasSpread(attrs, n) then [CloseGroup] else [];
    var body := Marks(attrs, 0);
    var ro, rb := Render(tx, open), Render(tx, body);
    var rg, rc := Render(tx, [EndGap]), Render(tx, close);
    var post := if HasSpread(attrs) then ")" else "";
    var o := Cursor(pos, c.buffer + pre + ro);
    assert OpenProps(cfg, c, e) == o by {
      OpenPropsMarks(cfg, c, e, tx);
    }
    var r := Cursor(PrevEnd(attrs, pos, n), c.buffer + pre + ro + rb);
    assert Attributes(src, cfg, o, e, 0) == Ok(r) by {
      assert PrevEnd(attrs, pos, 0) == pos;
      AttributesRender(src, cfg, e, pos, tx, 0, c.buffer + pre + ro);
    }
    assert CloseProps(src, r, e) == Cursor(PropsEnd(e, pos), c.buffer + pre + ro + rb + rg + rc + post) by {
      ClosePropsMarks(src, e, pos, tx, c.buffer + pre + ro + rb);
    }
    assert Render(tx, PropsMarks(attrs)) == ro + rb + rg + rc by {
      PropsRender(tx, attrs);
    }
    Associate4(c.buffer + pre, ro, rb, rg, rc);
  }

  /** The text of `PropsMarks`, part by part. */
  lemma PropsRender(tx: Texts, attrs: seq<Attribute>)
    ensures var n := |attrs|;
      Render(tx, PropsMarks(attrs)) ==
        Render(tx, if n > 0 then [OpenGroup] else []) + Render(tx, Marks(attrs, 0))
          + Render(tx, [EndGap])
          + Render(tx, if n > 0 && !PreviousWasSpread(attrs, n) then [CloseGroup] else [])
  {
    var n := |attrs|;
    var open: seq<Mark> := if n > 0 then [OpenGroup] else [];
    var close: seq<Mark> := if n > 0 && !PreviousWasSpread(attrs, n) then [CloseGroup] else [];
    var body := Marks(attrs, 0);
    PropsMarksParts(attrs);
    RenderConcat(tx, open, body);
    RenderConcat(tx, open + body, [EndGap]);
    RenderConcat(tx, open + body + [EndGap], close);
  }

  // ---------------------------------------------------------------------------------------
  // Before the children

  /** lib/visitor.js:188-210 on the filtered children `cs`: `null` stands for the props exactly
      when there are children and no attributes, `, ` precedes the children exactly when one
      of them renders a value, and `[` opens them exactly when `arrayChildren` is set. Nothing
      moves the cursor. */
  lemma ChildrenOpening(cfg: Config, c: Cursor, e: Element, cs: seq<Child>)
    ensures OpenChildren(cfg, c, e, cs, LastRenderable(cs)) ==
      Cursor(c.position, c.buffer
        + (if |cs| > 0 && |e.attributes| == 0 then (if SecondArg(cfg, e) then ", null" else "null") else "")
        + (if exists j :: 0 <= j < |cs| && Renderable(cs[j]) then ", " else "")
        + (if |cs| > 0 && cfg.arrayChildren then "[" else ""))
  {
    var lri := LastRenderable(cs);
    assert (|cs| > 0 && lri.Some?) <==> exists j :: 0 <= j < |cs| && Renderable(cs[j]) by {
      SomeRenderable(cs);
    }
    ChildrenOpeningText(cfg, c, e, cs, lri);
  }

  lemma SomeRenderable(cs: seq<Child>)
    ensures LastRenderable(cs).Some? <==> exists j :: 0 <= j < |cs| && Renderable(cs[j])
  {
    if LastRenderable(cs).Some? {
      var j := LastRenderable(cs).value;
      assert 0 <= j < |cs| && Renderable(cs[j]);
    }
  }

  lemma ChildrenOpeningText(cfg: Config, c: Cursor, e: Element, cs: seq<Child>, lri: Option<nat>)
    ensures OpenChildren(cfg, c, e, cs, lri) ==
      Cursor(c.position, c.buffer
        + (if |cs| > 0 && |e.attributes| == 0 then (if SecondArg(cfg, e) then ", null" else "null") else "")
        + (if |cs| > 0 && lri.Some? then ", " else "")
        + (if |cs| > 0 && cfg.arrayChildren then "[" else ""))
  {
    if |cs| == 0 {
      assert c.buffer + "" + "" + "" == c.buffer;
    } else {
      var nul := if |e.attributes| == 0 then (if SecondArg(cfg, e) then ", null" else "null") else "";
      var c1 := if |e.attributes| == 0 then c.AppendIf(SecondArg(cfg, e), ", ").Append("null") else c;
      assert c1 == Cursor(c.position, c.buffer + nul) by {
        if |e.attributes| == 0 && SecondArg(cfg, e) {
          assert c.buffer + ", " + "null" == c.buffer + ", null";
        } else if |e.attributes| > 0 {
          assert c.buffer + "" == c.buffer;
        }
      }
      var sep := if lri.Some? then ", " else "";
      var br := if cfg.arrayChildren then "[" else "";
      assert c1.AppendIf(lri.Some?, ", ") == Cursor(c.position, c.buffer + nul + sep);
    }
  }
}
