/**
 * What the output of `visitNode` looks like: where it leaves the cursor, when it throws, the
 * head of the factory call, the unwrapping of `{expression}` containers, and the child filter.
 */
module VisitorProps {
  import opened Base
  import opened Text
  import opened JsxAst
  import opened Emit
  import opened LiteralRender
  import opened Visitor

  // ---------------------------------------------------------------------------------------
  // Where the cursor ends and how the output ends

  /** Every element becomes a call that ends with `)`, and the cursor is left after the opening
      element when it is self-closing, after the closing element otherwise. */
  lemma VisitShape(src: string, cfg: Config, c: Cursor, e: Element)
    ensures var r := Visit(src, cfg, c, e);
      r.Ok? ==> r.value.position == ElementEnd(e) && |r.value.buffer| > 0 && r.value.buffer[|r.value.buffer| - 1] == ')'
  {
  }

  /** `traverse` hands a node to `visitNode` exactly when `visitNode.test` accepts it. */
  lemma TestSelectsVisit(src: string, cfg: Config, c: Cursor, x: Expr)
    ensures Test(x) ==> Traverse(src, cfg, c, x) == Visit(src, cfg, c, x.element)
    ensures !Test(x) && !x.Opaque? ==> Traverse(src, cfg, c, x) == Ok(c)
  {
  }

  /** The children are wrapped in `[` and `]` when `arrayChildren` is set and some child is left
      after filtering: the opening text ends with `[` exactly then, and the call then ends with
      `])`. Nothing before the children moves the cursor. */
  lemma ChildrenBrackets(src: string, cfg: Config, c: Cursor, e: Element, cs: seq<Child>, lri: Option<nat>)
    ensures var o := OpenChildren(cfg, c, e, cs, lri);
      && o.position == c.position && |c.buffer| <= |o.buffer| && o.buffer[..|c.buffer|] == c.buffer
      && ((cfg.arrayChildren && |cs| > 0) <==> (|o.buffer| > |c.buffer| && o.buffer[|o.buffer| - 1] == '['))
    ensures var z := CloseElement(src, cfg, c, e, cs).buffer;
      cfg.arrayChildren && |cs| > 0 ==> |z| >= 2 && z[|z| - 2..] == "])"
  {
  }

  /** A container leaves the cursor just after its `}`. */
  lemma ContainerEnd(src: string, cfg: Config, c: Cursor, k: Container, isLast: bool)
    ensures var r := ExpressionContainer(src, cfg, c, k, isLast);
      r.Ok? ==> r.value.position == k.range.end
  {
  }

  // ---------------------------------------------------------------------------------------
  // When the visitor throws: a namespaced attribute, or an unknown tag without a usable pattern,
  // anywhere in the element, whatever the source text and the emitter state

  ghost predicate ElementThrows(cfg: Config, e: Element)
    decreases e, 1
  {
    (!SecondArg(cfg, e) && cfg.unknownTagPattern.None?)
    || (exists j :: 0 <= j < |e.attributes| && AttributeThrows(cfg, e.attributes[j]))
    || (exists j :: 0 <= j < |e.children| && ChildThrows(cfg, e.children[j]))
  }

  ghost predicate AttributeThrows(cfg: Config, a: Attribute)
    decreases a, 0
  {
    match a
    case SpreadAttribute(_, argument) => ExprThrows(cfg, argument)
    case PlainAttribute(_, _, _, namespace, value) =>
      namespace.Some? || (value.ContainerValue? && ExprThrows(cfg, value.container.expression))
  }

  ghost predicate ChildThrows(cfg: Config, ch: Child)
    decreases ch, 0
  {
    match ch
    case TextChild(_) => false
    case ContainerChild(k) => ExprThrows(cfg, k.expression)
    case ElementChild(el) => ElementThrows(cfg, el)
  }

  ghost predicate ExprThrows(cfg: Config, x: Expr)
    decreases x, 0
  {
    match x
    case JSXEmptyExpression(_) => false
    case JSXElementExpr(el) => ElementThrows(cfg, el)
    case Opaque(_, xs) => exists j :: 0 <= j < |xs| && ExprThrows(cfg, xs[j])
  }

  lemma HeadErr(src: string, cfg: Config, e: Element)
    ensures forall c :: Head(src, cfg, c, e).Err? <==> !SecondArg(cfg, e) && cfg.unknownTagPattern.None?
  {
  }

  lemma {:induction false} VisitErr(src: string, cfg: Config, e: Element)
    ensures forall c :: Visit(src, cfg, c, e).Err? <==> ElementThrows(cfg, e)
    decreases e, 4
  {
    HeadErr(src, cfg, e);
    AttributesErr(src, cfg, e, 0);
    var cs := FilterChildren(e.children);
    var lri := LastRenderable(cs);
    ChildrenErr(src, cfg, e, cs, lri, 0);
    FilteredChildrenThrow(cfg, e.children);
    forall c
      ensures Visit(src, cfg, c, e).Err? <==> ElementThrows(cfg, e)
    {
      var h := Head(src, cfg, c, e);
      if h.Ok? {
        var c2 := OpenProps(cfg, h.value, e);
        var a := Attributes(src, cfg, c2, e, 0);
        if a.Ok? {
          var c5 := OpenChildren(cfg, CloseProps(src, a.value, e), e, cs, lri);
          var r := Children(src, cfg, c5, e, cs, lri, 0);
          assert Visit(src, cfg, c, e).Err? == r.Err?;
        }
      }
    }
  }

  lemma {:induction false} AttributesErr(src: string, cfg: Config, e: Element, i: nat)
    requires i <= |e.attributes|
    ensures forall c :: Attributes(src, cfg, c, e, i).Err? <==> exists j :: i <= j < |e.attributes| && AttributeThrows(cfg, e.attributes[j])
    decreases e, 3, |e.attributes| - i
  {
    if i < |e.attributes| {
      AttributeErr(src, cfg, e, i);
      AttributesErr(src, cfg, e, i + 1);
    }
  }

  lemma {:induction false} AttributeErr(src: string, cfg: Config, e: Element, i: nat)
    requires i < |e.attributes|
    ensures forall c :: VisitAttribute(src, cfg, c, e, i).Err? <==> AttributeThrows(cfg, e.attributes[i])
    decreases e, 2
  {
    match e.attributes[i]
    case SpreadAttribute(range, argument) =>
      SpreadErr(src, cfg, range, argument);
    case PlainAttribute(_, _, nameRange, _, value) =>
      var isLast := i == |e.attributes| - 1 || e.attributes[i + 1].SpreadAttribute?;
      AttributeValueErr(src, cfg, value, nameRange, isLast);
  }

  lemma {:induction false} SpreadErr(src: string, cfg: Config, range: Range, argument: Expr)
    ensures forall c, previousWasSpread, isLast :: Spread(src, cfg, c, range, argument, previousWasSpread, isLast).Err? <==> ExprThrows(cfg, argument)
    decreases argument, 2
  {
    TraverseErr(src, cfg, argument);
  }

  lemma {:induction false} AttributeValueErr(src: string, cfg: Config, value: AttrValue, nameRange: Range, isLast: bool)
    ensures forall c :: AttributeValue(src, cfg, c, value, nameRange, isLast).Err? <==>
      value.ContainerValue? && ExprThrows(cfg, value.container.expression)
    decreases value, 2
  {
    if value.ContainerValue? {
      ContainerErr(src, cfg, value.container, isLast);
    }
  }

  lemma {:induction false} ChildrenErr(src: string, cfg: Config, e: Element, cs: seq<Child>, lri: Option<nat>, j: nat)
    requires j <= |cs| && forall k :: 0 <= k < |cs| ==> cs[k] in e.children
    ensures forall c :: Children(src, cfg, c, e, cs, lri, j).Err? <==> exists k :: j <= k < |cs| && ChildThrows(cfg, cs[k])
    decreases e, 3, |cs| - j
  {
    if j < |cs| {
      assert cs[j] in e.children;
      ChildCallbackErr(src, cfg, cs[j], ChildIsLast(lri, j));
      ChildrenErr(src, cfg, e, cs, lri, j + 1);
      assert (exists k :: j <= k < |cs| && ChildThrows(cfg, cs[k])) <==>
             ChildThrows(cfg, cs[j]) || exists k :: j + 1 <= k < |cs| && ChildThrows(cfg, cs[k]);
      forall c
        ensures Children(src, cfg, c, e, cs, lri, j).Err? <==> exists k :: j <= k < |cs| && ChildThrows(cfg, cs[k])
      {
        var r := ChildCallback(src, cfg, c, cs[j], ChildIsLast(lri, j));
        if r.Ok? {
          assert Children(src, cfg, c, e, cs, lri, j) == Children(src, cfg, r.value, e, cs, lri, j + 1);
        }
      }
    }
  }

  /** Whitespace-only text never throws, so filtering it out leaves the same throwing children. */
  lemma FilteredChildrenThrow(cfg: Config, children: seq<Child>)
    ensures (exists j :: 0 <= j < |children| && ChildThrows(cfg, children[j])) ==>
            (exists k :: 0 <= k < |FilterChildren(children)| && ChildThrows(cfg, FilterChildren(children)[k]))
    ensures (exists k :: 0 <= k < |FilterChildren(children)| && ChildThrows(cfg, FilterChildren(children)[k])) ==>
            (exists j :: 0 <= j < |children| && ChildThrows(cfg, children[j]))
  {
    var cs := FilterChildren(children);
    if j :| 0 <= j < |children| && ChildThrows(cfg, children[j]) {
      assert children[j] in cs;
      var k :| 0 <= k < |cs| && cs[k] == children[j];
      assert ChildThrows(cfg, cs[k]);
    }
    if k :| 0 <= k < |cs| && ChildThrows(cfg, cs[k]) {
      assert cs[k] in children;
      var j :| 0 <= j < |children| && children[j] == cs[k];
      assert ChildThrows(cfg, children[j]);
    }
  }

  lemma ChildCallbackErr(src: string, cfg: Config, child: Child, isLast: bool)
    ensures forall c :: ChildCallback(src, cfg, c, child, isLast).Err? <==> ChildThrows(cfg, child)
    decreases child, 3
  {
    ChildErr(src, cfg, child, isLast);
  }

  lemma {:induction false} ChildErr(src: string, cfg: Config, child: Child, isLast: bool)
    ensures forall c :: VisitChild(src, cfg, c, child, isLast).Err? <==> ChildThrows(cfg, child)
    decreases child, 2
  {
    match child
    case TextChild(_) =>
    case ContainerChild(k) => ContainerErr(src, cfg, k, isLast);
    case ElementChild(el) => VisitErr(src, cfg, el);
  }

  lemma {:induction false} ContainerErr(src: string, cfg: Config, k: Container, isLast: bool)
    ensures forall c :: ExpressionContainer(src, cfg, c, k, isLast).Err? <==> ExprThrows(cfg, k.expression)
    decreases k, 2
  {
    TraverseErr(src, cfg, k.expression);
  }

  lemma {:induction false} TraverseErr(src: string, cfg: Config, x: Expr)
    ensures forall c :: Traverse(src, cfg, c, x).Err? <==> ExprThrows(cfg, x)
    decreases x, 1
  {
    match x
    case JSXEmptyExpression(_) =>
    case JSXElementExpr(el) => VisitErr(src, cfg, el);
    case Opaque(_, xs) =>
      TraverseAllErr(src, cfg, xs, 0);
  }

  lemma {:induction false} TraverseAllErr(src: string, cfg: Config, xs: seq<Expr>, k: nat)
    requires k <= |xs|
    ensures forall c :: TraverseAll(src, cfg, c, xs, k).Err? <==> exists j :: k <= j < |xs| && ExprThrows(cfg, xs[j])
    decreases xs, 0, |xs| - k
  {
    if k < |xs| {
      TraverseErr(src, cfg, xs[k]);
      TraverseAllErr(src, cfg, xs, k + 1);
    }
  }

  // ---------------------------------------------------------------------------------------
  // Code that holds no JSX passes through unchanged

  predicate JsxFree(x: Expr)
    decreases x
  {
    match x
    case JSXEmptyExpression(_) => true
    case JSXElementExpr(_) => false
    case Opaque(_, xs) => forall y :: y in xs ==> JsxFree(y)
  }

  /** `traverse` over a JSX-free node neither writes nor moves the cursor. */
  lemma {:induction false} JsxFreeTraverse(src: string, cfg: Config, x: Expr)
    requires JsxFree(x)
    ensures forall c :: Traverse(src, cfg, c, x) == Ok(c)
    decreases x, 1
  {
    if x.Opaque? {
      JsxFreeTraverseAll(src, cfg, x.children, 0);
    }
  }

  lemma {:induction false} JsxFreeTraverseAll(src: string, cfg: Config, xs: seq<Expr>, k: nat)
    requires k <= |xs| && forall y :: y in xs ==> JsxFree(y)
    ensures forall c :: TraverseAll(src, cfg, c, xs, k) == Ok(c)
    decreases xs, 0, |xs| - k
  {
    if k < |xs| {
      JsxFreeTraverse(src, cfg, xs[k]);
      JsxFreeTraverseAll(src, cfg, xs, k + 1);
    }
  }

  // ---------------------------------------------------------------------------------------
  // The head of the call

  /** The text written for the tag: `factory('div'`, `factory(Component`, `factory('Component'`
      or the pattern with its first `{tag}` filled in by `FillPattern`, then `(`. */
  function HeadText(cfg: Config, name: TagName): Result<string, JsError>
  {
    if IsKnownTag(name) then Ok(cfg.factory + "('" + name + "'")
    else if cfg.passUnknownTagsToFactory then
      Ok(if cfg.unknownTagsAsString then cfg.factory + "('" + name + "'" else cfg.factory + "(" + name)
    else if cfg.unknownTagPattern.None? then Err(PatternNotString)
    else Ok(FillPattern(cfg, cfg.unknownTagPattern.value, name) + "(")
  }

  /** The head copies the source before the element, trimmed of leading spaces, then writes the
      head text; the cursor stays at the end of the tag name except in the pattern case. */
  lemma HeadOutput(src: string, cfg: Config, c: Cursor, e: Element)
    requires 0 <= c.position <= e.opening.start <= e.nameRange.start <= e.nameRange.end <= |src|
    requires src[e.nameRange.start..e.nameRange.end] == e.name
    ensures var r := Head(src, cfg, c, e);
      && (r.Err? <==> HeadText(cfg, e.name).Err?)
      && (r.Ok? ==> r.value.buffer == c.buffer + TrimLeft(src[c.position..e.opening.start]) + HeadText(cfg, e.name).value)
      && (r.Ok? && SecondArg(cfg, e) ==> r.value.position == e.nameRange.end)
  {
    var pre := c.buffer + TrimLeft(src[c.position..e.opening.start]);
    var c1 := c.Catchup(src, e.opening.start, TrimLeftFilter);
    assert c1 == Cursor(e.opening.start, pre);
    var text := HeadText(cfg, e.name);
    if IsKnownTag(e.name) {
      assert pre + (cfg.factory + "('") + e.name + "'" == pre + text.value;
    } else if cfg.passUnknownTagsToFactory {
      if cfg.unknownTagsAsString {
        assert pre + (cfg.factory + "('") + e.name + "'" == pre + text.value;
      } else {
        assert pre + (cfg.factory + "(") + e.name == pre + text.value;
      }
    } else if cfg.unknownTagPattern.Some? {
      var tagName := FillPattern(cfg, cfg.unknownTagPattern.value, e.name);
      assert pre + tagName + "(" == pre + text.value;
    }
  }

  // ---------------------------------------------------------------------------------------
  // Expression containers

  /** The text a container around a JSX-free expression contributes: only what lies strictly
      between its braces, with `, ` after the expression unless it is last or empty. */
  function ContainerText(src: string, k: Container, isLast: bool): string
    requires 0 <= k.range.start + 1 <= k.expression.Span().end <= k.range.end - 1 <= |src|
  {
    var lo, mid, hi := k.range.start + 1, k.expression.Span().end, k.range.end - 1;
    if !isLast && !k.expression.JSXEmptyExpression? then TrimLeft(src[lo..mid]) + ", " + TrimLeft(src[mid..hi])
    else TrimLeft(src[lo..hi])
  }

  lemma ContainerOutput(src: string, cfg: Config, c: Cursor, k: Container, isLast: bool)
    requires JsxFree(k.expression)
    requires 0 <= k.range.start + 1 <= k.expression.Span().end <= k.range.end - 1 <= |src|
    ensures ExpressionContainer(src, cfg, c, k, isLast) == Ok(Cursor(k.range.end, c.buffer + ContainerText(src, k, isLast)))
  {
    var lo, mid, hi := k.range.start + 1, k.expression.Span().end, k.range.end - 1;
    var split := !isLast && !k.expression.JSXEmptyExpression?;
    var c1 := c.Move(lo);
    assert Traverse(src, cfg, c1, k.expression) == Ok(c1) by {
      JsxFreeTraverse(src, cfg, k.expression);
    }
    var c3 := if split then c1.Catchup(src, mid, TrimLeftFilter).Append(", ") else c1;
    assert ExpressionContainer(src, cfg, c, k, isLast) == Ok(c3.Catchup(src, hi, TrimLeftFilter).Move(k.range.end));
    ContainerCatchups(src, c.buffer, lo, mid, hi, split);
  }

  /** The two catchups of a container, from just after `{` to just before `}`. */
  lemma ContainerCatchups(src: string, b: string, lo: int, mid: int, hi: int, split: bool)
    requires 0 <= lo <= mid <= hi <= |src|
    ensures var c1 := Cursor(lo, b);
      var c3 := if split then c1.Catchup(src, mid, TrimLeftFilter).Append(", ") else c1;
      c3.Catchup(src, hi, TrimLeftFilter) ==
        Cursor(hi, b + if split then TrimLeft(src[lo..mid]) + ", " + TrimLeft(src[mid..hi]) else TrimLeft(src[lo..hi]))
  {
    if split {
      var t1, t2 := TrimLeft(src[lo..mid]), TrimLeft(src[mid..hi]);
      assert Cursor(lo, b).Catchup(src, mid, TrimLeftFilter).Append(", ") == Cursor(mid, b + t1 + ", ");
      assert b + t1 + ", " + t2 == b + (t1 + ", " + t2);
    }
  }

  // ---------------------------------------------------------------------------------------
  // Plain attributes

  /** The value of a plain attribute lies between the end of its name `ne` and the end of the
      attribute `re`, as the parser places it; a container holds no JSX. */
  ghost predicate ValuePlaced(src: string, value: AttrValue, ne: int, re: int)
  {
    && 0 <= ne && re <= |src|
    && match value
       case NoValue => ne <= re
       case LiteralValue(l) => ne <= l.range.start <= l.range.end <= re
       case ContainerValue(k) =>
         && JsxFree(k.expression)
         && ne <= k.range.start && k.range.start + 1 <= k.expression.Span().end <= k.range.end - 1
         && k.range.end <= re
  }

  /** `isLast` as a plain attribute's value sees it: the last attribute, or the one before a
      spread. */
  predicate LastBeforeSpread(attrs: seq<Attribute>, i: nat)
    requires i < |attrs|
  {
    i == |attrs| - 1 || attrs[i + 1].SpreadAttribute?
  }

  /** The text of a value: `true` for a bare name, the rendered literal, or the text inside a
      container, with `, ` unless it is last. Of the source between the name and the value only
      line breaks survive; what follows the value is copied without its leading spaces. */
  function ValueText(src: string, value: AttrValue, ne: int, re: int, isLast: bool): string
    requires ValuePlaced(src, value, ne, re)
  {
    match value
    case NoValue => "true" + (if isLast then "" else ", ") + TrimLeft(src[ne..re])
    case LiteralValue(l) =>
      StripNonNewline(src[ne..l.range.start]) + LiteralText(l.value, isLast) + TrimLeft(src[l.range.end..re])
    case ContainerValue(k) =>
      StripNonNewline(src[ne..k.range.start]) + ContainerText(src, k, isLast) + TrimLeft(src[k.range.end..re])
  }

  /** The text a plain attribute contributes: `{` when it opens a group after a spread, the key
      (quoted unless it is a plain identifier), `: ` and the value. */
  function AttributeText(src: string, a: Attribute, previousWasSpread: bool, isLast: bool): string
    requires a.PlainAttribute? && ValuePlaced(src, a.value, a.nameRange.end, a.range.end)
  {
    (if previousWasSpread then "{" else "") + QuoteJSObjKey(a.name) + ": "
      + ValueText(src, a.value, a.nameRange.end, a.range.end, isLast)
  }

  /** A placed value never throws, and with the attribute's closing catchup it writes its text. */
  lemma ValueOutput(src: string, cfg: Config, c: Cursor, value: AttrValue, nameRange: Range, re: int, isLast: bool)
    requires ValuePlaced(src, value, nameRange.end, re)
    ensures var r := AttributeValue(src, cfg, c, value, nameRange, isLast);
      r.Ok? && r.value.Catchup(src, re, TrimLeftFilter) == Cursor(re, c.buffer + ValueText(src, value, nameRange.end, re, isLast))
  {
    match value {
      case NoValue => NoValueOutput(src, cfg, c, nameRange, re, isLast);
      case LiteralValue(l) => LiteralValueOutput(src, cfg, c, l, nameRange, re, isLast);
      case ContainerValue(k) => ContainerValueOutput(src, cfg, c, k, nameRange, re, isLast);
    }
  }

  lemma NoValueOutput(src: string, cfg: Config, c: Cursor, nameRange: Range, re: int, isLast: bool)
    requires 0 <= nameRange.end <= re <= |src|
    ensures var r := AttributeValue(src, cfg, c, NoValue, nameRange, isLast);
      r.Ok? && r.value.Catchup(src, re, TrimLeftFilter) == Cursor(re, c.buffer + ValueText(src, NoValue, nameRange.end, re, isLast))
  {
    var b, ne := c.buffer, nameRange.end;
    var t1, t2 := "true" + (if isLast then "" else ", "), TrimLeft(src[ne..re]);
    assert AttributeValue(src, cfg, c, NoValue, nameRange, isLast) == Ok(Cursor(ne, b + t1)) by {
      if isLast {
        assert "true" + "" == "true";
      } else {
        assert b + "true" + ", " == b + ("true" + ", ");
      }
    }
    Associate(b, t1, t2, "");
  }

  lemma LiteralValueOutput(src: string, cfg: Config, c: Cursor, l: Literal, nameRange: Range, re: int, isLast: bool)
    requires 0 <= nameRange.end <= l.range.start <= l.range.end <= re <= |src|
    ensures var r := AttributeValue(src, cfg, c, LiteralValue(l), nameRange, isLast);
      r.Ok? && r.value.Catchup(src, re, TrimLeftFilter) == Cursor(re, c.buffer + ValueText(src, LiteralValue(l), nameRange.end, re, isLast))
  {
    var b, ne := c.buffer, nameRange.end;
    var t1, t2, t3 := StripNonNewline(src[ne..l.range.start]), LiteralText(l.value, isLast), TrimLeft(src[l.range.end..re]);
    LiteralValueSteps(src, cfg, c, l, nameRange, isLast);
    var c4 := Cursor(l.range.end, b + t1 + t2);
    assert c4.Catchup(src, re, TrimLeftFilter) == Cursor(re, b + t1 + t2 + t3);
    assert ValueText(src, LiteralValue(l), ne, re, isLast) == t1 + t2 + t3;
    Associate(b, t1, t2, t3);
  }

  lemma LiteralValueSteps(src: string, cfg: Config, c: Cursor, l: Literal, nameRange: Range, isLast: bool)
    requires 0 <= nameRange.end <= l.range.start <= |src|
    ensures AttributeValue(src, cfg, c, LiteralValue(l), nameRange, isLast) ==
      Ok(Cursor(l.range.end, c.buffer + StripNonNewline(src[nameRange.end..l.range.start]) + LiteralText(l.value, isLast)))
  {
    var c2 := Cursor(l.range.start, c.buffer + StripNonNewline(src[nameRange.end..l.range.start]));
    assert c.Move(nameRange.end).Catchup(src, l.range.start, StripNonNewlineFilter) == c2;
  }

  lemma ContainerValueOutput(src: string, cfg: Config, c: Cursor, k: Container, nameRange: Range, re: int, isLast: bool)
    requires ValuePlaced(src, ContainerValue(k), nameRange.end, re)
    ensures var r := AttributeValue(src, cfg, c, ContainerValue(k), nameRange, isLast);
      r.Ok? && r.value.Catchup(src, re, TrimLeftFilter) == Cursor(re, c.buffer + ValueText(src, ContainerValue(k), nameRange.end, re, isLast))
  {
    var b, ne := c.buffer, nameRange.end;
    var t1 := StripNonNewline(src[ne..k.range.start]);
    ContainerOutput(src, cfg, Cursor(k.range.start, b + t1), k, isLast);
    var t2, t3 := ContainerText(src, k, isLast), TrimLeft(src[k.range.end..re]);
    assert AttributeValue(src, cfg, c, ContainerValue(k), nameRange, isLast) == Ok(Cursor(k.range.end, b + t1 + t2));
    Associate(b, t1, t2, t3);
  }

  lemma Associate(b: string, t1: string, t2: string, t3: string)
    ensures b + t1 + t2 + t3 == b + (t1 + t2 + t3)
  {
  }

  /** A placed plain attribute without a namespace never throws; it writes its text after the
      source up to its start (trimmed of leading spaces), and leaves the cursor at its end. */
  lemma AttributeOutput(src: string, cfg: Config, c: Cursor, e: Element, i: nat)
    requires i < |e.attributes|
    requires e.attributes[i].PlainAttribute? && e.attributes[i].namespace.None?
    requires ValuePlaced(src, e.attributes[i].value, e.attributes[i].nameRange.end, e.attributes[i].range.end)
    ensures var a := e.attributes[i];
      VisitAttribute(src, cfg, c, e, i) ==
        Ok(Cursor(a.range.end, c.Catchup(src, a.range.start, TrimLeftFilter).buffer
          + AttributeText(src, a, PreviousWasSpread(e.attributes, i), LastBeforeSpread(e.attributes, i))))
  {
    var a := e.attributes[i];
    var prev := PreviousWasSpread(e.attributes, i);
    var isLast := LastBeforeSpread(e.attributes, i);
    var c1 := c.Catchup(src, a.range.start, TrimLeftFilter);
    var c3 := c1.AppendIf(prev, "{").Append(QuoteJSObjKey(a.name) + ": ");
    ValueOutput(src, cfg, c3, a.value, a.nameRange, a.range.end, isLast);
    var r := AttributeValue(src, cfg, c3, a.value, a.nameRange, isLast);
    assert VisitAttribute(src, cfg, c, e, i) == Ok(r.value.Catchup(src, a.range.end, TrimLeftFilter));
    var v := ValueText(src, a.value, a.nameRange.end, a.range.end, isLast);
    KeyValueText(c1.buffer, prev, QuoteJSObjKey(a.name), v);
  }

  lemma KeyValueText(b: string, prev: bool, key: string, v: string)
    ensures (if prev then b + "{" else b) + (key + ": ") + v == b + ((if prev then "{" else "") + key + ": " + v)
  {
  }

  // ---------------------------------------------------------------------------------------
  // Spread attributes

  /** The ranges of a spread attribute `{...argument}` as the parser gives them, with an
      argument that holds no JSX. */
  ghost predicate SpreadPlaced(src: string, a: Attribute)
    requires a.SpreadAttribute?
  {
    JsxFree(a.argument) && SpreadBounds(src, a)
  }

  /** The argument lies strictly inside the spread's braces, and the spread inside the source. */
  predicate SpreadBounds(src: string, a: Attribute)
    requires a.SpreadAttribute?
  {
    && 0 <= a.range.start && a.range.start + 1 <= a.argument.Span().start <= a.argument.Span().end <= a.range.end - 1
    && a.range.end <= |src|
  }

  /** The text of a spread after the source up to its `{`: of what lies between the braces and
      the argument only parentheses survive, the argument is copied as written, and `, ` follows
      unless it is the last attribute. */
  function SpreadText(src: string, a: Attribute, isLast: bool): string
    requires a.SpreadAttribute? && SpreadBounds(src, a)
  {
    var lo, hi := a.argument.Span().start, a.argument.Span().end;
    StripNonParen(src[a.range.start + 1..lo]) + src[lo..hi] + StripNonParen(src[hi..a.range.end - 1])
      + (if isLast then "" else ", ")
  }

  /** A spread whose argument holds no JSX never throws. A spread that starts a group closes the
      object literal before it (`}, `); then the source up to the spread keeps only its
      parentheses, and the spread writes its text. */
  lemma SpreadOutput(src: string, cfg: Config, c: Cursor, a: Attribute, previousWasSpread: bool, isLast: bool)
    requires a.SpreadAttribute? && SpreadPlaced(src, a)
    ensures var c1 := c.AppendIf(!previousWasSpread, "}, ").Catchup(src, a.range.start, StripNonParenFilter);
      Spread(src, cfg, c, a.range, a.argument, previousWasSpread, isLast) == Ok(Cursor(a.range.end, c1.buffer + SpreadText(src, a, isLast)))
  {
    var c1 := c.AppendIf(!previousWasSpread, "}, ").Catchup(src, a.range.start, StripNonParenFilter);
    var open := SpreadOpen(src, c, a.range, a.argument.Span(), previousWasSpread);
    var close := SpreadClose(src, open, a.range, a.argument.Span(), isLast);
    assert Spread(src, cfg, c, a.range, a.argument, previousWasSpread, isLast) == Ok(close) by {
      SpreadUnfold(src, cfg, c, a.range, a.argument, previousWasSpread, isLast);
    }
    assert open == Cursor(a.range.start + 1, c1.buffer).Catchup(src, a.argument.Span().start, StripNonParenFilter) by {
      SpreadOpenText(src, c, a.range, a.argument.Span(), previousWasSpread);
    }
    assert close == Cursor(a.range.end, c1.buffer + SpreadText(src, a, isLast)) by {
      SpreadCatchups(src, c1.buffer, a, isLast);
    }
  }

  /** A spread whose argument holds no JSX is its opening and closing steps. */
  lemma SpreadUnfold(src: string, cfg: Config, c: Cursor, range: Range, argument: Expr, previousWasSpread: bool, isLast: bool)
    requires JsxFree(argument)
    ensures Spread(src, cfg, c, range, argument, previousWasSpread, isLast) ==
      Ok(SpreadClose(src, SpreadOpen(src, c, range, argument.Span(), previousWasSpread), range, argument.Span(), isLast))
  {
    JsxFreeTraverseAt(src, cfg, SpreadOpen(src, c, range, argument.Span(), previousWasSpread), argument);
  }

  lemma JsxFreeTraverseAt(src: string, cfg: Config, c: Cursor, x: Expr)
    requires JsxFree(x)
    ensures Traverse(src, cfg, c, x) == Ok(c)
  {
    JsxFreeTraverse(src, cfg, x);
  }

  /** Before its argument, a spread has moved past its `{`. */
  lemma SpreadOpenText(src: string, c: Cursor, range: Range, argumentRange: Range, previousWasSpread: bool)
    ensures var c1 := c.AppendIf(!previousWasSpread, "}, ").Catchup(src, range.start, StripNonParenFilter);
      SpreadOpen(src, c, range, argumentRange, previousWasSpread) ==
        Cursor(range.start + 1, c1.buffer).Catchup(src, argumentRange.start, StripNonParenFilter)
  {
  }

  /** The catchups of a spread, from just after its `{` to its end. */
  lemma SpreadCatchups(src: string, b: string, a: Attribute, isLast: bool)
    requires a.SpreadAttribute? && SpreadBounds(src, a)
    ensures SpreadClose(src, Cursor(a.range.start + 1, b).Catchup(src, a.argument.Span().start, StripNonParenFilter), a.range, a.argument.Span(), isLast) ==
      Cursor(a.range.end, b + SpreadText(src, a, isLast))
  {
    var lo, hi, end := a.argument.Span().start, a.argument.Span().end, a.range.end;
    var t1, t2, t3 := StripNonParen(src[a.range.start + 1..lo]), src[lo..hi], StripNonParen(src[hi..end - 1]);
    var t4 := if isLast then "" else ", ";
    var cb := Cursor(lo, b + t1);
    assert Cursor(a.range.start + 1, b).Catchup(src, lo, StripNonParenFilter) == cb by {
      CatchupAhead(src, Cursor(a.range.start + 1, b), lo, StripNonParenFilter);
    }
    var cc := Cursor(hi, b + t1 + t2);
    var c7 := Cursor(end - 1, b + t1 + t2 + t3);
    assert SpreadClose(src, cb, a.range, a.argument.Span(), isLast) == c7.AppendIf(!isLast, ", ").Move(end) by {
      CatchupAhead(src, cb, hi, Verbatim);
      CatchupAhead(src, cc, end - 1, StripNonParenFilter);
    }
    assert c7.AppendIf(!isLast, ", ").Move(end) == Cursor(end, b + t1 + t2 + t3 + t4);
    SpreadTextPieces(src, a, isLast);
    Associate4(b, t1, t2, t3, t4);
  }

  lemma SpreadTextPieces(src: string, a: Attribute, isLast: bool)
    requires a.SpreadAttribute? && SpreadBounds(src, a)
    ensures var lo, hi := a.argument.Span().start, a.argument.Span().end;
      SpreadText(src, a, isLast) ==
        StripNonParen(src[a.range.start + 1..lo]) + src[lo..hi] + StripNonParen(src[hi..a.range.end - 1])
          + (if isLast then "" else ", ")
  {
  }

  /** A catchup to a target ahead of the cursor, inside the source. */
  lemma CatchupAhead(src: string, c: Cursor, end: int, f: Filter)
    requires 0 <= c.position <= end <= |src|
    ensures c.Catchup(src, end, f) == Cursor(end, c.buffer + f.Apply(src[c.position..end]))
  {
  }

  lemma Associate4(b: string, t1: string, t2: string, t3: string, t4: string)
    ensures b + t1 + t2 + t3 + t4 == b + (t1 + t2 + t3 + t4)
  {
  }

  // ---------------------------------------------------------------------------------------
  // The child filter

  /** The filter keeps the order: it works piece by piece. */
  lemma {:induction false} FilterChildrenConcat(a: seq<Child>, b: seq<Child>)
    ensures FilterChildren(a + b) == FilterChildren(a) + FilterChildren(b)
  {
    if a == [] {
      assert a + b == b;
    } else {
      assert (a + b)[1..] == a[1..] + b;
      FilterChildrenConcat(a[1..], b);
    }
  }
}
