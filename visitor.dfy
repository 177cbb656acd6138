/**
 * `visitNode` (lib/visitor.js): one JSX element becomes a call expression, written by driving the
 * cursor emitter over the source text. The functions below give the effect of each step on the
 * emitter state, the methods make the same calls on an `Emitter` object, and the lemmas state
 * what the output looks like.
 *
 * `traverse` (jstransform) is modelled as it treats this visitor: a JSX element is handed to
 * `visitNode`, which answers `false` so its children are not traversed again; any other node
 * emits nothing itself and has its child nodes traversed in order.
 */
module Visitor {
  import opened Base
  import opened Text
  import opened JsxAst
  import opened Emit
  import opened LiteralRender

  /** The options the visitor reads from `state.g.opts`, after `fromString` has normalised them.
      The flags are the JavaScript truthiness of the option values; `unknownTagPattern` is `None`
      unless it is a string. `literalTagNames` is no option of the source: `false` fills the
      pattern with `String.prototype.replace` as the source does, `true` inserts the tag name
      character for character, the corrected behaviour (see `FillPattern`). */
  datatype Config = Config(
    factory: string,
    spreadFn: string,
    arrayChildren: bool,
    passUnknownTagsToFactory: bool,
    unknownTagsAsString: bool,
    unknownTagPattern: Option<string>,
    literalTagNames: bool)

  // ---------------------------------------------------------------------------------------
  // Flags computed by visitNode

  /** `hasAtLeastOneSpreadAttribute`. */
  predicate HasSpread(attrs: seq<Attribute>)
  {
    exists i :: 0 <= i < |attrs| && attrs[i].SpreadAttribute?
  }

  /** `secondArg` after the tag head: a first argument was written to the factory call. */
  predicate SecondArg(cfg: Config, e: Element)
  {
    IsKnownTag(e.name) || cfg.passUnknownTagsToFactory
  }

  /** `previousWasSpread` when attribute `i` is visited. */
  predicate PreviousWasSpread(attrs: seq<Attribute>, i: nat)
    requires i <= |attrs|
  {
    i > 0 && attrs[i - 1].SpreadAttribute?
  }

  /** The whitespace-only text children dropped by the `children.filter` callback. */
  predicate IsWhitespaceChild(child: Child)
  {
    child.TextChild? && IsBlankLineBreak(child.literal.value)
  }

  /** `children` after `object.children.filter(...)`. */
  function FilterChildren(children: seq<Child>): (r: seq<Child>)
    ensures forall x :: x in r <==> x in children && !IsWhitespaceChild(x)
    ensures |r| <= |children|
  {
    if children == [] then []
    else (if IsWhitespaceChild(children[0]) then [] else [children[0]]) + FilterChildren(children[1..])
  }

  /** A child that renders a value: anything but an empty `{}` container. */
  predicate Renderable(child: Child)
  {
    !(child.ContainerChild? && child.container.expression.JSXEmptyExpression?)
  }

  /** `lastRenderableIndex`: the last index of a renderable child, `None` for `undefined`. */
  function LastRenderable(cs: seq<Child>): (r: Option<nat>)
    ensures r.Some? ==> r.value < |cs| && Renderable(cs[r.value])
    ensures r.Some? ==> forall j :: r.value < j < |cs| ==> !Renderable(cs[j])
    ensures r.None? ==> forall j :: 0 <= j < |cs| ==> !Renderable(cs[j])
    decreases |cs|
  {
    if cs == [] then None
    else if Renderable(cs[|cs| - 1]) then Some(|cs| - 1)
    else LastRenderable(cs[..|cs| - 1])
  }

  /** `isLast` for child `j`: `index >= lastRenderableIndex`, false when that is undefined. */
  predicate ChildIsLast(lri: Option<nat>, j: nat)
  {
    lri.Some? && j >= lri.value
  }

  /** Where the cursor is left by an element. */
  function ElementEnd(e: Element): int
  {
    if e.closing.SelfClosing? then e.opening.end else e.closing.range.end
  }

  // ---------------------------------------------------------------------------------------
  // The effect of each step on the emitter state `c`, over the source text `src`

  /** lib/visitor.js:68: `unknownTagPattern.replace('{tag}', nameObj.name)`. As written the name
      is a replacement pattern, so a `$$` in it becomes `$` (`Text.ReplaceFirst`); the corrected
      form puts the name in the place of the first `{tag}` unchanged. */
  function FillPattern(cfg: Config, pattern: string, name: string): string
  {
    if cfg.literalTagNames then ReplaceFirstLiteral(pattern, "{tag}", name)
    else ReplaceFirst(pattern, "{tag}", name)
  }

  /** lib/visitor.js:32-75: the factory call head, up to the first argument. */
  function Head(src: string, cfg: Config, c: Cursor, e: Element): (r: Result<Cursor, JsError>)
  {
    var knownTag := IsKnownTag(e.name);
    var c1 := c.Catchup(src, e.opening.start, TrimLeftFilter);
    var c2 :=
      if knownTag then c1.Append(cfg.factory + "('")
      else if cfg.passUnknownTagsToFactory then
        (if cfg.unknownTagsAsString then c1.Append(cfg.factory + "('") else c1.Append(cfg.factory + "("))
      else c1;
    var c3 := c2.Move(e.nameRange.start);
    if knownTag then
      Ok(c3.Catchup(src, e.nameRange.end, Verbatim).Append("'"))
    else if cfg.passUnknownTagsToFactory then
      var c4 := c3.Catchup(src, e.nameRange.end, Verbatim);
      Ok(c4.AppendIf(cfg.unknownTagsAsString, "'"))
    else if cfg.unknownTagPattern.None? then
      Err(PatternNotString)
    else
      var tagName := FillPattern(cfg, cfg.unknownTagPattern.value, e.name);
      var c4 := c3.Append(tagName);
      var c5 := c4.Move(e.nameRange.end + (|tagName| - |e.name|));
      Ok(c5.Append("("))
  }

  /** lib/visitor.js:77-88: the opening of the props argument. */
  function OpenProps(cfg: Config, c: Cursor, e: Element): Cursor
  {
    if HasSpread(e.attributes) then
      if SecondArg(cfg, e) then c.Append(", " + cfg.spreadFn + "({")
      else c.Append(cfg.spreadFn + "({")
    else if |e.attributes| > 0 then
      var c1 := c.AppendIf(SecondArg(cfg, e), ", ");
      c1.Append("{")
    else c
  }

  /** lib/visitor.js:92-166: the `attributes.forEach` callbacks from attribute `i` on. */
  function Attributes(src: string, cfg: Config, c: Cursor, e: Element, i: nat): (r: Result<Cursor, JsError>)
    requires i <= |e.attributes|
    decreases e, 3, |e.attributes| - i
  {
    if i == |e.attributes| then Ok(c)
    else
      var c1 :- VisitAttribute(src, cfg, c, e, i);
      Attributes(src, cfg, c1, e, i + 1)
  }

  /** One `attributes.forEach` callback. */
  function VisitAttribute(src: string, cfg: Config, c: Cursor, e: Element, i: nat): (r: Result<Cursor, JsError>)
    requires i < |e.attributes|
    decreases e, 2
  {
    var attrs := e.attributes;
    var isLast := i == |attrs| - 1;
    var previousWasSpread := PreviousWasSpread(attrs, i);
    match attrs[i]
    case SpreadAttribute(range, argument) => Spread(src, cfg, c, range, argument, previousWasSpread, isLast)
    case PlainAttribute(range, name, nameRange, namespace, value) =>
      var isLast := isLast || attrs[i + 1].SpreadAttribute?;
      if namespace.Some? then Err(NamespaceAttribute)
      else
        var c1 := c.Catchup(src, range.start, TrimLeftFilter);
        var c2 := c1.AppendIf(previousWasSpread, "{");
        var c3 := c2.Append(QuoteJSObjKey(name) + ": ");
        var c4 :- AttributeValue(src, cfg, c3, value, nameRange, isLast);
        Ok(c4.Catchup(src, range.end, TrimLeftFilter))
  }

  /** lib/visitor.js:95-124: a spread attribute `{...argument}` spanning `range`. */
  function Spread(src: string, cfg: Config, c: Cursor, range: Range, argument: Expr, previousWasSpread: bool, isLast: bool): (r: Result<Cursor, JsError>)
    decreases argument, 2
  {
    var c4 := SpreadOpen(src, c, range, argument.Span(), previousWasSpread);
    var c5 :- Traverse(src, cfg, c4, argument);
    Ok(SpreadClose(src, c5, range, argument.Span(), isLast))
  }

  /** lib/visitor.js:96-106: the steps of a spread before its argument, which spans
      `argumentRange`. */
  function SpreadOpen(src: string, c: Cursor, range: Range, argumentRange: Range, previousWasSpread: bool): Cursor
  {
    var c1 := c.AppendIf(!previousWasSpread, "}, ");
    var c2 := c1.Catchup(src, range.start, StripNonParenFilter);
    var c3 := c2.Move(range.start + 1);
    c3.Catchup(src, argumentRange.start, StripNonParenFilter)
  }

  /** lib/visitor.js:110-119: the steps of a spread after its argument. */
  function SpreadClose(src: string, c: Cursor, range: Range, argumentRange: Range, isLast: bool): Cursor
  {
    var c6 := c.Catchup(src, argumentRange.end, Verbatim);
    var c7 := c6.Catchup(src, range.end - 1, StripNonParenFilter);
    var c8 := c7.AppendIf(!isLast, ", ");
    c8.Move(range.end)
  }

  /** lib/visitor.js:147-161: the value of a plain attribute. */
  function AttributeValue(src: string, cfg: Config, c: Cursor, value: AttrValue, nameRange: Range, isLast: bool): (r: Result<Cursor, JsError>)
    decreases value, 2
  {
    match value
    case NoValue =>
      var c1 := c.Append("true");
      var c2 := c1.Move(nameRange.end);
      Ok(c2.AppendIf(!isLast, ", "))
    case LiteralValue(literal) =>
      var c1 := c.Move(nameRange.end);
      var c2 := c1.Catchup(src, literal.range.start, StripNonNewlineFilter);
      Ok(RenderLiteral(c2, literal, isLast))
    case ContainerValue(container) =>
      var c1 := c.Move(nameRange.end);
      var c2 := c1.Catchup(src, container.range.start, StripNonNewlineFilter);
      ExpressionContainer(src, cfg, c2, container, isLast)
  }

  /** lib/visitor.js:168-179: the rest of the opening element and the end of the props. */
  function CloseProps(src: string, c: Cursor, e: Element): Cursor
  {
    var attrs := e.attributes;
    var c1 :=
      if e.closing.SelfClosing? then c
      else
        var c0 := c.Catchup(src, e.opening.end - 1, TrimLeftFilter);
        c0.Move(e.opening.end);
    var c2 := c1.AppendIf(|attrs| > 0 && !PreviousWasSpread(attrs, |attrs|), "}");
    c2.AppendIf(HasSpread(attrs), ")")
  }

  /** lib/visitor.js:188-210: what comes before the first child. */
  function OpenChildren(cfg: Config, c: Cursor, e: Element, cs: seq<Child>, lri: Option<nat>): Cursor
  {
    if |cs| == 0 then c
    else
      var c1 :=
        if |e.attributes| == 0 then
          var c0 := c.AppendIf(SecondArg(cfg, e), ", ");
          c0.Append("null")
        else c;
      var c2 := c1.AppendIf(lri.Some?, ", ");
      c2.AppendIf(cfg.arrayChildren, "[")
  }

  /** lib/visitor.js:212-230: the `children.forEach` callbacks from child `j` on. */
  function Children(src: string, cfg: Config, c: Cursor, e: Element, cs: seq<Child>, lri: Option<nat>, j: nat): (r: Result<Cursor, JsError>)
    requires j <= |cs| && forall k :: 0 <= k < |cs| ==> cs[k] in e.children
    decreases e, 3, |cs| - j
  {
    if j == |cs| then Ok(c)
    else
      assert cs[j] in e.children;
      var c1 :- ChildCallback(src, cfg, c, cs[j], ChildIsLast(lri, j));
      Children(src, cfg, c1, e, cs, lri, j + 1)
  }

  /** One `children.forEach` callback, lib/visitor.js:213-229. */
  function ChildCallback(src: string, cfg: Config, c: Cursor, child: Child, isLast: bool): (r: Result<Cursor, JsError>)
    decreases child, 3
  {
    var c1 := c.Catchup(src, child.Span().start, TrimLeftFilter);
    var c2 :- VisitChild(src, cfg, c1, child, isLast);
    Ok(c2.Catchup(src, child.Span().end, TrimLeftFilter))
  }

  /** lib/visitor.js:218-227: one child, between the two catchups. */
  function VisitChild(src: string, cfg: Config, c: Cursor, child: Child, isLast: bool): (r: Result<Cursor, JsError>)
    decreases child, 2
  {
    match child
    case TextChild(literal) => Ok(RenderLiteral(c, literal, isLast))
    case ContainerChild(container) => ExpressionContainer(src, cfg, c, container, isLast)
    case ElementChild(element) =>
      var c1 :- Visit(src, cfg, c, element);
      Ok(c1.AppendIf(!isLast, ","))
  }

  /** lib/visitor.js:233-247: the rest of the element, and the end of the call. */
  function CloseElement(src: string, cfg: Config, c: Cursor, e: Element, cs: seq<Child>): Cursor
  {
    var c1 :=
      if e.closing.SelfClosing? then
        var c0 := c.Catchup(src, e.opening.end - 2, TrimLeftFilter);
        c0.Move(e.opening.end)
      else
        var c0 := c.Catchup(src, e.closing.range.start, TrimLeftFilter);
        c0.Move(e.closing.range.end);
    var c2 := c1.AppendIf(cfg.arrayChildren && |cs| > 0, "]");
    c2.Append(")")
  }

  /** `visitNode(traverse, object, path, state)`. */
  function Visit(src: string, cfg: Config, c: Cursor, e: Element): (r: Result<Cursor, JsError>)
    decreases e, 4
  {
    var c1 :- Head(src, cfg, c, e);
    var c2 := OpenProps(cfg, c1, e);
    var c3 :- Attributes(src, cfg, c2, e, 0);
    var c4 := CloseProps(src, c3, e);
    var cs := FilterChildren(e.children);
    var lri := LastRenderable(cs);
    var c5 := OpenChildren(cfg, c4, e, cs, lri);
    var c6 :- Children(src, cfg, c5, e, cs, lri, 0);
    Ok(CloseElement(src, cfg, c6, e, cs))
  }

  /** `renderJSXExpressionContainer(traverse, object, isLast, path, state)`. */
  function ExpressionContainer(src: string, cfg: Config, c: Cursor, container: Container, isLast: bool): (r: Result<Cursor, JsError>)
    decreases container, 2
  {
    var expression := container.expression;
    var c1 := c.Move(container.range.start + 1);
    var c2 :- Traverse(src, cfg, c1, expression);
    var c3 :=
      if !isLast && !expression.JSXEmptyExpression? then
        var c0 := c2.Catchup(src, expression.Span().end, TrimLeftFilter);
        c0.Append(", ")
      else c2;
    var c4 := c3.Catchup(src, container.range.end - 1, TrimLeftFilter);
    Ok(c4.Move(container.range.end))
  }

  /** `traverse(node, path, state)` with this visitor as the only one. */
  function Traverse(src: string, cfg: Config, c: Cursor, x: Expr): (r: Result<Cursor, JsError>)
    decreases x, 1
  {
    match x
    case JSXEmptyExpression(_) => Ok(c)
    case JSXElementExpr(element) => Visit(src, cfg, c, element)
    case Opaque(_, children) => TraverseAll(src, cfg, c, children, 0)
  }

  /** The child nodes of a node that is not JSX, from the `k`-th on. */
  function TraverseAll(src: string, cfg: Config, c: Cursor, xs: seq<Expr>, k: nat): (r: Result<Cursor, JsError>)
    requires k <= |xs|
    decreases xs, 0, |xs| - k
  {
    if k == |xs| then Ok(c)
    else
      var c1 :- Traverse(src, cfg, c, xs[k]);
      TraverseAll(src, cfg, c1, xs, k + 1)
  }

  // ---------------------------------------------------------------------------------------
  // The visitor itself, writing through an `Emitter`

  /** A method's answer `r` and the emitter state `now` agree with the step `spec`: the same
      error, or success with the state `spec` computes. */
  ghost predicate Agrees<T>(r: Result<T, JsError>, spec: Result<Cursor, JsError>, now: Cursor)
  {
    match spec
    case Ok(c) => r.Ok? && now == c
    case Err(x) => r.Err? && r.error == x
  }

  /** `visitNode.test`: the visitor applies to `JSXElement` nodes only. */
  predicate Test(x: Expr)
  {
    x.JSXElementExpr?
  }

  /** `visitNode`: answers `false` on success, so that `traverse` does not descend again. */
  method VisitNode(em: Emitter, cfg: Config, e: Element) returns (r: Result<bool, JsError>)
    modifies em
    ensures Agrees(r, Visit(em.source, cfg, old(em.State()), e), em.State())
    ensures r.Ok? ==> !r.value
    decreases e, 4
  {
    var secondArg :- EmitHead(em, cfg, e);
    var hasSpread := HasSpread(e.attributes);
    EmitOpenProps(em, cfg, e, hasSpread, secondArg);
    var previousWasSpread :- EmitAttributes(em, cfg, e);
    EmitCloseProps(em, e, hasSpread, previousWasSpread);
    var children := FilterChildren(e.children);
    var lastRenderableIndex := FindLastRenderable(children);
    EmitOpenChildren(em, cfg, e, children, lastRenderableIndex, secondArg);
    var _ :- EmitChildren(em, cfg, e, children, lastRenderableIndex);
    EmitCloseElement(em, cfg, e, children);
    return Ok(false);
  }

  /** lib/visitor.js:32-75; answers `secondArg`. */
  method EmitHead(em: Emitter, cfg: Config, e: Element) returns (r: Result<bool, JsError>)
    modifies em
    ensures Agrees(r, Head(em.source, cfg, old(em.State()), e), em.State())
    ensures r.Ok? ==> r.value == SecondArg(cfg, e)
  {
    em.Catchup(e.opening.start, TrimLeftFilter);
    var knownTag := IsKnownTag(e.name);
    var secondArg := false;
    if knownTag {
      em.Append(cfg.factory + "('");
    } else if cfg.passUnknownTagsToFactory {
      if cfg.unknownTagsAsString {
        em.Append(cfg.factory + "('");
      } else {
        em.Append(cfg.factory + "(");
      }
    }
    em.Move(e.nameRange.start);
    if knownTag {
      em.Catchup(e.nameRange.end, Verbatim);
      em.Append("'");
      secondArg := true;
    } else if cfg.passUnknownTagsToFactory {
      em.Catchup(e.nameRange.end, Verbatim);
      if cfg.unknownTagsAsString {
        em.Append("'");
      }
      secondArg := true;
    } else {
      if cfg.unknownTagPattern.None? {
        return Err(PatternNotString);
      }
      var tagName := FillPattern(cfg, cfg.unknownTagPattern.value, e.name);
      em.Append(tagName);
      em.Move(e.nameRange.end + (|tagName| - |e.name|));
      em.Append("(");
    }
    return Ok(secondArg);
  }

  /** lib/visitor.js:77-88. */
  method EmitOpenProps(em: Emitter, cfg: Config, e: Element, hasSpread: bool, secondArg: bool)
    requires hasSpread == HasSpread(e.attributes) && secondArg == SecondArg(cfg, e)
    modifies em
    ensures em.State() == OpenProps(cfg, old(em.State()), e)
  {
    if hasSpread {
      if cfg.passUnknownTagsToFactory || IsKnownTag(e.name) {
        em.Append(", " + cfg.spreadFn + "({");
      } else {
        em.Append(cfg.spreadFn + "({");
      }
    } else if |e.attributes| > 0 {
      if secondArg {
        em.Append(", ");
      }
      em.Append("{");
    }
  }

  /** lib/visitor.js:90-166; answers `previousWasSpread` after the last attribute. */
  method EmitAttributes(em: Emitter, cfg: Config, e: Element) returns (r: Result<bool, JsError>)
    modifies em
    ensures Agrees(r, Attributes(em.source, cfg, old(em.State()), e, 0), em.State())
    ensures r.Ok? ==> r.value == PreviousWasSpread(e.attributes, |e.attributes|)
    decreases e, 3
  {
    ghost var whole := Attributes(em.source, cfg, em.State(), e, 0);
    var previousWasSpread := false;
    var index := 0;
    while index < |e.attributes|
      invariant index <= |e.attributes|
      invariant previousWasSpread == PreviousWasSpread(e.attributes, index)
      invariant whole == Attributes(em.source, cfg, em.State(), e, index)
    {
      var _ :- EmitAttribute(em, cfg, e, index, previousWasSpread);
      previousWasSpread := e.attributes[index].SpreadAttribute?;
      index := index + 1;
    }
    return Ok(previousWasSpread);
  }

  /** One `attributes.forEach` callback, lib/visitor.js:92-166. */
  method EmitAttribute(em: Emitter, cfg: Config, e: Element, index: nat, previousWasSpread: bool) returns (r: Result<(), JsError>)
    requires index < |e.attributes| && previousWasSpread == PreviousWasSpread(e.attributes, index)
    modifies em
    ensures Agrees(r, VisitAttribute(em.source, cfg, old(em.State()), e, index), em.State())
    decreases e, 2
  {
    var attributes := e.attributes;
    var isLast := index == |attributes| - 1;
    match attributes[index]
    case SpreadAttribute(range, argument) =>
      r := EmitSpread(em, cfg, range, argument, previousWasSpread, isLast);
    case PlainAttribute(range, name, nameRange, namespace, value) =>
      if !isLast {
        isLast := attributes[index + 1].SpreadAttribute?;
      }
      if namespace.Some? {
        return Err(NamespaceAttribute);
      }
      em.Catchup(range.start, TrimLeftFilter);
      if previousWasSpread {
        em.Append("{");
      }
      em.Append(QuoteJSObjKey(name) + ": ");
      var _ :- EmitAttributeValue(em, cfg, value, nameRange, isLast);
      em.Catchup(range.end, TrimLeftFilter);
      return Ok(());
  }

  /** lib/visitor.js:95-124. */
  method EmitSpread(em: Emitter, cfg: Config, range: Range, argument: Expr, previousWasSpread: bool, isLast: bool) returns (r: Result<(), JsError>)
    modifies em
    ensures Agrees(r, Spread(em.source, cfg, old(em.State()), range, argument, previousWasSpread, isLast), em.State())
    decreases argument, 2
  {
    EmitSpreadOpen(em, range, argument.Span(), previousWasSpread);
    var _ :- TraverseNode(em, cfg, argument);
    EmitSpreadClose(em, range, argument.Span(), isLast);
    return Ok(());
  }

  /** lib/visitor.js:96-106. */
  method EmitSpreadOpen(em: Emitter, range: Range, argumentRange: Range, previousWasSpread: bool)
    modifies em
    ensures em.State() == SpreadOpen(em.source, old(em.State()), range, argumentRange, previousWasSpread)
  {
    ghost var c1 := old(em.State()).AppendIf(!previousWasSpread, "}, ");
    if !previousWasSpread {
      em.Append("}, ");
    }
    assert em.State() == c1;
    em.Catchup(range.start, StripNonParenFilter);
    ghost var c2 := em.State();
    em.Move(range.start + 1);
    assert em.State() == c2.Move(range.start + 1);
    em.Catchup(argumentRange.start, StripNonParenFilter);
  }

  /** lib/visitor.js:110-119. */
  method EmitSpreadClose(em: Emitter, range: Range, argumentRange: Range, isLast: bool)
    modifies em
    ensures em.State() == SpreadClose(em.source, old(em.State()), range, argumentRange, isLast)
  {
    em.Catchup(argumentRange.end, Verbatim);
    em.Catchup(range.end - 1, StripNonParenFilter);
    if !isLast {
      em.Append(", ");
    }
    em.Move(range.end);
  }

  /** lib/visitor.js:147-161. */
  method EmitAttributeValue(em: Emitter, cfg: Config, value: AttrValue, nameRange: Range, isLast: bool) returns (r: Result<(), JsError>)
    modifies em
    ensures Agrees(r, AttributeValue(em.source, cfg, old(em.State()), value, nameRange, isLast), em.State())
    decreases value, 2
  {
    match value
    case NoValue =>
      em.Append("true");
      em.Move(nameRange.end);
      if !isLast {
        em.Append(", ");
      }
      return Ok(());
    case LiteralValue(literal) =>
      em.Move(nameRange.end);
      em.CatchupNewlines(literal.range.start);
      RenderJSXLiteral(em, literal, isLast);
      return Ok(());
    case ContainerValue(container) =>
      em.Move(nameRange.end);
      em.CatchupNewlines(container.range.start);
      r := RenderJSXExpressionContainer(em, cfg, container, isLast);
  }

  /** lib/visitor.js:168-179. */
  method EmitCloseProps(em: Emitter, e: Element, hasSpread: bool, previousWasSpread: bool)
    requires hasSpread == HasSpread(e.attributes)
    requires previousWasSpread == PreviousWasSpread(e.attributes, |e.attributes|)
    modifies em
    ensures em.State() == CloseProps(em.source, old(em.State()), e)
  {
    if !e.closing.SelfClosing? {
      em.Catchup(e.opening.end - 1, TrimLeftFilter);
      em.Move(e.opening.end);
    }
    if |e.attributes| > 0 && !previousWasSpread {
      em.Append("}");
    }
    if hasSpread {
      em.Append(")");
    }
  }

  /** lib/visitor.js:195-202: the `lastRenderableIndex` loop. */
  method FindLastRenderable(children: seq<Child>) returns (lastRenderableIndex: Option<nat>)
    ensures lastRenderableIndex == LastRenderable(children)
  {
    lastRenderableIndex := None;
    var index := 0;
    while index < |children|
      invariant index <= |children|
      invariant lastRenderableIndex == LastRenderable(children[..index])
    {
      assert children[..index + 1][..index] == children[..index];
      if Renderable(children[index]) {
        lastRenderableIndex := Some(index);
      }
      index := index + 1;
    }
    assert children[..index] == children;
  }

  /** lib/visitor.js:188-210, before the children loop. */
  method EmitOpenChildren(em: Emitter, cfg: Config, e: Element, children: seq<Child>, lastRenderableIndex: Option<nat>, secondArg: bool)
    requires secondArg == SecondArg(cfg, e)
    modifies em
    ensures em.State() == OpenChildren(cfg, old(em.State()), e, children, lastRenderableIndex)
  {
    if |children| > 0 {
      if |e.attributes| == 0 {
        if secondArg {
          em.Append(", ");
        }
        em.Append("null");
      }
      if lastRenderableIndex.Some? {
        em.Append(", ");
      }
      if cfg.arrayChildren {
        em.Append("[");
      }
    }
  }

  /** lib/visitor.js:212-230: the `children.forEach` loop. */
  method EmitChildren(em: Emitter, cfg: Config, e: Element, children: seq<Child>, lastRenderableIndex: Option<nat>) returns (r: Result<(), JsError>)
    requires forall k :: 0 <= k < |children| ==> children[k] in e.children
    modifies em
    ensures Agrees(r, Children(em.source, cfg, old(em.State()), e, children, lastRenderableIndex, 0), em.State())
    decreases e, 3
  {
    ghost var whole := Children(em.source, cfg, em.State(), e, children, lastRenderableIndex, 0);
    var index := 0;
    while index < |children|
      invariant index <= |children|
      invariant whole == Children(em.source, cfg, em.State(), e, children, lastRenderableIndex, index)
    {
      var child := children[index];
      assert child in e.children;
      var isLast := lastRenderableIndex.Some? && index >= lastRenderableIndex.value;
      var _ :- EmitChildCallback(em, cfg, child, isLast);
      index := index + 1;
    }
    return Ok(());
  }

  /** One `children.forEach` callback, lib/visitor.js:213-229. */
  method EmitChildCallback(em: Emitter, cfg: Config, child: Child, isLast: bool) returns (r: Result<(), JsError>)
    modifies em
    ensures Agrees(r, ChildCallback(em.source, cfg, old(em.State()), child, isLast), em.State())
    decreases child, 3
  {
    em.Catchup(child.Span().start, TrimLeftFilter);
    var _ :- EmitChild(em, cfg, child, isLast);
    em.Catchup(child.Span().end, TrimLeftFilter);
    return Ok(());
  }

  /** lib/visitor.js:218-227. */
  method EmitChild(em: Emitter, cfg: Config, child: Child, isLast: bool) returns (r: Result<(), JsError>)
    modifies em
    ensures Agrees(r, VisitChild(em.source, cfg, old(em.State()), child, isLast), em.State())
    decreases child, 2
  {
    match child
    case TextChild(literal) =>
      RenderJSXLiteral(em, literal, isLast);
      return Ok(());
    case ContainerChild(container) =>
      r := RenderJSXExpressionContainer(em, cfg, container, isLast);
    case ElementChild(element) =>
      var _ :- VisitNode(em, cfg, element);
      if !isLast {
        em.Append(",");
      }
      return Ok(());
  }

  /** lib/visitor.js:233-247. */
  method EmitCloseElement(em: Emitter, cfg: Config, e: Element, children: seq<Child>)
    modifies em
    ensures em.State() == CloseElement(em.source, cfg, old(em.State()), e, children)
  {
    if e.closing.SelfClosing? {
      em.Catchup(e.opening.end - 2, TrimLeftFilter);
      em.Move(e.opening.end);
    } else {
      em.Catchup(e.closing.range.start, TrimLeftFilter);
      em.Move(e.closing.range.end);
    }
    if cfg.arrayChildren && |children| > 0 {
      em.Append("]");
    }
    em.Append(")");
  }

  /** `renderJSXExpressionContainer`, lib/visitor.js:350-365 (its `false` answer is dropped). */
  method RenderJSXExpressionContainer(em: Emitter, cfg: Config, container: Container, isLast: bool) returns (r: Result<(), JsError>)
    modifies em
    ensures Agrees(r, ExpressionContainer(em.source, cfg, old(em.State()), container, isLast), em.State())
    decreases container, 2
  {
    var expression := container.expression;
    em.Move(container.range.start + 1);
    var _ :- TraverseNode(em, cfg, expression);
    if !isLast && !expression.JSXEmptyExpression? {
      em.Catchup(expression.Span().end, TrimLeftFilter);
      em.Append(", ");
    }
    em.Catchup(container.range.end - 1, TrimLeftFilter);
    em.Move(container.range.end);
    return Ok(());
  }

  /** `traverse(node, path, state)`. */
  method TraverseNode(em: Emitter, cfg: Config, x: Expr) returns (r: Result<(), JsError>)
    modifies em
    ensures Agrees(r, Traverse(em.source, cfg, old(em.State()), x), em.State())
    decreases x, 1
  {
    match x
    case JSXEmptyExpression(_) =>
      return Ok(());
    case JSXElementExpr(element) =>
      var _ :- VisitNode(em, cfg, element);
      return Ok(());
    case Opaque(_, children) =>
      r := TraverseNodes(em, cfg, children);
  }

  /** The child nodes of a node that is not JSX, in order. */
  method TraverseNodes(em: Emitter, cfg: Config, xs: seq<Expr>) returns (r: Result<(), JsError>)
    modifies em
    ensures Agrees(r, TraverseAll(em.source, cfg, old(em.State()), xs, 0), em.State())
    decreases xs, 0
  {
    ghost var whole := TraverseAll(em.source, cfg, em.State(), xs, 0);
    var k := 0;
    while k < |xs|
      invariant k <= |xs|
      invariant whole == TraverseAll(em.source, cfg, em.State(), xs, k)
    {
      var _ :- TraverseNode(em, cfg, xs[k]);
      k := k + 1;
    }
    return Ok(());
  }
}
