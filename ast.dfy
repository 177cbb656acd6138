/**
 * The parsed JSX the visitor consumes: elements with their attributes and children, each node
 * carrying its `[start, end)` range into the source text. Code that is not JSX is an opaque node:
 * only its range and its child nodes, in source order, are kept.
 */
module JsxAst {
  import opened Base

  /** `node.range`: the offsets `[start, end)` of a node in the source text. */
  datatype Range = Range(start: nat, end: nat)

  /** A `JSXIdentifier` tag name; the parser never produces an empty one. */
  type TagName = s: string | |s| > 0 witness "a"

  /** A `Literal` node: a JSX text run or a quoted attribute value, with its cooked string. */
  datatype Literal = Literal(value: string, range: Range)

  /** A node in an expression position: `{}` (possibly holding a comment), a JSX element, or any
      other syntax node together with its children. */
  datatype Expr =
    | JSXEmptyExpression(range: Range)
    | JSXElementExpr(element: Element)
    | Opaque(range: Range, children: seq<Expr>)
  {
    function Span(): Range
    {
      match this
      case JSXElementExpr(e) => e.range
      case JSXEmptyExpression(r) => r
      case Opaque(r, _) => r
    }
  }

  /** A `JSXExpressionContainer`: `{expression}`, its range covering the braces. */
  datatype Container = Container(expression: Expr, range: Range)

  datatype AttrValue =
    | NoValue
    | LiteralValue(literal: Literal)
    | ContainerValue(container: Container)

  /** A `JSXSpreadAttribute` (`{...argument}`) or a `JSXAttribute` (`name=value`, or
      `namespace:name=value`). */
  datatype Attribute =
    | SpreadAttribute(range: Range, argument: Expr)
    | PlainAttribute(range: Range, name: string, nameRange: Range, namespace: Option<string>, value: AttrValue)

  /** The closing side of an element: `/>` on the opening element, or a `</name>` element. */
  datatype Closing = SelfClosing | ClosingElement(range: Range)

  /** A `JSXElement`. `opening` is the range of the opening element `<name ...>` or `<name .../>`. */
  datatype Element = Element(
    name: TagName,
    nameRange: Range,
    attributes: seq<Attribute>,
    children: seq<Child>,
    opening: Range,
    closing: Closing,
    range: Range)
  {
    predicate SelfClosing() { closing.SelfClosing? }
  }

  datatype Child =
    | TextChild(literal: Literal)
    | ContainerChild(container: Container)
    | ElementChild(element: Element)
  {
    function Span(): Range
    {
      match this
      case TextChild(l) => l.range
      case ContainerChild(c) => c.range
      case ElementChild(e) => e.range
    }
  }
}
