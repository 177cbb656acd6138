/**
 * Concrete inputs from the repository's tests and fixtures, worked through the model.
 *
 * Every concrete string fact sits in a lemma of its own; the lemmas about a whole element only
 * chain them.
 */
module JsxExamples {
  import opened Base
  import opened Text
  import opened JsonString
  import opened JsxAst
  import opened Emit
  import opened LiteralRender
  import opened Visitor
  import opened VisitorProps
  import PropsGroups
  import opened Jsx

  // ---------------------------------------------------------------------------------------
  // test/jsx.js:126-134: `<Component foo="bar" />` with the pattern `{tag}.render`

  const customSource: string := "<Component foo=\"bar\" />"

  const fooAttribute: Attribute :=
    PlainAttribute(Range(11, 20), "foo", Range(11, 14), None, LiteralValue(Literal("bar", Range(15, 20))))

  /** The parse of `customSource`. */
  const customElement: Element :=
    Element("Component", Range(1, 10), [fooAttribute], [], Range(0, 23), SelfClosing, Range(0, 23))

  /** A program whose one statement is the element. */
  const customProgram: Expr := Opaque(Range(0, 23), [JSXElementExpr(customElement)])

  const customOptions: Fields :=
    map["factory" := Str("DOM"), "unknownTagPattern" := Str("{tag}.render"), "arrayChildren" := Bool(false)]

  const customConfig: Config := Config("DOM", "Object.assign", false, false, false, Some("{tag}.render"), false)

  lemma CustomOptions()
    ensures Normalize(customOptions).Ok? && IsString(Normalize(customOptions).value, "factory")
    ensures IsString(Normalize(customOptions).value, "spreadFn")
    ensures ConfigOf(Normalize(customOptions).value) == customConfig
  {
    var f := Normalize(customOptions).value;
    assert Get(f, "factory") == Str("DOM");
    assert Get(f, "spreadFn") == Str("Object.assign");
    assert Get(f, "arrayChildren") == Bool(false);
    assert Get(f, "passUnknownTagsToFactory") == Undefined;
    assert Get(f, "unknownTagsAsString") == Undefined;
    assert Get(f, "unknownTagPattern") == Str("{tag}.render");
  }

  lemma ComponentIsUnknown()
    ensures !IsKnownTag("Component")
  {
  }

  lemma ComponentPlain()
    ensures forall i :: 0 <= i < |"Component"| ==> "Component"[i] != '$'
  {
  }

  lemma PatternParts()
    ensures "{tag}.render" == "" + "{tag}" + ".render"
    ensures IndexFrom("" + "{tag}" + ".render", "{tag}", 0) == Some(0)
  {
    assert ("" + "{tag}" + ".render")[0..5] == "{tag}";
  }

  lemma RenderedName()
    ensures "" + "Component" + ".render" == "Component.render"
  {
  }

  lemma RenderPattern()
    ensures FillPattern(customConfig, "{tag}.render", "Component") == "Component.render"
  {
    PatternParts();
    ComponentPlain();
    ReplaceFirstAt("", "{tag}", ".render", "Component");
    RenderedName();
  }

  lemma RenderPatternHead()
    ensures "" + "Component.render" + "(" == "Component.render("
  {
  }

  lemma CustomHead()
    ensures Head(customSource, customConfig, Cursor(0, ""), customElement) == Ok(Cursor(17, "Component.render("))
  {
    ComponentIsUnknown();
    RenderPattern();
    assert customSource[0..0] == "";
    assert Cursor(0, "").Catchup(customSource, 0, TrimLeftFilter) == Cursor(0, "");
    RenderPatternHead();
  }

  lemma StringifyBar()
    ensures Stringify("bar") == "\"bar\""
  {
    EscapePlain("bar");
  }

  lemma BarPlain()
    ensures NoLineBreak("bar") && TabsToSpaces("bar") == "bar"
  {
  }

  lemma BarLiteral()
    ensures LiteralText("bar", true) == "\"bar\""
  {
    BarPlain();
    SingleLineLiteral("bar", true);
    StringifyBar();
    assert "\"bar\"" + "" == "\"bar\"";
  }

  lemma EqualsSign()
    ensures StripNonNewline("=") == ""
  {
  }

  lemma FooValueParts()
    ensures ValueText(customSource, fooAttribute.value, 14, 20, true) ==
      StripNonNewline("=") + LiteralText("bar", true) + TrimLeft("")
  {
    assert customSource[14..15] == "=";
    assert customSource[20..20] == "";
  }

  lemma EmptyAround(x: string)
    ensures "" + x + "" == x
  {
  }

  lemma FooValue()
    ensures ValueText(customSource, fooAttribute.value, 14, 20, true) == "\"bar\""
  {
    FooValueParts();
    EqualsSign();
    BarLiteral();
    EmptyAround("\"bar\"");
  }

  lemma QuoteFoo()
    ensures QuoteJSObjKey("foo") == "foo"
  {
  }

  lemma FooItem()
    ensures "foo" + ": " + "\"bar\"" == "foo: \"bar\""
  {
  }

  /** The texts of the props of `customElement`, from where the head leaves the cursor (17, past
      the start of `foo`): nothing of the source before the attribute is copied. */
  const customTexts: PropsGroups.Texts := PropsGroups.Texts([""], ["foo: \"bar\""], "")

  lemma CustomTexts()
    ensures PropsGroups.TextsOf(customSource, customElement, 17, customTexts)
  {
    var e := customElement;
    CustomPlaced();
    CustomGap();
    CustomItem();
    assert PropsGroups.GapIs(customSource, e, 17, customTexts, 0);
    assert PropsGroups.ItemIs(customSource, e, 17, customTexts, 0);
  }

  lemma CustomPlaced()
    ensures PropsGroups.AttrsPlaced(customSource, customElement, 17)
  {
    assert customElement.attributes == [fooAttribute];
    assert PropsGroups.AttributePlaced(customSource, customElement.attributes, 17, 0);
  }

  /** The head has moved past the start of `foo`, so the catchup before it copies nothing. */
  lemma CustomGap()
    requires PropsGroups.AttrsPlaced(customSource, customElement, 17)
    ensures PropsGroups.GapText(customSource, customElement, 17, 0) == ""
  {
  }

  lemma CustomItem()
    requires PropsGroups.AttrsPlaced(customSource, customElement, 17)
    ensures PropsGroups.ItemText(customSource, customElement.attributes, 0) == "foo: \"bar\""
  {
    assert PropsGroups.AttributePlaced(customSource, customElement.attributes, 17, 0);
    FooValue();
    QuoteFoo();
    FooItem();
  }

  lemma CustomMarks()
    ensures PropsGroups.PropsMarks(customElement.attributes) ==
      [PropsGroups.OpenGroup, PropsGroups.Gap(0), PropsGroups.Item(0), PropsGroups.EndGap, PropsGroups.CloseGroup]
  {
    var attrs := customElement.attributes;
    assert PropsGroups.Marks(attrs, 1) == [];
    assert PropsGroups.Marks(attrs, 0) == [PropsGroups.Gap(0), PropsGroups.Item(0)];
  }

  /** The text of five marks, one by one. */
  lemma RenderFive(tx: PropsGroups.Texts, m0: PropsGroups.Mark, m1: PropsGroups.Mark, m2: PropsGroups.Mark,
    m3: PropsGroups.Mark, m4: PropsGroups.Mark)
    ensures PropsGroups.Render(tx, [m0, m1, m2, m3, m4]) ==
      PropsGroups.RenderMark(tx, m0) + (PropsGroups.RenderMark(tx, m1) + (PropsGroups.RenderMark(tx, m2)
        + (PropsGroups.RenderMark(tx, m3) + PropsGroups.RenderMark(tx, m4))))
  {
    var r0, r1, r2, r3, r4 := PropsGroups.RenderMark(tx, m0), PropsGroups.RenderMark(tx, m1),
      PropsGroups.RenderMark(tx, m2), PropsGroups.RenderMark(tx, m3), PropsGroups.RenderMark(tx, m4);
    PropsGroups.RenderOne(tx, m4);
    assert [m3, m4][1..] == [m4];
    assert PropsGroups.Render(tx, [m3, m4]) == r3 + r4;
    assert [m2, m3, m4][1..] == [m3, m4];
    assert PropsGroups.Render(tx, [m2, m3, m4]) == r2 + (r3 + r4);
    assert [m1, m2, m3, m4][1..] == [m2, m3, m4];
    assert PropsGroups.Render(tx, [m1, m2, m3, m4]) == r1 + (r2 + (r3 + r4));
    assert [m0, m1, m2, m3, m4][1..] == [m1, m2, m3, m4];
    assert PropsGroups.Render(tx, [m0, m1, m2, m3, m4]) == r0 + (r1 + (r2 + (r3 + r4)));
  }

  lemma CustomRender()
    ensures PropsGroups.Render(customTexts, PropsGroups.PropsMarks(customElement.attributes)) == "{foo: \"bar\"}"
  {
    CustomMarks();
    RenderFive(customTexts, PropsGroups.OpenGroup, PropsGroups.Gap(0), PropsGroups.Item(0), PropsGroups.EndGap, PropsGroups.CloseGroup);
    CustomRenderCat();
  }

  lemma CustomRenderCat()
    ensures "{" + ("" + ("foo: \"bar\"" + ("" + "}"))) == "{foo: \"bar\"}"
  {
  }

  /** Props that are one object literal, from a cursor the texts are given for. */
  lemma ObjectProps(src: string, cfg: Config, c: Cursor, e: Element, tx: PropsGroups.Texts, text: string)
    requires PropsGroups.TextsReady(src, e, c.position, tx)
    requires PropsGroups.PropsPrefix(cfg, e) == "" && !HasSpread(e.attributes)
    requires PropsGroups.Render(tx, PropsGroups.PropsMarks(e.attributes)) == text
    ensures var r := Attributes(src, cfg, OpenProps(cfg, c, e), e, 0);
      r.Ok? && CloseProps(src, r.value, e) == Cursor(PropsGroups.PropsEnd(e, c.position), c.buffer + text)
  {
    PropsGroups.PropsOutput(src, cfg, c, e, tx);
    EmptyBeside(c.buffer, text);
  }

  lemma EmptyBeside(b: string, t: string)
    ensures b + "" + t + "" == b + t
  {
  }

  /** The props of the test's element, from where the head leaves the cursor: by the whole-list
      lemma, one object literal. */
  lemma CustomProps(b: string)
    ensures var r := Attributes(customSource, customConfig, OpenProps(customConfig, Cursor(17, b), customElement), customElement, 0);
      r.Ok? && CloseProps(customSource, r.value, customElement) == Cursor(20, b + "{foo: \"bar\"}")
  {
    CustomTexts();
    CustomPrefix();
    CustomRender();
    ObjectProps(customSource, customConfig, Cursor(17, b), customElement, customTexts, "{foo: \"bar\"}");
  }

  lemma CustomPrefix()
    ensures PropsGroups.PropsPrefix(customConfig, customElement) == ""
    ensures !HasSpread(customElement.attributes)
    ensures PropsGroups.PropsEnd(customElement, 17) == 20
  {
    ComponentIsUnknown();
    assert customElement.attributes == [fooAttribute];
  }

  lemma CustomClose(b: string)
    ensures CloseElement(customSource, customConfig, Cursor(20, b), customElement, []) == Cursor(23, b + ")")
  {
    assert customSource[20..21] == " ";
    assert TrimLeft(" ") == "";
  }

  lemma CustomCat()
    ensures "Component.render(" + "{foo: \"bar\"}" + ")" == "Component.render({foo: \"bar\"})"
  {
  }

  lemma CustomVisit()
    ensures Visit(customSource, customConfig, Cursor(0, ""), customElement) == Ok(Cursor(23, "Component.render({foo: \"bar\"})"))
  {
    var e := customElement;
    CustomHead();
    CustomProps("Component.render(");
    var b3 := "Component.render(" + "{foo: \"bar\"}";
    assert FilterChildren(e.children) == [];
    assert Children(customSource, customConfig, Cursor(20, b3), e, [], None, 0) == Ok(Cursor(20, b3));
    CustomClose(b3);
    CustomCat();
  }

  /** A program that is one element statement. */
  lemma SingleElementProgram(src: string, cfg: Config, c: Cursor, r: Range, e: Element)
    ensures Traverse(src, cfg, c, Opaque(r, [JSXElementExpr(e)])) == Visit(src, cfg, c, e)
  {
    var xs := [JSXElementExpr(e)];
    assert Traverse(src, cfg, c, xs[0]) == Visit(src, cfg, c, e);
    if Visit(src, cfg, c, e).Ok? {
      assert TraverseAll(src, cfg, Visit(src, cfg, c, e).value, xs, 1) == Visit(src, cfg, c, e);
    }
  }

  /** A program whose text ends where its last element ends comes out as that element's call. */
  lemma WholeSource(src: string, cfg: Config, r: Range, e: Element, out: string)
    requires Visit(src, cfg, Cursor(0, ""), e) == Ok(Cursor(|src|, out))
    ensures Transform(src, cfg, Opaque(r, [JSXElementExpr(e)])) == Ok(out)
  {
    SingleElementProgram(src, cfg, Cursor(0, ""), r, e);
    assert src[|src|..|src|] == "";
    assert out + "" == out;
  }

  /** The custom pattern test: the element becomes a call of `Component.render`, with or without
      the default pattern, since the caller passes one. */
  lemma CustomPattern()
    ensures FromFields(customSource, customOptions, customProgram) == Ok("Component.render({foo: \"bar\"})")
    ensures FromFieldsIntended(customSource, customOptions, customProgram) == Ok("Component.render({foo: \"bar\"})")
  {
    CustomOptions();
    CustomVisit();
    WholeSource(customSource, customConfig, Range(0, 23), customElement, "Component.render({foo: \"bar\"})");
    CustomPatternKept();
  }

  lemma CustomPatternKept()
    ensures NormalizeIntended(customOptions) == Normalize(customOptions)
  {
    assert Get(customOptions, "unknownTagPattern") == Str("{tag}.render");
    NormalizeIntendedHead(customOptions, customSource, Cursor(0, ""), customElement);
  }

  // ---------------------------------------------------------------------------------------
  // test/jsx.js:72-111: the options and the head of the call

  /** `fromString(src)` without options, or with options that name no factory, throws. */
  lemma NoFactory(src: string, program: Expr, fields: Fields)
    requires !("factory" in fields)
    ensures FromFields(src, fields, program) == Err(MissingFactory)
    ensures FromFieldsIntended(src, fields, program) == Err(MissingFactory)
  {
  }

  lemma MercuryHeadCat()
    ensures "mercury.h" + "('" + "h1" + "'" == "mercury.h('h1'"
  {
  }

  /** With `factory: 'mercury.h'` a known tag becomes `mercury.h('h1'`. */
  lemma FactoryHead()
    ensures var cfg := Config("mercury.h", "Object.assign", true, false, false, None, false);
      HeadText(cfg, "h1") == Ok("mercury.h('h1'")
  {
    assert IsKnownTag("h1");
    MercuryHeadCat();
  }

  lemma PassUnknownCat()
    ensures "DOM" + "(" + "Component" == "DOM(Component"
  {
  }

  /** With `passUnknownTagsToFactory` an unknown tag is passed to the factory as a reference. */
  lemma PassUnknownHead()
    ensures var cfg := Config("DOM", "Object.assign", true, true, false, None, false);
      HeadText(cfg, "Component") == Ok("DOM(Component")
  {
    ComponentIsUnknown();
    PassUnknownCat();
  }

  lemma AsStringCat()
    ensures "DOM" + "('" + "Component" + "'" == "DOM('Component'"
  {
  }

  /** With `unknownTagsAsString` as well, it is passed as a string. */
  lemma UnknownAsStringHead()
    ensures var cfg := Config("DOM", "Object.assign", true, true, true, None, false);
      HeadText(cfg, "Component") == Ok("DOM('Component'")
  {
    ComponentIsUnknown();
    AsStringCat();
  }

  // ---------------------------------------------------------------------------------------
  // The default `unknownTagPattern` never written: `<Component />` with `{factory: 'DOM'}`

  const bareSource: string := "<Component />"

  const bareElement: Element := Element("Component", Range(1, 10), [], [], Range(0, 13), SelfClosing, Range(0, 13))

  const bareProgram: Expr := Opaque(Range(0, 13), [JSXElementExpr(bareElement)])

  const domOptions: Fields := map["factory" := Str("DOM")]

  /** As written, the options of the repository's own tests make an unknown tag throw. */
  lemma BareComponentThrows()
    ensures FromFields(bareSource, domOptions, bareProgram).Err?
    ensures FromFields(bareSource, domOptions, bareProgram).error == PatternNotString
  {
    var f := Normalize(domOptions).value;
    assert Get(f, "unknownTagPattern") == Undefined;
    NormalizeStrings(domOptions);
    var cfg := ConfigOf(f);
    ComponentIsUnknown();
    assert Head(bareSource, cfg, Cursor(0, ""), bareElement) == Err(PatternNotString);
    SingleElementProgram(bareSource, cfg, Cursor(0, ""), Range(0, 13), bareElement);
  }

  /** The pattern `{tag}` leaves every tag name without `$` as it is, and every tag name when
      the name is inserted literally. */
  lemma TagPatternIdentity(cfg: Config, name: string)
    requires cfg.literalTagNames || forall i :: 0 <= i < |name| ==> name[i] != '$'
    ensures FillPattern(cfg, "{tag}", name) == name
  {
    assert "{tag}" == "" + "{tag}" + "";
    assert IndexFrom("{tag}", "{tag}", 0) == Some(0);
    if cfg.literalTagNames {
      ReplaceFirstLiteralAt("", "{tag}", "", name);
    } else {
      ReplaceFirstAt("", "{tag}", "", name);
    }
    assert "" + name + "" == name;
  }

  const intendedConfig: Config := Config("DOM", "Object.assign", true, false, false, Some("{tag}"), false)

  lemma DomOptionsIntended()
    ensures NormalizeIntended(domOptions).Ok? && IsString(NormalizeIntended(domOptions).value, "factory")
    ensures IsString(NormalizeIntended(domOptions).value, "spreadFn")
    ensures ConfigOf(NormalizeIntended(domOptions).value) == intendedConfig
  {
    var f := NormalizeIntended(domOptions).value;
    assert Get(f, "factory") == Str("DOM");
    assert Get(f, "spreadFn") == Str("Object.assign");
    assert Get(f, "arrayChildren") == Bool(true);
    assert Get(f, "passUnknownTagsToFactory") == Undefined;
    assert Get(f, "unknownTagsAsString") == Undefined;
    assert Get(f, "unknownTagPattern") == Str("{tag}");
  }

  lemma ComponentHead()
    ensures "Component" + "(" == "Component("
  {
  }

  lemma BareHead()
    ensures Head(bareSource, intendedConfig, Cursor(0, ""), bareElement) == Ok(Cursor(10, "Component("))
  {
    ComponentIsUnknown();
    ComponentPattern();
    assert bareSource[0..0] == "";
    assert Cursor(0, "").Catchup(bareSource, 0, TrimLeftFilter) == Cursor(0, "");
    assert Cursor(0, "").Move(1).Append("Component").Move(10) == Cursor(10, "" + "Component");
    assert "" + "Component" == "Component";
    ComponentHead();
  }

  lemma ComponentPattern()
    ensures FillPattern(intendedConfig, "{tag}", "Component") == "Component"
  {
    ComponentPlain();
    TagPatternIdentity(intendedConfig, "Component");
  }

  lemma BareClose(b: string)
    ensures CloseElement(bareSource, intendedConfig, Cursor(10, b), bareElement, []) == Cursor(13, b + ")")
  {
    assert bareSource[10..11] == " ";
    assert TrimLeft(" ") == "";
  }

  lemma BareCat()
    ensures "Component(" + ")" == "Component()"
  {
  }

  lemma BareVisit()
    ensures Visit(bareSource, intendedConfig, Cursor(0, ""), bareElement) == Ok(Cursor(13, "Component()"))
  {
    BareHead();
    var c := Cursor(10, "Component(");
    assert OpenProps(intendedConfig, c, bareElement) == c;
    assert CloseProps(bareSource, c, bareElement) == c;
    assert FilterChildren(bareElement.children) == [];
    BareClose("Component(");
    BareCat();
  }

  /** With the default pattern the tests rely on, the same input becomes the call `Component()`. */
  lemma BareComponentIntended()
    ensures FromFieldsIntended(bareSource, domOptions, bareProgram) == Ok("Component()")
  {
    DomOptionsIntended();
    BareVisit();
    WholeSource(bareSource, intendedConfig, Range(0, 13), bareElement, "Component()");
  }

  // ---------------------------------------------------------------------------------------
  // A tag name holding `$$`: `replace` reads it as a replacement pattern (lib/visitor.js:68)

  const dollarSource: string := "<$$ />"

  const dollarElement: Element := Element("$$", Range(1, 3), [], [], Range(0, 6), SelfClosing, Range(0, 6))

  const dollarProgram: Expr := Opaque(Range(0, 6), [JSXElementExpr(dollarElement)])

  const dollarOptions: Fields := map["factory" := Str("DOM"), "unknownTagPattern" := Str("{tag}")]

  /** The options `fromString` hands the visitor for `dollarOptions`. */
  const dollarConfig: Config := Config("DOM", "Object.assign", true, false, false, Some("{tag}"), false)

  /** The same options with the tag name inserted literally. */
  const dollarLiteral: Config := Config("DOM", "Object.assign", true, false, false, Some("{tag}"), true)

  lemma DollarOptions()
    ensures Normalize(dollarOptions).Ok? && IsString(Normalize(dollarOptions).value, "factory")
    ensures IsString(Normalize(dollarOptions).value, "spreadFn")
    ensures ConfigOf(Normalize(dollarOptions).value) == dollarConfig
  {
    var f := Normalize(dollarOptions).value;
    assert Get(f, "factory") == Str("DOM");
    assert Get(f, "spreadFn") == Str("Object.assign");
    assert Get(f, "arrayChildren") == Bool(true);
    assert Get(f, "passUnknownTagsToFactory") == Undefined;
    assert Get(f, "unknownTagsAsString") == Undefined;
    assert Get(f, "unknownTagPattern") == Str("{tag}");
  }

  /** As written, the pattern `{tag}` turns the name `$$` into `$`. */
  lemma DollarTagAsWritten()
    ensures FillPattern(dollarConfig, "{tag}", "$$") == "$"
  {
    assert "{tag}" == "" + "{tag}" + "";
    assert IndexFrom("{tag}", "{tag}", 0) == Some(0);
    assert Substitution("$$", "{tag}", "", "") == "$" + Substitution("", "{tag}", "", "");
    assert ("{tag}")[..0] == "" && ("{tag}")[5..] == "";
  }

  /** The name is one character short, so the cursor stops inside it. */
  lemma DollarHeadAsWritten()
    ensures Head(dollarSource, dollarConfig, Cursor(0, ""), dollarElement) == Ok(Cursor(2, "$("))
  {
    assert !IsKnownTag("$$");
    DollarTagAsWritten();
    assert dollarSource[0..0] == "";
    assert Cursor(0, "").Catchup(dollarSource, 0, TrimLeftFilter) == Cursor(0, "");
    assert dollarElement.nameRange.end + (|"$"| - |dollarElement.name|) == 2;
    assert "" + "$" + "(" == "$(";
  }

  /** ... and the closing catchup copies the second `$` and the space into the call. */
  lemma DollarCloseAsWritten(b: string)
    ensures CloseElement(dollarSource, dollarConfig, Cursor(2, b), dollarElement, []) == Cursor(6, b + "$ " + ")")
  {
    assert dollarSource[2..4] == "$ ";
    assert TrimLeft("$ ") == "$ ";
  }

  /** `<$$ />` with the pattern `{tag}` becomes `$($ )` as written. */
  lemma DollarVisitAsWritten()
    ensures Visit(dollarSource, dollarConfig, Cursor(0, ""), dollarElement) == Ok(Cursor(6, "$($ )"))
  {
    DollarHeadAsWritten();
    var c := Cursor(2, "$(");
    assert OpenProps(dollarConfig, c, dollarElement) == c;
    assert CloseProps(dollarSource, c, dollarElement) == c;
    assert FilterChildren(dollarElement.children) == [];
    DollarCloseAsWritten("$(");
    assert "$(" + "$ " + ")" == "$($ )";
  }

  /** `fromString('<$$ />', {factory: 'DOM', unknownTagPattern: '{tag}'})` as written. */
  lemma DollarFromString()
    ensures FromFields(dollarSource, dollarOptions, dollarProgram) == Ok("$($ )")
  {
    DollarOptions();
    DollarVisitAsWritten();
    WholeSource(dollarSource, dollarConfig, Range(0, 6), dollarElement, "$($ )");
  }

  lemma DollarHeadLiteral()
    ensures Head(dollarSource, dollarLiteral, Cursor(0, ""), dollarElement) == Ok(Cursor(3, "$$("))
  {
    assert !IsKnownTag("$$");
    TagPatternIdentity(dollarLiteral, "$$");
    assert dollarSource[0..0] == "";
    assert Cursor(0, "").Catchup(dollarSource, 0, TrimLeftFilter) == Cursor(0, "");
    assert "" + "$$" + "(" == "$$(";
  }

  lemma DollarCloseLiteral(b: string)
    ensures CloseElement(dollarSource, dollarLiteral, Cursor(3, b), dollarElement, []) == Cursor(6, b + ")")
  {
    assert dollarSource[3..4] == " ";
    assert TrimLeft(" ") == "";
  }

  /** With the name inserted literally, the same program becomes `$$()`. */
  lemma DollarTagIntended()
    ensures Transform(dollarSource, dollarLiteral, dollarProgram) == Ok("$$()")
  {
    DollarHeadLiteral();
    var c := Cursor(3, "$$(");
    assert OpenProps(dollarLiteral, c, dollarElement) == c;
    assert CloseProps(dollarSource, c, dollarElement) == c;
    assert FilterChildren(dollarElement.children) == [];
    DollarCloseLiteral("$$(");
    assert "$$(" + ")" == "$$()";
    assert Visit(dollarSource, dollarLiteral, Cursor(0, ""), dollarElement) == Ok(Cursor(6, "$$()"));
    WholeSource(dollarSource, dollarLiteral, Range(0, 6), dollarElement, "$$()");
  }

  // ---------------------------------------------------------------------------------------
  // test/fixture_spread_attrs.jsx:6 and the line it becomes, test/fixture_spread_attrs.js:6:
  // two spreads and a plain attribute, with `arrayChildren: false` as test/jsx.js:136-142 passes it

  // The source and the expected output are built from short pieces, whose slices the verifier
  // reads off cheaply.
  const spreadHead: string := "<Component "
  const firstSpreadText: string := "{..." + "firstSpread" + "} "
  const secondSpreadText: string := "{..." + "secondSpread" + "} "
  const bazText: string := "foo=\"baz\" />"
  const spreadSource: string := spreadHead + firstSpreadText + secondSpreadText + bazText

  const spreadExpected: string := "Component(Object.assign({}, " + "firstSpread, secondSpread, " + "{foo: \"baz\"}))"

  const firstSpreadAttr: Attribute := SpreadAttribute(Range(11, 27), Opaque(Range(15, 26), []))

  const secondSpreadAttr: Attribute := SpreadAttribute(Range(28, 45), Opaque(Range(32, 44), []))

  const bazAttr: Attribute :=
    PlainAttribute(Range(46, 55), "foo", Range(46, 49), None, LiteralValue(Literal("baz", Range(50, 55))))

  const spreadElement: Element :=
    Element("Component", Range(1, 10), [firstSpreadAttr, secondSpreadAttr, bazAttr], [], Range(0, 58), SelfClosing, Range(0, 58))

  const spreadProgram: Expr := Opaque(Range(0, 58), [JSXElementExpr(spreadElement)])

  const spreadOptions: Fields := map["factory" := Str("DOM"), "arrayChildren" := Bool(false)]

  const spreadConfig: Config := Config("DOM", "Object.assign", false, false, false, Some("{tag}"), false)

  lemma SpreadOptionsIntended()
    ensures NormalizeIntended(spreadOptions).Ok? && IsString(NormalizeIntended(spreadOptions).value, "factory")
    ensures IsString(NormalizeIntended(spreadOptions).value, "spreadFn")
    ensures ConfigOf(NormalizeIntended(spreadOptions).value) == spreadConfig
  {
    var f := NormalizeIntended(spreadOptions).value;
    assert Get(f, "factory") == Str("DOM");
    assert Get(f, "spreadFn") == Str("Object.assign");
    assert Get(f, "arrayChildren") == Bool(false);
    assert Get(f, "passUnknownTagsToFactory") == Undefined;
    assert Get(f, "unknownTagsAsString") == Undefined;
    assert Get(f, "unknownTagPattern") == Str("{tag}");
  }

  lemma SpreadSlices()
    ensures |spreadHead| == 11 && |firstSpreadText| == 17 && |secondSpreadText| == 18 && |bazText| == 12
    ensures |spreadSource| == 58 && spreadSource[0..0] == "" && spreadSource[10..11] == " "
  {
    assert spreadSource[0..11] == spreadHead;
  }

  lemma FirstSpreadSlices()
    ensures |spreadSource| == 58
    ensures spreadSource[12..15] == "..." && spreadSource[15..26] == "firstSpread"
    ensures spreadSource[26..26] == "" && spreadSource[27..28] == " "
  {
    SpreadSlices();
    assert spreadSource[11..28] == firstSpreadText;
  }

  lemma SecondSpreadSlices()
    ensures |spreadSource| == 58
    ensures spreadSource[29..32] == "..." && spreadSource[32..44] == "secondSpread"
    ensures spreadSource[44..44] == "" && spreadSource[45..46] == " "
  {
    SpreadSlices();
    assert spreadSource[28..46] == secondSpreadText;
  }

  lemma BazSlices()
    ensures |spreadSource| == 58
    ensures spreadSource[49..50] == "=" && spreadSource[55..55] == "" && spreadSource[55..56] == " "
  {
    SpreadSlices();
    assert spreadSource[46..58] == bazText;
  }

  lemma SpreadHead()
    ensures Head(spreadSource, spreadConfig, Cursor(0, ""), spreadElement) == Ok(Cursor(10, "Component("))
  {
    ComponentIsUnknown();
    ComponentPattern();
    SpreadSlices();
    assert Cursor(0, "").Catchup(spreadSource, 0, TrimLeftFilter) == Cursor(0, "");
    assert Cursor(0, "").Move(1).Append("Component").Move(10) == Cursor(10, "" + "Component");
    assert "" + "Component" == "Component";
    ComponentHead();
  }

  lemma SpacesAndDots()
    ensures StripNonParen(" ") == "" && StripNonParen("...") == "" && StripNonParen("") == ""
    ensures TrimLeft(" ") == "" && TrimLeft("") == ""
  {
  }

  lemma FirstSpreadCat()
    ensures "" + "firstSpread" + "" + ", " == "firstSpread, "
  {
  }

  lemma FirstSpreadText()
    ensures SpreadPlaced(spreadSource, firstSpreadAttr)
    ensures SpreadText(spreadSource, firstSpreadAttr, false) == "firstSpread, "
  {
    FirstSpreadSlices();
    SpacesAndDots();
    FirstSpreadCat();
  }

  lemma SecondSpreadCat()
    ensures "" + "secondSpread" + "" + ", " == "secondSpread, "
  {
  }

  lemma SecondSpreadText()
    ensures SpreadPlaced(spreadSource, secondSpreadAttr)
    ensures SpreadText(spreadSource, secondSpreadAttr, false) == "secondSpread, "
  {
    SecondSpreadSlices();
    SpacesAndDots();
    SecondSpreadCat();
  }

  lemma BazValueParts()
    ensures ValueText(spreadSource, bazAttr.value, 49, 55, true) ==
      StripNonNewline("=") + LiteralText("baz", true) + TrimLeft("")
  {
    BazSlices();
  }

  lemma BazValue()
    ensures ValueText(spreadSource, bazAttr.value, 49, 55, true) == "\"baz\""
  {
    BazValueParts();
    EqualsSign();
    BazLiteral();
    EmptyAround("\"baz\"");
  }

  lemma BazPlain()
    ensures NoLineBreak("baz") && TabsToSpaces("baz") == "baz"
  {
  }

  lemma StringifyBaz()
    ensures Stringify("baz") == "\"baz\""
  {
    EscapePlain("baz");
  }

  lemma BazLiteral()
    ensures LiteralText("baz", true) == "\"baz\""
  {
    BazPlain();
    SingleLineLiteral("baz", true);
    StringifyBaz();
    assert "\"baz\"" + "" == "\"baz\"";
  }

  lemma BazText()
    ensures AttributeText(spreadSource, bazAttr, true, true) == "{foo: \"baz\""
  {
    var v := ValueText(spreadSource, bazAttr.value, 49, 55, true);
    var k := QuoteJSObjKey("foo");
    assert AttributeText(spreadSource, bazAttr, true, true) == "{" + k + ": " + v;
    BazValue();
    QuoteFoo();
    BazTextCat();
  }

  lemma BazTextCat()
    ensures "{" + "foo" + ": " + "\"baz\"" == "{foo: \"baz\""
  {
  }

  lemma SpreadFirst(b: string)
    ensures VisitAttribute(spreadSource, spreadConfig, Cursor(10, b), spreadElement, 0) == Ok(Cursor(27, b + "}, " + "firstSpread, "))
  {
    FirstSpreadText();
    SpreadOutput(spreadSource, spreadConfig, Cursor(10, b), firstSpreadAttr, false, false);
    SpreadSlices();
    SpacesAndDots();
    assert Cursor(10, b).AppendIf(true, "}, ").Catchup(spreadSource, 11, StripNonParenFilter) == Cursor(11, b + "}, " + "");
    assert b + "}, " + "" == b + "}, ";
  }

  lemma SpreadSecond(b: string)
    ensures VisitAttribute(spreadSource, spreadConfig, Cursor(27, b), spreadElement, 1) == Ok(Cursor(45, b + "secondSpread, "))
  {
    SecondSpreadText();
    SpreadOutput(spreadSource, spreadConfig, Cursor(27, b), secondSpreadAttr, true, false);
    FirstSpreadSlices();
    SpacesAndDots();
    assert Cursor(27, b).Catchup(spreadSource, 28, StripNonParenFilter) == Cursor(28, b + "");
    assert b + "" == b;
  }

  lemma BazPlaced()
    ensures spreadElement.attributes[2] == bazAttr
    ensures ValuePlaced(spreadSource, bazAttr.value, 49, 55)
    ensures PreviousWasSpread(spreadElement.attributes, 2) && LastBeforeSpread(spreadElement.attributes, 2)
  {
    SpreadSlices();
  }

  lemma BazCatchup(b: string)
    ensures Cursor(45, b).Catchup(spreadSource, 46, TrimLeftFilter).buffer == b
  {
    SecondSpreadSlices();
    SpacesAndDots();
    assert b + "" == b;
  }

  lemma SpreadPlain(b: string)
    ensures VisitAttribute(spreadSource, spreadConfig, Cursor(45, b), spreadElement, 2) == Ok(Cursor(55, b + "{foo: \"baz\""))
  {
    BazPlaced();
    AttributeOutput(spreadSource, spreadConfig, Cursor(45, b), spreadElement, 2);
    BazCatchup(b);
    BazText();
  }

  /** One step of the attribute loop. */
  lemma AttributeStep(src: string, cfg: Config, c: Cursor, e: Element, i: nat, c1: Cursor)
    requires i < |e.attributes| && VisitAttribute(src, cfg, c, e, i) == Ok(c1)
    ensures Attributes(src, cfg, c, e, i) == Attributes(src, cfg, c1, e, i + 1)
  {
  }

  lemma SpreadAttributes(b: string)
    ensures Attributes(spreadSource, spreadConfig, Cursor(10, b), spreadElement, 0) ==
      Ok(Cursor(55, b + "}, " + "firstSpread, " + "secondSpread, " + "{foo: \"baz\""))
  {
    var e := spreadElement;
    var b1 := b + "}, " + "firstSpread, ";
    var b2 := b1 + "secondSpread, ";
    var b3 := b2 + "{foo: \"baz\"";
    SpreadFirst(b);
    AttributeStep(spreadSource, spreadConfig, Cursor(10, b), e, 0, Cursor(27, b1));
    SpreadSecond(b1);
    AttributeStep(spreadSource, spreadConfig, Cursor(27, b1), e, 1, Cursor(45, b2));
    SpreadPlain(b2);
    AttributeStep(spreadSource, spreadConfig, Cursor(45, b2), e, 2, Cursor(55, b3));
    assert Attributes(spreadSource, spreadConfig, Cursor(55, b3), e, 3) == Ok(Cursor(55, b3));
  }

  lemma SpreadClose(b: string)
    ensures CloseElement(spreadSource, spreadConfig, Cursor(55, b), spreadElement, []) == Cursor(58, b + ")")
  {
    BazSlices();
    SpacesAndDots();
  }

  lemma SpreadCat1()
    ensures "Component(" + "Object.assign({" + "}, " == "Component(Object.assign({}, "
  {
  }

  lemma SpreadCat2()
    ensures "firstSpread, " + "secondSpread, " == "firstSpread, secondSpread, "
  {
  }

  lemma SpreadCat3()
    ensures "{foo: \"baz\"" + "}" + ")" + ")" == "{foo: \"baz\"}))"
  {
  }

  lemma Regroup(a: string, b: string, c: string, d: string, e: string, f: string, g: string, h: string, i: string)
    ensures a + b + c + d + e + f + g + h + i == (a + b + c) + (d + e) + (f + g + h + i)
  {
  }

  lemma SpreadCat()
    ensures "Component(" + "Object.assign({" + "}, " + "firstSpread, " + "secondSpread, " + "{foo: \"baz\"" + "}" + ")" + ")" == spreadExpected
  {
    SpreadCat1();
    SpreadCat2();
    SpreadCat3();
    Regroup("Component(", "Object.assign({", "}, ", "firstSpread, ", "secondSpread, ", "{foo: \"baz\"", "}", ")", ")");
  }

  lemma SpreadVisit()
    ensures Visit(spreadSource, spreadConfig, Cursor(0, ""), spreadElement) ==
      Ok(Cursor(58, spreadExpected))
  {
    var e := spreadElement;
    SpreadHead();
    ComponentIsUnknown();
    assert e.attributes[0].SpreadAttribute?;
    assert HasSpread(e.attributes) && !SecondArg(spreadConfig, e);
    var b2 := "Component(" + "Object.assign({";
    assert OpenProps(spreadConfig, Cursor(10, "Component("), e) == Cursor(10, b2);
    SpreadAttributes(b2);
    var b3 := b2 + "}, " + "firstSpread, " + "secondSpread, " + "{foo: \"baz\"";
    assert !PreviousWasSpread(e.attributes, 3);
    assert CloseProps(spreadSource, Cursor(55, b3), e) == Cursor(55, b3 + "}" + ")");
    assert FilterChildren(e.children) == [];
    SpreadClose(b3 + "}" + ")");
    SpreadCat();
  }

  /** The fixture's line for `<Component {...firstSpread} {...secondSpread} foo="baz" />`: it
      holds only with the default `unknownTagPattern` the tests rely on, which lib/jsx.js never
      writes (see `SpreadFixtureAsWritten`). */
  lemma SpreadFixture()
    ensures FromFieldsIntended(spreadSource, spreadOptions, spreadProgram) ==
      Ok(spreadExpected)
  {
    SpreadOptionsIntended();
    SpreadVisit();
    WholeSource(spreadSource, spreadConfig, Range(0, 58), spreadElement, spreadExpected);
  }

  /** As written, the options test/jsx.js:136-142 passes make the same element throw: the tag is
      unknown and no pattern is given. */
  lemma SpreadFixtureAsWritten()
    ensures FromFields(spreadSource, spreadOptions, spreadProgram).Err?
    ensures FromFields(spreadSource, spreadOptions, spreadProgram).error == PatternNotString
  {
    var f := Normalize(spreadOptions).value;
    assert Get(f, "unknownTagPattern") == Undefined;
    NormalizeStrings(spreadOptions);
    var cfg := ConfigOf(f);
    ComponentIsUnknown();
    assert Head(spreadSource, cfg, Cursor(0, ""), spreadElement) == Err(PatternNotString);
    SingleElementProgram(spreadSource, cfg, Cursor(0, ""), Range(0, 58), spreadElement);
  }
}
