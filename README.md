# jsx-transform: the JSX tag desugarer, modelled in Dafny

jsx-transform turns JSX into plain JavaScript calls. `visitNode` (lib/visitor.js) handles one
parsed JSX element and rewrites it as a call expression:

- `<div a="b">x</div>` becomes `DOM('div', {a: "b"}, ["x"])`;
- an unknown tag `<Component />` becomes `Component()`, or `DOM(Component)` when unknown tags
  are passed to the factory;
- spread attributes become `Object.assign({}, a, b, {k: v})`.

It writes its output by driving a cursor emitter over the original source text:

- `catchup` copies source text up to an offset, optionally through a filter;
- `move` sets the cursor without copying;
- `append` writes literal text.

`fromString` (lib/jsx.js) checks and completes the caller's options before the transform runs.

The model has these modules:

- `Text`: the string helpers `trimLeft`, `stripNonParen` and `quoteJSObjKey`, plus the built-ins
  the visitor relies on. These are `split` on line breaks, `replace` with a string pattern, and
  the tests of the whitespace-only child and the known tag.
- `JsonString`: `JSON.stringify` of a string, proved invertible by the string half of
  `JSON.parse`.
- `JsxAst`: the parsed tree. Every node has a `[start, end)` range. Code that is not JSX is an
  opaque node that keeps only its child nodes.
- `Emit`: the emitter. `Cursor` is its state as a value, and `Emitter` is the mutable object the
  methods write through.
- `LiteralRender`: `renderJSXLiteral`, with its two line loops as methods.
- `Visitor`: for every step of `visitNode`, a function gives its effect on the emitter state and
  a method makes the same calls on an `Emitter`. Each method is proved to agree with its
  function. `renderJSXExpressionContainer` and `traverse` are modelled the same way.
- `VisitorProps`: what the output looks like. This covers where the cursor ends, the closing
  `)`, exactly when the visitor throws, the text of the head, attributes, spreads and
  containers, and the child filter.
- `PropsGroups`: the props argument and the opening of the children for a whole element. The
  attributes come out as one `spreadFn(...)` call of object groups and spread arguments in
  source order, or as a single object literal.
- `Jsx`: `fromString`'s options handling, as a class whose methods complete the caller's object
  in place, and the transform as a whole. This includes the `renameAttrs` default that
  `visitNode` writes into the same object.
- `JsxExamples`: inputs from the repository's tests and fixtures, worked through the model.

## Model

| member | source | states |
|---|---|---|
| Text.TrimLeft | lib/visitor.js:388-390 | `trimLeft` never lengthens its input, and its result does not start with a space |
| Text.TrimLeftSuffix | lib/visitor.js:388-390 | `trimLeft` removes a prefix made only of spaces, so exactly the maximal leading run of spaces goes and tabs stay |
| Text.TrimLeftIdempotent | lib/visitor.js:388-390 | trimming twice gives the same result as trimming once |
| Text.TrimRight | lib/visitor.js:303 | `replace(/[ ]+$/, '')` keeps a prefix, removes only spaces, and leaves no trailing space |
| Text.TabsToSpaces | lib/visitor.js:296 | every tab becomes a space, and every other character is kept in place |
| Text.LeadingBlanks | lib/visitor.js:307 | the result is the maximal prefix of spaces and tabs |
| Text.TrailingBlanks | lib/visitor.js:327 | the result is the maximal suffix of spaces and tabs |
| Text.KeepOnly | lib/visitor.js:395-398 | only characters of the kept set remain |
| Text.KeepOnlyCount | lib/visitor.js:395-398 | every kept character occurs as often as in the input |
| Text.KeepOnlyConcat | lib/visitor.js:395-398 | filtering works piece by piece, so the order is kept |
| Text.StripNonParen | lib/visitor.js:392-398 | `stripNonParen` returns only `(` and `)` characters |
| Text.StripNonParenCount | lib/visitor.js:392-398 | every parenthesis of the input survives |
| Text.StripNonParenConcat | lib/visitor.js:392-398 | stripping distributes over concatenation, so the parentheses keep their order |
| Text.StripNonNewline | lib/visitor.js:149 | the `catchupNewlines` filter returns only `\n` characters |
| Text.StripNonNewlineCount | lib/visitor.js:149 | every `\n` of the input survives |
| Text.QuoteJSObjKey | lib/visitor.js:374-379 | the key is the name itself iff the name matches `/^[a-z_$][a-z\d_$]*$/i`; otherwise it is the name in single quotes |
| Text.QuoteJSObjKeyInjective | lib/visitor.js:374-379 | two different attribute names never give the same key |
| Text.IsKnownTag | lib/visitor.js:36 | a tag is known iff its first character is a lower-case letter |
| Text.IndexFrom | lib/visitor.js:68 | the result is the first occurrence of the pattern at or after `from`, or none |
| Text.SubstitutionPlain | lib/visitor.js:68 | a replacement string without `$` is inserted by `replace` as it is |
| Text.ReplaceFirstAt | lib/visitor.js:68 | `replace` with a string pattern replaces only its first occurrence and keeps the rest (for a replacement without `$`) |
| Text.ReplaceFirstAbsent | lib/visitor.js:68 | without an occurrence of the pattern, `replace` returns its input |
| Text.ReplaceFirstLiteralAt | lib/visitor.js:68 | the literal replacement puts the name in place of the first `{tag}`, whatever its characters |
| Text.SplitLines | lib/visitor.js:276 | `split(/\r\n\|\n\|\r/)` gives one more line than there are line breaks, and no line holds a break |
| Text.SplitLinesSingle | lib/visitor.js:276 | text without a line break is a single line |
| Text.JoinSplitLines | lib/visitor.js:276 | joining the lines with `\n` gives back the text, with its breaks normalised |
| Text.BlankLineBreakRegex | lib/visitor.js:182-186 | the whitespace-only test holds iff `/^[ \t]*[\r\n][ \t\r\n]*$/` matches |
| JsonString.Escape | lib/visitor.js:312 | the escaped text holds no control character |
| JsonString.EscapePlain | lib/visitor.js:312 | text without quotes, backslashes or control characters is not escaped |
| JsonString.Stringify | lib/visitor.js:312 | `JSON.stringify` of a string is double-quoted and has no control character, so no line break |
| JsonString.HexRoundTrip | lib/visitor.js:312 | every hex digit written by the escape reads back as its value |
| JsonString.UnescapeEscapeChar | lib/visitor.js:312 | decoding one escaped character gives that character back |
| JsonString.ParseStringify | lib/visitor.js:312 | `JSON.parse(JSON.stringify(s))` is `s` |
| Emit.Substring | lib/visitor.js:32 | inside the source, `substring` is the slice |
| Emit.Cursor.Catchup | lib/visitor.js:32 | a catchup leaves the cursor at the later of its position and the target |
| Emit.Emitter.constructor | lib/jsx.js:72 | a transform starts at offset 0 with an empty buffer |
| Emit.Emitter.Catchup | lib/visitor.js:103 | `utils.catchup` changes the state as `Cursor.Catchup` does, and nothing else |
| Emit.Emitter.CatchupNewlines | lib/visitor.js:149 | `utils.catchupNewlines` is a catchup that keeps only the `\n` characters |
| Emit.Emitter.Move | lib/visitor.js:157 | `move`, and the direct write of `state.g.position`, set the cursor and keep the buffer |
| Emit.Emitter.Append | lib/visitor.js:156 | `append`, and `buffer +=`, add the text and keep the cursor |
| LiteralRender.LastNonEmptyLine | lib/visitor.js:282-288 | `lastNonEmptyLine` is a valid index; it is the last line with a non-blank character, or 0 when no later line has one |
| LiteralRender.FindLastNonEmptyLine | lib/visitor.js:282-288 | the first `forEach` loop computes `LastNonEmptyLine` |
| LiteralRender.TrimmedLine | lib/visitor.js:295-304 | a trimmed line has no tab, no leading space except on the first line, and no trailing space except on the last line |
| LiteralRender.TrimmedLineShape | lib/visitor.js:295-304 | trimming removes only spaces, and only at the ends it is asked to trim |
| LiteralRender.RunText | lib/visitor.js:306-333 | the appends of one line add that line's text and leave the cursor |
| LiteralRender.SingleLineLiteral | lib/visitor.js:275-337 | a one-line value is written as one quoted string, followed by `, ` unless it is last |
| LiteralRender.SegmentChain | lib/visitor.js:306-323 | a segment is written for a line iff its trimmed text is non-empty or it is `lastNonEmptyLine`; every segment but that one ends in ` + ' ' +`; `, ` follows that one iff the literal is not last |
| LiteralRender.BlankLineTrimsToEmpty | lib/visitor.js:299-304 | a blank line after the first trims to nothing |
| LiteralRender.RenderedLineNewlines | lib/visitor.js:331-333 | each line but the last writes exactly one `\n` |
| LiteralRender.LinesTextNewlines | lib/visitor.js:290-334 | the first `count` lines write `count - 1` or `count` line feeds |
| LiteralRender.LiteralNewlines | lib/visitor.js:275-337 | a literal's output holds exactly one `\n` per line break of its value, so the line count is kept |
| LiteralRender.RenderLineInto | lib/visitor.js:290-334 | one callback of the second loop appends that line's text |
| LiteralRender.RenderLines | lib/visitor.js:290-334 | the second loop appends the text of all lines, in order |
| LiteralRender.RenderJSXLiteral | lib/visitor.js:275-337 | `renderJSXLiteral` appends the literal's text and leaves the cursor at the end of the literal |
| Visitor.FilterChildren | lib/visitor.js:182-186 | a child is kept iff it is not a whitespace-only text child |
| Visitor.LastRenderable | lib/visitor.js:195-202 | `lastRenderableIndex` is the last child that is not an empty `{}`, or undefined when there is none |
| Visitor.FindLastRenderable | lib/visitor.js:195-202 | the loop computes `LastRenderable` |
| Visitor.VisitNode | lib/visitor.js:17-250 | `visitNode` throws as `Visit` does or leaves the state `Visit` computes, and answers `false`; an unknown tag's name is filled into the pattern by `replace`, as line 68 does |
| Visitor.EmitHead | lib/visitor.js:32-75 | the head agrees with `Head`, which fills the pattern as line 68 does, and `secondArg` is set iff the tag is known or unknown tags go to the factory |
| Visitor.EmitOpenProps | lib/visitor.js:77-88 | the props opening agrees with `OpenProps` |
| Visitor.EmitAttributes | lib/visitor.js:90-166 | the attribute loop agrees with `Attributes`, and `previousWasSpread` at its end says whether the last attribute is a spread |
| Visitor.EmitAttribute | lib/visitor.js:92-166 | one attribute callback agrees with `VisitAttribute` |
| Visitor.EmitSpread | lib/visitor.js:95-124 | a spread callback agrees with `Spread` |
| Visitor.EmitSpreadOpen | lib/visitor.js:96-106 | the steps of a spread before its argument (`}, ` unless it follows a spread, the source up to `{` kept only for its parentheses, the move past `{`) agree with `SpreadOpen` |
| Visitor.EmitSpreadClose | lib/visitor.js:110-119 | the steps after the argument (its text verbatim, the parentheses before `}`, `, ` unless last, the move past `}`) agree with `SpreadClose` |
| Visitor.EmitAttributeValue | lib/visitor.js:147-161 | an attribute value agrees with `AttributeValue` |
| Visitor.EmitCloseProps | lib/visitor.js:168-179 | the end of the props agrees with `CloseProps` |
| Visitor.EmitOpenChildren | lib/visitor.js:188-210 | what comes before the children agrees with `OpenChildren` |
| Visitor.EmitChildren | lib/visitor.js:212-230 | the children loop agrees with `Children` |
| Visitor.EmitChildCallback | lib/visitor.js:213-229 | one child callback, with its two catchups, agrees with `ChildCallback` |
| Visitor.EmitChild | lib/visitor.js:218-227 | one child agrees with `VisitChild` |
| Visitor.EmitCloseElement | lib/visitor.js:233-247 | the end of the element agrees with `CloseElement` |
| Visitor.RenderJSXExpressionContainer | lib/visitor.js:350-365 | a container agrees with `ExpressionContainer` |
| Visitor.TraverseNode | lib/visitor.js:261-263 | `traverse` agrees with `Traverse`: the node is visited iff `visitNode.test` accepts it, and otherwise its child nodes are traversed |
| Visitor.TraverseNodes | lib/visitor.js:108 | `traverse` as called there, under the abstraction of "## Left out": the child nodes of a node that is not JSX are traversed in order |
| VisitorProps.VisitShape | lib/visitor.js:233-249 | a visited element leaves the cursor after `/>` or after its closing element, and the output ends with `)` |
| VisitorProps.TestSelectsVisit | lib/visitor.js:261-263 | `traverse` hands a node to `visitNode` exactly when `visitNode.test` accepts it |
| VisitorProps.ChildrenBrackets | lib/visitor.js:188-247 | before the children, the cursor stays and the text ends with `[` iff `arrayChildren` is set and some child is left after filtering; the call then ends with `])` |
| VisitorProps.ContainerEnd | lib/visitor.js:361-363 | a container leaves the cursor just after its `}` |
| VisitorProps.HeadErr | lib/visitor.js:66-68 | the head throws iff the tag is unknown, is not passed to the factory, and there is no string pattern |
| VisitorProps.VisitErr | lib/visitor.js:17-250 | `visitNode` throws iff some part of the element throws, whatever the source text and the emitter state |
| VisitorProps.AttributesErr | lib/visitor.js:92-166 | the attribute loop throws iff some remaining attribute throws |
| VisitorProps.AttributeErr | lib/visitor.js:131-135 | an attribute throws iff it has a namespace or its expression throws |
| VisitorProps.SpreadErr | lib/visitor.js:95-124 | a spread throws iff its argument throws |
| VisitorProps.AttributeValueErr | lib/visitor.js:147-161 | a value throws iff it is a container whose expression throws |
| VisitorProps.ChildrenErr | lib/visitor.js:212-230 | the children loop throws iff some remaining child throws |
| VisitorProps.FilteredChildrenThrow | lib/visitor.js:182-186 | filtering keeps every child that can throw |
| VisitorProps.ChildCallbackErr | lib/visitor.js:213-229 | a child callback throws iff the child throws |
| VisitorProps.ChildErr | lib/visitor.js:218-227 | a text child never throws; a container or an element throws iff its content does |
| VisitorProps.ContainerErr | lib/visitor.js:350-365 | a container throws iff its expression throws |
| VisitorProps.TraverseErr | lib/visitor.js:108 | `traverse` throws iff some element under the node throws |
| VisitorProps.TraverseAllErr | lib/visitor.js:108 | traversing the child nodes throws iff one of them throws |
| VisitorProps.JsxFreeTraverse | lib/visitor.js:353 | `traverse` as called there, under the abstraction of "## Left out": traversing a node without JSX neither writes nor moves the cursor |
| VisitorProps.JsxFreeTraverseAll | lib/visitor.js:353 | `traverse` as called there, under the same abstraction: a sequence of nodes without JSX neither writes nor moves the cursor |
| VisitorProps.HeadOutput | lib/visitor.js:32-75 | the head copies the source before the element trimmed of leading spaces, then writes `factory('div'`, `factory(Component`, `factory('Component'` or the pattern with its first `{tag}` replaced by `replace` (which expands `$` patterns in the name) plus `(`, and throws iff that text cannot be formed |
| VisitorProps.ContainerOutput | lib/visitor.js:350-365 | a container never throws and writes only what lies strictly between its braces, each part trimmed of leading spaces, with `, ` after the expression iff it is not last and not empty; the cursor ends after `}` |
| VisitorProps.ValueOutput | lib/visitor.js:147-163 | a value never throws; up to the attribute's end it writes `true` for a bare name, or keeps the line feeds before a literal or container and then writes its text |
| VisitorProps.NoValueOutput | lib/visitor.js:155-161 | a bare name writes `true`, then `, ` unless it is last |
| VisitorProps.LiteralValueOutput | lib/visitor.js:147-151 | a quoted value keeps the line feeds before it and writes the rendered literal |
| VisitorProps.ContainerValueOutput | lib/visitor.js:147-154 | a `{…}` value keeps the line feeds before it and writes the container's text |
| VisitorProps.AttributeOutput | lib/visitor.js:126-165 | a plain attribute writes `{` when it follows a spread, then its key, `: ` and its value, and ends at the attribute's end; its value is last when the attribute is last or comes before a spread |
| VisitorProps.SpreadOutput | lib/visitor.js:95-124 | a spread closes the object before it with `}, ` unless it follows a spread; only parentheses survive around its argument; the argument is copied as written, followed by `, ` unless it is last |
| VisitorProps.FilterChildrenConcat | lib/visitor.js:182-186 | the filter keeps the children's order |
| Jsx.OptionsObject.constructor | lib/jsx.js:49 | the options object holds the caller's properties |
| Jsx.OptionsObject.Prepare | lib/jsx.js:54-70 | without a string `factory` it throws and changes nothing; otherwise the object holds `Normalize` of its old properties |
| Jsx.OptionsObject.DefaultPattern | test/jsx.js:40-46 | the corrected half of the first finding, not code of the source: `unknownTagPattern` becomes `'{tag}'`, the default the tests rely on, when it is not a string, and nothing else changes |
| Jsx.WithRenameAttrs | lib/visitor.js:28-30 | only `renameAttrs` changes; it is truthy once an element is visited; a program without JSX, or a truthy `renameAttrs` already there, leaves the options as they are |
| Jsx.OptionsObject.DefaultRenameAttrs | lib/visitor.js:28-30 | the options become `WithRenameAttrs` of the old ones |
| Jsx.TransformSource | lib/jsx.js:72 | the transform of a parsed program agrees with `Transform` |
| Jsx.FromString | lib/jsx.js:49-73 | as written: a non-object options argument is replaced by `{}` (so it throws for a missing factory), and `null` throws; an object gets the defaults of lines 54-70 in place, with no `unknownTagPattern`, plus `renameAttrs` when an element is visited; the result is `FromFields`, the transform with those options |
| Jsx.FromStringIntended | lib/jsx.js:49-73 | the corrected half of the first finding: the same, with the default pattern `'{tag}'` also written, and the result is `FromFieldsIntended` |
| Jsx.NormalizeStrings | lib/jsx.js:54-70 | after normalisation, `factory` and `spreadFn` are strings |
| Jsx.NormalizeFails | lib/jsx.js:54-56 | normalisation throws iff `factory` is not a string, and the error is the missing factory |
| Jsx.NormalizeKeepsOthers | lib/jsx.js:49-70 | no property disappears, and `factory` and every property that is not defaulted keep their value |
| Jsx.NormalizeArrayChildren | lib/jsx.js:63-66 | `arrayChildren` becomes `true` only when it is undefined, and an explicit `false` is kept |
| Jsx.NormalizeSpreadFnAndSourceType | lib/jsx.js:59-70 | `spreadFn` becomes `'Object.assign'` whenever it is not a string; `sourceType` becomes `'nonStrictModule'` only when it is undefined |
| Jsx.NormalizeIdempotent | lib/jsx.js:49-70 | normalising twice changes nothing more than normalising once |
| Jsx.DefaultConfig | lib/jsx.js:54-70 | the visitor sees the caller's factory; children come as an array unless turned off; the spread function defaults to `Object.assign` |
| Jsx.NormalizeIntendedStrings | lib/jsx.js:54-70 | the corrected normalisation fails exactly when the written one does, and then also gives a string pattern |
| Jsx.NormalizeIntendedHead | lib/visitor.js:66-68 | with the default pattern written, the head never throws; a caller's own string pattern is kept |
| Jsx.TransformJsxFree | lib/jsx.js:72 | source without JSX comes out unchanged |
| Jsx.TransformFails | lib/jsx.js:72 | the transform throws iff some element in the program throws |
| JsxExamples.WholeSource | lib/jsx.js:72 | a program that is one element visited to the end of the source transforms to the element's output |
| JsxExamples.CustomPattern | test/jsx.js:126-134 | `<Component foo="bar" />` with the pattern `{tag}.render` becomes `Component.render({foo: "bar"})` |
| JsxExamples.CustomProps | test/jsx.js:126-134 | in that test the head leaves the cursor at 17, past the start of `foo` at 11; from there the props are `{foo: "bar"}`, as the whole-list PropsGroups.PropsOutput gives them |
| JsxExamples.NoFactory | test/jsx.js:72-77 | options without `factory` make `fromString` throw the missing-factory error |
| JsxExamples.FactoryHead | test/jsx.js:79-85 | the factory `mercury.h` writes `mercury.h('h1'` for `<h1>` |
| JsxExamples.PassUnknownHead | test/jsx.js:88-96 | with `passUnknownTagsToFactory`, `Component` is written as `DOM(Component` |
| JsxExamples.UnknownAsStringHead | test/jsx.js:99-108 | with `unknownTagsAsString` as well, `Component` is written as `DOM('Component'` |
| JsxExamples.SpreadFixture | test/fixture_spread_attrs.js:6 | with the default pattern the tests rely on, `<Component {...firstSpread} {...secondSpread} foo="baz" />` becomes `Component(Object.assign({}, firstSpread, secondSpread, {foo: "baz"}))` |
| JsxExamples.SpreadFixtureAsWritten | test/jsx.js:136-142 | as written, the options of the test make the same element throw, for want of a pattern |
| JsxExamples.BareComponentThrows | lib/visitor.js:66-68 | as written, `<Component />` with only `{factory: 'DOM'}` throws |
| JsxExamples.BareComponentIntended | lib/jsx.js:49-70 | with the default pattern, the same input becomes `Component()` |
| JsxExamples.DollarTagAsWritten | lib/visitor.js:68 | as written, the tag name `$$` is substituted as `$` |
| JsxExamples.DollarVisitAsWritten | lib/visitor.js:66-75 | as written, `<$$ />` with the pattern `{tag}` becomes `$($ )`: the head writes `$(` and leaves the cursor inside the name, so the closing catchup copies `$ ` |
| JsxExamples.DollarFromString | lib/jsx.js:49-73 | as written, `fromString('<$$ />', {factory: 'DOM', unknownTagPattern: '{tag}'})` gives `$($ )` |
| JsxExamples.DollarTagIntended | lib/visitor.js:68 | with the name inserted literally, the same program becomes `$$()` |
| PropsGroups.MarksWalk | lib/visitor.js:90-166 | the marks of the attributes keep the grouping rules (a group opens only outside one and closes only inside one, plain attributes inside a group, spreads outside) and hold every attribute once, in order |
| PropsGroups.PropsGrouped | lib/visitor.js:77-179 | the props form one group sequence: every attribute once, in source order, plain ones inside `{…}` groups and spreads between them; a leading spread follows an empty group `{}, `; without a spread the props are a single object literal |
| PropsGroups.AttributesRender | lib/visitor.js:90-166 | for the texts `tx` of the attributes as the source gives them (`TextsOf`; `SourceTexts` builds them), the attribute loop never throws and writes exactly the text of their marks, ending at the last attribute's end; the loop may start past the first attribute's start, as the head of a pattern leaves it (lines 70-73), and then copies nothing before it |
| PropsGroups.PropsOutput | lib/visitor.js:77-179 | for the texts `tx` of the attributes, the props from the end of the head never throw and write `, ` after a first argument, then the text of `PropsMarks`, inside one `spreadFn(` … `)` call iff some attribute is a spread; this holds also where the head of a pattern has left the cursor past the first attribute's start |
| PropsGroups.ChildrenOpening | lib/visitor.js:188-210 | before the children the cursor stays; `null` is written iff there are filtered children and no attributes, `, ` iff some child renders a value, and `[` iff there are children and `arrayChildren` is set |

## Left out

- The jstransform utilities `catchup`, `move`, `append` and `catchupNewlines` are not part of
  this model. Their behaviour is an assumption, stated in `Emit`:
  - `catchup` does nothing when its target is behind the cursor;
  - `catchup` reads the source with `substring`, so it is clamped to the source;
  - `move` may go backwards.
- The jstransform `traverse` is modelled only as far as this visitor sees it. A JSX element is
  visited, and the visitor's `false` stops a second descent. Any other node writes nothing
  itself and traverses its child nodes in order; the visitor's own catchups copy its text.
  jstransform's traverser itself may copy the source up to each child node it enters. Where
  the visitor's catchup then trims or filters that text (the `trimLeft` catchup of
  lib/visitor.js:362 inside `{ … }`), spacing such as a space after `{` may differ from the
  program's output.
- The esprima-fb parser is not part of this model. The program arrives parsed, with ranges
  taken as given. The concrete trees in `JsxExamples` are written out by hand.
- `trimTrailingSpaces` (lib/jsx.js:74) is not part of this model. `FromString` returns the text
  before that step.
- `fromFile` and `browserifyTransform` are left out. They are file I/O and streams, and both
  call an undefined `transform`.
- `renameAttrs` is defaulted at lib/visitor.js:28-30 but never read, so no rename map is
  modelled. The source writes it when the first element is visited; `Jsx.FromString` writes it
  once after the transform. Nothing reads the object in between, so the final options agree.
- `Visitor.Config.literalTagNames` is no option of the source. It is `false` in every
  configuration that `fromString` builds; `true` selects the corrected name insertion of the
  second finding.
- Tag names are `JSXIdentifier`s only. Member-expression and namespaced tag names
  (lib/visitor.js:34-36) are left out.
- Text.IsKnownTag: `toUpperCase` is modelled for ASCII letters only. A tag starting with a
  non-ASCII lower-case letter counts as unknown here.
- A Dafny character is a Unicode scalar value, and JavaScript counts UTF-16 code units. A
  character outside the Basic Multilingual Plane is one character here and two units there.
  So for such text the model's lengths and offsets differ from the source's: the parser's
  ranges, and `tagName.length - nameObj.name.length` at lib/visitor.js:72. Lone surrogates
  cannot occur, so `JSON.stringify` never escapes one here.
- `renderJSXLiteral`'s `start` and `end` parameters are never passed, so they are not modelled.
- The `false` answer of `renderJSXExpressionContainer` is dropped, as the visitor ignores it.
- An attribute value that is itself a JSX element is not in the tree, so it is not modelled.
- `sourceType` is written by `fromString` but read only by the parser.
- Full equality with test/fixture_spread_attrs.js is not modelled:
  - the file has a docblock line that its `.jsx` input lacks;
  - it lacks the `<div {...thirdSpread}>` child;
  - its line 4 opens the children with `[`, although the test passes `arrayChildren: false`.
  Only its line 6 is worked through.
- Text.StripNonParen: its `ensures` says only that parentheses remain. That every parenthesis
  survives, in order, is in Text.StripNonParenCount and Text.StripNonParenConcat.
- Text.StripNonNewline: its `ensures` says only that line feeds remain. That every line feed
  survives is in Text.StripNonNewlineCount.
- VisitorProps.ChildrenBrackets: the closing `])` is stated in one direction only. Without
  brackets, the source copied before `)` may itself end in `]`.
- VisitorProps.HeadOutput: the cursor after the head is stated only when a first argument is
  written. With a pattern the cursor lands past the name by the length difference of
  lib/visitor.js:70-73.
- VisitorProps.ContainerOutput, VisitorProps.SpreadOutput and VisitorProps.AttributeOutput give
  the output only for expressions without JSX inside. With JSX inside, the output is what
  `Visit` gives for the nested element.
- VisitorProps.ValueOutput: the same restriction, through `ValuePlaced`: a container value is
  given only for an expression without JSX inside.
- VisitorProps.ContainerValueOutput: the same restriction: the expression holds no JSX.
- PropsGroups.PropsOutput: the same restriction, through `AttrsPlaced`: no spread argument or
  container value holds JSX, and plain attributes have no namespace (those throw, see
  VisitorProps.AttributeErr).
- PropsGroups.AttributesRender: the same restriction as PropsGroups.PropsOutput.
- JsxExamples.SpreadFixture: it holds with the default pattern the tests rely on. With the
  test's own options the program as written throws; JsxExamples.SpreadFixtureAsWritten shows
  that.

## Findings

| source | as written | input that shows it | evidently intended | confidence | as-written member | corrected member |
|---|---|---|---|---|---|---|
| lib/jsx.js:49-70 | `fromString` writes no default for `unknownTagPattern`, so lib/visitor.js:68 calls `replace` on `undefined` for any unknown tag not passed to the factory | `fromString('<Component />', {factory: 'DOM'})` throws a `TypeError` | the default `'{tag}'` the tests rely on (test/jsx.js:40-46, 136-160), giving `Component()` as test/jsx.js:136-142 and its fixture expect | not executed; high | JsxExamples.BareComponentThrows | Jsx.NormalizeIntendedHead |
| lib/visitor.js:68 | the tag name is the replacement string of `String.prototype.replace`, which reads `$$` as one `$` | `<$$ />` with the pattern `{tag}` becomes `$($ )` | the name inserted as written, giving `$$()` | not executed; low | JsxExamples.DollarVisitAsWritten | Text.ReplaceFirstLiteralAt |

The model keeps the code as written, and the corrected behaviour beside it:

- `Visitor.FillPattern` fills the pattern with `Text.ReplaceFirst`, as line 68 does. With
  `literalTagNames` set it uses `Text.ReplaceFirstLiteral` instead, and
  JsxExamples.DollarTagIntended shows the result.
- `Jsx.FromString`, `Jsx.Normalize` and `Jsx.FromFields` write no default pattern.
  `Jsx.FromStringIntended`, `Jsx.NormalizeIntended` and `Jsx.FromFieldsIntended` write it with
  `Jsx.OptionsObject.DefaultPattern`, after the defaults of lib/jsx.js:54-70.
