/**
 * `fromString(str, options)` (lib/jsx.js): options validation and defaulting, written into the
 * caller's options object, then the transform of the parsed program with the visitor.
 *
 * Parsing (esprima-fb), `jstransform` and `trimTrailingSpaces` are not part of this model: the
 * program arrives already parsed, and the transform is `traverse` followed by a verbatim catchup
 * to the end of the source.
 */
module Jsx {
  import opened Base
  import opened Text
  import opened JsxAst
  import opened Emit
  import opened Visitor
  import opened VisitorProps

  /** The JavaScript values an option can hold; an object or array held by an option is
      `OtherObject`, since none of its contents are read here. */
  datatype JsValue = Undefined | Null | Bool(b: bool) | Number(n: int) | Str(s: string) | Function | OtherObject

  function TypeOf(v: JsValue): string
  {
    match v
    case Undefined => "undefined"
    case Null => "object"
    case Bool(_) => "boolean"
    case Number(_) => "number"
    case Str(_) => "string"
    case Function => "function"
    case OtherObject => "object"
  }

  /** JavaScript truthiness. */
  predicate Truthy(v: JsValue)
  {
    match v
    case Undefined => false
    case Null => false
    case Bool(b) => b
    case Number(n) => n != 0
    case Str(s) => s != ""
    case Function => true
    case OtherObject => true
  }

  /** The own properties of an options object. */
  type Fields = map<string, JsValue>

  /** Reading a property: a missing one is `undefined`. */
  function Get(fields: Fields, key: string): JsValue
  {
    if key in fields then fields[key] else Undefined
  }

  predicate IsString(fields: Fields, key: string)
  {
    TypeOf(Get(fields, key)) == "string"
  }

  /** The names `fromString` writes. */
  predicate IsDefaulted(key: string)
  {
    key == "sourceType" || key == "arrayChildren" || key == "spreadFn"
  }

  /** lib/jsx.js:54-70 on the properties of the options object: the factory check, then the
      three defaults in source order. */
  function Normalize(fields: Fields): Result<Fields, JsError>
  {
    if !IsString(fields, "factory") then Err(MissingFactory)
    else
      var f1 := if TypeOf(Get(fields, "sourceType")) == "undefined" then fields["sourceType" := Str("nonStrictModule")] else fields;
      var f2 := if TypeOf(Get(f1, "arrayChildren")) == "undefined" then f1["arrayChildren" := Bool(true)] else f1;
      var f3 := if !IsString(f2, "spreadFn") then f2["spreadFn" := Str("Object.assign")] else f2;
      Ok(f3)
  }

  /** The options as the visitor reads them from `state.g.opts`. */
  function ConfigOf(fields: Fields): Config
    requires IsString(fields, "factory") && IsString(fields, "spreadFn")
  {
    var pattern := Get(fields, "unknownTagPattern");
    Config(
      Get(fields, "factory").s,
      Get(fields, "spreadFn").s,
      Truthy(Get(fields, "arrayChildren")),
      Truthy(Get(fields, "passUnknownTagsToFactory")),
      Truthy(Get(fields, "unknownTagsAsString")),
      if pattern.Str? then Some(pattern.s) else None,
      false)
  }

  /** `jstransform([visitNode], src, options).code` on the parsed `program`. */
  function Transform(src: string, cfg: Config, program: Expr): Result<string, JsError>
  {
    var c :- Traverse(src, cfg, Cursor(0, ""), program);
    var end := c.Catchup(src, |src|, Verbatim);
    Ok(end.buffer)
  }

  /** The options after the visitor's write of lib/visitor.js:28-30: every other property keeps
      its value, and once the program holds an element `renameAttrs` is truthy. */
  function WithRenameAttrs(fields: Fields, program: Expr): (r: Fields)
    ensures forall k :: k != "renameAttrs" ==> Get(r, k) == Get(fields, k)
    ensures !JsxFree(program) ==> Truthy(Get(r, "renameAttrs"))
    ensures JsxFree(program) || Truthy(Get(fields, "renameAttrs")) ==> r == fields
  {
    if !JsxFree(program) && !Truthy(Get(fields, "renameAttrs")) then fields["renameAttrs" := OtherObject]
    else fields
  }

  /** `fromString` on an options object with these properties, before `trimTrailingSpaces`. */
  function FromFields(src: string, fields: Fields, program: Expr): Result<string, JsError>
  {
    var f :- Normalize(fields);
    NormalizeStrings(fields);
    Transform(src, ConfigOf(f), program)
  }

  /** The caller's options object, which `fromString` completes in place. */
  class OptionsObject {
    var fields: Fields

    constructor (fields: Fields)
      ensures this.fields == fields
    {
      this.fields := fields;
    }

    /** lib/jsx.js:54-70. */
    method Prepare() returns (r: Result<(), JsError>)
      modifies this
      ensures Normalize(old(fields)).Err? ==> r.Err? && r.error == Normalize(old(fields)).error && fields == old(fields)
      ensures Normalize(old(fields)).Ok? ==> r.Ok? && fields == Normalize(old(fields)).value
    {
      if TypeOf(Get(fields, "factory")) != "string" {
        return Err(MissingFactory);
      }
      if TypeOf(Get(fields, "sourceType")) == "undefined" {
        fields := fields["sourceType" := Str("nonStrictModule")];
      }
      if TypeOf(Get(fields, "arrayChildren")) == "undefined" {
        fields := fields["arrayChildren" := Bool(true)];
      }
      if TypeOf(Get(fields, "spreadFn")) != "string" {
        fields := fields["spreadFn" := Str("Object.assign")];
      }
      return Ok(());
    }

    /** lib/visitor.js:28-30: the first element visited gives the options an empty `renameAttrs`
        object unless they hold a truthy one. The visitor never reads the property, so the model
        makes the write once, after the transform, when the program holds an element. */
    method DefaultRenameAttrs(program: Expr)
      modifies this
      ensures fields == WithRenameAttrs(old(fields), program)
    {
      if !JsxFree(program) && !Truthy(Get(fields, "renameAttrs")) {
        fields := fields["renameAttrs" := OtherObject];
      }
    }

    /** The corrected half of a finding: the default `'{tag}'` of `unknownTagPattern`, which the
        repository's tests rely on (test/jsx.js:40-46, 136-160) and lib/jsx.js never writes,
        written when the option is not a string. */
    method DefaultPattern()
      modifies this
      ensures fields == if IsString(old(fields), "unknownTagPattern") then old(fields)
        else old(fields)["unknownTagPattern" := Str("{tag}")]
    {
      if TypeOf(Get(fields, "unknownTagPattern")) != "string" {
        fields := fields["unknownTagPattern" := Str("{tag}")];
      }
    }
  }

  /** The second argument of `fromString`: the caller's object, or any other value (for which
      `typeof` is not `'object'`, or `null`, or an object none of whose properties are options). */
  datatype OptionsArg = ObjectArg(obj: OptionsObject) | OtherArg(value: JsValue)

  /** The transform itself: a fresh emitter over `src`, `traverse`, and the final catchup. */
  method TransformSource(src: string, cfg: Config, program: Expr) returns (r: Result<string, JsError>)
    ensures r == Transform(src, cfg, program)
  {
    var em := new Emitter(src);
    var t := TraverseNode(em, cfg, program);
    if t.Err? {
      return Err(t.error);
    }
    em.Catchup(|src|, Verbatim);
    return Ok(em.buffer);
  }

  /** `fromString(str, options)` on the parsed program, before `trimTrailingSpaces`. A caller's
      object keeps the defaults written into it, and `renameAttrs` once an element is visited. */
  method FromString(src: string, options: OptionsArg, program: Expr) returns (r: Result<string, JsError>)
    modifies if options.ObjectArg? then {options.obj} else {}
    ensures options.OtherArg? ==> r == Err(if options.value.Null? then NullOptions else MissingFactory)
    ensures options.ObjectArg? ==> r == FromFields(src, old(options.obj.fields), program)
    ensures options.ObjectArg? && Normalize(old(options.obj.fields)).Ok? ==>
      options.obj.fields == WithRenameAttrs(Normalize(old(options.obj.fields)).value, program)
    ensures options.ObjectArg? && Normalize(old(options.obj.fields)).Err? ==> options.obj.fields == old(options.obj.fields)
  {
    var obj: OptionsObject;
    match options {
      case OtherArg(value) =>
        if value.Null? {
          return Err(NullOptions);
        }
        obj := new OptionsObject(map[]);
      case ObjectArg(o) =>
        obj := o;
    }
    var given := obj.fields;
    var _ :- obj.Prepare();
    NormalizeStrings(given);
    r := TransformSource(src, ConfigOf(obj.fields), program);
    obj.DefaultRenameAttrs(program);
  }

  /** The corrected half of a finding: `fromString` with the default `unknownTagPattern` written
      after the other defaults. */
  method FromStringIntended(src: string, options: OptionsArg, program: Expr) returns (r: Result<string, JsError>)
    modifies if options.ObjectArg? then {options.obj} else {}
    ensures options.OtherArg? ==> r == Err(if options.value.Null? then NullOptions else MissingFactory)
    ensures options.ObjectArg? ==> r == FromFieldsIntended(src, old(options.obj.fields), program)
    ensures options.ObjectArg? && NormalizeIntended(old(options.obj.fields)).Ok? ==>
      options.obj.fields == WithRenameAttrs(NormalizeIntended(old(options.obj.fields)).value, program)
    ensures options.ObjectArg? && Normalize(old(options.obj.fields)).Err? ==> options.obj.fields == old(options.obj.fields)
  {
    var obj: OptionsObject;
    match options {
      case OtherArg(value) =>
        if value.Null? {
          return Err(NullOptions);
        }
        obj := new OptionsObject(map[]);
      case ObjectArg(o) =>
        obj := o;
    }
    var given := obj.fields;
    var _ :- obj.Prepare();
    obj.DefaultPattern();
    NormalizeIntendedStrings(given);
    r := TransformSource(src, ConfigOf(obj.fields), program);
    obj.DefaultRenameAttrs(program);
  }

  // ---------------------------------------------------------------------------------------
  // What normalisation guarantees

  /** After normalisation the visitor can read `factory` and `spreadFn` as strings. */
  lemma NormalizeStrings(fields: Fields)
    ensures Normalize(fields).Ok? ==> IsString(Normalize(fields).value, "factory") && IsString(Normalize(fields).value, "spreadFn")
  {
  }

  /** The factory is required, and it is the only requirement. */
  lemma NormalizeFails(fields: Fields)
    ensures Normalize(fields).Err? <==> !IsString(fields, "factory")
    ensures Normalize(fields).Err? ==> Normalize(fields).error == MissingFactory
  {
  }

  /** Only the three defaulted names change; `factory` and every other property keep their
      value, and no property disappears. */
  lemma NormalizeKeepsOthers(fields: Fields, key: string)
    requires Normalize(fields).Ok?
    ensures fields.Keys <= Normalize(fields).value.Keys
    ensures !IsDefaulted(key) ==> Get(Normalize(fields).value, key) == Get(fields, key)
  {
  }

  /** `arrayChildren` becomes `true` only when it is `undefined`: an explicit value, `false`
      included, is kept. */
  lemma NormalizeArrayChildren(fields: Fields)
    requires Normalize(fields).Ok?
    ensures var f := Normalize(fields).value;
      && (Get(fields, "arrayChildren").Undefined? ==> Get(f, "arrayChildren") == Bool(true))
      && (!Get(fields, "arrayChildren").Undefined? ==> Get(f, "arrayChildren") == Get(fields, "arrayChildren"))
  {
  }

  /** `spreadFn` becomes `'Object.assign'` whenever it is not a string; `sourceType` becomes
      `'nonStrictModule'` only when it is `undefined`. */
  lemma NormalizeSpreadFnAndSourceType(fields: Fields)
    requires Normalize(fields).Ok?
    ensures var f := Normalize(fields).value;
      && Get(f, "spreadFn") == (if IsString(fields, "spreadFn") then Get(fields, "spreadFn") else Str("Object.assign"))
      && Get(f, "sourceType") == (if Get(fields, "sourceType").Undefined? then Str("nonStrictModule") else Get(fields, "sourceType"))
  {
  }

  /** Normalising twice changes nothing more: the options of a second `fromString` call with
      the same object are left as the first call left them. */
  lemma NormalizeIdempotent(fields: Fields)
    requires Normalize(fields).Ok?
    ensures Normalize(Normalize(fields).value) == Normalize(fields)
  {
    var f := Normalize(fields).value;
    NormalizeArrayChildren(fields);
    NormalizeSpreadFnAndSourceType(fields);
    assert f["sourceType" := Get(f, "sourceType")] == f;
  }

  /** With the defaults, children come as an array unless the caller turned it off. */
  lemma DefaultConfig(fields: Fields)
    requires Normalize(fields).Ok?
    ensures var cfg := (NormalizeStrings(fields); ConfigOf(Normalize(fields).value));
      && cfg.factory == Get(fields, "factory").s
      && (Get(fields, "arrayChildren").Undefined? ==> cfg.arrayChildren)
      && (!IsString(fields, "spreadFn") ==> cfg.spreadFn == "Object.assign")
  {
    NormalizeArrayChildren(fields);
    NormalizeSpreadFnAndSourceType(fields);
  }

  // ---------------------------------------------------------------------------------------
  // The default `unknownTagPattern` never written

  /** Normalisation with the default `unknownTagPattern` (`'{tag}'`) the tests rely on:
      `fromString` writes no such default, so an unknown tag throws a `TypeError` unless the
      caller passes a pattern or `passUnknownTagsToFactory`. */
  function NormalizeIntended(fields: Fields): Result<Fields, JsError>
  {
    var f :- Normalize(fields);
    Ok(if !IsString(f, "unknownTagPattern") then f["unknownTagPattern" := Str("{tag}")] else f)
  }

  /** The corrected normalisation keeps what `fromString` guarantees the visitor, and adds a
      string pattern. */
  lemma NormalizeIntendedStrings(fields: Fields)
    ensures NormalizeIntended(fields).Err? <==> Normalize(fields).Err?
    ensures NormalizeIntended(fields).Ok? ==> var f := NormalizeIntended(fields).value;
      IsString(f, "factory") && IsString(f, "spreadFn") && IsString(f, "unknownTagPattern")
  {
    NormalizeStrings(fields);
  }

  /** The transform with the default `unknownTagPattern` the tests rely on in place. */
  function FromFieldsIntended(src: string, fields: Fields, program: Expr): Result<string, JsError>
  {
    var f :- NormalizeIntended(fields);
    NormalizeIntendedStrings(fields);
    Transform(src, ConfigOf(f), program)
  }

  /** With the default in place the tag head can no longer throw, and nothing changes for a
      caller who passes a string pattern. */
  lemma NormalizeIntendedHead(fields: Fields, src: string, c: Cursor, e: Element)
    requires NormalizeIntended(fields).Ok?
    ensures var f := NormalizeIntended(fields).value;
      IsString(f, "factory") && IsString(f, "spreadFn") && Head(src, ConfigOf(f), c, e).Ok?
    ensures IsString(fields, "unknownTagPattern") ==> NormalizeIntended(fields) == Normalize(fields)
  {
    NormalizeStrings(fields);
    var f := NormalizeIntended(fields).value;
    HeadErr(src, ConfigOf(f), e);
  }

  // ---------------------------------------------------------------------------------------
  // The transform as a whole

  /** Source without JSX comes out unchanged. */
  lemma TransformJsxFree(src: string, cfg: Config, program: Expr)
    requires JsxFree(program)
    ensures Transform(src, cfg, program) == Ok(src)
  {
    JsxFreeTraverse(src, cfg, program);
    assert src[0..|src|] == src;
    assert "" + src == src;
  }

  /** The transform throws exactly when some element in the program throws. */
  lemma TransformFails(src: string, cfg: Config, program: Expr)
    ensures Transform(src, cfg, program).Err? <==> ExprThrows(cfg, program)
  {
    TraverseErr(src, cfg, program);
  }
}
