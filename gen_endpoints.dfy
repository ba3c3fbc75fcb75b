/**
 * The endpoint-wrapper generator `gen/gen_endpoints.ts`: how one argument
 * schema becomes a TypeScript parameter declaration, how imports are
 * grouped by module, and how the pieces of one generated wrapper (its
 * parameter list, its path template, its query and body literals, its call
 * of `makeRequest`) are assembled. Reading the definitions file and
 * printing the generated text are not modelled.
 */
module GenEndpoints {
  import opened Values
  import opened Functions

  /**
   * A value schema: a bare type name, or a type with an optional default
   * (absent or empty are alike, both falsy) and the `optional` and
   * `nullable` flags (absent is false).
   */
  datatype ValueSchema =
    | Named(typeName: string)
    | Described(typeName: string, default: Option<string>, optional: bool, nullable: bool)

  /** A processed argument: its name, its schema, and its parameter declaration. */
  datatype ValueArg = ValueArg(name: string, schema: ValueSchema, fnArg: string)

  /** The suffix of a parameter that may be left out. */
  const OptionalSuffix: string := "|undefined = undefined"

  /** The suffix of a nullable parameter. */
  const NullableSuffix: string := "|null = null"

  /** Whether a described schema has a truthy default. */
  predicate HasDefault(schema: ValueSchema) {
    schema.Described? && schema.default.Some? && schema.default.value != ""
  }

  /**
   * `processValueSchema([name, schema], allOptional)`. A bare type is
   * optional exactly when `allOptional`. For a described type a default
   * wins over optionality, which wins over nullability; with none of them
   * the declaration is just `name: type`. Name and schema are kept.
   */
  function ProcessValueSchema(name: string, schema: ValueSchema, allOptional: bool): (r: ValueArg)
    ensures r.name == name && r.schema == schema
    ensures schema.Named? ==> r.fnArg == name + ": " + schema.typeName + (if allOptional then OptionalSuffix else "")
    ensures HasDefault(schema) ==> r.fnArg == name + ": " + schema.typeName + " = " + schema.default.value
    ensures schema.Described? && !HasDefault(schema) && (schema.optional || allOptional) ==>
              r.fnArg == name + ": " + schema.typeName + OptionalSuffix
    ensures schema.Described? && !HasDefault(schema) && !schema.optional && !allOptional && schema.nullable ==>
              r.fnArg == name + ": " + schema.typeName + NullableSuffix
    ensures schema.Described? && !HasDefault(schema) && !schema.optional && !allOptional && !schema.nullable ==>
              r.fnArg == name + ": " + schema.typeName
  {
    match schema
    case Named(t) => ValueArg(name, schema, name + ": " + t + (if allOptional then OptionalSuffix else ""))
    case Described(t, dflt, optional, nullable) =>
      var d0 := "";
      var d1 := if nullable then NullableSuffix else d0;
      var d2 := if optional || allOptional then OptionalSuffix else d1;
      var d3 := if dflt.Some? && dflt.value != "" then " = " + dflt.value else d2;
      ValueArg(name, schema, name + ": " + t + d3)
  }

  /** Every declaration starts with `name: type` and ends with one of the four suffixes. */
  lemma FnArgShape(name: string, schema: ValueSchema, allOptional: bool)
    ensures var r := ProcessValueSchema(name, schema, allOptional).fnArg;
            var head := name + ": " + schema.typeName;
            && |head| <= |r| && r[..|head|] == head
            && (r[|head|..] == "" || r[|head|..] == OptionalSuffix || r[|head|..] == NullableSuffix
                || (HasDefault(schema) && r[|head|..] == " = " + schema.default.value))
  {
    var r := ProcessValueSchema(name, schema, allOptional).fnArg;
    var head := name + ": " + schema.typeName;
    assert r == head + r[|head|..];
  }

  /** With `allOptional`, every declaration can be left out by the caller: it has a default or is optional. */
  lemma AllOptionalArgsOptional(name: string, schema: ValueSchema)
    ensures var r := ProcessValueSchema(name, schema, true).fnArg;
            var head := name + ": " + schema.typeName;
            |head| <= |r| && (r[|head|..] == OptionalSuffix || (HasDefault(schema) && r[|head|..] == " = " + schema.default.value))
  {
    FnArgShape(name, schema, true);
  }

  /** `objectEntries(schema).map(v => processValueSchema(v, allOptional))`, in entry order. */
  function ProcessAll(entries: seq<(string, ValueSchema)>, allOptional: bool): (r: seq<ValueArg>)
    ensures |r| == |entries|
    ensures forall i :: 0 <= i < |r| ==> r[i] == ProcessValueSchema(entries[i].0, entries[i].1, allOptional)
  {
    seq(|entries|, i requires 0 <= i < |entries| => ProcessValueSchema(entries[i].0, entries[i].1, allOptional))
  }

  /** `s && objectEntries(s).map(...)`: absent stays absent, a present schema object is processed. */
  function Args(schema: Option<Dict<ValueSchema>>, allOptional: bool): (r: Option<seq<ValueArg>>)
    requires schema.Some? ==> schema.value.Valid()
    ensures r.Some? <==> schema.Some?
    ensures schema.Some? ==> r.value == ProcessAll(ObjectEntries(schema.value), allOptional)
  {
    if schema.Some? then Some(ProcessAll(ObjectEntries(schema.value), allOptional)) else None
  }

  /** `args?.map(a => a.name) ?? []`. */
  function ArgNames(args: Option<seq<ValueArg>>): (r: seq<string>)
    ensures args.None? ==> r == []
    ensures args.Some? ==> |r| == |args.value| && forall i :: 0 <= i < |r| ==> r[i] == args.value[i].name
  {
    if args.Some? then seq(|args.value|, i requires 0 <= i < |args.value| => args.value[i].name) else []
  }

  /** The separator of generated parameters. */
  const ParamSep: string := ",\n  "

  /** `sep + x` for each `x`, all concatenated. */
  function Prefixed(xs: seq<string>, sep: string): string
    decreases |xs|
  {
    if |xs| == 0 then "" else sep + xs[0] + Prefixed(xs[1..], sep)
  }

  /** For a non-empty list, a separator followed by the list joined by it puts the separator before every item. */
  lemma {:induction false} JoinPrefixed(xs: seq<string>, sep: string)
    requires |xs| > 0
    ensures sep + Join(xs, sep) == Prefixed(xs, sep)
    decreases |xs|
  {
    if |xs| > 1 {
      JoinPrefixed(xs[1..], sep);
      assert sep + Join(xs, sep) == sep + xs[0] + (sep + Join(xs[1..], sep));
    }
  }

  /** Prefixing a concatenation is prefixing each part. */
  lemma {:induction false} PrefixedAppend(xs: seq<string>, ys: seq<string>, sep: string)
    ensures Prefixed(xs + ys, sep) == Prefixed(xs, sep) + Prefixed(ys, sep)
    decreases |xs|
  {
    if |xs| > 0 {
      assert (xs + ys)[1..] == xs[1..] + ys;
      PrefixedAppend(xs[1..], ys, sep);
    } else {
      assert xs + ys == ys;
    }
  }

  /** The declarations of a list of arguments. */
  function FnArgs(args: seq<ValueArg>): (r: seq<string>)
    ensures |r| == |args| && forall i :: 0 <= i < |r| ==> r[i] == args[i].fnArg
  {
    seq(|args|, i requires 0 <= i < |args| => args[i].fnArg)
  }

  /**
   * `args ? ',\n  ' + fnArgs.join(',\n  ') : ''`: every declaration preceded
   * by the separator. An absent list gives nothing; a present but empty
   * list (an empty array is truthy) still gives one separator.
   */
  function ArgList(args: Option<seq<ValueArg>>): (r: string)
    ensures args.None? ==> r == ""
    ensures args.Some? && |args.value| == 0 ==> r == ParamSep
    ensures args.Some? && |args.value| > 0 ==> r == Prefixed(FnArgs(args.value), ParamSep)
  {
    if args.Some? then
      var r := ParamSep + Join(FnArgs(args.value), ParamSep);
      if |args.value| > 0 then JoinPrefixed(FnArgs(args.value), ParamSep); r else r
    else ""
  }

  /**
   * The declarations an argument list puts in the parameter list, each
   * after a separator: none for an absent list, a single empty one for a
   * present but empty list.
   */
  function Slots(args: Option<seq<ValueArg>>): (r: seq<string>)
    ensures ArgList(args) == Prefixed(r, ParamSep)
  {
    if args.None? then [] else if |args.value| == 0 then [""] else FnArgs(args.value)
  }

  /** The keys of a schema object, in order; none when it is absent. */
  function SchemaKeys(schema: Option<Dict<ValueSchema>>): seq<string> {
    if schema.Some? then schema.value.keys else []
  }

  /** The names of the processed arguments are the keys of their schema, in order. */
  lemma ArgNamesAreKeys(schema: Option<Dict<ValueSchema>>, allOptional: bool)
    requires schema.Some? ==> schema.value.Valid()
    ensures ArgNames(Args(schema, allOptional)) == SchemaKeys(schema)
  {
  }

  /** `names.length ? '{' + names.join(',') + '}' : 'undefined'`. */
  function NamesLiteral(names: seq<string>): (r: string)
    ensures |names| == 0 ==> r == "undefined"
    ensures |names| > 0 ==> |r| >= 2 && r[0] == '{' && r[|r| - 1] == '}' && r[1..|r| - 1] == Join(names, ",")
  {
    if |names| > 0 then "{" + Join(names, ",") + "}" else "undefined"
  }

  /** `s.split(c)`. */
  function Split(s: string, c: char): (r: seq<string>)
    ensures |r| > 0
    decreases |s|
  {
    if |s| == 0 then [""]
    else
      var rest := Split(s[1..], c);
      if s[0] == c then [""] + rest else [[s[0]] + rest[0]] + rest[1..]
  }

  /** Splitting `x + c + y` where `x` has no `c` gives `x`, then the pieces of `y`. */
  lemma {:induction false} SplitAfter(x: string, c: char, y: string)
    requires forall k :: 0 <= k < |x| ==> x[k] != c
    ensures Split(x + [c] + y, c) == [x] + Split(y, c)
    decreases |x|
  {
    if |x| > 0 {
      assert (x + [c] + y)[1..] == x[1..] + [c] + y;
      SplitAfter(x[1..], c, y);
      assert [x[0]] + x[1..] == x;
    } else {
      assert x + [c] + y == [c] + y;
      assert ([c] + y)[1..] == y;
    }
  }

  /** A string without `c` splits into itself. */
  lemma {:induction false} SplitWhole(x: string, c: char)
    requires forall k :: 0 <= k < |x| ==> x[k] != c
    ensures Split(x, c) == [x]
    decreases |x|
  {
    if |x| > 0 {
      SplitWhole(x[1..], c);
      assert [x[0]] + x[1..] == x;
    }
  }

  /** Names without commas are read back from their joined literal: the literal is unambiguous. */
  lemma {:induction false} JoinSplitRoundTrip(names: seq<string>)
    requires |names| > 0
    requires forall i, k :: 0 <= i < |names| && 0 <= k < |names[i]| ==> names[i][k] != ','
    ensures Split(Join(names, ","), ',') == names
    decreases |names|
  {
    if |names| == 1 {
      SplitWhole(names[0], ',');
    } else {
      JoinSplitRoundTrip(names[1..]);
      assert Join(names, ",") == names[0] + [','] + Join(names[1..], ",");
      SplitAfter(names[0], ',', Join(names[1..], ","));
    }
  }

  /** `path.replace(/\{/g, '${')`: each `{` preceded by `$`, so the path becomes a template literal. */
  function PathTemplate(path: string): (t: string)
    ensures |t| > 0 ==> t[0] != '{'
    decreases |path|
  {
    if |path| == 0 then ""
    else (if path[0] == '{' then "${" else [path[0]]) + PathTemplate(path[1..])
  }

  /** Dropping the `$` before every `{`. */
  function Untemplate(t: string): string
    decreases |t|
  {
    if |t| >= 2 && t[0] == '$' && t[1] == '{' then "{" + Untemplate(t[2..])
    else if |t| > 0 then [t[0]] + Untemplate(t[1..])
    else ""
  }

  /** The template changes nothing but inserting `$` before each `{`: undoing that gives the path back. */
  lemma {:induction false} PathTemplateRoundTrip(path: string)
    ensures Untemplate(PathTemplate(path)) == path
    decreases |path|
  {
    if |path| > 0 {
      var rest := PathTemplate(path[1..]);
      PathTemplateRoundTrip(path[1..]);
      if path[0] == '{' {
        assert PathTemplate(path) == "${" + rest;
        assert ("${" + rest)[2..] == rest;
      } else {
        assert PathTemplate(path) == [path[0]] + rest;
        assert ([path[0]] + rest)[1..] == rest;
      }
      assert [path[0]] + path[1..] == path;
    }
  }

  /** The number of `c` in `s`. */
  function Count(s: string, c: char): nat
    decreases |s|
  {
    if |s| == 0 then 0 else (if s[0] == c then 1 else 0) + Count(s[1..], c)
  }

  /** The template is one character longer per `{` of the path. */
  lemma {:induction false} PathTemplateLength(path: string)
    ensures |PathTemplate(path)| == |path| + Count(path, '{')
    decreases |path|
  {
    if |path| > 0 {
      PathTemplateLength(path[1..]);
    }
  }

  /** One entry of `defs.endpoints`. */
  datatype EndpointDef = EndpointDef(
    verb: string,
    path: string,
    pathSchema: Option<Dict<ValueSchema>>,
    bodySchema: Option<Dict<ValueSchema>>,
    querySchema: Option<Dict<ValueSchema>>)

  /** The schemas of a definition are well-formed objects. */
  ghost predicate WellFormed(def: EndpointDef) {
    && (def.pathSchema.Some? ==> def.pathSchema.value.Valid())
    && (def.bodySchema.Some? ==> def.bodySchema.value.Valid())
    && (def.querySchema.Some? ==> def.querySchema.value.Valid())
  }

  /** A generated wrapper: its parameter list and the arguments of its `makeRequest` call, as source text. */
  datatype Wrapper = Wrapper(parameters: string, callArgs: seq<string>)

  /** The parameters of `makeRequest` after the bound limiter, in order. */
  const MakeRequestParams: seq<string> := ["token", "method", "path", "bucket", "queryData", "bodyData"]

  /** The parameter list: the token, then the path, query and body arguments; query arguments may all be left out. */
  function Parameters(def: EndpointDef): (r: string)
    requires WellFormed(def)
    ensures |r| >= 13 && r[..13] == "token: string"
  {
    "token: string" + ArgList(Args(def.pathSchema, false)) + ArgList(Args(def.querySchema, true)) + ArgList(Args(def.bodySchema, false))
  }

  /**
   * The parameter list holds the token, then the declarations of the path
   * arguments, of the query arguments and of the body arguments, in that
   * order and each after a separator.
   */
  lemma ParametersInOrder(def: EndpointDef)
    requires WellFormed(def)
    ensures Parameters(def) == "token: string" + Prefixed(Slots(Args(def.pathSchema, false)) + Slots(Args(def.querySchema, true))
                                                         + Slots(Args(def.bodySchema, false)), ParamSep)
  {
    var p, q, b := Args(def.pathSchema, false), Args(def.querySchema, true), Args(def.bodySchema, false);
    PrefixedAppend(Slots(p) + Slots(q), Slots(b), ParamSep);
    PrefixedAppend(Slots(p), Slots(q), ParamSep);
    var lp, lq, lb := ArgList(p), ArgList(q), ArgList(b);
    assert Prefixed(Slots(p) + Slots(q) + Slots(b), ParamSep) == lp + lq + lb;
    GroupRight("token: string", lp, lq, lb);
  }

  /** Concatenation regrouped to the right. */
  lemma GroupRight(a: string, b: string, c: string, d: string)
    ensures a + b + c + d == a + (b + c + d)
  {
    assert |a + b + c + d| == |a + (b + c + d)|;
    forall k | 0 <= k < |a + b + c + d|
      ensures (a + b + c + d)[k] == (a + (b + c + d))[k]
    {
    }
  }

  /** A backtick template literal whose text, with the `$` before each `{` dropped, is `path`. */
  predicate TemplateOf(t: string, path: string) {
    |t| >= 2 && t[0] == '`' && t[|t| - 1] == '`' && Untemplate(t[1..|t| - 1]) == path
  }

  /** The path template in backticks is a template literal of the path. */
  lemma TemplateLiteral(path: string)
    ensures TemplateOf("`" + PathTemplate(path) + "`", path)
  {
    PathTemplateRoundTrip(path);
    var t := "`" + PathTemplate(path) + "`";
    assert t[1..|t| - 1] == PathTemplate(path);
  }

  /**
   * The call as the generator writes it: the token, the quoted method, the
   * path as a template literal, the literal of the query argument names and
   * the literal of the body argument names, each list of names in schema
   * order.
   */
  function WrapperAsWritten(def: EndpointDef): (w: Wrapper)
    requires WellFormed(def)
    ensures w.parameters == Parameters(def)
    ensures |w.callArgs| == 5
    ensures w.callArgs[0] == "token" && w.callArgs[1] == "'" + def.verb + "'"
    ensures TemplateOf(w.callArgs[2], def.path)
    ensures w.callArgs[3] == NamesLiteral(SchemaKeys(def.querySchema))
    ensures w.callArgs[4] == NamesLiteral(SchemaKeys(def.bodySchema))
  {
    var queryNames, bodyNames := ArgNames(Args(def.querySchema, true)), ArgNames(Args(def.bodySchema, false));
    ArgNamesAreKeys(def.querySchema, true);
    ArgNamesAreKeys(def.bodySchema, false);
    assert queryNames == SchemaKeys(def.querySchema) && bodyNames == SchemaKeys(def.bodySchema);
    TemplateLiteral(def.path);
    Wrapper(Parameters(def), ["token", "'" + def.verb + "'", "`" + PathTemplate(def.path) + "`", NamesLiteral(queryNames), NamesLiteral(bodyNames)])
  }

  /**
   * The call as `makeRequest` expects it, with the path template passed
   * again as the bucket key in the fourth position, as the hand-written
   * wrappers of `src/network/api.ts` do; the other arguments are those of
   * the call as written.
   */
  function WrapperCorrected(def: EndpointDef): (w: Wrapper)
    requires WellFormed(def)
    ensures |w.callArgs| == |MakeRequestParams|
    ensures w.callArgs[0] == "token" && w.callArgs[1] == "'" + def.verb + "'"
    ensures w.callArgs[3] == w.callArgs[2] == "`" + PathTemplate(def.path) + "`" && TemplateOf(w.callArgs[2], def.path)
    ensures w.callArgs[4] == NamesLiteral(SchemaKeys(def.querySchema))
    ensures w.callArgs[5] == NamesLiteral(SchemaKeys(def.bodySchema))
    ensures w.parameters == Parameters(def)
  {
    ArgNamesAreKeys(def.querySchema, true);
    ArgNamesAreKeys(def.bodySchema, false);
    TemplateLiteral(def.path);
    var template := "`" + PathTemplate(def.path) + "`";
    Wrapper(
      Parameters(def),
      [ "token", "'" + def.verb + "'", template, template,
        NamesLiteral(ArgNames(Args(def.querySchema, true))),
        NamesLiteral(ArgNames(Args(def.bodySchema, false))) ])
  }

  /**
   * As written, the generated call is one argument short, and the query
   * literal lands in the `bucket` position and the body literal in the
   * `queryData` position: an endpoint with a query argument `user_id` is
   * rate limited under the key `{user_id}`, sends no query string, and
   * drops its body.
   */
  lemma AsWrittenShiftsArguments(def: EndpointDef)
    requires WellFormed(def)
    ensures var w := WrapperAsWritten(def);
            && |w.callArgs| == |MakeRequestParams| - 1
            && MakeRequestParams[3] == "bucket" && w.callArgs[3] == WrapperCorrected(def).callArgs[4]
            && MakeRequestParams[4] == "queryData" && w.callArgs[4] == WrapperCorrected(def).callArgs[5]
  {
  }

  /**
   * A concrete case: with a single query argument `user_id` and no body,
   * the bucket key passed is the text `{user_id}` and the query data is
   * `undefined`, where the corrected call passes `{user_id}` as query data.
   */
  lemma AsWrittenExample(def: EndpointDef)
    requires WellFormed(def)
    requires SchemaKeys(def.querySchema) == ["user_id"] && def.bodySchema.None?
    ensures WrapperAsWritten(def).callArgs[3] == "{user_id}"
    ensures WrapperAsWritten(def).callArgs[4] == "undefined"
    ensures WrapperCorrected(def).callArgs[4] == "{user_id}"
    ensures WrapperCorrected(def).callArgs[5] == "undefined"
  {
    assert Join(["user_id"], ",") == "user_id";
    assert NamesLiteral(["user_id"]) == "{user_id}";
    assert SchemaKeys(def.bodySchema) == [];
    ArgNamesAreKeys(def.querySchema, true);
    ArgNamesAreKeys(def.bodySchema, false);
    var w := WrapperAsWritten(def);
    assert w.callArgs[3] == "{user_id}" && w.callArgs[4] == "undefined";
  }

  /** The template of a concatenation is the concatenation of the templates. */
  lemma {:induction false} PathTemplateSplit(a: string, b: string)
    ensures PathTemplate(a + b) == PathTemplate(a) + PathTemplate(b)
    decreases |a|
  {
    if |a| > 0 {
      assert (a + b)[1..] == a[1..] + b;
      PathTemplateSplit(a[1..], b);
    } else {
      assert a + b == b;
    }
  }

  /** Lines 42-43 for one import: the module's list is created if absent, then the name appended. */
  function AddImport(g: Dict<seq<string>>, name: string, from: string): (r: Dict<seq<string>>)
    requires g.Valid()
    ensures r.Valid()
  {
    var base := if from in g.values then g else Dict(g.keys + [from], g.values[from := []]);
    Dict(base.keys, base.values[from := base.values[from] + [name]])
  }

  /** The groups of import names made so far: module keys in first-use order, names in input order. */
  function Grouped(entries: seq<(string, string)>): (g: Dict<seq<string>>)
    ensures g.Valid()
    decreases |entries|
  {
    if |entries| == 0 then Dict([], map[])
    else AddImport(Grouped(entries[..|entries| - 1]), entries[|entries| - 1].0, entries[|entries| - 1].1)
  }

  /** Grouping one more entry adds that import to the groups of the entries before it. */
  lemma GroupedSnoc(entries: seq<(string, string)>, i: nat)
    requires i < |entries|
    ensures Grouped(entries[..i + 1]) == AddImport(Grouped(entries[..i]), entries[i].0, entries[i].1)
  {
    assert entries[..i + 1][..i] == entries[..i];
  }

  /** The names imported from `from`, in input order. */
  function NamesFrom(entries: seq<(string, string)>, from: string): seq<string>
    decreases |entries|
  {
    if |entries| == 0 then []
    else NamesFrom(entries[..|entries| - 1], from) + (if entries[|entries| - 1].1 == from then [entries[|entries| - 1].0] else [])
  }

  /** No name is imported from a module no entry names. */
  lemma {:induction false} NamesFromAbsent(entries: seq<(string, string)>, from: string)
    requires forall i :: 0 <= i < |entries| ==> entries[i].1 != from
    ensures NamesFrom(entries, from) == []
    decreases |entries|
  {
    if |entries| > 0 {
      NamesFromAbsent(entries[..|entries| - 1], from);
    }
  }

  /**
   * Grouping creates a key exactly for each module some name is imported
   * from, and that key lists exactly the names imported from it, in input
   * order.
   */
  lemma {:induction false} GroupedContents(entries: seq<(string, string)>)
    ensures forall from :: from in Grouped(entries).values <==> exists i :: 0 <= i < |entries| && entries[i].1 == from
    ensures forall from :: from in Grouped(entries).values ==> Grouped(entries).values[from] == NamesFrom(entries, from)
    decreases |entries|
  {
    if |entries| > 0 {
      var init := entries[..|entries| - 1];
      GroupedContents(init);
      assert forall i :: 0 <= i < |init| ==> init[i] == entries[i];
      var last := entries[|entries| - 1];
      if last.1 !in Grouped(init).values {
        NamesFromAbsent(init, last.1);
      }
      forall from | from in Grouped(entries).values
        ensures exists i :: 0 <= i < |entries| && entries[i].1 == from
      {
        if from != entries[|entries| - 1].1 {
          var i :| 0 <= i < |init| && init[i].1 == from;
          assert entries[i].1 == from;
        }
      }
    }
  }

  /** The import-grouping loop over `objectEntries(defs.imports)`. */
  method GroupImports(imports: Dict<string>) returns (groups: Dict<seq<string>>)
    requires imports.Valid()
    ensures groups == Grouped(ObjectEntries(imports))
  {
    var entries := ObjectEntries(imports);
    groups := Dict([], map[]);
    var i := 0;
    while i < |entries|
      invariant 0 <= i <= |entries|
      invariant groups == Grouped(entries[..i])
    {
      var name := entries[i].0;
      var from := entries[i].1;
      GroupedSnoc(entries, i);
      ghost var before := groups;
      if from !in groups.values {
        groups := Dict(groups.keys + [from], groups.values[from := []]);
      }
      groups := groups.(values := groups.values[from := groups.values[from] + [name]]);
      assert groups == AddImport(before, name, from);
      i := i + 1;
    }
    assert entries[..|entries|] == entries;
  }
}
