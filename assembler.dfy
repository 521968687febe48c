/**
  The request handler that `configureData` returns in lib/index.js, with
  `processSchema`: it walks the application, drops the two documentation
  routes, builds one Swagger 2.0 Operation entry per remaining descriptor,
  turns every object-valued key of a handler's `_schema` into a numbered
  definition `Model n` plus a parameter referring to it, and stores each entry
  at `paths[path][method]`.
*/
module Assembler {
  import opened Wrappers
  import opened Strings
  import opened Walker
  import opened Translator

  /** The keys of a `_schema` object in `Object.keys` order, each with its value (a Joi schema when it is an object). */
  type SchemaFields = seq<(string, Value<JoiDescription>)>

  /** A handler function, seen only through its `_schema` property. */
  datatype Handle = Handle(schema: Value<SchemaFields>)

  /** The resolved `documentationPath` and `jsonPath` settings. */
  datatype Options = Options(documentationPath: string, jsonPath: string)

  /** A Parameter Object `{in, name, schema: {$ref}}`; `in` is called `location` here. */
  datatype Parameter = Parameter(location: string, name: string, ref: string)

  /** A Response Object `{schema: {type}, description}`. */
  datatype Response = Response(schemaType: string, description: string)

  /** An Operation Object as the handler builds it. */
  datatype Entry = Entry(
    tags: seq<string>,
    summary: string,
    operationId: string,
    parameters: seq<Parameter>,
    responses: map<string, Response>)

  /** The Swagger Object the handler sends. */
  datatype Document = Document(
    swagger: string,
    tags: seq<string>,
    paths: map<string, map<string, Entry>>,
    definitions: map<string, Model>)

  const Summary: string := "Expand for route details"

  /** `responsesSchema`: a single `default` response. */
  const Responses: map<string, Response> := map["default" := Response("string", "Successful")]

  /** The routes that serve the documentation itself, which are not documented. */
  predicate IsDocumentationRoute(route: Descriptor<Handle>, options: Options) {
    (route.path == options.jsonPath || route.path == options.documentationPath) && route.verb == "get"
  }

  /**
    `${method}_${path.replace('/', '_')}`: the method, an underscore, then the
    path with its first '/' (only) turned into '_'.
  */
  function OperationId(verb: string, path: string): (id: string)
    ensures |id| == |verb| + 1 + |path|
    ensures id[..|verb|] == verb && id[|verb|] == '_'
    ensures forall i :: 0 <= i < |path| ==>
      id[|verb| + 1 + i] == (if path[i] == '/' && '/' !in path[..i] then '_' else path[i])
    ensures '/' !in path ==> id == verb + "_" + path
  {
    verb + "_" + ReplaceFirst(path, '/', '_')
  }

  /**
    Express paths start with '/', which is the slash replaced: the id is the
    method, two underscores, and the rest of the path with its slashes kept.
  */
  lemma OperationIdLeadingSlash(verb: string, rest: string)
    ensures OperationId(verb, "/" + rest) == verb + "__" + rest
  {
    assert ("/" + rest)[1..] == rest;
    assert ReplaceFirst("/" + rest, '/', '_') == "_" + rest;
  }

  /** `Model ${modelCount}`. */
  function ModelName(n: nat): string {
    "Model " + NatToDecimal(n)
  }

  /** `#/definitions/Model ${modelCount}`. */
  function Reference(n: nat): string {
    "#/definitions/" + ModelName(n)
  }

  /** Distinct numbers give distinct definition names. */
  lemma ModelNameInjective(a: nat, b: nat)
    requires ModelName(a) == ModelName(b)
    ensures a == b
  {
    assert NatToDecimal(a) == ModelName(a)[6..];
    assert NatToDecimal(b) == ModelName(b)[6..];
    NatToDecimalInjective(a, b);
  }

  lemma ModelNamesInjective()
    ensures forall a: nat, b: nat :: ModelName(a) == ModelName(b) ==> a == b
  {
    forall a: nat, b: nat | ModelName(a) == ModelName(b)
      ensures a == b
    {
      ModelNameInjective(a, b);
    }
  }

  /**
    The definitions object built so far, as the sequence of its values in
    insertion order. `processSchema` only ever adds a definition under the
    name `Model <count + 1>`, which is not yet taken, so the object's keys are
    always `Model 1` .. `Model N` and the n-th value is the one under
    `Model n`; `Render` produces the keyed object.
  */
  type Definitions = seq<Model>

  /** The `definitions` object of the document: the n-th definition under the key `Model n`. */
  function Render(definitions: Definitions): (named: map<string, Model>)
    ensures forall n :: 1 <= n <= |definitions| ==> ModelName(n) in named && named[ModelName(n)] == definitions[n - 1]
    ensures forall name :: name in named ==> exists n :: 1 <= n <= |definitions| && name == ModelName(n)
  {
    ModelNamesInjective();
    map n: nat | 1 <= n <= |definitions| :: ModelName(n) := definitions[n - 1]
  }

  /** The key `Model <count + 1>` is not yet taken. */
  lemma NextNameFresh(definitions: Definitions)
    ensures ModelName(|definitions| + 1) !in Render(definitions)
  {
    if ModelName(|definitions| + 1) in Render(definitions) {
      var n :| 1 <= n <= |definitions| && ModelName(|definitions| + 1) == ModelName(n);
      ModelNameInjective(n, |definitions| + 1);
    }
  }

  /** A key of the object after adding a definition is the new key or a key it had before, with the same value. */
  lemma RenderSnocKey(definitions: Definitions, model: Model, name: string)
    requires name in Render(definitions + [model]) && name != ModelName(|definitions| + 1)
    ensures name in Render(definitions) && Render(definitions + [model])[name] == Render(definitions)[name]
  {
    var n :| 1 <= n <= |definitions| + 1 && name == ModelName(n);
    assert n <= |definitions|;
    assert (definitions + [model])[n - 1] == definitions[n - 1];
  }

  /** Adding a definition adds exactly the key `Model <count + 1>`. */
  lemma RenderSnocKeys(definitions: Definitions, model: Model)
    ensures Render(definitions + [model]).Keys == Render(definitions).Keys + {ModelName(|definitions| + 1)}
  {
    var next := ModelName(|definitions| + 1);
    var before, after := Render(definitions), Render(definitions + [model]);
    forall name | name in after && name != next
      ensures name in before
    {
      RenderSnocKey(definitions, model, name);
    }
    forall name | name in before
      ensures name in after
    {
      var n :| 1 <= n <= |definitions| && name == ModelName(n);
    }
  }

  /**
    Adding a definition is storing it under the fresh key `Model <count + 1>`
    of the keyed object: that key was not taken, it now holds the new
    definition, and every other key keeps its value.
  */
  lemma RenderSnoc(definitions: Definitions, model: Model)
    ensures ModelName(|definitions| + 1) !in Render(definitions)
    ensures Render(definitions + [model]).Keys == Render(definitions).Keys + {ModelName(|definitions| + 1)}
    ensures Render(definitions + [model])[ModelName(|definitions| + 1)] == model
    ensures forall name :: name in Render(definitions) ==> Render(definitions + [model])[name] == Render(definitions)[name]
  {
    NextNameFresh(definitions);
    RenderSnocKeys(definitions, model);
    var next := ModelName(|definitions| + 1);
    var before, after := Render(definitions), Render(definitions + [model]);
    forall name | name in before
      ensures after[name] == before[name]
    {
      RenderSnocKey(definitions, model, name);
    }
    assert (definitions + [model])[|definitions|] == model;
  }

  /** The keyed object has as many keys as there are definitions: `Object.keys(definitions).length` is the count. */
  lemma {:induction false} RenderSize(definitions: Definitions)
    ensures |Render(definitions).Keys| == |definitions|
    decreases |definitions|
  {
    if definitions != [] {
      var n := |definitions| - 1;
      var init, last := definitions[..n], definitions[n];
      assert definitions == init + [last];
      RenderSize(init);
      RenderSizeStep(init, last);
    }
  }

  lemma RenderSizeStep(definitions: Definitions, model: Model)
    requires |Render(definitions).Keys| == |definitions|
    ensures |Render(definitions + [model]).Keys| == |definitions| + 1
  {
    NextNameFresh(definitions);
    RenderSnocKeys(definitions, model);
    AddFreshCard(Render(definitions).Keys, ModelName(|definitions| + 1));
  }

  lemma AddFreshCard<T>(s: set<T>, x: T)
    requires x !in s
    ensures |s + {x}| == |s| + 1
  {
    assert s + {x} - {x} == s;
  }

  /** An object-valued key of a `_schema`: the key and the description of its Joi schema. */
  datatype Input = Input(field: string, schema: JoiDescription)

  /** The object-valued keys of a `_schema`, in key order; keys whose value is not an object are passed over. */
  function FieldInputs(fields: SchemaFields): (inputs: seq<Input>)
    ensures |inputs| <= |fields|
    ensures forall k :: 0 <= k < |inputs| ==> (inputs[k].field, Object(inputs[k].schema)) in fields
    ensures forall i :: 0 <= i < |fields| && fields[i].1.Object? ==> Input(fields[i].0, fields[i].1.obj) in inputs
  {
    if fields == [] then []
    else
      var n := |fields| - 1;
      var inputs := FieldInputs(fields[..n]) + if IsObject(fields[n].1) then [Input(fields[n].0, fields[n].1.obj)] else [];
      assert forall i :: 0 <= i < n ==> fields[..n][i] == fields[i];
      inputs
  }

  lemma FieldInputsSnoc(fields: SchemaFields, j: nat)
    requires j < |fields|
    ensures FieldInputs(fields[..j + 1]) ==
      FieldInputs(fields[..j]) + if fields[j].1.Object? then [Input(fields[j].0, fields[j].1.obj)] else []
  {
    assert fields[..j + 1][..j] == fields[..j];
  }

  /** The schema entries the inputs come from: each key with its (object) value. */
  function AsFields(inputs: seq<Input>): SchemaFields {
    seq(|inputs|, k requires 0 <= k < |inputs| => (inputs[k].field, Object(inputs[k].schema)))
  }

  /** One more schema key: its entry is appended to the processed ones exactly when its value is an object. */
  lemma FieldInputsStep(init: SchemaFields, last: (string, Value<JoiDescription>))
    ensures AsFields(FieldInputs(init + [last])) == AsFields(FieldInputs(init)) + if last.1.Object? then [last] else []
  {
    assert (init + [last])[..|init|] == init;
    var xs := FieldInputs(init);
    if last.1.Object? {
      var input := Input(last.0, last.1.obj);
      assert FieldInputs(init + [last]) == xs + [input];
      assert (input.field, Object(input.schema)) == last;
      assert AsFields(xs + [input]) == AsFields(xs) + [last];
    } else {
      assert FieldInputs(init + [last]) == xs + [];
    }
  }

  /** The keys processed keep the order of `Object.keys(_schema)`. */
  lemma {:induction false} FieldInputsInOrder(fields: SchemaFields)
    ensures IsSubsequence(AsFields(FieldInputs(fields)), fields)
    decreases |fields|
  {
    if fields != [] {
      var n := |fields| - 1;
      var init, last := fields[..n], fields[n];
      FieldInputsInOrder(init);
      assert fields == init + [last];
      FieldInputsStep(init, last);
      var before, after := AsFields(FieldInputs(init)), AsFields(FieldInputs(fields));
      if last.1.Object? {
        assert after == before + [last];
        SubsequenceSnoc(before, init, last);
      } else {
        assert after == before;
        SubsequenceExtend(before, init, last);
      }
    }
  }

  /** Every object-valued key is processed exactly once (as often as it occurs), and no other key is. */
  lemma {:induction false} FieldInputsCounts(fields: SchemaFields, entry: (string, Value<JoiDescription>))
    ensures multiset(AsFields(FieldInputs(fields)))[entry] == if entry.1.Object? then multiset(fields)[entry] else 0
    decreases |fields|
  {
    if fields != [] {
      var n := |fields| - 1;
      var init, last := fields[..n], fields[n];
      FieldInputsCounts(init, entry);
      assert fields == init + [last];
      FieldInputsStep(init, last);
      assert multiset(fields) == multiset(init) + multiset{last};
    }
  }

  /** The object-valued keys of a handler's `_schema`; none when `_schema` is not an object. */
  function MiddlewareInputs(handle: Handle): seq<Input> {
    if IsObject(handle.schema) then FieldInputs(handle.schema.obj) else []
  }

  /** The object-valued schema keys of a whole stack: stack order first, then key order. */
  function StackInputs(stack: seq<RouteLayer<Handle>>): seq<Input> {
    if stack == [] then []
    else StackInputs(stack[..|stack| - 1]) + MiddlewareInputs(stack[|stack| - 1].handle)
  }

  /**
    What `processSchema` does with one object-valued key: the translated schema
    becomes definition `Model n`, n being the number of definitions plus one,
    and a parameter referring to it is appended.
  */
  function AddModel(definitions: Definitions, parameters: seq<Parameter>, input: Input): (Definitions, seq<Parameter>) {
    var n := |definitions| + 1;
    (definitions + [TranslateJoiSchema(input.schema)],
     parameters + [Parameter(input.field, input.field, Reference(n))])
  }

  /** `AddModel` for each input in turn. */
  function AddModels(definitions: Definitions, parameters: seq<Parameter>, inputs: seq<Input>): (Definitions, seq<Parameter>) {
    if inputs == [] then (definitions, parameters)
    else
      var r := AddModels(definitions, parameters, inputs[..|inputs| - 1]);
      AddModel(r.0, r.1, inputs[|inputs| - 1])
  }

  /** The translations of the given inputs' schemas, in order. */
  function Translations(inputs: seq<Input>): (models: seq<Model>)
    ensures |models| == |inputs|
  {
    seq(|inputs|, k requires 0 <= k < |inputs| => TranslateJoiSchema(inputs[k].schema))
  }

  /** The parameters that refer to `Model base+1`, `Model base+2`, ... for the given inputs. */
  function Parameters(inputs: seq<Input>, base: nat): (parameters: seq<Parameter>)
    ensures |parameters| == |inputs|
  {
    seq(|inputs|, k requires 0 <= k < |inputs| => Parameter(inputs[k].field, inputs[k].field, Reference(base + k + 1)))
  }

  /** Processing two lists of inputs one after the other is processing their concatenation. */
  lemma {:induction false} AddModelsAppend(definitions: Definitions, parameters: seq<Parameter>, xs: seq<Input>, ys: seq<Input>)
    ensures AddModels(definitions, parameters, xs + ys) ==
      var r := AddModels(definitions, parameters, xs); AddModels(r.0, r.1, ys)
    decreases |ys|
  {
    if ys == [] {
      assert xs + ys == xs;
    } else {
      assert (xs + ys)[..|xs + ys| - 1] == xs + ys[..|ys| - 1];
      AddModelsAppend(definitions, parameters, xs, ys[..|ys| - 1]);
    }
  }

  lemma AddModelsSnoc(definitions: Definitions, parameters: seq<Parameter>, inputs: seq<Input>, input: Input)
    ensures AddModels(definitions, parameters, inputs + [input]) ==
      var r := AddModels(definitions, parameters, inputs); AddModel(r.0, r.1, input)
  {
    assert (inputs + [input])[..|inputs|] == inputs;
  }

  /**
    Processing N object-valued keys adds their N translations after the
    existing definitions, in order, so that the k-th key's model is
    `Model |D|+k`, and appends N parameters, the k-th named after the k-th key
    and referring to `Model |D|+k`.
  */
  lemma {:induction false} AddModelsClosed(definitions: Definitions, parameters: seq<Parameter>, inputs: seq<Input>)
    ensures AddModels(definitions, parameters, inputs).0 == definitions + Translations(inputs)
    ensures AddModels(definitions, parameters, inputs).1 == parameters + Parameters(inputs, |definitions|)
    decreases |inputs|
  {
    if inputs == [] {
      assert definitions + [] == definitions && parameters + [] == parameters;
    } else {
      var n := |inputs| - 1;
      var init := inputs[..n];
      AddModelsClosed(definitions, parameters, init);
      var r := AddModels(definitions, parameters, init);
      assert AddModels(definitions, parameters, inputs) == AddModel(r.0, r.1, inputs[n]);
      assert |r.0| == |definitions| + n;
      ClosedSnoc(init, inputs[n], |definitions|);
      assert init + [inputs[n]] == inputs;
    }
  }

  lemma ClosedSnoc(inputs: seq<Input>, input: Input, base: nat)
    ensures Translations(inputs + [input]) == Translations(inputs) + [TranslateJoiSchema(input.schema)]
    ensures Parameters(inputs + [input], base) ==
      Parameters(inputs, base) + [Parameter(input.field, input.field, Reference(base + |inputs| + 1))]
  {
  }

  /** `lodash.set(paths, `${path}.${method}`, entry)` for a path and method with no '.', '[' or ']': a literal two-level insert. */
  function SetPath(paths: map<string, map<string, Entry>>, path: string, verb: string, entry: Entry): (r: map<string, map<string, Entry>>)
    ensures r.Keys == paths.Keys + {path}
    ensures r[path].Keys == (if path in paths then paths[path].Keys else {}) + {verb}
    ensures r[path][verb] == entry
    ensures forall p :: p in paths && p != path ==> r[p] == paths[p]
    ensures forall p, v :: p in paths && v in paths[p] && (p, v) != (path, verb) ==> v in r[p] && r[p][v] == paths[p][v]
  {
    paths[path := (if path in paths then paths[path] else map[])[verb := entry]]
  }

  /** A string lodash reads as a single key. */
  predicate IsPlainKey(s: string) {
    forall i :: 0 <= i < |s| ==> s[i] != '.' && s[i] != '[' && s[i] != ']'
  }

  /** The entry for a route, once its parameters are known. */
  function EntryFor(route: Descriptor<Handle>, parameters: seq<Parameter>): Entry {
    Entry(["api"], Summary, OperationId(route.verb, route.path), parameters, Responses)
  }

  /** The `paths` and the numbered definitions after the handler's `forEach` over the given descriptors. */
  function Assemble(routes: seq<Descriptor<Handle>>, options: Options): (map<string, map<string, Entry>>, Definitions) {
    if routes == [] then (map[], [])
    else
      var prev := Assemble(routes[..|routes| - 1], options);
      var route := routes[|routes| - 1];
      if IsDocumentationRoute(route, options) then prev
      else
        var r := AddModels(prev.1, [], StackInputs(route.stack));
        (SetPath(prev.0, route.path, route.verb, EntryFor(route, r.1)), r.0)
  }

  /** The document the handler sends for the given descriptors. */
  function AssembleDocument(routes: seq<Descriptor<Handle>>, options: Options): Document {
    var r := Assemble(routes, options);
    Document("2.0", [], r.0, Render(r.1))
  }

  /** The object-valued schema keys met over all documented descriptors, in walk order. */
  function DocumentInputs(routes: seq<Descriptor<Handle>>, options: Options): seq<Input> {
    if routes == [] then []
    else
      var route := routes[|routes| - 1];
      DocumentInputs(routes[..|routes| - 1], options) + if IsDocumentationRoute(route, options) then [] else StackInputs(route.stack)
  }

  /**
    The definitions are the translations of all object-valued schema keys of
    the documented descriptors, in walk order: `Model k` is the translation of
    the k-th such key.
  */
  lemma {:induction false} AssembleDefinitions(routes: seq<Descriptor<Handle>>, options: Options)
    ensures Assemble(routes, options).1 == Translations(DocumentInputs(routes, options))
    decreases |routes|
  {
    if routes != [] {
      var init, route := routes[..|routes| - 1], routes[|routes| - 1];
      AssembleDefinitions(init, options);
      AssembleDefinitionsSnoc(routes, options);
      var xs := DocumentInputs(init, options);
      if !IsDocumentationRoute(route, options) {
        var ys := StackInputs(route.stack);
        AddModelsClosed(Assemble(init, options).1, [], ys);
        TranslationsAppend(xs, ys);
      } else {
        assert DocumentInputs(routes, options) == xs + [];
      }
    }
  }

  lemma TranslationsAppend(xs: seq<Input>, ys: seq<Input>)
    ensures Translations(xs + ys) == Translations(xs) + Translations(ys)
  {
    assert forall k :: 0 <= k < |xs| + |ys| ==> (xs + ys)[k] == if k < |xs| then xs[k] else ys[k - |xs|];
  }

  /** The definitions after one more step of the handler's `forEach`. */
  lemma AssembleDefinitionsSnoc(routes: seq<Descriptor<Handle>>, options: Options)
    requires routes != []
    ensures var prev, route := Assemble(routes[..|routes| - 1], options), routes[|routes| - 1];
      Assemble(routes, options).1 ==
        if IsDocumentationRoute(route, options) then prev.1 else AddModels(prev.1, [], StackInputs(route.stack)).0
  {
  }

  /** One step of the handler's `forEach`. */
  lemma AssembleSnoc(routes: seq<Descriptor<Handle>>, options: Options)
    requires routes != []
    ensures var prev, route := Assemble(routes[..|routes| - 1], options), routes[|routes| - 1];
      var r := AddModels(prev.1, [], StackInputs(route.stack));
      Assemble(routes, options) ==
        if IsDocumentationRoute(route, options) then prev
        else (SetPath(prev.0, route.path, route.verb, EntryFor(route, r.1)), r.0)
  {
  }

  /** The (path, method) pairs that have an entry. */
  ghost function EntryKeys(paths: map<string, map<string, Entry>>): set<(string, string)> {
    set p, v | p in paths && v in paths[p] :: (p, v)
  }

  /** The (path, method) pairs of the documented descriptors. */
  function DocumentedKeys(routes: seq<Descriptor<Handle>>, options: Options): set<(string, string)> {
    if routes == [] then {}
    else
      var route := routes[|routes| - 1];
      DocumentedKeys(routes[..|routes| - 1], options) + if IsDocumentationRoute(route, options) then {} else {(route.path, route.verb)}
  }

  /** A pair is among the documented keys exactly when some documented descriptor has that path and method. */
  lemma {:induction false} InDocumentedKeys(routes: seq<Descriptor<Handle>>, options: Options, path: string, verb: string)
    ensures (path, verb) in DocumentedKeys(routes, options) <==>
      exists i :: 0 <= i < |routes| && !IsDocumentationRoute(routes[i], options) && routes[i].path == path && routes[i].verb == verb
    decreases |routes|
  {
    if routes != [] {
      var n := |routes| - 1;
      InDocumentedKeys(routes[..n], options, path, verb);
      if (path, verb) in DocumentedKeys(routes[..n], options) {
        var i :| 0 <= i < n && !IsDocumentationRoute(routes[..n][i], options) && routes[..n][i].path == path && routes[..n][i].verb == verb;
        assert routes[i] == routes[..n][i];
      }
      if exists i :: 0 <= i < n && !IsDocumentationRoute(routes[i], options) && routes[i].path == path && routes[i].verb == verb {
        var i :| 0 <= i < n && !IsDocumentationRoute(routes[i], options) && routes[i].path == path && routes[i].verb == verb;
        assert routes[..n][i] == routes[i];
      }
    }
  }

  /** Storing an entry adds its (path, method) pair and no other. */
  lemma SetPathKeys(paths: map<string, map<string, Entry>>, path: string, verb: string, entry: Entry)
    ensures EntryKeys(SetPath(paths, path, verb, entry)) == EntryKeys(paths) + {(path, verb)}
  {
    var r := SetPath(paths, path, verb, entry);
    forall key | key in EntryKeys(r)
      ensures key in EntryKeys(paths) + {(path, verb)}
    {
      var (p, v) := key;
      if p != path {
        assert v in paths[p];
      } else if v != verb {
        assert v in paths[p];
      }
    }
  }

  /** A (path, method) pair has an entry exactly when some documented descriptor has that path and method. */
  lemma {:induction false} AssembleEntryKeys(routes: seq<Descriptor<Handle>>, options: Options)
    ensures EntryKeys(Assemble(routes, options).0) == DocumentedKeys(routes, options)
    decreases |routes|
  {
    if routes != [] {
      AssembleEntryKeys(routes[..|routes| - 1], options);
      AssembleKeysSnoc(routes, options);
    }
  }

  /**
    The document has an entry at a path and method exactly when the walk has a
    descriptor with that path and method and it is not a `get` at the JSON or
    documentation path; a non-`get` route at those paths is documented.
  */
  lemma DocumentedEntries(routes: seq<Descriptor<Handle>>, options: Options, path: string, verb: string)
    ensures var paths := Assemble(routes, options).0;
      (path in paths && verb in paths[path]) <==>
        && !(verb == "get" && (path == options.jsonPath || path == options.documentationPath))
        && exists i :: 0 <= i < |routes| && routes[i].path == path && routes[i].verb == verb
  {
    AssembleEntryKeys(routes, options);
    InDocumentedKeys(routes, options, path, verb);
    var paths := Assemble(routes, options).0;
    assert (path in paths && verb in paths[path]) <==> (path, verb) in EntryKeys(paths);
  }

  /** The (path, method) pairs after one more step of the handler's `forEach`. */
  lemma AssembleKeysSnoc(routes: seq<Descriptor<Handle>>, options: Options)
    requires routes != []
    ensures var route := routes[|routes| - 1];
      EntryKeys(Assemble(routes, options).0) ==
        EntryKeys(Assemble(routes[..|routes| - 1], options).0) +
        if IsDocumentationRoute(route, options) then {} else {(route.path, route.verb)}
  {
    var init, route := routes[..|routes| - 1], routes[|routes| - 1];
    AssembleSnoc(routes, options);
    if !IsDocumentationRoute(route, options) {
      var prev := Assemble(init, options);
      SetPathKeys(prev.0, route.path, route.verb, EntryFor(route, AddModels(prev.1, [], StackInputs(route.stack)).1));
    }
  }

  /**
    The entry at a descriptor's path and method is the one built for that
    descriptor unless a later documented descriptor has the same path and
    method: its parameters refer to the models numbered after all models of
    the documented descriptors before it.
  */
  lemma {:induction false} AssembleLastWriteWins(routes: seq<Descriptor<Handle>>, options: Options, i: nat)
    requires i < |routes| && !IsDocumentationRoute(routes[i], options)
    requires forall j :: i < j < |routes| && !IsDocumentationRoute(routes[j], options) ==>
      routes[j].path != routes[i].path || routes[j].verb != routes[i].verb
    ensures routes[i].path in Assemble(routes, options).0
    ensures routes[i].verb in Assemble(routes, options).0[routes[i].path]
    ensures Assemble(routes, options).0[routes[i].path][routes[i].verb] ==
      EntryFor(routes[i], Parameters(StackInputs(routes[i].stack), |DocumentInputs(routes[..i], options)|))
    decreases |routes|
  {
    var n := |routes| - 1;
    var init := routes[..n];
    if i == n {
      AssembleDefinitions(init, options);
      AssembleSnoc(routes, options);
      var ys := StackInputs(routes[i].stack);
      AddModelsClosed(Assemble(init, options).1, [], ys);
      assert [] + Parameters(ys, |Assemble(init, options).1|) == Parameters(ys, |Assemble(init, options).1|);
    } else {
      assert init[i] == routes[i] && init[..i] == routes[..i];
      AssembleLastWriteWins(init, options, i);
    }
  }

  /** A `$ref` to one of the first `count` models. */
  ghost predicate RefersWithin(ref: string, count: nat) {
    exists n :: 1 <= n <= count && ref == Reference(n)
  }

  /**
    An entry as the handler builds it for `path` and `method`: the fixed tags,
    summary and responses, its operation id, and parameters named after their
    location that each refer to one of the first `count` models.
  */
  ghost predicate WellFormedEntry(entry: Entry, path: string, verb: string, count: nat) {
    && entry.tags == ["api"]
    && entry.summary == Summary
    && entry.responses == Responses
    && entry.operationId == OperationId(verb, path)
    && forall j :: 0 <= j < |entry.parameters| ==>
         entry.parameters[j].location == entry.parameters[j].name && RefersWithin(entry.parameters[j].ref, count)
  }

  lemma WellFormedEntryMonotone(entry: Entry, path: string, verb: string, count: nat, count': nat)
    requires WellFormedEntry(entry, path, verb, count) && count <= count'
    ensures WellFormedEntry(entry, path, verb, count')
  {
    forall j | 0 <= j < |entry.parameters|
      ensures RefersWithin(entry.parameters[j].ref, count')
    {
      var n :| 1 <= n <= count && entry.parameters[j].ref == Reference(n);
      assert 1 <= n <= count';
    }
  }

  /** Every stored entry is well formed for its path and method, with references among the first `count` models. */
  ghost predicate WellFormedPaths(paths: map<string, map<string, Entry>>, count: nat) {
    forall p, v :: p in paths && v in paths[p] ==> WellFormedEntry(paths[p][v], p, v, count)
  }

  /** The parameters built for a route's keys are named after their location and refer to models base+1 .. base+N. */
  lemma EntryForWellFormed(route: Descriptor<Handle>, inputs: seq<Input>, base: nat, count: nat)
    requires base + |inputs| <= count
    ensures WellFormedEntry(EntryFor(route, Parameters(inputs, base)), route.path, route.verb, count)
  {
    var ps := Parameters(inputs, base);
    forall j | 0 <= j < |ps|
      ensures ps[j].location == ps[j].name && RefersWithin(ps[j].ref, count)
    {
      assert 1 <= base + j + 1 <= count && ps[j].ref == Reference(base + j + 1);
    }
  }

  /** Storing a well-formed entry keeps the paths well formed. */
  lemma SetPathWellFormed(paths: map<string, map<string, Entry>>, count: nat, count': nat, path: string, verb: string, entry: Entry)
    requires WellFormedPaths(paths, count) && count <= count' && WellFormedEntry(entry, path, verb, count')
    ensures WellFormedPaths(SetPath(paths, path, verb, entry), count')
  {
    var r := SetPath(paths, path, verb, entry);
    forall p, v | p in r && v in r[p] && (p, v) != (path, verb)
      ensures WellFormedEntry(r[p][v], p, v, count')
    {
      assert p in paths && v in paths[p];
      WellFormedEntryMonotone(paths[p][v], p, v, count, count');
    }
  }

  /** Every stored entry is well formed, and its references stay within the definitions. */
  lemma {:induction false} AssembleEntriesWellFormed(routes: seq<Descriptor<Handle>>, options: Options)
    ensures WellFormedPaths(Assemble(routes, options).0, |Assemble(routes, options).1|)
    decreases |routes|
  {
    if routes != [] {
      var init, route := routes[..|routes| - 1], routes[|routes| - 1];
      AssembleEntriesWellFormed(init, options);
      AssembleSnoc(routes, options);
      if !IsDocumentationRoute(route, options) {
        var prev := Assemble(init, options);
        var ys := StackInputs(route.stack);
        AddModelsClosed(prev.1, [], ys);
        assert [] + Parameters(ys, |prev.1|) == Parameters(ys, |prev.1|);
        EntryForWellFormed(route, ys, |prev.1|, |prev.1| + |ys|);
        SetPathWellFormed(prev.0, |prev.1|, |prev.1| + |ys|, route.path, route.verb, EntryFor(route, Parameters(ys, |prev.1|)));
      }
    }
  }

  /** The number of documented descriptors. */
  function DocumentedCount(routes: seq<Descriptor<Handle>>, options: Options): nat {
    if routes == [] then 0
    else DocumentedCount(routes[..|routes| - 1], options) + if IsDocumentationRoute(routes[|routes| - 1], options) then 0 else 1
  }

  /** When no two documented descriptors share a path and method, each gets an entry of its own. */
  lemma {:induction false} AssembleEntryCount(routes: seq<Descriptor<Handle>>, options: Options)
    requires forall i, j :: 0 <= i < j < |routes| && !IsDocumentationRoute(routes[i], options) && !IsDocumentationRoute(routes[j], options) ==>
      routes[i].path != routes[j].path || routes[i].verb != routes[j].verb
    ensures |EntryKeys(Assemble(routes, options).0)| == DocumentedCount(routes, options)
    decreases |routes|
  {
    if routes != [] {
      var n := |routes| - 1;
      var init, route := routes[..n], routes[n];
      AssembleEntryCount(init, options);
      AssembleKeysSnoc(routes, options);
      if !IsDocumentationRoute(route, options) {
        AssembleEntryKeys(init, options);
        FreshKey(routes, options);
      }
    }
  }

  /** With no shared (path, method) pairs, the last documented descriptor's pair is new. */
  lemma FreshKey(routes: seq<Descriptor<Handle>>, options: Options)
    requires routes != [] && !IsDocumentationRoute(routes[|routes| - 1], options)
    requires forall i, j :: 0 <= i < j < |routes| && !IsDocumentationRoute(routes[i], options) && !IsDocumentationRoute(routes[j], options) ==>
      routes[i].path != routes[j].path || routes[i].verb != routes[j].verb
    ensures (routes[|routes| - 1].path, routes[|routes| - 1].verb) !in DocumentedKeys(routes[..|routes| - 1], options)
  {
    var n := |routes| - 1;
    InDocumentedKeys(routes[..n], options, routes[n].path, routes[n].verb);
  }

  /** The rendered translations are `Model 1` .. `Model N`, `Model k` holding the translation of the k-th input. */
  lemma RenderTranslations(inputs: seq<Input>)
    ensures forall name :: name in Render(Translations(inputs)) <==> exists n :: 1 <= n <= |inputs| && name == ModelName(n)
    ensures forall k :: 0 <= k < |inputs| ==>
      ModelName(k + 1) in Render(Translations(inputs)) &&
      Render(Translations(inputs))[ModelName(k + 1)] == TranslateJoiSchema(inputs[k].schema)
  {
    var named := Render(Translations(inputs));
    forall k | 0 <= k < |inputs|
      ensures ModelName(k + 1) in named && named[ModelName(k + 1)] == TranslateJoiSchema(inputs[k].schema)
    {
      assert 1 <= k + 1 <= |Translations(inputs)|;
    }
  }

  /** Well-formed entries refer only to rendered definitions. */
  lemma RenderResolves(paths: map<string, map<string, Entry>>, definitions: Definitions)
    requires WellFormedPaths(paths, |definitions|)
    ensures forall p, v, q :: p in paths && v in paths[p] && q in paths[p][v].parameters ==>
      exists name :: name in Render(definitions) && q.ref == "#/definitions/" + name
  {
    forall p, v, q | p in paths && v in paths[p] && q in paths[p][v].parameters
      ensures exists name :: name in Render(definitions) && q.ref == "#/definitions/" + name
    {
      var ps := paths[p][v].parameters;
      assert WellFormedEntry(paths[p][v], p, v, |definitions|);
      var j :| 0 <= j < |ps| && ps[j] == q;
      var n :| 1 <= n <= |definitions| && ps[j].ref == Reference(n);
      assert ModelName(n) in Render(definitions);
    }
  }

  /**
    In the document sent, the definitions are exactly `Model 1` .. `Model N`,
    `Model k` being the translation of the k-th object-valued schema key, and
    every parameter's `$ref` is `#/definitions/` followed by one of them.
  */
  lemma DocumentReferencesResolve(routes: seq<Descriptor<Handle>>, options: Options)
    ensures var doc, inputs := AssembleDocument(routes, options), DocumentInputs(routes, options);
      && (forall name :: name in doc.definitions <==> exists n :: 1 <= n <= |inputs| && name == ModelName(n))
      && (forall k :: 0 <= k < |inputs| ==>
            ModelName(k + 1) in doc.definitions && doc.definitions[ModelName(k + 1)] == TranslateJoiSchema(inputs[k].schema))
      && (forall p, v, q :: p in doc.paths && v in doc.paths[p] && q in doc.paths[p][v].parameters ==>
            exists name :: name in doc.definitions && q.ref == "#/definitions/" + name)
  {
    var r := Assemble(routes, options);
    var inputs := DocumentInputs(routes, options);
    AssembleDefinitions(routes, options);
    AssembleEntriesWellFormed(routes, options);
    RenderTranslations(inputs);
    RenderResolves(r.0, r.1);
  }

  /** `processSchema`: one key of a `_schema`; nothing happens unless its value is an object. */
  method ProcessSchema(field: string, input: Value<JoiDescription>, definitions: Definitions, parameters: seq<Parameter>)
    returns (definitions': Definitions, parameters': seq<Parameter>)
    ensures !input.Object? ==> definitions' == definitions && parameters' == parameters
    ensures input.Object? ==> (definitions', parameters') == AddModel(definitions, parameters, Input(field, input.obj))
    ensures input.Object? ==>
      |definitions'| == |definitions| + 1 && definitions'[|definitions|] == TranslateJoiSchema(input.obj) &&
      parameters' == parameters + [Parameter(field, field, Reference(|definitions'|))]
  {
    if !IsObject(input) {
      return definitions, parameters;
    }
    var model := TranslateJoiSchema(input.obj);
    var modelCount := |definitions| + 1;
    definitions' := definitions + [model];
    parameters' := parameters + [Parameter(field, field, Reference(modelCount))];
  }

  /** The `eachMiddleware` callback: every key of the handler's `_schema`, if that is an object, in key order. */
  method ProcessMiddleware(handle: Handle, definitions: Definitions, parameters: seq<Parameter>)
    returns (definitions': Definitions, parameters': seq<Parameter>)
    ensures (definitions', parameters') == AddModels(definitions, parameters, MiddlewareInputs(handle))
  {
    definitions', parameters' := definitions, parameters;
    if !IsObject(handle.schema) {
      return;
    }
    var fields := handle.schema.obj;
    for j := 0 to |fields|
      invariant (definitions', parameters') == AddModels(definitions, parameters, FieldInputs(fields[..j]))
    {
      FieldInputsSnoc(fields, j);
      if fields[j].1.Object? {
        AddModelsSnoc(definitions, parameters, FieldInputs(fields[..j]), Input(fields[j].0, fields[j].1.obj));
      } else {
        assert FieldInputs(fields[..j]) + [] == FieldInputs(fields[..j]);
      }
      definitions', parameters' := ProcessSchema(fields[j].0, fields[j].1, definitions', parameters');
    }
    assert fields[..|fields|] == fields;
  }

  /** Building one route's entry: fixed fields, then the parameters of every handler of its stack. */
  method BuildEntry(route: Descriptor<Handle>, definitions: Definitions)
    returns (entry: Entry, definitions': Definitions)
    ensures var r := AddModels(definitions, [], StackInputs(route.stack));
      definitions' == r.0 && entry == EntryFor(route, r.1)
  {
    var parameters := [];
    definitions' := definitions;
    for i := 0 to |route.stack|
      invariant (definitions', parameters) == AddModels(definitions, [], StackInputs(route.stack[..i]))
    {
      assert route.stack[..i + 1][..i] == route.stack[..i];
      AddModelsAppend(definitions, [], StackInputs(route.stack[..i]), MiddlewareInputs(route.stack[i].handle));
      definitions', parameters := ProcessMiddleware(route.stack[i].handle, definitions', parameters);
    }
    assert route.stack[..|route.stack|] == route.stack;
    entry := Entry(["api"], Summary, OperationId(route.verb, route.path), parameters, Responses);
  }

  /** The `data` request handler: a fresh document per call, built from the walk of the application. */
  method Data(app: App<Handle>, options: Options) returns (doc: Document)
    requires forall route :: route in Walked(app) && !IsDocumentationRoute(route, options) ==>
      IsPlainKey(route.path) && IsPlainKey(route.verb)
    ensures doc.swagger == "2.0" && doc.tags == []
    ensures doc == AssembleDocument(Walked(app), options)
  {
    var routes := Walk(app);
    var paths: map<string, map<string, Entry>> := map[];
    var definitions: Definitions := [];
    for i := 0 to |routes|
      invariant (paths, definitions) == Assemble(routes[..i], options)
    {
      assert routes[..i + 1][..i] == routes[..i];
      var route := routes[i];
      if !IsDocumentationRoute(route, options) {
        var entry;
        entry, definitions := BuildEntry(route, definitions);
        paths := SetPath(paths, route.path, route.verb, entry);
      }
    }
    assert routes[..|routes|] == routes;
    doc := Document("2.0", [], paths, Render(definitions));
  }
}
