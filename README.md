# swagger-jacker in Dafny

A model of the two in-memory parts of swagger-jacker, the Express plug-in that
serves a Swagger 2.0 description of an application's routes:

- **The route walker** (`lib/walker.js`, module `Walker`). It flattens an
  Express routing table into descriptors `{method, path, stack}`. The stack of
  layers is modelled as the closed datatype `Layer`: a route (`'bound
  dispatch'`), a nested router (`'router'`), a mounted application
  (`'mounted_app'`) or any other middleware. `_walkRouter` is the method
  `WalkRouter`, a loop proved against the specification function `Flatten`.
  `_walkRoute` is the function `WalkRoute`.
- **The document assembler** (`lib/index.js`, modules `Assembler`, `Translator`
  and `Strings`). This is the `data` request handler that `configureData`
  returns, together with `processSchema`, `translateJoiSchema`, `isObject`, and
  the trailing-slash normalisation of `assetsPath`. The handler is the method
  `Data`, whose own loop runs over the walked routes. `BuildEntry` loops over
  a route's stack, `ProcessMiddleware` loops over the keys of one handler's
  `_schema`, and `ProcessSchema` handles a single key. The loops are proved
  against folds: `Assemble` for the routes and `AddModels` for the schema
  keys.
  Lemmas about those folds state what the document holds:
  - which (path, method) pairs get an entry;
  - that a later route overwrites an earlier one;
  - that definitions are named `Model 1` .. `Model N` in walk order;
  - that every `$ref` resolves.

Express's mutable objects are modelled as values. The walker writes nothing.
The handler's shared `definitions` object is threaded through the methods and
returned by them. The `definitions` object is kept as the sequence of its
values (`Definitions`), because `processSchema` only ever adds the key
`Model <count + 1>`, which is always fresh. `Render` gives the keyed object,
and `ModelNameInjective` is what makes the names fresh.

The module `Scenarios` restates the routing tables of test/walker.js and proves
what the walker yields for them, and what the handler makes of routes at its
own JSON path.

The filter in `_walkRoute` (lib/walker.js:40) is the strict equality
`layer.method === method`. So a layer with no method, as `route.all` leaves
it, is in no stack (`Walker.StackFor`).

## Model

| member | source | states |
|---|---|---|
| Walker.StackFor | lib/walker.js:39-41 | a route's stack for a method is no longer than the route's stack and holds only layers of it bound to exactly that method (an unbound layer is in no stack) |
| Walker.StackForIsSubsequence | lib/walker.js:39-41 | the filtered stack is an order-preserving subsequence of the route's stack |
| Walker.StackForCounts | lib/walker.js:39-41 | the filtered stack holds each layer bound to the method exactly as often as the route's stack does, and no other layer |
| Walker.StackForAllBound | lib/walker.js:39-41 | a stack whose layers are all bound to the method is kept whole |
| Walker.WalkRoute | lib/walker.js:34-46 | a route yields exactly one descriptor per key of its method table |
| Walker.RouteDescriptors | lib/walker.js:34-46 | descriptor i carries the i-th method key and the route's path verbatim; its stack is the order-preserving selection of the route's layers bound to that method, containing every such layer and no other |
| Walker.WalkRouter | lib/walker.js:16-31 | the forEach over a router's stack, with its recursion on nested routers, yields `Flatten` of the stack: each layer's contribution concatenated in stack order |
| Walker.Walk | lib/walker.js:3-10 | an application with no router yields the empty sequence; otherwise it yields the walk of its router's stack |
| Walker.FlattenAppend | lib/walker.js:17-30 | walking a concatenation of stacks is concatenating their walks |
| Walker.BoundDispatchContributes | lib/walker.js:21-22 | a route layer contributes exactly its route's descriptors, at its place in the stack |
| Walker.RouterContributes | lib/walker.js:23-24 | a 'router' layer contributes exactly the walk of the nested router, at its place (pre-order) |
| Walker.MountedAppContributesNothing | lib/walker.js:25-27 | a mounted application contributes nothing, whatever it holds |
| Walker.OtherContributesNothing | lib/walker.js:19-28 | a layer of any other name contributes nothing |
| Walker.FlattenCount | lib/walker.js:19-45 | the number of descriptors is the total number of method keys over the routes reachable through nested routers |
| Walker.DescriptorsFromReachableRoutes | lib/walker.js:16-46 | every descriptor comes from a reachable route: its path, one of its method keys, and its stack filtered to that key |
| Walker.ReachableRoutesWalked | lib/walker.js:16-46 | every method key of every reachable route yields its descriptor |
| Translator.IsObject | lib/index.js:132-134 | `isObject` holds exactly of object values; `null` and functions are excluded |
| Translator.InNames | lib/index.js:160 | a name is among an object's keys exactly when some entry carries it |
| Translator.ChildProperties | lib/index.js:160-167 | the property keys are exactly the children's keys, and each property is the child's type and description |
| Translator.TranslateJoiSchema | lib/index.js:156-171 | for type 'object', properties are keyed by exactly the children's keys, each copying the child's type and description; for any other type, properties are empty |
| Translator.TranslationIsShallow | lib/index.js:156-171 | the translation reads children one level deep only: descriptions that agree on child keys, types and descriptions translate alike |
| Translator.ChildPropertiesShallow | lib/index.js:160-167 | children that agree on keys and one-level copies give equal properties |
| Strings.NormalizeAssetsPath | lib/index.js:31-33 | the result ends in '/', extends the input by at most that one character, and equals the input when the input already ends in '/' |
| Strings.NormalizeAssetsPathIdempotent | lib/index.js:31-33 | normalising twice is normalising once |
| Strings.ReplaceFirst | lib/index.js:107 | `String.replace` with a string pattern: only the first occurrence of the character is replaced; a string without it is unchanged |
| Assembler.OperationId | lib/index.js:107 | the id is the method, '_', then the path with its first '/' (only) turned into '_'; a path with no '/' is kept as is |
| Assembler.OperationIdLeadingSlash | lib/index.js:107 | for a path starting with '/', the id is the method, "__", then the rest of the path with its slashes kept |
| Strings.NatToDecimal | lib/index.js:145-147 | the decimal rendering of a model count is a non-empty digit string with no leading zero |
| Strings.DecimalRoundTrip | lib/index.js:145-147 | reading the decimal rendering back gives the number |
| Strings.NatToDecimalInjective | lib/index.js:145-147 | distinct counts render differently |
| Assembler.ModelNameInjective | lib/index.js:145-147 | distinct counts give distinct definition names `Model n` |
| Assembler.Render | lib/index.js:145-147 | the definitions object holds `Model n` for n = 1..N, mapped to the n-th definition added, and no other key |
| Assembler.RenderSnoc | lib/index.js:145-147 | adding a definition stores it under the key `Model <count+1>`, which was not taken before; every other key keeps its value |
| Assembler.RenderSize | lib/index.js:145 | the keyed object has as many keys as there are definitions, so `Object.keys(definitions).length + 1` is the sequence length plus one |
| Assembler.FieldInputs | lib/index.js:119-121 | only object-valued schema keys are processed, and every one of them is |
| Assembler.FieldInputsInOrder | lib/index.js:119-121 | the processed keys keep the order of `Object.keys(_schema)` |
| Assembler.FieldInputsCounts | lib/index.js:119-142 | each object-valued key is processed exactly as often as it occurs (once), and no other key is; so an entry gets one parameter per object-valued key |
| Assembler.ProcessSchema | lib/index.js:137-153 | a non-object value adds nothing; an object value adds one definition, its translation, under `Model <count+1>`, and appends one parameter named after the key and referring to `#/definitions/Model <count+1>` |
| Assembler.ProcessMiddleware | lib/index.js:112-122 | the eachMiddleware callback processes the object-valued keys of the handler's `_schema` in key order, and nothing when `_schema` is not an object |
| Assembler.AddModelsAppend | lib/index.js:112-122 | processing two lists of schema keys one after the other is processing their concatenation |
| Assembler.AddModelsClosed | lib/index.js:137-153 | processing N object-valued keys appends their N translations in order, and N parameters, the k-th named after the k-th key and referring to `Model <count+k>` |
| Assembler.BuildEntry | lib/index.js:104-122 | an entry has the fixed tags, summary and responses, its operation id, and the parameters of its stack's schemas in stack order, then key order |
| Assembler.SetPath | lib/index.js:124 | storing an entry sets `paths[path][method]` and leaves every other path and every other (path, method) entry unchanged |
| Assembler.Data | lib/index.js:80-129 | a fresh document with swagger "2.0" and no tags, equal to the assembly of the walk of the application |
| Assembler.DocumentedEntries | lib/index.js:94-125 | there is an entry at (path, method) exactly when the walk has such a descriptor and it is not a `get` at the JSON or documentation path; a non-`get` route at those paths is documented |
| Assembler.InDocumentedKeys | lib/index.js:99-102 | a (path, method) pair is documented exactly when some descriptor that is not a documentation route has it |
| Assembler.SetPathKeys | lib/index.js:124 | storing an entry adds its own (path, method) pair and no other |
| Assembler.AssembleEntryKeys | lib/index.js:94-125 | the (path, method) pairs with an entry are exactly those of the documented descriptors |
| Assembler.AssembleLastWriteWins | lib/index.js:94-125 | a documented descriptor with no later documented descriptor of the same path and method owns the entry there: fixed fields plus one parameter per object-valued schema key of its stack, numbered after the models of all earlier documented descriptors, overwritten ones included |
| Assembler.AssembleDefinitions | lib/index.js:94-125 | the definitions are the translations of all object-valued schema keys of the documented descriptors, in walk order; those of overwritten entries remain |
| Assembler.AssembleEntriesWellFormed | lib/index.js:104-124 | every stored entry has the fixed tags, summary and responses, its own operation id, and parameters whose location equals their name and whose `$ref` names one of the models created |
| Assembler.AssembleEntryCount | lib/index.js:94-125 | when no two documented descriptors share a path and method, there are as many entries as documented descriptors |
| Assembler.RenderTranslations | lib/index.js:145-147 | the rendered definitions are exactly `Model 1`..`Model N`, `Model k` holding the k-th translation |
| Assembler.RenderResolves | lib/index.js:148-152 | every `$ref` of a well-formed entry is `#/definitions/` followed by a key of the definitions object |
| Assembler.DocumentReferencesResolve | lib/index.js:80-153 | in the document sent, the definitions are exactly `Model 1`..`Model N`, `Model k` translating the k-th object-valued schema key, and every parameter's `$ref` resolves to one of them |
| Scenarios.EmptyApplication | test/walker.js:17-20 | an application without a router walks to the empty sequence |
| Scenarios.SingleVerbRoutes | test/walker.js:22-43 | routes registered for one method with one handler each yield one descriptor each, in order, each with a one-layer stack |
| Scenarios.AllMethods | test/walker.js:46-62 | a route registered for any list of distinct methods, one handler each, yields one descriptor per method in order, each keeping only its own handler |
| Scenarios.StackForBoundEach | lib/walker.js:39-41 | with one handler per distinct method, a method's stack is its own handler if it is registered, and empty otherwise |
| Scenarios.NestedRouters | test/walker.js:64-85 | behind middleware, a router holding two routes and a nested router yields the four descriptors depth first, the route with two handlers keeping both |
| Scenarios.MountedApplicationSkipped | test/walker.js:88-95 | an application that only mounts another application yields nothing |
| Scenarios.SingleRouteApplication | test/walker.js:92-96 | the mounted application, walked on its own, yields its route |
| Scenarios.JsonRouteSkipped | lib/index.js:83-102 | an application whose only route is `GET <jsonPath>` gets a document with swagger "2.0", no tags, no paths and no definitions |
| Scenarios.NonGetAtJsonPathDocumented | lib/index.js:99-102 | a route at the JSON path with a method other than `get` gets an entry |
| Scenarios.SingleContribution | lib/walker.js:34-46 | a route for one method whose handlers are all bound to it yields one descriptor with the whole stack |
| Scenarios.MiddlewareContributesNothing | lib/walker.js:19-28 | the middleware in front of an application's routes contributes nothing |

## Left out

- Option validation with Joi, defaulting, and the Express wiring in `register` (`app.use` of the static assets, `app.get` of the two handlers) are library calls and I/O. The model takes the resolved `documentationPath` and `jsonPath` as plain strings.
- `configureDocumentation` is left out: it renders a Handlebars template and sends HTML, which is I/O through a foreign renderer.
- `res.json`, `req.app` and `app._router` are Express internals. `Data` receives the routing table as the datatype `App` and returns the document instead of sending it.
- Joi's `describe()` is a foreign call. Its result is an input of type `Description`. The subset type `JoiDescription` requires an object description to carry its children, because `Object.keys(undefined)` would throw, and requires the child keys to be distinct, as the keys of an object are.
- A `_schema` value that is an object but not a Joi schema makes `describe()` throw. The model has no such value: every object-valued key carries a description.
- Assembler.SetPath models `lodash.set` as a literal two-level insert. `Data` therefore requires that the paths and methods of the routes it stores contain no '.', '[' or ']', which lodash would split on. The skipped documentation routes are exempt, so a `jsonPath` such as `/swagger.json` is allowed. Method names made only of digits, which lodash would turn into array indices, and lodash's guard against prototype keys are not modelled.
- Paths are strings. Express also accepts a regular expression or an array as a route path. `path.replace` at lib/index.js:107 would then throw, and the model has no such route.
- A plain middleware whose function is named `router` also gets the layer name `'router'`. `_walkRouter` then reads the `stack` of its handle, which is undefined, and throws. The same holds for a middleware that is a bound function named `dispatch` (as `app.use(ctrl.dispatch.bind(ctrl))` gives). It gets the layer name `'bound dispatch'` but no `layer.route`, so `_walkRoute(undefined)` throws when it reads `route.methods` (lib/walker.js:21-22, 35). The model's `Other` layer with either name contributes nothing instead. `Router` and `BoundDispatch` stand only for real nested routers and real routes.
- The order of keys in the JSON sent is not modelled. `res.json` writes `paths`, each path's methods and each definition's `properties` in insertion order, and `lodash.set` keeps a key's position when it overwrites it. The model's maps have no order, so it says nothing about the order of the keys in the output.
- `Object.keys` order is taken as given: the keys of a route's method table and of a `_schema` are sequences in that order.
- The definitions object is kept as the sequence of its values; `Render` gives the keyed form. This relies on the names being fresh, which `ModelNameInjective` proves.
- Strings.NatToDecimal renders only the natural numbers that a model count can be, not JavaScript's general number-to-string conversion.
- A route's handles in the walker are a type parameter; the walker never reads them, and `Data` instantiates them with `Handle`, which keeps only `_schema`.
