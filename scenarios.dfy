/**
  Concrete routing tables of the shapes exercised in test/walker.js, and what
  the walker and the handler make of them. In the walker scenarios handles are
  plain numbers, since the walker never looks at them.
*/
module Scenarios {
  import opened Wrappers
  import opened Walker
  import opened Assembler

  /** A layer of a route's stack bound to `verb`. */
  function Bound(verb: string): RouteLayer<nat> {
    RouteLayer(Some(verb), 0)
  }

  /** A route registered for the one method `verb`, with the given stack. */
  function Single(verb: string, path: string, stack: seq<RouteLayer<nat>>): Layer<nat> {
    BoundDispatch(Route(path, [verb], stack))
  }

  /** A route for one method whose handlers are all bound to it yields one descriptor with the whole stack. */
  lemma SingleContribution(verb: string, path: string, stack: seq<RouteLayer<nat>>)
    requires forall i :: 0 <= i < |stack| ==> stack[i].verb == Some(verb)
    ensures Contribution(Single(verb, path, stack)) == [Descriptor(verb, path, stack)]
  {
    StackForAllBound(stack, verb);
  }

  lemma FlattenPair(x: Layer<nat>, y: Layer<nat>)
    ensures Flatten([x, y]) == Contribution(x) + Contribution(y)
  {
    FlattenSnoc([], x);
    FlattenSnoc([x], y);
    assert [] + [x] == [x] && [x] + [y] == [x, y];
  }

  lemma FlattenTriple(x: Layer<nat>, y: Layer<nat>, z: Layer<nat>)
    ensures Flatten([x, y, z]) == Contribution(x) + Contribution(y) + Contribution(z)
  {
    FlattenPair(x, y);
    FlattenSnoc([x, y], z);
    assert [x, y] + [z] == [x, y, z];
  }

  /**
    The middleware Express puts in front of every application router (named
    'query' and 'expressInit', say) contributes nothing, so an application
    walks as the layers after it.
  */
  lemma MiddlewareContributesNothing(m1: string, m2: string, rest: seq<Layer<nat>>)
    ensures Flatten([Other(m1), Other(m2)] + rest) == Flatten(rest)
  {
    FlattenPair(Other(m1), Other(m2));
    FlattenAppend([Other(m1), Other(m2)], rest);
  }

  /** An application whose router was never created yields no descriptors. */
  lemma EmptyApplication()
    ensures Walked<nat>(App(None)) == []
  {
  }

  /**
    Nested routers are walked depth first: behind two middleware layers, a
    router holding routes `a` and `ab` and a nested router holding `abc` (two
    handlers) and `b` yields the four descriptors in that order, `abc`
    keeping both handlers.
  */
  lemma NestedRouters(m1: string, m2: string, get: string, post: string, a: string, ab: string, abc: string, b: string)
    ensures var nested := Router([Single(get, abc, [Bound(get), Bound(get)]), Single(post, b, [Bound(post)])]);
      var router := Router([Single(get, a, [Bound(get)]), Single(get, ab, [Bound(get)]), nested]);
      Walked(App(Some([Other(m1), Other(m2), router]))) == [
        Descriptor(get, a, [Bound(get)]),
        Descriptor(get, ab, [Bound(get)]),
        Descriptor(get, abc, [Bound(get), Bound(get)]),
        Descriptor(post, b, [Bound(post)])]
  {
    var nested := Router([Single(get, abc, [Bound(get), Bound(get)]), Single(post, b, [Bound(post)])]);
    var router := Router([Single(get, a, [Bound(get)]), Single(get, ab, [Bound(get)]), nested]);
    NestedRouterContribution(get, post, abc, b);
    OuterRouterContribution(get, a, ab, nested);
    MiddlewareContributesNothing(m1, m2, [router]);
    FlattenSnoc([], router);
    assert [] + [router] == [router] && [Other(m1), Other(m2)] + [router] == [Other(m1), Other(m2), router];
  }

  lemma NestedRouterContribution(get: string, post: string, abc: string, b: string)
    ensures Contribution(Router([Single(get, abc, [Bound(get), Bound(get)]), Single(post, b, [Bound(post)])])) ==
      [Descriptor(get, abc, [Bound(get), Bound(get)]), Descriptor(post, b, [Bound(post)])]
  {
    SingleContribution(get, abc, [Bound(get), Bound(get)]);
    SingleContribution(post, b, [Bound(post)]);
    FlattenPair(Single(get, abc, [Bound(get), Bound(get)]), Single(post, b, [Bound(post)]));
  }

  lemma OuterRouterContribution(get: string, a: string, ab: string, nested: Layer<nat>)
    ensures Contribution(Router([Single(get, a, [Bound(get)]), Single(get, ab, [Bound(get)]), nested])) ==
      [Descriptor(get, a, [Bound(get)]), Descriptor(get, ab, [Bound(get)])] + Contribution(nested)
  {
    SingleContribution(get, a, [Bound(get)]);
    SingleContribution(get, ab, [Bound(get)]);
    FlattenTriple(Single(get, a, [Bound(get)]), Single(get, ab, [Bound(get)]), nested);
  }

  /** A mounted application is passed over: an application holding only middleware and a mounted application yields nothing. */
  lemma MountedApplicationSkipped(m1: string, m2: string, nested: App<nat>)
    ensures Walked(App(Some([Other(m1), Other(m2), MountedApp(nested)]))) == []
  {
    MiddlewareContributesNothing(m1, m2, [MountedApp(nested)]);
    FlattenSnoc([], MountedApp(nested));
    assert [] + [MountedApp(nested)] == [MountedApp(nested)];
    assert [Other(m1), Other(m2)] + [MountedApp(nested)] == [Other(m1), Other(m2), MountedApp(nested)];
  }

  /** The application that is mounted, walked on its own, yields its route. */
  lemma SingleRouteApplication(m1: string, m2: string, get: string, e: string)
    ensures Walked(App(Some([Other(m1), Other(m2), Single(get, e, [Bound(get)])]))) == [Descriptor(get, e, [Bound(get)])]
  {
    var xe := Single(get, e, [Bound(get)]);
    SingleContribution(get, e, [Bound(get)]);
    MiddlewareContributesNothing(m1, m2, [xe]);
    FlattenSnoc([], xe);
    assert [] + [xe] == [xe];
    assert [Other(m1), Other(m2)] + [xe] == [Other(m1), Other(m2), xe];
  }

  /** One route per (method, path) pair, each with a single handler bound to its method. */
  function SingleVerbLayers(registrations: seq<(string, string)>): (stack: seq<Layer<nat>>)
    ensures |stack| == |registrations|
  {
    seq(|registrations|, i requires 0 <= i < |registrations| =>
      Single(registrations[i].0, registrations[i].1, [Bound(registrations[i].0)]))
  }

  /**
    Routes each registered for one method with one handler (as `get`, `post`,
    `put` and `delete` do) yield one descriptor each, in registration order,
    each with a stack of one layer.
  */
  lemma {:induction false} SingleVerbRoutes(registrations: seq<(string, string)>)
    ensures var walked := Flatten(SingleVerbLayers(registrations));
      && |walked| == |registrations|
      && forall i :: 0 <= i < |registrations| ==>
           walked[i] == Descriptor(registrations[i].0, registrations[i].1, [Bound(registrations[i].0)])
    decreases |registrations|
  {
    if registrations != [] {
      var n := |registrations| - 1;
      var init, last := registrations[..n], registrations[n];
      SingleVerbRoutes(init);
      assert SingleVerbLayers(registrations) == SingleVerbLayers(init) + [Single(last.0, last.1, [Bound(last.0)])];
      FlattenSnoc(SingleVerbLayers(init), Single(last.0, last.1, [Bound(last.0)]));
      SingleContribution(last.0, last.1, [Bound(last.0)]);
    }
  }

  /** No method occurs twice. */
  predicate DistinctVerbs(verbs: seq<string>) {
    forall i, j :: 0 <= i < j < |verbs| ==> verbs[i] != verbs[j]
  }

  /** One handler bound to each of the given methods, in order, as `route.all` registers them. */
  function BoundEach(verbs: seq<string>): (stack: seq<RouteLayer<nat>>)
    ensures |stack| == |verbs|
  {
    seq(|verbs|, i requires 0 <= i < |verbs| => Bound(verbs[i]))
  }

  /** With distinct methods, the stack for a method is its own handler if it is one of them, and empty otherwise. */
  lemma {:induction false} StackForBoundEach(verbs: seq<string>, verb: string)
    requires DistinctVerbs(verbs)
    ensures StackFor(BoundEach(verbs), verb) == if verb in verbs then [Bound(verb)] else []
    decreases |verbs|
  {
    if verbs != [] {
      var rest := verbs[1..];
      assert BoundEach(verbs)[1..] == BoundEach(rest);
      assert verbs == [verbs[0]] + rest;
      StackForBoundEach(rest, verb);
      assert forall k :: 0 <= k < |rest| ==> rest[k] == verbs[k + 1] != verbs[0];
    }
  }

  /**
    A route registered for several distinct methods with one handler each (as
    `all` does for every method Express knows) yields one descriptor per
    method, in order, each with its own handler only.
  */
  lemma AllMethods(path: string, verbs: seq<string>)
    requires DistinctVerbs(verbs)
    ensures var walked := WalkRoute(Route(path, verbs, BoundEach(verbs)));
      && |walked| == |verbs|
      && forall i :: 0 <= i < |verbs| ==> walked[i] == Descriptor(verbs[i], path, [Bound(verbs[i])])
  {
    forall i | 0 <= i < |verbs|
      ensures StackFor(BoundEach(verbs), verbs[i]) == [Bound(verbs[i])]
    {
      StackForBoundEach(verbs, verbs[i]);
    }
  }

  /**
    The handler passes over its own JSON route: an application whose only
    route is `GET <jsonPath>` gets a document with no paths and no definitions,
    whatever schemas that route's handlers carry.
  */
  lemma JsonRouteSkipped(options: Options, stack: seq<RouteLayer<Handle>>)
    ensures var doc := AssembleDocument([Descriptor("get", options.jsonPath, stack)], options);
      doc.swagger == "2.0" && doc.tags == [] && doc.paths == map[] && doc.definitions == map[]
  {
    var routes := [Descriptor("get", options.jsonPath, stack)];
    assert routes[..0] == [];
    assert Assemble(routes, options) == (map[], []);
    var named := Render([]);
    assert forall name :: name !in named;
  }

  /** A route other than `get` at the JSON path is documented, under its own path and method. */
  lemma NonGetAtJsonPathDocumented(options: Options, verb: string, stack: seq<RouteLayer<Handle>>)
    requires verb != "get"
    ensures var paths := AssembleDocument([Descriptor(verb, options.jsonPath, stack)], options).paths;
      options.jsonPath in paths && verb in paths[options.jsonPath]
  {
    var routes := [Descriptor(verb, options.jsonPath, stack)];
    DocumentedEntries(routes, options, options.jsonPath, verb);
    assert routes[0].path == options.jsonPath && routes[0].verb == verb;
  }
}
