/**
  The route walker of lib/walker.js: it flattens an Express routing table into
  route descriptors `{method, path, stack}` by recursive descent (the field
  `method` is called `verb` here, `method` being a Dafny keyword). Router
  layers are told apart by their name only, which the closed datatype `Layer`
  records. The handles of a route's own stack are never inspected, so the
  walker is generic in their type `H`.
*/
module Walker {
  import opened Wrappers

  /** A layer of a route's own stack: the lower-case method it is bound to (none when it is bound to no method) and its handle. */
  datatype RouteLayer<H> = RouteLayer(verb: Option<string>, handle: H)

  /** A route: its path as registered, the keys of its method table in key order, and its stack. */
  datatype Route<H> = Route(path: string, methods: seq<string>, stack: seq<RouteLayer<H>>)

  /** A layer of a router's stack, by the layer's name. */
  datatype Layer<H> =
    | BoundDispatch(route: Route<H>)  // 'bound dispatch': a route
    | Router(stack: seq<Layer<H>>)    // 'router': a nested router, with its own stack
    | MountedApp(app: App<H>)         // 'mounted_app': another application mounted here
    | Other(name: string)             // any other name: plain middleware

  /** An application. Its router is created lazily, so it may not exist yet. */
  datatype App<H> = App(router: Option<seq<Layer<H>>>)

  /** What the walker yields for one method of one route. */
  datatype Descriptor<H> = Descriptor(verb: string, path: string, stack: seq<RouteLayer<H>>)

  /** The layers of `stack` bound to `verb`, in their original order: the strict equality `layer.method === method`, so a layer bound to no method is kept by no verb. */
  function StackFor<H>(stack: seq<RouteLayer<H>>, verb: string): (r: seq<RouteLayer<H>>)
    ensures |r| <= |stack|
    ensures forall layer :: layer in r ==> layer in stack && layer.verb == Some(verb)
  {
    if stack == [] then []
    else if stack[0].verb == Some(verb) then [stack[0]] + StackFor(stack[1..], verb)
    else StackFor(stack[1..], verb)
  }

  /** A stack whose layers are all bound to `verb` is kept whole. */
  lemma {:induction false} StackForAllBound<H>(stack: seq<RouteLayer<H>>, verb: string)
    requires forall i :: 0 <= i < |stack| ==> stack[i].verb == Some(verb)
    ensures StackFor(stack, verb) == stack
  {
    if stack != [] {
      StackForAllBound(stack[1..], verb);
    }
  }

  /** `a` is an order-preserving subsequence of `b`. */
  predicate IsSubsequence<T(==)>(a: seq<T>, b: seq<T>) {
    if a == [] then true
    else if b == [] then false
    else if a[0] == b[0] then IsSubsequence(a[1..], b[1..])
    else IsSubsequence(a, b[1..])
  }

  /** Appending an element to the longer sequence keeps a subsequence. */
  lemma {:induction false} SubsequenceExtend<T>(a: seq<T>, b: seq<T>, x: T)
    requires IsSubsequence(a, b)
    ensures IsSubsequence(a, b + [x])
    decreases |b|
  {
    if a != [] {
      assert (b + [x])[1..] == b[1..] + [x];
      if a[0] == b[0] {
        SubsequenceExtend(a[1..], b[1..], x);
      } else {
        SubsequenceExtend(a, b[1..], x);
      }
    }
  }

  /** Appending the same element to both sequences keeps a subsequence. */
  lemma {:induction false} SubsequenceSnoc<T>(a: seq<T>, b: seq<T>, x: T)
    requires IsSubsequence(a, b)
    ensures IsSubsequence(a + [x], b + [x])
    decreases |b|
  {
    if b != [] {
      assert (b + [x])[1..] == b[1..] + [x];
      if a == [] {
        assert a + [x] == [x] && [x][1..] == [];
        if b[0] != x {
          SubsequenceSnoc(a, b[1..], x);
        }
      } else {
        assert (a + [x])[0] == a[0] && (a + [x])[1..] == a[1..] + [x];
        if a[0] == b[0] {
          SubsequenceSnoc(a[1..], b[1..], x);
        } else {
          SubsequenceSnoc(a, b[1..], x);
        }
      }
    } else {
      assert a == [];
      assert a + [x] == [x] && [x][1..] == [];
    }
  }

  /** A route's stack for one method keeps the stack's order. */
  lemma {:induction false} StackForIsSubsequence<H>(stack: seq<RouteLayer<H>>, verb: string)
    ensures IsSubsequence(StackFor(stack, verb), stack)
  {
    if stack != [] {
      StackForIsSubsequence(stack[1..], verb);
      var r := StackFor(stack, verb);
      if stack[0].verb == Some(verb) {
        assert r[1..] == StackFor(stack[1..], verb);
      } else if r != [] {
        assert r[0] in r;
      }
    }
  }

  /** A route's stack for one method holds every layer bound to that method, as often as the route's stack does, and no other layer. */
  lemma {:induction false} StackForCounts<H>(stack: seq<RouteLayer<H>>, verb: string, layer: RouteLayer<H>)
    ensures multiset(StackFor(stack, verb))[layer] ==
      if layer.verb == Some(verb) then multiset(stack)[layer] else 0
  {
    if stack != [] {
      StackForCounts(stack[1..], verb, layer);
      assert stack == [stack[0]] + stack[1..];
    }
  }

  /** `_walkRoute`: one descriptor per key of the route's method table, in key order. */
  function WalkRoute<H>(route: Route<H>): (r: seq<Descriptor<H>>)
    ensures |r| == |route.methods|
  {
    seq(|route.methods|, i requires 0 <= i < |route.methods| =>
      Descriptor(route.methods[i], route.path, StackFor(route.stack, route.methods[i])))
  }

  /**
    What walking a route yields: descriptor `i` carries the `i`-th method key,
    the route's path verbatim, and the order-preserving selection of the
    route's layers bound to that verb.
  */
  lemma RouteDescriptors<H>(route: Route<H>, i: nat)
    requires i < |route.methods|
    ensures var d := WalkRoute(route)[i];
      && d.verb == route.methods[i]
      && d.path == route.path
      && IsSubsequence(d.stack, route.stack)
      && (forall layer :: layer in d.stack ==> layer.verb == Some(d.verb))
      && (forall layer :: layer in route.stack && layer.verb == Some(d.verb) ==> layer in d.stack)
  {
    var d := WalkRoute(route)[i];
    StackForIsSubsequence(route.stack, d.verb);
    forall layer | layer in route.stack && layer.verb == Some(d.verb)
      ensures layer in d.stack
    {
      StackForCounts(route.stack, d.verb, layer);
    }
  }

  /**
    The descriptors of a router's stack: the concatenation, in stack order, of
    what each layer contributes. A route contributes its descriptors, a nested
    router the descriptors of its own stack, anything else nothing.
  */
  function Flatten<H>(stack: seq<Layer<H>>): seq<Descriptor<H>>
    decreases stack
  {
    if stack == [] then [] else Flatten(stack[..|stack| - 1]) + Contribution(stack[|stack| - 1])
  }

  /** What one layer of a router's stack contributes to the walk. */
  function Contribution<H>(layer: Layer<H>): seq<Descriptor<H>>
    decreases layer
  {
    match layer
    case BoundDispatch(route) => WalkRoute(route)
    case Router(nested) => Flatten(nested)
    case MountedApp(_) => []
    case Other(_) => []
  }

  /** What `walk` yields for an application. */
  function Walked<H>(app: App<H>): seq<Descriptor<H>> {
    match app.router
    case None => []
    case Some(stack) => Flatten(stack)
  }

  /** `_walkRouter`: the `forEach` over the router's stack, concatenating each layer's contribution. */
  method WalkRouter<H>(stack: seq<Layer<H>>) returns (routes: seq<Descriptor<H>>)
    ensures routes == Flatten(stack)
    decreases stack
  {
    routes := [];
    for i := 0 to |stack|
      invariant routes == Flatten(stack[..i])
    {
      assert stack[..i + 1][..i] == stack[..i];
      match stack[i] {
        case BoundDispatch(route) =>
          routes := routes + WalkRoute(route);
        case Router(nested) =>
          var inner := WalkRouter(nested);
          routes := routes + inner;
        case MountedApp(_) =>
        case Other(_) =>
      }
    }
    assert stack[..|stack|] == stack;
  }

  /** `walk`: nothing for an application whose router was never created, otherwise the walk of its router. */
  method Walk<H>(app: App<H>) returns (routes: seq<Descriptor<H>>)
    ensures app.router == None ==> routes == []
    ensures app.router != None ==> routes == Flatten(app.router.value)
    ensures routes == Walked(app)
  {
    if app.router == None {
      return [];
    }
    routes := WalkRouter(app.router.value);
  }

  /** Walking two stacks one after the other is walking their concatenation. */
  lemma {:induction false} FlattenAppend<H>(a: seq<Layer<H>>, b: seq<Layer<H>>)
    ensures Flatten(a + b) == Flatten(a) + Flatten(b)
    decreases |b|
  {
    if b == [] {
      assert a + b == a;
    } else {
      var n := |b| - 1;
      var init, last := b[..n], b[n];
      assert b == init + [last];
      assert a + b == (a + init) + [last];
      FlattenAppend(a, init);
      FlattenSnoc(a + init, last);
      FlattenSnoc(init, last);
    }
  }

  lemma FlattenSnoc<H>(stack: seq<Layer<H>>, layer: Layer<H>)
    ensures Flatten(stack + [layer]) == Flatten(stack) + Contribution(layer)
  {
    assert (stack + [layer])[..|stack|] == stack;
  }

  /** A route layer contributes exactly its route's descriptors, in place. */
  lemma BoundDispatchContributes<H>(before: seq<Layer<H>>, route: Route<H>, after: seq<Layer<H>>)
    ensures Flatten(before + [BoundDispatch(route)] + after) == Flatten(before) + WalkRoute(route) + Flatten(after)
  {
    FlattenAppend(before + [BoundDispatch(route)], after);
    FlattenAppend(before, [BoundDispatch(route)]);
  }

  /** A 'router' layer contributes exactly the walk of the nested router, in place (pre-order). */
  lemma RouterContributes<H>(before: seq<Layer<H>>, nested: seq<Layer<H>>, after: seq<Layer<H>>)
    ensures Flatten(before + [Router(nested)] + after) == Flatten(before) + Flatten(nested) + Flatten(after)
  {
    FlattenAppend(before + [Router(nested)], after);
    FlattenAppend(before, [Router(nested)]);
  }

  /** A mounted application contributes nothing, whatever routes it holds. */
  lemma MountedAppContributesNothing<H>(before: seq<Layer<H>>, app: App<H>, after: seq<Layer<H>>)
    ensures Flatten(before + [MountedApp(app)] + after) == Flatten(before + after)
  {
    FlattenAppend(before + [MountedApp(app)], after);
    FlattenAppend(before, [MountedApp(app)]);
    FlattenAppend(before, after);
  }

  /** A layer of any other name contributes nothing. */
  lemma OtherContributesNothing<H>(before: seq<Layer<H>>, name: string, after: seq<Layer<H>>)
    ensures Flatten(before + [Other(name)] + after) == Flatten(before + after)
  {
    FlattenAppend(before + [Other(name)], after);
    FlattenAppend(before, [Other(name)]);
    FlattenAppend(before, after);
  }

  /** The routes reachable from a stack through nested routers, in pre-order; mounted applications are not entered. */
  function ReachableRoutes<H>(stack: seq<Layer<H>>): seq<Route<H>>
    decreases stack
  {
    if stack == [] then [] else ReachableRoutes(stack[..|stack| - 1]) + LayerRoutes(stack[|stack| - 1])
  }

  /** The routes reachable from one layer. */
  function LayerRoutes<H>(layer: Layer<H>): seq<Route<H>>
    decreases layer
  {
    match layer
    case BoundDispatch(route) => [route]
    case Router(nested) => ReachableRoutes(nested)
    case MountedApp(_) => []
    case Other(_) => []
  }

  /** The number of method keys over a list of routes. */
  function MethodCount<H>(routes: seq<Route<H>>): nat {
    if routes == [] then 0 else MethodCount(routes[..|routes| - 1]) + |routes[|routes| - 1].methods|
  }

  lemma {:induction false} MethodCountAppend<H>(a: seq<Route<H>>, b: seq<Route<H>>)
    ensures MethodCount(a + b) == MethodCount(a) + MethodCount(b)
    decreases |b|
  {
    if b == [] {
      assert a + b == a;
    } else {
      assert (a + b)[..|a + b| - 1] == a + b[..|b| - 1];
      MethodCountAppend(a, b[..|b| - 1]);
    }
  }

  /** The walk yields one descriptor per method key of every reachable route. */
  lemma {:induction false} FlattenCount<H>(stack: seq<Layer<H>>)
    ensures |Flatten(stack)| == MethodCount(ReachableRoutes(stack))
    decreases stack
  {
    if stack != [] {
      var init, last := stack[..|stack| - 1], stack[|stack| - 1];
      FlattenCount(init);
      MethodCountAppend(ReachableRoutes(init), LayerRoutes(last));
      match last {
        case BoundDispatch(route) =>
          assert [route][..0] == [];
        case Router(nested) =>
          FlattenCount(nested);
        case MountedApp(_) =>
        case Other(_) =>
      }
    }
  }

  /** Every descriptor comes from a reachable route: its path, one of its method keys, and its stack for that method. */
  lemma {:induction false} DescriptorsFromReachableRoutes<H>(stack: seq<Layer<H>>, d: Descriptor<H>)
    requires d in Flatten(stack)
    ensures exists route :: (route in ReachableRoutes(stack) &&
      d.path == route.path && d.verb in route.methods && d.stack == StackFor(route.stack, d.verb))
    decreases stack
  {
    var init, last := stack[..|stack| - 1], stack[|stack| - 1];
    if d in Flatten(init) {
      DescriptorsFromReachableRoutes(init, d);
      var route :| route in ReachableRoutes(init) &&
        d.path == route.path && d.verb in route.methods && d.stack == StackFor(route.stack, d.verb);
      assert route in ReachableRoutes(stack);
    } else {
      match last {
        case BoundDispatch(route) =>
          var i :| 0 <= i < |WalkRoute(route)| && WalkRoute(route)[i] == d;
          assert route in ReachableRoutes(stack);
          assert route.methods[i] in route.methods;
        case Router(nested) =>
          DescriptorsFromReachableRoutes(nested, d);
          var route :| route in ReachableRoutes(nested) &&
            d.path == route.path && d.verb in route.methods && d.stack == StackFor(route.stack, d.verb);
          assert route in ReachableRoutes(stack);
      }
    }
  }

  /** Every method key of every reachable route yields its descriptor. */
  lemma {:induction false} ReachableRoutesWalked<H>(stack: seq<Layer<H>>, route: Route<H>, verb: string)
    requires route in ReachableRoutes(stack) && verb in route.methods
    ensures Descriptor(verb, route.path, StackFor(route.stack, verb)) in Flatten(stack)
    decreases stack
  {
    var init, last := stack[..|stack| - 1], stack[|stack| - 1];
    if route in ReachableRoutes(init) {
      ReachableRoutesWalked(init, route, verb);
    } else {
      match last {
        case BoundDispatch(r) =>
          var i :| 0 <= i < |route.methods| && route.methods[i] == verb;
          assert WalkRoute(route)[i] in WalkRoute(route);
        case Router(nested) =>
          ReachableRoutesWalked(nested, route, verb);
      }
    }
  }
}
