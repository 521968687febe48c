/**
  The schema side of lib/index.js: the `isObject` test, and `translateJoiSchema`,
  which turns what a Joi schema's `describe()` returns into the `properties` of
  a Swagger definition, one level deep.
*/
module Translator {
  import opened Wrappers

  /**
    A JavaScript value, as far as the model needs it: the kinds `typeof` tells
    apart, and for objects a payload `T` describing the object.
  */
  datatype Value<T> =
    | Undefined
    | Null
    | Boolean
    | Number
    | BigInt
    | String
    | Symbol
    | Function
    | Object(obj: T)

  /** The `typeof` operator; note that `typeof null` is "object". */
  function TypeOf<T>(v: Value<T>): string {
    match v
    case Undefined => "undefined"
    case Null => "object"
    case Boolean => "boolean"
    case Number => "number"
    case BigInt => "bigint"
    case String => "string"
    case Symbol => "symbol"
    case Function => "function"
    case Object(_) => "object"
  }

  /** `isObject`: `typeof obj === 'object' && obj !== null` holds exactly of objects (functions and `null` excluded). */
  function IsObject<T>(v: Value<T>): (b: bool)
    ensures b <==> v.Object?
  {
    TypeOf(v) == "object" && !v.Null?
  }

  /** The key names of a list of key/value pairs (an object's `Object.keys`, in order). */
  function Names<T>(entries: seq<(string, T)>): set<string> {
    if entries == [] then {} else Names(entries[..|entries| - 1]) + {entries[|entries| - 1].0}
  }

  /** A name is among the keys exactly when some entry carries it. */
  lemma {:induction false} InNames<T>(entries: seq<(string, T)>, name: string)
    ensures name in Names(entries) <==> exists i :: 0 <= i < |entries| && entries[i].0 == name
    decreases |entries|
  {
    if entries != [] {
      var n := |entries| - 1;
      InNames(entries[..n], name);
      if name in Names(entries[..n]) {
        var i :| 0 <= i < n && entries[..n][i].0 == name;
        assert entries[i] == entries[..n][i];
      }
      if exists i :: 0 <= i < n && entries[i].0 == name {
        var i :| 0 <= i < n && entries[i].0 == name;
        assert entries[..n][i] == entries[i];
      }
    }
  }

  /** No key occurs twice, as in the keys of any JavaScript object. */
  predicate DistinctNames<T>(entries: seq<(string, T)>) {
    forall i, j :: 0 <= i < j < |entries| ==> entries[i].0 != entries[j].0
  }

  /**
    What `describe()` returns for a Joi schema, as far as the translator reads
    it: the `type`, the optional `description`, and the optional `children`
    (the keys of an object schema, each with its own description, in key
    order). The field `type` is called `kind` here.
  */
  datatype Description = Description(kind: string, description: Option<string>, children: Option<seq<(string, Description)>>)

  /**
    A description the translator can handle: an object description carries its
    children (for one without, `Object.keys(undefined)` throws), and child keys
    are distinct.
  */
  predicate Translatable(d: Description) {
    d.kind == "object" ==> d.children.Some? && DistinctNames(d.children.value)
  }

  type JoiDescription = d: Description | Translatable(d) witness Description("any", None, None)

  /** One translated property: the child's `type` and `description`, nothing deeper. */
  datatype Property = Property(kind: string, description: Option<string>)

  /** A Swagger definition: `{properties}`. */
  datatype Model = Model(properties: map<string, Property>)

  /** The one-level copy of a child description. */
  function Shallow(child: Description): Property {
    Property(child.kind, child.description)
  }

  /** The `forEach` over the children: each child key maps to its shallow copy. */
  function ChildProperties(children: seq<(string, Description)>): (props: map<string, Property>)
    requires DistinctNames(children)
    ensures props.Keys == Names(children)
    ensures forall i :: 0 <= i < |children| ==> children[i].0 in props && props[children[i].0] == Shallow(children[i].1)
  {
    if children == [] then map[]
    else
      var n := |children| - 1;
      var init := children[..n];
      assert forall i :: 0 <= i < n ==> init[i] == children[i];
      var props := ChildProperties(init);
      props[children[n].0 := Shallow(children[n].1)]
  }

  /**
    `translateJoiSchema`: for an object description, one property per child key,
    carrying the child's type and description; for any other type, no
    properties at all.
  */
  function TranslateJoiSchema(d: JoiDescription): (m: Model)
    ensures d.kind == "object" ==> m.properties.Keys == Names(d.children.value)
    ensures d.kind == "object" ==> forall i :: 0 <= i < |d.children.value| ==>
      d.children.value[i].0 in m.properties &&
      m.properties[d.children.value[i].0] == Property(d.children.value[i].1.kind, d.children.value[i].1.description)
    ensures d.kind != "object" ==> m.properties == map[]
  {
    if d.kind == "object" then Model(ChildProperties(d.children.value)) else Model(map[])
  }

  /**
    The translation is shallow: a child's own children never reach the
    definition, so two descriptions that differ only below their children
    translate alike.
  */
  lemma TranslationIsShallow(d: JoiDescription, e: JoiDescription)
    requires d.kind == e.kind == "object"
    requires |d.children.value| == |e.children.value|
    requires forall i :: 0 <= i < |d.children.value| ==>
      d.children.value[i].0 == e.children.value[i].0 &&
      d.children.value[i].1.kind == e.children.value[i].1.kind &&
      d.children.value[i].1.description == e.children.value[i].1.description
    ensures TranslateJoiSchema(d) == TranslateJoiSchema(e)
  {
    ChildPropertiesShallow(d.children.value, e.children.value);
  }

  /** Children that agree on names and shallow copies give the same properties. */
  lemma {:induction false} ChildPropertiesShallow(xs: seq<(string, Description)>, ys: seq<(string, Description)>)
    requires DistinctNames(xs) && DistinctNames(ys) && |xs| == |ys|
    requires forall i :: 0 <= i < |xs| ==> xs[i].0 == ys[i].0 && Shallow(xs[i].1) == Shallow(ys[i].1)
    ensures ChildProperties(xs) == ChildProperties(ys)
    decreases |xs|
  {
    if xs != [] {
      var n := |xs| - 1;
      assert forall i :: 0 <= i < n ==> xs[..n][i] == xs[i] && ys[..n][i] == ys[i];
      ChildPropertiesShallow(xs[..n], ys[..n]);
    }
  }
}
