/**
 * `utl::json::Node` of src/utl/json.hpp and its accessors in
 * src/utl/json.cpp. A node is one of seven alternatives; objects map keys to
 * nodes in ascending key order (a `std::map`), arrays are sequences.
 * Integral and floating payloads are plain numbers.
 */
module JsonNode {
  import opened Wrappers

  datatype Node =
    | Null
    | Object(fields: map<string, Node>)
    | Array(items: seq<Node>)
    | String(str: string)
    | Integral(integral: int)
    | Floating(floating: real)
    | Bool(boolean: bool)

  /**
   * `Node::type()`: the index of the alternative in the variant, in the
   * order of `NodeType` (null 0, object 1, array 2, string 3, integral 4,
   * floating 5, bool 6).
   */
  function TypeIndex(n: Node): (t: nat)
    ensures t < 7
  {
    match n
    case Null => 0
    case Object(_) => 1
    case Array(_) => 2
    case String(_) => 3
    case Integral(_) => 4
    case Floating(_) => 5
    case Bool(_) => 6
  }

  /** Two nodes have the same type index exactly when they are the same alternative. */
  lemma TypeIndexIdentifiesAlternative(a: Node, b: Node)
    ensures TypeIndex(a) == TypeIndex(b) <==>
              (a.Null? && b.Null?) || (a.Object? && b.Object?) || (a.Array? && b.Array?) ||
              (a.String? && b.String?) || (a.Integral? && b.Integral?) ||
              (a.Floating? && b.Floating?) || (a.Bool? && b.Bool?)
  {
  }

  /** A default-constructed node: the first alternative of the variant. */
  const DefaultNode: Node := Null

  lemma DefaultIsNull()
    ensures TypeIndex(DefaultNode) == 0 && DefaultNode.Null?
  {
  }

  // ------------------------------------------------------------ getters
  // `as_*` is `std::get`, which throws `bad_variant_access` on another
  // alternative; each getter gives back exactly the payload it was built from.

  function AsObject(n: Node): (r: Result<map<string, Node>>)
    ensures r.Ok? <==> n.Object?
    ensures r.Ok? ==> Object(r.value) == n
  {
    if n.Object? then Ok(n.fields) else Err("bad_variant_access")
  }

  function AsArray(n: Node): (r: Result<seq<Node>>)
    ensures r.Ok? <==> n.Array?
    ensures r.Ok? ==> Array(r.value) == n
  {
    if n.Array? then Ok(n.items) else Err("bad_variant_access")
  }

  function AsString(n: Node): (r: Result<string>)
    ensures r.Ok? <==> n.String?
    ensures r.Ok? ==> String(r.value) == n
  {
    if n.String? then Ok(n.str) else Err("bad_variant_access")
  }

  function AsIntegral(n: Node): (r: Result<int>)
    ensures r.Ok? <==> n.Integral?
    ensures r.Ok? ==> Integral(r.value) == n
  {
    if n.Integral? then Ok(n.integral) else Err("bad_variant_access")
  }

  function AsFloating(n: Node): (r: Result<real>)
    ensures r.Ok? <==> n.Floating?
    ensures r.Ok? ==> Floating(r.value) == n
  {
    if n.Floating? then Ok(n.floating) else Err("bad_variant_access")
  }

  function AsBool(n: Node): (r: Result<bool>)
    ensures r.Ok? <==> n.Bool?
    ensures r.Ok? ==> Bool(r.value) == n
  {
    if n.Bool? then Ok(n.boolean) else Err("bad_variant_access")
  }

  // ------------------------------------------------------------ object methods

  /** `contains(key)`: on a non-object the `as_object` inside throws. */
  function Contains(n: Node, key: string): (r: Result<bool>)
    ensures r.Ok? <==> n.Object?
    ensures r.Ok? ==> (r.value <==> key in n.fields)
  {
    var fields :- AsObject(n);
    Ok(key in fields)
  }

  /** Const `operator[](key)` and `at(key)`: a missing key throws. */
  function At(n: Node, key: string): (r: Result<Node>)
    ensures r.Ok? <==> n.Object? && key in n.fields
    ensures r.Ok? ==> r.value == n.fields[key]
  {
    var fields :- AsObject(n);
    if key in fields then Ok(fields[key])
    else Err("Accessing non-existent key {" + key + "} in JSON object.")
  }

  /**
   * Non-const `operator[](key)`: a null node first becomes an empty object,
   * a missing key is inserted with a null child; the result is the updated
   * node and the child the returned reference designates.
   */
  function Index(n: Node, key: string): (r: Result<(Node, Node)>)
    ensures r.Ok? <==> n.Null? || n.Object?
    ensures r.Ok? ==> r.value.0.Object? && key in r.value.0.fields && r.value.0.fields[key] == r.value.1
    ensures r.Ok? && n.Object? && key in n.fields ==> r.value.0 == n
    ensures r.Ok? && n.Object? && key !in n.fields ==> r.value.0.fields == n.fields[key := Null]
    ensures r.Ok? && n.Null? ==> r.value.0.fields == map[key := Null]
  {
    var fields :- if n.Null? then Ok(map[]) else AsObject(n);
    if key in fields then Ok((Object(fields), fields[key]))
    else Ok((Object(fields[key := Null]), Null))
  }

  /**
   * `value_or<T>(key, else_value)`: the stored value when the key exists
   * (which must then hold the alternative `T`, whose index is `kind`), the
   * fallback otherwise. The node itself is not touched.
   */
  function ValueOr(n: Node, key: string, kind: nat, elseValue: Node): (r: Result<Node>)
    requires TypeIndex(elseValue) == kind
    ensures r.Ok? ==> TypeIndex(r.value) == kind
    ensures n.Object? && key !in n.fields ==> r == Ok(elseValue)
    ensures n.Object? && key in n.fields && TypeIndex(n.fields[key]) == kind ==> r == Ok(n.fields[key])
    ensures !n.Object? ==> r.Err?
  {
    var fields :- AsObject(n);
    if key !in fields then Ok(elseValue)
    else if TypeIndex(fields[key]) == kind then Ok(fields[key])
    else Err("bad_variant_access")
  }

  // ------------------------------------------------------------ array methods

  /** `at(pos)`: an index past the end throws `out_of_range`. */
  function AtPos(n: Node, pos: nat): (r: Result<Node>)
    ensures r.Ok? <==> n.Array? && pos < |n.items|
    ensures r.Ok? ==> r.value == n.items[pos]
  {
    var items :- AsArray(n);
    if pos < |items| then Ok(items[pos]) else Err("out_of_range")
  }

  /** `push_back(node)`: a null node first becomes an empty array. */
  function PushBack(n: Node, x: Node): (r: Result<Node>)
    ensures r.Ok? <==> n.Null? || n.Array?
    ensures r.Ok? && n.Array? ==> r.value == Array(n.items + [x])
    ensures r.Ok? && n.Null? ==> r.value == Array([x])
  {
    var items :- if n.Null? then Ok([]) else AsArray(n);
    assert n.Null? ==> items + [x] == [x];
    Ok(Array(items + [x]))
  }

  // ------------------------------------------------------------ converting assignment

  /**
   * The compile-time characteristics of a C++ value type that the converting
   * `operator=` tests; several may hold at once.
   */
  datatype TypeTraits = TypeTraits(
    stringLike: bool, objectLike: bool, arrayLike: bool, boolLike: bool,
    nullLike: bool, floatingPoint: bool, integral: bool)

  /**
   * Which alternative the converting `operator=` stores for a value type,
   * as a `NodeType` index; `None` for a type none of the tests accept
   * (rejected at compile time). Priority: string > object > array > bool >
   * null > floating > integral.
   */
  function AssignedType(t: TypeTraits): (r: Option<nat>)
    ensures r.Some? <==> t.stringLike || t.objectLike || t.arrayLike || t.boolLike ||
                         t.nullLike || t.floatingPoint || t.integral
    ensures r == Some(3) <==> t.stringLike
    ensures r == Some(1) <==> t.objectLike && !t.stringLike
    ensures r == Some(2) <==> t.arrayLike && !t.objectLike && !t.stringLike
    ensures r == Some(6) <==> t.boolLike && !t.arrayLike && !t.objectLike && !t.stringLike
    ensures r == Some(0) <==> t.nullLike && !t.boolLike && !t.arrayLike && !t.objectLike && !t.stringLike
    ensures r == Some(5) <==> t.floatingPoint && !t.nullLike && !t.boolLike && !t.arrayLike &&
                              !t.objectLike && !t.stringLike
    ensures r == Some(4) <==> t.integral && !t.floatingPoint && !t.nullLike && !t.boolLike &&
                              !t.arrayLike && !t.objectLike && !t.stringLike
  {
    if t.stringLike then Some(3)
    else if t.objectLike then Some(1)
    else if t.arrayLike then Some(2)
    else if t.boolLike then Some(6)
    else if t.nullLike then Some(0)
    else if t.floatingPoint then Some(5)
    else if t.integral then Some(4)
    else None
  }
}
