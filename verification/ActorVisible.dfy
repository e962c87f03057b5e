/** Removal of private geometry from everything the recovery actor shows to Role1. */
module ActorVisible {
  import opened Wrappers
  import opened PlainValues

  /** Drop every private key at any depth; arrays become lists and mappings become dictionaries. */
  function Sanitize(v: Value, private: Key -> bool): Value
  {
    match v
    case Dict(fields) => Dict(map k | k in fields && !private(k) :: Sanitize(fields[k], private))
    case Proxy(fields) => Dict(map k | k in fields && !private(k) :: Sanitize(fields[k], private))
    case List(items) => List(seq(|items|, i requires 0 <= i < |items| => Sanitize(items[i], private)))
    case Tuple(items) => List(seq(|items|, i requires 0 <= i < |items| => Sanitize(items[i], private)))
    case _ => v
  }

  /** Nothing private is reachable in `v`. */
  predicate Public(v: Value, private: Key -> bool)
  {
    match v
    case Dict(fields) => forall k | k in fields :: !private(k) && Public(fields[k], private)
    case Proxy(fields) => forall k | k in fields :: !private(k) && Public(fields[k], private)
    case List(items) => forall i | 0 <= i < |items| :: Public(items[i], private)
    case Tuple(items) => forall i | 0 <= i < |items| :: Public(items[i], private)
    case _ => true
  }

  lemma {:induction false} SanitizedIsPublic(v: Value, private: Key -> bool)
    ensures Public(Sanitize(v, private), private)
  {
    match v
    case Dict(fields) => forall k | k in fields { SanitizedIsPublic(fields[k], private); }
    case Proxy(fields) => forall k | k in fields { SanitizedIsPublic(fields[k], private); }
    case List(items) => forall i | 0 <= i < |items| { SanitizedIsPublic(items[i], private); }
    case Tuple(items) => forall i | 0 <= i < |items| { SanitizedIsPublic(items[i], private); }
    case _ =>
  }

  /** On plain JSON, sanitizing changes a value exactly when something private is reachable in it. */
  lemma {:induction false} SanitizeChangesIff(v: Value, private: Key -> bool)
    requires Plain(v)
    ensures Sanitize(v, private) == v <==> Public(v, private)
  {
    match v
    case Dict(fields) =>
      forall k | k in fields { SanitizeChangesIff(fields[k], private); }
      if Public(v, private) {
        assert Sanitize(v, private).fields == fields;
      }
      if Sanitize(v, private) == v {
        forall k | k in fields ensures !private(k) && Public(fields[k], private) {
          assert k in Sanitize(v, private).fields && Sanitize(v, private).fields[k] == fields[k];
        }
      }
    case List(items) =>
      forall i | 0 <= i < |items| { SanitizeChangesIff(items[i], private); }
      if Public(v, private) {
        assert Sanitize(v, private).items == items;
      }
      if Sanitize(v, private) == v {
        forall i | 0 <= i < |items| ensures Public(items[i], private) {
          assert Sanitize(v, private).items[i] == items[i];
        }
      }
    case _ =>
  }

  // ---- What stays --------------------------------------------------------

  datatype Hop = Field(key: Key) | Item(index: nat)

  /** What is found in `v` along a path. */
  function At(v: Value, path: seq<Hop>): Option<Value>
    decreases |path|
  {
    if path == [] then Some(v)
    else
      match path[0]
      case Field(k) => if (v.Dict? || v.Proxy?) && k in v.fields then At(v.fields[k], path[1..]) else None
      case Item(i) => if (v.List? || v.Tuple?) && i < |v.items| then At(v.items[i], path[1..]) else None
  }

  predicate PublicPath(path: seq<Hop>, private: Key -> bool)
  {
    forall hop | hop in path && hop.Field? :: !private(hop.key)
  }

  /** A shown value next to the value it stands for, one level deep. */
  predicate Alike(v: Value, shown: Value)
  {
    if v.Dict? || v.Proxy? then shown.Dict?
    else if v.List? || v.Tuple? then shown.List? && |shown.items| == |v.items|
    else shown == v
  }

  /** Exactly the paths through no private key survive, and every one leads to what it led to. */
  lemma {:induction false} SanitizeKeepsPublicPaths(v: Value, path: seq<Hop>, private: Key -> bool)
    ensures var shown := At(Sanitize(v, private), path);
      && (shown.Some? <==> At(v, path).Some? && PublicPath(path, private))
      && (shown.Some? ==> Alike(At(v, path).value, shown.value))
    decreases |path|
  {
    if path != [] {
      assert path == [path[0]] + path[1..];
      assert PublicPath(path, private) <==>
        PublicPath(path[1..], private) && (path[0].Field? ==> !private(path[0].key));
      match path[0]
      case Field(k) =>
        if (v.Dict? || v.Proxy?) && k in v.fields {
          SanitizeKeepsPublicPaths(v.fields[k], path[1..], private);
        }
      case Item(i) =>
        if (v.List? || v.Tuple?) && i < |v.items| {
          SanitizeKeepsPublicPaths(v.items[i], path[1..], private);
        }
    }
  }
}
