/** Canonical RoboCasa actions: validation of raw commands, scaling, clipping and their stable JSON form. */
module ActionContract {
  import opened Wrappers
  import opened PlainValues

  datatype Scale = Scale(position: real, rotation: real, baseXy: real, baseYaw: real, torso: real)

  const UNIT_SCALE := Scale(1.0, 1.0, 1.0, 1.0, 1.0)
  const FLAT_ACTION_SIZE: nat := 12

  datatype Action = Action(position: seq<real>, rotation: seq<real>, gripper: seq<real>,
                           base: seq<real>, control: seq<real>)

  predicate Within(xs: seq<real>, size: nat, lower: real, upper: real)
  {
    |xs| == size && forall i | 0 <= i < |xs| :: lower <= xs[i] <= upper
  }

  predicate InBounds(a: Action)
  {
    && Within(a.position, 3, -1.0, 1.0) && Within(a.rotation, 3, -1.0, 1.0)
    && Within(a.gripper, 1, 0.0, 1.0) && Within(a.base, 4, -1.0, 1.0) && Within(a.control, 1, 0.0, 1.0)
  }

  function Clip(x: real, lower: real, upper: real): real
  {
    if x < lower then lower else if x > upper then upper else x
  }

  function Number(v: Value): Option<real>
  {
    match v
    case Int(n) => Some(n as real)
    case Float(r) => Some(r)
    case Bool(b) => Some(if b then 1.0 else 0.0)
    case _ => None
  }

  function Numbers(items: seq<Value>): Option<seq<real>>
  {
    if forall i | 0 <= i < |items| :: Number(items[i]).Some?
    then Some(seq(|items|, i requires 0 <= i < |items| => Number(items[i]).value)) else None
  }

  /** A vector of the given size, also accepted inside one extra array, or bare when the size is one. */
  function Vector(v: Value, size: nat): Option<seq<real>>
  {
    if v.IsArray() then
      if |v.items| == 1 && v.items[0].IsArray() then Numbers(v.items[0].items) else Numbers(v.items)
    else if size == 1 && Number(v).Some? then Some([Number(v).value])
    else None
  }

  function Component(v: Value, size: nat, lower: real, upper: real): (r: Option<seq<real>>)
    ensures r.Some? ==> Within(r.value, size, lower, upper)
  {
    var xs := Vector(v, size);
    if xs.Some? && Within(xs.value, size, lower, upper) then xs else None
  }

  function MappingFromFlat(v: Value): Option<map<Key, Value>>
  {
    if v.IsArray() && |v.items| == FLAT_ACTION_SIZE && Numbers(v.items).Some? then
      Some(map[EndEffectorPosition := List(v.items[..3]), EndEffectorRotation := List(v.items[3..6]),
               GripperClose := List(v.items[6..7]), BaseMotion := List(v.items[7..11]),
               ControlMode := List(v.items[11..])])
    else None
  }

  function Source(v: Value): Option<map<Key, Value>>
  {
    if v.Dict? || v.Proxy? then
      var nested := Get(v.fields, NestedAction, Null);
      if nested.Dict? || nested.Proxy? then Some(nested.fields) else Some(v.fields)
    else MappingFromFlat(v)
  }

  /** A component under its bare name, else under its prefixed name, else zeros. */
  function Field(source: map<Key, Value>, bare: Key, prefixed: Key, size: nat): Value
  {
    Get(source, bare, Get(source, prefixed, List(seq(size, i => Float(0.0)))))
  }

  function Scaled(x: real, k: real): (r: real)
    ensures -1.0 <= r <= 1.0
  {
    Clip(x * k, -1.0, 1.0)
  }

  function ScaleAll(xs: seq<real>, k: real): (r: seq<real>)
    ensures Within(r, |xs|, -1.0, 1.0)
  {
    if xs == [] then [] else [Scaled(xs[0], k)] + ScaleAll(xs[1..], k)
  }

  /** Base motion: two planar components, yaw and torso, each with its own scale. */
  function ScaleBase(xs: seq<real>, scale: Scale): (r: seq<real>)
    requires |xs| == 4
    ensures Within(r, 4, -1.0, 1.0)
  {
    ScaleAll(xs[..2], scale.baseXy) + ScaleAll(xs[2..3], scale.baseYaw) + ScaleAll(xs[3..], scale.torso)
  }

  function CanonicalAction(v: Value, scale: Scale): (r: Option<Action>)
    ensures r.Some? ==> InBounds(r.value)
  {
    var source := Source(v);
    if source.None? then None else
    var position := Component(Field(source.value, EndEffectorPosition, ActionEndEffectorPosition, 3), 3, -1.0, 1.0);
    var rotation := Component(Field(source.value, EndEffectorRotation, ActionEndEffectorRotation, 3), 3, -1.0, 1.0);
    var gripper := Component(Field(source.value, GripperClose, ActionGripperClose, 1), 1, 0.0, 1.0);
    var base := Component(Field(source.value, BaseMotion, ActionBaseMotion, 4), 4, -1.0, 1.0);
    var control := Component(Field(source.value, ControlMode, ActionControlMode, 1), 1, 0.0, 1.0);
    if position.None? || rotation.None? || gripper.None? || base.None? || control.None? then None
    else
      Some(Action(
        ScaleAll(position.value, scale.position),
        ScaleAll(rotation.value, scale.rotation),
        gripper.value,
        ScaleBase(base.value, scale),
        control.value))
  }

  function Floats(xs: seq<real>): Value
  {
    List(seq(|xs|, i requires 0 <= i < |xs| => Float(xs[i])))
  }

  function Serialize(a: Action): Value
  {
    Dict(map[ActionEndEffectorPosition := Floats(a.position),
             ActionEndEffectorRotation := Floats(a.rotation),
             ActionGripperClose := Floats(a.gripper),
             ActionBaseMotion := Floats(a.base),
             ActionControlMode := Floats(a.control)])
  }

  function SerializableAction(v: Value): Option<Value>
  {
    var a := CanonicalAction(v, UNIT_SCALE);
    if a.Some? then Some(Serialize(a.value)) else None
  }

  lemma ComponentOfFloats(xs: seq<real>, size: nat, lower: real, upper: real)
    requires Within(xs, size, lower, upper)
    ensures Component(Floats(xs), size, lower, upper) == Some(xs)
  {
    var items := Floats(xs).items;
    assert Numbers(items).value == xs;
  }

  lemma {:induction false} UnitScaleIsIdentity(xs: seq<real>)
    requires Within(xs, |xs|, -1.0, 1.0)
    ensures ScaleAll(xs, 1.0) == xs
  {
    if xs != [] {
      UnitScaleIsIdentity(xs[1..]);
    }
  }

  lemma SerializedFields(a: Action)
    ensures Source(Serialize(a)) == Some(Serialize(a).fields)
    ensures Field(Serialize(a).fields, EndEffectorPosition, ActionEndEffectorPosition, 3) == Floats(a.position)
    ensures Field(Serialize(a).fields, EndEffectorRotation, ActionEndEffectorRotation, 3) == Floats(a.rotation)
    ensures Field(Serialize(a).fields, GripperClose, ActionGripperClose, 1) == Floats(a.gripper)
    ensures Field(Serialize(a).fields, BaseMotion, ActionBaseMotion, 4) == Floats(a.base)
    ensures Field(Serialize(a).fields, ControlMode, ActionControlMode, 1) == Floats(a.control)
  {
  }

  /** The serialized form is a fixed point: reading it back gives the very same command. */
  lemma CanonicalOfSerialized(a: Action)
    requires InBounds(a)
    ensures CanonicalAction(Serialize(a), UNIT_SCALE) == Some(a)
    ensures SerializableAction(Serialize(a)) == Some(Serialize(a))
  {
    SerializedFields(a);
    ComponentOfFloats(a.position, 3, -1.0, 1.0);
    ComponentOfFloats(a.rotation, 3, -1.0, 1.0);
    ComponentOfFloats(a.gripper, 1, 0.0, 1.0);
    ComponentOfFloats(a.base, 4, -1.0, 1.0);
    ComponentOfFloats(a.control, 1, 0.0, 1.0);
    UnitScaleIsIdentity(a.position);
    UnitScaleIsIdentity(a.rotation);
    UnitBaseIsIdentity(a.base);
  }

  lemma UnitBaseIsIdentity(xs: seq<real>)
    requires Within(xs, 4, -1.0, 1.0)
    ensures ScaleBase(xs, UNIT_SCALE) == xs
  {
    UnitScaleIsIdentity(xs[..2]);
    UnitScaleIsIdentity(xs[2..3]);
    UnitScaleIsIdentity(xs[3..]);
  }

  // ---- What a raw command says -------------------------------------------

  /** The numbers an array holds, possibly inside one more array, or the number a value is. */
  ghost predicate Denotes(v: Value, xs: seq<real>)
  {
    || (v.IsArray() && ListsNumbers(v.items, xs))
    || (v.IsArray() && |v.items| == 1 && v.items[0].IsArray() && ListsNumbers(v.items[0].items, xs))
    || (|xs| == 1 && Number(v) == Some(xs[0]))
  }

  predicate ListsNumbers(items: seq<Value>, xs: seq<real>)
  {
    |items| == |xs| && forall i | 0 <= i < |items| :: Number(items[i]) == Some(xs[i])
  }

  /** A component is what stands under its bare name, else under its prefixed name, else all zeros. */
  ghost predicate Gives(source: map<Key, Value>, bare: Key, prefixed: Key, xs: seq<real>)
  {
    if bare in source then Denotes(source[bare], xs)
    else if prefixed in source then Denotes(source[prefixed], xs)
    else forall i | 0 <= i < |xs| :: xs[i] == 0.0
  }

  /** A raw command says `a`: by name, at the top or under `action`, or as twelve numbers in a row. */
  ghost predicate Commands(v: Value, a: Action)
  {
    if v.Dict? || v.Proxy? then
      var inner := NestedAction in v.fields && (v.fields[NestedAction].Dict? || v.fields[NestedAction].Proxy?);
      var source := if inner then v.fields[NestedAction].fields else v.fields;
      && Gives(source, EndEffectorPosition, ActionEndEffectorPosition, a.position)
      && Gives(source, EndEffectorRotation, ActionEndEffectorRotation, a.rotation)
      && Gives(source, GripperClose, ActionGripperClose, a.gripper)
      && Gives(source, BaseMotion, ActionBaseMotion, a.base)
      && Gives(source, ControlMode, ActionControlMode, a.control)
    else v.IsArray() && ListsNumbers(v.items, a.position + a.rotation + a.gripper + a.base + a.control)
  }

  lemma NumbersIff(items: seq<Value>, xs: seq<real>)
    ensures Numbers(items) == Some(xs) <==> ListsNumbers(items, xs)
  {
    if ListsNumbers(items, xs) {
      assert Numbers(items).value == xs;
    }
  }

  lemma VectorIff(v: Value, xs: seq<real>)
    ensures Vector(v, |xs|) == Some(xs) <==> Denotes(v, xs)
  {
    if v.IsArray() {
      NumbersIff(v.items, xs);
      if |v.items| == 1 && v.items[0].IsArray() {
        NumbersIff(v.items[0].items, xs);
      }
    } else if |xs| == 1 {
      assert xs == [xs[0]];
    }
  }

  lemma ZerosDenote(xs: seq<real>)
    ensures Denotes(List(seq(|xs|, i => Float(0.0))), xs) <==> forall i | 0 <= i < |xs| :: xs[i] == 0.0
  {
    var items := seq(|xs|, i => Float(0.0));
    assert forall i | 0 <= i < |xs| :: Number(items[i]) == Some(0.0);
    if |items| == 1 {
      assert items[0] == Float(0.0);
    }
  }

  lemma FieldIff(source: map<Key, Value>, bare: Key, prefixed: Key, xs: seq<real>)
    ensures Denotes(Field(source, bare, prefixed, |xs|), xs) <==> Gives(source, bare, prefixed, xs)
  {
    hide Denotes;
    ZerosDenote(xs);
  }

  lemma ComponentIff(source: map<Key, Value>, bare: Key, prefixed: Key, xs: seq<real>, lower: real, upper: real)
    ensures Component(Field(source, bare, prefixed, |xs|), |xs|, lower, upper) == Some(xs)
      <==> Within(xs, |xs|, lower, upper) && Gives(source, bare, prefixed, xs)
  {
    hide Denotes, Vector, Field, Gives;
    FieldIff(source, bare, prefixed, xs);
    VectorIff(Field(source, bare, prefixed, |xs|), xs);
  }

  lemma UnitCommand(source: map<Key, Value>, v: Value, a: Action)
    requires Source(v) == Some(source)
    ensures CanonicalAction(v, UNIT_SCALE) == Some(a) <==>
      && InBounds(a)
      && Component(Field(source, EndEffectorPosition, ActionEndEffectorPosition, 3), 3, -1.0, 1.0) == Some(a.position)
      && Component(Field(source, EndEffectorRotation, ActionEndEffectorRotation, 3), 3, -1.0, 1.0) == Some(a.rotation)
      && Component(Field(source, GripperClose, ActionGripperClose, 1), 1, 0.0, 1.0) == Some(a.gripper)
      && Component(Field(source, BaseMotion, ActionBaseMotion, 4), 4, -1.0, 1.0) == Some(a.base)
      && Component(Field(source, ControlMode, ActionControlMode, 1), 1, 0.0, 1.0) == Some(a.control)
  {
    hide Component, Field, Source, ScaleAll, ScaleBase;
    var position := Component(Field(source, EndEffectorPosition, ActionEndEffectorPosition, 3), 3, -1.0, 1.0);
    var rotation := Component(Field(source, EndEffectorRotation, ActionEndEffectorRotation, 3), 3, -1.0, 1.0);
    var base := Component(Field(source, BaseMotion, ActionBaseMotion, 4), 4, -1.0, 1.0);
    if position.Some? { UnitScaleIsIdentity(position.value); }
    if rotation.Some? { UnitScaleIsIdentity(rotation.value); }
    if base.Some? { UnitBaseIsIdentity(base.value); }
  }

  lemma NamedIff(source: map<Key, Value>, v: Value, a: Action)
    requires Source(v) == Some(source)
    ensures CanonicalAction(v, UNIT_SCALE) == Some(a) <==>
      && InBounds(a)
      && Gives(source, EndEffectorPosition, ActionEndEffectorPosition, a.position)
      && Gives(source, EndEffectorRotation, ActionEndEffectorRotation, a.rotation)
      && Gives(source, GripperClose, ActionGripperClose, a.gripper)
      && Gives(source, BaseMotion, ActionBaseMotion, a.base)
      && Gives(source, ControlMode, ActionControlMode, a.control)
  {
    hide CanonicalAction, Component, Field, Gives, Source;
    UnitCommand(source, v, a);
    if InBounds(a) {
      ComponentIff(source, EndEffectorPosition, ActionEndEffectorPosition, a.position, -1.0, 1.0);
      ComponentIff(source, EndEffectorRotation, ActionEndEffectorRotation, a.rotation, -1.0, 1.0);
      ComponentIff(source, GripperClose, ActionGripperClose, a.gripper, 0.0, 1.0);
      ComponentIff(source, BaseMotion, ActionBaseMotion, a.base, -1.0, 1.0);
      ComponentIff(source, ControlMode, ActionControlMode, a.control, 0.0, 1.0);
    }
  }

  /** At unit scale a raw command is accepted as `a` exactly when it says `a` and `a` is in bounds. */
  lemma CanonicalIff(v: Value, a: Action)
    ensures CanonicalAction(v, UNIT_SCALE) == Some(a) <==> InBounds(a) && Commands(v, a)
  {
    hide CanonicalAction, Gives, InBounds;
    var source := Source(v);
    if source.Some? {
      NamedIff(source.value, v, a);
      if v.IsArray() {
        FlatIff(v, a);
      }
    } else {
      NotASource(v, a);
    }
  }

  lemma NotASource(v: Value, a: Action)
    requires Source(v).None?
    ensures CanonicalAction(v, UNIT_SCALE).None? && !(InBounds(a) && Commands(v, a))
  {
    if v.IsArray() && |v.items| == FLAT_ACTION_SIZE {
      NumbersIff(v.items, a.position + a.rotation + a.gripper + a.base + a.control);
    }
  }

  lemma FlatIff(v: Value, a: Action)
    requires v.IsArray() && Source(v).Some?
    ensures var source := Source(v).value;
      InBounds(a) && ListsNumbers(v.items, a.position + a.rotation + a.gripper + a.base + a.control) <==>
        && InBounds(a)
        && Gives(source, EndEffectorPosition, ActionEndEffectorPosition, a.position)
        && Gives(source, EndEffectorRotation, ActionEndEffectorRotation, a.rotation)
        && Gives(source, GripperClose, ActionGripperClose, a.gripper)
        && Gives(source, BaseMotion, ActionBaseMotion, a.base)
        && Gives(source, ControlMode, ActionControlMode, a.control)
  {
    hide Denotes, ListsNumbers;
    if InBounds(a) {
      FlatParts(v.items, a);
      PartDenotes(v.items[..3], a.position);
      PartDenotes(v.items[3..6], a.rotation);
      PartDenotes(v.items[6..7], a.gripper);
      PartDenotes(v.items[7..11], a.base);
      PartDenotes(v.items[11..], a.control);
    }
  }

  lemma PartDenotes(items: seq<Value>, xs: seq<real>)
    requires forall x <- items :: Number(x).Some?
    ensures Denotes(List(items), xs) <==> ListsNumbers(items, xs)
  {
    assert |items| == 1 ==> Number(items[0]).Some?;
  }

  lemma FlatParts(items: seq<Value>, a: Action)
    requires |items| == 12 && InBounds(a)
    ensures ListsNumbers(items, a.position + a.rotation + a.gripper + a.base + a.control) <==>
      && ListsNumbers(items[..3], a.position) && ListsNumbers(items[3..6], a.rotation) && ListsNumbers(items[6..7], a.gripper)
      && ListsNumbers(items[7..11], a.base) && ListsNumbers(items[11..], a.control)
  {
    Concats(items[..3], items[3..6], a.position, a.rotation);
    Concats(items[..6], items[6..7], a.position + a.rotation, a.gripper);
    Concats(items[..7], items[7..11], a.position + a.rotation + a.gripper, a.base);
    Concats(items[..11], items[11..], a.position + a.rotation + a.gripper + a.base, a.control);
    assert items[..3] + items[3..6] == items[..6] && items[..6] + items[6..7] == items[..7];
    assert items[..7] + items[7..11] == items[..11] && items[..11] + items[11..] == items;
  }

  lemma Concats(a: seq<Value>, b: seq<Value>, xs: seq<real>, ys: seq<real>)
    requires |a| == |xs| && |b| == |ys|
    ensures ListsNumbers(a + b, xs + ys) <==> ListsNumbers(a, xs) && ListsNumbers(b, ys)
  {
    if ListsNumbers(a + b, xs + ys) {
      forall i | 0 <= i < |a| ensures Number(a[i]) == Some(xs[i]) {
        assert (a + b)[i] == a[i] && (xs + ys)[i] == xs[i];
      }
      forall i | 0 <= i < |b| ensures Number(b[i]) == Some(ys[i]) {
        assert (a + b)[|a| + i] == b[i] && (xs + ys)[|xs| + i] == ys[i];
      }
    }
  }

  /** A scaled command is the unit one with every component multiplied and clipped; gripper and mode are never scaled. */
  lemma ScaledCommand(v: Value, scale: Scale)
    ensures CanonicalAction(v, scale).Some? <==> CanonicalAction(v, UNIT_SCALE).Some?
    ensures CanonicalAction(v, scale).Some? ==>
      var a, u := CanonicalAction(v, scale).value, CanonicalAction(v, UNIT_SCALE).value;
      && ScaledBy(a.position, u.position, scale.position) && ScaledBy(a.rotation, u.rotation, scale.rotation)
      && ScaledBy(a.base[..2], u.base[..2], scale.baseXy) && ScaledBy(a.base[2..3], u.base[2..3], scale.baseYaw)
      && ScaledBy(a.base[3..], u.base[3..], scale.torso) && a.gripper == u.gripper && a.control == u.control
  {
    hide Component, Field, Source, ScaleAll, ScaleBase, Clip, ScaledBy;
    var source := Source(v);
    if source.Some? {
      var position := Component(Field(source.value, EndEffectorPosition, ActionEndEffectorPosition, 3), 3, -1.0, 1.0);
      var rotation := Component(Field(source.value, EndEffectorRotation, ActionEndEffectorRotation, 3), 3, -1.0, 1.0);
      var base := Component(Field(source.value, BaseMotion, ActionBaseMotion, 4), 4, -1.0, 1.0);
      if position.Some? { UnitScaleIsIdentity(position.value); ScaledAt(position.value, scale.position); }
      if rotation.Some? { UnitScaleIsIdentity(rotation.value); ScaledAt(rotation.value, scale.rotation); }
      if base.Some? { UnitBaseIsIdentity(base.value); ScaledBase(base.value, scale); }
    }
  }

  predicate ScaledBy(xs: seq<real>, unit: seq<real>, k: real)
  {
    |xs| == |unit| && forall i | 0 <= i < |xs| :: xs[i] == Scaled(unit[i], k)
  }

  lemma {:induction false} ScaledAt(xs: seq<real>, k: real)
    ensures ScaledBy(ScaleAll(xs, k), xs, k)
  {
    hide Scaled;
    if xs != [] {
      ScaledAt(xs[1..], k);
    }
  }

  lemma ScaledBase(xs: seq<real>, scale: Scale)
    requires |xs| == 4
    ensures var r := ScaleBase(xs, scale);
      && ScaledBy(r[..2], xs[..2], scale.baseXy) && ScaledBy(r[2..3], xs[2..3], scale.baseYaw)
      && ScaledBy(r[3..], xs[3..], scale.torso)
  {
    hide ScaleAll, ScaledBy;
    var planar, yaw, torso := ScaleAll(xs[..2], scale.baseXy), ScaleAll(xs[2..3], scale.baseYaw), ScaleAll(xs[3..], scale.torso);
    ScaledAt(xs[..2], scale.baseXy);
    ScaledAt(xs[2..3], scale.baseYaw);
    ScaledAt(xs[3..], scale.torso);
    assert (planar + yaw + torso)[..2] == planar && (planar + yaw + torso)[2..3] == yaw && (planar + yaw + torso)[3..] == torso;
  }
}
