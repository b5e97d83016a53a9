/** A model of package jsonobject: a dynamically typed JSON value made of a
    kind tag and an untyped payload, with crash-free navigation, typed
    extraction, in-place mutation and coercion of caller values. */
module JsonObject {

  /** The kind tag of a JsonValue, in the order of the Go constants. */
  datatype Kind = Invalid | Nil | Number | String | Boolean | Array | Object

  /** A Go `any` as it can appear as a payload or inside a container.
      The ten predeclared integer types (int, int8 to int64, uint, uint8 to
      uint64) are IntVal; float32 and float64 are FloatVal. Any other type,
      uintptr and every defined integer, float, string or bool type
      included, matches no case of newValue and is OpaqueVal. */
  datatype Native =
    | NilVal                      // Go's untyped nil; a JSON null decodes to it
    | IntVal(i: int)
    | FloatVal(f: real)
    | StrVal(s: string)
    | BoolVal(b: bool)
    | ArrVal(arr: array<Native>)  // []any, shared by reference
    | MapVal(box: MapBox)         // map[string]any, shared by reference
    | NodeVal(node: JsonValue)    // a *JsonValue stored inside a container
    | OpaqueVal(id: nat)          // any other Go value, kept as it is

  /** A Go map[string]any: a reference to one mutable key-value store. */
  class MapBox {
    var entries: map<string, Native>

    constructor ()
      ensures entries == map[]
    {
      entries := map[];
    }
  }

  /** A value a caller hands to SetField, SetIndex or Append. The caller's
      own containers are only read, so they are modelled as values. A
      wrapped *JsonValue is represented by the payload it holds when it is
      passed, which is the only thing the coercion reads from it. AInt,
      AFloat, AStr and ABool stand for the predeclared types only; a value
      of any other type that is neither a slice, an array nor a map (such as
      a time.Duration) comes back from transformValue unchanged and is
      AOpaque. */
  datatype Arg =
    | ANil
    | AWrapped(payload: Native)
    | AInt(i: int)
    | AFloat(f: real)
    | AStr(s: string)
    | ABool(b: bool)
    | ASeq(xs: seq<Arg>)            // any slice or array shape
    | AMap(m: map<string, Arg>)     // any map shape
    | AOpaque(id: nat)

  datatype Result<T> = Ok(value: T) | Err(error: string)

  const NotAnInteger := "not an integer"
  const NotABoolean := "not a boolean"
  const NotAString := "not a string"

  /** The containers a payload refers to directly. */
  function Containers(v: Native): set<object>
  {
    match v
    case ArrVal(a) => {a}
    case MapVal(b) => {b}
    case _ => {}
  }

  /** Payloads that newValue recognises. */
  predicate Classifiable(v: Native)
  {
    v.IntVal? || v.FloatVal? || v.StrVal? || v.BoolVal? || v.ArrVal? || v.MapVal?
  }

  /** The kind and the active payload variant agree. */
  predicate Agrees(k: Kind, v: Native)
  {
    match k
    case Invalid => v.NilVal?
    case Nil => v.NilVal?
    case Number => v.IntVal? || v.FloatVal?
    case String => v.StrVal?
    case Boolean => v.BoolVal?
    case Array => v.ArrVal?
    case Object => v.MapVal?
  }

  /** The contents of a JsonValue: kind tag plus payload. Every read-only
      method of the Go type is a function of these contents. */
  datatype Tagged = Tagged(kind: Kind, val: Native) {

    predicate WellFormed()
    {
      Agrees(kind, val)
    }

    /** A well-formed node is valid exactly when it is Nil or holds a
        payload newValue recognises. */
    predicate IsValid()
      ensures WellFormed() ==> (IsValid() <==> kind == Nil || Classifiable(val))
    {
      kind != Invalid
    }

    /** A Nil node, like an Invalid one, carries no payload. */
    predicate IsNil()
      ensures WellFormed() && IsNil() ==> val == NilVal && IsValid()
    {
      kind == Nil
    }

    /** Field looks at the payload, not at the kind. */
    function Field(name: string): (r: Tagged)
      reads Containers(val)
      ensures r.WellFormed() && r.kind != Nil
      ensures r.IsValid() <==>
        val.MapVal? && name in val.box.entries && Classifiable(val.box.entries[name])
      ensures r.IsValid() ==> r.val == val.box.entries[name]
      ensures !r.IsValid() ==> r == InvalidNode
    {
      if !val.MapVal? then InvalidNode
      else if name !in val.box.entries then InvalidNode
      else Classify(val.box.entries[name])
    }

    function Index(index: int): (r: Tagged)
      reads Containers(val)
      ensures r.WellFormed() && r.kind != Nil
      ensures r.IsValid() <==>
        RealIndex(val, index) >= 0 && Classifiable(val.arr[RealIndex(val, index)])
      ensures r.IsValid() ==> r.val == val.arr[RealIndex(val, index)]
      ensures !r.IsValid() ==> r == InvalidNode
    {
      var i := RealIndex(val, index);
      if i < 0 then InvalidNode else Classify(val.arr[i])
    }

    /** Size looks at the kind first; a kind whose payload disagrees would
        make the Go type assertion panic. */
    function Size(): (n: int)
      reads Containers(val)
      requires WellFormed()
      ensures n >= 0
      ensures kind == Array ==> n == val.arr.Length
      ensures kind == Array ==> forall i :: RealIndex(val, i) >= 0 <==> -n <= i < n
      ensures kind == Object ==> n == |val.box.entries.Keys|
      ensures kind != Array && kind != Object ==> n == 0
    {
      match kind
      case Array => val.arr.Length
      case Object => |val.box.entries|
      case _ => 0
    }

    /** Integral extraction refuses a float with a fractional part. */
    function Int(): (r: Result<int>)
      ensures r.Ok? ==> kind == Number
      ensures r.Ok? ==> (val.IntVal? && r.value == val.i) || (val.FloatVal? && r.value as real == val.f)
      ensures kind == Number && val.IntVal? ==> r.Ok?
      ensures r.Err? ==> r.error == NotAnInteger
    {
      if kind != Number then Err(NotAnInteger)
      else match val
        case IntVal(i) => Ok(i)
        case FloatVal(f) => if f == f.Floor as real then Ok(f.Floor) else Err(NotAnInteger)
        case _ => Err(NotAnInteger)
    }

    function DefaultInt(fallback: int): (r: int)
      ensures Int().Ok? ==> r == Int().value
      ensures Int().Err? ==> r == fallback
    {
      match Int()
      case Ok(i) => i
      case Err(_) => fallback
    }

    /** The panic of MustInt is excluded by its precondition. */
    function MustInt(): (r: int)
      requires Int().Ok?
      ensures forall fallback :: DefaultInt(fallback) == r
    {
      Int().value
    }

    function Bool(): (r: Result<bool>)
      ensures r.Ok? <==> kind == Boolean && val.BoolVal?
      ensures r.Ok? ==> r.value == val.b
      ensures r.Err? ==> r.error == NotABoolean
    {
      if kind == Boolean && val.BoolVal? then Ok(val.b) else Err(NotABoolean)
    }

    function DefaultBool(fallback: bool): (r: bool)
      ensures Bool().Ok? ==> r == Bool().value
      ensures Bool().Err? ==> r == fallback
    {
      match Bool()
      case Ok(b) => b
      case Err(_) => fallback
    }

    function MustBool(): (r: bool)
      requires Bool().Ok?
      ensures forall fallback :: DefaultBool(fallback) == r
    {
      Bool().value
    }

    function Str(): (r: Result<string>)
      ensures r.Ok? <==> kind == String && val.StrVal?
      ensures r.Ok? ==> r.value == val.s
      ensures r.Err? ==> r.error == NotAString
    {
      if kind == String && val.StrVal? then Ok(val.s) else Err(NotAString)
    }

    function DefaultStr(fallback: string): (r: string)
      ensures Str().Ok? ==> r == Str().value
      ensures Str().Err? ==> r == fallback
    {
      match Str()
      case Ok(s) => s
      case Err(_) => fallback
    }

    function MustStr(): (r: string)
      requires Str().Ok?
      ensures forall fallback :: DefaultStr(fallback) == r
    {
      Str().value
    }
  }

  /** The node returned for every missing or mismatched path. */
  const InvalidNode := Tagged(Invalid, NilVal)

  /** newValue: total classification of a payload. A recognised payload is
      kept as it is (containers are shared, not copied); anything else,
      Go's nil included, becomes the Invalid node. */
  function Classify(v: Native): (r: Tagged)
    ensures r.WellFormed() && r.kind != Nil
    ensures r.IsValid() <==> Classifiable(v)
    ensures r.IsValid() ==> r.val == v
    ensures !r.IsValid() ==> r == InvalidNode
  {
    match v
    case FloatVal(_) => Tagged(Number, v)
    case IntVal(_) => Tagged(Number, v)
    case StrVal(_) => Tagged(String, v)
    case BoolVal(_) => Tagged(Boolean, v)
    case ArrVal(_) => Tagged(Array, v)
    case MapVal(_) => Tagged(Object, v)
    case _ => InvalidNode
  }

  /** getRealIndex with Python-style negative indices; -1 means "no slot".
      The slice it returns alongside is the payload itself. */
  function RealIndex(v: Native, index: int): (r: int)
    ensures !v.ArrVal? ==> r == -1
    ensures v.ArrVal? ==> -1 <= r < v.arr.Length
    ensures v.ArrVal? ==> (r >= 0 <==> -v.arr.Length <= index < v.arr.Length)
    ensures r >= 0 ==> r == index || r == index + v.arr.Length
  {
    if !v.ArrVal? then -1
    else
      var n := v.arr.Length;
      if index >= n then -1
      else if index >= 0 then index
      else if index + n >= 0 then index + n
      else -1
  }

  /** The array a payload refers to, if any. */
  function ArrayOf(v: Native): set<object>
  {
    if v.ArrVal? then {v.arr} else {}
  }

  /** The map a payload refers to, if any. */
  function MapOf(v: Native): set<object>
  {
    if v.MapVal? then {v.box} else {}
  }

  /** The objects one transformValue call allocated (objs), together with
      the footprints of its recursive calls, per element (elems) or per key
      (fields). */
  datatype Footprint = Footprint(objs: set<object>, elems: seq<Footprint>, fields: map<string, Footprint>)

  /** A footprint for a call that allocated only the given objects. */
  function Leaf(objs: set<object>): Footprint
  {
    Footprint(objs, [], map[])
  }

  /** r is what transformValue makes of x, and fp says what it allocated.
      Every recursive call allocates its own slice, map or wrapper, so the
      footprints of two elements (or two keys) are disjoint, and none of
      them holds the parent container. */
  ghost predicate Converted(x: Arg, r: Native, fp: Footprint)
    reads fp.objs
  {
    match x
    case ANil =>
      r.NodeVal? && r.node in fp.objs && r.node.kind == Nil && r.node.val == NilVal
    case AWrapped(p) => r == p
    case AInt(i) => r == IntVal(i)
    case AFloat(f) => r == FloatVal(f)
    case AStr(s) => r == StrVal(s)
    case ABool(b) => r == BoolVal(b)
    case ASeq(xs) =>
      && r.ArrVal? && r.arr in fp.objs && r.arr.Length == |xs| && |fp.elems| == |xs|
      && (forall k :: 0 <= k < |xs| ==>
            && fp.elems[k].objs <= fp.objs && r.arr !in fp.elems[k].objs
            && Converted(xs[k], r.arr[k], fp.elems[k]))
      && (forall j, k :: 0 <= j < k < |xs| ==> fp.elems[j].objs !! fp.elems[k].objs)
    case AMap(m) =>
      && r.MapVal? && r.box in fp.objs && r.box.entries.Keys == m.Keys && fp.fields.Keys == m.Keys
      && (forall k :: k in m ==>
            && fp.fields[k].objs <= fp.objs && r.box !in fp.fields[k].objs
            && Converted(m[k], r.box.entries[k], fp.fields[k]))
      && (forall j, k :: j in m && k in m && j != k ==> fp.fields[j].objs !! fp.fields[k].objs)
    case AOpaque(id) => r == OpaqueVal(id)
  }

  /** transformValue: turns a caller value into a payload. Scalars are kept,
      a wrapped value gives up its own payload (no copy), nil becomes a
      fresh Nil wrapper, and every sequence or map shape becomes a fresh
      []any or map[string]any whose elements are converted in turn. It
      writes nothing that existed before the call. */
  method Transform(x: Arg) returns (r: Native, ghost fp: Footprint)
    ensures fresh(fp.objs) && Converted(x, r, fp)
    decreases x, 1
  {
    match x
    case ANil =>
      var w := new JsonValue(Nil, NilVal);
      r, fp := NodeVal(w), Leaf({w});
    case AWrapped(p) =>
      r, fp := p, Leaf({});
    case AInt(i) =>
      r, fp := IntVal(i), Leaf({});
    case AFloat(f) =>
      r, fp := FloatVal(f), Leaf({});
    case AStr(s) =>
      r, fp := StrVal(s), Leaf({});
    case ABool(b) =>
      r, fp := BoolVal(b), Leaf({});
    case ASeq(_) =>
      r, fp := TransformSeq(x);
    case AMap(_) =>
      r, fp := TransformMap(x);
    case AOpaque(id) =>
      r, fp := OpaqueVal(id), Leaf({});
  }

  /** The slice and array branches of transformValue: a fresh []any filled
      with the converted elements, in order. */
  method TransformSeq(x: Arg) returns (r: Native, ghost fp: Footprint)
    requires x.ASeq?
    ensures fresh(fp.objs) && Converted(x, r, fp)
    decreases x, 0
  {
    var xs := x.xs;
    var rv := new Native[|xs|](_ => NilVal);
    ghost var inner: set<object> := {};
    ghost var elems: seq<Footprint> := [];
    for i := 0 to |xs|
      invariant fresh(inner) && rv !in inner && |elems| == i
      invariant forall k :: 0 <= k < i ==>
        elems[k].objs <= inner && rv !in elems[k].objs && Converted(xs[k], rv[k], elems[k])
      invariant forall j, k :: 0 <= j < k < i ==> elems[j].objs !! elems[k].objs
    {
      var t, tfp := Transform(xs[i]);
      rv[i] := t;
      elems := elems + [tfp];
      inner := inner + tfp.objs;
    }
    r, fp := ArrVal(rv), Footprint(inner + {rv}, elems, map[]);
  }

  /** The map branches of transformValue: a fresh map[string]any holding
      every key with its converted value. */
  method TransformMap(x: Arg) returns (r: Native, ghost fp: Footprint)
    requires x.AMap?
    ensures fresh(fp.objs) && Converted(x, r, fp)
    decreases x, 0
  {
    var m := x.m;
    var entries: map<string, Native> := map[];
    ghost var inner: set<object> := {};
    ghost var fields: map<string, Footprint> := map[];
    var todo := m.Keys;
    while todo != {}
      invariant todo <= m.Keys
      invariant fresh(inner)
      invariant entries.Keys == fields.Keys == m.Keys - todo
      invariant forall k :: k in entries ==>
        fields[k].objs <= inner && Converted(m[k], entries[k], fields[k])
      invariant forall j, k :: j in fields && k in fields && j != k ==> fields[j].objs !! fields[k].objs
      decreases todo
    {
      var key :| key in todo;
      var t, tfp := Transform(m[key]);
      entries := entries[key := t];
      fields := fields[key := tfp];
      inner := inner + tfp.objs;
      todo := todo - {key};
    }
    var box := new MapBox();
    box.entries := entries;
    r, fp := MapVal(box), Footprint(inner + {box}, [], fields);
  }

  /** A *JsonValue. Navigation hands out fresh wrappers that share the
      containers of the payload; mutation writes those containers in place,
      except Append, which replaces the receiver's own payload. */
  class JsonValue {
    var kind: Kind
    var val: Native

    /** A struct literal &JsonValue{kind, val}. */
    constructor (kind: Kind, val: Native)
      ensures this.kind == kind && this.val == val
    {
      this.kind := kind;
      this.val := val;
    }

    function Contents(): Tagged
      reads this
    {
      Tagged(kind, val)
    }

    /** The kind tag agrees with the payload: every constructor of the
        package establishes it and every method keeps it. */
    ghost predicate WellFormed()
      reads this
    {
      Contents().WellFormed()
    }

    method Field(name: string) returns (r: JsonValue)
      ensures fresh(r) && r.WellFormed()
      ensures r.Contents() == Contents().Field(name)
    {
      if !val.MapVal? {
        r := new JsonValue(Invalid, NilVal);
      } else if name !in val.box.entries {
        r := new JsonValue(Invalid, NilVal);
      } else {
        r := NewValue(val.box.entries[name]);
      }
    }

    method Index(index: int) returns (r: JsonValue)
      ensures fresh(r) && r.WellFormed()
      ensures r.Contents() == Contents().Index(index)
    {
      var i := RealIndex(val, index);
      if i < 0 {
        r := new JsonValue(Invalid, NilVal);
      } else {
        r := NewValue(val.arr[i]);
      }
    }

    /** On a map payload, stores the coerced value under name in the shared
        map and leaves every other key as it was; otherwise a no-op. */
    method SetField(name: string, x: Arg) returns (r: JsonValue, ghost fp: Footprint)
      modifies MapOf(val)
      ensures r == this && fresh(fp.objs)
      ensures val.MapVal? ==>
        && name in val.box.entries
        && val.box.entries == old(val.box.entries)[name := val.box.entries[name]]
        && Converted(x, val.box.entries[name], fp)
    {
      r, fp := this, Leaf({});
      if val.MapVal? {
        var t;
        t, fp := Transform(x);
        val.box.entries := val.box.entries[name := t];
      }
    }

    /** Writes only the slot getRealIndex resolves; otherwise a no-op. */
    method SetIndex(index: int, x: Arg) returns (r: JsonValue, ghost fp: Footprint)
      modifies ArrayOf(val)
      ensures r == this && fresh(fp.objs)
      ensures RealIndex(val, index) < 0 ==> unchanged(ArrayOf(val))
      ensures RealIndex(val, index) >= 0 ==>
        && val.arr[..] == old(val.arr[..])[RealIndex(val, index) := val.arr[RealIndex(val, index)]]
        && Converted(x, val.arr[RealIndex(val, index)], fp)
    {
      r, fp := this, Leaf({});
      var i := RealIndex(val, index);
      if i >= 0 {
        var t;
        t, fp := Transform(x);
        val.arr[i] := t;
      }
    }

    /** On kind Array, replaces the receiver's payload by a fresh array one
        element longer; the old array, which a parent container may still
        hold, is left as it was. */
    method Append(x: Arg) returns (r: JsonValue, ghost fp: Footprint)
      modifies this
      ensures r == this && fresh(fp.objs) && kind == old(kind)
      ensures old(WellFormed()) ==> WellFormed()
      ensures old(kind == Array && val.ArrVal?) ==>
        && val.ArrVal? && fresh(val.arr) && val.arr !in fp.objs
        && val.arr.Length == old(val.arr.Length) + 1
        && val.arr[..old(val.arr.Length)] == old(val.arr[..])
        && Converted(x, val.arr[old(val.arr.Length)], fp)
        && unchanged(old(val.arr))
      ensures old(!(kind == Array && val.ArrVal?)) ==> val == old(val)
    {
      r, fp := this, Leaf({});
      if kind != Array {
        return;
      }
      if !val.ArrVal? {
        return;
      }
      var a := val.arr;
      var t;
      t, fp := Transform(x);
      var b := new Native[a.Length + 1]((i: nat) reads a => if i < a.Length then a[i] else t);
      val := ArrVal(b);
    }

    /** The calls Each makes to its visitor, in order. */
    method Each() returns (visits: seq<Visit>)
      requires WellFormed()
      ensures kind != Array ==> visits == []
      ensures kind == Array ==>
        && |visits| == val.arr.Length
        && forall i :: 0 <= i < |visits| ==> visits[i] == Visit(Classify(val.arr[i]), i)
    {
      visits := [];
      if kind != Array {
        return;
      }
      var a := val.arr;
      for i := 0 to a.Length
        invariant |visits| == i
        invariant forall k :: 0 <= k < i ==> visits[k] == Visit(Classify(a[k]), k)
      {
        visits := visits + [Visit(Classify(a[i]), i)];
      }
    }

    /** The calls EachPair makes to its visitor: every key exactly once, in
        an order the model leaves open (Go map order is unspecified). */
    method EachPair() returns (visits: seq<PairVisit>)
      requires WellFormed()
      ensures kind != Object ==> visits == []
      ensures kind == Object ==>
        && |visits| == |val.box.entries|
        && (forall i, j :: 0 <= i < j < |visits| ==> visits[i].key != visits[j].key)
        && (forall i :: 0 <= i < |visits| ==>
              visits[i].key in val.box.entries
              && visits[i].item == Classify(val.box.entries[visits[i].key]))
        && (forall k :: k in val.box.entries ==> exists i :: 0 <= i < |visits| && visits[i].key == k)
    {
      visits := [];
      if kind != Object {
        return;
      }
      var m := val.box.entries;
      var todo := m.Keys;
      assert |todo| == |m|;
      while todo != {}
        invariant todo <= m.Keys
        invariant |visits| + |todo| == |m|
        invariant forall i, j :: 0 <= i < j < |visits| ==> visits[i].key != visits[j].key
        invariant forall i :: 0 <= i < |visits| ==>
          visits[i].key in m && visits[i].key !in todo && visits[i].item == Classify(m[visits[i].key])
        invariant forall k :: k in m && k !in todo ==> exists i :: 0 <= i < |visits| && visits[i].key == k
        decreases todo
      {
        var key :| key in todo;
        ghost var before, pending := visits, todo;
        visits := visits + [PairVisit(Classify(m[key]), key)];
        todo := todo - {key};
        forall k | k in m && k !in todo ensures exists i :: 0 <= i < |visits| && visits[i].key == k {
          if k == key {
            assert visits[|visits| - 1].key == k;
          } else {
            assert k !in pending;
            var i :| 0 <= i < |before| && before[i].key == k;
            assert visits[i].key == k;
          }
        }
      }
    }
  }

  /** One call of the Each visitor: a freshly classified item and its index. */
  datatype Visit = Visit(item: Tagged, index: int)

  /** One call of the EachPair visitor. */
  datatype PairVisit = PairVisit(item: Tagged, key: string)

  /** newValue as an allocation: a fresh wrapper around the classification. */
  method NewValue(v: Native) returns (r: JsonValue)
    ensures fresh(r) && r.WellFormed()
    ensures r.Contents() == Classify(v)
  {
    var t := Classify(v);
    r := new JsonValue(t.kind, t.val);
  }

  method NewObject() returns (r: JsonValue)
    ensures fresh(r) && r.WellFormed() && r.val.MapVal? && fresh(r.val.box)
    ensures r.kind == Object && r.Contents().Size() == 0
  {
    var box := new MapBox();
    r := NewValue(MapVal(box));
  }

  method NewArray() returns (r: JsonValue)
    ensures fresh(r) && r.WellFormed() && r.val.ArrVal? && fresh(r.val.arr)
    ensures r.kind == Array && r.Contents().Size() == 0
  {
    var a := new Native[0];
    r := NewValue(ArrVal(a));
  }
}
