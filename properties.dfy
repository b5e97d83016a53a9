/** Properties of the JsonObject model: classification, index resolution,
    safe navigation, extraction and what a stored value reads back as. */
module JsonObjectProperties {
  import opened JsonObject

  // ---------------------------------------------------------------------
  // Classification

  /** Every data kind is assigned exactly to the payloads of its variant,
      and a JSON null (Go nil) is Invalid, not Nil. */
  lemma ClassifyPicksTheAgreeingKind(v: Native, k: Kind)
    requires k != Invalid && k != Nil
    ensures Classify(v).kind == k <==> Agrees(k, v)
    ensures Classify(NilVal) == InvalidNode
  {
  }

  // ---------------------------------------------------------------------
  // Index resolution

  /** getRealIndex is Python indexing: the slot it resolves is the one
      congruent to the index modulo the length. */
  lemma RealIndexIsModular(v: Native, index: int)
    requires v.ArrVal? && RealIndex(v, index) >= 0
    ensures RealIndex(v, index) % v.arr.Length == index % v.arr.Length
  {
    var n := v.arr.Length;
    if index < 0 {
      assert RealIndex(v, index) == index + n;
      assert (index + n) % n == index % n;
    }
  }

  /** A negative index counts from the end; one further is Invalid. */
  lemma NegativeIndexing(t: Tagged, i: int)
    requires t.val.ArrVal?
    ensures -t.val.arr.Length <= i < 0 ==> t.Index(i) == t.Index(t.val.arr.Length + i)
    ensures t.val.arr.Length > 0 ==> t.Index(-1) == t.Index(t.val.arr.Length - 1)
    ensures t.Index(-t.val.arr.Length) == t.Index(0) || t.val.arr.Length == 0
    ensures t.Index(-(t.val.arr.Length + 1)) == InvalidNode
    ensures i >= t.val.arr.Length ==> t.Index(i) == InvalidNode
  {
  }

  // ---------------------------------------------------------------------
  // Safe navigation

  /** One navigation step of a chain such as root.Field("a").Index(1). */
  datatype Step = FieldStep(name: string) | IndexStep(index: int)

  ghost function Navigate(t: Tagged, path: seq<Step>): (r: Tagged)
    reads *
    decreases |path|
  {
    if path == [] then t
    else
      var next := match path[0]
        case FieldStep(name) => t.Field(name)
        case IndexStep(i) => t.Index(i);
      Navigate(next, path[1..])
  }

  /** Once a chain reaches Invalid it stays there, whatever follows. */
  lemma {:induction false} InvalidAbsorbs(path: seq<Step>)
    ensures Navigate(InvalidNode, path) == InvalidNode
    decreases |path|
  {
    if path != [] {
      InvalidAbsorbs(path[1..]);
    }
  }

  /** A chain that starts with a missing field ends in Invalid of size 0
      and yields every fallback. */
  lemma MissingFieldChain(t: Tagged, name: string, rest: seq<Step>, fallback: int)
    requires !(t.val.MapVal? && name in t.val.box.entries)
    ensures Navigate(t, [FieldStep(name)] + rest) == InvalidNode
    ensures Navigate(t, [FieldStep(name)] + rest).Size() == 0
    ensures Navigate(t, [FieldStep(name)] + rest).DefaultInt(fallback) == fallback
  {
    assert ([FieldStep(name)] + rest)[1..] == rest;
    InvalidAbsorbs(rest);
  }

  /** Navigation never produces the Nil kind, not even onto a slot where
      a nil was stored: that slot holds a *JsonValue, which newValue does
      not recognise. */
  lemma StoredNilReadsInvalid(t: Tagged, name: string, fp: Footprint)
    requires t.val.MapVal? && name in t.val.box.entries
    requires Converted(ANil, t.val.box.entries[name], fp)
    ensures t.Field(name) == InvalidNode && !t.Field(name).IsNil()
  {
  }

  // ---------------------------------------------------------------------
  // What a coerced value reads back as

  /** x is what navigation from t gives back: scalars through their
      accessors, containers element by element. A nil or an opaque value
      reads back as Invalid, a wrapped value as its own classification. */
  ghost predicate Mirrors(x: Arg, t: Tagged)
    reads *
  {
    match x
    case ANil => t == InvalidNode
    case AWrapped(p) => t == Classify(p)
    case AInt(i) => t.Int() == Ok(i)
    case AFloat(f) => t == Tagged(Number, FloatVal(f))
    case AStr(s) => t.Str() == Ok(s)
    case ABool(b) => t.Bool() == Ok(b)
    case ASeq(xs) =>
      && t.kind == Array && t.WellFormed() && t.Size() == |xs|
      && forall k :: 0 <= k < |xs| ==> Mirrors(xs[k], t.Index(k))
    case AMap(m) =>
      && t.kind == Object && t.WellFormed() && t.val.box.entries.Keys == m.Keys
      && forall k :: k in m ==> Mirrors(m[k], t.Field(k))
    case AOpaque(_) => t == InvalidNode
  }

  /** Reading back a coerced value through navigation gives the caller's
      value again, at every depth. */
  lemma {:induction false} StoredValueReadsBack(x: Arg, r: Native, fp: Footprint)
    requires Converted(x, r, fp)
    ensures Mirrors(x, Classify(r))
  {
    match x
    case ASeq(xs) =>
      forall k | 0 <= k < |xs| ensures Mirrors(xs[k], Classify(r).Index(k)) {
        assert Classify(r).Index(k) == Classify(r.arr[k]);
        StoredValueReadsBack(xs[k], r.arr[k], fp.elems[k]);
      }
    case AMap(m) =>
      forall k | k in m ensures Mirrors(m[k], Classify(r).Field(k)) {
        assert Classify(r).Field(k) == Classify(r.box.entries[k]);
        StoredValueReadsBack(m[k], r.box.entries[k], fp.fields[k]);
      }
    case AInt(i) =>
      assert Classify(r) == Tagged(Number, IntVal(i));
    case _ =>
  }

  /** The objects a single transformValue call makes for x itself (not
      for its elements): the new slice or map, or the Nil wrapper. */
  ghost function Allocated(x: Arg, r: Native): set<object>
  {
    if x.ASeq? || x.AMap? then Containers(r)
    else if x.ANil? && r.NodeVal? then {r.node}
    else {}
  }

  /** Two elements of a coerced sequence never share an allocated object,
      and neither holds the parent array: transformValue makes a new slice,
      map or wrapper on every recursive call. */
  lemma ConvertedSiblingsAreSeparate(xs: seq<Arg>, r: Native, fp: Footprint, j: int, k: int)
    requires Converted(ASeq(xs), r, fp)
    requires 0 <= j < |xs| && 0 <= k < |xs| && j != k
    ensures r.ArrVal? && r.arr.Length == |xs|
    ensures Allocated(xs[j], r.arr[j]) <= fp.elems[j].objs
    ensures fp.elems[j].objs !! fp.elems[k].objs && r.arr !in fp.elems[j].objs
    ensures Allocated(xs[j], r.arr[j]) !! Allocated(xs[k], r.arr[k])
  {
    assert Converted(xs[j], r.arr[j], fp.elems[j]);
    assert Converted(xs[k], r.arr[k], fp.elems[k]);
    assert j < k ==> fp.elems[j].objs !! fp.elems[k].objs;
  }

  // ---------------------------------------------------------------------
  // Typed extraction

  /** Int of a float succeeds with k exactly when the float equals k. */
  lemma IntOfFloatIsExact(t: Tagged, k: int)
    requires t.kind == Number && t.val.FloatVal?
    ensures t.Int() == Ok(k) <==> t.val.f == k as real
  {
  }

  /** 3.0 gives 3; 3.5 is refused rather than truncated. */
  lemma IntRoundingRule()
    ensures Tagged(Number, FloatVal(3.0)).Int() == Ok(3)
    ensures Tagged(Number, FloatVal(3.5)).Int() == Err(NotAnInteger)
  {
  }

  /** Each Default form uses its fallback exactly when its accessor fails. */
  lemma DefaultsUseFallbackIffError(t: Tagged)
    ensures t.Int().Err? <==> t.DefaultInt(0) != t.DefaultInt(1)
    ensures t.Bool().Err? <==> t.DefaultBool(false) != t.DefaultBool(true)
    ensures t.Str().Err? <==> t.DefaultStr("") != t.DefaultStr("x")
  {
  }

  /** At most one accessor family succeeds on a node. */
  lemma AccessorsAreExclusive(t: Tagged)
    ensures !(t.Int().Ok? && t.Bool().Ok?)
    ensures !(t.Int().Ok? && t.Str().Ok?)
    ensures !(t.Bool().Ok? && t.Str().Ok?)
  {
  }

  /** root.Field("age").Int() on the parsed test document, where the
      decoder produced the float 37. */
  lemma DecodedWholeNumberIsAnInt(t: Tagged)
    requires t.val.MapVal? && "age" in t.val.box.entries
    requires t.val.box.entries["age"] == FloatVal(37.0)
    ensures t.Field("age").Int() == Ok(37)
  {
  }
}
