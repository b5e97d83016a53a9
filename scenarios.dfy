/** Client code over JsonValue: what a caller can rely on when it mutates a
    document through the wrappers that navigation hands out. */
module JsonObjectScenarios {
  import opened JsonObject
  import opened JsonObjectProperties

  /** SetField on a map node, then Field on the same node, gives the
      caller's value back. */
  method SetFieldReadsBack(v: JsonValue, name: string, x: Arg)
    requires v.val.MapVal?
    modifies v.val.box
    ensures Mirrors(x, v.Contents().Field(name))
  {
    var _, fp := v.SetField(name, x);
    StoredValueReadsBack(x, v.val.box.entries[name], fp);
  }

  /** SetIndex on a resolvable slot, then Index with the same (possibly
      negative) index, gives the caller's value back. */
  method SetIndexReadsBack(v: JsonValue, index: int, x: Arg)
    requires RealIndex(v.val, index) >= 0
    modifies v.val.arr
    ensures Mirrors(x, v.Contents().Index(index))
  {
    var _, fp := v.SetIndex(index, x);
    StoredValueReadsBack(x, v.val.arr[RealIndex(v.val, index)], fp);
  }

  /** root.Field(list).Index(i).SetField(key, x) writes the map that the
      document holds, so navigating the same path again from root sees x
      (unless the child map is the root's own map and key is list, when the
      write re-routes the path itself). */
  method SetFieldThroughNavigatedChild(root: JsonValue, list: string, i: int, key: string, x: Arg)
    requires root.Contents().Field(list).Index(i).val.MapVal?
    requires root.Contents().Field(list).Index(i).val.box != root.val.box || key != list
    modifies root.Contents().Field(list).Index(i).val.box
    ensures Mirrors(x, root.Contents().Field(list).Index(i).Field(key))
  {
    var items := root.Field(list);
    var item := items.Index(i);
    var _, fp := item.SetField(key, x);
    StoredValueReadsBack(x, item.val.box.entries[key], fp);
  }

  /** An element of an array node that holds a converted value reads back
      as that value. */
  lemma ElementReadsBack(t: Tagged, k: int, x: Arg, e: Native, fp: Footprint)
    requires t.val.ArrVal? && 0 <= k < t.val.arr.Length && t.val.arr[k] == e
    requires Converted(x, e, fp)
    ensures Mirrors(x, t.Index(k))
  {
    assert t.Index(k) == Classify(e);
    StoredValueReadsBack(x, e, fp);
  }

  /** After v.SetField(name, xs), a write into the element i that xs
      turned into a fresh slice (v.Field(name).Index(i).SetIndex(j, y))
      leaves every other element k reading back as xs[k]: each element's
      containers were allocated on their own. */
  method WriteIntoOneElementSparesItsSiblings(v: JsonValue, name: string, xs: seq<Arg>, i: int, j: int, y: Arg, k: int)
    requires v.val.MapVal?
    requires 0 <= i < |xs| && 0 <= k < |xs| && i != k && xs[i].ASeq?
    modifies v.val.box
    ensures Mirrors(xs[k], v.Contents().Field(name).Index(k))
  {
    var _, fp := v.SetField(name, ASeq(xs));
    ghost var r := v.val.box.entries[name];
    ConvertedSiblingsAreSeparate(xs, r, fp, i, k);
    ghost var ak, pk := r.arr[k], fp.elems[k];
    assert Converted(xs[k], ak, pk);
    var items := v.Field(name);
    var child := items.Index(i);
    var _, yfp := child.SetIndex(j, y);
    ElementReadsBack(v.Contents().Field(name), k, xs[k], ak, pk);
  }

  /** The same write is seen from v: the element's slice is shared by the
      document and by the wrapper navigation handed out. */
  method WriteIntoOneElementIsSeenFromTheRoot(v: JsonValue, name: string, xs: seq<Arg>, i: int, j: int, y: Arg)
    requires v.val.MapVal?
    requires 0 <= i < |xs| && xs[i].ASeq? && -|xs[i].xs| <= j < |xs[i].xs|
    modifies v.val.box
    ensures Mirrors(y, v.Contents().Field(name).Index(i).Index(j))
  {
    var _, fp := v.SetField(name, ASeq(xs));
    ghost var r := v.val.box.entries[name];
    ghost var ai := r.arr[i];
    assert Converted(xs[i], ai, fp.elems[i]);
    var items := v.Field(name);
    var child := items.Index(i);
    var _, yfp := child.SetIndex(j, y);
    assert v.Contents().Field(name).Index(i) == Tagged(Array, ai);
    ElementReadsBack(v.Contents().Field(name).Index(i), RealIndex(ai, j), y, ai.arr[RealIndex(ai, j)], yfp);
    NegativeIndexing(Tagged(Array, ai), j);
  }

  /** root.Field(name).Append(x) grows only the navigated wrapper: the
      array the document holds keeps its length. */
  method AppendThroughNavigatedChild(root: JsonValue, name: string, x: Arg) returns (child: JsonValue)
    requires root.Contents().Field(name).kind == Array
    ensures child.WellFormed() && child.kind == Array
    ensures child.Contents().Size() == root.Contents().Field(name).Size() + 1
  {
    child := root.Field(name);
    var _, fp := child.Append(x);
  }

  /** a.Append(x).SetIndex(0, y): the write lands in the grown array, which
      is none of the containers made for x, so the last element still reads
      back as x and the first as y. */
  method WriteAfterAppendSparesTheAppended(a: JsonValue, x: Arg, y: Arg)
    requires a.kind == Array && a.val.ArrVal? && a.val.arr.Length >= 1
    modifies a
    ensures Mirrors(x, a.Contents().Index(-1))
    ensures Mirrors(y, a.Contents().Index(0))
  {
    var _, fp := a.Append(x);
    ghost var last := a.val.arr.Length - 1;
    ghost var e := a.val.arr[last];
    var _, yfp := a.SetIndex(0, y);
    assert a.val.arr[last] == e && Converted(x, e, fp);
    ElementReadsBack(a.Contents(), last, x, e, fp);
    ElementReadsBack(a.Contents(), 0, y, a.val.arr[0], yfp);
    NegativeIndexing(a.Contents(), -1);
  }

  /** NewArray().Append(1).Append(2) has size 2 and holds 1 then 2. */
  method AppendGrowth() returns (a: JsonValue)
    ensures a.WellFormed() && a.Contents().Size() == 2
    ensures a.Contents().Index(0).Int() == Ok(1)
    ensures a.Contents().Index(1).Int() == Ok(2)
    ensures a.Contents().Index(-1).Int() == Ok(2)
  {
    a := NewArray();
    var _, fp1 := a.Append(AInt(1));
    var _, fp2 := a.Append(AInt(2));
  }

  /** Each on that array visits 1 then 2 with indices 0 and 1. */
  method EachAfterAppends() returns (visits: seq<Visit>)
    ensures |visits| == 2
    ensures visits[0].index == 0 && visits[0].item.Int() == Ok(1)
    ensures visits[1].index == 1 && visits[1].item.Int() == Ok(2)
  {
    var a := AppendGrowth();
    visits := a.Each();
  }

  /** NewObject().SetField("a", "x") has one key, and the value reads back. */
  method ObjectGrowth() returns (o: JsonValue)
    ensures o.WellFormed() && o.Contents().Size() == 1
    ensures o.Contents().Field("a").Str() == Ok("x")
    ensures o.Contents().Field("b") == InvalidNode
  {
    o := NewObject();
    var _, fp := o.SetField("a", AStr("x"));
    assert o.val.box.entries.Keys == {"a"};
  }
}
