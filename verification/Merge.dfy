/** The plain deep merge (`_merge_dict_data`) and its algebra. */
module Merge {
  import opened Values

  /** `overlay` laid over `target`: mappings merge key by key, anything else is replaced. */
  function Over(target: Value, overlay: Value): Value
    decreases overlay, 1
  {
    if target.Dict? && overlay.Dict? then Dict(OverKeys(target, overlay, overlay.m.Keys)) else overlay
  }

  /** The merge after the overlay's keys `done` have been handled. */
  function OverKeys(target: Value, overlay: Value, done: set<string>): Data
    requires target.Dict? && overlay.Dict? && done <= overlay.m.Keys
    decreases overlay, 0
  {
    map k | k in target.m.Keys + done ::
      if k !in done then target.m[k]
      else if k in target.m then Over(target.m[k], overlay.m[k])
      else overlay.m[k]
  }

  /** The merge of two mappings, key by key. */
  lemma OverAt(t: Value, o: Value)
    requires t.Dict? && o.Dict?
    ensures Over(t, o).Dict? && Over(t, o).m.Keys == t.m.Keys + o.m.Keys
    ensures forall k | k in Over(t, o).m ::
              Over(t, o).m[k] == if k !in o.m then t.m[k] else if k in t.m then Over(t.m[k], o.m[k]) else o.m[k]
  {
  }

  function MergeData(target: Data, overlay: Data): Data {
    Over(Dict(target), Dict(overlay)).m
  }

  /** The source's loop, recursive where both sides hold mappings. */
  method MergeDictData(target: Data, overlay: Data) returns (merged: Data)
    ensures merged == MergeData(target, overlay)
    decreases Dict(overlay)
  {
    merged := target;
    ghost var t, o := Dict(target), Dict(overlay);
    var todo := overlay.Keys;
    while todo != {}
      invariant todo <= overlay.Keys
      invariant merged == OverKeys(t, o, overlay.Keys - todo)
    {
      var key :| key in todo;
      var value := overlay[key];
      ghost var done := overlay.Keys - todo;
      assert key in merged <==> key in target;
      if key in merged && merged[key].Dict? && value.Dict? {
        var inner := MergeDictData(merged[key].m, value.m);
        merged := merged[key := Dict(inner)];
      } else {
        merged := merged[key := value];
      }
      todo := todo - {key};
      assert overlay.Keys - todo == done + {key};
      assert merged == OverKeys(t, o, done + {key});
    }
    assert overlay.Keys - todo == overlay.Keys;
  }

  // ------------------------------------------------------------------ algebra

  lemma EmptyIsIdentity(d: Data)
    ensures MergeData(map[], d) == d
    ensures MergeData(d, map[]) == d
  {
    OverAt(Dict(map[]), Dict(d));
    OverAt(Dict(d), Dict(map[]));
  }

  lemma {:induction false} OverSelf(v: Value)
    ensures Over(v, v) == v
    decreases v
  {
    if v.Dict? {
      forall k | k in v.m ensures Over(v.m[k], v.m[k]) == v.m[k] { OverSelf(v.m[k]); }
      assert OverKeys(v, v, v.m.Keys) == v.m;
    }
  }

  /** `c` says something at every position of `a` that it does not replace outright. */
  predicate Covers(c: Value, a: Value)
    decreases a
  {
    a.Dict? && c.Dict? ==> forall k | k in a.m :: k in c.m && Covers(c.m[k], a.m[k])
  }

  /** Laying `c` over `a` loses all of `a` exactly when `c` covers it. */
  lemma {:induction false} OverIsOverlay(a: Value, c: Value)
    ensures Over(a, c) == c <==> Covers(c, a)
    decreases a
  {
    if a.Dict? && c.Dict? {
      var merged := OverKeys(a, c, c.m.Keys);
      forall k | k in a.m && k in c.m ensures Over(a.m[k], c.m[k]) == c.m[k] <==> Covers(c.m[k], a.m[k]) {
        OverIsOverlay(a.m[k], c.m[k]);
      }
      if Covers(c, a) {
        assert merged == c.m;
      } else {
        var k :| k in a.m && !(k in c.m && Covers(c.m[k], a.m[k]));
        assert k in merged;
        if k in c.m { assert merged[k] == Over(a.m[k], c.m[k]); }
      }
    }
  }

  /** Wherever `b` holds a leaf between two mappings, the right one covers the left one. */
  predicate Associates(a: Value, b: Value, c: Value)
    decreases b
  {
    a.Dict? && c.Dict? ==>
      if b.Dict? then
        forall k | k in b.m :: k in a.m && k in c.m ==> Associates(a.m[k], b.m[k], c.m[k])
      else Covers(c, a)
  }

  /** The exact condition under which the merge is associative. */
  lemma {:induction false} OverAssociative(a: Value, b: Value, c: Value)
    ensures Over(Over(a, b), c) == Over(a, Over(b, c)) <==> Associates(a, b, c)
    decreases b
  {
    if a.Dict? && b.Dict? && c.Dict? {
      forall k | k in b.m && k in a.m && k in c.m
        ensures Over(Over(a.m[k], b.m[k]), c.m[k]) == Over(a.m[k], Over(b.m[k], c.m[k]))
                <==> Associates(a.m[k], b.m[k], c.m[k])
      {
        OverAssociative(a.m[k], b.m[k], c.m[k]);
      }
      var left, right := Over(Over(a, b), c).m, Over(a, Over(b, c)).m;
      OverAt(a, b);
      OverAt(Over(a, b), c);
      OverAt(b, c);
      OverAt(a, Over(b, c));
      assert left.Keys == right.Keys == a.m.Keys + b.m.Keys + c.m.Keys;
      forall k | k in left && !(k in a.m && k in b.m && k in c.m) ensures left[k] == right[k] {
      }
      if left == right {
        forall k | k in b.m && k in a.m && k in c.m ensures Associates(a.m[k], b.m[k], c.m[k]) {
          assert left[k] == right[k];
        }
      }
    } else if a.Dict? && c.Dict? {
      OverIsOverlay(a, c);
    }
  }

  /** A leaf between two mappings that are not covered does break associativity. */
  lemma OverNotAssociative()
    ensures var a, b, c := Dict(map["x" := Dict(map["l" := Int(1)])]), Dict(map["x" := Null]), Dict(map["x" := Dict(map[])]);
            Over(Over(a, b), c) != Over(a, Over(b, c))
  {
    var a, b, c := Dict(map["x" := Dict(map["l" := Int(1)])]), Dict(map["x" := Null]), Dict(map["x" := Dict(map[])]);
    OverAssociative(a, b, c);
    assert !Covers(c.m["x"], a.m["x"]) by { assert "l" in a.m["x"].m; }
    assert "x" in b.m;
  }

  /** Laying the same overlay on twice is laying it on once. */
  lemma OverAbsorbs(t: Value, o: Value)
    ensures Over(Over(t, o), o) == Over(t, o)
  {
    OverSelf(o);
    AssociatesRepeat(t, o);
    OverAssociative(t, o, o);
  }

  lemma {:induction false} AssociatesRepeat(t: Value, o: Value)
    ensures Associates(t, o, o) && Associates(t, t, o)
    decreases o, t
  {
    if t.Dict? && o.Dict? {
      forall k | k in o.m && k in t.m ensures Associates(t.m[k], o.m[k], o.m[k]) && Associates(t.m[k], t.m[k], o.m[k]) {
        AssociatesRepeat(t.m[k], o.m[k]);
      }
    }
  }

  /** The base laid under an overlay that already rests on it changes nothing. */
  lemma OverRebase(t: Value, o: Value)
    ensures Over(t, Over(t, o)) == Over(t, o)
  {
    OverSelf(t);
    AssociatesRepeat(t, o);
    OverAssociative(t, t, o);
  }
}
