/** The filtered merge seen on tree positions instead of dotted paths: when it
    is the plain merge of the known part of the layer, which paths it warns
    about, and what one layer does to every leaf. */
module Shape {
  import opened Values
  import opened Paths
  import opened Overlay
  import Merge

  predicate KnownIn(s: Value, k: string) {
    s.Dict? && k in s.m
  }

  /** Every key below the top is free of dots. */
  predicate DotFreeTree(v: Value) {
    v.Dict? ==> forall k | k in v.m :: DotFree(k) && DotFreeTree(v.m[k])
  }

  /** Dotted paths are faithful throughout the tree. */
  predicate FaithfulTree(v: Value) {
    v.Dict? && "" !in v.m && DotFreeTree(v)
  }

  lemma {:induction false} AtAppend(v: Value, ks: seq<string>, more: seq<string>)
    ensures At(v, ks + more) == if At(v, ks).Some? then At(At(v, ks).value, more) else None
  {
    if ks == [] {
      assert ks + more == more;
    } else {
      assert (ks + more)[1..] == ks[1..] + more;
      if v.Dict? && ks[0] in v.m { AtAppend(v.m[ks[0]], ks[1..], more); }
    }
  }

  lemma {:induction false} PositionsDotFree(v: Value, ks: seq<string>)
    requires DotFreeTree(v) && At(v, ks).Some?
    ensures forall i :: 0 <= i < |ks| ==> DotFree(ks[i])
    ensures DotFreeTree(At(v, ks).value)
  {
    if ks != [] {
      PositionsDotFree(v.m[ks[0]], ks[1..]);
      assert forall i :: 1 <= i < |ks| ==> ks[i] == ks[1..][i - 1];
    }
  }

  lemma PositionsFaithful(v: Value, ks: seq<string>)
    requires FaithfulTree(v) && ks != [] && At(v, ks).Some?
    ensures Faithful(ks)
  {
    PositionsDotFree(v, ks);
  }

  /** For faithful positions, membership of the dotted path in the flattened
      shape is membership of the position in the shape. */
  lemma KnownPath(root: Value, ps: seq<string>, k: string)
    requires FaithfulTree(root) && At(root, ps).Some? && Faithful(ps + [k])
    ensures PathJoin(JoinFrom("", ps), k) == JoinFrom("", ps + [k])
    ensures JoinFrom("", ps + [k]) in Flatten(root, "") <==> KnownIn(At(root, ps).value, k)
  {
    var s := At(root, ps).value;
    JoinFromAppend("", ps, [k]);
    AtAppend(root, ps, [k]);
    assert At(s, [k]).Some? <==> KnownIn(s, k);
    FlattenMeaning(root, "", JoinFrom("", ps + [k]));
    if JoinFrom("", ps + [k]) in Flatten(root, "") {
      var ks :| ks != [] && At(root, ks).Some? && JoinFrom("", ks) == JoinFrom("", ps + [k]);
      PositionsFaithful(root, ks);
      PathJoinInjective(ks, ps + [k]);
    }
  }

  // ------------------------------------------------------ the merge on positions

  /** The filtered merge, the known positions being those of `s`. */
  function Filter(t: Value, o: Value, s: Value): Data
    requires t.Dict? && o.Dict?
    decreases o
  {
    map k | k in t.m.Keys + (set k | k in o.m && KnownIn(s, k)) ::
      if !(k in o.m && KnownIn(s, k)) then t.m[k]
      else if Recurses(t, o, k) then Dict(Filter(t.m[k], o.m[k], s.m[k]))
      else o.m[k]
  }

  /** What becomes of position `ks` of the overlay. */
  function FateOf(t: Value, o: Value, s: Value, ks: seq<string>): Option<Fate>
    requires t.Dict? && o.Dict?
    decreases o
  {
    if ks == [] || ks[0] !in o.m then None
    else if !KnownIn(s, ks[0]) then (if |ks| == 1 then Some(Ignored) else None)
    else if Recurses(t, o, ks[0]) then FateOf(t.m[ks[0]], o.m[ks[0]], s.m[ks[0]], ks[1..])
    else (if |ks| == 1 then Some(Assigned) else None)
  }

  /** `ps` leads from the root to the place where the merge is. */
  predicate Descends(root: Value, ps: seq<string>, o: Value) {
    && FaithfulTree(root) && At(root, ps).Some?
    && o.Dict? && DotFreeTree(o)
    && if ps == [] then "" !in o.m else Faithful(ps)
  }

  lemma DescendsFaithful(root: Value, ps: seq<string>, o: Value, k: string)
    requires Descends(root, ps, o) && k in o.m
    ensures Faithful(ps + [k])
  {
  }

  lemma DescendsFurther(root: Value, ps: seq<string>, o: Value, k: string)
    requires Descends(root, ps, o) && k in o.m && o.m[k].Dict? && KnownIn(At(root, ps).value, k)
    ensures Descends(root, ps + [k], o.m[k])
    ensures At(root, ps + [k]) == Some(At(root, ps).value.m[k])
  {
    DescendsFaithful(root, ps, o, k);
    AtAppend(root, ps, [k]);
    assert At(At(root, ps).value, [k]) == At(At(root, ps).value.m[k], []);
  }

  /** On faithful trees the loop over dotted paths is the merge on positions. */
  lemma {:induction false} OverlayIsFilter(t: Value, o: Value, root: Value, ps: seq<string>)
    requires t.Dict? && Descends(root, ps, o)
    ensures OverlayKeys(t, o, Flatten(root, ""), JoinFrom("", ps), o.m.Keys) == Filter(t, o, At(root, ps).value)
    decreases o
  {
    var s := At(root, ps).value;
    forall k | k in o.m ensures PathJoin(JoinFrom("", ps), k) in Flatten(root, "") <==> KnownIn(s, k) {
      DescendsFaithful(root, ps, o, k);
      KnownPath(root, ps, k);
    }
    forall k | k in o.m && KnownIn(s, k) && Recurses(t, o, k)
      ensures OverlayKeys(t.m[k], o.m[k], Flatten(root, ""), PathJoin(JoinFrom("", ps), k), o.m[k].m.Keys)
           == Filter(t.m[k], o.m[k], s.m[k])
    {
      DescendsFaithful(root, ps, o, k);
      KnownPath(root, ps, k);
      DescendsFurther(root, ps, o, k);
      OverlayIsFilter(t.m[k], o.m[k], root, ps + [k]);
    }
  }

  /** Every dotted path that meets fate `f` is that of a position that meets it. */
  lemma {:induction false} FatedPosition(t: Value, o: Value, root: Value, ps: seq<string>, s: Value, f: Fate,
                                         k: string, p: string)
    returns (ks: seq<string>)
    requires t.Dict? && Descends(root, ps, o) && At(root, ps) == Some(s) && k in o.m
    requires p in FatedAt(t, o, Flatten(root, ""), JoinFrom("", ps), f, k)
    ensures Faithful(ps + ks) && p == JoinFrom("", ps + ks)
    ensures FateOf(t, o, s, ks) == Some(f)
    decreases o
  {
    DescendsFaithful(root, ps, o, k);
    KnownPath(root, ps, k);
    if KnownIn(s, k) && Recurses(t, o, k) {
      DescendsFurther(root, ps, o, k);
      var k' :| k' in o.m[k].m && p in FatedAt(t.m[k], o.m[k], Flatten(root, ""), JoinFrom("", ps + [k]), f, k');
      var rest := FatedPosition(t.m[k], o.m[k], root, ps + [k], s.m[k], f, k', p);
      ks := [k] + rest;
      PathAppend(ps, k, rest);
    } else {
      ks := [k];
    }
  }

  lemma PathAppend(ps: seq<string>, k: string, rest: seq<string>)
    ensures ps + ([k] + rest) == (ps + [k]) + rest && ([k] + rest)[1..] == rest
  {
  }

  /** Every position that meets fate `f` has its dotted path among those that do. */
  lemma {:induction false} PositionFated(t: Value, o: Value, root: Value, ps: seq<string>, f: Fate, ks: seq<string>)
    requires t.Dict? && Descends(root, ps, o)
    requires FateOf(t, o, At(root, ps).value, ks) == Some(f)
    ensures JoinFrom("", ps + ks) in Fated(t, o, Flatten(root, ""), JoinFrom("", ps), f, o.m.Keys)
    decreases o
  {
    var k := ks[0];
    DescendsFaithful(root, ps, o, k);
    KnownPath(root, ps, k);
    if KnownIn(At(root, ps).value, k) && Recurses(t, o, k) {
      DescendsFurther(root, ps, o, k);
      PositionFated(t.m[k], o.m[k], root, ps + [k], f, ks[1..]);
      assert ps + ks == ps + [k] + ks[1..];
    } else {
      assert ks == [k];
    }
    assert JoinFrom("", ps + ks) in FatedAt(t, o, Flatten(root, ""), JoinFrom("", ps), f, k);
  }

  /** For a whole layer: the paths assigned, or warned about, are exactly those
      of the positions assigned, or ignored. */
  lemma FatedIff(t: Value, o: Value, root: Value, f: Fate, ks: seq<string>)
    requires t.Dict? && FaithfulTree(root) && FaithfulTree(o) && Faithful(ks)
    ensures JoinFrom("", ks) in Fated(t, o, Flatten(root, ""), "", f, o.m.Keys) <==> FateOf(t, o, root, ks) == Some(f)
  {
    assert At(root, []) == Some(root) && [] + ks == ks;
    if JoinFrom("", ks) in Fated(t, o, Flatten(root, ""), "", f, o.m.Keys) {
      var k :| k in o.m && JoinFrom("", ks) in FatedAt(t, o, Flatten(root, ""), "", f, k);
      var ks' := FatedPosition(t, o, root, [], root, f, k, JoinFrom("", ks));
      assert [] + ks' == ks';
      PathJoinInjective(ks, ks');
    }
    if FateOf(t, o, root, ks) == Some(f) {
      PositionFated(t, o, root, [], f, ks);
    }
  }

  // ------------------------------------------------- filtered merge, plain merge

  /** The known part of an overlay. */
  function Prune(o: Value, s: Value): Value
    decreases o
  {
    if o.Dict? then Dict(map k | k in o.m && KnownIn(s, k) :: Prune(o.m[k], s.m[k])) else o
  }

  /** Every position of `v` is one of `s`. */
  predicate Within(v: Value, s: Value)
    decreases v
  {
    v.Dict? ==> forall k | k in v.m :: KnownIn(s, k) && Within(v.m[k], s.m[k])
  }

  lemma {:induction false} PruneWithin(v: Value, s: Value)
    ensures Prune(v, s) == v <==> Within(v, s)
    decreases v
  {
    if v.Dict? {
      forall k | k in v.m && KnownIn(s, k) ensures Prune(v.m[k], s.m[k]) == v.m[k] <==> Within(v.m[k], s.m[k]) {
        PruneWithin(v.m[k], s.m[k]);
      }
      var pruned := Prune(v, s).m;
      if Within(v, s) {
        assert pruned == v.m;
      } else {
        var k :| k in v.m && !(KnownIn(s, k) && Within(v.m[k], s.m[k]));
        assert k in pruned ==> pruned[k] != v.m[k];
      }
    }
  }

  /** A mapping that is stored whole, because the target has no mapping to merge
      it into, holds known positions only. */
  predicate StoredKnown(t: Value, o: Value, s: Value)
    requires t.Dict? && o.Dict?
    decreases o
  {
    forall k | k in o.m && KnownIn(s, k) ::
      if Recurses(t, o, k) then StoredKnown(t.m[k], o.m[k], s.m[k]) else Within(o.m[k], s.m[k])
  }

  /** The filtered merge is the plain merge of the pruned overlay exactly when
      no unknown position is smuggled in below a mapping stored whole. */
  lemma {:induction false} FilteredRefinesPlain(t: Value, o: Value, s: Value)
    requires t.Dict? && o.Dict?
    ensures Dict(Filter(t, o, s)) == Merge.Over(t, Prune(o, s)) <==> StoredKnown(t, o, s)
    decreases o
  {
    var pruned := Prune(o, s);
    Merge.OverAt(t, pruned);
    var left, right := Filter(t, o, s), Merge.Over(t, pruned).m;
    assert left.Keys == right.Keys;
    forall k | k in o.m && KnownIn(s, k)
      ensures left[k] == right[k] <==>
              if Recurses(t, o, k) then StoredKnown(t.m[k], o.m[k], s.m[k]) else Within(o.m[k], s.m[k])
    {
      if Recurses(t, o, k) {
        FilteredRefinesPlain(t.m[k], o.m[k], s.m[k]);
      } else {
        PruneWithin(o.m[k], s.m[k]);
        assert left[k] == o.m[k] && right[k] == pruned.m[k];
      }
    }
    forall k | k in left && !(k in o.m && KnownIn(s, k)) ensures left[k] == right[k] {
    }
    if StoredKnown(t, o, s) {
      assert left == right;
    }
  }

  // ------------------------------------------------------- shape-respecting input

  /** `t` has a mapping exactly where the shape has one, and no other keys. */
  predicate Shaped(t: Value, s: Value)
    decreases s
  {
    && t.Dict? && s.Dict? && t.m.Keys <= s.m.Keys
    && (forall k | k in s.m && s.m[k].Dict? :: k in t.m && Shaped(t.m[k], s.m[k]))
    && (forall k | k in t.m && !s.m[k].Dict? :: !t.m[k].Dict?)
  }

  /** Where the overlay is known, it has a mapping exactly where the shape has one. */
  predicate Respects(o: Value, s: Value)
    decreases s
  {
    && o.Dict? && s.Dict?
    && forall k | k in o.m && k in s.m :: if s.m[k].Dict? then Respects(o.m[k], s.m[k]) else !o.m[k].Dict?
  }

  lemma {:induction false} RespectingIsStoredKnown(t: Value, o: Value, s: Value)
    requires Shaped(t, s) && Respects(o, s)
    ensures StoredKnown(t, o, s)
    decreases s
  {
    forall k | k in o.m && KnownIn(s, k)
      ensures if Recurses(t, o, k) then StoredKnown(t.m[k], o.m[k], s.m[k]) else Within(o.m[k], s.m[k])
    {
      if s.m[k].Dict? { RespectingIsStoredKnown(t.m[k], o.m[k], s.m[k]); }
    }
  }

  /** A layer keeps the shape. */
  lemma {:induction false} FilterShaped(t: Value, o: Value, s: Value)
    requires Shaped(t, s) && Respects(o, s)
    ensures Shaped(Dict(Filter(t, o, s)), s)
    decreases s
  {
    forall k | k in s.m && s.m[k].Dict? ensures k in Filter(t, o, s) && Shaped(Filter(t, o, s)[k], s.m[k]) {
      if k in o.m { FilterShaped(t.m[k], o.m[k], s.m[k]); }
    }
  }

  /** What one layer does to a leaf: it wins exactly when it says something there. */
  lemma {:induction false} FilterLeaf(t: Value, o: Value, s: Value, ks: seq<string>)
    requires Shaped(t, s) && Respects(o, s) && LeafAt(s, ks)
    ensures At(Dict(Filter(t, o, s)), ks) == if At(o, ks).Some? then At(o, ks) else At(t, ks)
    ensures FateOf(t, o, s, ks) == if At(o, ks).Some? then Some(Assigned) else None
    decreases s
  {
    var k := ks[0];
    if s.m[k].Dict? {
      if k in o.m { FilterLeaf(t.m[k], o.m[k], s.m[k], ks[1..]); }
    } else {
      assert At(s.m[k], ks[1..]).Some?;
      assert ks[1..] == [];
    }
  }

  // ------------------------------------------------------------- any input at all

  /** Something above position `ks` was replaced outright. */
  ghost predicate ReplacedAbove(t: Value, o: Value, s: Value, ks: seq<string>)
    requires t.Dict? && o.Dict?
  {
    exists n :: 0 < n < |ks| && FateOf(t, o, s, ks[..n]) == Some(Assigned)
  }

  /** Where a leaf of the result comes from, whatever the shapes: from the
      overlay exactly when it, or something above it, was assigned. */
  lemma {:induction false} LeafOrigin(t: Value, o: Value, s: Value, ks: seq<string>)
    requires t.Dict? && o.Dict? && LeafAt(Dict(Filter(t, o, s)), ks)
    ensures At(Dict(Filter(t, o, s)), ks)
         == if ReplacedAbove(t, o, s, ks) || FateOf(t, o, s, ks) == Some(Assigned) then At(o, ks) else At(t, ks)
    decreases o
  {
    var k := ks[0];
    if k in o.m && KnownIn(s, k) {
      if Recurses(t, o, k) {
        LeafOrigin(t.m[k], o.m[k], s.m[k], ks[1..]);
        forall n | 0 < n < |ks|
          ensures FateOf(t, o, s, ks[..n]) == FateOf(t.m[k], o.m[k], s.m[k], ks[1..][..n - 1])
        {
          assert ks[..n][1..] == ks[1..][..n - 1];
        }
        if ReplacedAbove(t.m[k], o.m[k], s.m[k], ks[1..]) {
          var n :| 0 < n < |ks[1..]| && FateOf(t.m[k], o.m[k], s.m[k], ks[1..][..n]) == Some(Assigned);
          assert FateOf(t, o, s, ks[..n + 1]) == Some(Assigned);
        }
      } else {
        assert ks[..1] == [k];
        assert FateOf(t, o, s, [k]) == Some(Assigned);
        assert |ks| == 1 ==> ks == [k];
      }
    } else {
      forall n | 0 < n <= |ks| ensures FateOf(t, o, s, ks[..n]) != Some(Assigned) {
        assert ks[..n][0] == k;
      }
      assert ks[..|ks|] == ks;
    }
  }

  /** The topmost unknown positions: unknown themselves, below a known parent. */
  predicate TopmostUnknown(o: Value, s: Value, ks: seq<string>) {
    ks != [] && At(o, ks).Some? && At(s, ks).None? && At(s, ks[..|ks| - 1]).Some?
  }

  /** Exactly the topmost unknown positions are warned about. */
  lemma {:induction false} WarnedAreTopmostUnknown(t: Value, o: Value, s: Value, ks: seq<string>)
    requires Shaped(t, s) && Respects(o, s)
    ensures FateOf(t, o, s, ks) == Some(Ignored) <==> TopmostUnknown(o, s, ks)
    decreases s
  {
    if ks != [] && ks[0] in o.m {
      var k, parent := ks[0], ks[..|ks| - 1];
      if |ks| == 1 {
        assert parent == [] && ks[1..] == [];
        assert At(o, ks) == Some(o.m[k]);
        if KnownIn(s, k) { assert At(s, ks) == Some(s.m[k]); }
      } else {
        assert parent[0] == k && parent[1..] == ks[1..][..|ks| - 2];
        if KnownIn(s, k) && s.m[k].Dict? {
          WarnedAreTopmostUnknown(t.m[k], o.m[k], s.m[k], ks[1..]);
          assert At(s, parent) == At(s.m[k], ks[1..][..|ks[1..]| - 1]);
        } else if KnownIn(s, k) {
          assert At(o.m[k], ks[1..]).None?;
        } else {
          assert At(s, parent).None?;
        }
      }
    }
  }

  /** Every unknown position is warned about, or lies below one that is. */
  lemma {:induction false} UnknownBelowWarned(o: Value, s: Value, ks: seq<string>) returns (n: nat)
    requires At(o, ks).Some? && At(s, ks).None?
    ensures 1 <= n <= |ks| && TopmostUnknown(o, s, ks[..n])
    decreases ks
  {
    if !KnownIn(s, ks[0]) {
      n := 1;
      assert ks[..1] == [ks[0]] && ks[..1][..0] == [];
      assert At(o.m[ks[0]], []).Some?;
    } else {
      var m := UnknownBelowWarned(o.m[ks[0]], s.m[ks[0]], ks[1..]);
      n := m + 1;
      assert ks[..n][1..] == ks[1..][..m];
      assert ks[..n][..n - 1][1..] == ks[1..][..m][..m - 1];
    }
  }

  // ------------------------------------------------------------ counted and warned

  /** `_overlay_path_counts`: how many flattened paths are allowed, and how many are not. */
  method OverlayPathCounts(overlay: Data, allowed: set<string>) returns (known: nat, unknown: nat)
    ensures known == |Flatten(Dict(overlay), "") * allowed| && unknown == |Flatten(Dict(overlay), "") - allowed|
    ensures known + unknown == |Flatten(Dict(overlay), "")|
  {
    var paths := FlattenConfigPaths(overlay, "");
    var knownPaths := set path | path in paths && path in allowed;
    known, unknown := |knownPaths|, |paths - knownPaths|;
    assert knownPaths == paths * allowed && paths - knownPaths == paths - allowed;
    assert paths == knownPaths + (paths - knownPaths);
  }

  /** On faithful trees a path counts as unknown exactly when its position is unknown. */
  lemma UnknownPathIff(o: Value, s: Value, ks: seq<string>)
    requires FaithfulTree(o) && FaithfulTree(s) && ks != [] && At(o, ks).Some?
    ensures JoinFrom("", ks) in Flatten(o, "")
    ensures JoinFrom("", ks) in Flatten(s, "") <==> At(s, ks).Some?
  {
    FlattenContains(o, "", ks);
    PositionsFaithful(o, ks);
    if At(s, ks).Some? { FlattenContains(s, "", ks); }
    if JoinFrom("", ks) in Flatten(s, "") {
      var ks' := FlattenWitness(s, "", JoinFrom("", ks));
      PositionsFaithful(s, ks');
      PathJoinInjective(ks, ks');
    }
  }

  /** The path itself, or a path above it. */
  predicate AtOrAbove(q: string, path: string) {
    q == path || q + "." <= path
  }

  lemma PrefixAbove(ks: seq<string>, n: nat)
    requires Faithful(ks) && 1 <= n <= |ks|
    ensures AtOrAbove(JoinFrom("", ks[..n]), JoinFrom("", ks)) && Faithful(ks[..n])
  {
    if n < |ks| {
      assert ks == ks[..n] + ks[n..];
      JoinFromAppend("", ks[..n], ks[n..]);
      JoinIsTextJoin(ks[..n]);
      assert JoinFrom("", ks[..n]) != "" by { NotEmptyPath(ks[..n]); }
      JoinFromPrefix(JoinFrom("", ks[..n]), ks[n..]);
    } else {
      assert ks[..n] == ks;
    }
  }

  lemma NotEmptyPath(ks: seq<string>)
    requires Faithful(ks)
    ensures JoinFrom("", ks) != ""
  {
    PathRoundTrip(ks);
  }

  /** Every path counted unknown is warned about, or lies below one that is. */
  lemma CountedIsWarned(t: Value, o: Value, s: Value, path: string) returns (warned: string)
    requires Shaped(t, s) && Respects(o, s) && FaithfulTree(o) && FaithfulTree(s)
    requires path in Flatten(o, "") - Flatten(s, "")
    ensures warned in Fated(t, o, Flatten(s, ""), "", Ignored, o.m.Keys) && AtOrAbove(warned, path)
    ensures warned in Flatten(o, "") - Flatten(s, "")
  {
    var ks := FlattenWitness(o, "", path);
    UnknownPathIff(o, s, ks);
    var n := UnknownBelowWarned(o, s, ks);
    PositionsFaithful(o, ks);
    PrefixAbove(ks, n);
    warned := JoinFrom("", ks[..n]);
    WarnedAreTopmostUnknown(t, o, s, ks[..n]);
    FatedIff(t, o, s, Ignored, ks[..n]);
    UnknownPathIff(o, s, ks[..n]);
  }
}
