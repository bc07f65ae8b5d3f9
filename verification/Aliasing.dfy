/** Layering on dictionary objects: which objects the in-place merge updates, and
    why the layers a caller passes in stay as they are. */
module Aliasing {
  import opened Values
  import opened Paths
  import opened Overlay

  /** A tree of dictionary objects, each with its identity. */
  datatype Node = Leaf(v: Value) | Obj(addr: nat, kids: map<string, Node>)

  /** The value that a tree of objects holds. */
  function Erase(n: Node): Value {
    match n
    case Leaf(v) => v
    case Obj(_, kids) => Dict(map k | k in kids :: Erase(kids[k]))
  }

  /** Every mapping is an object. */
  predicate Whole(n: Node) {
    match n
    case Leaf(v) => !v.Dict?
    case Obj(_, kids) => forall k | k in kids :: Whole(kids[k])
  }

  function Addrs(n: Node): set<nat> {
    match n
    case Leaf(_) => {}
    case Obj(addr, kids) => {addr} + set k, a | k in kids && a in Addrs(kids[k]) :: a
  }

  predicate Both(t: Node, o: Node, k: string)
    requires t.Obj? && o.Obj? && k in o.kids
  {
    k in t.kids && t.kids[k].Obj? && o.kids[k].Obj?
  }

  /** `_merge_config_overlay` on objects: the target's objects stay, what is assigned
      is the overlay's own object. */
  function InPlace(t: Node, o: Node, allowed: set<string>, prefix: string): Node
    requires t.Obj? && o.Obj?
    decreases o
  {
    Obj(t.addr, map k | k in t.kids.Keys + (set k | k in o.kids && PathJoin(prefix, k) in allowed) ::
      if !(k in o.kids && PathJoin(prefix, k) in allowed) then t.kids[k]
      else if Both(t, o, k) then InPlace(t.kids[k], o.kids[k], allowed, PathJoin(prefix, k))
      else o.kids[k])
  }

  /** The objects that handling one key updates. */
  function UpdatesAt(t: Node, o: Node, allowed: set<string>, prefix: string, k: string): set<nat>
    requires t.Obj? && o.Obj? && k in o.kids
    decreases o
  {
    if PathJoin(prefix, k) !in allowed then {}
    else if Both(t, o, k) then
      set k', a | k' in o.kids[k].kids && a in UpdatesAt(t.kids[k], o.kids[k], allowed, PathJoin(prefix, k), k') :: a
    else {t.addr}
  }

  function Updates(t: Node, o: Node, allowed: set<string>, prefix: string): set<nat>
    requires t.Obj? && o.Obj?
  {
    set k, a | k in o.kids && a in UpdatesAt(t, o, allowed, prefix, k) :: a
  }

  /** Objects and values tell the same story. */
  lemma {:induction false} ErasedMerge(t: Node, o: Node, allowed: set<string>, prefix: string)
    requires t.Obj? && o.Obj? && Whole(t) && Whole(o)
    ensures Erase(InPlace(t, o, allowed, prefix)) == Dict(OverlayKeys(Erase(t), Erase(o), allowed, prefix, o.kids.Keys))
    decreases o
  {
    var merged, values := InPlace(t, o, allowed, prefix), OverlayKeys(Erase(t), Erase(o), allowed, prefix, o.kids.Keys);
    assert Erase(t).m.Keys == t.kids.Keys && Erase(o).m.Keys == o.kids.Keys;
    assert merged.kids.Keys == values.Keys;
    forall k | k in merged.kids ensures Erase(merged.kids[k]) == values[k] {
      if k in o.kids && PathJoin(prefix, k) in allowed {
        ErasedKind(o.kids[k]);
        if k in t.kids { ErasedKind(t.kids[k]); }
        assert Recurses(Erase(t), Erase(o), k) <==> Both(t, o, k);
        if Both(t, o, k) {
          ErasedMerge(t.kids[k], o.kids[k], allowed, PathJoin(prefix, k));
          assert Erase(o.kids[k]).m.Keys == o.kids[k].kids.Keys;
        }
      }
    }
  }

  lemma ErasedKind(n: Node)
    requires Whole(n)
    ensures Erase(n).Dict? <==> n.Obj?
  {
  }

  /** Only the target's own objects are updated. */
  lemma {:induction false} UpdatesTarget(t: Node, o: Node, allowed: set<string>, prefix: string, k: string)
    requires t.Obj? && o.Obj? && k in o.kids
    ensures UpdatesAt(t, o, allowed, prefix, k) <= Addrs(t)
    decreases o
  {
    if PathJoin(prefix, k) in allowed && Both(t, o, k) {
      forall k' | k' in o.kids[k].kids ensures UpdatesAt(t.kids[k], o.kids[k], allowed, PathJoin(prefix, k), k') <= Addrs(t.kids[k]) {
        UpdatesTarget(t.kids[k], o.kids[k], allowed, PathJoin(prefix, k), k');
      }
    }
  }

  /** The target then holds objects of its own and of the overlay. */
  lemma {:induction false} AdoptsOverlay(t: Node, o: Node, allowed: set<string>, prefix: string)
    requires t.Obj? && o.Obj?
    ensures Addrs(InPlace(t, o, allowed, prefix)) <= Addrs(t) + Addrs(o)
    decreases o
  {
    var merged := InPlace(t, o, allowed, prefix);
    forall k | k in merged.kids ensures Addrs(merged.kids[k]) <= Addrs(t) + Addrs(o) {
      if k in o.kids && PathJoin(prefix, k) in allowed && Both(t, o, k) {
        AdoptsOverlay(t.kids[k], o.kids[k], allowed, PathJoin(prefix, k));
      }
    }
  }

  /** The node at a position. */
  function NodeAt(n: Node, ks: seq<string>): Option<Node> {
    if ks == [] then Some(n)
    else if n.Obj? && ks[0] in n.kids then NodeAt(n.kids[ks[0]], ks[1..])
    else None
  }

  /** The same dictionary entries: equal leaves, or the very same objects. */
  predicate SameEntries(kids: map<string, Node>, kids': map<string, Node>) {
    && kids.Keys == kids'.Keys
    && forall k | k in kids :: kids'[k] == kids[k] || (kids[k].Obj? && kids'[k].Obj? && kids'[k].addr == kids[k].addr)
  }

  lemma {:induction false} AddrAt(n: Node, ks: seq<string>)
    requires NodeAt(n, ks).Some? && NodeAt(n, ks).value.Obj?
    ensures NodeAt(n, ks).value.addr in Addrs(n)
    decreases ks
  {
    if ks != [] { AddrAt(n.kids[ks[0]], ks[1..]); }
  }

  /** An object of the target that the merge leaves in its place without updating it has
      the entries it had; and whatever comes from the overlay comes as it was. */
  lemma {:induction false} NotUpdatedKept(t: Node, o: Node, allowed: set<string>, prefix: string, ks: seq<string>)
    requires t.Obj? && o.Obj? && Addrs(t) !! Addrs(o)
    requires NodeAt(t, ks).Some? && NodeAt(t, ks).value.Obj?
    requires var found := NodeAt(InPlace(t, o, allowed, prefix), ks);
             found.Some? && found.value.Obj? && found.value.addr == NodeAt(t, ks).value.addr
    ensures NodeAt(t, ks).value.addr !in Updates(t, o, allowed, prefix) ==>
              SameEntries(NodeAt(t, ks).value.kids, NodeAt(InPlace(t, o, allowed, prefix), ks).value.kids)
    decreases ks
  {
    var merged := InPlace(t, o, allowed, prefix);
    if ks == [] {
      if t.addr !in Updates(t, o, allowed, prefix) {
        forall k | k in o.kids && PathJoin(prefix, k) in allowed ensures Both(t, o, k) {
          if !Both(t, o, k) { assert t.addr in UpdatesAt(t, o, allowed, prefix, k); }
        }
        assert merged.kids.Keys == t.kids.Keys;
      }
    } else {
      var k := ks[0];
      if k in o.kids && PathJoin(prefix, k) in allowed {
        AddrAt(t, ks);
        if Both(t, o, k) {
          assert Addrs(t.kids[k]) <= Addrs(t) && Addrs(o.kids[k]) <= Addrs(o);
          UpdatesInner(t, o, allowed, prefix, k);
          NotUpdatedKept(t.kids[k], o.kids[k], allowed, PathJoin(prefix, k), ks[1..]);
        } else {
          AddrAt(o.kids[k], ks[1..]);
          assert false;
        }
      }
    }
  }

  lemma UpdatesInner(t: Node, o: Node, allowed: set<string>, prefix: string, k: string)
    requires t.Obj? && o.Obj? && k in o.kids && PathJoin(prefix, k) in allowed && Both(t, o, k)
    ensures Updates(t.kids[k], o.kids[k], allowed, PathJoin(prefix, k)) <= Updates(t, o, allowed, prefix)
  {
    forall a | a in Updates(t.kids[k], o.kids[k], allowed, PathJoin(prefix, k)) ensures a in Updates(t, o, allowed, prefix) {
      assert a in UpdatesAt(t, o, allowed, prefix, k);
    }
  }

  // ------------------------------------------------------------------ fresh copies

  /** A deep copy: every object at a new place, sharing inside the tree preserved. */
  function Copy(n: Node, offset: nat): Node {
    match n
    case Leaf(v) => Leaf(v)
    case Obj(addr, kids) => Obj(addr + offset, map k | k in kids :: Copy(kids[k], offset))
  }

  lemma {:induction false} CopyErases(n: Node, offset: nat)
    ensures Erase(Copy(n, offset)) == Erase(n) && (Whole(n) ==> Whole(Copy(n, offset)))
  {
    if n.Obj? {
      forall k | k in n.kids
        ensures Erase(Copy(n.kids[k], offset)) == Erase(n.kids[k]) && (Whole(n.kids[k]) ==> Whole(Copy(n.kids[k], offset)))
      {
        CopyErases(n.kids[k], offset);
      }
    }
  }

  /** The copy's objects are the original's, moved. */
  lemma {:induction false} CopyMoves(n: Node, offset: nat, a: nat)
    ensures a in Addrs(n) <==> a + offset in Addrs(Copy(n, offset))
    ensures a in Addrs(Copy(n, offset)) ==> a >= offset
  {
    if n.Obj? {
      var copy := Copy(n, offset);
      forall k | k in n.kids
        ensures a in Addrs(n.kids[k]) <==> a + offset in Addrs(copy.kids[k])
        ensures a in Addrs(copy.kids[k]) ==> a >= offset
      {
        CopyMoves(n.kids[k], offset, a);
      }
    }
  }

  /** The layers merged in turn, each as a copy at its own offset. */
  function Layered(t: Node, layers: seq<Node>, offsets: seq<nat>, allowed: set<string>): Node
    requires t.Obj? && |offsets| == |layers| && forall i | 0 <= i < |layers| :: layers[i].Obj?
    ensures Layered(t, layers, offsets, allowed).Obj?
  {
    if layers == [] then t
    else
      var n := |layers| - 1;
      InPlace(Layered(t, layers[..n], offsets[..n], allowed), Copy(layers[n], offsets[n]), allowed, "")
  }

  /** Every object updated on the way. */
  function AllUpdates(t: Node, layers: seq<Node>, offsets: seq<nat>, allowed: set<string>): set<nat>
    requires t.Obj? && |offsets| == |layers| && forall i | 0 <= i < |layers| :: layers[i].Obj?
  {
    if layers == [] then {}
    else
      var n := |layers| - 1;
      AllUpdates(t, layers[..n], offsets[..n], allowed)
      + Updates(Layered(t, layers[..n], offsets[..n], allowed), Copy(layers[n], offsets[n]), allowed, "")
  }

  /** The defaults and the copies are objects that no caller has. */
  predicate Fresh(t: Node, layers: seq<Node>, offsets: seq<nat>, given: set<nat>)
    requires |offsets| == |layers|
  {
    Addrs(t) !! given && forall i | 0 <= i < |layers| :: Addrs(Copy(layers[i], offsets[i])) !! given
  }

  /** Offsets beyond every given object do. */
  lemma OffsetsFresh(t: Node, layers: seq<Node>, offsets: seq<nat>, given: set<nat>)
    requires |offsets| == |layers| && Addrs(t) !! given
    requires forall i, a | 0 <= i < |layers| && a in given :: a < offsets[i]
    ensures Fresh(t, layers, offsets, given)
  {
    forall i | 0 <= i < |layers| ensures Addrs(Copy(layers[i], offsets[i])) !! given {
      forall a | a in Addrs(Copy(layers[i], offsets[i])) ensures a !in given { CopyMoves(layers[i], offsets[i], a); }
    }
  }

  /** No object that a caller passed in is ever updated, nor does the result hold one. */
  lemma {:induction false} LayersUntouched(t: Node, layers: seq<Node>, offsets: seq<nat>, allowed: set<string>, given: set<nat>)
    requires t.Obj? && |offsets| == |layers| && forall i | 0 <= i < |layers| :: layers[i].Obj?
    requires Fresh(t, layers, offsets, given)
    ensures AllUpdates(t, layers, offsets, allowed) !! given
    ensures Addrs(Layered(t, layers, offsets, allowed)) !! given
  {
    if layers != [] {
      var n := |layers| - 1;
      LayersUntouched(t, layers[..n], offsets[..n], allowed, given);
      var before, copy := Layered(t, layers[..n], offsets[..n], allowed), Copy(layers[n], offsets[n]);
      AdoptsOverlay(before, copy, allowed, "");
      forall k | k in copy.kids ensures UpdatesAt(before, copy, allowed, "", k) <= Addrs(before) {
        UpdatesTarget(before, copy, allowed, "", k);
      }
    }
  }

  /** Without copies it would fail: a section that an earlier layer brought in whole
      is the earlier layer's own object, and the next layer writes into it. */
  lemma CopiesNeeded(allowed: set<string>)
    requires "x" in allowed && "x.k" in allowed
    ensures var defaults := Obj(0, map["x" := Leaf(Null)]);
            var first, second := Obj(1, map["x" := Obj(2, map[])]), Obj(3, map["x" := Obj(4, map["k" := Leaf(Int(1))])]);
            2 in Addrs(first) && 2 in Updates(InPlace(defaults, first, allowed, ""), second, allowed, "")
  {
    var defaults := Obj(0, map["x" := Leaf(Null)]);
    var first, second := Obj(1, map["x" := Obj(2, map[])]), Obj(3, map["x" := Obj(4, map["k" := Leaf(Int(1))])]);
    var merged := InPlace(defaults, first, allowed, "");
    assert merged.kids["x"] == Obj(2, map[]);
    assert 2 in Addrs(first.kids["x"]) && "x" in first.kids;
    assert PathJoin("x", "k") == "x.k";
    assert "k" in second.kids["x"].kids && 2 in UpdatesAt(merged.kids["x"], second.kids["x"], allowed, "x", "k");
    assert 2 in UpdatesAt(merged, second, allowed, "", "x");
  }
}
