/** Dotted paths: the strings that stand for tree positions in the provenance
    mapping, in the set of known paths and in warnings. */
module Paths {
  import opened Values
  import Text

  function PathJoin(prefix: string, key: string): string {
    if prefix != "" then prefix + "." + key else key
  }

  /** The dotted path reached from `prefix` by descending through `ks`. */
  function JoinFrom(prefix: string, ks: seq<string>): string
    decreases |ks|
  {
    if ks == [] then prefix else JoinFrom(PathJoin(prefix, ks[0]), ks[1..])
  }

  predicate DotFree(key: string) {
    '.' !in key
  }

  /** The positions whose dotted path is faithful. */
  predicate Faithful(ks: seq<string>) {
    ks != [] && ks[0] != "" && forall i :: 0 <= i < |ks| ==> DotFree(ks[i])
  }

  lemma {:induction false} JoinFromPrefix(prefix: string, ks: seq<string>)
    requires prefix != "" && ks != []
    ensures JoinFrom(prefix, ks) == prefix + "." + Text.Join(ks, '.')
    decreases |ks|
  {
    if |ks| > 1 {
      JoinFromPrefix(PathJoin(prefix, ks[0]), ks[1..]);
    }
  }

  lemma JoinIsTextJoin(ks: seq<string>)
    requires ks != [] && ks[0] != ""
    ensures JoinFrom("", ks) == Text.Join(ks, '.')
  {
    if |ks| > 1 { JoinFromPrefix(ks[0], ks[1..]); }
  }

  /** Splitting a dotted path at the dots gives the position back. */
  lemma PathRoundTrip(ks: seq<string>)
    requires Faithful(ks)
    ensures Text.Split(JoinFrom("", ks), '.') == ks
  {
    JoinIsTextJoin(ks);
    Text.SplitJoin(ks, '.');
  }

  /** Dotted paths name faithful positions uniquely. */
  lemma PathJoinInjective(ks: seq<string>, ks': seq<string>)
    requires Faithful(ks) && Faithful(ks')
    requires JoinFrom("", ks) == JoinFrom("", ks')
    ensures ks == ks'
  {
    PathRoundTrip(ks);
    PathRoundTrip(ks');
  }

  /** Neither condition of Faithful can go: a dotted key and an empty first key both collide. */
  lemma PathJoinCollides()
    ensures JoinFrom("", ["a.b"]) == JoinFrom("", ["a", "b"])
    ensures JoinFrom("", ["", "b"]) == JoinFrom("", ["b"])
  {
    assert JoinFrom("", ["a", "b"]) == JoinFrom("a", ["b"]) == JoinFrom("a.b", []);
    assert JoinFrom("", ["a.b"]) == JoinFrom("a.b", []);
    assert JoinFrom("", ["", "b"]) == JoinFrom("", ["b"]);
  }

  lemma {:induction false} JoinFromAppend(prefix: string, ks: seq<string>, more: seq<string>)
    ensures JoinFrom(prefix, ks + more) == JoinFrom(JoinFrom(prefix, ks), more)
    decreases |ks|
  {
    if ks == [] {
      assert ks + more == more;
    } else {
      JoinFromAppend(PathJoin(prefix, ks[0]), ks[1..], more);
      assert (ks + more)[1..] == ks[1..] + more;
    }
  }

  // -------------------------------------------------------------- flattening

  /** Every dotted path of a mapping, inner mappings included. */
  function Flatten(v: Value, prefix: string): set<string> {
    if !v.Dict? then {}
    else
      (set k | k in v.m :: PathJoin(prefix, k)) +
      (set k, p | k in v.m && p in Flatten(v.m[k], PathJoin(prefix, k)) :: p)
  }

  /** Flattening yields exactly the dotted paths of the tree's positions. */
  lemma {:induction false} FlattenMeaning(v: Value, prefix: string, p: string)
    ensures p in Flatten(v, prefix) <==>
            exists ks :: ks != [] && At(v, ks).Some? && JoinFrom(prefix, ks) == p
  {
    if p in Flatten(v, prefix) {
      var ks := FlattenWitness(v, prefix, p);
    }
    if exists ks :: ks != [] && At(v, ks).Some? && JoinFrom(prefix, ks) == p {
      var ks :| ks != [] && At(v, ks).Some? && JoinFrom(prefix, ks) == p;
      FlattenContains(v, prefix, ks);
    }
  }

  lemma {:induction false} FlattenContains(v: Value, prefix: string, ks: seq<string>)
    requires ks != [] && At(v, ks).Some?
    ensures JoinFrom(prefix, ks) in Flatten(v, prefix)
  {
    if |ks| == 1 {
      assert JoinFrom(prefix, ks) == PathJoin(prefix, ks[0]);
    } else {
      FlattenContains(v.m[ks[0]], PathJoin(prefix, ks[0]), ks[1..]);
    }
  }

  lemma {:induction false} FlattenWitness(v: Value, prefix: string, p: string) returns (ks: seq<string>)
    requires p in Flatten(v, prefix)
    ensures ks != [] && At(v, ks).Some? && JoinFrom(prefix, ks) == p
    decreases v
  {
    if k :| k in v.m && p == PathJoin(prefix, k) {
      ks := [k];
      assert At(v.m[k], []) == Some(v.m[k]);
    } else {
      var k :| k in v.m && p in Flatten(v.m[k], PathJoin(prefix, k));
      var rest := FlattenWitness(v.m[k], PathJoin(prefix, k), p);
      ks := [k] + rest;
      assert ks[1..] == rest;
    }
  }

  /** The part of Flatten that the keys `done` contribute. */
  ghost function FlattenKeys(data: Data, prefix: string, done: set<string>): set<string>
    requires done <= data.Keys
  {
    set k, p | k in done && p in FlattenAt(data, prefix, k) :: p
  }

  ghost function FlattenAt(data: Data, prefix: string, k: string): set<string>
    requires k in data
  {
    {PathJoin(prefix, k)} + Flatten(data[k], PathJoin(prefix, k))
  }

  lemma FlattenStep(data: Data, prefix: string, done: set<string>, k: string)
    requires done <= data.Keys && k in data
    ensures FlattenKeys(data, prefix, done + {k}) == FlattenKeys(data, prefix, done) + FlattenAt(data, prefix, k)
  {
  }

  lemma FlattenAll(data: Data, prefix: string)
    ensures FlattenKeys(data, prefix, data.Keys) == Flatten(Dict(data), prefix)
  {
    forall p | p in Flatten(Dict(data), prefix) ensures p in FlattenKeys(data, prefix, data.Keys) {
      var k :| k in data && (p == PathJoin(prefix, k) || p in Flatten(data[k], PathJoin(prefix, k)));
      assert p in FlattenAt(data, prefix, k);
    }
  }

  /** The recursive loop of the source. */
  method FlattenConfigPaths(data: Data, prefix: string) returns (paths: set<string>)
    ensures paths == Flatten(Dict(data), prefix)
    decreases Dict(data)
  {
    paths := {};
    var todo := data.Keys;
    while todo != {}
      invariant todo <= data.Keys
      invariant paths == FlattenKeys(data, prefix, data.Keys - todo)
    {
      var k :| k in todo;
      FlattenStep(data, prefix, data.Keys - todo, k);
      var path := PathJoin(prefix, k);
      paths := paths + {path};
      if data[k].Dict? {
        var inner := FlattenConfigPaths(data[k].m, path);
        paths := paths + inner;
      }
      assert data.Keys - (todo - {k}) == (data.Keys - todo) + {k};
      todo := todo - {k};
    }
    FlattenAll(data, prefix);
    assert data.Keys - todo == data.Keys;
  }
}
