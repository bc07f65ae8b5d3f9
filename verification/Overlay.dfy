/** The filtered merge (`_merge_config_overlay`): only known paths are taken from
    a layer, every assignment is recorded in the provenance mapping and every
    unknown key is warned about. */
module Overlay {
  import opened Values
  import opened Paths

  datatype Warning = Warning(key: string, source: string)

  // ------------------------------------------- what the loop does, on dotted paths

  predicate Recurses(t: Value, o: Value, k: string)
    requires t.Dict? && o.Dict? && k in o.m
  {
    k in t.m && t.m[k].Dict? && o.m[k].Dict?
  }

  /** The target after the overlay's keys `done` have been handled. */
  function OverlayKeys(t: Value, o: Value, allowed: set<string>, prefix: string, done: set<string>): Data
    requires t.Dict? && o.Dict? && done <= o.m.Keys
    decreases o
  {
    map k | k in t.m.Keys + (set k | k in done && PathJoin(prefix, k) in allowed) ::
      if !(k in done && PathJoin(prefix, k) in allowed) then t.m[k]
      else if Recurses(t, o, k) then
        Dict(OverlayKeys(t.m[k], o.m[k], allowed, PathJoin(prefix, k), o.m[k].m.Keys))
      else o.m[k]
  }

  /** What can become of a path of the overlay. */
  datatype Fate = Assigned | Ignored

  /** The dotted paths that meet fate `f` while key `k` is handled. */
  function FatedAt(t: Value, o: Value, allowed: set<string>, prefix: string, f: Fate, k: string): set<string>
    requires t.Dict? && o.Dict? && k in o.m
    decreases o
  {
    var path := PathJoin(prefix, k);
    if path !in allowed then (if f == Ignored then {path} else {})
    else if Recurses(t, o, k) then
      set k', p | k' in o.m[k].m && p in FatedAt(t.m[k], o.m[k], allowed, path, f, k') :: p
    else (if f == Assigned then {path} else {})
  }

  function Fated(t: Value, o: Value, allowed: set<string>, prefix: string, f: Fate, done: set<string>): set<string>
    requires t.Dict? && o.Dict? && done <= o.m.Keys
  {
    set k, p | k in done && p in FatedAt(t, o, allowed, prefix, f, k) :: p
  }

  function Stamp(paths: set<string>, source: string): map<string, string> {
    map p | p in paths :: source
  }

  ghost function Keys(ws: seq<Warning>): set<string> {
    set i | 0 <= i < |ws| :: ws[i].key
  }

  method MergeConfigOverlay(target: Data, overlay: Data, source: string, provenance: map<string, string>,
                            allowed: set<string>, prefix: string)
    returns (merged: Data, recorded: map<string, string>, warnings: seq<Warning>)
    ensures merged == OverlayKeys(Dict(target), Dict(overlay), allowed, prefix, overlay.Keys)
    ensures recorded == provenance + Stamp(Fated(Dict(target), Dict(overlay), allowed, prefix, Assigned, overlay.Keys), source)
    ensures Keys(warnings) == Fated(Dict(target), Dict(overlay), allowed, prefix, Ignored, overlay.Keys)
    ensures forall w | w in warnings :: w.source == source
    decreases Dict(overlay), 1
  {
    ghost var t, o := Dict(target), Dict(overlay);
    merged, recorded, warnings := target, provenance, [];
    var todo := overlay.Keys;
    assert overlay.Keys - todo == {};
    while todo != {}
      invariant todo <= overlay.Keys
      invariant merged == OverlayKeys(t, o, allowed, prefix, overlay.Keys - todo)
      invariant recorded == provenance + Stamp(Fated(t, o, allowed, prefix, Assigned, overlay.Keys - todo), source)
      invariant Keys(warnings) == Fated(t, o, allowed, prefix, Ignored, overlay.Keys - todo)
      invariant forall w | w in warnings :: w.source == source
    {
      var key :| key in todo;
      ghost var done := overlay.Keys - todo;
      ghost var before, stamped := merged, recorded;
      assert (key in merged <==> key in target) && (key in target ==> merged[key] == target[key]);
      var more;
      merged, recorded, more := MergeKey(merged, target, overlay, source, recorded, allowed, prefix, key);
      KeysAppend(warnings, more);
      warnings := warnings + more;
      todo := todo - {key};
      assert overlay.Keys - todo == done + {key};
      StepData(t, o, allowed, prefix, done, key, before, merged);
      StepFated(t, o, allowed, prefix, Assigned, done, key);
      StampTwice(provenance, Fated(t, o, allowed, prefix, Assigned, done), FatedAt(t, o, allowed, prefix, Assigned, key), source);
      StepFated(t, o, allowed, prefix, Ignored, done, key);
    }
    assert overlay.Keys - todo == overlay.Keys;
  }

  /** One turn of the loop. `original` is the target before the loop started. */
  method MergeKey(target: Data, ghost original: Data, overlay: Data, source: string, provenance: map<string, string>,
                  allowed: set<string>, prefix: string, key: string)
    returns (merged: Data, recorded: map<string, string>, warnings: seq<Warning>)
    requires key in overlay
    requires (key in target <==> key in original) && (key in original ==> target[key] == original[key])
    ensures merged == StepOf(Dict(original), Dict(overlay), allowed, prefix, key, target)
    ensures recorded == provenance + Stamp(FatedAt(Dict(original), Dict(overlay), allowed, prefix, Assigned, key), source)
    ensures Keys(warnings) == FatedAt(Dict(original), Dict(overlay), allowed, prefix, Ignored, key)
    ensures forall w | w in warnings :: w.source == source
    decreases Dict(overlay), 0
  {
    var path := PathJoin(prefix, key);
    var value := overlay[key];
    merged, recorded, warnings := target, provenance, [];
    if path !in allowed {
      warnings := [Warning(path, source)];
      KeysAppend([], warnings);
    } else if key in target && target[key].Dict? && value.Dict? {
      var inner;
      inner, recorded, warnings := MergeConfigOverlay(target[key].m, value.m, source, provenance, allowed, path);
      merged := target[key := Dict(inner)];
    } else {
      merged := target[key := value];
      recorded := provenance[path := source];
    }
  }

  ghost function StepOf(t: Value, o: Value, allowed: set<string>, prefix: string, key: string, before: Data): Data
    requires t.Dict? && o.Dict? && key in o.m
  {
    if PathJoin(prefix, key) !in allowed then before
    else if Recurses(t, o, key) then
      before[key := Dict(OverlayKeys(t.m[key], o.m[key], allowed, PathJoin(prefix, key), o.m[key].m.Keys))]
    else before[key := o.m[key]]
  }

  lemma KeysAppend(a: seq<Warning>, b: seq<Warning>)
    ensures Keys(a + b) == Keys(a) + Keys(b)
    ensures forall p, s :: Keys([Warning(p, s)]) == {p}
  {
    forall p | p in Keys(a) + Keys(b) ensures p in Keys(a + b) {
      if p in Keys(a) {
        var i :| 0 <= i < |a| && a[i].key == p;
        assert (a + b)[i].key == p;
      } else {
        var i :| 0 <= i < |b| && b[i].key == p;
        assert (a + b)[|a| + i].key == p;
      }
    }
    forall p, s ensures Keys([Warning(p, s)]) == {p} {
      assert [Warning(p, s)][0].key == p;
    }
  }

  lemma StepData(t: Value, o: Value, allowed: set<string>, prefix: string, done: set<string>, key: string,
                 before: Data, after: Data)
    requires t.Dict? && o.Dict? && done <= o.m.Keys && key in o.m && key !in done
    requires before == OverlayKeys(t, o, allowed, prefix, done)
    requires after == StepOf(t, o, allowed, prefix, key, before)
    ensures after == OverlayKeys(t, o, allowed, prefix, done + {key})
  {
  }

  lemma StepFated(t: Value, o: Value, allowed: set<string>, prefix: string, f: Fate, done: set<string>, key: string)
    requires t.Dict? && o.Dict? && done <= o.m.Keys && key in o.m && key !in done
    ensures Fated(t, o, allowed, prefix, f, done + {key})
         == Fated(t, o, allowed, prefix, f, done) + FatedAt(t, o, allowed, prefix, f, key)
  {
  }

  lemma StampTwice(base: map<string, string>, a: set<string>, b: set<string>, source: string)
    ensures base + Stamp(a, source) + Stamp(b, source) == base + Stamp(a + b, source)
  {
  }
}
