/** The asset manifest and the per-application cache that is keyed by content. */
module ManifestCache {
  import opened Values

  datatype File = Readable(text: string) | Undecodable

  type Disk = map<string, File>

  datatype Outcome =
    | Loaded(manifest: Data)
    | Missing | BadEncoding | BadJson | Unexpected(message: string) | NotObject | NoBundles

  datatype Slot = Slot(path: string, text: string, manifest: Data)

  /** Parse and validate a text. */
  function Checked(decode: string -> Decoded, text: string): Outcome {
    match decode(text)
    case NotJson => BadJson
    case Broken(message) => Unexpected(message)
    case Json(v) =>
      if !v.Dict? then NotObject
      else if "bundles" !in v.m || !v.m["bundles"].Dict? then NoBundles
      else Loaded(v.m)
  }

  /** An uncached load. */
  function Fresh(decode: string -> Decoded, disk: Disk, path: string): Outcome {
    if path !in disk then Missing
    else if disk[path].Undecodable? then BadEncoding
    else Checked(decode, disk[path].text)
  }

  /** Only what was parsed and validated is stored. */
  predicate Honest(decode: string -> Decoded, cache: Option<Slot>) {
    cache.Some? ==> Checked(decode, cache.value.text) == Loaded(cache.value.manifest)
  }

  class App {
    var cache: Option<Slot>

    constructor ()
      ensures cache == None
    {
      cache := None;
    }

    /** `_load_asset_manifest`; `path` is what the configured path resolves to now. */
    method Load(decode: string -> Decoded, disk: Disk, path: string) returns (o: Outcome)
      requires Honest(decode, cache)
      modifies this
      ensures o == Fresh(decode, disk, path)
      ensures Honest(decode, cache)
      ensures cache == CacheAfter(decode, old(cache), disk, path)
    {
      if path !in disk { return Missing; }
      if disk[path].Undecodable? { return BadEncoding; }
      var text := disk[path].text;
      if cache.Some? && cache.value.path == path && cache.value.text == text {
        return Loaded(cache.value.manifest);
      }
      var d := decode(text);
      if d.NotJson? { return BadJson; }
      if d.Broken? { return Unexpected(d.message); }
      if !d.value.Dict? { return NotObject; }
      if "bundles" !in d.value.m || !d.value.m["bundles"].Dict? { return NoBundles; }
      cache := Some(Slot(path, text, d.value.m));
      return Loaded(d.value.m);
    }
  }

  /** A load that succeeds leaves what it read in the slot; a failed one leaves the slot alone. */
  function CacheAfter(decode: string -> Decoded, cache: Option<Slot>, disk: Disk, path: string): Option<Slot> {
    match Fresh(decode, disk, path)
    case Loaded(manifest) => Some(Slot(path, disk[path].text, manifest))
    case _ => cache
  }

  // -------------------------------------------------------------- edits and loads

  /** Several applications share the disk; `target` is what the configured path resolves to. */
  datatype World = World(disk: Disk, target: string, caches: map<nat, Slot>)

  /** A load outside an application context has no cache. */
  datatype Event =
    | Edit(path: string, file: File)
    | Remove(path: string)
    | Retarget(path: string)
    | Load(app: Option<nat>)

  function CacheOf(w: World, app: Option<nat>): Option<Slot> {
    if app.Some? && app.value in w.caches then Some(w.caches[app.value]) else None
  }

  /** The loader with its cache: the slot answers when path and text are the same. */
  function Cached(decode: string -> Decoded, cache: Option<Slot>, disk: Disk, path: string): Outcome {
    if path in disk && disk[path].Readable? && cache.Some? && cache.value.path == path && cache.value.text == disk[path].text
    then Loaded(cache.value.manifest)
    else Fresh(decode, disk, path)
  }

  function Next(decode: string -> Decoded, w: World, e: Event): World {
    match e
    case Edit(path, file) => w.(disk := w.disk[path := file])
    case Remove(path) => w.(disk := w.disk - {path})
    case Retarget(path) => w.(target := path)
    case Load(app) =>
      var o := Cached(decode, CacheOf(w, app), w.disk, w.target);
      if app.Some? && o.Loaded? && w.target in w.disk && w.disk[w.target].Readable?
      then w.(caches := w.caches[app.value := Slot(w.target, w.disk[w.target].text, o.manifest)])
      else w
  }

  function Run(decode: string -> Decoded, w: World, events: seq<Event>): World {
    if events == [] then w else Next(decode, Run(decode, w, events[..|events| - 1]), events[|events| - 1])
  }

  ghost predicate AllHonest(decode: string -> Decoded, w: World) {
    forall a :: a in w.caches ==> Honest(decode, Some(w.caches[a]))
  }

  lemma CachedIsFresh(decode: string -> Decoded, cache: Option<Slot>, disk: Disk, path: string)
    requires Honest(decode, cache)
    ensures Cached(decode, cache, disk, path) == Fresh(decode, disk, path)
  {
  }

  lemma {:induction false} RunHonest(decode: string -> Decoded, w: World, events: seq<Event>)
    requires AllHonest(decode, w)
    ensures AllHonest(decode, Run(decode, w, events))
  {
    if events != [] {
      var before := Run(decode, w, events[..|events| - 1]);
      RunHonest(decode, w, events[..|events| - 1]);
      var e := events[|events| - 1];
      if e.Load? { CachedIsFresh(decode, CacheOf(before, e.app), before.disk, before.target); }
    }
  }

  /** What edits alone make of the disk and the path. */
  function Edited(disk: Disk, target: string, events: seq<Event>): (Disk, string) {
    if events == [] then (disk, target)
    else
      var before := Edited(disk, target, events[..|events| - 1]);
      match events[|events| - 1]
      case Edit(path, file) => (before.0[path := file], before.1)
      case Remove(path) => (before.0 - {path}, before.1)
      case Retarget(path) => (before.0, path)
      case Load(_) => before
  }

  lemma {:induction false} LoadsEditNothing(decode: string -> Decoded, w: World, events: seq<Event>)
    ensures (Run(decode, w, events).disk, Run(decode, w, events).target) == Edited(w.disk, w.target, events)
  {
    hide Cached;
    if events != [] { LoadsEditNothing(decode, w, events[..|events| - 1]); }
  }

  /** After any sequence of edits, removals and loads by any applications, the next
      load answers or fails as one that never saw a cache. */
  lemma EveryLoadIsFresh(decode: string -> Decoded, disk: Disk, target: string, events: seq<Event>, app: Option<nat>)
    ensures var w := Run(decode, World(disk, target, map[]), events);
            var now := Edited(disk, target, events);
            Cached(decode, CacheOf(w, app), w.disk, w.target) == Fresh(decode, now.0, now.1)
  {
    hide Cached, Fresh, Run, Edited;
    var w0 := World(disk, target, map[]);
    RunHonest(decode, w0, events);
    LoadsEditNothing(decode, w0, events);
    var w := Run(decode, w0, events);
    CachedIsFresh(decode, CacheOf(w, app), w.disk, w.target);
  }

  /** A text is a manifest exactly when it decodes to a mapping with a mapping of bundles. */
  lemma ManifestIs(decode: string -> Decoded, text: string, m: Data)
    ensures Checked(decode, text) == Loaded(m) <==> decode(text) == Json(Dict(m)) && "bundles" in m && m["bundles"].Dict?
    ensures decode(text).NotJson? <==> Checked(decode, text) == BadJson
  {
  }

  /** A load fails for want of the file, for its encoding, or for what it holds. */
  lemma FreshIs(decode: string -> Decoded, disk: Disk, path: string)
    ensures Fresh(decode, disk, path) == Missing <==> path !in disk
    ensures Fresh(decode, disk, path) == BadEncoding <==> path in disk && disk[path].Undecodable?
    ensures forall m: Data :: Fresh(decode, disk, path) == Loaded(m) <==>
              path in disk && disk[path].Readable? && decode(disk[path].text) == Json(Dict(m)) && "bundles" in m && m["bundles"].Dict?
  {
  }

  /** Every stored manifest has a mapping of bundles, over every run. */
  lemma StoredHasBundles(decode: string -> Decoded, disk: Disk, target: string, events: seq<Event>, app: nat)
    requires app in Run(decode, World(disk, target, map[]), events).caches
    ensures var slot := Run(decode, World(disk, target, map[]), events).caches[app];
            decode(slot.text) == Json(Dict(slot.manifest)) && "bundles" in slot.manifest && slot.manifest["bundles"].Dict?
  {
    hide Run, Checked;
    RunHonest(decode, World(disk, target, map[]), events);
    var slot := Run(decode, World(disk, target, map[]), events).caches[app];
    assert Honest(decode, Some(slot));
    ManifestIs(decode, slot.text, slot.manifest);
  }
}
