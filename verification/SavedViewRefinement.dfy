/** Requests that do not overlap: the stored list behaves as an ordered map from
    ids to views, and keeps names apart except where the name check is blind. */
module SavedViewRefinement {
  import opened Values
  import opened Text
  import opened SavedViews
  import opened SavedViewStore

  predicate FreshDrawn(req: Request) {
    req.Create? ==> WellFormedId(req.spare)
  }

  /** The list after an accepted request on a list in order. */
  function Outcome(render: Value -> string, views: seq<View>, req: Request): seq<View>
    requires Decide(render, views, req).Write?
  {
    if req.Delete? then Without(views, RouteId(render, req.viewId))
    else
      var view := Carried(render, req);
      if req.Update? then views[IndexOf(views, view.id) := Settle(render, view)]
      else if HasId(views, view.id) then views
      else views + [Settle(render, view)]
  }

  lemma StoreOkOnce(views: seq<View>)
    requires StoreOk(views)
    ensures AllOnce(views)
  {
    hide ViewSettled, ViewOnce;
    forall i | 0 <= i < |views| ensures ViewOnce(views[i]) { SettledOnce(views[i]); }
  }

  lemma SettleAllIs(render: Value -> string, views: seq<View>)
    requires StoreOk(views)
    ensures SettleAll(render, views) == views
  {
    hide ViewSettled, Settle;
    forall i | 0 <= i < |views| ensures Settle(render, views[i]) == views[i] { SettledFixed(render, views[i]); }
  }

  lemma CreateOutcome(render: Value -> string, views: seq<View>, view: View, ids: nat -> string)
    requires StoreOk(views) && |views| < MAX_VIEWS && ViewOnce(view) && view.name != ""
    ensures var after := if HasId(views, view.id) then views else views + [Settle(render, view)];
            StoreOk(after) && LoadAll(render, StoredAll(views + [view]), ids) == after
  {
    hide Load, ViewOnce, ViewSettled, Stored, Settle, LoadAll, StoredAll;
    StoreOkFixed(render, views, ids);
    LoadLast(render, views, view, ids);
    SettleSettles(render, view);
    if !HasId(views, view.id) { AddedOk(views, Settle(render, view)); }
  }

  /** Loading a list with one more view at its end. */
  lemma LoadLast(render: Value -> string, views: seq<View>, view: View, ids: nat -> string)
    requires ViewOnce(view)
    ensures var before, last := LoadAll(render, StoredAll(views), ids), Settle(render, view);
            LoadAll(render, StoredAll(views + [view]), ids)
            == if |before| >= MAX_VIEWS || last.name == "" || HasId(before, last.id) then before else before + [last]
  {
    hide Load, ViewOnce, Stored, Settle, HasId;
    assert StoredAll(views + [view])[..|views|] == StoredAll(views);
    LoadStored(render, view, ids(|views|));
  }

  lemma AddedOk(views: seq<View>, view: View)
    requires StoreOk(views) && |views| < MAX_VIEWS && ViewSettled(view) && view.name != "" && !HasId(views, view.id)
    ensures StoreOk(views + [view])
  {
    hide ViewSettled;
  }

  lemma UpdateOutcome(render: Value -> string, views: seq<View>, i: nat, view: View, ids: nat -> string)
    requires StoreOk(views) && i < |views| && ViewOnce(view) && view.name != "" && view.id == views[i].id
    ensures var after := views[i := Settle(render, view)];
            StoreOk(after) && LoadAll(render, StoredAll(views[i := view]), ids) == after
  {
    hide Load, ViewOnce, ViewSettled, StoredAll, LoadAll, Settle;
    StoreOkOnce(views);
    SettleSettles(render, view);
    LoadAllKeeps(render, views[i := view], ids);
    SettleAllIs(render, views);
    assert SettleAll(render, views[i := view]) == SettleAll(render, views)[i := Settle(render, view)];
  }

  lemma DeleteOutcome(render: Value -> string, views: seq<View>, id: string, ids: nat -> string)
    requires StoreOk(views)
    ensures StoreOk(Without(views, id)) && LoadAll(render, StoredAll(Without(views, id)), ids) == Without(views, id)
  {
    hide ViewSettled, Without, LoadAll, StoredAll;
    WithoutViews(views, id);
    WithoutSame(views, id);
    var kept := Without(views, id);
    forall i | 0 <= i < |kept| ensures ViewSettled(kept[i]) && kept[i].name != "" { assert kept[i] in views; }
    StoreOkFixed(render, kept, ids);
  }

  lemma CarriedId(render: Value -> string, req: Request)
    requires req.Update?
    ensures Carried(render, req).id == RouteId(render, req.viewId)
  {
  }

  /** What an accepted request leaves stored: one view added at the end, replaced in
      place or removed, in settled form; a created view whose id is taken is dropped. */
  lemma SavedOutcome(render: Value -> string, views: seq<View>, req: Request, ids: nat -> string)
    requires StoreOk(views) && FreshDrawn(req) && Decide(render, views, req).Write?
    ensures StoreOk(Outcome(render, views, req))
    ensures LoadAll(render, StoredAll(Decide(render, views, req).views), ids) == Outcome(render, views, req)
  {
    hide ViewOnce, ViewSettled, StoreOk, LoadAll, StoredAll, Settle, ViewOf, IdOf, Taken;
    if req.Delete? {
      DeleteOutcome(render, views, RouteId(render, req.viewId), ids);
    } else {
      CarriedOnce(render, req);
      if req.Create? {
        CreateOutcome(render, views, Carried(render, req), ids);
      } else {
        CarriedId(render, req);
        UpdateOutcome(render, views, IndexOf(views, RouteId(render, req.viewId)), Carried(render, req), ids);
      }
    }
  }

  // ------------------------------------------------------------- an ordered id map

  datatype Registry = Registry(order: seq<string>, at: map<string, View>)

  predicate NameUsed(g: Registry, name: string, id: string) {
    exists k :: k in g.at && k != id && Lower(g.at[k].name) == Lower(name)
  }

  function Removed(order: seq<string>, id: string): seq<string> {
    if order == [] then []
    else
      var before, last := Removed(order[..|order| - 1], id), order[|order| - 1];
      if last == id then before else before + [last]
  }

  /** What a request does to the map. */
  function Apply(render: Value -> string, g: Registry, req: Request): Registry {
    match req
    case Create(_, _, _) =>
      var view := Carried(render, req);
      if view.name == "" || |g.order| >= MAX_VIEWS || NameUsed(g, view.name, "") || view.id in g.at then g
      else Registry(g.order + [view.id], g.at[view.id := Settle(render, view)])
    case Update(_, _, _) =>
      var view := Carried(render, req);
      if view.id !in g.at || view.name == "" || NameUsed(g, view.name, view.id) then g
      else Registry(g.order, g.at[view.id := Settle(render, view)])
    case Delete(viewId) =>
      var id := RouteId(render, viewId);
      if id in g.at then Registry(Removed(g.order, id), g.at - {id}) else g
  }

  function ApplyAll(render: Value -> string, g: Registry, reqs: seq<Request>): Registry {
    if reqs == [] then g
    else Apply(render, ApplyAll(render, g, reqs[..|reqs| - 1]), reqs[|reqs| - 1])
  }

  function IdsOf(views: seq<View>): seq<string> {
    seq(|views|, i requires 0 <= i < |views| => views[i].id)
  }

  /** The map a list stands for. */
  ghost predicate StandsFor(views: seq<View>, g: Registry) {
    && g.order == IdsOf(views)
    && (forall i :: 0 <= i < |views| ==> views[i].id in g.at && g.at[views[i].id] == views[i])
    && (forall k :: k in g.at ==> HasId(views, k))
  }

  lemma {:induction false} RemovedIds(views: seq<View>, id: string)
    ensures IdsOf(Without(views, id)) == Removed(IdsOf(views), id)
  {
    if views != [] {
      var n := |views| - 1;
      RemovedIds(views[..n], id);
      assert IdsOf(views)[..n] == IdsOf(views[..n]);
    }
  }

  lemma UsedIsTaken(views: seq<View>, g: Registry, name: string, id: string)
    requires StoreOk(views) && StandsFor(views, g)
    ensures NameUsed(g, name, id) <==> Taken(views, name, id)
  {
    hide ViewOnce, Lower, Strip;
    forall i | 0 <= i < |views| ensures Strip(views[i].name) == views[i].name { StripFixed(views[i].name); }
    if NameUsed(g, name, id) {
      var k :| k in g.at && k != id && Lower(g.at[k].name) == Lower(name);
      var i :| 0 <= i < |views| && views[i].id == k;
    }
    if Taken(views, name, id) {
      var i :| 0 <= i < |views| && views[i].id != id && Lower(Strip(views[i].name)) == Lower(name);
      assert views[i].id in g.at;
    }
  }

  lemma WellFormedNotEmpty(id: string)
    requires WellFormedId(id)
    ensures id != ""
  {
  }

  lemma HasIsIn(views: seq<View>, g: Registry, id: string)
    requires StoreOk(views) && StandsFor(views, g)
    ensures HasId(views, id) <==> id in g.at
    ensures HasId(views, id) ==> id != ""
  {
    hide ViewSettled, WellFormedId;
    if HasId(views, id) {
      var i :| 0 <= i < |views| && views[i].id == id;
      SettledOnce(views[i]);
      assert WellFormedId(id);
      WellFormedNotEmpty(id);
    }
  }

  lemma AddStands(views: seq<View>, g: Registry, view: View)
    requires StandsFor(views, g) && !HasId(views, view.id)
    ensures StandsFor(views + [view], Registry(g.order + [view.id], g.at[view.id := view]))
  {
    HasIdAppend(views, view);
  }

  lemma ReplaceStands(views: seq<View>, g: Registry, i: nat, view: View)
    requires StandsFor(views, g) && DistinctIds(views) && i < |views| && views[i].id == view.id
    ensures StandsFor(views[i := view], Registry(g.order, g.at[view.id := view]))
  {
    var after := views[i := view];
    assert IdsOf(after) == IdsOf(views);
    forall k | k in g.at ensures HasId(after, k) {
      var j :| 0 <= j < |views| && views[j].id == k;
      assert after[j].id == k;
    }
  }

  lemma RemoveStands(views: seq<View>, g: Registry, id: string)
    requires StandsFor(views, g)
    ensures StandsFor(Without(views, id), Registry(Removed(g.order, id), g.at - {id}))
  {
    hide Without, Removed;
    RemovedIds(views, id);
    WithoutViews(views, id);
    var kept := Without(views, id);
    forall i | 0 <= i < |kept| ensures kept[i].id in g.at - {id} && g.at[kept[i].id] == kept[i] {
      assert kept[i] in views;
    }
    forall k | k in g.at - {id} ensures HasId(kept, k) {
      var j :| 0 <= j < |views| && views[j].id == k;
      assert views[j] in kept;
    }
  }

  /** One request, read and written with nothing in between. */
  function Serve(render: Value -> string, raws: seq<Raw>, req: Request, ids1: nat -> string, ids2: nat -> string): seq<Raw> {
    var d := Decide(render, LoadAll(render, raws, ids1), req);
    if d.Write? then Saved(render, d.views, ids2) else raws
  }

  lemma CreateRefines(render: Value -> string, views: seq<View>, g: Registry, req: Request)
    requires StoreOk(views) && FreshDrawn(req) && StandsFor(views, g) && req.Create?
    ensures var d := Decide(render, views, req);
            StandsFor(if d.Write? then Outcome(render, views, req) else views, Apply(render, g, req))
  {
    hide ViewOnce, ViewSettled, Settle, ViewOf, WellFormedId, Taken, NameUsed, StandsFor;
    var view := Carried(render, req);
    UsedIsTaken(views, g, view.name, "");
    HasIsIn(views, g, view.id);
    SameLength(views, g);
    if Decide(render, views, req).Write? && !HasId(views, view.id) {
      CarriedOnce(render, req);
      SettleSettles(render, view);
      AddStands(views, g, Settle(render, view));
    }
  }

  lemma SameLength(views: seq<View>, g: Registry)
    requires StandsFor(views, g)
    ensures |g.order| == |views|
  {
  }

  lemma UpdateRefines(render: Value -> string, views: seq<View>, g: Registry, req: Request)
    requires StoreOk(views) && StandsFor(views, g) && req.Update?
    ensures var d := Decide(render, views, req);
            StandsFor(if d.Write? then Outcome(render, views, req) else views, Apply(render, g, req))
  {
    hide ViewOnce, ViewSettled, Settle, ViewOf, IdOf, WellFormedId, Taken, NameUsed, StandsFor;
    var view := Carried(render, req);
    CarriedId(render, req);
    UsedIsTaken(views, g, view.name, view.id);
    HasIsIn(views, g, view.id);
    if Decide(render, views, req).Write? {
      CarriedOnce(render, req);
      SettleSettles(render, view);
      ReplaceStands(views, g, IndexOf(views, view.id), Settle(render, view));
    }
  }

  lemma DeleteRefines(render: Value -> string, views: seq<View>, g: Registry, req: Request)
    requires StoreOk(views) && StandsFor(views, g) && req.Delete?
    ensures var d := Decide(render, views, req);
            StandsFor(if d.Write? then Outcome(render, views, req) else views, Apply(render, g, req))
  {
    hide ViewOnce, ViewSettled, IdOf, WellFormedId, StandsFor;
    var id := RouteId(render, req.viewId);
    HasIsIn(views, g, id);
    if HasId(views, id) { RemoveStands(views, g, id); }
  }

  /** Every request, accepted or refused, refines its step on the map. */
  lemma ServeRefines(render: Value -> string, views: seq<View>, g: Registry, req: Request, ids1: nat -> string, ids2: nat -> string)
    returns (after: seq<View>)
    requires StoreOk(views) && FreshDrawn(req) && StandsFor(views, g)
    ensures Serve(render, StoredAll(views), req, ids1, ids2) == StoredAll(after)
    ensures StoreOk(after) && StandsFor(after, Apply(render, g, req))
  {
    hide StoreOk, StandsFor, Apply, Decide, LoadAll, StoredAll, Outcome, FreshDrawn;
    StoreOkFixed(render, views, ids1);
    match req {
      case Create(_, _, _) => CreateRefines(render, views, g, req);
      case Update(_, _, _) => UpdateRefines(render, views, g, req);
      case Delete(_) => DeleteRefines(render, views, g, req);
    }
    if Decide(render, views, req).Write? {
      after := Outcome(render, views, req);
      SavedOutcome(render, views, req, ids2);
    } else {
      after := views;
    }
  }

  // ------------------------------------------------------- lists not yet in order

  /** What a stored list settles to, under the ids drawn to load it. */
  function Settled(render: Value -> string, raws: seq<Raw>, ids: nat -> string): seq<View> {
    SettleAll(render, LoadAll(render, raws, ids))
  }

  lemma SettledOk(render: Value -> string, raws: seq<Raw>, ids: nat -> string)
    requires GoodIds(ids)
    ensures StoreOk(Settled(render, raws, ids))
    ensures LoadAll(render, StoredAll(LoadAll(render, raws, ids)), ids) == Settled(render, raws, ids)
  {
    hide LoadAll, StoredAll, StoreOk, ViewOnce, SettleAll;
    var loaded := LoadAll(render, raws, ids);
    LoadAllOnce(render, raws, ids);
    LoadAllKeeps(render, loaded, ids);
    LoadAllSettles(render, loaded, ids);
  }

  /** Settling keeps the ids, and the names up to blanks around them. */
  lemma SettledAlike(render: Value -> string, loaded: seq<View>)
    requires AllOnce(loaded)
    ensures var settled := SettleAll(render, loaded);
            && |settled| == |loaded|
            && (forall i :: 0 <= i < |loaded| ==> settled[i].id == loaded[i].id && Strip(settled[i].name) == Strip(loaded[i].name))
            && (forall id :: HasId(settled, id) <==> HasId(loaded, id))
            && (forall name, id :: Taken(settled, name, id) <==> Taken(loaded, name, id))
  {
    hide ViewOnce, Settle, Strip, Lower;
    var settled := SettleAll(render, loaded);
    forall i | 0 <= i < |loaded| ensures settled[i].id == loaded[i].id && Strip(settled[i].name) == Strip(loaded[i].name) {
      SettleSettles(render, loaded[i]);
      StripIdempotent(loaded[i].name);
    }
    SameIds(settled, loaded);
    SameTaken(settled, loaded);
  }

  lemma SameIds(a: seq<View>, b: seq<View>)
    requires |a| == |b| && forall i :: 0 <= i < |a| ==> a[i].id == b[i].id
    ensures forall id :: HasId(a, id) <==> HasId(b, id)
  {
    forall id ensures HasId(a, id) <==> HasId(b, id) {
      if HasId(a, id) {
        var i :| 0 <= i < |a| && a[i].id == id;
        assert b[i].id == id;
      }
      if HasId(b, id) {
        var i :| 0 <= i < |b| && b[i].id == id;
        assert a[i].id == id;
      }
    }
  }

  lemma SameTaken(a: seq<View>, b: seq<View>)
    requires |a| == |b|
    requires forall i :: 0 <= i < |a| ==> a[i].id == b[i].id && Strip(a[i].name) == Strip(b[i].name)
    ensures forall name, id :: Taken(a, name, id) <==> Taken(b, name, id)
  {
    hide Strip, Lower;
    forall name, id ensures Taken(a, name, id) <==> Taken(b, name, id) {
      if Taken(a, name, id) {
        var i :| 0 <= i < |a| && a[i].id != id && Lower(Strip(a[i].name)) == Lower(name);
        assert b[i].id != id;
      }
      if Taken(b, name, id) {
        var i :| 0 <= i < |b| && b[i].id != id && Lower(Strip(b[i].name)) == Lower(name);
        assert a[i].id != id;
      }
    }
  }

  lemma {:induction false} SettleWithout(render: Value -> string, views: seq<View>, id: string)
    requires AllOnce(views)
    ensures SettleAll(render, Without(views, id)) == Without(SettleAll(render, views), id)
  {
    hide ViewOnce, Settle;
    if views != [] {
      var n := |views| - 1;
      SettleWithout(render, views[..n], id);
      SettleSettles(render, views[n]);
      assert SettleAll(render, views)[..n] == SettleAll(render, views[..n]);
      assert SettleAll(render, views) == SettleAll(render, views[..n]) + [Settle(render, views[n])];
      if views[n].id != id {
        assert Without(views, id) == Without(views[..n], id) + [views[n]];
        assert SettleAll(render, Without(views, id)) == SettleAll(render, Without(views[..n], id)) + [Settle(render, views[n])];
      }
    }
  }

  /** A loaded list, whatever it was loaded from. */
  ghost predicate Loaded(views: seq<View>) {
    AllOnce(views) && DistinctIds(views) && |views| <= MAX_VIEWS && forall i :: 0 <= i < |views| ==> views[i].name != ""
  }

  lemma SavedCreate(render: Value -> string, loaded: seq<View>, view: View, ids: nat -> string)
    requires Loaded(loaded) && ViewOnce(view)
    ensures LoadAll(render, StoredAll(loaded + [view]), ids) == LoadAll(render, StoredAll(SettleAll(render, loaded) + [view]), ids)
  {
    hide LoadAll, StoredAll, ViewOnce, SettleAll, StoreOk;
    LoadLast(render, loaded, view, ids);
    LoadLast(render, SettleAll(render, loaded), view, ids);
    LoadAllKeeps(render, loaded, ids);
    LoadAllSettles(render, loaded, ids);
    StoreOkFixed(render, SettleAll(render, loaded), ids);
  }

  lemma SavedUpdate(render: Value -> string, loaded: seq<View>, i: nat, view: View, ids: nat -> string)
    requires Loaded(loaded) && i < |loaded| && ViewOnce(view) && view.name != "" && view.id == loaded[i].id
    ensures LoadAll(render, StoredAll(loaded[i := view]), ids) == SettleAll(render, loaded)[i := Settle(render, view)]
  {
    hide LoadAll, StoredAll, ViewOnce, Settle;
    LoadAllKeeps(render, loaded[i := view], ids);
  }

  lemma SavedDelete(render: Value -> string, loaded: seq<View>, id: string, ids: nat -> string)
    requires Loaded(loaded)
    ensures LoadAll(render, StoredAll(Without(loaded, id)), ids) == Without(SettleAll(render, loaded), id)
  {
    hide LoadAll, StoredAll, ViewOnce, SettleAll, Without;
    WithoutOnce(loaded, id);
    WithoutViews(loaded, id);
    WithoutSame(loaded, id);
    var kept := Without(loaded, id);
    forall i | 0 <= i < |kept| ensures kept[i].name != "" { assert kept[i] in loaded; }
    LoadAllKeeps(render, kept, ids);
    SettleWithout(render, loaded, id);
  }

  lemma SameIndex(a: seq<View>, b: seq<View>, id: string)
    requires |a| == |b| && (forall i :: 0 <= i < |a| ==> a[i].id == b[i].id) && HasId(a, id) && HasId(b, id)
    ensures IndexOf(a, id) == IndexOf(b, id)
  {
    var i, j := IndexOf(a, id), IndexOf(b, id);
    assert b[i].id == id && a[j].id == id;
  }

  /** A request on any loaded list is refused or accepted as on what the list settles to. */
  lemma DecidedAlike(render: Value -> string, loaded: seq<View>, req: Request)
    requires AllOnce(loaded)
    ensures Decide(render, loaded, req).Write? <==> Decide(render, SettleAll(render, loaded), req).Write?
  {
    hide SettleAll, ViewOf, IdOf, Taken, HasId, ViewOnce;
    SettledAlike(render, loaded);
  }

  lemma SavedFromLoaded(render: Value -> string, loaded: seq<View>, req: Request, ids: nat -> string)
    requires Loaded(loaded) && StoreOk(SettleAll(render, loaded)) && FreshDrawn(req)
    requires Decide(render, loaded, req).Write? && Decide(render, SettleAll(render, loaded), req).Write?
    ensures LoadAll(render, StoredAll(Decide(render, loaded, req).views), ids) == Outcome(render, SettleAll(render, loaded), req)
  {
    hide ViewOnce, StoreOk, LoadAll, StoredAll, Settle, SettleAll, ViewOf, IdOf, Taken, Without;
    var settled := SettleAll(render, loaded);
    if req.Delete? {
      SavedDelete(render, loaded, RouteId(render, req.viewId), ids);
    } else {
      CarriedOnce(render, req);
      var view := Carried(render, req);
      if req.Create? {
        SavedCreate(render, loaded, view, ids);
        SavedOutcome(render, settled, req, ids);
      } else {
        CarriedId(render, req);
        SettledAlike(render, loaded);
        SameIndex(loaded, settled, view.id);
        SavedUpdate(render, loaded, IndexOf(loaded, view.id), view, ids);
      }
    }
  }

  lemma LoadedAnything(render: Value -> string, raws: seq<Raw>, ids: nat -> string)
    requires GoodIds(ids)
    ensures Loaded(LoadAll(render, raws, ids))
  {
    hide ViewOnce, LoadAll;
    LoadAllOnce(render, raws, ids);
  }

  /** Serving a request on any stored value at all: it stays as it is when refused,
      and is served as on what it settles to when accepted. */
  lemma ServeAnything(render: Value -> string, raws: seq<Raw>, req: Request, ids1: nat -> string, ids2: nat -> string)
    requires GoodIds(ids1) && FreshDrawn(req)
    ensures var settled := Settled(render, raws, ids1);
            && StoreOk(settled)
            && (Decide(render, LoadAll(render, raws, ids1), req).Write? <==> Decide(render, settled, req).Write?)
            && Serve(render, raws, req, ids1, ids2)
               == if Decide(render, settled, req).Write? then StoredAll(Outcome(render, settled, req)) else raws
  {
    hide ViewOnce, StoreOk, LoadAll, StoredAll, Settle, SettleAll, Decide, Outcome, FreshDrawn, GoodIds;
    var loaded := LoadAll(render, raws, ids1);
    SettledOk(render, raws, ids1);
    LoadedAnything(render, raws, ids1);
    DecidedAlike(render, loaded, req);
    if Decide(render, loaded, req).Write? { SavedFromLoaded(render, loaded, req, ids2); }
  }

  // ----------------------------------------------------------- non-overlapping runs

  /** The map that some list in order stands for. */
  function ById(views: seq<View>): map<string, View> {
    if views == [] then map[] else ById(views[..|views| - 1])[views[|views| - 1].id := views[|views| - 1]]
  }

  function RegistryOf(views: seq<View>): Registry {
    Registry(IdsOf(views), ById(views))
  }

  lemma {:induction false} RegistryStands(views: seq<View>)
    requires DistinctIds(views)
    ensures StandsFor(views, RegistryOf(views))
  {
    if views != [] {
      var n := |views| - 1;
      RegistryStands(views[..n]);
      assert views == views[..n] + [views[n]];
      assert IdsOf(views) == IdsOf(views[..n]) + [views[n].id];
      if HasId(views[..n], views[n].id) { assert false; }
      AddStands(views[..n], RegistryOf(views[..n]), views[n]);
    }
  }

  /** A list stands for one map only. */
  lemma StandsOnce(views: seq<View>, g: Registry, h: Registry)
    requires StandsFor(views, g) && StandsFor(views, h)
    ensures g == h
  {
    assert g.at.Keys == h.at.Keys;
    forall k | k in g.at ensures g.at[k] == h.at[k] {
      var i :| 0 <= i < |views| && views[i].id == k;
    }
  }

  /** Step `n` stores a request's list. */
  ghost predicate StoresList(render: Value -> string, s: Sys, events: seq<Event>, n: nat) {
    Stores(render, s, events, n) && JobAt(render, s, events, n).SaveViews?
  }

  ghost predicate InFlight(render: Value -> string, s: Sys, events: seq<Event>, n: nat, r: nat) {
    n <= |events| && r in AtStep(render, s, events, n).flights
  }

  /** The step at which a writer in flight before step `n` came in. */
  ghost function StartStep(render: Value -> string, s: Sys, events: seq<Event>, n: nat, r: nat): nat {
    if n == 0 then 0
    else if InFlight(render, s, events, n - 1, r) then StartStep(render, s, events, n - 1, r)
    else n - 1
  }

  lemma {:induction false} StartStepIs(render: Value -> string, s: Sys, events: seq<Event>, n: nat, r: nat)
    requires s.flights == map[] && InFlight(render, s, events, n, r)
    ensures var m := StartStep(render, s, events, n, r);
            && m < n && !InFlight(render, s, events, m, r)
            && forall j :: m < j <= n ==> InFlight(render, s, events, j, r)
    decreases n
  {
    hide AtStep;
    StartsAt(render, s, events);
    if n > 0 && InFlight(render, s, events, n - 1, r) { StartStepIs(render, s, events, n - 1, r); }
  }

  lemma StoringInFlight(render: Value -> string, s: Sys, events: seq<Event>, n: nat)
    requires Stores(render, s, events, n)
    ensures n < |events| && events[n].Store? && InFlight(render, s, events, n, events[n].r)
  {
  }

  /** No list is stored between a request's snapshot and its own store, nor between the
      read and the store of another writer. Anything else may happen anywhere. */
  ghost predicate NonOverlapping(render: Value -> string, s: Sys, events: seq<Event>)
    requires s.flights == map[]
  {
    forall n, j {:trigger Stores(render, s, events, n), StoresList(render, s, events, j)} ::
      0 <= j < n < |events| && Stores(render, s, events, n) && StoresList(render, s, events, j) ==>
        if JobAt(render, s, events, n).SaveViews? then j < StartStep(render, s, events, n, events[n].r)
        else forall m: nat :: Window(render, s, events, m, n) ==> j < m
  }

  /** The requests whose lists were stored before step `n`, in the order of the stores. */
  ghost function Done(render: Value -> string, s: Sys, events: seq<Event>, n: nat): seq<Request>
    requires s.flights == map[] && n <= |events|
  {
    if n == 0 then []
    else if StoresList(render, s, events, n - 1) then
      var m := StartStep(render, s, events, n - 1, events[n - 1].r);
      Done(render, s, events, n - 1) + if m < |events| && events[m].Snapshot? then [events[m].req] else []
    else Done(render, s, events, n - 1)
  }

  /** A request in flight came in with its snapshot, and holds what it decided there. */
  lemma {:induction false} StartDecides(render: Value -> string, s: Sys, events: seq<Event>, n: nat, r: nat)
    requires s.flights == map[] && InFlight(render, s, events, n, r)
    requires AtStep(render, s, events, n).flights[r].job.SaveViews?
    ensures DecidedAt(render, s, events, StartStep(render, s, events, n, r), r, AtStep(render, s, events, n).flights[r].job.list)
    decreases n
  {
    hide Decide, LoadAll, StoredRow, AtStep;
    StartsAt(render, s, events);
    if n > 0 {
      StepTo(render, s, events, n - 1);
      if InFlight(render, s, events, n - 1, r) { StartDecides(render, s, events, n - 1, r); }
    }
  }

  /** Nothing was done where no list was stored. */
  lemma {:induction false} SameDone(render: Value -> string, s: Sys, events: seq<Event>, m: nat, n: nat)
    requires s.flights == map[] && m <= n <= |events|
    requires forall j :: m <= j < n ==> !StoresList(render, s, events, j)
    ensures Done(render, s, events, n) == Done(render, s, events, m)
    decreases n
  {
    hide StoresList;
    if m < n { SameDone(render, s, events, m, n - 1); }
  }

  /** What a stored request leaves: its snapshot's list, served. */
  lemma ListServed(render: Value -> string, s: Sys, events: seq<Event>, n: nat)
    requires s.flights == map[] && StoresList(render, s, events, n)
    ensures var m := StartStep(render, s, events, n, events[n].r);
            && m < n && events[m].Snapshot?
            && AtStep(render, s, events, n + 1).row.views
               == Serve(render, AtStep(render, s, events, m).row.views, events[m].req, events[m].ids, events[n].ids)
            && Decide(render, LoadAll(render, AtStep(render, s, events, m).row.views, events[m].ids), events[m].req).Write?
  {
    hide Decide, LoadAll, Saved, AtStep;
    StartStepIs(render, s, events, n, events[n].r);
    StartDecides(render, s, events, n, events[n].r);
    StepTo(render, s, events, n);
  }

  /** A request's list is stored with none stored since its snapshot. */
  lemma QuietSinceSnapshot(render: Value -> string, s: Sys, events: seq<Event>, n: nat, j: nat)
    requires s.flights == map[] && NonOverlapping(render, s, events) && StoresList(render, s, events, n)
    requires StartStep(render, s, events, n, events[n].r) <= j < n
    ensures !StoresList(render, s, events, j)
  {
    hide AtStep, Window, StartStep;
    assert Stores(render, s, events, n);
  }

  /** Another writer stores with no list stored since its read. */
  lemma QuietSinceRead(render: Value -> string, s: Sys, events: seq<Event>, m: nat, n: nat, j: nat)
    requires s.flights == map[] && NonOverlapping(render, s, events) && Window(render, s, events, m, n)
    requires Stores(render, s, events, n) && !StoresList(render, s, events, n) && m <= j < n
    ensures !StoresList(render, s, events, j)
  {
    hide AtStep, Window, StartStep, Stores;
    WindowOrder(render, s, events, m, n);
  }

  ghost predicate AllFresh(events: seq<Event>) {
    forall i :: 0 <= i < |events| && events[i].Snapshot? ==> FreshDrawn(events[i].req) && GoodIds(events[i].ids)
  }

  /** The map that the run started from: what the stored value settled to when the
      first request was accepted, with the ids drawn then. */
  ghost predicate Refines(render: Value -> string, s: Sys, events: seq<Event>, raws: seq<Raw>, done: seq<Request>, k: nat, after: seq<View>) {
    if done == [] then raws == s.row.views
    else
      && k < |events| && events[k].Snapshot?
      && raws == StoredAll(after) && StoreOk(after)
      && StandsFor(after, ApplyAll(render, RegistryOf(Settled(render, s.row.views, events[k].ids)), done))
  }

  /** One more request on a list that refines the map. */
  lemma RefinesMore(render: Value -> string, s: Sys, events: seq<Event>, raws: seq<Raw>, done: seq<Request>, k: nat, after: seq<View>,
                    m: nat, ids2: nat -> string)
    returns (k': nat, after': seq<View>)
    requires Refines(render, s, events, raws, done, k, after) && AllFresh(events) && m < |events| && events[m].Snapshot?
    requires Decide(render, LoadAll(render, raws, events[m].ids), events[m].req).Write?
    ensures Refines(render, s, events, Serve(render, raws, events[m].req, events[m].ids, ids2), done + [events[m].req], k', after')
  {
    hide StoreOk, StandsFor, Apply, Serve, StoredAll, FreshDrawn, Decide, Settled, RegistryOf, GoodIds, LoadAll;
    var req := events[m].req;
    assert (done + [req])[..|done|] == done;
    if done == [] {
      k' := m;
      after' := FirstAccepted(render, raws, req, events[m].ids, ids2);
      assert ApplyAll(render, RegistryOf(Settled(render, s.row.views, events[m].ids)), []) == RegistryOf(Settled(render, s.row.views, events[m].ids));
    } else {
      k' := k;
      after' := ServeRefines(render, after, ApplyAll(render, RegistryOf(Settled(render, s.row.views, events[k].ids)), done),
                             req, events[m].ids, ids2);
    }
  }

  lemma FirstAccepted(render: Value -> string, raws: seq<Raw>, req: Request, ids1: nat -> string, ids2: nat -> string)
    returns (after: seq<View>)
    requires FreshDrawn(req) && GoodIds(ids1) && Decide(render, LoadAll(render, raws, ids1), req).Write?
    ensures Serve(render, raws, req, ids1, ids2) == StoredAll(after) && StoreOk(after)
    ensures StandsFor(after, Apply(render, RegistryOf(Settled(render, raws, ids1)), req))
  {
    hide StoreOk, StandsFor, Apply, StoredAll, Decide, Settled, RegistryOf, GoodIds, FreshDrawn, Serve, Outcome, LoadAll;
    var start := Settled(render, raws, ids1);
    ServeAnything(render, raws, req, ids1, ids2);
    SettledDistinct(start);
    RegistryStands(start);
    after := ServeRefines(render, start, RegistryOf(start), req, ids1, ids2);
    ServeInOrder(render, start, req, ids1, ids2);
  }

  lemma SettledDistinct(views: seq<View>)
    requires StoreOk(views)
    ensures DistinctIds(views)
  {
  }

  lemma ServeInOrder(render: Value -> string, views: seq<View>, req: Request, ids1: nat -> string, ids2: nat -> string)
    requires StoreOk(views) && FreshDrawn(req) && Decide(render, views, req).Write?
    ensures Serve(render, StoredAll(views), req, ids1, ids2) == StoredAll(Outcome(render, views, req))
  {
    hide StoreOk, Decide, LoadAll, StoredAll, Outcome, FreshDrawn;
    StoreOkFixed(render, views, ids1);
    SavedOutcome(render, views, req, ids2);
  }

  /** From any stored value at all, whatever else happens: while no list is stored inside
      another writer's turn, the stored list refines the ordered map of what the value
      settled to, after the requests stored so far. */
  lemma {:induction false} SerialFromAnything(render: Value -> string, s: Sys, events: seq<Event>, n: nat)
    returns (k: nat, after: seq<View>)
    requires s.flights == map[] && NonOverlapping(render, s, events) && AllFresh(events) && n <= |events|
    ensures Refines(render, s, events, AtStep(render, s, events, n).row.views, Done(render, s, events, n), k, after)
    decreases n
  {
    hide Refines, AtStep, Window, Stores, NonOverlapping, AllFresh, StartStep, Serve, Decide, LoadAll;
    if n == 0 {
      StartsAt(render, s, events);
      k, after := 0, [];
      RefinesStart(render, s, events);
    } else if StoresList(render, s, events, n - 1) {
      StoringInFlight(render, s, events, n - 1);
      var m := StartStep(render, s, events, n - 1, events[n - 1].r);
      ListServed(render, s, events, n - 1);
      k, after := SerialFromAnything(render, s, events, m);
      forall j | m <= j < n - 1 ensures !StoresList(render, s, events, j) { QuietSinceSnapshot(render, s, events, n - 1, j); }
      SameDone(render, s, events, m, n - 1);
      k, after := RefinesMore(render, s, events, AtStep(render, s, events, m).row.views, Done(render, s, events, m), k, after, m, events[n - 1].ids);
    } else if Stores(render, s, events, n - 1) {
      var w := StoreWindow(render, s, events, n - 1);
      WindowOrder(render, s, events, w, n - 1);
      k, after := SerialFromAnything(render, s, events, w);
      forall j | w <= j < n - 1 ensures !StoresList(render, s, events, j) { QuietSinceRead(render, s, events, w, n - 1, j); }
      SameDone(render, s, events, w, n - 1);
      StoredBack(render, s, events, w, n - 1);
    } else {
      QuietStep(render, s, events, n - 1);
      k, after := SerialFromAnything(render, s, events, n - 1);
    }
  }

  lemma RefinesStart(render: Value -> string, s: Sys, events: seq<Event>)
    ensures Refines(render, s, events, s.row.views, [], 0, [])
  {
  }

  lemma StoredBack(render: Value -> string, s: Sys, events: seq<Event>, m: nat, n: nat)
    requires Window(render, s, events, m, n) && Stores(render, s, events, n) && !StoresList(render, s, events, n)
    ensures AtStep(render, s, events, n + 1).row.views == AtStep(render, s, events, m).row.views
  {
    hide AtStep, Window;
    StoreRestores(render, s, events, m, n, ViewsSlot);
    WindowOrder(render, s, events, m, n);
  }

  /** From a list in order: the map is the list's own. */
  lemma SerialRefines(render: Value -> string, s: Sys, views: seq<View>, g: Registry, events: seq<Event>, n: nat)
    returns (after: seq<View>)
    requires s.flights == map[] && NonOverlapping(render, s, events) && AllFresh(events) && n <= |events|
    requires s.row.views == StoredAll(views) && StoreOk(views) && StandsFor(views, g)
    ensures AtStep(render, s, events, n).row.views == StoredAll(after) && StoreOk(after)
    ensures StandsFor(after, ApplyAll(render, g, Done(render, s, events, n)))
  {
    hide StoreOk, StandsFor, Apply, StoredAll, NonOverlapping, AllFresh, Settled, RegistryOf, AtStep, Done;
    var k;
    k, after := SerialFromAnything(render, s, events, n);
    if Done(render, s, events, n) == [] {
      after := views;
    } else {
      SettledInOrder(render, views, events[k].ids);
      SettledDistinct(views);
      RegistryStands(views);
      StandsOnce(views, g, RegistryOf(views));
    }
  }

  lemma SettledInOrder(render: Value -> string, views: seq<View>, ids: nat -> string)
    requires StoreOk(views)
    ensures Settled(render, StoredAll(views), ids) == views
  {
    hide StoreOk, StoredAll, LoadAll, SettleAll;
    StoreOkFixed(render, views, ids);
    SettleAllIs(render, views);
  }

  /** A request refused on such a run is one that the map would not take either. */
  lemma RefusedByMap(render: Value -> string, views: seq<View>, g: Registry, req: Request, ids: nat -> string)
    requires StoreOk(views) && FreshDrawn(req) && StandsFor(views, g) && Decide(render, LoadAll(render, StoredAll(views), ids), req).Refuse?
    ensures Apply(render, g, req) == g
  {
    hide StoreOk, StandsFor, Apply, StoredAll, FreshDrawn, Decide, LoadAll;
    var after := ServeRefines(render, views, g, req, ids, ids);
    StoreOkFixed(render, views, ids);
    StoreOkFixed(render, after, ids);
    StandsOnce(views, g, Apply(render, g, req));
  }

  // ------------------------------------------------------------------ distinct names

  /** No two views share a name up to case. */
  ghost predicate NamesDistinct(views: seq<View>) {
    forall i, j :: 0 <= i < j < |views| ==> Lower(views[i].name) != Lower(views[j].name)
  }

  /** The name check saw the name that will be stored, or the stored one is free too. */
  ghost predicate NameSeen(render: Value -> string, views: seq<View>, req: Request) {
    req.Delete? ||
    var view := Carried(render, req);
    || Stripped(view.name)
    || (req.Create? && HasId(views, view.id))
    || !Taken(views, Strip(view.name), if req.Create? then "" else view.id)
  }

  lemma StoredNames(views: seq<View>)
    requires StoreOk(views)
    ensures forall i :: 0 <= i < |views| ==> Strip(views[i].name) == views[i].name && views[i].id != ""
  {
    hide ViewOnce, Strip;
    forall i | 0 <= i < |views| ensures Strip(views[i].name) == views[i].name && views[i].id != "" {
      StripFixed(views[i].name);
      SettledOnce(views[i]);
      assert WellFormedId(views[i].id) by { OnceId(views[i]); }
    }
  }

  lemma OnceId(v: View)
    requires ViewOnce(v)
    ensures WellFormedId(v.id)
  {
  }

  lemma AddedName(views: seq<View>, view: View)
    requires StoreOk(views) && NamesDistinct(views)
    ensures NamesDistinct(views + [view]) <==> !Taken(views, view.name, "")
  {
    hide ViewSettled, Lower, Strip;
    StoredNames(views);
    var after := views + [view];
    if !Taken(views, view.name, "") {
      forall i, j | 0 <= i < j < |after| ensures Lower(after[i].name) != Lower(after[j].name) {
        if j == |views| { assert views[i].id != ""; }
      }
    } else {
      var i :| 0 <= i < |views| && views[i].id != "" && Lower(Strip(views[i].name)) == Lower(view.name);
      assert Lower(after[i].name) == Lower(after[|views|].name);
    }
  }

  lemma ReplacedName(views: seq<View>, k: nat, view: View)
    requires StoreOk(views) && NamesDistinct(views) && k < |views| && views[k].id == view.id
    ensures NamesDistinct(views[k := view]) <==> !Taken(views, view.name, view.id)
  {
    hide ViewSettled, Lower, Strip;
    StoredNames(views);
    var after := views[k := view];
    if !Taken(views, view.name, view.id) {
      forall i, j | 0 <= i < j < |after| ensures Lower(after[i].name) != Lower(after[j].name) {
        if i == k { assert views[j].id != view.id; }
        if j == k { assert views[i].id != view.id; }
      }
    } else {
      var i :| 0 <= i < |views| && views[i].id != view.id && Lower(Strip(views[i].name)) == Lower(view.name);
      assert Lower(after[i].name) == Lower(after[k].name);
    }
  }

  lemma {:induction false} RemovedNames(views: seq<View>, id: string)
    requires NamesDistinct(views)
    ensures NamesDistinct(Without(views, id))
  {
    hide Lower;
    if views != [] {
      var n := |views| - 1;
      RemovedNames(views[..n], id);
      WithoutViews(views[..n], id);
      var kept := Without(views[..n], id);
      forall i | 0 <= i < |kept| ensures Lower(kept[i].name) != Lower(views[n].name) { assert kept[i] in views[..n]; }
    }
  }

  /** An accepted request keeps the names apart exactly when the check saw the name
      as it is stored, or nobody has it. */
  lemma NamesKeptIff(render: Value -> string, views: seq<View>, req: Request)
    requires StoreOk(views) && NamesDistinct(views) && FreshDrawn(req) && Decide(render, views, req).Write?
    ensures NamesDistinct(Outcome(render, views, req)) <==> NameSeen(render, views, req)
  {
    hide StoreOk, NamesDistinct, ViewOf, IdOf, Settle, Taken, Strip, ViewOnce;
    if req.Delete? {
      RemovedNames(views, RouteId(render, req.viewId));
    } else {
      var view := Carried(render, req);
      CarriedOnce(render, req);
      SettleSettles(render, view);
      if Stripped(view.name) { StripFixed(view.name); }
      if req.Create? {
        AddedName(views, Settle(render, view));
      } else {
        CarriedId(render, req);
        ReplacedName(views, IndexOf(views, view.id), Settle(render, view));
      }
    }
  }

  function Blanks(n: nat): string {
    seq(n, i => ' ')
  }

  lemma TwoTexts(name: string, n: nat)
    requires Stripped(name) && name != "" && |name| < NAME_MAX && n == NAME_MAX - |name|
    ensures TrimCut(name + Blanks(n) + "x", NAME_MAX) == name + Blanks(n)
    ensures Strip(name + Blanks(n)) == name
  {
    var text := name + Blanks(n) + "x";
    StripFixed(text);
    assert Cut(text, NAME_MAX) == name + Blanks(n);
    BlanksStrip(name, n);
  }

  lemma {:induction false} BlanksStrip(name: string, n: nat)
    requires Stripped(name) && name != ""
    ensures Strip(name + Blanks(n)) == name
  {
    var s := name + Blanks(n);
    assert LStrip(s) == s;
    if n == 0 {
      assert s == name;
      StripFixed(name);
    } else {
      BlanksStrip(name, n - 1);
      assert s[..|s| - 1] == name + Blanks(n - 1);
      assert LStrip(name + Blanks(n - 1)) == name + Blanks(n - 1);
      assert s[|s| - 1] == ' ';
    }
  }

  /** A stripped name never equals a padded one, even up to case. */
  lemma PaddedDiffers(stored: string, name: string, n: nat)
    requires Stripped(stored) && stored != "" && n > 0
    ensures Lower(stored) != Lower(name + Blanks(n))
  {
    var padded := name + Blanks(n);
    LowerStripped(stored);
    assert padded[|padded| - 1] == ' ';
    assert Lower(padded)[|padded| - 1] == ' ';
    assert !IsSpace(stored[|stored| - 1]);
    assert Lower(stored)[|stored| - 1] == LowerChar(stored[|stored| - 1]);
  }

  /** The blind spot: padding a taken name with blanks up to the cut, and one more
      letter, creates a second view with that very name. */
  lemma PaddedNameSlipsPast(render: Value -> string, views: seq<View>, k: nat, req: Request)
    requires StoreOk(views) && NamesDistinct(views) && |views| < MAX_VIEWS && k < |views| && |views[k].name| < NAME_MAX
    requires req.Create? && WellFormedId(req.spare)
    requires Top(req.raw, Name) == Str(views[k].name + Blanks(NAME_MAX - |views[k].name|) + "x")
    requires !HasId(views, Carried(render, req).id)
    ensures Decide(render, views, req).Write?
    ensures var after := Outcome(render, views, req);
            |after| == |views| + 1 && after[|views|].name == after[k].name && after[|views|].id != after[k].id
  {
    hide ViewOnce, IdOf, Settle, Lower, Strip, WellFormedId, Blanks, TrimCut;
    StoredNames(views);
    TwoTexts(views[k].name, NAME_MAX - |views[k].name|);
    var view := Carried(render, req);
    CarriedOnce(render, req);
    SettleSettles(render, view);
    assert !Taken(views, view.name, "") by {
      forall i | 0 <= i < |views| ensures Lower(views[i].name) != Lower(view.name) {
        PaddedDiffers(views[i].name, views[k].name, NAME_MAX - |views[k].name|);
      }
    }
  }

  /** The cut name ends in no blank. */
  ghost predicate NamesWhole(render: Value -> string, req: Request) {
    !req.Delete? ==> Stripped(Carried(render, req).name)
  }

  lemma ServeKeepsNames(render: Value -> string, views: seq<View>, req: Request, ids1: nat -> string, ids2: nat -> string)
    returns (after: seq<View>)
    requires StoreOk(views) && FreshDrawn(req) && NamesDistinct(views) && NamesWhole(render, req)
    ensures Serve(render, StoredAll(views), req, ids1, ids2) == StoredAll(after)
    ensures StoreOk(after) && NamesDistinct(after)
  {
    hide StoreOk, NamesDistinct, Decide, LoadAll, StoredAll, Outcome, FreshDrawn, Carried;
    StoreOkFixed(render, views, ids1);
    if Decide(render, views, req).Write? {
      after := Outcome(render, views, req);
      SavedOutcome(render, views, req, ids2);
      NamesKeptIff(render, views, req);
    } else {
      after := views;
    }
  }

  /** From any stored value whose names are distinct once settled. */
  lemma ServeAnythingKeepsNames(render: Value -> string, raws: seq<Raw>, req: Request, ids1: nat -> string, ids2: nat -> string)
    returns (after: seq<View>)
    requires FreshDrawn(req) && GoodIds(ids1) && NamesWhole(render, req) && NamesDistinct(Settled(render, raws, ids1))
    ensures Serve(render, raws, req, ids1, ids2) == raws
            || (Serve(render, raws, req, ids1, ids2) == StoredAll(after) && StoreOk(after) && NamesDistinct(after))
  {
    hide StoreOk, NamesDistinct, StoredAll, Decide, Settled, GoodIds, FreshDrawn, Serve, Outcome, NamesWhole;
    var start := Settled(render, raws, ids1);
    ServeAnything(render, raws, req, ids1, ids2);
    after := [];
    if Decide(render, start, req).Write? {
      after := ServeKeepsNames(render, start, req, ids1, ids2);
      ServeInOrder(render, start, req, ids1, ids2);
    }
  }

  /** Every snapshot's names are whole, and the value found has distinct names under its ids. */
  ghost predicate NamesFine(render: Value -> string, found: seq<Raw>, events: seq<Event>) {
    forall i :: 0 <= i < |events| && events[i].Snapshot? ==>
      NamesWhole(render, events[i].req) && NamesDistinct(Settled(render, found, events[i].ids))
  }

  ghost predicate FoundOrNamed(found: seq<Raw>, raws: seq<Raw>, views: seq<View>) {
    raws == found || (raws == StoredAll(views) && StoreOk(views) && NamesDistinct(views))
  }

  /** Over every interleaving, overlapping or not, the names of the stored list stay distinct. */
  lemma {:induction false} EveryRunKeepsNames(render: Value -> string, s: Sys, events: seq<Event>, n: nat) returns (after: seq<View>)
    requires s.flights == map[] && AllFresh(events) && NamesFine(render, s.row.views, events) && n <= |events|
    ensures FoundOrNamed(s.row.views, AtStep(render, s, events, n).row.views, after)
    decreases n
  {
    hide StoreOk, NamesDistinct, NamesWhole, Serve, StoredAll, FreshDrawn, GoodIds, Settled, AtStep, Window, Stores, StartStep, Decide, LoadAll;
    if n == 0 {
      StartsAt(render, s, events);
      after := [];
    } else if StoresList(render, s, events, n - 1) {
      StoringInFlight(render, s, events, n - 1);
      var m := StartStep(render, s, events, n - 1, events[n - 1].r);
      ListServed(render, s, events, n - 1);
      var before := EveryRunKeepsNames(render, s, events, m);
      if AtStep(render, s, events, m).row.views == s.row.views {
        after := ServeAnythingKeepsNames(render, s.row.views, events[m].req, events[m].ids, events[n - 1].ids);
      } else {
        after := ServeKeepsNames(render, before, events[m].req, events[m].ids, events[n - 1].ids);
      }
    } else if Stores(render, s, events, n - 1) {
      var w := StoreWindow(render, s, events, n - 1);
      WindowOrder(render, s, events, w, n - 1);
      after := EveryRunKeepsNames(render, s, events, w);
      StoredBack(render, s, events, w, n - 1);
    } else {
      QuietStep(render, s, events, n - 1);
      after := EveryRunKeepsNames(render, s, events, n - 1);
    }
  }
}
