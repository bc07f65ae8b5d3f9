/** Overlapping requests: exactly when a later write erases an earlier one. */
module SavedViewOverlap {
  import opened Values
  import opened SavedViews
  import opened SavedViewStore
  import opened SavedViewRefinement

  // ----------------------------------------------------------- a run without a step

  function Dropped(events: seq<Event>, a: nat): seq<Event>
    requires a < |events|
  {
    events[..a] + events[a + 1..]
  }

  /** The run without step `a`, where the full run is before step `j`. */
  function WithoutStep(render: Value -> string, s: Sys, events: seq<Event>, a: nat, j: nat): Sys
    requires a < j <= |events|
  {
    AtStep(render, s, Dropped(events, a), j - 1)
  }

  lemma DroppedSteps(render: Value -> string, s: Sys, events: seq<Event>, a: nat, j: nat)
    requires a < j <= |events|
    ensures WithoutStep(render, s, events, a, a + 1) == AtStep(render, s, events, a)
    ensures j < |events| ==>
              WithoutStep(render, s, events, a, j + 1) == Next(render, WithoutStep(render, s, events, a, j), events[j])
  {
    hide Next, Run;
    var short := Dropped(events, a);
    assert short[..a] == events[..a];
    if j < |events| {
      assert short[j - 1] == events[j];
      StepTo(render, s, short, j - 1);
    }
  }

  /** A request in flight is the same in both runs: its list, and whether it has read the row. */
  lemma {:induction false} SameFlight(render: Value -> string, s: Sys, events: seq<Event>, a: nat, j: nat, r: nat)
    requires a < j <= |events| && events[a].Store? && events[a].r != r
    requires forall i :: a <= i <= j ==> r in AtStep(render, s, events, i).flights
    ensures r in WithoutStep(render, s, events, a, j).flights
    ensures var f, g := AtStep(render, s, events, j).flights[r], WithoutStep(render, s, events, a, j).flights[r];
            f.job == g.job && f.captured.Some? == g.captured.Some?
    decreases j
  {
    hide Decide, LoadAll, StoredRow, AtStep, WithoutStep;
    assert r in AtStep(render, s, events, j).flights && r in AtStep(render, s, events, j - 1).flights;
    StepTo(render, s, events, j - 1);
    if j == a + 1 {
      DroppedSteps(render, s, events, a, j);
    } else {
      SameFlight(render, s, events, a, j - 1, r);
      DroppedSteps(render, s, events, a, j - 1);
    }
  }

  /** A request that had its snapshot before another one stored leaves, when it
      stores, the list it would have left without that other one. Whatever happens in between. */
  lemma EarlierSnapshotErases(render: Value -> string, s: Sys, events: seq<Event>, a: nat, c: nat)
    requires a < c < |events| && Stores(render, s, events, c) && JobAt(render, s, events, c).SaveViews?
    requires events[a].Store? && events[a].r != events[c].r
    requires forall i :: a <= i <= c ==> events[c].r in AtStep(render, s, events, i).flights
    ensures AtStep(render, s, events, c + 1).row.views == WithoutStep(render, s, events, a, c + 1).row.views
  {
    hide Decide, LoadAll, Saved, AtStep, WithoutStep;
    SameFlight(render, s, events, a, c, events[c].r);
    StepTo(render, s, events, c);
    DroppedSteps(render, s, events, a, c);
  }

  // ------------------------------------------------------------ starts of requests

  predicate Starts(e: Event, r: nat) {
    (e.Snapshot? || e.Begin?) && e.r == r
  }

  /** A writer in flight has started, and one that started with a snapshot has a list. */
  lemma {:induction false} FlightStarted(render: Value -> string, s: Sys, events: seq<Event>, j: nat, n: nat, r: nat) returns (m: nat)
    requires j <= n <= |events| && r !in AtStep(render, s, events, j).flights && r in AtStep(render, s, events, n).flights
    ensures j <= m < n && Starts(events[m], r)
    ensures events[m].Snapshot? ==> AtStep(render, s, events, n).flights[r].job.SaveViews?
    decreases n
  {
    hide Decide, LoadAll, StoredRow, AtStep;
    StepTo(render, s, events, n - 1);
    if r in AtStep(render, s, events, n - 1).flights {
      m := FlightStarted(render, s, events, j, n - 1, r);
    } else {
      m := n - 1;
    }
  }

  // -------------------------------------------------------------- a request alone

  predicate NoStore(events: seq<Event>) {
    forall i :: 0 <= i < |events| ==> !events[i].Store?
  }

  predicate NoStart(events: seq<Event>, r: nat) {
    forall i :: 0 <= i < |events| ==> !Starts(events[i], r)
  }

  predicate Rereads(events: seq<Event>, r: nat) {
    exists i :: 0 <= i < |events| && events[i] == Reread(r)
  }

  /** What events other than stores and starts of `r` leave of the row and of writer `r`. */
  ghost predicate Undisturbed(s: Sys, t: Sys, r: nat, reread: bool) {
    && t.row == s.row && (r in t.flights <==> r in s.flights)
    && (r in s.flights ==> t.flights[r].job == s.flights[r].job && (Ready(t, r) <==> Ready(s, r) || reread))
  }

  lemma QuietEvent(render: Value -> string, s: Sys, e: Event, r: nat)
    requires !e.Store? && !Starts(e, r)
    ensures Undisturbed(s, Next(render, s, e), r, e == Reread(r))
  {
    hide Decide, LoadAll, StoredRow;
  }

  lemma RereadsLast(events: seq<Event>, r: nat)
    requires events != []
    ensures Rereads(events, r) <==> Rereads(events[..|events| - 1], r) || events[|events| - 1] == Reread(r)
  {
    var n := |events| - 1;
    if Rereads(events[..n], r) {
      var i :| 0 <= i < n && events[..n][i] == Reread(r);
      assert events[i] == Reread(r);
    }
  }

  /** Without stores the row stays, and a writer in flight stays in flight. */
  lemma {:induction false} QuietRun(render: Value -> string, s: Sys, events: seq<Event>, r: nat)
    requires NoStore(events) && NoStart(events, r)
    ensures Undisturbed(s, Run(render, s, events), r, Rereads(events, r))
  {
    hide Next, Starts;
    if events != [] {
      var n := |events| - 1;
      QuietRun(render, s, events[..n], r);
      QuietEvent(render, Run(render, s, events[..n]), events[n], r);
      RereadsLast(events, r);
    }
  }

  /** A request whose own events are the only stores: it is served on the list it found. */
  lemma AloneServed(render: Value -> string, s: Sys, r: nat, req: Request, ids1: nat -> string, mid: seq<Event>, ids2: nat -> string)
    requires r !in s.flights && NoStore(mid) && NoStart(mid, r)
    ensures var decided := Decide(render, LoadAll(render, s.row.views, ids1), req).Write?;
            var t := Run(render, s, [Snapshot(r, req, ids1)] + mid);
            && (Ready(t, r) <==> decided && Rereads(mid, r))
            && (Rereads(mid, r) ==> Next(render, t, Store(r, ids2)).row.views == Serve(render, s.row.views, req, ids1, ids2))
  {
    hide Decide, LoadAll, Saved;
    var s1 := Next(render, s, Snapshot(r, req, ids1));
    RunAppend(render, s, [Snapshot(r, req, ids1)], mid);
    assert [Snapshot(r, req, ids1)][..0] == [];
    assert Run(render, s, [Snapshot(r, req, ids1)]) == s1;
    QuietRun(render, s1, mid, r);
  }

  // ------------------------------------------------------------ one view, elsewhere

  function ViewAt(views: seq<View>, id: string): Option<View> {
    if HasId(views, id) then Some(views[IndexOf(views, id)]) else None
  }

  /** The id a request is about. */
  function Concerned(render: Value -> string, req: Request): string {
    if req.Delete? then RouteId(render, req.viewId) else Carried(render, req).id
  }

  lemma StandsAt(views: seq<View>, g: Registry, id: string)
    requires StoreOk(views) && StandsFor(views, g)
    ensures ViewAt(views, id) == if id in g.at then Some(g.at[id]) else None
  {
    hide ViewSettled;
    HasIsIn(views, g, id);
  }

  /** Serving a request leaves every other view as it was. */
  lemma ServedElsewhere(render: Value -> string, views: seq<View>, req: Request, ids1: nat -> string, ids2: nat -> string, id: string)
    returns (after: seq<View>)
    requires StoreOk(views) && FreshDrawn(req) && Concerned(render, req) != id
    ensures Serve(render, StoredAll(views), req, ids1, ids2) == StoredAll(after) && StoreOk(after)
    ensures ViewAt(after, id) == ViewAt(views, id)
  {
    hide StoreOk, StandsFor, Serve, StoredAll, FreshDrawn, RegistryOf, ViewAt, Apply;
    var g := RegistryOf(views);
    SettledDistinct(views);
    RegistryStands(views);
    after := ServeRefines(render, views, g, req, ids1, ids2);
    StandsAt(views, g, id);
    StandsAt(after, Apply(render, g, req), id);
    AppliedElsewhere(render, g, req, id);
  }

  lemma AppliedElsewhere(render: Value -> string, g: Registry, req: Request, id: string)
    requires Concerned(render, req) != id
    ensures var h := Apply(render, g, req);
            (id in h.at <==> id in g.at) && (id in g.at ==> h.at[id] == g.at[id])
  {
    hide ViewOf, IdOf, Settle, NameUsed;
  }

  lemma StoredDiffers(render: Value -> string, u: seq<View>, v: seq<View>, ids: nat -> string)
    requires StoreOk(u) && StoreOk(v) && StoredAll(u) == StoredAll(v)
    ensures u == v
  {
    hide StoreOk, LoadAll, StoredAll;
    StoreOkFixed(render, u, ids);
    StoreOkFixed(render, v, ids);
  }

  // ---------------------------------------------------------------- exactly when

  /** Some writer stores at step `a`, and the list goes from `before` to `after`, both in
      order; a request takes its snapshot at step `b` and stores at step `c`. Nobody else
      stores between the two stores. */
  ghost predicate TwoStores(render: Value -> string, s: Sys, events: seq<Event>, a: nat, b: nat, c: nat,
                            before: seq<View>, after: seq<View>)
  {
    && s.flights == map[] && a < c && b < c && a != b && |events| == c + 1
    && events[a].Store? && events[b].Snapshot? && events[c].Store? && events[c].r == events[b].r != events[a].r
    && (forall i :: a < i < c ==> !events[i].Store?)
    && (forall i :: 0 <= i <= c && Starts(events[i], events[b].r) ==> i == b)
    && Stores(render, s, events, c)
    && StoreOk(before) && AtStep(render, s, events, a).row.views == StoredAll(before)
    && StoreOk(after) && AtStep(render, s, events, a + 1).row.views == StoredAll(after)
    && FreshDrawn(events[b].req)
  }

  lemma OverlappingErases(render: Value -> string, s: Sys, events: seq<Event>, a: nat, b: nat, c: nat,
                          before: seq<View>, after: seq<View>)
    requires TwoStores(render, s, events, a, b, c, before, after) && b < a
    ensures Run(render, s, events).row.views == Run(render, s, Dropped(events, a)).row.views
  {
    hide Decide, LoadAll, StoredRow, StoreOk, StoredAll, Run, FreshDrawn, Next;
    var r := events[c].r;
    StartsAt(render, s, events);
    forall i | a <= i <= c ensures r in AtStep(render, s, events, i).flights {
      if r !in AtStep(render, s, events, i).flights { var m := FlightStarted(render, s, events, i, c, r); }
    }
    var m := FlightStarted(render, s, events, 0, c, r);
    EarlierSnapshotErases(render, s, events, a, c);
    assert events[..c + 1] == events && Dropped(events, a)[..c] == Dropped(events, a);
  }

  /** The run up to the snapshot, and what follows it. */
  lemma LaterServes(render: Value -> string, t: Sys, quiet: seq<Event>, r: nat, req: Request, ids1: nat -> string, mid: seq<Event>, ids2: nat -> string)
    requires r !in t.flights && NoStore(quiet) && NoStart(quiet, r) && NoStore(mid) && NoStart(mid, r) && Rereads(mid, r)
    ensures Run(render, t, quiet + ([Snapshot(r, req, ids1)] + mid + [Store(r, ids2)])).row.views
         == Serve(render, t.row.views, req, ids1, ids2)
  {
    hide Decide, LoadAll, Saved, Serve, Next;
    var u := Run(render, t, quiet);
    QuietRun(render, t, quiet, r);
    AloneServed(render, u, r, req, ids1, mid, ids2);
    var es := [Snapshot(r, req, ids1)] + mid;
    RunAppend(render, t, quiet, es + [Store(r, ids2)]);
    RunAppend(render, u, es, [Store(r, ids2)]);
    assert [Store(r, ids2)][..0] == [];
    assert Run(render, Run(render, u, es), [Store(r, ids2)]) == Next(render, Run(render, u, es), Store(r, ids2));
  }

  /** Lists in order that stand for one map are the same list. */
  lemma StandsSame(u: seq<View>, v: seq<View>, g: Registry)
    requires StandsFor(u, g) && StandsFor(v, g)
    ensures u == v
  {
    assert |u| == |IdsOf(u)| == |IdsOf(v)| == |v|;
    forall i | 0 <= i < |u| ensures u[i] == v[i] { assert IdsOf(u)[i] == IdsOf(v)[i]; }
  }

  /** Serving two lists in order leaves one list exactly when the request takes their maps to one map. */
  lemma ServedAlike(render: Value -> string, before: seq<View>, after: seq<View>, req: Request, ids1: nat -> string, ids2: nat -> string)
    requires StoreOk(before) && StoreOk(after) && FreshDrawn(req)
    ensures Serve(render, StoredAll(before), req, ids1, ids2) == Serve(render, StoredAll(after), req, ids1, ids2)
            <==> Apply(render, RegistryOf(before), req) == Apply(render, RegistryOf(after), req)
  {
    hide StoreOk, StandsFor, Serve, StoredAll, FreshDrawn, RegistryOf, Apply;
    SettledDistinct(before);
    SettledDistinct(after);
    RegistryStands(before);
    RegistryStands(after);
    var u := ServeRefines(render, before, RegistryOf(before), req, ids1, ids2);
    var v := ServeRefines(render, after, RegistryOf(after), req, ids1, ids2);
    if StoredAll(u) == StoredAll(v) {
      StoredDiffers(render, u, v, ids1);
      StandsOnce(u, Apply(render, RegistryOf(before), req), Apply(render, RegistryOf(after), req));
    }
    if Apply(render, RegistryOf(before), req) == Apply(render, RegistryOf(after), req) {
      StandsSame(u, v, Apply(render, RegistryOf(before), req));
    }
  }

  lemma SeparateServed(render: Value -> string, s: Sys, events: seq<Event>, a: nat, b: nat, c: nat,
                       before: seq<View>, after: seq<View>)
    requires TwoStores(render, s, events, a, b, c, before, after) && a < b
    ensures Run(render, s, events).row.views == Serve(render, StoredAll(after), events[b].req, events[b].ids, events[c].ids)
    ensures Run(render, s, Dropped(events, a)).row.views == Serve(render, StoredAll(before), events[b].req, events[b].ids, events[c].ids)
  {
    hide Decide, LoadAll, StoredRow, StoreOk, StoredAll, Run, FreshDrawn, Next, Serve, Rereads;
    var r, req, ids1, ids2 := events[b].r, events[b].req, events[b].ids, events[c].ids;
    var quiet, mid := events[a + 1..b], events[b + 1..c];
    var tail := quiet + ([Snapshot(r, req, ids1)] + mid + [Store(r, ids2)]);
    var p, q := AtStep(render, s, events, a + 1), AtStep(render, s, events, a);
    assert events == events[..a + 1] + tail && Dropped(events, a) == events[..a] + tail;
    RunAppend(render, s, events[..a + 1], tail);
    RunAppend(render, s, events[..a], tail);
    NotYetStarted(render, s, events, a, b, r);
    RereadInBetween(render, s, events, a, b, c, r);
    LaterServes(render, p, quiet, r, req, ids1, mid, ids2);
    LaterServes(render, q, quiet, r, req, ids1, mid, ids2);
  }

  lemma NotYetStarted(render: Value -> string, s: Sys, events: seq<Event>, a: nat, b: nat, r: nat)
    requires s.flights == map[] && a < b < |events|
    requires forall i :: 0 <= i < |events| && Starts(events[i], r) ==> i == b
    ensures r !in AtStep(render, s, events, a).flights && r !in AtStep(render, s, events, a + 1).flights
    ensures r !in AtStep(render, s, events, b).flights
  {
    hide AtStep;
    StartsAt(render, s, events);
    if r in AtStep(render, s, events, a).flights { var m := FlightStarted(render, s, events, 0, a, r); }
    if r in AtStep(render, s, events, a + 1).flights { var m := FlightStarted(render, s, events, 0, a + 1, r); }
    if r in AtStep(render, s, events, b).flights { var m := FlightStarted(render, s, events, 0, b, r); }
  }

  lemma RereadInBetween(render: Value -> string, s: Sys, events: seq<Event>, a: nat, b: nat, c: nat, r: nat)
    requires s.flights == map[] && a < b < c < |events| && events[b].Snapshot? && events[b].r == r
    requires (forall i :: a < i < c ==> !events[i].Store?) && (forall i :: 0 <= i < |events| && Starts(events[i], r) ==> i == b)
    requires Ready(AtStep(render, s, events, c), r)
    ensures Rereads(events[b + 1..c], r)
  {
    hide Decide, LoadAll, StoredRow, Run, Next, Serve;
    var mid := events[b + 1..c];
    NotYetStarted(render, s, events, a, b, r);
    AloneServed(render, AtStep(render, s, events, b), r, events[b].req, events[b].ids, mid, events[b].ids);
    assert events[..c] == events[..b] + ([Snapshot(r, events[b].req, events[b].ids)] + mid);
    RunAppend(render, s, events[..b], [Snapshot(r, events[b].req, events[b].ids)] + mid);
  }

  /** The later store leaves the list of the run without the earlier one exactly when
      it had taken its snapshot before it, or its request takes the map before the
      earlier store and the map after it to one and the same map. */
  lemma ErasedIff(render: Value -> string, s: Sys, events: seq<Event>, a: nat, b: nat, c: nat, before: seq<View>, after: seq<View>)
    requires TwoStores(render, s, events, a, b, c, before, after)
    ensures Run(render, s, events).row.views == Run(render, s, Dropped(events, a)).row.views
            <==> b < a || Apply(render, RegistryOf(before), events[b].req) == Apply(render, RegistryOf(after), events[b].req)
  {
    hide TwoStores, Run, Dropped, Apply, RegistryOf, Serve, StoredAll, StoreOk, FreshDrawn;
    TwoSteps(render, s, events, a, b, c, before, after);
    if b < a {
      OverlappingErases(render, s, events, a, b, c, before, after);
    } else {
      SeparateServed(render, s, events, a, b, c, before, after);
      ServedAlike(render, before, after, events[b].req, events[b].ids, events[c].ids);
    }
  }

  lemma TwoSteps(render: Value -> string, s: Sys, events: seq<Event>, a: nat, b: nat, c: nat, before: seq<View>, after: seq<View>)
    requires TwoStores(render, s, events, a, b, c, before, after)
    ensures a != b && b < |events| && c < |events| && events[b].Snapshot? && events[c].Store?
    ensures StoreOk(before) && StoreOk(after) && FreshDrawn(events[b].req)
  {
  }

  /** A request about another view never does the latter: the view that the earlier
      store changed stays different. */
  lemma OtherViewKept(render: Value -> string, before: seq<View>, after: seq<View>, req: Request, x: string)
    requires StoreOk(before) && StoreOk(after) && FreshDrawn(req)
    requires ViewAt(before, x) != ViewAt(after, x) && Concerned(render, req) != x
    ensures Apply(render, RegistryOf(before), req) != Apply(render, RegistryOf(after), req)
  {
    hide StoreOk, StandsFor, RegistryOf, ViewAt, Apply, Concerned, FreshDrawn;
    var g, h := RegistryOf(before), RegistryOf(after);
    SettledDistinct(before);
    SettledDistinct(after);
    RegistryStands(before);
    RegistryStands(after);
    StandsAt(before, g, x);
    StandsAt(after, h, x);
    AppliedElsewhere(render, g, req, x);
    AppliedElsewhere(render, h, req, x);
  }
}
