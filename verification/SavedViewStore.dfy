/** The saved-view routes: each request reads a snapshot of the stored list and decides
    on it; a later transaction reads the whole preferences row again and stores it back
    with the list replaced. */
module SavedViewStore {
  import opened Values
  import opened Text
  import opened SavedViews

  /** `spare` is the fresh id a create request draws, `now` its timestamp. */
  datatype Request =
    | Create(raw: Raw, spare: string, now: string)
    | Update(viewId: string, raw: Raw, now: string)
    | Delete(viewId: string)

  datatype Refusal = NameRequired | TooMany | NameExists | NotFound

  datatype Decision = Write(views: seq<View>) | Refuse(why: Refusal)

  // ------------------------------------------------------------- deciding a request

  function RouteId(render: Value -> string, viewId: string): string {
    IdOf(render, Str(viewId))
  }

  /** The view a request carries; `_normalize_saved_view_payload`. */
  function Carried(render: Value -> string, req: Request): View
    requires !req.Delete?
  {
    match req
    case Create(raw, spare, now) => ViewOf(render, raw, IdOrFresh(render, raw, spare), now)
    case Update(viewId, raw, now) => ViewOf(render, raw, RouteId(render, viewId), now)
  }

  /** Some view, other than the one with the given id, has this name up to case. */
  predicate Taken(views: seq<View>, name: string, id: string) {
    exists i :: 0 <= i < |views| && views[i].id != id && Lower(Strip(views[i].name)) == Lower(name)
  }

  function IndexOf(views: seq<View>, id: string): (i: nat)
    requires HasId(views, id)
    ensures i < |views| && views[i].id == id && forall j :: 0 <= j < i ==> views[j].id != id
  {
    if views[0].id == id then 0
    else
      assert HasId(views[1..], id) by {
        var k :| 0 <= k < |views| && views[k].id == id;
        assert views[1..][k - 1].id == id;
      }
      1 + IndexOf(views[1..], id)
  }

  function Without(views: seq<View>, id: string): seq<View> {
    if views == [] then []
    else
      var before, last := Without(views[..|views| - 1], id), views[|views| - 1];
      if last.id == id then before else before + [last]
  }

  /** What a request decides on the list it loaded. */
  function Decide(render: Value -> string, loaded: seq<View>, req: Request): Decision {
    match req
    case Create(_, _, _) =>
      var view := Carried(render, req);
      if view.name == "" then Refuse(NameRequired)
      else if |loaded| >= MAX_VIEWS then Refuse(TooMany)
      else if Taken(loaded, view.name, "") then Refuse(NameExists)
      else Write(loaded + [view])
    case Update(viewId, _, _) =>
      var id := RouteId(render, viewId);
      var view := Carried(render, req);
      if id == "" then Refuse(NotFound)
      else if view.name == "" then Refuse(NameRequired)
      else if !HasId(loaded, id) then Refuse(NotFound)
      else if Taken(loaded, view.name, id) then Refuse(NameExists)
      else Write(loaded[IndexOf(loaded, id) := view])
    case Delete(viewId) =>
      var id := RouteId(render, viewId);
      if id == "" || !HasId(loaded, id) then Refuse(NotFound) else Write(Without(loaded, id))
  }

  /** What the write transaction stores for the list a request decided on. */
  function Saved(render: Value -> string, views: seq<View>, ids: nat -> string): seq<Raw> {
    StoredAll(LoadAll(render, StoredAll(views), ids))
  }

  lemma {:induction false} WithoutSame(views: seq<View>, id: string)
    ensures |Without(views, id)| <= |views|
    ensures |Without(views, id)| == |views| <==> !HasId(views, id)
    ensures !HasId(views, id) ==> Without(views, id) == views
  {
    if views != [] {
      var n := |views| - 1;
      WithoutSame(views[..n], id);
      assert views == views[..n] + [views[n]];
      HasIdAppend(views[..n], views[n]);
    }
  }

  /** Deleting removes exactly the views with the id. */
  lemma {:induction false} WithoutViews(views: seq<View>, id: string)
    ensures forall v :: v in Without(views, id) <==> v in views && v.id != id
    ensures DistinctIds(views) ==> DistinctIds(Without(views, id))
  {
    hide ViewOnce;
    if views != [] {
      var n := |views| - 1;
      WithoutViews(views[..n], id);
      assert views == views[..n] + [views[n]];
      var before := Without(views[..n], id);
      if DistinctIds(views) && views[n].id != id {
        forall i | 0 <= i < |before| ensures before[i].id != views[n].id { assert before[i] in views[..n]; }
      }
    }
  }

  /** The views left stay in order. */
  lemma {:induction false} WithoutAppend(a: seq<View>, b: seq<View>, id: string)
    ensures Without(a + b, id) == Without(a, id) + Without(b, id)
    decreases |b|
  {
    if b == [] {
      assert a + b == a;
    } else {
      var n := |b| - 1;
      WithoutAppend(a, b[..n], id);
      assert (a + b)[..|a + b| - 1] == a + b[..n];
    }
  }

  lemma WithoutOnce(views: seq<View>, id: string)
    ensures AllOnce(views) ==> AllOnce(Without(views, id))
  {
    hide ViewOnce, Without;
    WithoutViews(views, id);
    var kept := Without(views, id);
    if AllOnce(views) {
      forall i | 0 <= i < |kept| ensures ViewOnce(kept[i]) { assert kept[i] in views; }
    }
  }

  // ----------------------------------------------------------------- stored session

  /** One session's preferences row: the saved views, and every other preference. */
  datatype Row = Row(views: seq<Raw>, other: map<string, Value>)

  function Put(m: map<string, Value>, key: string, value: Option<Value>): map<string, Value> {
    if value.Some? then m[key := value.value] else m - {key}
  }

  class Preferences {
    var row: Row

    constructor (row: Row)
      ensures this.row == row
    {
      this.row := row;
    }

    /** The first half of a route: load a snapshot, then refuse or decide on a list. */
    method Prepare(render: Value -> string, req: Request, ids: nat -> string) returns (d: Decision)
      ensures d == Decide(render, LoadAll(render, row.views, ids), req)
    {
      hide LoadAll, ViewOf, IdOf;
      var loaded := NormalizeViews(render, row.views, ids);
      match req {
        case Create(raw, spare, now) =>
          var view := NormalizePayload(render, raw, IdOrFresh(render, raw, spare), now);
          var taken := SeekName(loaded, view.name, "");
          d := if view.name == "" then Refuse(NameRequired)
               else if |loaded| >= MAX_VIEWS then Refuse(TooMany)
               else if taken then Refuse(NameExists)
               else Write(loaded + [view]);
        case Update(viewId, raw, now) =>
          var id := RouteId(render, viewId);
          var view := NormalizePayload(render, raw, id, now);
          var index := SeekId(loaded, id);
          var taken := SeekName(loaded, view.name, id);
          d := if id == "" then Refuse(NotFound)
               else if view.name == "" then Refuse(NameRequired)
               else if index < 0 then Refuse(NotFound)
               else if taken then Refuse(NameExists)
               else Write(loaded[index := view]);
        case Delete(viewId) =>
          var id := RouteId(render, viewId);
          var kept := Filter(loaded, id);
          WithoutSame(loaded, id);
          d := if id == "" || |kept| == |loaded| then Refuse(NotFound) else Write(kept);
      }
    }

    /** The second half reads the row again, without a lock. */
    method Reread() returns (captured: Row)
      ensures captured == row
    {
      captured := row;
    }

    /** And then stores the whole row it read, with the list replaced. */
    method Save(render: Value -> string, list: seq<View>, captured: Row, ids: nat -> string)
      modifies this
      ensures row == StoredRow(render, SaveViews(list), captured, ids)
    {
      var loaded := NormalizeViews(render, StoredAll(list), ids);
      row := Row(StoredAll(loaded), captured.other);
    }

    /** Other writers do likewise with their own preference. */
    method SaveOther(render: Value -> string, key: string, value: Option<Value>, captured: Row, ids: nat -> string)
      modifies this
      ensures row == StoredRow(render, Change(key, value), captured, ids)
    {
      row := Row(captured.views, Put(captured.other, key, value));
    }
  }

  method SeekName(views: seq<View>, name: string, id: string) returns (taken: bool)
    ensures taken == Taken(views, name, id)
  {
    taken := false;
    for i := 0 to |views|
      invariant taken == exists k :: 0 <= k < i && views[k].id != id && Lower(Strip(views[k].name)) == Lower(name)
    {
      if views[i].id != id && Lower(Strip(views[i].name)) == Lower(name) { taken := true; }
    }
  }

  method SeekId(views: seq<View>, id: string) returns (index: int)
    ensures if HasId(views, id) then index == IndexOf(views, id) else index == -1
  {
    index := 0;
    while index < |views| && views[index].id != id
      invariant 0 <= index <= |views| && forall j :: 0 <= j < index ==> views[j].id != id
    {
      index := index + 1;
    }
    if index == |views| { index := -1; }
  }

  method Filter(views: seq<View>, id: string) returns (kept: seq<View>)
    ensures kept == Without(views, id)
  {
    kept := [];
    for i := 0 to |views|
      invariant kept == Without(views[..i], id)
    {
      assert views[..i + 1][..i] == views[..i];
      if views[i].id != id { kept := kept + [views[i]]; }
    }
    assert views[..|views|] == views;
  }

  // ------------------------------------------------------------- interleaved writers

  /** What a writer of the row is about to store: a list of views, or one other preference. */
  datatype Job = SaveViews(list: seq<View>) | Change(key: string, value: Option<Value>)

  /** A writer in flight, and the row its transaction has read, once it has. */
  datatype Flight = Flight(job: Job, captured: Option<Row>)

  datatype Sys = Sys(row: Row, flights: map<nat, Flight>)

  datatype Event =
    | Snapshot(r: nat, req: Request, ids: nat -> string)
    | Begin(r: nat, key: string, value: Option<Value>)
    | Reread(r: nat)
    | Store(r: nat, ids: nat -> string)

  /** The whole row is written back, with the writer's own part replaced. */
  function StoredRow(render: Value -> string, job: Job, captured: Row, ids: nat -> string): Row {
    match job
    case SaveViews(list) => Row(Saved(render, list, ids), captured.other)
    case Change(key, value) => Row(captured.views, Put(captured.other, key, value))
  }

  /** A writer that has read the row. */
  predicate Ready(s: Sys, r: nat) {
    r in s.flights && s.flights[r].captured.Some?
  }

  function Next(render: Value -> string, s: Sys, e: Event): Sys {
    match e
    case Snapshot(r, req, ids) =>
      var d := Decide(render, LoadAll(render, s.row.views, ids), req);
      if r !in s.flights && d.Write? then s.(flights := s.flights[r := Flight(SaveViews(d.views), None)]) else s
    case Begin(r, key, value) =>
      if r !in s.flights then s.(flights := s.flights[r := Flight(Change(key, value), None)]) else s
    case Reread(r) =>
      if r in s.flights && !Ready(s, r) then s.(flights := s.flights[r := Flight(s.flights[r].job, Some(s.row))]) else s
    case Store(r, ids) =>
      if Ready(s, r) then
        Sys(StoredRow(render, s.flights[r].job, s.flights[r].captured.value, ids), s.flights - {r})
      else s
  }

  function Run(render: Value -> string, s: Sys, events: seq<Event>): Sys {
    if events == [] then s
    else Next(render, Run(render, s, events[..|events| - 1]), events[|events| - 1])
  }

  /** The state before step `n`. */
  function AtStep(render: Value -> string, s: Sys, events: seq<Event>, n: nat): Sys
    requires n <= |events|
  {
    Run(render, s, events[..n])
  }

  lemma StepTo(render: Value -> string, s: Sys, events: seq<Event>, n: nat)
    requires n < |events|
    ensures AtStep(render, s, events, n + 1) == Next(render, AtStep(render, s, events, n), events[n])
  {
    assert events[..n + 1][..n] == events[..n];
  }

  /** Generated ids have the form the routes generate. */
  ghost predicate Drawn(e: Event) {
    e.Snapshot? ==> GoodIds(e.ids) && (e.req.Create? ==> WellFormedId(e.req.spare))
  }

  ghost predicate AllDrawn(events: seq<Event>) {
    forall i :: 0 <= i < |events| ==> Drawn(events[i])
  }

  /** The stored list is in order: at most 30 views with names and distinct
      well-formed ids, and reading it changes nothing. */
  ghost predicate InOrder(render: Value -> string, raws: seq<Raw>) {
    exists views :: StoreOk(views) && raws == StoredAll(views) && forall ids :: LoadAll(render, raws, ids) == views
  }

  lemma CarriedOnce(render: Value -> string, req: Request)
    requires !req.Delete?
    requires req.Create? ==> WellFormedId(req.spare)
    requires req.Update? ==> RouteId(render, req.viewId) != ""
    ensures ViewOnce(Carried(render, req))
  {
    hide ViewOf, ViewOnce, IdOf, WellFormedId;
    match req
    case Create(raw, spare, now) =>
      IdOfWellFormed(render, Top(raw, Id));
      ViewIsOnce(render, raw, IdOrFresh(render, raw, spare), now);
    case Update(viewId, raw, now) =>
      IdOfWellFormed(render, Str(viewId));
      ViewIsOnce(render, raw, RouteId(render, viewId), now);
  }

  lemma DecidedOnce(render: Value -> string, loaded: seq<View>, req: Request)
    requires AllOnce(loaded) && (req.Create? ==> WellFormedId(req.spare))
    requires Decide(render, loaded, req).Write?
    ensures AllOnce(Decide(render, loaded, req).views)
  {
    hide ViewOnce, WellFormedId, IdOf, ViewOf;
    if req.Delete? {
      WithoutOnce(loaded, RouteId(render, req.viewId));
    } else {
      CarriedOnce(render, req);
    }
  }

  lemma SavedInOrder(render: Value -> string, views: seq<View>, ids: nat -> string)
    requires AllOnce(views)
    ensures InOrder(render, Saved(render, views, ids))
  {
    hide StoreOk, LoadAll, StoredAll, ViewOnce;
    LoadAllSettles(render, views, ids);
    var list := LoadAll(render, StoredAll(views), ids);
    forall ids' ensures LoadAll(render, StoredAll(list), ids') == list { StoreOkFixed(render, list, ids'); }
  }

  /** A list found at the start, or in order. */
  ghost predicate FoundOrInOrder(render: Value -> string, found: seq<Raw>, raws: seq<Raw>) {
    raws == found || InOrder(render, raws)
  }

  ghost predicate FlightOk(render: Value -> string, found: seq<Raw>, f: Flight) {
    && (f.job.SaveViews? ==> AllOnce(f.job.list))
    && (f.captured.Some? ==> FoundOrInOrder(render, found, f.captured.value.views))
  }

  ghost predicate SysOk(render: Value -> string, found: seq<Raw>, s: Sys) {
    FoundOrInOrder(render, found, s.row.views) && forall r :: r in s.flights ==> FlightOk(render, found, s.flights[r])
  }

  lemma NextOk(render: Value -> string, found: seq<Raw>, s: Sys, e: Event)
    requires SysOk(render, found, s) && Drawn(e)
    ensures SysOk(render, found, Next(render, s, e))
  {
    hide Decide, Saved, AllOnce, InOrder, GoodIds, WellFormedId, LoadAll;
    match e
    case Snapshot(r, req, ids) =>
      var loaded := LoadAll(render, s.row.views, ids);
      LoadAllOnce(render, s.row.views, ids);
      if Decide(render, loaded, req).Write? { DecidedOnce(render, loaded, req); }
    case Begin(_, _, _) =>
    case Reread(_) =>
    case Store(r, ids) =>
      if Ready(s, r) {
        assert FlightOk(render, found, s.flights[r]);
        if s.flights[r].job.SaveViews? { SavedInOrder(render, s.flights[r].job.list, ids); }
      }
  }

  /** Over every interleaving, from any stored preferences at all: the list is the
      one found at the start, or in order. */
  lemma {:induction false} EveryRunInOrder(render: Value -> string, s: Sys, events: seq<Event>)
    requires s.flights == map[] && AllDrawn(events)
    ensures Run(render, s, events).row.views == s.row.views || InOrder(render, Run(render, s, events).row.views)
    ensures SysOk(render, s.row.views, Run(render, s, events))
  {
    hide Next, InOrder, FlightOk, Drawn;
    if events != [] {
      var n := |events| - 1;
      EveryRunInOrder(render, s, events[..n]);
      NextOk(render, s.row.views, Run(render, s, events[..n]), events[n]);
    }
  }

  // ---------------------------------------------------------------------- windows

  /** Step `m` is the re-read of the writer that stores at step `n`. */
  ghost predicate Window(render: Value -> string, s: Sys, events: seq<Event>, m: nat, n: nat) {
    && m < n < |events| && events[n].Store? && events[m] == Reread(events[n].r)
    && events[n].r in AtStep(render, s, events, m).flights && !Ready(AtStep(render, s, events, m), events[n].r)
    && forall j :: m < j <= n ==> Ready(AtStep(render, s, events, j), events[n].r)
  }

  /** Step `n` stores what some writer decided on. */
  ghost predicate Stores(render: Value -> string, s: Sys, events: seq<Event>, n: nat) {
    n < |events| && events[n].Store? && Ready(AtStep(render, s, events, n), events[n].r)
  }

  function JobAt(render: Value -> string, s: Sys, events: seq<Event>, n: nat): Job
    requires Stores(render, s, events, n)
  {
    AtStep(render, s, events, n).flights[events[n].r].job
  }

  /** Between its re-read and its store a writer keeps its job and the row it read. */
  lemma {:induction false} WindowKeeps(render: Value -> string, s: Sys, events: seq<Event>, m: nat, n: nat, j: nat)
    requires Window(render, s, events, m, n) && m < j <= n
    ensures AtStep(render, s, events, j).flights[events[n].r]
         == Flight(AtStep(render, s, events, m).flights[events[n].r].job, Some(AtStep(render, s, events, m).row))
    decreases j
  {
    hide Decide, LoadAll, StoredRow, AtStep;
    StepTo(render, s, events, j - 1);
    if j > m + 1 {
      WindowKeeps(render, s, events, m, n, j - 1);
      assert Ready(AtStep(render, s, events, j - 1), events[n].r) && Ready(AtStep(render, s, events, j), events[n].r);
    }
  }

  /** Every store has its re-read. */
  lemma {:induction false} ReadyWindow(render: Value -> string, s: Sys, events: seq<Event>, j: nat, n: nat) returns (m: nat)
    requires s.flights == map[] && j <= n && Stores(render, s, events, n)
    requires forall i :: j <= i <= n ==> Ready(AtStep(render, s, events, i), events[n].r)
    ensures Window(render, s, events, m, n)
    decreases j
  {
    hide Decide, LoadAll, StoredRow, AtStep;
    assert Ready(AtStep(render, s, events, j), events[n].r);
    StartsAt(render, s, events);
    if j == 0 {
      assert false;
    } else {
      StepTo(render, s, events, j - 1);
      if Ready(AtStep(render, s, events, j - 1), events[n].r) {
        m := ReadyWindow(render, s, events, j - 1, n);
      } else {
        m := j - 1;
      }
    }
  }

  lemma StartsAt(render: Value -> string, s: Sys, events: seq<Event>)
    ensures AtStep(render, s, events, 0) == s
  {
  }

  lemma StoreWindow(render: Value -> string, s: Sys, events: seq<Event>, n: nat) returns (m: nat)
    requires s.flights == map[] && Stores(render, s, events, n)
    ensures Window(render, s, events, m, n)
  {
    m := ReadyWindow(render, s, events, n, n);
  }

  // --------------------------------------------------------- what is rolled back

  /** The parts of the row that writers replace. */
  datatype Slot = ViewsSlot | KeySlot(key: string)

  datatype Content = Listed(raws: seq<Raw>) | Entry(value: Option<Value>)

  function ContentOf(row: Row, slot: Slot): Content {
    match slot
    case ViewsSlot => Listed(row.views)
    case KeySlot(key) => Entry(if key in row.other then Some(row.other[key]) else None)
  }

  function SlotOf(job: Job): Slot {
    if job.SaveViews? then ViewsSlot else KeySlot(job.key)
  }

  function Written(render: Value -> string, job: Job, ids: nat -> string): Content {
    match job
    case SaveViews(list) => Listed(Saved(render, list, ids))
    case Change(_, value) => Entry(value)
  }

  lemma StoredContent(render: Value -> string, job: Job, captured: Row, ids: nat -> string, slot: Slot)
    ensures ContentOf(StoredRow(render, job, captured, ids), slot)
         == if slot == SlotOf(job) then Written(render, job, ids) else ContentOf(captured, slot)
  {
    hide Saved;
  }

  function ContentAt(render: Value -> string, s: Sys, events: seq<Event>, n: nat, slot: Slot): Content
    requires n <= |events|
  {
    ContentOf(AtStep(render, s, events, n).row, slot)
  }

  /** What the slot's own writers last stored before step `n`. */
  ghost function Intended(render: Value -> string, s: Sys, events: seq<Event>, n: nat, slot: Slot): Content
    requires n <= |events|
  {
    if n == 0 then ContentOf(s.row, slot)
    else if Stores(render, s, events, n - 1) && SlotOf(JobAt(render, s, events, n - 1)) == slot then
      Written(render, JobAt(render, s, events, n - 1), events[n - 1].ids)
    else Intended(render, s, events, n - 1, slot)
  }

  /** A step that stores nothing changes no content. */
  lemma QuietStep(render: Value -> string, s: Sys, events: seq<Event>, n: nat)
    requires n < |events| && !Stores(render, s, events, n)
    ensures AtStep(render, s, events, n + 1).row == AtStep(render, s, events, n).row
  {
    hide Decide, LoadAll, StoredRow, AtStep;
    StepTo(render, s, events, n);
  }

  /** Storing sets the writer's own slot, and puts every other back to what it was at the re-read. */
  lemma StoreRestores(render: Value -> string, s: Sys, events: seq<Event>, m: nat, n: nat, slot: Slot)
    requires Window(render, s, events, m, n)
    ensures Stores(render, s, events, n)
    ensures ContentAt(render, s, events, n + 1, slot)
         == if slot == SlotOf(JobAt(render, s, events, n)) then Written(render, JobAt(render, s, events, n), events[n].ids)
            else ContentAt(render, s, events, m, slot)
  {
    hide Decide, LoadAll, StoredRow, AtStep, ContentOf, Written;
    assert Ready(AtStep(render, s, events, n), events[n].r);
    WindowKeeps(render, s, events, m, n, n);
    StepTo(render, s, events, n);
    var f := AtStep(render, s, events, n).flights[events[n].r];
    StoredContent(render, f.job, f.captured.value, events[n].ids, slot);
  }

  /** The slot always holds what its own writers last stored. */
  ghost predicate NeverRolledBack(render: Value -> string, s: Sys, events: seq<Event>, slot: Slot) {
    forall n :: 0 <= n <= |events| ==> ContentAt(render, s, events, n, slot) == Intended(render, s, events, n, slot)
  }

  /** No writer of another part has the slot's content replaced between its re-read and its store. */
  ghost predicate NoneCaught(render: Value -> string, s: Sys, events: seq<Event>, slot: Slot) {
    forall m: nat, n: nat :: m < n < |events| && Window(render, s, events, m, n) && Stores(render, s, events, n) && SlotOf(JobAt(render, s, events, n)) != slot
              ==> Intended(render, s, events, m, slot) == Intended(render, s, events, n, slot)
  }

  lemma {:induction false} UncaughtKept(render: Value -> string, s: Sys, events: seq<Event>, slot: Slot, n: nat)
    requires s.flights == map[] && n <= |events| && NoneCaught(render, s, events, slot)
    ensures ContentAt(render, s, events, n, slot) == Intended(render, s, events, n, slot)
    decreases n
  {
    hide AtStep, ContentOf, Written, Window, Stores;
    if n == 0 {
      StartsAt(render, s, events);
    } else if Stores(render, s, events, n - 1) {
      var m := StoreWindow(render, s, events, n - 1);
      StoreRestores(render, s, events, m, n - 1, slot);
      WindowOrder(render, s, events, m, n - 1);
      UncaughtKept(render, s, events, slot, m);
      UncaughtKept(render, s, events, slot, n - 1);
    } else {
      QuietStep(render, s, events, n - 1);
      UncaughtKept(render, s, events, slot, n - 1);
    }
  }

  lemma WindowOrder(render: Value -> string, s: Sys, events: seq<Event>, m: nat, n: nat)
    requires Window(render, s, events, m, n)
    ensures m < n < |events|
  {
  }

  /** Over every interleaving: some preference is rolled back exactly when its
      writers leave something else between another writer's re-read and store. */
  lemma RolledBackIff(render: Value -> string, s: Sys, events: seq<Event>, slot: Slot)
    requires s.flights == map[]
    ensures NeverRolledBack(render, s, events, slot) <==> NoneCaught(render, s, events, slot)
  {
    hide AtStep, ContentOf, Written, ContentAt, Intended, Window, Stores, JobAt, SlotOf;
    if NoneCaught(render, s, events, slot) {
      forall n | 0 <= n <= |events| ensures ContentAt(render, s, events, n, slot) == Intended(render, s, events, n, slot) {
        UncaughtKept(render, s, events, slot, n);
      }
    }
    if NeverRolledBack(render, s, events, slot) {
      forall m: nat, n: nat | m < n < |events| && Window(render, s, events, m, n) && Stores(render, s, events, n)
                              && SlotOf(JobAt(render, s, events, n)) != slot
        ensures Intended(render, s, events, m, slot) == Intended(render, s, events, n, slot)
      {
        StoreRestores(render, s, events, m, n, slot);
        IntendedKept(render, s, events, n, slot);
        assert ContentAt(render, s, events, m, slot) == Intended(render, s, events, m, slot);
        assert ContentAt(render, s, events, n + 1, slot) == Intended(render, s, events, n + 1, slot);
      }
    }
  }

  lemma IntendedKept(render: Value -> string, s: Sys, events: seq<Event>, n: nat, slot: Slot)
    requires n < |events| && !(Stores(render, s, events, n) && SlotOf(JobAt(render, s, events, n)) == slot)
    ensures Intended(render, s, events, n + 1, slot) == Intended(render, s, events, n, slot)
  {
    hide AtStep, Stores;
  }

  /** The intended content changes only where one of the slot's own writers stores. */
  lemma {:induction false} ChangedBySomeWriter(render: Value -> string, s: Sys, events: seq<Event>, slot: Slot, m: nat, n: nat)
    returns (j: nat)
    requires m <= n <= |events| && Intended(render, s, events, m, slot) != Intended(render, s, events, n, slot)
    ensures m <= j < n && Stores(render, s, events, j) && SlotOf(JobAt(render, s, events, j)) == slot
    decreases n
  {
    hide AtStep, Stores, JobAt, Intended, SlotOf;
    if Stores(render, s, events, n - 1) && SlotOf(JobAt(render, s, events, n - 1)) == slot {
      j := n - 1;
    } else {
      IntendedKept(render, s, events, n - 1, slot);
      j := ChangedBySomeWriter(render, s, events, slot, m, n - 1);
    }
  }

  /** The loss does occur: a preference written inside an accepted request's window is undone. */
  lemma PreferenceUndone(render: Value -> string, row: Row, req: Request, ids: nat -> string, key: string, value: Option<Value>)
    requires Decide(render, LoadAll(render, row.views, ids), req).Write?
    ensures var undone := Run(render, Sys(row, map[]),
                              [Snapshot(1, req, ids), Reread(1), Begin(2, key, value), Reread(2), Store(2, ids), Store(1, ids)]);
            ContentOf(undone.row, KeySlot(key)) == ContentOf(row, KeySlot(key))
  {
    hide Decide, LoadAll, Saved;
    RunSix(render, Sys(row, map[]), Snapshot(1, req, ids), Reread(1), Begin(2, key, value), Reread(2), Store(2, ids), Store(1, ids));
  }

  /** And so is a list stored inside another writer's window. */
  lemma ListUndone(render: Value -> string, row: Row, req: Request, ids: nat -> string, key: string, value: Option<Value>)
    requires Decide(render, LoadAll(render, row.views, ids), req).Write?
    ensures var undone := Run(render, Sys(row, map[]),
                              [Begin(2, key, value), Reread(2), Snapshot(1, req, ids), Reread(1), Store(1, ids), Store(2, ids)]);
            undone.row.views == row.views
  {
    hide Decide, LoadAll, Saved;
    RunSix(render, Sys(row, map[]), Begin(2, key, value), Reread(2), Snapshot(1, req, ids), Reread(1), Store(1, ids), Store(2, ids));
  }

  lemma RunSix(render: Value -> string, s: Sys, e1: Event, e2: Event, e3: Event, e4: Event, e5: Event, e6: Event)
    ensures Run(render, s, [e1, e2, e3, e4, e5, e6])
         == Next(render, Next(render, Next(render, Next(render, Next(render, Next(render, s, e1), e2), e3), e4), e5), e6)
  {
    hide Next, Run;
    var es := [e1, e2, e3, e4, e5, e6];
    StartsAt(render, s, es);
    StepTo(render, s, es, 0);
    StepTo(render, s, es, 1);
    StepTo(render, s, es, 2);
    StepTo(render, s, es, 3);
    StepTo(render, s, es, 4);
    StepTo(render, s, es, 5);
    assert es[..6] == es;
  }

  lemma {:induction false} RunAppend(render: Value -> string, s: Sys, first: seq<Event>, rest: seq<Event>)
    ensures Run(render, s, first + rest) == Run(render, Run(render, s, first), rest)
    decreases |rest|
  {
    hide Next;
    if rest == [] {
      assert first + rest == first;
    } else {
      var n := |rest| - 1;
      RunAppend(render, s, first, rest[..n]);
      assert (first + rest)[..|first| + n] == first + rest[..n];
    }
  }

  // ------------------------------------------------------- one request, one list

  /** Request `r`, taking its snapshot at step `m`, decided on `list`. */
  ghost predicate DecidedAt(render: Value -> string, s: Sys, events: seq<Event>, m: nat, r: nat, list: seq<View>) {
    && m < |events| && events[m].Snapshot? && events[m].r == r
    && Decide(render, LoadAll(render, AtStep(render, s, events, m).row.views, events[m].ids), events[m].req) == Write(list)
  }

  /** The list of a request in flight is what it decided on its own snapshot. */
  lemma {:induction false} FlightDecided(render: Value -> string, s: Sys, events: seq<Event>, n: nat, r: nat) returns (m: nat)
    requires s.flights == map[] && n <= |events| && r in AtStep(render, s, events, n).flights
    requires AtStep(render, s, events, n).flights[r].job.SaveViews?
    ensures m < n && DecidedAt(render, s, events, m, r, AtStep(render, s, events, n).flights[r].job.list)
    decreases n
  {
    hide Decide, LoadAll, StoredRow, AtStep;
    if n == 0 {
      StartsAt(render, s, events);
      assert false;
    } else {
      StepTo(render, s, events, n - 1);
      if r in AtStep(render, s, events, n - 1).flights {
        m := FlightDecided(render, s, events, n - 1, r);
      } else {
        m := n - 1;
      }
    }
  }

  /** Step `n` stores the normalized result of the decision that request `r` took
      on its own snapshot at step `m`. */
  ghost predicate StoresDecision(render: Value -> string, s: Sys, events: seq<Event>, n: nat, m: nat, list: seq<View>)
    requires n < |events|
  {
    && m < n && events[n].Store? && DecidedAt(render, s, events, m, events[n].r, list)
    && AtStep(render, s, events, n + 1).row.views == Saved(render, list, events[n].ids)
  }

  /** Step `n` stores another preference, and with it the list as it was at the writer's re-read. */
  ghost predicate StoresBack(render: Value -> string, s: Sys, events: seq<Event>, n: nat, m: nat)
    requires n < |events|
  {
    && Window(render, s, events, m, n) && Stores(render, s, events, n) && JobAt(render, s, events, n).Change?
    && AtStep(render, s, events, n + 1).row.views == AtStep(render, s, events, m).row.views
  }

  /** Whatever the interleaving, a step that stores the row leaves the normalized
      result of one single request, or the list that another writer had read. */
  lemma WrittenByOneRequest(render: Value -> string, s: Sys, events: seq<Event>, n: nat) returns (m: nat)
    requires s.flights == map[] && Stores(render, s, events, n)
    ensures match JobAt(render, s, events, n)
            case SaveViews(list) => StoresDecision(render, s, events, n, m, list)
            case Change(_, _) => StoresBack(render, s, events, n, m)
  {
    hide Decide, LoadAll, Saved, AtStep, DecidedAt, Window;
    var w := StoreWindow(render, s, events, n);
    StoreRestores(render, s, events, w, n, ViewsSlot);
    WindowOrder(render, s, events, w, n);
    if JobAt(render, s, events, n).SaveViews? {
      m := FlightDecided(render, s, events, n, events[n].r);
    } else {
      m := w;
    }
  }

  /** The list is the normalized result of a decision taken before step `n`. */
  ghost predicate FromOneRequest(render: Value -> string, s: Sys, events: seq<Event>, n: nat, raws: seq<Raw>) {
    exists m: nat, r, list, ids :: m < n && DecidedAt(render, s, events, m, r, list) && raws == Saved(render, list, ids)
  }

  /** So every list ever stored is the one found, or the result of one request. */
  lemma {:induction false} EveryListFromOneRequest(render: Value -> string, s: Sys, events: seq<Event>, n: nat)
    requires s.flights == map[] && n <= |events|
    ensures AtStep(render, s, events, n).row.views == s.row.views
            || FromOneRequest(render, s, events, n, AtStep(render, s, events, n).row.views)
    decreases n
  {
    hide Decide, LoadAll, Saved, AtStep, DecidedAt, Window, Stores;
    if n == 0 {
      StartsAt(render, s, events);
    } else if Stores(render, s, events, n - 1) {
      var m := WrittenByOneRequest(render, s, events, n - 1);
      if JobAt(render, s, events, n - 1).SaveViews? {
        assert DecidedAt(render, s, events, m, events[n - 1].r, JobAt(render, s, events, n - 1).list);
      } else {
        WindowOrder(render, s, events, m, n - 1);
        EveryListFromOneRequest(render, s, events, m);
      }
    } else {
      QuietStep(render, s, events, n - 1);
      EveryListFromOneRequest(render, s, events, n - 1);
    }
  }
}
