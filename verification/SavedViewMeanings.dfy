/** What a request's payload says, and what of it can be read back once it is stored. */
module SavedViewMeanings {
  import opened Values
  import opened Text
  import opened SavedViews
  import opened SavedViewStore
  import opened SavedViewRefinement

  // ------------------------------------------------------------ what a payload says

  /** The value that a payload gives a filter field: the nested one when `filters` has
      the key, the top-level one otherwise. */
  ghost predicate Says(raw: Raw, f: Field, v: Value) {
    && raw.isDict
    && if raw.filters.Some? && f in raw.filters.value then raw.filters.value[f] == v
       else f in raw.fields && raw.fields[f] == v
  }

  /** Name, tab and the like are given at the top level only. */
  ghost predicate SaysTop(raw: Raw, f: Field, v: Value) {
    raw.isDict && f in raw.fields && raw.fields[f] == v
  }

  function Folded(t: string): string {
    Lower(Strip(t))
  }

  lemma SaysIs(raw: Raw, f: Field, v: Value)
    ensures Says(raw, f, v) ==> FilterOrTop(raw, f) == v
    ensures SaysTop(raw, f, v) ==> Top(raw, f) == v
  {
  }

  /** A chosen word is kept, up to blanks and case; any other leaves the fallback. */
  lemma ChoiceMeans(render: Value -> string, t: string, allowed: set<string>, fallback: string)
    requires Folded(fallback) == fallback && "" !in allowed
    ensures Choice(TextOr(render, Str(t), fallback), allowed, fallback) == if Folded(t) in allowed then Folded(t) else fallback
  {
    if t == "" { StripFixed(""); }
  }

  lemma FallbacksFold()
    ensures Folded("findings") == "findings" && Folded("hide") == "hide" && Folded("") == ""
    ensures "" !in TABS && "" !in FILTERS && "" !in STATES
  {
    StripFixed("findings");
    StripFixed("hide");
    StripFixed("");
    assert Lower("findings") == "findings" && Lower("hide") == "hide";
  }

  /** Tab, filters and status of the view that a payload makes. */
  lemma ChoicesSaid(render: Value -> string, raw: Raw, id: string, updated: string, t: string)
    ensures var v := ViewOf(render, raw, id, updated);
            && (SaysTop(raw, Tab, Str(t)) ==>
                  v.tab == if Folded(t) in {"findings", "ip", "domain", "hash", "cve", "url"} then Folded(t) else "findings")
            && (Says(raw, OrphanFilter, Str(t)) ==> v.orphanFilter == if Folded(t) in {"hide", "all", "only"} then Folded(t) else "hide")
            && (Says(raw, SuppressionFilter, Str(t)) ==>
                  v.suppressionFilter == if Folded(t) in {"hide", "all", "only"} then Folded(t) else "hide")
            && (Says(raw, FindingStatus, Str(t)) ==>
                  v.findingStatus == if Folded(t) in {"new", "reviewed", "important", "false_positive", "needs_followup"} then Folded(t) else "")
  {
    hide Choice, Folded, TextOr, ListOf, TrimmedField, NameOf, Says, SaysTop, FilterOrTop, Top;
    FallbacksFold();
    SaysIs(raw, Tab, Str(t));
    SaysIs(raw, OrphanFilter, Str(t));
    SaysIs(raw, SuppressionFilter, Str(t));
    SaysIs(raw, FindingStatus, Str(t));
    ChoiceMeans(render, t, TABS, "findings");
    ChoiceMeans(render, t, FILTERS, "hide");
    ChoiceMeans(render, t, STATES, "");
  }

  lemma CutSaid(render: Value -> string, raw: Raw, f: Field, t: string, n: nat)
    requires Says(raw, f, Str(t))
    ensures TrimmedField(render, raw, f, n) == Cut(Strip(t), n)
  {
    SaysIs(raw, f, Str(t));
    if t == "" { StripFixed(""); }
  }

  lemma NameSaid(render: Value -> string, raw: Raw, t: string)
    requires SaysTop(raw, Name, Str(t))
    ensures NameOf(render, Top(raw, Name)) == Cut(Strip(t), 60)
  {
    if t == "" { StripFixed(""); }
  }

  /** The texts of the view that a payload makes, trimmed and then cut to their limits. */
  lemma TextsSaid(render: Value -> string, raw: Raw, id: string, updated: string, t: string)
    ensures var v := ViewOf(render, raw, id, updated);
            && (SaysTop(raw, Name, Str(t)) ==> v.name == Cut(Strip(t), 60))
            && (Says(raw, Query, Str(t)) ==> v.query == Cut(Strip(t), 500))
            && (Says(raw, ProjectId, Str(t)) ==> v.projectId == Cut(Strip(t), 80))
            && (Says(raw, ProjectName, Str(t)) ==> v.projectName == Cut(Strip(t), 120))
            && (Says(raw, RunId, Str(t)) ==> v.runId == Cut(Strip(t), 120))
            && (Says(raw, RunLabel, Str(t)) ==> v.runLabel == Cut(Strip(t), 240))
            && (Says(raw, Sort, Str(t)) ==> v.sort == Cut(Strip(t), 80))
            && v.id == id && v.updated == updated
  {
    hide Choice, ListOf, TrimmedField, FilterField, Says, SaysTop, FilterOrTop, Top, Strip, NameOf, TextOr, Cut;
    if SaysTop(raw, Name, Str(t)) { NameSaid(render, raw, t); }
    if Says(raw, Query, Str(t)) { CutSaid(render, raw, Query, t, 500); }
    if Says(raw, ProjectId, Str(t)) { CutSaid(render, raw, ProjectId, t, 80); }
    if Says(raw, ProjectName, Str(t)) { CutSaid(render, raw, ProjectName, t, 120); }
    if Says(raw, RunId, Str(t)) { CutSaid(render, raw, RunId, t, 120); }
    if Says(raw, RunLabel, Str(t)) { CutSaid(render, raw, RunLabel, t, 240); }
    if Says(raw, Sort, Str(t)) { CutSaid(render, raw, Sort, t, 80); }
  }

  lemma ListSaid(render: Value -> string, raw: Raw, f: Field, xs: seq<string>)
    requires ListSettled(xs) && Says(raw, f, Strings(xs))
    ensures ListOf(render, FilterOrTop(raw, f)) == xs
  {
    hide ListFrom, ListSettled;
    SaysIs(raw, f, Strings(xs));
    ListThrice(render, xs);
  }

  /** Lists of distinct, trimmed, lower-case items that fit are taken as they are. */
  lemma ListsSaid(render: Value -> string, raw: Raw, id: string, updated: string, xs: seq<string>)
    requires ListSettled(xs)
    ensures var v := ViewOf(render, raw, id, updated);
            && (Says(raw, Signals, Strings(xs)) ==> v.signals == xs)
            && (Says(raw, Kinds, Strings(xs)) ==> v.kinds == xs)
            && (Says(raw, ExcludeKinds, Strings(xs)) ==> v.excludeKinds == xs)
            && (Says(raw, Roles, Strings(xs)) ==> v.roles == xs)
            && (Says(raw, Entities, Strings(xs)) ==> v.entities == xs)
            && (Says(raw, EntityTypes, Strings(xs)) ==> v.entityTypes == xs)
  {
    hide Choice, ListOf, TrimmedField, FilterField, NameOf, Says, FilterOrTop, Top, Strings, ListSettled;
    if Says(raw, Signals, Strings(xs)) { ListSaid(render, raw, Signals, xs); }
    if Says(raw, Kinds, Strings(xs)) { ListSaid(render, raw, Kinds, xs); }
    if Says(raw, ExcludeKinds, Strings(xs)) { ListSaid(render, raw, ExcludeKinds, xs); }
    if Says(raw, Roles, Strings(xs)) { ListSaid(render, raw, Roles, xs); }
    if Says(raw, Entities, Strings(xs)) { ListSaid(render, raw, Entities, xs); }
    if Says(raw, EntityTypes, Strings(xs)) { ListSaid(render, raw, EntityTypes, xs); }
  }

  /** A list of texts keeps each one that is not blank, up to blanks and case and cut to 120
      characters, until there are twelve. */
  lemma {:induction false} ListKept(render: Value -> string, xs: seq<string>, i: nat)
    requires i < |xs|
    ensures var l := ListFrom(render, Strings(xs).items);
            && |l.values| <= 12
            && (forall y :: y in l.seen ==> Cut(y, 120) in l.values)
            && (Folded(xs[i]) != "" ==> Folded(xs[i]) in l.seen || |l.values| == 12)
  {
    hide Folded, Lower, Strip;
    var n := |xs| - 1;
    ListLast(render, xs);
    FoldedIs(xs[n]);
    if n > 0 {
      var j := if i < n then i else 0;
      ListKept(render, xs[..n], j);
    } else {
      assert Strings(xs[..n]).items == [];
    }
  }

  lemma FoldedIs(t: string)
    ensures Lower(Strip(t)) == Folded(t)
  {
  }

  // --------------------------------------------------------- what can be read back

  /** The view of an accepted create with a free id, or of an accepted update, as any later
      load reads it. */
  lemma ReadableView(render: Value -> string, views: seq<View>, req: Request, ids: nat -> string) returns (i: nat)
    requires StoreOk(views) && FreshDrawn(req) && !req.Delete? && Decide(render, views, req).Write?
    requires req.Create? ==> !HasId(views, Carried(render, req).id)
    ensures var stored := StoredAll(LoadAll(render, StoredAll(Decide(render, views, req).views), ids));
            i < |LoadAll(render, stored, ids)| && LoadAll(render, stored, ids)[i] == Settle(render, Carried(render, req))
  {
    hide StoreOk, StoredAll, LoadAll, Settle, ViewOf, IdOf, Taken, FreshDrawn;
    SavedOutcome(render, views, req, ids);
    StoreOkFixed(render, Outcome(render, views, req), ids);
    if req.Create? {
      i := |views|;
    } else {
      CarriedId(render, req);
      i := IndexOf(views, Carried(render, req).id);
    }
  }

  lemma CarriedIs(render: Value -> string, req: Request)
    requires !req.Delete?
    ensures exists id, updated :: Carried(render, req) == ViewOf(render, req.raw, id, updated)
  {
    hide ViewOf, IdOf, IdOrFresh;
    match req
    case Create(raw, spare, now) => assert Carried(render, req) == ViewOf(render, raw, IdOrFresh(render, raw, spare), now);
    case Update(viewId, raw, now) => assert Carried(render, req) == ViewOf(render, raw, RouteId(render, viewId), now);
  }

  /** What can be read back of a payload's choices: the tab, the filters and the status it
      named, each up to blanks and case, or the fallback for a word that is none of them. */
  lemma ChoicesReadBack(render: Value -> string, req: Request, t: string)
    requires !req.Delete? && ViewOnce(Carried(render, req))
    ensures var w := Settle(render, Carried(render, req));
            && (SaysTop(req.raw, Tab, Str(t)) ==>
                  w.tab == if Folded(t) in {"findings", "ip", "domain", "hash", "cve", "url"} then Folded(t) else "findings")
            && (Says(req.raw, OrphanFilter, Str(t)) ==> w.orphanFilter == if Folded(t) in {"hide", "all", "only"} then Folded(t) else "hide")
            && (Says(req.raw, SuppressionFilter, Str(t)) ==>
                  w.suppressionFilter == if Folded(t) in {"hide", "all", "only"} then Folded(t) else "hide")
            && (Says(req.raw, FindingStatus, Str(t)) ==>
                  w.findingStatus == if Folded(t) in {"new", "reviewed", "important", "false_positive", "needs_followup"} then Folded(t) else "")
  {
    hide ViewOf, Folded, Says, SaysTop, ViewOnce, Carried, Settle, TrimCut, ListOf, Strings, Cut;
    CarriedIs(render, req);
    var id, updated :| Carried(render, req) == ViewOf(render, req.raw, id, updated);
    ChoicesSaid(render, req.raw, id, updated, t);
    SettleIs(render, Carried(render, req));
  }

  /** And of its texts: trimmed, cut and trimmed once more. */
  lemma TextsReadBack(render: Value -> string, req: Request, t: string)
    requires !req.Delete? && ViewOnce(Carried(render, req))
    ensures var w := Settle(render, Carried(render, req));
            && (SaysTop(req.raw, Name, Str(t)) ==> w.name == Strip(Cut(Strip(t), 60)))
            && (Says(req.raw, Query, Str(t)) ==> w.query == Strip(Cut(Strip(t), 500)))
            && (Says(req.raw, ProjectId, Str(t)) ==> w.projectId == Strip(Cut(Strip(t), 80)))
            && (Says(req.raw, ProjectName, Str(t)) ==> w.projectName == Strip(Cut(Strip(t), 120)))
            && (Says(req.raw, RunId, Str(t)) ==> w.runId == Strip(Cut(Strip(t), 120)))
            && (Says(req.raw, RunLabel, Str(t)) ==> w.runLabel == Strip(Cut(Strip(t), 240)))
            && (Says(req.raw, Sort, Str(t)) ==> w.sort == Strip(Cut(Strip(t), 80)))
  {
    hide ViewOf, Says, SaysTop, ViewOnce, Carried, Settle, TrimCut, ListOf, Strings, Cut, Strip;
    CarriedIs(render, req);
    var id, updated :| Carried(render, req) == ViewOf(render, req.raw, id, updated);
    TextsSaid(render, req.raw, id, updated, t);
    SettleIs(render, Carried(render, req));
    AgainTrimmed(t, 60);
    AgainTrimmed(t, 500);
    AgainTrimmed(t, 80);
    AgainTrimmed(t, 120);
    AgainTrimmed(t, 240);
  }

  lemma AgainTrimmed(t: string, n: nat)
    ensures TrimCut(Cut(Strip(t), n), n) == Strip(Cut(Strip(t), n))
  {
    OnceTrimmed(t, n);
    TwiceTrimmed(Cut(Strip(t), n), n);
  }

  /** The id and the time: a create takes the payload's id or the fresh one, an update the
      route's; both take the time of the request. */
  lemma StampReadBack(render: Value -> string, req: Request)
    requires !req.Delete? && ViewOnce(Carried(render, req))
    ensures var w := Settle(render, Carried(render, req));
            && w.updated == Cut(req.now, 40)
            && w.id == if req.Update? then RouteId(render, req.viewId)
                       else if IdOf(render, Top(req.raw, Id)) != "" then IdOf(render, Top(req.raw, Id)) else req.spare
  {
    hide ViewOnce, Settle, TrimCut, ListOf, Strings, Cut, IdOf, TrimmedField, FilterField, NameOf, Choice;
    SettleIs(render, Carried(render, req));
  }

  // -------------------------------------------------------------------- refusals

  /** Each refusal has its one reason, and they are checked in this order. */
  lemma RefusedIff(render: Value -> string, loaded: seq<View>, req: Request)
    requires req.Create?
    ensures var d, name := Decide(render, loaded, req), Carried(render, req).name;
            && (d == Refuse(NameRequired) <==> name == "")
            && (d == Refuse(TooMany) <==> name != "" && |loaded| >= 30)
            && (d == Refuse(NameExists) <==> name != "" && |loaded| < 30 && Taken(loaded, name, ""))
            && d != Refuse(NotFound)
            && (d.Write? ==> d.views == loaded + [Carried(render, req)])
  {
    hide Carried, Taken;
  }

  lemma UpdateRefusedIff(render: Value -> string, loaded: seq<View>, req: Request)
    requires req.Update?
    ensures var d, name, id := Decide(render, loaded, req), Carried(render, req).name, RouteId(render, req.viewId);
            && (d == Refuse(NotFound) <==> id == "" || (name != "" && !HasId(loaded, id)))
            && (d == Refuse(NameRequired) <==> id != "" && name == "")
            && (d == Refuse(NameExists) <==> id != "" && name != "" && HasId(loaded, id) && Taken(loaded, name, id))
            && d != Refuse(TooMany)
            && (d.Write? ==> |d.views| == |loaded| && forall i :: 0 <= i < |loaded| ==>
                  d.views[i] == if i == IndexOf(loaded, id) then Carried(render, req) else loaded[i])
  {
    hide Carried, Taken, RouteId;
  }

  lemma DeleteRefusedIff(render: Value -> string, loaded: seq<View>, req: Request)
    requires req.Delete?
    ensures var d, id := Decide(render, loaded, req), RouteId(render, req.viewId);
            && (d.Refuse? <==> id == "" || !HasId(loaded, id)) && (d.Refuse? ==> d.why == NotFound)
            && (d.Write? ==> forall v :: v in d.views <==> v in loaded && v.id != id)
  {
    hide RouteId, Without;
    WithoutViews(loaded, RouteId(render, req.viewId));
  }

  /** A well-formed id is read in either case and with blanks around it; any other is none. */
  lemma IdMeans(render: Value -> string, t: string)
    ensures RouteId(render, t) == if WellFormedId(Folded(t)) then Folded(t) else ""
  {
    hide WellFormedId;
    if t == "" {
      StripFixed("");
      assert !WellFormedId("") by { ShortId(); }
    }
  }

  lemma ShortId()
    ensures !WellFormedId("")
  {
  }
}
