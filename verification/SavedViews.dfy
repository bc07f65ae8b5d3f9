/** Normalization of Atlas saved views: what one pass does, and that a second
    pass settles what the first can leave unsettled. */
module SavedViews {
  import opened Values
  import opened Text

  const MAX_VIEWS := 30
  const NAME_MAX := 60
  const LIST_MAX := 12
  const ITEM_MAX := 120

  const TABS := {"findings", "ip", "domain", "hash", "cve", "url"}
  const FILTERS := {"hide", "all", "only"}
  const STATES := {"new", "reviewed", "important", "false_positive", "needs_followup"}

  /** The payload fields the code looks at; it ignores all others. */
  datatype Field =
    | Id | Name | Tab | UpdatedAt
    | Query | OrphanFilter | SuppressionFilter | FindingStatus
    | ProjectId | ProjectName | RunId | RunLabel | Sort
    | Signals | Kinds | ExcludeKinds | Roles | Entities | EntityTypes

  type Fields = map<Field, Value>

  /** A JSON value read as a view: its fields, and those of its nested filters if
      it has such a mapping. A value that is no mapping has no fields. */
  datatype Raw = Raw(isDict: bool, fields: Fields, filters: Option<Fields>)

  datatype View = View(
    id: string, name: string, tab: string,
    query: string, orphanFilter: string, suppressionFilter: string, findingStatus: string,
    projectId: string, projectName: string, runId: string, runLabel: string, sort: string,
    signals: seq<string>, kinds: seq<string>, excludeKinds: seq<string>, roles: seq<string>,
    entities: seq<string>, entityTypes: seq<string>,
    updated: string)

  // ---------------------------------------------------------------------- one pass

  function Top(raw: Raw, f: Field): Value {
    if raw.isDict && f in raw.fields then raw.fields[f] else Null
  }

  /** The nested filters take precedence over the top level. */
  function FilterOrTop(raw: Raw, f: Field): Value {
    if raw.isDict && raw.filters.Some? && f in raw.filters.value then raw.filters.value[f] else Top(raw, f)
  }

  predicate Hex(c: char) {
    '0' <= c <= '9' || 'a' <= c <= 'f'
  }

  /** atv_ and 16 to 32 hexadecimal digits */
  predicate WellFormedId(id: string) {
    20 <= |id| <= 36 && id[..4] == "atv_" && forall i :: 4 <= i < |id| ==> Hex(id[i])
  }

  /** `_normalize_saved_view_id`; empty when it is not well-formed. */
  function IdOf(render: Value -> string, v: Value): string {
    var id := Lower(Strip(TextOr(render, v, "")));
    if WellFormedId(id) then id else ""
  }

  function NameOf(render: Value -> string, v: Value): string {
    TrimCut(TextOr(render, v, ""), NAME_MAX)
  }

  function Choice(text: string, allowed: set<string>, fallback: string): string {
    if Lower(Strip(text)) in allowed then Lower(Strip(text)) else fallback
  }

  function TrimmedField(render: Value -> string, raw: Raw, f: Field, n: nat): string {
    TrimCut(TextOr(render, FilterOrTop(raw, f), ""), n)
  }

  function FilterField(render: Value -> string, raw: Raw, f: Field): string {
    Choice(TextOr(render, FilterOrTop(raw, f), "hide"), FILTERS, "hide")
  }

  /** The loop state of `_normalize_saved_view_list` after the given items. */
  datatype Listing = Listing(values: seq<string>, seen: set<string>)

  /** What one more item makes of the loop state. */
  function Listed(before: Listing, text: string): Listing {
    if |before.values| >= LIST_MAX || text == "" || text in before.seen then before
    else Listing(before.values + [Cut(text, ITEM_MAX)], before.seen + {text})
  }

  function ListFrom(render: Value -> string, items: seq<Value>): Listing {
    if items == [] then Listing([], {})
    else
      var before := ListFrom(render, items[..|items| - 1]);
      Listed(before, Lower(Strip(TextOr(render, items[|items| - 1], ""))))
  }

  function ListOf(render: Value -> string, v: Value): seq<string> {
    ListFrom(render, if v.List? then v.items else [v]).values
  }

  /** The source's loop, which stops once the list is full. */
  method NormalizeList(render: Value -> string, v: Value) returns (values: seq<string>)
    ensures values == ListOf(render, v)
  {
    var items := if v.List? then v.items else [v];
    values := [];
    var seen := {};
    var i := 0;
    while i < |items| && |values| < LIST_MAX
      invariant 0 <= i <= |items| && |values| <= LIST_MAX
      invariant ListFrom(render, items[..i]) == Listing(values, seen)
    {
      assert items[..i + 1][..i] == items[..i];
      var text := Lower(Strip(TextOr(render, items[i], "")));
      if text != "" && text !in seen {
        seen := seen + {text};
        values := values + [Cut(text, ITEM_MAX)];
      }
      i := i + 1;
    }
    ListFull(render, items, i);
    assert items[..i] == items || |values| == LIST_MAX;
    if i == |items| { assert items[..i] == items; }
  }

  /** Once full, the list stays as it is. */
  lemma {:induction false} ListFull(render: Value -> string, items: seq<Value>, n: nat)
    requires n <= |items|
    ensures |ListFrom(render, items[..n]).values| >= LIST_MAX ==> ListFrom(render, items) == ListFrom(render, items[..n])
    decreases |items| - n
  {
    if n < |items| {
      ListFull(render, items, n + 1);
      assert items[..n + 1][..n] == items[..n];
    } else {
      assert items[..n] == items;
    }
  }

  /** `_normalize_saved_view_payload`, then `_stored_saved_view`. `id` is what the
      caller resolved: the route's id, the payload's, or a fresh one. */
  function ViewOf(render: Value -> string, raw: Raw, id: string, updated: string): View {
    View(
      id, NameOf(render, Top(raw, Name)), Choice(TextOr(render, Top(raw, Tab), "findings"), TABS, "findings"),
      TrimmedField(render, raw, Query, 500), FilterField(render, raw, OrphanFilter),
      FilterField(render, raw, SuppressionFilter),
      Choice(TextOr(render, FilterOrTop(raw, FindingStatus), ""), STATES, ""),
      TrimmedField(render, raw, ProjectId, 80), TrimmedField(render, raw, ProjectName, 120),
      TrimmedField(render, raw, RunId, 120), TrimmedField(render, raw, RunLabel, 240), TrimmedField(render, raw, Sort, 80),
      ListOf(render, FilterOrTop(raw, Signals)), ListOf(render, FilterOrTop(raw, Kinds)),
      ListOf(render, FilterOrTop(raw, ExcludeKinds)), ListOf(render, FilterOrTop(raw, Roles)),
      ListOf(render, FilterOrTop(raw, Entities)), ListOf(render, FilterOrTop(raw, EntityTypes)),
      updated)
  }

  /** The source's payload normalization, with its six list loops. */
  method NormalizePayload(render: Value -> string, raw: Raw, id: string, updated: string) returns (view: View)
    ensures view == ViewOf(render, raw, id, updated)
  {
    hide ListOf, TrimmedField, FilterField, Choice, NameOf, FilterOrTop;
    var signals := NormalizeList(render, FilterOrTop(raw, Signals));
    var kinds := NormalizeList(render, FilterOrTop(raw, Kinds));
    var excludeKinds := NormalizeList(render, FilterOrTop(raw, ExcludeKinds));
    var roles := NormalizeList(render, FilterOrTop(raw, Roles));
    var entities := NormalizeList(render, FilterOrTop(raw, Entities));
    var entityTypes := NormalizeList(render, FilterOrTop(raw, EntityTypes));
    view := View(
      id, NameOf(render, Top(raw, Name)), Choice(TextOr(render, Top(raw, Tab), "findings"), TABS, "findings"),
      TrimmedField(render, raw, Query, 500), FilterField(render, raw, OrphanFilter),
      FilterField(render, raw, SuppressionFilter),
      Choice(TextOr(render, FilterOrTop(raw, FindingStatus), ""), STATES, ""),
      TrimmedField(render, raw, ProjectId, 80), TrimmedField(render, raw, ProjectName, 120),
      TrimmedField(render, raw, RunId, 120), TrimmedField(render, raw, RunLabel, 240), TrimmedField(render, raw, Sort, 80),
      signals, kinds, excludeKinds, roles, entities, entityTypes, updated);
  }

  /** The id of a payload that names none of its own: its field, or a fresh one. */
  function IdOrFresh(render: Value -> string, raw: Raw, spare: string): string {
    var id := IdOf(render, Top(raw, Id));
    if id != "" then id else spare
  }

  function UpdatedOf(render: Value -> string, raw: Raw): string {
    Cut(TextOr(render, Top(raw, UpdatedAt), ""), 40)
  }

  /** A stored item as it is read back. */
  function Load(render: Value -> string, raw: Raw, spare: string): View {
    ViewOf(render, raw, IdOrFresh(render, raw, spare), UpdatedOf(render, raw))
  }

  predicate HasId(views: seq<View>, id: string) {
    exists i :: 0 <= i < |views| && views[i].id == id
  }

  /** `_normalize_saved_views`; `ids` supplies the fresh id of each position. */
  function LoadAll(render: Value -> string, raws: seq<Raw>, ids: nat -> string): seq<View> {
    if raws == [] then []
    else
      var n := |raws| - 1;
      var before := LoadAll(render, raws[..n], ids);
      var view := Load(render, raws[n], ids(n));
      if |before| >= MAX_VIEWS || view.name == "" || HasId(before, view.id) then before else before + [view]
  }

  /** The source's loop, which stops once the list is full. */
  method NormalizeViews(render: Value -> string, raws: seq<Raw>, ids: nat -> string) returns (views: seq<View>)
    ensures views == LoadAll(render, raws, ids)
  {
    hide ViewOf, IdOrFresh, UpdatedOf;
    views := [];
    var seen := {};
    var i := 0;
    while i < |raws| && |views| < MAX_VIEWS
      invariant 0 <= i <= |raws| && |views| <= MAX_VIEWS
      invariant views == LoadAll(render, raws[..i], ids)
      invariant forall id :: id in seen <==> HasId(views, id)
    {
      assert raws[..i + 1][..i] == raws[..i];
      var view := NormalizePayload(render, raws[i], IdOrFresh(render, raws[i], ids(i)), UpdatedOf(render, raws[i]));
      if view.name != "" && view.id !in seen {
        seen := seen + {view.id};
        HasIdAppend(views, view);
        views := views + [view];
      }
      i := i + 1;
    }
    LoadFull(render, raws, ids, i);
    if i == |raws| { assert raws[..i] == raws; }
  }

  lemma HasIdAppend(views: seq<View>, view: View)
    ensures forall id :: HasId(views + [view], id) <==> HasId(views, id) || view.id == id
  {
    forall id ensures HasId(views + [view], id) <==> HasId(views, id) || view.id == id {
      if HasId(views, id) {
        var i :| 0 <= i < |views| && views[i].id == id;
        assert (views + [view])[i].id == id;
      }
      if view.id == id { assert (views + [view])[|views|].id == id; }
    }
  }

  lemma {:induction false} LoadFull(render: Value -> string, raws: seq<Raw>, ids: nat -> string, n: nat)
    requires n <= |raws|
    ensures |LoadAll(render, raws[..n], ids)| >= MAX_VIEWS ==> LoadAll(render, raws, ids) == LoadAll(render, raws[..n], ids)
    decreases |raws| - n
  {
    hide Load;
    if n < |raws| {
      LoadFull(render, raws, ids, n + 1);
      assert raws[..n + 1][..n] == raws[..n];
    } else {
      assert raws[..n] == raws;
    }
  }

  // -------------------------------------------------------------- storing, loading

  function Strings(xs: seq<string>): Value {
    List(seq(|xs|, i requires 0 <= i < |xs| => Str(xs[i])))
  }

  /** The stored form of a view, with the nested filters. */
  function Stored(v: View): Raw {
    Raw(true, map[Id := Str(v.id), Name := Str(v.name), Tab := Str(v.tab), UpdatedAt := Str(v.updated)],
        Some(map[
          Query := Str(v.query), OrphanFilter := Str(v.orphanFilter), SuppressionFilter := Str(v.suppressionFilter),
          FindingStatus := Str(v.findingStatus), ProjectId := Str(v.projectId), ProjectName := Str(v.projectName),
          RunId := Str(v.runId), RunLabel := Str(v.runLabel), Sort := Str(v.sort), Signals := Strings(v.signals),
          Kinds := Strings(v.kinds), ExcludeKinds := Strings(v.excludeKinds), Roles := Strings(v.roles),
          Entities := Strings(v.entities), EntityTypes := Strings(v.entityTypes)]))
  }

  function StoredAll(views: seq<View>): seq<Raw> {
    seq(|views|, i requires 0 <= i < |views| => Stored(views[i]))
  }

  /** A view loaded from its stored form. */
  function Settle(render: Value -> string, v: View): View {
    Load(render, Stored(v), "")
  }

  // --------------------------------------------------------------- settling a view

  /** What one pass guarantees of a trimmed field: it starts clean and fits. */
  predicate TrimmedOnce(s: string, n: nat) {
    LeadingClean(s) && |s| <= n
  }

  lemma OnceTrimmed(s: string, n: nat)
    ensures TrimmedOnce(TrimCut(s, n), n)
  {
    StripStripped(s);
  }

  /** A second pass only strips, and leaves a fixed point; it never empties the field. */
  lemma TwiceTrimmed(s: string, n: nat)
    requires TrimmedOnce(s, n)
    ensures TrimCut(s, n) == Strip(s) && TrimCutFixed(TrimCut(s, n), n)
    ensures TrimCut(s, n) == "" <==> s == ""
  {
    StripStripped(s);
    if s != "" {
      assert LStrip(s) == s;
      RStripPrefix(s);
    }
  }

  predicate ItemOnce(x: string) {
    x != "" && LeadingClean(x) && Lower(x) == x && |x| <= ITEM_MAX
  }

  predicate ListOnce(xs: seq<string>) {
    |xs| <= LIST_MAX && forall i :: 0 <= i < |xs| ==> ItemOnce(xs[i])
  }

  /** Exactly what a list looks like when reading it back changes nothing. */
  predicate ListSettled(xs: seq<string>) {
    ListOnce(xs) && Distinct(xs) && forall i :: 0 <= i < |xs| ==> Stripped(xs[i])
  }

  lemma LowerCut(s: string, n: nat)
    requires Lower(s) == s
    ensures Lower(Cut(s, n)) == Cut(s, n)
  {
    forall i | 0 <= i < |Cut(s, n)| ensures Lower(Cut(s, n))[i] == Cut(s, n)[i] { assert Lower(s)[i] == s[i]; }
  }

  lemma {:induction false} ListIsOnce(render: Value -> string, items: seq<Value>)
    ensures ListOnce(ListFrom(render, items).values)
  {
    if items != [] {
      ListIsOnce(render, items[..|items| - 1]);
      var raw := TextOr(render, items[|items| - 1], "");
      FoldIdempotent(raw);
      LowerIdempotent(Strip(raw));
      LowerCut(Lower(Strip(raw)), ITEM_MAX);
    }
  }

  lemma StripLower(x: string)
    requires ItemOnce(x)
    ensures var y := Lower(Strip(x)); y == Strip(x) && ItemOnce(y) && Stripped(y) && Cut(y, ITEM_MAX) == y
  {
    StripStripped(x);
    assert LStrip(x) == x;
    RStripPrefix(x);
    assert Strip(x) == x[..|Strip(x)|];
    LowerCut(x, |Strip(x)|);
    TwiceTrimmed(x, ITEM_MAX);
  }

  lemma ListLast(render: Value -> string, xs: seq<string>)
    requires xs != []
    ensures ListFrom(render, Strings(xs).items)
         == Listed(ListFrom(render, Strings(xs[..|xs| - 1]).items), Lower(Strip(xs[|xs| - 1])))
  {
    hide Lower;
    assert Strings(xs).items[..|xs| - 1] == Strings(xs[..|xs| - 1]).items;
    assert Strip("") == "";
  }

  ghost predicate SeenIsKept(l: Listing) {
    ListSettled(l.values) && forall x :: x in l.seen <==> x in l.values
  }

  lemma SettledMore(l: Listing, y: string)
    requires SeenIsKept(l) && ItemOnce(y) && Stripped(y) && Cut(y, ITEM_MAX) == y
    ensures SeenIsKept(Listed(l, y)) && |Listed(l, y).values| <= |l.values| + 1
  {
    hide ItemOnce, Stripped;
  }

  /** Reading a once-normalized list back leaves a settled one, with the same texts seen as kept. */
  lemma {:induction false} ListTwice(render: Value -> string, xs: seq<string>)
    requires ListOnce(xs)
    ensures var l := ListFrom(render, Strings(xs).items);
            && ListSettled(l.values) && |l.values| <= |xs|
            && forall x :: x in l.seen <==> x in l.values
  {
    hide ListSettled, Listed, Lower, Strip, ItemOnce;
    if xs == [] {
      assert SeenIsKept(ListFrom(render, Strings(xs).items)) by { NothingSeen(); }
    } else {
      ListTwice(render, xs[..|xs| - 1]);
      ListLast(render, xs);
      StripLower(xs[|xs| - 1]);
      SettledMore(ListFrom(render, Strings(xs[..|xs| - 1]).items), Lower(Strip(xs[|xs| - 1])));
    }
  }

  lemma NothingSeen()
    ensures SeenIsKept(Listing([], {}))
  {
  }

  lemma {:induction false} ListThrice(render: Value -> string, xs: seq<string>)
    requires ListSettled(xs)
    ensures var l := ListFrom(render, Strings(xs).items);
            l.values == xs && forall x :: x in l.seen <==> x in xs
  {
    hide Lower, Strip, ItemOnce, Stripped, Cut;
    if xs != [] {
      var init, last := xs[..|xs| - 1], xs[|xs| - 1];
      ListThrice(render, init);
      ListLast(render, xs);
      assert ItemOnce(last) && Stripped(last);
      LastRead(last);
      assert last !in init by { forall i | 0 <= i < |init| ensures init[i] != last { assert init[i] == xs[i]; } }
      assert xs == init + [last];
    }
  }

  lemma LastRead(last: string)
    requires ItemOnce(last) && Stripped(last)
    ensures Lower(Strip(last)) == last && Cut(last, ITEM_MAX) == last && last != ""
  {
    StripLower(last);
    StripFixed(last);
  }

  /** The list has the same items once it is settled: three passes are two. */
  lemma ListSettles(render: Value -> string, v: Value)
    ensures var once := ListOf(render, v);
            var twice := ListOf(render, Strings(once));
            ListSettled(twice) && ListOf(render, Strings(twice)) == twice
  {
    var once := ListOf(render, v);
    ListIsOnce(render, if v.List? then v.items else [v]);
    ListTwice(render, once);
    ListThrice(render, ListOf(render, Strings(once)));
  }

  /** A choice reads back as itself. */
  lemma ChoiceFixed(text: string, allowed: set<string>, fallback: string)
    requires Stripped(fallback) && Lower(fallback) == fallback
    ensures Choice(Choice(text, allowed, fallback), allowed, fallback) == Choice(text, allowed, fallback)
  {
    FoldIdempotent(text);
    StripFixed(fallback);
  }

  lemma Fallbacks()
    ensures Stripped("findings") && Lower("findings") == "findings"
    ensures Stripped("hide") && Lower("hide") == "hide"
    ensures Stripped("") && Lower("") == ""
  {
  }

  /** A choice that reads back as itself. */
  predicate ChoiceSettled(c: string, allowed: set<string>, fallback: string) {
    Choice(if c == "" then fallback else c, allowed, fallback) == c
  }

  /** What one pass guarantees of a view. */
  predicate ViewOnce(v: View) {
    && WellFormedId(v.id) && TrimmedOnce(v.name, NAME_MAX)
    && ChoiceSettled(v.tab, TABS, "findings") && ChoiceSettled(v.orphanFilter, FILTERS, "hide")
    && ChoiceSettled(v.suppressionFilter, FILTERS, "hide") && ChoiceSettled(v.findingStatus, STATES, "")
    && TrimmedOnce(v.query, 500) && TrimmedOnce(v.projectId, 80) && TrimmedOnce(v.projectName, 120)
    && TrimmedOnce(v.runId, 120) && TrimmedOnce(v.runLabel, 240) && TrimmedOnce(v.sort, 80)
    && ListOnce(v.signals) && ListOnce(v.kinds) && ListOnce(v.excludeKinds) && ListOnce(v.roles)
    && ListOnce(v.entities) && ListOnce(v.entityTypes)
  }

  /** A view that reading back leaves alone. */
  predicate ViewSettled(v: View) {
    && ViewOnce(v) && Stripped(v.name)
    && Stripped(v.query) && Stripped(v.projectId) && Stripped(v.projectName)
    && Stripped(v.runId) && Stripped(v.runLabel) && Stripped(v.sort)
    && ListSettled(v.signals) && ListSettled(v.kinds) && ListSettled(v.excludeKinds) && ListSettled(v.roles)
    && ListSettled(v.entities) && ListSettled(v.entityTypes)
    && |v.updated| <= 40
  }

  lemma FilterIsOnce(render: Value -> string, raw: Raw, f: Field)
    ensures ChoiceSettled(FilterField(render, raw, f), FILTERS, "hide")
  {
    Fallbacks();
    ChoiceFixed(TextOr(render, FilterOrTop(raw, f), "hide"), FILTERS, "hide");
    assert "" !in FILTERS;
  }

  lemma ChoicesOnce(render: Value -> string, raw: Raw, id: string, updated: string)
    ensures var v := ViewOf(render, raw, id, updated);
            && ChoiceSettled(v.tab, TABS, "findings") && ChoiceSettled(v.orphanFilter, FILTERS, "hide")
            && ChoiceSettled(v.suppressionFilter, FILTERS, "hide") && ChoiceSettled(v.findingStatus, STATES, "")
  {
    Fallbacks();
    ChoiceFixed(TextOr(render, Top(raw, Tab), "findings"), TABS, "findings");
    ChoiceFixed(TextOr(render, FilterOrTop(raw, FindingStatus), ""), STATES, "");
    FilterIsOnce(render, raw, OrphanFilter);
    FilterIsOnce(render, raw, SuppressionFilter);
    assert "" !in TABS;
  }

  lemma TextsOnce(render: Value -> string, raw: Raw, id: string, updated: string)
    ensures var v := ViewOf(render, raw, id, updated);
            && TrimmedOnce(v.name, NAME_MAX) && TrimmedOnce(v.query, 500) && TrimmedOnce(v.projectId, 80)
            && TrimmedOnce(v.projectName, 120) && TrimmedOnce(v.runId, 120) && TrimmedOnce(v.runLabel, 240)
            && TrimmedOnce(v.sort, 80)
  {
    OnceTrimmed(TextOr(render, Top(raw, Name), ""), NAME_MAX);
    OnceTrimmed(TextOr(render, FilterOrTop(raw, Query), ""), 500);
    OnceTrimmed(TextOr(render, FilterOrTop(raw, ProjectId), ""), 80);
    OnceTrimmed(TextOr(render, FilterOrTop(raw, ProjectName), ""), 120);
    OnceTrimmed(TextOr(render, FilterOrTop(raw, RunId), ""), 120);
    OnceTrimmed(TextOr(render, FilterOrTop(raw, RunLabel), ""), 240);
    OnceTrimmed(TextOr(render, FilterOrTop(raw, Sort), ""), 80);
  }

  lemma ListOfOnce(render: Value -> string, v: Value)
    ensures ListOnce(ListOf(render, v))
  {
    ListIsOnce(render, if v.List? then v.items else [v]);
  }

  /** One pass over any payload, nested filters or not. */
  lemma ViewIsOnce(render: Value -> string, raw: Raw, id: string, updated: string)
    requires WellFormedId(id)
    ensures ViewOnce(ViewOf(render, raw, id, updated))
  {
    hide ListOf, TrimmedField, FilterField, Choice, NameOf;
    ChoicesOnce(render, raw, id, updated);
    TextsOnce(render, raw, id, updated);
    ListOfOnce(render, FilterOrTop(raw, Signals));
    ListOfOnce(render, FilterOrTop(raw, Kinds));
    ListOfOnce(render, FilterOrTop(raw, ExcludeKinds));
    ListOfOnce(render, FilterOrTop(raw, Roles));
    ListOfOnce(render, FilterOrTop(raw, Entities));
    ListOfOnce(render, FilterOrTop(raw, EntityTypes));
  }

  // --------------------------------------------------------------- reading it back

  lemma TopStored(v: View)
    ensures Top(Stored(v), Id) == Str(v.id) && Top(Stored(v), Name) == Str(v.name)
    ensures Top(Stored(v), Tab) == Str(v.tab) && Top(Stored(v), UpdatedAt) == Str(v.updated)
  {
  }

  lemma FiltersStored(v: View)
    ensures var raw := Stored(v);
            && FilterOrTop(raw, Query) == Str(v.query) && FilterOrTop(raw, OrphanFilter) == Str(v.orphanFilter)
            && FilterOrTop(raw, SuppressionFilter) == Str(v.suppressionFilter)
            && FilterOrTop(raw, FindingStatus) == Str(v.findingStatus) && FilterOrTop(raw, ProjectId) == Str(v.projectId)
            && FilterOrTop(raw, ProjectName) == Str(v.projectName) && FilterOrTop(raw, RunId) == Str(v.runId)
            && FilterOrTop(raw, RunLabel) == Str(v.runLabel) && FilterOrTop(raw, Sort) == Str(v.sort)
  {
  }

  lemma ListsStored(v: View)
    ensures var raw := Stored(v);
            && FilterOrTop(raw, Signals) == Strings(v.signals) && FilterOrTop(raw, Kinds) == Strings(v.kinds)
            && FilterOrTop(raw, ExcludeKinds) == Strings(v.excludeKinds) && FilterOrTop(raw, Roles) == Strings(v.roles)
            && FilterOrTop(raw, Entities) == Strings(v.entities) && FilterOrTop(raw, EntityTypes) == Strings(v.entityTypes)
  {
  }

  lemma IdRead(render: Value -> string, id: string)
    requires WellFormedId(id)
    ensures IdOf(render, Str(id)) == id
  {
    assert id[0] == id[..4][0] && id[|id| - 1] == id[|id| - 1] && Hex(id[|id| - 1]);
    StripFixed(id);
    forall i | 0 <= i < |id| ensures LowerChar(id[i]) == id[i] { if i < 4 { assert id[i] == id[..4][i]; } }
    assert Lower(id) == id;
  }

  /** What reading a once-normalized view back gives, field by field. */
  lemma SettleIs(render: Value -> string, v: View)
    requires ViewOnce(v)
    ensures Settle(render, v) == View(
              v.id, TrimCut(v.name, NAME_MAX), v.tab, TrimCut(v.query, 500), v.orphanFilter, v.suppressionFilter,
              v.findingStatus, TrimCut(v.projectId, 80), TrimCut(v.projectName, 120), TrimCut(v.runId, 120),
              TrimCut(v.runLabel, 240), TrimCut(v.sort, 80),
              ListOf(render, Strings(v.signals)), ListOf(render, Strings(v.kinds)),
              ListOf(render, Strings(v.excludeKinds)), ListOf(render, Strings(v.roles)),
              ListOf(render, Strings(v.entities)), ListOf(render, Strings(v.entityTypes)), Cut(v.updated, 40))
  {
    hide ListOf, TrimCut, Choice, ListOnce, TrimmedOnce, Stored, FilterOrTop, Top, IdOf, WellFormedId;
    TopStored(v);
    FiltersStored(v);
    ListsStored(v);
    IdRead(render, v.id);
  }

  /** Reading back settles a view, and keeps its id and whether it has a name. */
  lemma SettleSettles(render: Value -> string, v: View)
    requires ViewOnce(v)
    ensures ViewSettled(Settle(render, v))
    ensures Settle(render, v).id == v.id && (Settle(render, v).name == "" <==> v.name == "")
    ensures Settle(render, v).name == Strip(v.name)
  {
    SettleIs(render, v);
    SettleTexts(v);
    SettleLists(render, v);
  }

  lemma SettleTexts(v: View)
    requires ViewOnce(v)
    ensures TrimCut(v.name, NAME_MAX) == Strip(v.name) && (Strip(v.name) == "" <==> v.name == "")
    ensures TrimCutFixed(TrimCut(v.name, NAME_MAX), NAME_MAX) && TrimCutFixed(TrimCut(v.query, 500), 500)
    ensures TrimCutFixed(TrimCut(v.projectId, 80), 80) && TrimCutFixed(TrimCut(v.projectName, 120), 120)
    ensures TrimCutFixed(TrimCut(v.runId, 120), 120) && TrimCutFixed(TrimCut(v.runLabel, 240), 240)
    ensures TrimCutFixed(TrimCut(v.sort, 80), 80)
  {
    hide TrimCut, TrimCutFixed, TrimmedOnce, ListOnce, ChoiceSettled, WellFormedId;
    TwiceTrimmed(v.name, NAME_MAX);
    TwiceTrimmed(v.query, 500);
    TwiceTrimmed(v.projectId, 80);
    TwiceTrimmed(v.projectName, 120);
    TwiceTrimmed(v.runId, 120);
    TwiceTrimmed(v.runLabel, 240);
    TwiceTrimmed(v.sort, 80);
  }

  lemma ListBack(render: Value -> string, xs: seq<string>)
    requires ListOnce(xs)
    ensures ListSettled(ListOf(render, Strings(xs)))
    ensures ListSettled(xs) ==> ListOf(render, Strings(xs)) == xs
  {
    ListTwice(render, xs);
    if ListSettled(xs) { ListThrice(render, xs); }
  }

  lemma SettleLists(render: Value -> string, v: View)
    requires ViewOnce(v)
    ensures ListSettled(ListOf(render, Strings(v.signals))) && ListSettled(ListOf(render, Strings(v.kinds)))
    ensures ListSettled(ListOf(render, Strings(v.excludeKinds))) && ListSettled(ListOf(render, Strings(v.roles)))
    ensures ListSettled(ListOf(render, Strings(v.entities))) && ListSettled(ListOf(render, Strings(v.entityTypes)))
  {
    hide ListOf, ListSettled, ListOnce, ChoiceSettled, TrimmedOnce, WellFormedId;
    ListBack(render, v.signals);
    ListBack(render, v.kinds);
    ListBack(render, v.excludeKinds);
    ListBack(render, v.roles);
    ListBack(render, v.entities);
    ListBack(render, v.entityTypes);
  }

  /** A settled view reads back as itself. */
  lemma SettledFixed(render: Value -> string, v: View)
    requires ViewSettled(v)
    ensures Settle(render, v) == v
  {
    SettleIs(render, v);
    FixedTexts(v);
    FixedLists(render, v);
  }

  lemma FixedTexts(v: View)
    requires ViewSettled(v)
    ensures TrimCut(v.name, NAME_MAX) == v.name && TrimCut(v.query, 500) == v.query
    ensures TrimCut(v.projectId, 80) == v.projectId && TrimCut(v.projectName, 120) == v.projectName
    ensures TrimCut(v.runId, 120) == v.runId && TrimCut(v.runLabel, 240) == v.runLabel && TrimCut(v.sort, 80) == v.sort
  {
    hide TrimCut, ListOnce, ListSettled, ChoiceSettled, WellFormedId;
    TrimCutFixedPoint(v.name, NAME_MAX);
    TrimCutFixedPoint(v.query, 500);
    TrimCutFixedPoint(v.projectId, 80);
    TrimCutFixedPoint(v.projectName, 120);
    TrimCutFixedPoint(v.runId, 120);
    TrimCutFixedPoint(v.runLabel, 240);
    TrimCutFixedPoint(v.sort, 80);
  }

  lemma FixedLists(render: Value -> string, v: View)
    requires ViewSettled(v)
    ensures ListOf(render, Strings(v.signals)) == v.signals && ListOf(render, Strings(v.kinds)) == v.kinds
    ensures ListOf(render, Strings(v.excludeKinds)) == v.excludeKinds && ListOf(render, Strings(v.roles)) == v.roles
    ensures ListOf(render, Strings(v.entities)) == v.entities && ListOf(render, Strings(v.entityTypes)) == v.entityTypes
  {
    hide ListOf, ListSettled, ListOnce, ChoiceSettled, TrimmedOnce, WellFormedId;
    ListBack(render, v.signals);
    ListBack(render, v.kinds);
    ListBack(render, v.excludeKinds);
    ListBack(render, v.roles);
    ListBack(render, v.entities);
    ListBack(render, v.entityTypes);
  }

  // ------------------------------------------------------------------ whole lists

  predicate DistinctIds(views: seq<View>) {
    forall i, j :: 0 <= i < j < |views| ==> views[i].id != views[j].id
  }

  predicate AllOnce(views: seq<View>) {
    forall i :: 0 <= i < |views| ==> ViewOnce(views[i])
  }

  /** A list that loading leaves alone: at most 30 settled views with names and distinct well-formed ids. */
  predicate StoreOk(views: seq<View>) {
    && |views| <= MAX_VIEWS && DistinctIds(views)
    && forall i :: 0 <= i < |views| ==> ViewSettled(views[i]) && views[i].name != ""
  }

  ghost predicate GoodIds(ids: nat -> string) {
    forall n :: WellFormedId(ids(n))
  }

  lemma IdOfWellFormed(render: Value -> string, v: Value)
    ensures IdOf(render, v) == "" || WellFormedId(IdOf(render, v))
  {
  }

  lemma LoadOnce(render: Value -> string, raw: Raw, spare: string)
    requires WellFormedId(spare)
    ensures ViewOnce(Load(render, raw, spare))
  {
    IdOfWellFormed(render, Top(raw, Id));
    ViewIsOnce(render, raw, IdOrFresh(render, raw, spare), UpdatedOf(render, raw));
  }

  /** Loading any list at all: at most 30 once-normalized views with names and distinct ids. */
  lemma {:induction false} LoadAllOnce(render: Value -> string, raws: seq<Raw>, ids: nat -> string)
    requires GoodIds(ids)
    ensures var views := LoadAll(render, raws, ids);
            && |views| <= MAX_VIEWS && AllOnce(views) && DistinctIds(views)
            && forall i :: 0 <= i < |views| ==> views[i].name != ""
  {
    hide Load, ViewOnce, WellFormedId;
    if raws != [] {
      var n := |raws| - 1;
      LoadAllOnce(render, raws[..n], ids);
      LoadOnce(render, raws[n], ids(n));
    }
  }

  /** A once-normalized view is loaded as its settled form, whatever the spare id. */
  lemma LoadStored(render: Value -> string, v: View, spare: string)
    requires ViewOnce(v)
    ensures Load(render, Stored(v), spare) == Settle(render, v)
  {
    hide ViewOf, UpdatedOf, Stored, IdOf;
    TopStored(v);
    IdRead(render, v.id);
  }

  /** Loading back once-normalized views gives a list that loading leaves alone. */
  lemma {:induction false} LoadAllSettles(render: Value -> string, views: seq<View>, ids: nat -> string)
    requires AllOnce(views)
    ensures StoreOk(LoadAll(render, StoredAll(views), ids))
  {
    hide Load, ViewOnce, ViewSettled, Stored, Settle;
    if views != [] {
      var n := |views| - 1;
      LoadAllSettles(render, views[..n], ids);
      assert StoredAll(views)[..n] == StoredAll(views[..n]);
      LoadStored(render, views[n], ids(n));
      SettleSettles(render, views[n]);
    }
  }

  function SettleAll(render: Value -> string, views: seq<View>): seq<View> {
    seq(|views|, i requires 0 <= i < |views| => Settle(render, views[i]))
  }

  /** Nothing is dropped when the ids are distinct, the names given and the list not too long. */
  lemma {:induction false} LoadAllKeeps(render: Value -> string, views: seq<View>, ids: nat -> string)
    requires AllOnce(views) && DistinctIds(views) && |views| <= MAX_VIEWS
    requires forall i :: 0 <= i < |views| ==> views[i].name != ""
    ensures LoadAll(render, StoredAll(views), ids) == SettleAll(render, views)
  {
    hide Load, ViewOnce, Stored, Settle;
    if views != [] {
      var n := |views| - 1;
      LoadAllKeeps(render, views[..n], ids);
      assert StoredAll(views)[..n] == StoredAll(views[..n]);
      LoadStored(render, views[n], ids(n));
      SettleSettles(render, views[n]);
      forall i | 0 <= i < n ensures Settle(render, views[i]).id == views[i].id { SettleSettles(render, views[i]); }
      assert !HasId(SettleAll(render, views[..n]), Settle(render, views[n]).id);
      assert SettleAll(render, views) == SettleAll(render, views[..n]) + [Settle(render, views[n])];
    }
  }

  /** A list in order is a fixed point of loading. */
  lemma StoreOkFixed(render: Value -> string, views: seq<View>, ids: nat -> string)
    requires StoreOk(views)
    ensures LoadAll(render, StoredAll(views), ids) == views
  {
    hide ViewOnce, Settle, LoadAll, StoredAll;
    forall i | 0 <= i < |views| ensures ViewOnce(views[i]) && Settle(render, views[i]) == views[i] {
      SettledOnce(views[i]);
      SettledFixed(render, views[i]);
    }
    LoadAllKeeps(render, views, ids);
    assert SettleAll(render, views) == views;
  }

  lemma SettledOnce(v: View)
    requires ViewSettled(v)
    ensures ViewOnce(v)
  {
  }

  /** Normalizing a stored list three times is normalizing it twice, whatever it held. */
  lemma ThreePassesAreTwo(render: Value -> string, raws: seq<Raw>, ids1: nat -> string, ids2: nat -> string, ids3: nat -> string)
    requires GoodIds(ids1)
    ensures var twice := LoadAll(render, StoredAll(LoadAll(render, raws, ids1)), ids2);
            StoreOk(twice) && LoadAll(render, StoredAll(twice), ids3) == twice
  {
    hide LoadAll, StoredAll, StoreOk, ViewOnce;
    LoadAllOnce(render, raws, ids1);
    LoadAllSettles(render, LoadAll(render, raws, ids1), ids2);
    StoreOkFixed(render, LoadAll(render, StoredAll(LoadAll(render, raws, ids1)), ids2), ids3);
  }
}
