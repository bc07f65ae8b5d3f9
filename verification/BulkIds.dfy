/** Bulk review requests: the ids they name, the refusals, and one result for each id. */
module BulkIds {
  import opened Values
  import opened Text
  import opened SavedViews

  const ID_MAX := 512
  const BULK_MAX := 100

  function IdText(render: Value -> string, v: Value): string {
    TrimCut(TextOr(render, v, ""), ID_MAX)
  }

  /** The distinct ids a request names, blank ones aside. */
  function Named(render: Value -> string, items: seq<Value>): set<string> {
    set i | 0 <= i < |items| && IdText(render, items[i]) != "" :: IdText(render, items[i])
  }

  function Elements(ids: seq<string>): set<string> {
    set id | id in ids
  }

  lemma {:induction false} DistinctCount(ids: seq<string>)
    requires Distinct(ids)
    ensures |Elements(ids)| == |ids|
  {
    if ids != [] {
      var n := |ids| - 1;
      DistinctCount(ids[..n]);
      assert ids == ids[..n] + [ids[n]];
      assert Elements(ids) == Elements(ids[..n]) + {ids[n]};
      assert ids[n] !in Elements(ids[..n]);
    }
  }

  /** The ids in the order in which they are first named. */
  function FirstNamed(render: Value -> string, items: seq<Value>): seq<string> {
    if items == [] then []
    else
      var before, id := FirstNamed(render, items[..|items| - 1]), IdText(render, items[|items| - 1]);
      if id == "" || id in before then before else before + [id]
  }

  /** `_normalize_finding_ids`: each named id once, cut one past the limit. */
  method NormalizeIds(render: Value -> string, v: Value) returns (ids: seq<string>)
    ensures ids == Cut(FirstNamed(render, ItemsOf(v)), BULK_MAX + 1)
    ensures Distinct(ids) && "" !in ids
    ensures |ids| == Smaller(|Named(render, ItemsOf(v))|, BULK_MAX + 1)
    ensures forall id :: id in ids ==> id in Named(render, ItemsOf(v))
    ensures |ids| <= BULK_MAX ==> Elements(ids) == Named(render, ItemsOf(v))
  {
    hide TrimCut;
    if !v.List? { return []; }
    var result := [];
    for i := 0 to |v.items|
      invariant Distinct(result) && "" !in result
      invariant Elements(result) == Named(render, v.items[..i])
      invariant result == FirstNamed(render, v.items[..i])
    {
      assert v.items[..i + 1][..i] == v.items[..i];
      var item := IdText(render, v.items[i]);
      NamedAppend(render, v.items, i);
      if item != "" && item !in result { result := result + [item]; }
    }
    assert v.items[..|v.items|] == v.items;
    DistinctCount(result);
    ids := Cut(result, BULK_MAX + 1);
    forall id | id in ids ensures id in Named(render, v.items) { assert id in Elements(result); }
  }

  lemma NamedAppend(render: Value -> string, items: seq<Value>, i: nat)
    requires i < |items|
    ensures var item := IdText(render, items[i]);
            Named(render, items[..i + 1]) == Named(render, items[..i]) + if item == "" then {} else {item}
  {
    hide IdText;
    var item := IdText(render, items[i]);
    forall id ensures id in Named(render, items[..i + 1]) <==> id in Named(render, items[..i]) || (item != "" && id == item) {
      if id in Named(render, items[..i]) {
        var k :| 0 <= k < i && IdText(render, items[..i][k]) != "" && id == IdText(render, items[..i][k]);
        assert items[..i + 1][k] == items[k];
      }
      if item != "" && id == item { assert items[..i + 1][i] == items[i]; }
      if id in Named(render, items[..i + 1]) {
        var k :| 0 <= k < i + 1 && IdText(render, items[..i + 1][k]) != "" && id == IdText(render, items[..i + 1][k]);
        if k < i { assert items[..i][k] == items[k]; }
      }
    }
  }

  function ItemsOf(v: Value): seq<Value> {
    if v.List? then v.items else []
  }

  function Smaller(a: nat, b: nat): nat {
    if a <= b then a else b
  }

  datatype Status = Updated | NotFound

  datatype Response =
    | IdsRequired | TooMany | BadState
    | Reviewed(results: seq<(string, Status)>, updated: nat, notFound: int)

  /** Each id of the set has exactly one result, and it says whether the id is known. */
  ghost predicate Accounts(results: seq<(string, Status)>, named: set<string>, known: string -> bool) {
    && (forall i :: 0 <= i < |results| ==> results[i].0 in named && (results[i].1 == Updated <==> known(results[i].0)))
    && (forall i, j :: 0 <= i < j < |results| ==> results[i].0 != results[j].0)
    && forall id :: id in named ==> exists i :: 0 <= i < |results| && results[i].0 == id
  }

  /** The bulk review route; `known` is the scope check of each id. */
  method BulkReview(render: Value -> string, idsField: Value, stateField: Value, known: string -> bool)
    returns (r: Response, touched: set<string>)
    ensures var named := Named(render, ItemsOf(idsField));
            && (r.IdsRequired? <==> named == {})
            && (r.TooMany? <==> |named| > 100)
            && (r.BadState? <==> 0 < |named| <= 100 && Lower(Strip(TextOr(render, stateField, ""))) !in STATES)
            && (r.Reviewed? ==> Accounts(r.results, named, known) && |r.results| == |named| == |FirstNamed(render, ItemsOf(idsField))|)
            && (r.Reviewed? ==> forall i :: 0 <= i < |r.results| ==> r.results[i].0 == FirstNamed(render, ItemsOf(idsField))[i])
            && (r.Reviewed? ==> r.updated + r.notFound == |named| && r.updated == |touched|)
            && (r.Reviewed? ==> forall id :: id in touched <==> id in named && known(id))
            && (!r.Reviewed? ==> touched == {})
  {
    hide IdText, Lower, Strip, TextOr;
    touched := {};
    ghost var named := Named(render, ItemsOf(idsField));
    var ids := NormalizeIds(render, idsField);
    var state := Lower(Strip(TextOr(render, stateField, "")));
    if ids == [] { return IdsRequired, touched; }
    if |ids| > BULK_MAX { return TooMany, touched; }
    if state !in STATES { return BadState, touched; }
    for i := 0 to |ids|
      invariant forall id :: id in touched <==> known(id) && id in ids[..i]
    {
      assert ids[..i + 1] == ids[..i] + [ids[i]];
      if known(ids[i]) { touched := touched + {ids[i]}; }
    }
    assert ids[..|ids|] == ids;
    var results := seq(|ids|, i requires 0 <= i < |ids| => (ids[i], if ids[i] in touched then Updated else NotFound));
    ResultsAccount(ids, named, touched, known, results);
    r := Reviewed(results, |touched|, |ids| - |touched|);
    forall id ensures id in touched <==> id in named && known(id) { assert id in Elements(ids) <==> id in ids; }
  }

  lemma ResultsAccount(ids: seq<string>, named: set<string>, touched: set<string>, known: string -> bool, results: seq<(string, Status)>)
    requires Distinct(ids) && Elements(ids) == named
    requires forall id :: id in touched <==> known(id) && id in ids
    requires |results| == |ids|
    requires forall i :: 0 <= i < |ids| ==> results[i] == (ids[i], if ids[i] in touched then Updated else NotFound)
    ensures Accounts(results, named, known)
  {
    forall i | 0 <= i < |results| ensures results[i].0 in named { assert ids[i] in Elements(ids); }
    forall id | id in named ensures exists i :: 0 <= i < |results| && results[i].0 == id {
      assert id in ids;
      var i :| 0 <= i < |ids| && ids[i] == id;
      assert results[i].0 == id;
    }
  }

  /** One past the limit is what the refusal needs: cut at the limit, nothing is ever too many. */
  lemma CutDecides(limit: nat, n: nat)
    requires n >= limit
    ensures (forall s: seq<string> :: |Cut(s, n)| > limit <==> |s| > limit) <==> n > limit
  {
    if n == limit {
      var s: seq<string> := seq(limit + 1, i => "x");
      assert |Cut(s, n)| == limit && |s| > limit;
    }
  }

  /** An id keeps its place: what a request names further on comes after it. */
  lemma {:induction false} FirstNamedFirst(render: Value -> string, items: seq<Value>, n: nat)
    requires n <= |items|
    ensures FirstNamed(render, items[..n]) <= FirstNamed(render, items)
    ensures forall id :: id in FirstNamed(render, items) <==> id in Named(render, items)
    decreases |items|
  {
    hide IdText;
    if items == [] {
    } else {
      var k := |items| - 1;
      NamedAppend(render, items, k);
      assert items[..k + 1] == items;
      FirstNamedFirst(render, items[..k], if n <= k then n else k);
      if n <= k { assert items[..k][..n] == items[..n]; } else { assert items[..n] == items; }
    }
  }

  /** A text names the id that is left of it once trimmed and cut to 512 characters. */
  lemma NamedIs(render: Value -> string, items: seq<Value>, id: string)
    requires forall i :: 0 <= i < |items| ==> items[i].Str?
    ensures id in Named(render, items) <==> id != "" && exists i :: 0 <= i < |items| && Cut(Strip(items[i].s), 512) == id
  {
    hide Strip;
    forall i | 0 <= i < |items| ensures IdText(render, items[i]) == Cut(Strip(items[i].s), 512) {
      if items[i].s == "" { StripFixed(""); }
    }
    if id in Named(render, items) {
      var i :| 0 <= i < |items| && IdText(render, items[i]) != "" && IdText(render, items[i]) == id;
    }
    if i :| 0 <= i < |items| && Cut(Strip(items[i].s), 512) == id && id != "" {
      assert IdText(render, items[i]) == id;
    }
  }
}
