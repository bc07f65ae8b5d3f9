/** Catalog-controlled disclosure of configuration values (`config_inspection.py`). */
module Disclosure {
  import opened Values
  import opened Paths
  import opened Shape
  import opened Text

  const MAX_VALUE_CHARS := 4096
  const MAX_LIST_ITEMS := 64

  datatype Mode = FullMode | CountMode | PresenceMode | NoMode

  datatype Entry = Entry(reviewed: bool, mode: Mode)

  datatype Safe =
    | Withheld
    | Summary(value: Value)
    | Full(value: Value, truncated: bool)

  predicate Scalar(v: Value) {
    !v.List? && !v.Dict?
  }

  /** A string that may carry user information in a URL. */
  predicate HasUserInfo(s: string) {
    Contains(s, "://") && Contains(s, "@")
  }

  /** A scalar under full disclosure; `None` withholds it. */
  function SafeScalar(v: Value): Option<Value>
    requires Scalar(v)
  {
    if !v.Str? then Some(v)
    else if HasUserInfo(v.s) then None
    else Some(Str(Cut(v.s, MAX_VALUE_CHARS)))
  }

  predicate TooLong(v: Value) {
    v.Str? && |v.s| > MAX_VALUE_CHARS
  }

  predicate AllScalar(items: seq<Value>) {
    forall i :: 0 <= i < |items| ==> Scalar(items[i])
  }

  /** The items with each string cut; `None` when one of them is withheld. */
  function SafeItems(items: seq<Value>): Option<seq<Value>>
    requires AllScalar(items)
  {
    if items == [] then Some([])
    else
      match (SafeItems(items[..|items| - 1]), SafeScalar(items[|items| - 1]))
      case (Some(safe), Some(v)) => Some(safe + [v])
      case _ => None
  }

  /** Items popped from the end until the JSON text fits; `size` is its length. */
  function Trim(size: seq<Value> -> nat, items: seq<Value>): seq<Value> {
    if size(items) > MAX_VALUE_CHARS && items != [] then Trim(size, items[..|items| - 1]) else items
  }

  /** `safe_value` for a value under the given catalog entry, if there is one. */
  function SafeValue(size: seq<Value> -> nat, entry: Option<Entry>, v: Value): Safe {
    if entry.None? || !entry.value.reviewed then Withheld
    else
      match entry.value.mode
      case NoMode => Withheld
      case CountMode => if v.List? then Summary(Int(|v.items|)) else Withheld
      case PresenceMode => if Scalar(v) then Summary(Bool(Truthy(v))) else Withheld
      case FullMode =>
        if v.Dict? then Withheld
        else if v.List? then
          (if !AllScalar(v.items) then Withheld
           else
             match SafeItems(Cut(v.items, MAX_LIST_ITEMS))
             case None => Withheld
             case Some(safe) =>
               var kept := Trim(size, safe);
               Full(List(kept),
                    |v.items| > MAX_LIST_ITEMS || (exists i :: 0 <= i < |v.items| && TooLong(v.items[i])) || |kept| < |safe|))
        else
          match SafeScalar(v)
          case None => Withheld
          case Some(w) => Full(w, TooLong(v))
  }

  /** The list branch with its loop. */
  method DiscloseList(size: seq<Value> -> nat, items: seq<Value>) returns (r: Safe)
    ensures r == SafeValue(size, Some(Entry(true, FullMode)), List(items))
  {
    if !AllScalar(items) { return Withheld; }
    var safe := SafeItems(Cut(items, MAX_LIST_ITEMS));
    if safe.None? { return Withheld; }
    var bounded := safe.value;
    var truncated := |items| > MAX_LIST_ITEMS || exists i :: 0 <= i < |items| && TooLong(items[i]);
    while size(bounded) > MAX_VALUE_CHARS && bounded != []
      invariant Trim(size, bounded) == Trim(size, safe.value)
      invariant |bounded| <= |safe.value|
      invariant truncated <==> (|items| > MAX_LIST_ITEMS || (exists i :: 0 <= i < |items| && TooLong(items[i]))
                                || |bounded| < |safe.value|)
      decreases |bounded|
    {
      bounded := bounded[..|bounded| - 1];
      truncated := true;
    }
    r := Full(List(bounded), truncated);
  }

  // ------------------------------------------------------------- maximal and honest

  lemma {:induction false} SafeItemsAre(items: seq<Value>)
    requires AllScalar(items) && SafeItems(items).Some?
    ensures var safe := SafeItems(items).value;
            |safe| == |items| && forall i :: 0 <= i < |items| ==> SafeScalar(items[i]) == Some(safe[i])
  {
    if items != [] {
      var init := items[..|items| - 1];
      SafeItemsAre(init);
      forall i | 0 <= i < |items| - 1 ensures SafeScalar(items[i]) == Some(SafeItems(items).value[i]) {
        assert init[i] == items[i];
      }
    }
  }

  /** Trimming keeps the longest prefix that fits, or nothing when none does. */
  lemma {:induction false} TrimMaximal(size: seq<Value> -> nat, items: seq<Value>)
    ensures var n := |Trim(size, items)|;
            && n <= |items| && Trim(size, items) == items[..n]
            && (n == 0 || size(items[..n]) <= MAX_VALUE_CHARS)
            && forall k :: n < k <= |items| ==> size(items[..k]) > MAX_VALUE_CHARS
  {
    if size(items) > MAX_VALUE_CHARS && items != [] {
      var init := items[..|items| - 1];
      TrimMaximal(size, init);
      assert items[..|items|] == items;
      forall k | 0 <= k <= |init| ensures init[..k] == items[..k] { }
    } else {
      assert items[..|items|] == items;
    }
  }

  /** A fully disclosed list: each item is the cut of the input's, and the list is
      the longest prefix of the first 64 whose JSON text fits. */
  lemma ListMaximal(size: seq<Value> -> nat, items: seq<Value>, kept: seq<Value>, truncated: bool)
    requires SafeValue(size, Some(Entry(true, FullMode)), List(items)) == Full(List(kept), truncated)
    ensures AllScalar(items) && SafeItems(Cut(items, MAX_LIST_ITEMS)).Some?
    ensures var safe := SafeItems(Cut(items, MAX_LIST_ITEMS)).value;
            && |safe| == |Cut(items, MAX_LIST_ITEMS)| && |kept| <= |safe| && kept == safe[..|kept|]
            && (forall i :: 0 <= i < |safe| ==> SafeScalar(items[i]) == Some(safe[i]))
            && (kept == [] || size(kept) <= MAX_VALUE_CHARS)
            && forall k :: |kept| < k <= |safe| ==> size(safe[..k]) > MAX_VALUE_CHARS
  {
    SafeItemsAre(Cut(items, MAX_LIST_ITEMS));
    TrimMaximal(size, SafeItems(Cut(items, MAX_LIST_ITEMS)).value);
  }

  lemma CutDiffers(s: string)
    ensures Cut(s, MAX_VALUE_CHARS) == s <==> |s| <= MAX_VALUE_CHARS
  {
  }

  /** A full disclosure says it is truncated exactly when it differs from the value. */
  lemma TruncatedIffDifferent(size: seq<Value> -> nat, entry: Option<Entry>, v: Value, w: Value, truncated: bool)
    requires SafeValue(size, entry, v) == Full(w, truncated)
    ensures truncated <==> w != v
  {
    if v.List? {
      var items := v.items;
      assert entry == Some(Entry(true, FullMode));
      ListMaximal(size, items, w.items, truncated);
      if !truncated {
        forall i | 0 <= i < |items| ensures w.items[i] == items[i] {
          assert SafeScalar(items[i]) == Some(w.items[i]);
          if items[i].Str? { CutDiffers(items[i].s); assert !TooLong(items[i]); }
        }
      }
    } else if v.Str? {
      CutDiffers(v.s);
    }
  }

  lemma ContainsInPrefix(s: string, n: nat, needle: string)
    requires Contains(Cut(s, n), needle)
    ensures Contains(s, needle)
  {
    var i :| 0 <= i <= |Cut(s, n)| && needle <= Cut(s, n)[i..];
    assert Cut(s, n)[i..] <= s[i..];
  }

  /** No disclosed string holds both `://` and `@`. */
  lemma NoUserInfo(size: seq<Value> -> nat, entry: Option<Entry>, v: Value, w: Value, truncated: bool)
    requires SafeValue(size, entry, v) == Full(w, truncated)
    ensures w.Str? ==> !HasUserInfo(w.s)
    ensures w.List? ==> forall i :: 0 <= i < |w.items| && w.items[i].Str? ==> !HasUserInfo(w.items[i].s)
  {
    if v.List? {
      assert entry == Some(Entry(true, FullMode));
      ListMaximal(size, v.items, w.items, truncated);
      forall i | 0 <= i < |w.items| && w.items[i].Str? ensures !HasUserInfo(w.items[i].s) {
        assert SafeScalar(v.items[i]) == Some(w.items[i]);
        ScalarClean(v.items[i]);
      }
    } else if v.Str? {
      ScalarClean(v);
    }
  }

  lemma ScalarClean(v: Value)
    requires Scalar(v) && SafeScalar(v).Some? && SafeScalar(v).value.Str?
    ensures !HasUserInfo(SafeScalar(v).value.s)
  {
    if HasUserInfo(Cut(v.s, MAX_VALUE_CHARS)) {
      ContainsInPrefix(v.s, MAX_VALUE_CHARS, "://");
      ContainsInPrefix(v.s, MAX_VALUE_CHARS, "@");
    }
  }

  /** Nothing is disclosed, in full or in summary, without a reviewed entry that asks for it. */
  lemma FailsClosed(size: seq<Value> -> nat, entry: Option<Entry>, v: Value)
    requires !SafeValue(size, entry, v).Withheld?
    ensures entry.Some? && entry.value.reviewed && entry.value.mode != NoMode && !v.Dict?
    ensures SafeValue(size, entry, v).Full? ==> entry.value.mode == FullMode && (v.List? ==> AllScalar(v.items))
  {
  }

  /** What a reviewed entry discloses: how many, whether any, or the value itself, cut. */
  lemma DisclosedIs(size: seq<Value> -> nat, v: Value)
    ensures v.List? ==> SafeValue(size, Some(Entry(true, CountMode)), v) == Summary(Int(|v.items|))
    ensures Scalar(v) ==> SafeValue(size, Some(Entry(true, PresenceMode)), v) == Summary(Bool(Truthy(v)))
    ensures Scalar(v) && !v.Str? ==> SafeValue(size, Some(Entry(true, FullMode)), v) == Full(v, false)
    ensures v.Str? && !HasUserInfo(v.s) && |v.s| <= 4096 ==> SafeValue(size, Some(Entry(true, FullMode)), v) == Full(v, false)
    ensures v.Str? && !HasUserInfo(v.s) && |v.s| > 4096 ==> SafeValue(size, Some(Entry(true, FullMode)), v) == Full(Str(v.s[..4096]), true)
    ensures v.Str? && HasUserInfo(v.s) ==> SafeValue(size, Some(Entry(true, FullMode)), v) == Withheld
  {
    hide HasUserInfo, SafeItems, Trim;
  }

  // --------------------------------------------------------------------- flattening

  /** Every entry is the value at a position with that dotted path. */
  ghost predicate Traces(v: Value, prefix: string, r: map<string, Value>) {
    forall p | p in r :: exists ks :: ks != [] && At(v, ks) == Some(r[p]) && JoinFrom(prefix, ks) == p
  }

  /** `field_values`: the loop of the source, which updates a dictionary recursively. */
  method FieldValues(data: Data, prefix: string) returns (r: map<string, Value>)
    ensures r.Keys == Flatten(Dict(data), prefix)
    ensures Traces(Dict(data), prefix, r)
    decreases Dict(data)
  {
    r := map[];
    var todo := data.Keys;
    assert data.Keys - todo == {};
    while todo != {}
      invariant todo <= data.Keys
      invariant r.Keys == FlattenKeys(data, prefix, data.Keys - todo)
      invariant Traces(Dict(data), prefix, r)
    {
      var key :| key in todo;
      var path := PathJoin(prefix, key);
      FlattenStep(data, prefix, data.Keys - todo, key);
      assert data.Keys - (todo - {key}) == (data.Keys - todo) + {key};
      TraceKey(data, prefix, r, key);
      r := r[path := data[key]];
      if data[key].Dict? {
        var inner := FieldValues(data[key].m, path);
        TraceInner(data, prefix, r, key, inner);
        r := r + inner;
      }
      todo := todo - {key};
    }
    assert data.Keys - todo == data.Keys;
    FlattenAll(data, prefix);
  }

  lemma TraceKey(data: Data, prefix: string, r: map<string, Value>, key: string)
    requires Traces(Dict(data), prefix, r) && key in data
    ensures Traces(Dict(data), prefix, r[PathJoin(prefix, key) := data[key]])
  {
    var ks := [key];
    assert At(data[key], ks[1..]) == Some(data[key]);
    assert At(Dict(data), ks) == Some(data[key]) && JoinFrom(prefix, ks) == PathJoin(prefix, key);
  }

  lemma TraceInner(data: Data, prefix: string, r: map<string, Value>, key: string, inner: map<string, Value>)
    requires Traces(Dict(data), prefix, r) && key in data && Traces(data[key], PathJoin(prefix, key), inner)
    ensures Traces(Dict(data), prefix, r + inner)
  {
    forall p | p in inner
      ensures exists ks :: ks != [] && At(Dict(data), ks) == Some(inner[p]) && JoinFrom(prefix, ks) == p
    {
      var rest :| rest != [] && At(data[key], rest) == Some(inner[p]) && JoinFrom(PathJoin(prefix, key), rest) == p;
      var ks := [key] + rest;
      assert ks[1..] == rest;
      assert At(Dict(data), ks) == Some(inner[p]) && JoinFrom(prefix, ks) == p;
    }
  }

  /** On faithful trees the inspection's flattening and the builder's agree: the
      entry at a dotted path is the value at that position. */
  lemma FieldValuesExact(data: Data, r: map<string, Value>, ks: seq<string>)
    requires FaithfulTree(Dict(data)) && r.Keys == Flatten(Dict(data), "") && Traces(Dict(data), "", r)
    requires ks != [] && At(Dict(data), ks).Some?
    ensures JoinFrom("", ks) in r && r[JoinFrom("", ks)] == At(Dict(data), ks).value
  {
    FlattenContains(Dict(data), "", ks);
    var p := JoinFrom("", ks);
    var ks' :| ks' != [] && At(Dict(data), ks') == Some(r[p]) && JoinFrom("", ks') == p;
    PositionsFaithful(Dict(data), ks);
    PositionsFaithful(Dict(data), ks');
    PathJoinInjective(ks, ks');
  }
}
