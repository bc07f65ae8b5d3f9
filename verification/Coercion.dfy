/** The coercers and list normalizers of configuration values, each with the law
    that makes a later write leave other keys alone: what they return, they
    return again. */
module Coercion {
  import opened Values
  import opened Text

  /** What reading a text as a number gives; a float too large for an integer
      raises an error that the coercers do not catch. */
  datatype Number = Num(i: int) | NotNumber | TooLarge

  datatype UrlCheck = Fine | Unfit | Unreadable

  /** What compiling a pattern gives; it can raise more than the error that the rule loop catches. */
  datatype Compiled = Compiles | BadPattern | Raises

  /** The library calls whose results are taken as given. */
  datatype Platform = Platform(
    render: Value -> string,                     // str(value) of a value that is not a string
    number: string -> Number,                    // int(text), else int(float(text.strip()))
    integer: string -> Option<int>,              // int(text)
    network: string -> bool,                     // ip_network(text, strict=False) accepts
    idna: string -> Option<string>,              // label.encode("idna")
    compiles: (string, string) -> Compiled,      // re.compile(pattern, flags)
    issuer: string -> UrlCheck,                  // the issuer URL parses and passes its checks
    redirect: string -> UrlCheck,                // the redirect URL parses and passes its checks
    section: (string, Value) -> Option<Value>)   // the nested model of a section

  /** IDNA encoding leaves ordinary ASCII labels alone. */
  ghost predicate Sound(p: Platform) {
    forall l | LabelOk(l) :: p.idna(l) == Some(l)
  }

  // --------------------------------------------------------------------- scalars

  /** int(x) of a float: towards zero. */
  function Trunc(r: real): int {
    if r >= 0.0 then r.Floor else -((-r).Floor)
  }

  function Max(a: int, b: int): int {
    if a < b then b else a
  }

  function ReadNumber(p: Platform, s: string): Option<int> {
    match p.number(s)
    case Num(i) => Some(i)
    case _ => None
  }

  /** `_parse_int_value`, for a text that does not escape */
  function ParseInt(p: Platform, v: Value): Option<int> {
    match v
    case Int(i) => Some(i)
    case Float(r) => Some(Trunc(r))
    case Str(s) => ReadNumber(p, s)
    case _ => None
  }

  /** `_coerce_int_value` */
  function CoerceInt(p: Platform, v: Value, fallback: int, minimum: int): int {
    match ParseInt(p, v)
    case Some(i) => Max(minimum, i)
    case None => fallback
  }

  /** `_parse_bool_value` */
  function ParseBool(p: Platform, v: Value): Option<bool> {
    match v
    case Bool(b) => Some(b)
    case Null => None
    case _ =>
      var text := Lower(Strip(StrOf(p.render, v)));
      if text in {"1", "true", "yes", "on"} then Some(true)
      else if text in {"0", "false", "no", "off"} then Some(false)
      else None
  }

  /** `_coerce_bool_value` */
  function CoerceBool(p: Platform, v: Value, fallback: bool): bool {
    match ParseBool(p, v)
    case Some(b) => b
    case None => fallback
  }

  function Without(s: string, c: char): string {
    if s == [] then [] else (if s[0] == c then [] else [s[0]]) + Without(s[1..], c)
  }

  /** A size text without its unit. */
  function MbDigits(s: string): string {
    var token := Without(Lower(Strip(s)), ' ');
    if EndsWith(token, "mb") then token[..|token| - 2]
    else if EndsWith(token, "m") then token[..|token| - 1]
    else token
  }

  /** `_coerce_mb_value`, for a text that does not escape */
  function CoerceMb(p: Platform, v: Value): Option<int> {
    match v
    case Int(i) => Some(Max(0, i))
    case Float(r) => Some(Max(0, Trunc(r)))
    case Str(s) =>
      if MbDigits(s) == "" then None
      else
        (match ReadNumber(p, MbDigits(s))
         case Some(i) => Some(Max(0, i))
         case None => None)
    case _ => None
  }

  /** The coercers escape with an overflow: on an integer text, on a size text. */
  predicate IntEscapes(p: Platform, v: Value) {
    v.Str? && p.number(v.s).TooLarge?
  }

  predicate MbEscapes(p: Platform, v: Value) {
    v.Str? && MbDigits(v.s) != "" && p.number(MbDigits(v.s)).TooLarge?
  }

  /** int(value), as the legacy byte limit is read. */
  function PlainInt(p: Platform, v: Value): Option<int> {
    match v
    case Bool(b) => Some(if b then 1 else 0)
    case Int(i) => Some(i)
    case Float(r) => Some(Trunc(r))
    case Str(s) => p.integer(s)
    case _ => None
  }

  // ---------------------------------------------------------------- lists of text

  function StrList(xs: seq<string>): Value {
    List(seq(|xs|, i requires 0 <= i < |xs| => Str(xs[i])))
  }

  predicate AllStr(items: seq<Value>) {
    forall i :: 0 <= i < |items| ==> items[i].Str?
  }

  function Texts(items: seq<Value>): seq<string>
    requires AllStr(items)
  {
    seq(|items|, i requires 0 <= i < |items| => items[i].s)
  }

  lemma TextsOfStrList(xs: seq<string>)
    ensures AllStr(StrList(xs).items) && Texts(StrList(xs).items) == xs
  {
  }

  /** A list of strings, or a string to split; `None` is the rejected case. */
  function SplitOrList(v: Value, sep: char): Option<seq<string>> {
    if !Truthy(v) then Some([])
    else
      match v
      case Str(s) => Some(Split(s, sep))
      case List(items) => if AllStr(items) then Some(Texts(items)) else None
      case _ => None
  }

  lemma SplitOrListFixed(xs: seq<string>, sep: char)
    ensures SplitOrList(StrList(xs), sep) == Some(xs)
  {
    TextsOfStrList(xs);
  }

  /** [str(item).strip() for item in items if str(item or "").strip()] */
  function ItemTexts(p: Platform, items: seq<Value>): seq<string> {
    if items == [] then []
    else
      (if Strip(TextOr(p.render, items[0], "")) != "" then [Strip(StrOf(p.render, items[0]))] else []) + ItemTexts(p, items[1..])
  }

  function RawItems(p: Platform, v: Value): seq<string> {
    match v
    case Str(s) => Clean(Split(s, ','))
    case List(items) => ItemTexts(p, items)
    case _ => []
  }

  /** For strings the comprehension is Clean. */
  lemma {:induction false} ItemTextsOfStrings(p: Platform, xs: seq<string>)
    ensures ItemTexts(p, StrList(xs).items) == Clean(xs)
  {
    if xs != [] {
      assert StrList(xs).items[1..] == StrList(xs[1..]).items;
      ItemTextsOfStrings(p, xs[1..]);
    }
  }

  // ------------------------------------------------------------------- CIDR lists

  /** `_normalize_cidr_list` */
  function Networks(p: Platform, raws: seq<string>): seq<string> {
    if raws == [] then []
    else
      var last := raws[|raws| - 1];
      Networks(p, raws[..|raws| - 1]) + (if p.network(last) then [last] else [])
  }

  method NormalizeCidrList(p: Platform, v: Value) returns (kept: seq<string>, dropped: seq<string>)
    ensures kept == Networks(p, RawItems(p, v))
    ensures forall i :: 0 <= i < |dropped| ==> dropped[i] in RawItems(p, v) && !p.network(dropped[i])
    ensures |kept| + |dropped| == |RawItems(p, v)|
  {
    var raws := RawItems(p, v);
    kept, dropped := [], [];
    for i := 0 to |raws|
      invariant kept == Networks(p, raws[..i])
      invariant forall j :: 0 <= j < |dropped| ==> dropped[j] in raws && !p.network(dropped[j])
      invariant |kept| + |dropped| == i
    {
      if p.network(raws[i]) { kept := kept + [raws[i]]; } else { dropped := dropped + [raws[i]]; }
      assert raws[..i + 1][..i] == raws[..i];
    }
    assert raws[..|raws|] == raws;
  }

  lemma {:induction false} NetworksSelected(p: Platform, raws: seq<string>)
    ensures forall i :: 0 <= i < |Networks(p, raws)| ==> Networks(p, raws)[i] in raws && p.network(Networks(p, raws)[i])
  {
    if raws != [] { NetworksSelected(p, raws[..|raws| - 1]); }
  }

  lemma {:induction false} NetworksAll(p: Platform, xs: seq<string>)
    requires forall i :: 0 <= i < |xs| ==> p.network(xs[i])
    ensures Networks(p, xs) == xs
  {
    if xs != [] {
      NetworksAll(p, xs[..|xs| - 1]);
      assert xs == xs[..|xs| - 1] + [xs[|xs| - 1]];
    }
  }

  lemma {:induction false} ItemTextsClean(p: Platform, items: seq<Value>)
    ensures IsClean(ItemTexts(p, items))
  {
    if items != [] {
      StripStripped(StrOf(p.render, items[0]));
      ItemTextsClean(p, items[1..]);
    }
  }

  lemma RawItemsClean(p: Platform, v: Value)
    ensures IsClean(RawItems(p, v))
  {
    match v
    case Str(s) => CleanIsClean(Split(s, ','));
    case List(items) => ItemTextsClean(p, items);
    case _ =>
  }

  lemma CidrsFixed(p: Platform, v: Value)
    ensures var kept := Networks(p, RawItems(p, v)); Networks(p, RawItems(p, StrList(kept))) == kept
  {
    hide Strip, TextOr, StrOf, Truthy;
    var kept := Networks(p, RawItems(p, v));
    RawItemsClean(p, v);
    NetworksSelected(p, RawItems(p, v));
    ItemTextsOfStrings(p, kept);
    CleanFixed(kept);
    NetworksAll(p, kept);
  }

  // -------------------------------------------------------------- domain suffixes

  predicate Alnum(c: char) {
    'a' <= c <= 'z' || '0' <= c <= '9'
  }

  predicate LabelCore(l: string) {
    && 1 <= |l| <= 63 && Alnum(l[0]) && Alnum(l[|l| - 1])
    && forall i :: 0 <= i < |l| ==> Alnum(l[i]) || l[i] == '-'
  }

  /** The label pattern. Its `$` also matches before a final line feed; the
      encoder returns no label longer than 63 characters. */
  predicate LabelOk(l: string) {
    && |l| <= 63
    && (LabelCore(l) || (l != "" && l[|l| - 1] == '\n' && LabelCore(l[..|l| - 1])))
  }

  function StripDots(s: string): string
    decreases |s|
  {
    if s != [] && s[0] == '.' then StripDots(s[1..])
    else if s != [] && s[|s| - 1] == '.' then StripDots(s[..|s| - 1])
    else s
  }

  function NonEmpty(parts: seq<string>): seq<string> {
    if parts == [] then [] else (if parts[0] != "" then [parts[0]] else []) + NonEmpty(parts[1..])
  }

  function EncodeAll(p: Platform, labels: seq<string>): Option<seq<string>> {
    if labels == [] then Some([])
    else
      match (p.idna(labels[0]), EncodeAll(p, labels[1..]))
      case (Some(l), Some(rest)) => Some([l] + rest)
      case _ => None
  }

  predicate ValidSuffix(s: string) {
    s != "" && forall i :: 0 <= i < |Split(s, '.')| ==> LabelOk(Split(s, '.')[i])
  }

  /** One turn of the suffix loop: the suffix to store, if any. */
  function SuffixOf(p: Platform, raw: string): (r: Option<string>)
    ensures r.Some? ==> ValidSuffix(r.value)
  {
    var token := StripDots(Lower(Strip(raw)));
    if token == "" then None
    else
      match EncodeAll(p, NonEmpty(Split(token, '.')))
      case None => None
      case Some(labels) =>
        var suffix := Lower(Join(labels, '.'));
        if ValidSuffix(suffix) then Some(suffix) else None
  }

  /** `_normalize_output_entity_extra_domain_suffixes`: first occurrences, in order. */
  function Suffixes(p: Platform, raws: seq<string>): seq<string> {
    if raws == [] then []
    else
      var before := Suffixes(p, raws[..|raws| - 1]);
      match SuffixOf(p, raws[|raws| - 1])
      case Some(x) => if x in before then before else before + [x]
      case None => before
  }

  method NormalizeDomainSuffixes(p: Platform, v: Value) returns (kept: seq<string>)
    ensures kept == Suffixes(p, RawItems(p, v))
  {
    hide SuffixOf, RawItems;
    var raws := RawItems(p, v);
    kept := [];
    var seen := {};
    for i := 0 to |raws|
      invariant kept == Suffixes(p, raws[..i])
      invariant forall x :: x in seen <==> x in kept
    {
      var suffix := SuffixOf(p, raws[i]);
      if suffix.Some? && suffix.value !in seen {
        seen := seen + {suffix.value};
        kept := kept + [suffix.value];
      }
      assert raws[..i + 1][..i] == raws[..i];
    }
    assert raws[..|raws|] == raws;
  }

  lemma {:induction false} SuffixesValid(p: Platform, raws: seq<string>)
    ensures Distinct(Suffixes(p, raws))
    ensures forall i :: 0 <= i < |Suffixes(p, raws)| ==> ValidSuffix(Suffixes(p, raws)[i])
  {
    if raws != [] { SuffixesValid(p, raws[..|raws| - 1]); }
  }

  predicate EndsInLineFeed(s: string) {
    s != "" && s[|s| - 1] == '\n'
  }

  lemma {:induction false} NonEmptyAll(parts: seq<string>)
    requires forall i :: 0 <= i < |parts| ==> parts[i] != ""
    ensures NonEmpty(parts) == parts
  {
    if parts != [] { NonEmptyAll(parts[1..]); }
  }

  lemma {:induction false} EncodeOk(p: Platform, labels: seq<string>)
    requires Sound(p) && forall i :: 0 <= i < |labels| ==> LabelOk(labels[i])
    ensures EncodeAll(p, labels) == Some(labels)
  {
    if labels != [] {
      assert LabelOk(labels[0]);
      EncodeOk(p, labels[1..]);
      assert [labels[0]] + labels[1..] == labels;
    }
  }

  lemma {:induction false} JoinEnds(parts: seq<string>)
    requires parts != [] && forall i :: 0 <= i < |parts| ==> parts[i] != ""
    ensures var s, last := Join(parts, '.'), parts[|parts| - 1];
            s != "" && s[0] == parts[0][0] && s[|s| - 1] == last[|last| - 1]
  {
    if |parts| > 1 {
      JoinEnds(parts[1..]);
      var s, rest := Join(parts, '.'), Join(parts[1..], '.');
      assert s[|s| - 1] == rest[|rest| - 1];
    }
  }

  lemma LowerLabels(s: string)
    requires forall i :: 0 <= i < |Split(s, '.')| ==> LabelOk(Split(s, '.')[i])
    ensures Lower(s) == s
  {
    forall j | 0 <= j < |s| ensures LowerChar(s[j]) == s[j] {
      var i, n := SplitCovers(s, '.', j);
      if s[j] != '.' {
        var l := Split(s, '.')[i];
        assert LabelOk(l);
        if !LabelCore(l) && n < |l| - 1 { assert l[..|l| - 1][n] == l[n]; }
      }
    }
  }

  /** Every character other than the separator is in some part. */
  lemma {:induction false} SplitCovers(s: string, sep: char, j: nat) returns (i: nat, n: nat)
    requires j < |s|
    ensures s[j] != sep ==> i < |Split(s, sep)| && n < |Split(s, sep)[i]| && Split(s, sep)[i][n] == s[j]
  {
    i, n := 0, 0;
    if j > 0 {
      var i', n' := SplitCovers(s[1..], sep, j - 1);
      if s[0] == sep { i, n := i' + 1, n'; }
      else { i, n := i', if i' == 0 then n' + 1 else n'; }
    }
  }

  lemma ValidEnds(s: string)
    requires ValidSuffix(s)
    ensures Alnum(s[0]) && (Alnum(s[|s| - 1]) || EndsInLineFeed(s))
    ensures forall i :: 0 <= i < |Split(s, '.')| ==> Split(s, '.')[i] != ""
  {
    var parts := Split(s, '.');
    forall i | 0 <= i < |parts| ensures parts[i] != "" { assert LabelOk(parts[i]); }
    JoinEnds(parts);
    JoinSplit(s, '.');
    assert LabelOk(parts[0]) && LabelOk(parts[|parts| - 1]);
  }

  /** A stored suffix without a final line feed is stored again as it is. */
  lemma SuffixStable(p: Platform, s: string)
    requires Sound(p) && ValidSuffix(s) && !EndsInLineFeed(s)
    ensures Strip(s) == s && SuffixOf(p, s) == Some(s)
  {
    ValidEnds(s);
    StripFixed(s);
    LowerLabels(s);
    assert StripDots(Lower(Strip(s))) == s;
    NonEmptyAll(Split(s, '.'));
    EncodeOk(p, Split(s, '.'));
    JoinSplit(s, '.');
  }

  /** Dropping the last character of a join drops it from the last part. */
  lemma {:induction false} JoinDropLast(parts: seq<string>, sep: char)
    requires parts != []
    ensures var s, last := Join(parts, sep), parts[|parts| - 1];
            if last == "" then s == "" || s[|s| - 1] == sep
            else s != "" && s[|s| - 1] == last[|last| - 1]
                 && s[..|s| - 1] == Join(parts[..|parts| - 1] + [last[..|last| - 1]], sep)
  {
    if |parts| > 1 {
      JoinDropLast(parts[1..], sep);
      var s, rest, last := Join(parts, sep), Join(parts[1..], sep), parts[|parts| - 1];
      assert s == parts[0] + [sep] + rest;
      if last != "" {
        var cut := parts[..|parts| - 1] + [last[..|last| - 1]];
        assert cut[1..] == parts[1..][..|parts| - 2] + [last[..|last| - 1]];
        assert s[..|s| - 1] == parts[0] + [sep] + rest[..|rest| - 1];
      }
    }
  }

  lemma LineFeedDropped(s: string)
    requires ValidSuffix(s) && EndsInLineFeed(s)
    ensures ValidSuffix(s[..|s| - 1]) && Alnum(s[..|s| - 1][|s| - 2])
  {
    var parts := Split(s, '.');
    ValidEnds(s);
    JoinSplit(s, '.');
    JoinDropLast(parts, '.');
    SplitPartsFree(s, '.');
    var last := parts[|parts| - 1];
    var cut := parts[..|parts| - 1] + [last[..|last| - 1]];
    assert LabelOk(last);
    assert LabelCore(last[..|last| - 1]);
    forall i | 0 <= i < |cut| ensures LabelOk(cut[i]) && cut[i] != "" && '.' !in cut[i] {
      if i < |parts| - 1 { assert cut[i] == parts[i] && LabelOk(parts[i]); }
    }
    SplitJoin(cut, '.');
    JoinEnds(cut);
  }

  /** A stored suffix with a final line feed loses it the next time. */
  lemma SuffixUnstable(p: Platform, s: string)
    requires Sound(p) && ValidSuffix(s) && EndsInLineFeed(s)
    ensures Strip(s) == s[..|s| - 1] && SuffixOf(p, Strip(s)) == Some(s[..|s| - 1])
    ensures !EndsInLineFeed(s[..|s| - 1]) && s[..|s| - 1] != ""
  {
    var t := s[..|s| - 1];
    LineFeedDropped(s);
    SuffixStable(p, t);
    ValidEnds(s);
    assert LStrip(s) == s;
    assert RStrip(t) == t;
    assert RStrip(s) == RStrip(t);
  }

  lemma {:induction false} SuffixesAll(p: Platform, xs: seq<string>)
    requires Distinct(xs) && forall i :: 0 <= i < |xs| ==> SuffixOf(p, xs[i]) == Some(xs[i])
    ensures Suffixes(p, xs) == xs
  {
    hide SuffixOf;
    if xs != [] {
      SuffixesAll(p, xs[..|xs| - 1]);
      assert xs == xs[..|xs| - 1] + [xs[|xs| - 1]];
    }
  }

  lemma {:induction false} SuffixesFrom(p: Platform, raws: seq<string>, x: string)
    requires x in Suffixes(p, raws)
    ensures exists i :: 0 <= i < |raws| && SuffixOf(p, raws[i]) == Some(x)
  {
    var n := |raws| - 1;
    if x in Suffixes(p, raws[..n]) {
      SuffixesFrom(p, raws[..n], x);
      var i :| 0 <= i < n && SuffixOf(p, raws[..n][i]) == Some(x);
      assert SuffixOf(p, raws[i]) == Some(x);
    }
  }

  lemma {:induction false} CleanMembers(xs: seq<string>, y: string)
    requires y in Clean(xs)
    ensures exists i :: 0 <= i < |xs| && y == Strip(xs[i])
  {
    if y in Clean(xs[1..]) {
      CleanMembers(xs[1..], y);
      var i :| 0 <= i < |xs[1..]| && y == Strip(xs[1..][i]);
      assert y == Strip(xs[i + 1]);
    }
  }

  /** A list of stored suffixes is stored again as it is exactly when none ends in
      a line feed, which the label pattern lets through after dots are stripped. */
  lemma ValidFixedIff(p: Platform, kept: seq<string>)
    requires Sound(p) && Distinct(kept) && forall i :: 0 <= i < |kept| ==> ValidSuffix(kept[i])
    ensures Suffixes(p, RawItems(p, StrList(kept))) == kept
            <==> forall i :: 0 <= i < |kept| ==> !EndsInLineFeed(kept[i])
  {
    ItemTextsOfStrings(p, kept);
    if forall i :: 0 <= i < |kept| ==> !EndsInLineFeed(kept[i]) {
      forall i | 0 <= i < |kept|
        ensures SuffixOf(p, kept[i]) == Some(kept[i]) && kept[i] != "" && Stripped(kept[i])
      {
        SuffixStable(p, kept[i]);
        StripFixed(kept[i]);
      }
      CleanFixed(kept);
      SuffixesAll(p, kept);
    } else {
      var i :| 0 <= i < |kept| && EndsInLineFeed(kept[i]);
      if kept[i] in Suffixes(p, Clean(kept)) {
        SuffixesFrom(p, Clean(kept), kept[i]);
        var j :| 0 <= j < |Clean(kept)| && SuffixOf(p, Clean(kept)[j]) == Some(kept[i]);
        CleanMembers(kept, Clean(kept)[j]);
        var n :| 0 <= n < |kept| && Clean(kept)[j] == Strip(kept[n]);
        if EndsInLineFeed(kept[n]) { SuffixUnstable(p, kept[n]); } else { SuffixStable(p, kept[n]); }
      }
    }
  }

  /** The unstable case does occur: a suffix given as a label, a line feed and a dot. */
  lemma LineFeedSurvivesOnce(p: Platform)
    requires Sound(p)
    ensures SuffixOf(p, "a\n.") == Some("a\n")
  {
    var raw, token := "a\n.", "a\n";
    assert LabelOk(token) by { assert token[..1] == "a" && LabelCore("a"); }
    StripFixed(raw);
    assert Lower(raw) == raw;
    assert raw[..2] == token;
    assert StripDots(raw) == StripDots(raw[..2]) == token;
    SplitPlain(token, '.');
    assert NonEmpty([token]) == [token];
    EncodeOk(p, [token]);
    assert Join([token], '.') == token && Lower(token) == token;
  }

  // --------------------------------------------------------------------- app name

  const PROJECT_NAME := "darklab_shell"
  const APP_NAME_MAX := 20

  /** `_normalize_app_name` */
  function AppNameOf(p: Platform, v: Value): string {
    var text := Strip(TextOr(p.render, v, PROJECT_NAME));
    var spaced := Join(Words(if text == "" then PROJECT_NAME else text), ' ');
    if |spaced| <= APP_NAME_MAX then spaced
    else
      var kept := RStrip(spaced[..APP_NAME_MAX]);
      if kept == "" then PROJECT_NAME else kept
  }

  /** The name is one or more words joined by single blanks, within the limit. */
  lemma AppNameWords(p: Platform, v: Value) returns (ws: seq<string>)
    ensures AllWords(ws) && ws != [] && AppNameOf(p, v) == Join(ws, ' ')
    ensures 0 < |AppNameOf(p, v)| <= APP_NAME_MAX
  {
    var text := Strip(TextOr(p.render, v, PROJECT_NAME));
    StripStripped(TextOr(p.render, v, PROJECT_NAME));
    var name := if text == "" then PROJECT_NAME else text;
    assert !IsSpace(name[0]);
    ws := Words(name);
    WordsAreWords(name);
    JoinWordsStripped(ws);
    var spaced := Join(ws, ' ');
    if |spaced| > APP_NAME_MAX {
      ws := CutWords(ws, APP_NAME_MAX);
      JoinWordsStripped(ws);
      RStripBlank(Join(ws, ' '));
    }
  }

  lemma AppNameFixed(p: Platform, v: Value)
    ensures AppNameOf(p, Str(AppNameOf(p, v))) == AppNameOf(p, v)
  {
    hide Words, Strip;
    var ws := AppNameWords(p, v);
    JoinWordsStripped(ws);
    StripFixed(AppNameOf(p, v));
    WordsJoin(ws);
  }

  // -------------------------------------------------------------- redaction rules

  function KeepFlags(s: string): string {
    if s == "" then ""
    else (if LowerChar(s[0]) in {'i', 'm'} then [LowerChar(s[0])] else "") + KeepFlags(s[1..])
  }

  lemma {:induction false} KeepFlagsFixed(s: string)
    ensures KeepFlags(KeepFlags(s)) == KeepFlags(s)
  {
    if s != "" {
      KeepFlagsFixed(s[1..]);
      var c := LowerChar(s[0]);
      if c in {'i', 'm'} {
        assert KeepFlags(s) == [c] + KeepFlags(s[1..]);
        assert KeepFlags(s)[1..] == KeepFlags(s[1..]) && LowerChar(c) == c;
      } else {
        assert KeepFlags(s) == KeepFlags(s[1..]);
      }
    }
  }

  function TextField(m: Data, key: string, fallback: string): string {
    if key in m && m[key].Str? then m[key].s else fallback
  }

  function RuleValue(title: string, pattern: string, replacement: string, flags: string): Value {
    Dict(map["label" := Str(title), "pattern" := Str(pattern), "replacement" := Str(replacement), "flags" := Str(flags)])
  }

  /** The item has a pattern that the loop compiles. */
  predicate HasPattern(item: Value) {
    item.Dict? && "pattern" in item.m && item.m["pattern"].Str? && Strip(item.m["pattern"].s) != ""
  }

  function CompiledOf(p: Platform, item: Value): Compiled
    requires HasPattern(item)
  {
    p.compiles(item.m["pattern"].s, KeepFlags(TextField(item.m, "flags", "")))
  }

  /** One turn of the rule loop that does not escape: the rule to keep, if any. */
  function RuleOf(p: Platform, item: Value): Option<Value> {
    if !HasPattern(item) || !CompiledOf(p, item).Compiles? then None
    else Some(RuleValue(Strip(TextField(item.m, "label", "")), item.m["pattern"].s,
                        TextField(item.m, "replacement", "[redacted]"), KeepFlags(TextField(item.m, "flags", ""))))
  }

  /** Compiling the item's pattern raises past the loop. */
  predicate RuleEscapes(p: Platform, item: Value) {
    HasPattern(item) && CompiledOf(p, item).Raises?
  }

  predicate RulesEscape(p: Platform, v: Value) {
    v.List? && exists i :: 0 <= i < |v.items| && RuleEscapes(p, v.items[i])
  }

  /** `normalize_redaction_rules` */
  function Rules(p: Platform, items: seq<Value>): seq<Value> {
    if items == [] then []
    else
      var before := Rules(p, items[..|items| - 1]);
      match RuleOf(p, items[|items| - 1])
      case Some(rule) => before + [rule]
      case None => before
  }

  function RulesOf(p: Platform, v: Value): seq<Value> {
    if v.List? then Rules(p, v.items) else []
  }

  method NormalizeRedactionRules(p: Platform, v: Value) returns (rules: Option<seq<Value>>)
    ensures rules == if RulesEscape(p, v) then None else Some(RulesOf(p, v))
  {
    hide RuleOf, RuleEscapes;
    if !v.List? { return Some([]); }
    var kept := [];
    for i := 0 to |v.items|
      invariant kept == Rules(p, v.items[..i])
      invariant forall j :: 0 <= j < i ==> !RuleEscapes(p, v.items[j])
    {
      if RuleEscapes(p, v.items[i]) { return None; }
      var rule := RuleOf(p, v.items[i]);
      if rule.Some? { kept := kept + [rule.value]; }
      assert v.items[..i + 1][..i] == v.items[..i];
    }
    assert v.items[..|v.items|] == v.items;
    return Some(kept);
  }

  lemma RuleFixed(p: Platform, item: Value)
    requires RuleOf(p, item).Some?
    ensures RuleOf(p, RuleOf(p, item).value) == RuleOf(p, item)
  {
    var rule := RuleOf(p, item).value;
    assert "label"[0] != "flags"[0];
    StripIdempotent(TextField(item.m, "label", ""));
    KeepFlagsFixed(TextField(item.m, "flags", ""));
    assert TextField(rule.m, "label", "") == Strip(TextField(item.m, "label", ""));
    assert TextField(rule.m, "flags", "") == KeepFlags(TextField(item.m, "flags", ""));
  }

  lemma {:induction false} RulesFixed(p: Platform, items: seq<Value>)
    ensures Rules(p, Rules(p, items)) == Rules(p, items)
  {
    if items != [] {
      var init := items[..|items| - 1];
      RulesFixed(p, init);
      var rule := RuleOf(p, items[|items| - 1]);
      if rule.Some? {
        RuleFixed(p, items[|items| - 1]);
        assert (Rules(p, init) + [rule.value])[..|Rules(p, init)|] == Rules(p, init);
      }
    }
  }

  /** A kept rule does not escape the next time. */
  lemma {:induction false} KeptRulesStay(p: Platform, items: seq<Value>, i: nat)
    requires i < |Rules(p, items)|
    ensures !RuleEscapes(p, Rules(p, items)[i])
  {
    hide RuleOf, RuleEscapes;
    var init, last := items[..|items| - 1], items[|items| - 1];
    if i < |Rules(p, init)| {
      KeptRulesStay(p, init, i);
    } else {
      RuleFixed(p, last);
      KeptRule(p, RuleOf(p, last).value);
    }
  }

  lemma KeptRule(p: Platform, item: Value)
    requires RuleOf(p, item).Some?
    ensures !RuleEscapes(p, item)
  {
  }
}
