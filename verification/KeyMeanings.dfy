/** What each treated key makes of a value, in the words of the code's own documentation
    rather than of the coercers: which texts turn a flag on, how lists are written, what
    becomes of numbers, names and rules; and the access rules in one formula. */
module KeyMeanings {
  import opened Values
  import opened Text
  import opened ConfigKeys
  import opened Coercion
  import opened Normalize
  import opened FixedPoints
  import opened Schema

  // ------------------------------------------------------------------------- flags

  /** Four words turn a flag on and four turn it off; any other text leaves its default. */
  lemma FlagMeans(p: Platform, b: BoolKey, t: string)
    ensures Lower(Strip(t)) in {"1", "true", "yes", "on"} ==> NormValue(p, Flag(b), Str(t)) == Bool(true)
    ensures Lower(Strip(t)) in {"0", "false", "no", "off"} ==> NormValue(p, Flag(b), Str(t)) == Bool(false)
    ensures Lower(Strip(t)) !in {"1", "true", "yes", "on", "0", "false", "no", "off"} ==>
              NormValue(p, Flag(b), Str(t)) == BuiltIn(Flag(b))
    ensures NormValue(p, Flag(b), Null) == BuiltIn(Flag(b))
    ensures forall x :: NormValue(p, Flag(b), Bool(x)) == Bool(x)
  {
    hide CoerceBool, Lower, Strip, BoolFallback;
    FlagWords(p, t, BoolFallback(b));
  }

  lemma FlagWords(p: Platform, t: string, fallback: bool)
    ensures Lower(Strip(t)) in {"1", "true", "yes", "on"} ==> CoerceBool(p, Str(t), fallback)
    ensures Lower(Strip(t)) in {"0", "false", "no", "off"} ==> !CoerceBool(p, Str(t), fallback)
    ensures Lower(Strip(t)) !in {"1", "true", "yes", "on", "0", "false", "no", "off"} ==> CoerceBool(p, Str(t), fallback) == fallback
    ensures CoerceBool(p, Null, fallback) == fallback && forall x :: CoerceBool(p, Bool(x), fallback) == x
  {
    hide Lower, Strip;
    WordsDiffer(Lower(Strip(t)));
  }

  lemma WordsDiffer(t: string)
    ensures t in {"1", "true", "yes", "on"} ==> t !in {"0", "false", "no", "off"}
  {
  }

  // ----------------------------------------------------------------------- numbers

  /** A number, written as one or as text, is raised to the minimum; anything else leaves the default. */
  lemma CountMeans(p: Platform, i: IntKey, n: int, t: string)
    ensures NormValue(p, Count(i), Int(n)) == Int(if n < IntRule(i).1 then IntRule(i).1 else n)
    ensures p.number(t) == Num(n) ==> NormValue(p, Count(i), Str(t)) == NormValue(p, Count(i), Int(n))
    ensures p.number(t).NotNumber? ==> NormValue(p, Count(i), Str(t)) == BuiltIn(Count(i))
    ensures NormValue(p, Count(i), Null) == BuiltIn(Count(i))
    ensures forall x :: NormValue(p, Count(i), Bool(x)) == BuiltIn(Count(i))
    ensures forall items :: NormValue(p, Count(i), List(items)) == BuiltIn(Count(i))
  {
    hide IntRule;
    forall x ensures NormValue(p, Count(i), Bool(x)) == BuiltIn(Count(i)) { assert ParseInt(p, Bool(x)).None?; }
    forall items ensures NormValue(p, Count(i), List(items)) == BuiltIn(Count(i)) { assert ParseInt(p, List(items)).None?; }
  }

  /** A legacy byte limit is an integer, as it is or as text, at least zero; anything else counts as none at all. */
  lemma BytesMeans(p: Platform, n: int, t: string)
    ensures BytesOf(p, Int(n)) == Some(if n < 0 then 0 else n)
    ensures p.integer(t) == Some(n) ==> BytesOf(p, Str(t)) == BytesOf(p, Int(n))
    ensures p.integer(t) == None ==> BytesOf(p, Str(t)) == Some(0)
    ensures BytesOf(p, Null) == None && forall items :: BytesOf(p, List(items)) == Some(0)
  {
  }

  /** A float is cut towards zero. */
  lemma FloatMeans(p: Platform, r: real)
    ensures ParseInt(p, Float(r)).Some?
    ensures var n := ParseInt(p, Float(r)).value;
            if r >= 0.0 then 0.0 <= r - n as real < 1.0 else 0.0 <= n as real - r < 1.0
  {
  }

  lemma DurationMeans(p: Platform, d: DurationKey, n: int, t: string)
    ensures NormValue(p, Duration(d), Int(n)) == Int(n)
    ensures p.number(t) == Num(n) ==> NormValue(p, Duration(d), Str(t)) == Int(n)
  {
  }

  /** A size is a number of megabytes, as it is or as text with the unit `mb` or `m`;
      below zero it is zero. */
  lemma MbMeans(p: Platform, n: int, t: string)
    requires t != "" && Stripped(t) && ' ' !in t && Lower(t) == t && t[|t| - 1] != 'b' && t[|t| - 1] != 'm'
    ensures CoerceMb(p, Int(n)) == Some(if n < 0 then 0 else n)
    ensures p.number(t) == Num(n) ==>
              CoerceMb(p, Str(t)) == CoerceMb(p, Str(t + "mb")) == CoerceMb(p, Str(t + "m")) == Some(if n < 0 then 0 else n)
    ensures CoerceMb(p, Null) == None && forall x :: CoerceMb(p, Bool(x)) == None
  {
    hide MbDigits;
    Digits(t);
  }

  /** An unreadable preview limit is 1 MB, an unreadable full-output limit 5 MB where no byte
      limit is given. */
  lemma SizesMean(p: Platform, d: Config, src: string)
    ensures CoerceMb(p, Get(d, PreviewMb)).None? ==>
              NormAt(p, d, src, PreviewMb) == Int(1) && NormAt(p, d, src, PreviewBytes) == Int(1048576)
    ensures CoerceMb(p, Get(d, PreviewMb)).Some? ==>
              var mb := CoerceMb(p, Get(d, PreviewMb)).value;
              NormAt(p, d, src, PreviewMb) == Int(mb) && NormAt(p, d, src, PreviewBytes) == Int(mb * 1048576)
    ensures CoerceMb(p, Get(d, FullOutputMb)).None? && Get(d, FullOutputBytes) == Null ==>
              NormAt(p, d, src, FullOutputMb) == Int(5) && NormAt(p, d, src, FullOutputBytes) == Int(5 * 1048576)
  {
    hide CoerceMb, PlainInt;
  }

  lemma Digits(t: string)
    requires t != "" && Stripped(t) && ' ' !in t && Lower(t) == t && t[|t| - 1] != 'b' && t[|t| - 1] != 'm'
    ensures MbDigits(t) == t && MbDigits(t + "mb") == t && MbDigits(t + "m") == t
  {
    hide Lower, Strip, EndsWith;
    Folded(t, "");
    Folded(t, "mb");
    Folded(t, "m");
    assert t + "" == t;
    assert EndsWith(t + "mb", "mb") && EndsWith(t + "m", "m") by { Ends(t, "mb"); Ends(t, "m"); }
    assert (t + "mb")[..|t|] == t && (t + "m")[..|t|] == t;
    LastOf(t);
    LastOf(t + "m");
  }

  lemma Ends(t: string, u: string)
    ensures EndsWith(t + u, u)
  {
  }

  /** A text without blanks and capitals is read as it is. */
  lemma Folded(t: string, u: string)
    requires t != "" && Stripped(t) && ' ' !in t && Lower(t) == t && (u == "" || u == "mb" || u == "m")
    ensures Without(Lower(Strip(t + u)), ' ') == t + u
  {
    hide Without, Strip;
    assert Lower(u) == u && ' ' !in u;
    LowerAppend(t, u);
    assert Stripped(t + u);
    StripFixed(t + u);
    Unspaced(t + u);
  }

  lemma LastOf(t: string)
    requires t != ""
    ensures EndsWith(t, "mb") ==> t[|t| - 1] == 'b'
    ensures EndsWith(t, "m") ==> t[|t| - 1] == 'm'
  {
    if EndsWith(t, "mb") { assert t[|t| - 1] == t[|t| - 2..][1] == "mb"[1]; }
    if EndsWith(t, "m") { assert t[|t| - 1] == t[|t| - 1..][0] == "m"[0]; }
  }

  lemma {:induction false} Unspaced(t: string)
    requires ' ' !in t
    ensures Without(t, ' ') == t
  {
    if t != "" { Unspaced(t[1..]); assert [t[0]] + t[1..] == t; }
  }

  lemma LowerAppend(t: string, u: string)
    requires Lower(t) == t && Lower(u) == u
    ensures Lower(t + u) == t + u
  {
    forall i | 0 <= i < |t + u| ensures LowerChar((t + u)[i]) == (t + u)[i] {
      if i < |t| { assert Lower(t)[i] == t[i]; } else { assert Lower(u)[i - |t|] == u[i - |t|]; }
    }
  }

  // ------------------------------------------------------------------------- texts

  lemma TextMeans(p: Platform, t: string, s: OidcSetting)
    ensures NormValue(p, AccessProfile, Str(t)) == Str(if t == "" then "open" else Lower(Strip(t)))
    ensures NormValue(p, OidcProvisioning, Str(t)) == Str(if t == "" then "disabled" else Lower(Strip(t)))
    ensures NormValue(p, Oidc(s), Str(t)) == Str(Strip(t))
    ensures NormValue(p, AccessProfile, Null) == Str("open") && NormValue(p, OidcProvisioning, Null) == Str("disabled")
    ensures NormValue(p, Oidc(s), Null) == Str("")
  {
    StripFixed("open");
    StripFixed("disabled");
    StripFixed("");
    assert Lower("open") == "open" && Lower("disabled") == "disabled";
  }

  /** A name of single-spaced words that fits is stored as it is, a blank one is the
      project's; a longer one keeps its beginning. */
  lemma AppNameMeans(p: Platform, ws: seq<string>)
    requires AllWords(ws) && ws != []
    ensures |Join(ws, ' ')| <= 20 ==> NormValue(p, AppName, Str(Join(ws, ' '))) == Str(Join(ws, ' '))
    ensures |Join(ws, ' ')| > 20 ==> NormValue(p, AppName, Str(Join(ws, ' '))).s <= Join(ws, ' ')[..20]
    ensures NormValue(p, AppName, Str("")) == NormValue(p, AppName, Null) == Str("darklab_shell")
  {
    hide Words, Strip, RStrip;
    var name := Join(ws, ' ');
    JoinWordsStripped(ws);
    StripFixed(name);
    WordsJoin(ws);
    if |name| > 20 {
      RStripPrefix(name[..20]);
      LongName(p, ws);
    }
    DefaultName(p);
  }

  lemma LongName(p: Platform, ws: seq<string>)
    requires AllWords(ws) && ws != [] && |Join(ws, ' ')| > 20
    ensures RStrip(Join(ws, ' ')[..20]) != ""
  {
    JoinWordsStripped(ws);
    RStripPrefix(Join(ws, ' ')[..20]);
  }

  lemma DefaultName(p: Platform)
    ensures AppNameOf(p, Str("")) == AppNameOf(p, Null) == "darklab_shell"
  {
    hide Words, Strip;
    StripFixed("darklab_shell");
    var ws := ["darklab_shell"];
    assert AllWords(ws) by { OneWord(); }
    WordsJoin(ws);
  }

  lemma OneWord()
    ensures AllWords(["darklab_shell"])
  {
  }

  // ------------------------------------------------------------------------- lists

  /** Items as a list may hold them: trimmed, none empty, none with the separator. */
  predicate ItemsFor(xs: seq<string>, sep: char) {
    xs != [] && IsClean(xs) && forall i :: 0 <= i < |xs| ==> sep !in xs[i]
  }

  lemma {:induction false} JoinNotEmpty(xs: seq<string>, sep: char)
    requires ItemsFor(xs, sep)
    ensures Join(xs, sep) != ""
  {
  }

  /** A list is written as one, or as text: scopes with blanks, subjects with commas. */
  lemma ItemsMeans(p: Platform, xs: seq<string>)
    ensures ItemsFor(xs, ' ') ==> NormValue(p, OidcItems(Scopes), Str(Join(xs, ' '))) == StrList(xs)
    ensures ItemsFor(xs, ',') ==> NormValue(p, OidcItems(AllowedSubjects), Str(Join(xs, ','))) == StrList(xs)
    ensures IsClean(xs) ==> forall l :: NormValue(p, OidcItems(l), StrList(xs)) == StrList(xs)
    ensures forall l :: NormValue(p, OidcItems(l), Null) == StrList([])
  {
    hide StrList, Split, Join, Clean;
    if ItemsFor(xs, ' ') { SplitJoin(xs, ' '); JoinNotEmpty(xs, ' '); }
    if ItemsFor(xs, ',') { SplitJoin(xs, ','); JoinNotEmpty(xs, ','); }
    if IsClean(xs) { CleanFixed(xs); }
    SplitOrListFixed(xs, ' ');
    SplitOrListFixed(xs, ',');
    CleanNothing();
  }

  lemma CleanNothing()
    ensures Clean([]) == []
  {
  }

  /** Lists of networks and suffixes are written alike, with commas in text. */
  lemma RawMeans(p: Platform, xs: seq<string>)
    ensures ItemsFor(xs, ',') ==> RawItems(p, Str(Join(xs, ','))) == xs
    ensures IsClean(xs) ==> RawItems(p, StrList(xs)) == xs
  {
    hide StrList, Split, Join, Clean;
    if ItemsFor(xs, ',') { SplitJoin(xs, ','); }
    if IsClean(xs) { CleanFixed(xs); }
    ItemTextsOfStrings(p, xs);
    StrListIsList(xs);
  }

  lemma StrListIsList(xs: seq<string>)
    ensures StrList(xs).List?
  {
  }

  lemma NetworkAlone(p: Platform, x: string)
    ensures Networks(p, [x]) == if p.network(x) then [x] else []
  {
    assert [x][..0] == [];
  }

  /** Each network is kept or dropped on its own, in its place. */
  lemma {:induction false} NetworksAppend(p: Platform, a: seq<string>, b: seq<string>)
    ensures Networks(p, a + b) == Networks(p, a) + Networks(p, b)
    decreases |b|
  {
    if b == [] {
      assert a + b == a;
      assert Networks(p, b) == [];
    } else {
      var n := |b| - 1;
      NetworksAppend(p, a, b[..n]);
      NetworksLast(p, a + b);
      NetworksLast(p, b);
      assert (a + b)[..|a + b| - 1] == a + b[..n] && (a + b)[|a + b| - 1] == b[n];
    }
  }

  lemma NetworksLast(p: Platform, xs: seq<string>)
    requires xs != []
    ensures Networks(p, xs) == Networks(p, xs[..|xs| - 1]) + if p.network(xs[|xs| - 1]) then [xs[|xs| - 1]] else []
  {
  }

  /** A label of a suffix: 1 to 63 small letters, digits and hyphens, no hyphen at either end. */
  predicate Label(l: string) {
    && 1 <= |l| <= 63 && l[0] != '-' && l[|l| - 1] != '-'
    && forall i :: 0 <= i < |l| ==> 'a' <= l[i] <= 'z' || '0' <= l[i] <= '9' || l[i] == '-'
  }

  lemma LabelIs(l: string)
    requires '\n' !in l
    ensures LabelOk(l) <==> Label(l)
  {
  }

  predicate AllLabels(parts: seq<string>) {
    forall i :: 0 <= i < |parts| ==> Label(parts[i])
  }

  /** A suffix is such labels joined by dots. */
  lemma SuffixIs(s: string)
    requires '\n' !in s
    ensures ValidSuffix(s) <==> AllLabels(Split(s, '.'))
  {
    hide LabelOk, Label;
    var parts := Split(s, '.');
    if s == "" {
      EmptyLabel();
      assert !Label(parts[0]);
    }
    forall i | 0 <= i < |parts| ensures LabelOk(parts[i]) <==> Label(parts[i]) {
      PartChars(s, '.', i, '\n');
      LabelIs(parts[i]);
    }
    if AllLabels(parts) {
      assert forall i :: 0 <= i < |parts| ==> LabelOk(parts[i]);
      assert ValidSuffix(s);
    }
  }

  lemma EmptyLabel()
    ensures Split("", '.') == [""] && !Label("")
  {
  }

  /** A suffix is read in either case, with blanks and then dots around it. */
  lemma SuffixSpelled(p: Platform, raw: string, a: string, s: string, b: string)
    requires Sound(p) && ValidSuffix(s) && !EndsInLineFeed(s)
    requires Lower(Strip(raw)) == a + s + b && (forall c :: c in a + b ==> c == '.')
    ensures SuffixOf(p, raw) == Some(s)
  {
    hide Lower, Strip, EncodeAll, NonEmpty, Split, Join, Sound, StripDots, LabelOk;
    SuffixStable(p, s);
    ValidEnds(s);
    DotsOff(a, s, b);
    DotsOff("", s, "");
    assert "" + s + "" == s;
    assert Lower(Strip(s)) == s by { LowerSuffix(s); }
  }

  lemma LowerSuffix(s: string)
    requires ValidSuffix(s)
    ensures Lower(s) == s
  {
    LowerLabels(s);
  }

  lemma {:induction false} DotsOff(a: string, s: string, b: string)
    requires s != "" && s[0] != '.' && s[|s| - 1] != '.' && forall c :: c in a + b ==> c == '.'
    ensures StripDots(a + s + b) == s
    decreases |a| + |b|
  {
    var t := a + s + b;
    if a != "" {
      assert a[0] in a + b;
      assert t[0] == '.' && t[1..] == a[1..] + s + b;
      assert forall c :: c in a[1..] + b ==> c in a + b;
      DotsOff(a[1..], s, b);
    } else if b != "" {
      var n := |b| - 1;
      assert b[n] in a + b;
      assert t[0] == s[0] && t[|t| - 1] == b[n] && t[..|t| - 1] == a + s + b[..n];
      assert forall c :: c in a + b[..n] ==> c in a + b;
      DotsOff(a, s, b[..n]);
    } else {
      assert t == s;
    }
  }

  lemma {:induction false} PartChars(s: string, sep: char, i: nat, c: char)
    requires i < |Split(s, sep)| && c !in s
    ensures c !in Split(s, sep)[i]
  {
    if s != "" {
      var rest := Split(s[1..], sep);
      if s[0] == sep {
        if i > 0 { PartChars(s[1..], sep, i - 1, c); }
      } else {
        PartChars(s[1..], sep, i, c);
      }
    }
  }

  /** Distinct valid suffixes are stored as they are written. */
  lemma SuffixesMeans(p: Platform, xs: seq<string>)
    requires Sound(p) && ItemsFor(xs, ',') && Distinct(xs)
    requires forall i :: 0 <= i < |xs| ==> ValidSuffix(xs[i]) && !EndsInLineFeed(xs[i])
    ensures NormValue(p, DomainSuffixes, Str(Join(xs, ','))) == StrList(xs)
    ensures NormValue(p, DomainSuffixes, StrList(xs)) == StrList(xs)
  {
    hide StrList, RawItems, ValidSuffix, Suffixes, Join, Sound, ItemsFor, IsClean;
    assert IsClean(xs) by { CleanItems(xs, ','); }
    RawMeans(p, xs);
    StableAll(p, xs);
  }

  lemma CleanItems(xs: seq<string>, sep: char)
    requires ItemsFor(xs, sep)
    ensures IsClean(xs)
  {
  }

  lemma StableAll(p: Platform, xs: seq<string>)
    requires Sound(p) && Distinct(xs) && forall i :: 0 <= i < |xs| ==> ValidSuffix(xs[i]) && !EndsInLineFeed(xs[i])
    ensures Suffixes(p, xs) == xs
  {
    hide ValidSuffix, SuffixOf, Suffixes, Sound;
    forall i | 0 <= i < |xs| ensures SuffixOf(p, xs[i]) == Some(xs[i]) { SuffixStable(p, xs[i]); }
    SuffixesAll(p, xs);
  }

  // --------------------------------------------------------------- redaction rules

  predicate HoldsText(m: Data, key: string, t: string) {
    key in m && m[key] == Str(t)
  }

  /** A rule with a pattern that compiles is kept with its pattern, its replacement or
      the usual one, its trimmed label and its flags; any other item is dropped. */
  lemma RuleMeans(p: Platform, item: Value)
    ensures RuleOf(p, item).Some? ==> item.Dict? && "pattern" in item.m && item.m["pattern"].Str? && Strip(item.m["pattern"].s) != ""
    ensures item.Dict? && "pattern" in item.m && item.m["pattern"].Str? && Strip(item.m["pattern"].s) != "" ==>
              var flags := if "flags" in item.m && item.m["flags"].Str? then KeepFlags(item.m["flags"].s) else "";
              && (RuleOf(p, item).Some? <==> p.compiles(item.m["pattern"].s, flags).Compiles?)
              && (RuleEscapes(p, item) <==> p.compiles(item.m["pattern"].s, flags).Raises?)
    ensures RuleOf(p, item).Some? ==>
              var rule := RuleOf(p, item).value;
              && rule.Dict? && rule.m.Keys == {"label", "pattern", "replacement", "flags"}
              && rule.m["pattern"] == item.m["pattern"]
              && HoldsText(rule.m, "replacement", if "replacement" in item.m && item.m["replacement"].Str? then item.m["replacement"].s else "[redacted]")
              && HoldsText(rule.m, "label", if "label" in item.m && item.m["label"].Str? then Strip(item.m["label"].s) else "")
              && rule.m["flags"].Str? && forall c :: c in rule.m["flags"].s ==> c == 'i' || c == 'm'
  {
    hide Strip, KeepFlags;
    NoFlags();
    if RuleOf(p, item).Some? { FlagsKept(TextField(item.m, "flags", "")); StripFixed(""); }
  }

  lemma NoFlags()
    ensures KeepFlags("") == ""
  {
  }

  /** Of the flags, `i` and `m` are kept, in either case and in order. */
  lemma {:induction false} FlagsKept(s: string)
    ensures forall c :: c in KeepFlags(s) ==> c == 'i' || c == 'm'
    ensures (forall i :: 0 <= i < |s| ==> s[i] in {'i', 'm', 'I', 'M'}) ==> KeepFlags(s) == Lower(s)
  {
    if s != "" {
      FlagsKept(s[1..]);
      assert Lower(s) == [LowerChar(s[0])] + Lower(s[1..]);
    }
  }

  /** Each rule is kept or dropped on its own, in its place. */
  lemma {:induction false} RulesAppend(p: Platform, a: seq<Value>, b: seq<Value>)
    ensures Rules(p, a + b) == Rules(p, a) + Rules(p, b)
    ensures forall x :: Rules(p, [x]) == if RuleOf(p, x).Some? then [RuleOf(p, x).value] else []
    decreases |b|
  {
    hide RuleOf;
    forall x ensures Rules(p, [x]) == if RuleOf(p, x).Some? then [RuleOf(p, x).value] else [] { assert [x][..0] == []; }
    if b == [] {
      assert a + b == a;
    } else {
      RulesAppend(p, a, b[..|b| - 1]);
      assert (a + b)[..|a + b| - 1] == a + b[..|b| - 1];
    }
  }

  // ------------------------------------------------------------------ plain keys

  /** A plain key takes values of its default's kind only; a float key takes integers too. */
  lemma KindMeans(p: Platform, defaults: Config, name: string, v: Value)
    requires Plain(name) in defaults && name !in STRING_LIST_KEYS && name !in FLOAT_LIST_KEYS && name !in FLOAT_KEYS
    ensures var field := CheckField(p, defaults, Plain(name), v);
            match defaults[Plain(name)]
            case Bool(_) => field == if v.Bool? then Some(v) else None
            case Int(_) => field == if v.Int? then Some(v) else None
            case Str(_) => field == if v.Str? then Some(v) else None
            case List(_) => field == if v.List? then Some(v) else None
            case Dict(_) => field == if v.Dict? then Some(v) else None
            case Float(_) => field == if v.Float? then Some(v) else if v.Int? then Some(Float(v.i as real)) else None
            case Null => field == Some(v)
  {
    hide STRING_LIST_KEYS, FLOAT_LIST_KEYS, FLOAT_KEYS;
  }

  /** A list of strings is taken as it is, a list with anything else refused. */
  lemma StringListMeans(p: Platform, defaults: Config, name: string, v: Value)
    requires name in {"trusted_proxy_cidrs", "metrics_allowed_cidrs", "welcome_status_labels"}
    ensures CheckField(p, defaults, Plain(name), v) == if v.List? && (forall i :: 0 <= i < |v.items| ==> v.items[i].Str?) then Some(v) else None
  {
  }

  lemma {:induction false} FloatsMean(items: seq<Value>)
    ensures AsFloats(items).Some? <==> forall i :: 0 <= i < |items| ==> items[i].Float? || items[i].Int?
    ensures AsFloats(items).Some? ==> |AsFloats(items).value| == |items| && forall i :: 0 <= i < |items| ==>
              AsFloats(items).value[i] == if items[i].Float? then items[i] else Float(items[i].i as real)
  {
    if items != [] {
      FloatsMean(items[1..]);
      if AsFloats(items).Some? {
        assert AsFloats(items).value == [AsFloat(items[0]).value] + AsFloats(items[1..]).value;
      }
      assert forall i :: 1 <= i < |items| ==> items[i] == items[1..][i - 1];
    }
  }

  /** A list of floats takes integers too, and makes floats of them. */
  lemma FloatListMeans(p: Platform, defaults: Config, name: string, v: Value)
    requires name in FLOAT_LIST_KEYS && name !in STRING_LIST_KEYS
    ensures var field := CheckField(p, defaults, Plain(name), v);
            && (field.Some? <==> v.List? && forall i :: 0 <= i < |v.items| ==> v.items[i].Float? || v.items[i].Int?)
            && (field.Some? ==> field.value.List? && |field.value.items| == |v.items| && forall i :: 0 <= i < |v.items| ==>
                  field.value.items[i] == if v.items[i].Float? then v.items[i] else Float(v.items[i].i as real))
  {
    hide FLOAT_LIST_KEYS, STRING_LIST_KEYS, AsFloats;
    if v.List? { FloatsMean(v.items); }
  }

  // ------------------------------------------------------------- the access rules

  /** What acceptance asks of the access settings, all at once. */
  lemma AcceptedMeans(p: Platform, a: Access)
    ensures Accepted(p, a) <==>
            && a.profile in {"open", "token_required", "oidc_required", "mixed"}
            && a.policy in {"disabled", "allowlist", "automatic"}
            && a.scopes.Some? && a.subjects.Some? && a.idle.Some? && a.absolute.Some? && a.reauth.Some?
            && "openid" in a.scopes.value && Distinct(a.scopes.value) && Distinct(a.subjects.value)
            && (a.profile in {"oidc_required", "mixed"} ==> a.Configured())
            && (a.Configured() ==>
                  && a.issuer != "" && a.clientId != "" && a.clientSecret != "" && a.redirectUri != ""
                  && p.issuer(a.issuer).Fine? && p.redirect(a.redirectUri).Fine?)
            && (a.subjects.value != [] <==> a.policy == "allowlist")
            && (a.policy != "disabled" ==> a.Configured() && a.profile != "token_required")
            && 1 <= a.idle.value <= 1440 && 1 <= a.absolute.value <= 8760 && 5 <= a.reauth.value <= 60
            && a.idle.value * 60 <= a.absolute.value * 3600
  {
    hide Distinct, Accepted;
    if Accepted(p, a) {
      AcceptedSays(p, a);
      ProviderSays(p, a);
    } else {
      RefusedSays(p, a);
    }
  }

  lemma AcceptedSays(p: Platform, a: Access)
    requires Accepted(p, a)
    ensures a.profile in PROFILES && a.policy in POLICIES && Readable(a)
    ensures "openid" in a.scopes.value && Distinct(a.scopes.value) && Distinct(a.subjects.value)
    ensures a.subjects.value != [] <==> a.policy == "allowlist"
    ensures a.policy != "disabled" ==> a.Configured() && a.profile != "token_required"
    ensures a.idle.value * 60 <= a.absolute.value * 3600
    ensures 1 <= a.idle.value <= 1440 && 1 <= a.absolute.value <= 8760 && 5 <= a.reauth.value <= 60
  {
    hide Distinct, PROFILES, POLICIES, Accepted;
    AcceptedReads(p, a);
    NoneViolated(p, a);
    assert !Violates(p, a, UnsupportedProfile) && !Violates(p, a, UnsupportedProvisioning) && !Violates(p, a, OpenidMissing);
    assert !Violates(p, a, Repeated(Scopes)) && !Violates(p, a, Repeated(AllowedSubjects));
    assert !Violates(p, a, AllowlistRequired) && !Violates(p, a, AllowlistUnused) && !Violates(p, a, ProvisioningDisallowed);
    assert !Violates(p, a, BadDuration(IdleMinutes)) && !Violates(p, a, BadDuration(AbsoluteHours));
    assert !Violates(p, a, BadDuration(ReauthMinutes)) && !Violates(p, a, IdleTooLong);
  }

  lemma NoneViolated(p: Platform, a: Access)
    requires Accepted(p, a)
    ensures forall rule :: !Violates(p, a, rule)
  {
  }

  lemma ProviderSays(p: Platform, a: Access)
    requires Accepted(p, a)
    ensures a.profile in {"oidc_required", "mixed"} ==> a.Configured()
    ensures a.Configured() ==>
              && a.issuer != "" && a.clientId != "" && a.clientSecret != "" && a.redirectUri != ""
              && p.issuer(a.issuer).Fine? && p.redirect(a.redirectUri).Fine?
  {
    hide Distinct, PROFILES, POLICIES, Accepted;
    NoneViolated(p, a);
    assert !Violates(p, a, ProviderRequired);
    assert !Violates(p, a, SettingMissing(Issuer)) && !Violates(p, a, SettingMissing(ClientId));
    assert !Violates(p, a, SettingMissing(ClientSecret)) && !Violates(p, a, SettingMissing(RedirectUri));
    assert !Violates(p, a, UnreadableIssuer) && !Violates(p, a, UnreadableRedirect);
    assert !Violates(p, a, InvalidIssuer) && !Violates(p, a, InvalidRedirect);
  }

  lemma RefusedSays(p: Platform, a: Access)
    requires !Accepted(p, a)
    ensures !(&& a.profile in PROFILES && a.policy in POLICIES && Readable(a)
              && "openid" in a.scopes.value && Distinct(a.scopes.value) && Distinct(a.subjects.value)
              && (a.profile in {"oidc_required", "mixed"} ==> a.Configured())
              && (a.Configured() ==>
                    && a.issuer != "" && a.clientId != "" && a.clientSecret != "" && a.redirectUri != ""
                    && p.issuer(a.issuer).Fine? && p.redirect(a.redirectUri).Fine?)
              && (a.subjects.value != [] <==> a.policy == "allowlist")
              && (a.policy != "disabled" ==> a.Configured() && a.profile != "token_required")
              && 1 <= a.idle.value <= 1440 && 1 <= a.absolute.value <= 8760 && 5 <= a.reauth.value <= 60
              && a.idle.value * 60 <= a.absolute.value * 3600)
  {
    hide Distinct, PROFILES, POLICIES;
    var rule :| Violates(p, a, rule);
  }
}
