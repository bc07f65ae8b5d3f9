/** What every normalized configuration satisfies, and that normalizing it again
    changes nothing, up to two exactly described exceptions. */
module FixedPoints {
  import opened Values
  import opened Text
  import opened ConfigKeys
  import opened Coercion
  import opened Normalize
  import Layers

  // ------------------------------------------------------------- fixed points

  lemma ProfileFixed(p: Platform, v: Value)
    requires ProfileText(p, v) != ""
    ensures ProfileText(p, Str(ProfileText(p, v))) == ProfileText(p, v)
  {
    FoldIdempotent(TextOr(p.render, v, "open"));
  }

  lemma PolicyFixed(p: Platform, v: Value)
    requires PolicyText(p, v) != ""
    ensures PolicyText(p, Str(PolicyText(p, v))) == PolicyText(p, v)
  {
    FoldIdempotent(TextOr(p.render, v, "disabled"));
  }

  lemma SettingFixed(p: Platform, v: Value)
    ensures SettingText(p, Str(SettingText(p, v))) == SettingText(p, v)
  {
    StripIdempotent(TextOr(p.render, v, ""));
  }

  lemma ItemsFixed(p: Platform, l: OidcList, v: Value)
    requires ItemsOf(p, l, v).Some?
    ensures ItemsOf(p, l, StrList(ItemsOf(p, l, v).value)) == ItemsOf(p, l, v)
  {
    var given := SplitOrList(v, Separator(l)).value;
    CleanIsClean(given);
    CleanFixed(Clean(given));
    SplitOrListFixed(Clean(given), Separator(l));
  }

  /** The access settings of a normalized mapping are those it was made from. */
  lemma AccessFixed(p: Platform, d: Config, mbSource: string)
    requires Complete(d) && Accepted(p, AccessOf(p, d))
    ensures AccessOf(p, Normalized(p, d, mbSource)) == AccessOf(p, d)
  {
    var n := Normalized(p, d, mbSource);
    ReadsAccepted(p, d);
    TextReads(p, d, mbSource);
    forall s ensures SettingText(p, Get(n, Oidc(s))) == SettingText(p, Get(d, Oidc(s))) { SettingReads(p, d, mbSource, s); }
    forall l ensures ItemsOf(p, l, Get(n, OidcItems(l))) == ItemsOf(p, l, Get(d, OidcItems(l))) { ItemsReads(p, d, mbSource, l); }
    forall t ensures ParseInt(p, Get(n, Duration(t))) == ParseInt(p, Get(d, Duration(t))) { DurationReads(p, d, mbSource, t); }
    SameReads(p, d, n);
  }

  lemma SameReads(p: Platform, d: Config, n: Config)
    requires ProfileText(p, Get(n, AccessProfile)) == ProfileText(p, Get(d, AccessProfile))
    requires PolicyText(p, Get(n, OidcProvisioning)) == PolicyText(p, Get(d, OidcProvisioning))
    requires forall s :: SettingText(p, Get(n, Oidc(s))) == SettingText(p, Get(d, Oidc(s)))
    requires forall l :: ItemsOf(p, l, Get(n, OidcItems(l))) == ItemsOf(p, l, Get(d, OidcItems(l)))
    requires forall t :: ParseInt(p, Get(n, Duration(t))) == ParseInt(p, Get(d, Duration(t)))
    ensures AccessOf(p, n) == AccessOf(p, d)
  {
  }

  /** What acceptance says about the values read. */
  lemma ReadsAccepted(p: Platform, d: Config)
    requires Accepted(p, AccessOf(p, d))
    ensures ProfileText(p, Get(d, AccessProfile)) != "" && PolicyText(p, Get(d, OidcProvisioning)) != ""
    ensures forall l :: ItemsOf(p, l, Get(d, OidcItems(l))).Some?
    ensures forall t :: ParseInt(p, Get(d, Duration(t))).Some?
  {
    var a := AccessOf(p, d);
    AcceptedReads(p, a);
    assert !Violates(p, a, UnsupportedProfile) && !Violates(p, a, UnsupportedProvisioning);
    forall l ensures ItemsOf(p, l, Get(d, OidcItems(l))).Some? { match l { case Scopes => case AllowedSubjects => } }
    forall t ensures ParseInt(p, Get(d, Duration(t))).Some? { match t { case IdleMinutes => case AbsoluteHours => case ReauthMinutes => } }
  }

  lemma TextReads(p: Platform, d: Config, mbSource: string)
    requires Complete(d)
    requires ProfileText(p, Get(d, AccessProfile)) != "" && PolicyText(p, Get(d, OidcProvisioning)) != ""
    ensures var n := Normalized(p, d, mbSource);
            && ProfileText(p, Get(n, AccessProfile)) == ProfileText(p, Get(d, AccessProfile))
            && PolicyText(p, Get(n, OidcProvisioning)) == PolicyText(p, Get(d, OidcProvisioning))
  {
    ProfileFixed(p, Get(d, AccessProfile));
    PolicyFixed(p, Get(d, OidcProvisioning));
  }

  lemma SettingReads(p: Platform, d: Config, mbSource: string, s: OidcSetting)
    requires Complete(d)
    ensures SettingText(p, Get(Normalized(p, d, mbSource), Oidc(s))) == SettingText(p, Get(d, Oidc(s)))
  {
    SettingFixed(p, Get(d, Oidc(s)));
  }

  lemma ItemsReads(p: Platform, d: Config, mbSource: string, l: OidcList)
    requires Complete(d) && ItemsOf(p, l, Get(d, OidcItems(l))).Some?
    ensures ItemsOf(p, l, Get(Normalized(p, d, mbSource), OidcItems(l))) == ItemsOf(p, l, Get(d, OidcItems(l)))
  {
    ItemsFixed(p, l, Get(d, OidcItems(l)));
  }

  lemma DurationReads(p: Platform, d: Config, mbSource: string, t: DurationKey)
    requires Complete(d) && ParseInt(p, Get(d, Duration(t))).Some?
    ensures ParseInt(p, Get(Normalized(p, d, mbSource), Duration(t))) == ParseInt(p, Get(d, Duration(t)))
  {
  }

  // -------------------------------------------------------------- settled mappings

  predicate NumberOk(m: Config, i: IntKey) {
    Count(i) in m && m[Count(i)].Int? && m[Count(i)].i >= IntRule(i).1
  }

  /** Both limits are consistent, and derived keys follow from their sources. */
  predicate SizesOk(m: Config) {
    && FullOutputMb in m && FullOutputBytes in m && PreviewMb in m && PreviewBytes in m
    && m[FullOutputMb].Int? && m[FullOutputBytes].Int? && m[PreviewMb].Int? && m[PreviewBytes].Int?
    && m[FullOutputBytes].i >= 0 && m[FullOutputMb].i == CeilMib(m[FullOutputBytes].i)
    && m[PreviewMb].i >= 0 && m[PreviewBytes].i == Mib(m[PreviewMb].i)
  }

  /** The pool bounds are ordered and the export limit is capped. */
  predicate BoundsOk(m: Config) {
    && NumberOk(m, PoolMin) && NumberOk(m, PoolMax) && NumberOk(m, AuditExportMaxRows)
    && m[Count(PoolMax)].i >= m[Count(PoolMin)].i
    && m[Count(AuditExportMaxRows)].i <= AUDIT_EXPORT_MAX_ROWS
  }

  predicate SuffixesOk(m: Config) {
    && DomainSuffixes in m && m[DomainSuffixes].List? && AllStr(m[DomainSuffixes].items)
    && Distinct(Texts(m[DomainSuffixes].items))
    && forall i :: 0 <= i < |m[DomainSuffixes].items| ==> ValidSuffix(m[DomainSuffixes].items[i].s)
  }

  /** Keys whose normal value depends on nothing else. */
  predicate Alone(k: Key) {
    Special(k) && !SizeKey(k) && !k.Count? && !k.DomainSuffixes?
  }

  ghost predicate Settled(p: Platform, m: Config) {
    && Complete(m)
    && Accepted(p, AccessOf(p, m))
    && (forall k {:trigger NormValue(p, k, m[k])} | Alone(k) && k in m :: NormValue(p, k, m[k]) == m[k])
    && (forall i :: NumberOk(m, i))
    && BoundsOk(m) && SizesOk(m) && SuffixesOk(m)
  }

  lemma AloneFixed(p: Platform, k: Key, v: Value)
    requires Alone(k)
    requires k.AccessProfile? ==> ProfileText(p, v) != ""
    requires k.OidcProvisioning? ==> PolicyText(p, v) != ""
    requires k.OidcItems? ==> ItemsOf(p, k.list, v).Some?
    requires k.Duration? ==> ParseInt(p, v).Some?
    ensures NormValue(p, k, NormValue(p, k, v)) == NormValue(p, k, v)
  {
    match k
    case AccessProfile => ProfileFixed(p, v);
    case Oidc(_) => SettingFixed(p, v);
    case OidcProvisioning => PolicyFixed(p, v);
    case OidcItems(l) => ItemsFixed(p, l, v);
    case Cidrs(_) => CidrsFixed(p, v);
    case AppName => AppNameFixed(p, v);
    case RedactionRules => if v.List? { RulesFixed(p, v.items); }
    case _ =>
  }

  lemma CeilOfMib(n: int)
    requires n >= 0
    ensures CeilMib(Mib(n)) == n
  {
  }

  /** Whole MiB above a byte count lie less than one MiB above it. */
  lemma CeilBounds(bytes: int)
    requires bytes >= 0
    ensures CeilMib(bytes) >= 0 && bytes <= Mib(CeilMib(bytes)) < bytes + 1048576
  {
  }

  lemma MbNonNegative(p: Platform, v: Value)
    ensures CoerceMb(p, v).Some? ==> CoerceMb(p, v).value >= 0
    ensures MbOr(p, v, 1) >= 0
  {
  }

  lemma SizesSettled(p: Platform, d: Config, mbSource: string)
    requires FullOutputMb in d && PreviewMb in d
    ensures SizesOk(Normalized(p, d, mbSource))
  {
    hide CoerceMb, PlainInt;
    var l, n := LimitsOf(p, d), Normalized(p, d, mbSource);
    MbNonNegative(p, Get(d, FullOutputMb));
    MbNonNegative(p, Get(d, PreviewMb));
    assert FullOutputMb in n && PreviewMb in n;
    if !BytesRule(l, mbSource) { CeilOfMib(FullOutput(l, mbSource).0); }
  }

  lemma NormalizedComplete(p: Platform, d: Config, mbSource: string)
    requires Complete(d)
    ensures Complete(Normalized(p, d, mbSource))
  {
    var n := Normalized(p, d, mbSource);
    assert n.Keys == d.Keys + {FullOutputBytes, PreviewBytes};
  }

  lemma NumberSettled(p: Platform, d: Config, mbSource: string, i: IntKey)
    requires Count(i) in d
    ensures NumberOk(Normalized(p, d, mbSource), i)
    ensures Normalized(p, d, mbSource)[Count(i)] == Int(FinalCount(p, d, i))
  {
  }

  lemma BoundsSettled(p: Platform, d: Config, mbSource: string)
    requires Complete(d)
    ensures BoundsOk(Normalized(p, d, mbSource))
  {
    NumberSettled(p, d, mbSource, PoolMin);
    NumberSettled(p, d, mbSource, PoolMax);
    NumberSettled(p, d, mbSource, AuditExportMaxRows);
  }

  lemma SuffixesSettled(p: Platform, d: Config, mbSource: string)
    requires DomainSuffixes in d
    ensures SuffixesOk(Normalized(p, d, mbSource))
  {
    var kept := Suffixes(p, RawItems(p, Get(d, DomainSuffixes)));
    assert Normalized(p, d, mbSource)[DomainSuffixes] == StrList(kept);
    SuffixesValid(p, RawItems(p, Get(d, DomainSuffixes)));
    TextsOfStrList(kept);
  }

  lemma AloneSettled(p: Platform, d: Config, mbSource: string, k: Key)
    requires Accepted(p, AccessOf(p, d)) && Alone(k) && k in d
    ensures var n := Normalized(p, d, mbSource); k in n && NormValue(p, k, n[k]) == n[k]
  {
    ReadsAccepted(p, d);
    NormAtPlain(p, d, mbSource, k);
    AloneFixed(p, k, Get(d, k));
  }

  /** Whatever normalization returns is settled. */
  lemma NormalizedSettled(p: Platform, d: Config, mbSource: string)
    requires Complete(d) && Accepted(p, AccessOf(p, d))
    ensures Settled(p, Normalized(p, d, mbSource))
  {
    hide AccessOf, Accepted, NormAt, NormValue, BoundsOk, SizesOk, SuffixesOk, NumberOk;
    var n := Normalized(p, d, mbSource);
    NormalizedComplete(p, d, mbSource);
    AccessFixed(p, d, mbSource);
    forall k | Alone(k) && k in n ensures NormValue(p, k, n[k]) == n[k] { AloneSettled(p, d, mbSource, k); }
    forall i ensures NumberOk(n, i) { NumberSettled(p, d, mbSource, i); }
    BoundsSettled(p, d, mbSource);
    SizesSettled(p, d, mbSource);
    SuffixesSettled(p, d, mbSource);
  }

  // ------------------------------------------------------ normalizing once more

  lemma AloneAgain(p: Platform, m: Config, c: Config, mbSource: string, k: Key)
    requires Alone(k) && k in m && NormValue(p, k, m[k]) == m[k] && k in c && c[k] == m[k]
    ensures k in Normalized(p, c, mbSource) && Normalized(p, c, mbSource)[k] == m[k]
  {
    NormAtPlain(p, c, mbSource, k);
  }

  /** A stored integer reads as itself. */
  lemma CountReads(p: Platform, m: Config, c: Config, i: IntKey)
    requires NumberOk(m, i) && Count(i) in c && c[Count(i)] == m[Count(i)]
    ensures CountOf(p, c, i) == m[Count(i)].i
  {
  }

  /** A stored integer comes back, unless it is the upper pool bound and the lower one was changed. */
  lemma CountAgain(p: Platform, m: Config, c: Config, mbSource: string, i: IntKey)
    requires NumberOk(m, i) && BoundsOk(m) && Count(i) in c && c[Count(i)] == m[Count(i)]
    requires i == PoolMax ==> Count(PoolMin) in c && c[Count(PoolMin)] == m[Count(PoolMin)]
    ensures Count(i) in Normalized(p, c, mbSource)
    ensures Normalized(p, c, mbSource)[Count(i)] == m[Count(i)]
  {
    NumberSettled(p, c, mbSource, i);
    CountReads(p, m, c, i);
    if i == PoolMax { CountReads(p, m, c, PoolMin); }
    CountBack(p, m, c, i);
  }

  lemma CountBack(p: Platform, m: Config, c: Config, i: IntKey)
    requires NumberOk(m, i) && BoundsOk(m) && CountOf(p, c, i) == m[Count(i)].i
    requires i == PoolMax ==> CountOf(p, c, PoolMin) == m[Count(PoolMin)].i
    ensures FinalCount(p, c, i) == m[Count(i)].i
  {
  }

  lemma NormalizedSizes(p: Platform, d: Config, mbSource: string)
    requires FullOutputMb in d && PreviewMb in d
    ensures var n, l := Normalized(p, d, mbSource), LimitsOf(p, d);
            && PreviewMb in n && n[PreviewMb] == Int(l.preview)
            && PreviewBytes in n && n[PreviewBytes] == Int(Mib(l.preview))
            && FullOutputMb in n && n[FullOutputMb] == Int(FullOutput(l, mbSource).0)
            && FullOutputBytes in n && n[FullOutputBytes] == Int(FullOutput(l, mbSource).1)
  {
    SizeAt(p, d, mbSource, PreviewMb);
    SizeAt(p, d, mbSource, PreviewBytes);
    SizeAt(p, d, mbSource, FullOutputMb);
    SizeAt(p, d, mbSource, FullOutputBytes);
    SizeEntriesAre(LimitsOf(p, d), mbSource);
  }

  lemma SizeEntriesAre(l: Limits, mbSource: string)
    ensures var e := SizeEntries(l, mbSource);
            && e[PreviewMb] == Int(l.preview) && e[PreviewBytes] == Int(Mib(l.preview))
            && e[FullOutputMb] == Int(FullOutput(l, mbSource).0) && e[FullOutputBytes] == Int(FullOutput(l, mbSource).1)
  {
  }

  /** Stored limits read as themselves. */
  lemma PreviewReads(p: Platform, m: Config, c: Config)
    requires SizesOk(m) && PreviewMb in c && c[PreviewMb] == m[PreviewMb]
    ensures LimitsOf(p, c).preview == m[PreviewMb].i
  {
  }

  lemma FullOutputReads(p: Platform, m: Config, c: Config)
    requires SizesOk(m) && FullOutputMb in c && c[FullOutputMb] == m[FullOutputMb]
    requires FullOutputBytes in c && c[FullOutputBytes] == m[FullOutputBytes]
    ensures LimitsOf(p, c).mb == Some(m[FullOutputMb].i) && LimitsOf(p, c).bytes == Some(m[FullOutputBytes].i)
  {
    CeilBounds(m[FullOutputBytes].i);
  }

  /** The preview limit comes back unless its MB value was changed. */
  lemma PreviewAgain(p: Platform, m: Config, c: Config, mbSource: string)
    requires SizesOk(m) && FullOutputMb in c && PreviewMb in c && c[PreviewMb] == m[PreviewMb]
    ensures var n := Normalized(p, c, mbSource);
            && PreviewMb in n && PreviewBytes in n && n[PreviewMb] == m[PreviewMb] && n[PreviewBytes] == m[PreviewBytes]
  {
    PreviewReads(p, m, c);
    NormalizedSizes(p, c, mbSource);
  }

  /** With neither full-output key changed: while the MB limit is a default,
      both stay; once it is an override, MB stays and bytes are whole MiB, up by
      less than one. */
  lemma FullOutputAgain(p: Platform, m: Config, c: Config, mbSource: string)
    requires SizesOk(m) && PreviewMb in c && FullOutputMb in c && c[FullOutputMb] == m[FullOutputMb]
    requires FullOutputBytes in c && c[FullOutputBytes] == m[FullOutputBytes]
    ensures var n := Normalized(p, c, mbSource);
            && FullOutputMb in n && FullOutputBytes in n && n[FullOutputMb] == m[FullOutputMb]
            && n[FullOutputBytes] == (if mbSource == Layers.DEFAULT_SOURCE then m[FullOutputBytes] else Int(Mib(m[FullOutputMb].i)))
            && m[FullOutputBytes].i <= Mib(m[FullOutputMb].i) < m[FullOutputBytes].i + 1048576
  {
    FullOutputReads(p, m, c);
    NormalizedSizes(p, c, mbSource);
    CeilBounds(m[FullOutputBytes].i);
  }

  /** The suffix list comes back exactly when no suffix ends in a line feed. */
  lemma SuffixesAgain(p: Platform, m: Config, c: Config, mbSource: string)
    requires Sound(p) && SuffixesOk(m) && DomainSuffixes in c && c[DomainSuffixes] == m[DomainSuffixes]
    ensures DomainSuffixes in Normalized(p, c, mbSource)
    ensures Normalized(p, c, mbSource)[DomainSuffixes] == m[DomainSuffixes] <==> !HasLineFeed(m)
  {
    hide RawItems, Suffixes, ValidSuffix, EndsInLineFeed;
    var kept := Texts(m[DomainSuffixes].items);
    assert StrList(kept) == m[DomainSuffixes];
    ValidFixedIff(p, kept);
    var n := Suffixes(p, RawItems(p, c[DomainSuffixes]));
    NormAtPlain(p, c, mbSource, DomainSuffixes);
    TextsOfStrList(n);
    TextsOfStrList(kept);
    assert forall i :: 0 <= i < |kept| ==> kept[i] == m[DomainSuffixes].items[i].s;
  }

  /** Some stored domain suffix ends in a line feed. */
  predicate HasLineFeed(m: Config)
    requires SuffixesOk(m)
  {
    exists i :: 0 <= i < |m[DomainSuffixes].items| && EndsInLineFeed(m[DomainSuffixes].items[i].s)
  }
}
