/** Writing nested sections: an assignment fills what it leaves out from the
    defaults, an override fills it from the current values. */
module SectionWrites {
  import opened Values
  import opened ConfigKeys
  import opened Coercion
  import opened Normalize
  import opened Schema
  import opened AppConfigs
  import opened Merge

  /** `o` says nothing at the position, nor anything that rules it out. */
  predicate Omits(o: Value, ks: seq<string>)
    decreases |ks|
  {
    ks != [] && o.Dict? && (ks[0] !in o.m || Omits(o.m[ks[0]], ks[1..]))
  }

  /** Merging fills what the overlay omits, and takes its leaves. */
  lemma {:induction false} MergeFills(t: Value, o: Value, ks: seq<string>)
    ensures Omits(o, ks) ==> At(Over(t, o), ks) == At(t, ks)
    ensures LeafAt(o, ks) ==> At(Over(t, o), ks) == At(o, ks)
    decreases |ks|
  {
    if Omits(o, ks) { OmittedIsAbsent(o, ks); }
    if t.Dict? && o.Dict? && ks != [] {
      OverAt(t, o);
      if ks[0] in t.m && ks[0] in o.m { MergeFills(t.m[ks[0]], o.m[ks[0]], ks[1..]); }
    }
  }

  lemma {:induction false} OmittedIsAbsent(o: Value, ks: seq<string>)
    requires Omits(o, ks)
    ensures At(o, ks) == None
    decreases |ks|
  {
    if ks[0] in o.m { OmittedIsAbsent(o.m[ks[0]], ks[1..]); }
  }

  /** What an accepted attempt hands to a section's own model. */
  lemma AttemptSection(p: Platform, defaults: Config, data: Config, mbSource: string, name: string)
    requires GoodSchema(defaults) && Attempt(p, defaults, data, mbSource).Some?
    requires Section(name) in defaults && Section(name) in data
    ensures var m := Attempt(p, defaults, data, mbSource).value;
            Section(name) in m && p.section(name, Over(defaults[Section(name)], data[Section(name)])) == Some(m[Section(name)])
  {
    hide Accepted, AccessOf, Normalized, NormAt, Complete, Over, BuiltIn, Special;
    var c := Candidate(defaults, data);
    var k := Section(name);
    NormalizedSection(p, c, mbSource, k);
    ValidatedAt(p, defaults, Normalized(p, c, mbSource), k);
  }

  lemma NormalizedSection(p: Platform, c: Config, mbSource: string, k: Key)
    requires k.Section? && k in c
    ensures k in Normalized(p, c, mbSource) && Normalized(p, c, mbSource)[k] == c[k]
  {
    assert NormAt(p, c, mbSource, k) == c[k];
  }

  /** `cfg[section] = partial`: the section is the partial value over the defaults. */
  lemma AssignedSection(p: Platform, defaults: Config, s: State, name: string, partial: Value)
    requires GoodSchema(defaults) && Section(name) in defaults
    requires Commits(p, defaults, s, Set(Section(name), partial)).Some?
    ensures var m := Commits(p, defaults, s, Set(Section(name), partial)).value;
            Section(name) in m && p.section(name, Over(defaults[Section(name)], partial)) == Some(m[Section(name)])
  {
    hide Attempt, GoodSchema;
    var op := Set(Section(name), partial);
    AttemptSection(p, defaults, s.model[Section(name) := partial], MbSource(NewSources(s, op)), name);
  }

  /** `with_overrides`: the section is the partial value over the current one, over the defaults. */
  lemma OverriddenSection(p: Platform, defaults: Config, s: State, overrides: Config, name: string)
    requires GoodSchema(defaults) && Section(name) in defaults && Section(name) in s.model && Section(name) in overrides
    requires Commits(p, defaults, s, Override(overrides)).Some?
    ensures var m := Commits(p, defaults, s, Override(overrides)).value;
            var merged := Over(defaults[Section(name)], Over(s.model[Section(name)], overrides[Section(name)]));
            Section(name) in m && p.section(name, merged) == Some(m[Section(name)])
  {
    hide Attempt, GoodSchema;
    AttemptSection(p, defaults, Laid(s.model, overrides), MbSource(NewSources(s, Override(overrides))), name);
  }

  /** The two agree when the partial value is complete, or the section is at its defaults. */
  lemma WritesAgree(default: Value, current: Value, partial: Value)
    requires Covers(partial, current) || current == default
    ensures Over(default, partial) == Over(default, Over(current, partial))
  {
    if Covers(partial, current) { OverIsOverlay(current, partial); } else { OverRebase(default, partial); }
  }

  /** And they differ wherever the partial value omits a leaf that is not at its default. */
  lemma WritesDiffer(default: Value, current: Value, partial: Value, ks: seq<string>)
    requires Omits(partial, ks) && LeafAt(current, ks) && At(default, ks) != At(current, ks)
    ensures At(Over(default, partial), ks) == At(default, ks)
    ensures At(Over(default, Over(current, partial)), ks) == At(current, ks)
    ensures Over(default, partial) != Over(default, Over(current, partial))
  {
    MergeFills(default, partial, ks);
    MergeFills(current, partial, ks);
    MergeFills(default, Over(current, partial), ks);
  }
}
