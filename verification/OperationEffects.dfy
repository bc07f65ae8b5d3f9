/** What deleting a key and overriding some do to every key, and the sources that each
    operation records. */
module OperationEffects {
  import opened Values
  import opened Paths
  import opened ConfigKeys
  import opened Coercion
  import opened Normalize
  import opened FixedPoints
  import opened Schema
  import opened AppConfigs
  import opened ConfigRuns
  import Layers
  import Merge

  /** What an attempt commits at every treated key, in terms of the candidate. */
  lemma AttemptStores(p: Platform, defaults: Config, data: Config, src: string, next: Config, j: Key)
    requires GoodSchema(defaults) && Attempt(p, defaults, data, src) == Some(next) && j in next
    ensures j in Normalized(p, Candidate(defaults, data), src)
    ensures Special(j) ==> next[j] == NormAt(p, Candidate(defaults, data), src, j)
    ensures CheckField(p, defaults, j, Normalized(p, Candidate(defaults, data), src)[j]) == Some(next[j])
    ensures next.Keys == SchemaKeys(defaults)
  {
    hide Accepted, AccessOf, NoneEscapes, NormAt, CheckField, GoodSchema, Candidate, Complete;
    var c := Candidate(defaults, data);
    CandidateWhole(defaults, data);
    FinishGood(p, defaults, c, src);
    ValidatedAll(p, defaults, Normalized(p, c, src));
    ValidatedAt(p, defaults, Normalized(p, c, src), j);
  }

  lemma CandidateWhole(defaults: Config, data: Config)
    requires GoodSchema(defaults)
    ensures Complete(Candidate(defaults, data))
  {
    CandidateComplete(defaults, data);
  }

  // ---------------------------------------------------------------------- deleting

  /** The mapping with a key put back to its default, or without it where it has none. */
  function Reset(defaults: Config, m: Config, k: Key): Config {
    if k in defaults then m[k := defaults[k]] else m - {k}
  }

  lemma DeletedReads(defaults: Config, m: Config, k: Key, j: Key)
    requires GoodSchema(defaults) && m.Keys == SchemaKeys(defaults) && Special(j)
    ensures Get(Candidate(defaults, m - {k}), j) == Get(Reset(defaults, m, k), j)
  {
    hide BuiltIn, Complete;
    var data := m - {k};
    if j in data { CandidateFlat(defaults, data, j); }
  }

  /** After a deletion every treated key has its normal form in the mapping with the key reset. */
  lemma DeleteStores(p: Platform, defaults: Config, s: State, k: Key, next: Config, j: Key)
    requires GoodSchema(defaults) && GoodModel(p, defaults, s.model) && Special(j) && j in s.model
    requires Commits(p, defaults, s, Delete(k)) == Some(next)
    ensures j in next && next[j] == NormAt(p, Reset(defaults, s.model, k), MbSource(s.sources), j)
  {
    hide GoodSchema, NormAt, Candidate, Attempt, Reset, MbSource, Settled;
    var data, src := s.model - {k}, MbSource(s.sources);
    AttemptGood(p, defaults, data, src);
    AttemptStores(p, defaults, data, src, next, j);
    forall i | Special(i) ensures Get(Candidate(defaults, data), i) == Get(Reset(defaults, s.model, k), i) {
      DeletedReads(defaults, s.model, k, i);
    }
    SameNormAt(p, Candidate(defaults, data), Reset(defaults, s.model, k), src, j);
  }

  lemma ClearStores(p: Platform, defaults: Config, s: State, cleared: Config, j: Key)
    requires GoodSchema(defaults) && Commits(p, defaults, s, Clear) == Some(cleared) && j in cleared
    ensures Special(j) ==> cleared[j] == NormAt(p, defaults, MbSource(s.sources), j)
    ensures CheckField(p, defaults, j, Normalized(p, defaults, MbSource(s.sources))[j]) == Some(cleared[j])
    ensures cleared.Keys == SchemaKeys(defaults)
  {
    hide GoodSchema, NormAt, Attempt, MbSource, CheckField, Normalized;
    AttemptStores(p, defaults, map[], MbSource(s.sources), cleared, j);
    NothingLaid(defaults);
  }

  lemma NothingLaid(defaults: Config)
    ensures Candidate(defaults, map[]) == defaults
  {
  }

  /** The keys whose value is computed from other keys as well. */
  predicate Computed(k: Key) {
    k == Count(PoolMax) || k == FullOutputMb || k == FullOutputBytes || k == PreviewBytes
  }

  lemma ResetAlone(p: Platform, defaults: Config, m: Config, k: Key, src: string)
    requires Special(k) && !Computed(k) && k in defaults
    ensures NormAt(p, Reset(defaults, m, k), src, k) == NormAt(p, defaults, src, k)
  {
    hide NormValue, CountValue, MbOr;
  }

  lemma UntreatedDefault(p: Platform, defaults: Config, data: Config, src: string, k: Key)
    requires !Special(k) && k in defaults && k !in data
    ensures k in Normalized(p, Candidate(defaults, data), src) && Normalized(p, Candidate(defaults, data), src)[k] == defaults[k]
    ensures k in Normalized(p, defaults, src) && Normalized(p, defaults, src)[k] == defaults[k]
  {
    var c := Candidate(defaults, data);
    assert NormAt(p, c, src, k) == c[k] && NormAt(p, defaults, src, k) == defaults[k];
  }

  lemma KeyHasDefault(defaults: Config, k: Key)
    requires k in SchemaKeys(defaults) && !Computed(k)
    ensures k in defaults
  {
  }

  /** Deleting a key brings its default back: the value that clearing would give it. Sections too. */
  lemma DeleteRestores(p: Platform, defaults: Config, s: State, k: Key, next: Config, cleared: Config)
    requires GoodSchema(defaults) && GoodModel(p, defaults, s.model) && k in s.model && !Computed(k)
    requires Commits(p, defaults, s, Delete(k)) == Some(next) && Commits(p, defaults, s, Clear) == Some(cleared)
    ensures k in next && k in cleared && next[k] == cleared[k]
    ensures k in defaults && (k.Section? ==> p.section(k.section, defaults[k]) == Some(next[k]))
  {
    hide GoodSchema, NormAt, Candidate, Attempt, Reset, MbSource, Settled, Normalized, Computed;
    var src := MbSource(s.sources);
    AttemptGood(p, defaults, s.model - {k}, src);
    AttemptGood(p, defaults, map[], src);
    KeyHasDefault(defaults, k);
    ClearStores(p, defaults, s, cleared, k);
    AttemptStores(p, defaults, s.model - {k}, src, next, k);
    if Special(k) {
      DeleteStores(p, defaults, s, k, next, k);
      ResetAlone(p, defaults, s.model, k, src);
    } else {
      UntreatedDefault(p, defaults, s.model - {k}, src, k);
    }
  }

  /** And leaves every other flat key alone, with the exceptions of a write. */
  lemma DeleteFrame(p: Platform, defaults: Config, s: State, k: Key, next: Config, j: Key)
    requires GoodSchema(defaults) && GoodModel(p, defaults, s.model)
    requires Commits(p, defaults, s, Delete(k)) == Some(next)
    requires j in s.model && j != k && !j.Section? && !Coupled(k, j)
    requires j != FullOutputBytes && j != DomainSuffixes
    ensures j in next && next[j] == s.model[j]
  {
    hide GoodSchema, GoodModel, Attempt, MbSource, Coupled;
    FrameAt(p, defaults, s.model, s.model - {k}, k, MbSource(s.sources), j);
  }

  /** Deleting a pool bound: the upper one is its default or the lower one, whichever is larger. */
  lemma DeletePool(p: Platform, defaults: Config, s: State, k: Key, next: Config)
    requires GoodSchema(defaults) && GoodModel(p, defaults, s.model) && (k == Count(PoolMax) || k == Count(PoolMin))
    requires Commits(p, defaults, s, Delete(k)) == Some(next)
    ensures BoundsOk(s.model) && Count(PoolMax) in next
    ensures k == Count(PoolMax) ==> next[Count(PoolMax)] == Int(Max(5, s.model[Count(PoolMin)].i))
    ensures k == Count(PoolMin) ==> next[Count(PoolMax)] == s.model[Count(PoolMax)]
  {
    hide GoodSchema, Commits, MbSource, GoodModel;
    GoodBounds(p, defaults, s.model);
    PoolDefaults(defaults);
    DeleteStores(p, defaults, s, k, next, Count(PoolMax));
  }

  lemma GoodBounds(p: Platform, defaults: Config, m: Config)
    requires GoodModel(p, defaults, m)
    ensures BoundsOk(m)
  {
  }

  lemma PoolDefaults(defaults: Config)
    requires GoodSchema(defaults)
    ensures Count(PoolMin) in defaults && defaults[Count(PoolMin)] == Int(1)
    ensures Count(PoolMax) in defaults && defaults[Count(PoolMax)] == Int(5)
  {
    assert BuiltIn(Count(PoolMin)) == Int(1) && BuiltIn(Count(PoolMax)) == Int(5);
  }

  lemma SizeDefaults(defaults: Config)
    requires GoodSchema(defaults)
    ensures FullOutputMb in defaults && defaults[FullOutputMb] == Int(5) && PreviewMb in defaults && defaults[PreviewMb] == Int(1)
    ensures FullOutputBytes !in defaults && PreviewBytes !in defaults
  {
    assert BuiltIn(FullOutputMb) == Int(5) && BuiltIn(PreviewMb) == Int(1);
    assert BuiltIn(FullOutputBytes) == Null && BuiltIn(PreviewBytes) == Null;
  }

  /** Deleting the MB limit brings 5 MB back once it is an override, and is lost before that;
      deleting the byte limit makes it whole MiB. */
  lemma DeleteFullOutput(p: Platform, defaults: Config, s: State, k: Key, next: Config)
    requires GoodSchema(defaults) && GoodModel(p, defaults, s.model) && FullOutputKey(k)
    requires Commits(p, defaults, s, Delete(k)) == Some(next)
    ensures SizesOk(s.model) && FullOutputMb in next && FullOutputBytes in next
    ensures k == FullOutputMb && MbSource(s.sources) != Layers.DEFAULT_SOURCE ==>
              next[FullOutputMb] == Int(5) && next[FullOutputBytes] == Int(5 * 1048576)
    ensures k == FullOutputMb && MbSource(s.sources) == Layers.DEFAULT_SOURCE ==>
              next[FullOutputMb] == s.model[FullOutputMb] && next[FullOutputBytes] == s.model[FullOutputBytes]
    ensures k == FullOutputBytes ==>
              next[FullOutputMb] == s.model[FullOutputMb] && next[FullOutputBytes] == Int(s.model[FullOutputMb].i * 1048576)
  {
    hide GoodSchema, Commits, MbSource, GoodModel, NormAt, Reset;
    GoodSizes(p, defaults, s.model);
    SizeDefaults(defaults);
    DeleteStores(p, defaults, s, k, next, FullOutputMb);
    DeleteStores(p, defaults, s, k, next, FullOutputBytes);
    ResetFullOutput(p, defaults, s.model, k, MbSource(s.sources));
  }

  lemma ResetFullOutput(p: Platform, defaults: Config, m: Config, k: Key, src: string)
    requires SizesOk(m) && FullOutputKey(k) && FullOutputMb in defaults && defaults[FullOutputMb] == Int(5) && FullOutputBytes !in defaults
    ensures var d := Reset(defaults, m, k);
            var mb, bytes := NormAt(p, d, src, FullOutputMb), NormAt(p, d, src, FullOutputBytes);
            && (k == FullOutputMb && src != Layers.DEFAULT_SOURCE ==> mb == Int(5) && bytes == Int(5 * 1048576))
            && (k == FullOutputMb && src == Layers.DEFAULT_SOURCE ==> mb == m[FullOutputMb] && bytes == m[FullOutputBytes])
            && (k == FullOutputBytes ==> mb == m[FullOutputMb] && bytes == Int(m[FullOutputMb].i * 1048576))
  {
    CeilBounds(m[FullOutputBytes].i);
  }

  /** Deleting a preview limit: one MB again, or the bytes that its MB make. */
  lemma DeletePreview(p: Platform, defaults: Config, s: State, k: Key, next: Config)
    requires GoodSchema(defaults) && GoodModel(p, defaults, s.model) && (k == PreviewMb || k == PreviewBytes)
    requires Commits(p, defaults, s, Delete(k)) == Some(next)
    ensures SizesOk(s.model) && PreviewMb in next && PreviewBytes in next
    ensures k == PreviewMb ==> next[PreviewMb] == Int(1) && next[PreviewBytes] == Int(1048576)
    ensures k == PreviewBytes ==> next[PreviewMb] == s.model[PreviewMb] && next[PreviewBytes] == s.model[PreviewBytes]
  {
    hide GoodSchema, Commits, MbSource, GoodModel, NormAt, Reset;
    GoodSizes(p, defaults, s.model);
    SizeDefaults(defaults);
    DeleteStores(p, defaults, s, k, next, PreviewMb);
    DeleteStores(p, defaults, s, k, next, PreviewBytes);
    ResetPreview(p, defaults, s.model, k, MbSource(s.sources));
  }

  lemma ResetPreview(p: Platform, defaults: Config, m: Config, k: Key, src: string)
    requires SizesOk(m) && (k == PreviewMb || k == PreviewBytes) && PreviewMb in defaults && defaults[PreviewMb] == Int(1) && PreviewBytes !in defaults
    ensures var d := Reset(defaults, m, k);
            var mb, bytes := NormAt(p, d, src, PreviewMb), NormAt(p, d, src, PreviewBytes);
            && (k == PreviewMb ==> mb == Int(1) && bytes == Int(1048576))
            && (k == PreviewBytes ==> mb == m[PreviewMb] && bytes == m[PreviewBytes])
  {
  }

  // -------------------------------------------------------------------- overriding

  /** A treated key never holds a mapping. */
  lemma TreatedIsFlat(p: Platform, defaults: Config, m: Config, j: Key)
    requires GoodSchema(defaults) && GoodModel(p, defaults, m) && Special(j) && j in m
    ensures !m[j].Dict?
  {
    hide Settled, Complete;
    assert CheckField(p, defaults, j, m[j]) == Some(m[j]);
    if j in defaults {
      assert defaults[j] == BuiltIn(j);
      BuiltInFlat(j);
      BuiltInKnown(j);
    }
  }

  lemma BuiltInKnown(j: Key)
    requires Special(j) && !Derived(j)
    ensures BuiltIn(j) != Null
  {
  }

  lemma OverriddenReads(p: Platform, defaults: Config, m: Config, o: Config, j: Key)
    requires GoodSchema(defaults) && GoodModel(p, defaults, m) && Special(j)
    ensures Get(Candidate(defaults, Laid(m, o)), j) == Get(m + o, j)
  {
    hide BuiltIn, Complete, Settled, CheckField;
    if j in m && j in o { TreatedIsFlat(p, defaults, m, j); }
    if j in Laid(m, o) { CandidateFlat(defaults, Laid(m, o), j); }
  }

  /** An accepted override leaves every treated key in its normal form in the mapping with
      the overrides put in. */
  lemma OverrideStores(p: Platform, defaults: Config, s: State, o: Config, next: Config, j: Key)
    requires GoodSchema(defaults) && GoodModel(p, defaults, s.model) && Special(j) && j in s.model
    requires Commits(p, defaults, s, Override(o)) == Some(next)
    ensures j in next && next[j] == NormAt(p, s.model + o, MbSource(NewSources(s, Override(o))), j)
  {
    hide GoodSchema, NormAt, Candidate, Attempt, MbSource, Settled, Laid, NewSources;
    var data, src := Laid(s.model, o), MbSource(NewSources(s, Override(o)));
    AttemptGood(p, defaults, data, src);
    AttemptStores(p, defaults, data, src, next, j);
    forall i | Special(i) ensures Get(Candidate(defaults, data), i) == Get(s.model + o, i) {
      OverriddenReads(p, defaults, s.model, o, i);
    }
    SameNormAt(p, Candidate(defaults, data), s.model + o, src, j);
  }

  /** A plain key is validated from the override, or kept where it is not overridden. */
  lemma OverridePlain(p: Platform, defaults: Config, s: State, o: Config, next: Config, name: string)
    requires GoodSchema(defaults) && GoodModel(p, defaults, s.model) && Plain(name) in s.model
    requires Commits(p, defaults, s, Override(o)) == Some(next)
    ensures Plain(name) in next
    ensures Plain(name) !in o ==> next[Plain(name)] == s.model[Plain(name)]
    ensures Plain(name) in o && !o[Plain(name)].Dict? ==> CheckField(p, defaults, Plain(name), o[Plain(name)]) == Some(next[Plain(name)])
  {
    hide GoodSchema, NormAt, Attempt, MbSource, Settled, NewSources, CheckField, Normalized;
    var k, data, src := Plain(name), Laid(s.model, o), MbSource(NewSources(s, Override(o)));
    AttemptGood(p, defaults, data, src);
    AttemptStores(p, defaults, data, src, next, k);
    if k !in o {
      PlainKept(p, defaults, s.model, data, src, k);
    } else if !o[k].Dict? {
      CandidateFlat(defaults, data, k);
      PlainUntouched(p, Candidate(defaults, data), src, k);
    }
  }

  lemma PlainUntouched(p: Platform, c: Config, src: string, k: Key)
    requires k.Plain? && k in c
    ensures k in Normalized(p, c, src) && Normalized(p, c, src)[k] == c[k]
  {
    assert NormAt(p, c, src, k) == c[k];
  }

  // ----------------------------------------------------------------------- sources

  /** The key itself, or a path inside the value. */
  predicate Stamps(k: Key, v: Value, j: Key) {
    j == k || (j.Plain? && j.name in Flatten(v, Name(k)))
  }

  lemma StampedIs(k: Key, v: Value, source: string, j: Key)
    ensures j in Stamped(map[k := v], source) <==> Stamps(k, v, j)
    ensures j in Stamped(map[k := v], source) ==> Stamped(map[k := v], source)[j] == source
  {
    hide Flatten, Name;
    var data: Config := map[k := v];
    if Stamps(k, v, j) { assert j in StampedKeys(k, data[k]) && k in data; }
  }

  /** An accepted write records itself as the source of the key and of every path inside
      the value, and of nothing else. Deleting and clearing record nothing. */
  lemma WriteRecords(p: Platform, defaults: Config, s: State, k: Key, v: Value, j: Key)
    requires Commits(p, defaults, s, Set(k, v)).Some?
    ensures var after := Step(p, defaults, s, Set(k, v)).sources;
            if Stamps(k, v, j) then j in after && after[j] == "runtime mutation"
            else (j in after <==> j in s.sources) && (j in after ==> after[j] == s.sources[j])
    ensures Step(p, defaults, s, Delete(k)).sources == s.sources && Step(p, defaults, s, Clear).sources == s.sources
  {
    hide Attempt, Stamped, Stamps, MbSource;
    StampedIs(k, v, RUNTIME_SOURCE, j);
  }

  /** An override records itself for every overridden key and every path inside its value. */
  lemma OverrideRecords(p: Platform, defaults: Config, s: State, o: Config, j: Key)
    requires Commits(p, defaults, s, Override(o)).Some?
    ensures var after := Step(p, defaults, s, Override(o)).sources;
            if exists k :: k in o && Stamps(k, o[k], j) then j in after && after[j] == "test overrides"
            else (j in after <==> j in s.sources) && (j in after ==> after[j] == s.sources[j])
  {
    hide Attempt, MbSource, Stamped, Stamps, Commits;
    StampedAll(o, OVERRIDE_SOURCE, j);
    OverrideSources(p, defaults, s, o);
  }

  lemma OverrideSources(p: Platform, defaults: Config, s: State, o: Config)
    requires Commits(p, defaults, s, Override(o)).Some?
    ensures Step(p, defaults, s, Override(o)).sources == s.sources + Stamped(o, OVERRIDE_SOURCE)
  {
    hide Attempt, MbSource, Stamped;
  }

  lemma StampedAll(o: Config, source: string, j: Key)
    ensures j in Stamped(o, source) <==> exists k :: k in o && Stamps(k, o[k], j)
    ensures j in Stamped(o, source) ==> Stamped(o, source)[j] == source
  {
    hide Flatten, Name;
    if k :| k in o && Stamps(k, o[k], j) { assert j in StampedKeys(k, o[k]); }
    if j in AllStamped(o) {
      var k, stamped :| k in o && stamped in StampedKeys(k, o[k]) && stamped == j;
      assert Stamps(k, o[k], j);
    }
  }
}
