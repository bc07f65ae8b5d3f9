/** What a write leaves alone, and what whole runs of writes do to the size limits. */
module ConfigRuns {
  import opened Values
  import opened ConfigKeys
  import opened Coercion
  import opened Normalize
  import opened FixedPoints
  import opened Schema
  import opened AppConfigs
  import opened Paths
  import Layers

  /** What a successful attempt commits, key by key. */
  lemma CommittedAt(p: Platform, defaults: Config, data: Config, mbSource: string, k: Key)
    requires GoodSchema(defaults) && Attempt(p, defaults, data, mbSource).Some? && k in data && !k.Section?
    ensures var c, m := Candidate(defaults, data), Attempt(p, defaults, data, mbSource).value;
            var n := Normalized(p, c, mbSource);
            && Complete(c) && k in c && c[k] == data[k] && k in n && m.Keys == n.Keys
            && (Special(k) ==> m[k] == n[k])
  {
    CandidateComplete(defaults, data);
    CandidateFlat(defaults, data, k);
    ValidatedAll(p, defaults, Normalized(p, Candidate(defaults, data), mbSource));
  }

  /** A key that only validation sees comes back as it was. */
  lemma PlainKept(p: Platform, defaults: Config, m: Config, data: Config, mbSource: string, k: Key)
    requires GoodSchema(defaults) && GoodModel(p, defaults, m) && Attempt(p, defaults, data, mbSource).Some?
    requires k.Plain? && k in m && k in data && data[k] == m[k]
    ensures var next := Attempt(p, defaults, data, mbSource).value; k in next && next[k] == m[k]
  {
    var c := Candidate(defaults, data);
    var n := Normalized(p, c, mbSource);
    CommittedAt(p, defaults, data, mbSource, k);
    NormAtPlain(p, c, mbSource, k);
    assert n[k] == m[k];
    ValidatedAt(p, defaults, n, k);
    assert CheckField(p, defaults, k, m[k]) == Some(m[k]);
  }

  lemma AloneKept(p: Platform, defaults: Config, m: Config, data: Config, mbSource: string, k: Key)
    requires GoodSchema(defaults) && Settled(p, m) && Attempt(p, defaults, data, mbSource).Some?
    requires Alone(k) && k in m && k in data && data[k] == m[k]
    ensures var next := Attempt(p, defaults, data, mbSource).value; k in next && next[k] == m[k]
  {
    CommittedAt(p, defaults, data, mbSource, k);
    assert NormValue(p, k, m[k]) == m[k];
    AloneAgain(p, m, Candidate(defaults, data), mbSource, k);
  }

  lemma CountKept(p: Platform, defaults: Config, m: Config, data: Config, mbSource: string, i: IntKey)
    requires GoodSchema(defaults) && Settled(p, m) && Attempt(p, defaults, data, mbSource).Some?
    requires Count(i) in data && data[Count(i)] == m[Count(i)]
    requires i == PoolMax ==> Count(PoolMin) in data && data[Count(PoolMin)] == m[Count(PoolMin)]
    ensures var next := Attempt(p, defaults, data, mbSource).value; Count(i) in next && next[Count(i)] == m[Count(i)]
  {
    CommittedAt(p, defaults, data, mbSource, Count(i));
    if i == PoolMax { CommittedAt(p, defaults, data, mbSource, Count(PoolMin)); }
    assert NumberOk(m, i) && BoundsOk(m);
    CountAgain(p, m, Candidate(defaults, data), mbSource, i);
  }

  lemma PreviewKept(p: Platform, defaults: Config, m: Config, data: Config, mbSource: string)
    requires GoodSchema(defaults) && Settled(p, m) && Attempt(p, defaults, data, mbSource).Some?
    requires PreviewMb in data && data[PreviewMb] == m[PreviewMb]
    ensures var next := Attempt(p, defaults, data, mbSource).value;
            SizesOk(m) && SizesOk(next) && next[PreviewMb] == m[PreviewMb] && next[PreviewBytes] == m[PreviewBytes]
  {
    CommittedAt(p, defaults, data, mbSource, PreviewMb);
    AttemptGood(p, defaults, data, mbSource);
    PreviewAgain(p, m, Candidate(defaults, data), mbSource);
  }

  /** With both full-output keys passed on unchanged: MB stays, and bytes stay
      or, once MB is an override, become whole MiB. */
  lemma FullOutputKept(p: Platform, defaults: Config, m: Config, data: Config, mbSource: string)
    requires GoodSchema(defaults) && Settled(p, m) && Attempt(p, defaults, data, mbSource).Some?
    requires FullOutputMb in data && data[FullOutputMb] == m[FullOutputMb]
    requires FullOutputBytes in data && data[FullOutputBytes] == m[FullOutputBytes]
    ensures var next := Attempt(p, defaults, data, mbSource).value;
            && SizesOk(m) && SizesOk(next) && next[FullOutputMb] == m[FullOutputMb]
            && next[FullOutputBytes].i == (if mbSource == Layers.DEFAULT_SOURCE then m[FullOutputBytes].i else Mib(m[FullOutputMb].i))
            && m[FullOutputBytes].i <= next[FullOutputBytes].i < m[FullOutputBytes].i + 1048576
  {
    CommittedAt(p, defaults, data, mbSource, FullOutputMb);
    CommittedAt(p, defaults, data, mbSource, FullOutputBytes);
    AttemptGood(p, defaults, data, mbSource);
    FullOutputAgain(p, m, Candidate(defaults, data), mbSource);
  }

  lemma SuffixesKept(p: Platform, defaults: Config, m: Config, data: Config, mbSource: string)
    requires Sound(p) && GoodSchema(defaults) && Settled(p, m) && Attempt(p, defaults, data, mbSource).Some?
    requires DomainSuffixes in data && data[DomainSuffixes] == m[DomainSuffixes]
    ensures var next := Attempt(p, defaults, data, mbSource).value;
            SuffixesOk(m) && DomainSuffixes in next && (next[DomainSuffixes] == m[DomainSuffixes] <==> !HasLineFeed(m))
  {
    CommittedAt(p, defaults, data, mbSource, DomainSuffixes);
    assert SuffixesOk(m);
    SuffixesAgain(p, m, Candidate(defaults, data), mbSource);
  }

  // ------------------------------------------------------------ the frame theorem

  predicate FullOutputKey(k: Key) {
    k == FullOutputMb || k == FullOutputBytes
  }

  /** The keys that are computed together. */
  predicate Coupled(k: Key, j: Key) {
    || (k == Count(PoolMin) && j == Count(PoolMax))
    || (k == PreviewMb && j == PreviewBytes)
    || (FullOutputKey(k) && FullOutputKey(j))
  }

  /** `data` is `m` with at most `k` different. */
  ghost predicate SameBut(m: Config, data: Config, k: Key) {
    forall j | j in m && j != k :: j in data && data[j] == m[j]
  }

  /** A successful write, seen as an attempt on the changed mapping. */
  lemma SetOutcome(p: Platform, defaults: Config, s: State, k: Key, v: Value, next: Config)
    returns (data: Config, src: string)
    requires Commits(p, defaults, s, Set(k, v)) == Some(next)
    ensures Attempt(p, defaults, data, src) == Some(next)
    ensures SameBut(s.model, data, k) && k in data && data[k] == v
    ensures k != FullOutputMb ==> src == MbSource(s.sources)
  {
    hide Attempt, MbSource, Stamped;
    data, src := s.model[k := v], MbSource(NewSources(s, Set(k, v)));
    if k != FullOutputMb { StampSkips(map[k := v], RUNTIME_SOURCE, s.sources); }
  }

  /** A successful `cfg[k] = v` leaves every other flat key alone, except the
      keys coupled with `k`, the rounding of the byte limit and the loss of a
      line feed from a domain suffix. */
  lemma WriteFrame(p: Platform, defaults: Config, s: State, k: Key, v: Value, next: Config, j: Key)
    requires GoodSchema(defaults) && GoodModel(p, defaults, s.model)
    requires Commits(p, defaults, s, Set(k, v)) == Some(next)
    requires j in s.model && j != k && !j.Section? && !Coupled(k, j)
    requires j != FullOutputBytes && j != DomainSuffixes
    ensures j in next && next[j] == s.model[j]
  {
    var data, src := SetOutcome(p, defaults, s, k, v, next);
    FrameAt(p, defaults, s.model, data, k, src, j);
  }

  lemma FrameAt(p: Platform, defaults: Config, m: Config, data: Config, k: Key, src: string, j: Key)
    requires GoodSchema(defaults) && GoodModel(p, defaults, m) && Attempt(p, defaults, data, src).Some? && SameBut(m, data, k)
    requires j in m && j != k && !j.Section? && !Coupled(k, j) && j != FullOutputBytes && j != DomainSuffixes
    ensures var next := Attempt(p, defaults, data, src).value; j in next && next[j] == m[j]
  {
    if Special(j) { FrameSpecial(p, defaults, m, data, k, src, j); }
    else { PlainKept(p, defaults, m, data, src, j); }
  }

  lemma FrameSpecial(p: Platform, defaults: Config, m: Config, data: Config, k: Key, src: string, j: Key)
    requires Special(j)
    requires GoodSchema(defaults) && GoodModel(p, defaults, m) && Attempt(p, defaults, data, src).Some? && SameBut(m, data, k)
    requires j in m && j != k && !j.Section? && !Coupled(k, j) && j != FullOutputBytes && j != DomainSuffixes
    ensures var next := Attempt(p, defaults, data, src).value; j in next && next[j] == m[j]
  {
    if Alone(j) { AloneKept(p, defaults, m, data, src, j); }
    else { FrameNumber(p, defaults, m, data, k, src, j); }
  }

  lemma FrameNumber(p: Platform, defaults: Config, m: Config, data: Config, k: Key, src: string, j: Key)
    requires Special(j) && !Alone(j)
    requires GoodSchema(defaults) && GoodModel(p, defaults, m) && Attempt(p, defaults, data, src).Some? && SameBut(m, data, k)
    requires j in m && j != k && !j.Section? && !Coupled(k, j) && j != FullOutputBytes && j != DomainSuffixes
    ensures var next := Attempt(p, defaults, data, src).value; j in next && next[j] == m[j]
  {
    if j.Count? { CountFrame(p, defaults, m, data, k, src, j.count); }
    else { SizeFrame(p, defaults, m, data, k, src, j); }
  }

  lemma CountFrame(p: Platform, defaults: Config, m: Config, data: Config, k: Key, src: string, i: IntKey)
    requires GoodSchema(defaults) && Settled(p, m) && Attempt(p, defaults, data, src).Some? && SameBut(m, data, k)
    requires Count(i) != k && !Coupled(k, Count(i))
    ensures var next := Attempt(p, defaults, data, src).value; Count(i) in next && next[Count(i)] == m[Count(i)]
  {
    assert Count(i) in m && Count(PoolMin) in m;
    CountKept(p, defaults, m, data, src, i);
  }

  lemma SizeFrame(p: Platform, defaults: Config, m: Config, data: Config, k: Key, src: string, j: Key)
    requires GoodSchema(defaults) && Settled(p, m) && Attempt(p, defaults, data, src).Some? && SameBut(m, data, k)
    requires j != k && !Coupled(k, j) && (j.PreviewMb? || j.PreviewBytes? || j.FullOutputMb?)
    ensures var next := Attempt(p, defaults, data, src).value; j in m && j in next && next[j] == m[j]
  {
    assert SizesOk(m);
    if j.FullOutputMb? { FullOutputKept(p, defaults, m, data, src); }
    else if k != PreviewMb { PreviewKept(p, defaults, m, data, src); }
  }

  /** Raising the lower pool bound raises the upper one with it, and no further. */
  lemma WritePoolMin(p: Platform, defaults: Config, s: State, v: Value, next: Config)
    requires GoodSchema(defaults) && GoodModel(p, defaults, s.model)
    requires Commits(p, defaults, s, Set(Count(PoolMin), v)) == Some(next)
    ensures BoundsOk(s.model) && BoundsOk(next)
    ensures next[Count(PoolMax)].i == Max(s.model[Count(PoolMax)].i, next[Count(PoolMin)].i)
  {
    var data, src := SetOutcome(p, defaults, s, Count(PoolMin), v, next);
    assert BoundsOk(s.model) && Count(PoolMax) in s.model;
    PoolFrom(p, defaults, s.model, data, src);
  }

  lemma PoolFrom(p: Platform, defaults: Config, m: Config, data: Config, src: string)
    requires GoodSchema(defaults) && Settled(p, m) && Attempt(p, defaults, data, src).Some?
    requires Count(PoolMin) in data && Count(PoolMax) in data && data[Count(PoolMax)] == m[Count(PoolMax)]
    ensures var next := Attempt(p, defaults, data, src).value;
            && BoundsOk(m) && BoundsOk(next)
            && next[Count(PoolMax)].i == Max(m[Count(PoolMax)].i, next[Count(PoolMin)].i)
  {
    hide AccessOf, NormValue, Accepted, Candidate, ParseInt;
    var c := Candidate(defaults, data);
    AttemptGood(p, defaults, data, src);
    CommittedAt(p, defaults, data, src, Count(PoolMin));
    CommittedAt(p, defaults, data, src, Count(PoolMax));
    NumberSettled(p, c, src, PoolMin);
    NumberSettled(p, c, src, PoolMax);
    assert BoundsOk(m);
    CountReads(p, m, c, PoolMax);
  }

  /** The byte limit after a write that names neither full-output key. */
  lemma WriteRoundsBytes(p: Platform, defaults: Config, s: State, k: Key, v: Value, next: Config)
    requires GoodSchema(defaults) && GoodModel(p, defaults, s.model) && !FullOutputKey(k)
    requires Commits(p, defaults, s, Set(k, v)) == Some(next)
    ensures SizesOk(s.model) && SizesOk(next)
    ensures next[FullOutputBytes].i == if MbSource(s.sources) == Layers.DEFAULT_SOURCE
                                       then s.model[FullOutputBytes].i else Mib(s.model[FullOutputMb].i)
  {
    var data, src := SetOutcome(p, defaults, s, k, v, next);
    assert SizesOk(s.model) && FullOutputMb in s.model && FullOutputBytes in s.model;
    FullOutputKept(p, defaults, s.model, data, src);
  }

  /** The suffix list after a write of another key. */
  lemma WriteKeepsSuffixesIff(p: Platform, defaults: Config, s: State, k: Key, v: Value, next: Config)
    requires Sound(p) && GoodSchema(defaults) && GoodModel(p, defaults, s.model) && k != DomainSuffixes
    requires Commits(p, defaults, s, Set(k, v)) == Some(next)
    ensures SuffixesOk(s.model) && DomainSuffixes in next
    ensures next[DomainSuffixes] == s.model[DomainSuffixes] <==> !HasLineFeed(s.model)
  {
    var data, src := SetOutcome(p, defaults, s, k, v, next);
    assert SuffixesOk(s.model) && DomainSuffixes in s.model;
    SuffixesKept(p, defaults, s.model, data, src);
  }

  // --------------------------------------------------------- sizes over whole runs

  /** Recording a write of other keys does not change the source of the MB limit. */
  lemma StampSkips(data: Config, source: string, sources: Sources)
    requires FullOutputMb !in data
    ensures MbSource(sources + Stamped(data, source)) == MbSource(sources)
  {
    assert FullOutputMb !in Stamped(data, source);
  }

  /** The operation names neither full-output key, and does not clear. */
  predicate LeavesFullOutput(op: Op) {
    match op
    case Set(k, _) => !FullOutputKey(k)
    case Delete(k) => !FullOutputKey(k)
    case Clear => false
    case Override(o) => FullOutputMb !in o && FullOutputBytes !in o
  }

  lemma ProposalKeeps(s: State, op: Op)
    requires LeavesFullOutput(op) && SizesOk(s.model) && Proposal(s, op).Some?
    ensures var data := Proposal(s, op).value;
            && FullOutputMb in data && data[FullOutputMb] == s.model[FullOutputMb]
            && FullOutputBytes in data && data[FullOutputBytes] == s.model[FullOutputBytes]
    ensures MbSource(NewSources(s, op)) == MbSource(s.sources)
  {
    match op
    case Set(k, v) => StampSkips(map[k := v], RUNTIME_SOURCE, s.sources);
    case Override(o) => StampSkips(o, OVERRIDE_SOURCE, s.sources);
    case _ =>
  }

  /** The byte limit a run may leave: the one it found, or its whole MiB. */
  predicate SameOrRounded(before: State, after: State) {
    && SizesOk(before.model) && SizesOk(after.model)
    && MbSource(after.sources) == MbSource(before.sources)
    && after.model[FullOutputMb] == before.model[FullOutputMb]
    && (after.model[FullOutputBytes] == before.model[FullOutputBytes]
        || (MbSource(before.sources) != Layers.DEFAULT_SOURCE
            && after.model[FullOutputBytes].i == Mib(before.model[FullOutputMb].i)))
  }

  lemma SizeStep(p: Platform, defaults: Config, s: State, op: Op)
    requires GoodSchema(defaults) && GoodModel(p, defaults, s.model) && LeavesFullOutput(op)
    ensures SameOrRounded(s, Step(p, defaults, s, op))
  {
    assert Settled(p, s.model) && SizesOk(s.model);
    StepCases(p, defaults, s, op);
    if Step(p, defaults, s, op) != s {
      ProposalKeeps(s, op);
      FullOutputKept(p, defaults, s.model, Proposal(s, op).value, MbSource(NewSources(s, op)));
    }
  }

  /** Over a run that names neither full-output key, MB never changes and bytes
      change at most once, upwards to whole MiB: by less than one MiB. */
  lemma {:induction false} SizeRun(p: Platform, defaults: Config, s: State, ops: seq<Op>)
    requires GoodSchema(defaults) && GoodModel(p, defaults, s.model)
    requires forall i | 0 <= i < |ops| :: LeavesFullOutput(ops[i])
    ensures SameOrRounded(s, Run(p, defaults, s, ops))
    ensures Run(p, defaults, s, ops).model[FullOutputBytes].i - s.model[FullOutputBytes].i < 1048576
    decreases |ops|
  {
    assert Settled(p, s.model) && SizesOk(s.model);
    if ops != [] {
      var init := ops[..|ops| - 1];
      SizeRun(p, defaults, s, init);
      ReachableGood(p, defaults, s, init);
      SizeStep(p, defaults, Run(p, defaults, s, init), ops[|ops| - 1]);
    }
    CeilBounds(s.model[FullOutputBytes].i);
  }

  /** The byte limit after `i` operations of a run. */
  ghost function BytesAfter(p: Platform, defaults: Config, s: State, ops: seq<Op>, i: nat): int
    requires i <= |ops| && GoodSchema(defaults) && GoodModel(p, defaults, s.model)
  {
    ReachableGood(p, defaults, s, ops[..i]);
    assert SizesOk(Run(p, defaults, s, ops[..i]).model);
    Run(p, defaults, s, ops[..i]).model[FullOutputBytes].i
  }

  /** Along such a run the byte limit never falls, and once it has moved it stays. */
  lemma SizeMovesOnce(p: Platform, defaults: Config, s: State, ops: seq<Op>, i: nat, j: nat)
    requires GoodSchema(defaults) && GoodModel(p, defaults, s.model) && i <= j <= |ops|
    requires forall n | 0 <= n < |ops| :: LeavesFullOutput(ops[n])
    ensures BytesAfter(p, defaults, s, ops, i) <= BytesAfter(p, defaults, s, ops, j)
    ensures BytesAfter(p, defaults, s, ops, i) != BytesAfter(p, defaults, s, ops, 0) ==>
              BytesAfter(p, defaults, s, ops, j) == BytesAfter(p, defaults, s, ops, i)
  {
    hide GoodSchema, GoodModel, Run, Step, Settled;
    var u, v := Run(p, defaults, s, ops[..i]), Run(p, defaults, s, ops[..j]);
    SizeRun(p, defaults, s, ops[..i]);
    ReachableGood(p, defaults, s, ops[..i]);
    SizeRun(p, defaults, u, ops[i..j]);
    RunFurther(p, defaults, s, ops, i, j);
    RunNothing(p, defaults, s, ops);
    GoodSizes(p, defaults, s.model);
    GoodSizes(p, defaults, u.model);
    CeilBounds(s.model[FullOutputBytes].i);
    CeilBounds(u.model[FullOutputBytes].i);
  }

  lemma GoodSizes(p: Platform, defaults: Config, m: Config)
    requires GoodModel(p, defaults, m)
    ensures SizesOk(m)
  {
  }

  lemma RunNothing(p: Platform, defaults: Config, s: State, ops: seq<Op>)
    ensures Run(p, defaults, s, ops[..0]) == s
  {
  }

  lemma {:induction false} RunFurther(p: Platform, defaults: Config, s: State, ops: seq<Op>, i: nat, j: nat)
    requires i <= j <= |ops|
    ensures Run(p, defaults, s, ops[..j]) == Run(p, defaults, Run(p, defaults, s, ops[..i]), ops[i..j])
    decreases j
  {
    hide Step;
    if i < j {
      RunFurther(p, defaults, s, ops, i, j - 1);
      assert ops[..j][..j - 1] == ops[..j - 1] && ops[i..j][..j - 1 - i] == ops[i..j - 1];
    }
  }

  // ------------------------------------------------------- what a write does to its key

  /** The candidate of a write holds the written mapping at every treated key. */
  lemma CandidateReads(p: Platform, defaults: Config, m: Config, k: Key, v: Value, j: Key)
    requires GoodSchema(defaults) && m.Keys == SchemaKeys(defaults) && Special(j)
    ensures Get(Candidate(defaults, m[k := v]), j) == Get(m[k := v], j)
  {
    hide BuiltIn, Complete;
    var data := m[k := v];
    if j in data { CandidateFlat(defaults, data, j); }
  }

  lemma SameNormAt(p: Platform, c: Config, data: Config, src: string, k: Key)
    requires Special(k) && forall j | Special(j) :: Get(c, j) == Get(data, j)
    ensures NormAt(p, c, src, k) == NormAt(p, data, src, k)
  {
    hide NormValue, CountValue, CoerceMb, BytesOf, MbOr, FullOutput;
    assert Special(Count(PoolMin)) && Special(Count(PoolMax)) && Special(Count(AuditExportMaxRows));
    assert Special(FullOutputMb) && Special(FullOutputBytes) && Special(PreviewMb);
  }

  /** An accepted write leaves at every treated key its normal form in the written mapping. */
  lemma WriteStores(p: Platform, defaults: Config, s: State, k: Key, v: Value, next: Config, j: Key)
    requires GoodSchema(defaults) && GoodModel(p, defaults, s.model) && Special(j) && (j in s.model || j == k)
    requires Commits(p, defaults, s, Set(k, v)) == Some(next)
    ensures j in next && next[j] == NormAt(p, s.model[k := v], MbSource(NewSources(s, Set(k, v))), j)
  {
    hide GoodSchema, Settled, NormAt, Candidate, Accepted, AccessOf, NoneEscapes, CheckField;
    var data, src := s.model[k := v], MbSource(NewSources(s, Set(k, v)));
    var c := Candidate(defaults, data);
    CommittedAt(p, defaults, data, src, j);
    forall i | Special(i) ensures Get(c, i) == Get(data, i) { CandidateReads(p, defaults, s.model, k, v, i); }
    SameNormAt(p, c, data, src, j);
  }

  /** An accepted `cfg[k] = v` on a flat key stores the normal form of the value in the
      current mapping, or the validated value where normalization does not treat the key. */
  lemma WriteSets(p: Platform, defaults: Config, s: State, k: Key, v: Value, next: Config)
    requires GoodSchema(defaults) && GoodModel(p, defaults, s.model) && !k.Section?
    requires Commits(p, defaults, s, Set(k, v)) == Some(next)
    ensures k in next
    ensures Special(k) ==> next[k] == NormAt(p, s.model[k := v], MbSource(NewSources(s, Set(k, v))), k)
    ensures k.Plain? ==> CheckField(p, defaults, k, v) == Some(next[k])
  {
    hide GoodSchema, Settled, NormAt, Candidate, Accepted, AccessOf, NoneEscapes, CheckField;
    var data, src := s.model[k := v], MbSource(NewSources(s, Set(k, v)));
    var c := Candidate(defaults, data);
    if Special(k) {
      WriteStores(p, defaults, s, k, v, next, k);
    } else {
      CommittedAt(p, defaults, data, src, k);
      NormAtPlain(p, c, src, k);
      PlainNormal(p, k, c[k]);
      ValidatedAt(p, defaults, Normalized(p, c, src), k);
    }
  }

  lemma PlainNormal(p: Platform, k: Key, v: Value)
    requires k.Plain?
    ensures NormValue(p, k, v) == v
  {
  }

  /** Writing the byte limit takes effect while the MB limit has its default source;
      with an overridden one it is accepted, and lost. */
  lemma WriteBytes(p: Platform, defaults: Config, s: State, v: Value, next: Config)
    requires GoodSchema(defaults) && GoodModel(p, defaults, s.model)
    requires Commits(p, defaults, s, Set(FullOutputBytes, v)) == Some(next)
    ensures SizesOk(s.model) && SizesOk(next)
    ensures next[FullOutputBytes].i == if MbSource(s.sources) == Layers.DEFAULT_SOURCE && v != Null then BytesOf(p, v).value
                                       else Mib(s.model[FullOutputMb].i)
    ensures BytesOf(p, v) == Some(next[FullOutputBytes].i)
            <==> v != Null && (MbSource(s.sources) == Layers.DEFAULT_SOURCE || BytesOf(p, v) == Some(Mib(s.model[FullOutputMb].i)))
  {
    hide GoodSchema, GoodModel, Settled, Commits, PlainInt, Mib;
    GoodSizes(p, defaults, s.model);
    CeilBounds(s.model[FullOutputBytes].i);
    StepIs(p, defaults, s, FullOutputBytes, v, next);
    GoodSizes(p, defaults, next);
    WriteSets(p, defaults, s, FullOutputBytes, v, next);
    StampSkips(map[FullOutputBytes := v], RUNTIME_SOURCE, s.sources);
  }

  lemma StepIs(p: Platform, defaults: Config, s: State, k: Key, v: Value, next: Config)
    requires GoodSchema(defaults) && GoodModel(p, defaults, s.model) && Commits(p, defaults, s, Set(k, v)) == Some(next)
    ensures GoodModel(p, defaults, next)
  {
    hide GoodSchema, GoodModel, Attempt;
    AttemptGood(p, defaults, s.model[k := v], MbSource(NewSources(s, Set(k, v))));
  }

  /** Writing the MB limit sets both limits, unless it cannot be read: then it is
      accepted, and both stay. */
  lemma WriteMb(p: Platform, defaults: Config, s: State, v: Value, next: Config)
    requires GoodSchema(defaults) && GoodModel(p, defaults, s.model)
    requires Commits(p, defaults, s, Set(FullOutputMb, v)) == Some(next)
    ensures SizesOk(s.model) && SizesOk(next)
    ensures CoerceMb(p, v).Some? ==>
              next[FullOutputMb].i == CoerceMb(p, v).value && next[FullOutputBytes].i == Mib(CoerceMb(p, v).value)
    ensures CoerceMb(p, v).None? ==>
              next[FullOutputMb] == s.model[FullOutputMb] && next[FullOutputBytes] == s.model[FullOutputBytes]
  {
    hide GoodSchema, GoodModel, Settled, Commits, CoerceMb, NewSources, NormAt, SizesOk, MbSource;
    GoodSizes(p, defaults, s.model);
    StepIs(p, defaults, s, FullOutputMb, v, next);
    GoodSizes(p, defaults, next);
    SizesAre(s.model);
    WriteStores(p, defaults, s, FullOutputMb, v, next, FullOutputMb);
    WriteStores(p, defaults, s, FullOutputMb, v, next, FullOutputBytes);
    SetSources(s, FullOutputMb, v);
    StampsMb(s.sources, v);
    MbNormal(p, s.model, v, MbSource(NewSources(s, Set(FullOutputMb, v))));
  }

  lemma SizesAre(m: Config)
    requires SizesOk(m)
    ensures FullOutputMb in m && FullOutputBytes in m
  {
  }

  lemma MbNormal(p: Platform, m: Config, v: Value, src: string)
    requires SizesOk(m) && src != Layers.DEFAULT_SOURCE
    ensures var data := m[FullOutputMb := v];
            var mb, bytes := NormAt(p, data, src, FullOutputMb), NormAt(p, data, src, FullOutputBytes);
            match CoerceMb(p, v)
            case Some(n) => mb == Int(n) && bytes == Int(Mib(n))
            case None => mb == m[FullOutputMb] && bytes == m[FullOutputBytes]
  {
    hide CoerceMb, Mib, CeilMib, MbOr;
  }

  lemma SetSources(s: State, k: Key, v: Value)
    ensures NewSources(s, Set(k, v)) == s.sources + Stamped(map[k := v], RUNTIME_SOURCE)
  {
  }

  lemma StampsMb(sources: Sources, v: Value)
    ensures MbSource(sources + Stamped(map[FullOutputMb := v], RUNTIME_SOURCE)) != Layers.DEFAULT_SOURCE
  {
    hide Flatten, Name;
    var data: Config := map[FullOutputMb := v];
    assert FullOutputMb in StampedKeys(FullOutputMb, data[FullOutputMb]);
    assert FullOutputMb in Stamped(data, RUNTIME_SOURCE);
    assert RUNTIME_SOURCE[0] != Layers.DEFAULT_SOURCE[0];
  }
}
