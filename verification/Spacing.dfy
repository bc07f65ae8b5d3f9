/** Work that is spaced out in time: interval claims of one worker, and the
    expiring startup lock that all workers share. */
module Spacing {

  // ------------------------------------------------------------- one worker's claims

  const CLEANUP_INTERVAL := 300.0

  /** A request as the cleanup hook sees it: the monotonic clock, the workspace
      switch, and whether authentication was rejected. */
  datatype Request = Request(now: real, enabled: bool, rejected: bool)

  /** The last claim, and the attempts made so far, in order. */
  datatype Worker = Worker(last: real, attempts: seq<real>)

  predicate Attempts(last: real, r: Request) {
    r.enabled && r.now - last >= CLEANUP_INTERVAL && !r.rejected
  }

  function Handle(w: Worker, r: Request): Worker {
    if Attempts(w.last, r) then Worker(r.now, w.attempts + [r.now]) else w
  }

  function HandleAll(w: Worker, rs: seq<Request>): Worker {
    if rs == [] then w else Handle(HandleAll(w, rs[..|rs| - 1]), rs[|rs| - 1])
  }

  /** The module globals of a worker. A cleanup that fails has still claimed its interval. */
  class Process {
    var last: real
    var attempts: seq<real>

    constructor ()
      ensures last == 0.0 && attempts == []
    {
      last, attempts := 0.0, [];
    }

    /** `_maybe_cleanup_workspaces`, the cleanup itself being recorded as an attempt. */
    method MaybeCleanup(now: real, enabled: bool, rejected: bool)
      modifies this
      ensures Worker(last, attempts) == Handle(old(Worker(last, attempts)), Request(now, enabled, rejected))
    {
      if !enabled { return; }
      if now - last < CLEANUP_INTERVAL { return; }
      if rejected { return; }
      last := now;
      attempts := attempts + [now];
    }
  }

  predicate Spaced(times: seq<real>, gap: real) {
    forall i, j :: 0 <= i < j < |times| ==> times[j] - times[i] >= gap
  }

  /** The last claim is the last attempt. */
  predicate Tracks(w: Worker) {
    && Spaced(w.attempts, CLEANUP_INTERVAL)
    && (w.attempts != [] ==> w.last == w.attempts[|w.attempts| - 1])
  }

  /** Whatever the clock and the requests do, attempts are 300 seconds apart. */
  lemma {:induction false} AttemptsSpaced(rs: seq<Request>)
    ensures Tracks(HandleAll(Worker(0.0, []), rs))
    ensures var times := HandleAll(Worker(0.0, []), rs).attempts;
            forall i, j :: 0 <= i < j < |times| ==> times[j] - times[i] >= 300.0
  {
    if rs != [] {
      AttemptsSpaced(rs[..|rs| - 1]);
      var w := HandleAll(Worker(0.0, []), rs[..|rs| - 1]);
      var r := rs[|rs| - 1];
      if Attempts(w.last, r) {
        forall i | 0 <= i < |w.attempts| ensures r.now - w.attempts[i] >= CLEANUP_INTERVAL {
          var n := |w.attempts| - 1;
          if i < n { assert w.attempts[n] - w.attempts[i] >= CLEANUP_INTERVAL; }
        }
      }
    }
  }

  /** The requests whose authentication was not rejected. */
  function Admitted(rs: seq<Request>): seq<Request> {
    if rs == [] then []
    else
      var before := Admitted(rs[..|rs| - 1]);
      if rs[|rs| - 1].rejected then before else before + [rs[|rs| - 1]]
  }

  /** Rejected requests leave no trace: the attempts are those of the admitted requests alone. */
  lemma {:induction false} RejectionsNeverDelay(w: Worker, rs: seq<Request>)
    ensures HandleAll(w, rs) == HandleAll(w, Admitted(rs))
  {
    if rs != [] { RejectionsNeverDelay(w, rs[..|rs| - 1]); }
  }

  /** And an admitted request attempts a cleanup as soon as the interval since the last attempt is over. */
  lemma {:induction false} AttemptedIff(rs: seq<Request>, r: Request)
    ensures var before, after := HandleAll(Worker(0.0, []), rs), HandleAll(Worker(0.0, []), rs + [r]);
            var due := if before.attempts == [] then 0.0 else before.attempts[|before.attempts| - 1];
            && (after.attempts == before.attempts + [r.now] <==> r.enabled && !r.rejected && r.now - due >= CLEANUP_INTERVAL)
            && (after.attempts != before.attempts + [r.now] ==> after == before)
  {
    AttemptsSpaced(rs);
    NoClaimYet(rs);
    assert (rs + [r])[..|rs|] == rs;
  }

  lemma {:induction false} NoClaimYet(rs: seq<Request>)
    ensures var w := HandleAll(Worker(0.0, []), rs); w.attempts == [] ==> w.last == 0.0
  {
    if rs != [] { NoClaimYet(rs[..|rs| - 1]); }
  }

  // --------------------------------------------------------- the shared startup lock

  const LOCK_TTL := 60.0

  /** What a worker finds when it starts. Without a client, or when the command
      fails, it cleans up unlocked; the failed command may still have stored the key. */
  datatype Redis = Absent | Answers | Fails(stored: bool)

  datatype Start = Start(at: real, redis: Redis)

  datatype Locking = Locked | Unlocked

  /** `claimed` says that the worker's command took the key, whether or not it heard so. */
  datatype Cleanup = Cleanup(at: real, locking: Locking, claimed: bool)

  /** Redis holds the key from `since` for the time to live. */
  datatype Shared = Free | Held(since: real)

  datatype Fleet = Fleet(key: Shared, cleanups: seq<Cleanup>)

  predicate Available(key: Shared, now: real) {
    key.Free? || now >= key.since + LOCK_TTL
  }

  /** SET with NX and EX at the server's time. */
  function SetNx(key: Shared, now: real): Shared {
    if Available(key, now) then Held(now) else key
  }

  /** `_acquire_active_run_startup_cleanup_lock` */
  method AcquireLock(key: Shared, s: Start) returns (owner: bool, locking: Locking, after: Shared)
    ensures owner <==> !s.redis.Answers? || Available(key, s.at)
    ensures locking == Locked <==> s.redis.Answers?
    ensures after == Boot(Fleet(key, []), s).key
    ensures Boot(Fleet(key, []), s).cleanups
         == if owner then [Cleanup(s.at, locking, Claims(key, s))] else []
  {
    match s.redis {
      case Absent => return true, Unlocked, key;
      case Fails(stored) => return true, Unlocked, if stored then SetNx(key, s.at) else key;
      case Answers =>
        after := SetNx(key, s.at);
        owner := Available(key, s.at);
        locking := Locked;
    }
  }

  /** The command reaches a free key. */
  predicate Claims(key: Shared, s: Start) {
    (s.redis.Answers? || s.redis == Fails(true)) && Available(key, s.at)
  }

  /** One worker's startup cleanup. */
  function Boot(f: Fleet, s: Start): Fleet {
    match s.redis
    case Absent => f.(cleanups := f.cleanups + [Cleanup(s.at, Unlocked, false)])
    case Fails(stored) =>
      Fleet(if stored then SetNx(f.key, s.at) else f.key, f.cleanups + [Cleanup(s.at, Unlocked, Claims(f.key, s))])
    case Answers =>
      if Available(f.key, s.at) then Fleet(Held(s.at), f.cleanups + [Cleanup(s.at, Locked, true)]) else f
  }

  function BootAll(f: Fleet, starts: seq<Start>): Fleet {
    if starts == [] then f else Boot(BootAll(f, starts[..|starts| - 1]), starts[|starts| - 1])
  }

  ghost predicate ClaimsSpaced(cleanups: seq<Cleanup>) {
    forall i, j :: 0 <= i < j < |cleanups| && cleanups[i].claimed && cleanups[j].claimed
                   ==> cleanups[j].at - cleanups[i].at >= LOCK_TTL
  }

  /** The key is held since the latest claim. */
  ghost predicate KeyIsLast(f: Fleet) {
    && (forall i :: 0 <= i < |f.cleanups| && f.cleanups[i].claimed ==> f.key.Held? && f.cleanups[i].at <= f.key.since)
    && (f.key.Held? ==> exists i :: 0 <= i < |f.cleanups| && f.cleanups[i].claimed && f.cleanups[i].at == f.key.since)
    && (forall i :: 0 <= i < |f.cleanups| && f.cleanups[i].locking.Locked? ==> f.cleanups[i].claimed)
  }

  lemma BootKeeps(f: Fleet, s: Start)
    requires ClaimsSpaced(f.cleanups) && KeyIsLast(f)
    ensures ClaimsSpaced(Boot(f, s).cleanups) && KeyIsLast(Boot(f, s))
  {
    var after := Boot(f, s);
    if after.key.Held? {
      if Claims(f.key, s) {
        assert after.cleanups[|f.cleanups|].claimed && after.cleanups[|f.cleanups|].at == after.key.since;
      } else {
        var i :| 0 <= i < |f.cleanups| && f.cleanups[i].claimed && f.cleanups[i].at == f.key.since;
        assert after.cleanups[i] == f.cleanups[i];
      }
    }
  }

  lemma {:induction false} KeyFollowsClaims(starts: seq<Start>)
    ensures ClaimsSpaced(BootAll(Fleet(Free, []), starts).cleanups) && KeyIsLast(BootAll(Fleet(Free, []), starts))
  {
    hide Boot, ClaimsSpaced, KeyIsLast;
    if starts == [] {
      NoCleanups();
    } else {
      var n := |starts| - 1;
      KeyFollowsClaims(starts[..n]);
      BootKeeps(BootAll(Fleet(Free, []), starts[..n]), starts[n]);
    }
  }

  lemma NoCleanups()
    ensures ClaimsSpaced([]) && KeyIsLast(Fleet(Free, []))
  {
  }

  /** Across any number of workers, whatever Redis does to the others, two locked
      cleanups are a time to live apart. */
  lemma LockedCleanupsSpaced(starts: seq<Start>)
    ensures var cleanups := BootAll(Fleet(Free, []), starts).cleanups;
            forall i, j :: 0 <= i < j < |cleanups| && cleanups[i].locking.Locked? && cleanups[j].locking.Locked?
                           ==> cleanups[j].at - cleanups[i].at >= 60.0
  {
    hide BootAll;
    KeyFollowsClaims(starts);
  }

  /** Some worker took the key within the last 60 seconds. */
  ghost predicate ClaimedWithin(cleanups: seq<Cleanup>, now: real) {
    exists i :: 0 <= i < |cleanups| && cleanups[i].claimed && now < cleanups[i].at + LOCK_TTL
  }

  /** A worker that reaches Redis skips the cleanup exactly when some worker took the
      key within the last 60 seconds, even one that was told its command failed. */
  lemma SkippedIff(starts: seq<Start>, s: Start)
    requires s.redis.Answers?
    ensures var before, after := BootAll(Fleet(Free, []), starts), BootAll(Fleet(Free, []), starts + [s]);
            after.cleanups == before.cleanups <==> ClaimedWithin(before.cleanups, s.at)
  {
    KeyFollowsClaims(starts);
    assert (starts + [s])[..|starts|] == starts;
    var before := BootAll(Fleet(Free, []), starts);
    if !Available(before.key, s.at) {
      var i :| 0 <= i < |before.cleanups| && before.cleanups[i].claimed && before.cleanups[i].at == before.key.since;
    }
  }
}
