/**
 The lock on a source PVC and the other writers of the same object.

 Every writer works by Get, change the annotations, Update.  The API server accepts an Update
 only if the version it was read at is still the current one.  The model interleaves any number
 of calls at the granularity Get / look at the clock / build the new annotations / Update, under
 one clock that never goes back, and it lets any Get or Update fail.
 */
module PvcLock {
  import opened Options
  import opened Numbers
  import opened StoredObjects

  /** Annotation keys under `dr-syncer.io/`; `Other` is any key this program never writes. */
  datatype Key =
    | LockOwner | LockTimestamp
    | SyncStatus | LastUpdated | Phase | Progress
    | MountPathCache
    | LastSyncTime | LastSyncStatus | DestinationNamespace | DestinationPvc
    | Other(name: string)

  /** An annotation value: a string that parses as an RFC 3339 time, or any other string. */
  datatype Value = Text(s: string) | Stamp(ns: int)

  type Annotations = map<Key, Value>

  const HOUR: nat := 3600 * SECOND

  /** What a Go map read gives: the empty string for a missing key. */
  function Val(a: Annotations, k: Key): Value {
    if k in a then a[k] else Text("")
  }

  /** `time.Now().UTC().Format(time.RFC3339)`: the fraction of a second is dropped. */
  function FormatNow(now: nat): (v: Value)
    ensures v.Stamp? && now - SECOND < v.ns <= now && v.ns % SECOND == 0
  {
    Stamp(now - now % SECOND)
  }

  /** The name a controller locks under, from its POD_NAME variable. */
  function PodName(env: string): (pod: string)
    ensures pod != "" && (env != "" ==> pod == env) && (env == "" ==> pod == "unknown")
  {
    if env == "" then "unknown" else env
  }

  datatype Op =
    | Acquire(env: string)
    | Release(env: string)
    | PutSyncStatus(json: string, phase: string, progress: int, shown: string)
    | PutMountPath(json: string)
    | PutCompletion(namespace: string, pvc: string)

  datatype Result =
    | Granted(stamp: Value, reentry: bool)
    | Held(owner: Value, stamp: Value)
    | NotLocked
    | NotOwner(owner: Value)
    | Written
    | Failed

  /** What a call decides from the annotations it read and the clock; `None` means it goes on to write. */
  function Decide(op: Op, a: Annotations, now: nat): Option<Result> {
    var owner := Val(a, LockOwner);
    var stamp := Val(a, LockTimestamp);
    match op
    case Acquire(env) =>
      if owner == Text("") then None
      else if owner == Text(PodName(env)) then Some(Granted(stamp, true))
      else if stamp == Text("") then Some(Held(owner, stamp))
      else if stamp.Stamp? && now - stamp.ns <= HOUR then Some(Held(owner, stamp))
      else None
    case Release(env) =>
      if owner == Text("") then Some(NotLocked)
      else if owner != Text(PodName(env)) then Some(NotOwner(owner))
      else None
    case _ => None
  }

  /** The annotations a call writes, built from the ones it read. */
  function Modify(op: Op, a: Annotations, now: nat): Annotations {
    match op
    case Acquire(env) => a[LockOwner := Text(PodName(env))][LockTimestamp := FormatNow(now)]
    case Release(env) => a - {LockOwner, LockTimestamp}
    case PutSyncStatus(json, phase, progress, shown) =>
      var b := a[SyncStatus := Text(json)][LastUpdated := FormatNow(now)][Phase := Text(phase)];
      if progress > 0 then b[Progress := Text(shown)] else b
    case PutMountPath(json) => a[MountPathCache := Text(json)]
    case PutCompletion(namespace, pvc) =>
      a[LastSyncTime := FormatNow(now)][LastSyncStatus := Text("Completed")]
       [DestinationNamespace := Text(namespace)][DestinationPvc := Text(pvc)]
  }

  /** What a successful Update means to the caller. */
  function Success(op: Op, out: Annotations): Result {
    if op.Acquire? then Granted(Val(out, LockTimestamp), false) else Written
  }

  /** When a call goes on to write, and what it answers when it does not. */
  lemma {:induction false} DecideMeans(op: Op, a: Annotations, now: nat)
    ensures op.Acquire? ==>
      var owner, stamp := Val(a, LockOwner), Val(a, LockTimestamp);
      (Decide(op, a, now).None? <==>
        owner == Text("") ||
        (owner != Text(PodName(op.env)) && stamp != Text("") && (stamp.Stamp? ==> now - stamp.ns > HOUR)))
    ensures op.Acquire? && Decide(op, a, now).Some? ==>
      Decide(op, a, now).value ==
        if Val(a, LockOwner) == Text(PodName(op.env)) then Granted(Val(a, LockTimestamp), true)
        else Held(Val(a, LockOwner), Val(a, LockTimestamp))
    ensures op.Release? ==> (Decide(op, a, now).None? <==> Val(a, LockOwner) == Text(PodName(op.env)))
    ensures op.Release? && Decide(op, a, now).Some? ==>
      Decide(op, a, now).value == if Val(a, LockOwner) == Text("") then NotLocked else NotOwner(Val(a, LockOwner))
    ensures !op.Acquire? && !op.Release? ==> Decide(op, a, now).None?
  {
  }

  /** What each call writes, key by key; every other key keeps its value. */
  lemma {:induction false} ModifyMeans(op: Op, a: Annotations, now: nat, k: Key)
    ensures Val(Modify(op, a, now), k) ==
      if op.Acquire? && k == LockOwner then Text(PodName(op.env))
      else if op.Acquire? && k == LockTimestamp then FormatNow(now)
      else if op.Release? && (k == LockOwner || k == LockTimestamp) then Text("")
      else if op.PutSyncStatus? && k == SyncStatus then Text(op.json)
      else if op.PutSyncStatus? && k == LastUpdated then FormatNow(now)
      else if op.PutSyncStatus? && k == Phase then Text(op.phase)
      else if op.PutSyncStatus? && k == Progress && op.progress > 0 then Text(op.shown)
      else if op.PutMountPath? && k == MountPathCache then Text(op.json)
      else if op.PutCompletion? && k == LastSyncTime then FormatNow(now)
      else if op.PutCompletion? && k == LastSyncStatus then Text("Completed")
      else if op.PutCompletion? && k == DestinationNamespace then Text(op.namespace)
      else if op.PutCompletion? && k == DestinationPvc then Text(op.pvc)
      else Val(a, k)
  {
  }

  // ------------------------------------------------------------------------------------------
  // Interleaved runs
  // ------------------------------------------------------------------------------------------

  datatype Call =
    | Started(op: Op)
    | Fetched(op: Op, version: nat, snap: Annotations)
    | Checked(op: Op, version: nat, snap: Annotations, checkedAt: nat)
    | Ready(op: Op, version: nat, snap: Annotations, checkedAt: nat, builtAt: nat, out: Annotations)
    | Finished(op: Op, result: Result)

  datatype State = State(clock: nat, version: nat, ann: Annotations, calls: map<nat, Call>)

  datatype Event =
    | Tick(d: nat)
    | Start(c: nat, op: Op)
    | Get(c: nat)
    | Check(c: nat)
    | Build(c: nat)
    | Commit(c: nat, acked: bool)  // acked is false when the server stored the write but the reply was lost
    | Fail(c: nat)                 // a Get or Update that returns an error: conflict, timeout, not found
    | Foreign(k: Key, v: Value)    // somebody else sets an annotation that is not part of the lock

  predicate Enabled(s: State, e: Event) {
    match e
    case Tick(_) => true
    case Start(c, _) => c !in s.calls
    case Get(c) => c in s.calls && s.calls[c].Started?
    case Check(c) => c in s.calls && s.calls[c].Fetched?
    case Build(c) => c in s.calls && s.calls[c].Checked?
    case Commit(c, _) => c in s.calls && s.calls[c].Ready? && s.calls[c].version == s.version
    case Fail(c) => c in s.calls && (s.calls[c].Started? || s.calls[c].Ready?)
    case Foreign(k, _) => k != LockOwner && k != LockTimestamp
  }

  function Step(s: State, e: Event): State
    requires Enabled(s, e)
  {
    match e
    case Tick(d) => s.(clock := s.clock + d)
    case Start(c, op) => s.(calls := s.calls[c := Started(op)])
    case Get(c) => s.(calls := s.calls[c := Fetched(s.calls[c].op, s.version, s.ann)])
    case Check(c) =>
      var Fetched(op, version, snap) := s.calls[c];
      var decision := Decide(op, snap, s.clock);
      s.(calls := s.calls[c := if decision.Some? then Finished(op, decision.value)
                               else Checked(op, version, snap, s.clock)])
    case Build(c) =>
      var Checked(op, version, snap, at) := s.calls[c];
      s.(calls := s.calls[c := Ready(op, version, snap, at, s.clock, Modify(op, snap, s.clock))])
    case Commit(c, acked) =>
      var call := s.calls[c];
      s.(version := s.version + 1, ann := call.out,
         calls := s.calls[c := Finished(call.op, if acked then Success(call.op, call.out) else Failed)])
    case Fail(c) => s.(calls := s.calls[c := Finished(s.calls[c].op, Failed)])
    case Foreign(k, v) => s.(version := s.version + 1, ann := s.ann[k := v])
  }

  predicate Valid(s: State, es: seq<Event>)
    decreases |es|
  {
    es == [] || (Enabled(s, es[0]) && Valid(Step(s, es[0]), es[1..]))
  }

  function Run(s: State, es: seq<Event>): State
    requires Valid(s, es)
    decreases |es|
  {
    if es == [] then s else Run(Step(s, es[0]), es[1..])
  }

  /** What a call in flight knows about the store. */
  predicate CallInv(s: State, call: Call) {
    && (call.Fetched? || call.Checked? || call.Ready? ==>
          call.version <= s.version && (call.version == s.version ==> call.snap == s.ann))
    && (call.Checked? || call.Ready? ==>
          call.checkedAt <= s.clock && Decide(call.op, call.snap, call.checkedAt) == None)
    && (call.Ready? ==>
          call.checkedAt <= call.builtAt <= s.clock && call.out == Modify(call.op, call.snap, call.builtAt))
  }

  ghost predicate Inv(s: State) {
    forall c :: c in s.calls ==> CallInv(s, s.calls[c])
  }

  lemma StepKeepsInv(s: State, e: Event)
    requires Inv(s) && Enabled(s, e)
    ensures Inv(Step(s, e))
  {
  }

  lemma {:induction false} RunKeepsInv(s: State, es: seq<Event>)
    requires Inv(s) && Valid(s, es)
    ensures Inv(Run(s, es))
    decreases |es|
  {
    if es != [] {
      StepKeepsInv(s, es[0]);
      RunKeepsInv(Step(s, es[0]), es[1..]);
    }
  }

  lemma {:induction false} RunJoins(s: State, xs: seq<Event>, ys: seq<Event>)
    requires Valid(s, xs) && Valid(Run(s, xs), ys)
    ensures Valid(s, xs + ys) && Run(s, xs + ys) == Run(Run(s, xs), ys)
    decreases |xs|
  {
    if xs == [] {
      assert xs + ys == ys;
    } else {
      assert (xs + ys)[1..] == xs[1..] + ys;
      RunJoins(Step(s, xs[0]), xs[1..], ys);
    }
  }

  // ------------------------------------------------------------------------------------------
  // Serialisability
  // ------------------------------------------------------------------------------------------

  /** One write in commit order: an operation with the time it stamped, or a foreign annotation. */
  datatype Entry = Own(op: Op, at: nat) | Alien(k: Key, v: Value)

  /** The whole call run at one instant with nobody else around. */
  function Atomically(a: Annotations, w: Entry): Annotations {
    match w
    case Own(op, at) => if Decide(op, a, at).None? then Modify(op, a, at) else a
    case Alien(k, v) => a[k := v]
  }

  function Replay(a: Annotations, ws: seq<Entry>): Annotations
    decreases |ws|
  {
    if ws == [] then a else Replay(Atomically(a, ws[0]), ws[1..])
  }

  function CommitOf(s: State, e: Event): seq<Entry>
    requires Enabled(s, e)
  {
    match e
    case Commit(c, _) => [Own(s.calls[c].op, s.calls[c].builtAt)]
    case Foreign(k, v) => [Alien(k, v)]
    case _ => []
  }

  function Commits(s: State, es: seq<Event>): seq<Entry>
    requires Valid(s, es)
    decreases |es|
  {
    if es == [] then [] else CommitOf(s, es[0]) + Commits(Step(s, es[0]), es[1..])
  }

  /** A decision to write stays a decision to write as time passes. */
  lemma DecideIsMonotone(op: Op, a: Annotations, t: nat, u: nat)
    requires t <= u && Decide(op, a, t) == None
    ensures Decide(op, a, u) == None
  {
  }

  lemma StepIsAtomic(s: State, e: Event)
    requires Inv(s) && Enabled(s, e)
    ensures Step(s, e).ann == Replay(s.ann, CommitOf(s, e))
  {
    if e.Commit? {
      var call := s.calls[e.c];
      DecideIsMonotone(call.op, call.snap, call.checkedAt, call.builtAt);
      assert Replay(Atomically(s.ann, Own(call.op, call.builtAt)), []) == call.out;
    }
  }

  lemma {:induction false} ReplaySplits(a: Annotations, xs: seq<Entry>, ys: seq<Entry>)
    ensures Replay(a, xs + ys) == Replay(Replay(a, xs), ys)
    decreases |xs|
  {
    if xs == [] {
      assert xs + ys == ys;
    } else {
      assert (xs + ys)[1..] == xs[1..] + ys;
      ReplaySplits(Atomically(a, xs[0]), xs[1..], ys);
    }
  }

  /**
   Every interleaving of acquires, releases, status updates, cache saves, completion updates and
   foreign writes leaves the annotations that the committed calls would leave if each had run
   alone, one after another in commit order.
   */
  lemma {:induction false} Serializable(s: State, es: seq<Event>)
    requires Inv(s) && Valid(s, es)
    ensures Run(s, es).ann == Replay(s.ann, Commits(s, es))
    decreases |es|
  {
    if es != [] {
      var s' := Step(s, es[0]);
      StepKeepsInv(s, es[0]);
      StepIsAtomic(s, es[0]);
      Serializable(s', es[1..]);
      ReplaySplits(s.ann, CommitOf(s, es[0]), Commits(s', es[1..]));
    }
  }

  predicate SameLock(a: Annotations, b: Annotations) {
    Val(a, LockOwner) == Val(b, LockOwner) && Val(a, LockTimestamp) == Val(b, LockTimestamp)
  }

  /** The event commits a release by the given pod. */
  predicate CommitsRelease(s: State, e: Event, pod: string)
    requires Enabled(s, e)
  {
    e.Commit? && s.calls[e.c].op.Release? && PodName(s.calls[e.c].op.env) == pod
  }

  predicate CommitsAcquire(s: State, e: Event, pod: string)
    requires Enabled(s, e)
  {
    e.Commit? && s.calls[e.c].op.Acquire? && PodName(s.calls[e.c].op.env) == pod
  }

  /**
   Only a committed acquire or release changes the lock.  A committed release removes the lock of
   the pod that released and nothing else; a committed acquire writes its own name over no lock,
   over a lock more than an hour old, or over one whose timestamp does not parse.
   */
  lemma LockChanges(s: State, e: Event)
    requires Inv(s) && Enabled(s, e)
    ensures !SameLock(s.ann, Step(s, e).ann) ==>
              e.Commit? && (s.calls[e.c].op.Acquire? || s.calls[e.c].op.Release?)
    ensures forall pod :: CommitsRelease(s, e, pod) ==>
              && Val(s.ann, LockOwner) == Text(pod)
              && Step(s, e).ann == s.ann - {LockOwner, LockTimestamp}
    ensures forall pod :: CommitsAcquire(s, e, pod) ==>
              && Val(s.ann, LockOwner) != Text(pod)
              && (|| Val(s.ann, LockOwner) == Text("")
                  || (var t := Val(s.ann, LockTimestamp);
                      if t.Stamp? then s.clock - t.ns > HOUR else t != Text("")))
              && Val(Step(s, e).ann, LockOwner) == Text(pod)
              && Val(Step(s, e).ann, LockTimestamp).Stamp?
              && Val(Step(s, e).ann, LockTimestamp).ns <= s.clock
              && forall k :: k != LockOwner && k != LockTimestamp ==> Val(Step(s, e).ann, k) == Val(s.ann, k)
  {
  }

  // ------------------------------------------------------------------------------------------
  // Lease exclusion
  // ------------------------------------------------------------------------------------------

  predicate Leased(a: Annotations, pod: string, ts: int) {
    Val(a, LockOwner) == Text(pod) && Val(a, LockTimestamp) == Stamp(ts)
  }

  /** The run commits no release by the pod. */
  predicate NeverReleases(s: State, es: seq<Event>, pod: string)
    requires Valid(s, es)
    decreases |es|
  {
    es == [] || (!CommitsRelease(s, es[0], pod) && NeverReleases(Step(s, es[0]), es[1..], pod))
  }

  /** The event makes an acquire under the given pod name return true. */
  predicate Grants(s: State, e: Event, pod: string)
    requires Enabled(s, e)
  {
    && (e.Check? || e.Commit?)
    && s.calls[e.c].op.Acquire? && PodName(s.calls[e.c].op.env) == pod
    && Step(s, e).calls[e.c].Finished? && Step(s, e).calls[e.c].result.Granted?
  }

  lemma StepKeepsLease(s: State, e: Event, pod: string, ts: int)
    requires Inv(s) && Enabled(s, e) && pod != ""
    requires Leased(s.ann, pod, ts) && s.clock - ts <= HOUR && !CommitsRelease(s, e, pod)
    ensures Leased(Step(s, e).ann, pod, ts)
  {
    LockChanges(s, e);
    if e.Commit? && s.calls[e.c].op.Acquire? {
      assert CommitsAcquire(s, e, PodName(s.calls[e.c].op.env));
    }
    if e.Commit? && s.calls[e.c].op.Release? {
      assert CommitsRelease(s, e, PodName(s.calls[e.c].op.env));
    }
  }

  lemma {:induction false} ClockGrows(s: State, es: seq<Event>)
    requires Valid(s, es)
    ensures s.clock <= Run(s, es).clock
    decreases |es|
  {
    if es != [] {
      ClockGrows(Step(s, es[0]), es[1..]);
    }
  }

  /** The lease is in the store, and every call that read version `v` or a later one saw it. */
  ghost predicate LeaseInv(s: State, v: nat, pod: string, ts: int) {
    && Leased(s.ann, pod, ts)
    && v <= s.version
    && forall c :: c in s.calls && !s.calls[c].Started? && !s.calls[c].Finished? && s.calls[c].version >= v ==>
         Val(s.calls[c].snap, LockOwner) == Text(pod)
  }

  lemma {:induction false} LeaseLasts(s: State, es: seq<Event>, v: nat, pod: string, ts: int)
    requires Inv(s) && Valid(s, es) && pod != ""
    requires LeaseInv(s, v, pod, ts) && NeverReleases(s, es, pod)
    requires Run(s, es).clock - ts <= HOUR
    ensures LeaseInv(Run(s, es), v, pod, ts)
    decreases |es|
  {
    if es != [] {
      ClockGrows(s, es);
      StepKeepsInv(s, es[0]);
      StepKeepsLease(s, es[0], pod, ts);
      LeaseLasts(Step(s, es[0]), es[1..], v, pod, ts);
    }
  }

  /**
   Lease exclusion over every interleaving.  From the moment a lease by `pod` is in the store,
   until the clock passes its timestamp by more than an hour and as long as that pod has not
   released, the lease stays in the store, and the only way an acquire under another name can
   return true is a re-entry decided on annotations that were read before.
   */
  lemma LeaseExclusion(s: State, es: seq<Event>, e: Event, pod: string, ts: int, other: string)
    requires Inv(s) && Leased(s.ann, pod, ts) && pod != "" && other != pod
    requires Valid(s, es) && NeverReleases(s, es, pod) && Enabled(Run(s, es), e)
    requires Run(s, es).clock - ts <= HOUR
    ensures Leased(Run(s, es).ann, pod, ts)
    ensures var t := Run(s, es);
      Grants(t, e, other) <==>
      && e.Check? && t.calls[e.c].op.Acquire? && PodName(t.calls[e.c].op.env) == other
      && t.calls[e.c].version < s.version
      && Val(t.calls[e.c].snap, LockOwner) == Text(other)
  {
    assert LeaseInv(s, s.version, pod, ts) by {
      forall c | c in s.calls ensures CallInv(s, s.calls[c]) {}
    }
    LeaseLasts(s, es, s.version, pod, ts);
    RunKeepsInv(s, es);
    LockChanges(Run(s, es), e);
    if Grants(Run(s, es), e, other) && e.Commit? {
      assert CommitsAcquire(Run(s, es), e, other);
    }
  }

  /** A call that has read nothing older than version `v`. */
  predicate ReadsSince(s: State, c: nat, v: nat) {
    c in s.calls && !s.calls[c].Started? && !s.calls[c].Finished? ==> s.calls[c].version >= v
  }

  lemma {:induction false} LateCallsReadLate(s: State, es: seq<Event>, c: nat, v: nat)
    requires Valid(s, es) && v <= s.version && ReadsSince(s, c, v)
    ensures ReadsSince(Run(s, es), c, v)
    decreases |es|
  {
    if es != [] {
      LateCallsReadLate(Step(s, es[0]), es[1..], c, v);
    }
  }

  /**
   The whole story of one acquire: in a run from any store with no call in flight, once an acquire
   under `pod` commits, its timestamp is no later than the clock, and no acquire under another name
   that fetches after that commit returns true before the clock passes the timestamp by more than an
   hour or the pod commits a release.
   */
  lemma CommittedAcquireExcludes(s: State, before: seq<Event>, commit: Event, after: seq<Event>, e: Event,
                                 pod: string, ts: int, other: string)
    requires s.calls == map[] && Valid(s, before)
    requires Enabled(Run(s, before), commit) && CommitsAcquire(Run(s, before), commit, pod)
    requires var u := Step(Run(s, before), commit);
      && Val(u.ann, LockTimestamp) == Stamp(ts)
      && Valid(u, after) && NeverReleases(u, after, pod) && Enabled(Run(u, after), e)
      && Run(u, after).clock - ts <= HOUR
    requires other != pod
    ensures var u := Step(Run(s, before), commit);
      && ts <= u.clock
      && Leased(Run(u, after).ann, pod, ts)
      && (Grants(Run(u, after), e, other) ==>
            e.c in u.calls && u.calls[e.c].Fetched? && u.calls[e.c].version < u.version)
  {
    var t := Run(s, before);
    var u := Step(t, commit);
    RunKeepsInv(s, before);
    LockChanges(t, commit);
    StepKeepsInv(t, commit);
    LeaseExclusion(u, after, e, pod, ts, other);
    if Grants(Run(u, after), e, other) {
      if ReadsSince(u, e.c, u.version) {
        LateCallsReadLate(u, after, e.c, u.version);
      } else if !u.calls[e.c].Fetched? {
        LateStagesStay(u, after, e.c);
      }
    }
  }

  /** Calls never go back to an earlier stage. */
  lemma {:induction false} LateStagesStay(s: State, es: seq<Event>, c: nat)
    requires Valid(s, es) && c in s.calls && (s.calls[c].Checked? || s.calls[c].Ready? || s.calls[c].Finished?)
    ensures c in Run(s, es).calls
    ensures var call := Run(s, es).calls[c]; call.Checked? || call.Ready? || call.Finished?
    decreases |es|
  {
    if es != [] {
      LateStagesStay(Step(s, es[0]), es[1..], c);
    }
  }

  /** An acquire that meets no interference. */
  function SoloAcquire(c: nat, env: string): seq<Event> {
    [Start(c, Acquire(env)), Get(c), Check(c), Build(c), Commit(c, true)]
  }

  lemma RunCons(s: State, e: Event, es: seq<Event>)
    requires Enabled(s, e) && Valid(Step(s, e), es)
    ensures Valid(s, [e] + es) && Run(s, [e] + es) == Run(Step(s, e), es)
  {
    assert ([e] + es)[1..] == es;
  }

  lemma SoloAcquireWrites(s: State, c: nat, env: string)
    requires c !in s.calls && Decide(Acquire(env), s.ann, s.clock) == None
    ensures Valid(s, SoloAcquire(c, env))
    ensures Run(s, SoloAcquire(c, env)) ==
      State(s.clock, s.version + 1, Modify(Acquire(env), s.ann, s.clock),
            s.calls[c := Finished(Acquire(env), Granted(FormatNow(s.clock), false))])
  {
    var op := Acquire(env);
    var s1 := Step(s, Start(c, op));
    var s2 := Step(s1, Get(c));
    var s3 := Step(s2, Check(c));
    var s4 := Step(s3, Build(c));
    var s5 := Step(s4, Commit(c, true));
    RunCons(s4, Commit(c, true), []);
    RunCons(s3, Build(c), [Commit(c, true)]);
    RunCons(s2, Check(c), [Build(c), Commit(c, true)]);
    RunCons(s1, Get(c), [Check(c), Build(c), Commit(c, true)]);
    RunCons(s, Start(c, op), [Get(c), Check(c), Build(c), Commit(c, true)]);
    assert s5.calls == s.calls[c := Finished(op, Granted(FormatNow(s.clock), false))];
    assert SoloAcquire(c, env) == [Start(c, op)] + [Get(c), Check(c), Build(c), Commit(c, true)];
  }

  /** An undisturbed acquire of a lock that nobody has takes it and returns true. */
  lemma {:induction false} FreeLockIsTaken(s: State, c: nat, env: string)
    requires c !in s.calls && Val(s.ann, LockOwner) == Text("")
    ensures Valid(s, SoloAcquire(c, env))
    ensures var t := Run(s, SoloAcquire(c, env));
      && Leased(t.ann, PodName(env), FormatNow(s.clock).ns)
      && c in t.calls && t.calls[c] == Finished(Acquire(env), Granted(FormatNow(s.clock), false))
  {
    SoloAcquireWrites(s, c, env);
  }

  /**
   The hour is exact: an undisturbed acquire by another pod takes the lease over as soon as the clock
   is more than an hour past the timestamp, and is told who holds it until then.
   */
  lemma LeaseRunsOutAfterAnHour(s: State, c: nat, env: string, pod: string, ts: int)
    requires c !in s.calls && pod != "" && PodName(env) != pod && Leased(s.ann, pod, ts)
    ensures s.clock - ts > HOUR ==>
      && Valid(s, SoloAcquire(c, env))
      && Leased(Run(s, SoloAcquire(c, env)).ann, PodName(env), FormatNow(s.clock).ns)
      && c in Run(s, SoloAcquire(c, env)).calls
      && Run(s, SoloAcquire(c, env)).calls[c] == Finished(Acquire(env), Granted(FormatNow(s.clock), false))
    ensures s.clock - ts <= HOUR ==>
      && Valid(s, [Start(c, Acquire(env)), Get(c), Check(c)])
      && Run(s, [Start(c, Acquire(env)), Get(c), Check(c)]) ==
           s.(calls := s.calls[c := Finished(Acquire(env), Held(Text(pod), Stamp(ts)))])
  {
    var op := Acquire(env);
    if s.clock - ts > HOUR {
      SoloAcquireWrites(s, c, env);
    } else {
      var s1 := Step(s, Start(c, op));
      var s2 := Step(s1, Get(c));
      RunCons(s2, Check(c), []);
      RunCons(s1, Get(c), [Check(c)]);
      RunCons(s, Start(c, op), [Get(c), Check(c)]);
      assert Step(s2, Check(c)).calls == s.calls[c := Finished(op, Held(Text(pod), Stamp(ts)))];
      assert [Start(c, op), Get(c), Check(c)] == [Start(c, op)] + [Get(c), Check(c)];
    }
  }

  /**
   The exception in LeaseExclusion happens.  Pod q holds an expired lock; a second acquire by q has
   read it and not yet answered; p takes the lock over; the late answer to q is still "you own it".
   */
  lemma LateReentryIsGranted(ts: int, now: nat)
    requires now - ts > HOUR
    ensures var stale: Annotations := map[LockOwner := Text("q"), LockTimestamp := Stamp(ts)];
      var s := State(now, 0, stale, map[0 := Started(Acquire("q"))]);
      && Inv(s) && Enabled(s, Get(0))
      && Valid(Step(s, Get(0)), SoloAcquire(1, "p"))
      && (var u := Run(Step(s, Get(0)), SoloAcquire(1, "p"));
          && Leased(u.ann, "p", FormatNow(now).ns) && u.clock - FormatNow(now).ns <= HOUR
          && Enabled(u, Check(0)) && Grants(u, Check(0), "q"))
  {
    var stale: Annotations := map[LockOwner := Text("q"), LockTimestamp := Stamp(ts)];
    var s := State(now, 0, stale, map[0 := Started(Acquire("q"))]);
    var s1 := Step(s, Get(0));
    assert PodName("p") == "p" && "p" != "q" && PodName("q") == "q";
    SoloAcquireWrites(s1, 1, "p");
  }

  // ------------------------------------------------------------------------------------------
  // The two lock calls as the controller writes them
  // ------------------------------------------------------------------------------------------

  /** Whether an Update is stored: nothing landed since the Get, and the API server did not reject it. */
  predicate Lands(others: seq<Annotations>, reply: Reply) {
    others == [] && !reply.Rejected?
  }

  /** The history goes on with what others wrote and, if ours landed, with `out`. */
  ghost predicate Wrote(was: seq<Annotations>, others: seq<Annotations>, reply: Reply, out: Annotations,
                        now: seq<Annotations>) {
    now == was + others + if Lands(others, reply) then [out] else []
  }

  /**
   AcquirePVCLock.  `checkedAt` and `builtAt` are its two clock reads, `others` the writes that land
   between its Get and its Update, `reply` how the API server treats the Update: one that is stored
   while its answer is lost leaves the lock to a caller that was told it failed.
   */
  method AcquirePVCLock(pvc: StoredObject<Annotations>, env: string, checkedAt: nat, builtAt: nat,
                        getOk: bool, others: seq<Annotations>, reply: Reply) returns (r: Result)
    requires pvc.Valid()
    modifies pvc
    ensures pvc.Valid()
    ensures !getOk ==> r == Failed && pvc.history == old(pvc.history)
    ensures getOk && Val(old(pvc.value), LockOwner) == Text(PodName(env)) ==>
              r == Granted(Val(old(pvc.value), LockTimestamp), true) && pvc.history == old(pvc.history)
    ensures var owner, stamp := Val(old(pvc.value), LockOwner), Val(old(pvc.value), LockTimestamp);
      && (getOk && owner !in {Text(""), Text(PodName(env))}
          && (stamp == Text("") || (stamp.Stamp? && checkedAt - stamp.ns <= 3600_000_000_000)) ==>
            r == Held(owner, stamp) && pvc.history == old(pvc.history))
      && (getOk && (owner == Text("") || (owner != Text(PodName(env)) && stamp != Text("")
                                          && (stamp.Stamp? ==> checkedAt - stamp.ns > 3600_000_000_000))) ==>
            && Wrote(old(pvc.history), others, reply,
                     old(pvc.value)[LockOwner := Text(PodName(env))][LockTimestamp := FormatNow(builtAt)], pvc.history)
            && r == if Lands(others, reply) && reply.Answered? then Granted(FormatNow(builtAt), false) else Failed)
    ensures getOk && Decide(Acquire(env), old(pvc.value), checkedAt).Some? ==>
              r == Decide(Acquire(env), old(pvc.value), checkedAt).value && pvc.history == old(pvc.history)
    ensures getOk && Decide(Acquire(env), old(pvc.value), checkedAt).None? ==>
              Wrote(old(pvc.history), others, reply, Modify(Acquire(env), old(pvc.value), builtAt), pvc.history)
  {
    if !getOk {
      return Failed;
    }
    var version, ann := pvc.version, pvc.value;
    if Val(ann, LockOwner) != Text("") {
      var podName := env;
      if podName == "" {
        podName := "unknown";
      }
      if Val(ann, LockOwner) == Text(podName) {
        return Granted(Val(ann, LockTimestamp), true);
      }
      if Val(ann, LockTimestamp) != Text("") {
        var lockTime := Val(ann, LockTimestamp);
        if lockTime.Stamp? && !(checkedAt - lockTime.ns > HOUR) {
          return Held(Val(ann, LockOwner), lockTime);
        }
      } else {
        return Held(Val(ann, LockOwner), Text(""));
      }
    }
    var podName := env;
    if podName == "" {
      podName := "unknown";
    }
    ann := ann[LockOwner := Text(podName)];
    ann := ann[LockTimestamp := FormatNow(builtAt)];
    var ok := WriteBack(pvc, version, ann, others, reply);
    if !ok {
      return Failed;
    }
    r := Granted(Val(ann, LockTimestamp), false);
  }

  /** The Update of either call, after what others wrote since the Get; `ok` is what the caller is told. */
  method WriteBack(pvc: StoredObject<Annotations>, version: nat, out: Annotations,
                   others: seq<Annotations>, reply: Reply) returns (ok: bool)
    requires pvc.Valid() && pvc.version == version
    modifies pvc
    ensures pvc.Valid() && Wrote(old(pvc.history), others, reply, out, pvc.history)
    ensures ok == (Lands(others, reply) && reply.Answered?)
  {
    pvc.Interfere(others);
    var current := version == pvc.version;
    if current && !reply.Rejected? {
      pvc.Store(out);
    }
    ok := current && reply.Answered?;
  }

  /** ReleasePVCLock, with the same parameters. */
  method ReleasePVCLock(pvc: StoredObject<Annotations>, env: string, getOk: bool,
                        others: seq<Annotations>, reply: Reply) returns (r: Result)
    requires pvc.Valid()
    modifies pvc
    ensures pvc.Valid()
    ensures !getOk ==> r == Failed && pvc.history == old(pvc.history)
    ensures getOk && Val(old(pvc.value), LockOwner) == Text("") ==> r == NotLocked && pvc.history == old(pvc.history)
    ensures getOk && Val(old(pvc.value), LockOwner) !in {Text(""), Text(PodName(env))} ==>
              r == NotOwner(Val(old(pvc.value), LockOwner)) && pvc.history == old(pvc.history)
    ensures getOk && Val(old(pvc.value), LockOwner) == Text(PodName(env)) ==>
              && Wrote(old(pvc.history), others, reply, old(pvc.value) - {LockOwner, LockTimestamp}, pvc.history)
              && r == if Lands(others, reply) && reply.Answered? then Written else Failed
  {
    if !getOk {
      return Failed;
    }
    var version, ann := pvc.version, pvc.value;
    if Val(ann, LockOwner) == Text("") {
      return NotLocked;
    }
    var podName := env;
    if podName == "" {
      podName := "unknown";
    }
    if Val(ann, LockOwner) != Text(podName) {
      return NotOwner(Val(ann, LockOwner));
    }
    ann := ann - {LockOwner};
    ann := ann - {LockTimestamp};
    assert ann == pvc.value - {LockOwner, LockTimestamp};
    var ok := WriteBack(pvc, version, ann, others, reply);
    r := if ok then Written else Failed;
  }
}
