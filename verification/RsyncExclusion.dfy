/**
 The lock with its clients.  Each pod runs at most one workflow on the PVC at a time: it acquires, works
 if it was let in, which is when its rsync runs, and then releases.  The calls of all pods, and those of the
 other writers, interleave as in PvcLock.
 */
module RsyncExclusion {
  import opened PvcLock

  /** Where the workflow of a pod stands; `c` names its acquire call, `r` its release call. */
  datatype Stage = Acquiring(c: nat) | Working(c: nat) | Releasing(r: nat)

  datatype World = World(store: State, pods: map<string, Stage>)

  datatype Move =
    | Inner(e: Event)             // a step of a call in flight, of another writer, or of the clock
    | Begin(env: string, c: nat)  // calls AcquirePVCLock
    | Enter(pod: string)          // the acquire returned true
    | GiveUp(pod: string)         // it returned false or an error
    | End(pod: string, r: nat)    // calls ReleasePVCLock
    | Done(pod: string)           // the release returned

  predicate IsLockOp(op: Op) {
    op.Acquire? || op.Release?
  }

  function CallOf(stage: Stage): nat {
    if stage.Releasing? then stage.r else stage.c
  }

  predicate Answered(w: World, pod: string) {
    pod in w.pods && CallOf(w.pods[pod]) in w.store.calls && w.store.calls[CallOf(w.pods[pod])].Finished?
  }

  predicate LetIn(call: Call) {
    call.Finished? && call.op.Acquire? && call.result.Granted?
  }

  predicate Possible(w: World, m: Move) {
    if m.Inner? then Enabled(w.store, m.e) && !(m.e.Start? && IsLockOp(m.e.op))
    else if m.Begin? then PodName(m.env) !in w.pods && m.c !in w.store.calls
    else if m.Enter? then Answered(w, m.pod) && w.pods[m.pod].Acquiring? && LetIn(w.store.calls[w.pods[m.pod].c])
    else if m.GiveUp? then Answered(w, m.pod) && w.pods[m.pod].Acquiring? && !LetIn(w.store.calls[w.pods[m.pod].c])
    else if m.End? then
      && m.r !in w.store.calls && Answered(w, m.pod) && w.pods[m.pod].Working?
      && w.store.calls[w.pods[m.pod].c].op.Acquire?
    else Answered(w, m.pod) && w.pods[m.pod].Releasing?
  }

  function Next(w: World, m: Move): World
    requires Possible(w, m)
  {
    if m.Inner? then w.(store := Step(w.store, m.e))
    else if m.Begin? then World(Step(w.store, Start(m.c, Acquire(m.env))), w.pods[PodName(m.env) := Acquiring(m.c)])
    else if m.Enter? then w.(pods := w.pods[m.pod := Working(w.pods[m.pod].c)])
    else if m.End? then
      World(Step(w.store, Start(m.r, Release(w.store.calls[w.pods[m.pod].c].op.env))), w.pods[m.pod := Releasing(m.r)])
    else w.(pods := w.pods - {m.pod})
  }

  /** The pod's acquire wrote the lock and returned true, and the pod has not called release since. */
  predicate Holds(w: World, pod: string) {
    && pod in w.pods && !w.pods[pod].Releasing? && w.pods[pod].c in w.store.calls
    && LetIn(w.store.calls[w.pods[pod].c]) && !w.store.calls[w.pods[pod].c].result.reentry
  }

  function LockTime(w: World, pod: string): Value
    requires Holds(w, pod)
  {
    w.store.calls[w.pods[pod].c].result.stamp
  }

  /** Every pod that holds the lock is within an hour of its timestamp. */
  ghost predicate Timely(w: World) {
    forall pod :: Holds(w, pod) ==> LockTime(w, pod).Stamp? ==> w.store.clock - LockTime(w, pod).ns <= HOUR
  }

  // ------------------------------------------------------------------------------------------
  // What every move keeps
  // ------------------------------------------------------------------------------------------

  /** The stage of a pod fits the call it names. */
  predicate Fits(w: World, pod: string) {
    pod in w.pods ==>
      var c := CallOf(w.pods[pod]);
      && c in w.store.calls && IsLockOp(w.store.calls[c].op) && PodName(w.store.calls[c].op.env) == pod
      && (w.pods[pod].Releasing? <==> w.store.calls[c].op.Release?)
      && (w.pods[pod].Working? ==> LetIn(w.store.calls[c]))
  }

  /** A lock call in flight is the one that its pod's stage names. */
  predicate Owned(w: World, c: nat) {
    c in w.store.calls && IsLockOp(w.store.calls[c].op) && !w.store.calls[c].Finished? ==>
      var pod := PodName(w.store.calls[c].op.env); pod in w.pods && CallOf(w.pods[pod]) == c
  }

  /** What a pod holds is in the store. */
  predicate Stored(w: World, pod: string) {
    Holds(w, pod) ==> LockTime(w, pod).Stamp? && Leased(w.store.ann, pod, LockTime(w, pod).ns)
  }

  ghost predicate Sound(w: World) {
    && Inv(w.store) && (forall pod :: Fits(w, pod)) && (forall c: nat :: Owned(w, c)) && forall pod :: Stored(w, pod)
  }

  /** A step changes the call it names, and leaves its operation as it is. */
  lemma {:induction false} StepKeepsOps(s: State, e: Event, c: nat)
    requires Enabled(s, e) && c in s.calls
    ensures c in Step(s, e).calls && Step(s, e).calls[c].op == s.calls[c].op
    ensures s.calls[c].Finished? ==> Step(s, e).calls[c] == s.calls[c]
    ensures !e.Tick? && !e.Foreign? && c != e.c ==> Step(s, e).calls[c] == s.calls[c]
  {
  }

  lemma {:induction false} StepStartsOne(s: State, e: Event, c: nat)
    requires Enabled(s, e) && c !in s.calls
    ensures c in Step(s, e).calls <==> e.Start? && e.c == c
    ensures c in Step(s, e).calls ==> Step(s, e).calls[c] == Started(e.op)
  {
  }

  /** An acquire that comes to write the lock has written its name and the time it returns. */
  lemma {:induction false} GrantIsStored(s: State, e: Event, c: nat, pod: string)
    requires Inv(s) && Enabled(s, e) && c in s.calls && !s.calls[c].Finished?
    requires s.calls[c].op.Acquire? && PodName(s.calls[c].op.env) == pod
    requires var call := Step(s, e).calls[c]; LetIn(call) && !call.result.reentry
    ensures var stamp := Step(s, e).calls[c].result.stamp; stamp.Stamp? && Leased(Step(s, e).ann, pod, stamp.ns)
  {
    LockChanges(s, e);
    assert CommitsAcquire(s, e, pod);
  }

  lemma {:induction false} InnerKeepsStored(w: World, e: Event, pod: string)
    requires Sound(w) && Timely(w) && Possible(w, Inner(e))
    ensures Stored(Next(w, Inner(e)), pod)
  {
    var v := Next(w, Inner(e));
    assert Fits(w, pod) && Stored(w, pod);
    if Holds(v, pod) {
      var c := w.pods[pod].c;
      StepKeepsOps(w.store, e, c);
      if Holds(w, pod) {
        NoReleaseInFlight(w, e, pod);
        StepKeepsLease(w.store, e, pod, LockTime(w, pod).ns);
      } else {
        GrantIsStored(w.store, e, c, pod);
      }
    }
  }

  lemma {:induction false} NoReleaseInFlight(w: World, e: Event, pod: string)
    requires Sound(w) && Holds(w, pod) && Enabled(w.store, e)
    ensures !CommitsRelease(w.store, e, pod) && pod != ""
  {
    assert Fits(w, pod);
    if e.Commit? {
      assert Owned(w, e.c);
    }
  }

  lemma {:induction false} InnerKeepsSound(w: World, e: Event)
    requires Sound(w) && Timely(w) && Possible(w, Inner(e))
    ensures Sound(Next(w, Inner(e)))
  {
    var v := Next(w, Inner(e));
    StepKeepsInv(w.store, e);
    forall pod ensures Fits(v, pod) {
      assert Fits(w, pod);
      if pod in w.pods {
        StepKeepsOps(w.store, e, CallOf(w.pods[pod]));
      }
    }
    forall c: nat ensures Owned(v, c) {
      assert Owned(w, c);
      if c in w.store.calls {
        StepKeepsOps(w.store, e, c);
      } else {
        StepStartsOne(w.store, e, c);
      }
    }
    forall pod ensures Stored(v, pod) {
      InnerKeepsStored(w, e, pod);
    }
  }

  lemma {:induction false} MoveKeepsSound(w: World, m: Move)
    requires Sound(w) && Timely(w) && Possible(w, m)
    ensures Sound(Next(w, m))
  {
    var v := Next(w, m);
    if m.Inner? {
      InnerKeepsSound(w, m.e);
    } else {
      forall pod ensures Fits(v, pod) && Stored(v, pod) {
        assert Fits(w, pod) && Stored(w, pod);
      }
      forall c: nat ensures Owned(v, c) {
        assert Owned(w, c);
        if m.End? {
          assert Fits(w, m.pod);
        }
      }
    }
  }

  // ------------------------------------------------------------------------------------------
  // Whole runs
  // ------------------------------------------------------------------------------------------

  /** A run in which every pod that holds the lock gives it back within an hour of its timestamp. */
  ghost predicate TimelyRun(w: World, ms: seq<Move>)
    decreases |ms|
  {
    Timely(w) && (ms == [] || (Possible(w, ms[0]) && TimelyRun(Next(w, ms[0]), ms[1..])))
  }

  function After(w: World, ms: seq<Move>): World
    requires TimelyRun(w, ms)
    decreases |ms|
  {
    if ms == [] then w else After(Next(w, ms[0]), ms[1..])
  }

  lemma {:induction false} RunKeepsSound(w: World, ms: seq<Move>)
    requires Sound(w) && TimelyRun(w, ms)
    ensures Sound(After(w, ms))
    decreases |ms|
  {
    if ms != [] {
      MoveKeepsSound(w, ms[0]);
      RunKeepsSound(Next(w, ms[0]), ms[1..]);
    }
  }

  predicate AtWork(w: World, pod: string) {
    pod in w.pods && w.pods[pod].Working?
  }

  /** The pod was let in because the annotations it had read named it as the owner. */
  predicate ByReentry(w: World, pod: string) {
    && pod in w.pods && CallOf(w.pods[pod]) in w.store.calls
    && LetIn(w.store.calls[CallOf(w.pods[pod])]) && w.store.calls[CallOf(w.pods[pod])].result.reentry
  }

  /**
   Mutual exclusion of the workflows: from any store, with no workflow on the way, and in every run in which
   each workflow that wrote the lock is done within an hour of its timestamp, two workflows of different
   pods are never both at work, unless one of them was let in by re-entry; and as long as one that wrote
   the lock is at work, its lock is in the store.
   */
  lemma {:induction false} WorkflowsExclude(s: State, ms: seq<Move>, p: string, q: string)
    requires s.calls == map[] && TimelyRun(World(s, map[]), ms) && p != q
    ensures var w := After(World(s, map[]), ms);
      && (AtWork(w, p) && AtWork(w, q) ==> ByReentry(w, p) || ByReentry(w, q))
      && (AtWork(w, p) && !ByReentry(w, p) ==>
            Holds(w, p) && LockTime(w, p).Stamp? && Leased(w.store.ann, p, LockTime(w, p).ns))
  {
    var w := World(s, map[]);
    assert Sound(w);
    RunKeepsSound(w, ms);
    var v := After(w, ms);
    assert Stored(v, p) && Stored(v, q) && Fits(v, p) && Fits(v, q);
  }

  /** While one pod holds the lock, another is let in only by re-entry on annotations that it read before. */
  lemma {:induction false} OnlyLateReentry(w: World, e: Event, p: string, q: string)
    requires Sound(w) && Timely(w) && Possible(w, Inner(e)) && Holds(w, p) && p != q
    requires q in w.pods && w.pods[q].Acquiring? && w.pods[q].c in w.store.calls && !LetIn(w.store.calls[w.pods[q].c])
    requires LetIn(Step(w.store, e).calls[w.pods[q].c])
    ensures var call := w.store.calls[w.pods[q].c];
      e == Check(w.pods[q].c) && call.version < w.store.version && Val(call.snap, LockOwner) == Text(q)
  {
    var c := w.pods[q].c;
    assert Fits(w, p) && Fits(w, q) && Stored(w, p) && CallInv(w.store, w.store.calls[c]);
    assert w.store.clock - LockTime(w, p).ns <= HOUR;
    StepKeepsOps(w.store, e, c);
    LockChanges(w.store, e);
  }

  /**
   One workflow for each pod name is needed: controllers that share a name, as all do without POD_NAME, are
   let in together.
   */
  lemma {:induction false} SharedNameLetsBothIn(s: State, env: string) returns (es: seq<Event>)
    requires 1 !in s.calls && 2 !in s.calls && Decide(Acquire(env), s.ann, s.clock).None?
    ensures Valid(s, es)
    ensures var t := Run(s, es);
      && 1 in t.calls && LetIn(t.calls[1]) && PodName(t.calls[1].op.env) == PodName(env)
      && 2 in t.calls && LetIn(t.calls[2]) && PodName(t.calls[2].op.env) == PodName(env)
  {
    var again := [Start(2, Acquire(env)), Get(2), Check(2)];
    SoloAcquireWrites(s, 1, env);
    var t := Run(s, SoloAcquire(1, env));
    var t1 := Step(t, Start(2, Acquire(env)));
    var t2 := Step(t1, Get(2));
    var t3 := Step(t2, Check(2));
    RunCons(t2, Check(2), []);
    RunCons(t1, Get(2), [Check(2)]);
    RunCons(t, Start(2, Acquire(env)), [Get(2), Check(2)]);
    assert again == [Start(2, Acquire(env))] + [Get(2), Check(2)];
    es := SoloAcquire(1, env) + again;
    RunJoins(s, SoloAcquire(1, env), again);
    assert Run(t, again) == t3;
  }
}
