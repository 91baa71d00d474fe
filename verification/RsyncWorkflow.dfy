/**
 The two rsync workflows: which steps they attempt, and how acquire/release, obtain/clean up and
 create/delete of placeholder pods pair up on every early exit.  Each foreign call is an outcome
 given by an oracle `ok`; a panic is not modelled.
 */
module RsyncWorkflow {
  import opened Options

  /** Steps that only matter by succeeding or failing. */
  datatype Task =
    | NewManager | CleanupExisting                                    // Deployment mode
    | DaemonSetGiven | DeployDaemonSet                                 // DaemonSet mode
    | GenerateKeys | GetPublicKey | CheckMounted | Mounted | FindNode | FindAgent
    | FindMountPath | PushKey | TestSsh
    | FindDestNode | GetDaemonSet | AnyReady | ListPods | AnyRunning | FindPodOnNode   // inside FindPod
    | FindCsiPath | CreatePlaceholder | AwaitPlaceholder | GetPlaceholder | FindCsiPathAgain

  /** Obtain is getting the pod that runs rsync: deployRsyncPod or findRsyncDaemonSetPod. */
  datatype Step = Obtain | Rsync | WriteCompletion | Do(task: Task)

  datatype LockAnswer = Refused | Broken | Taken

  datatype Event =
    | Locked(answer: LockAnswer)
    | Tried(step: Step, ok: bool)
    | Created(pod: string)   // a placeholder pod was created under this name
    | Deleted(pod: string)   // the deletion of a pod of this name was requested
    | Cleaned                // cleanup of the pod handle
    | Released               // ReleasePVCLock was called

  // ------------------------------------------------------------------------------------------
  // What a well-bracketed trace is
  // ------------------------------------------------------------------------------------------

  datatype Monitor = Fresh | Holding | WithPod(synced: bool) | PodGone | Closed | Broke

  function Observe(m: Monitor, e: Event): Monitor {
    match m
    case Fresh => if e == Locked(Taken) then Holding else if e.Locked? then Closed else Broke
    case Holding =>
      if e.Released? then Closed
      else if e.Locked? || e.Cleaned? then Broke
      else if e == Tried(Obtain, true) then WithPod(false)
      else if e.Tried? && (e.step.Rsync? || e.step.WriteCompletion?) then Broke
      else Holding
    case WithPod(synced) =>
      if e.Cleaned? then PodGone
      else if e.Locked? || e.Released? || (e.Tried? && e.step.Obtain?) then Broke
      else if e.Tried? && e.step.Rsync? then WithPod(e.ok)
      else if e.Tried? && e.step.WriteCompletion? && !synced then Broke
      else m
    case PodGone => if e.Deleted? then m else if e.Released? then Closed else Broke
    case Closed => Broke
    case Broke => Broke
  }

  function ObserveAll(m: Monitor, tr: seq<Event>): Monitor
    decreases |tr|
  {
    if tr == [] then m else ObserveAll(Observe(m, tr[0]), tr[1..])
  }

  predicate Bracketed(tr: seq<Event>) {
    ObserveAll(Fresh, tr) == Closed
  }

  function Count(e: Event, tr: seq<Event>): nat {
    multiset(tr)[e]
  }

  lemma {:induction false} BrokeStays(tr: seq<Event>)
    ensures ObserveAll(Broke, tr) == Broke
    decreases |tr|
  {
    if tr != [] {
      BrokeStays(tr[1..]);
    }
  }

  lemma {:induction false} ClosedIsEnd(tr: seq<Event>)
    requires ObserveAll(Closed, tr) == Closed
    ensures tr == []
  {
    if tr != [] {
      BrokeStays(tr[1..]);
    }
  }

  lemma {:induction false} CountCons(e: Event, tr: seq<Event>)
    requires tr != []
    ensures Count(e, tr) == (if tr[0] == e then 1 else 0) + Count(e, tr[1..])
  {
    assert tr == [tr[0]] + tr[1..];
  }

  /** What is still owed in each monitor state, for the rest of an accepted trace. */
  lemma {:induction false} Owed(m: Monitor, tr: seq<Event>)
    requires m != Fresh && ObserveAll(m, tr) == Closed
    ensures if m.Closed? then tr == [] else tr != [] && tr[|tr| - 1] == Released
    ensures Count(Released, tr) == if m.Closed? then 0 else 1
    ensures Count(Locked(Taken), tr) == 0
    ensures m.WithPod? ==> Count(Cleaned, tr) == 1
    ensures m.PodGone? ==> Count(Cleaned, tr) == 0
    ensures m.Holding? ==> Count(Cleaned, tr) == Count(Tried(Obtain, true), tr) <= 1
    ensures !m.Holding? ==> Count(Tried(Obtain, true), tr) == 0
    decreases |tr|
  {
    if m == Closed {
      ClosedIsEnd(tr);
    } else {
      if Observe(m, tr[0]) == Broke { BrokeStays(tr[1..]); }
      CountCons(Released, tr);
      CountCons(Locked(Taken), tr);
      CountCons(Cleaned, tr);
      CountCons(Tried(Obtain, true), tr);
      Owed(Observe(m, tr[0]), tr[1..]);
    }
  }

  /** Rsync and the completion write happen with the handle there, and completion after a good rsync. */
  lemma {:induction false} WorkNeedsPod(m: Monitor, tr: seq<Event>, i: nat)
    requires ObserveAll(m, tr) == Closed && i < |tr|
    requires tr[i].Tried? && (tr[i].step.Rsync? || tr[i].step.WriteCompletion?)
    ensures m.WithPod? || Tried(Obtain, true) in tr[..i]
    ensures tr[i].step.WriteCompletion? ==> m == WithPod(true) || Tried(Rsync, true) in tr[..i]
    ensures Cleaned in tr[i + 1..]
    decreases |tr|
  {
    if Observe(m, tr[0]) == Broke { BrokeStays(tr[1..]); }
    if i == 0 {
      Owed(Observe(m, tr[0]), tr[1..]);
      assert Cleaned in multiset(tr[1..]);
    } else {
      WorkNeedsPod(Observe(m, tr[0]), tr[1..], i - 1);
      assert tr[..i] == [tr[0]] + tr[1..][..i - 1];
      assert tr[1..][i..] == tr[i + 1..];
    }
  }

  /**
   What bracketing promises: the lock is released exactly once iff it was taken, as the last action;
   the handle is cleaned up exactly once iff it was obtained; rsync runs strictly between taking and
   releasing the lock, with the handle obtained before and cleaned up after; completion is written
   only after a successful rsync.
   */
  lemma {:induction false} BracketedMeans(tr: seq<Event>)
    requires Bracketed(tr)
    ensures tr != [] && Count(Released, tr) == Count(Locked(Taken), tr) <= 1
    ensures Count(Locked(Taken), tr) == 1 ==> tr[0] == Locked(Taken) && tr[|tr| - 1] == Released
    ensures Count(Cleaned, tr) == Count(Tried(Obtain, true), tr) <= Count(Locked(Taken), tr)
    ensures forall i :: 0 <= i < |tr| && tr[i].Tried? && (tr[i].step.Rsync? || tr[i].step.WriteCompletion?) ==>
              && tr[0] == Locked(Taken) && tr[|tr| - 1] == Released && 0 < i < |tr| - 1
              && Tried(Obtain, true) in tr[..i] && Cleaned in tr[i + 1..]
              && (tr[i].step.WriteCompletion? ==> Tried(Rsync, true) in tr[..i])
  {
    if Observe(Fresh, tr[0]) == Broke { BrokeStays(tr[1..]); }
    CountCons(Released, tr);
    CountCons(Locked(Taken), tr);
    CountCons(Cleaned, tr);
    CountCons(Tried(Obtain, true), tr);
    Owed(Observe(Fresh, tr[0]), tr[1..]);
    forall i | 0 <= i < |tr| && tr[i].Tried? && (tr[i].step.Rsync? || tr[i].step.WriteCompletion?)
      ensures Tried(Obtain, true) in tr[..i] && Cleaned in tr[i + 1..]
      ensures tr[i].step.WriteCompletion? ==> Tried(Rsync, true) in tr[..i]
    {
      WorkNeedsPod(Fresh, tr, i);
    }
  }

  // ------------------------------------------------------------------------------------------
  // Which steps a workflow attempts
  // ------------------------------------------------------------------------------------------

  datatype Program = End | Then(step: Step, rest: Program)

  /** Plain steps, one after the other, and then `p`. */
  function Doing(tasks: seq<Task>, p: Program): Program
    decreases |tasks|
  {
    if tasks == [] then p else Then(Do(tasks[0]), Doing(tasks[1..], p))
  }

  function Workflow(before: seq<Task>, after: seq<Task>): Program {
    Doing(before, Then(Obtain, Doing(after, Then(Rsync, Then(WriteCompletion, End)))))
  }

  /** Both workflows go on alike; pods of the DaemonSet always carry cached keys. */
  predicate GoesOnWith(after: seq<Task>) {
    && |after| == 9
    && after[0] == GenerateKeys && after[1] == GetPublicKey && after[2] == CheckMounted && after[3] == Mounted
    && after[4] == FindNode && after[5] == FindAgent && after[6] == FindMountPath
    && after[7] == PushKey && after[8] == TestSsh
  }

  /** What either workflow does before it obtains the pod. */
  const DEPLOYMENT_START: seq<Task> := [NewManager, CleanupExisting]
  const DAEMON_SET_START: seq<Task> := [DaemonSetGiven, DeployDaemonSet]
  const COMMON_STEPS: seq<Task> :=
    [GenerateKeys, GetPublicKey, CheckMounted, Mounted, FindNode, FindAgent, FindMountPath, PushKey, TestSsh]

  ghost function DeploymentProgram(): Program {
    Workflow(DEPLOYMENT_START, COMMON_STEPS)
  }

  ghost function DaemonSetProgram(): Program {
    Workflow(DAEMON_SET_START, COMMON_STEPS)
  }

  /** The world a workflow meets: how each step ends, and what happens inside Obtain before it ends. */
  datatype World = World(cachedKeys: bool, ok: Step -> bool, inner: seq<Event>)

  /** With cached keys nothing is generated, read back or pushed. */
  predicate Skipped(s: Step, w: World) {
    w.cachedKeys && (s == Do(GenerateKeys) || s == Do(GetPublicKey) || s == Do(PushKey))
  }

  /** The one step whose failure is only logged. */
  predicate GoesOn(s: Step, w: World) {
    w.ok(s) || s == Do(CleanupExisting)
  }

  function Inner(s: Step, w: World): seq<Event> {
    if s.Obtain? then w.inner else []
  }

  /** The steps in order, up to and including the first that fails. */
  function Attempt(p: Program, w: World): seq<Event> {
    match p
    case End => []
    case Then(s, rest) =>
      if Skipped(s, w) then Attempt(rest, w)
      else Inner(s, w) + [Tried(s, w.ok(s))] + if GoesOn(s, w) then Attempt(rest, w) else []
  }

  /** What every exit does once the lock is held; for a DaemonSet pod, cleanup deletes the placeholder. */
  function Ending(hasPod: bool, placeholder: Option<string>): seq<Event> {
    (if hasPod then Clean(placeholder) else []) + [Released]
  }

  function Clean(placeholder: Option<string>): seq<Event> {
    [Cleaned] + if placeholder.Some? then [Deleted(placeholder.value)] else []
  }

  predicate Obtained(done: seq<Event>) {
    Tried(Obtain, true) in done
  }

  /** The whole trace of a workflow that got the lock. */
  function Expected(p: Program, w: World, placeholder: Option<string>): seq<Event> {
    var done := Attempt(p, w);
    [Locked(Taken)] + (done + Ending(Obtained(done), placeholder))
  }

  /** The whole trace of a workflow. */
  function TraceOf(answer: LockAnswer, p: Program, w: World, placeholder: Option<string>): seq<Event> {
    if answer.Taken? then Expected(p, w, placeholder) else [Locked(answer)]
  }

  /** The last step failed and the failure is returned as an error; an unmounted PVC is a skip. */
  predicate Errs(done: seq<Event>) {
    done != [] && (var e := done[|done| - 1]; e.Tried? && !e.ok && e.step != Do(Mounted))
  }

  // ------------------------------------------------------------------------------------------
  // Every attempt is well bracketed
  // ------------------------------------------------------------------------------------------

  predicate Open(m: Monitor) {
    m.Holding? || m.WithPod?
  }

  /** A program that may be started in monitor state `m` and cut short after any step. */
  predicate Ordered(m: Monitor, p: Program)
    decreases p
  {
    match p
    case End => true
    case Then(s, rest) =>
      var yes, no := Observe(m, Tried(s, true)), Observe(m, Tried(s, false));
      && Open(yes) && Open(no)
      && (s.Do? ==> yes == no == m)
      && yes.WithPod? == (m.WithPod? || s.Obtain?) && no.WithPod? == m.WithPod?
      && Ordered(yes, rest)
  }

  /** What happens inside a step leaves the bracketing alone. */
  predicate Quiet(xs: seq<Event>) {
    forall e :: e in xs ==> e.Created? || e.Deleted? || (e.Tried? && e.step.Do?)
  }

  lemma {:induction false} ObserveSplits(m: Monitor, xs: seq<Event>, ys: seq<Event>)
    ensures ObserveAll(m, xs + ys) == ObserveAll(ObserveAll(m, xs), ys)
    decreases |xs|
  {
    if xs == [] {
      assert xs + ys == ys;
    } else {
      assert (xs + ys)[1..] == xs[1..] + ys;
      ObserveSplits(Observe(m, xs[0]), xs[1..], ys);
    }
  }

  lemma {:induction false} QuietStays(m: Monitor, xs: seq<Event>)
    requires Open(m) && Quiet(xs)
    ensures ObserveAll(m, xs) == m
    decreases |xs|
  {
    if xs != [] {
      assert xs[0] in xs;
      QuietStays(m, xs[1..]);
    }
  }

  lemma {:induction false} ObserveOne(m: Monitor, e: Event)
    ensures ObserveAll(m, [e]) == Observe(m, e)
  {
    assert ObserveAll(Observe(m, e), [e][1..]) == Observe(m, e);
  }

  lemma {:induction false} AttemptStaysOpen(m: Monitor, p: Program, w: World)
    requires Open(m) && Ordered(m, p) && Quiet(w.inner)
    ensures var m' := ObserveAll(m, Attempt(p, w));
      Open(m') && (m'.WithPod? <==> m.WithPod? || Obtained(Attempt(p, w)))
    decreases p
  {
    if p.Then? {
      var s := p.step;
      if Skipped(s, w) {
        AttemptStaysOpen(m, p.rest, w);
      } else {
        var e := Tried(s, w.ok(s));
        var rest := if GoesOn(s, w) then Attempt(p.rest, w) else [];
        ObserveSplits(m, Inner(s, w) + [e], rest);
        ObserveSplits(m, Inner(s, w), [e]);
        QuietStays(m, Inner(s, w));
        ObserveOne(m, e);
        if GoesOn(s, w) {
          AttemptStaysOpen(Observe(m, e), p.rest, w);
        }
        assert Obtained(Inner(s, w) + [e] + rest) <==> e == Tried(Obtain, true) || Obtained(rest);
      }
    }
  }

  /** Plain steps go in front of an ordered program. */
  lemma {:induction false} DoFirst(m: Monitor, tasks: seq<Task>, p: Program)
    requires Open(m) && Ordered(m, p)
    ensures Ordered(m, Doing(tasks, p))
    decreases |tasks|
  {
    if tasks != [] {
      DoFirst(m, tasks[1..], p);
    }
  }

  /** Whatever comes before Obtain, the common steps after it keep the order. */
  lemma {:induction false} WorkflowIsOrdered(before: seq<Task>, after: seq<Task>)
    ensures Ordered(Holding, Workflow(before, after))
  {
    assert Ordered(WithPod(true), Then(WriteCompletion, End));
    assert Ordered(WithPod(false), Then(Rsync, Then(WriteCompletion, End)));
    DoFirst(WithPod(false), after, Then(Rsync, Then(WriteCompletion, End)));
    DoFirst(Holding, before, Then(Obtain, Doing(after, Then(Rsync, Then(WriteCompletion, End)))));
  }

  /**
   Whatever the answer to the lock and whatever the outcomes, the trace of every workflow of this
   form is well bracketed; in particular, those of both modes.
   */
  lemma {:induction false} EveryRunIsBracketed(answer: LockAnswer, before: seq<Task>, after: seq<Task>, w: World,
                                               placeholder: Option<string>)
    requires Quiet(w.inner)
    ensures Bracketed(TraceOf(answer, Workflow(before, after), w, placeholder))
  {
    ObserveOne(Fresh, Locked(answer));
    if answer.Taken? {
      WorkflowIsOrdered(before, after);
      ExpectedIsBracketed(Workflow(before, after), w, placeholder);
    }
  }

  lemma {:induction false} ExpectedIsBracketed(p: Program, w: World, placeholder: Option<string>)
    requires Ordered(Holding, p) && Quiet(w.inner)
    ensures Bracketed(Expected(p, w, placeholder))
  {
    var done := Attempt(p, w);
    AttemptStaysOpen(Holding, p, w);
    ObserveOne(Fresh, Locked(Taken));
    ObserveSplits(Fresh, [Locked(Taken)], done + Ending(Obtained(done), placeholder));
    ObserveSplits(Holding, done, Ending(Obtained(done), placeholder));
    EndingCloses(ObserveAll(Holding, done), placeholder);
  }

  lemma {:induction false} EndingCloses(m: Monitor, placeholder: Option<string>)
    requires Open(m)
    ensures ObserveAll(m, Ending(m.WithPod?, placeholder)) == Closed
  {
    if m.WithPod? {
      var tail := if placeholder.Some? then [Deleted(placeholder.value)] else [];
      ObserveOne(m, Cleaned);
      ObserveSplits(m, [Cleaned], tail);
      if placeholder.Some? { ObserveOne(PodGone, tail[0]); }
      ObserveSplits(m, Clean(placeholder), [Released]);
      ObserveOne(PodGone, Released);
    } else {
      assert [] + [Released] == [Released];
      ObserveOne(m, Released);
    }
  }

  // ------------------------------------------------------------------------------------------
  // The workflows themselves
  // ------------------------------------------------------------------------------------------

  /** What an attempt at one step records, if `rest` is what an attempt at the remaining steps records. */
  function Before(s: Step, w: World, rest: seq<Event>): seq<Event> {
    if Skipped(s, w) then rest else Inner(s, w) + [Tried(s, w.ok(s))] + if GoesOn(s, w) then rest else []
  }

  /** Attempts at the common steps from number 0, 1, ... 9 on. */
  predicate Tails(tails: seq<seq<Event>>, w: World) {
    && |tails| == 10
    && tails[0] == Before(Do(GenerateKeys), w, tails[1])
    && tails[1] == Before(Do(GetPublicKey), w, tails[2])
    && tails[2] == Before(Do(CheckMounted), w, tails[3])
    && tails[3] == Before(Do(Mounted), w, tails[4])
    && tails[4] == Before(Do(FindNode), w, tails[5])
    && tails[5] == Before(Do(FindAgent), w, tails[6])
    && tails[6] == Before(Do(FindMountPath), w, tails[7])
    && tails[7] == Before(Do(PushKey), w, tails[8])
    && tails[8] == Before(Do(TestSsh), w, tails[9])
    && tails[9] == Before(Rsync, w, Before(WriteCompletion, w, []))
  }

  lemma {:induction false} SuffixesOf(tasks: seq<Task>, p: Program, w: World) returns (tails: seq<seq<Event>>)
    ensures |tails| == |tasks| + 1 && tails[|tasks|] == Attempt(p, w) && tails[0] == Attempt(Doing(tasks, p), w)
    ensures forall i :: 0 <= i < |tasks| ==> tails[i] == Before(Do(tasks[i]), w, tails[i + 1])
    decreases |tasks|
  {
    if tasks == [] {
      tails := [Attempt(p, w)];
    } else {
      var more := SuffixesOf(tasks[1..], p, w);
      tails := [Attempt(Doing(tasks, p), w)] + more;
    }
  }

  // What the attempts come to, step by step.

  /** Neither rsync nor the completion annotations are attempted. */
  predicate NoSync(tr: seq<Event>) {
    forall e :: e in tr ==> e.Tried? ==> !e.step.Rsync? && !e.step.WriteCompletion?
  }

  function Ok(s: Step): Event {
    Tried(s, true)
  }

  /** Rsync, and the completion if it succeeded. */
  function Synced(w: World): seq<Event> {
    [Tried(Rsync, w.ok(Rsync))] + if w.ok(Rsync) then [Tried(WriteCompletion, w.ok(WriteCompletion))] else []
  }

  /** A tail is `full` if it gets as far as rsync, and has no sync in it if not; `errs` tells of an error at its end. */
  predicate Comes(tail: seq<Event>, reached: bool, full: seq<Event>, errs: bool) {
    tail != [] && (if reached then tail == full else NoSync(tail)) && Errs(tail) == errs
  }

  lemma {:induction false} StepComes(s: Step, w: World, rest: seq<Event>, reached: bool, full: seq<Event>, errs: bool)
    requires Comes(rest, reached, full, errs) && Inner(s, w) == [] && s.Do? && s != Do(CleanupExisting)
    ensures Skipped(s, w) ==> Comes(Before(s, w, rest), reached, full, errs)
    ensures !Skipped(s, w) ==>
      Comes(Before(s, w, rest), w.ok(s) && reached, [Ok(s)] + full, if w.ok(s) then errs else s != Do(Mounted))
  {
    if !Skipped(s, w) {
      if w.ok(s) {
        assert Before(s, w, rest) == [Ok(s)] + rest;
      } else {
        assert Before(s, w, rest) == [Tried(s, false)];
      }
    }
  }

  lemma {:induction false} Five(a: Event, b: Event, c: Event, d: Event, e: Event, x: seq<Event>)
    ensures [a] + ([b] + ([c] + ([d] + ([e] + x)))) == [a, b, c, d, e] + x
  {
  }

  lemma {:induction false} Two(a: Event, b: Event, x: seq<Event>)
    ensures [a] + ([b] + x) == [a, b] + x
  {
  }

  /** Obtaining the pod, with what happens inside that step. */
  lemma {:induction false} ObtainComes(w: World, rest: seq<Event>, reached: bool, full: seq<Event>, errs: bool)
    requires Comes(rest, reached, full, errs) && Quiet(w.inner)
    ensures Comes(Before(Obtain, w, rest), w.ok(Obtain) && reached, w.inner + ([Ok(Obtain)] + full),
                  w.ok(Obtain) ==> errs)
  {
    assert NoSync(w.inner + [Tried(Obtain, w.ok(Obtain))]);
    if w.ok(Obtain) {
      assert Before(Obtain, w, rest) == w.inner + ([Ok(Obtain)] + rest);
    } else {
      assert Before(Obtain, w, rest) == w.inner + [Tried(Obtain, false)];
    }
  }

  /** The one step whose failure does not count. */
  lemma {:induction false} CleanupComes(w: World, rest: seq<Event>, reached: bool, full: seq<Event>, errs: bool)
    requires Comes(rest, reached, full, errs)
    ensures Comes(Before(Do(CleanupExisting), w, rest), reached,
                  [Tried(Do(CleanupExisting), w.ok(Do(CleanupExisting)))] + full, errs)
  {
    assert Before(Do(CleanupExisting), w, rest) == [Tried(Do(CleanupExisting), w.ok(Do(CleanupExisting)))] + rest;
  }

  lemma {:induction false} SyncedComes(w: World, x: seq<Event>)
    requires x == Before(Rsync, w, Before(WriteCompletion, w, []))
    ensures Comes(x, true, Synced(w), !(w.ok(Rsync) && w.ok(WriteCompletion)))
  {
    assert x == Synced(w);
  }

  lemma {:induction false} TransferTail(tails: seq<seq<Event>>, w: World) returns (full: seq<Event>)
    requires Tails(tails, w)
    ensures full == (if w.cachedKeys then [] else [Ok(Do(PushKey))]) + ([Ok(Do(TestSsh))] + Synced(w))
    ensures var reached := w.ok(Do(TestSsh)) && (w.cachedKeys || w.ok(Do(PushKey)));
      Comes(tails[7], reached, full, !(reached && w.ok(Rsync) && w.ok(WriteCompletion)))
  {
    var errs := !(w.ok(Rsync) && w.ok(WriteCompletion));
    SyncedComes(w, tails[9]);
    StepComes(Do(TestSsh), w, tails[9], true, Synced(w), errs);
    full := [Ok(Do(TestSsh))] + Synced(w);
    StepComes(Do(PushKey), w, tails[8], w.ok(Do(TestSsh)), full, if w.ok(Do(TestSsh)) then errs else true);
    full := (if w.cachedKeys then [] else [Ok(Do(PushKey))]) + full;
  }

  lemma {:induction false} LocateTail(tails: seq<seq<Event>>, w: World, reached: bool, full: seq<Event>, errs: bool)
    requires Tails(tails, w) && Comes(tails[7], reached, full, errs)
    ensures var all := w.ok(Do(CheckMounted)) && w.ok(Do(Mounted)) && w.ok(Do(FindNode)) && w.ok(Do(FindAgent))
                       && w.ok(Do(FindMountPath));
      Comes(tails[2], all && reached,
            [Ok(Do(CheckMounted)), Ok(Do(Mounted)), Ok(Do(FindNode)), Ok(Do(FindAgent)), Ok(Do(FindMountPath))] + full,
            if all then errs else !(w.ok(Do(CheckMounted)) && !w.ok(Do(Mounted))))
  {
    var path, agent, node, mounted :=
      w.ok(Do(FindMountPath)), w.ok(Do(FindAgent)), w.ok(Do(FindNode)), w.ok(Do(Mounted));
    var f6 := [Ok(Do(FindMountPath))] + full;
    StepComes(Do(FindMountPath), w, tails[7], reached, full, errs);
    var e6 := if path then errs else true;
    var f5 := [Ok(Do(FindAgent))] + f6;
    StepComes(Do(FindAgent), w, tails[6], path && reached, f6, e6);
    var e5 := if agent then e6 else true;
    var f4 := [Ok(Do(FindNode))] + f5;
    StepComes(Do(FindNode), w, tails[5], agent && path && reached, f5, e5);
    var e4 := if node then e5 else true;
    var f3 := [Ok(Do(Mounted))] + f4;
    StepComes(Do(Mounted), w, tails[4], node && agent && path && reached, f4, e4);
    var e3 := if mounted then e4 else false;
    StepComes(Do(CheckMounted), w, tails[3], mounted && node && agent && path && reached, f3, e3);
    Five(Ok(Do(CheckMounted)), Ok(Do(Mounted)), Ok(Do(FindNode)), Ok(Do(FindAgent)), Ok(Do(FindMountPath)), full);
  }

  lemma {:induction false} KeysTail(tails: seq<seq<Event>>, w: World, reached: bool, full: seq<Event>, errs: bool)
    requires Tails(tails, w) && Comes(tails[2], reached, full, errs)
    ensures var keys := if w.cachedKeys then [] else [Ok(Do(GenerateKeys)), Ok(Do(GetPublicKey))];
      var all := w.cachedKeys || (w.ok(Do(GenerateKeys)) && w.ok(Do(GetPublicKey)));
      Comes(tails[0], all && reached, keys + full, all ==> errs)
  {
    StepComes(Do(GetPublicKey), w, tails[2], reached, full, errs);
    if w.cachedKeys {
      StepComes(Do(GenerateKeys), w, tails[1], reached, full, errs);
      assert [] + full == full;
    } else {
      var got := w.ok(Do(GetPublicKey));
      StepComes(Do(GenerateKeys), w, tails[1], got && reached, [Ok(Do(GetPublicKey))] + full, got ==> errs);
      Two(Ok(Do(GenerateKeys)), Ok(Do(GetPublicKey)), full);
    }
  }

  /** What is attempted once the pod is there, if rsync is reached. */
  function Common(w: World): seq<Event> {
    (if w.cachedKeys then [] else [Ok(Do(GenerateKeys)), Ok(Do(GetPublicKey))])
    + ([Ok(Do(CheckMounted)), Ok(Do(Mounted)), Ok(Do(FindNode)), Ok(Do(FindAgent)), Ok(Do(FindMountPath))]
       + ((if w.cachedKeys then [] else [Ok(Do(PushKey))]) + ([Ok(Do(TestSsh))] + Synced(w))))
  }

  /** What the common steps need to get to rsync. */
  predicate Passes(w: World) {
    && (w.cachedKeys || (w.ok(Do(GenerateKeys)) && w.ok(Do(GetPublicKey)) && w.ok(Do(PushKey))))
    && w.ok(Do(CheckMounted)) && w.ok(Do(Mounted)) && w.ok(Do(FindNode)) && w.ok(Do(FindAgent))
    && w.ok(Do(FindMountPath)) && w.ok(Do(TestSsh))
  }

  /** The source PVC turned out not to be mounted, which is no error. */
  predicate Unmounted(w: World) {
    && (w.cachedKeys || (w.ok(Do(GenerateKeys)) && w.ok(Do(GetPublicKey))))
    && w.ok(Do(CheckMounted)) && !w.ok(Do(Mounted))
  }

  predicate CommonErrs(w: World) {
    !(Passes(w) && w.ok(Rsync) && w.ok(WriteCompletion)) && !Unmounted(w)
  }

  /** Everything after the pod handle is obtained: what it needs to get to rsync, and what is attempted then. */
  lemma {:induction false} CommonTail(tails: seq<seq<Event>>, w: World)
    requires Tails(tails, w)
    ensures Comes(tails[0], Passes(w), Common(w), CommonErrs(w))
  {
    var full := TransferTail(tails, w);
    var transferred := w.ok(Do(TestSsh)) && (w.cachedKeys || w.ok(Do(PushKey)));
    var errs := !(transferred && w.ok(Rsync) && w.ok(WriteCompletion));
    LocateTail(tails, w, transferred, full, errs);
    var located := w.ok(Do(CheckMounted)) && w.ok(Do(Mounted)) && w.ok(Do(FindNode)) && w.ok(Do(FindAgent))
                   && w.ok(Do(FindMountPath));
    KeysTail(tails, w, located && transferred,
             [Ok(Do(CheckMounted)), Ok(Do(Mounted)), Ok(Do(FindNode)), Ok(Do(FindAgent)), Ok(Do(FindMountPath))] + full,
             if located then errs else !(w.ok(Do(CheckMounted)) && !w.ok(Do(Mounted))));
  }

  /** One step: the foreign call and its record in the trace. */
  method Try(done: seq<Event>, s: Step, inner: seq<Event>, good: bool,
             ghost rest: seq<Event>, ghost whole: seq<Event>, ghost w: World) returns (done': seq<Event>)
    requires !Skipped(s, w) && inner == Inner(s, w) && good == w.ok(s)
    requires done + Before(s, w, rest) == whole
    ensures Obtained(done') <==> Obtained(done) || Obtained(inner) || (s.Obtain? && good)
    ensures Errs(done') <==> !good && s != Do(Mounted)
    ensures if GoesOn(s, w) then done' + rest == whole else done' == whole
  {
    done' := done + inner + [Tried(s, good)];
    assert done + (inner + [Tried(s, good)] + rest) == done' + rest;
    assert done + (inner + [Tried(s, good)] + []) == done';
  }

  /** Steps 2 and 3 of both workflows, from the moment the pod handle is there: the SSH keys. */
  method MakeKeys(start: seq<Event>, cachedKeys: bool, placeholder: Option<string>, ok: Step -> bool,
                  ghost tails: seq<seq<Event>>, ghost whole: seq<Event>, ghost w: World)
    returns (go: bool, tr: seq<Event>)
    requires w.cachedKeys == cachedKeys && forall s :: s != Obtain ==> w.ok(s) == ok(s)
    requires Tails(tails, w) && Obtained(start) && start + tails[0] == whole
    ensures if go then Obtained(tr) && tr + tails[2] == whole
            else tr == whole + Clean(placeholder) + [Released] && Obtained(whole) && Errs(whole)
  {
    tr := start;
    if !cachedKeys {
      tr := Try(tr, Do(GenerateKeys), [], ok(Do(GenerateKeys)), tails[1], whole, w);
      if !ok(Do(GenerateKeys)) { return false, tr + Clean(placeholder) + [Released]; }
      tr := Try(tr, Do(GetPublicKey), [], ok(Do(GetPublicKey)), tails[2], whole, w);
      if !ok(Do(GetPublicKey)) { return false, tr + Clean(placeholder) + [Released]; }
    }
    go := true;
  }

  /** Steps 4 to 7: whether and where the source PVC is mounted. */
  method Locate(start: seq<Event>, placeholder: Option<string>, ok: Step -> bool,
                ghost tails: seq<seq<Event>>, ghost whole: seq<Event>, ghost w: World)
    returns (go: bool, failed: bool, tr: seq<Event>)
    requires forall s :: s != Obtain ==> w.ok(s) == ok(s)
    requires Tails(tails, w) && Obtained(start) && start + tails[2] == whole
    ensures if go then Obtained(tr) && tr + tails[7] == whole
            else tr == whole + Clean(placeholder) + [Released] && Obtained(whole) && failed == Errs(whole)
  {
    tr := Try(start, Do(CheckMounted), [], ok(Do(CheckMounted)), tails[3], whole, w);
    if !ok(Do(CheckMounted)) { return false, true, tr + Clean(placeholder) + [Released]; }
    tr := Try(tr, Do(Mounted), [], ok(Do(Mounted)), tails[4], whole, w);
    if !ok(Do(Mounted)) { return false, false, tr + Clean(placeholder) + [Released]; }
    tr := Try(tr, Do(FindNode), [], ok(Do(FindNode)), tails[5], whole, w);
    if !ok(Do(FindNode)) { return false, true, tr + Clean(placeholder) + [Released]; }
    tr := Try(tr, Do(FindAgent), [], ok(Do(FindAgent)), tails[6], whole, w);
    if !ok(Do(FindAgent)) { return false, true, tr + Clean(placeholder) + [Released]; }
    tr := Try(tr, Do(FindMountPath), [], ok(Do(FindMountPath)), tails[7], whole, w);
    if !ok(Do(FindMountPath)) { return false, true, tr + Clean(placeholder) + [Released]; }
    go, failed := true, false;
  }

  /** Steps 8 to 13: push the key, test SSH, run rsync, write the completion annotations, clean up, release. */
  method Transfer(start: seq<Event>, cachedKeys: bool, placeholder: Option<string>, ok: Step -> bool,
                  ghost tails: seq<seq<Event>>, ghost whole: seq<Event>, ghost w: World)
    returns (failed: bool, tr: seq<Event>)
    requires w.cachedKeys == cachedKeys && forall s :: s != Obtain ==> w.ok(s) == ok(s)
    requires Tails(tails, w) && Obtained(start) && start + tails[7] == whole
    ensures tr == whole + Clean(placeholder) + [Released] && Obtained(whole) && failed == Errs(whole)
  {
    tr := start;
    if !cachedKeys {
      tr := Try(tr, Do(PushKey), [], ok(Do(PushKey)), tails[8], whole, w);
      if !ok(Do(PushKey)) { return true, tr + Clean(placeholder) + [Released]; }
    }
    tr := Try(tr, Do(TestSsh), [], ok(Do(TestSsh)), tails[9], whole, w);
    if !ok(Do(TestSsh)) { return true, tr + Clean(placeholder) + [Released]; }
    tr := Try(tr, Rsync, [], ok(Rsync), Before(WriteCompletion, w, []), whole, w);
    if !ok(Rsync) { return true, tr + Clean(placeholder) + [Released]; }
    tr := Try(tr, WriteCompletion, [], ok(WriteCompletion), [], whole, w);
    assert tr + [] == tr;
    if !ok(WriteCompletion) { return true, tr + Clean(placeholder) + [Released]; }
    tr := tr + Clean(placeholder);
    tr := tr + [Released];
    failed := false;
  }

  /** Everything after the pod handle is obtained. */
  method SyncThroughPod(start: seq<Event>, cachedKeys: bool, placeholder: Option<string>, ok: Step -> bool,
                        ghost tails: seq<seq<Event>>, ghost whole: seq<Event>, ghost w: World)
    returns (failed: bool, tr: seq<Event>)
    requires w.cachedKeys == cachedKeys && (forall s :: s != Obtain ==> w.ok(s) == ok(s)) && Obtained(start)
    requires Tails(tails, w) && start + tails[0] == whole
    ensures tr == whole + Clean(placeholder) + [Released] && Obtained(whole) && failed == Errs(whole)
  {
    var go: bool;
    go, tr := MakeKeys(start, cachedKeys, placeholder, ok, tails, whole, w);
    if !go { return true, tr; }
    go, failed, tr := Locate(tr, placeholder, ok, tails, whole, w);
    if !go { return failed, tr; }
    failed, tr := Transfer(tr, cachedKeys, placeholder, ok, tails, whole, w);
  }

  /** An attempt at a whole workflow, its first three steps spelled out. */
  function Whole(a: Task, b: Task, w: World, common: seq<Event>): seq<Event> {
    Before(Do(a), w, Before(Do(b), w, Before(Obtain, w, common)))
  }

  lemma {:induction false} AttemptIsWhole(before: seq<Task>, after: seq<Task>, w: World)
    returns (tails: seq<seq<Event>>)
    requires |before| == 2 && GoesOnWith(after)
    ensures Tails(tails, w) && Attempt(Workflow(before, after), w) == Whole(before[0], before[1], w, tails[0])
  {
    var last := Then(Rsync, Then(WriteCompletion, End));
    assert Attempt(last.rest, w) == Before(WriteCompletion, w, []);
    tails := SuffixesOf(after, last, w);
    var more := SuffixesOf(before, Then(Obtain, Doing(after, last)), w);
    assert Attempt(Then(Obtain, Doing(after, last)), w) == Before(Obtain, w, tails[0]);
  }

  lemma {:induction false} EndingIs(whole: seq<Event>, placeholder: Option<string>)
    ensures whole + Ending(true, placeholder) == whole + Clean(placeholder) + [Released]
    ensures whole + Ending(false, placeholder) == whole + [Released]
  {
  }

  /** The first two steps of either mode, whose failures leave only the lock to release. */
  method Begin(a: Task, b: Task, ok: Step -> bool, ghost common: seq<Event>, ghost whole: seq<Event>, ghost w: World)
    returns (go: bool, tr: seq<Event>)
    requires (forall s :: s != Obtain ==> w.ok(s) == ok(s)) && whole == Whole(a, b, w, common)
    requires !Skipped(Do(a), w) && !Skipped(Do(b), w) && a != Mounted && b != Mounted && a != CleanupExisting
    ensures if go then !Obtained(tr) && tr + Before(Obtain, w, common) == whole
            else tr == whole + [Released] && !Obtained(whole) && Errs(whole)
  {
    ghost var rest := Before(Obtain, w, common);
    tr := [];
    assert tr + whole == whole;
    tr := Try(tr, Do(a), [], ok(Do(a)), Before(Do(b), w, rest), whole, w);
    if !ok(Do(a)) { return false, tr + [Released]; }
    tr := Try(tr, Do(b), [], ok(Do(b)), rest, whole, w);
    if !ok(Do(b)) && b != CleanupExisting { return false, tr + [Released]; }
    go := true;
  }

  /** RsyncWorkflow once it holds the lock. */
  method UseDeployment(cachedKeys: bool, ok: Step -> bool,
                       ghost tails: seq<seq<Event>>, ghost whole: seq<Event>, ghost w: World)
    returns (failed: bool, tr: seq<Event>)
    requires w == World(cachedKeys, ok, []) && Tails(tails, w)
    requires whole == Whole(NewManager, CleanupExisting, w, tails[0])
    ensures tr == whole + Ending(Obtained(whole), None) && failed == Errs(whole)
  {
    EndingIs(whole, None);
    var go: bool;
    go, tr := Begin(NewManager, CleanupExisting, ok, tails[0], whole, w);
    if !go { return true, tr; }
    tr := Try(tr, Obtain, [], ok(Obtain), tails[0], whole, w);
    if !ok(Obtain) { return true, tr + [Released]; }
    failed, tr := SyncThroughPod(tr, cachedKeys, None, ok, tails, whole, w);
  }

  lemma {:induction false} DeploymentComes(w: World, common: seq<Event>, reached: bool, full: seq<Event>, errs: bool)
    requires Comes(common, reached, full, errs) && w.inner == []
    ensures Comes(Whole(NewManager, CleanupExisting, w, common), w.ok(Do(NewManager)) && w.ok(Obtain) && reached,
                  [Ok(Do(NewManager))] + ([Tried(Do(CleanupExisting), w.ok(Do(CleanupExisting)))]
                                          + (w.inner + ([Ok(Obtain)] + full))),
                  w.ok(Do(NewManager)) && w.ok(Obtain) ==> errs)
  {
    ObtainComes(w, common, reached, full, errs);
    var x1, f1 := Before(Obtain, w, common), w.inner + ([Ok(Obtain)] + full);
    var e1 := w.ok(Obtain) ==> errs;
    CleanupComes(w, x1, w.ok(Obtain) && reached, f1, e1);
    var f2 := [Tried(Do(CleanupExisting), w.ok(Do(CleanupExisting)))] + f1;
    StepComes(Do(NewManager), w, Before(Do(CleanupExisting), w, x1), w.ok(Obtain) && reached, f2, e1);
  }

  lemma {:induction false} DaemonSetComes(w: World, common: seq<Event>, reached: bool, full: seq<Event>, errs: bool)
    requires Comes(common, reached, full, errs) && Quiet(w.inner)
    ensures var ready := w.ok(Do(DaemonSetGiven)) && w.ok(Do(DeployDaemonSet)) && w.ok(Obtain);
      Comes(Whole(DaemonSetGiven, DeployDaemonSet, w, common), ready && reached,
            [Ok(Do(DaemonSetGiven))] + ([Ok(Do(DeployDaemonSet))] + (w.inner + ([Ok(Obtain)] + full))),
            ready ==> errs)
  {
    ObtainComes(w, common, reached, full, errs);
    var x1, f1 := Before(Obtain, w, common), w.inner + ([Ok(Obtain)] + full);
    var e1 := w.ok(Obtain) ==> errs;
    StepComes(Do(DeployDaemonSet), w, x1, w.ok(Obtain) && reached, f1, e1);
    var f2 := [Ok(Do(DeployDaemonSet))] + f1;
    var e2 := w.ok(Do(DeployDaemonSet)) ==> e1;
    StepComes(Do(DaemonSetGiven), w, Before(Do(DeployDaemonSet), w, x1),
              w.ok(Do(DeployDaemonSet)) && w.ok(Obtain) && reached, f2, e2);
  }

  /** What a workflow returns: an error iff the lock could not be checked or the last step failed as an error. */
  predicate Returns(failed: bool, answer: LockAnswer, attempt: seq<Event>) {
    failed == (answer.Broken? || (answer.Taken? && Errs(attempt)))
  }

  lemma {:induction false} Associates(x: seq<Event>, y: seq<Event>, z: seq<Event>)
    ensures x + (y + z) == x + y + z
  {
  }

  lemma {:induction false} Three(l: Event, a: Event, b: Event, x: seq<Event>)
    ensures [l] + ([a] + ([b] + x)) == [l, a, b] + x
  {
  }

  lemma {:induction false} Empties(x: seq<Event>, l: Event, a: Event, b: Event, c: Event)
    ensures x + [] == x && [l, a, b] + [c] == [l, a, b, c]
  {
  }

  /** A trace, with the brackets moved. */
  lemma {:induction false} Rebracket(l: Event, a: Event, b: Event, inner: seq<Event>, c: Event, k: seq<Event>,
                                     f: seq<Event>, p: seq<Event>, t: Event, y: seq<Event>, end: seq<Event>)
    ensures [l] + (([a] + ([b] + (inner + ([c] + (k + (f + (p + ([t] + y)))))))) + end)
         == [l, a, b] + inner + [c] + k + f + p + [t] + y + end
  {
    var n5 := p + ([t] + y);
    var n4 := f + n5;
    var n3 := k + n4;
    var n2 := [c] + n3;
    var n1 := inner + n2;
    Associates([l], [a] + ([b] + n1), end);
    Three(l, a, b, n1);
    var x := [l, a, b];
    Associates(x, inner, n2);
    Associates(x + inner, [c], n3);
    Associates(x + inner + [c], k, n4);
    Associates(x + inner + [c] + k, f, n5);
    Associates(x + inner + [c] + k + f, p, [t] + y);
    Associates(x + inner + [c] + k + f + p, [t], y);
  }

  /** What every exit does with the pod. */
  function Closing(placeholder: Option<string>): seq<Event> {
    [Cleaned] + (if placeholder.Some? then [Deleted(placeholder.value)] else []) + [Released]
  }

  lemma {:induction false} ClosingIs()
    ensures Closing(None) == [Cleaned, Released]
  {
  }

  lemma {:induction false} SpelledOut(a: Event, b: Event, w: World, end: seq<Event>)
    ensures var tr := [Locked(Taken)] + (([a] + ([b] + (w.inner + ([Ok(Obtain)] + Common(w))))) + end);
      var located := [Tried(Do(CheckMounted), true), Tried(Do(Mounted), true), Tried(Do(FindNode), true),
                      Tried(Do(FindAgent), true), Tried(Do(FindMountPath), true)];
      && (w.inner == [] ==>
            tr == [Locked(Taken), a, b, Tried(Obtain, true)]
                  + (if w.cachedKeys then [] else [Tried(Do(GenerateKeys), true), Tried(Do(GetPublicKey), true)])
                  + located + (if w.cachedKeys then [] else [Tried(Do(PushKey), true)]) + [Tried(Do(TestSsh), true)]
                  + Synced(w) + end)
      && (w.cachedKeys ==>
            tr == [Locked(Taken), a, b] + w.inner + [Tried(Obtain, true)] + located + [Tried(Do(TestSsh), true)]
                  + Synced(w) + end)
  {
    Rebracket(Locked(Taken), a, b, w.inner, Ok(Obtain),
              if w.cachedKeys then [] else [Ok(Do(GenerateKeys)), Ok(Do(GetPublicKey))],
              [Ok(Do(CheckMounted)), Ok(Do(Mounted)), Ok(Do(FindNode)), Ok(Do(FindAgent)), Ok(Do(FindMountPath))],
              if w.cachedKeys then [] else [Ok(Do(PushKey))], Ok(Do(TestSsh)), Synced(w), end);
    var x := [Locked(Taken), a, b];
    var located :=
      [Ok(Do(CheckMounted)), Ok(Do(Mounted)), Ok(Do(FindNode)), Ok(Do(FindAgent)), Ok(Do(FindMountPath))];
    Empties(x, Locked(Taken), a, b, Ok(Obtain));
    Empties(x + w.inner + [Ok(Obtain)], Locked(Taken), a, b, Ok(Obtain));
    Empties(x + w.inner + [Ok(Obtain)] + located, Locked(Taken), a, b, Ok(Obtain));
  }

  /** The trace of a workflow that took the lock, from what its attempt comes to. */
  lemma {:induction false} TraceComes(tr: seq<Event>, whole: seq<Event>, placeholder: Option<string>,
                                      reached: bool, full: seq<Event>, errs: bool)
    requires Comes(whole, reached, full, errs) && Tried(Obtain, true) in full
    requires tr == [Locked(Taken)] + (whole + Ending(Obtained(whole), placeholder))
    ensures if reached then tr == [Locked(Taken)] + (full + Closing(placeholder)) else NoSync(tr)
  {
    if !reached {
      forall e | e in tr ensures e.Tried? ==> !e.step.Rsync? && !e.step.WriteCompletion? {
        assert e in whole || e == Locked(Taken) || e in Ending(Obtained(whole), placeholder);
      }
    }
  }

  lemma {:induction false} DeploymentAttempt(w: World)
    requires w.inner == []
    ensures Comes(Attempt(DeploymentProgram(), w), w.ok(Do(NewManager)) && w.ok(Obtain) && Passes(w),
                  [Ok(Do(NewManager))] + ([Tried(Do(CleanupExisting), w.ok(Do(CleanupExisting)))]
                                          + (w.inner + ([Ok(Obtain)] + Common(w)))),
                  w.ok(Do(NewManager)) && w.ok(Obtain) ==> CommonErrs(w))
  {
    var tails := AttemptIsWhole(DEPLOYMENT_START, COMMON_STEPS, w);
    CommonTail(tails, w);
    DeploymentComes(w, tails[0], Passes(w), Common(w), CommonErrs(w));
  }

  lemma {:induction false} DaemonSetAttempt(w: World)
    requires Quiet(w.inner)
    ensures var ready := w.ok(Do(DaemonSetGiven)) && w.ok(Do(DeployDaemonSet)) && w.ok(Obtain);
      Comes(Attempt(DaemonSetProgram(), w), ready && Passes(w),
            [Ok(Do(DaemonSetGiven))] + ([Ok(Do(DeployDaemonSet))] + (w.inner + ([Ok(Obtain)] + Common(w)))),
            ready ==> CommonErrs(w))
  {
    var tails := AttemptIsWhole(DAEMON_SET_START, COMMON_STEPS, w);
    CommonTail(tails, w);
    DaemonSetComes(w, tails[0], Passes(w), Common(w), CommonErrs(w));
  }

  /**
   The trace of a Deployment-mode run, spelled out: rsync is attempted if and only if the lock was taken and
   every step before it succeeded, the cleanup of old deployments excepted; then every step is attempted
   once, in this order, the completion only after rsync succeeded, and cleanup and release come last.  If not,
   neither rsync nor the completion is attempted.  An unmounted source PVC is no error; every other
   failure is.
   */
  lemma {:induction false} DeploymentTraceSays(answer: LockAnswer, cachedKeys: bool, ok: Step -> bool,
                                               failed: bool, tr: seq<Event>)
    requires tr == TraceOf(answer, DeploymentProgram(), World(cachedKeys, ok, []), None)
    requires Returns(failed, answer, Attempt(DeploymentProgram(), World(cachedKeys, ok, [])))
    ensures
      if answer.Taken? && ok(Do(NewManager)) && ok(Obtain)
         && (cachedKeys || (ok(Do(GenerateKeys)) && ok(Do(GetPublicKey)) && ok(Do(PushKey))))
         && ok(Do(CheckMounted)) && ok(Do(Mounted)) && ok(Do(FindNode)) && ok(Do(FindAgent))
         && ok(Do(FindMountPath)) && ok(Do(TestSsh))
      then
        tr == [Locked(Taken), Tried(Do(NewManager), true), Tried(Do(CleanupExisting), ok(Do(CleanupExisting))),
               Tried(Obtain, true)]
              + (if cachedKeys then [] else [Tried(Do(GenerateKeys), true), Tried(Do(GetPublicKey), true)])
              + [Tried(Do(CheckMounted), true), Tried(Do(Mounted), true), Tried(Do(FindNode), true),
                 Tried(Do(FindAgent), true), Tried(Do(FindMountPath), true)]
              + (if cachedKeys then [] else [Tried(Do(PushKey), true)])
              + [Tried(Do(TestSsh), true)]
              + ([Tried(Rsync, ok(Rsync))] + if ok(Rsync) then [Tried(WriteCompletion, ok(WriteCompletion))] else [])
              + [Cleaned, Released]
      else forall e :: e in tr ==> e.Tried? ==> e.step != Rsync && e.step != WriteCompletion
    ensures failed <==>
      answer.Broken? ||
      (answer.Taken?
       && !(ok(Do(NewManager)) && ok(Obtain)
            && (cachedKeys || (ok(Do(GenerateKeys)) && ok(Do(GetPublicKey)) && ok(Do(PushKey))))
            && ok(Do(CheckMounted)) && ok(Do(Mounted)) && ok(Do(FindNode)) && ok(Do(FindAgent))
            && ok(Do(FindMountPath)) && ok(Do(TestSsh)) && ok(Rsync) && ok(WriteCompletion))
       && !(ok(Do(NewManager)) && ok(Obtain) && (cachedKeys || (ok(Do(GenerateKeys)) && ok(Do(GetPublicKey))))
            && ok(Do(CheckMounted)) && !ok(Do(Mounted))))
  {
    var w := World(cachedKeys, ok, []);
    if answer.Taken? {
      DeploymentAttempt(w);
      var whole, reached := Attempt(DeploymentProgram(), w), w.ok(Do(NewManager)) && w.ok(Obtain) && Passes(w);
      var clean := Tried(Do(CleanupExisting), w.ok(Do(CleanupExisting)));
      var full := [Ok(Do(NewManager))] + ([clean] + (w.inner + ([Ok(Obtain)] + Common(w))));
      assert full[2] == Tried(Obtain, true);
      TraceComes(tr, whole, None, reached, full, w.ok(Do(NewManager)) && w.ok(Obtain) ==> CommonErrs(w));
      SpelledOut(Ok(Do(NewManager)), clean, w, Closing(None));
      ClosingIs();
    }
  }

  /**
   RsyncWorkflow.  For every combination of outcomes the trace is well bracketed and is the one of the
   Deployment program, and an error is returned iff the lock could not be checked or the last step
   attempted failed and was not the test whether the PVC is mounted.
   */
  method RsyncWithDeployment(answer: LockAnswer, cachedKeys: bool, ok: Step -> bool)
    returns (failed: bool, tr: seq<Event>)
    ensures Bracketed(tr)
    ensures tr == TraceOf(answer, DeploymentProgram(), World(cachedKeys, ok, []), None)
    ensures Returns(failed, answer, Attempt(DeploymentProgram(), World(cachedKeys, ok, [])))
  {
    ghost var before, after, w := DEPLOYMENT_START, COMMON_STEPS, World(cachedKeys, ok, []);
    EveryRunIsBracketed(answer, before, after, w, None);
    tr := [Locked(answer)];
    if answer.Broken? { return true, tr; }
    if answer.Refused? { return false, tr; }
    ghost var tails := AttemptIsWhole(before, after, w);
    var rest: seq<Event>;
    failed, rest := UseDeployment(cachedKeys, ok, tails, Attempt(Workflow(before, after), w), w);
    tr := tr + rest;
  }

  // ------------------------------------------------------------------------------------------
  // DaemonSet mode and its placeholder pods
  // ------------------------------------------------------------------------------------------

  /**
   Whether a pod was found, the placeholder its cleanup closure will delete, and the creations and
   deletions of placeholder pods on the way.
   */
  datatype Search = Search(good: bool, placeholder: Option<string>, events: seq<Event>)

  /**
   ResolveDestinationPath.  The Get of the placeholder overwrites the variable that holds it even
   when it fails; the client library then hands back an object without a name, so the deletion on
   that exit is requested for the empty name.
   */
  function Resolved(ok: Step -> bool, pod: string): Search {
    if ok(Do(FindCsiPath)) then Search(true, None, [])
    else if !ok(Do(CreatePlaceholder)) then Search(false, None, [])
    else if !ok(Do(AwaitPlaceholder)) then Search(false, None, [Created(pod), Deleted(pod)])
    else if !ok(Do(GetPlaceholder)) then Search(false, None, [Created(pod), Deleted("")])
    else if !ok(Do(FindCsiPathAgain)) then Search(false, None, [Created(pod), Deleted(pod)])
    else Search(true, Some(pod), [Created(pod)])
  }

  /** The node of the destination PVC, or of any running rsync pod if the PVC is mounted nowhere. */
  predicate NodeFound(ok: Step -> bool) {
    ok(Do(FindDestNode)) || (ok(Do(GetDaemonSet)) && ok(Do(AnyReady)) && ok(Do(ListPods)) && ok(Do(AnyRunning)))
  }

  /** findRsyncDaemonSetPod */
  function PodFound(ok: Step -> bool, pod: string): Search {
    if !NodeFound(ok) || !ok(Do(FindPodOnNode)) then Search(false, None, []) else Resolved(ok, pod)
  }

  /** A placeholder pod is created. */
  predicate Creates(ok: Step -> bool) {
    NodeFound(ok) && ok(Do(FindPodOnNode)) && !ok(Do(FindCsiPath)) && ok(Do(CreatePlaceholder))
  }

  /** A placeholder pod is created, comes up, and then cannot be read back. */
  predicate Loses(ok: Step -> bool) {
    Creates(ok) && ok(Do(AwaitPlaceholder)) && !ok(Do(GetPlaceholder))
  }

  lemma {:induction false} SearchAccounts(ok: Step -> bool, pod: string)
    requires pod != ""
    ensures var s := PodFound(ok, pod);
      && Quiet(s.events)
      && Count(Created(pod), s.events) == (if Creates(ok) then 1 else 0)
      && Count(Deleted(pod), s.events) + (if s.placeholder.Some? then 1 else 0)
           == (if Creates(ok) && !Loses(ok) then 1 else 0)
      && (s.placeholder.Some? ==> s.good && s.placeholder.value == pod)
  {
  }

  /** How the DaemonSet workflow meets the world. */
  function DaemonSetWorld(ok: Step -> bool, pod: string): World {
    World(true, s => if s == Obtain then PodFound(ok, pod).good else ok(s), PodFound(ok, pod).events)
  }

  /** The workflow gets as far as looking for a pod. */
  predicate Reaches(before: seq<Task>, w: World) {
    forall i :: 0 <= i < |before| ==> Skipped(Do(before[i]), w) || GoesOn(Do(before[i]), w)
  }

  lemma CountSplits(e: Event, xs: seq<Event>, ys: seq<Event>)
    ensures Count(e, xs + ys) == Count(e, xs) + Count(e, ys)
  {
  }

  /** Events about pods: only looking for a pod produces them. */
  predicate AboutPods(e: Event) {
    e.Created? || e.Deleted? || e == Tried(Obtain, true)
  }

  /** What looking for a pod adds to the trace. */
  function Looking(s: Step, w: World): seq<Event> {
    Inner(s, w) + [Tried(s, w.ok(s))]
  }

  lemma {:induction false} CountBefore(e: Event, s: Step, w: World, rest: seq<Event>)
    requires AboutPods(e)
    ensures Count(e, Before(s, w, rest)) ==
      if Skipped(s, w) then Count(e, rest)
      else (if s.Obtain? then Count(e, Looking(s, w)) else 0) + if GoesOn(s, w) then Count(e, rest) else 0
  {
    var x := [Tried(s, w.ok(s))];
    var tail := if GoesOn(s, w) then rest else [];
    assert !s.Obtain? ==> Count(e, x) == 0;
    CountSplits(e, Inner(s, w), x);
    CountSplits(e, Inner(s, w) + x, tail);
  }

  lemma {:induction false} AttemptThen(s: Step, p: Program, w: World)
    ensures Attempt(Then(s, p), w) == Before(s, w, Attempt(p, w))
  {
  }

  lemma {:induction false} TransferTouchesNoPods(e: Event, after: seq<Task>, p: Program, w: World)
    requires AboutPods(e) && Count(e, Attempt(p, w)) == 0
    ensures Count(e, Attempt(Doing(after, p), w)) == 0
    decreases |after|
  {
    if after != [] {
      var q := Doing(after[1..], p);
      TransferTouchesNoPods(e, after[1..], p, w);
      AttemptThen(Do(after[0]), q, w);
      CountBefore(e, Do(after[0]), w, Attempt(q, w));
    }
  }

  lemma {:induction false} PodsOfAttempt(e: Event, before: seq<Task>, q: Program, w: World)
    requires AboutPods(e) && Count(e, Attempt(q, w)) == 0
    ensures Count(e, Attempt(Doing(before, Then(Obtain, q)), w)) ==
              if Reaches(before, w) then Count(e, Looking(Obtain, w)) else 0
    decreases |before|
  {
    if before == [] {
      AttemptThen(Obtain, q, w);
      CountBefore(e, Obtain, w, Attempt(q, w));
    } else {
      var s, rest := Do(before[0]), Doing(before[1..], Then(Obtain, q));
      PodsOfAttempt(e, before[1..], q, w);
      ReachesCons(before, w);
      AttemptThen(s, rest, w);
      CountBefore(e, s, w, Attempt(rest, w));
    }
  }

  lemma {:induction false} ReachesCons(before: seq<Task>, w: World)
    requires before != []
    ensures Reaches(before, w) <==>
      (Skipped(Do(before[0]), w) || GoesOn(Do(before[0]), w)) && Reaches(before[1..], w)
  {
    if Reaches(before[1..], w) {
      forall i | 1 <= i < |before| ensures Skipped(Do(before[i]), w) || GoesOn(Do(before[i]), w) {
        assert before[i] == before[1..][i - 1];
      }
    }
  }

  lemma {:induction false} LastTouchesNoPods(e: Event, w: World)
    requires AboutPods(e)
    ensures Count(e, Attempt(Then(Rsync, Then(WriteCompletion, End)), w)) == 0
  {
    AttemptThen(WriteCompletion, End, w);
    AttemptThen(Rsync, Then(WriteCompletion, End), w);
    CountBefore(e, WriteCompletion, w, []);
    CountBefore(e, Rsync, w, Before(WriteCompletion, w, []));
  }

  lemma {:induction false} PodsOfWorkflow(e: Event, before: seq<Task>, after: seq<Task>, w: World)
    requires AboutPods(e)
    ensures Count(e, Attempt(Workflow(before, after), w)) ==
              if Reaches(before, w) then Count(e, Looking(Obtain, w)) else 0
  {
    var last := Then(Rsync, Then(WriteCompletion, End));
    LastTouchesNoPods(e, w);
    TransferTouchesNoPods(e, after, last, w);
    PodsOfAttempt(e, before, Doing(after, last), w);
  }

  lemma {:induction false} PodsOfEnding(e: Event, done: seq<Event>, hasPod: bool, placeholder: Option<string>)
    requires e.Created? || e.Deleted?
    ensures Count(e, [Locked(Taken)] + (done + Ending(hasPod, placeholder))) ==
      Count(e, done) + if hasPod && placeholder.Some? && e == Deleted(placeholder.value) then 1 else 0
  {
    var end := Ending(hasPod, placeholder);
    CountSplits(e, done, end);
    CountSplits(e, [Locked(Taken)], done + end);
    assert Count(e, [Locked(Taken)]) == 0;
  }

  lemma {:induction false} LookingCounts(e: Event, w: World, s: Search)
    requires w.inner == s.events && w.ok(Obtain) == s.good
    ensures Count(e, Looking(Obtain, w)) == Count(e, s.events) + if e == Tried(Obtain, s.good) then 1 else 0
  {
    CountSplits(e, w.inner, [Tried(Obtain, w.ok(Obtain))]);
  }

  lemma {:induction false} ObtainedIff(before: seq<Task>, after: seq<Task>, w: World, s: Search, done: seq<Event>)
    requires w.inner == s.events && w.ok(Obtain) == s.good && Quiet(s.events)
    requires done == Attempt(Workflow(before, after), w)
    ensures Obtained(done) <==> Reaches(before, w) && s.good
  {
    var e := Tried(Obtain, true);
    PodsOfWorkflow(e, before, after, w);
    LookingCounts(e, w, s);
    assert e !in s.events;
    assert Obtained(done) <==> Count(e, done) > 0;
  }

  /** The creations and deletions of a run are those of its search, and the deletion that its cleanup makes. */
  lemma {:induction false} PodsOfRun(e: Event, before: seq<Task>, after: seq<Task>, w: World, s: Search, tr: seq<Event>)
    requires (e.Created? || e.Deleted?) && w.inner == s.events && w.ok(Obtain) == s.good && Quiet(s.events)
    requires tr == Expected(Workflow(before, after), w, s.placeholder)
    ensures Count(e, tr) ==
      if !Reaches(before, w) then 0
      else Count(e, s.events) + if s.good && s.placeholder.Some? && e == Deleted(s.placeholder.value) then 1 else 0
  {
    var done := Attempt(Workflow(before, after), w);
    ObtainedIff(before, after, w, s, done);
    assert Count(e, done) == if Reaches(before, w) then Count(e, s.events) else 0 by {
      PodsOfWorkflow(e, before, after, w);
      LookingCounts(e, w, s);
    }
    PodsOfEnding(e, done, Obtained(done), s.placeholder);
  }

  /**
   Conservation of placeholder pods over a whole DaemonSet-mode run: for every outcome of every
   step, each placeholder created is deleted exactly once, unless the Get that follows the wait
   failed, and then its deletion is never requested.
   */
  lemma {:induction false} PlaceholderConserved(ok: Step -> bool, pod: string, before: seq<Task>, after: seq<Task>,
                                                w: World, s: Search, tr: seq<Event>)
    requires pod != "" && w == DaemonSetWorld(ok, pod) && s == PodFound(ok, pod)
    requires tr == Expected(Workflow(before, after), w, s.placeholder)
    ensures Count(Created(pod), tr) == if Reaches(before, w) && Creates(ok) then 1 else 0
    ensures Count(Deleted(pod), tr) == if Loses(ok) then 0 else Count(Created(pod), tr)
  {
    SearchAccounts(ok, pod);
    PodsOfRun(Created(pod), before, after, w, s, tr);
    PodsOfRun(Deleted(pod), before, after, w, s, tr);
  }

  /** Path resolution with the reassigned variable of the code. */
  method ResolveDestinationPath(ok: Step -> bool, pod: string) returns (s: Search)
    ensures s == Resolved(ok, pod)
  {
    if ok(Do(FindCsiPath)) { return Search(true, None, []); }
    if !ok(Do(CreatePlaceholder)) { return Search(false, None, []); }
    var placeholderPod := pod;
    var tr := [Created(placeholderPod)];
    if !ok(Do(AwaitPlaceholder)) { return Search(false, None, tr + [Deleted(placeholderPod)]); }
    placeholderPod := if ok(Do(GetPlaceholder)) then pod else "";
    if !ok(Do(GetPlaceholder)) { return Search(false, None, tr + [Deleted(placeholderPod)]); }
    if !ok(Do(FindCsiPathAgain)) { return Search(false, None, tr + [Deleted(placeholderPod)]); }
    s := Search(true, Some(placeholderPod), tr);
  }

  method FindRsyncDaemonSetPod(ok: Step -> bool, pod: string) returns (s: Search)
    ensures s == PodFound(ok, pod)
  {
    if !ok(Do(FindDestNode)) {
      if !ok(Do(GetDaemonSet)) { return Search(false, None, []); }
      if !ok(Do(AnyReady)) { return Search(false, None, []); }
      if !ok(Do(ListPods)) { return Search(false, None, []); }
      if !ok(Do(AnyRunning)) { return Search(false, None, []); }
    }
    if !ok(Do(FindPodOnNode)) { return Search(false, None, []); }
    s := ResolveDestinationPath(ok, pod);
  }

  /** When the search for a pod succeeds, and what it hands on then. */
  lemma {:induction false} SearchSays(ok: Step -> bool, pod: string)
    ensures var s := PodFound(ok, pod);
      && (s.good <==>
            && (ok(Do(FindDestNode))
                || (ok(Do(GetDaemonSet)) && ok(Do(AnyReady)) && ok(Do(ListPods)) && ok(Do(AnyRunning))))
            && ok(Do(FindPodOnNode))
            && (ok(Do(FindCsiPath))
                || (ok(Do(CreatePlaceholder)) && ok(Do(AwaitPlaceholder)) && ok(Do(GetPlaceholder))
                    && ok(Do(FindCsiPathAgain)))))
      && s.placeholder == (if s.good && !ok(Do(FindCsiPath)) then Some(pod) else None)
      && s.events ==
           if (!ok(Do(FindDestNode))
               && !(ok(Do(GetDaemonSet)) && ok(Do(AnyReady)) && ok(Do(ListPods)) && ok(Do(AnyRunning))))
              || !ok(Do(FindPodOnNode)) || ok(Do(FindCsiPath)) || !ok(Do(CreatePlaceholder))
           then []
           else if !ok(Do(AwaitPlaceholder)) then [Created(pod), Deleted(pod)]
           else if !ok(Do(GetPlaceholder)) then [Created(pod), Deleted("")]
           else if !ok(Do(FindCsiPathAgain)) then [Created(pod), Deleted(pod)]
           else [Created(pod)]
  {
  }

  /** The same for a DaemonSet-mode run, whose keys are always cached; `pod` is the name of its placeholder. */
  lemma {:induction false} DaemonSetTraceSays(answer: LockAnswer, ok: Step -> bool, pod: string, failed: bool,
                                              tr: seq<Event>)
    requires pod != ""
    requires tr == TraceOf(answer, DaemonSetProgram(), DaemonSetWorld(ok, pod), PodFound(ok, pod).placeholder)
    requires Returns(failed, answer, Attempt(DaemonSetProgram(), DaemonSetWorld(ok, pod)))
    ensures
      var found :=
        && (ok(Do(FindDestNode))
            || (ok(Do(GetDaemonSet)) && ok(Do(AnyReady)) && ok(Do(ListPods)) && ok(Do(AnyRunning))))
        && ok(Do(FindPodOnNode))
        && (ok(Do(FindCsiPath))
            || (ok(Do(CreatePlaceholder)) && ok(Do(AwaitPlaceholder)) && ok(Do(GetPlaceholder))
                && ok(Do(FindCsiPathAgain))));
      var ready := ok(Do(DaemonSetGiven)) && ok(Do(DeployDaemonSet)) && found;
      var passes := ok(Do(CheckMounted)) && ok(Do(Mounted)) && ok(Do(FindNode)) && ok(Do(FindAgent))
                    && ok(Do(FindMountPath)) && ok(Do(TestSsh));
      && (if answer.Taken? && ready && passes
          then
            tr == [Locked(Taken), Tried(Do(DaemonSetGiven), true), Tried(Do(DeployDaemonSet), true)]
                  + (if ok(Do(FindCsiPath)) then [] else [Created(pod)])
                  + [Tried(Obtain, true)]
                  + [Tried(Do(CheckMounted), true), Tried(Do(Mounted), true), Tried(Do(FindNode), true),
                     Tried(Do(FindAgent), true), Tried(Do(FindMountPath), true)]
                  + [Tried(Do(TestSsh), true)]
                  + ([Tried(Rsync, ok(Rsync))]
                     + if ok(Rsync) then [Tried(WriteCompletion, ok(WriteCompletion))] else [])
                  + ([Cleaned] + (if ok(Do(FindCsiPath)) then [] else [Deleted(pod)]) + [Released])
          else forall e :: e in tr ==> e.Tried? ==> e.step != Rsync && e.step != WriteCompletion)
      && (failed <==>
            answer.Broken?
            || (answer.Taken? && !(ready && passes && ok(Rsync) && ok(WriteCompletion))
                && !(ready && ok(Do(CheckMounted)) && !ok(Do(Mounted)))))
  {
    var w, s := DaemonSetWorld(ok, pod), PodFound(ok, pod);
    SearchAccounts(ok, pod);
    SearchSays(ok, pod);
    if answer.Taken? {
      DaemonSetTaken(ok, s.good, w, s.placeholder, tr);
    }
  }

  lemma {:induction false} DaemonSetTaken(ok: Step -> bool, good: bool, w: World, placeholder: Option<string>,
                                          tr: seq<Event>)
    requires w.cachedKeys && Quiet(w.inner) && tr == Expected(DaemonSetProgram(), w, placeholder)
    requires w.ok(Obtain) == good && forall s :: s != Obtain ==> w.ok(s) == ok(s)
    ensures var ready := ok(Do(DaemonSetGiven)) && ok(Do(DeployDaemonSet)) && good;
      var passes := ok(Do(CheckMounted)) && ok(Do(Mounted)) && ok(Do(FindNode)) && ok(Do(FindAgent))
                    && ok(Do(FindMountPath)) && ok(Do(TestSsh));
      && (if ready && passes
          then
            tr == [Locked(Taken), Tried(Do(DaemonSetGiven), true), Tried(Do(DeployDaemonSet), true)] + w.inner
                  + [Tried(Obtain, true)]
                  + [Tried(Do(CheckMounted), true), Tried(Do(Mounted), true), Tried(Do(FindNode), true),
                     Tried(Do(FindAgent), true), Tried(Do(FindMountPath), true)]
                  + [Tried(Do(TestSsh), true)]
                  + ([Tried(Rsync, ok(Rsync))]
                     + if ok(Rsync) then [Tried(WriteCompletion, ok(WriteCompletion))] else [])
                  + Closing(placeholder)
          else NoSync(tr))
      && (Errs(Attempt(DaemonSetProgram(), w)) <==>
            !(ready && passes && ok(Rsync) && ok(WriteCompletion))
            && !(ready && ok(Do(CheckMounted)) && !ok(Do(Mounted))))
  {
    DaemonSetAttempt(w);
    var ready := w.ok(Do(DaemonSetGiven)) && w.ok(Do(DeployDaemonSet)) && w.ok(Obtain);
    var full := [Ok(Do(DaemonSetGiven))] + ([Ok(Do(DeployDaemonSet))] + (w.inner + ([Ok(Obtain)] + Common(w))));
    assert full[2 + |w.inner|] == Tried(Obtain, true);
    TraceComes(tr, Attempt(DaemonSetProgram(), w), placeholder, ready && Passes(w), full, ready ==> CommonErrs(w));
    SpelledOut(Ok(Do(DaemonSetGiven)), Ok(Do(DeployDaemonSet)), w, Closing(placeholder));
  }

  /** RsyncWorkflowWithDaemonSet once it holds the lock; `found` is what the search for a pod gives. */
  method UseDaemonSet(ok: Step -> bool, pod: string, ghost found: Search,
                      ghost tails: seq<seq<Event>>, ghost whole: seq<Event>, ghost w: World)
    returns (failed: bool, tr: seq<Event>)
    requires found == PodFound(ok, pod) && Quiet(found.events)
    requires w.cachedKeys && w.inner == found.events && w.ok(Obtain) == found.good
    requires forall s :: s != Obtain ==> w.ok(s) == ok(s)
    requires Tails(tails, w) && whole == Whole(DaemonSetGiven, DeployDaemonSet, w, tails[0])
    ensures tr == whole + Ending(Obtained(whole), found.placeholder) && failed == Errs(whole)
  {
    EndingIs(whole, found.placeholder);
    var go: bool;
    go, tr := Begin(DaemonSetGiven, DeployDaemonSet, ok, tails[0], whole, w);
    if !go { return true, tr; }
    var s := FindRsyncDaemonSetPod(ok, pod);
    tr := Try(tr, Obtain, s.events, s.good, tails[0], whole, w);
    if !s.good { return true, tr + [Released]; }
    failed, tr := SyncThroughPod(tr, true, s.placeholder, ok, tails, whole, w);
  }

  /** Each placeholder pod in the trace of a DaemonSet-mode run is deleted once, unless it is lost. */
  ghost predicate Placeholders(answer: LockAnswer, ok: Step -> bool, pod: string, w: World, tr: seq<Event>) {
    && Count(Created(pod), tr) == (if answer.Taken? && Reaches(DAEMON_SET_START, w) && Creates(ok) then 1 else 0)
    && Count(Deleted(pod), tr) == (if Loses(ok) then 0 else Count(Created(pod), tr))
  }

  lemma {:induction false} PlaceholdersOf(answer: LockAnswer, ok: Step -> bool, pod: string, after: seq<Task>, w: World,
                                          s: Search, tr: seq<Event>)
    requires pod != "" && w == DaemonSetWorld(ok, pod) && s == PodFound(ok, pod)
    requires tr == TraceOf(answer, Workflow(DAEMON_SET_START, after), w, s.placeholder)
    ensures Placeholders(answer, ok, pod, w, tr)
  {
    if answer.Taken? {
      PlaceholderConserved(ok, pod, DAEMON_SET_START, after, w, s, tr);
    }
  }

  /** RsyncWorkflowWithDaemonSet, with the same promises as RsyncWithDeployment. */
  method RsyncWithDaemonSet(answer: LockAnswer, ok: Step -> bool, pod: string)
    returns (failed: bool, tr: seq<Event>)
    requires pod != ""
    ensures Bracketed(tr) && Placeholders(answer, ok, pod, DaemonSetWorld(ok, pod), tr)
    ensures tr == TraceOf(answer, DaemonSetProgram(), DaemonSetWorld(ok, pod), PodFound(ok, pod).placeholder)
    ensures Returns(failed, answer, Attempt(DaemonSetProgram(), DaemonSetWorld(ok, pod)))
  {
    ghost var before, after, w, found := DAEMON_SET_START, COMMON_STEPS, DaemonSetWorld(ok, pod), PodFound(ok, pod);
    SearchAccounts(ok, pod);
    EveryRunIsBracketed(answer, before, after, w, found.placeholder);
    PlaceholdersOf(answer, ok, pod, after, w, found, TraceOf(answer, Workflow(before, after), w, found.placeholder));
    tr := [Locked(answer)];
    if answer.Broken? { return true, tr; }
    if answer.Refused? { return false, tr; }
    ghost var tails := AttemptIsWhole(before, after, w);
    var rest: seq<Event>;
    failed, rest := UseDaemonSet(ok, pod, found, tails, Attempt(Workflow(before, after), w), w);
    tr := tr + rest;
  }
}
