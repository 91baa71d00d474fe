/**
 The worker pool and the connectivity verification that runs on it.  A task holds a slot of the
 pool from Submit until its goroutine ends, records its target under a mutex if the connection
 worked, appends its detail under the mutex, signals the wait group, and gives the slot back.
 Tasks interleave at these points.
 */
module WorkerPool {

  datatype Detail = Detail(sourceNode: string, targetNode: string, connected: bool, error: string)

  datatype Task = Task(target: string, detail: Detail)

  // How far a task has come.
  const QUEUED: nat := 0
  const STARTED: nat := 1
  const MARKED: nat := 2
  const LOGGED: nat := 3
  const SIGNALLED: nat := 4
  const EXITED: nat := 5

  /** `next` is the loop index of SubmitAndWait, `slots` the fill of the channel, `wg` the wait group. */
  datatype State = State(next: nat, slots: nat, wg: int, ranks: seq<nat>, targets: set<string>,
                         details: seq<Detail>, returned: bool)

  datatype Event = Submit | Advance(i: nat) | Return

  function Start(tasks: seq<Task>): State {
    State(0, 0, |tasks|, seq(|tasks|, _ => QUEUED), {}, [], false)
  }

  predicate Enabled(s: State, e: Event, maxWorkers: nat) {
    match e
    case Submit => s.next < |s.ranks| && s.slots < maxWorkers
    case Advance(i) => i < |s.ranks| && STARTED <= s.ranks[i] < EXITED
    case Return => s.next >= |s.ranks| && s.wg == 0 && !s.returned
  }

  function Step(s: State, e: Event, tasks: seq<Task>, maxWorkers: nat): State
    requires Enabled(s, e, maxWorkers) && |s.ranks| == |tasks|
  {
    match e
    case Submit => s.(next := s.next + 1, slots := s.slots + 1, ranks := s.ranks[s.next := STARTED])
    case Advance(i) =>
      var t := s.(ranks := s.ranks[i := s.ranks[i] + 1]);
      if s.ranks[i] == STARTED then
        if tasks[i].detail.connected then t.(targets := s.targets + {tasks[i].target}) else t
      else if s.ranks[i] == MARKED then t.(details := s.details + [tasks[i].detail])
      else if s.ranks[i] == LOGGED then t.(wg := s.wg - 1)
      else t.(slots := if s.slots > 0 then s.slots - 1 else 0)
    case Return => s.(returned := true)
  }

  predicate Valid(s: State, es: seq<Event>, tasks: seq<Task>, maxWorkers: nat)
    decreases |es|
  {
    |s.ranks| == |tasks| &&
    (es == [] ||
     (Enabled(s, es[0], maxWorkers) && Valid(Step(s, es[0], tasks, maxWorkers), es[1..], tasks, maxWorkers)))
  }

  function Run(s: State, es: seq<Event>, tasks: seq<Task>, maxWorkers: nat): State
    requires Valid(s, es, tasks, maxWorkers)
    decreases |es|
  {
    if es == [] then s else Run(Step(s, es[0], tasks, maxWorkers), es[1..], tasks, maxWorkers)
  }

  // ------------------------------------------------------------------------------------------
  // Sums over tasks
  // ------------------------------------------------------------------------------------------

  /** How many tasks have come at least as far as `k`. */
  function AtLeast(ranks: seq<nat>, k: nat): nat
    decreases |ranks|
  {
    if ranks == [] then 0 else AtLeast(ranks[1..], k) + if ranks[0] >= k then 1 else 0
  }

  /** The details of the tasks that have logged. */
  function Logged(tasks: seq<Task>, ranks: seq<nat>): multiset<Detail>
    requires |tasks| == |ranks|
    decreases |ranks|
  {
    if ranks == [] then multiset{}
    else Logged(tasks[1..], ranks[1..]) + if ranks[0] >= LOGGED then multiset{tasks[0].detail} else multiset{}
  }

  /** The targets of the tasks that have marked theirs. */
  function Marked(tasks: seq<Task>, ranks: seq<nat>): set<string>
    requires |tasks| == |ranks|
    decreases |ranks|
  {
    if ranks == [] then {}
    else Marked(tasks[1..], ranks[1..])
         + if ranks[0] >= MARKED && tasks[0].detail.connected then {tasks[0].target} else {}
  }

  /** The number of steps still to be taken by the tasks. */
  function Left(ranks: seq<nat>): nat
    decreases |ranks|
  {
    if ranks == [] then 0 else Left(ranks[1..]) + if ranks[0] < EXITED then EXITED - ranks[0] else 0
  }

  lemma {:induction false} AtLeastUpdate(ranks: seq<nat>, i: nat, k: nat)
    requires i < |ranks|
    ensures AtLeast(ranks[i := ranks[i] + 1], k) == AtLeast(ranks, k) + if ranks[i] + 1 == k then 1 else 0
    decreases |ranks|
  {
    if i > 0 {
      assert ranks[i := ranks[i] + 1][1..] == ranks[1..][i - 1 := ranks[i] + 1];
      AtLeastUpdate(ranks[1..], i - 1, k);
    } else {
      assert ranks[i := ranks[i] + 1][1..] == ranks[1..];
    }
  }

  lemma {:induction false} LoggedUpdate(tasks: seq<Task>, ranks: seq<nat>, i: nat)
    requires i < |ranks| == |tasks|
    ensures Logged(tasks, ranks[i := ranks[i] + 1]) ==
              Logged(tasks, ranks) + if ranks[i] == MARKED then multiset{tasks[i].detail} else multiset{}
    decreases |ranks|
  {
    if i > 0 {
      assert ranks[i := ranks[i] + 1][1..] == ranks[1..][i - 1 := ranks[i] + 1];
      LoggedUpdate(tasks[1..], ranks[1..], i - 1);
    } else {
      assert ranks[i := ranks[i] + 1][1..] == ranks[1..];
    }
  }

  lemma {:induction false} MarkedUpdate(tasks: seq<Task>, ranks: seq<nat>, i: nat)
    requires i < |ranks| == |tasks|
    ensures Marked(tasks, ranks[i := ranks[i] + 1]) ==
              Marked(tasks, ranks) + if ranks[i] == STARTED && tasks[i].detail.connected then {tasks[i].target} else {}
    decreases |ranks|
  {
    if i > 0 {
      assert ranks[i := ranks[i] + 1][1..] == ranks[1..][i - 1 := ranks[i] + 1];
      MarkedUpdate(tasks[1..], ranks[1..], i - 1);
    } else {
      assert ranks[i := ranks[i] + 1][1..] == ranks[1..];
    }
  }

  lemma {:induction false} LeftUpdate(ranks: seq<nat>, i: nat)
    requires i < |ranks| && ranks[i] < EXITED
    ensures Left(ranks[i := ranks[i] + 1]) == Left(ranks) - 1
    decreases |ranks|
  {
    if i > 0 {
      assert ranks[i := ranks[i] + 1][1..] == ranks[1..][i - 1 := ranks[i] + 1];
      LeftUpdate(ranks[1..], i - 1);
    } else {
      assert ranks[i := ranks[i] + 1][1..] == ranks[1..];
    }
  }

  lemma {:induction false} AtLeastAll(ranks: seq<nat>, k: nat)
    ensures AtLeast(ranks, k) <= |ranks|
    ensures AtLeast(ranks, k) == |ranks| ==> forall i :: 0 <= i < |ranks| ==> ranks[i] >= k
    ensures (forall i :: 0 <= i < |ranks| ==> ranks[i] < k) ==> AtLeast(ranks, k) == 0
    decreases |ranks|
  {
    if ranks != [] {
      AtLeastAll(ranks[1..], k);
      if AtLeast(ranks, k) == |ranks| {
        forall i | 0 <= i < |ranks| ensures ranks[i] >= k {
          assert i > 0 ==> ranks[i] == ranks[1..][i - 1];
        }
      }
    }
  }

  lemma {:induction false} LoggedNone(tasks: seq<Task>, ranks: seq<nat>)
    requires |tasks| == |ranks| && forall i :: 0 <= i < |ranks| ==> ranks[i] < LOGGED
    ensures Logged(tasks, ranks) == multiset{}
    decreases |ranks|
  {
    if ranks != [] {
      LoggedNone(tasks[1..], ranks[1..]);
    }
  }

  lemma {:induction false} MarkedNone(tasks: seq<Task>, ranks: seq<nat>)
    requires |tasks| == |ranks| && forall i :: 0 <= i < |ranks| ==> ranks[i] < MARKED
    ensures Marked(tasks, ranks) == {}
    decreases |ranks|
  {
    if ranks != [] {
      MarkedNone(tasks[1..], ranks[1..]);
    }
  }

  lemma {:induction false} MarkedAll(tasks: seq<Task>, ranks: seq<nat>)
    requires |tasks| == |ranks| && forall i :: 0 <= i < |ranks| ==> ranks[i] >= MARKED
    ensures Marked(tasks, ranks) == Connected(tasks)
    decreases |ranks|
  {
    if ranks != [] {
      MarkedAll(tasks[1..], ranks[1..]);
      ConnectedCons(tasks);
    }
  }

  lemma {:induction false} ConnectedCons(tasks: seq<Task>)
    requires tasks != []
    ensures Connected(tasks) == Connected(tasks[1..]) + if tasks[0].detail.connected then {tasks[0].target} else {}
  {
    forall x | x in Connected(tasks[1..]) ensures x in Connected(tasks) {
      var j :| 0 <= j < |tasks[1..]| && tasks[1..][j].detail.connected && x == tasks[1..][j].target;
      assert tasks[j + 1] == tasks[1..][j];
    }
  }

  lemma {:induction false} LoggedAll(tasks: seq<Task>, ranks: seq<nat>)
    requires |tasks| == |ranks| && forall i :: 0 <= i < |ranks| ==> ranks[i] >= LOGGED
    ensures Logged(tasks, ranks) == multiset(Details(tasks))
    decreases |ranks|
  {
    if ranks == [] {
      assert Details(tasks) == [];
    } else {
      LoggedAll(tasks[1..], ranks[1..]);
      assert Details(tasks) == [tasks[0].detail] + Details(tasks[1..]);
    }
  }

  // ------------------------------------------------------------------------------------------
  // Every schedule
  // ------------------------------------------------------------------------------------------

  /** Tasks before `next` are submitted, the others are not. */
  predicate Shape(s: State, n: nat) {
    && |s.ranks| == n && s.next <= n
    && forall i :: 0 <= i < n ==> s.ranks[i] <= EXITED && (s.ranks[i] >= STARTED <==> i < s.next)
  }

  /** The channel and the wait group count tasks. */
  predicate Counts(s: State, maxWorkers: nat) {
    && s.slots == AtLeast(s.ranks, STARTED) - AtLeast(s.ranks, EXITED) <= maxWorkers
    && s.wg == |s.ranks| - AtLeast(s.ranks, SIGNALLED)
    && (s.returned ==> s.wg == 0)
  }

  /** The results are those of the tasks that have come far enough. */
  predicate Collected(s: State, tasks: seq<Task>)
    requires |s.ranks| == |tasks|
  {
    multiset(s.details) == Logged(tasks, s.ranks) && s.targets == Marked(tasks, s.ranks)
  }

  ghost predicate Inv(s: State, tasks: seq<Task>, maxWorkers: nat) {
    Shape(s, |tasks|) && Counts(s, maxWorkers) && Collected(s, tasks)
  }

  lemma {:induction false} StartInv(tasks: seq<Task>, maxWorkers: nat)
    ensures Inv(Start(tasks), tasks, maxWorkers)
  {
    var r := Start(tasks).ranks;
    AtLeastAll(r, STARTED);
    AtLeastAll(r, SIGNALLED);
    AtLeastAll(r, EXITED);
    LoggedNone(tasks, r);
    MarkedNone(tasks, r);
  }

  /** Every step but the return moves one task one rank up. */
  lemma {:induction false} StepMovesOne(s: State, e: Event, tasks: seq<Task>, maxWorkers: nat) returns (i: nat)
    requires Shape(s, |tasks|) && Enabled(s, e, maxWorkers) && !e.Return?
    ensures i < |tasks| && i == (if e.Submit? then s.next else e.i) && s.ranks[i] < EXITED
    ensures e.Submit? ==> s.ranks[i] == QUEUED
    ensures Step(s, e, tasks, maxWorkers).ranks == s.ranks[i := s.ranks[i] + 1]
    ensures Shape(Step(s, e, tasks, maxWorkers), |tasks|)
    ensures s.ranks[i] == QUEUED ==> s.slots < maxWorkers
    ensures Step(s, e, tasks, maxWorkers).slots == SlotsAfter(s.slots, s.ranks[i])
    ensures Step(s, e, tasks, maxWorkers).wg == if s.ranks[i] == LOGGED then s.wg - 1 else s.wg
    ensures Step(s, e, tasks, maxWorkers).returned == s.returned
    ensures Step(s, e, tasks, maxWorkers).details ==
              if s.ranks[i] == MARKED then s.details + [tasks[i].detail] else s.details
    ensures Step(s, e, tasks, maxWorkers).targets ==
              if s.ranks[i] == STARTED && tasks[i].detail.connected then s.targets + {tasks[i].target} else s.targets
  {
    i := if e.Submit? then s.next else e.i;
  }

  lemma {:induction false} StepKeepsCounts(s: State, i: nat, maxWorkers: nat, t: State)
    requires i < |s.ranks| && s.ranks[i] < EXITED && Counts(s, maxWorkers) && t.ranks == s.ranks[i := s.ranks[i] + 1]
    requires t.slots == SlotsAfter(s.slots, s.ranks[i]) && (s.ranks[i] == QUEUED ==> s.slots < maxWorkers)
    requires t.wg == (if s.ranks[i] == LOGGED then s.wg - 1 else s.wg) && t.returned == s.returned
    ensures Counts(t, maxWorkers)
  {
    assert t.slots == AtLeast(t.ranks, STARTED) - AtLeast(t.ranks, EXITED) by {
      AtLeastUpdate(s.ranks, i, STARTED);
      AtLeastUpdate(s.ranks, i, EXITED);
      AtLeastMonotone(t.ranks, STARTED, EXITED);
    }
    assert t.wg == |t.ranks| - AtLeast(t.ranks, SIGNALLED) >= 0 by {
      AtLeastUpdate(s.ranks, i, SIGNALLED);
      AtLeastAll(t.ranks, SIGNALLED);
    }
  }

  /** The fill of the channel after a task has moved on from the rank. */
  function SlotsAfter(slots: nat, rank: nat): nat {
    if rank == QUEUED then slots + 1
    else if rank == SIGNALLED then if slots > 0 then slots - 1 else 0
    else slots
  }

  lemma {:induction false} AtLeastMonotone(ranks: seq<nat>, j: nat, k: nat)
    requires j <= k
    ensures AtLeast(ranks, k) <= AtLeast(ranks, j)
    decreases |ranks|
  {
    if ranks != [] {
      AtLeastMonotone(ranks[1..], j, k);
    }
  }

  lemma {:induction false} LoggedKept(tasks: seq<Task>, ranks: seq<nat>, i: nat,
                                      before: seq<Detail>, after: seq<Detail>)
    requires i < |ranks| == |tasks| && multiset(before) == Logged(tasks, ranks)
    requires after == if ranks[i] == MARKED then before + [tasks[i].detail] else before
    ensures multiset(after) == Logged(tasks, ranks[i := ranks[i] + 1])
  {
    LoggedUpdate(tasks, ranks, i);
  }

  lemma {:induction false} MarkedKept(tasks: seq<Task>, ranks: seq<nat>, i: nat,
                                      before: set<string>, after: set<string>)
    requires i < |ranks| == |tasks| && before == Marked(tasks, ranks)
    requires after == if ranks[i] == STARTED && tasks[i].detail.connected then before + {tasks[i].target} else before
    ensures after == Marked(tasks, ranks[i := ranks[i] + 1])
  {
    MarkedUpdate(tasks, ranks, i);
  }

  lemma {:induction false} StepKeepsCollected(s: State, tasks: seq<Task>, i: nat, t: State)
    requires i < |s.ranks| == |tasks| && Collected(s, tasks) && t.ranks == s.ranks[i := s.ranks[i] + 1]
    requires t.details == if s.ranks[i] == MARKED then s.details + [tasks[i].detail] else s.details
    requires t.targets ==
      if s.ranks[i] == STARTED && tasks[i].detail.connected then s.targets + {tasks[i].target} else s.targets
    ensures Collected(t, tasks)
  {
    LoggedKept(tasks, s.ranks, i, s.details, t.details);
    MarkedKept(tasks, s.ranks, i, s.targets, t.targets);
  }

  lemma {:induction false} StepKeepsInv(s: State, e: Event, tasks: seq<Task>, maxWorkers: nat)
    requires Inv(s, tasks, maxWorkers) && Enabled(s, e, maxWorkers)
    ensures Inv(Step(s, e, tasks, maxWorkers), tasks, maxWorkers)
  {
    var t := Step(s, e, tasks, maxWorkers);
    if !e.Return? {
      var i := StepMovesOne(s, e, tasks, maxWorkers);
      assert Counts(t, maxWorkers) by { StepKeepsCounts(s, i, maxWorkers, t); }
      assert Collected(t, tasks) by { StepKeepsCollected(s, tasks, i, t); }
    }
  }

  lemma {:induction false} RunKeepsInv(s: State, es: seq<Event>, tasks: seq<Task>, maxWorkers: nat)
    requires Inv(s, tasks, maxWorkers) && Valid(s, es, tasks, maxWorkers)
    ensures Inv(Run(s, es, tasks, maxWorkers), tasks, maxWorkers)
    decreases |es|
  {
    if es != [] {
      StepKeepsInv(s, es[0], tasks, maxWorkers);
      RunKeepsInv(Step(s, es[0], tasks, maxWorkers), es[1..], tasks, maxWorkers);
    }
  }

  function Details(tasks: seq<Task>): seq<Detail> {
    seq(|tasks|, i requires 0 <= i < |tasks| => tasks[i].detail)
  }

  /** The targets with some working connection. */
  function Connected(tasks: seq<Task>): set<string> {
    set i | 0 <= i < |tasks| && tasks[i].detail.connected :: tasks[i].target
  }

  /** The tasks executed one after another, when there is no pool. */
  method RunSequentially(tasks: seq<Task>) returns (targets: set<string>, details: seq<Detail>)
    ensures details == Details(tasks) && targets == Connected(tasks)
    ensures |details| == |tasks| && forall i :: 0 <= i < |tasks| ==> details[i] == tasks[i].detail
    ensures forall i :: 0 <= i < |tasks| && tasks[i].detail.connected ==> tasks[i].target in targets
  {
    targets, details := {}, [];
    for k := 0 to |tasks|
      invariant details == Details(tasks[..k]) && targets == Connected(tasks[..k])
    {
      assert tasks[..k + 1] == tasks[..k] + [tasks[k]];
      ConnectedSnoc(tasks[..k], tasks[k]);
      if tasks[k].detail.connected {
        targets := targets + {tasks[k].target};
      }
      details := details + [tasks[k].detail];
    }
    assert tasks[..|tasks|] == tasks;
  }

  lemma {:induction false} ConnectedSnoc(tasks: seq<Task>, t: Task)
    ensures Connected(tasks + [t]) == Connected(tasks) + if t.detail.connected then {t.target} else {}
  {
    var all := tasks + [t];
    forall x | x in Connected(tasks) ensures x in Connected(all) {
      var j :| 0 <= j < |tasks| && tasks[j].detail.connected && x == tasks[j].target;
      assert all[j] == tasks[j];
    }
    if t.detail.connected {
      assert all[|tasks|] == t;
    }
  }

  /**
   Pooled execution refines the sequential one.  In every schedule at most `maxWorkers` tasks run at
   any moment; and when SubmitAndWait has returned, every task has run to its end exactly once, the
   details are a permutation of the sequential ones and the connected targets are the same.
   */
  lemma {:induction false} PoolRefinesSequence(es: seq<Event>, tasks: seq<Task>, maxWorkers: nat)
    requires Valid(Start(tasks), es, tasks, maxWorkers)
    ensures var s := Run(Start(tasks), es, tasks, maxWorkers);
      && AtLeast(s.ranks, STARTED) - AtLeast(s.ranks, EXITED) <= maxWorkers
      && |s.ranks| == |tasks|
      && (s.returned ==>
            && (forall i :: 0 <= i < |tasks| ==> s.ranks[i] >= SIGNALLED)
            && multiset(s.details) == multiset(Details(tasks))
            && s.targets == Connected(tasks))
  {
    StartInv(tasks, maxWorkers);
    RunKeepsInv(Start(tasks), es, tasks, maxWorkers);
    var s := Run(Start(tasks), es, tasks, maxWorkers);
    if s.returned {
      AtLeastAll(s.ranks, SIGNALLED);
      LoggedAll(tasks, s.ranks);
      MarkedAll(tasks, s.ranks);
    }
  }

  /**
   SubmitAndWait does return: with at least one worker some step is always possible until it has,
   and every step brings the end nearer.
   */
  lemma {:induction false} PoolTerminates(s: State, tasks: seq<Task>, maxWorkers: nat)
    requires Inv(s, tasks, maxWorkers) && maxWorkers > 0
    ensures !s.returned ==> exists e :: Enabled(s, e, maxWorkers)
    ensures forall e :: Enabled(s, e, maxWorkers) ==>
      var t := Step(s, e, tasks, maxWorkers);
      Left(t.ranks) + (if t.returned then 0 else 1) < Left(s.ranks) + (if s.returned then 0 else 1)
  {
    forall e | Enabled(s, e, maxWorkers)
      ensures var t := Step(s, e, tasks, maxWorkers);
        Left(t.ranks) + (if t.returned then 0 else 1) < Left(s.ranks) + (if s.returned then 0 else 1)
    {
      if e.Submit? {
        assert s.ranks[s.next] == QUEUED;
        LeftUpdate(s.ranks, s.next);
      } else if e.Advance? {
        LeftUpdate(s.ranks, e.i);
      }
    }
    if !s.returned {
      if i :| 0 <= i < |tasks| && STARTED <= s.ranks[i] < EXITED {
        assert Enabled(s, Advance(i), maxWorkers);
      } else if s.next < |tasks| {
        StartedAreExited(s.ranks);
        assert Enabled(s, Submit, maxWorkers);
      } else {
        AllSignalled(s.ranks);
        assert Enabled(s, Return, maxWorkers);
      }
    }
  }

  /** As many tasks as there are workers do run at once: that many submits in a row are possible. */
  lemma {:induction false} WorkersRunTogether(tasks: seq<Task>, maxWorkers: nat, k: nat)
    requires k <= maxWorkers && k <= |tasks|
    ensures Valid(Start(tasks), seq(k, _ => Submit), tasks, maxWorkers)
    ensures var s := Run(Start(tasks), seq(k, _ => Submit), tasks, maxWorkers);
      s.slots == k && s.next == k && k <= |s.ranks| && forall i :: 0 <= i < k ==> s.ranks[i] == STARTED
  {
    SubmitsRun(Start(tasks), tasks, maxWorkers, k);
  }

  lemma {:induction false} SubmitsRun(s: State, tasks: seq<Task>, maxWorkers: nat, k: nat)
    requires |s.ranks| == |tasks| && s.slots == s.next && s.next + k <= maxWorkers && s.next + k <= |tasks|
    ensures Valid(s, seq(k, _ => Submit), tasks, maxWorkers)
    ensures var t := Run(s, seq(k, _ => Submit), tasks, maxWorkers);
      && t.slots == t.next == s.next + k && |t.ranks| == |tasks|
      && forall i :: 0 <= i < |tasks| ==> t.ranks[i] == if s.next <= i < s.next + k then STARTED else s.ranks[i]
    decreases k
  {
    if k > 0 {
      assert seq(k, _ => Submit)[1..] == seq(k - 1, _ => Submit);
      SubmitsRun(Step(s, Submit, tasks, maxWorkers), tasks, maxWorkers, k - 1);
    }
  }

  lemma {:induction false} StartedAreExited(ranks: seq<nat>)
    requires forall i :: 0 <= i < |ranks| ==> ranks[i] < STARTED || ranks[i] >= EXITED
    ensures AtLeast(ranks, STARTED) == AtLeast(ranks, EXITED)
    decreases |ranks|
  {
    if ranks != [] {
      StartedAreExited(ranks[1..]);
    }
  }

  lemma {:induction false} AllSignalled(ranks: seq<nat>)
    requires forall i :: 0 <= i < |ranks| ==> ranks[i] >= SIGNALLED
    ensures AtLeast(ranks, SIGNALLED) == |ranks|
    decreases |ranks|
  {
    if ranks != [] {
      AllSignalled(ranks[1..]);
    }
  }

  // ------------------------------------------------------------------------------------------
  // Verification of a set of pods
  // ------------------------------------------------------------------------------------------

  datatype Pod = Pod(name: string, node: string)

  /** What testing the connection from one target pod to one source pod gives. */
  datatype Outcome = TestError(cause: string) | Refused(message: string) | Reachable

  /** The detail names both nodes, is connected exactly if the test was passed, and has an error exactly if not. */
  function TaskFor(target: Pod, source: Pod, test: (Pod, Pod) -> Outcome): (t: Task)
    ensures t.target == target.name && t.detail.sourceNode == source.node && t.detail.targetNode == target.node
    ensures t.detail.connected <==> test(target, source).Reachable?
    ensures t.detail.connected <==> t.detail.error == ""
  {
    Task(target.name,
         match test(target, source)
         case TestError(cause) => Detail(source.node, target.node, false, "Error testing connection: " + cause)
         case Refused(message) => Detail(source.node, target.node, false, "Connection failed: " + message)
         case Reachable => Detail(source.node, target.node, true, ""))
  }

  /** A target is connected when it reaches some source. */
  predicate Connects(target: Pod, sources: seq<Pod>, test: (Pod, Pod) -> Outcome) {
    exists j :: 0 <= j < |sources| && test(target, sources[j]).Reachable?
  }

  /** The names of the connected ones among the targets. */
  function ConnectedNames(targets: seq<Pod>, sources: seq<Pod>, test: (Pod, Pod) -> Outcome): set<string> {
    set i | 0 <= i < |targets| && Connects(targets[i], sources, test) :: targets[i].name
  }

  function TasksOf(target: Pod, sources: seq<Pod>, test: (Pod, Pod) -> Outcome): seq<Task> {
    seq(|sources|, j requires 0 <= j < |sources| => TaskFor(target, sources[j], test))
  }

  /** One task for every target and source, target by target. */
  function AllTasks(targets: seq<Pod>, sources: seq<Pod>, test: (Pod, Pod) -> Outcome): seq<Task> {
    if targets == [] then []
    else AllTasks(targets[..|targets| - 1], sources, test) + TasksOf(targets[|targets| - 1], sources, test)
  }

  method BuildTasks(targets: seq<Pod>, sources: seq<Pod>, test: (Pod, Pod) -> Outcome) returns (tasks: seq<Task>)
    ensures tasks == AllTasks(targets, sources, test)
  {
    tasks := [];
    for i := 0 to |targets|
      invariant tasks == AllTasks(targets[..i], sources, test)
    {
      ghost var before := tasks;
      for j := 0 to |sources|
        invariant tasks == before + TasksOf(targets[i], sources[..j], test)
      {
        tasks := tasks + [TaskFor(targets[i], sources[j], test)];
      }
      assert sources[..|sources|] == sources;
      assert targets[..i + 1][..i] == targets[..i];
    }
    assert targets[..|targets|] == targets;
  }

  /** The task of the i-th target and the j-th source, by its place in the list. */
  lemma {:induction false} AllTasksAt(targets: seq<Pod>, sources: seq<Pod>, test: (Pod, Pod) -> Outcome, i: nat, j: nat)
    requires i < |targets| && j < |sources|
    ensures |AllTasks(targets, sources, test)| == |targets| * |sources|
    ensures i * |sources| + j < |AllTasks(targets, sources, test)|
    ensures AllTasks(targets, sources, test)[i * |sources| + j] == TaskFor(targets[i], sources[j], test)
    decreases |targets|
  {
    var n, front := |sources|, targets[..|targets| - 1];
    var before := AllTasks(front, sources, test);
    AllTasksCount(front, sources, test);
    AllTasksCount(targets, sources, test);
    if i < |front| {
      AllTasksAt(front, sources, test, i, j);
    }
  }

  lemma {:induction false} OneMoreRow(n: nat, m: nat)
    requires n > 0
    ensures n * m == (n - 1) * m + m
  {
  }

  lemma {:induction false} AllTasksCount(targets: seq<Pod>, sources: seq<Pod>, test: (Pod, Pod) -> Outcome)
    ensures |AllTasks(targets, sources, test)| == |targets| * |sources|
    decreases |targets|
  {
    if targets != [] {
      AllTasksCount(targets[..|targets| - 1], sources, test);
      OneMoreRow(|targets|, |sources|);
    }
  }

  lemma {:induction false} ConnectedConcat(a: seq<Task>, b: seq<Task>)
    ensures Connected(a + b) == Connected(a) + Connected(b)
  {
    var all := a + b;
    forall x | x in Connected(a) + Connected(b) ensures x in Connected(all) {
      if x in Connected(a) {
        var j :| 0 <= j < |a| && a[j].detail.connected && x == a[j].target;
        assert all[j] == a[j];
      } else {
        var j :| 0 <= j < |b| && b[j].detail.connected && x == b[j].target;
        assert all[|a| + j] == b[j];
      }
    }
  }

  lemma {:induction false} ConnectedOfTarget(target: Pod, sources: seq<Pod>, test: (Pod, Pod) -> Outcome)
    ensures Connected(TasksOf(target, sources, test)) == if Connects(target, sources, test) then {target.name} else {}
  {
    var ts := TasksOf(target, sources, test);
    if Connects(target, sources, test) {
      var j :| 0 <= j < |sources| && test(target, sources[j]).Reachable?;
      assert ts[j].detail.connected && ts[j].target == target.name;
    }
  }

  lemma {:induction false} NamesSnoc(targets: seq<Pod>, t: Pod, sources: seq<Pod>, test: (Pod, Pod) -> Outcome)
    ensures ConnectedNames(targets + [t], sources, test) ==
              ConnectedNames(targets, sources, test) + if Connects(t, sources, test) then {t.name} else {}
  {
    var all := targets + [t];
    forall x | x in ConnectedNames(targets, sources, test) ensures x in ConnectedNames(all, sources, test) {
      var i :| 0 <= i < |targets| && Connects(targets[i], sources, test) && x == targets[i].name;
      assert all[i] == targets[i];
    }
    assert all[|targets|] == t;
  }

  /** The tasks connect exactly the targets that reach some source. */
  lemma {:induction false} TasksConnect(targets: seq<Pod>, sources: seq<Pod>, test: (Pod, Pod) -> Outcome)
    ensures Connected(AllTasks(targets, sources, test)) == ConnectedNames(targets, sources, test)
    decreases |targets|
  {
    if targets != [] {
      var front, last := targets[..|targets| - 1], targets[|targets| - 1];
      assert targets == front + [last];
      TasksConnect(front, sources, test);
      ConnectedConcat(AllTasks(front, sources, test), TasksOf(last, sources, test));
      ConnectedOfTarget(last, sources, test);
      NamesSnoc(front, last, sources, test);
    }
  }

  /** Every target is connected and no two share a name. */
  predicate FullyConnected(targets: seq<Pod>, sources: seq<Pod>, test: (Pod, Pod) -> Outcome) {
    && (forall i :: 0 <= i < |targets| ==> Connects(targets[i], sources, test))
    && (forall i, j :: 0 <= i < j < |targets| ==> targets[i].name != targets[j].name)
  }

  lemma {:induction false} FullySnoc(targets: seq<Pod>, t: Pod, sources: seq<Pod>, test: (Pod, Pod) -> Outcome)
    ensures FullyConnected(targets + [t], sources, test) <==>
      && FullyConnected(targets, sources, test) && Connects(t, sources, test)
      && t.name !in ConnectedNames(targets, sources, test)
  {
    var all := targets + [t];
    assert forall i :: 0 <= i < |targets| ==> all[i] == targets[i];
    assert all[|targets|] == t;
    if FullyConnected(all, sources, test) {
      assert forall i :: 0 <= i < |targets| ==> Connects(all[i], sources, test);
    } else if FullyConnected(targets, sources, test) && Connects(t, sources, test) {
      var i :| 0 <= i < |targets| && targets[i].name == t.name;
      assert Connects(targets[i], sources, test);
    }
  }

  lemma {:induction false} CountConnected(targets: seq<Pod>, sources: seq<Pod>, test: (Pod, Pod) -> Outcome)
    ensures |ConnectedNames(targets, sources, test)| <= |targets|
    ensures |ConnectedNames(targets, sources, test)| == |targets| <==> FullyConnected(targets, sources, test)
    decreases |targets|
  {
    if targets != [] {
      var front, last := targets[..|targets| - 1], targets[|targets| - 1];
      assert targets == front + [last];
      CountConnected(front, sources, test);
      NamesSnoc(front, last, sources, test);
      FullySnoc(front, last, sources, test);
      SizeSnoc(ConnectedNames(front, sources, test), last.name);
    }
  }

  lemma {:induction false} SizeSnoc(names: set<string>, name: string)
    ensures |names + {name}| == |names| + if name in names then 0 else 1
  {
    if name in names {
      assert names + {name} == names;
    }
  }

  /**
   What verification reports, in every schedule of the pool: ConnectedAgents is the number of distinct
   names of targets that reach some source.  It never exceeds TotalTargetAgents, and reaches it exactly
   when every target is connected and their names are distinct.
   */
  lemma {:induction false} VerificationReport(es: seq<Event>, targets: seq<Pod>, sources: seq<Pod>,
                                              test: (Pod, Pod) -> Outcome, maxWorkers: nat)
    requires Valid(Start(AllTasks(targets, sources, test)), es, AllTasks(targets, sources, test), maxWorkers)
    requires Run(Start(AllTasks(targets, sources, test)), es, AllTasks(targets, sources, test), maxWorkers).returned
    ensures var s := Run(Start(AllTasks(targets, sources, test)), es, AllTasks(targets, sources, test), maxWorkers);
      && multiset(s.details) == multiset(Details(AllTasks(targets, sources, test)))
      && s.targets == ConnectedNames(targets, sources, test)
      && |s.targets| <= |targets|
      && (|s.targets| == |targets| <==> FullyConnected(targets, sources, test))
  {
    PoolRefinesSequence(es, AllTasks(targets, sources, test), maxWorkers);
    TasksConnect(targets, sources, test);
    CountConnected(targets, sources, test);
  }
}
