/**
 The PVC work queue of the sync coordinator.  The queue channel is filled and closed before the
 workers start; each worker takes items until the queue is empty, and handles each with a sequence of
 calls in which a failure sends an error on a channel with room for as many errors as there are items.
 The coordinator waits for the workers and reports the errors it finds in the channel.
 */
module WorkQueue {
  import opened Numbers

  // ------------------------------------------------------------------------------------------
  // One item
  // ------------------------------------------------------------------------------------------

  datatype Creation = Created | Existed | Refused

  datatype Check = Found | Missing | Unreadable

  /** How the calls for one item are answered; `matched` and `targets` tell of the target nodes. */
  datatype Answers = Answers(node: bool, matched: bool, targets: bool, create: Creation, check: Check, recreate: bool,
                             pod: Creation, ready: bool, synced: bool)

  datatype Reason = NodeUnknown | NoTargetNode | NotCreated | NotChecked | NoSyncPod | PodNotReady | NotSynced

  /** What the handling of an item does that others can see. */
  datatype Action = Send(reason: Reason) | Sync(ok: bool) | CleanUp

  /** The number of errors sent. */
  function Sends(actions: seq<Action>): nat {
    if actions == [] then 0 else IsSend(actions[0]) + Sends(actions[1..])
  }

  /** The item gets as far as its sync. */
  predicate Reaches(a: Answers) {
    && a.node && (a.matched || a.targets) && !a.create.Refused? && !a.check.Unreadable?
    && (a.check.Missing? ==> a.recreate) && !a.pod.Refused? && a.ready
  }

  /**
   The body of the worker loop.  Every failed call but the last sends its error and goes on to the next
   item; a failed sync sends its error and goes on to clean up.
   */
  method HandleItem(a: Answers) returns (actions: seq<Action>)
    ensures Handles(a, actions)
    ensures !a.node ==> actions == [Send(NodeUnknown)]
    ensures a.node && !a.matched && !a.targets ==> actions == [Send(NoTargetNode)]
    ensures a.node && (a.matched || a.targets) ==>
      actions ==
        if a.create == Refused then [Send(NotCreated)]
        else if a.check == Unreadable then [Send(NotChecked)]
        else if a.check == Missing && !a.recreate then [Send(NotCreated)]
        else if a.pod == Refused then [Send(NoSyncPod)]
        else if !a.ready then [Send(PodNotReady)]
        else if a.synced then [Sync(true), CleanUp]
        else [Sync(false), Send(NotSynced), CleanUp]
  {
    actions := [];
    if !a.node {
      actions := actions + [Send(NodeUnknown)];
      return;
    }
    if !a.matched {
      if !a.targets {
        actions := actions + [Send(NoTargetNode)];
        return;
      }
    }
    if a.create.Refused? {
      actions := actions + [Send(NotCreated)];
      return;
    }
    if a.check.Unreadable? {
      actions := actions + [Send(NotChecked)];
      return;
    } else if a.check.Missing? {
      if !a.recreate {
        actions := actions + [Send(NotCreated)];
        return;
      }
    }
    if a.pod.Refused? {
      actions := actions + [Send(NoSyncPod)];
      return;
    }
    if !a.ready {
      actions := actions + [Send(PodNotReady)];
      return;
    }
    actions := actions + [Sync(a.synced)];
    if !a.synced {
      actions := actions + [Send(NotSynced)];
    }
    actions := actions + [CleanUp];
    SendsOf(actions);
  }

  /** The first call that keeps an item from its sync. */
  function WhyNot(a: Answers): Reason {
    if !a.node then NodeUnknown
    else if !a.matched && !a.targets then NoTargetNode
    else if a.create.Refused? then NotCreated
    else if a.check.Unreadable? then NotChecked
    else if a.check.Missing? && !a.recreate then NotCreated
    else if a.pod.Refused? then NoSyncPod
    else PodNotReady
  }

  /** The item was synced. */
  predicate Succeeds(a: Answers) {
    Reaches(a) && a.synced
  }

  /**
   What is promised of the actions: one error exactly if the item was not synced, none otherwise; a sync
   and a cleanup after it exactly if the sync pod came up; and with no sync, nothing but the error.
   */
  predicate Handles(a: Answers, actions: seq<Action>) {
    && Sends(actions) == (if Succeeds(a) then 0 else 1)
    && |actions| <= 3
    && (Sync(true) in actions <==> Succeeds(a))
    && (if Reaches(a) then
          && |actions| >= 2 && actions[0] == Sync(a.synced) && actions[|actions| - 1] == CleanUp
          && (!a.synced ==> actions[1] == Send(NotSynced))
        else actions == [Send(WhyNot(a))])
  }

  function IsSend(x: Action): nat {
    if x.Send? then 1 else 0
  }

  lemma {:induction false} SendsOf(actions: seq<Action>)
    ensures |actions| == 1 ==> Sends(actions) == IsSend(actions[0])
    ensures |actions| == 2 ==> Sends(actions) == IsSend(actions[0]) + IsSend(actions[1])
    ensures |actions| == 3 ==> Sends(actions) == IsSend(actions[0]) + IsSend(actions[1]) + IsSend(actions[2])
  {
    if 0 < |actions| <= 3 {
      var one := actions[1..];
      if one != [] {
        var two := one[1..];
        if two != [] {
          assert two[1..] == [];
          assert Sends(two) == IsSend(actions[2]);
        }
        assert Sends(one) == IsSend(actions[1]) + Sends(two);
      }
    }
  }

  // ------------------------------------------------------------------------------------------
  // The workers
  // ------------------------------------------------------------------------------------------

  /** One item that was taken from the queue: what, by whom, how it is answered, and what it has sent so far. */
  datatype Handling<T> = Handling(item: T, worker: nat, answers: Answers, sent: nat, done: bool)

  /** A worker that is busy names its entry in the log and what it has still to do there. */
  datatype Worker = Idle | Busy(entry: nat, todo: seq<Action>) | Gone

  datatype Result = Unfinished | Nil | Errors(count: nat, first: nat)

  /** `errors` is the content of the error channel: the entries that sent one, in the order sent. */
  datatype State<T> = State(queue: seq<T>, log: seq<Handling<T>>, workers: seq<Worker>, errors: seq<nat>,
                            result: Result)

  /** `Take` chooses the answers that the item will meet, and with them its actions. */
  datatype Event =
    | Take(w: nat, answers: Answers, actions: seq<Action>)
    | Act(w: nat) | Finish(w: nat) | Leave(w: nat) | Collect

  function Start<T>(items: seq<T>, concurrency: int): State<T> {
    State(items, [], seq(if concurrency < 0 then 0 else concurrency, _ => Idle), [], Unfinished)
  }

  /** A send on the error channel waits while the channel is full; `capacity` is its size. */
  predicate Enabled<T>(s: State<T>, e: Event, capacity: nat) {
    if e.Collect? then s.result.Unfinished? && forall w :: 0 <= w < |s.workers| ==> s.workers[w].Gone?
    else
      && e.w < |s.workers|
      && var x := s.workers[e.w];
         if e.Take? then x.Idle? && s.queue != [] && Handles(e.answers, e.actions)
         else if e.Leave? then x.Idle? && s.queue == []
         else if e.Finish? then x.Busy? && x.entry < |s.log| && x.todo == []
         else x.Busy? && x.entry < |s.log| && x.todo != [] && (x.todo[0].Send? ==> |s.errors| < capacity)
  }

  function Step<T>(s: State<T>, e: Event, capacity: nat): State<T>
    requires Enabled(s, e, capacity)
  {
    if e.Collect? then s.(result := if s.errors == [] then Nil else Errors(|s.errors|, s.errors[0]))
    else if e.Take? then
      s.(queue := s.queue[1..], log := s.log + [Handling(s.queue[0], e.w, e.answers, 0, false)],
         workers := s.workers[e.w := Busy(|s.log|, e.actions)])
    else if e.Leave? then s.(workers := s.workers[e.w := Gone])
    else
      var k := s.workers[e.w].entry;
      if e.Finish? then s.(log := s.log[k := s.log[k].(done := true)], workers := s.workers[e.w := Idle])
      else
        var todo := s.workers[e.w].todo;
        var t := s.(workers := s.workers[e.w := Busy(k, todo[1..])]);
        if !todo[0].Send? then t
        else t.(errors := s.errors + [k], log := s.log[k := s.log[k].(sent := s.log[k].sent + 1)])
  }

  predicate Valid<T>(s: State<T>, es: seq<Event>, capacity: nat)
    decreases |es|
  {
    es == [] || (Enabled(s, es[0], capacity) && Valid(Step(s, es[0], capacity), es[1..], capacity))
  }

  function Run<T>(s: State<T>, es: seq<Event>, capacity: nat): State<T>
    requires Valid(s, es, capacity)
    decreases |es|
  {
    if es == [] then s else Run(Step(s, es[0], capacity), es[1..], capacity)
  }

  // ------------------------------------------------------------------------------------------
  // What every step keeps
  // ------------------------------------------------------------------------------------------

  function Items<T>(log: seq<Handling<T>>): seq<T> {
    seq(|log|, k requires 0 <= k < |log| => log[k].item)
  }

  function Sent<T>(log: seq<Handling<T>>): nat {
    if log == [] then 0 else Sent(log[..|log| - 1]) + log[|log| - 1].sent
  }

  /** Nothing is lost or invented: what was taken and what waits is the list the queue was filled with. */
  ghost predicate Conserved<T>(s: State<T>, items: seq<T>) {
    Items(s.log) + s.queue == items
  }

  /** The errors an item is to send, from its answers. */
  function Due(a: Answers): nat {
    if Succeeds(a) then 0 else 1
  }

  /** The worker at `w` has the entry it is busy with, and what this has sent and will send is what is due. */
  predicate Working<T>(s: State<T>, w: nat) {
    w < |s.workers| && s.workers[w].Busy? ==>
      && s.workers[w].entry < |s.log| && |s.workers[w].todo| <= 3
      && var h := s.log[s.workers[w].entry];
         h.worker == w && !h.done && h.sent + Sends(s.workers[w].todo) == Due(h.answers)
  }

  /** An entry that is not done has a worker that is busy with it; one that is done has sent what is due. */
  predicate Accounted<T>(s: State<T>, k: nat) {
    k < |s.log| ==>
      && s.log[k].worker < |s.workers| && s.log[k].sent <= 1
      && if s.log[k].done then s.log[k].sent == Due(s.log[k].answers)
         else s.workers[s.log[k].worker].Busy? && s.workers[s.log[k].worker].entry == k
  }

  ghost predicate Paired<T>(s: State<T>) {
    (forall w: nat :: Working(s, w)) && forall k: nat :: Accounted(s, k)
  }

  /** The channel has one error of an entry for each that it has sent. */
  ghost predicate Reported<T>(s: State<T>) {
    && |s.errors| == Sent(s.log)
    && forall k: nat :: multiset(s.errors)[k] == if k < |s.log| then s.log[k].sent else 0
  }

  predicate Departed<T>(s: State<T>) {
    && (forall w :: 0 <= w < |s.workers| && s.workers[w].Gone? ==> s.queue == [])
    && (!s.result.Unfinished? ==>
          && (forall w :: 0 <= w < |s.workers| ==> s.workers[w].Gone?)
          && s.result == if s.errors == [] then Nil else Errors(|s.errors|, s.errors[0]))
  }

  ghost predicate Inv<T>(s: State<T>, items: seq<T>) {
    Conserved(s, items) && Paired(s) && Reported(s) && Departed(s)
  }

  lemma {:induction false} SentAfterChange<T>(log: seq<Handling<T>>, k: nat, h: Handling<T>)
    requires k < |log|
    ensures Sent(log[k := h]) == Sent(log) - log[k].sent + h.sent
    decreases |log|
  {
    var front := log[..|log| - 1];
    if k < |front| {
      assert log[k := h][..|log| - 1] == front[k := h];
      SentAfterChange(front, k, h);
    } else {
      assert log[k := h][..|log| - 1] == front;
    }
  }

  lemma {:induction false} SentSnoc<T>(log: seq<Handling<T>>, h: Handling<T>)
    ensures Sent(log + [h]) == Sent(log) + h.sent
  {
    assert (log + [h])[..|log|] == log;
  }

  /** With at most one error each, there are fewer errors than entries if some entry has sent none. */
  lemma {:induction false} SentBounds<T>(log: seq<Handling<T>>)
    requires forall k :: 0 <= k < |log| ==> log[k].sent <= 1
    ensures Sent(log) <= |log|
    ensures Sent(log) == |log| ==> forall k :: 0 <= k < |log| ==> log[k].sent == 1
    ensures Sent(log) == 0 <==> forall k :: 0 <= k < |log| ==> log[k].sent == 0
    decreases |log|
  {
    if log != [] {
      var front := log[..|log| - 1];
      assert forall k :: 0 <= k < |front| ==> front[k] == log[k];
      SentBounds(front);
      if forall k :: 0 <= k < |log| ==> log[k].sent == 0 {
        assert forall k :: 0 <= k < |front| ==> front[k].sent == 0;
      }
    }
  }

  lemma {:induction false} StepKeepsReported<T>(s: State<T>, e: Event, capacity: nat)
    requires Reported(s) && Enabled(s, e, capacity)
    ensures Reported(Step(s, e, capacity))
  {
    if e.Take? {
      SentSnoc(s.log, Handling(s.queue[0], e.w, e.answers, 0, false));
    } else if e.Act? || e.Finish? {
      var k, t := s.workers[e.w].entry, Step(s, e, capacity);
      if t.log != s.log {
        SentAfterChange(s.log, k, t.log[k]);
      }
    }
  }

  lemma {:induction false} StepKeepsWorking<T>(s: State<T>, e: Event, capacity: nat, w: nat)
    requires Paired(s) && Enabled(s, e, capacity)
    ensures Working(Step(s, e, capacity), w)
  {
    assert Working(s, w);
    if !e.Collect? {
      assert Working(s, e.w);
    }
  }

  lemma {:induction false} StepKeepsAccounted<T>(s: State<T>, e: Event, capacity: nat, k: nat)
    requires Paired(s) && Enabled(s, e, capacity)
    ensures Accounted(Step(s, e, capacity), k)
  {
    assert Accounted(s, k);
    if !e.Collect? {
      assert Working(s, e.w);
    }
  }

  lemma {:induction false} StepConserves<T>(s: State<T>, e: Event, items: seq<T>, capacity: nat)
    requires Conserved(s, items) && Enabled(s, e, capacity)
    ensures Conserved(Step(s, e, capacity), items)
  {
    var t := Step(s, e, capacity);
    if e.Take? {
      assert Items(t.log) == Items(s.log) + [s.queue[0]];
    } else {
      assert Items(t.log) == Items(s.log);
    }
  }

  lemma {:induction false} StepKeepsDeparted<T>(s: State<T>, e: Event, capacity: nat)
    requires Departed(s) && Enabled(s, e, capacity)
    ensures Departed(Step(s, e, capacity))
  {
  }

  lemma {:induction false} StepKeepsInv<T>(s: State<T>, e: Event, items: seq<T>)
    requires Inv(s, items) && Enabled(s, e, |items|)
    ensures Inv(Step(s, e, |items|), items)
  {
    var t := Step(s, e, |items|);
    assert Conserved(t, items) by { StepConserves(s, e, items, |items|); }
    assert Paired(t) by {
      forall w: nat ensures Working(t, w) { StepKeepsWorking(s, e, |items|, w); }
      forall k: nat ensures Accounted(t, k) { StepKeepsAccounted(s, e, |items|, k); }
    }
    assert Reported(t) by { StepKeepsReported(s, e, |items|); }
    assert Departed(t) by { StepKeepsDeparted(s, e, |items|); }
  }

  lemma {:induction false} RunKeepsInv<T>(s: State<T>, es: seq<Event>, items: seq<T>)
    requires Inv(s, items) && Valid(s, es, |items|)
    ensures Inv(Run(s, es, |items|), items)
    decreases |es|
  {
    if es != [] {
      StepKeepsInv(s, es[0], items);
      RunKeepsInv(Step(s, es[0], |items|), es[1..], items);
    }
  }

  /** A worker whose next action is a send never waits for room in the channel. */
  lemma {:induction false} SendNeverBlocks<T>(s: State<T>, w: nat, items: seq<T>)
    requires Inv(s, items) && w < |s.workers| && s.workers[w].Busy? && s.workers[w].todo != []
    ensures s.workers[w].todo[0].Send? ==> |s.errors| < |items|
    ensures Enabled(s, Act(w), |items|)
  {
    assert Working(s, w);
    forall k | 0 <= k < |s.log| ensures s.log[k].sent <= 1 {
      assert Accounted(s, k);
    }
    SentBounds(s.log);
    assert |items| == |s.log| + |s.queue|;
  }

  // ------------------------------------------------------------------------------------------
  // Whole runs
  // ------------------------------------------------------------------------------------------

  function Weight(x: Worker): nat {
    if x.Gone? then 0 else if x.Idle? then 1 else 2 + |x.todo|
  }

  /** The number of steps the workers may still take. */
  function Left(workers: seq<Worker>): nat {
    if workers == [] then 0 else Left(workers[1..]) + Weight(workers[0])
  }

  function Distance<T>(s: State<T>): nat {
    5 * |s.queue| + Left(s.workers) + if s.result.Unfinished? then 1 else 0
  }

  lemma {:induction false} LeftSet(workers: seq<Worker>, w: nat, x: Worker)
    requires w < |workers|
    ensures Left(workers[w := x]) == Left(workers) - Weight(workers[w]) + Weight(x)
    decreases |workers|
  {
    if w == 0 {
      assert workers[w := x][1..] == workers[1..];
    } else {
      assert workers[w := x][1..] == workers[1..][w - 1 := x];
      LeftSet(workers[1..], w - 1, x);
    }
  }

  lemma {:induction false} StepComesNearer<T>(s: State<T>, e: Event, capacity: nat)
    requires Enabled(s, e, capacity)
    ensures Distance(Step(s, e, capacity)) < Distance(s)
  {
    if !e.Collect? {
      LeftSet(s.workers, e.w, Step(s, e, capacity).workers[e.w]);
    }
  }

  /** Until the coordinator has its result some step is possible, and every step brings the end nearer. */
  lemma {:induction false} QueueTerminates<T>(s: State<T>, items: seq<T>)
    requires Inv(s, items)
    ensures s.result.Unfinished? ==> exists e :: Enabled(s, e, |items|)
    ensures forall e :: Enabled(s, e, |items|) ==> Distance(Step(s, e, |items|)) < Distance(s)
  {
    forall e | Enabled(s, e, |items|) ensures Distance(Step(s, e, |items|)) < Distance(s) {
      StepComesNearer(s, e, |items|);
    }
    if s.result.Unfinished? {
      if w :| 0 <= w < |s.workers| && !s.workers[w].Gone? {
        assert Working(s, w);
        var e := NextOf(s, w);
        if e.Act? {
          SendNeverBlocks(s, w, items);
        }
        assert Enabled(s, e, |items|);
      } else {
        assert Enabled(s, Collect, |items|);
      }
    }
  }

  /** A step that a worker can take, for an item whose node is unknown if it takes a new one. */
  function NextOf<T>(s: State<T>, w: nat): Event
    requires w < |s.workers|
  {
    var x := s.workers[w];
    if x.Busy? then if x.todo == [] then Finish(w) else Act(w)
    else if s.queue == [] then Leave(w)
    else Take(w, Answers(false, false, false, Refused, Unreadable, false, Refused, false, false), [Send(NodeUnknown)])
  }

  /** As many items as there are workers are handled at once: any idle worker can take the next item. */
  lemma {:induction false} IdleWorkersTake<T>(s: State<T>, w: nat, a: Answers, actions: seq<Action>, capacity: nat)
    requires w < |s.workers| && s.workers[w].Idle? && s.queue != [] && Handles(a, actions)
    ensures Enabled(s, Take(w, a, actions), capacity)
    ensures var t := Step(s, Take(w, a, actions), capacity);
      && t.workers == s.workers[w := Busy(|s.log|, actions)] && t.queue == s.queue[1..]
      && t.log == s.log + [Handling(s.queue[0], w, a, 0, false)]
    ensures forall items: seq<T>, n: int :: |Start(items, n).workers| == if n < 0 then 0 else n
  {
  }

  /**
   The result of SyncPVCs, over every interleaving.  With at least one worker every item was taken by
   exactly one worker and handled to its end, in the order of the queue; the result is nil exactly when
   every item was synced, and otherwise counts those that were not and names the first that reported.
   Without workers the result is nil and no item was taken.
   */
  lemma {:induction false} ResultIsExact<T>(es: seq<Event>, items: seq<T>, concurrency: int)
    requires Valid(Start(items, concurrency), es, |items|)
    requires !Run(Start(items, concurrency), es, |items|).result.Unfinished?
    ensures var s := Run(Start(items, concurrency), es, |items|);
      if concurrency >= 1 then
        && Items(s.log) == items
        && (forall k :: 0 <= k < |s.log| ==> s.log[k].done && s.log[k].sent == Due(s.log[k].answers))
        && (s.result.Nil? <==> forall k :: 0 <= k < |s.log| ==> Succeeds(s.log[k].answers))
        && (s.result.Errors? ==>
              && s.errors != [] && s.result == Errors(|s.errors|, s.errors[0]) && s.result.count == Sent(s.log)
              && s.result.first < |s.log| && !Succeeds(s.log[s.result.first].answers))
      else s.result.Nil? && s.log == []
  {
    var s0 := Start(items, concurrency);
    StartInv(items, concurrency);
    RunKeepsInv(s0, es, items);
    RunKeepsWorkers(s0, es, |items|);
    FinishedMeans(Run(s0, es, |items|), items);
  }

  lemma {:induction false} FinishedMeans<T>(s: State<T>, items: seq<T>)
    requires Inv(s, items) && !s.result.Unfinished?
    ensures s.workers == [] ==> s.result.Nil? && s.log == []
    ensures s.workers != [] ==> Items(s.log) == items
    ensures forall k :: 0 <= k < |s.log| ==> s.log[k].done && s.log[k].sent == Due(s.log[k].answers)
    ensures s.result.Nil? <==> forall k :: 0 <= k < |s.log| ==> Succeeds(s.log[k].answers)
    ensures s.result.Errors? ==>
      && s.errors != [] && s.result == Errors(|s.errors|, s.errors[0]) && s.result.count == Sent(s.log)
      && s.result.first < |s.log| && !Succeeds(s.log[s.result.first].answers)
  {
    forall k | 0 <= k < |s.log|
      ensures s.log[k].done && s.log[k].sent == Due(s.log[k].answers) && s.log[k].worker < |s.workers|
    {
      assert Accounted(s, k);
    }
    SentBounds(s.log);
    if s.workers != [] {
      assert s.workers[0].Gone?;
    }
    if s.errors != [] {
      assert multiset(s.errors)[s.errors[0]] > 0;
    }
  }

  lemma {:induction false} StartInv<T>(items: seq<T>, concurrency: int)
    ensures Inv(Start(items, concurrency), items)
  {
    assert Items<T>([]) == [];
  }

  lemma {:induction false} RunKeepsWorkers<T>(s: State<T>, es: seq<Event>, capacity: nat)
    requires Valid(s, es, capacity)
    ensures |Run(s, es, capacity).workers| == |s.workers|
    decreases |es|
  {
    if es != [] {
      RunKeepsWorkers(Step(s, es[0], capacity), es[1..], capacity);
    }
  }

  // ------------------------------------------------------------------------------------------
  // Retries of one item
  // ------------------------------------------------------------------------------------------

  /** What happens when an attempt is made, and whether the context ends while waiting after it. */
  datatype Attempt = Attempt(ok: bool, cancelled: bool)

  datatype SyncResult = Synced | MaxRetriesReached | Cancelled

  /** The wait after the attempt with index `k`: the first one is not capped. */
  function Wait(initial: int, max: int, k: nat): int {
    if k == 0 then initial else Min(max, initial * Pow2(k))
  }

  /**
   Attempts are made until one succeeds, the context ends or the retries are used up; each wait but the
   first is the doubled one before it, capped.  A negative number of retries makes no attempt at all and
   reports success.
   */
  method SyncWithRetry(attempts: nat -> Attempt, maxRetries: int, initial: int, max: int)
    returns (r: SyncResult, made: nat, waits: seq<int>)
    ensures 0 <= initial && 0 <= max ==>
      forall k :: 0 <= k < |waits| ==>
        waits[k] == if k == 0 || initial * Pow2(k) <= max then initial * Pow2(k) else max
    ensures forall k :: 0 <= k < made - 1 ==> !attempts(k).ok && !attempts(k).cancelled
    ensures maxRetries < 0 ==> r == Synced && made == 0
    ensures maxRetries >= 0 ==>
      && 1 <= made <= maxRetries + 1 && |waits| == made - 1
      && (r == Synced <==> attempts(made - 1).ok)
      && (r == Cancelled <==> made <= maxRetries && !attempts(made - 1).ok && attempts(made - 1).cancelled)
      && (r == MaxRetriesReached ==> made == maxRetries + 1)
  {
    r, made, waits := Synced, 0, [];
    var delay := initial;
    var attempt := 0;
    while attempt <= maxRetries
      invariant attempt >= 0 && made == attempt && |waits| == made && r == Synced
      invariant maxRetries < 0 ==> attempt == 0
      invariant maxRetries >= 0 ==> attempt <= maxRetries
      invariant 0 <= initial && 0 <= max ==> delay == Wait(initial, max, attempt)
      invariant 0 <= initial && 0 <= max ==> forall k :: 0 <= k < |waits| ==> waits[k] == Wait(initial, max, k)
      invariant forall k :: 0 <= k < made ==> !attempts(k).ok && !attempts(k).cancelled
    {
      made := made + 1;
      var a := attempts(attempt);
      if a.ok {
        return;
      }
      if attempt == maxRetries {
        r := MaxRetriesReached;
        return;
      }
      if a.cancelled {
        r := Cancelled;
        return;
      }
      waits := waits + [delay];
      if 0 <= initial && 0 <= max {
        WaitDoubles(initial, max, attempt);
      }
      delay := Min(max, delay * 2);
      attempt := attempt + 1;
    }
  }

  lemma {:induction false} WaitDoubles(initial: int, max: int, k: nat)
    requires 0 <= initial && 0 <= max
    ensures Wait(initial, max, k + 1) == Min(max, Wait(initial, max, k) * 2)
  {
    assert initial * Pow2(k + 1) == initial * Pow2(k) * 2;
    assert initial * Pow2(k) >= 0;
  }
}
