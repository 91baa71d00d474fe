/**
 The ClusterMapping controller: status updates that retry on conflicts, the pacing by backoff, and the
 phase machine that every reconcile pass moves by at most one edge.
 */
module ClusterMapping {
  import opened Options
  import opened Backoff
  import opened WorkerPool
  import opened StoredObjects

  datatype Phase = Empty | Pending | Connecting | Connected | Failed | Unknown(name: string)

  /** What the message of a status says; `cause` is the text of an error. */
  datatype Message =
    | NoMessage | Initializing | Resetting | Starting | Retrying
    | ValidationFailed(cause: string) | NoClusters(cause: string) | NoClients(cause: string)
    | NoKeys(cause: string) | NotVerified(cause: string)
    | EveryAgentConnected | OnlyConnected(connected: nat, total: nat) | VerificationDisabled

  /** The details are listed in the order in which the tasks of the pool end, which is not kept. */
  datatype Report = Report(totalSourceAgents: nat, totalTargetAgents: nat, connectedAgents: nat,
                           details: multiset<Detail>)

  datatype Status = Status(phase: Phase, message: Message, consecutiveFailures: int, lastAttemptTime: Option<int>,
                           lastVerified: Option<int>, connectionStatus: Option<Report>)

  const NEW_MAPPING := Status(Empty, NoMessage, 0, None, None, None)

  // ------------------------------------------------------------------------------------------
  // Updates that retry on conflicts
  // ------------------------------------------------------------------------------------------

  /** One attempt: what others store before its two calls, and how these are answered. */
  datatype Attempt = Attempt(before: seq<Status>, getOk: bool, between: seq<Status>, reply: Reply)

  datatype UpdateResult = Updated | CallFailed | Conflicts

  /** What others store during an attempt, which ends early if its Get fails. */
  function Landed(a: Attempt): seq<Status> {
    a.before + if a.getOk then a.between else []
  }

  function LastOf(s: seq<Status>): Status
    requires s != []
  {
    s[|s| - 1]
  }

  /** `was` is the history before the first attempt, then after each attempt without what we stored. */
  ghost predicate Story(was: seq<seq<Status>>, attempts: nat -> Attempt) {
    was != [] && was[0] != [] && forall i :: 0 <= i < |was| - 1 ==> Follows(was, attempts, i)
  }

  ghost predicate Follows(was: seq<seq<Status>>, attempts: nat -> Attempt, i: nat)
    requires i < |was| - 1
  {
    was[i + 1] == was[i] + Landed(attempts(i))
  }

  lemma {:induction false} StoryGoesOn(was: seq<seq<Status>>, attempts: nat -> Attempt) returns (next: seq<seq<Status>>)
    requires Story(was, attempts)
    ensures |next| == |was| + 1 && next[0] == was[0] && next[|was|] == was[|was| - 1] + Landed(attempts(|was| - 1))
    ensures Story(next, attempts)
  {
    next := was + [was[|was| - 1] + Landed(attempts(|was| - 1))];
    forall i | 0 <= i < |next| - 1 ensures Follows(next, attempts, i) {
      assert i < |was| - 1 ==> Follows(was, attempts, i);
    }
  }

  /** The number of attempts of retry.DefaultRetry. */
  const STEPS: nat := 5

  /** Nothing is stored after `seen`, or the update of the last status there. */
  ghost predicate WroteOver(seen: seq<Status>, stored: bool, updateFn: Status -> Status, now: seq<Status>) {
    seen != [] && now == if stored then seen + [updateFn(LastOf(seen))] else seen
  }

  /** What the result of an attempt says about it. */
  predicate Ended(r: UpdateResult, stored: bool, a: Attempt) {
    && (r.Updated? ==> stored && a.getOk && a.reply.Answered? && a.between == [])
    && (r.CallFailed? ==> (!a.getOk || !a.reply.Answered?) && (stored <==> a.getOk && a.reply.Lost? && a.between == []))
    && (r.Conflicts? ==> !stored && a.getOk && a.reply.Answered? && a.between != [])
  }

  /** One attempt; `Conflicts` when someone else stored between its Get and its Update. */
  method TryUpdate(cm: StoredObject<Status>, updateFn: Status -> Status, a: Attempt)
    returns (r: UpdateResult, ghost stored: bool)
    requires cm.Valid()
    modifies cm
    ensures cm.Valid()
    ensures WroteOver(old(cm.history) + Landed(a), stored, updateFn, cm.history) && Ended(r, stored, a)
  {
    cm.Interfere(a.before);
    stored := false;
    if !a.getOk {
      return CallFailed, stored;
    }
    var version, wanted := cm.version, updateFn(cm.value);
    cm.Interfere(a.between);
    var conflict := version != cm.version;
    if a.reply != Rejected && !conflict {
      cm.Store(wanted);
      stored := true;
    }
    r := if a.reply != Answered then CallFailed else if conflict then Conflicts else Updated;
  }

  /**
   An update that succeeds stores exactly one status, made from the one stored just before it; one that
   fails stores none, unless the answer was lost.  All other entries of the history are those that others
   stored, in their order.
   */
  method UpdateStatusWithRetry(cm: StoredObject<Status>, updateFn: Status -> Status, attempts: nat -> Attempt)
    returns (r: UpdateResult, made: nat, ghost was: seq<seq<Status>>, ghost stored: bool)
    requires cm.Valid()
    modifies cm
    ensures cm.Valid() && 1 <= made <= STEPS
    ensures |was| == made + 1 && was[0] == old(cm.history) && Story(was, attempts)
    ensures WroteOver(was[made], stored, updateFn, cm.history) && Ended(r, stored, attempts(made - 1))
    ensures forall n :: 0 <= n < made - 1 ==> Ended(Conflicts, false, attempts(n))
    ensures r == Conflicts ==> made == STEPS
  {
    made, was, r, stored := 0, [cm.history], Conflicts, false;
    while made < STEPS
      invariant cm.Valid() && made <= STEPS && r == Conflicts && !stored
      invariant |was| == made + 1 && was[0] == old(cm.history) && was[made] == cm.history && Story(was, attempts)
      invariant forall n :: 0 <= n < made ==> Ended(Conflicts, false, attempts(n))
    {
      var a := attempts(made);
      ghost var next := StoryGoesOn(was, attempts);
      r, stored := TryUpdate(cm, updateFn, a);
      assert WroteOver(next[made + 1], stored, updateFn, cm.history);
      was, made := next, made + 1;
      if r != Conflicts {
        return;
      }
    }
  }

  function SetFailed(s: Status, message: Message): Status {
    s.(phase := Failed, message := message, consecutiveFailures := s.consecutiveFailures + 1)
  }

  function Failing(message: Message): Status -> Status {
    (s: Status) => SetFailed(s, message)
  }

  /** The other writers leave the failure count as it is. */
  ghost predicate KeepsCount(count: int, writes: seq<Status>) {
    forall i :: 0 <= i < |writes| ==> writes[i].consecutiveFailures == count
  }

  ghost predicate OthersKeepCount(count: int, attempts: nat -> Attempt) {
    forall n :: 0 <= n < STEPS ==> KeepsCount(count, Landed(attempts(n)))
  }

  lemma {:induction false} CountIsKept(count: int, was: seq<seq<Status>>, attempts: nat -> Attempt, n: nat)
    requires Story(was, attempts) && n < |was| <= STEPS + 1 && LastOf(was[0]).consecutiveFailures == count
    requires OthersKeepCount(count, attempts)
    ensures was[n] != [] && LastOf(was[n]).consecutiveFailures == count
    decreases n
  {
    if n > 0 {
      CountIsKept(count, was, attempts, n - 1);
      assert Follows(was, attempts, n - 1);
    }
  }

  lemma {:induction false} CountAtEnd(count: int, was: seq<seq<Status>>, attempts: nat -> Attempt, stored: bool,
                                      message: Message, history: seq<Status>, now: Status)
    requires Story(was, attempts) && |was| <= STEPS + 1 && LastOf(was[0]).consecutiveFailures == count
    requires OthersKeepCount(count, attempts)
    requires WroteOver(was[|was| - 1], stored, Failing(message), history)
    requires history != [] && now == LastOf(history)
    ensures now.consecutiveFailures == count + if stored then 1 else 0
    ensures stored ==> now.phase == Failed && now.message == message
  {
    CountIsKept(count, was, attempts, |was| - 1);
  }

  /** However many conflicts it went through, a successful call raises the failure count by exactly one. */
  method SetFailedStatusWithRetry(cm: StoredObject<Status>, message: Message, attempts: nat -> Attempt)
    returns (r: UpdateResult, made: nat, ghost stored: bool)
    requires cm.Valid() && OthersKeepCount(cm.value.consecutiveFailures, attempts)
    modifies cm
    ensures cm.Valid() && 1 <= made <= STEPS
    ensures cm.value.consecutiveFailures == old(cm.value.consecutiveFailures) + if stored then 1 else 0
    ensures r == Updated ==> stored && cm.value.phase == Failed && cm.value.message == message
    ensures stored && r != Updated ==> r == CallFailed && attempts(made - 1).reply == Lost
  {
    ghost var count, was := cm.value.consecutiveFailures, [];
    r, made, was, stored := UpdateStatusWithRetry(cm, Failing(message), attempts);
    assert cm.history != [] && cm.value == LastOf(cm.history);
    CountAtEnd(count, was, attempts, stored, message, cm.history, cm.value);
  }

  // ------------------------------------------------------------------------------------------
  // One reconcile pass
  // ------------------------------------------------------------------------------------------

  /** The running agent pods, and what testing each connection gives. */
  datatype Pods = Pods(targets: seq<Pod>, sources: seq<Pod>, test: (Pod, Pod) -> Outcome)

  datatype Fetch = Found | NotFound | GetFailed

  /**
   What a pass finds: the clock, the jitter, the spec, and the outcome of every call.  `attempt` is the
   time that was stored as LastAttemptTime, if that update succeeded; `pods` is None when the agent pods
   cannot be listed; `cause` is the error of the call that failed; `updated` is the outcome of the status
   update at the end; `requeue` is the jitter of the backoff that a failed pass answers with.
   */
  datatype Env = Env(fetch: Fetch, now: int, jitter: real, outside: int, paused: bool, attempt: Option<int>,
                     valid: bool, clusters: bool, clients: bool, keys: bool, verify: bool, pods: Option<Pods>,
                     cause: string, verifiedAt: int, updated: bool, requeue: real, requeueOutside: int)

  const HOUR: int := 3600_000_000_000

  predicate TooSoon(s: Status, env: Env) {
    s.consecutiveFailures > 0 && s.lastAttemptTime.Some?
    && env.now - s.lastAttemptTime.value < CalculateBackoff(s.consecutiveFailures, env.jitter, env.outside)
  }

  predicate Proceeds(s: Status, env: Env) {
    env.fetch.Found? && !TooSoon(s, env) && !env.paused
  }

  /** The report of verifyConnectivity; every schedule of the pool gives the same one. */
  function ReportOf(p: Pods): Report {
    Report(|p.sources|, |p.targets|, |ConnectedNames(p.targets, p.sources, p.test)|,
           multiset(Details(AllTasks(p.targets, p.sources, p.test))))
  }

  predicate AllConnected(r: Report) {
    r.connectedAgents == r.totalTargetAgents && r.totalTargetAgents > 0
  }

  function Verified(s: Status, env: Env, r: Report): Status {
    s.(connectionStatus := Some(r), lastVerified := Some(env.verifiedAt),
       phase := if AllConnected(r) then Connected else Failed,
       message := if AllConnected(r) then EveryAgentConnected
                  else OnlyConnected(r.connectedAgents, r.totalTargetAgents))
  }

  /** The Connected handler has nothing to do until an hour after the last verification. */
  predicate Fresh(s: Status, env: Env) {
    !env.verify || (s.lastVerified.Some? && env.now - s.lastVerified.value <= HOUR)
  }

  /** The message of the first call that fails in the phase, if one does. */
  function Failure(s: Status, env: Env): Option<Message> {
    if s.phase.Pending? then
      if env.valid then None else Some(ValidationFailed(env.cause))
    else if s.phase.Connecting? || (s.phase.Connected? && !Fresh(s, env)) then
      if !env.clusters then Some(NoClusters(env.cause))
      else if !env.clients then Some(NoClients(env.cause))
      else if s.phase.Connecting? && !env.keys then Some(NoKeys(env.cause))
      else if env.verify && env.pods.None? then Some(NotVerified(env.cause))
      else None
    else None
  }

  /** The status that the handler of the phase wants to store. */
  function Handled(s: Status, env: Env): Status {
    if Failure(s, env).Some? then SetFailed(s, Failure(s, env).value)
    else if s.phase.Pending? then
      s.(phase := Connecting, message := Starting)
    else if s.phase.Connecting? && !env.verify then
      s.(lastVerified := Some(env.verifiedAt), phase := Connected,
         message := VerificationDisabled)
    else if s.phase.Connected? && Fresh(s, env) then s
    else if s.phase.Connecting? || s.phase.Connected? then Verified(s, env, ReportOf(env.pods.value))
    else s.(phase := Pending,
            message := if s.phase.Failed? then Retrying
                       else if s.phase.Empty? then Initializing
                       else Resetting)
  }

  function Attempted(s: Status, env: Env): Status {
    if env.attempt.Some? then s.(lastAttemptTime := env.attempt) else s
  }

  function Pass(s: Status, env: Env): Status {
    if !Proceeds(s, env) then s
    else if env.updated then Handled(Attempted(s, env), env)
    else Attempted(s, env)
  }

  /** When the pass asks to be called again; `Erred` when it returns an error. */
  datatype Result = Never | AtOnce | After(ns: int) | Erred

  /** What the handler of the phase answers; the backoff of a failure is that of the count read before it. */
  function HandlerAnswer(s: Status, env: Env): Result {
    if s.phase.Connected? && Fresh(s, env) then After(HOUR)
    else if !env.updated then Erred
    else if Failure(s, env).Some? then After(CalculateBackoff(s.consecutiveFailures, env.requeue, env.requeueOutside))
    else if s.phase.Connecting? then After(if Handled(s, env).phase.Connected? then HOUR else MAX_DELAY)
    else if s.phase.Connected? then After(HOUR)
    else if s.phase.Failed? then After(MAX_DELAY)
    else AtOnce
  }

  function Answer(s: Status, env: Env): Result {
    if env.fetch.GetFailed? then Erred
    else if env.fetch.NotFound? then Never
    else if TooSoon(s, env) then
      After(CalculateBackoff(s.consecutiveFailures, env.jitter, env.outside) - (env.now - s.lastAttemptTime.value))
    else if env.paused then Never
    else HandlerAnswer(Attempted(s, env), env)
  }

  /** The status of one mapping, with the handlers as methods. */
  class Reconciler {
    var status: Status

    constructor ()
      ensures status == NEW_MAPPING
    {
      status := NEW_MAPPING;
    }

    /** Stores the status `s`, if the update succeeds, and then answers `r`. */
    method Update(s: Status, r: Result, env: Env) returns (result: Result)
      modifies this
      ensures status == if env.updated then s else old(status)
      ensures result == if env.updated then r else Erred
    {
      if !env.updated {
        return Erred;
      }
      status := s;
      return r;
    }

    method SetFailedStatus(message: Message, env: Env) returns (result: Result)
      modifies this
      ensures status == if env.updated then SetFailed(old(status), message) else old(status)
      ensures result == if env.updated
        then After(CalculateBackoff(old(status.consecutiveFailures), env.requeue, env.requeueOutside)) else Erred
    {
      var count := status.consecutiveFailures;
      result := Update(status.(phase := Failed, message := message, consecutiveFailures := count + 1),
                       After(CalculateBackoff(count, env.requeue, env.requeueOutside)), env);
    }

    /** Runs the tasks of all pairs and counts the targets that some task connected. */
    method VerifyConnectivity(p: Pods) returns (r: Report)
      ensures r == ReportOf(p)
      ensures r.totalSourceAgents == |p.sources| && r.totalTargetAgents == |p.targets|
      ensures r.connectedAgents == |ConnectedNames(p.targets, p.sources, p.test)|
      ensures |r.details| == |p.targets| * |p.sources|
    {
      var tasks := BuildTasks(p.targets, p.sources, p.test);
      var targets, details := RunSequentially(tasks);
      TasksConnect(p.targets, p.sources, p.test);
      AllTasksCount(p.targets, p.sources, p.test);
      r := Report(|p.sources|, |p.targets|, |targets|, multiset(details));
    }

    method HandleConnecting(env: Env) returns (result: Result)
      requires status.phase == Connecting
      modifies this
      ensures status == if env.updated then Handled(old(status), env) else old(status)
      ensures result == HandlerAnswer(old(status), env)
    {
      if !env.clusters {
        result := SetFailedStatus(NoClusters(env.cause), env);
        return;
      }
      if !env.clients {
        result := SetFailedStatus(NoClients(env.cause), env);
        return;
      }
      if !env.keys {
        result := SetFailedStatus(NoKeys(env.cause), env);
        return;
      }
      var wanted := status;
      var after := HOUR;
      if env.verify {
        if env.pods.None? {
          result := SetFailedStatus(NotVerified(env.cause), env);
          return;
        }
        var r := VerifyConnectivity(env.pods.value);
        wanted := wanted.(connectionStatus := Some(r));
        if r.connectedAgents == r.totalTargetAgents && r.totalTargetAgents > 0 {
          wanted := wanted.(phase := Connected, message := EveryAgentConnected);
        } else {
          wanted := wanted.(phase := Failed, message := OnlyConnected(r.connectedAgents, r.totalTargetAgents));
          after := MAX_DELAY;
        }
      } else {
        wanted := wanted.(phase := Connected, message := VerificationDisabled);
      }
      result := Update(wanted.(lastVerified := Some(env.verifiedAt)), After(after), env);
    }

    method HandleConnected(env: Env) returns (result: Result)
      requires status.phase == Connected
      modifies this
      ensures status == if env.updated then Handled(old(status), env) else old(status)
      ensures result == HandlerAnswer(old(status), env)
    {
      if env.verify && (status.lastVerified.None? || env.now - status.lastVerified.value > HOUR) {
        if !env.clusters {
          result := SetFailedStatus(NoClusters(env.cause), env);
          return;
        }
        if !env.clients {
          result := SetFailedStatus(NoClients(env.cause), env);
          return;
        }
        if env.pods.None? {
          result := SetFailedStatus(NotVerified(env.cause), env);
          return;
        }
        var r := VerifyConnectivity(env.pods.value);
        var phase, message := Failed, OnlyConnected(r.connectedAgents, r.totalTargetAgents);
        if r.connectedAgents == r.totalTargetAgents && r.totalTargetAgents > 0 {
          phase, message := Connected, EveryAgentConnected;
        }
        result := Update(status.(connectionStatus := Some(r), lastVerified := Some(env.verifiedAt),
                                 phase := phase, message := message), After(HOUR), env);
        return;
      }
      return After(HOUR);
    }

    /** The phases whose handlers only move on. */
    method HandleOther(env: Env) returns (result: Result)
      requires status.phase != Connecting && status.phase != Connected
      modifies this
      ensures status == if env.updated then Handled(old(status), env) else old(status)
      ensures result == HandlerAnswer(old(status), env)
    {
      if status.phase == Pending {
        if !env.valid {
          result := SetFailedStatus(ValidationFailed(env.cause), env);
          return;
        }
        result := Update(status.(phase := Connecting, message := Starting),
                         AtOnce, env);
      } else if status.phase == Failed {
        result := Update(status.(phase := Pending, message := Retrying), After(MAX_DELAY), env);
      } else if status.phase == Empty {
        result := Update(status.(phase := Pending, message := Initializing), AtOnce, env);
      } else {
        result := Update(status.(phase := Pending, message := Resetting), AtOnce, env);
      }
    }

    method Reconcile(env: Env) returns (result: Result)
      modifies this
      ensures status == Pass(old(status), env)
      ensures result == Answer(old(status), env)
    {
      if !env.fetch.Found? {
        return if env.fetch.NotFound? then Never else Erred;
      }
      if status.consecutiveFailures > 0 && status.lastAttemptTime.Some? {
        var backoff := CalculateBackoff(status.consecutiveFailures, env.jitter, env.outside);
        var elapsed := env.now - status.lastAttemptTime.value;
        if elapsed < backoff {
          return After(backoff - elapsed);
        }
      }
      if env.paused {
        return Never;
      }
      if env.attempt.Some? {
        status := status.(lastAttemptTime := env.attempt);
      }
      if status.phase == Connecting {
        result := HandleConnecting(env);
      } else if status.phase == Connected {
        result := HandleConnected(env);
      } else {
        result := HandleOther(env);
      }
    }
  }

  // ------------------------------------------------------------------------------------------
  // Whole runs
  // ------------------------------------------------------------------------------------------

  function Run(s: Status, envs: seq<Env>): Status {
    if envs == [] then s else Pass(Run(s, envs[..|envs| - 1]), envs[|envs| - 1])
  }

  /** The edges of the phase machine. */
  predicate Edge(p: Phase, q: Phase) {
    || (q.Pending? && (p.Empty? || p.Unknown? || p.Failed?))
    || (q.Connecting? && p.Pending?)
    || (q.Connected? && p.Connecting?)
    || (q.Failed? && (p.Pending? || p.Connecting? || p.Connected?))
  }

  /** The evidence for being connected: verification is off, or every target reaches a source. */
  ghost predicate Evidence(env: Env) {
    !env.verify || (env.pods.Some? && env.pods.value.targets != []
                    && FullyConnected(env.pods.value.targets, env.pods.value.sources, env.pods.value.test))
  }

  lemma {:induction false} AllConnectedMeans(p: Pods)
    ensures AllConnected(ReportOf(p)) <==> p.targets != [] && FullyConnected(p.targets, p.sources, p.test)
    ensures ReportOf(p).connectedAgents <= ReportOf(p).totalTargetAgents
  {
    CountConnected(p.targets, p.sources, p.test);
  }

  /** A pass that proceeds, gets its status stored, and fails outright. */
  predicate Fails(s: Status, env: Env) {
    Proceeds(s, env) && env.updated && Failure(s, env).Some?
  }

  lemma {:induction false} HandledFollowsEdges(s: Status, env: Env)
    ensures Handled(s, env).phase == s.phase || Edge(s.phase, Handled(s, env).phase)
    ensures Handled(s, env).consecutiveFailures == s.consecutiveFailures + if Failure(s, env).Some? then 1 else 0
    ensures Failure(s, env).Some? ==> Handled(s, env).phase == Failed
    ensures Handled(s, env).lastAttemptTime == s.lastAttemptTime
  {
  }

  /** Every pass keeps the phase or follows an edge, and raises the failure count by one iff it fails outright. */
  lemma {:induction false} PassFollowsEdges(s: Status, env: Env)
    ensures Pass(s, env).phase == s.phase || Edge(s.phase, Pass(s, env).phase)
    ensures Pass(s, env).consecutiveFailures == s.consecutiveFailures + if Fails(s, env) then 1 else 0
    ensures Fails(s, env) ==> Pass(s, env).phase == Failed
    ensures Pass(s, env).lastAttemptTime == if Stores(s, env) then env.attempt else s.lastAttemptTime
  {
    if Proceeds(s, env) {
      HandledFollowsEdges(Attempted(s, env), env);
      assert Failure(Attempted(s, env), env) == Failure(s, env);
    }
  }

  /** A pass that proceeds and stores its attempt time. */
  predicate Stores(s: Status, env: Env) {
    Proceeds(s, env) && env.attempt.Some?
  }

  /** An entry into Connected had evidence, and so had a renewed verification that stayed there. */
  lemma {:induction false} ConnectedHasEvidence(s: Status, env: Env)
    ensures Pass(s, env).phase == Connected && s.phase != Connected ==> s.phase == Connecting && Evidence(env)
    ensures Pass(s, env).phase == Connected && Pass(s, env).lastVerified != s.lastVerified ==> Evidence(env)
  {
    if env.pods.Some? {
      AllConnectedMeans(env.pods.value);
    }
  }

  /**
   What a pass from Connecting comes to: it enters Connected if and only if clusters, clients and keys are
   there and there is the evidence, and then asks for an hour; if not, it fails, outright with the first call
   that failed, or with the numbers of the report and a request for five minutes.
   */
  lemma {:induction false} ConnectingSays(s: Status, env: Env)
    requires s.phase == Connecting && Proceeds(s, env) && env.updated
    ensures var t := Pass(s, env);
      if env.clusters && env.clients && env.keys && Evidence(env) then
        && t.phase == Connected && Answer(s, env) == After(3600_000_000_000) && t.lastVerified == Some(env.verifiedAt)
        && t.message == (if env.verify then EveryAgentConnected else VerificationDisabled)
        && t.consecutiveFailures == s.consecutiveFailures
      else if env.clusters && env.clients && env.keys && env.pods.Some? then
        && t.phase == Failed && Answer(s, env) == After(300_000_000_000) && t.lastVerified == Some(env.verifiedAt)
        && t.message == OnlyConnected(ReportOf(env.pods.value).connectedAgents, |env.pods.value.targets|)
        && t.consecutiveFailures == s.consecutiveFailures
      else
        && t.phase == Failed && t.consecutiveFailures == s.consecutiveFailures + 1
        && t.message == (if !env.clusters then NoClusters(env.cause) else if !env.clients then NoClients(env.cause)
                         else if !env.keys then NoKeys(env.cause) else NotVerified(env.cause))
    ensures env.verify && env.clusters && env.clients && env.keys && env.pods.Some? ==>
      Pass(s, env).connectionStatus == Some(ReportOf(env.pods.value))
  {
    if env.pods.Some? {
      AllConnectedMeans(env.pods.value);
    }
  }

  /** From Connected nothing happens within the hour; after it the evidence decides in the same way. */
  lemma {:induction false} ConnectedSays(s: Status, env: Env)
    requires s.phase == Connected && Proceeds(s, env) && env.updated
    ensures var t := Pass(s, env);
      if !env.verify || (s.lastVerified.Some? && env.now - s.lastVerified.value <= 3600_000_000_000) then
        t == s.(lastAttemptTime := t.lastAttemptTime) && Answer(s, env) == After(3600_000_000_000)
      else if env.clusters && env.clients && env.pods.Some? then
        && (t.phase == Connected <==> Evidence(env)) && (t.phase != Connected ==> t.phase == Failed)
        && t.lastVerified == Some(env.verifiedAt) && t.connectionStatus == Some(ReportOf(env.pods.value))
        && Answer(s, env) == After(3600_000_000_000) && t.consecutiveFailures == s.consecutiveFailures
      else
        && t.phase == Failed && t.consecutiveFailures == s.consecutiveFailures + 1
        && t.message == (if !env.clusters then NoClusters(env.cause) else if !env.clients then NoClients(env.cause)
                         else NotVerified(env.cause))
  {
    if env.pods.Some? {
      AllConnectedMeans(env.pods.value);
    }
  }

  /** The other phases: Pending goes on if the clusters are valid and fails if not, the rest go to Pending. */
  lemma {:induction false} OtherPhasesSay(s: Status, env: Env)
    requires s.phase != Connecting && s.phase != Connected && Proceeds(s, env) && env.updated
    ensures var t := Pass(s, env);
      if s.phase == Pending && env.valid then
        t.phase == Connecting && t.message == Starting && Answer(s, env) == AtOnce
      else if s.phase == Pending then
        && t.phase == Failed && t.message == ValidationFailed(env.cause)
        && t.consecutiveFailures == s.consecutiveFailures + 1
      else
        && t.phase == Pending && t.consecutiveFailures == s.consecutiveFailures
        && Answer(s, env) == (if s.phase == Failed then After(300_000_000_000) else AtOnce)
        && t.message == (if s.phase == Failed then Retrying else if s.phase == Empty then Initializing else Resetting)
  {
  }

  /** A pass that does not proceed, or whose update fails, changes nothing but the attempt time. */
  lemma {:induction false} IdlePassSays(s: Status, env: Env)
    ensures !(env.fetch == Found && !TooSoon(s, env) && !env.paused) ==> Pass(s, env) == s
    ensures Proceeds(s, env) && !env.updated ==>
      Pass(s, env) == s.(lastAttemptTime := if env.attempt.Some? then env.attempt else s.lastAttemptTime)
    ensures env.fetch == GetFailed ==> Answer(s, env) == Erred
    ensures env.fetch == NotFound ==> Answer(s, env) == Never
    ensures env.fetch == Found && !TooSoon(s, env) && env.paused ==> Answer(s, env) == Never
    ensures TooSoon(s, env) <==>
      s.consecutiveFailures > 0 && s.lastAttemptTime.Some?
      && env.now - s.lastAttemptTime.value < CalculateBackoff(s.consecutiveFailures, env.jitter, env.outside)
  {
  }

  lemma {:induction false} RunThree(s: Status, a: Env, b: Env, c: Env)
    ensures Run(s, [a, b, c]) == Pass(Pass(Pass(s, a), b), c)
  {
    RunTwo(s, [], a, b, s);
    assert [] + [a, b] == [a, b];
    assert [a, b, c][..2] == [a, b];
  }

  /** A pass in which every call succeeds. */
  predicate Clean(e: Env) {
    e.fetch.Found? && !e.paused && e.updated && e.valid && e.clusters && e.clients && e.keys
  }

  lemma {:induction false} CleanPass(s: Status, e: Env)
    requires Clean(e) && s.consecutiveFailures == 0 && (s.phase == Empty || s.phase == Pending)
    ensures Pass(s, e).consecutiveFailures == 0 && Pass(s, e).phase == if s.phase == Empty then Pending else Connecting
  {
    OtherPhasesSay(s, e);
    PassFollowsEdges(s, e);
  }

  /** A new mapping is Connected after three passes in which every call succeeds and the evidence is there. */
  lemma {:induction false} CleanPassesConnect(a: Env, b: Env, c: Env)
    requires Clean(a) && Clean(b) && Clean(c) && Evidence(c)
    ensures Run(NEW_MAPPING, [a, b, c]).phase == Connected && Run(NEW_MAPPING, [a, b, c]).consecutiveFailures == 0
  {
    var s1 := Pass(NEW_MAPPING, a);
    CleanPass(NEW_MAPPING, a);
    var s2 := Pass(s1, b);
    CleanPass(s1, b);
    ConnectingSays(s2, c);
    RunThree(NEW_MAPPING, a, b, c);
  }

  /** How many passes of a run failed outright. */
  function FailureCount(s: Status, envs: seq<Env>): nat {
    if envs == [] then 0
    else
      var front := envs[..|envs| - 1];
      FailureCount(s, front) + if Fails(Run(s, front), envs[|envs| - 1]) then 1 else 0
  }

  /** The failure count is never reset: over a run it grows by the number of outright failures. */
  lemma {:induction false} FailuresAddUp(s: Status, envs: seq<Env>)
    ensures Run(s, envs).consecutiveFailures == s.consecutiveFailures + FailureCount(s, envs)
    decreases |envs|
  {
    if envs != [] {
      var front := envs[..|envs| - 1];
      FailuresAddUp(s, front);
      PassFollowsEdges(Run(s, front), envs[|envs| - 1]);
    }
  }

  /**
   In every run of a new mapping that is Connected at the end, some pass found the evidence, and from
   that pass on the phase has been Connected.
   */
  lemma {:induction false} ConnectedSince(envs: seq<Env>) returns (k: nat)
    requires Run(NEW_MAPPING, envs).phase == Connected
    ensures k < |envs| && Evidence(envs[k])
    ensures Run(NEW_MAPPING, envs[..k]).phase == Connecting
    ensures forall i :: k < i <= |envs| ==> Run(NEW_MAPPING, envs[..i]).phase == Connected
    decreases |envs|
  {
    var s, front := NEW_MAPPING, envs[..|envs| - 1];
    assert envs[..|envs|] == envs;
    ConnectedBefore(s, envs);
    if Run(s, front).phase == Connected {
      k := ConnectedSince(front);
      assert envs[..k] == front[..k];
      forall i | k < i <= |envs| ensures Run(s, envs[..i]).phase == Connected {
        if i < |envs| {
          assert envs[..i] == front[..i];
        }
      }
    } else {
      k := |front|;
    }
  }

  lemma {:induction false} ConnectedBefore(s: Status, envs: seq<Env>)
    requires Run(s, envs).phase == Connected && s.phase != Connected
    ensures envs != []
    ensures var front := envs[..|envs| - 1];
      Run(s, front).phase == Connected || (Run(s, front).phase == Connecting && Evidence(envs[|envs| - 1]))
  {
    var front := envs[..|envs| - 1];
    ConnectedHasEvidence(Run(s, front), envs[|envs| - 1]);
  }

  // ------------------------------------------------------------------------------------------
  // Pacing
  // ------------------------------------------------------------------------------------------

  /** A pass that proceeds at time `now`, if the backoff with this jitter lets it. */
  function PassAt(now: int, jitter: real, outside: int): Env {
    Env(Found, now, jitter, outside, false, Some(now), false, false, false, false, true, None, "", now, true, 1.0, 0)
  }

  /** No pass proceeds sooner after the stored attempt than the least backoff. */
  ghost predicate Paced(s: Status)
    requires s.consecutiveFailures >= 1 && s.lastAttemptTime.Some?
  {
    forall env: Env :: Jitter(env.jitter) && Proceeds(s, env) ==>
      env.now - s.lastAttemptTime.value >= Least(s.consecutiveFailures)
  }

  /** Passes are paced, for every jitter and on every platform, exactly for the safe counts. */
  lemma {:induction false} PacedIff(s: Status)
    requires s.consecutiveFailures >= 1 && s.lastAttemptTime.Some?
    ensures Paced(s) <==> Safe(s.consecutiveFailures)
  {
    var n := s.consecutiveFailures;
    SafeIff(n);
    if Safe(n) {
      forall env: Env | Jitter(env.jitter) && Proceeds(s, env) ensures env.now - s.lastAttemptTime.value >= Least(n) {
        assert Bounded(n, env.jitter);
      }
    } else {
      var jitter :| Jitter(jitter) && !Bounded(n, jitter);
      var outside :| !(Least(n) <= CalculateBackoff(n, jitter, outside) <= MAX_DELAY);
      BackoffIsCapped(n, jitter, outside);
      var env := PassAt(s.lastAttemptTime.value + CalculateBackoff(n, jitter, outside), jitter, outside);
      assert Proceeds(s, env);
    }
  }

  /** No pass after the stored attempt is held back. */
  ghost predicate Unpaced(s: Status)
    requires s.lastAttemptTime.Some?
  {
    forall env: Env :: Jitter(env.jitter) && env.now >= s.lastAttemptTime.value ==>
      (Proceeds(s, env) <==> env.fetch.Found? && !env.paused)
  }

  /** Nothing is held back, for any jitter and on any platform, exactly for the powerless counts. */
  lemma {:induction false} UnpacedIff(s: Status)
    requires s.consecutiveFailures >= 1 && s.lastAttemptTime.Some?
    ensures Unpaced(s) <==> Powerless(s.consecutiveFailures)
  {
    var n := s.consecutiveFailures;
    PowerlessIff(n);
    if !Powerless(n) {
      var jitter, outside :| Jitter(jitter) && CalculateBackoff(n, jitter, outside) > 0;
      var env := PassAt(s.lastAttemptTime.value, jitter, outside);
      assert TooSoon(s, env);
      assert !Proceeds(s, env);
    }
  }

  lemma {:induction false} BackoffIsCapped(n: int, jitter: real, outside: int)
    ensures CalculateBackoff(n, jitter, outside) <= MAX_DELAY
  {
  }

  lemma {:induction false} LastAttemptAfter(s: Status, envs: seq<Env>, j: nat)
    requires j < |envs|
    ensures var t := Run(s, envs[..j]);
      Run(s, envs[..j + 1]).lastAttemptTime == if Stores(t, envs[j]) then envs[j].attempt else t.lastAttemptTime
  {
    var t := Run(s, envs[..j]);
    assert envs[..j + 1][..j] == envs[..j];
    assert Run(s, envs[..j + 1]) == Pass(t, envs[j]);
    PassFollowsEdges(t, envs[j]);
  }

  /** A value that changes only where it is stored is the one stored last. */
  lemma {:induction false} LastStoredStays(lasts: seq<Option<int>>, stores: seq<bool>, values: seq<Option<int>>,
                                           i: nat, j: nat)
    requires |stores| == |values| == |lasts| - 1 && i < j < |lasts| && stores[i]
    requires forall m :: 0 <= m < |stores| ==> lasts[m + 1] == if stores[m] then values[m] else lasts[m]
    requires forall m :: i < m < j ==> !stores[m]
    ensures lasts[j] == values[i]
    decreases j
  {
    assert lasts[j - 1 + 1] == if stores[j - 1] then values[j - 1] else lasts[j - 1];
    if i < j - 1 {
      LastStoredStays(lasts, stores, values, i, j - 1);
    }
  }

  lemma {:induction false} LastAttemptStays(s: Status, envs: seq<Env>, i: nat, j: nat)
    requires i < j <= |envs| && Stores(Run(s, envs[..i]), envs[i])
    requires forall m :: i < m < j ==> !Stores(Run(s, envs[..m]), envs[m])
    ensures Run(s, envs[..j]).lastAttemptTime == envs[i].attempt
  {
    var lasts := seq(|envs| + 1, m requires 0 <= m <= |envs| => Run(s, envs[..m]).lastAttemptTime);
    var stores := seq(|envs|, m requires 0 <= m < |envs| => Stores(Run(s, envs[..m]), envs[m]));
    var values := seq(|envs|, m requires 0 <= m < |envs| => envs[m].attempt);
    forall m | 0 <= m < |stores| ensures lasts[m + 1] == if stores[m] then values[m] else lasts[m] {
      LastAttemptAfter(s, envs, m);
    }
    LastStoredStays(lasts, stores, values, i, j);
  }

  /**
   Pacing over whole runs: after a pass that stored its attempt time, the next pass to proceed comes at
   least the least backoff later, if the failure count is then a safe one.
   */
  lemma {:induction false} RunsArePaced(s: Status, envs: seq<Env>, i: nat, j: nat)
    requires i < j < |envs| && Stores(Run(s, envs[..i]), envs[i]) && Proceeds(Run(s, envs[..j]), envs[j])
    requires forall m :: i < m < j ==> !Stores(Run(s, envs[..m]), envs[m])
    requires Safe(Run(s, envs[..j]).consecutiveFailures) && Jitter(envs[j].jitter)
    ensures envs[j].now - envs[i].attempt.value >= Least(Run(s, envs[..j]).consecutiveFailures)
  {
    LastAttemptStays(s, envs, i, j);
    PacedIff(Run(s, envs[..j]));
  }

  /** A pass that is held back asks for the very moment at which it would not be, with the same jitter. */
  lemma {:induction false} HeldPassComesBack(s: Status, env: Env)
    requires env.fetch.Found? && TooSoon(s, env)
    ensures Answer(s, env).After? && Answer(s, env).ns > 0
    ensures forall later :: TooSoon(s, env.(now := later)) <==> later < env.now + Answer(s, env).ns
  {
  }

  /**
   A failed pass asks to be called again after the backoff of the count before it, and so too early: a pass
   at the requested time after the stored attempt is held back, with every jitter, if and only if the time
   asked for is below the cap.  The first failure asks for no time at all.
   */
  lemma {:induction false} FailureAsksTooEarly(s: Status, env: Env, later: Env)
    requires Fails(s, env) && 0 <= s.consecutiveFailures <= 32 && env.attempt.Some? && Jitter(env.requeue)
    requires Answer(s, env).After? && later.now == env.attempt.value + Answer(s, env).ns && Jitter(later.jitter)
    ensures TooSoon(Pass(s, env), later) <==> Answer(s, env).ns < MAX_DELAY
    ensures s.consecutiveFailures == 0 ==> Answer(s, env).ns == 0
  {
    var n, t := s.consecutiveFailures, Pass(s, env);
    PassFollowsEdges(s, env);
    assert Answer(s, env).ns == CalculateBackoff(n, env.requeue, env.requeueOutside);
    BackoffStepsUp(n, env.requeue, env.requeueOutside);
    BackoffBounds(n + 1, later.jitter, later.outside);
  }

  // ------------------------------------------------------------------------------------------
  // Every count is reached
  // ------------------------------------------------------------------------------------------

  /** Two passes, five minutes apart: from Pending to Failed, and back to Pending. */
  lemma {:induction false} OneMoreFailure(s: Status, now: int)
    requires s.phase == Pending && (s.lastAttemptTime.Some? ==> now - s.lastAttemptTime.value >= MAX_DELAY)
    ensures var t := Pass(Pass(s, PassAt(now, 1.0, 0)), PassAt(now + MAX_DELAY, 1.0, 0));
      && t.phase == Pending && t.consecutiveFailures == s.consecutiveFailures + 1
      && t.lastAttemptTime == Some(now + MAX_DELAY)
  {
    BackoffIsCapped(s.consecutiveFailures, 1.0, 0);
    BackoffIsCapped(s.consecutiveFailures + 1, 1.0, 0);
  }

  /** Every failure count is reached by a new mapping whose passes are five minutes apart. */
  lemma {:induction false} EveryCountIsReached(m: nat) returns (envs: seq<Env>)
    ensures |envs| == 2 * m + 1 && forall i :: 0 <= i < |envs| ==> envs[i] == PassAt(i * MAX_DELAY, 1.0, 0)
    ensures var t := Run(NEW_MAPPING, envs);
      t.phase == Pending && t.consecutiveFailures == m && t.lastAttemptTime == Some(2 * m * MAX_DELAY)
    decreases m
  {
    var s := NEW_MAPPING;
    if m == 0 {
      envs := [PassAt(0, 1.0, 0)];
      assert envs[..0] == [];
    } else {
      var front := EveryCountIsReached(m - 1);
      var now := (2 * m - 1) * MAX_DELAY;
      var t := Run(s, front);
      envs := front + [PassAt(now, 1.0, 0), PassAt(now + MAX_DELAY, 1.0, 0)];
      RunTwo(s, front, PassAt(now, 1.0, 0), PassAt(now + MAX_DELAY, 1.0, 0), t);
      OneMoreFailure(t, now);
    }
  }

  lemma {:induction false} RunTwo(s: Status, front: seq<Env>, e: Env, f: Env, t: Status)
    requires Run(s, front) == t
    ensures Run(s, front + [e, f]) == Pass(Pass(t, e), f)
  {
    var envs := front + [e, f];
    assert envs[..|envs| - 1] == front + [e] && (front + [e])[..|front|] == front;
  }
}
