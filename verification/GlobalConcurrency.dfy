/**
 The manager that bounds concurrent PVC syncs: a weighted semaphore, and two counters kept under a
 mutex of their own.  Callers interleave between the critical sections; a change of the limit
 installs a new manager while callers of the old ones are still in flight.
 */
module GlobalConcurrency {

  datatype Manager = Manager(limit: int, held: int, active: int, waiting: int)

  /** Where a caller stands between two critical sections. */
  datatype Stage =
    | Waiting    // counted as waiting, inside semaphore.Acquire
    | Granted    // owns a unit of the semaphore, not yet counted as active
    | Refused    // its context was cancelled, still counted as waiting
    | Active     // Acquire has returned nil
    | Releasing  // has given its unit back, still counted as active

  /** A caller and the manager generation it works with, from Acquire to Release. */
  datatype Caller = Caller(gen: nat, stage: Stage)

  datatype State = State(managers: seq<Manager>, callers: map<nat, Caller>)

  datatype Event =
    | Init(limit: int)
    | Enter(c: nat, gen: nat)  // with any manager that GetGlobalConcurrencyManager may have returned
    | Grant(c: nat)
    | Refuse(c: nat)
    | CountIn(c: nat)
    | CountOut(c: nat)
    | Free(c: nat)
    | Uncount(c: nat)

  predicate At(s: State, c: nat, stage: Stage) {
    c in s.callers && s.callers[c].stage == stage && s.callers[c].gen < |s.managers|
  }

  predicate Enabled(s: State, e: Event) {
    match e
    case Init(_) => true
    case Enter(c, gen) => c !in s.callers && gen < |s.managers|
    case Grant(c) => At(s, c, Waiting) && (var m := s.managers[s.callers[c].gen]; m.held + 1 <= m.limit)
    case Refuse(c) => At(s, c, Waiting)
    case CountIn(c) => At(s, c, Granted)
    case CountOut(c) => At(s, c, Refused)
    case Free(c) => At(s, c, Active)
    case Uncount(c) => At(s, c, Releasing)
  }

  /** The critical section of one event, on the manager it belongs to. */
  function Section(m: Manager, e: Event): Manager {
    match e
    case Enter(_, _) => m.(waiting := m.waiting + 1)
    case Grant(_) => m.(held := m.held + 1)
    case CountIn(_) => m.(waiting := m.waiting - 1, active := m.active + 1)
    case CountOut(_) => m.(waiting := m.waiting - 1)
    case Free(_) => m.(held := m.held - 1)
    case Uncount(_) => m.(active := m.active - 1)
    case _ => m
  }

  /** Where the event leaves its caller; `Out` once the call has returned for good. */
  datatype Place = Out | In(stage: Stage)

  function Goes(e: Event): Place {
    match e
    case Enter(_, _) => In(Waiting)
    case Grant(_) => In(Granted)
    case Refuse(_) => In(Refused)
    case CountIn(_) => In(Active)
    case Free(_) => In(Releasing)
    case _ => Out
  }

  function Step(s: State, e: Event): State
    requires Enabled(s, e)
  {
    if e.Init? then
      if s.managers != [] && s.managers[|s.managers| - 1].limit == e.limit then s
      else s.(managers := s.managers + [Manager(e.limit, 0, 0, 0)])
    else
      var g := if e.Enter? then e.gen else s.callers[e.c].gen;
      State(s.managers[g := Section(s.managers[g], e)],
            if Goes(e).Out? then s.callers - {e.c} else s.callers[e.c := Caller(g, Goes(e).stage)])
  }

  // ------------------------------------------------------------------------------------------
  // Counting callers
  // ------------------------------------------------------------------------------------------

  function Those(callers: map<nat, Caller>, x: Caller): set<nat> {
    set c | c in callers && callers[c] == x
  }

  /** How many callers of generation `g` are at the stage. */
  function N(s: State, g: nat, stage: Stage): nat {
    |Those(s.callers, Caller(g, stage))|
  }

  lemma CountWithout(callers: map<nat, Caller>, c: nat, x: Caller)
    requires c in callers
    ensures |Those(callers, x)| == |Those(callers - {c}, x)| + if callers[c] == x then 1 else 0
  {
    if callers[c] == x {
      assert Those(callers, x) == Those(callers - {c}, x) + {c};
    } else {
      assert Those(callers, x) == Those(callers - {c}, x);
    }
  }

  lemma CountAfter(s: State, e: Event, g: nat, stage: Stage)
    requires Enabled(s, e)
    ensures N(Step(s, e), g, stage) == N(s, g, stage)
      - (if !e.Init? && e.c in s.callers && s.callers[e.c] == Caller(g, stage) then 1 else 0)
      + (if !e.Init? && e.c in Step(s, e).callers && Step(s, e).callers[e.c] == Caller(g, stage) then 1 else 0)
  {
    if !e.Init? {
      var t := Step(s, e);
      assert s.callers - {e.c} == t.callers - {e.c};
      if e.c in s.callers {
        CountWithout(s.callers, e.c, Caller(g, stage));
      } else {
        assert s.callers - {e.c} == s.callers;
      }
      if e.c in t.callers {
        CountWithout(t.callers, e.c, Caller(g, stage));
      } else {
        assert t.callers - {e.c} == t.callers;
      }
    }
  }

  // ------------------------------------------------------------------------------------------
  // Accounting in every interleaving
  // ------------------------------------------------------------------------------------------

  function Max0(x: int): int {
    if x < 0 then 0 else x
  }

  /** The counters of one generation, in terms of its callers. */
  ghost predicate Balanced(s: State, g: nat) {
    g < |s.managers| ==>
      var m := s.managers[g];
      && m.held == N(s, g, Granted) + N(s, g, Active) <= Max0(m.limit)
      && m.active == N(s, g, Active) + N(s, g, Releasing)
      && m.waiting == N(s, g, Waiting) + N(s, g, Granted) + N(s, g, Refused)
  }

  ghost predicate Inv(s: State) {
    && (forall c :: c in s.callers ==> s.callers[c].gen < |s.managers|)
    && forall g: nat :: Balanced(s, g)
  }

  lemma StepKeepsBalance(s: State, e: Event, g: nat)
    requires Inv(s) && Enabled(s, e)
    ensures Balanced(Step(s, e), g)
  {
    CountAfter(s, e, g, Waiting);
    CountAfter(s, e, g, Granted);
    CountAfter(s, e, g, Refused);
    CountAfter(s, e, g, Active);
    CountAfter(s, e, g, Releasing);
    assert Balanced(s, g);
    if e.Init? && g == |s.managers| {
      NobodyThere(s, g, Waiting);
      NobodyThere(s, g, Granted);
      NobodyThere(s, g, Refused);
      NobodyThere(s, g, Active);
      NobodyThere(s, g, Releasing);
    }
  }

  lemma NobodyThere(s: State, g: nat, stage: Stage)
    requires Inv(s) && g >= |s.managers|
    ensures N(s, g, stage) == 0
  {
    assert Those(s.callers, Caller(g, stage)) == {};
  }

  lemma StepKeepsInv(s: State, e: Event)
    requires Inv(s) && Enabled(s, e)
    ensures Inv(Step(s, e))
  {
    forall g: nat ensures Balanced(Step(s, e), g) {
      StepKeepsBalance(s, e, g);
    }
  }

  predicate Valid(s: State, es: seq<Event>)
    decreases |es|
  {
    es == [] || (Enabled(s, es[0]) && Valid(Step(s, es[0]), es[1..]))
  }

  function Run(s: State, es: seq<Event>): State
    requires Valid(s, es)
    decreases |es|
  {
    if es == [] then s else Run(Step(s, es[0]), es[1..])
  }

  lemma {:induction false} RunKeepsInv(s: State, es: seq<Event>)
    requires Inv(s) && Valid(s, es)
    ensures Inv(Run(s, es))
    decreases |es|
  {
    if es != [] {
      StepKeepsInv(s, es[0]);
      RunKeepsInv(Step(s, es[0]), es[1..]);
    }
  }

  /** A new limit installs a new manager with nothing counted; the same limit installs none; no caller moves. */
  lemma {:induction false} InitSays(s: State, limit: int)
    ensures var t := Step(s, Init(limit));
      && t.callers == s.callers
      && t.managers ==
           if s.managers != [] && s.managers[|s.managers| - 1].limit == limit then s.managers
           else s.managers + [Manager(limit, 0, 0, 0)]
  {
  }

  const NOBODY := State([], map[])

  /**
   Every run from the start: the held weight never exceeds the limit; active callers and those not
   yet counted make up the held weight and those not yet uncounted; no counter goes negative; with no
   caller between its two critical sections the active count is exact; and it exceeds the limit by no
   more than the callers that are releasing.
   */
  lemma Accounting(es: seq<Event>, g: nat)
    requires Valid(NOBODY, es) && g < |Run(NOBODY, es).managers|
    ensures var s := Run(NOBODY, es); var m := s.managers[g];
      && 0 <= m.held <= Max0(m.limit)
      && m.active + N(s, g, Granted) == m.held + N(s, g, Releasing)
      && 0 <= m.active && 0 <= m.waiting
      && (N(s, g, Granted) == N(s, g, Releasing) == 0 ==> m.active == m.held == N(s, g, Active))
      && (N(s, g, Granted) == N(s, g, Refused) == 0 ==> m.waiting == N(s, g, Waiting))
      && m.active <= Max0(m.limit) + N(s, g, Releasing)
  {
    assert Inv(NOBODY);
    RunKeepsInv(NOBODY, es);
    assert Balanced(Run(NOBODY, es), g);
  }

  ghost predicate Reachable(s: State) {
    exists es :: Valid(NOBODY, es) && Run(NOBODY, es) == s
  }

  lemma {:induction false} RunSnoc(s: State, es: seq<Event>, e: Event)
    requires Valid(s, es) && Enabled(Run(s, es), e)
    ensures Valid(s, es + [e]) && Run(s, es + [e]) == Step(Run(s, es), e)
    decreases |es|
  {
    if es == [] {
      assert es + [e] == [e] && [e][1..] == [];
    } else {
      assert (es + [e])[1..] == es[1..] + [e];
      RunSnoc(Step(s, es[0]), es[1..], e);
    }
  }

  lemma ReachNext(s: State, e: Event)
    requires Reachable(s) && Enabled(s, e)
    ensures Reachable(Step(s, e))
  {
    var es :| Valid(NOBODY, es) && Run(NOBODY, es) == s;
    RunSnoc(NOBODY, es, e);
  }

  /** A caller that gets its slot at once. */
  lemma ReachActive(m: Manager, callers: map<nat, Caller>, c: nat) returns (t: State)
    requires Reachable(State([m], callers)) && c !in callers && m.held + 1 <= m.limit
    ensures t == State([m.(held := m.held + 1, active := m.active + 1)], callers[c := Caller(0, Active)])
    ensures Reachable(t)
  {
    var s := State([m], callers);
    ReachNext(s, Enter(c, 0));
    var s1 := Step(s, Enter(c, 0));
    ReachNext(s1, Grant(c));
    var s2 := Step(s1, Grant(c));
    ReachNext(s2, CountIn(c));
    t := Step(s2, CountIn(c));
    assert t.callers == callers[c := Caller(0, Active)];
  }

  /**
   There is no other bound: with any limit of at least one, every active count is reached, because the
   semaphore is given back before the count goes down.
   */
  lemma {:induction false} EveryActiveCountIsReached(limit: int, k: nat) returns (callers: map<nat, Caller>)
    requires limit >= 1
    ensures Reachable(State([Manager(limit, 0, k, 0)], callers))
    ensures forall c :: c in callers ==> c < k && callers[c] == Caller(0, Releasing)
    decreases k
  {
    if k == 0 {
      assert Reachable(NOBODY) by { assert Valid(NOBODY, []) && Run(NOBODY, []) == NOBODY; }
      ReachNext(NOBODY, Init(limit));
      callers := map[];
      assert Step(NOBODY, Init(limit)) == State([Manager(limit, 0, 0, 0)], callers);
    } else {
      var front := EveryActiveCountIsReached(limit, k - 1);
      var s := ReachActive(Manager(limit, 0, k - 1, 0), front, k - 1);
      ReachNext(s, Free(k - 1));
      callers := front[k - 1 := Caller(0, Releasing)];
      assert Step(s, Free(k - 1)) == State([Manager(limit, 0, k, 0)], callers);
    }
  }

  // ------------------------------------------------------------------------------------------
  // Across changes of the limit
  // ------------------------------------------------------------------------------------------

  function Held(ms: seq<Manager>): int
    decreases |ms|
  {
    if ms == [] then 0 else Held(ms[..|ms| - 1]) + ms[|ms| - 1].held
  }

  /** The limits of the generations that still hold slots. */
  function LimitsInUse(ms: seq<Manager>): int
    decreases |ms|
  {
    if ms == [] then 0
    else LimitsInUse(ms[..|ms| - 1]) + if ms[|ms| - 1].held > 0 then ms[|ms| - 1].limit else 0
  }

  function Holders(s: State, k: nat): set<nat> {
    set c | c in s.callers && s.callers[c].gen < k && (s.callers[c].stage.Granted? || s.callers[c].stage.Active?)
  }

  lemma {:induction false} HoldersOfOne(s: State, k: nat)
    ensures |Holders(s, k + 1)| == |Holders(s, k)| + N(s, k, Granted) + N(s, k, Active)
  {
    var g, a := Those(s.callers, Caller(k, Granted)), Those(s.callers, Caller(k, Active));
    assert Holders(s, k + 1) == Holders(s, k) + (g + a);
    assert Holders(s, k) !! (g + a) && g !! a;
  }

  lemma {:induction false} HoldersAreHeld(s: State, k: nat)
    requires Inv(s) && k <= |s.managers|
    ensures |Holders(s, k)| == Held(s.managers[..k]) <= LimitsInUse(s.managers[..k])
    decreases k
  {
    if k == 0 {
      assert Holders(s, 0) == {};
    } else {
      HoldersAreHeld(s, k - 1);
      HoldersOfOne(s, k - 1);
      assert s.managers[..k][..k - 1] == s.managers[..k - 1];
      assert Balanced(s, k - 1);
    }
  }

  /**
   Syncs in flight over all generations never exceed the sum of the limits of the generations that
   still hold slots, since every caller releases on the manager it acquired from.
   */
  lemma InFlightIsBounded(es: seq<Event>)
    requires Valid(NOBODY, es)
    ensures var s := Run(NOBODY, es);
      |set c | c in s.callers && (s.callers[c].stage.Granted? || s.callers[c].stage.Active?)| <= LimitsInUse(s.managers)
  {
    assert Inv(NOBODY);
    RunKeepsInv(NOBODY, es);
    var s := Run(NOBODY, es);
    HoldersAreHeld(s, |s.managers|);
    assert s.managers[..|s.managers|] == s.managers;
    assert Holders(s, |s.managers|) ==
      set c | c in s.callers && (s.callers[c].stage.Granted? || s.callers[c].stage.Active?);
  }

  // ------------------------------------------------------------------------------------------
  // The calls as they are written
  // ------------------------------------------------------------------------------------------

  class GlobalConcurrencyManager {
    const limit: int
    var held: int
    var activeCount: int
    var waitingCount: int

    constructor (l: int)
      ensures limit == l && View() == Manager(l, 0, 0, 0)
    {
      limit, held, activeCount, waitingCount := l, 0, 0, 0;
    }

    function View(): Manager
      reads this
    {
      Manager(limit, held, activeCount, waitingCount)
    }

    /**
     Acquire when nobody else runs in between.  The caller gets a slot if one is free, waits for one if
     not, and gets an error if its context is cancelled.
     */
    method Acquire(cancelled: bool) returns (r: Acquisition)
      modifies this
      ensures r == if cancelled then Cancelled else if old(held) < limit then Acquired else Blocked
      ensures View() == match r
        case Acquired => old(View()).(held := old(held) + 1, active := old(activeCount) + 1)
        case Cancelled => old(View())
        case Blocked => old(View()).(waiting := old(waitingCount) + 1)
    {
      waitingCount := waitingCount + 1;
      if !cancelled && held + 1 > limit {
        return Blocked;
      }
      if !cancelled {
        held := held + 1;
      }
      waitingCount := waitingCount - 1;
      if !cancelled {
        activeCount := activeCount + 1;
        return Acquired;
      }
      return Cancelled;
    }

    /** Release; giving back more than is held panics in the semaphore, and the active count stays. */
    method Release() returns (panics: bool)
      modifies this
      ensures panics == (old(held) < 1)
      ensures View() == old(View()).(held := old(held) - 1, active := old(activeCount) - if panics then 0 else 1)
    {
      held := held - 1;
      if held < 0 {
        return true;
      }
      activeCount := activeCount - 1;
      return false;
    }
  }

  /** How Acquire ends, or that it does not. */
  datatype Acquisition = Acquired | Cancelled | Blocked

  /** In the state machine nobody ever gives back what is not held: a release never panics. */
  lemma {:induction false} ReleaseNeverPanics(es: seq<Event>, c: nat)
    requires Valid(NOBODY, es) && Enabled(Run(NOBODY, es), Free(c))
    ensures var s := Run(NOBODY, es); s.managers[s.callers[c].gen].held >= 1
  {
    assert Inv(NOBODY);
    RunKeepsInv(NOBODY, es);
    var s := Run(NOBODY, es);
    assert Balanced(s, s.callers[c].gen);
    assert c in Those(s.callers, Caller(s.callers[c].gen, Active));
  }
}
