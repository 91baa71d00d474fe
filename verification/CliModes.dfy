/**
 The Stage, Cutover and Failback modes of the command line tool.  Workloads (deployments and stateful
 sets) live in a source and a destination cluster; replica counts move through an annotation on the
 source workload that holds a decimal numeral.  A failed write is logged and skipped, a failed listing
 ends the run where it stands.
 */
module CliModes {
  import opened Options
  import opened Decimal

  type Count = n: int | IsInt32(n)

  datatype Kind = Deployment | StatefulSet

  datatype Key = Key(kind: Kind, name: string)

  /** `record` is the original-replicas annotation. */
  datatype Workload = Workload(replicas: Option<Count>, record: Option<string>)

  type Items = map<Key, Workload>

  datatype State = State(src: Items, dst: Items)

  datatype Phase = Annotating | ScalingDown | ScalingUp

  /**
   What the sync phase does with one workload: its kind is not synced, or it is created; a workload that
   exists already is overwritten or left alone, as the test of the error at mode.go:234 turns out.
   */
  datatype SyncStep = Skipped | Attempted(created: bool, overwrites: bool)

  /** The outcome of every call that a run makes to the two API servers and to the data migration. */
  datatype Env = Env(discovery: bool, migration: bool, sync: Key -> SyncStep, lists: (Phase, Kind) -> bool,
                     gets: Key -> bool, writes: (Phase, Key) -> bool)

  /** Deployments are listed and treated before stateful sets. */
  predicate Reached(env: Env, phase: Phase, kind: Kind) {
    env.lists(phase, Deployment) && (kind == StatefulSet ==> env.lists(phase, StatefulSet))
  }

  predicate Complete(env: Env, phase: Phase) {
    env.lists(phase, Deployment) && env.lists(phase, StatefulSet)
  }

  predicate Written(env: Env, phase: Phase, k: Key) {
    Reached(env, phase, k.kind) && env.writes(phase, k)
  }

  // ------------------------------------------------------------------------------------------
  // One workload
  // ------------------------------------------------------------------------------------------

  /** Notes the replica count, 0 if there is none, unless something is noted already. */
  function Annotate(w: Workload): Workload {
    if w.record.Some? then w
    else w.(record := Some(Print(if w.replicas.Some? then w.replicas.value else 0)))
  }

  function Zero(w: Workload): Workload {
    w.(replicas := Some(0))
  }

  /** The count that the annotation stands for, if there is one that can be read. */
  function Recorded(w: Workload): Option<Count> {
    if w.record.None? then None
    else match ScanInt(w.record.value)
      case None => None
      case Some(n) => Some(ToInt32(n))
  }

  /** The transformed object that is sent to the destination. */
  function Copy(w: Workload): Workload {
    if w.replicas.Some? then w.(record := Some(Print(w.replicas.value))) else w
  }

  // ------------------------------------------------------------------------------------------
  // The phases, workload by workload
  // ------------------------------------------------------------------------------------------

  predicate Creates(s: State, env: Env, k: Key) {
    k in s.src && k !in s.dst && env.sync(k).Attempted? && env.sync(k).created
  }

  predicate Overwrites(s: State, env: Env, k: Key) {
    k in s.src && k in s.dst && env.sync(k).Attempted? && env.sync(k).overwrites
  }

  function Synced(s: State, env: Env): Items {
    map k | k in s.dst.Keys + s.src.Keys && (k in s.dst || Creates(s, env, k)) ::
      if Creates(s, env, k) || Overwrites(s, env, k) then Copy(s.src[k]) else s.dst[k]
  }

  function Annotated(c: Items, env: Env): Items {
    map k | k in c :: if Written(env, Annotating, k) then Annotate(c[k]) else c[k]
  }

  function Scaled(c: Items, env: Env): Items {
    map k | k in c :: if Written(env, ScalingDown, k) then Zero(c[k]) else c[k]
  }

  /** Every destination workload whose source counterpart has a readable record gets that count. */
  function RestoredFrom(c: Items, src: Items, env: Env): Items {
    map k | k in c ::
      if k in src && Recorded(src[k]).Some? && env.gets(k) && Written(env, ScalingUp, k)
      then c[k].(replicas := Recorded(src[k])) else c[k]
  }

  function Restored(c: Items, env: Env): Items {
    map k | k in c ::
      if Recorded(c[k]).Some? && Written(env, ScalingUp, k) then c[k].(replicas := Recorded(c[k])) else c[k]
  }

  function Stage(s: State, env: Env): State {
    if !env.discovery then s else s.(dst := Scaled(Synced(s, env), env))
  }

  function Cutover(s: State, env: Env): State {
    if !env.discovery then s
    else
      var synced := s.(dst := Synced(s, env));
      var noted := synced.(src := Annotated(s.src, env));
      if !Complete(env, Annotating) then noted
      else
        var down := noted.(src := Scaled(noted.src, env));
        if !Complete(env, ScalingDown) then down
        else down.(dst := RestoredFrom(down.dst, down.src, env))
  }

  /** A failed reverse migration ends the run before it starts. */
  function Failback(s: State, env: Env): State {
    if !env.migration then s
    else
      var down := s.(dst := Scaled(s.dst, env));
      if !Complete(env, ScalingDown) then down
      else down.(src := Restored(down.src, env))
  }

  // ------------------------------------------------------------------------------------------
  // Loops over a listing
  // ------------------------------------------------------------------------------------------

  predicate AllZero(c: Items) {
    forall k :: k in c ==> c[k].replicas == Some(0)
  }

  /** The keys of one kind that a listing returns. */
  function Listing(c: Items, kind: Kind): set<Key> {
    set k | k in c && k.kind == kind
  }

  /** The cluster after the workloads in `done` have been treated. */
  function Updated(c: Items, done: set<Key>, put: (Key, Workload) -> Workload): Items {
    map k | k in c :: if k in done then put(k, c[k]) else c[k]
  }

  /** What a loop over a listing has done when `todo` is left. */
  ghost predicate Treated(listed: Items, all: set<Key>, todo: set<Key>, put: (Key, Workload) -> Workload, now: Items) {
    todo <= all <= listed.Keys && now == Updated(listed, all - todo, put)
  }

  lemma TreatNone(listed: Items, all: set<Key>, put: (Key, Workload) -> Workload)
    requires all <= listed.Keys
    ensures Treated(listed, all, all, put, listed)
  {
    assert Updated(listed, all - all, put) == listed;
  }

  /** One round of the loop: the object is written, or it is left as it was listed. */
  lemma TreatOne(listed: Items, all: set<Key>, todo: set<Key>, put: (Key, Workload) -> Workload, now: Items, k: Key)
    requires Treated(listed, all, todo, put, now) && k in todo
    ensures k in listed && k in now && now[k] == listed[k]
    ensures Treated(listed, all, todo - {k}, put, now[k := put(k, listed[k])])
    ensures put(k, listed[k]) == listed[k] ==> Treated(listed, all, todo - {k}, put, now)
  {
    var next := now[k := put(k, listed[k])];
    assert all - (todo - {k}) == all - todo + {k};
    assert next == Updated(listed, all - (todo - {k}), put);
    if put(k, listed[k]) == listed[k] {
      assert next == now;
    }
  }

  lemma TreatedAll(listed: Items, all: set<Key>, put: (Key, Workload) -> Workload, now: Items)
    requires Treated(listed, all, {}, put, now)
    ensures now == Updated(listed, all, put)
  {
    assert all - {} == all;
  }

  function PutZero(env: Env): (Key, Workload) -> Workload {
    (k: Key, w: Workload) => if env.writes(ScalingDown, k) then Zero(w) else w
  }

  function PutRecord(env: Env): (Key, Workload) -> Workload {
    (k: Key, w: Workload) => if env.writes(Annotating, k) then Annotate(w) else w
  }

  function PutFrom(env: Env, src: Items): (Key, Workload) -> Workload {
    (k: Key, w: Workload) =>
      if k in src && Recorded(src[k]).Some? && env.gets(k) && env.writes(ScalingUp, k)
      then w.(replicas := Recorded(src[k])) else w
  }

  function PutBack(env: Env): (Key, Workload) -> Workload {
    (k: Key, w: Workload) => if Recorded(w).Some? && env.writes(ScalingUp, k) then w.(replicas := Recorded(w)) else w
  }

  /** Both listings in turn, each treated with `put`; nothing once a listing has failed. */
  function InTurn(c: Items, env: Env, phase: Phase, put: (Key, Workload) -> Workload): Items {
    if !env.lists(phase, Deployment) then c
    else
      var d := Updated(c, Listing(c, Deployment), put);
      if !env.lists(phase, StatefulSet) then d else Updated(d, Listing(d, StatefulSet), put)
  }

  lemma InTurnIs(c: Items, env: Env, phase: Phase, put: (Key, Workload) -> Workload)
    ensures InTurn(c, env, phase, put).Keys == c.Keys
    ensures forall k :: k in c ==>
      InTurn(c, env, phase, put)[k] == if Reached(env, phase, k.kind) then put(k, c[k]) else c[k]
  {
    if env.lists(phase, Deployment) {
      var d := Updated(c, Listing(c, Deployment), put);
      assert forall k :: k in d ==> k in c && d[k] == if k.kind == Deployment then put(k, c[k]) else c[k];
    }
  }

  lemma ScaledInTurn(c: Items, env: Env)
    ensures InTurn(c, env, ScalingDown, PutZero(env)) == Scaled(c, env)
  {
    InTurnIs(c, env, ScalingDown, PutZero(env));
  }

  lemma AnnotatedInTurn(c: Items, env: Env)
    ensures InTurn(c, env, Annotating, PutRecord(env)) == Annotated(c, env)
  {
    InTurnIs(c, env, Annotating, PutRecord(env));
  }

  lemma RestoredFromInTurn(c: Items, src: Items, env: Env)
    ensures InTurn(c, env, ScalingUp, PutFrom(env, src)) == RestoredFrom(c, src, env)
  {
    InTurnIs(c, env, ScalingUp, PutFrom(env, src));
  }

  lemma RestoredInTurn(c: Items, env: Env)
    ensures InTurn(c, env, ScalingUp, PutBack(env)) == Restored(c, env)
  {
    InTurnIs(c, env, ScalingUp, PutBack(env));
  }

  /** Only workloads that exist on both sides are restored from the source. */
  lemma RestoreListing(c: Items, src: Items, env: Env, kind: Kind)
    ensures Updated(c, Listing(src, kind) * c.Keys, PutFrom(env, src))
         == Updated(c, Listing(c, kind), PutFrom(env, src))
  {
  }

  /** The destination after the workloads in `done` have been synced. */
  function SyncedSome(s: State, done: set<Key>, env: Env): Items {
    map k | k in s.dst.Keys + s.src.Keys && (k in s.dst || (k in done && Creates(s, env, k))) ::
      if k in done && (Creates(s, env, k) || Overwrites(s, env, k)) then Copy(s.src[k]) else s.dst[k]
  }

  /** What the sync has done when `todo` is left. */
  ghost predicate SyncedSoFar(s: State, todo: set<Key>, env: Env, now: Items) {
    todo <= s.src.Keys && now == SyncedSome(s, s.src.Keys - todo, env)
  }

  lemma SyncOne(s: State, todo: set<Key>, env: Env, now: Items, k: Key)
    requires SyncedSoFar(s, todo, env, now) && k in todo
    ensures k in s.src
    ensures var step := env.sync(k);
      var writes := step.Attempted? && if k in now then step.overwrites else step.created;
      var next := if writes then now[k := Copy(s.src[k])] else now;
      SyncedSoFar(s, todo - {k}, env, next)
  {
    assert s.src.Keys - (todo - {k}) == s.src.Keys - todo + {k};
    assert k in now <==> k in s.dst;
  }

  lemma SyncStarts(s: State, env: Env)
    ensures SyncedSoFar(s, s.src.Keys, env, s.dst)
  {
    assert SyncedSome(s, s.src.Keys - s.src.Keys, env) == s.dst;
  }

  lemma SyncEnds(s: State, env: Env, now: Items)
    requires SyncedSoFar(s, {}, env, now)
    ensures now == Synced(s, env)
  {
    assert SyncedSome(s, s.src.Keys - {}, env) == Synced(s, env);
  }

  /** What the sync makes of the destination, workload by workload. */
  lemma {:induction false} SyncSays(s: State, env: Env)
    ensures var d := Synced(s, env);
      && (forall k :: k in d <==> k in s.dst || (k in s.src && env.sync(k).Attempted? && env.sync(k).created))
      && (forall k :: k in d ==>
            if k in s.src && env.sync(k).Attempted?
               && (if k in s.dst then env.sync(k).overwrites else env.sync(k).created)
            then d[k].replicas == s.src[k].replicas
                 && d[k].record ==
                      (if s.src[k].replicas.Some? then Some(Print(s.src[k].replicas.value)) else s.src[k].record)
            else k in s.dst && d[k] == s.dst[k])
  {
  }

  /** A state of the sync phase: the source is as it was, and what the phase has written so far are copies. */
  ghost predicate InSync(s: State, env: Env, x: State) {
    x.src == s.src && forall k :: k in x.dst ==>
      || (k in s.dst && x.dst[k] == s.dst[k])
      || ((Creates(s, env, k) || Overwrites(s, env, k)) && x.dst[k] == Copy(s.src[k]))
  }

  lemma SyncPhase(s: State, todo: set<Key>, env: Env, now: Items)
    requires SyncedSoFar(s, todo, env, now)
    ensures InSync(s, env, State(s.src, now))
  {
  }

  // ------------------------------------------------------------------------------------------
  // The two clusters, with every state they pass through
  // ------------------------------------------------------------------------------------------

  ghost predicate OneWrite(a: Items, b: Items) {
    exists k :: k in b && b == a[k := b[k]]
  }

  /** One write in one cluster. */
  ghost predicate Neighbours(x: State, y: State) {
    (x.dst == y.dst && OneWrite(x.src, y.src)) || (x.src == y.src && OneWrite(x.dst, y.dst))
  }

  ghost predicate Follows(log: seq<State>, i: nat)
    requires i < |log| - 1
  {
    Neighbours(log[i], log[i + 1])
  }

  function Other(s: State, dest: bool): Items {
    if dest then s.src else s.dst
  }

  /** The log has gone on, and while it did the other cluster was `other`. */
  ghost predicate GoesOn(was: seq<State>, now: seq<State>, dest: bool, other: Items) {
    was <= now && forall i :: |was| <= i < |now| ==> Other(now[i], dest) == other
  }

  class Clusters {
    var src: Items
    var dst: Items
    // Every state that the two clusters have been in, one entry for each write.
    ghost var log: seq<State>

    ghost predicate Valid()
      reads this
    {
      && log != [] && log[|log| - 1] == State(src, dst)
      && forall i :: 0 <= i < |log| - 1 ==> Follows(log, i)
    }

    ghost function Now(): State
      reads this
    {
      State(src, dst)
    }

    function Side(dest: bool): Items
      reads this
    {
      if dest then dst else src
    }

    constructor (src: Items, dst: Items)
      ensures Valid() && Now() == State(src, dst) && log == [State(src, dst)]
    {
      this.src, this.dst, log := src, dst, [State(src, dst)];
    }

    /** The only way in which a cluster changes. */
    method Put(dest: bool, k: Key, w: Workload)
      requires Valid()
      modifies this
      ensures Valid() && log == old(log) + [Now()]
      ensures Side(dest) == old(Side(dest))[k := w] && Side(!dest) == old(Side(!dest))
    {
      ghost var before := Side(dest);
      if dest {
        dst := dst[k := w];
      } else {
        src := src[k := w];
      }
      assert OneWrite(before, Side(dest)) by {
        assert k in Side(dest) && Side(dest) == before[k := Side(dest)[k]];
      }
      ghost var was := log;
      log := log + [Now()];
      forall i | 0 <= i < |log| - 1 ensures Follows(log, i) {
        assert i < |was| - 1 ==> Follows(was, i);
      }
    }

    method ScaleKind(dest: bool, kind: Kind, env: Env)
      requires Valid()
      modifies this
      ensures Valid() && Side(!dest) == old(Side(!dest)) && GoesOn(old(log), log, dest, Side(!dest))
      ensures Side(dest) == Updated(old(Side(dest)), Listing(old(Side(dest)), kind), PutZero(env))
    {
      var listed := Side(dest);
      var todo := Listing(listed, kind);
      ghost var all, put := todo, PutZero(env);
      TreatNone(listed, all, put);
      while todo != {}
        invariant Valid() && Side(!dest) == old(Side(!dest)) && GoesOn(old(log), log, dest, Side(!dest))
        invariant Treated(listed, all, todo, put, Side(dest))
        decreases |todo|
      {
        var k :| k in todo;
        TreatOne(listed, all, todo, put, Side(dest), k);
        if env.writes(ScalingDown, k) {
          Put(dest, k, Zero(listed[k]));
        }
        todo := todo - {k};
      }
      TreatedAll(listed, all, put, Side(dest));
    }

    method ScaleDeployments(dest: bool, env: Env) returns (ok: bool)
      requires Valid()
      modifies this
      ensures Valid() && Side(!dest) == old(Side(!dest)) && GoesOn(old(log), log, dest, Side(!dest))
      ensures ok == Complete(env, ScalingDown) && Side(dest) == Scaled(old(Side(dest)), env)
    {
      ScaledInTurn(Side(dest), env);
      if !env.lists(ScalingDown, Deployment) {
        return false;
      }
      ScaleKind(dest, Deployment, env);
      if !env.lists(ScalingDown, StatefulSet) {
        return false;
      }
      ScaleKind(dest, StatefulSet, env);
      return true;
    }

    method AnnotateKind(kind: Kind, env: Env)
      requires Valid()
      modifies this
      ensures Valid() && dst == old(dst) && GoesOn(old(log), log, false, dst)
      ensures src == Updated(old(src), Listing(old(src), kind), PutRecord(env))
    {
      var listed := src;
      var todo := Listing(listed, kind);
      ghost var all, put := todo, PutRecord(env);
      TreatNone(listed, all, put);
      while todo != {}
        invariant Valid() && dst == old(dst) && GoesOn(old(log), log, false, dst)
        invariant Treated(listed, all, todo, put, src)
        decreases |todo|
      {
        var k :| k in todo;
        TreatOne(listed, all, todo, put, src, k);
        assert put(k, listed[k]) == if env.writes(Annotating, k) then Annotate(listed[k]) else listed[k];
        if listed[k].record.None? && env.writes(Annotating, k) {
          var count := if listed[k].replicas.Some? then listed[k].replicas.value else 0;
          Put(false, k, listed[k].(record := Some(Print(count))));
        }
        todo := todo - {k};
      }
      TreatedAll(listed, all, put, src);
    }

    method AnnotateOriginalReplicas(env: Env) returns (ok: bool)
      requires Valid()
      modifies this
      ensures Valid() && dst == old(dst) && GoesOn(old(log), log, false, dst)
      ensures ok == Complete(env, Annotating) && src == Annotated(old(src), env)
    {
      AnnotatedInTurn(src, env);
      if !env.lists(Annotating, Deployment) {
        return false;
      }
      AnnotateKind(Deployment, env);
      if !env.lists(Annotating, StatefulSet) {
        return false;
      }
      AnnotateKind(StatefulSet, env);
      return true;
    }

    method RestoreKind(kind: Kind, env: Env)
      requires Valid()
      modifies this
      ensures Valid() && dst == old(dst) && GoesOn(old(log), log, false, dst)
      ensures src == Updated(old(src), Listing(old(src), kind), PutBack(env))
    {
      var listed := src;
      var todo := Listing(listed, kind);
      ghost var all, put := todo, PutBack(env);
      TreatNone(listed, all, put);
      while todo != {}
        invariant Valid() && dst == old(dst) && GoesOn(old(log), log, false, dst)
        invariant Treated(listed, all, todo, put, src)
        decreases |todo|
      {
        var k :| k in todo;
        TreatOne(listed, all, todo, put, src, k);
        ghost var count := Recorded(listed[k]);
        assert put(k, listed[k]) ==
          if count.Some? && env.writes(ScalingUp, k) then listed[k].(replicas := count) else listed[k];
        if listed[k].record.Some? {
          var parsed := ScanInt(listed[k].record.value);
          if parsed.Some? && env.writes(ScalingUp, k) {
            Put(false, k, listed[k].(replicas := Some(ToInt32(parsed.value))));
          }
        }
        todo := todo - {k};
      }
      TreatedAll(listed, all, put, src);
    }

    method RestoreOriginalReplicas(env: Env) returns (ok: bool)
      requires Valid()
      modifies this
      ensures Valid() && dst == old(dst) && GoesOn(old(log), log, false, dst)
      ensures ok == Complete(env, ScalingUp) && src == Restored(old(src), env)
    {
      RestoredInTurn(src, env);
      if !env.lists(ScalingUp, Deployment) {
        return false;
      }
      RestoreKind(Deployment, env);
      if !env.lists(ScalingUp, StatefulSet) {
        return false;
      }
      RestoreKind(StatefulSet, env);
      return true;
    }

    /** Goes through the source's listing, and gets each workload of the destination when it comes to it. */
    method RestoreKindFrom(kind: Kind, env: Env)
      requires Valid()
      modifies this
      ensures Valid() && src == old(src) && GoesOn(old(log), log, true, src)
      ensures dst == Updated(old(dst), Listing(old(dst), kind), PutFrom(env, src))
    {
      ghost var was := dst;
      var listed := src;
      var todo := Listing(listed, kind);
      ghost var all, put := todo * was.Keys, PutFrom(env, listed);
      TreatNone(was, all, put);
      while todo != {}
        invariant Valid() && src == listed && GoesOn(old(log), log, true, src)
        invariant todo <= Listing(listed, kind) && Treated(was, all, todo * was.Keys, put, dst)
        decreases |todo|
      {
        var k :| k in todo;
        assert (todo - {k}) * was.Keys == todo * was.Keys - {k};
        assert dst.Keys == was.Keys;
        if k in dst {
          TreatOne(was, all, todo * was.Keys, put, dst, k);
          if listed[k].record.Some? {
            var parsed := ScanInt(listed[k].record.value);
            if parsed.Some? && env.gets(k) && env.writes(ScalingUp, k) {
              Put(true, k, dst[k].(replicas := Some(ToInt32(parsed.value))));
            }
          }
        }
        todo := todo - {k};
      }
      assert {} * was.Keys == {};
      TreatedAll(was, all, put, dst);
      RestoreListing(was, listed, env, kind);
    }

    method RestoreDeploymentScales(env: Env) returns (ok: bool)
      requires Valid()
      modifies this
      ensures Valid() && src == old(src) && GoesOn(old(log), log, true, src)
      ensures ok == Complete(env, ScalingUp) && dst == RestoredFrom(old(dst), src, env)
    {
      RestoredFromInTurn(dst, src, env);
      if !env.lists(ScalingUp, Deployment) {
        return false;
      }
      RestoreKindFrom(Deployment, env);
      if !env.lists(ScalingUp, StatefulSet) {
        return false;
      }
      RestoreKindFrom(StatefulSet, env);
      return true;
    }

    method SyncResources(env: Env) returns (ok: bool)
      requires Valid()
      modifies this
      ensures Valid() && src == old(src) && old(log) <= log
      ensures ok == env.discovery && dst == if ok then Synced(old(Now()), env) else old(dst)
      ensures forall i :: |old(log)| <= i < |log| ==> InSync(old(Now()), env, log[i])
    {
      if !env.discovery {
        return false;
      }
      ghost var before := Now();
      SyncStarts(before, env);
      var todo := src.Keys;
      while todo != {}
        invariant Valid() && src == before.src && old(log) <= log
        invariant SyncedSoFar(before, todo, env, dst)
        invariant forall i :: |old(log)| <= i < |log| ==> InSync(before, env, log[i])
        decreases |todo|
      {
        var k :| k in todo;
        SyncOne(before, todo, env, dst, k);
        var step := env.sync(k);
        if step.Attempted? && (if k in dst then step.overwrites else step.created) {
          Put(true, k, Copy(src[k]));
        }
        todo := todo - {k};
        SyncPhase(before, todo, env, dst);
      }
      SyncEnds(before, env, dst);
      return true;
    }
  }

  // ------------------------------------------------------------------------------------------
  // The three modes
  // ------------------------------------------------------------------------------------------

  lemma ScaledIsZero(c: Items, env: Env)
    requires Complete(env, ScalingDown) && forall k :: k in c ==> env.writes(ScalingDown, k)
    ensures AllZero(Scaled(c, env))
  {
  }

  /** What a Cutover that lists everything leaves of a workload, on both sides. */
  lemma {:induction false} CutoverSays(s: State, env: Env, k: Key)
    requires env.discovery && Complete(env, Annotating) && Complete(env, ScalingDown) && Complete(env, ScalingUp)
    ensures var t := Cutover(s, env);
      && (k in t.src <==> k in s.src) && (k in t.dst <==> k in Synced(s, env))
      && (k in s.src ==>
            && t.src[k].replicas == (if env.writes(ScalingDown, k) then Some(0) else s.src[k].replicas)
            && t.src[k].record ==
                 if s.src[k].record.Some? || !env.writes(Annotating, k) then s.src[k].record
                 else Some(Print(if s.src[k].replicas.Some? then s.src[k].replicas.value else 0)))
      && (k in t.dst ==>
            && t.dst[k].record == Synced(s, env)[k].record
            && t.dst[k].replicas ==
                 if k in t.src && env.gets(k) && env.writes(ScalingUp, k) && t.src[k].record.Some?
                    && ScanInt(t.src[k].record.value).Some?
                 then Some(ToInt32(ScanInt(t.src[k].record.value).value)) else Synced(s, env)[k].replicas)
  {
    var noted := Annotated(s.src, env);
    var down := Scaled(noted, env);
    assert Cutover(s, env) == State(down, RestoredFrom(Synced(s, env), down, env));
    if k in s.src {
      assert noted[k] == if env.writes(Annotating, k) then Annotate(s.src[k]) else s.src[k];
      assert down[k] == if env.writes(ScalingDown, k) then Zero(noted[k]) else noted[k];
    }
  }

  /** The same for a Failback. */
  lemma {:induction false} FailbackSays(s: State, env: Env)
    requires env.migration && Complete(env, ScalingDown) && Complete(env, ScalingUp)
    ensures var t := Failback(s, env);
      && (forall k :: k in t.dst && env.writes(ScalingDown, k) ==> t.dst[k].replicas == Some(0))
      && (forall k :: k in t.src && env.writes(ScalingUp, k) && t.src[k].record.Some?
                      && ScanInt(t.src[k].record.value).Some? ==>
            t.src[k].replicas == Some(ToInt32(ScanInt(t.src[k].record.value).value)))
  {
  }

  /** Where a Cutover stops that cannot discover or list everything. */
  lemma {:induction false} CutoverStops(s: State, env: Env, k: Key)
    ensures !env.discovery ==> Cutover(s, env) == s
    ensures env.discovery && !(env.lists(Annotating, Deployment) && env.lists(Annotating, StatefulSet)) ==>
      && Cutover(s, env).dst == Synced(s, env)
      && (k in s.src ==> k in Cutover(s, env).src && Cutover(s, env).src[k].replicas == s.src[k].replicas)
    ensures env.discovery && !(env.lists(ScalingDown, Deployment) && env.lists(ScalingDown, StatefulSet)) ==>
      Cutover(s, env).dst == Synced(s, env)
  {
  }

  /** What a Stage run leaves in the destination, whatever is listed. */
  lemma {:induction false} StageLeaves(s: State, env: Env, k: Key)
    ensures Stage(s, env).src == s.src && (!env.discovery ==> Stage(s, env).dst == s.dst)
    ensures env.discovery ==>
      var t, d := Stage(s, env).dst, Synced(s, env);
      && (k in t <==> k in d)
      && (k in d ==>
            t[k] == if env.lists(ScalingDown, Deployment) && env.writes(ScalingDown, k)
                       && (k.kind == StatefulSet ==> env.lists(ScalingDown, StatefulSet))
                    then d[k].(replicas := Some(0)) else d[k])
  {
  }

  /** What a Failback leaves of a workload, on both sides, whatever is listed. */
  lemma {:induction false} FailbackLeaves(s: State, env: Env, k: Key)
    ensures var t := Failback(s, env);
      var down := env.migration && env.lists(ScalingDown, Deployment)
                  && (k.kind == StatefulSet ==> env.lists(ScalingDown, StatefulSet)) && env.writes(ScalingDown, k);
      var up := env.migration && env.lists(ScalingDown, Deployment) && env.lists(ScalingDown, StatefulSet)
                && env.lists(ScalingUp, Deployment) && (k.kind == StatefulSet ==> env.lists(ScalingUp, StatefulSet))
                && env.writes(ScalingUp, k);
      && (k in t.dst <==> k in s.dst) && (k in t.src <==> k in s.src)
      && (k in s.dst ==> t.dst[k] == if down then s.dst[k].(replicas := Some(0)) else s.dst[k])
      && (k in s.src ==>
            t.src[k] == if up && s.src[k].record.Some? && ScanInt(s.src[k].record.value).Some?
                        then s.src[k].(replicas := Some(ToInt32(ScanInt(s.src[k].record.value).value))) else s.src[k])
  {
  }

  method ExecuteStageModeSync(c: Clusters, env: Env) returns (ok: bool)
    requires c.Valid()
    modifies c
    ensures c.Valid() && old(c.log) <= c.log
    ensures c.Now() == Stage(old(c.Now()), env)
    ensures ok == (env.discovery && env.lists(ScalingDown, Deployment) && env.lists(ScalingDown, StatefulSet)
                   && env.migration)
    ensures forall i :: |old(c.log)| <= i < |c.log| ==> c.log[i].src == old(c.src)
    ensures env.discovery && env.lists(ScalingDown, Deployment) && env.lists(ScalingDown, StatefulSet) ==>
      && (forall k :: k in c.dst && env.writes(ScalingDown, k) ==> c.dst[k].replicas == Some(0))
      && (forall k :: k in c.dst <==>
            k in old(c.dst) || (k in old(c.src) && env.sync(k).Attempted? && env.sync(k).created))
      && ((forall k :: env.writes(ScalingDown, k)) ==> forall k :: k in c.dst ==> c.dst[k].replicas == Some(0))
      && (forall k :: k in c.dst ==> c.dst[k].record == Synced(old(c.Now()), env)[k].record)
  {
    SyncSays(c.Now(), env);
    ok := c.SyncResources(env);
    if !ok {
      return;
    }
    ok := c.ScaleDeployments(true, env);
    ok := ok && env.migration;
  }

  /** The log up to `synced` is that of the sync phase, which ends with the synced destination. */
  ghost predicate SyncEndsAt(log: seq<State>, from: nat, synced: nat, s: State, env: Env) {
    && 0 < from <= synced <= |log| && log[synced - 1] == State(s.src, Synced(s, env))
    && forall i :: from <= i < synced ==> InSync(s, env, log[i])
  }

  /** From `synced` on nothing is changed in the destination before every workload of the source is at zero. */
  ghost predicate DownBeforeUp(log: seq<State>, synced: nat, dst: Items) {
    forall i :: synced <= i < |log| ==> log[i].dst == dst || AllZero(log[i].src)
  }

  /**
   While the destination changes, the source is already at its final state; so if no write of the
   scale-down fails, no count in the destination changes after the sync phase before every workload of the
   source is at zero.
   */
  method ExecuteCutoverModeSync(c: Clusters, env: Env) returns (ok: bool, ghost synced: nat)
    requires c.Valid()
    modifies c
    ensures c.Valid() && old(c.log) <= c.log
    ensures c.Now() == Cutover(old(c.Now()), env)
    ensures ok == (env.discovery && Complete(env, Annotating) && Complete(env, ScalingDown)
                   && Complete(env, ScalingUp) && env.migration)
    ensures env.discovery ==> SyncEndsAt(c.log, |old(c.log)|, synced, old(c.Now()), env)
    ensures env.discovery && (forall k :: k in old(c.src) ==> env.writes(ScalingDown, k)) ==>
      DownBeforeUp(c.log, synced, Synced(old(c.Now()), env))
  {
    synced := 0;
    ghost var s, log0 := c.Now(), c.log;
    ok := c.SyncResources(env);
    if !ok {
      return;
    }
    synced := |c.log|;
    ghost var dst, log1 := c.dst, c.log;
    assert SyncEndsAt(log1, |log0|, synced, s, env);
    ok := c.AnnotateOriginalReplicas(env);
    ghost var log2 := c.log;
    DownThenUp(log1, log2, log2, log2, dst, c.src);
    if !ok {
      return;
    }
    ok := c.ScaleDeployments(false, env);
    ghost var log3 := c.log;
    DownThenUp(log1, log2, log3, log3, dst, c.src);
    if !ok {
      return;
    }
    if forall k :: k in s.src ==> env.writes(ScalingDown, k) {
      ScaledIsZero(Annotated(s.src, env), env);
    }
    ok := c.RestoreDeploymentScales(env);
    DownThenUp(log1, log2, log3, c.log, dst, c.src);
    ok := ok && env.migration;
  }

  /** While the source is treated the destination stays, and the other way round. */
  lemma {:induction false} DownThenUp(log1: seq<State>, log2: seq<State>, log3: seq<State>, log4: seq<State>,
                                      dst: Items, src: Items)
    requires GoesOn(log1, log2, false, dst) && GoesOn(log2, log3, false, dst) && GoesOn(log3, log4, true, src)
    ensures log1 <= log4 && (AllZero(src) || log4 == log3 ==> DownBeforeUp(log4, |log1|, dst))
  {
    forall i | |log1| <= i < |log4| ensures log4[i].dst == dst || (log4 != log3 && log4[i].src == src) {
      if i < |log2| {
        assert log4[i] == log2[i] && Other(log2[i], false) == dst;
      } else if i < |log3| {
        assert log4[i] == log3[i] && Other(log3[i], false) == dst;
      } else {
        assert Other(log4[i], true) == src;
      }
    }
  }

  /** Nothing is changed in the source before every workload of the destination is at zero. */
  method ExecuteFailbackModeSync(c: Clusters, env: Env) returns (ok: bool)
    requires c.Valid()
    modifies c
    ensures c.Valid() && old(c.log) <= c.log
    ensures c.Now() == Failback(old(c.Now()), env)
    ensures ok == (env.migration && Complete(env, ScalingDown) && Complete(env, ScalingUp))
    ensures (forall k :: k in old(c.dst) ==> env.writes(ScalingDown, k)) ==>
      forall i :: |old(c.log)| <= i < |c.log| ==> c.log[i].src == old(c.src) || AllZero(c.log[i].dst)
    ensures ok ==>
      && (forall k :: k in c.dst && env.writes(ScalingDown, k) ==> c.dst[k].replicas == Some(0))
      && (forall k :: k in c.src && env.writes(ScalingUp, k) && c.src[k].record.Some?
                      && ScanInt(c.src[k].record.value).Some? ==>
            c.src[k].replicas == Some(ToInt32(ScanInt(c.src[k].record.value).value)))
  {
    if env.migration && Complete(env, ScalingDown) && Complete(env, ScalingUp) {
      FailbackSays(c.Now(), env);
    }
    if !env.migration {
      return false;
    }
    ghost var dst := c.dst;
    ok := c.ScaleDeployments(true, env);
    if !ok {
      return;
    }
    if forall k :: k in dst ==> env.writes(ScalingDown, k) {
      ScaledIsZero(dst, env);
    }
    ok := c.RestoreOriginalReplicas(env);
  }

  // ------------------------------------------------------------------------------------------
  // Sequences of runs
  // ------------------------------------------------------------------------------------------

  /** A run of the tool, or a change of a replica count by anyone else. */
  datatype Op =
    | RunStage(env: Env)
    | RunCutover(env: Env)
    | RunFailback(env: Env)
    | Rescale(dest: bool, key: Key, replicas: Option<Count>)

  function Perform(s: State, op: Op): State {
    match op
    case RunStage(env) => Stage(s, env)
    case RunCutover(env) => Cutover(s, env)
    case RunFailback(env) => Failback(s, env)
    case Rescale(dest, k, n) =>
      if dest then if k in s.dst then s.(dst := s.dst[k := s.dst[k].(replicas := n)]) else s
      else if k in s.src then s.(src := s.src[k := s.src[k].(replicas := n)]) else s
  }

  function PerformAll(s: State, ops: seq<Op>): State
    decreases |ops|
  {
    if ops == [] then s else PerformAll(Perform(s, ops[0]), ops[1..])
  }

  lemma {:induction false} StepKeepsRecord(s: State, op: Op, k: Key)
    requires k in s.src && s.src[k].record.Some?
    ensures k in Perform(s, op).src && Perform(s, op).src[k].record == s.src[k].record
  {
  }

  /** Once a source workload has a record it keeps it, whatever is run and whatever fails. */
  lemma {:induction false} RecordSurvives(s: State, ops: seq<Op>, k: Key)
    requires k in s.src && s.src[k].record.Some?
    ensures k in PerformAll(s, ops).src && PerformAll(s, ops).src[k].record == s.src[k].record
    decreases |ops|
  {
    if ops != [] {
      StepKeepsRecord(s, ops[0], k);
      RecordSurvives(Perform(s, ops[0]), ops[1..], k);
    }
  }

  /** A Failback that gets as far as this workload and can write it. */
  predicate Restores(env: Env, k: Key) {
    env.migration && Complete(env, ScalingDown) && Written(env, ScalingUp, k)
  }

  /** Such a Failback sets the workload to the recorded number, and to nothing else. */
  lemma {:induction false} FailbackSets(s: State, env: Env, k: Key)
    requires k in s.src && Restores(env, k)
    ensures k in Failback(s, env).src
    ensures Failback(s, env).src[k].replicas ==
              if Recorded(s.src[k]).Some? then Recorded(s.src[k]) else s.src[k].replicas
  {
  }

  /** The count as the annotation has it: a workload without one counts as 0. */
  function CountOf(w: Workload): Count {
    if w.replicas.Some? then w.replicas.value else 0
  }

  lemma {:induction false} AnnotateRecords(w: Workload)
    requires w.record.None?
    ensures Recorded(Annotate(w)) == Some(CountOf(w))
  {
    CountRoundTrip(CountOf(w));
  }

  lemma {:induction false} CutoverRecords(s: State, env: Env, k: Key)
    requires k in s.src && env.discovery && Written(env, Annotating, k)
    ensures k in Cutover(s, env).src
    ensures Cutover(s, env).src[k].record == Annotate(s.src[k]).record
  {
  }

  /**
   A count that a Cutover recorded first comes back with every later Failback that writes the workload,
   whatever was run, changed or failed in between.
   */
  lemma {:induction false} FirstRecordComesBack(s: State, cut: Env, ops: seq<Op>, back: Env, k: Key)
    requires k in s.src && s.src[k].record.None? && cut.discovery && Written(cut, Annotating, k)
    requires Restores(back, k)
    ensures var end := Failback(PerformAll(Cutover(s, cut), ops), back);
      k in end.src && end.src[k].replicas == Some(CountOf(s.src[k]))
  {
    var t := Cutover(s, cut);
    CutoverRecords(s, cut, k);
    RecordSurvives(t, ops, k);
    AnnotateRecords(s.src[k]);
    FailbackSets(PerformAll(t, ops), back, k);
  }

  /** A Cutover that gets through on the source side of this workload. */
  predicate Moves(env: Env, k: Key) {
    env.discovery && Complete(env, Annotating) && env.writes(Annotating, k) && Written(env, ScalingDown, k)
  }

  /**
   Failback undoes Cutover on a source workload exactly when nothing was recorded before, and the
   workload has a count; or when the older record happens to stand for the present count; or when it
   cannot be read and the workload was at zero anyway.
   */
  lemma {:induction false} FailbackUndoesCutover(s: State, cut: Env, back: Env, k: Key)
    requires k in s.src && Moves(cut, k) && Restores(back, k)
    ensures var end := Failback(Cutover(s, cut), back);
      && k in end.src
      && (end.src[k].replicas == s.src[k].replicas <==>
            if s.src[k].record.None? then s.src[k].replicas.Some?
            else s.src[k].replicas == if Recorded(s.src[k]).Some? then Recorded(s.src[k]) else Some(0))
  {
    var t := Cutover(s, cut);
    CutoverRecords(s, cut, k);
    if s.src[k].record.None? {
      AnnotateRecords(s.src[k]);
    }
    assert t.src[k] == Zero(Annotate(s.src[k]));
    FailbackSets(t, back, k);
  }

  /** The record is never cleared: a workload rescaled between two rounds falls back to the first count. */
  lemma {:induction false} StaleRecordComesBack(s: State, cut: Env, back: Env, k: Key, n: Count)
    requires k in s.src && s.src[k].record.None? && Moves(cut, k) && Restores(back, k) && n != CountOf(s.src[k])
    ensures var ops := [RunFailback(back), Rescale(false, k, Some(n)), RunCutover(cut)];
      var end := Failback(PerformAll(Cutover(s, cut), ops), back);
      k in end.src && end.src[k].replicas == Some(CountOf(s.src[k])) != Some(n)
  {
    FirstRecordComesBack(s, cut, [RunFailback(back), Rescale(false, k, Some(n)), RunCutover(cut)], back, k);
  }

  /**
   After a Cutover that reaches everything but the scale-down write of one workload, that workload is up
   on both sides exactly when it was up before and its record stands for a count other than zero.
   */
  lemma {:induction false} FailedScaleDownRunsTwice(s: State, env: Env, k: Key)
    requires k in s.src && env.discovery && Complete(env, Annotating) && Complete(env, ScalingDown)
    requires env.writes(Annotating, k) && !env.writes(ScalingDown, k) && env.gets(k) && Written(env, ScalingUp, k)
    requires k in Synced(s, env) && Recorded(Annotate(s.src[k])).Some?
    ensures var t := Cutover(s, env);
      && k in t.src && k in t.dst && t.src[k].replicas == s.src[k].replicas
      && (t.src[k].replicas != Some(0) && t.dst[k].replicas != Some(0) <==>
            s.src[k].replicas != Some(0) && Recorded(Annotate(s.src[k])) != Some(0))
  {
    var noted := Annotated(s.src, env);
    assert noted[k] == Annotate(s.src[k]);
  }

  // ------------------------------------------------------------------------------------------
  // Repeating a Cutover
  // ------------------------------------------------------------------------------------------

  /** Every call succeeds; workloads that exist in the destination may be overwritten or not. */
  ghost predicate Clean(env: Env) {
    && env.discovery && env.migration
    && (forall phase, kind :: env.lists(phase, kind))
    && (forall k :: env.gets(k))
    && (forall phase, k :: env.writes(phase, k))
    && (forall k :: env.sync(k).Attempted? ==> env.sync(k).created)
  }

  ghost predicate SameSelection(a: Env, b: Env) {
    forall k :: a.sync(k).Skipped? <==> b.sync(k).Skipped?
  }

  ghost predicate SameCounts(a: Items, b: Items) {
    a.Keys == b.Keys && forall k :: k in a ==> a[k].replicas == b[k].replicas
  }

  predicate Unreadable(w: Workload) {
    w.record.Some? && ScanInt(w.record.value).None?
  }

  /** The count that a Cutover leaves in the destination for a workload with an unreadable record. */
  function LeftAt(s: State, env: Env, k: Key): Option<Count>
    requires k in Synced(s, env)
  {
    Synced(s, env)[k].replicas
  }

  /** What a clean Cutover makes of the source. */
  function Moved(src: Items): Items {
    map k | k in src :: Zero(Annotate(src[k]))
  }

  /** What it makes of the synced destination. */
  function Raised(dst: Items, src: Items): Items {
    map k | k in dst ::
      if k in src && !Unreadable(src[k]) then dst[k].(replicas := Recorded(Annotate(src[k]))) else dst[k]
  }

  lemma {:induction false} CleanSource(src: Items, env: Env)
    requires Clean(env)
    ensures Scaled(Annotated(src, env), env) == Moved(src)
  {
    assert forall k :: k in src ==> Annotated(src, env)[k] == Annotate(src[k]);
  }

  lemma {:induction false} MovedRecord(w: Workload)
    ensures Recorded(Zero(Annotate(w))) == Recorded(Annotate(w))
    ensures Recorded(Annotate(w)).Some? <==> !Unreadable(w)
  {
    if w.record.None? {
      AnnotateRecords(w);
    }
  }

  lemma {:induction false} CleanDest(dst: Items, src: Items, env: Env)
    requires Clean(env)
    ensures RestoredFrom(dst, Moved(src), env) == Raised(dst, src)
  {
    forall k | k in src
      ensures Recorded(Moved(src)[k]) == Recorded(Annotate(src[k]))
      ensures Recorded(Annotate(src[k])).Some? <==> !Unreadable(src[k])
    {
      MovedRecord(src[k]);
    }
  }

  lemma {:induction false} CleanCutover(s: State, env: Env)
    requires Clean(env)
    ensures Cutover(s, env) == State(Moved(s.src), Raised(Synced(s, env), s.src))
  {
    CleanSource(s.src, env);
    CleanDest(Synced(s, env), s.src, env);
  }

  /** A workload whose record cannot be read, which the first Cutover leaves up and the second overwrites. */
  predicate Drifts(s: State, e1: Env, e2: Env, k: Key) {
    && k in s.src && Unreadable(s.src[k]) && e2.sync(k).Attempted? && e2.sync(k).overwrites
    && k in Synced(s, e1) && LeftAt(s, e1, k) != Some(0)
  }

  lemma {:induction false} MovedTwice(src: Items)
    ensures Moved(Moved(src)) == Moved(src)
  {
  }

  /** The second sync reaches the workloads that are there, and creates none. */
  lemma {:induction false} SecondSync(s: State, t: State, e1: Env, e2: Env, k: Key)
    requires Clean(e1) && Clean(e2) && SameSelection(e1, e2)
    requires t == State(Moved(s.src), Raised(Synced(s, e1), s.src))
    ensures k in Synced(t, e2) <==> k in t.dst
    ensures k in t.dst ==> (Synced(t, e2)[k].replicas ==
      if k in s.src && e2.sync(k).Attempted? && e2.sync(k).overwrites then Some(0) else t.dst[k].replicas)
  {
    assert k in t.dst <==> k in Synced(s, e1);
    assert !Creates(t, e2, k);
  }

  lemma {:induction false} SecondRaise(s: State, t: State, e1: Env, e2: Env, k: Key)
    requires Clean(e1) && Clean(e2) && SameSelection(e1, e2)
    requires t == State(Moved(s.src), Raised(Synced(s, e1), s.src))
    ensures k in Raised(Synced(t, e2), t.src) <==> k in t.dst
    ensures Agrees(t.dst, Raised(Synced(t, e2), t.src), k) <==> !Drifts(s, e1, e2, k)
  {
    SecondSync(s, t, e1, e2, k);
    if k in s.src {
      MovedRecord(s.src[k]);
      assert Unreadable(t.src[k]) <==> Unreadable(s.src[k]);
      assert Annotate(t.src[k]) == t.src[k];
    }
  }

  /**
   Repeating a Cutover changes no count in either cluster, whichever way the update branch goes, unless
   it overwrites a workload whose record cannot be read and that the first Cutover left up.
   */
  lemma {:induction false} CutoverIdempotent(s: State, e1: Env, e2: Env)
    requires Clean(e1) && Clean(e2) && SameSelection(e1, e2)
    ensures Cutover(Cutover(s, e1), e2).src == Cutover(s, e1).src
    ensures SameCounts(Cutover(s, e1).dst, Cutover(Cutover(s, e1), e2).dst) <==> forall k :: !Drifts(s, e1, e2, k)
  {
    var t := Cutover(s, e1);
    CleanCutover(s, e1);
    CleanCutover(t, e2);
    MovedTwice(s.src);
    CountsAgree(s, t, e1, e2);
  }

  lemma {:induction false} CountsAgree(s: State, t: State, e1: Env, e2: Env)
    requires Clean(e1) && Clean(e2) && SameSelection(e1, e2)
    requires t == State(Moved(s.src), Raised(Synced(s, e1), s.src))
    ensures SameCounts(t.dst, Raised(Synced(t, e2), t.src)) <==> forall k :: !Drifts(s, e1, e2, k)
  {
    forall k ensures Agrees(t.dst, Raised(Synced(t, e2), t.src), k) <==> !Drifts(s, e1, e2, k) {
      SecondRaise(s, t, e1, e2, k);
    }
    AgreeEverywhere(t.dst, Raised(Synced(t, e2), t.src));
  }

  predicate Agrees(a: Items, b: Items, k: Key) {
    (k in a <==> k in b) && (k in a ==> a[k].replicas == b[k].replicas)
  }

  lemma {:induction false} AgreeEverywhere(a: Items, b: Items)
    ensures SameCounts(a, b) <==> forall k :: Agrees(a, b, k)
  {
    if forall k :: Agrees(a, b, k) {
      forall k ensures k in a <==> k in b {
        assert Agrees(a, b, k);
      }
      forall k | k in a ensures a[k].replicas == b[k].replicas {
        assert Agrees(a, b, k);
      }
    }
  }

  /** Such a workload exists: it is up in the destination after one Cutover and down after two. */
  lemma {:induction false} UnreadableRecordDrifts() returns (s: State, env: Env, k: Key)
    ensures Clean(env) && Drifts(s, env, env, k)
    ensures Cutover(s, env).dst[k].replicas == Some(3)
    ensures Cutover(Cutover(s, env), env).dst[k].replicas == Some(0)
  {
    k := Key(Deployment, "web");
    s := State(map[k := Workload(Some(3), Some(""))], map[]);
    env := Env(true, true, _ => Attempted(true, true), (_, _) => true, _ => true, (_, _) => true);
    var t := Cutover(s, env);
    CleanCutover(s, env);
    assert t.dst[k].replicas == Some(3);
    CleanCutover(t, env);
    SecondSync(s, t, env, env, k);
  }
}
