/**
 The hand-written comparison of NamespaceMapping statuses.  Lists are compared by filling a map from
 the first list, keyed by name, and looking every element of the second list up in it.
 */
module StatusCompare {
  import opened Options

  // ------------------------------------------------------------------------------------------
  // Comparison by one-way lookup
  // ------------------------------------------------------------------------------------------

  /** An element as the comparison sees it: its key and the fields that count. */
  datatype Entry<V> = Entry(key: string, view: V)

  /** The map filled from a list; a later element replaces an earlier one with the same key. */
  function Filled<V>(p: seq<Entry<V>>): map<string, V> {
    if p == [] then map[] else Filled(p[..|p| - 1])[p[|p| - 1].key := p[|p| - 1].view]
  }

  predicate Matches<V(==)>(p: seq<Entry<V>>, q: seq<Entry<V>>) {
    |p| == |q| && forall j :: 0 <= j < |q| ==> q[j].key in Filled(p) && Filled(p)[q[j].key] == q[j].view
  }

  predicate Distinct<V>(p: seq<Entry<V>>) {
    forall i, j :: 0 <= i < j < |p| ==> p[i].key != p[j].key
  }

  function Entries<T, V>(a: seq<T>, key: T -> string, view: T -> V): seq<Entry<V>> {
    seq(|a|, i requires 0 <= i < |a| => Entry(key(a[i]), view(a[i])))
  }

  lemma {:induction false} FilledSnoc<V>(p: seq<Entry<V>>, e: Entry<V>)
    ensures Filled(p + [e]) == Filled(p)[e.key := e.view]
  {
    assert (p + [e])[..|p|] == p;
  }

  method SliceEqual<T, V(==)>(a: seq<T>, b: seq<T>, key: T -> string, view: T -> V) returns (r: bool)
    ensures r == Matches(Entries(a, key, view), Entries(b, key, view))
  {
    ghost var p, q := Entries(a, key, view), Entries(b, key, view);
    if |a| != |b| {
      return false;
    }
    var aMap: map<string, T> := map[];
    for i := 0 to |a|
      invariant aMap.Keys == Filled(p[..i]).Keys
      invariant forall k :: k in aMap ==> view(aMap[k]) == Filled(p[..i])[k]
    {
      assert p[..i + 1] == p[..i] + [p[i]];
      FilledSnoc(p[..i], p[i]);
      aMap := aMap[key(a[i]) := a[i]];
    }
    assert p[..|a|] == p;
    for j := 0 to |b|
      invariant forall i :: 0 <= i < j ==> q[i].key in Filled(p) && Filled(p)[q[i].key] == q[i].view
    {
      assert q[j] == Entry(key(b[j]), view(b[j]));
      if key(b[j]) !in aMap {
        return false;
      }
      if view(aMap[key(b[j])]) != view(b[j]) {
        return false;
      }
    }
    return true;
  }

  lemma {:induction false} FilledHas<V>(p: seq<Entry<V>>, k: string)
    ensures k in Filled(p) <==> exists i :: 0 <= i < |p| && p[i].key == k
    ensures k in Filled(p) ==> Entry(k, Filled(p)[k]) in p
    decreases |p|
  {
    if p != [] {
      var front, last := p[..|p| - 1], p[|p| - 1];
      FilledHas(front, k);
      if k in Filled(front) {
        var i :| 0 <= i < |front| && front[i].key == k;
        assert p[i].key == k;
      }
      if i :| 0 <= i < |p| && p[i].key == k {
        assert i < |front| ==> front[i].key == k;
      }
    }
  }

  lemma {:induction false} OnceEach<T>(q: seq<T>, x: T)
    requires forall i, j :: 0 <= i < j < |q| ==> q[i] != q[j]
    ensures multiset(q)[x] <= 1
    decreases |q|
  {
    if q != [] {
      var front := q[..|q| - 1];
      assert q == front + [q[|q| - 1]];
      OnceEach(front, x);
    }
  }

  /** A list of distinct elements that all occur in a list of the same length is a permutation of it. */
  lemma {:induction false} Pigeonhole<T>(p: seq<T>, q: seq<T>)
    requires |p| == |q| && forall i, j :: 0 <= i < j < |q| ==> q[i] != q[j]
    requires forall j :: 0 <= j < |q| ==> q[j] in p
    ensures multiset(p) == multiset(q)
  {
    forall x ensures multiset(q)[x] <= multiset(p)[x] {
      OnceEach(q, x);
      if multiset(q)[x] > 0 {
        assert x in q;
      }
    }
    assert multiset(q) <= multiset(p);
    var extra := multiset(p) - multiset(q);
    assert |extra| == 0;
    assert multiset(p) == multiset(q) + extra;
  }

  /**
   The comparison is exact when the keys of the second list are distinct: it holds if and only if the
   first list is a permutation of the second, up to the fields that count.
   */
  lemma {:induction false} MatchesIffPermutation<V>(p: seq<Entry<V>>, q: seq<Entry<V>>)
    requires Distinct(q)
    ensures Matches(p, q) <==> multiset(p) == multiset(q)
  {
    if Matches(p, q) {
      forall j | 0 <= j < |q| ensures q[j] in p {
        FilledHas(p, q[j].key);
        assert q[j] == Entry(q[j].key, Filled(p)[q[j].key]);
      }
      Pigeonhole(p, q);
    }
    if multiset(p) == multiset(q) {
      assert |p| == |multiset(p)| == |q|;
      forall j | 0 <= j < |q| ensures q[j].key in Filled(p) && Filled(p)[q[j].key] == q[j].view {
        assert q[j] in multiset(p);
        FilledHas(p, q[j].key);
        assert Entry(q[j].key, Filled(p)[q[j].key]) in multiset(q);
      }
    }
  }

  /** On lists with distinct keys the comparison is symmetric and transitive. */
  lemma {:induction false} MatchesIsEquivalence<V>(p: seq<Entry<V>>, q: seq<Entry<V>>, r: seq<Entry<V>>)
    requires Distinct(p) && Distinct(q) && Distinct(r)
    ensures Matches(p, p)
    ensures Matches(p, q) <==> Matches(q, p)
    ensures Matches(p, q) && Matches(q, r) ==> Matches(p, r)
  {
    MatchesIffPermutation(p, p);
    MatchesIffPermutation(p, q);
    MatchesIffPermutation(q, p);
    MatchesIffPermutation(q, r);
    MatchesIffPermutation(p, r);
  }

  /** Entries with the same key have the same view. */
  ghost predicate KeysDecide<V>(p: seq<Entry<V>>) {
    forall i, j :: 0 <= i < |p| && 0 <= j < |p| && p[i].key == p[j].key ==> p[i].view == p[j].view
  }

  /** A list matches itself exactly when elements with the same key agree on the fields that count. */
  lemma {:induction false} MatchesItself<V>(p: seq<Entry<V>>)
    ensures Matches(p, p) <==> KeysDecide(p)
  {
    forall j | 0 <= j < |p| ensures p[j].key in Filled(p) && Entry(p[j].key, Filled(p)[p[j].key]) in p {
      FilledHas(p, p[j].key);
    }
  }

  /** A key that no element of the list has. */
  lemma {:induction false} FreshKey<V>(q: seq<Entry<V>>) returns (k: string)
    ensures forall i :: 0 <= i < |q| ==> |q[i].key| < |k|
    decreases |q|
  {
    if q == [] {
      k := "a";
    } else {
      var front, last := q[..|q| - 1], q[|q| - 1];
      var f := FreshKey(front);
      k := f + last.key + "a";
      forall i | 0 <= i < |q| ensures |q[i].key| < |k| {
        assert i < |front| ==> q[i] == front[i];
      }
    }
  }

  /** Replacing one of two equal entries by one with a new key goes unnoticed, if entries with equal keys agree. */
  lemma {:induction false} ReplacedMatches<V>(p: seq<Entry<V>>, q: seq<Entry<V>>, i: nat, j: nat)
    requires |p| == |q| && i < |q| && j < |q| && i != j && q[i] == q[j]
    requires forall m :: 0 <= m < |q| && m != i ==> p[m] == q[m]
    requires forall m :: 0 <= m < |q| ==> q[m].key != p[i].key
    requires KeysDecide(q)
    ensures Matches(p, q)
  {
    forall m | 0 <= m < |q| ensures q[m].key in Filled(p) && Filled(p)[q[m].key] == q[m].view {
      FilledHas(p, q[m].key);
      assert p[if m == i then j else m].key == q[m].key;
      var l :| 0 <= l < |p| && p[l] == Entry(q[m].key, Filled(p)[q[m].key]);
      assert l != i && p[l] == q[l];
    }
  }

  /**
   Distinct keys in the second list are exactly what the comparison needs: with a repeated key there is a
   first list for which it is wrong, namely the second list itself if entries with that key disagree, and
   otherwise a list that is no permutation.
   */
  lemma {:induction false} ExactIffDistinct<V>(q: seq<Entry<V>>)
    ensures Distinct(q) <==> forall p :: Matches(p, q) <==> multiset(p) == multiset(q)
  {
    if Distinct(q) {
      forall p ensures Matches(p, q) <==> multiset(p) == multiset(q) {
        MatchesIffPermutation(p, q);
      }
    } else {
      var p := Misjudged(q);
      assert !(Matches(p, q) <==> multiset(p) == multiset(q));
    }
  }

  lemma {:induction false} Misjudged<V>(q: seq<Entry<V>>) returns (p: seq<Entry<V>>)
    requires !Distinct(q)
    ensures !(Matches(p, q) <==> multiset(p) == multiset(q))
  {
    var i, j :| 0 <= i < j < |q| && q[i].key == q[j].key;
    MatchesItself(q);
    if Matches(q, q) {
      var k := FreshKey(q);
      p := q[i := Entry(k, q[i].view)];
      ReplacedMatches(p, q, i, j);
      assert p[i] in multiset(p) && p[i] !in multiset(q) by {
        assert p[i] in p && p[i] !in q;
      }
    } else {
      p := q;
    }
  }

  // ------------------------------------------------------------------------------------------
  // Statuses
  // ------------------------------------------------------------------------------------------

  /** An instant. */
  type Time = int

  datatype Condition = Condition(name: string, status: string, reason: string, message: string,
                                 lastTransition: Time, observedGeneration: int)

  datatype DeploymentScale = DeploymentScale(name: string, originalReplicas: int, lastSyncedAt: Option<Time>)

  datatype ResourceStatus = ResourceStatus(kind: string, namespace: string, name: string, status: string,
                                           lastSyncTime: Option<Time>, error: string)

  datatype SyncStats = SyncStats(totalResources: int, successfulSyncs: int, failedSyncs: int, lastSyncDuration: string)

  datatype SyncError = SyncError(message: string, resource: string, time: Time)

  datatype RetryStatus = RetryStatus(retriesRemaining: int, backoffDuration: string, nextRetryTime: Option<Time>)

  /** `uncompared` stands for progress, resource groups, detailed status and error categories. */
  datatype Status = Status(
    phase: string, lastSyncTime: Option<Time>, nextSyncTime: Option<Time>, lastWatchEvent: Option<Time>,
    syncStats: Option<SyncStats>, lastError: Option<SyncError>, retryStatus: Option<RetryStatus>,
    conditions: seq<Condition>, deploymentScales: seq<DeploymentScale>, resourceStatus: seq<ResourceStatus>,
    uncompared: seq<string>)

  datatype ConditionView = ConditionView(status: string, reason: string, message: string, lastTransition: Time)
  datatype ScaleView = ScaleView(originalReplicas: int, lastSyncedAt: Option<Time>)
  datatype ResourceView = ResourceView(status: string, lastSyncTime: Option<Time>)

  const CONDITION_KEY: Condition -> string := (c: Condition) => c.name
  const CONDITION_FIELDS: Condition -> ConditionView :=
    (c: Condition) => ConditionView(c.status, c.reason, c.message, c.lastTransition)
  const SCALE_KEY: DeploymentScale -> string := (d: DeploymentScale) => d.name
  const SCALE_FIELDS: DeploymentScale -> ScaleView :=
    (d: DeploymentScale) => ScaleView(d.originalReplicas, d.lastSyncedAt)
  const RESOURCE_KEY: ResourceStatus -> string := (s: ResourceStatus) => Join(s.kind, s.namespace, s.name)
  const RESOURCE_FIELDS: ResourceStatus -> ResourceView := (s: ResourceStatus) => ResourceView(s.status, s.lastSyncTime)

  function Join(kind: string, namespace: string, name: string): string {
    kind + "/" + namespace + "/" + name
  }

  function Conditions(s: Status): seq<Entry<ConditionView>> {
    Entries(s.conditions, CONDITION_KEY, CONDITION_FIELDS)
  }

  function Scales(s: Status): seq<Entry<ScaleView>> {
    Entries(s.deploymentScales, SCALE_KEY, SCALE_FIELDS)
  }

  function Resources(s: Status): seq<Entry<ResourceView>> {
    Entries(s.resourceStatus, RESOURCE_KEY, RESOURCE_FIELDS)
  }

  /** The fields that are compared directly. */
  predicate SameFields(a: Status, b: Status) {
    && a.phase == b.phase && a.lastSyncTime == b.lastSyncTime && a.nextSyncTime == b.nextSyncTime
    && a.lastWatchEvent == b.lastWatchEvent && a.syncStats == b.syncStats && a.lastError == b.lastError
    && a.retryStatus == b.retryStatus
  }

  predicate StatusEqual(a: Status, b: Status) {
    && SameFields(a, b)
    && Matches(Conditions(a), Conditions(b)) && Matches(Scales(a), Scales(b)) && Matches(Resources(a), Resources(b))
  }

  method CompareStatus(a: Status, b: Status) returns (r: bool)
    ensures r == StatusEqual(a, b)
  {
    if !SameFields(a, b) {
      return false;
    }
    r := SliceEqual(a.conditions, b.conditions, CONDITION_KEY, CONDITION_FIELDS);
    if r {
      r := SliceEqual(a.deploymentScales, b.deploymentScales, SCALE_KEY, SCALE_FIELDS);
    }
    if r {
      r := SliceEqual(a.resourceStatus, b.resourceStatus, RESOURCE_KEY, RESOURCE_FIELDS);
    }
  }

  predicate DistinctKeys(s: Status) {
    Distinct(Conditions(s)) && Distinct(Scales(s)) && Distinct(Resources(s))
  }

  /** The statuses agree, up to the order of the three lists, on everything that is compared. */
  predicate Agree(a: Status, b: Status) {
    && SameFields(a, b)
    && multiset(Conditions(a)) == multiset(Conditions(b))
    && multiset(Scales(a)) == multiset(Scales(b))
    && multiset(Resources(a)) == multiset(Resources(b))
  }

  lemma {:induction false} StatusEqualMeans(a: Status, b: Status)
    requires DistinctKeys(b)
    ensures StatusEqual(a, b) <==> Agree(a, b)
  {
    MatchesIffPermutation(Conditions(a), Conditions(b));
    MatchesIffPermutation(Scales(a), Scales(b));
    MatchesIffPermutation(Resources(a), Resources(b));
  }

  predicate Counterpart<T, V(==)>(x: T, y: T, key: T -> string, view: T -> V) {
    key(x) == key(y) && view(x) == view(y)
  }

  /** The lists are as long, and every element of the second has its counterpart in the first. */
  predicate Counterparts<T, V(==)>(a: seq<T>, b: seq<T>, key: T -> string, view: T -> V) {
    |a| == |b| && forall j :: 0 <= j < |b| ==> exists i :: 0 <= i < |a| && Counterpart(a[i], b[j], key, view)
  }

  /** For distinct keys, lists match if and only if they are as long and every element has its counterpart. */
  lemma {:induction false} MatchesIffCounterparts<T, V>(a: seq<T>, b: seq<T>, key: T -> string, view: T -> V)
    requires Distinct(Entries(b, key, view))
    ensures Matches(Entries(a, key, view), Entries(b, key, view)) <==> Counterparts(a, b, key, view)
  {
    var p, q := Entries(a, key, view), Entries(b, key, view);
    MatchesIffPermutation(p, q);
    if Matches(p, q) {
      forall j | 0 <= j < |b| ensures exists i :: 0 <= i < |a| && Counterpart(a[i], b[j], key, view) {
        assert q[j] in multiset(p);
        var i :| 0 <= i < |p| && p[i] == q[j];
        assert Counterpart(a[i], b[j], key, view);
      }
    }
    if Counterparts(a, b, key, view) {
      forall j | 0 <= j < |q| ensures q[j] in p {
        var i :| 0 <= i < |a| && Counterpart(a[i], b[j], key, view);
        assert p[i] == q[j];
      }
      Pigeonhole(p, q);
    }
  }

  /** Which conditions, scales and resources are counterparts, field by field. */
  lemma {:induction false} CounterpartSays(c: Condition, d: Condition, x: DeploymentScale, y: DeploymentScale,
                                           r: ResourceStatus, t: ResourceStatus)
    ensures Counterpart(c, d, CONDITION_KEY, CONDITION_FIELDS) <==>
      c.name == d.name && c.status == d.status && c.reason == d.reason && c.message == d.message
      && c.lastTransition == d.lastTransition
    ensures Counterpart(x, y, SCALE_KEY, SCALE_FIELDS) <==>
      x.name == y.name && x.originalReplicas == y.originalReplicas && x.lastSyncedAt == y.lastSyncedAt
    ensures Counterpart(r, t, RESOURCE_KEY, RESOURCE_FIELDS) <==>
      r.kind + "/" + r.namespace + "/" + r.name == t.kind + "/" + t.namespace + "/" + t.name
      && r.status == t.status && r.lastSyncTime == t.lastSyncTime
  {
  }

  /**
   What equality of statuses comes down to, for distinct keys: these seven fields are equal, and the three
   lists are as long and have counterparts for each other's elements.
   */
  lemma {:induction false} StatusEqualSays(a: Status, b: Status)
    requires DistinctKeys(b)
    ensures StatusEqual(a, b) <==>
      && a.phase == b.phase && a.lastSyncTime == b.lastSyncTime && a.nextSyncTime == b.nextSyncTime
      && a.lastWatchEvent == b.lastWatchEvent && a.syncStats == b.syncStats && a.lastError == b.lastError
      && a.retryStatus == b.retryStatus
      && Counterparts(a.conditions, b.conditions, CONDITION_KEY, CONDITION_FIELDS)
      && Counterparts(a.deploymentScales, b.deploymentScales, SCALE_KEY, SCALE_FIELDS)
      && Counterparts(a.resourceStatus, b.resourceStatus, RESOURCE_KEY, RESOURCE_FIELDS)
  {
    MatchesIffCounterparts(a.conditions, b.conditions, CONDITION_KEY, CONDITION_FIELDS);
    MatchesIffCounterparts(a.deploymentScales, b.deploymentScales, SCALE_KEY, SCALE_FIELDS);
    MatchesIffCounterparts(a.resourceStatus, b.resourceStatus, RESOURCE_KEY, RESOURCE_FIELDS);
  }

  /** Changes outside the compared fields are invisible. */
  lemma {:induction false} UncomparedIsInvisible(a: Status, other: seq<string>)
    requires DistinctKeys(a)
    ensures StatusEqual(a, a.(uncompared := other))
  {
    var b := a.(uncompared := other);
    assert Conditions(b) == Conditions(a) && Scales(b) == Scales(a) && Resources(b) == Resources(a);
    StatusEqualMeans(a, b);
  }

  lemma {:induction false} SplitAtSlash(a: string, x: string, b: string, y: string)
    requires '/' !in a && '/' !in b && a + "/" + x == b + "/" + y
    ensures a == b && x == y
  {
    var s := a + "/" + x;
    assert s == b + "/" + y;
    assert s[|a|] == '/' && s[|b|] == '/';
    assert |a| == |b|;
    assert a == s[..|a|] == b;
    assert x == s[|a| + 1..] == y;
  }

  /** Joined keys tell resources apart, for kinds and namespaces without a slash. */
  lemma {:induction false} JoinIsInjective(a: ResourceStatus, b: ResourceStatus)
    requires '/' !in a.kind && '/' !in a.namespace && '/' !in b.kind && '/' !in b.namespace
    ensures RESOURCE_KEY(a) == RESOURCE_KEY(b) <==> a.kind == b.kind && a.namespace == b.namespace && a.name == b.name
  {
    if RESOURCE_KEY(a) == RESOURCE_KEY(b) {
      var x, y := a.namespace + "/" + a.name, b.namespace + "/" + b.name;
      assert a.kind + "/" + x == Join(a.kind, a.namespace, a.name);
      assert b.kind + "/" + y == Join(b.kind, b.namespace, b.name);
      SplitAtSlash(a.kind, x, b.kind, y);
      SplitAtSlash(a.namespace, a.name, b.namespace, b.name);
    }
  }

  // ------------------------------------------------------------------------------------------
  // Replacing the Synced condition
  // ------------------------------------------------------------------------------------------

  function Others(cs: seq<Condition>): seq<Condition> {
    if cs == [] then []
    else Others(cs[..|cs| - 1]) + if cs[|cs| - 1].name != "Synced" then [cs[|cs| - 1]] else []
  }

  method ReplaceSynced(before: seq<Condition>, synced: Condition) returns (conditions: seq<Condition>)
    ensures conditions == Others(before) + [synced]
  {
    conditions := [];
    for i := 0 to |before|
      invariant conditions == Others(before[..i])
    {
      assert before[..i + 1][..i] == before[..i];
      if before[i].name != "Synced" {
        conditions := conditions + [before[i]];
      }
    }
    assert before[..|before|] == before;
    conditions := conditions + [synced];
  }

  predicate DistinctNames(cs: seq<Condition>) {
    forall i, j :: 0 <= i < j < |cs| ==> cs[i].name != cs[j].name
  }

  lemma {:induction false} OthersAre(cs: seq<Condition>)
    ensures forall i :: 0 <= i < |Others(cs)| ==> Others(cs)[i] in cs && Others(cs)[i].name != "Synced"
    ensures forall i :: 0 <= i < |cs| && cs[i].name != "Synced" ==> cs[i] in Others(cs)
    ensures DistinctNames(cs) ==> DistinctNames(Others(cs))
    decreases |cs|
  {
    if cs != [] {
      var front, last := cs[..|cs| - 1], cs[|cs| - 1];
      OthersAre(front);
      if DistinctNames(cs) && last.name != "Synced" {
        forall i | 0 <= i < |Others(front)| ensures Others(front)[i].name != last.name {
          var j :| 0 <= j < |front| && front[j] == Others(front)[i];
          assert cs[j] == front[j];
        }
      }
    }
  }

  /** The others are a filter: concatenation is kept, and of a single condition all but a Synced one. */
  lemma {:induction false} OthersIsFilter(a: seq<Condition>, b: seq<Condition>, c: Condition)
    ensures Others(a + b) == Others(a) + Others(b)
    ensures Others([c]) == if c.name == "Synced" then [] else [c]
    decreases |b|
  {
    assert [c][..0] == [];
    if b == [] {
      assert a + b == a;
    } else {
      assert (a + b)[..|a + b| - 1] == a + b[..|b| - 1];
      OthersIsFilter(a, b[..|b| - 1], c);
    }
  }

  /** Filter-then-append, or a reset to no conditions. */
  function Write(cs: seq<Condition>, write: Option<Condition>): seq<Condition> {
    if write.None? then [] else Others(cs) + [write.value]
  }

  function AfterWrites(cs: seq<Condition>, writes: seq<Option<Condition>>): seq<Condition> {
    if writes == [] then cs else Write(AfterWrites(cs, writes[..|writes| - 1]), writes[|writes| - 1])
  }

  /** The condition is the last in the list, and no other is called Synced. */
  predicate OnlySynced(cs: seq<Condition>, c: Condition) {
    cs != [] && cs[|cs| - 1] == c && forall i :: 0 <= i < |cs| - 1 ==> cs[i].name != "Synced"
  }

  lemma {:induction false} WriteKeepsDistinct(cs: seq<Condition>, write: Option<Condition>)
    requires DistinctNames(cs) && (write.Some? ==> write.value.name == "Synced")
    ensures DistinctNames(Write(cs, write))
    ensures if write.Some? then OnlySynced(Write(cs, write), write.value) else Write(cs, write) == []
  {
    OthersAre(cs);
  }

  /**
   Every list of conditions that the controller can produce from one with distinct names, in particular
   from none, has distinct names, and exactly one Synced condition, the last one written, unless it was
   reset since.
   */
  lemma {:induction false} ConditionsStayDistinct(cs: seq<Condition>, writes: seq<Option<Condition>>)
    requires DistinctNames(cs)
    requires forall i :: 0 <= i < |writes| && writes[i].Some? ==> writes[i].value.name == "Synced"
    ensures var end := AfterWrites(cs, writes);
      && DistinctNames(end)
      && (writes != [] ==>
            var last := writes[|writes| - 1]; if last.Some? then OnlySynced(end, last.value) else end == [])
    decreases |writes|
  {
    if writes != [] {
      var front, last := writes[..|writes| - 1], writes[|writes| - 1];
      ConditionsStayDistinct(cs, front);
      WriteKeepsDistinct(AfterWrites(cs, front), last);
    }
  }

  /** Distinct names are what the comparison of conditions needs. */
  lemma {:induction false} NamesAreKeys(s: Status)
    ensures DistinctNames(s.conditions) <==> Distinct(Conditions(s))
  {
    var p := Conditions(s);
    assert |p| == |s.conditions| && forall i :: 0 <= i < |p| ==> p[i].key == s.conditions[i].name;
  }
}
