/**
 The rsync deployments that Deployment-mode runs create and delete in the destination namespace,
 over sequences of runs.  A deployment is its name and the sanitized PVC name in its label.
 */
module RsyncDeployments {

  // ------------------------------------------------------------------------------------------
  // Label values
  // ------------------------------------------------------------------------------------------

  const INVALID: seq<char> := ['/', '.', ':', '~']

  const MAX_LABEL: nat := 63

  /** The replacement of the first `k` characters of INVALID. */
  function Replaced(c: char, k: nat): char
    requires k <= |INVALID|
  {
    if c in INVALID[..k] then '-' else c
  }

  /** sanitizeNameForLabel: one pass over the name for each invalid character, then a cut. */
  method SanitizeNameForLabel(name: string) returns (result: string)
    ensures result == Sanitized(name)
    ensures |result| == if |name| > 63 then 63 else |name|
    ensures forall i :: 0 <= i < |result| ==> result[i] == if name[i] in ['/', '.', ':', '~'] then '-' else name[i]
  {
    result := name;
    for k := 0 to |INVALID|
      invariant |result| == |name| && forall j :: 0 <= j < |name| ==> result[j] == Replaced(name[j], k)
    {
      for i := 0 to |result|
        invariant |result| == |name|
        invariant forall j :: 0 <= j < i ==> result[j] == Replaced(name[j], k + 1)
        invariant forall j :: i <= j < |name| ==> result[j] == Replaced(name[j], k)
      {
        assert INVALID[..k + 1] == INVALID[..k] + [INVALID[k]];
        assert '-' !in INVALID;
        if result[i] == INVALID[k] {
          if i == 0 {
            result := "-" + result[1..];
          } else if i == |result| - 1 {
            result := result[..i] + "-";
          } else {
            result := result[..i] + "-" + result[i + 1..];
          }
        }
      }
    }
    assert INVALID[..|INVALID|] == INVALID;
    if |result| > MAX_LABEL {
      result := result[..MAX_LABEL];
    }
  }

  /** Character by character, cut to the length of a label value. */
  function Sanitized(name: string): (r: string)
    ensures |r| == if |name| > MAX_LABEL then MAX_LABEL else |name|
    ensures forall i :: 0 <= i < |r| ==> r[i] == if name[i] in INVALID then '-' else name[i]
  {
    seq(if |name| > MAX_LABEL then MAX_LABEL else |name|,
        i requires 0 <= i < |name| => if name[i] in INVALID then '-' else name[i])
  }

  predicate Alnum(c: char) {
    'a' <= c <= 'z' || '0' <= c <= '9' || 'A' <= c <= 'Z'
  }

  /** What the API server accepts as a label value. */
  predicate ValidLabel(s: string) {
    && |s| <= MAX_LABEL
    && (s != "" ==> Alnum(s[0]) && Alnum(s[|s| - 1]))
    && forall i :: 0 <= i < |s| ==> Alnum(s[i]) || s[i] in ['-', '_', '.']
  }

  /** What the API server accepts as a PVC name. */
  predicate PvcName(s: string) {
    && s != "" && Alnum(s[0]) && Alnum(s[|s| - 1])
    && forall i :: 0 <= i < |s| ==> Alnum(s[i]) || s[i] == '-' || s[i] == '.'
  }

  /** Sanitizing makes a PVC name a valid label value exactly when the cut does not fall on a '-' or '.'. */
  lemma SanitizedIsValid(name: string)
    requires PvcName(name)
    ensures ValidLabel(Sanitized(name)) <==> |name| <= MAX_LABEL || Alnum(name[MAX_LABEL - 1])
  {
    var r := Sanitized(name);
    assert forall c: char :: Alnum(c) ==> c !in INVALID;
    assert !Alnum('-');
    forall i | 0 <= i < |r|
      ensures Alnum(r[i]) || r[i] in ['-', '_', '.']
      ensures Alnum(r[i]) == Alnum(name[i])
    {
    }
  }

  // ------------------------------------------------------------------------------------------
  // The deployments of one namespace
  // ------------------------------------------------------------------------------------------

  /** Live rsync deployments: name to label. */
  type Live = map<string, string>

  function Name(tag: string, hash: string): string {
    "dr-syncer-" + tag + "-" + hash
  }

  lemma NameTellsLabel(l: string, h: string, l': string, h': string)
    requires |h| == |h'| && Name(l, h) == Name(l', h')
    ensures l == l' && h == h'
  {
    var p := "dr-syncer-";
    assert Name(l, h)[|p|..|p| + |l|] == l && Name(l', h')[|p|..|p| + |l'|] == l';
    assert Name(l, h)[|p| + |l| + 1..] == h && Name(l', h')[|p| + |l'| + 1..] == h';
  }

  /** Every deployment has a name that CreateRsyncDeployment gives. */
  ghost predicate WellNamed(live: Live) {
    forall n :: n in live ==> exists h: string :: |h| == 8 && n == Name(live[n], h)
  }

  function Labelled(live: Live, tag: string): set<string> {
    set n | n in live && live[n] == tag
  }

  /** How the API server answers one run; `deletes` tells which deletions succeed. */
  datatype Run = Run(pvc: string, hash: string, manager: bool, list: bool, deletes: string -> bool,
                     deployManager: bool, check: bool, gone: bool, create: bool, ready: bool)

  function Label(r: Run): string {
    Sanitized(r.pvc)
  }

  function RunName(r: Run): string {
    Name(Label(r), r.hash)
  }

  function AfterCleanup(live: Live, tag: string, r: Run): Live {
    if !r.list then live else map n | n in live && !(live[n] == tag && r.deletes(n)) :: live[n]
  }

  /** The check for a deployment of the same name that CreateRsyncDeployment makes first. */
  function AfterCheck(live: Live, r: Run): Live {
    if r.check && RunName(r) in live && r.deletes(RunName(r)) then live - {RunName(r)} else live
  }

  predicate Creates(live: Live, r: Run) {
    r.check && r.create && (RunName(r) in live ==> r.deletes(RunName(r)) && r.gone)
  }

  /** The run as a whole; the workflow cleans up the handle it obtained whatever happens in between. */
  function After(live: Live, r: Run): Live {
    if !r.manager then live else
    var a := AfterCleanup(live, Label(r), r);
    if !r.deployManager then a else
    var b := AfterCheck(a, r);
    if !Creates(a, r) then b
    else if r.ready && r.deletes(RunName(r)) then b - {RunName(r)}
    else b[RunName(r) := Label(r)]
  }

  /** A run leaves its deployment behind. */
  predicate Leaves(live: Live, r: Run) {
    && r.manager && r.deployManager
    && Creates(AfterCleanup(live, Label(r), r), r)
    && !(r.ready && r.deletes(RunName(r)))
  }

  /** The run deletes a deployment that was there before: in its cleanup, or because it has the run's own name. */
  predicate Removes(r: Run, n: string) {
    r.manager && r.deletes(n) && (r.list || (n == RunName(r) && r.deployManager && r.check))
  }

  /**
   Conservation in one run, whatever fails: what carries the label afterwards is what carried it before and
   was not removed, and the run's own deployment if it was left behind.  A run whose listing fails removes
   at most the deployment of its own name.
   */
  lemma RunConserves(live: Live, r: Run)
    ensures forall n :: n in Labelled(After(live, r), Label(r)) <==>
      || (n == RunName(r) && Leaves(live, r))
      || (n in Labelled(live, Label(r)) && !Removes(r, n))
  {
  }

  /** What is there after a run, deployment by deployment, and under which label. */
  lemma {:induction false} RunSays(live: Live, r: Run, n: string)
    ensures var tag := Sanitized(r.pvc);
      var name := "dr-syncer-" + tag + "-" + r.hash;
      var listed := n in live && r.list && live[n] == tag;
      var replaced := n == name && r.deployManager && r.check;
      var survives := n in live && !(r.manager && r.deletes(n) && (listed || replaced));
      var created := r.manager && r.deployManager && r.check && r.create
                     && (n in live && !(listed && r.deletes(n)) ==> r.deletes(n) && r.gone);
      && (n in After(live, r) <==> survives || (n == name && created && !(r.ready && r.deletes(n))))
      && (n in After(live, r) ==> After(live, r)[n] == if n == name && created then tag else live[n])
  {
  }

  lemma AfterIsWellNamed(live: Live, r: Run)
    requires WellNamed(live) && |r.hash| == 8
    ensures WellNamed(After(live, r))
  {
    forall n | n in After(live, r)
      ensures exists h: string :: |h| == 8 && n == Name(After(live, r)[n], h)
    {
      if n == RunName(r) && After(live, r)[n] == Label(r) {
        assert |r.hash| == 8 && n == Name(After(live, r)[n], r.hash);
      } else {
        assert n in live && After(live, r)[n] == live[n];
      }
    }
  }

  lemma OwnNameOwnLabel(live: Live, r: Run)
    requires WellNamed(live) && |r.hash| == 8 && RunName(r) in live
    ensures live[RunName(r)] == Label(r)
  {
    var h: string :| |h| == 8 && RunName(r) == Name(live[RunName(r)], h);
    NameTellsLabel(Label(r), r.hash, live[RunName(r)], h);
  }

  /** A run touches no deployment of another label. */
  lemma OtherLabelsUntouched(live: Live, r: Run, tag: string)
    requires WellNamed(live) && |r.hash| == 8 && tag != Label(r)
    ensures Labelled(After(live, r), tag) == Labelled(live, tag)
  {
    if RunName(r) in live {
      OwnNameOwnLabel(live, r);
    }
    TouchesOwnLabel(live, r, tag);
  }

  lemma TouchesOwnLabel(live: Live, r: Run, tag: string)
    requires RunName(r) in live ==> live[RunName(r)] == Label(r)
    requires tag != Label(r)
    ensures Labelled(After(live, r), tag) == Labelled(live, tag)
  {
  }

  // ------------------------------------------------------------------------------------------
  // Sequences of runs
  // ------------------------------------------------------------------------------------------

  /** A run that gets past the initial cleanup, with an API server that deletes what it is asked to. */
  ghost predicate Orderly(r: Run) {
    |r.hash| == 8 && r.manager && r.list && forall n :: r.deletes(n)
  }

  function AfterAll(live: Live, runs: seq<Run>): Live
    decreases |runs|
  {
    if runs == [] then live else After(AfterAll(live, runs[..|runs| - 1]), runs[|runs| - 1])
  }

  /** The deployment is created and its pod does not come up in time. */
  predicate NeverReady(r: Run) {
    r.deployManager && r.check && r.create && !r.ready
  }

  /** What the runs of one label leave: the deployment of the last of them, if its pod never came up. */
  function Leftover(runs: seq<Run>, tag: string): set<string>
    decreases |runs|
  {
    if runs == [] then {}
    else
      var r := runs[|runs| - 1];
      if Label(r) != tag then Leftover(runs[..|runs| - 1], tag)
      else if NeverReady(r) then {RunName(r)} else {}
  }

  predicate Touched(runs: seq<Run>, tag: string) {
    exists i :: 0 <= i < |runs| && Label(runs[i]) == tag
  }

  /**
   Bounded leftovers: after any sequence of orderly runs, over any mix of PVCs and from any state,
   a label that was run at all is carried by at most one deployment, and by one exactly when the
   readiness wait of the last run of that label failed after the creation.
   */
  lemma {:induction false} LeftoversAreBounded(live: Live, runs: seq<Run>, tag: string)
    requires WellNamed(live) && forall i :: 0 <= i < |runs| ==> Orderly(runs[i])
    ensures WellNamed(AfterAll(live, runs))
    ensures Labelled(AfterAll(live, runs), tag) ==
              if Touched(runs, tag) then Leftover(runs, tag) else Labelled(live, tag)
    ensures |Leftover(runs, tag)| <= 1
    decreases |runs|
  {
    if runs != [] {
      var before, r := runs[..|runs| - 1], runs[|runs| - 1];
      LeftoversAreBounded(live, before, tag);
      AfterIsWellNamed(AfterAll(live, before), r);
      TouchedSnoc(runs, tag);
      if Label(r) == tag {
        OrderlyRunLeaves(AfterAll(live, before), r);
      } else {
        OtherLabelsUntouched(AfterAll(live, before), r, tag);
      }
    }
  }

  lemma TouchedSnoc(runs: seq<Run>, tag: string)
    requires runs != []
    ensures Touched(runs, tag) <==> Touched(runs[..|runs| - 1], tag) || Label(runs[|runs| - 1]) == tag
  {
    var before := runs[..|runs| - 1];
    if i :| 0 <= i < |before| && Label(before[i]) == tag {
      assert Label(runs[i]) == tag;
    }
    if i :| 0 <= i < |runs| - 1 && Label(runs[i]) == tag {
      assert Label(before[i]) == tag;
    }
  }

  lemma OrderlyRunLeaves(live: Live, r: Run)
    requires WellNamed(live) && Orderly(r)
    ensures Labelled(After(live, r), Label(r)) == if NeverReady(r) then {RunName(r)} else {}
  {
    RunConserves(live, r);
    NoClash(live, r);
  }

  /** After its own cleanup an orderly run finds no deployment of the name it is about to use. */
  lemma NoClash(live: Live, r: Run)
    requires WellNamed(live) && Orderly(r)
    ensures RunName(r) !in AfterCleanup(live, Label(r), r)
  {
    if RunName(r) in live {
      OwnNameOwnLabel(live, r);
    }
  }

  // ------------------------------------------------------------------------------------------
  // Runs whose listing fails
  // ------------------------------------------------------------------------------------------

  /** The API server deletes what it is asked to; the listing, and all else, may fail. */
  ghost predicate Compliant(r: Run) {
    |r.hash| == 8 && forall n :: r.deletes(n)
  }

  /** How many deployments a label can carry: those since the last run that could list, each never ready. */
  function Backlog(runs: seq<Run>, tag: string, initial: nat): nat
    decreases |runs|
  {
    if runs == [] then initial
    else
      var before, r := Backlog(runs[..|runs| - 1], tag, initial), runs[|runs| - 1];
      if Label(r) != tag || !r.manager then before
      else (if r.list then 0 else before) + if NeverReady(r) then 1 else 0
  }

  lemma RunGrowth(live: Live, r: Run)
    requires Compliant(r) && r.manager
    ensures |Labelled(After(live, r), Label(r))| <=
              (if r.list then 0 else |Labelled(live, Label(r))|) + if NeverReady(r) then 1 else 0
  {
    RunConserves(live, r);
    var kept := set n | n in Labelled(live, Label(r)) && !Removes(r, n);
    var own := if NeverReady(r) then {RunName(r)} else {};
    SizeUpTo(kept, Labelled(live, Label(r)));
    assert r.list ==> kept == {};
    assert Labelled(After(live, r), Label(r)) <= kept + own;
    SizeUpTo(Labelled(After(live, r), Label(r)), kept + own);
  }

  lemma {:induction false} SizeUpTo(a: set<string>, b: set<string>)
    requires a <= b
    ensures |a| <= |b|
  {
    assert b == a + (b - a);
  }

  /**
   Bounded leftovers when listings may fail: after any sequence of runs, over any mix of PVCs, a label is
   carried by at most as many deployments as there were never-ready runs of it since the last one that
   could list, that one included; and by what was there at the start, if none could.
   */
  lemma {:induction false} GrowthIsBounded(live: Live, runs: seq<Run>, tag: string)
    requires WellNamed(live) && forall i :: 0 <= i < |runs| ==> Compliant(runs[i])
    ensures WellNamed(AfterAll(live, runs))
    ensures |Labelled(AfterAll(live, runs), tag)| <= Backlog(runs, tag, |Labelled(live, tag)|)
    decreases |runs|
  {
    if runs != [] {
      var front, r := runs[..|runs| - 1], runs[|runs| - 1];
      GrowthIsBounded(live, front, tag);
      AfterIsWellNamed(AfterAll(live, front), r);
      if Label(r) != tag {
        OtherLabelsUntouched(AfterAll(live, front), r, tag);
      } else if r.manager {
        RunGrowth(AfterAll(live, front), r);
      }
    }
  }

  /** The runs of the label that could not list and were never ready. */
  function Unlisted(runs: seq<Run>, tag: string): nat
    decreases |runs|
  {
    if runs == [] then 0
    else
      var r := runs[|runs| - 1];
      Unlisted(runs[..|runs| - 1], tag) + if Label(r) == tag && r.manager && !r.list && NeverReady(r) then 1 else 0
  }

  /** Each such run adds at most one to what there is otherwise. */
  lemma {:induction false} BacklogIsUnlisted(runs: seq<Run>, tag: string, initial: nat)
    ensures Backlog(runs, tag, initial) <= (if initial > 1 then initial else 1) + Unlisted(runs, tag)
    decreases |runs|
  {
    if runs != [] {
      BacklogIsUnlisted(runs[..|runs| - 1], tag, initial);
    }
  }

  /** And it does add one, under a name that is not in use. */
  lemma UnlistedRunAdds(live: Live, r: Run)
    requires Compliant(r) && r.manager && !r.list && NeverReady(r) && RunName(r) !in live
    ensures |Labelled(After(live, r), Label(r))| == |Labelled(live, Label(r))| + 1
  {
    assert Labelled(After(live, r), Label(r)) == Labelled(live, Label(r)) + {RunName(r)};
  }

  // ------------------------------------------------------------------------------------------
  // The calls on the namespace
  // ------------------------------------------------------------------------------------------

  function Deleting(live: Live, names: set<string>, r: Run): Live {
    map n | n in live && !(n in names && r.deletes(n)) :: live[n]
  }

  lemma DeletingOne(live: Live, names: set<string>, n: string, r: Run)
    ensures Deleting(live, names + {n}, r) ==
              if r.deletes(n) then Deleting(live, names, r) - {n} else Deleting(live, names, r)
  {
  }

  lemma DeletingAll(live: Live, tag: string, r: Run)
    requires r.list
    ensures Deleting(live, Labelled(live, tag), r) == AfterCleanup(live, tag, r)
  {
  }

  class Namespace {
    var live: Live

    constructor (l: Live)
      ensures live == l
    {
      live := l;
    }

    /** CleanupExistingDeployments: list by label, delete each, go on whatever a deletion says. */
    method CleanupExistingDeployments(r: Run) returns (ok: bool)
      modifies this
      ensures ok == r.list
      ensures live == AfterCleanup(old(live), Label(r), r)
    {
      if !r.list {
        return false;
      }
      var tag := SanitizeNameForLabel(r.pvc);
      var items := set n | n in live && live[n] == tag;
      ghost var seen: set<string> := {};
      assert live == Deleting(live, {}, r);
      while items != {}
        invariant items + seen == Labelled(old(live), tag) && live == Deleting(old(live), seen, r)
        decreases |items|
      {
        var n :| n in items;
        DeletingOne(old(live), seen, n, r);
        if r.deletes(n) {
          live := live - {n};
        }
        items, seen := items - {n}, seen + {n};
      }
      DeletingAll(old(live), tag, r);
      ok := true;
    }

    /** CreateRsyncDeployment: replaces a deployment of the same name. */
    method CreateRsyncDeployment(r: Run) returns (created: bool)
      modifies this
      ensures created == Creates(old(live), r)
      ensures live == if created then AfterCheck(old(live), r)[RunName(r) := Label(r)] else AfterCheck(old(live), r)
    {
      var tag := SanitizeNameForLabel(r.pvc);
      var name := Name(tag, r.hash);
      if !r.check {
        return false;
      }
      if name in live {
        if !r.deletes(name) {
          return false;
        }
        live := live - {name};
        if !r.gone {
          return false;
        }
      }
      if !r.create {
        return false;
      }
      live := live[name := tag];
      created := true;
    }

    /** RsyncDeployment.Cleanup */
    method Cleanup(name: string, ok: bool)
      modifies this
      ensures live == if ok then old(live) - {name} else old(live)
    {
      if ok {
        live := live - {name};
      }
    }

    /** What one workflow run does to the namespace. */
    method Sync(r: Run)
      modifies this
      ensures live == After(old(live), r)
    {
      if !r.manager {
        return;
      }
      var listed := CleanupExistingDeployments(r);
      if !r.deployManager {
        return;
      }
      ghost var a := live;
      var created := CreateRsyncDeployment(r);
      if !created || !r.ready {
        return;
      }
      Cleanup(RunName(r), r.deletes(RunName(r)));
      assert AfterCheck(a, r)[RunName(r) := Label(r)] - {RunName(r)} == AfterCheck(a, r) - {RunName(r)};
    }
  }
}
