/**
 The optimistic status update of the mode reconciler.  Every round reads the status, applies the
 update function, and writes unless nothing changed; after a conflict it looks whether someone else
 has stored the wanted status already.  Other writers may store statuses between any two calls.
 */
module StatusUpdate {
  import opened StatusCompare
  import opened StoredObjects

  /** What happens around the calls of one round. */
  datatype Round = Round(before: seq<Status>, getOk: bool, between: seq<Status>, reply: Reply,
                         after: seq<Status>, rereadOk: bool)

  datatype Outcome = Nil | Error | Exhausted

  /** `j` holds what the update function makes of the status at `i`, as far as statuses are compared. */
  predicate Meets(history: seq<Status>, i: nat, j: nat, apply: Status -> Status)
    requires i < |history| && j < |history|
  {
    history[j] == apply(history[i]) || StatusEqual(history[j], apply(history[i]))
  }

  function Last(history: seq<Status>): Status
    requires history != []
  {
    history[|history| - 1]
  }

  /** What others store in a round that meets a conflict. */
  function AllOf(round: Round): seq<Status> {
    round.before + round.between + round.after
  }

  /** What others store in a round that ends the call: the round may end before some of it lands. */
  predicate LandsIn(round: Round, landed: seq<Status>) {
    landed == round.before || landed == round.before + round.between || landed == AllOf(round)
  }

  /** Nothing is stored after `seen`, or the update of the last status there. */
  ghost predicate WroteOver(seen: seq<Status>, stored: bool, apply: Status -> Status, now: seq<Status>) {
    seen != [] && now == if stored then seen + [apply(Last(seen))] else seen
  }

  /**
   What a nil result stands for: at some moment of the call, `met`, the stored status met the update
   function on a status that was read during the call, at `read`; if the call stored it, then over it.
   */
  ghost predicate Achieved(history: seq<Status>, from: nat, read: nat, met: nat, status: Status, stored: bool,
                           apply: Status -> Status) {
    && from - 1 <= read <= met < |history| && Meets(history, read, met, apply)
    && (status == apply(history[read]) || status == history[met])
    && (stored ==> met == |history| - 1 && read == met - 1)
  }

  /** One round; `Exhausted` stands for going round again.  `landed` is what others stored meanwhile. */
  method TryRound(mapping: StoredObject<Status>, apply: Status -> Status, round: Round)
    returns (r: Outcome, status: Status, ghost read: nat, ghost met: nat, ghost landed: seq<Status>, ghost stored: bool)
    requires mapping.Valid()
    modifies mapping
    ensures mapping.Valid() && LandsIn(round, landed)
    ensures WroteOver(old(mapping.history) + landed, stored, apply, mapping.history)
    ensures r == Nil ==> Achieved(mapping.history, |old(mapping.history)|, read, met, status, stored, apply)
    ensures r == Error ==> !round.getOk || !round.reply.Answered? || !round.rereadOk
    ensures r == Exhausted ==> !stored && landed == AllOf(round) && round.between != []
    ensures stored ==> round.between == [] && (r == Nil || round.reply.Lost?)
    ensures round.getOk && Unchanged(Last(old(mapping.history) + round.before), apply) ==> r == Nil && !stored
    ensures round.getOk && !Unchanged(Last(old(mapping.history) + round.before), apply) && round.reply.Answered? ==>
      if round.between == [] then r == Nil && stored
      else if !round.rereadOk then r == Error
      else
        var wanted := apply(Last(old(mapping.history) + round.before));
        r == if StatusEqual(Last(old(mapping.history) + AllOf(round)), wanted) then Nil else Exhausted
  {
    r, status, read, met, landed, stored := Error, mapping.value, 0, 0, round.before, false;
    mapping.Interfere(round.before);
    ghost var read0 := Last(old(mapping.history) + round.before);
    assert mapping.value == read0;
    if !round.getOk {
      return;
    }
    var version, latest := mapping.version, apply(mapping.value);
    read := version;
    var same := CompareStatus(mapping.value, latest);
    if same {
      return Nil, latest, read, read, landed, stored;
    }
    mapping.Interfere(round.between);
    landed := landed + round.between;
    assert mapping.history == old(mapping.history) + landed;
    var conflict := version != mapping.version;
    if !round.reply.Rejected? && !conflict {
      mapping.Store(latest);
      stored := true;
    }
    if !round.reply.Answered? {
      return;
    }
    if !conflict {
      return Nil, latest, read, mapping.version, landed, stored;
    }
    mapping.Interfere(round.after);
    landed := landed + round.after;
    assert landed == AllOf(round) && mapping.history == old(mapping.history) + landed;
    assert mapping.value == Last(old(mapping.history) + AllOf(round));
    if !round.rereadOk {
      return;
    }
    same := CompareStatus(mapping.value, latest);
    if same {
      return Nil, mapping.value, read, mapping.version, landed, stored;
    }
    r := Exhausted;
  }

  /** The update function changes nothing that is compared. */
  predicate Unchanged(s: Status, apply: Status -> Status) {
    StatusEqual(s, apply(s))
  }

  /** `was` is the history before the first round, then after each round without what we stored. */
  ghost predicate Story(was: seq<seq<Status>>, rounds: nat -> Round) {
    && was != [] && was[0] != []
    && forall i :: 0 <= i < |was| - 1 ==> Follows(was, rounds, i)
  }

  ghost predicate Follows(was: seq<seq<Status>>, rounds: nat -> Round, i: nat)
    requires i < |was| - 1
  {
    was[i] <= was[i + 1] && LandsIn(rounds(i), was[i + 1][|was[i]|..])
  }

  lemma {:induction false} StoryGoesOn(was: seq<seq<Status>>, rounds: nat -> Round, landed: seq<Status>)
    returns (next: seq<seq<Status>>)
    requires Story(was, rounds) && LandsIn(rounds(|was| - 1), landed)
    ensures |next| == |was| + 1 && next[0] == was[0] && next[|was|] == was[|was| - 1] + landed
    ensures Story(next, rounds)
  {
    var last := was[|was| - 1];
    next := was + [last + landed];
    assert (last + landed)[|last|..] == landed;
    forall i | 0 <= i < |next| - 1 ensures Follows(next, rounds, i) {
      assert i < |was| - 1 ==> Follows(was, rounds, i);
    }
  }

  /**
   The history after the call is the old one, what others stored in each round, and at most one status more:
   the update of the one stored just before it.  There are at most `maxRetries` = 5 rounds, and only when
   all five met a conflict does the call give up.  An update function that changes nothing that is compared
   returns nil and is not stored.
   */
  method UpdateStatus(mapping: StoredObject<Status>, apply: Status -> Status, rounds: nat -> Round)
    returns (r: Outcome, status: Status, made: nat,
             ghost read: nat, ghost met: nat, ghost was: seq<seq<Status>>, ghost stored: bool)
    requires mapping.Valid()
    modifies mapping
    ensures mapping.Valid() && 1 <= made <= 5
    ensures |was| == made + 1 && was[0] == old(mapping.history) && Story(was, rounds)
    ensures WroteOver(was[made], stored, apply, mapping.history)
    ensures r == Nil ==> Achieved(mapping.history, |old(mapping.history)|, read, met, status, stored, apply)
    ensures r == Error ==>
      var last := rounds(made - 1); !last.getOk || !last.reply.Answered? || !last.rereadOk
    ensures r == Exhausted ==> made == 5 && !stored && forall n :: 0 <= n < 5 ==> rounds(n).between != []
    ensures stored ==> rounds(made - 1).between == [] && (r == Nil || rounds(made - 1).reply.Lost?)
    ensures rounds(0).getOk && Unchanged(Last(old(mapping.history) + rounds(0).before), apply) ==>
      r == Nil && made == 1 && !stored
  {
    var maxRetries := 5;
    r, status, made, read, met, was, stored := Exhausted, mapping.value, 0, 0, 0, [mapping.history], false;
    while made < maxRetries
      invariant mapping.Valid() && 0 <= made <= 5 && r == Exhausted && !stored
      invariant |was| == made + 1 && was[0] == old(mapping.history) && was[made] == mapping.history
      invariant Story(was, rounds)
      invariant |old(mapping.history)| <= |mapping.history|
      invariant forall n :: 0 <= n < made ==> rounds(n).between != []
      invariant made > 0 ==> !(rounds(0).getOk && Unchanged(Last(old(mapping.history) + rounds(0).before), apply))
    {
      ghost var landed;
      r, status, read, met, landed, stored := TryRound(mapping, apply, rounds(made));
      was := StoryGoesOn(was, rounds, landed);
      made := made + 1;
      if r != Exhausted {
        return;
      }
    }
  }

  /**
   So an update of progress, groups, details or error categories alone is answered with nil and lost, for
   every status with distinct keys.
   */
  lemma {:induction false} InvisibleUpdateIsUnchanged(s: Status, apply: Status -> Status)
    requires DistinctKeys(s) && apply(s) == s.(uncompared := apply(s).uncompared)
    ensures Unchanged(s, apply)
  {
    UncomparedIsInvisible(s, apply(s).uncompared);
  }

  /** Between statuses with distinct keys, what a nil result stands for is agreement on all compared fields. */
  lemma {:induction false} NilMeansAgreement(history: seq<Status>, i: nat, j: nat, apply: Status -> Status)
    requires i < |history| && j < |history| && DistinctKeys(apply(history[i]))
    ensures Meets(history, i, j, apply) <==> Agree(history[j], apply(history[i]))
  {
    StatusEqualMeans(history[j], apply(history[i]));
  }
}
