/**
 The persisted retry record of a NamespaceMapping: how many retries remain, and the last backoff as a
 string that the next failure parses back.  A failure or a success is persisted or not, as its status
 update turns out.
 */
module RetryRecord {
  import opened Options
  import opened Decimal
  import opened Numbers
  import opened Durations
  import opened StatusCompare

  /** What a failure reads of the retry status: the next retry time is only written. */
  datatype Record = Record(retriesRemaining: int, backoffDuration: string)

  function Kept(s: Status): Option<Record> {
    if s.retryStatus.None? then None
    else Some(Record(s.retryStatus.value.retriesRemaining, s.retryStatus.value.backoffDuration))
  }

  const MAX_BACKOFF: nat := 300_000_000_000

  /** How backoffs are written and read, and the text of the initial one. */
  datatype Codec = Codec(format: int -> string, parse: string -> Option<int>, initial: string)

  function GoCodec(): Codec {
    Codec(FormatDuration, ParseDuration, "5s")
  }

  /** The record that a failure starts from: the stored one, or ten retries and the initial backoff. */
  function Starting(stored: Option<Record>, c: Codec): Record {
    if stored.Some? then stored.value else Record(10, c.initial)
  }

  /** The stored backoff, five seconds if it is missing or cannot be parsed. */
  function Current(text: string, c: Codec): int {
    if text == "" then 5 * SECOND
    else match c.parse(text)
      case None => 5 * SECOND
      case Some(d) => d
  }

  function NextBackoff(stored: Option<Record>, c: Codec): int {
    Min(MAX_BACKOFF, 2 * Current(Starting(stored, c).backoffDuration, c))
  }

  function NextRecord(stored: Option<Record>, c: Codec): Record {
    var n := Starting(stored, c).retriesRemaining;
    Record(if n > 0 then n - 1 else n, c.format(NextBackoff(stored, c)))
  }

  /** The next backoff and the next count, from whatever record is stored. */
  lemma {:induction false} NextSays(stored: Option<Record>, c: Codec)
    ensures var text := if stored.Some? then stored.value.backoffDuration else c.initial;
      var current := if text == "" || c.parse(text).None? then 5_000_000_000 else c.parse(text).value;
      NextBackoff(stored, c) == if 2 * current < 300_000_000_000 then 2 * current else 300_000_000_000
    ensures NextRecord(stored, c).backoffDuration == c.format(NextBackoff(stored, c))
    ensures var n := if stored.Some? then stored.value.retriesRemaining else 10;
      NextRecord(stored, c).retriesRemaining == if n > 0 then n - 1 else n
  {
  }

  /** An error of a sync, the resource it names if it is a SyncError, and when it is handled. */
  datatype Fault = Fault(message: string, resource: string, now: Time)

  function SyncFailed(f: Fault, r: Record): Condition {
    Condition("Synced", "False", "SyncFailed", FailureText(f.message, r.backoffDuration, r.retriesRemaining), f.now, 0)
  }

  function FailureText(message: string, backoff: string, retries: int): string {
    "Sync failed: " + message + ". Retry scheduled in " + backoff + " (" + Print(retries) + " retries remaining)"
  }

  /** The status that a failure makes of a freshly read one; the record is that of the status it had at hand. */
  function Failed(latest: Status, stored: Option<Record>, f: Fault, c: Codec): Status {
    var r := NextRecord(stored, c);
    latest.(phase := "Failed",
            retryStatus := Some(RetryStatus(r.retriesRemaining, r.backoffDuration,
                                            Some(f.now + NextBackoff(stored, c)))),
            lastError := Some(SyncError(f.message, f.resource, f.now)),
            conditions := Others(latest.conditions) + [SyncFailed(f, r)])
  }

  /** The status that a success makes of a freshly read one. */
  function Cleared(latest: Status): Status {
    latest.(retryStatus := None, lastError := None)
  }

  /** On the two fields that the next failure reads, a failure and a success act as the run lemmas say. */
  lemma {:induction false} KeptFollows(latest: Status, stored: Option<Record>, f: Fault, c: Codec)
    ensures Kept(Failed(latest, stored, f, c)) == Some(NextRecord(stored, c)) && Kept(Cleared(latest)) == None
    ensures DistinctNames(latest.conditions) ==>
      OnlySynced(Failed(latest, stored, f, c).conditions, SyncFailed(f, NextRecord(stored, c)))
  {
    OthersAre(latest.conditions);
  }

  /** The mapping that a reconcile works on. */
  class Mapping {
    const codec: Codec
    var status: Status

    constructor (s: Status)
      ensures status == s && codec == GoCodec()
    {
      status, codec := s, GoCodec();
    }

    /** `latest` is the status that the update was stored over, if it was persisted. */
    method HandleRetry(f: Fault, latest: Option<Status>) returns (shouldRetry: bool, backoff: int)
      modifies this
      ensures status == if latest.Some? then Failed(latest.value, Kept(old(status)), f, codec) else old(status)
      ensures shouldRetry == (NextRecord(Kept(old(status)), codec).retriesRemaining > 0)
      ensures backoff == NextBackoff(Kept(old(status)), codec)
      ensures latest.Some? ==>
        && status.phase == "Failed" && status.lastError == Some(SyncError(f.message, f.resource, f.now))
        && status.retryStatus.Some? && status.retryStatus.value.nextRetryTime == Some(f.now + backoff)
        && status.retryStatus.value.backoffDuration == codec.format(backoff)
        && status.conditions != [] && status.conditions[|status.conditions| - 1].name == "Synced"
        && status.conditions[|status.conditions| - 1].status == "False"
        && status.(phase := latest.value.phase, lastError := latest.value.lastError,
                   retryStatus := latest.value.retryStatus, conditions := latest.value.conditions) == latest.value
    {
      var remaining, text := 10, codec.initial;
      if status.retryStatus.Some? {
        remaining, text := status.retryStatus.value.retriesRemaining, status.retryStatus.value.backoffDuration;
      }
      if remaining > 0 {
        remaining := remaining - 1;
      }
      var current: int := 5 * SECOND;
      if text != "" {
        var parsed := codec.parse(text);
        if parsed.Some? {
          current := parsed.value;
        }
      }
      backoff := if MAX_BACKOFF <= current * 2 then MAX_BACKOFF else current * 2;
      text := codec.format(backoff);
      if latest.Some? {
        var conditions := ReplaceSynced(latest.value.conditions, SyncFailed(f, Record(remaining, text)));
        status := latest.value.(phase := "Failed",
                                retryStatus := Some(RetryStatus(remaining, text, Some(f.now + backoff))),
                                lastError := Some(SyncError(f.message, f.resource, f.now)),
                                conditions := conditions);
      }
      shouldRetry := remaining > 0;
    }

    /** Without a retry status at hand nothing is cleared. */
    method ResetRetryStatus(latest: Option<Status>)
      modifies this
      ensures status ==
        if old(status.retryStatus).Some? && latest.Some? then Cleared(latest.value) else old(status)
      ensures old(status.retryStatus).Some? && latest.Some? ==>
        && status.retryStatus == None && status.lastError == None
        && status.(retryStatus := latest.value.retryStatus, lastError := latest.value.lastError) == latest.value
    {
      if status.retryStatus.None? {
        return;
      }
      if latest.Some? {
        status := latest.value.(retryStatus := None, lastError := None);
      }
    }
  }

  // ------------------------------------------------------------------------------------------
  // Whole runs
  // ------------------------------------------------------------------------------------------

  datatype Event = Failure(persisted: bool) | Success(persisted: bool)

  function After(es: seq<Event>, c: Codec): Option<Record> {
    if es == [] then None
    else
      var before := After(es[..|es| - 1], c);
      match es[|es| - 1]
      case Failure(persisted) => if persisted then Some(NextRecord(before, c)) else before
      case Success(persisted) => if persisted then None else before
  }

  /** The status after the same events; the i-th is about `faults(i)` and finds `latest(i)` in the store. */
  function StatusAfter(s: Status, es: seq<Event>, faults: nat -> Fault, latest: nat -> Status, c: Codec): Status {
    if es == [] then s
    else
      var i := |es| - 1;
      var before := StatusAfter(s, es[..i], faults, latest, c);
      if !es[i].persisted then before
      else if es[i].Failure? then Failed(latest(i), Kept(before), faults(i), c)
      else if before.retryStatus.Some? then Cleared(latest(i)) else before
  }

  /** The record is the part of the status that matters, whatever else others change in the meantime. */
  lemma {:induction false} StatusKeepsRecord(s: Status, es: seq<Event>, faults: nat -> Fault, latest: nat -> Status,
                                             c: Codec)
    requires s.retryStatus.None?
    ensures Kept(StatusAfter(s, es, faults, latest, c)) == After(es, c)
    decreases |es|
  {
    if es != [] {
      var i := |es| - 1;
      StatusKeepsRecord(s, es[..i], faults, latest, c);
      KeptFollows(latest(i), Kept(StatusAfter(s, es[..i], faults, latest, c)), faults(i), c);
    }
  }

  /** Persisted failures since the last persisted success. */
  function Streak(es: seq<Event>): nat {
    if es == [] then 0
    else
      match es[|es| - 1]
      case Failure(persisted) => Streak(es[..|es| - 1]) + if persisted then 1 else 0
      case Success(persisted) => if persisted then 0 else Streak(es[..|es| - 1])
  }

  /** min(300, 5 * 2^k) seconds. */
  function BackoffAfter(k: nat): nat {
    if 5 * Pow2(k) <= 300 then 5 * Pow2(k) * SECOND else MAX_BACKOFF
  }

  function RemainingAfter(k: nat): nat {
    if k <= 10 then 10 - k else 0
  }

  function RecordAfter(k: nat, c: Codec): Option<Record> {
    if k == 0 then None else Some(Record(RemainingAfter(k), c.format(BackoffAfter(k))))
  }

  lemma {:induction false} BackoffDoubles(k: nat)
    ensures BackoffAfter(k + 1) == Min(MAX_BACKOFF, 2 * BackoffAfter(k))
    ensures BackoffAfter(k) % SECOND == 0 && BackoffAfter(k) <= MAX_BACKOFF
  {
    assert Pow2(k + 1) == 2 * Pow2(k);
    if 5 * Pow2(k) <= 300 {
      MultipleOfSecond(5 * Pow2(k));
    }
  }

  lemma {:induction false} MultipleOfSecond(n: nat)
    ensures n * SECOND % SECOND == 0
  {
  }

  /** Whole seconds, non-negative, are read back as they were written, and the initial text is five of them. */
  ghost predicate Faithful(c: Codec) {
    && Current(c.initial, c) == 5 * SECOND
    && forall d: nat :: IsInt64(d) && d % SECOND == 0 ==> c.format(d) != "" && c.parse(c.format(d)) == Some(d)
  }

  lemma {:induction false} GoCodecIsFaithful()
    ensures Faithful(GoCodec())
  {
    var c := GoCodec();
    forall d: nat | IsInt64(d) && d % SECOND == 0 ensures c.format(d) != "" && c.parse(c.format(d)) == Some(d) {
      WholeSecondsSurvive(d);
    }
    InitialText("5s");
  }

  lemma {:induction false} WholeSecondsSurvive(d: nat)
    requires IsInt64(d) && d % SECOND == 0
    ensures FormatDuration(d) != "" && ParseDuration(FormatDuration(d)) == Some(d)
  {
    RoundTripNonNegative(d);
    FormatNonNegative(d);
    ClockIsNot0(Hours(d), Minutes(d), Seconds(d));
  }

  lemma {:induction false} InitialText(text: string)
    requires text == "5s"
    ensures ParseDuration(text) == Some(5 * SECOND)
  {
    assert text == Clock(0, 0, 5) by {
      assert PrintNat(5) == "5";
    }
    ParseClock(0, 0, 5, 5 * SECOND, text);
  }

  /** The text that a failure finds is read back as the backoff it stands for. */
  lemma {:induction false} StoredBackoff(k: nat, c: Codec)
    requires Faithful(c)
    ensures Current(Starting(RecordAfter(k, c), c).backoffDuration, c) == BackoffAfter(k)
  {
    assert BackoffAfter(0) == 5 * SECOND;
    BackoffDoubles(k);
  }

  lemma {:induction false} OneMoreFailure(k: nat, c: Codec)
    requires Faithful(c)
    ensures NextBackoff(RecordAfter(k, c), c) == BackoffAfter(k + 1)
    ensures Some(NextRecord(RecordAfter(k, c), c)) == RecordAfter(k + 1, c)
  {
    StoredBackoff(k, c);
    BackoffDoubles(k);
  }

  /** In every run the stored record tells how many persisted failures there were since the last persisted success. */
  lemma {:induction false} RecordCountsFailures(es: seq<Event>, c: Codec)
    requires Faithful(c)
    ensures After(es, c) == RecordAfter(Streak(es), c)
    decreases |es|
  {
    if es != [] {
      RecordCountsFailures(es[..|es| - 1], c);
      OneMoreFailure(Streak(es[..|es| - 1]), c);
    }
  }

  /**
   What the k-th persisted failure in a row answers and stores: it may be retried iff k <= 9, after
   min(300, 5 * 2^k) seconds, and max(0, 10 - k) retries remain.
   */
  lemma {:induction false} KthFailure(es: seq<Event>, k: nat, c: Codec)
    requires Faithful(c) && k == Streak(es) + 1
    ensures NextBackoff(After(es, c), c) == (if 5 * Pow2(k) <= 300 then 5 * Pow2(k) else 300) * 1_000_000_000
    ensures NextRecord(After(es, c), c) ==
      Record(if k <= 10 then 10 - k else 0, c.format(NextBackoff(After(es, c), c)))
    ensures NextRecord(After(es, c), c).retriesRemaining > 0 <==> k <= 9
  {
    RecordCountsFailures(es, c);
    OneMoreFailure(Streak(es), c);
  }
}
