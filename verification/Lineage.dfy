/** The life of one source record: attempts in place, visits to the retry topic, the dead letter
    queue, and the way back from there. */
module Lineage {
  import opened Wrappers
  import opened Decimal
  import opened Errors
  import opened Headers

  const MAX_RETRY_ATTEMPTS := 3
  const MAX_RETRY_ROUNDS := 3

  /** What happens on one visit to the retry topic, and the retry_at stamped if it fails again. */
  datatype Visit = Visit(verdict: Verdict, retryAt: int)

  datatype Fate = Handled | Dead(record: Record)

  /** Everything the environment decides about one lineage: whether the envelope parses, the verdict
      of each attempt in place, and of each later visit. */
  datatype Luck = Luck(parses: bool, attempts: nat -> Verdict, retryAt: int, visits: nat -> Visit)

  /** How many of the attempts in place are made: up to the first verdict that is not transient. */
  function AttemptsMade(attempts: nat -> Verdict, from: nat): (n: nat)
    requires from < MAX_RETRY_ATTEMPTS
    ensures from < n <= MAX_RETRY_ATTEMPTS
    ensures forall i :: from <= i < n - 1 ==> attempts(i).Transient?
    ensures n < MAX_RETRY_ATTEMPTS ==> !attempts(n - 1).Transient?
    decreases MAX_RETRY_ATTEMPTS - from
  {
    if !attempts(from).Transient? || from == MAX_RETRY_ATTEMPTS - 1 then from + 1 else AttemptsMade(attempts, from + 1)
  }

  function DeadFromMain(r: Record, cause: string): Record {
    Record(DlqTopic(r.topic), 0, 0, r.key, r.value, DlqHeaders(r.headers, cause, r.topic, r.partition, r.offset))
  }

  function FirstRetry(r: Record, retryAt: int): Record {
    Record(RetryTopic(r.topic), 0, 0, r.key, r.value, RetryHeaders(r, retryAt))
  }

  function NextRetry(r: Record, round: int, retryAt: int): Record {
    Record(r.topic, 0, 0, r.key, r.value, NextRoundHeaders(r.headers, round, retryAt))
  }

  function DeadFromRetry(source: string, r: Record, cause: string): Record {
    Record(DlqTopic(source), 0, 0, r.key, r.value,
           DlqHeaders(r.headers, cause, OriginalTopic(r), OriginalPartition(r), OriginalOffset(r)))
  }

  /** The visits of a retry record until it is handled or dead: handler calls made, every record
      produced on the way, and the end. The broker gives each delivered record its own place. */
  function Visits(source: string, r: Record, visits: nat -> Visit, k: nat): (nat, seq<Record>, Fate)
    decreases if RetryRound(r) < MAX_RETRY_ROUNDS then MAX_RETRY_ROUNDS - RetryRound(r) else 0
  {
    var visit := visits(k);
    match visit.verdict
    case Done => (1, [], Handled)
    case Fatal(cause) => (1, [DeadFromRetry(source, r, cause)], Dead(DeadFromRetry(source, r, cause)))
    case Transient(cause) =>
      var round := RetryRound(r);
      if round >= MAX_RETRY_ROUNDS then
        (1, [DeadFromRetry(source, r, cause)], Dead(DeadFromRetry(source, r, cause)))
      else
        var next := NextRetry(r, round + 1, visit.retryAt);
        RoundReadBack(r, round + 1, visit.retryAt);
        var (calls, trail, fate) := Visits(source, next, visits, k + 1);
        (1 + calls, [next] + trail, fate)
  }

  lemma RoundReadBack(r: Record, round: int, retryAt: int)
    requires -Limit(64) <= round < Limit(64)
    ensures RetryRound(NextRetry(r, round, retryAt)) == round
  {
    ReadBack(r.headers, RETRY_COUNT, FormatInt(round), RETRY_COUNT);
    ReadBack(WithHeader(r.headers, RETRY_COUNT, FormatInt(round)), RETRY_AT, FormatInt(retryAt), RETRY_COUNT);
    ParseFormat(round, 64);
  }

  /** The whole lineage of a source record. */
  function Follow(r: Record, luck: Luck): (nat, seq<Record>, Fate) {
    if !luck.parses then (0, [DeadFromMain(r, "envelope")], Dead(DeadFromMain(r, "envelope")))
    else
      var n := AttemptsMade(luck.attempts, 0);
      match luck.attempts(n - 1)
      case Done => (n, [], Handled)
      case Fatal(cause) => (n, [DeadFromMain(r, cause)], Dead(DeadFromMain(r, cause)))
      case Transient(_) =>
        var first := FirstRetry(r, luck.retryAt);
        var (calls, trail, fate) := Visits(r.topic, first, luck.visits, 0);
        (n + calls, [first] + trail, fate)
  }

  // ---------- It ends ----------

  lemma {:induction false} VisitsBound(source: string, r: Record, visits: nat -> Visit, k: nat)
    requires RetryRound(r) <= MAX_RETRY_ROUNDS
    ensures Visits(source, r, visits, k).0 <= MAX_RETRY_ROUNDS - RetryRound(r) + 1
    decreases MAX_RETRY_ROUNDS - RetryRound(r)
  {
    var visit := visits(k);
    if visit.verdict.Transient? && RetryRound(r) < MAX_RETRY_ROUNDS {
      RoundReadBack(r, RetryRound(r) + 1, visit.retryAt);
      VisitsBound(source, NextRetry(r, RetryRound(r) + 1, visit.retryAt), visits, k + 1);
    }
  }

  lemma FirstRound(r: Record, retryAt: int)
    ensures RetryRound(FirstRetry(r, retryAt)) == 1
  {
    var a := WithHeader(r.headers, RETRY_AT, FormatInt(retryAt));
    var b := WithHeader(a, RETRY_COUNT, "1");
    var c := WithHeader(b, ORIGINAL_TOPIC, r.topic);
    var d := WithHeader(c, ORIGINAL_PARTITION, FormatInt(r.partition));
    ReadBack(a, RETRY_COUNT, "1", RETRY_COUNT);
    ReadBack(b, ORIGINAL_TOPIC, r.topic, RETRY_COUNT);
    ReadBack(c, ORIGINAL_PARTITION, FormatInt(r.partition), RETRY_COUNT);
    ReadBack(d, ORIGINAL_OFFSET, FormatInt(r.offset), RETRY_COUNT);
    assert FormatInt(1) == "1";
    ParseFormat(1, 64);
  }

  /** Whatever headers the source record came with, and however often the handler fails, it is called
      at most MaxRetryAttempts + MaxRetryRounds times before the record is handled or dead. */
  lemma LineageEnds(r: Record, luck: Luck)
    ensures Follow(r, luck).0 <= MAX_RETRY_ATTEMPTS + MAX_RETRY_ROUNDS == 6
  {
    FirstRound(r, luck.retryAt);
    VisitsBound(r.topic, FirstRetry(r, luck.retryAt), luck.visits, 0);
  }

  /** The bound is reached, and then the record is in the dead letter queue. */
  lemma LineageBoundIsTight(r: Record, retryAt: int)
    ensures var luck := Luck(true, _ => Transient("down"), retryAt, _ => Visit(Transient("down"), retryAt));
            Follow(r, luck).0 == MAX_RETRY_ATTEMPTS + MAX_RETRY_ROUNDS == 6 && Follow(r, luck).2.Dead?
  {
    var visits := _ => Visit(Transient("down"), retryAt);
    var first := FirstRetry(r, retryAt);
    FirstRound(r, retryAt);
    var second := NextRetry(first, 2, retryAt);
    RoundReadBack(first, 2, retryAt);
    var third := NextRetry(second, 3, retryAt);
    RoundReadBack(second, 3, retryAt);
    assert Visits(r.topic, third, visits, 2).0 == 1;
    assert Visits(r.topic, second, visits, 1).0 == 2;
    assert Visits(r.topic, first, visits, 0).0 == 3;
  }

  // ---------- It remembers its origin ----------

  /** The headers name the source record's topic, partition and offset. */
  ghost predicate FromSource(headers: seq<Header>, r: Record) {
    && HeaderValue(headers, ORIGINAL_TOPIC) == Some(r.topic)
    && HeaderValue(headers, ORIGINAL_PARTITION) == Some(FormatInt(r.partition))
    && HeaderValue(headers, ORIGINAL_OFFSET) == Some(FormatInt(r.offset))
  }

  lemma OriginIsWritten(headers: seq<Header>, r: Record)
    ensures FromSource(OriginHeaders(headers, r.topic, r.partition, r.offset), r)
  {
    var a := WithHeader(headers, ORIGINAL_TOPIC, r.topic);
    var b := WithHeader(a, ORIGINAL_PARTITION, FormatInt(r.partition));
    ReadBack(headers, ORIGINAL_TOPIC, r.topic, ORIGINAL_TOPIC);
    ReadBack(a, ORIGINAL_PARTITION, FormatInt(r.partition), ORIGINAL_TOPIC);
    ReadBack(a, ORIGINAL_PARTITION, FormatInt(r.partition), ORIGINAL_PARTITION);
    ReadBack(b, ORIGINAL_OFFSET, FormatInt(r.offset), ORIGINAL_TOPIC);
    ReadBack(b, ORIGINAL_OFFSET, FormatInt(r.offset), ORIGINAL_PARTITION);
    ReadBack(b, ORIGINAL_OFFSET, FormatInt(r.offset), ORIGINAL_OFFSET);
  }

  lemma OriginIsKept(headers: seq<Header>, r: Record, key: string, value: string)
    requires FromSource(headers, r)
    requires key != ORIGINAL_TOPIC && key != ORIGINAL_PARTITION && key != ORIGINAL_OFFSET
    ensures FromSource(WithHeader(headers, key, value), r)
  {
    ReadBack(headers, key, value, ORIGINAL_TOPIC);
    ReadBack(headers, key, value, ORIGINAL_PARTITION);
    ReadBack(headers, key, value, ORIGINAL_OFFSET);
  }

  /** The retry consumer reads the source's place back from the headers, not its own. */
  lemma OriginIsRead(retry: Record, r: Record)
    requires Sized(r) && FromSource(retry.headers, r)
    ensures OriginalTopic(retry) == r.topic && OriginalPartition(retry) == r.partition && OriginalOffset(retry) == r.offset
  {
    ParseFormat(r.partition, 32);
    ParseFormat(r.offset, 64);
  }

  /** Same key, same value, same topic base, same foreign headers, the source's origin. */
  ghost predicate Descends(d: Record, r: Record) {
    && d.key == r.key && d.value == r.value
    && FromSource(d.headers, r)
    && Without(d.headers, RETRY_SCHEME) == Without(r.headers, RETRY_SCHEME)
  }

  lemma OriginHeadersKeepOthers(headers: seq<Header>, topic: string, partition: int, offset: int)
    ensures Without(OriginHeaders(headers, topic, partition, offset), RETRY_SCHEME) == Without(headers, RETRY_SCHEME)
  {
    var a := WithHeader(headers, ORIGINAL_TOPIC, topic);
    var b := WithHeader(a, ORIGINAL_PARTITION, FormatInt(partition));
    OthersStay(headers, ORIGINAL_TOPIC, topic, RETRY_SCHEME);
    OthersStay(a, ORIGINAL_PARTITION, FormatInt(partition), RETRY_SCHEME);
    OthersStay(b, ORIGINAL_OFFSET, FormatInt(offset), RETRY_SCHEME);
  }

  lemma DeadDescends(headers: seq<Header>, cause: string, r: Record)
    requires Without(headers, RETRY_SCHEME) == Without(r.headers, RETRY_SCHEME)
    ensures var out := DlqHeaders(headers, cause, r.topic, r.partition, r.offset);
            FromSource(out, r) && Without(out, RETRY_SCHEME) == Without(r.headers, RETRY_SCHEME)
  {
    var a := WithHeader(headers, ERROR, cause);
    OthersStay(headers, ERROR, cause, RETRY_SCHEME);
    OriginIsWritten(a, r);
    OriginHeadersKeepOthers(a, r.topic, r.partition, r.offset);
  }

  lemma FirstRetryDescends(r: Record, retryAt: int)
    ensures Descends(FirstRetry(r, retryAt), r)
  {
    var a := WithHeader(r.headers, RETRY_AT, FormatInt(retryAt));
    var b := WithHeader(a, RETRY_COUNT, "1");
    OthersStay(r.headers, RETRY_AT, FormatInt(retryAt), RETRY_SCHEME);
    OthersStay(a, RETRY_COUNT, "1", RETRY_SCHEME);
    OriginIsWritten(b, r);
    OriginHeadersKeepOthers(b, r.topic, r.partition, r.offset);
  }

  lemma NextRetryDescends(d: Record, r: Record, round: int, retryAt: int)
    requires Descends(d, r)
    ensures Descends(NextRetry(d, round, retryAt), r)
  {
    var a := WithHeader(d.headers, RETRY_COUNT, FormatInt(round));
    OthersStay(d.headers, RETRY_COUNT, FormatInt(round), RETRY_SCHEME);
    OthersStay(a, RETRY_AT, FormatInt(retryAt), RETRY_SCHEME);
    OriginIsKept(d.headers, r, RETRY_COUNT, FormatInt(round));
    OriginIsKept(a, r, RETRY_AT, FormatInt(retryAt));
  }

  lemma {:induction false} VisitsDescend(source: string, d: Record, r: Record, visits: nat -> Visit, k: nat)
    requires Sized(r) && Descends(d, r)
    ensures var (_, trail, fate) := Visits(source, d, visits, k);
            && (forall p :: p in trail ==> Descends(p, r))
            && (fate.Dead? ==> fate.record in trail && fate.record.topic == DlqTopic(source))
    decreases if RetryRound(d) < MAX_RETRY_ROUNDS then MAX_RETRY_ROUNDS - RetryRound(d) else 0
  {
    hide DlqHeaders, NextRetry, FromSource;
    var visit := visits(k);
    if !visit.verdict.Done? {
      OriginIsRead(d, r);
      DeadDescends(d.headers, visit.verdict.cause, r);
      if visit.verdict.Transient? && RetryRound(d) < MAX_RETRY_ROUNDS {
        var next := NextRetry(d, RetryRound(d) + 1, visit.retryAt);
        RoundReadBack(d, RetryRound(d) + 1, visit.retryAt);
        NextRetryDescends(d, r, RetryRound(d) + 1, visit.retryAt);
        VisitsDescend(source, next, r, visits, k + 1);
      }
    }
  }

  /** Every retry and dead-letter record of a lineage carries the source's topic, partition and
      offset, its key and value, and its other headers in order. */
  lemma LineageRemembers(r: Record, luck: Luck)
    requires Sized(r)
    ensures var (_, trail, fate) := Follow(r, luck);
            && (forall p :: p in trail ==> Descends(p, r))
            && (fate.Dead? ==> fate.record in trail && fate.record.topic == DlqTopic(r.topic))
  {
    if !luck.parses {
      DeadDescends(r.headers, "envelope", r);
    } else {
      var verdict := luck.attempts(AttemptsMade(luck.attempts, 0) - 1);
      if verdict.Fatal? {
        DeadDescends(r.headers, verdict.cause, r);
      }
      FirstRetryDescends(r, luck.retryAt);
      VisitsDescend(r.topic, FirstRetry(r, luck.retryAt), r, luck.visits, 0);
    }
  }

  // ---------- It ends where it should ----------

  /** The verdict of the n-th handler call. */
  function CallVerdict(luck: Luck, n: nat): Verdict
    requires 0 < n
  {
    var made := AttemptsMade(luck.attempts, 0);
    if n <= made then luck.attempts(n - 1) else luck.visits(n - 1 - made).verdict
  }

  /** A dead-letter record of this topic, with the cause to be read from its header. */
  ghost predicate DeadOf(d: Record, topic: string, cause: string) {
    d.topic == DlqTopic(topic) && HeaderValue(d.headers, ERROR) == Some(cause)
  }

  /** Waiting in the retry topic for its n-th round. */
  ghost predicate Retried(d: Record, topic: string, round: int, retryAt: int) {
    d.topic == topic && RetryRound(d) == round && HeaderValue(d.headers, RETRY_AT) == Some(FormatInt(retryAt))
  }

  lemma CauseIsRead(headers: seq<Header>, cause: string, topic: string, partition: int, offset: int)
    ensures HeaderValue(DlqHeaders(headers, cause, topic, partition, offset), ERROR) == Some(cause)
  {
    var a := WithHeader(headers, ERROR, cause);
    var b := WithHeader(a, ORIGINAL_TOPIC, topic);
    var c := WithHeader(b, ORIGINAL_PARTITION, FormatInt(partition));
    ReadBack(headers, ERROR, cause, ERROR);
    ReadBack(a, ORIGINAL_TOPIC, topic, ERROR);
    ReadBack(b, ORIGINAL_PARTITION, FormatInt(partition), ERROR);
    ReadBack(c, ORIGINAL_OFFSET, FormatInt(offset), ERROR);
  }

  lemma FirstRetryAt(r: Record, retryAt: int)
    ensures HeaderValue(FirstRetry(r, retryAt).headers, RETRY_AT) == Some(FormatInt(retryAt))
  {
    var a := WithHeader(r.headers, RETRY_AT, FormatInt(retryAt));
    var b := WithHeader(a, RETRY_COUNT, "1");
    var c := WithHeader(b, ORIGINAL_TOPIC, r.topic);
    var d := WithHeader(c, ORIGINAL_PARTITION, FormatInt(r.partition));
    ReadBack(r.headers, RETRY_AT, FormatInt(retryAt), RETRY_AT);
    ReadBack(a, RETRY_COUNT, "1", RETRY_AT);
    ReadBack(b, ORIGINAL_TOPIC, r.topic, RETRY_AT);
    ReadBack(c, ORIGINAL_PARTITION, FormatInt(r.partition), RETRY_AT);
    ReadBack(d, ORIGINAL_OFFSET, FormatInt(r.offset), RETRY_AT);
  }

  lemma NextRetryAt(r: Record, round: int, retryAt: int)
    requires -Limit(64) <= round < Limit(64)
    ensures Retried(NextRetry(r, round, retryAt), r.topic, round, retryAt)
  {
    RoundReadBack(r, round, retryAt);
    ReadBack(WithHeader(r.headers, RETRY_COUNT, FormatInt(round)), RETRY_AT, FormatInt(retryAt), RETRY_AT);
  }

  /** Where a visit sends its record: nowhere if the handler is done; to the next round while there is one;
      else to the dead letter queue, with the cause. */
  lemma VisitSendsOn(source: string, r: Record, visits: nat -> Visit, k: nat)
    ensures var (_, trail, _) := Visits(source, r, visits, k);
            var (verdict, round) := (visits(k).verdict, RetryRound(r));
            && (verdict.Done? ==> trail == [])
            && (verdict.Transient? && round < MAX_RETRY_ROUNDS ==>
                  trail != [] && Retried(trail[0], r.topic, round + 1, visits(k).retryAt))
            && (verdict.Fatal? || (verdict.Transient? && MAX_RETRY_ROUNDS <= round) ==>
                  |trail| == 1 && DeadOf(trail[0], source, verdict.cause))
  {
    var (verdict, round) := (visits(k).verdict, RetryRound(r));
    if verdict.Transient? && round < MAX_RETRY_ROUNDS {
      NextRetryAt(r, round + 1, visits(k).retryAt);
    } else if !verdict.Done? {
      CauseIsRead(r.headers, verdict.cause, OriginalTopic(r), OriginalPartition(r), OriginalOffset(r));
    }
    hide DlqHeaders, NextRoundHeaders, RetryRound;
  }

  /** Whatever source a retry record comes from, the next one comes from it too. */
  ghost predicate Carries(d: Record, r: Record) {
    forall source {:trigger Descends(r, source)} :: Sized(source) && Descends(r, source) ==> Descends(d, source)
  }

  lemma DeadCarries(sourceTopic: string, r: Record, cause: string)
    ensures Carries(DeadFromRetry(sourceTopic, r, cause), r)
  {
    forall source | Sized(source) && Descends(r, source) ensures Descends(DeadFromRetry(sourceTopic, r, cause), source) {
      OriginIsRead(r, source);
      DeadDescends(r.headers, cause, source);
    }
    hide Descends;
  }

  lemma VisitCarries(sourceTopic: string, r: Record, visits: nat -> Visit, k: nat)
    ensures var trail := Visits(sourceTopic, r, visits, k).1; trail != [] ==> Carries(trail[0], r)
  {
    hide Visits, Descends;
    var trail := Visits(sourceTopic, r, visits, k).1;
    if trail != [] {
      forall source | Sized(source) && Descends(r, source) ensures Descends(trail[0], source) {
        VisitsDescend(sourceTopic, r, source, visits, k);
      }
    }
  }

  lemma DeadFromMainIs(r: Record, cause: string)
    ensures DeadOf(DeadFromMain(r, cause), r.topic, cause) && Descends(DeadFromMain(r, cause), r)
  {
    CauseIsRead(r.headers, cause, r.topic, r.partition, r.offset);
    DeadDescends(r.headers, cause, r);
    hide DlqHeaders, FromSource;
  }

  lemma FirstRetryIs(r: Record, retryAt: int)
    ensures Retried(FirstRetry(r, retryAt), RetryTopic(r.topic), 1, retryAt) && Descends(FirstRetry(r, retryAt), r)
  {
    FirstRound(r, retryAt);
    FirstRetryAt(r, retryAt);
    FirstRetryDescends(r, retryAt);
    hide RetryHeaders, RetryRound, FromSource;
  }

  /** Where the first consumer sends its record: an envelope that does not parse and a fatal verdict to the
      dead letter queue, with the cause; three transient verdicts to the retry topic. */
  lemma FirstSendsOn(r: Record, luck: Luck)
    ensures var (_, trail, _) := Follow(r, luck);
            var n := AttemptsMade(luck.attempts, 0);
            var verdict := luck.attempts(n - 1);
            && (!luck.parses ==> |trail| == 1 && DeadOf(trail[0], r.topic, "envelope"))
            && (luck.parses && verdict.Done? ==> trail == [])
            && (luck.parses && verdict.Fatal? ==> |trail| == 1 && DeadOf(trail[0], r.topic, verdict.cause))
            && (luck.parses && verdict.Transient? ==>
                  n == 3 && trail != [] && Retried(trail[0], RetryTopic(r.topic), 1, luck.retryAt))
            && (trail != [] ==> Descends(trail[0], r))
  {
    var verdict := luck.attempts(AttemptsMade(luck.attempts, 0) - 1);
    hide DeadFromMain, FirstRetry, DeadOf, Retried, Descends, Visits;
    if !luck.parses {
      DeadFromMainIs(r, "envelope");
    } else if verdict.Fatal? {
      DeadFromMainIs(r, verdict.cause);
    } else if verdict.Transient? {
      FirstRetryIs(r, luck.retryAt);
    }
  }

  lemma VisitUnfolds(source: string, r: Record, visits: nat -> Visit, k: nat)
    ensures var verdict := visits(k).verdict; var (calls, _, fate) := Visits(source, r, visits, k);
            if verdict.Transient? && RetryRound(r) < MAX_RETRY_ROUNDS then
              var next := NextRetry(r, RetryRound(r) + 1, visits(k).retryAt);
              && RetryRound(next) == RetryRound(r) + 1
              && calls == 1 + Visits(source, next, visits, k + 1).0 && fate == Visits(source, next, visits, k + 1).2
            else
              calls == 1 && (fate.Handled? <==> verdict.Done?) && (fate.Dead? ==> DeadOf(fate.record, source, verdict.cause))
  {
    var (verdict, round) := (visits(k).verdict, RetryRound(r));
    if verdict.Transient? && round < MAX_RETRY_ROUNDS {
      RoundReadBack(r, round + 1, visits(k).retryAt);
    } else if !verdict.Done? {
      CauseIsRead(r.headers, verdict.cause, OriginalTopic(r), OriginalPartition(r), OriginalOffset(r));
    }
    hide DlqHeaders, NextRoundHeaders, RetryRound;
  }

  lemma {:induction false} VisitsEnd(source: string, r: Record, visits: nat -> Visit, k: nat)
    ensures var (calls, _, fate) := Visits(source, r, visits, k);
            && 0 < calls && (forall j :: k <= j < k + calls - 1 ==> visits(j).verdict.Transient?)
            && (fate.Handled? <==> visits(k + calls - 1).verdict.Done?)
            && (fate.Dead? ==> DeadOf(fate.record, source, visits(k + calls - 1).verdict.cause))
    decreases if RetryRound(r) < MAX_RETRY_ROUNDS then MAX_RETRY_ROUNDS - RetryRound(r) else 0
  {
    hide Visits, NextRetry, RetryRound, DeadOf;
    VisitUnfolds(source, r, visits, k);
    if visits(k).verdict.Transient? && RetryRound(r) < MAX_RETRY_ROUNDS {
      VisitsEnd(source, NextRetry(r, RetryRound(r) + 1, visits(k).retryAt), visits, k + 1);
    }
  }

  lemma FollowUnfolds(r: Record, luck: Luck)
    requires luck.parses
    ensures var n := AttemptsMade(luck.attempts, 0);
            var verdict := luck.attempts(n - 1); var (calls, _, fate) := Follow(r, luck);
            if verdict.Transient? then
              var rest := Visits(r.topic, FirstRetry(r, luck.retryAt), luck.visits, 0);
              calls == n + rest.0 && fate == rest.2
            else
              calls == n && (fate.Handled? <==> verdict.Done?) && (fate.Dead? ==> DeadOf(fate.record, r.topic, verdict.cause))
  {
    var verdict := luck.attempts(AttemptsMade(luck.attempts, 0) - 1);
    if verdict.Fatal? {
      CauseIsRead(r.headers, verdict.cause, r.topic, r.partition, r.offset);
    }
    hide DlqHeaders, RetryHeaders, Visits;
  }

  /** A record counts as handled if and only if its envelope parses and the last handler call made returned
      without an error, every call before it having failed transiently; otherwise it is in the dead letter
      queue of its own topic, with the cause of that last call. */
  lemma HandledIff(r: Record, luck: Luck)
    ensures var (calls, _, fate) := Follow(r, luck);
            && (luck.parses <==> 0 < calls)
            && (forall n :: 0 < n < calls ==> CallVerdict(luck, n).Transient?)
            && (fate.Handled? <==> luck.parses && CallVerdict(luck, calls).Done?)
            && (fate.Dead? ==> DeadOf(fate.record, r.topic, if luck.parses then CallVerdict(luck, calls).cause else "envelope"))
  {
    if luck.parses {
      FollowUnfolds(r, luck);
      VisitsEnd(r.topic, FirstRetry(r, luck.retryAt), luck.visits, 0);
      hide Follow, Visits, FirstRetry, DeadOf;
    } else {
      CauseIsRead(r.headers, "envelope", r.topic, r.partition, r.offset);
      hide DlqHeaders;
    }
  }

  // ---------- The way back ----------

  /** What kafka-reprocess publishes to the given topic for a dead-letter record. */
  function Reprocessed(topic: string, dead: Record): Record {
    Record(topic, 0, 0, dead.key, dead.value, Without(dead.headers, RETRY_SCHEME))
  }

  /** A record that died on any path, and is read from the dead letter queue of some topic, comes back
      to its own topic with its key and value; with exactly its headers if and only if it carried none of
      the six headers of the retry scheme. */
  lemma DlqRoundTrip(r: Record, luck: Luck, topic: string)
    requires Sized(r) && Follow(r, luck).2.Dead? && Follow(r, luck).2.record.topic == DlqTopic(topic)
    ensures var back := Reprocessed(topic, Follow(r, luck).2.record);
            && back.topic == r.topic && back.key == r.key && back.value == r.value
            && (back.headers == r.headers <==> forall i :: 0 <= i < |r.headers| ==> r.headers[i].key !in RETRY_SCHEME)
  {
    hide Follow;
    LineageRemembers(r, luck);
    WithoutShrinks(r.headers, RETRY_SCHEME);
    DlqTopicIsOneToOne(topic, r.topic);
  }

  lemma DlqTopicIsOneToOne(a: string, b: string)
    requires DlqTopic(a) == DlqTopic(b)
    ensures a == b
  {
    assert a == DlqTopic(a)[..|a|] && b == DlqTopic(b)[..|b|];
  }

  /** What comes back no longer shows that it was ever dead: its own lineage starts afresh. */
  lemma ReprocessedIsClean(topic: string, dead: Record, key: string)
    requires key in RETRY_SCHEME
    ensures HeaderValue(Reprocessed(topic, dead).headers, key) == None
  {
    NoneOfDropped(dead.headers, RETRY_SCHEME, key);
  }

  lemma {:induction false} NoneOfDropped(headers: seq<Header>, keys: set<string>, key: string)
    requires key in keys
    ensures HeaderValue(Without(headers, keys), key) == None
  {
    if headers != [] {
      NoneOfDropped(headers[1..], keys, key);
      if headers[0].key in keys {
        assert Without(headers, keys) == Without(headers[1..], keys);
      } else {
        assert Without(headers, keys)[1..] == Without(headers[1..], keys);
      }
    }
  }
}
