/** The consumers' work on one record, and the reprocessing run, as they act on the broker:
    records stored, offsets committed, handler calls made. */
module Consumers {
  import opened Wrappers
  import opened Errors
  import opened Headers
  import opened Lineage

  class Broker {
    var stored: seq<Record>
    var committed: int

    constructor ()
      ensures stored == [] && committed == 0
    {
      stored := [];
      committed := 0;
    }

    method Produce(r: Record, ack: Ack) returns (ok: bool)
      modifies this`stored
      ensures ok <==> ack.Acked?
      ensures stored == old(stored) + if ack.Lost? then [] else [r]
    {
      if !ack.Lost? {
        stored := stored + [r];
      }
      ok := ack.Acked?;
    }

    /** Committing a record's offset says that everything up to and including it is finished. */
    method Commit(r: Record, ok: bool)
      modifies this`committed
      ensures committed == if ok then r.offset + 1 else old(committed)
    {
      if ok {
        committed := r.offset + 1;
      }
    }
  }

  /** The record sent on, if the lineage goes on: the first one it produces. */
  function SentOn(trail: seq<Record>): seq<Record> {
    if trail == [] then [] else trail[..1]
  }

  lemma FollowSends(r: Record, luck: Luck)
    ensures var verdict, trail := luck.attempts(AttemptsMade(luck.attempts, 0) - 1), Follow(r, luck).1;
            && (trail == [] <==> luck.parses && verdict.Done?)
            && (trail == [] ==> SentOn(trail) == [])
            && (!luck.parses ==> SentOn(trail) == [DeadFromMain(r, "envelope")])
            && (luck.parses && verdict.Fatal? ==> SentOn(trail) == [DeadFromMain(r, verdict.cause)])
            && (luck.parses && verdict.Transient? ==> SentOn(trail) == [FirstRetry(r, luck.retryAt)])
  {
    hide DeadFromMain, FirstRetry, Visits;
  }

  lemma VisitSends(sourceTopic: string, r: Record, visits: nat -> Visit, k: nat)
    ensures var verdict, trail, round := visits(k).verdict, Visits(sourceTopic, r, visits, k).1, RetryRound(r);
            && (trail == [] <==> verdict.Done?)
            && (trail == [] ==> SentOn(trail) == [])
            && (verdict.Transient? && round < MAX_RETRY_ROUNDS ==> SentOn(trail) == [NextRetry(r, round + 1, visits(k).retryAt)])
            && (verdict.Fatal? || (verdict.Transient? && MAX_RETRY_ROUNDS <= round) ==>
                  SentOn(trail) == [DeadFromRetry(sourceTopic, r, verdict.cause)])
  {
    hide DeadFromRetry, NextRetry, RetryRound;
  }

  /** What has to be so when the offset has moved past a source record: a handler call returned without an
      error, or one more record is stored, and acknowledged, that carries the source's origin and content. */
  ghost predicate MayMove(r: Record, luck: Luck, ack: Ack, before: seq<Record>, stored: seq<Record>) {
    || (luck.parses && luck.attempts(AttemptsMade(luck.attempts, 0) - 1).Done?)
    || (ack.Acked? && exists d :: stored == before + [d] && Descends(d, r))
  }

  lemma MovesOnlyThen(r: Record, luck: Luck, ack: Ack, before: seq<Record>)
    ensures var trail := Follow(r, luck).1;
            trail == [] || ack.Acked? ==> MayMove(r, luck, ack, before, before + SentOn(trail))
  {
    FirstSendsOn(r, luck);
    hide Follow, Descends, DeadOf, Retried;
    var trail := Follow(r, luck).1;
    if trail != [] {
      assert before + SentOn(trail) == before + [trail[0]];
    }
  }

  /** The same of a retry record, for whatever source it comes from. */
  ghost predicate MayMoveAgain(r: Record, done: bool, ack: Ack, before: seq<Record>, stored: seq<Record>) {
    done || (ack.Acked? && exists d :: stored == before + [d] && Carries(d, r))
  }

  lemma MovesAgainOnlyThen(sourceTopic: string, r: Record, visits: nat -> Visit, k: nat, ack: Ack, before: seq<Record>)
    ensures var trail := Visits(sourceTopic, r, visits, k).1;
            trail == [] || ack.Acked? ==> MayMoveAgain(r, visits(k).verdict.Done?, ack, before, before + SentOn(trail))
    ensures ack.Acked? ==> MayMoveAgain(r, false, ack, before, before + [DeadFromRetry(sourceTopic, r, "envelope")])
  {
    VisitSendsOn(sourceTopic, r, visits, k);
    VisitCarries(sourceTopic, r, visits, k);
    DeadCarries(sourceTopic, r, "envelope");
    hide Visits, DeadFromRetry, Carries, DeadOf, Retried;
    var trail := Visits(sourceTopic, r, visits, k).1;
    if trail != [] {
      assert before + SentOn(trail) == before + [trail[0]];
    }
  }

  class Consumer {
    const topic: string
    const broker: Broker
    var calls: nat

    constructor (topic: string, broker: Broker)
      ensures this.topic == topic && this.broker == broker && calls == 0
    {
      this.topic := topic;
      this.broker := broker;
      calls := 0;
    }

    /** Attempts in place, then commit, retry topic or dead letter queue. The record's own headers
        are never written to; the offset moves only after success or an acknowledged publish. */
    method ProcessOne(headers: array<Header>, r: Record, luck: Luck, ack: Ack, commitOk: bool)
      requires headers[..] == r.headers && r.topic == topic
      modifies this`calls, broker
      ensures headers[..] == old(headers[..])
      ensures calls - old(calls) == if luck.parses then AttemptsMade(luck.attempts, 0) else 0
      ensures var trail := Follow(r, luck).1;
              && broker.stored == old(broker.stored) + (if ack.Lost? then [] else SentOn(trail))
              && broker.committed == (if (trail == [] || ack.Acked?) && commitOk then r.offset + 1 else old(broker.committed))
      ensures broker.committed != old(broker.committed) ==> MayMove(r, luck, ack, old(broker.stored), broker.stored)
    {
      FollowSends(r, luck);
      MovesOnlyThen(r, luck, ack, broker.stored);
      hide MayMove, Follow, SentOn;
      assert broker.stored + [] == broker.stored;
      if !luck.parses {
        FinishWithDlq(headers, r, "envelope", ack, commitOk);
        return;
      }
      var lastErr, attempt, settled := Done, 1, false;
      while attempt <= MAX_RETRY_ATTEMPTS && !settled
        invariant 1 <= attempt <= MAX_RETRY_ATTEMPTS + 1
        invariant !settled ==> calls == old(calls) + attempt - 1
        invariant !settled && attempt <= MAX_RETRY_ATTEMPTS ==>
                    AttemptsMade(luck.attempts, attempt - 1) == AttemptsMade(luck.attempts, 0)
        invariant settled || attempt > MAX_RETRY_ATTEMPTS ==>
                    calls == old(calls) + AttemptsMade(luck.attempts, 0) && lastErr == luck.attempts(AttemptsMade(luck.attempts, 0) - 1)
        decreases MAX_RETRY_ATTEMPTS - attempt, !settled
        modifies this`calls
      {
        lastErr := luck.attempts(attempt - 1);
        calls := calls + 1;
        if !lastErr.Transient? {
          settled := true;
        } else {
          attempt := attempt + 1;
        }
      }
      if lastErr.Done? {
        broker.Commit(r, commitOk);
        return;
      }
      if lastErr.Fatal? {
        FinishWithDlq(headers, r, lastErr.cause, ack, commitOk);
        return;
      }
      FinishWithRetry(headers, r, luck.retryAt, ack, commitOk);
    }

    method FinishWithDlq(headers: array<Header>, r: Record, cause: string, ack: Ack, commitOk: bool)
      requires headers[..] == r.headers && r.topic == topic
      modifies broker
      ensures broker.stored == old(broker.stored) + if ack.Lost? then [] else [DeadFromMain(r, cause)]
      ensures broker.committed == if ack.Acked? && commitOk then r.offset + 1 else old(broker.committed)
    {
      var out := BuildDlqHeaders(headers, cause, r.topic, r.partition, r.offset);
      var ok := broker.Produce(Record(DlqTopic(topic), 0, 0, r.key, r.value, out[..]), ack);
      if !ok {
        return;
      }
      broker.Commit(r, commitOk);
    }

    method FinishWithRetry(headers: array<Header>, r: Record, retryAt: int, ack: Ack, commitOk: bool)
      requires headers[..] == r.headers && r.topic == topic
      modifies broker
      ensures broker.stored == old(broker.stored) + if ack.Lost? then [] else [FirstRetry(r, retryAt)]
      ensures broker.committed == if ack.Acked? && commitOk then r.offset + 1 else old(broker.committed)
    {
      var out := BuildRetryHeaders(headers, r, retryAt);
      var ok := broker.Produce(Record(RetryTopic(topic), 0, 0, r.key, r.value, out[..]), ack);
      if !ok {
        return;
      }
      broker.Commit(r, commitOk);
    }
  }

  class RetryConsumer {
    const sourceTopic: string
    const broker: Broker
    var calls: nat

    constructor (sourceTopic: string, broker: Broker)
      ensures this.sourceTopic == sourceTopic && this.broker == broker && calls == 0
    {
      this.sourceTopic := sourceTopic;
      this.broker := broker;
      calls := 0;
    }

    /** One visit. A wait for retry_at that is cut short touches nothing. Otherwise the handler is
        called once and the record is handled, sent round again, or dead. */
    method ProcessOne(headers: array<Header>, r: Record, waitCutShort: bool, parses: bool,
                      visits: nat -> Visit, k: nat, ack: Ack, commitOk: bool)
      requires headers[..] == r.headers && r.topic == RetryTopic(sourceTopic)
      modifies this`calls, broker
      ensures headers[..] == old(headers[..])
      ensures waitCutShort ==> calls == old(calls) && broker.stored == old(broker.stored) && broker.committed == old(broker.committed)
      ensures !waitCutShort && parses ==>
                var trail := Visits(sourceTopic, r, visits, k).1;
                && calls == old(calls) + 1
                && broker.stored == old(broker.stored) + (if ack.Lost? then [] else SentOn(trail))
                && broker.committed == (if (trail == [] || ack.Acked?) && commitOk then r.offset + 1 else old(broker.committed))
      ensures !waitCutShort && !parses ==>
                && calls == old(calls)
                && broker.stored == old(broker.stored) + (if ack.Lost? then [] else [DeadFromRetry(sourceTopic, r, "envelope")])
                && broker.committed == (if ack.Acked? && commitOk then r.offset + 1 else old(broker.committed))
      ensures broker.committed != old(broker.committed) ==>
                MayMoveAgain(r, parses && visits(k).verdict.Done?, ack, old(broker.stored), broker.stored)
    {
      VisitSends(sourceTopic, r, visits, k);
      MovesAgainOnlyThen(sourceTopic, r, visits, k, ack, broker.stored);
      hide *;
      assert broker.stored + [] == broker.stored;
      if waitCutShort {
        return;
      }
      if !parses {
        FinishWithDlq(headers, r, "envelope", ack, commitOk);
        return;
      }
      var visit := visits(k);
      calls := calls + 1;
      var err := visit.verdict;
      if err.Done? {
        broker.Commit(r, commitOk);
        return;
      }
      if err.Fatal? {
        FinishWithDlq(headers, r, err.cause, ack, commitOk);
        return;
      }
      var round := RetryRound(r);
      if round >= MAX_RETRY_ROUNDS {
        FinishWithDlq(headers, r, err.cause, ack, commitOk);
        return;
      }
      Reescalate(headers, r, round + 1, visit.retryAt, ack, commitOk);
    }

    method Reescalate(headers: array<Header>, r: Record, round: int, retryAt: int, ack: Ack, commitOk: bool)
      requires headers[..] == r.headers && r.topic == RetryTopic(sourceTopic)
      modifies broker
      ensures broker.stored == old(broker.stored) + if ack.Lost? then [] else [NextRetry(r, round, retryAt)]
      ensures broker.committed == if ack.Acked? && commitOk then r.offset + 1 else old(broker.committed)
    {
      var out := BuildNextRoundHeaders(headers, round, retryAt);
      var ok := broker.Produce(Record(RetryTopic(sourceTopic), 0, 0, r.key, r.value, out[..]), ack);
      if !ok {
        return;
      }
      broker.Commit(r, commitOk);
    }

    method FinishWithDlq(headers: array<Header>, r: Record, cause: string, ack: Ack, commitOk: bool)
      requires headers[..] == r.headers
      modifies broker
      ensures broker.stored == old(broker.stored) + if ack.Lost? then [] else [DeadFromRetry(sourceTopic, r, cause)]
      ensures broker.committed == if ack.Acked? && commitOk then r.offset + 1 else old(broker.committed)
    {
      var out := BuildDlqHeaders(headers, cause, OriginalTopic(r), OriginalPartition(r), OriginalOffset(r));
      var ok := broker.Produce(Record(DlqTopic(sourceTopic), 0, 0, r.key, r.value, out[..]), ack);
      if !ok {
        return;
      }
      broker.Commit(r, commitOk);
    }
  }

  // ---------- kafka-reprocess ----------

  /** One poll of the dead letter topic. That the idle time ran out is the end of the polls. */
  datatype Poll = Fetched(records: seq<Record>) | FetchError

  datatype End = Finished | FetchFailed | PublishFailed

  /** What the polls bring before the first that fails. */
  function Backlog(polls: seq<Poll>): seq<Record> {
    if polls == [] || polls[0].FetchError? then [] else polls[0].records + Backlog(polls[1..])
  }

  /** What the tool publishes for these dead-letter records, in order. */
  function AllReprocessed(topic: string, dead: seq<Record>): (out: seq<Record>)
    ensures |out| == |dead| && forall i :: 0 <= i < |dead| ==> out[i] == Reprocessed(topic, dead[i])
  {
    seq(|dead|, i requires 0 <= i < |dead| => Reprocessed(topic, dead[i]))
  }

  class Reprocessor {
    const topic: string
    const limit: int
    const dryRun: bool
    const acks: nat -> Ack
    var stored: seq<Record>
    var commits: seq<Record>

    constructor (topic: string, limit: int, dryRun: bool, acks: nat -> Ack)
      ensures this.topic == topic && this.limit == limit && this.dryRun == dryRun && this.acks == acks
      ensures stored == [] && commits == []
    {
      this.topic := topic;
      this.limit := limit;
      this.dryRun := dryRun;
      this.acks := acks;
      stored := [];
      commits := [];
    }

    /** After n of the dead-letter records: all n are published and committed, in order, unless
        this is a dry run, which leaves no trace. */
    ghost predicate Moved(dead: seq<Record>, n: nat)
      reads this
    {
      && n <= |dead|
      && (0 < limit ==> n <= limit)
      && (dryRun ==> stored == [] && commits == [])
      && (!dryRun ==> stored == AllReprocessed(topic, dead[..n]) && commits == dead[..n])
    }

    /** The publish of dead-letter record n was not acknowledged: everything before it is published
        and committed, it is not committed, and at most its own publish is a possible extra. */
    ghost predicate FailedAt(dead: seq<Record>, n: nat)
      reads this
    {
      && !dryRun && n < |dead| && !acks(n).Acked?
      && commits == dead[..n]
      && stored == AllReprocessed(topic, dead[..if acks(n).Lost? then n else n + 1])
    }

    /** Stops at the limit, at the end of the backlog, at a failed poll, or at the first publish that
        is not acknowledged. Only acknowledged records are committed, and they are a prefix. */
    method Run(polls: seq<Poll>) returns (sent: nat, end: End)
      requires stored == [] && commits == []
      modifies this
      ensures end.PublishFailed? ==> FailedAt(Backlog(polls), sent)
      ensures !end.PublishFailed? ==> Moved(Backlog(polls), sent)
      ensures end.Finished? ==> 0 < limit == sent || (sent == |Backlog(polls)| && FetchError !in polls)
      ensures end.FetchFailed? ==> !(0 < limit == sent) && sent == |Backlog(polls)| && FetchError in polls
    {
      sent, end := 0, Finished;
      ghost var all := Backlog(polls);
      var next := 0;
      while limit <= 0 || sent < limit
        invariant next <= |polls| && Moved(all, sent) && end.Finished?
        invariant all[sent..] == Backlog(polls[next..]) && FetchError !in polls[..next]
        decreases |polls| - next
      {
        if next == |polls| {
          break;
        }
        if polls[next].FetchError? {
          return sent, FetchFailed;
        }
        NextPoll(polls, next, all, sent);
        var failed, stop;
        sent, failed, stop := RunBatch(polls[next].records, sent, all);
        if failed {
          return sent, PublishFailed;
        }
        if stop {
          break;
        }
        next := next + 1;
      }
    }

    lemma NextPoll(polls: seq<Poll>, next: nat, all: seq<Record>, sent: nat)
      requires next < |polls| && polls[next].Fetched? && sent <= |all| && all[sent..] == Backlog(polls[next..])
      ensures var batch := polls[next].records;
              && sent + |batch| <= |all| && all[sent..sent + |batch|] == batch
              && all[sent + |batch|..] == Backlog(polls[next + 1..])
    {
      assert polls[next..][1..] == polls[next + 1..];
    }

    /** One fetch, record by record; after a stop the rest of the fetch is only skipped over. */
    method RunBatch(batch: seq<Record>, before: nat, ghost all: seq<Record>) returns (sent: nat, failed: bool, stop: bool)
      requires Moved(all, before) && before + |batch| <= |all| && all[before..before + |batch|] == batch
      modifies this
      ensures !failed ==> Moved(all, sent) && if stop then 0 < limit == sent else sent == before + |batch|
      ensures failed ==> FailedAt(all, sent)
    {
      sent, failed, stop := before, false, false;
      var i := 0;
      while i < |batch|
        invariant i <= |batch|
        invariant !stop ==> sent == before + i && !failed
        invariant stop && !failed ==> 0 < limit == sent
        invariant !failed ==> Moved(all, sent)
        invariant failed ==> stop && FailedAt(all, sent)
      {
        if stop || (0 < limit && limit <= sent) {
          stop := true;
        } else {
          assert batch[i] == all[sent] && all[..sent + 1] == all[..sent] + [all[sent]];
          var ok := ReprocessOne(batch[i], acks(sent));
          if !ok {
            failed, stop := true, true;
          } else {
            sent := sent + 1;
            if !dryRun {
              commits := commits + [batch[i]];
            }
          }
        }
        i := i + 1;
      }
    }

    method ReprocessOne(dead: Record, ack: Ack) returns (ok: bool)
      modifies this`stored
      ensures ok <==> dryRun || ack.Acked?
      ensures stored == old(stored) + if dryRun || ack.Lost? then [] else [Reprocessed(topic, dead)]
    {
      if dryRun {
        return true;
      }
      var headers := new Header[|dead.headers|](j requires 0 <= j < |dead.headers| => dead.headers[j]);
      assert headers[..] == dead.headers;
      var kept := DropHeaders(headers, RETRY_SCHEME);
      if !ack.Lost? {
        stored := stored + [Record(topic, 0, 0, dead.key, dead.value, kept)];
      }
      return ack.Acked?;
    }
  }
}
