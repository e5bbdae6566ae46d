/** The transactional outbox: rows written beside the business change, and the relay that publishes
    them and marks exactly what the broker has acknowledged. */
module Outbox {
  import opened Wrappers
  import opened Headers

  const EVENT_ID := "event_id"
  const EVENT_TYPE := "event_type"
  const PRODUCER := "producer"

  datatype Envelope = Envelope(eventId: string, eventType: string, aggregateId: string, payload: string)

  /** headers is what the row's JSON parses to, or nothing if it is broken. */
  datatype Row = Row(id: nat, topic: string, key: string, headers: Option<map<string, string>>, payload: string,
                     published: bool, locked: bool)

  // ---------- Writing ----------

  /** What the row shows under a header name: the request's own trace context where it has one, else
      the event's id, its type, and, whoever delivers it, the service that wrote it. */
  function Written(service: string, env: Envelope, trace: map<string, string>, key: string): Option<string> {
    if key in trace then Some(trace[key])
    else if key == EVENT_ID then Some(env.eventId)
    else if key == EVENT_TYPE then Some(env.eventType)
    else if key == PRODUCER then Some(service)
    else None
  }

  method BuildRow(id: nat, service: string, env: Envelope, topic: string, trace: map<string, string>) returns (row: Row)
    ensures row == Row(id, topic, env.aggregateId, row.headers, env.payload, false, false) && row.headers.Some?
    ensures forall k :: Written(service, env, trace, k) == if k in row.headers.value then Some(row.headers.value[k]) else None
  {
    var headers := map[EVENT_ID := env.eventId, EVENT_TYPE := env.eventType, PRODUCER := service];
    var rest := trace.Keys;
    while rest != {}
      invariant rest <= trace.Keys
      invariant forall k :: k in headers <==> k in {EVENT_ID, EVENT_TYPE, PRODUCER} || k in trace.Keys - rest
      invariant forall k :: k in trace.Keys - rest ==> headers[k] == trace[k]
      invariant EVENT_ID !in trace ==> headers[EVENT_ID] == env.eventId
      invariant EVENT_TYPE !in trace ==> headers[EVENT_TYPE] == env.eventType
      invariant PRODUCER !in trace ==> headers[PRODUCER] == service
      decreases |rest|
    {
      var k :| k in rest;
      headers := headers[k := trace[k]];
      rest := rest - {k};
    }
    row := Row(id, topic, env.aggregateId, Some(headers), env.payload, false, false);
  }

  // ---------- Publishing ----------

  /** The header a delivered record has to show: the row's own, and the relay's name as producer only
      if the row names none. */
  function Expected(row: Row, relay: string, key: string): Option<string> {
    if row.headers.Some? && key in row.headers.value then Some(row.headers.value[key])
    else if key == PRODUCER then Some(relay) else None
  }

  ghost predicate Delivers(r: Record, row: Row, relay: string) {
    && r.topic == row.topic && r.key == row.key && r.value == row.payload
    && forall key :: HeaderValue(r.headers, key) == Expected(row, relay, key)
  }

  lemma {:induction false} ReadAppended(headers: seq<Header>, h: Header, key: string)
    requires HeaderValue(headers, h.key) == None
    ensures HeaderValue(headers + [h], key) == if key == h.key then Some(h.value) else HeaderValue(headers, key)
  {
    if headers == [] {
      assert headers + [h] == [h] && [h][1..] == [];
    } else {
      assert (headers + [h])[1..] == headers[1..] + [h];
      ReadAppended(headers[1..], h, key);
    }
  }

  /** A map has no order; whatever order the headers come in, each can be read back. */
  method HeadersToRecordHeaders(raw: Option<map<string, string>>) returns (headers: seq<Header>)
    ensures forall key :: HeaderValue(headers, key) == if raw.Some? && key in raw.value then Some(raw.value[key]) else None
  {
    headers := [];
    if raw.None? {
      return;
    }
    var m := raw.value;
    var rest := m.Keys;
    while rest != {}
      invariant rest <= m.Keys
      invariant forall key :: HeaderValue(headers, key) == if key in m.Keys - rest then Some(m[key]) else None
      decreases |rest|
    {
      var k :| k in rest;
      forall key {
        ReadAppended(headers, Header(k, m[k]), key);
      }
      headers := headers + [Header(k, m[k])];
      rest := rest - {k};
    }
  }

  method HasHeader(headers: seq<Header>, key: string) returns (has: bool)
    ensures has <==> HeaderValue(headers, key).Some?
  {
    var i := 0;
    while i < |headers|
      invariant i <= |headers| && HeaderValue(headers, key) == HeaderValue(headers[i..], key)
    {
      if headers[i].key == key {
        return true;
      }
      assert headers[i..][1..] == headers[i + 1..];
      i := i + 1;
    }
    return false;
  }

  /** Which of the first n publishes were stored, and which were acknowledged, in order. */
  function StoredAt(acks: nat -> Ack, n: nat): (at: seq<nat>)
    ensures forall i :: i in at <==> 0 <= i < n && !acks(i).Lost?
    ensures forall i, j :: 0 <= i < j < |at| ==> at[i] < at[j]
    ensures forall j :: 0 <= j < |at| ==> at[j] < n
  {
    if n == 0 then [] else StoredAt(acks, n - 1) + if acks(n - 1).Lost? then [] else [n - 1]
  }

  function AckedIds(batch: seq<Row>, acks: nat -> Ack): (ids: seq<nat>)
    ensures forall id :: id in ids <==> exists i :: 0 <= i < |batch| && acks(i).Acked? && batch[i].id == id
  {
    if batch == [] then []
    else
      var init, last := batch[..|batch| - 1], batch[|batch| - 1];
      assert batch == init + [last];
      AckedIds(init, acks) + if acks(|batch| - 1).Acked? then [last.id] else []
  }

  // ---------- One shard ----------

  predicate Free(row: Row) {
    !row.published && !row.locked
  }

  /** The first rows that are free, in their order, as many as the limit allows: none is passed over. */
  function FirstFree<T>(rows: seq<T>, free: T -> bool, from: nat, limit: nat): (picked: seq<nat>)
    requires from <= |rows|
    ensures |picked| <= limit
    ensures forall i :: 0 <= i < |picked| ==> from <= picked[i] < |rows| && free(rows[picked[i]])
    ensures forall i, j :: 0 <= i < j < |picked| ==> picked[i] < picked[j]
    ensures forall r :: from <= r < |rows| && free(rows[r]) && r !in picked ==>
              |picked| == limit && forall i :: 0 <= i < |picked| ==> picked[i] < r
    decreases |rows| - from
  {
    if from == |rows| || limit == 0 then []
    else if !free(rows[from]) then FirstFree(rows, free, from + 1, limit)
    else
      var rest := FirstFree(rows, free, from + 1, limit - 1);
      var picked := [from] + rest;
      assert forall r :: r in picked <==> r == from || r in rest;
      picked
  }

  /** What SKIP LOCKED hands to one round: the first unpublished rows that no other relay holds. */
  function Pick(rows: seq<Row>, limit: nat): (picked: seq<Row>)
    ensures |picked| <= limit
    ensures forall row :: row in picked ==> row in rows && Free(row)
    ensures |picked| < limit ==> forall row :: row in rows && Free(row) ==> row in picked
  {
    var at := FirstFree(rows, Free, 0, limit);
    var picked := seq(|at|, i requires 0 <= i < |at| => rows[at[i]]);
    assert |picked| < limit ==> forall row :: row in rows && Free(row) ==> row in picked by {
      if |picked| < limit {
        forall row | row in rows && Free(row) ensures row in picked {
          var r :| 0 <= r < |rows| && rows[r] == row;
          assert r in at;
          var i :| 0 <= i < |at| && at[i] == r;
          assert picked[i] == row;
        }
      }
    }
    picked
  }

  function Marked(rows: seq<Row>, ids: seq<nat>): (out: seq<Row>)
    ensures |out| == |rows|
    ensures forall r :: 0 <= r < |rows| ==> out[r] == if rows[r].id in ids then rows[r].(published := true) else rows[r]
  {
    seq(|rows|, r requires 0 <= r < |rows| => if rows[r].id in ids then rows[r].(published := true) else rows[r])
  }

  /** How one round on a shard turns out: its queries, its publishes, its update, and its commit, which
      may take effect although it reports an error. */
  datatype Luck = Luck(select: bool, acks: nat -> Ack, update: bool, commit: bool, committedAnyway: bool)

  /** The round's update and its commit take effect. */
  predicate TakesEffect(luck: Luck) {
    luck.select && luck.update && (luck.commit || luck.committedAnyway)
  }

  /** The rows after a round: marked are the picked ones whose publish was acknowledged, if there are
      any and the update and its commit take effect. */
  function AfterRound(rows: seq<Row>, batchSize: nat, luck: Luck): seq<Row> {
    var ids := AckedIds(Pick(rows, batchSize), luck.acks);
    if TakesEffect(luck) && ids != [] then Marked(rows, ids) else rows
  }

  /** Ids are unique in a table. */
  ghost predicate Table(rows: seq<Row>) {
    forall r, q :: 0 <= r < q < |rows| ==> rows[r].id != rows[q].id
  }

  /** The row at r was picked, and its publish acknowledged. */
  ghost predicate AckedAt(at: seq<nat>, acks: nat -> Ack, r: nat) {
    exists i :: 0 <= i < |at| && at[i] == r && acks(i).Acked?
  }

  lemma MarkedAt(rows: seq<Row>, limit: nat, acks: nat -> Ack, r: nat)
    requires Table(rows) && r < |rows|
    ensures Marked(rows, AckedIds(Pick(rows, limit), acks))[r].published
            <==> rows[r].published || AckedAt(FirstFree(rows, Free, 0, limit), acks, r)
  {
    var at, picked := FirstFree(rows, Free, 0, limit), Pick(rows, limit);
    PickedAre(rows, limit);
    hide Pick, AckedIds, FirstFree;
    if rows[r].id in AckedIds(picked, acks) {
      var i :| 0 <= i < |picked| && acks(i).Acked? && picked[i].id == rows[r].id;
      assert at[i] == r;
    }
    if AckedAt(at, acks, r) {
      var i :| 0 <= i < |at| && at[i] == r && acks(i).Acked?;
      assert picked[i].id == rows[r].id;
    }
  }

  lemma PickedAre(rows: seq<Row>, limit: nat)
    ensures var at := FirstFree(rows, Free, 0, limit);
            |Pick(rows, limit)| == |at| && forall i :: 0 <= i < |at| ==> Pick(rows, limit)[i] == rows[at[i]]
  {
  }

  /** What a round leaves: a row is published if it was before, or if the round took effect, picked it,
      and its publish was acknowledged; and nothing else of any row has changed. */
  ghost predicate MarksPicked(before: seq<Row>, after: seq<Row>, batchSize: nat, luck: Luck) {
    && |after| == |before|
    && (forall r :: 0 <= r < |before| ==> after[r] == before[r].(published := after[r].published))
    && (Table(before) ==> forall r :: 0 <= r < |before| ==>
          (after[r].published <==> before[r].published || (TakesEffect(luck) && AckedAt(FirstFree(before, Free, 0, batchSize), luck.acks, r))))
    && (!TakesEffect(luck) ==> after == before)
  }

  lemma RoundMarks(rows: seq<Row>, batchSize: nat, luck: Luck)
    ensures MarksPicked(rows, AfterRound(rows, batchSize, luck), batchSize, luck)
  {
    var at := FirstFree(rows, Free, 0, batchSize);
    if Table(rows) {
      forall r: nat | r < |rows|
        ensures Marked(rows, AckedIds(Pick(rows, batchSize), luck.acks))[r].published <==> rows[r].published || AckedAt(at, luck.acks, r)
      {
        MarkedAt(rows, batchSize, luck.acks, r);
      }
    }
    hide Pick, FirstFree, AckedIds, AckedAt, Table;
  }

  /** One database of a service: its outbox rows by id. */
  class Shard {
    var rows: seq<Row>

    constructor (rows: seq<Row>)
      ensures this.rows == rows
    {
      this.rows := rows;
    }

    /** Inside the caller's transaction; without a service there is no table to write to. */
    method Write(id: nat, service: string, env: Envelope, topic: string, trace: map<string, string>, works: bool) returns (ok: bool)
      modifies this
      ensures ok <==> service != "" && works
      ensures !ok ==> rows == old(rows)
      ensures ok ==> |rows| == |old(rows)| + 1 && rows[..|old(rows)|] == old(rows) && Free(rows[|old(rows)|])
                     && rows[|old(rows)|].key == env.aggregateId && rows[|old(rows)|].topic == topic
      ensures ok ==> rows[|old(rows)|].payload == env.payload && rows[|old(rows)|].id == id
      ensures ok && PRODUCER !in trace ==> forall relay :: Expected(rows[|old(rows)|], relay, PRODUCER) == Some(service)
      ensures ok && EVENT_ID !in trace ==> forall relay :: Expected(rows[|old(rows)|], relay, EVENT_ID) == Some(env.eventId)
      ensures ok && EVENT_TYPE !in trace ==> forall relay :: Expected(rows[|old(rows)|], relay, EVENT_TYPE) == Some(env.eventType)
      ensures ok ==> forall relay, key :: key in trace ==> Expected(rows[|old(rows)|], relay, key) == Some(trace[key])
    {
      if service == "" {
        return false;
      }
      var row := BuildRow(id, service, env, topic, trace);
      assert PRODUCER !in trace ==> Written(service, env, trace, PRODUCER) == Some(service);
      assert EVENT_ID !in trace ==> Written(service, env, trace, EVENT_ID) == Some(env.eventId);
      assert EVENT_TYPE !in trace ==> Written(service, env, trace, EVENT_TYPE) == Some(env.eventType);
      forall key | key in trace ensures key in row.headers.value && row.headers.value[key] == trace[key] {
        assert Written(service, env, trace, key) == Some(trace[key]);
      }
      if works {
        rows := rows + [row];
      }
      return works;
    }
  }

  /** The topics have grown by what was not lost of the batch, in its order. */
  ghost predicate Delivered(before: seq<Record>, after: seq<Record>, batch: seq<Row>, acks: nat -> Ack, relay: string) {
    var at := StoredAt(acks, |batch|);
    && |after| == |before| + |at| && before <= after
    && forall j :: 0 <= j < |at| ==> Delivers(after[|before| + j], batch[at[j]], relay)
  }

  lemma OneMoreDelivered(before: seq<Record>, after: seq<Record>, batch: seq<Row>, i: nat, acks: nat -> Ack, relay: string, r: Record)
    requires i < |batch| && Delivered(before, after, batch[..i], acks, relay) && Delivers(r, batch[i], relay)
    ensures Delivered(before, if acks(i).Lost? then after else after + [r], batch[..i + 1], acks, relay)
  {
    var at, more := StoredAt(acks, i), StoredAt(acks, i + 1);
    assert more == at + if acks(i).Lost? then [] else [i];
    hide Delivers, StoredAt;
    var longer := if acks(i).Lost? then after else after + [r];
    forall j | 0 <= j < |more| ensures Delivers(longer[|before| + j], batch[..i + 1][more[j]], relay) {
      if j < |at| {
        assert Delivers(after[|before| + j], batch[..i][at[j]], relay);
      }
    }
  }

  class Relay {
    const service: string
    const batchSize: nat
    var topicLog: seq<Record>

    constructor (service: string, batchSize: nat)
      ensures this.service == service && this.batchSize == batchSize && topicLog == []
    {
      this.service, this.batchSize, topicLog := service, batchSize, [];
    }

    /** One after the other; a row whose publish fails does not hold up the rest. What comes back are
        the rows that were acknowledged, and no others. */
    method PublishBatch(batch: seq<Row>, acks: nat -> Ack) returns (published: seq<nat>)
      modifies this`topicLog
      ensures published == AckedIds(batch, acks)
      ensures Delivered(old(topicLog), topicLog, batch, acks, service)
    {
      published := [];
      var i := 0;
      assert Delivered(topicLog, topicLog, batch[..i], acks, service);
      hide Delivered, Delivers;
      while i < |batch|
        invariant i <= |batch| && published == AckedIds(batch[..i], acks)
        invariant Delivered(old(topicLog), topicLog, batch[..i], acks, service)
      {
        var r := RecordFor(batch[i]);
        OneMoreDelivered(old(topicLog), topicLog, batch, i, acks, service, r);
        assert batch[..i + 1][..i] == batch[..i];
        if !acks(i).Lost? {
          topicLog := topicLog + [r];
        }
        if acks(i).Acked? {
          published := published + [batch[i].id];
        }
        i := i + 1;
      }
      assert batch[..i] == batch;
    }

    method RecordFor(row: Row) returns (r: Record)
      ensures Delivers(r, row, service)
      ensures r == Record(row.topic, 0, 0, row.key, row.payload, r.headers)
      ensures forall key :: row.headers.Some? && key in row.headers.value ==> HeaderValue(r.headers, key) == Some(row.headers.value[key])
      ensures row.headers.None? || PRODUCER !in row.headers.value ==> HeaderValue(r.headers, PRODUCER) == Some(service)
    {
      var headers := HeadersToRecordHeaders(row.headers);
      var has := HasHeader(headers, PRODUCER);
      if !has {
        forall key {
          ReadAppended(headers, Header(PRODUCER, service), key);
        }
        headers := headers + [Header(PRODUCER, service)];
      }
      r := Record(row.topic, 0, 0, row.key, row.payload, headers);
    }

    /** Marks exactly the picked rows whose publish was acknowledged, if the transaction takes effect,
        and otherwise nothing; reports success only if it did, or if there was nothing to do. */
    method PollShard(shard: Shard, luck: Luck) returns (ok: bool)
      modifies this`topicLog, shard
      ensures var picked := Pick(old(shard.rows), batchSize);
              var ids := AckedIds(picked, luck.acks);
              && shard.rows == AfterRound(old(shard.rows), batchSize, luck)
              && (ok <==> luck.select && (picked == [] || (ids != [] && luck.update && luck.commit)))
              && Delivered(old(topicLog), topicLog, if luck.select then picked else [], luck.acks, service)
      ensures MarksPicked(old(shard.rows), shard.rows, batchSize, luck)
    {
      RoundMarks(shard.rows, batchSize, luck);
      hide MarksPicked, Delivered, AckedIds;
      if !luck.select {
        return false;
      }
      var batch := Pick(shard.rows, batchSize);
      if |batch| == 0 {
        return true;
      }
      var published := PublishBatch(batch, luck.acks);
      if |published| == 0 {
        return false;
      }
      if !luck.update {
        return false;
      }
      if luck.commit || luck.committedAnyway {
        shard.rows := Marked(shard.rows, published);
      }
      return luck.commit;
    }

    /** Every shard gets its round, whatever happens to the ones before it. */
    method PollAllShards(shards: seq<Shard>, luck: nat -> Luck)
      requires forall i, j :: 0 <= i < j < |shards| ==> shards[i] != shards[j]
      modifies this`topicLog, shards
      ensures forall i :: 0 <= i < |shards| ==> shards[i].rows == AfterRound(old(shards[i].rows), batchSize, luck(i))
      ensures forall i :: 0 <= i < |shards| ==> MarksPicked(old(shards[i].rows), shards[i].rows, batchSize, luck(i))
    {
      hide MarksPicked, Delivered, Pick, AckedIds;
      hide AfterRound;
      var i := 0;
      while i < |shards|
        invariant i <= |shards|
        invariant forall k :: i <= k < |shards| ==> shards[k].rows == old(shards[k].rows)
        invariant forall k :: 0 <= k < i ==> shards[k].rows == AfterRound(old(shards[k].rows), batchSize, luck(k))
      {
        var ok := PollShard(shards[i], luck(i));
        i := i + 1;
      }
      forall k | 0 <= k < |shards| ensures MarksPicked(old(shards[k].rows), shards[k].rows, batchSize, luck(k)) {
        RoundMarks(old(shards[k].rows), batchSize, luck(k));
      }
    }
  }

  // ---------- What a round leaves behind ----------

  /** No event has been marked before an earlier one of its key. */
  ghost predicate KeysInOrder(rows: seq<Row>) {
    forall r, q :: 0 <= r < q < |rows| && rows[r].key == rows[q].key && rows[q].published ==> rows[r].published
  }

  /** No picked row is acknowledged that stands behind another of its key which is not, or which
      another relay holds. */
  ghost predicate NothingOvertakes(rows: seq<Row>, limit: nat, acks: nat -> Ack) {
    var at := FirstFree(rows, Free, 0, limit);
    && (forall i, j :: 0 <= i < j < |at| && rows[at[i]].key == rows[at[j]].key && acks(j).Acked? ==> acks(i).Acked?)
    && (forall r, j :: 0 <= j < |at| && 0 <= r < at[j] && rows[r].key == rows[at[j]].key && acks(j).Acked? ==> !rows[r].locked || rows[r].published)
  }

  /** A failed publish does not hold up the rest of the round, nor does a row held elsewhere: a round keeps
      the events of one key in order exactly when it takes no effect, or no such row stands before an
      acknowledged one of its key. */
  lemma KeysInOrderIff(rows: seq<Row>, batchSize: nat, luck: Luck)
    requires Table(rows) && KeysInOrder(rows)
    ensures KeysInOrder(AfterRound(rows, batchSize, luck)) <==> (TakesEffect(luck) ==> NothingOvertakes(rows, batchSize, luck.acks))
  {
    RoundMarks(rows, batchSize, luck);
    var after := AfterRound(rows, batchSize, luck);
    hide KeysInOrder, NothingOvertakes, AckedAt, FirstFree, AfterRound, Table;
    if TakesEffect(luck) {
      if KeysInOrder(after) {
        InOrderOvertakesNothing(rows, batchSize, luck.acks, after);
      }
      if NothingOvertakes(rows, batchSize, luck.acks) {
        OvertakesNothingInOrder(rows, batchSize, luck.acks, after);
      }
    }
  }

  lemma InOrderOvertakesNothing(rows: seq<Row>, limit: nat, acks: nat -> Ack, after: seq<Row>)
    requires KeysInOrder(after) && |after| == |rows| && forall r: nat :: r < |rows| ==> after[r].key == rows[r].key
    requires forall r: nat :: r < |rows| ==> (after[r].published <==> rows[r].published || AckedAt(FirstFree(rows, Free, 0, limit), acks, r))
    ensures NothingOvertakes(rows, limit, acks)
  {
    var at := FirstFree(rows, Free, 0, limit);
    hide FirstFree;
    forall j | 0 <= j < |at| && acks(j).Acked? ensures after[at[j]].published {
      assert AckedAt(at, acks, at[j]);
    }
    forall i, j | 0 <= i < j < |at| && rows[at[i]].key == rows[at[j]].key && acks(j).Acked? ensures acks(i).Acked? {
      assert AckedAt(at, acks, at[i]);
    }
  }

  lemma OvertakesNothingInOrder(rows: seq<Row>, limit: nat, acks: nat -> Ack, after: seq<Row>)
    requires KeysInOrder(rows) && NothingOvertakes(rows, limit, acks)
    requires |after| == |rows| && forall r: nat :: r < |rows| ==> after[r].key == rows[r].key
    requires forall r: nat :: r < |rows| ==> (after[r].published <==> rows[r].published || AckedAt(FirstFree(rows, Free, 0, limit), acks, r))
    ensures KeysInOrder(after)
  {
    var at := FirstFree(rows, Free, 0, limit);
    hide FirstFree;
    forall r, q | 0 <= r < q < |rows| && rows[r].key == rows[q].key && after[q].published ensures after[r].published {
      if !rows[q].published && !rows[r].published {
        var j :| 0 <= j < |at| && at[j] == q && acks(j).Acked?;
        var i :| 0 <= i < |at| && at[i] == r;
        assert acks(i).Acked? && AckedAt(at, acks, r);
      }
    }
  }

  /** If everything works, a backlog shorter than the batch is gone after one round. */
  lemma BacklogIsDrained(rows: seq<Row>, batchSize: nat, luck: Luck, r: nat)
    requires Table(rows) && |Pick(rows, batchSize)| < batchSize && r < |rows| && Free(rows[r])
    requires TakesEffect(luck) && forall i :: luck.acks(i).Acked?
    ensures AfterRound(rows, batchSize, luck)[r].published
  {
    RoundMarks(rows, batchSize, luck);
    PickedAre(rows, batchSize);
    hide AfterRound;
    var at := FirstFree(rows, Free, 0, batchSize);
    var i :| 0 <= i < |at| && at[i] == r;
    assert luck.acks(i).Acked?;
  }

  /** A row is marked by a round if and only if the round took effect, picked it, and its publish was
      acknowledged; so a row is never marked while its event is in no topic, and one that stays unmarked is
      picked again. */
  lemma MarkedIff(rows: seq<Row>, batchSize: nat, luck: Luck, r: nat)
    requires Table(rows) && r < |rows| && !rows[r].published
    ensures var at := FirstFree(rows, Free, 0, batchSize); var after := AfterRound(rows, batchSize, luck);
            && (after[r].published <==> TakesEffect(luck) && exists i :: 0 <= i < |at| && at[i] == r && luck.acks(i).Acked?)
            && (!after[r].published ==> after[r] == rows[r])
  {
    RoundMarks(rows, batchSize, luck);
    hide AfterRound, FirstFree;
  }
}
