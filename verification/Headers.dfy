/** Kafka record headers: reading, replacing, and the sets of headers written on the way to the
    retry topic and to the dead letter queue. */
module Headers {
  import opened Wrappers
  import opened Decimal

  datatype Header = Header(key: string, value: string)

  const ERROR := "error"
  const ORIGINAL_TOPIC := "original_topic"
  const ORIGINAL_PARTITION := "original_partition"
  const ORIGINAL_OFFSET := "original_offset"
  const RETRY_AT := "retry_at"
  const RETRY_COUNT := "retry_count"

  const RETRY_SCHEME := {ERROR, ORIGINAL_TOPIC, ORIGINAL_PARTITION, ORIGINAL_OFFSET, RETRY_AT, RETRY_COUNT}

  /** A record as the client hands it over. Partition and offset are int32 and int64. */
  datatype Record = Record(topic: string, partition: int, offset: int, key: string, value: string, headers: seq<Header>)

  ghost predicate Sized(r: Record) {
    -Limit(32) <= r.partition < Limit(32) && -Limit(64) <= r.offset < Limit(64)
  }

  function RetryTopic(topic: string): string { topic + ".retry" }

  function DlqTopic(topic: string): string { topic + ".dlq" }

  /** A topic, its retry topic and its dead letter queue are three. */
  lemma TopicsAreApart(topic: string)
    ensures RetryTopic(topic) != topic && DlqTopic(topic) != topic && RetryTopic(topic) != DlqTopic(topic)
  {
    assert |RetryTopic(topic)| == |topic| + 6 && |DlqTopic(topic)| == |topic| + 4;
  }

  function HeaderValue(headers: seq<Header>, key: string): Option<string> {
    if headers == [] then None
    else if headers[0].key == key then Some(headers[0].value)
    else HeaderValue(headers[1..], key)
  }

  function WithHeader(headers: seq<Header>, key: string, value: string): seq<Header> {
    if headers == [] then [Header(key, value)]
    else if headers[0].key == key then [Header(key, value)] + headers[1..]
    else [headers[0]] + WithHeader(headers[1..], key, value)
  }

  function Without(headers: seq<Header>, keys: set<string>): seq<Header> {
    if headers == [] then []
    else (if headers[0].key in keys then [] else [headers[0]]) + Without(headers[1..], keys)
  }

  // ---------- Laws ----------

  lemma {:induction false} ReadBack(headers: seq<Header>, key: string, value: string, other: string)
    ensures HeaderValue(WithHeader(headers, key, value), other) == if other == key then Some(value) else HeaderValue(headers, other)
  {
    if headers != [] && headers[0].key != key {
      ReadBack(headers[1..], key, value, other);
    }
  }

  /** Replacing or adding a header of the scheme leaves the rest of the list, and its order, alone. */
  lemma {:induction false} OthersStay(headers: seq<Header>, key: string, value: string, keys: set<string>)
    requires key in keys
    ensures Without(WithHeader(headers, key, value), keys) == Without(headers, keys)
  {
    if headers == [] {
      assert WithHeader(headers, key, value)[1..] == [];
    } else if headers[0].key == key {
      assert WithHeader(headers, key, value)[1..] == headers[1..];
    } else {
      assert WithHeader(headers, key, value)[1..] == WithHeader(headers[1..], key, value);
      OthersStay(headers[1..], key, value, keys);
    }
  }

  lemma {:induction false} WithoutShrinks(headers: seq<Header>, keys: set<string>)
    ensures |Without(headers, keys)| <= |headers|
    ensures Without(headers, keys) == headers <==> forall i :: 0 <= i < |headers| ==> headers[i].key !in keys
  {
    if headers != [] {
      WithoutShrinks(headers[1..], keys);
      if headers[0].key !in keys {
        assert Without(headers, keys)[1..] == Without(headers[1..], keys);
        assert headers == [headers[0]] + headers[1..];
        if forall i :: 0 <= i < |headers[1..]| ==> headers[1..][i].key !in keys {
          forall i | 0 <= i < |headers| ensures headers[i].key !in keys {
            assert i > 0 ==> headers[i] == headers[1..][i - 1];
          }
        } else {
          var i :| 0 <= i < |headers[1..]| && headers[1..][i].key in keys;
          assert headers[i + 1].key in keys;
        }
      }
    }
  }

  // ---------- The three header lists ----------

  function OriginHeaders(headers: seq<Header>, topic: string, partition: int, offset: int): seq<Header> {
    WithHeader(WithHeader(WithHeader(headers, ORIGINAL_TOPIC, topic),
                          ORIGINAL_PARTITION, FormatInt(partition)),
               ORIGINAL_OFFSET, FormatInt(offset))
  }

  /** First visit to the retry topic: retry_count is 1 and the origin is the record itself. */
  function RetryHeaders(r: Record, retryAt: int): seq<Header> {
    OriginHeaders(WithHeader(WithHeader(r.headers, RETRY_AT, FormatInt(retryAt)), RETRY_COUNT, "1"),
                  r.topic, r.partition, r.offset)
  }

  function NextRoundHeaders(headers: seq<Header>, round: int, retryAt: int): seq<Header> {
    WithHeader(WithHeader(headers, RETRY_COUNT, FormatInt(round)), RETRY_AT, FormatInt(retryAt))
  }

  function DlqHeaders(headers: seq<Header>, cause: string, topic: string, partition: int, offset: int): seq<Header> {
    OriginHeaders(WithHeader(headers, ERROR, cause), topic, partition, offset)
  }

  function OriginalTopic(r: Record): string {
    match HeaderValue(r.headers, ORIGINAL_TOPIC)
    case Some(v) => v
    case None => r.topic
  }

  function OriginalPartition(r: Record): int {
    match HeaderValue(r.headers, ORIGINAL_PARTITION)
    case Some(v) => (match ParseInt(v, 32) case Some(n) => n case None => r.partition)
    case None => r.partition
  }

  function OriginalOffset(r: Record): int {
    match HeaderValue(r.headers, ORIGINAL_OFFSET)
    case Some(v) => (match ParseInt(v, 64) case Some(n) => n case None => r.offset)
    case None => r.offset
  }

  function RetryRound(r: Record): (n: int)
    ensures -Limit(64) <= n < Limit(64)
  {
    match HeaderValue(r.headers, RETRY_COUNT)
    case Some(v) => (match ParseInt(v, 64) case Some(n) => n case None => 0)
    case None => 0
  }

  /** The number a header gives in this width: none if the header is missing, or is not such a number. */
  function NumberOf(headers: seq<Header>, key: string, bits: nat): Option<int> {
    match HeaderValue(headers, key)
    case Some(v) => ParseInt(v, bits)
    case None => None
  }

  /** What the retry consumer takes for the origin and the round: the header's, if it is there and a number of
      its width, else the record's own place, and no round yet. */
  lemma OriginOf(r: Record)
    ensures OriginalTopic(r) == if HeaderValue(r.headers, ORIGINAL_TOPIC).Some? then HeaderValue(r.headers, ORIGINAL_TOPIC).value else r.topic
    ensures OriginalPartition(r) ==
            if NumberOf(r.headers, ORIGINAL_PARTITION, 32).Some? then NumberOf(r.headers, ORIGINAL_PARTITION, 32).value else r.partition
    ensures OriginalOffset(r) ==
            if NumberOf(r.headers, ORIGINAL_OFFSET, 64).Some? then NumberOf(r.headers, ORIGINAL_OFFSET, 64).value else r.offset
    ensures RetryRound(r) == if NumberOf(r.headers, RETRY_COUNT, 64).Some? then NumberOf(r.headers, RETRY_COUNT, 64).value else 0
  {
  }

  // ---------- In place ----------

  lemma {:induction false} WithHeaderAt(headers: seq<Header>, key: string, value: string, i: nat)
    requires i <= |headers| && (forall j :: 0 <= j < i ==> headers[j].key != key)
    requires i < |headers| ==> headers[i].key == key
    ensures WithHeader(headers, key, value) ==
            if i < |headers| then headers[i := Header(key, value)] else headers + [Header(key, value)]
  {
    if headers != [] && i != 0 {
      WithHeaderAt(headers[1..], key, value, i - 1);
    }
  }

  /** Overwrites the first header of that name in the caller's own slice, or appends one. */
  method SetHeader(headers: array<Header>, key: string, value: string) returns (out: array<Header>)
    modifies headers
    ensures out[..] == WithHeader(old(headers[..]), key, value)
    ensures out == headers || fresh(out)
  {
    var i := 0;
    while i < headers.Length
      invariant 0 <= i <= headers.Length
      invariant forall j :: 0 <= j < i ==> headers[j].key != key
      invariant headers[..] == old(headers[..])
    {
      if headers[i].key == key {
        WithHeaderAt(headers[..], key, value, i);
        headers[i] := Header(key, value);
        return headers;
      }
      i := i + 1;
    }
    WithHeaderAt(headers[..], key, value, i);
    out := new Header[headers.Length + 1](j requires 0 <= j <= headers.Length reads headers =>
      if j < headers.Length then headers[j] else Header(key, value));
    assert out[..] == headers[..] + [Header(key, value)];
  }

  method CopyOf(headers: array<Header>) returns (copy: array<Header>)
    ensures fresh(copy) && copy[..] == headers[..]
  {
    copy := new Header[headers.Length](j requires 0 <= j < headers.Length reads headers => headers[j]);
  }

  /** Builds the dead-letter headers in a copy: the base list is not written to. */
  method BuildDlqHeaders(base: array<Header>, cause: string, topic: string, partition: int, offset: int)
    returns (out: array<Header>)
    ensures fresh(out) && out[..] == DlqHeaders(base[..], cause, topic, partition, offset)
  {
    out := CopyOf(base);
    out := SetHeader(out, ERROR, cause);
    out := SetHeader(out, ORIGINAL_TOPIC, topic);
    out := SetHeader(out, ORIGINAL_PARTITION, FormatInt(partition));
    out := SetHeader(out, ORIGINAL_OFFSET, FormatInt(offset));
  }

  /** The headers of a first retry, again in a copy. */
  method BuildRetryHeaders(base: array<Header>, r: Record, retryAt: int) returns (out: array<Header>)
    requires base[..] == r.headers
    ensures fresh(out) && out[..] == RetryHeaders(r, retryAt)
  {
    out := CopyOf(base);
    out := SetHeader(out, RETRY_AT, FormatInt(retryAt));
    out := SetHeader(out, RETRY_COUNT, "1");
    out := SetHeader(out, ORIGINAL_TOPIC, r.topic);
    out := SetHeader(out, ORIGINAL_PARTITION, FormatInt(r.partition));
    out := SetHeader(out, ORIGINAL_OFFSET, FormatInt(r.offset));
  }

  /** The headers of a further round, again in a copy. */
  method BuildNextRoundHeaders(base: array<Header>, round: int, retryAt: int) returns (out: array<Header>)
    ensures fresh(out) && out[..] == NextRoundHeaders(base[..], round, retryAt)
  {
    out := CopyOf(base);
    out := SetHeader(out, RETRY_COUNT, FormatInt(round));
    out := SetHeader(out, RETRY_AT, FormatInt(retryAt));
  }

  /** Keeps, in order, every header whose name is not dropped. */
  method DropHeaders(headers: array<Header>, drop: set<string>) returns (kept: seq<Header>)
    ensures kept == Without(headers[..], drop)
  {
    kept := [];
    var i := 0;
    ghost var all := headers[..];
    while i < headers.Length
      invariant 0 <= i <= headers.Length
      invariant kept + Without(all[i..], drop) == Without(all, drop)
    {
      assert all[i..][1..] == all[i + 1..];
      if headers[i].key !in drop {
        kept := kept + [headers[i]];
      }
      i := i + 1;
    }
  }
}
