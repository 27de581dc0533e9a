/** The shared state of the aggregator: the MySQL tables, the Redis delivery
    cache and retry set, and the Kafka topics it writes, with the operations
    the services issue on them.

    Each operation takes the `Outcome` the backend gives it.  A statement that
    throws may or may not have reached the server, so there are two ways to
    throw. */
module Store {
  import opened Text

  /** Done: took effect and returned.  Lost: threw without effect.
      Applied: took effect, and threw all the same (a lost acknowledgement). */
  datatype Outcome = Done | Lost | Applied {
    predicate Throws() { this != Done }
    predicate Lands() { this != Lost }
  }

  datatype Channel = Email | Sms | Whatsapp

  function ChannelName(c: Channel): (s: string)
    ensures ColonFree(s)
  {
    match c
    case Email => "email"
    case Sms => "sms"
    case Whatsapp => "whatsapp"
  }

  lemma ChannelNameInjective(c1: Channel, c2: Channel)
    requires ChannelName(c1) == ChannelName(c2)
    ensures c1 == c2
  {
  }

  /** A message as the consumer hands it on; `attempt` counts earlier attempts. */
  datatype Message = Message(messageId: string, tenantId: string, idempotencyKey: string, dedupKey: string,
                             userId: string, channel: Channel, recipient: string, body: string, attempt: nat)

  datatype Status = PENDING | IN_PROGRESS | SENT | FAILED | RETRY_SCHEDULED

  /** A row of `messages`, without its primary key messageId. */
  datatype Row = Row(tenantId: string, idempotencyKey: string, dedupKey: string, userId: string,
                     channel: Channel, recipient: string, body: string,
                     status: Status, finalDelivered: bool, attempts: nat)

  /** A row of `delivery_attempts`. */
  datatype Attempt = Attempt(messageId: string, number: nat, success: bool)

  /** A row of `dlq_entries`, and an event of the `dlq.*` topics. */
  datatype DeadLetter = DeadLetter(messageId: string, channel: Channel)

  /** A call that reached a provider. */
  datatype Call = Call(messageId: string, number: nat, at: int, success: bool)

  /** What a provider was given in a call. */
  datatype Parcel = Parcel(recipient: string, body: string)

  /** `parcels` goes with `calls`, entry by entry. */
  datatype State = State(rows: map<string, Row>, audits: seq<Attempt>, dlqRows: seq<DeadLetter>,
                         cache: map<string, int>, retries: map<string, int>,
                         dlqTopic: seq<DeadLetter>, calls: seq<Call>, parcels: seq<Parcel>)

  // ------------------------------------------------- meaning of the operations

  predicate Live(cache: map<string, int>, key: string, now: int) {
    key in cache && now < cache[key]
  }

  predicate Delivered(rows: map<string, Row>, id: string) {
    id in rows && rows[id].finalDelivered
  }

  /** A delivered row is a SENT row, and conversely. */
  ghost predicate Coherent(rows: map<string, Row>) {
    forall id :: id in rows ==> (rows[id].finalDelivered <==> rows[id].status == SENT)
  }

  /** UPDATE messages ... WHERE messageId = ?; a missing row is no error. */
  function UpdateRow(rows: map<string, Row>, id: string, status: Status, delivered: bool, attempts: nat)
    : (r: map<string, Row>)
    ensures r.Keys == rows.Keys
    ensures forall k :: k in rows && k != id ==> r[k] == rows[k]
  {
    if id in rows
    then rows[id := rows[id].(status := status, finalDelivered := delivered, attempts := attempts)]
    else rows
  }

  /** Members a range query by score from 0 to now selects. */
  function Due(retries: map<string, int>, now: int): set<string> {
    set p | p in retries && 0 <= retries[p] <= now
  }

  ghost predicate Enumerates(items: seq<string>, s: set<string>) {
    && (forall i, j :: 0 <= i < j < |items| ==> items[i] != items[j])
    && (forall p :: p in items <==> p in s)
  }

  predicate Lowest(p: string, s: set<string>, retries: map<string, int>)
    requires p in retries && forall q :: q in s ==> q in retries
  {
    forall q :: q in s ==> retries[p] <= retries[q]
  }

  /** The items come by rising score. */
  ghost predicate ByScore(items: seq<string>, retries: map<string, int>) {
    && (forall p :: p in items ==> p in retries)
    && forall i, j :: 0 <= i < j < |items| ==> retries[items[i]] <= retries[items[j]]
  }

  lemma {:induction false} LowestExists(s: set<string>, retries: map<string, int>)
    requires s != {} && forall q :: q in s ==> q in retries
    ensures exists p :: p in s && Lowest(p, s, retries)
    decreases s
  {
    var p :| p in s;
    if s == {p} {
      assert Lowest(p, s, retries);
    } else {
      var rest := s - {p};
      assert s == rest + {p};
      LowestExists(rest, retries);
      var q :| q in rest && Lowest(q, rest, retries);
      assert Lowest(if retries[p] < retries[q] then p else q, s, retries);
    }
  }

  /** SETNX with an expiry: only a key that is not live is written. */
  function SetIfAbsent(cache: map<string, int>, key: string, now: int, ttl: nat): map<string, int> {
    if Live(cache, key, now) then cache else cache[key := now + ttl]
  }

  // ------------------------------------------------------------------- class

  class Backend {
    var rows: map<string, Row>
    var audits: seq<Attempt>
    var dlqRows: seq<DeadLetter>
    var cache: map<string, int>
    var retries: map<string, int>
    var dlqTopic: seq<DeadLetter>
    var calls: seq<Call>
    var parcels: seq<Parcel>

    function Snapshot(): State
      reads this
    {
      State(rows, audits, dlqRows, cache, retries, dlqTopic, calls, parcels)
    }

    constructor (rows: map<string, Row>)
      ensures Snapshot() == State(rows, [], [], map[], map[], [], [], [])
    {
      this.rows := rows;
      audits, dlqRows, cache, retries, dlqTopic, calls, parcels := [], [], map[], map[], [], [], [];
    }

    // ---- MySQL

    method UpdateStatus(id: string, status: Status, delivered: bool, attempts: nat, o: Outcome)
      returns (threw: bool)
      modifies this
      ensures threw == o.Throws()
      ensures o.Lost? ==> Snapshot() == old(Snapshot())
      ensures !o.Lost? ==> Snapshot() == old(Snapshot()).(rows := UpdateRow(old(rows), id, status, delivered, attempts))
    {
      if o.Lands() {
        rows := UpdateRow(rows, id, status, delivered, attempts);
      }
      threw := o.Throws();
    }

    method GetStatus(id: string, o: Outcome) returns (threw: bool, delivered: bool)
      ensures threw == o.Throws()
      ensures delivered == Delivered(rows, id)
    {
      threw := o.Throws();
      delivered := id in rows && rows[id].finalDelivered;
    }

    /** The foreign key of `delivery_attempts` rejects an id without a row. */
    method SaveAttempt(a: Attempt, o: Outcome) returns (threw: bool)
      modifies this
      ensures threw == (o.Throws() || a.messageId !in old(rows))
      ensures Snapshot() == if o.Lands() && a.messageId in old(rows)
                            then old(Snapshot()).(audits := old(audits) + [a]) else old(Snapshot())
    {
      var known := a.messageId in rows;
      if o.Lands() && known {
        audits := audits + [a];
      }
      threw := o.Throws() || !known;
    }

    /** The foreign key of `dlq_entries` rejects an id without a row. */
    method SaveDlqEntry(d: DeadLetter, o: Outcome) returns (threw: bool)
      modifies this
      ensures threw == (o.Throws() || d.messageId !in old(rows))
      ensures Snapshot() == if o.Lands() && d.messageId in old(rows)
                            then old(Snapshot()).(dlqRows := old(dlqRows) + [d]) else old(Snapshot())
    {
      var known := d.messageId in rows;
      if o.Lands() && known {
        dlqRows := dlqRows + [d];
      }
      threw := o.Throws() || !known;
    }

    // ---- Redis

    method Exists(key: string, now: int, o: Outcome) returns (threw: bool, hit: bool)
      ensures threw == o.Throws()
      ensures hit == Live(cache, key, now)
    {
      threw := o.Throws();
      hit := key in cache && now < cache[key];
    }

    method SetNX(key: string, now: int, ttl: nat, o: Outcome) returns (threw: bool)
      modifies this
      ensures threw == o.Throws()
      ensures Snapshot() == if o.Lands() then old(Snapshot()).(cache := SetIfAbsent(old(cache), key, now, ttl))
                            else old(Snapshot())
    {
      if o.Lands() && !(key in cache && now < cache[key]) {
        cache := cache[key := now + ttl];
      }
      threw := o.Throws();
    }

    method SetEx(key: string, now: int, ttl: nat, o: Outcome) returns (threw: bool)
      modifies this
      ensures threw == o.Throws()
      ensures Snapshot() == if o.Lands() then old(Snapshot()).(cache := old(cache)[key := now + ttl])
                            else old(Snapshot())
    {
      if o.Lands() {
        cache := cache[key := now + ttl];
      }
      threw := o.Throws();
    }

    /** ZADD: inserts the member, or gives it a new score. */
    method ZAdd(member: string, score: int, o: Outcome) returns (threw: bool)
      modifies this
      ensures threw == o.Throws()
      ensures Snapshot() == if o.Lands() then old(Snapshot()).(retries := old(retries)[member := score])
                            else old(Snapshot())
    {
      if o.Lands() {
        retries := retries[member := score];
      }
      threw := o.Throws();
    }

    /** ZRANGEBYSCORE retries 0 now: the due members, by rising score. */
    method ZRangeByScore(now: int) returns (items: seq<string>)
      ensures Enumerates(items, Due(retries, now))
      ensures forall p :: p in items <==> p in retries && 0 <= retries[p] <= now
      ensures ByScore(items, retries)
    {
      items := [];
      var rest := Due(retries, now);
      while rest != {}
        invariant rest <= Due(retries, now)
        invariant Enumerates(items, Due(retries, now) - rest)
        invariant ByScore(items, retries)
        invariant forall p, q :: p in items && q in rest ==> retries[p] <= retries[q]
        decreases rest
      {
        LowestExists(rest, retries);
        var p :| p in rest && Lowest(p, rest, retries);
        rest := rest - {p};
        items := items + [p];
      }
    }

    /** ZREMRANGEBYSCORE retries 0 now */
    method ZRemRangeByScore(now: int, o: Outcome) returns (threw: bool)
      modifies this
      ensures threw == o.Throws()
      ensures Snapshot() == if o.Lands() then old(Snapshot()).(retries := old(retries) - Due(old(retries), now))
                            else old(Snapshot())
    {
      if o.Lands() {
        retries := retries - Due(retries, now);
      }
      threw := o.Throws();
    }

    // ---- provider and Kafka

    /** The provider is reached whatever the outcome; it succeeds when it returns. */
    method Send(id: string, number: nat, now: int, recipient: string, body: string, o: Outcome) returns (threw: bool)
      modifies this
      ensures threw == o.Throws()
      ensures Snapshot() == old(Snapshot()).(calls := old(calls) + [Call(id, number, now, !o.Throws())],
                            parcels := old(parcels) + [Parcel(recipient, body)])
    {
      calls := calls + [Call(id, number, now, o.Done?)];
      parcels := parcels + [Parcel(recipient, body)];
      threw := o.Throws();
    }

    method PublishDlq(d: DeadLetter, o: Outcome) returns (threw: bool)
      modifies this
      ensures threw == o.Throws()
      ensures Snapshot() == if o.Lands() then old(Snapshot()).(dlqTopic := old(dlqTopic) + [d])
                            else old(Snapshot())
    {
      if o.Lands() {
        dlqTopic := dlqTopic + [d];
      }
      threw := o.Throws();
    }
  }
}
