/** How a retry travels: an event on the topic is consumed and may come back as
    a payload in the retry set, which a poll turns into an event again.  Both
    delivery stacks share this path; they differ in the attempt numbers. */
module RetryFlow {
  import opened Text
  import opened Store
  import opened Logs
  import opened RetryQueue
  import opened Delivery

  /** A delivery event: which message, and how many attempts it claims already. */
  datatype Event = Event(messageId: string, attempt: nat)

  function EventId(e: Event): string { e.messageId }

  datatype Flow = Flow(topic: seq<Event>, retries: map<string, int>)

  /** A delivery stack with its topic, closed on itself. */
  datatype Loop = Loop(s: State, topic: seq<Event>)

  function FlowOf(l: Loop): Flow { Flow(l.topic, l.s.retries) }

  function Channels(rows: map<string, Row>): map<string, Channel> {
    map id | id in rows :: rows[id].channel
  }

  /** The message of the i-th event, rehydrated from its row. */
  function MessageAt(l: Loop, i: nat): Message
    requires i < |l.topic| && l.topic[i].messageId in l.s.rows
  {
    MessageOf(l.topic[i].messageId, l.s.rows[l.topic[i].messageId], l.topic[i].attempt)
  }

  /** The event a polled retry becomes; an attempt that is not a number is read as 0. */
  function Republished(r: Retry): Event {
    Event(r.messageId, if r.attempt.Some? && r.attempt.value > 0 then r.attempt.value else 0)
  }

  /** A payload is republished with its id and its number, or 0 when it has none. */
  lemma RepublishedIs(messageId: string, channel: string, attempt: nat, junk: string)
    requires ColonFree(messageId) && ColonFree(channel) && ColonFree(junk)
    ensures Republished(Decode(Payload(messageId, channel, attempt))) == Event(messageId, attempt)
    ensures Republished(Decode(junk)) == Event(junk, 0)
  {
    PayloadRoundTrip(messageId, channel, attempt);
    SplitFromColonFree(junk, []);
    assert [] + junk == junk;
  }

  function RepublishAll(items: seq<string>): (r: seq<Event>)
    ensures |r| == |items|
  {
    if items == [] then [] else RepublishAll(items[..|items| - 1]) + [Republished(Decode(items[|items| - 1]))]
  }

  /** A poll and its republishing: the due payloads, in the order `items` lists them. */
  function Polled(fl: Flow, now: int, items: seq<string>): Flow {
    Flow(fl.topic + RepublishAll(items), fl.retries - Due(fl.retries, now))
  }

  /** A poll that read nothing sends no delete, and misses none. */
  lemma TickPolls(before: Flow, now: int, items: seq<string>)
    requires Enumerates(items, Due(before.retries, now))
    ensures Polled(before, now, items) ==
            Flow(before.topic + RepublishAll(items),
                 if items == [] then before.retries else before.retries - Due(before.retries, now))
  {
  }

  /** A poll and its republishing, as a step of a closed loop. */
  function PolledLoop(l: Loop, now: int, items: seq<string>): Loop {
    var fl := Polled(FlowOf(l), now, items);
    Loop(l.s.(retries := fl.retries), fl.topic)
  }

  /** The timer of the aggregator: poll, and republish what came back.  Publishing
      is assumed to succeed; the code gives no guarantee when it does not. */
  class RetryLoop {
    const db: Backend
    const scheduler: RetryScheduler
    var topic: seq<Event>

    constructor (db: Backend, topic: seq<Event>)
      ensures this.db == db && scheduler.db == db && this.topic == topic
    {
      this.db := db;
      this.topic := topic;
      scheduler := new RetryScheduler(db);
    }

    function Contents(): Loop
      reads this, db
    {
      Loop(db.Snapshot(), topic)
    }

    /** Without faults a tick is the polling step of the closed loops. */
    method Tick(now: int, range: Outcome, remove: Outcome) returns (ghost items: seq<string>)
      requires scheduler.db == db
      modifies db, this`topic
      ensures Enumerates(items, Due(old(db.retries), now)) && ByScore(items, old(db.retries))
      ensures range.Done? && remove.Done? ==> Contents() == PolledLoop(old(Contents()), now, items)
      ensures db.Snapshot() ==
              if range.Throws() || items == [] || remove.Lost? then old(db.Snapshot())
              else old(db.Snapshot()).(retries := old(db.retries) - Due(old(db.retries), now))
      ensures topic == if range.Throws() || (items != [] && remove.Throws()) then old(topic)
                       else old(topic) + RepublishAll(items)
    {
      var retries;
      retries, items := scheduler.GetPendingRetries(now, range, remove);
      Republish(retries, if range.Throws() || (items != [] && remove.Throws()) then [] else items);
      assert old(topic) + [] == old(topic);
      TickPolls(Flow(old(topic), old(db.retries)), now, items);
    }

    method Republish(retries: seq<Retry>, ghost items: seq<string>)
      requires retries == DecodeAll(items)
      modifies this`topic
      ensures topic == old(topic) + RepublishAll(items)
    {
      assert items[..0] == [] && topic == old(topic) + RepublishAll(items[..0]);
      for i := 0 to |retries|
        invariant topic == old(topic) + RepublishAll(items[..i])
      {
        assert items[..i + 1][..i] == items[..i];
        topic := topic + [Republished(retries[i])];
      }
      assert items[..|items|] == items;
    }
  }

  function Without(topic: seq<Event>, i: nat): seq<Event>
    requires i < |topic|
  {
    topic[..i] + topic[i + 1..]
  }

  function EventsOf(topic: seq<Event>, id: string): seq<Event> { About(topic, id, EventId) }

  /** Payloads in the retry set that a poll would read back as this message. */
  function QueuedFor(retries: map<string, int>, id: string): set<string> {
    set p | p in retries && Decode(p).messageId == id
  }

  /** Where the one pending attempt of a message is. */
  datatype Token = OnTopic(attempt: nat) | InQueue(attempt: nat) | Gone

  function PayloadOf(id: string, channel: Channel, attempt: nat): string {
    Payload(id, ChannelName(channel), attempt)
  }

  predicate Holds(fl: Flow, id: string, channel: Channel, token: Token) {
    && ColonFree(id)
    && EventsOf(fl.topic, id) == (if token.OnTopic? then [Event(id, token.attempt)] else [])
    && (token.InQueue? ==> PayloadOf(id, channel, token.attempt) in fl.retries)
  }

  predicate OwnedBy(channels: map<string, Channel>, tokens: map<string, Token>, p: string, id: string) {
    id in channels && id in tokens && tokens[id].InQueue? && p == PayloadOf(id, channels[id], tokens[id].attempt)
  }

  ghost predicate AllHold(fl: Flow, channels: map<string, Channel>, tokens: map<string, Token>) {
    tokens.Keys == channels.Keys && forall id :: id in tokens ==> Holds(fl, id, channels[id], tokens[id])
  }

  ghost predicate AllOwned(retries: map<string, int>, channels: map<string, Channel>, tokens: map<string, Token>) {
    forall p :: p in retries ==> exists id :: OwnedBy(channels, tokens, p, id)
  }

  /** Each message has at most one pending attempt, where its token says, and
      nothing else is on the topic or in the queue. */
  ghost predicate Carries(fl: Flow, channels: map<string, Channel>, tokens: map<string, Token>) {
    && AllHold(fl, channels, tokens)
    && AllOwned(fl.retries, channels, tokens)
    && forall e :: e in fl.topic ==> e.messageId in channels
  }

  lemma PayloadOfInjective(id1: string, c1: Channel, n1: nat, id2: string, c2: Channel, n2: nat)
    requires ColonFree(id1) && ColonFree(id2) && PayloadOf(id1, c1, n1) == PayloadOf(id2, c2, n2)
    ensures id1 == id2 && n1 == n2
  {
    PayloadInjective(id1, ChannelName(c1), n1, id2, ChannelName(c2), n2);
  }

  // ------------------------------------------------------------------- consuming

  /** An event on the topic is its message's only one. */
  lemma EventTells(fl: Flow, i: nat, channel: Channel, token: Token)
    requires i < |fl.topic| && Holds(fl, fl.topic[i].messageId, channel, token)
    ensures token == OnTopic(fl.topic[i].attempt)
    ensures EventsOf(fl.topic, fl.topic[i].messageId) == [fl.topic[i]]
  {
    var e := fl.topic[i];
    assert e in fl.topic && e in EventsOf(fl.topic, e.messageId);
    assert e == EventsOf(fl.topic, e.messageId)[0];
  }

  /** Consuming a message's only event leaves it none, and the others theirs. */
  lemma WithoutEvent(topic: seq<Event>, i: nat, k: string)
    requires i < |topic| && EventsOf(topic, topic[i].messageId) == [topic[i]]
    ensures EventsOf(Without(topic, i), k) == if k == topic[i].messageId then [] else EventsOf(topic, k)
  {
    var e, before, after := topic[i], topic[..i], topic[i + 1..];
    assert topic == (before + [e]) + after;
    AboutConcat(before + [e], after, k, EventId);
    AboutSnoc(before, e, k, EventId);
    AboutConcat(before, after, k, EventId);
    if k == e.messageId {
      var x, y := EventsOf(before, k), EventsOf(after, k);
      assert |x + [e] + y| == 1;
      assert x + y == [];
    }
  }

  /** The queue after an event of `id` was consumed: as it was, or with its next payload. */
  predicate Requeued(before: map<string, int>, after: map<string, int>, id: string, channel: Channel, next: Token) {
    match next
    case Gone => after == before
    case InQueue(n) => PayloadOf(id, channel, n) in after
                       && after == before[PayloadOf(id, channel, n) := after[PayloadOf(id, channel, n)]]
    case OnTopic(_) => false
  }

  lemma ConsumedHolds(fl: Flow, fl': Flow, i: nat, channel: Channel, own: Token, next: Token,
                      k: string, ck: Channel, token: Token)
    requires i < |fl.topic| && Holds(fl, fl.topic[i].messageId, channel, own)
    requires fl'.topic == Without(fl.topic, i)
    requires Requeued(fl.retries, fl'.retries, fl.topic[i].messageId, channel, next)
    requires Holds(fl, k, ck, token) && (k == fl.topic[i].messageId ==> ck == channel)
    ensures Holds(fl', k, ck, if k == fl.topic[i].messageId then next else token)
  {
    EventTells(fl, i, channel, own);
    WithoutEvent(fl.topic, i, k);
  }

  lemma ConsumedOwned(channels: map<string, Channel>, tokens: map<string, Token>, before: map<string, int>,
                      after: map<string, int>, id: string, next: Token)
    requires id in channels && id in tokens && tokens[id].OnTopic?
    requires Requeued(before, after, id, channels[id], next) && AllOwned(before, channels, tokens)
    ensures AllOwned(after, channels, tokens[id := next])
  {
    var tokens' := tokens[id := next];
    forall p | p in after ensures exists k :: OwnedBy(channels, tokens', p, k) {
      if p in before {
        var k :| OwnedBy(channels, tokens, p, k);
        assert OwnedBy(channels, tokens', p, k);
      } else {
        assert OwnedBy(channels, tokens', p, id);
      }
    }
  }

  lemma ConsumedAllHold(fl: Flow, fl': Flow, channels: map<string, Channel>, tokens: map<string, Token>, i: nat,
                        next: Token)
    requires AllHold(fl, channels, tokens) && i < |fl.topic| && fl.topic[i].messageId in channels
    requires fl'.topic == Without(fl.topic, i)
    requires Requeued(fl.retries, fl'.retries, fl.topic[i].messageId, channels[fl.topic[i].messageId], next)
    ensures AllHold(fl', channels, tokens[fl.topic[i].messageId := next])
  {
    var id := fl.topic[i].messageId;
    var tokens' := tokens[id := next];
    assert Holds(fl, id, channels[id], tokens[id]);
    forall k | k in tokens' ensures Holds(fl', k, channels[k], tokens'[k]) {
      assert Holds(fl, k, channels[k], tokens[k]);
      ConsumedHolds(fl, fl', i, channels[id], tokens[id], next, k, channels[k], tokens[k]);
    }
  }

  /** Consuming an event, with or without a retry, moves one token and no other. */
  lemma ConsumeKeeps(fl: Flow, fl': Flow, channels: map<string, Channel>, tokens: map<string, Token>, i: nat,
                     next: Token)
    requires Carries(fl, channels, tokens) && i < |fl.topic| && fl.topic[i].messageId in channels
    requires fl'.topic == Without(fl.topic, i)
    requires Requeued(fl.retries, fl'.retries, fl.topic[i].messageId, channels[fl.topic[i].messageId], next)
    ensures Carries(fl', channels, tokens[fl.topic[i].messageId := next])
  {
    var id := fl.topic[i].messageId;
    assert Holds(fl, id, channels[id], tokens[id]);
    EventTells(fl, i, channels[id], tokens[id]);
    ConsumedAllHold(fl, fl', channels, tokens, i, next);
    ConsumedOwned(channels, tokens, fl.retries, fl'.retries, id, next);
  }

  // --------------------------------------------------------------------- polling

  /** One due payload leaves the queue and becomes an event. */
  function MoveOne(fl: Flow, p: string): Flow {
    Flow(fl.topic + [Republished(Decode(p))], fl.retries - {p})
  }

  function MoveAll(fl: Flow, items: seq<string>): Flow {
    if items == [] then fl else MoveOne(MoveAll(fl, items[..|items| - 1]), items[|items| - 1])
  }

  lemma MoveOneMore(fl: Flow, front: seq<string>, p: string, mid: Flow)
    requires mid == Flow(fl.topic + RepublishAll(front), fl.retries - set q | q in front)
    ensures MoveOne(mid, p) == Flow(fl.topic + RepublishAll(front + [p]), fl.retries - set q | q in front + [p])
  {
    assert (front + [p])[..|front|] == front;
    assert (set q | q in front + [p]) == (set q | q in front) + {p};
    assert mid.retries - {p} == fl.retries - ((set q | q in front) + {p});
    assert fl.topic + RepublishAll(front) + [Republished(Decode(p))] == fl.topic + RepublishAll(front + [p]);
  }

  lemma {:induction false} MoveAllAtOnce(fl: Flow, items: seq<string>)
    ensures MoveAll(fl, items) == Flow(fl.topic + RepublishAll(items), fl.retries - set p | p in items)
  {
    if items == [] {
      assert fl.retries - {} == fl.retries && fl.topic + [] == fl.topic;
    } else {
      var front, p := items[..|items| - 1], items[|items| - 1];
      assert items == front + [p];
      MoveAllAtOnce(fl, front);
      MoveOneMore(fl, front, p, MoveAll(fl, front));
    }
  }

  lemma MovedHolds(fl: Flow, id: string, channel: Channel, attempt: nat, k: string, ck: Channel, token: Token)
    requires Holds(fl, id, channel, InQueue(attempt))
    requires Holds(fl, k, ck, token) && (k == id ==> token == InQueue(attempt))
    ensures Holds(MoveOne(fl, PayloadOf(id, channel, attempt)), k, ck, if k == id then OnTopic(attempt) else token)
  {
    PayloadRoundTrip(id, ChannelName(channel), attempt);
    AboutSnoc(fl.topic, Event(id, attempt), k, EventId);
    assert Republished(Decode(PayloadOf(id, channel, attempt))) == Event(id, attempt);
    if k != id && token.InQueue? && PayloadOf(k, ck, token.attempt) == PayloadOf(id, channel, attempt) {
      PayloadOfInjective(k, ck, token.attempt, id, channel, attempt);
    }
  }

  lemma MovedAllHold(fl: Flow, channels: map<string, Channel>, tokens: map<string, Token>, p: string, id: string)
    requires AllHold(fl, channels, tokens) && OwnedBy(channels, tokens, p, id)
    ensures AllHold(MoveOne(fl, p), channels, tokens[id := OnTopic(tokens[id].attempt)])
  {
    var n := tokens[id].attempt;
    var tokens' := tokens[id := OnTopic(n)];
    assert Holds(fl, id, channels[id], tokens[id]);
    forall k | k in tokens' ensures Holds(MoveOne(fl, p), k, channels[k], tokens'[k]) {
      assert Holds(fl, k, channels[k], tokens[k]);
      MovedHolds(fl, id, channels[id], n, k, channels[k], tokens[k]);
    }
  }

  lemma MovedAllOwned(fl: Flow, channels: map<string, Channel>, tokens: map<string, Token>, p: string, id: string)
    requires AllHold(fl, channels, tokens) && AllOwned(fl.retries, channels, tokens) && OwnedBy(channels, tokens, p, id)
    ensures AllOwned(fl.retries - {p}, channels, tokens[id := OnTopic(tokens[id].attempt)])
  {
    var tokens' := tokens[id := OnTopic(tokens[id].attempt)];
    forall q | q in fl.retries - {p} ensures exists k :: OwnedBy(channels, tokens', q, k) {
      var k :| OwnedBy(channels, tokens, q, k);
      assert OwnedBy(channels, tokens', q, k);
    }
  }

  lemma MoveOneKeeps(fl: Flow, channels: map<string, Channel>, tokens: map<string, Token>, p: string)
    returns (tokens': map<string, Token>)
    requires Carries(fl, channels, tokens) && p in fl.retries
    ensures Carries(MoveOne(fl, p), channels, tokens') && Moved(tokens, tokens')
  {
    var id :| OwnedBy(channels, tokens, p, id);
    tokens' := tokens[id := OnTopic(tokens[id].attempt)];
    MovedAllHold(fl, channels, tokens, p, id);
    MovedAllOwned(fl, channels, tokens, p, id);
    PayloadRoundTrip(id, ChannelName(channels[id]), tokens[id].attempt);
  }

  /** A token that a poll moved, or did not. */
  predicate SameOrMoved(before: Token, after: Token) {
    after == before || (before.InQueue? && after == OnTopic(before.attempt))
  }

  ghost predicate Moved(tokens: map<string, Token>, tokens': map<string, Token>) {
    tokens'.Keys == tokens.Keys && forall id :: id in tokens ==> SameOrMoved(tokens[id], tokens'[id])
  }

  lemma MovedTransitive(a: map<string, Token>, b: map<string, Token>, c: map<string, Token>)
    requires Moved(a, b) && Moved(b, c)
    ensures Moved(a, c)
  {
  }

  lemma LastStillQueued(fl: Flow, items: seq<string>)
    requires items != [] && items[|items| - 1] in fl.retries
    requires forall i, j :: 0 <= i < j < |items| ==> items[i] != items[j]
    ensures items[|items| - 1] in MoveAll(fl, items[..|items| - 1]).retries
  {
    MoveAllAtOnce(fl, items[..|items| - 1]);
    assert items[|items| - 1] !in items[..|items| - 1];
  }

  lemma {:induction false} MoveAllKeeps(fl: Flow, channels: map<string, Channel>, tokens: map<string, Token>,
                                        items: seq<string>)
    returns (tokens': map<string, Token>)
    requires Carries(fl, channels, tokens)
    requires forall i :: 0 <= i < |items| ==> items[i] in fl.retries
    requires forall i, j :: 0 <= i < j < |items| ==> items[i] != items[j]
    ensures Carries(MoveAll(fl, items), channels, tokens') && Moved(tokens, tokens')
  {
    if items == [] {
      tokens' := tokens;
    } else {
      var front, p := items[..|items| - 1], items[|items| - 1];
      var mid := MoveAllKeeps(fl, channels, tokens, front);
      LastStillQueued(fl, items);
      tokens' := MoveOneKeeps(MoveAll(fl, front), channels, mid, p);
      MovedTransitive(tokens, mid, tokens');
    }
  }

  lemma PolledIsMoveAll(fl: Flow, now: int, items: seq<string>)
    requires Enumerates(items, Due(fl.retries, now))
    ensures Polled(fl, now, items) == MoveAll(fl, items)
    ensures forall i :: 0 <= i < |items| ==> items[i] in fl.retries
    ensures forall i, j :: 0 <= i < j < |items| ==> items[i] != items[j]
  {
    forall i | 0 <= i < |items| ensures items[i] in fl.retries {
      assert items[i] in items;
    }
    MoveAllAtOnce(fl, items);
    assert (set p | p in items) == Due(fl.retries, now);
  }

  /** A poll turns due payloads into events and disturbs no other message. */
  lemma PollKeeps(fl: Flow, channels: map<string, Channel>, tokens: map<string, Token>, now: int, items: seq<string>)
    returns (tokens': map<string, Token>)
    requires Carries(fl, channels, tokens) && Enumerates(items, Due(fl.retries, now))
    ensures Carries(Polled(fl, now, items), channels, tokens') && Moved(tokens, tokens')
  {
    PolledIsMoveAll(fl, now, items);
    tokens' := MoveAllKeeps(fl, channels, tokens, items);
  }

  /** Every set of payloads can be listed. */
  lemma {:induction false} SomeOrder(payloads: set<string>) returns (items: seq<string>)
    ensures Enumerates(items, payloads)
    decreases payloads
  {
    if payloads == {} {
      items := [];
    } else {
      var p :| p in payloads;
      var front := SomeOrder(payloads - {p});
      items := front + [p];
    }
  }

  // ------------------------------------------------------------------- main result

  lemma QueuedIsOwn(p: string, id: string, channel: Channel, token: Token, k: string, ck: Channel, n: nat)
    requires ColonFree(id) && ColonFree(k) && p == PayloadOf(k, ck, n)
    requires k == id ==> ck == channel && token == InQueue(n)
    ensures Decode(p).messageId == id <==> token.InQueue? && p == PayloadOf(id, channel, token.attempt)
  {
    PayloadRoundTrip(k, ChannelName(ck), n);
    if token.InQueue? {
      PayloadRoundTrip(id, ChannelName(channel), token.attempt);
    }
  }

  /** One attempt at most is pending: a message has an event, or a payload, or
      neither, as its token says. */
  lemma OnePending(fl: Flow, channels: map<string, Channel>, tokens: map<string, Token>, id: string)
    requires Carries(fl, channels, tokens) && id in channels
    ensures EventsOf(fl.topic, id) == if tokens[id].OnTopic? then [Event(id, tokens[id].attempt)] else []
    ensures QueuedFor(fl.retries, id) ==
            if tokens[id].InQueue? then {PayloadOf(id, channels[id], tokens[id].attempt)} else {}
  {
    var token := tokens[id];
    assert Holds(fl, id, channels[id], token);
    forall p | p in fl.retries
      ensures Decode(p).messageId == id <==> token.InQueue? && p == PayloadOf(id, channels[id], token.attempt)
    {
      var k :| OwnedBy(channels, tokens, p, k);
      assert Holds(fl, k, channels[k], tokens[k]);
      QueuedIsOwn(p, id, channels[id], token, k, channels[k], tokens[k].attempt);
    }
  }
}
