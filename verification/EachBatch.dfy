/** The eachBatch handler: parse, check, insert, process, and resolve the offset
    only when every message of the batch succeeded or was a duplicate. */
module EachBatch {
  import opened Wrappers
  import opened Text
  import opened Store
  import opened Delivery
  import opened Batch
  import DeliveryCases

  /** `attempt` as it may come out of the JSON. */
  datatype RawAttempt = Absent | Number(n: nat) | Textual(s: string)

  datatype Raw = Raw(messageId: string, tenantId: string, idempotencyKey: Option<string>, dedupKey: string,
                     userId: string, channel: Channel, recipient: string, body: string, attempt: RawAttempt)

  function ParsedAttempt(a: RawAttempt): nat {
    match a
    case Absent => 0
    case Number(n) => n
    case Textual(s) => var v := ParseInt(s); if v.Some? && v.value > 0 then v.value else 0
  }

  /** An absent or empty idempotency key falls back to the dedup key. */
  function Parse(r: Raw): Message {
    Message(r.messageId, r.tenantId,
            if r.idempotencyKey.Some? && r.idempotencyKey.value != "" then r.idempotencyKey.value else r.dedupKey,
            r.dedupKey, r.userId, r.channel, r.recipient, r.body, ParsedAttempt(r.attempt))
  }

  function ParseAll(raws: seq<Raw>): (r: seq<Message>)
    ensures |r| == |raws| && forall i :: 0 <= i < |raws| ==> r[i] == Parse(raws[i])
  {
    seq(|raws|, i requires 0 <= i < |raws| => Parse(raws[i]))
  }

  /** What the handler takes from an event, field by field. */
  lemma ParseIs(r: Raw)
    ensures var m := Parse(r);
            && m.messageId == r.messageId && m.tenantId == r.tenantId && m.dedupKey == r.dedupKey
            && m.userId == r.userId && m.channel == r.channel && m.recipient == r.recipient && m.body == r.body
            && (r.idempotencyKey == None || r.idempotencyKey == Some("") ==> m.idempotencyKey == r.dedupKey)
            && (r.idempotencyKey != None && r.idempotencyKey != Some("") ==> Some(m.idempotencyKey) == r.idempotencyKey)
            && (r.attempt == Absent ==> m.attempt == 0)
            && (r.attempt.Number? ==> m.attempt == r.attempt.n)
  {
  }

  /** An attempt that comes as text is read as a number, and counts as 0 when it is none. */
  lemma TextualAttempt(d: string, rest: string)
    requires AllDigits(d) && (rest == [] || !IsDigit(rest[0]))
    requires d != [] || rest == [] || !(rest[0] == '-' || rest[0] == '+' || IsSpace(rest[0]))
    ensures ParsedAttempt(Textual(d + rest)) == if d == [] then 0 else Value(d)
  {
    ParseIntIs([], d, rest);
    assert [] + (d + rest) == d + rest;
  }

  /** Outcomes of the statements of a pass before any message is processed. */
  datatype Prelude = Prelude(check: Outcome, begin: Outcome, failAt: Option<nat>, commit: Outcome)

  /** Outcomes and clocks while one message is processed. */
  datatype Turn = Turn(f: Faults, t: Times)

  // ------------------------------------------------------------- specification

  ghost function SkippedIds(t: Table, batch: seq<Message>): set<string> {
    set m | m in Chosen(t, batch, batch, true) :: m.messageId
  }

  predicate Ok(r: Return) { r.Returned? && (r.success || r.isDuplicate) }

  /** The processing loop; `true` for a message that succeeded or was skipped. */
  ghost function ProcessAll(s: State, ms: seq<Message>, skip: set<string>, turns: seq<Turn>): (State, bool)
    requires |turns| == |ms|
  {
    if ms == [] then (s, true)
    else
      var n := |ms| - 1;
      var (s1, allOk) := ProcessAll(s, ms[..n], skip, turns[..n]);
      if ms[n].messageId in skip then (s1, allOk)
      else
        var (s2, r) := Deliver(s1, ms[n], turns[n].f, turns[n].t);
        (s2, allOk && Ok(r))
  }

  predicate InsertThrows(p: Prelude, count: nat) {
    count > 0 && (p.begin.Throws() || (p.failAt.Some? && p.failAt.value < count) || p.commit.Throws())
  }

  predicate Commits(p: Prelude, count: nat) {
    count > 0 && p.begin.Done? && !(p.failAt.Some? && p.failAt.value < count) && p.commit.Lands()
  }

  ghost function NewOnes(s: State, batch: seq<Message>): seq<Message> {
    Chosen(s.rows, batch, batch, false)
  }

  ghost function AfterInsert(s: State, batch: seq<Message>, p: Prelude): State {
    var added := NewOnes(s, batch);
    if Commits(p, |added|) then s.(rows := InsertAll(s.rows, added).0) else s
  }

  /** A pass over a batch: the new state, and whether the offset is resolved.  An
      empty batch has no last message, so nothing is resolved for it. */
  ghost function Pass(s: State, batch: seq<Message>, p: Prelude, turns: seq<Turn>): (State, bool)
    requires |turns| == |batch|
  {
    if batch == [] || p.check.Throws() then (s, false)
    else
      var s1 := AfterInsert(s, batch, p);
      if InsertThrows(p, |NewOnes(s, batch)|) then (s1, false)
      else ProcessAll(s1, batch, SkippedIds(s.rows, batch), turns)
  }

  // ------------------------------------------------------------------- class

  class BatchConsumer {
    const db: Backend
    const idempotency: BatchIdempotencyService
    const processor: DeliveryProcessor

    ghost predicate Wired() {
      idempotency.db == db && processor.db == db && processor.Wired()
    }

    constructor (db: Backend)
      ensures this.db == db && Wired()
    {
      this.db := db;
      idempotency := new BatchIdempotencyService(db);
      processor := new DeliveryProcessor(db);
    }

    method HandleBatch(messages: seq<Raw>, p: Prelude, turns: seq<Turn>) returns (resolved: bool)
      requires Wired() && |turns| == |messages|
      modifies db
      ensures (db.Snapshot(), resolved) == Pass(old(db.Snapshot()), ParseAll(messages), p, turns)
    {
      var parsed := ParseAll(messages);
      ghost var s := db.Snapshot();
      var threw, split := idempotency.CheckBatchIdempotency(parsed, p.check);
      if threw || parsed == [] {
        return false;
      }
      if |split.newMessages| > 0 {
        var insertThrew, _ := idempotency.InsertNewMessagesInProgress(split.newMessages, p.begin, p.failAt, p.commit);
        if insertThrew {
          return false;
        }
      }
      assert db.Snapshot() == AfterInsert(s, parsed, p);
      resolved := ProcessMessages(parsed, split.duplicates, Chosen(s.rows, parsed, parsed, true), turns);
    }

    method ProcessMessages(parsed: seq<Message>, duplicates: seq<Duplicate>, ghost known: seq<Message>,
                           turns: seq<Turn>)
      returns (allSuccessful: bool)
      requires Wired() && |turns| == |parsed| && |duplicates| == |known|
      requires forall i :: 0 <= i < |known| ==> duplicates[i].messageId == known[i].messageId
      modifies db
      ensures (db.Snapshot(), allSuccessful) ==
              ProcessAll(old(db.Snapshot()), parsed, set m | m in known :: m.messageId, turns)
    {
      ghost var skip := set m | m in known :: m.messageId;
      ghost var s := db.Snapshot();
      var processedResults: seq<Return> := [];
      for i := 0 to |parsed|
        invariant |processedResults| == i
        invariant (db.Snapshot(), forall r :: r in processedResults ==> Ok(r)) ==
                  ProcessAll(s, parsed[..i], skip, turns[..i])
      {
        assert parsed[..i + 1][..i] == parsed[..i] && turns[..i + 1][..i] == turns[..i];
        var isDuplicate := exists d :: d in duplicates && d.messageId == parsed[i].messageId;
        assert isDuplicate <==> parsed[i].messageId in skip;
        if isDuplicate {
          processedResults := processedResults + [DUPLICATE];
        } else {
          var r := processor.ProcessDelivery(parsed[i], turns[i].f, turns[i].t);
          processedResults := processedResults + [r];
        }
      }
      assert parsed[..|parsed|] == parsed && turns[..|parsed|] == turns;
      allSuccessful := forall r :: r in processedResults ==> Ok(r);
    }
  }

  // ---------------------------------------------------------------- offset safety

  lemma ProcessSnoc(s: State, ms: seq<Message>, skip: set<string>, turns: seq<Turn>)
    requires ms != [] && |turns| == |ms|
    ensures var n := |ms| - 1;
            var (s1, allOk) := ProcessAll(s, ms[..n], skip, turns[..n]);
            ProcessAll(s, ms, skip, turns) ==
            if ms[n].messageId in skip then (s1, allOk)
            else (Deliver(s1, ms[n], turns[n].f, turns[n].t).0,
                  allOk && Ok(Deliver(s1, ms[n], turns[n].f, turns[n].t).1))
  {
  }

  /** Rows keep their identity, and no row appears or goes, while messages are processed. */
  ghost predicate SameRows(t: Table, t': Table) {
    t'.Keys == t.Keys && forall id :: id in t ==> SameIdentity(t[id], t'[id])
  }

  lemma {:induction false} ProcessKeepsRows(s: State, ms: seq<Message>, skip: set<string>, turns: seq<Turn>)
    requires |turns| == |ms|
    ensures SameRows(s.rows, ProcessAll(s, ms, skip, turns).0.rows)
  {
    if ms == [] {
    } else {
      var n := |ms| - 1;
      ProcessKeepsRows(s, ms[..n], skip, turns[..n]);
      ProcessSnoc(s, ms, skip, turns);
      var s1 := ProcessAll(s, ms[..n], skip, turns[..n]).0;
      DeliverTouches(s1, ms[n], turns[n].f, turns[n].t);
    }
  }

  /** A call that ends well delivers its own message and undoes no other. */
  lemma GoodCallKeeps(s: State, m: Message, f: Faults, t: Times)
    ensures var (s', r) := Deliver(s, m, f, t);
            && (Ok(r) ==> Delivered(s'.rows, m.messageId))
            && (forall id :: Delivered(s.rows, id) && id != m.messageId ==> Delivered(s'.rows, id))
  {
    DeliverTouches(s, m, f, t);
    SuccessDelivers(s, m, f, t);
  }

  ghost predicate AllDelivered(t: Table, ms: seq<Message>, skip: set<string>) {
    forall m :: m in ms && m.messageId !in skip ==> Delivered(t, m.messageId)
  }

  /** One more turn of the loop, which skips the message or ends well. */
  lemma GoodTurnDelivers(s: State, s': State, front: seq<Message>, m: Message, skip: set<string>, turn: Turn)
    requires AllDelivered(s.rows, front, skip)
    requires s' == if m.messageId in skip then s else Deliver(s, m, turn.f, turn.t).0
    requires m.messageId in skip || Ok(Deliver(s, m, turn.f, turn.t).1)
    ensures AllDelivered(s'.rows, front + [m], skip)
  {
    if m.messageId !in skip {
      GoodCallKeeps(s, m, turn.f, turn.t);
    }
  }

  /** If the loop ends well, every message it did not skip is delivered at its end:
      a later message cannot have undone an earlier one. */
  lemma {:induction false} AllOkDelivers(s: State, ms: seq<Message>, skip: set<string>, turns: seq<Turn>)
    requires |turns| == |ms| && ProcessAll(s, ms, skip, turns).1
    ensures AllDelivered(ProcessAll(s, ms, skip, turns).0.rows, ms, skip)
  {
    if ms == [] {
    } else {
      var n := |ms| - 1;
      assert ms == ms[..n] + [ms[n]];
      ProcessSnoc(s, ms, skip, turns);
      AllOkDelivers(s, ms[..n], skip, turns[..n]);
      var s1, s' := ProcessAll(s, ms[..n], skip, turns[..n]).0, ProcessAll(s, ms, skip, turns).0;
      GoodTurnDelivers(s1, s', ms[..n], ms[n], skip, turns[n]);
    }
  }

  /** Offset safety: whenever a pass resolves the offset, for any faults, each
      message of the batch is delivered at the end, or shares its message id with one
      that the check found in the table. */
  lemma OffsetSafe(s: State, batch: seq<Message>, p: Prelude, turns: seq<Turn>, m: Message)
    requires |turns| == |batch| && Pass(s, batch, p, turns).1 && m in batch
    ensures Delivered(Pass(s, batch, p, turns).0.rows, m.messageId)
            || exists m' :: m' in batch && m'.messageId == m.messageId && Known(s.rows, batch, m')
  {
    var skip := SkippedIds(s.rows, batch);
    AllOkDelivers(AfterInsert(s, batch, p), batch, skip, turns);
    if m.messageId in skip {
      var m' :| m' in Chosen(s.rows, batch, batch, true) && m'.messageId == m.messageId;
    }
  }

  /** A message id stands for one message. */
  ghost predicate IdsIdentify(batch: seq<Message>) {
    forall m1, m2 :: m1 in batch && m2 in batch && m1.messageId == m2.messageId ==> m1 == m2
  }

  /** So with colon-free tenants and ids that identify messages: every message of a
      resolved batch is delivered, or its own key had a row at check time. */
  lemma OffsetSafeByKey(s: State, batch: seq<Message>, p: Prelude, turns: seq<Turn>, m: Message)
    requires |turns| == |batch| && Pass(s, batch, p, turns).1 && m in batch
    requires ColonFreeTenants(batch) && IdsIdentify(batch)
    ensures Delivered(Pass(s, batch, p, turns).0.rows, m.messageId) || HasKey(s.rows, KeyOf(m))
  {
    OffsetSafe(s, batch, p, turns, m);
    FirstIsOwn(batch, m);
  }

  // ------------------------------------------------------------------------ replay

  /** The check finds nothing new exactly when every message is known. */
  lemma {:induction false} NothingNewIff(t: Table, batch: seq<Message>, part: seq<Message>)
    ensures Chosen(t, batch, part, false) == [] <==> forall m :: m in part ==> Known(t, batch, m)
  {
    if part == [] {
    } else {
      var n := |part| - 1;
      NothingNewIff(t, batch, part[..n]);
      assert part == part[..n] + [part[n]];
    }
  }

  lemma {:induction false} SkipAll(s: State, ms: seq<Message>, skip: set<string>, turns: seq<Turn>)
    requires |turns| == |ms| && forall m :: m in ms ==> m.messageId in skip
    ensures ProcessAll(s, ms, skip, turns) == (s, true)
  {
    if ms == [] {
    } else {
      SkipAll(s, ms[..|ms| - 1], skip, turns[..|ms| - 1]);
    }
  }

  lemma AllSkipped(t: Table, batch: seq<Message>)
    requires forall m :: m in batch ==> Known(t, batch, m)
    ensures forall m :: m in batch ==> m.messageId in SkippedIds(t, batch)
  {
  }

  lemma PassProcesses(s: State, batch: seq<Message>, p: Prelude, turns: seq<Turn>, skip: set<string>)
    requires |turns| == |batch| && batch != [] && p.check.Done? && NewOnes(s, batch) == []
    requires skip == SkippedIds(s.rows, batch)
    ensures Pass(s, batch, p, turns) == ProcessAll(s, batch, skip, turns)
  {
  }

  lemma NothingNew(s: State, batch: seq<Message>)
    requires forall m :: m in batch ==> Known(s.rows, batch, m)
    ensures NewOnes(s, batch) == []
  {
    NothingNewIff(s.rows, batch, batch);
  }

  /** When every key of a batch has its row, a pass does nothing but resolve the
      offset: no insert, no provider call, no change anywhere. */
  lemma ReplayIsNoOp(s: State, batch: seq<Message>, p: Prelude, turns: seq<Turn>)
    requires |turns| == |batch| && batch != [] && p.check.Done?
    requires forall m :: m in batch ==> Known(s.rows, batch, m)
    ensures Pass(s, batch, p, turns) == (s, true)
  {
    NothingNew(s, batch);
    AllSkipped(s.rows, batch);
    var skip := SkippedIds(s.rows, batch);
    PassProcesses(s, batch, p, turns, skip);
    SkipAll(s, batch, skip, turns);
  }

  lemma HasKeyStays(t: Table, t': Table, key: Key)
    requires HasKey(t, key) && forall id :: id in t ==> id in t' && RowKey(t'[id]) == RowKey(t[id])
    ensures HasKey(t', key)
  {
  }

  /** Nothing was to be inserted, or the insert took effect, whether or not its
      commit was acknowledged. */
  ghost predicate Committed(s: State, batch: seq<Message>, p: Prelude) {
    NewOnes(s, batch) == [] || Commits(p, |NewOnes(s, batch)|)
  }

  /** The state when a pass is cut short after the insert: its loop has got through
      the first `k` messages. */
  ghost function Cut(s: State, batch: seq<Message>, p: Prelude, turns: seq<Turn>, k: nat): State
    requires k <= |turns| == |batch|
  {
    ProcessAll(AfterInsert(s, batch, p), batch[..k], SkippedIds(s.rows, batch), turns[..k]).0
  }

  /** A pass that committed ends in such a state: before the first message if its
      commit was not acknowledged, after the last one otherwise. */
  lemma PassIsCut(s: State, batch: seq<Message>, p: Prelude, turns: seq<Turn>)
    requires |turns| == |batch| && batch != [] && p.check.Done?
    ensures Pass(s, batch, p, turns).0 ==
            Cut(s, batch, p, turns, if InsertThrows(p, |NewOnes(s, batch)|) then 0 else |batch|)
  {
    assert batch[..|batch|] == batch && turns[..|batch|] == turns;
  }

  /** After the insert took effect every key of the batch has a row, wherever the
      pass was cut short, and however its deliveries went. */
  lemma CommittedPassCovers(s: State, batch: seq<Message>, p: Prelude, turns: seq<Turn>, k: nat, m: Message)
    requires k <= |turns| == |batch| && ColonFreeTenants(batch) && m in batch
    requires KeysDecide(s.rows, NewOnes(s, batch)) && Committed(s, batch, p)
    ensures HasKey(AfterInsert(s, batch, p).rows, KeyOf(m))
    ensures HasKey(Cut(s, batch, p, turns, k).rows, KeyOf(m))
  {
    var added := NewOnes(s, batch);
    var s1 := AfterInsert(s, batch, p);
    InsertCovers(s.rows, added);
    FirstIsOwn(batch, m);
    if HasKey(s.rows, KeyOf(m)) {
      HasKeyStays(s.rows, s1.rows, KeyOf(m));
    } else {
      assert m in added;
    }
    ProcessKeepsRows(s1, batch[..k], SkippedIds(s.rows, batch), turns[..k]);
    HasKeyStays(s1.rows, Cut(s, batch, p, turns, k).rows, KeyOf(m));
  }

  /** Replay after an insert that took effect, wherever the first pass was cut
      short: the second pass changes nothing and resolves the offset. */
  lemma ReplayAfterCut(s: State, batch: seq<Message>, p: Prelude, turns: seq<Turn>, k: nat,
                       p2: Prelude, turns2: seq<Turn>)
    requires k <= |turns| == |turns2| == |batch| && batch != [] && ColonFreeTenants(batch)
    requires KeysDecide(s.rows, NewOnes(s, batch)) && Committed(s, batch, p) && p2.check.Done?
    ensures var s' := Cut(s, batch, p, turns, k); Pass(s', batch, p2, turns2) == (s', true)
  {
    var s' := Cut(s, batch, p, turns, k);
    forall m | m in batch ensures Known(s'.rows, batch, m) {
      CommittedPassCovers(s, batch, p, turns, k, m);
      FirstIsOwn(batch, m);
    }
    ReplayIsNoOp(s', batch, p2, turns2);
  }

  /** So a pass whose insert took effect, even if its commit threw, is replayed for
      nothing, whatever its deliveries came to. */
  lemma ReplayAfterPass(s: State, batch: seq<Message>, p: Prelude, turns: seq<Turn>, p2: Prelude, turns2: seq<Turn>)
    requires |turns| == |turns2| == |batch| && batch != [] && ColonFreeTenants(batch)
    requires KeysDecide(s.rows, NewOnes(s, batch)) && Committed(s, batch, p)
    requires p.check.Done? && p2.check.Done?
    ensures var s' := Pass(s, batch, p, turns).0; Pass(s', batch, p2, turns2) == (s', true)
  {
    PassIsCut(s, batch, p, turns);
    ReplayAfterCut(s, batch, p, turns, if InsertThrows(p, |NewOnes(s, batch)|) then 0 else |batch|, p2, turns2);
  }

  // -------------------------------------------------------- what a pass sends

  /** Message ids are distinct, and no new message's id has a row. */
  ghost predicate FreshIds(t: Table, batch: seq<Message>) {
    && DistinctIds(batch)
    && (forall m :: m in Chosen(t, batch, batch, false) ==> m.messageId !in t)
  }

  ghost predicate StatusReadable(turns: seq<Turn>) {
    forall i :: 0 <= i < |turns| ==> turns[i].f.getStatus.Done?
  }

  /** `calls'` extends `calls` by one call for each message, in order. */
  ghost predicate SentFor(calls: seq<Call>, calls': seq<Call>, ms: seq<Message>) {
    && |calls'| == |calls| + |ms| && calls <= calls'
    && forall k :: 0 <= k < |ms| ==>
                     calls'[|calls| + k].messageId == ms[k].messageId && calls'[|calls| + k].number == ms[k].attempt + 1
  }

  lemma DistinctIdentify(t: Table, batch: seq<Message>)
    requires FreshIds(t, batch)
    ensures IdsIdentify(batch)
    ensures forall m :: m in batch ==> (m.messageId in SkippedIds(t, batch) <==> Known(t, batch, m))
  {
    forall m1, m2 | m1 in batch && m2 in batch && m1.messageId == m2.messageId ensures m1 == m2 {
      var i :| 0 <= i < |batch| && batch[i] == m1;
      var j :| 0 <= j < |batch| && batch[j] == m2;
      assert i == j;
    }
    forall m | m in batch && Known(t, batch, m) ensures m.messageId in SkippedIds(t, batch) {
      assert m in Chosen(t, batch, batch, true);
    }
  }

  /** Processing other messages leaves a message's row alone and makes no call for it. */
  lemma {:induction false} OthersSpare(s: State, ms: seq<Message>, skip: set<string>, turns: seq<Turn>, id: string)
    requires |turns| == |ms| && forall m :: m in ms ==> m.messageId != id
    ensures var s' := ProcessAll(s, ms, skip, turns).0;
            && (id in s'.rows <==> id in s.rows) && (id in s.rows && id in s'.rows ==> s'.rows[id] == s.rows[id])
            && s.calls <= s'.calls && forall i :: |s.calls| <= i < |s'.calls| ==> s'.calls[i].messageId != id
  {
    if ms == [] {
    } else {
      var n := |ms| - 1;
      OthersSpare(s, ms[..n], skip, turns[..n], id);
      ProcessSnoc(s, ms, skip, turns);
      DeliverTouches(ProcessAll(s, ms[..n], skip, turns[..n]).0, ms[n], turns[n].f, turns[n].t);
    }
  }

  /** Processing other messages queues nothing a poll would read back as this one. */
  lemma {:induction false} OthersQueueNothing(s: State, ms: seq<Message>, skip: set<string>, turns: seq<Turn>,
                                              id: string)
    requires |turns| == |ms| && forall m :: m in ms ==> m.messageId != id && ColonFree(m.messageId)
    ensures SameQueue(s, ProcessAll(s, ms, skip, turns).0, id)
  {
    if ms == [] {
    } else {
      var n := |ms| - 1;
      OthersQueueNothing(s, ms[..n], skip, turns[..n], id);
      ProcessSnoc(s, ms, skip, turns);
      DeliverTouches(ProcessAll(s, ms[..n], skip, turns[..n]).0, ms[n], turns[n].f, turns[n].t);
      PayloadRoundTrip(ms[n].messageId, ChannelName(ms[n].channel), ms[n].attempt + 2);
    }
  }

  ghost predicate SameQueue(s: State, s': State, id: string) {
    forall p :: Decode(p).messageId == id ==> (p in s'.retries <==> p in s.retries)
  }

  /** A message without a delivered row, whose status can be read, is sent. */
  lemma UndeliveredIsSent(s: State, m: Message, f: Faults, t: Times)
    requires !Delivered(s.rows, m.messageId) && f.getStatus.Done?
    ensures Deliver(s, m, f, t).0.calls == s.calls + [Call(m.messageId, m.attempt + 1, t.send, f.send.Done?)]
  {
    ProviderCalledIff(s, m, f, t);
  }

  /** One more call, for a message that is not delivered. */
  lemma SendExtends(calls: seq<Call>, s: State, m: Message, f: Faults, t: Times, ms: seq<Message>)
    requires SentFor(calls, s.calls, ms) && !Delivered(s.rows, m.messageId) && f.getStatus.Done?
    ensures SentFor(calls, Deliver(s, m, f, t).0.calls, ms + [m])
  {
    UndeliveredIsSent(s, m, f, t);
  }

  lemma EarlierIdsDiffer(t: Table, batch: seq<Message>, n: nat)
    requires n < |batch| && FreshIds(t, batch)
    ensures forall m :: m in batch[..n] ==> m.messageId != batch[n].messageId
  {
    forall m | m in batch[..n] ensures m.messageId != batch[n].messageId {
      var i :| 0 <= i < n && batch[i] == m;
    }
  }

  /** Before its turn a new message is not delivered. */
  lemma StaysUndelivered(s: State, t: Table, batch: seq<Message>, n: nat, skip: set<string>, turns: seq<Turn>)
    requires n < |batch| && |turns| == n && FreshIds(t, batch) && !Delivered(s.rows, batch[n].messageId)
    ensures !Delivered(ProcessAll(s, batch[..n], skip, turns).0.rows, batch[n].messageId)
  {
    EarlierIdsDiffer(t, batch, n);
    OthersSpare(s, batch[..n], skip, turns, batch[n].messageId);
  }

  /** The messages a loop over `ms` does not skip. */
  function Unskipped(ms: seq<Message>, skip: set<string>): (r: seq<Message>)
    ensures forall m :: m in r <==> m in ms && m.messageId !in skip
  {
    if ms == [] then []
    else
      var front, m := Unskipped(ms[..|ms| - 1], skip), ms[|ms| - 1];
      if m.messageId in skip then front else front + [m]
  }

  lemma UnskippedSnoc(front: seq<Message>, m: Message, skip: set<string>)
    ensures Unskipped(front + [m], skip) ==
            if m.messageId in skip then Unskipped(front, skip) else Unskipped(front, skip) + [m]
  {
    assert (front + [m])[..|front|] == front;
  }

  /** With distinct ids, the loop skips just the duplicates. */
  lemma {:induction false} UnskippedAreNew(t: Table, batch: seq<Message>, part: seq<Message>)
    requires FreshIds(t, batch) && forall m :: m in part ==> m in batch
    ensures Unskipped(part, SkippedIds(t, batch)) == Chosen(t, batch, part, false)
  {
    DistinctIdentify(t, batch);
    if part == [] {
    } else {
      UnskippedAreNew(t, batch, part[..|part| - 1]);
      assert part[|part| - 1] in part;
    }
  }

  /** One more turn of the loop, which skips the message or delivers it. */
  lemma TurnSends(calls: seq<Call>, s: State, s': State, front: seq<Message>, m: Message, skip: set<string>, turn: Turn)
    requires SentFor(calls, s.calls, Unskipped(front, skip)) && turn.f.getStatus.Done?
    requires s' == if m.messageId in skip then s else Deliver(s, m, turn.f, turn.t).0
    requires m.messageId in skip || !Delivered(s.rows, m.messageId)
    ensures SentFor(calls, s'.calls, Unskipped(front + [m], skip))
  {
    UnskippedSnoc(front, m, skip);
    if m.messageId !in skip {
      SendExtends(calls, s, m, turn.f, turn.t, Unskipped(front, skip));
    }
  }

  lemma {:induction false} LoopSends(s: State, t: Table, batch: seq<Message>, k: nat, skip: set<string>,
                                     turns: seq<Turn>)
    requires |turns| == k <= |batch| && FreshIds(t, batch) && StatusReadable(turns)
    requires forall m :: m in batch && m.messageId !in skip ==> !Delivered(s.rows, m.messageId)
    ensures SentFor(s.calls, ProcessAll(s, batch[..k], skip, turns).0.calls, Unskipped(batch[..k], skip))
  {
    if k == 0 {
    } else {
      var n, m := k - 1, batch[k - 1];
      assert batch[..k][..n] == batch[..n] && batch[..k] == batch[..n] + [m];
      LoopSends(s, t, batch, n, skip, turns[..n]);
      ProcessSnoc(s, batch[..k], skip, turns);
      if m.messageId !in skip {
        StaysUndelivered(s, t, batch, n, skip, turns[..n]);
      }
      TurnSends(s.calls, ProcessAll(s, batch[..n], skip, turns[..n]).0, ProcessAll(s, batch[..k], skip, turns).0,
                batch[..n], m, skip, turns[n]);
    }
  }

  lemma InsertedUndelivered(s: State, batch: seq<Message>, p: Prelude, m: Message)
    requires m.messageId !in s.rows
    ensures !Delivered(AfterInsert(s, batch, p).rows, m.messageId)
  {
    var added := NewOnes(s, batch);
    InsertCreates(s.rows, added);
    var (t', results) := InsertAll(s.rows, added);
    if m.messageId in t' {
      var i :| CreatedBy(t', added, results, i, m.messageId);
    }
  }

  lemma NoneDeliveredYet(s: State, batch: seq<Message>, p: Prelude)
    requires FreshIds(s.rows, batch)
    ensures forall m :: m in batch && m.messageId !in SkippedIds(s.rows, batch) ==>
                          !Delivered(AfterInsert(s, batch, p).rows, m.messageId)
  {
    DistinctIdentify(s.rows, batch);
    forall m | m in NewOnes(s, batch) ensures !Delivered(AfterInsert(s, batch, p).rows, m.messageId) {
      InsertedUndelivered(s, batch, p, m);
    }
  }

  lemma CutSends(s: State, batch: seq<Message>, p: Prelude, turns: seq<Turn>, k: nat)
    requires k <= |turns| == |batch| && FreshIds(s.rows, batch) && StatusReadable(turns)
    ensures SentFor(s.calls, Cut(s, batch, p, turns, k).calls, Chosen(s.rows, batch, batch[..k], false))
  {
    var skip, s1 := SkippedIds(s.rows, batch), AfterInsert(s, batch, p);
    assert s1.calls == s.calls;
    NoneDeliveredYet(s, batch, p);
    UnskippedAreNew(s.rows, batch, batch[..k]);
    assert StatusReadable(turns[..k]);
    LoopSends(s1, s.rows, batch, k, skip, turns[..k]);
  }

  /** A pass calls the provider exactly once for each new message, in batch order,
      whatever else fails; for message ids that are distinct and fresh. */
  lemma PassSends(s: State, batch: seq<Message>, p: Prelude, turns: seq<Turn>)
    requires |turns| == |batch| && FreshIds(s.rows, batch) && StatusReadable(turns)
    requires p.check.Done? && !InsertThrows(p, |NewOnes(s, batch)|)
    ensures SentFor(s.calls, Pass(s, batch, p, turns).0.calls, NewOnes(s, batch))
  {
    CutSends(s, batch, p, turns, |batch|);
    assert batch[..|batch|] == batch;
    if batch != [] {
      PassIsCut(s, batch, p, turns);
    }
  }

  function Contents(ms: seq<Message>): (r: seq<Parcel>)
    ensures |r| == |ms| && forall i :: 0 <= i < |ms| ==> r[i].recipient == ms[i].recipient && r[i].body == ms[i].body
  {
    seq(|ms|, i requires 0 <= i < |ms| => Parcel(ms[i].recipient, ms[i].body))
  }

  lemma UndeliveredIsGiven(s: State, m: Message, f: Faults, t: Times)
    requires !Delivered(s.rows, m.messageId) && f.getStatus.Done?
    ensures Deliver(s, m, f, t).0.parcels == s.parcels + [Parcel(m.recipient, m.body)]
  {
    DeliveryCases.CallsAre(s, m, f, t);
  }

  lemma ContentsSnoc(before: seq<Parcel>, ms: seq<Message>, m: Message)
    ensures before + Contents(ms + [m]) == before + Contents(ms) + [Parcel(m.recipient, m.body)]
  {
    assert Contents(ms + [m]) == Contents(ms) + [Parcel(m.recipient, m.body)];
  }

  /** One more turn of the loop gives the provider the message's content, unless it is
      skipped. */
  lemma TurnParcel(before: seq<Parcel>, s: State, s': State, front: seq<Message>, m: Message, skip: set<string>,
                   turn: Turn)
    requires s.parcels == before + Contents(Unskipped(front, skip)) && turn.f.getStatus.Done?
    requires s' == if m.messageId in skip then s else Deliver(s, m, turn.f, turn.t).0
    requires m.messageId in skip || !Delivered(s.rows, m.messageId)
    ensures s'.parcels == before + Contents(Unskipped(front + [m], skip))
  {
    UnskippedSnoc(front, m, skip);
    if m.messageId !in skip {
      UndeliveredIsGiven(s, m, turn.f, turn.t);
      ContentsSnoc(before, Unskipped(front, skip), m);
    }
  }

  lemma {:induction false} LoopParcels(s: State, t: Table, batch: seq<Message>, k: nat, skip: set<string>,
                                       turns: seq<Turn>)
    requires |turns| == k <= |batch| && FreshIds(t, batch) && StatusReadable(turns)
    requires forall m :: m in batch && m.messageId !in skip ==> !Delivered(s.rows, m.messageId)
    ensures ProcessAll(s, batch[..k], skip, turns).0.parcels == s.parcels + Contents(Unskipped(batch[..k], skip))
  {
    if k == 0 {
      assert Contents([]) == [] && s.parcels + [] == s.parcels;
    } else {
      var n, m := k - 1, batch[k - 1];
      assert batch[..k][..n] == batch[..n] && batch[..k] == batch[..n] + [m];
      LoopParcels(s, t, batch, n, skip, turns[..n]);
      ProcessSnoc(s, batch[..k], skip, turns);
      if m.messageId !in skip {
        StaysUndelivered(s, t, batch, n, skip, turns[..n]);
      }
      TurnParcel(s.parcels, ProcessAll(s, batch[..n], skip, turns[..n]).0, ProcessAll(s, batch[..k], skip, turns).0,
                 batch[..n], m, skip, turns[n]);
    }
  }

  lemma LoopParcelsOf(s: State, t: Table, batch: seq<Message>, skip: set<string>, turns: seq<Turn>, news: seq<Message>)
    requires |turns| == |batch| && FreshIds(t, batch) && StatusReadable(turns)
    requires skip == SkippedIds(t, batch) && news == Chosen(t, batch, batch, false)
    requires forall m :: m in batch && m.messageId !in skip ==> !Delivered(s.rows, m.messageId)
    ensures ProcessAll(s, batch, skip, turns).0.parcels == s.parcels + Contents(news)
  {
    LoopParcels(s, t, batch, |batch|, skip, turns);
    UnskippedAreNew(t, batch, batch);
    assert batch[..|batch|] == batch;
  }

  // ------------------------------------------------------------ when the offset is resolved

  /** The turn delivers a message that is not delivered yet. */
  predicate TurnDelivers(t: Table, m: Message, f: Faults) {
    m.messageId in t && f.send.Done? && f.markSent.Done? && f.saveSuccess.Done? && f.logSent.Done?
  }

  lemma OkIff(s: State, m: Message, f: Faults, t: Times)
    requires !Delivered(s.rows, m.messageId) && f.getStatus.Done?
    ensures Ok(Deliver(s, m, f, t).1) <==> TurnDelivers(s.rows, m, f)
  {
    DeliveryCases.ReturnIs(s, m, f, t);
  }

  /** The first `k` turns each skip their message or deliver it. */
  ghost predicate TurnsDeliver(t: Table, batch: seq<Message>, k: nat, skip: set<string>, turns: seq<Turn>)
    requires k <= |turns| == |batch|
  {
    forall j :: 0 <= j < k ==> batch[j].messageId in skip || TurnDelivers(t, batch[j], turns[j].f)
  }

  /** The next turn, for a message the loop does not skip. */
  lemma NextTurnDelivers(s: State, t: Table, batch: seq<Message>, n: nat, skip: set<string>, turns: seq<Turn>)
    requires n < |turns| == |batch| && FreshIds(t, batch) && turns[n].f.getStatus.Done?
    requires !Delivered(s.rows, batch[n].messageId)
    ensures var s1 := ProcessAll(s, batch[..n], skip, turns[..n]).0;
            Ok(Deliver(s1, batch[n], turns[n].f, turns[n].t).1) <==> TurnDelivers(s.rows, batch[n], turns[n].f)
  {
    var s1 := ProcessAll(s, batch[..n], skip, turns[..n]).0;
    StaysUndelivered(s, t, batch, n, skip, turns[..n]);
    ProcessKeepsRows(s, batch[..n], skip, turns[..n]);
    OkIff(s1, batch[n], turns[n].f, turns[n].t);
  }

  lemma TurnsDeliverSnoc(t: Table, batch: seq<Message>, n: nat, skip: set<string>, turns: seq<Turn>)
    requires n < |turns| == |batch|
    ensures TurnsDeliver(t, batch, n + 1, skip, turns) <==>
            TurnsDeliver(t, batch, n, skip, turns)
            && (batch[n].messageId in skip || TurnDelivers(t, batch[n], turns[n].f))
  {
  }

  lemma ProcessOk(s: State, ms: seq<Message>, skip: set<string>, turns: seq<Turn>)
    requires ms != [] && |turns| == |ms|
    ensures var n := |ms| - 1;
            var (s1, ok) := ProcessAll(s, ms[..n], skip, turns[..n]);
            ProcessAll(s, ms, skip, turns).1 <==>
            ok && (ms[n].messageId in skip || Ok(Deliver(s1, ms[n], turns[n].f, turns[n].t).1))
  {
  }

  lemma {:induction false} LoopOkIff(s: State, t: Table, batch: seq<Message>, k: nat, skip: set<string>,
                                     turns: seq<Turn>)
    requires k <= |turns| == |batch| && FreshIds(t, batch) && StatusReadable(turns)
    requires forall m :: m in batch && m.messageId !in skip ==> !Delivered(s.rows, m.messageId)
    ensures ProcessAll(s, batch[..k], skip, turns[..k]).1 <==> TurnsDeliver(s.rows, batch, k, skip, turns)
  {
    if k == 0 {
    } else {
      var n, m := k - 1, batch[k - 1];
      assert batch[..k][..n] == batch[..n] && turns[..k][..n] == turns[..n];
      LoopOkIff(s, t, batch, n, skip, turns);
      ProcessOk(s, batch[..k], skip, turns[..k]);
      TurnsDeliverSnoc(s.rows, batch, n, skip, turns);
      if m.messageId !in skip {
        assert m in batch;
        NextTurnDelivers(s, t, batch, n, skip, turns);
      }
    }
  }

  predicate ReachesLoop(batch: seq<Message>, p: Prelude, count: nat) {
    && batch != [] && p.check.Done?
    && (count == 0 || (p.begin.Done? && p.commit.Done? && (p.failAt.None? || p.failAt.value >= count)))
  }

  lemma PassLoops(s: State, batch: seq<Message>, p: Prelude, turns: seq<Turn>, s1: State, skip: set<string>)
    requires |turns| == |batch| && s1 == AfterInsert(s, batch, p) && skip == SkippedIds(s.rows, batch)
    ensures if ReachesLoop(batch, p, |NewOnes(s, batch)|)
            then Pass(s, batch, p, turns) == ProcessAll(s1, batch, skip, turns)
            else !Pass(s, batch, p, turns).1
  {
  }

  lemma NewIffUnskipped(t: Table, batch: seq<Message>)
    requires FreshIds(t, batch)
    ensures forall m :: m in batch ==> (m in Chosen(t, batch, batch, false) <==> m.messageId !in SkippedIds(t, batch))
  {
    DistinctIdentify(t, batch);
  }

  /** The loop ends well exactly when each new message is delivered in its turn. */
  lemma LoopResolves(s: State, t: Table, batch: seq<Message>, turns: seq<Turn>, skip: set<string>, news: seq<Message>)
    requires |turns| == |batch| && FreshIds(t, batch) && StatusReadable(turns)
    requires forall m :: m in batch ==> (m in news <==> m.messageId !in skip)
    requires forall m :: m in batch && m.messageId !in skip ==> !Delivered(s.rows, m.messageId)
    ensures ProcessAll(s, batch, skip, turns).1 <==>
            forall j :: 0 <= j < |batch| && batch[j] in news ==> TurnDelivers(s.rows, batch[j], turns[j].f)
  {
    LoopOkIff(s, t, batch, |batch|, skip, turns);
    assert batch[..|batch|] == batch && turns[..|batch|] == turns;
    assert forall j :: 0 <= j < |batch| ==> batch[j] in batch;
  }

  /** The offset is resolved exactly when there is a batch, the check and the insert
      return, and each new message, having its row, is accepted by the provider and
      recorded without a throw. */
  lemma ResolvedIff(s: State, batch: seq<Message>, p: Prelude, turns: seq<Turn>)
    requires |turns| == |batch| && FreshIds(s.rows, batch) && StatusReadable(turns)
    ensures Pass(s, batch, p, turns).1 <==>
            && ReachesLoop(batch, p, |NewOnes(s, batch)|)
            && forall j :: 0 <= j < |batch| && batch[j] in NewOnes(s, batch) ==>
                             TurnDelivers(AfterInsert(s, batch, p).rows, batch[j], turns[j].f)
  {
    var s1, skip := AfterInsert(s, batch, p), SkippedIds(s.rows, batch);
    NoneDeliveredYet(s, batch, p);
    PassLoops(s, batch, p, turns, s1, skip);
    NewIffUnskipped(s.rows, batch);
    LoopResolves(s1, s.rows, batch, turns, skip, NewOnes(s, batch));
  }

  /** What a pass gives the providers are the contents of its new messages, in order. */
  lemma PassSendsContents(s: State, batch: seq<Message>, p: Prelude, turns: seq<Turn>)
    requires |turns| == |batch| && FreshIds(s.rows, batch) && StatusReadable(turns)
    requires ReachesLoop(batch, p, |NewOnes(s, batch)|)
    ensures Pass(s, batch, p, turns).0.parcels == s.parcels + Contents(NewOnes(s, batch))
  {
    var s1, skip := AfterInsert(s, batch, p), SkippedIds(s.rows, batch);
    NoneDeliveredYet(s, batch, p);
    PassLoops(s, batch, p, turns, s1, skip);
    LoopParcelsOf(s1, s.rows, batch, skip, turns, NewOnes(s, batch));
    assert s1.parcels == s.parcels;
  }

  ghost predicate OnlyProvidersFail(turns: seq<Turn>) {
    forall i :: 0 <= i < |turns| ==> turns[i].f == OnlyProvider(turns[i].f.send)
  }

  /** All calls after the first `from` succeeded. */
  ghost predicate AllAccepted(calls: seq<Call>, from: nat) {
    forall i :: from <= i < |calls| ==> calls[i].success
  }

  /** One more turn of the loop, for a message whose row is there and undelivered. */
  lemma TurnAccepted(calls: nat, s: State, ok: bool, m: Message, f: Faults, t: Times)
    requires calls <= |s.calls| && (ok <==> AllAccepted(s.calls, calls))
    requires m.messageId in s.rows && !Delivered(s.rows, m.messageId) && f == OnlyProvider(f.send)
    ensures var (s', r) := Deliver(s, m, f, t);
            calls <= |s'.calls| && (ok && Ok(r) <==> AllAccepted(s'.calls, calls))
  {
    OkIff(s, m, f, t);
    UndeliveredIsSent(s, m, f, t);
    OneMoreAccepted(s.calls, Call(m.messageId, m.attempt + 1, t.send, f.send.Done?), calls);
  }

  lemma {:induction false} LoopOkIffAccepted(s: State, t: Table, batch: seq<Message>, k: nat, skip: set<string>,
                                             turns: seq<Turn>)
    requires |turns| == k <= |batch| && FreshIds(t, batch) && OnlyProvidersFail(turns)
    requires forall m :: m in batch && m.messageId !in skip ==> m.messageId in s.rows && !Delivered(s.rows, m.messageId)
    ensures var (s', ok) := ProcessAll(s, batch[..k], skip, turns);
            |s.calls| <= |s'.calls| && (ok <==> AllAccepted(s'.calls, |s.calls|))
  {
    if k == 0 {
    } else {
      var n, m := k - 1, batch[k - 1];
      assert batch[..k][..n] == batch[..n] && batch[..k][n] == m && m in batch;
      LoopOkIffAccepted(s, t, batch, n, skip, turns[..n]);
      ProcessSnoc(s, batch[..k], skip, turns);
      if m.messageId !in skip {
        var (s1, ok) := ProcessAll(s, batch[..n], skip, turns[..n]);
        StaysUndelivered(s, t, batch, n, skip, turns[..n]);
        ProcessKeepsRows(s, batch[..n], skip, turns[..n]);
        TurnAccepted(|s.calls|, s1, ok, m, turns[n].f, turns[n].t);
      }
    }
  }

  lemma OneMoreAccepted(calls: seq<Call>, c: Call, from: nat)
    requires from <= |calls|
    ensures AllAccepted(calls + [c], from) <==> AllAccepted(calls, from) && c.success
  {
    var more := calls + [c];
    assert more[|calls|] == c && forall i :: 0 <= i < |calls| ==> more[i] == calls[i];
  }

  lemma LoopAccepted(s: State, t: Table, batch: seq<Message>, skip: set<string>, turns: seq<Turn>)
    requires |turns| == |batch| && FreshIds(t, batch) && OnlyProvidersFail(turns)
    requires forall m :: m in batch && m.messageId !in skip ==> m.messageId in s.rows && !Delivered(s.rows, m.messageId)
    ensures var (s', ok) := ProcessAll(s, batch, skip, turns); ok <==> AllAccepted(s'.calls, |s.calls|)
  {
    LoopOkIffAccepted(s, t, batch, |batch|, skip, turns);
    assert batch[..|batch|] == batch;
  }

  /** When only providers fail and every new message got its row, a pass that reaches
      its loop resolves the offset exactly when all its provider calls succeeded. */
  lemma ResolvedIffAccepted(s: State, batch: seq<Message>, p: Prelude, turns: seq<Turn>)
    requires |turns| == |batch| && FreshIds(s.rows, batch) && OnlyProvidersFail(turns)
    requires ReachesLoop(batch, p, |NewOnes(s, batch)|)
    requires forall m :: m in NewOnes(s, batch) ==> m.messageId in AfterInsert(s, batch, p).rows
    ensures var (s', resolved) := Pass(s, batch, p, turns); resolved <==> AllAccepted(s'.calls, |s.calls|)
  {
    var s1, skip := AfterInsert(s, batch, p), SkippedIds(s.rows, batch);
    NoneDeliveredYet(s, batch, p);
    NewIffUnskipped(s.rows, batch);
    LoopAccepted(s1, s.rows, batch, skip, turns);
    PassLoops(s, batch, p, turns, s1, skip);
    assert s1.calls == s.calls;
  }

  // ------------------------------------------------------------------ repeated keys

  /** No two calls after `from` are for messages with one key. */
  ghost predicate KeysSentOnce(calls: seq<Call>, from: nat, batch: seq<Message>) {
    forall i, j, m1, m2 :: from <= i < j < |calls| && m1 in batch && m2 in batch
                           && calls[i].messageId == m1.messageId && calls[j].messageId == m2.messageId
                           ==> KeyOf(m1) != KeyOf(m2)
  }

  /** No two messages of the batch share a key that is not stored yet. */
  ghost predicate NewKeysDiffer(t: Table, batch: seq<Message>) {
    forall i, j :: 0 <= i < j < |batch| && KeyOf(batch[i]) == KeyOf(batch[j]) ==> HasKey(t, KeyOf(batch[i]))
  }

  ghost predicate DistinctKeys(ms: seq<Message>) {
    forall i, j :: 0 <= i < j < |ms| ==> KeyOf(ms[i]) != KeyOf(ms[j])
  }

  lemma NewKeysDifferSnoc(t: Table, front: seq<Message>, m: Message)
    ensures NewKeysDiffer(t, front + [m]) <==>
            NewKeysDiffer(t, front) && (HasKey(t, KeyOf(m)) || forall x :: x in front ==> KeyOf(x) != KeyOf(m))
  {
    var all := front + [m];
    if NewKeysDiffer(t, all) {
      forall i, j | 0 <= i < j < |front| && KeyOf(front[i]) == KeyOf(front[j]) ensures HasKey(t, KeyOf(front[i])) {
        assert all[i] == front[i] && all[j] == front[j];
      }
      forall x | x in front && KeyOf(x) == KeyOf(m) ensures HasKey(t, KeyOf(m)) {
        var i :| 0 <= i < |front| && front[i] == x;
        assert all[i] == x && all[|front|] == m;
      }
    }
  }

  lemma {:induction false} ChosenKeysDiffer(t: Table, batch: seq<Message>, part: seq<Message>)
    requires ColonFreeTenants(batch) && forall m :: m in part ==> m in batch
    ensures DistinctKeys(Chosen(t, batch, part, false)) <==> NewKeysDiffer(t, part)
  {
    if part == [] {
    } else {
      var front, m := part[..|part| - 1], part[|part| - 1];
      assert part == front + [m];
      ChosenKeysDiffer(t, batch, front);
      NextKeyDiffers(t, batch, front, m);
    }
  }

  lemma NextKeyDiffers(t: Table, batch: seq<Message>, front: seq<Message>, m: Message)
    requires ColonFreeTenants(batch) && m in batch && forall x :: x in front ==> x in batch
    requires DistinctKeys(Chosen(t, batch, front, false)) <==> NewKeysDiffer(t, front)
    ensures DistinctKeys(Chosen(t, batch, front + [m], false)) <==> NewKeysDiffer(t, front + [m])
  {
    var chosen := Chosen(t, batch, front, false);
    ChosenSnoc(t, batch, front, m, false);
    NewKeysDifferSnoc(t, front, m);
    SnocKeysDiffer(chosen, m);
    FirstIsOwn(batch, m);
    forall x | x in front && KeyOf(x) == KeyOf(m) && !HasKey(t, KeyOf(m)) ensures x in chosen {
      FirstIsOwn(batch, x);
    }
  }

  lemma SnocKeysDiffer(ms: seq<Message>, m: Message)
    ensures DistinctKeys(ms + [m]) <==> DistinctKeys(ms) && forall x :: x in ms ==> KeyOf(x) != KeyOf(m)
  {
    var all := ms + [m];
    if DistinctKeys(all) {
      forall i, j | 0 <= i < j < |ms| ensures KeyOf(ms[i]) != KeyOf(ms[j]) {
        assert all[i] == ms[i] && all[j] == ms[j];
      }
      forall x | x in ms ensures KeyOf(x) != KeyOf(m) {
        var i :| 0 <= i < |ms| && ms[i] == x;
        assert all[i] == x && all[|ms|] == m;
      }
    }
  }

  /** The message a call was made for. */
  lemma CallTellsMessage(calls: seq<Call>, from: nat, batch: seq<Message>, ms: seq<Message>, i: nat, m: Message)
    requires from <= i < |calls| && SentFor(calls[..from], calls, ms) && IdsIdentify(batch)
    requires (forall x :: x in ms ==> x in batch) && m in batch && calls[i].messageId == m.messageId
    ensures m == ms[i - from]
  {
    assert calls[from + (i - from)].messageId == ms[i - from].messageId && ms[i - from] in ms;
  }

  lemma SentKeys(calls: seq<Call>, from: nat, batch: seq<Message>, ms: seq<Message>)
    requires from <= |calls| && SentFor(calls[..from], calls, ms) && IdsIdentify(batch)
    requires forall m :: m in ms ==> m in batch
    ensures KeysSentOnce(calls, from, batch) <==> DistinctKeys(ms)
  {
    if KeysSentOnce(calls, from, batch) {
      forall i, j | 0 <= i < j < |ms| ensures KeyOf(ms[i]) != KeyOf(ms[j]) {
        assert ms[i] in ms && ms[j] in ms;
        assert calls[from + i].messageId == ms[i].messageId && calls[from + j].messageId == ms[j].messageId;
      }
    }
    if DistinctKeys(ms) {
      forall i, j, m1, m2 | from <= i < j < |calls| && m1 in batch && m2 in batch
                            && calls[i].messageId == m1.messageId && calls[j].messageId == m2.messageId
        ensures KeyOf(m1) != KeyOf(m2)
      {
        CallTellsMessage(calls, from, batch, ms, i, m1);
        CallTellsMessage(calls, from, batch, ms, j, m2);
      }
    }
  }

  lemma SentKeysIff(s: State, batch: seq<Message>, calls: seq<Call>)
    requires FreshIds(s.rows, batch) && ColonFreeTenants(batch) && SentFor(s.calls, calls, NewOnes(s, batch))
    ensures KeysSentOnce(calls, |s.calls|, batch) <==> NewKeysDiffer(s.rows, batch)
  {
    DistinctIdentify(s.rows, batch);
    assert calls[..|s.calls|] == s.calls;
    SentKeys(calls, |s.calls|, batch, NewOnes(s, batch));
    ChosenKeysDiffer(s.rows, batch, batch);
  }

  /** Since the results of the insert are not looked at, a pass sends each key at
      most once if and only if no two of its messages share a key not yet stored. */
  lemma KeysSentOnceIff(s: State, batch: seq<Message>, p: Prelude, turns: seq<Turn>)
    requires |turns| == |batch| && FreshIds(s.rows, batch) && StatusReadable(turns) && ColonFreeTenants(batch)
    requires p.check.Done? && !InsertThrows(p, |NewOnes(s, batch)|)
    ensures KeysSentOnce(Pass(s, batch, p, turns).0.calls, |s.calls|, batch) <==> NewKeysDiffer(s.rows, batch)
  {
    PassSends(s, batch, p, turns);
    SentKeysIff(s, batch, Pass(s, batch, p, turns).0.calls);
  }

  // ------------------------------------------------------- what a cut pass strands

  /** Nothing was tried for the message: its row is as inserted, no call was made and
      nothing was queued. */
  ghost predicate Untried(s: State, s': State, m: Message) {
    && m.messageId in s'.rows && s'.rows[m.messageId] == NewRow(m) && SameQueue(s, s', m.messageId)
    && forall i :: |s.calls| <= i < |s'.calls| ==> s'.calls[i].messageId != m.messageId
  }

  /** A row is rehydrated to the message it was inserted for. */
  lemma RehydratedIsInserted(m: Message)
    ensures MessageOf(m.messageId, NewRow(m), m.attempt) == m
  {
  }

  lemma NewRowIsOwn(s: State, batch: seq<Message>, p: Prelude, m: Message)
    requires FreshIds(s.rows, batch) && m in NewOnes(s, batch) && m.messageId in AfterInsert(s, batch, p).rows
    ensures AfterInsert(s, batch, p).rows[m.messageId] == NewRow(m)
    ensures HasKey(AfterInsert(s, batch, p).rows, KeyOf(m))
  {
    var added := NewOnes(s, batch);
    InsertCreates(s.rows, added);
    DistinctIdentify(s.rows, batch);
    var (t', results) := InsertAll(s.rows, added);
    var i :| CreatedBy(t', added, results, i, m.messageId);
    assert added[i] in batch && m in batch;
    assert RowKey(t'[m.messageId]) == KeyOf(m);
  }

  /** A cut pass strands exactly the inserted messages it did not reach: their rows
      stay IN_PROGRESS, the provider was not called and no retry is queued. */
  lemma StrandedIff(s: State, batch: seq<Message>, p: Prelude, turns: seq<Turn>, k: nat, j: nat)
    requires k <= |turns| == |batch| && j < |batch| && FreshIds(s.rows, batch) && StatusReadable(turns)
    requires forall m :: m in batch ==> ColonFree(m.messageId)
    requires batch[j] in NewOnes(s, batch) && batch[j].messageId in AfterInsert(s, batch, p).rows
    ensures Untried(s, Cut(s, batch, p, turns, k), batch[j]) <==> k <= j
  {
    var skip, m, s1 := SkippedIds(s.rows, batch), batch[j], AfterInsert(s, batch, p);
    if k <= j {
      assert forall i :: 0 <= i < k ==> batch[..k][i] == batch[i];
      NewRowIsOwn(s, batch, p, m);
      OthersSpare(s1, batch[..k], skip, turns[..k], m.messageId);
      OthersQueueNothing(s1, batch[..k], skip, turns[..k], m.messageId);
    } else {
      CutSends(s, batch, p, turns, k);
      var sent, calls := Chosen(s.rows, batch, batch[..k], false), Cut(s, batch, p, turns, k).calls;
      assert batch[..k][j] == m && m in sent;
      var i :| 0 <= i < |sent| && sent[i] == m;
      assert calls[|s.calls| + i].messageId == m.messageId;
    }
  }

  /** And they stay stranded: a replay resolves the offset without touching them. */
  lemma StrandedForGood(s: State, batch: seq<Message>, p: Prelude, turns: seq<Turn>, k: nat, j: nat,
                        p2: Prelude, turns2: seq<Turn>)
    requires k <= j < |turns| == |turns2| == |batch| && FreshIds(s.rows, batch) && StatusReadable(turns)
    requires forall m :: m in batch ==> ColonFree(m.messageId)
    requires batch[j] in NewOnes(s, batch) && batch[j].messageId in AfterInsert(s, batch, p).rows
    requires ColonFreeTenants(batch) && KeysDecide(s.rows, NewOnes(s, batch)) && Committed(s, batch, p)
    requires p2.check.Done?
    ensures var (s', resolved) := Pass(Cut(s, batch, p, turns, k), batch, p2, turns2);
            resolved && Untried(s, s', batch[j])
  {
    StrandedIff(s, batch, p, turns, k, j);
    ReplayAfterCut(s, batch, p, turns, k, p2, turns2);
  }

  // ---------------------------------------------------------- where replay is not safe

  /** The condition on keys is needed.  A message whose content (dedup key) is stored
      under another key is never inserted, yet it is processed: each pass calls the
      provider again, fails on the foreign key, leaves the rows as they were and
      resolves nothing, so the next pass does the same. */
  lemma SharedContentResends(s: State, m: Message, other: string, send: Outcome, t: Times)
    requires other in s.rows && s.rows[other].dedupKey == m.dedupKey
    requires m.messageId !in s.rows && !HasKey(s.rows, KeyOf(m))
    ensures var p := Prelude(Done, Done, None, Done);
            var (s', resolved) := Pass(s, [m], p, [Turn(OnlyProvider(send), t)]);
            && !resolved && s'.rows == s.rows
            && s'.calls == s.calls + [Call(m.messageId, m.attempt + 1, t.send, send.Done?)]
  {
    var p := Prelude(Done, Done, None, Done);
    var turns := [Turn(OnlyProvider(send), t)];
    OnlyMessage(s, m);
    assert Clashes(s.rows, m);
    InsertSnoc(s.rows, [], m);
    assert [] + [m] == [m];
    assert AfterInsert(s, [m], p) == s;
    assert [m][..0] == [] && turns[..0] == [];
    ProcessSnoc(s, [m], {}, turns);
    RowlessIsSent(s, m, send, t);
  }

  lemma OnlyMessage(s: State, m: Message)
    requires !HasKey(s.rows, KeyOf(m))
    ensures NewOnes(s, [m]) == [m] && SkippedIds(s.rows, [m]) == {}
  {
    var one := [m];
    assert one[..|one| - 1] == [] && one[0] == m;
    assert First([m], KeyOf(m).Text()) == Some(KeyOf(m));
    assert !Known(s.rows, [m], m);
    assert Chosen(s.rows, one, one[..|one| - 1], true) == [] && Chosen(s.rows, one, one[..|one| - 1], false) == [];
    assert Chosen(s.rows, one, one, true) == [] && Chosen(s.rows, one, one, false) == [] + [m];
  }

  /** No content of the messages is stored, and none occurs twice. */
  ghost predicate FreshContents(t: Table, ms: seq<Message>) {
    && (forall m, id :: m in ms && id in t ==> t[id].dedupKey != m.dedupKey)
    && (forall i, j :: 0 <= i < j < |ms| ==> ms[i].dedupKey != ms[j].dedupKey)
  }

  /** The new messages of a batch, in batch order, have distinct ids too. */
  lemma {:induction false} ChosenIdsDiffer(t: Table, batch: seq<Message>, part: seq<Message>)
    requires DistinctIds(part)
    ensures DistinctIds(Chosen(t, batch, part, false))
  {
    if part == [] {
    } else {
      var front, m := part[..|part| - 1], part[|part| - 1];
      var ms := Chosen(t, batch, front, false);
      assert part == front + [m];
      ChosenIdsDiffer(t, batch, front);
      ChosenSnoc(t, batch, front, m, false);
      forall i | 0 <= i < |ms| ensures ms[i].messageId != m.messageId {
        assert ms[i] in front;
      }
    }
  }

  lemma FreshIsOwn(t: Table, ms: seq<Message>)
    requires forall m :: m in ms ==> m.messageId !in t
    requires DistinctIds(ms)
    ensures FreshContents(t, ms) <==> OwnContents(t, ms)
  {
  }

  lemma NewOnesAreNew(s: State, batch: seq<Message>)
    requires ColonFreeTenants(batch) && DistinctKeys(NewOnes(s, batch))
    ensures NewKeys(s.rows, NewOnes(s, batch))
  {
    forall m | m in NewOnes(s, batch) ensures !HasKey(s.rows, KeyOf(m)) {
      FirstIsOwn(batch, m);
    }
  }

  lemma NewOnesCoveredIff(s: State, batch: seq<Message>)
    requires ColonFreeTenants(batch) && FreshIds(s.rows, batch) && DistinctKeys(NewOnes(s, batch))
    ensures Covered(s.rows, NewOnes(s, batch)) <==> FreshContents(s.rows, NewOnes(s, batch))
  {
    NewOnesAreNew(s, batch);
    ChosenIdsDiffer(s.rows, batch, batch);
    FreshIsOwn(s.rows, NewOnes(s, batch));
    InsertCoversIff(s.rows, NewOnes(s, batch));
  }

  /** A new message without a row for its key has no row for its id either. */
  lemma UncoveredIsAbsent(s: State, batch: seq<Message>, p: Prelude, turns: seq<Turn>, k: nat, m: Message)
    requires k <= |turns| == |batch| && FreshIds(s.rows, batch) && m in NewOnes(s, batch)
    requires !HasKey(AfterInsert(s, batch, p).rows, KeyOf(m))
    ensures !HasKey(Cut(s, batch, p, turns, k).rows, KeyOf(m)) && m.messageId !in Cut(s, batch, p, turns, k).rows
  {
    var s1, s' := AfterInsert(s, batch, p), Cut(s, batch, p, turns, k);
    if m.messageId in s1.rows {
      NewRowIsOwn(s, batch, p, m);
    }
    ProcessKeepsRows(s1, batch[..k], SkippedIds(s.rows, batch), turns[..k]);
    if HasKey(s'.rows, KeyOf(m)) {
      HasKeyStays(s'.rows, s1.rows, KeyOf(m));
    }
  }

  /** For distinct and fresh ids and different new keys, the replay of a pass whose
      insert took effect is a no-op exactly when no new message's content is stored
      already or occurs twice: wherever the pass was cut, and whatever failed. */
  lemma ReplayIsNoOpIff(s: State, batch: seq<Message>, p: Prelude, turns: seq<Turn>, k: nat,
                        p2: Prelude, turns2: seq<Turn>)
    requires k <= |turns| == |turns2| == |batch| && batch != [] && ColonFreeTenants(batch)
    requires FreshIds(s.rows, batch) && DistinctKeys(NewOnes(s, batch))
    requires Committed(s, batch, p) && p2.check.Done?
    ensures var s' := Cut(s, batch, p, turns, k);
            Pass(s', batch, p2, turns2) == (s', true) <==> FreshContents(s.rows, NewOnes(s, batch))
  {
    var added, s' := NewOnes(s, batch), Cut(s, batch, p, turns, k);
    NewOnesCoveredIff(s, batch);
    if FreshContents(s.rows, added) {
      ChosenIdsDiffer(s.rows, batch, batch);
      FreshIsOwn(s.rows, added);
      OwnContentsDecide(s.rows, added);
      ReplayAfterCut(s, batch, p, turns, k, p2, turns2);
    } else {
      var m :| m in added && !HasKey(InsertAll(s.rows, added).0, KeyOf(m));
      UncoveredIsAbsent(s, batch, p, turns, k, m);
      if Pass(s', batch, p2, turns2) == (s', true) {
        DistinctIdentify(s.rows, batch);
        OffsetSafeByKey(s', batch, p2, turns2, m);
      }
    }
  }

  /** Two tenants and keys with one text, the first of them stored: the second
      message is taken for a duplicate, never stored and never sent, and its offset
      is resolved. */
  lemma CollidingKeyIsDropped(s: State, m1: Message, m2: Message, p: Prelude, turns: seq<Turn>)
    requires KeyOf(m1) == Key("a", "b:c") && KeyOf(m2) == Key("a:b", "c") && |turns| == 2 && p.check.Done?
    requires HasKey(s.rows, KeyOf(m1)) && !HasKey(s.rows, KeyOf(m2))
    ensures Pass(s, [m1, m2], p, turns) == (s, true)
  {
    var two, one := [m1, m2], [m1];
    assert KeyOf(m1).Text() == KeyOf(m2).Text() == "a:b:c";
    assert two[..|two| - 1] == one && one[..|one| - 1] == [];
    assert First(one, "a:b:c") == Some(KeyOf(m1)) && First(two, "a:b:c") == Some(KeyOf(m1));
    ReplayIsNoOp(s, two, p, turns);
  }

  lemma TwoOfAText(s: State, m1: Message, m2: Message)
    requires KeyOf(m1).Text() == KeyOf(m2).Text() && !HasKey(s.rows, KeyOf(m1))
    ensures NewOnes(s, [m1, m2]) == [m1, m2] && SkippedIds(s.rows, [m1, m2]) == {}
  {
    var two, one := [m1, m2], [m1];
    assert two[..|two| - 1] == one && one[..|one| - 1] == [];
    assert First(one, KeyOf(m1).Text()) == Some(KeyOf(m1)) && First(two, KeyOf(m1).Text()) == Some(KeyOf(m1));
    assert !Known(s.rows, two, m1) && !Known(s.rows, two, m2);
    assert Chosen(s.rows, two, one[..|one| - 1], false) == [] && Chosen(s.rows, two, one[..|one| - 1], true) == [];
    assert Chosen(s.rows, two, one, false) == [] + [m1] && Chosen(s.rows, two, one, true) == [];
    assert Chosen(s.rows, two, two, false) == [m1] + [m2] && Chosen(s.rows, two, two, true) == [];
  }

  lemma ProcessTwo(s: State, m1: Message, m2: Message, turns: seq<Turn>)
    requires |turns| == 2
    ensures var (s1, r1) := Deliver(s, m1, turns[0].f, turns[0].t);
            var (s2, r2) := Deliver(s1, m2, turns[1].f, turns[1].t);
            ProcessAll(s, [m1, m2], {}, turns) == (s2, Ok(r1) && Ok(r2))
  {
    var two, one := [m1, m2], [m1];
    assert two[..1] == one && one[..0] == [] && turns[..1][..0] == [];
    ProcessSnoc(s, two, {}, turns);
    ProcessSnoc(s, one, {}, turns[..1]);
  }

  /** A message without a row is sent, and then fails on the foreign key. */
  lemma RowlessIsSent(s: State, m: Message, send: Outcome, t: Times)
    requires m.messageId !in s.rows
    ensures var (s', r) := Deliver(s, m, OnlyProvider(send), t);
            && s'.calls == s.calls + [Call(m.messageId, m.attempt + 1, t.send, send.Done?)]
            && s'.rows == s.rows && r == Threw
  {
  }

  lemma NewRowIsSent(s: State, m: Message, t: Times)
    requires m.messageId in s.rows && !s.rows[m.messageId].finalDelivered
    ensures var s' := Deliver(s, m, OnlyProvider(Done), t).0;
            s'.calls == s.calls + [Call(m.messageId, m.attempt + 1, t.send, true)] && s'.rows.Keys == s.rows.Keys
  {
  }

  lemma BothSent(s: State, m1: Message, m2: Message, t: Times)
    requires m1.messageId in s.rows && !s.rows[m1.messageId].finalDelivered && m2.messageId !in s.rows
    ensures var turn := Turn(OnlyProvider(Done), t);
            var (s', ok) := ProcessAll(s, [m1, m2], {}, [turn, turn]);
            && !ok && m2.messageId !in s'.rows
            && s'.calls == s.calls + [Call(m1.messageId, m1.attempt + 1, t.send, true),
                                      Call(m2.messageId, m2.attempt + 1, t.send, true)]
  {
    var turn := Turn(OnlyProvider(Done), t);
    ProcessTwo(s, m1, m2, [turn, turn]);
    NewRowIsSent(s, m1, t);
    RowlessIsSent(Deliver(s, m1, OnlyProvider(Done), t).0, m2, Done, t);
  }

  lemma SecondSkipped(t: Table, m1: Message, m2: Message)
    requires KeyOf(m1) == KeyOf(m2) && !Clashes(t, m1)
    ensures InsertAll(t, [m1, m2]).0 == t[m1.messageId := NewRow(m1)]
  {
    InsertSnoc(t, [], m1);
    InsertSnoc(t, [m1], m2);
    assert [] + [m1] == [m1] && [m1] + [m2] == [m1, m2];
    var t1 := InsertAll(t, [m1]).0;
    assert m1.messageId in t1 && RowKey(t1[m1.messageId]) == KeyOf(m2);
  }

  /** The insert's results are not looked at.  Two messages of one batch with the
      same new key are both sent: the second has no row, so its call is recorded
      nowhere and the offset is not resolved. */
  lemma RepeatedKeyIsSentTwice(s: State, m1: Message, m2: Message, t: Times)
    requires KeyOf(m1) == KeyOf(m2) && m1.messageId != m2.messageId
    requires !HasKey(s.rows, KeyOf(m1)) && !Clashes(s.rows, m1) && m2.messageId !in s.rows
    ensures var turn := Turn(OnlyProvider(Done), t);
            var (s', resolved) := Pass(s, [m1, m2], Prelude(Done, Done, None, Done), [turn, turn]);
            && !resolved && m2.messageId !in s'.rows
            && s'.calls == s.calls + [Call(m1.messageId, m1.attempt + 1, t.send, true),
                                      Call(m2.messageId, m2.attempt + 1, t.send, true)]
  {
    TwoOfAText(s, m1, m2);
    SecondSkipped(s.rows, m1, m2);
    BothSent(s.(rows := s.rows[m1.messageId := NewRow(m1)]), m1, m2, t);
  }
}
