/** DeliveryProcessorService and DeliveryDeduplicationService: one delivery
    attempt of one message, as ordered effects under try/catch, for every
    outcome of every effect. */
module Delivery {
  import opened Text
  import opened Store
  import opened Backoff
  import opened RetryQueue

  /** 24 hours, in milliseconds. */
  const DELIVERY_CACHE_TTL: nat := 86400 * 1000

  /** One outcome for every effect a call may perform. */
  datatype Faults = Faults(
    exists_: Outcome, setNx: Outcome, getStatus: Outcome,   // deduplication
    send: Outcome,                                          // provider
    markSent: Outcome, saveSuccess: Outcome, setEx: Outcome, logSent: Outcome,
    saveFailure: Outcome,
    markPending: Outcome, schedule: Outcome, logRetry: Outcome,
    markFailed: Outcome, saveDlq: Outcome, publishDlq: Outcome, logFailed: Outcome, publishError: Outcome)

  /** Clock readings of a call: at the dedup check, the send, the cache write and the scheduling. */
  datatype Times = Times(check: int, send: int, warm: int, schedule: int) {
    predicate Ordered() { check <= send <= warm && send <= schedule }
  }

  datatype Return = Returned(success: bool, shouldRetry: bool, isDuplicate: bool) | Threw

  const SUCCESS := Returned(true, false, false)
  const DUPLICATE := Returned(true, false, true)
  const RETRY := Returned(false, true, false)
  const DEAD := Returned(false, false, false)

  /** Nothing fails but, perhaps, the provider. */
  function OnlyProvider(send: Outcome): Faults {
    Faults(Done, Done, Done, send, Done, Done, Done, Done, Done, Done, Done, Done, Done, Done, Done, Done, Done)
  }

  /** The message a row describes, as a retry event is meant to be rehydrated. */
  function MessageOf(id: string, row: Row, attempt: nat): Message {
    Message(id, row.tenantId, row.idempotencyKey, row.dedupKey, row.userId, row.channel,
            row.recipient, row.body, attempt)
  }

  // ------------------------------------------------------------- specification

  /** checkDeliveryDedup swallows every Redis error and then answers "new". */
  function IsNew(s: State, m: Message, f: Faults, now: int): bool {
    f.exists_.Throws() || !Live(s.cache, DeliveryKey(m.dedupKey), now)
  }

  function AfterDedup(s: State, m: Message, f: Faults, now: int): State {
    if f.exists_.Throws() || Live(s.cache, DeliveryKey(m.dedupKey), now) || f.setNx.Lost? then s
    else s.(cache := s.cache[DeliveryKey(m.dedupKey) := now + DELIVERY_CACHE_TTL])
  }

  function SaveAttempt(s: State, m: Message, success: bool, o: Outcome): State {
    if o.Lands() && m.messageId in s.rows
    then s.(audits := s.audits + [Attempt(m.messageId, m.attempt + 1, success)]) else s
  }

  predicate SaveThrows(s: State, m: Message, o: Outcome) {
    o.Throws() || m.messageId !in s.rows
  }

  function Mark(s: State, m: Message, status: Status, delivered: bool, o: Outcome): State {
    if o.Lands() then s.(rows := UpdateRow(s.rows, m.messageId, status, delivered, m.attempt + 1)) else s
  }

  function Warm(s: State, m: Message, o: Outcome, now: int): State {
    if o.Lands() then s.(cache := s.cache[DeliveryKey(m.dedupKey) := now + DELIVERY_CACHE_TTL]) else s
  }

  /** The payload of the retry after attempt `m.attempt + 1`: the scheduler adds one more. */
  function NextPayload(m: Message): string {
    Payload(m.messageId, ChannelName(m.channel), m.attempt + 2)
  }

  function Retried(s: State, m: Message, f: Faults, t: Times): (State, Return) {
    var s1 := Mark(s, m, PENDING, false, f.markPending);
    if f.markPending.Throws() then (s1, Threw) else
    var s2 := if f.schedule.Lands()
              then s1.(retries := s1.retries[NextPayload(m) := t.schedule + Delay(m.attempt + 1)]) else s1;
    (s2, if f.schedule.Throws() || f.logRetry.Throws() then Threw else RETRY)
  }

  function DeadLettered(s: State, m: Message, f: Faults): (State, Return) {
    var letter := DeadLetter(m.messageId, m.channel);
    var s1 := Mark(s, m, FAILED, false, f.markFailed);
    if f.markFailed.Throws() then (s1, Threw) else
    var s2 := if f.saveDlq.Lands() && m.messageId in s1.rows then s1.(dlqRows := s1.dlqRows + [letter]) else s1;
    if SaveThrows(s1, m, f.saveDlq) then (s2, Threw) else
    var s3 := if f.publishDlq.Lands() then s2.(dlqTopic := s2.dlqTopic + [letter]) else s2;
    (s3, if f.publishDlq.Throws() || f.logFailed.Throws() || f.publishError.Throws() then Threw else DEAD)
  }

  /** The catch block. */
  function Caught(s: State, m: Message, f: Faults, t: Times): (State, Return) {
    var s1 := SaveAttempt(s, m, false, f.saveFailure);
    if SaveThrows(s, m, f.saveFailure) then (s1, Threw)
    else if m.attempt + 1 >= MAX_ATTEMPTS then DeadLettered(s1, m, f)
    else Retried(s1, m, f, t)
  }

  /** What follows the provider's successful return. */
  function Succeeded(s: State, m: Message, f: Faults, t: Times): (State, Return) {
    var s1 := Mark(s, m, SENT, true, f.markSent);
    if f.markSent.Throws() then Caught(s1, m, f, t) else
    var s2 := SaveAttempt(s1, m, true, f.saveSuccess);
    if SaveThrows(s1, m, f.saveSuccess) then Caught(s2, m, f, t) else
    var s3 := Warm(s2, m, f.setEx, t.warm);
    if f.logSent.Throws() then Caught(s3, m, f, t) else (s3, SUCCESS)
  }

  function Called(s: State, m: Message, f: Faults, t: Times): State {
    s.(calls := s.calls + [Call(m.messageId, m.attempt + 1, t.send, f.send.Done?)],
    parcels := s.parcels + [Parcel(m.recipient, m.body)])
  }

  function Sent(s: State, m: Message, f: Faults, t: Times): (State, Return) {
    if f.send.Throws() then Caught(Called(s, m, f, t), m, f, t) else Succeeded(Called(s, m, f, t), m, f, t)
  }

  /** The whole of processDelivery. */
  function Deliver(s: State, m: Message, f: Faults, t: Times): (State, Return) {
    var s1 := AfterDedup(s, m, f, t.check);
    if IsNew(s, m, f, t.check) then Sent(s1, m, f, t)
    else if f.getStatus.Throws() then Caught(s1, m, f, t)
    else if Delivered(s1.rows, m.messageId) then (s1, DUPLICATE)
    else Sent(s1, m, f, t)
  }

  // ------------------------------------------------------------------- classes

  class DeliveryDeduplicationService {
    const db: Backend

    constructor (db: Backend)
      ensures this.db == db
    {
      this.db := db;
    }

    method CheckDeliveryDedup(m: Message, f: Faults, now: int) returns (isNew: bool)
      modifies db
      ensures isNew == IsNew(old(db.Snapshot()), m, f, now)
      ensures db.Snapshot() == AfterDedup(old(db.Snapshot()), m, f, now)
    {
      var cacheKey := DeliveryKey(m.dedupKey);
      var threw, hit := db.Exists(cacheKey, now, f.exists_);
      if threw {
        return true;
      }
      if hit {
        return false;
      }
      threw := db.SetNX(cacheKey, now, DELIVERY_CACHE_TTL, f.setNx);
      return true;
    }

    method SetDeliveredCache(m: Message, f: Faults, now: int)
      modifies db
      ensures db.Snapshot() == Warm(old(db.Snapshot()), m, f.setEx, now)
    {
      var _ := db.SetEx(DeliveryKey(m.dedupKey), now, DELIVERY_CACHE_TTL, f.setEx);
    }
  }

  class DeliveryProcessor {
    const db: Backend
    const dedup: DeliveryDeduplicationService
    const scheduler: RetryScheduler

    ghost predicate Wired() {
      dedup.db == db && scheduler.db == db
    }

    constructor (db: Backend)
      ensures this.db == db && Wired()
    {
      this.db := db;
      dedup := new DeliveryDeduplicationService(db);
      scheduler := new RetryScheduler(db);
    }

    method ProcessDelivery(m: Message, f: Faults, t: Times) returns (r: Return)
      requires Wired()
      modifies db
      ensures (db.Snapshot(), r) == Deliver(old(db.Snapshot()), m, f, t)
    {
      var currentAttempt := m.attempt + 1;
      var threw := false;
      var isNew := dedup.CheckDeliveryDedup(m, f, t.check);
      if !isNew {
        var delivered;
        threw, delivered := db.GetStatus(m.messageId, f.getStatus);
        if !threw && delivered {
          return DUPLICATE;
        }
      }
      if !threw {
        threw := db.Send(m.messageId, currentAttempt, t.send, m.recipient, m.body, f.send);
      }
      if !threw {
        threw := RecordSuccess(m, f, t);
        if !threw {
          return SUCCESS;
        }
      }
      r := HandleError(m, f, t);
    }

    /** The rest of the try block, after the provider returned. */
    method RecordSuccess(m: Message, f: Faults, t: Times) returns (threw: bool)
      requires Wired()
      modifies db
      ensures var s := old(db.Snapshot());
              Succeeded(s, m, f, t) == if threw then Caught(db.Snapshot(), m, f, t) else (db.Snapshot(), SUCCESS)
    {
      threw := db.UpdateStatus(m.messageId, SENT, true, m.attempt + 1, f.markSent);
      if threw {
        return;
      }
      threw := db.SaveAttempt(Attempt(m.messageId, m.attempt + 1, true), f.saveSuccess);
      if threw {
        return;
      }
      dedup.SetDeliveredCache(m, f, t.warm);
      threw := f.logSent.Throws();
    }

    /** The catch block. */
    method HandleError(m: Message, f: Faults, t: Times) returns (r: Return)
      requires Wired()
      modifies db
      ensures (db.Snapshot(), r) == Caught(old(db.Snapshot()), m, f, t)
    {
      var currentAttempt := m.attempt + 1;
      var threw := db.SaveAttempt(Attempt(m.messageId, currentAttempt, false), f.saveFailure);
      if threw {
        return Threw;
      }
      if currentAttempt >= MAX_ATTEMPTS {
        r := HandleMaxAttemptsReached(m, f);
      } else {
        r := HandleRetry(m, f, t);
      }
    }

    method HandleMaxAttemptsReached(m: Message, f: Faults) returns (r: Return)
      requires Wired()
      modifies db
      ensures (db.Snapshot(), r) == DeadLettered(old(db.Snapshot()), m, f)
    {
      var threw := db.UpdateStatus(m.messageId, FAILED, false, m.attempt + 1, f.markFailed);
      if threw {
        return Threw;
      }
      threw := db.SaveDlqEntry(DeadLetter(m.messageId, m.channel), f.saveDlq);
      if threw {
        return Threw;
      }
      threw := db.PublishDlq(DeadLetter(m.messageId, m.channel), f.publishDlq);
      if threw || f.logFailed.Throws() || f.publishError.Throws() {
        return Threw;
      }
      r := DEAD;
    }

    method HandleRetry(m: Message, f: Faults, t: Times) returns (r: Return)
      requires Wired()
      modifies db
      ensures (db.Snapshot(), r) == Retried(old(db.Snapshot()), m, f, t)
    {
      var attemptNumber := m.attempt + 1;
      var threw := db.UpdateStatus(m.messageId, PENDING, false, attemptNumber, f.markPending);
      if threw {
        return Threw;
      }
      threw := scheduler.ScheduleRetry(m.messageId, m.channel, attemptNumber, Delay(attemptNumber),
                                       t.schedule, f.schedule);
      if threw || f.logRetry.Throws() {
        return Threw;
      }
      r := RETRY;
    }
  }

  // ---------------------------------------------- result and state, any faults

  /** What a normal return says about the message's own records. */
  ghost predicate Agrees(s: State, s': State, m: Message, t: Times, r: Return)
  {
    var id, letter := m.messageId, DeadLetter(m.messageId, m.channel);
    && id in s'.rows
    && (r == DUPLICATE ==>
          s'.rows == s.rows && s.rows[id].finalDelivered && s'.calls == s.calls && s'.audits == s.audits)
    && (r == SUCCESS ==>
          && s'.rows[id].status == SENT && s'.rows[id].finalDelivered && s'.rows[id].attempts == m.attempt + 1
          && s'.audits == s.audits + [Attempt(id, m.attempt + 1, true)])
    && (r == RETRY ==>
          && m.attempt + 1 < MAX_ATTEMPTS
          && s'.rows[id].status == PENDING && !s'.rows[id].finalDelivered && s'.rows[id].attempts == m.attempt + 1
          && NextPayload(m) in s'.retries && s'.retries[NextPayload(m)] == t.schedule + Delay(m.attempt + 1)
          && |s'.audits| > |s.audits| && s'.audits[|s'.audits| - 1] == Attempt(id, m.attempt + 1, false))
    && (r == DEAD ==>
          && m.attempt + 1 >= MAX_ATTEMPTS
          && s'.rows[id].status == FAILED && !s'.rows[id].finalDelivered && s'.rows[id].attempts == m.attempt + 1
          && s'.dlqRows == s.dlqRows + [letter] && s'.dlqTopic == s.dlqTopic + [letter]
          && |s'.audits| > |s.audits| && s'.audits[|s'.audits| - 1] == Attempt(id, m.attempt + 1, false))
  }

  /** States a call passes through before it settles. */
  ghost predicate Underway(s0: State, s: State) {
    s0.rows.Keys == s.rows.Keys && s0.audits <= s.audits && s0.dlqRows == s.dlqRows && s0.dlqTopic == s.dlqTopic
  }

  lemma CaughtAgrees(s0: State, s: State, m: Message, f: Faults, t: Times)
    requires Underway(s0, s)
    ensures var (s', r) := Caught(s, m, f, t);
            (r == RETRY || r == DEAD || r == Threw) && (r != Threw ==> Agrees(s0, s', m, t, r))
  {
  }

  lemma SucceededAgrees(s0: State, s: State, m: Message, f: Faults, t: Times)
    requires Underway(s0, s) && s0.audits == s.audits
    ensures var (s', r) := Succeeded(s, m, f, t);
            (r == SUCCESS || r == RETRY || r == DEAD || r == Threw) && (r != Threw ==> Agrees(s0, s', m, t, r))
  {
    var s1 := Mark(s, m, SENT, true, f.markSent);
    var s2 := SaveAttempt(s1, m, true, f.saveSuccess);
    var s3 := Warm(s2, m, f.setEx, t.warm);
    if f.markSent.Throws() {
      CaughtAgrees(s0, s1, m, f, t);
    } else if SaveThrows(s1, m, f.saveSuccess) {
      CaughtAgrees(s0, s2, m, f, t);
    } else if f.logSent.Throws() {
      CaughtAgrees(s0, s3, m, f, t);
    }
  }

  lemma SentAgrees(s0: State, s: State, m: Message, f: Faults, t: Times)
    requires Underway(s0, s) && s0.audits == s.audits
    ensures var (s', r) := Sent(s, m, f, t);
            (r == SUCCESS || r == RETRY || r == DEAD || r == Threw) && (r != Threw ==> Agrees(s0, s', m, t, r))
  {
    CaughtAgrees(s0, Called(s, m, f, t), m, f, t);
    SucceededAgrees(s0, Called(s, m, f, t), m, f, t);
  }

  /** A normal return tells the truth: success means the row is delivered;
      retry means it is PENDING and its payload queued; neither means it is FAILED
      with a dead letter stored and published.  No placement of faults among the
      effects can make a normal return leave the row IN_PROGRESS. */
  lemma ResultAgrees(s: State, m: Message, f: Faults, t: Times)
    requires Coherent(s.rows)
    ensures var (s', r) := Deliver(s, m, f, t);
            r != Threw ==>
              && (r == SUCCESS || r == DUPLICATE || r == RETRY || r == DEAD)
              && Agrees(s, s', m, t, r)
              && (r.success <==> s'.rows[m.messageId].status == SENT)
              && s'.rows[m.messageId].status != IN_PROGRESS
  {
    var s1 := AfterDedup(s, m, f, t.check);
    SentAgrees(s, s1, m, f, t);
    CaughtAgrees(s, s1, m, f, t);
  }

  /** Success, or a duplicate, is only ever reported for a row that is delivered. */
  lemma SuccessDelivers(s: State, m: Message, f: Faults, t: Times)
    ensures var (s', r) := Deliver(s, m, f, t);
            r.Returned? && (r.success || r.isDuplicate) ==> Delivered(s'.rows, m.messageId)
  {
    var s1 := AfterDedup(s, m, f, t.check);
    SentAgrees(s, s1, m, f, t);
    CaughtAgrees(s, s1, m, f, t);
  }

  lemma MarkCoherent(s: State, m: Message, status: Status, delivered: bool, o: Outcome)
    requires Coherent(s.rows) && (delivered <==> status == SENT)
    ensures Coherent(Mark(s, m, status, delivered, o).rows)
  {
  }

  lemma CaughtCoherent(s: State, m: Message, f: Faults, t: Times)
    requires Coherent(s.rows)
    ensures Coherent(Caught(s, m, f, t).0.rows)
  {
    var s1 := SaveAttempt(s, m, false, f.saveFailure);
    MarkCoherent(s1, m, PENDING, false, f.markPending);
    MarkCoherent(s1, m, FAILED, false, f.markFailed);
  }

  lemma SucceededCoherent(s: State, m: Message, f: Faults, t: Times)
    requires Coherent(s.rows)
    ensures Coherent(Succeeded(s, m, f, t).0.rows)
  {
    var s1 := Mark(s, m, SENT, true, f.markSent);
    var s2 := SaveAttempt(s1, m, true, f.saveSuccess);
    MarkCoherent(s, m, SENT, true, f.markSent);
    CaughtCoherent(s1, m, f, t);
    CaughtCoherent(s2, m, f, t);
    CaughtCoherent(Warm(s2, m, f.setEx, t.warm), m, f, t);
  }

  /** No call, however it ends, separates finalDelivered from the status SENT. */
  lemma CoherentKept(s: State, m: Message, f: Faults, t: Times)
    requires Coherent(s.rows)
    ensures Coherent(Deliver(s, m, f, t).0.rows)
  {
    var s1 := AfterDedup(s, m, f, t.check);
    CaughtCoherent(s1, m, f, t);
    CaughtCoherent(Called(s1, m, f, t), m, f, t);
    SucceededCoherent(Called(s1, m, f, t), m, f, t);
  }

  // ------------------------------------------------------ what a call leaves alone

  /** Same row, but for what UPDATE writes. */
  predicate SameIdentity(r: Row, r': Row) {
    r' == r.(status := r'.status, finalDelivered := r'.finalDelivered, attempts := r'.attempts)
  }

  predicate OwnRow(rows: map<string, Row>, rows': map<string, Row>, id: string) {
    && rows'.Keys == rows.Keys
    && forall k :: k in rows ==> SameIdentity(rows[k], rows'[k]) && (k != id ==> rows'[k] == rows[k])
  }

  ghost predicate OwnKey(m: map<string, int>, m': map<string, int>, key: string) {
    forall k :: k != key ==> (k in m <==> k in m') && (k in m && k in m' ==> m[k] == m'[k])
  }

  predicate OwnAudits(log: seq<Attempt>, log': seq<Attempt>, id: string) {
    log <= log' && forall i :: |log| <= i < |log'| ==> log'[i].messageId == id
  }

  predicate OwnLetters(log: seq<DeadLetter>, log': seq<DeadLetter>, id: string) {
    log <= log' && forall i :: |log| <= i < |log'| ==> log'[i].messageId == id
  }

  predicate OwnCalls(log: seq<Call>, log': seq<Call>, id: string) {
    log <= log' && forall i :: |log| <= i < |log'| ==> log'[i].messageId == id
  }

  /** Only the message's own row, cache key and next payload can change; the
      logs only grow, by entries of this message. */
  ghost predicate Touches(s: State, s': State, m: Message) {
    && OwnRow(s.rows, s'.rows, m.messageId)
    && OwnKey(s.cache, s'.cache, DeliveryKey(m.dedupKey))
    && OwnKey(s.retries, s'.retries, NextPayload(m))
    && OwnAudits(s.audits, s'.audits, m.messageId)
    && OwnLetters(s.dlqRows, s'.dlqRows, m.messageId)
    && OwnLetters(s.dlqTopic, s'.dlqTopic, m.messageId)
    && OwnCalls(s.calls, s'.calls, m.messageId)
  }

  lemma TouchesTransitive(a: State, b: State, c: State, m: Message)
    requires Touches(a, b, m) && Touches(b, c, m)
    ensures Touches(a, c, m)
  {
  }

  lemma MarkTouches(s: State, m: Message, status: Status, delivered: bool, o: Outcome)
    ensures Touches(s, Mark(s, m, status, delivered, o), m)
  {
  }

  lemma SaveTouches(s: State, m: Message, success: bool, o: Outcome)
    ensures Touches(s, SaveAttempt(s, m, success, o), m)
  {
  }

  lemma CaughtTouches(s: State, m: Message, f: Faults, t: Times)
    ensures Touches(s, Caught(s, m, f, t).0, m)
  {
    var s1 := SaveAttempt(s, m, false, f.saveFailure);
    SaveTouches(s, m, false, f.saveFailure);
    if !SaveThrows(s, m, f.saveFailure) {
      var s' := Caught(s, m, f, t).0;
      if m.attempt + 1 >= MAX_ATTEMPTS {
        DeadLetteredTouches(s1, m, f);
      } else {
        RetriedTouches(s1, m, f, t);
      }
      TouchesTransitive(s, s1, s', m);
    }
  }

  lemma LettersTouch(s: State, s': State, m: Message)
    requires s' == s.(dlqRows := s'.dlqRows, dlqTopic := s'.dlqTopic)
    requires s'.dlqRows == s.dlqRows || s'.dlqRows == s.dlqRows + [DeadLetter(m.messageId, m.channel)]
    requires s'.dlqTopic == s.dlqTopic || s'.dlqTopic == s.dlqTopic + [DeadLetter(m.messageId, m.channel)]
    ensures Touches(s, s', m)
  {
  }

  lemma DeadLetteredTouches(s: State, m: Message, f: Faults)
    ensures Touches(s, DeadLettered(s, m, f).0, m)
  {
    var s1, s' := Mark(s, m, FAILED, false, f.markFailed), DeadLettered(s, m, f).0;
    MarkTouches(s, m, FAILED, false, f.markFailed);
    LettersTouch(s1, s', m);
    TouchesTransitive(s, s1, s', m);
  }

  lemma RetriedTouches(s: State, m: Message, f: Faults, t: Times)
    ensures Touches(s, Retried(s, m, f, t).0, m)
  {
    var s1, s' := Mark(s, m, PENDING, false, f.markPending), Retried(s, m, f, t).0;
    MarkTouches(s, m, PENDING, false, f.markPending);
    assert s' == s1.(retries := s'.retries);
    assert Touches(s1, s', m);
    TouchesTransitive(s, s1, s', m);
  }

  lemma CaughtAfterTouches(s: State, s1: State, m: Message, f: Faults, t: Times)
    requires Touches(s, s1, m)
    ensures Touches(s, Caught(s1, m, f, t).0, m)
  {
    CaughtTouches(s1, m, f, t);
    TouchesTransitive(s, s1, Caught(s1, m, f, t).0, m);
  }

  lemma WarmTouches(s: State, m: Message, o: Outcome, now: int)
    ensures Touches(s, Warm(s, m, o, now), m)
  {
  }

  lemma SucceededTouches(s: State, m: Message, f: Faults, t: Times)
    ensures Touches(s, Succeeded(s, m, f, t).0, m)
  {
    var s1 := Mark(s, m, SENT, true, f.markSent);
    var s2 := SaveAttempt(s1, m, true, f.saveSuccess);
    var s3 := Warm(s2, m, f.setEx, t.warm);
    assert Touches(s, s1, m) by { MarkTouches(s, m, SENT, true, f.markSent); }
    assert Touches(s, s2, m) by { SaveTouches(s1, m, true, f.saveSuccess); TouchesTransitive(s, s1, s2, m); }
    assert Touches(s, s3, m) by { WarmTouches(s2, m, f.setEx, t.warm); TouchesTransitive(s, s2, s3, m); }
    if f.markSent.Throws() {
      CaughtAfterTouches(s, s1, m, f, t);
    } else if SaveThrows(s1, m, f.saveSuccess) {
      CaughtAfterTouches(s, s2, m, f, t);
    } else if f.logSent.Throws() {
      CaughtAfterTouches(s, s3, m, f, t);
    }
  }

  lemma SentTouches(s: State, m: Message, f: Faults, t: Times)
    ensures Touches(s, Sent(s, m, f, t).0, m)
  {
    var s0 := Called(s, m, f, t);
    assert Touches(s, s0, m);
    CaughtTouches(s0, m, f, t);
    SucceededTouches(s0, m, f, t);
    TouchesTransitive(s, s0, Sent(s, m, f, t).0, m);
  }

  /** Whatever fails, and even when it throws, a call touches nothing of another message. */
  lemma DeliverTouches(s: State, m: Message, f: Faults, t: Times)
    ensures Touches(s, Deliver(s, m, f, t).0, m)
  {
    var s1, s' := AfterDedup(s, m, f, t.check), Deliver(s, m, f, t).0;
    assert Touches(s, s1, m);
    CaughtTouches(s1, m, f, t);
    SentTouches(s1, m, f, t);
    TouchesTransitive(s, s1, s', m);
  }

  // ------------------------------------------------------- when the provider is called

  lemma CaughtCalls(s: State, m: Message, f: Faults, t: Times)
    ensures Caught(s, m, f, t).0.calls == s.calls
  {
  }

  lemma SucceededCalls(s: State, m: Message, f: Faults, t: Times)
    ensures Succeeded(s, m, f, t).0.calls == s.calls
  {
    var s1 := Mark(s, m, SENT, true, f.markSent);
    var s2 := SaveAttempt(s1, m, true, f.saveSuccess);
    CaughtCalls(s1, m, f, t);
    CaughtCalls(s2, m, f, t);
    CaughtCalls(Warm(s2, m, f.setEx, t.warm), m, f, t);
  }

  lemma SentCalls(s: State, m: Message, f: Faults, t: Times)
    ensures Sent(s, m, f, t).0.calls == s.calls + [Call(m.messageId, m.attempt + 1, t.send, f.send.Done?)]
  {
    CaughtCalls(Called(s, m, f, t), m, f, t);
    SucceededCalls(Called(s, m, f, t), m, f, t);
  }

  predicate Cached(s: State, m: Message, t: Times) {
    Live(s.cache, DeliveryKey(m.dedupKey), t.check)
  }

  /** The provider is spared exactly when Redis answers with a live entry and
      the row then reads as delivered, or cannot be read; it is never called twice
      in one call. */
  lemma ProviderCalledIff(s: State, m: Message, f: Faults, t: Times)
    ensures var s' := Deliver(s, m, f, t).0;
            if f.exists_.Done? && Cached(s, m, t) && (f.getStatus.Throws() || Delivered(s.rows, m.messageId))
            then s'.calls == s.calls
            else s'.calls == s.calls + [Call(m.messageId, m.attempt + 1, t.send, f.send.Done?)]
  {
    var s1 := AfterDedup(s, m, f, t.check);
    SentCalls(s1, m, f, t);
    CaughtCalls(s1, m, f, t);
  }

  // --------------------------------------------------- order of effects, even on a throw

  /** What the records say about each other after a call, whether it returned or
      threw midway.  A retry is queued only for a row already PENDING whose failure is
      audited; a dead letter is published only once stored, and stored only for a row
      already FAILED and audited; never both. */
  ghost predicate InOrder(s: State, s': State, m: Message) {
    var id, letter := m.messageId, DeadLetter(m.messageId, m.channel);
    var audited := FailureAudited(s, s', m);
    && (s'.retries != s.retries ==>
          && audited && m.attempt + 1 < MAX_ATTEMPTS && s'.dlqRows == s.dlqRows
          && id in s'.rows && s'.rows[id].status == PENDING && !s'.rows[id].finalDelivered)
    && (s'.dlqRows != s.dlqRows ==>
          && audited && m.attempt + 1 >= MAX_ATTEMPTS && s'.dlqRows == s.dlqRows + [letter]
          && id in s'.rows && s'.rows[id].status == FAILED && !s'.rows[id].finalDelivered)
    && (s'.dlqTopic != s.dlqTopic ==>
          s'.dlqTopic == s.dlqTopic + [letter] && s'.dlqRows == s.dlqRows + [letter])
  }

  /** The failed attempt is the last one audited since `s0`. */
  predicate FailureAudited(s0: State, s: State, m: Message) {
    |s.audits| > |s0.audits| && s.audits[|s.audits| - 1] == Attempt(m.messageId, m.attempt + 1, false)
  }

  lemma RetriedInOrder(s0: State, s: State, m: Message, f: Faults, t: Times)
    requires Underway(s0, s) && s0.retries == s.retries && FailureAudited(s0, s, m)
    requires m.messageId in s.rows && m.attempt + 1 < MAX_ATTEMPTS
    ensures InOrder(s0, Retried(s, m, f, t).0, m)
  {
  }

  lemma DeadLetteredInOrder(s0: State, s: State, m: Message, f: Faults)
    requires Underway(s0, s) && s0.retries == s.retries && FailureAudited(s0, s, m)
    requires m.messageId in s.rows && m.attempt + 1 >= MAX_ATTEMPTS
    ensures InOrder(s0, DeadLettered(s, m, f).0, m)
  {
    var s1, s' := Mark(s, m, FAILED, false, f.markFailed), DeadLettered(s, m, f).0;
    if f.markFailed.Throws() {
      assert s' == s1;
    } else {
      assert s' == s1.(dlqRows := s'.dlqRows, dlqTopic := s'.dlqTopic);
      assert s'.rows[m.messageId].status == FAILED;
    }
  }

  lemma CaughtInOrder(s0: State, s: State, m: Message, f: Faults, t: Times)
    requires Underway(s0, s) && s0.retries == s.retries
    ensures InOrder(s0, Caught(s, m, f, t).0, m)
    ensures Delivered(Caught(s, m, f, t).0.rows, m.messageId) ==> Delivered(s.rows, m.messageId)
  {
    var s1 := SaveAttempt(s, m, false, f.saveFailure);
    if !SaveThrows(s, m, f.saveFailure) {
      assert FailureAudited(s0, s1, m);
      if m.attempt + 1 >= MAX_ATTEMPTS {
        DeadLetteredInOrder(s0, s1, m, f);
      } else {
        RetriedInOrder(s0, s1, m, f, t);
      }
    }
  }

  lemma SucceededInOrder(s0: State, s: State, m: Message, f: Faults, t: Times)
    requires Underway(s0, s) && s0.retries == s.retries
    ensures InOrder(s0, Succeeded(s, m, f, t).0, m)
  {
    var s1 := Mark(s, m, SENT, true, f.markSent);
    var s2 := SaveAttempt(s1, m, true, f.saveSuccess);
    CaughtInOrder(s0, s1, m, f, t);
    CaughtInOrder(s0, s2, m, f, t);
    CaughtInOrder(s0, Warm(s2, m, f.setEx, t.warm), m, f, t);
  }

  /** Wherever a call stops, its effects came in the order that keeps the records
      safe to read, and no row became delivered without a successful provider call. */
  lemma EffectsInOrder(s: State, m: Message, f: Faults, t: Times)
    ensures var s' := Deliver(s, m, f, t).0;
            && InOrder(s, s', m)
            && (Delivered(s'.rows, m.messageId) && !Delivered(s.rows, m.messageId)
                ==> s'.calls == s.calls + [Call(m.messageId, m.attempt + 1, t.send, true)])
  {
    var s1 := AfterDedup(s, m, f, t.check);
    var s2 := Called(s1, m, f, t);
    CaughtInOrder(s, s1, m, f, t);
    CaughtInOrder(s, s2, m, f, t);
    SucceededInOrder(s, s2, m, f, t);
    ProviderCalledIff(s, m, f, t);
  }

  lemma CaughtResets(s: State, m: Message, f: Faults, t: Times)
    ensures var (s', r) := Caught(s, m, f, t);
            r != Threw ==> m.messageId in s'.rows && !s'.rows[m.messageId].finalDelivered
    ensures !Caught(s, m, f, t).1.Returned? || !Caught(s, m, f, t).1.success
  {
  }

  /** "Success" can be lost after the provider accepted the message.  It is
      reported exactly when the row exists and the three bookkeeping effects that
      are not guarded all return; otherwise a normal return has put the row back
      to undelivered. */
  lemma SuccessKeptIff(s: State, m: Message, f: Faults, t: Times)
    requires var s' := Deliver(s, m, f, t).0; |s'.calls| > |s.calls| && s'.calls[|s.calls|].success
    ensures var (s', r) := Deliver(s, m, f, t);
            && (r == SUCCESS <==> m.messageId in s.rows && f.markSent.Done? && f.saveSuccess.Done? && f.logSent.Done?)
            && (r != Threw ==> (r == SUCCESS <==> Delivered(s'.rows, m.messageId)))
  {
    ProviderCalledIff(s, m, f, t);
    var s0 := Called(AfterDedup(s, m, f, t.check), m, f, t);
    var s1 := Mark(s0, m, SENT, true, f.markSent);
    var s2 := SaveAttempt(s1, m, true, f.saveSuccess);
    CaughtResets(s1, m, f, t);
    CaughtResets(s2, m, f, t);
    CaughtResets(Warm(s2, m, f.setEx, t.warm), m, f, t);
  }

  /** A success that was not kept is not remembered: after such a normal return the
      next call for the message sends again, unless its own status read fails. */
  lemma LostSuccessResends(s: State, m: Message, f: Faults, t: Times, m': Message, f': Faults, t': Times)
    requires var (s', r) := Deliver(s, m, f, t);
             |s'.calls| > |s.calls| && s'.calls[|s.calls|].success && r != SUCCESS && r != Threw
    requires m'.messageId == m.messageId && f'.getStatus.Done?
    ensures var s' := Deliver(s, m, f, t).0;
            Deliver(s', m', f', t').0.calls == s'.calls + [Call(m.messageId, m'.attempt + 1, t'.send, f'.send.Done?)]
  {
    SuccessKeptIff(s, m, f, t);
    ProviderCalledIff(Deliver(s, m, f, t).0, m', f', t');
  }
}
