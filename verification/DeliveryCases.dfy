/** One call of processDelivery, case by case: its return and each record it
    leaves, as closed forms over the outcomes of its effects.  Together they say
    what every call does, also one that throws midway. */
module DeliveryCases {
  import opened Text
  import opened Store
  import opened Backoff
  import opened Delivery

  // ----------------------------------------------------------------------- cases

  /** Redis answers that the message was delivered lately. */
  predicate Hit(s: State, m: Message, f: Faults, t: Times) {
    f.exists_.Done? && DeliveryKey(m.dedupKey) in s.cache && t.check < s.cache[DeliveryKey(m.dedupKey)]
  }

  /** ... and the row confirms it. */
  predicate Confirmed(s: State, m: Message, f: Faults, t: Times) {
    Hit(s, m, f, t) && f.getStatus.Done? && m.messageId in s.rows && s.rows[m.messageId].finalDelivered
  }

  /** The provider is called: there is no hit, or a row that can be read denies it. */
  predicate Called(s: State, m: Message, f: Faults, t: Times) {
    !Hit(s, m, f, t) || (f.getStatus.Done? && !(m.messageId in s.rows && s.rows[m.messageId].finalDelivered))
  }

  predicate Accepted(s: State, m: Message, f: Faults, t: Times) {
    Called(s, m, f, t) && f.send.Done?
  }

  /** The provider accepted the message, and row and audit trail say so. */
  predicate Recorded(s: State, m: Message, f: Faults, t: Times) {
    Accepted(s, m, f, t) && m.messageId in s.rows && f.markSent.Done? && f.saveSuccess.Done?
  }

  predicate Succeeds(s: State, m: Message, f: Faults, t: Times) {
    Recorded(s, m, f, t) && f.logSent.Done?
  }

  /** The try block throws, and the failure is audited. */
  predicate Handled(s: State, m: Message, f: Faults, t: Times) {
    !Confirmed(s, m, f, t) && !Succeeds(s, m, f, t) && m.messageId in s.rows && f.saveFailure.Done?
  }

  /** The table with these three columns of one row overwritten. */
  function Written(rows: map<string, Row>, id: string, status: Status, delivered: bool, n: nat): map<string, Row>
    requires id in rows
  {
    rows[id := rows[id].(status := status, finalDelivered := delivered, attempts := n)]
  }

  lemma WrittenTwice(rows: map<string, Row>, id: string, st1: Status, d1: bool, st2: Status, d2: bool, n: nat)
    requires id in rows
    ensures Written(Written(rows, id, st1, d1, n), id, st2, d2, n) == Written(rows, id, st2, d2, n)
  {
  }

  // ------------------------------------------------------------------ the try block

  /** The state when the try block is left, by return or throw. */
  function Attempted(s: State, m: Message, f: Faults, t: Times): State {
    var id, n, key := m.messageId, m.attempt + 1, DeliveryKey(m.dedupKey);
    s.(cache := if Recorded(s, m, f, t) && f.setEx.Lands() then s.cache[key := t.warm + 86400000]
    else if f.exists_.Done? && !Hit(s, m, f, t) && f.setNx.Lands() then s.cache[key := t.check + 86400000]
    else s.cache,
         calls := if Called(s, m, f, t) then s.calls + [Call(id, n, t.send, f.send.Done?)] else s.calls,
         parcels := if Called(s, m, f, t) then s.parcels + [Parcel(m.recipient, m.body)] else s.parcels,
         rows := if Accepted(s, m, f, t) && id in s.rows && f.markSent.Lands()
         then Written(s.rows, id, SENT, true, n) else s.rows,
         audits := if Accepted(s, m, f, t) && id in s.rows && f.markSent.Done? && f.saveSuccess.Lands()
         then s.audits + [Attempt(id, n, true)] else s.audits)
  }

  /** How a call goes on after that state. */
  function Concluded(s: State, m: Message, f: Faults, t: Times): (State, Return) {
    if Confirmed(s, m, f, t) then (Attempted(s, m, f, t), Returned(true, false, true))
    else if Succeeds(s, m, f, t) then (Attempted(s, m, f, t), Returned(true, false, false))
    else Caught(Attempted(s, m, f, t), m, f, t)
  }

  lemma UnrecordedConcludes(s: State, s1: State, m: Message, f: Faults, t: Times)
    requires Accepted(s, m, f, t) && s1 == Delivery.Called(AfterDedup(s, m, f, t.check), m, f, t)
    requires !Recorded(s, m, f, t)
    ensures Succeeded(s1, m, f, t) == Concluded(s, m, f, t)
  {
    var s2 := Mark(s1, m, SENT, true, f.markSent);
    if f.markSent.Throws() {
      assert s2 == Attempted(s, m, f, t);
    } else {
      assert SaveAttempt(s2, m, true, f.saveSuccess) == Attempted(s, m, f, t);
    }
  }

  /** The state once the cache was refreshed. */
  function Refreshed(s1: State, m: Message, f: Faults, t: Times): State {
    Warm(SaveAttempt(Mark(s1, m, SENT, true, f.markSent), m, true, f.saveSuccess), m, f.setEx, t.warm)
  }

  lemma RefreshedIsAttempted(s: State, s1: State, m: Message, f: Faults, t: Times)
    requires Recorded(s, m, f, t) && s1 == Delivery.Called(AfterDedup(s, m, f, t.check), m, f, t)
    ensures Refreshed(s1, m, f, t) == Attempted(s, m, f, t)
  {
    var key := DeliveryKey(m.dedupKey);
    assert s.cache[key := t.check + 86400000][key := t.warm + 86400000] == s.cache[key := t.warm + 86400000];
  }

  lemma RecordedConcludes(s: State, s1: State, m: Message, f: Faults, t: Times)
    requires Recorded(s, m, f, t) && s1 == Delivery.Called(AfterDedup(s, m, f, t.check), m, f, t)
    ensures Succeeded(s1, m, f, t) == Concluded(s, m, f, t)
  {
    RefreshedIsAttempted(s, s1, m, f, t);
    var s3 := Refreshed(s1, m, f, t);
    assert Succeeded(s1, m, f, t) == if f.logSent.Done? then (s3, SUCCESS) else Caught(s3, m, f, t);
  }

  lemma DeliverConcludes(s: State, m: Message, f: Faults, t: Times)
    ensures Deliver(s, m, f, t) == Concluded(s, m, f, t)
  {
    if Accepted(s, m, f, t) {
      var s1 := Delivery.Called(AfterDedup(s, m, f, t.check), m, f, t);
      if Recorded(s, m, f, t) {
        RecordedConcludes(s, s1, m, f, t);
      } else {
        UnrecordedConcludes(s, s1, m, f, t);
      }
    }
  }

  // ---------------------------------------------------------------- the catch block

  /** Every record after the catch block, and its return. */
  ghost predicate CatchForm(s: State, s': State, r: Return, m: Message, f: Faults, t: Times) {
    var id, n, letter := m.messageId, m.attempt + 1, DeadLetter(m.messageId, m.channel);
    var again := id in s.rows && f.saveFailure.Done? && n < 4;
    var over := id in s.rows && f.saveFailure.Done? && n >= 4;
    && s'.cache == s.cache && s'.calls == s.calls && s'.parcels == s.parcels
    && s'.audits == (if id in s.rows && f.saveFailure.Lands() then s.audits + [Attempt(id, n, false)] else s.audits)
    && s'.rows == (if again && f.markPending.Lands()
                   then Written(s.rows, id, PENDING, false, n)
                   else if over && f.markFailed.Lands()
                     then Written(s.rows, id, FAILED, false, n)
                     else s.rows)
    && s'.retries == (if again && f.markPending.Done? && f.schedule.Lands()
                      then s.retries[Payload(id, ChannelName(m.channel), n + 1) := t.schedule + Delay(n)]
                      else s.retries)
    && s'.dlqRows == (if over && f.markFailed.Done? && f.saveDlq.Lands() then s.dlqRows + [letter] else s.dlqRows)
    && s'.dlqTopic == (if over && f.markFailed.Done? && f.saveDlq.Done? && f.publishDlq.Lands()
                       then s.dlqTopic + [letter] else s.dlqTopic)
    && r == (if again && f.markPending.Done? && f.schedule.Done? && f.logRetry.Done? then Returned(false, true, false)
             else if over && f.markFailed.Done? && f.saveDlq.Done? && f.publishDlq.Done?
                     && f.logFailed.Done? && f.publishError.Done? then Returned(false, false, false)
             else Threw)
  }

  lemma RetriedForm(s: State, m: Message, f: Faults, t: Times)
    requires m.messageId in s.rows && m.attempt + 1 < 4 && f.saveFailure.Done?
    ensures var (s', r) := Retried(SaveAttempt(s, m, false, f.saveFailure), m, f, t); CatchForm(s, s', r, m, f, t)
  {
  }

  lemma DeadLetteredForm(s: State, m: Message, f: Faults, t: Times)
    requires m.messageId in s.rows && m.attempt + 1 >= 4 && f.saveFailure.Done?
    ensures var (s', r) := DeadLettered(SaveAttempt(s, m, false, f.saveFailure), m, f); CatchForm(s, s', r, m, f, t)
  {
  }

  lemma CaughtForm(s: State, m: Message, f: Faults, t: Times)
    ensures var (s', r) := Caught(s, m, f, t); CatchForm(s, s', r, m, f, t)
  {
    if !SaveThrows(s, m, f.saveFailure) {
      if m.attempt + 1 >= 4 {
        DeadLetteredForm(s, m, f, t);
      } else {
        RetriedForm(s, m, f, t);
      }
    }
  }

  // ------------------------------------------------------------------- main results

  /** What a call returns. */
  lemma ReturnIs(s: State, m: Message, f: Faults, t: Times)
    ensures Deliver(s, m, f, t).1 ==
            if Confirmed(s, m, f, t) then Returned(true, false, true)
            else if Succeeds(s, m, f, t) then Returned(true, false, false)
            else if Handled(s, m, f, t) && m.attempt < 3 && f.markPending.Done? && f.schedule.Done? && f.logRetry.Done?
            then Returned(false, true, false)
            else if Handled(s, m, f, t) && m.attempt >= 3 && f.markFailed.Done? && f.saveDlq.Done?
                    && f.publishDlq.Done? && f.logFailed.Done? && f.publishError.Done?
              then Returned(false, false, false)
              else Threw
  {
    DeliverConcludes(s, m, f, t);
    CaughtForm(Attempted(s, m, f, t), m, f, t);
  }

  /** A call answers "duplicate" exactly when the dedup read returns a live entry and
      the status read a delivered row. */
  lemma DuplicateIff(s: State, m: Message, f: Faults, t: Times)
    ensures var r := Deliver(s, m, f, t).1;
            r == Returned(true, false, true) <==>
            && f.exists_.Done? && DeliveryKey(m.dedupKey) in s.cache && t.check < s.cache[DeliveryKey(m.dedupKey)]
            && f.getStatus.Done? && m.messageId in s.rows && s.rows[m.messageId].finalDelivered
  {
    ReturnIs(s, m, f, t);
  }

  /** A call throws exactly when its catch block is entered and does not get through. */
  lemma ThrowsIff(s: State, m: Message, f: Faults, t: Times)
    ensures Deliver(s, m, f, t).1.Threw? <==>
            && !Confirmed(s, m, f, t) && !Succeeds(s, m, f, t)
            && (m.messageId !in s.rows || f.saveFailure.Throws()
                || (m.attempt < 3 && (f.markPending.Throws() || f.schedule.Throws() || f.logRetry.Throws()))
                || (m.attempt >= 3 && (f.markFailed.Throws() || f.saveDlq.Throws() || f.publishDlq.Throws()
                                       || f.logFailed.Throws() || f.publishError.Throws())))
  {
    ReturnIs(s, m, f, t);
  }

  /** What the provider is given: once, the message's recipient and body, or nothing. */
  lemma CallsAre(s: State, m: Message, f: Faults, t: Times)
    ensures var s' := Deliver(s, m, f, t).0;
            && s'.calls == s.calls + (if Called(s, m, f, t)
                                      then [Call(m.messageId, m.attempt + 1, t.send, f.send.Done?)] else [])
            && s'.parcels == s.parcels + (if Called(s, m, f, t) then [Parcel(m.recipient, m.body)] else [])
  {
    DeliverConcludes(s, m, f, t);
    CaughtForm(Attempted(s, m, f, t), m, f, t);
  }

  /** What the message's row says afterwards; no other row changes. */
  lemma RowsAre(s: State, m: Message, f: Faults, t: Times)
    ensures var id, n := m.messageId, m.attempt + 1;
            Deliver(s, m, f, t).0.rows ==
            if Handled(s, m, f, t) && n < 4 && f.markPending.Lands()
            then Written(s.rows, id, PENDING, false, n)
            else if Handled(s, m, f, t) && n >= 4 && f.markFailed.Lands()
              then Written(s.rows, id, FAILED, false, n)
              else if Accepted(s, m, f, t) && id in s.rows && f.markSent.Lands()
                then Written(s.rows, id, SENT, true, n)
                else s.rows
  {
    DeliverConcludes(s, m, f, t);
    CaughtForm(Attempted(s, m, f, t), m, f, t);
    if m.messageId in s.rows {
      WrittenTwice(s.rows, m.messageId, SENT, true, PENDING, false, m.attempt + 1);
      WrittenTwice(s.rows, m.messageId, SENT, true, FAILED, false, m.attempt + 1);
    }
  }

  /** What dead letters are stored and published afterwards. */
  lemma LettersAre(s: State, m: Message, f: Faults, t: Times)
    ensures var s', letter := Deliver(s, m, f, t).0, DeadLetter(m.messageId, m.channel);
            var over := Handled(s, m, f, t) && m.attempt >= 3;
            && s'.dlqRows == s.dlqRows + (if over && f.markFailed.Done? && f.saveDlq.Lands() then [letter] else [])
            && s'.dlqTopic == s.dlqTopic + (if over && f.markFailed.Done? && f.saveDlq.Done? && f.publishDlq.Lands()
                                            then [letter] else [])
  {
    DeliverConcludes(s, m, f, t);
    CaughtForm(Attempted(s, m, f, t), m, f, t);
  }

  /** What the audit trail holds afterwards. */
  lemma AuditsAre(s: State, m: Message, f: Faults, t: Times)
    ensures var id, n := m.messageId, m.attempt + 1;
            var caught := !Confirmed(s, m, f, t) && !Succeeds(s, m, f, t);
            Deliver(s, m, f, t).0.audits ==
            s.audits
            + (if Accepted(s, m, f, t) && id in s.rows && f.markSent.Done? && f.saveSuccess.Lands()
               then [Attempt(id, n, true)] else [])
            + (if caught && id in s.rows && f.saveFailure.Lands() then [Attempt(id, n, false)] else [])
  {
    DeliverConcludes(s, m, f, t);
    CaughtForm(Attempted(s, m, f, t), m, f, t);
  }

  /** What is queued afterwards: the scheduler adds one to the attempt number. */
  lemma QueueIs(s: State, m: Message, f: Faults, t: Times)
    ensures var id, n := m.messageId, m.attempt + 1;
            Deliver(s, m, f, t).0.retries ==
            if Handled(s, m, f, t) && n < 4 && f.markPending.Done? && f.schedule.Lands()
            then s.retries[Payload(id, ChannelName(m.channel), n + 1) := t.schedule + Delay(n)]
            else s.retries
  {
    DeliverConcludes(s, m, f, t);
    CaughtForm(Attempted(s, m, f, t), m, f, t);
  }

  /** What the delivery cache holds afterwards: a dedup check that finds nothing writes
      the entry for 24 hours, and so does a recorded success. */
  lemma CacheIs(s: State, m: Message, f: Faults, t: Times)
    ensures Deliver(s, m, f, t).0.cache ==
            if Recorded(s, m, f, t) && f.setEx.Lands() then s.cache[DeliveryKey(m.dedupKey) := t.warm + 86400000]
            else if f.exists_.Done? && !Hit(s, m, f, t) && f.setNx.Lands()
            then s.cache[DeliveryKey(m.dedupKey) := t.check + 86400000]
            else s.cache
  {
    DeliverConcludes(s, m, f, t);
    CaughtForm(Attempted(s, m, f, t), m, f, t);
  }
}
