/** One call of the older stack's execute, case by case: its return and each
    record it leaves, as closed forms over the outcomes of its effects. */
module UseCaseCases {
  import opened Text
  import opened Store
  import opened Backoff
  import opened Delivery
  import opened UseCase

  // ----------------------------------------------------------------------- cases

  /** The dedup answer is "new", and the row that was read is not delivered. */
  predicate Called(s: State, m: Message, isNew: bool, f: UseCaseFaults) {
    isNew && f.getStatus.Done? && !(m.messageId in s.rows && s.rows[m.messageId].finalDelivered)
  }

  /** Nothing is to be done: the cache says so, or the row. */
  predicate Settled(s: State, m: Message, isNew: bool, f: UseCaseFaults) {
    !isNew || (f.getStatus.Done? && m.messageId in s.rows && s.rows[m.messageId].finalDelivered)
  }

  predicate Accepted(s: State, m: Message, isNew: bool, f: UseCaseFaults) {
    Called(s, m, isNew, f) && f.send.Done?
  }

  predicate Succeeds(s: State, m: Message, isNew: bool, f: UseCaseFaults) {
    && Accepted(s, m, isNew, f) && m.messageId in s.rows
    && f.markSent.Done? && f.saveSuccess.Done? && f.logSent.Done?
  }

  /** The try block throws, and the failure is audited. */
  predicate Handled(s: State, m: Message, isNew: bool, f: UseCaseFaults) {
    !Settled(s, m, isNew, f) && !Succeeds(s, m, isNew, f) && m.messageId in s.rows && f.saveFailure.Done?
  }

  /** The table with these three columns of one row overwritten. */
  function Written(rows: map<string, Row>, id: string, status: Status, delivered: bool, n: nat): map<string, Row>
    requires id in rows
  {
    rows[id := rows[id].(status := status, finalDelivered := delivered, attempts := n)]
  }

  // ------------------------------------------------------------------ the try block

  /** The state when the try block is left, by return or throw. */
  function Attempted(s: State, m: Message, isNew: bool, f: UseCaseFaults, t: Times): State {
    var id, n := m.messageId, m.attempt + 1;
    s.(calls := if Called(s, m, isNew, f) then s.calls + [Call(id, n, t.send, f.send.Done?)] else s.calls,
    parcels := if Called(s, m, isNew, f) then s.parcels + [Parcel(m.recipient, m.body)] else s.parcels,
    rows := if Accepted(s, m, isNew, f) && id in s.rows && f.markSent.Lands()
    then Written(s.rows, id, SENT, true, n) else s.rows,
    audits := if Accepted(s, m, isNew, f) && id in s.rows && f.markSent.Done? && f.saveSuccess.Lands()
    then s.audits + [Attempt(id, n, true)] else s.audits)
  }

  lemma MarkedIsAttempted(s: State, m: Message, isNew: bool, f: UseCaseFaults, t: Times)
    requires Accepted(s, m, isNew, f)
    ensures var s1 := Mark(UseCase.Called(s, m, f, t), m, SENT, true, f.markSent);
            Attempted(s, m, isNew, f, t) == if f.markSent.Throws() then s1 else SaveAttempt(s1, m, true, f.saveSuccess)
  {
  }

  lemma RecordConcludes(s: State, m: Message, isNew: bool, f: UseCaseFaults, t: Times)
    requires Accepted(s, m, isNew, f)
    ensures RecordSuccess(UseCase.Called(s, m, f, t), m, f, t) ==
            if Succeeds(s, m, isNew, f) then (Attempted(s, m, isNew, f, t), SUCCESS)
            else HandleFailure(Attempted(s, m, isNew, f, t), m, f, t)
  {
    MarkedIsAttempted(s, m, isNew, f, t);
    var s1 := Mark(UseCase.Called(s, m, f, t), m, SENT, true, f.markSent);
    assert SaveThrows(s1, m, f.saveSuccess) <==> f.saveSuccess.Throws() || m.messageId !in s.rows;
  }

  lemma ExecuteConcludes(s: State, m: Message, isNew: bool, f: UseCaseFaults, t: Times)
    ensures Execute(s, m, isNew, f, t) ==
            if Settled(s, m, isNew, f) then (s, SUCCESS)
            else if Succeeds(s, m, isNew, f) then (Attempted(s, m, isNew, f, t), SUCCESS)
            else HandleFailure(Attempted(s, m, isNew, f, t), m, f, t)
  {
    if Accepted(s, m, isNew, f) {
      RecordConcludes(s, m, isNew, f, t);
    }
  }

  // ---------------------------------------------------------------- the catch block

  /** Every record after the catch block, and its return. */
  ghost predicate CatchForm(s: State, s': State, r: Return, m: Message, f: UseCaseFaults, t: Times) {
    var id, n, letter := m.messageId, m.attempt + 1, DeadLetter(m.messageId, m.channel);
    var again := id in s.rows && f.saveFailure.Done? && n < 4;
    var over := id in s.rows && f.saveFailure.Done? && n >= 4;
    && s'.cache == s.cache && s'.calls == s.calls && s'.parcels == s.parcels && s'.dlqTopic == s.dlqTopic
    && s'.audits == (if id in s.rows && f.saveFailure.Lands() then s.audits + [Attempt(id, n, false)] else s.audits)
    && s'.rows == (if over && f.markFailed.Lands() then Written(s.rows, id, FAILED, false, n) else s.rows)
    && s'.retries == (if again && f.schedule.Lands()
                      then s.retries[Payload(id, ChannelName(m.channel), n) := t.schedule + UseCaseDelay(n)]
                      else s.retries)
    && s'.dlqRows == (if over && f.markFailed.Done? && f.saveDlq.Lands() then s.dlqRows + [letter] else s.dlqRows)
    && r == (if again && f.schedule.Done? && f.logRetry.Done? then Returned(false, true, false)
             else if over && f.markFailed.Done? && f.saveDlq.Done? && f.logDlq.Done? then Returned(false, false, false)
             else Threw)
  }

  lemma FailureForm(s: State, m: Message, f: UseCaseFaults, t: Times)
    ensures var (s', r) := HandleFailure(s, m, f, t); CatchForm(s, s', r, m, f, t)
  {
  }

  // ------------------------------------------------------------------- main results

  /** What a call returns; it never answers "duplicate". */
  lemma ReturnIs(s: State, m: Message, isNew: bool, f: UseCaseFaults, t: Times)
    ensures Execute(s, m, isNew, f, t).1 ==
            if Settled(s, m, isNew, f) || Succeeds(s, m, isNew, f) then Returned(true, false, false)
            else if Handled(s, m, isNew, f) && m.attempt < 3 && f.schedule.Done? && f.logRetry.Done?
            then Returned(false, true, false)
            else if Handled(s, m, isNew, f) && m.attempt >= 3 && f.markFailed.Done? && f.saveDlq.Done? && f.logDlq.Done?
              then Returned(false, false, false)
              else Threw
  {
    ExecuteConcludes(s, m, isNew, f, t);
    FailureForm(Attempted(s, m, isNew, f, t), m, f, t);
  }

  /** What the provider is given: once, the message's recipient and body, or nothing. */
  lemma CallsAre(s: State, m: Message, isNew: bool, f: UseCaseFaults, t: Times)
    ensures var s' := Execute(s, m, isNew, f, t).0;
            && s'.calls == s.calls + (if Called(s, m, isNew, f)
                                      then [Call(m.messageId, m.attempt + 1, t.send, f.send.Done?)] else [])
            && s'.parcels == s.parcels + (if Called(s, m, isNew, f) then [Parcel(m.recipient, m.body)] else [])
  {
    ExecuteConcludes(s, m, isNew, f, t);
    FailureForm(Attempted(s, m, isNew, f, t), m, f, t);
  }

  /** What the message's row says afterwards; no other row changes. */
  lemma RowsAre(s: State, m: Message, isNew: bool, f: UseCaseFaults, t: Times)
    ensures var id, n := m.messageId, m.attempt + 1;
            Execute(s, m, isNew, f, t).0.rows ==
            if Handled(s, m, isNew, f) && n >= 4 && f.markFailed.Lands() then Written(s.rows, id, FAILED, false, n)
            else if Accepted(s, m, isNew, f) && id in s.rows && f.markSent.Lands()
            then Written(s.rows, id, SENT, true, n)
            else s.rows
  {
    ExecuteConcludes(s, m, isNew, f, t);
    FailureForm(Attempted(s, m, isNew, f, t), m, f, t);
  }

  /** What the audit trail holds afterwards. */
  lemma AuditsAre(s: State, m: Message, isNew: bool, f: UseCaseFaults, t: Times)
    ensures var id, n := m.messageId, m.attempt + 1;
            var caught := !Settled(s, m, isNew, f) && !Succeeds(s, m, isNew, f);
            Execute(s, m, isNew, f, t).0.audits ==
            s.audits
            + (if Accepted(s, m, isNew, f) && id in s.rows && f.markSent.Done? && f.saveSuccess.Lands()
               then [Attempt(id, n, true)] else [])
            + (if caught && id in s.rows && f.saveFailure.Lands() then [Attempt(id, n, false)] else [])
  {
    ExecuteConcludes(s, m, isNew, f, t);
    FailureForm(Attempted(s, m, isNew, f, t), m, f, t);
  }

  /** What is queued and what dead letters are stored afterwards; this stack publishes
      none and leaves the delivery cache to others. */
  lemma QueueIs(s: State, m: Message, isNew: bool, f: UseCaseFaults, t: Times)
    ensures var s', id, n := Execute(s, m, isNew, f, t).0, m.messageId, m.attempt + 1;
            var handled := Handled(s, m, isNew, f);
            && s'.retries == (if handled && n < 4 && f.schedule.Lands()
                              then s.retries[Payload(id, ChannelName(m.channel), n) := t.schedule + UseCaseDelay(n)]
                              else s.retries)
            && s'.dlqRows == s.dlqRows + (if handled && n >= 4 && f.markFailed.Done? && f.saveDlq.Lands()
                                          then [DeadLetter(id, m.channel)] else [])
            && s'.dlqTopic == s.dlqTopic && s'.cache == s.cache
  {
    ExecuteConcludes(s, m, isNew, f, t);
    FailureForm(Attempted(s, m, isNew, f, t), m, f, t);
  }

  /** What a normal return says of the message's own records. */
  ghost predicate Agrees(s: State, s': State, m: Message, isNew: bool, t: Times, r: Return) {
    var id, n := m.messageId, m.attempt + 1;
    && (r == SUCCESS || r == RETRY || r == DEAD)
    && (r == SUCCESS && s'.calls == s.calls ==> s' == s && (isNew ==> Delivered(s.rows, id)))
    && (r == SUCCESS && s'.calls != s.calls ==>
          && id in s'.rows && s'.rows[id].status == SENT && s'.rows[id].finalDelivered && s'.rows[id].attempts == n
          && s'.audits == s.audits + [Attempt(id, n, true)])
    && (r == RETRY ==>
          && n < MAX_ATTEMPTS && id in s.rows && id in s'.rows && FailureAudited(s, s', m)
          && RetryPayload(m) in s'.retries && s'.retries[RetryPayload(m)] == t.schedule + UseCaseDelay(n)
          && (s'.rows[id] == s.rows[id] || (s'.rows[id].status == SENT && s'.rows[id].attempts == n)))
    && (r == DEAD ==>
          && n >= MAX_ATTEMPTS && id in s'.rows && FailureAudited(s, s', m)
          && s'.rows[id].status == FAILED && !s'.rows[id].finalDelivered && s'.rows[id].attempts == n
          && s'.dlqRows == s.dlqRows + [DeadLetter(id, m.channel)])
  }

  lemma SuccessAgrees(s: State, m: Message, isNew: bool, f: UseCaseFaults, t: Times)
    ensures var (s', r) := Execute(s, m, isNew, f, t); r == SUCCESS ==> Agrees(s, s', m, isNew, t, r)
  {
    ReturnIs(s, m, isNew, f, t);
    ExecuteConcludes(s, m, isNew, f, t);
  }

  lemma FailureAgrees(s: State, m: Message, isNew: bool, f: UseCaseFaults, t: Times)
    ensures var (s', r) := Execute(s, m, isNew, f, t); r == RETRY || r == DEAD ==> Agrees(s, s', m, isNew, t, r)
  {
    ReturnIs(s, m, isNew, f, t);
    RowsAre(s, m, isNew, f, t);
    AuditsAre(s, m, isNew, f, t);
    QueueIs(s, m, isNew, f, t);
  }

  /** Success after a call means the row is SENT and the success audited; without a
      call, that the row was delivered before, unless it rests on the cache alone; retry
      means the payload is queued; neither means FAILED with a dead letter. */
  lemma ResultAgrees(s: State, m: Message, isNew: bool, f: UseCaseFaults, t: Times)
    ensures var (s', r) := Execute(s, m, isNew, f, t); r != Threw ==> Agrees(s, s', m, isNew, t, r)
  {
    ReturnIs(s, m, isNew, f, t);
    SuccessAgrees(s, m, isNew, f, t);
    FailureAgrees(s, m, isNew, f, t);
  }
}
