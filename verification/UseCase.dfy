/** ProcessDeliveryUseCase with RedisDeliveryService: the older, unwired stack.
    It reads the row before every send, increments the attempt once, and leaves
    the row alone while retrying.  The dedup answer is an oracle here: nothing is
    assumed of the cache. */
module UseCase {
  import opened Text
  import opened Store
  import opened Backoff
  import opened Delivery
  import opened RetryFlow
  import opened Logs

  datatype UseCaseFaults = UseCaseFaults(
    getStatus: Outcome, send: Outcome, markSent: Outcome, saveSuccess: Outcome, logSent: Outcome,
    saveFailure: Outcome, markFailed: Outcome, saveDlq: Outcome, logDlq: Outcome,
    schedule: Outcome, logRetry: Outcome)

  // ------------------------------------------------------------- specification

  /** The payload of the retry after attempt `m.attempt + 1`; nothing more is added. */
  function RetryPayload(m: Message): string {
    PayloadOf(m.messageId, m.channel, m.attempt + 1)
  }

  function GivenUp(s: State, m: Message, f: UseCaseFaults): (State, Return) {
    var s1 := Mark(s, m, FAILED, false, f.markFailed);
    if f.markFailed.Throws() then (s1, Threw) else
    var s2 := if f.saveDlq.Lands() && m.messageId in s1.rows
              then s1.(dlqRows := s1.dlqRows + [DeadLetter(m.messageId, m.channel)]) else s1;
    (s2, if SaveThrows(s1, m, f.saveDlq) || f.logDlq.Throws() then Threw else DEAD)
  }

  function Rescheduled(s: State, m: Message, f: UseCaseFaults, t: Times): (State, Return) {
    var s1 := if f.schedule.Lands()
              then s.(retries := s.retries[RetryPayload(m) := t.schedule + UseCaseDelay(m.attempt + 1)]) else s;
    (s1, if f.schedule.Throws() || f.logRetry.Throws() then Threw else RETRY)
  }

  /** The catch block. */
  function HandleFailure(s: State, m: Message, f: UseCaseFaults, t: Times): (State, Return) {
    var s1 := SaveAttempt(s, m, false, f.saveFailure);
    if SaveThrows(s, m, f.saveFailure) then (s1, Threw)
    else if m.attempt + 1 >= MAX_ATTEMPTS then GivenUp(s1, m, f)
    else Rescheduled(s1, m, f, t)
  }

  /** What follows the provider's successful return. */
  function RecordSuccess(s: State, m: Message, f: UseCaseFaults, t: Times): (State, Return) {
    var s1 := Mark(s, m, SENT, true, f.markSent);
    if f.markSent.Throws() then HandleFailure(s1, m, f, t) else
    var s2 := SaveAttempt(s1, m, true, f.saveSuccess);
    if SaveThrows(s1, m, f.saveSuccess) || f.logSent.Throws() then HandleFailure(s2, m, f, t) else
    (s2, SUCCESS)
  }

  function Called(s: State, m: Message, f: UseCaseFaults, t: Times): State {
    s.(calls := s.calls + [Call(m.messageId, m.attempt + 1, t.send, f.send.Done?)],
    parcels := s.parcels + [Parcel(m.recipient, m.body)])
  }

  function SendAndRecord(s: State, m: Message, f: UseCaseFaults, t: Times): (State, Return) {
    if f.send.Throws() then HandleFailure(Called(s, m, f, t), m, f, t)
    else RecordSuccess(Called(s, m, f, t), m, f, t)
  }

  function Execute(s: State, m: Message, isNew: bool, f: UseCaseFaults, t: Times): (State, Return) {
    if !isNew then (s, SUCCESS)
    else if f.getStatus.Throws() then HandleFailure(s, m, f, t)
    else if Delivered(s.rows, m.messageId) then (s, SUCCESS)
    else SendAndRecord(s, m, f, t)
  }

  // ------------------------------------------------------------------- class

  class ProcessDeliveryUseCase {
    const db: Backend

    constructor (db: Backend)
      ensures this.db == db
    {
      this.db := db;
    }

    method Run(m: Message, isNew: bool, f: UseCaseFaults, t: Times) returns (r: Return)
      modifies db
      ensures (db.Snapshot(), r) == Execute(old(db.Snapshot()), m, isNew, f, t)
    {
      if !isNew {
        return SUCCESS;
      }
      var threw, delivered := db.GetStatus(m.messageId, f.getStatus);
      if !threw {
        if delivered {
          return SUCCESS;
        }
        threw := db.Send(m.messageId, m.attempt + 1, t.send, m.recipient, m.body, f.send);
      }
      if !threw {
        threw := db.UpdateStatus(m.messageId, SENT, true, m.attempt + 1, f.markSent);
        if !threw {
          threw := db.SaveAttempt(Attempt(m.messageId, m.attempt + 1, true), f.saveSuccess);
          if !threw && f.logSent.Done? {
            return SUCCESS;
          }
        }
      }
      r := Catch(m, f, t);
    }

    method Catch(m: Message, f: UseCaseFaults, t: Times) returns (r: Return)
      modifies db
      ensures (db.Snapshot(), r) == HandleFailure(old(db.Snapshot()), m, f, t)
    {
      var currentAttempt := m.attempt + 1;
      var threw := db.SaveAttempt(Attempt(m.messageId, currentAttempt, false), f.saveFailure);
      if threw {
        return Threw;
      }
      if currentAttempt >= MAX_ATTEMPTS {
        threw := db.UpdateStatus(m.messageId, FAILED, false, currentAttempt, f.markFailed);
        if threw {
          return Threw;
        }
        threw := db.SaveDlqEntry(DeadLetter(m.messageId, m.channel), f.saveDlq);
        return if threw || f.logDlq.Throws() then Threw else DEAD;
      }
      var delayMs := UseCaseDelay(currentAttempt);
      threw := ScheduleRetry(m.messageId, m.channel, currentAttempt, delayMs, t.schedule, f.schedule);
      r := if threw || f.logRetry.Throws() then Threw else RETRY;
    }

    /** RedisDeliveryService.scheduleRetry writes the attempt number as given. */
    method ScheduleRetry(messageId: string, channel: Channel, nextAttempt: nat, delayMs: int, now: int, o: Outcome)
      returns (threw: bool)
      modifies db
      ensures threw == o.Throws()
      ensures db.Snapshot() ==
              if o.Lands()
              then old(db.Snapshot()).(retries := old(db.retries)[
                      PayloadOf(messageId, channel, nextAttempt) := now + delayMs])
              else old(db.Snapshot())
    {
      threw := db.ZAdd(PayloadOf(messageId, channel, nextAttempt), now + delayMs, o);
    }
  }

  // -------------------------------------------------------- facts about one call

  lemma FailureFrame(s: State, m: Message, f: UseCaseFaults, t: Times)
    ensures var (s', r) := HandleFailure(s, m, f, t);
            && s'.calls == s.calls && s'.rows.Keys == s.rows.Keys
            && (forall k :: k in s.rows && k != m.messageId ==> s'.rows[k] == s.rows[k])
            && (r == RETRY ==> m.attempt + 1 < MAX_ATTEMPTS && s'.rows == s.rows)
            && (m.attempt + 1 < MAX_ATTEMPTS ==> s'.rows == s.rows)
            && (r == RETRY || r == DEAD || r == Threw)
  {
  }

  lemma RecordFrame(s: State, m: Message, f: UseCaseFaults, t: Times)
    ensures var (s', r) := RecordSuccess(s, m, f, t);
            && s'.rows.Keys == s.rows.Keys && s'.calls == s.calls
            && (forall k :: k in s.rows && k != m.messageId ==> s'.rows[k] == s.rows[k])
            && (r == RETRY ==> m.attempt + 1 < MAX_ATTEMPTS)
            && (r == RETRY && m.messageId in s.rows && f.markSent.Lands() ==> Delivered(s'.rows, m.messageId))
  {
    var s1 := Mark(s, m, SENT, true, f.markSent);
    FailureFrame(s1, m, f, t);
    FailureFrame(SaveAttempt(s1, m, true, f.saveSuccess), m, f, t);
  }

  lemma SendEffect(s: State, m: Message, f: UseCaseFaults, t: Times)
    ensures var (s', r) := SendAndRecord(s, m, f, t);
            && s'.rows.Keys == s.rows.Keys
            && (forall k :: k in s.rows && k != m.messageId ==> s'.rows[k] == s.rows[k])
            && s'.calls == s.calls + [Call(m.messageId, m.attempt + 1, t.send, f.send.Done?)]
            && (r == RETRY ==> m.attempt + 1 < MAX_ATTEMPTS)
            && (r == RETRY && m.messageId in s.rows && f.markSent.Lands() && f.send.Done? ==>
                  Delivered(s'.rows, m.messageId))
  {
    FailureFrame(Called(s, m, f, t), m, f, t);
    RecordFrame(Called(s, m, f, t), m, f, t);
  }

  /** Which call a step makes, and what the row says after a successful one. */
  lemma ExecuteEffect(s: State, m: Message, isNew: bool, f: UseCaseFaults, t: Times)
    ensures var (s', r) := Execute(s, m, isNew, f, t);
            && s'.rows.Keys == s.rows.Keys
            && (forall k :: k in s.rows && k != m.messageId ==> s'.rows[k] == s.rows[k])
            && s'.calls == (if isNew && f.getStatus.Done? && !Delivered(s.rows, m.messageId)
                            then s.calls + [Call(m.messageId, m.attempt + 1, t.send, f.send.Done?)] else s.calls)
            && (r == RETRY ==> m.attempt + 1 < MAX_ATTEMPTS)
            && (r == RETRY && Delivered(s.rows, m.messageId) ==> Delivered(s'.rows, m.messageId))
            && (r == RETRY && m.messageId in s.rows && f.markSent.Lands() && s'.calls != s.calls && f.send.Done?
                ==> Delivered(s'.rows, m.messageId))
  {
    if isNew {
      if f.getStatus.Throws() {
        FailureFrame(s, m, f, t);
      } else {
        SendEffect(s, m, f, t);
      }
    }
  }

  /** Wherever a call stops, returning or throwing: a retry is queued only after the
      failure is audited, a dead letter stored only for a row already FAILED, and no
      row becomes delivered without a successful provider call. */
  ghost predicate InOrder(s: State, s': State, m: Message, t: Times) {
    var id, n := m.messageId, m.attempt + 1;
    var audited := FailureAudited(s, s', m);
    && (s'.retries != s.retries ==> audited && n < MAX_ATTEMPTS && s'.dlqRows == s.dlqRows)
    && (s'.dlqRows != s.dlqRows ==>
          && audited && n >= MAX_ATTEMPTS && s'.dlqRows == s.dlqRows + [DeadLetter(id, m.channel)]
          && id in s'.rows && s'.rows[id].status == FAILED && !s'.rows[id].finalDelivered)
    && (Delivered(s'.rows, id) && !Delivered(s.rows, id) ==> s'.calls == s.calls + [Call(id, n, t.send, true)])
  }

  lemma FailureInOrder(s0: State, s: State, m: Message, f: UseCaseFaults, t: Times)
    requires s0.retries == s.retries && s0.dlqRows == s.dlqRows && s0.audits <= s.audits
    requires Delivered(s.rows, m.messageId) && !Delivered(s0.rows, m.messageId)
             ==> s.calls == s0.calls + [Call(m.messageId, m.attempt + 1, t.send, true)]
    ensures InOrder(s0, HandleFailure(s, m, f, t).0, m, t)
  {
    var s1 := SaveAttempt(s, m, false, f.saveFailure);
    if !SaveThrows(s, m, f.saveFailure) {
      assert s1.audits[|s1.audits| - 1] == Attempt(m.messageId, m.attempt + 1, false);
    }
  }

  lemma RecordInOrder(s0: State, s: State, m: Message, f: UseCaseFaults, t: Times)
    requires s == Called(s0, m, f, t) && f.send.Done?
    ensures InOrder(s0, RecordSuccess(s, m, f, t).0, m, t)
  {
    var s1 := Mark(s, m, SENT, true, f.markSent);
    FailureInOrder(s0, s1, m, f, t);
    FailureInOrder(s0, SaveAttempt(s1, m, true, f.saveSuccess), m, f, t);
  }

  lemma EffectsInOrder(s: State, m: Message, isNew: bool, f: UseCaseFaults, t: Times)
    ensures InOrder(s, Execute(s, m, isNew, f, t).0, m, t)
  {
    FailureInOrder(s, s, m, f, t);
    FailureInOrder(s, Called(s, m, f, t), m, f, t);
    if f.send.Done? {
      RecordInOrder(s, Called(s, m, f, t), m, f, t);
    }
  }

  // ----------------------------------------------------------- any calls, over any time

  function Sound(send: Outcome): UseCaseFaults {
    UseCaseFaults(Done, send, Done, Done, Done, Done, Done, Done, Done, Done, Done)
  }

  datatype Effect =
    | GetStatus | Send | MarkSent | SaveSuccess | LogSent | SaveFailure
    | MarkFailed | SaveDlq | LogDlq | Schedule | LogRetry

  function OutcomeOf(f: UseCaseFaults, e: Effect): Outcome {
    match e
    case GetStatus => f.getStatus
    case Send => f.send
    case MarkSent => f.markSent
    case SaveSuccess => f.saveSuccess
    case LogSent => f.logSent
    case SaveFailure => f.saveFailure
    case MarkFailed => f.markFailed
    case SaveDlq => f.saveDlq
    case LogDlq => f.logDlq
    case Schedule => f.schedule
    case LogRetry => f.logRetry
  }

  /** The failures that can make a delivered message be sent again: those of the
      status read, and of what follows a successful send. */
  predicate Harmful(e: Effect, o: Outcome) {
    o.Throws() && (e.GetStatus? || e.MarkSent? || e.SaveSuccess? || e.LogSent?)
  }

  predicate Harmless(f: UseCaseFaults) {
    f.getStatus.Done? && f.markSent.Done? && f.saveSuccess.Done? && f.logSent.Done?
  }

  /** No effect but the provider fails in a way that `may` does not list. */
  ghost predicate Within(f: UseCaseFaults, may: set<(Effect, Outcome)>) {
    forall e: Effect :: e.Send? || OutcomeOf(f, e).Done? || (e, OutcomeOf(f, e)) in may
  }

  ghost predicate Tolerable(may: set<(Effect, Outcome)>) {
    forall e, o :: (e, o) in may ==> !Harmful(e, o)
  }

  datatype Step = Step(m: Message, isNew: bool, f: UseCaseFaults, t: Times)

  function Apply(s: State, step: Step): State {
    Execute(s, step.m, step.isNew, step.f, step.t).0
  }

  function After(s: State, steps: seq<Step>): State {
    if steps == [] then s else Apply(After(s, steps[..|steps| - 1]), steps[|steps| - 1])
  }

  /** A message that has a row is never sent again once a send succeeded. */
  ghost predicate SentOnce(s: State) {
    forall i, j :: 0 <= i < j < |s.calls| && s.calls[i].messageId in s.rows
                   && s.calls[i].messageId == s.calls[j].messageId
                   ==> !s.calls[i].success
  }

  ghost predicate SuccessStored(s: State) {
    forall i :: 0 <= i < |s.calls| && s.calls[i].success && s.calls[i].messageId in s.rows
                ==> Delivered(s.rows, s.calls[i].messageId)
  }

  lemma HarmlessEffect(s: State, step: Step)
    requires Harmless(step.f)
    ensures var s' := Apply(s, step);
            var id := step.m.messageId;
            && (Delivered(s.rows, id) ==> s' == s)
            && (id in s.rows && step.f.send.Done? && s'.calls != s.calls ==> Delivered(s'.rows, id))
  {
    if step.isNew && step.f.send.Throws() && !Delivered(s.rows, step.m.messageId) {
      FailureFrame(Called(s, step.m, step.f, step.t), step.m, step.f, step.t);
    }
  }

  lemma HarmlessStep(s: State, step: Step)
    requires Harmless(step.f) && SentOnce(s) && SuccessStored(s)
    ensures SentOnce(Apply(s, step)) && SuccessStored(Apply(s, step))
  {
    var s' := Apply(s, step);
    ExecuteEffect(s, step.m, step.isNew, step.f, step.t);
    HarmlessEffect(s, step);
    forall i, j | 0 <= i < j < |s'.calls| && s'.calls[i].messageId in s'.rows
                  && s'.calls[i].messageId == s'.calls[j].messageId
      ensures !s'.calls[i].success
    {
      assert s'.calls[i] == s.calls[i];
    }
    forall i | 0 <= i < |s'.calls| && s'.calls[i].success && s'.calls[i].messageId in s'.rows
      ensures Delivered(s'.rows, s'.calls[i].messageId)
    {
      if i < |s.calls| {
        assert s'.calls[i] == s.calls[i];
      }
    }
  }

  ghost predicate AllHarmless(steps: seq<Step>) {
    forall i :: 0 <= i < |steps| ==> Harmless(steps[i].f)
  }

  lemma {:induction false} HarmlessRun(s: State, steps: seq<Step>)
    requires s.calls == [] && AllHarmless(steps)
    ensures SentOnce(After(s, steps)) && SuccessStored(After(s, steps))
  {
    if steps == [] {
    } else {
      HarmlessRun(s, steps[..|steps| - 1]);
      HarmlessStep(After(s, steps[..|steps| - 1]), steps[|steps| - 1]);
    }
  }

  /** Whatever the cache answers, and however the calls of all messages are mixed,
      no message with a row is sent again after a successful send, as long as the
      status can be read and what follows a send returns; there is no time window,
      unlike in the wired stack. */
  lemma AtMostOneSuccessfulSend(s: State, steps: seq<Step>)
    requires s.calls == [] && AllHarmless(steps)
    ensures SentOnce(After(s, steps))
  {
    HarmlessRun(s, steps);
  }

  // ------------------------------------------------- runs that send a second time

  function OneFault(e: Effect, o: Outcome): UseCaseFaults {
    match e
    case GetStatus => Sound(Done).(getStatus := o)
    case MarkSent => Sound(Done).(markSent := o)
    case SaveSuccess => Sound(Done).(saveSuccess := o)
    case LogSent => Sound(Done).(logSent := o)
    case _ => Sound(Done)
  }

  /** A fourth attempt without failures, and the same with one. */
  function Good(m: Message): Step { Step(m, true, Sound(Done), Times(0, 0, 0, 0)) }
  function Bad(m: Message, e: Effect, o: Outcome): Step { Good(m).(f := OneFault(e, o)) }

  /** Fourth attempts of one message, one of them with a failure.  That failure ends
      in the catch block, which gives the message up and so resets its row. */
  function ResendingRun(m: Message, e: Effect, o: Outcome): seq<Step> {
    if e.GetStatus? then [Good(m), Bad(m, e, o), Good(m)] else [Bad(m, e, o), Good(m)]
  }

  predicate SentUnmarked(s: State, m: Message) {
    m.messageId in s.rows && !Delivered(s.rows, m.messageId) && s.calls == [Call(m.messageId, 4, 0, true)]
  }

  lemma GivenUpUnmarks(s: State, m: Message, f: UseCaseFaults, t: Times)
    requires m.messageId in s.rows && m.attempt == 3 && f.saveFailure.Done? && f.markFailed.Done?
    ensures var s' := HandleFailure(s, m, f, t).0;
            m.messageId in s'.rows && !Delivered(s'.rows, m.messageId) && s'.calls == s.calls
  {
  }

  lemma UnrecordedUnmarks(s: State, m: Message, e: Effect, o: Outcome)
    requires Harmful(e, o) && !e.GetStatus?
    requires m.messageId in s.rows && m.attempt == 3 && !Delivered(s.rows, m.messageId) && s.calls == []
    ensures SentUnmarked(Apply(s, Bad(m, e, o)), m)
  {
    var f, t := OneFault(e, o), Times(0, 0, 0, 0);
    var s1 := Mark(Called(s, m, f, t), m, SENT, true, f.markSent);
    GivenUpUnmarks(s1, m, f, t);
    GivenUpUnmarks(SaveAttempt(s1, m, true, f.saveSuccess), m, f, t);
  }

  lemma UnreadUnmarks(s: State, m: Message, o: Outcome)
    requires o.Throws() && m.messageId in s.rows && m.attempt == 3 && s.calls == [Call(m.messageId, 4, 0, true)]
    ensures SentUnmarked(Apply(s, Bad(m, GetStatus, o)), m)
  {
    GivenUpUnmarks(s, m, OneFault(GetStatus, o), Times(0, 0, 0, 0));
  }

  lemma UndeliveredIsSent(s: State, m: Message)
    requires m.messageId in s.rows && m.attempt == 3 && !Delivered(s.rows, m.messageId)
    ensures Apply(s, Good(m)).calls == s.calls + [Call(m.messageId, 4, 0, true)]
    ensures m.messageId in Apply(s, Good(m)).rows
  {
    ExecuteEffect(s, m, true, Sound(Done), Times(0, 0, 0, 0));
  }

  lemma AfterTwo(s: State, a: Step, b: Step)
    ensures After(s, [a, b]) == Apply(Apply(s, a), b)
  {
    assert [a, b][..1] == [a] && [a][..0] == [];
    assert After(s, [a]) == Apply(s, a);
  }

  lemma AfterThree(s: State, a: Step, b: Step, c: Step)
    ensures After(s, [a, b, c]) == Apply(Apply(Apply(s, a), b), c)
  {
    AfterTwo(s, a, b);
    assert [a, b, c][..2] == [a, b];
  }

  function Fresh(rows: map<string, Row>): State {
    State(rows, [], [], map[], map[], [], [], [])
  }

  lemma ResendingRunResends(rows: map<string, Row>, m: Message, e: Effect, o: Outcome)
    requires m.messageId in rows && !rows[m.messageId].finalDelivered && m.attempt == 3 && Harmful(e, o)
    ensures var c := Call(m.messageId, 4, 0, true); After(Fresh(rows), ResendingRun(m, e, o)).calls == [c, c]
  {
    var s, bad, good := Fresh(rows), Bad(m, e, o), Good(m);
    if e.GetStatus? {
      AfterThree(s, good, bad, good);
      UndeliveredIsSent(s, m);
      UnreadUnmarks(Apply(s, good), m, o);
      UndeliveredIsSent(Apply(Apply(s, good), bad), m);
    } else {
      AfterTwo(s, bad, good);
      UnrecordedUnmarks(s, m, e, o);
      UndeliveredIsSent(Apply(s, bad), m);
    }
  }

  ghost predicate AllWithin(steps: seq<Step>, may: set<(Effect, Outcome)>) {
    forall i :: 0 <= i < |steps| ==> Within(steps[i].f, may)
  }

  ghost predicate NeverResends(rows: map<string, Row>, may: set<(Effect, Outcome)>) {
    forall steps :: AllWithin(steps, may) ==> SentOnce(After(Fresh(rows), steps))
  }

  lemma WithinHarmless(f: UseCaseFaults, may: set<(Effect, Outcome)>)
    requires Tolerable(may) && Within(f, may)
    ensures Harmless(f)
  {
    assert OutcomeOf(f, GetStatus) == f.getStatus && OutcomeOf(f, MarkSent) == f.markSent;
    assert OutcomeOf(f, SaveSuccess) == f.saveSuccess && OutcomeOf(f, LogSent) == f.logSent;
  }

  lemma ResendingRunWithin(m: Message, e: Effect, o: Outcome, may: set<(Effect, Outcome)>)
    requires Harmful(e, o) && (e, o) in may
    ensures AllWithin(ResendingRun(m, e, o), may)
  {
  }

  lemma {:induction false} RowsStay(s: State, steps: seq<Step>)
    ensures After(s, steps).rows.Keys == s.rows.Keys
  {
    if steps == [] {
    } else {
      var step := steps[|steps| - 1];
      RowsStay(s, steps[..|steps| - 1]);
      ExecuteEffect(After(s, steps[..|steps| - 1]), step.m, step.isNew, step.f, step.t);
    }
  }

  /** The exact counterpart of the wired stack's bound.  The provider may fail in any
      call, and each other effect in the ways `may` lists.  No message with a row is
      ever sent again after a successful send, over all runs and for all dedup answers,
      if and only if none of the listed failures is harmful. */
  lemma NeverTwiceIff(rows: map<string, Row>, may: set<(Effect, Outcome)>, id: string)
    requires id in rows && !rows[id].finalDelivered
    ensures NeverResends(rows, may) <==> Tolerable(may)
  {
    if Tolerable(may) {
      forall steps: seq<Step> | AllWithin(steps, may) ensures SentOnce(After(Fresh(rows), steps)) {
        forall i | 0 <= i < |steps| ensures Harmless(steps[i].f) {
          WithinHarmless(steps[i].f, may);
        }
        HarmlessRun(Fresh(rows), steps);
      }
    } else {
      var e, o :| (e, o) in may && Harmful(e, o);
      var m := MessageOf(id, rows[id], 3);
      var run := ResendingRun(m, e, o);
      ResendingRunResends(rows, m, e, o);
      ResendingRunWithin(m, e, o, may);
      RowsStay(Fresh(rows), run);
      var s := After(Fresh(rows), run);
      assert s.calls[0].success && s.calls[0].messageId == s.calls[1].messageId == id;
      assert !SentOnce(s);
    }
  }

  // --------------------------------------------- one message's retry chain, with faults

  datatype Turn = Turn(isNew: bool, f: UseCaseFaults, t: Times)

  function Again(m: Message): Message { m.(attempt := m.attempt + 1) }

  /** The message's own chain: each turn is a call, and the chain goes on only
      while calls ask for a retry. */
  function Chain(s: State, m: Message, turns: seq<Turn>): State
    decreases |turns|
  {
    if turns == [] then s else
    var (s', r) := Execute(s, m, turns[0].isNew, turns[0].f, turns[0].t);
    if r == RETRY then Chain(s', Again(m), turns[1..]) else s'
  }

  function Successes(calls: seq<Call>): nat {
    if calls == [] then 0 else Successes(calls[..|calls| - 1]) + if calls[|calls| - 1].success then 1 else 0
  }

  /** The turns' SENT writes have these outcomes; nothing is said of the other effects. */
  ghost predicate MarkedAs(turns: seq<Turn>, marks: seq<Outcome>) {
    |turns| == |marks| && forall i :: 0 <= i < |turns| ==> turns[i].f.markSent == marks[i]
  }

  lemma SuccessesSnoc(calls: seq<Call>, c: Call)
    ensures Successes(calls + [c]) == Successes(calls) + if c.success then 1 else 0
  {
  }

  lemma {:induction false} ChainIsShort(s: State, m: Message, turns: seq<Turn>)
    ensures |Chain(s, m, turns).calls| <= |s.calls| + if m.attempt < MAX_ATTEMPTS then MAX_ATTEMPTS - m.attempt else 1
    ensures s.calls <= Chain(s, m, turns).calls
    ensures forall i :: |s.calls| <= i < |Chain(s, m, turns).calls| ==>
                          m.attempt < Chain(s, m, turns).calls[i].number
                          && (m.attempt < MAX_ATTEMPTS ==> Chain(s, m, turns).calls[i].number <= MAX_ATTEMPTS)
    decreases |turns|
  {
    if turns == [] {
    } else {
      var (s', r) := Execute(s, m, turns[0].isNew, turns[0].f, turns[0].t);
      ExecuteEffect(s, m, turns[0].isNew, turns[0].f, turns[0].t);
      if r == RETRY {
        ChainIsShort(s', Again(m), turns[1..]);
      }
    }
  }

  /** No SENT write is lost that a later turn of the chain, below the last attempt,
      would have to rely on. */
  ghost predicate MarksHold(attempt: nat, marks: seq<Outcome>) {
    forall i :: 0 <= i < |marks| - 1 && attempt + i + 1 < MAX_ATTEMPTS ==> marks[i].Lands()
  }

  /** Once the row is delivered the chain never calls the provider, whatever fails. */
  lemma {:induction false} DeliveredChainIsSilent(s: State, m: Message, turns: seq<Turn>)
    requires Delivered(s.rows, m.messageId)
    ensures Chain(s, m, turns).calls == s.calls
    decreases |turns|
  {
    if turns == [] {
    } else {
      var (s', r) := Execute(s, m, turns[0].isNew, turns[0].f, turns[0].t);
      ExecuteEffect(s, m, turns[0].isNew, turns[0].f, turns[0].t);
      if r == RETRY {
        DeliveredChainIsSilent(s', Again(m), turns[1..]);
      }
    }
  }

  /** With faults anywhere else, a chain sends successfully at most once if its SENT
      writes hold. */
  lemma {:induction false} ChainSendsOnce(s: State, m: Message, turns: seq<Turn>, marks: seq<Outcome>)
    requires m.messageId in s.rows && MarkedAs(turns, marks) && MarksHold(m.attempt, marks)
    ensures Successes(Chain(s, m, turns).calls) <= Successes(s.calls) + 1
    decreases |turns|
  {
    if turns == [] {
    } else {
      var turn := turns[0];
      var (s', r) := Execute(s, m, turn.isNew, turn.f, turn.t);
      ExecuteEffect(s, m, turn.isNew, turn.f, turn.t);
      SuccessesSnoc(s.calls, Call(m.messageId, m.attempt + 1, turn.t.send, turn.f.send.Done?));
      if r == RETRY && Delivered(s'.rows, m.messageId) {
        DeliveredChainIsSilent(s', Again(m), turns[1..]);
      } else if r == RETRY && |turns| > 1 {
        assert turn.f.markSent == marks[0];
        ChainSendsOnce(s', Again(m), turns[1..], marks[1..]);
      }
    }
  }

  /** One failing send asks for a retry and leaves the row alone. */
  lemma FailedSendRetries(s: State, m: Message, mark: Outcome, t: Times)
    requires m.messageId in s.rows && !Delivered(s.rows, m.messageId) && m.attempt + 1 < MAX_ATTEMPTS
    ensures var (s', r) := Execute(s, m, true, Sound(Lost).(markSent := mark), t);
            r == RETRY && s'.rows == s.rows && Successes(s'.calls) == Successes(s.calls)
  {
    SuccessesSnoc(s.calls, Call(m.messageId, m.attempt + 1, t.send, false));
  }

  /** A successful send asks for a retry, too, if the SENT write is lost. */
  lemma LostMarkRetries(s: State, m: Message, t: Times)
    requires m.messageId in s.rows && !Delivered(s.rows, m.messageId) && m.attempt + 1 < MAX_ATTEMPTS
    ensures var (s', r) := Execute(s, m, true, Sound(Done).(markSent := Lost), t);
            r == RETRY && s'.rows == s.rows && Successes(s'.calls) == Successes(s.calls) + 1
  {
    SuccessesSnoc(s.calls, Call(m.messageId, m.attempt + 1, t.send, true));
  }

  /** Whatever comes of its marks, a chain can go on to send successfully. */
  lemma SendingTurns(s: State, m: Message, marks: seq<Outcome>, t: Times) returns (turns: seq<Turn>)
    requires m.messageId in s.rows && !Delivered(s.rows, m.messageId) && marks != []
    ensures MarkedAs(turns, marks) && Successes(Chain(s, m, turns).calls) >= Successes(s.calls) + 1
  {
    turns := seq(|marks|, i requires 0 <= i < |marks| => Turn(true, Sound(Done).(markSent := marks[i]), t));
    var f := Sound(Done).(markSent := marks[0]);
    assert turns[0] == Turn(true, f, t);
    var (s', r) := Execute(s, m, true, f, t);
    ExecuteEffect(s, m, true, f, t);
    SuccessesSnoc(s.calls, Call(m.messageId, m.attempt + 1, t.send, true));
    assert s'.calls == s.calls + [Call(m.messageId, m.attempt + 1, t.send, true)];
    if r == RETRY {
      ChainIsShort(s', Again(m), turns[1..]);
      SuccessesGrow(s'.calls, Chain(s', Again(m), turns[1..]).calls);
    }
  }

  lemma {:induction false} SuccessesGrow(calls: seq<Call>, calls': seq<Call>)
    requires calls <= calls'
    ensures Successes(calls) <= Successes(calls')
  {
    if |calls'| == |calls| {
      assert calls' == calls;
    } else {
      SuccessesGrow(calls, calls'[..|calls'| - 1]);
    }
  }

  /** A chain whose first turn asks for a retry goes on with the rest. */
  lemma ChainGoesOn(s: State, m: Message, first: Turn, rest: seq<Turn>, marks: seq<Outcome>)
    requires marks != [] && first.f.markSent == marks[0] && MarkedAs(rest, marks[1..])
    requires Execute(s, m, first.isNew, first.f, first.t).1 == RETRY
    ensures MarkedAs([first] + rest, marks)
    ensures Chain(s, m, [first] + rest) == Chain(Execute(s, m, first.isNew, first.f, first.t).0, Again(m), rest)
  {
    assert ([first] + rest)[1..] == rest;
  }

  /** Turns up to the `i`-th fail to send; the `i`-th sends and loses its mark; the
      next one sends again. */
  lemma {:induction false} ResendingTurns(s: State, m: Message, marks: seq<Outcome>, i: nat, t: Times)
    returns (turns: seq<Turn>)
    requires m.messageId in s.rows && !Delivered(s.rows, m.messageId)
    requires i < |marks| - 1 && m.attempt + i + 1 < MAX_ATTEMPTS && marks[i].Lost?
    ensures MarkedAs(turns, marks) && Successes(Chain(s, m, turns).calls) >= Successes(s.calls) + 2
    decreases i
  {
    var rest, first;
    if i == 0 {
      first := Turn(true, Sound(Done).(markSent := Lost), t);
      LostMarkRetries(s, m, t);
      rest := SendingTurns(Execute(s, m, true, first.f, t).0, Again(m), marks[1..], t);
    } else {
      first := Turn(true, Sound(Lost).(markSent := marks[0]), t);
      FailedSendRetries(s, m, marks[0], t);
      rest := ResendingTurns(Execute(s, m, true, first.f, t).0, Again(m), marks[1..], i - 1, t);
    }
    ChainGoesOn(s, m, first, rest, marks);
    turns := [first] + rest;
  }

  ghost predicate NeverSendsTwice(s: State, m: Message, marks: seq<Outcome>) {
    forall turns :: MarkedAs(turns, marks) ==> Successes(Chain(s, m, turns).calls) <= Successes(s.calls) + 1
  }

  /** Only the SENT write matters, and just where a later turn relies on it.  For a
      row not yet delivered and SENT writes with outcomes `marks`, the message's own
      retry chain never sends successfully twice, whatever the dedup answers and
      whichever other effects fail, if and only if each of those writes reaches the
      database but, at will, the chain's last and those from the fourth attempt on. */
  lemma ChainSendsOnceIff(s: State, m: Message, marks: seq<Outcome>)
    requires m.messageId in s.rows && !Delivered(s.rows, m.messageId)
    ensures NeverSendsTwice(s, m, marks) <==> MarksHold(m.attempt, marks)
  {
    if MarksHold(m.attempt, marks) {
      forall turns | MarkedAs(turns, marks) ensures Successes(Chain(s, m, turns).calls) <= Successes(s.calls) + 1 {
        ChainSendsOnce(s, m, turns, marks);
      }
    } else {
      var i :| 0 <= i < |marks| - 1 && m.attempt + i + 1 < MAX_ATTEMPTS && !marks[i].Lands();
      var turns := ResendingTurns(s, m, marks, i, Times(0, 0, 0, 0));
    }
  }

  // ------------------------------------------------------------ the closed loop

  datatype LoopStep =
    | Consume(i: nat, isNew: bool, send: Outcome, t: Times)
    | Poll(now: int, items: seq<string>)

  ghost predicate Enabled(l: Loop, step: LoopStep) {
    match step
    case Consume(i, _, _, _) => i < |l.topic| && l.topic[i].messageId in l.s.rows
    case Poll(now, items) => Enumerates(items, Due(l.s.retries, now))
  }

  ghost function LoopApply(l: Loop, step: LoopStep): Loop {
    if !Enabled(l, step) then l else
    match step
    case Consume(i, isNew, send, t) =>
      Loop(Execute(l.s, MessageAt(l, i), isNew, Sound(send), t).0, Without(l.topic, i))
    case Poll(now, items) => PolledLoop(l, now, items)
  }

  ghost function LoopAfter(l: Loop, steps: seq<LoopStep>): Loop {
    if steps == [] then l else LoopApply(LoopAfter(l, steps[..|steps| - 1]), steps[|steps| - 1])
  }

  function CallId(c: Call): string { c.messageId }

  function CallsFor(s: State, id: string): seq<Call> { About(s.calls, id, CallId) }

  /** The message was tried with numbers 1, 2, ..., and a pending attempt is the next. */
  predicate Tried(s: State, id: string, token: Token) {
    var calls := CallsFor(s, id);
    && |calls| <= MAX_ATTEMPTS
    && (forall j :: 0 <= j < |calls| ==> calls[j].number == j + 1)
    && (!token.Gone? ==> token.attempt == |calls| && |calls| < MAX_ATTEMPTS)
  }

  ghost predicate AllTried(s: State, tokens: map<string, Token>) {
    tokens.Keys == s.rows.Keys && forall id :: id in tokens ==> Tried(s, id, tokens[id])
  }

  /** The events a run consumes, in order. */
  ghost function ConsumedEvents(l: Loop, steps: seq<LoopStep>): seq<Event> {
    if steps == [] then []
    else
      var before, step := LoopAfter(l, steps[..|steps| - 1]), steps[|steps| - 1];
      var front := ConsumedEvents(l, steps[..|steps| - 1]);
      if step.Consume? && Enabled(before, step) then front + [before.topic[step.i]] else front
  }

  /** The message's events came with attempts 0, 1, ..., and a pending one is the next. */
  predicate Counted(events: seq<Event>, id: string, token: Token) {
    var own := EventsOf(events, id);
    && |own| <= MAX_ATTEMPTS
    && (forall j :: 0 <= j < |own| ==> own[j].attempt == j)
    && (!token.Gone? ==> token.attempt == |own| && |own| < MAX_ATTEMPTS)
  }

  ghost predicate AllCounted(events: seq<Event>, tokens: map<string, Token>) {
    && (forall id :: id in tokens ==> Counted(events, id, tokens[id]))
    && (forall e :: e in events ==> e.messageId in tokens)
  }

  ghost predicate LoopInv(l: Loop, tokens: map<string, Token>) {
    && AllTried(l.s, tokens) && Carries(FlowOf(l), Channels(l.s.rows), tokens)
    && forall c :: c in l.s.calls ==> c.messageId in l.s.rows
  }

  /** Accepted messages, each with one event on the topic. */
  ghost predicate Accepted(l: Loop) {
    && l.s.calls == [] && l.s.retries == map[]
    && (forall id :: id in l.s.rows ==> ColonFree(id) && EventsOf(l.topic, id) == [Event(id, 0)])
    && (forall e :: e in l.topic ==> e.messageId in l.s.rows)
  }

  /** Effect of one execute on the calls, the queue and the row's channel. */
  ghost predicate Consumed(s: State, s': State, m: Message, called: bool, send: Outcome, t: Times) {
    && s'.calls == (if called then s.calls + [Call(m.messageId, m.attempt + 1, t.send, send.Done?)] else s.calls)
    && s'.retries == (if called && send.Throws() && m.attempt + 1 < MAX_ATTEMPTS
                      then s.retries[RetryPayload(m) := t.schedule + UseCaseDelay(m.attempt + 1)] else s.retries)
    && Channels(s'.rows) == Channels(s.rows) && s'.rows.Keys == s.rows.Keys
  }

  lemma MarkKeepsChannels(s: State, m: Message, status: Status, delivered: bool, o: Outcome)
    ensures Channels(Mark(s, m, status, delivered, o).rows) == Channels(s.rows)
  {
  }

  lemma FailedSendEffect(s: State, m: Message, send: Outcome, t: Times)
    requires m.messageId in s.rows && send.Throws()
    ensures Consumed(s, HandleFailure(Called(s, m, Sound(send), t), m, Sound(send), t).0, m, true, send, t)
  {
    var s1 := SaveAttempt(Called(s, m, Sound(send), t), m, false, Done);
    MarkKeepsChannels(s1, m, FAILED, false, Done);
  }

  lemma SuccessfulSendEffect(s: State, m: Message, t: Times)
    requires m.messageId in s.rows
    ensures Consumed(s, RecordSuccess(Called(s, m, Sound(Done), t), m, Sound(Done), t).0, m, true, Done, t)
  {
    MarkKeepsChannels(Called(s, m, Sound(Done), t), m, SENT, true, Done);
  }

  lemma ConsumeEffect(s: State, m: Message, isNew: bool, send: Outcome, t: Times)
    requires m.messageId in s.rows
    ensures Consumed(s, Execute(s, m, isNew, Sound(send), t).0, m, isNew && !Delivered(s.rows, m.messageId), send, t)
  {
    if isNew && !Delivered(s.rows, m.messageId) {
      if send.Throws() {
        FailedSendEffect(s, m, send, t);
      } else {
        SuccessfulSendEffect(s, m, t);
      }
    }
  }

  function NextToken(m: Message, called: bool, send: Outcome): Token {
    if called && send.Throws() && m.attempt + 1 < MAX_ATTEMPTS then InQueue(m.attempt + 1) else Gone
  }

  lemma ConsumedTried(s: State, s': State, m: Message, called: bool, send: Outcome, t: Times,
                      tokens: map<string, Token>)
    requires AllTried(s, tokens) && m.messageId in tokens && Consumed(s, s', m, called, send, t)
    requires !tokens[m.messageId].Gone? && tokens[m.messageId].attempt == m.attempt
    ensures AllTried(s', tokens[m.messageId := NextToken(m, called, send)])
  {
    var tokens' := tokens[m.messageId := NextToken(m, called, send)];
    forall k | k in tokens' ensures Tried(s', k, tokens'[k]) {
      assert Tried(s, k, tokens[k]);
      AboutSnoc(s.calls, Call(m.messageId, m.attempt + 1, t.send, send.Done?), k, CallId);
    }
  }

  lemma ConsumedRequeues(s: State, s': State, m: Message, called: bool, send: Outcome, t: Times)
    requires Consumed(s, s', m, called, send, t)
    ensures Requeued(s.retries, s'.retries, m.messageId, m.channel, NextToken(m, called, send))
  {
  }

  lemma ConsumedCarries(l: Loop, l': Loop, tokens: map<string, Token>, i: nat, m: Message, called: bool,
                        send: Outcome, t: Times)
    requires i < |l.topic| && l.topic[i].messageId in l.s.rows && m == MessageAt(l, i)
    requires Consumed(l.s, l'.s, m, called, send, t) && l'.topic == Without(l.topic, i)
    requires Carries(FlowOf(l), Channels(l.s.rows), tokens)
    ensures Carries(FlowOf(l'), Channels(l'.s.rows), tokens[m.messageId := NextToken(m, called, send)])
  {
    ConsumedRequeues(l.s, l'.s, m, called, send, t);
    assert m.channel == Channels(l.s.rows)[m.messageId];
    ConsumeKeeps(FlowOf(l), FlowOf(l'), Channels(l.s.rows), tokens, i, NextToken(m, called, send));
  }

  lemma EventToken(l: Loop, tokens: map<string, Token>, i: nat)
    requires AllHold(FlowOf(l), Channels(l.s.rows), tokens) && i < |l.topic| && l.topic[i].messageId in l.s.rows
    ensures l.topic[i].messageId in tokens && tokens[l.topic[i].messageId] == OnTopic(l.topic[i].attempt)
  {
    var id := l.topic[i].messageId;
    assert Holds(FlowOf(l), id, Channels(l.s.rows)[id], tokens[id]);
    EventTells(FlowOf(l), i, Channels(l.s.rows)[id], tokens[id]);
  }

  lemma EventCounted(events: seq<Event>, e: Event, tokens: map<string, Token>, next: Token)
    requires AllCounted(events, tokens) && e.messageId in tokens && tokens[e.messageId] == OnTopic(e.attempt)
    requires next == Gone || (next == InQueue(e.attempt + 1) && e.attempt + 1 < MAX_ATTEMPTS)
    ensures AllCounted(events + [e], tokens[e.messageId := next])
  {
    var tokens' := tokens[e.messageId := next];
    forall k | k in tokens' ensures Counted(events + [e], k, tokens'[k]) {
      assert Counted(events, k, tokens[k]);
      AboutSnoc(events, e, k, EventId);
    }
  }

  lemma LoopConsume(l: Loop, tokens: map<string, Token>, step: LoopStep, events: seq<Event>)
    returns (tokens': map<string, Token>)
    requires LoopInv(l, tokens) && step.Consume? && Enabled(l, step) && AllCounted(events, tokens)
    ensures LoopInv(LoopApply(l, step), tokens') && tokens'.Keys == tokens.Keys
    ensures AllCounted(events + [l.topic[step.i]], tokens')
    ensures l.topic[step.i].messageId in tokens && tokens[l.topic[step.i].messageId] == OnTopic(l.topic[step.i].attempt)
    ensures var m := MessageAt(l, step.i);
            tokens' == tokens[m.messageId :=
            NextToken(m, step.isNew && !Delivered(l.s.rows, m.messageId), step.send)]
  {
    var l', m := LoopApply(l, step), MessageAt(l, step.i);
    var called := step.isNew && !Delivered(l.s.rows, m.messageId);
    EventToken(l, tokens, step.i);
    ConsumeEffect(l.s, m, step.isNew, step.send, step.t);
    ConsumedTried(l.s, l'.s, m, called, step.send, step.t, tokens);
    ConsumedCarries(l, l', tokens, step.i, m, called, step.send, step.t);
    EventCounted(events, l.topic[step.i], tokens, NextToken(m, called, step.send));
    tokens' := tokens[m.messageId := NextToken(m, called, step.send)];
  }

  lemma MovedCounted(events: seq<Event>, tokens: map<string, Token>, tokens': map<string, Token>)
    requires AllCounted(events, tokens) && Moved(tokens, tokens')
    ensures AllCounted(events, tokens')
  {
    forall id | id in tokens' ensures Counted(events, id, tokens'[id]) {
      assert Counted(events, id, tokens[id]) && SameOrMoved(tokens[id], tokens'[id]);
    }
  }

  lemma LoopPoll(l: Loop, tokens: map<string, Token>, step: LoopStep, events: seq<Event>)
    returns (tokens': map<string, Token>)
    requires LoopInv(l, tokens) && step.Poll? && Enabled(l, step) && AllCounted(events, tokens)
    ensures LoopInv(LoopApply(l, step), tokens') && tokens'.Keys == tokens.Keys
    ensures AllCounted(events, tokens') && Moved(tokens, tokens')
  {
    var l', fl := LoopApply(l, step), Polled(FlowOf(l), step.now, step.items);
    tokens' := PollKeeps(FlowOf(l), Channels(l.s.rows), tokens, step.now, step.items);
    assert FlowOf(l') == fl;
    forall id | id in tokens' ensures Tried(l'.s, id, tokens'[id]) {
      assert Tried(l.s, id, tokens[id]) && SameOrMoved(tokens[id], tokens'[id]);
    }
    MovedCounted(events, tokens, tokens');
  }

  lemma LoopStepKeeps(l: Loop, steps: seq<LoopStep>, step: LoopStep, tokens: map<string, Token>)
    returns (tokens': map<string, Token>)
    requires LoopInv(LoopAfter(l, steps), tokens) && AllCounted(ConsumedEvents(l, steps), tokens)
    ensures LoopInv(LoopApply(LoopAfter(l, steps), step), tokens') && tokens'.Keys == tokens.Keys
    ensures AllCounted(ConsumedEvents(l, steps + [step]), tokens')
  {
    var before := LoopAfter(l, steps);
    LoopAfterSnoc(l, steps, step);
    tokens' := tokens;
    if Enabled(before, step) {
      if step.Consume? {
        tokens' := LoopConsume(before, tokens, step, ConsumedEvents(l, steps));
      } else {
        tokens' := LoopPoll(before, tokens, step, ConsumedEvents(l, steps));
      }
    }
  }

  lemma StartLoopInv(l: Loop, tokens: map<string, Token>)
    requires Accepted(l) && tokens == map id | id in l.s.rows :: OnTopic(0)
    ensures LoopInv(l, tokens) && AllCounted([], tokens)
  {
  }

  lemma {:induction false} LoopInvAlways(l: Loop, steps: seq<LoopStep>) returns (tokens: map<string, Token>)
    requires Accepted(l)
    ensures LoopInv(LoopAfter(l, steps), tokens) && tokens.Keys == l.s.rows.Keys
    ensures AllCounted(ConsumedEvents(l, steps), tokens)
  {
    if steps == [] {
      tokens := map id | id in l.s.rows :: OnTopic(0);
      StartLoopInv(l, tokens);
    } else {
      var front, step := steps[..|steps| - 1], steps[|steps| - 1];
      assert steps == front + [step];
      tokens := LoopInvAlways(l, front);
      tokens := LoopStepKeeps(l, front, step, tokens);
    }
  }

  lemma CallsOfOne(l: Loop, steps: seq<LoopStep>, id: string)
    requires Accepted(l) && id in l.s.rows
    ensures var calls := CallsFor(LoopAfter(l, steps).s, id);
            |calls| <= MAX_ATTEMPTS && forall j :: 0 <= j < |calls| ==> calls[j].number == j + 1
  {
    var tokens := LoopInvAlways(l, steps);
    assert Tried(LoopAfter(l, steps).s, id, tokens[id]);
  }

  /** The use-case loop tries a message with numbers 1, 2, 3, 4 and no further,
      whatever the dedup answers: N messages cost at most 4N provider calls. */
  lemma AtMostFourAttempts(l: Loop, steps: seq<LoopStep>)
    requires Accepted(l)
    ensures var s := LoopAfter(l, steps).s;
            && |s.calls| <= 4 * |l.s.rows|
            && forall id :: id in l.s.rows ==>
                              && |CallsFor(s, id)| <= 4
                              && forall j :: 0 <= j < |CallsFor(s, id)| ==> CallsFor(s, id)[j].number == j + 1
  {
    var s := LoopAfter(l, steps).s;
    var tokens := LoopInvAlways(l, steps);
    forall id | id in l.s.rows
      ensures |CallsFor(s, id)| <= 4 && forall j :: 0 <= j < |CallsFor(s, id)| ==> CallsFor(s, id)[j].number == j + 1
    {
      CallsOfOne(l, steps, id);
    }
    AboutBound(s.calls, l.s.rows.Keys, 4, CallId);
  }

  lemma CountedEvents(events: seq<Event>, id: string, token: Token)
    requires Counted(events, id, token)
    ensures |EventsOf(events, id)| <= 4
    ensures forall j :: 0 <= j < |EventsOf(events, id)| ==> EventsOf(events, id)[j] == Event(id, j)
  {
    var own := EventsOf(events, id);
    assert forall j :: 0 <= j < |own| ==> own[j] in own;
  }

  /** The loop runs dry: a message's events carry attempts 0, 1, 2, 3 at most, so no
      run from N accepted messages consumes more than 4N, sent or not. */
  lemma LoopRunsDry(l: Loop, steps: seq<LoopStep>)
    requires Accepted(l)
    ensures |ConsumedEvents(l, steps)| <= 4 * |l.s.rows|
    ensures forall id :: id in l.s.rows ==>
                           var own := EventsOf(ConsumedEvents(l, steps), id);
                           |own| <= 4 && forall j :: 0 <= j < |own| ==> own[j] == Event(id, j)
  {
    var events := ConsumedEvents(l, steps);
    var tokens := LoopInvAlways(l, steps);
    forall id | id in l.s.rows
      ensures |EventsOf(events, id)| <= 4
      ensures forall j :: 0 <= j < |EventsOf(events, id)| ==> EventsOf(events, id)[j] == Event(id, j)
    {
      CountedEvents(events, id, tokens[id]);
    }
    AboutBound(events, l.s.rows.Keys, 4, EventId);
  }

  /** A failed send is queued with the delay of its attempt, 1 s, 10 s or 30 s, and
      nothing else is ever queued; the 5 min entry is never reached. */
  lemma UseCaseDelays(s: State, m: Message, isNew: bool, send: Outcome, t: Times)
    requires m.messageId in s.rows
    ensures Execute(s, m, isNew, Sound(send), t).0.retries ==
            if isNew && !Delivered(s.rows, m.messageId) && send.Throws() && m.attempt <= 2
            then s.retries[RetryPayload(m) := t.schedule +
                    (if m.attempt == 0 then 1000 else if m.attempt == 1 then 10000 else 30000)]
            else s.retries
  {
  }

  // ------------------------------------------------------- a run that reaches the bound

  const AT_ZERO := Times(0, 0, 0, 0)

  /** Tokens of the state a run leads to, with what `LoopInvAlways` says of them. */
  ghost predicate Leads(l: Loop, steps: seq<LoopStep>, tokens: map<string, Token>) {
    && LoopInv(LoopAfter(l, steps), tokens) && tokens.Keys == l.s.rows.Keys
    && AllCounted(ConsumedEvents(l, steps), tokens)
  }

  /** Nothing is delivered, whatever is queued is due by `DEFAULT_DELAY`, and a
      message is given up only after four calls. */
  ghost predicate Failing(l: Loop, tokens: map<string, Token>) {
    && (forall id :: id in l.s.rows ==> !l.s.rows[id].finalDelivered)
    && (forall p :: p in l.s.retries ==> 0 <= l.s.retries[p] <= DEFAULT_DELAY)
    && (forall id :: id in tokens && tokens[id].Gone? ==> |CallsFor(l.s, id)| == MAX_ATTEMPTS)
  }

  lemma LoopAfterSnoc(l: Loop, steps: seq<LoopStep>, step: LoopStep)
    ensures LoopAfter(l, steps + [step]) == LoopApply(LoopAfter(l, steps), step)
    ensures ConsumedEvents(l, steps + [step]) ==
            if step.Consume? && Enabled(LoopAfter(l, steps), step)
            then ConsumedEvents(l, steps) + [LoopAfter(l, steps).topic[step.i]] else ConsumedEvents(l, steps)
  {
    assert (steps + [step])[..|steps|] == steps;
  }

  lemma PolledKeepsFailing(l: Loop, now: int, items: seq<string>,
                           tokens: map<string, Token>, tokens': map<string, Token>)
    requires Failing(l, tokens) && Moved(tokens, tokens')
    ensures Failing(PolledLoop(l, now, items), tokens')
  {
    forall id | id in tokens' && tokens'[id].Gone? ensures tokens[id].Gone? {
      assert SameOrMoved(tokens[id], tokens'[id]);
    }
  }

  lemma DueIsRepublished(l: Loop, items: seq<string>, tokens: map<string, Token>)
    requires Failing(l, tokens) && l.s.retries != map[] && Enumerates(items, Due(l.s.retries, DEFAULT_DELAY))
    ensures PolledLoop(l, DEFAULT_DELAY, items).topic != []
  {
    var p :| p in l.s.retries;
    assert p in Due(l.s.retries, DEFAULT_DELAY) && p in items;
  }

  /** All that is queued can be polled. */
  lemma PollAll(l: Loop, steps: seq<LoopStep>, tokens: map<string, Token>)
    returns (steps': seq<LoopStep>, tokens': map<string, Token>)
    requires Leads(l, steps, tokens) && Failing(LoopAfter(l, steps), tokens) && LoopAfter(l, steps).s.retries != map[]
    ensures Leads(l, steps', tokens') && Failing(LoopAfter(l, steps'), tokens') && LoopAfter(l, steps').topic != []
    ensures LoopAfter(l, steps').s.calls == LoopAfter(l, steps).s.calls
  {
    var before := LoopAfter(l, steps);
    var items := SomeOrder(Due(before.s.retries, DEFAULT_DELAY));
    var step := Poll(DEFAULT_DELAY, items);
    LoopAfterSnoc(l, steps, step);
    steps' := steps + [step];
    tokens' := LoopPoll(before, tokens, step, ConsumedEvents(l, steps));
    PolledKeepsFailing(before, DEFAULT_DELAY, items, tokens, tokens');
    DueIsRepublished(before, items, tokens);
  }

  lemma FailedExecute(s: State, m: Message)
    requires m.messageId in s.rows && forall id :: id in s.rows ==> !s.rows[id].finalDelivered
    ensures var s' := Execute(s, m, true, Sound(Lost), AT_ZERO).0;
            && (forall id :: id in s'.rows ==> !s'.rows[id].finalDelivered)
            && Consumed(s, s', m, true, Lost, AT_ZERO)
  {
    ConsumeEffect(s, m, true, Lost, AT_ZERO);
  }

  lemma DelayInRange(attempt: nat)
    ensures 0 <= UseCaseDelay(attempt) <= DEFAULT_DELAY
  {
    assert BACKOFF_DELAYS == [0, 1000, 10000, 30000, 300000];
  }

  lemma FailureKeepsFailing(l: Loop, l': Loop, tokens: map<string, Token>, m: Message)
    requires Failing(l, tokens) && AllTried(l.s, tokens)
    requires m.messageId in tokens && tokens[m.messageId] == OnTopic(m.attempt)
    requires Consumed(l.s, l'.s, m, true, Lost, AT_ZERO)
    requires forall id :: id in l'.s.rows ==> !l'.s.rows[id].finalDelivered
    ensures Failing(l', tokens[m.messageId := NextToken(m, true, Lost)])
  {
    DelayInRange(m.attempt + 1);
    var tokens' := tokens[m.messageId := NextToken(m, true, Lost)];
    forall id | id in tokens' && tokens'[id].Gone? ensures |CallsFor(l'.s, id)| == MAX_ATTEMPTS {
      assert Tried(l.s, id, tokens[id]);
      AboutSnoc(l.s.calls, Call(m.messageId, m.attempt + 1, 0, false), id, CallId);
    }
  }

  /** The first event on the topic is consumed, and the provider fails. */
  lemma FailOne(l: Loop, steps: seq<LoopStep>, tokens: map<string, Token>)
    returns (steps': seq<LoopStep>, tokens': map<string, Token>)
    requires Leads(l, steps, tokens) && Failing(LoopAfter(l, steps), tokens) && LoopAfter(l, steps).topic != []
    ensures Leads(l, steps', tokens') && Failing(LoopAfter(l, steps'), tokens')
    ensures |LoopAfter(l, steps').s.calls| == |LoopAfter(l, steps).s.calls| + 1
  {
    var before, step := LoopAfter(l, steps), Consume(0, true, Lost, AT_ZERO);
    assert before.topic[0] in before.topic;
    var m := MessageAt(before, 0);
    LoopAfterSnoc(l, steps, step);
    steps' := steps + [step];
    tokens' := LoopConsume(before, tokens, step, ConsumedEvents(l, steps));
    FailedExecute(before.s, m);
    FailureKeepsFailing(before, LoopAfter(l, steps'), tokens, m);
  }

  lemma {:induction false} Exhaust(l: Loop, steps: seq<LoopStep>, tokens: map<string, Token>)
    returns (steps': seq<LoopStep>, tokens': map<string, Token>)
    requires Accepted(l) && Leads(l, steps, tokens) && Failing(LoopAfter(l, steps), tokens)
    ensures Leads(l, steps', tokens') && Failing(LoopAfter(l, steps'), tokens')
    ensures LoopAfter(l, steps').topic == [] && LoopAfter(l, steps').s.retries == map[]
    decreases 4 * |l.s.rows| - |LoopAfter(l, steps).s.calls|
  {
    if LoopAfter(l, steps).topic == [] && LoopAfter(l, steps).s.retries == map[] {
      steps', tokens' := steps, tokens;
    } else {
      var ready, held := steps, tokens;
      if LoopAfter(l, steps).topic == [] {
        ready, held := PollAll(l, steps, tokens);
      }
      var next, holding := FailOne(l, ready, held);
      AtMostFourAttempts(l, next);
      steps', tokens' := Exhaust(l, next, holding);
    }
  }

  lemma NothingPending(l: Loop, tokens: map<string, Token>, id: string)
    requires LoopInv(l, tokens) && id in l.s.rows && l.topic == [] && l.s.retries == map[]
    ensures id in tokens && tokens[id].Gone?
  {
    assert Holds(FlowOf(l), id, Channels(l.s.rows)[id], tokens[id]);
  }

  /** The bound is exact: from any N accepted and undelivered messages there is a
      run that calls the provider 4N times. */
  lemma FourAttemptsReached(l: Loop) returns (steps: seq<LoopStep>)
    requires Accepted(l) && forall id :: id in l.s.rows ==> !l.s.rows[id].finalDelivered
    ensures |LoopAfter(l, steps).s.calls| == 4 * |l.s.rows|
  {
    var tokens := LoopInvAlways(l, []);
    forall id | id in tokens ensures !tokens[id].Gone? {
      assert Holds(FlowOf(l), id, Channels(l.s.rows)[id], tokens[id]);
    }
    steps, tokens := Exhaust(l, [], tokens);
    var l' := LoopAfter(l, steps);
    forall id | id in l.s.rows.Keys ensures |CallsFor(l'.s, id)| >= 4 {
      NothingPending(l', tokens, id);
    }
    AboutLeast(l'.s.calls, l.s.rows.Keys, 4, CallId);
    AtMostFourAttempts(l, steps);
  }
}
