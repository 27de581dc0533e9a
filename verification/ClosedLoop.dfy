/** The wired retry loop closed on itself: events on the topic are processed in
    any order, failures wait in the retry set, polls republish what is due.
    Only the provider fails, and a poll with its republishing is one step. */
module ClosedLoop {
  import opened Text
  import opened Store
  import opened Backoff
  import opened Delivery
  import opened Logs
  import opened RetryFlow

  datatype Step =
    | Process(i: nat, send: Outcome, t: Times)   // the i-th event on the topic is consumed
    | Poll(now: int, items: seq<string>)         // the due payloads, in some order, are republished

  ghost predicate Enabled(l: Loop, step: Step) {
    match step
    case Process(i, _, _) => i < |l.topic| && l.topic[i].messageId in l.s.rows
    case Poll(now, items) => Enumerates(items, Due(l.s.retries, now))
  }

  ghost function Apply(l: Loop, step: Step): Loop {
    if !Enabled(l, step) then l else
    match step
    case Process(i, send, t) =>
      Loop(Deliver(l.s, MessageAt(l, i), OnlyProvider(send), t).0, Without(l.topic, i))
    case Poll(now, items) => PolledLoop(l, now, items)
  }

  /** Any finite run: a step that is not enabled does nothing. */
  ghost function After(l: Loop, steps: seq<Step>): Loop {
    if steps == [] then l else Apply(After(l, steps[..|steps| - 1]), steps[|steps| - 1])
  }

  // ------------------------------------------------------------------ what is recorded

  function AttemptId(a: Attempt): string { a.messageId }
  function LetterId(d: DeadLetter): string { d.messageId }

  function Trail(s: State, id: string): seq<Attempt> { About(s.audits, id, AttemptId) }
  function Letters(s: State, id: string): seq<DeadLetter> { About(s.dlqRows, id, LetterId) }

  function AsAttempts(calls: seq<Call>): seq<Attempt> {
    seq(|calls|, i requires 0 <= i < |calls| => Attempt(calls[i].messageId, calls[i].number, calls[i].success))
  }

  // ------------------------------------------------------------------------ phases

  datatype Place = Pending | Finished | Buried

  /** How far a message is, and how many of its attempts have failed. */
  datatype Phase = Phase(place: Place, fails: nat)

  /** The k-th failure has number 2k+1: scheduler and processor both add one. */
  function Failures(id: string, fails: nat): (r: seq<Attempt>)
    ensures |r| == fails
    ensures forall k :: 0 <= k < fails ==> r[k] == Attempt(id, 2 * k + 1, false)
  {
    seq(fails, k requires 0 <= k < fails => Attempt(id, 2 * k + 1, false))
  }

  /** Row, audit trail and dead letters of a message in a phase. */
  predicate Recorded(s: State, id: string, ph: Phase) {
    && id in s.rows
    && var row := s.rows[id];
    match ph.place
    case Pending =>
      && ph.fails <= 2 && Trail(s, id) == Failures(id, ph.fails)
      && row.status == (if ph.fails == 0 then IN_PROGRESS else PENDING) && !row.finalDelivered
      && row.attempts == (if ph.fails == 0 then 0 else 2 * ph.fails - 1)
      && Letters(s, id) == []
    case Finished =>
      && ph.fails <= 2 && Trail(s, id) == Failures(id, ph.fails) + [Attempt(id, 2 * ph.fails + 1, true)]
      && row.status == SENT && row.finalDelivered && row.attempts == 2 * ph.fails + 1
      && Letters(s, id) == []
    case Buried =>
      && ph.fails == 3 && Trail(s, id) == Failures(id, 3)
      && row.status == FAILED && !row.finalDelivered && row.attempts == 5
      && Letters(s, id) == [DeadLetter(id, row.channel)]
  }

  /** A message has a pending attempt, numbered from its failures, just while it is pending. */
  predicate Matches(ph: Phase, token: Token) {
    if ph.place == Pending then !token.Gone? && token.attempt == 2 * ph.fails else token == Gone
  }

  ghost predicate AllRecorded(s: State, phases: map<string, Phase>) {
    phases.Keys == s.rows.Keys && forall id :: id in phases ==> Recorded(s, id, phases[id])
  }

  ghost predicate AllMatch(phases: map<string, Phase>, tokens: map<string, Token>) {
    phases.Keys == tokens.Keys && forall id :: id in phases ==> Matches(phases[id], tokens[id])
  }

  /** Each call is audited, each dead letter published, all of accepted messages. */
  ghost predicate Audited(s: State) {
    && (forall a :: a in s.audits ==> a.messageId in s.rows)
    && AsAttempts(s.calls) == s.audits
    && s.dlqTopic == s.dlqRows
  }

  ghost predicate Inv(l: Loop, phases: map<string, Phase>, tokens: map<string, Token>) {
    && AllRecorded(l.s, phases) && AllMatch(phases, tokens) && Audited(l.s)
    && Carries(FlowOf(l), Channels(l.s.rows), tokens)
  }

  /** Where the loop starts: every accepted message has its IN_PROGRESS row and
      one event on the topic; ids are free of colons, as UUIDs are. */
  ghost predicate Accepted(l: Loop) {
    && l.s == State(l.s.rows, [], [], l.s.cache, map[], [], [], [])
    && (forall id :: id in l.s.rows ==>
                       && ColonFree(id) && l.s.rows[id].status == IN_PROGRESS
                       && !l.s.rows[id].finalDelivered && l.s.rows[id].attempts == 0
                       && EventsOf(l.topic, id) == [Event(id, 0)])
    && (forall e :: e in l.topic ==> e.messageId in l.s.rows)
  }

  // ------------------------------------------------------------- processing an event

  /** What a call does for an undelivered row when only the provider fails. */
  predicate Stepped(s: State, s': State, m: Message, send: Outcome, t: Times)
    requires m.messageId in s.rows
  {
    var id, n := m.messageId, m.attempt + 1;
    var letters := if send.Throws() && n >= MAX_ATTEMPTS then [DeadLetter(id, m.channel)] else [];
    && s'.audits == s.audits + [Attempt(id, n, send.Done?)]
    && s'.calls == s.calls + [Call(id, n, t.send, send.Done?)]
    && s'.rows == s.rows[id := s.rows[id].(
                  status := if send.Done? then SENT else if n < MAX_ATTEMPTS then PENDING else FAILED,
                  finalDelivered := send.Done?, attempts := n)]
    && s'.retries == (if send.Throws() && n < MAX_ATTEMPTS
                      then s.retries[NextPayload(m) := t.schedule + Delay(n)] else s.retries)
    && s'.dlqRows == s.dlqRows + letters
    && s'.dlqTopic == s.dlqTopic + letters
  }

  lemma ProcessEffect(s: State, m: Message, send: Outcome, t: Times)
    requires m.messageId in s.rows && !s.rows[m.messageId].finalDelivered
    ensures var (s', r) := Deliver(s, m, OnlyProvider(send), t);
            && Stepped(s, s', m, send, t)
            && r == (if send.Done? then SUCCESS else if m.attempt + 1 < MAX_ATTEMPTS then RETRY else DEAD)
  {
  }

  function NextPhase(ph: Phase, delivered: bool): Phase {
    if delivered then Phase(Finished, ph.fails)
    else if ph.fails < 2 then Phase(Pending, ph.fails + 1)
    else Phase(Buried, 3)
  }

  function NextToken(ph: Phase, delivered: bool): Token {
    if !delivered && ph.fails < 2 then InQueue(2 * ph.fails + 2) else Gone
  }

  /** How the trail and the dead letters of any message grow by one call. */
  lemma LogsGrow(s: State, s': State, m: Message, send: Outcome, t: Times, k: string)
    requires m.messageId in s.rows && Stepped(s, s', m, send, t)
    ensures Trail(s', k) == Trail(s, k) + (if k == m.messageId then [Attempt(k, m.attempt + 1, send.Done?)] else [])
    ensures Letters(s', k) == Letters(s, k) + (if k == m.messageId && send.Throws() && m.attempt + 1 >= MAX_ATTEMPTS
                                               then [DeadLetter(k, m.channel)] else [])
  {
    AboutSnoc(s.audits, Attempt(m.messageId, m.attempt + 1, send.Done?), k, AttemptId);
    AboutSnoc(s.dlqRows, DeadLetter(m.messageId, m.channel), k, LetterId);
    assert s.dlqRows + [] == s.dlqRows;
  }

  lemma RecordsOther(s: State, s': State, m: Message, send: Outcome, t: Times, k: string, ph: Phase)
    requires m.messageId in s.rows && Stepped(s, s', m, send, t)
    requires k != m.messageId && Recorded(s, k, ph)
    ensures Recorded(s', k, ph)
  {
    LogsGrow(s, s', m, send, t, k);
  }

  lemma RecordsOwn(s: State, s': State, m: Message, send: Outcome, t: Times, ph: Phase)
    requires m.messageId in s.rows && Stepped(s, s', m, send, t) && Recorded(s, m.messageId, ph)
    requires ph.place == Pending && m.attempt == 2 * ph.fails && m.channel == s.rows[m.messageId].channel
    ensures Recorded(s', m.messageId, NextPhase(ph, send.Done?))
  {
    var id := m.messageId;
    LogsGrow(s, s', m, send, t, id);
    if send.Throws() {
      assert Failures(id, ph.fails + 1) == Failures(id, ph.fails) + [Attempt(id, 2 * ph.fails + 1, false)];
      assert Trail(s', id) == Failures(id, ph.fails + 1);
    }
  }

  lemma SteppedRecords(s: State, s': State, m: Message, send: Outcome, t: Times, phases: map<string, Phase>, own: Phase)
    requires m.messageId in s.rows && Stepped(s, s', m, send, t) && AllRecorded(s, phases)
    requires own == phases[m.messageId]
    requires own.place == Pending && m.attempt == 2 * own.fails && m.channel == s.rows[m.messageId].channel
    ensures AllRecorded(s', phases[m.messageId := NextPhase(own, send.Done?)])
  {
    var phases' := phases[m.messageId := NextPhase(own, send.Done?)];
    forall k | k in phases' ensures Recorded(s', k, phases'[k]) {
      assert Recorded(s, k, phases[k]);
      if k == m.messageId {
        RecordsOwn(s, s', m, send, t, own);
      } else {
        RecordsOther(s, s', m, send, t, k, phases[k]);
      }
    }
  }

  lemma SteppedAudited(s: State, s': State, m: Message, send: Outcome, t: Times)
    requires m.messageId in s.rows && Stepped(s, s', m, send, t) && Audited(s)
    ensures Audited(s') && Channels(s'.rows) == Channels(s.rows)
  {
  }

  /** The event being consumed tells its message's phase. */
  lemma EventTellsPhase(l: Loop, i: nat, ph: Phase, token: Token)
    requires i < |l.topic| && Recorded(l.s, l.topic[i].messageId, ph) && Matches(ph, token)
    requires Holds(FlowOf(l), l.topic[i].messageId, l.s.rows[l.topic[i].messageId].channel, token)
    ensures token.OnTopic? && ph.place == Pending && ph.fails <= 2 && l.topic[i].attempt == 2 * ph.fails
    ensures !l.s.rows[l.topic[i].messageId].finalDelivered
  {
    EventTells(FlowOf(l), i, l.s.rows[l.topic[i].messageId].channel, token);
  }

  lemma SteppedRequeues(s: State, s': State, m: Message, send: Outcome, t: Times, ph: Phase)
    requires m.messageId in s.rows && Stepped(s, s', m, send, t)
    requires m.attempt == 2 * ph.fails && ph.fails <= 2 && m.channel == s.rows[m.messageId].channel
    ensures Requeued(s.retries, s'.retries, m.messageId, m.channel, NextToken(ph, send.Done?))
  {
  }

  lemma SteppedMatches(phases: map<string, Phase>, tokens: map<string, Token>, id: string, delivered: bool)
    requires AllMatch(phases, tokens) && id in phases && phases[id].place == Pending && phases[id].fails <= 2
    ensures AllMatch(phases[id := NextPhase(phases[id], delivered)], tokens[id := NextToken(phases[id], delivered)])
  {
  }

  lemma SteppedCarries(l: Loop, l': Loop, tokens: map<string, Token>, i: nat, m: Message, send: Outcome,
                       t: Times, own: Phase)
    requires i < |l.topic| && l.topic[i].messageId in l.s.rows && m == MessageAt(l, i)
    requires Stepped(l.s, l'.s, m, send, t) && l'.topic == Without(l.topic, i)
    requires m.attempt == 2 * own.fails && own.fails <= 2
    requires Channels(l'.s.rows) == Channels(l.s.rows) && Carries(FlowOf(l), Channels(l.s.rows), tokens)
    ensures Carries(FlowOf(l'), Channels(l'.s.rows), tokens[m.messageId := NextToken(own, send.Done?)])
  {
    SteppedRequeues(l.s, l'.s, m, send, t, own);
    ConsumeKeeps(FlowOf(l), FlowOf(l'), Channels(l.s.rows), tokens, i, NextToken(own, send.Done?));
  }

  lemma EventPhase(l: Loop, phases: map<string, Phase>, tokens: map<string, Token>, i: nat)
    requires AllRecorded(l.s, phases) && AllMatch(phases, tokens) && i < |l.topic| && l.topic[i].messageId in l.s.rows
    requires AllHold(FlowOf(l), Channels(l.s.rows), tokens)
    ensures var own := phases[l.topic[i].messageId];
            && own.place == Pending && own.fails <= 2 && l.topic[i].attempt == 2 * own.fails
            && !l.s.rows[l.topic[i].messageId].finalDelivered
  {
    var id := l.topic[i].messageId;
    assert Recorded(l.s, id, phases[id]) && Matches(phases[id], tokens[id]);
    assert Holds(FlowOf(l), id, Channels(l.s.rows)[id], tokens[id]);
    EventTellsPhase(l, i, phases[id], tokens[id]);
  }

  /** Consuming an event moves its message on by one phase and nothing else. */
  lemma ProcessKeeps(l: Loop, phases: map<string, Phase>, tokens: map<string, Token>, step: Step)
    requires Inv(l, phases, tokens) && step.Process? && Enabled(l, step)
    ensures var id := l.topic[step.i].messageId;
            && id in phases
            && Inv(Apply(l, step), phases[id := NextPhase(phases[id], step.send.Done?)],
                   tokens[id := NextToken(phases[id], step.send.Done?)])
  {
    var l', m := Apply(l, step), MessageAt(l, step.i);
    var own := phases[m.messageId];
    EventPhase(l, phases, tokens, step.i);
    ProcessEffect(l.s, m, step.send, step.t);
    SteppedRecords(l.s, l'.s, m, step.send, step.t, phases, own);
    SteppedAudited(l.s, l'.s, m, step.send, step.t);
    SteppedMatches(phases, tokens, m.messageId, step.send.Done?);
    SteppedCarries(l, l', tokens, step.i, m, step.send, step.t, own);
  }

  lemma MovedMatches(phases: map<string, Phase>, tokens: map<string, Token>, tokens': map<string, Token>)
    requires AllMatch(phases, tokens) && Moved(tokens, tokens')
    ensures AllMatch(phases, tokens')
  {
  }

  lemma QueueNotRecorded(s: State, retries: map<string, int>, phases: map<string, Phase>)
    requires AllRecorded(s, phases) && Audited(s)
    ensures AllRecorded(s.(retries := retries), phases) && Audited(s.(retries := retries))
  {
  }

  lemma PolledKeeps(l: Loop, phases: map<string, Phase>, tokens: map<string, Token>, step: Step)
    returns (tokens': map<string, Token>)
    requires Inv(l, phases, tokens) && step.Poll? && Enabled(l, step)
    ensures Inv(Apply(l, step), phases, tokens')
  {
    var fl := Polled(FlowOf(l), step.now, step.items);
    tokens' := PollKeeps(FlowOf(l), Channels(l.s.rows), tokens, step.now, step.items);
    MovedMatches(phases, tokens, tokens');
    QueueNotRecorded(l.s, fl.retries, phases);
    assert FlowOf(Apply(l, step)) == fl;
  }

  lemma StartRecorded(s: State, id: string)
    requires id in s.rows && s.rows[id].status == IN_PROGRESS && !s.rows[id].finalDelivered && s.rows[id].attempts == 0
    requires s.audits == [] && s.dlqRows == []
    ensures Recorded(s, id, Phase(Pending, 0))
  {
  }

  lemma StartCarries(l: Loop, tokens: map<string, Token>)
    requires Accepted(l) && tokens == map id | id in l.s.rows :: OnTopic(0)
    ensures Carries(FlowOf(l), Channels(l.s.rows), tokens)
  {
  }

  lemma StartInv(l: Loop) returns (phases: map<string, Phase>, tokens: map<string, Token>)
    requires Accepted(l)
    ensures Inv(l, phases, tokens)
  {
    phases := map id | id in l.s.rows :: Phase(Pending, 0);
    tokens := map id | id in l.s.rows :: OnTopic(0);
    StartCarries(l, tokens);
    forall id | id in phases ensures Recorded(l.s, id, phases[id]) {
      StartRecorded(l.s, id);
    }
    assert AllMatch(phases, tokens);
  }

  lemma StepKeeps(l: Loop, phases: map<string, Phase>, tokens: map<string, Token>, step: Step)
    returns (phases': map<string, Phase>, tokens': map<string, Token>)
    requires Inv(l, phases, tokens)
    ensures Inv(Apply(l, step), phases', tokens') && phases'.Keys == phases.Keys
  {
    phases', tokens' := phases, tokens;
    if Enabled(l, step) {
      if step.Process? {
        var id := l.topic[step.i].messageId;
        ProcessKeeps(l, phases, tokens, step);
        phases' := phases[id := NextPhase(phases[id], step.send.Done?)];
        tokens' := tokens[id := NextToken(phases[id], step.send.Done?)];
      } else {
        tokens' := PolledKeeps(l, phases, tokens, step);
      }
    }
  }

  lemma {:induction false} InvAlways(l: Loop, steps: seq<Step>)
    returns (phases: map<string, Phase>, tokens: map<string, Token>)
    requires Accepted(l)
    ensures Inv(After(l, steps), phases, tokens) && phases.Keys == l.s.rows.Keys
  {
    if steps == [] {
      phases, tokens := StartInv(l);
    } else {
      phases, tokens := InvAlways(l, steps[..|steps| - 1]);
      phases, tokens := StepKeeps(After(l, steps[..|steps| - 1]), phases, tokens, steps[|steps| - 1]);
    }
  }

  // ---------------------------------------------------------------- main results

  /** Every accepted message is in some phase at every point of every run. */
  lemma PhaseAt(l: Loop, steps: seq<Step>, id: string) returns (ph: Phase, token: Token)
    requires Accepted(l) && id in l.s.rows
    ensures var l' := After(l, steps);
            && Recorded(l'.s, id, ph) && Matches(ph, token)
            && Holds(FlowOf(l'), id, l'.s.rows[id].channel, token)
            && QueuedFor(l'.s.retries, id) ==
               if token.InQueue? then {PayloadOf(id, l'.s.rows[id].channel, token.attempt)} else {}
  {
    var l' := After(l, steps);
    var phases, tokens := InvAlways(l, steps);
    ph, token := phases[id], tokens[id];
    assert Holds(FlowOf(l'), id, Channels(l'.s.rows)[id], token);
    OnePending(FlowOf(l'), Channels(l'.s.rows), tokens, id);
  }

  lemma AuditedAlways(l: Loop, steps: seq<Step>)
    requires Accepted(l)
    ensures Audited(After(l, steps).s) && After(l, steps).s.rows.Keys == l.s.rows.Keys
  {
    var _, _ := InvAlways(l, steps);
  }

  function One(b: bool): nat {
    if b then 1 else 0
  }

  /** Conservation: in every reachable state an accepted message is in exactly
      one of four places: one event on the topic, one payload in the retry set,
      delivered, or FAILED with exactly one dead letter. */
  lemma Conservation(l: Loop, steps: seq<Step>, id: string)
    requires Accepted(l) && id in l.s.rows
    ensures var l' := After(l, steps);
            && id in l'.s.rows
            && |EventsOf(l'.topic, id)| + |QueuedFor(l'.s.retries, id)|
               + One(Delivered(l'.s.rows, id)) + |Letters(l'.s, id)| == 1
            && (l'.s.rows[id].status == FAILED <==> |Letters(l'.s, id)| == 1)
  {
    var _, _ := PhaseAt(l, steps, id);
  }

  /** Once topic and queue are empty, every accepted message is delivered or FAILED. */
  lemma Settled(l: Loop, steps: seq<Step>, id: string)
    requires Accepted(l) && id in l.s.rows
    requires After(l, steps).topic == [] && After(l, steps).s.retries == map[]
    ensures var rows := After(l, steps).s.rows;
            id in rows && (rows[id].status == SENT || rows[id].status == FAILED)
  {
    var _, _ := PhaseAt(l, steps, id);
  }

  /** Attempt numbers strictly increase, only the last attempt can be a success,
      and row, audit trail and dead letters tell the same story. */
  ghost predicate Consistent(s: State, id: string) {
    var trail := Trail(s, id);
    && id in s.rows
    && (forall i, j :: 0 <= i < j < |trail| ==> trail[i].number < trail[j].number && !trail[i].success)
    && s.rows[id].attempts == (if trail == [] then 0 else trail[|trail| - 1].number)
    && (s.rows[id].status == SENT <==> trail != [] && trail[|trail| - 1].success)
    && (s.rows[id].status == FAILED <==> Letters(s, id) != [])
    && (s.rows[id].finalDelivered <==> s.rows[id].status == SENT)
  }

  lemma RecordedConsistent(s: State, id: string, ph: Phase)
    requires Recorded(s, id, ph)
    ensures Consistent(s, id) && |Trail(s, id)| <= 3
    ensures forall a :: a in Trail(s, id) ==> a.number in {1, 3, 5}
  {
    var failures := Failures(id, ph.fails);
    match ph.place {
      case Finished => assert Trail(s, id) == failures + [Attempt(id, 2 * ph.fails + 1, true)];
      case _ => assert Trail(s, id) == failures;
    }
  }

  /** The audit trail agrees with the row in every reachable state. */
  lemma AuditAgrees(l: Loop, steps: seq<Step>, id: string)
    requires Accepted(l) && id in l.s.rows
    ensures Consistent(After(l, steps).s, id)
  {
    var ph, _ := PhaseAt(l, steps, id);
    RecordedConsistent(After(l, steps).s, id, ph);
  }

  lemma TrailShort(l: Loop, steps: seq<Step>, id: string)
    requires Accepted(l) && id in l.s.rows
    ensures |Trail(After(l, steps).s, id)| <= 3
    ensures forall a :: a in Trail(After(l, steps).s, id) ==> a.number in {1, 3, 5}
  {
    var ph, _ := PhaseAt(l, steps, id);
    RecordedConsistent(After(l, steps).s, id, ph);
  }

  /** The provider is tried at most three times for a message, as attempts 1, 3
      and 5, and N messages cost at most 3N calls in all; the processor's own
      limit of four attempts is never used up. */
  lemma AtMostThreeAttempts(l: Loop, steps: seq<Step>)
    requires Accepted(l)
    ensures var s := After(l, steps).s;
            && |s.calls| <= 3 * |l.s.rows|
            && (forall i :: 0 <= i < |s.calls| ==> s.calls[i].number in {1, 3, 5})
            && (forall id :: id in l.s.rows ==> |Trail(s, id)| <= 3 < MAX_ATTEMPTS)
  {
    var s := After(l, steps).s;
    AuditedAlways(l, steps);
    forall id | id in l.s.rows
      ensures |Trail(s, id)| <= 3 && forall a :: a in Trail(s, id) ==> a.number in {1, 3, 5}
    {
      TrailShort(l, steps, id);
    }
    AboutBound(s.audits, l.s.rows.Keys, 3, AttemptId);
    assert |s.calls| == |AsAttempts(s.calls)| == |s.audits|;
    forall i | 0 <= i < |s.calls| ensures s.calls[i].number in {1, 3, 5} {
      var a := s.audits[i];
      assert AsAttempts(s.calls)[i] == a && a in s.audits;
      assert a in Trail(s, a.messageId);
    }
  }

  lemma SteppedDelays(s: State, s': State, m: Message, send: Outcome, t: Times)
    requires m.messageId in s.rows && Stepped(s, s', m, send, t)
    requires m.attempt == 0 || m.attempt == 2 || m.attempt == 4
    ensures |s'.calls| == |s.calls| + 1
    ensures s'.retries == if send.Done? || m.attempt == 4 then s.retries
                          else s.retries[NextPayload(m) := t.schedule + (if m.attempt == 0 then 1000 else 30000)]
  {
  }

  /** The provider calls and the queue after a step that consumes an event. */
  ghost predicate CostsOneCall(before: Loop, after: Loop, step: Step)
    requires step.Process? && Enabled(before, step)
  {
    var m := MessageAt(before, step.i);
    && |after.s.calls| == |before.s.calls| + 1
    && (m.attempt == 0 || m.attempt == 2 || m.attempt == 4)
    && after.s.retries ==
       if step.send.Done? || m.attempt == 4 then before.s.retries
       else before.s.retries[NextPayload(m) := step.t.schedule + (if m.attempt == 0 then 1000 else 30000)]
  }

  lemma ProcessCosts(before: Loop, step: Step, own: Phase, token: Token)
    requires step.Process? && Enabled(before, step)
    requires var id := before.topic[step.i].messageId;
             Recorded(before.s, id, own) && Matches(own, token)
             && Holds(FlowOf(before), id, before.s.rows[id].channel, token)
    ensures CostsOneCall(before, Apply(before, step), step)
  {
    var m := MessageAt(before, step.i);
    EventTellsPhase(before, step.i, own, token);
    assert own.fails == 0 || own.fails == 1 || own.fails == 2;
    ProcessEffect(before.s, m, step.send, step.t);
    SteppedDelays(before.s, Apply(before, step).s, m, step.send, step.t);
  }

  /** Every consumed event costs one provider call, so no run consumes more than
      3N events; the delays used are 1 s after attempt 1 and 30 s after attempt 3,
      and the fifth attempt is never followed by a retry.  The 10 s and 5 min
      entries of the table are dead. */
  lemma DelaysUsed(l: Loop, steps: seq<Step>, step: Step)
    requires Accepted(l) && step.Process? && Enabled(After(l, steps), step)
    ensures CostsOneCall(After(l, steps), Apply(After(l, steps), step), step)
  {
    AuditedAlways(l, steps);
    var own, token := PhaseAt(l, steps, After(l, steps).topic[step.i].messageId);
    ProcessCosts(After(l, steps), step, own, token);
  }

  /** The events a run consumes, in order. */
  ghost function Consumed(l: Loop, steps: seq<Step>): seq<Event> {
    if steps == [] then []
    else
      var front, before, step := Consumed(l, steps[..|steps| - 1]), After(l, steps[..|steps| - 1]), steps[|steps| - 1];
      if step.Process? && Enabled(before, step) then front + [before.topic[step.i]] else front
  }

  predicate IsCallFor(c: Call, e: Event) {
    c.messageId == e.messageId && c.number == e.attempt + 1
  }

  ghost predicate OneCallEach(calls: seq<Call>, events: seq<Event>) {
    |calls| == |events| && forall k :: 0 <= k < |calls| ==> IsCallFor(calls[k], events[k])
  }

  /** In a run an event on the topic is always for an undelivered message. */
  lemma EventSteps(l: Loop, steps: seq<Step>, step: Step)
    requires Accepted(l) && step.Process? && Enabled(After(l, steps), step)
    ensures var before := After(l, steps);
            Stepped(before.s, Apply(before, step).s, MessageAt(before, step.i), step.send, step.t)
  {
    var before := After(l, steps);
    var m := MessageAt(before, step.i);
    AuditedAlways(l, steps);
    var own, token := PhaseAt(l, steps, m.messageId);
    EventTellsPhase(before, step.i, own, token);
    ProcessEffect(before.s, m, step.send, step.t);
  }

  lemma {:induction false} CallsAreEvents(l: Loop, steps: seq<Step>)
    requires Accepted(l)
    ensures OneCallEach(After(l, steps).s.calls, Consumed(l, steps))
  {
    if steps == [] {
    } else {
      var before, step := steps[..|steps| - 1], steps[|steps| - 1];
      CallsAreEvents(l, before);
      if step.Process? && Enabled(After(l, before), step) {
        EventSteps(l, before, step);
      }
    }
  }

  /** The loop runs dry: each consumed event is one provider call, numbered one above
      the event's attempt, and no run from N accepted messages consumes more than 3N. */
  lemma LoopRunsDry(l: Loop, steps: seq<Step>)
    requires Accepted(l)
    ensures OneCallEach(After(l, steps).s.calls, Consumed(l, steps))
    ensures |Consumed(l, steps)| <= 3 * |l.s.rows|
  {
    CallsAreEvents(l, steps);
    AtMostThreeAttempts(l, steps);
  }

  // ------------------------------------------------------- a run that reaches the bound

  const AT_ZERO := Times(0, 0, 0, 0)

  /** No call succeeded, and whatever is queued is due by `DEFAULT_DELAY`. */
  ghost predicate Failing(l: Loop) {
    && (forall c :: c in l.s.calls ==> !c.success)
    && (forall p :: p in l.s.retries ==> 0 <= l.s.retries[p] <= DEFAULT_DELAY)
  }

  lemma AfterSnoc(l: Loop, steps: seq<Step>, step: Step)
    ensures After(l, steps + [step]) == Apply(After(l, steps), step)
  {
    assert (steps + [step])[..|steps|] == steps;
  }

  /** With an empty topic, all that is queued can be polled. */
  lemma PollAll(l: Loop, steps: seq<Step>) returns (steps': seq<Step>)
    requires Failing(After(l, steps)) && After(l, steps).s.retries != map[]
    ensures Failing(After(l, steps')) && After(l, steps').topic != []
    ensures After(l, steps').s.calls == After(l, steps).s.calls
  {
    var q := After(l, steps).s.retries;
    var items := SomeOrder(Due(q, DEFAULT_DELAY));
    steps' := steps + [Poll(DEFAULT_DELAY, items)];
    AfterSnoc(l, steps, Poll(DEFAULT_DELAY, items));
    var p :| p in q;
    assert p in Due(q, DEFAULT_DELAY) && p in items;
  }

  lemma HeadEnabled(l: Loop, steps: seq<Step>)
    requires Accepted(l) && After(l, steps).topic != []
    ensures Enabled(After(l, steps), Process(0, Lost, AT_ZERO))
  {
    var _, _ := InvAlways(l, steps);
    assert After(l, steps).topic[0] in After(l, steps).topic;
  }

  lemma FailureKeepsFailing(l: Loop, l': Loop, m: Message)
    requires m.messageId in l.s.rows && Stepped(l.s, l'.s, m, Lost, AT_ZERO) && Failing(l)
    ensures Failing(l') && |l'.s.calls| == |l.s.calls| + 1
  {
    MinimumDelay(m.attempt + 1);
    assert BACKOFF_DELAYS == [0, 1000, 10000, 30000, 300000];
  }

  /** The first event on the topic is consumed, and the provider fails. */
  lemma FailOne(l: Loop, steps: seq<Step>) returns (steps': seq<Step>)
    requires Accepted(l) && Failing(After(l, steps)) && After(l, steps).topic != []
    ensures Failing(After(l, steps')) && |After(l, steps').s.calls| == |After(l, steps).s.calls| + 1
  {
    var step := Process(0, Lost, AT_ZERO);
    HeadEnabled(l, steps);
    EventSteps(l, steps, step);
    FailureKeepsFailing(After(l, steps), Apply(After(l, steps), step), MessageAt(After(l, steps), 0));
    steps' := steps + [step];
    AfterSnoc(l, steps, step);
  }

  lemma {:induction false} Exhaust(l: Loop, steps: seq<Step>) returns (steps': seq<Step>)
    requires Accepted(l) && Failing(After(l, steps))
    ensures Failing(After(l, steps')) && After(l, steps').topic == [] && After(l, steps').s.retries == map[]
    decreases 3 * |l.s.rows| - |After(l, steps).s.calls|
  {
    if After(l, steps).topic == [] && After(l, steps).s.retries == map[] {
      steps' := steps;
    } else {
      var ready := steps;
      if After(l, steps).topic == [] {
        ready := PollAll(l, steps);
      }
      var next := FailOne(l, ready);
      LoopRunsDry(l, next);
      steps' := Exhaust(l, next);
    }
  }

  lemma FailedThrice(l: Loop, steps: seq<Step>, id: string)
    requires Accepted(l) && id in l.s.rows && Failing(After(l, steps))
    requires After(l, steps).topic == [] && After(l, steps).s.retries == map[]
    ensures |Trail(After(l, steps).s, id)| == 3
  {
    var s := After(l, steps).s;
    var ph, _ := PhaseAt(l, steps, id);
    AuditedAlways(l, steps);
    forall a | a in s.audits ensures !a.success {
      var i :| 0 <= i < |s.audits| && s.audits[i] == a;
      assert AsAttempts(s.calls)[i] == a && s.calls[i] in s.calls;
    }
    var trail := Trail(s, id);
    assert trail != [] ==> trail[|trail| - 1] in trail;
  }

  /** The bound is exact: from any N accepted messages there is a run that calls the
      provider 3N times. */
  lemma ThreeAttemptsReached(l: Loop) returns (steps: seq<Step>)
    requires Accepted(l)
    ensures |After(l, steps).s.calls| == 3 * |l.s.rows|
  {
    steps := Exhaust(l, []);
    var s := After(l, steps).s;
    forall id | id in l.s.rows.Keys ensures |Trail(s, id)| >= 3 {
      FailedThrice(l, steps, id);
    }
    AuditedAlways(l, steps);
    AboutLeast(s.audits, l.s.rows.Keys, 3, AttemptId);
    assert |AsAttempts(s.calls)| == |s.calls|;
    LoopRunsDry(l, steps);
  }
}
