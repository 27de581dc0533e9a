/** The wired stack over time: how often may a provider be called for one
    message when Redis is up, and which of the other effects may fail?  Calls of
    processDelivery come one after another, for any mix of messages. */
module AtMostOnce {
  import opened Text
  import opened Store
  import opened Delivery

  datatype Effect =
    | Exists | SetNX | GetStatus | Send | MarkSent | SaveSuccess | SetEx | LogSent | SaveFailure
    | MarkPending | Schedule | LogRetry | MarkFailed | SaveDlq | PublishDlq | LogFailed | PublishError

  function OutcomeOf(f: Faults, e: Effect): Outcome {
    match e
    case Exists => f.exists_
    case SetNX => f.setNx
    case GetStatus => f.getStatus
    case Send => f.send
    case MarkSent => f.markSent
    case SaveSuccess => f.saveSuccess
    case SetEx => f.setEx
    case LogSent => f.logSent
    case SaveFailure => f.saveFailure
    case MarkPending => f.markPending
    case Schedule => f.schedule
    case LogRetry => f.logRetry
    case MarkFailed => f.markFailed
    case SaveDlq => f.saveDlq
    case PublishDlq => f.publishDlq
    case LogFailed => f.logFailed
    case PublishError => f.publishError
  }

  /** The failures of single effects that can make a delivered message be sent
      again: any of the dedup read, the status read and the three writes after a
      successful send, and a lost refresh of the cache entry. */
  predicate Harmful(e: Effect, o: Outcome) {
    match e
    case Exists => o.Throws()
    case GetStatus => o.Throws()
    case MarkSent => o.Throws()
    case SaveSuccess => o.Throws()
    case LogSent => o.Throws()
    case SetEx => o.Lost?
    case _ => false
  }

  ghost predicate Harmless(f: Faults) {
    forall e: Effect :: !Harmful(e, OutcomeOf(f, e))
  }

  /** No effect but the provider fails in a way that `may` does not list. */
  ghost predicate Within(f: Faults, may: set<(Effect, Outcome)>) {
    forall e: Effect :: e.Send? || OutcomeOf(f, e).Done? || (e, OutcomeOf(f, e)) in may
  }

  ghost predicate Tolerable(may: set<(Effect, Outcome)>) {
    forall e, o :: (e, o) in may ==> !Harmful(e, o)
  }

  datatype World = World(s: State, clock: int)

  datatype Step = Step(m: Message, f: Faults, t: Times)

  /** A message with a row carries that row's dedup key; clocks do not run back. */
  predicate Enabled(w: World, step: Step) {
    && (step.m.messageId in w.s.rows ==> w.s.rows[step.m.messageId].dedupKey == step.m.dedupKey)
    && w.clock <= step.t.check && step.t.Ordered()
  }

  function Apply(w: World, step: Step): World {
    if !Enabled(w, step) then w else
    World(Deliver(w.s, step.m, step.f, step.t).0,
          if step.t.warm < step.t.schedule then step.t.schedule else step.t.warm)
  }

  function After(w: World, steps: seq<Step>): World {
    if steps == [] then w else Apply(After(w, steps[..|steps| - 1]), steps[|steps| - 1])
  }

  /** A message with a row is delivered, and its cache entry outlives the window of this call. */
  predicate Protected(s: State, c: Call) {
    && Delivered(s.rows, c.messageId)
    && DeliveryKey(s.rows[c.messageId].dedupKey) in s.cache
    && c.at + DELIVERY_CACHE_TTL <= s.cache[DeliveryKey(s.rows[c.messageId].dedupKey)]
  }

  /** Calls for one message that has a row keep at least `window` after a successful one. */
  ghost predicate Separated(s: State, window: int) {
    forall i, j :: 0 <= i < j < |s.calls| && s.calls[i].success && s.calls[i].messageId in s.rows
                   && s.calls[i].messageId == s.calls[j].messageId
                   ==> s.calls[i].at + window <= s.calls[j].at
  }

  ghost predicate Inv(w: World) {
    && (forall i :: 0 <= i < |w.s.calls| ==> w.s.calls[i].at <= w.clock)
    && (forall i :: 0 <= i < |w.s.calls| && w.s.calls[i].success && w.s.calls[i].messageId in w.s.rows
                    && w.clock < w.s.calls[i].at + DELIVERY_CACHE_TTL
                    ==> Protected(w.s, w.s.calls[i]))
    && Separated(w.s, DELIVERY_CACHE_TTL)
  }

  function Least(a: int, b: int): int {
    if a < b then a else b
  }

  lemma HarmlessParts(f: Faults)
    requires Harmless(f)
    ensures f.exists_.Done? && f.getStatus.Done? && f.markSent.Done? && f.saveSuccess.Done? && f.logSent.Done?
    ensures f.setEx.Lands()
  {
    assert !Harmful(Exists, OutcomeOf(f, Exists)) && !Harmful(GetStatus, OutcomeOf(f, GetStatus));
    assert !Harmful(MarkSent, OutcomeOf(f, MarkSent)) && !Harmful(SaveSuccess, OutcomeOf(f, SaveSuccess));
    assert !Harmful(LogSent, OutcomeOf(f, LogSent)) && !Harmful(SetEx, OutcomeOf(f, SetEx));
  }

  lemma CaughtCache(s: State, m: Message, f: Faults, t: Times)
    ensures Caught(s, m, f, t).0.cache == s.cache
  {
  }

  lemma SucceededEffect(s: State, m: Message, f: Faults, t: Times)
    requires f.markSent.Done? && f.saveSuccess.Done? && f.logSent.Done?
    ensures var s' := Succeeded(s, m, f, t).0;
            if m.messageId in s.rows
            then Delivered(s'.rows, m.messageId) && s'.cache == Warm(s, m, f.setEx, t.warm).cache
            else s'.cache == s.cache
  {
    if m.messageId !in s.rows {
      CaughtCache(SaveAttempt(Mark(s, m, SENT, true, f.markSent), m, true, f.saveSuccess), m, f, t);
    }
  }

  lemma SentEffect(s: State, m: Message, f: Faults, t: Times)
    requires f.markSent.Done? && f.saveSuccess.Done? && f.logSent.Done?
    ensures var s' := Sent(s, m, f, t).0;
            if f.send.Done? && m.messageId in s.rows
            then Delivered(s'.rows, m.messageId) && s'.cache == Warm(s, m, f.setEx, t.warm).cache
            else s'.cache == s.cache
  {
    if f.send.Throws() {
      CaughtCache(Called(s, m, f, t), m, f, t);
    } else {
      SucceededEffect(Called(s, m, f, t), m, f, t);
    }
  }

  /** What a call does when nothing fails that could do harm. */
  lemma CallEffect(s: State, m: Message, f: Faults, t: Times)
    requires t.Ordered() && Harmless(f)
    ensures var s' := Deliver(s, m, f, t).0;
            var key := DeliveryKey(m.dedupKey);
            if Cached(s, m, t) && Delivered(s.rows, m.messageId) then s' == s else
            && s'.calls == s.calls + [Call(m.messageId, m.attempt + 1, t.send, f.send.Done?)]
            && (f.send.Done? && m.messageId in s.rows ==>
                  Delivered(s'.rows, m.messageId) && key in s'.cache && s'.cache[key] == t.warm + DELIVERY_CACHE_TTL)
            && (key in s.cache && t.check < s.cache[key] ==>
                  key in s'.cache && s'.cache[key] >= Least(s.cache[key], t.warm + DELIVERY_CACHE_TTL))
  {
    HarmlessParts(f);
    ProviderCalledIff(s, m, f, t);
    SentEffect(AfterDedup(s, m, f, t.check), m, f, t);
  }

  lemma StepKeeps(w: World, step: Step)
    requires Inv(w) && Harmless(step.f)
    ensures Inv(Apply(w, step))
  {
    if Enabled(w, step) {
      var s, s', m, t := w.s, Apply(w, step).s, step.m, step.t;
      CallEffect(s, m, step.f, t);
      DeliverTouches(s, m, step.f, t);
      forall c | c in s.calls && c.success && c.messageId in s.rows && t.check < c.at + DELIVERY_CACHE_TTL
        ensures Protected(s', c)
      {
        var i :| 0 <= i < |s.calls| && s.calls[i] == c;
        assert Protected(s, s.calls[i]);
        ProtectedStays(s, m, step.f, t, c);
      }
      StillSeparated(w, step);
    }
  }

  /** A call made now is at a distance from every earlier success: inside the
      window the message is protected and would not have been sent. */
  lemma StillSeparated(w: World, step: Step)
    requires Inv(w) && Harmless(step.f) && Enabled(w, step)
    ensures Separated(Apply(w, step).s, DELIVERY_CACHE_TTL)
  {
    var s, s' := w.s, Apply(w, step).s;
    CallEffect(s, step.m, step.f, step.t);
    DeliverTouches(s, step.m, step.f, step.t);
    forall i, j | 0 <= i < j < |s'.calls| && s'.calls[i].success && s'.calls[i].messageId in s'.rows
                  && s'.calls[i].messageId == s'.calls[j].messageId
      ensures s'.calls[i].at + DELIVERY_CACHE_TTL <= s'.calls[j].at
    {
      assert s'.calls[i] == s.calls[i];
      if j < |s.calls| {
        assert s'.calls[j] == s.calls[j];
      } else {
        assert w.clock < s.calls[i].at + DELIVERY_CACHE_TTL ==> Protected(s, s.calls[i]);
      }
    }
  }

  /** Inside its window a delivered message keeps both its row and its cache entry. */
  lemma ProtectedStays(s: State, m: Message, f: Faults, t: Times, c: Call)
    requires t.Ordered() && Harmless(f) && Protected(s, c) && c.at <= t.check
    requires m.messageId in s.rows ==> s.rows[m.messageId].dedupKey == m.dedupKey
    requires t.check < c.at + DELIVERY_CACHE_TTL
    ensures Protected(Deliver(s, m, f, t).0, c)
  {
    CallEffect(s, m, f, t);
    DeliverTouches(s, m, f, t);
    if DeliveryKey(s.rows[c.messageId].dedupKey) == DeliveryKey(m.dedupKey) {
      DeliveryKeyInjective(s.rows[c.messageId].dedupKey, m.dedupKey);
    }
  }

  ghost predicate AllHarmless(steps: seq<Step>) {
    forall i :: 0 <= i < |steps| ==> Harmless(steps[i].f)
  }

  lemma {:induction false} InvAlways(w: World, steps: seq<Step>)
    requires w.s.calls == [] && AllHarmless(steps)
    ensures Inv(After(w, steps))
  {
    if steps == [] {
    } else {
      InvAlways(w, steps[..|steps| - 1]);
      StepKeeps(After(w, steps[..|steps| - 1]), steps[|steps| - 1]);
    }
  }

  // ---------------------------------------------------------------- main results

  /** Within 24 hours of a successful send of a message that has a row, over any
      run without harmful failures: no provider call is made for it, and its row
      stays delivered. */
  lemma AtMostOncePerWindow(w: World, steps: seq<Step>)
    requires w.s.calls == [] && AllHarmless(steps)
    ensures var w' := After(w, steps);
            && Separated(w'.s, 24 * 60 * 60 * 1000)
            && forall i :: 0 <= i < |w'.s.calls| && w'.s.calls[i].success && w'.s.calls[i].messageId in w'.s.rows
                           && w'.clock < w'.s.calls[i].at + DELIVERY_CACHE_TTL
                           ==> Delivered(w'.s.rows, w'.s.calls[i].messageId)
  {
    InvAlways(w, steps);
    var w' := After(w, steps);
    forall i | 0 <= i < |w'.s.calls| && w'.s.calls[i].success && w'.s.calls[i].messageId in w'.s.rows
               && w'.clock < w'.s.calls[i].at + DELIVERY_CACHE_TTL
      ensures Delivered(w'.s.rows, w'.s.calls[i].messageId)
    {
      assert Protected(w'.s, w'.s.calls[i]);
    }
  }

  // ------------------------------------------------- runs that send a second time

  function Fresh(rows: map<string, Row>): World {
    World(State(rows, [], [], map[], map[], [], [], []), 0)
  }

  function At(time: int): Times { Times(time, time, time, time) }

  /** A call in which just one effect fails. */
  function OneFault(e: Effect, o: Outcome): Faults {
    match e
    case Exists => OnlyProvider(Done).(exists_ := o)
    case GetStatus => OnlyProvider(Done).(getStatus := o)
    case MarkSent => OnlyProvider(Done).(markSent := o)
    case SaveSuccess => OnlyProvider(Done).(saveSuccess := o)
    case LogSent => OnlyProvider(Done).(logSent := o)
    case SetEx => OnlyProvider(Done).(setEx := o)
    case _ => OnlyProvider(Done)
  }

  /** Calls for one message, one of them with a failure, that send it twice at one
      time.  A failing dedup read hides the entry; a failing status read resets a
      delivered row; so does a failing write after the send.  And when refreshing the
      entry is lost, it is as old as the first attempt: here that attempt failed at
      time 0, and the retry comes just before the entry expires. */
  function ResendingRun(m: Message, e: Effect, o: Outcome): seq<Step> {
    var good := Step(m, OnlyProvider(Done), At(DELIVERY_CACHE_TTL));
    var bad := good.(f := OneFault(e, o));
    match e
    case Exists => [good, bad]
    case GetStatus => [good, bad, good]
    case SetEx => [Step(m, OnlyProvider(Lost), At(0)), LateRetry(m), good.(m := Next(m))]
    case _ => [bad, good]
  }

  /** The message as it comes back after a failed attempt: the number grew by two. */
  function Next(m: Message): Message { m.(attempt := m.attempt + 2) }

  function LateRetry(m: Message): Step {
    Step(Next(m), OneFault(SetEx, Lost), At(DELIVERY_CACHE_TTL).(check := DELIVERY_CACHE_TTL - 1))
  }

  lemma AfterTwo(w: World, a: Step, b: Step)
    ensures After(w, [a, b]) == Apply(Apply(w, a), b)
  {
    assert [a, b][..1] == [a] && [a][..0] == [];
    assert After(w, [a]) == Apply(w, a);
  }

  lemma AfterThree(w: World, a: Step, b: Step, c: Step)
    ensures After(w, [a, b, c]) == Apply(Apply(Apply(w, a), b), c)
  {
    AfterTwo(w, a, b);
    assert [a, b, c][..2] == [a, b];
  }

  /** The provider is called for a message that is not cached, or not delivered. */
  lemma SendsWhenUnprotected(s: State, m: Message, f: Faults, t: Times)
    requires f.send.Done?
    requires !Cached(s, m, t) || f.exists_.Throws() || (f.getStatus.Done? && !Delivered(s.rows, m.messageId))
    ensures Deliver(s, m, f, t).0.calls == s.calls + [Call(m.messageId, m.attempt + 1, t.send, true)]
  {
    ProviderCalledIff(s, m, f, t);
  }

  lemma KeepsDedupKey(s: State, m: Message, f: Faults, t: Times)
    requires m.messageId in s.rows && s.rows[m.messageId].dedupKey == m.dedupKey
    ensures var s' := Deliver(s, m, f, t).0; m.messageId in s'.rows && s'.rows[m.messageId].dedupKey == m.dedupKey
  {
    DeliverTouches(s, m, f, t);
  }

  /** The provider is called, since nothing shows the message as delivered. */
  predicate Unprotected(s: State, step: Step) {
    || !Cached(s, step.m, step.t) || step.f.exists_.Throws()
    || (step.f.getStatus.Done? && !Delivered(s.rows, step.m.messageId))
  }

  /** Two calls that find the message unprotected, the provider succeeding in both. */
  lemma SendsAgain(w: World, a: Step, b: Step)
    requires Enabled(w, a) && Enabled(Apply(w, a), b) && a.m == b.m
    requires a.f.send.Done? && b.f.send.Done? && a.t.send == b.t.send
    requires Unprotected(w.s, a) && Unprotected(Apply(w, a).s, b)
    ensures var c := Call(a.m.messageId, a.m.attempt + 1, a.t.send, true);
            Apply(Apply(w, a), b).s.calls == w.s.calls + [c] + [c]
  {
    SendsWhenUnprotected(w.s, a.m, a.f, a.t);
    SendsWhenUnprotected(Apply(w, a).s, b.m, b.f, b.t);
  }

  /** A row with this message's dedup key. */
  predicate HasRow(s: State, m: Message) {
    m.messageId in s.rows && s.rows[m.messageId].dedupKey == m.dedupKey
  }

  /** A message of a first run: its row is there, and this is its first attempt. */
  predicate First(w: World, m: Message) {
    w == Fresh(w.s.rows) && m.attempt == 0 && HasRow(w.s, m)
  }

  /** The run ends with two successful calls for the message at one time. */
  ghost predicate SentTwice(w: World, m: Message, run: seq<Step>) {
    exists calls, c :: EndsTwice(After(w, run).s.calls, calls, c) && c.messageId == m.messageId && c.success
  }

  predicate EndsTwice(calls: seq<Call>, before: seq<Call>, c: Call) {
    calls == before + [c] + [c]
  }

  /** The catch block puts the row back when its own effects return. */
  lemma CaughtUnmarks(s: State, m: Message, f: Faults, t: Times)
    requires m.messageId in s.rows && m.attempt == 0 && f.saveFailure.Done? && f.markPending.Done?
    ensures !Delivered(Caught(s, m, f, t).0.rows, m.messageId)
  {
  }

  lemma UnmarkedBySuccess(s: State, m: Message, e: Effect, o: Outcome, t: Times)
    requires e in {MarkSent, SaveSuccess, LogSent} && o.Throws() && m.messageId in s.rows && m.attempt == 0
    ensures !Delivered(Succeeded(s, m, OneFault(e, o), t).0.rows, m.messageId)
  {
    var f := OneFault(e, o);
    var s1 := Mark(s, m, SENT, true, f.markSent);
    var s2 := SaveAttempt(s1, m, true, f.saveSuccess);
    CaughtUnmarks(s1, m, f, t);
    CaughtUnmarks(s2, m, f, t);
    CaughtUnmarks(Warm(s2, m, f.setEx, t.warm), m, f, t);
  }

  /** A world after the first call, which sent the message but left it unprotected. */
  predicate SentUnmarked(w: World, m: Message) {
    && w.clock == DELIVERY_CACHE_TTL && HasRow(w.s, m) && m.attempt == 0 && !Delivered(w.s.rows, m.messageId)
    && w.s.calls == [Call(m.messageId, 1, DELIVERY_CACHE_TTL, true)]
  }

  /** A write after the send fails: the row is put back. */
  lemma UnmarkedByCall(w: World, m: Message, e: Effect, o: Outcome)
    requires e in {MarkSent, SaveSuccess, LogSent} && o.Throws() && First(w, m)
    ensures SentUnmarked(Apply(w, Step(m, OneFault(e, o), At(DELIVERY_CACHE_TTL))), m)
  {
    var f, t := OneFault(e, o), At(DELIVERY_CACHE_TTL);
    assert f.exists_.Done? && f.send.Done?;
    SendsWhenUnprotected(w.s, m, f, t);
    KeepsDedupKey(w.s, m, f, t);
    UnmarkedBySuccess(Called(AfterDedup(w.s, m, f, t.check), m, f, t), m, e, o, t);
  }

  lemma UnmarkedIsSent(w: World, m: Message, good: Step)
    requires SentUnmarked(w, m) && good == Step(m, OnlyProvider(Done), At(DELIVERY_CACHE_TTL))
    ensures EndsTwice(Apply(w, good).s.calls, [], Call(m.messageId, 1, DELIVERY_CACHE_TTL, true))
  {
    SendsWhenUnprotected(w.s, m, good.f, good.t);
  }

  lemma TwoStepsResend(w: World, m: Message, a: Step, b: Step, before: seq<Call>, c: Call)
    requires EndsTwice(Apply(Apply(w, a), b).s.calls, before, c) && c.messageId == m.messageId && c.success
    ensures SentTwice(w, m, [a, b])
  {
    AfterTwo(w, a, b);
  }

  lemma ThreeStepsResend(w: World, m: Message, x: Step, a: Step, b: Step, before: seq<Call>, c: Call)
    requires EndsTwice(Apply(Apply(Apply(w, x), a), b).s.calls, before, c) && c.messageId == m.messageId && c.success
    ensures SentTwice(w, m, [x, a, b])
  {
    AfterThree(w, x, a, b);
  }

  lemma UnmarkedResends(w: World, m: Message, e: Effect, o: Outcome)
    requires e in {MarkSent, SaveSuccess, LogSent} && o.Throws() && First(w, m)
    ensures SentTwice(w, m, ResendingRun(m, e, o))
  {
    var good := Step(m, OnlyProvider(Done), At(DELIVERY_CACHE_TTL));
    var bad := good.(f := OneFault(e, o));
    UnmarkedByCall(w, m, e, o);
    UnmarkedIsSent(Apply(w, bad), m, good);
    TwoStepsResend(w, m, bad, good, [], Call(m.messageId, 1, DELIVERY_CACHE_TTL, true));
  }

  /** The dedup read fails, and counts as "new". */
  lemma UnseenResends(w: World, m: Message, o: Outcome)
    requires o.Throws() && First(w, m)
    ensures SentTwice(w, m, ResendingRun(m, Exists, o))
  {
    var good := Step(m, OnlyProvider(Done), At(DELIVERY_CACHE_TTL));
    var bad := good.(f := OneFault(Exists, o));
    KeepsDedupKey(w.s, m, good.f, good.t);
    SendsAgain(w, good, bad);
    TwoStepsResend(w, m, good, bad, [], Call(m.messageId, 1, DELIVERY_CACHE_TTL, true));
  }

  /** A failed first attempt leaves the entry of its dedup check, and an undelivered row. */
  lemma FailedAttempt(s: State, m: Message)
    requires HasRow(s, m) && m.attempt == 0 && s.cache == map[]
    ensures var s' := Deliver(s, m, OnlyProvider(Lost), At(0)).0;
            && HasRow(s', m) && !Delivered(s'.rows, m.messageId)
            && s'.cache == map[DeliveryKey(m.dedupKey) := DELIVERY_CACHE_TTL]
  {
    var f, t := OnlyProvider(Lost), At(0);
    var s1 := AfterDedup(s, m, f, 0);
    KeepsDedupKey(s, m, f, t);
    CaughtUnmarks(Called(s1, m, f, t), m, f, t);
    SentEffect(s1, m, f, t);
  }

  /** A retry whose refresh is lost leaves the entry as it is. */
  lemma LateRetryLeaves(s: State, m: Message)
    requires HasRow(s, m) && !Delivered(s.rows, m.messageId)
    requires s.cache == map[DeliveryKey(m.dedupKey) := DELIVERY_CACHE_TTL]
    ensures var s' := Deliver(s, Next(m), LateRetry(m).f, LateRetry(m).t).0; HasRow(s', m) && s'.cache == s.cache
  {
    KeepsDedupKey(s, Next(m), LateRetry(m).f, LateRetry(m).t);
    SentEffect(AfterDedup(s, Next(m), LateRetry(m).f, LateRetry(m).t.check), Next(m), LateRetry(m).f, LateRetry(m).t);
  }

  /** The entry's refresh is lost: it expires 24 hours after the first attempt. */
  lemma UnrefreshedResends(w: World, m: Message)
    requires First(w, m)
    ensures SentTwice(w, m, ResendingRun(m, SetEx, Lost))
  {
    var fail, late := Step(m, OnlyProvider(Lost), At(0)), LateRetry(m);
    var last := Step(Next(m), OnlyProvider(Done), At(DELIVERY_CACHE_TTL));
    FailedAttempt(w.s, m);
    var w1 := Apply(w, fail);
    LateRetryLeaves(w1.s, m);
    SendsAgain(w1, late, last);
    ThreeStepsResend(w, m, fail, late, last, w1.s.calls, Call(m.messageId, 3, DELIVERY_CACHE_TTL, true));
  }

  /** A world after a first call without failures. */
  predicate SentAndCached(w: World, m: Message) {
    && w.clock == DELIVERY_CACHE_TTL && HasRow(w.s, m) && m.attempt == 0 && Cached(w.s, m, At(DELIVERY_CACHE_TTL))
    && w.s.calls == [Call(m.messageId, 1, DELIVERY_CACHE_TTL, true)]
  }

  lemma FirstCall(w: World, m: Message)
    requires First(w, m)
    ensures SentAndCached(Apply(w, Step(m, OnlyProvider(Done), At(DELIVERY_CACHE_TTL))), m)
  {
    var f, t := OnlyProvider(Done), At(DELIVERY_CACHE_TTL);
    SendsWhenUnprotected(w.s, m, f, t);
    KeepsDedupKey(w.s, m, f, t);
    CallEffect(w.s, m, f, t);
  }

  /** The status read fails, and the catch block resets the delivered row. */
  lemma UnreadUnmarks(w: World, m: Message, o: Outcome)
    requires o.Throws() && SentAndCached(w, m)
    ensures SentUnmarked(Apply(w, Step(m, OneFault(GetStatus, o), At(DELIVERY_CACHE_TTL))), m)
  {
    var f, t := OneFault(GetStatus, o), At(DELIVERY_CACHE_TTL);
    CaughtUnmarks(w.s, m, f, t);
    CaughtCalls(w.s, m, f, t);
    KeepsDedupKey(w.s, m, f, t);
  }

  lemma UnreadResends(w: World, m: Message, o: Outcome)
    requires o.Throws() && First(w, m)
    ensures SentTwice(w, m, ResendingRun(m, GetStatus, o))
  {
    var good := Step(m, OnlyProvider(Done), At(DELIVERY_CACHE_TTL));
    var bad := good.(f := OneFault(GetStatus, o));
    FirstCall(w, m);
    UnreadUnmarks(Apply(w, good), m, o);
    UnmarkedIsSent(Apply(Apply(w, good), bad), m, good);
    ThreeStepsResend(w, m, good, bad, good, [], Call(m.messageId, 1, DELIVERY_CACHE_TTL, true));
  }

  lemma ResendingRunResends(rows: map<string, Row>, id: string, e: Effect, o: Outcome)
    requires id in rows && Harmful(e, o)
    ensures SentTwice(Fresh(rows), MessageOf(id, rows[id], 0), ResendingRun(MessageOf(id, rows[id], 0), e, o))
  {
    var w, m := Fresh(rows), MessageOf(id, rows[id], 0);
    match e {
      case Exists => UnseenResends(w, m, o);
      case GetStatus => UnreadResends(w, m, o);
      case SetEx => UnrefreshedResends(w, m);
      case _ => UnmarkedResends(w, m, e, o);
    }
  }

  lemma {:induction false} RowsStay(w: World, steps: seq<Step>)
    ensures After(w, steps).s.rows.Keys == w.s.rows.Keys
  {
    if steps == [] {
    } else {
      var before, step := After(w, steps[..|steps| - 1]), steps[|steps| - 1];
      RowsStay(w, steps[..|steps| - 1]);
      DeliverTouches(before.s, step.m, step.f, step.t);
    }
  }

  /** Two successful sends 24 hours apart, with no failure at all. */
  function ExpiringRun(m: Message): seq<Step> {
    [Step(m, OnlyProvider(Done), At(0)), Step(m, OnlyProvider(Done), At(DELIVERY_CACHE_TTL))]
  }

  lemma ExpiringRunResends(rows: map<string, Row>, id: string)
    requires id in rows
    ensures After(Fresh(rows), ExpiringRun(MessageOf(id, rows[id], 0))).s.calls ==
            [Call(id, 1, 0, true), Call(id, 1, DELIVERY_CACHE_TTL, true)]
  {
    var w, m := Fresh(rows), MessageOf(id, rows[id], 0);
    var run := ExpiringRun(m);
    AfterTwo(w, run[0], run[1]);
    KeepsDedupKey(w.s, m, run[0].f, run[0].t);
    SendsWhenUnprotected(w.s, m, run[0].f, run[0].t);
    assert !Cached(Apply(w, run[0]).s, m, run[1].t);
    SendsWhenUnprotected(Apply(w, run[0]).s, m, run[1].f, run[1].t);
  }

  ghost predicate AllWithin(steps: seq<Step>, may: set<(Effect, Outcome)>) {
    forall i :: 0 <= i < |steps| ==> Within(steps[i].f, may)
  }

  ghost predicate NeverResends(rows: map<string, Row>, may: set<(Effect, Outcome)>, window: int) {
    forall steps :: AllWithin(steps, may) ==> Separated(After(Fresh(rows), steps).s, window)
  }

  lemma WithinHarmless(steps: seq<Step>, may: set<(Effect, Outcome)>)
    requires Tolerable(may) && AllWithin(steps, may)
    ensures AllHarmless(steps)
  {
  }

  lemma ResendingRunWithin(m: Message, e: Effect, o: Outcome, may: set<(Effect, Outcome)>)
    requires Harmful(e, o) && (e, o) in may
    ensures AllWithin(ResendingRun(m, e, o), may)
  {
  }

  lemma TwiceIsTooOften(rows: map<string, Row>, may: set<(Effect, Outcome)>, window: int, steps: seq<Step>,
                        before: seq<Call>, c: Call, d: Call)
    requires AllWithin(steps, may) && After(Fresh(rows), steps).s.calls == before + [c] + [d]
    requires c.success && c.messageId in rows && c.messageId == d.messageId && d.at < c.at + window
    ensures !NeverResends(rows, may, window)
  {
    RowsStay(Fresh(rows), steps);
    var s, n := After(Fresh(rows), steps).s, |before|;
    assert s.calls[n] == c && s.calls[n + 1] == d;
    assert !Separated(s, window);
  }

  /** "Never call provider twice", exactly.  The provider may fail in any call, and each
      other effect in the ways `may` lists.  No message with a row is sent again within
      `window` after a successful send, over all runs, if and only if the window is at
      most 24 hours and none of the listed failures is harmful. */
  lemma NeverTwiceIff(rows: map<string, Row>, may: set<(Effect, Outcome)>, window: int)
    requires rows != map[] && window > 0
    ensures NeverResends(rows, may, window) <==> window <= 24 * 60 * 60 * 1000 && Tolerable(may)
  {
    if window <= DELIVERY_CACHE_TTL && Tolerable(may) {
      forall steps | AllWithin(steps, may) ensures Separated(After(Fresh(rows), steps).s, window) {
        WithinHarmless(steps, may);
        InvAlways(Fresh(rows), steps);
      }
    } else {
      var id :| id in rows;
      var m := MessageOf(id, rows[id], 0);
      if Tolerable(may) {
        ExpiringRunResends(rows, id);
        TwiceIsTooOften(rows, may, window, ExpiringRun(m), [],
                        Call(id, 1, 0, true), Call(id, 1, DELIVERY_CACHE_TTL, true));
      } else {
        var e, o :| (e, o) in may && Harmful(e, o);
        ResendingRunResends(rows, id, e, o);
        ResendingRunWithin(m, e, o, may);
        var run := ResendingRun(m, e, o);
        var calls, c :| EndsTwice(After(Fresh(rows), run).s.calls, calls, c) && c.messageId == id && c.success;
        TwiceIsTooOften(rows, may, window, run, calls, c, c);
      }
    }
  }
}
