/** RetrySchedulerService: retries wait in a sorted set scored by due time.  A
    poll is two commands, a range read and then a range delete, so schedulers
    and other polls may come in between. */
module RetryQueue {
  import opened Wrappers
  import opened Text
  import opened Store
  import opened Backoff

  class RetryScheduler {
    const db: Backend

    constructor (db: Backend)
      ensures this.db == db
    {
      this.db := db;
    }

    /** The attempt number written is one more than the one given. */
    method ScheduleRetry(messageId: string, channel: Channel, currentAttempt: nat, delayMs: int,
                         now: int, o: Outcome)
      returns (threw: bool)
      modifies db
      ensures threw == o.Throws()
      ensures db.Snapshot() ==
              if o.Lands()
              then old(db.Snapshot()).(retries := old(db.retries)[
                      Payload(messageId, ChannelName(channel), currentAttempt + 1) := now + delayMs])
              else old(db.Snapshot())
    {
      var nextRetryAt := now + delayMs;
      var nextAttempt := currentAttempt + 1;
      var payload := Payload(messageId, ChannelName(channel), nextAttempt);
      threw := db.ZAdd(payload, nextRetryAt, o);
    }

    /** One undisturbed poll.  `items` is what the range read returned.  The last
        clause: a retry can vanish only when the delete took effect and threw. */
    method GetPendingRetries(now: int, range: Outcome, remove: Outcome)
      returns (result: seq<Retry>, ghost items: seq<string>)
      modifies db
      ensures Enumerates(items, Due(old(db.retries), now)) && ByScore(items, old(db.retries))
      ensures result == if range.Throws() || (items != [] && remove.Throws()) then [] else DecodeAll(items)
      ensures db.Snapshot() ==
              if range.Throws() || items == [] || remove.Lost? then old(db.Snapshot())
              else old(db.Snapshot()).(retries := old(db.retries) - Due(old(db.retries), now))
      ensures (forall p :: p in old(db.retries) ==> p in db.retries || Decode(p) in result)
         <==> !(items != [] && range.Done? && remove.Applied?)
    {
      var read := db.ZRangeByScore(now);
      items := read;
      if range.Throws() {
        return [], items;
      }
      result := DecodeAll(read);
      if |read| > 0 {
        var threw := db.ZRemRangeByScore(now, remove);
        if threw {
          assert read[0] in Due(old(db.retries), now);
          return [], items;
        }
      }
    }
  }

  // ------------------------------------------------- interleaved schedulers and polls

  /** What may go wrong.  A poll's reading of Date.now() is at most `ahead` beyond
      the time of its range read; a scheduler's is at most `behind` before its ZADD
      lands; `unseenDeletes` says whether a range delete may take effect without its
      poll returning, because the acknowledgement or the process is lost; and `overlap`
      says whether a poll may start before another has ended, as the timer lets it. */
  datatype Skew = Skew(ahead: nat, behind: nat, unseenDeletes: bool, overlap: bool)

  /** A ZADD that landed, after the failed attempt `attempt` of a message. */
  datatype Landing = Landing(messageId: string, channel: Channel, attempt: nat, reading: int) {
    function Payload(): string { Text.Payload(messageId, ChannelName(channel), attempt + 1) }
    function Score(): int { reading + Delay(attempt) }
  }

  /** A poll past its range read; `upTo` counts the landings before that read. */
  datatype Poll = Poll(now: int, upTo: nat, items: set<string>)

  datatype Queue = Queue(time: int, retries: map<string, int>, landed: seq<Landing>,
                         open: map<nat, Poll>, returned: seq<Poll>)

  datatype Step =
    | Tick(to: int)
    | Land(landing: Landing)     // ZADD of a retry
    | Read(poll: nat, now: int)  // ZRANGEBYSCORE of a poll
    | Delete(poll: nat)          // ZREMRANGEBYSCORE, and the poll returns
    | DeleteUnseen(poll: nat)    // the delete takes effect and throws; the poll returns []
    | Abort(poll: nat)           // the delete throws without effect; the poll returns []

  function Start(): Queue {
    Queue(0, map[], [], map[], [])
  }

  predicate Enabled(skew: Skew, q: Queue, step: Step) {
    match step
    case Tick(to) => q.time <= to
    case Land(l) => q.time - skew.behind <= l.reading
    case Read(p, now) => p !in q.open && now <= q.time + skew.ahead && (skew.overlap || q.open == map[])
    case Delete(p) => p in q.open
    case DeleteUnseen(p) => skew.unseenDeletes && p in q.open
    case Abort(p) => p in q.open
  }

  /** A poll that read nothing sends no delete. */
  function Deleted(q: Queue, p: nat): Queue
    requires p in q.open
  {
    q.(retries := if q.open[p].items == {} then q.retries else q.retries - Due(q.retries, q.open[p].now),
    open := q.open - {p})
  }

  function Apply(skew: Skew, q: Queue, step: Step): Queue {
    if !Enabled(skew, q, step) then q else
    match step
    case Tick(to) => q.(time := to)
    case Land(l) => q.(retries := q.retries[l.Payload() := l.Score()], landed := q.landed + [l])
    case Read(p, now) =>
      q.(open := q.open[p := Poll(now, |q.landed|, Due(q.retries, now))])
    case Delete(p) => Deleted(q, p).(returned := q.returned + [q.open[p]])
    case DeleteUnseen(p) => Deleted(q, p)
    case Abort(p) => q.(open := q.open - {p})
  }

  /** Any finite run: a step that is not enabled does nothing. */
  function After(skew: Skew, steps: seq<Step>): Queue {
    if steps == [] then Start()
    else Apply(skew, After(skew, steps[..|steps| - 1]), steps[|steps| - 1])
  }

  /** How each command changes the queue: a poll is over once its delete was sent,
      whatever became of that, and only a poll that returned counts as one. */
  lemma PollEnds(skew: Skew, q: Queue, p: nat)
    requires p in q.open
    ensures var q' := Apply(skew, q, Delete(p));
            && q'.open == q.open - {p} && q'.returned == q.returned + [q.open[p]]
            && (q.open[p].items == {} ==> q'.retries == q.retries)
            && (q.open[p].items != {} ==> q'.retries == map x | x in q.retries && !(0 <= q.retries[x] <= q.open[p].now)
                                                          :: q.retries[x])
    ensures var q' := Apply(skew, q, Abort(p));
            q'.open == q.open - {p} && q'.returned == q.returned && q'.retries == q.retries
    ensures skew.unseenDeletes ==>
              var q' := Apply(skew, q, DeleteUnseen(p));
              && q'.open == q.open - {p} && q'.returned == q.returned
              && q'.retries == Apply(skew, q, Delete(p)).retries
  {
  }

  /** The k-th landing is still queued, or was returned by a poll that read after it. */
  ghost predicate Kept(q: Queue, k: nat)
    requires k < |q.landed|
  {
    || q.landed[k].Payload() in q.retries
    || exists r :: r in q.returned && ReturnedBy(q, k, r)
  }

  predicate ReturnedBy(q: Queue, k: nat, r: Poll)
    requires k < |q.landed|
  {
    k < r.upTo && q.landed[k].Payload() in r.items
  }

  ghost predicate NothingLost(q: Queue) {
    forall k :: 0 <= k < |q.landed| ==> Kept(q, k)
  }

  /** `k` is the last of the first `n` landings of `payload`, the one that set its score. */
  predicate LastLanding(q: Queue, payload: string, k: int, n: nat)
    requires n <= |q.landed|
  {
    && 0 <= k < n && q.landed[k].Payload() == payload
    && forall j :: k < j < n ==> q.landed[j].Payload() != payload
  }

  /** Every member of a poll was due by the poll's clock: the landing that last
      scored it before the read was at or before that clock. */
  ghost predicate OnTime(q: Queue, r: Poll) {
    && r.upTo <= |q.landed|
    && forall p :: p in r.items ==> exists k :: DueBy(q, p, k, r)
  }

  predicate DueBy(q: Queue, p: string, k: int, r: Poll)
    requires r.upTo <= |q.landed|
  {
    LastLanding(q, p, k, r.upTo) && 0 <= q.landed[k].reading + Delay(q.landed[k].attempt) <= r.now
  }

  // ------------------------------------------------------------------ invariants

  predicate ScoredBy(q: Queue, p: string, k: int)
    requires p in q.retries
  {
    LastLanding(q, p, k, |q.landed|) && q.retries[p] == q.landed[k].Score()
  }

  /** Scores come from the last landing, and polls are on time; true of any clocks. */
  ghost predicate Timely(q: Queue) {
    && (forall p :: p in q.retries ==> exists k :: ScoredBy(q, p, k))
    && (forall p :: p in q.open ==> OnTime(q, q.open[p]))
    && (forall i :: 0 <= i < |q.returned| ==> OnTime(q, q.returned[i]))
  }

  /** Nothing an open poll will delete escaped its read. */
  ghost predicate Guarded(skew: Skew, q: Queue, r: Poll) {
    && r.now <= q.time + skew.ahead
    && r.upTo <= |q.landed|
    && (forall p :: p in Due(q.retries, r.now) ==> p in r.items)
    && (forall j :: r.upTo <= j < |q.landed| ==> r.now < q.landed[j].Score())
  }

  ghost predicate Safe(skew: Skew, q: Queue) {
    && NothingLost(q)
    && (forall p :: p in q.open ==> Guarded(skew, q, q.open[p]))
  }

  // ---------------------------------------------------------- scores and due times

  lemma OnTimeStable(q: Queue, q': Queue, r: Poll)
    requires OnTime(q, r) && q.landed <= q'.landed
    ensures OnTime(q', r)
  {
    forall p | p in r.items ensures exists k :: DueBy(q', p, k, r) {
      var k :| DueBy(q, p, k, r);
      assert DueBy(q', p, k, r);
    }
  }

  lemma ReadOnTime(q: Queue, now: int)
    requires Timely(q)
    ensures OnTime(q, Poll(now, |q.landed|, Due(q.retries, now)))
  {
    var r := Poll(now, |q.landed|, Due(q.retries, now));
    forall p | p in r.items ensures exists k :: DueBy(q, p, k, r) {
      var k :| ScoredBy(q, p, k);
      assert DueBy(q, p, k, r);
    }
  }

  lemma ScoredStep(skew: Skew, q: Queue, step: Step, p: string)
    requires Timely(q) && p in Apply(skew, q, step).retries
    ensures exists k :: ScoredBy(Apply(skew, q, step), p, k)
  {
    var q' := Apply(skew, q, step);
    if step.Land? && Enabled(skew, q, step) && p == step.landing.Payload() {
      assert ScoredBy(q', p, |q.landed|);
    } else {
      var k :| ScoredBy(q, p, k);
      assert ScoredBy(q', p, k);
    }
  }

  lemma TimelyStep(skew: Skew, q: Queue, step: Step)
    requires Timely(q)
    ensures Timely(Apply(skew, q, step))
  {
    var q' := Apply(skew, q, step);
    forall p | p in q'.retries ensures exists k :: ScoredBy(q', p, k) {
      ScoredStep(skew, q, step, p);
    }
    if step.Read? {
      ReadOnTime(q, step.now);
    }
    forall p | p in q'.open ensures OnTime(q', q'.open[p]) {
      OnTimeStable(q, q', q'.open[p]);
    }
    forall i | 0 <= i < |q'.returned| ensures OnTime(q', q'.returned[i]) {
      OnTimeStable(q, q', q'.returned[i]);
    }
  }

  lemma {:induction false} TimelyAlways(skew: Skew, steps: seq<Step>)
    ensures Timely(After(skew, steps))
  {
    if steps == [] {
    } else {
      TimelyAlways(skew, steps[..|steps| - 1]);
      TimelyStep(skew, After(skew, steps[..|steps| - 1]), steps[|steps| - 1]);
    }
  }

  // -------------------------------------------------------------- nothing is lost

  lemma GuardedStep(skew: Skew, q: Queue, step: Step, p: nat)
    requires Safe(skew, q) && p in Apply(skew, q, step).open
    requires skew.ahead + skew.behind < MIN_DELAY && !skew.unseenDeletes
    ensures Guarded(skew, Apply(skew, q, step), Apply(skew, q, step).open[p])
  {
  }

  /** A delete takes only what its own poll read: the landing that set the
      deleted score came before the read. */
  lemma DeleteReturns(skew: Skew, q: Queue, step: Step, k: nat)
    requires Timely(q) && Safe(skew, q) && step.Delete? && Enabled(skew, q, step)
    requires k < |q.landed| && q.landed[k].Payload() in q.retries
    requires q.landed[k].Payload() !in Apply(skew, q, step).retries
    ensures ReturnedBy(Apply(skew, q, step), k, q.open[step.poll])
  {
  }

  lemma KeptStep(skew: Skew, q: Queue, step: Step, k: nat)
    requires Timely(q) && Safe(skew, q) && k < |Apply(skew, q, step).landed| && !skew.unseenDeletes
    ensures Kept(Apply(skew, q, step), k)
  {
    var q' := Apply(skew, q, step);
    if q'.landed[k].Payload() !in q'.retries {
      if q.landed[k].Payload() in q.retries {
        DeleteReturns(skew, q, step, k);
        assert q.open[step.poll] in q'.returned;
      } else {
        assert Kept(q, k);
        var r :| r in q.returned && ReturnedBy(q, k, r);
        assert r in q'.returned && ReturnedBy(q', k, r);
      }
    }
  }

  lemma {:induction false} SafeAlways(skew: Skew, steps: seq<Step>)
    requires skew.ahead + skew.behind < MIN_DELAY && !skew.unseenDeletes
    ensures Safe(skew, After(skew, steps))
  {
    if steps == [] {
    } else {
      var before, step := steps[..|steps| - 1], steps[|steps| - 1];
      SafeAlways(skew, before);
      TimelyAlways(skew, before);
      var q, q' := After(skew, before), After(skew, steps);
      forall k | 0 <= k < |q'.landed| ensures Kept(q', k) {
        KeptStep(skew, q, step, k);
      }
      forall p | p in q'.open ensures Guarded(skew, q', q'.open[p]) {
        GuardedStep(skew, q, step, p);
      }
    }
  }

  // ----------------------------------------------------------------- main results

  lemma AfterSnoc(skew: Skew, steps: seq<Step>, step: Step)
    ensures After(skew, steps + [step]) == Apply(skew, After(skew, steps), step)
  {
    assert (steps + [step])[..|steps|] == steps;
  }

  /** Retries of two messages after their first attempts. */
  const ONE := Landing("a", Email, 1, 0)
  const OTHER := Landing("b", Email, 1, 0)

  lemma Apart()
    ensures ONE.Payload() != OTHER.Payload() && ONE.Score() == OTHER.Score() == MIN_DELAY
  {
    MinimumDelay(1);
    if ONE.Payload() == OTHER.Payload() {
      PayloadInjective("a", ChannelName(Email), 2, "b", ChannelName(Email), 2);
    }
  }

  /** A run that loses a retry when the clocks may stray by the smallest delay: the
      other retry lands, already due, between a poll's read and its delete. */
  function LosingRun(skew: Skew): seq<Step> {
    [Tick(skew.behind)] + [Land(ONE)] + [Read(0, skew.behind + skew.ahead)] + [Land(OTHER)] + [Delete(0)]
  }

  /** One retry is read, then the other lands due, then the delete takes both. */
  lemma LostBetween(skew: Skew, q: Queue, now: int)
    requires q == Queue(skew.behind, map[ONE.Payload() := MIN_DELAY], [ONE], map[], [])
    requires now == skew.behind + skew.ahead && MIN_DELAY <= now
    ensures !NothingLost(Apply(skew, Apply(skew, Apply(skew, q, Read(0, now)), Land(OTHER)), Delete(0)))
  {
    Apart();
    var one, other := ONE.Payload(), OTHER.Payload();
    var q3 := Apply(skew, q, Read(0, now));
    var poll := q3.open[0];
    assert one in poll.items && poll.upTo == 1;
    var q4 := Apply(skew, q3, Land(OTHER));
    assert q4.open == q3.open && q4.landed[1] == OTHER && q4.retries[other] == MIN_DELAY;
    var q5 := Apply(skew, q4, Delete(0));
    assert other in Due(q4.retries, poll.now);
    assert q5.landed[1].Payload() == other && other !in q5.retries && q5.returned == [poll];
    assert !Kept(q5, 1);
  }

  lemma AfterFive(skew: Skew, a: Step, b: Step, c: Step, d: Step, e: Step)
    ensures After(skew, [a] + [b] + [c] + [d] + [e]) ==
            Apply(skew, Apply(skew, Apply(skew, Apply(skew, Apply(skew, Start(), a), b), c), d), e)
  {
    AfterSnoc(skew, [], a);
    assert [] + [a] == [a];
    AfterSnoc(skew, [a], b);
    AfterSnoc(skew, [a] + [b], c);
    AfterSnoc(skew, [a] + [b] + [c], d);
    AfterSnoc(skew, [a] + [b] + [c] + [d], e);
  }

  lemma LosingRunLoses(skew: Skew)
    requires skew.ahead + skew.behind >= MIN_DELAY
    ensures !NothingLost(After(skew, LosingRun(skew)))
  {
    var now := skew.behind + skew.ahead;
    Apart();
    var q1 := Apply(skew, Start(), Tick(skew.behind));
    var q2 := Apply(skew, q1, Land(ONE));
    assert q2.retries == map[ONE.Payload() := MIN_DELAY] && q2.landed == [ONE];
    LostBetween(skew, q2, now);
    AfterFive(skew, Tick(skew.behind), Land(ONE), Read(0, now), Land(OTHER), Delete(0));
  }

  /** A due retry is read and deleted, but its poll does not return it. */
  function UnseenRun(skew: Skew): seq<Step> {
    [Land(ONE)] + [Tick(MIN_DELAY)] + [Read(0, MIN_DELAY)] + [DeleteUnseen(0)]
  }

  lemma UnseenRunLoses(skew: Skew)
    requires skew.unseenDeletes
    ensures !NothingLost(After(skew, UnseenRun(skew)))
  {
    Apart();
    var one := ONE.Payload();
    var q1 := Apply(skew, Start(), Land(ONE));
    var q2 := Apply(skew, q1, Tick(MIN_DELAY));
    var q3 := Apply(skew, q2, Read(0, MIN_DELAY));
    assert q3.retries == map[one := MIN_DELAY] && one in Due(q3.retries, MIN_DELAY) && one in q3.open[0].items;
    var q4 := Apply(skew, q3, DeleteUnseen(0));
    assert q4.landed == [ONE] && one !in q4.retries && q4.returned == [];
    assert !Kept(q4, 0);
    AfterSnoc(skew, [], Land(ONE));
    assert [] + [Land(ONE)] == [Land(ONE)];
    AfterSnoc(skew, [Land(ONE)], Tick(MIN_DELAY));
    AfterSnoc(skew, [Land(ONE)] + [Tick(MIN_DELAY)], Read(0, MIN_DELAY));
    AfterSnoc(skew, [Land(ONE)] + [Tick(MIN_DELAY)] + [Read(0, MIN_DELAY)], DeleteUnseen(0));
  }

  /** No interleaving of schedulers and polls loses a retry, exactly when clock skew
      plus landing lag stay under the smallest back-off, 1000 ms, and no delete takes
      effect unseen. */
  lemma NoRetryLostIff(skew: Skew)
    ensures (forall steps :: NothingLost(After(skew, steps))) <==>
            skew.ahead + skew.behind < 1000 && !skew.unseenDeletes
  {
    if skew.unseenDeletes {
      UnseenRunLoses(skew);
    } else if skew.ahead + skew.behind < MIN_DELAY {
      forall steps ensures NothingLost(After(skew, steps)) {
        SafeAlways(skew, steps);
      }
    } else {
      LosingRunLoses(skew);
    }
  }

  /** What a poll returned was due: the clock reading that last scheduled it
      before the read, plus its back-off, is at most the poll's own clock.
      This needs nothing of the clocks. */
  lemma NoRetryEarly(skew: Skew, steps: seq<Step>, i: nat)
    requires i < |After(skew, steps).returned|
    ensures OnTime(After(skew, steps), After(skew, steps).returned[i])
  {
    TimelyAlways(skew, steps);
  }

  /** So a retry numbered n of a message comes no earlier than the back-off of its
      attempt n - 1 after that attempt's scheduling, given ids without colons. */
  lemma RetryWaitsItsDelay(skew: Skew, steps: seq<Step>, i: nat, id: string, channel: Channel, n: nat)
    requires i < |After(skew, steps).returned|
    requires Payload(id, ChannelName(channel), n) in After(skew, steps).returned[i].items
    requires ColonFree(id)
    requires forall k :: 0 <= k < |After(skew, steps).landed| ==> ColonFree(After(skew, steps).landed[k].messageId)
    ensures var q := After(skew, steps);
            n > 0 && exists k :: 0 <= k < |q.landed| && q.landed[k] == Landing(id, channel, n - 1, q.landed[k].reading)
                                 && q.landed[k].reading + Delay(n - 1) <= q.returned[i].now
  {
    NoRetryEarly(skew, steps, i);
    var q := After(skew, steps);
    var k :| DueBy(q, Payload(id, ChannelName(channel), n), k, q.returned[i]);
    var l := q.landed[k];
    PayloadInjective(l.messageId, ChannelName(l.channel), l.attempt + 1, id, ChannelName(channel), n);
    ChannelNameInjective(l.channel, channel);
    assert q.landed[k] == Landing(id, channel, n - 1, q.landed[k].reading);
  }

  // ------------------------------------------------------- how often a retry returns

  /** The poll holds the k-th landing: its payload, as that landing scored it. */
  predicate Holds(q: Queue, r: Poll, k: int) {
    r.upTo <= |q.landed| && 0 <= k < r.upTo && q.landed[k].Payload() in r.items
    && LastLanding(q, q.landed[k].Payload(), k, r.upTo)
  }

  /** The k-th landing is in the retry set, as it scored its payload. */
  predicate Queued(q: Queue, k: int) {
    0 <= k < |q.landed| && q.landed[k].Payload() in q.retries && LastLanding(q, q.landed[k].Payload(), k, |q.landed|)
  }

  /** No landing is returned by two polls. */
  ghost predicate ReturnedOnce(q: Queue) {
    forall i, j, k :: 0 <= i < j < |q.returned| && Holds(q, q.returned[i], k) ==> !Holds(q, q.returned[j], k)
  }

  /** What was returned is neither queued nor in the hands of an open poll, and
      there is one open poll at most. */
  ghost predicate Gone(q: Queue) {
    && ReturnedOnce(q)
    && (forall i, k :: 0 <= i < |q.returned| && Holds(q, q.returned[i], k) ==> !Queued(q, k))
    && (forall i, k, p ::
          0 <= i < |q.returned| && Holds(q, q.returned[i], k) && p in q.open ==> !Holds(q, q.open[p], k))
    && (forall p, p' :: p in q.open && p' in q.open ==> p == p')
  }

  /** A later landing changes nothing that a poll holds. */
  lemma HoldsAfterLand(q: Queue, q': Queue, l: Landing, r: Poll, k: int)
    requires q'.landed == q.landed + [l] && r.upTo <= |q.landed|
    ensures Holds(q', r, k) <==> Holds(q, r, k)
  {
    assert forall j :: 0 <= j < |q.landed| ==> q'.landed[j] == q.landed[j];
  }

  lemma QueuedBeforeLand(skew: Skew, q: Queue, l: Landing, k: int)
    requires Enabled(skew, q, Land(l)) && Queued(Apply(skew, q, Land(l)), k) && k < |q.landed|
    ensures Queued(q, k)
  {
    var q' := Apply(skew, q, Land(l));
    assert forall j :: 0 <= j < |q.landed| ==> q'.landed[j] == q.landed[j];
    assert q'.landed[|q.landed|].Payload() != q.landed[k].Payload();
  }

  lemma LandGone(skew: Skew, q: Queue, step: Step)
    requires Timely(q) && Gone(q) && step.Land? && Enabled(skew, q, step)
    ensures Gone(Apply(skew, q, step))
  {
    var q' := Apply(skew, q, step);
    forall r: Poll, k | r.upTo <= |q.landed| ensures Holds(q', r, k) <==> Holds(q, r, k) {
      HoldsAfterLand(q, q', step.landing, r, k);
    }
    forall i, k | 0 <= i < |q'.returned| && Holds(q', q'.returned[i], k) ensures !Queued(q', k) {
      if Queued(q', k) {
        QueuedBeforeLand(skew, q, step.landing, k);
      }
    }
  }

  lemma ReadGone(skew: Skew, q: Queue, step: Step)
    requires Timely(q) && Gone(q) && step.Read? && Enabled(skew, q, step) && !skew.overlap
    ensures Gone(Apply(skew, q, step))
  {
    var q' := Apply(skew, q, step);
    var r := q'.open[step.poll];
    forall k | Holds(q', r, k) ensures Queued(q, k) {
    }
    forall r: Poll, k ensures Holds(q', r, k) == Holds(q, r, k) {
    }
    forall k ensures Queued(q', k) == Queued(q, k) {
    }
  }

  /** What an ending poll holds is no longer queued: a landing that scored the payload
      meanwhile is another landing. */
  lemma DeletedIsNotQueued(q: Queue, p: nat, k: int)
    requires Timely(q) && p in q.open && Holds(q, q.open[p], k)
    ensures !Queued(Deleted(q, p), k)
  {
    var r, payload := q.open[p], q.landed[k].Payload();
    var j :| DueBy(q, payload, j, r);
    assert j == k;
    if payload in q.retries && LastLanding(q, payload, k, |q.landed|) {
      var i :| ScoredBy(q, payload, i);
      assert i == k && payload in Due(q.retries, r.now);
    }
  }

  lemma FewerOpenGone(q: Queue, q': Queue)
    requires Gone(q) && q'.landed == q.landed && q'.returned == q.returned
    requires forall p :: p in q'.retries ==> p in q.retries
    requires forall p :: p in q'.open ==> p in q.open && q'.open[p] == q.open[p]
    ensures Gone(q')
  {
    forall r: Poll, k ensures Holds(q', r, k) == Holds(q, r, k) {
    }
    forall k | Queued(q', k) ensures Queued(q, k) {
    }
  }

  lemma ReturnGone(q: Queue, r: Poll)
    requires Gone(q) && q.open == map[]
    requires forall k :: Holds(q, r, k) ==> !Queued(q, k)
    requires forall i, k :: 0 <= i < |q.returned| && Holds(q, q.returned[i], k) ==> !Holds(q, r, k)
    ensures Gone(q.(returned := q.returned + [r]))
  {
    var q' := q.(returned := q.returned + [r]);
    forall r: Poll, k ensures Holds(q', r, k) == Holds(q, r, k) {
    }
    forall k ensures Queued(q', k) == Queued(q, k) {
    }
  }

  lemma DeleteGone(skew: Skew, q: Queue, step: Step)
    requires Timely(q) && Gone(q) && step.Delete? && Enabled(skew, q, step)
    ensures Gone(Apply(skew, q, step))
  {
    var d, r := Deleted(q, step.poll), q.open[step.poll];
    FewerOpenGone(q, d);
    forall k ensures Holds(d, r, k) == Holds(q, r, k) {
    }
    forall k | Holds(d, r, k) ensures !Queued(d, k) {
      DeletedIsNotQueued(q, step.poll, k);
    }
    forall i, k | 0 <= i < |d.returned| && Holds(d, d.returned[i], k) ensures !Holds(d, r, k) {
      assert Holds(q, q.returned[i], k);
    }
    assert d.open == map[];
    ReturnGone(d, r);
  }

  lemma {:induction false} GoneAlways(skew: Skew, steps: seq<Step>)
    requires !skew.overlap
    ensures Gone(After(skew, steps))
  {
    if steps == [] {
    } else {
      var q, step := After(skew, steps[..|steps| - 1]), steps[|steps| - 1];
      GoneAlways(skew, steps[..|steps| - 1]);
      TimelyAlways(skew, steps[..|steps| - 1]);
      if Enabled(skew, q, step) {
        match step {
          case Land(_) => LandGone(skew, q, step);
          case Read(_, _) => ReadGone(skew, q, step);
          case Delete(_) => DeleteGone(skew, q, step);
          case _ => FewerOpenGone(q, Apply(skew, q, step));
        }
      }
    }
  }

  /** Two polls read a due retry before either deletes it. */
  function OverlappingRun(): seq<Step> {
    [Land(ONE)] + [Tick(MIN_DELAY)] + [Read(0, MIN_DELAY)] + [Read(1, MIN_DELAY)] + [Delete(0)] + [Delete(1)]
  }

  /** Both polls return it. */
  lemma BothReturn(skew: Skew, q: Queue)
    requires q == Queue(MIN_DELAY, map[ONE.Payload() := MIN_DELAY], [ONE], map[], []) && skew.overlap
    ensures !ReturnedOnce(Apply(skew, Apply(skew, Apply(skew, Apply(skew, q, Read(0, MIN_DELAY)), Read(1, MIN_DELAY)),
                                            Delete(0)), Delete(1)))
  {
    var r := Poll(MIN_DELAY, 1, Due(q.retries, MIN_DELAY));
    var q1 := Apply(skew, q, Read(0, MIN_DELAY));
    var q2 := Apply(skew, q1, Read(1, MIN_DELAY));
    assert q2.open == map[0 := r, 1 := r];
    var q3 := Apply(skew, q2, Delete(0));
    assert q3.returned == [r] && q3.open[1] == r;
    var q4 := Apply(skew, q3, Delete(1));
    assert q4.returned == [r, r] && q4.landed == [ONE];
    assert ONE.Payload() in r.items && Holds(q4, q4.returned[0], 0) && Holds(q4, q4.returned[1], 0);
  }

  lemma OverlappingRunRepeats(skew: Skew)
    requires skew.overlap
    ensures !ReturnedOnce(After(skew, OverlappingRun()))
  {
    Apart();
    var q1 := Apply(skew, Start(), Land(ONE));
    var q2 := Apply(skew, q1, Tick(MIN_DELAY));
    assert q2 == Queue(MIN_DELAY, map[ONE.Payload() := MIN_DELAY], [ONE], map[], []);
    BothReturn(skew, q2);
    var run := [Land(ONE)] + [Tick(MIN_DELAY)];
    AfterSnoc(skew, [], Land(ONE));
    assert [] + [Land(ONE)] == [Land(ONE)];
    AfterSnoc(skew, [Land(ONE)], Tick(MIN_DELAY));
    AfterSnoc(skew, run, Read(0, MIN_DELAY));
    AfterSnoc(skew, run + [Read(0, MIN_DELAY)], Read(1, MIN_DELAY));
    AfterSnoc(skew, run + [Read(0, MIN_DELAY)] + [Read(1, MIN_DELAY)], Delete(0));
    AfterSnoc(skew, run + [Read(0, MIN_DELAY)] + [Read(1, MIN_DELAY)] + [Delete(0)], Delete(1));
  }

  /** No landing is returned twice, in any run and whatever the clocks do, exactly
      when polls do not overlap. */
  lemma ReturnedOnceIff(skew: Skew)
    ensures (forall steps :: ReturnedOnce(After(skew, steps))) <==> !skew.overlap
  {
    if skew.overlap {
      OverlappingRunRepeats(skew);
    } else {
      forall steps ensures ReturnedOnce(After(skew, steps)) {
        GoneAlways(skew, steps);
      }
    }
  }

  /** A poll returns exactly the triples that were scheduled, for ids and channels
      without colons: the encoding loses nothing, whatever the attempt number. */
  lemma PollReturnsTriples(items: seq<string>, i: nat, messageId: string, channel: string, attempt: nat)
    requires i < |items| && items[i] == Payload(messageId, channel, attempt)
    requires ColonFree(messageId) && ColonFree(channel)
    ensures DecodeAll(items)[i] == Retry(messageId, Some(channel), Some(attempt))
    ensures forall m, c, n: nat :: ColonFree(m) && ColonFree(c) && items[i] == Payload(m, c, n)
                                   ==> m == messageId && c == channel && n == attempt
  {
    PayloadRoundTrip(messageId, channel, attempt);
    forall m, c, n: nat | ColonFree(m) && ColonFree(c) && items[i] == Payload(m, c, n)
      ensures m == messageId && c == channel && n == attempt
    {
      PayloadInjective(m, c, n, messageId, channel, attempt);
    }
  }
}
