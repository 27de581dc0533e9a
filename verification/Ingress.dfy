/** MessageController with DeduplicationService and HashService: a request is
    accepted and enqueued once per tenant, key and 72 hours, by a TTL cache. */
module Ingress {
  import opened Wrappers
  import opened Text
  import opened Store
  import opened Logs

  /** 72 hours, in milliseconds. */
  const INGRESS_TTL: nat := 259200 * 1000

  datatype Request = Request(tenantId: string, userId: string, idempotencyKey: string,
                             channel: string, recipient: string, body: string)

  datatype Error = MissingFields | InvalidChannel | InvalidEmail | EmptyBody | PublishFailed

  /** What the caller gets: 202, 200 or 400. */
  datatype Response =
    | Accepted(messageId: string, dedupKey: string)
    | AlreadySeen(messageId: string, dedupKey: string)
    | Rejected(error: Error)

  /** An event of the `messages.*` topics, keyed by user. */
  datatype Published = Published(messageId: string, dedupKey: string, request: Request)

  datatype Router = Router(cache: map<string, int>, topic: seq<Published>)

  /** Outcomes of the Redis commands and Kafka sends of one request. */
  datatype Faults = Faults(exists_: Outcome, setNx: Outcome, publish: Outcome, log: Outcome)

  const ALL_WELL := Faults(Done, Done, Done, Done)

  /** The digest of the dedup text; SHA-256 in the service. */
  type Hash = string -> string

  // --------------------------------------------------------------- validation

  /** /^[^\s@]+@[^\s@]+\.[^\s@]+$/ */
  predicate IsEmail(s: string) {
    exists i, j :: 0 < i && i + 1 < j < |s| - 1 && s[i] == '@' && s[j] == '.'
                   && forall k :: 0 <= k < |s| && k != i ==> s[k] != '@' && !IsSpace(s[k])
  }

  predicate Blank(s: string) {
    forall i :: 0 <= i < |s| ==> IsSpace(s[i])
  }

  function Validate(r: Request): Option<Error> {
    if r.tenantId == "" || r.userId == "" || r.idempotencyKey == "" || r.channel == "" || r.recipient == ""
       || r.body == ""
    then Some(MissingFields)
    else if r.channel != "email" && r.channel != "sms" && r.channel != "whatsapp" then Some(InvalidChannel)
      else if r.channel == "email" && !IsEmail(r.recipient) then Some(InvalidEmail)
      else if Blank(r.body) then Some(EmptyBody)
      else None
  }

  function DedupKey(hash: Hash, r: Request): string {
    hash(DedupPreimage(r.body, r.userId, r.recipient, r.tenantId))
  }

  // ------------------------------------------------------------- specification

  function CacheKey(r: Request): string { IngressKey(r.tenantId, r.idempotencyKey) }

  predicate IsNew(st: Router, r: Request, now: int, f: Faults) {
    f.exists_.Throws() || !Live(st.cache, CacheKey(r), now)
  }

  function AfterCheck(st: Router, r: Request, now: int, f: Faults): Router {
    if f.exists_.Throws() || Live(st.cache, CacheKey(r), now) || f.setNx.Lost? then st
    else st.(cache := st.cache[CacheKey(r) := now + INGRESS_TTL])
  }

  function Handle(hash: Hash, st: Router, r: Request, id: string, now: int, f: Faults): (Router, Response) {
    if Validate(r).Some? then (st, Rejected(Validate(r).value))
    else
      var st1 := AfterCheck(st, r, now, f);
      if !IsNew(st, r, now, f) then (st1, AlreadySeen(id, DedupKey(hash, r)))
      else
        var st2 := if f.publish.Lands() then st1.(topic := st1.topic + [Published(id, DedupKey(hash, r), r)]) else st1;
        (st2, if f.publish.Throws() || f.log.Throws() then Rejected(PublishFailed) else Accepted(id, DedupKey(hash, r)))
  }

  // ------------------------------------------------------------------- class

  class MessageController {
    const hash: Hash
    var cache: map<string, int>
    var topic: seq<Published>

    function Snapshot(): Router
      reads this
    {
      Router(cache, topic)
    }

    constructor (hash: Hash)
      ensures this.hash == hash && Snapshot() == Router(map[], [])
    {
      this.hash := hash;
      cache, topic := map[], [];
    }

    /** `id` is the fresh UUID of the request.  The cached value is always "1", so a
        duplicate is answered with the new id, not the first one. */
    method HandleCreateMessage(r: Request, id: string, now: int, f: Faults) returns (response: Response)
      modifies this
      ensures (Snapshot(), response) == Handle(hash, old(Snapshot()), r, id, now, f)
    {
      var invalid := Validate(r);
      if invalid.Some? {
        return Rejected(invalid.value);
      }
      var dedupKey := DedupKey(hash, r);
      var isNew := CheckAndCacheIngressRequest(r, now, f);
      if !isNew {
        return AlreadySeen(id, dedupKey);
      }
      if f.publish.Lands() {
        topic := topic + [Published(id, dedupKey, r)];
      }
      if f.publish.Throws() || f.log.Throws() {
        return Rejected(PublishFailed);
      }
      response := Accepted(id, dedupKey);
    }

    /** A Redis error counts as "new". */
    method CheckAndCacheIngressRequest(r: Request, now: int, f: Faults) returns (isNew: bool)
      modifies this`cache
      ensures isNew == IsNew(old(Snapshot()), r, now, f)
      ensures Snapshot() == AfterCheck(old(Snapshot()), r, now, f)
    {
      var cacheKey := CacheKey(r);
      if f.exists_.Throws() {
        return true;
      }
      if cacheKey in cache && now < cache[cacheKey] {
        return false;
      }
      if f.setNx.Lands() {
        cache := cache[cacheKey := now + INGRESS_TTL];
      }
      return true;
    }
  }

  // ------------------------------------------------------ one request, case by case

  /** Text without white space and '@', and not empty. */
  predicate Word(w: string) {
    w != "" && forall c :: c in w ==> !IsSpace(c) && c != '@'
  }

  /** local@host.top: three words. */
  ghost predicate Address(s: string) {
    exists local, host, top :: Parts(s, local, host, top)
  }

  predicate Parts(s: string, local: string, host: string, top: string) {
    s == local + "@" + host + "." + top && Word(local) && Word(host) && Word(top)
  }

  lemma EmailIsAddress(s: string, i: int, j: int)
    requires 0 < i && i + 1 < j < |s| - 1 && s[i] == '@' && s[j] == '.'
    requires forall k :: 0 <= k < |s| && k != i ==> s[k] != '@' && !IsSpace(s[k])
    ensures Parts(s, s[..i], s[i + 1..j], s[j + 1..])
  {
    assert s == s[..i] + "@" + s[i + 1..j] + "." + s[j + 1..];
  }

  /** The email pattern matches exactly the addresses. */
  lemma IsEmailIff(s: string)
    ensures IsEmail(s) <==> Address(s)
  {
    if IsEmail(s) {
      var i, j :| 0 < i && i + 1 < j < |s| - 1 && s[i] == '@' && s[j] == '.'
                  && forall k :: 0 <= k < |s| && k != i ==> s[k] != '@' && !IsSpace(s[k]);
      EmailIsAddress(s, i, j);
    }
    if Address(s) {
      var local, host, top :| Parts(s, local, host, top);
      AddressIsEmail(s, local, host, top);
    }
  }

  lemma AddressIsEmail(s: string, local: string, host: string, top: string)
    requires Parts(s, local, host, top)
    ensures IsEmail(s)
  {
    var i, j := |local|, |local| + 1 + |host|;
    assert s[i] == '@' && s[j] == '.' && 0 < i && i + 1 < j < |s| - 1;
    forall k | 0 <= k < |s| && k != i ensures s[k] != '@' && !IsSpace(s[k]) {
      if k < i {
        assert s[k] == local[k] && local[k] in local;
      } else if k < j {
        assert s[k] == host[k - i - 1] && host[k - i - 1] in host;
      } else if k > j {
        assert s[k] == top[k - j - 1] && top[k - j - 1] in top;
      } else {
        SpacesAre('.');
      }
    }
  }

  /** White space only is what trimming leaves nothing of. */
  lemma {:induction false} BlankIff(s: string)
    ensures Blank(s) <==> TrimStart(s) == ""
  {
    if s == [] {
    } else if IsSpace(s[0]) {
      BlankIff(s[1..]);
      assert forall i :: 1 <= i < |s| ==> s[i] == s[1..][i - 1];
    }
  }

  predicate SomeFieldEmpty(r: Request) {
    "" in {r.tenantId, r.userId, r.idempotencyKey, r.channel, r.recipient, r.body}
  }

  /** The four ways to be invalid, each given that the ones before do not apply. */
  ghost function Complaint(r: Request): Option<Error> {
    if SomeFieldEmpty(r) then Some(MissingFields)
    else if r.channel !in {"email", "sms", "whatsapp"} then Some(InvalidChannel)
    else if r.channel == "email" && !Address(r.recipient) then Some(InvalidEmail)
    else if TrimStart(r.body) == "" then Some(EmptyBody)
    else None
  }

  lemma ValidateIs(r: Request)
    ensures Validate(r) == Complaint(r)
  {
    IsEmailIff(r.recipient);
    BlankIff(r.body);
  }

  /** What a request is answered. */
  lemma AnswerIs(hash: Hash, st: Router, r: Request, id: string, now: int, f: Faults)
    ensures var key := "idem:tenant:" + (r.tenantId + ":key:" + r.idempotencyKey);
            var dedup := hash(((r.body + ":" + r.userId) + ":" + r.recipient) + ":" + r.tenantId);
            Handle(hash, st, r, id, now, f).1 ==
            if Complaint(r).Some? then Rejected(Complaint(r).value)
            else if f.exists_.Done? && key in st.cache && now < st.cache[key] then AlreadySeen(id, dedup)
            else if f.publish.Done? && f.log.Done? then Accepted(id, dedup)
            else Rejected(PublishFailed)
  {
    ValidateIs(r);
  }

  /** What a request leaves in the cache and on the topic. */
  lemma EffectIs(hash: Hash, st: Router, r: Request, id: string, now: int, f: Faults)
    ensures var st' := Handle(hash, st, r, id, now, f).0;
            var key := "idem:tenant:" + (r.tenantId + ":key:" + r.idempotencyKey);
            var dedup := hash(((r.body + ":" + r.userId) + ":" + r.recipient) + ":" + r.tenantId);
            var seen := key in st.cache && now < st.cache[key];
            && st'.cache == (if Complaint(r).None? && f.exists_.Done? && !seen && f.setNx.Lands()
                             then st.cache[key := now + 259200000] else st.cache)
            && st'.topic == st.topic + (if Complaint(r).None? && !(f.exists_.Done? && seen) && f.publish.Lands()
                                        then [Published(id, dedup, r)] else [])
  {
    ValidateIs(r);
  }

  // -------------------------------------------------------------------- histories

  datatype Step = Step(r: Request, id: string, now: int, f: Faults)

  datatype Answer = Answer(step: Step, response: Response)

  datatype Run = Run(st: Router, answers: seq<Answer>)

  function Serving(hash: Hash, run: Run, x: Step): Run {
    var (st, response) := Handle(hash, run.st, x.r, x.id, x.now, x.f);
    Run(st, run.answers + [Answer(x, response)])
  }

  /** Requests served one after another. */
  function Serve(hash: Hash, steps: seq<Step>): Run {
    if steps == [] then Run(Router(map[], []), [])
    else Serving(hash, Serve(hash, steps[..|steps| - 1]), steps[|steps| - 1])
  }

  lemma ServeSnoc(hash: Hash, steps: seq<Step>, x: Step)
    ensures Serve(hash, steps + [x]) == Serving(hash, Serve(hash, steps), x)
  {
    assert (steps + [x])[..|steps|] == steps;
  }

  ghost predicate ColonFreeTenants(steps: seq<Step>) {
    forall i :: 0 <= i < |steps| ==> ColonFree(steps[i].r.tenantId)
  }

  /** Times do not run back, and tenant ids hold no colon. */
  ghost predicate Regular(steps: seq<Step>) {
    (forall i, j :: 0 <= i < j < |steps| ==> steps[i].now <= steps[j].now) && ColonFreeTenants(steps)
  }

  // ------------------------------------------------------------- which effects fail

  datatype Effect = Exists | SetNX | Publish | Log

  function OutcomeOf(f: Faults, e: Effect): Outcome {
    match e
    case Exists => f.exists_
    case SetNX => f.setNx
    case Publish => f.publish
    case Log => f.log
  }

  /** The failures that can make an answer depart from the history. */
  predicate Harmful(e: Effect, o: Outcome) {
    if e.SetNX? then o.Lost? else o.Throws()
  }

  predicate Harmless(f: Faults) {
    f.exists_.Done? && f.setNx.Lands() && f.publish.Done? && f.log.Done?
  }

  ghost predicate AllHarmless(steps: seq<Step>) {
    forall i :: 0 <= i < |steps| ==> Harmless(steps[i].f)
  }

  /** No effect fails in a way that `may` does not list. */
  ghost predicate Within(f: Faults, may: set<(Effect, Outcome)>) {
    forall e: Effect :: OutcomeOf(f, e).Done? || (e, OutcomeOf(f, e)) in may
  }

  ghost predicate AllWithin(steps: seq<Step>, may: set<(Effect, Outcome)>) {
    forall i :: 0 <= i < |steps| ==> Within(steps[i].f, may)
  }

  ghost predicate Tolerable(may: set<(Effect, Outcome)>) {
    forall e, o :: (e, o) in may ==> !Harmful(e, o)
  }

  lemma WithinHarmless(f: Faults, may: set<(Effect, Outcome)>)
    requires Tolerable(may) && Within(f, may)
    ensures Harmless(f)
  {
    assert OutcomeOf(f, Exists) == f.exists_ && OutcomeOf(f, SetNX) == f.setNx;
    assert OutcomeOf(f, Publish) == f.publish && OutcomeOf(f, Log) == f.log;
  }

  // ------------------------------------------------------- the cache and the history

  /** An acceptance of this tenant and key that is less than 72 hours old at `now`. */
  predicate Recent(a: Answer, tenantId: string, key: string, now: int) {
    && a.response.Accepted? && a.step.r.tenantId == tenantId && a.step.r.idempotencyKey == key
    && now < a.step.now + 72 * 60 * 60 * 1000
  }

  ghost predicate AcceptedLately(answers: seq<Answer>, tenantId: string, key: string, now: int) {
    exists a :: a in answers && Recent(a, tenantId, key, now)
  }

  /** What the history alone says the answer should be. */
  ghost function Expected(hash: Hash, answers: seq<Answer>, x: Step): Response {
    if Validate(x.r).Some? then Rejected(Validate(x.r).value)
    else if AcceptedLately(answers, x.r.tenantId, x.r.idempotencyKey, x.now) then AlreadySeen(x.id, DedupKey(hash, x.r))
    else Accepted(x.id, DedupKey(hash, x.r))
  }

  function AcceptedEvents(answers: seq<Answer>): seq<Published> {
    if answers == [] then []
    else
      var front, a := AcceptedEvents(answers[..|answers| - 1]), answers[|answers| - 1];
      if a.response.Accepted? then front + [Published(a.response.messageId, a.response.dedupKey, a.step.r)] else front
  }

  /** The cache answers as the history does, from `clock` on. */
  ghost predicate Refines(run: Run, clock: int) {
    && (forall t, k, now :: ColonFree(t) && clock <= now ==>
                              (Live(run.st.cache, IngressKey(t, k), now) <==> AcceptedLately(run.answers, t, k, now)))
    && run.st.topic == AcceptedEvents(run.answers)
  }

  lemma HistorySnoc(answers: seq<Answer>, a: Answer, t: string, k: string, now: int)
    ensures AcceptedLately(answers + [a], t, k, now) <==> AcceptedLately(answers, t, k, now) || Recent(a, t, k, now)
  {
  }

  lemma StepRefines(hash: Hash, run: Run, clock: int, x: Step)
    requires Refines(run, clock) && clock <= x.now && ColonFree(x.r.tenantId) && Harmless(x.f)
    ensures var run' := Serving(hash, run, x);
            run'.answers == run.answers + [Answer(x, Expected(hash, run.answers, x))] && Refines(run', x.now)
  {
    var run' := Serving(hash, run, x);
    var a := run'.answers[|run.answers|];
    assert (run.answers + [a])[..|run.answers|] == run.answers;
    forall t, k, now | ColonFree(t) && x.now <= now
      ensures Live(run'.st.cache, IngressKey(t, k), now) <==> AcceptedLately(run.answers + [a], t, k, now)
    {
      HistorySnoc(run.answers, a, t, k, now);
      assert Live(run.st.cache, IngressKey(t, k), now) <==> AcceptedLately(run.answers, t, k, now);
      if IngressKey(t, k) == CacheKey(x.r) {
        IngressKeyInjective(t, k, x.r.tenantId, x.r.idempotencyKey);
      }
    }
  }

  lemma {:induction false} ServeRefines(hash: Hash, steps: seq<Step>, clock: int)
    requires Regular(steps) && AllHarmless(steps) && forall i :: 0 <= i < |steps| ==> steps[i].now <= clock
    ensures Refines(Serve(hash, steps), clock)
  {
    if steps == [] {
    } else {
      var front, x := steps[..|steps| - 1], steps[|steps| - 1];
      ServeRefines(hash, front, x.now);
      StepRefines(hash, Serve(hash, front), x.now, x);
    }
  }

  lemma RegularPrefix(steps: seq<Step>, x: Step)
    requires Regular(steps + [x])
    ensures Regular(steps) && ColonFree(x.r.tenantId) && forall i :: 0 <= i < |steps| ==> steps[i].now <= x.now
  {
    var all := steps + [x];
    assert all[|steps|] == x && forall i :: 0 <= i < |steps| ==> all[i] == steps[i];
  }

  // ---------------------------------------------------------------- main results

  /** The cache refines the history: over any run without harmful failures, a valid
      request is answered DUPLICATE exactly when the same tenant and key was ACCEPTED
      less than 72 hours before; and the topic holds exactly one event per ACCEPTED
      answer. */
  lemma CacheRefinesHistory(hash: Hash, steps: seq<Step>, x: Step)
    requires Regular(steps + [x]) && AllHarmless(steps + [x])
    ensures var run, run' := Serve(hash, steps), Serve(hash, steps + [x]);
            && run'.answers == run.answers + [Answer(x, Expected(hash, run.answers, x))]
            && run'.st.topic == AcceptedEvents(run'.answers)
  {
    var all := steps + [x];
    assert all[|steps|] == x && forall i :: 0 <= i < |steps| ==> all[i] == steps[i];
    RegularPrefix(steps, x);
    ServeRefines(hash, steps, x.now);
    StepRefines(hash, Serve(hash, steps), x.now, x);
    ServeSnoc(hash, steps, x);
  }

  /** Every answer is the one the history calls for, and the topic holds the accepted events. */
  ghost predicate Follows(hash: Hash, run: Run) {
    && (forall i :: 0 <= i < |run.answers| ==>
                      run.answers[i].response == Expected(hash, run.answers[..i], run.answers[i].step))
    && run.st.topic == AcceptedEvents(run.answers)
  }

  lemma FollowsSnoc(hash: Hash, run: Run, run': Run, x: Step)
    requires Follows(hash, run) && run'.st.topic == AcceptedEvents(run'.answers)
    requires run'.answers == run.answers + [Answer(x, Expected(hash, run.answers, x))]
    ensures Follows(hash, run')
  {
    var answers, answers' := run.answers, run'.answers;
    forall i | 0 <= i < |answers'| ensures answers'[i].response == Expected(hash, answers'[..i], answers'[i].step) {
      assert answers'[..i] == answers[..i];
    }
  }

  lemma {:induction false} ServeFollows(hash: Hash, steps: seq<Step>)
    requires Regular(steps) && AllHarmless(steps)
    ensures Follows(hash, Serve(hash, steps))
  {
    if steps == [] {
    } else {
      var front, x := steps[..|steps| - 1], steps[|steps| - 1];
      assert steps == front + [x];
      RegularPrefix(front, x);
      ServeFollows(hash, front);
      CacheRefinesHistory(hash, front, x);
      FollowsSnoc(hash, Serve(hash, front), Serve(hash, steps), x);
    }
  }

  ghost predicate AlwaysFollows(hash: Hash, may: set<(Effect, Outcome)>) {
    forall steps: seq<Step> :: Regular(steps) && AllWithin(steps, may) ==> Follows(hash, Serve(hash, steps))
  }

  const TEXT := Request("t", "u", "k", "sms", "r", "b")

  function OneFault(e: Effect, o: Outcome): Faults {
    match e
    case Exists => ALL_WELL.(exists_ := o)
    case SetNX => ALL_WELL.(setNx := o)
    case Publish => ALL_WELL.(publish := o)
    case Log => ALL_WELL.(log := o)
  }

  /** One request served twice at one time, and a failure in one of them.  A failing
      dedup read hides the acceptance, a lost entry forgets it, and a failing publish or
      log rejects a request the history would accept. */
  function DepartingRun(e: Effect, o: Outcome): seq<Step> {
    var good, bad := Step(TEXT, "m", 0, ALL_WELL), Step(TEXT, "m", 0, OneFault(e, o));
    if e.Exists? then [good] + [bad] else [bad] + [good]
  }

  lemma TextIsValid()
    ensures Validate(TEXT).None?
  {
    assert TEXT.body[0] == 'b' && !IsSpace('b');
  }

  lemma ServeTwo(hash: Hash, a: Step, b: Step)
    ensures Serve(hash, [a] + [b]) == Serving(hash, Serving(hash, Run(Router(map[], []), []), a), b)
  {
    ServeSnoc(hash, [], a);
    assert [] + [a] == [a];
    ServeSnoc(hash, [a], b);
  }

  lemma DepartingRunDeparts(hash: Hash, e: Effect, o: Outcome)
    requires Harmful(e, o)
    ensures !Follows(hash, Serve(hash, DepartingRun(e, o)))
  {
    TextIsValid();
    var good, bad := Step(TEXT, "m", 0, ALL_WELL), Step(TEXT, "m", 0, OneFault(e, o));
    var a, b := if e.Exists? then good else bad, if e.Exists? then bad else good;
    ServeTwo(hash, a, b);
    var run := Serve(hash, DepartingRun(e, o));
    assert run.answers[..0] == [] && run.answers[..1] == [run.answers[0]];
    if e.Publish? || e.Log? {
      assert run.answers[0].response == Rejected(PublishFailed);
      assert Expected(hash, run.answers[..0], a).Accepted?;
    } else {
      assert Recent(run.answers[0], "t", "k", 0) && run.answers[0] in run.answers[..1];
      assert run.answers[1].response.Accepted? && Expected(hash, run.answers[..1], b).AlreadySeen?;
    }
  }

  lemma DepartingRunWithin(e: Effect, o: Outcome, may: set<(Effect, Outcome)>)
    requires (e, o) in may
    ensures Regular(DepartingRun(e, o)) && AllWithin(DepartingRun(e, o), may)
  {
  }

  /** Let each effect fail in the ways `may` lists, in any request.  All answers follow
      the history, over all regular runs, if and only if none of these failures is one
      of the dedup read, the publish or the log, nor a lost cache write. */
  lemma FollowsIff(hash: Hash, may: set<(Effect, Outcome)>)
    ensures AlwaysFollows(hash, may) <==> Tolerable(may)
  {
    if Tolerable(may) {
      forall steps: seq<Step> | Regular(steps) && AllWithin(steps, may) ensures Follows(hash, Serve(hash, steps)) {
        forall i | 0 <= i < |steps| ensures Harmless(steps[i].f) {
          WithinHarmless(steps[i].f, may);
        }
        ServeFollows(hash, steps);
      }
    } else {
      var e, o :| (e, o) in may && Harmful(e, o);
      DepartingRunDeparts(hash, e, o);
      DepartingRunWithin(e, o, may);
    }
  }

  // ------------------------------------------------- what stands behind a DUPLICATE

  ghost predicate HasEvent(topic: seq<Published>, tenantId: string, key: string) {
    exists e :: e in topic && e.request.tenantId == tenantId && e.request.idempotencyKey == key
  }

  /** Every DUPLICATE answer has an event of its tenant and key on the topic. */
  ghost predicate Backed(run: Run) {
    forall a :: a in run.answers && a.response.AlreadySeen? ==>
                  HasEvent(run.st.topic, a.step.r.tenantId, a.step.r.idempotencyKey)
  }

  /** So has every cache entry. */
  ghost predicate BackedCache(run: Run) {
    forall t, k :: ColonFree(t) && IngressKey(t, k) in run.st.cache ==> HasEvent(run.st.topic, t, k)
  }

  lemma MoreEvents(topic: seq<Published>, more: seq<Published>, t: string, k: string)
    requires HasEvent(topic, t, k)
    ensures HasEvent(topic + more, t, k)
  {
    var e :| e in topic && e.request.tenantId == t && e.request.idempotencyKey == k;
    assert e in topic + more;
  }

  lemma StepBacked(hash: Hash, run: Run, x: Step)
    requires Backed(run) && BackedCache(run) && ColonFree(x.r.tenantId) && !x.f.publish.Lost?
    ensures Backed(Serving(hash, run, x)) && BackedCache(Serving(hash, run, x))
  {
    var run' := Serving(hash, run, x);
    var more := run'.st.topic[|run.st.topic|..];
    assert run'.st.topic == run.st.topic + more;
    forall t, k | HasEvent(run.st.topic, t, k) ensures HasEvent(run'.st.topic, t, k) {
      MoreEvents(run.st.topic, more, t, k);
    }
    if more != [] {
      assert more[0] in run'.st.topic && more[0].request == x.r;
    }
    forall t, k | ColonFree(t) && IngressKey(t, k) in run'.st.cache && IngressKey(t, k) !in run.st.cache
      ensures HasEvent(run'.st.topic, t, k)
    {
      IngressKeyInjective(t, k, x.r.tenantId, x.r.idempotencyKey);
    }
  }

  lemma {:induction false} ServeBacked(hash: Hash, steps: seq<Step>)
    requires ColonFreeTenants(steps) && forall i :: 0 <= i < |steps| ==> !steps[i].f.publish.Lost?
    ensures Backed(Serve(hash, steps)) && BackedCache(Serve(hash, steps))
  {
    if steps == [] {
    } else {
      ServeBacked(hash, steps[..|steps| - 1]);
      StepBacked(hash, Serve(hash, steps[..|steps| - 1]), steps[|steps| - 1]);
    }
  }

  ghost predicate AlwaysBacked(hash: Hash, may: set<(Effect, Outcome)>) {
    forall steps: seq<Step> :: ColonFreeTenants(steps) && AllWithin(steps, may) ==> Backed(Serve(hash, steps))
  }

  /** Kafka being up is needed.  Whatever becomes of the publish, the cache entry
      stays, and a retry within 72 hours is answered DUPLICATE; when the publish was
      lost, that leaves the caller with no event on the topic at all. */
  lemma RetryAfterFailedPublish(hash: Hash, st: Router, r: Request, o: Outcome, id1: string, id2: string,
                                now1: int, now2: int)
    requires Validate(r).None? && !Live(st.cache, CacheKey(r), now1) && now1 <= now2 < now1 + INGRESS_TTL
    ensures var (st1, r1) := Handle(hash, st, r, id1, now1, ALL_WELL.(publish := o));
            var (st2, r2) := Handle(hash, st1, r, id2, now2, ALL_WELL);
            && (r1.Accepted? <==> o.Done?)
            && r2.AlreadySeen?
            && (st2.topic == st.topic <==> o.Lost?)
  {
  }

  lemma LostPublishUnbacked(hash: Hash)
    ensures !Backed(Serve(hash, DepartingRun(Publish, Lost)))
  {
    TextIsValid();
    var good, bad := Step(TEXT, "m", 0, ALL_WELL), Step(TEXT, "m", 0, OneFault(Publish, Lost));
    ServeTwo(hash, bad, good);
    RetryAfterFailedPublish(hash, Router(map[], []), TEXT, Lost, "m", "m", 0, 0);
    var run := Serve(hash, DepartingRun(Publish, Lost));
    assert run.answers[1] in run.answers && run.answers[1].response.AlreadySeen? && run.st.topic == [];
  }

  /** A DUPLICATE answer is true to the topic, over all runs with any times, if and
      only if no publish may be lost; every other failure, in any request, is harmless
      to that. */
  lemma DuplicatesBackedIff(hash: Hash, may: set<(Effect, Outcome)>)
    ensures AlwaysBacked(hash, may) <==> (Publish, Lost) !in may
  {
    if (Publish, Lost) in may {
      LostPublishUnbacked(hash);
      DepartingRunWithin(Publish, Lost, may);
    } else {
      forall steps: seq<Step> | ColonFreeTenants(steps) && AllWithin(steps, may) ensures Backed(Serve(hash, steps)) {
        forall i | 0 <= i < |steps| ensures !steps[i].f.publish.Lost? {
          assert Within(steps[i].f, may) && OutcomeOf(steps[i].f, Publish) == steps[i].f.publish;
        }
        ServeBacked(hash, steps);
      }
    }
  }

  // -------------------------------------------------------------- tenants and contents

  function StepTenant(x: Step): string { x.r.tenantId }
  function AnswerTenant(a: Answer): string { a.step.r.tenantId }

  /** The two caches hold the same for this tenant. */
  ghost predicate SameFor(tenant: string, c1: map<string, int>, c2: map<string, int>) {
    forall k :: (IngressKey(tenant, k) in c1 <==> IngressKey(tenant, k) in c2)
                && (IngressKey(tenant, k) in c1 && IngressKey(tenant, k) in c2 ==>
                      c1[IngressKey(tenant, k)] == c2[IngressKey(tenant, k)])
  }

  lemma OtherTenantSpares(hash: Hash, run: Run, x: Step, tenant: string)
    requires ColonFree(tenant) && ColonFree(x.r.tenantId) && x.r.tenantId != tenant
    ensures SameFor(tenant, Serving(hash, run, x).st.cache, run.st.cache)
  {
    forall k | IngressKey(tenant, k) == CacheKey(x.r) ensures false {
      IngressKeyInjective(tenant, k, x.r.tenantId, x.r.idempotencyKey);
    }
  }

  lemma OwnTenantAgrees(hash: Hash, run: Run, own: Run, x: Step)
    requires SameFor(x.r.tenantId, run.st.cache, own.st.cache)
    ensures SameFor(x.r.tenantId, Serving(hash, run, x).st.cache, Serving(hash, own, x).st.cache)
    ensures Serving(hash, run, x).answers[|run.answers|] == Serving(hash, own, x).answers[|own.answers|]
  {
    assert CacheKey(x.r) == IngressKey(x.r.tenantId, x.r.idempotencyKey);
  }

  /** Requests of other tenants never change an answer: a tenant gets, over any run and
      whatever fails, exactly the answers it would get had it been alone. */
  lemma {:induction false} TenantsDoNotInterfere(hash: Hash, steps: seq<Step>, tenant: string)
    requires ColonFreeTenants(steps)
    ensures var own := Serve(hash, About(steps, tenant, StepTenant));
            && About(Serve(hash, steps).answers, tenant, AnswerTenant) == own.answers
            && (ColonFree(tenant) ==> SameFor(tenant, Serve(hash, steps).st.cache, own.st.cache))
  {
    if steps == [] {
    } else {
      var front, x := steps[..|steps| - 1], steps[|steps| - 1];
      assert steps == front + [x];
      TenantsDoNotInterfere(hash, front, tenant);
      var run, own := Serve(hash, front), Serve(hash, About(front, tenant, StepTenant));
      AboutSnoc(front, x, tenant, StepTenant);
      AboutSnoc(run.answers, Serving(hash, run, x).answers[|run.answers|], tenant, AnswerTenant);
      if x.r.tenantId == tenant {
        ServeSnoc(hash, About(front, tenant, StepTenant), x);
        OwnTenantAgrees(hash, run, own, x);
      } else if ColonFree(tenant) {
        OtherTenantSpares(hash, run, x, tenant);
      }
    }
  }

  /** With a hash that does not collide, equal dedup keys mean equal content, for
      users, recipients and tenants without colons. */
  lemma DedupKeyIdentifiesContent(hash: Hash, a: Request, b: Request)
    requires forall s, t :: hash(s) == hash(t) ==> s == t
    requires ColonFree(a.userId) && ColonFree(a.recipient) && ColonFree(a.tenantId)
    requires ColonFree(b.userId) && ColonFree(b.recipient) && ColonFree(b.tenantId)
    ensures DedupKey(hash, a) == DedupKey(hash, b) <==>
            a.body == b.body && a.userId == b.userId && a.recipient == b.recipient && a.tenantId == b.tenantId
  {
    if DedupKey(hash, a) == DedupKey(hash, b) {
      DedupPreimageInjective(a.body, a.userId, a.recipient, a.tenantId, b.body, b.userId, b.recipient, b.tenantId);
    }
  }

  // ---------------------------------------------------------- overlapping requests

  /** A request past its dedup read, at `now`. */
  datatype Looked = Looked(tenantId: string, key: string, now: int)

  /** An acceptance, at the time of its cache write. */
  datatype Acceptance = Acceptance(tenantId: string, key: string, at: int)

  datatype Desk = Desk(clock: int, cache: map<string, int>, open: map<nat, Looked>, accepted: seq<Acceptance>)

  datatype DeskStep =
    | Look(w: nat, tenantId: string, key: string, now: int)  // EXISTS; a hit ends the request
    | Take(w: nat, now: int)                                 // SETNX, whose result is not looked at, and the publish

  predicate DeskEnabled(overlap: bool, d: Desk, step: DeskStep) {
    match step
    case Look(w, tenantId, _, now) =>
      w !in d.open && d.clock <= now && ColonFree(tenantId) && (overlap || d.open == map[])
    case Take(w, now) => w in d.open && d.clock <= now
  }

  function DeskApply(overlap: bool, d: Desk, step: DeskStep): Desk {
    if !DeskEnabled(overlap, d, step) then d else
    match step
    case Look(w, tenantId, key, now) =>
      if Live(d.cache, IngressKey(tenantId, key), now) then d.(clock := now)
      else d.(clock := now, open := d.open[w := Looked(tenantId, key, now)])
    case Take(w, now) =>
      var l := d.open[w];
      Desk(now, SetIfAbsent(d.cache, IngressKey(l.tenantId, l.key), now, INGRESS_TTL), d.open - {w},
           d.accepted + [Acceptance(l.tenantId, l.key, now)])
  }

  function DeskAfter(overlap: bool, steps: seq<DeskStep>): Desk {
    if steps == [] then Desk(0, map[], map[], [])
    else DeskApply(overlap, DeskAfter(overlap, steps[..|steps| - 1]), steps[|steps| - 1])
  }

  predicate SameKey(a: Acceptance, b: Acceptance) {
    a.tenantId == b.tenantId && a.key == b.key
  }

  /** Acceptances of one tenant and key are 72 hours apart. */
  ghost predicate Apart(d: Desk) {
    forall i, j :: 0 <= i < j < |d.accepted| && SameKey(d.accepted[i], d.accepted[j])
                   ==> d.accepted[i].at + 72 * 60 * 60 * 1000 <= d.accepted[j].at
  }

  /** An acceptance is covered by its cache entry while it is recent. */
  predicate Covered(d: Desk, a: Acceptance) {
    var key := IngressKey(a.tenantId, a.key);
    ColonFree(a.tenantId) && a.at <= d.clock
    && (d.clock < a.at + INGRESS_TTL ==> key in d.cache && a.at + INGRESS_TTL <= d.cache[key])
  }

  predicate StillAbsent(d: Desk, l: Looked) {
    ColonFree(l.tenantId) && l.now <= d.clock && !Live(d.cache, IngressKey(l.tenantId, l.key), l.now)
  }

  ghost predicate DeskInv(d: Desk) {
    && Apart(d)
    && (forall i :: 0 <= i < |d.accepted| ==> Covered(d, d.accepted[i]))
    && (forall w :: w in d.open ==> StillAbsent(d, d.open[w]))
    && (forall v, w :: v in d.open && w in d.open ==> v == w)
  }

  lemma TakeKeeps(d: Desk, step: DeskStep)
    requires DeskInv(d) && step.Take? && DeskEnabled(false, d, step)
    ensures DeskInv(DeskApply(false, d, step))
  {
    var d', l := DeskApply(false, d, step), d.open[step.w];
    var key := IngressKey(l.tenantId, l.key);
    assert !Live(d.cache, key, step.now) && d'.cache == d.cache[key := step.now + INGRESS_TTL];
    forall i | 0 <= i < |d.accepted| ensures Covered(d', d.accepted[i]) {
      assert Covered(d, d.accepted[i]);
    }
    forall i | 0 <= i < |d.accepted| && SameKey(d.accepted[i], d'.accepted[|d.accepted|])
      ensures d.accepted[i].at + INGRESS_TTL <= step.now
    {
      assert Covered(d, d.accepted[i]) && StillAbsent(d, l);
    }
  }

  lemma LookKeeps(d: Desk, step: DeskStep)
    requires DeskInv(d) && step.Look? && DeskEnabled(false, d, step)
    ensures DeskInv(DeskApply(false, d, step))
  {
    var d' := DeskApply(false, d, step);
    forall i | 0 <= i < |d.accepted| ensures Covered(d', d.accepted[i]) {
      assert Covered(d, d.accepted[i]);
    }
  }

  lemma {:induction false} DeskInvAlways(steps: seq<DeskStep>)
    ensures DeskInv(DeskAfter(false, steps))
  {
    if steps == [] {
    } else {
      var before, step := DeskAfter(false, steps[..|steps| - 1]), steps[|steps| - 1];
      DeskInvAlways(steps[..|steps| - 1]);
      if DeskEnabled(false, before, step) {
        if step.Take? {
          TakeKeeps(before, step);
        } else {
          LookKeeps(before, step);
        }
      }
    }
  }

  /** Two requests with one key look before either takes the key. */
  function OverlappingRun(): seq<DeskStep> {
    [Look(0, "t", "k", 0), Look(1, "t", "k", 0), Take(0, 0), Take(1, 0)]
  }

  lemma OverlappingRunAcceptsTwice()
    ensures !Apart(DeskAfter(true, OverlappingRun()))
  {
    var run, d0 := OverlappingRun(), Desk(0, map[], map[], []);
    assert run[..3][..2] == run[..2] && run[..2][..1] == run[..1] && run[..1][..0] == [];
    var d1 := DeskApply(true, d0, run[0]);
    var d2 := DeskApply(true, d1, run[1]);
    var d3 := DeskApply(true, d2, run[2]);
    var d4 := DeskApply(true, d3, run[3]);
    assert DeskAfter(true, run[..1]) == d1;
    assert DeskAfter(true, run[..2]) == d2;
    assert DeskAfter(true, run[..3]) == d3;
    assert DeskAfter(true, run) == d4;
    assert d4.accepted == [Acceptance("t", "k", 0), Acceptance("t", "k", 0)];
    assert SameKey(d4.accepted[0], d4.accepted[1]);
  }

  /** The dedup read and the cache write are two commands, and the result of the second
      is ignored.  With Redis and Kafka up, a tenant and key is accepted at most once in
      72 hours, over all interleavings, exactly when requests do not overlap. */
  lemma AcceptedOnceIff(overlap: bool)
    ensures (forall steps :: Apart(DeskAfter(overlap, steps))) <==> !overlap
  {
    if overlap {
      OverlappingRunAcceptsTwice();
    } else {
      forall steps ensures Apart(DeskAfter(overlap, steps)) {
        DeskInvAlways(steps);
      }
    }
  }
}
