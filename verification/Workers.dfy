/** Partition workers side by side.  Each runs its own batches: check, insert,
    then hand the messages one by one to the processor; steps of different workers
    interleave, and a worker may stop anywhere and see its batch again.  Statuses
    are left to the other modules: here a row is the key it occupies. */
module Workers {
  import opened Wrappers
  import opened Text
  import opened Store
  import opened Batch
  import opened EachBatch

  /** The partition a message arrives in, None for a message that never arrives; and
      whether a partition may have two live workers at a time, as when a batch outlasts
      the session timeout: the partition is given away while its loop goes on. */
  datatype Group = Group(partition: Message -> Option<nat>, overlap: bool)

  /** Between check and insert, or past the insert with messages still to hand over. */
  datatype Worker =
    | Checked(partition: nat, added: seq<Message>, todo: seq<Message>)
    | Processing(partition: nat, pass: nat, todo: seq<Message>)

  /** Keys that had a row before and after a pass's insert, whether the worker saw it
      commit, and the keys it has to hand over then. */
  datatype Insert = Insert(before: set<Key>, after: set<Key>, seen: bool, due: seq<Key>)

  datatype Handed = Handed(pass: nat, key: Key)

  datatype System = System(table: Table, workers: map<nat, Worker>, inserts: seq<Insert>, log: seq<Handed>)

  datatype Step =
    | Check(w: nat, p: nat, batch: seq<Message>)   // a worker's bulk check of a batch of partition p
    | Commit(w: nat)                               // the insert transaction commits
    | CommitUnseen(w: nat)                         // it commits, but the worker sees an error and stops
    | Handle(w: nat)                               // the next message goes to the processor
    | Stop(w: nat)                                 // rollback, crash, rebalance, or the batch is done

  function Keys(t: Table): set<Key> {
    set id | id in t :: RowKey(t[id])
  }

  function KeysOf(ms: seq<Message>): (r: seq<Key>)
    ensures |r| == |ms| && forall i :: 0 <= i < |ms| ==> r[i] == KeyOf(ms[i])
  {
    seq(|ms|, i requires 0 <= i < |ms| => KeyOf(ms[i]))
  }

  ghost predicate Enabled(g: Group, sys: System, step: Step) {
    match step
    case Check(w, p, batch) =>
      && w !in sys.workers && (forall m :: m in batch ==> g.partition(m) == Some(p))
      && (g.overlap || forall v :: v in sys.workers ==> sys.workers[v].partition != p)
    case Commit(w) => w in sys.workers && sys.workers[w].Checked?
    case CommitUnseen(w) => w in sys.workers && sys.workers[w].Checked?
    case Handle(w) => w in sys.workers && sys.workers[w].Processing? && sys.workers[w].todo != []
    case Stop(w) => w in sys.workers
  }

  function Inserting(sys: System, w: nat, seen: bool): System
    requires w in sys.workers && sys.workers[w].Checked?
  {
    var t' := InsertAll(sys.table, sys.workers[w].added).0;
    sys.(table := t', inserts := sys.inserts + [Insert(Keys(sys.table), Keys(t'), seen, KeysOf(sys.workers[w].todo))])
  }

  function Started(sys: System, w: nat): Worker
    requires w in sys.workers && sys.workers[w].Checked?
  {
    Processing(sys.workers[w].partition, |sys.inserts|, sys.workers[w].todo)
  }

  ghost function Apply(g: Group, sys: System, step: Step): System {
    if !Enabled(g, sys, step) then sys else
    match step
    case Check(w, p, batch) =>
      sys.(workers := sys.workers[w := Checked(p, Chosen(sys.table, batch, batch, false),
                                               Unskipped(batch, SkippedIds(sys.table, batch)))])
    case Commit(w) => Inserting(sys, w, true).(workers := sys.workers[w := Started(sys, w)])
    case CommitUnseen(w) => Inserting(sys, w, false).(workers := sys.workers - {w})
    case Handle(w) =>
      var v := sys.workers[w];
      sys.(workers := sys.workers[w := v.(todo := v.todo[1..])], log := sys.log + [Handed(v.pass, KeyOf(v.todo[0]))])
    case Stop(w) => sys.(workers := sys.workers - {w})
  }

  ghost function After(g: Group, sys: System, steps: seq<Step>): System {
    if steps == [] then sys else Apply(g, After(g, sys, steps[..|steps| - 1]), steps[|steps| - 1])
  }

  function Start(t: Table): System {
    System(t, map[], [], [])
  }

  /** Once a row for a key is committed, no later insert is followed by handing
      that key to the processor; what one pass stored, every later pass finds. */
  ghost predicate Safe(sys: System) {
    && (forall h :: h in sys.log ==>
                      h.pass < |sys.inserts| && h.key !in sys.inserts[h.pass].before && sys.inserts[h.pass].seen)
    && (forall n, n' :: 0 <= n < n' < |sys.inserts| ==> sys.inserts[n].after <= sys.inserts[n'].before)
  }

  /** Of the messages that arrive, those with one key are always in one partition,
      and different keys that read the same never are. */
  ghost predicate PartitionTellsKeys(g: Group) {
    forall m1: Message, m2: Message ::
      g.partition(m1).Some? && g.partition(m2).Some? && KeyOf(m1).Text() == KeyOf(m2).Text()
      ==> (g.partition(m1) == g.partition(m2) <==> KeyOf(m1) == KeyOf(m2))
  }

  ghost predicate OnePartitionPerKey(g: Group) {
    forall m1: Message, m2: Message ::
      g.partition(m1).Some? && g.partition(m2).Some? && KeyOf(m1) == KeyOf(m2) ==> g.partition(m1) == g.partition(m2)
  }

  /** No message with a colon in its tenant id arrives. */
  ghost predicate ColonFreeArrivals(g: Group) {
    forall m: Message :: g.partition(m).Some? ==> ColonFree(m.tenantId)
  }

  ghost predicate NothingArrives(g: Group) {
    forall m: Message :: g.partition(m).None?
  }

  /** A partition tells the key, and has one live worker at a time. */
  ghost predicate Orderly(g: Group) {
    PartitionTellsKeys(g) && (g.overlap ==> NothingArrives(g))
  }

  // ------------------------------------------------------------------- invariant

  ghost predicate Waiting(g: Group, sys: System, p: nat, m: Message) {
    g.partition(m) == Some(p) && KeyOf(m) !in Keys(sys.table)
  }

  ghost predicate WorkerOk(g: Group, sys: System, v: Worker) {
    match v
    case Checked(p, added, todo) =>
      && (forall m :: m in added ==> Waiting(g, sys, p, m))
      && (forall m :: m in todo ==> Waiting(g, sys, p, m))
    case Processing(_, pass, todo) =>
      && pass < |sys.inserts| && sys.inserts[pass].seen
      && forall m :: m in todo ==> KeyOf(m) !in sys.inserts[pass].before
  }

  /** Without overlap, live workers have different partitions. */
  ghost predicate Exclusive(g: Group, sys: System) {
    g.overlap || forall v, w :: v in sys.workers && w in sys.workers && v != w
                                ==> sys.workers[v].partition != sys.workers[w].partition
  }

  ghost predicate Inv(g: Group, sys: System) {
    && Exclusive(g, sys)
    && (forall w :: w in sys.workers ==> WorkerOk(g, sys, sys.workers[w]))
    && Safe(sys)
    && (forall n :: 0 <= n < |sys.inserts| ==> sys.inserts[n].after <= Keys(sys.table))
  }

  lemma {:induction false} InsertedKeys(t: Table, ms: seq<Message>)
    ensures Keys(t) <= Keys(InsertAll(t, ms).0)
    ensures forall k :: k in Keys(InsertAll(t, ms).0) ==> k in Keys(t) || exists m :: m in ms && KeyOf(m) == k
  {
    if ms == [] {
    } else {
      var front, m := ms[..|ms| - 1], ms[|ms| - 1];
      InsertedKeys(t, front);
      var t1, t' := InsertAll(t, front).0, InsertAll(t, ms).0;
      assert ms == front + [m];
      forall k | k in Keys(t1) ensures k in Keys(t') {
        var id :| id in t1 && RowKey(t1[id]) == k;
        assert id in t' && RowKey(t'[id]) == k;
      }
      forall k | k in Keys(t') ensures k in Keys(t1) || k == KeyOf(m) {
        var id :| id in t' && RowKey(t'[id]) == k;
        assert id in t1 ==> RowKey(t1[id]) == k;
      }
      assert m in ms;
    }
  }

  lemma KeysIffHasKey(t: Table, k: Key)
    ensures k in Keys(t) <==> HasKey(t, k)
  {
  }

  /** Within one partition the first key with a text is the message's own. */
  lemma FirstOfPartition(g: Group, p: nat, batch: seq<Message>, m: Message)
    requires PartitionTellsKeys(g) && m in batch && forall m :: m in batch ==> g.partition(m) == Some(p)
    ensures First(batch, KeyOf(m).Text()) == Some(KeyOf(m))
  {
    FirstInBatch(batch, m);
    var m' :| m' in batch && KeyOf(m') == First(batch, KeyOf(m).Text()).value;
    assert g.partition(m') == g.partition(m);
  }

  lemma CheckedWaits(g: Group, sys: System, p: nat, batch: seq<Message>)
    requires PartitionTellsKeys(g) && forall m :: m in batch ==> g.partition(m) == Some(p)
    ensures forall m :: m in Chosen(sys.table, batch, batch, false) ==> Waiting(g, sys, p, m)
    ensures forall m :: m in Unskipped(batch, SkippedIds(sys.table, batch)) ==> Waiting(g, sys, p, m)
  {
    forall m | m in batch && !Known(sys.table, batch, m) ensures Waiting(g, sys, p, m) {
      FirstOfPartition(g, p, batch, m);
      KeysIffHasKey(sys.table, KeyOf(m));
    }
    forall m | m in Unskipped(batch, SkippedIds(sys.table, batch)) ensures !Known(sys.table, batch, m) {
      assert m in Chosen(sys.table, batch, batch, true) ==> m.messageId in SkippedIds(sys.table, batch);
    }
  }

  /** An insert stores keys of its own partition only, so it takes none that
      another worker is waiting to store. */
  lemma InsertSpares(g: Group, sys: System, w: nat, v: nat, m: Message)
    requires Orderly(g) && Exclusive(g, sys) && w in sys.workers && v in sys.workers && w != v
    requires sys.workers[w].Checked? && WorkerOk(g, sys, sys.workers[w])
    requires Waiting(g, sys, sys.workers[v].partition, m)
    ensures KeyOf(m) !in Keys(InsertAll(sys.table, sys.workers[w].added).0)
  {
    InsertedKeys(sys.table, sys.workers[w].added);
    assert !g.overlap;
  }

  lemma InsertKeeps(g: Group, sys: System, sys': System, w: nat, seen: bool)
    requires Orderly(g) && Inv(g, sys) && w in sys.workers && sys.workers[w].Checked?
    requires sys' == Inserting(sys, w, seen).(workers := sys'.workers)
    requires sys'.workers == if seen then sys.workers[w := Started(sys, w)] else sys.workers - {w}
    ensures Inv(g, sys')
  {
    assert WorkerOk(g, sys, sys.workers[w]);
    InsertedKeys(sys.table, sys.workers[w].added);
    forall v | v in sys'.workers ensures WorkerOk(g, sys', sys'.workers[v]) {
      if v != w {
        assert WorkerOk(g, sys, sys.workers[v]);
        if sys.workers[v].Checked? {
          forall m | Waiting(g, sys, sys.workers[v].partition, m)
            ensures Waiting(g, sys', sys.workers[v].partition, m)
          {
            InsertSpares(g, sys, w, v, m);
          }
        }
      }
    }
  }

  lemma CheckKeeps(g: Group, sys: System, step: Step)
    requires Orderly(g) && Inv(g, sys) && step.Check? && Enabled(g, sys, step)
    ensures Inv(g, Apply(g, sys, step))
  {
    var sys' := Apply(g, sys, step);
    CheckedWaits(g, sys, step.p, step.batch);
    forall v | v in sys'.workers ensures WorkerOk(g, sys', sys'.workers[v]) {
      assert v != step.w ==> WorkerOk(g, sys, sys.workers[v]);
    }
  }

  lemma HandleKeeps(g: Group, sys: System, w: nat)
    requires Inv(g, sys) && Enabled(g, sys, Handle(w))
    ensures Inv(g, Apply(g, sys, Handle(w)))
  {
    var sys' := Apply(g, sys, Handle(w));
    assert WorkerOk(g, sys, sys.workers[w]) && sys.workers[w].todo[0] in sys.workers[w].todo;
    forall v | v in sys'.workers ensures WorkerOk(g, sys', sys'.workers[v]) {
      assert WorkerOk(g, sys, sys.workers[v]);
    }
  }

  lemma StepKeeps(g: Group, sys: System, step: Step)
    requires Orderly(g) && Inv(g, sys)
    ensures Inv(g, Apply(g, sys, step))
  {
    if Enabled(g, sys, step) {
      var sys' := Apply(g, sys, step);
      match step {
        case Check(_, _, _) => CheckKeeps(g, sys, step);
        case Commit(w) => InsertKeeps(g, sys, sys', w, true);
        case CommitUnseen(w) => InsertKeeps(g, sys, sys', w, false);
        case Handle(w) => HandleKeeps(g, sys, w);
        case Stop(w) =>
          forall v | v in sys'.workers ensures WorkerOk(g, sys', sys'.workers[v]) {
            assert WorkerOk(g, sys, sys.workers[v]);
          }
      }
    }
  }

  lemma {:induction false} InvAlways(g: Group, t: Table, steps: seq<Step>)
    requires Orderly(g)
    ensures Inv(g, After(g, Start(t), steps))
  {
    if steps == [] {
    } else {
      InvAlways(g, t, steps[..|steps| - 1]);
      StepKeeps(g, After(g, Start(t), steps[..|steps| - 1]), steps[|steps| - 1]);
    }
  }

  // ---------------------------------------------------------------- unsafe runs

  lemma AfterSnoc(g: Group, sys: System, steps: seq<Step>, step: Step)
    ensures After(g, sys, steps + [step]) == Apply(g, After(g, sys, steps), step)
  {
    assert (steps + [step])[..|steps|] == steps;
  }

  /** Two workers check before either inserts; both then process the key. */
  function RacingRun(p1: nat, m1: Message, p2: nat, m2: Message): seq<Step> {
    [Check(1, p1, [m1])] + [Check(2, p2, [m2])] + [Commit(1)] + [Commit(2)] + [Handle(2)]
  }

  lemma CheckOne(g: Group, sys: System, w: nat, p: nat, m: Message)
    requires sys.table == map[] && Enabled(g, sys, Check(w, p, [m]))
    ensures Apply(g, sys, Check(w, p, [m])) == sys.(workers := sys.workers[w := Checked(p, [m], [m])])
  {
    var s := State(map[], [], [], map[], map[], [], [], []);
    OnlyMessage(s, m);
    assert NewOnes(s, [m]) == Chosen(map[], [m], [m], false);
    UnskippedSnoc([], m, {});
    assert [] + [m] == [m];
  }

  lemma InsertOne(m: Message)
    ensures InsertAll(map[], [m]).0 == map[m.messageId := NewRow(m)]
    ensures KeyOf(m) in Keys(InsertAll(map[], [m]).0)
  {
    InsertSnoc(map[], [], m);
    assert [] + [m] == [m];
    var t := InsertAll(map[], [m]).0;
    assert m.messageId in t && RowKey(t[m.messageId]) == KeyOf(m);
  }

  lemma RaceAfterChecks(g: Group, sys: System, p1: nat, m1: Message, p2: nat, m2: Message)
    requires KeyOf(m1) == KeyOf(m2)
    requires sys == System(map[], map[1 := Checked(p1, [m1], [m1])][2 := Checked(p2, [m2], [m2])], [], [])
    ensures !Safe(Apply(g, Apply(g, Apply(g, sys, Commit(1)), Commit(2)), Handle(2)))
  {
    var s3 := Apply(g, sys, Commit(1));
    InsertOne(m1);
    assert KeyOf(m2) in Keys(s3.table) && s3.workers[2] == Checked(p2, [m2], [m2]);
    var s4 := Apply(g, s3, Commit(2));
    assert |s4.inserts| == 2 && s4.inserts[1].before == Keys(s3.table) && s4.workers[2] == Processing(p2, 1, [m2]);
    var s5 := Apply(g, s4, Handle(2));
    assert s5.log == s4.log + [Handed(1, KeyOf(m2))] && s5.inserts == s4.inserts;
    assert Handed(1, KeyOf(m2)) in s5.log;
  }

  /** The race needs two partitions, or two live workers of one. */
  lemma RacingRunUnsafe(g: Group, p1: nat, m1: Message, p2: nat, m2: Message)
    requires KeyOf(m1) == KeyOf(m2) && g.partition(m1) == Some(p1) && g.partition(m2) == Some(p2)
    requires p1 != p2 || g.overlap
    ensures !Safe(After(g, Start(map[]), RacingRun(p1, m1, p2, m2)))
  {
    var s0 := Start(map[]);
    CheckOne(g, s0, 1, p1, m1);
    var s1 := Apply(g, s0, Check(1, p1, [m1]));
    CheckOne(g, s1, 2, p2, m2);
    RaceAfterChecks(g, Apply(g, s1, Check(2, p2, [m2])), p1, m1, p2, m2);
    var check := [Check(1, p1, [m1])];
    AfterSnoc(g, s0, [], Check(1, p1, [m1]));
    assert [] + [Check(1, p1, [m1])] == check;
    AfterSnoc(g, s0, check, Check(2, p2, [m2]));
    AfterSnoc(g, s0, check + [Check(2, p2, [m2])], Commit(1));
    AfterSnoc(g, s0, check + [Check(2, p2, [m2])] + [Commit(1)], Commit(2));
    AfterSnoc(g, s0, check + [Check(2, p2, [m2])] + [Commit(1)] + [Commit(2)], Handle(2));
  }

  /** One worker's batch holds two keys that read the same, the second one stored. */
  function CollidingRun(p: nat, m1: Message, m2: Message): seq<Step> {
    [Check(1, p, [m1, m2])] + [Commit(1)] + [Handle(1)] + [Handle(1)]
  }

  lemma CheckColliding(g: Group, sys: System, p: nat, m1: Message, m2: Message)
    requires Enabled(g, sys, Check(1, p, [m1, m2]))
    requires KeyOf(m1).Text() == KeyOf(m2).Text() && !HasKey(sys.table, KeyOf(m1))
    ensures Apply(g, sys, Check(1, p, [m1, m2])) ==
            sys.(workers := sys.workers[1 := Checked(p, [m1, m2], [m1, m2])])
  {
    var s := State(sys.table, [], [], map[], map[], [], [], []);
    TwoOfAText(s, m1, m2);
    assert NewOnes(s, [m1, m2]) == Chosen(sys.table, [m1, m2], [m1, m2], false);
    UnskippedSnoc([], m1, {});
    UnskippedSnoc([m1], m2, {});
    assert [] + [m1] == [m1] && [m1] + [m2] == [m1, m2];
  }

  lemma CollideAfterCheck(g: Group, sys: System, p: nat, m1: Message, m2: Message)
    requires sys == System(sys.table, map[1 := Checked(p, [m1, m2], [m1, m2])], [], []) && KeyOf(m2) in Keys(sys.table)
    ensures !Safe(Apply(g, Apply(g, Apply(g, sys, Commit(1)), Handle(1)), Handle(1)))
  {
    var s2 := Apply(g, sys, Commit(1));
    assert s2.workers[1] == Processing(p, 0, [m1, m2]) && s2.inserts[0].before == Keys(sys.table);
    var s3 := Apply(g, s2, Handle(1));
    assert [m1, m2][1..] == [m2];
    assert s3.workers[1] == Processing(p, 0, [m2]) && s3.inserts == s2.inserts;
    var s4 := Apply(g, s3, Handle(1));
    assert s4.log == s3.log + [Handed(0, KeyOf(m2))] && s4.inserts == s2.inserts;
    assert Handed(0, KeyOf(m2)) in s4.log;
  }

  lemma CollidingRunUnsafe(g: Group, p: nat, m1: Message, m2: Message)
    requires g.partition(m1) == Some(p) && g.partition(m2) == Some(p)
    requires KeyOf(m1).Text() == KeyOf(m2).Text() && KeyOf(m1) != KeyOf(m2)
    ensures !Safe(After(g, Start(map["id" := NewRow(m2)]), CollidingRun(p, m1, m2)))
  {
    var s0 := Start(map["id" := NewRow(m2)]);
    assert "id" in s0.table && RowKey(s0.table["id"]) == KeyOf(m2);
    CheckColliding(g, s0, p, m1, m2);
    CollideAfterCheck(g, Apply(g, s0, Check(1, p, [m1, m2])), p, m1, m2);
    var check := [Check(1, p, [m1, m2])];
    AfterSnoc(g, s0, [], Check(1, p, [m1, m2]));
    assert [] + [Check(1, p, [m1, m2])] == check;
    AfterSnoc(g, s0, check, Commit(1));
    AfterSnoc(g, s0, check + [Commit(1)], Handle(1));
    AfterSnoc(g, s0, check + [Commit(1)] + [Handle(1)], Handle(1));
  }

  // ---------------------------------------------------------------- main results

  ghost predicate AlwaysSafe(g: Group) {
    forall t, steps :: Safe(After(g, Start(t), steps))
  }

  /** Across every interleaving, crash, rollback and replay, a stored key is never
      handed to the processor again, exactly when, among keys that read the same, the
      partition of a message tells its key, and no partition has two live workers
      (unless nothing arrives at all). */
  lemma SafeIffOrderly(g: Group)
    ensures AlwaysSafe(g) <==> PartitionTellsKeys(g) && (!g.overlap || NothingArrives(g))
  {
    if Orderly(g) {
      forall t, steps ensures Safe(After(g, Start(t), steps)) {
        InvAlways(g, t, steps);
      }
    } else if !PartitionTellsKeys(g) {
      var m1: Message, m2: Message :|
        g.partition(m1).Some? && g.partition(m2).Some? && KeyOf(m1).Text() == KeyOf(m2).Text()
        && !(g.partition(m1) == g.partition(m2) <==> KeyOf(m1) == KeyOf(m2));
      var p1, p2 := g.partition(m1).value, g.partition(m2).value;
      if p1 == p2 {
        CollidingRunUnsafe(g, p1, m1, m2);
      } else {
        RacingRunUnsafe(g, p1, m1, p2, m2);
      }
    } else {
      var m: Message :| g.partition(m).Some?;
      RacingRunUnsafe(g, g.partition(m).value, m, g.partition(m).value, m);
    }
  }

  /** For tenant ids without colons, and one live worker per partition: exactly when
      each (tenant, idempotency key) stays in one partition. */
  lemma SafeIffOnePartitionPerKey(g: Group)
    requires ColonFreeArrivals(g) && !g.overlap
    ensures AlwaysSafe(g) <==> OnePartitionPerKey(g)
  {
    SafeIffOrderly(g);
    forall m1: Message, m2: Message |
      g.partition(m1).Some? && g.partition(m2).Some? && KeyOf(m1).Text() == KeyOf(m2).Text()
      ensures KeyOf(m1) == KeyOf(m2)
    {
      TenantKeyInjective(m1.tenantId, m1.idempotencyKey, m2.tenantId, m2.idempotencyKey);
    }
  }

  /** So at most one pass both stored a key and processed it: no pass after the one
      that stored it hands it over. */
  lemma StoredKeyHandedByStorer(g: Group, t: Table, steps: seq<Step>, n: nat, h: Handed)
    requires Orderly(g)
    requires var sys := After(g, Start(t), steps);
             h in sys.log && n < |sys.inserts| && h.key in sys.inserts[n].after
    ensures h.pass <= n
    ensures h.key in After(g, Start(t), steps).inserts[n].before ==> h.pass < n
  {
    InvAlways(g, t, steps);
  }

  /** And when the worker did not see its commit, not even that pass does: a key
      stored so is never handed over from then on. */
  lemma UnseenKeyIsStranded(g: Group, t: Table, steps: seq<Step>, n: nat, h: Handed)
    requires Orderly(g)
    requires var sys := After(g, Start(t), steps);
             h in sys.log && n < |sys.inserts| && h.key in sys.inserts[n].after && !sys.inserts[n].seen
    ensures h.pass < n
  {
    InvAlways(g, t, steps);
  }

  // ------------------------------------------------------------------- order

  /** What a check decides: a message is new when no row has its key, or rather the
      first key of the batch with its text, and it is due unless a message with its id
      was found. */
  lemma CheckTells(g: Group, sys: System, w: nat, p: nat, batch: seq<Message>, m: Message)
    requires Enabled(g, sys, Check(w, p, batch))
    ensures var v := Apply(g, sys, Check(w, p, batch)).workers[w];
            && v.Checked? && v.partition == p
            && (m in v.added <==> m in batch && !Known(sys.table, batch, m))
            && (m in v.todo <==> m in batch && forall x :: x in batch && x.messageId == m.messageId
                                                           ==> !Known(sys.table, batch, x))
    ensures var checked := Apply(g, sys, Check(w, p, batch));
            Apply(g, checked, Commit(w)).inserts == sys.inserts +
            [Insert(Keys(sys.table), Keys(InsertAll(sys.table, checked.workers[w].added).0), true,
                    KeysOf(checked.workers[w].todo))]
  {
    if m in batch {
      forall x | x in batch && x.messageId == m.messageId && Known(sys.table, batch, x)
        ensures m.messageId in SkippedIds(sys.table, batch)
      {
        assert x in Chosen(sys.table, batch, batch, true);
      }
    }
  }

  /** The keys a pass has handed over, in order. */
  function HandedBy(log: seq<Handed>, n: nat): seq<Key> {
    if log == [] then []
    else
      var front, h := HandedBy(log[..|log| - 1], n), log[|log| - 1];
      if h.pass == n then front + [h.key] else front
  }

  lemma HandedBySnoc(log: seq<Handed>, h: Handed, n: nat)
    ensures HandedBy(log + [h], n) == if h.pass == n then HandedBy(log, n) + [h.key] else HandedBy(log, n)
  {
    assert (log + [h])[..|log|] == log;
  }

  lemma {:induction false} NoneHanded(log: seq<Handed>, n: nat)
    requires forall h :: h in log ==> h.pass < n
    ensures HandedBy(log, n) == []
  {
    if log == [] {
    } else {
      assert log[|log| - 1] in log;
      NoneHanded(log[..|log| - 1], n);
    }
  }

  predicate SamePass(v: Worker, w: Worker) {
    v.Processing? && w.Processing? && v.pass == w.pass
  }

  /** Live workers have passes of their own, and what they handed over and have still to
      hand over is what was due. */
  ghost predicate InTurn(sys: System) {
    && (forall h :: h in sys.log ==> h.pass < |sys.inserts|)
    && (forall n :: 0 <= n < |sys.inserts| ==> HandedBy(sys.log, n) <= sys.inserts[n].due)
    && (forall w :: w in sys.workers && sys.workers[w].Processing? ==>
                      sys.workers[w].pass < |sys.inserts|
                      && HandedBy(sys.log, sys.workers[w].pass) + KeysOf(sys.workers[w].todo) ==
                         sys.inserts[sys.workers[w].pass].due)
    && (forall v, w :: v in sys.workers && w in sys.workers && SamePass(sys.workers[v], sys.workers[w]) ==> v == w)
  }

  /** One worker hands over its next message. */
  lemma HandedNext(log: seq<Handed>, pass: nat, todo: seq<Message>, due: seq<Key>)
    requires todo != [] && HandedBy(log, pass) + KeysOf(todo) == due
    ensures var log' := log + [Handed(pass, KeyOf(todo[0]))];
            && HandedBy(log', pass) + KeysOf(todo[1..]) == due && HandedBy(log', pass) <= due
            && forall n :: n != pass ==> HandedBy(log', n) == HandedBy(log, n)
  {
    var h, before, rest := Handed(pass, KeyOf(todo[0])), HandedBy(log, pass), KeysOf(todo[1..]);
    assert KeysOf(todo) == [h.key] + rest;
    assert before + ([h.key] + rest) == (before + [h.key]) + rest;
    HandedBySnoc(log, h, pass);
    forall n | n != pass ensures HandedBy(log + [h], n) == HandedBy(log, n) {
      HandedBySnoc(log, h, n);
    }
  }

  lemma HandleInTurn(g: Group, sys: System, w: nat)
    requires InTurn(sys) && Enabled(g, sys, Handle(w))
    ensures InTurn(Apply(g, sys, Handle(w)))
  {
    var v := sys.workers[w];
    HandedNext(sys.log, v.pass, v.todo, sys.inserts[v.pass].due);
  }

  lemma InsertInTurn(sys: System, w: nat, seen: bool)
    requires InTurn(sys) && w in sys.workers && sys.workers[w].Checked?
    ensures InTurn(Inserting(sys, w, seen).(workers := sys.workers - {w}))
    ensures InTurn(Inserting(sys, w, seen).(workers := sys.workers[w := Started(sys, w)]))
  {
    NoneHanded(sys.log, |sys.inserts|);
  }

  lemma {:induction false} InTurnAlways(g: Group, t: Table, steps: seq<Step>)
    ensures InTurn(After(g, Start(t), steps))
  {
    if steps == [] {
    } else {
      var sys, step := After(g, Start(t), steps[..|steps| - 1]), steps[|steps| - 1];
      InTurnAlways(g, t, steps[..|steps| - 1]);
      if Enabled(g, sys, step) {
        match step {
          case Commit(w) => InsertInTurn(sys, w, true);
          case CommitUnseen(w) => InsertInTurn(sys, w, false);
          case Handle(w) => HandleInTurn(g, sys, w);
          case _ =>
        }
      }
    }
  }

  /** In every run a pass hands its messages over in batch order, each once, however
      other workers' steps come in between; when it stops, it has handed over a first
      part of them. */
  lemma HandsInOrder(g: Group, t: Table, steps: seq<Step>, n: nat)
    requires n < |After(g, Start(t), steps).inserts|
    ensures var sys := After(g, Start(t), steps); HandedBy(sys.log, n) <= sys.inserts[n].due
  {
    InTurnAlways(g, t, steps);
  }

  /** The router keys its events by user and puts each channel on its own topic.
      A partitioning that looks only at those two, and tells any two of them apart,
      does not keep a key in one partition. */
  lemma PartitioningByUser(g: Group, byUser: (Channel, string) -> nat, c1: Channel, u1: string, c2: Channel, u2: string)
    requires forall m :: g.partition(m) == if ColonFree(m.tenantId) then Some(byUser(m.channel, m.userId)) else None
    requires byUser(c1, u1) != byUser(c2, u2)
    ensures !OnePartitionPerKey(g) && !AlwaysSafe(g)
  {
    var m1 := Message("a", "t", "k", "d1", u1, c1, "r", "b", 0);
    var m2 := Message("b", "t", "k", "d2", u2, c2, "r", "b", 0);
    assert KeyOf(m1) == KeyOf(m2) && g.partition(m1) != g.partition(m2);
    SafeIffOrderly(g);
  }
}
