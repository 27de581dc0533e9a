/** BatchIdempotencyService: one bulk query splits a batch into new and
    duplicate messages, and one transaction inserts the new ones. */
module Batch {
  import opened Wrappers
  import opened Text
  import opened Store

  type Table = map<string, Row>

  datatype Key = Key(tenantId: string, idempotencyKey: string) {
    function Text(): string { TenantKey(tenantId, idempotencyKey) }
  }

  function KeyOf(m: Message): Key { Key(m.tenantId, m.idempotencyKey) }
  function RowKey(r: Row): Key { Key(r.tenantId, r.idempotencyKey) }

  /** A row of the bulk query's result. */
  datatype Found = Found(key: Key, messageId: string, status: Status)

  datatype Duplicate = Duplicate(messageId: string, idempotencyKey: string, status: Status, existing: string)

  datatype Split = Split(newMessages: seq<Message>, duplicates: seq<Duplicate>, totalProcessed: nat)

  /** UNIQUE (tenantId, idempotencyKey) */
  ghost predicate UniqueKeys(t: Table) {
    forall i, j :: i in t && j in t && RowKey(t[i]) == RowKey(t[j]) ==> i == j
  }

  /** UNIQUE dedupKey */
  ghost predicate UniqueDedup(t: Table) {
    forall i, j :: i in t && j in t && t[i].dedupKey == t[j].dedupKey ==> i == j
  }

  // ------------------------------------------------------------- specification

  /** What asking the database for one key finds. */
  ghost predicate HasKey(t: Table, key: Key) {
    exists id :: id in t && RowKey(t[id]) == key
  }

  predicate IsRowOf(t: Table, f: Found) {
    f.messageId in t && RowKey(t[f.messageId]) == f.key && f.status == t[f.messageId].status
  }

  /** The key of the first message of the batch whose key has this text. */
  function First(messages: seq<Message>, text: string): (k: Option<Key>)
    ensures k.Some? ==> k.value.Text() == text && exists m :: m in messages && KeyOf(m) == k.value
    ensures k.None? ==> forall m :: m in messages ==> KeyOf(m).Text() != text
  {
    if messages == [] then None
    else
      var front := First(messages[..|messages| - 1], text);
      var m := messages[|messages| - 1];
      if front.Some? then front else if KeyOf(m).Text() == text then Some(KeyOf(m)) else None
  }

  /** One key for each text that occurs: the keys the bulk query asks for. */
  function Firsts(messages: seq<Message>): seq<Key> {
    if messages == [] then []
    else
      var front, m := messages[..|messages| - 1], messages[|messages| - 1];
      if First(front, KeyOf(m).Text()).None? then Firsts(front) + [KeyOf(m)] else Firsts(front)
  }

  function Texts(messages: seq<Message>): set<string> {
    set m | m in messages :: KeyOf(m).Text()
  }

  lemma OneMoreKey(front: seq<Message>, m: Message)
    ensures Texts(front + [m]) == Texts(front) + {KeyOf(m).Text()}
    ensures Firsts(front + [m]) == if KeyOf(m).Text() in Texts(front) then Firsts(front) else Firsts(front) + [KeyOf(m)]
  {
  }

  lemma {:induction false} FirstsAreFirst(messages: seq<Message>, k: Key)
    ensures k in Firsts(messages) <==> First(messages, k.Text()) == Some(k)
  {
    if messages == [] {
    } else {
      FirstsAreFirst(messages[..|messages| - 1], k);
    }
  }

  /** No text is asked for twice. */
  lemma {:induction false} FirstsDiffer(messages: seq<Message>)
    ensures var ks := Firsts(messages); forall i, j :: 0 <= i < j < |ks| ==> ks[i].Text() != ks[j].Text()
  {
    if messages == [] {
    } else {
      var front, m := messages[..|messages| - 1], messages[|messages| - 1];
      var ks := Firsts(front);
      FirstsDiffer(front);
      if First(front, KeyOf(m).Text()).None? {
        forall i | 0 <= i < |ks| ensures ks[i].Text() != KeyOf(m).Text() {
          FirstsAreFirst(front, ks[i]);
        }
      }
    }
  }

  /** The bulk check looks up not the message's own key but the first key of the
      batch with the same text. */
  ghost predicate Known(t: Table, batch: seq<Message>, m: Message) {
    var k := First(batch, KeyOf(m).Text());
    k.Some? && HasKey(t, k.value)
  }

  /** The messages of `part` the check finds, or does not find, in batch order. */
  ghost function Chosen(t: Table, batch: seq<Message>, part: seq<Message>, known: bool): (r: seq<Message>)
    ensures forall m :: m in r <==> m in part && Known(t, batch, m) == known
  {
    if part == [] then []
    else
      var front, m := Chosen(t, batch, part[..|part| - 1], known), part[|part| - 1];
      if Known(t, batch, m) == known then front + [m] else front
  }

  /** A duplicate entry names the message, and the row found for it. */
  ghost predicate Reports(t: Table, batch: seq<Message>, m: Message, d: Duplicate) {
    && d.messageId == m.messageId && d.idempotencyKey == m.idempotencyKey
    && var k := First(batch, KeyOf(m).Text());
    k.Some? && IsRowOf(t, Found(k.value, d.existing, d.status))
  }

  ghost predicate ReportsAll(t: Table, batch: seq<Message>, ms: seq<Message>, ds: seq<Duplicate>) {
    |ds| == |ms| && forall i :: 0 <= i < |ds| ==> Reports(t, batch, ms[i], ds[i])
  }

  function DuplicateOf(m: Message, f: Found): Duplicate {
    Duplicate(m.messageId, m.idempotencyKey, f.status, f.messageId)
  }

  /** The lookup map answers for the message as `Known` and `Reports` say. */
  ghost predicate IndexTells(t: Table, batch: seq<Message>, index: map<string, Found>, m: Message) {
    && (KeyOf(m).Text() in index <==> Known(t, batch, m))
    && (KeyOf(m).Text() in index ==> Reports(t, batch, m, DuplicateOf(m, index[KeyOf(m).Text()])))
  }

  ghost predicate Indexes(t: Table, batch: seq<Message>, index: map<string, Found>) {
    forall m :: m in batch ==> IndexTells(t, batch, index, m)
  }

  datatype Inserted = Inserted(messageId: string, inserted: bool)   // IN_PROGRESS, or SKIPPED_DUP

  function NewRow(m: Message): Row {
    Row(m.tenantId, m.idempotencyKey, m.dedupKey, m.userId, m.channel, m.recipient, m.body, IN_PROGRESS, false, 0)
  }

  /** The statement fails with ER_DUP_ENTRY: one of the three unique keys is taken. */
  predicate Clashes(t: Table, m: Message) {
    m.messageId in t || exists id :: id in t && (RowKey(t[id]) == KeyOf(m) || t[id].dedupKey == m.dedupKey)
  }

  function InsertAll(t: Table, ms: seq<Message>): (Table, seq<Inserted>) {
    if ms == [] then (t, [])
    else
      var (t1, results) := InsertAll(t, ms[..|ms| - 1]);
      var m := ms[|ms| - 1];
      if Clashes(t1, m) then (t1, results + [Inserted(m.messageId, false)])
      else (t1[m.messageId := NewRow(m)], results + [Inserted(m.messageId, true)])
  }

  // ------------------------------------------------------------------- class

  class BatchIdempotencyService {
    const db: Backend

    constructor (db: Backend)
      ensures this.db == db
    {
      this.db := db;
    }

    method CheckBatchIdempotency(messages: seq<Message>, o: Outcome) returns (threw: bool, r: Split)
      ensures threw == (messages != [] && o.Throws())
      ensures !threw ==>
                && r.newMessages == Chosen(db.rows, messages, messages, false)
                && ReportsAll(db.rows, messages, Chosen(db.rows, messages, messages, true), r.duplicates)
                && r.totalProcessed == |messages|
    {
      if |messages| == 0 {
        return false, Split([], [], 0);
      }
      var uniqueKeys := ExtractUniqueIdempotencyKeys(messages);
      if o.Throws() {
        return true, Split([], [], 0);
      }
      var existing := QueryExistingMessages(uniqueKeys);
      var existingMap := IndexByText(existing);
      forall msg | msg in messages ensures IndexTells(db.rows, messages, existingMap, msg) {
        MapTells(db.rows, messages, uniqueKeys, existing, existingMap, msg);
      }
      r := Partition(messages, existingMap);
      threw := false;
    }

    method Partition(messages: seq<Message>, existingMap: map<string, Found>) returns (r: Split)
      requires Indexes(db.rows, messages, existingMap)
      ensures r.newMessages == Chosen(db.rows, messages, messages, false)
      ensures ReportsAll(db.rows, messages, Chosen(db.rows, messages, messages, true), r.duplicates)
      ensures r.totalProcessed == |messages|
    {
      var newMessages, duplicates := [], [];
      for i := 0 to |messages|
        invariant SplitSoFar(db.rows, messages, messages[..i], newMessages, duplicates)
      {
        var msg := messages[i];
        var key := KeyOf(msg).Text();
        SplitSnoc(db.rows, messages, messages[..i], msg, newMessages, duplicates, existingMap);
        assert messages[..i + 1] == messages[..i] + [msg];
        if key in existingMap {
          duplicates := duplicates + [DuplicateOf(msg, existingMap[key])];
        } else {
          newMessages := newMessages + [msg];
        }
      }
      assert messages[..|messages|] == messages;
      r := Split(newMessages, duplicates, |messages|);
    }

    /** The lookup map, keyed by `${tenantId}:${idempotencyKey}`. */
    method IndexByText(existing: seq<Found>) returns (index: map<string, Found>)
      ensures forall s :: s in index ==> index[s] in existing && index[s].key.Text() == s
      ensures forall f :: f in existing ==> f.key.Text() in index
    {
      index := map[];
      for i := 0 to |existing|
        invariant forall s :: s in index ==> index[s] in existing[..i] && index[s].key.Text() == s
        invariant forall f :: f in existing[..i] ==> f.key.Text() in index
      {
        index := index[existing[i].key.Text() := existing[i]];
        assert existing[..i + 1] == existing[..i] + [existing[i]];
      }
      assert existing[..|existing|] == existing;
    }

    method ExtractUniqueIdempotencyKeys(messages: seq<Message>) returns (unique: seq<Key>)
      ensures unique == Firsts(messages)
      ensures forall i, j :: 0 <= i < j < |unique| ==> unique[i].Text() != unique[j].Text()
      ensures forall k :: k in unique <==> First(messages, k.Text()) == Some(k)
    {
      var seen: set<string> := {};
      unique := [];
      for i := 0 to |messages|
        invariant unique == Firsts(messages[..i])
        invariant seen == Texts(messages[..i])
      {
        var msg := messages[i];
        var key := KeyOf(msg).Text();
        assert messages[..i + 1] == messages[..i] + [msg];
        OneMoreKey(messages[..i], msg);
        if key !in seen {
          seen := seen + {key};
          unique := unique + [KeyOf(msg)];
        }
      }
      assert messages[..|messages|] == messages;
      FirstsDiffer(messages);
      forall k ensures k in unique <==> First(messages, k.Text()) == Some(k) {
        FirstsAreFirst(messages, k);
      }
    }

    /** SELECT ... WHERE (tenantId, idempotencyKey) IN (...) */
    method QueryExistingMessages(keys: seq<Key>) returns (rows: seq<Found>)
      ensures forall f :: f in rows <==> f.key in keys && IsRowOf(db.rows, f)
    {
      rows := [];
      var rest := db.rows.Keys;
      while rest != {}
        invariant rest <= db.rows.Keys
        invariant forall f :: f in rows <==> f.key in keys && IsRowOf(db.rows, f) && f.messageId !in rest
        decreases rest
      {
        var id :| id in rest;
        rest := rest - {id};
        var row := db.rows[id];
        if RowKey(row) in keys {
          rows := rows + [Found(RowKey(row), id, row.status)];
        }
      }
    }

    /** `begin`, `commit`: outcomes of the transaction statements.  `failAt`: the
        insert that fails for a reason other than a duplicate, if any. */
    method InsertNewMessagesInProgress(messages: seq<Message>, begin: Outcome, failAt: Option<nat>, commit: Outcome)
      returns (threw: bool, results: seq<Inserted>)
      modifies db
      ensures threw == (messages != [] &&
                        (begin.Throws() || (failAt.Some? && failAt.value < |messages|) || commit.Throws()))
      ensures !threw ==> results == InsertAll(old(db.rows), messages).1
      ensures var committed := begin.Done? && !(failAt.Some? && failAt.value < |messages|) && commit.Lands();
              db.Snapshot() == if committed
              then old(db.Snapshot()).(rows := InsertAll(old(db.rows), messages).0)
              else old(db.Snapshot())
    {
      results := [];
      if |messages| == 0 {
        return false, [];
      }
      if begin.Throws() {
        return true, [];
      }
      var pending := db.rows;
      for i := 0 to |messages|
        invariant (pending, results) == InsertAll(db.rows, messages[..i])
        invariant failAt.Some? ==> i <= failAt.value
        invariant db.Snapshot() == old(db.Snapshot())
      {
        if failAt.Some? && failAt.value == i {
          return true, [];
        }
        var msg := messages[i];
        assert messages[..i + 1][..i] == messages[..i];
        if Clashes(pending, msg) {
          results := results + [Inserted(msg.messageId, false)];
        } else {
          pending := pending[msg.messageId := NewRow(msg)];
          results := results + [Inserted(msg.messageId, true)];
        }
      }
      assert messages[..|messages|] == messages;
      if commit.Lands() {
        db.rows := pending;
      }
      threw := commit.Throws();
    }
  }

  /** The Map built from the query answers for the first key with the message's text. */
  lemma MapTells(t: Table, messages: seq<Message>, keys: seq<Key>, existing: seq<Found>,
                 index: map<string, Found>, msg: Message)
    requires forall k :: k in keys <==> First(messages, k.Text()) == Some(k)
    requires forall f :: f in existing <==> f.key in keys && IsRowOf(t, f)
    requires forall s :: s in index ==> index[s] in existing && index[s].key.Text() == s
    requires forall f :: f in existing ==> f.key.Text() in index
    requires msg in messages
    ensures IndexTells(t, messages, index, msg)
  {
    var text := KeyOf(msg).Text();
    var k := First(messages, text);
    if text in index {
      var f := index[text];
      assert f in existing && f.key in keys && IsRowOf(t, f);
      assert First(messages, f.key.Text()) == Some(f.key);
    }
    if Known(t, messages, msg) {
      var id :| id in t && RowKey(t[id]) == k.value;
      var f := Found(k.value, id, t[id].status);
      assert k.value in keys && f in existing;
    }
  }

  // -------------------------------------------- the bulk check and the plain lookup

  lemma FirstInBatch(batch: seq<Message>, m: Message)
    requires m in batch
    ensures First(batch, KeyOf(m).Text()).Some?
  {
  }

  /** The two lists after the messages of `front`. */
  ghost predicate SplitSoFar(t: Table, batch: seq<Message>, front: seq<Message>, news: seq<Message>,
                             ds: seq<Duplicate>) {
    news == Chosen(t, batch, front, false) && ReportsAll(t, batch, Chosen(t, batch, front, true), ds)
  }

  /** How they grow by one message. */
  lemma SplitSnoc(t: Table, batch: seq<Message>, front: seq<Message>, m: Message, news: seq<Message>,
                  ds: seq<Duplicate>, index: map<string, Found>)
    requires Indexes(t, batch, index) && m in batch && SplitSoFar(t, batch, front, news, ds)
    ensures var key := KeyOf(m).Text();
            if key in index then SplitSoFar(t, batch, front + [m], news, ds + [DuplicateOf(m, index[key])])
            else SplitSoFar(t, batch, front + [m], news + [m], ds)
  {
    assert IndexTells(t, batch, index, m);
    ChosenSnoc(t, batch, front, m, false);
    ChosenSnoc(t, batch, front, m, true);
    if KeyOf(m).Text() in index {
      ReportsSnoc(t, batch, Chosen(t, batch, front, true), ds, m, DuplicateOf(m, index[KeyOf(m).Text()]));
    }
  }

  lemma ReportsSnoc(t: Table, batch: seq<Message>, ms: seq<Message>, ds: seq<Duplicate>, m: Message, d: Duplicate)
    requires ReportsAll(t, batch, ms, ds) && Reports(t, batch, m, d)
    ensures ReportsAll(t, batch, ms + [m], ds + [d])
  {
  }

  lemma ChosenSnoc(t: Table, batch: seq<Message>, front: seq<Message>, m: Message, known: bool)
    ensures Chosen(t, batch, front + [m], known) ==
            if Known(t, batch, m) == known then Chosen(t, batch, front, known) + [m] else Chosen(t, batch, front, known)
  {
    assert (front + [m])[..|front|] == front;
  }

  /** New and duplicate messages together are the batch, each taken in batch order. */
  lemma {:induction false} SplitIsPermutation(t: Table, batch: seq<Message>, part: seq<Message>)
    ensures multiset(Chosen(t, batch, part, false)) + multiset(Chosen(t, batch, part, true)) == multiset(part)
    ensures |Chosen(t, batch, part, false)| + |Chosen(t, batch, part, true)| == |part|
  {
    if part == [] {
    } else {
      var front, m := part[..|part| - 1], part[|part| - 1];
      assert part == front + [m];
      SplitIsPermutation(t, batch, front);
      ChosenSnoc(t, batch, front, m, false);
      ChosenSnoc(t, batch, front, m, true);
    }
  }

  ghost predicate ColonFreeTenants(batch: seq<Message>) {
    forall m :: m in batch ==> ColonFree(m.tenantId)
  }

  lemma FirstIsOwn(batch: seq<Message>, m: Message)
    requires ColonFreeTenants(batch) && m in batch
    ensures First(batch, KeyOf(m).Text()) == Some(KeyOf(m))
  {
    var k := First(batch, KeyOf(m).Text());
    FirstInBatch(batch, m);
    var m' :| m' in batch && KeyOf(m') == k.value;
    TenantKeyInjective(m'.tenantId, m'.idempotencyKey, m.tenantId, m.idempotencyKey);
  }

  /** For tenant ids without colons the bulk check answers, message by message,
      what asking the database for the message's own key would answer: the same
      yes or no, and for a duplicate the status of the one row with that key. */
  lemma BulkIsLookup(t: Table, batch: seq<Message>, m: Message)
    requires UniqueKeys(t) && ColonFreeTenants(batch) && m in batch
    ensures Known(t, batch, m) <==> HasKey(t, KeyOf(m))
    ensures Known(t, batch, m) <==>
            exists id :: id in t && t[id].tenantId == m.tenantId && t[id].idempotencyKey == m.idempotencyKey
    ensures forall d, id :: Reports(t, batch, m, d) && id in t && RowKey(t[id]) == KeyOf(m)
                            ==> d.existing == id && d.status == t[id].status
  {
    FirstIsOwn(batch, m);
    assert HasKey(t, KeyOf(m)) <==>
           exists id :: id in t && t[id].tenantId == m.tenantId && t[id].idempotencyKey == m.idempotencyKey;
  }

  ghost predicate AgreesWithLookup(t: Table, batch: seq<Message>) {
    forall m :: m in batch ==> (Known(t, batch, m) <==> HasKey(t, KeyOf(m)))
  }

  /** Keys of the batch that read the same are both stored or both not. */
  ghost predicate SameTextSameFate(t: Table, batch: seq<Message>) {
    forall m1, m2 :: m1 in batch && m2 in batch && KeyOf(m1).Text() == KeyOf(m2).Text()
                     ==> (HasKey(t, KeyOf(m1)) <==> HasKey(t, KeyOf(m2)))
  }

  /** On one table, the bulk check agrees with the lookup exactly when no two keys
      of the batch with one text have different fates. */
  lemma BulkAgreesIff(t: Table, batch: seq<Message>)
    ensures AgreesWithLookup(t, batch) <==> SameTextSameFate(t, batch)
  {
  }

  /** No two keys of the batch have the same text; tenant ids may hold colons. */
  ghost predicate OneKeyPerText(batch: seq<Message>) {
    forall m1, m2 :: m1 in batch && m2 in batch && KeyOf(m1).Text() == KeyOf(m2).Text() ==> KeyOf(m1) == KeyOf(m2)
  }

  /** A table that holds just the first key of a text misleads the check about
      any other key with that text. */
  lemma MisleadingTable(batch: seq<Message>, m: Message) returns (t: Table)
    requires m in batch && First(batch, KeyOf(m).Text()) != Some(KeyOf(m))
    ensures Known(t, batch, m) && !HasKey(t, KeyOf(m))
  {
    FirstInBatch(batch, m);
    var k := First(batch, KeyOf(m).Text()).value;
    var row := Row(k.tenantId, k.idempotencyKey, "d", "u", Email, "r", "b", IN_PROGRESS, false, 0);
    t := map["id" := row];
    assert "id" in t && RowKey(t["id"]) == k;
  }

  /** Whatever the table holds, the bulk check agrees with the lookup exactly when
      different keys of the batch have different texts: the batch alone decides. */
  lemma BulkIsLookupIff(batch: seq<Message>)
    ensures (forall t :: AgreesWithLookup(t, batch)) <==> OneKeyPerText(batch)
  {
    if OneKeyPerText(batch) {
      forall t ensures AgreesWithLookup(t, batch) {
        BulkAgreesIff(t, batch);
      }
    } else {
      var m1, m2 :| m1 in batch && m2 in batch && KeyOf(m1).Text() == KeyOf(m2).Text() && KeyOf(m1) != KeyOf(m2);
      var m := if First(batch, KeyOf(m1).Text()) == Some(KeyOf(m1)) then m2 else m1;
      var t := MisleadingTable(batch, m);
      assert !AgreesWithLookup(t, batch);
    }
  }

  // --------------------------------------------------------------------- the insert

  lemma InsertSnoc(t: Table, ms: seq<Message>, m: Message)
    ensures var (t1, results) := InsertAll(t, ms);
            InsertAll(t, ms + [m]) ==
            if Clashes(t1, m) then (t1, results + [Inserted(m.messageId, false)])
            else (t1[m.messageId := NewRow(m)], results + [Inserted(m.messageId, true)])
  {
  }

  /** Results match the input one to one and in order; a message is skipped exactly
      when it clashes with the table and the rows inserted before it. */
  lemma {:induction false} InsertReports(t: Table, ms: seq<Message>)
    ensures var results := InsertAll(t, ms).1;
            && |results| == |ms|
            && forall i :: 0 <= i < |ms| ==>
                             results[i] == Inserted(ms[i].messageId, !Clashes(InsertAll(t, ms[..i]).0, ms[i]))
  {
    if ms == [] {
    } else {
      var front := ms[..|ms| - 1];
      InsertReports(t, front);
      forall i | 0 <= i < |ms|
        ensures |InsertAll(t, ms).1| == |ms|
        ensures InsertAll(t, ms).1[i] == Inserted(ms[i].messageId, !Clashes(InsertAll(t, ms[..i]).0, ms[i]))
      {
        assert i < |front| ==> front[..i] == ms[..i];
      }
    }
  }

  /** The insert keeps all three unique constraints and every existing row. */
  lemma {:induction false} InsertKeepsTable(t: Table, ms: seq<Message>)
    requires UniqueKeys(t) && UniqueDedup(t)
    ensures var t' := InsertAll(t, ms).0;
            && UniqueKeys(t') && UniqueDedup(t') && (Coherent(t) ==> Coherent(t'))
            && (forall id :: id in t ==> id in t' && t'[id] == t[id])
  {
    if ms == [] {
    } else {
      InsertKeepsTable(t, ms[..|ms| - 1]);
    }
  }

  /** The i-th message was reported IN_PROGRESS, and `id` is its new row. */
  predicate CreatedBy(t': Table, ms: seq<Message>, results: seq<Inserted>, i: int, id: string) {
    && 0 <= i < |ms| && i < |results| && results[i].inserted
    && ms[i].messageId == id && id in t' && t'[id] == NewRow(ms[i])
  }

  lemma CreatedStays(t: Table, ms: seq<Message>, m: Message, i: int, id: string)
    requires CreatedBy(InsertAll(t, ms).0, ms, InsertAll(t, ms).1, i, id)
    ensures CreatedBy(InsertAll(t, ms + [m]).0, ms + [m], InsertAll(t, ms + [m]).1, i, id)
  {
  }

  /** The rows that appear are exactly those of the messages reported IN_PROGRESS. */
  lemma {:induction false} InsertCreates(t: Table, ms: seq<Message>)
    ensures var (t', results) := InsertAll(t, ms);
            && (forall id :: id in t' && id !in t ==> exists i :: CreatedBy(t', ms, results, i, id))
            && (forall i :: 0 <= i < |ms| && i < |results| && results[i].inserted
                            ==> ms[i].messageId !in t && CreatedBy(t', ms, results, i, ms[i].messageId))
            && (forall id :: id in t ==> id in t' && t'[id] == t[id])
  {
    if ms == [] {
    } else {
      var front, m := ms[..|ms| - 1], ms[|ms| - 1];
      assert ms == front + [m];
      InsertCreates(t, front);
      InsertReports(t, front);
      InsertSnoc(t, front, m);
      var (t1, r1) := InsertAll(t, front);
      var (t', r') := InsertAll(t, ms);
      forall id | id in t' && id !in t ensures exists i :: CreatedBy(t', ms, r', i, id) {
        if id in t1 {
          var i :| CreatedBy(t1, front, r1, i, id);
          CreatedStays(t, front, m, i, id);
        } else {
          assert CreatedBy(t', ms, r', |front|, id);
        }
      }
      forall i | 0 <= i < |ms| && i < |r'| && r'[i].inserted
        ensures ms[i].messageId !in t && CreatedBy(t', ms, r', i, ms[i].messageId)
      {
        if i < |front| {
          CreatedStays(t, front, m, i, front[i].messageId);
        }
      }
    }
  }

  /** The row holds the message, field by field, and nothing has been tried. */
  predicate RowHolds(row: Row, m: Message) {
    && row.tenantId == m.tenantId && row.idempotencyKey == m.idempotencyKey && row.dedupKey == m.dedupKey
    && row.userId == m.userId && row.channel == m.channel && row.recipient == m.recipient && row.body == m.body
    && row.status == IN_PROGRESS && !row.finalDelivered && row.attempts == 0
  }

  /** One of the three unique columns is taken. */
  ghost predicate Taken(t: Table, m: Message) {
    || m.messageId in t
    || exists id :: id in t && (t[id].dedupKey == m.dedupKey
                                || (t[id].tenantId == m.tenantId && t[id].idempotencyKey == m.idempotencyKey))
  }

  /** The insert, field by field: a message is reported inserted exactly when none of
      its unique columns is taken by the table or by what was inserted before it, and
      then its row holds the message; other rows stay. */
  lemma InsertStores(t: Table, ms: seq<Message>, i: nat)
    requires i < |ms|
    ensures var (t', results) := InsertAll(t, ms);
            && |results| == |ms| && results[i].messageId == ms[i].messageId
            && (results[i].inserted <==> !Taken(InsertAll(t, ms[..i]).0, ms[i]))
            && (results[i].inserted ==> ms[i].messageId in t' && RowHolds(t'[ms[i].messageId], ms[i]))
  {
    InsertReports(t, ms);
    InsertCreates(t, ms);
  }

  /** Within the table and the batch, a message id or a dedup key belongs to one key. */
  ghost predicate KeysDecide(t: Table, ms: seq<Message>) {
    && (forall m, id :: m in ms && id in t && (id == m.messageId || t[id].dedupKey == m.dedupKey) ==>
                          RowKey(t[id]) == KeyOf(m))
    && (forall m1, m2 :: m1 in ms && m2 in ms && (m1.messageId == m2.messageId || m1.dedupKey == m2.dedupKey)
                         ==> KeyOf(m1) == KeyOf(m2))
  }

  /** After the insert every key of the messages has a row, provided a message id
      or dedup key is never shared between different keys. */
  lemma {:induction false} InsertCovers(t: Table, ms: seq<Message>)
    requires KeysDecide(t, ms)
    ensures forall m :: m in ms ==> HasKey(InsertAll(t, ms).0, KeyOf(m))
    ensures forall id :: id in InsertAll(t, ms).0 ==>
                           id in t || exists m :: m in ms && m.messageId == id && InsertAll(t, ms).0[id] == NewRow(m)
    ensures forall id :: id in t ==> id in InsertAll(t, ms).0 && InsertAll(t, ms).0[id] == t[id]
  {
    if ms == [] {
    } else {
      var front, m := ms[..|ms| - 1], ms[|ms| - 1];
      assert ms == front + [m];
      InsertCovers(t, front);
      var t1, t' := InsertAll(t, front).0, InsertAll(t, ms).0;
      forall k | k in ms ensures HasKey(t', KeyOf(k)) {
        if k in front {
          var id :| id in t1 && RowKey(t1[id]) == KeyOf(k);
          assert id in t' && RowKey(t'[id]) == KeyOf(k);
        } else if !Clashes(t1, m) {
          assert RowKey(t'[m.messageId]) == KeyOf(m);
        } else if m.messageId in t1 {
          assert RowKey(t1[m.messageId]) == KeyOf(m);
        }
      }
    }
  }

  /** No key of the messages is stored, and none occurs twice. */
  ghost predicate NewKeys(t: Table, ms: seq<Message>) {
    && (forall m :: m in ms ==> !HasKey(t, KeyOf(m)))
    && (forall i, j :: 0 <= i < j < |ms| ==> KeyOf(ms[i]) != KeyOf(ms[j]))
  }

  ghost predicate DistinctIds(ms: seq<Message>) {
    forall i, j :: 0 <= i < j < |ms| ==> ms[i].messageId != ms[j].messageId
  }

  /** No message id or dedup key of the messages is stored, and none occurs twice. */
  ghost predicate OwnContents(t: Table, ms: seq<Message>) {
    && (forall m :: m in ms ==> m.messageId !in t)
    && (forall m, id :: m in ms && id in t ==> t[id].dedupKey != m.dedupKey)
    && DistinctIds(ms)
    && (forall i, j :: 0 <= i < j < |ms| ==> ms[i].dedupKey != ms[j].dedupKey)
  }

  ghost predicate Covered(t: Table, ms: seq<Message>) {
    forall m :: m in ms ==> HasKey(InsertAll(t, ms).0, KeyOf(m))
  }

  lemma OwnContentsDecide(t: Table, ms: seq<Message>)
    requires OwnContents(t, ms)
    ensures KeysDecide(t, ms)
  {
    forall m1, m2 | m1 in ms && m2 in ms && (m1.messageId == m2.messageId || m1.dedupKey == m2.dedupKey)
      ensures m1 == m2
    {
      var i :| 0 <= i < |ms| && ms[i] == m1;
      var j :| 0 <= j < |ms| && ms[j] == m2;
      assert i == j;
    }
  }

  /** A new key that has a row afterwards was inserted by its own message. */
  lemma CoveredIsInserted(t: Table, ms: seq<Message>, i: nat)
    requires NewKeys(t, ms) && Covered(t, ms) && i < |ms|
    ensures !Clashes(InsertAll(t, ms[..i]).0, ms[i])
  {
    var (t', results) := InsertAll(t, ms);
    assert ms[i] in ms;
    var id :| id in t' && RowKey(t'[id]) == KeyOf(ms[i]);
    InsertCreates(t, ms);
    InsertReports(t, ms);
    assert id !in t;
    var j :| CreatedBy(t', ms, results, j, id);
    assert KeyOf(ms[j]) == KeyOf(ms[i]);
  }

  /** What an earlier message inserted is in the table when a later one comes. */
  lemma EarlierIsStored(t: Table, ms: seq<Message>, i: nat, j: nat)
    requires i < j < |ms| && !Clashes(InsertAll(t, ms[..i]).0, ms[i])
    ensures var t1 := InsertAll(t, ms[..j]).0; ms[i].messageId in t1 && t1[ms[i].messageId] == NewRow(ms[i])
  {
    var front := ms[..j];
    assert front[..i] == ms[..i] && front[i] == ms[i];
    InsertReports(t, front);
    InsertCreates(t, front);
  }

  /** The insert covers new and different keys exactly when no id or content is
      stored already or occurs twice. */
  lemma InsertCoversIff(t: Table, ms: seq<Message>)
    requires NewKeys(t, ms)
    ensures Covered(t, ms) <==> OwnContents(t, ms)
  {
    if OwnContents(t, ms) {
      OwnContentsDecide(t, ms);
      InsertCovers(t, ms);
    } else if Covered(t, ms) {
      forall j | 0 <= j < |ms| ensures !Clashes(InsertAll(t, ms[..j]).0, ms[j]) {
        CoveredIsInserted(t, ms, j);
      }
      forall m, id | m in ms && id in t ensures id != m.messageId && t[id].dedupKey != m.dedupKey {
        var j :| 0 <= j < |ms| && ms[j] == m;
        InsertCreates(t, ms[..j]);
      }
      forall i, j | 0 <= i < j < |ms| ensures ms[i].messageId != ms[j].messageId && ms[i].dedupKey != ms[j].dedupKey {
        EarlierIsStored(t, ms, i, j);
      }
    }
  }
}
