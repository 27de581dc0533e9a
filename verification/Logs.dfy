/** The entries of a log that concern one message. */
module Logs {
  function About<T(!new)>(log: seq<T>, id: string, idOf: T -> string): (r: seq<T>)
    ensures |r| <= |log|
    ensures forall x :: x in r <==> x in log && idOf(x) == id
  {
    if log == [] then []
    else
      var rest, last := About(log[..|log| - 1], id, idOf), log[|log| - 1];
      if idOf(last) == id then rest + [last] else rest
  }

  lemma AboutSnoc<T(!new)>(log: seq<T>, x: T, id: string, idOf: T -> string)
    ensures About(log + [x], id, idOf) == About(log, id, idOf) + (if idOf(x) == id then [x] else [])
  {
  }

  lemma {:induction false} AboutConcat<T(!new)>(a: seq<T>, b: seq<T>, id: string, idOf: T -> string)
    ensures About(a + b, id, idOf) == About(a, id, idOf) + About(b, id, idOf)
  {
    if b == [] {
      assert a + b == a;
    } else {
      var front, x := b[..|b| - 1], b[|b| - 1];
      assert a + b == (a + front) + [x];
      AboutSnoc(a + front, x, id, idOf);
      AboutConcat(a, front, id, idOf);
    }
  }

  function Others<T(!new)>(log: seq<T>, id: string, idOf: T -> string): (r: seq<T>)
    ensures forall x :: x in r <==> x in log && idOf(x) != id
  {
    if log == [] then []
    else
      var rest, last := Others(log[..|log| - 1], id, idOf), log[|log| - 1];
      if idOf(last) != id then rest + [last] else rest
  }

  lemma {:induction false} OthersAbout<T(!new)>(log: seq<T>, id: string, idOf: T -> string)
    ensures |log| == |About(log, id, idOf)| + |Others(log, id, idOf)|
    ensures forall k :: k != id ==> About(Others(log, id, idOf), k, idOf) == About(log, k, idOf)
  {
    if log == [] {
    } else {
      var front, last := log[..|log| - 1], log[|log| - 1];
      OthersAbout(front, id, idOf);
      forall k | k != id ensures About(Others(log, id, idOf), k, idOf) == About(log, k, idOf) {
        AboutSnoc(Others(front, id, idOf), last, k, idOf);
      }
    }
  }

  lemma SplitBound<T(!new)>(log: seq<T>, ids: set<string>, id: string, bound: nat, idOf: T -> string)
    requires id in ids
    requires forall x :: x in log ==> idOf(x) in ids
    requires forall k :: k in ids ==> |About(log, k, idOf)| <= bound
    ensures var rest := Others(log, id, idOf);
            && |log| <= bound + |rest|
            && (forall x :: x in rest ==> idOf(x) in ids - {id})
            && (forall k :: k in ids - {id} ==> |About(rest, k, idOf)| <= bound)
  {
    OthersAbout(log, id, idOf);
  }

  lemma OneMore(all: nat, rest: nat, bound: nat, n: nat)
    requires all <= bound + rest && rest <= bound * n
    ensures all <= bound * (n + 1)
  {
  }

  /** A log about `ids` with at most `bound` entries for each has at most bound * |ids| entries. */
  lemma {:induction false} AboutBound<T(!new)>(log: seq<T>, ids: set<string>, bound: nat, idOf: T -> string)
    requires forall x :: x in log ==> idOf(x) in ids
    requires forall id :: id in ids ==> |About(log, id, idOf)| <= bound
    ensures |log| <= bound * |ids|
    decreases ids
  {
    if log == [] {
    } else {
      assert log[0] in log;
      var id := idOf(log[0]);
      var rest := Others(log, id, idOf);
      SplitBound(log, ids, id, bound, idOf);
      AboutBound(rest, ids - {id}, bound, idOf);
      OneMore(|log|, |rest|, bound, |ids - {id}|);
      assert |ids| == |ids - {id}| + 1;
    }
  }

  /** A log with at least `bound` entries for each of `ids` has at least bound * |ids|. */
  lemma {:induction false} AboutLeast<T(!new)>(log: seq<T>, ids: set<string>, bound: nat, idOf: T -> string)
    requires forall id :: id in ids ==> |About(log, id, idOf)| >= bound
    ensures |log| >= bound * |ids|
    decreases ids
  {
    if ids == {} {
    } else {
      var id :| id in ids;
      var rest := Others(log, id, idOf);
      OthersAbout(log, id, idOf);
      AboutLeast(rest, ids - {id}, bound, idOf);
      assert |ids| == |ids - {id}| + 1;
      OneLess(|log|, |rest|, bound, |ids - {id}|);
    }
  }

  lemma OneLess(all: nat, rest: nat, bound: nat, n: nat)
    requires all >= bound + rest && rest >= bound * n
    ensures all >= bound * (n + 1)
  {
  }
}
