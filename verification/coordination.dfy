/**
 The two coordination tables. A lock row is one-to-one with its instance, so
 the lock table is a set of instance keys. Split rows record the filter and the
 created instance ids of a fan-out, and are read ordered by instance, newest first.
 */
module Coordination {
  import opened Results
  import opened Instances

  /** The instances that currently hold a lock row. */
  type Locks = set<Id>

  /** The one-to-one constraint refuses a second lock row for an instance. */
  datatype LockError = AlreadyLocked(inst: Id)

  /** Creating a lock row for `id`. */
  function CreateLock(locks: Locks, id: Id): (r: Result<Locks, LockError>)
    ensures r.Ok? <==> id !in locks
    ensures r.Ok? ==> r.value == locks + {id}
    ensures r.Err? ==> r.error == AlreadyLocked(id)
  {
    if id in locks then Err(AlreadyLocked(id)) else Ok(locks + {id})
  }

  /** Deleting the lock row of `id`, if there is one. */
  function DeleteLock(locks: Locks, id: Id): (r: Locks)
    ensures id !in r
    ensures forall j :: j != id ==> (j in r <==> j in locks)
  {
    locks - {id}
  }

  /** Of two lock attempts on one instance in a row, exactly one succeeds. */
  lemma SecondLockRefused(locks: Locks, id: Id)
    ensures CreateLock(locks, id).Ok? ==> CreateLock(CreateLock(locks, id).value, id) == Err(AlreadyLocked(id))
  {
  }

  /** After the lock row is deleted the instance can be locked again. */
  lemma LockAfterDelete(locks: Locks, id: Id)
    ensures CreateLock(DeleteLock(locks, id), id) == Ok(DeleteLock(locks, id) + {id})
  {
  }

  /** A split row; `creationDate` is the timestamp the database stamps on insert. */
  datatype Split = Split(creationDate: nat, filter: string, createdPluginInstIds: string, pluginInst: Id)

  /**
   `ordering = ('plugin_inst', '-creation_date')`. Ordering by the `plugin_inst`
   relation sorts by the related instance's own ordering, its start date newest
   first, so `started` gives each instance's start date. Rows whose instances
   started together are ordered by their own creation date, newest first.
   */
  predicate Precedes(started: Id -> nat, a: Split, b: Split) {
    || started(a.pluginInst) > started(b.pluginInst)
    || (started(a.pluginInst) == started(b.pluginInst) && a.creationDate >= b.creationDate)
  }

  predicate Ordered(started: Id -> nat, s: seq<Split>) {
    forall i, j :: 0 <= i < j < |s| ==> Precedes(started, s[i], s[j])
  }

  /** A row that precedes every row of an ordered sequence can go in front of it. */
  lemma PrependOrdered(started: Id -> nat, x: Split, s: seq<Split>)
    requires Ordered(started, s)
    requires forall y :: y in s ==> Precedes(started, x, y)
    ensures Ordered(started, [x] + s)
  {
    var r := [x] + s;
    forall i, j | 0 <= i < j < |r| ensures Precedes(started, r[i], r[j]) {
      assert r[j] == s[j - 1];
      if i > 0 {
        assert r[i] == s[i - 1];
      }
    }
  }

  /** A row that precedes the head of an ordered sequence precedes all of it. */
  lemma PrecedesHeadPrecedesAll(started: Id -> nat, x: Split, s: seq<Split>)
    requires Ordered(started, s) && |s| > 0 && Precedes(started, x, s[0])
    ensures forall y :: y in s ==> Precedes(started, x, y)
  {
    forall y | y in s ensures Precedes(started, x, y) {
      var k :| 0 <= k < |s| && s[k] == y;
      if k > 0 {
        assert Precedes(started, s[0], s[k]);
      }
    }
  }

  /** Inserting `x` into an ordered sequence keeps it ordered and adds exactly `x`. */
  function Insert(started: Id -> nat, x: Split, s: seq<Split>): (r: seq<Split>)
    requires Ordered(started, s)
    ensures Ordered(started, r)
    ensures multiset(r) == multiset(s) + multiset{x}
  {
    if |s| == 0 then [x]
    else if Precedes(started, x, s[0]) then
      PrecedesHeadPrecedesAll(started, x, s);
      PrependOrdered(started, x, s);
      [x] + s
    else
      var rest := Insert(started, x, s[1..]);
      InsertStep(started, x, s, rest);
      PrependOrdered(started, s[0], rest);
      [s[0]] + rest
  }

  /**
   When `x` goes after the head, the head precedes every row of the tail with
   `x` inserted, and putting the head back gives the rows of `s` plus `x`.
   */
  lemma InsertStep(started: Id -> nat, x: Split, s: seq<Split>, rest: seq<Split>)
    requires Ordered(started, s) && |s| > 0 && !Precedes(started, x, s[0])
    requires multiset(rest) == multiset(s[1..]) + multiset{x}
    ensures forall y :: y in rest ==> Precedes(started, s[0], y)
    ensures multiset([s[0]] + rest) == multiset(s) + multiset{x}
  {
    forall y | y in rest ensures Precedes(started, s[0], y) {
      assert y in multiset(rest);
      if y != x {
        assert y in multiset(s[1..]);
        var k :| 0 <= k < |s[1..]| && s[1..][k] == y;
        assert s[k + 1] == y;
      }
    }
    assert s == [s[0]] + s[1..];
  }

  /**
   The split rows in the table's declared order. Rows tied on both start date
   and creation date keep no particular order.
   */
  function SortSplits(started: Id -> nat, s: seq<Split>): (r: seq<Split>)
    ensures Ordered(started, r)
    ensures multiset(r) == multiset(s)
  {
    if |s| == 0 then []
    else
      assert s == [s[0]] + s[1..];
      Insert(started, s[0], SortSplits(started, s[1..]))
  }

  /** In the sorted table, the rows of a later-started instance come first. */
  lemma LaterStartedFirst(started: Id -> nat, s: seq<Split>, i: nat, j: nat)
    requires i < j < |SortSplits(started, s)|
    ensures var r := SortSplits(started, s);
      started(r[i].pluginInst) >= started(r[j].pluginInst)
      && (r[i].pluginInst == r[j].pluginInst ==> r[i].creationDate >= r[j].creationDate)
  {
  }

  /** The rows of one instance, in table order. */
  function SplitsFor(s: seq<Split>, id: Id): (r: seq<Split>)
    ensures forall k :: 0 <= k < |r| ==> r[k].pluginInst == id
    ensures forall x :: x in s && x.pluginInst == id <==> x in r
    ensures forall x :: multiset(r)[x] == if x.pluginInst == id then multiset(s)[x] else 0
  {
    if |s| == 0 then []
    else
      assert s == [s[0]] + s[1..];
      if s[0].pluginInst == id then [s[0]] + SplitsFor(s[1..], id) else SplitsFor(s[1..], id)
  }

  /**
   The `splits` of one instance read back: exactly that instance's rows, each as
   often as stored, newest first. All of them share one start date, so the order
   is the creation date alone.
   */
  function SplitsOf(started: Id -> nat, s: seq<Split>, id: Id): (r: seq<Split>)
    ensures forall k :: 0 <= k < |r| ==> r[k].pluginInst == id
    ensures forall j, k :: 0 <= j < k < |r| ==> r[j].creationDate >= r[k].creationDate
    ensures forall x :: multiset(r)[x] == if x.pluginInst == id then multiset(s)[x] else 0
  {
    var mine := SplitsFor(s, id);
    var r := SortSplits(started, mine);
    assert forall k :: 0 <= k < |r| ==> r[k] in multiset(mine);
    r
  }

  /** Recording one split on an instance with no history reads back as exactly that split. */
  lemma RecordedSplitReadBack(started: Id -> nat, s: seq<Split>, x: Split)
    requires forall k :: 0 <= k < |s| ==> s[k].pluginInst != x.pluginInst
    ensures SplitsOf(started, s + [x], x.pluginInst) == [x]
  {
    var r := SplitsOf(started, s + [x], x.pluginInst);
    assert multiset(r)[x] == 1;
    assert forall y :: y != x ==> multiset(r)[y] == 0;
    assert multiset(r) == multiset{x};
    assert |r| == 1;
    assert r[0] in multiset(r);
  }
}
