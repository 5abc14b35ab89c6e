/** The sync scheduler: the online/offline flag, the single-flight guard and the flush pass
    that walks a snapshot of the pending records, delivering or retrying each in turn. */
module SyncScheduler {
  import opened Wrappers
  import opened Seqs
  import opened SyncQueue

  /** What one attempt does to the stored queue: a delivered record is removed, a failed one
      has its retry count raised. */
  function Attempt(q: seq<SyncAction>, a: SyncAction, delivered: bool): seq<SyncAction>
  {
    if delivered then Without(q, a.id) else RetriedFirst(q, a.id)
  }

  /** The stored queue after attempting every record of `snapshot`, first to last; `dispatch`
      says whether a record's delivery succeeds. */
  function Walk(q: seq<SyncAction>, snapshot: seq<SyncAction>, dispatch: SyncAction -> bool): seq<SyncAction>
    decreases |snapshot|
  {
    if snapshot == [] then q
    else Walk(Attempt(q, snapshot[0], dispatch(snapshot[0])), snapshot[1..], dispatch)
  }

  /** One flush pass: a walk over the records pending when the pass starts. */
  function FlushPass(q: seq<SyncAction>, dispatch: SyncAction -> bool): seq<SyncAction>
  {
    Walk(q, Pending(q), dispatch)
  }

  /** The outcome of a pass stated record by record: a dead-lettered record stays as it is,
      a pending one disappears when delivered and otherwise stays with one more retry. */
  function Settled(q: seq<SyncAction>, dispatch: SyncAction -> bool): seq<SyncAction>
  {
    if q == [] then []
    else
      (if !IsPending(q[0]) then [q[0]]
       else if dispatch(q[0]) then []
       else [q[0].(retries := q[0].retries + 1)])
      + Settled(q[1..], dispatch)
  }

  /** The ids carried by the records of `q`. */
  function Ids(q: seq<SyncAction>): set<string>
  {
    if q == [] then {} else {q[0].id} + Ids(q[1..])
  }

  /** No id is carried by two records of `q`. */
  predicate UniqueIds(q: seq<SyncAction>)
  {
    q == [] || (q[0].id !in Ids(q[1..]) && UniqueIds(q[1..]))
  }

  lemma {:induction false} IdsConcat(a: seq<SyncAction>, b: seq<SyncAction>)
    ensures Ids(a + b) == Ids(a) + Ids(b)
  {
    if a == [] {
      assert a + b == b;
    } else {
      assert (a + b)[1..] == a[1..] + b;
      IdsConcat(a[1..], b);
    }
  }

  /** An id outside Ids(q) is carried by no record of `q`, and every record's id is in Ids(q). */
  lemma {:induction false} IdsCover(q: seq<SyncAction>)
    ensures forall a :: a in q ==> a.id in Ids(q)
  {
    if q != [] {
      IdsCover(q[1..]);
      assert forall a :: a in q ==> a == q[0] || a in q[1..];
    }
  }

  lemma {:induction false} UniqueIdsIndexed(q: seq<SyncAction>, i: nat, j: nat)
    requires UniqueIds(q) && i < j < |q|
    ensures q[i].id != q[j].id
  {
    IdsCover(q[1..]);
    if i == 0 {
      assert q[j] in q[1..];
    } else {
      assert q[1..][i - 1] == q[i] && q[1..][j - 1] == q[j];
      UniqueIdsIndexed(q[1..], i - 1, j - 1);
    }
  }

  // ---------------------------------------------------------------------------
  // The pass against its per-record description

  lemma {:induction false} RetriedFirstSkips(a: seq<SyncAction>, b: seq<SyncAction>, id: string)
    requires id !in Ids(a)
    ensures RetriedFirst(a + b, id) == a + RetriedFirst(b, id)
  {
    if a == [] {
      assert a + b == b;
    } else {
      var t := a[1..];
      assert a[0].id != id && id !in Ids(t);
      assert (a + b)[0] == a[0] && (a + b)[1..] == t + b;
      RetriedFirstSkips(t, b, id);
      calc {
        RetriedFirst(a + b, id);
        [a[0]] + RetriedFirst(t + b, id);
        [a[0]] + (t + RetriedFirst(b, id));
        { AppendAssoc([a[0]], t, RetriedFirst(b, id)); }
        [a[0]] + t + RetriedFirst(b, id);
        { assert [a[0]] + t == a; }
        a + RetriedFirst(b, id);
      }
    }
  }

  lemma DeliveredInContext(done: seq<SyncAction>, x: SyncAction, rest: seq<SyncAction>)
    requires x.id !in Ids(done) && x.id !in Ids(rest)
    ensures Without(done + [x] + rest, x.id) == done + rest
  {
    var p := HasOtherId(x.id);
    assert Filter(done, p) == done by {
      IdsCover(done);
      FilterKeepsAll(done, p);
    }
    assert Filter(rest, p) == rest by {
      IdsCover(rest);
      FilterKeepsAll(rest, p);
    }
    assert Filter(done + [x], p) == done by {
      FilterConcat(done, [x], p);
      assert Filter([x], p) == [];
    }
    assert Without(done + [x] + rest, x.id) == Filter(done + [x], p) + Filter(rest, p) by {
      FilterConcat(done + [x], rest, p);
    }
  }

  lemma RetriedInContext(done: seq<SyncAction>, x: SyncAction, rest: seq<SyncAction>)
    requires x.id !in Ids(done)
    ensures RetriedFirst(done + [x] + rest, x.id) == done + [x.(retries := x.retries + 1)] + rest
  {
    RetriedFirstSkips(done, [x] + rest, x.id);
    assert done + [x] + rest == done + ([x] + rest);
    assert ([x] + rest)[1..] == rest;
  }

  lemma AppendAssoc(a: seq<SyncAction>, b: seq<SyncAction>, c: seq<SyncAction>)
    ensures a + b + c == a + (b + c)
  {
  }

  /** The general form of FlushPassSettles: records before `rest` have already been handled. */
  lemma {:induction false} WalkSettles(done: seq<SyncAction>, rest: seq<SyncAction>, dispatch: SyncAction -> bool)
    requires UniqueIds(rest) && Ids(done) !! Ids(rest)
    ensures Walk(done + rest, Pending(rest), dispatch) == done + Settled(rest, dispatch)
    decreases |rest|
  {
    if rest == [] {
      assert done + [] == done;
    } else {
      var x, rest' := rest[0], rest[1..];
      var kept := if !IsPending(x) then [x]
                  else if dispatch(x) then [] else [x.(retries := x.retries + 1)];
      assert Settled(rest, dispatch) == kept + Settled(rest', dispatch);
      assert Ids(done + kept) !! Ids(rest') by {
        IdsConcat(done, kept);
        assert Ids(kept) <= {x.id};
      }
      assert Walk(done + rest, Pending(rest), dispatch) == Walk(done + kept + rest', Pending(rest'), dispatch) by {
        assert done + rest == done + [x] + rest' by {
          assert rest == [x] + rest';
        }
        if IsPending(x) {
          assert Pending(rest) == [x] + Pending(rest');
          assert ([x] + Pending(rest'))[1..] == Pending(rest');
          if dispatch(x) {
            DeliveredInContext(done, x, rest');
            assert done + kept == done;
          } else {
            RetriedInContext(done, x, rest');
          }
        } else {
          assert Pending(rest) == Pending(rest');
        }
      }
      AppendAssoc(done, kept, Settled(rest', dispatch));
      WalkSettles(done + kept, rest', dispatch);
    }
  }

  /** With distinct ids a pass settles every record on its own: see Settled. */
  lemma FlushPassSettles(q: seq<SyncAction>, dispatch: SyncAction -> bool)
    requires UniqueIds(q)
    ensures FlushPass(q, dispatch) == Settled(q, dispatch)
  {
    WalkSettles([], q, dispatch);
    assert [] + q == q;
    assert [] + Settled(q, dispatch) == Settled(q, dispatch);
  }

  // ---------------------------------------------------------------------------
  // Consequences of the per-record description

  /** A pass with a dispatcher that always succeeds leaves exactly the dead-lettered records. */
  lemma {:induction false} AllDeliveredLeavesDeadLetters(q: seq<SyncAction>, dispatch: SyncAction -> bool)
    requires forall a :: dispatch(a)
    ensures Settled(q, dispatch) == Failed(q)
  {
    if q != [] {
      AllDeliveredLeavesDeadLetters(q[1..], dispatch);
    }
  }

  /** A pass with a dispatcher that always fails keeps every record in place and raises the
      retry count of each pending one by one. */
  lemma {:induction false} AllFailedRaisesRetries(q: seq<SyncAction>, dispatch: SyncAction -> bool)
    requires forall a :: !dispatch(a)
    ensures |Settled(q, dispatch)| == |q|
    ensures forall i :: 0 <= i < |q| ==>
      Settled(q, dispatch)[i] == if IsPending(q[i]) then q[i].(retries := q[i].retries + 1) else q[i]
  {
    if q != [] {
      AllFailedRaisesRetries(q[1..], dispatch);
      var s := Settled(q, dispatch);
      assert s == [s[0]] + Settled(q[1..], dispatch);
      forall i | 1 <= i < |q|
        ensures s[i] == if IsPending(q[i]) then q[i].(retries := q[i].retries + 1) else q[i]
      {
        assert s[i] == Settled(q[1..], dispatch)[i - 1] && q[i] == q[1..][i - 1];
      }
    }
  }

  /** Dead-lettered records are not in the snapshot and come through a pass untouched, in order. */
  lemma {:induction false} DeadLettersSurvive(q: seq<SyncAction>, dispatch: SyncAction -> bool)
    ensures IsSubsequence(Failed(q), Settled(q, dispatch))
  {
    if q != [] {
      DeadLettersSurvive(q[1..], dispatch);
      var s := Settled(q, dispatch);
      var s' := Settled(q[1..], dispatch);
      if IsFailed(q[0]) {
        assert Failed(q) == [q[0]] + Failed(q[1..]);
        assert s == [q[0]] + s';
        assert Failed(q)[1..] == Failed(q[1..]) && s[1..] == s';
      } else {
        assert Failed(q) == Failed(q[1..]);
        SubsequenceOfSuffix(Failed(q[1..]), s, |s| - |s'|);
      }
    }
  }

  lemma {:induction false} SubsequenceOfSuffix(r: seq<SyncAction>, s: seq<SyncAction>, n: nat)
    requires n <= |s| && IsSubsequence(r, s[n..])
    ensures IsSubsequence(r, s)
    decreases n
  {
    if n > 0 {
      assert s[1..][n - 1..] == s[n..];
      SubsequenceOfSuffix(r, s[1..], n - 1);
    }
  }

  /** A pass introduces no new id, so distinct ids stay distinct from pass to pass. */
  lemma {:induction false} SettledKeepsIds(q: seq<SyncAction>, dispatch: SyncAction -> bool)
    ensures Ids(Settled(q, dispatch)) <= Ids(q)
    ensures UniqueIds(q) ==> UniqueIds(Settled(q, dispatch))
  {
    if q != [] {
      var tail := Settled(q[1..], dispatch);
      var kept := if !IsPending(q[0]) then [q[0]]
                  else if dispatch(q[0]) then [] else [q[0].(retries := q[0].retries + 1)];
      assert Settled(q, dispatch) == kept + tail;
      SettledKeepsIds(q[1..], dispatch);
      IdsConcat(kept, tail);
      if kept != [] {
        assert (kept + tail)[0] == kept[0] && (kept + tail)[1..] == tail;
      } else {
        assert kept + tail == tail;
      }
    }
  }

  /** A dead-lettered record is still there after a pass. */
  lemma {:induction false} DeadLetterStays(q: seq<SyncAction>, dispatch: SyncAction -> bool, i: nat)
    requires i < |q| && !IsPending(q[i])
    ensures q[i] in Settled(q, dispatch)
  {
    if i > 0 {
      assert q[1..][i - 1] == q[i];
      DeadLetterStays(q[1..], dispatch, i - 1);
    }
  }

  /** A delivered record leaves no record with its id behind. */
  lemma {:induction false} DeliveredIsGone(q: seq<SyncAction>, dispatch: SyncAction -> bool, i: nat)
    requires UniqueIds(q) && i < |q| && IsPending(q[i]) && dispatch(q[i])
    ensures q[i].id !in Ids(Settled(q, dispatch))
  {
    var tail := Settled(q[1..], dispatch);
    var kept := if !IsPending(q[0]) then [q[0]]
                else if dispatch(q[0]) then [] else [q[0].(retries := q[0].retries + 1)];
    assert Settled(q, dispatch) == kept + tail;
    IdsConcat(kept, tail);
    if i == 0 {
      SettledKeepsIds(q[1..], dispatch);
    } else {
      assert q[1..][i - 1] == q[i];
      assert q[i].id != q[0].id by {
        IdsCover(q[1..]);
        assert q[i] in q[1..];
      }
      DeliveredIsGone(q[1..], dispatch, i - 1);
    }
  }

  /** A record whose delivery failed is still there with exactly one more retry, and its old
      version is not. */
  lemma {:induction false} FailedIsRetried(q: seq<SyncAction>, dispatch: SyncAction -> bool, i: nat)
    requires UniqueIds(q) && i < |q| && IsPending(q[i]) && !dispatch(q[i])
    ensures q[i].(retries := q[i].retries + 1) in Settled(q, dispatch)
    ensures q[i] !in Settled(q, dispatch)
  {
    var tail := Settled(q[1..], dispatch);
    var kept := if !IsPending(q[0]) then [q[0]]
                else if dispatch(q[0]) then [] else [q[0].(retries := q[0].retries + 1)];
    assert Settled(q, dispatch) == kept + tail;
    if i == 0 {
      assert q[0] !in tail by {
        SettledKeepsIds(q[1..], dispatch);
        IdsCover(tail);
      }
    } else {
      assert q[1..][i - 1] == q[i];
      assert q[i].id != q[0].id by {
        IdsCover(q[1..]);
        assert q[i] in q[1..];
      }
      FailedIsRetried(q[1..], dispatch, i - 1);
    }
  }

  /** The flush pass as written relies on distinct ids: a dead-lettered record that shares its id
      with a pending one is removed when the pending one is delivered. */
  lemma SharedIdRemovesDeadLetter(dead: SyncAction, live: SyncAction)
    requires dead.id == live.id && dead.retries == MAX_RETRIES && live.retries == 0
    ensures Failed([dead, live]) == [dead]
    ensures FlushPass([dead, live], _ => true) == []
  {
    var q := [dead, live];
    assert q[1..] == [live] && q[1..][1..] == [];
    assert Filter(q[1..], IsFailed) == [];
    assert Filter(q[1..], IsPending) == [live];
    assert Pending(q) == [live];
    var d: SyncAction -> bool := _ => true;
    assert Filter(q, HasOtherId(live.id)) == [];
    assert Walk(q, [live], d) == Walk(Without(q, live.id), [], d);
  }

  /** With the always-succeeding delivery of the simulated sync, one pass leaves nothing pending,
      so the following pass returns at once. */
  lemma SecondPassIdle(q: seq<SyncAction>)
    requires UniqueIds(q)
    ensures FlushPass(q, _ => true) == Failed(q)
    ensures Pending(FlushPass(q, _ => true)) == []
  {
    var d: SyncAction -> bool := _ => true;
    FlushPassSettles(q, d);
    AllDeliveredLeavesDeadLetters(q, d);
    NothingPendingAmongFailed(q);
  }

  lemma NothingPendingAmongFailed(q: seq<SyncAction>)
    ensures Pending(Failed(q)) == []
  {
    FilterDropsAll(Failed(q), IsPending);
  }

  // ---------------------------------------------------------------------------
  // The scheduler hook

  /** The hook's state: the rendered copy of the queue, the in-flight flag and the connectivity
      flag, over the queue store it reads and writes. */
  class Scheduler {
    const store: QueueStore
    var queue: seq<SyncAction>
    var isSyncing: bool
    var isOnline: bool

    /** The state on first render: an empty copy, not syncing, connectivity as the browser reports it. */
    constructor (store: QueueStore, online: bool)
      ensures this.store == store
      ensures queue == [] && !isSyncing && isOnline == online
      ensures store.stored == old(store.stored)
    {
      this.store := store;
      queue := [];
      isSyncing := false;
      isOnline := online;
    }

    /** The mount effect: the copy is loaded from the store. */
    method Load()
      modifies this`queue
      ensures queue == store.stored
    {
      queue := store.GetQueue();
    }

    method HandleOnline()
      modifies this`isOnline
      ensures isOnline
    {
      isOnline := true;
    }

    method HandleOffline()
      modifies this`isOnline
      ensures !isOnline
    {
      isOnline := false;
    }

    /** One flush pass. It does nothing when offline, when a pass is in flight or when nothing is
        pending; otherwise every record pending at the start is attempted once, and the copy is
        refreshed from the store. */
    method SimulateSync(dispatch: SyncAction -> bool)
      modifies this`queue, this`isSyncing, store
      ensures isOnline == old(isOnline)
      ensures !old(isOnline) || old(isSyncing) || Pending(old(store.stored)) == [] ==>
        store.stored == old(store.stored) && queue == old(queue) && isSyncing == old(isSyncing)
      ensures old(isOnline) && !old(isSyncing) && Pending(old(store.stored)) != [] ==>
        store.stored == FlushPass(old(store.stored), dispatch) && queue == store.stored && !isSyncing
    {
      if !isOnline || isSyncing {
        return;
      }
      var pending := store.GetPendingActions();
      if |pending| == 0 {
        return;
      }
      isSyncing := true;
      ghost var q0 := store.stored;
      for i := 0 to |pending|
        invariant Walk(store.stored, pending[i..], dispatch) == Walk(q0, pending, dispatch)
      {
        var action := pending[i];
        ghost var before := store.stored;
        assert pending[i..][0] == action && pending[i..][1..] == pending[i + 1..];
        if dispatch(action) {
          store.RemoveAction(action.id);
        } else {
          store.IncrementRetry(action.id);
        }
        assert store.stored == Attempt(before, action, dispatch(action));
      }
      assert pending[|pending|..] == [];
      queue := store.GetQueue();
      isSyncing := false;
    }

    /** The connectivity effect: when online with a non-empty copy, a pass is run at once (and
        again on each tick of the interval it installs, each tick being another call). */
    method SyncEffect(dispatch: SyncAction -> bool)
      modifies this`queue, this`isSyncing, store
      ensures isOnline == old(isOnline)
      ensures !old(isOnline) || old(queue) == [] ==>
        store.stored == old(store.stored) && queue == old(queue) && isSyncing == old(isSyncing)
      ensures old(isSyncing) || Pending(old(store.stored)) == [] ==>
        store.stored == old(store.stored) && queue == old(queue) && isSyncing == old(isSyncing)
      ensures old(isOnline) && old(queue) != [] && !old(isSyncing) && Pending(old(store.stored)) != [] ==>
        store.stored == FlushPass(old(store.stored), dispatch) && queue == store.stored && !isSyncing
    {
      if !isOnline || |queue| == 0 {
        return;
      }
      SimulateSync(dispatch);
    }

    /** Enqueues a record and refreshes the copy; returns the stored record. */
    method AddToQueue(input: ActionInput, id: string, timestamp: int) returns (a: SyncAction)
      modifies this`queue, store
      ensures a == NewAction(input, id, timestamp)
      ensures store.stored == old(store.stored) + [a]
      ensures queue == store.stored
      ensures a in Pending(queue)
    {
      a := store.AddAction(input, id, timestamp);
      queue := store.GetQueue();
      assert a == queue[|queue| - 1];
    }
  }
}
