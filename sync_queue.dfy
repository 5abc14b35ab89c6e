/** The offline sync queue: an ordered list of deferred mutations kept in one storage slot,
    with a retry counter per record and a fixed retry budget that splits the list into
    pending records and dead-lettered ("failed") ones. */
module SyncQueue {
  import opened Wrappers
  import opened Seqs

  datatype ActionType = Create | Update | Delete

  /** The kind of entity a record targets: a task or a task list. */
  datatype EntityKind = TaskEntity | TaskListEntity

  /** A payload value. The stored payload is an arbitrary string-keyed object; scalars suffice here. */
  datatype Value = Null | Bool(b: bool) | Num(n: int) | Str(s: string)

  datatype SyncAction = SyncAction(
    id: string,
    kind: ActionType,
    entity: EntityKind,
    entityId: string,
    data: map<string, Value>,
    timestamp: int,
    retries: nat)

  /** What a caller supplies when enqueueing: everything except id, timestamp and retries. */
  datatype ActionInput = ActionInput(
    kind: ActionType,
    entity: EntityKind,
    entityId: string,
    data: map<string, Value>)

  /** The retry budget: a record with this many failed attempts is no longer retried. */
  const MAX_RETRIES: nat := 3

  predicate IsPending(a: SyncAction) { a.retries < MAX_RETRIES }

  predicate IsFailed(a: SyncAction) { a.retries >= MAX_RETRIES }

  /** The record `addAction` stores: the input's fields, the generated id and timestamp, no retries. */
  function NewAction(input: ActionInput, id: string, timestamp: int): (a: SyncAction)
    ensures IsPending(a)
  {
    SyncAction(id, input.kind, input.entity, input.entityId, input.data, timestamp, 0)
  }

  /** The records still eligible for delivery, in queue order. */
  function Pending(q: seq<SyncAction>): (r: seq<SyncAction>)
    ensures forall a :: a in r <==> a in q && a.retries < MAX_RETRIES
  {
    Filter(q, IsPending)
  }

  /** The dead-lettered records, in queue order. */
  function Failed(q: seq<SyncAction>): (r: seq<SyncAction>)
    ensures forall a :: a in r <==> a in q && a.retries >= MAX_RETRIES
  {
    Filter(q, IsFailed)
  }

  function HasOtherId(id: string): SyncAction -> bool
  {
    (a: SyncAction) => a.id != id
  }

  /** The queue with every record carrying `id` dropped; an absent id changes nothing. */
  function Without(q: seq<SyncAction>, id: string): (r: seq<SyncAction>)
    ensures forall a :: a in r <==> a in q && a.id != id
    ensures (forall a :: a in q ==> a.id != id) ==> r == q
  {
    FilterKeepsAll(q, HasOtherId(id));
    Filter(q, HasOtherId(id))
  }

  /** The position of the first record carrying `id`, as `Array.prototype.find` would locate it. */
  function FirstWith(q: seq<SyncAction>, id: string): (k: Option<nat>)
    ensures k.Some? ==> k.value < |q| && q[k.value].id == id
  {
    if q == [] then None
    else if q[0].id == id then Some(0)
    else match FirstWith(q[1..], id)
      case None => None
      case Some(k) => Some(k + 1)
  }

  /** The queue after one more failed attempt of the first record carrying `id`
      (see RetriedFirstBumpsFirst). */
  function RetriedFirst(q: seq<SyncAction>, id: string): (r: seq<SyncAction>)
    ensures |r| == |q|
  {
    if q == [] then []
    else if q[0].id == id then [q[0].(retries := q[0].retries + 1)] + q[1..]
    else [q[0]] + RetriedFirst(q[1..], id)
  }

  /** `n` failed attempts in a row of the first record carrying `id`. */
  function RetriedTimes(q: seq<SyncAction>, id: string, n: nat): seq<SyncAction>
    decreases n
  {
    if n == 0 then q else RetriedTimes(RetriedFirst(q, id), id, n - 1)
  }

  /** The arguments of one `addAction` call. */
  datatype AddRequest = AddRequest(input: ActionInput, id: string, timestamp: int)

  function Made(req: AddRequest): SyncAction
  {
    NewAction(req.input, req.id, req.timestamp)
  }

  /** The queue after `addAction` has been called once per request, in order. */
  function AddedAll(q: seq<SyncAction>, reqs: seq<AddRequest>): seq<SyncAction>
    decreases |reqs|
  {
    if reqs == [] then q else AddedAll(q + [Made(reqs[0])], reqs[1..])
  }

  /** The queue store. `stored` is the content of the storage slot. */
  class QueueStore {
    var stored: seq<SyncAction>

    /** A store whose slot already holds `initial`. */
    constructor (initial: seq<SyncAction>)
      ensures stored == initial
    {
      stored := initial;
    }

    method GetQueue() returns (q: seq<SyncAction>)
      ensures q == stored
    {
      q := stored;
    }

    /** Appends a fresh record; `id` and `timestamp` stand for the generated values. */
    method AddAction(input: ActionInput, id: string, timestamp: int) returns (a: SyncAction)
      modifies this
      ensures a.id == id && a.timestamp == timestamp && a.retries == 0
      ensures a.kind == input.kind && a.entity == input.entity
      ensures a.entityId == input.entityId && a.data == input.data
      ensures stored == old(stored) + [a]
    {
      a := NewAction(input, id, timestamp);
      stored := stored + [a];
    }

    method RemoveAction(id: string)
      modifies this
      ensures stored == Without(old(stored), id)
    {
      stored := Without(stored, id);
    }

    method IncrementRetry(id: string)
      modifies this
      ensures stored == RetriedFirst(old(stored), id)
    {
      RetriedFirstBumpsFirst(stored, id);
      if FirstWith(stored, id).Some? {
        stored := RetriedFirst(stored, id);
      }
    }

    method ClearQueue()
      modifies this
      ensures stored == []
      ensures Pending(stored) == [] && Failed(stored) == []
    {
      stored := [];
    }

    method GetFailedActions() returns (r: seq<SyncAction>)
      ensures r == Failed(stored)
      ensures forall a :: a in r <==> a in stored && a.retries >= MAX_RETRIES
    {
      r := Failed(stored);
    }

    method GetPendingActions() returns (r: seq<SyncAction>)
      ensures r == Pending(stored)
      ensures forall a :: a in r <==> a in stored && a.retries < MAX_RETRIES
    {
      r := Pending(stored);
    }
  }

  // ---------------------------------------------------------------------------
  // Properties of the queue operations

  /** Pending and failed split the queue: each record is in exactly one of them, each keeps queue order. */
  lemma PendingFailedPartition(q: seq<SyncAction>)
    ensures multiset(Pending(q)) + multiset(Failed(q)) == multiset(q)
    ensures |Pending(q)| + |Failed(q)| == |q|
    ensures forall a :: a in q ==> (a in Pending(q) <==> a !in Failed(q))
    ensures IsSubsequence(Pending(q), q) && IsSubsequence(Failed(q), q)
  {
    FilterPartition(q, IsPending, IsFailed);
    FilterIsSubsequence(q, IsPending);
    FilterIsSubsequence(q, IsFailed);
  }

  function HasId(id: string): SyncAction -> bool
  {
    (a: SyncAction) => a.id == id
  }

  /** Removal keeps the other records in their order and with their multiplicity: what it keeps
      and what it drops add up to the queue. */
  lemma WithoutKeepsOrder(q: seq<SyncAction>, id: string)
    ensures IsSubsequence(Without(q, id), q)
    ensures multiset(Without(q, id)) + multiset(Filter(q, HasId(id))) == multiset(q)
    ensures |Without(q, id)| + |Filter(q, HasId(id))| == |q|
  {
    FilterIsSubsequence(q, HasOtherId(id));
    FilterPartition(q, HasOtherId(id), HasId(id));
  }

  lemma RemoveIdempotent(q: seq<SyncAction>, id: string)
    ensures Without(Without(q, id), id) == Without(q, id)
  {
  }

  /** `FirstWith` finds the first record carrying the id, and finds none exactly when no record
      carries it. */
  lemma {:induction false} FirstWithFinds(q: seq<SyncAction>, id: string)
    ensures FirstWith(q, id).Some? ==> forall j :: 0 <= j < FirstWith(q, id).value ==> q[j].id != id
    ensures FirstWith(q, id).None? <==> forall j :: 0 <= j < |q| ==> q[j].id != id
  {
    if q != [] && q[0].id != id {
      FirstWithFinds(q[1..], id);
      assert forall j :: 1 <= j < |q| ==> q[j] == q[1..][j - 1];
    }
  }

  /** One failed attempt raises the retry count of the first record carrying `id` by one and
      changes nothing else; with no such record the queue is unchanged. */
  lemma {:induction false} RetriedFirstBumpsFirst(q: seq<SyncAction>, id: string)
    ensures FirstWith(q, id).None? ==> RetriedFirst(q, id) == q
    ensures FirstWith(q, id).Some? ==>
      var k := FirstWith(q, id).value;
      RetriedFirst(q, id) == q[k := q[k].(retries := q[k].retries + 1)]
  {
    if q != [] && q[0].id != id {
      RetriedFirstBumpsFirst(q[1..], id);
      match FirstWith(q[1..], id)
      case None =>
        assert [q[0]] + q[1..] == q;
      case Some(k) =>
        assert [q[0]] + q[1..][k := q[1..][k].(retries := q[1..][k].retries + 1)]
            == q[k + 1 := q[k + 1].(retries := q[k + 1].retries + 1)];
    }
  }

  /** Only retry counts change, so the first position of every id is where it was. */
  lemma RetriedFirstKeepsIds(q: seq<SyncAction>, id: string, other: string)
    ensures FirstWith(RetriedFirst(q, id), other) == FirstWith(q, other)
  {
  }

  /** One failed attempt updates the first record carrying `id` in place and keeps it first. */
  lemma RetriedOnce(p: seq<SyncAction>, id: string, k: nat)
    requires FirstWith(p, id) == Some(k)
    ensures RetriedFirst(p, id) == p[k := p[k].(retries := p[k].retries + 1)]
    ensures FirstWith(RetriedFirst(p, id), id) == Some(k)
  {
    RetriedFirstBumpsFirst(p, id);
    RetriedFirstKeepsIds(p, id, id);
  }

  /** `n` failed attempts raise the retry count of the first record with `id` by exactly `n`
      and change nothing else. */
  lemma {:induction false} RetriedTimesRaisesBy(q: seq<SyncAction>, id: string, n: nat, k: nat)
    requires FirstWith(q, id) == Some(k)
    ensures RetriedTimes(q, id, n) == q[k := q[k].(retries := q[k].retries + n)]
    decreases n
  {
    if n == 0 {
      assert q[k := q[k].(retries := q[k].retries + 0)] == q;
    } else {
      var p := RetriedFirst(q, id);
      RetriedOnce(q, id, k);
      RetriedTimesRaisesBy(p, id, n - 1, k);
    }
  }

  /** A record freshly added under an unused id is pending; after two failures it still is,
      and the third failure moves it from pending to failed with a retry count of 3. */
  lemma ThirdFailureDeadLetters(q: seq<SyncAction>, input: ActionInput, id: string, timestamp: int)
    requires forall a :: a in q ==> a.id != id
    ensures var q1 := q + [NewAction(input, id, timestamp)];
      var q3 := RetriedTimes(q1, id, 2);
      var q4 := RetriedTimes(q1, id, MAX_RETRIES);
      |q3| == |q4| == |q1| &&
      q1[|q|] in Pending(q1) &&
      q3[|q|] in Pending(q3) &&
      q4[|q|] == NewAction(input, id, timestamp).(retries := 3) &&
      q4[|q|] !in Pending(q4) && q4[|q|] in Failed(q4)
  {
    var q1 := q + [NewAction(input, id, timestamp)];
    assert forall j :: 0 <= j < |q| ==> q1[j] in q;
    assert q1[|q|].id == id;
    FirstWithFinds(q1, id);
    assert FirstWith(q1, id) == Some(|q|);
    RetriedTimesRaisesBy(q1, id, 2, |q|);
    RetriedTimesRaisesBy(q1, id, MAX_RETRIES, |q|);
  }

  lemma {:induction false} AddedAllAppends(q: seq<SyncAction>, reqs: seq<AddRequest>)
    ensures AddedAll(q, reqs) == q + Map(reqs, Made)
    decreases |reqs|
  {
    if reqs != [] {
      AddedAllAppends(q + [Made(reqs[0])], reqs[1..]);
      assert Map(reqs, Made) == [Made(reqs[0])] + Map(reqs[1..], Made);
    }
  }

  /** A run of `addAction` calls with no removals leaves the new records at the end of the
      pending list, in the order they were added. */
  lemma PendingInInsertionOrder(q: seq<SyncAction>, reqs: seq<AddRequest>)
    ensures Pending(AddedAll(q, reqs)) == Pending(q) + Map(reqs, Made)
    ensures Pending(AddedAll([], reqs)) == Map(reqs, Made)
  {
    AddedAllAppends(q, reqs);
    FilterConcat(q, Map(reqs, Made), IsPending);
    FilterKeepsAll(Map(reqs, Made), IsPending);
    AddedAllAppends([], reqs);
    assert [] + Map(reqs, Made) == Map(reqs, Made);
  }
}
