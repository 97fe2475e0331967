/** `SetQueue`: the request queue that keeps one pending job per id.

    The state is the ordered set `queue` of pending ids, the map `items` from id
    to the latest job for it, the id `current` last handed out by `get`, and the
    base `Queue`'s `unfinished_tasks` counter. `QueueState` is that state as a
    value; `Put`, `Get`, `TaskDone` and `Clear` say what each operation makes
    of it, and the class's methods are proved to follow them. The base class's
    locking and blocking are left out: a `get` that would time out returns None. */
module DedupQueue {
  import opened Wrappers
  import opened Uuids
  import opened OrderedSets
  import opened Messages

  datatype QueueState = QueueState(
    order: seq<Uuid>,
    items: map<Uuid, WsData>,
    current: Option<Uuid>,
    unfinished: int)

  /** The state of a new queue. */
  const Empty: QueueState := QueueState([], map[], None, 0)

  /** One entry per id, the stored ids are exactly the queued ones, and each
      job is stored under its own id. */
  ghost predicate Inv(q: QueueState) {
    && Distinct(q.order)
    && (forall id :: id in q.items <==> id in q.order)
    && (forall id :: id in q.items ==> q.items[id].id == id)
  }

  /** `put(item)`: `_put` then `unfinished_tasks += 1`. `_put` drops a job whose
      id is the one currently checked out; otherwise it adds the id (at the end
      if new) and stores the job, replacing any earlier one. */
  function AfterPut(q: QueueState, item: WsData): QueueState {
    if q.current == Some(item.id) then q.(unfinished := q.unfinished + 1)
    else q.(order := Added(q.order, item.id),
            items := q.items[item.id := item],
            unfinished := q.unfinished + 1)
  }

  datatype Taken = Taken(item: Option<WsData>, state: QueueState)

  /** `get` with a timeout on a queue nobody else fills: Empty (None) when no id
      is queued; otherwise `_get` pops the oldest id, records it as `current`
      and removes and returns its job. */
  function AfterGet(q: QueueState): (t: Taken)
    requires Inv(q)
    ensures Inv(t.state)
  {
    if q.order == [] then Taken(None, q)
    else
      var id := q.order[0];
      assert forall x :: x in q.order[1..] <==> x in q.order && x != id by {
        assert q.order == [id] + q.order[1..];
      }
      Taken(Some(q.items[id]), q.(order := q.order[1..], items := q.items - {id}, current := Some(id)))
  }

  /** `task_done`: ValueError when the counter would go below zero. */
  function AfterTaskDone(q: QueueState): Result<QueueState> {
    if q.unfinished - 1 < 0 then Err(ValueError) else Ok(q.(unfinished := q.unfinished - 1))
  }

  /** `clear`: drop every queued id and lower the counter by their number;
      ValueError, with nothing changed, when that would make it negative. */
  function AfterClear(q: QueueState): Result<QueueState> {
    var unfinished := q.unfinished - |q.order|;
    if unfinished < 0 then Err(ValueError) else Ok(QueueState([], map[], None, unfinished))
  }

  /** The state after putting each job of `xs` in turn. */
  function PutAll(q: QueueState, xs: seq<WsData>): QueueState
    decreases |xs|
  {
    if xs == [] then q else PutAll(AfterPut(q, xs[0]), xs[1..])
  }

  /** The jobs that successive `get`s hand out until the queue is empty. */
  function Drain(q: QueueState): seq<WsData>
    requires Inv(q)
    decreases |q.order|
  {
    var t := AfterGet(q);
    if t.item.None? then [] else [t.item.value] + Drain(t.state)
  }

  function Ids(xs: seq<WsData>): (ids: seq<Uuid>)
    ensures |ids| == |xs| && forall i :: 0 <= i < |xs| ==> ids[i] == xs[i].id
  {
    if xs == [] then [] else [xs[0].id] + Ids(xs[1..])
  }

  /** Every put keeps the invariant: still at most one entry per id. */
  lemma PutKeepsInv(q: QueueState, item: WsData)
    requires Inv(q)
    ensures Inv(AfterPut(q, item))
  {
    AddedSpec(q.order, item.id);
  }

  /** A put for any id but the checked-out one stores the job under its id,
      replacing an earlier job for it, appends the id only if it was not
      queued, and leaves every queued id at its place and every other job as it was. */
  lemma PutPlacement(q: QueueState, item: WsData)
    requires Inv(q) && q.current != Some(item.id)
    ensures AfterPut(q, item).items[item.id] == item
    ensures forall id :: id in q.items && id != item.id ==> AfterPut(q, item).items[id] == q.items[id]
    ensures forall i :: 0 <= i < |q.order| ==> AfterPut(q, item).order[i] == q.order[i]
    ensures item.id in q.order ==> AfterPut(q, item).order == q.order
    ensures item.id !in q.order ==> AfterPut(q, item).order == q.order + [item.id]
  {
    AddedSpec(q.order, item.id);
  }

  /** A put for the checked-out id changes neither the order nor the jobs. */
  lemma PutInFlightDropped(q: QueueState, item: WsData)
    requires q.current == Some(item.id)
    ensures AfterPut(q, item).order == q.order && AfterPut(q, item).items == q.items
    ensures AfterPut(q, item).unfinished == q.unfinished + 1
  {
  }

  /** `get` hands out the job of the oldest id, marks that id as checked out,
      and keeps the remaining ids in their order. */
  lemma GetOldest(q: QueueState)
    requires Inv(q) && q.order != []
    ensures AfterGet(q).item == Some(q.items[q.order[0]]) && AfterGet(q).item.value.id == q.order[0]
    ensures AfterGet(q).state.order == q.order[1..]
    ensures AfterGet(q).state.current == Some(q.order[0])
    ensures q.order[0] !in AfterGet(q).state.items
  {
  }

  /** `clear` succeeds exactly when the counter covers the queued ids, and then
      leaves nothing queued, nothing checked out and the counter lowered by their number. */
  lemma ClearSpec(q: QueueState)
    ensures AfterClear(q).Ok? <==> q.unfinished >= |q.order|
    ensures AfterClear(q).Ok? ==>
              && Inv(AfterClear(q).value) && AfterClear(q).value.order == [] && AfterClear(q).value.items == map[]
              && AfterClear(q).value.current == None && AfterClear(q).value.unfinished == q.unfinished - |q.order|
  {
  }

  /** The counter covers the queued ids. */
  ghost predicate CounterCovers(q: QueueState) {
    q.unfinished >= |q.order|
  }

  /** Every put adds one to the counter and at most one id, `get` removes an
      id and leaves the counter, so without `task_done` a `clear` never fails. */
  lemma CounterCoversKept(q: QueueState, item: WsData)
    requires Inv(q) && CounterCovers(q)
    ensures CounterCovers(AfterPut(q, item))
    ensures CounterCovers(AfterGet(q).state)
    ensures AfterClear(q).Ok? && CounterCovers(AfterClear(q).value)
  {
    AddedSpec(q.order, item.id);
  }

  lemma {:induction false} PutAllKeepsInv(q: QueueState, xs: seq<WsData>)
    requires Inv(q)
    ensures Inv(PutAll(q, xs))
    ensures PutAll(q, xs).current == q.current
    ensures q.order <= PutAll(q, xs).order
    decreases |xs|
  {
    if xs != [] {
      PutKeepsInv(q, xs[0]);
      AddedSpec(q.order, xs[0].id);
      PutAllKeepsInv(AfterPut(q, xs[0]), xs[1..]);
    }
  }

  lemma {:induction false} PutAllSplit(q: QueueState, xs: seq<WsData>, k: nat)
    requires k <= |xs|
    ensures PutAll(q, xs) == PutAll(PutAll(q, xs[..k]), xs[k..])
    decreases k
  {
    if k > 0 {
      PutAllSplit(AfterPut(q, xs[0]), xs[1..], k - 1);
      assert xs[1..][..k - 1] == xs[1..k];
      assert xs[1..][k - 1..] == xs[k..];
      assert xs[..k][0] == xs[0] && xs[..k][1..] == xs[1..k];
    }
  }

  /** The job stored for an id is the last one put for it, provided the id
      was not checked out at the time. */
  lemma {:induction false} PutAllKeepsLatest(q: QueueState, xs: seq<WsData>, i: int)
    requires Inv(q) && 0 <= i < |xs| && q.current != Some(xs[i].id)
    requires forall j :: i < j < |xs| ==> xs[j].id != xs[i].id
    ensures xs[i].id in PutAll(q, xs).items && PutAll(q, xs).items[xs[i].id] == xs[i]
    decreases |xs|
  {
    if i == 0 {
      PutKeepsInv(q, xs[0]);
      PutPlacement(q, xs[0]);
      PutAllUntouched(AfterPut(q, xs[0]), xs[1..], xs[0].id);
    } else {
      PutKeepsInv(q, xs[0]);
      PutAllKeepsLatest(AfterPut(q, xs[0]), xs[1..], i - 1);
    }
  }

  /** Puts for other ids leave the job stored for an id alone. */
  lemma {:induction false} PutAllUntouched(q: QueueState, xs: seq<WsData>, id: Uuid)
    requires Inv(q) && id in q.items
    requires forall j :: 0 <= j < |xs| ==> xs[j].id != id
    ensures id in PutAll(q, xs).items && PutAll(q, xs).items[id] == q.items[id]
    decreases |xs|
  {
    if xs != [] {
      PutKeepsInv(q, xs[0]);
      PutAllUntouched(AfterPut(q, xs[0]), xs[1..], id);
    }
  }

  /** A job put while its id is not checked out leaves its id queued. */
  lemma {:induction false} PutAllQueues(q: QueueState, xs: seq<WsData>, i: int)
    requires Inv(q) && 0 <= i < |xs| && q.current != Some(xs[i].id)
    ensures xs[i].id in PutAll(q, xs).order
    decreases |xs|
  {
    PutKeepsInv(q, xs[0]);
    if i == 0 {
      PutPlacement(q, xs[0]);
      AddedSpec(q.order, xs[0].id);
      PutAllKeepsInv(AfterPut(q, xs[0]), xs[1..]);
    } else {
      PutAllQueues(AfterPut(q, xs[0]), xs[1..], i - 1);
    }
  }

  /** The puts before job `j` queue job `i`'s id but not yet job `j`'s. */
  lemma FirstPutBefore(q: QueueState, xs: seq<WsData>, i: int, j: int)
    requires Inv(q) && 0 <= i < j < |xs|
    requires q.current != Some(xs[i].id)
    requires xs[j].id !in q.order
    requires forall k :: 0 <= k < j ==> xs[k].id != xs[j].id
    ensures Inv(PutAll(q, xs[..j])) && PutAll(q, xs[..j]).current == q.current
    ensures xs[i].id in PutAll(q, xs[..j]).order && xs[j].id !in PutAll(q, xs[..j]).order
  {
    PutAllKeepsInv(q, xs[..j]);
    PutAllQueues(q, xs[..j], i);
    PutAllIdsFrom(q, xs[..j]);
    assert xs[j].id !in Ids(xs[..j]);
  }

  /** Putting `xs` is putting the jobs before `j`, then job `j`, then the rest. */
  lemma PutAllAround(q: QueueState, xs: seq<WsData>, j: int)
    requires 0 <= j < |xs|
    ensures PutAll(q, xs) == PutAll(AfterPut(PutAll(q, xs[..j]), xs[j]), xs[j + 1..])
  {
    PutAllSplit(q, xs, j + 1);
    PutAllSplit(q, xs[..j + 1], j);
    assert xs[..j + 1][..j] == xs[..j];
    assert xs[..j + 1][j..] == [xs[j]];
  }

  /** Order of first insertion: if job `i` is put before job `j`, job `j` is
      the first put of its id, and neither id was in the queue or checked out,
      then `i`'s id is queued before `j`'s id; later puts, re-submissions
      included, never change that. */
  lemma FirstPutOrder(q: QueueState, xs: seq<WsData>, i: int, j: int)
    requires Inv(q) && 0 <= i < j < |xs|
    requires q.current != Some(xs[i].id) && q.current != Some(xs[j].id)
    requires xs[j].id !in q.order
    requires forall k :: 0 <= k < j ==> xs[k].id != xs[j].id
    ensures exists a, b ::
              && 0 <= a < b < |PutAll(q, xs).order|
              && PutAll(q, xs).order[a] == xs[i].id && PutAll(q, xs).order[b] == xs[j].id
  {
    var before := PutAll(q, xs[..j]);
    FirstPutBefore(q, xs, i, j);
    var a :| 0 <= a < |before.order| && before.order[a] == xs[i].id;
    var after := AfterPut(before, xs[j]);
    PutPlacement(before, xs[j]);
    PutKeepsInv(before, xs[j]);
    PutAllAround(q, xs, j);
    PutAllKeepsInv(after, xs[j + 1..]);
    var b := |before.order|;
    assert after.order[a] == xs[i].id && after.order[b] == xs[j].id;
  }

  /** Puts only ever queue ids that were queued already or were put. */
  lemma {:induction false} PutAllIdsFrom(q: QueueState, xs: seq<WsData>)
    requires Inv(q)
    ensures forall id :: id in PutAll(q, xs).order ==> id in q.order || id in Ids(xs)
    decreases |xs|
  {
    if xs != [] {
      PutKeepsInv(q, xs[0]);
      AddedSpec(q.order, xs[0].id);
      PutAllIdsFrom(AfterPut(q, xs[0]), xs[1..]);
      assert Ids(xs) == [xs[0].id] + Ids(xs[1..]);
    }
  }

  /** Draining hands out one job per queued id, oldest first. */
  lemma {:induction false} DrainFollowsOrder(q: QueueState)
    requires Inv(q)
    ensures Ids(Drain(q)) == q.order
    decreases |q.order|
  {
    if q.order != [] {
      var t := AfterGet(q);
      DrainFollowsOrder(t.state);
      assert Ids(Drain(q)) == [t.item.value.id] + Ids(Drain(t.state));
    }
  }

  /** Re-submitting a job before it is taken out: the later version is the one
      handed out. */
  lemma PutTwiceThenGet(q: QueueState, v1: WsData, v2: WsData)
    requires Inv(q) && q.order == [] && v1.id == v2.id && q.current != Some(v1.id)
    ensures AfterGet(AfterPut(AfterPut(q, v1), v2)).item == Some(v2)
    ensures AfterGet(AfterPut(AfterPut(q, v1), v2)).state.order == []
  {
    PutKeepsInv(q, v1);
    PutKeepsInv(AfterPut(q, v1), v2);
    AddedSpec(q.order, v1.id);
  }

  /** However many times a job is (re)submitted, draining the queue yields at
      most one job per id: only one result is ever produced for an id. */
  lemma OneJobPerId(q: QueueState, xs: seq<WsData>)
    requires Inv(q)
    ensures var r := PutAll(q, xs); Inv(r) && Distinct(Ids(Drain(r)))
  {
    PutAllKeepsInv(q, xs);
    DrainFollowsOrder(PutAll(q, xs));
  }

  class SetQueue {
    /** The pending ids, oldest first. */
    var queue: OrderedSet<Uuid>
    /** The latest job put for each pending id. */
    var items: map<Uuid, WsData>
    /** The id last handed out by `get`. */
    var current: Option<Uuid>
    /** `Queue.unfinished_tasks`. */
    var unfinishedTasks: int
    ghost var Repr: set<object>

    ghost function State(): QueueState
      reads this, queue
    {
      QueueState(queue.keys, items, current, unfinishedTasks)
    }

    ghost predicate Valid()
      reads this, Repr
    {
      && Repr == {this, queue}
      && queue.Valid()
      && Inv(State())
    }

    /** `SetQueue()`: `Queue.__init__` sets the counter to 0 and calls `_init`. */
    constructor ()
      ensures Valid() && fresh(Repr)
      ensures State() == Empty
    {
      queue := new OrderedSet([]);
      items := map[];
      current := None;
      unfinishedTasks := 0;
      new;
      Repr := {this, queue};
    }

    /** `_init`: a fresh ordered set, no jobs, nothing checked out; the counter stays. */
    method Init()
      modifies this
      ensures Valid() && fresh(queue) && Repr == {this, queue}
      ensures State() == QueueState([], map[], None, old(unfinishedTasks))
    {
      queue := new OrderedSet([]);
      items := map[];
      current := None;
      Repr := {this, queue};
    }

    method Put(item: WsData)
      requires Valid()
      modifies Repr
      ensures Valid() && Repr == old(Repr)
      ensures State() == AfterPut(old(State()), item)
    {
      PutKeepsInv(State(), item);
      if current != Some(item.id) {
        queue.Add(item.id);
        items := items[item.id := item];
      }
      unfinishedTasks := unfinishedTasks + 1;
    }

    /** `get(timeout=...)` or `get_nowait()`: None stands for Empty. */
    method Get() returns (r: Option<WsData>)
      requires Valid()
      modifies Repr
      ensures Valid() && Repr == old(Repr)
      ensures Taken(r, State()) == AfterGet(old(State()))
    {
      var n := queue.Length();
      if n == 0 {
        return None;
      }
      var id := queue.Pop();
      current := id;
      r := Some(items[id.value]);
      items := items - {id.value};
    }

    method TaskDone() returns (ok: bool)
      requires Valid()
      modifies this
      ensures Valid() && Repr == old(Repr) && queue == old(queue)
      ensures ok <==> AfterTaskDone(old(State())).Ok?
      ensures State() == if ok then AfterTaskDone(old(State())).value else old(State())
    {
      var unfinished := unfinishedTasks - 1;
      if unfinished < 0 {
        return false;
      }
      unfinishedTasks := unfinished;
      ok := true;
    }

    /** `clear`; `ok` is false when it raised ValueError. */
    method Clear() returns (ok: bool)
      requires Valid()
      modifies this
      ensures Valid() && fresh(Repr - old(Repr))
      ensures ok <==> AfterClear(old(State())).Ok?
      ensures State() == if ok then AfterClear(old(State())).value else old(State())
    {
      var n := queue.Length();
      var unfinished := unfinishedTasks - n;
      if unfinished < 0 {
        return false;
      }
      unfinishedTasks := unfinished;
      Init();
      ok := true;
    }

    /** `qsize()`. */
    method Size() returns (n: nat)
      requires Valid()
      ensures n == |State().order|
    {
      n := queue.Length();
    }
  }
}
