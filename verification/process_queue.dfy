/** The process-shared FIFO queues (`multiprocessing.Queue`) that connect the
    session side and the worker processes, seen from one process at a time. */
module ProcessQueues {
  import opened Wrappers

  class ProcessQueue<T> {
    /** Queued items, oldest first. */
    var items: seq<T>

    constructor ()
      ensures items == []
    {
      items := [];
    }

    /** `put`: the queue is unbounded, so it always appends. */
    method Put(x: T)
      modifies this
      ensures items == old(items) + [x]
    {
      items := items + [x];
    }

    /** `get_nowait` (and a `get` that finds an item): the oldest item;
        Empty, written None, when there is none. */
    method GetNowait() returns (r: Option<T>)
      modifies this
      ensures old(items) == [] ==> r == None && items == []
      ensures old(items) != [] ==> r == Some(old(items)[0]) && items == old(items)[1..]
    {
      if items == [] {
        r := None;
      } else {
        r := Some(items[0]);
        items := items[1..];
      }
    }
  }
}
