/** The documented behaviour of client-go's rate-limiting work queue, which the event bus relies
    on. Equal items collapse: an item is queued at most once, an item added again while it is
    being processed is queued when it is done, and nothing is accepted after shut-down. */
module WorkQueues {
  import opened Texts

  datatype WorkQueue<T> = WorkQueue(
    queue: seq<T>,
    dirty: set<T>,
    processing: set<T>,
    delayed: set<T>,
    shuttingDown: bool)
  {
    ghost predicate Valid() {
      && Distinct(queue)
      && (forall m :: m in queue ==> m in dirty && m !in processing)
      && (forall m :: m in dirty ==> m in queue || m in processing)
    }
  }

  function EmptyQueue<T>(): WorkQueue<T> {
    WorkQueue([], {}, {}, {}, false)
  }

  function Add<T(==)>(q: WorkQueue<T>, m: T): WorkQueue<T> {
    if q.shuttingDown || m in q.dirty then q
    else if m in q.processing then q.(dirty := q.dirty + {m})
    else q.(dirty := q.dirty + {m}, queue := q.queue + [m])
  }

  /** Hands out the head of the queue and marks it as being processed. */
  function Get<T(==)>(q: WorkQueue<T>): WorkQueue<T>
    requires q.queue != []
  {
    q.(queue := q.queue[1..], dirty := q.dirty - {q.queue[0]}, processing := q.processing + {q.queue[0]})
  }

  function Done<T(==)>(q: WorkQueue<T>, m: T): WorkQueue<T> {
    var r := q.(processing := q.processing - {m});
    if m in q.dirty then r.(queue := q.queue + [m]) else r
  }

  /** The delay of the rate limiter is at least a second, so the item always waits. */
  function AddRateLimited<T(==)>(q: WorkQueue<T>, m: T): WorkQueue<T> {
    if q.shuttingDown then q else q.(delayed := q.delayed + {m})
  }

  /** The delay of a waiting item has passed. */
  function Mature<T(==)>(q: WorkQueue<T>, m: T): WorkQueue<T> {
    Add(q.(delayed := q.delayed - {m}), m)
  }

  /** The queue is first in, first out: adding keeps the order of what is queued, puts a new item last, and
      after that the item is queued or, if it is being processed, due to be queued again. */
  lemma AddOrder<T>(q: WorkQueue<T>, m: T)
    requires q.Valid() && !q.shuttingDown
    ensures q.queue <= Add(q, m).queue && m in Add(q, m).dirty
    ensures m in Add(q, m).queue <==> m in q.queue || m !in q.processing
    ensures |Add(q, m).queue| == |q.queue| + if m in q.queue || m in q.processing then 0 else 1
  {
    if Add(q, m).queue != q.queue { assert Add(q, m).queue[|q.queue|] == m; }
  }

  /** An item that was added while it was being processed is queued last when it is done. */
  lemma DoneOrder<T>(q: WorkQueue<T>, m: T)
    requires q.Valid() && m in q.processing
    ensures q.queue <= Done(q, m).queue && m !in Done(q, m).processing
    ensures m in Done(q, m).queue <==> m in q.dirty
    ensures |Done(q, m).queue| == |q.queue| + if m in q.dirty then 1 else 0
  {
    if m in q.dirty { assert Done(q, m).queue[|q.queue|] == m; }
  }

  lemma AddValid<T>(q: WorkQueue<T>, m: T)
    requires q.Valid()
    ensures Add(q, m).Valid()
    ensures Mature(q, m).Valid()
  {
  }

  lemma GetValid<T>(q: WorkQueue<T>)
    requires q.Valid() && q.queue != []
    ensures Get(q).Valid()
    ensures q.queue[0] !in q.processing && q.queue[0] in Get(q).processing
  {
  }

  lemma DoneValid<T>(q: WorkQueue<T>, m: T)
    requires q.Valid() && m in q.processing
    ensures Done(q, m).Valid()
  {
  }
}
