/** The dispatch core, `libkeen::internal::Core`, as a sequential state
    machine. Worker threads and the `io_service` become a FIFO of posted
    work items that the environment runs one at a time, the transport is an
    oracle passed to every operation that sends, and the retry cache is a
    sequence of entries. */
module Dispatch {
  import Seqs
  import Address
  import opened RetryStore

  /** `Curl::sendEvent(url, data)`: true when the event was delivered. */
  type Transport = (string, string) -> bool

  /** The two values `postEvent` reads off its client. */
  datatype Client = Client(projectId: string, writeKey: string)

  /** What the machine supplies when a core is constructed: the value of
      `std::thread::hardware_concurrency()` and what the durable retry cache
      already holds. */
  datatype Host = Host(hardwareConcurrency: nat, persisted: seq<Entry>)

  /** A posted event. The source tells tasks apart by the address of their
      shared closure; here every task carries an identity that is never given
      out twice. */
  datatype Task = Task(id: nat, url: string, data: string) {
    function Payload(): Entry { Entry(url, data) }
  }

  /** A handler posted on the io_service: the wrapper of a task posted by
      `postEvent`, the outer item of `postCache`, or one of its retries. */
  datatype Work = Wrapper(task: Task) | CacheFlush(count: nat) | Retry(entry: Entry)

  /** The cache after running the body of `t`: the event is cached when,
      and only when, it could not be sent. */
  function RunTask(cache: seq<Entry>, t: Task, send: Transport): (r: seq<Entry>)
    ensures send(t.url, t.data) <==> r == cache
    ensures !send(t.url, t.data) ==> multiset(r) == multiset(cache) + multiset{t.Payload()}
    ensures |r| >= |cache| && r[..|cache|] == cache
  {
    if send(t.url, t.data) then cache else Push(cache, t.Payload())
  }

  /** The entries that running `tasks` one after the other adds to the
      cache: the payload of every task whose send fails, in task order. */
  function Failures(tasks: seq<Task>, send: Transport): (r: seq<Entry>)
    ensures |r| <= |tasks|
  {
    if tasks == [] then []
    else
      var last := tasks[|tasks| - 1];
      Failures(tasks[..|tasks| - 1], send) + (if send(last.url, last.data) then [] else [last.Payload()])
  }

  /** One retry item for each entry, in the same order. */
  function Retries(entries: seq<Entry>): (r: seq<Work>)
    ensures |r| == |entries|
    ensures forall i :: 0 <= i < |entries| ==> r[i] == Retry(entries[i])
  {
    if entries == [] then []
    else Retries(entries[..|entries| - 1]) + [Retry(entries[|entries| - 1])]
  }

  /** The number of workers `flush` starts: the hardware concurrency, or a
      single thread when the platform reports zero. */
  function PoolSize(hardwareConcurrency: nat): (n: nat)
    ensures n >= 1 && n >= hardwareConcurrency
    ensures hardwareConcurrency >= 1 ==> n == hardwareConcurrency
    ensures hardwareConcurrency == 0 ==> n == 1
  {
    if hardwareConcurrency == 0 then 1 else hardwareConcurrency
  }

  /** An entry is cached by a run of `tasks` exactly when some task with
      that payload fails to send. */
  lemma {:induction false} FailuresCached(tasks: seq<Task>, send: Transport, e: Entry)
    ensures e in Failures(tasks, send) <==> exists t :: t in tasks && !send(t.url, t.data) && t.Payload() == e
  {
    if tasks != [] {
      var init, last := tasks[..|tasks| - 1], tasks[|tasks| - 1];
      assert tasks == init + [last];
      FailuresCached(init, send, e);
    }
  }

  /** When every send succeeds, running tasks caches nothing. */
  lemma {:induction false} FailuresNone(tasks: seq<Task>, send: Transport)
    requires forall t :: t in tasks ==> send(t.url, t.data)
    ensures Failures(tasks, send) == []
  {
    if tasks != [] {
      FailuresNone(tasks[..|tasks| - 1], send);
    }
  }

  /** The task with identity `id` is pending in the ledger or has run. */
  ghost predicate Known(ledger: seq<Task>, executed: seq<Task>, id: nat) {
    (exists t :: t in ledger && t.id == id) || (exists t :: t in executed && t.id == id)
  }

  /** The bookkeeping of the ledger: every ledgered task has an identity
      below `nextId` and unlike the others, still has its wrapper queued and
      has not run yet; no task body has run twice; and every task given an
      identity is still in the ledger or has run, so none is dropped before
      its body runs. */
  ghost predicate Bookkeeping(ledger: seq<Task>, queue: seq<Work>, executed: seq<Task>, nextId: nat) {
    && (forall id: nat :: id < nextId ==> Known(ledger, executed, id))
    && (forall i :: 0 <= i < |ledger| ==> ledger[i].id < nextId)
    && (forall i, j :: 0 <= i < j < |ledger| ==> ledger[i].id != ledger[j].id)
    && (forall t :: t in ledger ==> Wrapper(t) in queue && t !in executed)
    && (forall i :: 0 <= i < |executed| ==> executed[i].id < nextId)
    && (forall i, j :: 0 <= i < j < |executed| ==> executed[i] != executed[j])
  }

  /** Posting a task under the next identity keeps the bookkeeping, and
      that task is new to the ledger and has never run. */
  lemma PostKeepsBookkeeping(ledger: seq<Task>, queue: seq<Work>, executed: seq<Task>, nextId: nat, url: string, data: string)
    requires Bookkeeping(ledger, queue, executed, nextId)
    ensures var t := Task(nextId, url, data);
      && t !in ledger && t !in executed
      && Bookkeeping(ledger + [t], queue + [Wrapper(t)], executed, nextId + 1)
  {
    var t := Task(nextId, url, data);
    var ledger', queue' := ledger + [t], queue + [Wrapper(t)];
    forall u | u in ledger'
      ensures Wrapper(u) in queue' && u !in executed
    {
      if u != t {
        assert u in ledger;
      }
    }
    forall id: nat | id < nextId + 1
      ensures Known(ledger', executed, id)
    {
      if id == nextId {
        assert t in ledger';
      } else {
        assert Known(ledger, executed, id);
        if exists u :: u in ledger && u.id == id {
          var u :| u in ledger && u.id == id;
          assert u in ledger';
        }
      }
    }
  }

  /** Running a handler that is not a wrapper, and posting what it posts,
      keeps the bookkeeping. */
  lemma HandlerKeepsBookkeeping(ledger: seq<Task>, queue: seq<Work>, executed: seq<Task>, nextId: nat, posted: seq<Work>)
    requires Bookkeeping(ledger, queue, executed, nextId)
    requires queue != [] && !queue[0].Wrapper?
    ensures Bookkeeping(ledger, queue[1..] + posted, executed, nextId)
  {
    forall t | t in ledger
      ensures Wrapper(t) in queue[1..] + posted
    {
      assert Wrapper(t) in queue[1..];
    }
  }

  /** Erasing the task at position `k` of a ledger with distinct
      identities leaves a ledger with distinct identities, none of them the
      erased task's. */
  lemma EraseKeepsIds(ledger: seq<Task>, k: nat)
    requires k < |ledger|
    requires forall i, j :: 0 <= i < j < |ledger| ==> ledger[i].id != ledger[j].id
    ensures var rest := ledger[..k] + ledger[k + 1..];
      && (forall u :: u in rest ==> u in ledger && u.id != ledger[k].id)
      && (forall u :: u in ledger && u.id != ledger[k].id ==> u in rest)
      && (forall i, j :: 0 <= i < j < |rest| ==> rest[i].id != rest[j].id)
  {
    var rest := ledger[..k] + ledger[k + 1..];
    Seqs.RemoveAtShifts(ledger, k);
    forall u | u in rest
      ensures u in ledger && u.id != ledger[k].id
    {
      var i :| 0 <= i < |rest| && rest[i] == u;
      var j := if i < k then i else i + 1;
      assert u == ledger[j] && j != k;
    }
    forall u | u in ledger && u.id != ledger[k].id
      ensures u in rest
    {
      var j :| 0 <= j < |ledger| && ledger[j] == u;
      assert j != k;
      if j < k {
        assert rest[j] == u;
      } else {
        assert rest[j - 1] == u;
      }
    }
    forall i, j | 0 <= i < j < |rest|
      ensures rest[i].id != rest[j].id
    {
      var i', j' := if i < k then i else i + 1, if j < k then j else j + 1;
      assert rest[i] == ledger[i'] && rest[j] == ledger[j'] && i' < j';
    }
  }

  /** Running the wrapper at the head of the queue keeps the bookkeeping,
      and its task leaves the ledger for good. */
  lemma WrapperKeepsBookkeeping(ledger: seq<Task>, queue: seq<Work>, executed: seq<Task>, nextId: nat, task: Task)
    requires Bookkeeping(ledger, queue, executed, nextId)
    requires queue != [] && queue[0] == Wrapper(task) && task in ledger
    ensures task !in Seqs.RemoveFirst(ledger, task)
    ensures Bookkeeping(Seqs.RemoveFirst(ledger, task), queue[1..], executed + [task], nextId)
  {
    var k := Seqs.Find(ledger, task);
    var rest := ledger[..k] + ledger[k + 1..];
    assert Seqs.RemoveFirst(ledger, task) == rest;
    EraseKeepsIds(ledger, k);
    forall u | u in rest
      ensures Wrapper(u) in queue[1..] && u !in executed + [task]
    {
      assert u in ledger && u != task;
      assert Wrapper(u) in queue;
    }
    assert ledger[k] == task && task !in executed;
    RunKeepsLog(executed, nextId, task);
    WrapperKeepsKnown(ledger, executed, nextId, k, rest, executed + [task]);
  }

  /** Moving the task at position `k` from the ledger to the log keeps
      every identity given out accounted for. */
  lemma WrapperKeepsKnown(ledger: seq<Task>, executed: seq<Task>, nextId: nat, k: nat, rest: seq<Task>, ran: seq<Task>)
    requires k < |ledger| && rest == ledger[..k] + ledger[k + 1..] && ran == executed + [ledger[k]]
    requires forall i, j :: 0 <= i < j < |ledger| ==> ledger[i].id != ledger[j].id
    requires forall id: nat :: id < nextId ==> Known(ledger, executed, id)
    ensures forall id: nat :: id < nextId ==> Known(rest, ran, id)
  {
    EraseKeepsIds(ledger, k);
    forall id: nat | id < nextId
      ensures Known(rest, ran, id)
    {
      if id == ledger[k].id {
        assert ledger[k] in ran;
      } else {
        assert Known(ledger, executed, id);
        if exists u :: u in ledger && u.id == id {
          var u :| u in ledger && u.id == id;
          assert u in rest;
        } else {
          var u :| u in executed && u.id == id;
          assert u in ran;
        }
      }
    }
  }

  /** Logging a task that has not run and whose identity was given out
      keeps the log free of repeats, with identities given out. */
  lemma RunKeepsLog(executed: seq<Task>, nextId: nat, task: Task)
    requires forall i :: 0 <= i < |executed| ==> executed[i].id < nextId
    requires forall i, j :: 0 <= i < j < |executed| ==> executed[i] != executed[j]
    requires task !in executed && task.id < nextId
    ensures var ran := executed + [task];
      && (forall i :: 0 <= i < |ran| ==> ran[i].id < nextId)
      && (forall i, j :: 0 <= i < j < |ran| ==> ran[i] != ran[j])
  {
    var ran := executed + [task];
    forall i, j | 0 <= i < j < |ran|
      ensures ran[i] != ran[j]
    {
      assert ran[i] == executed[i];
      if j < |executed| {
        assert ran[j] == executed[j];
      } else {
        assert ran[j] == task;
      }
    }
    forall i | 0 <= i < |ran|
      ensures ran[i].id < nextId
    {
      if i < |executed| {
        assert ran[i] == executed[i];
      }
    }
  }

  /** Running every ledgered task and clearing the ledger keeps the
      bookkeeping. */
  lemma DrainKeepsBookkeeping(ledger: seq<Task>, queue: seq<Work>, executed: seq<Task>, nextId: nat)
    requires Bookkeeping(ledger, queue, executed, nextId)
    ensures Bookkeeping([], queue, executed + ledger, nextId)
  {
    var all := executed + ledger;
    forall id: nat | id < nextId
      ensures Known([], all, id)
    {
      assert Known(ledger, executed, id);
      if exists u :: u in ledger && u.id == id {
        var u :| u in ledger && u.id == id;
        assert u in all;
      } else {
        var u :| u in executed && u.id == id;
        assert u in all;
      }
    }
    forall i, j | 0 <= i < j < |all|
      ensures all[i] != all[j]
    {
      if j < |executed| {
        assert all[i] == executed[i] && all[j] == executed[j];
      } else if i < |executed| {
        assert all[i] in executed && all[j] == ledger[j - |executed|];
      } else {
        assert all[i] == ledger[i - |executed|] && all[j] == ledger[j - |executed|];
      }
    }
  }

  class Core {
    /** `mTaskVec`: the tasks posted and not yet finished, in posting order. */
    var ledger: seq<Task>
    /** The handlers posted on `mIoService` and not yet run, oldest first. */
    var queue: seq<Work>
    /** The contents of the retry cache behind `mCacheRef`. */
    var cache: seq<Entry>
    /** `mThreadPool.size()`. */
    var workers: nat
    /** The identity of the next task. */
    var nextId: nat
    /** Every task body run so far, in the order they ran. */
    ghost var executed: seq<Task>

    ghost predicate Consistent()
      reads this
    {
      Bookkeeping(ledger, queue, executed, nextId)
    }

    /** Consistent bookkeeping and a running pool. */
    ghost predicate Valid()
      reads this
    {
      Consistent() && workers >= 1
    }

    /** The state of a core that has just been constructed on `host`. */
    ghost predicate Initial(host: Host)
      reads this
    {
      && ledger == [] && queue == [] && executed == [] && nextId == 0
      && cache == host.persisted && workers == PoolSize(host.hardwareConcurrency)
    }

    /** `Core()`: opens the transport and the cache, then runs `flush` to
        start the pool. */
    constructor (host: Host)
      ensures Valid() && Initial(host)
    {
      ledger, queue, cache, workers, nextId, executed := [], [], host.persisted, 0, 0, [];
      new;
      // the ledger is empty, so this flush never calls the transport
      Flush(host.hardwareConcurrency, (url, data) => true);
    }

    /** `postEvent(client, name, data)`: registers one new task at the end
        of the ledger and posts its wrapper. */
    method PostEvent(client: Client, name: string, data: string)
      requires Valid()
      modifies this
      ensures Valid()
      ensures var t := Task(old(nextId), Address.BuildAddress(client.projectId, client.writeKey, name), data);
        && t !in old(ledger) && t !in old(executed)
        && ledger == old(ledger) + [t]
        && queue == old(queue) + [Wrapper(t)]
      ensures cache == old(cache) && workers == old(workers) && executed == old(executed)
      ensures nextId == old(nextId) + 1
    {
      var url := Address.BuildAddress(client.projectId, client.writeKey, name);
      PostKeepsBookkeeping(ledger, queue, executed, nextId, url, data);
      var task := Task(nextId, url, data);
      nextId := nextId + 1;
      ledger := ledger + [task];
      queue := queue + [Wrapper(task)];
    }

    /** `postCache(count)`: posts the item that will retry up to `count`
        cached events. */
    method PostCache(count: nat)
      requires Valid()
      modifies this
      ensures Valid()
      ensures queue == old(queue) + [CacheFlush(count)]
      ensures ledger == old(ledger) && cache == old(cache) && workers == old(workers)
      ensures executed == old(executed) && nextId == old(nextId)
    {
      queue := queue + [CacheFlush(count)];
      forall t | t in ledger
        ensures Wrapper(t) in queue
      {
        assert Wrapper(t) in old(queue);
      }
    }

    /** A worker takes the oldest handler off the queue and runs it. A
        wrapper needs its task in the ledger: erasing the end iterator that
        `find` returns for a missing task is undefined. */
    method RunOne(send: Transport) returns (w: Work)
      requires Valid() && queue != []
      requires queue[0].Wrapper? ==> queue[0].task in ledger
      modifies this
      ensures Valid()
      ensures w == old(queue)[0]
      ensures workers == old(workers) && nextId == old(nextId)
      ensures w.Wrapper? ==>
        && cache == RunTask(old(cache), w.task, send)
        && executed == old(executed) + [w.task]
        && ledger == Seqs.RemoveFirst(old(ledger), w.task)
        && w.task !in ledger
        && queue == old(queue)[1..]
      ensures w.CacheFlush? ==>
        && queue == old(queue)[1..] + Retries(Pop(old(cache), w.count))
        && cache == old(cache) && ledger == old(ledger) && executed == old(executed)
      ensures w.Retry? ==>
        && cache == (if send(w.entry.url, w.entry.data) then Remove(old(cache), w.entry) else old(cache))
        && queue == old(queue)[1..] && ledger == old(ledger) && executed == old(executed)
    {
      w := queue[0];
      match w
      case Wrapper(task) => RunWrapper(task, send);
      case CacheFlush(count) => RunCacheFlush(count);
      case Retry(entry) => RunRetry(entry, send);
    }

    /** The wrapper `postEvent` posts: runs the task body, then erases the
        task from the ledger, at the position `find` reports. */
    method RunWrapper(task: Task, send: Transport)
      requires Valid() && queue != [] && queue[0] == Wrapper(task) && task in ledger
      modifies this
      ensures Valid()
      ensures cache == RunTask(old(cache), task, send)
      ensures executed == old(executed) + [task]
      ensures ledger == Seqs.RemoveFirst(old(ledger), task) && task !in ledger
      ensures queue == old(queue)[1..] && workers == old(workers) && nextId == old(nextId)
    {
      WrapperKeepsBookkeeping(ledger, queue, executed, nextId, task);
      queue := queue[1..];
      cache := RunTask(cache, task, send);
      executed := executed + [task];
      var k := Seqs.Find(ledger, task);
      ledger := ledger[..k] + ledger[k + 1..];
    }

    /** The outer item `postCache` posts: pops up to `count` cached entries
        and posts one retry for each, in the order popped. */
    method RunCacheFlush(count: nat)
      requires Valid() && queue != [] && queue[0] == CacheFlush(count)
      modifies this
      ensures Valid()
      ensures queue == old(queue)[1..] + Retries(Pop(old(cache), count))
      ensures cache == old(cache) && ledger == old(ledger) && executed == old(executed)
      ensures workers == old(workers) && nextId == old(nextId)
    {
      HandlerKeepsBookkeeping(ledger, queue, executed, nextId, Retries(Pop(cache, count)));
      queue := queue[1..];
      var caches := Pop(cache, count);
      var i := 0;
      while i < |caches|
        invariant 0 <= i <= |caches|
        invariant queue == old(queue)[1..] + Retries(caches[..i])
        invariant cache == old(cache) && ledger == old(ledger) && executed == old(executed)
        invariant workers == old(workers) && nextId == old(nextId)
      {
        assert caches[..i + 1][..i] == caches[..i];
        queue := queue + [Retry(caches[i])];
        i := i + 1;
      }
      assert caches[..|caches|] == caches;
    }

    /** A retry posted by the outer item: the entry leaves the cache only
        when it is delivered this time; otherwise the cache is untouched. */
    method RunRetry(entry: Entry, send: Transport)
      requires Valid() && queue != [] && queue[0] == Retry(entry)
      modifies this
      ensures Valid()
      ensures cache == if send(entry.url, entry.data) then Remove(old(cache), entry) else old(cache)
      ensures queue == old(queue)[1..] && ledger == old(ledger) && executed == old(executed)
      ensures workers == old(workers) && nextId == old(nextId)
    {
      HandlerKeepsBookkeeping(ledger, queue, executed, nextId, []);
      assert queue[1..] + [] == queue[1..];
      queue := queue[1..];
      if send(entry.url, entry.data) {
        cache := Remove(cache, entry);
      }
    }

    /** The drain loop of `flush`: runs the body of every task in `tasks`,
        in order, against the cache. */
    static method Drain(cache: seq<Entry>, tasks: seq<Task>, send: Transport) returns (drained: seq<Entry>)
      ensures drained == cache + Failures(tasks, send)
    {
      drained := cache;
      for i := 0 to |tasks|
        invariant drained == cache + Failures(tasks[..i], send)
      {
        assert tasks[..i + 1][..i] == tasks[..i];
        drained := RunTask(drained, tasks[i], send);
      }
      assert tasks[..|tasks|] == tasks;
    }

    /** `flush()`: stops the pool, runs every ledgered task on the caller in
        ledger order, clears the ledger and starts `PoolSize` workers. The
        queue is kept. */
    method Flush(hardwareConcurrency: nat, send: Transport)
      requires Consistent()
      modifies this
      ensures Valid()
      ensures cache == old(cache) + Failures(old(ledger), send)
      ensures executed == old(executed) + old(ledger)
      ensures ledger == [] && workers == PoolSize(hardwareConcurrency)
      ensures queue == old(queue) && nextId == old(nextId)
    {
      // stopping the io_service and joining the threads change nothing here
      DrainKeepsBookkeeping(ledger, queue, executed, nextId);
      workers := 0;
      var drained := Drain(cache, ledger, send);
      cache, executed := drained, executed + ledger;
      ledger := [];
      var threads := hardwareConcurrency;
      if threads == 0 {
        threads := 1;
      }
      var t := 0;
      while t < threads
        invariant 0 <= t <= threads && workers == t
        invariant ledger == [] && queue == old(queue) && nextId == old(nextId)
        invariant cache == old(cache) + Failures(old(ledger), send)
        invariant executed == old(executed) + old(ledger)
      {
        workers := workers + 1;
        t := t + 1;
      }
    }
  }
}
