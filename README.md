# libkeen dispatch core, modelled in Dafny

libkeen is a client for the Keen IO event collector. Its dispatch core is
`libkeen::internal::Core`. The core is a process-wide singleton. It turns
`postEvent(client, name, data)` into a task that sends one event to
`https://api.keen.io/3.0/projects/<id>/events/<name>?api_key=<key>`. If the
send fails, the event goes to a durable retry cache instead. The core keeps
every pending task in a ledger (`mTaskVec`) until the task has run.
`postCache(count)` retries up to `count` cached events. `flush()` stops the
worker pool, runs every pending task on the caller, and restarts the pool.

Here that core is a sequential state machine:

- **Singleton slot.** `Singleton.Registry` holds the function-local static
  `CoreRef` as a nullable `core` field.
- **Ledger, queue and cache.** `Dispatch.Core` has one field each for the
  ledger, the `io_service` queue (a FIFO of `Work` items), the retry cache
  (a sequence of `Entry` values) and the pool size.
- **Run log.** A ghost log records every task body run so far.
- **Transport.** `Curl::sendEvent` is an oracle `(url, data) -> bool`
  passed to every step that sends.
- **Scheduling.** The worker threads become `Core.RunOne`. The environment
  calls it to run the oldest queued handler.
- **Address.** `Address.BuildAddress` is the pure address formatter.
  `Address.Parse` inverts it on addresses whose id holds no '/' and whose
  name holds no '?'. Without that restriction two different events can
  share an address (`Address.AddressesCollide`).
- **Cache operations.** `RetryStore` gives `Cache::push/pop/remove`
  abstract contracts. The order in which `pop` hands out entries is an
  assumption of the model (see "## Left out").

The invariant `Dispatch.Bookkeeping` is kept by every operation:

- ledgered tasks have distinct identities;
- each ledgered task still has its wrapper queued;
- no ledgered task has run yet;
- no task body has run twice;
- every task given an identity is still in the ledger or has run, so no
  task is dropped before its body runs.

`Core.RunOne` can run a wrapper only while that wrapper's task is still in
the ledger. `erase(find(...))` on a missing task is undefined behaviour.

## Model

| member | source | states |
|---|---|---|
| Seqs.Find | source/internal/core.cpp:117 | `std::find`: the index of the first match, every earlier element differs, and the end position exactly when there is no match |
| Seqs.RemoveFirst | source/internal/core.cpp:117 | `erase(find(...))`: the first match is taken out, one fewer element, the multiset loses exactly that element, and nothing changes when there is no match |
| Address.BuildAddress | source/internal/core.cpp:47-57 | the streamed address is exactly `https://api.keen.io/3.0/projects/` + id + `/events/` + name + `?api_key=` + key |
| Address.ParseBuild | source/internal/core.cpp:47-57 | the address can be parsed back into its id, key and name when the id holds no '/' and the name no '?' |
| Address.BuildParse | source/internal/core.cpp:47-57 | every string that parses is the address of the fields it parses to |
| Address.AddressesCollide | source/internal/core.cpp:47-57 | fields are not escaped, so two different (id, name) pairs give the same address |
| RetryStore.Push | source/internal/core.cpp:105 | `push` stores the pair once more at the end and keeps everything already stored |
| RetryStore.Pop | source/internal/core.cpp:136 | `pop(out, n)` yields at most n stored entries, oldest first: exactly n, or all of them when fewer are stored |
| RetryStore.Remove | source/internal/core.cpp:147 | `remove` takes out one matching entry when there is one and is a no-op otherwise |
| RetryStore.RemoveUndoesPush | source/internal/core.cpp:105 | removing a pushed pair restores the cache's contents, and restores the exact sequence when the pair was absent before |
| Dispatch.RunTask | source/internal/core.cpp:102-106 | the task body leaves the cache unchanged exactly when the send succeeds, and otherwise adds the (url, data) pair exactly once |
| Dispatch.Failures | source/internal/core.cpp:174-175 | running tasks in turn adds at most one cache entry per task |
| Dispatch.FailuresCached | source/internal/core.cpp:174-175 | an entry is cached by a run of tasks if and only if some task with that payload fails to send |
| Dispatch.FailuresNone | source/internal/core.cpp:174-175 | when every send succeeds, draining the tasks caches nothing |
| Dispatch.Retries | source/internal/core.cpp:140-149 | one retry item per popped entry, in the order popped |
| Dispatch.PoolSize | source/internal/core.cpp:188-194 | the pool size is the hardware concurrency, and 1 when that is 0 |
| Dispatch.PostKeepsBookkeeping | source/internal/core.cpp:108-118 | a task posted under a fresh identity is new to the ledger and has never run, and the ledger invariant still holds |
| Dispatch.HandlerKeepsBookkeeping | source/internal/core.cpp:133-149 | running a cache item or a retry, and posting what it posts, keeps the ledger invariant |
| Dispatch.EraseKeepsIds | source/internal/core.cpp:117 | erasing one task from a ledger of distinct identities leaves distinct identities, none of them the erased task's |
| Dispatch.WrapperKeepsBookkeeping | source/internal/core.cpp:113-118 | after its wrapper runs, the task is gone from the ledger for good, and its body has run once and never before |
| Dispatch.WrapperKeepsKnown | source/internal/core.cpp:113-117 | moving the finished task from the ledger to the run log keeps every posted task accounted for, pending or run |
| Dispatch.RunKeepsLog | source/internal/core.cpp:113-114 | logging the run of a task that had not run yet keeps every task body run at most once |
| Dispatch.DrainKeepsBookkeeping | source/internal/core.cpp:172-182 | running every ledgered task and clearing the ledger keeps every task body run at most once, and every drained task is accounted for in the run log |
| Dispatch.Core.constructor | source/internal/core.cpp:59-66 | a new core has an empty ledger and queue, the persisted cache, and `PoolSize` workers |
| Dispatch.Core.PostEvent | source/internal/core.cpp:99-118 | exactly one new task is appended to the ledger and exactly one wrapper to the queue; that task was never seen before; the cache and workers are unchanged |
| Dispatch.Core.PostCache | source/internal/core.cpp:133-150 | exactly one cache item is appended to the queue; nothing else changes |
| Dispatch.Core.RunOne | source/internal/core.cpp:113-149 | runs the oldest handler, and requires that a wrapper's task still be in the ledger; the new state for each kind of handler is given below |
| Dispatch.Core.RunWrapper | source/internal/core.cpp:113-118 | the task body runs once, with the cache effect of `RunTask`; then the first ledger entry for that task is erased, and the task is no longer in the ledger |
| Dispatch.Core.RunCacheFlush | source/internal/core.cpp:133-150 | the queue grows by one retry for each of at most `count` popped entries, in order; the cache is unchanged |
| Dispatch.Core.RunRetry | source/internal/core.cpp:144-148 | the entry leaves the cache only when its send succeeds; a failed send changes nothing and pushes nothing again |
| Dispatch.Core.Drain | source/internal/core.cpp:174-175 | the drain loop caches exactly the failures of the ledger, in ledger order |
| Dispatch.Core.Flush | source/internal/core.cpp:159-203 | every ledgered task runs exactly once, in order; the ledger is then empty; the worker count is max(hw, 1); the queue is kept |
| Singleton.UnsignedMinusOne | source/internal/core.cpp:209 | `static_cast<unsigned>(n) - 1` in 32-bit arithmetic: n - 1 for 1 <= n < 2^32, and it wraps to 2^32 - 1 at 0 |
| Singleton.Registry.constructor | source/internal/core.cpp:13 | the static reference starts empty |
| Singleton.Registry.Access | source/internal/core.cpp:11-32 | `Current` leaves the slot alone; `Release` empties it; `Renew` keeps an existing core and fills an empty slot with a freshly constructed one; the result is the slot |
| Singleton.Registry.Get | source/internal/core.cpp:34-40 | `instance()` always returns a core: the existing one, never replaced, or a newly constructed one when the slot was empty |
| Singleton.Registry.ReleaseCore | source/internal/core.cpp:42-45 | `release()` leaves the slot empty |
| Singleton.Registry.UseCount | source/internal/core.cpp:205-210 | 0 when there is no core; otherwise the callers' references plus the registry's, within the `unsigned` range |
| Scenarios.FailedPostIsCached | source/internal/core.cpp:99-118 | a post whose send fails leaves exactly its own address and payload in the cache and an empty ledger |
| Scenarios.FlushRunsInOrder | source/internal/core.cpp:172-194 | with every send failing, flush caches two pending events in posting order, and starts one worker when hw is 0 |
| Scenarios.RetryDeliversPopped | source/internal/core.cpp:133-150 | three cached entries, a retry of 2, and all sends succeed: exactly the third entry remains |
| Scenarios.FailedRetryKeepsCache | source/internal/core.cpp:144-148 | a failed retry leaves the cache and pushes nothing again |
| Scenarios.FlushLeavesStaleWrapper | source/internal/core.cpp:162-185 | after flush has run a task itself, its wrapper is still queued while the task has left the ledger |
| Scenarios.SingletonLifecycle | source/internal/core.cpp:11-45 | `instance()` twice returns the same core; with those two references held the count is 3; after `release()` the count is 0 and `instance()` constructs a new core |

## Left out

- Threads, `std::thread::join`, the internals of `io_service::stop/reset/run`, and the two mutexes. Every call and every handler runs alone, in queue order.
- The unlocked iteration of `mTaskVec` in `flush` (core.cpp:174-175). It races with concurrent workers, which a sequential model cannot express.
- Whether a handler left queued across `flush` runs again. The queue is kept, as the source never clears it. A wrapper whose task has already left the ledger violates `Core.RunOne`'s precondition, and no behaviour is invented for it. `Scenarios.FlushLeavesStaleWrapper` shows that `flush` produces exactly this state.
- The internals of `Curl` (HTTP, TLS) and `Cache` (persistence). These are foreign collaborators. The first is an oracle; the second is a sequence with the contracts in `RetryStore`.
- `RetryStore.Pop`: the entries `pop` hands out are assumed to be the oldest ones, in insertion order. The source of `Cache` is not part of this model, and the core relies only on receiving at most n stored entries. `Scenarios.RetryDeliversPopped` depends on this choice.
- `RetryStore.Pop`: `pop` is modelled as leaving the popped entries in the store. Only `remove` after a successful resend takes them out, which is what core.cpp:146-147 relies on. A destructive `pop` would lose every entry whose retry fails, and the model does not cover that variant.
- Logging (`LOG_*`, `Logger::pull`), since it is output only.
- The try/catch blocks and the destructor (core.cpp:68-93 and the handlers of 97-124 and 129-156). They only concern exceptions and shutdown.
- `Singleton.Registry.UseCount`: `shared_ptr` reference counting is not modelled. The number of references callers hold is a parameter, `holders`.
- `Dispatch.Core.PostCache`: `count` is an `unsigned` in the source and a `nat` here. Dispatch counts are never large enough to wrap.
- Task identity: the source compares tasks by the address of their shared closure. Here each task carries an identity drawn from a counter, and the counter is never repeated.
