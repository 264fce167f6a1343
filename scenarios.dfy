/** Concrete scenarios whose outcomes are proved, each stated in full:
    they exercise the contracts of `Dispatch` and `Singleton` the way
    a client of the library uses the core. */
module Scenarios {
  import Address
  import opened RetryStore
  import opened Dispatch
  import opened Singleton

  /** An event whose send fails ends up in the cache exactly once, under
      the address `buildAddress` gives it, and leaves the ledger. */
  method FailedPostIsCached() returns (cached: seq<Entry>, pending: nat)
    ensures cached == [Entry(Address.BuildAddress("p1", "k1", "purchase"), "{}")]
    ensures pending == 0
  {
    var core := new Core(Host(4, []));
    core.PostEvent(Client("p1", "k1"), "purchase", "{}");
    var _ := core.RunOne((url, data) => false);
    cached, pending := core.cache, |core.ledger|;
  }

  /** `flush` runs the pending tasks in posting order: with every send
      failing, the cache receives their payloads in that order. */
  method FlushRunsInOrder() returns (cached: seq<Entry>, workers: nat)
    ensures cached == [Entry(Address.BuildAddress("p", "k", "a"), "1"), Entry(Address.BuildAddress("p", "k", "b"), "2")]
    ensures workers == 1
  {
    var core := new Core(Host(8, []));
    core.PostEvent(Client("p", "k"), "a", "1");
    core.PostEvent(Client("p", "k"), "b", "2");
    core.Flush(0, (url, data) => false);
    cached, workers := core.cache, core.workers;
  }

  /** Retrying two of three cached entries with a transport that delivers
      everything takes exactly those two out of the cache. */
  method RetryDeliversPopped() returns (cached: seq<Entry>)
    ensures cached == [Entry("u3", "d3")]
  {
    var e1, e2, e3 := Entry("u1", "d1"), Entry("u2", "d2"), Entry("u3", "d3");
    assert Pop([e1, e2, e3], 2) == [e1, e2];
    assert Retries([e1, e2]) == [Retry(e1), Retry(e2)];
    assert Remove([e1, e2, e3], e1) == [e2, e3] by {
      assert Seqs.Find([e1, e2, e3], e1) == 0;
    }
    assert Remove([e2, e3], e2) == [e3] by {
      assert Seqs.Find([e2, e3], e2) == 0;
    }
    var core := new Core(Host(2, [e1, e2, e3]));
    core.PostCache(2);
    var deliver: Transport := (url, data) => true;
    var _ := core.RunOne(deliver);
    assert core.queue == [Retry(e1), Retry(e2)] && core.cache == [e1, e2, e3];
    var _ := core.RunOne(deliver);
    assert core.queue == [Retry(e2)] && core.cache == [e2, e3];
    var _ := core.RunOne(deliver);
    cached := core.cache;
  }

  /** A retry whose send fails leaves the cache as it was: nothing is
      pushed again. */
  method FailedRetryKeepsCache() returns (cached: seq<Entry>, queued: nat)
    ensures cached == [Entry("u", "d")] && queued == 0
  {
    var core := new Core(Host(1, [Entry("u", "d")]));
    core.PostCache(5);
    var _ := core.RunOne((url, data) => false);
    var _ := core.RunOne((url, data) => false);
    cached, queued := core.cache, |core.queue|;
  }

  /** After `flush` has run a pending task itself, that task's wrapper is
      still queued while the task has left the ledger, having run once
      already: running the wrapper would run the body a second time and
      erase a task `find` cannot find. */
  method FlushLeavesStaleWrapper() returns (stale: bool)
    ensures stale
  {
    var core := new Core(Host(4, []));
    core.PostEvent(Client("p", "k"), "e", "{}");
    core.Flush(4, (url, data) => true);
    assert core.queue[0].task in core.executed;
    stale := core.queue != [] && core.queue[0].Wrapper? && core.queue[0].task !in core.ledger;
  }

  /** `instance()` twice gives the same core, counted 3 while the caller
      holds both references; after `release()` the count
      is zero and `instance()` constructs a different one. */
  method SingletonLifecycle() returns (same: bool, countHeld: nat, countReleased: nat, renewed: bool)
    ensures same && countHeld == 3 && countReleased == 0 && renewed
  {
    var host := Host(2, []);
    var registry := new Registry();
    var first := registry.Get(host);
    var second := registry.Get(host);
    same := first == second;
    // the caller holds `first` and `second`
    countHeld := registry.UseCount(2);
    registry.ReleaseCore();
    countReleased := registry.UseCount(0);
    var third := registry.Get(host);
    renewed := third != first;
  }
}
