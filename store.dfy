/** The retry cache that `Core` reaches through `mCacheRef`: a store of
    (address, payload) pairs that could not be delivered. Its persistence
    is not modelled; its contents are a sequence in insertion order, and
    its three operations are given the contracts the core relies on. */
module RetryStore {
  import Seqs

  /** A cached event, identified by its value. */
  datatype Entry = Entry(url: string, data: string)

  /** `push(url, data)`: the pair is stored once more and nothing else
      changes. */
  function Push(cache: seq<Entry>, e: Entry): (r: seq<Entry>)
    ensures |r| == |cache| + 1 && r[..|cache|] == cache && r[|cache|] == e
    ensures multiset(r) == multiset(cache) + multiset{e}
  {
    cache + [e]
  }

  /** `pop(out, n)`: up to `n` stored entries, oldest first. The entries
      stay in the store; only `Remove` takes them out. */
  function Pop(cache: seq<Entry>, n: nat): (out: seq<Entry>)
    ensures |out| <= n && |out| <= |cache|
    ensures |out| == n || out == cache
    ensures multiset(out) <= multiset(cache)
    ensures forall i :: 0 <= i < |out| ==> out[i] == cache[i]
  {
    var k := if n < |cache| then n else |cache|;
    assert cache == cache[..k] + cache[k..];
    cache[..k]
  }

  /** `remove(url, data)`: one matching entry goes, if there is one. */
  function Remove(cache: seq<Entry>, e: Entry): (r: seq<Entry>)
    ensures e !in cache ==> r == cache
    ensures e in cache ==> multiset(r) == multiset(cache) - multiset{e} && |r| == |cache| - 1
  {
    Seqs.RemoveFirst(cache, e)
  }

  /** Removing what was just pushed gives back the store's contents; when
      the entry was not stored before, the very same sequence. */
  lemma RemoveUndoesPush(cache: seq<Entry>, e: Entry)
    ensures multiset(Remove(Push(cache, e), e)) == multiset(cache)
    ensures e !in cache ==> Remove(Push(cache, e), e) == cache
  {
    var pushed := Push(cache, e);
    assert e in pushed by {
      assert pushed[|cache|] == e;
    }
    if e !in cache {
      var k := Seqs.Find(pushed, e);
      assert pushed[..|cache|] == cache;
      assert k == |cache|;
      assert pushed[k + 1..] == [];
    }
  }
}
