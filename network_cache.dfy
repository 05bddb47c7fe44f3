/** `fetchNetworkModule` and `networkModuleCache`: remote modules are fetched
    once per URL and the pending result is kept for the life of the process. */
module NetworkCache {

  /** The promise `fetchNetworkModule` stores: the pending text of the
      `request`-th network request this cache started, made for `url`. */
  datatype Token = Pending(url: string, request: nat)

  /** No URL occurs twice in `log`. */
  ghost predicate NoDuplicates(log: seq<string>) {
    forall i, j :: 0 <= i < j < |log| ==> log[i] != log[j]
  }

  /** A log without duplicates has as many entries as it has distinct URLs. */
  lemma {:induction false} DistinctLogSize(log: seq<string>, keys: set<string>)
    requires NoDuplicates(log)
    requires forall u :: u in keys <==> u in log
    ensures |keys| == |log|
  {
    if log != [] {
      var last := log[|log| - 1];
      var rest := log[..|log| - 1];
      assert NoDuplicates(rest);
      forall u ensures u in keys - {last} <==> u in rest {
        if u in log && u != last {
          var i :| 0 <= i < |log| && log[i] == u;
          assert i < |log| - 1 && rest[i] == u;
        }
      }
      DistinctLogSize(rest, keys - {last});
    }
  }

  class NetworkModuleCache {
    /** `networkModuleCache`: URL to stored promise. */
    var entries: map<string, Token>
    /** How many network requests have been started. */
    var started: nat
    /** The URLs of those requests, in the order they were started. */
    ghost var log: seq<string>

    ghost predicate Valid()
      reads this
    {
      && |log| == started
      && NoDuplicates(log)
      && (forall u :: u in entries <==> u in log)
      && (forall u :: u in entries ==> entries[u].url == u && entries[u].request < started && log[entries[u].request] == u)
    }

    /** `new Map()` at module load. */
    constructor ()
      ensures Valid() && entries == map[] && started == 0
    {
      entries := map[];
      started := 0;
      log := [];
    }

    /** `fetchNetworkModule(url)`: on a miss, start a request and store its
        promise; on a hit, start nothing. Either way, return the stored promise. */
    method Fetch(url: string) returns (t: Token)
      requires Valid()
      modifies this
      ensures Valid()
      ensures url in entries && t == entries[url] && t.url == url
      ensures url in old(entries) ==> t == old(entries)[url] && unchanged(this)
      ensures url !in old(entries) ==>
        && t == Pending(url, old(started))
        && entries == old(entries)[url := t]
        && started == old(started) + 1
        && log == old(log) + [url]
    {
      if url !in entries {
        var promise := Pending(url, started);
        entries := entries[url := promise];
        log := log + [url];
        started := started + 1;
      }
      t := entries[url];
    }

    /** At most one request is ever started per URL: the number started is the
        number of URLs in the cache. */
    lemma OneRequestPerUrl()
      requires Valid()
      ensures started == |entries.Keys|
    {
      DistinctLogSize(log, entries.Keys);
    }
  }

  /** A second fetch of the same URL returns the first call's promise and
      starts no request; entries are never removed or replaced. */
  method FetchTwice(cache: NetworkModuleCache, url: string) returns (first: Token, second: Token)
    requires cache.Valid()
    modifies cache
    ensures cache.Valid()
    ensures first == second && url in cache.entries && cache.entries[url] == first
    ensures cache.started == old(cache.started) + (if url in old(cache.entries) then 0 else 1)
    ensures forall u :: u in old(cache.entries) ==> u in cache.entries && cache.entries[u] == old(cache.entries)[u]
  {
    first := cache.Fetch(url);
    second := cache.Fetch(url);
  }
}
