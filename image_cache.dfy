/**
 * The image-caching service worker (sw.js): a read-through, write-once cache
 * for image requests, kept in the browser's cache storage under one
 * versioned name.
 *
 * The storage is a set of named stores, each mapping request keys to
 * responses, together with the order in which the stores were created
 * (cache storage lists and searches its caches in that order). The three
 * event handlers are methods over the one global `CacheStorage` object;
 * each is proved against a function on the `Storage` value, and the
 * properties the worker promises are lemmas about those functions.
 */
module ImageCache {
  import opened Wrappers

  /** The one store this worker generation writes to and keeps (sw.js:2). */
  const CACHE_NAME: string := "ryzup-images-v1"

  /** The abstract identity of a request: two requests with the same key match. */
  type Key = string

  /** A request: its match key and the destination it declares ("image", "script", ...). */
  datatype Request = Request(key: Key, destination: string)

  /** The response types of the Fetch standard ("basic", "cors", ...). */
  datatype ResponseType = Basic | Cors | Default | Error | Opaque | OpaqueRedirect

  datatype Response = Response(status: int, kind: ResponseType, body: seq<bv8>)

  /** One named cache: request key to stored response. */
  type Store = map<Key, Response>

  /** Cache storage: the named stores, and their names in creation order. */
  datatype Storage = Storage(stores: map<string, Store>, order: seq<string>)

  predicate NoDuplicates(s: seq<string>)
  {
    forall i, j :: 0 <= i < j < |s| ==> s[i] != s[j]
  }

  /** The name list holds exactly the existing stores, each once. */
  ghost predicate WellFormed(st: Storage)
  {
    && NoDuplicates(st.order)
    && forall n :: n in st.stores <==> n in st.order
  }

  predicate HasEntry(stores: map<string, Store>, name: string, key: Key)
  {
    name in stores && key in stores[name]
  }

  /** Position `i` of `order` names the first store that has an entry for `key`. */
  predicate FirstHit(stores: map<string, Store>, order: seq<string>, key: Key, i: int)
  {
    && 0 <= i < |order|
    && HasEntry(stores, order[i], key)
    && forall j :: 0 <= j < i ==> !HasEntry(stores, order[j], key)
  }

  /**
   * `caches.match(request)`: every store is searched in creation order and
   * the first entry found wins; absent when no store has the key.
   */
  function Lookup(stores: map<string, Store>, order: seq<string>, key: Key): (r: Option<Response>)
    ensures r.None? <==> forall i :: 0 <= i < |order| ==> !HasEntry(stores, order[i], key)
    ensures r.Some? ==> exists i :: FirstHit(stores, order, key, i) && r.value == stores[order[i]][key]
  {
    if order == [] then None
    else if HasEntry(stores, order[0], key) then
      assert FirstHit(stores, order, key, 0);
      Some(stores[order[0]][key])
    else
      var rest := Lookup(stores, order[1..], key);
      assert forall i :: FirstHit(stores, order[1..], key, i) ==> FirstHit(stores, order, key, i + 1);
      rest
  }

  /** The test at sw.js:31: only a present response with status 200 and type "basic" is stored. */
  predicate Qualifies(r: Option<Response>)
  {
    r.Some? && r.value.status == 200 && r.value.kind == Basic
  }

  /** `caches.open(name)`: the store `name` exists afterwards; if it was absent it is created empty, last in order. */
  function OpenStore(st: Storage, name: string): (r: Storage)
    requires WellFormed(st)
    ensures WellFormed(r)
    ensures name in r.stores && r.stores[name] == (if name in st.stores then st.stores[name] else map[])
    ensures forall n :: n in r.stores <==> n in st.stores || n == name
    ensures forall n :: n in st.stores ==> r.stores[n] == st.stores[n]
    ensures r.order == if name in st.stores then st.order else st.order + [name]
  {
    if name in st.stores then st
    else Storage(st.stores[name := map[]], st.order + [name])
  }

  /** `caches.open(name)` followed by `cache.put(key, resp)`: only store `name` changes, gaining (or replacing) the entry for `key`. */
  function PutEntry(st: Storage, name: string, key: Key, resp: Response): (r: Storage)
    requires WellFormed(st)
    ensures WellFormed(r)
    ensures r.order == OpenStore(st, name).order
    ensures name in r.stores && r.stores[name] == OpenStore(st, name).stores[name][key := resp]
    ensures forall n :: n in r.stores <==> n in st.stores || n == name
    ensures forall n :: n in st.stores && n != name ==> r.stores[n] == st.stores[n]
  {
    var ready := OpenStore(st, name);
    Storage(ready.stores[name := ready.stores[name][key := resp]], ready.order)
  }

  /** `s` with every occurrence of `name` removed, the rest in order; a list without `name` comes back as it is. */
  function Without(s: seq<string>, name: string): (r: seq<string>)
    ensures forall x :: x in r <==> x in s && x != name
    ensures NoDuplicates(s) ==> NoDuplicates(r)
    ensures name !in s ==> r == s
  {
    if s == [] then []
    else
      var rest := Without(s[1..], name);
      if s[0] == name then rest
      else
        assert NoDuplicates(s) ==> s[0] !in s[1..];
        [s[0]] + rest
  }

  /** From a list without duplicates, `Without` cuts out exactly the one position holding `name`; the names before and after it keep their order. */
  lemma {:induction false} WithoutCutsOne(s: seq<string>, name: string, k: int)
    requires NoDuplicates(s) && 0 <= k < |s| && s[k] == name
    ensures Without(s, name) == s[..k] + s[k + 1..]
  {
    if k == 0 {
      assert name !in s[1..];
      assert s[..0] + s[1..] == s[1..];
    } else {
      assert s[0] != name;
      assert s[1..][k - 1] == name;
      WithoutCutsOne(s[1..], name, k - 1);
      assert [s[0]] + s[1..][..k - 1] + s[1..][k..] == s[..k] + s[k + 1..];
    }
  }

  /** `caches.delete(name)`: the store and all its entries are gone; the others keep their entries and order. */
  function DeleteStore(st: Storage, name: string): (r: Storage)
    requires WellFormed(st)
    ensures WellFormed(r)
    ensures forall n :: n in r.stores <==> n in st.stores && n != name
    ensures forall n :: n in r.stores ==> r.stores[n] == st.stores[n]
  {
    Storage(st.stores - {name}, Without(st.order, name))
  }

  /** The name list that activation leaves: `CACHE_NAME` if it is among `names`, nothing else. */
  function CurrentIn(names: seq<string>): (r: seq<string>)
    ensures forall n :: n in r <==> n in names && n == CACHE_NAME
    ensures NoDuplicates(r)
  {
    if CACHE_NAME in names then [CACHE_NAME] else []
  }

  /** The storage after the activate handler: only the store `CACHE_NAME` is left, its entries untouched. */
  function Pruned(st: Storage): (r: Storage)
    requires WellFormed(st)
    ensures WellFormed(r)
    ensures forall n :: n in r.stores <==> n == CACHE_NAME && n in st.stores
    ensures CACHE_NAME in st.stores ==> r.stores[CACHE_NAME] == st.stores[CACHE_NAME]
  {
    Storage(map n | n in st.stores && n == CACHE_NAME :: st.stores[n], CurrentIn(st.order))
  }

  /** What the fetch handler does with a request. */
  datatype Outcome =
    | NotIntercepted                        // left to the browser's default handling
    | Responded(response: Option<Response>) // `event.respondWith(...)` with this response

  /** One run of the fetch handler: its outcome, the storage afterwards and how many network fetches it made. */
  datatype FetchResult = FetchResult(outcome: Outcome, after: Storage, networkFetches: nat)

  /**
   * The fetch handler (sw.js:21-47) run to completion, the store write
   * included. `network` is what the network answers for a key; `None` is
   * no response at all.
   */
  function FetchSpec(st: Storage, req: Request, network: Key -> Option<Response>): (r: FetchResult)
    requires WellFormed(st)
    ensures WellFormed(r.after)
    ensures r.outcome.NotIntercepted? <==> req.destination != "image"
    ensures r.networkFetches <= 1
    ensures r.networkFetches == 1 <==> r.outcome.Responded? && Lookup(st.stores, st.order, req.key).None?
    ensures r.outcome.Responded? ==>
      r.outcome.response == if r.networkFetches == 0 then Lookup(st.stores, st.order, req.key) else network(req.key)
    ensures r.after != st ==> r.networkFetches == 1 && Qualifies(network(req.key))
    ensures forall n :: n in st.stores ==> n in r.after.stores
    ensures forall n :: n in st.stores && n != CACHE_NAME ==> r.after.stores[n] == st.stores[n]
  {
    if req.destination != "image" then FetchResult(NotIntercepted, st, 0)
    else
      var cached := Lookup(st.stores, st.order, req.key);
      if cached.Some? then FetchResult(Responded(cached), st, 0)
      else
        var fetched := network(req.key);
        if !Qualifies(fetched) then FetchResult(Responded(fetched), st, 1)
        else FetchResult(Responded(fetched), PutEntry(st, CACHE_NAME, req.key, fetched.value), 1)
  }

  /** The browser's global cache storage (`caches`), updated in place by the handlers. */
  class CacheStorage {
    var stores: map<string, Store>
    var order: seq<string>

    ghost predicate Valid()
      reads this
    {
      WellFormed(Storage(stores, order))
    }

    function Snapshot(): Storage
      reads this
    {
      Storage(stores, order)
    }

    constructor ()
      ensures Valid() && stores == map[] && order == []
    {
      stores := map[];
      order := [];
    }

    /** `caches.open(name)`. */
    method Open(name: string)
      requires Valid()
      modifies this
      ensures Valid()
      ensures Snapshot() == OpenStore(old(Snapshot()), name)
    {
      if name !in stores {
        stores := stores[name := map[]];
        order := order + [name];
      }
    }

    /** `caches.match(key)`: walks the stores in creation order and returns the first entry found. */
    method Match(key: Key) returns (r: Option<Response>)
      ensures r == Lookup(stores, order, key)
    {
      var i := 0;
      while i < |order|
        invariant 0 <= i <= |order|
        invariant Lookup(stores, order, key) == Lookup(stores, order[i..], key)
      {
        if HasEntry(stores, order[i], key) {
          return Some(stores[order[i]][key]);
        }
        assert order[i..][1..] == order[i + 1..];
        i := i + 1;
      }
      return None;
    }

    /** `caches.open(name).then(cache => cache.put(key, resp))`. */
    method Put(name: string, key: Key, resp: Response)
      requires Valid()
      modifies this
      ensures Valid()
      ensures Snapshot() == PutEntry(old(Snapshot()), name, key, resp)
    {
      Open(name);
      stores := stores[name := stores[name][key := resp]];
    }

    /** `caches.delete(name)`: reports whether a store was deleted. */
    method Delete(name: string) returns (deleted: bool)
      requires Valid()
      modifies this
      ensures Valid()
      ensures deleted == (name in old(stores))
      ensures Snapshot() == DeleteStore(old(Snapshot()), name)
    {
      deleted := name in stores;
      stores := stores - {name};
      order := Without(order, name);
    }
  }

  /** The install handler (sw.js:11-18): makes sure the store `CACHE_NAME` exists. */
  method Install(caches: CacheStorage)
    requires caches.Valid()
    modifies caches
    ensures caches.Valid()
    ensures caches.Snapshot() == OpenStore(old(caches.Snapshot()), CACHE_NAME)
  {
    caches.Open(CACHE_NAME);
  }

  /** The fetch handler (sw.js:21-47); `fetches` counts the calls made to `network`. */
  method Fetch(caches: CacheStorage, req: Request, network: Key -> Option<Response>)
    returns (out: Outcome, fetches: nat)
    requires caches.Valid()
    modifies caches
    ensures caches.Valid()
    ensures FetchResult(out, caches.Snapshot(), fetches) == FetchSpec(old(caches.Snapshot()), req, network)
  {
    fetches := 0;
    if req.destination != "image" {
      return NotIntercepted, fetches;
    }
    var cached := caches.Match(req.key);
    if cached.Some? {
      return Responded(cached), fetches;
    }
    var response := network(req.key);
    fetches := fetches + 1;
    if !Qualifies(response) {
      return Responded(response), fetches;
    }
    caches.Put(CACHE_NAME, req.key, response.value);
    out := Responded(response);
  }

  /** The activate handler (sw.js:50-62): deletes every store whose name is not `CACHE_NAME`. */
  method Activate(caches: CacheStorage)
    requires caches.Valid()
    modifies caches
    ensures caches.Valid()
    ensures caches.Snapshot() == Pruned(old(caches.Snapshot()))
  {
    var names := caches.order;
    DeleteAllBut(caches, names);
    PrunedCharacterized(old(caches.Snapshot()), caches.Snapshot());
  }

  /** The `cacheNames.map(...)` loop of the activate handler: every listed name other than `CACHE_NAME` is deleted. */
  method DeleteAllBut(caches: CacheStorage, names: seq<string>)
    requires caches.Valid() && caches.order == names
    modifies caches
    ensures caches.Valid()
    ensures caches.order == CurrentIn(names)
    ensures forall n :: n in caches.stores ==> n in old(caches.stores) && caches.stores[n] == old(caches.stores[n])
  {
    ghost var before := caches.stores;
    RemainingEnds(names);
    var i := 0;
    while i < |names|
      invariant 0 <= i <= |names|
      invariant caches.Valid()
      invariant caches.order == Remaining(names, i)
      invariant forall n :: n in caches.stores ==> n in before && caches.stores[n] == before[n]
    {
      ActivateStep(names, i);
      if names[i] != CACHE_NAME {
        var _ := caches.Delete(names[i]);
      }
      i := i + 1;
    }
  }

  /** The name list after the activate loop has handled the first `i` names. */
  ghost function Remaining(names: seq<string>, i: nat): seq<string>
    requires i <= |names|
  {
    CurrentIn(names[..i]) + names[i..]
  }

  lemma RemainingEnds(names: seq<string>)
    requires NoDuplicates(names)
    ensures Remaining(names, 0) == names
    ensures Remaining(names, |names|) == CurrentIn(names)
  {
    assert names[..0] == [] && names[0..] == names;
    assert names[..|names|] == names && names[|names|..] == [];
  }

  /** One step of the activate loop: deleting `names[i]` (or keeping it, when it is current) advances the name list. */
  lemma ActivateStep(names: seq<string>, i: nat)
    requires NoDuplicates(names) && i < |names|
    ensures names[i] != CACHE_NAME ==> Without(Remaining(names, i), names[i]) == Remaining(names, i + 1)
    ensures names[i] == CACHE_NAME ==> Remaining(names, i) == Remaining(names, i + 1)
  {
    assert names[..i + 1] == names[..i] + [names[i]];
    assert names[i..] == [names[i]] + names[i + 1..];
    assert names[i] !in names[..i];
    assert names[i] !in names[i + 1..];
    if names[i] != CACHE_NAME {
      WithoutAppend(CurrentIn(names[..i]), names[i..], names[i]);
      WithoutAppend([names[i]], names[i + 1..], names[i]);
    }
  }

  /** A well-formed storage whose names are `CurrentIn` of the old ones and whose stores are old stores is the pruned storage. */
  lemma PrunedCharacterized(st: Storage, after: Storage)
    requires WellFormed(st) && WellFormed(after)
    requires after.order == CurrentIn(st.order)
    requires forall n :: n in after.stores ==> n in st.stores && after.stores[n] == st.stores[n]
    ensures after == Pruned(st)
  {
    var p := Pruned(st);
    assert after.stores.Keys == p.stores.Keys;
    assert after.stores == p.stores;
  }

  lemma {:induction false} WithoutAppend(a: seq<string>, b: seq<string>, name: string)
    ensures Without(a + b, name) == Without(a, name) + Without(b, name)
  {
    if a != [] {
      assert (a + b)[1..] == a[1..] + b;
      WithoutAppend(a[1..], b, name);
    } else {
      assert a + b == b;
    }
  }

  // ---------------------------------------------------------------------
  // Properties of the fetch handler
  // ---------------------------------------------------------------------

  /** A request whose destination is not "image" is not intercepted: no store read or write, no fetch. */
  lemma FetchIgnoresNonImage(st: Storage, req: Request, network: Key -> Option<Response>)
    requires WellFormed(st)
    requires req.destination != "image"
    ensures FetchSpec(st, req, network) == FetchResult(NotIntercepted, st, 0)
  {
  }

  /**
   * A hit is served from the first store, in creation order, that holds the
   * request, whatever later stores hold for it: no network fetch and no
   * write.
   */
  lemma FetchServesHit(st: Storage, req: Request, network: Key -> Option<Response>, i: int)
    requires WellFormed(st)
    requires req.destination == "image"
    requires FirstHit(st.stores, st.order, req.key, i)
    ensures FetchSpec(st, req, network) == FetchResult(Responded(Some(st.stores[st.order[i]][req.key])), st, 0)
  {
    var r := Lookup(st.stores, st.order, req.key);
    assert r.Some?;
    var k :| FirstHit(st.stores, st.order, req.key, k) && r.value == st.stores[st.order[k]][req.key];
    assert k == i;
  }

  /** On a miss, a response that does not qualify is returned unchanged and nothing is written. */
  lemma FetchMissNotStored(st: Storage, req: Request, network: Key -> Option<Response>)
    requires WellFormed(st)
    requires req.destination == "image"
    requires forall n :: n in st.order ==> !HasEntry(st.stores, n, req.key)
    requires !Qualifies(network(req.key))
    ensures FetchSpec(st, req, network) == FetchResult(Responded(network(req.key)), st, 1)
  {
  }

  /**
   * On a miss with a qualifying response, that response is returned and the
   * store `CACHE_NAME` (created if it was deleted) gains an entry for the
   * request equal to it; no other store changes.
   */
  lemma FetchMissStored(st: Storage, req: Request, network: Key -> Option<Response>)
    requires WellFormed(st)
    requires req.destination == "image"
    requires forall n :: n in st.order ==> !HasEntry(st.stores, n, req.key)
    requires Qualifies(network(req.key))
    ensures var r := FetchSpec(st, req, network);
      && r.outcome == Responded(network(req.key))
      && r.networkFetches == 1
      && HasEntry(r.after.stores, CACHE_NAME, req.key)
      && r.after.stores[CACHE_NAME][req.key] == network(req.key).value
      && (forall k :: k != req.key && HasEntry(st.stores, CACHE_NAME, k) ==>
            HasEntry(r.after.stores, CACHE_NAME, k) && r.after.stores[CACHE_NAME][k] == st.stores[CACHE_NAME][k])
      && (forall n :: n in r.after.stores && n != CACHE_NAME ==> n in st.stores && r.after.stores[n] == st.stores[n])
  {
  }

  /**
   * Read-through, write-once: after a qualifying miss has been stored, the
   * next fetch of the same request is a hit that returns the same response
   * with zero network fetches, whatever the network would now answer.
   */
  lemma {:induction false} SecondFetchIsHit(st: Storage, req: Request, network: Key -> Option<Response>, later: Key -> Option<Response>)
    requires WellFormed(st)
    requires req.destination == "image"
    requires forall n :: n in st.order ==> !HasEntry(st.stores, n, req.key)
    requires Qualifies(network(req.key))
    ensures var first := FetchSpec(st, req, network);
      FetchSpec(first.after, req, later) == FetchResult(Responded(network(req.key)), first.after, 0)
  {
    var first := FetchSpec(st, req, network);
    var after := first.after;
    assert after == PutEntry(st, CACHE_NAME, req.key, network(req.key).value);
    assert HasEntry(after.stores, CACHE_NAME, req.key);
    forall n | n in after.order && n != CACHE_NAME
      ensures !HasEntry(after.stores, n, req.key)
    {
      assert n in st.stores;
    }
    var k :| 0 <= k < |after.order| && after.order[k] == CACHE_NAME;
    assert FirstHit(after.stores, after.order, req.key, k) by {
      forall j | 0 <= j < k ensures !HasEntry(after.stores, after.order[j], req.key) {
        assert after.order[j] != CACHE_NAME;
      }
    }
    FetchServesHit(after, req, later, k);
  }

  /** A response that does not qualify (a 404, say) is fetched again on every request. */
  lemma UnqualifiedIsRefetched(st: Storage, req: Request, network: Key -> Option<Response>)
    requires WellFormed(st)
    requires req.destination == "image"
    requires forall n :: n in st.order ==> !HasEntry(st.stores, n, req.key)
    requires !Qualifies(network(req.key))
    ensures var first := FetchSpec(st, req, network);
      && first.after == st
      && FetchSpec(first.after, req, network) == FetchResult(Responded(network(req.key)), st, 1)
  {
  }

  // ---------------------------------------------------------------------
  // Properties of install and activate
  // ---------------------------------------------------------------------

  /** Install leaves a store `CACHE_NAME` and adds no entry: an existing store keeps its entries, a new one is empty. */
  lemma InstallOpensCurrent(st: Storage)
    requires WellFormed(st)
    ensures var r := OpenStore(st, CACHE_NAME);
      && CACHE_NAME in r.stores
      && (CACHE_NAME in st.stores ==> r == st)
      && (CACHE_NAME !in st.stores ==> r.stores[CACHE_NAME] == map[])
  {
  }

  /**
   * Install runs before activate, and together they leave exactly one store,
   * the current one, holding whatever it held before. Activation alone
   * never creates it.
   */
  lemma InstallThenActivate(st: Storage)
    requires WellFormed(st)
    ensures var r := Pruned(OpenStore(st, CACHE_NAME));
      && r.order == [CACHE_NAME]
      && r.stores.Keys == {CACHE_NAME}
      && r.stores[CACHE_NAME] == (if CACHE_NAME in st.stores then st.stores[CACHE_NAME] else map[])
  {
    var ready := OpenStore(st, CACHE_NAME);
    assert CACHE_NAME in ready.order;
  }

  /** Activation without the current store leaves no store at all. */
  lemma ActivateAloneCreatesNothing(st: Storage)
    requires WellFormed(st)
    requires CACHE_NAME !in st.stores
    ensures Pruned(st).stores == map[] && Pruned(st).order == []
  {
  }

  /** After activation only `CACHE_NAME` can exist, and a second activation changes nothing. */
  lemma {:induction false} ActivateIdempotent(st: Storage)
    requires WellFormed(st)
    ensures Pruned(Pruned(st)) == Pruned(st)
    ensures forall n :: n in Pruned(st).order ==> n == CACHE_NAME
  {
    var once := Pruned(st);
    assert once.order == CurrentIn(st.order);
    assert CACHE_NAME in once.order <==> CACHE_NAME in st.order;
    assert Pruned(once).stores == once.stores;
  }

  /**
   * Moving the version: a store left over from an earlier generation is gone
   * after activation, however many entries it held, and the current store
   * keeps every entry it had.
   */
  lemma ActivateDropsOldGeneration(st: Storage, old_name: string)
    requires WellFormed(st)
    requires old_name != CACHE_NAME
    ensures old_name !in Pruned(st).stores
    ensures CACHE_NAME in st.stores ==> Pruned(st).stores[CACHE_NAME] == st.stores[CACHE_NAME]
  {
  }
}
