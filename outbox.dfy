/** The outbox drain of `syncPendingOrders` (sw.js:370-441) as a function of
    the key/value store it reads: every key that starts with `sync_order_`
    is visited in enumeration order; a value that decodes is removed, counted
    as a success and announced with its order id; one that does not is
    counted as an error and stays. Delivery itself is simulated in the
    source (the POST is commented out), so decoding is the only way an item
    can fail. */
module Outbox {
  import opened Common
  import opened Channel

  const SYNC_PREFIX := "sync_order_"

  /** `localStorage`: string keys to string values. */
  type Storage = map<string, string>

  predicate IsSyncKey(key: string)
  {
    StartsWith(key, SYNC_PREFIX)
  }

  /** The first loop: the keys that carry the sync prefix, in their order. */
  function SyncKeys(keys: seq<string>): (r: seq<string>)
    ensures forall k :: k in r <==> k in keys && StartsWith(k, SYNC_PREFIX)
  {
    Filter(keys, IsSyncKey)
  }

  lemma SyncKeysAppend(keys: seq<string>, k: string)
    ensures SyncKeys(keys + [k]) == SyncKeys(keys) + if IsSyncKey(k) then [k] else []
  {
    FilterAppend(keys, [k], IsSyncKey);
  }

  /** Selecting keys keeps them apart. */
  lemma {:induction false} SyncKeysDistinct(keys: seq<string>)
    requires Distinct(keys)
    ensures Distinct(SyncKeys(keys))
    decreases |keys|
  {
    if keys != [] {
      var init, last := keys[..|keys| - 1], keys[|keys| - 1];
      assert keys == init + [last];
      assert Distinct(init);
      SyncKeysDistinct(init);
      SyncKeysAppend(init, last);
      assert last !in SyncKeys(init);
    }
  }

  /** When `keys` is the store's own listing (the `localStorage.key(i)` loop
      lists each stored key once), the drain visits every stored sync key
      exactly once and nothing else. */
  lemma SyncKeysOfListing(keys: seq<string>, storage: Storage)
    requires ListsKeys(keys, storage)
    ensures Distinct(SyncKeys(keys))
    ensures forall k :: k in SyncKeys(keys) <==> k in storage && IsSyncKey(k)
  {
    SyncKeysDistinct(keys);
  }

  /** `JSON.parse(localStorage.getItem(key)).order.id`, or `None` when that
      throws. `parse` is the decoding of a stored value; a key that is no
      longer stored reads as `null`, whose `.order` throws. */
  function Read(storage: Storage, key: string, parse: string -> Option<string>): Option<string>
  {
    if key in storage then parse(storage[key]) else None
  }

  /** The drain's running state: the store, the broadcast log and the two counters. */
  datatype Progress = Progress(storage: Storage, events: seq<Event>, success: nat, errors: nat)

  /** One pass of the per-key `try` block. */
  function Step(p: Progress, key: string, parse: string -> Option<string>): (q: Progress)
    ensures q.success + q.errors == p.success + p.errors + 1
    ensures q.storage == p.storage - {key} || q.storage == p.storage
    ensures q.success == p.success + 1 <==> key !in q.storage && key in p.storage
  {
    match Read(p.storage, key, parse)
    case Some(id) => Progress(p.storage - {key}, p.events + [OrderSynced(id)], p.success + 1, p.errors)
    case None => p.(errors := p.errors + 1)
  }

  /** The per-key loop over `keys`. */
  function Drain(p: Progress, keys: seq<string>, parse: string -> Option<string>): (q: Progress)
    ensures q.success >= p.success && q.errors >= p.errors
    ensures |q.events| == |p.events| + q.success - p.success
    ensures q.events[..|p.events|] == p.events
    decreases |keys|
  {
    if keys == [] then p
    else Step(Drain(p, keys[..|keys| - 1], parse), keys[|keys| - 1], parse)
  }

  /** Every visited key is counted exactly once, as a success or as an error. */
  lemma {:induction false} DrainCountsEveryKey(p: Progress, keys: seq<string>, parse: string -> Option<string>)
    ensures Drain(p, keys, parse).success + Drain(p, keys, parse).errors == p.success + p.errors + |keys|
    decreases |keys|
  {
    if keys != [] {
      DrainCountsEveryKey(p, keys[..|keys| - 1], parse);
    }
  }

  /** Keys the drain does not visit keep their values, and no key is added. */
  lemma {:induction false} DrainLeavesOtherKeys(p: Progress, keys: seq<string>, parse: string -> Option<string>, k: string)
    requires k !in keys
    ensures k in Drain(p, keys, parse).storage <==> k in p.storage
    ensures k in p.storage ==> Drain(p, keys, parse).storage[k] == p.storage[k]
    ensures Drain(p, keys, parse).storage.Keys <= p.storage.Keys
    decreases |keys|
  {
    if keys != [] {
      DrainLeavesOtherKeys(p, keys[..|keys| - 1], parse, k);
    }
  }

  /** A visited key is gone afterwards exactly when its stored value decodes;
      a value that fails to decode stays as it was. */
  lemma {:induction false} DrainRemovesExactlyDecodable(p: Progress, keys: seq<string>, parse: string -> Option<string>, k: string)
    requires k in keys
    ensures k in Drain(p, keys, parse).storage <==> k in p.storage && parse(p.storage[k]).None?
    ensures k in Drain(p, keys, parse).storage ==> Drain(p, keys, parse).storage[k] == p.storage[k]
    decreases |keys|
  {
    var init := keys[..|keys| - 1];
    var last := keys[|keys| - 1];
    assert keys == init + [last];
    if k in init {
      DrainRemovesExactlyDecodable(p, init, parse, k);
    } else {
      assert k == last;
      DrainLeavesOtherKeys(p, init, parse, k);
    }
  }

  /** The ORDER_SYNCED notices for `keys`, read against the store as it was
      before the drain. */
  function Notices(storage: Storage, keys: seq<string>, parse: string -> Option<string>): seq<Event>
    decreases |keys|
  {
    if keys == [] then []
    else
      Notices(storage, keys[..|keys| - 1], parse)
      + match Read(storage, keys[|keys| - 1], parse)
        case Some(id) => [OrderSynced(id)]
        case None => []
  }

  /** The keys among `keys` whose stored value decodes, in their order. */
  function Decodable(storage: Storage, keys: seq<string>, parse: string -> Option<string>): (r: seq<string>)
    ensures |r| <= |keys|
    decreases |keys|
  {
    if keys == [] then []
    else
      Decodable(storage, keys[..|keys| - 1], parse)
      + if Read(storage, keys[|keys| - 1], parse).Some? then [keys[|keys| - 1]] else []
  }

  /** When no key is visited twice (as when the keys come from enumerating
      the store), each decodable key adds one success and one ORDER_SYNCED
      notice carrying its order id, in visiting order. */
  lemma {:induction false} DrainReportsEachKey(storage: Storage, events: seq<Event>, keys: seq<string>, parse: string -> Option<string>)
    requires Distinct(keys)
    ensures Drain(Progress(storage, events, 0, 0), keys, parse).events == events + Notices(storage, keys, parse)
    ensures Drain(Progress(storage, events, 0, 0), keys, parse).success == |Decodable(storage, keys, parse)|
    decreases |keys|
  {
    if keys != [] {
      var p := Progress(storage, events, 0, 0);
      var init := keys[..|keys| - 1];
      var last := keys[|keys| - 1];
      assert Distinct(init);
      DrainReportsEachKey(storage, events, init, parse);
      DrainLeavesOtherKeys(p, init, parse, last);
      assert Read(Drain(p, init, parse).storage, last, parse) == Read(storage, last, parse);
    }
  }

  /** ... and every other visited key adds one error. */
  lemma ErrorsAreTheUndecodableKeys(storage: Storage, events: seq<Event>, keys: seq<string>, parse: string -> Option<string>)
    requires Distinct(keys)
    ensures Drain(Progress(storage, events, 0, 0), keys, parse).errors == |keys| - |Decodable(storage, keys, parse)|
  {
    DrainReportsEachKey(storage, events, keys, parse);
    DrainCountsEveryKey(Progress(storage, events, 0, 0), keys, parse);
  }
}
