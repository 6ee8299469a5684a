/** The messages the service worker posts to every open page: those sent
    through `notifyClients` (sw.js:516-528) and the install notice
    (sw.js:58-65). The model keeps them as an append-only log; the timestamp
    `notifyClients` adds to each message is left out. */
module Channel {

  datatype Event =
    | Installed(version: string)                          // SW_INSTALLED {version}
    | Activated                                           // SW_ACTIVATED
    | ApiUpdated(url: string)                             // API_UPDATED {url}
    | CacheCleared                                        // CACHE_CLEARED
    | OrderSynced(orderId: string)                        // ORDER_SYNCED {orderId}
    | NothingToSync                                       // SYNC_COMPLETED {count: 0}
    | SyncCompleted(success: nat, errors: nat, total: nat) // SYNC_COMPLETED {success, errors, total}
    | SyncFailed                                          // SYNC_FAILED {error}
}
