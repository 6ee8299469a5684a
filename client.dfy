/** The page side (app.js): the cart, the queue of orders waiting to be sent,
    the stored list of completed orders, the menu cache and the theme
    switch. Each `localStorage` slot the page writes is a field of its own,
    holding the value the page serialised into it (reading a slot back gives
    what was written). The clock, the network and the outcome of registering
    a background sync are parameters. */
module Client {
  import opened Common

  /** The menu cache counts as fresh for five minutes. */
  const MENU_FRESHNESS: int := 5 * 60 * 1000

  /** Prefix of the key under which an order is left for the worker. */
  const SYNC_PREFIX := "sync_order_"

  /** One drink on the menu (`menu.json`). */
  datatype MenuItem = MenuItem(id: int, name: string, price: int, category: string)

  /** One cart line: its own id (the clock at the time it was added) and a
      copy of the drink's id, name and price. */
  datatype CartEntry = CartEntry(id: int, itemId: int, name: string, price: int)

  /** A placed order. */
  datatype Order = Order(id: string, items: seq<CartEntry>, total: int, status: string)

  /** ---------- lookups and labels ---------- */

  /** `menuData.find(i => i.id === itemId)`, as the position of the first
      drink with that id. */
  function FindItem(menu: seq<MenuItem>, itemId: int): (r: Option<nat>)
    ensures r.None? <==> forall i :: 0 <= i < |menu| ==> menu[i].id != itemId
    ensures r.Some? ==> r.value < |menu| && menu[r.value].id == itemId
                        && forall i :: 0 <= i < r.value ==> menu[i].id != itemId
    decreases |menu|
  {
    if menu == [] then None
    else
      var n := |menu| - 1;
      match FindItem(menu[..n], itemId)
      case Some(i) => Some(i)
      case None => if menu[n].id == itemId then Some(n) else None
  }

  /** `items.reduce((sum, item) => sum + item.price, 0)` */
  function SumPrices(items: seq<CartEntry>): (total: int)
    ensures items == [] ==> total == 0
    ensures (forall i :: 0 <= i < |items| ==> items[i].price >= 0) ==> total >= 0
    ensures (forall i :: 0 <= i < |items| ==> items[i].price >= 0) ==> forall i :: 0 <= i < |items| ==> total >= items[i].price
    decreases |items|
  {
    if items == [] then 0 else SumPrices(items[..|items| - 1]) + items[|items| - 1].price
  }

  /** The total of two carts put together is the sum of their totals. */
  lemma {:induction false} SumPricesAppend(a: seq<CartEntry>, b: seq<CartEntry>)
    ensures SumPrices(a + b) == SumPrices(a) + SumPrices(b)
    decreases |b|
  {
    if b == [] {
      assert a + b == a;
    } else {
      var n := |b| - 1;
      assert (a + b)[..|a + b| - 1] == a + b[..n];
      SumPricesAppend(a, b[..n]);
    }
  }

  /** Moving one line to the end of the cart does not change the total, so
      the total does not depend on the order of the lines. */
  lemma SumPricesMoveToEnd(a: seq<CartEntry>, e: CartEntry, b: seq<CartEntry>)
    ensures SumPrices(a + [e] + b) == SumPrices(a + b + [e])
  {
    SumPricesAppend(a + [e], b);
    SumPricesAppend(a, [e]);
    SumPricesAppend(a + b, [e]);
    SumPricesAppend(a, b);
  }

  /** The value of the category selector: `select?.value || 'all'`. */
  function SelectedCategory(selected: Option<string>): (category: string)
    ensures category != ""
    ensures category == "all" <==> selected.None? || selected.value in {"", "all"}
    ensures selected.Some? && selected.value != "" ==> category == selected.value
  {
    if selected.None? || selected.value == "" then "all" else selected.value
  }

  function InCategory(category: string): MenuItem -> bool
  {
    (m: MenuItem) => m.category == category
  }

  /** The drinks `renderMenu` shows for a non-empty menu, in menu order:
      all of them for `all`, otherwise those whose category is exactly the
      selected one. (With an empty menu `renderMenu` returns at once and the
      cards already on the page stay.) */
  function FilterMenu(menu: seq<MenuItem>, selected: Option<string>): (r: seq<MenuItem>)
    ensures SelectedCategory(selected) == "all" ==> r == menu
    ensures SelectedCategory(selected) != "all" ==>
              forall m :: m in r <==> m in menu && m.category == SelectedCategory(selected)
    ensures |r| <= |menu|
  {
    var category := SelectedCategory(selected);
    if category == "all" then menu else Filter(menu, InCategory(category))
  }

  /** A drink shown under a category appears as many times as in the menu. */
  lemma FilterMenuKeepsEachDrink(menu: seq<MenuItem>, selected: Option<string>, m: MenuItem)
    requires m in menu && m.category == SelectedCategory(selected)
    ensures multiset(FilterMenu(menu, selected))[m] == multiset(menu)[m]
  {
    var category := SelectedCategory(selected);
    if category != "all" {
      FilterCount(menu, InCategory(category), m);
    }
  }

  /** The word after the count in `Показано N ...`. */
  function DrinkSuffix(count: nat): (s: string)
    ensures count == 1 <==> s == "напій"
    ensures s == "напої" <==> count == 0 || 2 <= count <= 4
    ensures s == "напоїв" <==> count >= 5
  {
    if count == 1 then "напій" else if count < 5 then "напої" else "напоїв"
  }

  /** The text of the cart badge: the count up to 99, then `99+`. */
  function BadgeText(count: nat): (t: string)
    ensures t == "99+" <==> count > 99
    ensures count <= 99 ==> AllDigits(t) && DigitsValue(t) == count && 1 <= |t| <= 2
    ensures count <= 99 ==> (|t| == 1 <==> count < 10) && (t[0] == '0' <==> count == 0)
  {
    if count > 99 then "99+"
    else
      NatToStringRoundTrip(count);
      NatToStringNoLeadingZero(count);
      NatToString(count)
  }

  /** The badge is shown only when the cart has something in it. */
  predicate BadgeVisible(count: nat)
  {
    count > 0
  }

  /** Two different counts up to 99 never show the same badge. */
  lemma BadgeTellsCountsApart(a: nat, b: nat)
    requires a <= 99 && b <= 99 && a != b
    ensures BadgeText(a) != BadgeText(b)
  {
    NatToStringInjective(a, b);
  }

  /** `getStatusText`: the Ukrainian label of the three known statuses; any
      other status is shown as it is. */
  function StatusText(status: string): (t: string)
    ensures t == status <==> status !in {"pending", "completed", "failed"}
    ensures status == "pending" ==> t == "В обробці"
    ensures status == "completed" ==> t == "Виконано"
    ensures status == "failed" ==> t == "Помилка"
  {
    match status
    case "pending" => "В обробці"
    case "completed" => "Виконано"
    case "failed" => "Помилка"
    case _ => status
  }

  const INFO_ICON := "ℹ️"

  /** `getMessageIcon`: one icon per known message type, the information
      icon for everything else. */
  function MessageIcon(kind: string): (icon: string)
    ensures icon == INFO_ICON <==> kind !in {"success", "error", "warning"}
    ensures kind == "success" ==> icon == "✅"
    ensures kind == "error" ==> icon == "❌"
    ensures kind == "warning" ==> icon == "⚠️"
  {
    match kind
    case "success" => "✅"
    case "error" => "❌"
    case "warning" => "⚠️"
    case _ => INFO_ICON
  }

  /** The theme `toggleTheme` switches to: the current theme is the page's
      `data-theme` attribute, `light` when it is missing or empty; `light`
      becomes `dark` and every other value becomes `light`. */
  function NextTheme(current: Option<string>): (next: string)
    ensures next == "dark" <==> current.None? || current == Some("") || current == Some("light")
    ensures next == "light" || next == "dark"
  {
    var theme := if current.None? || current.value == "" then "light" else current.value;
    if theme == "light" then "dark" else "light"
  }

  /** Toggling twice from either theme comes back to it. */
  lemma ToggleTwiceRestores(theme: string)
    requires theme == "light" || theme == "dark"
    ensures NextTheme(Some(NextTheme(Some(theme)))) == theme
  {
  }

  /** The page's theme: the attribute on the root element and the stored
      choice. */
  class ThemeSwitch {
    var attribute: Option<string>
    var stored: Option<string>

    constructor (stored0: Option<string>)
      ensures stored == stored0
      ensures attribute == Some(if stored0.None? || stored0.value == "" then "light" else stored0.value)
    {
      stored := stored0;
      attribute := Some(if stored0.None? || stored0.value == "" then "light" else stored0.value);
    }

    /** `toggleTheme` (app.js:58-65): the attribute and the stored choice both
        become the next theme. */
    method Toggle()
      modifies this
      ensures attribute == Some(NextTheme(old(attribute))) && stored == attribute
    {
      var next := NextTheme(attribute);
      attribute := Some(next);
      stored := Some(next);
    }
  }

  /** ---------- the menu cache ---------- */

  /** What `fetch('/api/menu.json')` gives: the decoded menu, or an error
      (a thrown fetch, a status that is not ok, a body that is not JSON). */
  datatype MenuFetch = Fetched(items: seq<MenuItem>) | FetchFailed

  /** Where `loadMenu` took the menu from. */
  datatype MenuSource = FromCache | FromNetwork | FromStaleCache | NoMenu

  /** The cached menu is used without asking the network. A missing
      timestamp counts as an infinite age; a timestamp in the future gives a
      negative age and so counts as fresh. */
  predicate ServeFromCache(force: bool, cachedAt: Option<int>, cached: Option<seq<MenuItem>>, now: int)
  {
    !force && cachedAt.Some? && now - cachedAt.value < MENU_FRESHNESS && cached.Some?
  }

  class MenuLoader {
    var menu: seq<MenuItem>
    var cached: Option<seq<MenuItem>>   // `menu_cache`
    var cachedAt: Option<int>           // `menu_cache_timestamp`

    constructor (cached0: Option<seq<MenuItem>>, cachedAt0: Option<int>)
      ensures menu == [] && cached == cached0 && cachedAt == cachedAt0
    {
      menu := [];
      cached := cached0;
      cachedAt := cachedAt0;
    }

    /** `loadMenu` (app.js:227-286). The clock is read twice: `now` for the
        age of the cache (app.js:230) and `storedAt` for the timestamp written
        once the fetch has finished (app.js:263). A fresh cache is used
        without a network call; otherwise the network's menu replaces the
        shown one and is stored with `storedAt`; when the network fails, the
        cached menu of any age is shown, and with no cache the shown menu
        stays. */
    method LoadMenu(force: bool, now: int, fetch: MenuFetch, storedAt: int) returns (source: MenuSource)
      modifies this
      ensures source == FromCache <==> ServeFromCache(force, old(cachedAt), old(cached), now)
      ensures source == FromCache ==> menu == old(cached).value
      ensures source == FromNetwork <==> !ServeFromCache(force, old(cachedAt), old(cached), now) && fetch.Fetched?
      ensures source == FromNetwork ==> menu == fetch.items && cached == Some(menu) && cachedAt == Some(storedAt)
      ensures source != FromNetwork ==> cached == old(cached) && cachedAt == old(cachedAt)
      ensures source == FromStaleCache <==>
                !ServeFromCache(force, old(cachedAt), old(cached), now) && fetch.FetchFailed? && old(cached).Some?
      ensures source == FromStaleCache ==> menu == old(cached).value
      ensures source == NoMenu ==> menu == old(menu)
    {
      if !force && cachedAt.Some? && now - cachedAt.value < MENU_FRESHNESS {
        if cached.Some? {
          menu := cached.value;
          return FromCache;
        }
      }
      match fetch
      case Fetched(items) =>
        menu := items;
        cached := Some(items);
        cachedAt := Some(storedAt);
        source := FromNetwork;
      case FetchFailed =>
        if cached.Some? {
          menu := cached.value;
          source := FromStaleCache;
        } else {
          source := NoMenu;
        }
    }
  }

  /** A menu just taken from the network is served from the cache by every
      load that is not forced during the next five minutes. */
  lemma FetchedMenuStaysFresh(items: seq<MenuItem>, fetchedAt: int, now: int)
    requires fetchedAt <= now < fetchedAt + MENU_FRESHNESS
    ensures ServeFromCache(false, Some(fetchedAt), Some(items), now)
    ensures !ServeFromCache(false, Some(fetchedAt), Some(items), fetchedAt + MENU_FRESHNESS)
  {
  }

  /** ---------- cart and orders ---------- */

  /** How registering the background sync for an order ends. */
  datatype SyncOutcome =
    | Unsupported         // no service worker or no SyncManager: completion is left to a timer
    | Registered          // the order is left for the worker and the sync is registered
    | RegistrationFailed  // the order is left for the worker, but `register` threw

  function SyncKey(order: Order): string
  {
    SYNC_PREFIX + order.id
  }

  function IdIsNot(id: int): CartEntry -> bool
  {
    (e: CartEntry) => e.id != id
  }

  function OrderIdIsNot(id: string): Order -> bool
  {
    (o: Order) => o.id != id
  }

  /** The orders a pass over `orders` puts back on the queue: those whose
      registration failed, in order. */
  function Requeued(orders: seq<Order>, outcomeAt: nat -> SyncOutcome): (r: seq<Order>)
    ensures |r| <= |orders|
    decreases |orders|
  {
    if orders == [] then []
    else
      var n := |orders| - 1;
      Requeued(orders[..n], outcomeAt) + if outcomeAt(n) == RegistrationFailed then [orders[n]] else []
  }

  /** The sync records after a pass over `orders`: one per order whose
      registration was attempted. */
  function Recorded(records: map<string, Order>, orders: seq<Order>, outcomeAt: nat -> SyncOutcome): map<string, Order>
    decreases |orders|
  {
    if orders == [] then records
    else
      var n := |orders| - 1;
      var before := Recorded(records, orders[..n], outcomeAt);
      if outcomeAt(n) == Unsupported then before else before[SyncKey(orders[n]) := orders[n]]
  }

  /** When every registration fails, a pass over the queue puts every order
      on it a second time. */
  lemma {:induction false} AllFailedDoublesQueue(orders: seq<Order>, outcomeAt: nat -> SyncOutcome)
    requires forall i :: 0 <= i < |orders| ==> outcomeAt(i) == RegistrationFailed
    ensures Requeued(orders, outcomeAt) == orders
    decreases |orders|
  {
    if orders != [] {
      var n := |orders| - 1;
      AllFailedDoublesQueue(orders[..n], outcomeAt);
      assert orders[..n] + [orders[n]] == orders;
    }
  }

  /** A pass leaves a record for every order whose registration was
      attempted, under its key, and no other new key. */
  lemma {:induction false} RecordedKeys(records: map<string, Order>, orders: seq<Order>, outcomeAt: nat -> SyncOutcome)
    ensures forall k :: k in Recorded(records, orders, outcomeAt) <==>
              k in records || exists i :: 0 <= i < |orders| && outcomeAt(i) != Unsupported && k == SyncKey(orders[i])
    decreases |orders|
  {
    if orders != [] {
      var n := |orders| - 1;
      RecordedKeys(records, orders[..n], outcomeAt);
      forall k | k in records || exists i :: 0 <= i < |orders| && outcomeAt(i) != Unsupported && k == SyncKey(orders[i])
        ensures k in Recorded(records, orders, outcomeAt)
      {
        if k !in records {
          var i :| 0 <= i < |orders| && outcomeAt(i) != Unsupported && k == SyncKey(orders[i]);
          if i < n {
            assert orders[..n][i] == orders[i];
          }
        }
      }
      forall k | k in Recorded(records, orders, outcomeAt) && k !in records
        ensures exists i :: 0 <= i < |orders| && outcomeAt(i) != Unsupported && k == SyncKey(orders[i])
      {
        if k in Recorded(records, orders[..n], outcomeAt) {
          var i :| 0 <= i < n && outcomeAt(i) != Unsupported && k == SyncKey(orders[..n][i]);
          assert orders[..n][i] == orders[i];
        }
      }
    }
  }

  /** The cart and the order queues of the page, with what it keeps in
      `localStorage`: the saved cart (`coffee_shop_cart`), the saved queue
      (`pending_orders`), the completed orders (`coffee_shop_orders`) and one
      record per order left for the worker (`sync_order_<id>`). */
  class ClientApp {
    var cart: seq<CartEntry>
    var pending: seq<Order>
    var storedCart: seq<CartEntry>
    var storedPending: seq<Order>
    var storedOrders: seq<Order>
    var syncRecords: map<string, Order>

    /** What is in memory is what is saved. */
    predicate Mirrored()
      reads this
    {
      storedCart == cart && storedPending == pending
    }

    /** `loadCart` and `loadPendingOrders`: the in-memory copies are read
        from storage. */
    constructor (storedCart0: seq<CartEntry>, storedPending0: seq<Order>, storedOrders0: seq<Order>, syncRecords0: map<string, Order>)
      ensures cart == storedCart0 && pending == storedPending0 && Mirrored()
      ensures storedOrders == storedOrders0 && syncRecords == syncRecords0
    {
      cart := storedCart0;
      pending := storedPending0;
      storedCart := storedCart0;
      storedPending := storedPending0;
      storedOrders := storedOrders0;
      syncRecords := syncRecords0;
    }

    /** `addToCart` (app.js:370-387): an unknown drink changes nothing;
        otherwise one line with the drink's id, name and price, whose own id
        is the current time, goes at the end and is saved. */
    method AddToCart(menu: seq<MenuItem>, itemId: int, now: int) returns (found: bool)
      modifies this
      ensures found <==> exists i :: 0 <= i < |menu| && menu[i].id == itemId
      ensures !found ==> cart == old(cart) && storedCart == old(storedCart)
      ensures found ==>
                var m := menu[FindItem(menu, itemId).value];
                && cart == old(cart) + [CartEntry(now, m.id, m.name, m.price)]
                && cart[..|old(cart)|] == old(cart)
                && storedCart == cart
      ensures pending == old(pending) && storedPending == old(storedPending)
      ensures storedOrders == old(storedOrders) && syncRecords == old(syncRecords)
      ensures old(Mirrored()) ==> Mirrored()
    {
      var index := FindItem(menu, itemId);
      if index.None? {
        return false;
      }
      var m := menu[index.value];
      cart := cart + [CartEntry(now, m.id, m.name, m.price)];
      storedCart := cart;
      found := true;
    }

    /** `removeFromCart` (app.js:389-393): every line with that id goes, the
        others stay in their order, and the cart is saved. */
    method RemoveFromCart(cartItemId: int)
      modifies this
      ensures cart == Filter(old(cart), IdIsNot(cartItemId))
      ensures forall e :: e in cart <==> e in old(cart) && e.id != cartItemId
      ensures forall e: CartEntry :: e.id != cartItemId ==> multiset(cart)[e] == multiset(old(cart))[e]
      ensures storedCart == cart
      ensures pending == old(pending) && storedPending == old(storedPending)
      ensures storedOrders == old(storedOrders) && syncRecords == old(syncRecords)
      ensures old(Mirrored()) ==> Mirrored()
    {
      cart := Filter(cart, IdIsNot(cartItemId));
      storedCart := cart;
      forall e: CartEntry | e.id != cartItemId
        ensures multiset(cart)[e] == multiset(old(cart))[e]
      {
        FilterCount(old(cart), IdIsNot(cartItemId), e);
      }
    }

    /** `syncOrder` (app.js:559-590). Without background sync the order is
        left to the timer that completes it (`CompleteOrderSync`); otherwise
        it is saved under its sync key, and when registering the sync throws
        it goes on the queue again, so it can be there twice. */
    method SyncOrder(order: Order, outcome: SyncOutcome)
      modifies this
      ensures syncRecords == if outcome == Unsupported then old(syncRecords) else old(syncRecords)[SyncKey(order) := order]
      ensures pending == old(pending) + if outcome == RegistrationFailed then [order] else []
      ensures storedPending == if outcome == RegistrationFailed then pending else old(storedPending)
      ensures cart == old(cart) && storedCart == old(storedCart) && storedOrders == old(storedOrders)
      ensures old(Mirrored()) ==> Mirrored()
    {
      if outcome == Unsupported {
        return;
      }
      syncRecords := syncRecords[SyncKey(order) := order];
      if outcome == RegistrationFailed {
        pending := pending + [order];
        storedPending := pending;
      }
    }

    /** `checkout` (app.js:442-466): an empty cart changes nothing. Otherwise
        the cart becomes an order `order_<now>` with the same lines, their
        total and status `pending`; the cart is emptied, the order queued,
        both saved, and the order handed to `SyncOrder`. */
    method Checkout(now: nat, outcome: SyncOutcome) returns (placed: Option<Order>)
      modifies this
      ensures old(cart) == [] ==> placed == None && cart == old(cart) && pending == old(pending)
                                  && storedCart == old(storedCart) && storedPending == old(storedPending)
                                  && syncRecords == old(syncRecords)
      ensures old(cart) != [] ==>
                && placed == Some(Order("order_" + NatToString(now), old(cart), SumPrices(old(cart)), "pending"))
                && cart == [] && storedCart == []
                && pending == old(pending) + [placed.value] + (if outcome == RegistrationFailed then [placed.value] else [])
                && storedPending == pending
                && syncRecords == if outcome == Unsupported then old(syncRecords)
                                  else old(syncRecords)[SyncKey(placed.value) := placed.value]
      ensures storedOrders == old(storedOrders)
      ensures old(Mirrored()) ==> Mirrored()
    {
      if cart == [] {
        return None;
      }
      var order := Order("order_" + NatToString(now), cart, SumPrices(cart), "pending");
      cart := [];
      storedCart := cart;
      pending := pending + [order];
      storedPending := pending;
      SyncOrder(order, outcome);
      placed := Some(order);
    }

    /** `syncOrders` (app.js:592-604): nothing to do on an empty queue;
        otherwise `SyncOrder` for each order on a copy of the queue taken
        before the pass, the i-th registration ending as `outcomeAt(i)`. */
    method SyncOrders(outcomeAt: nat -> SyncOutcome)
      modifies this
      ensures pending == old(pending) + Requeued(old(pending), outcomeAt)
      ensures syncRecords == Recorded(old(syncRecords), old(pending), outcomeAt)
      ensures Requeued(old(pending), outcomeAt) != [] ==> storedPending == pending
      ensures Requeued(old(pending), outcomeAt) == [] ==> storedPending == old(storedPending)
      ensures cart == old(cart) && storedCart == old(storedCart) && storedOrders == old(storedOrders)
      ensures old(Mirrored()) ==> Mirrored()
    {
      if |pending| == 0 {
        return;
      }
      var snapshot := pending;
      for i := 0 to |snapshot|
        invariant pending == snapshot + Requeued(snapshot[..i], outcomeAt)
        invariant syncRecords == Recorded(old(syncRecords), snapshot[..i], outcomeAt)
        invariant storedPending == if Requeued(snapshot[..i], outcomeAt) == [] then old(storedPending) else pending
        invariant cart == old(cart) && storedCart == old(storedCart) && storedOrders == old(storedOrders)
      {
        assert snapshot[..i + 1][..i] == snapshot[..i];
        SyncOrder(snapshot[i], outcomeAt(i));
      }
      assert snapshot[..|snapshot|] == snapshot;
    }

    /** `completeOrderSync` (app.js:606-624): every queued order with that id
        leaves the queue, which is saved, and one copy of the order with
        status `completed` is added at the end of the completed orders. */
    method CompleteOrderSync(order: Order)
      modifies this
      ensures pending == Filter(old(pending), OrderIdIsNot(order.id))
      ensures forall o :: o in pending <==> o in old(pending) && o.id != order.id
      ensures storedPending == pending
      ensures storedOrders == old(storedOrders) + [order.(status := "completed")]
      ensures cart == old(cart) && storedCart == old(storedCart) && syncRecords == old(syncRecords)
      ensures old(Mirrored()) ==> Mirrored()
    {
      pending := Filter(pending, OrderIdIsNot(order.id));
      storedPending := pending;
      storedOrders := storedOrders + [order.(status := "completed")];
    }
  }
}
