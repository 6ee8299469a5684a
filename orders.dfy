/** The order-receiving backend (api/send-order.js): an in-memory list of
    orders and a counter that names them `ORD1000`, `ORD1001`, ... The
    handlers of `/api/send-order`, `/api/sync-orders`,
    `/api/order-status/:orderId` and `/api/stats` are methods of one object;
    the clock is a parameter. */
module OrderApi {
  import opened Common

  const FIRST_ORDER_NUMBER: nat := 1000
  const ESTIMATED_TIME := "15-20 хвилин"
  const TOP_COUNT: nat := 5

  /** One line of a received order; only its name matters to the server. */
  datatype LineItem = LineItem(name: string)

  /** A decoded request order: `items` is `None` when it is missing (or any
      other falsy value), `total` when it is missing or falsy; every other
      field the client sent is kept in `extra`. */
  datatype Incoming = Incoming(id: Option<string>, items: Option<seq<LineItem>>, total: Option<int>, extra: map<string, string>)

  /** The fields the server adds on top of the request's own. */
  datatype Stamp =
    | Accepted(estimatedTime: string)   // `/api/send-order`
    | Synced(originalId: Option<string>) // `/api/sync-orders`, with `synced: true`

  /** A stored order: everything the client sent (`...order`) and the fields
      the server writes over it. */
  datatype Record = Record(body: Incoming, id: string, receivedAt: int, status: string, stamp: Stamp)

  /** The id given to the order numbered `n`. */
  function OrderId(n: nat): string
  {
    "ORD" + NatToString(n)
  }

  /** The i-th stored order carries the i-th id. */
  predicate WellNumbered(orders: seq<Record>)
  {
    forall i :: 0 <= i < |orders| ==> orders[i].id == OrderId(FIRST_ORDER_NUMBER + i)
  }

  /** Because the counter starts at 1000 and only goes up, no two stored
      orders share an id. */
  lemma IdsAreDistinct(orders: seq<Record>)
    requires WellNumbered(orders)
    ensures forall i, j :: 0 <= i < j < |orders| ==> orders[i].id != orders[j].id
  {
    forall i, j | 0 <= i < j < |orders|
      ensures orders[i].id != orders[j].id
    {
      PrefixedNumbersDiffer("ORD", FIRST_ORDER_NUMBER + i, FIRST_ORDER_NUMBER + j);
    }
  }

  /** The request validation of `/api/send-order`. */
  predicate Acceptable(body: Option<Incoming>)
  {
    body.Some? && body.value.items.Some? && |body.value.items.value| > 0
  }

  /** What `/api/send-order` answers. */
  datatype SendResponse =
    | BadRequest                                  // 400 {success: false}
    | OrderAccepted(order: Record, queuePosition: nat)

  /** One entry of the `/api/sync-orders` answer. */
  datatype SyncResult = SyncResult(originalId: Option<string>, newId: string, success: bool)

  /** The records a sync of `batch` stores when the counter stands at `next`. */
  function SyncedRecords(batch: seq<Incoming>, next: nat, now: int): (r: seq<Record>)
    ensures |r| == |batch|
    ensures forall i :: 0 <= i < |batch| ==>
              r[i] == Record(batch[i], OrderId(next + i), now, "synced", Synced(batch[i].id))
    decreases |batch|
  {
    if batch == [] then []
    else
      var n := |batch| - 1;
      SyncedRecords(batch[..n], next, now) + [Record(batch[n], OrderId(next + n), now, "synced", Synced(batch[n].id))]
  }

  /** The answer entries a sync of `batch` returns when the counter stands
      at `next`: each batch entry's own id beside the number it was stored
      under. */
  function SyncReplies(batch: seq<Incoming>, next: nat): (r: seq<SyncResult>)
    ensures |r| == |batch|
    ensures forall i :: 0 <= i < |batch| ==> r[i] == SyncResult(batch[i].id, OrderId(next + i), true)
    decreases |batch|
  {
    if batch == [] then []
    else
      var n := |batch| - 1;
      SyncReplies(batch[..n], next) + [SyncResult(batch[n].id, OrderId(next + n), true)]
  }

  /** `req.body.orders || []`: a missing batch is an empty one. */
  function BatchOf(batch: Option<seq<Incoming>>): seq<Incoming>
  {
    if batch.Some? then batch.value else []
  }

  /** Syncing one more order of the batch adds its record and its answer
      entry at the end. */
  lemma SyncOneMore(base: seq<Record>, stored: seq<Record>, replies: seq<SyncResult>, batch: seq<Incoming>, i: nat, next: nat, now: int)
    requires i < |batch|
    requires stored == base + SyncedRecords(batch[..i], next, now)
    requires replies == SyncReplies(batch[..i], next)
    ensures stored + [Record(batch[i], OrderId(next + i), now, "synced", Synced(batch[i].id))]
            == base + SyncedRecords(batch[..i + 1], next, now)
    ensures replies + [SyncResult(batch[i].id, OrderId(next + i), true)] == SyncReplies(batch[..i + 1], next)
  {
    assert batch[..i + 1][..i] == batch[..i];
  }

  /** Storing a synced batch after well-numbered orders keeps them
      well-numbered. */
  lemma SyncKeepsNumbering(before: seq<Record>, batch: seq<Incoming>, now: int)
    requires WellNumbered(before)
    ensures WellNumbered(before + SyncedRecords(batch, FIRST_ORDER_NUMBER + |before|, now))
  {
    var after := before + SyncedRecords(batch, FIRST_ORDER_NUMBER + |before|, now);
    forall k | 0 <= k < |after|
      ensures after[k].id == OrderId(FIRST_ORDER_NUMBER + k)
    {
      if k >= |before| {
        assert after[k] == SyncedRecords(batch, FIRST_ORDER_NUMBER + |before|, now)[k - |before|];
      }
    }
  }

  /** ---------- statistics ---------- */

  /** `order.total || 0`, summed over the orders. */
  function SumTotals(orders: seq<Record>): int
  {
    if orders == [] then 0
    else
      var last := orders[|orders| - 1];
      SumTotals(orders[..|orders| - 1]) + (if last.body.total.Some? then last.body.total.value else 0)
  }

  /** No total below zero gives a sum not below zero, and orders without a
      total add nothing. */
  lemma {:induction false} SumTotalsSign(orders: seq<Record>)
    ensures (forall i :: 0 <= i < |orders| && orders[i].body.total.Some? ==> orders[i].body.total.value >= 0) ==> SumTotals(orders) >= 0
    ensures (forall i :: 0 <= i < |orders| ==> orders[i].body.total.None?) ==> SumTotals(orders) == 0
    decreases |orders|
  {
    if orders != [] {
      SumTotalsSign(orders[..|orders| - 1]);
    }
  }

  lemma {:induction false} SumTotalsAppend(a: seq<Record>, b: seq<Record>)
    ensures SumTotals(a + b) == SumTotals(a) + SumTotals(b)
    decreases |b|
  {
    if b == [] {
      assert a + b == a;
    } else {
      var n := |b| - 1;
      assert (a + b)[..|a + b| - 1] == a + b[..n];
      SumTotalsAppend(a, b[..n]);
    }
  }

  /** `calculateAverageOrderValue`: 0 with no orders, otherwise the mean
      total rounded to the nearest integer, halves rounded up
      (`Math.round`), orders without a total counting as 0. */
  function AverageOrderValue(orders: seq<Record>): (avg: int)
    ensures orders == [] ==> avg == 0
    ensures orders != [] ==> |orders| * (2 * avg - 1) <= 2 * SumTotals(orders) < |orders| * (2 * avg + 1)
  {
    if orders == [] then 0
    else
      var n, t := |orders|, SumTotals(orders);
      var q := (2 * t + n) / (2 * n);
      assert 2 * t + n == 2 * n * q + (2 * t + n) % (2 * n);
      q
  }

  /** The mean rounded half up is the only integer with that property. */
  lemma AverageIsUnique(orders: seq<Record>, a: int)
    requires orders != []
    requires |orders| * (2 * a - 1) <= 2 * SumTotals(orders) < |orders| * (2 * a + 1)
    ensures a == AverageOrderValue(orders)
  {
    var n, avg := |orders|, AverageOrderValue(orders);
    ScaledLess(n, 2 * a - 1, 2 * avg + 1);
    ScaledLess(n, 2 * avg - 1, 2 * a + 1);
  }

  lemma ScaledLess(n: int, x: int, y: int)
    requires n > 0 && n * x < n * y
    ensures x < y
  {
  }

  /** Every item name, order by order, over the orders that have items. */
  function ItemNames(orders: seq<Record>): seq<string>
  {
    if orders == [] then []
    else
      var last := orders[|orders| - 1];
      ItemNames(orders[..|orders| - 1]) + (if last.body.items.Some? then NamesOf(last.body.items.value) else [])
  }

  function NamesOf(items: seq<LineItem>): (names: seq<string>)
    ensures |names| == |items|
    ensures forall i :: 0 <= i < |items| ==> names[i] == items[i].name
  {
    if items == [] then [] else NamesOf(items[..|items| - 1]) + [items[|items| - 1].name]
  }

  /** An entry of the `itemCount` dictionary, and of the answer. */
  datatype ItemCount = ItemCount(name: string, count: nat)

  predicate DistinctNames(s: seq<ItemCount>)
  {
    forall i, j :: 0 <= i < j < |s| ==> s[i].name != s[j].name
  }

  /** The position of `name` in the dictionary. */
  function IndexOf(tally: seq<ItemCount>, name: string): (r: Option<nat>)
    ensures r.None? <==> forall i :: 0 <= i < |tally| ==> tally[i].name != name
    ensures r.Some? ==> r.value < |tally| && tally[r.value].name == name
    decreases |tally|
  {
    if tally == [] then None
    else
      var n := |tally| - 1;
      match IndexOf(tally[..n], name)
      case Some(i) => Some(i)
      case None => if tally[n].name == name then Some(n) else None
  }

  /** `itemCount[name] = (itemCount[name] || 0) + 1`: a name already present
      keeps its place; a new one is added at the end. */
  function Bump(tally: seq<ItemCount>, name: string): seq<ItemCount>
  {
    match IndexOf(tally, name)
    case Some(i) => tally[i := tally[i].(count := tally[i].count + 1)]
    case None => tally + [ItemCount(name, 1)]
  }

  /** The dictionary after counting `names` in order. */
  function Tally(names: seq<string>): seq<ItemCount>
  {
    if names == [] then [] else Bump(Tally(names[..|names| - 1]), names[|names| - 1])
  }

  /** Counting one more name of `list` bumps that name in the dictionary. */
  lemma CountOneMore(counted: seq<string>, list: seq<LineItem>, j: nat)
    requires j < |list|
    ensures Tally(counted + NamesOf(list[..j + 1])) == Bump(Tally(counted + NamesOf(list[..j])), list[j].name)
  {
    var before := counted + NamesOf(list[..j]);
    assert list[..j + 1][..j] == list[..j];
    assert NamesOf(list[..j + 1]) == NamesOf(list[..j]) + [list[j].name];
    assert counted + NamesOf(list[..j + 1]) == before + [list[j].name];
    assert (before + [list[j].name])[..|before|] == before;
  }

  /** The inner `order.items.forEach` of `getPopularItems`: counts the names
      of `list` into a dictionary that already counts `counted`. */
  method CountNames(tally: seq<ItemCount>, ghost counted: seq<string>, list: seq<LineItem>) returns (t: seq<ItemCount>)
    requires tally == Tally(counted)
    ensures t == Tally(counted + NamesOf(list))
  {
    t := tally;
    assert counted + NamesOf(list[..0]) == counted;
    for j := 0 to |list|
      invariant t == Tally(counted + NamesOf(list[..j]))
    {
      CountOneMore(counted, list, j);
      t := Bump(t, list[j].name);
    }
    assert list[..|list|] == list;
  }

  /** Each name at most once, each with the number of times it occurs, and
      every occurring name present. */
  ghost predicate CountsOf(tally: seq<ItemCount>, names: seq<string>)
  {
    && DistinctNames(tally)
    && (forall i :: 0 <= i < |tally| ==> tally[i].count == multiset(names)[tally[i].name])
    && (forall n :: n in names ==> exists i :: 0 <= i < |tally| && tally[i].name == n)
  }

  lemma {:induction false} TallyCounts(names: seq<string>)
    ensures CountsOf(Tally(names), names)
    decreases |names|
  {
    if names != [] {
      var init, last := names[..|names| - 1], names[|names| - 1];
      assert names == init + [last];
      TallyCounts(init);
      var before := Tally(init);
      var after := Tally(names);
      assert multiset(names) == multiset(init) + multiset{last};
      match IndexOf(before, last)
      case Some(k) =>
        assert after == before[k := before[k].(count := before[k].count + 1)];
        forall n | n in names
          ensures exists i :: 0 <= i < |after| && after[i].name == n
        {
          if n != last {
            assert n in init;
            var i :| 0 <= i < |before| && before[i].name == n;
            assert after[i].name == n;
          } else {
            assert after[k].name == n;
          }
        }
      case None =>
        assert after == before + [ItemCount(last, 1)];
        assert last !in init;
        assert multiset(init)[last] == 0;
        forall n | n in names
          ensures exists i :: 0 <= i < |after| && after[i].name == n
        {
          if n != last {
            assert n in init;
            var i :| 0 <= i < |before| && before[i].name == n;
            assert after[i].name == n;
          } else {
            assert after[|before|].name == n;
          }
        }
    }
  }

  /** ---------- the descending sort ---------- */

  predicate Descending(s: seq<ItemCount>)
  {
    forall i, j :: 0 <= i < j < |s| ==> s[i].count >= s[j].count
  }

  /** Put `x` after every entry whose count is at least its own: the place a
      stable sort by descending count gives an entry that comes last. */
  function Insert(sorted: seq<ItemCount>, x: ItemCount): (r: seq<ItemCount>)
    ensures |r| == |sorted| + 1
    decreases |sorted|
  {
    if sorted == [] || sorted[|sorted| - 1].count >= x.count then sorted + [x]
    else Insert(sorted[..|sorted| - 1], x) + [sorted[|sorted| - 1]]
  }

  /** `.sort((a, b) => b[1] - a[1])`, stable as the language requires. */
  function SortByCount(s: seq<ItemCount>): (r: seq<ItemCount>)
    ensures |r| == |s|
  {
    if s == [] then [] else Insert(SortByCount(s[..|s| - 1]), s[|s| - 1])
  }

  /** Inserting adds exactly the inserted entry. */
  lemma {:induction false} InsertPermutes(sorted: seq<ItemCount>, x: ItemCount)
    ensures multiset(Insert(sorted, x)) == multiset(sorted) + multiset{x}
    ensures forall k :: 0 <= k < |Insert(sorted, x)| ==> Insert(sorted, x)[k] == x || Insert(sorted, x)[k] in sorted
    decreases |sorted|
  {
    if !(sorted == [] || sorted[|sorted| - 1].count >= x.count) {
      var init, last := sorted[..|sorted| - 1], sorted[|sorted| - 1];
      assert sorted == init + [last];
      InsertPermutes(init, x);
    }
  }

  /** Inserting after every entry whose count is at least as large keeps a
      descending list descending. */
  lemma {:induction false} InsertKeepsOrder(sorted: seq<ItemCount>, x: ItemCount)
    requires Descending(sorted)
    ensures Descending(Insert(sorted, x))
    decreases |sorted|
  {
    if !(sorted == [] || sorted[|sorted| - 1].count >= x.count) {
      var init, last := sorted[..|sorted| - 1], sorted[|sorted| - 1];
      InsertKeepsOrder(init, x);
      InsertPermutes(init, x);
      var left := Insert(init, x);
      assert Insert(sorted, x) == left + [last];
      forall i | 0 <= i < |left|
        ensures left[i].count >= last.count
      {
        if left[i] != x {
          var k :| 0 <= k < |init| && init[k] == left[i];
          assert sorted[k] == init[k];
        }
      }
    }
  }

  lemma {:induction false} SortByCountSorts(s: seq<ItemCount>)
    ensures Descending(SortByCount(s))
    ensures multiset(SortByCount(s)) == multiset(s)
    decreases |s|
  {
    if s != [] {
      var init, last := s[..|s| - 1], s[|s| - 1];
      assert s == init + [last];
      SortByCountSorts(init);
      InsertKeepsOrder(SortByCount(init), last);
      InsertPermutes(SortByCount(init), last);
    }
  }

  /** Sorting a list whose names are distinct keeps them distinct. */
  lemma {:induction false} InsertKeepsNamesDistinct(sorted: seq<ItemCount>, x: ItemCount)
    requires DistinctNames(sorted)
    requires forall k :: 0 <= k < |sorted| ==> sorted[k].name != x.name
    ensures DistinctNames(Insert(sorted, x))
    ensures forall k :: 0 <= k < |Insert(sorted, x)| ==> Insert(sorted, x)[k] == x || Insert(sorted, x)[k] in sorted
    decreases |sorted|
  {
    if !(sorted == [] || sorted[|sorted| - 1].count >= x.count) {
      var init, last := sorted[..|sorted| - 1], sorted[|sorted| - 1];
      InsertKeepsNamesDistinct(init, x);
      var left := Insert(init, x);
      assert Insert(sorted, x) == left + [last];
      forall k | 0 <= k < |left|
        ensures left[k].name != last.name
      {
        if left[k] != x {
          var m :| 0 <= m < |init| && init[m] == left[k];
          assert sorted[m] == init[m];
        }
      }
    }
  }

  lemma {:induction false} SortKeepsNamesDistinct(s: seq<ItemCount>)
    requires DistinctNames(s)
    ensures DistinctNames(SortByCount(s))
    decreases |s|
  {
    if s != [] {
      var init, last := s[..|s| - 1], s[|s| - 1];
      assert DistinctNames(init);
      SortKeepsNamesDistinct(init);
      SortByCountSorts(init);
      forall k | 0 <= k < |SortByCount(init)|
        ensures SortByCount(init)[k].name != last.name
      {
        var y := SortByCount(init)[k];
        assert y in multiset(SortByCount(init));
        assert y in multiset(init);
        var m :| 0 <= m < |init| && init[m] == y;
        assert s[m] == y;
      }
      InsertKeepsNamesDistinct(SortByCount(init), last);
    }
  }

  /** Only names that occur are counted. */
  lemma {:induction false} TallyNamesOccur(names: seq<string>)
    ensures forall t :: 0 <= t < |Tally(names)| ==> Tally(names)[t].name in names
    decreases |names|
  {
    if names != [] {
      var init, last := names[..|names| - 1], names[|names| - 1];
      TallyNamesOccur(init);
      var before := Tally(init);
      forall t | 0 <= t < |Tally(names)|
        ensures Tally(names)[t].name in names
      {
        match IndexOf(before, last)
        case Some(k) =>
          if t != k {
            assert Tally(names)[t] == before[t];
            assert before[t].name in init;
          }
        case None =>
          if t < |before| {
            assert Tally(names)[t] == before[t];
            assert before[t].name in init;
          }
      }
    }
  }

  /** The ranking of the counted names: descending, each name once with its
      number of occurrences, and every occurring name ranked. */
  lemma RankingCounts(names: seq<string>)
    ensures var ranked := SortByCount(Tally(names));
            && Descending(ranked)
            && DistinctNames(ranked)
            && (forall k :: 0 <= k < |ranked| ==>
                  ranked[k].name in names && ranked[k].count == multiset(names)[ranked[k].name])
            && (forall n :: n in names ==> exists k :: 0 <= k < |ranked| && ranked[k].name == n)
  {
    var tally := Tally(names);
    var ranked := SortByCount(tally);
    TallyCounts(names);
    TallyNamesOccur(names);
    SortByCountSorts(tally);
    SortKeepsNamesDistinct(tally);
    ReorderKeepsCounts(names, tally, ranked);
  }

  /** Any reordering of a dictionary that counts `names` still counts them. */
  lemma ReorderKeepsCounts(names: seq<string>, tally: seq<ItemCount>, ranked: seq<ItemCount>)
    requires multiset(ranked) == multiset(tally)
    requires forall t :: 0 <= t < |tally| ==> tally[t].name in names && tally[t].count == multiset(names)[tally[t].name]
    requires forall n :: n in names ==> exists t :: 0 <= t < |tally| && tally[t].name == n
    ensures forall k :: 0 <= k < |ranked| ==> ranked[k].name in names && ranked[k].count == multiset(names)[ranked[k].name]
    ensures forall n :: n in names ==> exists k :: 0 <= k < |ranked| && ranked[k].name == n
  {
    forall k | 0 <= k < |ranked|
      ensures ranked[k].name in names && ranked[k].count == multiset(names)[ranked[k].name]
    {
      assert ranked[k] in multiset(ranked);
      assert ranked[k] in multiset(tally);
      var t :| 0 <= t < |tally| && tally[t] == ranked[k];
    }
    forall n | n in names
      ensures exists k :: 0 <= k < |ranked| && ranked[k].name == n
    {
      var t :| 0 <= t < |tally| && tally[t].name == n;
      assert tally[t] in multiset(tally);
      assert tally[t] in multiset(ranked);
      var k :| 0 <= k < |ranked| && ranked[k] == tally[t];
    }
  }

  /** What `getPopularItems` returns for these orders. */
  function Popular(orders: seq<Record>): (top: seq<ItemCount>)
    ensures |top| <= TOP_COUNT
  {
    var ranked := SortByCount(Tally(ItemNames(orders)));
    ranked[..if |ranked| < TOP_COUNT then |ranked| else TOP_COUNT]
  }

  /** The popular items are in descending order of count, each name once,
      each with the number of times it occurs across the orders that have
      items; a name left out occurs no more often than any name shown, and
      fewer than five are shown only when every occurring name is. */
  lemma PopularIsTopFive(orders: seq<Record>)
    ensures var top, names := Popular(orders), ItemNames(orders);
            && Descending(top)
            && DistinctNames(top)
            && (forall i :: 0 <= i < |top| ==> top[i].name in names && top[i].count == multiset(names)[top[i].name])
            && (forall n, i :: n in names && 0 <= i < |top| && (forall j :: 0 <= j < |top| ==> top[j].name != n)
                  ==> multiset(names)[n] <= top[i].count)
            && (|top| < TOP_COUNT ==> forall n :: n in names ==> exists j :: 0 <= j < |top| && top[j].name == n)
  {
    var names := ItemNames(orders);
    var ranked := SortByCount(Tally(names));
    RankingCounts(names);
    TopOfRanking(ranked, names, if |ranked| < TOP_COUNT then |ranked| else TOP_COUNT);
  }

  /** A prefix of a ranking keeps its properties, and what it leaves out is
      ranked no higher than what it keeps. */
  lemma TopOfRanking(ranked: seq<ItemCount>, names: seq<string>, m: nat)
    requires m <= |ranked|
    requires Descending(ranked) && DistinctNames(ranked)
    requires forall k :: 0 <= k < |ranked| ==> ranked[k].name in names && ranked[k].count == multiset(names)[ranked[k].name]
    requires forall n :: n in names ==> exists k :: 0 <= k < |ranked| && ranked[k].name == n
    ensures var top := ranked[..m];
            && Descending(top)
            && DistinctNames(top)
            && (forall i :: 0 <= i < |top| ==> top[i].name in names && top[i].count == multiset(names)[top[i].name])
            && (forall n, i :: n in names && 0 <= i < |top| && (forall j :: 0 <= j < |top| ==> top[j].name != n)
                  ==> multiset(names)[n] <= top[i].count)
            && (m == |ranked| ==> forall n :: n in names ==> exists j :: 0 <= j < |top| && top[j].name == n)
  {
    var top := ranked[..m];
    forall n, i | n in names && 0 <= i < |top| && (forall j :: 0 <= j < |top| ==> top[j].name != n)
      ensures multiset(names)[n] <= top[i].count
    {
      LeftOutRanksLower(ranked, m, n, i);
    }
    if m == |ranked| {
      assert top == ranked;
    }
  }

  /** A name that a descending ranking lists, but not among its first `m`,
      counts no more than any of those `m`. */
  lemma LeftOutRanksLower(ranked: seq<ItemCount>, m: nat, n: string, i: nat)
    requires i < m <= |ranked|
    requires Descending(ranked)
    requires exists k :: 0 <= k < |ranked| && ranked[k].name == n
    requires forall j :: 0 <= j < m ==> ranked[j].name != n
    ensures exists k :: m <= k < |ranked| && ranked[k].name == n && ranked[k].count <= ranked[i].count
  {
    var p :| 0 <= p < |ranked| && ranked[p].name == n;
    assert p >= m;
  }

  /** What `/api/stats` answers; the count of today's orders is not part of
      this model. */
  datatype StatsView = StatsView(totalOrders: nat, popularItems: seq<ItemCount>, averageOrderValue: int, lastOrder: Option<Record>)

  /** What `/api/order-status/:orderId` answers. */
  datatype StatusResponse = NotFound | Found(order: Record)

  class OrderServer {
    var orders: seq<Record>   // `ordersDatabase`
    var counter: nat          // `orderCounter`

    /** The counter is the number the next order gets, and the stored orders
        are numbered from 1000 in the order they were stored. */
    predicate Valid()
      reads this
    {
      counter == FIRST_ORDER_NUMBER + |orders| && WellNumbered(orders)
    }

    constructor ()
      ensures orders == [] && counter == FIRST_ORDER_NUMBER && Valid()
    {
      orders := [];
      counter := FIRST_ORDER_NUMBER;
    }

    /** `POST /api/send-order` (api/send-order.js:39-75): a missing order, a
        missing or empty item list gives 400 and changes nothing; otherwise
        the order, with the next id, the receive time, status `processing`
        and the estimated time written over it, goes at the end of the list
        and its position is the new length. */
    method SendOrder(body: Option<Incoming>, now: int) returns (response: SendResponse)
      modifies this
      ensures response.BadRequest? <==> !Acceptable(body)
      ensures !Acceptable(body) ==> orders == old(orders) && counter == old(counter)
      ensures Acceptable(body) ==>
                && response.order == Record(body.value, OrderId(old(counter)), now, "processing", Accepted(ESTIMATED_TIME))
                && orders == old(orders) + [response.order]
                && counter == old(counter) + 1
                && response.queuePosition == |orders|
      ensures old(Valid()) ==> Valid()
    {
      if body.None? || body.value.items.None? || |body.value.items.value| == 0 {
        return BadRequest;
      }
      var order := Record(body.value, OrderId(counter), now, "processing", Accepted(ESTIMATED_TIME));
      counter := counter + 1;
      orders := orders + [order];
      response := OrderAccepted(order, |orders|);
    }

    /** `POST /api/sync-orders` (api/send-order.js:97-126): every order of
        the batch (`orders || []`), without validation, is stored in batch
        order with consecutive ids, status `synced` and its own id kept as
        `originalId`; the answer lists one successful result per order. */
    method SyncOrders(batch: Option<seq<Incoming>>, now: int) returns (results: seq<SyncResult>)
      modifies this
      ensures results == SyncReplies(BatchOf(batch), old(counter))
      ensures orders == old(orders) + SyncedRecords(BatchOf(batch), old(counter), now)
      ensures counter == old(counter) + |BatchOf(batch)|
      ensures old(Valid()) ==> Valid()
    {
      var b := BatchOf(batch);
      ghost var next := counter;
      results := [];
      for i := 0 to |b|
        invariant results == SyncReplies(b[..i], next)
        invariant orders == old(orders) + SyncedRecords(b[..i], next, now)
        invariant counter == next + i
      {
        var record := Record(b[i], OrderId(counter), now, "synced", Synced(b[i].id));
        SyncOneMore(old(orders), orders, results, b, i, next, now);
        counter := counter + 1;
        orders := orders + [record];
        results := results + [SyncResult(b[i].id, record.id, true)];
      }
      assert b[..|b|] == b;
      if old(Valid()) {
        SyncKeepsNumbering(old(orders), b, now);
      }
    }

    /** `GET /api/order-status/:orderId` (api/send-order.js:78-94): the first
        stored order with that id, or 404. */
    method OrderStatus(orderId: string) returns (response: StatusResponse)
      ensures response.NotFound? <==> forall i :: 0 <= i < |orders| ==> orders[i].id != orderId
      ensures response.Found? ==>
                exists i :: 0 <= i < |orders| && orders[i] == response.order && orders[i].id == orderId
                            && forall j :: 0 <= j < i ==> orders[j].id != orderId
    {
      var i := 0;
      while i < |orders|
        invariant i <= |orders|
        invariant forall j :: 0 <= j < i ==> orders[j].id != orderId
      {
        if orders[i].id == orderId {
          return Found(orders[i]);
        }
        i := i + 1;
      }
      return NotFound;
    }

    /** `getPopularItems` (api/send-order.js:145-160): count item names over
        the orders that have items, in nested loops, then sort and keep the
        first five. */
    method PopularItems() returns (top: seq<ItemCount>)
      ensures top == Popular(orders)
    {
      var tally: seq<ItemCount> := [];
      ghost var seen: seq<string> := [];
      for i := 0 to |orders|
        invariant seen == ItemNames(orders[..i])
        invariant tally == Tally(seen)
      {
        assert orders[..i + 1][..i] == orders[..i];
        var items := orders[i].body.items;
        if items.Some? {
          tally := CountNames(tally, seen, items.value);
          seen := seen + NamesOf(items.value);
        }
      }
      assert orders[..|orders|] == orders;
      var ranked := SortByCount(tally);
      top := ranked[..if |ranked| < TOP_COUNT then |ranked| else TOP_COUNT];
    }

    /** `GET /api/stats` (api/send-order.js:129-142). */
    method Stats() returns (stats: StatsView)
      ensures stats.totalOrders == |orders|
      ensures stats.popularItems == Popular(orders)
      ensures stats.averageOrderValue == AverageOrderValue(orders)
      ensures stats.lastOrder == if orders == [] then None else Some(orders[|orders| - 1])
    {
      var popular := PopularItems();
      var last := if |orders| == 0 then None else Some(orders[|orders| - 1]);
      stats := StatsView(|orders|, popular, AverageOrderValue(orders), last);
    }
  }
}
