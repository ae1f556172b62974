/**
 * One side's price-ordered map, as values. The source keeps, per side, a
 * skip-list map from price to an insertion-ordered hash map from order id to
 * order. Here a side is a sequence of levels kept strictly sorted by the
 * side's comparator, and each level is the sequence of its orders in arrival
 * order (the hash map's iteration order; its key is always the order's id).
 * The functions below are the map operations the book performs on them.
 */
module PriceLevels {
  import opened Wrappers
  import opened Orders

  /** The two sides of the book. */
  datatype Side = Bid | Offer

  /** The character that tags orders of a side. */
  function SideChar(s: Side): char
  {
    match s
    case Bid => 'B'
    case Offer => 'O'
  }

  /** The side's price comparator: `p` ranks strictly ahead of `q`; bids descending, offers ascending. */
  predicate Before(s: Side, p: int, q: int)
  {
    match s
    case Bid => p > q
    case Offer => p < q
  }

  /** A price level: its key and its orders in arrival order. */
  datatype Level = Level(price: int, orders: seq<Order>)

  /** Level keys are strictly ordered by the side's comparator (so each price is a key at most once). */
  predicate Sorted(s: Side, levels: seq<Level>)
  {
    forall i, j :: 0 <= i < j < |levels| ==> Before(s, levels[i].price, levels[j].price)
  }

  /** No two entries of a level share an id (the id is the level's hash-map key). */
  predicate DistinctIds(os: seq<Order>)
  {
    forall i, j :: 0 <= i < j < |os| ==> os[i].id != os[j].id
  }

  /** Every order of the level has the level's price. */
  predicate PricesMatch(lv: Level)
  {
    forall o :: o in lv.orders ==> o.price == lv.price
  }

  /** Every order of every level has its level's price. */
  predicate AllPricesMatch(levels: seq<Level>)
  {
    forall lv :: lv in levels ==> PricesMatch(lv)
  }

  /** `get(price)` on the price map: the orders of the level keyed `p`, if there is one. */
  function Find(levels: seq<Level>, p: int): (r: Option<seq<Order>>)
    ensures r.Some? <==> exists i :: 0 <= i < |levels| && levels[i].price == p
    ensures r.Some? ==> Level(p, r.value) in levels
  {
    if levels == [] then None
    else if levels[0].price == p then Some(levels[0].orders)
    else Find(levels[1..], p)
  }

  /** `getOrDefault(price, new LinkedHashMap<>())` on the price map. */
  function GetOrDefault(levels: seq<Level>, p: int): seq<Order>
  {
    match Find(levels, p)
    case Some(os) => os
    case None => []
  }

  /** In a sorted side, the level found for a key is the one at that key's position. */
  lemma {:induction false} FindAt(s: Side, levels: seq<Level>, k: nat)
    requires Sorted(s, levels)
    requires k < |levels|
    ensures Find(levels, levels[k].price) == Some(levels[k].orders)
  {
    if k > 0 {
      assert Before(s, levels[0].price, levels[k].price);
      assert levels[1..][k - 1] == levels[k];
      FindAt(s, levels[1..], k - 1);
    }
  }

  /** The position of the first entry of a level with id `id`, or the level's length when there is none. */
  function IdPos(os: seq<Order>, id: int): (k: nat)
    ensures k <= |os|
    ensures forall i :: 0 <= i < k ==> os[i].id != id
    ensures k < |os| ==> os[k].id == id
  {
    if os == [] || os[0].id == id then 0 else 1 + IdPos(os[1..], id)
  }

  /**
   * `put(order.getId(), order)` on a level: an order whose id is already
   * present replaces that entry in place; otherwise it is appended.
   */
  function PutEntry(os: seq<Order>, o: Order): seq<Order>
  {
    var k := IdPos(os, o.id);
    if k < |os| then os[k := o] else os + [o]
  }

  /** `remove(orderId)` on a level: the entry with that id is deleted, the rest keep their order. */
  function RemoveEntry(os: seq<Order>, id: int): seq<Order>
  {
    var k := IdPos(os, id);
    if k < |os| then os[..k] + os[k + 1..] else os
  }

  /** What a level holds after `put`, when its ids are distinct. */
  lemma PutEntryMembers(os: seq<Order>, o: Order)
    requires DistinctIds(os)
    ensures DistinctIds(PutEntry(os, o))
    ensures o in PutEntry(os, o)
    ensures forall x :: x in PutEntry(os, o) ==> x == o || (x in os && x.id != o.id)
    ensures forall x :: x in os && x.id != o.id ==> x in PutEntry(os, o)
  {
    var j := IdPos(os, o.id);
    var r := PutEntry(os, o);
    if j < |os| {
      assert r == os[j := o] && r[j] == o;
      forall a, b | 0 <= a < b < |r| ensures r[a].id != r[b].id {
        assert r[a].id == os[a].id && r[b].id == os[b].id;
      }
      forall x | x in r ensures x == o || (x in os && x.id != o.id) {
        var i :| 0 <= i < |r| && r[i] == x;
        if i != j { assert os[i] == x && os[i].id != os[j].id; }
      }
      forall x | x in os && x.id != o.id ensures x in r {
        var i :| 0 <= i < |os| && os[i] == x;
        assert r[i] == x;
      }
    } else {
      assert r == os + [o];
      forall a, b | 0 <= a < b < |r| ensures r[a].id != r[b].id {
        if b == |os| { assert r[a] == os[a] && r[b] == o; }
      }
    }
  }

  /** After `remove`, a level with distinct ids still has distinct ids. */
  lemma RemoveEntryDistinct(os: seq<Order>, id: int)
    requires DistinctIds(os)
    ensures DistinctIds(RemoveEntry(os, id))
  {
    var j := IdPos(os, id);
    if j < |os| {
      var pre, post := os[..j], os[j + 1..];
      var r := pre + post;
      forall a | 0 <= a < |r| ensures r[a] == os[if a < j then a else a + 1] {
        if a < j { assert r[a] == pre[a]; } else { assert r[a] == post[a - j]; }
      }
      forall a, b | 0 <= a < b < |r| ensures r[a].id != r[b].id {
        var a', b' := (if a < j then a else a + 1), (if b < j then b else b + 1);
        assert r[a] == os[a'] && r[b] == os[b'];
      }
    }
  }

  /** After `remove`, a level with distinct ids holds exactly its other orders. */
  lemma RemoveEntryMembers(os: seq<Order>, id: int)
    requires DistinctIds(os)
    ensures DistinctIds(RemoveEntry(os, id))
    ensures forall x :: x in RemoveEntry(os, id) <==> x in os && x.id != id
  {
    RemoveEntryDistinct(os, id);
    var j := IdPos(os, id);
    if j < |os| {
      var pre, post := os[..j], os[j + 1..];
      assert os == pre + [os[j]] + post;
      forall x ensures x in pre + post <==> x in os && x.id != id {
        if x in pre {
          var i :| 0 <= i < |pre| && pre[i] == x;
          assert os[i] == x;
        }
        if x in post {
          var i :| 0 <= i < |post| && post[i] == x;
          assert os[j + 1 + i] == x;
        }
      }
    }
  }

  /**
   * `put(price, orders)` on the skip-list price map: replaces the level keyed
   * `p` or inserts a new level at the place the comparator gives it.
   */
  function PutLevel(s: Side, levels: seq<Level>, p: int, os: seq<Order>): (r: seq<Level>)
    ensures Find(r, p) == Some(os)
    ensures forall q :: q != p ==> Find(r, q) == Find(levels, q)
    ensures forall lv :: lv in r ==> lv in levels || lv == Level(p, os)
  {
    if levels == [] then [Level(p, os)]
    else if levels[0].price == p then [Level(p, os)] + levels[1..]
    else if Before(s, p, levels[0].price) then [Level(p, os)] + levels
    else [levels[0]] + PutLevel(s, levels[1..], p, os)
  }

  /** A level ahead of every level of a sorted side can be put in front of it. */
  lemma SortedCons(s: Side, lv: Level, rest: seq<Level>)
    requires Sorted(s, rest)
    requires forall j :: 0 <= j < |rest| ==> Before(s, lv.price, rest[j].price)
    ensures Sorted(s, [lv] + rest)
  {
    var r := [lv] + rest;
    forall i, j | 0 <= i < j < |r| ensures Before(s, r[i].price, r[j].price) {
      assert r[j] == rest[j - 1];
      if i > 0 { assert r[i] == rest[i - 1]; }
    }
  }

  /** `put` keeps the skip list's keys in comparator order. */
  lemma {:induction false} PutLevelSorted(s: Side, levels: seq<Level>, p: int, os: seq<Order>)
    requires Sorted(s, levels)
    ensures Sorted(s, PutLevel(s, levels, p, os))
  {
    if levels == [] {
    } else if levels[0].price == p || Before(s, p, levels[0].price) {
      var rest := if levels[0].price == p then levels[1..] else levels;
      assert PutLevel(s, levels, p, os) == [Level(p, os)] + rest;
      assert Sorted(s, rest);
      forall j | 0 <= j < |rest| ensures Before(s, p, rest[j].price) {
        if levels[0].price == p {
          assert rest[j] == levels[j + 1];
        } else if j > 0 {
          BeforeOrder(s, p, levels[0].price, levels[j].price);
        }
      }
      SortedCons(s, Level(p, os), rest);
    } else {
      var rest := PutLevel(s, levels[1..], p, os);
      assert Sorted(s, levels[1..]);
      PutLevelSorted(s, levels[1..], p, os);
      forall j | 0 <= j < |rest| ensures Before(s, levels[0].price, rest[j].price) {
        assert rest[j] in rest;
        if rest[j] != Level(p, os) {
          var m :| 0 <= m < |levels[1..]| && levels[1..][m] == rest[j];
          assert levels[1..][m] == levels[m + 1];
        }
      }
      SortedCons(s, levels[0], rest);
    }
  }

  /**
   * The level keyed `p` has its orders replaced by `os`; the keys and every
   * other level are unchanged (the in-place update of a level found by `get`).
   */
  function UpdateLevel(levels: seq<Level>, p: int, os: seq<Order>): (r: seq<Level>)
    ensures |r| == |levels|
    ensures forall i :: 0 <= i < |r| ==> r[i].price == levels[i].price
    ensures Find(r, p) == if Find(levels, p).Some? then Some(os) else None
    ensures forall q :: q != p ==> Find(r, q) == Find(levels, q)
    ensures forall lv :: lv in r ==> lv in levels || lv == Level(p, os)
  {
    if levels == [] then []
    else if levels[0].price == p then [Level(p, os)] + levels[1..]
    else [levels[0]] + UpdateLevel(levels[1..], p, os)
  }

  /** The entry set streamed level by level: every order, best level first, arrival order within a level. */
  function Flatten(levels: seq<Level>): seq<Order>
  {
    if levels == [] then [] else levels[0].orders + Flatten(levels[1..])
  }

  /** An order is listed exactly when it is held by some level. */
  lemma {:induction false} FlattenMember(levels: seq<Level>, x: Order)
    ensures x in Flatten(levels) <==> exists lv :: lv in levels && x in lv.orders
  {
    if levels != [] {
      FlattenMember(levels[1..], x);
      assert forall lv :: lv in levels <==> lv == levels[0] || lv in levels[1..];
    }
  }

  /** Price-time priority of the listing: no order is listed after one whose price it beats. */
  lemma {:induction false} ListingSorted(s: Side, levels: seq<Level>)
    requires Sorted(s, levels) && AllPricesMatch(levels)
    ensures forall i, j :: 0 <= i < j < |Flatten(levels)| ==>
      !Before(s, Flatten(levels)[j].price, Flatten(levels)[i].price)
  {
    if levels != [] {
      var head, tail := levels[0].orders, Flatten(levels[1..]);
      assert Sorted(s, levels[1..]);
      assert AllPricesMatch(levels[1..]) by {
        forall lv | lv in levels[1..] ensures PricesMatch(lv) { assert lv in levels; }
      }
      ListingSorted(s, levels[1..]);
      assert PricesMatch(levels[0]);
      var l := Flatten(levels);
      assert l == head + tail;
      forall i, j | 0 <= i < j < |l| ensures !Before(s, l[j].price, l[i].price) {
        if i < |head| && j >= |head| {
          assert l[i] == head[i] && l[j] == tail[j - |head|];
          FlattenMember(levels[1..], tail[j - |head|]);
          var lv :| lv in levels[1..] && tail[j - |head|] in lv.orders;
          var m :| 0 <= m < |levels[1..]| && levels[1..][m] == lv;
          assert Before(s, levels[0].price, levels[m + 1].price);
          assert PricesMatch(lv);
        } else if j >= |head| {
          assert l[i] == tail[i - |head|] && l[j] == tail[j - |head|];
        } else {
          assert l[i] == head[i] && l[j] == head[j];
        }
      }
    }
  }

  /** Every listed order of a sorted side whose price ranks behind some level `m`'s price. */
  lemma ListedBehind(s: Side, levels: seq<Level>, q: int, x: Order)
    requires AllPricesMatch(levels)
    requires forall i :: 0 <= i < |levels| ==> Before(s, q, levels[i].price)
    requires x in Flatten(levels)
    ensures Before(s, q, x.price)
  {
    FlattenMember(levels, x);
    var lv :| lv in levels && x in lv.orders;
    assert PricesMatch(lv);
  }

  /** `Before` is a strict total order on prices. */
  lemma BeforeOrder(s: Side, p: int, q: int, r: int)
    ensures !Before(s, p, p)
    ensures p != q ==> Before(s, p, q) || Before(s, q, p)
    ensures Before(s, p, q) && Before(s, q, r) ==> Before(s, p, r)
  {
  }

  /** `addOrder` on one side's price map: `put` the order into the level at its price, created if absent. */
  function AddToLevels(s: Side, levels: seq<Level>, o: Order): seq<Level>
  {
    PutLevel(s, levels, o.price, PutEntry(GetOrDefault(levels, o.price), o))
  }

  /**
   * `o` sits between `pre` and `post` in price-time order: every order of
   * `pre` has a price at least as good as `o`'s, every order of `post` a worse one.
   */
  predicate InsertedBetween(s: Side, pre: seq<Order>, post: seq<Order>, o: Order)
  {
    && (forall y :: y in pre ==> !Before(s, o.price, y.price))
    && (forall y :: y in post ==> Before(s, o.price, y.price))
  }

  /** The first level of a sorted side ranks ahead of every later one. */
  lemma SortedTail(s: Side, levels: seq<Level>)
    requires Sorted(s, levels) && AllPricesMatch(levels) && levels != []
    ensures Sorted(s, levels[1..]) && AllPricesMatch(levels[1..]) && PricesMatch(levels[0])
    ensures forall i :: 0 <= i < |levels[1..]| ==> Before(s, levels[0].price, levels[1..][i].price)
  {
    forall lv | lv in levels[1..] ensures PricesMatch(lv) { assert lv in levels; }
    forall i | 0 <= i < |levels[1..]| ensures Before(s, levels[0].price, levels[1..][i].price) {
      assert levels[1..][i] == levels[i + 1];
    }
  }

  /** Adding at the price of the first level appends to that level. */
  lemma AddAtFirstLevel(s: Side, levels: seq<Level>, o: Order)
    requires Sorted(s, levels) && AllPricesMatch(levels) && levels != [] && levels[0].price == o.price
    requires forall x :: x in GetOrDefault(levels, o.price) ==> x.id != o.id
    ensures Flatten(levels) == levels[0].orders + Flatten(levels[1..])
    ensures Flatten(AddToLevels(s, levels, o)) == levels[0].orders + [o] + Flatten(levels[1..])
    ensures InsertedBetween(s, levels[0].orders, Flatten(levels[1..]), o)
  {
    var p, head, tail := o.price, levels[0].orders, Flatten(levels[1..]);
    SortedTail(s, levels);
    assert GetOrDefault(levels, p) == head;
    assert PutEntry(head, o) == head + [o];
    assert AddToLevels(s, levels, o) == [Level(p, head + [o])] + levels[1..];
    forall y | y in tail ensures Before(s, p, y.price) {
      ListedBehind(s, levels[1..], p, y);
    }
  }

  /** Adding at a price ahead of every level puts a new level first. */
  lemma AddAheadOfAll(s: Side, levels: seq<Level>, o: Order)
    requires Sorted(s, levels) && AllPricesMatch(levels)
    requires levels == [] || Before(s, o.price, levels[0].price)
    ensures Flatten(AddToLevels(s, levels, o)) == [o] + Flatten(levels)
    ensures InsertedBetween(s, [], Flatten(levels), o)
  {
    var p, l := o.price, Flatten(levels);
    assert Find(levels, p) == None by {
      forall i | 0 <= i < |levels| ensures levels[i].price != p {
        if i > 0 { BeforeOrder(s, p, levels[0].price, levels[i].price); }
      }
    }
    assert PutEntry(GetOrDefault(levels, p), o) == [o];
    assert AddToLevels(s, levels, o) == [Level(p, [o])] + levels;
    forall y | y in l ensures Before(s, p, y.price) {
      FlattenMember(levels, y);
      var lv :| lv in levels && y in lv.orders;
      var m :| 0 <= m < |levels| && levels[m] == lv;
      assert PricesMatch(lv);
      if m > 0 { BeforeOrder(s, p, levels[0].price, levels[m].price); }
    }
  }

  /**
   * Adding an order whose id its level does not yet hold inserts it into the
   * listing right after every order whose price is at least as good, and right
   * before every order whose price is worse: it joins the end of its level.
   * The returned `pre` and `post` are the listing before and after it.
   */
  lemma {:induction false} AddListing(s: Side, levels: seq<Level>, o: Order) returns (pre: seq<Order>, post: seq<Order>)
    requires Sorted(s, levels) && AllPricesMatch(levels)
    requires forall x :: x in GetOrDefault(levels, o.price) ==> x.id != o.id
    ensures Flatten(levels) == pre + post
    ensures Flatten(AddToLevels(s, levels, o)) == pre + [o] + post
    ensures InsertedBetween(s, pre, post, o)
  {
    var p := o.price;
    if levels == [] || Before(s, p, levels[0].price) {
      AddAheadOfAll(s, levels, o);
      pre, post := [], Flatten(levels);
    } else if levels[0].price == p {
      AddAtFirstLevel(s, levels, o);
      pre, post := levels[0].orders, Flatten(levels[1..]);
    } else {
      var head := levels[0].orders;
      AddBehindFirstLevel(s, levels, o);
      var pre', post' := AddListing(s, levels[1..], o);
      PrependAhead(s, head, pre', post', o);
      pre, post := head + pre', post';
    }
  }

  /** `put` of an id the level lacks appends the order after all of the level's orders. */
  lemma PutFreshEntry(os: seq<Order>, o: Order)
    requires forall x :: x in os ==> x.id != o.id
    ensures PutEntry(os, o) == os + [o]
  {
    assert forall i :: 0 <= i < |os| ==> os[i].id != o.id;
  }

  /**
   * Adding an order whose id its level does not yet hold puts it at the end
   * of the level at its price, creating the level if there was none, and
   * leaves the level at every other price as it was.
   */
  lemma AddAppendsToLevel(s: Side, levels: seq<Level>, o: Order)
    requires forall x :: x in GetOrDefault(levels, o.price) ==> x.id != o.id
    ensures Find(AddToLevels(s, levels, o), o.price) == Some(GetOrDefault(levels, o.price) + [o])
    ensures forall q :: q != o.price ==> Find(AddToLevels(s, levels, o), q) == Find(levels, q)
  {
    PutFreshEntry(GetOrDefault(levels, o.price), o);
  }

  /** Orders ranking at least as well as `o`, put in front, stay ahead of it. */
  lemma PrependAhead(s: Side, head: seq<Order>, pre: seq<Order>, post: seq<Order>, o: Order)
    requires InsertedBetween(s, pre, post, o)
    requires forall i :: 0 <= i < |head| ==> !Before(s, o.price, head[i].price)
    ensures head + (pre + post) == (head + pre) + post
    ensures head + (pre + [o] + post) == (head + pre) + [o] + post
    ensures InsertedBetween(s, head + pre, post, o)
  {
    forall y | y in head + pre ensures !Before(s, o.price, y.price) {
      if y !in pre {
        var i :| 0 <= i < |head| && head[i] == y;
      }
    }
  }

  /** Adding at a price behind the first level leaves that level first and adds to the rest. */
  lemma AddBehindFirstLevel(s: Side, levels: seq<Level>, o: Order)
    requires Sorted(s, levels) && AllPricesMatch(levels) && levels != []
    requires levels[0].price != o.price && !Before(s, o.price, levels[0].price)
    ensures Sorted(s, levels[1..]) && AllPricesMatch(levels[1..])
    ensures GetOrDefault(levels, o.price) == GetOrDefault(levels[1..], o.price)
    ensures Flatten(levels) == levels[0].orders + Flatten(levels[1..])
    ensures Flatten(AddToLevels(s, levels, o)) == levels[0].orders + Flatten(AddToLevels(s, levels[1..], o))
    ensures forall i :: 0 <= i < |levels[0].orders| ==> !Before(s, o.price, levels[0].orders[i].price)
  {
    var p, head := o.price, levels[0].orders;
    SortedTail(s, levels);
    assert AddToLevels(s, levels, o) == [levels[0]] + AddToLevels(s, levels[1..], o);
    forall i | 0 <= i < |head| ensures !Before(s, p, head[i].price) {
      assert head[i] in levels[0].orders;
      BeforeOrder(s, p, levels[0].price, p);
    }
  }

  /** The listed orders of the levels ahead of the level keyed `p`. */
  function ListedAhead(levels: seq<Level>, p: int): seq<Order>
  {
    if levels == [] || levels[0].price == p then [] else levels[0].orders + ListedAhead(levels[1..], p)
  }

  /** The listed orders of the levels behind the level keyed `p`. */
  function ListedBehindKey(levels: seq<Level>, p: int): seq<Order>
  {
    if levels == [] then []
    else if levels[0].price == p then Flatten(levels[1..])
    else ListedBehindKey(levels[1..], p)
  }

  /** The listing is the levels ahead of the level keyed `p`, that level, and the levels behind it. */
  lemma {:induction false} FlattenAround(levels: seq<Level>, p: int)
    requires Find(levels, p).Some?
    ensures Flatten(levels) == ListedAhead(levels, p) + Find(levels, p).value + ListedBehindKey(levels, p)
  {
    if levels[0].price != p {
      FlattenAround(levels[1..], p);
      Regroup(levels[0].orders, ListedAhead(levels[1..], p), Find(levels, p).value, ListedBehindKey(levels, p));
    }
  }

  /** Replacing one level's orders replaces exactly that stretch of the listing. */
  lemma {:induction false} FlattenUpdate(levels: seq<Level>, p: int, os: seq<Order>)
    requires Find(levels, p).Some?
    ensures Flatten(UpdateLevel(levels, p, os)) == ListedAhead(levels, p) + os + ListedBehindKey(levels, p)
  {
    var r := UpdateLevel(levels, p, os);
    if levels[0].price == p {
      assert r == [Level(p, os)] + levels[1..];
      assert r[1..] == levels[1..];
    } else {
      FlattenUpdate(levels[1..], p, os);
      assert r[0] == levels[0] && r[1..] == UpdateLevel(levels[1..], p, os);
      assert Flatten(r) == levels[0].orders + Flatten(UpdateLevel(levels[1..], p, os));
      Regroup(levels[0].orders, ListedAhead(levels[1..], p), os, ListedBehindKey(levels, p));
    }
  }

  lemma Regroup(a: seq<Order>, b: seq<Order>, c: seq<Order>, d: seq<Order>)
    ensures a + (b + c + d) == (a + b) + c + d
  {
  }

  /** `removeOrderById` on one side's price map: drop the order's id from the level at its price. */
  function RemoveFromLevels(levels: seq<Level>, o: Order): seq<Level>
  {
    UpdateLevel(levels, o.price, RemoveEntry(GetOrDefault(levels, o.price), o.id))
  }

  /** `findByIdAndModifySize` on one side's price map: `put` the new order over the entry with its id. */
  function ReplaceInLevels(levels: seq<Level>, u: Order): seq<Level>
  {
    UpdateLevel(levels, u.price, PutEntry(GetOrDefault(levels, u.price), u))
  }

  /** Putting an existing key into the skip list replaces its value in place. */
  lemma {:induction false} PutExistingLevel(s: Side, levels: seq<Level>, p: int, os: seq<Order>)
    requires Sorted(s, levels) && Find(levels, p).Some?
    ensures PutLevel(s, levels, p, os) == UpdateLevel(levels, p, os)
  {
    if levels[0].price != p {
      var i :| 0 <= i < |levels| && levels[i].price == p;
      assert Before(s, levels[0].price, levels[i].price);
      assert !Before(s, p, levels[0].price);
      assert Find(levels[1..], p).Some? by { assert levels[1..][i - 1] == levels[i]; }
      assert Sorted(s, levels[1..]);
      PutExistingLevel(s, levels[1..], p, os);
    }
  }

  /** Cutting the middle stretch `os` of a sequence around its entry `j`. */
  lemma CutAround(pre: seq<Order>, os: seq<Order>, post: seq<Order>, j: int, u: Order)
    requires 0 <= j < |os|
    ensures pre + os + post == (pre + os[..j]) + [os[j]] + (os[j + 1..] + post)
    ensures pre + (os[..j] + os[j + 1..]) + post == (pre + os[..j]) + (os[j + 1..] + post)
    ensures pre + os[j := u] + post == (pre + os[..j]) + [u] + (os[j + 1..] + post)
  {
    assert os == os[..j] + [os[j]] + os[j + 1..];
    assert os[j := u] == os[..j] + [u] + os[j + 1..];
  }

  /** In a level without duplicate ids, the first entry with an order's id is that order. */
  lemma IdPosOf(os: seq<Order>, x: Order)
    requires DistinctIds(os) && x in os
    ensures IdPos(os, x.id) < |os| && os[IdPos(os, x.id)] == x
  {
    var i :| 0 <= i < |os| && os[i] == x;
    var j := IdPos(os, x.id);
    assert !(i < j) && !(j < i);
  }

  /**
   * Removing an order held once by the level at its price deletes exactly
   * that order from the listing; the orders before and after it keep their
   * order.
   */
  lemma RemoveListing(levels: seq<Level>, x: Order) returns (pre: seq<Order>, post: seq<Order>)
    requires Find(levels, x.price).Some? && x in Find(levels, x.price).value
    requires DistinctIds(Find(levels, x.price).value)
    ensures Flatten(levels) == pre + [x] + post
    ensures Flatten(RemoveFromLevels(levels, x)) == pre + post
  {
    var os := Find(levels, x.price).value;
    IdPosOf(os, x);
    var j := IdPos(os, x.id);
    assert GetOrDefault(levels, x.price) == os;
    assert RemoveEntry(os, x.id) == os[..j] + os[j + 1..];
    FlattenAround(levels, x.price);
    FlattenUpdate(levels, x.price, os[..j] + os[j + 1..]);
    CutAround(ListedAhead(levels, x.price), os, ListedBehindKey(levels, x.price), j, x);
    pre, post := ListedAhead(levels, x.price) + os[..j], os[j + 1..] + ListedBehindKey(levels, x.price);
  }

  /**
   * Putting `u` over the entry with its id, in the level at its price, changes
   * exactly that order of the listing and nothing else.
   */
  lemma ReplaceListing(levels: seq<Level>, x: Order, u: Order) returns (pre: seq<Order>, post: seq<Order>)
    requires Find(levels, x.price).Some? && x in Find(levels, x.price).value
    requires DistinctIds(Find(levels, x.price).value)
    requires u.id == x.id && u.price == x.price
    ensures Flatten(levels) == pre + [x] + post
    ensures Flatten(ReplaceInLevels(levels, u)) == pre + [u] + post
  {
    var os := Find(levels, x.price).value;
    IdPosOf(os, x);
    var j := IdPos(os, x.id);
    assert GetOrDefault(levels, x.price) == os;
    assert PutEntry(os, u) == os[j := u];
    FlattenAround(levels, x.price);
    FlattenUpdate(levels, x.price, os[j := u]);
    CutAround(ListedAhead(levels, x.price), os, ListedBehindKey(levels, x.price), j, u);
    pre, post := ListedAhead(levels, x.price) + os[..j], os[j + 1..] + ListedBehindKey(levels, x.price);
  }

  /**
   * Re-adding an id already held at the same price overwrites that entry
   * where it stands: the listing changes in that one place and nothing moves.
   */
  lemma ReAddReplacesInPlace(s: Side, levels: seq<Level>, x: Order, o: Order) returns (pre: seq<Order>, post: seq<Order>)
    requires Sorted(s, levels)
    requires Find(levels, x.price).Some? && x in Find(levels, x.price).value
    requires DistinctIds(Find(levels, x.price).value)
    requires o.id == x.id && o.price == x.price
    ensures AddToLevels(s, levels, o) == ReplaceInLevels(levels, o)
    ensures Flatten(levels) == pre + [x] + post
    ensures Flatten(AddToLevels(s, levels, o)) == pre + [o] + post
  {
    PutExistingLevel(s, levels, o.price, PutEntry(GetOrDefault(levels, o.price), o));
    pre, post := ReplaceListing(levels, x, o);
  }

  /** The orders of the listing at price `p`, in listing order. */
  function PriceGroup(l: seq<Order>, p: int): (r: seq<Order>)
    ensures forall x :: x in r <==> x in l && x.price == p
  {
    if l == [] then []
    else if l[0].price == p then [l[0]] + PriceGroup(l[1..], p)
    else PriceGroup(l[1..], p)
  }

  lemma {:induction false} PriceGroupConcat(a: seq<Order>, b: seq<Order>, p: int)
    ensures PriceGroup(a + b, p) == PriceGroup(a, p) + PriceGroup(b, p)
  {
    if a != [] {
      assert (a + b)[0] == a[0];
      assert (a + b)[1..] == a[1..] + b;
      PriceGroupConcat(a[1..], b, p);
      if a[0].price == p {
        assert PriceGroup(a + b, p) == [a[0]] + PriceGroup(a[1..] + b, p);
      } else {
        assert PriceGroup(a + b, p) == PriceGroup(a[1..] + b, p);
      }
    } else {
      assert a + b == b;
    }
  }

  /**
   * Time priority of the listing: the orders listed at price `p` are exactly
   * the level keyed `p`, in its arrival order (none when there is no such level).
   */
  lemma {:induction false} PriceGroupIsLevel(s: Side, levels: seq<Level>, p: int)
    requires Sorted(s, levels) && AllPricesMatch(levels)
    ensures PriceGroup(Flatten(levels), p) == GetOrDefault(levels, p)
  {
    if levels != [] {
      var head := levels[0].orders;
      assert PricesMatch(levels[0]);
      assert AllPricesMatch(levels[1..]) by {
        forall lv | lv in levels[1..] ensures PricesMatch(lv) { assert lv in levels; }
      }
      assert Sorted(s, levels[1..]);
      PriceGroupConcat(head, Flatten(levels[1..]), p);
      PriceGroupIsLevel(s, levels[1..], p);
      if levels[0].price == p {
        assert PriceGroup(head, p) == head by { PriceGroupAll(head, p); }
        assert Find(levels[1..], p) == None by {
          forall i | 0 <= i < |levels[1..]| ensures levels[1..][i].price != p {
            assert Before(s, levels[0].price, levels[i + 1].price);
          }
        }
      } else {
        assert PriceGroup(head, p) == [] by { PriceGroupNone(head, p); }
      }
    }
  }

  lemma {:induction false} PriceGroupAll(os: seq<Order>, p: int)
    requires forall x :: x in os ==> x.price == p
    ensures PriceGroup(os, p) == os
  {
    if os != [] {
      assert os[0] in os;
      assert forall x :: x in os[1..] ==> x in os;
      PriceGroupAll(os[1..], p);
    }
  }

  lemma {:induction false} PriceGroupNone(os: seq<Order>, p: int)
    requires forall x :: x in os ==> x.price != p
    ensures PriceGroup(os, p) == []
  {
    if os != [] {
      assert os[0] in os;
      assert forall x :: x in os[1..] ==> x in os;
      PriceGroupNone(os[1..], p);
    }
  }

  /** `reduce(0L, Long::sum)` over the sizes of a level's orders. */
  function SumSizes(os: seq<Order>): int
  {
    if os == [] then 0 else os[0].size + SumSizes(os[1..])
  }

  /**
   * `getPriceByLevel` on one side: absent below rank 1 or beyond the number of
   * price keys (emptied levels included), otherwise the key at that rank.
   */
  function PriceAt(levels: seq<Level>, level: int): (r: Option<int>)
    ensures r.None? <==> level < 1 || level > |levels|
    ensures r.Some? ==> Find(levels, r.value).Some?
  {
    if level < 1 || level > |levels| then None
    else Some(levels[level - 1].price)
  }

  /**
   * `getSizeByLevel` on one side: absent exactly when the price is, otherwise
   * the total size of the level looked up by that price.
   */
  function SizeAt(levels: seq<Level>, level: int): (r: Option<int>)
    ensures r.None? <==> PriceAt(levels, level).None?
  {
    match PriceAt(levels, level)
    case None => None
    case Some(p) => Some(SumSizes(Find(levels, p).value))
  }

  /** The number of level keys that rank strictly ahead of `p`. */
  function CountBefore(s: Side, levels: seq<Level>, p: int): nat
  {
    if levels == [] then 0
    else (if Before(s, levels[0].price, p) then 1 else 0) + CountBefore(s, levels[1..], p)
  }

  lemma {:induction false} CountBeforeNone(s: Side, levels: seq<Level>, p: int)
    requires forall i :: 0 <= i < |levels| ==> !Before(s, levels[i].price, p)
    ensures CountBefore(s, levels, p) == 0
  {
    if levels != [] {
      assert forall i :: 0 <= i < |levels[1..]| ==> levels[1..][i] == levels[i + 1];
      CountBeforeNone(s, levels[1..], p);
    }
  }

  /** In a sorted side, the key at position `k` has exactly `k` keys ahead of it. */
  lemma {:induction false} CountBeforeAt(s: Side, levels: seq<Level>, k: nat)
    requires Sorted(s, levels) && k < |levels|
    ensures CountBefore(s, levels, levels[k].price) == k
  {
    assert Sorted(s, levels[1..]);
    if k == 0 {
      forall i | 0 <= i < |levels[1..]| ensures !Before(s, levels[1..][i].price, levels[0].price) {
        assert Before(s, levels[0].price, levels[i + 1].price);
      }
      CountBeforeNone(s, levels[1..], levels[0].price);
    } else {
      assert Before(s, levels[0].price, levels[k].price);
      assert levels[1..][k - 1] == levels[k];
      CountBeforeAt(s, levels[1..], k - 1);
    }
  }

  /**
   * `getPriceByLevel` returns the `level`-th best price: a key of the side with
   * exactly `level - 1` keys ranking ahead of it.
   */
  lemma PriceAtIsRank(s: Side, levels: seq<Level>, level: int)
    requires Sorted(s, levels)
    requires PriceAt(levels, level).Some?
    ensures Find(levels, PriceAt(levels, level).value).Some?
    ensures CountBefore(s, levels, PriceAt(levels, level).value) == level - 1
  {
    CountBeforeAt(s, levels, level - 1);
  }

  /**
   * `getSizeByLevel` is the total size of every listed order that has the
   * price found at that rank.
   */
  lemma SizeAtIsGroupTotal(s: Side, levels: seq<Level>, level: int)
    requires Sorted(s, levels) && AllPricesMatch(levels)
    requires PriceAt(levels, level).Some?
    ensures SizeAt(levels, level) == Some(SumSizes(PriceGroup(Flatten(levels), PriceAt(levels, level).value)))
  {
    var p := PriceAt(levels, level).value;
    FindAt(s, levels, level - 1);
    PriceGroupIsLevel(s, levels, p);
  }

  /** Updating a level in place never removes its key: every rank keeps its price, emptied levels included. */
  lemma UpdateKeepsRanks(levels: seq<Level>, p: int, os: seq<Order>, level: int)
    ensures PriceAt(UpdateLevel(levels, p, os), level) == PriceAt(levels, level)
  {
  }

  /** An emptied level keeps its rank and reports total size 0. */
  lemma EmptiedLevelSizeZero(s: Side, levels: seq<Level>, k: nat)
    requires Sorted(s, levels) && k < |levels|
    ensures SizeAt(UpdateLevel(levels, levels[k].price, []), k + 1) == Some(0)
  {
    var r := UpdateLevel(levels, levels[k].price, []);
    FindAt(s, levels, k);
    assert Sorted(s, r);
    FindAt(s, r, k);
  }
}
