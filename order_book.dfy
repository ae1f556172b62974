/**
 * The limit order book: two sides, each with a price-ordered map of levels
 * and an id index, updated together by `addOrder`, `removeOrderById` and
 * `findByIdAndModifySize`, and read by the listing and level queries. Every
 * operation is taken to run atomically; the source's locks play no part here.
 */
module OrderBooks {
  import opened Wrappers
  import opened Orders
  import opened PriceLevels
  import opened SideBooks

  /** The one reported error: a side character other than 'B' or 'O'. */
  datatype Error = InvalidSide(side: char)

  /** Which side a character names, or the error the dispatchers throw. */
  function ParseSide(c: char): (r: Result<Side, Error>)
    ensures r.Ok? <==> c == 'B' || c == 'O'
    ensures r.Ok? ==> SideChar(r.value) == c
    ensures r.Err? ==> r.error == InvalidSide(c)
  {
    if c == 'B' then Ok(Bid) else if c == 'O' then Ok(Offer) else Err(InvalidSide(c))
  }

  class OrderBook {
    /** The bid price map, best (highest) price first. */
    var bidLevels: seq<Level>
    /** The bid id index. */
    var bidIndex: map<int, Order>
    /** The offer price map, best (lowest) price first. */
    var offerLevels: seq<Level>
    /** The offer id index. */
    var offerIndex: map<int, Order>

    /** The invariant every operation keeps: each side valid. */
    ghost predicate Valid()
      reads this
    {
      SideValid(Bid, bidLevels, bidIndex) && SideValid(Offer, offerLevels, offerIndex)
    }

    /** Both sides' indexes in exact agreement (no stale level entries). */
    ghost predicate Consistent()
      reads this
    {
      SideBooks.Consistent(bidLevels, bidIndex) && SideBooks.Consistent(offerLevels, offerIndex)
    }

    /** The price map of side `s`. */
    function Levels(s: Side): seq<Level>
      reads this
    {
      match s
      case Bid => bidLevels
      case Offer => offerLevels
    }

    /** The id index of side `s`. */
    function Index(s: Side): map<int, Order>
      reads this
    {
      match s
      case Bid => bidIndex
      case Offer => offerIndex
    }

    /** The opposite side. */
    static function Other(s: Side): Side
    {
      match s
      case Bid => Offer
      case Offer => Bid
    }

    /** A new book is empty on both sides. */
    constructor ()
      ensures Valid() && Consistent()
      ensures bidLevels == [] && bidIndex == map[] && offerLevels == [] && offerIndex == map[]
    {
      bidLevels, bidIndex := [], map[];
      offerLevels, offerIndex := [], map[];
    }

    /** `getOrdersMap`: the price map a side character selects, or `InvalidSide`. */
    function OrdersMap(c: char): (r: Result<seq<Level>, Error>)
      reads this
      ensures r.Err? <==> ParseSide(c).Err?
      ensures r.Ok? ==> r.value == Levels(ParseSide(c).value)
      ensures r.Err? ==> r.error == InvalidSide(c)
    {
      if c == 'B' then Ok(bidLevels)
      else if c == 'O' then Ok(offerLevels)
      else Err(InvalidSide(c))
    }

    /** `getOrderId2OrdersMap`: the id index a side character selects, or `InvalidSide`. */
    function OrderId2OrdersMap(c: char): (r: Result<map<int, Order>, Error>)
      reads this
      ensures r.Err? <==> ParseSide(c).Err?
      ensures r.Ok? ==> r.value == Index(ParseSide(c).value)
      ensures r.Err? ==> r.error == InvalidSide(c)
    {
      if c == 'B' then Ok(bidIndex)
      else if c == 'O' then Ok(offerIndex)
      else Err(InvalidSide(c))
    }

    /** `findSideByOrderId`: the side whose id index holds `id`, bid checked first. */
    function FindSideByOrderId(id: int): (r: Option<Side>)
      reads this
      ensures r == Some(Bid) <==> id in bidIndex
      ensures r == Some(Offer) <==> id !in bidIndex && id in offerIndex
      ensures r.Some? ==> id in Index(r.value)
    {
      if id in OrderId2OrdersMap('B').value then Some(Bid)
      else if id in OrderId2OrdersMap('O').value then Some(Offer)
      else None
    }

    /**
     * `getAllOrdersByLevelTimeOrder`: every order of the side, best price
     * first, no order listed after one whose price it beats, and the orders
     * at each price exactly that level's orders in arrival order.
     */
    function AllOrdersByLevelTimeOrder(c: char): (r: Result<seq<Order>, Error>)
      requires Valid()
      reads this
      ensures r.Err? <==> ParseSide(c).Err?
      ensures r.Err? ==> r.error == InvalidSide(c)
      ensures r.Ok? ==> var s := ParseSide(c).value;
        && (forall i, j :: 0 <= i < j < |r.value| ==> !Before(s, r.value[j].price, r.value[i].price))
        && (forall p :: PriceGroup(r.value, p) == GetOrDefault(Levels(s), p))
    {
      match OrdersMap(c)
      case Err(e) => Err(e)
      case Ok(levels) =>
        var s := ParseSide(c).value;
        ValidPricesMatch(s, levels, Index(s));
        ListingSorted(s, levels);
        assert forall p :: PriceGroup(Flatten(levels), p) == GetOrDefault(levels, p) by {
          forall p ensures PriceGroup(Flatten(levels), p) == GetOrDefault(levels, p) {
            PriceGroupIsLevel(s, levels, p);
          }
        }
        Ok(Flatten(levels))
    }

    /**
     * `getPriceByLevel`: absent when `level < 1`, whatever the side character
     * (the bound check short-circuits before the side is dispatched); otherwise
     * `InvalidSide` for an unknown side, absent when `level` exceeds the number
     * of price keys (emptied levels included), and else the key with exactly
     * `level - 1` keys ranking ahead of it.
     */
    function PriceByLevel(c: char, level: int): (r: Result<Option<int>, Error>)
      requires Valid()
      reads this
      ensures level < 1 ==> r == Ok(None)
      ensures r.Err? <==> level >= 1 && ParseSide(c).Err?
      ensures r.Err? ==> r.error == InvalidSide(c)
      ensures r.Ok? && ParseSide(c).Ok? ==> var levels := Levels(ParseSide(c).value);
        (r.value.None? <==> level < 1 || level > |levels|)
      ensures r.Ok? && r.value.Some? ==> ParseSide(c).Ok? && var s := ParseSide(c).value;
        Find(Levels(s), r.value.value).Some? && CountBefore(s, Levels(s), r.value.value) == level - 1
    {
      if level < 1 then Ok(None)
      else
        match OrdersMap(c)
        case Err(e) => Err(e)
        case Ok(levels) =>
          var s := ParseSide(c).value;
          var p := PriceAt(levels, level);
          if p.Some? then PriceAtIsRank(s, levels, level); Ok(p) else Ok(p)
    }

    /**
     * `getSizeByLevel`: absent exactly when `getPriceByLevel` is (so for any
     * `level < 1`, whatever the side); `InvalidSide` exactly when that is;
     * otherwise the total size of every listed order at that price.
     */
    function SizeByLevel(c: char, level: int): (r: Result<Option<int>, Error>)
      requires Valid()
      reads this
      ensures level < 1 ==> r == Ok(None)
      ensures r.Err? <==> level >= 1 && ParseSide(c).Err?
      ensures r.Err? ==> r.error == InvalidSide(c)
      ensures r.Ok? ==> (r.value.None? <==> PriceByLevel(c, level).value.None?)
      ensures r.Ok? && r.value.Some? ==>
        r.value.value == SumSizes(PriceGroup(AllOrdersByLevelTimeOrder(c).value, PriceByLevel(c, level).value.value))
    {
      match PriceByLevel(c, level)
      case Err(e) => Err(e)
      case Ok(None) => Ok(None)
      case Ok(Some(p)) =>
        var s := ParseSide(c).value;
        var levels := OrdersMap(c).value;
        ValidPricesMatch(s, levels, Index(s));
        SizeAtIsGroupTotal(s, levels, level);
        Ok(Some(SumSizes(Find(levels, p).value)))
    }

    /** Replaces both indexes of side `s`. */
    method SetSide(s: Side, levels: seq<Level>, index: map<int, Order>)
      modifies this
      ensures Levels(s) == levels && Index(s) == index
      ensures Levels(Other(s)) == old(Levels(Other(s))) && Index(Other(s)) == old(Index(Other(s)))
    {
      match s
      case Bid => bidLevels, bidIndex := levels, index;
      case Offer => offerLevels, offerIndex := levels, index;
    }

    /**
     * `addOrder`: a null order is ignored; an order with an unknown side tag
     * is rejected before anything changes; otherwise the order is put into the
     * level at its price (created if absent: appended, or overwriting in place
     * an entry with its id) and into the side's id index.
     */
    method AddOrder(order: Option<Order>) returns (r: Outcome<Error>)
      requires Valid()
      modifies this
      ensures Valid()
      ensures order.None? ==> r == Pass && unchanged(this)
      ensures order.Some? && ParseSide(order.value.side).Err? ==>
        r == Fail(InvalidSide(order.value.side)) && unchanged(this)
      ensures order.Some? && ParseSide(order.value.side).Ok? ==> r == Pass
      ensures order.Some? && ParseSide(order.value.side).Ok? ==>
        var o, s := order.value, ParseSide(order.value.side).value;
        && Levels(s) == AddToLevels(s, old(Levels(s)), o)
        && Index(s) == old(Index(s))[o.id := o]
        && Levels(Other(s)) == old(Levels(Other(s))) && Index(Other(s)) == old(Index(Other(s)))
      ensures order.Some? && ParseSide(order.value.side).Ok? ==>
        var o, s := order.value, ParseSide(order.value.side).value;
        old(Consistent()) && (o.id !in old(Index(s)) || old(Index(s))[o.id].price == o.price) ==> Consistent()
    {
      if order.None? {
        return Pass;
      }
      var o := order.value;
      var found := OrdersMap(o.side);
      if found.Err? {
        return Fail(found.error);
      }
      var s := ParseSide(o.side).value;
      var levels := found.value;
      var index := OrderId2OrdersMap(o.side).value;
      var orders := GetOrDefault(levels, o.price);
      orders := PutEntry(orders, o);
      var levels' := PutLevel(s, levels, o.price, orders);
      var index' := index[o.id := o];
      ghost var wasConsistent := Consistent();
      AddKeepsValid(s, levels, index, o);
      if wasConsistent && (o.id !in index || index[o.id].price == o.price) {
        AddKeepsConsistent(s, levels, index, o);
      }
      SetSide(s, levels', index');
      assert Levels(s) == AddToLevels(s, levels, o) && Index(s) == index';
      r := Pass;
    }

    /**
     * `removeOrderById`: an id neither side holds changes nothing; otherwise
     * the order is deleted from the resolved side's level and id index (bid
     * resolved first). The level's key stays, even when it is left empty.
     */
    method RemoveOrderById(id: int)
      requires Valid()
      modifies this
      ensures Valid()
      ensures old(Consistent()) ==> Consistent()
      ensures old(FindSideByOrderId(id)).None? ==> unchanged(this)
      ensures old(FindSideByOrderId(id)).Some? ==>
        var s := old(FindSideByOrderId(id)).value;
        && Levels(s) == RemoveFromLevels(old(Levels(s)), old(Index(s))[id])
        && Index(s) == old(Index(s)) - {id}
        && Levels(Other(s)) == old(Levels(Other(s))) && Index(Other(s)) == old(Index(Other(s)))
      ensures old(FindSideByOrderId(id)).Some? ==>
        var s := old(FindSideByOrderId(id)).value;
        && |Levels(s)| == |old(Levels(s))|
        && (forall i :: 0 <= i < |Levels(s)| ==> Levels(s)[i].price == old(Levels(s))[i].price)
    {
      var side := FindSideByOrderId(id);
      if side.None? {
        return;
      }
      var s := side.value;
      var levels := OrdersMap(SideChar(s)).value;
      var index := OrderId2OrdersMap(SideChar(s)).value;
      if id in index {
        var o := index[id];
        assert Holds(levels, o);
        var orders := Find(levels, o.price).value;
        var levels' := UpdateLevel(levels, o.price, RemoveEntry(orders, id));
        var index' := index - {id};
        RemoveOnSide(s, levels, index, id);
        SetSide(s, levels', index');
        assert Levels(s) == RemoveFromLevels(levels, o) && Index(s) == index';
      }
    }

    /**
     * `findByIdAndModifySize`: an id neither side holds changes nothing;
     * otherwise the resolved side's entry (bid first) is replaced, in the id
     * index and at its place in its level, by an order with the same id, price
     * and side and the new size.
     */
    method FindByIdAndModifySize(id: int, newSize: int)
      requires Valid()
      modifies this
      ensures Valid()
      ensures old(Consistent()) ==> Consistent()
      ensures old(FindSideByOrderId(id)).None? ==> unchanged(this)
      ensures old(FindSideByOrderId(id)).Some? ==>
        var s := old(FindSideByOrderId(id)).value;
        var o := old(Index(s))[id];
        var u := Order(id, o.price, o.side, newSize);
        && Levels(s) == ReplaceInLevels(old(Levels(s)), u)
        && Index(s) == old(Index(s))[id := u]
        && Levels(Other(s)) == old(Levels(Other(s))) && Index(Other(s)) == old(Index(Other(s)))
    {
      var side := FindSideByOrderId(id);
      if side.None? {
        return;
      }
      var s := side.value;
      var index := OrderId2OrdersMap(SideChar(s)).value;
      var levels := OrdersMap(SideChar(s)).value;
      var o := index[id];
      var u := Order(id, o.price, o.side, newSize);
      var index' := index[id := u];
      assert Holds(levels, o);
      var orders := Find(levels, o.price).value;
      var levels' := UpdateLevel(levels, o.price, PutEntry(orders, u));
      assert u == Resized(o, newSize);
      ModifyOnSide(s, levels, index, id, newSize);
      SetSide(s, levels', index');
      assert Levels(s) == ReplaceInLevels(levels, u) && Index(s) == index';
    }
  }
}
