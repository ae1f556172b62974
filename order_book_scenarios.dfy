/**
 * The unit scenarios of the book, each a method whose postcondition is the
 * outcome the scenario checks. Prices 4.4, 4.7 and 3.8 are written in ticks
 * of 0.1 (44, 47, 38). The price maps a scenario builds are computed once, as
 * lemmas about the side-level functions, and the book methods' contracts
 * carry them over to the class.
 */
module OrderBookScenarios {
  import opened Wrappers
  import opened Orders
  import opened PriceLevels
  import opened OrderBooks

  const B1: Order := Order(1, 44, 'B', 10)
  const B2: Order := Order(2, 47, 'B', 10)
  const B3: Order := Order(3, 38, 'B', 10)
  const B4: Order := Order(4, 38, 'B', 10)
  const O1: Order := Order(1, 44, 'O', 10)
  const O2: Order := Order(2, 47, 'O', 10)
  const O3: Order := Order(3, 38, 'O', 10)
  const O4: Order := Order(4, 38, 'O', 10)

  /** The bid map after bids 1..4: 4.7, then 4.4, then 3.8 holding 3 before 4. */
  const BidFour: seq<Level> := [Level(47, [B2]), Level(44, [B1]), Level(38, [B3, B4])]
  /** The offer map after offers 1..4: 3.8 holding 3 before 4, then 4.4, then 4.7. */
  const OfferFour: seq<Level> := [Level(38, [O3, O4]), Level(44, [O1]), Level(47, [O2])]
  /** The bid map after bids 2..4 only. */
  const BidThree: seq<Level> := [Level(47, [B2]), Level(38, [B3, B4])]

  lemma FirstBid()
    ensures AddToLevels(Bid, [], B1) == [Level(44, [B1])]
  {
    assert GetOrDefault([], B1.price) == [];
    assert PutEntry([], B1) == [B1];
  }

  lemma SecondBid()
    ensures AddToLevels(Bid, [Level(44, [B1])], B2) == [Level(47, [B2]), Level(44, [B1])]
  {
    var l := [Level(44, [B1])];
    assert l[1..] == [];
    assert Find(l, 47) == None;
    assert PutEntry([], B2) == [B2];
  }

  lemma ThirdBid()
    ensures AddToLevels(Bid, [Level(47, [B2]), Level(44, [B1])], B3)
      == [Level(47, [B2]), Level(44, [B1]), Level(38, [B3])]
  {
    var l := [Level(47, [B2]), Level(44, [B1])];
    assert l[1..] == [Level(44, [B1])] && l[1..][1..] == [];
    assert Find(l, 38) == None;
    assert PutEntry([], B3) == [B3];
    assert PutLevel(Bid, l[1..][1..], 38, [B3]) == [Level(38, [B3])];
    assert PutLevel(Bid, l[1..], 38, [B3]) == [Level(44, [B1]), Level(38, [B3])];
  }

  lemma FourthBid()
    ensures AddToLevels(Bid, [Level(47, [B2]), Level(44, [B1]), Level(38, [B3])], B4) == BidFour
  {
    var l := [Level(47, [B2]), Level(44, [B1]), Level(38, [B3])];
    assert l[1..] == [Level(44, [B1]), Level(38, [B3])];
    assert l[1..][1..] == [Level(38, [B3])];
    assert Find(l[1..][1..], 38) == Some([B3]);
    assert Find(l[1..], 38) == Some([B3]);
    assert Find(l, 38) == Some([B3]);
    PutFreshEntry([B3], B4);
    assert PutEntry([B3], B4) == [B3, B4];
    assert PutLevel(Bid, l[1..][1..], 38, [B3, B4]) == [Level(38, [B3, B4])];
    assert PutLevel(Bid, l[1..], 38, [B3, B4]) == [Level(44, [B1]), Level(38, [B3, B4])];
  }

  lemma FirstOffer()
    ensures AddToLevels(Offer, [], O1) == [Level(44, [O1])]
  {
    assert PutEntry([], O1) == [O1];
  }

  lemma SecondOffer()
    ensures AddToLevels(Offer, [Level(44, [O1])], O2) == [Level(44, [O1]), Level(47, [O2])]
  {
    var l := [Level(44, [O1])];
    assert l[1..] == [];
    assert Find(l, 47) == None;
    assert PutEntry([], O2) == [O2];
    assert PutLevel(Offer, l[1..], 47, [O2]) == [Level(47, [O2])];
  }

  lemma ThirdOffer()
    ensures AddToLevels(Offer, [Level(44, [O1]), Level(47, [O2])], O3)
      == [Level(38, [O3]), Level(44, [O1]), Level(47, [O2])]
  {
    var l := [Level(44, [O1]), Level(47, [O2])];
    assert l[1..] == [Level(47, [O2])] && l[1..][1..] == [];
    assert Find(l, 38) == None;
    assert PutEntry([], O3) == [O3];
  }

  lemma FourthOffer()
    ensures AddToLevels(Offer, [Level(38, [O3]), Level(44, [O1]), Level(47, [O2])], O4) == OfferFour
  {
    var l := [Level(38, [O3]), Level(44, [O1]), Level(47, [O2])];
    assert l[1..] == [Level(44, [O1]), Level(47, [O2])];
    assert Find(l, 38) == Some([O3]);
    PutFreshEntry([O3], O4);
    assert PutEntry([O3], O4) == [O3, O4];
  }

  lemma SecondOfMixed()
    ensures AddToLevels(Bid, [], B2) == [Level(47, [B2])]
  {
    assert PutEntry([], B2) == [B2];
  }

  lemma ThirdOfMixed()
    ensures AddToLevels(Bid, [Level(47, [B2])], B3) == [Level(47, [B2]), Level(38, [B3])]
  {
    var l := [Level(47, [B2])];
    assert l[1..] == [];
    assert Find(l, 38) == None;
    assert PutEntry([], B3) == [B3];
    assert PutLevel(Bid, l[1..], 38, [B3]) == [Level(38, [B3])];
  }

  lemma FourthOfMixed()
    ensures AddToLevels(Bid, [Level(47, [B2]), Level(38, [B3])], B4) == BidThree
  {
    var l := [Level(47, [B2]), Level(38, [B3])];
    assert l[1..] == [Level(38, [B3])];
    assert Find(l[1..], 38) == Some([B3]);
    assert Find(l, 38) == Some([B3]);
    PutFreshEntry([B3], B4);
    assert PutEntry([B3], B4) == [B3, B4];
    assert PutLevel(Bid, l[1..], 38, [B3, B4]) == [Level(38, [B3, B4])];
  }

  lemma Listings()
    ensures Flatten(BidFour) == [B2, B1, B3, B4]
    ensures Flatten(OfferFour) == [O3, O4, O1, O2]
    ensures Flatten(BidThree) == [B2, B3, B4]
    ensures Flatten([Level(44, [O1])]) == [O1]
  {
    assert BidFour[1..] == [Level(44, [B1]), Level(38, [B3, B4])];
    assert BidFour[1..][1..] == [Level(38, [B3, B4])];
    assert Flatten(BidFour[1..][1..]) == [B3, B4];
    assert Flatten(BidFour[1..]) == [B1, B3, B4];
    assert OfferFour[1..] == [Level(44, [O1]), Level(47, [O2])];
    assert OfferFour[1..][1..] == [Level(47, [O2])];
    assert Flatten(OfferFour[1..][1..]) == [O2];
    assert Flatten(OfferFour[1..]) == [O1, O2];
    assert BidThree[1..] == [Level(38, [B3, B4])];
    assert Flatten(BidThree[1..]) == [B3, B4];
  }

  lemma OfferRemoval()
    ensures RemoveFromLevels(OfferFour, O4) == [Level(38, [O3]), Level(44, [O1]), Level(47, [O2])]
    ensures Flatten([Level(38, [O3]), Level(44, [O1]), Level(47, [O2])]) == [O3, O1, O2]
  {
    assert OfferFour[1..] == [Level(44, [O1]), Level(47, [O2])];
    assert Find(OfferFour, 38) == Some([O3, O4]);
    assert [O3, O4][1..] == [O4];
    assert IdPos([O3, O4], 4) == 1;
    assert [O3, O4][..1] + [O3, O4][2..] == [O3];
    assert RemoveEntry([O3, O4], 4) == [O3];
    var r := [Level(38, [O3]), Level(44, [O1]), Level(47, [O2])];
    assert r[1..] == [Level(44, [O1]), Level(47, [O2])];
    assert r[1..][1..] == [Level(47, [O2])];
    assert Flatten(r[1..][1..]) == [O2];
    assert Flatten(r[1..]) == [O1, O2];
  }

  lemma BidRemoval()
    ensures RemoveFromLevels(BidThree, B4) == [Level(47, [B2]), Level(38, [B3])]
    ensures Flatten([Level(47, [B2]), Level(38, [B3])]) == [B2, B3]
  {
    assert BidThree[1..] == [Level(38, [B3, B4])];
    assert Find(BidThree[1..], 38) == Some([B3, B4]);
    assert Find(BidThree, 38) == Some([B3, B4]);
    assert [B3, B4][1..] == [B4];
    assert IdPos([B3, B4], 4) == 1;
    assert [B3, B4][..1] + [B3, B4][2..] == [B3];
    assert RemoveEntry([B3, B4], 4) == [B3];
    assert UpdateLevel(BidThree[1..], 38, [B3]) == [Level(38, [B3])];
    var r' := [Level(47, [B2]), Level(38, [B3])];
    assert r'[1..] == [Level(38, [B3])];
    assert Flatten(r'[1..]) == [B3];
  }

  /** Resizing order 3 to 15 rewrites its entry in place at 3.8. */
  lemma Resizing()
    ensures ReplaceInLevels(BidFour, Order(3, 38, 'B', 15))
      == [Level(47, [B2]), Level(44, [B1]), Level(38, [Order(3, 38, 'B', 15), B4])]
  {
    var u := Order(3, 38, 'B', 15);
    assert BidFour[1..] == [Level(44, [B1]), Level(38, [B3, B4])];
    assert BidFour[1..][1..] == [Level(38, [B3, B4])];
    assert Find(BidFour[1..][1..], 38) == Some([B3, B4]);
    assert Find(BidFour[1..], 38) == Some([B3, B4]);
    assert Find(BidFour, 38) == Some([B3, B4]);
    assert IdPos([B3, B4], 3) == 0;
    assert PutEntry([B3, B4], u) == [u, B4];
    assert UpdateLevel(BidFour[1..][1..], 38, [u, B4]) == [Level(38, [u, B4])];
    assert UpdateLevel(BidFour[1..], 38, [u, B4]) == [Level(44, [B1]), Level(38, [u, B4])];
  }

  lemma ResizedListing()
    ensures Flatten([Level(47, [B2]), Level(44, [B1]), Level(38, [Order(3, 38, 'B', 15), B4])])
      == [B2, B1, Order(3, 38, 'B', 15), B4]
  {
    var u := Order(3, 38, 'B', 15);
    var r := [Level(47, [B2]), Level(44, [B1]), Level(38, [u, B4])];
    assert r[1..] == [Level(44, [B1]), Level(38, [u, B4])];
    assert r[1..][1..] == [Level(38, [u, B4])];
    assert Flatten(r[1..][1..]) == [u, B4];
    assert Flatten(r[1..]) == [B1, u, B4];
  }

  lemma Ranks()
    ensures PriceAt(BidFour, 1) == Some(47) && PriceAt(BidFour, 2) == Some(44)
    ensures PriceAt(BidFour, 3) == Some(38) && PriceAt(BidFour, 4) == None
    ensures SizeAt(OfferFour, 1) == Some(20) && SizeAt(OfferFour, 2) == Some(10)
  {
    assert OfferFour[1..] == [Level(44, [O1]), Level(47, [O2])];
    assert Find(OfferFour, 38) == Some([O3, O4]);
    assert Find(OfferFour[1..], 44) == Some([O1]);
    assert Find(OfferFour, 44) == Some([O1]);
    assert [O3, O4][1..] == [O4];
    assert SumSizes([O4]) == 10;
    assert SumSizes([O3, O4]) == 20;
    assert SumSizes([O1]) == 10;
  }

  /** A book holding bids 1 and 2 and no offers. */
  method TwoBidBook() returns (book: OrderBook)
    ensures fresh(book) && book.Valid()
    ensures book.bidLevels == [Level(47, [B2]), Level(44, [B1])] && book.bidIndex == map[1 := B1, 2 := B2]
    ensures book.offerLevels == [] && book.offerIndex == map[]
  {
    book := new OrderBook();
    assert ParseSide('B') == Ok(Bid);
    FirstBid();
    SecondBid();
    var r := book.AddOrder(Some(B1));
    assert book.bidLevels == [Level(44, [B1])] && book.bidIndex == map[1 := B1];
    r := book.AddOrder(Some(B2));
  }

  /** A book holding bids 1..4 and no offers. */
  method BidBook() returns (book: OrderBook)
    ensures fresh(book) && book.Valid()
    ensures book.bidLevels == BidFour && book.bidIndex == map[1 := B1, 2 := B2, 3 := B3, 4 := B4]
    ensures book.offerLevels == [] && book.offerIndex == map[]
  {
    book := TwoBidBook();
    assert ParseSide('B') == Ok(Bid);
    ThirdBid();
    FourthBid();
    var r := book.AddOrder(Some(B3));
    assert book.bidLevels == [Level(47, [B2]), Level(44, [B1]), Level(38, [B3])];
    assert book.bidIndex == map[1 := B1, 2 := B2, 3 := B3];
    r := book.AddOrder(Some(B4));
  }

  /** A book holding offers 1..4 and no bids. */
  method OfferBook() returns (book: OrderBook)
    ensures fresh(book) && book.Valid()
    ensures book.offerLevels == OfferFour && book.offerIndex == map[1 := O1, 2 := O2, 3 := O3, 4 := O4]
    ensures book.bidLevels == [] && book.bidIndex == map[]
  {
    book := new OrderBook();
    assert ParseSide('O') == Ok(Offer);
    FirstOffer();
    SecondOffer();
    ThirdOffer();
    FourthOffer();
    var r := book.AddOrder(Some(O1));
    assert book.offerLevels == [Level(44, [O1])] && book.offerIndex == map[1 := O1];
    r := book.AddOrder(Some(O2));
    assert book.offerLevels == [Level(44, [O1]), Level(47, [O2])];
    assert book.offerIndex == map[1 := O1, 2 := O2];
    r := book.AddOrder(Some(O3));
    assert book.offerLevels == [Level(38, [O3]), Level(44, [O1]), Level(47, [O2])];
    assert book.offerIndex == map[1 := O1, 2 := O2, 3 := O3];
    r := book.AddOrder(Some(O4));
  }

  /** A book holding offer 1 and bids 2..4. */
  method MixedBook() returns (book: OrderBook)
    ensures fresh(book) && book.Valid()
    ensures book.offerLevels == [Level(44, [O1])] && book.offerIndex == map[1 := O1]
    ensures book.bidLevels == BidThree && book.bidIndex == map[2 := B2, 3 := B3, 4 := B4]
  {
    book := new OrderBook();
    assert ParseSide('O') == Ok(Offer) && ParseSide('B') == Ok(Bid);
    FirstOffer();
    SecondOfMixed();
    ThirdOfMixed();
    FourthOfMixed();
    var r := book.AddOrder(Some(O1));
    r := book.AddOrder(Some(B2));
    r := book.AddOrder(Some(B3));
    r := book.AddOrder(Some(B4));
  }

  /** Bids list highest price first, arrival order within a price. */
  method BidsHighestFirst() returns (listing: Result<seq<Order>, Error>)
    ensures listing == Ok([B2, B1, B3, B4])
  {
    var book := BidBook();
    Listings();
    listing := book.AllOrdersByLevelTimeOrder('B');
  }

  /** Offers list lowest price first, arrival order within a price. */
  method OffersLowestFirst() returns (listing: Result<seq<Order>, Error>)
    ensures listing == Ok([O3, O4, O1, O2])
  {
    var book := OfferBook();
    Listings();
    listing := book.AllOrdersByLevelTimeOrder('O');
  }

  /** Adding a null order changes nothing: the offer side stays empty. */
  method NullOrderIgnored() returns (r: Outcome<Error>, listing: Result<seq<Order>, Error>)
    ensures r == Pass && listing == Ok([])
  {
    var book := new OrderBook();
    r := book.AddOrder(None);
    listing := book.AllOrdersByLevelTimeOrder('O');
  }

  /** Removing offer 4 leaves offers 3, 1, 2 in that order. */
  method RemoveOffer() returns (listing: Result<seq<Order>, Error>)
    ensures listing == Ok([O3, O1, O2])
  {
    var book := OfferBook();
    OfferRemoval();
    book.RemoveOrderById(4);
    listing := book.AllOrdersByLevelTimeOrder('O');
  }

  /** Removing bid 4 leaves bids 2, 3 and the single offer. */
  method RemoveBid() returns (bids: Result<seq<Order>, Error>, offers: Result<seq<Order>, Error>)
    ensures bids == Ok([B2, B3]) && offers == Ok([O1])
  {
    var book := MixedBook();
    BidRemoval();
    Listings();
    book.RemoveOrderById(4);
    bids := book.AllOrdersByLevelTimeOrder('B');
    offers := book.AllOrdersByLevelTimeOrder('O');
  }

  /** Removing an id no side holds leaves both listings as they were. */
  method RemoveUnknownId() returns (bids: Result<seq<Order>, Error>, offers: Result<seq<Order>, Error>)
    ensures bids == Ok([B2, B3, B4]) && offers == Ok([O1])
  {
    var book := MixedBook();
    Listings();
    book.RemoveOrderById(100);
    bids := book.AllOrdersByLevelTimeOrder('B');
    offers := book.AllOrdersByLevelTimeOrder('O');
  }

  /** The bid book after resizing bid 3 to 15. */
  method ResizedBidBook() returns (book: OrderBook)
    ensures fresh(book) && book.Valid()
    ensures book.bidLevels == [Level(47, [B2]), Level(44, [B1]), Level(38, [Order(3, 38, 'B', 15), B4])]
  {
    book := BidBook();
    Resizing();
    assert book.FindSideByOrderId(3) == Some(Bid);
    assert book.Levels(Bid) == BidFour && book.Index(Bid)[3] == B3;
    book.FindByIdAndModifySize(3, 15);
  }

  /** Resizing bid 3 to 15 lists the resized order in its place and no longer the old one. */
  method ModifySize() returns (bids: Result<seq<Order>, Error>)
    ensures bids == Ok([B2, B1, Order(3, 38, 'B', 15), B4])
    ensures bids.Ok? && Order(3, 38, 'B', 15) in bids.value && B3 !in bids.value
  {
    var book := ResizedBidBook();
    ResizedListing();
    bids := book.AllOrdersByLevelTimeOrder('B');
  }

  /** Bid price ranks 1, 2, 3 are 4.7, 4.4, 3.8; rank 4 is absent. */
  method PricesByRank() returns (p1: Result<Option<int>, Error>, p2: Result<Option<int>, Error>,
                                 p3: Result<Option<int>, Error>, p4: Result<Option<int>, Error>)
    ensures p1 == Ok(Some(47)) && p2 == Ok(Some(44)) && p3 == Ok(Some(38)) && p4 == Ok(None)
  {
    var book := BidBook();
    Ranks();
    p1 := book.PriceByLevel('B', 1);
    p2 := book.PriceByLevel('B', 2);
    p3 := book.PriceByLevel('B', 3);
    p4 := book.PriceByLevel('B', 4);
  }

  /** Offer rank 1 (3.8) totals 20, rank 2 (4.4) totals 10. */
  method SizesByRank() returns (s1: Result<Option<int>, Error>, s2: Result<Option<int>, Error>)
    ensures s1 == Ok(Some(20)) && s2 == Ok(Some(10))
  {
    var book := OfferBook();
    Ranks();
    s1 := book.SizeByLevel('O', 1);
    s2 := book.SizeByLevel('O', 2);
  }

  /** On an empty book the size at rank 1 is absent. */
  method EmptyBookSize() returns (s1: Result<Option<int>, Error>)
    ensures s1 == Ok(None)
  {
    var book := new OrderBook();
    s1 := book.SizeByLevel('O', 1);
  }

  /** A side tag other than 'B' or 'O' is rejected. */
  method UnknownSideRejected() returns (listing: Result<seq<Order>, Error>)
    ensures listing == Err(InvalidSide('L'))
  {
    var book := BidBook();
    listing := book.AllOrdersByLevelTimeOrder('L');
  }

  /** Below rank 1 the answer is absent even for an unknown side tag: the rank check comes first. */
  method RankZeroOfUnknownSide() returns (p0: Result<Option<int>, Error>, s0: Result<Option<int>, Error>,
                                         p1: Result<Option<int>, Error>)
    ensures p0 == Ok(None) && s0 == Ok(None)
    ensures p1 == Err(InvalidSide('L'))
  {
    var book := new OrderBook();
    p0 := book.PriceByLevel('L', 0);
    s0 := book.SizeByLevel('L', 0);
    p1 := book.PriceByLevel('L', 1);
  }

  /** Two orders built from the same fields are equal and hash alike. */
  method EqualOrdersHashAlike() returns (same: bool, sameHash: bool)
    ensures same && sameHash
  {
    var a, b := Order(1, 44, 'B', 10), Order(1, 44, 'B', 10);
    same := Equals(a, OrderObject(b));
    sameHash := HashCode(a) == HashCode(b);
  }
}
