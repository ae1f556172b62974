# Limit order book

A model of a limit order book. The book keeps customer orders in price-time
priority. The best bid is the highest price and the best offer the lowest.
Both are at level 1, and the other price levels are stacked behind them.

Each side ('B' for bid, 'O' for offer) keeps two indexes that the mutators
update together:

- a **price map**: a sequence of `Level(price, orders)`, strictly sorted by the
  side's comparator (bids descending, offers ascending). Each level's orders are
  in arrival order, with distinct ids.
- an **id index**: a `map<int, Order>`.

The model has five modules:

- `Orders` (`orders.dfy`): the immutable `Order` value, its `equals` and its
  `hashCode`. `equals` is given the Java `Object` it compares against: null, an
  order, or an object of another class.
- `PriceLevels` (`price_levels.dfy`): each update and query of the nested maps
  as a function over values. Lemmas state what each operation does to the
  listing (price-time order, where an order is inserted, removed or replaced),
  to the levels and to the ranks.
- `SideBooks` (`side_books.dfy`): two invariants of one side.
  - `SideValid` holds on every path: the keys are sorted, every level is well
    formed, and every id-index entry is held by the level at its price.
  - `Consistent` is exact agreement: no level holds an order that the id index
    does not map its id to.
  - Lemmas show which operation keeps which invariant.
- `OrderBooks` (`order_book.dfy`): the class `OrderBook`.
  - Its four fields are updated in place by `AddOrder`, `RemoveOrderById` and
    `FindByIdAndModifySize`.
  - Each method's postcondition gives the new state of the side it touches,
    says the other side is unchanged, and says `Valid()` is kept.
  - The queries are functions over the fields.
  - An unknown side character is the error `InvalidSide(c)`. It stands for the
    `IllegalArgumentException` of the side dispatchers, and arises wherever
    the code reaches a dispatcher. The rank queries check `level < 1` first
    and answer absent for it, whatever the side character.
- `OrderBookScenarios` (`order_book_scenarios.dfy`): the repository's unit
  scenarios. Each is a method whose postcondition is the outcome the scenario
  asserts.

Prices are integral ticks of 0.1: 4.4 is written 44. The code only compares
prices and uses them as keys, so any totally ordered key type behaves the same.

The model follows the code in three places where an idealised book would
behave differently:

- **Emptied levels are kept.** `removeOrderById` deletes an order from its
  level but never deletes the key. The emptied level keeps its rank in
  `getPriceByLevel`, and `getSizeByLevel` reports 0 for it. An idealised book
  would discard an emptied level and rank only non-empty levels; the code
  does neither, and the model follows the code.
- **Re-adding an id at the same price** overwrites the entry where it stands.
- **Re-adding an id at a new price** on the same side leaves the old order in
  its old level, while the id index moves on. `SideValid` still holds after
  this; `Consistent` does not (`AddAtNewPriceLeavesStaleEntry`). `AddOrder`
  keeps `Consistent` exactly when the id is new on its side or already rests at
  the same price.

## Model

Paths are relative to the repository root. `OrderBook.java` and `Order.java` are
both under `src/main/java/uk/co/emiratesfinancial/test/orderbook/`;
`OrderBookTest.java` is under `src/test/java/uk/co/emiratesfinancial/test/orderbook/`.

| member | source | states |
|---|---|---|
| Orders.ConstructorStoresFields | src/main/java/uk/co/emiratesfinancial/test/orderbook/Order.java:11-37 | the constructor stores id, price, side and size unchanged, and the getters return them |
| Orders.Equals | src/main/java/uk/co/emiratesfinancial/test/orderbook/Order.java:40-46 | `equals` is true exactly when the other object is an order with the same four fields |
| Orders.EqualsReflexive | src/main/java/uk/co/emiratesfinancial/test/orderbook/Order.java:42 | every order equals itself |
| Orders.EqualsRejectsOtherObjects | src/main/java/uk/co/emiratesfinancial/test/orderbook/Order.java:43 | comparing with null, or with an object of another class, is false |
| Orders.EqualsSymmetric | src/main/java/uk/co/emiratesfinancial/test/orderbook/Order.java:45 | `a.equals(b)` and `b.equals(a)` agree |
| Orders.SizeDistinguishes | src/main/java/uk/co/emiratesfinancial/test/orderbook/Order.java:45 | an order that differs only in size is not equal |
| Orders.HashCode | src/main/java/uk/co/emiratesfinancial/test/orderbook/Order.java:49-52 | a hash over the four fields; its property, agreement with `equals`, is `Orders.HashConsistentWithEquals` |
| Orders.HashConsistentWithEquals | src/main/java/uk/co/emiratesfinancial/test/orderbook/Order.java:49-52 | equal orders have equal hash codes |
| PriceLevels.Find | src/main/java/uk/co/emiratesfinancial/test/orderbook/OrderBook.java:44 | looking up a price finds a level exactly when some level has that key; a found level is one of the side's levels |
| PriceLevels.GetOrDefault | src/main/java/uk/co/emiratesfinancial/test/orderbook/OrderBook.java:44 | the level at a price, or an empty level when there is none; its properties are those of `PriceLevels.Find` |
| PriceLevels.FindAt | src/main/java/uk/co/emiratesfinancial/test/orderbook/OrderBook.java:22-23 | in a sorted price map, looking up the key at position k returns the level at position k |
| PriceLevels.PutEntry | src/main/java/uk/co/emiratesfinancial/test/orderbook/OrderBook.java:46 | `LinkedHashMap.put` on a level; stated by `PriceLevels.PutFreshEntry` (a new id is appended), `PriceLevels.PutEntryMembers` (membership) and `PriceLevels.ReplaceListing` (an existing id is overwritten in place) |
| PriceLevels.PutFreshEntry | src/main/java/uk/co/emiratesfinancial/test/orderbook/OrderBook.java:46 | `put` of an id the level lacks appends the order after all of the level's orders |
| PriceLevels.PutEntryMembers | src/main/java/uk/co/emiratesfinancial/test/orderbook/OrderBook.java:46 | after `put`, the ids are still distinct; the level holds the new order, and otherwise exactly its old orders with other ids |
| PriceLevels.RemoveEntry | src/main/java/uk/co/emiratesfinancial/test/orderbook/OrderBook.java:78 | `LinkedHashMap.remove` on a level; stated by `PriceLevels.RemoveEntryMembers` and, for order, `PriceLevels.RemoveListing` |
| PriceLevels.RemoveEntryDistinct | src/main/java/uk/co/emiratesfinancial/test/orderbook/OrderBook.java:78 | `remove` on a level keeps its ids distinct |
| PriceLevels.RemoveEntryMembers | src/main/java/uk/co/emiratesfinancial/test/orderbook/OrderBook.java:78 | after `remove(id)`, the level holds exactly its orders with other ids |
| PriceLevels.PutLevel | src/main/java/uk/co/emiratesfinancial/test/orderbook/OrderBook.java:48 | `put(price, orders)` makes the key map to the orders; every other key maps to what it did before; no level appears that was not there or put |
| PriceLevels.PutLevelSorted | src/main/java/uk/co/emiratesfinancial/test/orderbook/OrderBook.java:48 | `put` into a sorted price map leaves it sorted by the side's comparator |
| PriceLevels.PutExistingLevel | src/main/java/uk/co/emiratesfinancial/test/orderbook/OrderBook.java:48 | putting a key the map already holds replaces that level in place |
| PriceLevels.UpdateLevel | src/main/java/uk/co/emiratesfinancial/test/orderbook/OrderBook.java:78 | changing the level found by `get` keeps every key at its position and changes only that key's orders |
| PriceLevels.AddToLevels | src/main/java/uk/co/emiratesfinancial/test/orderbook/OrderBook.java:44-48 | the price-map half of `addOrder`; stated by `PriceLevels.AddAppendsToLevel`, `PriceLevels.AddListing`, `PriceLevels.ReAddReplacesInPlace` and `SideBooks.AddKeepsValid` |
| PriceLevels.AddAppendsToLevel | src/main/java/uk/co/emiratesfinancial/test/orderbook/OrderBook.java:44-48 | adding an id its level lacks puts the order at the end of the level at its price (a new level if absent), and leaves every other price as it was |
| PriceLevels.AddListing | src/main/java/uk/co/emiratesfinancial/test/orderbook/OrderBook.java:43-51 | adding an id its level lacks inserts the order into the listing after every order of equal or better price and before every worse one; the rest of the listing keeps its order |
| PriceLevels.ReAddReplacesInPlace | src/main/java/uk/co/emiratesfinancial/test/orderbook/OrderBook.java:44-48 | re-adding an id held at the same price is the replacement update, and changes the listing in exactly that one position |
| PriceLevels.Flatten | src/main/java/uk/co/emiratesfinancial/test/orderbook/OrderBook.java:58-61 | the levels streamed in key order, each in arrival order; stated by `PriceLevels.FlattenMember`, `PriceLevels.ListingSorted` and `PriceLevels.PriceGroupIsLevel` |
| PriceLevels.FlattenMember | src/main/java/uk/co/emiratesfinancial/test/orderbook/OrderBook.java:58-61 | an order is listed exactly when some level holds it |
| PriceLevels.ListingSorted | src/main/java/uk/co/emiratesfinancial/test/orderbook/OrderBook.java:56-61 | no listed order comes after an order whose price it beats (bids highest first, offers lowest first) |
| PriceLevels.PriceGroup | src/main/java/uk/co/emiratesfinancial/test/orderbook/OrderBook.java:60 | the orders of a listing at one price are exactly the listed orders with that price |
| PriceLevels.PriceGroupIsLevel | src/main/java/uk/co/emiratesfinancial/test/orderbook/OrderBook.java:56-61 | the listed orders at a price are that level's orders in arrival order, or none without such a level |
| PriceLevels.RemoveFromLevels | src/main/java/uk/co/emiratesfinancial/test/orderbook/OrderBook.java:78 | the price-map half of `removeOrderById`; stated by `PriceLevels.RemoveListing`, `PriceLevels.UpdateKeepsRanks` and `SideBooks.RemoveKeepsValid` |
| PriceLevels.RemoveListing | src/main/java/uk/co/emiratesfinancial/test/orderbook/OrderBook.java:75-79 | removing a held order deletes exactly that order from the listing; the orders before and after it keep their order |
| PriceLevels.ReplaceInLevels | src/main/java/uk/co/emiratesfinancial/test/orderbook/OrderBook.java:121 | the price-map half of `findByIdAndModifySize`; stated by `PriceLevels.ReplaceListing` and `SideBooks.ModifyKeepsValid` |
| PriceLevels.ReplaceListing | src/main/java/uk/co/emiratesfinancial/test/orderbook/OrderBook.java:115-121 | putting an order with the same id and price over a held order changes the listing only at that order's position |
| PriceLevels.SumSizes | src/main/java/uk/co/emiratesfinancial/test/orderbook/OrderBook.java:103 | `reduce(0L, Long::sum)` over the sizes; used by `PriceLevels.SizeAtIsGroupTotal` and `PriceLevels.EmptiedLevelSizeZero` |
| PriceLevels.PriceAt | src/main/java/uk/co/emiratesfinancial/test/orderbook/OrderBook.java:86-95 | the price at a rank is absent exactly when the rank is below 1 or above the number of keys; a present price is a key of the side |
| PriceLevels.SizeAt | src/main/java/uk/co/emiratesfinancial/test/orderbook/OrderBook.java:97-104 | the size at a rank is absent exactly when the price at that rank is absent |
| PriceLevels.PriceAtIsRank | src/main/java/uk/co/emiratesfinancial/test/orderbook/OrderBook.java:86-95 | the price at rank `level` is a key with exactly `level - 1` keys ranking ahead of it |
| PriceLevels.SizeAtIsGroupTotal | src/main/java/uk/co/emiratesfinancial/test/orderbook/OrderBook.java:97-104 | the size at a rank is the sum of the sizes of every listed order at that rank's price |
| PriceLevels.UpdateKeepsRanks | src/main/java/uk/co/emiratesfinancial/test/orderbook/OrderBook.java:78 | updating a level never changes the price at any rank, even when it empties the level |
| PriceLevels.EmptiedLevelSizeZero | src/main/java/uk/co/emiratesfinancial/test/orderbook/OrderBook.java:103 | an emptied level keeps its rank and reports total size 0 |
| SideBooks.AddKeepsValid | src/main/java/uk/co/emiratesfinancial/test/orderbook/OrderBook.java:43-51 | adding an order tagged with the side keeps the side valid, whether or not its id was present |
| SideBooks.AddKeepsConsistent | src/main/java/uk/co/emiratesfinancial/test/orderbook/OrderBook.java:43-51 | adding keeps the two indexes in exact agreement when the id is new on the side or already rests at the same price |
| SideBooks.AddAtNewPriceLeavesStaleEntry | src/main/java/uk/co/emiratesfinancial/test/orderbook/OrderBook.java:44-50 | re-adding an id at a new price leaves the old order in its old level, and the indexes then disagree |
| SideBooks.FreshIdUnlisted | src/main/java/uk/co/emiratesfinancial/test/orderbook/OrderBook.java:44-46 | with exact agreement, an id the index lacks is held by no level, so `put` appends it |
| SideBooks.RemoveKeepsValid | src/main/java/uk/co/emiratesfinancial/test/orderbook/OrderBook.java:70-81 | removing a held id keeps the side valid |
| SideBooks.RemoveKeepsConsistent | src/main/java/uk/co/emiratesfinancial/test/orderbook/OrderBook.java:70-81 | removing a held id keeps the indexes in exact agreement |
| SideBooks.RemoveOnSide | src/main/java/uk/co/emiratesfinancial/test/orderbook/OrderBook.java:77-80 | removal keeps the side valid, and keeps it consistent when it was consistent |
| SideBooks.Resized | src/main/java/uk/co/emiratesfinancial/test/orderbook/OrderBook.java:119 | the replacement order has the old id, price and side and the new size |
| SideBooks.ModifyKeepsValid | src/main/java/uk/co/emiratesfinancial/test/orderbook/OrderBook.java:112-122 | resizing a held id keeps the side valid |
| SideBooks.ModifyKeepsConsistent | src/main/java/uk/co/emiratesfinancial/test/orderbook/OrderBook.java:112-122 | resizing a held id keeps the indexes in exact agreement |
| SideBooks.ModifyOnSide | src/main/java/uk/co/emiratesfinancial/test/orderbook/OrderBook.java:118-122 | resizing keeps the side valid, and keeps it consistent when it was consistent |
| OrderBooks.ParseSide | src/main/java/uk/co/emiratesfinancial/test/orderbook/OrderBook.java:152-163 | a side character is valid exactly when it is 'B' or 'O'; any other character is `InvalidSide` of that character |
| OrderBooks.OrderBook.constructor | src/main/java/uk/co/emiratesfinancial/test/orderbook/OrderBook.java:19-33 | a new book has all four maps empty, and is valid and consistent |
| OrderBooks.OrderBook.OrdersMap | src/main/java/uk/co/emiratesfinancial/test/orderbook/OrderBook.java:152-163 | 'B' selects the bid price map and 'O' the offer price map; anything else is the error |
| OrderBooks.OrderBook.OrderId2OrdersMap | src/main/java/uk/co/emiratesfinancial/test/orderbook/OrderBook.java:139-150 | 'B' selects the bid id index and 'O' the offer id index; anything else is the error |
| OrderBooks.OrderBook.FindSideByOrderId | src/main/java/uk/co/emiratesfinancial/test/orderbook/OrderBook.java:127-137 | the answer is Bid exactly when the bid index holds the id; Offer exactly when only the offer index holds it; otherwise absent |
| OrderBooks.OrderBook.AllOrdersByLevelTimeOrder | src/main/java/uk/co/emiratesfinancial/test/orderbook/OrderBook.java:56-62 | for a valid side, the listing is in price priority, and its orders at each price are that level's orders in arrival order; it is an error exactly for an unknown side |
| OrderBooks.OrderBook.PriceByLevel | src/main/java/uk/co/emiratesfinancial/test/orderbook/OrderBook.java:86-95 | absent for any `level < 1`, whatever the side; otherwise an error exactly for an unknown side; for a known side, absent exactly when `level` exceeds the number of keys, and otherwise a key with `level - 1` keys ahead of it |
| OrderBooks.OrderBook.SizeByLevel | src/main/java/uk/co/emiratesfinancial/test/orderbook/OrderBook.java:97-104 | absent exactly when the price at that rank is (so for any `level < 1`, whatever the side); an error exactly when that query errs; otherwise the sum of sizes of the listed orders at that price |
| OrderBooks.OrderBook.AddOrder | src/main/java/uk/co/emiratesfinancial/test/orderbook/OrderBook.java:39-53 | null is a no-op. An unknown side fails and changes nothing. Otherwise the side's price map and id index are updated by `put`, the other side is unchanged, validity is kept, and consistency is kept when the id is fresh or at the same price |
| OrderBooks.OrderBook.RemoveOrderById | src/main/java/uk/co/emiratesfinancial/test/orderbook/OrderBook.java:64-83 | an id no side holds is a no-op. Otherwise the order is removed from its side's level and id index (bid first); the other side is unchanged; every key stays at its position; validity and consistency are kept |
| OrderBooks.OrderBook.FindByIdAndModifySize | src/main/java/uk/co/emiratesfinancial/test/orderbook/OrderBook.java:106-125 | an id no side holds is a no-op. Otherwise the entry on the resolved side (bid first) is replaced, in the index and in its level, by the order with the same id, price and side and the new size; the other side is unchanged; validity and consistency are kept |
| OrderBookScenarios.BidsHighestFirst | src/test/java/uk/co/emiratesfinancial/test/orderbook/OrderBookTest.java:13-33 | bids 4.4, 4.7, 3.8, 3.8 list as 2, 1, 3, 4 |
| OrderBookScenarios.OffersLowestFirst | src/test/java/uk/co/emiratesfinancial/test/orderbook/OrderBookTest.java:35-55 | the same prices as offers list as 3, 4, 1, 2 |
| OrderBookScenarios.NullOrderIgnored | src/test/java/uk/co/emiratesfinancial/test/orderbook/OrderBookTest.java:58-69 | adding null leaves the offer listing empty |
| OrderBookScenarios.RemoveOffer | src/test/java/uk/co/emiratesfinancial/test/orderbook/OrderBookTest.java:71-90 | removing offer 4 leaves offers 3, 1, 2 |
| OrderBookScenarios.RemoveBid | src/test/java/uk/co/emiratesfinancial/test/orderbook/OrderBookTest.java:92-112 | removing bid 4 leaves bids 2, 3 and the single offer 1 |
| OrderBookScenarios.RemoveUnknownId | src/test/java/uk/co/emiratesfinancial/test/orderbook/OrderBookTest.java:114-134 | removing id 100 leaves bids 2, 3, 4 and offer 1 |
| OrderBookScenarios.ModifySize | src/test/java/uk/co/emiratesfinancial/test/orderbook/OrderBookTest.java:137-159 | resizing bid 3 to 15 lists the resized order in its place and no longer lists the old one |
| OrderBookScenarios.PricesByRank | src/test/java/uk/co/emiratesfinancial/test/orderbook/OrderBookTest.java:161-204 | bid ranks 1 to 3 are 4.7, 4.4 and 3.8; rank 4 is absent |
| OrderBookScenarios.SizesByRank | src/test/java/uk/co/emiratesfinancial/test/orderbook/OrderBookTest.java:206-237 | offer rank 1 totals 20 and rank 2 totals 10 |
| OrderBookScenarios.EmptyBookSize | src/test/java/uk/co/emiratesfinancial/test/orderbook/OrderBookTest.java:240-251 | on an empty book the size at rank 1 is absent |
| OrderBookScenarios.UnknownSideRejected | src/test/java/uk/co/emiratesfinancial/test/orderbook/OrderBookTest.java:253-270 | listing side 'L' is the error `InvalidSide('L')` |
| OrderBookScenarios.RankZeroOfUnknownSide | src/main/java/uk/co/emiratesfinancial/test/orderbook/OrderBook.java:86-101 | on side 'L', rank 0 gives absent price and absent size, while rank 1 is the error `InvalidSide('L')` |
| OrderBookScenarios.EqualOrdersHashAlike | src/test/java/uk/co/emiratesfinancial/test/orderbook/OrderBookTest.java:272-281 | two orders built from the same fields are equal and hash alike |

## Left out

- Concurrency: the `synchronized (this)` blocks, the concurrent map classes, and the unlocked read before the lock in `removeOrderById` and `findByIdAndModifySize`. Every operation is modelled as atomic and sequential.
- Floating-point prices: prices are integer ticks. `Double.compare` corner cases (NaN, -0.0) and the comparator's behaviour on them are not modelled.
- Orders.HashCode: only its agreement with `equals` is stated. It does not compute the exact value of `Objects.hash`, which uses `Long.hashCode`, `Double.hashCode` and 32-bit wrap-around.
- `long` overflow in the size sum of `getSizeByLevel`, and the `int` to `long` widening of `newSize`: sizes are unbounded integers.
- `Order.toString`, and the read-only wrapper of `Collectors.toUnmodifiableList`: the listing is a plain sequence.
- The identity short-cut `this == o` in `equals` is not modelled separately: it only returns true for an object whose four fields are equal anyway.
- Null arguments other than the null order in `addOrder`: `Order` is a value and cannot be null.
- OrderBooks.OrderBook.AddOrder: the postcondition gives the new price map as a function of the old one. The listing consequences are stated by `PriceLevels.AddListing` and `PriceLevels.ReAddReplacesInPlace` about that function, not repeated on the method.
- OrderBooks.OrderBook.RemoveOrderById and OrderBooks.OrderBook.FindByIdAndModifySize: the same applies. The listing consequences are `PriceLevels.RemoveListing` and `PriceLevels.ReplaceListing`.
