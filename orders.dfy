/** The immutable order value of the book. */
module Orders {

  /**
   * A resting order. Prices are integral ticks rather than floating point;
   * the side is the raw character the caller gave ('B' for bid, 'O' for offer,
   * but any character can be stored). The field accessors are the getters.
   */
  datatype Order = Order(id: int, price: int, side: char, size: int)

  /** What `equals(Object)` may be handed: null, an order, or an object of another class. */
  datatype Object = Null | OrderObject(order: Order) | OtherObject(className: string)

  /** The constructor stores its four arguments unchanged and the getters return them. */
  lemma ConstructorStoresFields(id: int, price: int, side: char, size: int)
    ensures var o := Order(id, price, side, size);
      o.id == id && o.price == price && o.side == side && o.size == size
  {
  }

  /**
   * `Order.equals`: false for null and for objects of another class, otherwise
   * field-by-field comparison of id, price, side and size. (The identity
   * short-cut `this == o` implies equal fields, so it does not change the answer.)
   */
  function Equals(self: Order, other: Object): (r: bool)
    ensures r <==> other == OrderObject(self)
  {
    match other
    case OrderObject(that) =>
      self.id == that.id && that.price == self.price && self.side == that.side && self.size == that.size
    case _ => false
  }

  /**
   * A stand-in for `Order.hashCode`: the same base-31 polynomial with seed 1
   * that `Objects.hash(id, price, side, size)` builds over the fields, but over
   * the field values themselves and unbounded, so not Java's numeric value.
   * It depends on the four fields only, which is what agreement with `equals` needs.
   */
  function HashCode(o: Order): int
  {
    31 * (31 * (31 * (31 + o.id) + o.price) + o.side as int) + o.size
  }

  /** Equality is reflexive. */
  lemma EqualsReflexive(o: Order)
    ensures Equals(o, OrderObject(o))
  {
  }

  /** Comparing with null or with an object of another class is false. */
  lemma EqualsRejectsOtherObjects(o: Order, className: string)
    ensures !Equals(o, Null) && !Equals(o, OtherObject(className))
  {
  }

  /** Equality is symmetric between orders. */
  lemma EqualsSymmetric(a: Order, b: Order)
    ensures Equals(a, OrderObject(b)) == Equals(b, OrderObject(a))
  {
  }

  /** An order differing only in size is a different order. */
  lemma SizeDistinguishes(o: Order, newSize: int)
    requires newSize != o.size
    ensures !Equals(o, OrderObject(o.(size := newSize)))
  {
  }

  /** Equal orders have equal hash codes. */
  lemma HashConsistentWithEquals(a: Order, b: Order)
    requires Equals(a, OrderObject(b))
    ensures HashCode(a) == HashCode(b)
  {
  }
}
