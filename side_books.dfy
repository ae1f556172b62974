/**
 * One side of the book as the pair of indexes the source keeps for it: the
 * price-ordered levels and the map from order id to order. This module states
 * how the two must agree and proves that each mutation of the book keeps them
 * agreeing.
 */
module SideBooks {
  import opened Wrappers
  import opened Orders
  import opened PriceLevels

  /** A level of side `c`: distinct ids, every order at the level's price and tagged `c`. */
  predicate LevelOk(c: char, lv: Level)
  {
    DistinctIds(lv.orders) && PricesMatch(lv) && forall o :: o in lv.orders ==> o.side == c
  }

  /** The order is held by the level keyed by its own price. */
  predicate Holds(levels: seq<Level>, o: Order)
  {
    Find(levels, o.price).Some? && o in Find(levels, o.price).value
  }

  /**
   * What the book keeps true of each side on every path, including re-adding
   * an id at a new price: keys sorted by the side's comparator, every level
   * well formed, and every id-index entry held by the level at its price.
   */
  predicate SideValid(s: Side, levels: seq<Level>, index: map<int, Order>)
  {
    && Sorted(s, levels)
    && (forall lv :: lv in levels ==> LevelOk(SideChar(s), lv))
    && (forall id :: id in index ==> index[id].id == id && Holds(levels, index[id]))
  }

  /**
   * The two indexes agree exactly: every order held by a level is the id
   * index's entry for its id (no stale entries).
   */
  predicate Consistent(levels: seq<Level>, index: map<int, Order>)
  {
    forall lv, x :: lv in levels && x in lv.orders ==> x.id in index && index[x.id] == x
  }

  lemma ValidPricesMatch(s: Side, levels: seq<Level>, index: map<int, Order>)
    requires SideValid(s, levels, index)
    ensures AllPricesMatch(levels)
  {
    forall lv | lv in levels ensures PricesMatch(lv) { assert LevelOk(SideChar(s), lv); }
  }

  /** The level at a held price is a level of the side, so it is well formed. */
  lemma FoundLevelOk(s: Side, levels: seq<Level>, index: map<int, Order>, p: int)
    requires SideValid(s, levels, index)
    ensures LevelOk(SideChar(s), Level(p, GetOrDefault(levels, p)))
  {
  }

  /**
   * `addOrder` of an order tagged with this side keeps the side valid, whether
   * or not its id was already present.
   */
  lemma AddKeepsValid(s: Side, levels: seq<Level>, index: map<int, Order>, o: Order)
    requires SideValid(s, levels, index) && o.side == SideChar(s)
    ensures SideValid(s, AddToLevels(s, levels, o), index[o.id := o])
  {
    var p, os := o.price, GetOrDefault(levels, o.price);
    var os' := PutEntry(os, o);
    var levels', index' := AddToLevels(s, levels, o), index[o.id := o];
    FoundLevelOk(s, levels, index, p);
    PutEntryMembers(os, o);
    PutLevelSorted(s, levels, p, os');
    assert LevelOk(SideChar(s), Level(p, os'));
    forall id | id in index' ensures index'[id].id == id && Holds(levels', index'[id]) {
      if id != o.id {
        var x := index[id];
        assert Holds(levels, x);
        if x.price == p {
          assert x in os;
        }
      }
    }
  }

  /** In a sorted side, looking up a level's key finds that level. */
  lemma FindIn(s: Side, levels: seq<Level>, lv: Level)
    requires Sorted(s, levels) && lv in levels
    ensures Find(levels, lv.price) == Some(lv.orders)
  {
    var i :| 0 <= i < |levels| && levels[i] == lv;
    FindAt(s, levels, i);
  }

  /**
   * `addOrder` keeps the indexes in exact agreement when the id is new on the
   * side or already rests at the same price.
   */
  lemma AddKeepsConsistent(s: Side, levels: seq<Level>, index: map<int, Order>, o: Order)
    requires SideValid(s, levels, index) && Consistent(levels, index) && o.side == SideChar(s)
    requires o.id !in index || index[o.id].price == o.price
    ensures Consistent(AddToLevels(s, levels, o), index[o.id := o])
  {
    var p, os := o.price, GetOrDefault(levels, o.price);
    var os' := PutEntry(os, o);
    var levels', index' := AddToLevels(s, levels, o), index[o.id := o];
    FoundLevelOk(s, levels, index, p);
    PutEntryMembers(os, o);
    AddKeepsValid(s, levels, index, o);
    forall lv, x | lv in levels' && x in lv.orders ensures x.id in index' && index'[x.id] == x {
      if lv == Level(p, os') {
        if x != o {
          assert x in os;
          assert Level(p, os) in levels;
        }
      } else {
        assert lv in levels && LevelOk(SideChar(s), lv);
        FindIn(s, levels', lv);
        assert x.id != o.id;
      }
    }
  }

  /**
   * Re-adding an id at a different price leaves its old order in its old
   * level while the id index moves on: the two indexes then disagree.
   */
  lemma AddAtNewPriceLeavesStaleEntry(s: Side, levels: seq<Level>, index: map<int, Order>, o: Order)
    requires SideValid(s, levels, index) && o.side == SideChar(s)
    requires o.id in index && index[o.id].price != o.price
    ensures Holds(AddToLevels(s, levels, o), index[o.id])
    ensures !Consistent(AddToLevels(s, levels, o), index[o.id := o])
  {
    var x := index[o.id];
    var levels' := AddToLevels(s, levels, o);
    assert Holds(levels, x);
    assert Find(levels', x.price) == Find(levels, x.price);
    assert Level(x.price, Find(levels', x.price).value) in levels';
  }

  /** With exact agreement, an id that the index lacks is held by no level. */
  lemma FreshIdUnlisted(levels: seq<Level>, index: map<int, Order>, id: int, p: int)
    requires Consistent(levels, index) && id !in index
    ensures forall x :: x in GetOrDefault(levels, p) ==> x.id != id
  {
    if Find(levels, p).Some? {
      assert Level(p, Find(levels, p).value) in levels;
    }
  }

  /** `removeOrderById` of an id the side holds keeps the side valid. */
  lemma RemoveKeepsValid(s: Side, levels: seq<Level>, index: map<int, Order>, id: int)
    requires SideValid(s, levels, index) && id in index
    ensures SideValid(s, RemoveFromLevels(levels, index[id]), index - {id})
  {
    var o := index[id];
    var p, os := o.price, GetOrDefault(levels, o.price);
    var os' := RemoveEntry(os, id);
    var levels', index' := RemoveFromLevels(levels, o), index - {id};
    FoundLevelOk(s, levels, index, p);
    RemoveEntryMembers(os, id);
    assert Find(levels, p).Some?;
    assert Sorted(s, levels') by {
      forall i, j | 0 <= i < j < |levels'| ensures Before(s, levels'[i].price, levels'[j].price) {
        assert levels'[i].price == levels[i].price && levels'[j].price == levels[j].price;
      }
    }
    assert LevelOk(SideChar(s), Level(p, os'));
    forall id' | id' in index' ensures index'[id'].id == id' && Holds(levels', index'[id']) {
      var x := index[id'];
      assert Holds(levels, x);
      if x.price == p {
        assert x in os;
      }
    }
  }

  /** `removeOrderById` keeps the indexes in exact agreement. */
  lemma RemoveKeepsConsistent(s: Side, levels: seq<Level>, index: map<int, Order>, id: int)
    requires SideValid(s, levels, index) && Consistent(levels, index) && id in index
    ensures Consistent(RemoveFromLevels(levels, index[id]), index - {id})
  {
    var o := index[id];
    var p, os := o.price, GetOrDefault(levels, o.price);
    var os' := RemoveEntry(os, id);
    var levels', index' := RemoveFromLevels(levels, o), index - {id};
    FoundLevelOk(s, levels, index, p);
    RemoveEntryMembers(os, id);
    RemoveKeepsValid(s, levels, index, id);
    forall lv, x | lv in levels' && x in lv.orders ensures x.id in index' && index'[x.id] == x {
      if lv == Level(p, os') {
        assert x in os && Level(p, os) in levels;
      } else {
        assert lv in levels && LevelOk(SideChar(s), lv);
        FindIn(s, levels', lv);
        assert x.id != id;
      }
    }
  }

  /** The order `findByIdAndModifySize` puts in place of the entry for `id`. */
  function Resized(o: Order, newSize: int): (u: Order)
    ensures u.id == o.id && u.price == o.price && u.side == o.side && u.size == newSize
  {
    Order(o.id, o.price, o.side, newSize)
  }

  /** `findByIdAndModifySize` of an id the side holds keeps the side valid. */
  lemma ModifyKeepsValid(s: Side, levels: seq<Level>, index: map<int, Order>, id: int, newSize: int)
    requires SideValid(s, levels, index) && id in index
    ensures var u := Resized(index[id], newSize);
      SideValid(s, ReplaceInLevels(levels, u), index[id := u])
  {
    var o := index[id];
    var u := Resized(o, newSize);
    var p, os := o.price, GetOrDefault(levels, o.price);
    var os' := PutEntry(os, u);
    var levels', index' := ReplaceInLevels(levels, u), index[id := u];
    FoundLevelOk(s, levels, index, p);
    PutEntryMembers(os, u);
    assert Find(levels, p).Some? && o in os;
    assert Sorted(s, levels') by {
      forall i, j | 0 <= i < j < |levels'| ensures Before(s, levels'[i].price, levels'[j].price) {
        assert levels'[i].price == levels[i].price && levels'[j].price == levels[j].price;
      }
    }
    assert LevelOk(SideChar(s), Level(p, os'));
    forall id' | id' in index' ensures index'[id'].id == id' && Holds(levels', index'[id']) {
      if id' != id {
        var x := index[id'];
        assert Holds(levels, x);
        if x.price == p {
          assert x in os;
        }
      }
    }
  }

  /** `findByIdAndModifySize` keeps the indexes in exact agreement. */
  lemma ModifyKeepsConsistent(s: Side, levels: seq<Level>, index: map<int, Order>, id: int, newSize: int)
    requires SideValid(s, levels, index) && Consistent(levels, index) && id in index
    ensures var u := Resized(index[id], newSize);
      Consistent(ReplaceInLevels(levels, u), index[id := u])
  {
    var o := index[id];
    var u := Resized(o, newSize);
    var p, os := o.price, GetOrDefault(levels, o.price);
    var os' := PutEntry(os, u);
    var levels', index' := ReplaceInLevels(levels, u), index[id := u];
    FoundLevelOk(s, levels, index, p);
    PutEntryMembers(os, u);
    ModifyKeepsValid(s, levels, index, id, newSize);
    forall lv, x | lv in levels' && x in lv.orders ensures x.id in index' && index'[x.id] == x {
      if lv == Level(p, os') {
        if x != u {
          assert x in os && Level(p, os) in levels;
        }
      } else {
        assert lv in levels && LevelOk(SideChar(s), lv);
        FindIn(s, levels', lv);
        assert x.id != id;
      }
    }
  }

  /** Everything `removeOrderById` does to the side holding `id`, in one statement. */
  lemma RemoveOnSide(s: Side, levels: seq<Level>, index: map<int, Order>, id: int)
    requires SideValid(s, levels, index) && id in index
    ensures SideValid(s, RemoveFromLevels(levels, index[id]), index - {id})
    ensures Consistent(levels, index) ==> Consistent(RemoveFromLevels(levels, index[id]), index - {id})
  {
    RemoveKeepsValid(s, levels, index, id);
    if Consistent(levels, index) {
      RemoveKeepsConsistent(s, levels, index, id);
    }
  }

  /** Everything `findByIdAndModifySize` does to the side holding `id`, in one statement. */
  lemma ModifyOnSide(s: Side, levels: seq<Level>, index: map<int, Order>, id: int, newSize: int)
    requires SideValid(s, levels, index) && id in index
    ensures var u := Resized(index[id], newSize);
      && SideValid(s, ReplaceInLevels(levels, u), index[id := u])
      && (Consistent(levels, index) ==> Consistent(ReplaceInLevels(levels, u), index[id := u]))
  {
    ModifyKeepsValid(s, levels, index, id, newSize);
    if Consistent(levels, index) {
      ModifyKeepsConsistent(s, levels, index, id, newSize);
    }
  }
}
