/** What each book operation does to the orders of one price. */
module BookLevels {
  import opened Domain
  import opened Matching
  import opened Books
  import opened EngineModel

  lemma {:induction false} TotalConcat(q: seq<OrderVal>, h: seq<OrderVal>)
    ensures TotalQty(q + h) == TotalQty(q) + TotalQty(h)
  {
    if q == [] {
      assert q + h == h;
    } else {
      assert (q + h)[1..] == q[1..] + h;
      TotalConcat(q[1..], h);
    }
  }

  lemma {:induction false} AtPriceOpen(q: seq<OrderVal>, p: int)
    requires Open(q)
    ensures Open(AtPrice(q, p))
  {
    if q != [] {
      AtPriceOpen(q[1..], p);
    }
  }

  lemma {:induction false} AtPriceUnique(q: seq<OrderVal>, p: int)
    requires UniqueIds(q)
    ensures UniqueIds(AtPrice(q, p))
  {
    if q != [] {
      AtPriceUnique(q[1..], p);
      AtPriceOnly(q[1..], p);
      var t := AtPrice(q[1..], p);
      forall i | 0 <= i < |t|
        ensures t[i].id != q[0].id
      {
        assert t[i] in q[1..];
        var j :| 0 <= j < |q[1..]| && q[1..][j] == t[i];
        assert q[j + 1] == t[i];
      }
    }
  }

  lemma RestingOk(b: Book)
    requires BookOk(b)
    ensures Open(b.Resting())
  {
  }

  /** The best price's orders are the front of the queue. */
  lemma HeadOfPrice(b: Book)
    requires BookOk(b) && b.queue != []
    ensures var q := AtPrice(b.Resting(), b.queue[0].price); q != [] && q[0] == b.queue[0]
  {
  }

  lemma AfterFillAtPrice(b: Book, n: int, p: int)
    requires BookOk(b) && b.queue != [] && 0 < n <= b.queue[0].remaining
    ensures var p0 := b.queue[0].price;
      && AtPrice(b.Resting(), p0) != []
      && AtPrice(FillHead(b, n).Resting(), p) ==
           if p == p0 then AfterFill(AtPrice(b.Resting(), p0), n) else AtPrice(b.Resting(), p)
  {
    FillHeadOk(b, n);
    HeadOfPrice(b);
    var r := b.Resting();
    var r' := AfterFill(r, n);
    if r[0].remaining != n {
      assert r'[1..] == r[1..];
    }
  }

  lemma AddAtPrice(b: Book, o: OrderVal, p: int)
    requires BookOk(b)
    ensures AtPrice(AddOrder(b, o).Resting(), p) ==
      AtPrice(b.Resting(), p) + (if p == o.price then [o] else [])
  {
    if o.price in b.buried {
      assert AddOrder(b, o).Resting() == b.Resting() + [o];
      AtPriceConcat(b.Resting(), [o], p);
      AtPriceOne(o, p);
    } else {
      AddQueueAtPrice(b, o, p);
    }
  }

  lemma AddSplits(b: Book, o: OrderVal) returns (k: nat)
    requires BookOk(b) && o.price !in b.buried
    ensures k <= |b.queue| && AddOrder(b, o).Resting() == b.Resting()[..k] + [o] + b.Resting()[k..]
    ensures forall i :: k <= i < |b.queue| ==> Better(b.isBid, o.price, b.queue[i].price)
  {
    k := InsertSplits(b.isBid, b.queue, o);
    hide BookOk, Insert;
    var r := b.Resting();
    assert r[..k] == b.queue[..k] && r[k..] == b.queue[k..] + b.hidden;
  }

  lemma AddQueueAtPrice(b: Book, o: OrderVal, p: int)
    requires BookOk(b) && o.price !in b.buried
    ensures AtPrice(AddOrder(b, o).Resting(), p) ==
      AtPrice(b.Resting(), p) + (if p == o.price then [o] else [])
  {
    hide AtPrice, BookOk, AddOrder, Better;
    var k := AddSplits(b, o);
    if p == o.price {
      NoneBehind(b, o, k);
    }
    AtPriceInsert(b.Resting(), k, o, p);
  }

  lemma AtPriceOne(o: OrderVal, p: int)
    ensures AtPrice([o], p) == if p == o.price then [o] else []
  {
  }

  lemma AtPriceInsert(r: seq<OrderVal>, k: nat, o: OrderVal, p: int)
    requires k <= |r| && (p == o.price ==> AtPrice(r[k..], p) == [])
    ensures AtPrice(r[..k] + [o] + r[k..], p) == AtPrice(r, p) + (if p == o.price then [o] else [])
  {
    AtPriceConcat(r[..k] + [o], r[k..], p);
    AtPriceConcat(r[..k], [o], p);
    AtPriceOne(o, p);
    assert r == r[..k] + r[k..];
    AtPriceConcat(r[..k], r[k..], p);
  }

  lemma NoneBehind(b: Book, o: OrderVal, k: nat)
    requires BookOk(b) && o.price !in b.buried && k <= |b.queue|
    requires forall i :: k <= i < |b.queue| ==> Better(b.isBid, o.price, b.queue[i].price)
    ensures AtPrice(b.Resting()[k..], o.price) == []
  {
    var t := b.Resting()[k..];
    forall i | 0 <= i < |t|
      ensures t[i].price != o.price
    {
      if k + i < |b.queue| {
        assert t[i] == b.queue[k + i];
      } else {
        assert t[i] in b.hidden;
      }
    }
    AtPriceNone(t, o.price);
  }

  /** Dropping one order from a list drops it from its own price and no other. */
  lemma AtPriceDrop(r: seq<OrderVal>, i: nat, p: int) returns (j: nat)
    requires i < |r|
    ensures var q := AtPrice(r, r[i].price);
      && j < |q| && q[j] == r[i]
      && AtPrice(r[..i] + r[i + 1..], p) == if p == r[i].price then q[..j] + q[j + 1..] else AtPrice(r, p)
  {
    var price, tail := r[i].price, [r[i]] + r[i + 1..];
    assert r == r[..i] + tail;
    AtPriceConcat(r[..i], tail, p);
    AtPriceConcat(r[..i], tail, price);
    AtPriceConcat(r[..i], r[i + 1..], p);
    j := |AtPrice(r[..i], price)|;
    assert tail[1..] == r[i + 1..];
  }

  /** Where an order sits among the orders of its price. */
  lemma RemoveAtPrice(b: Book, i: nat, id: OrderId, price: int, p: int) returns (j: nat)
    requires BookOk(b) && RestsAt(b, i, id, price)
    ensures var q := AtPrice(b.Resting(), price);
      && j < |q| && q[j] == b.Resting()[i]
      && AtPrice(RemoveOrder(b, id, price).Resting(), p) ==
           if p == price then q[..j] + q[j + 1..] else AtPrice(b.Resting(), p)
  {
    hide BookOk, AtPrice, RemoveOrder;
    RemoveOk(b, i, id, price);
    j := AtPriceDrop(b.Resting(), i, p);
  }

  lemma {:induction false} AtPriceHasId(q: seq<OrderVal>, i: nat) returns (j: nat)
    requires i < |q|
    ensures j < |AtPrice(q, q[i].price)| && AtPrice(q, q[i].price)[j] == q[i]
  {
    AtPriceMember(q, i);
    j :| 0 <= j < |AtPrice(q, q[i].price)| && AtPrice(q, q[i].price)[j] == q[i];
  }

  // ---- summing over levels in any order ----

  /** Quantity an order would accept at the prices of `ps`. */
  function CrossIn(t: OrderVal, q: seq<OrderVal>, ps: set<int>): int {
    if q == [] then 0
    else (if q[0].price in ps && Crosses(t, q[0].price) then q[0].remaining else 0) + CrossIn(t, q[1..], ps)
  }

  lemma {:induction false} CrossInAdd(t: OrderVal, q: seq<OrderVal>, ps: set<int>, p: int)
    requires p !in ps
    ensures CrossIn(t, q, ps + {p}) == CrossIn(t, q, ps) + (if Crosses(t, p) then TotalQty(AtPrice(q, p)) else 0)
  {
    if q != [] {
      CrossInAdd(t, q[1..], ps, p);
      if q[0].price == p {
        assert AtPrice(q, p)[1..] == AtPrice(q[1..], p);
      }
    }
  }

  lemma {:induction false} CrossInNone(t: OrderVal, q: seq<OrderVal>)
    ensures CrossIn(t, q, {}) == 0
  {
    if q != [] {
      CrossInNone(t, q[1..]);
    }
  }

  /** Partial sums never exceed the whole, and all prices together make the whole. */
  lemma {:induction false} CrossInBound(t: OrderVal, q: seq<OrderVal>, ps: set<int>)
    requires Open(q)
    ensures CrossIn(t, q, ps) <= CrossQty(t, q)
    ensures (forall o :: o in q ==> o.price in ps) ==> CrossIn(t, q, ps) == CrossQty(t, q)
  {
    if q != [] {
      CrossInBound(t, q[1..], ps);
      assert q[0] in q;
    }
  }
}
