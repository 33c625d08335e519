/**
 One side of the order book as the engine keeps it, heap aside: the orders the heap
 can still reach, sorted, and the orders whose price level the heap has lost.

 The engine finds a level by price in a map and finds the best level through a heap
 that forgets empty levels lazily. A level that empties stays in the map; if the heap
 then pops it, a later order at that price joins the map entry without being pushed
 again. Such a price is `buried`.
 */
module Books {
  import opened Domain
  import opened Matching

  datatype Book = Book(
    isBid: bool,
    queue: seq<OrderVal>,   // orders of levels the heap holds, sorted
    hidden: seq<OrderVal>,  // orders of levels the heap has lost, by arrival
    stale: set<int>,        // prices of empty levels still in the heap
    buried: set<int>        // prices of levels in the map but not in the heap
  ) {
    function Resting(): seq<OrderVal> { queue + hidden }

    /** Nothing rests where the heap cannot find it. */
    predicate Indexed() { hidden == [] }
  }

  function EmptyBook(isBid: bool): Book { Book(isBid, [], [], {}, {}) }

  /** What every resting order satisfies. */
  ghost predicate Restable(isBid: bool, q: seq<OrderVal>) {
    Open(q) && forall i :: 0 <= i < |q| ==> q[i].side.Buy? == isBid && q[i].typ.Limit?
  }

  /** The heap holds every level with reachable orders and no level with hidden ones. */
  ghost predicate Placed(b: Book) {
    && b.stale !! b.buried
    && (forall o :: o in b.queue ==> o.price !in b.stale && o.price !in b.buried)
    && (forall o :: o in b.hidden ==> o.price in b.buried)
  }

  ghost predicate BookOk(b: Book) {
    && Sorted(b.isBid, b.queue)
    && Restable(b.isBid, b.queue)
    && Restable(b.isBid, b.hidden)
    && UniqueIds(b.Resting())
    && Placed(b)
  }

  // ---- the operations ----

  /** Looking for the best level pops every empty level that sorts before it. */
  function Popped(b: Book): (r: Book) {
    var gone := set p | p in b.stale && (b.queue == [] || Better(b.isBid, p, b.queue[0].price));
    b.(stale := b.stale - gone, buried := b.buried + gone)
  }

  /** Place an order behind every order of the same or a better price. */
  function Insert(isBid: bool, q: seq<OrderVal>, o: OrderVal): seq<OrderVal> {
    if q == [] || Better(isBid, o.price, q[0].price) then [o] + q
    else [q[0]] + Insert(isBid, q[1..], o)
  }

  function AddOrder(b: Book, o: OrderVal): Book {
    if o.price in b.buried then b.(hidden := b.hidden + [o])
    else b.(queue := Insert(b.isBid, b.queue, o), stale := b.stale - {o.price})
  }

  function Without(q: seq<OrderVal>, id: OrderId): seq<OrderVal> {
    if q == [] then []
    else if q[0].id == id then q[1..]
    else [q[0]] + Without(q[1..], id)
  }

  /** Take an order out; a level left empty leaves the map, and so stops being buried. */
  function RemoveOrder(b: Book, id: OrderId, price: int): Book {
    if price in b.buried then
      var h := Without(b.hidden, id);
      b.(hidden := h, buried := if AtPrice(h, price) == [] then b.buried - {price} else b.buried)
    else
      b.(queue := Without(b.queue, id))
  }

  /** Fill the head of the queue; a level emptied by the fill stays in the map and the heap. */
  function FillHead(b: Book, n: int): Book
    requires b.queue != []
  {
    var q := AfterFill(b.queue, n);
    var p := b.queue[0].price;
    b.(queue := q, stale := if AtPrice(q, p) == [] then b.stale + {p} else b.stale)
  }

  datatype Matched = Matched(taker: OrderVal, book: Book, fills: seq<Fill>)

  /** The engine's matching loop over one book. */
  function MatchBook(t: OrderVal, b: Book, seqNo: nat): Matched
    requires Open(b.queue)
    decreases TotalQty(b.queue)
  {
    if Exhausted(t) then Matched(t, b, [])
    else
      var b1 := Popped(b);
      if !CanEat(t, b1.queue) then Matched(t, b1, [])
      else
        var m := b1.queue[0];
        var n := FillQty(t, m);
        AfterFillShrinks(b1.queue, n);
        var r := MatchBook(Taken(t, m.price, n), FillHead(b1, n), seqNo + 1);
        Matched(r.taker, r.book, [Fill(TradeOf(t, m, n, seqNo + 1), Made(m, n))] + r.fills)
  }

  // ---- sequence facts ----

  lemma {:induction false} AtPriceMember(q: seq<OrderVal>, i: nat)
    requires i < |q|
    ensures q[i] in AtPrice(q, q[i].price)
  {
    if i > 0 {
      AtPriceMember(q[1..], i - 1);
    }
  }

  lemma {:induction false} AtPriceOnly(q: seq<OrderVal>, p: int)
    ensures forall i :: 0 <= i < |AtPrice(q, p)| ==> AtPrice(q, p)[i] in q && AtPrice(q, p)[i].price == p
  {
    if q != [] {
      AtPriceOnly(q[1..], p);
    }
  }

  lemma AtPriceNone(q: seq<OrderVal>, p: int)
    ensures AtPrice(q, p) == [] <==> forall i :: 0 <= i < |q| ==> q[i].price != p
  {
  }

  lemma {:induction false} AtPriceConcat(q: seq<OrderVal>, h: seq<OrderVal>, p: int)
    ensures AtPrice(q + h, p) == AtPrice(q, p) + AtPrice(h, p)
  {
    if q == [] {
      assert q + h == h;
    } else {
      assert (q + h)[1..] == q[1..] + h;
      AtPriceConcat(q[1..], h, p);
    }
  }

  /** Where an order goes: behind its own price, in front of worse ones. */
  lemma {:induction false} InsertSplits(isBid: bool, q: seq<OrderVal>, o: OrderVal) returns (k: nat)
    requires Sorted(isBid, q)
    ensures k <= |q| && Insert(isBid, q, o) == q[..k] + [o] + q[k..]
    ensures forall i :: 0 <= i < k ==> !Better(isBid, o.price, q[i].price)
    ensures forall i :: k <= i < |q| ==> Better(isBid, o.price, q[i].price)
  {
    if q == [] || Better(isBid, o.price, q[0].price) {
      k := 0;
    } else {
      assert Sorted(isBid, q[1..]) by {
        forall i, j | 0 <= i < j < |q[1..]|
          ensures !Better(isBid, q[1..][j].price, q[1..][i].price)
        {
          assert q[1..][j] == q[j + 1] && q[1..][i] == q[i + 1];
        }
      }
      var k' := InsertSplits(isBid, q[1..], o);
      k := k' + 1;
      assert q[..k] == [q[0]] + q[1..][..k'];
      assert q[k..] == q[1..][k'..];
      forall i | k <= i < |q|
        ensures Better(isBid, o.price, q[i].price)
      {
        assert q[i] == q[1..][i - 1];
      }
      forall i | 0 <= i < k
        ensures !Better(isBid, o.price, q[i].price)
      {
        assert i > 0 ==> q[i] == q[1..][i - 1];
      }
    }
  }

  lemma {:induction false} WithoutSplits(q: seq<OrderVal>, id: OrderId, k: nat)
    requires k < |q| && q[k].id == id
    requires forall i :: 0 <= i < k ==> q[i].id != id
    ensures Without(q, id) == q[..k] + q[k + 1..]
  {
    if k > 0 {
      WithoutSplits(q[1..], id, k - 1);
      assert q[..k] == [q[0]] + q[1..][..k - 1];
      assert q[k + 1..] == q[1..][k..];
    } else {
      assert q[..k] == [];
    }
  }

  // ---- the operations keep a book well formed ----

  lemma UniqueAdd(r: seq<OrderVal>, k: nat, o: OrderVal)
    requires k <= |r| && UniqueIds(r) && !HasId(r, o.id)
    ensures UniqueIds(r[..k] + [o] + r[k..])
  {
  }

  lemma UniqueDrop(r: seq<OrderVal>, k: nat)
    requires k < |r| && UniqueIds(r)
    ensures UniqueIds(r[..k] + r[k + 1..])
    ensures !HasId(r[..k] + r[k + 1..], r[k].id)
  {
  }

  lemma UniqueHead(r: seq<OrderVal>, m: OrderVal)
    requires r != [] && UniqueIds(r) && m.id == r[0].id
    ensures UniqueIds([m] + r[1..])
  {
  }

  lemma PoppedOk(b: Book)
    requires BookOk(b)
    ensures BookOk(Popped(b))
    ensures Popped(Popped(b)) == Popped(b)
  {
  }

  lemma AddOk(b: Book, o: OrderVal)
    requires BookOk(b) && o.remaining > 0 && o.side.Buy? == b.isBid && o.typ.Limit?
    requires !HasId(b.Resting(), o.id)
    ensures BookOk(AddOrder(b, o)) && AddOrder(b, o).isBid == b.isBid
    ensures o.price in b.buried ==> AddOrder(b, o).Resting() == b.Resting() + [o]
  {
    if o.price in b.buried {
      AddHiddenOk(b, o);
    } else {
      AddQueueOk(b, o);
    }
  }

  lemma AddHiddenOk(b: Book, o: OrderVal)
    requires BookOk(b) && o.remaining > 0 && o.side.Buy? == b.isBid && o.typ.Limit?
    requires !HasId(b.Resting(), o.id) && o.price in b.buried
    ensures BookOk(AddOrder(b, o)) && AddOrder(b, o).Resting() == b.Resting() + [o]
  {
    var r, r' := b.Resting(), AddOrder(b, o).Resting();
    assert UniqueIds(r') by {
      UniqueAdd(r, |r|, o);
      assert r' == r[..|r|] + [o] + r[|r|..];
    }
    assert r' == r + [o];
  }

  lemma AddQueueOk(b: Book, o: OrderVal)
    requires BookOk(b) && o.remaining > 0 && o.side.Buy? == b.isBid && o.typ.Limit?
    requires !HasId(b.Resting(), o.id) && o.price !in b.buried
    ensures BookOk(AddOrder(b, o))
  {
    hide Sorted, Restable, UniqueIds, Insert, Better;
    var k := InsertSplits(b.isBid, b.queue, o);
    InsertKeeps(b.isBid, b.queue, o, k);
    var r := b.Resting();
    UniqueAdd(r, k, o);
    assert AddOrder(b, o).Resting() == r[..k] + [o] + r[k..];
  }

  lemma InsertKeeps(isBid: bool, q: seq<OrderVal>, o: OrderVal, k: nat)
    requires Sorted(isBid, q) && Restable(isBid, q)
    requires o.remaining > 0 && o.side.Buy? == isBid && o.typ.Limit?
    requires k <= |q|
    requires forall i :: 0 <= i < k ==> !Better(isBid, o.price, q[i].price)
    requires forall i :: k <= i < |q| ==> Better(isBid, o.price, q[i].price)
    ensures Sorted(isBid, q[..k] + [o] + q[k..]) && Restable(isBid, q[..k] + [o] + q[k..])
    ensures forall x :: x in q[..k] + [o] + q[k..] ==> x == o || x in q
  {
    var q' := q[..k] + [o] + q[k..];
    forall i, j | 0 <= i < j < |q'|
      ensures !Better(isBid, q'[j].price, q'[i].price)
    {
      var i', j' := if i < k then i else i - 1, if j < k then j else j - 1;
      assert i != k ==> q'[i] == q[i'];
      assert j != k ==> q'[j] == q[j'];
    }
  }

  /** Taking one order out of the list keeps the list in order. */
  lemma DropKeeps(isBid: bool, q: seq<OrderVal>, k: nat)
    requires k < |q| && Restable(isBid, q)
    ensures Restable(isBid, q[..k] + q[k + 1..])
    ensures Sorted(isBid, q) ==> Sorted(isBid, q[..k] + q[k + 1..])
    ensures forall x :: x in q[..k] + q[k + 1..] ==> x in q
  {
  }

  ghost predicate RestsAt(b: Book, i: nat, id: OrderId, price: int) {
    i < |b.Resting()| && b.Resting()[i].id == id && b.Resting()[i].price == price
  }

  lemma RemoveOk(b: Book, i: nat, id: OrderId, price: int)
    requires BookOk(b) && RestsAt(b, i, id, price)
    ensures BookOk(RemoveOrder(b, id, price))
    ensures RemoveOrder(b, id, price).Resting() == b.Resting()[..i] + b.Resting()[i + 1..]
    ensures !HasId(RemoveOrder(b, id, price).Resting(), id)
  {
    var r := b.Resting();
    if i < |b.queue| {
      assert r[i] in b.queue;
      RemoveQueueOk(b, i, id, price);
    } else {
      assert r[i] in b.hidden;
      RemoveHiddenOk(b, i - |b.queue|, id, price);
    }
    UniqueDrop(r, i);
  }

  lemma HiddenSplits(b: Book, j: nat, id: OrderId, price: int)
    requires BookOk(b) && RestsAt(b, |b.queue| + j, id, price)
    ensures j < |b.hidden| && b.hidden[j].id == id && Without(b.hidden, id) == b.hidden[..j] + b.hidden[j + 1..]
    ensures var r, i := b.Resting(), |b.queue| + j;
      b.queue + Without(b.hidden, id) == r[..i] + r[i + 1..]
  {
    hide Sorted, Restable, Placed;
    var r, i := b.Resting(), |b.queue| + j;
    assert b.hidden[j] == r[i];
    forall x | 0 <= x < j
      ensures b.hidden[x].id != id
    {
      assert b.hidden[x] == r[|b.queue| + x];
    }
    WithoutSplits(b.hidden, id, j);
    hide UniqueIds;
    assert r[..i] == b.queue + b.hidden[..j];
    assert r[i + 1..] == b.hidden[j + 1..];
  }

  lemma RemoveHiddenOk(b: Book, j: nat, id: OrderId, price: int)
    requires BookOk(b) && RestsAt(b, |b.queue| + j, id, price) && price in b.buried
    ensures BookOk(RemoveOrder(b, id, price))
    ensures var r, i := b.Resting(), |b.queue| + j;
      RemoveOrder(b, id, price).Resting() == r[..i] + r[i + 1..]
  {
    hide Sorted, Restable, UniqueIds, AtPrice, Without;
    HiddenSplits(b, j, id, price);
    DropKeeps(b.isBid, b.hidden, j);
    AtPriceNone(RemoveOrder(b, id, price).hidden, price);
    UniqueDrop(b.Resting(), |b.queue| + j);
  }

  lemma RemoveQueueOk(b: Book, i: nat, id: OrderId, price: int)
    requires BookOk(b) && i < |b.queue| && RestsAt(b, i, id, price) && price !in b.buried
    ensures BookOk(RemoveOrder(b, id, price))
    ensures var r := b.Resting(); RemoveOrder(b, id, price).Resting() == r[..i] + r[i + 1..]
  {
    var b', r := RemoveOrder(b, id, price), b.Resting();
    forall x | 0 <= x < i
      ensures b.queue[x].id != id
    {
      assert b.queue[x] == r[x];
    }
    assert b.queue[i] == r[i];
    WithoutSplits(b.queue, id, i);
    DropKeeps(b.isBid, b.queue, i);
    assert b'.Resting() == r[..i] + r[i + 1..];
    UniqueDrop(r, i);
  }

  /** Filling the head keeps the list in order; only the head changes. */
  lemma AfterFillKeeps(isBid: bool, q: seq<OrderVal>, n: int)
    requires q != [] && 0 < n <= q[0].remaining
    requires Sorted(isBid, q) && Restable(isBid, q)
    ensures Sorted(isBid, AfterFill(q, n)) && Restable(isBid, AfterFill(q, n))
    ensures forall x :: x in AfterFill(q, n) ==> x in q || x == Made(q[0], n)
  {
    var q' := AfterFill(q, n);
    if q[0].remaining == n {
      assert forall i :: 0 <= i < |q'| ==> q'[i] == q[i + 1];
    } else {
      assert forall i :: 0 < i < |q'| ==> q'[i] == q[i];
    }
  }

  lemma AfterFillUnique(r: seq<OrderVal>, n: int)
    requires r != [] && UniqueIds(r)
    ensures UniqueIds(AfterFill(r, n))
  {
    if r[0].remaining == n {
      UniqueDrop(r, 0);
      assert AfterFill(r, n) == r[..0] + r[1..];
    } else {
      UniqueHead(r, Made(r[0], n));
    }
  }

  lemma FillHeadOk(b: Book, n: int)
    requires BookOk(b) && b.queue != [] && 0 < n <= b.queue[0].remaining
    ensures BookOk(FillHead(b, n))
    ensures 0 <= TotalQty(FillHead(b, n).queue) < TotalQty(b.queue)
    ensures FillHead(b, n).Resting() == AfterFill(b.Resting(), n)
  {
    var b' := FillHead(b, n);
    AfterFillShrinks(b.queue, n);
    AfterFillKeeps(b.isBid, b.queue, n);
    AfterFillUnique(b.Resting(), n);
    assert b'.Resting() == AfterFill(b.Resting(), n);
    AtPriceNone(b'.queue, b.queue[0].price);
    assert b.queue[0] in b.queue;
  }

  lemma {:induction false} MatchBookOk(t: OrderVal, b: Book, s: nat)
    requires BookOk(b)
    ensures BookOk(MatchBook(t, b, s).book)
    ensures MatchBook(t, b, s).book.hidden == b.hidden
    decreases TotalQty(b.queue)
  {
    if !Exhausted(t) {
      PoppedOk(b);
      var b1 := Popped(b);
      if CanEat(t, b1.queue) {
        var n := FillQty(t, b1.queue[0]);
        FillHeadOk(b1, n);
        MatchBookOk(Taken(t, b1.queue[0].price, n), FillHead(b1, n), s + 1);
      }
    }
  }

  /**
   The engine's loop, with its lazily cleaned heap, makes exactly the fills the reference
   matcher makes on the orders the heap can reach, and leaves the same queue.
   */
  lemma {:induction false} MatchBookIsEat(t: OrderVal, b: Book, s: nat)
    requires BookOk(b)
    ensures var r, e := MatchBook(t, b, s), Eat(t, b.queue, s);
      r.taker == e.taker && r.fills == e.fills && r.book.queue == e.rest && r.book.hidden == b.hidden
      && r.book.isBid == b.isBid
    decreases TotalQty(b.queue)
  {
    if !Exhausted(t) {
      PoppedOk(b);
      var b1 := Popped(b);
      if CanEat(t, b1.queue) {
        var n := FillQty(t, b1.queue[0]);
        FillHeadOk(b1, n);
        MatchBookIsEat(Taken(t, b1.queue[0].price, n), FillHead(b1, n), s + 1);
      }
    }
  }
}
