/**
 One side of the book as the engine stores it: a map from price to level, and a heap of
 levels cleaned lazily. `abs` is the book's value, as module Books describes it.
 */
module OrderBook {
  import opened Domain
  import opened FixedPoint
  import opened Matching
  import opened Books
  import opened BookLevels
  import opened LevelHeap

  // ---- the price index ----

  /**
   The map and the heap agree: the heap is ordered, repeats nothing, misses exactly the
   buried levels, and of those it holds exactly the stale ones have no orders.
   */
  ghost predicate IndexOk(levels: map<int, PriceLevel>, hp: seq<PriceLevel>, b: Book) {
    && HeapOrdered(b.isBid, hp) && Distinct(hp)
    && b.stale <= levels.Keys && b.buried <= levels.Keys
    && (forall p :: p in levels ==> levels[p].price == p)
    && (forall p :: p in levels ==> (p in b.buried <==> levels[p] !in hp))
    && (forall p :: p in levels && p !in b.buried ==> (p in b.stale <==> AtPrice(b.Resting(), p) == []))
    && (forall o :: o in b.Resting() ==> o.price in levels)
  }

  predicate Current(levels: map<int, PriceLevel>, l: PriceLevel) {
    l.price in levels && levels[l.price] == l
  }

  /** A level in the heap sorts no better than the root. */
  lemma NoBetterThanRoot(isBid: bool, hp: seq<PriceLevel>, l: PriceLevel)
    requires HeapOrdered(isBid, hp) && l in hp
    ensures !Better(isBid, l.price, hp[0].price)
  {
    var i :| 0 <= i < |hp| && hp[i] == l;
    RootFirst(isBid, hp, i);
  }

  /** The best price of the queue is in the heap. */
  lemma BestIsReached(levels: map<int, PriceLevel>, hp: seq<PriceLevel>, b: Book)
    requires BookOk(b) && IndexOk(levels, hp, b) && b.queue != []
    ensures b.queue[0].price in levels && levels[b.queue[0].price] in hp
    ensures AtPrice(b.Resting(), b.queue[0].price) != []
    ensures !Better(b.isBid, b.queue[0].price, hp[0].price)
  {
    var o := b.queue[0];
    assert o in b.queue && o in b.Resting();
    HeadOfPrice(b);
    NoBetterThanRoot(b.isBid, hp, levels[o.price]);
  }

  lemma LiveIsQueued(b: Book, p: int)
    requires BookOk(b) && p !in b.buried && AtPrice(b.Resting(), p) != []
    ensures b.queue != [] && !Better(b.isBid, p, b.queue[0].price)
  {
    AtPriceOnly(b.Resting(), p);
    var o := AtPrice(b.Resting(), p)[0];
    assert o in b.Resting() && o.price == p;
    assert o in b.queue;
    var i :| 0 <= i < |b.queue| && b.queue[i] == o;
    assert i > 0 ==> !Better(b.isBid, b.queue[i].price, b.queue[0].price);
  }

  /** A current root that has orders is the best level of the queue. */
  lemma RootIsBest(levels: map<int, PriceLevel>, hp: seq<PriceLevel>, b: Book)
    requires BookOk(b) && IndexOk(levels, hp, b)
    requires hp != [] && Current(levels, hp[0]) && AtPrice(b.Resting(), hp[0].price) != []
    ensures b.queue != [] && b.queue[0].price == hp[0].price
    ensures Popped(b) == b
  {
    var p := hp[0].price;
    assert levels[p] in hp;
    LiveIsQueued(b, p);
    BestIsReached(levels, hp, b);
    forall s | s in b.stale
      ensures !Better(b.isBid, s, p)
    {
      NoBetterThanRoot(b.isBid, hp, levels[s]);
    }
    NothingPopped(b);
  }

  lemma NothingPopped(b: Book)
    requires forall s :: s in b.stale ==> b.queue != [] && !Better(b.isBid, s, b.queue[0].price)
    ensures Popped(b) == b
  {
    var gone := set p | p in b.stale && (b.queue == [] || Better(b.isBid, p, b.queue[0].price));
    assert gone == {};
  }

  /** An empty current root is stale and sorts before the whole queue. */
  lemma DeadRootIsAhead(levels: map<int, PriceLevel>, hp: seq<PriceLevel>, b: Book)
    requires BookOk(b) && IndexOk(levels, hp, b)
    requires hp != [] && Current(levels, hp[0]) && AtPrice(b.Resting(), hp[0].price) == []
    ensures hp[0].price in b.stale
    ensures b.queue != [] ==> Better(b.isBid, hp[0].price, b.queue[0].price)
  {
    assert levels[hp[0].price] in hp;
    if b.queue != [] {
      BestIsReached(levels, hp, b);
      assert b.queue[0].price != hp[0].price;
    }
  }

  lemma EmptyHeap(levels: map<int, PriceLevel>, b: Book)
    requires BookOk(b) && IndexOk(levels, [], b)
    ensures b.queue == [] && Popped(b) == b
  {
    if b.queue != [] {
      BestIsReached(levels, [], b);
    }
    assert forall s :: s in levels ==> s in b.buried;
    NothingPopped(b);
  }

  /** Popping an empty level that sorts before the queue buries it. */
  function Bury(b: Book, p: int): Book {
    b.(stale := b.stale - {p}, buried := b.buried + {p})
  }

  lemma BuryOk(b: Book, p: int)
    requires BookOk(b) && p in b.stale
    requires b.queue != [] ==> Better(b.isBid, p, b.queue[0].price)
    ensures BookOk(Bury(b, p)) && Popped(Bury(b, p)) == Popped(b)
  {
  }

  /** Popping a superseded or empty root keeps the map and the heap in agreement. */
  lemma PopKeepsIndex(levels: map<int, PriceLevel>, hp: seq<PriceLevel>, b: Book, hp': seq<PriceLevel>)
    requires BookOk(b) && IndexOk(levels, hp, b) && hp != []
    requires Current(levels, hp[0]) ==> AtPrice(b.Resting(), hp[0].price) == []
    requires HeapOrdered(b.isBid, hp') && Distinct(hp')
    requires forall l :: l in hp' <==> l in hp && l != hp[0]
    ensures var b' := if Current(levels, hp[0]) then Bury(b, hp[0].price) else b;
      BookOk(b') && IndexOk(levels, hp', b') && Popped(b') == Popped(b) && b'.Resting() == b.Resting()
  {
    var top := hp[0];
    if Current(levels, top) {
      DeadRootIsAhead(levels, hp, b);
      BuryOk(b, top.price);
    }
    assert forall p :: p in levels && levels[p] == top ==> p == top.price;
  }

  // ---- the book ----

  /** A level holds exactly the given orders and knows their total. */
  ghost predicate Holds(l: PriceLevel, q: seq<OrderVal>)
    reads l, l.orders
  {
    && |l.orders| == |q| && l.totalQty == TotalQty(q)
    && (forall i :: 0 <= i < |q| ==> l.orders[i].View() == q[i])
  }

  /** The resting orders, listed by price. */
  function ByPrice(ps: set<int>, r: seq<OrderVal>): map<int, seq<OrderVal>> {
    map p | p in ps :: AtPrice(r, p)
  }

  lemma EmptyTotal(b: Book, l: PriceLevel, p: int)
    requires BookOk(b) && Holds(l, AtPrice(b.Resting(), p))
    ensures l.totalQty >= 0 && (l.totalQty == 0 <==> l.orders == [])
    ensures l.orders == [] <==> AtPrice(b.Resting(), p) == []
  {
    AtPriceOpen(b.Resting(), p);
    TotalQtyPositive(AtPrice(b.Resting(), p));
  }

  lemma EmptyIndex(isBid: bool)
    ensures BookOk(EmptyBook(isBid)) && IndexOk(map[], [], EmptyBook(isBid))
  {
    hide AtPrice;
  }

  class OrderBook {
    const isBid: bool
    var levels: map<int, PriceLevel>
    var hp: seq<PriceLevel>
    ghost var abs: Book

    // The objects of this book: every level it made, and every order it ever held.
    ghost var made: set<PriceLevel>
    ghost var orders: set<Order>

    /** The level of each price holds the orders listed for it, and there are no others. */
    ghost predicate LevelsHold(at: map<int, seq<OrderVal>>)
      reads this`levels, this`made, this`orders, made, orders
    {
      && at.Keys == levels.Keys
      && (forall p :: p in levels ==> levels[p] in made && levels[p].price == p)
      && (forall p, i :: p in levels && 0 <= i < |levels[p].orders| ==> levels[p].orders[i] in orders)
      && (forall p :: p in levels ==> Holds(levels[p], at[p]))
    }

    ghost predicate Valid()
      reads this, made, orders
    {
      && abs.isBid == isBid && BookOk(abs)
      && IndexOk(levels, hp, abs)
      && LevelsHold(ByPrice(levels.Keys, abs.Resting()))
    }

    constructor (isBid: bool)
      ensures Valid() && abs == EmptyBook(isBid) && this.isBid == isBid && orders == {} && made == {}
      ensures levels == map[] && hp == []
    {
      hide AtPrice, Holds, BookOk, IndexOk;
      EmptyIndex(isBid);
      this.isBid, levels, hp := isBid, map[], [];
      abs := EmptyBook(isBid);
      made, orders := {}, {};
    }

    // ---- best ----

    /** Change the heap without touching any level. */
    method Reindex(ghost b: Book, h: seq<PriceLevel>)
      requires b.isBid == isBid && BookOk(b) && IndexOk(levels, h, b) && LevelsHold(ByPrice(levels.Keys, b.Resting()))
      modifies this`hp, this`abs
      ensures Valid() && hp == h && abs == b
    {
      hp := h;
      abs := b;
    }

    /** Pop a root that is empty or superseded. */
    method DropRoot()
      requires Valid() && hp != []
      requires Current(levels, hp[0]) ==> AtPrice(abs.Resting(), hp[0].price) == []
      modifies this`hp, this`abs
      ensures Valid() && |hp| < |old(hp)|
      ensures abs.Resting() == old(abs.Resting()) && Popped(abs) == Popped(old(abs))
    {
      var rest, top := HeapPop(isBid, hp);
      PopKeepsIndex(levels, hp, abs, rest);
      ghost var b := if Current(levels, top) then Bury(abs, top.price) else abs;
      Reindex(b, rest);
    }

    /** `best`: drop empty and superseded heap roots until a level with orders is on top. */
    method Best() returns (level: PriceLevel?)
      requires Valid()
      modifies this`hp, this`abs
      ensures Valid() && abs == Popped(old(abs))
      ensures level == null <==> abs.queue == []
      ensures level != null ==> Current(levels, level) && level.price == abs.queue[0].price
    {
      while |hp| > 0
        invariant Valid()
        invariant abs.Resting() == old(abs.Resting())
        invariant Popped(abs) == Popped(old(abs))
        decreases |hp|
      {
        var top := hp[0];
        if Current(levels, top) {
          EmptyTotal(abs, top, top.price);
        }
        if top.totalQty == 0 || !Current(levels, top) {
          DropRoot();
        } else {
          RootIsBest(levels, hp, abs);
          return top;
        }
      }
      EmptyHeap(levels, abs);
      return null;
    }

    // ---- add ----

    /** `add`: append to the level of the order's price, creating and pushing it if absent. */
    method Add(o: Order)
      requires Valid() && CanRest(abs, o.View())
      modifies this, made
      ensures Valid() && abs == AddOrder(old(abs), o.View())
      ensures orders == old(orders) + {o} && fresh(made - old(made)) && old(made) <= made
      ensures forall p :: p in levels ==> if p in old(levels)
        then levels[p].orders == old(levels[p].orders) + (if p == o.price then [o] else [])
        else levels[p].orders == [o]
    {
      hide AddOrder, BookOk, IndexOk, LevelsHold, ByPrice;
      LevelFacts();
      if o.price !in levels {
        NewLevel(o);
      } else {
        OldLevelIndex(levels, hp, abs, o.View());
      }
      PushAt(o);
    }

    lemma HeapFacts()
      requires Valid()
      ensures HeapOrdered(isBid, hp) && Distinct(hp)
    {
    }

    /** A new empty level for the order's price, in the map and in the heap. */
    method NewLevel(o: Order)
      requires Valid() && CanRest(abs, o.View()) && o.price !in levels
      modifies this`levels, this`hp, this`made
      ensures IndexOk(levels, hp, AddOrder(abs, o.View()))
      ensures LevelsHold(ByPrice(levels.Keys, abs.Resting()))
      ensures o.price in levels && fresh(made - old(made)) && old(made) <= made
      ensures levels == old(levels)[o.price := levels[o.price]]
      ensures fresh(levels[o.price]) && levels[o.price].orders == []
      ensures forall p :: p in old(levels) ==> levels[p].orders == old(levels[p].orders)
    {
      hide AddOrder, BookOk, AtPrice, HeapOrdered, Distinct, IndexOk, LevelsHold, ByPrice;
      ghost var at := ByPrice(levels.Keys, abs.Resting());
      HeapFacts();
      var l := new PriceLevel(o.price);
      var h := HeapPush(isBid, hp, l);
      NewLevelIndex(levels, hp, abs, o.View(), l, h);
      NoneAtNewPrice(levels, hp, abs, o.price);
      hp := h;
      Install(l, at);
      assert levels.Keys == old(levels.Keys) + {o.price};
      ByPriceGrows(old(levels.Keys), abs.Resting(), o.price);
    }

    method Install(l: PriceLevel, ghost at: map<int, seq<OrderVal>>)
      requires LevelsHold(at) && l.price !in levels && l.orders == [] && l.totalQty == 0
      modifies this`levels, this`made
      ensures levels == old(levels)[l.price := l] && made == old(made) + {l}
      ensures LevelsHold(at[l.price := []])
    {
      levels := levels[l.price := l];
      made := made + {l};
    }

    method PushAt(o: Order)
      requires BookOk(abs) && abs.isBid == isBid && CanRest(abs, o.View()) && o.price in levels
      requires IndexOk(levels, hp, AddOrder(abs, o.View())) && LevelsHold(ByPrice(levels.Keys, abs.Resting()))
      modifies this`abs, this`orders, levels[o.price]
      ensures Valid() && abs == AddOrder(old(abs), o.View())
      ensures orders == old(orders) + {o} && levels[o.price].orders == old(levels[o.price].orders) + [o]
      ensures forall p :: p in levels && p != o.price ==> levels[p].orders == old(levels[p].orders)
    {
      hide AddOrder, BookOk, IndexOk, ByPrice;
      AddOk(abs, o.View());
      ghost var at := ByPrice(levels.Keys, abs.Resting());
      AddedByPrice(levels.Keys, abs, o.View());
      Append(o, at);
      abs := AddOrder(abs, o.View());
    }

    method Append(o: Order, ghost at: map<int, seq<OrderVal>>)
      requires LevelsHold(at) && o.price in levels
      modifies this`orders, levels[o.price]
      ensures LevelsHold(at[o.price := at[o.price] + [o.View()]])
      ensures orders == old(orders) + {o} && levels[o.price].orders == old(levels[o.price].orders) + [o]
      ensures forall p :: p in levels && p != o.price ==> levels[p].orders == old(levels[p].orders)
    {
      hide TotalQty;
      var l := levels[o.price];
      TotalOne(o.View());
      TotalConcat(at[o.price], [o.View()]);
      l.Push(o);
      orders := orders + {o};
      ghost var q := at[o.price] + [o.View()];
      ghost var at' := at[o.price := q];
      assert Holds(l, q);
      forall p | p in levels
        ensures levels[p] in made && Holds(levels[p], at'[p])
      {
        assert p != o.price ==> levels[p] != l && old(Holds(levels[p], at[p]));
      }
    }

    // ---- remove ----

    /** `remove`: find the order in its level, splice it out, and drop the level if it is empty. */
    method Remove(o: Order) returns (found: bool)
      requires Valid()
      modifies this`levels, this`abs, made
      ensures Valid() && hp == old(hp)
      ensures found <==> o.price in old(levels) && o in old(levels[o.price].orders)
      ensures abs == if found then RemoveOrder(old(abs), o.id, o.price) else old(abs)
      ensures forall p :: p in levels ==> p in old(levels)
      ensures forall p, i :: p in levels && 0 <= i < |levels[p].orders| ==> levels[p].orders[i] in old(levels[p].orders)
    {
      hide BookOk, IndexOk, RemoveOrder, AtPrice, ByPrice, Holds;
      if o.price !in levels {
        return false;
      }
      var l := levels[o.price];
      for i := 0 to |l.orders|
        invariant Valid() && l.orders == old(l.orders) && abs == old(abs)
        invariant levels == old(levels)
        invariant o !in l.orders[..i]
      {
        if l.orders[i] == o {
          RemoveAt(o, i);
          return true;
        }
      }
      return false;
    }

    method RemoveAt(o: Order, i: nat)
      requires Valid() && o.price in levels && i < |levels[o.price].orders| && levels[o.price].orders[i] == o
      modifies this`levels, this`abs, levels[o.price]
      ensures Valid() && abs == RemoveOrder(old(abs), o.id, o.price)
      ensures forall p :: p in levels ==> p in old(levels) && levels[p] == old(levels[p])
      ensures forall p, i :: p in levels && 0 <= i < |levels[p].orders| ==> levels[p].orders[i] in old(levels[p].orders)
    {
      hide BookOk, IndexOk, RemoveOrder, AtPrice, OnlyAt, ByPrice, LevelsHold, Open, UniqueIds;
      ghost var at := ByPrice(levels.Keys, abs.Resting());
      ghost var r, p := abs.Resting(), o.price;
      ListedAt(levels.Keys, abs, p);
      HeldAt(at, p, i);
      RemovedByPrice(levels, hp, abs, p, i);
      ghost var b := RemoveOrder(abs, o.id, p);
      ghost var q := at[p][..i] + at[p][i + 1..];
      ByPriceChanged(levels.Keys, r, b.Resting(), p, q);
      assert at[p := q] - {p} == at - {p};
      Splice(o, i, at);
      if levels[o.price].totalQty <= 0 || |levels[o.price].orders| == 0 {
        Unlink(o.price, at[p := q]);
      }
      abs := b;
    }

    /** An order that no longer rests here may change its status freely. */
    method MarkCanceled(o: Order)
      requires Valid() && !HasId(abs.Resting(), o.id)
      modifies o`status
      ensures Valid() && o.View() == old(o.View()).(status := Canceled)
    {
      hide BookOk, IndexOk, TotalQty, AtPrice;
      ghost var at := ByPrice(levels.Keys, abs.Resting());
      forall p, i | p in levels && 0 <= i < |levels[p].orders|
        ensures levels[p].orders[i] != o
      {
        Owns(p, i);
        AtPriceOnly(abs.Resting(), p);
        var k :| 0 <= k < |abs.Resting()| && abs.Resting()[k] == AtPrice(abs.Resting(), p)[i];
        assert abs.Resting()[k].id == levels[p].orders[i].id;
      }
      o.status := Canceled;
      forall p | p in levels
        ensures Holds(levels[p], at[p])
      {
        assert old(Holds(levels[p], at[p]));
      }
    }

    lemma HeldAt(at: map<int, seq<OrderVal>>, p: int, i: nat)
      requires LevelsHold(at) && p in levels && i < |levels[p].orders|
      ensures i < |at[p]| && levels[p].orders[i].View() == at[p][i]
    {
    }

    /** A current level has orders exactly when it has quantity. */
    lemma LiveLevel(l: PriceLevel)
      requires Valid() && Current(levels, l)
      ensures l.totalQty > 0 <==> l.orders != []
      ensures l.totalQty > 0 <==> AtPrice(abs.Resting(), l.price) != []
      ensures l.orders != [] ==> l.orders[0].View() == AtPrice(abs.Resting(), l.price)[0]
    {
      EmptyTotal(abs, l, l.price);
    }

    lemma LevelTotal(p: int)
      requires Valid() && p in levels
      ensures levels[p].totalQty == TotalQty(AtPrice(abs.Resting(), p)) >= 0 && levels[p].price == p
      ensures Open(abs.Resting())
    {
      EmptyTotal(abs, levels[p], p);
      RestingOk(abs);
    }

    lemma AllListed()
      requires Valid()
      ensures Open(abs.Resting()) && forall o :: o in abs.Resting() ==> o.price in levels
    {
    }

    lemma LevelSize(p: int)
      requires Valid() && p in levels
      ensures |levels[p].orders| == |AtPrice(abs.Resting(), p)|
    {
    }

    lemma LevelFacts()
      requires Valid()
      ensures forall p :: p in levels ==> levels[p].price == p && levels[p] in made
    {
    }

    lemma Owns(p: int, i: nat)
      requires Valid() && p in levels && i < |levels[p].orders|
      ensures levels[p] in made && levels[p].orders[i] in orders && levels[p].price == p
      ensures i < |AtPrice(abs.Resting(), p)| && levels[p].orders[i].View() == AtPrice(abs.Resting(), p)[i]
    {
    }

    method Splice(o: Order, i: nat, ghost at: map<int, seq<OrderVal>>)
      requires LevelsHold(at) && o.price in levels && i < |levels[o.price].orders| && levels[o.price].orders[i] == o
      requires Open(at[o.price])
      modifies levels[o.price]
      ensures var q := at[o.price][..i] + at[o.price][i + 1..];
        && LevelsHold(at[o.price := q])
        && levels[o.price].orders == old(levels[o.price].orders)[..i] + old(levels[o.price].orders)[i + 1..]
        && (q == [] <==> levels[o.price].orders == []) && (q == [] <==> levels[o.price].totalQty <= 0)
    {
      hide TotalQty, Open, Holds;
      var l := levels[o.price];
      ghost var q := at[o.price];
      HeldAt(at, o.price, i);
      HoldsFacts(l, q);
      ghost var q' := q[..i] + q[i + 1..];
      TotalDrop(q, i);
      SpliceLevel(l, i, q, q');
      HoldsFacts(l, q');
      forall p | p in levels && p != o.price
        ensures Holds(levels[p], at[p])
      {
        assert levels[p] != l && old(Holds(levels[p], at[p]));
      }
    }

    method Unlink(p: int, ghost at: map<int, seq<OrderVal>>)
      requires LevelsHold(at) && p in levels
      modifies this`levels
      ensures levels == old(levels) - {p} && levels.Keys == old(levels.Keys) - {p} && LevelsHold(at - {p})
    {
      levels := levels - {p};
    }

    // ---- fill ----

    /**
     One fill of the level's first order: the order and the level's total shrink, and an
     order filled completely leaves the front of the level.
     */
    method FillFront(level: PriceLevel, maker: Order, n: int)
      requires Valid() && abs.queue != [] && 0 < n <= abs.queue[0].remaining
      requires Current(levels, level) && level.price == abs.queue[0].price
      requires level.orders != [] && level.orders[0] == maker
      modifies this`abs, level
      modifies maker`remaining, maker`filled, maker`avg, maker`status
      ensures Valid() && abs == FillHead(old(abs), n)
      ensures maker in orders && maker.View() == Made(old(maker.View()), n)
      ensures old(maker.View()) == old(abs.queue[0])
      ensures forall i :: 0 <= i < |level.orders| ==> level.orders[i] in old(level.orders)
    {
      hide BookOk, IndexOk, FillHead, AtPrice, OnlyAt, ByPrice, LevelsHold, Open, UniqueIds, AfterFill;
      ghost var at := ByPrice(levels.Keys, abs.Resting());
      ghost var r, p := abs.Resting(), level.price;
      ListedAt(levels.Keys, abs, p);
      AllPriced(levels.Keys, r);
      FilledByPrice(levels, hp, abs, n);
      ghost var b := FillHead(abs, n);
      ByPriceChanged(levels.Keys, r, b.Resting(), p, AfterFill(at[p], n));
      HeldAt(at, p, 0);
      FillLevel(level, maker, n, at);
      abs := b;
    }

    /** An order of one level is in no other. */
    lemma OnlyInLevel(at: map<int, seq<OrderVal>>, level: PriceLevel, i: nat)
      requires LevelsHold(at) && Current(levels, level) && Priced(at) && i < |level.orders|
      ensures forall q :: q in levels && q != level.price ==> level.orders[i] !in levels[q].orders
    {
    }

    method FillLevel(level: PriceLevel, maker: Order, n: int, ghost at: map<int, seq<OrderVal>>)
      requires LevelsHold(at) && Current(levels, level) && Priced(at)
      requires level.orders != [] && level.orders[0] == maker
      requires at[level.price] != [] && 0 < n <= at[level.price][0].remaining && UniqueIds(at[level.price])
      modifies level
      modifies maker`remaining, maker`filled, maker`avg, maker`status
      ensures LevelsHold(at[level.price := AfterFill(at[level.price], n)])
      ensures maker in orders && maker.View() == Made(at[level.price][0], n)
      ensures forall i :: 0 <= i < |level.orders| ==> level.orders[i] in old(level.orders)
    {
      hide Holds, AfterFill, UniqueIds;
      ghost var p := level.price;
      HeldAt(at, p, 0);
      OnlyInLevel(at, level, 0);
      FillFirst(level, maker, n, at[p]);
      forall q | q in levels && q != p
        ensures Holds(levels[q], at[q])
      {
        assert levels[q] != level && old(Holds(levels[q], at[q]));
      }
    }
  }

  /** Every listed order carries the price it is listed under. */
  ghost predicate Priced(at: map<int, seq<OrderVal>>) {
    forall p, i :: p in at && 0 <= i < |at[p]| ==> at[p][i].price == p
  }

  lemma AllPriced(ps: set<int>, r: seq<OrderVal>)
    ensures Priced(ByPrice(ps, r))
  {
    forall p | p in ps {
      AtPriceOnly(r, p);
    }
  }

  lemma FilledByPrice(levels: map<int, PriceLevel>, hp: seq<PriceLevel>, b: Book, n: int)
    requires BookOk(b) && IndexOk(levels, hp, b) && b.queue != [] && 0 < n <= b.queue[0].remaining
    ensures var p := b.queue[0].price;
      var b' := FillHead(b, n);
      && AtPrice(b.Resting(), p) != [] && AtPrice(b.Resting(), p)[0] == b.queue[0]
      && BookOk(b') && b'.isBid == b.isBid
      && OnlyAt(b.Resting(), b'.Resting(), p, AfterFill(AtPrice(b.Resting(), p), n))
      && IndexOk(levels, hp, b')
  {
    var p, b' := b.queue[0].price, FillHead(b, n);
    HeadOfPrice(b);
    FillHeadOk(b, n);
    forall x {
      AfterFillAtPrice(b, n, x);
    }
    AtPriceConcat(b'.queue, b'.hidden, p);
    AtPriceNone(b'.hidden, p);
    assert b.queue[0] in b.queue;
    AfterFillKeeps(b.isBid, b.queue, n);
    FilledIndex(levels, hp, b, b', p, AfterFill(AtPrice(b.Resting(), p), n));
  }

  lemma FilledIndex(levels: map<int, PriceLevel>, hp: seq<PriceLevel>, b: Book, b': Book, p: int, q: seq<OrderVal>)
    requires IndexOk(levels, hp, b) && p in levels && p !in b.buried && p !in b.stale
    requires b'.isBid == b.isBid && b'.buried == b.buried && b'.stale == if q == [] then b.stale + {p} else b.stale
    requires OnlyAt(b.Resting(), b'.Resting(), p, q)
    requires forall o :: o in b'.Resting() ==> exists o' :: o' in b.Resting() && o'.price == o.price
    ensures IndexOk(levels, hp, b')
  {
  }

  /** Fill the first order of one level. */
  method FillFirst(level: PriceLevel, maker: Order, n: int, ghost q: seq<OrderVal>)
    requires level.orders != [] && level.orders[0] == maker
    requires Holds(level, q) && q != [] && UniqueIds(q) && 0 < n <= q[0].remaining && q[0].price == level.price
    modifies level
    modifies maker`remaining, maker`filled, maker`avg, maker`status
    ensures Holds(level, AfterFill(q, n))
    ensures maker.View() == Made(q[0], n)
    ensures forall i :: 0 <= i < |level.orders| ==> level.orders[i] in old(level.orders)
  {
    hide AtPrice, Open, WeightedAvg;
    assert maker.View() == q[0];
    forall i | 0 < i < |q|
      ensures level.orders[i] != maker
    {
      assert level.orders[i].View() == q[i] && q[i].id != q[0].id;
    }
    maker.avg := WeightedAvg(maker.avg, maker.filled, level.price, n);
    maker.remaining := maker.remaining - n;
    maker.filled := maker.filled + n;
    level.totalQty := level.totalQty - n;
    TotalAfterFill(q, n);
    if maker.remaining == 0 {
      maker.status := Filled;
      level.PopFront();
    } else {
      maker.status := PartiallyFilled;
    }
  }

  lemma TotalAfterFill(q: seq<OrderVal>, n: int)
    requires q != []
    ensures TotalQty(AfterFill(q, n)) == TotalQty(q) - n
  {
  }

  lemma HoldsFacts(l: PriceLevel, q: seq<OrderVal>)
    requires Holds(l, q)
    ensures |l.orders| == |q| && l.totalQty == TotalQty(q) && (q == [] ==> l.totalQty == 0)
  {
  }

  /** Splice the `i`-th order out of one level. */
  method SpliceLevel(l: PriceLevel, i: nat, ghost q: seq<OrderVal>, ghost q': seq<OrderVal>)
    requires Holds(l, q) && i < |q| && q' == q[..i] + q[i + 1..]
    requires TotalQty(q') == TotalQty(q) - q[i].remaining
    modifies l
    ensures Holds(l, q')
    ensures l.orders == old(l.orders)[..i] + old(l.orders)[i + 1..]
  {
    hide TotalQty;
    var gone := l.orders[i].remaining;
    assert l.orders[i].View() == q[i];
    l.orders := l.orders[..i] + l.orders[i + 1..];
    l.totalQty := l.totalQty - gone;
  }

  lemma ByPriceGrows(ps: set<int>, r: seq<OrderVal>, p: int)
    requires AtPrice(r, p) == []
    ensures ByPrice(ps + {p}, r) == ByPrice(ps, r)[p := []]
  {
  }

  lemma AddedByPrice(ps: set<int>, b: Book, o: OrderVal)
    requires BookOk(b) && o.price in ps
    ensures var at := ByPrice(ps, b.Resting());
      ByPrice(ps, AddOrder(b, o).Resting()) == at[o.price := at[o.price] + [o]]
  {
    var q := AtPrice(b.Resting(), o.price) + [o];
    forall p
      ensures AtPrice(AddOrder(b, o).Resting(), p) == if p == o.price then q else AtPrice(b.Resting(), p)
    {
      AddAtPrice(b, o, p);
    }
    ByPriceChanged(ps, b.Resting(), AddOrder(b, o).Resting(), o.price, q);
  }

  lemma NoneAtNewPrice(levels: map<int, PriceLevel>, hp: seq<PriceLevel>, b: Book, p: int)
    requires IndexOk(levels, hp, b) && p !in levels
    ensures AtPrice(b.Resting(), p) == []
  {
    AtPriceNone(b.Resting(), p);
  }

  lemma TotalDrop(q: seq<OrderVal>, i: nat)
    requires i < |q| && Open(q)
    ensures var q' := q[..i] + q[i + 1..];
      Open(q') && TotalQty(q') == TotalQty(q) - q[i].remaining && TotalQty(q') >= |q'|
  {
    var q' := q[..i] + q[i + 1..];
    assert q == q[..i] + ([q[i]] + q[i + 1..]);
    TotalConcat(q[..i], [q[i]] + q[i + 1..]);
    TotalConcat([q[i]], q[i + 1..]);
    TotalOne(q[i]);
    TotalConcat(q[..i], q[i + 1..]);
    assert Open(q') by {
      forall j | 0 <= j < |q'|
        ensures q'[j] == q[if j < i then j else j + 1]
      {
      }
    }
    TotalQtyPositive(q');
  }

  /** The orders listed at a price are open, distinct, and all at that price. */
  lemma ListedAt(ps: set<int>, b: Book, p: int)
    requires BookOk(b) && p in ps
    ensures var q := ByPrice(ps, b.Resting())[p];
      && ByPrice(ps, b.Resting()).Keys == ps && q == AtPrice(b.Resting(), p)
      && Open(q) && UniqueIds(q) && forall i :: 0 <= i < |q| ==> q[i].price == p
  {
    AtPriceOpen(b.Resting(), p);
    AtPriceUnique(b.Resting(), p);
    AtPriceOnly(b.Resting(), p);
  }

  /** Only the orders of price `p` change from `r` to `r'`, to `q`. */
  ghost predicate OnlyAt(r: seq<OrderVal>, r': seq<OrderVal>, p: int, q: seq<OrderVal>) {
    forall x :: AtPrice(r', x) == if x == p then q else AtPrice(r, x)
  }

  lemma ByPriceChanged(ps: set<int>, r: seq<OrderVal>, r': seq<OrderVal>, p: int, q: seq<OrderVal>)
    requires p in ps && OnlyAt(r, r', p, q)
    ensures ByPrice(ps, r') == ByPrice(ps, r)[p := q]
    ensures ByPrice(ps - {p}, r') == ByPrice(ps, r) - {p}
  {
  }

  /** Taking out the `i`-th order of a price: what remains, listed and indexed. */
  lemma RemovedByPrice(levels: map<int, PriceLevel>, hp: seq<PriceLevel>, b: Book, p: int, i: nat)
    requires BookOk(b) && IndexOk(levels, hp, b) && p in levels
    requires i < |AtPrice(b.Resting(), p)|
    ensures var at := AtPrice(b.Resting(), p);
      var b' := RemoveOrder(b, at[i].id, p);
      var q := at[..i] + at[i + 1..];
      && BookOk(b') && b'.isBid == b.isBid
      && OnlyAt(b.Resting(), b'.Resting(), p, q)
      && IndexOk(if q == [] then levels - {p} else levels, hp, b')
  {
    var at := AtPrice(b.Resting(), p);
    AtPriceOnly(b.Resting(), p);
    var k :| 0 <= k < |b.Resting()| && b.Resting()[k] == at[i];
    RemovedFacts(b, p, i, k);
    RemovedBuried(b, p, i, k);
    LiveNotStale(levels, hp, b, p);
    RemovedIndex(levels, hp, b, RemoveOrder(b, at[i].id, p), p, at[..i] + at[i + 1..]);
  }

  lemma LiveNotStale(levels: map<int, PriceLevel>, hp: seq<PriceLevel>, b: Book, p: int)
    requires BookOk(b) && IndexOk(levels, hp, b) && p in levels && AtPrice(b.Resting(), p) != []
    ensures p !in b.stale
  {
  }

  lemma RemovedFacts(b: Book, p: int, i: nat, k: nat)
    requires BookOk(b) && i < |AtPrice(b.Resting(), p)| && k < |b.Resting()|
    requires b.Resting()[k] == AtPrice(b.Resting(), p)[i] && b.Resting()[k].price == p
    ensures var q := AtPrice(b.Resting(), p);
      var b' := RemoveOrder(b, q[i].id, p);
      && BookOk(b') && b'.isBid == b.isBid
      && OnlyAt(b.Resting(), b'.Resting(), p, q[..i] + q[i + 1..])
      && (forall o :: o in b'.Resting() ==> o in b.Resting())
  {
    var q := AtPrice(b.Resting(), p);
    RemoveOk(b, k, q[i].id, p);
    forall x {
      RemovedAt(b, p, i, k, x);
    }
    SpliceMembers(b.Resting(), k);
  }

  lemma SpliceMembers(r: seq<OrderVal>, k: nat)
    requires k < |r|
    ensures forall o :: o in r[..k] + r[k + 1..] ==> o in r
  {
  }

  lemma RemovedAt(b: Book, p: int, i: nat, k: nat, x: int)
    requires BookOk(b) && i < |AtPrice(b.Resting(), p)| && k < |b.Resting()|
    requires b.Resting()[k] == AtPrice(b.Resting(), p)[i] && b.Resting()[k].price == p
    ensures var q := AtPrice(b.Resting(), p);
      AtPrice(RemoveOrder(b, q[i].id, p).Resting(), x) ==
        if x == p then q[..i] + q[i + 1..] else AtPrice(b.Resting(), x)
  {
    var q := AtPrice(b.Resting(), p);
    var j := RemoveAtPrice(b, k, q[i].id, p, x);
    AtPriceUnique(b.Resting(), p);
    assert q[j].id == q[i].id;
  }

  /** A removed order's price stays buried exactly while hidden orders remain there. */
  lemma RemovedBuried(b: Book, p: int, i: nat, k: nat)
    requires BookOk(b) && i < |AtPrice(b.Resting(), p)| && k < |b.Resting()|
    requires b.Resting()[k] == AtPrice(b.Resting(), p)[i] && b.Resting()[k].price == p
    ensures var q := AtPrice(b.Resting(), p);
      var b' := RemoveOrder(b, q[i].id, p);
      b'.stale == b.stale && b'.buried == if q[..i] + q[i + 1..] == [] then b.buried - {p} else b.buried
  {
    var q := AtPrice(b.Resting(), p);
    var b' := RemoveOrder(b, q[i].id, p);
    RemovedAt(b, p, i, k, p);
    if p in b.buried {
      AtPriceConcat(b'.queue, b'.hidden, p);
      AtPriceNone(b'.queue, p);
    }
  }

  lemma RemovedIndex(levels: map<int, PriceLevel>, hp: seq<PriceLevel>, b: Book, b': Book, p: int, q: seq<OrderVal>)
    requires IndexOk(levels, hp, b) && p in levels && p !in b.stale
    requires b'.isBid == b.isBid && b'.stale == b.stale && b'.buried == if q == [] then b.buried - {p} else b.buried
    requires OnlyAt(b.Resting(), b'.Resting(), p, q)
    requires forall o :: o in b'.Resting() ==> o in b.Resting()
    ensures IndexOk(if q == [] then levels - {p} else levels, hp, b')
  {
    AtPriceNone(b'.Resting(), p);
    var levels' := if q == [] then levels - {p} else levels;
    assert forall x :: x in levels' ==> x in levels && levels'[x] == levels[x];
  }

  lemma TotalOne(o: OrderVal)
    ensures TotalQty([o]) == o.remaining
  {
  }

  /** The order may come to rest in this book. */
  ghost predicate CanRest(b: Book, o: OrderVal) {
    o.remaining > 0 && o.side.Buy? == b.isBid && o.typ.Limit? && !HasId(b.Resting(), o.id)
  }

  lemma AddedPrices(b: Book, o: OrderVal)
    requires BookOk(b)
    ensures forall p :: (AtPrice(AddOrder(b, o).Resting(), p) ==
      AtPrice(b.Resting(), p) + (if p == o.price then [o] else []))
    ensures forall x :: x in AddOrder(b, o).Resting() ==> x == o || x in b.Resting()
  {
    forall p {
      AddAtPrice(b, o, p);
    }
    if o.price !in b.buried {
      var k := InsertSplits(b.isBid, b.queue, o);
      assert b.queue == b.queue[..k] + b.queue[k..];
    }
  }

  lemma NewLevelIndex(levels: map<int, PriceLevel>, hp: seq<PriceLevel>, b: Book, o: OrderVal, l: PriceLevel,
      hp': seq<PriceLevel>)
    requires BookOk(b) && IndexOk(levels, hp, b) && CanRest(b, o)
    requires o.price !in levels && l.price == o.price && l !in hp
    requires HeapOrdered(b.isBid, hp') && Distinct(hp')
    requires forall x :: x in hp' <==> x == l || x in hp
    requires forall p :: p in levels ==> levels[p] != l
    ensures IndexOk(levels[o.price := l], hp', AddOrder(b, o))
  {
    AddedPrices(b, o);
  }

  lemma OldLevelIndex(levels: map<int, PriceLevel>, hp: seq<PriceLevel>, b: Book, o: OrderVal)
    requires BookOk(b) && IndexOk(levels, hp, b) && CanRest(b, o) && o.price in levels
    ensures IndexOk(levels, hp, AddOrder(b, o))
  {
    AddedPrices(b, o);
  }
}
