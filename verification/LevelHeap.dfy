/**
 Orders, price levels, and the binary heap of price levels with its sift loops.
 */
module LevelHeap {
  import opened Domain
  import opened Matching

  /** An order object, shared by its owner and the engine. */
  class Order {
    const id: OrderId
    const user: string
    const side: Side
    const typ: OrderType
    const tif: TimeInForce
    const price: int
    const qty: int
    const amountQuote: int
    var remaining: int
    var remainingQuote: int
    var filled: int
    var avg: int
    var status: Status

    constructor (id: OrderId, user: string, side: Side, typ: OrderType, tif: TimeInForce,
                 price: int, qty: int, amountQuote: int)
      ensures View() == OrderVal(id, user, side, typ, tif, price, qty, amountQuote, qty, amountQuote, 0, 0, New)
    {
      this.id, this.user, this.side, this.typ, this.tif := id, user, side, typ, tif;
      this.price, this.qty, this.amountQuote := price, qty, amountQuote;
      remaining, remainingQuote, filled, avg, status := qty, amountQuote, 0, 0, New;
    }

    function View(): OrderVal
      reads this`remaining, this`remainingQuote, this`filled, this`avg, this`status
    {
      OrderVal(id, user, side, typ, tif, price, qty, amountQuote, remaining, remainingQuote, filled, avg, status)
    }
  }

  /** All orders resting at one price, first come first served. */
  class PriceLevel {
    const price: int
    var totalQty: int
    var orders: seq<Order>

    constructor (price: int)
      ensures this.price == price && totalQty == 0 && orders == []
    {
      this.price, totalQty, orders := price, 0, [];
    }

    method Push(o: Order)
      modifies this
      ensures orders == old(orders) + [o] && totalQty == old(totalQty) + o.remaining
    {
      orders := orders + [o];
      totalQty := totalQty + o.remaining;
    }

    method PopFront()
      requires orders != []
      modifies this`orders
      ensures orders == old(orders)[1..]
    {
      orders := orders[1..];
    }
  }

  predicate Less(isBid: bool, h: seq<PriceLevel>, i: nat, j: nat)
    requires i < |h| && j < |h|
  {
    Better(isBid, h[i].price, h[j].price)
  }

  function Parent(i: nat): nat { if i == 0 then 0 else (i - 1) / 2 }

  /** No level sorts before its parent, except possibly at `hole`. */
  ghost predicate OrderedExcept(isBid: bool, h: seq<PriceLevel>, hole: nat) {
    forall i :: 0 < i < |h| && i != hole ==> !Less(isBid, h, i, Parent(i))
  }

  /** No child of `hole` sorts before the parent of `hole`. */
  ghost predicate Bridged(isBid: bool, h: seq<PriceLevel>, hole: nat) {
    forall i :: 0 < i < |h| && hole > 0 && Parent(i) == hole && hole < |h| ==> !Less(isBid, h, i, Parent(hole))
  }

  ghost predicate HeapOrdered(isBid: bool, h: seq<PriceLevel>) {
    forall i :: 0 < i < |h| ==> !Less(isBid, h, i, Parent(i))
  }

  ghost predicate Distinct(h: seq<PriceLevel>) {
    forall i, j :: 0 <= i < j < |h| ==> h[i] != h[j]
  }

  /** `h` rearranges `h0`. */
  ghost predicate Rearranges(h: seq<PriceLevel>, h0: seq<PriceLevel>) {
    |h| == |h0| && (forall l :: l in h ==> l in h0) && (forall l :: l in h0 ==> l in h)
    && (Distinct(h0) ==> Distinct(h))
  }

  function Swap(h: seq<PriceLevel>, i: nat, j: nat): seq<PriceLevel>
    requires i < |h| && j < |h|
  {
    h[i := h[j]][j := h[i]]
  }

  lemma SwapRearranges(h: seq<PriceLevel>, i: nat, j: nat)
    requires i < |h| && j < |h|
    ensures Rearranges(Swap(h, i, j), h)
  {
    var h' := Swap(h, i, j);
    assert h'[i] == h[j] && h'[j] == h[i] && forall k :: 0 <= k < |h| && k != i && k != j ==> h'[k] == h[k];
    forall l | l in h
      ensures l in h'
    {
      var k :| 0 <= k < |h| && h[k] == l;
      assert h'[if k == i then j else if k == j then i else k] == l;
    }
  }

  /** The root of an ordered heap is extremal. */
  lemma {:induction false} RootFirst(isBid: bool, h: seq<PriceLevel>, i: nat)
    requires HeapOrdered(isBid, h) && i < |h|
    ensures !Less(isBid, h, i, 0)
  {
    if i > 0 {
      RootFirst(isBid, h, Parent(i));
      assert !Less(isBid, h, i, Parent(i));
    }
  }

  method SiftUp(isBid: bool, h0: seq<PriceLevel>, j0: nat) returns (h: seq<PriceLevel>)
    requires j0 < |h0| && OrderedExcept(isBid, h0, j0) && Bridged(isBid, h0, j0)
    ensures HeapOrdered(isBid, h) && Rearranges(h, h0)
  {
    h := h0;
    var j := j0;
    while true
      invariant 0 <= j < |h| && Rearranges(h, h0)
      invariant OrderedExcept(isBid, h, j) && Bridged(isBid, h, j)
      decreases j
    {
      var i := Parent(j);
      if i == j || !Less(isBid, h, j, i) {
        break;
      }
      SwapRearranges(h, i, j);
      ghost var before := h;
      h := Swap(h, i, j);
      SiftUpStep(isBid, before, j);
      j := i;
    }
  }

  lemma SiftUpStep(isBid: bool, h: seq<PriceLevel>, j: nat)
    requires 0 < j < |h| && OrderedExcept(isBid, h, j) && Bridged(isBid, h, j)
    requires Less(isBid, h, j, Parent(j))
    ensures OrderedExcept(isBid, Swap(h, Parent(j), j), Parent(j))
    ensures Bridged(isBid, Swap(h, Parent(j), j), Parent(j))
  {
    var p := Parent(j);
    var h' := Swap(h, p, j);
    assert h'[p] == h[j] && h'[j] == h[p] && forall k :: 0 <= k < |h| && k != p && k != j ==> h'[k] == h[k];
    forall i | 0 < i < |h| && i != p
      ensures !Less(isBid, h', i, Parent(i))
    {
      if i != j && Parent(i) != j {
        assert !Less(isBid, h, i, Parent(i));
      }
    }
    forall i | 0 < i < |h| && p > 0 && Parent(i) == p
      ensures !Less(isBid, h', i, Parent(p))
    {
      assert !Less(isBid, h, p, Parent(p));
      if i != j {
        assert !Less(isBid, h, i, p);
      }
    }
  }

  lemma RearrangesTrans(h: seq<PriceLevel>, h1: seq<PriceLevel>, h0: seq<PriceLevel>)
    requires Rearranges(h, h1) && Rearranges(h1, h0)
    ensures Rearranges(h, h0)
  {
  }

  method SiftDown(isBid: bool, h0: seq<PriceLevel>) returns (h: seq<PriceLevel>)
    requires forall i :: 0 < i < |h0| && Parent(i) != 0 ==> !Less(isBid, h0, i, Parent(i))
    ensures HeapOrdered(isBid, h) && Rearranges(h, h0)
  {
    hide Swap, Distinct;
    h := h0;
    var i := 0;
    while true
      invariant 0 <= i <= |h| && Rearranges(h, h0)
      invariant forall k :: 0 < k < |h| && Parent(k) != i ==> !Less(isBid, h, k, Parent(k))
      invariant Bridged(isBid, h, i)
      decreases |h| - i
    {
      var j := 2 * i + 1;
      if j >= |h| {
        break;
      }
      if j + 1 < |h| && Less(isBid, h, j + 1, j) {
        j := j + 1;
      }
      if !Less(isBid, h, j, i) {
        break;
      }
      SiftDownStep(isBid, h, i, j);
      SwapRearranges(h, i, j);
      RearrangesTrans(Swap(h, i, j), h, h0);
      h := Swap(h, i, j);
      i := j;
    }
  }

  lemma SiftDownStep(isBid: bool, h: seq<PriceLevel>, i: nat, j: nat)
    requires i < |h| && j < |h| && j > 0 && Parent(j) == i
    requires forall k :: 0 < k < |h| && Parent(k) != i ==> !Less(isBid, h, k, Parent(k))
    requires forall k :: 0 < k < |h| && Parent(k) == i ==> !Less(isBid, h, k, j)
    requires Less(isBid, h, j, i) && Bridged(isBid, h, i)
    ensures forall k :: 0 < k < |h| && Parent(k) != j ==> !Less(isBid, Swap(h, i, j), k, Parent(k))
    ensures Bridged(isBid, Swap(h, i, j), j)
  {
  }

  /** `heap.Push`: append, then sift up. */
  method HeapPush(isBid: bool, h0: seq<PriceLevel>, x: PriceLevel) returns (h: seq<PriceLevel>)
    requires HeapOrdered(isBid, h0) && Distinct(h0) && x !in h0
    ensures HeapOrdered(isBid, h) && Distinct(h)
    ensures forall l :: l in h <==> l == x || l in h0
  {
    h := h0 + [x];
    ghost var grown := h;
    assert forall i :: 0 < i < |h0| ==> Less(isBid, h, i, Parent(i)) == Less(isBid, h0, i, Parent(i));
    h := SiftUp(isBid, h, |h| - 1);
  }

  /** `heap.Pop`: swap the root to the end, sift the new root down, drop the end. */
  method HeapPop(isBid: bool, h0: seq<PriceLevel>) returns (h: seq<PriceLevel>, x: PriceLevel)
    requires h0 != [] && HeapOrdered(isBid, h0) && Distinct(h0)
    ensures x == h0[0] && HeapOrdered(isBid, h) && Distinct(h) && |h| == |h0| - 1
    ensures forall l :: l in h <==> l in h0 && l != x
  {
    var n := |h0| - 1;
    ghost var swapped := Swap(h0, 0, n);
    SwapRearranges(h0, 0, n);
    h := Swap(h0, 0, n);
    x := h[n];
    h := h[..n];
    ghost var cut := h;
    assert forall i :: 0 < i < n ==> h[i] == h0[i];
    assert swapped == cut + [x];
    forall i | 0 < i < |h| && Parent(i) != 0
      ensures !Less(isBid, h, i, Parent(i))
    {
      assert !Less(isBid, h0, i, Parent(i));
    }
    h := SiftDown(isBid, h);
  }
}
