/**
 The reference engine: two lists sorted by price and arrival, nothing else. The engine
 refines it exactly as long as no order comes to rest at a buried price.
 */
module Reference {
  import opened Wrappers
  import opened Domain
  import opened FixedPoint
  import opened Matching
  import opened Books
  import opened EngineModel

  datatype Ref = Ref(bids: seq<OrderVal>, asks: seq<OrderVal>, seqNo: nat) {
    function ListOf(side: Side): seq<OrderVal> { if side.Buy? then bids else asks }

    function WithList(side: Side, q: seq<OrderVal>): Ref {
      if side.Buy? then this.(bids := q) else this.(asks := q)
    }
  }

  ghost predicate RefOk(r: Ref) {
    && Sorted(true, r.bids) && Restable(true, r.bids) && UniqueIds(r.bids)
    && Sorted(false, r.asks) && Restable(false, r.asks) && UniqueIds(r.asks)
  }

  function RefSubmit(r: Ref, o: OrderVal): (Ref, Outcome)
    requires Open(r.ListOf(o.side.Opposite()))
  {
    var opp := r.ListOf(o.side.Opposite());
    match Screen(o, HasId(r.bids, o.id) || HasId(r.asks, o.id), CrossQty(o, opp))
    case Some(err) => (r, Refuse(o, err))
    case None =>
      var m := Eat(o, opp, r.seqNo);
      var out := Finish(m.taker, m.fills);
      var r1 := r.WithList(o.side.Opposite(), m.rest).(seqNo := r.seqNo + |m.fills|);
      if Rests(out.order)
      then (r1.WithList(o.side, Insert(o.side.Buy?, r1.ListOf(o.side), out.order)), out)
      else (r1, out)
  }

  function RefCancel(r: Ref, id: OrderId): (Ref, Option<OrderVal>) {
    if HasId(r.bids, id) then
      (r.(bids := Without(r.bids, id)), Some(Find(r.bids, id).(status := Canceled)))
    else if HasId(r.asks, id) then
      (r.(asks := Without(r.asks, id)), Some(Find(r.asks, id).(status := Canceled)))
    else (r, None)
  }

  // ---- the refinement relation ----

  ghost predicate Matches(e: Eng, r: Ref) {
    && EngOk(e) && e.Indexed()
    && e.bids.queue == r.bids && e.asks.queue == r.asks && e.seqNo == r.seqNo
  }

  lemma IndexedResting(b: Book)
    requires b.Indexed()
    ensures b.Resting() == b.queue
  {
  }

  // ---- orders that get lost ----

  /**
   The order would come to rest at a price whose level the heap has lost: it may rest, the
   resting orders that it crosses cannot fill it, and its own price is a buried one.
   */
  ghost predicate Buries(e: Eng, o: OrderVal) {
    && o.typ.Limit? && !o.tif.IOC? && !o.tif.FOK? && !e.Active(o.id)
    && CrossQty(o, e.BookOf(o.side.Opposite()).queue) < o.qty
    && o.price in e.BookOf(o.side).buried
  }

  /** A limit order takes exactly what it can: all crossing quantity, or all it needs. */
  lemma {:induction false} EatTakesCrossing(t: OrderVal, q: seq<OrderVal>, s: nat)
    requires Sorted(t.side.Opposite().Buy?, q) && Restable(t.side.Opposite().Buy?, q)
    requires t.typ.Limit? && t.remaining >= 0
    ensures FilledQty(Eat(t, q, s).fills) == Min(t.remaining, CrossQty(t, q))
    decreases TotalQty(q)
  {
    if CanEat(t, q) {
      var n := FillQty(t, q[0]);
      var t', q' := Taken(t, q[0].price, n), AfterFill(q, n);
      AfterFillShrinks(q, n);
      AfterFillKeeps(t.side.Opposite().Buy?, q, n);
      EatTakesCrossing(t', q', s + 1);
      CrossSame(t, t', q');
      if q[0].remaining != n {
        assert q'[1..] == q[1..];
      }
    } else if q != [] {
      CrossNonNegative(t, q);
      if !Crosses(t, q[0].price) {
        forall i | 0 <= i < |q|
          ensures !Crosses(t, q[i].price)
        {
          assert i > 0 ==> !Better(t.side.Opposite().Buy?, q[i].price, q[0].price);
        }
        CrossNone(t, q);
      }
    }
  }

  lemma {:induction false} CrossSame(t: OrderVal, t': OrderVal, q: seq<OrderVal>)
    requires SameOrder(t, t')
    ensures CrossQty(t, q) == CrossQty(t', q)
  {
    if q != [] {
      CrossSame(t, t', q[1..]);
    }
  }

  lemma {:induction false} CrossNonNegative(t: OrderVal, q: seq<OrderVal>)
    requires Open(q)
    ensures CrossQty(t, q) >= 0
  {
    if q != [] {
      CrossNonNegative(t, q[1..]);
    }
  }

  lemma {:induction false} CrossNone(t: OrderVal, q: seq<OrderVal>)
    requires forall i :: 0 <= i < |q| ==> !Crosses(t, q[i].price)
    ensures CrossQty(t, q) == 0
  {
    if q != [] {
      assert forall i :: 0 <= i < |q[1..]| ==> q[1..][i] == q[i + 1];
      CrossNone(t, q[1..]);
    }
  }

  lemma {:induction false} CrossConcat(t: OrderVal, q: seq<OrderVal>, h: seq<OrderVal>)
    ensures CrossQty(t, q + h) == CrossQty(t, q) + CrossQty(t, h)
  {
    if q == [] {
      assert q + h == h;
    } else {
      assert (q + h)[1..] == q[1..] + h;
      CrossConcat(t, q[1..], h);
    }
  }

  /** A submit that passes the checks is the match, its verdict, and the order coming to rest. */
  lemma SubmitMatched(e: Eng, o: OrderVal)
    requires Open(e.BookOf(o.side.Opposite()).queue)
    requires Screen(o, e.Active(o.id), CrossQty(o, e.BookOf(o.side.Opposite()).Resting())).None?
    ensures var r := MatchBook(o, e.BookOf(o.side.Opposite()), e.seqNo);
      var out := Finish(r.taker, r.fills);
      && Submit(e, o).1 == out
      && Submit(e, o).0.BookOf(o.side.Opposite()) == r.book
      && Submit(e, o).0.BookOf(o.side) ==
           if Rests(out.order) then AddOrder(e.BookOf(o.side), out.order) else e.BookOf(o.side)
  {
  }

  /** With every order reachable, exactly such an order is left at a buried price. */
  lemma BuriesExact(e: Eng, o: OrderVal)
    requires EngOk(e) && e.Indexed() && Submittable(o)
    ensures Buries(e, o) <==>
      Rests(Submit(e, o).1.order) && Submit(e, o).1.reject.None? && o.price in e.BookOf(o.side).buried
  {
    hide MatchBook, Eat;
    var opp := e.BookOf(o.side.Opposite());
    IndexedResting(opp);
    if Screen(o, e.Active(o.id), CrossQty(o, opp.Resting())).None? {
      SubmitMatched(e, o);
      MatchBookIsEat(o, opp, e.seqNo);
      EatConserves(o, opp.queue, e.seqNo);
      if o.typ.Limit? {
        EatTakesCrossing(o, opp.queue, e.seqNo);
      }
    }
  }

  /**
   One submit answers exactly as the reference does, and leaves the same resting orders
   unless it buries one.
   */
  lemma SubmitRefines(e: Eng, r: Ref, o: OrderVal)
    requires Matches(e, r) && Submittable(o)
    ensures Submit(e, o).1 == RefSubmit(r, o).1
    ensures !Buries(e, o) ==> Matches(Submit(e, o).0, RefSubmit(r, o).0)
  {
    hide MatchBook, Eat, Insert;
    IndexedResting(e.bids);
    IndexedResting(e.asks);
    SubmitOk(e, o);
    BuriesExact(e, o);
    var opp := e.BookOf(o.side.Opposite());
    if Screen(o, e.Active(o.id), CrossQty(o, opp.Resting())).None? {
      MatchBookIsEat(o, opp, e.seqNo);
      MatchBookFacts(o, opp, e.seqNo);
      AfterMatchOk(e, o);
    }
  }

  lemma CancelRefines(e: Eng, r: Ref, id: OrderId)
    requires Matches(e, r)
    ensures Cancel(e, id).1 == RefCancel(r, id).1
    ensures Matches(Cancel(e, id).0, RefCancel(r, id).0)
  {
    IndexedResting(e.bids);
    IndexedResting(e.asks);
    CancelOk(e, id);
    if HasId(e.bids.Resting(), id) {
      NotBuried(e.bids, id);
    } else if HasId(e.asks.Resting(), id) {
      NotBuried(e.asks, id);
    }
  }

  lemma NotBuried(b: Book, id: OrderId)
    requires BookOk(b) && b.Indexed() && HasId(b.queue, id)
    ensures Find(b.queue, id).price !in b.buried
  {
    var i := FindAt(b.queue, id);
    assert b.queue[i] in b.queue;
  }

  // ---- whole runs ----

  datatype Op = SubmitOp(order: OrderVal) | CancelOp(id: OrderId)

  datatype Reply = Submitted(out: Outcome) | CancelReply(order: Option<OrderVal>)

  predicate OpOk(op: Op) { op.SubmitOp? ==> Submittable(op.order) }

  function Step(e: Eng, op: Op): (r: (Eng, Reply))
    requires EngOk(e) && OpOk(op)
    ensures EngOk(r.0)
  {
    match op
    case SubmitOp(o) => SubmitOk(e, o); var (e', out) := Submit(e, o); (e', Submitted(out))
    case CancelOp(id) => CancelOk(e, id); var (e', c) := Cancel(e, id); (e', CancelReply(c))
  }

  function RefStep(r: Ref, op: Op): (Ref, Reply)
    requires Open(r.bids) && Open(r.asks)
  {
    match op
    case SubmitOp(o) => var (r', out) := RefSubmit(r, o); (r', Submitted(out))
    case CancelOp(id) => var (r', c) := RefCancel(r, id); (r', CancelReply(c))
  }

  ghost predicate BuriesOp(e: Eng, op: Op)
    requires EngOk(e)
  {
    op.SubmitOp? && Buries(e, op.order)
  }

  /** No step of the run rests an order at a buried price. */
  ghost predicate Clean(e: Eng, ops: seq<Op>)
    requires EngOk(e) && forall i :: 0 <= i < |ops| ==> OpOk(ops[i])
    decreases |ops|
  {
    ops == [] || (!BuriesOp(e, ops[0]) && Clean(Step(e, ops[0]).0, ops[1..]))
  }

  /** An order the engine and the reference would answer alike. */
  ghost predicate SameAnswer(e: Eng, r: Ref, x: OrderVal)
    requires EngOk(e) && Open(r.bids) && Open(r.asks)
  {
    Submittable(x) ==> Submit(e, x).1 == RefSubmit(r, x).1
  }

  /**
   Along the whole run both engines reply alike, and at every point any further order
   would still be answered alike: same trades, fills, statuses and refusals.
   */
  ghost predicate Faithful(e: Eng, r: Ref, ops: seq<Op>)
    requires EngOk(e) && forall i :: 0 <= i < |ops| ==> OpOk(ops[i])
    decreases |ops|
  {
    && Open(r.bids) && Open(r.asks)
    && (forall x :: SameAnswer(e, r, x))
    && (ops != [] ==>
          && Step(e, ops[0]).1 == RefStep(r, ops[0]).1
          && Faithful(Step(e, ops[0]).0, RefStep(r, ops[0]).0, ops[1..]))
  }

  lemma StepRefines(e: Eng, r: Ref, op: Op)
    requires Matches(e, r) && OpOk(op)
    ensures Step(e, op).1 == RefStep(r, op).1
    ensures !BuriesOp(e, op) ==> Matches(Step(e, op).0, RefStep(r, op).0)
  {
    match op
    case SubmitOp(o) => SubmitRefines(e, r, o);
    case CancelOp(id) => CancelRefines(e, r, id);
  }

  /**
   Refinement, and exactly when it holds: from any pair of matching states the engine is
   indistinguishable from the reference along a run if and only if no step of the run
   rests an order at a buried price.
   */
  lemma {:induction false} RefinementExact(e: Eng, r: Ref, ops: seq<Op>)
    requires Matches(e, r) && forall i :: 0 <= i < |ops| ==> OpOk(ops[i])
    ensures Faithful(e, r, ops) <==> Clean(e, ops)
    decreases |ops|
  {
    AllSameAnswer(e, r);
    if ops != [] {
      StepRefines(e, r, ops[0]);
      var e', r' := Step(e, ops[0]).0, RefStep(r, ops[0]).0;
      if BuriesOp(e, ops[0]) {
        BuryingBreaks(e, r, ops);
      } else {
        assert forall i :: 0 <= i < |ops[1..]| ==> ops[1..][i] == ops[i + 1];
        RefinementExact(e', r', ops[1..]);
      }
    }
  }

  lemma AllSameAnswer(e: Eng, r: Ref)
    requires Matches(e, r)
    ensures forall x :: SameAnswer(e, r, x)
  {
    forall x | Submittable(x)
      ensures SameAnswer(e, r, x)
    {
      SubmitRefines(e, r, x);
    }
  }

  lemma BuryingBreaks(e: Eng, r: Ref, ops: seq<Op>)
    requires Matches(e, r) && ops != [] && forall i :: 0 <= i < |ops| ==> OpOk(ops[i])
    requires BuriesOp(e, ops[0])
    ensures !Faithful(e, r, ops)
  {
    hide Submit, RefSubmit, EngOk, Buries, SameAnswer, Faithful, RefOk;
    MatchesRefOk(e, r);
    var x := BuryingShows(e, r, ops[0].order);
    assert forall i :: 0 <= i < |ops[1..]| ==> ops[1..][i] == ops[i + 1];
    if Faithful(e, r, ops) {
      FaithfulNext(e, r, ops, x);
    }
  }

  lemma MatchesRefOk(e: Eng, r: Ref)
    requires Matches(e, r)
    ensures RefOk(r)
  {
    assert forall i :: 0 <= i < |e.bids.queue| ==> e.bids.queue[i] == e.bids.Resting()[i];
    assert forall i :: 0 <= i < |e.asks.queue| ==> e.asks.queue[i] == e.asks.Resting()[i];
  }

  /** After the first submit of a faithful run every order is answered alike. */
  lemma FaithfulNext(e: Eng, r: Ref, ops: seq<Op>, x: OrderVal)
    requires EngOk(e) && ops != [] && (forall i :: 0 <= i < |ops| ==> OpOk(ops[i])) && Faithful(e, r, ops)
    requires ops[0].SubmitOp? && RefOk(r)
    ensures var o := ops[0].order;
      && EngOk(Submit(e, o).0) && Open(RefSubmit(r, o).0.bids) && Open(RefSubmit(r, o).0.asks)
      && SameAnswer(Submit(e, o).0, RefSubmit(r, o).0, x)
  {
    hide Submit, RefSubmit, SameAnswer, Sorted, UniqueIds, Placed;
    RefSubmitOk(r, ops[0].order);
    assert Step(e, ops[0]).0 == Submit(e, ops[0].order).0 && RefStep(r, ops[0]).0 == RefSubmit(r, ops[0].order).0;
    assert forall i :: 0 <= i < |ops[1..]| ==> ops[1..][i] == ops[i + 1];
  }

  // ---- a buried order shows ----

  lemma {:induction false} InsertTotal(isBid: bool, q: seq<OrderVal>, o: OrderVal)
    ensures TotalQty(Insert(isBid, q, o)) == TotalQty(q) + o.remaining
  {
    if q == [] || Better(isBid, o.price, q[0].price) {
      assert ([o] + q)[1..] == q;
    } else {
      InsertTotal(isBid, q[1..], o);
    }
  }

  /** The list's worst price, which every order of the list betters or meets. */
  lemma {:induction false} SweepPrice(isBid: bool, q: seq<OrderVal>) returns (p: int)
    requires q != []
    ensures exists i :: 0 <= i < |q| && q[i].price == p
    ensures forall i :: 0 <= i < |q| ==> if isBid then p <= q[i].price else p >= q[i].price
  {
    if |q| == 1 {
      p := q[0].price;
    } else {
      var p' := SweepPrice(isBid, q[1..]);
      var j :| 0 <= j < |q[1..]| && q[1..][j].price == p';
      assert q[j + 1].price == p';
      p := if Better(isBid, p', q[0].price) then q[0].price else p';
      forall i | 0 <= i < |q|
        ensures if isBid then p <= q[i].price else p >= q[i].price
      {
        assert i > 0 ==> q[i] == q[1..][i - 1];
      }
    }
  }

  lemma {:induction false} FreshId(q: seq<OrderVal>) returns (id: OrderId)
    ensures forall i :: 0 <= i < |q| ==> q[i].id < id
  {
    if q == [] {
      id := 0;
    } else {
      var id' := FreshId(q[1..]);
      id := if id' <= q[0].id then q[0].id + 1 else id';
      forall i | 0 <= i < |q|
        ensures q[i].id < id
      {
        assert i > 0 ==> q[i] == q[1..][i - 1];
      }
    }
  }

  /** An immediate-or-cancel limit order. */
  function Probe(id: OrderId, side: Side, price: int, qty: int): OrderVal {
    OrderVal(id, "probe", side, Limit, IOC, price, qty, 0, qty, 0, 0, 0, New)
  }

  /** A limit order that crosses the whole list and is no larger than it is filled. */
  lemma SweepFills(t: OrderVal, q: seq<OrderVal>, s: nat)
    requires Open(q) && t.typ.Limit? && 0 < t.remaining <= TotalQty(q)
    requires forall i :: 0 <= i < |q| ==> Crosses(t, q[i].price)
    ensures Eat(t, q, s).taker.remaining == 0
  {
    EatConserves(t, q, s);
    EatStops(t, q, s);
    EatPriority(t, q, s);
  }

  /** A list smaller than the order cannot fill it. */
  lemma SweepLeaves(t: OrderVal, q: seq<OrderVal>, s: nat)
    requires Open(q) && t.typ.Limit? && t.remaining > TotalQty(q)
    ensures Eat(t, q, s).taker.remaining > 0
  {
    EatConserves(t, q, s);
    TotalQtyPositive(Eat(t, q, s).rest);
  }

  /** After a submit buries an order, some further order is answered differently. */
  lemma BuryingShows(e: Eng, r: Ref, o: OrderVal) returns (x: OrderVal)
    requires Matches(e, r) && Submittable(o) && Buries(e, o)
    ensures EngOk(Submit(e, o).0) && RefOk(RefSubmit(r, o).0)
    ensures !SameAnswer(Submit(e, o).0, RefSubmit(r, o).0, x)
  {
    IndexedResting(e.bids);
    IndexedResting(e.asks);
    SubmitOk(e, o);
    RefSubmitOk(r, o);
    BuriedState(e, r, o);
    InsertTotal(o.side.Buy?, e.BookOf(o.side).queue, Submit(e, o).1.order);
    x := ShortQueueShows(Submit(e, o).0, RefSubmit(r, o).0, o.side);
  }

  /** A reference list with more quantity than the engine's queue fills some order further. */
  lemma ShortQueueShows(e: Eng, r: Ref, side: Side) returns (x: OrderVal)
    requires EngOk(e) && RefOk(r)
    requires TotalQty(e.BookOf(side).queue) < TotalQty(r.ListOf(side))
    ensures !SameAnswer(e, r, x)
  {
    hide EngOk, Sorted, UniqueIds, MatchBook, Eat, Submit, RefSubmit;
    var b, l := e.BookOf(side), r.ListOf(side);
    BookOkIn(e, side);
    TotalQtyPositive(b.queue);
    var p := SweepPrice(side.Buy?, l);
    var id := FreshId(e.bids.Resting() + e.asks.Resting() + r.bids + r.asks);
    FreshIsInactive(e, r, id);
    x := Probe(id, side.Opposite(), p, TotalQty(l));
    ProbeAnswers(e, r, x, side);
    SweepFills(x, l, r.seqNo);
    MatchBookIsEat(x, b, e.seqNo);
    SweepLeaves(x, b.queue, e.seqNo);
  }

  /** An immediate-or-cancel order with a new id is answered by the match alone. */
  lemma ProbeAnswers(e: Eng, r: Ref, x: OrderVal, side: Side)
    requires EngOk(e) && RefOk(r)
    requires x.side == side.Opposite() && x.typ.Limit? && x.tif.IOC?
    requires !e.Active(x.id) && !HasId(r.bids, x.id) && !HasId(r.asks, x.id)
    ensures Submit(e, x).1.order.remaining == MatchBook(x, e.BookOf(side), e.seqNo).taker.remaining
    ensures RefSubmit(r, x).1.order.remaining == Eat(x, r.ListOf(side), r.seqNo).taker.remaining
  {
    hide MatchBook, Eat, AddOrder, Insert, CrossQty, HasId, Sorted, UniqueIds;
    assert x.side.Opposite() == side;
  }

  lemma FreshIsInactive(e: Eng, r: Ref, id: OrderId)
    requires var all := e.bids.Resting() + e.asks.Resting() + r.bids + r.asks;
      forall i :: 0 <= i < |all| ==> all[i].id < id
    ensures !e.Active(id) && !HasId(r.bids, id) && !HasId(r.asks, id)
  {
    var all := e.bids.Resting() + e.asks.Resting() + r.bids + r.asks;
    var nb, na, rb := |e.bids.Resting()|, |e.asks.Resting()|, |r.bids|;
    assert forall i :: 0 <= i < nb ==> e.bids.Resting()[i] == all[i];
    assert forall i :: 0 <= i < na ==> e.asks.Resting()[i] == all[nb + i];
    assert forall i :: 0 <= i < rb ==> r.bids[i] == all[nb + na + i];
    assert forall i :: 0 <= i < |r.asks| ==> r.asks[i] == all[nb + na + rb + i];
  }

  /** What a burying submit leaves: the queue untouched, the order hidden, the reference ahead. */
  lemma BuriedState(e: Eng, r: Ref, o: OrderVal)
    requires Matches(e, r) && Submittable(o) && Buries(e, o)
    ensures var (e', out) := Submit(e, o); var r' := RefSubmit(r, o).0; var b := e.BookOf(o.side);
      && e'.BookOf(o.side).queue == b.queue
      && e'.BookOf(o.side).hidden == [out.order]
      && r'.ListOf(o.side) == Insert(o.side.Buy?, b.queue, out.order)
      && out.order.remaining > 0 && out.order.price == o.price
  {
    hide MatchBook, Eat, Insert, CrossQty, Sorted, UniqueIds;
    IndexedResting(e.bids);
    IndexedResting(e.asks);
    BuriesExact(e, o);
    var opp := e.BookOf(o.side.Opposite());
    MatchBookIsEat(o, opp, e.seqNo);
    MatchBookFacts(o, opp, e.seqNo);
    AfterMatchOk(e, o);
  }

  // ---- the reference stays well formed ----

  lemma RefSubmitOk(r: Ref, o: OrderVal)
    requires RefOk(r) && Submittable(o)
    ensures RefOk(RefSubmit(r, o).0)
  {
    var opp := r.ListOf(o.side.Opposite());
    if Screen(o, HasId(r.bids, o.id) || HasId(r.asks, o.id), CrossQty(o, opp)).None? {
      EatConserves(o, opp, r.seqNo);
      EatKeeps(o, opp, r.seqNo, o.side.Opposite().Buy?);
      var out := Finish(Eat(o, opp, r.seqNo).taker, Eat(o, opp, r.seqNo).fills);
      if Rests(out.order) {
        var l := r.ListOf(o.side);
        var k := InsertSplits(o.side.Buy?, l, out.order);
        InsertKeeps(o.side.Buy?, l, out.order, k);
        UniqueAdd(l, k, out.order);
      }
    }
  }

  lemma {:induction false} EatKeeps(t: OrderVal, q: seq<OrderVal>, s: nat, isBid: bool)
    requires Sorted(isBid, q) && Restable(isBid, q) && UniqueIds(q)
    ensures Sorted(isBid, Eat(t, q, s).rest) && Restable(isBid, Eat(t, q, s).rest) && UniqueIds(Eat(t, q, s).rest)
    decreases TotalQty(q)
  {
    if CanEat(t, q) {
      var n := FillQty(t, q[0]);
      AfterFillShrinks(q, n);
      AfterFillKeeps(isBid, q, n);
      AfterFillUnique(q, n);
      EatKeeps(Taken(t, q[0].price, n), AfterFill(q, n), s + 1, isBid);
    }
  }
}
