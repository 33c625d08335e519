/**
 The matching engine of one symbol as a state machine over values: submit and cancel,
 each one step, exactly as the event loop serialises them.
 */
module EngineModel {
  import opened Wrappers
  import opened Domain
  import opened Matching
  import opened Books

  datatype Eng = Eng(bids: Book, asks: Book, seqNo: nat) {
    function BookOf(side: Side): Book { if side.Buy? then bids else asks }

    function WithBook(side: Side, b: Book): Eng {
      if side.Buy? then this.(bids := b) else this.(asks := b)
    }

    predicate Active(id: OrderId) { HasId(bids.Resting(), id) || HasId(asks.Resting(), id) }

    /** Both heaps reach every resting order. */
    predicate Indexed() { bids.Indexed() && asks.Indexed() }
  }

  const EMPTY_ENGINE := Eng(EmptyBook(true), EmptyBook(false), 0)

  ghost predicate EngOk(e: Eng) {
    && BookOk(e.bids) && BookOk(e.asks) && e.bids.isBid && !e.asks.isBid
    && (forall id :: HasId(e.bids.Resting(), id) ==> !HasId(e.asks.Resting(), id))
  }

  /** An order as its owner hands it over: nothing filled, and something to fill if it may rest. */
  predicate Submittable(o: OrderVal) {
    && o.filled == 0 && o.avg == 0 && o.remaining == o.qty
    && (o.typ.Limit? ==> o.qty > 0)
    && (o.MarketBuy() ==> o.qty == 0 && o.remainingQuote == o.amountQuote)
  }

  // ---- submit ----

  datatype Outcome = Outcome(order: OrderVal, fills: seq<Fill>, reject: Option<Error>)

  /** Total resting quantity an order would accept. */
  function CrossQty(t: OrderVal, q: seq<OrderVal>): int {
    if q == [] then 0
    else (if Crosses(t, q[0].price) then q[0].remaining else 0) + CrossQty(t, q[1..])
  }

  function FinalStatus(t: OrderVal): Status {
    if t.typ.Market? then (if t.filled == 0 then Rejected else Filled)
    else if t.remaining == 0 then Filled
    else if t.tif.IOC? then Expired
    else if t.filled > 0 then PartiallyFilled
    else New
  }

  function FinalReject(t: OrderVal): Option<Error> {
    if t.typ.Market? && t.filled == 0 then Some(InsufficientQty) else None
  }

  predicate Rests(t: OrderVal) { t.status.New? || t.status.PartiallyFilled? }

  function Refuse(o: OrderVal, err: Error): Outcome {
    Outcome(o.(status := Rejected), [], Some(err))
  }

  function Finish(t: OrderVal, fills: seq<Fill>): Outcome {
    Outcome(t.(status := FinalStatus(t)), fills, FinalReject(t))
  }

  /** The checks made before matching. */
  function Screen(o: OrderVal, duplicate: bool, crossing: int): Option<Error> {
    if duplicate then Some(DuplicateOrder)
    else if o.typ.OtherType? then Some(InvalidOrder)
    else if o.typ.Limit? && o.tif.FOK? && crossing < o.remaining then Some(InsufficientQty)
    else None
  }

  function Submit(e: Eng, o: OrderVal): (Eng, Outcome)
    requires Open(e.BookOf(o.side.Opposite()).queue)
  {
    var opp := e.BookOf(o.side.Opposite());
    match Screen(o, e.Active(o.id), CrossQty(o, opp.Resting()))
    case Some(err) => (e, Refuse(o, err))
    case None =>
      var r := MatchBook(o, opp, e.seqNo);
      var out := Finish(r.taker, r.fills);
      var e1 := e.WithBook(o.side.Opposite(), r.book).(seqNo := e.seqNo + |r.fills|);
      if Rests(out.order)
      then (e1.WithBook(o.side, AddOrder(e1.BookOf(o.side), out.order)), out)
      else (e1, out)
  }

  // ---- cancel ----

  function Find(q: seq<OrderVal>, id: OrderId): OrderVal
    requires HasId(q, id)
  {
    if q[0].id == id then q[0]
    else
      assert q[1..] != [] && HasId(q[1..], id) by {
        var i :| 0 <= i < |q| && q[i].id == id;
        assert q[1..][i - 1].id == id;
      }
      Find(q[1..], id)
  }

  function Cancel(e: Eng, id: OrderId): (Eng, Option<OrderVal>) {
    if HasId(e.bids.Resting(), id) then
      var o := Find(e.bids.Resting(), id);
      (e.(bids := RemoveOrder(e.bids, id, o.price)), Some(o.(status := Canceled)))
    else if HasId(e.asks.Resting(), id) then
      var o := Find(e.asks.Resting(), id);
      (e.(asks := RemoveOrder(e.asks, id, o.price)), Some(o.(status := Canceled)))
    else (e, None)
  }

  // ---- every reachable state is well formed ----

  lemma EmptyOk()
    ensures EngOk(EMPTY_ENGINE) && EMPTY_ENGINE.Indexed()
  {
  }

  lemma BookOkIn(e: Eng, side: Side)
    requires EngOk(e)
    ensures BookOk(e.BookOf(side)) && e.BookOf(side).isBid == side.Buy? && Open(e.BookOf(side).queue)
  {
  }

  lemma AfterFillIds(r: seq<OrderVal>, n: int, id: OrderId)
    requires r != [] && HasId(AfterFill(r, n), id)
    ensures HasId(r, id)
  {
  }

  /** A match brings no order into the book. */
  lemma {:induction false} MatchBookIds(t: OrderVal, b: Book, s: nat, id: OrderId)
    requires BookOk(b) && HasId(MatchBook(t, b, s).book.Resting(), id)
    ensures HasId(b.Resting(), id)
    decreases TotalQty(b.queue)
  {
    if !Exhausted(t) {
      PoppedOk(b);
      var b1 := Popped(b);
      if CanEat(t, b1.queue) {
        var n := FillQty(t, b1.queue[0]);
        FillHeadOk(b1, n);
        MatchBookIds(Taken(t, b1.queue[0].price, n), FillHead(b1, n), s + 1, id);
        AfterFillIds(b1.Resting(), n, id);
      }
    }
  }

  lemma MatchBookFacts(t: OrderVal, b: Book, s: nat)
    requires BookOk(b)
    ensures var r := MatchBook(t, b, s);
      && SameOrder(t, r.taker)
      && r.taker.filled - t.filled == t.remaining - r.taker.remaining == FilledQty(r.fills)
      && (!t.MarketBuy() && t.remaining >= 0 ==> r.taker.remaining >= 0)
      && FilledQty(r.fills) >= |r.fills|
  {
    MatchBookIsEat(t, b, s);
    EatConserves(t, b.queue, s);
  }

  lemma {:induction false} FindRests(b: Book, id: OrderId) returns (i: nat)
    requires HasId(b.Resting(), id)
    ensures RestsAt(b, i, id, Find(b.Resting(), id).price) && b.Resting()[i] == Find(b.Resting(), id)
  {
    i := FindAt(b.Resting(), id);
  }

  lemma {:induction false} FindAt(q: seq<OrderVal>, id: OrderId) returns (i: nat)
    requires HasId(q, id)
    ensures i < |q| && q[i] == Find(q, id) && q[i].id == id
  {
    if q[0].id == id {
      i := 0;
    } else {
      var j :| 0 <= j < |q| && q[j].id == id;
      assert q[1..][j - 1].id == id;
      var i' := FindAt(q[1..], id);
      i := i' + 1;
    }
  }

  /** The engine after matching and before the order rests. */
  function AfterMatch(e: Eng, o: OrderVal): Eng
    requires Open(e.BookOf(o.side.Opposite()).queue)
  {
    var r := MatchBook(o, e.BookOf(o.side.Opposite()), e.seqNo);
    e.WithBook(o.side.Opposite(), r.book).(seqNo := e.seqNo + |r.fills|)
  }

  lemma AfterMatchOk(e: Eng, o: OrderVal)
    requires EngOk(e) && !e.Active(o.id)
    ensures EngOk(AfterMatch(e, o)) && !AfterMatch(e, o).Active(o.id)
    ensures AfterMatch(e, o).BookOf(o.side) == e.BookOf(o.side)
  {
    var opp := e.BookOf(o.side.Opposite());
    var r := MatchBook(o, opp, e.seqNo);
    MatchBookOk(o, opp, e.seqNo);
    MatchBookIsEat(o, opp, e.seqNo);
    forall id | HasId(r.book.Resting(), id)
      ensures HasId(opp.Resting(), id)
    {
      MatchBookIds(o, opp, e.seqNo, id);
    }
  }

  lemma InsertedIds(r: seq<OrderVal>, k: nat, o: OrderVal, id: OrderId)
    requires k <= |r|
    ensures HasId(r[..k] + [o] + r[k..], id) <==> HasId(r, id) || id == o.id
  {
    var r' := r[..k] + [o] + r[k..];
    assert r'[k] == o;
    if HasId(r, id) {
      var i :| 0 <= i < |r| && r[i].id == id;
      assert r'[if i < k then i else i + 1] == r[i];
    }
    if HasId(r', id) && id != o.id {
      var i :| 0 <= i < |r'| && r'[i].id == id;
      assert r'[i] == r[if i < k then i else i - 1];
    }
  }

  /** Adding an order makes exactly its own id active. */
  lemma AddIds(b: Book, o: OrderVal, id: OrderId)
    requires Sorted(b.isBid, b.queue)
    ensures HasId(AddOrder(b, o).Resting(), id) <==> HasId(b.Resting(), id) || id == o.id
  {
    hide HasId, Sorted, Insert;
    var r, r' := b.Resting(), AddOrder(b, o).Resting();
    var k := |r|;
    if o.price !in b.buried {
      k := InsertSplits(b.isBid, b.queue, o);
    }
    assert r' == r[..k] + [o] + r[k..];
    InsertedIds(r, k, o, id);
  }

  /** Adding an order adds it and nothing else. */
  lemma AddMembers(b: Book, o: OrderVal)
    requires Sorted(b.isBid, b.queue)
    ensures forall v :: v in AddOrder(b, o).Resting() <==> v in b.Resting() || v == o
  {
    if o.price !in b.buried {
      var k := InsertSplits(b.isBid, b.queue, o);
    }
  }

  lemma SubmitOk(e: Eng, o: OrderVal)
    requires EngOk(e) && Submittable(o)
    ensures EngOk(Submit(e, o).0)
  {
    hide MatchBook, AddOrder;
    var opp := e.BookOf(o.side.Opposite());
    if Screen(o, e.Active(o.id), CrossQty(o, opp.Resting())).None? {
      AfterMatchOk(e, o);
      MatchBookFacts(o, opp, e.seqNo);
      var r := MatchBook(o, opp, e.seqNo);
      var out := Finish(r.taker, r.fills);
      if Rests(out.order) {
        RestOk(AfterMatch(e, o), out.order);
      }
    }
  }

  lemma RestOk(e: Eng, o: OrderVal)
    requires EngOk(e) && !e.Active(o.id) && o.remaining > 0 && o.typ.Limit?
    ensures EngOk(e.WithBook(o.side, AddOrder(e.BookOf(o.side), o)))
  {
    AddOk(e.BookOf(o.side), o);
    hide AddOrder;
    forall id {
      AddIds(e.BookOf(o.side), o, id);
    }
  }

  lemma DropIds(r: seq<OrderVal>, i: nat, x: OrderId)
    requires i < |r| && UniqueIds(r)
    ensures HasId(r[..i] + r[i + 1..], x) <==> HasId(r, x) && x != r[i].id
  {
    var r' := r[..i] + r[i + 1..];
    if HasId(r, x) && x != r[i].id {
      var j :| 0 <= j < |r| && r[j].id == x;
      assert r'[if j < i then j else j - 1] == r[j];
    }
    if HasId(r', x) {
      var j :| 0 <= j < |r'| && r'[j].id == x;
      assert r'[j] == r[if j < i then j else j + 1];
    }
  }

  lemma RemoveIds(b: Book, id: OrderId)
    requires BookOk(b) && HasId(b.Resting(), id)
    ensures BookOk(RemoveOrder(b, id, Find(b.Resting(), id).price))
    ensures forall x :: HasId(RemoveOrder(b, id, Find(b.Resting(), id).price).Resting(), x) <==>
      HasId(b.Resting(), x) && x != id
  {
    var i := FindRests(b, id);
    RemoveOk(b, i, id, Find(b.Resting(), id).price);
    forall x {
      DropIds(b.Resting(), i, x);
    }
  }

  /** A cancel succeeds exactly for active orders, and afterwards only that order is gone. */
  lemma CancelOk(e: Eng, id: OrderId)
    requires EngOk(e)
    ensures EngOk(Cancel(e, id).0)
    ensures Cancel(e, id).1.Some? <==> e.Active(id)
    ensures forall x :: Cancel(e, id).0.Active(x) <==> e.Active(x) && x != id
  {
    if HasId(e.bids.Resting(), id) {
      RemoveIds(e.bids, id);
    } else if HasId(e.asks.Resting(), id) {
      RemoveIds(e.asks, id);
    }
  }
}
