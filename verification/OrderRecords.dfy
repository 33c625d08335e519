/** What every order records about itself, kept by every engine step of every run. */
module OrderRecords {
  import opened Domain
  import opened FixedPoint
  import opened Matching
  import opened Books
  import opened EngineModel
  import opened AveragePrice
  import Reference

  /**
   What was filled and what remains add up to the quantity, also for a market buy, whose
   quantity is zero; and a limit order's average never passes its limit.
   */
  ghost predicate Recorded(o: OrderVal) {
    && o.filled >= 0 && o.filled + o.remaining == o.qty
    && (o.typ.Limit? && o.filled > 0 ==> if o.side.Buy? then o.avg <= o.price else o.avg >= o.price)
  }

  ghost predicate AllRecorded(q: seq<OrderVal>) { forall v :: v in q ==> Recorded(v) }

  ghost predicate EngRecorded(e: Eng) { AllRecorded(e.bids.Resting()) && AllRecorded(e.asks.Resting()) }

  lemma MadeRecorded(m: OrderVal, n: int)
    requires Recorded(m) && 0 < n <= m.remaining
    ensures Recorded(Made(m, n))
  {
    if m.filled == 0 {
      AverageBetween(m.avg, 0, m.price, n, m.price, m.price);
    } else if m.side.Buy? {
      AverageBetween(m.avg, m.filled, m.price, n, Min(m.avg, m.price), if m.avg < m.price then m.price else m.avg);
    } else {
      AverageBetween(m.avg, m.filled, m.price, n, Min(m.avg, m.price), if m.avg < m.price then m.price else m.avg);
    }
  }

  /** A match records its fills truthfully on both sides. */
  lemma {:induction false} EatRecords(t: OrderVal, q: seq<OrderVal>, s: nat)
    requires Open(q) && AllRecorded(q) && Recorded(t)
    ensures var r := Eat(t, q, s);
      && Recorded(r.taker) && AllRecorded(r.rest)
      && forall i :: 0 <= i < |r.fills| ==> Recorded(r.fills[i].maker)
    decreases TotalQty(q)
  {
    if t.typ.Limit? {
      LimitKept(t, q, s);
    }
    EatConserves(t, q, s);
    EatMakers(t, q, s);
  }

  lemma {:induction false} EatMakers(t: OrderVal, q: seq<OrderVal>, s: nat)
    requires Open(q) && AllRecorded(q)
    ensures var r := Eat(t, q, s);
      AllRecorded(r.rest) && forall i :: 0 <= i < |r.fills| ==> Recorded(r.fills[i].maker)
    decreases TotalQty(q)
  {
    if CanEat(t, q) {
      hide Recorded, CanEat, FillQty, Made;
      var n := FillQty(t, q[0]);
      FillSize(t, q);
      AfterFillShrinks(q, n);
      assert Recorded(q[0]);
      MadeRecorded(q[0], n);
      FillRecords(q, n);
      EatMakers(Taken(t, q[0].price, n), AfterFill(q, n), s + 1);
    }
  }

  lemma FillRecords(q: seq<OrderVal>, n: int)
    requires q != [] && AllRecorded(q) && Recorded(Made(q[0], n))
    ensures AllRecorded(AfterFill(q, n))
  {
  }

  lemma AddRecords(b: Book, o: OrderVal)
    requires Sorted(b.isBid, b.queue) && AllRecorded(b.Resting()) && Recorded(o)
    ensures AllRecorded(AddOrder(b, o).Resting())
  {
    hide Recorded, Sorted;
    if o.price !in b.buried {
      var k := InsertSplits(b.isBid, b.queue, o);
    }
  }

  lemma MatchRecords(e: Eng, o: OrderVal)
    requires EngOk(e) && EngRecorded(e) && Recorded(o)
    ensures var r := MatchBook(o, e.BookOf(o.side.Opposite()), e.seqNo);
      && Recorded(r.taker) && AllRecorded(r.book.Resting())
      && forall i :: 0 <= i < |r.fills| ==> Recorded(r.fills[i].maker)
  {
    hide Recorded, MatchBook, Eat, Sorted, UniqueIds, Placed;
    var b := e.BookOf(o.side.Opposite());
    assert forall v :: v in b.queue ==> v in b.Resting();
    assert forall v :: v in b.hidden ==> v in b.Resting();
    MatchBookIsEat(o, b, e.seqNo);
    EatRecords(o, b.queue, e.seqNo);
  }

  lemma SubmitRecords(e: Eng, o: OrderVal)
    requires EngOk(e) && EngRecorded(e) && Submittable(o)
    ensures var (e', out) := Submit(e, o);
      && EngRecorded(e') && Recorded(out.order)
      && forall i :: 0 <= i < |out.fills| ==> Recorded(out.fills[i].maker)
  {
    hide MatchBook, AddOrder, AllRecorded;
    MatchRecords(e, o);
    var opp := e.BookOf(o.side.Opposite());
    var out := Submit(e, o).1;
    if Screen(o, e.Active(o.id), CrossQty(o, opp.Resting())).None? {
      var r := MatchBook(o, opp, e.seqNo);
      MatchBookFacts(o, opp, e.seqNo);
      AddRecords(e.BookOf(o.side), out.order);
    }
  }

  lemma RemoveRecords(b: Book, id: OrderId)
    requires BookOk(b) && HasId(b.Resting(), id) && AllRecorded(b.Resting())
    ensures AllRecorded(RemoveOrder(b, id, Find(b.Resting(), id).price).Resting())
    ensures Recorded(Find(b.Resting(), id))
  {
    hide Recorded, RemoveOrder;
    var i := FindRests(b, id);
    RemoveOk(b, i, id, Find(b.Resting(), id).price);
    hide BookOk;
    assert b.Resting()[i] in b.Resting();
  }

  lemma CancelRecords(e: Eng, id: OrderId)
    requires EngOk(e) && EngRecorded(e)
    ensures EngRecorded(Cancel(e, id).0)
    ensures Cancel(e, id).1.Some? ==> Recorded(Cancel(e, id).1.value)
  {
    hide AllRecorded, RemoveOrder;
    if HasId(e.bids.Resting(), id) {
      RemoveRecords(e.bids, id);
    } else if HasId(e.asks.Resting(), id) {
      RemoveRecords(e.asks, id);
    }
  }

  /** A reply shows only orders that record themselves truthfully. */
  ghost predicate ReplyRecorded(r: Reference.Reply) {
    match r
    case Submitted(out) => Recorded(out.order) && forall i :: 0 <= i < |out.fills| ==> Recorded(out.fills[i].maker)
    case CancelReply(o) => o.Some? ==> Recorded(o.value)
  }

  ghost predicate RunRecorded(e: Eng, ops: seq<Reference.Op>)
    requires EngOk(e) && forall i :: 0 <= i < |ops| ==> Reference.OpOk(ops[i])
    decreases |ops|
  {
    EngRecorded(e)
    && (ops != [] ==> ReplyRecorded(Reference.Step(e, ops[0]).1) && RunRecorded(Reference.Step(e, ops[0]).0, ops[1..]))
  }

  /** In every state of every run, and in every answer, orders record themselves truthfully. */
  lemma {:induction false} RunRecords(e: Eng, ops: seq<Reference.Op>)
    requires EngOk(e) && EngRecorded(e) && forall i :: 0 <= i < |ops| ==> Reference.OpOk(ops[i])
    ensures RunRecorded(e, ops)
    decreases |ops|
  {
    hide EngOk, Submit, Cancel, EngRecorded, Recorded;
    if ops != [] {
      match ops[0] {
        case SubmitOp(o) => SubmitRecords(e, o);
        case CancelOp(id) => CancelRecords(e, id);
      }
      assert forall i :: 0 <= i < |ops[1..]| ==> ops[1..][i] == ops[i + 1];
      RunRecords(Reference.Step(e, ops[0]).0, ops[1..]);
    }
  }
}
