/**
 The recorded average of an order over its whole life: the fills it took when it came in and
 every fill it later made while resting.
 */
module OrderLives {
  import opened Domain
  import opened FixedPoint
  import opened Matching
  import opened Books
  import opened EngineModel
  import opened AveragePrice
  import opened Reference

  ghost predicate PricedWithin(fills: seq<Fill>, lo: int, hi: int) {
    forall i :: 0 <= i < |fills| ==> lo <= fills[i].trade.price <= hi
  }

  /**
   The order's record agrees with the fills of its life: their quantity; an average between
   their lowest and highest price, never above their exact mean and less than one unit a
   fill below it. What it made while resting, it made at its own price.
   */
  ghost predicate Lives(v: OrderVal, life: seq<Fill>) {
    && v.filled == FilledQty(life)
    && Tracks(v, Notional(life), |life|)
    && (forall lo, hi :: PricedWithin(life, lo, hi) ==> AvgWithin(v, lo, hi))
    && (forall i :: 0 <= i < |life| && life[i].trade.maker == v.id ==> life[i].trade.price == v.price)
  }

  /** The fills an order made while resting. */
  function MadeBy(fills: seq<Fill>, id: OrderId): seq<Fill> {
    if fills == [] then []
    else (if fills[0].trade.maker == id then [fills[0]] else []) + MadeBy(fills[1..], id)
  }

  lemma {:induction false} NotionalPush(fills: seq<Fill>, f: Fill)
    ensures Notional(fills + [f]) == Notional(fills) + f.trade.price * f.trade.qty
    ensures FilledQty(fills + [f]) == FilledQty(fills) + f.trade.qty
    decreases |fills|
  {
    if fills == [] {
      assert fills + [f] == [f];
    } else {
      assert (fills + [f])[1..] == fills[1..] + [f];
      NotionalPush(fills[1..], f);
    }
  }

  /** One more fill, taken or made. */
  lemma LivesOn(v: OrderVal, life: seq<Fill>, f: Fill, v': OrderVal)
    requires Lives(v, life) && f.trade.qty > 0
    requires f.trade.maker == v.id ==> f.trade.price == v.price
    requires v'.id == v.id && v'.price == v.price && v'.filled == v.filled + f.trade.qty
    requires v'.avg == WeightedAvg(v.avg, v.filled, f.trade.price, f.trade.qty)
    ensures Lives(v', life + [f])
  {
    var p, n := f.trade.price, f.trade.qty;
    NotionalPush(life, f);
    AverageStep(v.avg, v.filled, Notional(life), |life|, p, n);
    forall lo, hi | PricedWithin(life + [f], lo, hi)
      ensures AvgWithin(v', lo, hi)
    {
      assert (life + [f])[|life|] == f;
      assert forall i :: 0 <= i < |life| ==> life[i] == (life + [f])[i];
      assert PricedWithin(life, lo, hi);
      AverageBetween(v.avg, v.filled, p, n, lo, hi);
    }
  }

  // ---- one match ----

  /** The order with this id, if it is in the list, agrees with its life. */
  ghost predicate LivesIn(q: seq<OrderVal>, id: OrderId, life: seq<Fill>) {
    forall v :: v in q && v.id == id ==> Lives(v, life)
  }

  /** A match unfolded once. */
  lemma EatUnfolds(t: OrderVal, q: seq<OrderVal>, s: nat)
    requires Open(q)
    ensures !CanEat(t, q) ==> Eat(t, q, s) == Eaten(t, q, [])
    ensures CanEat(t, q) ==> q != [] && 0 < FillQty(t, q[0]) <= q[0].remaining
    ensures CanEat(t, q) ==> (
        var r, n := Eat(t, q, s), FillQty(t, q[0]);
        var t', q' := Taken(t, q[0].price, n), AfterFill(q, n);
        && Open(q') && 0 <= TotalQty(q') < TotalQty(q)
        && r.fills != [] && r.fills[0] == Fill(TradeOf(t, q[0], n, s + 1), Made(q[0], n))
        && r.fills[1..] == Eat(t', q', s + 1).fills
        && r.rest == Eat(t', q', s + 1).rest && r.taker == Eat(t', q', s + 1).taker)
  {
    if CanEat(t, q) {
      AfterFillShrinks(q, FillQty(t, q[0]));
    }
  }

  /** The taker's own life. */
  lemma {:induction false} EatTaken(t: OrderVal, q: seq<OrderVal>, s: nat, life: seq<Fill>)
    requires Open(q) && Lives(t, life) && !HasId(q, t.id)
    ensures Lives(Eat(t, q, s).taker, life + Eat(t, q, s).fills)
    decreases TotalQty(q)
  {
    hide Lives, Eat, CanEat, FillQty, TotalQty, Open, AfterFill, HasId;
    EatUnfolds(t, q, s);
    if !CanEat(t, q) {
      assert life + [] == life;
    } else {
      var n := FillQty(t, q[0]);
      var t', q' := Taken(t, q[0].price, n), AfterFill(q, n);
      var r := Eat(t, q, s);
      NotAhead(q, n, t.id);
      LivesOn(t, life, r.fills[0], t');
      EatTaken(t', q', s + 1, life + [r.fills[0]]);
      assert life + r.fills == life + [r.fills[0]] + r.fills[1..];
    }
  }

  lemma NotAhead(q: seq<OrderVal>, n: int, id: OrderId)
    requires q != [] && !HasId(q, id)
    ensures q[0].id != id && !HasId(AfterFill(q, n), id)
  {
    if HasId(AfterFill(q, n), id) {
      AfterFillIds(q, n, id);
    }
  }

  /** A maker's life. */
  lemma {:induction false} EatMade(t: OrderVal, q: seq<OrderVal>, s: nat, id: OrderId, life: seq<Fill>)
    requires Open(q) && UniqueIds(q) && LivesIn(q, id, life)
    ensures var r := Eat(t, q, s);
      && LivesIn(r.rest, id, life + MadeBy(r.fills, id))
      && MadeLives(r.fills, id, life)
    decreases TotalQty(q)
  {
    hide Lives, LivesIn, Eat, CanEat, FillQty, TotalQty, Open, AfterFill, UniqueIds;
    EatUnfolds(t, q, s);
    if !CanEat(t, q) {
      assert life + [] == life;
    } else {
      var n := FillQty(t, q[0]);
      var r := Eat(t, q, s);
      var f := r.fills[0];
      var life' := if q[0].id == id then life + [f] else life;
      AfterFillUnique(q, n);
      HeadMade(q, n, id, life, f);
      EatMade(Taken(t, q[0].price, n), AfterFill(q, n), s + 1, id, life');
      assert life + MadeBy(r.fills, id) == life' + MadeBy(r.fills[1..], id);
    }
  }

  /** Filling the head moves only the head's life on. */
  lemma HeadMade(q: seq<OrderVal>, n: int, id: OrderId, life: seq<Fill>, f: Fill)
    requires q != [] && UniqueIds(q) && LivesIn(q, id, life) && 0 < n <= q[0].remaining
    requires f.maker == Made(q[0], n) && f.trade.maker == q[0].id && f.trade.price == q[0].price && f.trade.qty == n
    ensures LivesIn(AfterFill(q, n), id, if q[0].id == id then life + [f] else life)
    ensures q[0].id == id ==> Lives(f.maker, life + [f])
  {
    hide Lives;
    assert q[0] in q;
    if q[0].id == id {
      LivesOn(q[0], life, f, Made(q[0], n));
      forall v | v in AfterFill(q, n) && v.id == id
        ensures v == Made(q[0], n)
      {
      }
    }
  }

  /** Every fill an order makes leaves it in agreement with its life up to then. */
  ghost predicate MadeLives(fills: seq<Fill>, id: OrderId, life: seq<Fill>)
  {
    fills != [] ==>
      var f := fills[0];
      && (f.trade.maker == id ==> Lives(f.maker, life + [f]))
      && MadeLives(fills[1..], id, if f.trade.maker == id then life + [f] else life)
  }

  // ---- whole runs ----

  /** The life of the order with this id after one more step; a submit of the id starts it anew. */
  function Lived(e: Eng, op: Op, id: OrderId, life: seq<Fill>): seq<Fill>
    requires EngOk(e) && OpOk(op)
  {
    match op
    case SubmitOp(o) =>
      var fills := Submit(e, o).1.fills;
      if o.id == id && !e.Active(id) then fills else life + MadeBy(fills, id)
    case CancelOp(_) => life
  }

  /** The resting order with this id, if there is one, agrees with its life. */
  ghost predicate EngLives(e: Eng, id: OrderId, life: seq<Fill>) {
    LivesIn(e.bids.Resting(), id, life) && LivesIn(e.asks.Resting(), id, life)
  }

  /** The order with this id agrees with its life wherever a reply shows it. */
  ghost predicate ReplyLives(e: Eng, op: Op, id: OrderId, life: seq<Fill>)
    requires EngOk(e) && OpOk(op)
  {
    match op
    case SubmitOp(o) =>
      var out := Submit(e, o).1;
      && (o.id == id && !e.Active(id) ==> Lives(out.order, out.fills))
      && (o.id != id ==> MadeLives(out.fills, id, life))
    case CancelOp(c) => c == id && Cancel(e, c).1.Some? ==> Lives(Cancel(e, c).1.value, life)
  }

  ghost predicate RunLives(e: Eng, ops: seq<Op>, id: OrderId, life: seq<Fill>)
    requires EngOk(e) && forall i :: 0 <= i < |ops| ==> OpOk(ops[i])
    decreases |ops|
  {
    EngLives(e, id, life)
    && (ops != [] ==>
          && ReplyLives(e, ops[0], id, life)
          && RunLives(Step(e, ops[0]).0, ops[1..], id, Lived(e, ops[0], id, life)))
  }

  /** A book whose orders are among others that live, lives. */
  lemma LivesAmong(q: seq<OrderVal>, q': seq<OrderVal>, id: OrderId, life: seq<Fill>)
    requires LivesIn(q, id, life) && forall v :: v in q' && v.id == id ==> v in q
    ensures LivesIn(q', id, life)
  {
  }

  lemma AddLives(b: Book, o: OrderVal, id: OrderId, life: seq<Fill>)
    requires Sorted(b.isBid, b.queue) && LivesIn(b.Resting(), id, life) && (o.id == id ==> Lives(o, life))
    ensures LivesIn(AddOrder(b, o).Resting(), id, life)
  {
    hide Lives, Sorted;
    if o.price !in b.buried {
      var k := InsertSplits(b.isBid, b.queue, o);
    }
  }

  lemma RemoveLives(b: Book, x: OrderId, id: OrderId, life: seq<Fill>)
    requires BookOk(b) && HasId(b.Resting(), x) && LivesIn(b.Resting(), id, life)
    ensures LivesIn(RemoveOrder(b, x, Find(b.Resting(), x).price).Resting(), id, life)
    ensures x == id ==> Lives(Find(b.Resting(), x), life)
  {
    hide Lives, RemoveOrder;
    var i := FindRests(b, x);
    RemoveOk(b, i, x, Find(b.Resting(), x).price);
    hide BookOk;
    assert b.Resting()[i] in b.Resting();
  }

  lemma Marked(v: OrderVal, status: Status, life: seq<Fill>)
    requires Lives(v, life)
    ensures Lives(v.(status := status), life)
  {
    var v' := v.(status := status);
    forall lo, hi | PricedWithin(life, lo, hi)
      ensures AvgWithin(v', lo, hi)
    {
      assert AvgWithin(v, lo, hi);
    }
  }

  lemma CancelLives(e: Eng, x: OrderId, id: OrderId, life: seq<Fill>)
    requires EngOk(e) && EngLives(e, id, life)
    ensures ReplyLives(e, CancelOp(x), id, life) && EngLives(Cancel(e, x).0, id, life)
  {
    hide RemoveOrder, LivesIn, Lives;
    if HasId(e.bids.Resting(), x) {
      RemoveLives(e.bids, x, id, life);
      if x == id {
        Marked(Find(e.bids.Resting(), x), Canceled, life);
      }
    } else if HasId(e.asks.Resting(), x) {
      RemoveLives(e.asks, x, id, life);
      if x == id {
        Marked(Find(e.asks.Resting(), x), Canceled, life);
      }
    }
  }

  lemma {:induction false} MakesNothing(t: OrderVal, q: seq<OrderVal>, s: nat, id: OrderId)
    requires Open(q) && !HasId(q, id)
    ensures MadeBy(Eat(t, q, s).fills, id) == []
    decreases TotalQty(q)
  {
    hide Eat, CanEat, FillQty, TotalQty, Open, AfterFill, HasId;
    EatUnfolds(t, q, s);
    if CanEat(t, q) {
      var n := FillQty(t, q[0]);
      NotAhead(q, n, id);
      MakesNothing(Taken(t, q[0].price, n), AfterFill(q, n), s + 1, id);
    }
  }

  /** A match moves the makers' lives on. */
  lemma MatchMade(t: OrderVal, b: Book, s: nat, id: OrderId, life: seq<Fill>)
    requires BookOk(b) && LivesIn(b.Resting(), id, life)
    ensures var r := MatchBook(t, b, s);
      LivesIn(r.book.Resting(), id, life + MadeBy(r.fills, id)) && MadeLives(r.fills, id, life)
  {
    hide Lives, Eat, MatchBook, Sorted, Placed, MadeBy, MadeLives;
    MatchBookIsEat(t, b, s);
    QueueFacts(b);
    LivesAmong(b.Resting(), b.queue, id, life);
    EatMade(t, b.queue, s, id, life);
    if HasId(b.hidden, id) {
      HiddenApart(b, id);
      MakesNothing(t, b.queue, s, id);
      assert life + [] == life;
      assert forall v :: v in b.hidden ==> v in b.Resting();
    }
  }

  lemma QueueFacts(b: Book)
    requires BookOk(b)
    ensures Open(b.queue) && UniqueIds(b.queue) && forall v :: v in b.queue ==> v in b.Resting()
  {
    assert forall i :: 0 <= i < |b.queue| ==> b.queue[i] == b.Resting()[i];
  }

  lemma HiddenApart(b: Book, id: OrderId)
    requires BookOk(b) && HasId(b.hidden, id)
    ensures !HasId(b.queue, id)
  {
    var j :| 0 <= j < |b.hidden| && b.hidden[j].id == id;
    assert b.Resting()[|b.queue| + j] == b.hidden[j];
    assert forall i :: 0 <= i < |b.queue| ==> b.queue[i] == b.Resting()[i];
  }

  lemma NoneLives(q: seq<OrderVal>, id: OrderId, life: seq<Fill>)
    requires !HasId(q, id)
    ensures LivesIn(q, id, life)
  {
  }

  /** An order just handed over has no life yet. */
  lemma NewLives(o: OrderVal)
    requires Submittable(o)
    ensures Lives(o, [])
  {
  }

  /** After its first match it agrees with the fills of that match. */
  lemma TakerLives(o: OrderVal, b: Book, s: nat)
    requires BookOk(b) && Submittable(o) && !HasId(b.Resting(), o.id)
    ensures Lives(MatchBook(o, b, s).taker, MatchBook(o, b, s).fills)
  {
    hide Lives, Eat, MatchBook, Submittable, BookOk;
    NewLives(o);
    MatchBookIsEat(o, b, s);
    QueueFacts(b);
    QueueLacks(b, o.id);
    EatTaken(o, b.queue, s, []);
    assert [] + MatchBook(o, b, s).fills == MatchBook(o, b, s).fills;
  }

  lemma QueueLacks(b: Book, id: OrderId)
    requires !HasId(b.Resting(), id)
    ensures !HasId(b.queue, id)
  {
    assert forall i :: 0 <= i < |b.queue| ==> b.queue[i] == b.Resting()[i];
  }

  /** A refused order starts a life without fills; every other life stays. */
  lemma RefusedLives(e: Eng, o: OrderVal, id: OrderId, life: seq<Fill>)
    requires EngOk(e) && Submittable(o) && EngLives(e, id, life)
    requires Screen(o, e.Active(o.id), CrossQty(o, e.BookOf(o.side.Opposite()).Resting())).Some?
    ensures ReplyLives(e, SubmitOp(o), id, life)
    ensures EngLives(Submit(e, o).0, id, Lived(e, SubmitOp(o), id, life))
  {
    hide Lives, LivesIn, Submittable, CrossQty, MatchBook, AddOrder, HasId;
    NewLives(o);
    Marked(o, Rejected, []);
    if o.id == id && !e.Active(id) {
      NoneLives(e.bids.Resting(), id, []);
      NoneLives(e.asks.Resting(), id, []);
    } else {
      assert life + [] == life;
    }
  }

  /** An accepted order starts its life with what it takes. */
  lemma OwnLife(e: Eng, o: OrderVal, life: seq<Fill>)
    requires EngOk(e) && Submittable(o)
    requires Screen(o, e.Active(o.id), CrossQty(o, e.BookOf(o.side.Opposite()).Resting())).None?
    ensures ReplyLives(e, SubmitOp(o), o.id, life)
    ensures EngLives(Submit(e, o).0, o.id, Lived(e, SubmitOp(o), o.id, life))
  {
    hide Lives, LivesIn, Submittable, CrossQty, MatchBook, AddOrder, HasId, MadeBy;
    var opp := e.BookOf(o.side.Opposite());
    var r := MatchBook(o, opp, e.seqNo);
    SubmitMatched(e, o);
    TakerLives(o, opp, e.seqNo);
    Marked(r.taker, FinalStatus(r.taker), r.fills);
    MatchBrings(o, opp, e.seqNo, o.id);
    NoneLives(r.book.Resting(), o.id, r.fills);
    NoneLives(e.BookOf(o.side).Resting(), o.id, r.fills);
    AddLives(e.BookOf(o.side), Finish(r.taker, r.fills).order, o.id, r.fills);
  }

  lemma MatchBrings(t: OrderVal, b: Book, s: nat, id: OrderId)
    requires BookOk(b) && !HasId(b.Resting(), id)
    ensures !HasId(MatchBook(t, b, s).book.Resting(), id)
  {
    hide MatchBook, BookOk;
    QueueFacts(b);
    if HasId(MatchBook(t, b, s).book.Resting(), id) {
      MatchBookIds(t, b, s, id);
    }
  }

  /** Every other order's life goes on with what it makes. */
  lemma OtherLife(e: Eng, o: OrderVal, id: OrderId, life: seq<Fill>)
    requires EngOk(e) && Submittable(o) && EngLives(e, id, life) && o.id != id
    requires Screen(o, e.Active(o.id), CrossQty(o, e.BookOf(o.side.Opposite()).Resting())).None?
    ensures ReplyLives(e, SubmitOp(o), id, life)
    ensures EngLives(Submit(e, o).0, id, Lived(e, SubmitOp(o), id, life))
  {
    hide Lives, LivesIn, Submittable, CrossQty, MatchBook, AddOrder, HasId, MadeBy, MadeLives;
    var opp := e.BookOf(o.side.Opposite());
    var r := MatchBook(o, opp, e.seqNo);
    SubmitMatched(e, o);
    MatchBookFacts(o, opp, e.seqNo);
    MatchMade(o, opp, e.seqNo, id, life);
    var own := e.BookOf(o.side);
    if HasId(own.Resting(), id) {
      MatchMakesNothing(o, opp, e.seqNo, id);
      assert life + [] == life;
    } else {
      NoneLives(own.Resting(), id, life + MadeBy(r.fills, id));
    }
    AddLives(own, Finish(r.taker, r.fills).order, id, life + MadeBy(r.fills, id));
  }

  lemma MatchMakesNothing(t: OrderVal, b: Book, s: nat, id: OrderId)
    requires BookOk(b) && !HasId(b.Resting(), id)
    ensures MadeBy(MatchBook(t, b, s).fills, id) == []
  {
    hide MatchBook, MadeBy;
    QueueFacts(b);
    QueueLacks(b, id);
    MatchBookIsEat(t, b, s);
    MakesNothing(t, b.queue, s, id);
  }

  lemma SubmitLives(e: Eng, o: OrderVal, id: OrderId, life: seq<Fill>)
    requires EngOk(e) && Submittable(o) && EngLives(e, id, life)
    ensures ReplyLives(e, SubmitOp(o), id, life)
    ensures EngLives(Submit(e, o).0, id, Lived(e, SubmitOp(o), id, life))
  {
    hide EngLives, ReplyLives, Lived, Submit, Submittable;
    if Screen(o, e.Active(o.id), CrossQty(o, e.BookOf(o.side.Opposite()).Resting())).Some? {
      RefusedLives(e, o, id, life);
    } else if o.id == id {
      OwnLife(e, o, life);
    } else {
      OtherLife(e, o, id, life);
    }
  }

  /**
   Over any run, every order agrees with the fills of its whole life: wherever it rests,
   wherever a reply shows it, and after each fill it makes.
   */
  lemma {:induction false} RunAverages(e: Eng, ops: seq<Op>, id: OrderId, life: seq<Fill>)
    requires EngOk(e) && EngLives(e, id, life) && forall i :: 0 <= i < |ops| ==> OpOk(ops[i])
    ensures RunLives(e, ops, id, life)
    decreases |ops|
  {
    hide EngOk, Submit, Cancel, EngLives, ReplyLives, Lived;
    if ops != [] {
      StepLives(e, ops[0], id, life);
      assert forall i :: 0 <= i < |ops[1..]| ==> ops[1..][i] == ops[i + 1];
      RunAverages(Step(e, ops[0]).0, ops[1..], id, Lived(e, ops[0], id, life));
    }
  }

  lemma StepLives(e: Eng, op: Op, id: OrderId, life: seq<Fill>)
    requires EngOk(e) && EngLives(e, id, life) && OpOk(op)
    ensures ReplyLives(e, op, id, life) && EngLives(Step(e, op).0, id, Lived(e, op, id, life))
  {
    hide EngOk, Submit, Cancel, EngLives, ReplyLives;
    match op
    case SubmitOp(o) => SubmitLives(e, o, id, life);
    case CancelOp(x) => CancelLives(e, x, id, life);
  }

  // ---- filled only while resting ----

  /** All trades of the life were made while resting. */
  ghost predicate MadeOnly(life: seq<Fill>, id: OrderId) {
    forall i :: 0 <= i < |life| ==> life[i].trade.maker == id
  }

  ghost predicate OwnPriced(v: OrderVal) { v.filled > 0 ==> v.avg == v.price }

  /** An order that only ever made trades is recorded at exactly its own price. */
  lemma MakerAverage(v: OrderVal, life: seq<Fill>)
    requires Lives(v, life) && MadeOnly(life, v.id)
    ensures OwnPriced(v)
  {
    assert PricedWithin(life, v.price, v.price);
  }

  /** The order with this id is recorded at its own price wherever it rests and after every fill it makes. */
  ghost predicate RunOwnPriced(e: Eng, ops: seq<Op>, id: OrderId)
    requires EngOk(e) && forall i :: 0 <= i < |ops| ==> OpOk(ops[i])
    decreases |ops|
  {
    && (forall v :: (v in e.bids.Resting() || v in e.asks.Resting()) && v.id == id ==> OwnPriced(v))
    && (ops != [] ==>
          && (ops[0].SubmitOp? ==> FillsOwnPriced(Submit(e, ops[0].order).1.fills, id))
          && RunOwnPriced(Step(e, ops[0]).0, ops[1..], id))
  }

  ghost predicate FillsOwnPriced(fills: seq<Fill>, id: OrderId) {
    forall i :: 0 <= i < |fills| && fills[i].trade.maker == id ==> OwnPriced(fills[i].maker)
  }

  lemma {:induction false} MadeOwnPriced(fills: seq<Fill>, id: OrderId, life: seq<Fill>)
    requires MadeLives(fills, id, life) && MadeOnly(life, id)
    requires forall i :: 0 <= i < |fills| ==> fills[i].maker.id == fills[i].trade.maker
    ensures FillsOwnPriced(fills, id) && MadeOnly(life + MadeBy(fills, id), id)
    decreases |fills|
  {
    hide Lives, OwnPriced;
    if fills == [] {
      assert life + [] == life;
    } else {
      var f := fills[0];
      var life' := if f.trade.maker == id then life + [f] else life;
      if f.trade.maker == id {
        MakerAverage(f.maker, life');
      }
      assert forall i :: 0 <= i < |fills[1..]| ==> fills[1..][i] == fills[i + 1];
      MadeOwnPriced(fills[1..], id, life');
      assert life + MadeBy(fills, id) == life' + MadeBy(fills[1..], id);
    }
  }

  lemma {:induction false} EatNames(t: OrderVal, q: seq<OrderVal>, s: nat)
    requires Open(q)
    ensures var fills := Eat(t, q, s).fills; forall i :: 0 <= i < |fills| ==> fills[i].maker.id == fills[i].trade.maker
    decreases TotalQty(q)
  {
    hide Eat, CanEat, FillQty, TotalQty, Open, AfterFill;
    EatUnfolds(t, q, s);
    if CanEat(t, q) {
      var n := FillQty(t, q[0]);
      EatNames(Taken(t, q[0].price, n), AfterFill(q, n), s + 1);
      var fills := Eat(t, q, s).fills;
      assert forall i :: 0 < i < |fills| ==> fills[i] == fills[1..][i - 1];
    }
  }

  lemma SubmitNames(e: Eng, o: OrderVal)
    requires EngOk(e)
    ensures Open(e.BookOf(o.side.Opposite()).queue)
    ensures var fills := Submit(e, o).1.fills;
      forall i :: 0 <= i < |fills| ==> fills[i].maker.id == fills[i].trade.maker
  {
    hide MatchBook, Eat, AddOrder;
    var opp := e.BookOf(o.side.Opposite());
    MatchBookIsEat(o, opp, e.seqNo);
    EatNames(o, opp.queue, e.seqNo);
  }

  /**
   An order that came to rest unfilled is, over any run that does not hand its id in again,
   recorded at exactly its own price.
   */
  lemma {:induction false} RestedAtOwnPrice(e: Eng, ops: seq<Op>, id: OrderId, life: seq<Fill>)
    requires EngOk(e) && EngLives(e, id, life) && MadeOnly(life, id)
    requires forall i :: 0 <= i < |ops| ==> OpOk(ops[i]) && (ops[i].SubmitOp? ==> ops[i].order.id != id)
    ensures RunOwnPriced(e, ops, id)
    decreases |ops|
  {
    hide EngOk, Submit, Cancel, Lives, MadeOnly, OwnPriced, MadeLives, FillsOwnPriced;
    forall v | (v in e.bids.Resting() || v in e.asks.Resting()) && v.id == id
      ensures OwnPriced(v)
    {
      MakerAverage(v, life);
    }
    if ops != [] {
      StepLives(e, ops[0], id, life);
      if ops[0].SubmitOp? {
        SubmitNames(e, ops[0].order);
        MadeOwnPriced(Submit(e, ops[0].order).1.fills, id, life);
      }
      assert forall i :: 0 <= i < |ops[1..]| ==> ops[1..][i] == ops[i + 1];
      RestedAtOwnPrice(Step(e, ops[0]).0, ops[1..], id, Lived(e, ops[0], id, life));
    }
  }
}
