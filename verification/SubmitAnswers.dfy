/**
 What a submit answers and what it leaves resting, told by the order and its fills alone: the
 status of the order, the terms and numbers of the trades, the orders as the fills leave them.
 */
module SubmitAnswers {
  import opened Wrappers
  import opened Domain
  import opened FixedPoint
  import opened Matching
  import opened Books
  import opened EngineModel
  import Reference

  // ---- fills and the orders they do not name ----

  /** Fills of the order `tid`, none of which names `id` as its maker. */
  ghost predicate Apart(fills: seq<Fill>, tid: OrderId, id: OrderId) {
    forall i :: 0 <= i < |fills| ==>
      fills[i].maker.id != id && fills[i].trade.maker != id && fills[i].trade.taker == tid
  }

  lemma {:induction false} EatApart(t: OrderVal, q: seq<OrderVal>, s: nat, id: OrderId)
    requires Open(q) && !HasId(q, id)
    ensures Apart(Eat(t, q, s).fills, t.id, id)
    decreases TotalQty(q)
  {
    if CanEat(t, q) {
      hide CanEat, FillQty;
      var n := FillQty(t, q[0]);
      FillSize(t, q);
      AfterFillShrinks(q, n);
      assert q[0].id != id;
      if HasId(AfterFill(q, n), id) {
        AfterFillIds(q, n, id);
      }
      var r := Eat(Taken(t, q[0].price, n), AfterFill(q, n), s + 1);
      EatApart(Taken(t, q[0].price, n), AfterFill(q, n), s + 1, id);
      assert forall i :: 0 < i < |Eat(t, q, s).fills| ==> Eat(t, q, s).fills[i] == r.fills[i - 1];
    }
  }

  lemma {:induction false} PatchedApart(v: OrderVal, fills: seq<Fill>, tid: OrderId)
    requires Apart(fills, tid, v.id)
    ensures Patched(v, fills) == v
    decreases |fills|
  {
    if fills != [] {
      PatchedApart(v, fills[..|fills| - 1], tid);
    }
  }

  lemma JoinIds(q: seq<OrderVal>, h: seq<OrderVal>, id: OrderId)
    ensures HasId(q + h, id) <==> HasId(q, id) || HasId(h, id)
  {
    var r := q + h;
    if HasId(q, id) {
      var k :| 0 <= k < |q| && q[k].id == id;
      assert r[k].id == id;
    }
    if HasId(h, id) {
      var k :| 0 <= k < |h| && h[k].id == id;
      assert r[|q| + k].id == id;
    }
  }

  lemma QueueWithout(b: Book, id: OrderId)
    requires BookOk(b) && !HasId(b.Resting(), id)
    ensures Open(b.queue) && !HasId(b.queue, id)
  {
    assert forall i :: 0 <= i < |b.queue| ==> b.Resting()[i] == b.queue[i];
  }

  // ---- the trades ----

  /** A price an order accepts. */
  predicate Accepts(o: OrderVal, price: int) {
    o.typ.Limit? ==> if o.side.Buy? then price <= o.price else price >= o.price
  }

  /**
   The fills of an order that took from `q`, numbered after `s`: each trade names the order
   and an order of the list, with their users and sides, at the price of the latter, which
   the former accepts.
   */
  ghost predicate TradesOf(fills: seq<Fill>, o: OrderVal, q: seq<OrderVal>, s: nat) {
    forall i :: 0 <= i < |fills| ==>
      var t := fills[i].trade;
      && t.seqNo == s + 1 + i && t.qty > 0 && Accepts(o, t.price)
      && t.taker == o.id && t.takerUser == o.user && t.takerSide == o.side
      && t.maker == fills[i].maker.id && MadeFrom(q, t)
  }

  /** An order of the list has the maker's terms. */
  ghost predicate MadeFrom(q: seq<OrderVal>, t: Trade) {
    exists k :: 0 <= k < |q| && q[k].id == t.maker && q[k].user == t.makerUser && q[k].side == t.makerSide
      && q[k].price == t.price
  }

  lemma MadeFromHead(q: seq<OrderVal>, n: int, t: Trade)
    requires q != [] && MadeFrom(AfterFill(q, n), t)
    ensures MadeFrom(q, t)
  {
    hide WeightedAvg;
    var q' := AfterFill(q, n);
    var k :| 0 <= k < |q'| && q'[k].id == t.maker && q'[k].user == t.makerUser && q'[k].side == t.makerSide
      && q'[k].price == t.price;
    assert q[if q[0].remaining == n then k + 1 else k].id == t.maker;
  }

  lemma {:induction false} EatTrades(t: OrderVal, q: seq<OrderVal>, s: nat)
    requires Open(q)
    ensures TradesOf(Eat(t, q, s).fills, t, q, s)
    decreases TotalQty(q)
  {
    if CanEat(t, q) {
      hide FillQty, MadeFrom, TradesOf, WeightedAvg;
      var n := FillQty(t, q[0]);
      FillSize(t, q);
      AfterFillShrinks(q, n);
      var t', q' := Taken(t, q[0].price, n), AfterFill(q, n);
      EatTrades(t', q', s + 1);
      var f := Fill(TradeOf(t, q[0], n, s + 1), Made(q[0], n));
      TradesStep(t, t', q, n, s, f, Eat(t', q', s + 1).fills);
    } else {
      NoTrades(t, q, s);
    }
  }

  lemma NoTrades(t: OrderVal, q: seq<OrderVal>, s: nat)
    ensures TradesOf([], t, q, s)
  {
  }

  lemma TradesStep(t: OrderVal, t': OrderVal, q: seq<OrderVal>, n: int, s: nat, f: Fill, fills: seq<Fill>)
    requires q != [] && n > 0 && f == Fill(TradeOf(t, q[0], n, s + 1), Made(q[0], n)) && Crosses(t, q[0].price)
    requires SameOrder(t, t') && TradesOf(fills, t', AfterFill(q, n), s + 1)
    ensures TradesOf([f] + fills, t, q, s)
  {
    hide MadeFrom, AfterFill, WeightedAvg;
    HeadMade(q, f.trade);
    forall i | 0 <= i < |fills|
      ensures MadeFrom(q, fills[i].trade)
    {
      MadeFromHead(q, n, fills[i].trade);
    }
  }

  lemma HeadMade(q: seq<OrderVal>, t: Trade)
    requires q != [] && t.maker == q[0].id && t.makerUser == q[0].user
    requires t.makerSide == q[0].side && t.price == q[0].price
    ensures MadeFrom(q, t)
  {
  }

  // ---- the orders the fills leave ----

  /** How a fill records its maker's progress. */
  predicate Progressed(m: OrderVal) {
    m.filled > 0 && m.remaining >= 0 && (if m.remaining == 0 then m.status.Filled? else m.status.PartiallyFilled?)
  }

  lemma {:induction false} PatchedCons(v: OrderVal, f: Fill, fills: seq<Fill>)
    ensures Patched(v, [f] + fills) == Patched(if f.maker.id == v.id then f.maker else v, fills)
    decreases |fills|
  {
    if fills == [] {
      assert [f] + fills == [f];
      assert [f][..0] == [];
    } else {
      var k := |fills| - 1;
      assert ([f] + fills)[..k + 1] == [f] + fills[..k];
      PatchedCons(v, f, fills[..k]);
    }
  }

  /**
   After a match the list holds exactly its orders as the fills leave them, those that have
   something remaining; the others are filled.
   */
  ghost predicate LeftBy(q: seq<OrderVal>, fills: seq<Fill>, rest: seq<OrderVal>) {
    && (forall u :: u in q ==>
          var v := Patched(u, fills);
          SameOrder(u, v) && if v.remaining == 0 then v.status.Filled? && !HasId(rest, u.id) else v in rest)
    && (forall v :: v in rest ==> exists u :: u in q && v == Patched(u, fills))
  }

  /** What one fill leaves of the list's head. */
  function Once(u: OrderVal, f: Fill): OrderVal { if f.maker.id == u.id then f.maker else u }

  lemma HeadFilled(q: seq<OrderVal>, n: int, f: Fill)
    requires Open(q) && UniqueIds(q) && q != [] && 0 < n <= q[0].remaining && f.maker == Made(q[0], n)
    ensures SameOrder(q[0], f.maker) && (n == q[0].remaining ==> f.maker.status.Filled? && f.maker.remaining == 0)
    ensures UniqueIds(AfterFill(q, n))
    ensures forall u :: u in q ==>
      if u == q[0] && n == u.remaining then !HasId(AfterFill(q, n), u.id) else Once(u, f) in AfterFill(q, n)
    ensures forall w :: w in AfterFill(q, n) ==> exists u :: u in q && w == Once(u, f)
    ensures forall u :: u in q ==> SameOrder(u, Once(u, f))
  {
    hide WeightedAvg;
    var q' := AfterFill(q, n);
    forall w | w in q'
      ensures exists u :: u in q && w == Once(u, f)
    {
      if w == f.maker {
        assert w == Once(q[0], f);
      } else {
        assert w in q && w == Once(w, f);
      }
    }
    forall u | u in q
      ensures if u == q[0] && n == u.remaining then !HasId(q', u.id) else Once(u, f) in q'
    {
      if u != q[0] {
        assert u in q[1..];
      }
    }
  }

  lemma LeftFurther(u: OrderVal, w: OrderVal, f: Fill, fills: seq<Fill>)
    requires w == Once(u, f) && w.id == u.id
    ensures Patched(u, [f] + fills) == Patched(w, fills)
  {
    PatchedCons(u, f, fills);
  }

  lemma {:induction false} EatLeaves(t: OrderVal, q: seq<OrderVal>, s: nat)
    requires Open(q) && UniqueIds(q)
    ensures LeftBy(q, Eat(t, q, s).fills, Eat(t, q, s).rest)
    decreases TotalQty(q)
  {
    if !CanEat(t, q) {
      assert forall u :: u in q ==> Patched(u, []) == u;
    } else {
      hide FillQty, CanEat, Patched, HasId, Open, UniqueIds;
      var n := FillQty(t, q[0]);
      FillSize(t, q);
      AfterFillShrinks(q, n);
      var q' := AfterFill(q, n);
      var f := Fill(TradeOf(t, q[0], n, s + 1), Made(q[0], n));
      var r := Eat(Taken(t, q[0].price, n), q', s + 1);
      HeadFilled(q, n, f);
      EatLeaves(Taken(t, q[0].price, n), q', s + 1);
      LeftByHead(t, q, n, f, r, s);
    }
  }

  lemma LeftByHead(t: OrderVal, q: seq<OrderVal>, n: int, f: Fill, r: Eaten, s: nat)
    requires Open(q) && UniqueIds(q) && q != [] && 0 < n <= q[0].remaining && f.maker == Made(q[0], n)
    requires Open(AfterFill(q, n)) && r == Eat(Taken(t, q[0].price, n), AfterFill(q, n), s + 1)
    requires LeftBy(AfterFill(q, n), r.fills, r.rest)
    ensures LeftBy(q, [f] + r.fills, r.rest)
  {
    hide Patched, HasId, Open, UniqueIds, Eat, AfterFill;
    HeadFilled(q, n, f);
    var q' := AfterFill(q, n);
    forall u | u in q
      ensures var v := Patched(u, [f] + r.fills);
        SameOrder(u, v) && if v.remaining == 0 then v.status.Filled? && !HasId(r.rest, u.id) else v in r.rest
    {
      LeftFurther(u, Once(u, f), f, r.fills);
      if u == q[0] && n == u.remaining {
        HeadGone(t, q, n, r, s, f.maker);
      }
    }
    forall v | v in r.rest
      ensures exists u :: u in q && v == Patched(u, [f] + r.fills)
    {
      var w :| w in q' && v == Patched(w, r.fills);
      var u :| u in q && w == Once(u, f);
      LeftFurther(u, w, f, r.fills);
    }
  }

  /** An order filled completely is neither filled again nor left. */
  lemma HeadGone(t: OrderVal, q: seq<OrderVal>, n: int, r: Eaten, s: nat, m: OrderVal)
    requires q != [] && Open(AfterFill(q, n)) && !HasId(AfterFill(q, n), m.id)
    requires r == Eat(Taken(t, q[0].price, n), AfterFill(q, n), s + 1) && LeftBy(AfterFill(q, n), r.fills, r.rest)
    ensures Patched(m, r.fills) == m && !HasId(r.rest, m.id)
  {
    hide AfterFill, Eat;
    var q' := AfterFill(q, n);
    EatApart(Taken(t, q[0].price, n), q', s + 1, m.id);
    PatchedApart(m, r.fills, Taken(t, q[0].price, n).id);
    assert forall v :: v in r.rest ==> v.id != m.id;
  }

  // ---- a side of the book ----

  /** Orders the heap has lost are not filled. */
  lemma BookLeaves(t: OrderVal, b: Book, s: nat)
    requires BookOk(b)
    ensures var r := MatchBook(t, b, s); LeftBy(b.Resting(), r.fills, r.book.Resting())
  {
    hide MatchBook, Eat, Patched, Sorted, Restable, Placed;
    QueueApart(b);
    var r, e := MatchBook(t, b, s), Eat(t, b.queue, s);
    MatchBookIsEat(t, b, s);
    EatLeaves(t, b.queue, s);
    forall u | u in b.hidden
      ensures Patched(u, r.fills) == u && u.remaining > 0
    {
      var k :| 0 <= k < |b.hidden| && b.hidden[k] == u;
      EatApart(t, b.queue, s, u.id);
      PatchedApart(u, r.fills, t.id);
    }
    forall u | u in b.queue && HasId(r.book.Resting(), u.id)
      ensures HasId(e.rest, u.id)
    {
      JoinIds(e.rest, b.hidden, u.id);
    }
  }

  lemma QueueApart(b: Book)
    requires BookOk(b)
    ensures Open(b.queue) && UniqueIds(b.queue)
    ensures forall k :: 0 <= k < |b.hidden| ==> b.hidden[k].remaining > 0 && !HasId(b.queue, b.hidden[k].id)
    ensures forall u :: u in b.queue ==> forall k :: 0 <= k < |b.hidden| ==> b.hidden[k].id != u.id
  {
    var r := b.Resting();
    assert forall i :: 0 <= i < |b.queue| ==> r[i] == b.queue[i];
    assert forall k :: 0 <= k < |b.hidden| ==> r[|b.queue| + k] == b.hidden[k];
  }

  /** The orders of the other side stay as they are. */
  lemma SideApart(t: OrderVal, b: Book, s: nat, u: OrderVal)
    requires BookOk(b) && !HasId(b.Resting(), u.id)
    ensures Patched(u, MatchBook(t, b, s).fills) == u
  {
    hide MatchBook, Eat, Patched, HasId;
    QueueWithout(b, u.id);
    MatchBookIsEat(t, b, s);
    EatApart(t, b.queue, s, u.id);
    PatchedApart(u, MatchBook(t, b, s).fills, t.id);
  }

  // ---- the whole submit ----

  /** All orders resting in the engine. */
  function AllResting(e: Eng): seq<OrderVal> { e.bids.Resting() + e.asks.Resting() }

  lemma ActiveRests(e: Eng, id: OrderId)
    ensures e.Active(id) <==> HasId(AllResting(e), id)
  {
    JoinIds(e.bids.Resting(), e.asks.Resting(), id);
  }

  /** The checks before matching let the order through. */
  ghost predicate Passes(e: Eng, o: OrderVal) {
    && !e.Active(o.id) && !o.typ.OtherType?
    && !(o.typ.Limit? && o.tif.FOK? && CrossQty(o, e.BookOf(o.side.Opposite()).Resting()) < o.remaining)
  }

  lemma SubmitUnfolds(e: Eng, o: OrderVal)
    requires EngOk(e)
    ensures Open(e.BookOf(o.side.Opposite()).queue)
    ensures var r := MatchBook(o, e.BookOf(o.side.Opposite()), e.seqNo);
      var out := Finish(r.taker, r.fills);
      var e1 := AfterMatch(e, o);
      var e' := if Rests(out.order) then e1.WithBook(o.side, AddOrder(e1.BookOf(o.side), out.order)) else e1;
      Passes(e, o) ==> Submit(e, o) == (e', out)
    ensures !Passes(e, o) ==> Submit(e, o).1.reject.Some?
    ensures !Passes(e, o) ==> Submit(e, o) == (e, Outcome(o.(status := Rejected), [], Submit(e, o).1.reject))
  {
    hide MatchBook, AddOrder, CrossQty;
    BookOkIn(e, o.side.Opposite());
  }

  /**
   What rests after a submit: the orders that rested before as the fills leave them, those with
   something remaining, and the new order exactly if its status says so.
   */
  ghost predicate Leaves(e: Eng, out: Outcome, e': Eng) {
    && (forall u :: u in AllResting(e) ==>
          var v := Patched(u, out.fills);
          && SameOrder(u, v)
          && if v.remaining == 0 then v.status.Filled? && !HasId(AllResting(e'), u.id) else v in AllResting(e'))
    && (Rests(out.order) ==> out.order in AllResting(e'))
    && (forall v :: v in AllResting(e') ==>
          (v == out.order && Rests(v)) || exists u :: u in AllResting(e) && v == Patched(u, out.fills))
  }

  /** Both sides after the match alone. */
  lemma MatchLeaves(e: Eng, o: OrderVal)
    requires EngOk(e)
    ensures Open(e.BookOf(o.side.Opposite()).queue)
    ensures var r := MatchBook(o, e.BookOf(o.side.Opposite()), e.seqNo);
      LeftBy(AllResting(e), r.fills, AllResting(AfterMatch(e, o)))
  {
    hide MatchBook, Patched, BookOk, Rests;
    BookOkIn(e, o.side.Opposite());
    var b, own := e.BookOf(o.side.Opposite()), e.BookOf(o.side);
    var r := MatchBook(o, b, e.seqNo);
    BookLeaves(o, b, e.seqNo);
    assert LeftBy(b.Resting(), r.fills, r.book.Resting());
    forall u | u in own.Resting()
      ensures Patched(u, r.fills) == u && u.remaining > 0 && !HasId(b.Resting(), u.id)
    {
      OwnApart(e, o, u);
    }
  }

  lemma OwnApart(e: Eng, o: OrderVal, u: OrderVal)
    requires EngOk(e) && u in e.BookOf(o.side).Resting()
    ensures Open(e.BookOf(o.side.Opposite()).queue)
    ensures Patched(u, MatchBook(o, e.BookOf(o.side.Opposite()), e.seqNo).fills) == u && u.remaining > 0
    ensures !HasId(e.BookOf(o.side.Opposite()).Resting(), u.id)
  {
    hide MatchBook, Patched;
    var k :| 0 <= k < |e.BookOf(o.side).Resting()| && e.BookOf(o.side).Resting()[k] == u;
    assert HasId(e.BookOf(o.side).Resting(), u.id);
    SideApart(o, e.BookOf(o.side.Opposite()), e.seqNo, u);
  }

  lemma SubmitLeaves(e: Eng, o: OrderVal)
    requires EngOk(e) && Submittable(o)
    ensures Open(e.BookOf(o.side.Opposite()).queue) && Leaves(e, Submit(e, o).1, Submit(e, o).0)
  {
    hide MatchBook, Patched, BookOk, Submit, AddOrder, Passes, AfterMatch, HasId, Eng.Active;
    SubmitUnfolds(e, o);
    if !Passes(e, o) {
      StaysAll(e);
    } else {
      MatchLeaves(e, o);
      var out, e1 := Submit(e, o).1, AfterMatch(e, o);
      if Rests(out.order) {
        RestLeaves(e, o);
      }
    }
  }

  lemma StaysAll(e: Eng)
    requires EngOk(e)
    ensures forall u :: u in AllResting(e) ==> Patched(u, []) == u && u.remaining > 0
  {
    forall u | u in AllResting(e)
      ensures u.remaining > 0
    {
      assert u in e.bids.queue || u in e.bids.hidden || u in e.asks.queue || u in e.asks.hidden;
    }
  }

  /** Resting the remainder adds it to what the match leaves. */
  lemma RestLeaves(e: Eng, o: OrderVal)
    requires EngOk(e) && Submittable(o) && Passes(e, o)
    ensures Open(e.BookOf(o.side.Opposite()).queue)
    ensures var e1, out := AfterMatch(e, o), Submit(e, o).1;
      Rests(out.order) ==>
        && (forall v :: v in AllResting(Submit(e, o).0) <==> v in AllResting(e1) || v == out.order)
        && (forall id :: HasId(AllResting(Submit(e, o).0), id) <==> HasId(AllResting(e1), id) || id == o.id)
        && (forall u :: u in AllResting(e) ==> u.id != o.id)
  {
    hide MatchBook, AddOrder, HasId, Patched, CrossQty;
    SubmitUnfolds(e, o);
    AfterMatchOk(e, o);
    MatchBookFacts(o, e.BookOf(o.side.Opposite()), e.seqNo);
    var e1, out := AfterMatch(e, o), Submit(e, o).1;
    var own := e1.BookOf(o.side);
    BookOkIn(e1, o.side);
    AddMembers(own, out.order);
    forall id
      ensures HasId(AllResting(Submit(e, o).0), id) <==> HasId(AllResting(e1), id) || (Rests(out.order) && id == o.id)
    {
      AddIds(own, out.order, id);
      ActiveRests(e1, id);
      ActiveRests(Submit(e, o).0, id);
    }
    forall u | u in AllResting(e)
      ensures u.id != o.id
    {
      ActiveRests(e, u.id);
      MemberId(AllResting(e), u);
    }
  }

  lemma MemberId(q: seq<OrderVal>, u: OrderVal)
    requires u in q
    ensures HasId(q, u.id)
  {
  }

  // ---- the answer ----

  /** An order turned down before matching: why, and that nothing happened. */
  lemma TurnedDown(e: Eng, o: OrderVal)
    requires EngOk(e) && !Passes(e, o)
    ensures Open(e.BookOf(o.side.Opposite()).queue)
    ensures var (e', out) := Submit(e, o);
      && e' == e && out.fills == [] && out.order == o.(status := Rejected)
      && out.reject == Some(
           if e.Active(o.id) then DuplicateOrder else if o.typ.OtherType? then InvalidOrder else InsufficientQty)
  {
    hide MatchBook, CrossQty, Eng.Active;
    BookOkIn(e, o.side.Opposite());
  }

  /** What the status of an answered order says about it. */
  ghost predicate StatusTells(v: OrderVal) {
    && (v.typ.Limit? ==>
          && (v.status.Filled? <==> v.remaining == 0)
          && (v.status.Expired? <==> v.remaining != 0 && v.tif.IOC?)
          && (v.status.PartiallyFilled? <==> v.remaining != 0 && !v.tif.IOC? && v.filled > 0)
          && (v.status.New? <==> v.remaining != 0 && !v.tif.IOC? && v.filled == 0))
    && (v.typ.Market? ==> (v.status.Rejected? <==> v.filled == 0) && (v.status.Filled? <==> v.filled > 0))
  }

  /** The order keeps its terms and records what its fills took. */
  ghost predicate TakesFills(o: OrderVal, v: OrderVal, fills: seq<Fill>) {
    && SameOrder(o, v) && v.filled == FilledQty(fills) >= |fills| && v.filled + v.remaining == o.qty
    && (o.typ.Limit? ==> 0 <= v.remaining <= o.qty)
  }

  /**
   What an order that passed the checks is answered: its status tells exactly what became of
   it; a market order with no fill is rejected, any other is not; it rests exactly if it is a
   limit order with something remaining that may wait.
   */
  lemma Answered(e: Eng, o: OrderVal)
    requires EngOk(e) && Submittable(o) && Passes(e, o)
    ensures Open(e.BookOf(o.side.Opposite()).queue)
    ensures var (e', out) := Submit(e, o);
      && TakesFills(o, out.order, out.fills) && StatusTells(out.order)
      && out.reject == (if o.typ.Market? && out.fills == [] then Some(InsufficientQty) else None)
      && (e'.Active(o.id) <==> o.typ.Limit? && !o.tif.IOC? && out.order.remaining > 0)
  {
    hide MatchBook, AddOrder, HasId, Passes, AfterMatch, Eng.Active;
    SubmitUnfolds(e, o);
    MatchBookFacts(o, e.BookOf(o.side.Opposite()), e.seqNo);
    FilledSome(Submit(e, o).1.fills);
    PassedIsNew(e, o);
    var e1, out := AfterMatch(e, o), Submit(e, o).1;
    AfterMatchOk(e, o);
    if Rests(out.order) {
      RestLeaves(e, o);
      ActiveRests(Submit(e, o).0, o.id);
    }
  }

  lemma PassedIsNew(e: Eng, o: OrderVal)
    requires Passes(e, o)
    ensures !e.Active(o.id) && !o.typ.OtherType?
  {
  }

  lemma FilledSome(fills: seq<Fill>)
    ensures fills == [] ==> FilledQty(fills) == 0
  {
  }

  /** The trades of a submit, and the numbers they use up. */
  lemma SubmitTrades(e: Eng, o: OrderVal)
    requires EngOk(e) && Submittable(o)
    ensures Open(e.BookOf(o.side.Opposite()).queue)
    ensures var (e', out) := Submit(e, o);
      && TradesOf(out.fills, o, e.BookOf(o.side.Opposite()).queue, e.seqNo)
      && e'.seqNo == e.seqNo + |out.fills|
      && forall i :: 0 <= i < |out.fills| ==> out.fills[i].trade.makerSide == o.side.Opposite()
  {
    hide MatchBook, AddOrder, Passes, Eat, MadeFrom;
    SubmitUnfolds(e, o);
    var b := e.BookOf(o.side.Opposite());
    BookOkIn(e, o.side.Opposite());
    MatchBookIsEat(o, b, e.seqNo);
    EatTrades(o, b.queue, e.seqNo);
    forall i | 0 <= i < |Submit(e, o).1.fills|
      ensures Submit(e, o).1.fills[i].trade.makerSide == o.side.Opposite()
    {
      OtherSide(b, Submit(e, o).1.fills[i].trade);
    }
  }

  lemma OtherSide(b: Book, t: Trade)
    requires BookOk(b) && MadeFrom(b.queue, t)
    ensures t.makerSide.Buy? == b.isBid
  {
  }

  // ---- cancels ----

  lemma BookWithout(b: Book, id: OrderId)
    requires BookOk(b) && HasId(b.Resting(), id)
    ensures var u := Find(b.Resting(), id);
      && u in b.Resting() && u.id == id
      && forall v :: v in RemoveOrder(b, id, u.price).Resting() <==> v in b.Resting() && v.id != id
  {
    hide RemoveOrder;
    var i := FindRests(b, id);
    RemoveOk(b, i, id, Find(b.Resting(), id).price);
    DroppedMembers(b.Resting(), i);
  }

  lemma DroppedMembers(r: seq<OrderVal>, i: nat)
    requires i < |r| && UniqueIds(r)
    ensures forall v :: v in r[..i] + r[i + 1..] <==> v in r && v.id != r[i].id
  {
    forall v | v in r && v.id != r[i].id
      ensures v in r[..i] + r[i + 1..]
    {
      var k :| 0 <= k < |r| && r[k] == v;
      assert r == r[..i] + [r[i]] + r[i + 1..];
    }
  }

  /** A cancel takes out exactly the order with the id, and answers with it, marked as canceled. */
  lemma CancelAnswered(e: Eng, id: OrderId)
    requires EngOk(e)
    ensures var (e', c) := Cancel(e, id);
      && (c.Some? <==> e.Active(id))
      && (c.None? ==> e' == e)
      && (c.Some? ==> exists u :: u in AllResting(e) && u.id == id && c == Some(u.(status := Canceled)))
      && (forall v :: v in AllResting(e') <==> v in AllResting(e) && v.id != id)
  {
    hide RemoveOrder, BookOk, HasId;
    IdsOf(e.bids.Resting(), id);
    IdsOf(e.asks.Resting(), id);
    if HasId(e.bids.Resting(), id) {
      BookWithout(e.bids, id);
    } else if HasId(e.asks.Resting(), id) {
      BookWithout(e.asks, id);
    }
  }

  lemma IdsOf(r: seq<OrderVal>, id: OrderId)
    ensures HasId(r, id) <==> exists v :: v in r && v.id == id
  {
    if HasId(r, id) {
      var k :| 0 <= k < |r| && r[k].id == id;
      assert r[k] in r;
    }
  }

  // ---- runs ----

  /** What the record of a resting order says: nothing filled yet, or a part. */
  ghost predicate Standing(v: OrderVal) {
    v.remaining > 0 && v.filled >= 0 && if v.filled == 0 then v.status.New? else v.status.PartiallyFilled?
  }

  ghost predicate AllStanding(e: Eng) { forall v :: v in AllResting(e) ==> Standing(v) }

  /** An answer tells what became of the order, and of every order its fills name. */
  ghost predicate ReplyTells(r: Reference.Reply) {
    match r
    case Submitted(out) =>
      && (if out.order.status.Rejected? then out.reject.Some? else out.reject.None? && StatusTells(out.order))
      && forall i :: 0 <= i < |out.fills| ==> Progressed(out.fills[i].maker)
    case CancelReply(c) => c.Some? ==> c.value.status.Canceled?
  }

  ghost predicate RunTells(e: Eng, ops: seq<Reference.Op>)
    requires EngOk(e) && forall i :: 0 <= i < |ops| ==> Reference.OpOk(ops[i])
    decreases |ops|
  {
    && AllStanding(e)
    && (ops != [] ==> ReplyTells(Reference.Step(e, ops[0]).1) && RunTells(Reference.Step(e, ops[0]).0, ops[1..]))
  }

  lemma MadeProgressed(q: seq<OrderVal>, n: int)
    requires q != [] && q[0].filled >= 0 && 0 < n <= q[0].remaining
    requires forall v :: v in q ==> v.filled >= 0
    ensures Progressed(Made(q[0], n)) && forall v :: v in AfterFill(q, n) ==> v.filled >= 0
  {
    hide WeightedAvg;
  }

  lemma {:induction false} EatProgress(t: OrderVal, q: seq<OrderVal>, s: nat)
    requires Open(q) && forall v :: v in q ==> v.filled >= 0
    ensures forall i :: 0 <= i < |Eat(t, q, s).fills| ==> Progressed(Eat(t, q, s).fills[i].maker)
    decreases TotalQty(q)
  {
    if CanEat(t, q) {
      hide FillQty, CanEat, Progressed, AfterFill;
      var n := FillQty(t, q[0]);
      FillSize(t, q);
      AfterFillShrinks(q, n);
      MadeProgressed(q, n);
      var r := Eat(Taken(t, q[0].price, n), AfterFill(q, n), s + 1);
      EatProgress(Taken(t, q[0].price, n), AfterFill(q, n), s + 1);
      assert forall i :: 0 < i < |Eat(t, q, s).fills| ==> Eat(t, q, s).fills[i] == r.fills[i - 1];
    }
  }

  lemma {:induction false} PatchedIs(v: OrderVal, fills: seq<Fill>)
    ensures Patched(v, fills) == v || exists i :: 0 <= i < |fills| && Patched(v, fills) == fills[i].maker
    decreases |fills|
  {
    if fills != [] {
      PatchedIs(v, fills[..|fills| - 1]);
    }
  }

  lemma SubmitProgress(e: Eng, o: OrderVal)
    requires EngOk(e) && AllStanding(e)
    ensures Open(e.BookOf(o.side.Opposite()).queue)
    ensures forall i :: 0 <= i < |Submit(e, o).1.fills| ==> Progressed(Submit(e, o).1.fills[i].maker)
  {
    hide MatchBook, AddOrder, Eat, Progressed, CrossQty;
    var b := e.BookOf(o.side.Opposite());
    BookOkIn(e, o.side.Opposite());
    SubmitUnfolds(e, o);
    MatchBookIsEat(o, b, e.seqNo);
    assert forall v :: v in b.queue ==> v in AllResting(e);
    EatProgress(o, b.queue, e.seqNo);
  }

  lemma SubmitStands(e: Eng, o: OrderVal)
    requires EngOk(e) && AllStanding(e) && Submittable(o)
    ensures Open(e.BookOf(o.side.Opposite()).queue)
    ensures AllStanding(Submit(e, o).0) && ReplyTells(Reference.Submitted(Submit(e, o).1))
  {
    hide Submit, Patched, Passes, AllResting, TakesFills;
    SubmitLeaves(e, o);
    SubmitProgress(e, o);
    var (e', out) := Submit(e, o);
    if Passes(e, o) {
      Answered(e, o);
      TakenFills(o, out.order, out.fills);
      FilledSome(out.fills);
      PassedIsNew(e, o);
    } else {
      TurnedDown(e, o);
    }
    forall v | v in AllResting(e')
      ensures Standing(v)
    {
      if !(v == out.order && Rests(v)) {
        var u :| u in AllResting(e) && v == Patched(u, out.fills);
        PatchedIs(u, out.fills);
        LeftOpen(e, out, e', u);
      }
    }
  }

  lemma TakenFills(o: OrderVal, v: OrderVal, fills: seq<Fill>)
    requires TakesFills(o, v, fills)
    ensures SameOrder(o, v) && v.filled == FilledQty(fills) >= |fills| && (o.typ.Limit? ==> v.remaining >= 0)
  {
  }

  lemma LeftOpen(e: Eng, out: Outcome, e': Eng, u: OrderVal)
    requires Leaves(e, out, e') && u in AllResting(e) && Patched(u, out.fills) in AllResting(e')
    ensures Patched(u, out.fills).remaining != 0
  {
    hide Patched;
    MemberId(AllResting(e'), Patched(u, out.fills));
  }

  lemma CancelStands(e: Eng, id: OrderId)
    requires EngOk(e) && AllStanding(e)
    ensures AllStanding(Cancel(e, id).0) && ReplyTells(Reference.CancelReply(Cancel(e, id).1))
  {
    hide Cancel;
    CancelAnswered(e, id);
  }

  /**
   In every state of every run each resting order is new exactly if nothing of it was filled
   and partially filled otherwise, and every answer tells what became of its orders.
   */
  lemma {:induction false} RunStatuses(e: Eng, ops: seq<Reference.Op>)
    requires EngOk(e) && AllStanding(e) && forall i :: 0 <= i < |ops| ==> Reference.OpOk(ops[i])
    ensures RunTells(e, ops)
    decreases |ops|
  {
    hide EngOk, Submit, Cancel, AllStanding, ReplyTells, Submittable;
    if ops != [] {
      match ops[0] {
        case SubmitOp(o) => SubmitStands(e, o);
        case CancelOp(id) => CancelStands(e, id);
      }
      assert forall i :: 0 <= i < |ops[1..]| ==> ops[1..][i] == ops[i + 1];
      RunStatuses(Reference.Step(e, ops[0]).0, ops[1..]);
    }
  }

  /** The fills a step reports. */
  function FillsOf(r: Reference.Reply): seq<Fill> { if r.Submitted? then r.out.fills else [] }

  /** All fills of a run, in order. */
  function RunFills(e: Eng, ops: seq<Reference.Op>): seq<Fill>
    requires EngOk(e) && forall i :: 0 <= i < |ops| ==> Reference.OpOk(ops[i])
    decreases |ops|
  {
    if ops == [] then []
    else FillsOf(Reference.Step(e, ops[0]).1) + RunFills(Reference.Step(e, ops[0]).0, ops[1..])
  }

  lemma StepNumbers(e: Eng, op: Reference.Op)
    requires EngOk(e) && Reference.OpOk(op)
    ensures var (e', r) := Reference.Step(e, op);
      && e'.seqNo == e.seqNo + |FillsOf(r)|
      && forall i :: 0 <= i < |FillsOf(r)| ==> FillsOf(r)[i].trade.seqNo == e.seqNo + 1 + i
  {
    hide EngOk, Submit, Submittable, MadeFrom;
    if op.SubmitOp? {
      SubmitTrades(e, op.order);
      var fills := FillsOf(Reference.Step(e, op).1);
      forall i | 0 <= i < |fills|
        ensures fills[i].trade.seqNo == e.seqNo + 1 + i
      {
        assert fills[i] == Submit(e, op.order).1.fills[i];
      }
    }
  }

  /** Over any run the trades are numbered one after the other: no number is skipped or used twice. */
  lemma {:induction false} RunNumbers(e: Eng, ops: seq<Reference.Op>, k: nat)
    requires EngOk(e) && forall i :: 0 <= i < |ops| ==> Reference.OpOk(ops[i])
    requires k < |RunFills(e, ops)|
    ensures RunFills(e, ops)[k].trade.seqNo == e.seqNo + 1 + k
    decreases |ops|
  {
    hide EngOk, Reference.Step, Reference.OpOk;
    assert forall i :: 0 <= i < |ops[1..]| ==> ops[1..][i] == ops[i + 1];
    StepNumbers(e, ops[0]);
    var n := |FillsOf(Reference.Step(e, ops[0]).1)|;
    if k >= n {
      RunNumbers(Reference.Step(e, ops[0]).0, ops[1..], k - n);
    }
  }
}
