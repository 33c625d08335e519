/**
 The order service's records: in every state of every run they agree with what rests in the
 engines, and so tell exactly who can cancel what.
 */
module StoredOrders {
  import opened Wrappers
  import opened Domain
  import opened Matching
  import opened Books
  import opened EngineModel
  import opened Ledger
  import opened Settlement
  import opened Exchange
  import opened SubmitAnswers
  import opened Solvency
  import opened SolventRuns
  import opened LiveFunds

  // ---- the records agree with the engines ----

  /** A stored order has its own id, and its money is its user's, on its side. */
  ghost predicate OwnRecord(x: Ex, id: OrderId) {
    && id in x.orders && id in x.purse && x.orders[id].id == id
    && x.purse[id].user == x.orders[id].user && x.purse[id].side == x.orders[id].side
  }

  /** An order resting in the engine of `s` is exactly the stored record, and its money is of that market. */
  ghost predicate RestsFiled(x: Ex, s: string, v: OrderVal) {
    OwnRecord(x, v.id) && x.orders[v.id] == v && x.purse[v.id].market == s && Standing(v)
  }

  ghost predicate EnginesFiled(x: Ex) {
    forall s, v :: s in x.engines && v in AllResting(x.engines[s]) ==> RestsFiled(x, s, v)
  }

  /** Records are their users' own, and those of resting orders say what rests: no more, no less. */
  ghost predicate Filed(x: Ex) {
    && EnginesFiled(x)
    && forall id :: id in x.orders ==> OwnRecord(x, id) && (Rests(x.orders[id]) ==> Live(x, id))
  }

  /** The same of all orders but one, which rests nowhere yet. */
  ghost predicate FiledBut(x: Ex, tid: OrderId) {
    && EnginesFiled(x) && Idle(x.engines, tid)
    && forall id :: id in x.orders ==> OwnRecord(x, id) && (id != tid && Rests(x.orders[id]) ==> Live(x, id))
  }

  lemma RestingActive(e: Eng, v: OrderVal)
    requires v in AllResting(e)
    ensures e.Active(v.id)
  {
    MemberId(AllResting(e), v);
    ActiveRests(e, v.id);
  }

  lemma ActiveResting(e: Eng, id: OrderId) returns (v: OrderVal)
    requires e.Active(id)
    ensures v in AllResting(e) && v.id == id
  {
    ActiveRests(e, id);
    IdsOf(AllResting(e), id);
    v :| v in AllResting(e) && v.id == id;
  }

  // ---- executing ----

  /** The makers of a submit's fills rest in its engine. */
  lemma NamedRests(e: Eng, o: OrderVal, id: OrderId)
    requires EngOk(e) && Submittable(o) && !e.Active(id)
    ensures Open(e.BookOf(o.side.Opposite()).queue)
    ensures Apart(Submit(e, o).1.fills, o.id, id)
  {
    hide Submit, Eng.Active;
    SubmitTrades(e, o);
    var fills, q := Submit(e, o).1.fills, e.BookOf(o.side.Opposite()).queue;
    forall i | 0 <= i < |fills|
      ensures fills[i].maker.id != id && fills[i].trade.maker != id && fills[i].trade.taker == o.id
    {
      var k :| 0 <= k < |q| && q[k].id == fills[i].trade.maker;
      assert q[k] in AllResting(e);
      RestingActive(e, q[k]);
    }
  }

  /** What an execution writes: one engine, the order's own record, and the makers' records. */
  ghost predicate Written(x: Ex, x': Ex, o: OrderVal, market: string, out: Outcome, v: OrderVal)
    requires market in x.engines
  {
    && x'.engines.Keys == x.engines.Keys
    && (forall s :: s in x.engines && s != market ==> x'.engines[s] == x.engines[s])
    && x'.orders.Keys == x.orders.Keys + {o.id} && o.id in x'.orders && x'.orders[o.id] == v
    && (forall id :: id in x.orders && id != o.id ==> x'.orders[id] == Patched(x.orders[id], out.fills))
    && SameOwners(x.purse, x'.purse)
    && SameOrder(o, v) && (Rests(v) <==> Rests(out.order)) && (Rests(v) ==> v == out.order && Standing(v))
  }

  lemma InOneMarket(x: Ex, s: string, u: OrderVal, market: string)
    requires EnginesFiled(x) && s in x.engines && market in x.engines && s != market && u in AllResting(x.engines[s])
    ensures !x.engines[market].Active(u.id)
  {
    hide Eng.Active, AllResting;
    var e := x.engines[market];
    assert RestsFiled(x, s, u);
    forall w | w in AllResting(e)
      ensures w.id != u.id
    {
      assert RestsFiled(x, market, w);
    }
    ActiveRests(e, u.id);
    IdsOf(AllResting(e), u.id);
  }

  /** Another market's orders are not touched. */
  lemma ElsewhereFiled(x: Ex, x': Ex, o: OrderVal, market: string, out: Outcome, v: OrderVal, s: string, u: OrderVal)
    requires FiledBut(x, o.id) && market in x.engines && EngOk(x.engines[market]) && Submittable(o)
    requires Open(x.engines[market].BookOf(o.side.Opposite()).queue) && out == Submit(x.engines[market], o).1
    requires Written(x, x', o, market, out, v)
    requires s in x.engines && s != market && u in AllResting(x.engines[s])
    ensures RestsFiled(x', s, u)
  {
    hide Submit, EngOk, Patched, Eng.Active, Submittable;
    assert RestsFiled(x, s, u);
    RestingActive(x.engines[s], u);
    InOneMarket(x, s, u, market);
    NamedRests(x.engines[market], o, u.id);
    PatchedApart(u, out.fills, o.id);
  }

  lemma HereFiled(x: Ex, x': Ex, o: OrderVal, market: string, out: Outcome, v: OrderVal, u: OrderVal)
    requires FiledBut(x, o.id) && market in x.engines && EngOk(x.engines[market]) && Submittable(o)
    requires Open(x.engines[market].BookOf(o.side.Opposite()).queue)
    requires out == Submit(x.engines[market], o).1 && Written(x, x', o, market, out, v)
    requires market in x'.engines && x'.engines[market] == Submit(x.engines[market], o).0
    requires o.id in x.purse && OwnRecord(x, o.id) && x.purse[o.id].market == market && x.purse[o.id].user == o.user
    requires x.purse[o.id].side == o.side
    requires u in AllResting(x'.engines[market])
    ensures RestsFiled(x', market, u)
  {
    hide Submit, EngOk, Patched, Eng.Active, Submittable, AllResting;
    var e := x.engines[market];
    SubmitLeaves(e, o);
    StandsFiled(x, market);
    SubmitStands(e, o);
    if !(u == out.order && Rests(u)) {
      var w :| w in AllResting(e) && u == Patched(w, out.fills);
      assert RestsFiled(x, market, w);
      RestingActive(e, w);
      LeavesSame(e, out, x'.engines[market], w);
    }
  }

  lemma LeavesSame(e: Eng, out: Outcome, e': Eng, u: OrderVal)
    requires Leaves(e, out, e') && u in AllResting(e)
    ensures SameOrder(u, Patched(u, out.fills))
    ensures Rests(Patched(u, out.fills)) ==> Patched(u, out.fills) in AllResting(e')
  {
    hide Patched;
  }

  lemma StandsFiled(x: Ex, s: string)
    requires EnginesFiled(x) && s in x.engines
    ensures AllStanding(x.engines[s])
  {
    forall v | v in AllResting(x.engines[s])
      ensures Standing(v)
    {
      assert RestsFiled(x, s, v);
    }
  }

  /** The record of an earlier order after the execution. */
  lemma RecordFiled(x: Ex, x': Ex, o: OrderVal, market: string, out: Outcome, v: OrderVal, id: OrderId)
    requires FiledBut(x, o.id) && market in x.engines && EngOk(x.engines[market]) && Submittable(o)
    requires Open(x.engines[market].BookOf(o.side.Opposite()).queue)
    requires out == Submit(x.engines[market], o).1 && Written(x, x', o, market, out, v)
    requires market in x'.engines && x'.engines[market] == Submit(x.engines[market], o).0
    requires id in x.orders && id != o.id
    ensures OwnRecord(x', id) && (Rests(x'.orders[id]) ==> Live(x', id))
  {
    hide Submit, EngOk, Patched, Eng.Active, Submittable, AllResting, Rests;
    var e := x.engines[market];
    if e.Active(id) {
      var u := ActiveResting(e, id);
      assert RestsFiled(x, market, u);
      SubmitLeaves(e, o);
      LeavesSame(e, out, x'.engines[market], u);
      if Rests(Patched(u, out.fills)) {
        RestingActive(x'.engines[market], Patched(u, out.fills));
      }
    } else {
      NamedRests(e, o, id);
      PatchedApart(x.orders[id], out.fills, o.id);
    }
  }

  lemma WrittenFiled(x: Ex, x': Ex, o: OrderVal, market: string, out: Outcome, v: OrderVal)
    requires FiledBut(x, o.id) && market in x.engines && EngOk(x.engines[market]) && Submittable(o)
    requires Open(x.engines[market].BookOf(o.side.Opposite()).queue)
    requires out == Submit(x.engines[market], o).1 && Written(x, x', o, market, out, v)
    requires market in x'.engines && x'.engines[market] == Submit(x.engines[market], o).0
    requires o.id in x.purse && OwnRecord(x, o.id) && x.purse[o.id].market == market && x.purse[o.id].user == o.user
    requires x.purse[o.id].side == o.side
    ensures Filed(x')
  {
    hide Submit, EngOk, Patched, Eng.Active, Submittable, AllResting, OwnRecord, Rests, RestsFiled, FiledBut;
    forall s, u | s in x'.engines && u in AllResting(x'.engines[s])
      ensures RestsFiled(x', s, u)
    {
      if s == market {
        HereFiled(x, x', o, market, out, v, u);
      } else {
        ElsewhereFiled(x, x', o, market, out, v, s, u);
      }
    }
    forall id | id in x'.orders
      ensures OwnRecord(x', id) && (Rests(x'.orders[id]) ==> Live(x', id))
    {
      if id == o.id {
        NewFiled(x, x', o, market, out, v);
      } else {
        RecordFiled(x, x', o, market, out, v, id);
      }
    }
  }

  lemma NewFiled(x: Ex, x': Ex, o: OrderVal, market: string, out: Outcome, v: OrderVal)
    requires market in x.engines && EngOk(x.engines[market]) && Submittable(o)
    requires Open(x.engines[market].BookOf(o.side.Opposite()).queue)
    requires out == Submit(x.engines[market], o).1 && Written(x, x', o, market, out, v)
    requires market in x'.engines && x'.engines[market] == Submit(x.engines[market], o).0
    requires o.id in x.purse && OwnRecord(x, o.id) && x.purse[o.id].market == market && x.purse[o.id].user == o.user
    requires x.purse[o.id].side == o.side
    ensures OwnRecord(x', o.id) && (Rests(x'.orders[o.id]) ==> Live(x', o.id))
  {
    hide Submit, EngOk, Patched, Eng.Active, Submittable, AllResting, Rests, Standing;
    SubmitLeaves(x.engines[market], o);
    if Rests(v) {
      RestingActive(x'.engines[market], v);
    }
  }

  /** A refused order got no fills, and only an accepted one can rest. */
  lemma OutcomeFacts(e: Eng, o: OrderVal)
    requires EngOk(e) && Submittable(o)
    ensures Open(e.BookOf(o.side.Opposite()).queue)
    ensures var out := Submit(e, o).1;
      && SameOrder(o, out.order)
      && (out.reject.Some? ==> out.fills == [] && !Rests(out.order))
      && (Rests(out.order) ==> Standing(out.order))
  {
    hide Submit, Passes, EngOk;
    if Passes(e, o) {
      Answered(e, o);
      FilledSome(Submit(e, o).1.fills);
      PassedIsNew(e, o);
    } else {
      TurnedDown(e, o);
    }
  }

  lemma PatchedNone(v: OrderVal)
    ensures Patched(v, []) == v
  {
  }

  lemma ExecuteFiled(x: Ex, o: OrderVal, market: string)
    requires ShapeOk(x) && FiledBut(x, o.id) && market in x.markets && Submittable(o) && o.id in x.purse
    requires OwnRecord(x, o.id) && x.purse[o.id].market == market && x.purse[o.id].user == o.user
    requires x.purse[o.id].side == o.side
    ensures market in x.engines && EngOk(x.engines[market]) && Filed(Execute(x, o, market).0)
  {
    hide Submit, EngOk, Patched, Eng.Active, Submittable, AllResting, OwnRecord, Rests, FiledBut, ShapeOk, Closing,
      Execute, SameOwners, Standing;
    KnownOrder(x, o.id, market);
    var e := x.engines[market];
    var out := Submit(e, o).1;
    OutcomeFacts(e, o);
    ExecuteCloses(x, o, market);
    var led, p, orders := ExecuteForm(x, o, market);
    var x' := Execute(x, o, market).0;
    var v := x'.orders[o.id];
    NotResting(out.order);
    if out.reject.Some? {
      forall id | id in x.orders
        ensures Patched(x.orders[id], out.fills) == x.orders[id]
      {
        PatchedNone(x.orders[id]);
      }
    }
    WrittenFiled(x, x', o, market, out, v);
  }

  lemma NotResting(v: OrderVal)
    ensures !Rests(v.(status := Rejected))
  {
  }

  lemma KeepsFiled(x: Ex, x': Ex)
    requires Filed(x) && x'.engines == x.engines && x'.orders == x.orders && x'.purse == x.purse
    ensures Filed(x')
  {
    hide Eng.Active, AllResting, Standing, Rests;
    assert forall id :: Live(x', id) <==> Live(x, id);
    forall s, v | s in x'.engines && v in AllResting(x'.engines[s])
      ensures RestsFiled(x', s, v)
    {
      assert RestsFiled(x, s, v);
    }
  }

  /** A new order's record, before it meets the engine. */
  lemma StoreFiled(x: Ex, led: Led, o: OrderVal, m: Money)
    requires ShapeOk(x) && Filed(x) && o.id !in x.purse && m.market in x.markets && m.user == o.user && m.side == o.side
    ensures var x' := Store(x.(led := led), o, m); FiledBut(x', o.id) && OwnRecord(x', o.id)
    ensures !Rests(o) ==> Filed(Store(x.(led := led), o, m))
  {
    hide EngOk, Eng.Active, AllResting, Standing, Rests;
    var x' := Store(x.(led := led), o, m);
    forall s, v | s in x'.engines && v in AllResting(x'.engines[s])
      ensures RestsFiled(x', s, v)
    {
      assert RestsFiled(x, s, v);
    }
    forall s | s in x.engines
      ensures !x.engines[s].Active(o.id)
    {
      NewNowhere(x, s, o.id);
    }
    forall id | id in x'.orders
      ensures OwnRecord(x', id) && (id != o.id && Rests(x'.orders[id]) ==> Live(x', id))
    {
      if id != o.id {
        assert OwnRecord(x, id);
        assert Live(x, id) ==> Live(x', id);
      }
    }
  }

  lemma NewNowhere(x: Ex, s: string, id: OrderId)
    requires EnginesFiled(x) && s in x.engines && id !in x.purse
    ensures !x.engines[s].Active(id)
  {
    hide Eng.Active, AllResting;
    ActiveRests(x.engines[s], id);
    IdsOf(AllResting(x.engines[s]), id);
    forall v | v in AllResting(x.engines[s])
      ensures v.id != id
    {
      assert RestsFiled(x, s, v);
    }
  }

  lemma StoreShape(x: Ex, led: Led, o: OrderVal, m: Money)
    requires ShapeOk(x) && o.id <= x.lastOrder && m.market in x.markets
    ensures ShapeOk(Store(x.(led := led), o, m))
  {
    hide EngOk;
  }

  lemma MarketEngine(x: Ex, market: string)
    requires ShapeOk(x) && market in x.markets
    ensures market in x.engines && EngOk(x.engines[market])
  {
  }

  lemma FundFiled(x: Ex, o: OrderVal, market: string)
    requires ShapeOk(x) && Filed(x) && market in x.markets && o.id !in x.purse && o.id <= x.lastOrder && Submittable(o)
    ensures market in x.engines && EngOk(x.engines[market]) && Filed(Fund(x, o, market).0)
  {
    hide EngOk, Execute, Freeze, FreezeAmount, Submittable, ShapeOk, Filed, FiledBut, OwnRecord;
    MarketEngine(x, market);
    var refused := o.(status := Rejected);
    NotResting(o);
    match FreezeAmount(o)
    case None => StoreFiled(x, x.led, refused, MoneyOf(o, market, false, 0));
    case Some(amount) =>
      var (led, err) := Freeze(x.led, Account(o.user, x.markets[market].AssetOf(o.side)), amount);
      if err.Some? {
        StoreFiled(x, led, refused, MoneyOf(o, market, false, amount));
      } else {
        var m := MoneyOf(o, market, true, amount);
        StoreFiled(x, led, o, m);
        StoreShape(x, led, o, m);
        ExecuteFiled(Store(x.(led := led), o, m), o, market);
      }
  }

  lemma PlaceFiled(x: Ex, user: string, r: Request)
    requires ShapeOk(x) && Filed(x)
    ensures Filed(Place(x, user, r).0)
  {
    hide EngOk, Fund, Build, Submittable, Filed;
    var id := x.lastOrder + 1;
    var x1 := x.(lastOrder := id);
    KeepsFiled(x, x1);
    if r.market in x.markets && x.markets[r.market].enabled && !r.typ.OtherType? {
      var o := Build(x.markets[r.market], id, user, r);
      if o.Ok? {
        BuildStakes(x.markets[r.market], id, user, r);
        FundFiled(x1, o.value, r.market);
      }
    }
  }

  // ---- cancelling ----

  /** A stored order is live exactly if its record says that it rests. */
  lemma LiveExact(x: Ex, id: OrderId)
    requires ShapeOk(x) && Filed(x)
    ensures Live(x, id) <==> id in x.orders && Rests(x.orders[id])
    ensures Live(x, id) ==> x.orders[id] in AllResting(x.engines[x.purse[id].market])
  {
    hide EngOk, Eng.Active, AllResting;
    if Live(x, id) {
      var v := ActiveResting(x.engines[x.purse[id].market], id);
      assert RestsFiled(x, x.purse[id].market, v);
    }
  }

  /** The engine's cancel of a live order hands back its record, marked as canceled. */
  lemma EngineCancels(x: Ex, id: OrderId)
    requires ShapeOk(x) && Filed(x) && Live(x, id)
    ensures id in x.orders
    ensures Cancel(x.engines[x.purse[id].market], id).1 == Some(x.orders[id].(status := Canceled))
  {
    hide EngOk, Eng.Active, AllResting, Cancel;
    var s := x.purse[id].market;
    EngineIn(x, s);
    CancelAnswered(x.engines[s], id);
    var u :| u in AllResting(x.engines[s]) && u.id == id
      && Cancel(x.engines[s], id).1 == Some(u.(status := Canceled));
    assert RestsFiled(x, s, u);
  }

  lemma CancelReads(x: Ex, user: string, id: OrderId)
    requires ShapeOk(x)
    ensures CancelScreen(x, user, id).Some? ==> CancelOrder(x, user, id) == (x, Err(CancelScreen(x, user, id).value))
    ensures CancelScreen(x, user, id).None? ==>
      && id in x.purse && x.purse[id].market in x.engines
      && var c := Cancel(x.engines[x.purse[id].market], id).1;
      && (c.Some? <==> Live(x, id))
      && (c.None? ==> CancelOrder(x, user, id) == (x, Err(OrderNotFound)))
      && (c.Some? ==> CancelOrder(x, user, id).1 == Ok(c.value)
                      && CancelOrder(x, user, id).0.orders == x.orders[id := c.value])
  {
    hide Cancel, Release, EngOk, Eng.Active;
    if CancelScreen(x, user, id).None? {
      EngineIn(x, x.purse[id].market);
      CancelOk(x.engines[x.purse[id].market], id);
    }
  }

  lemma ReleasesOwn(led: Led, p: Purse, id: OrderId, a: Account)
    requires id in p
    ensures forall b: Account :: b != a ==> Get(Release(led, p, id, a).0, b) == Get(led, b)
  {
  }

  /** What a cancel of an order is answered, told by its record alone. */
  function CancelAnswer(x: Ex, user: string, id: OrderId): Result<OrderVal, Error> {
    if id !in x.orders || x.orders[id].user != user then Err(OrderNotFound)
    else
      match x.orders[id].status
      case Filled | Canceled => Err(OrderAlreadyFilled)
      case Rejected | Expired => Err(OrderNotFound)
      case New | PartiallyFilled => Ok(x.orders[id].(status := Canceled))
  }

  /**
   A cancel succeeds exactly for its owner and exactly while the record says that the order
   rests. It then takes that order and no other out of the books, marks its record, and moves
   balances of its owner alone. Any other cancel says why, and changes nothing.
   */
  lemma CancelExactly(x: Ex, user: string, id: OrderId)
    requires ShapeOk(x) && Filed(x)
    ensures var (x', r) := CancelOrder(x, user, id);
      && r == CancelAnswer(x, user, id)
      && (r.Err? ==> x' == x)
      && (r.Ok? ==> x'.orders == x.orders[id := r.value] && forall i :: Live(x', i) <==> Live(x, i) && i != id)
      && (forall b: Account :: b.user != user ==> Get(x'.led, b) == Get(x.led, b))
  {
    hide ShapeOk, Filed, Cancel, Release, Get, Live, CancelOrder, AllResting;
    LiveExact(x, id);
    CancelReads(x, user, id);
    if CancelOrder(x, user, id).1.Ok? {
      CancelIs(x, user, id);
      CancelLive(x, user, id);
      EngineCancels(x, id);
      OwnAt(x, id);
      ReleasesOwn(x.led, x.purse, id, x.AccountOf(x.purse[id]));
    } else if Live(x, id) {
      EngineCancels(x, id);
    }
  }

  lemma OwnAt(x: Ex, id: OrderId)
    requires Filed(x) && id in x.orders
    ensures OwnRecord(x, id)
  {
  }

  // ---- runs ----

  lemma CancelFiled(x: Ex, user: string, id: OrderId)
    requires ShapeOk(x) && Filed(x)
    ensures Filed(CancelOrder(x, user, id).0)
  {
    hide ShapeOk, Filed, OwnRecord, Cancel, Release, CancelOrder, EngOk, Standing, Get;
    CancelExactly(x, user, id);
    var (x', r) := CancelOrder(x, user, id);
    if r.Ok? {
      CancelIs(x, user, id);
      var m := x.purse[id];
      ReleaseOwners(x.led, x.purse, id, x.AccountOf(m));
      EngineIn(x, m.market);
      CancelAnswered(x.engines[m.market], id);
      CancelledFiled(x, x', id);
    }
  }

  lemma CancelledFiled(x: Ex, x': Ex, id: OrderId)
    requires Filed(x) && id in x.purse && x.purse[id].market in x.engines && id in x.orders
    requires x'.engines.Keys == x.engines.Keys && SameOwners(x.purse, x'.purse)
    requires forall s :: s in x.engines && s != x.purse[id].market ==> x'.engines[s] == x.engines[s]
    requires forall v :: v in AllResting(x'.engines[x.purse[id].market]) <==>
      v in AllResting(x.engines[x.purse[id].market]) && v.id != id
    requires x'.orders == x.orders[id := x.orders[id].(status := Canceled)]
    requires forall i :: Live(x', i) <==> Live(x, i) && i != id
    ensures Filed(x')
  {
    hide Live, AllResting, Standing, Eng.Active;
    forall s, v | s in x'.engines && v in AllResting(x'.engines[s])
      ensures RestsFiled(x', s, v)
    {
      assert RestsFiled(x, s, v);
    }
    forall i | i in x'.orders
      ensures OwnRecord(x', i) && (Rests(x'.orders[i]) ==> Live(x', i))
    {
      assert OwnRecord(x, i);
    }
  }

  lemma StepFiled(x: Ex, c: Call)
    requires ShapeOk(x) && Filed(x)
    ensures Filed(Step(x, c))
  {
    hide ShapeOk, Filed, Place, CancelOrder, Deposit, Credit, SubmitWithdrawal, Approve, Reject, Confirm;
    match c
    case PlaceCall(u, r) => PlaceFiled(x, u, r);
    case CancelCall(u, id) => CancelFiled(x, u, id);
    case _ =>
      WalletCalls(x, c);
      KeepsFiled(x, Step(x, c));
  }

  /** Over any run, careless cancels and failed settlements included, the records agree with the engines. */
  lemma {:induction false} RunFiled(x: Ex, calls: seq<Call>)
    requires ShapeOk(x) && Filed(x)
    ensures Filed(Run(x, calls))
    decreases |calls|
  {
    hide ShapeOk, Filed, Step;
    if calls != [] {
      StepShape(x, calls[0]);
      StepFiled(x, calls[0]);
      RunFiled(Step(x, calls[0]), calls[1..]);
    }
  }

  lemma OpeningFiled(x: Ex)
    requires Opening(x)
    ensures ShapeOk(x) && Filed(x)
  {
    EmptyOk();
  }

  /** In every reachable state a cancel is answered by the order's record, and moves its owner's balances alone. */
  lemma RunCancels(x: Ex, calls: seq<Call>, user: string, id: OrderId)
    requires Opening(x)
    ensures ShapeOk(x)
    ensures var y := Run(x, calls);
      var (y', r) := CancelOrder(y, user, id);
      && r == CancelAnswer(y, user, id)
      && (r.Err? ==> y' == y)
      && (r.Ok? ==> y'.orders == y.orders[id := r.value] && forall i :: Live(y', i) <==> Live(y, i) && i != id)
      && (forall b: Account :: b.user != user ==> Get(y'.led, b) == Get(y.led, b))
  {
    hide ShapeOk, Filed, Run, CancelOrder, Get, Live, Opening;
    OpeningFiled(x);
    RunFiled(x, calls);
    CancelExactly(Run(x, calls), user, id);
  }
}
