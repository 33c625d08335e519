/**
 What the trades of a run say about an order: the part of its settled cost that it does not
 record as spent is exactly what those trades cost it as their maker.
 */
module TradeHistory {
  import opened Domain
  import opened Matching
  import opened EngineModel
  import opened Ledger
  import opened Settlement
  import opened Exchange
  import opened Solvency
  import opened SolventRuns

  /** The fills a call reports. */
  function FillsOf(x: Ex, c: Call): seq<Fill>
    requires ShapeOk(x)
  {
    if c.PlaceCall? && Place(x, c.user, c.req).1.Done? then Place(x, c.user, c.req).1.fills else []
  }

  /** The fills all calls of a run report, in order. */
  function History(x: Ex, calls: seq<Call>): seq<Fill>
    requires ShapeOk(x)
    decreases |calls|
  {
    if calls == [] then []
    else
      StepShape(x, calls[0]);
      FillsOf(x, calls[0]) + History(Step(x, calls[0]), calls[1..])
  }

  /** No order of the run met an order of its own user. */
  ghost predicate NoSelfTrades(x: Ex, calls: seq<Call>)
    requires ShapeOk(x)
    decreases |calls|
  {
    calls == []
    || ((calls[0].PlaceCall? ==> !Place(x, calls[0].user, calls[0].req).1.Unsettled?)
        && (StepShape(x, calls[0]); NoSelfTrades(Step(x, calls[0]), calls[1..])))
  }

  /** What was settled against an order beyond what it records as spent. */
  function Unrecorded(x: Ex, id: OrderId): int {
    if id in x.purse then x.purse[id].settled - x.purse[id].spent else 0
  }

  lemma {:induction false} MakerCostConcat(fs: seq<Fill>, gs: seq<Fill>, id: OrderId)
    ensures MakerCost(fs + gs, id) == MakerCost(fs, id) + MakerCost(gs, id)
    decreases |fs|
  {
    hide Cost;
    if fs == [] {
      assert fs + gs == gs;
    } else {
      assert (fs + gs)[1..] == fs[1..] + gs;
      MakerCostConcat(fs[1..], gs, id);
    }
  }

  lemma {:induction false} MakerCostNone(fills: seq<Fill>, p: Purse, id: OrderId)
    requires MakersKnown(fills, p) && id !in p
    ensures MakerCost(fills, id) == 0
    decreases |fills|
  {
    hide Cost;
    if fills != [] {
      assert forall i :: 0 <= i < |fills[1..]| ==> fills[1..][i] == fills[i + 1];
      MakerCostNone(fills[1..], p, id);
    }
  }

  lemma PlaceUnrecorded(x: Ex, user: string, r: Request, id: OrderId)
    requires Inv(x) && !Place(x, user, r).1.Unsettled?
    ensures Unrecorded(Place(x, user, r).0, id) == Unrecorded(x, id) + MakerCost(FillsOf(x, PlaceCall(user, r)), id)
  {
    InvParts(x);
    hide Place, Inv, ShapeOk, MakerCost, TakenBy, NoSelfTrade, CostOf;
    if id !in x.purse {
      NewUnrecorded(x, user, r, id);
    } else if Place(x, user, r).1.Done? {
      PlaceRecords(x, user, r, id);
    } else {
      RefusedRecords(x, user, r, id);
      NoCost(id);
    }
  }

  lemma NoCost(id: OrderId)
    ensures MakerCost([], id) == 0
  {
  }

  /** A new order records everything settled against it, and no call's trades cost an order that is not there yet. */
  lemma NewUnrecorded(x: Ex, user: string, r: Request, id: OrderId)
    requires Inv(x) && id !in x.purse && !Place(x, user, r).1.Unsettled?
    ensures Unrecorded(Place(x, user, r).0, id) == 0 == MakerCost(FillsOf(x, PlaceCall(user, r)), id)
  {
    InvParts(x);
    hide Place, Inv, ShapeOk, MakerCost, TakenBy, NoSelfTrade, CostOf, MakersKnown;
    NoCost(id);
    if Place(x, user, r).1.Done? {
      DoneUnrecorded(x, user, r, id);
    } else {
      RefusedRecords(x, user, r, id);
    }
  }

  lemma DoneUnrecorded(x: Ex, user: string, r: Request, id: OrderId)
    requires Inv(x) && id !in x.purse && Place(x, user, r).1.Done?
    ensures Unrecorded(Place(x, user, r).0, id) == 0 == MakerCost(Place(x, user, r).1.fills, id)
  {
    InvParts(x);
    hide Place, Inv, ShapeOk, MakerCost, TakenBy, NoSelfTrade, CostOf, MakersKnown;
    PlaceKeeps(x, user, r);
    PlaceOwn(x, user, r);
    MakerCostNone(Place(x, user, r).1.fills, x.purse, id);
    if id in Place(x, user, r).0.purse {
      PlaceAdds(x, user, r, id);
    }
  }

  /** A cancel gives frozen funds back; what was settled and spent stays. */
  lemma CancelUnrecorded(x: Ex, user: string, id': OrderId, id: OrderId)
    requires ShapeOk(x)
    ensures Unrecorded(CancelOrder(x, user, id').0, id) == Unrecorded(x, id)
  {
    hide EngOk, Cancel, Unfreeze;
  }

  lemma StepUnrecorded(x: Ex, c: Call, id: OrderId)
    requires Inv(x) && (c.PlaceCall? ==> !Place(x, c.user, c.req).1.Unsettled?)
    ensures Unrecorded(Step(x, c), id) == Unrecorded(x, id) + MakerCost(FillsOf(x, c), id)
  {
    InvParts(x);
    hide Place, CancelOrder, Inv, ShapeOk, Unrecorded, MakerCost, Deposit, Credit, SubmitWithdrawal, Approve,
      Reject, Confirm;
    NoCost(id);
    match c
    case PlaceCall(u, r) => PlaceUnrecorded(x, u, r, id);
    case CancelCall(u, id') => CancelUnrecorded(x, u, id', id);
    case _ =>
      WalletCalls(x, c);
      SamePurse(x, Step(x, c), id);
  }

  lemma SamePurse(x: Ex, x': Ex, id: OrderId)
    requires x'.purse == x.purse
    ensures Unrecorded(x', id) == Unrecorded(x, id)
  {
  }

  /**
   Along a prudent run without self-trades, an order's unrecorded cost is what the reported
   trades cost it as their maker.
   */
  lemma {:induction false} RunUnrecorded(x: Ex, calls: seq<Call>, id: OrderId)
    requires Inv(x) && PrudentRun(x, calls) && NoSelfTrades(x, calls)
    ensures Unrecorded(Run(x, calls), id) == Unrecorded(x, id) + MakerCost(History(x, calls), id)
    decreases |calls|
  {
    if calls == [] {
      NoCost(id);
    } else {
      StepUnrecorded(x, calls[0], id);
      StepExact(x, calls[0]);
      StepShape(x, calls[0]);
      hide Inv, MakerCost, Unrecorded, Step, FillsOf;
      RunUnrecorded(Step(x, calls[0]), calls[1..], id);
      MakerCostConcat(FillsOf(x, calls[0]), History(Step(x, calls[0]), calls[1..]), id);
    }
  }

  /**
   What a caller can check before a cancel: after a prudent run from the opening state
   without self-trades, cancelling an order keeps the exchange sound exactly when the trades
   reported so far cost the order nothing as their maker.
   */
  lemma CancelByHistory(x: Ex, calls: seq<Call>, user: string, id: OrderId)
    requires Opening(x) && ShapeOk(x) && PrudentRun(x, calls) && NoSelfTrades(x, calls)
    requires CancelOrder(Run(x, calls), user, id).1.Ok?
    ensures Inv(CancelOrder(Run(x, calls), user, id).0) <==> MakerCost(History(x, calls), id) <= 0
  {
    OpeningSound(x);
    PrudentRunSound(x, calls);
    RunUnrecorded(x, calls, id);
    NothingYet(x, id);
    hide Inv, Run, PrudentRun, NoSelfTrades, History, CancelOrder, MakerCost, Opening;
    CancelExact(Run(x, calls), user, id);
  }

  lemma NothingYet(x: Ex, id: OrderId)
    requires Opening(x)
    ensures Unrecorded(x, id) == 0
  {
  }
}
