/**
 The engines of all markets, as the order service's map of engines holds them: each has its
 own books, levels and orders, so a call to one leaves the others as they were.
 */
module EngineRoom {
  import opened Wrappers
  import opened Domain
  import opened FixedPoint
  import opened Matching
  import opened LevelHeap
  import opened MatchingEngine
  import EngineModel
  import Books
  import Sets

  /** Every object an engine may read or change. */
  ghost function Parts(e: Engine): set<object>
    reads e.bids, e.asks
  {
    {e} + e.Books() + e.OrderSet()
  }

  /** The makers of a submit's fills were active before it. */
  lemma FillsActive(e: EngineModel.Eng, o: OrderVal)
    requires EngineModel.EngOk(e) && EngineModel.Submittable(o)
    ensures var fills := EngineModel.Submit(e, o).1.fills;
      forall i :: 0 <= i < |fills| ==> e.Active(fills[i].maker.id)
  {
    hide EngineModel.EngOk, Books.MatchBook, Books.AddOrder, Eat, MakersWithin, PrefixEaten;
    var b := e.BookOf(o.side.Opposite());
    EngineModel.BookOkIn(e, o.side.Opposite());
    Books.MatchBookIsEat(o, b, e.seqNo);
    EatPriority(o, b.queue, e.seqNo);
    var fills := Eat(o, b.queue, e.seqNo).fills;
    forall i | 0 <= i < |fills|
      ensures e.Active(fills[i].maker.id)
    {
      MakerRests(b, fills, EatenWhole(fills), i);
    }
  }

  lemma MakerRests(b: Books.Book, fills: seq<Fill>, k: nat, i: nat)
    requires MakersWithin(fills, b.queue, k) && i < |fills|
    ensures HasId(b.Resting(), fills[i].maker.id)
  {
    assert IdWithin(b.queue, k, fills[i].maker.id);
    var j :| 0 <= j < |b.queue| && j <= k && b.queue[j].id == fills[i].maker.id;
    assert b.Resting()[j] == b.queue[j];
  }

  /** An engine that holds nothing. */
  ghost predicate Empty(e: Engine)
    reads e, e.bids, e.asks, Parts(e)
  {
    e.Valid() && e.Abs() == EngineModel.EMPTY_ENGINE && e.OrderSet() == {}
  }

  class EngineRoom {
    const engines: map<string, Engine>

    constructor (engines: map<string, Engine>)
      ensures this.engines == engines
    {
      this.engines := engines;
    }

    /** A new, empty engine for every name. */
    static method NewEngines(names: set<string>) returns (made: map<string, Engine>)
      ensures made.Keys == names
      ensures forall s :: s in made ==> Empty(made[s]) && fresh(Parts(made[s]))
      ensures forall s, t :: s in made && t in made && s != t ==> Parts(made[s]) !! Parts(made[t])
    {
      hide Empty, Parts;
      made := map[];
      var rest := names;
      ghost var parts: map<string, set<object>> := map[];
      while rest != {}
        invariant rest <= names && made.Keys == names - rest && parts.Keys == made.Keys
        invariant forall s :: s in made ==> Empty(made[s]) && parts[s] == Parts(made[s]) && fresh(parts[s])
        invariant forall s, t :: s in made && t in made && s != t ==> parts[s] !! parts[t]
        decreases rest
      {
        ghost var some := Sets.Member(rest);
        var s :| s in rest;
        label Before:
        var e := NewEngine();
        forall t | t in made
          ensures Empty(made[t]) && parts[t] == Parts(made[t])
        {
          StaysEmpty@Before(made[t]);
        }
        made, parts, rest := made[s := e], parts[s := Parts(e)], rest - {s};
      }
    }

    static twostate lemma StaysEmpty(e: Engine)
      requires old(Empty(e)) && unchanged(old(Parts(e)))
      ensures Empty(e) && Parts(e) == old(Parts(e))
    {
      hide Engine.Valid, Engine.Abs;
    }

    static method NewEngine() returns (e: Engine)
      ensures Empty(e) && fresh(Parts(e))
    {
      e := new Engine();
    }

    static lemma PartsAllocated(e: Engine)
      ensures forall p :: p in Parts(e) ==> allocated(p)
    {
    }

    /** The room of new, empty engines. */
    static method Build(names: set<string>) returns (room: EngineRoom)
      ensures fresh(room) && fresh(room.AllParts()) && room.engines.Keys == names
      ensures room.Running(map s | s in room.engines :: EngineModel.EMPTY_ENGINE) && room.AllOrders() == {}
    {
      hide Empty, Parts, EngineRoom.Running, EngineRoom.AllOrders;
      var engines := NewEngines(names);
      ghost var parts := map s | s in engines :: Parts(engines[s]);
      forall s | s in engines
        ensures forall p :: p in parts[s] ==> allocated(p)
      {
        PartsAllocated(engines[s]);
      }
      label Made:
      room := new EngineRoom(engines);
      forall s | s in engines
        ensures Empty(engines[s]) && parts[s] == Parts(engines[s])
      {
        assert old@Made(Parts(engines[s])) == parts[s];
        assert unchanged@Made(parts[s]);
        StaysEmpty@Made(engines[s]);
      }
      room.EmptyRoom();
    }

    ghost function AllBooks(): set<object> {
      (set s | s in engines :: engines[s].bids) + (set s | s in engines :: engines[s].asks)
    }

    ghost function AllParts(): set<object>
      reads AllBooks()
    {
      set s, o | s in engines && o in Parts(engines[s]) :: o
    }

    /** Every order any engine ever held. */
    ghost function AllOrders(): set<Order>
      reads AllBooks()
    {
      set s, o | s in engines && o in engines[s].OrderSet() :: o
    }

    /** No two engines share an object. */
    ghost predicate Apart()
      reads AllBooks()
    {
      forall s, t :: s in engines && t in engines && s != t ==> Parts(engines[s]) !! Parts(engines[t])
    }

    lemma PartsIn(s: string)
      requires s in engines
      ensures Parts(engines[s]) <= AllParts() && engines[s].OrderSet() <= AllOrders()
    {
    }

    lemma AllAllocated()
      ensures forall p :: p in AllParts() ==> allocated(p)
    {
    }

    lemma BooksIn()
      ensures AllBooks() <= AllParts()
    {
      hide AllParts;
      forall s | s in engines
        ensures engines[s].bids in AllParts() && engines[s].asks in AllParts()
      {
        PartsIn(s);
      }
    }

    lemma ApartFrom(s: string, market: string, o: Order)
      requires Apart() && s in engines && market in engines && s != market && o !in AllParts()
      ensures Parts(engines[s]) !! Parts(engines[market]) + {o}
      ensures forall p :: p in Parts(engines[s]) ==> allocated(p)
    {
      PartsIn(s);
    }

    /** An engine none of whose objects changed is where it was. */
    twostate lemma Untouched(s: string)
      requires s in engines && old(engines[s].Valid()) && unchanged(old(Parts(engines[s])))
      ensures StaysAt(s)
    {
      hide Engine.Valid, Engine.Abs;
    }

    /** All engines are sound and apart. */
    ghost predicate Sound()
      reads AllBooks(), AllParts()
    {
      Apart() && forall s :: s in engines ==> SoundAt(s)
    }

    ghost predicate SoundAt(s: string)
      requires s in engines
      reads AllBooks(), AllParts()
    {
      PartsIn(s);
      engines[s].Valid()
    }

    lemma SoundIn(s: string)
      requires Sound() && s in engines
      ensures engines[s].Valid()
    {
    }

    /** One engine moved on, with new objects of its own; the others stayed. */
    twostate lemma MovedOn(market: string)
      requires market in engines && old(Apart())
      requires forall s :: s in engines && s != market ==> Parts(engines[s]) == old(Parts(engines[s]))
      requires forall p :: p in Parts(engines[market]) && p !in old(Parts(engines[market])) ==> p !in old(AllParts())
      ensures Apart()
    {
      hide Parts;
      forall s, t | s in engines && t in engines && s != t
        ensures Parts(engines[s]) !! Parts(engines[t])
      {
        MovedFrom((market, if s == market then t else s));
        if s != market && t != market {
          assert old(Parts(engines[s])) !! old(Parts(engines[t]));
        }
      }
    }

    twostate lemma MovedFrom(pair: (string, string))
      requires pair.0 in engines && pair.1 in engines && old(Apart())
      requires pair.0 != pair.1 ==> Parts(engines[pair.1]) == old(Parts(engines[pair.1]))
      requires forall p :: p in Parts(engines[pair.0]) && p !in old(Parts(engines[pair.0])) ==> p !in old(AllParts())
      ensures pair.0 != pair.1 ==> Parts(engines[pair.0]) !! Parts(engines[pair.1])
    {
      hide Parts;
      assert old(Parts(engines[pair.1])) <= old(AllParts());
      assert pair.0 != pair.1 ==> old(Parts(engines[pair.0])) !! old(Parts(engines[pair.1]));
    }

    static predicate WasActiveIn(e: Engine, x: Order)
      reads e
    {
      x.id in e.active && e.active[x.id] == x
    }

    static lemma OwnOrders(e: Engine)
      ensures forall o :: o in e.OrderSet() ==> o in Parts(e)
    {
    }

    /**
     What a submit of `o` with these fills leaves of an engine's objects: new ones are fresh
     or `o`, and every order it held is as the fills leave it.
     */
    static twostate predicate Grew(served: (Engine, Order, seq<Fill>))
      reads served.0.bids, served.0.asks, Parts(served.0), served.1
    {
      var (e, o, fills) := served;
      && fresh(Parts(e) - old(Parts(e)) - {o})
      && old(e.OrderSet()) <= e.OrderSet() <= old(e.OrderSet()) + {o}
      && forall x :: x in old(e.OrderSet()) ==>
        x.View() == if old(WasActiveIn(e, x)) then Patched(old(x.View()), fills) else old(x.View())
    }

    /** Submit to an engine, all its objects in the frame. */
    static method SubmitTo(e: Engine, o: Order)
      returns (trades: seq<Trade>, reject: Option<Error>, ghost fills: seq<Fill>)
      requires e.Valid() && o !in e.OrderSet()
      requires EngineModel.Submittable(o.View()) && o.remainingQuote <= MAX_INT64
      modifies o, Parts(e)
      ensures e.Valid() && Open(old(e.Abs()).BookOf(o.side.Opposite()).queue)
      ensures (e.Abs(), EngineModel.Outcome(o.View(), fills, reject)) == EngineModel.Submit(old(e.Abs()), old(o.View()))
      ensures trades == TradesOf(fills) && Grew((e, o, fills))
    {
      hide Engine.Valid, Engine.Abs, EngineModel.Submit, EngineModel.Submittable, EngineModel.EngOk, Open;
      e.EngOkNow();
      trades, reject, fills := e.Submit(o);
    }

    /** Every engine but one is sound and where it was. */
    twostate predicate OthersStay(market: string)
      reads AllBooks(), AllParts()
    {
      forall s :: s in engines && s != market ==> StaysAt(s)
    }

    twostate predicate StaysAt(s: string)
      requires s in engines
      reads AllBooks(), AllParts()
    {
      PartsIn(s);
      && engines[s].Valid() && engines[s].Abs() == old(engines[s].Abs())
      && Parts(engines[s]) == old(Parts(engines[s]))
    }

    /** Submit to one engine; the others stay where they were. */
    method SubmitApart(market: string, e: Engine, o: Order)
      returns (trades: seq<Trade>, reject: Option<Error>, ghost fills: seq<Fill>)
      requires market in engines && engines[market] == e && o !in AllParts() && Sound()
      requires EngineModel.Submittable(o.View()) && o.remainingQuote <= MAX_INT64
      modifies o, Parts(e)
      ensures e.Valid() && OthersStay(market) && Apart() && trades == TradesOf(fills)
      ensures Open(old(e.Abs()).BookOf(o.side.Opposite()).queue)
      ensures (e.Abs(), EngineModel.Outcome(o.View(), fills, reject)) == EngineModel.Submit(old(e.Abs()), old(o.View()))
      ensures Grew((e, o, fills))
    {
      hide Engine.Valid, Engine.Abs, EngineModel.Submit, EngineModel.Submittable, Apart, AllParts, AllBooks, Parts,
        WasActiveIn, StaysAt;
      SoundIn(market);
      PartsIn(market);
      ghost var parts := map s | s in engines :: Parts(engines[s]);
      forall s | s in engines && s != market
        ensures engines[s].Valid()
        ensures parts[s] !! parts[market] + {o}
        ensures forall p :: p in parts[s] ==> allocated(p)
      {
        SoundIn(s);
        ApartFrom(s, market, o);
      }
      AllAllocated();
      OwnOrders(e);
      trades, reject, fills := SubmitTo(e, o);
      forall s | s in engines && s != market
        ensures StaysAt(s)
      {
        assert unchanged(parts[s]);
        Untouched(s);
      }
      OthersParts(market);
      MovedOn(market);
    }

    twostate lemma OthersParts(market: string)
      requires OthersStay(market)
      ensures forall s :: s in engines && s != market ==> Parts(engines[s]) == old(Parts(engines[s]))
    {
    }

    /** The order object a cancel hands back is as the specified cancel says. */
    static ghost predicate TakenOut(canceled: Order?, id: OrderId, found: Option<OrderVal>)
      reads if canceled == null then {} else {canceled}
    {
      match found
      case None => canceled == null
      case Some(v) => canceled != null && canceled.id == id && canceled.View() == v
    }

    /** The engine and the order handed back are as the specified cancel of `was` says. */
    static ghost predicate CancelIs(e: Engine, was: EngineModel.Eng, id: OrderId, canceled: Order?)
      reads e, e.bids, e.asks, Parts(e), if canceled == null then {} else {canceled}
    {
      e.Abs() == EngineModel.Cancel(was, id).0 && TakenOut(canceled, id, EngineModel.Cancel(was, id).1)
    }

    /** The engine got no new object, and every order it held but the one canceled is as it was. */
    static twostate predicate KeptBut(e: Engine, new canceled: Order?)
      reads e.bids, e.asks, Parts(e), e.OrderSet()
    {
      && Parts(e) <= old(Parts(e)) && e.OrderSet() == old(e.OrderSet())
      && forall x :: x in old(e.OrderSet()) && x != canceled ==> x.View() == old(x.View())
    }

    /** Cancel in an engine, all its objects in the frame. */
    static method CancelIn(e: Engine, id: OrderId) returns (canceled: Order?)
      requires e.Valid()
      modifies Parts(e)
      ensures e.Valid()
      ensures CancelIs(e, old(e.Abs()), id, canceled)
      ensures canceled != null ==> canceled in e.OrderSet()
      ensures KeptBut(e, canceled)
    {
      hide Engine.Valid, Engine.Abs, EngineModel.Cancel;
      KnownActive(e, id);
      canceled := e.Cancel(id);
    }

    static lemma KnownActive(e: Engine, id: OrderId)
      requires e.Valid()
      ensures id in e.active ==> e.active[id] in e.OrderSet() && e.active[id].id == id
    {
      hide Engine.Valid;
      if id in e.active {
        e.ActiveRests(id);
      }
    }

    /** Cancel in one engine; the others stay where they were. */
    method CancelApart(market: string, e: Engine, id: OrderId) returns (canceled: Order?)
      requires market in engines && engines[market] == e && Sound()
      modifies Parts(e)
      ensures e.Valid() && OthersStay(market) && Apart()
      ensures CancelIs(e, old(e.Abs()), id, canceled)
      ensures canceled != null ==> canceled in e.OrderSet()
      ensures KeptBut(e, canceled)
    {
      hide Engine.Valid, Engine.Abs, EngineModel.Cancel, Apart, AllParts, AllBooks, Parts, StaysAt;
      SoundIn(market);
      ghost var parts := map s | s in engines :: Parts(engines[s]);
      forall s | s in engines && s != market
        ensures engines[s].Valid()
        ensures parts[s] !! parts[market]
        ensures forall p :: p in parts[s] ==> allocated(p)
      {
        SoundIn(s);
        ApartPair(s, market);
      }
      canceled := CancelIn(e, id);
      forall s | s in engines && s != market
        ensures StaysAt(s)
      {
        assert unchanged(parts[s]);
        Untouched(s);
      }
      OthersParts(market);
      MovedOn(market);
    }

    lemma ApartPair(s: string, market: string)
      requires Apart() && s in engines && market in engines && s != market
      ensures Parts(engines[s]) !! Parts(engines[market])
      ensures forall p :: p in Parts(engines[s]) ==> allocated(p)
    {
    }

    /** The orders among an engine's objects are the ones it held. */
    static lemma OrdersOfParts(e: Engine)
      ensures forall x: Order :: x in Parts(e) ==> x in e.OrderSet()
    {
    }

    /** Every engine is sound, and where `es` says. */
    ghost predicate Running(es: map<string, EngineModel.Eng>)
      reads AllBooks(), AllParts()
    {
      Sound() && engines.Keys == es.Keys && forall s :: s in engines ==> AbsAt(s) == es[s]
    }

    ghost function AbsAt(s: string): EngineModel.Eng
      requires s in engines
      reads AllBooks(), AllParts()
    {
      PartsIn(s);
      engines[s].Abs()
    }

    /** After one engine moved on and the others stayed, all run. */
    twostate lemma Resumes(at: (string, map<string, EngineModel.Eng>))
      requires at.0 in engines && old(Running(at.1)) && OthersStay(at.0)
      requires engines[at.0].Valid() && Apart()
      ensures Running(at.1[at.0 := engines[at.0].Abs()])
    {
      hide Engine.Valid, Engine.Abs, Apart;
      var (market, es) := at;
      forall s | s in engines
        ensures SoundAt(s) && AbsAt(s) == es[market := engines[market].Abs()][s]
      {
        if s != market {
          assert StaysAt(s);
          assert old(AbsAt(s)) == es[s];
        }
      }
    }

    /** What one engine's objects grow by is all that the room's grow by. */
    twostate lemma RoomGrew(market: string)
      requires market in engines && OthersStay(market)
      ensures forall p :: p in AllParts() ==> p in old(AllParts()) || p in Parts(engines[market])
      ensures forall x :: x in AllOrders() ==> x in old(AllOrders()) || x in engines[market].OrderSet()
    {
      OthersParts(market);
      OthersOrders(market);
    }

    twostate lemma OthersOrders(market: string)
      requires OthersStay(market)
      ensures forall s :: s in engines && s != market ==> engines[s].OrderSet() == old(engines[s].OrderSet())
    {
      forall s | s in engines && s != market
        ensures engines[s].OrderSet() == old(engines[s].OrderSet())
      {
        assert StaysAt(s);
        OrdersOfParts(engines[s]);
        OwnOrders(engines[s]);
        SameOrders(s);
      }
    }

    twostate lemma SameOrders(s: string)
      requires s in engines && Parts(engines[s]) == old(Parts(engines[s]))
      ensures engines[s].OrderSet() == old(engines[s].OrderSet())
    {
      forall x: Order | x in engines[s].OrderSet()
        ensures x in old(engines[s].OrderSet())
      {
        assert x in old(Parts(engines[s]));
      }
      forall x: Order | x in old(engines[s].OrderSet())
        ensures x in engines[s].OrderSet()
      {
        assert x in Parts(engines[s]);
      }
    }

    lemma EmptyRoom()
      requires forall s :: s in engines ==> Empty(engines[s])
      requires forall s, t :: s in engines && t in engines && s != t ==> Parts(engines[s]) !! Parts(engines[t])
      ensures Running(map s | s in engines :: EngineModel.EMPTY_ENGINE) && AllOrders() == {}
    {
      hide Engine.Valid, Engine.Abs;
    }
  }
}
