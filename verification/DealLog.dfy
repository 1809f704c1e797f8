/** The event log of the exchange against the orders and the fills it is about. */
module DealLog {
  import opened U64
  import opened Ledger
  import opened Runs
  import opened Answers
  import opened Moves
  import opened Effects
  import opened OrderLife
  import opened IndexAgreement

  /** Units dealt by the log under `id` since the order was last made. */
  function Dealt(events: seq<Event>, id: Hash): nat {
    if events == [] then 0 else
      var before, e := events[..|events| - 1], events[|events| - 1];
      if e.NewOrder? && e.orderId == id then 0
      else Dealt(before, id) + if e.NewDeal? && e.orderId == id then e.amount else 0
  }

  /** Everything logged under `id` since the order was last made has the terms of `o`. */
  predicate DealsCarry(events: seq<Event>, id: Hash, o: Order) {
    events != [] &&
    var before, e := events[..|events| - 1], events[|events| - 1];
    if e.NewOrder? && e.orderId == id then e == NewOrder(id, o.maker, o.assetId, o.moneyId, o.direction)
    else
      && DealsCarry(before, id, o)
      && (e.NewDeal? && e.orderId == id ==>
            e == NewDeal(id, o.assetId, o.moneyId, o.maker, e.taker, o.price, e.amount, o.direction))
  }

  /** How often the log opens an order under `id`, less how often it closes one. */
  function OpenCount(events: seq<Event>, id: Hash): int {
    if events == [] then 0 else
      var before, e := events[..|events| - 1], events[|events| - 1];
      OpenCount(before, id)
      + (if e.NewOrder? && e.orderId == id then 1 else 0)
      - (if (e.OrderFinished? || e.OrderCanceled?) && e.orderId == id then 1 else 0)
  }

  lemma OneMore(events: seq<Event>, e: Event, id: Hash)
    ensures Dealt(events + [e], id) ==
            if e.NewOrder? && e.orderId == id then 0
            else Dealt(events, id) + if e.NewDeal? && e.orderId == id then e.amount else 0
    ensures OpenCount(events + [e], id) ==
            OpenCount(events, id)
            + (if e.NewOrder? && e.orderId == id then 1 else 0)
            - (if (e.OrderFinished? || e.OrderCanceled?) && e.orderId == id then 1 else 0)
  {
    assert (events + [e])[..|events|] == events;
  }

  lemma CarryOne(events: seq<Event>, e: Event, id: Hash, o: Order)
    ensures DealsCarry(events + [e], id, o) <==>
            if e.NewOrder? && e.orderId == id then e == NewOrder(id, o.maker, o.assetId, o.moneyId, o.direction)
            else
              && DealsCarry(events, id, o)
              && (e.NewDeal? && e.orderId == id ==>
                    e == NewDeal(id, o.assetId, o.moneyId, o.maker, e.taker, o.price, e.amount, o.direction))
  {
    assert (events + [e])[..|events|] == events;
  }

  /** The call takes the last units of the order, or withdraws it. */
  predicate Ends(s: State, c: Call, id: Hash) {
    Cancels(s, c, id) || (Fills(s, c, id) && id in s.orders && c.amount == s.orders[id].leftAmount)
  }

  lemma LogStep(s: State, c: Call, id: Hash)
    ensures Dealt(Step(s, c).state.events, id) ==
            if Makes(s, c, id) then 0 else Dealt(s.events, id) + if Fills(s, c, id) then c.amount else 0
    ensures OpenCount(Step(s, c).state.events, id) ==
            OpenCount(s.events, id) + (if Makes(s, c, id) then 1 else 0) - (if Ends(s, c, id) then 1 else 0)
  {
    var logged := Deposited(s, c);
    EventsStep(s, c);
    if Fills(s, c, id) {
      OrderHistory(s, c, id);
    }
    if |logged| == 1 {
      OneMore(s.events, logged[0], id);
    } else if |logged| == 2 {
      assert s.events + logged == s.events + [logged[0]] + [logged[1]];
      OneMore(s.events, logged[0], id);
      OneMore(s.events + [logged[0]], logged[1], id);
    } else {
      assert s.events + logged == s.events;
    }
  }

  lemma CarryStep(s: State, c: Call, id: Hash)
    requires id in Step(s, c).state.orders && (id in s.orders ==> DealsCarry(s.events, id, s.orders[id]))
    ensures DealsCarry(Step(s, c).state.events, id, Step(s, c).state.orders[id])
  {
    var logged, o := Deposited(s, c), Step(s, c).state.orders[id];
    EventsStep(s, c);
    OrderHistory(s, c, id);
    if id in s.orders {
      TermsCarry(s.events, id, s.orders[id], o);
    } else {
      MakeEffect(s, c);
    }
    if |logged| == 1 {
      CarryOne(s.events, logged[0], id, o);
    } else if |logged| == 2 {
      assert s.events + logged == s.events + [logged[0]] + [logged[1]];
      CarryOne(s.events, logged[0], id, o);
      CarryOne(s.events + [logged[0]], logged[1], id, o);
    } else {
      assert s.events + logged == s.events;
    }
  }

  lemma {:induction false} TermsCarry(events: seq<Event>, id: Hash, o: Order, o': Order)
    requires SameTerms(o, o') && DealsCarry(events, id, o)
    ensures DealsCarry(events, id, o')
  {
    var before, e := events[..|events| - 1], events[|events| - 1];
    if !(e.NewOrder? && e.orderId == id) {
      TermsCarry(before, id, o, o');
    }
  }

  /** The deals logged for an order since it was made sum to what was filled of it, for every id and run. */
  lemma {:induction false} DealsSumToFilled(r: Run, id: Hash)
    ensures Dealt(After(r).events, id) == Filled(r, id)
  {
    if r.Then? {
      DealsSumToFilled(r.past, id);
      LogStep(After(r.past), r.call, id);
    }
  }

  /** Each of them names the live order's asset, money, maker, price and direction. */
  lemma {:induction false} DealsCarryTerms(r: Run, id: Hash)
    requires id in After(r).orders
    ensures DealsCarry(After(r).events, id, After(r).orders[id])
  {
    if r.Then? {
      if id in After(r.past).orders {
        DealsCarryTerms(r.past, id);
      }
      CarryStep(After(r.past), r.call, id);
    }
  }

  /** An order is live just when the log has opened it once more than it has closed it. */
  lemma {:induction false} LiveByLog(r: Run, id: Hash)
    ensures OpenCount(After(r).events, id) == if id in After(r).orders then 1 else 0
  {
    if r.Then? {
      LiveByLog(r.past, id);
      LogStep(After(r.past), r.call, id);
      OrderHistory(After(r.past), r.call, id);
      OrdersMove(After(r.past), r.call, id);
      CallsAnswer(After(r.past), r.call);
    }
  }

  /** The log of a fill names its taker and its amount, and closes the order just when its last unit goes. */
  lemma FillLogged(s: State, c: Call, id: Hash)
    requires Fills(s, c, id)
    ensures id in s.orders
    ensures var o, log' := s.orders[id], Step(s, c).state.events;
            && log' != []
            && log'[|log'| - 1] == NewDeal(id, o.assetId, o.moneyId, o.maker, c.signer, o.price, c.amount, o.direction)
            && log'[..|log'| - 1] ==
               s.events + (if id in Step(s, c).state.orders then [] else [OrderFinished(id)])
  {
    EventsStep(s, c);
    OrderHistory(s, c, id);
    OrdersMove(s, c, id);
    CallsAnswer(s, c);
  }
}
