/**
 * The off-chain listener: an index of assets, orders and possible balance holders, built by replaying
 * the chain's events. A handler that throws (a missing asset document, a duplicate unique key) is
 * caught, and leaves the collections as they were.
 */
module EventIndex {
  import opened Ledger

  datatype AssetDoc = AssetDoc(projectId: Hash, owner: AccountId, approved: bool)
  datatype OrderDoc = OrderDoc(owner: AccountId, assetId: Hash, direction: int, closed: bool)
  datatype BalanceDoc = BalanceDoc(account: AccountId, assetId: Hash)

  datatype Index = Index(
    assets: map<Hash, AssetDoc>,
    orders: map<Hash, OrderDoc>,
    balances: map<string, BalanceDoc>)

  const EMPTY := Index(map[], map[], map[])

  function Slice(text: string, n: nat): string {
    if n <= |text| then text[..n] else text
  }

  /** The first 6 characters of the account and the first 8 of the asset. */
  function Key(doc: BalanceDoc): string {
    Slice(doc.account.text, 6) + ":" + Slice(doc.assetId.text, 8)
  }

  /** The first `n` characters agree, and a shorter text is as long as the other. */
  predicate SamePrefix(x: string, y: string, n: nat) {
    && (|x| == |y| || (n <= |x| && n <= |y|))
    && forall i :: 0 <= i < n && i < |x| && i < |y| ==> x[i] == y[i]
  }

  predicate SameTexts(d: BalanceDoc, e: BalanceDoc) {
    SamePrefix(d.account.text, e.account.text, 6) && SamePrefix(d.assetId.text, e.assetId.text, 8)
  }

  lemma SliceAgrees(x: string, y: string, n: nat)
    ensures Slice(x, n) == Slice(y, n) <==> SamePrefix(x, y, n)
  {
    if Slice(x, n) == Slice(y, n) {
      forall i | 0 <= i < n && i < |x| && i < |y| ensures x[i] == y[i] {
        assert Slice(x, n)[i] == x[i] && Slice(y, n)[i] == y[i];
      }
    }
  }

  /** Addresses have six characters and more: then two entries share a key just when both texts begin alike. */
  lemma SameKeyIff(d: BalanceDoc, e: BalanceDoc)
    requires |d.account.text| >= 6 && |e.account.text| >= 6
    ensures Key(d) == Key(e) <==> SameTexts(d, e)
  {
    SliceAgrees(d.account.text, e.account.text, 6);
    SliceAgrees(d.assetId.text, e.assetId.text, 8);
    if Key(d) == Key(e) {
      assert Key(d)[..6] == Slice(d.account.text, 6) && Key(e)[..6] == Slice(e.account.text, 6);
      assert Key(d)[7..] == Slice(d.assetId.text, 8) && Key(e)[7..] == Slice(e.assetId.text, 8);
    }
  }

  function Upsert(idx: Index, doc: BalanceDoc): Index {
    idx.(balances := idx.balances[Key(doc) := doc])
  }

  function Close(idx: Index, orderId: Hash): Index {
    if orderId in idx.orders then idx.(orders := idx.orders[orderId := idx.orders[orderId].(closed := true)])
    else idx
  }

  datatype Option<T> = None | Some(value: T)

  /** The account that the event may give units to, as the handler sees it. */
  function Credited(idx: Index, e: Event): Option<BalanceDoc> {
    match e
    case AssetApproved(assetId) =>
      if assetId in idx.assets then Some(BalanceDoc(idx.assets[assetId].owner, assetId)) else None
    case Transferred(assetId, _, to, _) =>
      if assetId in idx.assets then Some(BalanceDoc(to, assetId)) else None
    case NewDeal(_, assetId, _, maker, taker, _, _, direction) =>
      if assetId in idx.assets then Some(BalanceDoc(if direction == ASK then taker else maker, assetId)) else None
    case _ => None
  }

  function Record(idx: Index, e: Event): Index {
    match e
    case AssetSubmited(projectId, assetId, owner) =>
      if assetId in idx.assets then idx
      else idx.(assets := idx.assets[assetId := AssetDoc(projectId, owner, false)])
    case AssetApproved(assetId) =>
      if assetId in idx.assets then
        idx.(assets := idx.assets[assetId := idx.assets[assetId].(approved := true)])
      else idx
    case NewOrder(orderId, maker, assetId, _, direction) =>
      if assetId !in idx.assets || orderId in idx.orders then idx
      else idx.(orders := idx.orders[orderId := OrderDoc(maker, assetId, direction, false)])
    case OrderFinished(orderId) => Close(idx, orderId)
    case OrderCanceled(orderId) => Close(idx, orderId)
    case _ => idx
  }

  /** One event: the documents it creates or changes, then the balance entry it upserts. */
  function Handle(idx: Index, e: Event): Index {
    match Credited(idx, e)
    case None => Record(idx, e)
    case Some(doc) => Upsert(Record(idx, e), doc)
  }

  /** The handler throws: it finds no document of the asset, or would insert a second one under an id. */
  predicate Throws(idx: Index, e: Event) {
    || ((e.AssetApproved? || e.Transferred? || e.NewOrder? || e.NewDeal?) && e.assetId !in idx.assets)
    || (e.AssetSubmited? && e.assetId in idx.assets)
    || (e.NewOrder? && e.orderId in idx.orders)
  }

  /** The account and asset that the event is known to have credited. */
  predicate Credits(idx: Index, e: Event, doc: BalanceDoc) {
    match e
    case AssetApproved(a) => a in idx.assets && doc.assetId == a && doc.account == idx.assets[a].owner
    case Transferred(a, _, to, _) => a in idx.assets && doc.assetId == a && doc.account == to
    case NewDeal(_, a, _, maker, taker, _, _, direction) =>
      a in idx.assets && doc.assetId == a && doc.account == if direction == 0 then taker else maker
    case _ => false
  }

  lemma ThrowingChangesNothing(idx: Index, e: Event)
    requires Throws(idx, e)
    ensures Handle(idx, e) == idx
  {
  }

  /** What one event does to the document of any asset. */
  lemma AssetDocAfter(idx: Index, e: Event, a: Hash)
    ensures var docs' := Handle(idx, e).assets;
            var added := e.AssetSubmited? && e.assetId == a && a !in idx.assets;
            && (a in docs' <==> a in idx.assets || added)
            && (added ==> docs'[a] == AssetDoc(e.projectId, e.owner, false))
            && (a in idx.assets ==>
                  docs'[a] == AssetDoc(idx.assets[a].projectId, idx.assets[a].owner,
                                       idx.assets[a].approved || (e.AssetApproved? && e.assetId == a)))
  {
  }

  /** And of any order. */
  lemma OrderDocAfter(idx: Index, e: Event, id: Hash)
    ensures var docs' := Handle(idx, e).orders;
            var added := e.NewOrder? && e.orderId == id && !Throws(idx, e);
            && (id in docs' <==> id in idx.orders || added)
            && (added ==> docs'[id] == OrderDoc(e.maker, e.assetId, e.direction, false))
            && (id in idx.orders ==>
                  var d := idx.orders[id];
                  docs'[id] == OrderDoc(d.owner, d.assetId, d.direction,
                                        d.closed || ((e.OrderFinished? || e.OrderCanceled?) && e.orderId == id)))
  {
  }

  /** And to the entry under any key: it is the credited account's, or what it was. */
  lemma BalanceDocAfter(idx: Index, e: Event, doc: BalanceDoc, key: string)
    ensures var docs' := Handle(idx, e).balances;
            && (Credits(idx, e, doc) ==> Key(doc) in docs' && docs'[Key(doc)] == doc)
            && ((forall d :: Credits(idx, e, d) ==> Key(d) != key) ==>
                  && (key in docs' <==> key in idx.balances)
                  && (key in docs' ==> docs'[key] == idx.balances[key]))
  {
    match Credited(idx, e)
    case None =>
    case Some(d) =>
      assert Credits(idx, e, d);
  }

  function ReplayFrom(idx: Index, events: seq<Event>): Index {
    if events == [] then idx else Handle(ReplayFrom(idx, events[..|events| - 1]), events[|events| - 1])
  }

  function Replay(events: seq<Event>): Index {
    ReplayFrom(EMPTY, events)
  }

  lemma ReplayOne(idx: Index, events: seq<Event>, e: Event)
    ensures ReplayFrom(idx, events + [e]) == Handle(ReplayFrom(idx, events), e)
  {
    assert (events + [e])[..|events|] == events;
  }

  /** Stopping after some events and resuming later builds the same index. */
  lemma {:induction false} ReplayResumes(idx: Index, past: seq<Event>, more: seq<Event>)
    ensures ReplayFrom(idx, past + more) == ReplayFrom(ReplayFrom(idx, past), more)
    decreases |more|
  {
    if more == [] {
      assert past + more == past;
    } else {
      var init, e := more[..|more| - 1], more[|more| - 1];
      ReplayResumes(idx, past, init);
      assert past + more == past + init + [e];
      ReplayOne(idx, past + init, e);
      assert more == init + [e];
      ReplayOne(ReplayFrom(idx, past), init, e);
    }
  }

  // ---- blocks ----

  /** The events of the blocks `from`, ..., `end - 1` in order. */
  function EventsIn(blocks: seq<seq<Event>>, from: nat, end: nat): seq<Event>
    requires from <= end <= |blocks|
    decreases end
  {
    if from == end then [] else EventsIn(blocks, from, end - 1) + blocks[end - 1]
  }

  lemma {:induction false} EventsSplit(blocks: seq<seq<Event>>, from: nat, mid: nat, end: nat)
    requires from <= mid <= end <= |blocks|
    ensures EventsIn(blocks, from, end) == EventsIn(blocks, from, mid) + EventsIn(blocks, mid, end)
    decreases end
  {
    if mid < end {
      EventsSplit(blocks, from, mid, end - 1);
    }
  }

  class Listener {
    var assets: map<Hash, AssetDoc>
    var orders: map<Hash, OrderDoc>
    var balances: map<string, BalanceDoc>
    var lastBlock: nat

    function Collections(): Index
      reads this`assets, this`orders, this`balances
    {
      Index(assets, orders, balances)
    }

    /** The collections are the replay of every block up to `lastBlock`; block 0 has no events to read. */
    ghost predicate UpToDate(blocks: seq<seq<Event>>)
      reads this
    {
      lastBlock < |blocks| && Collections() == Replay(EventsIn(blocks, 1, lastBlock + 1))
    }

    constructor ()
      ensures Collections() == EMPTY && lastBlock == 0
    {
      assets, orders, balances, lastBlock := map[], map[], map[], 0;
    }

    method UpsertBalance(doc: BalanceDoc)
      modifies this`balances
      ensures balances == old(balances)[Key(doc) := doc]
    {
      balances := balances[Key(doc) := doc];
    }

    method CloseOrder(orderId: Hash)
      modifies this`orders
      ensures Collections() == Close(old(Collections()), orderId)
    {
      if orderId in orders {
        orders := orders[orderId := orders[orderId].(closed := true)];
      }
    }

    method HandleEvent(e: Event)
      modifies this`assets, this`orders, this`balances
      ensures Collections() == Handle(old(Collections()), e)
    {
      match e {
        case AssetSubmited(projectId, assetId, owner) =>
          if assetId !in assets {
            assets := assets[assetId := AssetDoc(projectId, owner, false)];
          }
        case AssetApproved(assetId) =>
          if assetId in assets {
            assets := assets[assetId := assets[assetId].(approved := true)];
            UpsertBalance(BalanceDoc(assets[assetId].owner, assetId));
          }
        case Transferred(assetId, _, to, _) =>
          if assetId in assets {
            UpsertBalance(BalanceDoc(to, assetId));
          }
        case NewOrder(orderId, maker, assetId, _, direction) =>
          if assetId in assets && orderId !in orders {
            orders := orders[orderId := OrderDoc(maker, assetId, direction, false)];
          }
        case NewDeal(_, assetId, _, maker, taker, _, _, direction) =>
          if assetId in assets {
            var carbonAccount := if direction == ASK then taker else maker;
            UpsertBalance(BalanceDoc(carbonAccount, assetId));
          }
        case OrderFinished(orderId) => CloseOrder(orderId);
        case OrderCanceled(orderId) => CloseOrder(orderId);
        case _ =>
      }
    }

    method ProcessBlock(events: seq<Event>)
      modifies this`assets, this`orders, this`balances
      ensures Collections() == ReplayFrom(old(Collections()), events)
    {
      ghost var start := Collections();
      for i := 0 to |events|
        invariant Collections() == ReplayFrom(start, events[..i])
      {
        HandleEvent(events[i]);
        ReplayOne(start, events[..i], events[i]);
        assert events[..i] + [events[i]] == events[..i + 1];
      }
      assert events[..|events|] == events;
    }

    method ProcessRange(blocks: seq<seq<Event>>, from: nat, to: nat)
      requires from <= to + 1 && to < |blocks|
      modifies this`assets, this`orders, this`balances
      ensures Collections() == ReplayFrom(old(Collections()), EventsIn(blocks, from, to + 1))
    {
      ghost var start := Collections();
      var i := from;
      while i <= to
        invariant from <= i <= to + 1
        invariant Collections() == ReplayFrom(start, EventsIn(blocks, from, i))
      {
        ProcessBlock(blocks[i]);
        ReplayResumes(start, EventsIn(blocks, from, i), blocks[i]);
        i := i + 1;
      }
    }

    /** One turn of the worker: whatever was finalized since, and nothing twice. */
    method CatchUp(blocks: seq<seq<Event>>, latest: nat)
      requires UpToDate(blocks) && latest < |blocks|
      modifies this
      ensures UpToDate(blocks)
      ensures lastBlock == if old(lastBlock) < latest then latest else old(lastBlock)
    {
      if lastBlock < latest {
        EventsSplit(blocks, 1, lastBlock + 1, latest + 1);
        ReplayResumes(EMPTY, EventsIn(blocks, 1, lastBlock + 1), EventsIn(blocks, lastBlock + 1, latest + 1));
        ProcessRange(blocks, lastBlock + 1, latest);
        lastBlock := latest;
      }
    }
  }
}
