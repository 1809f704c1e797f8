/**
 * The exchange calls as functions of the storage. `restricted` says whether locks or reserves on the
 * signer's account refuse a native withdrawal; the pot has neither.
 */
module CarbonExchange {
  import opened U64
  import opened Ledger
  import opened NativeBalances
  import CarbonAssets

  function MakeOrder(s: State, maker: AccountId, assetId: Hash, moneyId: Hash, price: u64, amount: u64,
                     direction: int, orderId: Hash, restricted: bool): Post
  {
    if moneyId != NATIVE_MONEY then Fail(s, InvalidMoneyID)
    else if price == 0 then Fail(s, PriceZero)
    else if amount == 0 then Fail(s, AmountZero)
    else if !CarbonAssets.HasAsset(s.assets, assetId) then Fail(s, AssetNotExist)
    else if orderId in s.orders then Fail(s, DuplicatedKey)
    else if direction == ASK then
      if BalanceOf(s.carbon, assetId, maker) < amount then Fail(s, InsuffientAsset)
      else
        Post(s.(carbon := MakeTransfer(s.carbon, assetId, maker, POT, amount),
                orders := s.orders[orderId := Order(assetId, moneyId, maker, amount, price, amount, ASK, 0)],
                events := s.events + [NewOrder(orderId, maker, assetId, moneyId, ASK)]), Ok)
    else if direction == BID then
      var locked := SaturatingMul(amount, price);
      match MakePayment(s.native, maker, POT, locked, restricted)
      case Refused(e) => Fail(s, e)
      case Moved(native) =>
        Post(s.(native := native,
                orders := s.orders[orderId := Order(assetId, moneyId, maker, amount, price, amount, BID, locked)],
                events := s.events + [NewOrder(orderId, maker, assetId, moneyId, BID)]), Ok)
    else Fail(s, InvalidDirection)
  }

  /** The book after a fill: the order is written back while something is left, removed when nothing is. */
  function BookAfterFill(orders: Orders, orderId: Hash, o: Order, amount: u64): Orders
    requires amount <= o.leftAmount
  {
    if o.leftAmount - amount > 0 then orders[orderId := o.(leftAmount := o.leftAmount - amount)]
    else orders - {orderId}
  }

  function FillEvents(orderId: Hash, o: Order, taker: AccountId, amount: u64): seq<Event> {
    var deal := NewDeal(orderId, o.assetId, o.moneyId, o.maker, taker, o.price, amount, o.direction);
    if o.leftAmount == amount then [OrderFinished(orderId), deal] else [deal]
  }

  /** Filling a BID moves the carbon first: when the payout is then refused, that move stays. */
  function TakeOrder(s: State, taker: AccountId, orderId: Hash, amount: u64, restricted: bool): Post {
    if orderId !in s.orders then Fail(s, InvalidIndex)
    else
      var o := s.orders[orderId];
      if o.leftAmount < amount then Fail(s, AmountHigh)
      else
        var money := SaturatingMul(amount, o.price);
        if o.direction == ASK then
          if BalanceOf(s.carbon, o.assetId, POT) < amount then Fail(s, InsuffientPotAsset)
          else
            match MakePayment(s.native, taker, o.maker, money, restricted)
            case Refused(e) => Fail(s, e)
            case Moved(native) =>
              Post(s.(native := native,
                      carbon := MakeTransfer(s.carbon, o.assetId, POT, taker, amount),
                      orders := BookAfterFill(s.orders, orderId, o, amount),
                      events := s.events + FillEvents(orderId, o, taker, amount)), Ok)
        else
          if BalanceOf(s.carbon, o.assetId, taker) < amount then Fail(s, InsuffientAsset)
          else
            var carbon := MakeTransfer(s.carbon, o.assetId, taker, o.maker, amount);
            match MakePayment(s.native, POT, taker, money, false)
            case Refused(e) => Fail(s.(carbon := carbon), e)
            case Moved(native) =>
              var paid := o.(lockedBalance := Sub(o.lockedBalance, money));
              Post(s.(carbon := carbon,
                      native := native,
                      orders := BookAfterFill(s.orders, orderId, paid, amount),
                      events := s.events + FillEvents(orderId, o, taker, amount)), Ok)
  }

  /** An ASK is given back without looking at what the pot holds. */
  function CancelOrder(s: State, sender: AccountId, orderId: Hash): Post {
    if orderId !in s.orders then Fail(s, InvalidIndex)
    else
      var o := s.orders[orderId];
      if o.maker != sender then Fail(s, PermissionDenied)
      else if o.direction == ASK then
        Post(s.(carbon := MakeTransfer(s.carbon, o.assetId, POT, sender, o.leftAmount),
                orders := s.orders - {orderId},
                events := s.events + [OrderCanceled(orderId)]), Ok)
      else
        match MakePayment(s.native, POT, sender, o.lockedBalance, false)
        case Refused(e) => Fail(s, e)
        case Moved(native) =>
          Post(s.(native := native, orders := s.orders - {orderId},
                  events := s.events + [OrderCanceled(orderId)]), Ok)
  }
}
