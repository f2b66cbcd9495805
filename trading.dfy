/** The trading bot: on every kline update it slides the price window, and on a
    change of the crossover signal it turns the signal and the exchange-reported
    position into market orders. Exchange replies are inputs; the orders the bot
    places are appended to a log. */
module Trading {
  import opened Crossover

  datatype Side = Buy | Sell

  /** A market order for the instrument. */
  datatype Order = Order(side: Side, quantity: real)

  /** The outcome of one call to the exchange: its answer, or an exception. */
  datatype Reply<T> = Answered(value: T) | Raised

  /** One entry of the futures account balance list. */
  datatype BalanceEntry = BalanceEntry(asset: string, balance: real)

  const Usdt: string := "USDT"

  function Abs(x: real): (r: real)
    ensures r >= 0.0 && (r == x || r == -x)
  {
    if x < 0.0 then -x else x
  }

  function Opposite(side: Side): (r: Side)
  {
    if side == Buy then Sell else Buy
  }

  /** The side that moves the position towards the signal. */
  function SideFor(signal: Signal): (r: Side)
  {
    if signal == Long then Buy else Sell
  }

  /** The position already points the way of the signal. */
  predicate Aligned(signal: Signal, position: real)
  {
    (signal == Long && position > 0.0) || (signal == Short && position < 0.0)
  }

  /** The signed position a fill of `quantity` on the signal's side opens from flat. */
  function Directed(signal: Signal, quantity: real): (r: real)
  {
    if signal == Long then quantity else -quantity
  }

  // ---------------------------------------------------------------- position

  /** Signed position amount: the `positionAmt` of the first entry the exchange
      reports; an empty answer or a failed call reads as flat. */
  function GetPosition(reply: Reply<seq<real>>): (p: real)
    ensures reply.Answered? && reply.value != [] ==> p == reply.value[0]
    ensures reply.Raised? || reply.value == [] ==> p == 0.0
  {
    match reply
    case Raised => 0.0
    case Answered(amounts) => if amounts != [] then amounts[0] else 0.0
  }

  // ------------------------------------------------------------------ sizing

  /** The balance of the first USDT entry of the account, 0 when there is none. */
  function UsdtBalance(account: seq<BalanceEntry>): (r: real)
    ensures r == 0.0 || exists i :: 0 <= i < |account| && account[i].asset == Usdt && account[i].balance == r
  {
    if account == [] then 0.0
    else if account[0].asset == Usdt then account[0].balance
    else UsdtBalance(account[1..])
  }

  lemma {:induction false} UsdtBalanceIsFirstUsdt(account: seq<BalanceEntry>, i: nat)
    requires i < |account| && account[i].asset == Usdt
    requires forall j :: 0 <= j < i ==> account[j].asset != Usdt
    ensures UsdtBalance(account) == account[i].balance
  {
    if i > 0 {
      UsdtBalanceIsFirstUsdt(account[1..], i - 1);
    }
  }

  lemma {:induction false} UsdtBalanceWithoutUsdt(account: seq<BalanceEntry>)
    requires forall j :: 0 <= j < |account| ==> account[j].asset != Usdt
    ensures UsdtBalance(account) == 0.0
  {
    if account != [] {
      UsdtBalanceWithoutUsdt(account[1..]);
    }
  }

  /** Nearest integer to `x`, ties to the even one. */
  function RoundHalfEven(x: real): (r: int)
  {
    var f := x.Floor;
    var frac := x - f as real;
    if frac > 0.5 then f + 1
    else if frac < 0.5 then f
    else if f % 2 == 0 then f
    else f + 1
  }

  /** `round(x, 3)`: `x` to three decimal places, on exact reals. */
  function RoundTo3(x: real): (r: real)
    ensures (r * 1000.0).Floor as real == r * 1000.0
    ensures -0.0005 <= r - x <= 0.0005
    ensures x >= 0.0 ==> r >= 0.0
  {
    RoundHalfEven(x * 1000.0) as real / 1000.0
  }

  /** No multiple of 0.001 is closer to `x` than `RoundTo3(x)`. */
  lemma RoundTo3Nearest(x: real, k: int)
    ensures Abs(RoundTo3(x) - x) <= Abs(k as real / 1000.0 - x)
  {
    var y := x * 1000.0;
    var f := y.Floor;
    var r := RoundHalfEven(y);
    assert Abs(r as real - y) <= Abs(k as real - y) by {
      if k <= f {
        assert y - k as real >= y - f as real;
      } else {
        assert k as real - y >= f as real + 1.0 - y;
      }
    }
    assert RoundTo3(x) - x == (r as real - y) / 1000.0;
    assert k as real / 1000.0 - x == (k as real - y) / 1000.0;
  }

  /** Order quantity: 95% of the USDT balance divided by the last price,
      rounded to three decimals; 0 when either call fails or the price is 0. */
  function PositionSize(account: Reply<seq<BalanceEntry>>, ticker: Reply<real>): (q: real)
    ensures account.Raised? || ticker.Raised? ==> q == 0.0
    ensures ticker.Answered? && ticker.value == 0.0 ==> q == 0.0
    ensures account.Answered? && ticker.Answered? && ticker.value != 0.0 ==>
              -0.0005 <= q - UsdtBalance(account.value) * 0.95 / ticker.value <= 0.0005
    ensures account.Answered? && ticker.Answered? && ticker.value > 0.0 && UsdtBalance(account.value) >= 0.0 ==>
              q >= 0.0
    ensures (q * 1000.0).Floor as real == q * 1000.0
  {
    if account.Raised? || ticker.Raised? || ticker.value == 0.0 then 0.0
    else
      var raw := UsdtBalance(account.value) * 0.95 / ticker.value;
      QuotientSign(UsdtBalance(account.value) * 0.95, ticker.value);
      RoundTo3(raw)
  }

  lemma QuotientSign(a: real, b: real)
    requires b != 0.0
    ensures a >= 0.0 && b > 0.0 ==> a / b >= 0.0
  {
    if a >= 0.0 && b > 0.0 {
      assert a / b * b == a;
    }
  }

  // ------------------------------------------------------------------ orders

  /** The position after `order` fills in full. */
  function Fill(position: real, order: Order): (r: real)
  {
    if order.side == Buy then position + order.quantity else position - order.quantity
  }

  /** The position after every order of `orders` fills in full, in order. */
  function Filled(position: real, orders: seq<Order>): (r: real)
    decreases |orders|
  {
    if orders == [] then position else Filled(Fill(position, orders[0]), orders[1..])
  }

  /** The same orders with every side reversed. */
  function Mirrored(orders: seq<Order>): (r: seq<Order>)
    ensures |r| == |orders|
    ensures forall i :: 0 <= i < |r| ==>
              r[i].side == Opposite(orders[i].side) && r[i].quantity == orders[i].quantity
  {
    seq(|orders|, i requires 0 <= i < |orders| => Order(Opposite(orders[i].side), orders[i].quantity))
  }

  /** The orders a change to `signal` places: when the position points the other
      way, close it and open `quantity`; when flat, open `quantity`; when already
      aligned, nothing. */
  function CrossoverOrders(signal: Signal, position: real, quantity: real): (r: seq<Order>)
    ensures |r| <= 2
    ensures forall i :: 0 <= i < |r| ==> r[i].side == SideFor(signal)
    ensures r == [] <==> Aligned(signal, position)
    ensures r != [] ==> r[|r| - 1] == Order(SideFor(signal), quantity)
  {
    match signal
    case Long =>
      if position < 0.0 then [Order(Buy, Abs(position)), Order(Buy, quantity)]
      else if position == 0.0 then [Order(Buy, quantity)]
      else []
    case Short =>
      if position > 0.0 then [Order(Sell, Abs(position)), Order(Sell, quantity)]
      else if position == 0.0 then [Order(Sell, quantity)]
      else []
  }

  /** The fail-safe: one order on the opposite side for the whole position,
      none when flat. */
  function FlattenOrders(position: real): (r: seq<Order>)
    ensures |r| == if position == 0.0 then 0 else 1
    ensures forall i :: 0 <= i < |r| ==>
              r[i].quantity == Abs(position) && r[i].side == (if position > 0.0 then Sell else Buy)
  {
    if position > 0.0 then [Order(Sell, Abs(position))]
    else if position < 0.0 then [Order(Buy, Abs(position))]
    else []
  }

  /** Once the flattening order fills the position is zero. */
  lemma FlattenLeavesFlat(position: real)
    ensures Filled(position, FlattenOrders(position)) == 0.0
  {
  }

  /** A flip is the fail-safe's closing order followed by the opening order. */
  lemma FlipIsFlattenThenOpen(signal: Signal, position: real, quantity: real)
    requires !Aligned(signal, position)
    ensures CrossoverOrders(signal, position, quantity) ==
            FlattenOrders(position) + [Order(SideFor(signal), quantity)]
  {
  }

  /** Once the crossover orders fill, an aligned position is kept and any other
      becomes exactly `quantity` on the signal's side. */
  lemma CrossoverReachesSignal(signal: Signal, position: real, quantity: real)
    ensures Filled(position, CrossoverOrders(signal, position, quantity)) ==
            if Aligned(signal, position) then position else Directed(signal, quantity)
    ensures quantity > 0.0 ==>
            Aligned(signal, Filled(position, CrossoverOrders(signal, position, quantity)))
  {
    var r := CrossoverOrders(signal, position, quantity);
    if |r| == 2 {
      assert r[1..][1..] == [];
      assert Filled(position, r) == Filled(Fill(position, r[0]), r[1..]);
      assert Filled(Fill(position, r[0]), r[1..]) == Filled(Fill(Fill(position, r[0]), r[1]), []);
    } else if |r| == 1 {
      assert r[1..] == [];
      assert Filled(position, r) == Fill(position, r[0]);
    }
  }

  /** The Short branch is the Long branch with every position and side reversed. */
  lemma CrossoverSymmetric(position: real, quantity: real)
    ensures CrossoverOrders(Short, position, quantity) ==
            Mirrored(CrossoverOrders(Long, -position, quantity))
  {
  }

  /** A failed position query is treated as flat: a signal change then opens
      `quantity`, whatever the real exposure. */
  lemma FailedQueryOpensFromFlat(signal: Signal, quantity: real)
    ensures CrossoverOrders(signal, GetPosition(Raised), quantity) ==
            [Order(SideFor(signal), quantity)]
  {
  }

  // ---------------------------------------------------------------- the bot

  /** The trading bot's process state: the price window, the last signal acted on
      and the orders it has placed so far. */
  class Trader {
    var prices: seq<real>
    var lastSignal: Option<Signal>
    /** Every `place_order` call, in order; a call the exchange rejects is still
        recorded, as the bot carries on either way. */
    var orders: seq<Order>
    /** Every close price the bot has accepted since start-up. */
    ghost var received: seq<real>

    ghost predicate Valid()
      reads this
    {
      prices == Recent(received, LongWindow) &&
      (lastSignal.Some? ==> |prices| == LongWindow)
    }

    constructor ()
      ensures Valid()
      ensures prices == [] && lastSignal == None && orders == [] && received == []
    {
      prices, lastSignal, orders, received := [], None, [], [];
    }

    /** One market order; its failure is reported and ignored. */
    method PlaceOrder(side: Side, quantity: real)
      modifies this`orders
      ensures orders == old(orders) + [Order(side, quantity)]
    {
      orders := orders + [Order(side, quantity)];
    }

    /** One kline update. `positionReply`, `account` and `ticker` are what the
        exchange answers to the position, balance and price queries made once
        the window is full. */
    method OnMessage(msg: Message, positionReply: Reply<seq<real>>,
                     account: Reply<seq<BalanceEntry>>, ticker: Reply<real>)
      requires Valid()
      modifies this
      ensures Valid()
      ensures msg.kline.None? ==>
                prices == old(prices) && lastSignal == old(lastSignal) &&
                orders == old(orders) && received == old(received)
      ensures msg.kline.Some? ==> received == old(received) + [msg.kline.value.close]
      ensures |prices| <= LongWindow
      ensures old(lastSignal).Some? ==> lastSignal.Some?
      ensures |prices| < LongWindow ==> lastSignal == old(lastSignal) && orders == old(orders)
      ensures msg.kline.Some? && |prices| == LongWindow ==>
                lastSignal == Some(Classify(prices)) &&
                orders == old(orders) +
                  (if old(lastSignal) == Some(Classify(prices)) then []
                   else CrossoverOrders(Classify(prices), GetPosition(positionReply),
                                        PositionSize(account, ticker)))
    {
      if msg.kline.None? {
        // reading the close raises before anything changes
        return;
      }
      Slide(msg.kline.value.close);
      Evaluate(positionReply, account, ticker);
    }

    /** The evaluation of a full window: query the exchange, classify, and on a
        change of signal place the crossover orders and remember the signal. */
    method Evaluate(positionReply: Reply<seq<real>>,
                    account: Reply<seq<BalanceEntry>>, ticker: Reply<real>)
      requires Valid()
      modifies this`lastSignal, this`orders
      ensures Valid()
      ensures |prices| < LongWindow ==> lastSignal == old(lastSignal) && orders == old(orders)
      ensures |prices| == LongWindow ==>
                lastSignal == Some(Classify(prices)) &&
                orders == old(orders) +
                  (if old(lastSignal) == Some(Classify(prices)) then []
                   else CrossoverOrders(Classify(prices), GetPosition(positionReply),
                                        PositionSize(account, ticker)))
    {
      if |prices| >= LongWindow {
        var position := GetPosition(positionReply);
        var quantity := PositionSize(account, ticker);
        var current := Classify(prices);
        if Some(current) != lastSignal {
          PlaceCrossoverOrders(current, position, quantity);
          lastSignal := Some(current);
        }
      }
    }


    /** Appends one close and keeps only the last `LongWindow` closes. */
    method Slide(close: real)
      requires Valid()
      modifies this`prices, this`received
      ensures Valid()
      ensures received == old(received) + [close]
      ensures prices == Recent(old(prices) + [close], LongWindow)
    {
      prices := prices + [close];
      if |prices| > LongWindow {
        prices := prices[|prices| - LongWindow..];
      }
      RecentAppend(received, close, LongWindow);
      received := received + [close];
    }

    /** The orders of a signal change, placed one after the other. */
    method PlaceCrossoverOrders(current: Signal, position: real, quantity: real)
      modifies this`orders
      ensures orders == old(orders) + CrossoverOrders(current, position, quantity)
    {
      if current == Long {
        if position < 0.0 {
          PlaceOrder(Buy, Abs(position));
          PlaceOrder(Buy, quantity);
        } else if position == 0.0 {
          PlaceOrder(Buy, quantity);
        }
      } else if current == Short {
        if position > 0.0 {
          PlaceOrder(Sell, Abs(position));
          PlaceOrder(Sell, quantity);
        } else if position == 0.0 {
          PlaceOrder(Sell, quantity);
        }
      }
    }

    /** The fail-safe, run when the websocket loop is interrupted or raises:
        flatten whatever position the exchange reports. A normal end of the
        loop exits without calling it. */
    method CloseAllPositions(positionReply: Reply<seq<real>>)
      modifies this`orders
      ensures orders == old(orders) + FlattenOrders(GetPosition(positionReply))
    {
      var position := GetPosition(positionReply);
      if position > 0.0 {
        PlaceOrder(Sell, Abs(position));
      } else if position < 0.0 {
        PlaceOrder(Buy, Abs(position));
      }
    }
  }
}
