/** The notification bot: the same crossover as the trading bot, fed only by
    closed candles, whose effect on a signal change is one message to the
    operator instead of orders. Sent messages are appended to a log. */
module TelegramBot {
  import opened Crossover

  /** The content of one "signal changed" message: the new signal, the
      instrument and both averages. Text formatting is not modelled. */
  datatype Notice = Notice(signal: Signal, symbol: string, shortMa: real, longMa: real)

  /** A message that carries a closed candle; nothing else is evaluated. */
  predicate ClosedCandle(msg: Message): (b: bool)
    ensures b <==> msg.kline.Some? && msg.kline.value.closed
  {
    match msg.kline
    case None => false
    case Some(candle) => candle.closed
  }

  /** The message a change to the signal of a full window `w` sends. */
  function SignalNotice(w: seq<real>): (n: Notice)
    requires |w| >= LongWindow
    ensures n.signal == Classify(w) && n.symbol == Symbol
    ensures n.shortMa == Mean(Recent(w, ShortWindow)) && n.longMa == Mean(w)
    ensures n.signal == Long <==> n.shortMa > n.longMa
  {
    Notice(Classify(w), Symbol, Mean(Recent(w, ShortWindow)), Mean(w))
  }

  class Notifier {
    var prices: seq<real>
    var lastSignal: Option<Signal>
    /** Every message handed to the messaging service, in order. */
    var sent: seq<Notice>
    /** Every closed-candle close the bot has accepted since start-up. */
    ghost var received: seq<real>

    ghost predicate Valid()
      reads this
    {
      prices == Recent(received, LongWindow) &&
      (lastSignal.Some? ==> |prices| == LongWindow)
    }

    constructor ()
      ensures Valid()
      ensures prices == [] && lastSignal == None && sent == [] && received == []
    {
      prices, lastSignal, sent, received := [], None, [], [];
    }

    /** Appends one close and keeps only the last `LongWindow` closes. */
    method Slide(close: real)
      requires Valid()
      modifies this`prices, this`received
      ensures Valid()
      ensures received == old(received) + [close]
      ensures prices == Recent(old(prices) + [close], LongWindow)
    {
      prices := prices + [close];
      if |prices| > LongWindow {
        prices := prices[|prices| - LongWindow..];
      }
      RecentAppend(received, close, LongWindow);
      received := received + [close];
    }

    /** One kline message. */
    method OnMessage(msg: Message)
      requires Valid()
      modifies this
      ensures Valid()
      ensures !ClosedCandle(msg) ==>
                prices == old(prices) && lastSignal == old(lastSignal) &&
                sent == old(sent) && received == old(received)
      ensures ClosedCandle(msg) ==> received == old(received) + [msg.kline.value.close]
      ensures |prices| <= LongWindow
      ensures old(lastSignal).Some? ==> lastSignal.Some?
      ensures |prices| < LongWindow ==> lastSignal == old(lastSignal) && sent == old(sent)
      ensures ClosedCandle(msg) && |prices| == LongWindow ==>
                lastSignal == Some(Classify(prices)) &&
                sent == old(sent) +
                  (if old(lastSignal) == Some(Classify(prices)) then [] else [SignalNotice(prices)])
    {
      if ClosedCandle(msg) {
        Slide(msg.kline.value.close);
        Evaluate();
      }
    }

    /** The evaluation of a full window: classify it and, on a change of signal,
        send one notice and remember the signal. */
    method Evaluate()
      requires Valid()
      modifies this`lastSignal, this`sent
      ensures Valid()
      ensures |prices| < LongWindow ==> lastSignal == old(lastSignal) && sent == old(sent)
      ensures |prices| == LongWindow ==>
                lastSignal == Some(Classify(prices)) &&
                sent == old(sent) +
                  (if old(lastSignal) == Some(Classify(prices)) then [] else [SignalNotice(prices)])
    {
      if |prices| >= LongWindow {
        var shortMa := Mean(Recent(prices, ShortWindow));
        var longMa := Mean(prices);
        var current := Classify(prices);
        if Some(current) != lastSignal {
          sent := sent + [Notice(current, Symbol, shortMa, longMa)];
          lastSignal := Some(current);
        }
      }
    }
  }
}
