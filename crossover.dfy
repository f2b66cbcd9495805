/** The moving-average crossover shared by the trading bot and the notification bot:
    the strategy's parameters, the feed message, the rolling price window and the
    classification of a full window into a directional signal. */
module Crossover {

  /** Number of most recent closes averaged by the fast moving average. */
  const ShortWindow: nat := 7
  /** Capacity of the price window and length of the slow moving average. */
  const LongWindow: nat := 30
  /** The one instrument both bots follow. */
  const Symbol: string := "LTCUSDT"

  datatype Option<T> = None | Some(value: T)

  /** A directional signal. The bots keep an `Option<Signal>`, `None` meaning
      that no signal has been computed since start-up. */
  datatype Signal = Long | Short

  /** The part of a kline message both bots read: the candle's close and
      whether the candle is closed. JSON parsing is not modelled. */
  datatype Candle = Candle(close: real, closed: bool)

  /** A feed message: `kline` is `None` when the message has no `k` member
      (a subscription acknowledgement, say). */
  datatype Message = Message(kline: Option<Candle>)

  /** The last `min(|s|, n)` elements of `s`, oldest first: Python's `s[-n:]`
      for a positive `n`. */
  function Recent(s: seq<real>, n: nat): (r: seq<real>)
    ensures |r| == if |s| <= n then |s| else n
    ensures forall i :: 0 <= i < |r| ==> r[i] == s[|s| - |r| + i]
  {
    if |s| <= n then s else s[|s| - n..]
  }

  /** Sliding the window by one: truncating after every append keeps exactly the
      most recent closes of the whole history. */
  lemma RecentAppend(s: seq<real>, x: real, n: nat)
    requires n > 0
    ensures Recent(Recent(s, n) + [x], n) == Recent(s + [x], n)
  {
  }

  function Sum(s: seq<real>): (r: real)
  {
    if s == [] then 0.0 else Sum(s[..|s| - 1]) + s[|s| - 1]
  }

  /** Arithmetic mean, as `np.mean` computes it on exact reals. */
  function Mean(s: seq<real>): (r: real)
    requires |s| > 0
    ensures r * |s| as real == Sum(s)
  {
    Sum(s) / |s| as real
  }

  /** The mean lies between any lower and upper bound of the elements. */
  lemma MeanBetween(s: seq<real>, lo: real, hi: real)
    requires |s| > 0
    requires forall i :: 0 <= i < |s| ==> lo <= s[i] <= hi
    ensures lo <= Mean(s) <= hi
  {
    SumAtLeast(s, lo);
    SumAtMost(s, hi);
    assert lo * |s| as real <= Sum(s) <= hi * |s| as real;
    var n := |s| as real;
    CancelPositive(lo, Mean(s), n);
    CancelPositive(Mean(s), hi, n);
  }

  lemma CancelPositive(a: real, b: real, n: real)
    requires n > 0.0 && a * n <= b * n
    ensures a <= b
  {
  }

  /** Long when the fast average is strictly above the slow one; a tie is Short.
      The slow average is taken over the whole window. */
  function Classify(w: seq<real>): (r: Signal)
    requires |w| >= LongWindow
    ensures |w| == LongWindow ==>
              (r == Long <==> Sum(Recent(w, ShortWindow)) * LongWindow as real > Sum(w) * ShortWindow as real)
  {
    if Mean(Recent(w, ShortWindow)) > Mean(w) then Long else Short
  }

  lemma {:induction false} SumConcat(a: seq<real>, b: seq<real>)
    ensures Sum(a + b) == Sum(a) + Sum(b)
  {
    if b != [] {
      assert (a + b)[..|a + b| - 1] == a + b[..|b| - 1];
      SumConcat(a, b[..|b| - 1]);
    } else {
      assert a + b == a;
    }
  }

  /** Every element below `m` bounds the sum of a non-empty sequence strictly. */
  lemma {:induction false} SumBelow(s: seq<real>, m: real)
    requires |s| > 0
    requires forall i :: 0 <= i < |s| ==> s[i] < m
    ensures Sum(s) < |s| as real * m
  {
    var init := s[..|s| - 1];
    if init != [] {
      SumBelow(init, m);
    }
    assert (|init| as real) * m + m == |s| as real * m;
  }

  /** Every element at least `m` bounds the sum from below. */
  lemma {:induction false} SumAtLeast(s: seq<real>, m: real)
    requires forall i :: 0 <= i < |s| ==> s[i] >= m
    ensures Sum(s) >= |s| as real * m
  {
    if s != [] {
      var init := s[..|s| - 1];
      SumAtLeast(init, m);
      assert (|init| as real) * m + m == |s| as real * m;
    }
  }

  /** Every element at most `m` bounds the sum from above. */
  lemma {:induction false} SumAtMost(s: seq<real>, m: real)
    requires forall i :: 0 <= i < |s| ==> s[i] <= m
    ensures Sum(s) <= |s| as real * m
  {
    if s != [] {
      var init := s[..|s| - 1];
      SumAtMost(init, m);
      assert (|init| as real) * m + m == |s| as real * m;
    }
  }

  /** The window split into the closes only the slow average sees and the
      closes the fast average sees. */
  lemma SplitWindow(w: seq<real>)
    requires |w| == LongWindow
    ensures w == w[..LongWindow - ShortWindow] + Recent(w, ShortWindow)
    ensures Sum(w) == Sum(w[..LongWindow - ShortWindow]) + Sum(Recent(w, ShortWindow))
  {
    assert w == w[..LongWindow - ShortWindow] + Recent(w, ShortWindow);
    SumConcat(w[..LongWindow - ShortWindow], Recent(w, ShortWindow));
  }

  /** Equal averages resolve to Short. */
  lemma TieIsShort(w: seq<real>)
    requires |w| >= LongWindow
    requires Mean(Recent(w, ShortWindow)) == Mean(w)
    ensures Classify(w) == Short
  {
  }

  /** When the last seven closes all stand at or above a level that every earlier
      close is below, the window is classified Long. */
  lemma {:induction false} BreakoutIsLong(w: seq<real>, m: real)
    requires |w| == LongWindow
    requires forall i :: 0 <= i < LongWindow - ShortWindow ==> w[i] < m
    requires forall i :: LongWindow - ShortWindow <= i < LongWindow ==> w[i] >= m
    ensures Classify(w) == Long
  {
    var older, recent := w[..LongWindow - ShortWindow], Recent(w, ShortWindow);
    SplitWindow(w);
    SumBelow(older, m);
    SumAtLeast(recent, m);
  }

  /** When the last seven closes all stand at or below a level that every earlier
      close reaches, the window is classified Short (ties included). */
  lemma {:induction false} SettleIsShort(w: seq<real>, m: real)
    requires |w| == LongWindow
    requires forall i :: 0 <= i < LongWindow - ShortWindow ==> w[i] >= m
    requires forall i :: LongWindow - ShortWindow <= i < LongWindow ==> w[i] <= m
    ensures Classify(w) == Short
  {
    var older, recent := w[..LongWindow - ShortWindow], Recent(w, ShortWindow);
    SplitWindow(w);
    SumAtLeast(older, m);
    SumAtMost(recent, m);
  }

  /** A window of strictly rising closes is classified Long. */
  lemma RisingWindowIsLong(w: seq<real>)
    requires |w| == LongWindow
    requires forall i, j :: 0 <= i < j < |w| ==> w[i] < w[j]
    ensures Classify(w) == Long
  {
    BreakoutIsLong(w, w[LongWindow - ShortWindow]);
  }

  /** A window of one repeated close has equal averages and is classified Short. */
  lemma ConstantWindowIsShort(w: seq<real>)
    requires |w| == LongWindow
    requires forall i :: 0 <= i < |w| ==> w[i] == w[0]
    ensures Classify(w) == Short
  {
    SettleIsShort(w, w[0]);
  }
}
