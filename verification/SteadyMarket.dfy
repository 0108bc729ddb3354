// Paths that jump over no entry and no stop.  On them the market trades at the
// levels, so what is proved of paths booked at their levels holds of the market.
module SteadyMarket {
  import opened Common
  import opened CandleOco
  import opened CandleMarket

  predicate Jumps(from: real, next: real, level: real) { from < level < next || next < level < from }

  // From one tick to the next no entry and no stop is jumped over; the first tick
  // is not beyond an entry.
  predicate StepsTo(buy: Leg, sell: Leg, last: Option<real>, next: real) {
    match last
    case None => sell.entry <= next <= buy.entry
    case Some(from) =>
      !Jumps(from, next, buy.entry) && !Jumps(from, next, buy.stop)
      && !Jumps(from, next, sell.entry) && !Jumps(from, next, sell.stop)
  }

  predicate Steady(buy: Leg, sell: Leg, last: Option<real>, ticks: seq<Tick>)
    decreases |ticks|
  {
    ticks == [] || (StepsTo(buy, sell, last, ticks[0].price) && Steady(buy, sell, Some(ticks[0].price), ticks[1..]))
  }

  function LastOf(last: Option<real>, ticks: seq<Tick>): Option<real> {
    if ticks == [] then last else Some(ticks[|ticks| - 1].price)
  }

  predicate SteadyAll(buy: Leg, sell: Leg, last: Option<real>, paths: seq<seq<Tick>>, i: nat)
    requires i <= |paths|
    decreases |paths| - i
  {
    i == |paths|
    || (Steady(buy, sell, last, paths[i]) && SteadyAll(buy, sell, LastOf(last, paths[i]), paths, i + 1))
  }

  predicate Idle(buy: Leg, sell: Leg, last: Option<real>) {
    last.Some? ==> !buy.Triggers(last.value) && !sell.Triggers(last.value)
  }

  // A steady path enters at the entry, and goes on steadily from there.
  lemma {:induction false} EntersAtLevel(buy: Leg, sell: Leg, tieBuy: bool, last: Option<real>, ticks: seq<Tick>)
    requires Pair(buy, sell) && Steady(buy, sell, last, ticks) && Idle(buy, sell, last)
    requires forall j :: 0 <= j < |ticks| ==>
               (buy.Triggers(ticks[j].price) ==> ticks[j].time < buy.expires)
               && (sell.Triggers(ticks[j].price) ==> ticks[j].time < sell.expires)
    ensures var e := Entering(buy, sell, tieBuy, ticks);
            e.Some? ==> e.value.1 < |ticks| && ticks[e.value.1].price == e.value.0.entry
                        && Steady(buy, sell, Some(ticks[e.value.1].price), ticks[e.value.1 + 1..])
    ensures (forall i :: 0 <= i < |ticks| ==> !buy.Triggers(ticks[i].price) && !sell.Triggers(ticks[i].price))
            ==> Idle(buy, sell, LastOf(last, ticks))
    decreases |ticks|
  {
    if ticks != [] && !buy.Triggers(ticks[0].price) && !sell.Triggers(ticks[0].price) {
      EntersAtLevel(buy, sell, tieBuy, Some(ticks[0].price), ticks[1..]);
      var e := Entering(buy, sell, tieBuy, ticks[1..]);
      if e.Some? { assert ticks[1..][e.value.1 + 1..] == ticks[e.value.1 + 2..]; }
    }
  }

  // A held leg on a steady path is stopped at its stop.
  lemma {:induction false} StopsAtTheStop(buy: Leg, sell: Leg, leg: Leg, last: real, ticks: seq<Tick>)
    requires Pair(buy, sell) && (leg == buy || leg == sell) && Steady(buy, sell, Some(last), ticks) && !leg.Stops(last)
    ensures var l := Leaving(leg, ticks);
            (l.Leaves? && !l.won ==> l.price == leg.stop)
            && (l.Stays? ==> !leg.Stops(LastOf(Some(last), ticks).value))
    decreases |ticks|
  {
    if ticks != [] && !leg.Stops(ticks[0].price) { StopsAtTheStop(buy, sell, leg, ticks[0].price, ticks[1..]); }
  }

  lemma {:induction false} ScanSame(
      buy: Leg, sell: Leg, leg: Leg, config: Config, entry: Tick, filledAt: int, candles: seq<Candle>,
      paths: seq<seq<Tick>>, last: real, i: nat)
    requires Pair(buy, sell) && (leg == buy || leg == sell) && i <= |candles| == |paths|
    requires SteadyAll(buy, sell, Some(last), paths, i) && !leg.Stops(last) && entry.price == leg.entry
    ensures MarketScan(leg, config, entry, paths, i).pnl
            == TickScan(leg, config, filledAt, candles, AllPrices(paths), i).pnl
    decreases |candles| - i
  {
    hide Cost;
    if i < |candles| {
      LeavingIs(leg, paths[i]);
      StopsAtTheStop(buy, sell, leg, last, paths[i]);
      var l := Leaving(leg, paths[i]);
      if l.Stays? {
        ScanSame(buy, sell, leg, config, entry, filledAt, candles, paths, LastOf(Some(last), paths[i]).value, i + 1);
      } else {
        PaidWorth(leg, config, entry, l.time, l.price, l.won);
      }
    }
  }

  lemma {:induction false} FillSame(
      buy: Leg, sell: Leg, leg: Leg, config: Config, candles: seq<Candle>, paths: seq<seq<Tick>>, i: nat, k: nat)
    requires Pair(buy, sell) && (leg == buy || leg == sell) && i < |candles| == |paths| && k < |paths[i]|
    requires paths[i][k].price == leg.entry && Steady(buy, sell, Some(leg.entry), paths[i][k + 1..])
    requires SteadyAll(buy, sell, LastOf(None, paths[i]), paths, i + 1)
    ensures MarketFill(leg, config, paths, i, k).pnl == TickFill(leg, config, candles, AllPrices(paths), i, k).pnl
  {
    hide Cost;
    var ticks := paths[i];
    var tail := ticks[k..];
    assert tail[0] == ticks[k] && tail[1..] == ticks[k + 1..];
    PricesTail(ticks, k);
    LeavingIs(leg, tail);
    StopsAtTheStop(buy, sell, leg, leg.entry, tail[1..]);
    assert Leaving(leg, tail) == Leaving(leg, tail[1..]);
    FillPnl(leg, config, paths, i, k);
    if Leaving(leg, tail).Stays? {
      var last := LastOf(Some(leg.entry), tail[1..]).value;
      assert LastOf(None, ticks) == Some(last);
      ScanSame(buy, sell, leg, config, ticks[k], candles[i].start, candles, paths, last, i + 1);
    }
  }

  // In a bar before the rule expires the market enters as the prices do, at the entry.
  lemma {:induction false} BarEnters(
      buy: Leg, sell: Leg, tieBuy: bool, candles: seq<Candle>, ticks: seq<Tick>, i: nat, last: Option<real>)
    requires Pair(buy, sell) && i < |candles| && Shows(ticks, candles[i]) && KeepsTime(buy, sell, candles, i)
    requires candles[i].start < MinInt(buy.expires, sell.expires)
    requires Steady(buy, sell, last, ticks) && Idle(buy, sell, last)
    ensures var e := Entering(buy, sell, tieBuy, ticks);
            e == TriggerIn(buy, sell, tieBuy, Prices(ticks))
            && (e.None? ==> KeepsTime(buy, sell, candles, i + 1) && Idle(buy, sell, LastOf(last, ticks)))
            && (e.Some? ==>
                  (e.value.0 == buy || e.value.0 == sell) && e.value.1 < |ticks|
                  && ticks[e.value.1].price == e.value.0.entry
                  && Steady(buy, sell, Some(e.value.0.entry), ticks[e.value.1 + 1..]))
  {
    EntersInTime(buy, sell, tieBuy, candles, ticks, i);
    TicksOfCandle(buy, candles[i], ticks);
    TicksOfCandle(sell, candles[i], ticks);
    hide Steady, Entering, TriggerIn, Refines;
    EntersAtLevel(buy, sell, tieBuy, last, ticks);
  }

  // Main result: on a steady path, where every trigger of the fill bar comes in time,
  // the market makes of the pair what the path booked at its levels makes of it.
  lemma {:induction false} MarketIsLevels(
      buy: Leg, sell: Leg, tieBuy: bool, config: Config, candles: seq<Candle>, paths: seq<seq<Tick>>,
      last: Option<real>, i: nat)
    requires Pair(buy, sell) && ShowsAll(paths, candles) && i <= |candles|
    requires SteadyAll(buy, sell, last, paths, i) && Idle(buy, sell, last) && KeepsTime(buy, sell, candles, i)
    ensures Market(buy, sell, tieBuy, config, paths, i).pnl
            == TickSimulate(buy, sell, tieBuy, config, candles, AllPrices(paths), i).pnl
    decreases |candles| - i
  {
    if i < |candles| {
      var ticks := paths[i];
      assert Shows(ticks, candles[i]);
      if candles[i].start >= MinInt(buy.expires, sell.expires) {
        NothingFills(buy, sell, tieBuy, config, candles, paths, i);
      } else {
        BarEnters(buy, sell, tieBuy, candles, ticks, i, last);
        hide MarketFill, TickFill, Steady, Shows, ShowsAll, Entering, TriggerIn, KeepsTime, Idle;
        if Entering(buy, sell, tieBuy, ticks).None? {
          MarketIsLevels(buy, sell, tieBuy, config, candles, paths, LastOf(last, ticks), i + 1);
        } else {
          var (leg, k) := Entering(buy, sell, tieBuy, ticks).value;
          assert LastOf(last, ticks) == LastOf(None, ticks);
          FillSame(buy, sell, leg, config, candles, paths, i, k);
        }
      }
    }
  }

  // Candles whose triggers come in time and whose fill is no blind fallback.
  ghost predicate Plain(buy: Leg, sell: Leg, candles: seq<Candle>) {
    Orderly(candles) && KeepsTime(buy, sell, candles, 0) && !BlindFill(buy, sell, candles)
  }

  ghost predicate SteadyPath(buy: Leg, sell: Leg, candles: seq<Candle>, paths: seq<seq<Tick>>) {
    ShowsAll(paths, candles) && SteadyAll(buy, sell, None, paths, 0)
  }

  // On steady paths: never optimistic, WIN, OPEN and EXPIRED exact, and with one
  // trigger, or with profit-safe legs, the profit is a lower bound.
  lemma {:induction false} SteadyConservative(
      buy: Leg, sell: Leg, tieBuy: bool, config: Config, candles: seq<Candle>, paths: seq<seq<Tick>>)
    requires Pair(buy, sell) && config.Valid() && Plain(buy, sell, candles) && SteadyPath(buy, sell, candles, paths)
    ensures var c, m := SimulateFrom(candles, buy, sell, config, 0), Market(buy, sell, tieBuy, config, paths, 0);
            NotOptimistic(c, m)
            && (!c.status.Loss? ==> c.status == m.status && c.side == m.side && c.pnl == m.pnl)
            && (!DualFill(buy, sell, candles) || ProfitSafe(buy, sell) ==> c.pnl <= m.pnl)
  {
    hide SimulateFrom, TickSimulate, Market, FillBar, ProfitSafe, SteadyAll;
    ShownRefine(paths, candles);
    MarketIsLevels(buy, sell, tieBuy, config, candles, paths, None, 0);
    MarketStatus(buy, sell, tieBuy, config, candles, paths, 0);
    ConservativeFrom(candles, buy, sell, config, AllPrices(paths), tieBuy, 0);
    StatusOfRule(candles, buy, sell, config, 0);
    if ProfitSafe(buy, sell) {
      ProfitSafeHolds(candles, buy, sell, config, AllPrices(paths), tieBuy, 0);
    }
  }

  lemma {:induction false} StatusOfRule(candles: seq<Candle>, buy: Leg, sell: Leg, config: Config, i: nat)
    requires i <= |candles|
    ensures !SimulateFrom(candles, buy, sell, config, i).status.NoData?
    decreases |candles| - i
  {
    if i < |candles| {
      FillVerdict(buy, true, config, candles, i);
      FillVerdict(buy, false, config, candles, i);
      FillVerdict(sell, true, config, candles, i);
      FillVerdict(sell, false, config, candles, i);
      hide FillIn;
      StatusOfRule(candles, buy, sell, config, i + 1);
    }
  }

  // --------------------------------------------------- the bound on steady paths

  ghost predicate SteadyBound(buy: Leg, sell: Leg, config: Config) {
    forall candles, paths, tieBuy | Plain(buy, sell, candles) && SteadyPath(buy, sell, candles, paths) ::
      SimulateFrom(candles, buy, sell, config, 0).pnl <= Market(buy, sell, tieBuy, config, paths, 0).pnl
  }

  lemma {:induction false} StepsAreSteady(buy: Leg, sell: Leg, last: Option<real>, prices: seq<real>, time: int)
    requires prices != [] ==> StepsTo(buy, sell, last, prices[0])
    requires forall i :: 0 <= i < |prices| - 1 ==> StepsTo(buy, sell, Some(prices[i]), prices[i + 1])
    ensures Steady(buy, sell, last, At(prices, time))
    decreases |prices|
  {
    if prices != [] {
      assert At(prices, time)[1..] == At(prices[1..], time);
      StepsAreSteady(buy, sell, Some(prices[0]), prices[1..], time);
    }
  }

  lemma {:induction false} ExitsInFront(leg: Leg, front: seq<real>, back: seq<real>)
    requires !ExitIn(leg, front).NoExit?
    ensures ExitIn(leg, front + back) == ExitIn(leg, front)
  {
    if !leg.Stops(front[0]) && !leg.Targets(front[0]) {
      assert (front + back)[1..] == front[1..] + back;
      ExitsInFront(leg, front[1..], back);
    }
  }

  // A loss larger than the rule's on a plain steady path breaks the bound.
  lemma {:induction false} LevelsBreak(
      buy: Leg, sell: Leg, tieBuy: bool, config: Config, candles: seq<Candle>, paths: seq<seq<real>>)
    requires Pair(buy, sell) && Plain(buy, sell, candles) && RefinesAll(paths, candles)
    requires SteadyAll(buy, sell, None, AtStarts(paths, candles), 0)
    requires TickSimulate(buy, sell, tieBuy, config, candles, paths, 0).pnl
             < SimulateFrom(candles, buy, sell, config, 0).pnl
    ensures !SteadyBound(buy, sell, config)
  {
    hide SimulateFrom, TickSimulate, Market, FillBar, Refines, SteadyAll;
    var timed := AtStarts(paths, candles);
    StartsShow(paths, candles);
    MarketIsLevels(buy, sell, tieBuy, config, candles, timed, None, 0);
    assert SteadyPath(buy, sell, candles, timed);
    assert !(SimulateFrom(candles, buy, sell, config, 0).pnl <= Market(buy, sell, tieBuy, config, timed, 0).pnl);
  }

  // Down to the sell's entry, up to both upper levels and down to both lower ones,
  // printing every level on the way.
  function SellLosesPath(buy: Leg, sell: Leg): seq<real> {
    var a, b := Max(buy.stop, sell.entry), Min(buy.entry, sell.stop);
    var s1, s2, s3, s4 := Min(buy.stop, sell.entry), Min(a, b), Max(a, b), Max(buy.entry, sell.stop);
    [sell.entry, Max(sell.entry, s2), Max(sell.entry, s3), s4] + [s3, s2, s1]
  }

  lemma {:induction false} SellLosesIsSteady(buy: Leg, sell: Leg)
    requires Pair(buy, sell) && sell.entry < buy.entry
    ensures var ps := SellLosesPath(buy, sell);
            StepsTo(buy, sell, None, ps[0])
            && forall i :: 0 <= i < |ps| - 1 ==> StepsTo(buy, sell, Some(ps[i]), ps[i + 1])
  {
    var ps := SellLosesPath(buy, sell);
    assert StepsTo(buy, sell, Some(ps[0]), ps[1]) && StepsTo(buy, sell, Some(ps[1]), ps[2]);
    assert StepsTo(buy, sell, Some(ps[2]), ps[3]) && StepsTo(buy, sell, Some(ps[3]), ps[4]);
    assert StepsTo(buy, sell, Some(ps[4]), ps[5]) && StepsTo(buy, sell, Some(ps[5]), ps[6]);
  }

  function SellLosesCandle(buy: Leg, sell: Leg): Candle {
    var low, high, end := Min(buy.stop, sell.entry), Max(buy.entry, sell.stop), MinInt(buy.expires, sell.expires);
    Candle(end - 1, end, low, high, low, low)
  }

  lemma {:induction false} SellLosesShown(buy: Leg, sell: Leg)
    requires Pair(buy, sell) && sell.entry < buy.entry
    ensures var c, ps := SellLosesCandle(buy, sell), SellLosesPath(buy, sell);
            Refines(ps, c) && c.Valid() && Dual(buy, sell, c) && OutcomeOf(buy, c).StopHit?
    ensures var ps := SellLosesPath(buy, sell);
            TriggerIn(buy, sell, false, ps) == Some((sell, 0)) && ExitIn(sell, ps).AtStop?
  {
    var ps := SellLosesPath(buy, sell);
    assert ps[3] in ps && ps[6] in ps && ps[0] == sell.entry;
    var front := [ps[0], ps[1], ps[2], ps[3]];
    assert ps == front + ps[4..] && front[3] in front;
    ExitInFirst(sell, front);
    ExitsInFront(sell, front, ps[4..]);
  }

  lemma {:induction false} SellLoses(buy: Leg, sell: Leg, config: Config)
    requires Pair(buy, sell) && config.Valid() && sell.entry < buy.entry && sell.Risk() > buy.Risk()
    ensures !SteadyBound(buy, sell, config)
  {
    var c, ps := SellLosesCandle(buy, sell), SellLosesPath(buy, sell);
    var candles, paths := [c], AtStarts([ps], [c]);
    assert c.start < MinInt(buy.expires, sell.expires) && c.end <= MinInt(buy.expires, sell.expires);
    SellLosesShown(buy, sell);
    SellLosesIsSteady(buy, sell);
    StepsAreSteady(buy, sell, None, ps, c.start);
    assert paths[0] == At(ps, c.start) && ps[0..] == ps && ps != [];
    hide Cost, ExitIn, TriggerIn, SellLosesPath, SellLosesCandle, Steady, Refines, OutcomeOf, At, AtStarts, StepsTo;
    assert SteadyAll(buy, sell, LastOf(None, paths[0]), paths, 1);
    assert SteadyAll(buy, sell, None, paths, 0);
    assert FillBar(buy, sell, candles, 0) == Some(0) && Plain(buy, sell, candles);
    hide SteadyAll, LastOf;
    LevelsBreak(buy, sell, false, config, candles, [ps]);
  }

  // From the buy's entry down to the sell's and up to the sell's stop, and in the
  // next candle down to the buy's stop.
  function BuyHeldPath(buy: Leg, sell: Leg): seq<real> {
    var m := Min(sell.stop, buy.entry);
    [buy.entry, m, sell.entry, m, Max(sell.stop, buy.entry)]
  }

  function BuyLosesPath(buy: Leg, sell: Leg): seq<real> {
    [Max(sell.stop, buy.entry), Min(sell.stop, buy.entry), sell.entry, buy.stop]
  }

  function BuyLosesCandles(buy: Leg, sell: Leg): seq<Candle> {
    var high, end := Max(sell.stop, buy.entry), MinInt(buy.expires, sell.expires);
    [Candle(end - 1, end, sell.entry, high, sell.entry, sell.entry),
     Candle(end, end + 1, high, high, buy.stop, buy.stop)]
  }

  lemma {:induction false} BuyLosesIsSteady(buy: Leg, sell: Leg, s: int, t: int)
    requires Pair(buy, sell) && sell.entry < buy.entry && buy.stop < sell.entry
    ensures Steady(buy, sell, None, At(BuyHeldPath(buy, sell), s))
    ensures LastOf(None, At(BuyHeldPath(buy, sell), s)).Some?
    ensures Steady(buy, sell, LastOf(None, At(BuyHeldPath(buy, sell), s)), At(BuyLosesPath(buy, sell), t))
  {
    var up, down := BuyHeldPath(buy, sell), BuyLosesPath(buy, sell);
    assert StepsTo(buy, sell, Some(up[0]), up[1]) && StepsTo(buy, sell, Some(up[1]), up[2]);
    assert StepsTo(buy, sell, Some(up[2]), up[3]) && StepsTo(buy, sell, Some(up[3]), up[4]);
    assert StepsTo(buy, sell, Some(down[0]), down[1]) && StepsTo(buy, sell, Some(down[1]), down[2]);
    assert StepsTo(buy, sell, Some(down[2]), down[3]);
    assert LastOf(None, At(up, s)) == Some(down[0]) && StepsTo(buy, sell, None, up[0]);
    StepsAreSteady(buy, sell, None, up, s);
    StepsAreSteady(buy, sell, Some(down[0]), down, t);
  }

  lemma {:induction false} BuyLosesShown(buy: Leg, sell: Leg)
    requires Pair(buy, sell) && sell.entry < buy.entry && buy.stop < sell.entry && sell.stop < buy.target
    ensures var cs, up, down := BuyLosesCandles(buy, sell), BuyHeldPath(buy, sell), BuyLosesPath(buy, sell);
            Refines(up, cs[0]) && Refines(down, cs[1]) && Orderly(cs) && Dual(buy, sell, cs[0])
            && OutcomeOf(buy, cs[0]).StillOpen? && OutcomeOf(sell, cs[0]).StopHit?
            && TriggerIn(buy, sell, true, up) == Some((buy, 0)) && ExitIn(buy, up).NoExit? && ExitIn(buy, down).AtStop?
  {
    var up, down := BuyHeldPath(buy, sell), BuyLosesPath(buy, sell);
    assert up[2] in up && up[4] in up && down[0] in down && down[3] in down && up[0] == buy.entry;
    ExitInFirst(buy, up);
    ExitInFirst(buy, down);
  }

  lemma {:induction false} BuyLoses(buy: Leg, sell: Leg, config: Config)
    requires Pair(buy, sell) && config.Valid() && sell.entry < buy.entry
    requires sell.Risk() < buy.Risk() && buy.stop < sell.entry && sell.stop < buy.target
    ensures !SteadyBound(buy, sell, config)
  {
    var candles, up, down := BuyLosesCandles(buy, sell), BuyHeldPath(buy, sell), BuyLosesPath(buy, sell);
    var paths := AtStarts([up, down], candles);
    assert candles[0].start < MinInt(buy.expires, sell.expires) && candles[0].end <= MinInt(buy.expires, sell.expires)
           && |candles| == 2;
    BuyLosesIsSteady(buy, sell, candles[0].start, candles[1].start);
    BuyLosesShown(buy, sell);
    assert paths[0] == At(up, candles[0].start) && paths[1] == At(down, candles[1].start);
    assert up[0..] == up && up != [];
    hide Cost, ExitIn, TriggerIn, BuyHeldPath, BuyLosesPath, BuyLosesCandles, Steady, Refines, OutcomeOf, At, AtStarts,
         StepsTo, LastOf, Triggered;
    assert SteadyAll(buy, sell, LastOf(LastOf(None, paths[0]), paths[1]), paths, 2);
    assert SteadyAll(buy, sell, LastOf(None, paths[0]), paths, 1);
    assert SteadyAll(buy, sell, None, paths, 0);
    assert FillBar(buy, sell, candles, 0) == Some(0) && Plain(buy, sell, candles);
    hide SteadyAll, Plain, Orderly;
    RuleBooks(candles, buy, sell, config, 0, 0);
    LevelsBreak(buy, sell, true, config, candles, [up, down]);
  }

  // Main result: over all candles and all their steady paths the profit bound is a
  // property of the two legs alone, dual triggers included.
  lemma {:induction false} SteadyBoundExactly(buy: Leg, sell: Leg, config: Config)
    requires Pair(buy, sell) && config.Valid() && sell.entry < buy.entry
    ensures ProfitSafe(buy, sell) <==> SteadyBound(buy, sell, config)
  {
    if ProfitSafe(buy, sell) {
      forall candles, paths, tieBuy | Plain(buy, sell, candles) && SteadyPath(buy, sell, candles, paths)
        ensures SimulateFrom(candles, buy, sell, config, 0).pnl <= Market(buy, sell, tieBuy, config, paths, 0).pnl
      {
        hide Plain, SteadyPath, ProfitSafe, SimulateFrom, Market;
        SteadyConservative(buy, sell, tieBuy, config, candles, paths);
      }
    } else {
      hide SteadyBound;
      if sell.Risk() > buy.Risk() {
        SellLoses(buy, sell, config);
      } else {
        BuyLoses(buy, sell, config);
      }
    }
  }
}
