// The candle backtest of a one-cancels-other order pair, and the tick paths a
// candle series can hide.  The backtest is documented as conservative; here
// that claim is stated against every tick path that refines the candles, with
// fills and stops booked at their levels as the rule books them.  CandleMarket
// gives the ticks prices and times of their own.
module CandleOco {
  import opened Common

  datatype Leg = Leg(side: Side, entry: real, stop: real, target: real, expires: int) {
    ghost predicate Valid() {
      match side
      case Buy => stop < entry < target
      case Sell => target < entry < stop
    }

    // Distance from entry to stop: what the leg loses before costs.
    function Risk(): real { if side.Buy? then entry - stop else stop - entry }

    predicate Triggers(price: real) { if side.Buy? then price >= entry else price <= entry }

    predicate Stops(price: real) { if side.Buy? then price <= stop else price >= stop }

    predicate Targets(price: real) { if side.Buy? then price >= target else price <= target }
  }

  datatype Candle = Candle(start: int, end: int, open: real, high: real, low: real, close: real) {
    ghost predicate Valid() {
      start < end && low <= open <= high && low <= close <= high
    }
  }

  ghost predicate ValidCandles(candles: seq<Candle>) {
    forall i :: 0 <= i < |candles| ==> candles[i].Valid()
  }

  datatype Config = Config(tick: real, slippage: real, spread: real, latency: nat) {
    ghost predicate Valid() { tick > 0.0 && slippage >= 0.0 && spread >= 0.0 }
  }

  datatype Status = Win | Loss | Open | Expired | NoData

  datatype Reason =
    | NoEligibleBars | OcoExpired | NoTriggerBeforeDataEnd | OpenAtDataEnd
    | DualTrigger | OrderTriggered | SameBarStop | LaterLoss | LaterWin | TickPath

  datatype Result = Result(
    status: Status, side: Option<Side>, filledAt: Option<int>, fillPrice: Option<real>,
    exitPrice: Option<real>, exitAt: Option<int>, pnl: real, reason: Reason)

  datatype BarOutcome = StopHit(ambiguous: bool) | TargetHit | StillOpen

  function Nothing(status: Status, reason: Reason): Result {
    Result(status, None, None, None, None, None, 0.0, reason)
  }

  function Triggered(leg: Leg, c: Candle): bool {
    if leg.side.Buy? then c.high >= leg.entry else c.low <= leg.entry
  }

  function Cost(config: Config): real { config.tick * (config.slippage + config.spread / 2.0) }

  function FillPrice(leg: Leg, config: Config): real {
    if leg.side.Buy? then leg.entry + Cost(config) else leg.entry - Cost(config)
  }

  function OutcomeOf(leg: Leg, c: Candle): BarOutcome {
    var stopHit := if leg.side.Buy? then c.low <= leg.stop else c.high >= leg.stop;
    var targetHit := if leg.side.Buy? then c.high >= leg.target else c.low <= leg.target;
    if stopHit then StopHit(targetHit) else if targetHit then TargetHit else StillOpen
  }

  function Pnl(side: Side, fill: real, exit: real): real {
    if side.Buy? then exit - fill else fill - exit
  }

  function Closed(leg: Leg, config: Config, filledAt: int, won: bool, exitAt: int, reason: Reason): Result {
    var fill := FillPrice(leg, config);
    var exit := if won then leg.target else leg.stop;
    Result(if won then Win else Loss, Some(leg.side), Some(filledAt), Some(fill),
           Some(exit), Some(exitAt), Pnl(leg.side, fill, exit), reason)
  }

  function StillHeld(leg: Leg, config: Config, filledAt: int): Result {
    Result(Open, Some(leg.side), Some(filledAt), Some(FillPrice(leg, config)), None, None, 0.0, OpenAtDataEnd)
  }

  // What a leg already filled at `filledAt` becomes over the candles from i on.
  function Scan(leg: Leg, config: Config, filledAt: int, candles: seq<Candle>, i: nat): Result
    requires i <= |candles|
    decreases |candles| - i
  {
    if i == |candles| then StillHeld(leg, config, filledAt)
    else match OutcomeOf(leg, candles[i])
      case StopHit(amb) =>
        Closed(leg, config, filledAt, false, candles[i].end, if amb then SameBarStop else LaterLoss)
      case TargetHit => Closed(leg, config, filledAt, true, candles[i].end, LaterWin)
      case StillOpen => Scan(leg, config, filledAt, candles, i + 1)
  }

  // What a leg becomes when the rule books its fill in candle i.
  function FillIn(leg: Leg, dual: bool, config: Config, candles: seq<Candle>, i: nat): Result
    requires i < |candles|
  {
    match OutcomeOf(leg, candles[i])
    case StopHit(amb) =>
      Closed(leg, config, candles[i].start, false, candles[i].end,
             if amb then SameBarStop else if dual then DualTrigger else OrderTriggered)
    case TargetHit =>
      Closed(leg, config, candles[i].start, true, candles[i].end, if dual then DualTrigger else OrderTriggered)
    case StillOpen => Scan(leg, config, candles[i].start, candles, i + 1)
  }

  // The leg booked when both trigger: the first that loses, else the buy leg.
  function DualPick(buy: Leg, sell: Leg, c: Candle): Leg {
    if OutcomeOf(buy, c).StopHit? then buy else if OutcomeOf(sell, c).StopHit? then sell else buy
  }

  function SimulateFrom(candles: seq<Candle>, buy: Leg, sell: Leg, config: Config, i: nat): Result
    requires i <= |candles|
    decreases |candles| - i
  {
    if i == |candles| then Nothing(Expired, NoTriggerBeforeDataEnd)
    else if candles[i].start >= MinInt(buy.expires, sell.expires) then Nothing(Expired, OcoExpired)
    else
      var b, s := Triggered(buy, candles[i]), Triggered(sell, candles[i]);
      if b && s then FillIn(DualPick(buy, sell, candles[i]), true, config, candles, i)
      else if b then FillIn(buy, false, config, candles, i)
      else if s then FillIn(sell, false, config, candles, i)
      else SimulateFrom(candles, buy, sell, config, i + 1)
  }

  function Eligible(candles: seq<Candle>, config: Config): seq<Candle> {
    if config.latency <= |candles| then candles[config.latency..] else []
  }

  function Simulate(candles: seq<Candle>, buy: Leg, sell: Leg, config: Config): Result {
    var eligible := Eligible(candles, config);
    if eligible == [] then Nothing(NoData, NoEligibleBars) else SimulateFrom(eligible, buy, sell, config, 0)
  }

  // list.index: the first position holding an equal candle.
  function IndexOf(candles: seq<Candle>, c: Candle): (i: nat)
    requires c in candles
    ensures i < |candles| && candles[i] == c && c !in candles[..i]
  {
    if candles[0] == c then 0
    else
      assert c in candles[1..];
      var i := IndexOf(candles[1..], c);
      assert candles[..i + 1] == [candles[0]] + candles[1..][..i];
      i + 1
  }

  // The nested loops, in the order they run.  The inner scan starts behind
  // IndexOf(candle), which the outer invariant shows to be the current index:
  // an equal candle earlier would have triggered earlier.
  method SimulateOco(candles: seq<Candle>, buy: Leg, sell: Leg, config: Config) returns (r: Result)
    requires buy.side.Buy? && sell.side.Sell?
    ensures r == Simulate(candles, buy, sell, config)
  {
    var eligible := if config.latency <= |candles| then candles[config.latency..] else [];
    if eligible == [] {
      return Nothing(NoData, NoEligibleBars);
    }
    var i := 0;
    while i < |eligible|
      invariant i <= |eligible|
      invariant SimulateFrom(eligible, buy, sell, config, 0) == SimulateFrom(eligible, buy, sell, config, i)
      invariant forall k :: 0 <= k < i ==> !Triggered(buy, eligible[k]) && !Triggered(sell, eligible[k])
    {
      var candle := eligible[i];
      if candle.start >= MinInt(buy.expires, sell.expires) {
        return Nothing(Expired, OcoExpired);
      }
      var both := Triggered(buy, candle) && Triggered(sell, candle);
      if Triggered(buy, candle) || Triggered(sell, candle) {
        var leg := if both then DualPick(buy, sell, candle)
                   else if Triggered(buy, candle) then buy else sell;
        var outcome := OutcomeOf(leg, candle);
        if !outcome.StillOpen? {
          return Closed(leg, config, candle.start, outcome.TargetHit?, candle.end,
                        if outcome == StopHit(true) then SameBarStop
                        else if both then DualTrigger else OrderTriggered);
        }
        var j := IndexOf(eligible, candle) + 1;
        assert j == i + 1;
        while j < |eligible|
          invariant i < j <= |eligible|
          invariant Scan(leg, config, candle.start, eligible, i + 1) == Scan(leg, config, candle.start, eligible, j)
        {
          outcome := OutcomeOf(leg, eligible[j]);
          if !outcome.StillOpen? {
            return Closed(leg, config, candle.start, outcome.TargetHit?, eligible[j].end,
                          if outcome == StopHit(true) then SameBarStop
                          else if outcome.TargetHit? then LaterWin else LaterLoss);
          }
          j := j + 1;
        }
        return StillHeld(leg, config, candle.start);
      }
      i := i + 1;
    }
    return Nothing(Expired, NoTriggerBeforeDataEnd);
  }

  // ---------------------------------------------------------------- tick paths

  // A tick sequence refines a candle when its minimum is the low and its
  // maximum is the high.
  ghost predicate Refines(ticks: seq<real>, c: Candle) {
    (forall p :: p in ticks ==> c.low <= p <= c.high) && c.low in ticks && c.high in ticks
  }

  ghost predicate RefinesAll(paths: seq<seq<real>>, candles: seq<Candle>) {
    |paths| == |candles| && forall i :: 0 <= i < |candles| ==> Refines(paths[i], candles[i])
  }

  datatype TickExit = NoExit | AtStop | AtTarget

  // The first level an open leg meets.
  function ExitIn(leg: Leg, ticks: seq<real>): TickExit {
    if ticks == [] then NoExit
    else if leg.Stops(ticks[0]) then AtStop
    else if leg.Targets(ticks[0]) then AtTarget
    else ExitIn(leg, ticks[1..])
  }

  // The first tick that fills a leg; a tick that fills either goes to the buy
  // leg or to the sell leg, as `tieBuy` says.
  function TriggerIn(buy: Leg, sell: Leg, tieBuy: bool, ticks: seq<real>): Option<(Leg, nat)> {
    if ticks == [] then None
    else if buy.Triggers(ticks[0]) && (tieBuy || !sell.Triggers(ticks[0])) then Some((buy, 0))
    else if sell.Triggers(ticks[0]) then Some((sell, 0))
    else match TriggerIn(buy, sell, tieBuy, ticks[1..])
      case None => None
      case Some(hit) => Some((hit.0, hit.1 + 1))
  }

  function TickScan(
      leg: Leg, config: Config, filledAt: int, candles: seq<Candle>, paths: seq<seq<real>>, i: nat): Result
    requires i <= |candles| == |paths|
    decreases |candles| - i
  {
    if i == |candles| then StillHeld(leg, config, filledAt)
    else match ExitIn(leg, paths[i])
      case AtStop => Closed(leg, config, filledAt, false, candles[i].end, TickPath)
      case AtTarget => Closed(leg, config, filledAt, true, candles[i].end, TickPath)
      case NoExit => TickScan(leg, config, filledAt, candles, paths, i + 1)
  }

  function TickFill(leg: Leg, config: Config, candles: seq<Candle>, paths: seq<seq<real>>, i: nat, tick: nat): Result
    requires i < |candles| == |paths| && tick <= |paths[i]|
  {
    match ExitIn(leg, paths[i][tick..])
    case AtStop => Closed(leg, config, candles[i].start, false, candles[i].end, TickPath)
    case AtTarget => Closed(leg, config, candles[i].start, true, candles[i].end, TickPath)
    case NoExit => TickScan(leg, config, candles[i].start, candles, paths, i + 1)
  }

  // The same pair traded along the path, with fills and stops booked at their
  // levels and the expiry tested at candle starts, as the rule does both.
  function TickSimulate(
    buy: Leg, sell: Leg, tieBuy: bool, config: Config, candles: seq<Candle>, paths: seq<seq<real>>, i: nat): Result
    requires i <= |candles| == |paths|
    decreases |candles| - i
  {
    if i == |candles| then Nothing(Expired, NoTriggerBeforeDataEnd)
    else if candles[i].start >= MinInt(buy.expires, sell.expires) then Nothing(Expired, OcoExpired)
    else match TriggerIn(buy, sell, tieBuy, paths[i])
      case None => TickSimulate(buy, sell, tieBuy, config, candles, paths, i + 1)
      case Some(hit) =>
        TriggerInFirst(buy, sell, tieBuy, paths[i]);
        TickFill(hit.0, config, candles, paths, i, hit.1)
  }

  lemma {:induction false} TriggerInFirst(buy: Leg, sell: Leg, tieBuy: bool, ticks: seq<real>)
    ensures TriggerIn(buy, sell, tieBuy, ticks).None? <==>
            forall p :: p in ticks ==> !buy.Triggers(p) && !sell.Triggers(p)
    ensures TriggerIn(buy, sell, tieBuy, ticks).Some? ==>
              var (leg, k) := TriggerIn(buy, sell, tieBuy, ticks).value;
              (leg == buy || leg == sell) && k < |ticks| && leg.Triggers(ticks[k])
              && forall j :: 0 <= j < k ==> !buy.Triggers(ticks[j]) && !sell.Triggers(ticks[j])
  {
    if ticks != [] {
      TriggerInFirst(buy, sell, tieBuy, ticks[1..]);
      assert forall p :: p in ticks <==> p == ticks[0] || p in ticks[1..];
    }
  }

  lemma {:induction false} ExitInFirst(leg: Leg, ticks: seq<real>)
    ensures ExitIn(leg, ticks).NoExit? <==> forall p :: p in ticks ==> !leg.Stops(p) && !leg.Targets(p)
    ensures ExitIn(leg, ticks).AtStop? ==> exists p :: p in ticks && leg.Stops(p)
    ensures ExitIn(leg, ticks).AtTarget? ==> exists p :: p in ticks && leg.Targets(p)
  {
    if ticks != [] {
      ExitInFirst(leg, ticks[1..]);
      assert forall p :: p in ticks <==> p == ticks[0] || p in ticks[1..];
    }
  }

  // ------------------------------------------------------- what conservative means

  // The first candle in which the rule books a fill.
  function FillBar(buy: Leg, sell: Leg, candles: seq<Candle>, i: nat): (k: Option<nat>)
    requires i <= |candles|
    ensures k.Some?
            ==> i <= k.value < |candles| && (Triggered(buy, candles[k.value]) || Triggered(sell, candles[k.value]))
    decreases |candles| - i
  {
    if i == |candles| || candles[i].start >= MinInt(buy.expires, sell.expires) then None
    else if Triggered(buy, candles[i]) || Triggered(sell, candles[i]) then Some(i)
    else FillBar(buy, sell, candles, i + 1)
  }

  function Dual(buy: Leg, sell: Leg, c: Candle): bool { Triggered(buy, c) && Triggered(sell, c) }

  // Both legs trigger and neither stop is touched: the branch that falls back
  // to the buy leg.
  function BlindBar(buy: Leg, sell: Leg, c: Candle): bool {
    Dual(buy, sell, c) && !OutcomeOf(buy, c).StopHit? && !OutcomeOf(sell, c).StopHit?
  }

  function BlindFill(buy: Leg, sell: Leg, candles: seq<Candle>): bool {
    var k := FillBar(buy, sell, candles, 0);
    k.Some? && BlindBar(buy, sell, candles[k.value])
  }

  function DualFill(buy: Leg, sell: Leg, candles: seq<Candle>): bool {
    var k := FillBar(buy, sell, candles, 0);
    k.Some? && Dual(buy, sell, candles[k.value])
  }

  function Rank(s: Status): int { match s case Loss => 0 case Open => 1 case Win => 2 case _ => 3 }

  ghost predicate SameTrade(c: Result, t: Result) { c == t.(reason := c.reason) }

  // The candle result claims no more than the path result.
  ghost predicate NotOptimistic(c: Result, t: Result) {
    (c.status.Expired? <==> t.status.Expired?) && Rank(c.status) <= Rank(t.status)
  }

  ghost predicate Pair(buy: Leg, sell: Leg) {
    buy.side.Buy? && sell.side.Sell? && buy.Valid() && sell.Valid()
  }

  lemma CostNonNegative(config: Config)
    requires config.Valid()
    ensures Cost(config) >= 0.0
  {
    var a, b := config.tick, config.slippage + config.spread / 2.0;
    assert a * b >= 0.0;
  }

  // Inside one candle the rule brackets every path.
  lemma BarVsTicks(leg: Leg, c: Candle, ticks: seq<real>)
    requires leg.Valid() && Refines(ticks, c)
    ensures OutcomeOf(leg, c) == StopHit(false) ==> ExitIn(leg, ticks).AtStop?
    ensures OutcomeOf(leg, c).TargetHit? ==> ExitIn(leg, ticks).AtTarget?
    ensures OutcomeOf(leg, c).StillOpen? <==> ExitIn(leg, ticks).NoExit?
  {
    ExitInFirst(leg, ticks);
  }

  // After a fill the candle scan is a lower bound on the path, exact unless it
  // says LOSS.
  lemma {:induction false} ScanVsTicks(
      leg: Leg, config: Config, filledAt: int, candles: seq<Candle>, paths: seq<seq<real>>, i: nat)
    requires leg.Valid() && config.Valid() && RefinesAll(paths, candles) && i <= |candles|
    ensures var c, t := Scan(leg, config, filledAt, candles, i), TickScan(leg, config, filledAt, candles, paths, i);
            c.side == t.side == Some(leg.side) && c.fillPrice == t.fillPrice && c.filledAt == t.filledAt
            && Rank(c.status) <= Rank(t.status) < 3 && c.pnl <= t.pnl
            && (c.status.Loss? || c == t.(reason := c.reason))
            && t.pnl >= -leg.Risk() - Cost(config)
            && (c.status.Loss? ==> c.pnl == -leg.Risk() - Cost(config))
    decreases |candles| - i
  {
    CostNonNegative(config);
    if i < |candles| {
      BarVsTicks(leg, candles[i], paths[i]);
      ScanVsTicks(leg, config, filledAt, candles, paths, i + 1);
      TickScanBounds(leg, config, filledAt, candles, paths, i);
    }
  }

  lemma {:induction false} TickScanBounds(
      leg: Leg, config: Config, filledAt: int, candles: seq<Candle>, paths: seq<seq<real>>, i: nat)
    requires leg.Valid() && config.Valid() && i <= |candles| == |paths|
    ensures var t := TickScan(leg, config, filledAt, candles, paths, i);
            Rank(t.status) < 3 && t.side == Some(leg.side) && t.filledAt == Some(filledAt)
            && t.fillPrice == Some(FillPrice(leg, config)) && t.pnl >= -leg.Risk() - Cost(config)
    decreases |candles| - i
  {
    CostNonNegative(config);
    if i < |candles| { TickScanBounds(leg, config, filledAt, candles, paths, i + 1); }
  }

  // Ticks before the fill cannot hold the target, so cutting them off keeps it.
  lemma TailOfFill(leg: Leg, c: Candle, ticks: seq<real>, k: nat)
    requires leg.Valid() && Refines(ticks, c) && k < |ticks|
    requires forall j :: 0 <= j < k ==> !leg.Triggers(ticks[j])
    ensures OutcomeOf(leg, c).TargetHit? ==> ExitIn(leg, ticks[k..]).AtTarget?
    ensures OutcomeOf(leg, c).StillOpen? ==> ExitIn(leg, ticks[k..]).NoExit?
  {
    var tail := ticks[k..];
    ExitInFirst(leg, tail);
    assert forall p :: p in tail ==> p in ticks;
    var extreme := if leg.side.Buy? then c.high else c.low;
    var j :| 0 <= j < |ticks| && ticks[j] == extreme;
    assert OutcomeOf(leg, c).TargetHit? ==> leg.Targets(extreme) && leg.Triggers(extreme);
    if j >= k { assert tail[j - k] == extreme; }
  }

  // A fill the rule books on the leg the path really fills is never optimistic.
  lemma FillVsTicks(leg: Leg, dual: bool, config: Config, candles: seq<Candle>, paths: seq<seq<real>>, i: nat, k: nat)
    requires leg.Valid() && config.Valid() && RefinesAll(paths, candles) && i < |candles| && k < |paths[i]|
    requires forall j :: 0 <= j < k ==> !leg.Triggers(paths[i][j])
    ensures var c, t := FillIn(leg, dual, config, candles, i), TickFill(leg, config, candles, paths, i, k);
            c.side == t.side && c.fillPrice == t.fillPrice && c.filledAt == t.filledAt
            && Rank(c.status) <= Rank(t.status) < 3 && c.pnl <= t.pnl
            && (c.status.Loss? || SameTrade(c, t))
  {
    CostNonNegative(config);
    TailOfFill(leg, candles[i], paths[i], k);
    ScanVsTicks(leg, config, candles[i].start, candles, paths, i + 1);
    TickScanBounds(leg, config, candles[i].start, candles, paths, i + 1);
  }

  lemma TickFillBounds(leg: Leg, config: Config, candles: seq<Candle>, paths: seq<seq<real>>, i: nat, k: nat)
    requires leg.Valid() && config.Valid() && i < |candles| == |paths| && k <= |paths[i]|
    ensures var t := TickFill(leg, config, candles, paths, i, k);
            Rank(t.status) < 3 && t.pnl >= -leg.Risk() - Cost(config)
  {
    CostNonNegative(config);
    TickScanBounds(leg, config, candles[i].start, candles, paths, i + 1);
  }

  lemma CandleTriggers(buy: Leg, sell: Leg, tieBuy: bool, c: Candle, ticks: seq<real>)
    requires Pair(buy, sell) && Refines(ticks, c)
    ensures TriggerIn(buy, sell, tieBuy, ticks).Some? <==> Triggered(buy, c) || Triggered(sell, c)
    ensures TriggerIn(buy, sell, tieBuy, ticks).Some? && !Triggered(sell, c)
            ==> TriggerIn(buy, sell, tieBuy, ticks).value.0 == buy
    ensures TriggerIn(buy, sell, tieBuy, ticks).Some? && !Triggered(buy, c)
            ==> TriggerIn(buy, sell, tieBuy, ticks).value.0 == sell
  {
    TriggerInFirst(buy, sell, tieBuy, ticks);
    assert c.high in ticks && c.low in ticks;
    match TriggerIn(buy, sell, tieBuy, ticks)
    case None =>
    case Some(hit) => assert ticks[hit.1] in ticks;
  }

  // Outside the blind fallback the simulation is conservative on every path booked
  // at its levels: WIN and OPEN are exact, no-trade coincides, and when one leg
  // triggers alone the profit is a lower bound.
  lemma {:induction false} ConservativeFrom(
    candles: seq<Candle>, buy: Leg, sell: Leg, config: Config, paths: seq<seq<real>>, tieBuy: bool, i: nat)
    requires Pair(buy, sell) && config.Valid() && RefinesAll(paths, candles) && i <= |candles|
    requires var k := FillBar(buy, sell, candles, i); k.Some? ==> !BlindBar(buy, sell, candles[k.value])
    ensures var c, t := SimulateFrom(candles, buy, sell, config, i),
                        TickSimulate(buy, sell, tieBuy, config, candles, paths, i);
            NotOptimistic(c, t)
            && (c.status.Win? || c.status.Open? || c.status.Expired? ==> SameTrade(c, t))
    ensures var c, t := SimulateFrom(candles, buy, sell, config, i),
                        TickSimulate(buy, sell, tieBuy, config, candles, paths, i);
            var k := FillBar(buy, sell, candles, i);
            k.None? || !Dual(buy, sell, candles[k.value]) ==> c.side == t.side && c.pnl <= t.pnl
    decreases |candles| - i
  {
    if i < |candles| && candles[i].start < MinInt(buy.expires, sell.expires) {
      var c, ticks := candles[i], paths[i];
      CandleTriggers(buy, sell, tieBuy, c, ticks);
      TriggerInFirst(buy, sell, tieBuy, ticks);
      match TriggerIn(buy, sell, tieBuy, ticks)
      case None => ConservativeFrom(candles, buy, sell, config, paths, tieBuy, i + 1);
      case Some(hit) =>
        var (leg, k) := hit;
        TickFillBounds(leg, config, candles, paths, i, k);
        FillVsTicks(leg, false, config, candles, paths, i, k);
    }
  }

  lemma Conservative(candles: seq<Candle>, buy: Leg, sell: Leg, config: Config, paths: seq<seq<real>>, tieBuy: bool)
    requires Pair(buy, sell) && config.Valid()
    requires var e := Eligible(candles, config); e != [] && RefinesAll(paths, e) && !BlindFill(buy, sell, e)
    ensures var e := Eligible(candles, config);
            var c, t := Simulate(candles, buy, sell, config), TickSimulate(buy, sell, tieBuy, config, e, paths, 0);
            NotOptimistic(c, t)
            && (c.status.Win? || c.status.Open? || c.status.Expired? ==> SameTrade(c, t))
            && (!DualFill(buy, sell, e) ==> c.side == t.side && c.pnl <= t.pnl)
  {
    ConservativeFrom(Eligible(candles, config), buy, sell, config, paths, tieBuy, 0);
  }

  // ------------------------------------------- the blind fallback, exactly

  ghost predicate OptimisticNowhere(candles: seq<Candle>, buy: Leg, sell: Leg, config: Config) {
    forall paths, tieBuy | RefinesAll(paths, candles) ::
      NotOptimistic(SimulateFrom(candles, buy, sell, config, 0),
                    TickSimulate(buy, sell, tieBuy, config, candles, paths, 0))
  }

  // How a leg filled in a candle ends: the first candle from there on that
  // touches its stop loses it, or its target wins it.
  function Verdict(leg: Leg, candles: seq<Candle>, i: nat): Status
    requires i < |candles|
    decreases |candles| - i
  {
    match OutcomeOf(leg, candles[i])
    case StopHit(_) => Loss
    case TargetHit => Win
    case StillOpen => if i + 1 == |candles| then Open else Verdict(leg, candles, i + 1)
  }

  lemma {:induction false} ScanVerdict(leg: Leg, config: Config, filledAt: int, candles: seq<Candle>, i: nat)
    requires i < |candles|
    ensures Scan(leg, config, filledAt, candles, i).status == Verdict(leg, candles, i)
    ensures Rank(Verdict(leg, candles, i)) < 3
    decreases |candles| - i
  {
    if i + 1 < |candles| { ScanVerdict(leg, config, filledAt, candles, i + 1); }
  }

  lemma FillVerdict(leg: Leg, dual: bool, config: Config, candles: seq<Candle>, i: nat)
    requires i < |candles|
    ensures FillIn(leg, dual, config, candles, i).status == Verdict(leg, candles, i)
    ensures Rank(Verdict(leg, candles, i)) < 3
  {
    if i + 1 < |candles| { ScanVerdict(leg, config, candles[i].start, candles, i + 1); }
  }

  // The blind fallback books the buy leg where the sell leg ends worse.
  predicate PassesOverWorse(buy: Leg, sell: Leg, candles: seq<Candle>) {
    BlindFill(buy, sell, candles)
    && var k := FillBar(buy, sell, candles, 0).value;
       Rank(Verdict(sell, candles, k)) < Rank(Verdict(buy, candles, k))
  }

  // A path that realises the rule's verdict on `leg`: stops before targets.
  function WorstTicks(leg: Leg, c: Candle): seq<real> {
    if leg.side.Buy? then [c.low, c.high] else [c.high, c.low]
  }

  // Low first, so that a sell leg is filled before the buy leg.
  function WorstPath(sell: Leg, candles: seq<Candle>, k: nat): (paths: seq<seq<real>>)
    ensures |paths| == |candles|
    ensures forall i :: 0 <= i < |candles| ==>
      paths[i] == if i <= k then [candles[i].low, candles[i].high] else WorstTicks(sell, candles[i])
  {
    seq(|candles|, i requires 0 <= i < |candles| =>
      if i <= k then [candles[i].low, candles[i].high] else WorstTicks(sell, candles[i]))
  }

  lemma WorstTicksExit(leg: Leg, c: Candle)
    requires leg.Valid() && c.Valid()
    ensures ExitIn(leg, WorstTicks(leg, c)) ==
            match OutcomeOf(leg, c) case StopHit(_) => AtStop case TargetHit => AtTarget case StillOpen => NoExit
  {
    var ticks := WorstTicks(leg, c);
    assert ticks[1..] == [ticks[1]] && ticks[1..][1..] == [];
    assert ExitIn(leg, ticks[1..]) ==
           if leg.Stops(ticks[1]) then AtStop else if leg.Targets(ticks[1]) then AtTarget else NoExit;
  }

  lemma {:induction false} WorstScan(
      leg: Leg, config: Config, filledAt: int, candles: seq<Candle>, paths: seq<seq<real>>, i: nat)
    requires leg.Valid() && i <= |candles| == |paths|
    requires forall j :: i <= j < |candles| ==> candles[j].Valid() && paths[j] == WorstTicks(leg, candles[j])
    ensures SameTrade(Scan(leg, config, filledAt, candles, i), TickScan(leg, config, filledAt, candles, paths, i))
    decreases |candles| - i
  {
    if i < |candles| {
      WorstTicksExit(leg, candles[i]);
      WorstScan(leg, config, filledAt, candles, paths, i + 1);
    }
  }

  lemma {:induction false} WorstReachesFill(
    candles: seq<Candle>, buy: Leg, sell: Leg, config: Config, paths: seq<seq<real>>, i: nat, k: nat)
    requires Pair(buy, sell) && config.Valid() && i <= k < |candles| && RefinesAll(paths, candles)
    requires FillBar(buy, sell, candles, i) == Some(k) && BlindBar(buy, sell, candles[k])
    requires paths == WorstPath(sell, candles, k)
    requires ValidCandles(candles)
    ensures SimulateFrom(candles, buy, sell, config, i) == FillIn(buy, true, config, candles, k)
    ensures SameTrade(FillIn(sell, true, config, candles, k), TickSimulate(buy, sell, false, config, candles, paths, i))
    decreases k - i
  {
    CandleTriggers(buy, sell, false, candles[i], paths[i]);
    if i < k {
      WorstReachesFill(candles, buy, sell, config, paths, i + 1, k);
    } else {
      var ticks := paths[i];
      assert ticks[0..] == ticks;
      ExitInFirst(sell, ticks);
      assert ticks[1] in ticks;
      assert TriggerIn(buy, sell, false, ticks) == Some((sell, 0));
      WorstScan(sell, config, candles[i].start, candles, paths, i + 1);
    }
  }

  // On the blind fallback: the buy leg the path might not have filled can only
  // be beaten by the sell leg, judged by the same rule.
  lemma {:induction false} BlindFromVsTicks(
    candles: seq<Candle>, buy: Leg, sell: Leg, config: Config, paths: seq<seq<real>>, tieBuy: bool, i: nat, k: nat)
    requires Pair(buy, sell) && config.Valid() && i <= k < |candles| && RefinesAll(paths, candles)
    requires FillBar(buy, sell, candles, i) == Some(k) && BlindBar(buy, sell, candles[k])
    ensures SimulateFrom(candles, buy, sell, config, i) == FillIn(buy, true, config, candles, k)
    ensures var t := TickSimulate(buy, sell, tieBuy, config, candles, paths, i);
            !t.status.Expired?
            && (Rank(FillIn(buy, true, config, candles, k).status) <= Rank(t.status)
                || Rank(FillIn(sell, true, config, candles, k).status) <= Rank(t.status))
    decreases k - i
  {
    var ticks := paths[i];
    CandleTriggers(buy, sell, tieBuy, candles[i], ticks);
    TriggerInFirst(buy, sell, tieBuy, ticks);
    if i < k {
      BlindFromVsTicks(candles, buy, sell, config, paths, tieBuy, i + 1, k);
    } else {
      var (leg, j) := TriggerIn(buy, sell, tieBuy, ticks).value;
      FillVsTicks(leg, true, config, candles, paths, i, j);
    }
  }

  // Exactly when the simulation is conservative on every path booked at its levels:
  // unless the fill is the blind fallback and the leg it passed over ends worse.
  lemma ConservativeExactly(candles: seq<Candle>, buy: Leg, sell: Leg, config: Config)
    requires Pair(buy, sell) && config.Valid()
    requires ValidCandles(candles)
    ensures OptimisticNowhere(candles, buy, sell, config) <==> !PassesOverWorse(buy, sell, candles)
  {
    if !BlindFill(buy, sell, candles) {
      forall paths, tieBuy | RefinesAll(paths, candles)
        ensures NotOptimistic(SimulateFrom(candles, buy, sell, config, 0),
                              TickSimulate(buy, sell, tieBuy, config, candles, paths, 0))
      {
        ConservativeFrom(candles, buy, sell, config, paths, tieBuy, 0);
      }
    } else {
      var k := FillBar(buy, sell, candles, 0).value;
      FillVerdict(buy, true, config, candles, k);
      FillVerdict(sell, true, config, candles, k);
      hide Verdict, FillIn;
      BlindExactly(candles, buy, sell, config, k);
    }
  }

  lemma BlindExactly(candles: seq<Candle>, buy: Leg, sell: Leg, config: Config, k: nat)
    requires Pair(buy, sell) && config.Valid() && ValidCandles(candles)
    requires FillBar(buy, sell, candles, 0) == Some(k) && BlindBar(buy, sell, candles[k])
    requires Rank(FillIn(buy, true, config, candles, k).status) < 3
    ensures OptimisticNowhere(candles, buy, sell, config) <==>
            Rank(FillIn(buy, true, config, candles, k).status) <= Rank(FillIn(sell, true, config, candles, k).status)
  {
    var c := SimulateFrom(candles, buy, sell, config, 0);
    var worst := WorstPath(sell, candles, k);
    forall i | 0 <= i < |candles| ensures Refines(worst[i], candles[i]) {
      assert worst[i][0] in worst[i] && worst[i][1] in worst[i];
    }
    WorstReachesFill(candles, buy, sell, config, worst, 0, k);
    hide FillIn;
    if Rank(c.status) <= Rank(FillIn(sell, true, config, candles, k).status) {
      forall paths, tieBuy | RefinesAll(paths, candles)
        ensures NotOptimistic(c, TickSimulate(buy, sell, tieBuy, config, candles, paths, 0))
      {
        BlindFromVsTicks(candles, buy, sell, config, paths, tieBuy, 0, k);
      }
    } else {
      assert !NotOptimistic(c, TickSimulate(buy, sell, false, config, candles, worst, 0));
    }
  }

  // ------------------------------------------- profit when both legs trigger

  // Booking the losing leg bounds the profit exactly when the booked leg never
  // risks less than a leg the path could lose on instead.
  predicate ProfitSafe(buy: Leg, sell: Leg) {
    sell.Risk() <= buy.Risk()
    && (buy.Risk() <= sell.Risk() || sell.entry <= buy.stop || buy.target <= sell.stop)
  }

  ghost predicate ProfitBound(
      buy: Leg, sell: Leg, config: Config, candles: seq<Candle>, paths: seq<seq<real>>, tieBuy: bool) {
    RefinesAll(paths, candles) && !BlindFill(buy, sell, candles) ==>
      SimulateFrom(candles, buy, sell, config, 0).pnl <= TickSimulate(buy, sell, tieBuy, config, candles, paths, 0).pnl
  }

  lemma {:induction false} ProfitSafeHolds(
    candles: seq<Candle>, buy: Leg, sell: Leg, config: Config, paths: seq<seq<real>>, tieBuy: bool, i: nat)
    requires Pair(buy, sell) && config.Valid() && ProfitSafe(buy, sell) && RefinesAll(paths, candles) && i <= |candles|
    requires var k := FillBar(buy, sell, candles, i); k.Some? ==> !BlindBar(buy, sell, candles[k.value])
    ensures SimulateFrom(candles, buy, sell, config, i).pnl
            <= TickSimulate(buy, sell, tieBuy, config, candles, paths, i).pnl
    decreases |candles| - i
  {
    if i < |candles| && candles[i].start < MinInt(buy.expires, sell.expires) {
      var c, ticks := candles[i], paths[i];
      CandleTriggers(buy, sell, tieBuy, c, ticks);
      TriggerInFirst(buy, sell, tieBuy, ticks);
      match TriggerIn(buy, sell, tieBuy, ticks)
      case None => ProfitSafeHolds(candles, buy, sell, config, paths, tieBuy, i + 1);
      case Some(hit) =>
        var (leg, k) := hit;
        CostNonNegative(config);
        FillVsTicks(leg, Dual(buy, sell, c), config, candles, paths, i, k);
        TickFillBounds(leg, config, candles, paths, i, k);
    }
  }

  // Candles on which the rule books one leg and the path loses on the other.
  lemma ProfitUnsafeFails(buy: Leg, sell: Leg, config: Config)
    requires Pair(buy, sell) && config.Valid() && !ProfitSafe(buy, sell)
    ensures exists candles, paths, tieBuy ::
      ValidCandles(candles) && !ProfitBound(buy, sell, config, candles, paths, tieBuy)
  {
    if sell.Risk() > buy.Risk() {
      SellPathLoses(buy, sell, config);
    } else {
      BuyPathLoses(buy, sell, config);
    }
  }

  lemma SellPathLoses(buy: Leg, sell: Leg, config: Config)
    requires Pair(buy, sell) && config.Valid() && sell.Risk() > buy.Risk()
    ensures exists candles, paths, tieBuy ::
      ValidCandles(candles) && !ProfitBound(buy, sell, config, candles, paths, tieBuy)
  {
    hide Cost;
    var at := MinInt(buy.expires, sell.expires) - 1;
    var low, high := Min(buy.stop, sell.entry), Max(sell.stop, buy.entry);
    var ticks := [sell.entry, high, low];
    var candles, paths := [Candle(at, at + 1, low, high, low, low)], [ticks];
    assert ticks[1..] == [high, low] && ticks[0..] == ticks && ticks[2] == low && ticks[1] == high;
    assert Refines(ticks, candles[0]) && FillBar(buy, sell, candles, 0) == Some(0);
    assert TriggerIn(buy, sell, false, ticks) == Some((sell, 0));
    assert ExitIn(sell, ticks[1..]) == AtStop;
    assert !ProfitBound(buy, sell, config, candles, paths, false);
  }

  lemma BuyPathLoses(buy: Leg, sell: Leg, config: Config)
    requires Pair(buy, sell) && config.Valid() && !ProfitSafe(buy, sell) && sell.Risk() <= buy.Risk()
    ensures exists candles, paths, tieBuy ::
      ValidCandles(candles) && !ProfitBound(buy, sell, config, candles, paths, tieBuy)
  {
    hide Cost;
    var at := MinInt(buy.expires, sell.expires) - 1;
    var low, high := Min(sell.entry, buy.entry), Max(sell.stop, buy.entry);
    var ticks, last := [buy.entry, low, high], [buy.stop];
    var candles := [Candle(at, at + 1, low, high, low, low),
                    Candle(at + 1, at + 2, buy.stop, buy.stop, buy.stop, buy.stop)];
    var paths := [ticks, last];
    assert ticks[1..] == [low, high] && ticks[1..][1..] == [high] && ticks[1..][1..][1..] == [] && ticks[0..] == ticks
           && ticks[1] == low && ticks[2] == high && last[0] == buy.stop;
    assert Refines(ticks, candles[0]) && Refines(last, candles[1]) && FillBar(buy, sell, candles, 0) == Some(0);
    assert TriggerIn(buy, sell, true, ticks) == Some((buy, 0));
    ExitInFirst(buy, ticks);
    assert last[1..] == [];
    assert ExitIn(buy, last) == AtStop;
    assert !ProfitBound(buy, sell, config, candles, paths, true);
  }

  // Over all candles and all their paths, booked at their levels, the profit bound
  // is a property of the two legs alone.
  lemma ProfitBoundExactly(buy: Leg, sell: Leg, config: Config)
    requires Pair(buy, sell) && config.Valid()
    ensures ProfitSafe(buy, sell) <==>
            forall candles, paths, tieBuy | ValidCandles(candles) ::
              ProfitBound(buy, sell, config, candles, paths, tieBuy)
  {
    if ProfitSafe(buy, sell) {
      forall candles, paths, tieBuy | RefinesAll(paths, candles) && !BlindFill(buy, sell, candles)
        ensures ProfitBound(buy, sell, config, candles, paths, tieBuy)
      {
        ProfitSafeHolds(candles, buy, sell, config, paths, tieBuy, 0);
      }
    } else {
      ProfitUnsafeFails(buy, sell, config);
    }
  }
}
