// The order pair on ticks that have a time and a price of their own.  A stop
// order fills and a stop exits at the tick that triggers it, a target at its
// level, and a leg fills at no tick at or after its own expiry.  The candle rule
// books levels, and tests the earlier of the two expiries at candle starts; here
// is what that is worth.
module CandleMarket {
  import opened Common
  import opened CandleOco

  datatype Tick = Tick(time: int, price: real)

  function Prices(ticks: seq<Tick>): (ps: seq<real>)
    ensures |ps| == |ticks| && forall i :: 0 <= i < |ticks| ==> ps[i] == ticks[i].price
  {
    seq(|ticks|, i requires 0 <= i < |ticks| => ticks[i].price)
  }

  function AllPrices(paths: seq<seq<Tick>>): (ps: seq<seq<real>>)
    ensures |ps| == |paths| && forall i :: 0 <= i < |paths| ==> ps[i] == Prices(paths[i])
  {
    seq(|paths|, i requires 0 <= i < |paths| => Prices(paths[i]))
  }

  // The ticks of a candle: its prices, in the order of their times, within it.
  ghost predicate Shows(ticks: seq<Tick>, c: Candle) {
    Refines(Prices(ticks), c)
    && (forall i :: 0 <= i < |ticks| ==> c.start <= ticks[i].time < c.end)
    && forall i, j :: 0 <= i < j < |ticks| ==> ticks[i].time <= ticks[j].time
  }

  ghost predicate ShowsAll(paths: seq<seq<Tick>>, candles: seq<Candle>) {
    |paths| == |candles| && forall i :: 0 <= i < |candles| ==> Shows(paths[i], candles[i])
  }

  ghost predicate Orderly(candles: seq<Candle>) {
    ValidCandles(candles) && forall i, j :: 0 <= i < j < |candles| ==> candles[i].end <= candles[j].start
  }

  // -------------------------------------------------------------- the market

  // A tick fills a leg that it triggers and that has not expired.
  predicate Hits(leg: Leg, tick: Tick) { tick.time < leg.expires && leg.Triggers(tick.price) }

  // The first tick that fills a leg, and the leg it fills.
  function Entering(buy: Leg, sell: Leg, tieBuy: bool, ticks: seq<Tick>): Option<(Leg, nat)> {
    if ticks == [] then None
    else if Hits(buy, ticks[0]) && (tieBuy || !Hits(sell, ticks[0])) then Some((buy, 0))
    else if Hits(sell, ticks[0]) then Some((sell, 0))
    else match Entering(buy, sell, tieBuy, ticks[1..])
      case None => None
      case Some(hit) => Some((hit.0, hit.1 + 1))
  }

  datatype Exit = Stays | Leaves(time: int, price: real, won: bool)

  // The first tick at a level of an open leg: a stop takes the tick's price.
  function Leaving(leg: Leg, ticks: seq<Tick>): Exit {
    if ticks == [] then Stays
    else if leg.Stops(ticks[0].price) then Leaves(ticks[0].time, ticks[0].price, false)
    else if leg.Targets(ticks[0].price) then Leaves(ticks[0].time, leg.target, true)
    else Leaving(leg, ticks[1..])
  }

  // A fill at a tick: the tick's price and the costs.
  function Paid(leg: Leg, tick: Tick, config: Config): real {
    if leg.side.Buy? then tick.price + Cost(config) else tick.price - Cost(config)
  }

  function MarketScan(leg: Leg, config: Config, entry: Tick, paths: seq<seq<Tick>>, i: nat): Result
    requires i <= |paths|
    decreases |paths| - i
  {
    var fill := Paid(leg, entry, config);
    if i == |paths| then Result(Open, Some(leg.side), Some(entry.time), Some(fill), None, None, 0.0, OpenAtDataEnd)
    else match Leaving(leg, paths[i])
      case Stays => MarketScan(leg, config, entry, paths, i + 1)
      case Leaves(time, price, won) => Left(leg, config, entry, time, price, won)
  }

  function Left(leg: Leg, config: Config, entry: Tick, time: int, price: real, won: bool): Result {
    var fill := Paid(leg, entry, config);
    Result(if won then Win else Loss, Some(leg.side), Some(entry.time), Some(fill), Some(price), Some(time),
           Pnl(leg.side, fill, price), TickPath)
  }

  function MarketFill(leg: Leg, config: Config, paths: seq<seq<Tick>>, i: nat, k: nat): Result
    requires i < |paths| && k < |paths[i]|
  {
    match Leaving(leg, paths[i][k..])
    case Stays => MarketScan(leg, config, paths[i][k], paths, i + 1)
    case Leaves(time, price, won) => Left(leg, config, paths[i][k], time, price, won)
  }

  function Market(buy: Leg, sell: Leg, tieBuy: bool, config: Config, paths: seq<seq<Tick>>, i: nat): Result
    requires i <= |paths|
    decreases |paths| - i
  {
    if i == |paths| then Nothing(Expired, OcoExpired)
    else match Entering(buy, sell, tieBuy, paths[i])
      case None => Market(buy, sell, tieBuy, config, paths, i + 1)
      case Some(hit) =>
        EnteringFirst(buy, sell, tieBuy, paths[i]);
        MarketFill(hit.0, config, paths, i, hit.1)
  }

  lemma PricesTail(ticks: seq<Tick>, k: nat)
    requires k <= |ticks|
    ensures Prices(ticks[k..]) == Prices(ticks)[k..]
  {
  }

  lemma {:induction false} EnteringFirst(buy: Leg, sell: Leg, tieBuy: bool, ticks: seq<Tick>)
    ensures var e := Entering(buy, sell, tieBuy, ticks);
            (e.None? <==> forall j :: 0 <= j < |ticks| ==> !Hits(buy, ticks[j]) && !Hits(sell, ticks[j]))
            && (e.Some? ==>
                  (e.value.0 == buy || e.value.0 == sell) && e.value.1 < |ticks| && Hits(e.value.0, ticks[e.value.1])
                  && forall j :: 0 <= j < e.value.1 ==> !Hits(buy, ticks[j]) && !Hits(sell, ticks[j]))
  {
    hide Hits;
    if ticks != [] { EnteringFirst(buy, sell, tieBuy, ticks[1..]); }
  }

  lemma {:induction false} EntersAt(buy: Leg, sell: Leg, tieBuy: bool, ticks: seq<Tick>, leg: Leg, k: nat)
    requires k < |ticks| && Hits(leg, ticks[k]) && buy != sell
    requires forall j :: 0 <= j < k ==> !Hits(buy, ticks[j]) && !Hits(sell, ticks[j])
    requires (leg == buy && (tieBuy || !Hits(sell, ticks[k]))) || (leg == sell && (!tieBuy || !Hits(buy, ticks[k])))
    ensures Entering(buy, sell, tieBuy, ticks) == Some((leg, k))
    decreases k
  {
    hide Hits;
    if k > 0 { EntersAt(buy, sell, tieBuy, ticks[1..], leg, k - 1); }
  }

  // Where every trigger comes in time, entering is the first trigger of the prices.
  lemma {:induction false} EnteringIs(buy: Leg, sell: Leg, tieBuy: bool, ticks: seq<Tick>)
    requires forall j :: 0 <= j < |ticks| ==>
               (buy.Triggers(ticks[j].price) ==> ticks[j].time < buy.expires)
               && (sell.Triggers(ticks[j].price) ==> ticks[j].time < sell.expires)
    ensures Entering(buy, sell, tieBuy, ticks) == TriggerIn(buy, sell, tieBuy, Prices(ticks))
  {
    if ticks != [] {
      PricesTail(ticks, 1);
      EnteringIs(buy, sell, tieBuy, ticks[1..]);
    }
  }

  lemma {:induction false} LeavingIs(leg: Leg, ticks: seq<Tick>)
    ensures var l, e := Leaving(leg, ticks), ExitIn(leg, Prices(ticks));
            (l.Stays? <==> e.NoExit?) && (l.Leaves? ==> (l.won <==> e.AtTarget?))
    ensures var l := Leaving(leg, ticks);
            l.Leaves? ==> if l.won then l.price == leg.target else leg.Stops(l.price) && l.price in Prices(ticks)
  {
    if ticks != [] {
      PricesTail(ticks, 1);
      LeavingIs(leg, ticks[1..]);
      assert Prices(ticks)[0] == ticks[0].price;
    }
  }

  // ---------------------------------------------- where a leg can fill, and where not

  predicate MayFill(leg: Leg, c: Candle) { c.start < leg.expires && Triggered(leg, c) }

  // No leg has to fill: each that is triggered can be gone before its trigger.
  predicate MayPass(buy: Leg, sell: Leg, c: Candle) {
    (Triggered(buy, c) ==> buy.expires < c.end) && (Triggered(sell, c) ==> sell.expires < c.end)
  }

  // A tick of the candle can find the other leg gone and this one still there.
  predicate Outlives(leg: Leg, other: Leg, c: Candle) { other.expires < c.end && other.expires < leg.expires }

  predicate Alone(leg: Leg, other: Leg, c: Candle) { !Triggered(other, c) || Outlives(leg, other, c) }

  predicate NeverFills(buy: Leg, sell: Leg, candles: seq<Candle>, i: nat) {
    forall j :: i <= j < |candles| ==> !MayFill(buy, candles[j]) && !MayFill(sell, candles[j])
  }

  lemma TicksOfCandle(leg: Leg, c: Candle, ticks: seq<Tick>)
    requires Shows(ticks, c)
    ensures forall j :: 0 <= j < |ticks| ==> c.low <= ticks[j].price <= c.high
    ensures forall j :: 0 <= j < |ticks| && leg.Triggers(ticks[j].price) ==> Triggered(leg, c)
    ensures Triggered(leg, c) ==> exists j :: 0 <= j < |ticks| && leg.Triggers(ticks[j].price)
  {
    var ps := Prices(ticks);
    forall j | 0 <= j < |ticks| ensures c.low <= ticks[j].price <= c.high {
      assert ps[j] in ps;
    }
    var best := if leg.side.Buy? then c.high else c.low;
    var j :| 0 <= j < |ps| && ps[j] == best;
    assert ticks[j].price == best;
  }

  // What entering in a candle says of the legs.
  lemma {:induction false} EnteringInCandle(buy: Leg, sell: Leg, tieBuy: bool, c: Candle, ticks: seq<Tick>)
    requires Pair(buy, sell) && Shows(ticks, c)
    ensures var e := Entering(buy, sell, tieBuy, ticks);
            (e.None? ==> MayPass(buy, sell, c))
            && (e.Some? ==>
                  (e.value.0 == buy || e.value.0 == sell) && e.value.1 < |ticks| && MayFill(e.value.0, c)
                  && e.value.0.Triggers(ticks[e.value.1].price)
                  && forall j :: 0 <= j < e.value.1 ==> !e.value.0.Triggers(ticks[j].price))
  {
    EnteringFirst(buy, sell, tieBuy, ticks);
    TicksOfCandle(buy, c, ticks);
    TicksOfCandle(sell, c, ticks);
    hide Entering, Refines;
  }

  // And of the other leg: it has not been triggered before, unless it can be gone.
  lemma {:induction false} OtherBefore(
      buy: Leg, sell: Leg, tieBuy: bool, c: Candle, ticks: seq<Tick>, leg: Leg, other: Leg, k: nat)
    requires Pair(buy, sell) && Shows(ticks, c) && Entering(buy, sell, tieBuy, ticks) == Some((leg, k))
    requires ((leg == buy && other == sell) || (leg == sell && other == buy)) && !Alone(leg, other, c)
    ensures k < |ticks| && forall j :: 0 <= j < k ==> !other.Triggers(ticks[j].price)
  {
    EnteringFirst(buy, sell, tieBuy, ticks);
    hide Entering, Refines;
  }

  lemma {:induction false} NothingFills(
      buy: Leg, sell: Leg, tieBuy: bool, config: Config, candles: seq<Candle>, paths: seq<seq<Tick>>, i: nat)
    requires Pair(buy, sell) && ShowsAll(paths, candles) && i <= |candles| && NeverFills(buy, sell, candles, i)
    ensures Market(buy, sell, tieBuy, config, paths, i) == Nothing(Expired, OcoExpired)
    decreases |candles| - i
  {
    if i < |candles| {
      assert Shows(paths[i], candles[i]);
      EnteringInCandle(buy, sell, tieBuy, candles[i], paths[i]);
      hide MayFill, Entering, MayPass;
      NothingFills(buy, sell, tieBuy, config, candles, paths, i + 1);
    }
  }

  // ------------------------------------------------------------- paths to order

  // A price path with all ticks of a candle at one time.
  function At(prices: seq<real>, time: int): (ticks: seq<Tick>)
    ensures Prices(ticks) == prices
  {
    var ticks := seq(|prices|, i requires 0 <= i < |prices| => Tick(time, prices[i]));
    assert Prices(ticks) == prices;
    ticks
  }

  function AtStarts(paths: seq<seq<real>>, candles: seq<Candle>): (timed: seq<seq<Tick>>)
    requires |paths| == |candles|
    ensures AllPrices(timed) == paths
  {
    var timed := seq(|paths|, i requires 0 <= i < |paths| => At(paths[i], candles[i].start));
    assert AllPrices(timed) == paths;
    timed
  }

  lemma StartsShow(paths: seq<seq<real>>, candles: seq<Candle>)
    requires ValidCandles(candles) && RefinesAll(paths, candles)
    ensures ShowsAll(AtStarts(paths, candles), candles)
  {
    hide Refines;
    forall i | 0 <= i < |candles| ensures Shows(At(paths[i], candles[i].start), candles[i]) {
      assert candles[i].Valid();
    }
  }

  lemma ShownRefine(paths: seq<seq<Tick>>, candles: seq<Candle>)
    requires ShowsAll(paths, candles)
    ensures RefinesAll(AllPrices(paths), candles)
  {
    hide Refines;
    forall i | 0 <= i < |candles| ensures Refines(AllPrices(paths)[i], candles[i]) {
      assert Shows(paths[i], candles[i]);
    }
  }

  lemma {:induction false} AtShows(prices: seq<real>, c: Candle, time: int)
    requires Refines(prices, c) && c.start <= time < c.end
    ensures Shows(At(prices, time), c) && |At(prices, time)| == |prices|
    ensures forall j :: 0 <= j < |prices| ==> At(prices, time)[j] == Tick(time, prices[j])
  {
  }

  lemma {:induction false} ExtremesRefine(c: Candle, leg: Leg)
    requires c.Valid()
    ensures Refines([Favour(leg, c), Adverse(leg, c)], c) && Refines([Adverse(leg, c), Favour(leg, c)], c)
    ensures WorstTicks(leg, c) == [Adverse(leg, c), Favour(leg, c)]
  {
    var a, b := [Favour(leg, c), Adverse(leg, c)], [Adverse(leg, c), Favour(leg, c)];
    assert a[0] in a && a[1] in a && b[0] in b && b[1] in b;
  }

  // One candle's ticks as given, all others at their worst for the leg.
  function Around(leg: Leg, candles: seq<Candle>, k: nat, ticks: seq<Tick>): (paths: seq<seq<Tick>>)
    ensures |paths| == |candles|
    ensures forall i :: 0 <= i < |candles| ==>
              paths[i] == if i == k then ticks else At(WorstTicks(leg, candles[i]), candles[i].start)
  {
    seq(|candles|, i requires 0 <= i < |candles| =>
      if i == k then ticks else At(WorstTicks(leg, candles[i]), candles[i].start))
  }

  lemma {:induction false} AroundShows(leg: Leg, candles: seq<Candle>, k: nat, ticks: seq<Tick>)
    requires ValidCandles(candles) && k < |candles| && Shows(ticks, candles[k])
    ensures ShowsAll(Around(leg, candles, k, ticks), candles)
  {
    hide Shows;
    forall i | 0 <= i < |candles| && i != k
      ensures Shows(At(WorstTicks(leg, candles[i]), candles[i].start), candles[i])
    {
      assert candles[i].Valid();
      ExtremesRefine(candles[i], leg);
      AtShows(WorstTicks(leg, candles[i]), candles[i], candles[i].start);
    }
  }

  // A fill of a leg by given prices of a candle in which it may fill, at a time
  // that finds the other leg gone if one can.
  function FillTime(leg: Leg, other: Leg, c: Candle): int {
    if Outlives(leg, other, c) then MaxInt(c.start, other.expires) else c.start
  }

  lemma {:induction false} FillsBy(
      buy: Leg, sell: Leg, config: Config, candles: seq<Candle>, k: nat, leg: Leg, other: Leg, prices: seq<real>,
      t: nat)
    returns (paths: seq<seq<Tick>>)
    requires Pair(buy, sell) && ValidCandles(candles) && k < |candles| && MayFill(leg, candles[k])
    requires (leg == buy && other == sell) || (leg == sell && other == buy)
    requires Refines(prices, candles[k]) && t < |prices| && leg.Triggers(prices[t])
             && (t > 0 ==> Alone(leg, other, candles[k]))
    requires forall j :: 0 <= j < t ==> !leg.Triggers(prices[j])
    ensures paths == Around(leg, candles, k, At(prices, FillTime(leg, other, candles[k])))
    ensures ShowsAll(paths, candles) && t < |paths[k]|
    ensures Market(buy, sell, leg == buy, config, paths, k) == MarketFill(leg, config, paths, k, t)
  {
    var c := candles[k];
    var time := FillTime(leg, other, c);
    assert c.Valid();
    var ticks := At(prices, time);
    AtShows(prices, c, time);
    TicksOfCandle(other, c, ticks);
    paths := Around(leg, candles, k, ticks);
    AroundShows(leg, candles, k, ticks);
    assert leg.Triggers(ticks[t].price) && forall j :: 0 <= j < t ==> ticks[j].price == prices[j];
    hide Refines, At, Shows, ShowsAll, MarketFill, Entering;
    EntersAt(buy, sell, leg == buy, ticks, leg, t);
  }

  // A candle that lets both legs pass does not change what comes after it.
  lemma {:induction false} PassesBy(
      buy: Leg, sell: Leg, tieBuy: bool, config: Config, candles: seq<Candle>, k: nat, later: seq<seq<Tick>>)
    returns (paths: seq<seq<Tick>>)
    requires Pair(buy, sell) && ValidCandles(candles) && k < |candles| && MayPass(buy, sell, candles[k])
    requires ShowsAll(later, candles)
    ensures ShowsAll(paths, candles)
    ensures Market(buy, sell, tieBuy, config, paths, k) == Market(buy, sell, tieBuy, config, later, k + 1)
  {
    var c := candles[k];
    assert c.Valid();
    var b, s := if Triggered(buy, c) then buy.expires else c.start, if Triggered(sell, c) then sell.expires
                else c.start;
    var time := MaxInt(c.start, MaxInt(b, s));
    ExtremesRefine(c, buy);
    var prices := [Favour(buy, c), Adverse(buy, c)];
    AtShows(prices, c, time);
    var ticks := At(prices, time);
    paths := later[k := ticks];
    TicksOfCandle(buy, c, ticks);
    TicksOfCandle(sell, c, ticks);
    EnteringFirst(buy, sell, tieBuy, ticks);
    hide At, Shows, Entering, Refines;
    SameAfter(buy, sell, tieBuy, config, paths, later, k + 1);
  }

  lemma {:induction false} SameAfter(
      buy: Leg, sell: Leg, tieBuy: bool, config: Config, paths: seq<seq<Tick>>, others: seq<seq<Tick>>, i: nat)
    requires |paths| == |others| && i <= |paths| && forall j :: i <= j < |paths| ==> paths[j] == others[j]
    ensures Market(buy, sell, tieBuy, config, paths, i) == Market(buy, sell, tieBuy, config, others, i)
    decreases |paths| - i
  {
    if i < |paths| {
      EnteringFirst(buy, sell, tieBuy, paths[i]);
      var e := Entering(buy, sell, tieBuy, paths[i]);
      hide Entering;
      if e.Some? { SameScan(e.value.0, config, paths[i][e.value.1], paths, others, i + 1); }
      SameAfter(buy, sell, tieBuy, config, paths, others, i + 1);
    }
  }

  lemma {:induction false} SameScan(
      leg: Leg, config: Config, entry: Tick, paths: seq<seq<Tick>>, others: seq<seq<Tick>>, i: nat)
    requires |paths| == |others| && i <= |paths| && forall j :: i <= j < |paths| ==> paths[j] == others[j]
    ensures MarketScan(leg, config, entry, paths, i) == MarketScan(leg, config, entry, others, i)
    decreases |paths| - i
  {
    hide Cost;
    if i < |paths| { SameScan(leg, config, entry, paths, others, i + 1); }
  }

  // The extremes of a candle as a leg sees them.
  function Favour(leg: Leg, c: Candle): real { if leg.side.Buy? then c.high else c.low }

  function Adverse(leg: Leg, c: Candle): real { if leg.side.Buy? then c.low else c.high }

  // The first candle from i on that touches a level of an open leg.
  function FirstExit(leg: Leg, candles: seq<Candle>, i: nat): (j: Option<nat>)
    requires i <= |candles|
    ensures j.Some? ==> i <= j.value < |candles| && !OutcomeOf(leg, candles[j.value]).StillOpen?
    decreases |candles| - i
  {
    if i == |candles| then None
    else if !OutcomeOf(leg, candles[i]).StillOpen? then Some(i)
    else FirstExit(leg, candles, i + 1)
  }

  predicate WinsLater(leg: Leg, candles: seq<Candle>, i: nat)
    requires i <= |candles|
  {
    var j := FirstExit(leg, candles, i);
    j.Some? && OutcomeOf(leg, candles[j.value]).TargetHit?
  }

  lemma LeavingTwo(leg: Leg, x: real, y: real, time: int)
    ensures var ticks := At([x, y], time);
            |ticks| == 2 && ticks[0] == Tick(time, x) && ticks[1] == Tick(time, y)
            && Leaving(leg, ticks[1..])
               == (if leg.Stops(y) then Leaves(time, y, false)
                   else if leg.Targets(y) then Leaves(time, leg.target, true) else Stays)
            && Leaving(leg, ticks[0..])
               == (if leg.Stops(x) then Leaves(time, x, false)
                   else if leg.Targets(x) then Leaves(time, leg.target, true)
                   else Leaving(leg, ticks[1..]))
  {
    var ticks := At([x, y], time);
    assert ticks[0..] == ticks && ticks[1..][1..] == [];
  }

  function HeldVerdict(leg: Leg, candles: seq<Candle>, i: nat): Status
    requires i <= |candles|
  {
    if FirstExit(leg, candles, i).None? then Open else if WinsLater(leg, candles, i) then Win else Loss
  }

  lemma {:induction false} VerdictHeld(leg: Leg, candles: seq<Candle>, i: nat)
    requires i < |candles|
    ensures Verdict(leg, candles, i) == HeldVerdict(leg, candles, i)
    decreases |candles| - i
  {
    if i + 1 < |candles| { VerdictHeld(leg, candles, i + 1); }
  }

  lemma {:induction false} NextVerdict(leg: Leg, candles: seq<Candle>, i: nat)
    requires i < |candles|
    ensures OutcomeOf(leg, candles[i]).StillOpen? ==> Verdict(leg, candles, i) == HeldVerdict(leg, candles, i + 1)
  {
    if i + 1 < |candles| { VerdictHeld(leg, candles, i + 1); }
  }

  // Later candles at their worst for the leg.
  lemma {:induction false} WorstLater(
      leg: Leg, config: Config, entry: Tick, candles: seq<Candle>, paths: seq<seq<Tick>>, i: nat)
    requires leg.Valid() && i <= |candles| == |paths|
    requires forall j :: i <= j < |candles| ==>
               candles[j].Valid() && paths[j] == At(WorstTicks(leg, candles[j]), candles[j].start)
    ensures MarketScan(leg, config, entry, paths, i).status == HeldVerdict(leg, candles, i)
    ensures var j := FirstExit(leg, candles, i);
            MarketScan(leg, config, entry, paths, i).pnl
            == if j.None? then 0.0
               else Pnl(leg.side, entry.price,
                        if WinsLater(leg, candles, i) then leg.target else Adverse(leg, candles[j.value]))
                    - Cost(config)
    decreases |candles| - i
  {
    hide Cost, Pnl;
    if i < |candles| {
      var c := candles[i];
      LeavingTwo(leg, WorstTicks(leg, c)[0], WorstTicks(leg, c)[1], c.start);
      assert WorstTicks(leg, c) == [WorstTicks(leg, c)[0], WorstTicks(leg, c)[1]];
      assert paths[i][0..] == paths[i];
      var l := Leaving(leg, paths[i]);
      if l.Leaves? {
        PaidWorth(leg, config, entry, l.time, l.price, l.won);
      } else {
        WorstLater(leg, config, entry, candles, paths, i + 1);
      }
    }
  }

  // What the market makes of a fill by the first of two prices, or by the second.
  lemma {:induction false} TwoPrices(
      leg: Leg, config: Config, candles: seq<Candle>, k: nat, x: real, y: real, time: int, t: nat)
    requires leg.Valid() && ValidCandles(candles) && k < |candles| && t < 2
    requires leg.Triggers(if t == 0 then x else y)
    ensures var paths := Around(leg, candles, k, At([x, y], time));
            var price, j := if t == 0 then x else y, FirstExit(leg, candles, k + 1);
            t < |paths[k]|
            && var m := MarketFill(leg, config, paths, k, t);
               if leg.Targets(price) || (t == 0 && leg.Targets(y) && !leg.Stops(y)) then
                 m.status == Win && m.pnl == Pnl(leg.side, price, leg.target) - Cost(config)
               else if t == 0 && leg.Stops(y) then m.status == Loss && m.pnl == Pnl(leg.side, price, y) - Cost(config)
               else
                 m.status == HeldVerdict(leg, candles, k + 1)
                 && m.pnl == if j.None? then 0.0
                             else Pnl(leg.side, price, if WinsLater(leg, candles, k + 1) then leg.target
                                                       else Adverse(leg, candles[j.value]))
                                  - Cost(config)
  {
    var paths := Around(leg, candles, k, At([x, y], time));
    LeavingTwo(leg, x, y, time);
    assert paths[k] == At([x, y], time);
    FillPnl(leg, config, paths, k, t);
    hide Cost, Pnl, FirstExit, At;
    WorstLater(leg, config, paths[k][t], candles, paths, k + 1);
  }

  // A fill short of the target, then the stop, in a candle that holds all three.
  lemma {:induction false} ThreePrices(leg: Leg, config: Config, candles: seq<Candle>, k: nat, x: real, time: int)
    requires leg.Valid() && ValidCandles(candles) && k < |candles|
    requires OutcomeOf(leg, candles[k]) == StopHit(true) && leg.Triggers(x) && !leg.Targets(x)
    ensures var c := candles[k];
            var prices := [x, Adverse(leg, c), Favour(leg, c)];
            var paths := Around(leg, candles, k, At(prices, time));
            Refines(prices, c) && 0 < |paths[k]|
            && var m := MarketFill(leg, config, paths, k, 0);
               m.status == Loss && m.pnl == Pnl(leg.side, x, Adverse(leg, c)) - Cost(config)
  {
    var c := candles[k];
    assert c.Valid();
    var prices := [x, Adverse(leg, c), Favour(leg, c)];
    assert prices[0] in prices && prices[1] in prices && prices[2] in prices;
    var ticks := At(prices, time);
    var paths := Around(leg, candles, k, ticks);
    assert paths[k] == ticks && ticks[0..] == ticks && ticks[0].price == x && ticks[1].price == Adverse(leg, c);
    assert Leaving(leg, ticks) == Leaves(ticks[1].time, Adverse(leg, c), false) by {
      assert ticks[1..][0] == ticks[1];
    }
    FillPnl(leg, config, paths, k, 0);
    hide Cost, Leaving, At;
  }

  function Booked(buy: Leg, sell: Leg, c: Candle): Leg {
    if Dual(buy, sell, c) then DualPick(buy, sell, c) else if Triggered(buy, c) then buy else sell
  }

  // What a leg filled in a candle is worth at its levels.
  function Worth(leg: Leg, config: Config, candles: seq<Candle>, k: nat): real
    requires k < |candles|
  {
    match OutcomeOf(leg, candles[k])
    case StopHit(_) => Pnl(leg.side, leg.entry, leg.stop) - Cost(config)
    case TargetHit => Pnl(leg.side, leg.entry, leg.target) - Cost(config)
    case StillOpen =>
      if FirstExit(leg, candles, k + 1).None? then 0.0
      else Pnl(leg.side, leg.entry, if WinsLater(leg, candles, k + 1) then leg.target else leg.stop) - Cost(config)
  }

  lemma {:induction false} RuleBooks(candles: seq<Candle>, buy: Leg, sell: Leg, config: Config, i: nat, k: nat)
    requires i <= k < |candles| && FillBar(buy, sell, candles, i) == Some(k)
    ensures SimulateFrom(candles, buy, sell, config, i)
            == FillIn(Booked(buy, sell, candles[k]), Dual(buy, sell, candles[k]), config, candles, k)
    decreases k - i
  {
    if i < k { RuleBooks(candles, buy, sell, config, i + 1, k); }
  }

  // What the rule books is worth.
  lemma {:induction false} ScanWorth(leg: Leg, config: Config, filledAt: int, candles: seq<Candle>, i: nat)
    requires i <= |candles|
    ensures var r, j := Scan(leg, config, filledAt, candles, i), FirstExit(leg, candles, i);
            r.pnl == if j.None? then 0.0
                     else Pnl(leg.side, leg.entry, if WinsLater(leg, candles, i) then leg.target else leg.stop)
                          - Cost(config)
    decreases |candles| - i
  {
    hide Cost;
    if i < |candles| { ScanWorth(leg, config, filledAt, candles, i + 1); }
  }

  lemma {:induction false} FillWorth(leg: Leg, dual: bool, config: Config, candles: seq<Candle>, k: nat)
    requires k < |candles|
    ensures FillIn(leg, dual, config, candles, k).pnl == Worth(leg, config, candles, k)
  {
    ScanWorth(leg, config, candles[k].start, candles, k + 1);
    hide Cost, Scan, FirstExit;
  }

  lemma PaidWorth(leg: Leg, config: Config, entry: Tick, time: int, price: real, won: bool)
    ensures Left(leg, config, entry, time, price, won).pnl == Pnl(leg.side, entry.price, price) - Cost(config)
  {
    hide Cost;
  }

  // What the market makes of an open leg is worth, at worst.
  lemma {:induction false} MarketWorth(
      leg: Leg, config: Config, entry: Tick, candles: seq<Candle>, paths: seq<seq<Tick>>, i: nat)
    requires leg.Valid() && ShowsAll(paths, candles) && i <= |candles|
    ensures var r, j := MarketScan(leg, config, entry, paths, i), FirstExit(leg, candles, i);
            (j.None? ==> r.pnl == 0.0)
            && (j.Some? ==>
                  r.pnl == Pnl(leg.side, entry.price, leg.target) - Cost(config)
                  || (!WinsLater(leg, candles, i)
                      && r.pnl >= Pnl(leg.side, entry.price, Adverse(leg, candles[j.value])) - Cost(config)))
    decreases |candles| - i
  {
    hide Cost, Pnl;
    if i < |candles| {
      assert Shows(paths[i], candles[i]);
      BarVsTicks(leg, candles[i], Prices(paths[i]));
      LeavingIs(leg, paths[i]);
      var l := Leaving(leg, paths[i]);
      if l.Stays? {
        MarketWorth(leg, config, entry, candles, paths, i + 1);
      } else {
        PaidWorth(leg, config, entry, l.time, l.price, l.won);
        if !l.won { WorseAtExtreme(leg, candles[i], entry.price, l.price); }
      }
    }
  }

  lemma WorseAtExtreme(leg: Leg, c: Candle, fill: real, price: real)
    requires c.low <= price <= c.high
    ensures Pnl(leg.side, fill, price) >= Pnl(leg.side, fill, Adverse(leg, c))
  {
  }

  // What the exit of a bar is worth for a fill in it.
  lemma BarWorth(leg: Leg, config: Config, c: Candle, ticks: seq<Tick>, k: nat)
    requires Shows(ticks, c) && k < |ticks|
    ensures var l := Leaving(leg, ticks[k..]);
            c.low <= ticks[k].price <= c.high
            && (l.Leaves? && l.won ==> l.price == leg.target && leg.Targets(Favour(leg, c)))
            && (l.Leaves? && !l.won ==> c.low <= l.price <= c.high && leg.Stops(l.price))
  {
    var tail := ticks[k..];
    PricesTail(ticks, k);
    LeavingIs(leg, tail);
    ExitInFirst(leg, Prices(tail));
    assert Prices(ticks)[k] in Prices(ticks);
    assert forall p :: p in Prices(tail) ==> p in Prices(ticks);
  }

  lemma FillPnl(leg: Leg, config: Config, paths: seq<seq<Tick>>, i: nat, k: nat)
    requires i < |paths| && k < |paths[i]|
    ensures var l := Leaving(leg, paths[i][k..]);
            MarketFill(leg, config, paths, i, k).status
            == if l.Stays? then MarketScan(leg, config, paths[i][k], paths, i + 1).status
               else if l.won then Win else Loss
    ensures var l := Leaving(leg, paths[i][k..]);
            MarketFill(leg, config, paths, i, k).pnl
            == if l.Stays? then MarketScan(leg, config, paths[i][k], paths, i + 1).pnl
               else Pnl(leg.side, paths[i][k].price, l.price) - Cost(config)
  {
    hide Cost, Pnl;
    var l := Leaving(leg, paths[i][k..]);
    if l.Leaves? { PaidWorth(leg, config, paths[i][k], l.time, l.price, l.won); }
  }

  // A dual trigger: a leg filled by the first of the two triggers meets its
  // adverse extreme only after its fill.
  lemma AdverseFollows(buy: Leg, sell: Leg, leg: Leg, c: Candle, ticks: seq<Tick>, t: nat)
    requires Pair(buy, sell) && (leg == buy || leg == sell)
    requires Dual(buy, sell, c) && Shows(ticks, c) && t < |ticks|
    requires forall j :: 0 <= j < t ==> !buy.Triggers(ticks[j].price) && !sell.Triggers(ticks[j].price)
    ensures !OutcomeOf(leg, c).StillOpen? ==> Leaving(leg, ticks[t..]).Leaves?
  {
    var ps := Prices(ticks);
    PricesTail(ticks, t);
    LeavingIs(leg, ticks[t..]);
    ExitInFirst(leg, ps[t..]);
    StaysBehind(ps, t, c.low);
    StaysBehind(ps, t, c.high);
    hide Leaving, ExitIn, Prices;
  }

  lemma StaysBehind(ps: seq<real>, t: nat, x: real)
    requires x in ps && t <= |ps| && forall j :: 0 <= j < t ==> ps[j] != x
    ensures x in ps[t..]
  {
    var i :| 0 <= i < |ps| && ps[i] == x;
    assert ps[t..][i - t] == x;
  }

  // ------------------------------------------------------- status, exactly

  // Every leg that can fill from a candle on ends no worse than a rank, and one
  // does fill.
  predicate EndsNoWorse(buy: Leg, sell: Leg, candles: seq<Candle>, i: nat, rank: int)
    requires i <= |candles|
    decreases |candles| - i
  {
    i < |candles|
    && (MayFill(buy, candles[i]) ==> rank <= Rank(Verdict(buy, candles, i)))
    && (MayFill(sell, candles[i]) ==> rank <= Rank(Verdict(sell, candles, i)))
    && (MayPass(buy, sell, candles[i]) ==> EndsNoWorse(buy, sell, candles, i + 1, rank))
  }

  lemma {:induction false} ScanStatus(
      leg: Leg, config: Config, entry: Tick, filledAt: int, candles: seq<Candle>, paths: seq<seq<Tick>>, i: nat)
    requires i <= |candles| == |paths|
    ensures MarketScan(leg, config, entry, paths, i).status
            == TickScan(leg, config, filledAt, candles, AllPrices(paths), i).status
    ensures MarketScan(leg, config, entry, paths, i).side
            == TickScan(leg, config, filledAt, candles, AllPrices(paths), i).side
    decreases |candles| - i
  {
    if i < |candles| {
      LeavingIs(leg, paths[i]);
      ScanStatus(leg, config, entry, filledAt, candles, paths, i + 1);
    }
  }

  lemma {:induction false} FillStatus(
      leg: Leg, config: Config, candles: seq<Candle>, paths: seq<seq<Tick>>, i: nat, k: nat)
    requires i < |candles| == |paths| && k < |paths[i]|
    ensures MarketFill(leg, config, paths, i, k).status == TickFill(leg, config, candles, AllPrices(paths), i, k).status
    ensures MarketFill(leg, config, paths, i, k).side == TickFill(leg, config, candles, AllPrices(paths), i, k).side
  {
    hide Cost;
    PricesTail(paths[i], k);
    LeavingIs(leg, paths[i][k..]);
    ScanStatus(leg, config, paths[i][k], candles[i].start, candles, paths, i + 1);
  }

  lemma {:induction false} FillRanks(
      leg: Leg, config: Config, candles: seq<Candle>, paths: seq<seq<Tick>>, i: nat, k: nat)
    requires leg.Valid() && config.Valid() && ShowsAll(paths, candles) && i < |candles| && k < |paths[i]|
    requires forall j :: 0 <= j < k ==> !leg.Triggers(paths[i][j].price)
    ensures Rank(Verdict(leg, candles, i)) <= Rank(MarketFill(leg, config, paths, i, k).status) < 3
  {
    ShownRefine(paths, candles);
    FillStatus(leg, config, candles, paths, i, k);
    FillVsTicks(leg, true, config, candles, AllPrices(paths), i, k);
    FillVerdict(leg, true, config, candles, i);
    hide MarketFill, TickFill, FillIn, Verdict, Shows, ShowsAll, Refines;
  }

  lemma {:induction false} MarketRanks(
      buy: Leg, sell: Leg, tieBuy: bool, config: Config, candles: seq<Candle>, paths: seq<seq<Tick>>, i: nat, rank: int)
    requires Pair(buy, sell) && config.Valid() && ShowsAll(paths, candles) && i <= |candles|
    requires EndsNoWorse(buy, sell, candles, i, rank)
    ensures rank <= Rank(Market(buy, sell, tieBuy, config, paths, i).status) < 3
    decreases |candles| - i
  {
    assert Shows(paths[i], candles[i]);
    EnteringInCandle(buy, sell, tieBuy, candles[i], paths[i]);
    hide MayFill, MayPass, Entering, Verdict, MarketFill, Shows, ShowsAll;
    match Entering(buy, sell, tieBuy, paths[i])
    case None => MarketRanks(buy, sell, tieBuy, config, candles, paths, i + 1, rank);
    case Some(hit) => FillRanks(hit.0, config, candles, paths, i, hit.1);
  }

  lemma UnfillablePasses(buy: Leg, sell: Leg, c: Candle)
    requires c.Valid() && !MayFill(buy, c) && !MayFill(sell, c)
    ensures MayPass(buy, sell, c)
  {
  }

  // The prices of a candle that make the worst of a leg's fill.
  lemma {:induction false} WorstStatus(
      buy: Leg, sell: Leg, config: Config, candles: seq<Candle>, i: nat, leg: Leg, other: Leg)
    returns (paths: seq<seq<Tick>>)
    requires Pair(buy, sell) && config.Valid() && ValidCandles(candles) && i < |candles| && MayFill(leg, candles[i])
    requires (leg == buy && other == sell) || (leg == sell && other == buy)
    ensures ShowsAll(paths, candles)
    ensures Market(buy, sell, leg == buy, config, paths, i).status == Verdict(leg, candles, i)
  {
    var c, time := candles[i], FillTime(leg, other, candles[i]);
    assert c.Valid();
    hide Refines, MarketFill, ShowsAll, Shows, FirstExit, At, Around, Market, Cost, Alone;
    if OutcomeOf(leg, c) == StopHit(true) {
      var x := (leg.entry + leg.target) / 2.0;
      ThreePrices(leg, config, candles, i, x, time);
      paths := FillsBy(buy, sell, config, candles, i, leg, other, [x, Adverse(leg, c), Favour(leg, c)], 0);
    } else {
      ExtremesRefine(c, leg);
      TwoPrices(leg, config, candles, i, Favour(leg, c), Adverse(leg, c), time, 0);
      NextVerdict(leg, candles, i);
      paths := FillsBy(buy, sell, config, candles, i, leg, other, [Favour(leg, c), Adverse(leg, c)], 0);
    }
  }

  lemma {:induction false} SomePathRanksLower(
      buy: Leg, sell: Leg, config: Config, candles: seq<Candle>, i: nat, rank: int)
    returns (paths: seq<seq<Tick>>, tieBuy: bool)
    requires Pair(buy, sell) && config.Valid() && ValidCandles(candles) && i <= |candles|
    requires !EndsNoWorse(buy, sell, candles, i, rank)
    ensures ShowsAll(paths, candles)
    ensures var m := Market(buy, sell, tieBuy, config, paths, i); m.status.Expired? || Rank(m.status) < rank
    decreases |candles| - i
  {
    hide MayFill, MayPass, Verdict, ShowsAll, Entering;
    if i == |candles| {
      tieBuy := true;
      paths := AnyPath(buy, candles);
    } else if MayFill(buy, candles[i]) && !(rank <= Rank(Verdict(buy, candles, i))) {
      tieBuy := true;
      paths := WorstStatus(buy, sell, config, candles, i, buy, sell);
    } else if MayFill(sell, candles[i]) && !(rank <= Rank(Verdict(sell, candles, i))) {
      tieBuy := false;
      paths := WorstStatus(buy, sell, config, candles, i, sell, buy);
    } else {
      paths, tieBuy := SomePathRanksLower(buy, sell, config, candles, i + 1, rank);
      paths := PassesBy(buy, sell, tieBuy, config, candles, i, paths);
    }
  }

  lemma {:induction false} AnyPath(leg: Leg, candles: seq<Candle>) returns (paths: seq<seq<Tick>>)
    requires ValidCandles(candles)
    ensures ShowsAll(paths, candles)
  {
    paths := Around(leg, candles, |candles|, []);
    forall i | 0 <= i < |candles| ensures Shows(paths[i], candles[i]) {
      assert candles[i].Valid();
      ExtremesRefine(candles[i], leg);
      AtShows(WorstTicks(leg, candles[i]), candles[i], candles[i].start);
    }
  }

  lemma {:induction false} SomePathFills(buy: Leg, sell: Leg, config: Config, candles: seq<Candle>, i: nat)
    returns (paths: seq<seq<Tick>>, tieBuy: bool)
    requires Pair(buy, sell) && config.Valid() && ValidCandles(candles) && !NeverFills(buy, sell, candles, i)
    requires i <= |candles|
    ensures ShowsAll(paths, candles) && Rank(Market(buy, sell, tieBuy, config, paths, i).status) < 3
    decreases |candles| - i
  {
    hide MayFill, Verdict, ShowsAll, Entering;
    if MayFill(buy, candles[i]) {
      tieBuy := true;
      paths := WorstStatus(buy, sell, config, candles, i, buy, sell);
      FillVerdict(buy, true, config, candles, i);
    } else if MayFill(sell, candles[i]) {
      tieBuy := false;
      paths := WorstStatus(buy, sell, config, candles, i, sell, buy);
      FillVerdict(sell, true, config, candles, i);
    } else {
      paths, tieBuy := SomePathFills(buy, sell, config, candles, i + 1);
      assert candles[i].Valid();
      assert MayPass(buy, sell, candles[i]) by { UnfillablePasses(buy, sell, candles[i]); }
      paths := PassesBy(buy, sell, tieBuy, config, candles, i, paths);
    }
  }

  ghost predicate NeverOptimistic(candles: seq<Candle>, buy: Leg, sell: Leg, config: Config) {
    forall paths, tieBuy | ShowsAll(paths, candles) ::
      NotOptimistic(SimulateFrom(candles, buy, sell, config, 0), Market(buy, sell, tieBuy, config, paths, 0))
  }

  // What a caller can test: where the rule fills, every leg that can fill from there
  // on ends no worse, and one does; where it does not, no leg can fill in its life.
  predicate StatusOk(buy: Leg, sell: Leg, candles: seq<Candle>) {
    match FillBar(buy, sell, candles, 0)
    case None => NeverFills(buy, sell, candles, 0)
    case Some(k) => EndsNoWorse(buy, sell, candles, k, Rank(Verdict(Booked(buy, sell, candles[k]), candles, k)))
  }

  // Before the rule's fill bar nothing triggers.
  lemma {:induction false} UpToFillBar(buy: Leg, sell: Leg, candles: seq<Candle>, i: nat, rank: int)
    requires i <= |candles|
    ensures FillBar(buy, sell, candles, i).Some? ==>
              (EndsNoWorse(buy, sell, candles, i, rank)
               <==> EndsNoWorse(buy, sell, candles, FillBar(buy, sell, candles, i).value, rank))
    decreases |candles| - i
  {
    hide Verdict;
    if i < |candles| { UpToFillBar(buy, sell, candles, i + 1, rank); }
  }

  lemma {:induction false} RuleStatus(candles: seq<Candle>, buy: Leg, sell: Leg, config: Config, i: nat)
    requires i <= |candles|
    ensures var c, k := SimulateFrom(candles, buy, sell, config, i), FillBar(buy, sell, candles, i);
            if k.None? then c.status.Expired? && c.pnl == 0.0
            else c.status == Verdict(Booked(buy, sell, candles[k.value]), candles, k.value) && Rank(c.status) < 3
    decreases |candles| - i
  {
    hide FillIn, Verdict, DualPick;
    if i < |candles| {
      FillVerdict(Booked(buy, sell, candles[i]), Dual(buy, sell, candles[i]), config, candles, i);
      RuleStatus(candles, buy, sell, config, i + 1);
    }
  }

  // Main result: on no path does the market end worse than the rule says, trade
  // where the rule does not or stay out where it does, if and only if the candles
  // pass that test.
  lemma {:induction false} NeverOptimisticExactly(candles: seq<Candle>, buy: Leg, sell: Leg, config: Config)
    requires Pair(buy, sell) && config.Valid() && ValidCandles(candles)
    ensures NeverOptimistic(candles, buy, sell, config) <==> StatusOk(buy, sell, candles)
  {
    hide SimulateFrom, Market, ShowsAll, FillBar, Verdict, EndsNoWorse, NeverFills, Booked;
    var c, k := SimulateFrom(candles, buy, sell, config, 0), FillBar(buy, sell, candles, 0);
    RuleStatus(candles, buy, sell, config, 0);
    UpToFillBar(buy, sell, candles, 0, Rank(c.status));
    if StatusOk(buy, sell, candles) {
      forall paths, tieBuy | ShowsAll(paths, candles)
        ensures NotOptimistic(c, Market(buy, sell, tieBuy, config, paths, 0))
      {
        ShownLength(paths, candles);
        if k.None? {
          NothingFills(buy, sell, tieBuy, config, candles, paths, 0);
        } else {
          MarketRanks(buy, sell, tieBuy, config, candles, paths, 0, Rank(c.status));
        }
      }
    } else if k.None? {
      var paths, tieBuy := SomePathFills(buy, sell, config, candles, 0);
      ShownLength(paths, candles);
      assert !NotOptimistic(c, Market(buy, sell, tieBuy, config, paths, 0));
    } else {
      var paths, tieBuy := SomePathRanksLower(buy, sell, config, candles, 0, Rank(c.status));
      ShownLength(paths, candles);
      assert !NotOptimistic(c, Market(buy, sell, tieBuy, config, paths, 0));
    }
  }

  lemma ShownLength(paths: seq<seq<Tick>>, candles: seq<Candle>)
    requires ShowsAll(paths, candles)
    ensures |paths| == |candles|
  {
  }

  // With one expiry for both legs the test is that the fill bar ends by it and the
  // fallback passes over no worse leg.
  predicate Straddles(buy: Leg, sell: Leg, candles: seq<Candle>, i: nat)
    requires i <= |candles|
  {
    var k := FillBar(buy, sell, candles, i);
    k.Some? && candles[k.value].end > MinInt(buy.expires, sell.expires)
  }

  predicate Over(buy: Leg, sell: Leg, candles: seq<Candle>, i: nat) {
    forall j :: i <= j < |candles| ==> candles[j].start >= MaxInt(buy.expires, sell.expires)
  }

  lemma {:induction false} OverEnds(buy: Leg, sell: Leg, candles: seq<Candle>, i: nat, rank: int)
    requires ValidCandles(candles) && i <= |candles| && Over(buy, sell, candles, i)
    ensures NeverFills(buy, sell, candles, i) && !EndsNoWorse(buy, sell, candles, i, rank)
    decreases |candles| - i
  {
    hide Verdict;
    if i < |candles| {
      assert candles[i].Valid();
      OverEnds(buy, sell, candles, i + 1, rank);
    }
  }

  lemma {:induction false} NoneIsOver(buy: Leg, sell: Leg, candles: seq<Candle>, i: nat)
    requires Orderly(candles) && i <= |candles| && buy.expires == sell.expires && FillBar(buy, sell, candles, i).None?
    ensures NeverFills(buy, sell, candles, i)
    decreases |candles| - i
  {
    if i < |candles| {
      if candles[i].start >= buy.expires {
        assert forall j :: i <= j < |candles| ==> candles[j].Valid();
        OverEnds(buy, sell, candles, i, 0);
      } else {
        NoneIsOver(buy, sell, candles, i + 1);
      }
    }
  }

  lemma {:induction false} OneExpiry(buy: Leg, sell: Leg, candles: seq<Candle>)
    requires Pair(buy, sell) && Orderly(candles) && buy.expires == sell.expires
    ensures StatusOk(buy, sell, candles)
            <==> !Straddles(buy, sell, candles, 0) && !PassesOverWorse(buy, sell, candles)
  {
    var bar := FillBar(buy, sell, candles, 0);
    if bar.None? {
      NoneIsOver(buy, sell, candles, 0);
    } else {
      var k := bar.value;
      FillBarStarts(buy, sell, candles, 0);
      assert candles[k].Valid();
      var rank := Rank(Verdict(Booked(buy, sell, candles[k]), candles, k));
      if candles[k].end > buy.expires { OverEnds(buy, sell, candles, k + 1, rank); }
      FillVerdict(buy, true, Config(1.0, 0.0, 0.0, 0), candles, k);
      FillVerdict(sell, true, Config(1.0, 0.0, 0.0, 0), candles, k);
      hide FillBar, NeverFills, FillIn;
      assert OutcomeOf(Booked(buy, sell, candles[k]), candles[k]).StopHit? ==> rank == 0;
    }
  }

  lemma {:induction false} FillBarStarts(buy: Leg, sell: Leg, candles: seq<Candle>, i: nat)
    requires i <= |candles|
    ensures var k := FillBar(buy, sell, candles, i);
            k.Some? ==> candles[k.value].start < MinInt(buy.expires, sell.expires)
    decreases |candles| - i
  {
    if i < |candles| { FillBarStarts(buy, sell, candles, i + 1); }
  }

  // ------------------------------------------- where the prices alone decide

  // Every trigger of the fill bar comes in time; without a fill bar none comes at all.
  predicate KeepsTime(buy: Leg, sell: Leg, candles: seq<Candle>, i: nat)
    requires i <= |candles|
  {
    match FillBar(buy, sell, candles, i)
    case None => NeverFills(buy, sell, candles, i)
    case Some(k) =>
      (Triggered(buy, candles[k]) ==> candles[k].end <= buy.expires)
      && (Triggered(sell, candles[k]) ==> candles[k].end <= sell.expires)
  }

  // In a bar before the rule expires the market enters as the prices do.
  lemma {:induction false} EntersInTime(
      buy: Leg, sell: Leg, tieBuy: bool, candles: seq<Candle>, ticks: seq<Tick>, i: nat)
    requires Pair(buy, sell) && i < |candles| && Shows(ticks, candles[i]) && KeepsTime(buy, sell, candles, i)
    requires candles[i].start < MinInt(buy.expires, sell.expires)
    ensures var e := Entering(buy, sell, tieBuy, ticks);
            e == TriggerIn(buy, sell, tieBuy, Prices(ticks))
            && (e.None? <==> !Triggered(buy, candles[i]) && !Triggered(sell, candles[i]))
            && (e.None? ==> KeepsTime(buy, sell, candles, i + 1))
            && (e.Some? ==> e.value.1 < |ticks| && (e.value.0 == buy || e.value.0 == sell))
  {
    TicksOfCandle(buy, candles[i], ticks);
    TicksOfCandle(sell, candles[i], ticks);
    EnteringIs(buy, sell, tieBuy, ticks);
    CandleTriggers(buy, sell, tieBuy, candles[i], Prices(ticks));
    TriggerInFirst(buy, sell, tieBuy, Prices(ticks));
    hide Entering, TriggerIn, Refines;
  }

  // Where every trigger of the fill bar comes in time the market's status and side
  // are those of the prices alone.
  lemma {:induction false} MarketStatus(
      buy: Leg, sell: Leg, tieBuy: bool, config: Config, candles: seq<Candle>, paths: seq<seq<Tick>>, i: nat)
    requires Pair(buy, sell) && ShowsAll(paths, candles) && i <= |candles| && KeepsTime(buy, sell, candles, i)
    ensures var m, t := Market(buy, sell, tieBuy, config, paths, i),
                        TickSimulate(buy, sell, tieBuy, config, candles, AllPrices(paths), i);
            m.status == t.status && m.side == t.side
    decreases |candles| - i
  {
    if i < |candles| {
      assert Shows(paths[i], candles[i]);
      if candles[i].start >= MinInt(buy.expires, sell.expires) {
        NothingFills(buy, sell, tieBuy, config, candles, paths, i);
      } else {
        EntersInTime(buy, sell, tieBuy, candles, paths[i], i);
        hide MarketFill, TickFill, Entering, TriggerIn, KeepsTime;
        match Entering(buy, sell, tieBuy, paths[i])
        case None => MarketStatus(buy, sell, tieBuy, config, candles, paths, i + 1);
        case Some(hit) => FillStatus(hit.0, config, candles, paths, i, hit.1);
      }
    }
  }

  // ------------------------------------------------------- profit, exactly

  // A leg held from a fill is worth no less than a bound whatever the candles from
  // i on do.
  predicate HeldAbove(leg: Leg, fill: real, config: Config, candles: seq<Candle>, i: nat, bound: real)
    requires i <= |candles|
  {
    var j := FirstExit(leg, candles, i);
    if j.None? then bound <= 0.0
    else
      var exit := if WinsLater(leg, candles, i) then leg.target else Adverse(leg, candles[j.value]);
      bound <= Pnl(leg.side, fill, exit) - Cost(config)
  }

  // A leg filled in a candle, at its best price and left at its worst.  Alone it may
  // have met its adverse extreme before it was filled, and be held on.
  predicate FillAbove(leg: Leg, alone: bool, config: Config, candles: seq<Candle>, i: nat, bound: real)
    requires i < |candles|
  {
    var best, worst := Favour(leg, candles[i]), Adverse(leg, candles[i]);
    match OutcomeOf(leg, candles[i])
    case StopHit(targetToo) =>
      if targetToo then
        bound <= Pnl(leg.side, leg.target, worst) - Cost(config)
        && bound <= Pnl(leg.side, best, leg.target) - Cost(config)
      else
        bound <= Pnl(leg.side, best, worst) - Cost(config)
        && (alone ==> HeldAbove(leg, best, config, candles, i + 1, bound))
    case TargetHit => bound <= Pnl(leg.side, best, leg.target) - Cost(config)
    case StillOpen => HeldAbove(leg, best, config, candles, i + 1, bound)
  }

  // Every leg that can fill from a candle on is worth no less than a bound, and so
  // is no trade if there can be none.
  predicate MarketAbove(buy: Leg, sell: Leg, config: Config, candles: seq<Candle>, i: nat, bound: real)
    requires i <= |candles|
    decreases |candles| - i
  {
    if i == |candles| then bound <= 0.0
    else
      var c := candles[i];
      (MayFill(buy, c) ==> FillAbove(buy, Alone(buy, sell, c), config, candles, i, bound))
      && (MayFill(sell, c) ==> FillAbove(sell, Alone(sell, buy, c), config, candles, i, bound))
      && (MayPass(buy, sell, c) ==> MarketAbove(buy, sell, config, candles, i + 1, bound))
  }

  lemma {:induction false} HeldSuffices(
      leg: Leg, fill: real, config: Config, candles: seq<Candle>, paths: seq<seq<Tick>>, i: nat, entry: Tick,
      bound: real)
    requires leg.Valid() && config.Valid() && ShowsAll(paths, candles) && i <= |candles|
    requires HeldAbove(leg, fill, config, candles, i, bound)
    requires if leg.side.Buy? then entry.price <= fill else entry.price >= fill
    ensures bound <= MarketScan(leg, config, entry, paths, i).pnl
  {
    MarketWorth(leg, config, entry, candles, paths, i);
    hide MarketScan, Cost, ShowsAll;
  }

  // The favourable extreme is met at or after the fill.
  lemma {:induction false} FavourFollows(leg: Leg, c: Candle, ticks: seq<Tick>, t: nat)
    requires leg.Valid() && Shows(ticks, c) && t < |ticks| && leg.Triggers(ticks[t].price)
    requires forall j :: 0 <= j < t ==> !leg.Triggers(ticks[j].price)
    ensures leg.Targets(Favour(leg, c)) ==> Leaving(leg, ticks[t..]).Leaves?
    ensures var l := Leaving(leg, ticks[t..]); l.Leaves? && !l.won ==> !leg.Targets(ticks[t].price)
  {
    var ps := Prices(ticks);
    PricesTail(ticks, t);
    LeavingIs(leg, ticks[t..]);
    ExitInFirst(leg, ps[t..]);
    assert ticks[t..][0] == ticks[t];
    if leg.Targets(Favour(leg, c)) { StaysBehind(ps, t, Favour(leg, c)); }
    hide ExitIn, Prices;
  }

  // Whatever a path makes of a leg it fills is no less than the bound.
  lemma {:induction false} FillSuffices(
      leg: Leg, alone: bool, config: Config, candles: seq<Candle>, paths: seq<seq<Tick>>, i: nat, t: nat, bound: real)
    requires leg.Valid() && config.Valid() && ShowsAll(paths, candles) && i < |candles| && t < |paths[i]|
    requires leg.Triggers(paths[i][t].price) && (forall j :: 0 <= j < t ==> !leg.Triggers(paths[i][j].price))
    requires FillAbove(leg, alone, config, candles, i, bound)
    requires !alone && OutcomeOf(leg, candles[i]) == StopHit(false) ==> Leaving(leg, paths[i][t..]).Leaves?
    ensures bound <= MarketFill(leg, config, paths, i, t).pnl
  {
    var c, ticks := candles[i], paths[i];
    assert Shows(ticks, c);
    BarWorth(leg, config, c, ticks, t);
    FillPnl(leg, config, paths, i, t);
    FavourFollows(leg, c, ticks, t);
    TailOfFill(leg, c, Prices(ticks), t);
    PricesTail(ticks, t);
    LeavingIs(leg, ticks[t..]);
    hide Cost, MarketFill, MarketScan, Leaving, ExitIn, Shows, ShowsAll, Refines, HeldAbove;
    if Leaving(leg, ticks[t..]).Stays? {
      HeldSuffices(leg, Favour(leg, c), config, candles, paths, i + 1, ticks[t], bound);
    }
  }

  // Of two triggered legs neither of which can outlive the other, the one filled
  // meets both extremes after its fill.
  lemma {:induction false} TogetherLeaves(
      buy: Leg, sell: Leg, tieBuy: bool, c: Candle, ticks: seq<Tick>, leg: Leg, other: Leg, t: nat)
    requires Pair(buy, sell) && Shows(ticks, c) && Entering(buy, sell, tieBuy, ticks) == Some((leg, t))
    requires ((leg == buy && other == sell) || (leg == sell && other == buy)) && !Alone(leg, other, c)
    ensures t < |ticks| && (!OutcomeOf(leg, c).StillOpen? ==> Leaving(leg, ticks[t..]).Leaves?)
  {
    EnteringInCandle(buy, sell, tieBuy, c, ticks);
    OtherBefore(buy, sell, tieBuy, c, ticks, leg, other, t);
    hide Entering, Shows, Leaving;
    AdverseFollows(buy, sell, leg, c, ticks, t);
  }

  lemma {:induction false} ProfitHolds(
      buy: Leg, sell: Leg, tieBuy: bool, config: Config, candles: seq<Candle>, paths: seq<seq<Tick>>, i: nat,
      bound: real)
    requires Pair(buy, sell) && config.Valid() && ShowsAll(paths, candles) && i <= |candles|
    requires MarketAbove(buy, sell, config, candles, i, bound)
    ensures bound <= Market(buy, sell, tieBuy, config, paths, i).pnl
    decreases |candles| - i
  {
    if i < |candles| {
      var c, ticks := candles[i], paths[i];
      assert Shows(ticks, c);
      EnteringInCandle(buy, sell, tieBuy, c, ticks);
      hide MayFill, MayPass, Alone, Entering, FillAbove, MarketFill, Shows, ShowsAll, OutcomeOf;
      match Entering(buy, sell, tieBuy, ticks)
      case None => ProfitHolds(buy, sell, tieBuy, config, candles, paths, i + 1, bound);
      case Some(hit) =>
        var other := if hit.0 == buy then sell else buy;
        if !Alone(hit.0, other, c) { TogetherLeaves(buy, sell, tieBuy, c, ticks, hit.0, other, hit.1); }
        FillSuffices(hit.0, Alone(hit.0, other, c), config, candles, paths, i, hit.1, bound);
    }
  }

  // The prices of a candle that take a leg below a bound it can fall below.
  lemma {:induction false} WorstProfit(
      buy: Leg, sell: Leg, config: Config, candles: seq<Candle>, i: nat, leg: Leg, other: Leg, bound: real)
    returns (paths: seq<seq<Tick>>)
    requires Pair(buy, sell) && config.Valid() && ValidCandles(candles) && i < |candles| && MayFill(leg, candles[i])
    requires (leg == buy && other == sell) || (leg == sell && other == buy)
    requires !FillAbove(leg, Alone(leg, other, candles[i]), config, candles, i, bound)
    ensures ShowsAll(paths, candles)
    ensures Market(buy, sell, leg == buy, config, paths, i).pnl < bound
  {
    var c, time := candles[i], FillTime(leg, other, candles[i]);
    var best, worst := Favour(leg, c), Adverse(leg, c);
    assert c.Valid();
    ExtremesRefine(c, leg);
    var o := OutcomeOf(leg, c);
    if o == StopHit(true) && !(bound <= Pnl(leg.side, leg.target, worst) - Cost(config)) {
      var x := ShortOfTarget(leg, worst, Cost(config), bound);
      ThreePrices(leg, config, candles, i, x, time);
      hide Refines, MarketFill, ShowsAll, Shows, Cost, Alone;
      paths := FillsBy(buy, sell, config, candles, i, leg, other, [x, worst, best], 0);
    } else if o == StopHit(false) && bound <= Pnl(leg.side, best, worst) - Cost(config) {
      TwoPrices(leg, config, candles, i, worst, best, time, 1);
      hide Refines, MarketFill, ShowsAll, Shows, Cost, Alone, FirstExit;
      paths := FillsBy(buy, sell, config, candles, i, leg, other, [worst, best], 1);
    } else {
      TwoPrices(leg, config, candles, i, best, worst, time, 0);
      hide Refines, MarketFill, ShowsAll, Shows, Cost, Alone, FirstExit;
      paths := FillsBy(buy, sell, config, candles, i, leg, other, [best, worst], 0);
    }
  }

  // A fill so little short of the target that the stop at a price falls below a bound.
  lemma {:induction false} ShortOfTarget(leg: Leg, worst: real, cost: real, bound: real) returns (x: real)
    requires leg.Valid() && Pnl(leg.side, leg.target, worst) - cost < bound
    ensures leg.Triggers(x) && !leg.Targets(x) && Pnl(leg.side, x, worst) - cost < bound
  {
    var slack := (bound - (Pnl(leg.side, leg.target, worst) - cost)) / 2.0;
    x := if leg.side.Buy? then Max(leg.entry, leg.target - slack) else Min(leg.entry, leg.target + slack);
  }

  lemma {:induction false} SomePathFallsBelow(
      buy: Leg, sell: Leg, config: Config, candles: seq<Candle>, i: nat, bound: real)
    returns (paths: seq<seq<Tick>>, tieBuy: bool)
    requires Pair(buy, sell) && config.Valid() && ValidCandles(candles) && i <= |candles|
    requires !MarketAbove(buy, sell, config, candles, i, bound)
    ensures ShowsAll(paths, candles)
    ensures Market(buy, sell, tieBuy, config, paths, i).pnl < bound
    decreases |candles| - i
  {
    hide MayFill, MayPass, Alone, FillAbove, ShowsAll, Entering;
    if i == |candles| {
      tieBuy := true;
      paths := AnyPath(buy, candles);
    } else if MayFill(buy, candles[i]) && !FillAbove(buy, Alone(buy, sell, candles[i]), config, candles, i, bound) {
      tieBuy := true;
      paths := WorstProfit(buy, sell, config, candles, i, buy, sell, bound);
    } else if MayFill(sell, candles[i]) && !FillAbove(sell, Alone(sell, buy, candles[i]), config, candles, i, bound) {
      tieBuy := false;
      paths := WorstProfit(buy, sell, config, candles, i, sell, buy, bound);
    } else {
      paths, tieBuy := SomePathFallsBelow(buy, sell, config, candles, i + 1, bound);
      paths := PassesBy(buy, sell, tieBuy, config, candles, i, paths);
    }
  }

  ghost predicate MarketAtLeast(buy: Leg, sell: Leg, config: Config, candles: seq<Candle>, bound: real) {
    forall paths, tieBuy | ShowsAll(paths, candles) :: bound <= Market(buy, sell, tieBuy, config, paths, 0).pnl
  }

  // Main result: the least the market can make of the pair: every path makes at least
  // a bound if and only if the candles pass the test.
  lemma {:induction false} MarketBoundExactly(
      buy: Leg, sell: Leg, config: Config, candles: seq<Candle>, bound: real)
    requires Pair(buy, sell) && config.Valid() && ValidCandles(candles)
    ensures MarketAtLeast(buy, sell, config, candles, bound) <==> MarketAbove(buy, sell, config, candles, 0, bound)
  {
    hide Market, ShowsAll, MarketAbove;
    if MarketAbove(buy, sell, config, candles, 0, bound) {
      forall paths, tieBuy | ShowsAll(paths, candles)
        ensures bound <= Market(buy, sell, tieBuy, config, paths, 0).pnl
      {
        ShownLength(paths, candles);
        ProfitHolds(buy, sell, tieBuy, config, candles, paths, 0, bound);
      }
    } else {
      var paths, tieBuy := SomePathFallsBelow(buy, sell, config, candles, 0, bound);
      ShownLength(paths, candles);
      assert !(bound <= Market(buy, sell, tieBuy, config, paths, 0).pnl);
    }
  }

  ghost predicate ProfitBounded(candles: seq<Candle>, buy: Leg, sell: Leg, config: Config) {
    MarketAtLeast(buy, sell, config, candles, SimulateFrom(candles, buy, sell, config, 0).pnl)
  }

  // What the rule books, read from the candles.
  function BookedWorth(buy: Leg, sell: Leg, config: Config, candles: seq<Candle>): real {
    match FillBar(buy, sell, candles, 0)
    case None => 0.0
    case Some(k) => Worth(Booked(buy, sell, candles[k]), config, candles, k)
  }

  // Main result: with the market's own prices and times the booked profit is a
  // lower bound on every path if and only if the levels the rule books pass that
  // test on the candles.
  lemma {:induction false} ProfitBoundedExactly(candles: seq<Candle>, buy: Leg, sell: Leg, config: Config)
    requires Pair(buy, sell) && config.Valid() && ValidCandles(candles)
    ensures ProfitBounded(candles, buy, sell, config)
            <==> MarketAbove(buy, sell, config, candles, 0, BookedWorth(buy, sell, config, candles))
  {
    RuleStatus(candles, buy, sell, config, 0);
    var k := FillBar(buy, sell, candles, 0);
    if k.Some? {
      var leg, dual := Booked(buy, sell, candles[k.value]), Dual(buy, sell, candles[k.value]);
      RuleBooks(candles, buy, sell, config, 0, k.value);
      FillWorth(leg, dual, config, candles, k.value);
    }
    var bound := BookedWorth(buy, sell, config, candles);
    assert SimulateFrom(candles, buy, sell, config, 0).pnl == bound;
    hide BookedWorth;
    hide SimulateFrom, Market, ShowsAll, MarketAbove, FillIn, Worth, FillBar, Verdict;
    MarketBoundExactly(buy, sell, config, candles, bound);
  }

  // For a leg that triggers alone the test reads: the fill candle goes no further
  // than the entry, the stopping candles no further than the stop, and the fill bar
  // holds no target.
  predicate AloneOk(leg: Leg, candles: seq<Candle>, k: nat)
    requires k < |candles|
  {
    match OutcomeOf(leg, candles[k])
    case StopHit(_) =>
      Favour(leg, candles[k]) == leg.entry && Adverse(leg, candles[k]) == leg.stop && StopsAtLevel(leg, candles, k + 1)
    case TargetHit => false
    case StillOpen =>
      FirstExit(leg, candles, k + 1).Some?
      ==> Favour(leg, candles[k]) == leg.entry && StopsAtLevel(leg, candles, k + 1)
  }

  // The later candle that stops a leg goes no further than the stop.
  predicate StopsAtLevel(leg: Leg, candles: seq<Candle>, i: nat)
    requires i <= |candles|
  {
    var j := FirstExit(leg, candles, i);
    j.Some? && OutcomeOf(leg, candles[j.value]).StopHit? ==> Adverse(leg, candles[j.value]) == leg.stop
  }

  lemma {:induction false} AloneExactly(leg: Leg, config: Config, candles: seq<Candle>, k: nat)
    requires leg.Valid() && config.Valid() && k < |candles| && candles[k].Valid() && Triggered(leg, candles[k])
    ensures FillAbove(leg, true, config, candles, k, Worth(leg, config, candles, k)) <==> AloneOk(leg, candles, k)
  {
    CostNonNegative(config);
    hide Cost, FirstExit;
  }

  // ----------------------------------------------------- three inputs that show it

  // A candle that opens beyond the entry: the rule books the fill at 100 and the
  // win at 106, while no tick of the candle prints below 104.
  lemma GapFillFails(sell: Leg, config: Config, tieBuy: bool, time: int)
    requires sell.side.Sell? && sell.entry < 104.0 && sell.expires == 60_000 && 0 <= time < 60_000
             && Cost(config) == 0.0
    ensures var buy := Leg(Buy, 100.0, 90.0, 106.0, 60_000);
            var candles := [Candle(0, 60_000, 104.0, 106.0, 104.0, 106.0)];
            SimulateFrom(candles, buy, sell, config, 0).status == Win
            && SimulateFrom(candles, buy, sell, config, 0).pnl == 6.0
            && ShowsAll([At([104.0, 106.0], time)], candles)
            && Market(buy, sell, tieBuy, config, [At([104.0, 106.0], time)], 0).pnl == 2.0
  {
    var buy := Leg(Buy, 100.0, 90.0, 106.0, 60_000);
    var prices := [104.0, 106.0];
    var candles, paths := [Candle(0, 60_000, 104.0, 106.0, 104.0, 106.0)], [At(prices, time)];
    assert prices[0] in prices && prices[1] in prices;
    LeavingTwo(buy, 104.0, 106.0, time);
    hide Leaving, Cost;
    assert Hits(buy, paths[0][0]) && !Hits(sell, paths[0][0]);
    assert Entering(buy, sell, tieBuy, paths[0]) == Some((buy, 0));
    assert MarketFill(buy, config, paths, 0, 0).pnl == 2.0;
  }

  // A candle that runs past the expiry: the rule books a fill, while the tick that
  // would have triggered it comes at the expiry.
  lemma StraddleFails(sell: Leg, config: Config, tieBuy: bool)
    requires sell.side.Sell? && sell.entry < 99.0 && sell.expires >= 30_000
    ensures var buy := Leg(Buy, 100.0, 90.0, 106.0, 30_000);
            var candles := [Candle(0, 60_000, 99.0, 100.0, 99.0, 100.0)];
            var ticks := [Tick(0, 99.0), Tick(30_000, 100.0)];
            SimulateFrom(candles, buy, sell, config, 0).status == Open && ShowsAll([ticks], candles)
            && Market(buy, sell, tieBuy, config, [ticks], 0).status == Expired
  {
    var buy := Leg(Buy, 100.0, 90.0, 106.0, 30_000);
    var ticks := [Tick(0, 99.0), Tick(30_000, 100.0)];
    var candles := [Candle(0, 60_000, 99.0, 100.0, 99.0, 100.0)];
    assert Prices(ticks) == [99.0, 100.0] && [99.0, 100.0][0] == 99.0 && [99.0, 100.0][1] == 100.0;
    assert Shows(ticks, candles[0]);
    EnteringFirst(buy, sell, tieBuy, ticks);
    hide Entering, Cost;
    assert Market(buy, sell, tieBuy, config, [ticks], 1).status == Expired;
  }

  // A leg that outlives the other: the rule expires the pair with the buy leg, while
  // the sell leg lives on, fills at 79 and is stopped at 86.
  lemma LaterLegFails(config: Config, tieBuy: bool)
    ensures var buy, sell := Leg(Buy, 100.0, 90.0, 106.0, 60_000), Leg(Sell, 80.0, 85.0, 70.0, 180_000);
            var candles := [Candle(0, 60_000, 85.0, 95.0, 85.0, 95.0), Candle(60_000, 120_000, 79.0, 86.0, 79.0, 86.0)];
            var paths := [At([85.0, 95.0], 0), [Tick(61_000, 79.0), Tick(62_000, 86.0)]];
            SimulateFrom(candles, buy, sell, config, 0).status == Expired
            && SimulateFrom(candles, buy, sell, config, 0).pnl == 0.0
            && ShowsAll(paths, candles)
            && Market(buy, sell, tieBuy, config, paths, 0).status == Loss
            && Market(buy, sell, tieBuy, config, paths, 0).pnl == -7.0 - Cost(config)
  {
    hide Cost;
    var buy, sell := Leg(Buy, 100.0, 90.0, 106.0, 60_000), Leg(Sell, 80.0, 85.0, 70.0, 180_000);
    var candles := [Candle(0, 60_000, 85.0, 95.0, 85.0, 95.0), Candle(60_000, 120_000, 79.0, 86.0, 79.0, 86.0)];
    var first, second := At([85.0, 95.0], 0), [Tick(61_000, 79.0), Tick(62_000, 86.0)];
    var paths := [first, second];
    assert [85.0, 95.0][0] == 85.0 && [85.0, 95.0][1] == 95.0 && [79.0, 86.0][0] == 79.0 && [79.0, 86.0][1] == 86.0;
    assert Prices(second) == [79.0, 86.0];
    AtShows([85.0, 95.0], candles[0], 0);
    assert Shows(second, candles[1]);
    EnteringFirst(buy, sell, tieBuy, first);
    EntersAt(buy, sell, tieBuy, second, sell, 0);
    assert second[0..] == second && second[1..] == [Tick(62_000, 86.0)];
    assert Leaving(sell, second) == Leaving(sell, second[1..]) == Leaves(62_000, 86.0, false);
    FillPnl(sell, config, paths, 1, 0);
    hide Entering, Leaving, MarketFill, At;
    assert Market(buy, sell, tieBuy, config, paths, 1) == MarketFill(sell, config, paths, 1, 0);
    assert Market(buy, sell, tieBuy, config, paths, 0) == MarketFill(sell, config, paths, 1, 0);
    assert SimulateFrom(candles, buy, sell, config, 1).status == Expired;
  }
}
