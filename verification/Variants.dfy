// Strategy variants over recorded bars: entry styles, the stop and target race
// after a fill, and the serial loop that allows one position at a time.
module Variants {
  import opened Common
  import Sorting

  const MINUTE := 60_000

  datatype EntryStyle = StopBreakout | FadeLimit | ConfirmedStop | SweepReversal

  datatype ExitStyle = StopMarket | StopLimit

  datatype Bar = Bar(start: int, open: real, high: real, low: real, close: real)

  datatype Costs = Costs(entrySlip: real, exitOvershoot: real)

  datatype Economics = Economics(dollarsPerPoint: real, commission: real)

  datatype Geometry =
    | Fixed(tp: real, sl: real, bars: nat)
    | ByTarget(tpAtr: real, slAtr: real, bars: nat)
    | ByRatio(ratio: real, slAtr: real, bars: nat)

  datatype Spec = Spec(
    entry: EntryStyle, exit: ExitStyle, geometry: Geometry, tick: real, confirmTicks: real, sweepTicks: real,
    capTicks: real,
    escalation: nat, pierceTicks: real, expireBars: nat, windowBars: nat, breakeven: Option<real>, trendBars: nat,
    rangeBars: nat, rangeSpan: real, efficiencyBars: nat, maxEfficiency: Option<real>)

  datatype Setup = Setup(id: int, captured: int, buyStop: real, sellStop: real)

  datatype Status = Win | Loss | Expired | StillOpen | NoData | NoAtr | NoTrend | NoRange | NoRegime

  datatype Reason =
    | StopMarketExit | RecoveryFill | StopLimitExit | EscalatedClose | TargetExit | OpenAtWindowEnd
    | NoForwardBars | PriorBars | SpanTooWide | EfficiencyTooHigh | NoFill | SerialBusy | StreakPause

  datatype Exit = Exit(status: Status, price: real, index: nat, reason: Reason)

  datatype Fill = Fill(side: Side, price: real, exitPrice: real, exitTime: int, holdBars: int, pnl: real, net: real)

  datatype Outcome = Outcome(id: int, captured: int, status: Status, reason: Reason, fill: Option<Fill>)

  function Toward(side: Side, price: real, distance: real): real {
    if side.Buy? then price + distance else price - distance
  }

  function Gain(side: Side, fill: real, exit: real): real { if side.Buy? then exit - fill else fill - exit }

  // ------------------------------------------------------- stop, target and arm

  datatype StopResult = NotTriggered | Unfilled | FilledAt(price: real, reason: Reason)

  predicate StopTouched(side: Side, stop: real, bar: Bar) {
    if side.Buy? then bar.low <= stop || bar.open <= stop else bar.high >= stop || bar.open >= stop
  }

  predicate Reaches(side: Side, level: real, bar: Bar) { if side.Buy? then bar.high >= level else bar.low <= level }

  function StopExit(side: Side, stop: real, bar: Bar, costs: Costs, spec: Spec): StopResult {
    if !StopTouched(side, stop, bar) then NotTriggered
    else if spec.exit.StopMarket? then
      var base := if Gain(side, stop, bar.open) <= 0.0 then bar.open else stop;
      FilledAt(Toward(side, base, -costs.exitOvershoot), StopMarketExit)
    else
      var limit := Toward(side, stop, -(spec.capTicks * spec.tick));
      if Gain(side, limit, bar.open) < 0.0 then
        if Reaches(side, limit, bar) then FilledAt(limit, RecoveryFill) else Unfilled
      else if (if side.Buy? then bar.low <= limit else bar.high >= limit) then FilledAt(limit, StopLimitExit)
      else Unfilled
  }

  datatype Held = Held(side: Side, fill: real, tp: real, sl: real, entry: nat) {
    function Target(): real { Toward(side, fill, tp) }
    function FirstStop(): real { Toward(side, fill, -sl) }
  }

  datatype Watch = Watch(stop: real, armed: Option<nat>, breakeven: Option<real>)

  datatype Turn = Leave(exit: Exit) | Stay(watch: Watch)

  function WinOrLoss(gain: real): Status { if gain > 0.0 then Win else Loss }

  function ExitAt(h: Held, price: real, index: nat, reason: Reason): Exit {
    Exit(WinOrLoss(Gain(h.side, h.fill, price)), price, index, reason)
  }

  // One bar of the path after entry: the stop wins every ambiguity.
  function TurnAt(h: Held, w: Watch, bar: Bar, i: nat, spec: Spec, costs: Costs): Turn
    requires h.entry <= i
  {
    var result := StopExit(h.side, w.stop, bar, costs, spec);
    match result
    case FilledAt(price, reason) => Leave(ExitAt(h, price, i, reason))
    case Unfilled =>
      var armed := if w.armed.Some? then w.armed.value else i - h.entry;
      if spec.escalation > 0 && i - h.entry >= armed + spec.escalation
      then Leave(ExitAt(h, bar.close, i, EscalatedClose))
      else Stay(w.(armed := Some(armed)))
    case NotTriggered =>
      if w.armed.Some? then Stay(w)
      else
        var moves := w.breakeven.Some? && i > h.entry && Reaches(h.side, w.breakeven.value, bar);
        if Reaches(h.side, h.Target(), bar) then Leave(ExitAt(h, h.Target(), i, TargetExit))
        else Stay(if moves then w.(stop := h.fill, breakeven := None) else w)
  }

  function AtWindowEnd(h: Held, w: Watch, bars: seq<Bar>): Exit
    requires bars != []
  {
    Exit(StillOpen, bars[|bars| - 1].close, |bars| - 1, if w.armed.Some? then EscalatedClose else OpenAtWindowEnd)
  }

  function ResolveFrom(h: Held, w: Watch, bars: seq<Bar>, i: nat, spec: Spec, costs: Costs): Exit
    requires bars != [] && h.entry <= i <= |bars|
    decreases |bars| - i
  {
    if i == |bars| then AtWindowEnd(h, w, bars)
    else
      var turn := TurnAt(h, w, bars[i], i, spec, costs);
      if turn.Leave? then turn.exit else ResolveFrom(h, turn.watch, bars, i + 1, spec, costs)
  }

  function Entered(h: Held, spec: Spec): Watch {
    Watch(h.FirstStop(), None, BreakevenLevel(h, spec))
  }

  // How far beyond the fill the move to break even is made.
  function BreakevenDistance(h: Held, spec: Spec): real
    requires spec.breakeven.Some?
  {
    spec.breakeven.value * h.tp
  }

  function BreakevenLevel(h: Held, spec: Spec): Option<real> {
    if spec.breakeven.Some? then Some(Toward(h.side, h.fill, BreakevenDistance(h, spec))) else None
  }

  method ResolveExit(h: Held, bars: seq<Bar>, spec: Spec, costs: Costs) returns (r: Exit)
    requires h.entry < |bars|
    ensures r == ResolveFrom(h, Entered(h, spec), bars, h.entry, spec, costs)
  {
    var stop, target := h.FirstStop(), h.Target();
    var armed: Option<nat>, breakeven := None, BreakevenLevel(h, spec);
    assert Watch(stop, armed, breakeven) == Entered(h, spec);
    hide StopExit, Reaches, Gain;
    var i := h.entry;
    while i < |bars|
      invariant h.entry <= i <= |bars|
      invariant ResolveFrom(h, Entered(h, spec), bars, h.entry, spec, costs)
             == ResolveFrom(h, Watch(stop, armed, breakeven), bars, i, spec, costs)
    {
      var bar, at := bars[i], i;
      i := i + 1;
      var result := StopExit(h.side, stop, bar, costs, spec);
      if result.FilledAt? { return ExitAt(h, result.price, at, result.reason); }
      if result.Unfilled? {
        if armed.None? { armed := Some(at - h.entry); }
        if spec.escalation > 0 && at - h.entry >= armed.value + spec.escalation {
          return ExitAt(h, bar.close, at, EscalatedClose);
        }
        continue;
      }
      if armed.Some? { continue; }
      if breakeven.Some? && at > h.entry && Reaches(h.side, breakeven.value, bar) {
        stop, breakeven := h.fill, None;
      }
      if Reaches(h.side, target, bar) { return ExitAt(h, target, at, TargetExit); }
    }
    r := AtWindowEnd(h, Watch(stop, armed, breakeven), bars);
  }

  // -------------------------------------------------------------- the exit race

  predicate Tighter(side: Side, stop: real, than: real) { Gain(side, than, stop) >= 0.0 }

  predicate WatchOk(h: Held, w: Watch) {
    (w.breakeven.Some? ==> w.stop == h.FirstStop()) && (w.stop == h.FirstStop() || w.stop == h.fill)
  }

  // One bar keeps the stop or moves it to the fill; once armed nothing moves.
  lemma StopMoves(h: Held, w: Watch, bar: Bar, i: nat, spec: Spec, costs: Costs)
    requires WatchOk(h, w) && h.entry <= i && TurnAt(h, w, bar, i, spec, costs).Stay?
    ensures var w' := TurnAt(h, w, bar, i, spec, costs).watch;
            WatchOk(h, w') && (w'.stop == w.stop || w'.stop == h.fill) && (w.armed.Some? ==> w' == w)
  {
    hide StopExit, Reaches;
  }

  // The stops that are active at the bars a position is held through.
  function Stops(h: Held, w: Watch, bars: seq<Bar>, i: nat, spec: Spec, costs: Costs): seq<real>
    requires h.entry <= i <= |bars|
    decreases |bars| - i
  {
    if i == |bars| then []
    else
      var turn := TurnAt(h, w, bars[i], i, spec, costs);
      [w.stop] + if turn.Leave? then [] else Stops(h, turn.watch, bars, i + 1, spec, costs)
  }

  // Every stop is the one it started from until it is the fill, and stays that.
  predicate Settling(stops: seq<real>, stop: real, fill: real) {
    (forall k :: 0 <= k < |stops| ==> stops[k] == stop || stops[k] == fill)
    && forall k, l :: 0 <= k <= l < |stops| && stops[k] == fill ==> stops[l] == fill
  }

  lemma SettlingOn(stop: real, next: real, rest: seq<real>, fill: real)
    requires (next == stop || next == fill) && Settling(rest, next, fill)
    ensures Settling([stop] + rest, stop, fill)
  {
    var stops := [stop] + rest;
    forall k, l | 0 <= k <= l < |stops| && stops[k] == fill ensures stops[l] == fill {
      if 0 < k { assert rest[k - 1] == fill && rest[l - 1] == fill; }
    }
  }

  lemma {:induction false} StopsFrom(h: Held, w: Watch, bars: seq<Bar>, i: nat, spec: Spec, costs: Costs)
    requires h.entry <= i <= |bars| && WatchOk(h, w)
    ensures Settling(Stops(h, w, bars, i, spec, costs), w.stop, h.fill)
    decreases |bars| - i
  {
    hide TurnAt, Settling, WatchOk;
    if i == |bars| {
      EmptySettles(w.stop, h.fill);
    } else if TurnAt(h, w, bars[i], i, spec, costs).Leave? {
      EmptySettles(w.stop, h.fill);
      SettlingOn(w.stop, w.stop, [], h.fill);
    } else {
      var w' := TurnAt(h, w, bars[i], i, spec, costs).watch;
      StopMoves(h, w, bars[i], i, spec, costs);
      StopsFrom(h, w', bars, i + 1, spec, costs);
      SettlingOn(w.stop, w'.stop, Stops(h, w', bars, i + 1, spec, costs), h.fill);
    }
  }

  lemma EmptySettles(stop: real, fill: real)
    ensures Settling([], stop, fill)
  {
  }

  predicate OnlyTightens(side: Side, stops: seq<real>) {
    forall k, l :: 0 <= k <= l < |stops| ==> Tighter(side, stops[l], stops[k])
  }

  // Over the life of one position the active stop only tightens, if and only if it
  // is not first placed beyond the fill or never moves.
  lemma Ratchet(h: Held, bars: seq<Bar>, spec: Spec, costs: Costs)
    requires h.entry <= |bars|
    ensures var stops := Stops(h, Entered(h, spec), bars, h.entry, spec, costs);
            OnlyTightens(h.side, stops)
            <==> h.sl >= 0.0 || forall k :: 0 <= k < |stops| ==> stops[k] == h.FirstStop()
  {
    var stops := Stops(h, Entered(h, spec), bars, h.entry, spec, costs);
    StopsFrom(h, Entered(h, spec), bars, h.entry, spec, costs);
    FirstOfStops(h, bars, spec, costs);
    hide Stops, Entered;
    SettlingTightens(h, stops);
  }

  lemma FirstOfStops(h: Held, bars: seq<Bar>, spec: Spec, costs: Costs)
    requires h.entry <= |bars|
    ensures var stops := Stops(h, Entered(h, spec), bars, h.entry, spec, costs);
            Entered(h, spec).stop == h.FirstStop() && (stops != [] ==> stops[0] == h.FirstStop())
  {
    hide TurnAt;
  }

  lemma SettlingTightens(h: Held, stops: seq<real>)
    requires Settling(stops, h.FirstStop(), h.fill) && (stops != [] ==> stops[0] == h.FirstStop())
    ensures OnlyTightens(h.side, stops)
            <==> h.sl >= 0.0 || forall k :: 0 <= k < |stops| ==> stops[k] == h.FirstStop()
  {
    if !(h.sl >= 0.0) {
      forall l | 0 <= l < |stops| && stops[l] != h.FirstStop() ensures !Tighter(h.side, stops[l], stops[0]) {}
    }
  }

  predicate BarsOk(bars: seq<Bar>) {
    forall i :: 0 <= i < |bars| ==>
      bars[i].low <= bars[i].open <= bars[i].high && bars[i].low <= bars[i].close <= bars[i].high
  }

  // The stop starts beyond the fill, and there is room between it and the target
  // for the move to break even.
  predicate CanLoosen(h: Held, spec: Spec) {
    h.sl < 0.0 && -h.sl < h.tp && spec.breakeven.Some? && BreakevenDistance(h, spec) < h.tp
  }

  // A stop that starts beyond the fill moves only with that room.
  lemma {:induction false} StopKeeps(h: Held, w: Watch, bar: Bar, i: nat, spec: Spec, costs: Costs)
    requires h.sl < 0.0 && !CanLoosen(h, spec) && h.entry <= i && BarsOk([bar])
    requires w.stop == h.FirstStop() && (w.breakeven.None? || w.breakeven == BreakevenLevel(h, spec))
    requires TurnAt(h, w, bar, i, spec, costs).Stay?
    ensures var w' := TurnAt(h, w, bar, i, spec, costs).watch; w'.stop == w.stop && w'.breakeven == w.breakeven
  {
    if !StopTouched(h.side, w.stop, bar) && !Reaches(h.side, h.Target(), bar) && w.breakeven.Some? {
      NoRoom(h, bar, spec);
    }
    hide Gain, Toward, Reaches, StopTouched, CanLoosen, BarsOk;
  }

  lemma {:induction false} NoRoom(h: Held, bar: Bar, spec: Spec)
    requires h.sl < 0.0 && !CanLoosen(h, spec) && BarsOk([bar]) && spec.breakeven.Some?
    requires !StopTouched(h.side, h.FirstStop(), bar) && !Reaches(h.side, h.Target(), bar)
    ensures !Reaches(h.side, BreakevenLevel(h, spec).value, bar)
  {
    hide BreakevenDistance;
    assert [bar][0] == bar;
    var level := BreakevenDistance(h, spec);
    assert BreakevenLevel(h, spec).value == Toward(h.side, h.fill, level);
    assert -h.sl >= h.tp || level >= h.tp;
    hide CanLoosen, BreakevenLevel;
    LevelsApart(h, bar, level);
  }

  lemma LevelsApart(h: Held, bar: Bar, level: real)
    requires h.sl < 0.0 && bar.low <= bar.high && (-h.sl >= h.tp || level >= h.tp)
    requires !StopTouched(h.side, h.FirstStop(), bar) && !Reaches(h.side, h.Target(), bar)
    ensures !Reaches(h.side, Toward(h.side, h.fill, level), bar)
  {
  }

  lemma {:induction false} StopsKeep(h: Held, w: Watch, bars: seq<Bar>, i: nat, spec: Spec, costs: Costs)
    requires h.sl < 0.0 && !CanLoosen(h, spec) && h.entry <= i <= |bars| && BarsOk(bars)
    requires w.stop == h.FirstStop() && (w.breakeven.None? || w.breakeven == BreakevenLevel(h, spec))
    ensures forall k :: 0 <= k < |Stops(h, w, bars, i, spec, costs)| ==>
              Stops(h, w, bars, i, spec, costs)[k] == h.FirstStop()
    decreases |bars| - i
  {
    hide TurnAt, CanLoosen, BreakevenLevel;
    if i < |bars| && TurnAt(h, w, bars[i], i, spec, costs).Stay? {
      StopKeeps(h, w, bars[i], i, spec, costs);
      StopsKeep(h, TurnAt(h, w, bars[i], i, spec, costs).watch, bars, i + 1, spec, costs);
    }
  }

  // With that room a price held between moves the stop back to the fill.
  lemma {:induction false} RoomLoosens(h: Held, spec: Spec, costs: Costs) returns (bars: seq<Bar>)
    requires CanLoosen(h, spec)
    ensures h.entry <= |bars| && BarsOk(bars)
    ensures !OnlyTightens(h.side, Stops(h, Entered(h, spec), bars, h.entry, spec, costs))
  {
    var level := BreakevenDistance(h, spec);
    var price := Toward(h.side, h.fill, (Max(level, -h.sl) + h.tp) / 2.0);
    var bar := Bar(0, price, price, price, price);
    bars := seq(h.entry + 3, i => bar);
    HeldBetween(h, spec, costs, bar);
    hide TurnAt, CanLoosen, Max, Toward, Entered;
    StopsBetween(h, bars, spec, costs, bar);
  }

  lemma {:induction false} HeldBetween(h: Held, spec: Spec, costs: Costs, bar: Bar)
    requires CanLoosen(h, spec)
    requires var level := BreakevenDistance(h, spec);
             var price := Toward(h.side, h.fill, (Max(level, -h.sl) + h.tp) / 2.0);
             bar == Bar(0, price, price, price, price)
    ensures var w := Entered(h, spec);
            TurnAt(h, w, bar, h.entry, spec, costs) == Stay(w)
            && TurnAt(h, w, bar, h.entry + 1, spec, costs) == Stay(w.(stop := h.fill, breakeven := None))
  {
    var w := Entered(h, spec);
    var level := BreakevenDistance(h, spec);
    assert level < h.tp && -h.sl < h.tp && w.breakeven == Some(Toward(h.side, h.fill, level));
    assert w.stop == h.FirstStop() && w.armed.None?;
    hide CanLoosen, Entered;
    Between(h, bar, level);
    hide StopTouched, Reaches, Toward, Gain, Max;
  }

  lemma Between(h: Held, bar: Bar, level: real)
    requires level < h.tp && -h.sl < h.tp
    requires var price := Toward(h.side, h.fill, (Max(level, -h.sl) + h.tp) / 2.0);
             bar == Bar(0, price, price, price, price)
    ensures !StopTouched(h.side, h.FirstStop(), bar) && !Reaches(h.side, h.Target(), bar)
    ensures Reaches(h.side, Toward(h.side, h.fill, level), bar)
  {
  }

  lemma {:induction false} StopsBetween(h: Held, bars: seq<Bar>, spec: Spec, costs: Costs, bar: Bar)
    requires h.sl < 0.0 && |bars| == h.entry + 3 && forall i :: 0 <= i < |bars| ==> bars[i] == bar
    requires var w := Entered(h, spec);
             TurnAt(h, w, bar, h.entry, spec, costs) == Stay(w)
             && TurnAt(h, w, bar, h.entry + 1, spec, costs) == Stay(w.(stop := h.fill, breakeven := None))
    ensures !OnlyTightens(h.side, Stops(h, Entered(h, spec), bars, h.entry, spec, costs))
  {
    var w, i := Entered(h, spec), h.entry;
    var moved := w.(stop := h.fill, breakeven := None);
    assert w.stop == h.FirstStop();
    hide TurnAt, Entered;
    var last := Stops(h, moved, bars, i + 2, spec, costs);
    assert last != [] && last[0] == h.fill;
    assert Stops(h, w, bars, i + 1, spec, costs) == [w.stop] + last;
    var stops := Stops(h, w, bars, i, spec, costs);
    assert stops == [w.stop] + ([w.stop] + last);
    hide Stops;
    assert stops[2] == h.fill && stops[0] == h.FirstStop();
    assert !Tighter(h.side, stops[2], stops[0]);
  }

  // Main result: over all bars a position can live through its stop only tightens, if
  // and only if it does not start beyond the fill with room to be moved back.
  lemma {:induction false} RatchetExactly(h: Held, spec: Spec, costs: Costs)
    ensures (forall bars | h.entry <= |bars| && BarsOk(bars) ::
               OnlyTightens(h.side, Stops(h, Entered(h, spec), bars, h.entry, spec, costs)))
            <==> !CanLoosen(h, spec)
  {
    if CanLoosen(h, spec) {
      var bars := RoomLoosens(h, spec, costs);
    } else {
      forall bars | h.entry <= |bars| && BarsOk(bars)
        ensures OnlyTightens(h.side, Stops(h, Entered(h, spec), bars, h.entry, spec, costs))
      {
        Ratchet(h, bars, spec, costs);
        if h.sl < 0.0 { StopsKeep(h, Entered(h, spec), bars, h.entry, spec, costs); }
        hide Stops, OnlyTightens, CanLoosen;
      }
    }
  }

  predicate ByStop(reason: Reason) { reason.StopMarketExit? || reason.RecoveryFill? || reason.StopLimitExit? }

  lemma ByStopTurn(h: Held, w: Watch, bar: Bar, i: nat, spec: Spec, costs: Costs)
    requires h.entry <= i
    ensures var turn := TurnAt(h, w, bar, i, spec, costs);
            turn.Leave? && ByStop(turn.exit.reason)
            ==> turn.exit.index == i
                && StopExit(h.side, w.stop, bar, costs, spec) == FilledAt(turn.exit.price, turn.exit.reason)
  {
    hide StopTouched, Reaches, Gain, Toward;
  }

  // A position that leaves by its stop leaves by the last of its stops.
  lemma {:induction false} LeavesByLastStop(h: Held, w: Watch, bars: seq<Bar>, i: nat, spec: Spec, costs: Costs)
    requires bars != [] && h.entry <= i <= |bars|
    ensures var r, stops := ResolveFrom(h, w, bars, i, spec, costs), Stops(h, w, bars, i, spec, costs);
            ByStop(r.reason) ==>
              i <= r.index < |bars| && |stops| == r.index - i + 1
              && StopExit(h.side, stops[r.index - i], bars[r.index], costs, spec) == FilledAt(r.price, r.reason)
    decreases |bars| - i
  {
    if i < |bars| {
      ByStopTurn(h, w, bars[i], i, spec, costs);
      hide TurnAt, StopExit, ByStop;
      if TurnAt(h, w, bars[i], i, spec, costs).Stay? {
        LeavesByLastStop(h, TurnAt(h, w, bars[i], i, spec, costs).watch, bars, i + 1, spec, costs);
      }
    }
  }

  // A stop placed beyond the fill does loosen when it is moved to break even.
  lemma StopCanLoosen(spec: Spec, costs: Costs) returns (h: Held, bars: seq<Bar>)
    requires spec.breakeven == Some(0.5)
    ensures h.entry < |bars| && h.sl < 0.0
    ensures var stops := Stops(h, Entered(h, spec), bars, h.entry, spec, costs);
            |stops| == 3 && !Tighter(h.side, stops[2], stops[0])
  {
    h := Held(Buy, 100.0, 10.0, -5.0, 0);
    var bar := Bar(0, 107.0, 108.0, 106.0, 107.0);
    bars := [bar, bar, bar];
    var w, moved := Entered(h, spec), Watch(100.0, None, None);
    assert TurnAt(h, w, bar, 0, spec, costs) == Stay(w);
    assert TurnAt(h, w, bar, 1, spec, costs) == Stay(moved);
    assert TurnAt(h, moved, bar, 2, spec, costs) == Stay(moved);
    hide TurnAt;
    assert Stops(h, moved, bars, 2, spec, costs) == [100.0];
    assert Stops(h, w, bars, 1, spec, costs) == [105.0, 100.0];
    assert Stops(h, w, bars, 0, spec, costs) == [105.0, 105.0, 100.0];
  }

  // No target exit follows an armed stop.
  lemma {:induction false} NoTargetOnceArmed(h: Held, w: Watch, bars: seq<Bar>, i: nat, spec: Spec, costs: Costs)
    requires bars != [] && h.entry <= i <= |bars| && w.armed.Some?
    ensures ResolveFrom(h, w, bars, i, spec, costs).reason != TargetExit
    decreases |bars| - i
  {
    hide Reaches, StopTouched, Gain, Toward;
    if i < |bars| && TurnAt(h, w, bars[i], i, spec, costs).Stay? {
      NoTargetOnceArmed(h, TurnAt(h, w, bars[i], i, spec, costs).watch, bars, i + 1, spec, costs);
    }
  }

  // The bar that decides the race between a fixed stop and the target.
  predicate StopFirst(h: Held, stop: real, bars: seq<Bar>, i: nat, j: nat)
    requires i <= j < |bars|
  {
    StopTouched(h.side, stop, bars[j])
    && forall l :: i <= l < j ==> !StopTouched(h.side, stop, bars[l]) && !Reaches(h.side, h.Target(), bars[l])
  }

  predicate TargetFirst(h: Held, stop: real, bars: seq<Bar>, i: nat, j: nat)
    requires i <= j < |bars|
  {
    Reaches(h.side, h.Target(), bars[j]) && !StopTouched(h.side, stop, bars[j])
    && forall l :: i <= l < j ==> !StopTouched(h.side, stop, bars[l]) && !Reaches(h.side, h.Target(), bars[l])
  }

  lemma MarketTurn(h: Held, w: Watch, bar: Bar, i: nat, spec: Spec, costs: Costs)
    requires h.entry <= i && spec.exit.StopMarket? && w.armed.None? && w.breakeven.None?
    ensures var turn := TurnAt(h, w, bar, i, spec, costs);
            if StopTouched(h.side, w.stop, bar)
            then turn.Leave? && turn.exit.reason == StopMarketExit && turn.exit.index == i
            else if Reaches(h.side, h.Target(), bar) then turn == Leave(ExitAt(h, h.Target(), i, TargetExit))
            else turn == Stay(w)
  {
  }

  // With market stops and no breakeven the race is decided by the first bar that
  // touches either level, the stop winning a bar that touches both.
  lemma {:induction false} MarketRace(h: Held, w: Watch, bars: seq<Bar>, i: nat, spec: Spec, costs: Costs)
    requires bars != [] && h.entry <= i <= |bars| && spec.exit.StopMarket? && w.armed.None? && w.breakeven.None?
    ensures var r := ResolveFrom(h, w, bars, i, spec, costs);
            (r.reason == StopMarketExit ==> i <= r.index < |bars| && StopFirst(h, w.stop, bars, i, r.index))
            && (r.reason == TargetExit
                ==> i <= r.index < |bars| && TargetFirst(h, w.stop, bars, i, r.index) && r.price == h.Target())
            && (r.reason != StopMarketExit && r.reason != TargetExit ==>
                  r == AtWindowEnd(h, w, bars)
                  && forall l :: i <= l < |bars| ==>
                       !StopTouched(h.side, w.stop, bars[l]) && !Reaches(h.side, h.Target(), bars[l]))
    decreases |bars| - i
  {
    if i < |bars| {
      MarketTurn(h, w, bars[i], i, spec, costs);
      hide TurnAt, StopTouched, Reaches;
      if TurnAt(h, w, bars[i], i, spec, costs).Stay? { MarketRace(h, w, bars, i + 1, spec, costs); }
    }
  }

  // Main result: a target exit happens exactly when some bar touches the target
  // with no stop touched at or before it.
  lemma TargetExactly(h: Held, bars: seq<Bar>, spec: Spec, costs: Costs)
    requires h.entry < |bars| && spec.exit.StopMarket? && spec.breakeven.None?
    ensures ResolveFrom(h, Entered(h, spec), bars, h.entry, spec, costs).reason == TargetExit
            <==> exists j :: h.entry <= j < |bars| && Reaches(h.side, h.Target(), bars[j])
                             && forall l :: h.entry <= l <= j ==> !StopTouched(h.side, h.FirstStop(), bars[l])
  {
    MarketRace(h, Entered(h, spec), bars, h.entry, spec, costs);
    hide StopTouched, Reaches, ResolveFrom;
    var r := ResolveFrom(h, Entered(h, spec), bars, h.entry, spec, costs);
    if r.reason == TargetExit {
      assert Reaches(h.side, h.Target(), bars[r.index]);
      assert forall l :: h.entry <= l <= r.index ==> !StopTouched(h.side, h.FirstStop(), bars[l]);
    }
  }

  // No stop exit is better than the level that was set: a market stop pays the
  // overshoot on top, a limit stop fills at its limit, a cap's distance away.
  lemma StopIsNoBetter(side: Side, stop: real, bar: Bar, costs: Costs, spec: Spec)
    requires StopExit(side, stop, bar, costs, spec).FilledAt?
    ensures var price := StopExit(side, stop, bar, costs, spec).price;
            if spec.exit.StopMarket? then Gain(side, stop, price) <= -costs.exitOvershoot
            else Gain(side, stop, price) == -(spec.capTicks * spec.tick)
  {
  }

  // ------------------------------------------------------------- the escalation

  // Whether a bar ends an armed position: its stop fills, or it is the bar the
  // escalation waits for and it touches the stop again.
  predicate Ends(h: Held, stop: real, bar: Bar, j: nat, deadline: nat, spec: Spec, costs: Costs) {
    var result := StopExit(h.side, stop, bar, costs, spec);
    result.FilledAt? || (result.Unfilled? && j == deadline)
  }

  // Closed within the escalation window of arming: exactly when such a bar comes.
  lemma {:induction false} EscalationExactly(h: Held, w: Watch, bars: seq<Bar>, i: nat, spec: Spec, costs: Costs)
    requires w.armed.Some? && spec.escalation > 0
    requires h.entry + w.armed.value < i <= h.entry + w.armed.value + spec.escalation + 1 <= |bars|
    ensures var deadline := h.entry + w.armed.value + spec.escalation;
            var r := ResolveFrom(h, w, bars, i, spec, costs);
            (r.status != StillOpen && r.index <= deadline)
            <==> exists j :: i <= j <= deadline && Ends(h, w.stop, bars[j], j, deadline, spec, costs)
    decreases |bars| - i
  {
    var deadline := h.entry + w.armed.value + spec.escalation;
    if i > deadline {
      NeverEarlier(h, w, bars, i, spec, costs);
    } else {
      var turn := TurnAt(h, w, bars[i], i, spec, costs);
      assert turn.Leave? <==> Ends(h, w.stop, bars[i], i, deadline, spec, costs);
      assert turn.Stay? ==> turn.watch == w;
      hide StopExit, TurnAt;
      if turn.Stay? {
        EscalationExactly(h, w, bars, i + 1, spec, costs);
      }
    }
  }

  lemma {:induction false} NeverEarlier(h: Held, w: Watch, bars: seq<Bar>, i: nat, spec: Spec, costs: Costs)
    requires bars != [] && h.entry <= i <= |bars|
    ensures var r := ResolveFrom(h, w, bars, i, spec, costs);
            r.index < |bars| && (i < |bars| ==> i <= r.index) && (r.status == StillOpen ==> r.index == |bars| - 1)
            && (r.status == Win || r.status == Loss || r.status == StillOpen)
    decreases |bars| - i
  {
    hide StopExit, Reaches, Gain;
    if i < |bars| && TurnAt(h, w, bars[i], i, spec, costs).Stay? {
      NeverEarlier(h, TurnAt(h, w, bars[i], i, spec, costs).watch, bars, i + 1, spec, costs);
    }
  }

  // An armed position whose price comes back is not closed within the window:
  // the escalation is looked at only on bars that touch the stop again.
  lemma ArmedCanStayOpen(spec: Spec, costs: Costs) returns (h: Held, bars: seq<Bar>)
    requires spec.exit.StopLimit? && spec.capTicks == 30.0 && spec.tick == 0.01 && spec.escalation == 3
             && spec.breakeven == None
    ensures h.entry < |bars| && var r := ResolveFrom(h, Entered(h, spec), bars, h.entry, spec, costs);
            r.status == StillOpen && r.index > h.entry + spec.escalation
            && StopTouched(h.side, h.FirstStop(), bars[h.entry])
  {
    h := Held(Buy, 100.0, 50.0, 1.0, 0);
    var back := Bar(0, 100.0, 101.0, 99.5, 100.0);
    bars := [Bar(0, 100.0, 100.0, 98.9, 99.0), back, back, back, back];
    var armed := Watch(99.0, Some(0), None);
    assert TurnAt(h, Entered(h, spec), bars[0], 0, spec, costs) == Stay(armed);
    assert forall i :: 1 <= i < 5 ==> TurnAt(h, armed, bars[i], i, spec, costs) == Stay(armed);
    hide TurnAt;
    assert ResolveFrom(h, armed, bars, 4, spec, costs) == ResolveFrom(h, armed, bars, 5, spec, costs);
    assert ResolveFrom(h, armed, bars, 2, spec, costs) == ResolveFrom(h, armed, bars, 4, spec, costs);
    assert ResolveFrom(h, armed, bars, 1, spec, costs) == ResolveFrom(h, armed, bars, 2, spec, costs);
  }

  // A decided exit depends on no later bar.
  lemma {:induction false} LaterBarsChangeNothing(
      h: Held, w: Watch, bars: seq<Bar>, others: seq<Bar>, i: nat, spec: Spec, costs: Costs)
    requires bars != [] && h.entry <= i <= |bars| && ResolveFrom(h, w, bars, i, spec, costs).status != StillOpen
    requires ResolveFrom(h, w, bars, i, spec, costs).index < |others|
    requires forall k :: 0 <= k <= ResolveFrom(h, w, bars, i, spec, costs).index && k < |bars| ==> others[k] == bars[k]
    ensures i <= |others| && ResolveFrom(h, w, others, i, spec, costs) == ResolveFrom(h, w, bars, i, spec, costs)
    decreases |bars| - i
  {
    NeverEarlier(h, w, bars, i, spec, costs);
    var turn := TurnAt(h, w, bars[i], i, spec, costs);
    hide TurnAt;
    if turn.Stay? { LaterBarsChangeNothing(h, turn.watch, bars, others, i + 1, spec, costs); }
  }

  // ------------------------------------------------------------- before the fill

  function Prior(bars: seq<Bar>, index0: nat, count: nat): seq<Bar>
    requires index0 <= |bars|
  {
    bars[MaxInt(0, index0 - count)..index0]
  }

  function Ranges(bars: seq<Bar>): real {
    if bars == [] then 0.0 else Ranges(bars[..|bars| - 1]) + (bars[|bars| - 1].high - bars[|bars| - 1].low)
  }

  function Atr(prior: seq<Bar>, required: nat): Option<real> {
    if |prior| < required || required == 0 then None
    else Some(Ranges(prior[|prior| - required..]) / (required as real))
  }

  function Highs(bars: seq<Bar>): seq<real> { seq(|bars|, i requires 0 <= i < |bars| => bars[i].high) }

  function Lows(bars: seq<Bar>): seq<real> { seq(|bars|, i requires 0 <= i < |bars| => bars[i].low) }

  function Path(bars: seq<Bar>): real {
    if |bars| < 2 then 0.0
    else
      var move := bars[|bars| - 1].close - bars[|bars| - 2].close;
      Path(bars[..|bars| - 1]) + Max(move, -move)
  }

  function Efficiency(bars: seq<Bar>): real
    requires bars != []
  {
    var net := bars[|bars| - 1].close - bars[0].close;
    if Path(bars) == 0.0 then 1.0 else Max(net, -net) / Path(bars)
  }

  datatype Ready = Ready(tp: real, sl: real, buys: bool, sells: bool) | Skip(status: Status, reason: Reason)

  function Distances(g: Geometry, atr: real): (real, real) {
    match g
    case Fixed(tp, sl, _) => (tp, sl)
    case ByTarget(tpAtr, slAtr, _) => (tpAtr * atr, slAtr * atr)
    case ByRatio(ratio, slAtr, _) => (ratio * (slAtr * atr), slAtr * atr)
  }

  function Prepared(bars: seq<Bar>, index0: nat, spec: Spec): Ready
    requires index0 <= |bars|
  {
    var atr := Atr(Prior(bars, index0, spec.geometry.bars), spec.geometry.bars);
    var spanBars := Prior(bars, index0, spec.rangeBars);
    var spanAtr := Atr(spanBars, spec.rangeBars);
    if index0 == |bars| || spec.windowBars == 0 then Skip(NoData, NoForwardBars)
    else if !spec.geometry.Fixed? && (atr.None? || atr.value <= 0.0) then Skip(NoAtr, PriorBars)
    else if spec.rangeBars > 0 && (spanAtr.None? || spanAtr.value <= 0.0) then Skip(NoRange, PriorBars)
    else if spec.rangeBars > 0 && Highest(Highs(spanBars)) - Lowest(Lows(spanBars)) > spec.rangeSpan * spanAtr.value
    then Skip(NoRange, SpanTooWide)
    else if spec.maxEfficiency.Some? && index0 < spec.efficiencyBars + 1 then Skip(NoRegime, PriorBars)
    else if spec.maxEfficiency.Some?
            && Efficiency(bars[index0 - spec.efficiencyBars - 1..index0]) > spec.maxEfficiency.value
    then Skip(NoRegime, EfficiencyTooHigh)
    else if spec.trendBars > 0 && index0 < 1 + spec.trendBars then Skip(NoTrend, PriorBars)
    else
      var distances := Distances(spec.geometry, if spec.geometry.Fixed? then 0.0 else atr.value);
      var rising := spec.trendBars > 0 && bars[index0 - 1].close >= bars[index0 - 1 - spec.trendBars].close;
      Ready(distances.0, distances.1, spec.trendBars == 0 || rising, spec.trendBars == 0 || !rising)
  }

  datatype Leg = Leg(side: Side, level: real)

  datatype Entry = Entry(leg: Leg, index: nat)

  predicate Waits(spec: Spec) { spec.entry.ConfirmedStop? || spec.entry.SweepReversal? }

  // Fading styles buy at the lower level and sell at the upper one.
  function Buying(setup: Setup, spec: Spec): Leg {
    Leg(Buy, if spec.entry.FadeLimit? || spec.entry.SweepReversal? then setup.sellStop else setup.buyStop)
  }

  function Selling(setup: Setup, spec: Spec): Leg {
    Leg(Sell, if spec.entry.FadeLimit? || spec.entry.SweepReversal? then setup.buyStop else setup.sellStop)
  }

  // A completed bar that confirms a breakout, or sweeps a level and closes back.
  predicate Signals(leg: Leg, bar: Bar, spec: Spec) {
    if spec.entry.ConfirmedStop? then Gain(leg.side, leg.level, bar.close) >= spec.confirmTicks * spec.tick
    else
      (if leg.side.Buy? then bar.low <= leg.level - spec.sweepTicks * spec.tick
       else bar.high >= leg.level + spec.sweepTicks * spec.tick)
      && Gain(leg.side, leg.level, bar.close) > 0.0
  }

  predicate Triggers(leg: Leg, bar: Bar, spec: Spec) {
    if spec.entry.FadeLimit? then
      if leg.side.Buy? then bar.low <= leg.level - spec.pierceTicks * spec.tick
      else bar.high >= leg.level + spec.pierceTicks * spec.tick
    else Reaches(leg.side, leg.level, bar)
  }

  function FillPrice(leg: Leg, bar: Bar, spec: Spec, costs: Costs): real {
    if spec.entry.FadeLimit? then leg.level
    else if Waits(spec) then Toward(leg.side, bar.open, costs.entrySlip)
    else Toward(leg.side, leg.level, costs.entrySlip)
  }

  predicate Loses(leg: Leg, bar: Bar, sl: real, spec: Spec, costs: Costs) {
    var stop := Toward(leg.side, FillPrice(leg, bar, spec, costs), -sl);
    if leg.side.Buy? then bar.low <= stop else bar.high >= stop
  }

  // Both legs on one bar: the one whose stop the bar also touches.
  function LoserFirst(buy: Leg, sell: Leg, bar: Bar, sl: real, spec: Spec, costs: Costs): Leg {
    if Loses(buy, bar, sl, spec, costs) then buy else if Loses(sell, bar, sl, spec, costs) then sell else buy
  }

  function EntryFrom(
    window: seq<Bar>, k: nat, horizon: nat, armed: Option<Leg>, buy: Leg, sell: Leg, ready: Ready, spec: Spec,
    costs: Costs)
    : (e: Option<Entry>)
    requires k <= horizon <= |window| && ready.Ready?
    ensures e.Some? ==> k <= e.value.index < horizon
    decreases horizon - k
  {
    if k == horizon then None
    else
      var bar := window[k];
      if Waits(spec) then
        if armed.Some? then Some(Entry(armed.value, k))
        else
          var buys, sells := ready.buys && Signals(buy, bar, spec), ready.sells && Signals(sell, bar, spec);
          EntryFrom(window, k + 1, horizon, if buys == sells then None else Some(if buys then buy else sell),
                    buy, sell, ready, spec, costs)
      else
        var buys, sells := ready.buys && Triggers(buy, bar, spec), ready.sells && Triggers(sell, bar, spec);
        if buys && sells then Some(Entry(LoserFirst(buy, sell, bar, ready.sl, spec, costs), k))
        else if buys then Some(Entry(buy, k))
        else if sells then Some(Entry(sell, k))
        else EntryFrom(window, k + 1, horizon, None, buy, sell, ready, spec, costs)
  }

  predicate Hits(leg: Leg, allowed: bool, bar: Bar, spec: Spec) { allowed && Triggers(leg, bar, spec) }

  predicate Confirms(leg: Leg, allowed: bool, bar: Bar, spec: Spec) { allowed && Signals(leg, bar, spec) }

  // An immediate style enters on the first bar that triggers an allowed leg; on
  // a bar that triggers both, on a leg whose stop the bar touches if there is one.
  lemma {:induction false} ImmediateEntry(
    window: seq<Bar>, k: nat, horizon: nat, buy: Leg, sell: Leg, ready: Ready, spec: Spec, costs: Costs)
    requires k <= horizon <= |window| && ready.Ready? && !Waits(spec) && buy.side.Buy? && sell.side.Sell?
    ensures var e := EntryFrom(window, k, horizon, None, buy, sell, ready, spec, costs);
            var last := if e.Some? then e.value.index else horizon;
            (forall j :: k <= j < last ==>
               !Hits(buy, ready.buys, window[j], spec) && !Hits(sell, ready.sells, window[j], spec))
            && (e.Some? ==>
                  var bar, leg := window[last], e.value.leg;
                  ((leg == buy && Hits(buy, ready.buys, bar, spec))
                   || (leg == sell && Hits(sell, ready.sells, bar, spec)))
                  && (Hits(buy, ready.buys, bar, spec) && Hits(sell, ready.sells, bar, spec) ==>
                        Loses(leg, bar, ready.sl, spec, costs)
                        || (!Loses(buy, bar, ready.sl, spec, costs) && !Loses(sell, bar, ready.sl, spec, costs))))
    decreases horizon - k
  {
    hide Triggers, Loses;
    if k < horizon && !Hits(buy, ready.buys, window[k], spec) && !Hits(sell, ready.sells, window[k], spec) {
      ImmediateEntry(window, k + 1, horizon, buy, sell, ready, spec, costs);
    }
  }

  // A waiting style enters at the bar after the first one that signals exactly
  // one allowed leg, and on that leg: it never acts inside the bar that signals.
  lemma {:induction false} WaitingEntry(
    window: seq<Bar>, k: nat, horizon: nat, buy: Leg, sell: Leg, ready: Ready, spec: Spec, costs: Costs)
    requires k <= horizon <= |window| && ready.Ready? && Waits(spec) && buy.side.Buy? && sell.side.Sell?
    ensures var e := EntryFrom(window, k, horizon, None, buy, sell, ready, spec, costs);
            var last := if e.Some? then e.value.index - 1 else horizon - 1;
            (forall j :: k <= j < last ==>
               (Confirms(buy, ready.buys, window[j], spec) <==> Confirms(sell, ready.sells, window[j], spec)))
            && (e.Some? ==>
                  k <= last
                  && (e.value.leg == buy <==> Confirms(buy, ready.buys, window[last], spec))
                  && (e.value.leg == sell <==> Confirms(sell, ready.sells, window[last], spec))
                  && (e.value.leg == buy || e.value.leg == sell))
    decreases horizon - k
  {
    hide Signals;
    if k < horizon {
      if Confirms(buy, ready.buys, window[k], spec) == Confirms(sell, ready.sells, window[k], spec) {
        WaitingEntry(window, k + 1, horizon, buy, sell, ready, spec, costs);
      } else {
        var leg := if Confirms(buy, ready.buys, window[k], spec) then buy else sell;
        assert EntryFrom(window, k, horizon, None, buy, sell, ready, spec, costs)
            == EntryFrom(window, k + 1, horizon, Some(leg), buy, sell, ready, spec, costs);
      }
    }
  }

  function Window(bars: seq<Bar>, index0: nat, spec: Spec): seq<Bar>
    requires index0 <= |bars|
  {
    bars[index0..MinInt(index0 + spec.windowBars, |bars|)]
  }

  function HeldOf(e: Entry, window: seq<Bar>, ready: Ready, spec: Spec, costs: Costs): Held
    requires ready.Ready? && e.index < |window|
  {
    Held(e.leg.side, FillPrice(e.leg, window[e.index], spec, costs), ready.tp, ready.sl, e.index)
  }

  function FillOf(h: Held, exit: Exit, window: seq<Bar>, economics: Economics): Fill
    requires h.entry <= exit.index < |window|
  {
    var pnl := Gain(h.side, h.fill, exit.price);
    Fill(h.side, h.fill, exit.price, window[exit.index].start, exit.index - h.entry, pnl,
         pnl * economics.dollarsPerPoint - economics.commission)
  }

  function Simulated(
      setup: Setup, bars: seq<Bar>, index0: nat, spec: Spec, costs: Costs, economics: Economics): (o: Outcome)
    requires index0 <= |bars|
    ensures o.id == setup.id && o.captured == setup.captured
  {
    var ready := Prepared(bars, index0, spec);
    if ready.Skip? then Outcome(setup.id, setup.captured, ready.status, ready.reason, None)
    else
      var window := Window(bars, index0, spec);
      var horizon := MinInt(spec.expireBars, |window|);
      var e := EntryFrom(window, 0, horizon, None, Buying(setup, spec), Selling(setup, spec), ready, spec, costs);
      if e.None? then Outcome(setup.id, setup.captured, Expired, NoFill, None)
      else
        var h := HeldOf(e.value, window, ready, spec, costs);
        NeverEarlier(h, Entered(h, spec), window, h.entry, spec, costs);
        var exit := ResolveFrom(h, Entered(h, spec), window, h.entry, spec, costs);
        Outcome(setup.id, setup.captured, exit.status, exit.reason, Some(FillOf(h, exit, window, economics)))
  }

  method SimulateSetup(setup: Setup, bars: seq<Bar>, index0: nat, spec: Spec, costs: Costs, economics: Economics)
    returns (o: Outcome)
    requires index0 <= |bars|
    ensures o == Simulated(setup, bars, index0, spec, costs, economics)
  {
    hide Prepared, Signals, Triggers, LoserFirst, FillPrice, ResolveFrom;
    var ready := Prepared(bars, index0, spec);
    if ready.Skip? { return Outcome(setup.id, setup.captured, ready.status, ready.reason, None); }
    var window := Window(bars, index0, spec);
    var horizon := MinInt(spec.expireBars, |window|);
    var buy, sell := Buying(setup, spec), Selling(setup, spec);
    var armed: Option<Leg>, entry: Option<Entry> := None, None;
    var k := 0;
    while k < horizon && entry.None?
      invariant k <= horizon && (entry.Some? ==> entry.value.index < horizon)
      invariant EntryFrom(window, 0, horizon, None, buy, sell, ready, spec, costs)
             == if entry.Some? then entry else EntryFrom(window, k, horizon, armed, buy, sell, ready, spec, costs)
      invariant Waits(spec) || armed.None?
      decreases horizon - k, entry.None?
    {
      var bar := window[k];
      if Waits(spec) {
        if armed.Some? {
          entry := Some(Entry(armed.value, k));
        } else {
          var buys, sells := ready.buys && Signals(buy, bar, spec), ready.sells && Signals(sell, bar, spec);
          if buys && !sells { armed := Some(buy); }
          if sells && !buys { armed := Some(sell); }
          k := k + 1;
        }
      } else {
        var buys, sells := ready.buys && Triggers(buy, bar, spec), ready.sells && Triggers(sell, bar, spec);
        if buys && sells {
          entry := Some(Entry(LoserFirst(buy, sell, bar, ready.sl, spec, costs), k));
        } else if buys {
          entry := Some(Entry(buy, k));
        } else if sells {
          entry := Some(Entry(sell, k));
        } else {
          k := k + 1;
        }
      }
    }
    if entry.None? { return Outcome(setup.id, setup.captured, Expired, NoFill, None); }
    var h := HeldOf(entry.value, window, ready, spec, costs);
    var exit := ResolveExit(h, window, spec, costs);
    NeverEarlier(h, Entered(h, spec), window, h.entry, spec, costs);
    o := Outcome(setup.id, setup.captured, exit.status, exit.reason, Some(FillOf(h, exit, window, economics)));
  }

  // --------------------------------------------------------------- the serial loop

  function Captured(s: Setup): int { s.captured }

  function Start(b: Bar): int { b.start }

  datatype Mode = Mode(serial: bool, streak: nat, pauseBars: nat)

  datatype Loop = Loop(busy: Option<int>, pause: Option<int>, losses: nat)

  datatype World = World(bars: seq<Bar>, spec: Spec, costs: Costs, economics: Economics, mode: Mode)

  predicate Busy(setup: Setup, l: Loop, w: World) { w.mode.serial && l.busy.Some? && setup.captured < l.busy.value }

  predicate Paused(setup: Setup, l: Loop, w: World) {
    var index0 := Sorting.BisectLeft(w.bars, Start, setup.captured);
    l.pause.Some? && (index0 >= |w.bars| || w.bars[index0].start < l.pause.value)
  }

  function OneOutcome(setup: Setup, l: Loop, w: World): Outcome {
    if Busy(setup, l, w) then Outcome(setup.id, setup.captured, Expired, SerialBusy, None)
    else if Paused(setup, l, w) then Outcome(setup.id, setup.captured, Expired, StreakPause, None)
    else Simulated(setup, w.bars, Sorting.BisectLeft(w.bars, Start, setup.captured), w.spec, w.costs, w.economics)
  }

  function AfterOne(l: Loop, o: Outcome, w: World): Loop {
    if o.fill.None? then l
    else
      var l' := if w.mode.serial then l.(busy := Some(o.fill.value.exitTime + MINUTE)) else l;
      if w.mode.streak == 0 then l'
      else if o.status != Loss then l'.(losses := 0)
      else if l.losses + 1 >= w.mode.streak
      then l'.(pause := Some(o.fill.value.exitTime + w.mode.pauseBars * MINUTE), losses := 0)
      else l'.(losses := l.losses + 1)
  }

  function OutcomesFrom(setups: seq<Setup>, k: nat, l: Loop, w: World): seq<Outcome>
    requires k <= |setups|
    decreases |setups| - k
  {
    if k == |setups| then []
    else
      var o := OneOutcome(setups[k], l, w);
      [o] + OutcomesFrom(setups, k + 1, AfterOne(l, o, w), w)
  }

  method RunVariant(setups: seq<Setup>, w: World) returns (outcomes: seq<Outcome>)
    ensures outcomes == OutcomesFrom(Sorting.Sort(setups, Captured), 0, Loop(None, None, 0), w)
  {
    hide Simulated, Sorting.BisectLeft, Sorting.BisectRight, OutcomesFrom, Sorting.Sort;
    var ordered := Sorting.Sort(setups, Captured);
    outcomes := [];
    var busy: Option<int>, pause: Option<int>, losses: nat := None, None, 0;
    for k := 0 to |ordered|
      invariant OutcomesFrom(ordered, 0, Loop(None, None, 0), w)
             == outcomes + OutcomesFrom(ordered, k, Loop(busy, pause, losses), w)
    {
      var setup := ordered[k];
      var index0 := Sorting.BisectLeft(w.bars, Start, setup.captured);
      ghost var l := Loop(busy, pause, losses);
      var o: Outcome;
      if w.mode.serial && busy.Some? && setup.captured < busy.value {
        o := Outcome(setup.id, setup.captured, Expired, SerialBusy, None);
      } else if pause.Some? && (index0 >= |w.bars| || w.bars[index0].start < pause.value) {
        o := Outcome(setup.id, setup.captured, Expired, StreakPause, None);
      } else {
        o := SimulateSetup(setup, w.bars, index0, w.spec, w.costs, w.economics);
        if o.fill.Some? {
          if w.mode.serial { busy := Some(o.fill.value.exitTime + MINUTE); }
          if w.mode.streak > 0 {
            if o.status == Loss {
              losses := losses + 1;
              if losses >= w.mode.streak {
                pause, losses := Some(o.fill.value.exitTime + w.mode.pauseBars * MINUTE), 0;
              }
            } else {
              losses := 0;
            }
          }
        }
      }
      assert o == OneOutcome(setup, l, w) && Loop(busy, pause, losses) == AfterOne(l, o, w);
      NextOutcome(ordered, k, l, w);
      outcomes := outcomes + [o];
    }
    NoMoreOutcomes(ordered, Loop(busy, pause, losses), w);
  }

  lemma NextOutcome(setups: seq<Setup>, k: nat, l: Loop, w: World)
    requires k < |setups|
    ensures var o := OneOutcome(setups[k], l, w);
            OutcomesFrom(setups, k, l, w) == [o] + OutcomesFrom(setups, k + 1, AfterOne(l, o, w), w)
  {
    hide OneOutcome, AfterOne;
  }

  lemma NoMoreOutcomes(setups: seq<Setup>, l: Loop, w: World)
    ensures OutcomesFrom(setups, |setups|, l, w) == []
  {
  }

  // A fill exits at the start of some bar of its window.
  lemma ExitsOnABar(h: Held, exit: Exit, bars: seq<Bar>, index0: nat, spec: Spec, economics: Economics)
    requires Sorting.SortedBy(bars, Start) && index0 <= |bars| && h.entry <= exit.index < |Window(bars, index0, spec)|
    ensures bars[index0].start <= FillOf(h, exit, Window(bars, index0, spec), economics).exitTime
  {
    assert Window(bars, index0, spec)[exit.index] == bars[index0 + exit.index];
    assert Start(bars[index0]) <= Start(bars[index0 + exit.index]);
  }

  lemma FillExits(setup: Setup, bars: seq<Bar>, index0: nat, spec: Spec, costs: Costs, economics: Economics)
    requires Sorting.SortedBy(bars, Start) && index0 <= |bars|
    ensures var o := Simulated(setup, bars, index0, spec, costs, economics);
            o.fill.Some? ==> index0 < |bars| && bars[index0].start <= o.fill.value.exitTime
  {
    hide Prepared, EntryFrom, ResolveFrom, FillOf, HeldOf, Window, Buying, Selling, Sorting.SortedBy;
    var ready := Prepared(bars, index0, spec);
    if ready.Ready? {
      var window := Window(bars, index0, spec);
      var horizon := MinInt(spec.expireBars, |window|);
      var e := EntryFrom(window, 0, horizon, None, Buying(setup, spec), Selling(setup, spec), ready, spec, costs);
      if e.Some? {
        var h := HeldOf(e.value, window, ready, spec, costs);
        assert h.entry == e.value.index by { HeldEntry(e.value, window, ready, spec, costs); }
        NeverEarlier(h, Entered(h, spec), window, h.entry, spec, costs);
        ExitsOnABar(h, ResolveFrom(h, Entered(h, spec), window, h.entry, spec, costs), bars, index0, spec, economics);
        WindowNonEmpty(bars, index0, spec);
      }
    }
  }

  lemma HeldEntry(e: Entry, window: seq<Bar>, ready: Ready, spec: Spec, costs: Costs)
    requires ready.Ready? && e.index < |window|
    ensures HeldOf(e, window, ready, spec, costs).entry == e.index
  {
  }

  lemma WindowNonEmpty(bars: seq<Bar>, index0: nat, spec: Spec)
    requires index0 <= |bars|
    ensures Window(bars, index0, spec) != [] ==> index0 < |bars|
  {
  }

  // What one turn of the loop says about its setup.
  lemma FilledTurn(setup: Setup, l: Loop, w: World)
    requires Sorting.SortedBy(w.bars, Start) && OneOutcome(setup, l, w).fill.Some?
    ensures var index0 := Sorting.BisectLeft(w.bars, Start, setup.captured);
            index0 < |w.bars| && setup.captured <= w.bars[index0].start <= OneOutcome(setup, l, w).fill.value.exitTime
            && !Busy(setup, l, w) && (l.pause.Some? ==> l.pause.value <= w.bars[index0].start)
  {
    Sorting.BisectMeans(w.bars, Start, setup.captured - 1);
    FillExits(setup, w.bars, Sorting.BisectLeft(w.bars, Start, setup.captured), w.spec, w.costs, w.economics);
    hide Simulated, Sorting.BisectLeft, Sorting.BisectRight, Sorting.SortedBy;
  }

  // What it hands on.
  lemma LoopAfter(l: Loop, o: Outcome, w: World)
    ensures var l' := AfterOne(l, o, w);
            if o.fill.None? then l' == l
            else (w.mode.serial ==> l'.busy == Some(o.fill.value.exitTime + MINUTE))
                 && (!w.mode.serial ==> l'.busy == l.busy)
                 && (l'.pause == l.pause || (l'.pause.Some? && o.fill.value.exitTime <= l'.pause.value))
  {
  }

  // Main result: each setup yields exactly one outcome, in capture order; in
  // serial mode the filled intervals from capture to exit are pairwise disjoint;
  // and no fill begins inside a loss-streak pause.
  lemma {:induction false} SerialLoop(setups: seq<Setup>, k: nat, l: Loop, w: World)
    requires k <= |setups| && Sorting.SortedBy(w.bars, Start) && Sorting.SortedBy(setups, Captured)
    ensures LoopClaims(OutcomesFrom(setups, k, l, w), setups, k, l, w)
    decreases |setups| - k
  {
    if k < |setups| {
      var setup := setups[k];
      var o := OneOutcome(setup, l, w);
      var l' := AfterOne(l, o, w);
      SerialLoop(setups, k + 1, l', w);
      LoopAfter(l, o, w);
      if o.fill.Some? { FilledTurn(setup, l, w); }
      OutcomeIs(setup, l, w);
      assert OutcomesFrom(setups, k, l, w) == [o] + OutcomesFrom(setups, k + 1, l', w);
      hide OneOutcome, AfterOne, Sorting.BisectLeft, Sorting.BisectRight, OutcomesFrom, Sorting.SortedBy;
      PrependOutcome(o, OutcomesFrom(setups, k + 1, l', w), setups, k, l, l', w);
    }
  }

  // The loop as it is entered, on setups in any order.
  lemma RunSound(setups: seq<Setup>, w: World)
    requires Sorting.SortedBy(w.bars, Start)
    ensures var ordered := Sorting.Sort(setups, Captured);
            var os := OutcomesFrom(ordered, 0, Loop(None, None, 0), w);
            multiset(ordered) == multiset(setups) && Sorting.SortedBy(ordered, Captured) && |os| == |ordered|
            && (forall i :: 0 <= i < |os| ==> os[i].id == ordered[i].id && os[i].captured == ordered[i].captured)
            && (w.mode.serial ==>
                  forall i, j :: 0 <= i < j < |os| && os[i].fill.Some? && os[j].fill.Some? ==>
                    os[i].captured <= os[i].fill.value.exitTime < os[j].captured)
  {
    Sorting.SortMeans(setups, Captured);
    SerialLoop(Sorting.Sort(setups, Captured), 0, Loop(None, None, 0), w);
    hide OutcomesFrom, Sorting.SortedBy;
  }

  lemma OutcomeIs(setup: Setup, l: Loop, w: World)
    ensures OneOutcome(setup, l, w).id == setup.id && OneOutcome(setup, l, w).captured == setup.captured
  {
    hide Simulated;
  }

  // The loop's claims, about outcomes that follow a given loop state.
  ghost predicate LoopClaims(os: seq<Outcome>, setups: seq<Setup>, k: nat, l: Loop, w: World)
    requires k <= |setups|
  {
    |os| == |setups| - k
    && (forall i :: 0 <= i < |os| ==> os[i].id == setups[k + i].id && os[i].captured == setups[k + i].captured)
    && (forall i :: 0 <= i < |os| && os[i].fill.Some? ==> os[i].captured <= os[i].fill.value.exitTime)
    && (w.mode.serial ==>
          forall i, j :: 0 <= i < j < |os| && os[i].fill.Some? && os[j].fill.Some? ==>
            os[i].fill.value.exitTime + MINUTE <= os[j].captured)
    && (w.mode.serial && l.busy.Some? ==> forall i :: 0 <= i < |os| && os[i].fill.Some? ==>
                                            l.busy.value <= os[i].captured)
    && (l.pause.Some? ==>
          forall i :: 0 <= i < |os| && os[i].fill.Some? ==>
            Sorting.BisectLeft(w.bars, Start, os[i].captured) < |w.bars|
            && l.pause.value <= w.bars[Sorting.BisectLeft(w.bars, Start, os[i].captured)].start)
  }

  lemma PrependOutcome(o: Outcome, rest: seq<Outcome>, setups: seq<Setup>, k: nat, l: Loop, l': Loop, w: World)
    requires k < |setups| && LoopClaims(rest, setups, k + 1, l', w)
    requires o.id == setups[k].id && o.captured == setups[k].captured
    requires o.fill.None? ==> l' == l
    requires o.fill.Some? ==>
               Sorting.BisectLeft(w.bars, Start, o.captured) < |w.bars|
               && o.captured <= w.bars[Sorting.BisectLeft(w.bars, Start, o.captured)].start <= o.fill.value.exitTime
               && (l.pause.Some? ==> l.pause.value <= w.bars[Sorting.BisectLeft(w.bars, Start, o.captured)].start)
               && (w.mode.serial
                   ==> l'.busy == Some(o.fill.value.exitTime + MINUTE) && (l.busy.Some? ==> l.busy.value <= o.captured))
               && (l'.pause == l.pause || (l'.pause.Some? && o.fill.value.exitTime <= l'.pause.value))
    ensures LoopClaims([o] + rest, setups, k, l, w)
  {
    hide Sorting.BisectLeft, Sorting.BisectRight;
    var os := [o] + rest;
    forall i | 0 <= i < |os|
      ensures os[i].id == setups[k + i].id && os[i].captured == setups[k + i].captured
    {
      if i > 0 { assert os[i] == rest[i - 1]; }
    }
    if w.mode.serial {
      forall i, j | 0 <= i < j < |os| && os[i].fill.Some? && os[j].fill.Some?
        ensures os[i].fill.value.exitTime + MINUTE <= os[j].captured
      {
        assert os[j] == rest[j - 1];
        if i > 0 { assert os[i] == rest[i - 1]; }
      }
    }
  }
}
