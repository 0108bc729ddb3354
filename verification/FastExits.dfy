// Fast exits of an actual fill, replayed over the same tape as the anchored
// pair, and how the three modes relate to each other and to that replay.
module FastExits {
  import opened Common
  import opened Sorting
  import opened StreamingBars
  import opened TapeMerge
  import opened PairedReplay

  datatype Mode = Baseline | Quick | Giveback

  // The loop's variables.
  datatype Watch = Watch(previous: int, peak: real, due: Option<int>)

  datatype WatchStep = Ended(outcome: Outcome) | Watching(watch: Watch)

  predicate FastOk(a: Assumptions, fee: real) {
    fee >= 0.0 && a.latency >= 0 && a.stopSlippage >= 0.0 && a.maxGap > 0 && a.spreadMultiplier >= 1.0
  }

  predicate Triggers(mode: Mode, anchor: Leg, a: Assumptions, fee: real, peak: real, move: real) {
    var costs := fee + a.stopSlippage;
    match mode
    case Giveback =>
      peak >= costs + 0.25 * anchor.stop && move <= Max(costs + 0.05 * anchor.stop, peak - 0.10 * anchor.stop)
    case _ => move >= costs + 0.10 * anchor.stop
  }

  function WatchTick(
    anchor: Leg, fill: real, start: int, tape: Tape, a: Assumptions, mode: Mode, fee: real, peerCancelled: int,
    tick: Tick, w: Watch): WatchStep
  {
    var at := tick.quote.time;
    if Broken(tape, w.previous, at, a.maxGap) then Ended(Outcome(CensoredGap, at, Some(anchor.side), Some(start), None))
    else
      var w1 := w.(previous := at);
      if tick.source < start then Watching(w1)
      else
        var move := Move(anchor, fill, tick.quote, a);
        if move <= -(anchor.stop as real) then
          Ended(Outcome(StopLoss, at, Some(anchor.side), Some(start), Some((move - a.stopSlippage) / anchor.stop)))
        else if move >= anchor.target then
          Ended(Outcome(TakeProfit, at, Some(anchor.side), Some(start), Some(anchor.target / anchor.stop)))
        else if w.due.Some? && at >= w.due.value then
          Ended(Outcome(FastExit, at, Some(anchor.side), Some(start), Some((move - a.stopSlippage) / anchor.stop)))
        else if mode.Baseline? || at < peerCancelled then Watching(w1)
        else
          var peak := Max(w.peak, move);
          Watching(w1.(peak := peak,
                       due := if Triggers(mode, anchor, a, fee, peak, move) && w.due.None?
                              then Some(at + a.latency) else w.due))
  }

  function WatchEnd(anchor: Leg, start: int, tape: Tape, end: int, a: Assumptions, w: Watch): Outcome {
    if Broken(tape, w.previous, end, a.maxGap) then Outcome(CensoredGap, end, Some(anchor.side), Some(start), None)
    else Outcome(if w.due.Some? then ExitPendingAtCutoff else OpenAtCutoff, end, Some(anchor.side), Some(start), None)
  }

  function WatchFrom(
    anchor: Leg, fill: real, start: int, tape: Tape, end: int, a: Assumptions, mode: Mode, fee: real,
    peerCancelled: int,
    k: nat, w: Watch): Decision
    requires k <= |tape.ticks|
    decreases |tape.ticks| - k
  {
    if k == |tape.ticks| || tape.ticks[k].quote.time >= end
    then Decision(WatchEnd(anchor, start, tape, end, a, w), k, true)
    else match WatchTick(anchor, fill, start, tape, a, mode, fee, peerCancelled, tape.ticks[k], w)
      case Ended(o) => Decision(o, k + 1, false)
      case Watching(w') => WatchFrom(anchor, fill, start, tape, end, a, mode, fee, peerCancelled, k + 1, w')
  }

  function ReplayExit(
    anchor: Leg, tape: Tape, end: int, a: Assumptions, mode: Mode, fee: real, peerCancelled: int): Decision
  {
    if !FastOk(a, fee) then Decision(Bare(AssumptionsInvalid, 0), 0, false)
    else if anchor.fillTime.None? || anchor.fillPrice.None? || anchor.fillTime.value >= end then
      Decision(Bare(NoStartEvidence, end), 0, false)
    else
      var start := anchor.fillTime.value;
      if NoEvidenceAt(tape, start, a.maxGap)
      then Decision(Bare(NoStartEvidence, start), After(tape.ticks, start), false)
      else WatchFrom(anchor, anchor.fillPrice.value, start, tape, end, a, mode, fee, peerCancelled,
                     After(tape.ticks, start), Watch(start, 0.0, None))
  }

  method ReplayFastExit(
    anchor: Leg, tape: Tape, end: int, a: Assumptions, mode: Mode, fee: real, peerCancelled: int) returns (r: Outcome)
    ensures r == ReplayExit(anchor, tape, end, a, mode, fee, peerCancelled).outcome
  {
    hide Broken, Move;
    if fee < 0.0 || a.latency < 0 || a.stopSlippage < 0.0 { return Bare(AssumptionsInvalid, 0); }
    if a.maxGap <= 0 || a.spreadMultiplier < 1.0 { return Bare(AssumptionsInvalid, 0); }
    if anchor.fillTime.None? || anchor.fillPrice.None? || anchor.fillTime.value >= end {
      return Bare(NoStartEvidence, end);
    }
    var start, entry := anchor.fillTime.value, anchor.fillPrice.value;
    if NoEvidenceAt(tape, start, a.maxGap) { return Bare(NoStartEvidence, start); }
    var k := After(tape.ticks, start);
    ghost var first := k;
    var previous, peak, due: Option<int> := start, 0.0, None;
    while k < |tape.ticks|
      invariant first <= k <= |tape.ticks|
      invariant WatchFrom(anchor, entry, start, tape, end, a, mode, fee, peerCancelled, first, Watch(start, 0.0, None))
                == WatchFrom(anchor, entry, start, tape, end, a, mode, fee, peerCancelled, k,
                             Watch(previous, peak, due))
    {
      var tick := tape.ticks[k];
      var quote := tick.quote;
      if quote.time >= end { break; }
      if Broken(tape, previous, quote.time, a.maxGap) {
        return Outcome(CensoredGap, quote.time, Some(anchor.side), Some(start), None);
      }
      previous := quote.time;
      k := k + 1;
      if tick.source < start { continue; }
      var move := Move(anchor, entry, quote, a);
      if move <= -(anchor.stop as real) {
        return Outcome(StopLoss, quote.time, Some(anchor.side), Some(start),
                       Some((move - a.stopSlippage) / anchor.stop));
      }
      if move >= anchor.target {
        return Outcome(TakeProfit, quote.time, Some(anchor.side), Some(start), Some(anchor.target / anchor.stop));
      }
      if due.Some? && quote.time >= due.value {
        return Outcome(FastExit, quote.time, Some(anchor.side), Some(start),
                       Some((move - a.stopSlippage) / anchor.stop));
      }
      if mode == Baseline || quote.time < peerCancelled { continue; }
      peak := Max(peak, move);
      if Triggers(mode, anchor, a, fee, peak, move) && due.None? { due := Some(quote.time + a.latency); }
    }
    return WatchEnd(anchor, start, tape, end, a, Watch(previous, peak, due));
  }

  // ------------------------------------------- baseline is the anchored replay

  function Ticks(n: int, tick: Positive): real { n as real * tick }

  ghost predicate OnGrid(x: real, tick: Positive) { exists n :: x == Ticks(n, tick) }

  // The pair replay floors the target to the grid, so the two targets are the
  // same exactly on the grid.
  lemma GridTarget(setup: Setup, leg: Leg)
    ensures TargetOf(leg, setup, 1.0) == leg.target <==> OnGrid(leg.target, setup.tick)
    ensures TargetOf(leg, setup, 1.0) <= leg.target
  {
    var ratio := leg.target / setup.tick;
    assert leg.target * 1.0 == leg.target && ratio * setup.tick == leg.target;
    assert TargetOf(leg, setup, 1.0) == Ticks(ratio.Floor, setup.tick);
    assert (ratio - ratio.Floor as real) * setup.tick >= 0.0;
    if OnGrid(leg.target, setup.tick) {
      var n :| leg.target == Ticks(n, setup.tick);
      assert ratio == n as real;
    }
  }

  // No quote read after the fill was sourced before it.
  ghost predicate SourcedAfter(tape: Tape, start: int) {
    forall i :: 0 <= i < |tape.ticks| && tape.ticks[i].quote.time > start ==> tape.ticks[i].source >= start
  }

  lemma {:induction false} WatchIsReplay(
    setup: Setup, anchor: Leg, tape: Tape, end: int, a: Assumptions, fee: real, peerCancelled: int, k: nat,
    previous: int)
    requires TapeOk(tape) && OnGrid(anchor.target, setup.tick) && k <= |tape.ticks|
    requires anchor.fillTime.Some? && anchor.fillPrice.Some?
    requires forall i :: k <= i < |tape.ticks| ==> tape.ticks[i].source >= anchor.fillTime.value
    ensures var start, fill := anchor.fillTime.value, anchor.fillPrice.value;
            forall legs ::
              WatchFrom(anchor, fill, start, tape, end, a, Baseline, fee, peerCancelled, k, Watch(previous, 0.0, None))
              == ReplayFrom(setup, tape, end, a, 1.0, legs, true, k,
                            Cursor(Some(anchor), start, fill, {}, previous, None))
    decreases |tape.ticks| - k
  {
    hide Broken, Move, TargetOf;
    GridTarget(setup, anchor);
    if k < |tape.ticks| {
      WatchIsReplay(setup, anchor, tape, end, a, fee, peerCancelled, k + 1, tape.ticks[k].quote.time);
    }
  }

  // Main result: the two replays are one.  With a target on the tick grid and
  // no stale source, baseline gives the outcome of the anchored pair replay.
  lemma BaselineIsAnchored(
    setup: Setup, anchor: Leg, tape: Tape, end: int, a: Assumptions, preserve: bool, fee: real, peerCancelled: int)
    requires setup.legs != [] && TapeOk(tape) && OnGrid(anchor.target, setup.tick)
    requires anchor.fillTime.Some? && anchor.fillPrice.Some? && SourcedAfter(tape, anchor.fillTime.value)
    requires FastOk(a, fee) && AssumptionsOk(a, 1.0)
    ensures ReplayExit(anchor, tape, end, a, Baseline, fee, peerCancelled)
            == Replay(setup, tape, end, a, preserve, 1.0, Some(anchor))
  {
    var start := anchor.fillTime.value;
    AfterMeans(tape.ticks, start);
    WatchIsReplay(setup, anchor, tape, end, a, fee, peerCancelled, After(tape.ticks, start), start);
  }

  // ------------------------------------------------------ the modes, compared

  predicate BrokerSide(o: Outcome) {
    o.status.StopLoss? || o.status.TakeProfit? || o.status.CensoredGap? || o.status.NoStartEvidence?
    || o.status.AssumptionsInvalid?
  }

  lemma {:induction false} ModeVsBaseline(
    anchor: Leg, fill: real, start: int, tape: Tape, end: int, a: Assumptions, mode: Mode, fee: real,
    peerCancelled: int,
    k: nat, w: Watch)
    requires k <= |tape.ticks|
    ensures var m := WatchFrom(anchor, fill, start, tape, end, a, mode, fee, peerCancelled, k, w);
            var b := WatchFrom(anchor, fill, start, tape, end, a, Baseline, fee, peerCancelled, k,
                               Watch(w.previous, 0.0, None));
            m.read <= b.read && (BrokerSide(m.outcome) ==> m == b)
            && (!BrokerSide(m.outcome) && !m.outcome.status.FastExit?
                ==> m.atEnd && b.atEnd && b.outcome.status.OpenAtCutoff?)
    ensures k <= WatchFrom(anchor, fill, start, tape, end, a, mode, fee, peerCancelled, k, w).read
    decreases |tape.ticks| - k
  {
    hide Broken, Move, Triggers;
    if k < |tape.ticks| && tape.ticks[k].quote.time < end {
      var step := WatchTick(anchor, fill, start, tape, a, mode, fee, peerCancelled, tape.ticks[k], w);
      var base := WatchTick(anchor, fill, start, tape, a, Baseline, fee, peerCancelled, tape.ticks[k],
                            Watch(w.previous, 0.0, None));
      if step.Watching? {
        ModeVsBaseline(anchor, fill, start, tape, end, a, mode, fee, peerCancelled, k + 1, step.watch);
      } else if base.Watching? {
        ModeVsBaseline(anchor, fill, start, tape, end, a, Baseline, fee, peerCancelled, k + 1, base.watch);
      }
    }
  }

  // Main result: quick and giveback read no more of the tape than baseline, and
  // every stop, target, gap or missing start they report is baseline's own.
  lemma NeverLaterThanBaseline(
      anchor: Leg, tape: Tape, end: int, a: Assumptions, mode: Mode, fee: real, peerCancelled: int)
    ensures var m := ReplayExit(anchor, tape, end, a, mode, fee, peerCancelled);
            var b := ReplayExit(anchor, tape, end, a, Baseline, fee, peerCancelled);
            m.read <= b.read && (BrokerSide(m.outcome) ==> m == b)
  {
    if FastOk(a, fee) && anchor.fillTime.Some? && anchor.fillPrice.Some? {
      var start := anchor.fillTime.value;
      ModeVsBaseline(anchor, anchor.fillPrice.value, start, tape, end, a, mode, fee, peerCancelled,
                     After(tape.ticks, start), Watch(start, 0.0, None));
    }
  }
}
