// Replay of one observed entry pair over a sampled tape, or of one actual fill
// when an anchor is given.
module PairedReplay {
  import opened Common
  import opened Sorting
  import opened StreamingBars
  import opened TapeMerge

  // What parsing accepts as a price or a distance.
  type Positive = x: real | x > 0.0 witness 1.0

  datatype Leg = Leg(
    side: Side, accepted: int, entry: Positive, stop: Positive, target: Positive, fillTime: Option<int>,
    fillPrice: Option<real>)

  datatype Setup = Setup(tick: Positive, modelBuy: Positive, modelSell: Positive, legs: seq<Leg>)

  datatype Assumptions = Assumptions(latency: int, cancel: int, maxGap: int, spreadMultiplier: real, stopSlippage: real)

  datatype Status =
    | NoStartEvidence | CensoredGap | NoAcceptanceEvidence | EntryQuoteMismatch | OcoRace | IncompletePair
    | StopLoss | TakeProfit | OpenAtCutoff | PendingAtCutoff | FastExit | ExitPendingAtCutoff
    | AssumptionsInvalid | TargetTooSmall

  datatype Outcome = Outcome(status: Status, at: int, side: Option<Side>, filledAt: Option<int>, ratio: Option<real>)

  // An outcome, the number of ticks read when it was reached, and whether the
  // tape had to end for it.
  datatype Decision = Decision(outcome: Outcome, read: nat, atEnd: bool)

  function Bare(status: Status, at: int): Outcome { Outcome(status, at, None, None, None) }

  function Prices(q: Quote, a: Assumptions): (real, real) {
    var half := (q.ask - q.bid) * a.spreadMultiplier / 2.0;
    (q.Mid() - half, q.Mid() + half)
  }

  function TimeOf(tick: Tick): int { tick.quote.time }

  // How many ticks come up to a time.
  function After(ticks: seq<Tick>, time: int): (n: nat)
    ensures n <= |ticks|
  {
    BisectRight(ticks, TimeOf, time)
  }

  // The path from one time to a later one is too long or holds a bad capture.
  function Broken(tape: Tape, after: int, through: int, maxGap: int): bool {
    var i := BisectRight(tape.invalid, Itself, after);
    through - after > maxGap || (i < |tape.invalid| && tape.invalid[i] <= through)
  }

  // ------------------------------------------------------------------ one tick

  datatype Cursor = Cursor(
    position: Option<Leg>, fillAt: int, fillPrice: real, activated: set<Side>, previous: int, deferred: Option<Outcome>)

  datatype Step = Stop(outcome: Outcome) | Go(cursor: Cursor)

  function SideOf(c: Cursor): Option<Side> { if c.position.Some? then Some(c.position.value.side) else None }

  function FillTimeOf(c: Cursor): Option<int> { if c.position.Some? then Some(c.fillAt) else None }

  // The price has gone one tick through a resting limit.
  predicate Penetrated(leg: Leg, tick: real, bid: real, ask: real) {
    if leg.side.Buy? then ask <= leg.entry - tick else bid >= leg.entry + tick
  }

  function PairActive(legs: seq<Leg>, a: Assumptions): int
    requires legs != []
  {
    if |legs| == 1 then legs[0].accepted + a.latency
    else MaxInt(legs[0].accepted + a.latency, PairActive(legs[1..], a))
  }

  // The quote known at acceptance must leave the limit unfilled.
  function Activate(tape: Tape, leg: Leg, a: Assumptions, time: int): Option<Outcome> {
    var prior := After(tape.ticks, leg.accepted);
    if prior == 0 || Broken(tape, tape.ticks[prior - 1].quote.time, leg.accepted, a.maxGap)
    then Some(Bare(NoAcceptanceEvidence, time))
    else
      var (bid, ask) := Prices(tape.ticks[prior - 1].quote, a);
      if (leg.side.Buy? && leg.entry >= ask) || (leg.side.Sell? && leg.entry <= bid)
      then Some(Bare(EntryQuoteMismatch, time)) else None
  }

  function LegStep(setup: Setup, tape: Tape, a: Assumptions, legs: seq<Leg>, i: nat, q: Quote, c: Cursor): Step
    requires i < |legs|
  {
    var leg := legs[i];
    var (bid, ask) := Prices(q, a);
    if q.time < leg.accepted + a.latency then Go(c)
    else
      var bad := if leg.side in c.activated then None else Activate(tape, leg, a, q.time);
      if bad.Some? then Stop(bad.value)
      else
        var c' := c.(activated := c.activated + {leg.side});
        if c.position.Some? && (leg.side == c.position.value.side || q.time > c.fillAt + a.cancel) then Go(c')
        else if !Penetrated(leg, setup.tick, bid, ask) then Go(c')
        else if c.position.Some? then Stop(Outcome(OcoRace, q.time, SideOf(c), FillTimeOf(c), None))
        else if q.time < PairActive(legs, a)
        then Stop(Outcome(IncompletePair, q.time, Some(leg.side), Some(q.time), None))
        else Go(c'.(position := Some(leg), fillAt := q.time, fillPrice := leg.entry))
  }

  function LegSteps(setup: Setup, tape: Tape, a: Assumptions, legs: seq<Leg>, i: nat, q: Quote, c: Cursor): Step
    requires i <= |legs|
    decreases |legs| - i
  {
    if i == |legs| then Go(c)
    else match LegStep(setup, tape, a, legs, i, q, c)
      case Stop(o) => Stop(o)
      case Go(c') => LegSteps(setup, tape, a, legs, i + 1, q, c')
  }

  function TargetOf(leg: Leg, setup: Setup, factor: real): real
  {
    (leg.target * factor / setup.tick).Floor as real * setup.tick
  }

  function Move(leg: Leg, fill: real, q: Quote, a: Assumptions): real {
    var (bid, ask) := Prices(q, a);
    Signed(leg.side, (if leg.side.Buy? then bid else ask) - fill)
  }

  function ExitStep(setup: Setup, a: Assumptions, factor: real, anchored: bool, q: Quote, c: Cursor): Step
  {
    if c.position.None? then Go(c)
    else
      var proven := anchored || q.time > c.fillAt + a.cancel;
      if c.deferred.Some? then (if proven then Stop(c.deferred.value) else Go(c))
      else
        var leg := c.position.value;
        var move, target := Move(leg, c.fillPrice, q, a), TargetOf(leg, setup, factor);
        if target <= 0.0 then Stop(Bare(TargetTooSmall, q.time))
        else if move <= -(leg.stop as real) || move >= target then
          var stopped := move <= -(leg.stop as real);
          var worth := if stopped then move - a.stopSlippage else target;
          var result := Outcome(if stopped then StopLoss else TakeProfit, q.time, Some(leg.side), Some(c.fillAt),
                                Some(worth / leg.stop));
          if proven then Stop(result) else Go(c.(deferred := Some(result)))
        else Go(c)
  }

  function OnTick(
    setup: Setup, tape: Tape, a: Assumptions, factor: real, legs: seq<Leg>, anchored: bool, q: Quote, c: Cursor): Step
  {
    if Broken(tape, c.previous, q.time, a.maxGap)
    then Stop(Outcome(CensoredGap, q.time, SideOf(c), FillTimeOf(c), None))
    else
      var moved := c.(previous := q.time);
      match if anchored then Go(moved) else LegSteps(setup, tape, a, legs, 0, q, moved)
      case Stop(o) => Stop(o)
      case Go(c') => ExitStep(setup, a, factor, anchored, q, c')
  }

  // ------------------------------------------------------------------ a replay

  function AtEnd(tape: Tape, end: int, a: Assumptions, c: Cursor): Outcome {
    if Broken(tape, c.previous, end, a.maxGap) then Outcome(CensoredGap, end, SideOf(c), FillTimeOf(c), None)
    else Outcome(if c.position.Some? then OpenAtCutoff else PendingAtCutoff, end, SideOf(c), FillTimeOf(c), None)
  }

  function ReplayFrom(
    setup: Setup, tape: Tape, end: int, a: Assumptions, factor: real, legs: seq<Leg>, anchored: bool, k: nat,
    c: Cursor): Decision
    requires k <= |tape.ticks|
    decreases |tape.ticks| - k
  {
    if k == |tape.ticks| || tape.ticks[k].quote.time >= end then Decision(AtEnd(tape, end, a, c), k, true)
    else match OnTick(setup, tape, a, factor, legs, anchored, tape.ticks[k].quote, c)
      case Stop(o) => Decision(o, k + 1, false)
      case Go(c') => ReplayFrom(setup, tape, end, a, factor, legs, anchored, k + 1, c')
  }

  function LegsOf(setup: Setup, preserve: bool): seq<Leg> {
    if preserve then seq(|setup.legs|, i requires 0 <= i < |setup.legs| =>
      setup.legs[i].(entry := if setup.legs[i].side.Buy? then setup.modelBuy else setup.modelSell))
    else setup.legs
  }

  function FirstAccepted(legs: seq<Leg>): int
    requires legs != []
  {
    if |legs| == 1 then legs[0].accepted else MinInt(legs[0].accepted, FirstAccepted(legs[1..]))
  }

  predicate AssumptionsOk(a: Assumptions, factor: real) {
    factor > 0.0 && a.maxGap > 0 && a.latency >= 0 && a.cancel >= 0 && a.spreadMultiplier >= 1.0
    && a.stopSlippage >= 0.0
  }

  // No usable quote at the start.
  predicate NoEvidenceAt(tape: Tape, start: int, maxGap: int) {
    var n := After(tape.ticks, start);
    n == 0 || Broken(tape, tape.ticks[n - 1].quote.time, start, maxGap) || start in tape.invalid
  }

  function StartCursor(anchor: Option<Leg>, start: int): Cursor {
    if anchor.Some? && anchor.value.fillPrice.Some?
    then Cursor(anchor, start, anchor.value.fillPrice.value, {}, start, None)
    else Cursor(None, 0, 0.0, {}, start, None)
  }

  function Replay(
    setup: Setup, tape: Tape, end: int, a: Assumptions, preserve: bool, factor: real, anchor: Option<Leg>): Decision
    requires setup.legs != []
    requires anchor.Some? ==> (anchor.value.fillTime.Some? <==> anchor.value.fillPrice.Some?)
  {
    if !AssumptionsOk(a, factor) then Decision(Bare(AssumptionsInvalid, 0), 0, false)
    else
      var legs := LegsOf(setup, preserve);
      var start := if anchor.Some? then anchor.value.fillTime else Some(FirstAccepted(legs));
      if start.None? || start.value >= end then Decision(Bare(NoStartEvidence, end), 0, false)
      else if NoEvidenceAt(tape, start.value, a.maxGap)
      then Decision(Bare(NoStartEvidence, start.value), After(tape.ticks, start.value), false)
      else ReplayFrom(setup, tape, end, a, factor, legs, anchor.Some?, After(tape.ticks, start.value),
                      StartCursor(anchor, start.value))
  }

  // The replay loop.  The state is the six variables the loop updates.
  method ReplayPair(
    setup: Setup, tape: Tape, end: int, a: Assumptions, preserve: bool, factor: real, anchor: Option<Leg>)
    returns (r: Outcome)
    requires setup.legs != []
    requires anchor.Some? ==> (anchor.value.fillTime.Some? <==> anchor.value.fillPrice.Some?)
    ensures r == Replay(setup, tape, end, a, preserve, factor, anchor).outcome
  {
    hide Prices, Move, Activate, TargetOf, Broken;
    if !AssumptionsOk(a, factor) { return Bare(AssumptionsInvalid, 0); }
    var legs := LegsOf(setup, preserve);
    var start := if anchor.Some? then anchor.value.fillTime else Some(FirstAccepted(legs));
    if start.None? || start.value >= end { return Bare(NoStartEvidence, end); }
    if NoEvidenceAt(tape, start.value, a.maxGap) { return Bare(NoStartEvidence, start.value); }
    var k := After(tape.ticks, start.value);
    var c := StartCursor(anchor, start.value);
    ghost var first, initial := k, c;
    while k < |tape.ticks|
      invariant first <= k <= |tape.ticks|
      invariant ReplayFrom(setup, tape, end, a, factor, legs, anchor.Some?, first, initial)
                == ReplayFrom(setup, tape, end, a, factor, legs, anchor.Some?, k, c)
    {
      var quote := tape.ticks[k].quote;
      if quote.time >= end { break; }
      if Broken(tape, c.previous, quote.time, a.maxGap) {
        return Outcome(CensoredGap, quote.time, SideOf(c), FillTimeOf(c), None);
      }
      c := c.(previous := quote.time);
      if anchor.None? {
        ghost var before := c;
        var i := 0;
        while i < |legs|
          invariant 0 <= i <= |legs|
          invariant LegSteps(setup, tape, a, legs, 0, quote, before) == LegSteps(setup, tape, a, legs, i, quote, c)
        {
          var step := LegStep(setup, tape, a, legs, i, quote, c);
          if step.Stop? { return step.outcome; }
          c := step.cursor;
          i := i + 1;
        }
      }
      var step := ExitStep(setup, a, factor, anchor.Some?, quote, c);
      if step.Stop? { return step.outcome; }
      c := step.cursor;
      k := k + 1;
    }
    return AtEnd(tape, end, a, c);
  }

  // ------------------------------------------------------- what a tape can say

  ghost predicate TapeOk(tape: Tape) { TicksOrdered(tape.ticks) && Increasing(tape.invalid) }

  lemma AfterMeans(ticks: seq<Tick>, time: int)
    requires TicksOrdered(ticks)
    ensures forall i :: 0 <= i < |ticks| ==> (ticks[i].quote.time <= time <==> i < After(ticks, time))
  {
    BisectMeans(ticks, TimeOf, time);
    assert forall i :: 0 <= i < |ticks| ==> TimeOf(ticks[i]) == ticks[i].quote.time;
  }

  // A stretch of time is broken exactly when it is longer than the limit or
  // holds an invalid capture.
  lemma BrokenMeans(tape: Tape, after: int, through: int, maxGap: int)
    requires TapeOk(tape)
    ensures Broken(tape, after, through, maxGap) <==>
            through - after > maxGap || exists v :: Has(tape.invalid, v) && after < v <= through
  {
    BisectMeans(tape.invalid, Itself, after);
    var i := BisectRight(tape.invalid, Itself, after);
    if i < |tape.invalid| && tape.invalid[i] <= through { assert Has(tape.invalid, tape.invalid[i]); }
    if exists v :: Has(tape.invalid, v) && after < v <= through {
      var v :| Has(tape.invalid, v) && after < v <= through;
      var j :| 0 <= j < |tape.invalid| && tape.invalid[j] == v;
      assert i <= j;
    }
  }

  // ------------------------------------------------------ a close is observed

  // From `from`, every tick of [k, n) is reached over an unbroken stretch.
  ghost predicate Unbroken(tape: Tape, maxGap: int, from: int, k: nat, n: nat)
    requires n <= |tape.ticks|
    decreases n - k
  {
    k < n ==> !Broken(tape, from, tape.ticks[k].quote.time, maxGap)
              && Unbroken(tape, maxGap, tape.ticks[k].quote.time, k + 1, n)
  }

  predicate IsClose(d: Decision) { d.outcome.status.StopLoss? || d.outcome.status.TakeProfit? }

  lemma {:induction false} CloseIsUnbroken(
    setup: Setup, tape: Tape, end: int, a: Assumptions, factor: real, legs: seq<Leg>, anchored: bool, k: nat, c: Cursor)
    requires k <= |tape.ticks|
    ensures var d := ReplayFrom(setup, tape, end, a, factor, legs, anchored, k, c);
            IsClose(d) ==> !d.atEnd && k < d.read <= |tape.ticks| && Unbroken(tape, a.maxGap, c.previous, k, d.read)
    decreases |tape.ticks| - k
  {
    if k < |tape.ticks| && tape.ticks[k].quote.time < end {
      var step := OnTick(setup, tape, a, factor, legs, anchored, tape.ticks[k].quote, c);
      if step.Go? {
        TickMovesOn(setup, tape, a, factor, legs, anchored, tape.ticks[k].quote, c);
        hide OnTick;
        CloseIsUnbroken(setup, tape, end, a, factor, legs, anchored, k + 1, step.cursor);
      }
    }
  }

  lemma {:induction false} LegStepsKeepPrevious(
    setup: Setup, tape: Tape, a: Assumptions, legs: seq<Leg>, i: nat, q: Quote, c: Cursor)
    requires i <= |legs|
    ensures var s := LegSteps(setup, tape, a, legs, i, q, c);
            s.Go? ==> s.cursor.previous == c.previous && s.cursor.deferred == c.deferred
                      && (c.position.Some? ==> s.cursor.position == c.position && s.cursor.fillAt == c.fillAt
                                               && s.cursor.fillPrice == c.fillPrice)
    decreases |legs| - i
  {
    if i < |legs| {
      var s := LegStep(setup, tape, a, legs, i, q, c);
      if s.Go? { LegStepsKeepPrevious(setup, tape, a, legs, i + 1, q, s.cursor); }
    }
  }

  lemma TickMovesOn(
    setup: Setup, tape: Tape, a: Assumptions, factor: real, legs: seq<Leg>, anchored: bool, q: Quote, c: Cursor)
    ensures var s := OnTick(setup, tape, a, factor, legs, anchored, q, c);
            (s.Go? ==> s.cursor.previous == q.time)
            && (Broken(tape, c.previous, q.time, a.maxGap) ==> s.Stop? && s.outcome.status.CensoredGap?)
  {
    LegStepsKeepPrevious(setup, tape, a, legs, 0, q, c.(previous := q.time));
  }

  // An unbroken stretch holds no invalid capture and no long gap anywhere.
  lemma {:induction false} UnbrokenMeans(tape: Tape, maxGap: int, from: int, k: nat, n: nat, v: int)
    requires TapeOk(tape) && k < n <= |tape.ticks| && Unbroken(tape, maxGap, from, k, n)
    ensures from < v <= tape.ticks[n - 1].quote.time ==> !Has(tape.invalid, v)
    ensures tape.ticks[k].quote.time - from <= maxGap
    ensures forall j :: k < j < n ==> tape.ticks[j].quote.time - tape.ticks[j - 1].quote.time <= maxGap
    decreases n - k
  {
    BrokenMeans(tape, from, tape.ticks[k].quote.time, maxGap);
    if k + 1 < n { UnbrokenMeans(tape, maxGap, tape.ticks[k].quote.time, k + 1, n, v); }
  }

  function StartOf(setup: Setup, preserve: bool, anchor: Option<Leg>): int
    requires setup.legs != [] && (anchor.Some? ==> anchor.value.fillTime.Some?)
  {
    if anchor.Some? then anchor.value.fillTime.value else FirstAccepted(LegsOf(setup, preserve))
  }

  // A close comes out of the loop, entered with evidence at the start.
  lemma CloseComesFromLoop(
    setup: Setup, tape: Tape, end: int, a: Assumptions, preserve: bool, factor: real, anchor: Option<Leg>)
    requires setup.legs != []
    requires anchor.Some? ==> (anchor.value.fillTime.Some? <==> anchor.value.fillPrice.Some?)
    requires IsClose(Replay(setup, tape, end, a, preserve, factor, anchor))
    ensures anchor.Some? ==> anchor.value.fillTime.Some?
    ensures var start := StartOf(setup, preserve, anchor);
            AssumptionsOk(a, factor) && !NoEvidenceAt(tape, start, a.maxGap)
            && Replay(setup, tape, end, a, preserve, factor, anchor)
               == ReplayFrom(setup, tape, end, a, factor, LegsOf(setup, preserve), anchor.Some?,
                             After(tape.ticks, start), StartCursor(anchor, start))
  {
    hide ReplayFrom, NoEvidenceAt;
  }

  // Main result on gaps: a TP or SL means that from the start to the tick that
  // decided it no invalid capture and no gap was met.
  lemma CloseHasNoGap(
    setup: Setup, tape: Tape, end: int, a: Assumptions, preserve: bool, factor: real, anchor: Option<Leg>, v: int)
    requires setup.legs != [] && TapeOk(tape)
    requires anchor.Some? ==> anchor.value.fillTime.Some? && anchor.value.fillPrice.Some?
    requires IsClose(Replay(setup, tape, end, a, preserve, factor, anchor))
    ensures var d, start := Replay(setup, tape, end, a, preserve, factor, anchor), StartOf(setup, preserve, anchor);
            var first := After(tape.ticks, start);
            0 < first < d.read <= |tape.ticks| && !d.atEnd
            && (start <= v <= tape.ticks[d.read - 1].quote.time ==> !Has(tape.invalid, v))
            && tape.ticks[first].quote.time - start <= a.maxGap
            && forall j :: first < j < d.read ==> tape.ticks[j].quote.time - tape.ticks[j - 1].quote.time <= a.maxGap
  {
    hide ReplayFrom, Replay;
    var start := StartOf(setup, preserve, anchor);
    var first, c := After(tape.ticks, start), StartCursor(anchor, start);
    CloseComesFromLoop(setup, tape, end, a, preserve, factor, anchor);
    CloseIsUnbroken(setup, tape, end, a, factor, LegsOf(setup, preserve), anchor.Some?, first, c);
    UnbrokenMeans(tape, a.maxGap, start, first, Replay(setup, tape, end, a, preserve, factor, anchor).read, v);
    if Has(tape.invalid, start) { HasIsIn(tape.invalid, start); }
  }

  lemma HasIsIn(keys: seq<int>, t: int)
    requires Has(keys, t)
    ensures t in keys
  {
  }

  // ------------------------------------------- the peer stays unfilled meanwhile

  // No leg of the other side is penetrated at the quote.
  ghost predicate PeersQuiet(setup: Setup, a: Assumptions, legs: seq<Leg>, side: Side, q: Quote) {
    var (bid, ask) := Prices(q, a);
    forall i :: 0 <= i < |legs| && legs[i].side != side ==> !Penetrated(legs[i], setup.tick, bid, ask)
  }

  lemma {:induction false} PairActiveCovers(legs: seq<Leg>, a: Assumptions, i: nat)
    requires i < |legs|
    ensures legs[i].accepted + a.latency <= PairActive(legs, a)
  {
    if i > 0 { PairActiveCovers(legs[1..], a, i - 1); }
  }

  // While a position may still be raced, a tick that goes on found its peers
  // quiet.
  lemma {:induction false} HeldLegsQuiet(
      setup: Setup, tape: Tape, a: Assumptions, legs: seq<Leg>, i: nat, q: Quote, c: Cursor)
    requires i <= |legs| && c.position.Some? && LegSteps(setup, tape, a, legs, i, q, c).Go?
    requires legs != [] && PairActive(legs, a) <= q.time <= c.fillAt + a.cancel
    ensures var (bid, ask) := Prices(q, a);
            forall j :: i <= j < |legs| && legs[j].side != c.position.value.side ==>
              !Penetrated(legs[j], setup.tick, bid, ask)
    decreases |legs| - i
  {
    hide Activate, Prices;
    if i < |legs| {
      PairActiveCovers(legs, a, i);
      var s := LegStep(setup, tape, a, legs, i, q, c);
      HeldLegsQuiet(setup, tape, a, legs, i + 1, q, s.cursor);
    }
  }

  // The tick of the fill: the filled leg is penetrated, the pair is active and
  // no other side is penetrated.
  lemma {:induction false} FillingLegsQuiet(
      setup: Setup, tape: Tape, a: Assumptions, legs: seq<Leg>, i: nat, q: Quote, c: Cursor)
    requires i <= |legs| && c.position.None? && a.cancel >= 0
    requires var s := LegSteps(setup, tape, a, legs, i, q, c); s.Go? && s.cursor.position.Some?
    ensures var p := LegSteps(setup, tape, a, legs, i, q, c).cursor;
            var (bid, ask) := Prices(q, a);
            p.fillAt == q.time && PairActive(legs, a) <= q.time && p.position.value in legs
            && p.fillPrice == p.position.value.entry && Penetrated(p.position.value, setup.tick, bid, ask)
            && forall j :: i <= j < |legs| && legs[j].side != p.position.value.side ==>
                 !Penetrated(legs[j], setup.tick, bid, ask)
    decreases |legs| - i
  {
    hide Activate, Prices;
    if i < |legs| {
      var s := LegStep(setup, tape, a, legs, i, q, c);
      if s.cursor.position.Some? {
        HeldLegsQuiet(setup, tape, a, legs, i + 1, q, s.cursor);
        LegStepsKeepPrevious(setup, tape, a, legs, i + 1, q, s.cursor);
      } else {
        FillingLegsQuiet(setup, tape, a, legs, i + 1, q, s.cursor);
        if q.time < legs[i].accepted + a.latency { PairActiveCovers(legs, a, i); }
      }
    }
  }

  // ----------------------------------------------- the close is the first touch

  predicate Touches(setup: Setup, a: Assumptions, factor: real, leg: Leg, fill: real, q: Quote) {
    Move(leg, fill, q, a) <= -(leg.stop as real) || Move(leg, fill, q, a) >= TargetOf(leg, setup, factor)
  }

  // What a touch is worth: the whole target, or the worse observed move less
  // the reserve.
  function CloseAt(setup: Setup, a: Assumptions, factor: real, leg: Leg, fill: real, fillAt: int, q: Quote): Outcome {
    var move := Move(leg, fill, q, a);
    var stopped := move <= -(leg.stop as real);
    Outcome(if stopped then StopLoss else TakeProfit, q.time, Some(leg.side), Some(fillAt),
            Some((if stopped then move - a.stopSlippage else TargetOf(leg, setup, factor)) / leg.stop))
  }

  ghost predicate FirstTouch(
    setup: Setup, tape: Tape, a: Assumptions, factor: real, leg: Leg, fill: real, fillAt: int, k: nat, h: nat,
    o: Outcome)
  {
    k <= h < |tape.ticks| && Touches(setup, a, factor, leg, fill, tape.ticks[h].quote)
    && o == CloseAt(setup, a, factor, leg, fill, fillAt, tape.ticks[h].quote)
    && forall j :: k <= j < h ==> !Touches(setup, a, factor, leg, fill, tape.ticks[j].quote)
  }

  ghost predicate QuietTo(
      setup: Setup, tape: Tape, a: Assumptions, legs: seq<Leg>, side: Side, fillAt: int, k: nat, n: nat)
    requires n <= |tape.ticks|
  {
    forall j :: k <= j < n && tape.ticks[j].quote.time <= fillAt + a.cancel ==>
      PeersQuiet(setup, a, legs, side, tape.ticks[j].quote)
  }

  // One tick with a position held.
  lemma HeldTick(
      setup: Setup, tape: Tape, a: Assumptions, factor: real, legs: seq<Leg>, anchored: bool, q: Quote, c: Cursor)
    requires c.position.Some? && (anchored || (legs != [] && PairActive(legs, a) <= q.time))
    ensures var s := OnTick(setup, tape, a, factor, legs, anchored, q, c);
            var leg := c.position.value;
            var proven := anchored || q.time > c.fillAt + a.cancel;
            (s.Go? || s.outcome.status.StopLoss? || s.outcome.status.TakeProfit? ==>
               (!anchored && q.time <= c.fillAt + a.cancel ==> PeersQuiet(setup, a, legs, leg.side, q)))
            && (s.Go?
                ==> s.cursor.position == c.position && s.cursor.fillAt == c.fillAt && s.cursor.fillPrice == c.fillPrice
                          && (c.deferred.Some? ==> s.cursor.deferred == c.deferred)
                          && (c.deferred.None?
                              ==> (s.cursor.deferred.Some? <==> Touches(setup, a, factor, leg, c.fillPrice, q)))
                          && (c.deferred.None? && s.cursor.deferred.Some? ==>
                                s.cursor.deferred.value == CloseAt(setup, a, factor, leg, c.fillPrice, c.fillAt, q)))
            && (s.Stop? && (s.outcome.status.StopLoss? || s.outcome.status.TakeProfit?) ==>
                  proven && (c.deferred.Some? ==> s.outcome == c.deferred.value)
                  && (c.deferred.None? ==> Touches(setup, a, factor, leg, c.fillPrice, q)
                                           && s.outcome == CloseAt(setup, a, factor, leg, c.fillPrice, c.fillAt, q)))
  {
    hide Prices, Move, TargetOf, Broken, Activate;
    var moved := c.(previous := q.time);
    LegStepsKeepPrevious(setup, tape, a, legs, 0, q, moved);
    if !anchored {
      LegStepsStopNeutral(setup, tape, a, legs, 0, q, moved);
      if q.time <= c.fillAt + a.cancel && LegSteps(setup, tape, a, legs, 0, q, moved).Go? {
        HeldLegsQuiet(setup, tape, a, legs, 0, q, moved);
      }
    }
  }

  lemma {:induction false} LegStepsStopNeutral(
      setup: Setup, tape: Tape, a: Assumptions, legs: seq<Leg>, i: nat, q: Quote, c: Cursor)
    requires i <= |legs|
    ensures var s := LegSteps(setup, tape, a, legs, i, q, c);
            s.Stop? ==> !s.outcome.status.StopLoss? && !s.outcome.status.TakeProfit?
    decreases |legs| - i
  {
    if i < |legs| {
      var s := LegStep(setup, tape, a, legs, i, q, c);
      if s.Go? { LegStepsStopNeutral(setup, tape, a, legs, i + 1, q, s.cursor); }
    }
  }

  // From a held position to its close.
  lemma {:induction false} HeldToClose(
    setup: Setup, tape: Tape, end: int, a: Assumptions, factor: real, legs: seq<Leg>, anchored: bool, k: nat, c: Cursor)
    returns (h: nat)
    requires TicksOrdered(tape.ticks) && k <= |tape.ticks| && c.position.Some?
    requires anchored
             || (legs != [] && forall j :: k <= j < |tape.ticks| ==> PairActive(legs, a) <= tape.ticks[j].quote.time)
    requires IsClose(ReplayFrom(setup, tape, end, a, factor, legs, anchored, k, c))
    ensures var d := ReplayFrom(setup, tape, end, a, factor, legs, anchored, k, c);
            k < d.read <= |tape.ticks|
            && (anchored || tape.ticks[d.read - 1].quote.time > c.fillAt + a.cancel)
            && (!anchored ==> QuietTo(setup, tape, a, legs, c.position.value.side, c.fillAt, k, d.read))
            && (c.deferred.Some? ==> d.outcome == c.deferred.value)
            && (c.deferred.None? ==>
                  h < d.read
                  && FirstTouch(setup, tape, a, factor, c.position.value, c.fillPrice, c.fillAt, k, h, d.outcome))
    decreases |tape.ticks| - k
  {
    hide OnTick, PairActive, Touches, CloseAt, PeersQuiet;
    var q := tape.ticks[k].quote;
    HeldTick(setup, tape, a, factor, legs, anchored, q, c);
    var s := OnTick(setup, tape, a, factor, legs, anchored, q, c);
    h := k;
    if s.Go? {
      var later := HeldToClose(setup, tape, end, a, factor, legs, anchored, k + 1, s.cursor);
      if c.deferred.None? && s.cursor.deferred.None? { h := later; }
    }
  }

  // The tick of a fill, or another tick of waiting.
  lemma WaitingTick(setup: Setup, tape: Tape, a: Assumptions, factor: real, legs: seq<Leg>, q: Quote, c: Cursor)
    requires c.position.None? && c.deferred.None? && a.cancel >= 0
    ensures var s := OnTick(setup, tape, a, factor, legs, false, q, c);
            (s.Stop? ==> !s.outcome.status.StopLoss? && !s.outcome.status.TakeProfit?)
            && (s.Go? && s.cursor.position.None? ==> s.cursor.deferred.None?)
            && (s.Go? && s.cursor.position.Some? ==>
                  var p := s.cursor;
                  var leg := p.position.value;
                  var (bid, ask) := Prices(q, a);
                  leg in legs && p.fillAt == q.time && p.fillPrice == leg.entry && PairActive(legs, a) <= q.time
                  && Penetrated(leg, setup.tick, bid, ask) && PeersQuiet(setup, a, legs, leg.side, q)
                  && (p.deferred.Some? <==> Touches(setup, a, factor, leg, p.fillPrice, q))
                  && (p.deferred.Some?
                      ==> p.deferred.value == CloseAt(setup, a, factor, leg, p.fillPrice, p.fillAt, q)))
  {
    hide Prices, Move, TargetOf, Broken, Activate;
    var moved := c.(previous := q.time);
    LegStepsKeepPrevious(setup, tape, a, legs, 0, q, moved);
    LegStepsStopNeutral(setup, tape, a, legs, 0, q, moved);
    var s := LegSteps(setup, tape, a, legs, 0, q, moved);
    if s.Go? && s.cursor.position.Some? { FillingLegsQuiet(setup, tape, a, legs, 0, q, moved); }
  }

  // A close told from its fill: the leg filled at tick f, the quiet of its
  // peers from there through the cancellation delay, and the first touch h.
  ghost predicate ClosedFrom(
    setup: Setup, tape: Tape, a: Assumptions, factor: real, legs: seq<Leg>, leg: Leg, f: nat, h: nat, d: Decision)
  {
    f < d.read <= |tape.ticks| && leg in legs
    && (var at := tape.ticks[f].quote.time;
        var (bid, ask) := Prices(tape.ticks[f].quote, a);
        Penetrated(leg, setup.tick, bid, ask)
        && QuietTo(setup, tape, a, legs, leg.side, at, f, d.read)
        && tape.ticks[d.read - 1].quote.time > at + a.cancel
        && h < d.read && FirstTouch(setup, tape, a, factor, leg, leg.entry, at, f, h, d.outcome))
  }

  lemma {:induction false} WaitToClose(
    setup: Setup, tape: Tape, end: int, a: Assumptions, factor: real, legs: seq<Leg>, k: nat, c: Cursor)
    returns (leg: Leg, f: nat, h: nat)
    requires TicksOrdered(tape.ticks) && k <= |tape.ticks| && c.position.None? && c.deferred.None? && a.cancel >= 0
             && legs != []
    requires IsClose(ReplayFrom(setup, tape, end, a, factor, legs, false, k, c))
    ensures k <= f
            && ClosedFrom(setup, tape, a, factor, legs, leg, f, h,
                          ReplayFrom(setup, tape, end, a, factor, legs, false, k, c))
    decreases |tape.ticks| - k
  {
    hide OnTick, PairActive, Touches, CloseAt, PeersQuiet, Prices, Penetrated;
    var q := tape.ticks[k].quote;
    WaitingTick(setup, tape, a, factor, legs, q, c);
    var s := OnTick(setup, tape, a, factor, legs, false, q, c);
    if s.cursor.position.None? {
      leg, f, h := WaitToClose(setup, tape, end, a, factor, legs, k + 1, s.cursor);
    } else {
      leg, f := s.cursor.position.value, k;
      var later := HeldToClose(setup, tape, end, a, factor, legs, false, k + 1, s.cursor);
      h := if s.cursor.deferred.Some? then k else later;
    }
  }

  // Main result on the race: for an unanchored pair, a close is the first touch
  // after a fill whose peer was not penetrated at any observed quote from the
  // fill through the cancellation delay.
  lemma UnanchoredClose(setup: Setup, tape: Tape, end: int, a: Assumptions, preserve: bool, factor: real)
    requires setup.legs != [] && TapeOk(tape) && IsClose(Replay(setup, tape, end, a, preserve, factor, None))
    ensures exists leg, f: nat, h: nat ::
      ClosedFrom(setup, tape, a, factor, LegsOf(setup, preserve), leg, f, h,
                 Replay(setup, tape, end, a, preserve, factor, None))
  {
    hide ReplayFrom, Replay;
    CloseComesFromLoop(setup, tape, end, a, preserve, factor, None);
    var legs := LegsOf(setup, preserve);
    var start := FirstAccepted(legs);
    var leg, f, h := WaitToClose(setup, tape, end, a, factor, legs, After(tape.ticks, start), StartCursor(None, start));
  }

  // -------------------------------------------------------------- no look-ahead

  // Two tapes alike up to and including tick n - 1.
  ghost predicate AgreeTo(s: Tape, t: Tape, n: nat) {
    0 < n <= |s.ticks| && n <= |t.ticks| && s.ticks[..n] == t.ticks[..n]
    && forall v :: v <= s.ticks[n - 1].quote.time ==> (Has(s.invalid, v) <==> Has(t.invalid, v))
  }

  lemma BrokenAgrees(s: Tape, t: Tape, n: nat, after: int, through: int, maxGap: int)
    requires TapeOk(s) && TapeOk(t) && AgreeTo(s, t, n) && through <= s.ticks[n - 1].quote.time
    ensures Broken(s, after, through, maxGap) == Broken(t, after, through, maxGap)
  {
    BrokenMeans(s, after, through, maxGap);
    BrokenMeans(t, after, through, maxGap);
  }

  lemma AfterPrefix(ticks: seq<Tick>, n: nat, time: int)
    requires TicksOrdered(ticks) && 0 < n <= |ticks| && time <= ticks[n - 1].quote.time
    ensures After(ticks, time) == After(ticks[..n], time)
  {
    var front := ticks[..n];
    AfterMeans(front, time);
    forall i | 0 <= i < |ticks| ensures TimeOf(ticks[i]) <= time <==> i < After(front, time) {
      if i < n {
        assert front[i] == ticks[i];
      } else {
        assert ticks[n - 1].quote.time < ticks[i].quote.time;
      }
    }
    BisectIs(ticks, TimeOf, time, After(front, time));
  }

  lemma AfterAgrees(s: Tape, t: Tape, n: nat, time: int)
    requires TapeOk(s) && TapeOk(t) && AgreeTo(s, t, n) && time <= s.ticks[n - 1].quote.time
    ensures After(s.ticks, time) == After(t.ticks, time) <= n
  {
    assert s.ticks[n - 1] == s.ticks[..n][n - 1] == t.ticks[n - 1];
    AfterPrefix(s.ticks, n, time);
    AfterPrefix(t.ticks, n, time);
  }

  lemma ActivateAgrees(s: Tape, t: Tape, n: nat, leg: Leg, a: Assumptions, time: int)
    requires TapeOk(s) && TapeOk(t) && AgreeTo(s, t, n) && leg.accepted <= s.ticks[n - 1].quote.time
    ensures Activate(s, leg, a, time) == Activate(t, leg, a, time)
  {
    hide Prices, Broken;
    AfterAgrees(s, t, n, leg.accepted);
    var i := After(s.ticks, leg.accepted);
    if i > 0 {
      assert s.ticks[i - 1] == s.ticks[..n][i - 1] == t.ticks[i - 1];
      BrokenAgrees(s, t, n, s.ticks[i - 1].quote.time, leg.accepted, a.maxGap);
    }
  }

  lemma {:induction false} LegStepsAgree(
    setup: Setup, s: Tape, t: Tape, n: nat, a: Assumptions, legs: seq<Leg>, i: nat, q: Quote, c: Cursor)
    requires TapeOk(s) && TapeOk(t) && AgreeTo(s, t, n) && q.time <= s.ticks[n - 1].quote.time && a.latency >= 0
             && i <= |legs|
    ensures LegSteps(setup, s, a, legs, i, q, c) == LegSteps(setup, t, a, legs, i, q, c)
    decreases |legs| - i
  {
    hide Prices, Activate, Penetrated;
    if i < |legs| {
      if legs[i].accepted <= q.time { ActivateAgrees(s, t, n, legs[i], a, q.time); }
      var step := LegStep(setup, s, a, legs, i, q, c);
      assert step == LegStep(setup, t, a, legs, i, q, c);
      if step.Go? { LegStepsAgree(setup, s, t, n, a, legs, i + 1, q, step.cursor); }
    }
  }

  lemma TickAgrees(
      setup: Setup, s: Tape, t: Tape, n: nat, a: Assumptions, factor: real, legs: seq<Leg>, anchored: bool, q: Quote,
      c: Cursor)
    requires TapeOk(s) && TapeOk(t) && AgreeTo(s, t, n) && q.time <= s.ticks[n - 1].quote.time && a.latency >= 0
    ensures OnTick(setup, s, a, factor, legs, anchored, q, c) == OnTick(setup, t, a, factor, legs, anchored, q, c)
  {
    hide ExitStep, LegSteps, Broken;
    BrokenAgrees(s, t, n, c.previous, q.time, a.maxGap);
    LegStepsAgree(setup, s, t, n, a, legs, 0, q, c.(previous := q.time));
  }

  lemma {:induction false} RestAgrees(
    setup: Setup, s: Tape, t: Tape, n: nat, end: int, a: Assumptions, factor: real, legs: seq<Leg>, anchored: bool,
    k: nat, c: Cursor)
    requires TapeOk(s) && TapeOk(t) && AgreeTo(s, t, n) && a.latency >= 0 && k <= |s.ticks|
    requires var d := ReplayFrom(setup, s, end, a, factor, legs, anchored, k, c); !d.atEnd && d.read <= n
    ensures k < n
            && ReplayFrom(setup, t, end, a, factor, legs, anchored, k, c)
               == ReplayFrom(setup, s, end, a, factor, legs, anchored, k, c)
    decreases |s.ticks| - k
  {
    hide OnTick;
    ReadsForward(setup, s, end, a, factor, legs, anchored, k, c);
    var q := s.ticks[k].quote;
    assert s.ticks[k] == s.ticks[..n][k] == t.ticks[k];
    TickAgrees(setup, s, t, n, a, factor, legs, anchored, q, c);
    var step := OnTick(setup, s, a, factor, legs, anchored, q, c);
    if step.Go? { RestAgrees(setup, s, t, n, end, a, factor, legs, anchored, k + 1, step.cursor); }
  }

  lemma {:induction false} ReadsForward(
    setup: Setup, tape: Tape, end: int, a: Assumptions, factor: real, legs: seq<Leg>, anchored: bool, k: nat, c: Cursor)
    requires k <= |tape.ticks|
    ensures var d := ReplayFrom(setup, tape, end, a, factor, legs, anchored, k, c);
            k <= d.read <= |tape.ticks| && (!d.atEnd ==> k < d.read)
    decreases |tape.ticks| - k
  {
    hide OnTick;
    if k < |tape.ticks| && tape.ticks[k].quote.time < end {
      var step := OnTick(setup, tape, a, factor, legs, anchored, tape.ticks[k].quote, c);
      if step.Go? { ReadsForward(setup, tape, end, a, factor, legs, anchored, k + 1, step.cursor); }
    }
  }

  // Main result on causality: an outcome reached at a tick is unchanged by any
  // change to the tape after that tick.
  lemma NoLookAhead(
    setup: Setup, s: Tape, t: Tape, end: int, a: Assumptions, preserve: bool, factor: real, anchor: Option<Leg>)
    requires setup.legs != [] && TapeOk(s) && TapeOk(t)
    requires anchor.Some? ==> (anchor.value.fillTime.Some? <==> anchor.value.fillPrice.Some?)
    requires var d := Replay(setup, s, end, a, preserve, factor, anchor);
             !d.atEnd && !d.outcome.status.NoStartEvidence? && !d.outcome.status.AssumptionsInvalid?
             && d.read > 0 && AgreeTo(s, t, d.read)
    ensures Replay(setup, t, end, a, preserve, factor, anchor) == Replay(setup, s, end, a, preserve, factor, anchor)
  {
    hide OnTick, Broken;
    var d := Replay(setup, s, end, a, preserve, factor, anchor);
    var legs := LegsOf(setup, preserve);
    var start := if anchor.Some? then anchor.value.fillTime.value else FirstAccepted(legs);
    var first, c := After(s.ticks, start), StartCursor(anchor, start);
    ReadsForward(setup, s, end, a, factor, legs, anchor.Some?, first, c);
    AfterMeans(s.ticks, start);
    assert s.ticks[first].quote.time <= s.ticks[d.read - 1].quote.time;
    AfterAgrees(s, t, d.read, start);
    assert s.ticks[first - 1] == s.ticks[..d.read][first - 1] == t.ticks[first - 1];
    BrokenAgrees(s, t, d.read, s.ticks[first - 1].quote.time, start, a.maxGap);
    InvalidAgrees(s, t, d.read, start);
    RestAgrees(setup, s, t, d.read, end, a, factor, legs, anchor.Some?, first, c);
  }

  lemma InvalidAgrees(s: Tape, t: Tape, n: nat, v: int)
    requires AgreeTo(s, t, n) && v <= s.ticks[n - 1].quote.time
    ensures v in s.invalid <==> v in t.invalid
  {
    InIsHas(s.invalid, v);
    InIsHas(t.invalid, v);
  }

  lemma InIsHas(keys: seq<int>, t: int)
    ensures Has(keys, t) <==> t in keys
  {
  }
}
