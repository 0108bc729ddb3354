// The sampled-quote evaluator: orders, positions and cash moved by one quote
// at a time.  Each phase is specified by a function on the book; the method
// runs the phases in place, and conservation is proved of every reachable book.
module Evaluator {
  import opened Common
  import opened StreamingBars

  datatype Scenario = Scenario(
    latency: int, entrySlippage: real, exitSlippage: real, spreadMultiplier: real,
    commission: real, fillFraction: real, modelCost: real, cancelLatency: int)

  datatype Position = Position(
    side: Side, entry: real, target: real, stop: real, openedAt: int, volume: real, openingFee: real)

  // A closed position: its net result and the parts it is made of.
  datatype Trade = Trade(net: real, fees: real, gross: real)

  datatype Counters = Counters(
    decisions: nat, exposureRejections: nat, staleRejections: nat, entryRejections: nat,
    submitted: nat, fills: nat, partialFills: nat, unfilledObservations: nat,
    expired: nat, ocoCancelled: nat, gapCancelled: nat, censored: nat)

  datatype Book = Book(
    pending: seq<PlanLeg>, expiry: int, cancelAt: Option<int>, positions: seq<Position>, index: nat,
    counters: Counters, trades: seq<Trade>, latencies: seq<int>,
    net: real, fees: real, high: real, drawdown: real, modelCost: real,
    prior: Option<int>, observed: int, exposure: real)

  datatype Report = Report(book: Book) | ScenarioInvalid | PlansNotOrdered | PlanValidityInvalid

  datatype Marks = Marks(time: int, bid: real, ask: real)

  const MILLION := 1_000_000.0
  const LIMIT := 0.05
  const HOLD := 120_000

  function MarksOf(q: Quote, sc: Scenario): Marks {
    var half := (q.ask - q.bid) * sc.spreadMultiplier / 2.0;
    Marks(q.time, q.Mid() - half, q.Mid() + half)
  }

  function Fee(price: real, volume: real, sc: Scenario): real { price * volume * sc.commission / MILLION }

  // ------------------------------------------------------------------ phases

  function Empty(): Book {
    Book([], 0, None, [], 0, Counters(0, 0, 0, 0, 0, 0, 0, 0, 0, 0, 0, 0), [], [], 0.0, 0.0, 0.0, 0.0, 0.0, None, 0,
         0.0)
  }

  function Volume(ps: seq<Position>): real {
    if ps == [] then 0.0 else Volume(ps[..|ps| - 1]) + ps[|ps| - 1].volume
  }

  function Elapse(b: Book, time: int): Book {
    if b.prior.None? then b.(prior := Some(time))
    else if time - b.prior.value > MAX_GAP then
      b.(prior := Some(time), positions := [], pending := [],
         counters := b.counters.(censored := b.counters.censored + |b.positions|,
                                 gapCancelled := b.counters.gapCancelled + |b.pending|))
    else
      var interval := time - b.prior.value;
      b.(prior := Some(time), observed := b.observed + interval,
         exposure := b.exposure + Volume(b.positions) * interval as real)
  }

  function Mark(side: Side, m: Marks): real { if side.Buy? then m.bid else m.ask }

  predicate Exits(p: Position, m: Marks) {
    var mark := Mark(p.side, m);
    (if p.side.Buy? then mark >= p.target || mark <= p.stop else mark <= p.target || mark >= p.stop)
    || m.time - p.openedAt >= HOLD
  }

  function Settle(p: Position, m: Marks, sc: Scenario): Trade {
    var exit := Mark(p.side, m) - Signed(p.side, sc.exitSlippage);
    var closingFee := Fee(exit, p.volume, sc);
    var gross := Signed(p.side, exit - p.entry) * p.volume;
    Trade(gross - p.openingFee - closingFee, p.openingFee + closingFee, gross)
  }

  function Kept(ps: seq<Position>, m: Marks): seq<Position> {
    if ps == [] then []
    else Kept(ps[..|ps| - 1], m) + (if Exits(ps[|ps| - 1], m) then [] else [ps[|ps| - 1]])
  }

  function Settled(ps: seq<Position>, m: Marks, sc: Scenario): seq<Trade> {
    if ps == [] then []
    else Settled(ps[..|ps| - 1], m, sc) + (if Exits(ps[|ps| - 1], m) then [Settle(ps[|ps| - 1], m, sc)] else [])
  }

  function Nets(ts: seq<Trade>): real { if ts == [] then 0.0 else Nets(ts[..|ts| - 1]) + ts[|ts| - 1].net }

  function FeeSum(ts: seq<Trade>): real { if ts == [] then 0.0 else FeeSum(ts[..|ts| - 1]) + ts[|ts| - 1].fees }

  function Gross(ts: seq<Trade>): real { if ts == [] then 0.0 else Gross(ts[..|ts| - 1]) + ts[|ts| - 1].gross }

  function ClosePhase(b: Book, m: Marks, sc: Scenario): Book {
    var closed := Settled(b.positions, m, sc);
    b.(positions := Kept(b.positions, m), trades := b.trades + closed,
       net := b.net + Nets(closed), fees := b.fees + FeeSum(closed))
  }

  function ExpirePhase(b: Book, time: int): Book {
    if b.pending != [] && time >= b.expiry
    then b.(pending := [], counters := b.counters.(expired := b.counters.expired + |b.pending|)) else b
  }

  function CancelPhase(b: Book, time: int): Book {
    if b.cancelAt.Some? && time >= b.cancelAt.value
    then b.(pending := [], cancelAt := None,
            counters := b.counters.(ocoCancelled := b.counters.ocoCancelled + |b.pending|)) else b
  }

  function Executable(side: Side, m: Marks): real { if side.Buy? then m.ask else m.bid }

  predicate LegTriggered(leg: PlanLeg, m: Marks) { Signed(leg.side, Executable(leg.side, m) - leg.entry) >= 0.0 }

  function FillPrice(leg: PlanLeg, m: Marks, sc: Scenario): real {
    Executable(leg.side, m) + Signed(leg.side, sc.entrySlippage)
  }

  predicate Inside(leg: PlanLeg, m: Marks, sc: Scenario) {
    Signed(leg.side, FillPrice(leg, m, sc) - leg.entry) <= LIMIT
  }

  predicate Fills(leg: PlanLeg, m: Marks, sc: Scenario) { LegTriggered(leg, m) && Inside(leg, m, sc) }

  function Opened(leg: PlanLeg, m: Marks, sc: Scenario): Position {
    var fill := FillPrice(leg, m, sc);
    Position(leg.side, fill, fill + Signed(leg.side, leg.target), fill - Signed(leg.side, leg.stop),
             m.time, sc.fillFraction, Fee(fill, sc.fillFraction, sc))
  }

  function Resting(legs: seq<PlanLeg>, m: Marks, sc: Scenario): seq<PlanLeg> {
    if legs == [] then []
    else Resting(legs[..|legs| - 1], m, sc) + (if Fills(legs[|legs| - 1], m, sc) then [] else [legs[|legs| - 1]])
  }

  function Openings(legs: seq<PlanLeg>, m: Marks, sc: Scenario): seq<Position> {
    if legs == [] then []
    else Openings(legs[..|legs| - 1], m, sc)
         + (if Fills(legs[|legs| - 1], m, sc) then [Opened(legs[|legs| - 1], m, sc)] else [])
  }

  function Missed(legs: seq<PlanLeg>, m: Marks, sc: Scenario): nat {
    if legs == [] then 0
    else Missed(legs[..|legs| - 1], m, sc)
         + (if LegTriggered(legs[|legs| - 1], m) && !Inside(legs[|legs| - 1], m, sc) then 1 else 0)
  }

  function FillPhase(b: Book, m: Marks, sc: Scenario): Book {
    var added := Openings(b.pending, m, sc);
    b.(pending := Resting(b.pending, m, sc), positions := b.positions + added,
       cancelAt := if added != [] then Some(m.time + sc.cancelLatency) else b.cancelAt,
       counters := b.counters.(
         fills := b.counters.fills + |added|,
         partialFills := b.counters.partialFills + (if sc.fillFraction < 1.0 then |added| else 0),
         unfilledObservations := b.counters.unfilledObservations + Missed(b.pending, m, sc)))
  }

  function Due(plan: Plan, sc: Scenario): int { MaxInt(plan.available, plan.created + sc.latency) }

  predicate Through(legs: seq<PlanLeg>, m: Marks) {
    exists i :: 0 <= i < |legs| && (if legs[i].side.Buy? then legs[i].entry <= m.ask else legs[i].entry >= m.bid)
  }

  function Consider(b: Book, plan: Plan, m: Marks, sc: Scenario): Book {
    var c := b.counters.(decisions := b.counters.decisions + 1);
    var seen := b.(index := b.index + 1, modelCost := b.modelCost + sc.modelCost, counters := c);
    if b.pending != [] || b.positions != [] then
      seen.(counters := c.(exposureRejections := c.exposureRejections + 1))
    else if m.time >= plan.expires || m.time - Due(plan, sc) > MAX_GAP then
      seen.(counters := c.(staleRejections := c.staleRejections + 1))
    else if Through(plan.legs, m) then
      seen.(counters := c.(entryRejections := c.entryRejections + 1))
    else
      seen.(pending := plan.legs, expiry := plan.expires, latencies := b.latencies + [m.time - plan.created],
            counters := c.(submitted := c.submitted + |plan.legs|))
  }

  function PlanPhase(b: Book, plans: seq<Plan>, m: Marks, sc: Scenario): Book
    decreases |plans| - b.index
  {
    if b.index < |plans| && Due(plans[b.index], sc) <= m.time
    then PlanPhase(Consider(b, plans[b.index], m, sc), plans, m, sc) else b
  }

  function Unrealized(ps: seq<Position>, m: Marks): real {
    if ps == [] then 0.0
    else
      var p := ps[|ps| - 1];
      Unrealized(ps[..|ps| - 1], m) + (Signed(p.side, Mark(p.side, m) - p.entry) * p.volume - p.openingFee)
  }

  function Equity(b: Book, m: Marks): real { b.net + Unrealized(b.positions, m) - b.modelCost }

  function MarkPhase(b: Book, m: Marks): Book {
    var high := Max(b.high, Equity(b, m));
    b.(high := high, drawdown := Max(b.drawdown, high - Equity(b, m)))
  }

  function OnQuote(b: Book, plans: seq<Plan>, q: Quote, sc: Scenario): Book {
    var m := MarksOf(q, sc);
    var closed := ClosePhase(Elapse(b, q.time), m, sc);
    var rested := CancelPhase(ExpirePhase(closed, q.time), q.time);
    MarkPhase(PlanPhase(FillPhase(rested, m, sc), plans, m, sc), m)
  }

  function Run(quotes: seq<Quote>, plans: seq<Plan>, sc: Scenario): Book {
    if quotes == [] then Empty() else OnQuote(Run(quotes[..|quotes| - 1], plans, sc), plans, quotes[|quotes| - 1], sc)
  }

  predicate ScenarioOk(sc: Scenario) {
    0.0 < sc.fillFraction <= 1.0 && sc.latency >= 0 && sc.cancelLatency >= 0 && sc.entrySlippage >= 0.0
    && sc.exitSlippage >= 0.0 && sc.commission >= 0.0 && sc.modelCost >= 0.0 && sc.spreadMultiplier >= 1.0
  }

  predicate PlansOrdered(plans: seq<Plan>) {
    forall i :: 0 <= i < |plans| - 1 ==> plans[i].created <= plans[i + 1].created
  }

  predicate PlansValid(plans: seq<Plan>) {
    forall i :: 0 <= i < |plans| ==> plans[i].created <= plans[i].available < plans[i].expires
  }

  function Evaluate(quotes: seq<Quote>, plans: seq<Plan>, sc: Scenario): Report {
    if !ScenarioOk(sc) then ScenarioInvalid
    else if !PlansOrdered(plans) then PlansNotOrdered
    else if !PlansValid(plans) then PlanValidityInvalid
    else
      var b := Run(quotes, plans, sc);
      Report(b.(counters := b.counters.(censored := b.counters.censored + |b.positions|)))
  }

  // -------------------------------------------------------------- the loops

  // list.remove: drops the first equal element.
  function RemoveFirst<T(==)>(xs: seq<T>, x: T): seq<T> {
    if xs == [] then [] else if xs[0] == x then xs[1..] else [xs[0]] + RemoveFirst(xs[1..], x)
  }

  lemma {:induction false} RemoveMiddle<T>(a: seq<T>, x: T, b: seq<T>)
    requires x !in a
    ensures RemoveFirst(a + [x] + b, x) == a + b
  {
    if a == [] {
      assert a + [x] + b == [x] + b;
    } else {
      assert (a + [x] + b)[1..] == a[1..] + [x] + b;
      RemoveMiddle(a[1..], x, b);
    }
  }

  lemma {:induction false} KeptDoNotExit(ps: seq<Position>, m: Marks)
    ensures forall p :: p in Kept(ps, m) ==> !Exits(p, m)
  {
    if ps != [] { KeptDoNotExit(ps[..|ps| - 1], m); }
  }

  lemma {:induction false} RestingDoNotFill(legs: seq<PlanLeg>, m: Marks, sc: Scenario)
    ensures forall leg :: leg in Resting(legs, m, sc) ==> !Fills(leg, m, sc)
  {
    if legs != [] { RestingDoNotFill(legs[..|legs| - 1], m, sc); }
  }

  lemma SumsAppend(ts: seq<Trade>, t: Trade)
    ensures Nets(ts + [t]) == Nets(ts) + t.net && FeeSum(ts + [t]) == FeeSum(ts) + t.fees
    ensures Gross(ts + [t]) == Gross(ts) + t.gross
  {
    assert (ts + [t])[..|ts|] == ts;
  }

  // The book when the first i positions have been looked at.
  function ClosePrefix(b: Book, i: nat, m: Marks, sc: Scenario): Book
    requires i <= |b.positions|
  {
    var closed := Settled(b.positions[..i], m, sc);
    b.(positions := Kept(b.positions[..i], m) + b.positions[i..], trades := b.trades + closed,
       net := b.net + Nets(closed), fees := b.fees + FeeSum(closed))
  }

  lemma CloseStep(b: Book, i: nat, m: Marks, sc: Scenario)
    requires i < |b.positions|
    ensures var p, before := b.positions[i], ClosePrefix(b, i, m, sc);
            var t := Settle(p, m, sc);
            ClosePrefix(b, i + 1, m, sc) ==
            if Exits(p, m)
            then before.(trades := before.trades + [t], fees := before.fees + t.fees, net := before.net + t.net,
                         positions := RemoveFirst(before.positions, p))
            else before
  {
    var all, p := b.positions, b.positions[i];
    var kept, closed := Kept(all[..i], m), Settled(all[..i], m, sc);
    assert all[..i + 1][..i] == all[..i] && all[i..] == [p] + all[i + 1..];
    assert kept + all[i..] == kept + [p] + all[i + 1..] && closed + [] == closed && kept + [] == kept;
    if Exits(p, m) {
      KeptDoNotExit(all[..i], m);
      RemoveMiddle(kept, p, all[i + 1..]);
      SumsAppend(closed, Settle(p, m, sc));
      assert b.trades + (closed + [Settle(p, m, sc)]) == b.trades + closed + [Settle(p, m, sc)];
    }
  }

  // The book when the first i resting orders have been looked at.
  function FillPrefix(b: Book, i: nat, m: Marks, sc: Scenario): Book
    requires i <= |b.pending|
  {
    var added := Openings(b.pending[..i], m, sc);
    b.(pending := Resting(b.pending[..i], m, sc) + b.pending[i..], positions := b.positions + added,
       counters := b.counters.(
         fills := b.counters.fills + |added|,
         partialFills := b.counters.partialFills + (if sc.fillFraction < 1.0 then |added| else 0),
         unfilledObservations := b.counters.unfilledObservations + Missed(b.pending[..i], m, sc)))
  }

  lemma FillStep(b: Book, i: nat, m: Marks, sc: Scenario)
    requires i < |b.pending|
    ensures var leg, before := b.pending[i], FillPrefix(b, i, m, sc);
            var c := before.counters;
            FillPrefix(b, i + 1, m, sc) ==
            if Fills(leg, m, sc)
            then before.(positions := before.positions + [Opened(leg, m, sc)],
                         pending := RemoveFirst(before.pending, leg),
                         counters := c.(fills := c.fills + 1,
                                        partialFills := c.partialFills + (if sc.fillFraction < 1.0 then 1 else 0)))
            else if LegTriggered(leg, m)
            then before.(counters := c.(unfilledObservations := c.unfilledObservations + 1))
            else before
    ensures Openings(b.pending[..i + 1], m, sc) != []
            <==> Openings(b.pending[..i], m, sc) != [] || Fills(b.pending[i], m, sc)
  {
    hide Opened, LegTriggered, Inside;
    var all, leg := b.pending, b.pending[i];
    var resting, added := Resting(all[..i], m, sc), Openings(all[..i], m, sc);
    assert all[..i + 1][..i] == all[..i] && all[i..] == [leg] + all[i + 1..];
    assert resting + all[i..] == resting + [leg] + all[i + 1..] && added + [] == added && resting + [] == resting;
    if Fills(leg, m, sc) {
      RestingDoNotFill(all[..i], m, sc);
      RemoveMiddle(resting, leg, all[i + 1..]);
      assert b.positions + (added + [Opened(leg, m, sc)]) == b.positions + added + [Opened(leg, m, sc)];
    }
  }

  lemma NothingToFill(m: Marks, sc: Scenario)
    ensures Resting([], m, sc) == [] && Openings([], m, sc) == [] && Missed([], m, sc) == 0
  {
  }

  lemma FillEnds(b: Book, m: Marks, sc: Scenario)
    ensures FillPrefix(b, 0, m, sc) == b && Openings([], m, sc) == []
    ensures FillPrefix(b, |b.pending|, m, sc).cancelAt == b.cancelAt
    ensures FillPhase(b, m, sc) == FillPrefix(b, |b.pending|, m, sc).(
              cancelAt := if Openings(b.pending, m, sc) != [] then Some(m.time + sc.cancelLatency) else b.cancelAt)
  {
    hide Resting, Openings, Missed;
    NothingToFill(m, sc);
    assert b.pending[..|b.pending|] == b.pending && b.pending[..0] == [] && b.pending[0..] == b.pending;
    assert [] + b.pending == b.pending && b.positions + [] == b.positions;
    assert Resting(b.pending, m, sc) + b.pending[|b.pending|..] == Resting(b.pending, m, sc);
  }

  class Desk {
    var book: Book

    constructor ()
      ensures book == Empty()
    {
      book := Empty();
    }

    method CloseHits(m: Marks, sc: Scenario)
      modifies this
      ensures book == ClosePhase(old(book), m, sc)
    {
      var all, i := book.positions, 0;
      assert Kept([], m) + all == all;
      while i < |all|
        invariant 0 <= i <= |all| && all == old(book).positions
        invariant book == ClosePrefix(old(book), i, m, sc)
      {
        var p := all[i];
        CloseStep(old(book), i, m, sc);
        if Exits(p, m) {
          var trade := Settle(p, m, sc);
          book := book.(trades := book.trades + [trade], fees := book.fees + trade.fees, net := book.net + trade.net,
                        positions := RemoveFirst(book.positions, p));
        }
        i := i + 1;
      }
      assert all[..i] == all && Kept(all, m) + all[i..] == Kept(all, m);
    }

    method FillLegs(m: Marks, sc: Scenario)
      modifies this
      ensures book == FillPhase(old(book), m, sc)
    {
      hide FillPrefix, Openings, Opened, FillPrice, Inside, LegTriggered, FillPhase;
      var all, i, filled := book.pending, 0, false;
      FillEnds(book, m, sc);
      while i < |all|
        invariant 0 <= i <= |all| && all == old(book).pending
        invariant filled <==> Openings(all[..i], m, sc) != []
        invariant book == FillPrefix(old(book), i, m, sc)
      {
        var leg, c := all[i], book.counters;
        FillStep(old(book), i, m, sc);
        if LegTriggered(leg, m) && Inside(leg, m, sc) {
          book := book.(
            positions := book.positions + [Opened(leg, m, sc)], pending := RemoveFirst(book.pending, leg),
            counters := c.(fills := c.fills + 1,
                           partialFills := c.partialFills + (if sc.fillFraction < 1.0 then 1 else 0)));
          filled := true;
        } else if LegTriggered(leg, m) {
          book := book.(counters := c.(unfilledObservations := c.unfilledObservations + 1));
        }
        i := i + 1;
      }
      assert all[..i] == all;
      if filled { book := book.(cancelAt := Some(m.time + sc.cancelLatency)); }
    }

    method TakePlans(plans: seq<Plan>, m: Marks, sc: Scenario)
      modifies this
      ensures book == PlanPhase(old(book), plans, m, sc)
    {
      while book.index < |plans| && Due(plans[book.index], sc) <= m.time
        invariant PlanPhase(old(book), plans, m, sc) == PlanPhase(book, plans, m, sc)
        decreases |plans| - book.index
      {
        book := Consider(book, plans[book.index], m, sc);
      }
    }

    method Trade(q: Quote, plans: seq<Plan>, sc: Scenario)
      modifies this
      ensures book == OnQuote(old(book), plans, q, sc)
    {
      hide Elapse, ClosePhase, FillPhase, PlanPhase, MarkPhase, MarksOf;
      var m := MarksOf(q, sc);
      book := Elapse(book, q.time);
      CloseHits(m, sc);
      if book.pending != [] && q.time >= book.expiry {
        book := book.(counters := book.counters.(expired := book.counters.expired + |book.pending|), pending := []);
      }
      if book.cancelAt.Some? && q.time >= book.cancelAt.value {
        book := book.(counters := book.counters.(ocoCancelled := book.counters.ocoCancelled + |book.pending|),
                      pending := [], cancelAt := None);
      }
      FillLegs(m, sc);
      TakePlans(plans, m, sc);
      book := MarkPhase(book, m);
    }
  }

  method EvaluateQuotes(quotes: seq<Quote>, plans: seq<Plan>, sc: Scenario) returns (r: Report)
    ensures r == Evaluate(quotes, plans, sc)
  {
    if !ScenarioOk(sc) { return ScenarioInvalid; }
    if !PlansOrdered(plans) { return PlansNotOrdered; }
    if !PlansValid(plans) { return PlanValidityInvalid; }
    var desk := new Desk();
    for i := 0 to |quotes|
      invariant desk.book == Run(quotes[..i], plans, sc)
    {
      assert quotes[..i + 1][..i] == quotes[..i];
      desk.Trade(quotes[i], plans, sc);
    }
    assert quotes[..|quotes|] == quotes;
    var c := desk.book.counters;
    r := Report(desk.book.(counters := c.(censored := c.censored + |desk.book.positions|)));
  }

  // ------------------------------------------------------------ conservation

  ghost predicate Counted(b: Book) {
    var c := b.counters;
    c.submitted == c.fills + c.expired + c.ocoCancelled + c.gapCancelled + |b.pending|
    && c.fills == |b.trades| + c.censored + |b.positions|
    && c.decisions == c.exposureRejections + c.staleRejections + c.entryRejections + |b.latencies|
    && c.decisions == b.index
  }

  // Cash: the net and the fees are those of the recorded trades, and together
  // they are the trades' gross price result.
  ghost predicate Balanced(b: Book) {
    b.net == Nets(b.trades) && b.fees == FeeSum(b.trades) && b.net + b.fees == Gross(b.trades)
  }

  ghost predicate FromLeg(p: Position, leg: PlanLeg) {
    p.side == leg.side && p.target == p.entry + Signed(leg.side, leg.target)
    && p.stop == p.entry - Signed(leg.side, leg.stop) && Signed(leg.side, p.entry - leg.entry) <= LIMIT
  }

  ghost predicate HasLeg(p: Position, legs: seq<PlanLeg>) { exists leg :: leg in legs && FromLeg(p, leg) }

  // All live orders and positions come from one plan already considered.
  ghost predicate LiveFrom(b: Book, plans: seq<Plan>, n: nat) {
    n < b.index <= |plans| && |b.pending| + |b.positions| <= |plans[n].legs|
    && (forall i :: 0 <= i < |b.pending| ==> b.pending[i] in plans[n].legs)
    && forall i :: 0 <= i < |b.positions| ==> HasLeg(b.positions[i], plans[n].legs)
  }

  ghost predicate OnePlan(b: Book, plans: seq<Plan>) {
    (b.pending == [] && b.positions == []) || exists n: nat :: LiveFrom(b, plans, n)
  }

  ghost predicate Sound(b: Book, plans: seq<Plan>) {
    Counted(b) && Balanced(b) && OnePlan(b, plans) && b.index <= |plans|
    && b.high >= 0.0 && b.drawdown >= 0.0
  }

  lemma {:induction false} CloseSplits(ps: seq<Position>, m: Marks, sc: Scenario)
    ensures |Kept(ps, m)| + |Settled(ps, m, sc)| == |ps|
    ensures Nets(Settled(ps, m, sc)) + FeeSum(Settled(ps, m, sc)) == Gross(Settled(ps, m, sc))
    ensures forall i :: 0 <= i < |Kept(ps, m)| ==> Kept(ps, m)[i] in ps
  {
    if ps != [] {
      var front, last := ps[..|ps| - 1], ps[|ps| - 1];
      CloseSplits(front, m, sc);
      assert Settled(front, m, sc) + [] == Settled(front, m, sc);
      if Exits(last, m) { SumsAppend(Settled(front, m, sc), Settle(last, m, sc)); }
    }
  }

  lemma {:induction false} SumsConcat(a: seq<Trade>, b: seq<Trade>)
    ensures Nets(a + b) == Nets(a) + Nets(b) && FeeSum(a + b) == FeeSum(a) + FeeSum(b)
            && Gross(a + b) == Gross(a) + Gross(b)
  {
    if b == [] {
      assert a + b == a;
    } else {
      assert (a + b)[..|a + b| - 1] == a + b[..|b| - 1];
      SumsConcat(a, b[..|b| - 1]);
    }
  }

  lemma {:induction false} FillSplits(legs: seq<PlanLeg>, m: Marks, sc: Scenario)
    ensures |Resting(legs, m, sc)| + |Openings(legs, m, sc)| == |legs|
    ensures forall i :: 0 <= i < |Resting(legs, m, sc)| ==> Resting(legs, m, sc)[i] in legs
    ensures forall i :: 0 <= i < |Openings(legs, m, sc)| ==> HasLeg(Openings(legs, m, sc)[i], legs)
  {
    if legs != [] {
      var front, last := legs[..|legs| - 1], legs[|legs| - 1];
      FillSplits(front, m, sc);
      if Fills(last, m, sc) { assert FromLeg(Opened(last, m, sc), last); }
      forall i | 0 <= i < |Openings(legs, m, sc)|
        ensures HasLeg(Openings(legs, m, sc)[i], legs)
      {
        if i < |Openings(front, m, sc)| {
          assert HasLeg(Openings(front, m, sc)[i], front);
          var leg :| leg in front && FromLeg(Openings(front, m, sc)[i], leg);
          assert leg in legs;
        } else {
          assert last in legs;
        }
      }
    }
  }

  lemma CloseSound(b: Book, plans: seq<Plan>, m: Marks, sc: Scenario)
    requires Sound(b, plans)
    ensures Sound(ClosePhase(b, m, sc), plans)
  {
    var b' := ClosePhase(b, m, sc);
    CloseSplits(b.positions, m, sc);
    SumsConcat(b.trades, Settled(b.positions, m, sc));
    if !(b.pending == [] && b.positions == []) {
      var n: nat :| LiveFrom(b, plans, n);
      forall i | 0 <= i < |b'.positions| ensures HasLeg(b'.positions[i], plans[n].legs) {
        var j :| 0 <= j < |b.positions| && b.positions[j] == b'.positions[i];
      }
      assert LiveFrom(b', plans, n);
    }
  }

  lemma FillSound(b: Book, plans: seq<Plan>, m: Marks, sc: Scenario)
    requires Sound(b, plans)
    ensures Sound(FillPhase(b, m, sc), plans)
  {
    var b' := FillPhase(b, m, sc);
    FillSplits(b.pending, m, sc);
    if !(b.pending == [] && b.positions == []) {
      var n: nat :| LiveFrom(b, plans, n);
      forall i | 0 <= i < |b'.positions| ensures HasLeg(b'.positions[i], plans[n].legs) {
        if i >= |b.positions| {
          assert HasLeg(Openings(b.pending, m, sc)[i - |b.positions|], b.pending);
          var leg :| leg in b.pending && FromLeg(Openings(b.pending, m, sc)[i - |b.positions|], leg);
          assert leg in plans[n].legs;
        }
      }
      forall i | 0 <= i < |b'.pending| ensures b'.pending[i] in plans[n].legs {
        var j :| 0 <= j < |b.pending| && b.pending[j] == b'.pending[i];
      }
      assert LiveFrom(b', plans, n);
    }
  }

  // Dropping orders or positions leaves what remains with its plan.
  lemma DropSound(b: Book, b': Book, plans: seq<Plan>)
    requires Sound(b, plans) && Counted(b') && Balanced(b') && b'.index == b.index
    requires b'.high >= 0.0 && b'.drawdown >= 0.0
    requires (b'.pending == [] || b'.pending == b.pending) && (b'.positions == [] || b'.positions == b.positions)
    ensures Sound(b', plans)
  {
    if !(b'.pending == [] && b'.positions == []) {
      var n: nat :| LiveFrom(b, plans, n);
      assert LiveFrom(b', plans, n);
    }
  }

  lemma ConsiderSound(b: Book, plans: seq<Plan>, m: Marks, sc: Scenario)
    requires Sound(b, plans) && b.index < |plans|
    ensures Sound(Consider(b, plans[b.index], m, sc), plans)
  {
    var b' := Consider(b, plans[b.index], m, sc);
    if b'.pending != b.pending {
      assert LiveFrom(b', plans, b.index);
    } else if !(b.pending == [] && b.positions == []) {
      var n: nat :| LiveFrom(b, plans, n);
      assert LiveFrom(b', plans, n);
    }
  }

  lemma {:induction false} PlansSound(b: Book, plans: seq<Plan>, m: Marks, sc: Scenario)
    requires Sound(b, plans)
    ensures Sound(PlanPhase(b, plans, m, sc), plans)
    decreases |plans| - b.index
  {
    if b.index < |plans| && Due(plans[b.index], sc) <= m.time {
      ConsiderSound(b, plans, m, sc);
      PlansSound(Consider(b, plans[b.index], m, sc), plans, m, sc);
    }
  }

  lemma ElapseSound(b: Book, plans: seq<Plan>, time: int)
    requires Sound(b, plans)
    ensures Sound(Elapse(b, time), plans)
  {
    hide LiveFrom, Volume;
    DropSound(b, Elapse(b, time), plans);
  }

  lemma ExpireSound(b: Book, plans: seq<Plan>, time: int)
    requires Sound(b, plans)
    ensures Sound(ExpirePhase(b, time), plans)
  {
    hide LiveFrom;
    DropSound(b, ExpirePhase(b, time), plans);
  }

  lemma CancelSound(b: Book, plans: seq<Plan>, time: int)
    requires Sound(b, plans)
    ensures Sound(CancelPhase(b, time), plans)
  {
    hide LiveFrom;
    DropSound(b, CancelPhase(b, time), plans);
  }

  lemma ClearingSound(b: Book, plans: seq<Plan>, time: int)
    requires Sound(b, plans)
    ensures Sound(Elapse(b, time), plans) && Sound(ExpirePhase(b, time), plans) && Sound(CancelPhase(b, time), plans)
  {
    hide *;
    ElapseSound(b, plans, time);
    ExpireSound(b, plans, time);
    CancelSound(b, plans, time);
  }

  lemma MarkSound(b: Book, plans: seq<Plan>, m: Marks)
    requires Sound(b, plans)
    ensures Sound(MarkPhase(b, m), plans)
  {
    hide LiveFrom, Equity;
    DropSound(b, MarkPhase(b, m), plans);
  }

  // One quote keeps every conservation law.
  lemma QuoteSound(b: Book, plans: seq<Plan>, q: Quote, sc: Scenario)
    requires Sound(b, plans)
    ensures Sound(OnQuote(b, plans, q, sc), plans)
  {
    hide Sound, Elapse, ClosePhase, ExpirePhase, CancelPhase, FillPhase, PlanPhase, MarkPhase, MarksOf;
    var m := MarksOf(q, sc);
    ClearingSound(b, plans, q.time);
    CloseSound(Elapse(b, q.time), plans, m, sc);
    var c := ClosePhase(Elapse(b, q.time), m, sc);
    ClearingSound(c, plans, q.time);
    ClearingSound(ExpirePhase(c, q.time), plans, q.time);
    var r := CancelPhase(ExpirePhase(c, q.time), q.time);
    FillSound(r, plans, m, sc);
    PlansSound(FillPhase(r, m, sc), plans, m, sc);
    MarkSound(PlanPhase(FillPhase(r, m, sc), plans, m, sc), plans, m);
  }

  // Main result: conservation in every reachable state.
  lemma {:induction false} AlwaysSound(quotes: seq<Quote>, plans: seq<Plan>, sc: Scenario)
    ensures Sound(Run(quotes, plans, sc), plans)
  {
    if quotes != [] {
      AlwaysSound(quotes[..|quotes| - 1], plans, sc);
      QuoteSound(Run(quotes[..|quotes| - 1], plans, sc), plans, quotes[|quotes| - 1], sc);
    }
  }

  // The report accounts for every order, fill and decision.
  lemma ReportConserves(quotes: seq<Quote>, plans: seq<Plan>, sc: Scenario)
    requires Evaluate(quotes, plans, sc).Report?
    ensures var b := Evaluate(quotes, plans, sc).book;
            var c := b.counters;
            c.submitted == c.fills + c.expired + c.ocoCancelled + c.gapCancelled + |b.pending|
            && c.fills == |b.trades| + c.censored
            && c.decisions == c.exposureRejections + c.staleRejections + c.entryRejections + |b.latencies|
            && b.net + b.fees == Gross(b.trades) && b.net == Nets(b.trades)
  {
    AlwaysSound(quotes, plans, sc);
  }

  // -------------------------------------------------- what a close can be worth

  lemma ScaleUp(a: real, b: real, v: real)
    requires a <= b && v >= 0.0
    ensures a * v <= b * v
  {
    assert (b - a) * v >= 0.0;
  }

  // A stop is booked no better than the stop distance and the slippage, a
  // target no worse than the target less the slippage: closes use the observed
  // price, never the nominal level.
  lemma CloseWorth(p: Position, leg: PlanLeg, m: Marks, sc: Scenario)
    requires FromLeg(p, leg) && p.volume > 0.0 && leg.target > 0.0 && leg.stop > 0.0
    ensures var move := Signed(p.side, Mark(p.side, m) - p.entry);
            (move <= -leg.stop ==> Exits(p, m) && Settle(p, m, sc).gross <= (-leg.stop - sc.exitSlippage) * p.volume)
            && (move >= leg.target
                ==> Exits(p, m) && Settle(p, m, sc).gross >= (leg.target - sc.exitSlippage) * p.volume)
            && (Exits(p, m) && m.time - p.openedAt < HOLD ==> move <= -leg.stop || move >= leg.target)
            && Settle(p, m, sc).net == Settle(p, m, sc).gross - Settle(p, m, sc).fees
  {
    var move := Signed(p.side, Mark(p.side, m) - p.entry);
    assert Settle(p, m, sc).gross == (move - sc.exitSlippage) * p.volume;
    if move <= -leg.stop { ScaleUp(move - sc.exitSlippage, -leg.stop - sc.exitSlippage, p.volume); }
    if move >= leg.target { ScaleUp(leg.target - sc.exitSlippage, move - sc.exitSlippage, p.volume); }
  }

  lemma {:induction false} PlansKeepCancels(b: Book, plans: seq<Plan>, m: Marks, sc: Scenario)
    ensures PlanPhase(b, plans, m, sc).counters.ocoCancelled == b.counters.ocoCancelled
    ensures PlanPhase(b, plans, m, sc).cancelAt == b.cancelAt
    decreases |plans| - b.index
  {
    if b.index < |plans| && Due(plans[b.index], sc) <= m.time {
      PlansKeepCancels(Consider(b, plans[b.index], m, sc), plans, m, sc);
    }
  }

  // What a quote cancels: all resting orders, when the clock has run out and
  // neither a gap nor the expiry has removed them before.
  lemma CancelCount(b: Book, plans: seq<Plan>, q: Quote, sc: Scenario)
    ensures OnQuote(b, plans, q, sc).counters.ocoCancelled
            == b.counters.ocoCancelled
               + (if b.cancelAt.Some? && b.cancelAt.value <= q.time && q.time < b.expiry
                     && (b.prior.Some? ==> q.time - b.prior.value <= MAX_GAP) then |b.pending| else 0)
  {
    var m := MarksOf(q, sc);
    var rested := CancelPhase(ExpirePhase(ClosePhase(Elapse(b, q.time), m, sc), q.time), q.time);
    PlansKeepCancels(FillPhase(rested, m, sc), plans, m, sc);
  }
}
