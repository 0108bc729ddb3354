// One isolated pair with expiry, one-cancels-other cancellation and censoring.
module ExpiryWindow {
  import opened Common
  import opened StreamingBars
  import opened Evaluator

  const OBSERVE := 600_000

  datatype Held = Held(leg: PlanLeg, fill: real, openedAt: int)

  datatype Exit = Exit(held: Held, target: bool, net: real, fee: real, hold: int)

  datatype Censor = MissingPath | OpenAtLimit | PendingAtLimit | FinancingUnknown | RecordingEnded

  // The loop's state; each fate keeps the legs it took.
  datatype Watch = Watch(
    pending: seq<PlanLeg>, triggered: map<Side, int>, positions: seq<Held>, exits: seq<Exit>,
    expired: seq<PlanLeg>, cancelled: seq<PlanLeg>, missed: seq<PlanLeg>,
    triggeredLegs: nat, outside: nat, partial: nat, fills: nat,
    cancelAt: Option<int>, prior: int, fees: real, adverse: real)

  datatype Terms = Terms(start: int, expiry: int, scenario: Scenario, cancelOnMiss: bool)

  datatype Window = Window(watch: Watch, censor: Option<Censor>) | WindowInvalid

  function Begin(legs: seq<PlanLeg>, t: Terms): Watch {
    Watch(legs, map[], [], [], [], [], [], 0, 0, 0, 0, None, t.start, 0.0, 0.0)
  }

  function Delta(h: Held, m: Marks): real { Signed(h.leg.side, Mark(h.leg.side, m) - h.fill) }

  predicate Closes(h: Held, m: Marks) { Delta(h, m) >= h.leg.target || Delta(h, m) <= -h.leg.stop }

  // No overshoot is credited at a target; a stop takes the observed price.
  function ExitRecord(h: Held, m: Marks, sc: Scenario): Exit {
    var hit := Delta(h, m) >= h.leg.target;
    var price := (if hit then h.fill + Signed(h.leg.side, h.leg.target) else Mark(h.leg.side, m))
                 - Signed(h.leg.side, sc.exitSlippage);
    var fee := (h.fill + price) * sc.commission / MILLION * sc.fillFraction;
    Exit(h, hit, Signed(h.leg.side, price - h.fill) * sc.fillFraction - fee, fee, m.time - h.openedAt)
  }

  // One open leg against one quote.
  function ExitOne(w: Watch, h: Held, m: Marks, t: Terms): Watch {
    var w' := w.(adverse := Max(w.adverse, -Delta(h, m) * t.scenario.fillFraction));
    if !Closes(h, m) then w'
    else
      var e := ExitRecord(h, m, t.scenario);
      w'.(fees := w.fees + e.fee, positions := RemoveFirst(w.positions, h), exits := w.exits + [e])
  }

  function ExitAll(w: Watch, held: seq<Held>, i: nat, m: Marks, t: Terms): Watch
    requires i <= |held|
    decreases |held| - i
  {
    if i == |held| then w else ExitAll(ExitOne(w, held[i], m, t), held, i + 1, m, t)
  }

  // One resting leg against one quote: trigger, then fill once the latency has
  // passed and the price is inside the limit.
  function RestOne(w: Watch, leg: PlanLeg, m: Marks, t: Terms): Watch {
    var sc := t.scenario;
    var first := leg.side !in w.triggered && LegTriggered(leg, m);
    var w1 := if first then w.(triggered := w.triggered[leg.side := m.time], triggeredLegs := w.triggeredLegs + 1)
              else w;
    if leg.side !in w1.triggered || m.time < w1.triggered[leg.side] + sc.latency then w1
    else if !Inside(leg, m, sc) then
      if t.cancelOnMiss
      then w1.(outside := w.outside + 1, pending := RemoveFirst(w.pending, leg), missed := w.missed + [leg])
      else w1.(outside := w.outside + 1)
    else
      w1.(positions := w.positions + [Held(leg, FillPrice(leg, m, sc), m.time)], pending := RemoveFirst(w.pending, leg),
          fills := w.fills + 1, partial := w.partial + (if sc.fillFraction < 1.0 then 1 else 0),
          cancelAt := if w.cancelAt.None? then Some(m.time + sc.cancelLatency) else w.cancelAt)
  }

  function RestAll(w: Watch, legs: seq<PlanLeg>, i: nat, m: Marks, t: Terms): Watch
    requires i <= |legs|
    decreases |legs| - i
  {
    if i == |legs| then w else RestAll(RestOne(w, legs[i], m, t), legs, i + 1, m, t)
  }

  function Clear(w: Watch, time: int, t: Terms): Watch {
    var w1 := if time >= t.expiry then w.(pending := [], expired := w.expired + w.pending) else w;
    if w1.cancelAt.Some? && time >= w1.cancelAt.value
    then w1.(pending := [], cancelled := w1.cancelled + w1.pending) else w1
  }

  function CensorAt(w: Watch, time: int, t: Terms): Option<Censor> {
    if time - w.prior > MAX_GAP then Some(MissingPath)
    else if time >= t.expiry + OBSERVE
            || exists i :: 0 <= i < |w.positions| && time - w.positions[i].openedAt >= OBSERVE
    then Some(if w.positions != [] then OpenAtLimit else PendingAtLimit)
    else if time / DAY != t.start / DAY then Some(FinancingUnknown)
    else None
  }

  function OnQuote(w: Watch, q: Quote, t: Terms): Watch {
    var m := MarksOf(q, t.scenario);
    var cleared := Clear(w.(prior := q.time), q.time, t);
    var exited := ExitAll(cleared, cleared.positions, 0, m, t);
    RestAll(exited, exited.pending, 0, m, t)
  }

  predicate Live(w: Watch) { w.pending != [] || w.positions != [] }

  function WatchFrom(quotes: seq<Quote>, k: nat, w: Watch, t: Terms): Window
    requires k <= |quotes|
    decreases |quotes| - k
  {
    if k == |quotes| then Window(w, if Live(w) then Some(RecordingEnded) else None)
    else if quotes[k].time < t.start then WatchFrom(quotes, k + 1, w, t)
    else if CensorAt(w, quotes[k].time, t).Some? then Window(w, CensorAt(w, quotes[k].time, t))
    else
      var w' := OnQuote(w, quotes[k], t);
      if Live(w') then WatchFrom(quotes, k + 1, w', t) else Window(w', None)
  }

  predicate TermsOk(lifetime: int, sc: Scenario) {
    0 < lifetime <= 900_000 && sc.latency >= 0 && sc.cancelLatency >= 0 && 0.0 < sc.fillFraction <= 1.0
    && sc.entrySlippage >= 0.0 && sc.exitSlippage >= 0.0 && sc.commission >= 0.0 && sc.spreadMultiplier >= 1.0
  }

  function TermsOf(
      plan: Plan, decisionAt: int, mapExpires: int, lifetime: int, respectMap: bool, sc: Scenario,
      cancelOnMiss: bool): Terms {
    var expiry := if respectMap then MinInt(decisionAt + lifetime, mapExpires) else decisionAt + lifetime;
    Terms(plan.available, expiry, sc, cancelOnMiss)
  }

  // The body of the loop: clearing, then the open legs, then the resting ones.
  method TakeQuote(was: Watch, q: Quote, t: Terms) returns (w: Watch)
    ensures w == OnQuote(was, q, t)
  {
    hide MarksOf, ExitOne, RestOne;
    var m := MarksOf(q, t.scenario);
    w := was.(prior := q.time);
    if q.time >= t.expiry { w := w.(expired := w.expired + w.pending, pending := []); }
    if w.cancelAt.Some? && q.time >= w.cancelAt.value { w := w.(cancelled := w.cancelled + w.pending, pending := []); }
    var held, i := w.positions, 0;
    ghost var cleared := w;
    while i < |held|
      invariant 0 <= i <= |held| && ExitAll(cleared, held, 0, m, t) == ExitAll(w, held, i, m, t)
    {
      w := ExitOne(w, held[i], m, t);
      i := i + 1;
    }
    var legs, j := w.pending, 0;
    ghost var exited := w;
    while j < |legs|
      invariant 0 <= j <= |legs| && RestAll(exited, legs, 0, m, t) == RestAll(w, legs, j, m, t)
    {
      w := RestOne(w, legs[j], m, t);
      j := j + 1;
    }
  }

  method ObserveWindow(
    quotes: seq<Quote>, plan: Plan, decisionAt: int, mapExpires: int, lifetime: int, respectMap: bool, sc: Scenario,
    cancelOnMiss: bool) returns (r: Window)
    ensures r == if !TermsOk(lifetime, sc) then WindowInvalid
                 else var t := TermsOf(plan, decisionAt, mapExpires, lifetime, respectMap, sc, cancelOnMiss);
                      WatchFrom(quotes, 0, Begin(plan.legs, t), t)
  {
    hide OnQuote;
    if !TermsOk(lifetime, sc) { return WindowInvalid; }
    var expiry := decisionAt + lifetime;
    if respectMap { expiry := MinInt(expiry, mapExpires); }
    var t := Terms(plan.available, expiry, sc, cancelOnMiss);
    var w := Begin(plan.legs, t);
    ghost var begun := w;
    var k := 0;
    while k < |quotes|
      invariant 0 <= k <= |quotes| && WatchFrom(quotes, 0, begun, t) == WatchFrom(quotes, k, w, t)
    {
      var q := quotes[k];
      k := k + 1;
      if q.time < t.start { continue; }
      if q.time - w.prior > MAX_GAP { return Window(w, Some(MissingPath)); }
      if q.time >= expiry + OBSERVE
         || exists i :: 0 <= i < |w.positions| && q.time - w.positions[i].openedAt >= OBSERVE {
        return Window(w, Some(if w.positions != [] then OpenAtLimit else PendingAtLimit));
      }
      if q.time / DAY != t.start / DAY { return Window(w, Some(FinancingUnknown)); }
      w := TakeQuote(w, q, t);
      if w.pending == [] && w.positions == [] { return Window(w, None); }
    }
    return Window(w, if w.pending != [] || w.positions != [] then Some(RecordingEnded) else None);
  }

  // ------------------------------------------------------------- conservation

  function HeldLegs(hs: seq<Held>): seq<PlanLeg> { seq(|hs|, i requires 0 <= i < |hs| => hs[i].leg) }

  function ExitLegs(es: seq<Exit>): seq<PlanLeg> { seq(|es|, i requires 0 <= i < |es| => es[i].held.leg) }

  function ExitFees(es: seq<Exit>): real {
    if es == [] then 0.0 else ExitFees(es[..|es| - 1]) + es[|es| - 1].fee
  }

  // Every leg is in exactly one place.
  ghost predicate Placed(w: Watch, legs: seq<PlanLeg>) {
    multiset(legs) == multiset(w.pending) + multiset(HeldLegs(w.positions)) + multiset(ExitLegs(w.exits))
                      + multiset(w.expired) + multiset(w.cancelled) + multiset(w.missed)
    && w.fills == |w.positions| + |w.exits|
  }

  // How a leg came to be held: before expiry, at least the latency after its
  // trigger, inside the limit, and no later than the cancellation of its peer.
  ghost predicate HeldOk(triggered: map<Side, int>, cancelAt: Option<int>, h: Held, t: Terms) {
    h.openedAt < t.expiry && h.leg.side in triggered && triggered[h.leg.side] + t.scenario.latency <= h.openedAt
    && Signed(h.leg.side, h.fill - h.leg.entry) <= LIMIT
    && cancelAt.Some? && h.openedAt <= cancelAt.value
  }

  ghost predicate AllHeld(triggered: map<Side, int>, cancelAt: Option<int>, hs: seq<Held>, t: Terms) {
    forall i :: 0 <= i < |hs| ==> HeldOk(triggered, cancelAt, hs[i], t)
  }

  ghost predicate AllExits(triggered: map<Side, int>, cancelAt: Option<int>, es: seq<Exit>, t: Terms) {
    forall i :: 0 <= i < |es| ==> HeldOk(triggered, cancelAt, es[i].held, t) && ExitOk(es[i], t)
  }

  // What a close is worth: a target nets exactly the target less slippage and
  // fees, scaled by the fill fraction; a stop nets no more than the stop does.
  ghost predicate ExitOk(e: Exit, t: Terms) {
    var sc := t.scenario;
    (e.target ==> e.net == (e.held.leg.target - sc.exitSlippage) * sc.fillFraction - e.fee)
    && (!e.target ==> e.net <= (-e.held.leg.stop - sc.exitSlippage) * sc.fillFraction - e.fee)
  }

  ghost predicate Sound(w: Watch, legs: seq<PlanLeg>, t: Terms) {
    Placed(w, legs) && w.fees == ExitFees(w.exits)
    && AllHeld(w.triggered, w.cancelAt, w.positions, t) && AllExits(w.triggered, w.cancelAt, w.exits, t)
  }

  lemma {:induction false} RemoveOne<T>(xs: seq<T>, x: T)
    requires x in xs
    ensures multiset(RemoveFirst(xs, x)) == multiset(xs) - multiset{x}
    ensures forall y :: y in RemoveFirst(xs, x) ==> y in xs
  {
    assert xs == [xs[0]] + xs[1..];
    if xs[0] != x { RemoveOne(xs[1..], x); }
  }

  lemma {:induction false} HeldLegsRemove(hs: seq<Held>, h: Held)
    requires h in hs
    ensures multiset(HeldLegs(RemoveFirst(hs, h))) == multiset(HeldLegs(hs)) - multiset{h.leg}
    ensures |RemoveFirst(hs, h)| == |hs| - 1
  {
    assert hs == [hs[0]] + hs[1..];
    assert HeldLegs(hs) == [hs[0].leg] + HeldLegs(hs[1..]);
    if hs[0] != h {
      HeldLegsRemove(hs[1..], h);
      var k :| 0 <= k < |hs| && hs[k] == h;
      assert HeldLegs(hs[1..])[k - 1] == h.leg;
      assert HeldLegs([hs[0]] + RemoveFirst(hs[1..], h)) == [hs[0].leg] + HeldLegs(RemoveFirst(hs[1..], h));
    }
  }

  lemma ScaleDown(a: real, b: real, f: real)
    requires a <= b && f >= 0.0
    ensures a * f <= b * f
  {
    assert (b - a) * f >= 0.0;
  }

  lemma ExitWorth(h: Held, m: Marks, t: Terms)
    requires Closes(h, m) && t.scenario.fillFraction > 0.0
    ensures ExitOk(ExitRecord(h, m, t.scenario), t)
  {
    var e := ExitRecord(h, m, t.scenario);
    var worth := if e.target then h.leg.target else Delta(h, m);
    assert e.net == (worth - t.scenario.exitSlippage) * t.scenario.fillFraction - e.fee;
    ScaleDown(Delta(h, m) - t.scenario.exitSlippage,
              if e.target then Delta(h, m) - t.scenario.exitSlippage else -h.leg.stop - t.scenario.exitSlippage,
              t.scenario.fillFraction);
  }

  lemma ExitPlaced(w: Watch, h: Held, m: Marks, legs: seq<PlanLeg>, t: Terms)
    requires Placed(w, legs) && h in w.positions
    ensures Placed(ExitOne(w, h, m, t), legs)
  {
    hide Delta;
    var w' := ExitOne(w, h, m, t);
    HeldLegsRemove(w.positions, h);
    if Closes(h, m) {
      assert ExitLegs(w'.exits) == ExitLegs(w.exits) + [h.leg];
      assert h.leg in HeldLegs(w.positions) by {
        var k :| 0 <= k < |w.positions| && w.positions[k] == h;
        assert HeldLegs(w.positions)[k] == h.leg;
      }
    }
  }

  lemma ExitOneSound(w: Watch, h: Held, m: Marks, legs: seq<PlanLeg>, t: Terms)
    requires Sound(w, legs, t) && h in w.positions && t.scenario.fillFraction > 0.0
    ensures Sound(ExitOne(w, h, m, t), legs, t)
    ensures ExitOne(w, h, m, t).pending == w.pending
  {
    ExitPlaced(w, h, m, legs, t);
    if Closes(h, m) { ExitWorth(h, m, t); }
    RemoveOne(w.positions, h);
    var e := ExitRecord(h, m, t.scenario);
    assert (w.exits + [e])[..|w.exits|] == w.exits && e.held == h;
    hide Placed, ExitOk, ExitRecord, Delta, Closes;
    var w' := ExitOne(w, h, m, t);
    forall i | 0 <= i < |w'.positions| ensures HeldOk(w'.triggered, w'.cancelAt, w'.positions[i], t) {
      assert w'.positions[i] in w.positions;
    }
  }

  lemma {:induction false} ExitAllSound(w: Watch, held: seq<Held>, i: nat, m: Marks, legs: seq<PlanLeg>, t: Terms)
    requires i <= |held| && Sound(w, legs, t) && multiset(held[i..]) <= multiset(w.positions)
             && t.scenario.fillFraction > 0.0
    ensures Sound(ExitAll(w, held, i, m, t), legs, t) && ExitAll(w, held, i, m, t).pending == w.pending
    decreases |held| - i
  {
    if i < |held| {
      var h := held[i];
      assert held[i..] == [h] + held[i + 1..];
      assert h in multiset(held[i..]);
      ExitOneSound(w, h, m, legs, t);
      RemoveOne(w.positions, h);
      ExitAllSound(ExitOne(w, h, m, t), held, i + 1, m, legs, t);
    }
  }

  lemma InsideMeans(leg: PlanLeg, m: Marks, sc: Scenario)
    ensures Inside(leg, m, sc) <==> Signed(leg.side, FillPrice(leg, m, sc) - leg.entry) <= LIMIT
  {
  }

  // A resting leg stays, is dropped as missed, or becomes the newest position.
  lemma RestShapes(w: Watch, leg: PlanLeg, m: Marks, t: Terms)
    ensures var w' := RestOne(w, leg, m, t);
            w'.exits == w.exits && w'.expired == w.expired && w'.cancelled == w.cancelled
            && ((w'.pending == w.pending && w'.positions == w.positions && w'.missed == w.missed && w'.fills == w.fills)
                || (w'.pending == RemoveFirst(w.pending, leg) && w'.positions == w.positions
                    && w'.missed == w.missed + [leg] && w'.fills == w.fills)
                || (w'.pending == RemoveFirst(w.pending, leg) && w'.missed == w.missed && w'.fills == w.fills + 1
                    && w'.positions == w.positions + [Held(leg, FillPrice(leg, m, t.scenario), m.time)]))
  {
    hide FillPrice, LegTriggered, Inside, RemoveFirst;
  }

  lemma RestPlaced(w: Watch, leg: PlanLeg, m: Marks, legs: seq<PlanLeg>, t: Terms)
    requires Placed(w, legs) && leg in w.pending
    ensures Placed(RestOne(w, leg, m, t), legs)
  {
    RestShapes(w, leg, m, t);
    RemoveOne(w.pending, leg);
    var w' := RestOne(w, leg, m, t);
    var h := Held(leg, FillPrice(leg, m, t.scenario), m.time);
    assert HeldLegs(w.positions + [h]) == HeldLegs(w.positions) + [leg];
    hide RestOne, RemoveFirst, FillPrice, HeldLegs, ExitLegs;
  }

  // Resting changes no record already made: legs held stay held on the same terms.
  lemma RestKeeps(w: Watch, leg: PlanLeg, m: Marks, t: Terms)
    requires AllHeld(w.triggered, w.cancelAt, w.positions, t) && AllExits(w.triggered, w.cancelAt, w.exits, t)
    ensures var w' := RestOne(w, leg, m, t);
            AllHeld(w'.triggered, w'.cancelAt, w.positions, t) && AllExits(w'.triggered, w'.cancelAt, w.exits, t)
            && w'.exits == w.exits && w'.fees == w.fees
            && (w'.pending == w.pending || w'.pending == RemoveFirst(w.pending, leg))
  {
    hide FillPrice, LegTriggered, Inside, ExitOk, RemoveFirst, Signed;
    var w' := RestOne(w, leg, m, t);
    assert forall s :: s in w.triggered ==> s in w'.triggered && w'.triggered[s] == w.triggered[s];
    assert w.cancelAt.Some? ==> w'.cancelAt == w.cancelAt;
  }

  // A leg that fills now is held on the terms the plan set.
  lemma RestFills(w: Watch, leg: PlanLeg, m: Marks, t: Terms)
    requires m.time < t.expiry && t.scenario.cancelLatency >= 0
    requires w.cancelAt.Some? ==> m.time < w.cancelAt.value || w.cancelAt.value == m.time + t.scenario.cancelLatency
    ensures var w' := RestOne(w, leg, m, t);
            (w'.cancelAt.Some? ==> m.time < w'.cancelAt.value || w'.cancelAt.value == m.time + t.scenario.cancelLatency)
            && (w'.positions == w.positions
                || (|w'.positions| == |w.positions| + 1 && w'.positions == w.positions + [w'.positions[|w.positions|]]
                    && HeldOk(w'.triggered, w'.cancelAt, w'.positions[|w.positions|], t)))
  {
    InsideMeans(leg, m, t.scenario);
    hide FillPrice, LegTriggered, Inside, RemoveFirst, Signed;
  }

  lemma RestOneSound(w: Watch, leg: PlanLeg, m: Marks, legs: seq<PlanLeg>, t: Terms)
    requires Sound(w, legs, t) && leg in w.pending && m.time < t.expiry && t.scenario.cancelLatency >= 0
    requires w.cancelAt.Some? ==> m.time < w.cancelAt.value || w.cancelAt.value == m.time + t.scenario.cancelLatency
    ensures var w' := RestOne(w, leg, m, t);
            Sound(w', legs, t) && (w'.pending == w.pending || w'.pending == RemoveFirst(w.pending, leg))
            && (w'.cancelAt.Some?
                ==> m.time < w'.cancelAt.value || w'.cancelAt.value == m.time + t.scenario.cancelLatency)
  {
    RestPlaced(w, leg, m, legs, t);
    RestKeeps(w, leg, m, t);
    RestFills(w, leg, m, t);
    var w' := RestOne(w, leg, m, t);
    hide RestOne, Placed, HeldOk, ExitOk;
    if w'.positions != w.positions { assert w'.positions == w.positions + [w'.positions[|w.positions|]]; }
  }

  lemma {:induction false} RestAllSound(w: Watch, rest: seq<PlanLeg>, i: nat, m: Marks, legs: seq<PlanLeg>, t: Terms)
    requires i <= |rest| && Sound(w, legs, t) && multiset(rest[i..]) <= multiset(w.pending)
             && t.scenario.cancelLatency >= 0
    requires m.time < t.expiry || rest == []
    requires w.cancelAt.Some?
             ==> m.time < w.cancelAt.value || w.cancelAt.value == m.time + t.scenario.cancelLatency || rest == []
    ensures Sound(RestAll(w, rest, i, m, t), legs, t)
    decreases |rest| - i
  {
    hide RestOne, Sound;
    if i < |rest| {
      var leg := rest[i];
      assert rest[i..] == [leg] + rest[i + 1..];
      assert leg in multiset(rest[i..]);
      RestOneSound(w, leg, m, legs, t);
      RemoveOne(w.pending, leg);
      RestAllSound(RestOne(w, leg, m, t), rest, i + 1, m, legs, t);
    }
  }

  lemma ClearPlaced(w: Watch, time: int, legs: seq<PlanLeg>, t: Terms)
    requires Placed(w, legs)
    ensures Placed(Clear(w, time, t), legs)
  {
    hide HeldLegs, ExitLegs;
  }

  lemma ClearSound(w: Watch, time: int, legs: seq<PlanLeg>, t: Terms)
    requires Sound(w, legs, t)
    ensures Sound(Clear(w.(prior := time), time, t), legs, t)
  {
    var w' := w.(prior := time);
    assert Placed(w', legs) by { hide HeldLegs, ExitLegs; }
    ClearPlaced(w', time, legs, t);
    hide Placed, AllHeld, AllExits;
  }

  lemma QuoteSound(w: Watch, q: Quote, legs: seq<PlanLeg>, t: Terms)
    requires Sound(w, legs, t) && t.scenario.fillFraction > 0.0 && t.scenario.cancelLatency >= 0
    ensures Sound(OnQuote(w, q, t), legs, t)
  {
    hide MarksOf, ExitAll, RestAll, Sound;
    var m := MarksOf(q, t.scenario);
    MarksTime(q, t.scenario);
    ClearSound(w, q.time, legs, t);
    var cleared := Clear(w.(prior := q.time), q.time, t);
    assert cleared.positions[0..] == cleared.positions;
    ExitAllSound(cleared, cleared.positions, 0, m, legs, t);
    ExitAllKeepsClock(cleared, cleared.positions, 0, m, t);
    var exited := ExitAll(cleared, cleared.positions, 0, m, t);
    assert exited.pending[0..] == exited.pending;
    RestAllSound(exited, exited.pending, 0, m, legs, t);
  }

  lemma MarksTime(q: Quote, sc: Scenario)
    ensures MarksOf(q, sc).time == q.time
  {
  }

  lemma {:induction false} ExitAllKeepsClock(w: Watch, held: seq<Held>, i: nat, m: Marks, t: Terms)
    requires i <= |held|
    ensures ExitAll(w, held, i, m, t).cancelAt == w.cancelAt
    decreases |held| - i
  {
    if i < |held| { ExitAllKeepsClock(ExitOne(w, held[i], m, t), held, i + 1, m, t); }
  }

  // Main result: in the window reported every leg has exactly one fate, fills
  // respect expiry, latency, limit and cancellation, closes are worth what the
  // terms say, and the window is uncensored exactly when nothing is left live.
  lemma {:induction false} WindowSound(quotes: seq<Quote>, k: nat, w: Watch, legs: seq<PlanLeg>, t: Terms)
    requires k <= |quotes| && Sound(w, legs, t) && Live(w) && t.scenario.fillFraction > 0.0
             && t.scenario.cancelLatency >= 0
    ensures var r := WatchFrom(quotes, k, w, t);
            r.Window? && Sound(r.watch, legs, t) && (r.censor.None? <==> !Live(r.watch))
    decreases |quotes| - k
  {
    hide Sound, OnQuote, CensorAt;
    if k < |quotes| {
      QuoteSound(w, quotes[k], legs, t);
      if quotes[k].time < t.start {
        WindowSound(quotes, k + 1, w, legs, t);
      } else if CensorAt(w, quotes[k].time, t).None? && Live(OnQuote(w, quotes[k], t)) {
        WindowSound(quotes, k + 1, OnQuote(w, quotes[k], t), legs, t);
      }
    }
  }

  lemma EveryWindowSound(quotes: seq<Quote>, legs: seq<PlanLeg>, t: Terms)
    requires legs != [] && t.scenario.fillFraction > 0.0 && t.scenario.cancelLatency >= 0
    ensures var r := WatchFrom(quotes, 0, Begin(legs, t), t);
            r.Window? && Sound(r.watch, legs, t) && (r.censor.None? <==> !Live(r.watch))
  {
    WindowSound(quotes, 0, Begin(legs, t), legs, t);
  }
}
