// Plan candidates from sampled quotes: a streaming builder of completed minute
// bars, proved equal to a batch definition that looks back over the tape.
module StreamingBars {
  import opened Common

  const MINUTE := 60_000
  const MAX_GAP := 3_000

  datatype Quote = Quote(time: int, bid: real, ask: real) {
    function Mid(): real { (bid + ask) / 2.0 }
    function MinuteOf(): int { time / MINUTE }
    function Offset(): int { time % MINUTE }
  }

  datatype Bar = Bar(minute: int, open: real, high: real, low: real, close: real)

  datatype PlanLeg = PlanLeg(side: Side, entry: real, target: real, stop: real)

  datatype Plan = Plan(created: int, available: int, expires: int, legs: seq<PlanLeg>)

  // Quotes as a recording yields them: strictly ordered epoch times.
  ghost predicate Ordered(qs: seq<Quote>) {
    (forall i :: 0 <= i < |qs| ==> qs[i].time >= 0)
    && forall i, j :: 0 <= i < j < |qs| ==> qs[i].time < qs[j].time
  }

  // --------------------------------------------------------- batch definition

  // The mids observed in a minute, in order.
  function Mids(qs: seq<Quote>, m: int): seq<real> {
    if qs == [] then []
    else Mids(qs[..|qs| - 1], m) + (if qs[|qs| - 1].MinuteOf() == m then [qs[|qs| - 1].Mid()] else [])
  }

  // The bar of a minute: first, highest, lowest and last mid observed in it.
  function BarOf(qs: seq<Quote>, m: int): Bar {
    var xs := Mids(qs, m);
    if xs == [] then Bar(m, 0.0, 0.0, 0.0, 0.0) else Bar(m, xs[0], Highest(xs), Lowest(xs), xs[|xs| - 1])
  }

  ghost predicate GapFree(qs: seq<Quote>, s: int) {
    forall i, j :: 0 <= i && s <= i && j == i + 1 < |qs| ==> qs[j].time - qs[i].time <= MAX_GAP
  }

  // From the first quote of the minute k minutes back, which comes within the
  // gap limit of its start, no gap up to now.
  ghost predicate CoveredFrom(qs: seq<Quote>, k: int, s: int) {
    0 <= s < |qs| && qs[s].MinuteOf() == qs[|qs| - 1].MinuteOf() - k
    && (s == 0 || qs[s - 1].MinuteOf() < qs[s].MinuteOf())
    && qs[s].Offset() <= MAX_GAP
    && GapFree(qs, s)
  }

  ghost predicate Covered(qs: seq<Quote>, k: int) { exists s :: CoveredFrom(qs, k, s) }

  // Five fully observed minutes right before the current one.
  ghost predicate Ready(qs: seq<Quote>) { qs != [] && Covered(qs, 5) }

  // The cadence slot of the last ready quote, -1 when there is none.
  ghost function LastSlot(qs: seq<Quote>, cadence: int): int
    requires cadence > 0
  {
    if qs == [] then -1
    else if Ready(qs) then qs[|qs| - 1].time / cadence
    else LastSlot(qs[..|qs| - 1], cadence)
  }

  ghost function LastBars(qs: seq<Quote>): seq<Bar>
    requires qs != []
  {
    var b := qs[|qs| - 1].MinuteOf();
    seq(5, j requires 0 <= j < 5 => BarOf(qs, b - 5 + j))
  }

  function CeilCent(x: real): real { -((-x * 100.0).Floor as real) / 100.0 }

  function FloorCent(x: real): real { (x * 100.0).Floor as real / 100.0 }

  predicate Rollover(time: int) { (time / MINUTE) % 1440 >= 1435 }

  function MeanRange(bars: seq<Bar>): real
    requires |bars| == 5
  {
    ((bars[0].high - bars[0].low) + (bars[1].high - bars[1].low) + (bars[2].high - bars[2].low)
     + (bars[3].high - bars[3].low) + (bars[4].high - bars[4].low)) / 5.0
  }

  // The plan, if any, the frozen rule makes of five bars and the quote.
  function PlanFor(bars: seq<Bar>, q: Quote, directional: bool, ratio: real): Option<Plan>
    requires |bars| == 5 && ratio > 0.0
  {
    var range := MeanRange(bars);
    if Rollover(q.time) then None
    else if range <= 0.0 || q.ask - q.bid > 0.10 || (q.ask - q.bid) / range > 0.10 then None
    else
      var buffer := Max(0.10, range * 0.25);
      var target := CeilCent(Max(0.60, range * 0.25));
      var stop := target / ratio;
      if stop > 10.0 then None
      else
        var buy := PlanLeg(Buy, CeilCent(q.ask + buffer), target, stop);
        var sell := PlanLeg(Sell, FloorCent(q.bid - buffer), target, stop);
        var legs := if !directional then [buy, sell]
                    else if bars[4].close > bars[0].close then [buy]
                    else if bars[4].close < bars[0].close then [sell] else [];
        if legs == [] then None else Some(Plan(q.time, q.time, q.time + MINUTE, legs))
  }

  // What the last quote of a tape decides, by looking back.
  ghost function PlanAt(qs: seq<Quote>, cadence: int, directional: bool, ratio: real): seq<Plan>
    requires qs != [] && cadence > 0 && ratio > 0.0
  {
    var q := qs[|qs| - 1];
    if Ready(qs) && q.time / cadence != LastSlot(qs[..|qs| - 1], cadence)
    then Planned(LastBars(qs), q, directional, ratio) else []
  }

  ghost function BatchPlans(qs: seq<Quote>, cadence: int, directional: bool, ratio: real): seq<Plan>
    requires cadence > 0 && ratio > 0.0
  {
    if qs == [] then []
    else
      BatchPlans(qs[..|qs| - 1], cadence, directional, ratio) + PlanAt(qs, cadence, directional, ratio)
  }

  function Planned(bars: seq<Bar>, q: Quote, directional: bool, ratio: real): seq<Plan>
    requires |bars| == 5 && ratio > 0.0
  {
    var plan := PlanFor(bars, q, directional, ratio);
    if plan.Some? then [plan.value] else []
  }

  // --------------------------------------------------------- streaming builder

  function LastMinute(p: seq<Quote>): Option<int> { if p == [] then None else Some(p[|p| - 1].MinuteOf()) }

  function LastTime(p: seq<Quote>): Option<int> { if p == [] then None else Some(p[|p| - 1].time) }

  ghost predicate TracksForming(p: seq<Quote>, forming: Option<Bar>) {
    forming.Some? ==> p != [] && forming.value == BarOf(p, p[|p| - 1].MinuteOf())
  }

  ghost predicate TracksCount(p: seq<Quote>, count: nat, whole: bool) {
    count <= 20 && (count > 0 ==> whole)
    && (p == [] ==> count == 0 && !whole)
    && (p != [] ==> (whole <==> Covered(p, 0)) && forall k :: 1 <= k <= 20 ==> (count >= k <==> Covered(p, k)))
  }

  ghost predicate TracksBars(p: seq<Quote>, completed: seq<Bar>) {
    p != [] ==> forall j :: 0 <= j < |completed| ==> completed[j] == BarOf(p, p[|p| - 1].MinuteOf() - |completed| + j)
  }

  // What the streaming state means for the tape read so far.
  ghost predicate Tracks(p: seq<Quote>, completed: seq<Bar>, forming: Option<Bar>, full: bool) {
    TracksForming(p, forming) && TracksCount(p, |completed|, full && forming.Some?) && TracksBars(p, completed)
  }

  method Candidates(quotes: seq<Quote>, cadence: int, directional: bool, ratio: real) returns (plans: seq<Plan>)
    requires Ordered(quotes) && cadence > 0 && ratio > 0.0
    ensures plans == BatchPlans(quotes, cadence, directional, ratio)
  {
    hide Covered, BarOf, PlanFor, TracksForming, TracksCount, TracksBars, BatchPlans, LastSlot;
    var completed: seq<Bar> := [];
    var bucket: Option<int>, forming: Option<Bar>, previous: Option<int> := None, None, None;
    var lastDecision, full := -1, false;
    plans := [];
    StartTracks(cadence, directional, ratio);
    var i := 0;
    while i < |quotes|
      invariant 0 <= i <= |quotes|
      invariant bucket == LastMinute(quotes[..i]) && previous == LastTime(quotes[..i])
      invariant i == 0 ==> forming.None?
      invariant Tracks(quotes[..i], completed, forming, full)
      invariant |completed| <= 20
      invariant lastDecision == LastSlot(quotes[..i], cadence)
      invariant plans == BatchPlans(quotes[..i], cadence, directional, ratio)
    {
      var q := quotes[i];
      ghost var p, completed0, forming0, full0 := quotes[..i], completed, forming, full;
      if previous.Some? && q.time - previous.value > MAX_GAP {
        forming, full, completed := None, false, [];
      }
      previous := Some(q.time);
      var current := q.MinuteOf();
      if bucket != Some(current) {
        if forming.Some? && full && bucket.Some? && current == bucket.value + 1 {
          completed := completed + [forming.value];
          if |completed| > 20 { completed := completed[1..]; }
        }
        forming := Some(Bar(current, q.Mid(), q.Mid(), q.Mid(), q.Mid()));
        bucket := Some(current);
        full := q.Offset() <= MAX_GAP;
      } else if forming.Some? {
        var f := forming.value;
        forming := Some(Bar(current, f.open, Max(f.high, q.Mid()), Min(f.low, q.Mid()), q.Mid()));
      }
      assert quotes[..i + 1] == p + [q] && (p + [q])[|p|] == q;
      StepTracks(p, q, completed0, forming0, full0, completed, forming, full);
      DecisionAgrees(p, q, completed, forming, full, cadence, directional, ratio);
      i := i + 1;
      var decision := q.time / cadence;
      if decision != lastDecision && |completed| >= 5 {
        lastDecision := decision;
        var plan := PlanFor(completed[|completed| - 5..], q, directional, ratio);
        if plan.Some? { plans := plans + [plan.value]; }
      }
    }
    assert quotes[..i] == quotes;
  }

  lemma StartTracks(cadence: int, directional: bool, ratio: real)
    requires cadence > 0 && ratio > 0.0
    ensures Tracks([], [], None, false) && LastSlot([], cadence) == -1
            && BatchPlans([], cadence, directional, ratio) == []
  {
  }

  // The bookkeeping of one quote, apart from the decision it may take.
  ghost predicate StepTo(
    p: seq<Quote>, q: Quote, completed: seq<Bar>, forming: Option<Bar>, full: bool,
    completed': seq<Bar>, forming': Option<Bar>, full': bool)
  {
    var b := if p == [] then None else Some(p[|p| - 1].MinuteOf());
    var gap := p != [] && q.time - p[|p| - 1].time > MAX_GAP;
    var c := if gap then [] else completed;
    var f := if gap then None else forming;
    var m := q.MinuteOf();
    if b != Some(m) then
      var grown := if f.Some? && full && !gap && b.Some? && m == b.value + 1 then c + [f.value] else c;
      completed' == (if |grown| > 20 then grown[1..] else grown)
      && forming' == Some(Bar(m, q.Mid(), q.Mid(), q.Mid(), q.Mid())) && full' == (q.Offset() <= MAX_GAP)
    else
      completed' == c && full' == (full && !gap)
      && forming' == if f.None? then None
           else Some(Bar(m, f.value.open, Max(f.value.high, q.Mid()), Min(f.value.low, q.Mid()), q.Mid()))
  }

  lemma {:induction false} MidsBeyond(p: seq<Quote>, m: int)
    requires Ordered(p) && (p == [] || p[|p| - 1].MinuteOf() < m)
    ensures Mids(p, m) == []
  {
    if p != [] { MidsBeyond(p[..|p| - 1], m); }
  }

  lemma BarExtends(p: seq<Quote>, q: Quote, m: int)
    requires Ordered(p + [q])
    ensures m != q.MinuteOf() ==> BarOf(p + [q], m) == BarOf(p, m)
    ensures m == q.MinuteOf() && (p == [] || p[|p| - 1].MinuteOf() < m) ==>
              BarOf(p + [q], m) == Bar(m, q.Mid(), q.Mid(), q.Mid(), q.Mid())
    ensures m == q.MinuteOf() && p != [] && p[|p| - 1].MinuteOf() == m ==>
              var f := BarOf(p, m);
              BarOf(p + [q], m) == Bar(m, f.open, Max(f.high, q.Mid()), Min(f.low, q.Mid()), q.Mid())
  {
    var p' := p + [q];
    assert p'[..|p|] == p;
    var xs := Mids(p, m);
    assert xs + [] == xs;
    if m == q.MinuteOf() {
      if p == [] || p[|p| - 1].MinuteOf() < m {
        assert Ordered(p) by { assert forall i :: 0 <= i < |p| ==> p[i] == p'[i]; }
        MidsBeyond(p, m);
      } else {
        assert (xs + [q.Mid()])[..|xs|] == xs;
      }
    }
  }

  // How coverage changes with one more quote.
  ghost predicate CoverStep(p: seq<Quote>, q: Quote, k: int) {
    if p == [] then Covered(p + [q], k) <==> k == 0 && q.Offset() <= MAX_GAP
    else
      var b, m, gap := p[|p| - 1].MinuteOf(), q.MinuteOf(), q.time - p[|p| - 1].time > MAX_GAP;
      b <= m
      && (gap ==> (Covered(p + [q], k) <==> k == 0 && b < m && q.Offset() <= MAX_GAP))
      && (!gap && b == m ==> (Covered(p + [q], k) <==> Covered(p, k)))
      && (!gap && b < m
          ==> m == b + 1 && q.Offset() <= MAX_GAP && (Covered(p + [q], k) <==> k == 0 || Covered(p, k - 1)))
  }

  lemma CoverHere(p: seq<Quote>, q: Quote)
    requires p == [] || p[|p| - 1].MinuteOf() < q.MinuteOf()
    requires q.Offset() <= MAX_GAP
    ensures Covered(p + [q], 0)
  {
    assert (p + [q])[|p|] == q;
    assert CoveredFrom(p + [q], 0, |p|);
  }

  lemma CoverBack(p: seq<Quote>, q: Quote, k: int, s: int)
    requires CoveredFrom(p + [q], k, s) && s < |p|
    ensures q.time - p[|p| - 1].time <= MAX_GAP
    ensures Covered(p, k - (q.MinuteOf() - p[|p| - 1].MinuteOf()))
  {
    var p', n := p + [q], |p|;
    assert p'[n] == q && p'[n - 1] == p[n - 1];
    assert GapFree(p, s) by { assert forall i :: 0 <= i < n ==> p'[i] == p[i]; }
    assert CoveredFrom(p, k - (q.MinuteOf() - p[n - 1].MinuteOf()), s);
  }

  lemma CoverOn(p: seq<Quote>, q: Quote, k: int)
    requires p != [] && q.time - p[|p| - 1].time <= MAX_GAP && Covered(p, k)
    ensures Covered(p + [q], k + (q.MinuteOf() - p[|p| - 1].MinuteOf()))
  {
    var p', n := p + [q], |p|;
    var s :| CoveredFrom(p, k, s);
    assert p'[n] == q && forall i :: 0 <= i < n ==> p'[i] == p[i];
    assert CoveredFrom(p', k + (q.MinuteOf() - p[n - 1].MinuteOf()), s);
  }

  lemma CoverSplit(p: seq<Quote>, q: Quote, k: int)
    requires Covered(p + [q], k)
    ensures (k == 0 && q.Offset() <= MAX_GAP && (p == [] || p[|p| - 1].MinuteOf() < q.MinuteOf()))
            || (p != [] && q.time - p[|p| - 1].time <= MAX_GAP
                && Covered(p, k - (q.MinuteOf() - p[|p| - 1].MinuteOf())))
  {
    var p', n := p + [q], |p|;
    assert p'[n] == q && (n > 0 ==> p'[n - 1] == p[n - 1]);
    var s :| CoveredFrom(p', k, s);
    if s < n { CoverBack(p, q, k, s); }
  }

  lemma CoverExtends(p: seq<Quote>, q: Quote, k: int)
    requires Ordered(p + [q]) && k >= 0
    ensures CoverStep(p, q, k)
  {
    hide Covered;
    assert (p + [q])[|p|] == q && forall i :: 0 <= i < |p| ==> (p + [q])[i] == p[i];
    if Covered(p + [q], k) { CoverSplit(p, q, k); }
    if q.Offset() <= MAX_GAP && (p == [] || p[|p| - 1].MinuteOf() < q.MinuteOf()) { CoverHere(p, q); }
    if p != [] && q.time - p[|p| - 1].time <= MAX_GAP {
      var back := k - (q.MinuteOf() - p[|p| - 1].MinuteOf());
      if Covered(p, back) { CoverOn(p, q, back); }
      if back < 0 { CoverNotAhead(p, back); }
    }
  }

  lemma CoverNotAhead(p: seq<Quote>, k: int)
    requires Ordered(p) && k < 0
    ensures !Covered(p, k)
  {
  }

  lemma StepTracksCount(p: seq<Quote>, q: Quote, count: nat, whole: bool, count': nat, whole': bool)
    requires Ordered(p + [q]) && TracksCount(p, count, whole)
    requires var gap := p != [] && q.time - p[|p| - 1].time > MAX_GAP;
      if LastMinute(p) != Some(q.MinuteOf())
      then count' == (if whole && !gap && p != [] && q.MinuteOf() == p[|p| - 1].MinuteOf() + 1
                      then (if count == 20 then 20 else count + 1) else if gap then 0 else count)
           && whole' == (q.Offset() <= MAX_GAP)
      else count' == (if gap then 0 else count) && whole' == (whole && !gap)
    ensures TracksCount(p + [q], count', whole')
  {
    hide Covered;
    assert (p + [q])[|p|] == q;
    CoverExtends(p, q, 0);
    forall k | 1 <= k <= 20 ensures count' >= k <==> Covered(p + [q], k) { CoverExtends(p, q, k); }
  }

  lemma StepTracksBars(
    p: seq<Quote>, q: Quote, completed: seq<Bar>, forming: Option<Bar>, full: bool,
    completed': seq<Bar>, forming': Option<Bar>, full': bool)
    requires Ordered(p + [q]) && TracksForming(p, forming) && TracksBars(p, completed)
    requires p == [] ==> completed == [] && forming.None?
    requires completed != [] ==> full && forming.Some?
    requires StepTo(p, q, completed, forming, full, completed', forming', full')
    ensures TracksBars(p + [q], completed') && TracksForming(p + [q], forming')
  {
    hide BarOf;
    var p', m := p + [q], q.MinuteOf();
    assert p'[|p|] == q && (p != [] ==> p'[|p| - 1] == p[|p| - 1]);
    BarExtends(p, q, m);
    forall j | 0 <= j < |completed'| ensures completed'[j] == BarOf(p', m - |completed'| + j) {
      BarExtends(p, q, m - |completed'| + j);
    }
  }

  lemma StepTracks(
    p: seq<Quote>, q: Quote, completed: seq<Bar>, forming: Option<Bar>, full: bool,
    completed': seq<Bar>, forming': Option<Bar>, full': bool)
    requires Ordered(p + [q]) && Tracks(p, completed, forming, full) && (p == [] ==> forming.None?)
    requires StepTo(p, q, completed, forming, full, completed', forming', full')
    ensures Tracks(p + [q], completed', forming', full')
  {
    hide Covered, BarOf;
    StepTracksBars(p, q, completed, forming, full, completed', forming', full');
    StepTracksCount(p, q, |completed|, full && forming.Some?, |completed'|, full' && forming'.Some?);
  }

  // What the streaming state decides is what the tape decides.
  lemma DecisionAgrees(
    p: seq<Quote>, q: Quote, completed: seq<Bar>, forming: Option<Bar>, full: bool,
    cadence: int, directional: bool, ratio: real)
    requires Tracks(p + [q], completed, forming, full) && cadence > 0 && ratio > 0.0
    ensures LastSlot(p + [q], cadence) == if |completed| >= 5 then q.time / cadence else LastSlot(p, cadence)
    ensures BatchPlans(p + [q], cadence, directional, ratio) ==
            BatchPlans(p, cadence, directional, ratio)
            + if |completed| >= 5 && q.time / cadence != LastSlot(p, cadence)
              then Planned(completed[|completed| - 5..], q, directional, ratio) else []
  {
    hide Covered, BarOf, PlanFor;
    var p' := p + [q];
    assert p'[|p|] == q && p'[..|p|] == p;
    assert Ready(p') <==> |completed| >= 5;
    if |completed| >= 5 { assert completed[|completed| - 5..] == LastBars(p'); }
  }

  // ------------------------------------------------------------- main results

  // A decision is a function of the quotes up to it: later quotes only add
  // plans, and change none.
  lemma {:induction false} LaterQuotesChangeNothing(
      qs: seq<Quote>, n: nat, cadence: int, directional: bool, ratio: real)
    requires cadence > 0 && ratio > 0.0 && n <= |qs|
    ensures BatchPlans(qs[..n], cadence, directional, ratio) <= BatchPlans(qs, cadence, directional, ratio)
  {
    if n < |qs| {
      LaterQuotesChangeNothing(qs[..|qs| - 1], n, cadence, directional, ratio);
      assert qs[..|qs| - 1][..n] == qs[..n];
    } else {
      assert qs[..n] == qs;
    }
  }

  // No gap over the limit between two quotes from a minute on.
  ghost predicate Unbroken(qs: seq<Quote>, minute: int) {
    forall i, j :: 0 <= i && j == i + 1 < |qs| && minute <= qs[i].MinuteOf() ==> qs[j].time - qs[i].time <= MAX_GAP
  }

  // A quote close to the start of a minute.
  ghost predicate StartSeen(qs: seq<Quote>, minute: int) {
    exists i :: 0 <= i < |qs| && qs[i].MinuteOf() == minute && qs[i].Offset() <= MAX_GAP
  }

  // The planner is ready exactly when the start of the fifth minute back was seen
  // and no gap over the limit has come since.
  lemma ReadyExactly(qs: seq<Quote>)
    requires Ordered(qs) && qs != []
    ensures Ready(qs) <==>
            StartSeen(qs, qs[|qs| - 1].MinuteOf() - 5) && Unbroken(qs, qs[|qs| - 1].MinuteOf() - 5)
  {
    hide *;
    if Ready(qs) { ReadyIsSeen(qs); }
    if StartSeen(qs, qs[|qs| - 1].MinuteOf() - 5) && Unbroken(qs, qs[|qs| - 1].MinuteOf() - 5) { SeenIsReady(qs); }
  }

  lemma ReadyIsSeen(qs: seq<Quote>)
    requires Ordered(qs) && Ready(qs)
    ensures StartSeen(qs, qs[|qs| - 1].MinuteOf() - 5) && Unbroken(qs, qs[|qs| - 1].MinuteOf() - 5)
  {
    var s :| CoveredFrom(qs, 5, s);
    MinutesRise(qs);
    hide Ordered;
  }

  // The first quote of the minute is no later than the one seen.
  lemma SeenIsReady(qs: seq<Quote>)
    requires Ordered(qs) && qs != []
    requires StartSeen(qs, qs[|qs| - 1].MinuteOf() - 5) && Unbroken(qs, qs[|qs| - 1].MinuteOf() - 5)
    ensures Ready(qs)
  {
    var minute := qs[|qs| - 1].MinuteOf() - 5;
    MinutesRise(qs);
    hide Ordered, Unbroken;
    var s :| 0 <= s < |qs| && qs[s].MinuteOf() == minute && qs[s].Offset() <= MAX_GAP;
    while s > 0 && qs[s - 1].MinuteOf() == minute
      invariant 0 <= s < |qs| && qs[s].MinuteOf() == minute && qs[s].Offset() <= MAX_GAP
    {
      assert qs[s - 1].time <= qs[s].time;
      s := s - 1;
    }
    assert GapFree(qs, s) by { FromMinuteOn(qs, s); }
    assert CoveredFrom(qs, 5, s);
  }

  lemma FromMinuteOn(qs: seq<Quote>, s: nat)
    requires Ordered(qs) && s < |qs| && Unbroken(qs, qs[s].MinuteOf())
    ensures GapFree(qs, s)
  {
    MinutesRise(qs);
    hide Ordered;
  }

  lemma MinutesRise(qs: seq<Quote>)
    requires Ordered(qs)
    ensures forall i, j :: 0 <= i <= j < |qs| ==> qs[i].time <= qs[j].time && qs[i].MinuteOf() <= qs[j].MinuteOf()
  {
  }

  // And then none of the five minutes is without a quote.
  lemma ReadyMeansObserved(qs: seq<Quote>, back: int)
    requires Ordered(qs) && Ready(qs) && 0 <= back <= 5
    ensures Mids(qs, qs[|qs| - 1].MinuteOf() - back) != []
  {
    var s :| CoveredFrom(qs, 5, s);
    var t := FirstAtOrAfter(qs, s, qs[|qs| - 1].MinuteOf() - back);
    MidsHold(qs, t);
  }

  // With gaps within the limit no minute can be stepped over.
  lemma {:induction false} FirstAtOrAfter(qs: seq<Quote>, s: nat, m: int) returns (t: nat)
    requires Ordered(qs) && s < |qs| && qs[s].MinuteOf() <= m <= qs[|qs| - 1].MinuteOf()
    requires GapFree(qs, s)
    ensures s <= t < |qs| && qs[t].MinuteOf() == m
    decreases |qs| - s
  {
    if qs[s].MinuteOf() == m {
      t := s;
    } else {
      assert qs[s + 1].MinuteOf() <= qs[s].MinuteOf() + 1;
      t := FirstAtOrAfter(qs, s + 1, m);
    }
  }

  lemma {:induction false} MidsHold(qs: seq<Quote>, t: nat)
    requires t < |qs|
    ensures qs[t].Mid() in Mids(qs, qs[t].MinuteOf())
  {
    if t < |qs| - 1 { MidsHold(qs[..|qs| - 1], t); }
  }

  // The slot test means: no earlier ready quote fell in the same slot.
  lemma {:induction false} SlotIsFresh(qs: seq<Quote>, slot: int, cadence: int)
    requires Ordered(qs) && cadence > 0 && slot >= 0
    requires qs == [] || qs[|qs| - 1].time / cadence <= slot
    ensures slot != LastSlot(qs, cadence) <==>
            forall j :: 0 <= j < |qs| && Ready(qs[..j + 1]) ==> qs[j].time / cadence != slot
  {
    if qs != [] {
      var p := qs[..|qs| - 1];
      assert qs[..|qs|] == qs;
      if Ready(qs) {
        if qs[|qs| - 1].time / cadence != slot {
          forall j | 0 <= j < |qs| ensures qs[j].time / cadence != slot {
            DivMonotone(qs[j].time, qs[|qs| - 1].time, cadence);
          }
        }
      } else {
        if p != [] { DivMonotone(p[|p| - 1].time, qs[|qs| - 1].time, cadence); }
        SlotIsFresh(p, slot, cadence);
        assert forall j :: 0 <= j < |p| ==> p[j] == qs[j] && p[..j + 1] == qs[..j + 1];
      }
    }
  }

  lemma DivMonotone(a: int, b: int, c: int)
    requires 0 <= a <= b && c > 0
    ensures a / c <= b / c
  {
    var k := b / c - a / c;
    assert b - a == k * c + (b % c - a % c);
    assert k <= -1 ==> k * c <= -c;
  }

  lemma QuotientBound(a: real, b: real)
    requires b > 0.0 && a / b <= 0.10
    ensures 10.0 * a <= b
  {
    QuotientBack(a, b);
    assert (0.10 - a / b) * b >= 0.0;
  }

  lemma QuotientBack(a: real, b: real)
    requires b != 0.0
    ensures a / b * b == a
  {
  }

  lemma CentBounds(x: real)
    ensures x <= CeilCent(x) < x + 0.01 && x - 0.01 < FloorCent(x) <= x
  {
  }

  // Every plan keeps its entries at least the buffer, never less than 0.10,
  // outside the quote and its stop within ten units.
  lemma PlanGeometry(bars: seq<Bar>, q: Quote, directional: bool, ratio: real)
    requires |bars| == 5 && ratio > 0.0 && PlanFor(bars, q, directional, ratio).Some?
    ensures var plan := PlanFor(bars, q, directional, ratio).value;
            forall leg :: leg in plan.legs ==>
              (leg.side.Buy? ==> q.ask + 0.10 <= leg.entry < q.ask + Max(0.10, MeanRange(bars) * 0.25) + 0.01)
              && (leg.side.Sell? ==> q.bid - Max(0.10, MeanRange(bars) * 0.25) - 0.01 < leg.entry <= q.bid - 0.10)
              && leg.target >= 0.60 && leg.stop <= 10.0 && leg.stop * ratio == leg.target
              && q.ask - q.bid <= 0.10 && 10.0 * (q.ask - q.bid) <= MeanRange(bars)
  {
    hide CeilCent, FloorCent, MeanRange;
    var range := MeanRange(bars);
    var spread := q.ask - q.bid;
    CentBounds(q.ask + Max(0.10, range * 0.25));
    CentBounds(q.bid - Max(0.10, range * 0.25));
    CentBounds(Max(0.60, range * 0.25));
    if range > 0.0 && spread / range <= 0.10 { QuotientBound(spread, range); }
    QuotientBack(CeilCent(Max(0.60, range * 0.25)), ratio);
  }
}
