// Daily scorecards over recorded close deals.  The reference notions are the
// money recorded before an instant, and the greatest fall from an earlier to a
// later instant; the loops over marks and days are proved against those.
module Scorecard {
  import opened Common
  import opened Sorting

  const SINGAPORE := 28_800_000
  const MAX_DEALS := 5_000

  datatype Deal = Deal(occurred: int, recorded: int, net: real, fees: real)

  datatype Tally = Tally(net: real, fees: real, closes: int) {
    function Plus(t: Tally): Tally { Tally(net + t.net, fees + t.fees, closes + t.closes) }
  }

  const NOTHING := Tally(0.0, 0.0, 0)

  datatype Row = Row(day: int, since: int, until: int, complete: bool, tally: Tally,
                     wins: nat, losses: nat, flats: nat, worst: Option<real>)

  datatype Signs = Signs(positive: nat, negative: nat, flat: nat)

  datatype Error = WindowInvalid | DealLimit | FutureBrokerClock

  datatype Card =
    | Card(lower: int, upper: int, days: seq<Row>, net: real, drawdown: real, signs: Option<Signs>)
    | Refused(error: Error)

  function DayOf(t: int): int { (t + SINGAPORE) / DAY }

  function DayStart(d: int): int { d * DAY - SINGAPORE }

  // The seven most recent calendar days, or since the start if that is later.
  function Lower(start: int, now: int): int { MaxInt(DayStart(DayOf(now) - 6), start) }

  predicate Counts(d: Deal, lower: int, upper: int) { lower <= d.occurred < upper && d.recorded <= upper }

  predicate FromTheFuture(d: Deal, upper: int) { d.recorded <= upper && d.occurred > upper }

  function Eligible(deals: seq<Deal>, lower: int, upper: int): seq<Deal> {
    if deals == [] then []
    else
      var d := deals[|deals| - 1];
      Eligible(deals[..|deals| - 1], lower, upper) + (if Counts(d, lower, upper) then [d] else [])
  }

  function Within(ds: seq<Deal>, lo: int, hi: int): seq<Deal> {
    if ds == [] then []
    else
      var d := ds[|ds| - 1];
      Within(ds[..|ds| - 1], lo, hi) + (if lo <= d.occurred < hi then [d] else [])
  }

  function One(d: Deal): Tally { Tally(d.net, d.fees, 1) }

  function Total(ds: seq<Deal>): Tally {
    if ds == [] then NOTHING else Total(ds[..|ds| - 1]).Plus(One(ds[|ds| - 1]))
  }

  // What was recorded from one instant up to, but not at, another.
  function Figures(ds: seq<Deal>, lo: int, hi: int): Tally {
    if ds == [] then NOTHING
    else
      var d := ds[|ds| - 1];
      Figures(ds[..|ds| - 1], lo, hi).Plus(Part(d, lo, hi))
  }

  function Part(d: Deal, lo: int, hi: int): Tally { if lo <= d.occurred < hi then One(d) else NOTHING }

  function NetTo(ds: seq<Deal>, lower: int, at: int): real { Figures(ds, lower, at).net }

  // The greatest fall in recorded money from an earlier to a later instant.
  ghost predicate IsDrawdown(ds: seq<Deal>, lower: int, drawdown: real) {
    (forall a, b :: lower <= a <= b ==> NetTo(ds, lower, a) - NetTo(ds, lower, b) <= drawdown)
    && exists a, b :: lower <= a <= b && NetTo(ds, lower, a) - NetTo(ds, lower, b) == drawdown
  }

  // --------------------------------------------------------- the running curve

  datatype Curve = Curve(total: real, peak: real, drawdown: real)

  function Step(c: Curve, x: real): Curve {
    var total := c.total + x;
    var peak := Max(c.peak, total);
    Curve(total, peak, Max(c.drawdown, peak - total))
  }

  function CurveOf(xs: seq<real>): Curve {
    if xs == [] then Curve(0.0, 0.0, 0.0) else Step(CurveOf(xs[..|xs| - 1]), xs[|xs| - 1])
  }

  function Cum(xs: seq<real>, n: nat): real
    requires n <= |xs|
  {
    if n == 0 then 0.0 else Cum(xs, n - 1) + xs[n - 1]
  }

  lemma {:induction false} CumPrefix(xs: seq<real>, m: nat, n: nat)
    requires n <= m <= |xs|
    ensures Cum(xs[..m], n) == Cum(xs, n)
  {
    if n > 0 { CumPrefix(xs, m, n - 1); }
  }

  lemma {:induction false} CurveTotal(xs: seq<real>)
    ensures CurveOf(xs).total == Cum(xs, |xs|)
  {
    if xs != [] {
      CurveTotal(xs[..|xs| - 1]);
      CumPrefix(xs, |xs| - 1, |xs| - 1);
    }
  }

  // The running peak is the greatest prefix sum.
  lemma {:induction false} BelowPeak(xs: seq<real>, i: nat)
    requires i <= |xs|
    ensures Cum(xs, i) <= CurveOf(xs).peak
  {
    CurveTotal(xs);
    if xs != [] && i < |xs| {
      BelowPeak(xs[..|xs| - 1], i);
      CumPrefix(xs, |xs| - 1, i);
    }
  }

  lemma {:induction false} PeakAt(xs: seq<real>) returns (p: nat)
    ensures p <= |xs| && Cum(xs, p) == CurveOf(xs).peak
  {
    p := 0;
    if xs != [] {
      var front := xs[..|xs| - 1];
      p := PeakAt(front);
      CumPrefix(xs, |front|, p);
      CurveTotal(xs);
      if CurveOf(xs).peak != CurveOf(front).peak { p := |xs|; }
    }
  }

  // The running drawdown is the greatest fall between two prefix sums.
  lemma {:induction false} NoDeeperFall(xs: seq<real>, i: nat, j: nat)
    requires i <= j <= |xs|
    ensures Cum(xs, i) - Cum(xs, j) <= CurveOf(xs).drawdown
  {
    if xs != [] {
      if j < |xs| {
        NoDeeperFall(xs[..|xs| - 1], i, j);
        CumPrefix(xs, |xs| - 1, i);
        CumPrefix(xs, |xs| - 1, j);
      } else {
        BelowPeak(xs, i);
        CurveTotal(xs);
      }
    }
  }

  lemma {:induction false} DeepestFall(xs: seq<real>) returns (i: nat, j: nat)
    ensures i <= j <= |xs| && Cum(xs, i) - Cum(xs, j) == CurveOf(xs).drawdown
  {
    i, j := 0, 0;
    if xs != [] {
      var front := xs[..|xs| - 1];
      i, j := DeepestFall(front);
      CumPrefix(xs, |front|, i);
      CumPrefix(xs, |front|, j);
      if CurveOf(xs).drawdown != CurveOf(front).drawdown {
        i := PeakAt(xs);
        j := |xs|;
        CurveTotal(xs);
      }
    }
  }

  // ------------------------------------------------------- sums over intervals

  lemma {:induction false} FiguresAreTotals(ds: seq<Deal>, lo: int, hi: int)
    ensures Total(Within(ds, lo, hi)) == Figures(ds, lo, hi)
  {
    if ds != [] {
      FiguresAreTotals(ds[..|ds| - 1], lo, hi);
      var d, kept := ds[|ds| - 1], Within(ds[..|ds| - 1], lo, hi);
      assert (kept + [d])[..|kept|] == kept;
      assert kept + [] == kept;
    }
  }

  lemma PartSplit(d: Deal, a: int, b: int, c: int)
    requires a <= b <= c
    ensures Part(d, a, b).Plus(Part(d, b, c)) == Part(d, a, c)
  {
  }

  lemma PlusSwaps(x: Tally, y: Tally, p: Tally, q: Tally)
    ensures x.Plus(p).Plus(y.Plus(q)) == x.Plus(y).Plus(p.Plus(q))
  {
  }

  lemma {:induction false} FiguresSplit(ds: seq<Deal>, a: int, b: int, c: int)
    requires a <= b <= c
    ensures Figures(ds, a, b).Plus(Figures(ds, b, c)) == Figures(ds, a, c)
  {
    if ds != [] {
      var front, d := ds[..|ds| - 1], ds[|ds| - 1];
      FiguresSplit(front, a, b, c);
      var x, y := Figures(front, a, b), Figures(front, b, c);
      PartSplit(d, a, b, c);
      PlusSwaps(x, y, Part(d, a, b), Part(d, b, c));
      hide Part, Tally.Plus;
      assert Figures(ds, a, b) == x.Plus(Part(d, a, b));
      assert Figures(ds, b, c) == y.Plus(Part(d, b, c));
      assert Figures(ds, a, c) == Figures(front, a, c).Plus(Part(d, a, c));
      hide Figures;
    }
  }

  lemma {:induction false} FiguresNone(ds: seq<Deal>, lo: int, hi: int)
    requires forall i :: 0 <= i < |ds| ==> !(lo <= ds[i].occurred < hi)
    ensures Figures(ds, lo, hi) == NOTHING
  {
    if ds != [] { FiguresNone(ds[..|ds| - 1], lo, hi); }
  }

  lemma {:induction false} FiguresAll(ds: seq<Deal>, lo: int, hi: int)
    requires forall i :: 0 <= i < |ds| ==> lo <= ds[i].occurred < hi
    ensures Figures(ds, lo, hi) == Total(ds)
  {
    if ds != [] { FiguresAll(ds[..|ds| - 1], lo, hi); }
  }

  lemma PlusAssociates(a: Tally, b: Tally, c: Tally)
    ensures a.Plus(b).Plus(c) == a.Plus(b.Plus(c))
  {
  }

  lemma {:induction false} FiguresConcat(a: seq<Deal>, b: seq<Deal>, lo: int, hi: int)
    ensures Figures(a + b, lo, hi) == Figures(a, lo, hi).Plus(Figures(b, lo, hi))
  {
    if b == [] {
      assert a + b == a;
    } else {
      var front, part := b[..|b| - 1], Part(b[|b| - 1], lo, hi);
      FiguresConcat(a, front, lo, hi);
      assert (a + b)[..|a + b| - 1] == a + front;
      assert Figures(a + b, lo, hi) == Figures(a + front, lo, hi).Plus(part);
      assert Figures(b, lo, hi) == Figures(front, lo, hi).Plus(part);
      hide Figures, Part;
      PlusAssociates(Figures(a, lo, hi), Figures(front, lo, hi), part);
    }
  }

  // Sums do not depend on the order of the deals.
  lemma {:induction false} FiguresPermuted(a: seq<Deal>, b: seq<Deal>, lo: int, hi: int)
    requires multiset(a) == multiset(b)
    ensures Figures(a, lo, hi) == Figures(b, lo, hi)
    decreases |a|
  {
    if a == [] {
      assert |multiset(b)| == 0;
    } else {
      var front, x := a[..|a| - 1], a[|a| - 1];
      assert a == front + [x];
      assert x in multiset(b);
      var left, right := SplitAt(b, x);
      SameRest(multiset(front), multiset(left + right), x);
      FiguresPermuted(front, left + right, lo, hi);
      FiguresMove(front, left, right, x, lo, hi);
    }
  }

  lemma SplitAt<T>(b: seq<T>, x: T) returns (left: seq<T>, right: seq<T>)
    requires x in b
    ensures b == left + ([x] + right) && multiset(left + right) + multiset{x} == multiset(b)
  {
    var k :| 0 <= k < |b| && b[k] == x;
    left, right := b[..k], b[k + 1..];
    assert b == left + ([x] + right);
  }

  lemma SameRest<T>(a: multiset<T>, b: multiset<T>, x: T)
    requires a + multiset{x} == b + multiset{x}
    ensures a == b
  {
    assert a == (a + multiset{x}) - multiset{x};
    assert b == (b + multiset{x}) - multiset{x};
  }

  lemma FiguresMove(front: seq<Deal>, left: seq<Deal>, right: seq<Deal>, x: Deal, lo: int, hi: int)
    ensures Figures(front, lo, hi) == Figures(left + right, lo, hi) ==>
              Figures(front + [x], lo, hi) == Figures(left + ([x] + right), lo, hi)
  {
    hide Figures;
    FiguresConcat(left, [x] + right, lo, hi);
    FiguresConcat([x], right, lo, hi);
    FiguresConcat(left, right, lo, hi);
    FiguresConcat(front, [x], lo, hi);
  }

  lemma {:induction false} EligibleCounts(deals: seq<Deal>, lower: int, upper: int)
    ensures forall i :: 0 <= i < |Eligible(deals, lower, upper)| ==>
              Counts(Eligible(deals, lower, upper)[i], lower, upper)
  {
    if deals != [] { EligibleCounts(deals[..|deals| - 1], lower, upper); }
  }

  // -------------------------------------------- drawdown over any deal ordering

  predicate InTimeOrder(ds: seq<Deal>) { forall i, j :: 0 <= i <= j < |ds| ==> ds[i].occurred <= ds[j].occurred }

  function Nets(ds: seq<Deal>): seq<real> { seq(|ds|, i requires 0 <= i < |ds| => ds[i].net) }

  lemma {:induction false} PrefixIsBefore(ds: seq<Deal>, lower: int, at: int, n: nat)
    requires (forall i :: 0 <= i < |ds| ==> lower <= ds[i].occurred) && n <= |ds|
    requires (forall k :: 0 <= k < n ==> ds[k].occurred < at) && forall k :: n <= k < |ds| ==> at <= ds[k].occurred
    ensures Cum(Nets(ds), n) == NetTo(ds, lower, at)
  {
    if ds != [] {
      var front := ds[..|ds| - 1];
      PrefixIsBefore(front, lower, at, if n == |ds| then n - 1 else n);
      assert Nets(front) == Nets(ds)[..|front|];
      CumPrefix(Nets(ds), |front|, if n == |ds| then n - 1 else n);
    }
  }

  // In time order, the deals before an instant are a prefix.
  lemma Cut(ds: seq<Deal>, lower: int, at: int) returns (n: nat)
    requires InTimeOrder(ds) && forall i :: 0 <= i < |ds| ==> lower <= ds[i].occurred
    ensures n <= |ds| && Cum(Nets(ds), n) == NetTo(ds, lower, at)
    ensures (forall k :: 0 <= k < n ==> ds[k].occurred < at) && (forall k :: n <= k < |ds| ==> at <= ds[k].occurred)
  {
    n := 0;
    while n < |ds| && ds[n].occurred < at
      invariant 0 <= n <= |ds| && forall k :: 0 <= k < n ==> ds[k].occurred < at
    {
      n := n + 1;
    }
    PrefixIsBefore(ds, lower, at, n);
  }

  // Main result: whatever the order of the deals inside equal broker times, the
  // drawdown it would show is at least the one reported.
  lemma DrawdownIsLowerBound(order: seq<Deal>, ds: seq<Deal>, lower: int, drawdown: real)
    requires multiset(order) == multiset(ds) && InTimeOrder(order)
    requires (forall i :: 0 <= i < |order| ==> lower <= order[i].occurred) && IsDrawdown(ds, lower, drawdown)
    ensures drawdown <= CurveOf(Nets(order)).drawdown
  {
    var a, b :| lower <= a <= b && NetTo(ds, lower, a) - NetTo(ds, lower, b) == drawdown;
    FiguresPermuted(order, ds, lower, a);
    FiguresPermuted(order, ds, lower, b);
    var i := Cut(order, lower, a);
    var j := Cut(order, lower, b);
    assert i <= j;
    NoDeeperFall(Nets(order), i, j);
  }

  // Without ties the bound is the drawdown itself.
  lemma ExactWithoutTies(order: seq<Deal>, ds: seq<Deal>, lower: int, drawdown: real)
    requires multiset(order) == multiset(ds)
    requires forall i, j :: 0 <= i < j < |order| ==> order[i].occurred < order[j].occurred
    requires (forall i :: 0 <= i < |order| ==> lower <= order[i].occurred) && IsDrawdown(ds, lower, drawdown)
    ensures drawdown == CurveOf(Nets(order)).drawdown
  {
    DrawdownIsLowerBound(order, ds, lower, drawdown);
    var xs := Nets(order);
    var i, j := DeepestFall(xs);
    var a := CutInstant(order, ds, lower, i);
    var b := CutInstant(order, ds, lower, j);
    assert a <= b;
  }

  // Without ties every prefix is what came before some instant.
  lemma CutInstant(order: seq<Deal>, ds: seq<Deal>, lower: int, n: nat) returns (at: int)
    requires multiset(order) == multiset(ds)
    requires forall i, j :: 0 <= i < j < |order| ==> order[i].occurred < order[j].occurred
    requires n <= |order| && forall i :: 0 <= i < |order| ==> lower <= order[i].occurred
    ensures lower <= at && NetTo(ds, lower, at) == Cum(Nets(order), n)
    ensures at == if n < |order| then order[n].occurred else if n > 0 then order[n - 1].occurred + 1 else lower
  {
    at := if n < |order| then order[n].occurred else if n > 0 then order[n - 1].occurred + 1 else lower;
    PrefixIsBefore(order, lower, at, n);
    FiguresPermuted(order, ds, lower, at);
  }

  // ------------------------------------------------------------ the marks loop

  function NetAt(ds: seq<Deal>, t: int): real { Figures(ds, t, t + 1).net }

  // One net per distinct time.
  function TieNets(ds: seq<Deal>, ts: seq<int>): seq<real> {
    seq(|ts|, i requires 0 <= i < |ts| => NetAt(ds, ts[i]))
  }

  ghost predicate Covers(ts: seq<int>, ds: seq<Deal>) {
    Increasing(ts) && forall i :: 0 <= i < |ds| ==> Has(ts, ds[i].occurred)
  }

  // Where no time lies, nothing was recorded.
  lemma NoTimeNothing(ds: seq<Deal>, ts: seq<int>, lo: int, hi: int)
    requires Covers(ts, ds) && forall k :: 0 <= k < |ts| ==> !(lo <= ts[k] < hi)
    ensures Figures(ds, lo, hi) == NOTHING
  {
    forall i | 0 <= i < |ds| ensures !(lo <= ds[i].occurred < hi) { assert Has(ts, ds[i].occurred); }
    FiguresNone(ds, lo, hi);
  }

  function After(ts: seq<int>, lower: int, n: nat): int
    requires n <= |ts|
  {
    if n == 0 then lower else ts[n - 1] + 1
  }

  lemma {:induction false} TieSums(ds: seq<Deal>, ts: seq<int>, lower: int, n: nat)
    requires Covers(ts, ds) && n <= |ts| && forall i :: 0 <= i < |ts| ==> lower <= ts[i]
    ensures Cum(TieNets(ds, ts), n) == NetTo(ds, lower, After(ts, lower, n))
  {
    hide Figures;
    if n == 0 {
      NoTimeNothing(ds, ts, lower, lower);
    } else {
      TieSums(ds, ts, lower, n - 1);
      var before := After(ts, lower, n - 1);
      NoTimeNothing(ds, ts, before, ts[n - 1]);
      FiguresSplit(ds, lower, before, ts[n - 1]);
      FiguresSplit(ds, lower, ts[n - 1], ts[n - 1] + 1);
      hide Covers;
      assert TieNets(ds, ts)[n - 1] == Figures(ds, ts[n - 1], ts[n - 1] + 1).net;
    }
  }

  lemma NetAtCut(ds: seq<Deal>, ts: seq<int>, lower: int, at: int) returns (n: nat)
    requires Covers(ts, ds) && lower <= at && forall i :: 0 <= i < |ts| ==> lower <= ts[i]
    ensures n <= |ts| && NetTo(ds, lower, at) == Cum(TieNets(ds, ts), n)
    ensures (forall k :: 0 <= k < n ==> ts[k] < at) && forall k :: n <= k < |ts| ==> at <= ts[k]
  {
    hide Figures;
    n := 0;
    while n < |ts| && ts[n] < at
      invariant 0 <= n <= |ts| && forall k :: 0 <= k < n ==> ts[k] < at
    {
      n := n + 1;
    }
    TieSums(ds, ts, lower, n);
    NoTimeNothing(ds, ts, After(ts, lower, n), at);
    FiguresSplit(ds, lower, After(ts, lower, n), at);
  }

  lemma TieFalls(ds: seq<Deal>, ts: seq<int>, lower: int, a: int, b: int)
    requires Covers(ts, ds) && lower <= a <= b && forall i :: 0 <= i < |ts| ==> lower <= ts[i]
    ensures NetTo(ds, lower, a) - NetTo(ds, lower, b) <= CurveOf(TieNets(ds, ts)).drawdown
  {
    hide NetTo, CurveOf, Covers;
    var i := NetAtCut(ds, ts, lower, a);
    var j := NetAtCut(ds, ts, lower, b);
    assert j < |ts| ==> b <= ts[j];
    assert i <= j;
    NoDeeperFall(TieNets(ds, ts), i, j);
  }

  lemma TieFallAttained(ds: seq<Deal>, ts: seq<int>, lower: int)
    requires Covers(ts, ds) && forall i :: 0 <= i < |ts| ==> lower <= ts[i]
    ensures exists a, b ::
              lower <= a <= b && NetTo(ds, lower, a) - NetTo(ds, lower, b) == CurveOf(TieNets(ds, ts)).drawdown
  {
    hide NetTo, CurveOf;
    var i, j := DeepestFall(TieNets(ds, ts));
    TieSums(ds, ts, lower, i);
    TieSums(ds, ts, lower, j);
    var a, b := After(ts, lower, i), After(ts, lower, j);
    assert lower <= a <= b && NetTo(ds, lower, a) - NetTo(ds, lower, b) == CurveOf(TieNets(ds, ts)).drawdown;
  }

  lemma TieTotal(ds: seq<Deal>, ts: seq<int>, lower: int)
    requires Covers(ts, ds) && forall i :: 0 <= i < |ts| ==> lower <= ts[i]
    requires forall i :: 0 <= i < |ds| ==> lower <= ds[i].occurred
    ensures CurveOf(TieNets(ds, ts)).total == Total(ds).net
  {
    hide CurveOf, Figures, Total;
    var end := After(ts, lower, |ts|);
    CurveTotal(TieNets(ds, ts));
    TieSums(ds, ts, lower, |ts|);
    forall k | 0 <= k < |ds| ensures lower <= ds[k].occurred < end { assert Has(ts, ds[k].occurred); }
    FiguresAll(ds, lower, end);
  }

  lemma TiesGiveDrawdown(ds: seq<Deal>, ts: seq<int>, lower: int)
    requires Covers(ts, ds) && forall i :: 0 <= i < |ts| ==> lower <= ts[i]
    ensures IsDrawdown(ds, lower, CurveOf(TieNets(ds, ts)).drawdown)
  {
    hide NetTo, CurveOf, TieNets, Covers;
    TieFallAttained(ds, ts, lower);
    forall a, b | lower <= a <= b
      ensures NetTo(ds, lower, a) - NetTo(ds, lower, b) <= CurveOf(TieNets(ds, ts)).drawdown
    {
      TieFalls(ds, ts, lower, a, b);
    }
  }

  // -------------------------------------------------------------------- days

  function CountIf(ds: seq<Deal>, sign: int): nat {
    if ds == [] then 0
    else
      var x := ds[|ds| - 1].net;
      CountIf(ds[..|ds| - 1], sign) + (if (sign > 0 && x > 0.0) || (sign < 0 && x < 0.0) || (sign == 0 && x == 0.0)
                                       then 1 else 0)
  }

  function Worst(ds: seq<Deal>): Option<real> {
    if ds == [] then None
    else
      var front, x := Worst(ds[..|ds| - 1]), ds[|ds| - 1].net;
      Some(if front.Some? then Min(front.value, x) else x)
  }

  function RowOf(ds: seq<Deal>, day: int, since: int, until: int): Row {
    var rows := Within(ds, since, until);
    Row(day, since, until, since == DayStart(day) && until == DayStart(day + 1), Total(rows),
        CountIf(rows, 1), CountIf(rows, -1), CountIf(rows, 0), Worst(rows))
  }

  // The part of a calendar day inside the window.
  function RowFor(ds: seq<Deal>, day: int, lower: int, upper: int): Row {
    RowOf(ds, day, MaxInt(lower, DayStart(day)), MinInt(upper, DayStart(day + 1)))
  }

  function RowsOf(ds: seq<Deal>, lower: int, upper: int): seq<Row>
    requires lower <= upper
  {
    DayOfOrdered(lower, upper);
    seq(DayOf(upper) - DayOf(lower) + 1, k => RowFor(ds, DayOf(lower) + k, lower, upper))
  }

  lemma DayOfOrdered(a: int, b: int)
    requires a <= b
    ensures DayOf(a) <= DayOf(b)
    ensures DayStart(DayOf(a)) <= a < DayStart(DayOf(a) + 1)
  {
  }

  function SumRows(rows: seq<Row>): Tally {
    if rows == [] then NOTHING else SumRows(rows[..|rows| - 1]).Plus(rows[|rows| - 1].tally)
  }

  // A day's edges, and the window's, in calendar order.
  lemma DayEdges(lower: int, upper: int, k: int)
    requires lower <= upper && 0 <= k <= DayOf(upper) - DayOf(lower)
    ensures var day := DayOf(lower) + k;
            MaxInt(lower, DayStart(day)) == (if k == 0 then lower else DayStart(day))
            && MinInt(upper, DayStart(day + 1)) == (if day == DayOf(upper) then upper else DayStart(day + 1))
            && MaxInt(lower, DayStart(day)) <= MinInt(upper, DayStart(day + 1))
  {
    DayOfOrdered(lower, upper);
    DayOfOrdered(upper, upper);
  }

  lemma RowAt(ds: seq<Deal>, lower: int, upper: int, k: int)
    requires lower <= upper && 0 <= k <= DayOf(upper) - DayOf(lower)
    ensures |RowsOf(ds, lower, upper)| == DayOf(upper) - DayOf(lower) + 1
    ensures var row := RowsOf(ds, lower, upper)[k];
            row.day == DayOf(lower) + k
            && row.since == (if k == 0 then lower else DayStart(row.day))
            && row.until == (if k == DayOf(upper) - DayOf(lower) then upper else DayStart(row.day + 1))
            && row.tally == Figures(ds, row.since, row.until) && lower <= row.since <= row.until <= upper
  {
    DayEdges(lower, upper, k);
    hide Figures, Within, Total, CountIf, Worst, DayOf, DayStart;
    var row := RowFor(ds, DayOf(lower) + k, lower, upper);
    FiguresAreTotals(ds, row.since, row.until);
  }

  lemma {:induction false} RowsUpTo(ds: seq<Deal>, lower: int, upper: int, n: nat)
    requires lower <= upper && 0 < n <= |RowsOf(ds, lower, upper)|
    ensures SumRows(RowsOf(ds, lower, upper)[..n]) == Figures(ds, lower, RowsOf(ds, lower, upper)[n - 1].until)
  {
    DayOfOrdered(lower, upper);
    RowAt(ds, lower, upper, n - 1);
    var rows := RowsOf(ds, lower, upper);
    var row := rows[n - 1];
    assert rows[..n][..n - 1] == rows[..n - 1] && rows[..n][n - 1] == row;
    assert SumRows(rows[..n]) == SumRows(rows[..n - 1]).Plus(row.tally);
    assert rows[..0] == [];
    assert SumRows(rows[..0]) == NOTHING;
    hide *;
    if n == 1 {
      PlusNothing(row.tally);
    } else {
      RowsUpTo(ds, lower, upper, n - 1);
      RowAt(ds, lower, upper, n - 2);
      FiguresSplit(ds, lower, row.since, row.until);
    }
  }

  lemma PlusNothing(t: Tally)
    ensures NOTHING.Plus(t) == t
  {
  }

  // The rows are one to seven consecutive calendar days that cover the window
  // without overlap, and together they hold everything the window holds.
  lemma DaysPartition(ds: seq<Deal>, lower: int, upper: int)
    requires lower <= upper && forall i :: 0 <= i < |ds| ==> lower <= ds[i].occurred < upper
    ensures var rows := RowsOf(ds, lower, upper);
            0 < |rows| && (DayStart(DayOf(upper) - 6) <= lower ==> |rows| <= 7)
            && rows[0].since == lower && rows[|rows| - 1].until == upper
            && (forall k :: 0 <= k < |rows| ==> rows[k].day == DayOf(lower) + k && rows[k].since <= rows[k].until)
            && (forall k, l :: 0 <= k < |rows| && l == k + 1 && l < |rows| ==> rows[k].until == rows[l].since)
            && SumRows(rows) == Total(ds)
  {
    var rows := RowsOf(ds, lower, upper);
    DayOfOrdered(lower, upper);
    forall k | 0 <= k <= DayOf(upper) - DayOf(lower)
      ensures rows[k].day == DayOf(lower) + k && rows[k].since <= rows[k].until
      ensures rows[k].since == if k == 0 then lower else DayStart(DayOf(lower) + k)
      ensures rows[k].until == if k == |rows| - 1 then upper else DayStart(DayOf(lower) + k + 1)
    {
      RowAt(ds, lower, upper, k);
    }
    RowsUpTo(ds, lower, upper, |rows|);
    assert rows[..|rows|] == rows;
    FiguresAll(ds, lower, upper);
    hide Figures, RowFor, Total, SumRows;
  }

  // Every deal of the window is in the row of its own calendar day and no other.
  lemma OneDayEach(ds: seq<Deal>, lower: int, upper: int, at: int, k: int)
    requires lower <= at < upper && 0 <= k < |RowsOf(ds, lower, upper)|
    ensures 0 <= DayOf(at) - DayOf(lower) < |RowsOf(ds, lower, upper)|
    ensures RowsOf(ds, lower, upper)[k].since <= at < RowsOf(ds, lower, upper)[k].until
            <==> k == DayOf(at) - DayOf(lower)
  {
    DayOfOrdered(lower, at);
    DayOfOrdered(at, upper);
    RowAt(ds, lower, upper, k);
    hide RowsOf;
  }

  // A row can be empty of time only as the last one: the day that begins at the
  // very moment the window ends, or a window without length.
  lemma EmptyDay(ds: seq<Deal>, lower: int, upper: int, k: int)
    requires lower <= upper && 0 <= k < |RowsOf(ds, lower, upper)|
    ensures var rows := RowsOf(ds, lower, upper);
            rows[k].since == rows[k].until <==>
              k == |rows| - 1 && (upper == DayStart(DayOf(upper)) || lower == upper)
  {
    DayOfOrdered(lower, upper);
    DayOfOrdered(upper, upper);
    RowAt(ds, lower, upper, k);
    hide RowsOf;
  }

  function SignsOf(rows: seq<Row>): Signs {
    if rows == [] then Signs(0, 0, 0)
    else
      var s, r := SignsOf(rows[..|rows| - 1]), rows[|rows| - 1];
      if !r.complete then s
      else if r.tally.net > 0.0 then s.(positive := s.positive + 1)
      else if r.tally.net < 0.0 then s.(negative := s.negative + 1)
      else s.(flat := s.flat + 1)
  }

  ghost predicate Summarized(c: Card, deals: seq<Deal>, start: int, now: int, unresolved: nat) {
    if start > now then c == Refused(WindowInvalid)
    else if |deals| > MAX_DEALS then c == Refused(DealLimit)
    else if exists i :: 0 <= i < |deals| && FromTheFuture(deals[i], now) then c == Refused(FutureBrokerClock)
    else
      var lower := Lower(start, now);
      var ds := Eligible(deals, lower, now);
      lower <= now && c.Card? && c.lower == lower && c.upper == now && c.net == Total(ds).net
      && IsDrawdown(ds, lower, c.drawdown) && c.days == RowsOf(ds, lower, now)
      && c.signs == if unresolved > 0 then None else Some(SignsOf(c.days))
  }

  // Some card refuses a close for its clock exactly when the close was recorded
  // before it occurred, which no recorded close was.
  lemma FutureClockExactly(d: Deal)
    ensures (exists upper :: FromTheFuture(d, upper)) <==> d.recorded < d.occurred
  {
    if d.recorded < d.occurred { assert FromTheFuture(d, d.recorded); }
  }

  method Filter(deals: seq<Deal>, lower: int, upper: int) returns (future: bool, eligible: seq<Deal>)
    ensures future <==> exists i :: 0 <= i < |deals| && FromTheFuture(deals[i], upper)
    ensures !future ==> eligible == Eligible(deals, lower, upper)
  {
    eligible := [];
    for i := 0 to |deals|
      invariant forall k :: 0 <= k < i ==> !FromTheFuture(deals[k], upper)
      invariant eligible == Eligible(deals[..i], lower, upper)
    {
      var d := deals[i];
      if d.recorded <= upper && d.occurred > upper { return true, []; }
      assert deals[..i + 1][..i] == deals[..i];
      if lower <= d.occurred < upper && d.recorded <= upper { eligible := eligible + [d]; }
    }
    assert deals[..|deals|] == deals;
    return false, eligible;
  }

  function Times(ds: seq<Deal>): seq<int> { seq(|ds|, i requires 0 <= i < |ds| => ds[i].occurred) }

  // Times in order, each with the sum of the nets recorded at it.
  method Mark(ds: seq<Deal>) returns (times: seq<int>, marks: map<int, real>)
    ensures Increasing(times) && forall t :: Has(times, t) <==> Has(Times(ds), t)
    ensures forall t :: MarkAt(marks, t) == NetAt(ds, t)
  {
    times, marks := [], map[];
    for i := 0 to |ds|
      invariant Increasing(times) && forall t :: Has(times, t) <==> Has(Times(ds[..i]), t)
      invariant forall t :: t in marks <==> Has(times, t)
      invariant forall t :: MarkAt(marks, t) == NetAt(ds[..i], t)
    {
      var at := ds[i].occurred;
      TimesGrow(ds, i);
      FiguresGrow(ds, i);
      hide Times, NetAt;
      if at !in marks {
        InsertNew(times, at);
        times := Insert(times, at, Itself);
      }
      ghost var was := marks;
      marks := marks[at := MarkAt(marks, at) + ds[i].net];
      forall t ensures MarkAt(marks, t) == NetAt(ds[..i + 1], t) {
        assert MarkAt(was, t) == NetAt(ds[..i], t);
      }
    }
    assert ds[..|ds|] == ds;
  }

  lemma TimesGrow(ds: seq<Deal>, i: nat)
    requires i < |ds|
    ensures forall t :: Has(Times(ds[..i + 1]), t) <==> t == ds[i].occurred || Has(Times(ds[..i]), t)
  {
    var old', new' := Times(ds[..i]), Times(ds[..i + 1]);
    assert new' == old' + [ds[i].occurred];
    forall t ensures Has(new', t) <==> t == ds[i].occurred || Has(old', t) {
      assert new'[i] == ds[i].occurred;
      if Has(old', t) {
        var k :| 0 <= k < |old'| && old'[k] == t;
        assert new'[k] == t;
      }
    }
  }

  lemma FiguresGrow(ds: seq<Deal>, i: nat)
    requires i < |ds|
    ensures forall t :: NetAt(ds[..i + 1], t) == NetAt(ds[..i], t) + (if t == ds[i].occurred then ds[i].net else 0.0)
  {
    assert ds[..i + 1][..i] == ds[..i];
  }

  function MarkAt(marks: map<int, real>, t: int): real { if t in marks then marks[t] else 0.0 }

  lemma TimesCover(ds: seq<Deal>, times: seq<int>, lower: int)
    requires Increasing(times) && forall t :: Has(times, t) <==> Has(Times(ds), t)
    requires forall i :: 0 <= i < |ds| ==> lower <= ds[i].occurred
    ensures Covers(times, ds) && forall i :: 0 <= i < |times| ==> lower <= times[i]
  {
    forall i | 0 <= i < |ds| ensures Has(times, ds[i].occurred) { assert Times(ds)[i] == ds[i].occurred; }
    forall i | 0 <= i < |times| ensures lower <= times[i] {
      assert Has(times, times[i]);
      var k :| 0 <= k < |Times(ds)| && Times(ds)[k] == times[i];
      assert ds[k].occurred == times[i];
    }
  }

  method Drawdown(ds: seq<Deal>, ghost lower: int) returns (total: real, drawdown: real)
    requires forall i :: 0 <= i < |ds| ==> lower <= ds[i].occurred
    ensures total == Total(ds).net && IsDrawdown(ds, lower, drawdown)
  {
    var times, marks := Mark(ds);
    TimesCover(ds, times, lower);
    hide NetAt, IsDrawdown, Total, Times, Has, Covers;
    TieTotal(ds, times, lower);
    TiesGiveDrawdown(ds, times, lower);
    total, drawdown := 0.0, 0.0;
    var peak := 0.0;
    ghost var nets := TieNets(ds, times);
    for k := 0 to |times|
      invariant Curve(total, peak, drawdown) == CurveOf(nets[..k])
    {
      assert nets[..k + 1][..k] == nets[..k];
      total := total + MarkAt(marks, times[k]);
      peak := Max(peak, total);
      drawdown := Max(drawdown, peak - total);
    }
    assert nets[..|times|] == nets;
  }

  method SplitDays(ds: seq<Deal>, lower: int, upper: int) returns (days: seq<Row>)
    requires lower <= upper
    ensures days == RowsOf(ds, lower, upper)
  {
    DayOfOrdered(lower, upper);
    days := [];
    var cursor := lower;
    ghost var first, last := DayOf(lower), DayOf(upper);
    while cursor < upper || days == [] || days[|days| - 1].day != DayOf(upper)
      invariant |days| <= last - first + 1
      invariant forall k :: 0 <= k < |days| ==> days[k] == RowFor(ds, first + k, lower, upper)
      invariant cursor == if days == [] then lower else MinInt(upper, DayStart(first + |days|))
      decreases last - first + 1 - |days|
    {
      var day := DayOf(cursor);
      var end := MinInt(DayStart(day + 1), upper);
      assert day == first + |days|;
      days := days + [RowOf(ds, day, cursor, end)];
      cursor := end;
    }
  }

  method Summarize(deals: seq<Deal>, start: int, now: int, unresolved: nat) returns (c: Card)
    ensures Summarized(c, deals, start, now, unresolved)
  {
    if start > now { return Refused(WindowInvalid); }
    var lower := MaxInt(DayStart(DayOf(now) - 6), start);
    if |deals| > MAX_DEALS { return Refused(DealLimit); }
    var future, eligible := Filter(deals, lower, now);
    if future { return Refused(FutureBrokerClock); }
    EligibleCounts(deals, lower, now);
    var total, drawdown := Drawdown(eligible, lower);
    DayOfOrdered(now, now);
    var days := SplitDays(eligible, lower, now);
    c := Card(lower, now, days, total, drawdown, if unresolved > 0 then None else Some(SignsOf(days)));
  }
}
