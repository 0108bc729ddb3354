// Whose fill set the cancellation clock?  The evaluator keeps one clock for all
// plans.  A trace runs the evaluator and remembers the plan the live orders come
// from and the plan whose fill set the clock, which gives the exact condition
// under which a plan's orders are cancelled although none of them has filled.
module EvaluatorClock {
  import opened Common
  import opened StreamingBars
  import opened Evaluator

  // The book, the plan submitted last, whether an order of it has filled, the
  // plan whose fill set the running clock, and the clock as that plan found it.
  datatype Trace = Trace(book: Book, owner: Option<nat>, filled: bool, clockBy: Option<nat>, inherited: Option<int>)

  function Begin(): Trace { Trace(Empty(), None, false, None, None) }

  predicate Fires(b: Book, time: int) { b.cancelAt.Some? && time >= b.cancelAt.value }

  // The book before its orders meet the quote.
  function Rested(b: Book, q: Quote, sc: Scenario): Book {
    CancelPhase(ExpirePhase(ClosePhase(Elapse(b, q.time), MarksOf(q, sc), sc), q.time), q.time)
  }

  function TraceRest(t: Trace, q: Quote, sc: Scenario): Trace {
    t.(book := Rested(t.book, q, sc), clockBy := if Fires(t.book, q.time) then None else t.clockBy)
  }

  function TraceFills(t: Trace, m: Marks, sc: Scenario): Trace {
    if Openings(t.book.pending, m, sc) == [] then t.(book := FillPhase(t.book, m, sc))
    else t.(book := FillPhase(t.book, m, sc), filled := true, clockBy := t.owner)
  }

  predicate Accepts(b: Book, plan: Plan, m: Marks, sc: Scenario) {
    b.pending == [] && b.positions == [] && m.time < plan.expires && m.time - Due(plan, sc) <= MAX_GAP
    && !Through(plan.legs, m)
  }

  function TracePlans(t: Trace, plans: seq<Plan>, m: Marks, sc: Scenario): Trace
    decreases |plans| - t.book.index
  {
    if t.book.index < |plans| && Due(plans[t.book.index], sc) <= m.time then
      var next := Consider(t.book, plans[t.book.index], m, sc);
      TracePlans(if Accepts(t.book, plans[t.book.index], m, sc)
                 then Trace(next, Some(t.book.index), false, t.clockBy, t.book.cancelAt) else t.(book := next),
                 plans, m, sc)
    else t
  }

  function TraceQuote(t: Trace, plans: seq<Plan>, q: Quote, sc: Scenario): Trace {
    var m := MarksOf(q, sc);
    var planned := TracePlans(TraceFills(TraceRest(t, q, sc), m, sc), plans, m, sc);
    planned.(book := MarkPhase(planned.book, m))
  }

  function TraceRun(quotes: seq<Quote>, plans: seq<Plan>, sc: Scenario): Trace {
    if quotes == [] then Begin()
    else TraceQuote(TraceRun(quotes[..|quotes| - 1], plans, sc), plans, quotes[|quotes| - 1], sc)
  }

  lemma {:induction false} TracePlansBook(t: Trace, plans: seq<Plan>, m: Marks, sc: Scenario)
    ensures TracePlans(t, plans, m, sc).book == PlanPhase(t.book, plans, m, sc)
    decreases |plans| - t.book.index
  {
    hide Consider, Accepts;
    ConsiderNext(t.book, plans, m, sc);
    if t.book.index < |plans| && Due(plans[t.book.index], sc) <= m.time {
      var next := Consider(t.book, plans[t.book.index], m, sc);
      TracePlansBook(if Accepts(t.book, plans[t.book.index], m, sc)
                     then Trace(next, Some(t.book.index), false, t.clockBy, t.book.cancelAt) else t.(book := next),
                     plans, m, sc);
    }
  }

  lemma ConsiderNext(b: Book, plans: seq<Plan>, m: Marks, sc: Scenario)
    ensures b.index < |plans| ==> Consider(b, plans[b.index], m, sc).index == b.index + 1
  {
  }

  // A trace is a run with a memory: its book is the evaluator's.
  lemma {:induction false} TraceIsTheRun(quotes: seq<Quote>, plans: seq<Plan>, sc: Scenario)
    ensures TraceRun(quotes, plans, sc).book == Run(quotes, plans, sc)
  {
    if quotes != [] {
      TraceIsTheRun(quotes[..|quotes| - 1], plans, sc);
      TraceQuoteBook(TraceRun(quotes[..|quotes| - 1], plans, sc), plans, quotes[|quotes| - 1], sc);
      hide TraceQuote, OnQuote;
    }
  }

  lemma TraceQuoteBook(t: Trace, plans: seq<Plan>, q: Quote, sc: Scenario)
    ensures TraceQuote(t, plans, q, sc).book == OnQuote(t.book, plans, q, sc)
  {
    hide Elapse, ClosePhase, ExpirePhase, CancelPhase, FillPhase, PlanPhase, MarkPhase, MarksOf, TracePlans;
    var m := MarksOf(q, sc);
    TracePlansBook(TraceFills(TraceRest(t, q, sc), m, sc), plans, m, sc);
  }

  // ---------------------------------------------------------------- invariant

  // Plans are taken in order, so a plan is looked at by the first quote at or
  // after the latest due time up to its own.
  function Turn(plans: seq<Plan>, sc: Scenario, n: nat): int
    requires n < |plans|
  {
    if n == 0 then Due(plans[0], sc) else MaxInt(Turn(plans, sc, n - 1), Due(plans[n], sc))
  }

  lemma {:induction false} TurnsRise(plans: seq<Plan>, sc: Scenario, m: nat, n: nat)
    requires m <= n < |plans|
    ensures Turn(plans, sc, m) <= Turn(plans, sc, n)
  {
    if m < n { TurnsRise(plans, sc, m, n - 1); }
  }

  ghost predicate Placed(t: Trace, plans: seq<Plan>) {
    var b := t.book;
    b.index <= |plans|
    && (if t.owner.Some? then t.owner.value < b.index else b.pending == [] && b.positions == [] && !t.filled)
    && (b.positions != [] ==> t.filled)
    && (b.pending != [] ==> b.expiry == plans[t.owner.value].expires)
    && (b.pending != [] && !t.filled ==> b.pending == plans[t.owner.value].legs && b.cancelAt == t.inherited)
  }

  // The running clock: set by a fill of the plan remembered, at the time the
  // clock says, after that plan's turn and before its expiry.
  ghost predicate Clocked(t: Trace, plans: seq<Plan>, sc: Scenario)
    requires Placed(t, plans)
  {
    (t.book.cancelAt.Some? <==> t.clockBy.Some?)
    && (t.clockBy.Some? ==>
          t.owner.Some? && sc.entrySlippage <= LIMIT
          && (if t.filled then t.clockBy == t.owner else t.clockBy.value < t.owner.value)
          && Turn(plans, sc, t.clockBy.value) < t.book.cancelAt.value - sc.cancelLatency
          && t.book.cancelAt.value - sc.cancelLatency < plans[t.clockBy.value].expires)
  }

  // The clock a plan found when it was submitted, and finds still.
  ghost predicate Found(t: Trace, plans: seq<Plan>, sc: Scenario)
    requires Placed(t, plans)
  {
    t.book.pending != [] && !t.filled && t.book.cancelAt.Some? ==>
      t.book.cancelAt.value - sc.cancelLatency < Turn(plans, sc, t.owner.value) < t.book.cancelAt.value
  }

  ghost predicate Known(t: Trace, plans: seq<Plan>, sc: Scenario) {
    Placed(t, plans) && Clocked(t, plans, sc) && Found(t, plans, sc)
  }

  // Where the tape stands: the plans whose turn has come have been looked at.
  ghost predicate Reached(b: Book, plans: seq<Plan>, sc: Scenario, time: int) {
    b.index <= |plans| && (b.index > 0 ==> Turn(plans, sc, b.index - 1) <= time)
  }

  ghost predicate Ahead(b: Book, plans: seq<Plan>, sc: Scenario, time: int) {
    b.index < |plans| ==> time < Turn(plans, sc, b.index)
  }

  // Between quotes.
  ghost predicate Between(t: Trace, plans: seq<Plan>, sc: Scenario) {
    Known(t, plans, sc)
    && match t.book.prior
       case None => t == Begin()
       case Some(last) =>
         Reached(t.book, plans, sc, last) && Ahead(t.book, plans, sc, last)
         && (t.book.cancelAt.Some? ==> t.book.cancelAt.value - sc.cancelLatency <= last)
         && (t.book.pending != [] && !t.filled && t.book.cancelAt.Some? ==> last < t.book.cancelAt.value)
  }

  // In the middle of a quote, before the plans are looked at.
  ghost predicate Amid(t: Trace, plans: seq<Plan>, sc: Scenario, last: Option<int>, time: int) {
    var b := t.book;
    Known(t, plans, sc) && Reached(b, plans, sc, time) && (last.Some? ==> Ahead(b, plans, sc, last.value))
    && (b.cancelAt.Some? ==> b.cancelAt.value - sc.cancelLatency <= time)
    && (b.cancelAt.Some? && b.positions == [] ==> last.Some? && b.cancelAt.value - sc.cancelLatency <= last.value)
    && (b.cancelAt.Some? && !t.filled ==> time < b.cancelAt.value)
    && (b.cancelAt.Some? && b.positions == [] ==> time < b.cancelAt.value)
  }

  // What the clearing phases do to the fields the clock depends on.
  lemma RestedFields(b: Book, q: Quote, sc: Scenario)
    ensures var r := Rested(b, q, sc);
            r.index == b.index && r.expiry == b.expiry && r.prior == Some(q.time)
            && (r.pending == [] || (r.pending == b.pending && q.time < b.expiry && !Fires(b, q.time)))
            && (b.positions == [] ==> r.positions == [])
            && r.cancelAt == (if Fires(b, q.time) then None else b.cancelAt)
  {
    hide Volume, Nets, FeeSum, Exits;
  }

  lemma RestKnown(t: Trace, plans: seq<Plan>, q: Quote, sc: Scenario)
    requires Between(t, plans, sc) && (t.book.prior.Some? ==> t.book.prior.value < q.time)
    ensures Amid(TraceRest(t, q, sc), plans, sc, t.book.prior, q.time)
    ensures var b := TraceRest(t, q, sc).book;
            (b.pending != [] ==> q.time < b.expiry)
            && (b.pending != [] ==> t.book.prior.Some? && Reached(b, plans, sc, t.book.prior.value))
            && (b.cancelAt.Some? ==> t.book.prior.Some? && b.cancelAt.value - sc.cancelLatency <= t.book.prior.value)
            && (b.cancelAt.Some? ==> q.time < b.cancelAt.value)
  {
    RestedFields(t.book, q, sc);
    hide Rested, Turn;
  }

  lemma {:induction false} NoOpenings(legs: seq<PlanLeg>, m: Marks, sc: Scenario)
    ensures Openings(legs, m, sc) == [] ==> Resting(legs, m, sc) == legs
    ensures Openings(legs, m, sc) != [] ==> sc.entrySlippage <= LIMIT && legs != []
  {
    hide Opened;
    if legs != [] { NoOpenings(legs[..|legs| - 1], m, sc); }
  }

  lemma FillsKnown(t: Trace, plans: seq<Plan>, last: Option<int>, m: Marks, sc: Scenario)
    requires Amid(t, plans, sc, last, m.time) && (t.book.pending != [] ==> m.time < t.book.expiry)
    requires t.book.pending != [] ==> last.Some? && last.value < m.time && Reached(t.book, plans, sc, last.value)
    ensures Amid(TraceFills(t, m, sc), plans, sc, last, m.time)
  {
    NoOpenings(t.book.pending, m, sc);
    if Openings(t.book.pending, m, sc) != [] {
      TurnsRise(plans, sc, t.owner.value, t.book.index - 1);
    }
    hide Openings, Resting, Missed, Turn;
  }

  lemma ConsiderFields(b: Book, plan: Plan, m: Marks, sc: Scenario)
    ensures var c := Consider(b, plan, m, sc);
            c.index == b.index + 1 && c.positions == b.positions && c.cancelAt == b.cancelAt && c.prior == b.prior
            && (if Accepts(b, plan, m, sc) then c.pending == plan.legs && c.expiry == plan.expires
                else c.pending == b.pending && c.expiry == b.expiry)
  {
  }

  lemma {:induction false} PlansKnown(t: Trace, plans: seq<Plan>, last: Option<int>, m: Marks, sc: Scenario)
    requires Amid(t, plans, sc, last, m.time)
    ensures var t' := TracePlans(t, plans, m, sc);
            Amid(t', plans, sc, last, m.time) && Ahead(t'.book, plans, sc, m.time) && t'.book.prior == t.book.prior
    decreases |plans| - t.book.index
  {
    if t.book.index < |plans| && Due(plans[t.book.index], sc) <= m.time {
      var b, plan := t.book, plans[t.book.index];
      var next := if Accepts(b, plan, m, sc)
                  then Trace(Consider(b, plan, m, sc), Some(b.index), false, t.clockBy, b.cancelAt)
                  else t.(book := Consider(b, plan, m, sc));
      ConsiderFields(b, plan, m, sc);
      PlanKnown(t, next, plans, last, m, sc);
      hide Consider, Accepts, Amid, Ahead;
      PlansKnown(next, plans, last, m, sc);
    } else if t.book.index < |plans| && t.book.index > 0 {
      assert m.time < Turn(plans, sc, t.book.index);
    }
  }

  lemma PlanKnown(t: Trace, t': Trace, plans: seq<Plan>, last: Option<int>, m: Marks, sc: Scenario)
    requires Amid(t, plans, sc, last, m.time) && t.book.index < |plans|
    requires var b, plan := t.book, plans[t.book.index];
             Due(plan, sc) <= m.time
             && t' ==
                (if Accepts(b, plan, m, sc)
                    then Trace(Consider(b, plan, m, sc), Some(b.index), false, t.clockBy, b.cancelAt)
                       else t.(book := Consider(b, plan, m, sc)))
    ensures Amid(t', plans, sc, last, m.time)
  {
    var b, plan := t.book, plans[t.book.index];
    ConsiderFields(b, plan, m, sc);
    TurnsRise(plans, sc, b.index, b.index);
    if b.index + 1 < |plans| { TurnsRise(plans, sc, b.index, b.index + 1); }
    assert Turn(plans, sc, b.index) <= m.time;
    hide Consider, Turn, Due;
  }

  lemma QuoteKnown(t: Trace, plans: seq<Plan>, q: Quote, sc: Scenario)
    requires Between(t, plans, sc) && (t.book.prior.Some? ==> t.book.prior.value < q.time)
    ensures Between(TraceQuote(t, plans, q, sc), plans, sc)
  {
    assert MarksOf(q, sc).time == q.time;
    var m, r := MarksOf(q, sc), TraceRest(t, q, sc);
    RestKnown(t, plans, q, sc);
    RestedFields(t.book, q, sc);
    FillsPrior(r, m, sc);
    hide Rested, Between, Amid, Ahead, Reached, MarkPhase, TraceFills, MarksOf;
    FillsKnown(r, plans, t.book.prior, m, sc);
    var f := TraceFills(r, m, sc);
    PlansKnown(f, plans, t.book.prior, m, sc);
    hide TraceRest, TracePlans;
    MarkKnown(TracePlans(f, plans, m, sc), plans, t.book.prior, m, sc);
  }

  lemma FillsPrior(t: Trace, m: Marks, sc: Scenario)
    ensures TraceFills(t, m, sc).book.prior == t.book.prior
  {
  }

  lemma MarkKnown(t: Trace, plans: seq<Plan>, last: Option<int>, m: Marks, sc: Scenario)
    requires Amid(t, plans, sc, last, m.time) && Ahead(t.book, plans, sc, m.time) && t.book.prior == Some(m.time)
    ensures Between(t.(book := MarkPhase(t.book, m)), plans, sc)
  {
    hide Equity, Turn;
  }

  lemma {:induction false} RunKnown(quotes: seq<Quote>, plans: seq<Plan>, sc: Scenario)
    requires Ordered(quotes)
    ensures Between(TraceRun(quotes, plans, sc), plans, sc)
    ensures TraceRun(quotes, plans, sc).book.prior == if quotes == [] then None else Some(quotes[|quotes| - 1].time)
  {
    hide TraceQuote, Between, Turn, Begin;
    if quotes == [] {
      BeginKnown(plans, sc);
    } else {
      var front, q := quotes[..|quotes| - 1], quotes[|quotes| - 1];
      RunKnown(front, plans, sc);
      QuoteKnown(TraceRun(front, plans, sc), plans, q, sc);
      QuotePrior(TraceRun(front, plans, sc), plans, q, sc);
    }
  }

  lemma BeginKnown(plans: seq<Plan>, sc: Scenario)
    ensures Between(Begin(), plans, sc) && Begin().book.prior.None?
  {
  }

  lemma QuotePrior(t: Trace, plans: seq<Plan>, q: Quote, sc: Scenario)
    ensures TraceQuote(t, plans, q, sc).book.prior == Some(q.time)
  {
    var m := MarksOf(q, sc);
    RestedFields(t.book, q, sc);
    TracePlansBook(TraceFills(TraceRest(t, q, sc), m, sc), plans, m, sc);
    PlansKeepPrior(TraceFills(TraceRest(t, q, sc), m, sc).book, plans, m, sc);
    hide Rested, TracePlans, PlanPhase;
  }

  lemma {:induction false} PlansKeepPrior(b: Book, plans: seq<Plan>, m: Marks, sc: Scenario)
    ensures PlanPhase(b, plans, m, sc).prior == b.prior
    decreases |plans| - b.index
  {
    if b.index < |plans| && Due(plans[b.index], sc) <= m.time {
      PlansKeepPrior(Consider(b, plans[b.index], m, sc), plans, m, sc);
    }
  }

  // ------------------------------------------------------- orders of an unfilled plan

  // The quote cancels orders of plan n none of which has filled.
  ghost predicate Orphaned(quotes: seq<Quote>, plans: seq<Plan>, sc: Scenario, q: Quote, n: nat) {
    var t := TraceRun(quotes, plans, sc);
    t.owner == Some(n) && t.book.pending != [] && !t.filled
    && OnQuote(t.book, plans, q, sc).counters.ocoCancelled > t.book.counters.ocoCancelled
  }

  // Main result: the orders of a plan none of which has filled are cancelled
  // exactly by the first quote at or after a clock that was already running when
  // the plan was submitted, set by a fill of an earlier plan, if they rest until
  // then: no gap and no expiry removes them.
  lemma OrphanedExactly(quotes: seq<Quote>, plans: seq<Plan>, sc: Scenario, q: Quote)
    requires Ordered(quotes + [q]) && TraceRun(quotes, plans, sc).book.pending != []
             && !TraceRun(quotes, plans, sc).filled
    ensures var t := TraceRun(quotes, plans, sc);
            t.owner.Some? && t.owner.value < |plans| && t.book.prior.Some?
            && t.book.pending == plans[t.owner.value].legs
            && (t.inherited.Some? ==>
                  t.clockBy.Some? && t.clockBy.value < t.owner.value && t.book.prior.value < t.inherited.value)
            && OnQuote(t.book, plans, q, sc).counters.ocoCancelled
               == t.book.counters.ocoCancelled
                  + if t.inherited.Some? && t.inherited.value <= q.time && q.time < plans[t.owner.value].expires
                       && q.time - t.book.prior.value <= MAX_GAP then |plans[t.owner.value].legs| else 0
  {
    assert (quotes + [q])[..|quotes|] == quotes;
    var t := TraceRun(quotes, plans, sc);
    assert Ordered(quotes) by { OrderedFront(quotes, q); }
    RunKnown(quotes, plans, sc);
    CancelCount(t.book, plans, q, sc);
    hide OnQuote, TraceRun, Turn, Run;
  }

  lemma OrderedFront(quotes: seq<Quote>, q: Quote)
    requires Ordered(quotes + [q])
    ensures Ordered(quotes) && (quotes != [] ==> quotes[|quotes| - 1].time < q.time)
  {
    var all := quotes + [q];
    forall i | 0 <= i < |quotes| ensures quotes[i] == all[i] {}
    assert all[|quotes|] == q;
  }

  // A fill of plan m at time f leaves a clock that finds plan n in its turn and
  // runs out before n expires.
  predicate Crosses(plans: seq<Plan>, sc: Scenario, m: nat, n: nat, f: int)
    requires m < n < |plans|
  {
    Turn(plans, sc, m) < f < Turn(plans, sc, n) < f + sc.cancelLatency < plans[n].expires && f < plans[m].expires
  }

  ghost predicate CanCross(plans: seq<Plan>, sc: Scenario, n: nat) {
    sc.entrySlippage <= LIMIT && n < |plans| && exists m: nat, f :: m < n && Crosses(plans, sc, m, n, f)
  }

  // Main result: on no tape are orders of plan n cancelled unfilled unless the
  // due times, the expiries and the cancellation latency let a clock cross.
  lemma OrphanedOnlyByCrossing(quotes: seq<Quote>, plans: seq<Plan>, sc: Scenario, q: Quote, n: nat)
    requires Ordered(quotes + [q]) && Orphaned(quotes, plans, sc, q, n)
    ensures CanCross(plans, sc, n)
  {
    OrderedFront(quotes, q);
    RunKnown(quotes, plans, sc);
    OrphanedExactly(quotes, plans, sc, q);
    var t := TraceRun(quotes, plans, sc);
    assert Crosses(plans, sc, t.clockBy.value, n, t.inherited.value - sc.cancelLatency) by {
      hide TraceRun, OnQuote, Turn;
    }
  }

  // What a stretch of the tape leaves as it was.
  predicate SameOrders(t: Trace, t': Trace) {
    t'.book.pending == t.book.pending && t'.book.expiry == t.book.expiry && t'.book.cancelAt == t.book.cancelAt
    && t'.owner == t.owner && t'.filled == t.filled
  }

  ghost predicate AllExit(ps: seq<Position>, m: Marks) { forall i :: 0 <= i < |ps| ==> Exits(ps[i], m) }

  lemma {:induction false} NoneKept(ps: seq<Position>, m: Marks)
    requires AllExit(ps, m)
    ensures Kept(ps, m) == []
  {
    if ps != [] { NoneKept(ps[..|ps| - 1], m); }
  }

  lemma FillsNothing(t: Trace, m: Marks, sc: Scenario)
    requires Openings(t.book.pending, m, sc) == [] && Resting(t.book.pending, m, sc) == t.book.pending
    ensures SameOrders(t, TraceFills(t, m, sc)) && TraceFills(t, m, sc).book.positions == t.book.positions
    ensures TraceFills(t, m, sc).book.index == t.book.index
  {
    hide Openings, Resting, Missed;
  }

  lemma MarkOrders(t: Trace, m: Marks)
    ensures SameOrders(t, t.(book := MarkPhase(t.book, m))) && MarkPhase(t.book, m).positions == t.book.positions
  {
    hide Equity;
  }

  lemma {:induction false} PlansKeepClock(t: Trace, plans: seq<Plan>, m: Marks, sc: Scenario)
    ensures var t' := TracePlans(t, plans, m, sc);
            t'.clockBy == t.clockBy && t'.book.cancelAt == t.book.cancelAt && t'.book.positions == t.book.positions
    decreases |plans| - t.book.index
  {
    hide Accepts;
    if t.book.index < |plans| && Due(plans[t.book.index], sc) <= m.time {
      var b, plan := t.book, plans[t.book.index];
      ConsiderFields(b, plan, m, sc);
      hide Consider;
      PlansKeepClock(if Accepts(b, plan, m, sc)
                     then Trace(Consider(b, plan, m, sc), Some(b.index), false, t.clockBy, b.cancelAt)
                     else t.(book := Consider(b, plan, m, sc)), plans, m, sc);
    }
  }

  // The clock is its plan's until it runs out, also when the plan has nothing
  // left to cancel and its positions have closed.
  lemma ClockOutlivesPosition(quotes: seq<Quote>, plans: seq<Plan>, sc: Scenario, q: Quote)
    requires Ordered(quotes + [q])
    requires var b := TraceRun(quotes, plans, sc).book;
             b.pending == [] && b.positions != [] && b.cancelAt.Some? && q.time < b.cancelAt.value
             && AllExit(b.positions, MarksOf(q, sc))
    ensures var t, t' := TraceRun(quotes, plans, sc), TraceRun(quotes + [q], plans, sc);
            t.clockBy == t.owner && t.clockBy.Some?
            && t'.book.positions == [] && t'.book.cancelAt == t.book.cancelAt && t'.clockBy == t.clockBy
  {
    assert (quotes + [q])[..|quotes|] == quotes;
    var t := TraceRun(quotes, plans, sc);
    OrderedFront(quotes, q);
    RunKnown(quotes, plans, sc);
    ClosingKeepsClock(t, plans, q, sc);
    hide TraceQuote, Turn, Exits;
  }

  lemma ClosingKeepsClock(t: Trace, plans: seq<Plan>, q: Quote, sc: Scenario)
    requires t.book.pending == [] && !Fires(t.book, q.time) && AllExit(t.book.positions, MarksOf(q, sc))
    ensures var t' := TraceQuote(t, plans, q, sc);
            t'.book.positions == [] && t'.book.cancelAt == t.book.cancelAt && t'.clockBy == t.clockBy
  {
    var m, r := MarksOf(q, sc), TraceRest(t, q, sc);
    RestedFields(t.book, q, sc);
    RestCloses(t.book, q, sc);
    FillsNothing(r, m, sc);
    hide Rested, Fires, MarksOf, Openings;
    var f := TraceFills(r, m, sc);
    PlansKeepClock(f, plans, m, sc);
    MarkOrders(TracePlans(f, plans, m, sc), m);
    hide TracePlans, MarkPhase;
  }

  lemma RestCloses(b: Book, q: Quote, sc: Scenario)
    requires AllExit(b.positions, MarksOf(q, sc))
    ensures Rested(b, q, sc).positions == []
  {
    hide Volume, Nets, FeeSum, Exits;
    NoneKept(b.positions, MarksOf(q, sc));
  }

  // -------------------------------------------------------- and a clock that can cross does

  predicate PricedLeg(leg: PlanLeg, low: real, high: real) {
    leg.target >= 0.0 && leg.stop >= 0.0
    && low + leg.target + leg.stop + 2.0 * LIMIT < leg.entry < high - leg.target - leg.stop - 2.0 * LIMIT
  }

  // The legs the planner makes: one leg, or a buy above a sell.
  predicate Shaped(legs: seq<PlanLeg>) {
    |legs| == 1
    || (|legs| == 2 && legs[0].side.Buy? && legs[1].side.Sell? && legs[1].entry < legs[0].entry)
  }

  // Plans as the planner makes them, at prices well inside (low, high): valid,
  // of rising due times and with positive epoch times.
  predicate Ordinary(plans: seq<Plan>, sc: Scenario, low: real, high: real) {
    0.0 < low < high && PlansValid(plans)
    && (forall i, j :: 0 <= i < j < |plans| ==> Due(plans[i], sc) < Due(plans[j], sc))
    && (forall i :: 0 <= i < |plans| ==> plans[i].created > 0 && Shaped(plans[i].legs))
    && forall i, l :: 0 <= i < |plans| && 0 <= l < |plans[i].legs| ==> PricedLeg(plans[i].legs[l], low, high)
  }

  function Wide(time: int, low: real, high: real): Marks { Marks(time, low, high) }

  function Opening(legs: seq<PlanLeg>, time: int, low: real, high: real): Marks
    requires Shaped(legs)
  {
    if |legs| == 2 then
      var width := (legs[0].entry - legs[1].entry) / 3.0;
      Marks(time, legs[1].entry + width, legs[0].entry - width)
    else if legs[0].side.Buy? then Marks(time, low, low + LIMIT)
    else Marks(time, high - LIMIT, high)
  }

  function Filling(legs: seq<PlanLeg>, time: int, low: real, high: real): Marks
    requires Shaped(legs)
  {
    if |legs| == 2 then Marks(time, legs[1].entry, legs[0].entry)
    else if legs[0].side.Buy? then Marks(time, low, legs[0].entry)
    else Marks(time, legs[0].entry, high)
  }

  // The quote whose executable prices are the marks.
  function QuoteOf(m: Marks, sc: Scenario): Quote
    requires sc.spreadMultiplier >= 1.0
  {
    var mid, half := (m.bid + m.ask) / 2.0, (m.ask - m.bid) / sc.spreadMultiplier / 2.0;
    Quote(m.time, mid - half, mid + half)
  }

  predicate Usable(q: Quote) { 0.0 < q.bid < q.ask }

  lemma Narrower(x: real, k: real)
    requires x > 0.0 && k >= 1.0
    ensures 0.0 < x / k <= x && x / k * k == x
  {
    var y := x / k;
    assert y * k == x;
    if y > x {
      ScaleUp(1.0, k, y);
    }
  }

  lemma QuoteOfMarks(m: Marks, sc: Scenario)
    requires sc.spreadMultiplier >= 1.0 && 0.0 < m.bid < m.ask
    ensures MarksOf(QuoteOf(m, sc), sc) == m && Usable(QuoteOf(m, sc))
  {
    Narrower(m.ask - m.bid, sc.spreadMultiplier);
    var q := QuoteOf(m, sc);
    assert q.ask - q.bid == (m.ask - m.bid) / sc.spreadMultiplier;
    assert (q.ask - q.bid) * sc.spreadMultiplier == m.ask - m.bid;
  }

  lemma WideMeans(legs: seq<PlanLeg>, time: int, low: real, high: real, sc: Scenario)
    requires Shaped(legs) && sc.entrySlippage >= 0.0
    requires forall l :: 0 <= l < |legs| ==> PricedLeg(legs[l], low, high)
    ensures Through(legs, Wide(time, low, high))
    ensures forall l :: 0 <= l < |legs| ==> !Fills(legs[l], Wide(time, low, high), sc)
  {
    assert PricedLeg(legs[0], low, high);
  }

  lemma OpeningMeans(legs: seq<PlanLeg>, time: int, low: real, high: real)
    requires Shaped(legs) && 0.0 < low < high
    requires forall l :: 0 <= l < |legs| ==> PricedLeg(legs[l], low, high)
    ensures var m := Opening(legs, time, low, high); m.time == time && 0.0 < m.bid < m.ask && !Through(legs, m)
  {
    assert PricedLeg(legs[0], low, high);
    if |legs| == 2 { assert PricedLeg(legs[1], low, high); }
  }

  lemma FillingMeans(legs: seq<PlanLeg>, time: int, low: real, high: real, sc: Scenario)
    requires Shaped(legs) && 0.0 < low < high && 0.0 <= sc.entrySlippage <= LIMIT
    requires forall l :: 0 <= l < |legs| ==> PricedLeg(legs[l], low, high)
    ensures var m := Filling(legs, time, low, high);
            m.time == time && 0.0 < m.bid < m.ask
            && forall l :: 0 <= l < |legs| ==> Fills(legs[l], m, sc) && OpenedAt(legs[l], m, sc)
  {
    assert PricedLeg(legs[0], low, high);
    if |legs| == 2 { assert PricedLeg(legs[1], low, high); }
  }

  predicate OpenedAt(leg: PlanLeg, m: Marks, sc: Scenario) {
    Opened(leg, m, sc).entry == leg.entry + Signed(leg.side, sc.entrySlippage)
  }

  // A position opened at its entry is closed by the widest quote, and by the
  // quote at either end of the range.
  lemma ClosedBy(leg: PlanLeg, fill: Marks, m: Marks, sc: Scenario, low: real, high: real)
    requires PricedLeg(leg, low, high) && OpenedAt(leg, fill, sc) && 0.0 <= sc.entrySlippage <= LIMIT
    requires (m.bid == low && (m.ask == high || m.ask == low + LIMIT)) || (m.bid == high - LIMIT && m.ask == high)
    ensures Exits(Opened(leg, fill, sc), m)
  {
  }

  lemma {:induction false} OpeningsExit(legs: seq<PlanLeg>, fill: Marks, m: Marks, sc: Scenario)
    requires forall l :: 0 <= l < |legs| ==> Exits(Opened(legs[l], fill, sc), m)
    ensures forall i :: 0 <= i < |Openings(legs, fill, sc)| ==> Exits(Openings(legs, fill, sc)[i], m)
  {
    hide Exits, Opened, Fills;
    if legs != [] { OpeningsExit(legs[..|legs| - 1], fill, m, sc); }
  }

  lemma {:induction false} AllFill(legs: seq<PlanLeg>, m: Marks, sc: Scenario)
    requires forall l :: 0 <= l < |legs| ==> Fills(legs[l], m, sc)
    ensures Resting(legs, m, sc) == [] && |Openings(legs, m, sc)| == |legs|
  {
    hide Fills, Opened;
    if legs != [] { AllFill(legs[..|legs| - 1], m, sc); }
  }

  lemma {:induction false} NoneFill(legs: seq<PlanLeg>, m: Marks, sc: Scenario)
    requires forall l :: 0 <= l < |legs| ==> !Fills(legs[l], m, sc)
    ensures Resting(legs, m, sc) == legs && Openings(legs, m, sc) == []
  {
    hide Fills, Opened;
    if legs != [] { NoneFill(legs[..|legs| - 1], m, sc); }
  }

  // The quote comes in time for everything that is live, and closes all positions.
  ghost predicate Lively(b: Book, m: Marks) {
    (b.prior.Some? ==> 0 < m.time - b.prior.value <= MAX_GAP) && (b.pending != [] ==> m.time < b.expiry)
    && (b.cancelAt.Some? ==> m.time < b.cancelAt.value) && AllExit(b.positions, m)
  }

  lemma RestLively(t: Trace, q: Quote, sc: Scenario)
    requires Lively(t.book, MarksOf(q, sc))
    ensures SameOrders(t, TraceRest(t, q, sc)) && TraceRest(t, q, sc).book.positions == []
    ensures TraceRest(t, q, sc).book.index == t.book.index
  {
    hide Volume, Nets, FeeSum, Exits;
    NoneKept(t.book.positions, MarksOf(q, sc));
  }

  ghost predicate Busy(b: Book, plans: seq<Plan>, m: Marks) {
    b.pending != [] || b.positions != [] || forall k :: 0 <= k < |plans| ==> Through(plans[k].legs, m)
  }

  lemma {:induction false} BusyRejects(t: Trace, plans: seq<Plan>, m: Marks, sc: Scenario)
    requires Busy(t.book, plans, m)
    ensures SameOrders(t, TracePlans(t, plans, m, sc)) && TracePlans(t, plans, m, sc).book.positions == t.book.positions
    decreases |plans| - t.book.index
  {
    hide Through;
    if t.book.index < |plans| && Due(plans[t.book.index], sc) <= m.time {
      ConsiderFields(t.book, plans[t.book.index], m, sc);
      BusyRejects(t.(book := Consider(t.book, plans[t.book.index], m, sc)), plans, m, sc);
    }
  }

  // A quote that fills nothing and closes everything leaves the orders alone.
  lemma QuietQuote(t: Trace, plans: seq<Plan>, q: Quote, sc: Scenario)
    requires Lively(t.book, MarksOf(q, sc))
    requires forall l :: 0 <= l < |t.book.pending| ==> !Fills(t.book.pending[l], MarksOf(q, sc), sc)
    requires forall k :: 0 <= k < |plans| ==> Through(plans[k].legs, MarksOf(q, sc))
    ensures SameOrders(t, TraceQuote(t, plans, q, sc)) && TraceQuote(t, plans, q, sc).book.positions == []
  {
    var m, r := MarksOf(q, sc), TraceRest(t, q, sc);
    RestLively(t, q, sc);
    NoneFill(r.book.pending, m, sc);
    FillsNothing(r, m, sc);
    hide TraceRest, MarksOf, Through, Fills, Lively, Openings;
    var f := TraceFills(r, m, sc);
    BusyRejects(f, plans, m, sc);
    MarkOrders(TracePlans(f, plans, m, sc), m);
    hide TracePlans, MarkPhase, TraceFills;
  }

  // A quote that fills all resting orders.
  lemma FillingQuote(t: Trace, plans: seq<Plan>, q: Quote, sc: Scenario)
    requires Lively(t.book, MarksOf(q, sc)) && t.book.pending != []
    requires forall l :: 0 <= l < |t.book.pending| ==> Fills(t.book.pending[l], MarksOf(q, sc), sc)
    ensures var t' := TraceQuote(t, plans, q, sc);
            t'.book.pending == [] && t'.book.positions == Openings(t.book.pending, MarksOf(q, sc), sc)
            && t'.book.cancelAt == Some(q.time + sc.cancelLatency)
  {
    var m, r := MarksOf(q, sc), TraceRest(t, q, sc);
    assert m.time == q.time;
    RestLively(t, q, sc);
    AllFill(r.book.pending, m, sc);
    FillsEverything(r, m, sc);
    hide TraceRest, MarksOf, Fills, Lively, Openings;
    var f := TraceFills(r, m, sc);
    BusyRejects(f, plans, m, sc);
    MarkOrders(TracePlans(f, plans, m, sc), m);
    hide TracePlans, MarkPhase, TraceFills;
  }

  lemma FillsEverything(t: Trace, m: Marks, sc: Scenario)
    requires Openings(t.book.pending, m, sc) != [] && Resting(t.book.pending, m, sc) == [] && t.book.positions == []
    ensures var t' := TraceFills(t, m, sc);
            t'.book.pending == [] && t'.book.positions == Openings(t.book.pending, m, sc)
            && t'.book.cancelAt == Some(m.time + sc.cancelLatency)
  {
    hide Openings, Resting, Missed;
    assert [] + Openings(t.book.pending, m, sc) == Openings(t.book.pending, m, sc);
  }

  lemma TakesOne(t: Trace, plans: seq<Plan>, k: nat, m: Marks, sc: Scenario)
    requires t.book.pending == [] && t.book.positions == [] && t.book.index == k < |plans|
    requires Due(plans[k], sc) <= m.time < plans[k].expires && m.time - Due(plans[k], sc) <= MAX_GAP
    requires !Through(plans[k].legs, m) && (k + 1 < |plans| ==> m.time < Due(plans[k + 1], sc))
    ensures var t' := TracePlans(t, plans, m, sc);
            t'.book.pending == plans[k].legs && t'.book.expiry == plans[k].expires && t'.book.positions == []
            && t'.book.cancelAt == t.book.cancelAt && t'.owner == Some(k) && !t'.filled
  {
    ConsiderFields(t.book, plans[k], m, sc);
    var next := Trace(Consider(t.book, plans[k], m, sc), Some(k), false, t.clockBy, t.book.cancelAt);
    assert Accepts(t.book, plans[k], m, sc);
    hide Consider, Through, Due, Accepts;
    assert TracePlans(t, plans, m, sc) == TracePlans(next, plans, m, sc);
    assert TracePlans(next, plans, m, sc) == next;
  }

  // A quote at which plan k is due and its legs can be placed.
  lemma OpeningQuote(t: Trace, plans: seq<Plan>, k: nat, q: Quote, sc: Scenario)
    requires Lively(t.book, MarksOf(q, sc)) && t.book.pending == [] && t.book.index == k < |plans|
    requires Due(plans[k], sc) <= q.time < plans[k].expires && q.time - Due(plans[k], sc) <= MAX_GAP
    requires !Through(plans[k].legs, MarksOf(q, sc)) && (k + 1 < |plans| ==> q.time < Due(plans[k + 1], sc))
    ensures var t' := TraceQuote(t, plans, q, sc);
            t'.book.pending == plans[k].legs && t'.book.expiry == plans[k].expires && t'.book.positions == []
            && t'.book.cancelAt == t.book.cancelAt && t'.owner == Some(k) && !t'.filled
  {
    var m, r := MarksOf(q, sc), TraceRest(t, q, sc);
    assert m.time == q.time;
    RestLively(t, q, sc);
    FillsNothing(r, m, sc);
    hide TraceRest, MarksOf, Through, Lively, Openings;
    var f := TraceFills(r, m, sc);
    TakesOne(f, plans, k, m, sc);
    MarkOrders(TracePlans(f, plans, m, sc), m);
    hide TraceFills, TracePlans, MarkPhase, Due;
  }

  // A usable tape up to a time.
  ghost predicate Tape(quotes: seq<Quote>, time: int) {
    Ordered(quotes) && quotes != [] && quotes[|quotes| - 1].time == time
    && forall i :: 0 <= i < |quotes| ==> Usable(quotes[i])
  }

  ghost predicate Setting(plans: seq<Plan>, sc: Scenario, low: real, high: real) {
    Ordinary(plans, sc, low, high) && ScenarioOk(sc)
  }

  lemma Append(
      quotes: seq<Quote>, last: int, m: Marks, plans: seq<Plan>, sc: Scenario) returns (more: seq<Quote>, q: Quote)
    requires (quotes == [] && 0 <= m.time) || (Tape(quotes, last) && last < m.time)
    requires ScenarioOk(sc) && 0.0 < m.bid < m.ask
    ensures more == quotes + [q] && Tape(more, m.time) && q.time == m.time && MarksOf(q, sc) == m
    ensures TraceRun(more, plans, sc) == TraceQuote(TraceRun(quotes, plans, sc), plans, q, sc)
  {
    hide TraceRun, TraceQuote, MarksOf, Usable, Tape;
    QuoteOfMarks(m, sc);
    q := QuoteOf(m, sc);
    more := quotes + [q];
    TapeOn(quotes, last, q);
    RunOn(quotes, q, plans, sc);
  }

  lemma TapeOn(quotes: seq<Quote>, last: int, q: Quote)
    requires (quotes == [] && 0 <= q.time) || (Tape(quotes, last) && last < q.time)
    requires Usable(q)
    ensures Tape(quotes + [q], q.time)
  {
    hide Usable;
    var more := quotes + [q];
    assert forall i :: 0 <= i < |quotes| ==> more[i] == quotes[i];
    if quotes != [] { assert quotes[|quotes| - 1].time == last && 0 <= last; }
  }

  // Nothing live runs out before a time, and the next wide quote closes everything.
  ghost predicate Waits(t: Trace, plans: seq<Plan>, low: real, high: real, k: nat, last: int, until: int) {
    var b := t.book;
    b.prior == Some(last) && (b.pending != [] ==> k < |plans| && b.pending == plans[k].legs && until < b.expiry)
    && (b.cancelAt.Some? ==> until < b.cancelAt.value) && AllExit(b.positions, Wide(last + 1, low, high))
  }

  // Wide quotes, one a millisecond, keep everything as it is up to a later time.
  lemma {:induction false} QuietUntil(
      quotes: seq<Quote>, plans: seq<Plan>, sc: Scenario, low: real, high: real, k: nat, last: int, until: int)
    returns (more: seq<Quote>)
    requires Tape(quotes, last) && last <= until && Setting(plans, sc, low, high)
    requires Waits(TraceRun(quotes, plans, sc), plans, low, high, k, last, until)
    ensures Tape(more, until) && SameOrders(TraceRun(quotes, plans, sc), TraceRun(more, plans, sc))
    ensures last == until ==> more == quotes
    ensures last < until ==> TraceRun(more, plans, sc).book.positions == []
    decreases until - last
  {
    hide TraceRun, Tape, Waits;
    if last == until {
      more := quotes;
      assert SameOrders(TraceRun(quotes, plans, sc), TraceRun(more, plans, sc));
    } else {
      assert ScenarioOk(sc) && 0.0 < low < high;
      var next, q := Append(quotes, last, Wide(last + 1, low, high), plans, sc);
      assert MarksOf(q, sc) == Wide(last + 1, low, high);
      hide MarksOf;
      WideStep(TraceRun(quotes, plans, sc), plans, q, sc, low, high, k, last, until);
      hide TraceQuote, Setting, SameOrders;
      more := QuietUntil(next, plans, sc, low, high, k, last + 1, until);
      SameOn(TraceRun(quotes, plans, sc), TraceRun(next, plans, sc), TraceRun(more, plans, sc));
    }
  }

  lemma SameOn(t: Trace, t': Trace, t'': Trace)
    requires SameOrders(t, t') && SameOrders(t', t'')
    ensures SameOrders(t, t'')
  {
  }

  lemma WideStep(
      t: Trace, plans: seq<Plan>, q: Quote, sc: Scenario, low: real, high: real, k: nat, last: int, until: int)
    requires Setting(plans, sc, low, high) && MarksOf(q, sc) == Wide(last + 1, low, high)
    requires last < until && Waits(t, plans, low, high, k, last, until)
    ensures var t' := TraceQuote(t, plans, q, sc);
            SameOrders(t, t') && t'.book.positions == [] && Waits(t', plans, low, high, k, last + 1, until)
  {
    assert MarksOf(q, sc).time == q.time;
    WideQuote(t, plans, q, sc, low, high, k);
    QuotePrior(t, plans, q, sc);
    hide TraceQuote, Setting, Exits, MarksOf;
  }

  lemma WideQuote(t: Trace, plans: seq<Plan>, q: Quote, sc: Scenario, low: real, high: real, k: nat)
    requires Setting(plans, sc, low, high) && MarksOf(q, sc) == Wide(q.time, low, high)
    requires Lively(t.book, MarksOf(q, sc)) && (t.book.pending != [] ==> k < |plans| && t.book.pending == plans[k].legs)
    ensures SameOrders(t, TraceQuote(t, plans, q, sc)) && TraceQuote(t, plans, q, sc).book.positions == []
  {
    forall i | 0 <= i < |plans|
      ensures Through(plans[i].legs, MarksOf(q, sc))
      ensures forall l :: 0 <= l < |plans[i].legs| ==> !Fills(plans[i].legs[l], MarksOf(q, sc), sc)
    {
      hide Through, Fills, MarksOf, Lively;
      WideMeans(plans[i].legs, q.time, low, high, sc);
    }
    hide Through, Fills, MarksOf, Lively, TraceQuote, Setting;
    QuietQuote(t, plans, q, sc);
  }

  // Between the turns of two plans the second is the next to be looked at.
  lemma NextInTurn(t: Trace, plans: seq<Plan>, sc: Scenario, n: nat)
    requires Between(t, plans, sc) && n < |plans| && t.book.prior.Some? && t.book.prior.value < Turn(plans, sc, n)
    requires n > 0 ==> Turn(plans, sc, n - 1) <= t.book.prior.value
    ensures t.book.index == n
  {
    if t.book.index > n {
      TurnsRise(plans, sc, n, t.book.index - 1);
    } else if t.book.index < n {
      TurnsRise(plans, sc, t.book.index, n - 1);
    }
    hide Turn, Known;
  }

  lemma {:induction false} TurnsAreDues(plans: seq<Plan>, sc: Scenario, n: nat)
    requires n < |plans| && forall i, j :: 0 <= i < j < |plans| ==> Due(plans[i], sc) < Due(plans[j], sc)
    ensures forall i :: 0 <= i <= n ==> Turn(plans, sc, i) == Due(plans[i], sc)
  {
    hide Due;
    if n > 0 { TurnsAreDues(plans, sc, n - 1); }
  }

  // Plan n is submitted in its turn when nothing is resting and all positions
  // are closed by the quote that opens it.
  lemma Submitted(
      quotes: seq<Quote>, plans: seq<Plan>, sc: Scenario, low: real, high: real, n: nat)
    returns (more: seq<Quote>)
    requires Setting(plans, sc, low, high) && n < |plans| && Due(plans[n], sc) < plans[n].expires
    requires Tape(quotes, Due(plans[n], sc) - 1)
    requires var b := TraceRun(quotes, plans, sc).book;
             b.pending == [] && (b.cancelAt.Some? ==> Due(plans[n], sc) < b.cancelAt.value)
             && AllExit(b.positions, Opening(plans[n].legs, Due(plans[n], sc), low, high))
    ensures Tape(more, Due(plans[n], sc)) && |more| > |quotes|
    ensures var t' := TraceRun(more, plans, sc);
            t'.book.pending == plans[n].legs && t'.book.expiry == plans[n].expires && t'.book.positions == []
            && t'.book.cancelAt == TraceRun(quotes, plans, sc).book.cancelAt && t'.owner == Some(n) && !t'.filled
  {
    hide *;
    var t, due := TraceRun(quotes, plans, sc), Due(plans[n], sc);
    RunPrior(quotes, due - 1, plans, sc);
    DueNext(quotes, plans, sc, low, high, n);
    var m := Opening(plans[n].legs, due, low, high);
    var q;
    more, q := Append(quotes, due - 1, m, plans, sc);
    LivelyNow(t.book, MarksOf(q, sc));
    OpeningQuote(t, plans, n, q, sc);
  }

  lemma LivelyNow(b: Book, m: Marks)
    requires AllExit(b.positions, m) && b.prior == Some(m.time - 1) && b.pending == []
    requires b.cancelAt.Some? ==> m.time < b.cancelAt.value
    ensures Lively(b, m)
  {
    hide Exits;
  }

  lemma DueNext(quotes: seq<Quote>, plans: seq<Plan>, sc: Scenario, low: real, high: real, n: nat)
    requires Setting(plans, sc, low, high) && n < |plans| && Tape(quotes, Due(plans[n], sc) - 1)
    ensures TraceRun(quotes, plans, sc).book.index == n && plans[n].legs != [] && ScenarioOk(sc)
    ensures (n + 1 < |plans| ==> Due(plans[n], sc) < Due(plans[n + 1], sc)) && MAX_GAP > 0
    ensures Shaped(plans[n].legs)
    ensures var m := Opening(plans[n].legs, Due(plans[n], sc), low, high);
            m.time == Due(plans[n], sc) && 0.0 < m.bid < m.ask && !Through(plans[n].legs, m)
  {
    hide TraceRun, Turn, Between, Due, Opening, Through, PricedLeg;
    RunKnown(quotes, plans, sc);
    RunPrior(quotes, Due(plans[n], sc) - 1, plans, sc);
    TurnsAreDues(plans, sc, n);
    NextInTurn(TraceRun(quotes, plans, sc), plans, sc, n);
    OpeningMeans(plans[n].legs, Due(plans[n], sc), low, high);
  }

  // A submitted plan whose orders are all filled at one time.
  lemma FilledAt(
      quotes: seq<Quote>, plans: seq<Plan>, sc: Scenario, low: real, high: real, m: nat, last: int, f: int)
    returns (more: seq<Quote>)
    requires Setting(plans, sc, low, high) && sc.entrySlippage <= LIMIT && m < |plans|
    requires Tape(quotes, last) && last < f < plans[m].expires
    requires var b := TraceRun(quotes, plans, sc).book;
             b.pending == plans[m].legs && b.expiry == plans[m].expires && b.positions == [] && b.cancelAt.None?
    ensures Tape(more, f)
    ensures var b := TraceRun(more, plans, sc).book;
            b.pending == [] && b.positions == Openings(plans[m].legs, Filling(plans[m].legs, f, low, high), sc)
            && b.cancelAt == Some(f + sc.cancelLatency)
  {
    hide *;
    RunPrior(quotes, last, plans, sc);
    FillingPrice(plans, sc, low, high, m, f);
    WaitsHere(TraceRun(quotes, plans, sc), plans, low, high, m, last, f - 1);
    var wait := QuietUntil(quotes, plans, sc, low, high, m, last, f - 1);
    SameMeans(TraceRun(quotes, plans, sc), TraceRun(wait, plans, sc));
    RunPrior(wait, f - 1, plans, sc);
    var q;
    more, q := Append(wait, f - 1, Filling(plans[m].legs, f, low, high), plans, sc);
    LivelyHere(TraceRun(wait, plans, sc).book, MarksOf(q, sc));
    FillingQuote(TraceRun(wait, plans, sc), plans, q, sc);
  }

  lemma WaitsHere(t: Trace, plans: seq<Plan>, low: real, high: real, k: nat, last: int, until: int)
    requires var b := t.book;
             k < |plans| && b.pending == plans[k].legs && until < b.expiry && b.positions == []
             && (b.cancelAt.Some? ==> until < b.cancelAt.value) && b.prior == Some(last)
    ensures Waits(t, plans, low, high, k, last, until)
  {
  }

  lemma SameMeans(t: Trace, t': Trace)
    requires SameOrders(t, t')
    ensures t'.book.pending == t.book.pending && t'.book.expiry == t.book.expiry
    ensures t'.book.cancelAt == t.book.cancelAt && t'.owner == t.owner && t'.filled == t.filled
  {
  }

  lemma LivelyHere(b: Book, m: Marks)
    requires b.positions == [] && b.prior == Some(m.time - 1) && (b.pending != [] ==> m.time < b.expiry)
    requires b.cancelAt.Some? ==> m.time < b.cancelAt.value
    ensures Lively(b, m)
  {
  }

  lemma FillingPrice(plans: seq<Plan>, sc: Scenario, low: real, high: real, m: nat, f: int)
    requires Setting(plans, sc, low, high) && sc.entrySlippage <= LIMIT && m < |plans|
    ensures Shaped(plans[m].legs) && plans[m].legs != [] && ScenarioOk(sc)
    ensures var fill := Filling(plans[m].legs, f, low, high);
            fill.time == f && 0.0 < fill.bid < fill.ask
            && forall l :: 0 <= l < |plans[m].legs| ==> Fills(plans[m].legs[l], fill, sc)
  {
    hide Filling, Fills, OpenedAt, PricedLeg;
    FillingMeans(plans[m].legs, f, low, high, sc);
  }

  lemma RunPrior(quotes: seq<Quote>, last: int, plans: seq<Plan>, sc: Scenario)
    requires Tape(quotes, last)
    ensures TraceRun(quotes, plans, sc).book.prior == Some(last)
  {
    hide TraceRun, Between;
    RunKnown(quotes, plans, sc);
  }

  // The tape before any plan up to m can be placed.
  lemma Prelude(plans: seq<Plan>, sc: Scenario, low: real, high: real, m: nat) returns (quotes: seq<Quote>)
    requires Setting(plans, sc, low, high) && m < |plans|
    ensures Tape(quotes, Due(plans[m], sc) - 1)
    ensures var b := TraceRun(quotes, plans, sc).book; b.pending == [] && b.positions == [] && b.cancelAt.None?
  {
    var q;
    quotes, q := Append([], 0, Wide(Due(plans[m], sc) - 1, low, high), plans, sc);
    WideQuote(Begin(), plans, q, sc, low, high, 0);
    hide TraceQuote, Setting, MarksOf;
  }

  // Every order a plan of the usual shape fills at once is closed by the next
  // wide quote and by the quote that opens a one-legged plan.
  lemma FillsClose(
      legs: seq<PlanLeg>, next: seq<PlanLeg>, f: int, time: int, later: int, sc: Scenario, low: real, high: real)
    requires Shaped(legs) && 0.0 < low < high && 0.0 <= sc.entrySlippage <= LIMIT
    requires forall l :: 0 <= l < |legs| ==> PricedLeg(legs[l], low, high)
    ensures AllExit(Openings(legs, Filling(legs, f, low, high), sc), Wide(time, low, high))
    ensures |next| == 1 ==>
              AllExit(Openings(legs, Filling(legs, f, low, high), sc), Opening(next, later, low, high))
  {
    var fill := Filling(legs, f, low, high);
    FillingMeans(legs, f, low, high, sc);
    forall l | 0 <= l < |legs|
      ensures Exits(Opened(legs[l], fill, sc), Wide(time, low, high))
      ensures |next| == 1 ==> Exits(Opened(legs[l], fill, sc), Opening(next, later, low, high))
    {
      ClosedBy(legs[l], fill, Wide(time, low, high), sc, low, high);
      if |next| == 1 { ClosedBy(legs[l], fill, Opening(next, later, low, high), sc, low, high); }
    }
    hide Exits, Opened, Filling, Opening;
    OpeningsExit(legs, fill, Wide(time, low, high), sc);
    if |next| == 1 { OpeningsExit(legs, fill, Opening(next, later, low, high), sc); }
  }

  // A clock that can cross does cross: on some usable tape the orders of plan n
  // are cancelled unfilled, given a millisecond to close plan m's positions in
  // before plan n's turn, which a one-legged plan n does not need.
  lemma CrossingOrphans(
      plans: seq<Plan>, sc: Scenario, low: real, high: real, m: nat, n: nat, f: int)
    returns (quotes: seq<Quote>, q: Quote)
    requires Setting(plans, sc, low, high) && sc.entrySlippage <= LIMIT && m < n < |plans|
    requires Crosses(plans, sc, m, n, f) && (|plans[n].legs| == 1 || f + 1 < Turn(plans, sc, n))
    ensures Tape(quotes + [q], f + sc.cancelLatency) && Orphaned(quotes, plans, sc, q, n)
  {
    hide *;
    CrossingTimes(plans, sc, low, high, m, n, f);
    var dm, dn, clock := Due(plans[m], sc), Due(plans[n], sc), f + sc.cancelLatency;
    quotes := Prelude(plans, sc, low, high, m);
    NothingOpen(quotes, plans, sc, Opening(plans[m].legs, dm, low, high));
    quotes := Submitted(quotes, plans, sc, low, high, m);
    quotes := FilledAt(quotes, plans, sc, low, high, m, dm, f);
    quotes := ClosedBefore(quotes, plans, sc, low, high, m, n, f);
    quotes := Submitted(quotes, plans, sc, low, high, n);
    quotes, q := RestsUntil(quotes, plans, sc, low, high, n, clock);
  }

  lemma CrossingTimes(plans: seq<Plan>, sc: Scenario, low: real, high: real, m: nat, n: nat, f: int)
    requires Setting(plans, sc, low, high) && m < n < |plans| && Crosses(plans, sc, m, n, f)
    ensures Due(plans[m], sc) < f < Due(plans[n], sc) < f + sc.cancelLatency < plans[n].expires && f < plans[m].expires
    ensures Turn(plans, sc, n) == Due(plans[n], sc) && Shaped(plans[m].legs)
  {
    hide Due, Turn, PricedLeg;
    TurnsAreDues(plans, sc, n);
  }

  lemma NothingOpen(quotes: seq<Quote>, plans: seq<Plan>, sc: Scenario, m: Marks)
    ensures TraceRun(quotes, plans, sc).book.positions == [] ==> AllExit(TraceRun(quotes, plans, sc).book.positions, m)
  {
  }

  lemma ClosedBefore(
      quotes: seq<Quote>, plans: seq<Plan>, sc: Scenario, low: real, high: real, m: nat, n: nat, f: int)
    returns (more: seq<Quote>)
    requires Setting(plans, sc, low, high) && sc.entrySlippage <= LIMIT && m < n < |plans|
    requires Tape(quotes, f) && f < Due(plans[n], sc) < f + sc.cancelLatency
    requires |plans[n].legs| == 1 || f + 1 < Due(plans[n], sc)
    requires var b := TraceRun(quotes, plans, sc).book;
             b.pending == [] && b.cancelAt == Some(f + sc.cancelLatency)
             && b.positions == Openings(plans[m].legs, Filling(plans[m].legs, f, low, high), sc)
    ensures Tape(more, Due(plans[n], sc) - 1)
    ensures var b := TraceRun(more, plans, sc).book;
            b.pending == [] && b.cancelAt == Some(f + sc.cancelLatency)
            && AllExit(b.positions, Opening(plans[n].legs, Due(plans[n], sc), low, high))
  {
    var dn := Due(plans[n], sc);
    FillsClose(plans[m].legs, plans[n].legs, f, f + 1, dn, sc, low, high);
    RunPrior(quotes, f, plans, sc);
    hide Due, Openings, TraceRun, Exits, Opening, Filling, Tape;
    more := QuietUntil(quotes, plans, sc, low, high, m, f, dn - 1);
  }

  lemma SettingMeans(plans: seq<Plan>, sc: Scenario, low: real, high: real, n: nat)
    requires Setting(plans, sc, low, high) && n < |plans|
    ensures ScenarioOk(sc) && 0.0 < low < high && plans[n].legs != []
  {
    hide PricedLeg, Due;
  }

  lemma WideIs(time: int, low: real, high: real)
    ensures Wide(time, low, high) == Marks(time, low, high)
  {
  }

  lemma RestsUntil(
      quotes: seq<Quote>, plans: seq<Plan>, sc: Scenario, low: real, high: real, n: nat, clock: int)
    returns (more: seq<Quote>, q: Quote)
    requires Setting(plans, sc, low, high) && n < |plans|
    requires Tape(quotes, Due(plans[n], sc)) && Due(plans[n], sc) < clock < plans[n].expires
    requires var t := TraceRun(quotes, plans, sc);
             t.book.pending == plans[n].legs && t.book.expiry == plans[n].expires && t.book.positions == []
             && t.book.cancelAt == Some(clock) && t.owner == Some(n) && !t.filled
    ensures Tape(more + [q], clock) && Orphaned(more, plans, sc, q, n)
  {
    hide *;
    var dn := Due(plans[n], sc);
    RunPrior(quotes, dn, plans, sc);
    WaitsHere(TraceRun(quotes, plans, sc), plans, low, high, n, dn, clock - 1);
    more := QuietUntil(quotes, plans, sc, low, high, n, dn, clock - 1);
    SameMeans(TraceRun(quotes, plans, sc), TraceRun(more, plans, sc));
    SettingMeans(plans, sc, low, high, n);
    WideIs(clock, low, high);
    var all;
    all, q := Append(more, clock - 1, Wide(clock, low, high), plans, sc);
    TapeOrdered(all, clock);
    RestingIsOrphaned(more, plans, sc, q, n);
  }

  lemma RestingIsOrphaned(quotes: seq<Quote>, plans: seq<Plan>, sc: Scenario, q: Quote, n: nat)
    requires Tape(quotes, q.time - 1) && Ordered(quotes + [q]) && n < |plans| && plans[n].legs != []
    requires var t := TraceRun(quotes, plans, sc);
             t.owner == Some(n) && !t.filled && t.book.pending == plans[n].legs && t.book.expiry == plans[n].expires
             && t.book.cancelAt == Some(q.time) && q.time < plans[n].expires
    ensures Orphaned(quotes, plans, sc, q, n)
  {
    RunKnown(quotes, plans, sc);
    CancelCount(TraceRun(quotes, plans, sc).book, plans, q, sc);
    hide TraceRun, OnQuote, Between;
  }

  // Plans as the planner makes them, their prices above their distances.
  predicate Usual(plans: seq<Plan>, sc: Scenario) {
    PlansValid(plans)
    && (forall i, j :: 0 <= i < j < |plans| ==> Due(plans[i], sc) < Due(plans[j], sc))
    && (forall i :: 0 <= i < |plans| ==> plans[i].created > 0 && Shaped(plans[i].legs))
    && forall i, l :: 0 <= i < |plans| && 0 <= l < |plans[i].legs| ==> AboveDistances(plans[i].legs[l])
  }

  predicate AboveDistances(leg: PlanLeg) {
    leg.target >= 0.0 && leg.stop >= 0.0 && leg.entry > leg.target + leg.stop + 2.0 * LIMIT
  }

  // There is a range well inside which all prices of the legs lie.
  lemma {:induction false} LegsRange(legs: seq<PlanLeg>) returns (low: real, high: real)
    requires forall l :: 0 <= l < |legs| ==> AboveDistances(legs[l])
    ensures 0.0 < low < high && forall l :: 0 <= l < |legs| ==> PricedLeg(legs[l], low, high)
  {
    if legs == [] {
      low, high := 1.0, 2.0;
    } else {
      var leg := legs[|legs| - 1];
      var reach := leg.target + leg.stop + 2.0 * LIMIT;
      low, high := LegsRange(legs[..|legs| - 1]);
      low, high := Min(low, (leg.entry - reach) / 2.0), Max(high, leg.entry + reach + 1.0);
    }
  }

  lemma {:induction false} PlansRange(plans: seq<Plan>) returns (low: real, high: real)
    requires forall i, l :: 0 <= i < |plans| && 0 <= l < |plans[i].legs| ==> AboveDistances(plans[i].legs[l])
    ensures 0.0 < low < high
    ensures forall i, l :: 0 <= i < |plans| && 0 <= l < |plans[i].legs| ==> PricedLeg(plans[i].legs[l], low, high)
  {
    if plans == [] {
      low, high := 1.0, 2.0;
    } else {
      low, high := PlansRange(plans[..|plans| - 1]);
      var lo, hi := LegsRange(plans[|plans| - 1].legs);
      low, high := Min(low, lo), Max(high, hi);
    }
  }

  // Time enough before plan n's turn to close an earlier plan's positions: a plan of
  // one leg needs none.
  predicate Spaced(plans: seq<Plan>, sc: Scenario, n: nat)
    requires n < |plans|
  {
    |plans[n].legs| == 1
    || (sc.cancelLatency > 2 && forall m :: 0 <= m < n ==> Due(plans[m], sc) + 2 < Due(plans[n], sc))
  }

  // A crossing that is a millisecond short can be had a millisecond earlier.
  lemma {:induction false} CrossesInTime(
      plans: seq<Plan>, sc: Scenario, low: real, high: real, m: nat, n: nat, f: int) returns (g: int)
    requires Setting(plans, sc, low, high) && m < n < |plans| && Crosses(plans, sc, m, n, f) && Spaced(plans, sc, n)
    ensures Crosses(plans, sc, m, n, g) && (|plans[n].legs| == 1 || g + 1 < Turn(plans, sc, n))
  {
    hide Due, Turn, PricedLeg;
    TurnsAreDues(plans, sc, n);
    g := if |plans[n].legs| == 1 || f + 1 < Turn(plans, sc, n) then f else f - 1;
  }

  // Main result: the condition on due times, expiries and cancellation latency is
  // exact: plan n's orders are cancelled unfilled on some usable tape if and only if
  // a clock can cross to it.
  lemma {:induction false} CrossingExactly(plans: seq<Plan>, sc: Scenario, n: nat)
    requires Usual(plans, sc) && ScenarioOk(sc) && n < |plans| && Spaced(plans, sc, n)
    ensures CanCross(plans, sc, n)
            <==> exists quotes: seq<Quote>, q: Quote :: Tape(quotes + [q], q.time) && Orphaned(quotes, plans, sc, q, n)
  {
    var low, high := PlansRange(plans);
    assert Setting(plans, sc, low, high);
    hide Setting, Tape, Orphaned, Turn, Usual, Spaced;
    if CanCross(plans, sc, n) {
      var m: nat, f :| m < n && Crosses(plans, sc, m, n, f);
      f := CrossesInTime(plans, sc, low, high, m, n, f);
      var quotes, q := CrossingOrphans(plans, sc, low, high, m, n, f);
      assert Tape(quotes + [q], q.time) by { TapeTime(quotes, q, f + sc.cancelLatency); }
    }
    forall quotes: seq<Quote>, q: Quote | Tape(quotes + [q], q.time) && Orphaned(quotes, plans, sc, q, n)
      ensures CanCross(plans, sc, n)
    {
      TapeOrdered(quotes + [q], q.time);
      OrphanedOnlyByCrossing(quotes, plans, sc, q, n);
    }
  }

  lemma TapeTime(quotes: seq<Quote>, q: Quote, time: int)
    requires Tape(quotes + [q], time)
    ensures time == q.time
  {
    assert (quotes + [q])[|quotes|] == q;
  }

  lemma TapeOrdered(quotes: seq<Quote>, time: int)
    requires Tape(quotes, time)
    ensures Ordered(quotes)
  {
  }

  // ---------------------------------------------------------------- a run, and the planner

  function TwoPlans(): seq<Plan> {
    [Plan(0, 0, 60_000, [PlanLeg(Buy, 101.0, 1.0, 1.0)]), Plan(1_500, 1_500, 61_500, [PlanLeg(Sell, 99.0, 1.0, 1.0)])]
  }

  function FreeOfCost(): Scenario { Scenario(0, 0.0, 0.0, 1.0, 0.0, 1.0, 0.0, 2_000) }

  function FourQuotes(): seq<Quote> {
    [Quote(0, 99.99, 100.0), Quote(1_000, 100.99, 101.0), Quote(2_000, 102.0, 102.01), Quote(3_000, 102.0, 102.01)]
  }

  lemma RunOn(quotes: seq<Quote>, q: Quote, plans: seq<Plan>, sc: Scenario)
    ensures TraceRun(quotes + [q], plans, sc) == TraceQuote(TraceRun(quotes, plans, sc), plans, q, sc)
  {
    assert (quotes + [q])[..|quotes|] == quotes;
  }

  // While no clock runs out a quote cancels nothing.
  lemma RunsOnUncancelled(quotes: seq<Quote>, q: Quote, plans: seq<Plan>, sc: Scenario)
    requires var b := TraceRun(quotes, plans, sc).book; b.cancelAt.None? || q.time < b.cancelAt.value
    ensures var b, b' := TraceRun(quotes, plans, sc).book, TraceRun(quotes + [q], plans, sc).book;
            b'.counters.ocoCancelled == b.counters.ocoCancelled && b'.prior == Some(q.time)
  {
    hide TraceQuote, TraceRun, OnQuote;
    RunOn(quotes, q, plans, sc);
    var t := TraceRun(quotes, plans, sc);
    QuotePrior(t, plans, q, sc);
    CancelCount(t.book, plans, q, sc);
    TraceQuoteBook(t, plans, q, sc);
  }

  lemma FirstQuote()
    ensures var t := TraceRun(FourQuotes()[..1], TwoPlans(), FreeOfCost());
            t.book.pending == TwoPlans()[0].legs && t.book.expiry == 60_000 && t.book.positions == []
            && t.book.cancelAt.None? && t.book.prior == Some(0) && t.book.counters.ocoCancelled == 0
  {
    hide TraceRun, TraceQuote;
    var q, plans, sc := FourQuotes()[0], TwoPlans(), FreeOfCost();
    assert FourQuotes()[..1] == [] + [q];
    NoQuotes(plans, sc);
    RunOn([], q, plans, sc);
    RunsOnUncancelled([], q, plans, sc);
    assert MarksOf(q, sc) == Marks(0, 99.99, 100.0) && Due(plans[0], sc) == 0;
    OpeningQuote(Begin(), plans, 0, q, sc);
  }

  lemma NoQuotes(plans: seq<Plan>, sc: Scenario)
    ensures TraceRun([], plans, sc) == Begin()
  {
  }

  lemma SecondQuote()
    ensures var t := TraceRun(FourQuotes()[..2], TwoPlans(), FreeOfCost());
            t.book.pending == [] && t.book.positions == [Position(Buy, 101.0, 102.0, 100.0, 1_000, 1.0, 0.0)]
            && t.book.cancelAt == Some(3_000) && t.book.prior == Some(1_000) && t.book.counters.ocoCancelled == 0
  {
    hide TraceRun, TraceQuote;
    FirstQuote();
    var q, plans, sc := FourQuotes()[1], TwoPlans(), FreeOfCost();
    assert FourQuotes()[..2] == FourQuotes()[..1] + [q];
    RunOn(FourQuotes()[..1], q, plans, sc);
    RunsOnUncancelled(FourQuotes()[..1], q, plans, sc);
    assert MarksOf(q, sc) == Marks(1_000, 100.99, 101.0);
    OneOpening(PlanLeg(Buy, 101.0, 1.0, 1.0), MarksOf(q, sc), sc);
    hide Openings;
    FillingQuote(TraceRun(FourQuotes()[..1], plans, sc), plans, q, sc);
  }

  lemma OneOpening(leg: PlanLeg, m: Marks, sc: Scenario)
    requires Fills(leg, m, sc)
    ensures Openings([leg], m, sc) == [Opened(leg, m, sc)]
  {
    assert [leg][..0] == [];
  }

  lemma ThirdQuote()
    ensures var t := TraceRun(FourQuotes()[..3], TwoPlans(), FreeOfCost());
            t.owner == Some(1) && !t.filled && t.book.pending == TwoPlans()[1].legs && t.book.expiry == 61_500
            && t.book.cancelAt == Some(3_000) && t.book.prior == Some(2_000) && t.book.counters.ocoCancelled == 0
  {
    hide TraceRun, TraceQuote;
    SecondQuote();
    SecondIsNext();
    var q, plans, sc := FourQuotes()[2], TwoPlans(), FreeOfCost();
    assert FourQuotes()[..3] == FourQuotes()[..2] + [q];
    RunOn(FourQuotes()[..2], q, plans, sc);
    RunsOnUncancelled(FourQuotes()[..2], q, plans, sc);
    assert MarksOf(q, sc) == Marks(2_000, 102.0, 102.01) && Due(plans[1], sc) == 1_500;
    OpeningQuote(TraceRun(FourQuotes()[..2], plans, sc), plans, 1, q, sc);
  }

  lemma SecondIsNext()
    ensures TraceRun(FourQuotes()[..2], TwoPlans(), FreeOfCost()).book.index == 1
  {
    hide TraceRun, Between;
    SecondQuote();
    SecondsTurn();
    hide Turn, TwoPlans, FreeOfCost;
    RunKnown(FourQuotes()[..2], TwoPlans(), FreeOfCost());
    NextInTurn(TraceRun(FourQuotes()[..2], TwoPlans(), FreeOfCost()), TwoPlans(), FreeOfCost(), 1);
  }

  lemma SecondsTurn()
    ensures |TwoPlans()| == 2
    ensures Turn(TwoPlans(), FreeOfCost(), 0) == 0 && Turn(TwoPlans(), FreeOfCost(), 1) == 1_500
  {
    assert Due(TwoPlans()[0], FreeOfCost()) == 0 && Due(TwoPlans()[1], FreeOfCost()) == 1_500;
  }

  // The input that shows it: the buy of the first plan fills at 1000 and is closed
  // at 2000, where the second plan's sell is placed; at 3000 the first plan's
  // clock cancels the sell, which has not filled.
  lemma OrphanRun()
    ensures var quotes, plans, sc := FourQuotes(), TwoPlans(), FreeOfCost();
            Evaluate(quotes, plans, sc).Report?
            && Evaluate(quotes, plans, sc).book.counters.ocoCancelled == 1
            && Orphaned(quotes[..3], plans, sc, quotes[3], 1)
  {
    hide TraceRun, OnQuote;
    ThirdQuote();
    var front, q, plans, sc := FourQuotes()[..3], FourQuotes()[3], TwoPlans(), FreeOfCost();
    CancelCount(TraceRun(front, plans, sc).book, plans, q, sc);
    TraceIsTheRun(front, plans, sc);
    LastQuote(front, q, plans, sc);
    assert FourQuotes() == front + [q];
    hide Run;
  }

  lemma LastQuote(quotes: seq<Quote>, q: Quote, plans: seq<Plan>, sc: Scenario)
    ensures Run(quotes + [q], plans, sc) == OnQuote(Run(quotes, plans, sc), plans, q, sc)
  {
    assert (quotes + [q])[..|quotes|] == quotes;
  }

  // What the planner makes of one usable quote.
  ghost predicate PlannedBy(plan: Plan, time: int, directional: bool) {
    plan.created == time && plan.available == time && plan.expires == time + MINUTE && Shaped(plan.legs)
    && (directional ==> |plan.legs| == 1)
  }

  lemma PlannedShape(bars: seq<Bar>, q: Quote, directional: bool, ratio: real)
    requires |bars| == 5 && ratio > 0.0 && Usable(q)
    ensures PlanFor(bars, q, directional, ratio).Some?
            ==> PlannedBy(PlanFor(bars, q, directional, ratio).value, q.time, directional)
  {
    hide MeanRange, Rollover, CeilCent, FloorCent;
    var buffer := Max(0.10, MeanRange(bars) * 0.25);
    CentBounds(q.ask + buffer);
    CentBounds(q.bid - buffer);
  }

  ghost predicate PlannedUpTo(plans: seq<Plan>, time: int, directional: bool) {
    (forall i, j :: 0 <= i < j < |plans| ==> plans[i].created < plans[j].created)
    && forall i :: 0 <= i < |plans| ==> 
      PlannedBy(plans[i], plans[i].created, directional) && 0 < plans[i].created <= time
  }

  lemma PlannedLater(plans: seq<Plan>, time: int, plan: Plan, later: int, directional: bool)
    requires PlannedUpTo(plans, time, directional) && time < later
    ensures PlannedUpTo(plans, later, directional)
    ensures 0 < later && PlannedBy(plan, later, directional) ==> PlannedUpTo(plans + [plan], later, directional)
  {
    hide Shaped;
  }

  lemma {:induction false} PlannerUpTo(qs: seq<Quote>, cadence: int, directional: bool, ratio: real)
    requires Ordered(qs) && cadence > 0 && ratio > 0.0 && (forall i :: 0 <= i < |qs| ==> Usable(qs[i]))
    ensures PlannedUpTo(BatchPlans(qs, cadence, directional, ratio),
                        if qs == [] then -1 else qs[|qs| - 1].time, directional)
  {
    hide PlanFor, Ready, LastSlot, PlannedBy, Usable, PlannedUpTo;
    if qs == [] {
      NoPlans(directional);
    } else {
      var front, q := qs[..|qs| - 1], qs[|qs| - 1];
      PlannerUpTo(front, cadence, directional, ratio);
      var before := if front == [] then -1 else front[|front| - 1].time;
      var plans, bars := BatchPlans(front, cadence, directional, ratio), LastBars(qs);
      assert |bars| == 5;
      var plan := PlanFor(bars, q, directional, ratio);
      if Ready(qs) { ReadyIsLate(qs); }
      hide LastBars;
      PlannedShape(bars, q, directional, ratio);
      assert plans + [] == plans;
      PlannedLater(plans, before, if plan.Some? then plan.value else Plan(0, 0, 0, []), q.time, directional);
    }
  }

  lemma ReadyIsLate(qs: seq<Quote>)
    requires Ordered(qs) && Ready(qs)
    ensures qs[|qs| - 1].time > 0
  {
    var s :| CoveredFrom(qs, 5, s);
  }

  lemma NoPlans(directional: bool)
    ensures PlannedUpTo([], -1, directional)
  {
  }

  // The planner's plans are valid, of rising due times and of the usual shape, and
  // of one leg when it is directional.
  lemma PlannerPlans(qs: seq<Quote>, cadence: int, directional: bool, ratio: real, sc: Scenario)
    requires Ordered(qs) && cadence > 0 && ratio > 0.0 && (forall i :: 0 <= i < |qs| ==> Usable(qs[i]))
    ensures var plans := BatchPlans(qs, cadence, directional, ratio);
            PlansValid(plans)
            && (forall i, j :: 0 <= i < j < |plans| ==> Due(plans[i], sc) < Due(plans[j], sc))
            && forall i :: 0 <= i < |plans| ==>
                 plans[i].created > 0 && Shaped(plans[i].legs) && (directional ==> |plans[i].legs| == 1)
  {
    hide BatchPlans, Shaped, Usable;
    PlannerUpTo(qs, cadence, directional, ratio);
  }
}
