// The reservation ledger: a charge is reserved before any billable dispatch,
// moved to the dispatch day, and released only by a reported usage.
module Budget {
  import opened Common

  datatype Status = Reserved | Dispatched | Complete | Unknown

  datatype Row = Row(
    id: string, day: int, estimate: int, actual: Option<int>, status: Status, topic: string, binding: string)
  {
    function Charge(): int { if actual.Some? then actual.value else estimate }

    // A row without a reported amount counts on every day.
    predicate CountsOn(d: int) { day == d || actual.None? }
  }

  datatype Policy = Policy(paused: bool, dailyLimit: int)

  datatype Ledger = Ledger(rows: seq<Row>, policy: Policy)

  datatype Reply =
    | Admitted | AlreadyClaimed | WaitingPaused | WaitingBudget | Done
    | ReservationInvalid | ReservationChanged | AlreadyDispatched
    | UsageInvalid | SettlementInvalid | SettlementChanged

  datatype Op =
    | Reserve(key: string, estimate: int, topic: string, binding: string, ceiling: Option<int>, day: int)
    | Dispatch(key: string, day: int)
    | Settle(key: string, actual: Option<int>)
    | Update(policy: Policy)

  // What a day is charged: everything dated that day and everything unreported.
  function Charged(rows: seq<Row>, d: int): int {
    if rows == [] then 0
    else Charged(rows[..|rows| - 1], d)
         + (if rows[|rows| - 1].CountsOn(d) then rows[|rows| - 1].Charge() else 0)
  }

  // What is booked on a day alone.
  function DayTotal(rows: seq<Row>, d: int): int {
    if rows == [] then 0
    else DayTotal(rows[..|rows| - 1], d)
         + (if rows[|rows| - 1].day == d then rows[|rows| - 1].Charge() else 0)
  }

  function Find(rows: seq<Row>, key: string): (k: Option<nat>)
    ensures k.Some? ==> k.value < |rows| && rows[k.value].id == key
    ensures k.None? <==> forall i :: 0 <= i < |rows| ==> rows[i].id != key
  {
    if rows == [] then None
    else if rows[|rows| - 1].id == key then Some(|rows| - 1)
    else Find(rows[..|rows| - 1], key)
  }

  function EffectiveLimit(policy: Policy, ceiling: Option<int>): int {
    if ceiling.Some? then MinInt(policy.dailyLimit, ceiling.value) else policy.dailyLimit
  }

  function Apply(l: Ledger, op: Op): (Ledger, Reply) {
    match op
    case Reserve(key, estimate, topic, binding, ceiling, day) =>
      if key == "" || |key| > 256 || estimate <= 0 then (l, ReservationInvalid)
      else (match Find(l.rows, key)
        case Some(k) =>
          var prior := l.rows[k];
          if prior.estimate != estimate || prior.topic != topic || prior.binding != binding
          then (l, ReservationChanged)
          else (l, if prior.status.Reserved? then Admitted else AlreadyClaimed)
        case None =>
          if l.policy.paused then (l, WaitingPaused)
          else if Charged(l.rows, day) + estimate > EffectiveLimit(l.policy, ceiling) then (l, WaitingBudget)
          else (l.(rows := l.rows + [Row(key, day, estimate, None, Reserved, topic, binding)]), Admitted))
    case Dispatch(key, day) =>
      (match Find(l.rows, key)
        case Some(k) =>
          if l.rows[k].status.Reserved?
          then (l.(rows := l.rows[k := l.rows[k].(status := Dispatched, day := day)]), Done)
          else (l, AlreadyDispatched)
        case None => (l, AlreadyDispatched))
    case Settle(key, actual) =>
      if actual.Some? && actual.value < 0 then (l, UsageInvalid)
      else (match Find(l.rows, key)
        case None => (l, SettlementInvalid)
        case Some(k) =>
          var status := if actual.None? then Unknown else Complete;
          match l.rows[k].status
          case Reserved => (l, SettlementInvalid)
          case Dispatched => (l.(rows := l.rows[k := l.rows[k].(actual := actual, status := status)]), Done)
          case _ =>
            (l, if l.rows[k].actual != actual || l.rows[k].status != status then SettlementChanged else Done))
    case Update(policy) => (l.(policy := policy), Done)
  }

  // The stored table and policy, updated in place by one transaction at a time.
  class Store {
    var rows: seq<Row>
    var policy: Policy

    ghost function State(): Ledger reads this { Ledger(rows, policy) }

    constructor (defaultLimit: int)
      ensures State() == Ledger([], Policy(false, defaultLimit))
    {
      rows, policy := [], Policy(false, defaultLimit);
    }

    method UpdatePolicy(value: Policy)
      modifies this
      ensures State() == Apply(old(State()), Update(value)).0
    {
      policy := value;
    }

    // SELECT SUM(COALESCE(actual, estimate)) WHERE day = ? OR actual IS NULL
    method ChargedOn(day: int) returns (charged: int)
      ensures charged == Charged(rows, day)
    {
      charged := 0;
      var i := 0;
      while i < |rows|
        invariant 0 <= i <= |rows| && charged == Charged(rows[..i], day)
      {
        if rows[i].day == day || rows[i].actual.None? {
          charged := charged + (if rows[i].actual.Some? then rows[i].actual.value else rows[i].estimate);
        }
        assert rows[..i + 1][..i] == rows[..i];
        i := i + 1;
      }
      assert rows[..i] == rows;
    }

    method Snapshot(day: int) returns (charged: int, remaining: int)
      ensures charged == Charged(rows, day)
      ensures remaining == MaxInt(0, policy.dailyLimit - charged)
    {
      charged := ChargedOn(day);
      remaining := MaxInt(0, policy.dailyLimit - charged);
    }

    method ReserveRow(key: string, estimate: int, topic: string, binding: string, ceiling: Option<int>, day: int)
      returns (reply: Reply)
      modifies this
      ensures (State(), reply) == Apply(old(State()), Reserve(key, estimate, topic, binding, ceiling, day))
    {
      if key == "" || |key| > 256 || estimate <= 0 { return ReservationInvalid; }
      var prior := Find(rows, key);
      if prior.Some? {
        var row := rows[prior.value];
        if row.estimate != estimate || row.topic != topic || row.binding != binding { return ReservationChanged; }
        return if row.status == Reserved then Admitted else AlreadyClaimed;
      }
      if policy.paused { return WaitingPaused; }
      var charged := ChargedOn(day);
      var limit := if ceiling.Some? then MinInt(policy.dailyLimit, ceiling.value) else policy.dailyLimit;
      if charged + estimate > limit { return WaitingBudget; }
      rows := rows + [Row(key, day, estimate, None, Reserved, topic, binding)];
      return Admitted;
    }

    method DispatchRow(key: string, day: int) returns (reply: Reply)
      modifies this
      ensures (State(), reply) == Apply(old(State()), Dispatch(key, day))
    {
      var k := Find(rows, key);
      if k.None? || rows[k.value].status != Reserved { return AlreadyDispatched; }
      rows := rows[k.value := rows[k.value].(status := Dispatched, day := day)];
      return Done;
    }

    method SettleRow(key: string, actual: Option<int>) returns (reply: Reply)
      modifies this
      ensures (State(), reply) == Apply(old(State()), Settle(key, actual))
    {
      if actual.Some? && actual.value < 0 { return UsageInvalid; }
      var k := Find(rows, key);
      if k.None? || rows[k.value].status == Reserved { return SettlementInvalid; }
      var row := rows[k.value];
      var status := if actual.None? then Unknown else Complete;
      if row.status == Complete || row.status == Unknown {
        return if row.actual != actual || row.status != status then SettlementChanged else Done;
      }
      rows := rows[k.value := row.(actual := actual, status := status)];
      return Done;
    }
  }

  // ------------------------------------------------------------------- runs

  function Run(l: Ledger, ops: seq<Op>): Ledger
    decreases ops
  {
    if ops == [] then l else Run(Apply(l, ops[0]).0, ops[1..])
  }

  function Clock(op: Op, now: int): int {
    match op case Reserve(_, _, _, _, _, d) => d case Dispatch(_, d) => d case _ => now
  }

  // The clock does not run backwards and the limit in force is at most `cap`.
  ghost predicate Timely(l: Ledger, op: Op, now: int, cap: int) {
    Clock(op, now) >= now && (op.Reserve? ==> EffectiveLimit(l.policy, op.ceiling) <= cap)
  }

  // And a usage reported for a dispatched row is at most its estimate.
  ghost predicate Honest(l: Ledger, op: Op, now: int, cap: int) {
    Timely(l, op, now, cap)
    && (op.Settle? && op.actual.Some? && Find(l.rows, op.key).Some? ==>
          op.actual.value <= l.rows[Find(l.rows, op.key).value].estimate)
  }

  ghost predicate TimelyRun(l: Ledger, ops: seq<Op>, now: int, cap: int)
    decreases ops
  {
    ops == [] || (Timely(l, ops[0], now, cap) && TimelyRun(Apply(l, ops[0]).0, ops[1..], Clock(ops[0], now), cap))
  }

  ghost predicate HonestRun(l: Ledger, ops: seq<Op>, now: int, cap: int)
    decreases ops
  {
    ops == [] || (Honest(l, ops[0], now, cap) && HonestRun(Apply(l, ops[0]).0, ops[1..], Clock(ops[0], now), cap))
  }

  function FinalClock(ops: seq<Op>, now: int): int {
    if ops == [] then now else FinalClock(ops[1..], Clock(ops[0], now))
  }

  ghost predicate WellFormed(rows: seq<Row>, now: int) {
    (forall i, j :: 0 <= i < j < |rows| ==> rows[i].id != rows[j].id)
    && (forall i :: 0 <= i < |rows| ==>
          rows[i].day <= now && rows[i].estimate > 0
          && (rows[i].status.Complete? <==> rows[i].actual.Some?)
          && (rows[i].actual.Some? ==> rows[i].actual.value >= 0))
  }

  ghost predicate Bounded(rows: seq<Row>, now: int, cap: int) {
    WellFormed(rows, now) && Charged(rows, now) <= cap && forall d :: d < now ==> DayTotal(rows, d) <= cap
  }

  lemma {:induction false} SumsAfterUpdate(rows: seq<Row>, k: nat, r: Row, d: int)
    requires k < |rows|
    ensures Charged(rows[k := r], d) == Charged(rows, d)
              - (if rows[k].CountsOn(d) then rows[k].Charge() else 0) + (if r.CountsOn(d) then r.Charge() else 0)
    ensures DayTotal(rows[k := r], d) == DayTotal(rows, d)
              - (if rows[k].day == d then rows[k].Charge() else 0) + (if r.day == d then r.Charge() else 0)
  {
    var n := |rows| - 1;
    if k < n {
      assert rows[k := r][..n] == rows[..n][k := r];
      SumsAfterUpdate(rows[..n], k, r, d);
    } else {
      assert rows[k := r][..n] == rows[..n];
    }
  }

  // Moving the clock forward can only uncharge, and a day that has passed is
  // charged at least what is booked on it.
  lemma {:induction false} ClockForward(rows: seq<Row>, now: int, later: int)
    requires WellFormed(rows, now) && now <= later
    ensures Charged(rows, later) <= Charged(rows, now)
    ensures DayTotal(rows, now) <= Charged(rows, now)
    ensures forall d :: now < d ==> DayTotal(rows, d) == 0
  {
    if rows != [] { ClockForward(rows[..|rows| - 1], now, later); }
  }

  lemma BoundedLater(rows: seq<Row>, now: int, later: int, cap: int)
    requires Bounded(rows, now, cap) && now <= later && 0 <= cap
    ensures Bounded(rows, later, cap)
  {
    ClockForward(rows, now, later);
  }

  lemma StepKeepsBound(l: Ledger, op: Op, now: int, cap: int)
    requires Bounded(l.rows, now, cap) && Honest(l, op, now, cap) && 0 <= cap
    ensures Bounded(Apply(l, op).0.rows, Clock(op, now), cap)
  {
    var rows, later, rows' := l.rows, Clock(op, now), Apply(l, op).0.rows;
    BoundedLater(rows, now, later, cap);
    if rows' != rows {
      if op.Reserve? {
        assert rows'[..|rows|] == rows;
      } else {
        var k := Find(rows, op.key).value;
        assert rows' == rows[k := rows'[k]];
        forall d ensures Charged(rows', d) <= Charged(rows, d) || d > later
                 ensures d < later ==> DayTotal(rows', d) <= DayTotal(rows, d) {
          SumsAfterUpdate(rows, k, rows'[k], d);
        }
      }
    }
  }

  // Main result: over every honest run, today's charge and the booking of
  // every past day stay within the cap.
  lemma {:induction false} NeverOverCap(l: Ledger, ops: seq<Op>, now: int, cap: int)
    requires Bounded(l.rows, now, cap) && HonestRun(l, ops, now, cap) && 0 <= cap
    ensures Bounded(Run(l, ops).rows, FinalClock(ops, now), cap)
    decreases ops
  {
    if ops != [] {
      StepKeepsBound(l, ops[0], now, cap);
      NeverOverCap(Apply(l, ops[0]).0, ops[1..], Clock(ops[0], now), cap);
    }
  }

  lemma EmptyLedgerBounded(policy: Policy, ops: seq<Op>, now: int, cap: int)
    requires HonestRun(Ledger([], policy), ops, now, cap) && 0 <= cap
    ensures var l, today := Run(Ledger([], policy), ops), FinalClock(ops, now);
            Charged(l.rows, today) <= cap && forall d :: d <= today ==> DayTotal(l.rows, d) <= cap
  {
    NeverOverCap(Ledger([], policy), ops, now, cap);
    ClockForward(Run(Ledger([], policy), ops).rows, FinalClock(ops, now), FinalClock(ops, now));
  }

  // The usage hypothesis cannot be dropped: one dispatched row settled above
  // its estimate takes the day it is booked on over a cap that admitted it.
  lemma OverusePassesCap(estimate: int, actual: int, cap: int, day: int)
    requires 0 < estimate <= cap < actual
    ensures var l := Run(Ledger([], Policy(false, cap)),
              [Reserve("a", estimate, "", "", None, day), Dispatch("a", day), Settle("a", Some(actual))]);
            Charged(l.rows, day) > cap
  {
    var l0 := Ledger([], Policy(false, cap));
    var ops := [Reserve("a", estimate, "", "", None, day), Dispatch("a", day), Settle("a", Some(actual))];
    var l1 := Apply(l0, ops[0]).0;
    assert l1.rows == [Row("a", day, estimate, None, Reserved, "", "")];
    var l2 := Apply(l1, ops[1]).0;
    assert l2.rows == [Row("a", day, estimate, None, Dispatched, "", "")];
    var l3 := Apply(l2, ops[2]).0;
    assert l3.rows == [Row("a", day, estimate, Some(actual), Complete, "", "")];
    assert ops[1..] == [ops[1], ops[2]] && ops[1..][1..] == [ops[2]] && ops[1..][1..][1..] == [];
    assert Run(l1, ops[1..]) == Run(l2, ops[1..][1..]) == Run(l3, []);
    assert l3.rows[..0] == [];
  }

  // ---------------------------------------------------- by how much it can pass

  // What a row's reported usage takes beyond its estimate.
  function Excess(r: Row): int { if r.actual.Some? then MaxInt(0, r.actual.value - r.estimate) else 0 }

  function DayExcess(rows: seq<Row>, d: int): int {
    if rows == [] then 0
    else DayExcess(rows[..|rows| - 1], d) + (if rows[|rows| - 1].day == d then Excess(rows[|rows| - 1]) else 0)
  }

  // The row as it would be with its usage held to the estimate.
  function Held(r: Row): Row {
    if r.actual.Some? then r.(actual := Some(MinInt(r.actual.value, r.estimate))) else r
  }

  function AllHeld(rows: seq<Row>): (held: seq<Row>)
    ensures |held| == |rows| && forall i :: 0 <= i < |rows| ==> held[i] == Held(rows[i])
  {
    seq(|rows|, i requires 0 <= i < |rows| => Held(rows[i]))
  }

  lemma {:induction false} HeldSums(rows: seq<Row>, d: int)
    ensures Charged(rows, d) == Charged(AllHeld(rows), d) + DayExcess(rows, d)
    ensures DayTotal(rows, d) == DayTotal(AllHeld(rows), d) + DayExcess(rows, d)
    ensures DayExcess(rows, d) >= 0
  {
    if rows != [] {
      assert AllHeld(rows)[..|rows| - 1] == AllHeld(rows[..|rows| - 1]);
      HeldSums(rows[..|rows| - 1], d);
    }
  }

  lemma {:induction false} HeldFind(rows: seq<Row>, key: string)
    ensures Find(AllHeld(rows), key) == Find(rows, key)
  {
    if rows != [] {
      assert AllHeld(rows)[..|rows| - 1] == AllHeld(rows[..|rows| - 1]);
      HeldFind(rows[..|rows| - 1], key);
    }
  }

  // An operation that changes the table does the same to the held table, with a
  // usage held to the estimate.
  lemma {:induction false} HeldStep(l: Ledger, op: Op, now: int, cap: int) returns (honest: Op)
    requires Timely(l, op, now, cap) && Apply(l, op).0.rows != l.rows
    requires forall i :: 0 <= i < |l.rows| ==> l.rows[i].estimate > 0
    ensures var held := l.(rows := AllHeld(l.rows));
            Honest(held, honest, now, cap) && Clock(honest, now) == Clock(op, now)
            && Apply(held, honest).0.rows == AllHeld(Apply(l, op).0.rows)
  {
    honest := op;
    hide Apply, Find, Charged, DayExcess, AllHeld;
    match op
    case Reserve(_, _, _, _, _, _) => ReserveHeld(l, op);
    case Dispatch(key, day) => DispatchHeld(l, key, day);
    case Settle(key, actual) =>
      var k := SettledRow(l, key, actual);
      honest := if actual.Some? then op.(actual := Some(MinInt(actual.value, l.rows[k].estimate))) else op;
      HeldFind(l.rows, key);
      SettleHeld(l, key, actual, honest, k);
      HeldUpdate(l.rows, k, l.rows[k].(actual := actual, status := if actual.None? then Unknown else Complete));
      HeldKeeps(l.rows, k);
    case Update(policy) => UpdateHeld(l, policy);
  }

  lemma HeldKeeps(rows: seq<Row>, k: nat)
    requires k < |rows|
    ensures AllHeld(rows)[k].estimate == rows[k].estimate
  {
  }

  lemma UpdateHeld(l: Ledger, policy: Policy)
    ensures Apply(l, Update(policy)).0.rows == l.rows
  {
  }

  lemma {:induction false} SettledRow(l: Ledger, key: string, actual: Option<int>) returns (k: nat)
    requires Apply(l, Settle(key, actual)).0.rows != l.rows
    ensures Find(l.rows, key) == Some(k) && k < |l.rows|
  {
    k := Find(l.rows, key).value;
    hide Find;
  }

  lemma {:induction false} ReserveHeld(l: Ledger, op: Op)
    requires op.Reserve? && Apply(l, op).0.rows != l.rows
    ensures Apply(l.(rows := AllHeld(l.rows)), op).0.rows == AllHeld(Apply(l, op).0.rows)
  {
    HeldFind(l.rows, op.key);
    HeldSums(l.rows, op.day);
    hide Charged, DayExcess, Find;
    var rows' := Apply(l, op).0.rows;
    assert AllHeld(rows') == AllHeld(l.rows) + [rows'[|l.rows|]];
  }

  lemma {:induction false} DispatchHeld(l: Ledger, key: string, day: int)
    requires Apply(l, Dispatch(key, day)).0.rows != l.rows
    ensures Apply(l.(rows := AllHeld(l.rows)), Dispatch(key, day)).0.rows
            == AllHeld(Apply(l, Dispatch(key, day)).0.rows)
  {
    HeldFind(l.rows, key);
    var k := Find(l.rows, key).value;
    HeldUpdate(l.rows, k, l.rows[k].(status := Dispatched, day := day));
    hide Find;
  }

  lemma {:induction false} SettleHeld(l: Ledger, key: string, actual: Option<int>, honest: Op, k: nat)
    requires Find(l.rows, key) == Some(k) == Find(AllHeld(l.rows), key) && k < |l.rows|
    requires Apply(l, Settle(key, actual)).0.rows != l.rows && (actual.Some? ==> l.rows[k].estimate >= 0)
    requires honest == Settle(key, if actual.Some? then Some(MinInt(actual.value, l.rows[k].estimate)) else actual)
    ensures var status := if actual.None? then Unknown else Complete;
            var r := l.rows[k].(actual := actual, status := status);
            Apply(l, Settle(key, actual)).0.rows == l.rows[k := r]
            && Apply(l.(rows := AllHeld(l.rows)), honest).0.rows == AllHeld(l.rows)[k := Held(r)]
  {
    hide Find;
    assert AllHeld(l.rows)[k] == Held(l.rows[k]);
  }

  lemma HeldUpdate(rows: seq<Row>, k: nat, r: Row)
    requires k < |rows|
    ensures AllHeld(rows[k := r]) == AllHeld(rows)[k := Held(r)]
  {
  }

  // Main result: without any promise on the usage, over every run the charge of a day
  // passes the cap by no more than its rows' usage passes their estimates.
  lemma {:induction false} OvershootIsExcess(l: Ledger, ops: seq<Op>, now: int, cap: int)
    requires Bounded(AllHeld(l.rows), now, cap) && TimelyRun(l, ops, now, cap) && 0 <= cap
    ensures var rows, today := Run(l, ops).rows, FinalClock(ops, now);
            Charged(rows, today) <= cap + DayExcess(rows, today)
            && forall d :: d < today ==> DayTotal(rows, d) <= cap + DayExcess(rows, d)
    decreases ops
  {
    if ops == [] {
      forall d ensures Charged(l.rows, d) == Charged(AllHeld(l.rows), d) + DayExcess(l.rows, d)
               ensures DayTotal(l.rows, d) == DayTotal(AllHeld(l.rows), d) + DayExcess(l.rows, d)
      {
        HeldSums(l.rows, d);
      }
    } else {
      var op, mid := ops[0], Apply(l, ops[0]).0;
      if mid.rows == l.rows {
        BoundedLater(AllHeld(l.rows), now, Clock(op, now), cap);
      } else {
        assert forall i :: 0 <= i < |l.rows| ==> AllHeld(l.rows)[i].estimate == l.rows[i].estimate;
        var honest := HeldStep(l, op, now, cap);
        StepKeepsBound(l.(rows := AllHeld(l.rows)), honest, now, cap);
      }
      hide Bounded, Apply, Charged, DayTotal, DayExcess, AllHeld;
      OvershootIsExcess(mid, ops[1..], Clock(op, now), cap);
    }
  }

  // ------------------------------------------------- rows never move backwards

  function Stage(s: Status): nat { match s case Reserved => 0 case Dispatched => 1 case _ => 2 }

  ghost predicate Follows(before: Row, after: Row) {
    before.id == after.id && before.estimate == after.estimate && before.topic == after.topic
    && before.binding == after.binding && Stage(before.status) <= Stage(after.status)
    && (Stage(before.status) == 2 ==> after == before)
  }

  // Rows are only appended; each keeps its identity and estimate, only moves
  // forward, and is frozen once settled, whatever the calls and their order.
  lemma {:induction false} RowsOnlyAdvance(l: Ledger, ops: seq<Op>)
    ensures var l' := Run(l, ops);
            |l.rows| <= |l'.rows| && forall i :: 0 <= i < |l.rows| ==> Follows(l.rows[i], l'.rows[i])
    decreases ops
  {
    if ops != [] {
      var mid := Apply(l, ops[0]).0;
      assert |l.rows| <= |mid.rows| && forall i :: 0 <= i < |l.rows| ==> Follows(l.rows[i], mid.rows[i]);
      RowsOnlyAdvance(mid, ops[1..]);
    }
  }

  function RowOf(rows: seq<Row>, key: string): (r: Option<Row>)
    ensures r.Some? ==> r.value in rows && r.value.id == key
  {
    var k := Find(rows, key);
    if k.Some? then Some(rows[k.value]) else None
  }

  // Every row found before is found after, further on.
  ghost predicate RowsFollow(rows: seq<Row>, rows': seq<Row>) {
    forall key {:trigger RowOf(rows', key)} ::
      RowOf(rows, key).Some? ==> RowOf(rows', key).Some? && Follows(RowOf(rows, key).value, RowOf(rows', key).value)
  }

  lemma FindUnique(rows: seq<Row>, now: int, k: nat)
    requires WellFormed(rows, now) && k < |rows|
    ensures Find(rows, rows[k].id) == Some(k)
  {
  }

  lemma StepFollows(l: Ledger, op: Op, now: int)
    requires WellFormed(l.rows, now) && Clock(op, now) >= now
    ensures WellFormed(Apply(l, op).0.rows, Clock(op, now))
    ensures RowsFollow(l.rows, Apply(l, op).0.rows)
  {
    StepWellFormed(l, op, now);
    StepAdvances(l, op);
    hide Apply, Find;
    var rows, rows' := l.rows, Apply(l, op).0.rows;
    forall key | RowOf(rows, key).Some?
      ensures RowOf(rows', key).Some? && Follows(RowOf(rows, key).value, RowOf(rows', key).value)
    {
      OneDispatch(l, op, key);
    }
  }

  lemma StepWellFormed(l: Ledger, op: Op, now: int)
    requires WellFormed(l.rows, now) && Clock(op, now) >= now
    ensures WellFormed(Apply(l, op).0.rows, Clock(op, now))
  {
    var rows, rows' := l.rows, Apply(l, op).0.rows;
    hide Charged;
    if op.Reserve? && rows' != rows {
      assert rows' == rows + [rows'[|rows|]];
    } else if rows' != rows {
      var k := Find(rows, op.key).value;
      assert rows' == rows[k := rows'[k]];
      hide Apply, Find;
    }
  }

  lemma StepAdvances(l: Ledger, op: Op)
    ensures var rows' := Apply(l, op).0.rows;
            |l.rows| <= |rows'| && forall i :: 0 <= i < |l.rows| ==> Follows(l.rows[i], rows'[i])
  {
    hide Charged;
  }

  // The number of dispatches of `key` a run lets through.
  function Dispatches(l: Ledger, ops: seq<Op>, key: string): nat
    decreases ops
  {
    if ops == [] then 0
    else (if ops[0].Dispatch? && ops[0].key == key && Apply(l, ops[0]).1.Done? then 1 else 0)
         + Dispatches(Apply(l, ops[0]).0, ops[1..], key)
  }

  predicate DistinctIds(rows: seq<Row>) { forall i, j :: 0 <= i < j < |rows| ==> rows[i].id != rows[j].id }

  lemma {:induction false} FindAfterUpdate(rows: seq<Row>, k: nat, r: Row, key: string)
    requires k < |rows| && r.id == rows[k].id
    ensures Find(rows[k := r], key) == Find(rows, key)
  {
    var n := |rows| - 1;
    if k == n {
      assert rows[k := r][..n] == rows[..n];
    } else {
      assert rows[k := r][..n] == rows[..n][k := r];
      FindAfterUpdate(rows[..n], k, r, key);
    }
  }

  lemma FindAfterAppend(rows: seq<Row>, r: Row, key: string)
    requires Find(rows, r.id).None? && DistinctIds(rows)
    ensures Find(rows, key).Some? ==> Find(rows + [r], key) == Find(rows, key)
    ensures DistinctIds(rows + [r])
  {
    assert (rows + [r])[..|rows|] == rows;
  }

  // One operation keeps ids distinct and a row's place, and never takes its
  // status back; a dispatch succeeds only on a reserved row.
  lemma OneDispatch(l: Ledger, op: Op, key: string)
    requires DistinctIds(l.rows)
    ensures var mid, k := Apply(l, op).0, Find(l.rows, key);
            DistinctIds(mid.rows)
            && (k.Some?
                ==> Find(mid.rows, key) == k && Stage(l.rows[k.value].status) <= Stage(mid.rows[k.value].status))
            && (op.Dispatch? && op.key == key && Apply(l, op).1.Done? ==>
                  k.Some? && l.rows[k.value].status.Reserved? && !mid.rows[k.value].status.Reserved?)
  {
    var rows := Apply(l, op).0.rows;
    if |rows| > |l.rows| {
      FindAfterAppend(l.rows, rows[|l.rows|], key);
    } else if op.Dispatch? || op.Settle? {
      var k := Find(l.rows, op.key);
      if k.Some? { FindAfterUpdate(l.rows, k.value, rows[k.value], key); }
    }
    hide Charged, Find;
  }

  lemma {:induction false} DispatchedOnce(l: Ledger, ops: seq<Op>, key: string)
    requires DistinctIds(l.rows)
    ensures Dispatches(l, ops, key) <= 1
    ensures Find(l.rows, key).Some? && !l.rows[Find(l.rows, key).value].status.Reserved?
            ==> Dispatches(l, ops, key) == 0
    decreases ops
  {
    hide Apply, Find, DistinctIds;
    if ops != [] {
      OneDispatch(l, ops[0], key);
      DispatchedOnce(Apply(l, ops[0]).0, ops[1..], key);
    }
  }

  // A reservation whose outcome is not reported is charged in full on every day.
  lemma {:induction false} UnreportedIsCharged(rows: seq<Row>, k: nat, now: int, d: int)
    requires WellFormed(rows, now) && k < |rows| && rows[k].actual.None?
    ensures Charged(rows, d) >= rows[k].estimate
  {
    var n := |rows| - 1;
    if k < n {
      UnreportedIsCharged(rows[..n], k, now, d);
    } else {
      ChargedNonNegative(rows[..n], now, d);
    }
  }

  lemma {:induction false} ChargedNonNegative(rows: seq<Row>, now: int, d: int)
    requires WellFormed(rows, now)
    ensures Charged(rows, d) >= 0
  {
    if rows != [] { ChargedNonNegative(rows[..|rows| - 1], now, d); }
  }

  // ------------------------------------------------------------ provider costs

  const MAX_OUTPUT := 4096
  const PROTOCOL_ALLOWANCE := 16384

  // What is reserved for a prompt of so many bytes.
  function PromptEstimate(bytes: nat): int {
    ((bytes + PROTOCOL_ALLOWANCE) * 25 + MAX_OUTPUT * 100 + 9) / 10
  }

  // What is settled for the usage the provider reports.
  function UsageCost(input: nat, cached: nat, output: nat): int
    requires cached <= input
  {
    ((input - cached) * 25 + cached + output * 100 + 9) / 10
  }

  // The estimate is the largest cost the token bounds allow, so settlements
  // within the bounds are honest.
  lemma EstimateIsTheWorstCase(bytes: nat, input: nat, cached: nat, output: nat)
    requires cached <= input <= bytes + PROTOCOL_ALLOWANCE && output <= MAX_OUTPUT
    ensures 0 <= UsageCost(input, cached, output) <= PromptEstimate(bytes)
    ensures UsageCost(bytes + PROTOCOL_ALLOWANCE, 0, MAX_OUTPUT) == PromptEstimate(bytes)
  {
    assert (input - cached) * 25 + cached + output * 100 + 9
           <= (bytes + PROTOCOL_ALLOWANCE) * 25 + MAX_OUTPUT * 100 + 9;
  }
}
