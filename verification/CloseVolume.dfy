// Reconstructing what a setup's recorded fills and closes prove.  The loop over
// closes keeps a running volume per position; its verdict is shown to be about
// every instant, and the statuses it lets through to mean what they say.
module CloseVolume {
  import opened Common
  import Sorting

  datatype Fill = Fill(
    id: int, mine: bool, position: Option<int>, volume: real, price: real, occurred: int, received: int, causal: bool)

  datatype Close = Close(
    id: int, position: int, volume: real, occurred: int, recorded: int,
    gross: real, commission: real, swap: real, conversion: real)

  datatype Trade = Trade(id: int, openedAt: int, closedAt: int, long: bool, net: real, fees: real)

  datatype Held = IsOpen | IsClosed | IsOther

  datatype Position = Position(id: int, long: bool, state: Held, volume: real, entry: real, clock: Option<int>)

  datatype Group = Group(
    closed: bool, pending: bool, terminal: bool, long: bool, approved: real, recordedFilled: real,
    accepted: Option<int>,
    fills: seq<Fill>, closes: seq<Close>, trades: seq<Trade>, positions: seq<Position>)

  datatype Status = Unknown | Pending | ZeroFill | Open | PartialOpen | Closed

  datatype Reason =
    | FillCoverage | FillVolume | ZeroFillUnproven | IdentityIncomplete | PositionIncomplete | PositionInvalid
    | CloseChronology | ObservationPrecedes | TradeInvalid | CostMismatch | CloseProofIncomplete | RemainingMismatch

  datatype Verdict = Verdict(status: Status, reason: Option<Reason>, net: Option<real>, fees: Option<real>)

  // Volume moving at a time on a position.
  datatype Move = Move(position: int, volume: real, at: int)

  function Filled(fills: seq<Fill>): seq<Move> {
    seq(|fills|, i requires 0 <= i < |fills| =>
      Move(if fills[i].position.Some? then fills[i].position.value else -1, fills[i].volume, fills[i].occurred))
  }

  function Shut(closes: seq<Close>): seq<Move> {
    seq(|closes|, i requires 0 <= i < |closes| => Move(closes[i].position, closes[i].volume, closes[i].occurred))
  }

  function Total(ms: seq<Move>): real {
    if ms == [] then 0.0 else Total(ms[..|ms| - 1]) + ms[|ms| - 1].volume
  }

  // All volume on a position, and what of it moved by an instant.
  function Of(ms: seq<Move>, p: int): real {
    if ms == [] then 0.0
    else
      var m := ms[|ms| - 1];
      Of(ms[..|ms| - 1], p) + if m.position == p then m.volume else 0.0
  }

  function Upto(ms: seq<Move>, p: int, t: int): real {
    if ms == [] then 0.0
    else
      var m := ms[|ms| - 1];
      Upto(ms[..|ms| - 1], p, t) + if m.position == p && m.at <= t then m.volume else 0.0
  }

  predicate DistinctIds(ids: seq<int>) { forall i, j :: 0 <= i < j < |ids| ==> ids[i] != ids[j] }

  function FillIds(g: Group): seq<int> { seq(|g.fills|, i requires 0 <= i < |g.fills| => g.fills[i].id) }

  function CloseIds(g: Group): seq<int> { seq(|g.closes|, i requires 0 <= i < |g.closes| => g.closes[i].id) }

  function TradeIds(g: Group): seq<int> { seq(|g.trades|, i requires 0 <= i < |g.trades| => g.trades[i].id) }

  function HeldIds(g: Group): seq<int> { seq(|g.positions|, i requires 0 <= i < |g.positions| => g.positions[i].id) }

  predicate FillsOk(g: Group, cutoff: int) {
    DistinctIds(FillIds(g))
    && forall i :: 0 <= i < |g.fills| ==>
         var f := g.fills[i];
         f.mine && f.received <= cutoff && f.causal && f.volume > 0.0 && f.price > 0.0
         && (g.accepted.Some? ==> g.accepted.value <= f.occurred)
  }

  predicate IdentityOk(g: Group, cutoff: int) {
    (forall i :: 0 <= i < |g.fills| ==> g.fills[i].position.Some?)
    && (forall i :: 0 <= i < |g.closes| ==> g.closes[i].recorded <= cutoff && g.closes[i].occurred <= cutoff)
    && (forall i :: 0 <= i < |g.trades| ==> g.trades[i].closedAt <= cutoff)
    && DistinctIds(CloseIds(g)) && DistinctIds(TradeIds(g)) && DistinctIds(HeldIds(g))
  }

  function FillPositions(g: Group): set<int> {
    set i | 0 <= i < |g.fills| && g.fills[i].position.Some? :: g.fills[i].position.value
  }

  function HeldPositions(g: Group): set<int> { set i | 0 <= i < |g.positions| :: g.positions[i].id }

  predicate PositionEvidence(g: Group) { FillPositions(g) == HeldPositions(g) && |FillPositions(g)| == 1 }

  predicate PositionsOk(g: Group, cutoff: int) {
    forall i :: 0 <= i < |g.positions| ==>
      var p := g.positions[i];
      p.long == g.long && p.volume >= 0.0 && p.entry > 0.0 && p.clock.Some? && p.clock.value <= cutoff
  }

  // Read at broker time when position updates carry it, else at arrival.
  predicate ObservedLast(g: Group, byBroker: bool) {
    forall i :: 0 <= i < |g.positions| && g.positions[i].clock.Some? ==>
      var at := g.positions[i].clock.value;
      (forall k :: 0 <= k < |g.fills| && g.fills[k].position == Some(g.positions[i].id) ==>
         (if byBroker then g.fills[k].occurred else g.fills[k].received) <= at)
      && (forall k :: 0 <= k < |g.closes| && g.closes[k].position == g.positions[i].id ==>
            (if byBroker then g.closes[k].occurred else g.closes[k].recorded) <= at)
  }

  predicate TradesOk(g: Group) {
    (forall i :: 0 <= i < |g.trades| ==> g.trades[i].openedAt <= g.trades[i].closedAt && g.trades[i].long == g.long)
    && forall i :: 0 <= i < |g.trades| ==>
         (exists k :: 0 <= k < |g.fills| && g.fills[k].occurred == g.trades[i].openedAt)
         && forall k :: 0 <= k < |g.fills| ==> g.trades[i].openedAt <= g.fills[k].occurred
  }

  predicate CloseOk(g: Group, d: Close) { d.volume > 0.0 && d.position in FillPositions(g) && d.recorded >= d.occurred }

  // At every instant no more of a position has been closed than was filled.
  ghost predicate Chronological(g: Group) {
    (forall i :: 0 <= i < |g.closes| ==> CloseOk(g, g.closes[i]))
    && forall p, t :: Upto(Shut(g.closes), p, t) <= Upto(Filled(g.fills), p, t)
  }

  predicate ClosedProof(g: Group) {
    g.closed && |g.trades| == 1 && (forall k :: 0 <= k < |g.closes| ==> g.closes[k].occurred <= g.trades[0].closedAt)
    && Total(Shut(g.closes)) == Total(Filled(g.fills))
    && (forall i :: 0 <= i < |g.positions| ==>
          Of(Shut(g.closes), g.positions[i].id) == Of(Filled(g.fills), g.positions[i].id))
    && forall i :: 0 <= i < |g.positions| ==> g.positions[i].state == IsClosed
  }

  function Costs(closes: seq<Close>): real {
    if closes == [] then 0.0
    else
      var d := closes[|closes| - 1];
      Costs(closes[..|closes| - 1]) + (d.commission + d.swap + d.conversion)
  }

  function Gross(closes: seq<Close>): real {
    if closes == [] then 0.0 else Gross(closes[..|closes| - 1]) + closes[|closes| - 1].gross
  }

  function GrossAndCosts(closes: seq<Close>): real {
    if closes == [] then 0.0
    else
      var d := closes[|closes| - 1];
      GrossAndCosts(closes[..|closes| - 1]) + (d.gross + d.commission + d.swap + d.conversion)
  }

  predicate RemainingOk(g: Group) {
    forall i :: 0 <= i < |g.positions| ==>
      var p := g.positions[i];
      p.state == IsOpen && p.volume > 0.0 && p.volume == Of(Filled(g.fills), p.id) - Of(Shut(g.closes), p.id)
  }

  function Because(reason: Reason): Verdict { Verdict(Unknown, Some(reason), None, None) }

  function Plain(status: Status): Verdict { Verdict(status, None, None, None) }

  // What a group with no earlier objection is judged to be.
  ghost function Judgement(g: Group, cutoff: int, byBroker: bool): Verdict {
    var volume := Total(Filled(g.fills));
    if !FillsOk(g, cutoff) then Because(FillCoverage)
    else if volume != g.recordedFilled || volume > g.approved then Because(FillVolume)
    else if volume == 0.0 then
      if g.terminal && g.closes == [] && g.trades == [] && g.positions == [] then Plain(ZeroFill)
      else if g.pending then Plain(Pending) else Because(ZeroFillUnproven)
    else if !IdentityOk(g, cutoff) then Because(IdentityIncomplete)
    else if !PositionEvidence(g) then Because(PositionIncomplete)
    else if !PositionsOk(g, cutoff) then Because(PositionInvalid)
    else if !Chronological(g) then Because(CloseChronology)
    else if !ObservedLast(g, byBroker) then Because(ObservationPrecedes)
    else if !TradesOk(g) then Because(TradeInvalid)
    else Settled(g)
  }

  function Settled(g: Group): Verdict {
    var volume := Total(Filled(g.fills));
    if ClosedProof(g) then
      if g.trades[0].net != GrossAndCosts(g.closes) || g.trades[0].fees != Costs(g.closes) then Because(CostMismatch)
      else Verdict(Closed, None, Some(g.trades[0].net), Some(g.trades[0].fees))
    else if g.closed || g.trades != [] || Total(Shut(g.closes)) > volume then Because(CloseProofIncomplete)
    else if !RemainingOk(g) then Because(RemainingMismatch)
    else Plain(if volume < g.approved || Total(Shut(g.closes)) > 0.0 then PartialOpen else Open)
  }

  // ------------------------------------------------------- sums and their order

  lemma {:induction false} UptoPrefix(ms: seq<Move>, n: nat, p: int, t: int)
    requires n <= |ms| && (forall k :: 0 <= k < n ==> ms[k].at <= t) && forall k :: n <= k < |ms| ==> t < ms[k].at
    ensures Upto(ms, p, t) == Of(ms[..n], p)
  {
    if ms == [] {
    } else if n == |ms| {
      UptoPrefix(ms[..n - 1], n - 1, p, t);
      assert ms[..n] == ms && ms[..n - 1][..n - 1] == ms[..n - 1];
    } else {
      UptoPrefix(ms[..|ms| - 1], n, p, t);
      assert ms[..|ms| - 1][..n] == ms[..n];
    }
  }

  lemma {:induction false} PartOfUpto(ms: seq<Move>, n: nat, p: int, t: int)
    requires n <= |ms| && (forall k :: 0 <= k < n ==> ms[k].at <= t) && forall k :: 0 <= k < |ms| ==> ms[k].volume > 0.0
    ensures 0.0 <= Of(ms[..n], p) <= Upto(ms, p, t)
  {
    if ms == [] {
    } else if n == |ms| {
      PartOfUpto(ms[..n - 1], n - 1, p, t);
      assert ms[..n] == ms && ms[..n - 1][..n - 1] == ms[..n - 1];
    } else {
      PartOfUpto(ms[..|ms| - 1], n, p, t);
      assert ms[..|ms| - 1][..n] == ms[..n];
    }
  }

  lemma {:induction false} UptoGrows(ms: seq<Move>, p: int, s: int, t: int)
    requires s <= t && forall k :: 0 <= k < |ms| ==> ms[k].volume > 0.0
    ensures 0.0 <= Upto(ms, p, s) <= Upto(ms, p, t)
  {
    if ms != [] { UptoGrows(ms[..|ms| - 1], p, s, t); }
  }

  // The last move on a position is where its running volume was last set.
  lemma {:induction false} LastMove(ms: seq<Move>, n: nat, p: int) returns (j: int)
    requires n <= |ms|
    ensures -1 <= j < n && Of(ms[..j + 1], p) == Of(ms[..n], p)
    ensures j == -1 || ms[j].position == p
  {
    j := n - 1;
    while j >= 0 && ms[j].position != p
      invariant -1 <= j < n && Of(ms[..j + 1], p) == Of(ms[..n], p)
    {
      assert ms[..j + 1][..j] == ms[..j];
      j := j - 1;
    }
  }

  function Occurred(d: Close): int { d.occurred }

  lemma {:induction false} ShutGrows(ds: seq<Close>, d: Close, p: int, t: int)
    ensures Upto(Shut(ds + [d]), p, t)
            == Upto(Shut(ds), p, t) + if d.position == p && d.occurred <= t then d.volume else 0.0
    ensures Shut(ds + [d]) == Shut(ds) + [Move(d.position, d.volume, d.occurred)]
  {
    assert Shut(ds + [d]) == Shut(ds) + [Move(d.position, d.volume, d.occurred)];
  }

  lemma {:induction false} InsertSums(ds: seq<Close>, d: Close, p: int, t: int)
    ensures Upto(Shut(Sorting.Insert(ds, d, Occurred)), p, t)
            == Upto(Shut(ds), p, t) + if d.position == p && d.occurred <= t then d.volume else 0.0
  {
    if ds == [] || ds[|ds| - 1].occurred <= d.occurred {
      ShutGrows(ds, d, p, t);
    } else {
      var front, last := ds[..|ds| - 1], ds[|ds| - 1];
      assert ds == front + [last];
      InsertSums(front, d, p, t);
      ShutGrows(front, last, p, t);
      ShutGrows(Sorting.Insert(front, d, Occurred), last, p, t);
    }
  }

  lemma {:induction false} SortSums(ds: seq<Close>, p: int, t: int)
    ensures Upto(Shut(Sorting.Sort(ds, Occurred)), p, t) == Upto(Shut(ds), p, t)
  {
    if ds != [] {
      var front, last := ds[..|ds| - 1], ds[|ds| - 1];
      assert ds == front + [last];
      SortSums(front, p, t);
      InsertSums(Sorting.Sort(front, Occurred), last, p, t);
      ShutGrows(front, last, p, t);
    }
  }

  // ------------------------------------------------------- the chronology loop

  // What the loop tests at one close, in time order.
  predicate Follows(g: Group, ds: seq<Close>, i: nat)
    requires i < |ds|
  {
    CloseOk(g, ds[i]) && Of(Shut(ds)[..i + 1], ds[i].position) <= Upto(Filled(g.fills), ds[i].position, ds[i].occurred)
  }

  lemma FollowingIsChronological(g: Group, ds: seq<Close>, p: int, t: int)
    requires Sorting.SortedBy(ds, Occurred) && (forall i :: 0 <= i < |ds| ==> Follows(g, ds, i))
    requires forall i :: 0 <= i < |g.fills| ==> g.fills[i].volume > 0.0
    ensures Upto(Shut(ds), p, t) <= Upto(Filled(g.fills), p, t)
  {
    var ms, fs := Shut(ds), Filled(g.fills);
    var n := 0;
    while n < |ds| && ds[n].occurred <= t
      invariant 0 <= n <= |ds| && forall k :: 0 <= k < n ==> ds[k].occurred <= t
    {
      n := n + 1;
    }
    UptoPrefix(ms, n, p, t);
    var j := LastMove(ms, n, p);
    UptoGrows(fs, p, if j == -1 then t else ds[j].occurred, t);
    if j >= 0 { assert Follows(g, ds, j); } else { assert ms[..0] == []; }
  }

  lemma ChronologicalFollows(g: Group, ds: seq<Close>, i: nat)
    requires Sorting.SortedBy(ds, Occurred) && i < |ds| && (forall k :: 0 <= k < |ds| ==> CloseOk(g, ds[k]))
    requires Upto(Shut(ds), ds[i].position, ds[i].occurred) <= Upto(Filled(g.fills), ds[i].position, ds[i].occurred)
    ensures Follows(g, ds, i)
  {
    PartOfUpto(Shut(ds), i + 1, ds[i].position, ds[i].occurred);
  }

  lemma AcceptedIsChronological(g: Group, ds: seq<Close>)
    requires ds == Sorting.Sort(g.closes, Occurred) && (forall i :: 0 <= i < |ds| ==> Follows(g, ds, i))
    requires forall i :: 0 <= i < |g.fills| ==> g.fills[i].volume > 0.0
    ensures Chronological(g)
  {
    hide Upto, Of, Shut, Filled, FillPositions;
    Sorting.SortMeans(g.closes, Occurred);
    forall p, t ensures Upto(Shut(g.closes), p, t) <= Upto(Filled(g.fills), p, t) {
      FollowingIsChronological(g, ds, p, t);
      SortSums(g.closes, p, t);
    }
    forall i | 0 <= i < |g.closes| ensures CloseOk(g, g.closes[i]) {
      assert g.closes[i] in multiset(ds);
      var k :| 0 <= k < |ds| && ds[k] == g.closes[i];
      assert Follows(g, ds, k);
    }
  }

  lemma ChronologicalIsAccepted(g: Group, ds: seq<Close>)
    requires ds == Sorting.Sort(g.closes, Occurred) && Chronological(g)
    ensures forall i :: 0 <= i < |ds| ==> Follows(g, ds, i)
  {
    hide Upto, Of, Shut, Filled, FillPositions, Follows;
    Sorting.SortMeans(g.closes, Occurred);
    forall k | 0 <= k < |ds| ensures CloseOk(g, ds[k]) {
      assert ds[k] in multiset(g.closes);
    }
    forall i | 0 <= i < |ds| ensures Follows(g, ds, i) {
      SortSums(g.closes, ds[i].position, ds[i].occurred);
      ChronologicalFollows(g, ds, i);
    }
  }

  // Main result: testing each close once, in the order of their times, decides the
  // volumes of every position at every instant.
  lemma LoopDecides(g: Group, ds: seq<Close>)
    requires ds == Sorting.Sort(g.closes, Occurred) && forall i :: 0 <= i < |g.fills| ==> g.fills[i].volume > 0.0
    ensures (forall i :: 0 <= i < |ds| ==> Follows(g, ds, i)) <==> Chronological(g)
  {
    hide Chronological, Follows;
    if forall i :: 0 <= i < |ds| ==> Follows(g, ds, i) { AcceptedIsChronological(g, ds); }
    if Chronological(g) { ChronologicalIsAccepted(g, ds); }
  }

  function CumAt(m: map<int, real>, p: int): real { if p in m then m[p] else 0.0 }

  method ChronologyInvalid(g: Group) returns (invalid: bool)
    requires forall i :: 0 <= i < |g.fills| ==> g.fills[i].volume > 0.0
    ensures invalid <==> !Chronological(g)
  {
    var ds := Sorting.Sort(g.closes, Occurred);
    var cumulative: map<int, real> := map[];
    invalid := false;
    for i := 0 to |ds|
      invariant forall p :: CumAt(cumulative, p) == Of(Shut(ds)[..i], p)
      invariant invalid <==> exists k :: 0 <= k < i && !Follows(g, ds, k)
    {
      var d := ds[i];
      OfGrows(ds, i);
      hide Of, Shut;
      ghost var was := cumulative;
      cumulative := cumulative[d.position := CumAt(cumulative, d.position) + d.volume];
      forall p ensures CumAt(cumulative, p) == Of(Shut(ds)[..i + 1], p) {
        assert CumAt(was, p) == Of(Shut(ds)[..i], p);
      }
      var available := Upto(Filled(g.fills), d.position, d.occurred);
      assert cumulative[d.position] == CumAt(cumulative, d.position);
      if !CloseOk(g, d) || cumulative[d.position] > available {
        assert !Follows(g, ds, i);
        invalid := true;
      }
    }
    LoopDecides(g, ds);
  }

  lemma OfGrows(ds: seq<Close>, i: nat)
    requires i < |ds|
    ensures forall p :: Of(Shut(ds)[..i + 1], p)
                        == Of(Shut(ds)[..i], p) + if p == ds[i].position then ds[i].volume else 0.0
  {
    assert Shut(ds)[..i + 1][..i] == Shut(ds)[..i];
  }

  // ------------------------------------------------------------------- the row

  class Row {
    var status: Status
    var reasons: seq<Reason>
    var net: Option<real>
    var fees: Option<real>

    // A row that carries an objection already is left as it is.
    method Reconstruct(g: Group, cutoff: int, byBroker: bool)
      requires status == Unknown && net == None && fees == None
      modifies this
      ensures var v := Judgement(g, cutoff, byBroker);
              if old(reasons) != [] then status == Unknown && reasons == old(reasons) && net == None && fees == None
              else status == v.status && net == v.net && fees == v.fees
                   && reasons == if v.reason.Some? then [v.reason.value] else []
    {
      hide Total, Of, DistinctIds, PositionsOk, ObservedLast, TradesOk, Settled, FillPositions, HeldPositions,
           Chronological;
      if reasons != [] { return; }
      var volume := Total(Filled(g.fills));
      if !FillsOk(g, cutoff) { reasons := reasons + [FillCoverage]; return; }
      if volume != g.recordedFilled || volume > g.approved { reasons := reasons + [FillVolume]; return; }
      if volume == 0.0 {
        if g.terminal && g.closes == [] && g.trades == [] && g.positions == [] { status := ZeroFill; }
        else if g.pending { status := Pending; }
        else { reasons := reasons + [ZeroFillUnproven]; }
        return;
      }
      if !IdentityOk(g, cutoff) { reasons := reasons + [IdentityIncomplete]; return; }
      if FillPositions(g) != HeldPositions(g) || |FillPositions(g)| != 1 {
        reasons := reasons + [PositionIncomplete];
        return;
      }
      if !PositionsOk(g, cutoff) { reasons := reasons + [PositionInvalid]; return; }
      var invalid := ChronologyInvalid(g);
      if invalid { reasons := reasons + [CloseChronology]; return; }
      if !ObservedLast(g, byBroker) { reasons := reasons + [ObservationPrecedes]; return; }
      if !TradesOk(g) { reasons := reasons + [TradeInvalid]; return; }
      Settle(g);
    }

    method Settle(g: Group)
      requires status == Unknown && net == None && fees == None && reasons == []
      modifies this
      ensures var v := Settled(g);
              status == v.status && net == v.net && fees == v.fees
              && reasons == if v.reason.Some? then [v.reason.value] else []
    {
      hide Total, Of, Shut, Filled, Costs, GrossAndCosts;
      var volume, closedVolume := Total(Filled(g.fills)), Total(Shut(g.closes));
      if ClosedProof(g) {
        var realized, costs := g.trades[0].net, Costs(g.closes);
        if realized != GrossAndCosts(g.closes) || costs != g.trades[0].fees {
          reasons := reasons + [CostMismatch];
          return;
        }
        status, net, fees := Closed, Some(realized), Some(costs);
      } else if g.closed || g.trades != [] || closedVolume > volume {
        reasons := reasons + [CloseProofIncomplete];
      } else if !RemainingOk(g) {
        reasons := reasons + [RemainingMismatch];
      } else {
        status := if volume < g.approved || closedVolume > 0.0 then PartialOpen else Open;
      }
    }
  }

  // ------------------------------------------------------- what a status proves

  lemma {:induction false} AllOnOne(ms: seq<Move>, p: int)
    requires forall i :: 0 <= i < |ms| ==> ms[i].position == p
    ensures Of(ms, p) == Total(ms)
  {
    if ms != [] { AllOnOne(ms[..|ms| - 1], p); }
  }

  lemma {:induction false} TotalPositive(ms: seq<Move>)
    requires forall i :: 0 <= i < |ms| ==> ms[i].volume > 0.0
    ensures Total(ms) >= 0.0 && (ms != [] ==> Total(ms) > 0.0)
  {
    if ms != [] { TotalPositive(ms[..|ms| - 1]); }
  }

  lemma {:induction false} CostsAdd(closes: seq<Close>)
    ensures GrossAndCosts(closes) == Gross(closes) + Costs(closes)
  {
    if closes != [] { CostsAdd(closes[..|closes| - 1]); }
  }

  lemma TheOne<T>(s: set<T>) returns (x: T)
    requires |s| == 1
    ensures s == {x}
  {
    x :| x in s;
    assert |s - {x}| == 0;
    assert s == (s - {x}) + {x};
  }

  lemma FirstTwoDiffer(ids: seq<int>)
    requires DistinctIds(ids)
    ensures |ids| > 1 ==> ids[0] != ids[1]
  {
  }

  // With the evidence in order there is one position, every fill is on it, and
  // so is every close that was accepted.
  lemma OnePosition(g: Group, cutoff: int)
    requires IdentityOk(g, cutoff) && PositionEvidence(g) && forall i :: 0 <= i < |g.closes| ==> CloseOk(g, g.closes[i])
    ensures |g.positions| == 1
    ensures forall i :: 0 <= i < |g.fills| ==> g.fills[i].position == Some(g.positions[0].id)
    ensures forall i :: 0 <= i < |g.closes| ==> g.closes[i].position == g.positions[0].id
  {
    var s := HeldPositions(g);
    var p := TheOne(s);
    var i :| 0 <= i < |g.positions| && g.positions[i].id == p;
    assert forall k :: 0 <= k < |g.positions| ==> g.positions[k].id in s;
    FirstTwoDiffer(HeldIds(g));
    forall i | 0 <= i < |g.fills| ensures g.fills[i].position == Some(p) {
      assert g.fills[i].position.value in s;
    }
    forall i | 0 <= i < |g.closes| ensures g.closes[i].position == p {
      assert g.closes[i].position in s;
    }
  }

  // So a setup classed open, partly open or closed never had more of its position
  // closed than filled, at any instant.
  lemma NeverOverclosed(g: Group, cutoff: int, byBroker: bool, p: int, t: int)
    requires Judgement(g, cutoff, byBroker).status in {Open, PartialOpen, Closed}
    ensures Upto(Shut(g.closes), p, t) <= Upto(Filled(g.fills), p, t)
    ensures forall i :: 0 <= i < |g.closes| ==> g.closes[i].volume > 0.0
  {
    hide Upto, Shut, Filled, Total, Settled, FillPositions, FillsOk, IdentityOk, PositionEvidence, PositionsOk,
         ObservedLast, TradesOk;
  }

  // And the class means: closed, all of it closed and the recorded result equal to
  // gross plus signed costs; open means nothing closed and all of it filled; in
  // both open classes the position's recorded volume is what remains.
  lemma StatusMeans(g: Group, cutoff: int, byBroker: bool)
    ensures var v := Judgement(g, cutoff, byBroker);
            var filled, closed := Total(Filled(g.fills)), Total(Shut(g.closes));
            (v.status == Closed ==>
               closed == filled && v.net == Some(Gross(g.closes) + Costs(g.closes)) && v.fees == Some(Costs(g.closes)))
            && (v.status in {Open, PartialOpen}
                ==> |g.positions| == 1 && g.positions[0].volume == filled - closed > 0.0)
            && (v.status == Open ==> g.closes == [] && filled == g.approved)
            && (v.status == PartialOpen ==> g.closes != [] || filled < g.approved)
  {
    CostsAdd(g.closes);
    var v := Judgement(g, cutoff, byBroker);
    if v.status in {Open, PartialOpen} {
      OpenMeans(g, cutoff);
    }
    hide Total, Of, Shut, Filled, Costs, Gross, GrossAndCosts, FillsOk, IdentityOk, PositionEvidence, PositionsOk,
         ObservedLast,
         TradesOk, Chronological, RemainingOk;
  }

  lemma OpenMeans(g: Group, cutoff: int)
    requires IdentityOk(g, cutoff) && PositionEvidence(g) && Chronological(g) && RemainingOk(g)
    ensures |g.positions| == 1 && g.positions[0].volume == Total(Filled(g.fills)) - Total(Shut(g.closes)) > 0.0
    ensures Total(Shut(g.closes)) >= 0.0 && (g.closes != [] ==> Total(Shut(g.closes)) > 0.0)
    ensures g.closes == [] ==> Total(Shut(g.closes)) == 0.0
  {
    OnePosition(g, cutoff);
    AllOnOne(Filled(g.fills), g.positions[0].id);
    AllOnOne(Shut(g.closes), g.positions[0].id);
    TotalPositive(Shut(g.closes));
    hide Total, Of;
  }
}
