// Walking the recorded visible ladder for a fill.  The walk takes each level in
// order until the units are filled; no other way to take the same units from the
// visible levels is better.
module VisibleBook {
  import opened Common
  import opened Sorting

  const MAX_AGE := 3_000

  datatype QuoteSide = Ask | Bid

  datatype Level = Level(price: real, size: real)

  datatype BookPoint = BookPoint(source: int, available: int, bids: seq<Level>, asks: seq<Level>)

  datatype View = View(
    bookAt: int, visible: real, needed: Option<nat>, walk: Option<real>, gap: Option<real>, shortfall: real)

  function Adverse(price: real, reference: real, side: QuoteSide): real {
    if side.Ask? then price - reference else reference - price
  }

  function Levels(b: BookPoint, side: QuoteSide): seq<Level> { if side.Ask? then b.asks else b.bids }

  // Best price first, every size positive.
  predicate Ladder(levels: seq<Level>, side: QuoteSide) {
    (forall i :: 0 <= i < |levels| ==> levels[i].size > 0.0)
    && forall i, j :: 0 <= i <= j < |levels| ==> Adverse(levels[j].price, levels[i].price, side) >= 0.0
  }

  predicate BooksOk(books: seq<BookPoint>) {
    (forall i :: 0 <= i < |books| ==> Ladder(books[i].bids, Bid) && Ladder(books[i].asks, Ask))
    && forall i, j :: 0 <= i <= j < |books| ==> books[i].available <= books[j].available
  }

  function Available(book: BookPoint): int { book.available }

  function Size(levels: seq<Level>): real {
    if levels == [] then 0.0 else Size(levels[..|levels| - 1]) + levels[|levels| - 1].size
  }

  function Worth(units: real, price: real): real { units * price }

  // What an allocation costs.
  function Cost(levels: seq<Level>, takes: seq<real>): real
    requires |takes| == |levels|
  {
    if levels == [] then 0.0
    else
      var n := |levels| - 1;
      Cost(levels[..n], takes[..n]) + Worth(takes[n], levels[n].price)
  }

  // A way to take the units from the levels.
  predicate Fills(levels: seq<Level>, units: real, takes: seq<real>) {
    |takes| == |levels| && (forall i :: 0 <= i < |levels| ==> 0.0 <= takes[i] <= levels[i].size) && Sum(takes) == units
  }

  // The cost of filling the units from the best levels: some allocation has it
  // and none has a better one.
  ghost predicate BestCost(levels: seq<Level>, side: QuoteSide, units: real, cost: real) {
    (exists takes :: Fills(levels, units, takes) && Cost(levels, takes) == cost)
    && forall takes :: Fills(levels, units, takes) ==> Adverse(Cost(levels, takes), cost, side) >= 0.0
  }

  // The first n levels are enough and fewer are not.
  predicate LeastPrefix(levels: seq<Level>, units: real, n: nat) {
    n <= |levels| && units <= Size(levels[..n]) && forall m :: 0 <= m < n ==> Size(levels[..m]) < units
  }

  ghost predicate Viewed(v: Option<View>, books: seq<BookPoint>, at: int, side: QuoteSide, units: real)
    requires units > 0.0
  {
    var index := BisectRight(books, Available, at);
    if index == 0 || at - books[index - 1].source > MAX_AGE || Levels(books[index - 1], side) == [] then v == None
    else
      var book := books[index - 1];
      var levels := Levels(book, side);
      v.Some? && v.value.bookAt == book.source && v.value.visible == Size(levels)
      && v.value.shortfall == Max(0.0, units - Size(levels))
      && (if units > Size(levels) then v.value.walk == None && v.value.needed == None && v.value.gap == None
          else v.value.walk.Some? && BestCost(levels, side, units, Worth(units, v.value.walk.value))
               && v.value.needed.Some? && LeastPrefix(levels, units, v.value.needed.value)
               && v.value.gap == Some(Adverse(v.value.walk.value, levels[0].price, side)) && v.value.gap.value >= 0.0)
  }

  // --------------------------------------------------------------- optimality

  // The walk's allocation: whole levels, then the rest, then nothing.
  predicate Greedy(levels: seq<Level>, takes: seq<real>, n: nat) {
    |takes| == |levels| && 0 < n <= |levels|
    && (forall i :: 0 <= i < n - 1 ==> takes[i] == levels[i].size)
    && (forall i :: n <= i < |levels| ==> takes[i] == 0.0)
  }

  lemma SignedGain(take: real, other: real, price: real, pivot: real, side: QuoteSide)
    requires (other <= take && Adverse(price, pivot, side) <= 0.0)
             || (take <= other && Adverse(price, pivot, side) >= 0.0)
             || price == pivot
    ensures Adverse(Worth(take, price), Worth(other, price), side)
            <= Adverse(Worth(take, pivot), Worth(other, pivot), side)
  {
    if side.Ask? {
      Opposed(take - other, price - pivot);
      Expand(take, other, price, pivot);
    } else {
      Opposed(take - other, pivot - price);
      Expand(take, other, pivot, price);
    }
  }

  lemma Opposed(a: real, b: real)
    requires (a >= 0.0 && b <= 0.0) || (a <= 0.0 && b >= 0.0) || b == 0.0
    ensures a * b <= 0.0
  {
  }

  lemma Expand(a: real, b: real, p: real, q: real)
    ensures (a - b) * (p - q) == a * p - b * p - (a * q - b * q)
  {
  }

  lemma PrefixStep(levels: seq<Level>, takes: seq<real>, m: nat)
    requires m < |levels| == |takes|
    ensures Sum(takes[..m + 1]) == Sum(takes[..m]) + takes[m]
    ensures Cost(levels[..m + 1], takes[..m + 1]) == Cost(levels[..m], takes[..m]) + Worth(takes[m], levels[m].price)
  {
    assert levels[..m + 1][..m] == levels[..m] && takes[..m + 1][..m] == takes[..m];
  }

  lemma GainAt(levels: seq<Level>, takes: seq<real>, others: seq<real>, n: nat, side: QuoteSide, i: nat)
    requires Ladder(levels, side) && Greedy(levels, takes, n) && i < |levels| && |others| == |levels|
    requires 0.0 <= others[i] <= levels[i].size
    ensures Adverse(Worth(takes[i], levels[i].price), Worth(others[i], levels[i].price), side)
            <= Adverse(Worth(takes[i], levels[n - 1].price), Worth(others[i], levels[n - 1].price), side)
  {
    var price, pivot := levels[i].price, levels[n - 1].price;
    assert i <= n - 1 ==> Adverse(pivot, price, side) >= 0.0;
    assert i >= n - 1 ==> Adverse(price, pivot, side) >= 0.0;
    assert Adverse(price, pivot, side) == -Adverse(pivot, price, side);
    SignedGain(takes[i], others[i], price, pivot, side);
  }

  // Moving any allocation towards the walk's never costs more, priced at the
  // last level the walk needs.
  lemma {:induction false} WalkGain(
      levels: seq<Level>, takes: seq<real>, others: seq<real>, n: nat, side: QuoteSide, m: nat)
    requires Ladder(levels, side) && Greedy(levels, takes, n) && m <= |levels| && |others| == |levels|
    requires forall i :: 0 <= i < |levels| ==> 0.0 <= others[i] <= levels[i].size
    ensures var pivot := levels[n - 1].price;
            Adverse(Cost(levels[..m], takes[..m]), Cost(levels[..m], others[..m]), side)
            <= Adverse(Worth(Sum(takes[..m]), pivot), Worth(Sum(others[..m]), pivot), side)
  {
    ZeroWorth(levels[n - 1].price);
    if m > 0 {
      var i, pivot := m - 1, levels[n - 1].price;
      WalkGain(levels, takes, others, n, side, i);
      PrefixStep(levels, takes, i);
      PrefixStep(levels, others, i);
      GainAt(levels, takes, others, n, side, i);
      Distribute(Sum(takes[..i]), takes[i], pivot);
      Distribute(Sum(others[..i]), others[i], pivot);
      hide Cost, Sum, Ladder, Greedy, Worth;
    }
  }

  lemma ZeroWorth(price: real)
    ensures Worth(0.0, price) == 0.0
  {
  }

  lemma Distribute(a: real, b: real, c: real)
    ensures Worth(a + b, c) == Worth(a, c) + Worth(b, c)
  {
  }

  lemma WalkIsBest(levels: seq<Level>, takes: seq<real>, others: seq<real>, n: nat, side: QuoteSide)
    requires Ladder(levels, side) && Greedy(levels, takes, n)
    requires Fills(levels, Sum(takes), others)
    ensures Adverse(Cost(levels, others), Cost(levels, takes), side) >= 0.0
  {
    WalkGain(levels, takes, others, n, side, |levels|);
    assert levels[..|levels|] == levels && takes[..|levels|] == takes && others[..|levels|] == others;
    hide Cost, Sum, Ladder, Greedy, Worth;
  }

  // No allocation averages better than the best price.
  lemma {:induction false} NeverBelowBest(levels: seq<Level>, takes: seq<real>, side: QuoteSide, m: nat)
    requires Ladder(levels, side) && 0 < |levels| == |takes| && m <= |levels|
    requires forall i :: 0 <= i < |levels| ==> 0.0 <= takes[i]
    ensures Adverse(Cost(levels[..m], takes[..m]), Worth(Sum(takes[..m]), levels[0].price), side) >= 0.0
  {
    ZeroWorth(levels[0].price);
    if m > 0 {
      var i, best := m - 1, levels[0].price;
      NeverBelowBest(levels, takes, side, i);
      PrefixStep(levels, takes, i);
      ZeroWorth(levels[i].price);
      assert Adverse(levels[i].price, best, side) >= 0.0;
      SignedGain(0.0, takes[i], levels[i].price, best, side);
      Distribute(Sum(takes[..i]), takes[i], best);
      hide Cost, Sum, Ladder, Worth;
    }
  }

  // ------------------------------------------------------------------ the walk

  lemma {:induction false} SizeGrows(levels: seq<Level>, m: nat, n: nat)
    requires m <= n <= |levels| && forall i :: 0 <= i < |levels| ==> levels[i].size > 0.0
    ensures Size(levels[..m]) <= Size(levels[..n])
  {
    if m < n {
      SizeGrows(levels, m, n - 1);
      assert levels[..n][..n - 1] == levels[..n - 1];
    }
  }

  lemma {:induction false} ZerosAdd(levels: seq<Level>, takes: seq<real>, n: nat, m: nat)
    requires |takes| == |levels| && n <= m <= |levels| && forall i :: n <= i < |levels| ==> takes[i] == 0.0
    ensures Sum(takes[..m]) == Sum(takes[..n]) && Cost(levels[..m], takes[..m]) == Cost(levels[..n], takes[..n])
  {
    if n < m {
      ZerosAdd(levels, takes, n, m - 1);
      PrefixStep(levels, takes, m - 1);
      ZeroWorth(levels[m - 1].price);
    }
  }

  method WalkLadder(levels: seq<Level>, side: QuoteSide, units: real) returns (remaining: real, cost: real, needed: nat)
    requires units > 0.0 && Ladder(levels, side) && levels != []
    ensures remaining == Max(0.0, units - Size(levels))
    ensures remaining == 0.0 ==> BestCost(levels, side, units, cost) && LeastPrefix(levels, units, needed)
    ensures remaining == 0.0 ==> Adverse(cost, Worth(units, levels[0].price), side) >= 0.0
  {
    WalkBegins(levels, units);
    hide *;
    remaining, cost, needed := units, 0.0, 0;
    ghost var takes: seq<real> := [];
    while needed < |levels| && remaining > 0.0
      invariant needed == |takes| <= |levels| && (needed > 0 || remaining > 0.0)
      invariant Walked(levels, units, takes, remaining, cost)
    {
      var level := levels[needed];
      var take := Min(level.size, remaining);
      WalkStep(levels, side, units, takes, remaining, cost);
      cost := cost + Worth(take, level.price);
      remaining := remaining - take;
      takes := takes + [take];
      needed := needed + 1;
    }
    WalkEnds(levels, side, units, takes, remaining, cost);
  }

  // What the walk has done after taking from the first levels.
  ghost predicate Walked(levels: seq<Level>, units: real, takes: seq<real>, remaining: real, cost: real) {
    var n := |takes|;
    n <= |levels| && 0.0 <= remaining && Sum(takes) == units - remaining && Cost(levels[..n], takes) == cost
    && (forall i :: 0 <= i < n ==> 0.0 <= takes[i] <= levels[i].size)
    && (forall i :: 0 <= i < n && (i < n - 1 || remaining > 0.0) ==> takes[i] == levels[i].size)
    && remaining == Max(0.0, units - Size(levels[..n])) && forall m :: 0 <= m < n ==> Size(levels[..m]) < units
  }

  lemma WalkBegins(levels: seq<Level>, units: real)
    requires units > 0.0
    ensures Walked(levels, units, [], units, 0.0)
  {
  }

  lemma WalkStep(levels: seq<Level>, side: QuoteSide, units: real, takes: seq<real>, remaining: real, cost: real)
    requires Walked(levels, units, takes, remaining, cost) && Ladder(levels, side) && |takes| < |levels|
             && remaining > 0.0
    ensures var level := levels[|takes|];
            var take := Min(level.size, remaining);
            Walked(levels, units, takes + [take], remaining - take, cost + Worth(take, level.price))
  {
    var n := |takes|;
    var take := Min(levels[n].size, remaining);
    assert levels[n].size > 0.0;
    StepSums(levels, takes, take);
    hide Cost, Sum, Size, Worth, Ladder;
  }

  lemma StepSums(levels: seq<Level>, takes: seq<real>, take: real)
    requires |takes| < |levels|
    ensures var n := |takes|;
            Size(levels[..n + 1]) == Size(levels[..n]) + levels[n].size && Sum(takes + [take]) == Sum(takes) + take
            && Cost(levels[..n + 1], takes + [take]) == Cost(levels[..n], takes) + Worth(take, levels[n].price)
  {
    var n := |takes|;
    var more, all := levels[..n + 1], takes + [take];
    assert more[..n] == levels[..n] && all[..n] == takes && more[n] == levels[n] && all[n] == take;
    SizeEnds(more);
    CostEnds(more, all);
    hide *;
    SumEnds(all);
  }

  lemma SizeEnds(levels: seq<Level>)
    requires levels != []
    ensures Size(levels) == Size(levels[..|levels| - 1]) + levels[|levels| - 1].size
  {
  }

  lemma CostEnds(levels: seq<Level>, takes: seq<real>)
    requires levels != [] && |takes| == |levels|
    ensures var n := |levels| - 1;
            Cost(levels, takes) == Cost(levels[..n], takes[..n]) + Worth(takes[n], levels[n].price)
  {
    hide Worth;
  }

  lemma SumEnds(xs: seq<real>)
    requires xs != []
    ensures Sum(xs) == Sum(xs[..|xs| - 1]) + xs[|xs| - 1]
  {
  }

  lemma WalkEnds(levels: seq<Level>, side: QuoteSide, units: real, takes: seq<real>, remaining: real, cost: real)
    requires units > 0.0 && Ladder(levels, side) && 0 < |takes| <= |levels|
             && Walked(levels, units, takes, remaining, cost)
    requires |takes| == |levels| || remaining <= 0.0
    ensures remaining == Max(0.0, units - Size(levels))
    ensures remaining == 0.0 ==> BestCost(levels, side, units, cost) && LeastPrefix(levels, units, |takes|)
    ensures remaining == 0.0 ==> Adverse(cost, Worth(units, levels[0].price), side) >= 0.0
  {
    assert levels[..|levels|] == levels;
    SizeGrows(levels, |takes|, |levels|);
    hide Cost, Sum, Size, Worth, BestCost;
    if remaining == 0.0 { WalkedIsBest(levels, side, takes, |takes|, units, cost); }
  }

  lemma WalkedIsBest(levels: seq<Level>, side: QuoteSide, takes: seq<real>, n: nat, units: real, cost: real)
    requires Ladder(levels, side) && 0 < n == |takes| <= |levels| && Sum(takes) == units
             && Cost(levels[..n], takes) == cost
    requires forall i :: 0 <= i < n ==> 0.0 <= takes[i] <= levels[i].size
    requires forall i :: 0 <= i < n - 1 ==> takes[i] == levels[i].size
    ensures BestCost(levels, side, units, cost) && Adverse(cost, Worth(units, levels[0].price), side) >= 0.0
  {
    var all := takes + seq(|levels| - n, i => 0.0);
    AllFills(levels, takes, n, all);
    hide Cost, Sum, Worth;
    assert Fills(levels, units, all) && Cost(levels, all) == cost;
    assert Greedy(levels, all, n);
    hide Greedy;
    forall others | Fills(levels, units, others) ensures Adverse(Cost(levels, others), cost, side) >= 0.0 {
      WalkIsBest(levels, all, others, n, side);
    }
    NeverBelowBest(levels, all, side, |levels|);
    assert all[..|levels|] == all && levels[..|levels|] == levels;
  }

  lemma AllFills(levels: seq<Level>, takes: seq<real>, n: nat, all: seq<real>)
    requires 0 < n == |takes| <= |levels| && all == takes + seq(|levels| - n, i => 0.0)
    requires forall i :: 0 <= i < |levels| ==> levels[i].size > 0.0
    requires forall i :: 0 <= i < n ==> 0.0 <= takes[i] <= levels[i].size
    ensures Fills(levels, Sum(takes), all) && Cost(levels, all) == Cost(levels[..n], takes)
  {
    assert all[..n] == takes && all[..|levels|] == all && levels[..|levels|] == levels;
    ZerosAdd(levels, all, n, |levels|);
    forall i | 0 <= i < |levels| ensures 0.0 <= all[i] <= levels[i].size {
      if i < n { assert all[i] == takes[i]; }
    }
    hide Cost, Sum;
  }

  lemma WalkGap(walk: real, cost: real, units: real, best: real, side: QuoteSide)
    requires units > 0.0 && Worth(units, walk) == cost && Adverse(cost, Worth(units, best), side) >= 0.0
    ensures Adverse(walk, best, side) >= 0.0
  {
    if side.Ask? { assert (walk - best) * units >= 0.0; } else { assert (best - walk) * units >= 0.0; }
  }

  method ViewBook(books: seq<BookPoint>, at: int, side: QuoteSide, units: real) returns (v: Option<View>)
    requires units > 0.0 && BooksOk(books)
    ensures Viewed(v, books, at, side, units)
  {
    var index := BisectRight(books, Available, at);
    if index == 0 || at - books[index - 1].source > MAX_AGE { return None; }
    var book := books[index - 1];
    var levels := Levels(book, side);
    if levels == [] { return None; }
    assert Ladder(levels, side);
    hide BisectRight, Ladder, BestCost, LeastPrefix, BooksOk, Size, Worth;
    var remaining, cost, needed := WalkLadder(levels, side, units);
    if remaining <= 0.0 {
      var walk := cost / units;
      Average(cost, units);
      WalkGap(walk, cost, units, levels[0].price, side);
      v := Some(View(book.source, Size(levels), Some(needed), Some(walk), Some(Adverse(walk, levels[0].price, side)),
                     0.0));
    } else {
      v := Some(View(book.source, Size(levels), None, None, None, remaining));
    }
  }

  // ------------------------------------------------------------------- meaning

  // Main result: where the ladder is deep enough, the quoted walk price is the
  // best average any allocation of the units can reach.
  lemma WalkPriceIsBest(v: View, books: seq<BookPoint>, at: int, side: QuoteSide, units: real, takes: seq<real>)
    requires units > 0.0 && Viewed(Some(v), books, at, side, units) && v.walk.Some?
    requires Fills(Levels(books[BisectRight(books, Available, at) - 1], side), units, takes)
    ensures Adverse(Cost(Levels(books[BisectRight(books, Available, at) - 1], side), takes) / units, v.walk.value,
                    side) >= 0.0
  {
    var levels := Levels(books[BisectRight(books, Available, at) - 1], side);
    assert BestCost(levels, side, units, Worth(units, v.walk.value)) by {
      hide Cost, Fills, LeastPrefix, Size, BisectRight, BestCost, Worth, Adverse;
    }
    hide Viewed, Cost, Size, BisectRight, Worth;
    assert Adverse(Cost(levels, takes), Worth(units, v.walk.value), side) >= 0.0;
    hide Fills, BestCost;
    Average(Cost(levels, takes), units);
    WalkGap(Cost(levels, takes) / units, Cost(levels, takes), units, v.walk.value, side);
  }

  lemma Average(cost: real, units: real)
    requires units > 0.0
    ensures Worth(units, cost / units) == cost
  {
  }
}
