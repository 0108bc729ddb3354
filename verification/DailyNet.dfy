// The daily view: one calendar day of closed deals, split by bot release.
module DailyNet {
  import opened Common
  import opened Scorecard
  import opened Sorting

  // A release name is represented by its rank in the sorted order of names.
  datatype Entry = Entry(release: int, deal: Deal)

  datatype ReleaseNet = ReleaseNet(release: int, tally: Tally)

  datatype Daily = Daily(checkedAt: int, totals: Row, releases: seq<ReleaseNet>) | NoDaily(error: Error)

  function Deals(rows: seq<Entry>): seq<Deal> { seq(|rows|, i requires 0 <= i < |rows| => rows[i].deal) }

  // The day's deals of one release, in arrival order.
  function Of(rows: seq<Entry>, start: int, now: int, release: int): seq<Deal> {
    if rows == [] then []
    else
      var e := rows[|rows| - 1];
      Of(rows[..|rows| - 1], start, now, release)
      + (if e.release == release && Counts(e.deal, start, now) then [e.deal] else [])
  }

  function ByRelease(rows: seq<Entry>, start: int, now: int, names: seq<int>): seq<ReleaseNet> {
    seq(|names|, i requires 0 <= i < |names| => ReleaseNet(names[i], Total(Of(rows, start, now, names[i]))))
  }

  // Names in order, exactly those with a deal that counts.
  ghost predicate Named(rows: seq<Entry>, start: int, now: int, names: seq<int>) {
    Increasing(names) && forall r :: Has(names, r) <==> Of(rows, start, now, r) != []
  }

  ghost predicate DaySummarized(d: Daily, rows: seq<Entry>, now: int) {
    var start := DayStart(DayOf(now));
    if |rows| > MAX_DEALS then d == NoDaily(DealLimit)
    else if exists i :: 0 <= i < |rows| && FromTheFuture(rows[i].deal, now) then d == NoDaily(FutureBrokerClock)
    else
      d.Daily? && d.checkedAt == now
      && d.totals == RowFor(Eligible(Deals(rows), start, now), DayOf(now), start, now)
      && exists names :: Named(rows, start, now, names) && d.releases == ByRelease(rows, start, now, names)
  }

  function DealsAt(m: map<int, seq<Deal>>, r: int): seq<Deal> { if r in m then m[r] else [] }

  lemma OfGrows(rows: seq<Entry>, i: nat, start: int, now: int)
    requires i < |rows|
    ensures forall r :: Of(rows[..i + 1], start, now, r)
                        == Of(rows[..i], start, now, r)
                           + (if rows[i].release == r && Counts(rows[i].deal, start, now) then [rows[i].deal] else [])
  {
    assert rows[..i + 1][..i] == rows[..i];
  }

  // One more entry that counts: its name is there, new or not.
  lemma NamedGrows(rows: seq<Entry>, i: nat, start: int, now: int, before: seq<int>, names: seq<int>)
    requires i < |rows| && Named(rows[..i], start, now, before)
    requires if !Counts(rows[i].deal, start, now) || Of(rows[..i], start, now, rows[i].release) != []
             then names == before
             else Increasing(names) && forall x :: Has(names, x) <==> x == rows[i].release || Has(before, x)
    ensures Named(rows[..i + 1], start, now, names)
  {
    OfGrows(rows, i, start, now);
    hide Of, Increasing, Has;
    forall r ensures Has(names, r) <==> Of(rows[..i + 1], start, now, r) != [] {
      assert Has(before, r) <==> Of(rows[..i], start, now, r) != [];
    }
  }

  ghost predicate Grouped(rows: seq<Entry>, start: int, now: int, eligible: map<int, seq<Deal>>) {
    forall r :: DealsAt(eligible, r) == Of(rows, start, now, r)
  }

  lemma GroupedGrows(
      rows: seq<Entry>, i: nat, start: int, now: int, was: map<int, seq<Deal>>, eligible: map<int, seq<Deal>>)
    requires i < |rows| && Grouped(rows[..i], start, now, was)
    requires eligible == if Counts(rows[i].deal, start, now)
                         then was[rows[i].release := DealsAt(was, rows[i].release) + [rows[i].deal]] else was
    ensures Grouped(rows[..i + 1], start, now, eligible)
  {
    OfGrows(rows, i, start, now);
    hide Of;
    forall r ensures DealsAt(eligible, r) == Of(rows[..i + 1], start, now, r) {
      assert DealsAt(was, r) == Of(rows[..i], start, now, r);
    }
  }

  method Group(rows: seq<Entry>, start: int, now: int) returns (names: seq<int>, eligible: map<int, seq<Deal>>)
    ensures Named(rows, start, now, names) && forall r :: DealsAt(eligible, r) == Of(rows, start, now, r)
  {
    hide Of, Increasing, Has;
    names, eligible := [], map[];
    NoneGrouped(start, now);
    assert rows[..0] == [];
    for i := 0 to |rows|
      invariant Named(rows[..i], start, now, names) && Grouped(rows[..i], start, now, eligible)
    {
      var e := rows[i];
      ghost var was, before := eligible, names;
      assert DealsAt(was, e.release) == Of(rows[..i], start, now, e.release);
      if start <= e.deal.occurred < now && e.deal.recorded <= now {
        if DealsAt(eligible, e.release) == [] {
          assert Increasing(names) && !Has(names, e.release);
          InsertNew(names, e.release);
          names := Insert(names, e.release, Itself);
        }
        eligible := eligible[e.release := DealsAt(eligible, e.release) + [e.deal]];
      }
      NamedGrows(rows, i, start, now, before, names);
      GroupedGrows(rows, i, start, now, was, eligible);
    }
    assert rows[..|rows|] == rows;
  }

  lemma NoneGrouped(start: int, now: int)
    ensures Named([], start, now, []) && Grouped([], start, now, map[])
  {
  }

  method SummarizeDay(rows: seq<Entry>, now: int) returns (d: Daily)
    ensures DaySummarized(d, rows, now)
  {
    hide *;
    var start := DayStart(DayOf(now));
    var deals := seq(|rows|, i requires 0 <= i < |rows| => rows[i].deal);
    assert deals == Deals(rows) by { DealsAre(rows); }
    var c := Summarize(deals, start, now, 0);
    OneDay(c, rows, now);
    if c.Refused? { return NoDaily(c.error); }
    var names, eligible := Group(rows, start, now);
    var releases := [];
    for k := 0 to |names|
      invariant releases == PartByRelease(rows, start, now, names, k)
    {
      PartGrows(rows, start, now, names, k);
      releases := releases + [ReleaseNet(names[k], Total(DealsAt(eligible, names[k])))];
    }
    d := Daily(now, c.days[0], releases);
    Assembled(d, rows, now, names);
  }

  function PartByRelease(rows: seq<Entry>, start: int, now: int, names: seq<int>, k: nat): seq<ReleaseNet>
    requires k <= |names|
    ensures k == 0 ==> PartByRelease(rows, start, now, names, k) == []
  {
    ByRelease(rows, start, now, names)[..k]
  }

  lemma PartGrows(rows: seq<Entry>, start: int, now: int, names: seq<int>, k: nat)
    requires k < |names|
    ensures PartByRelease(rows, start, now, names, k + 1)
            == PartByRelease(rows, start, now, names, k) + [ReleaseNet(names[k], Total(Of(rows, start, now, names[k])))]
  {
    hide Of, Total;
  }

  lemma DealsAre(rows: seq<Entry>)
    ensures Deals(rows) == seq(|rows|, i requires 0 <= i < |rows| => rows[i].deal)
  {
  }

  lemma Assembled(d: Daily, rows: seq<Entry>, now: int, names: seq<int>)
    requires d.Daily? && d.checkedAt == now && |rows| <= MAX_DEALS
    requires !exists i :: 0 <= i < |rows| && FromTheFuture(rows[i].deal, now)
    requires d.totals == RowFor(Eligible(Deals(rows), DayStart(DayOf(now)), now), DayOf(now), DayStart(DayOf(now)), now)
    requires Named(rows, DayStart(DayOf(now)), now, names)
    requires d.releases == PartByRelease(rows, DayStart(DayOf(now)), now, names, |names|)
    ensures DaySummarized(d, rows, now)
  {
    hide Of, Total, Named, RowFor, Eligible, DayOf, DayStart;
  }

  // Begun at midnight the card has the one day.
  lemma OneDay(c: Card, rows: seq<Entry>, now: int)
    requires Summarized(c, Deals(rows), DayStart(DayOf(now)), now, 0)
    ensures c.Refused? ==> DaySummarized(NoDaily(c.error), rows, now)
    ensures c.Card? ==> |rows| <= MAX_DEALS && !(exists i :: 0 <= i < |rows| && FromTheFuture(rows[i].deal, now))
    ensures c.Card? ==>
              |c.days| == 1
              && c.days[0]
                 == RowFor(Eligible(Deals(rows), DayStart(DayOf(now)), now), DayOf(now), DayStart(DayOf(now)), now)
  {
    FutureAgrees(rows, now);
    DayOfOrdered(now, now);
    DayStartIsInDay(DayOf(now));
    assert Lower(DayStart(DayOf(now)), now) == DayStart(DayOf(now));
    hide RowFor, Eligible, IsDrawdown, Total, SignsOf, FromTheFuture, Lower, DayStart, DayOf;
  }

  lemma DayStartIsInDay(day: int)
    ensures DayOf(DayStart(day)) == day
  {
  }

  lemma FutureAgrees(rows: seq<Entry>, now: int)
    ensures (exists i :: 0 <= i < |rows| && FromTheFuture(rows[i].deal, now))
            <==> exists i :: 0 <= i < |Deals(rows)| && FromTheFuture(Deals(rows)[i], now)
  {
    assert forall i :: 0 <= i < |rows| ==> Deals(rows)[i] == rows[i].deal;
  }

  // ----------------------------------------------------------- the split agrees

  function SumReleases(rs: seq<ReleaseNet>): Tally {
    if rs == [] then NOTHING else SumReleases(rs[..|rs| - 1]).Plus(rs[|rs| - 1].tally)
  }

  // What the names account for, one entry at a time.
  function Covered(rows: seq<Entry>, start: int, now: int, names: seq<int>): Tally {
    if rows == [] then NOTHING
    else
      var e := rows[|rows| - 1];
      Covered(rows[..|rows| - 1], start, now, names).Plus(
        if Counts(e.deal, start, now) && Has(names, e.release) then One(e.deal) else NOTHING)
  }

  lemma {:induction false} CoveredByNone(rows: seq<Entry>, start: int, now: int)
    ensures Covered(rows, start, now, []) == NOTHING
  {
    if rows != [] { CoveredByNone(rows[..|rows| - 1], start, now); }
  }

  lemma {:induction false} CoveredByOneMore(rows: seq<Entry>, start: int, now: int, names: seq<int>, name: int)
    requires !Has(names, name)
    ensures Covered(rows, start, now, names + [name])
            == Covered(rows, start, now, names).Plus(Total(Of(rows, start, now, name)))
  {
    if rows != [] {
      var front, e := rows[..|rows| - 1], rows[|rows| - 1];
      CoveredByOneMore(front, start, now, names, name);
      HasOneMore(names, name, e.release);
      var kept := Of(front, start, now, name);
      assert (kept + [e.deal])[..|kept|] == kept && kept + [] == kept;
      assert Total(kept + [e.deal]) == Total(kept).Plus(One(e.deal));
      hide Total, Of, Has;
    }
  }

  lemma HasOneMore(names: seq<int>, name: int, x: int)
    ensures Has(names + [name], x) <==> Has(names, x) || x == name
  {
    assert (names + [name])[|names|] == name;
    if Has(names, x) {
      var k :| 0 <= k < |names| && names[k] == x;
      assert (names + [name])[k] == x;
    }
  }

  lemma {:induction false} ReleasesSum(rows: seq<Entry>, start: int, now: int, names: seq<int>)
    requires Increasing(names)
    ensures SumReleases(ByRelease(rows, start, now, names)) == Covered(rows, start, now, names)
  {
    hide Covered, Of, Total, Has;
    var rs := ByRelease(rows, start, now, names);
    if names == [] {
      CoveredByNone(rows, start, now);
    } else {
      var front, name := names[..|names| - 1], names[|names| - 1];
      ReleasesSum(rows, start, now, front);
      assert rs[..|rs| - 1] == ByRelease(rows, start, now, front);
      LastIsNew(names);
      CoveredByOneMore(rows, start, now, front, name);
      assert names == front + [name];
    }
  }

  lemma LastIsNew(names: seq<int>)
    requires Increasing(names) && names != []
    ensures !Has(names[..|names| - 1], names[|names| - 1])
  {
  }

  lemma {:induction false} AllCovered(rows: seq<Entry>, start: int, now: int, names: seq<int>)
    requires forall i :: 0 <= i < |rows| && Counts(rows[i].deal, start, now) ==> Has(names, rows[i].release)
    ensures Covered(rows, start, now, names) == Total(Eligible(Deals(rows), start, now))
  {
    if rows != [] {
      var front, e := rows[..|rows| - 1], rows[|rows| - 1];
      AllCovered(front, start, now, names);
      EligibleGrows(rows, start, now);
      hide Eligible, Has, Deals, Total;
    }
  }

  lemma EligibleGrows(rows: seq<Entry>, start: int, now: int)
    requires rows != []
    ensures var front, e := rows[..|rows| - 1], rows[|rows| - 1];
            Total(Eligible(Deals(rows), start, now))
            == Total(Eligible(Deals(front), start, now))
               .Plus(if Counts(e.deal, start, now) then One(e.deal) else NOTHING)
  {
    var front, e := rows[..|rows| - 1], rows[|rows| - 1];
    assert Deals(rows)[..|rows| - 1] == Deals(front);
    var kept := Eligible(Deals(front), start, now);
    assert (kept + [e.deal])[..|kept|] == kept && kept + [] == kept;
  }

  lemma {:induction false} CountsIsNamed(rows: seq<Entry>, start: int, now: int, i: nat)
    requires i < |rows| && Counts(rows[i].deal, start, now)
    ensures Of(rows, start, now, rows[i].release) != []
  {
    if i < |rows| - 1 { CountsIsNamed(rows[..|rows| - 1], start, now, i); }
  }

  // Main result: the releases' figures add up to the day's figures, and each
  // release with a deal that counts appears exactly once.
  lemma SplitAgrees(d: Daily, rows: seq<Entry>, now: int)
    requires DaySummarized(d, rows, now) && d.Daily?
    ensures SumReleases(d.releases) == d.totals.tally == Total(Eligible(Deals(rows), DayStart(DayOf(now)), now))
    ensures forall i, j :: 0 <= i < j < |d.releases| ==> d.releases[i].release < d.releases[j].release
    ensures d.totals.day == DayOf(now) && d.totals.since == DayStart(DayOf(now)) && d.totals.until == now
  {
    var start := DayStart(DayOf(now));
    DayOfOrdered(now, now);
    var ds := Eligible(Deals(rows), start, now);
    EligibleCounts(Deals(rows), start, now);
    FiguresAreTotals(ds, start, now);
    FiguresAll(ds, start, now);
    hide Of, Total, Within, Eligible, Figures, CountIf, Worst;
    var names :| Named(rows, start, now, names) && d.releases == ByRelease(rows, start, now, names);
    forall i | 0 <= i < |rows| && Counts(rows[i].deal, start, now) ensures Has(names, rows[i].release) {
      CountsIsNamed(rows, start, now, i);
    }
    AllCovered(rows, start, now, names);
    ReleasesSum(rows, start, now, names);
  }
}
