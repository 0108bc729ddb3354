// Merging sealed quote segments into one tape.  The loops fill two maps in
// arrival order; the result is a normal form that no order and no extra sealed
// copy can change.
module TapeMerge {
  import opened Common
  import opened Sorting
  import opened StreamingBars

  const LEAD := 3_000

  datatype Row = Row(
    at: int, source: int, received: int, bid: real, ask: real, complete: bool, discontinuity: bool, contractOk: bool)

  // `rows` stands for the bytes and for their digest.
  datatype Segment = Segment(
    name: string, hasManifest: bool, start: int, end: int, count: int, checksumOk: bool, rows: seq<Row>)

  datatype Identity = Identity(start: int, end: int, count: int)

  datatype Window = Window(start: int, end: int) {
    predicate Holds(at: int) { start - LEAD <= at < end }
    predicate Considers(s: Segment) { s.hasManifest && !(s.end < start - LEAD || s.start >= end) }
  }

  // An observation inside the window and whether it may stand on its own.
  datatype Item = Item(quote: Quote, source: int, ok: bool)

  datatype Tick = Tick(quote: Quote, source: int)

  datatype Tape = Tape(ticks: seq<Tick>, invalid: seq<int>)

  datatype Reason =
    | ChecksumMismatch | IdentityConflict | ManifestConflict | TimeInvalid | ContractInvalid | CountMismatch

  datatype Load = Loaded(tape: Tape) | Failed(reason: Reason)

  function IdentityOf(s: Segment): Identity { Identity(s.start, s.end, s.count) }

  // -------------------------------------------------------- one segment's rows

  function LastSource(rows: seq<Row>, w: Window): int {
    if rows == [] then -1
    else
      var r := rows[|rows| - 1];
      if w.Holds(r.at) then MaxInt(LastSource(rows[..|rows| - 1], w), r.source) else LastSource(rows[..|rows| - 1], w)
  }

  predicate RowOk(r: Row, lastSource: int) {
    r.source >= lastSource && r.source <= r.received <= r.at && 0 <= r.at - r.source <= 3_000
    && r.bid < r.ask && r.complete && !r.discontinuity
  }

  function ItemOf(r: Row, lastSource: int): Item {
    Item(Quote(r.at, r.bid, r.ask), r.source, RowOk(r, lastSource))
  }

  function ItemsOf(rows: seq<Row>, w: Window): seq<Item> {
    if rows == [] then []
    else
      var front, r := rows[..|rows| - 1], rows[|rows| - 1];
      ItemsOf(front, w) + (if w.Holds(r.at) then [ItemOf(r, LastSource(front, w))] else [])
  }

  // Times that never go back and stay in the declared range.
  predicate RowsConform(rows: seq<Row>, lo: int, hi: int, w: Window) {
    rows == [] ||
    (var front, r := rows[..|rows| - 1], rows[|rows| - 1];
     RowsConform(front, lo, hi, w) && r.at >= (if front == [] then -1 else front[|front| - 1].at)
     && lo <= r.at <= hi && (w.Holds(r.at) ==> r.contractOk))
  }

  predicate Conforms(s: Segment, w: Window) {
    s.checksumOk && RowsConform(s.rows, s.start, s.end, w) && s.count == |s.rows|
  }

  // ---------------------------------------------------------- all the segments

  // The segments agree with themselves and with each other.
  ghost predicate Consistent(segments: seq<Segment>, w: Window) {
    (forall i :: 0 <= i < |segments| && w.Considers(segments[i]) ==> Conforms(segments[i], w))
    && forall i, j :: 0 <= i < j < |segments| && w.Considers(segments[i]) && w.Considers(segments[j]) ==>
         (segments[i].name == segments[j].name ==> segments[i].rows == segments[j].rows)
         && (segments[i].rows == segments[j].rows ==> IdentityOf(segments[i]) == IdentityOf(segments[j]))
  }

  ghost function Contents(segments: seq<Segment>, w: Window): set<seq<Row>> {
    set i | 0 <= i < |segments| && w.Considers(segments[i]) :: segments[i].rows
  }

  // Every distinct content once, at its first appearance.
  ghost function AllItems(segments: seq<Segment>, w: Window): seq<Item> {
    if segments == [] then []
    else
      var front, s := segments[..|segments| - 1], segments[|segments| - 1];
      AllItems(front, w) + (if w.Considers(s) && s.rows !in Contents(front, w) then ItemsOf(s.rows, w) else [])
  }

  datatype Pool = Pool(quotes: map<int, Tick>, invalid: set<int>)

  function Put(p: Pool, x: Item): Pool {
    var at := x.quote.time;
    if !x.ok || at in p.quotes || at in p.invalid
    then Pool(map t | t in p.quotes && t != at :: p.quotes[t], p.invalid + {at})
    else Pool(p.quotes[at := Tick(x.quote, x.source)], p.invalid)
  }

  function Pooled(items: seq<Item>): Pool {
    if items == [] then Pool(map[], {}) else Put(Pooled(items[..|items| - 1]), items[|items| - 1])
  }

  // The pass over the ordered quotes that rejects a source clock going back.
  datatype Pass = Pass(ticks: seq<Tick>, rejected: set<int>, last: int)

  function PassOver(quotes: map<int, Tick>, keys: seq<int>): Pass
    requires forall i :: 0 <= i < |keys| ==> keys[i] in quotes
  {
    if keys == [] then Pass([], {}, -1)
    else
      var front, tick := PassOver(quotes, keys[..|keys| - 1]), quotes[keys[|keys| - 1]];
      if tick.source < front.last
      then front.(rejected := front.rejected + {tick.quote.time}, last := MaxInt(front.last, tick.source))
      else front.(ticks := front.ticks + [tick], last := MaxInt(front.last, tick.source))
  }

  function Finish(p: Pool): Tape {
    var pass := PassOver(p.quotes, Sorted(p.quotes.Keys));
    Tape(pass.ticks, Sorted(p.invalid + pass.rejected))
  }

  // ---------------------------------------------------------------- the loops

  lemma RowStep(s: Segment, w: Window, j: nat, items: seq<Item>)
    requires j < |s.rows|
    ensures var row, front := s.rows[j], s.rows[..j];
            (RowsConform(s.rows[..j + 1], s.start, s.end, w) <==>
               RowsConform(front, s.start, s.end, w) && row.at >= (if j == 0 then -1 else s.rows[j - 1].at)
               && s.start <= row.at <= s.end && (w.Holds(row.at) ==> row.contractOk))
            && LastSource(s.rows[..j + 1], w)
               == (if w.Holds(row.at) then MaxInt(LastSource(front, w), row.source) else LastSource(front, w))
            && Pooled(items + ItemsOf(s.rows[..j + 1], w))
               == (if w.Holds(row.at) then Put(Pooled(items + ItemsOf(front, w)), ItemOf(row, LastSource(front, w)))
                   else Pooled(items + ItemsOf(front, w)))
  {
    var row, front, grown := s.rows[j], s.rows[..j], s.rows[..j + 1];
    assert grown[..j] == front && grown[j] == row && forall k :: 0 <= k < j ==> grown[k] == front[k] == s.rows[k];
    var sofar, next := items + ItemsOf(front, w), ItemOf(row, LastSource(front, w));
    if w.Holds(row.at) {
      assert items + ItemsOf(grown, w) == sofar + [next] && (sofar + [next])[..|sofar|] == sofar;
    } else {
      assert items + ItemsOf(grown, w) == sofar;
    }
  }

  lemma {:induction false} ConformsPrefix(rows: seq<Row>, lo: int, hi: int, w: Window, j: nat)
    requires j <= |rows| && RowsConform(rows, lo, hi, w)
    ensures RowsConform(rows[..j], lo, hi, w)
  {
    if j < |rows| {
      ConformsPrefix(rows[..|rows| - 1], lo, hi, w, j);
      assert rows[..|rows| - 1][..j] == rows[..j];
    } else {
      assert rows[..j] == rows;
    }
  }

  // Reads one segment's rows into the pool.
  method ReadRows(
      s: Segment, w: Window, before: Pool, ghost items: seq<Item>) returns (pool: Pool, failure: Option<Reason>)
    requires before == Pooled(items)
    ensures failure.None? <==> RowsConform(s.rows, s.start, s.end, w) && s.count == |s.rows|
    ensures failure.None? ==> pool == Pooled(items + ItemsOf(s.rows, w))
  {
    hide Pooled, RowOk, RowsConform;
    pool := before;
    var previous, lastSource, j := -1, -1, 0;
    assert s.rows[..0] == [] && items + [] == items;
    ConformsEmpty(s, w);
    while j < |s.rows|
      invariant 0 <= j <= |s.rows| && RowsConform(s.rows[..j], s.start, s.end, w)
      invariant previous == (if j == 0 then -1 else s.rows[j - 1].at)
      invariant lastSource == LastSource(s.rows[..j], w)
      invariant pool == Pooled(items + ItemsOf(s.rows[..j], w))
    {
      hide ItemsOf, LastSource;
      var row := s.rows[j];
      RowStep(s, w, j, items);
      if RowsConform(s.rows, s.start, s.end, w) { ConformsPrefix(s.rows, s.start, s.end, w, j + 1); }
      if row.at < previous || !(s.start <= row.at <= s.end) { return pool, Some(TimeInvalid); }
      previous := row.at;
      if w.Holds(row.at) {
        if !row.contractOk { return pool, Some(ContractInvalid); }
        if !RowOk(row, lastSource) || row.at in pool.quotes || row.at in pool.invalid {
          pool := Pool(map t | t in pool.quotes && t != row.at :: pool.quotes[t], pool.invalid + {row.at});
        } else {
          pool := Pool(pool.quotes[row.at := Tick(Quote(row.at, row.bid, row.ask), row.source)], pool.invalid);
        }
        lastSource := MaxInt(lastSource, row.source);
      }
      j := j + 1;
    }
    assert s.rows[..j] == s.rows;
    failure := if s.count != |s.rows| then Some(CountMismatch) else None;
  }

  lemma ConformsEmpty(s: Segment, w: Window)
    ensures RowsConform([], s.start, s.end, w)
  {
  }

  lemma PassStep(quotes: map<int, Tick>, keys: seq<int>, k: nat)
    requires (forall i :: 0 <= i < |keys| ==> keys[i] in quotes) && k < |keys|
    ensures var front, tick := PassOver(quotes, keys[..k]), quotes[keys[k]];
            PassOver(quotes, keys[..k + 1]) ==
            if tick.source < front.last
            then front.(rejected := front.rejected + {tick.quote.time}, last := MaxInt(front.last, tick.source))
            else front.(ticks := front.ticks + [tick], last := MaxInt(front.last, tick.source))
  {
    assert keys[..k + 1][..k] == keys[..k];
  }

  // Drops the quotes whose source clock runs behind an earlier quote's.
  method RejectRegressions(quotes: map<int, Tick>) returns (ticks: seq<Tick>, rejected: set<int>)
    ensures var pass := PassOver(quotes, Sorted(quotes.Keys)); ticks == pass.ticks && rejected == pass.rejected
  {
    hide Sorted;
    var keys := Sorted(quotes.Keys);
    var last, k := -1, 0;
    ticks, rejected := [], {};
    assert keys[..|keys|] == keys && PassOver(quotes, keys[..0]) == Pass([], {}, -1);
    while k < |keys|
      invariant 0 <= k <= |keys|
      invariant PassOver(quotes, keys[..k]) == Pass(ticks, rejected, last)
    {
      hide PassOver;
      PassStep(quotes, keys, k);
      var tick := quotes[keys[k]];
      if tick.source < last {
        rejected := rejected + {tick.quote.time};
      } else {
        ticks := ticks + [tick];
      }
      last := MaxInt(last, tick.source);
      k := k + 1;
    }
  }

  ghost predicate NamedBy(before: seq<Segment>, w: Window, n: string, c: seq<Row>) {
    exists k :: 0 <= k < |before| && w.Considers(before[k]) && before[k].name == n && before[k].rows == c
  }

  ghost predicate SealedBy(before: seq<Segment>, w: Window, c: seq<Row>, id: Identity) {
    exists k :: 0 <= k < |before| && w.Considers(before[k]) && before[k].rows == c && IdentityOf(before[k]) == id
  }

  // The two dictionaries index the segments considered so far.
  ghost predicate Indexed(
    before: seq<Segment>, w: Window, names: map<string, seq<Row>>, seals: map<seq<Row>, Identity>)
  {
    (forall k :: 0 <= k < |before| && w.Considers(before[k]) ==>
       before[k].rows in seals && seals[before[k].rows] == IdentityOf(before[k])
       && before[k].name in names && names[before[k].name] == before[k].rows)
    && (forall n :: n in names ==> NamedBy(before, w, n, names[n]))
    && (forall c :: c in seals ==> SealedBy(before, w, c, seals[c]))
  }

  ghost predicate NameAgrees(before: seq<Segment>, s: Segment, w: Window) {
    forall k :: 0 <= k < |before| && w.Considers(before[k]) && before[k].name == s.name ==> before[k].rows == s.rows
  }

  ghost predicate SealAgrees(before: seq<Segment>, s: Segment, w: Window) {
    forall k :: 0 <= k < |before| && w.Considers(before[k]) && before[k].rows == s.rows ==>
      IdentityOf(before[k]) == IdentityOf(s)
  }

  ghost predicate Agrees(before: seq<Segment>, s: Segment, w: Window) {
    NameAgrees(before, s, w) && SealAgrees(before, s, w)
  }

  lemma ConsistentExtends(before: seq<Segment>, s: Segment, w: Window)
    ensures Consistent(before + [s], w) <==>
            Consistent(before, w) && (w.Considers(s) ==> Conforms(s, w) && Agrees(before, s, w))
  {
    var after := before + [s];
    assert after[|before|] == s && forall k :: 0 <= k < |before| ==> after[k] == before[k];
    if Consistent(after, w) {
      forall i, j | 0 <= i < j < |before| && w.Considers(before[i]) && w.Considers(before[j])
        ensures (before[i].name == before[j].name ==> before[i].rows == before[j].rows)
                && (before[i].rows == before[j].rows ==> IdentityOf(before[i]) == IdentityOf(before[j]))
      {
        assert after[i] == before[i] && after[j] == before[j];
      }
      forall k | 0 <= k < |before| && w.Considers(before[k])
        ensures Conforms(before[k], w)
      {
        assert after[k] == before[k];
      }
    }
  }

  lemma ConsistentPrefix(segments: seq<Segment>, i: nat, w: Window)
    requires i <= |segments| && Consistent(segments, w)
    ensures Consistent(segments[..i], w)
  {
  }

  // What the dictionaries say about the next segment.
  lemma NextSegment(
    before: seq<Segment>, s: Segment, w: Window, names: map<string, seq<Row>>, seals: map<seq<Row>, Identity>)
    requires Indexed(before, w, names, seals) && Consistent(before, w) && w.Considers(s)
    ensures Agrees(before, s, w) <==>
            (s.name in names ==> names[s.name] == s.rows) && (s.rows in seals ==> seals[s.rows] == IdentityOf(s))
    ensures s.rows in seals <==> s.rows in Contents(before, w)
    ensures s.rows in seals && seals[s.rows] == IdentityOf(s) && s.checksumOk ==> Conforms(s, w)
  {
    NextName(before, s, w, names, seals);
    NextSeal(before, s, w, names, seals);
    if s.rows in seals { SealedConforms(before, s, w, names, seals); }
    hide Conforms, NameAgrees, SealAgrees, Indexed, Consistent, Contents;
  }

  lemma NextName(
    before: seq<Segment>, s: Segment, w: Window, names: map<string, seq<Row>>, seals: map<seq<Row>, Identity>)
    requires Indexed(before, w, names, seals)
    ensures NameAgrees(before, s, w) <==> (s.name in names ==> names[s.name] == s.rows)
  {
    if s.name in names { assert NamedBy(before, w, s.name, names[s.name]); }
  }

  lemma NextSeal(
    before: seq<Segment>, s: Segment, w: Window, names: map<string, seq<Row>>, seals: map<seq<Row>, Identity>)
    requires Indexed(before, w, names, seals)
    ensures SealAgrees(before, s, w) <==> (s.rows in seals ==> seals[s.rows] == IdentityOf(s))
    ensures s.rows in seals <==> s.rows in Contents(before, w)
  {
    hide NamedBy;
    if s.rows in seals {
      assert SealedBy(before, w, s.rows, seals[s.rows]);
      var k :| 0 <= k < |before| && w.Considers(before[k]) && before[k].rows == s.rows
               && IdentityOf(before[k]) == seals[s.rows];
      assert before[k].rows in Contents(before, w);
    }
  }

  // Equal contents under an equal manifest conform alike.
  lemma SealedConforms(
    before: seq<Segment>, s: Segment, w: Window, names: map<string, seq<Row>>, seals: map<seq<Row>, Identity>)
    requires Indexed(before, w, names, seals) && Consistent(before, w) && s.rows in seals
    ensures seals[s.rows] == IdentityOf(s) && s.checksumOk ==> Conforms(s, w)
  {
    hide RowsConform;
    assert SealedBy(before, w, s.rows, seals[s.rows]);
    var k :| 0 <= k < |before| && w.Considers(before[k]) && before[k].rows == s.rows
             && IdentityOf(before[k]) == seals[s.rows];
    assert Conforms(before[k], w);
  }

  lemma IndexGrows(before: seq<Segment>, s: Segment, w: Window)
    ensures forall n, c :: NamedBy(before, w, n, c) ==> NamedBy(before + [s], w, n, c)
    ensures forall c, id :: SealedBy(before, w, c, id) ==> SealedBy(before + [s], w, c, id)
    ensures w.Considers(s)
            ==> NamedBy(before + [s], w, s.name, s.rows) && SealedBy(before + [s], w, s.rows, IdentityOf(s))
  {
    var after := before + [s];
    assert after[|before|] == s;
    forall n, c | NamedBy(before, w, n, c) ensures NamedBy(after, w, n, c) {
      var k :| 0 <= k < |before| && w.Considers(before[k]) && before[k].name == n && before[k].rows == c;
      assert after[k] == before[k];
    }
    forall c, id | SealedBy(before, w, c, id) ensures SealedBy(after, w, c, id) {
      var k :| 0 <= k < |before| && w.Considers(before[k]) && before[k].rows == c && IdentityOf(before[k]) == id;
      assert after[k] == before[k];
    }
  }

  lemma IndexedExtends(
    before: seq<Segment>, s: Segment, w: Window, names: map<string, seq<Row>>, seals: map<seq<Row>, Identity>)
    requires Indexed(before, w, names, seals)
    ensures !w.Considers(s) ==> Indexed(before + [s], w, names, seals)
    ensures w.Considers(s) && Agrees(before, s, w) ==>
              Indexed(before + [s], w, names[s.name := s.rows], seals[s.rows := IdentityOf(s)])
  {
    IndexGrows(before, s, w);
    hide NamedBy, SealedBy;
    var after := before + [s];
    assert after[|before|] == s && forall k :: 0 <= k < |before| ==> after[k] == before[k];
  }

  method LoadTape(segments: seq<Segment>, w: Window) returns (r: Load)
    ensures r.Loaded? <==> Consistent(segments, w)
    ensures r.Loaded? ==> r.tape == Finish(Pooled(AllItems(segments, w)))
  {
    hide Consistent, Indexed, Agrees, NameAgrees, SealAgrees, Contents, Pooled, ItemsOf, RowsConform;
    var pool := Pool(map[], {});
    var names: map<string, seq<Row>>, seals: map<seq<Row>, Identity> := map[], map[];
    StartIndexed(w);
    var i := 0;
    while i < |segments|
      invariant 0 <= i <= |segments|
      invariant Consistent(segments[..i], w) && Indexed(segments[..i], w, names, seals)
      invariant pool == Pooled(AllItems(segments[..i], w))
    {
      var s := segments[i];
      ghost var before, items := segments[..i], AllItems(segments[..i], w);
      assert segments[..i + 1][..i] == before && segments[..i + 1] == before + [s];
      ConsistentExtends(before, s, w);
      IndexedExtends(before, s, w, names, seals);
      if Consistent(segments, w) { ConsistentPrefix(segments, i + 1, w); }
      i := i + 1;
      if w.Considers(s) {
        NextSegment(before, s, w, names, seals);
        if !s.checksumOk { return Failed(ChecksumMismatch); }
        if s.name in names && names[s.name] != s.rows { return Failed(IdentityConflict); }
        names := names[s.name := s.rows];
        if s.rows in seals {
          if seals[s.rows] != IdentityOf(s) { return Failed(ManifestConflict); }
          assert seals[s.rows := IdentityOf(s)] == seals && items + [] == items;
        } else {
          seals := seals[s.rows := IdentityOf(s)];
          var failure;
          pool, failure := ReadRows(s, w, pool, items);
          if failure.Some? { return Failed(failure.value); }
        }
      } else {
        assert items + [] == items;
      }
    }
    assert segments[..i] == segments;
    var ticks, rejected := RejectRegressions(pool.quotes);
    return Loaded(Tape(ticks, Sorted(pool.invalid + rejected)));
  }

  lemma StartIndexed(w: Window)
    ensures Consistent([], w) && Indexed([], w, map[], map[]) && Pooled([]) == Pool(map[], {})
  {
  }

  // ------------------------------------------------------------- normal form

  function At(items: seq<Item>, t: int): seq<Item> {
    if items == [] then []
    else At(items[..|items| - 1], t) + (if items[|items| - 1].quote.time == t then [items[|items| - 1]] else [])
  }

  // A time stands when exactly one row carries it and that row is in order.
  predicate Stands(items: seq<Item>, t: int) { |At(items, t)| == 1 && At(items, t)[0].ok }

  function TickOf(x: Item): Tick { Tick(x.quote, x.source) }

  // The dictionaries hold exactly that, whatever the arrival order.
  lemma {:induction false} PooledMeans(items: seq<Item>, t: int)
    ensures var p := Pooled(items);
            (t in p.quotes <==> Stands(items, t))
            && (t in p.invalid <==> At(items, t) != [] && !Stands(items, t))
            && (Stands(items, t) ==> p.quotes[t] == TickOf(At(items, t)[0]))
    ensures forall i :: 0 <= i < |At(items, t)| ==> At(items, t)[i].quote.time == t
  {
    if items != [] {
      PooledMeans(items[..|items| - 1], t);
    }
  }

  // Among the standing quotes, those no earlier one has a later source than.
  ghost predicate Forward(quotes: map<int, Tick>, t: int) {
    t in quotes && forall u :: u in quotes && u < t ==> quotes[u].source <= quotes[t].source
  }

  ghost predicate Keyed(quotes: map<int, Tick>) {
    forall t :: t in quotes ==> quotes[t].quote.time == t && quotes[t].source >= -1
  }

  ghost predicate Kept(quotes: map<int, Tick>, keys: seq<int>, k: nat)
    requires k < |keys| && forall i :: 0 <= i < |keys| ==> keys[i] in quotes
  {
    forall j :: 0 <= j < k ==> quotes[keys[j]].source <= quotes[keys[k]].source
  }

  ghost predicate TicksOrdered(ticks: seq<Tick>) {
    forall i, j :: 0 <= i < j < |ticks| ==>
      ticks[i].quote.time < ticks[j].quote.time && ticks[i].source <= ticks[j].source
  }

  lemma {:induction false} LastIsMax(quotes: map<int, Tick>, keys: seq<int>)
    requires forall i :: 0 <= i < |keys| ==> keys[i] in quotes
    ensures var last := PassOver(quotes, keys).last;
            (forall k :: 0 <= k < |keys| ==> quotes[keys[k]].source <= last)
            && (last == -1 || exists k :: 0 <= k < |keys| && quotes[keys[k]].source == last)
  {
    if keys != [] {
      var n := |keys| - 1;
      LastIsMax(quotes, keys[..n]);
      assert forall k :: 0 <= k < n ==> keys[..n][k] == keys[k];
    }
  }

  // What the pass keeps and rejects comes from the keys, in order.
  lemma {:induction false} PassTicks(quotes: map<int, Tick>, keys: seq<int>)
    requires Keyed(quotes) && Increasing(keys) && forall i :: 0 <= i < |keys| ==> keys[i] in quotes
    ensures var pass := PassOver(quotes, keys);
            TicksOrdered(pass.ticks)
            && (forall i :: 0 <= i < |pass.ticks| ==>
                  pass.ticks[i].source <= pass.last && Has(keys, pass.ticks[i].quote.time)
                  && pass.ticks[i].quote.time <= keys[|keys| - 1])
            && forall t :: t in pass.rejected ==> Has(keys, t)
  {
    if keys != [] {
      var n := |keys| - 1;
      HasGrows(keys);
      PassTicks(quotes, keys[..n]);
    }
  }

  ghost predicate KeptTime(ticks: seq<Tick>, t: int) { exists i :: 0 <= i < |ticks| && ticks[i].quote.time == t }

  lemma KeptTimeGrows(ticks: seq<Tick>, x: Tick)
    ensures forall t :: KeptTime(ticks + [x], t) <==> KeptTime(ticks, t) || t == x.quote.time
  {
    assert (ticks + [x])[|ticks|] == x;
    forall t ensures KeptTime(ticks + [x], t) <==> KeptTime(ticks, t) || t == x.quote.time {
      if KeptTime(ticks, t) {
        var i :| 0 <= i < |ticks| && ticks[i].quote.time == t;
        assert (ticks + [x])[i].quote.time == t;
      }
    }
  }

  lemma KeptPrefix(quotes: map<int, Tick>, keys: seq<int>, k: nat)
    requires (forall i :: 0 <= i < |keys| ==> keys[i] in quotes) && k < |keys| - 1
    ensures Kept(quotes, keys[..|keys| - 1], k) <==> Kept(quotes, keys, k)
  {
    assert forall j :: 0 <= j < |keys| - 1 ==> keys[..|keys| - 1][j] == keys[j];
  }

  lemma KeptAtEnd(quotes: map<int, Tick>, keys: seq<int>)
    requires Keyed(quotes) && (forall i :: 0 <= i < |keys| ==> keys[i] in quotes) && keys != []
    ensures Kept(quotes, keys, |keys| - 1) <==>
            quotes[keys[|keys| - 1]].source >= PassOver(quotes, keys[..|keys| - 1]).last
  {
    var n := |keys| - 1;
    LastIsMax(quotes, keys[..n]);
    var last, x := PassOver(quotes, keys[..n]).last, quotes[keys[n]].source;
    var key := keys[n];
    assert key in quotes && quotes[key].source >= -1;
    if last <= x {
      forall j | 0 <= j < n ensures quotes[keys[j]].source <= x {
        assert keys[..n][j] == keys[j];
        assert quotes[keys[..n][j]].source <= last;
      }
    } else {
      var k :| 0 <= k < n && quotes[keys[..n][k]].source == last;
      assert quotes[keys[k]].source == last;
    }
  }

  // Each key is either kept or rejected, and kept exactly when no earlier
  // source is later.
  lemma {:induction false} PassKey(quotes: map<int, Tick>, keys: seq<int>, k: nat)
    requires Keyed(quotes) && Increasing(keys) && (forall i :: 0 <= i < |keys| ==> keys[i] in quotes) && k < |keys|
    ensures var pass := PassOver(quotes, keys);
            (keys[k] in pass.rejected <==> !Kept(quotes, keys, k))
            && (KeptTime(pass.ticks, keys[k]) <==> Kept(quotes, keys, k))
  {
    hide Kept, KeptTime, Has, TicksOrdered;
    var n := |keys| - 1;
    var front, tick := PassOver(quotes, keys[..n]), quotes[keys[n]];
    KeptTimeGrows(front.ticks, tick);
    if k < n {
      PassKey(quotes, keys[..n], k);
      KeptPrefix(quotes, keys, k);
    } else {
      KeptAtEnd(quotes, keys);
      LastKeyNew(quotes, keys);
    }
  }

  lemma LastKeyNew(quotes: map<int, Tick>, keys: seq<int>)
    requires Keyed(quotes) && Increasing(keys) && (forall i :: 0 <= i < |keys| ==> keys[i] in quotes) && keys != []
    ensures var front := PassOver(quotes, keys[..|keys| - 1]);
            keys[|keys| - 1] !in front.rejected && !KeptTime(front.ticks, keys[|keys| - 1])
  {
    PassTicks(quotes, keys[..|keys| - 1]);
  }

  lemma PooledKeyed(items: seq<Item>)
    requires forall i :: 0 <= i < |items| && items[i].ok ==> items[i].source >= -1
    ensures Keyed(Pooled(items).quotes)
  {
    forall t | t in Pooled(items).quotes
      ensures Pooled(items).quotes[t].quote.time == t && Pooled(items).quotes[t].source >= -1
    {
      PooledMeans(items, t);
      AtSubset(items, t);
    }
  }

  lemma {:induction false} AtSubset(items: seq<Item>, t: int)
    ensures forall i :: 0 <= i < |At(items, t)| ==> At(items, t)[i] in items
    ensures At(items, t) != [] <==> exists i :: 0 <= i < |items| && items[i].quote.time == t
  {
    if items != [] {
      AtSubset(items[..|items| - 1], t);
      var n := |items| - 1;
      if At(items, t) != [] && items[n].quote.time != t {
        var i :| 0 <= i < n && items[..n][i].quote.time == t;
        assert items[i].quote.time == t;
      }
    }
  }

  // A row that may stand has a non-negative source: it is not behind -1.
  lemma {:induction false} SourcesNonNegative(rows: seq<Row>, w: Window)
    ensures LastSource(rows, w) >= -1
    ensures forall i :: 0 <= i < |ItemsOf(rows, w)| && ItemsOf(rows, w)[i].ok ==> ItemsOf(rows, w)[i].source >= -1
  {
    if rows != [] { SourcesNonNegative(rows[..|rows| - 1], w); }
  }

  lemma {:induction false} AllSourcesOk(segments: seq<Segment>, w: Window)
    ensures forall i :: 0 <= i < |AllItems(segments, w)| && AllItems(segments, w)[i].ok ==>
              AllItems(segments, w)[i].source >= -1
  {
    if segments != [] {
      AllSourcesOk(segments[..|segments| - 1], w);
      SourcesNonNegative(segments[|segments| - 1].rows, w);
    }
  }

  // A standing quote no earlier standing quote has a later source than.
  ghost predicate Accepted(items: seq<Item>, t: int) {
    Stands(items, t)
    && forall u {:trigger Stands(items, u)} :: u < t && Stands(items, u) ==>
         At(items, u)[0].source <= At(items, t)[0].source
  }

  lemma KeptIsForward(quotes: map<int, Tick>, keys: seq<int>, k: nat)
    requires Increasing(keys) && (forall i :: 0 <= i < |keys| ==> keys[i] in quotes) && k < |keys|
    requires forall u :: Has(keys, u) <==> u in quotes
    ensures Kept(quotes, keys, k) <==> Forward(quotes, keys[k])
  {
    if Kept(quotes, keys, k) {
      forall u | u in quotes && u < keys[k] ensures quotes[u].source <= quotes[keys[k]].source {
        assert Has(keys, u);
        var j :| 0 <= j < |keys| && keys[j] == u;
        assert j < k;
      }
    }
  }

  lemma ForwardIsKept(quotes: map<int, Tick>, t: int)
    requires Keyed(quotes)
    ensures var pass := PassOver(quotes, Sorted(quotes.Keys));
            (KeptTime(pass.ticks, t) <==> Forward(quotes, t))
            && (t in pass.rejected <==> t in quotes && !Forward(quotes, t))
            && TicksOrdered(pass.ticks)
  {
    var keys := Sorted(quotes.Keys);
    SortedHas(quotes.Keys);
    PassTicks(quotes, keys);
    KeptTimesAreKeys(quotes, keys, t);
    hide *;
    if Has(keys, t) {
      var k := KeyIndex(keys, t);
      PassKey(quotes, keys, k);
      KeptIsForward(quotes, keys, k);
    }
  }

  lemma KeyIndex(keys: seq<int>, t: int) returns (k: nat)
    requires Has(keys, t)
    ensures k < |keys| && keys[k] == t
  {
    k :| 0 <= k < |keys| && keys[k] == t;
  }

  lemma KeptTimesAreKeys(quotes: map<int, Tick>, keys: seq<int>, t: int)
    requires Keyed(quotes) && Increasing(keys) && forall i :: 0 <= i < |keys| ==> keys[i] in quotes
    ensures KeptTime(PassOver(quotes, keys).ticks, t) ==> Has(keys, t)
  {
    PassTicks(quotes, keys);
  }

  lemma AcceptedIsForward(items: seq<Item>, t: int)
    ensures Forward(Pooled(items).quotes, t) <==> Accepted(items, t)
    ensures t in Pooled(items).quotes <==> Stands(items, t)
  {
    var quotes := Pooled(items).quotes;
    forall u ensures u in quotes <==> Stands(items, u)
             ensures u in quotes ==> quotes[u].source == At(items, u)[0].source {
      PooledMeans(items, u);
    }
    hide Pooled, At;
  }

  // Main result: the merged tape is a normal form.  Times strictly increase and
  // sources never go back; every time carried by a row of the window lies in
  // exactly one of valid and invalid; it is valid exactly when one row alone
  // has it, in order, and no earlier standing quote has a later source.
  lemma NormalForm(segments: seq<Segment>, w: Window, t: int)
    ensures var items := AllItems(segments, w);
            var tape := Finish(Pooled(items));
            TicksOrdered(tape.ticks) && Increasing(tape.invalid)
            && (KeptTime(tape.ticks, t) <==> Accepted(items, t))
            && (Accepted(items, t) ==> |At(items, t)| == 1)
            && (Has(tape.invalid, t) <==> At(items, t) != [] && !Accepted(items, t))
            && (At(items, t) != [] <==> exists i :: 0 <= i < |items| && items[i].quote.time == t)
  {
    var items := AllItems(segments, w);
    AllSourcesOk(segments, w);
    PooledKeyed(items);
    AcceptedIsForward(items, t);
    ForwardIsKept(Pooled(items).quotes, t);
    PooledMeans(items, t);
    AtSubset(items, t);
    SortedHas(Pooled(items).invalid + PassOver(Pooled(items).quotes, Sorted(Pooled(items).quotes.Keys)).rejected);
  }

  // ------------------------------------------------------ order does not matter

  lemma {:induction false} AtByCount(items: seq<Item>, t: int)
    ensures forall x :: multiset(At(items, t))[x] == if x.quote.time == t then multiset(items)[x] else 0
  {
    if items != [] {
      AtByCount(items[..|items| - 1], t);
      assert items == items[..|items| - 1] + [items[|items| - 1]];
    }
  }

  lemma SamePool(a: seq<Item>, b: seq<Item>)
    requires multiset(a) == multiset(b)
    ensures Pooled(a) == Pooled(b)
  {
    forall t ensures t in Pooled(a).quotes <==> t in Pooled(b).quotes
             ensures t in Pooled(a).invalid <==> t in Pooled(b).invalid
             ensures t in Pooled(a).quotes ==> Pooled(a).quotes[t] == Pooled(b).quotes[t] {
      PooledMeans(a, t);
      PooledMeans(b, t);
      AtByCount(a, t);
      AtByCount(b, t);
      SingletonByCount(At(a, t), At(b, t));
    }
  }

  lemma SingletonByCount<T>(a: seq<T>, b: seq<T>)
    requires forall x :: multiset(a)[x] == multiset(b)[x]
    ensures |a| == |b| && (|a| == 1 ==> a[0] == b[0])
  {
    assert multiset(a) == multiset(b);
    assert |multiset(a)| == |a| && |multiset(b)| == |b|;
    if |a| == 1 {
      assert a == [a[0]] && b == [b[0]];
      assert multiset(b)[a[0]] == 1;
    }
  }

  ghost function Bag(contents: set<seq<Row>>, w: Window): multiset<Item> {
    if contents == {} then multiset{} else var c :| c in contents; Bag(contents - {c}, w) + multiset(ItemsOf(c, w))
  }

  lemma {:induction false} BagRemove(contents: set<seq<Row>>, c: seq<Row>, w: Window)
    requires c in contents
    ensures Bag(contents, w) == Bag(contents - {c}, w) + multiset(ItemsOf(c, w))
    decreases contents
  {
    var d :| d in contents && Bag(contents, w) == Bag(contents - {d}, w) + multiset(ItemsOf(d, w));
    if d != c {
      BagRemove(contents - {d}, c, w);
      BagRemove(contents - {c}, d, w);
      assert contents - {d} - {c} == contents - {c} - {d};
    }
  }

  lemma ContentsGrow(before: seq<Segment>, s: Segment, w: Window)
    ensures Contents(before + [s], w) == Contents(before, w) + (if w.Considers(s) then {s.rows} else {})
  {
    var after := before + [s];
    assert after[|before|] == s;
    forall c ensures c in Contents(after, w) <==> c in Contents(before, w) || (w.Considers(s) && c == s.rows) {
      if c in Contents(before, w) {
        var k :| 0 <= k < |before| && w.Considers(before[k]) && before[k].rows == c;
        assert after[k] == before[k];
      }
      if c in Contents(after, w) {
        var k :| 0 <= k < |after| && w.Considers(after[k]) && after[k].rows == c;
        assert k < |before| ==> after[k] == before[k];
      }
    }
  }

  lemma {:induction false} ItemsAreBag(segments: seq<Segment>, w: Window)
    ensures multiset(AllItems(segments, w)) == Bag(Contents(segments, w), w)
  {
    hide ItemsOf;
    if segments == [] {
      assert Contents(segments, w) == {};
    } else {
      var front, s := segments[..|segments| - 1], segments[|segments| - 1];
      ItemsAreBag(front, w);
      ContentsGrow(front, s, w);
      assert front + [s] == segments;
      hide Contents, Bag;
      if w.Considers(s) && s.rows !in Contents(front, w) {
        BagRemove(Contents(segments, w), s.rows, w);
        assert Contents(segments, w) - {s.rows} == Contents(front, w);
      } else {
        assert Contents(segments, w) == Contents(front, w);
        assert AllItems(segments, w) == AllItems(front, w);
      }
    }
  }

  // The tape depends on the set of segment contents alone: neither their order
  // nor extra sealed copies change it.
  lemma OrderDoesNotMatter(a: seq<Segment>, b: seq<Segment>, w: Window)
    requires Contents(a, w) == Contents(b, w)
    ensures Finish(Pooled(AllItems(a, w))) == Finish(Pooled(AllItems(b, w)))
  {
    ItemsAreBag(a, w);
    ItemsAreBag(b, w);
    SamePool(AllItems(a, w), AllItems(b, w));
  }

  // Nor whether it loads at all, for the same segments in another order or
  // repeated.
  lemma LoadsTheSame(a: seq<Segment>, b: seq<Segment>, w: Window)
    requires forall i :: 0 <= i < |b| && w.Considers(b[i]) ==> exists k :: 0 <= k < |a| && a[k] == b[i]
    requires Consistent(a, w)
    ensures Consistent(b, w)
  {
    forall i | 0 <= i < |b| && w.Considers(b[i]) ensures Conforms(b[i], w) {
      var k :| 0 <= k < |a| && a[k] == b[i];
    }
    forall i, j | 0 <= i < j < |b| && w.Considers(b[i]) && w.Considers(b[j])
      ensures (b[i].name == b[j].name ==> b[i].rows == b[j].rows)
              && (b[i].rows == b[j].rows ==> IdentityOf(b[i]) == IdentityOf(b[j]))
    {
      var k :| 0 <= k < |a| && a[k] == b[i];
      var l :| 0 <= l < |a| && a[l] == b[j];
    }
  }
}
