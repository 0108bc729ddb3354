// The daily study: one report per run for the first day that has none, linked
// exclusively and then made durable.  There is no claim before the collection,
// and the lemmas say what that costs when a run is killed and a crash follows.
module ForwardStudy {
  import opened Common

  const DAYS := 30
  const SETTLE := 600_000

  datatype Study = Study(registered: int, start: int)

  datatype Phase = Idle | Collecting(day: nat) | Linking(day: nat, evidence: string) | Syncing(day: nat)

  // The directory as it is seen, what of it a crash must keep, the days the
  // collector was called for, and the latest time a run was given.
  datatype State = State(visible: map<nat, string>, durable: set<nat>, collected: seq<nat>, clock: int, phase: Phase)

  // What one run meets: its clock, whether the study's contract and the source
  // hash hold, room on disk, and what the collector returns, None if it raises.
  datatype Run = Run(now: int, contractOk: bool, room: bool, evidence: Option<string>)

  datatype Event = Start(run: Run) | Step(run: Run) | Kill | Crash(keep: set<nat>)

  function Due(study: Study, day: nat): int { study.start + (day + 1) * DAY + SETTLE }

  // The loop over the days: past reports that are due, up to the first day without one.
  function Chosen(study: Study, visible: map<nat, string>, run: Run, day: nat): Phase
    requires day <= DAYS
    decreases DAYS - day
  {
    if day == DAYS || run.now < Due(study, day) then Idle
    else if day in visible then Chosen(study, visible, run, day + 1)
    else if run.room then Collecting(day) else Idle
  }

  function Begun(s: State, study: Study, run: Run): State {
    s.(clock := MaxInt(s.clock, run.now),
       phase := if !run.contractOk || run.now < study.registered then Idle else Chosen(study, s.visible, run, 0))
  }

  function Progress(s: State, run: Run): State {
    match s.phase
    case Idle => s
    case Collecting(day) =>
      s.(collected := s.collected + [day],
         phase := if run.evidence.Some? then Linking(day, run.evidence.value) else Idle)
    case Linking(day, evidence) =>
      if day in s.visible then s.(phase := Idle) else s.(visible := s.visible[day := evidence], phase := Syncing(day))
    case Syncing(_) => s.(durable := s.visible.Keys, phase := Idle)
  }

  function AfterCrash(s: State, keep: set<nat>): State {
    var kept := map d | d in s.visible && (d in s.durable || d in keep) :: s.visible[d];
    s.(visible := kept, durable := kept.Keys, phase := Idle)
  }

  function Next(s: State, study: Study, e: Event): State {
    match e
    case Start(run) => if s.phase.Idle? then Begun(s, study, run) else s
    case Step(run) => Progress(s, run)
    case Kill => s.(phase := Idle)
    case Crash(keep) => AfterCrash(s, keep)
  }

  function RunAll(s: State, study: Study, events: seq<Event>): State {
    if events == [] then s else Next(RunAll(s, study, events[..|events| - 1]), study, events[|events| - 1])
  }

  const EMPTY := State(map[], {}, [], 0, Idle)

  // One run on its own, cut short after a number of steps.
  function Drive(s: State, run: Run, steps: nat): State
    decreases steps
  {
    if s.phase.Idle? || steps == 0 then s.(phase := Idle) else Drive(Progress(s, run), run, steps - 1)
  }

  class Directory {
    var visible: map<nat, string>
    var durable: set<nat>
    var collected: seq<nat>
    var clock: int

    ghost function At(phase: Phase): State
      reads this
    {
      State(visible, durable, collected, clock, phase)
    }

    method RunOnce(study: Study, run: Run, steps: nat)
      modifies this
      ensures At(Idle) == Drive(Begun(old(At(Idle)), study, run), run, steps)
    {
      clock := MaxInt(clock, run.now);
      if !run.contractOk || run.now < study.registered { return; }
      ghost var chosen := Chosen(study, visible, run, 0);
      var day := 0;
      while day < DAYS
        invariant 0 <= day <= DAYS && Chosen(study, visible, run, day) == chosen
        invariant At(Idle) == Begun(old(At(Idle)), study, run).(phase := Idle)
      {
        if run.now < Due(study, day) { return; }
        if day !in visible {
          if run.room { Publish(day, run, steps); }
          return;
        }
        day := day + 1;
      }
    }

    method Publish(day: nat, run: Run, steps: nat)
      modifies this`visible, this`durable, this`collected
      ensures At(Idle) == Drive(old(At(Collecting(day))), run, steps)
    {
      ghost var s := At(Collecting(day));
      if steps == 0 { return; }
      collected := collected + [day];
      if run.evidence.None? {
        assert Drive(s, run, steps) == Drive(At(Idle), run, steps - 1);
        return;
      }
      assert Drive(s, run, steps) == Drive(At(Linking(day, run.evidence.value)), run, steps - 1);
      if steps == 1 { return; }
      if day in visible {
        assert Drive(s, run, steps) == Drive(At(Idle), run, steps - 2);
        return;
      }
      visible := visible[day := run.evidence.value];
      assert Drive(s, run, steps) == Drive(At(Syncing(day)), run, steps - 2);
      if steps == 2 { return; }
      durable := visible.Keys;
      assert Drive(s, run, steps) == Drive(At(Idle), run, steps - 3);
    }
  }

  // ---------------------------------------------------------------- invariant

  ghost predicate Inv(s: State, study: Study) {
    s.durable <= s.visible.Keys
    && (forall d :: d in s.visible ==> d < DAYS && Due(study, d) <= s.clock)
    && match s.phase
       case Idle => true
       case Syncing(d) => d in s.visible
       case Collecting(d) => Free(s, study, d)
       case Linking(d, _) => Free(s, study, d)
  }

  ghost predicate Free(s: State, study: Study, day: nat) {
    day < DAYS && day !in s.visible && Due(study, day) <= s.clock && forall j: nat :: j < day ==> j in s.visible
  }

  lemma {:induction false} ChosenMeans(study: Study, visible: map<nat, string>, run: Run, day: nat)
    requires day <= DAYS && forall j: nat :: j < day ==> j in visible
    ensures var p := Chosen(study, visible, run, day);
            p.Idle? || (p.Collecting? && p.day < DAYS && p.day !in visible && Due(study, p.day) <= run.now
                        && forall j: nat :: j < p.day ==> j in visible)
    decreases DAYS - day
  {
    hide Due;
    if day < DAYS && run.now >= Due(study, day) && day in visible { ChosenMeans(study, visible, run, day + 1); }
  }

  lemma NextKeepsInv(s: State, study: Study, e: Event)
    requires Inv(s, study)
    ensures Inv(Next(s, study, e), study)
  {
    if e.Start? { ChosenMeans(study, s.visible, e.run, 0); }
    hide Due, Chosen;
  }

  lemma {:induction false} RunKeepsInv(s: State, study: Study, events: seq<Event>)
    requires Inv(s, study)
    ensures Inv(RunAll(s, study, events), study)
  {
    hide Next, Inv;
    if events != [] {
      RunKeepsInv(s, study, events[..|events| - 1]);
      NextKeepsInv(RunAll(s, study, events[..|events| - 1]), study, events[|events| - 1]);
    }
  }

  // A report that is on disk is there for ever, unchanged.
  lemma {:induction false} DurableStays(s: State, study: Study, events: seq<Event>, day: nat)
    requires Inv(s, study) && day in s.durable
    ensures var s' := RunAll(s, study, events);
            day in s'.durable && day in s'.visible && s'.visible[day] == s.visible[day]
  {
    hide Due, Chosen;
    if events != [] {
      DurableStays(s, study, events[..|events| - 1], day);
      RunKeepsInv(s, study, events[..|events| - 1]);
    }
  }

  // And its day is never collected again.
  lemma {:induction false} DurableIsCollectedNoMore(s: State, study: Study, events: seq<Event>, day: nat)
    requires Inv(s, study) && day in s.durable
    ensures var s' := RunAll(s, study, events);
            s.collected <= s'.collected && day !in s'.collected[|s.collected|..]
  {
    if events != [] {
      var front, e := events[..|events| - 1], events[|events| - 1];
      var mid := RunAll(s, study, front);
      DurableIsCollectedNoMore(s, study, front, day);
      DurableStays(s, study, front, day);
      RunKeepsInv(s, study, front);
      hide RunAll, Due, Chosen;
      assert mid.phase.Collecting? ==> mid.phase.day != day;
      var s' := Next(mid, study, e);
      assert s'.collected == mid.collected
             || s'.collected[|s.collected|..] == mid.collected[|s.collected|..] + [mid.phase.day];
    }
  }

  // ------------------------------------------------------------- a prefix of days

  ghost predicate GapFree(s: State) { forall j: nat, k: nat :: j < k && k in s.visible ==> j in s.visible }

  // Every report but the latest is on disk.
  ghost predicate Settled(s: State) { forall j: nat, k: nat :: j < k && k in s.visible ==> j in s.durable }

  // No crash can leave a gap exactly when every report but the latest is durable.
  lemma CrashKeepsPrefix(s: State, study: Study)
    requires Inv(s, study)
    ensures (forall keep :: GapFree(AfterCrash(s, keep))) <==> Settled(s)
  {
    hide Due;
    if !Settled(s) {
      var j: nat, k: nat :| j < k && k in s.visible && j !in s.durable;
      var after := AfterCrash(s, {k});
      assert k in after.visible && j !in after.visible;
      assert !GapFree(after);
    }
  }

  // The one dangerous place to be killed: a report linked but not yet synced.
  predicate Unsafe(s: State, e: Event) { e.Kill? && s.phase.Syncing? }

  ghost predicate Careful(study: Study, events: seq<Event>) {
    events == []
    || (Careful(study, events[..|events| - 1])
        && !Unsafe(RunAll(EMPTY, study, events[..|events| - 1]), events[|events| - 1]))
  }

  ghost predicate OnlyOwnLoose(s: State) {
    GapFree(s) && forall d :: d in s.visible ==> d in s.durable || (s.phase.Syncing? && s.phase.day == d)
  }

  lemma NextKeepsPrefix(s: State, study: Study, e: Event)
    requires Inv(s, study) && OnlyOwnLoose(s) && Settled(s) && !Unsafe(s, e)
    ensures OnlyOwnLoose(Next(s, study, e)) && Settled(Next(s, study, e))
  {
    if e.Start? { ChosenMeans(study, s.visible, e.run, 0); }
    hide Due, Chosen;
  }

  // Main result: over every sequence of runs, kills and crashes no report appears
  // before its day has settled; and unless a run is killed at that one place the
  // reports form a gap-free prefix, whatever else is killed or lost.
  lemma {:induction false} StudySafely(study: Study, events: seq<Event>)
    ensures var s := RunAll(EMPTY, study, events);
            (forall d :: d in s.visible ==> d < DAYS && Due(study, d) <= s.clock)
            && (Careful(study, events) ==> OnlyOwnLoose(s) && Settled(s) && forall keep :: GapFree(AfterCrash(s, keep)))
  {
    var s := RunAll(EMPTY, study, events);
    assert Inv(EMPTY, study);
    RunKeepsInv(EMPTY, study, events);
    if events != [] {
      var front := events[..|events| - 1];
      StudySafely(study, front);
      RunKeepsInv(EMPTY, study, front);
      if Careful(study, events) { NextKeepsPrefix(RunAll(EMPTY, study, front), study, events[|events| - 1]); }
    }
    CrashKeepsPrefix(s, study);
    hide RunAll, Next, Due;
  }

  lemma Then(s: State, study: Study, events: seq<Event>, e: Event) returns (longer: seq<Event>)
    ensures RunAll(s, study, longer) == Next(RunAll(s, study, events), study, e)
  {
    longer := events + [e];
    assert longer[..|events|] == events;
  }

  // A run of `RunOnce`, however short it is cut, is one of the runs above.
  lemma RunOnceIsARun(s: State, study: Study, run: Run, steps: nat) returns (events: seq<Event>)
    requires s.phase.Idle?
    ensures RunAll(s, study, events) == Drive(Begun(s, study, run), run, steps)
  {
    hide Progress, Begun;
    events := [];
    assert RunAll(s, study, events) == s;
    events := Then(s, study, events, Start(run));
    hide RunAll;
    var done := 0;
    while done < steps && !RunAll(s, study, events).phase.Idle?
      invariant 0 <= done <= steps
      invariant Drive(RunAll(s, study, events), run, steps - done) == Drive(Begun(s, study, run), run, steps)
    {
      events := Then(s, study, events, Step(run));
      done := done + 1;
    }
    events := Then(s, study, events, Kill);
  }

  lemma {:induction false} RunsCompose(s: State, study: Study, first: seq<Event>, second: seq<Event>)
    ensures RunAll(s, study, first + second) == RunAll(RunAll(s, study, first), study, second)
  {
    hide Next;
    if second == [] {
      assert first + second == first;
    } else {
      assert (first + second)[..|first + second| - 1] == first + second[..|second| - 1];
      RunsCompose(s, study, first, second[..|second| - 1]);
    }
  }

  // What is proved of all runs is so proved of the directory after `RunOnce`.
  lemma RunOnceSafely(study: Study, events: seq<Event>, run: Run, steps: nat) returns (longer: seq<Event>)
    requires RunAll(EMPTY, study, events).phase.Idle?
    ensures var s := Drive(Begun(RunAll(EMPTY, study, events), study, run), run, steps);
            s == RunAll(EMPTY, study, longer) && forall d :: d in s.visible ==> d < DAYS && Due(study, d) <= s.clock
  {
    var more := RunOnceIsARun(RunAll(EMPTY, study, events), study, run, steps);
    longer := events + more;
    RunsCompose(EMPTY, study, events, more);
    StudySafely(study, longer);
    hide RunAll, Drive, Begun, Due;
  }

  lemma FirstTwo(study: Study, visible: map<nat, string>, run: Run)
    requires run.room && run.now == Due(study, 1)
    ensures 0 !in visible ==> Chosen(study, visible, run, 0) == Collecting(0)
    ensures 0 in visible && 1 !in visible ==> Chosen(study, visible, run, 0) == Collecting(1)
  {
  }

  // Killed at that place, the first report can be lost while the second is kept:
  // the first day is then collected a second time, after the second.
  lemma KilledThereLeavesGap(study: Study, first: string, second: string) returns (events: seq<Event>)
    requires study.registered <= study.start
    ensures var s := RunAll(EMPTY, study, events);
            0 !in s.visible && 1 in s.visible && !GapFree(s) && s.collected == [0, 1, 0]
  {
    var run := Run(Due(study, 1), true, true, Some(first));
    FirstTwo(study, map[], run);
    FirstTwo(study, map[0 := first], run);
    assert study.registered <= run.now;
    events := [];
    assert RunAll(EMPTY, study, events) == EMPTY;
    hide RunAll, Chosen, Due;
    events := Then(EMPTY, study, events, Start(run));
    events := Then(EMPTY, study, events, Step(run));
    events := Then(EMPTY, study, events, Step(run));
    events := Then(EMPTY, study, events, Kill);
    var loose := RunAll(EMPTY, study, events);
    assert loose.visible == map[0 := first] && loose.durable == {} && loose.phase == Idle;
    events := Then(EMPTY, study, events, Start(run));
    events := Then(EMPTY, study, events, Step(run.(evidence := Some(second))));
    events := Then(EMPTY, study, events, Step(run));
    var both := RunAll(EMPTY, study, events);
    assert 1 in both.visible && 0 !in both.durable && both.collected == [0, 1];
    events := Then(EMPTY, study, events, Crash({1}));
    var gap := RunAll(EMPTY, study, events);
    assert 1 in gap.visible && 0 !in gap.visible;
    FirstTwo(study, gap.visible, run);
    events := Then(EMPTY, study, events, Start(run));
    events := Then(EMPTY, study, events, Step(run));
    assert !GapFree(RunAll(EMPTY, study, events));
  }
}
