// The window collector: claim, export, input, report, each linked into one
// directory and then made durable by a directory sync.  A run may be killed
// after any step; a crash also loses links that were not yet durable.
module Collector {
  import opened Common

  const HALF_HOUR := 1_800_000
  const GRACE := 300_000

  // `ok` stands for whether the packet parses, is in scope and can be measured.
  datatype Packet = Packet(raw: string, ok: bool)

  datatype Name = Capture(window: nat) | Input(window: nat) | Report(window: nat)

  datatype Content = Claimed | Retained(packet: Packet) | Measured(packet: Packet)

  datatype Phase =
    | Idle
    | Claiming(window: nat)
    | ClaimSync(window: nat)
    | Exporting(window: nat)
    | Storing(window: nat, packet: Packet)
    | StoreSync(window: nat, packet: Packet)
    | Measuring(window: nat, packet: Packet)
    | ReportSync(window: nat)
    | Ending

  // `exports` and `answers` record what was asked of, and returned by, the
  // exporter; `clock` is the latest time a run was given.
  datatype State = State(
    visible: map<Name, Content>, durable: set<Name>, exports: seq<nat>, answers: map<nat, Packet>, clock: int,
    phase: Phase)

  datatype Registration = Registration(start: int, windows: nat)

  // What one run meets: its clock, drift of source or runtime, and room at the
  // three capacity checks; the exporter's answer, None if it raised or was too large.
  datatype Run = Run(now: int, drift: bool, room: bool, roomToClaim: bool, roomToReport: bool, answer: Option<Packet>)

  datatype Event = Start(run: Run) | Step(run: Run) | Kill | Crash(keep: set<Name>)

  function Due(reg: Registration, k: nat): int { reg.start + (k + 1) * HALF_HOUR + GRACE }

  function FirstOpen(reg: Registration, visible: map<Name, Content>, k: nat): nat
    requires k <= reg.windows
    decreases reg.windows - k
  {
    if k < reg.windows && Report(k) in visible then FirstOpen(reg, visible, k + 1) else k
  }

  // Where a run goes after its reads.
  function Chosen(s: State, reg: Registration, run: Run): Phase {
    if run.drift then Ending
    else if !run.room then Idle
    else
      var k := FirstOpen(reg, s.visible, 0);
      if k >= reg.windows || run.now < Due(reg, k) then Ending
      else if Input(k) in s.visible
      then (match s.visible[Input(k)] case Retained(p) => Measuring(k, p) case _ => Idle)
      else if Capture(k) in s.visible || !run.roomToClaim then Idle
      else Claiming(k)
  }

  // A link never replaces: the same content again is accepted, other content raises.
  function Link(s: State, name: Name, content: Content, next: Phase): State {
    if name in s.visible && s.visible[name] != content then s.(phase := Idle)
    else s.(visible := s.visible[name := content], phase := next)
  }

  function Sync(s: State, next: Phase): State { s.(durable := s.visible.Keys, phase := next) }

  function Asked(s: State, k: nat, answer: Option<Packet>): State {
    var s' := s.(exports := s.exports + [k]);
    if answer.Some? then s'.(answers := s.answers[k := answer.value], phase := Storing(k, answer.value))
    else s'.(phase := Idle)
  }

  function Progress(s: State, run: Run): State {
    match s.phase
    case Idle => s
    case Claiming(k) => Link(s, Capture(k), Claimed, ClaimSync(k))
    case ClaimSync(k) => Sync(s, Exporting(k))
    case Exporting(k) => Asked(s, k, run.answer)
    case Storing(k, p) => Link(s, Input(k), Retained(p), StoreSync(k, p))
    case StoreSync(k, p) => Sync(s, Measuring(k, p))
    case Measuring(k, p) =>
      if p.ok && run.roomToReport then Link(s, Report(k), Measured(p), ReportSync(k)) else s.(phase := Idle)
    case ReportSync(k) => Sync(s, Ending)
    case Ending => Sync(s, Idle)
  }

  function AfterCrash(s: State, keep: set<Name>): State {
    var kept := map n | n in s.visible && (n in s.durable || n in keep) :: s.visible[n];
    s.(visible := kept, durable := kept.Keys, phase := Idle)
  }

  function Begun(s: State, reg: Registration, run: Run): State {
    s.(clock := MaxInt(s.clock, run.now), phase := Chosen(s, reg, run))
  }

  // A second run finds the lock taken and changes nothing.
  function Next(s: State, reg: Registration, e: Event): State {
    match e
    case Start(run) => if s.phase.Idle? then Begun(s, reg, run) else s
    case Step(run) => Progress(s, run)
    case Kill => s.(phase := Idle)
    case Crash(keep) => AfterCrash(s, keep)
  }

  function RunAll(s: State, reg: Registration, events: seq<Event>): State {
    if events == [] then s else Next(RunAll(s, reg, events[..|events| - 1]), reg, events[|events| - 1])
  }

  const EMPTY := State(map[], {}, [], map[], 0, Idle)

  // ------------------------------------------------------------ one run in code

  // One run on its own, cut short after at most `steps` changes to the directory
  // or calls of the exporter.
  function Drive(s: State, run: Run, steps: nat): State
    decreases steps
  {
    if s.phase.Idle? || steps == 0 then s.(phase := Idle) else Drive(Progress(s, run), run, steps - 1)
  }

  lemma EndingRun(s: State, run: Run, steps: nat)
    requires s.phase.Ending?
    ensures Drive(s, run, steps) == if steps == 0 then s.(phase := Idle) else Sync(s, Idle)
  {
  }

  class Archive {
    var visible: map<Name, Content>
    var durable: set<Name>
    var exports: seq<nat>
    var answers: map<nat, Packet>
    var clock: int

    ghost function At(phase: Phase): State
      reads this
    {
      State(visible, durable, exports, answers, clock, phase)
    }

    method LinkFile(name: Name, content: Content) returns (ok: bool)
      modifies this`visible
      ensures ok <==> name !in old(visible) || old(visible)[name] == content
      ensures visible == if ok then old(visible)[name := content] else old(visible)
    {
      if name in visible { return visible[name] == content; }
      visible := visible[name := content];
      return true;
    }

    method SyncDirectory()
      modifies this`durable
      ensures durable == visible.Keys
    {
      durable := visible.Keys;
    }

    method Collect(reg: Registration, run: Run, steps: nat)
      modifies this
      ensures At(Idle) == Drive(Begun(old(At(Idle)), reg, run), run, steps)
    {
      hide FirstOpen, Progress, Due;
      clock := MaxInt(clock, run.now);
      var left := steps;
      if !run.drift {
        if !run.room { return; }
        var k := Scan(reg);
        if k < reg.windows && run.now >= Due(reg, k) {
          var packet: Packet;
          if Input(k) in visible {
            if !visible[Input(k)].Retained? { return; }
            packet := visible[Input(k)].packet;
          } else {
            if Capture(k) in visible || !run.roomToClaim { return; }
            var exported;
            left, exported := Export(k, run, left);
            if exported.None? { return; }
            packet := exported.value;
          }
          var recorded;
          left, recorded := Record(k, packet, run, left);
          if !recorded { return; }
        }
      }
      assert Drive(At(Ending), run, left) == if left == 0 then At(Idle) else Sync(At(Idle), Idle) by {
        EndingRun(At(Ending), run, left);
      }
      if left == 0 { return; }
      SyncDirectory();
    }

    // Claim the window durably, ask the exporter, and retain its answer durably.
    method Export(k: nat, run: Run, steps: nat) returns (left: nat, packet: Option<Packet>)
      modifies this
      ensures clock == old(clock)
      ensures Drive(old(At(Claiming(k))), run, steps)
              == if packet.Some? then Drive(At(Measuring(k, packet.value)), run, left) else At(Idle)
    {
      ghost var s := At(Claiming(k));
      if steps == 0 { return 0, None; }
      var ok := LinkFile(Capture(k), Claimed);
      if !ok { return 0, None; }
      assert Drive(s, run, steps) == Drive(At(ClaimSync(k)), run, steps - 1);
      if steps == 1 { return 0, None; }
      SyncDirectory();
      assert Drive(s, run, steps) == Drive(At(Exporting(k)), run, steps - 2);
      if steps == 2 { return 0, None; }
      exports := exports + [k];
      if run.answer.None? {
        assert Drive(s, run, steps) == Drive(At(Idle), run, steps - 3);
        return 0, None;
      }
      answers := answers[k := run.answer.value];
      assert Drive(s, run, steps) == Drive(At(Storing(k, run.answer.value)), run, steps - 3);
      left, packet := Retain(k, run, steps - 3, run.answer.value);
    }

    method Retain(k: nat, run: Run, steps: nat, answer: Packet) returns (left: nat, packet: Option<Packet>)
      modifies this`visible, this`durable
      ensures Drive(old(At(Storing(k, answer))), run, steps)
              == if packet.Some? then Drive(At(Measuring(k, packet.value)), run, left) else At(Idle)
    {
      ghost var s := At(Storing(k, answer));
      if steps == 0 { return 0, None; }
      var ok := LinkFile(Input(k), Retained(answer));
      if !ok { return 0, None; }
      assert Drive(s, run, steps) == Drive(At(StoreSync(k, answer)), run, steps - 1);
      if steps == 1 { return 0, None; }
      SyncDirectory();
      return steps - 2, Some(answer);
    }

    method Record(k: nat, packet: Packet, run: Run, steps: nat) returns (left: nat, recorded: bool)
      modifies this`visible, this`durable
      ensures Drive(old(At(Measuring(k, packet))), run, steps)
              == if recorded then Drive(At(Ending), run, left) else At(Idle)
    {
      ghost var s := At(Measuring(k, packet));
      if steps == 0 { return 0, false; }
      if !packet.ok || !run.roomToReport {
        assert Drive(s, run, steps) == Drive(At(Idle), run, steps - 1);
        return 0, false;
      }
      var ok := LinkFile(Report(k), Measured(packet));
      if !ok { return 0, false; }
      assert Drive(s, run, steps) == Drive(At(ReportSync(k)), run, steps - 1);
      if steps == 1 { return 0, false; }
      SyncDirectory();
      return steps - 2, true;
    }

    method Scan(reg: Registration) returns (k: nat)
      ensures k == FirstOpen(reg, visible, 0)
    {
      k := 0;
      while k < reg.windows && Report(k) in visible
        invariant k <= reg.windows && FirstOpen(reg, visible, 0) == FirstOpen(reg, visible, k)
      {
        k := k + 1;
      }
    }
  }

  // ---------------------------------------------------------------- invariants

  ghost predicate ReportsBefore(durable: set<Name>, k: nat) { forall j: nat :: j < k ==> Report(j) in durable }

  // What the files say: an input is what the exporter answered, a report is
  // computed from it, both only after every earlier report is durable.
  ghost predicate FilesOk(s: State, reg: Registration) {
    s.durable <= s.visible.Keys
    && (forall k: nat :: Capture(k) in s.visible ==> s.visible[Capture(k)] == Claimed && Due(reg, k) <= s.clock)
    && (forall k: nat :: Input(k) in s.visible ==>
          k in s.answers && s.visible[Input(k)] == Retained(s.answers[k]) && ReportsBefore(s.durable, k)
          && Due(reg, k) <= s.clock)
    && (forall k: nat :: Report(k) in s.visible ==>
          k in s.answers && s.answers[k].ok && s.visible[Report(k)] == Measured(s.answers[k])
          && ReportsBefore(s.durable, k) && Due(reg, k) <= s.clock)
  }

  // What was asked: each window once, under a durable claim.
  ghost predicate ExportsOk(s: State) {
    (forall i :: 0 <= i < |s.exports| ==> Capture(s.exports[i]) in s.durable)
    && (forall i, j :: 0 <= i < j < |s.exports| ==> s.exports[i] != s.exports[j])
    && (forall k :: k in s.answers ==> k in s.exports)
  }

  ghost predicate Unanswered(s: State, k: nat) {
    k !in s.exports && Input(k) !in s.visible && Report(k) !in s.visible
  }

  ghost predicate PhaseOk(s: State, reg: Registration) {
    match s.phase
    case Idle => true
    case Ending => true
    case Claiming(k) =>
      Unanswered(s, k) && (forall j: nat :: j < k ==> Report(j) in s.visible) && Due(reg, k) <= s.clock
    case ClaimSync(k) =>
      Unanswered(s, k) && Capture(k) in s.visible && (forall j: nat :: j < k ==> Report(j) in s.visible)
      && Due(reg, k) <= s.clock
    case Exporting(k) =>
      Unanswered(s, k) && Capture(k) in s.durable && ReportsBefore(s.durable, k) && Due(reg, k) <= s.clock
    case Storing(k, p) =>
      k in s.answers && s.answers[k] == p && Input(k) !in s.visible && Report(k) !in s.visible
      && ReportsBefore(s.durable, k) && Due(reg, k) <= s.clock
    case StoreSync(k, p) => Input(k) in s.visible && s.visible[Input(k)] == Retained(p) && Report(k) !in s.visible
    case Measuring(k, p) => Input(k) in s.visible && s.visible[Input(k)] == Retained(p) && Report(k) !in s.visible
    case ReportSync(k) => Report(k) in s.visible
  }

  ghost predicate Inv(s: State, reg: Registration) { FilesOk(s, reg) && ExportsOk(s) && PhaseOk(s, reg) }

  lemma {:induction false} FirstOpenMeans(reg: Registration, visible: map<Name, Content>, k: nat)
    requires k <= reg.windows && forall j: nat :: j < k ==> Report(j) in visible
    ensures var f := FirstOpen(reg, visible, k);
            k <= f <= reg.windows && (forall j: nat :: j < f ==> Report(j) in visible)
            && (f < reg.windows ==> Report(f) !in visible)
    decreases reg.windows - k
  {
    if k < reg.windows && Report(k) in visible { FirstOpenMeans(reg, visible, k + 1); }
  }

  lemma BeginKeepsInv(s: State, reg: Registration, run: Run)
    requires Inv(s, reg) && s.phase.Idle?
    ensures Inv(Begun(s, reg, run), reg)
  {
    FirstOpenMeans(reg, s.visible, 0);
    hide FirstOpen, ReportsBefore;
    var k := FirstOpen(reg, s.visible, 0);
    var s' := Begun(s, reg, run);
    if s'.phase.Claiming? {
      assert Capture(k) !in s.durable;
      assert k !in s.exports;
    }
  }

  lemma LinkKeepsInv(s: State, reg: Registration, run: Run)
    requires Inv(s, reg) && (s.phase.Claiming? || s.phase.Storing? || s.phase.Measuring?)
    ensures Inv(Progress(s, run), reg)
  {
    hide ReportsBefore, Due;
    var k := s.phase.window;
    assert k !in s.exports ==> k !in s.answers;
  }

  lemma SyncKeepsInv(s: State, reg: Registration, next: Phase)
    requires Inv(s, reg) && PhaseOk(Sync(s, next), reg)
    ensures Inv(Sync(s, next), reg)
  {
  }

  lemma AskKeepsInv(s: State, reg: Registration, answer: Option<Packet>)
    requires Inv(s, reg) && s.phase.Exporting?
    ensures Inv(Asked(s, s.phase.window, answer), reg)
  {
    hide ReportsBefore, Due;
  }

  lemma ProgressKeepsInv(s: State, reg: Registration, run: Run)
    requires Inv(s, reg)
    ensures Inv(Progress(s, run), reg)
  {
    hide FilesOk, ExportsOk, Due, Link, Sync, Asked;
    match s.phase
    case Idle =>
    case Claiming(_) => LinkKeepsInv(s, reg, run);
    case Storing(_, _) => LinkKeepsInv(s, reg, run);
    case Measuring(_, _) => LinkKeepsInv(s, reg, run);
    case Exporting(_) => AskKeepsInv(s, reg, run.answer);
    case ClaimSync(k) => SyncedPhases(s, reg); SyncKeepsInv(s, reg, Exporting(k));
    case StoreSync(k, p) => SyncedPhases(s, reg); SyncKeepsInv(s, reg, Measuring(k, p));
    case ReportSync(_) => SyncedPhases(s, reg); SyncKeepsInv(s, reg, Ending);
    case Ending => SyncedPhases(s, reg); SyncKeepsInv(s, reg, Idle);
  }

  lemma SyncedPhases(s: State, reg: Registration)
    requires PhaseOk(s, reg)
    ensures s.phase.ClaimSync? ==> PhaseOk(Sync(s, Exporting(s.phase.window)), reg)
    ensures s.phase.StoreSync? ==> PhaseOk(Sync(s, Measuring(s.phase.window, s.phase.packet)), reg)
    ensures PhaseOk(Sync(s, Ending), reg) && PhaseOk(Sync(s, Idle), reg)
  {
  }

  lemma CrashKeepsInv(s: State, reg: Registration, keep: set<Name>)
    requires Inv(s, reg)
    ensures Inv(AfterCrash(s, keep), reg)
  {
    hide Due;
  }

  lemma NextKeepsInv(s: State, reg: Registration, e: Event)
    requires Inv(s, reg)
    ensures Inv(Next(s, reg, e), reg)
  {
    hide FilesOk, ExportsOk, Progress, AfterCrash, Begun;
    match e
    case Start(run) => if s.phase.Idle? { BeginKeepsInv(s, reg, run); }
    case Step(run) => ProgressKeepsInv(s, reg, run);
    case Kill => KillKeepsInv(s, reg);
    case Crash(keep) => CrashKeepsInv(s, reg, keep);
  }

  lemma KillKeepsInv(s: State, reg: Registration)
    requires Inv(s, reg)
    ensures Inv(s.(phase := Idle), reg)
  {
  }

  lemma {:induction false} RunKeepsInv(s: State, reg: Registration, events: seq<Event>)
    requires Inv(s, reg)
    ensures Inv(RunAll(s, reg, events), reg)
  {
    hide Inv, Next;
    if events != [] {
      RunKeepsInv(s, reg, events[..|events| - 1]);
      NextKeepsInv(RunAll(s, reg, events[..|events| - 1]), reg, events[|events| - 1]);
    }
  }

  // Main result: over every sequence of runs, kills and crashes each window is
  // exported at most once, reports form a gap-free prefix, none appears before
  // its window's end plus five minutes, and each is computed from what the
  // exporter answered, which is also what the retained input holds.
  lemma CollectedSafely(reg: Registration, events: seq<Event>)
    ensures var s := RunAll(EMPTY, reg, events);
            (forall i, j :: 0 <= i < j < |s.exports| ==> s.exports[i] != s.exports[j])
            && (forall j: nat, k: nat :: j < k && Report(k) in s.visible ==>
                  Report(j) in s.visible && Report(j) in s.durable)
            && (forall k: nat :: Report(k) in s.visible ==>
                  Due(reg, k) <= s.clock && k in s.answers && s.answers[k].ok
                  && s.visible[Report(k)] == Measured(s.answers[k]))
            && (forall k: nat :: Input(k) in s.visible ==>
                  k in s.answers && s.visible[Input(k)] == Retained(s.answers[k]))
            && (forall k: nat :: k in s.answers ==> k in s.exports)
  {
    hide RunAll, Due;
    assert Inv(EMPTY, reg);
    RunKeepsInv(EMPTY, reg, events);
  }

  // ------------------------------------------------------------ a blocked claim

  predicate Concerns(phase: Phase, k: nat) { !phase.Idle? && !phase.Ending? && phase.window >= k }

  // A durable claim whose input never arrived, and no run inside that window.
  ghost predicate Blocked(s: State, k: nat) {
    Capture(k) in s.durable && Input(k) !in s.visible && Report(k) !in s.visible && !Concerns(s.phase, k)
  }

  lemma NextStaysBlocked(s: State, reg: Registration, e: Event, k: nat)
    requires Inv(s, reg) && Blocked(s, k)
    ensures Blocked(Next(s, reg, e), k)
    ensures var t := Next(s, reg, e).exports;
            t == s.exports || (|t| == |s.exports| + 1 && t == s.exports + [t[|s.exports|]] && t[|s.exports|] < k)
  {
    hide ExportsOk, PhaseOk, Due;
    if e.Start? && s.phase.Idle? {
      FirstOpenMeans(reg, s.visible, 0);
      var f := FirstOpen(reg, s.visible, 0);
      hide FirstOpen;
      assert f <= k;
    }
  }

  // A claim with no input blocks its window and all later ones for ever.
  lemma {:induction false} BlockedForEver(s: State, reg: Registration, events: seq<Event>, k: nat)
    requires Inv(s, reg) && Blocked(s, k)
    ensures var s' := RunAll(s, reg, events);
            Blocked(s', k) && s.exports <= s'.exports
            && (forall i :: |s.exports| <= i < |s'.exports| ==> s'.exports[i] < k)
            && forall j: nat :: k <= j ==> Input(j) !in s'.visible && Report(j) !in s'.visible
  {
    hide Next, Due, ExportsOk, PhaseOk;
    if events != [] {
      var before := RunAll(s, reg, events[..|events| - 1]);
      BlockedForEver(s, reg, events[..|events| - 1], k);
      RunKeepsInv(s, reg, events[..|events| - 1]);
      NextStaysBlocked(before, reg, events[|events| - 1], k);
      NextKeepsInv(before, reg, events[|events| - 1]);
    }
  }

  // --------------------------------------------- when a report can lose its input

  ghost predicate InputsRetained(s: State) { forall k: nat :: Report(k) in s.visible ==> Input(k) in s.visible }

  ghost predicate Anchored(s: State) { forall k: nat :: Report(k) in s.visible ==> Input(k) in s.durable }

  // No crash can part a report from its input exactly when every report that
  // can be seen has a durable input.
  lemma CrashKeepsInputs(s: State, reg: Registration)
    requires FilesOk(s, reg)
    ensures (forall keep :: InputsRetained(AfterCrash(s, keep))) <==> Anchored(s)
  {
    hide Due, ReportsBefore;
    if !Anchored(s) {
      var k: nat :| Report(k) in s.visible && Input(k) !in s.durable;
      var after := AfterCrash(s, {Report(k)});
      assert Report(k) in after.visible && Input(k) !in after.visible;
      assert !InputsRetained(after);
    }
  }

  // The one place where being killed is dangerous: an input linked but not synced.
  predicate Unsafe(s: State, e: Event) { e.Kill? && s.phase.StoreSync? }

  ghost predicate Careful(s: State, reg: Registration, events: seq<Event>) {
    events == []
    || (Careful(s, reg, events[..|events| - 1])
        && !Unsafe(RunAll(s, reg, events[..|events| - 1]), events[|events| - 1]))
  }

  ghost predicate InputsDurable(s: State) {
    Anchored(s)
    && (forall k: nat :: Input(k) in s.visible ==> Input(k) in s.durable || (s.phase.StoreSync? && s.phase.window == k))
  }

  lemma NextKeepsInputs(s: State, reg: Registration, e: Event)
    requires Inv(s, reg) && InputsDurable(s) && !Unsafe(s, e)
    ensures InputsDurable(Next(s, reg, e))
  {
    FirstOpenMeans(reg, s.visible, 0);
    hide FirstOpen, Due, ReportsBefore;
  }

  // Unless a run is killed at that place, every report keeps its input, whatever
  // else is killed and whatever crashes lose.
  lemma {:induction false} ReportsKeepInputs(reg: Registration, events: seq<Event>)
    requires Careful(EMPTY, reg, events)
    ensures var s := RunAll(EMPTY, reg, events);
            InputsDurable(s) && InputsRetained(s) && forall keep :: InputsRetained(AfterCrash(s, keep))
  {
    var s := RunAll(EMPTY, reg, events);
    assert Inv(EMPTY, reg);
    RunKeepsInv(EMPTY, reg, events);
    if events != [] {
      var front := events[..|events| - 1];
      ReportsKeepInputs(reg, front);
      RunKeepsInv(EMPTY, reg, front);
      NextKeepsInputs(RunAll(EMPTY, reg, front), reg, events[|events| - 1]);
    }
    CrashKeepsInputs(s, reg);
    hide RunAll;
  }

  lemma Then(reg: Registration, events: seq<Event>, e: Event) returns (longer: seq<Event>)
    ensures forall s :: RunAll(s, reg, longer) == Next(RunAll(s, reg, events), reg, e)
  {
    longer := events + [e];
    assert longer[..|events|] == events;
  }

  // A run of `Collect`, however short it is cut, is one of the runs above.
  lemma CollectIsARun(s: State, reg: Registration, run: Run, steps: nat) returns (events: seq<Event>)
    requires s.phase.Idle?
    ensures RunAll(s, reg, events) == Drive(Begun(s, reg, run), run, steps)
  {
    hide Progress, Begun;
    events := Then(reg, [], Start(run));
    var done := 0;
    while done < steps && !RunAll(s, reg, events).phase.Idle?
      invariant 0 <= done <= steps
      invariant Drive(RunAll(s, reg, events), run, steps - done) == Drive(Begun(s, reg, run), run, steps)
    {
      events := Then(reg, events, Step(run));
      done := done + 1;
    }
    events := Then(reg, events, Kill);
  }

  // A run killed right after it linked its input.
  lemma KilledThere(reg: Registration, run: Run, packet: Packet) returns (events: seq<Event>)
    requires reg == Registration(0, 1) && run == Run(Due(reg, 0), false, true, true, true, Some(packet))
    ensures RunAll(EMPTY, reg, events)
            == State(map[Capture(0) := Claimed, Input(0) := Retained(packet)], {Capture(0)}, [0], map[0 := packet],
                     run.now, Idle)
  {
    events := [];
    assert RunAll(EMPTY, reg, events) == EMPTY;
    hide RunAll;
    events := Then(reg, events, Start(run));
    assert RunAll(EMPTY, reg, events) == State(map[], {}, [], map[], run.now, Claiming(0));
    events := Then(reg, events, Step(run));
    events := Then(reg, events, Step(run));
    assert RunAll(EMPTY, reg, events)
           == State(map[Capture(0) := Claimed], {Capture(0)}, [], map[], run.now, Exporting(0));
    events := Then(reg, events, Step(run));
    events := Then(reg, events, Step(run));
    events := Then(reg, events, Kill);
  }

  // Killed at that place, a run can leave a report whose input a crash then takes.
  lemma KilledThereLosesInput() returns (reg: Registration, events: seq<Event>)
    ensures !InputsRetained(RunAll(EMPTY, reg, events))
  {
    reg := Registration(0, 1);
    var packet := Packet("", true);
    var run := Run(Due(reg, 0), false, true, true, true, Some(packet));
    events := KilledThere(reg, run, packet);
    hide RunAll;
    events := Then(reg, events, Start(run));
    assert RunAll(EMPTY, reg, events).phase == Measuring(0, packet);
    events := Then(reg, events, Step(run));
    var reported := RunAll(EMPTY, reg, events);
    assert Report(0) in reported.visible && Input(0) !in reported.durable;
    hide Progress, Begun, Chosen;
    events := Then(reg, events, Crash({Report(0)}));
    var lost := RunAll(EMPTY, reg, events);
    assert Report(0) in lost.visible && Input(0) !in lost.visible;
  }
}
