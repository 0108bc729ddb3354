// The claim-then-dispatch protocol around a provider call, with crashes.
// A run owns the lock and moves through program points; every publication is
// two steps (the file appears, then it is synced), and a crash keeps any set of
// entries between the synced and the visible ones.
module ProviderProtocol {
  import opened Common
  import opened Budget

  type Id = string

  datatype Route = Api | Subscription

  datatype File = Request | Prompt | NotDispatched | Claim | ApiRequest | Marker | Result | Failure

  datatype Point =
    | AtRequest | AtPrompt | AtReserve | AtClaim | AtSyncRoot | AtSyncParent
    | AtApiRequest | AtDispatch | AtMarker | AtCall | AtOutcome | AtResult | AtFailure

  datatype Job = Job(files: set<File>, synced: set<File>)

  // `half`: the file of the current publication is visible but not synced.
  datatype Proc = Proc(id: Id, route: Route, prompt: string, point: Point, half: bool)

  // A provider call, with what was on disk when it was made.
  datatype Call = Call(id: Id, route: Route, claimSafe: bool, row: Option<Budget.Status>)

  datatype State = State(
    jobs: map<Id, Job>, syncedJobs: set<Id>, rootSynced: bool,
    ledger: Ledger, creditExhausted: bool, proc: Option<Proc>, calls: seq<Call>, today: int)

  datatype Settings = Settings(dailyLimit: int, fallback: bool)

  datatype Outcome =
    | Usage(input: nat, cached: nat, output: nat)
    | Rejected(creditExhausted: bool, pause: bool)
    | Unreadable

  datatype Event =
    | Start(id: Id, route: Route, prompt: string)
    | Step
    | Raise                                  // the current step raises
    | Answer(outcome: Outcome)               // what the API call comes back with
    | Kill                                   // the process dies, the kernel survives
    | Crash(keepRoot: bool, keepJobs: set<Id>, keepFiles: map<Id, set<File>>)
    | Operator(policy: Policy)
    | Days(count: nat)

  function Estimate(p: Proc): int { PromptEstimate(|p.prompt|) }

  function AddFile(jobs: map<Id, Job>, id: Id, f: File): map<Id, Job>
    requires id in jobs
  {
    jobs[id := jobs[id].(files := jobs[id].files + {f})]
  }

  // Syncing the directory persists every entry in it.
  function SyncFiles(jobs: map<Id, Job>, id: Id): map<Id, Job>
    requires id in jobs
  {
    jobs[id := jobs[id].(synced := jobs[id].files)]
  }

  // Exclusive creation, then the sync; then on to `next`.
  function Publish(s: State, f: File, next: Option<Point>): State
    requires s.proc.Some? && s.proc.value.id in s.jobs
  {
    var p := s.proc.value;
    if !p.half then s.(jobs := AddFile(s.jobs, p.id, f), proc := Some(p.(half := true)))
    else s.(jobs := SyncFiles(s.jobs, p.id),
            proc := if next.Some? then Some(p.(point := next.value, half := false)) else None)
  }

  function Goto(s: State, point: Point): State
    requires s.proc.Some?
  {
    s.(proc := Some(s.proc.value.(point := point, half := false)))
  }

  // A raise before the try block leaves the job as it is; inside, it publishes
  // the failure record.
  function Raised(s: State): State
    requires s.proc.Some?
  {
    match s.proc.value.point
    case AtApiRequest | AtDispatch | AtMarker | AtCall | AtOutcome | AtResult => Goto(s, AtFailure)
    case _ => s.(proc := None)
  }

  function ReserveOp(p: Proc, limit: int, today: int): Op {
    Reserve(p.id, Estimate(p), "trading-api", p.prompt, Some(limit), today)
  }

  function ReserveStep(s: State, settings: Settings): State
    requires s.proc.Some? && s.proc.value.id in s.jobs
  {
    var p := s.proc.value;
    if settings.fallback && s.ledger.policy.paused && s.creditExhausted then
      s.(proc := Some(p.(point := AtClaim, route := Subscription, half := false)))
    else
      var (ledger, reply) := Apply(s.ledger, ReserveOp(p, settings.dailyLimit, s.today));
      var s' := s.(ledger := ledger);
      if reply.Admitted? then Goto(s', AtClaim)
      else if reply.ReservationInvalid? || reply.ReservationChanged? then s'.(proc := None)
      else
        var noted := s'.(jobs := SyncFiles(AddFile(s.jobs, p.id, NotDispatched), p.id));
        if settings.fallback && reply.WaitingBudget?
        then noted.(proc := Some(p.(point := AtClaim, route := Subscription, half := false)))
        else noted.(proc := None)
  }

  function CallStep(s: State): State
    requires s.proc.Some? && s.proc.value.id in s.jobs
  {
    var p := s.proc.value;
    var safe := s.rootSynced && p.id in s.syncedJobs && Claim in s.jobs[p.id].synced;
    var k := Find(s.ledger.rows, p.id);
    var row := if k.Some? then Some(s.ledger.rows[k.value].status) else None;
    Goto(s.(calls := s.calls + [Call(p.id, p.route, safe, row)]), if p.route.Api? then AtOutcome else AtResult)
  }

  function Progress(s: State, settings: Settings): State
    requires s.proc.Some? && s.proc.value.id in s.jobs
  {
    var p := s.proc.value;
    match p.point
    case AtRequest => Publish(s, Request, Some(AtPrompt))
    case AtPrompt => Publish(s, Prompt, Some(if p.route.Api? then AtReserve else AtClaim))
    case AtReserve => ReserveStep(s, settings)
    case AtClaim => Publish(s, Claim, Some(AtSyncRoot))
    case AtSyncRoot => Goto(s.(syncedJobs := s.jobs.Keys), AtSyncParent)
    case AtSyncParent => Goto(s.(rootSynced := true), if p.route.Api? then AtApiRequest else AtCall)
    case AtApiRequest =>
      if Marker in s.jobs[p.id].files then Goto(s, AtFailure) else Publish(s, ApiRequest, Some(AtDispatch))
    case AtDispatch =>
      var (ledger, reply) := Apply(s.ledger, Dispatch(p.id, s.today));
      if reply.Done? then Goto(s.(ledger := ledger), AtMarker) else Goto(s, AtFailure)
    case AtMarker => Publish(s, Marker, Some(AtCall))
    case AtCall => CallStep(s)
    case AtOutcome => s
    case AtResult => Publish(s, Result, None)
    case AtFailure => Publish(s, Failure, None)
  }

  function Settled(s: State, actual: Option<int>, point: Point): State
    requires s.proc.Some?
  {
    Goto(s.(ledger := Apply(s.ledger, Settle(s.proc.value.id, actual)).0), point)
  }

  function Answered(s: State, outcome: Outcome): State
    requires s.proc.Some?
  {
    match outcome
    case Usage(input, cached, output) =>
      if cached <= input then Settled(s, Some(UsageCost(input, cached, output)), AtResult)
      else Settled(s, None, AtFailure)
    case Rejected(credit, pause) =>
      var policy := if pause then s.ledger.policy.(paused := true) else s.ledger.policy;
      Settled(s.(creditExhausted := s.creditExhausted || credit, ledger := Apply(s.ledger, Update(policy)).0),
              None, AtFailure)
    case Unreadable => Settled(s, None, AtFailure)
  }

  // What a crash leaves: synced entries for certain, others at its whim; what
  // it leaves is on disk.
  function AfterCrash(s: State, keepRoot: bool, keepJobs: set<Id>, keepFiles: map<Id, set<File>>): State {
    var jobs := if s.rootSynced || keepRoot
      then map id | id in s.jobs && (id in s.syncedJobs || id in keepJobs) ::
             var left := s.jobs[id].synced + (if id in keepFiles then s.jobs[id].files * keepFiles[id] else {});
             Job(left, left)
      else map[];
    s.(jobs := jobs, syncedJobs := jobs.Keys, rootSynced := s.rootSynced || keepRoot, proc := None)
  }

  function Next(s: State, settings: Settings, e: Event): State {
    match e
    case Start(id, route, prompt) =>
      if s.proc.Some? || id in s.jobs then s
      else s.(jobs := s.jobs[id := Job({}, {})], proc := Some(Proc(id, route, prompt, AtRequest, false)))
    case Step => if s.proc.Some? && s.proc.value.id in s.jobs then Progress(s, settings) else s
    case Raise => if s.proc.Some? then Raised(s) else s
    case Answer(outcome) => if s.proc.Some? && s.proc.value.point.AtOutcome? then Answered(s, outcome) else s
    case Kill => s.(proc := None)
    case Crash(keepRoot, keepJobs, keepFiles) => AfterCrash(s, keepRoot, keepJobs, keepFiles)
    case Operator(policy) => s.(ledger := Apply(s.ledger, Update(policy)).0)
    case Days(count) => s.(today := s.today + count)
  }

  function RunAll(s: State, settings: Settings, events: seq<Event>): State
    decreases events
  {
    if events == [] then s else RunAll(Next(s, settings, events[0]), settings, events[1..])
  }

  function Initial(policy: Policy, today: int): State {
    State(map[], {}, false, Ledger([], policy), false, None, [], today)
  }

  // ------------------------------------------------------------- invariant

  predicate Called(s: State, id: Id) { exists i :: 0 <= i < |s.calls| && s.calls[i].id == id }

  // A job no crash can lose.
  predicate Safe(s: State, id: Id) {
    s.rootSynced && id in s.syncedJobs && id in s.jobs && Claim in s.jobs[id].synced
  }

  predicate PastClaim(point: Point) {
    !(point.AtRequest? || point.AtPrompt? || point.AtReserve? || point.AtClaim?)
  }

  predicate PastSync(point: Point) { PastClaim(point) && !point.AtSyncRoot? && !point.AtSyncParent? }

  predicate BeforeCall(point: Point) { !(point.AtOutcome? || point.AtResult? || point.AtFailure?) }

  // Points only an API run reaches.
  predicate ApiOnly(point: Point) {
    point.AtReserve? || point.AtApiRequest? || point.AtDispatch? || point.AtMarker? || point.AtOutcome?
  }

  predicate NeedsRow(point: Point) {
    (BeforeCall(point) && !point.AtRequest? && !point.AtPrompt? && !point.AtReserve?) || point.AtOutcome?
  }

  predicate NeedsDispatch(point: Point) { point.AtMarker? || point.AtCall? || point.AtOutcome? }

  // An API run's reservation: present from the reserve step on, dispatched
  // from the dispatch step to the answer.
  ghost predicate RowReady(rows: seq<Row>, p: Proc) {
    p.route.Api? && NeedsRow(p.point) ==>
      var row := RowOf(rows, p.id);
      row.Some? && row.value.estimate == Estimate(p) && (NeedsDispatch(p.point) ==> row.value.status.Dispatched?)
  }

  // How far the run has got on disk.
  predicate DiskReady(s: State, p: Proc) {
    p.id in s.jobs
    && (PastClaim(p.point) ==> Claim in s.jobs[p.id].synced)
    && (PastClaim(p.point) && !p.point.AtSyncRoot? ==> p.id in s.syncedJobs)
    && (PastSync(p.point) ==> s.rootSynced)
    && (p.half && p.point.AtClaim? ==> Claim in s.jobs[p.id].files)
  }

  ghost predicate ProcOk(s: State) {
    s.proc.Some? ==>
      var p := s.proc.value;
      DiskReady(s, p) && RowReady(s.ledger.rows, p)
      && (BeforeCall(p.point) ==> !Called(s, p.id)) && (ApiOnly(p.point) ==> p.route.Api?)
  }

  predicate JobsOk(s: State) {
    s.syncedJobs <= s.jobs.Keys && forall id :: id in s.jobs ==> s.jobs[id].synced <= s.jobs[id].files
  }

  ghost predicate CallOk(s: State, c: Call) {
    Safe(s, c.id) && c.claimSafe
    && (c.route.Api? ==>
          c.row == Some(Budget.Dispatched) && RowOf(s.ledger.rows, c.id).Some?
          && !RowOf(s.ledger.rows, c.id).value.status.Reserved?)
  }

  ghost predicate CallsOk(s: State) {
    (forall i :: 0 <= i < |s.calls| ==> CallOk(s, s.calls[i]))
    && (forall i, j :: 0 <= i < j < |s.calls| ==> s.calls[i].id != s.calls[j].id)
  }

  ghost predicate Inv(s: State) {
    JobsOk(s) && WellFormed(s.ledger.rows, s.today) && ProcOk(s) && CallsOk(s)
  }

  // Nothing a past call relies on is taken away.
  ghost predicate Keeps(s: State, s': State) {
    s'.calls == s.calls && RowsFollow(s.ledger.rows, s'.ledger.rows) && forall id :: Safe(s, id) ==> Safe(s', id)
  }

  lemma CallsKept(s: State, s': State)
    requires CallsOk(s) && Keeps(s, s')
    ensures CallsOk(s')
  {
    forall i | 0 <= i < |s'.calls| ensures CallOk(s', s'.calls[i]) { assert CallOk(s, s.calls[i]); }
  }

  lemma SameRows(rows: seq<Row>)
    ensures RowsFollow(rows, rows)
  {
  }

  lemma PublishKeepsInv(s: State, f: File, next: Option<Point>)
    requires Inv(s) && s.proc.Some? && (s.proc.value.point.AtClaim? ==> f.Claim?)
    requires next.Some? ==> var p := s.proc.value;
      (PastClaim(next.value) ==> PastClaim(p.point) || (p.point.AtClaim? && next.value.AtSyncRoot?))
      && (PastClaim(next.value) && !next.value.AtSyncRoot? ==> PastClaim(p.point) && !p.point.AtSyncRoot?)
      && (PastSync(next.value) ==> PastSync(p.point))
      && BeforeCall(p.point) && BeforeCall(next.value)
      && (p.route.Api? && NeedsRow(next.value) ==> NeedsRow(p.point))
      && (NeedsDispatch(next.value) ==> NeedsDispatch(p.point))
      && (ApiOnly(next.value) ==> p.route.Api?)
    ensures Inv(Publish(s, f, next))
  {
    hide WellFormed, RowsFollow, RowOf, CallsOk;
    var s' := Publish(s, f, next);
    SameRows(s.ledger.rows);
    assert forall id :: Safe(s, id) ==> Safe(s', id);
    CallsKept(s, s');
  }

  lemma GotoKeepsInv(s: State, s': State, point: Point)
    requires Inv(s) && s.proc.Some? && s'.proc == Some(s.proc.value.(point := point, half := false))
    requires JobsOk(s') && WellFormed(s'.ledger.rows, s'.today) && Keeps(s, s')
    requires DiskReady(s', s'.proc.value) && RowReady(s'.ledger.rows, s'.proc.value)
    requires BeforeCall(point) ==> BeforeCall(s.proc.value.point)
    requires ApiOnly(point) ==> s.proc.value.route.Api?
    ensures Inv(s')
  {
    CallsKept(s, s');
  }

  lemma ReserveLedger(l: Ledger, p: Proc, limit: int, today: int)
    requires WellFormed(l.rows, today)
    ensures var (l', reply) := Apply(l, ReserveOp(p, limit, today));
            WellFormed(l'.rows, today) && RowsFollow(l.rows, l'.rows)
            && (reply.Admitted? ==>
                  var row := RowOf(l'.rows, p.id); row.Some? && row.value.estimate == Estimate(p))
  {
    var (l', reply) := Apply(l, ReserveOp(p, limit, today));
    StepFollows(l, ReserveOp(p, limit, today), today);
    if reply.Admitted? && Find(l.rows, p.id).None? { FindUnique(l'.rows, today, |l.rows|); }
  }

  lemma ReserveKeepsInv(s: State, settings: Settings)
    requires Inv(s) && s.proc.Some? && s.proc.value.point.AtReserve? && s.proc.value.route.Api?
    ensures Inv(ReserveStep(s, settings))
  {
    hide Apply, RowOf, WellFormed, RowsFollow, Find;
    var p, s' := s.proc.value, ReserveStep(s, settings);
    ReserveLedger(s.ledger, p, settings.dailyLimit, s.today);
    SameRows(s.ledger.rows);
    CallsKept(s, s');
  }

  lemma DispatchKeepsInv(s: State, settings: Settings)
    requires Inv(s) && s.proc.Some? && s.proc.value.point.AtDispatch? && s.proc.value.route.Api?
    ensures Inv(Progress(s, settings))
  {
    var p, s' := s.proc.value, Progress(s, settings);
    var op := Dispatch(p.id, s.today);
    StepFollows(s.ledger, op, s.today);
    SameRows(s.ledger.rows);
    if Apply(s.ledger, op).1.Done? {
      FindUnique(s'.ledger.rows, s.today, Find(s.ledger.rows, p.id).value);
      GotoKeepsInv(s, s', AtMarker);
    } else {
      GotoKeepsInv(s, s', AtFailure);
    }
  }

  lemma CallKeepsInv(s: State)
    requires Inv(s) && s.proc.Some? && s.proc.value.point.AtCall?
    ensures Inv(CallStep(s))
  {
    var p, s' := s.proc.value, CallStep(s);
    assert Safe(s, p.id);
    forall i | 0 <= i < |s.calls| ensures CallOk(s', s.calls[i]) && s.calls[i].id != p.id {
      assert CallOk(s, s.calls[i]);
    }
    assert CallOk(s', s'.calls[|s.calls|]);
  }

  lemma SyncKeepsInv(s: State, settings: Settings)
    requires Inv(s) && s.proc.Some? && (s.proc.value.point.AtSyncRoot? || s.proc.value.point.AtSyncParent?)
    ensures Inv(Progress(s, settings))
  {
    hide Apply, ReserveStep, CallStep, Publish;
    var s' := Progress(s, settings);
    SameRows(s.ledger.rows);
    GotoKeepsInv(s, s', s'.proc.value.point);
  }

  lemma ApiRequestKeepsInv(s: State, settings: Settings)
    requires Inv(s) && s.proc.Some? && s.proc.value.point.AtApiRequest?
    ensures Inv(Progress(s, settings))
  {
    hide Apply, ReserveStep, CallStep;
    SameRows(s.ledger.rows);
    if Marker in s.jobs[s.proc.value.id].files {
      GotoKeepsInv(s, Progress(s, settings), AtFailure);
    } else {
      PublishKeepsInv(s, ApiRequest, Some(AtDispatch));
    }
  }

  lemma FilesKeepInv(s: State, settings: Settings)
    requires Inv(s) && s.proc.Some?
    requires var point := s.proc.value.point;
      point.AtRequest? || point.AtPrompt? || point.AtClaim? || point.AtMarker? || point.AtResult? || point.AtFailure?
    ensures Inv(Progress(s, settings))
  {
    hide Apply, ReserveStep, CallStep, Publish;
    var p := s.proc.value;
    match p.point
    case AtRequest => PublishKeepsInv(s, Request, Some(AtPrompt));
    case AtPrompt => PublishKeepsInv(s, Prompt, Some(if p.route.Api? then AtReserve else AtClaim));
    case AtClaim => PublishKeepsInv(s, Claim, Some(AtSyncRoot));
    case AtMarker => PublishKeepsInv(s, Marker, Some(AtCall));
    case AtResult => PublishKeepsInv(s, Result, None);
    case AtFailure => PublishKeepsInv(s, Failure, None);
  }

  lemma ProgressKeepsInv(s: State, settings: Settings)
    requires Inv(s) && s.proc.Some?
    ensures Inv(Progress(s, settings))
  {
    hide Apply, ReserveStep, CallStep, Publish, WellFormed, RowsFollow, CallsOk, RowReady, DiskReady;
    match s.proc.value.point
    case AtReserve => ReserveKeepsInv(s, settings);
    case AtDispatch => DispatchKeepsInv(s, settings);
    case AtCall => CallKeepsInv(s);
    case AtOutcome =>
    case AtSyncRoot | AtSyncParent => SyncKeepsInv(s, settings);
    case AtApiRequest => ApiRequestKeepsInv(s, settings);
    case _ => FilesKeepInv(s, settings);
  }

  lemma AnswerKeepsInv(s: State, outcome: Outcome)
    requires Inv(s) && s.proc.Some? && s.proc.value.point.AtOutcome?
    ensures Inv(Answered(s, outcome))
  {
    var s' := Answered(s, outcome);
    var actual := if outcome.Usage? && outcome.cached <= outcome.input
      then Some(UsageCost(outcome.input, outcome.cached, outcome.output)) else None;
    var op, l := Settle(s.proc.value.id, actual), Ledger(s.ledger.rows, s'.ledger.policy);
    StepFollows(l, op, s.today);
    assert s'.ledger == Apply(l, op).0;
    GotoKeepsInv(s, s', s'.proc.value.point);
  }

  lemma CrashKeepsInv(s: State, keepRoot: bool, keepJobs: set<Id>, keepFiles: map<Id, set<File>>)
    requires Inv(s)
    ensures Inv(AfterCrash(s, keepRoot, keepJobs, keepFiles))
  {
    SameRows(s.ledger.rows);
    CallsKept(s, AfterCrash(s, keepRoot, keepJobs, keepFiles));
  }

  lemma StartKeepsInv(s: State, settings: Settings, id: Id, route: Route, prompt: string)
    requires Inv(s)
    ensures Inv(Next(s, settings, Start(id, route, prompt)))
  {
    SameRows(s.ledger.rows);
    forall i | 0 <= i < |s.calls| ensures s.calls[i].id in s.jobs { assert CallOk(s, s.calls[i]); }
    CallsKept(s, Next(s, settings, Start(id, route, prompt)));
  }

  lemma NextKeepsInv(s: State, settings: Settings, e: Event)
    requires Inv(s)
    ensures Inv(Next(s, settings, e))
  {
    hide Progress, Answered, AfterCrash, WellFormed, Apply, RowsFollow;
    SameRows(s.ledger.rows);
    UpdateKeepsRows(s.ledger);
    match e
    case Start(id, route, prompt) => StartKeepsInv(s, settings, id, route, prompt);
    case Step => if s.proc.Some? { ProgressKeepsInv(s, settings); }
    case Answer(outcome) => if s.proc.Some? && s.proc.value.point.AtOutcome? { AnswerKeepsInv(s, outcome); }
    case Crash(keepRoot, keepJobs, keepFiles) => CrashKeepsInv(s, keepRoot, keepJobs, keepFiles);
    case Days(count) =>
      LaterWellFormed(s.ledger.rows, s.today, s.today + count);
      CallsKept(s, Next(s, settings, e));
    case Operator(_) => CallsKept(s, Next(s, settings, e));
    case Kill => CallsKept(s, Next(s, settings, e));
    case Raise => RaiseKeepsInv(s);
  }

  lemma RaiseKeepsInv(s: State)
    requires Inv(s)
    ensures s.proc.Some? ==> Inv(Raised(s))
  {
    hide WellFormed, RowsFollow, RowOf;
    SameRows(s.ledger.rows);
    if s.proc.Some? { CallsKept(s, Raised(s)); }
  }

  lemma UpdateKeepsRows(l: Ledger)
    ensures forall policy :: Apply(l, Update(policy)).0 == l.(policy := policy)
  {
  }

  lemma LaterWellFormed(rows: seq<Row>, now: int, later: int)
    requires WellFormed(rows, now) && now <= later
    ensures WellFormed(rows, later)
  {
  }

  lemma {:induction false} RunKeepsInv(s: State, settings: Settings, events: seq<Event>)
    requires Inv(s)
    ensures Inv(RunAll(s, settings, events))
    decreases events
  {
    if events != [] {
      NextKeepsInv(s, settings, events[0]);
      RunKeepsInv(Next(s, settings, events[0]), settings, events[1..]);
    }
  }

  // ----------------------------------------------------------- main results

  function CallsOf(calls: seq<Call>, id: Id): nat {
    if calls == [] then 0
    else CallsOf(calls[..|calls| - 1], id) + (if calls[|calls| - 1].id == id then 1 else 0)
  }

  lemma {:induction false} DistinctCallsOnce(calls: seq<Call>, id: Id)
    requires forall i, j :: 0 <= i < j < |calls| ==> calls[i].id != calls[j].id
    ensures CallsOf(calls, id) <= 1
    ensures CallsOf(calls, id) == 0 || exists i :: 0 <= i < |calls| && calls[i].id == id
  {
    if calls != [] {
      DistinctCallsOnce(calls[..|calls| - 1], id);
    }
  }

  // Over every sequence of runs, raises, kills and crashes, each analysis id
  // causes at most one provider call, API or subscription.
  lemma AtMostOneCall(policy: Policy, today: int, settings: Settings, events: seq<Event>, id: Id)
    ensures CallsOf(RunAll(Initial(policy, today), settings, events).calls, id) <= 1
  {
    RunKeepsInv(Initial(policy, today), settings, events);
    DistinctCallsOnce(RunAll(Initial(policy, today), settings, events).calls, id);
  }

  // Every call was made with its claim on disk, and every API call with its
  // row DISPATCHED; the row is never RESERVED again, and while no usage is
  // reported its whole estimate is charged to every day.
  lemma CallsAreCovered(policy: Policy, today: int, settings: Settings, events: seq<Event>, i: nat, day: int)
    requires i < |RunAll(Initial(policy, today), settings, events).calls|
    ensures var s := RunAll(Initial(policy, today), settings, events);
            var c := s.calls[i];
            c.claimSafe && Safe(s, c.id)
            && (c.route.Api? ==>
                  c.row == Some(Budget.Dispatched)
                  && var row := RowOf(s.ledger.rows, c.id);
                     row.Some? && !row.value.status.Reserved?
                     && (!row.value.status.Complete? ==> Charged(s.ledger.rows, day) >= row.value.estimate))
  {
    RunKeepsInv(Initial(policy, today), settings, events);
    var s := RunAll(Initial(policy, today), settings, events);
    assert CallOk(s, s.calls[i]);
    if s.calls[i].route.Api? {
      var k := Find(s.ledger.rows, s.calls[i].id).value;
      if !s.ledger.rows[k].status.Complete? { UnreportedIsCharged(s.ledger.rows, k, s.today, day); }
    }
  }

  // A step adds at most one call, for its own id, and loses no safe job.
  ghost predicate CallsOnlyOwn(s: State, s': State)
    requires s.proc.Some?
  {
    (s'.calls == s.calls || (|s'.calls| == |s.calls| + 1 && s'.calls[..|s.calls|] == s.calls
                             && s'.calls[|s.calls|].id == s.proc.value.id))
    && (s'.proc.Some? ==> s'.proc.value.id == s.proc.value.id)
    && forall id :: Safe(s, id) ==> Safe(s', id)
  }

  lemma FilesCalls(s: State, f: File, next: Option<Point>)
    requires JobsOk(s) && s.proc.Some? && s.proc.value.id in s.jobs
    ensures CallsOnlyOwn(s, Publish(s, f, next))
  {
  }

  lemma ReserveCalls(s: State, settings: Settings)
    requires JobsOk(s) && s.proc.Some? && s.proc.value.id in s.jobs
    ensures CallsOnlyOwn(s, ReserveStep(s, settings))
  {
    hide Apply;
  }

  lemma ProgressCalls(s: State, settings: Settings)
    requires JobsOk(s) && s.proc.Some? && s.proc.value.id in s.jobs
    ensures CallsOnlyOwn(s, Progress(s, settings))
  {
    hide Apply, Publish, ReserveStep;
    match s.proc.value.point
    case AtRequest => FilesCalls(s, Request, Some(AtPrompt));
    case AtPrompt => FilesCalls(s, Prompt, Some(if s.proc.value.route.Api? then AtReserve else AtClaim));
    case AtReserve => ReserveCalls(s, settings);
    case AtClaim => FilesCalls(s, Claim, Some(AtSyncRoot));
    case AtApiRequest => FilesCalls(s, ApiRequest, Some(AtDispatch));
    case AtMarker => FilesCalls(s, Marker, Some(AtCall));
    case AtResult => FilesCalls(s, Result, None);
    case AtFailure => FilesCalls(s, Failure, None);
    case _ =>
  }

  lemma NextCalls(s: State, settings: Settings, e: Event, id: Id)
    requires Inv(s) && Safe(s, id) && (s.proc.None? || s.proc.value.id != id)
    ensures var s' := Next(s, settings, e);
            CallsOf(s'.calls, id) == CallsOf(s.calls, id) && Safe(s', id) && (s'.proc.None? || s'.proc.value.id != id)
  {
    hide Apply, Progress, WellFormed, RowsFollow, CallsOk, RowReady;
    if e.Step? && s.proc.Some? {
      ProgressCalls(s, settings);
    }
  }

  // A claimed id is dead: once its job is safe no later run touches the
  // provider for it, whatever crashes follow.
  lemma {:induction false} ClaimedNeverRetried(s: State, settings: Settings, events: seq<Event>, id: Id)
    requires Inv(s) && Safe(s, id) && (s.proc.None? || s.proc.value.id != id)
    ensures CallsOf(RunAll(s, settings, events).calls, id) == CallsOf(s.calls, id)
    decreases events
  {
    hide Inv, Next, Safe;
    if events != [] {
      NextKeepsInv(s, settings, events[0]);
      NextCalls(s, settings, events[0], id);
      ClaimedNeverRetried(Next(s, settings, events[0]), settings, events[1..], id);
    }
  }

  // ------------------------------------------------------- spend stays bounded

  // The provider counts no more input tokens than prompt and protocol bytes,
  // and keeps to the output cap.
  ghost predicate UsageWithinBounds(s: State, e: Event) {
    e.Answer? && e.outcome.Usage? && s.proc.Some? ==>
      e.outcome.input <= |s.proc.value.prompt| + PROTOCOL_ALLOWANCE && e.outcome.output <= MAX_OUTPUT
  }

  ghost predicate UsageAlwaysWithinBounds(s: State, settings: Settings, events: seq<Event>)
    decreases events
  {
    events == [] ||
    (UsageWithinBounds(s, events[0]) && UsageAlwaysWithinBounds(Next(s, settings, events[0]), settings, events[1..]))
  }

  lemma ProgressKeepsBound(s: State, settings: Settings)
    requires Inv(s) && s.proc.Some? && 0 <= settings.dailyLimit
    requires Bounded(s.ledger.rows, s.today, settings.dailyLimit)
    ensures Bounded(Progress(s, settings).ledger.rows, s.today, settings.dailyLimit)
            && Progress(s, settings).today == s.today
  {
    hide Apply, Bounded, RowOf, Find, RowsFollow, WellFormed, CallsOk, JobsOk;
    var p, cap := s.proc.value, settings.dailyLimit;
    ReserveIsHonest(s.ledger, p, cap, s.today);
    StepKeepsBound(s.ledger, ReserveOp(p, cap, s.today), s.today, cap);
    StepKeepsBound(s.ledger, Dispatch(p.id, s.today), s.today, cap);
  }

  lemma ReserveIsHonest(l: Ledger, p: Proc, cap: int, today: int)
    ensures Honest(l, ReserveOp(p, cap, today), today, cap) && Honest(l, Dispatch(p.id, today), today, cap)
  {
  }

  lemma AnswerKeepsBound(s: State, outcome: Outcome, cap: int)
    requires Inv(s) && s.proc.Some? && s.proc.value.point.AtOutcome? && 0 <= cap
    requires UsageWithinBounds(s, Answer(outcome)) && Bounded(s.ledger.rows, s.today, cap)
    ensures Bounded(Answered(s, outcome).ledger.rows, s.today, cap) && Answered(s, outcome).today == s.today
  {
    var p, s' := s.proc.value, Answered(s, outcome);
    var actual := if outcome.Usage? && outcome.cached <= outcome.input
      then Some(UsageCost(outcome.input, outcome.cached, outcome.output)) else None;
    var l := Ledger(s.ledger.rows, s'.ledger.policy);
    assert s'.ledger == Apply(l, Settle(p.id, actual)).0;
    if actual.Some? {
      EstimateIsTheWorstCase(|p.prompt|, outcome.input, outcome.cached, outcome.output);
    }
    StepKeepsBound(l, Settle(p.id, actual), s.today, cap);
  }

  lemma NextKeepsBound(s: State, settings: Settings, e: Event)
    requires Inv(s) && UsageWithinBounds(s, e) && 0 <= settings.dailyLimit
    requires Bounded(s.ledger.rows, s.today, settings.dailyLimit)
    ensures Bounded(Next(s, settings, e).ledger.rows, Next(s, settings, e).today, settings.dailyLimit)
  {
    hide Bounded, Progress, Answered, WellFormed;
    match e
    case Days(count) => BoundedLater(s.ledger.rows, s.today, s.today + count, settings.dailyLimit);
    case Step => if s.proc.Some? { ProgressKeepsBound(s, settings); }
    case Answer(outcome) =>
      if s.proc.Some? && s.proc.value.point.AtOutcome? { AnswerKeepsBound(s, outcome, settings.dailyLimit); }
    case _ =>
  }

  // Composition of protocol and ledger: whatever the operator, the crashes and
  // the order of runs, no day is ever booked above the configured limit.
  lemma {:induction false} SpendNeverOverLimit(s: State, settings: Settings, events: seq<Event>)
    requires Inv(s) && 0 <= settings.dailyLimit && UsageAlwaysWithinBounds(s, settings, events)
    requires Bounded(s.ledger.rows, s.today, settings.dailyLimit)
    ensures var s' := RunAll(s, settings, events); Bounded(s'.ledger.rows, s'.today, settings.dailyLimit)
    decreases events
  {
    if events != [] {
      NextKeepsInv(s, settings, events[0]);
      NextKeepsBound(s, settings, events[0]);
      SpendNeverOverLimit(Next(s, settings, events[0]), settings, events[1..]);
    }
  }
}
