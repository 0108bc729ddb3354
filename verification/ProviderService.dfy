// One request served in place: the files, the ledger and the call, in the order
// the service makes them.  Cut short after any step, it leaves exactly a state
// of the protocol, so what is proved of the protocol holds of the service.
module ProviderService {
  import opened Common
  import opened Budget
  import opened ProviderProtocol

  // One request and what it will meet: the answer the API call comes back with.
  datatype Order = Order(id: Id, route: Route, prompt: string, settings: Settings, outcome: Outcome)

  // The protocol run for one request, killed after a number of steps.
  function Drive(s: State, o: Order, steps: nat): State
    decreases steps
  {
    if s.proc.None? || s.proc.value.id !in s.jobs || steps == 0 then s.(proc := None)
    else if s.proc.value.point.AtOutcome? then Drive(Answered(s, o.outcome), o, steps - 1)
    else Drive(Progress(s, o.settings), o, steps - 1)
  }

  function Begun(s: State, o: Order): State { Next(s.(proc := None), o.settings, Start(o.id, o.route, o.prompt)) }

  class Service {
    var jobs: map<Id, Job>
    var syncedJobs: set<Id>
    var rootSynced: bool
    var ledger: Ledger
    var creditExhausted: bool
    var calls: seq<Call>
    var today: int

    ghost function At(proc: Option<Proc>): State
      reads this
    {
      State(jobs, syncedJobs, rootSynced, ledger, creditExhausted, proc, calls, today)
    }

    ghost function On(o: Order, route: Route, point: Point): State
      reads this
    {
      At(Some(Proc(o.id, route, o.prompt, point, false)))
    }

    // Exclusive creation of a file, then the sync of its directory.
    method PublishFile(id: Id, f: File, steps: nat) returns (alive: bool)
      requires id in jobs
      modifies this`jobs
      ensures alive <==> steps >= 2
      ensures jobs == if steps == 0 then old(jobs) else if steps == 1 then AddFile(old(jobs), id, f)
                      else SyncFiles(AddFile(old(jobs), id, f), id)
    {
      if steps == 0 { return false; }
      jobs := AddFile(jobs, id, f);
      if steps == 1 { return false; }
      jobs := SyncFiles(jobs, id);
      return true;
    }

    method Serve(o: Order, steps: nat)
      modifies this
      ensures At(None) == Drive(Begun(old(At(None)), o), o, steps)
    {
      hide Progress, Answered;
      if o.id in jobs { return; }
      jobs := jobs[o.id := Job({}, {})];
      assert Begun(old(At(None)), o) == On(o, o.route, AtRequest);
      var left, alive := Prepare(o, steps);
      if !alive { return; }
      var route := o.route;
      if o.route.Api? {
        left, alive, route := ReserveFor(o, left);
        if !alive { return; }
      }
      left, alive := ClaimJob(o, route, left);
      if !alive { return; }
      var done := true;
      if route.Api? {
        left, alive, done := Invoke(o, left);
      } else {
        left, alive := Subscribe(o, route, left);
      }
      if !alive { return; }
      Finish(o, route, done, left);
    }

    method Prepare(o: Order, steps: nat) returns (left: nat, alive: bool)
      requires o.id in jobs
      modifies this`jobs
      ensures o.id in jobs
      ensures Drive(old(On(o, o.route, AtRequest)), o, steps)
              == if alive then Drive(On(o, o.route, if o.route.Api? then AtReserve else AtClaim), o, left) else At(None)
    {
      hide Drive;
      ghost var s := On(o, o.route, AtRequest);
      alive := PublishFile(o.id, ProviderProtocol.Request, steps);
      PublishRun(s, o, ProviderProtocol.Request, AtPrompt, steps);
      if !alive { return 0, false; }
      s := On(o, o.route, AtPrompt);
      alive := PublishFile(o.id, Prompt, steps - 2);
      PublishRun(s, o, Prompt, if o.route.Api? then AtReserve else AtClaim, steps - 2);
      left := if alive then steps - 4 else 0;
    }

    method ReserveFor(o: Order, steps: nat) returns (left: nat, alive: bool, route: Route)
      requires o.id in jobs && o.route.Api?
      modifies this`jobs, this`ledger
      ensures o.id in jobs
      ensures Drive(old(On(o, Api, AtReserve)), o, steps)
              == if alive then Drive(On(o, route, AtClaim), o, left) else At(None)
    {
      ghost var s := On(o, Api, AtReserve);
      OneStep(s, o, steps);
      hide Drive, Apply;
      if steps == 0 { return 0, false, Api; }
      if o.settings.fallback && ledger.policy.paused && creditExhausted { return steps - 1, true, Subscription; }
      var reply: Reply;
      var op := Budget.Reserve(o.id, PromptEstimate(|o.prompt|), "trading-api", o.prompt, Some(o.settings.dailyLimit),
                               today);
      var applied := Apply(ledger, op);
      ledger, reply := applied.0, applied.1;
      if reply.Admitted? { return steps - 1, true, Api; }
      if !reply.ReservationInvalid? && !reply.ReservationChanged? {
        jobs := SyncFiles(AddFile(jobs, o.id, NotDispatched), o.id);
        if o.settings.fallback && reply.WaitingBudget? { return steps - 1, true, Subscription; }
      }
      EndedRun(At(None), o, steps - 1);
      return 0, false, Api;
    }

    method ClaimJob(o: Order, route: Route, steps: nat) returns (left: nat, alive: bool)
      requires o.id in jobs
      modifies this`jobs, this`syncedJobs, this`rootSynced
      ensures o.id in jobs
      ensures Drive(old(On(o, route, AtClaim)), o, steps)
              == if alive then Drive(On(o, route, if route.Api? then AtApiRequest else AtCall), o, left) else At(None)
    {
      hide Drive;
      ghost var s := On(o, route, AtClaim);
      alive := PublishFile(o.id, ProviderProtocol.Claim, steps);
      PublishRun(s, o, ProviderProtocol.Claim, AtSyncRoot, steps);
      if !alive { return 0, false; }
      s := On(o, route, AtSyncRoot);
      OneStep(s, o, steps - 2);
      if steps == 2 { return 0, false; }
      syncedJobs := jobs.Keys;
      s := On(o, route, AtSyncParent);
      OneStep(s, o, steps - 3);
      if steps == 3 { return 0, false; }
      rootSynced := true;
      return steps - 4, true;
    }

    method Subscribe(o: Order, route: Route, steps: nat) returns (left: nat, alive: bool)
      requires o.id in jobs && route.Subscription?
      modifies this`calls
      ensures Drive(old(On(o, route, AtCall)), o, steps)
              == if alive then Drive(On(o, route, AtResult), o, left) else At(None)
    {
      OneStep(On(o, route, AtCall), o, steps);
      hide Drive, Find;
      if steps == 0 { return 0, false; }
      Record(o, route);
      return steps - 1, true;
    }

    // The call itself: from here on money may have been spent.
    method Record(o: Order, route: Route)
      requires o.id in jobs
      modifies this`calls
      ensures On(o, route, if route.Api? then AtOutcome else AtResult) == CallStep(old(On(o, route, AtCall)))
    {
      var k := Find(ledger.rows, o.id);
      calls := calls + [Call(o.id, route,
                             rootSynced && o.id in syncedJobs && ProviderProtocol.Claim in jobs[o.id].synced,
                             if k.Some? then Some(ledger.rows[k.value].status) else None)];
    }

    // Dispatch the reservation, mark the job, call, and settle what comes back.
    method Invoke(o: Order, steps: nat) returns (left: nat, alive: bool, done: bool)
      requires o.id in jobs
      modifies this
      ensures o.id in jobs
      ensures Drive(old(On(o, Api, AtApiRequest)), o, steps)
              == if alive then Drive(On(o, Api, if done then AtResult else AtFailure), o, left) else At(None)
    {
      hide Drive, Apply, Find;
      ghost var s := On(o, Api, AtApiRequest);
      if Marker in jobs[o.id].files {
        OneStep(s, o, steps);
        return if steps == 0 then 0 else steps - 1, steps > 0, false;
      }
      alive := PublishFile(o.id, ApiRequest, steps);
      PublishRun(s, o, ApiRequest, AtDispatch, steps);
      if !alive { return 0, false, false; }
      s := On(o, Api, AtDispatch);
      OneStep(s, o, steps - 2);
      if steps == 2 { return 0, false, false; }
      var applied := Apply(ledger, Budget.Dispatch(o.id, today));
      if !applied.1.Done? { return steps - 3, true, false; }
      ledger := applied.0;
      left, alive, done := Post(o, steps - 3);
    }

    method Post(o: Order, steps: nat) returns (left: nat, alive: bool, done: bool)
      requires o.id in jobs
      modifies this
      ensures o.id in jobs
      ensures Drive(old(On(o, Api, AtMarker)), o, steps)
              == if alive then Drive(On(o, Api, if done then AtResult else AtFailure), o, left) else At(None)
    {
      hide Drive, Apply, Find;
      ghost var s := On(o, Api, AtMarker);
      alive := PublishFile(o.id, Marker, steps);
      PublishRun(s, o, Marker, AtCall, steps);
      if !alive { return 0, false, false; }
      s := On(o, Api, AtCall);
      OneStep(s, o, steps - 2);
      if steps == 2 { return 0, false, false; }
      Record(o, Api);
      s := On(o, Api, AtOutcome);
      OneStep(s, o, steps - 3);
      if steps == 3 { return 0, false, false; }
      done := Settle(o);
      return steps - 4, true, done;
    }

    method Settle(o: Order) returns (done: bool)
      modifies this`ledger, this`creditExhausted
      ensures On(o, Api, if done then AtResult else AtFailure) == Answered(old(On(o, Api, AtOutcome)), o.outcome)
    {
      hide Apply;
      var actual: Option<int> := None;
      match o.outcome {
        case Usage(input, cached, output) =>
          if cached <= input { actual := Some(UsageCost(input, cached, output)); }
        case Rejected(credit, pause) =>
          creditExhausted := creditExhausted || credit;
          ledger := Apply(ledger, Update(if pause then ledger.policy.(paused := true) else ledger.policy)).0;
        case Unreadable =>
      }
      ledger := Apply(ledger, Budget.Settle(o.id, actual)).0;
      done := actual.Some?;
    }

    method Finish(o: Order, route: Route, done: bool, steps: nat)
      requires o.id in jobs
      modifies this`jobs
      ensures At(None) == Drive(old(On(o, route, if done then AtResult else AtFailure)), o, steps)
    {
      ghost var s := On(o, route, if done then AtResult else AtFailure);
      var _ := PublishFile(o.id, if done then Result else Failure, steps);
      LastRun(s, o, if done then Result else Failure, steps);
    }
  }

  lemma OneStep(s: State, o: Order, steps: nat)
    requires s.proc.Some? && s.proc.value.id in s.jobs
    ensures Drive(s, o, steps)
            == if steps == 0 then s.(proc := None)
               else Drive(if s.proc.value.point.AtOutcome? then Answered(s, o.outcome) else Progress(s, o.settings),
                          o, steps - 1)
  {
    hide Progress, Answered;
  }

  lemma EndedRun(s: State, o: Order, steps: nat)
    requires s.proc.None?
    ensures Drive(s, o, steps) == s
  {
  }

  // A publication is two steps.
  lemma PublishRun(s: State, o: Order, f: File, next: Point, steps: nat)
    requires s.proc.Some? && s.proc.value.id in s.jobs && !s.proc.value.half && !s.proc.value.point.AtOutcome?
    requires var half := Publish(s, f, Some(next));
             Progress(s, o.settings) == half && Progress(half, o.settings) == Publish(half, f, Some(next))
    ensures var p := s.proc.value;
            Drive(s, o, steps) ==
            if steps == 0 then s.(proc := None)
            else if steps == 1 then s.(jobs := AddFile(s.jobs, p.id, f), proc := None)
            else Drive(s.(jobs := SyncFiles(AddFile(s.jobs, p.id, f), p.id), proc := Some(p.(point := next))), o,
                       steps - 2)
  {
    var half := Publish(s, f, Some(next));
    OneStep(s, o, steps);
    if steps > 0 { OneStep(half, o, steps - 1); }
    hide Drive, Progress;
  }

  lemma LastRun(s: State, o: Order, f: File, steps: nat)
    requires s.proc.Some? && s.proc.value.id in s.jobs && !s.proc.value.half
    requires (s.proc.value.point.AtResult? && f.Result?) || (s.proc.value.point.AtFailure? && f.Failure?)
    ensures var p := s.proc.value;
            Drive(s, o, steps) ==
            s.(proc := None, jobs := if steps == 0 then s.jobs else if steps == 1 then AddFile(s.jobs, p.id, f)
                                     else SyncFiles(AddFile(s.jobs, p.id, f), p.id))
  {
    var half := Publish(s, f, None);
    OneStep(s, o, steps);
    if steps > 0 { OneStep(half, o, steps - 1); }
    if steps > 1 { EndedRun(Publish(half, f, None), o, steps - 2); }
    hide Drive;
  }

  lemma {:induction false} RunOneMore(s: State, settings: Settings, events: seq<Event>, e: Event)
    ensures RunAll(s, settings, events + [e]) == Next(RunAll(s, settings, events), settings, e)
    decreases events
  {
    hide Next;
    if events == [] {
      assert events + [e] == [e];
      assert RunAll(s, settings, [e]) == RunAll(Next(s, settings, e), settings, []);
    } else {
      assert (events + [e])[1..] == events[1..] + [e];
      RunOneMore(Next(s, settings, events[0]), settings, events[1..], e);
    }
  }

  // Serving is a run of the protocol, so over any number of them, with crashes
  // between, an id causes one provider call at most.
  lemma ServeIsARun(s: State, o: Order, steps: nat) returns (events: seq<Event>)
    requires s.proc.None?
    ensures RunAll(s, o.settings, events) == Drive(Begun(s, o), o, steps)
  {
    hide Progress, Answered, RunAll;
    events := [];
    assert RunAll(s, o.settings, []) == s by { NoEvents(s, o.settings); }
    RunOneMore(s, o.settings, [], Start(o.id, o.route, o.prompt));
    events := events + [Start(o.id, o.route, o.prompt)];
    assert s.(proc := None) == s;
    var left := steps;
    var now := Begun(s, o);
    while left > 0 && now.proc.Some? && now.proc.value.id in now.jobs
      invariant now == RunAll(s, o.settings, events) && Drive(Begun(s, o), o, steps) == Drive(now, o, left)
    {
      var e := if now.proc.value.point.AtOutcome? then Answer(o.outcome) else Step;
      RunOneMore(s, o.settings, events, e);
      OneStep(now, o, left);
      now, events, left := Next(now, o.settings, e), events + [e], left - 1;
    }
    RunOneMore(s, o.settings, events, Kill);
    events := events + [Kill];
  }

  lemma NoEvents(s: State, settings: Settings)
    ensures RunAll(s, settings, []) == s
  {
  }
}
