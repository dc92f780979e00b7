/** Every reachable state of the mock harness keeps the invariant, and what follows from it. */
module MockProofs {
  import opened Common
  import opened MockProtocol
  import Runs

  // ----- Appending to logs and prefixes -----

  lemma {:induction false} TraceAppend(sent: seq<Sent>, entry: Sent, run: Run)
    ensures TraceOf(sent + [entry], run) == TraceOf(sent, run) + (if entry.event.Of() == run then [entry] else [])
  {
  }

  lemma {:induction false} ScriptedAppend(trace: seq<Sent>, entry: Sent)
    ensures ScriptedEvents(trace + [entry])
              == ScriptedEvents(trace) + (if entry.origin.Scripted? then [entry.event] else [])
  {
  }

  lemma {:induction false} PrefixAppend(run: Run, plan: Plan, done: nat)
    requires done < |plan.steps|
    ensures var step := plan.steps[done];
            && AutoIds(plan.steps[..done + 1])
               == AutoIds(plan.steps[..done]) + (if step.CommandOutput? && step.commandId == None then 1 else 0)
            && Emitted(run, plan.steps[..done + 1]) == Emitted(run, plan.steps[..done])
               + (if step.Emits() then [StepEvent(run, step, 1 + AutoIds(plan.steps[..done]))] else [])
  {
    var prefix := plan.steps[..done + 1];
    assert prefix[..|prefix| - 1] == plan.steps[..done];
  }

  lemma {:induction false} TraceOfUnknown(sent: seq<Sent>, run: Run)
    requires forall i :: 0 <= i < |sent| ==> sent[i].event.Of() != run
    ensures TraceOf(sent, run) == []
    decreases |sent|
  {
    if sent != [] {
      TraceOfUnknown(sent[..|sent| - 1], run);
    }
  }

  // ----- One run across one action -----

  lemma RequestsAsked(run: Run, plan: Plan, done: nat, requests: map<Request, RequestRecord>, record: RequestRecord)
    requires done < |plan.steps| && RequestsKept(run, plan, done, requests)
    requires plan.steps[done].Asks() && Request(run, plan.steps[done].requestId) !in requests
    requires FitsStep(record, plan.steps[done])
    ensures RequestsKept(run, plan, done + 1, requests[Request(run, plan.steps[done].requestId) := record])
  {
  }

  lemma RequestsPassed(run: Run, plan: Plan, done: nat, requests: map<Request, RequestRecord>)
    requires done < |plan.steps| && RequestsKept(run, plan, done, requests)
    requires !plan.steps[done].Asks()
    requires plan.steps[done].AwaitResponse? ==>
               && Request(run, plan.steps[done].requestId) in requests
               && requests[Request(run, plan.steps[done].requestId)].response.Some?
    ensures RequestsKept(run, plan, done + 1, requests)
  {
  }

  function AskedRequests(run: Run, step: Step, requests: map<Request, RequestRecord>): map<Request, RequestRecord> {
    if step.Asks() then requests[Request(run, step.requestId) := RequestRecord(run, KindOf(step), None)] else requests
  }

  predicate Emitting(run: Run, record: RunRecord, plan: Plan, requests: map<Request, RequestRecord>, release: bool) {
    && record.active && record.pending == None && record.steps != [] && record.steps[0].Emits()
    && (record.steps[0].Approval? && record.fault == Some(DelayApproval) ==> release)
    && (record.steps[0].Asks() ==> Request(run, record.steps[0].requestId) !in requests)
    && (release ==> plan.fault == Some(DelayApproval))
  }

  function AfterEmit(run: Run, record: RunRecord, release: bool): RunRecord
    requires record.steps != [] && record.steps[0].Emits()
  {
    Committed(run, Prepared(record, record.steps[0], release), StepDelivery(run, record.steps[0], record).commit)
  }

  function EmitEntry(run: Run, record: RunRecord): Sent
    requires record.steps != [] && record.steps[0].Emits()
  {
    var delivery := StepDelivery(run, record.steps[0], record);
    Sent(delivery.event, OriginOf(delivery.commit))
  }

  lemma EmitScript(run: Run, record: RunRecord, plan: Plan, trace: seq<Sent>, requests: map<Request, RequestRecord>,
                   release: bool)
    requires ScriptKept(run, record, plan, trace) && Emitting(run, record, plan, requests, release)
    ensures Done(AfterEmit(run, record, release), plan) == Done(record, plan) + 1
    ensures record.steps[0] == plan.steps[Done(record, plan)]
    ensures ScriptKept(run, AfterEmit(run, record, release), plan, trace + [EmitEntry(run, record)])
  {
    var done := Done(record, plan);
    PrefixAppend(run, plan, done);
    ScriptedAppend(trace, EmitEntry(run, record));
    assert AfterEmit(run, record, release).steps == plan.steps[done + 1..];
  }

  lemma EmitEndings(run: Run, record: RunRecord, plan: Plan, trace: seq<Sent>, requests: map<Request, RequestRecord>,
                    release: bool)
    requires Emitting(run, record, plan, requests, release)
    requires Bracketed(record.active, trace) && CrashFaultKept(run, record, plan, trace)
    requires InjectionKept(run, record, plan, trace) && (record.fault == plan.fault || record.fault == None)
    ensures var record' := AfterEmit(run, record, release);
            var trace' := trace + [EmitEntry(run, record)];
            && Bracketed(record'.active, trace') && StagedWell(run, record')
            && CrashFaultKept(run, record', plan, trace') && InjectionKept(run, record', plan, trace')
  {
  }

  lemma EmitAccounted(run: Run, record: RunRecord, plan: Plan, trace: seq<Sent>, requests: map<Request, RequestRecord>,
                      release: bool)
    requires Emitting(run, record, plan, requests, release) && trace != []
    requires AllAccounted(run, record, plan, trace) && (record.fault == plan.fault || record.fault == None)
    ensures AllAccounted(run, AfterEmit(run, record, release), plan, trace + [EmitEntry(run, record)])
  {
  }

  lemma EmitKept(run: Run, record: RunRecord, plan: Plan, trace: seq<Sent>, requests: map<Request, RequestRecord>,
                 release: bool)
    requires RunKept(run, record, plan, trace, requests) && Emitting(run, record, plan, requests, release)
    ensures RunKept(run, AfterEmit(run, record, release), plan, trace + [EmitEntry(run, record)],
                    AskedRequests(run, record.steps[0], requests))
  {
    var step, done := record.steps[0], Done(record, plan);
    EmitScript(run, record, plan, trace, requests, release);
    EmitEndings(run, record, plan, trace, requests, release);
    EmitAccounted(run, record, plan, trace, requests, release);
    if step.Asks() {
      RequestsAsked(run, plan, done, requests, RequestRecord(run, KindOf(step), None));
    } else {
      RequestsPassed(run, plan, done, requests);
    }
  }

  lemma SkipKept(run: Run, record: RunRecord, plan: Plan, trace: seq<Sent>, requests: map<Request, RequestRecord>)
    requires RunKept(run, record, plan, trace, requests)
    requires record.active && record.pending == None && record.steps != [] && record.steps[0].AwaitResponse?
    requires Request(run, record.steps[0].requestId) in requests
    requires requests[Request(run, record.steps[0].requestId)].response.Some?
    ensures RunKept(run, record.(steps := record.steps[1..]), plan, trace, requests)
  {
    var done := Done(record, plan);
    PrefixAppend(run, plan, done);
    RequestsPassed(run, plan, done, requests);
    assert record.steps[1..] == plan.steps[done + 1..];
  }

  lemma HoldKept(run: Run, record: RunRecord, plan: Plan, trace: seq<Sent>, requests: map<Request, RequestRecord>)
    requires RunKept(run, record, plan, trace, requests) && record.fault == Some(DelayApproval)
    ensures RunKept(run, record.(delayed := true), plan, trace, requests)
  {
  }

  /** A staged delivery, or the terminal of an interruption. */
  predicate Unscripted(run: Run, record: RunRecord, delivery: Delivery) {
    && record.active && StagedWell(run, record)
    && (|| record.pending == Some(delivery)
        || (record.pending == None && delivery == TerminalDelivery(run, Interrupted, false)))
  }

  /** It is not part of the plan, and the record does not move on. */
  lemma UnscriptedScript(run: Run, record: RunRecord, plan: Plan, trace: seq<Sent>, delivery: Delivery)
    requires ScriptKept(run, record, plan, trace) && Unscripted(run, record, delivery)
    ensures var after := Committed(run, record, delivery.commit);
            && ScriptKept(run, after, plan, trace + [Sent(delivery.event, OriginOf(delivery.commit))])
            && after.steps == record.steps && after.fault == record.fault && after.delayed == record.delayed
  {
    ScriptedAppend(trace, Sent(delivery.event, OriginOf(delivery.commit)));
  }

  lemma UnscriptedEndings(run: Run, record: RunRecord, plan: Plan, trace: seq<Sent>, delivery: Delivery)
    requires Bracketed(record.active, trace) && CrashFaultKept(run, record, plan, trace)
    requires InjectionKept(run, record, plan, trace) && Unscripted(run, record, delivery)
    ensures var after, longer := Committed(run, record, delivery.commit),
                                 trace + [Sent(delivery.event, OriginOf(delivery.commit))];
            && Bracketed(after.active, longer) && StagedWell(run, after)
            && CrashFaultKept(run, after, plan, longer) && InjectionKept(run, after, plan, longer)
  {
    var entry := Sent(delivery.event, OriginOf(delivery.commit));
    assert (trace + [entry])[..|trace|] == trace && (trace + [entry])[..|trace| - 1] == trace[..|trace| - 1];
  }

  lemma UnscriptedAccounted(run: Run, record: RunRecord, plan: Plan, trace: seq<Sent>, delivery: Delivery)
    requires AllAccounted(run, record, plan, trace) && Unscripted(run, record, delivery) && trace != []
    ensures AllAccounted(run, Committed(run, record, delivery.commit), plan,
                         trace + [Sent(delivery.event, OriginOf(delivery.commit))])
  {
  }

  /** Sent on its own, it keeps what is promised of the run. */
  lemma UnscriptedKept(run: Run, record: RunRecord, plan: Plan, trace: seq<Sent>,
                       requests: map<Request, RequestRecord>, delivery: Delivery)
    requires RunKept(run, record, plan, trace, requests) && Unscripted(run, record, delivery)
    ensures RunKept(run, Committed(run, record, delivery.commit), plan,
                    trace + [Sent(delivery.event, OriginOf(delivery.commit))], requests)
  {
    UnscriptedScript(run, record, plan, trace, delivery);
    UnscriptedEndings(run, record, plan, trace, delivery);
    UnscriptedAccounted(run, record, plan, trace, delivery);
    assert Done(Committed(run, record, delivery.commit), plan) == Done(record, plan);
  }

  lemma SteeredKept(run: Run, record: RunRecord, plan: Plan, trace: seq<Sent>, requests: map<Request, RequestRecord>,
                    chunk: string)
    requires RunKept(run, record, plan, trace, requests) && record.active && record.pending == None
    ensures RunKept(run, record, plan, trace + [Sent(MessageDelta(run, chunk), Steered)], requests)
  {
  }

  lemma BegunKept(run: Run, plan: Plan, requests: map<Request, RequestRecord>)
    requires forall request :: request in requests ==> request.run != run
    ensures RunKept(run, RunRecord(true, false, 1, plan.steps, plan.fault, InitialPending(run, plan.fault)), plan,
                    [Sent(RunAccepted(run), Accepted)], requests)
  {
  }

  // ----- The whole state across one action -----

  lemma RunKeptElsewhere(run: Run, record: RunRecord, plan: Plan, trace: seq<Sent>,
                         requests: map<Request, RequestRecord>, requests': map<Request, RequestRecord>)
    requires RunKept(run, record, plan, trace, requests)
    requires forall request :: request in requests && request.run == run ==>
               && request in requests' && requests'[request].kind == requests[request].kind
               && (requests[request].response.Some? ==> requests'[request].response == requests[request].response)
               && (requests[request].response == None && requests'[request].response.Some? ==>
                     Answers(requests'[request].kind, requests'[request].response.value))
    requires forall request :: request in requests' && request.run == run ==> request in requests
    ensures RunKept(run, record, plan, trace, requests')
  {
  }

  /** Requests are only added for `run`, and none loses its run or its response. */
  predicate RequestsGrow(requests: map<Request, RequestRecord>, requests': map<Request, RequestRecord>, run: Run) {
    && (forall request :: request in requests ==>
          && request in requests'
          && requests'[request].run == requests[request].run && requests'[request].kind == requests[request].kind
          && (requests[request].response.Some? ==> requests'[request].response == requests[request].response)
          && (requests[request].response == None && requests'[request].response.Some? ==>
                Answers(requests'[request].kind, requests'[request].response.value)))
    && (forall request :: request in requests' && request !in requests ==>
          request.run == run && requests'[request].run == run)
  }

  predicate SentGrows(sent: seq<Sent>, sent': seq<Sent>, run: Run) {
    || sent' == sent
    || (&& |sent'| == |sent| + 1 && sent' == sent + [sent'[|sent|]]
        && sent'[|sent|].event.Of() == run)
  }

  lemma {:induction false} TraceElsewhere(sent: seq<Sent>, sent': seq<Sent>, run: Run, other: Run)
    requires SentGrows(sent, sent', run) && other != run
    ensures TraceOf(sent', other) == TraceOf(sent, other)
  {
  }

  lemma KeptElsewhere(world: World, world': World, run: Run, other: Run)
    requires KeptAt(world, other) && other != run && other in world'.state.runs && other in world'.scripts
    requires world'.scripts[other] == world.scripts[other] && world'.state.runs[other] == world.state.runs[other]
    requires SentGrows(world.sent, world'.sent, run)
    requires RequestsGrow(world.state.requests, world'.state.requests, run)
    ensures KeptAt(world', other)
  {
    TraceElsewhere(world.sent, world'.sent, run, other);
    RunKeptElsewhere(other, world.state.runs[other], world.scripts[other], TraceOf(world.sent, other),
                     world.state.requests, world'.state.requests);
  }

  lemma WellFormedFromRun(world: World, world': World, run: Run)
    requires WellFormed(world) && run in world.state.runs
    requires world'.scripts.Keys == world.scripts.Keys && world'.state.runs.Keys == world.state.runs.Keys
    requires world'.state.nextRun == world.state.nextRun
    requires SentGrows(world.sent, world'.sent, run)
    requires RequestsGrow(world.state.requests, world'.state.requests, run)
    ensures WellFormed(world')
  {
  }

  /** An action on one run that keeps that run's part keeps the whole invariant. */
  lemma InvariantFromRun(world: World, world': World, run: Run)
    requires Invariant(world)
    requires run in world.state.runs && world'.scripts == world.scripts
    requires world'.state.nextRun == world.state.nextRun
    requires world'.state.runs.Keys == world.state.runs.Keys
    requires forall other :: other in world.state.runs && other != run ==>
               world'.state.runs[other] == world.state.runs[other]
    requires SentGrows(world.sent, world'.sent, run)
    requires RequestsGrow(world.state.requests, world'.state.requests, run)
    requires KeptAt(world', run)
    ensures Invariant(world')
  {
    WellFormedFromRun(world, world', run);
    forall other | other in world'.state.runs
      ensures KeptAt(world', other)
    {
      if other != run {
        assert KeptAt(world, other);
        KeptElsewhere(world, world', run, other);
      }
    }
  }

  lemma {:induction false} DeliverKeptAt(world: World, run: Run, delivery: Delivery)
    requires run in world.state.runs && run in world.scripts && delivery.event.Of() == run
    requires RunKept(run, Committed(run, world.state.runs[run], delivery.commit), world.scripts[run],
                     TraceOf(world.sent, run) + [Sent(delivery.event, OriginOf(delivery.commit))], world.state.requests)
    ensures KeptAt(Deliver(world, run, delivery), run)
  {
  }

  lemma DeliverFrame(world: World, run: Run, delivery: Delivery)
    requires run in world.state.runs && delivery.event.Of() == run
    ensures var world' := Deliver(world, run, delivery);
            && world'.scripts == world.scripts && world'.state.nextRun == world.state.nextRun
            && world'.state.requests == world.state.requests && world'.state.runs.Keys == world.state.runs.Keys
            && (forall other :: other in world.state.runs && other != run ==>
                  world'.state.runs[other] == world.state.runs[other])
            && SentGrows(world.sent, world'.sent, run)
  {
  }

  lemma {:induction false} DeliverInvariant(world: World, world1: World, run: Run, delivery: Delivery)
    requires Invariant(world)
    requires run in world.state.runs && delivery.event.Of() == run
    requires world1.scripts == world.scripts && world1.sent == world.sent && world1.state.nextRun == world.state.nextRun
    requires world1.state.runs.Keys == world.state.runs.Keys
    requires forall other :: other in world.state.runs && other != run ==>
               world1.state.runs[other] == world.state.runs[other]
    requires RequestsGrow(world.state.requests, world1.state.requests, run)
    requires RunKept(run, Committed(run, world1.state.runs[run], delivery.commit), world.scripts[run],
                     TraceOf(world.sent, run) + [Sent(delivery.event, OriginOf(delivery.commit))],
                     world1.state.requests)
    ensures Invariant(Deliver(world1, run, delivery))
  {
    DeliverKeptAt(world1, run, delivery);
    DeliverFrame(world1, run, delivery);
    InvariantFromRun(world, Deliver(world1, run, delivery), run);
  }

  lemma BeginTrace(world: World, session: Session)
    requires WellFormed(world)
    ensures var run := Run(session, NextNumber(world.state, session));
            && run !in world.state.runs
            && TraceOf(Begin(world, session).sent, run) == [Sent(RunAccepted(run), Accepted)]
  {
    var run := Run(session, NextNumber(world.state, session));
    var entry := Sent(RunAccepted(run), Accepted);
    TraceOfUnknown(world.sent, run);
    TraceAppend(world.sent, entry, run);
    assert [] + [entry] == [entry];
  }

  lemma BeginKeptAt(world: World, session: Session, other: Run)
    requires WellFormed(world) && other in world.state.runs && KeptAt(world, other)
    ensures KeptAt(Begin(world, session), other)
  {
    var run := Run(session, NextNumber(world.state, session));
    assert run != other;
    TraceAppend(world.sent, Sent(RunAccepted(run), Accepted), other);
    assert TraceOf(world.sent, other) + [] == TraceOf(world.sent, other);
  }

  lemma BeginWellFormed(world: World, session: Session)
    requires WellFormed(world)
    ensures WellFormed(Begin(world, session))
  {
    var world' := Begin(world, session);
    forall i | 0 <= i < |world'.sent| ensures world'.sent[i].event.Of() in world'.state.runs {
      if i < |world.sent| {
        assert world'.sent[i] == world.sent[i];
      }
    }
  }

  lemma BeginInvariant(world: World, session: Session)
    requires Invariant(world)
    ensures Invariant(Begin(world, session))
  {
    BeginWellFormed(world, session);
    BeginTrace(world, session);
    var begun := Run(session, NextNumber(world.state, session));
    BegunKept(begun, NextPlan(world.state.plans), world.state.requests);
    forall run | run in Begin(world, session).state.runs ensures KeptAt(Begin(world, session), run) {
      if run != begun {
        assert KeptAt(world, run);
        BeginKeptAt(world, session, run);
      }
    }
  }

  lemma FlushInvariant(world: World, run: Run)
    requires Invariant(world) && Enabled(world, Flush(run))
    ensures Invariant(Apply(world, Flush(run)))
  {
    assert KeptAt(world, run);
    var delivery := world.state.runs[run].pending.value;
    UnscriptedKept(run, world.state.runs[run], world.scripts[run], TraceOf(world.sent, run), world.state.requests,
                   delivery);
    DeliverInvariant(world, world, run, delivery);
  }

  lemma InterruptInvariant(world: World, run: Run)
    requires Invariant(world) && Enabled(world, Interrupt(run))
    ensures Invariant(Apply(world, Interrupt(run)))
  {
    assert KeptAt(world, run);
    var delivery := TerminalDelivery(run, Interrupted, false);
    UnscriptedKept(run, world.state.runs[run], world.scripts[run], TraceOf(world.sent, run), world.state.requests,
                   delivery);
    DeliverInvariant(world, world, run, delivery);
  }

  lemma SkipInvariant(world: World, run: Run)
    requires Invariant(world) && Enabled(world, Skip(run))
    ensures Invariant(Apply(world, Skip(run)))
  {
    assert KeptAt(world, run);
    SkipKept(run, world.state.runs[run], world.scripts[run], TraceOf(world.sent, run), world.state.requests);
    InvariantFromRun(world, Apply(world, Skip(run)), run);
  }

  lemma HoldInvariant(world: World, run: Run)
    requires Invariant(world) && Enabled(world, Hold(run))
    ensures Invariant(Apply(world, Hold(run)))
  {
    assert KeptAt(world, run);
    HoldKept(run, world.state.runs[run], world.scripts[run], TraceOf(world.sent, run), world.state.requests);
    InvariantFromRun(world, Apply(world, Hold(run)), run);
  }

  /** The world of an emission just before its delivery is committed. */
  function BeforeCommit(world: World, run: Run, release: bool): World
    requires Enabled(world, Emit(run, release))
  {
    var state := world.state;
    var record := state.runs[run];
    var step := record.steps[0];
    world.(state := state.(runs := state.runs[run := Prepared(record, step, release)],
                           requests := AskedRequests(run, step, state.requests)))
  }

  lemma EmitApplies(world: World, run: Run, release: bool)
    requires Enabled(world, Emit(run, release))
    ensures Apply(world, Emit(run, release))
         == Deliver(BeforeCommit(world, run, release), run,
                    StepDelivery(run, world.state.runs[run].steps[0], world.state.runs[run]))
  {
  }

  lemma AskedGrows(run: Run, step: Step, requests: map<Request, RequestRecord>)
    requires step.Asks() ==> Request(run, step.requestId) !in requests
    ensures RequestsGrow(requests, AskedRequests(run, step, requests), run)
  {
  }

  lemma EmitShape(world: World, run: Run, release: bool)
    requires run in world.scripts && Enabled(world, Emit(run, release))
    ensures var record := world.state.runs[run];
            var delivery := StepDelivery(run, record.steps[0], record);
            var world1 := BeforeCommit(world, run, release);
            && delivery.event.Of() == run
            && Committed(run, world1.state.runs[run], delivery.commit) == AfterEmit(run, record, release)
            && Sent(delivery.event, OriginOf(delivery.commit)) == EmitEntry(run, record)
            && world1.state.requests == AskedRequests(run, record.steps[0], world.state.requests)
            && Emitting(run, record, world.scripts[run], world.state.requests, release)
  {
  }

  lemma {:induction false} EmitBeforeCommit(world: World, run: Run, release: bool)
    requires KeptAt(world, run) && Enabled(world, Emit(run, release))
    ensures var record := world.state.runs[run];
            var delivery := StepDelivery(run, record.steps[0], record);
            var world1 := BeforeCommit(world, run, release);
            && delivery.event.Of() == run
            && RequestsGrow(world.state.requests, world1.state.requests, run)
            && RunKept(run, Committed(run, world1.state.runs[run], delivery.commit), world.scripts[run],
                       TraceOf(world.sent, run) + [Sent(delivery.event, OriginOf(delivery.commit))],
                       world1.state.requests)
  {
    var record := world.state.runs[run];
    EmitShape(world, run, release);
    EmitKept(run, record, world.scripts[run], TraceOf(world.sent, run), world.state.requests, release);
    AskedGrows(run, record.steps[0], world.state.requests);
  }

  lemma EmitFrame(world: World, run: Run, release: bool)
    requires Enabled(world, Emit(run, release))
    ensures var world1 := BeforeCommit(world, run, release);
            && world1.scripts == world.scripts && world1.sent == world.sent
            && world1.state.nextRun == world.state.nextRun && world1.state.runs.Keys == world.state.runs.Keys
            && forall other :: other in world.state.runs && other != run ==>
                 world1.state.runs[other] == world.state.runs[other]
  {
  }

  lemma EmitInvariant(world: World, run: Run, release: bool)
    requires Invariant(world) && Enabled(world, Emit(run, release))
    ensures Invariant(Apply(world, Emit(run, release)))
  {
    assert KeptAt(world, run);
    EmitBeforeCommit(world, run, release);
    EmitApplies(world, run, release);
    EmitFrame(world, run, release);
    var record := world.state.runs[run];
    DeliverInvariant(world, BeforeCommit(world, run, release), run, StepDelivery(run, record.steps[0], record));
  }

  lemma SteerInvariant(world: World, run: Run, chunk: string)
    requires Invariant(world) && Enabled(world, Steer(run, chunk))
    ensures Invariant(Apply(world, Steer(run, chunk)))
  {
    assert KeptAt(world, run);
    SteeredKept(run, world.state.runs[run], world.scripts[run], TraceOf(world.sent, run), world.state.requests, chunk);
    TraceAppend(world.sent, Sent(MessageDelta(run, chunk), Steered), run);
    InvariantFromRun(world, Apply(world, Steer(run, chunk)), run);
  }

  lemma RespondInvariant(world: World, request: Request, response: Response)
    requires Invariant(world) && Enabled(world, Respond(request, response))
    ensures Invariant(Apply(world, Respond(request, response)))
  {
    var run, world' := request.run, Apply(world, Respond(request, response));
    assert KeptAt(world, run);
    RunKeptElsewhere(run, world.state.runs[run], world.scripts[run], TraceOf(world.sent, run),
                     world.state.requests, world'.state.requests);
    InvariantFromRun(world, world', run);
  }

  lemma StartSessionInvariant(world: World, session: Session)
    requires Invariant(world)
    ensures Invariant(Apply(world, StartSession(session)))
  {
    forall run | run in world.state.runs ensures KeptAt(Apply(world, StartSession(session)), run) {
      assert KeptAt(world, run);
    }
  }

  lemma InvariantStep(world: World, action: Action)
    requires Invariant(world) && Enabled(world, action)
    ensures Invariant(Apply(world, action))
  {
    match action
    case StartSession(session) => StartSessionInvariant(world, session);
    case Start(session) => BeginInvariant(world, session);
    case Flush(run) => FlushInvariant(world, run);
    case Skip(run) => SkipInvariant(world, run);
    case Hold(run) => HoldInvariant(world, run);
    case Emit(run, release) => EmitInvariant(world, run, release);
    case Steer(run, chunk) => SteerInvariant(world, run, chunk);
    case Interrupt(run) => InterruptInvariant(world, run);
    case Respond(request, response) => RespondInvariant(world, request, response);
  }

  lemma InitialInvariant(world: World)
    requires Initial(world)
    ensures Invariant(world)
  {
  }

  lemma ReplayInvariant(world: World, history: seq<Action>)
    requires Invariant(world) && Legal(world, history)
    ensures Invariant(Replay(world, history))
  {
    forall w: World, a | Invariant(w) && Next(w, a).Some? ensures Invariant(Next(w, a).value) {
      InvariantStep(w, a);
    }
    Runs.ReplayKeeps(Next, Invariant, world, history);
  }

  lemma Reached(start: World, history: seq<Action>, run: Run)
    requires Initial(start) && Legal(start, history)
    requires run in Replay(start, history).state.runs
    ensures KeptAt(Replay(start, history), run)
  {
    InitialInvariant(start);
    ReplayInvariant(start, history);
  }

  // ----- The promises -----

  /**
   Exactly-once delivery. After any interleaving, the scripted events sent for a run are the
   events of the consumed prefix of its plan, in order, none lost and none repeated.
   */
  lemma {:induction false} ExactlyOnce(start: World, history: seq<Action>, run: Run)
    requires Initial(start) && Legal(start, history)
    requires run in Replay(start, history).state.runs
    ensures var world := Replay(start, history);
            && run in world.scripts
            && exists done :: 0 <= done <= |world.scripts[run].steps|
                 && world.state.runs[run].steps == world.scripts[run].steps[done..]
                 && ScriptedEvents(TraceOf(world.sent, run)) == Emitted(run, world.scripts[run].steps[..done])
  {
    Reached(start, history, run);
  }

  /** How many steps of a prefix send something: all but the awaits. */
  function Sending(steps: seq<Step>): nat {
    if steps == [] then 0 else Sending(steps[..|steps| - 1]) + (if steps[|steps| - 1].AwaitResponse? then 0 else 1)
  }

  /** The event is of the step's own kind and carries what the step carries. */
  predicate Carries(event: Event, run: Run, step: Step) {
    && event.Of() == run
    && (step.Message? ==> event.MessageDelta? && event.chunk == step.chunk)
    && (step.MessageCompleted? ==> event.MessageDone? && event.text == step.text)
    && (step.Approval? ==>
          event.ApprovalRequested? && event.request.id == step.requestId && event.summary == step.summary)
    && (step.UserInput? ==>
          event.UserInputRequested? && event.request.id == step.requestId && event.prompt == step.prompt)
    && (step.FileMutation? ==> event.FileMutated? && event.path == step.path && event.summary == step.summary)
    && (step.CommandOutput? ==>
          && event.CommandOutputCompleted? && event.commandText == step.command && event.output == step.chunk
          && (if step.commandId.Some? then event.command.Named? && event.command.id == step.commandId.value
              else event.command.Numbered?))
    && (step.Complete? ==> event.RunTerminal? && event.terminal.Completed?)
    && (step.UnknownItem? ==> event.Unknown? && event.itemType == step.itemType)
    && (step.MalformedItem? ==> event.Malformed? && event.itemType == step.itemType)
  }

  /** The numbers of the commands that the harness numbered itself, in the order in which they were sent. */
  function Numbers(events: seq<Event>): seq<nat> {
    if events == [] then []
    else
      var last := events[|events| - 1];
      Numbers(events[..|events| - 1])
      + (if last.CommandOutputCompleted? && last.command.Numbered? then [last.command.number] else [])
  }

  lemma {:induction false} EmittedCarries(run: Run, steps: seq<Step>)
    ensures |Emitted(run, steps)| == Sending(steps)
    ensures forall k :: 0 <= k < |steps| && !steps[k].AwaitResponse? ==>
              Sending(steps[..k]) < |Emitted(run, steps)|
                && Carries(Emitted(run, steps)[Sending(steps[..k])], run, steps[k])
    decreases |steps|
  {
    if steps != [] {
      var front, last := steps[..|steps| - 1], steps[|steps| - 1];
      EmittedCarries(run, front);
      forall k | 0 <= k < |steps| && !steps[k].AwaitResponse?
        ensures Sending(steps[..k]) < |Emitted(run, steps)|
        ensures Carries(Emitted(run, steps)[Sending(steps[..k])], run, steps[k])
      {
        if k < |front| {
          assert front[..k] == steps[..k] && front[k] == steps[k];
        }
      }
    }
  }

  lemma {:induction false} EmittedNumbers(run: Run, steps: seq<Step>)
    ensures |Numbers(Emitted(run, steps))| == AutoIds(steps)
    ensures forall k :: 0 <= k < AutoIds(steps) ==> Numbers(Emitted(run, steps))[k] == k + 1
    decreases |steps|
  {
    if steps != [] {
      var front, last := steps[..|steps| - 1], steps[|steps| - 1];
      EmittedNumbers(run, front);
      if last.Emits() {
        var event := StepEvent(run, last, 1 + AutoIds(front));
        assert (Emitted(run, front) + [event])[..|Emitted(run, front)|] == Emitted(run, front);
      } else {
        assert Emitted(run, steps) == Emitted(run, front);
      }
    }
  }

  lemma {:induction false} PrefixCarried(run: Run, steps: seq<Step>, done: nat)
    requires done <= |steps|
    ensures var events := Emitted(run, steps[..done]);
            && |events| == Sending(steps[..done])
            && forall k :: 0 <= k < done && !steps[k].AwaitResponse? ==>
                 Sending(steps[..k]) < |events| && Carries(events[Sending(steps[..k])], run, steps[k])
  {
    EmittedCarries(run, steps[..done]);
    assert forall k :: 0 <= k < done ==> steps[..done][..k] == steps[..k] && steps[..done][k] == steps[k];
  }

  /**
   What is sent for each step. In every reachable state, the scripted events of a run are as many as
   the sending steps that its plan has passed; the event of each of these steps is of the step's own
   kind and carries what the step carries; and the commands that the harness numbers get 1, 2, 3 ...
   */
  lemma {:induction false} StepsDelivered(start: World, history: seq<Action>, run: Run)
    requires Initial(start) && Legal(start, history)
    requires run in Replay(start, history).state.runs && run in Replay(start, history).scripts
    ensures var world := Replay(start, history);
            var steps, events := world.scripts[run].steps, ScriptedEvents(TraceOf(world.sent, run));
            exists done :: 0 <= done <= |steps| && world.state.runs[run].steps == steps[done..]
              && |events| == Sending(steps[..done])
              && (forall k :: 0 <= k < done && !steps[k].AwaitResponse? ==>
                    Sending(steps[..k]) < |events| && Carries(events[Sending(steps[..k])], run, steps[k]))
    ensures var numbers := Numbers(ScriptedEvents(TraceOf(Replay(start, history).sent, run)));
            forall k :: 0 <= k < |numbers| ==> numbers[k] == k + 1
  {
    Reached(start, history, run);
    var world := Replay(start, history);
    var steps, done := world.scripts[run].steps, Done(world.state.runs[run], world.scripts[run]);
    PrefixCarried(run, steps, done);
    EmittedNumbers(run, steps[..done]);
  }

  /**
   What the other faults do. The unknown or malformed item that a fault injects is the first event
   behind the acceptance, as long as anything is, and nothing else is ever injected.
   */
  lemma {:induction false} InjectedOnce(start: World, history: seq<Action>, run: Run)
    requires Initial(start) && Legal(start, history)
    requires run in Replay(start, history).state.runs && run in Replay(start, history).scripts
    ensures var world := Replay(start, history);
            var trace, fault := TraceOf(world.sent, run), world.scripts[run].fault;
            && (Injects(fault) && |trace| > 1 ==> trace[1].origin.Injected? && IsInjected(trace[1].event, run, fault))
            && (forall i :: 0 <= i < |trace| && trace[i].origin.Injected? ==> i == 1 && Injects(fault))
  {
    Reached(start, history, run);
  }

  /**
   Every event of a run is accounted for: accepted first and only once, steered, injected, scripted or
   ended; a run is completed only by its plan, crashed only by its plan's crash fault, and interrupted
   only by an interruption.
   */
  lemma {:induction false} EveryEventAccounted(start: World, history: seq<Action>, run: Run)
    requires Initial(start) && Legal(start, history)
    requires run in Replay(start, history).state.runs && run in Replay(start, history).scripts
    ensures var world := Replay(start, history);
            var trace := TraceOf(world.sent, run);
            && trace != [] && trace[0] == Sent(RunAccepted(run), Accepted)
            && forall i :: 0 <= i < |trace| ==> Accounted(run, world.scripts[run], trace[i], i == 0)
  {
    Reached(start, history, run);
  }

  /** The accepted runs of a session, and the plans of all accepted runs, in the order of their acceptance. */
  function Numbered(sent: seq<Sent>, session: Session): seq<nat> {
    if sent == [] then []
    else
      var last := sent[|sent| - 1].event;
      Numbered(sent[..|sent| - 1], session)
      + (if last.RunAccepted? && last.run.session == session then [last.run.number] else [])
  }

  function Served(sent: seq<Sent>, scripts: map<Run, Plan>): seq<Plan> {
    if sent == [] then []
    else
      var last := sent[|sent| - 1].event;
      Served(sent[..|sent| - 1], scripts)
      + (if last.RunAccepted? && last.run in scripts then [scripts[last.run]] else [])
  }

  /** The runs of each session are numbered 1, 2, 3 ... as they are accepted. */
  ghost predicate RunsInTurn(world: World) {
    forall session ::
      |Numbered(world.sent, session)| + 1 == NextNumber(world.state, session)
      && forall k :: 0 <= k < |Numbered(world.sent, session)| ==> Numbered(world.sent, session)[k] == k + 1
  }

  /** The plans are served in the order given, each once, and the default plan only when they are used up. */
  predicate PlansInTurn(plans: seq<Plan>, world: World) {
    var served := Served(world.sent, world.scripts);
    if |served| <= |plans| then served + world.state.plans == plans
    else world.state.plans == [] && served[..|plans|] == plans
         && forall k :: |plans| <= k < |served| ==> served[k] == Plan([Complete], None)
  }

  ghost predicate InTurn(plans: seq<Plan>, world: World) { RunsInTurn(world) && PlansInTurn(plans, world) }

  lemma {:induction false} ServedElsewhere(sent: seq<Sent>, scripts: map<Run, Plan>, scripts': map<Run, Plan>)
    requires forall i :: 0 <= i < |sent| && sent[i].event.RunAccepted? ==>
               sent[i].event.run in scripts && sent[i].event.run in scripts'
               && scripts'[sent[i].event.run] == scripts[sent[i].event.run]
    ensures Served(sent, scripts') == Served(sent, scripts)
    decreases |sent|
  {
    if sent != [] {
      ServedElsewhere(sent[..|sent| - 1], scripts, scripts');
    }
  }

  lemma AcceptedRun(world: World, session: Session)
    requires RunsInTurn(world)
    ensures RunsInTurn(Begin(world, session))
  {
    var world' := Begin(world, session);
    var number := NextNumber(world.state, session);
    assert world'.sent[..|world'.sent| - 1] == world.sent;
    assert forall other ::
        Numbered(world'.sent, other) == Numbered(world.sent, other) + if other == session then [number] else [];
  }

  lemma BeginServed(world: World, session: Session)
    requires WellFormed(world)
    ensures var world' := Begin(world, session);
            && Served(world'.sent, world'.scripts)
               == Served(world.sent, world.scripts) + [NextPlan(world.state.plans)]
            && world'.state.plans == if world.state.plans == [] then [] else world.state.plans[1..]
  {
    var world' := Begin(world, session);
    var run := Run(session, NextNumber(world.state, session));
    assert world'.sent[..|world'.sent| - 1] == world.sent && run !in world.state.runs;
    ServedElsewhere(world.sent, world.scripts, world'.scripts);
  }

  lemma AcceptedPlan(plans: seq<Plan>, world: World, session: Session)
    requires WellFormed(world) && PlansInTurn(plans, world)
    ensures PlansInTurn(plans, Begin(world, session))
  {
    BeginServed(world, session);
    ServedMore(plans, Served(world.sent, world.scripts), world.state.plans);
  }

  lemma ServedMore(plans: seq<Plan>, served: seq<Plan>, rest: seq<Plan>)
    requires |served| <= |plans| ==> served + rest == plans
    requires |served| > |plans| ==> rest == [] && served[..|plans|] == plans
    ensures rest != [] ==> served + [NextPlan(rest)] + rest[1..] == plans
    ensures rest == [] ==> |served| >= |plans| && (served + [NextPlan(rest)])[..|plans|] == plans
  {
    if rest != [] {
      assert served + [rest[0]] + rest[1..] == served + rest;
    }
  }

  lemma SentInTurn(plans: seq<Plan>, world: World, world': World)
    requires InTurn(plans, world) && world'.state.plans == world.state.plans
    requires world'.state.nextRun == world.state.nextRun && world'.scripts == world.scripts
    requires || world'.sent == world.sent
             || (exists entry :: world'.sent == world.sent + [entry] && !entry.event.RunAccepted?)
    ensures InTurn(plans, world')
  {
    if world'.sent != world.sent {
      assert world'.sent[..|world'.sent| - 1] == world.sent;
      forall session ensures Numbered(world'.sent, session) == Numbered(world.sent, session) {
      }
      assert Served(world'.sent, world'.scripts) == Served(world.sent, world.scripts);
    }
  }

  lemma InTurnStep(plans: seq<Plan>, world: World, action: Action)
    requires Invariant(world) && InTurn(plans, world) && Enabled(world, action)
    ensures InTurn(plans, Apply(world, action))
  {
    var world' := Apply(world, action);
    match action
    case Start(session) =>
      AcceptedRun(world, session);
      AcceptedPlan(plans, world, session);
    case Flush(run) =>
      assert KeptAt(world, run);
      assert world'.sent == world.sent + [world'.sent[|world.sent|]];
      SentInTurn(plans, world, world');
    case Emit(run, _) =>
      assert world'.sent == world.sent + [world'.sent[|world.sent|]];
      SentInTurn(plans, world, world');
    case Interrupt(run) =>
      assert world'.sent == world.sent + [world'.sent[|world.sent|]];
      SentInTurn(plans, world, world');
    case Steer(run, chunk) =>
      assert world'.sent == world.sent + [world'.sent[|world.sent|]];
      SentInTurn(plans, world, world');
    case _ => SentInTurn(plans, world, world');
  }

  /**
   Whatever the calls do, the runs of each session are numbered 1, 2, 3 ... as they are accepted, and
   the plans are served in the order in which they were given, each once.
   */
  lemma ServedInTurn(start: World, history: seq<Action>)
    requires Initial(start) && Legal(start, history)
    ensures InTurn(start.state.plans, Replay(start, history))
  {
    var plans := start.state.plans;
    InitialInvariant(start);
    assert Served(start.sent, start.scripts) + plans == plans;
    forall w: World, a | Invariant(w) && InTurn(plans, w) && Next(w, a).Some?
      ensures Invariant(Next(w, a).value) && InTurn(plans, Next(w, a).value)
    {
      InvariantStep(w, a);
      InTurnStep(plans, w, a);
    }
    Runs.ReplayKeeps(Next, w => Invariant(w) && InTurn(plans, w), start, history);
  }

  /** A request is of the kind of the step that asked it, and only an answer of that kind is recorded for it. */
  lemma RequestsFit(start: World, history: seq<Action>, run: Run, request: Request)
    requires Initial(start) && Legal(start, history)
    requires run in Replay(start, history).state.runs && run in Replay(start, history).scripts
    requires request in Replay(start, history).state.requests && request.run == run
    ensures var world := Replay(start, history);
            exists i :: 0 <= i < |world.scripts[run].steps| && world.scripts[run].steps[i].Asks()
              && world.scripts[run].steps[i].requestId == request.id
              && FitsStep(world.state.requests[request], world.scripts[run].steps[i])
  {
    Reached(start, history, run);
  }

  /** A run's trace opens with its acceptance and carries at most one terminal, which is its last event. */
  lemma {:induction false} OneTerminal(start: World, history: seq<Action>, run: Run)
    requires Initial(start) && Legal(start, history)
    requires run in Replay(start, history).state.runs
    ensures var world := Replay(start, history);
            Bracketed(world.state.runs[run].active, TraceOf(world.sent, run))
  {
    Reached(start, history, run);
  }

  /** No step behind an await has been consumed, let alone sent, unless the awaited response is recorded. */
  lemma {:induction false} GateHolds(start: World, history: seq<Action>, run: Run, gate: nat)
    requires Initial(start) && Legal(start, history)
    requires run in Replay(start, history).state.runs
    requires run in Replay(start, history).scripts
    requires var steps := Replay(start, history).scripts[run].steps; gate < |steps| && steps[gate].AwaitResponse?
    requires var world := Replay(start, history);
             !Answered(world.state, Request(run, world.scripts[run].steps[gate].requestId))
    ensures var world := Replay(start, history);
            exists done :: 0 <= done <= gate
              && world.state.runs[run].steps == world.scripts[run].steps[done..]
              && ScriptedEvents(TraceOf(world.sent, run)) == Emitted(run, world.scripts[run].steps[..done])
  {
    Reached(start, history, run);
  }

  /** While a run's delayed approval was never released, none of its requests is an approval of its plan. */
  lemma DelayHolds(start: World, history: seq<Action>, run: Run)
    requires Initial(start) && Legal(start, history)
    requires run in Replay(start, history).state.runs && run in Replay(start, history).scripts
    requires Replay(start, history).state.runs[run].fault == Some(DelayApproval)
    ensures var world := Replay(start, history);
            var steps := world.scripts[run].steps;
            forall request :: request in world.state.requests && request.run == run ==>
              exists i :: 0 <= i < |steps| && steps[i].UserInput? && steps[i].requestId == request.id
  {
    Reached(start, history, run);
  }

  /** Both crash faults end the run right after the event they name. */
  lemma {:induction false} CrashFaults(start: World, history: seq<Action>, run: Run)
    requires Initial(start) && Legal(start, history)
    requires run in Replay(start, history).state.runs && run in Replay(start, history).scripts
    ensures var world := Replay(start, history);
            var trace := TraceOf(world.sent, run);
            && (world.scripts[run].fault == Some(ExitAfterRunAccepted) ==>
                  |trace| == 1 || (|trace| == 2 && trace[1] == Sent(RunTerminal(run, Crashed), Ended)))
            && (world.scripts[run].fault == Some(ExitAfterFileMutation) ==>
                  forall i :: 0 <= i < |trace| - 1 && trace[i].event.FileMutated? ==>
                    i == |trace| - 2 && trace[|trace| - 1] == Sent(RunTerminal(run, Crashed), Ended))
  {
    Reached(start, history, run);
    var world := Replay(start, history);
    CrashFaultTrace(run, world.state.runs[run], world.scripts[run], TraceOf(world.sent, run));
  }

  lemma CrashFaultTrace(run: Run, record: RunRecord, plan: Plan, trace: seq<Sent>)
    requires CrashFaultKept(run, record, plan, trace)
    ensures plan.fault == Some(ExitAfterRunAccepted) ==>
              |trace| == 1 || (|trace| == 2 && trace[1] == Sent(RunTerminal(run, Crashed), Ended))
    ensures plan.fault == Some(ExitAfterFileMutation) ==>
              forall i :: 0 <= i < |trace| - 1 && trace[i].event.FileMutated? ==>
                i == |trace| - 2 && trace[|trace| - 1] == Sent(RunTerminal(run, Crashed), Ended)
  {
  }

  // ----- What any stretch of a run leaves alone -----

  predicate RunLater(world: World, world': World, run: Run)
    requires run in world.state.runs
  {
    && run in world'.state.runs && run in world.scripts && run in world'.scripts
    && world'.scripts[run] == world.scripts[run]
    && (world.state.runs[run].fault != Some(DelayApproval) ==> world'.state.runs[run].fault != Some(DelayApproval))
    && (!world.state.runs[run].active ==>
          !world'.state.runs[run].active && TraceOf(world'.sent, run) == TraceOf(world.sent, run))
  }

  /** Facts about `world` that no later action undoes. */
  predicate Later(world: World, world': World) {
    && world.state.sessions <= world'.state.sessions
    && (forall run :: run in world.state.runs ==> RunLater(world, world', run))
    && (forall run :: run in world.scripts ==> run in world'.scripts && world'.scripts[run] == world.scripts[run])
    && (forall request :: request in world.state.requests ==>
          && request in world'.state.requests
          && world'.state.requests[request].run == world.state.requests[request].run
          && world'.state.requests[request].kind == world.state.requests[request].kind
          && (world.state.requests[request].response.Some? ==>
                world'.state.requests[request].response == world.state.requests[request].response))
  }

  /** An action sends at most one event, about a run that is active or only now begun. */
  lemma SentStep(world: World, action: Action) returns (added: seq<Sent>)
    requires Invariant(world) && Enabled(world, action)
    ensures Apply(world, action).sent == world.sent + added && |added| <= 1
    ensures added != [] ==>
              var run := added[0].event.Of();
              run !in world.state.runs || action == Flush(run) || Idle(world.state, run)
    ensures action.Flush? ==>
              var delivery := world.state.runs[action.run].pending.value;
              added == [Sent(delivery.event, OriginOf(delivery.commit))] && delivery.event.Of() == action.run
  {
    added := [];
    match action
    case StartSession(_) =>
    case Start(session) => added := [Sent(RunAccepted(Run(session, NextNumber(world.state, session))), Accepted)];
    case Flush(run) =>
      assert KeptAt(world, run);
      var delivery := world.state.runs[run].pending.value;
      added := [Sent(delivery.event, OriginOf(delivery.commit))];
    case Skip(_) =>
    case Hold(_) =>
    case Emit(run, _) => added := [EmitEntry(run, world.state.runs[run])];
    case Steer(run, chunk) => added := [Sent(MessageDelta(run, chunk), Steered)];
    case Interrupt(run) => added := [Sent(RunTerminal(run, Interrupted), Ended)];
    case Respond(_, _) =>
  }

  lemma TraceStep(world: World, action: Action, run: Run) returns (added: seq<Sent>)
    requires Invariant(world) && Enabled(world, action) && run in world.state.runs
    ensures TraceOf(Apply(world, action).sent, run) == TraceOf(world.sent, run) + added
    ensures added != [] ==> action == Flush(run) || Idle(world.state, run)
    ensures action == Flush(run) ==>
              var delivery := world.state.runs[run].pending.value;
              added == [Sent(delivery.event, OriginOf(delivery.commit))]
  {
    var entries := SentStep(world, action);
    if entries == [] {
      assert world.sent + entries == world.sent;
      added := [];
    } else {
      assert entries == [entries[0]];
      TraceAppend(world.sent, entries[0], run);
      added := if entries[0].event.Of() == run then entries else [];
    }
  }

  /** What one action can do to the record and the plan of a run. */
  predicate RecordMoved(world: World, action: Action, after: World, run: Run)
    requires run in world.state.runs && run in world.scripts
  {
    && run in after.state.runs && run in after.scripts && after.scripts[run] == world.scripts[run]
    && (after.state.runs[run].fault == world.state.runs[run].fault || after.state.runs[run].fault == None)
    && (after.state.runs[run].active ==> world.state.runs[run].active)
    && (world.state.runs[run].pending.Some? && action != Flush(run) ==>
          after.state.runs[run] == world.state.runs[run])
  }

  lemma RecordDelivered(world: World, action: Action, run: Run)
    requires WellFormed(world) && Enabled(world, action) && run in world.state.runs
    requires action.Flush? || action.Emit? || action.Interrupt?
    ensures RecordMoved(world, action, Apply(world, action), run)
  {
  }

  lemma RecordStep(world: World, action: Action, run: Run)
    requires WellFormed(world) && Enabled(world, action) && run in world.state.runs
    ensures RecordMoved(world, action, Apply(world, action), run)
  {
    if action.Flush? || action.Emit? || action.Interrupt? {
      RecordDelivered(world, action, run);
    } else if action.Start? {
      assert Run(action.session, NextNumber(world.state, action.session)) != run;
    }
  }

  lemma LaterRun(world: World, action: Action, run: Run)
    requires Invariant(world) && Enabled(world, action) && run in world.state.runs
    ensures RunLater(world, Apply(world, action), run)
  {
    assert KeptAt(world, run);
    RecordStep(world, action, run);
    var added := TraceStep(world, action, run);
    assert added == [] ==> TraceOf(world.sent, run) + added == TraceOf(world.sent, run);
  }

  lemma LaterStep(world: World, action: Action)
    requires Invariant(world) && Enabled(world, action)
    ensures Later(world, Apply(world, action))
  {
    forall run | run in world.state.runs ensures RunLater(world, Apply(world, action), run) {
      LaterRun(world, action, run);
    }
  }

  lemma LaterTransitive(world: World, world1: World, world2: World)
    requires Later(world, world1) && Later(world1, world2)
    ensures Later(world, world2)
  {
  }

  /** A recorded response never changes, a finished run stays finished and silent, a plan is never swapped. */
  lemma {:induction false} LaterReplay(world: World, history: seq<Action>)
    requires Invariant(world) && Legal(world, history)
    ensures Later(world, Replay(world, history))
    decreases |history|
  {
    if history != [] {
      var world1 := Apply(world, history[0]);
      assert Next(world, history[0]) == Some(world1);
      LaterStep(world, history[0]);
      InvariantStep(world, history[0]);
      LaterReplay(world1, history[1..]);
      LaterTransitive(world, world1, Replay(world1, history[1..]));
    }
  }

  /** A staged delivery stays put until a flush sends it. */
  lemma {:induction false} StagedStep(world: World, action: Action, run: Run)
    requires Invariant(world) && Enabled(world, action)
    requires run in world.state.runs && world.state.runs[run].pending.Some?
    ensures var world' := Apply(world, action);
            var record := world.state.runs[run];
            var delivery := record.pending.value;
            && run in world'.state.runs
            && (if action == Flush(run) then
                  && world'.state.runs[run] == Committed(run, record, delivery.commit)
                  && TraceOf(world'.sent, run)
                       == TraceOf(world.sent, run) + [Sent(delivery.event, OriginOf(delivery.commit))]
                else
                  && world'.state.runs[run] == record
                  && TraceOf(world'.sent, run) == TraceOf(world.sent, run))
  {
    RecordStep(world, action, run);
    var added := TraceStep(world, action, run);
    assert added == [] ==> TraceOf(world.sent, run) + added == TraceOf(world.sent, run);
  }

  lemma {:induction false} OverStays(world: World, history: seq<Action>, run: Run)
    requires Invariant(world) && Legal(world, history) && run in world.state.runs && !world.state.runs[run].active
    ensures var world' := Replay(world, history);
            && run in world'.state.runs && !world'.state.runs[run].active
            && TraceOf(world'.sent, run) == TraceOf(world.sent, run)
  {
    LaterReplay(world, history);
    assert RunLater(world, Replay(world, history), run);
  }

  /** A staged terminal is the next event of its run, whatever calls race with it, and its last. */
  lemma {:induction false} StagedTerminalIsNext(world: World, history: seq<Action>, run: Run)
    requires Invariant(world) && Legal(world, history)
    requires run in world.state.runs && CrashStaged(run, world.state.runs[run])
    ensures var world' := Replay(world, history);
            && run in world'.state.runs
            && (|| (TraceOf(world'.sent, run) == TraceOf(world.sent, run) && CrashStaged(run, world'.state.runs[run]))
                || (&& TraceOf(world'.sent, run) == TraceOf(world.sent, run) + [Sent(RunTerminal(run, Crashed), Ended)]
                    && !world'.state.runs[run].active))
    decreases |history|
  {
    if history != [] {
      var world1 := Apply(world, history[0]);
      assert Next(world, history[0]) == Some(world1);
      InvariantStep(world, history[0]);
      StagedStep(world, history[0], run);
      if history[0] == Flush(run) {
        OverStays(world1, history[1..], run);
      } else {
        StagedTerminalIsNext(world1, history[1..], run);
      }
    }
  }
}
