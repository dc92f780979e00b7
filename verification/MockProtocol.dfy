/**
 The staged-delivery protocol of the mock harness as a state machine. Every lock section of every
 call is one action; any number of calls may be between two of their sections at once, and a call
 may be dropped between any two of them, so every run of the harness is a sequence of actions.
 */
module MockProtocol {
  import opened Common
  import Runs

  datatype Fault =
    | ExitAfterRunAccepted
    | ExitAfterFileMutation
    | DelayApproval
    | EmitUnknownEvent
    | EmitMalformedNativePayload
    | NeverComplete
    | Overloaded
    | Disconnected
    | ProtocolFailure

  datatype Step =
    | Message(chunk: string)
    | MessageCompleted(text: string)
    | Approval(requestId: string, summary: string)
    | UserInput(requestId: string, prompt: string)
    | AwaitResponse(requestId: string)
    | FileMutation(path: string, summary: string)
    | CommandOutput(commandId: Option<string>, command: string, chunk: string)
    | Complete
    | UnknownItem(itemType: string)
    | MalformedItem(itemType: string)
  {
    predicate Emits() { !AwaitResponse? }
    predicate Asks() { Approval? || UserInput? }
  }

  datatype Plan = Plan(steps: seq<Step>, fault: Option<Fault>)

  datatype Session = Session(runtime: string, id: string)
  datatype Run = Run(session: Session, number: nat)
  datatype Request = Request(run: Run, id: string)
  datatype Command = Named(id: string) | Numbered(number: nat)
  datatype Terminal = Completed | Interrupted | Crashed

  datatype Event =
    | RunAccepted(run: Run)
    | MessageDelta(run: Run, chunk: string)
    | MessageDone(run: Run, text: string)
    | ApprovalRequested(request: Request, summary: string)
    | UserInputRequested(request: Request, prompt: string)
    | FileMutated(run: Run, path: string, summary: string)
    | CommandOutputCompleted(run: Run, command: Command, commandText: string, output: string)
    | RunTerminal(run: Run, terminal: Terminal)
    | Unknown(run: Run, itemType: string)
    | Malformed(run: Run, itemType: string)
  {
    function Of(): Run {
      if ApprovalRequested? || UserInputRequested? then request.run else run
    }
  }

  /** What makes an event be sent: a step of the plan, a caller, or a fault. */
  datatype Origin = Accepted | Scripted | Steered | Injected | Ended

  datatype Sent = Sent(event: Event, origin: Origin)

  datatype Commit =
    | StepCommit(terminalAfter: Option<Terminal>)
    | Standalone
    | TerminalCommit(consumeStep: bool)

  datatype Delivery = Delivery(event: Event, commit: Commit)

  datatype RunRecord = RunRecord(
    active: bool,
    delayed: bool,
    nextCommandId: nat,
    steps: seq<Step>,
    fault: Option<Fault>,
    pending: Option<Delivery>)

  datatype Response = ApprovalAnswer(approved: bool) | UserInputAnswer(text: string)
  datatype RequestKind = ApprovalKind | UserInputKind
  datatype RequestRecord = RequestRecord(run: Run, kind: RequestKind, response: Option<Response>)

  datatype State = State(
    sessions: set<Session>,
    nextRun: map<Session, nat>,
    plans: seq<Plan>,
    runs: map<Run, RunRecord>,
    requests: map<Request, RequestRecord>)

  /**
   The locked state, everything sent so far, and, for the specification only, the plan each run
   was started with.
   */
  datatype World = World(state: State, sent: seq<Sent>, scripts: map<Run, Plan>)

  // ----- One lock section at a time -----

  datatype Action =
    | StartSession(session: Session)
    | Start(session: Session)
    | Flush(run: Run)
    | Skip(run: Run)
    | Hold(run: Run)
    | Emit(run: Run, release: bool)
    | Steer(run: Run, chunk: string)
    | Interrupt(run: Run)
    | Respond(request: Request, response: Response)

  predicate Rejects(fault: Option<Fault>) {
    fault in {Some(Overloaded), Some(Disconnected), Some(ProtocolFailure)}
  }

  function NextPlan(plans: seq<Plan>): Plan {
    if plans == [] then Plan([Complete], None) else plans[0]
  }

  function KindOf(step: Step): RequestKind {
    if step.UserInput? then UserInputKind else ApprovalKind
  }

  predicate Answers(kind: RequestKind, response: Response) {
    kind.ApprovalKind? <==> response.ApprovalAnswer?
  }

  predicate Idle(state: State, run: Run) {
    run in state.runs && state.runs[run].active && state.runs[run].pending == None
  }

  predicate Answered(state: State, request: Request) {
    request in state.requests && state.requests[request].response.Some?
  }

  /** The front step may be emitted: it is not held back and does not repeat a request. */
  predicate MayEmit(state: State, run: Run, step: Step, release: bool)
    requires run in state.runs
  {
    && step.Emits()
    && (step.Approval? && state.runs[run].fault == Some(DelayApproval) ==> release)
    && (step.Asks() ==> Request(run, step.requestId) !in state.requests)
  }

  predicate Enabled(world: World, action: Action) {
    var state := world.state;
    match action
    case StartSession(session) => true
    case Start(session) => session in state.sessions && !Rejects(NextPlan(state.plans).fault)
    case Flush(run) => run in state.runs && state.runs[run].pending.Some?
    case Skip(run) =>
      && Idle(state, run) && state.runs[run].steps != []
      && state.runs[run].steps[0].AwaitResponse?
      && Answered(state, Request(run, state.runs[run].steps[0].requestId))
    case Hold(run) =>
      && Idle(state, run) && state.runs[run].steps != []
      && state.runs[run].steps[0].Approval? && state.runs[run].fault == Some(DelayApproval)
    case Emit(run, release) =>
      && Idle(state, run) && state.runs[run].steps != []
      && MayEmit(state, run, state.runs[run].steps[0], release)
      && (release ==> run in world.scripts && world.scripts[run].fault == Some(DelayApproval))
    case Steer(run, chunk) => Idle(state, run)
    case Interrupt(run) => Idle(state, run)
    case Respond(request, response) =>
      && request in state.requests
      && Answers(state.requests[request].kind, response)
      && state.requests[request].response == None
  }

  function StepEvent(run: Run, step: Step, nextCommandId: nat): Event
    requires step.Emits()
  {
    match step
    case Message(chunk) => MessageDelta(run, chunk)
    case MessageCompleted(text) => MessageDone(run, text)
    case Approval(id, summary) => ApprovalRequested(Request(run, id), summary)
    case UserInput(id, prompt) => UserInputRequested(Request(run, id), prompt)
    case FileMutation(path, summary) => FileMutated(run, path, summary)
    case CommandOutput(id, command, chunk) =>
      CommandOutputCompleted(run, if id.Some? then Named(id.value) else Numbered(nextCommandId), command, chunk)
    case Complete => RunTerminal(run, Completed)
    case UnknownItem(itemType) => Unknown(run, itemType)
    case MalformedItem(itemType) => Malformed(run, itemType)
  }

  function StepDelivery(run: Run, step: Step, record: RunRecord): Delivery
    requires step.Emits()
  {
    Delivery(
      StepEvent(run, step, record.nextCommandId),
      if step.Complete? then TerminalCommit(true)
      else if step.FileMutation? && record.fault == Some(ExitAfterFileMutation) then StepCommit(Some(Crashed))
      else StepCommit(None))
  }

  function TerminalDelivery(run: Run, terminal: Terminal, consumeStep: bool): Delivery {
    Delivery(RunTerminal(run, terminal), TerminalCommit(consumeStep))
  }

  function OriginOf(commit: Commit): Origin {
    match commit
    case StepCommit(_) => Scripted
    case Standalone => Injected
    case TerminalCommit(consumeStep) => if consumeStep then Scripted else Ended
  }

  function Tail(steps: seq<Step>): seq<Step> {
    if steps == [] then [] else steps[1..]
  }

  /** The record after one of its deliveries was sent. */
  function Committed(run: Run, record: RunRecord, commit: Commit): RunRecord {
    match commit
    case StepCommit(terminalAfter) =>
      record.(steps := Tail(record.steps),
              pending := if terminalAfter.Some? then Some(TerminalDelivery(run, terminalAfter.value, false)) else None)
    case Standalone => record.(pending := None)
    case TerminalCommit(consumeStep) =>
      record.(steps := if consumeStep then Tail(record.steps) else record.steps, pending := None, active := false)
  }

  function Deliver(world: World, run: Run, delivery: Delivery): World
    requires run in world.state.runs
  {
    var record := Committed(run, world.state.runs[run], delivery.commit);
    world.(state := world.state.(runs := world.state.runs[run := record]),
           sent := world.sent + [Sent(delivery.event, OriginOf(delivery.commit))])
  }

  /** What emitting a step does to its run's record, before the delivery is committed. */
  function Prepared(record: RunRecord, step: Step, release: bool): RunRecord {
    var crashing := step.FileMutation? && record.fault == Some(ExitAfterFileMutation);
    var releasing := release && step.Approval?;
    record.(fault := if crashing || releasing then None else record.fault,
            delayed := if releasing then false else record.delayed,
            nextCommandId := if step.CommandOutput? && step.commandId == None then record.nextCommandId + 1
                             else record.nextCommandId)
  }

  function InitialPending(run: Run, fault: Option<Fault>): Option<Delivery> {
    match fault
    case Some(ExitAfterRunAccepted) => Some(TerminalDelivery(run, Crashed, false))
    case Some(EmitUnknownEvent) => Some(Delivery(Unknown(run, "mock.future-item"), Standalone))
    case Some(EmitMalformedNativePayload) => Some(Delivery(Malformed(run, "mock.malformed"), Standalone))
    case _ => None
  }

  function NextNumber(state: State, session: Session): nat {
    if session in state.nextRun then state.nextRun[session] else 1
  }

  function Begin(world: World, session: Session): World {
    var state := world.state;
    var plan := NextPlan(state.plans);
    var number := NextNumber(state, session);
    var run := Run(session, number);
    World(
      state.(nextRun := state.nextRun[session := number + 1],
             plans := if state.plans == [] then [] else state.plans[1..],
             runs := state.runs[run :=
                                RunRecord(true, false, 1, plan.steps, plan.fault, InitialPending(run, plan.fault))]),
      world.sent + [Sent(RunAccepted(run), Accepted)],
      world.scripts[run := plan])
  }

  function Apply(world: World, action: Action): World
    requires Enabled(world, action)
  {
    var state := world.state;
    match action
    case StartSession(session) => world.(state := state.(sessions := state.sessions + {session}))
    case Start(session) => Begin(world, session)
    case Flush(run) => Deliver(world, run, state.runs[run].pending.value)
    case Skip(run) =>
      var record := state.runs[run];
      world.(state := state.(runs := state.runs[run := record.(steps := record.steps[1..])]))
    case Hold(run) =>
      world.(state := state.(runs := state.runs[run := state.runs[run].(delayed := true)]))
    case Emit(run, release) =>
      var record := state.runs[run];
      var step := record.steps[0];
      var requests := if step.Asks()
        then state.requests[Request(run, step.requestId) := RequestRecord(run, KindOf(step), None)]
        else state.requests;
      var runs := state.runs[run := Prepared(record, step, release)];
      Deliver(world.(state := state.(runs := runs, requests := requests)), run, StepDelivery(run, step, record))
    case Steer(run, chunk) => world.(sent := world.sent + [Sent(MessageDelta(run, chunk), Steered)])
    case Interrupt(run) => Deliver(world, run, TerminalDelivery(run, Interrupted, false))
    case Respond(request, response) =>
      world.(state := state.(requests :=
                             state.requests[request := state.requests[request].(response := Some(response))]))
  }

  function Next(world: World, action: Action): Option<World> {
    if Enabled(world, action) then Some(Apply(world, action)) else None
  }

  /** The actions can be taken one after the other. */
  ghost predicate Legal(world: World, history: seq<Action>) { Runs.Legal(Next, world, history) }

  ghost function Replay(world: World, history: seq<Action>): World
    requires Legal(world, history)
  {
    Runs.Replay(Next, world, history)
  }

  predicate Initial(world: World) {
    && world.state.runs == map[] && world.state.requests == map[] && world.state.nextRun == map[]
    && world.sent == [] && world.scripts == map[]
  }

  // ----- What a plan promises -----

  /** Everything sent about one run, in order. */
  function TraceOf(sent: seq<Sent>, run: Run): seq<Sent> {
    if sent == [] then []
    else
      var last := sent[|sent| - 1];
      TraceOf(sent[..|sent| - 1], run) + (if last.event.Of() == run then [last] else [])
  }

  /** The events of a trace that stem from steps of the plan. */
  function ScriptedEvents(trace: seq<Sent>): seq<Event> {
    if trace == [] then []
    else
      var last := trace[|trace| - 1];
      ScriptedEvents(trace[..|trace| - 1]) + (if last.origin.Scripted? then [last.event] else [])
  }

  /** The number of commands in a prefix of a plan that the harness has to number itself. */
  function AutoIds(steps: seq<Step>): nat {
    if steps == [] then 0
    else
      var last := steps[|steps| - 1];
      AutoIds(steps[..|steps| - 1]) + (if last.CommandOutput? && last.commandId == None then 1 else 0)
  }

  /** The events that a prefix of a plan stands for: one per emitting step, in order. */
  function Emitted(run: Run, steps: seq<Step>): seq<Event> {
    if steps == [] then []
    else
      var front, last := steps[..|steps| - 1], steps[|steps| - 1];
      Emitted(run, front) + (if last.Emits() then [StepEvent(run, last, 1 + AutoIds(front))] else [])
  }

  // ----- The invariant -----

  predicate NoTerminal(trace: seq<Sent>) {
    forall i :: 0 <= i < |trace| ==> !trace[i].event.RunTerminal?
  }

  /** A run has sent no terminal while it is active, and exactly one, as its last event, afterwards. */
  predicate Bracketed(active: bool, trace: seq<Sent>) {
    && trace != [] && trace[0].origin.Accepted?
    && (active ==> NoTerminal(trace))
    && (!active ==> trace[|trace| - 1].event.RunTerminal? && NoTerminal(trace[..|trace| - 1]))
  }

  predicate CrashStaged(run: Run, record: RunRecord) {
    record.pending == Some(TerminalDelivery(run, Crashed, false))
  }

  /** What may wait in `pending` between two lock sections. */
  predicate StagedWell(run: Run, record: RunRecord) {
    record.pending.Some? ==>
      && record.active
      && (|| CrashStaged(run, record)
          || (&& record.pending.value.commit.Standalone?
              && (record.pending.value.event.Unknown? || record.pending.value.event.Malformed?)
              && record.pending.value.event.run == run))
  }

  predicate NoMutation(trace: seq<Sent>) {
    forall i :: 0 <= i < |trace| ==> !trace[i].event.FileMutated?
  }

  /** The trace ends in its only file mutation, or that mutation is followed by the crash and nothing else. */
  predicate CrashedAfter(run: Run, record: RunRecord, trace: seq<Sent>) {
    || (&& CrashStaged(run, record) && trace != [] && trace[|trace| - 1].event.FileMutated?
        && NoMutation(trace[..|trace| - 1]))
    || (&& !record.active && record.pending == None && |trace| > 1
        && trace[|trace| - 1] == Sent(RunTerminal(run, Crashed), Ended) && trace[|trace| - 2].event.FileMutated?
        && NoMutation(trace[..|trace| - 2]))
  }

  /** A crash fault ends its run right after the acceptance or right after the first file mutation. */
  predicate CrashFaultKept(run: Run, record: RunRecord, plan: Plan, trace: seq<Sent>) {
    && (plan.fault == Some(ExitAfterRunAccepted) ==>
          || (|trace| == 1 && CrashStaged(run, record))
          || (|trace| == 2 && !record.active && record.pending == None
              && trace[1] == Sent(RunTerminal(run, Crashed), Ended)))
    && (plan.fault == Some(ExitAfterFileMutation) ==>
          if record.fault == None then CrashedAfter(run, record, trace) else NoMutation(trace))
  }

  /** The event that a fault injects into a run, right behind its acceptance. */
  predicate IsInjected(event: Event, run: Run, fault: Option<Fault>) {
    || (fault == Some(EmitUnknownEvent) && event.Unknown? && event.run == run && event.itemType == "mock.future-item")
    || (fault == Some(EmitMalformedNativePayload)
        && event.Malformed? && event.run == run && event.itemType == "mock.malformed")
  }

  predicate Injects(fault: Option<Fault>) {
    fault == Some(EmitUnknownEvent) || fault == Some(EmitMalformedNativePayload)
  }

  /** It is staged with the acceptance, is the next event of its run, and the only one of its kind. */
  predicate InjectionKept(run: Run, record: RunRecord, plan: Plan, trace: seq<Sent>) {
    && (Injects(plan.fault) ==>
          || (|trace| == 1 && record.pending.Some? && record.pending.value.commit.Standalone?
              && IsInjected(record.pending.value.event, run, plan.fault))
          || (|trace| > 1 && trace[1].origin.Injected? && IsInjected(trace[1].event, run, plan.fault)))
    && (record.pending.Some? && record.pending.value.commit.Standalone? ==> Injects(plan.fault) && |trace| == 1)
    && (forall i :: 0 <= i < |trace| && trace[i].origin.Injected? ==> i == 1 && Injects(plan.fault))
  }

  predicate Crashes(fault: Option<Fault>) {
    fault == Some(ExitAfterRunAccepted) || fault == Some(ExitAfterFileMutation)
  }

  /**
   Why an event was sent: the first accepts the run, a caller steers with message chunks only, the plan
   completes the run, a crash fault crashes it, and nothing but an interruption interrupts it.
   */
  predicate Accounted(run: Run, plan: Plan, entry: Sent, first: bool) {
    && (entry.origin.Accepted? <==> first) && (entry.event == RunAccepted(run) <==> first)
    && (entry.origin.Steered? ==> entry.event.MessageDelta?)
    && (entry.origin.Ended? ==> entry.event.RunTerminal?)
    && (entry.event.RunTerminal? ==>
          match entry.event.terminal
          case Completed => entry.origin.Scripted?
          case Interrupted => entry.origin.Ended?
          case Crashed => entry.origin.Ended? && Crashes(plan.fault))
  }

  predicate AllAccounted(run: Run, record: RunRecord, plan: Plan, trace: seq<Sent>) {
    && (CrashStaged(run, record) ==> Crashes(plan.fault))
    && forall i :: 0 <= i < |trace| ==> Accounted(run, plan, trace[i], i == 0)
  }

  /** Requests exist exactly for the asking steps passed, each of the kind; every await passed was answered. */
  predicate RequestsKept(run: Run, plan: Plan, done: nat, requests: map<Request, RequestRecord>)
    requires done <= |plan.steps|
  {
    && (forall i :: 0 <= i < done && plan.steps[i].Asks() ==>
          && Request(run, plan.steps[i].requestId) in requests
          && FitsStep(requests[Request(run, plan.steps[i].requestId)], plan.steps[i]))
    && (forall request :: request in requests && request.run == run ==>
          exists i :: 0 <= i < done && plan.steps[i].Asks() && plan.steps[i].requestId == request.id)
    && (forall i, j :: 0 <= i < j < done && plan.steps[i].Asks() && plan.steps[j].Asks() ==>
          plan.steps[i].requestId != plan.steps[j].requestId)
    && (forall i :: 0 <= i < done && plan.steps[i].AwaitResponse? ==>
          && Request(run, plan.steps[i].requestId) in requests
          && requests[Request(run, plan.steps[i].requestId)].response.Some?)
  }

  /** The request is of the step's kind, and so is its response. */
  predicate FitsStep(request: RequestRecord, step: Step) {
    && (request.kind.ApprovalKind? <==> step.Approval?)
    && (request.response.Some? ==> (request.response.value.ApprovalAnswer? <==> step.Approval?))
  }

  predicate DelayKept(record: RunRecord, plan: Plan, done: nat)
    requires done <= |plan.steps|
  {
    && (record.fault == plan.fault || record.fault == None)
    && (record.delayed ==> plan.fault == Some(DelayApproval))
    && (record.fault == Some(DelayApproval) ==> forall i :: 0 <= i < done ==> !plan.steps[i].Approval?)
  }

  function Done(record: RunRecord, plan: Plan): int {
    |plan.steps| - |record.steps|
  }

  /** The record stands where the sent events say it stands in its plan. */
  predicate ScriptKept(run: Run, record: RunRecord, plan: Plan, trace: seq<Sent>) {
    var done := Done(record, plan);
    && 0 <= done
    && record.steps == plan.steps[done..]
    && ScriptedEvents(trace) == Emitted(run, plan.steps[..done])
    && record.nextCommandId == 1 + AutoIds(plan.steps[..done])
  }

  predicate RunKept(run: Run, record: RunRecord, plan: Plan, trace: seq<Sent>, requests: map<Request, RequestRecord>) {
    && ScriptKept(run, record, plan, trace)
    && Bracketed(record.active, trace)
    && StagedWell(run, record)
    && CrashFaultKept(run, record, plan, trace)
    && InjectionKept(run, record, plan, trace)
    && AllAccounted(run, record, plan, trace)
    && RequestsKept(run, plan, Done(record, plan), requests)
    && DelayKept(record, plan, Done(record, plan))
  }

  predicate KeptAt(world: World, run: Run) {
    && run in world.state.runs && run in world.scripts
    && RunKept(run, world.state.runs[run], world.scripts[run], TraceOf(world.sent, run), world.state.requests)
  }

  predicate WellFormed(world: World) {
    && world.scripts.Keys == world.state.runs.Keys
    && (forall run :: run in world.state.runs ==> run.number < NextNumber(world.state, run.session))
    && (forall i :: 0 <= i < |world.sent| ==> world.sent[i].event.Of() in world.state.runs)
    && (forall request :: request in world.state.requests ==>
          request.run in world.state.runs && world.state.requests[request].run == request.run)
  }

  predicate Invariant(world: World) {
    && WellFormed(world)
    && (forall run {:trigger KeptAt(world, run)} :: run in world.state.runs ==> KeptAt(world, run))
  }
}
