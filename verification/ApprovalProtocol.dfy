/**
 How an approval is answered: the decision is written to the store, sent to the harness, and then
 confirmed. Resolvers run concurrently, retry, and may be cut off by a restart at any moment. Each
 acts on nothing but what it read or was told itself; the store is a compare-and-set map.
 */
module ApprovalProtocol {
  import opened Common
  import Runs

  datatype Approval = Approval(number: nat)
  datatype Decision = Approved | Denied

  datatype Status = Pending | Responding(decision: Decision) | Resolved(decision: Decision) | Voided
  {
    function Decided(): Option<Decision> {
      if Responding? || Resolved? then Some(decision) else None
    }
  }

  /** What left a trace outside the process: decisions made durable, and answers sent to the harness. */
  datatype Mark = Begun(approval: Approval, decision: Decision) | Sent(approval: Approval, decision: Decision)

  /**
   Where a resolver is. `MustBegin`: memory holds no response. `Began`: the store said that it took
   the decision. `MaySend`: memory holds this very decision. `Over`: it succeeded or gave up.
   */
  datatype Phase = Entered | MustBegin | Began | MaySend | SentIt | Confirmed | Over

  datatype Resolver = Resolver(approval: Approval, decision: Decision, phase: Phase)

  /** A row that a restoring task has read, and has yet to put in memory. */
  datatype Row = Row(approval: Approval, status: Status)

  /**
   `open` and `responses` are in memory, and so are the tasks; the store and the trace survive a
   restart. Tasks are known by numbers of their own.
   */
  datatype World = World(
    store: map<Approval, Status>,
    open: set<Approval>,
    responses: map<Approval, Decision>,
    trace: seq<Mark>,
    resolvers: map<nat, Resolver>,
    rows: map<nat, Row>)

  const NOTHING := World(map[], {}, map[], [], map[], map[])

  function Decided(world: World, approval: Approval): Option<Decision> {
    if approval in world.store then world.store[approval].Decided() else None
  }

  /** A change that the store makes may still be reported to the caller as failed. */
  datatype Action =
    | Record(approval: Approval)
    | Remember(approval: Approval)
    | Void(approval: Approval)
    | Forget(approval: Approval)
    | Restart
    | Enter(task: nat, approval: Approval, decision: Decision)
    | Look(task: nat)
    | Begin(task: nat, told: bool)
    | Note(task: nat)
    | Send(task: nat)
    | Confirm(task: nat, told: bool)
    | GiveUp(task: nat)
    | Finish(task: nat)
    | Read(task: nat, approval: Approval)
    | PutBack(task: nat)

  predicate At(world: World, task: nat, phase: Phase) {
    task in world.resolvers && world.resolvers[task].phase == phase
  }

  /** The store's own checks, and for a resolver the phase that its own steps so far have led to. */
  predicate Enabled(world: World, action: Action) {
    match action
    case Record(approval) => approval !in world.store
    case Remember(approval) => approval in world.store
    case Void(approval) => approval in world.store && world.store[approval].Pending?
    case Forget(_) => true
    case Restart => true
    case Enter(task, approval, _) => task !in world.resolvers && approval in world.open
    case Look(task) => At(world, task, Entered)
    case Begin(task, _) =>
      At(world, task, MustBegin)
      && var approval := world.resolvers[task].approval;
         approval in world.store && world.store[approval].Pending?
    case Note(task) => At(world, task, Began)
    case Send(task) => At(world, task, MaySend)
    case Confirm(task, _) =>
      At(world, task, SentIt)
      && var approval := world.resolvers[task].approval;
         approval in world.store && world.store[approval].Responding?
    case GiveUp(task) => task in world.resolvers
    case Finish(task) => At(world, task, Confirmed)
    case Read(task, approval) => task !in world.rows && approval in world.store
    case PutBack(task) => task in world.rows
  }

  function Moved(world: World, task: nat, phase: Phase): World
    requires task in world.resolvers
  {
    world.(resolvers := world.resolvers[task := world.resolvers[task].(phase := phase)])
  }

  function Forgotten(world: World, approval: Approval): World {
    world.(open := world.open - {approval}, responses := Without(world.responses, approval))
  }

  /** A row is put back if its request is still open, with the decision it had when it was read. */
  function Restored(world: World, row: Row): World {
    match row.status
    case Pending => world.(open := world.open + {row.approval})
    case Responding(decision) =>
      world.(open := world.open + {row.approval}, responses := world.responses[row.approval := decision])
    case _ => world
  }

  function Apply(world: World, action: Action): World
    requires Enabled(world, action)
  {
    match action
    case Record(approval) => world.(store := world.store[approval := Pending])
    case Remember(approval) => world.(open := world.open + {approval})
    case Void(approval) => world.(store := world.store[approval := Voided])
    case Forget(approval) => Forgotten(world, approval)
    case Restart => world.(open := {}, responses := map[], resolvers := map[], rows := map[])
    case Enter(task, approval, decision) =>
      world.(resolvers := world.resolvers[task := Resolver(approval, decision, Entered)])
    case Look(task) =>
      var resolver := world.resolvers[task];
      var phase :=
        if resolver.approval !in world.responses then MustBegin
        else if world.responses[resolver.approval] == resolver.decision then MaySend
        else Over;
      Moved(world, task, phase)
    case Begin(task, told) =>
      var resolver := world.resolvers[task];
      Moved(world, task, if told then Began else Over).(
        store := world.store[resolver.approval := Responding(resolver.decision)],
        trace := world.trace + [Begun(resolver.approval, resolver.decision)])
    case Note(task) =>
      var resolver := world.resolvers[task];
      Moved(world, task, MaySend).(responses := world.responses[resolver.approval := resolver.decision])
    case Send(task) =>
      var resolver := world.resolvers[task];
      Moved(world, task, SentIt).(trace := world.trace + [Sent(resolver.approval, resolver.decision)])
    case Confirm(task, told) =>
      var approval := world.resolvers[task].approval;
      Moved(world, task, if told then Confirmed else Over).(
        store := world.store[approval := Resolved(world.store[approval].decision)])
    case GiveUp(task) => Moved(world, task, Over)
    case Finish(task) => Forgotten(Moved(world, task, Over), world.resolvers[task].approval)
    case Read(task, approval) => world.(rows := world.rows[task := Row(approval, world.store[approval])])
    case PutBack(task) => Restored(world, world.rows[task]).(rows := Without(world.rows, task))
  }

  function Step(world: World, action: Action): Option<World> {
    if Enabled(world, action) then Some(Apply(world, action)) else None
  }

  ghost predicate Legal(world: World, history: seq<Action>) { Runs.Legal(Step, world, history) }

  ghost function Replay(world: World, history: seq<Action>): World
    requires Legal(world, history)
  {
    Runs.Replay(Step, world, history)
  }

  // ----- What every history keeps -----

  predicate HasBegun(trace: seq<Mark>, approval: Approval, decision: Decision) {
    exists i :: 0 <= i < |trace| && trace[i] == Begun(approval, decision)
  }

  /** Every answer sent was decided before, durably. */
  predicate SentAfterBegun(trace: seq<Mark>) {
    forall i :: 0 <= i < |trace| && trace[i].Sent? ==>
      HasBegun(trace[..i], trace[i].approval, trace[i].decision)
  }

  predicate BegunOnce(trace: seq<Mark>) {
    forall i, j :: 0 <= i < j < |trace| && trace[i].Begun? && trace[j].Begun? ==>
      trace[i].approval != trace[j].approval
  }

  /** The store remembers exactly the decisions that were begun. */
  ghost predicate Remembered(world: World) {
    forall approval: Approval, decision: Decision {:trigger HasBegun(world.trace, approval, decision)} ::
      HasBegun(world.trace, approval, decision) <==> Decided(world, approval) == Some(decision)
  }

  predicate MemoryAgrees(world: World) {
    forall approval :: approval in world.responses ==>
      Decided(world, approval) == Some(world.responses[approval])
  }

  /** Whoever was told that its decision was taken, or found it in memory, has the store's decision. */
  predicate ResolverAgrees(world: World, task: nat)
    requires task in world.resolvers
  {
    var resolver := world.resolvers[task];
    resolver.phase in {Began, MaySend, SentIt, Confirmed} ==>
      Decided(world, resolver.approval) == Some(resolver.decision)
  }

  predicate RowAgrees(world: World, task: nat)
    requires task in world.rows
  {
    var row := world.rows[task];
    row.status.Decided().Some? ==> Decided(world, row.approval) == row.status.Decided()
  }

  predicate TasksAgree(world: World) {
    && (forall task {:trigger ResolverAgrees(world, task)} :: task in world.resolvers ==> ResolverAgrees(world, task))
    && (forall task {:trigger RowAgrees(world, task)} :: task in world.rows ==> RowAgrees(world, task))
  }

  ghost predicate Invariant(world: World) {
    && SentAfterBegun(world.trace) && BegunOnce(world.trace)
    && Remembered(world) && MemoryAgrees(world) && TasksAgree(world)
  }

  lemma HasBegunAppend(trace: seq<Mark>, mark: Mark, approval: Approval, decision: Decision)
    ensures HasBegun(trace + [mark], approval, decision) <==>
              HasBegun(trace, approval, decision) || mark == Begun(approval, decision)
  {
    var longer := trace + [mark];
    if HasBegun(trace, approval, decision) {
      var i :| 0 <= i < |trace| && trace[i] == Begun(approval, decision);
      assert longer[i] == Begun(approval, decision);
    }
    assert longer[|trace|] == mark;
  }

  lemma SentAppend(trace: seq<Mark>, mark: Mark)
    requires SentAfterBegun(trace) && (mark.Sent? ==> HasBegun(trace, mark.approval, mark.decision))
    ensures SentAfterBegun(trace + [mark])
  {
    var longer := trace + [mark];
    forall i | 0 <= i < |longer| && longer[i].Sent?
      ensures HasBegun(longer[..i], longer[i].approval, longer[i].decision)
    {
      assert longer[..i] == trace[..i];
      if i == |trace| {
        assert trace[..i] == trace;
      }
    }
  }

  /** No step changes a decision that was made, voiding included; only a begin makes one. */
  lemma DecisionsKept(world: World, action: Action)
    requires Enabled(world, action)
    ensures forall approval: Approval :: Decided(world, approval).Some? ==>
              Decided(Apply(world, action), approval) == Decided(world, approval)
    ensures !action.Begin? ==>
              forall approval: Approval :: Decided(Apply(world, action), approval) == Decided(world, approval)
  {
  }

  lemma MemoryStep(world: World, action: Action)
    requires MemoryAgrees(world) && TasksAgree(world) && Enabled(world, action)
    ensures MemoryAgrees(Apply(world, action))
  {
    DecisionsKept(world, action);
    if action.PutBack? {
      assert RowAgrees(world, action.task);
    }
    if action.Note? {
      assert ResolverAgrees(world, action.task);
    }
  }

  lemma ResolverStep(world: World, action: Action, task: nat)
    requires MemoryAgrees(world) && Enabled(world, action) && task in Apply(world, action).resolvers
    requires task in world.resolvers ==> ResolverAgrees(world, task)
    ensures ResolverAgrees(Apply(world, action), task)
  {
    DecisionsKept(world, action);
    match action {
      case Look(_) =>
      case Begin(_, _) =>
      case Note(_) =>
      case Send(_) =>
      case Confirm(_, _) =>
      case GiveUp(_) =>
      case Finish(_) =>
      case Enter(_, _, _) =>
      case _ => assert task in world.resolvers && Apply(world, action).resolvers[task] == world.resolvers[task];
    }
  }

  lemma RowStep(world: World, action: Action, task: nat)
    requires Enabled(world, action) && task in Apply(world, action).rows
    requires task in world.rows ==> RowAgrees(world, task)
    ensures RowAgrees(Apply(world, action), task)
  {
    DecisionsKept(world, action);
  }

  /** Tasks and memory go on agreeing with the store, whoever moves. */
  lemma TasksStep(world: World, action: Action)
    requires MemoryAgrees(world) && TasksAgree(world) && Enabled(world, action)
    ensures MemoryAgrees(Apply(world, action)) && TasksAgree(Apply(world, action))
  {
    MemoryStep(world, action);
    var after := Apply(world, action);
    forall task | task in after.resolvers ensures ResolverAgrees(after, task) {
      assert task in world.resolvers ==> ResolverAgrees(world, task);
      ResolverStep(world, action, task);
    }
    forall task | task in after.rows ensures RowAgrees(after, task) {
      assert task in world.rows ==> RowAgrees(world, task);
      RowStep(world, action, task);
    }
  }

  lemma BeginStep(world: World, task: nat, told: bool)
    requires Invariant(world) && Enabled(world, Begin(task, told))
    ensures Invariant(Apply(world, Begin(task, told)))
  {
    var after := Apply(world, Begin(task, told));
    var approval, decision := world.resolvers[task].approval, world.resolvers[task].decision;
    TasksStep(world, Begin(task, told));
    SentAppend(world.trace, Begun(approval, decision));
    forall i | 0 <= i < |world.trace| && world.trace[i].Begun? ensures world.trace[i].approval != approval {
      assert HasBegun(world.trace, world.trace[i].approval, world.trace[i].decision);
    }
    forall other: Approval, made: Decision
      ensures HasBegun(after.trace, other, made) <==> Decided(after, other) == Some(made)
    {
      HasBegunAppend(world.trace, Begun(approval, decision), other, made);
    }
  }

  lemma SendStep(world: World, task: nat)
    requires Invariant(world) && Enabled(world, Send(task))
    ensures Invariant(Apply(world, Send(task)))
  {
    var after := Apply(world, Send(task));
    var approval, decision := world.resolvers[task].approval, world.resolvers[task].decision;
    TasksStep(world, Send(task));
    assert ResolverAgrees(world, task) && HasBegun(world.trace, approval, decision);
    SentAppend(world.trace, Sent(approval, decision));
    forall other: Approval, made: Decision
      ensures HasBegun(after.trace, other, made) <==> Decided(after, other) == Some(made)
    {
      HasBegunAppend(world.trace, Sent(approval, decision), other, made);
    }
  }

  lemma InvariantStep(world: World, action: Action)
    requires Invariant(world) && Enabled(world, action)
    ensures Invariant(Apply(world, action))
  {
    match action {
      case Begin(task, told) => BeginStep(world, task, told);
      case Send(task) => SendStep(world, task);
      case _ =>
        TasksStep(world, action);
        DecisionsKept(world, action);
    }
  }

  lemma InvariantReplay(world: World, history: seq<Action>)
    requires Invariant(world) && Legal(world, history)
    ensures Invariant(Replay(world, history))
  {
    forall w: World, a | Invariant(w) && Step(w, a).Some? ensures Invariant(Step(w, a).value) {
      InvariantStep(w, a);
    }
    Runs.ReplayKeeps(Step, Invariant, world, history);
  }

  /**
   Agreement: across concurrent resolvers, retries and restarts, all answers sent for one approval
   carry the same decision, and that decision was durably Responding before the first of them.
   */
  lemma Agreement(history: seq<Action>, i: nat, j: nat)
    requires Legal(NOTHING, history)
    requires var trace := Replay(NOTHING, history).trace;
             && i < |trace| && j < |trace| && trace[i].Sent? && trace[j].Sent?
             && trace[i].approval == trace[j].approval
    ensures var trace := Replay(NOTHING, history).trace;
            && trace[i].decision == trace[j].decision
            && HasBegun(trace[..i], trace[i].approval, trace[i].decision)
  {
    InvariantReplay(NOTHING, history);
    var world := Replay(NOTHING, history);
    var trace := world.trace;
    var a :| 0 <= a < i && trace[..i][a] == Begun(trace[i].approval, trace[i].decision);
    var b :| 0 <= b < j && trace[..j][b] == Begun(trace[j].approval, trace[j].decision);
    assert trace[a] == trace[..i][a] && trace[b] == trace[..j][b];
  }
}
