/**
 Credential writes through the broker: calls on one reference share a lock, a call may be
 interrupted at any time, and the worker it has started then runs on by itself until it notices.
 */
module BrokerProtocol {
  import opened Common
  import SecretStore
  import Runs

  /** A secret of the one backend, known by its locator there. */
  type Reference = string

  type Secrets = SecretStore.Secrets

  datatype Write = Put(value: string, overwrite: bool) | Delete

  function Updated(secrets: Secrets, reference: Reference, write: Write): Secrets {
    if write.Put? then secrets[reference := write.value] else Without(secrets, reference)
  }

  /** Whether there is something to write: a put may have to overwrite, a delete needs its key. */
  predicate Applies(secrets: Secrets, reference: Reference, write: Write) {
    if write.Put? then write.overwrite || reference !in secrets else reference in secrets
  }

  /**
   What the worker reports. `Unchanged` is a delete that found its key absent, in the map as it was
   after that many writes.
   */
  datatype Outcome = Changed | Unchanged(after: nat) | Refused | Uncertain

  /** What the caller is told. */
  datatype Answer = Succeeded | Failed | TimedOut | Cancelled | UncertainWrite

  datatype Stage = Waiting | Dispatched | Answered(answer: Answer)

  /** A worker with the store may end without saving; `Saving` is past its last look at whether it is wanted. */
  datatype Worker = Unstarted | Started | HasStore | Saving | Ended(outcome: Outcome)

  /** `lock` is the lock object this call holds a reference to. */
  datatype Call = Call(reference: Reference, write: Write, lock: nat, stage: Stage, abandoned: bool, worker: Worker)

  datatype Entry = Entry(call: nat, before: Secrets)

  /** `locks` is the registry of lock objects; `writes` logs every replacement of the stored map. */
  datatype World = World(
    locks: map<Reference, nat>,
    nextLock: nat,
    calls: seq<Call>,
    store: Option<nat>,
    secrets: Secrets,
    writes: seq<Entry>)

  function Start(secrets: Secrets): World { World(map[], 0, [], None, secrets, []) }

  /** The call still holds its reference to the lock object. */
  predicate Live(call: Call) { !call.stage.Answered? }

  predicate LockInUse(world: World, lock: nat) {
    exists i :: 0 <= i < |world.calls| && Live(world.calls[i]) && world.calls[i].lock == lock
  }

  predicate LockHeld(world: World, lock: nat) {
    exists i :: 0 <= i < |world.calls| && world.calls[i].stage.Dispatched? && world.calls[i].lock == lock
  }

  /** The registry without the locks that nobody holds a reference to any more. */
  function Retained(world: World): map<Reference, nat> {
    map reference | reference in world.locks && LockInUse(world, world.locks[reference]) :: world.locks[reference]
  }

  datatype Action =
    | Begin(reference: Reference, write: Write)
    | Dispatch(call: nat)
    | Interrupt(call: nat, cancelled: bool)
    | TakeStore(call: nat)
    | NoticeAbandoned(call: nat)
    | Refuse(call: nat, uncertain: bool)
    | FindAbsent(call: nat)
    | Proceed(call: nat)
    | SaveFails(call: nat)
    | Save(call: nat)
    | SaveUncertain(call: nat, replaced: bool)
    | Reply(call: nat)

  predicate Enabled(world: World, action: Action) {
    if action.Begin? then true
    else
      action.call < |world.calls|
      && var call := world.calls[action.call];
         match action
         case Dispatch(_) => call.stage.Waiting? && !LockHeld(world, call.lock)
         case Interrupt(_, _) => Live(call)
         case TakeStore(_) => call.worker.Started? && world.store == None
         case NoticeAbandoned(_) => call.abandoned && (call.worker.Started? || call.worker.HasStore?)
         case Refuse(_, _) => call.worker.HasStore?
         case FindAbsent(_) => call.worker.HasStore? && call.write.Delete? && call.reference !in world.secrets
         case Proceed(_) =>
           call.worker.HasStore? && !call.abandoned && Applies(world.secrets, call.reference, call.write)
         case SaveFails(_) => call.worker.Saving?
         case Save(_) => call.worker.Saving?
         case SaveUncertain(_, _) => call.worker.Saving?
         case Reply(_) => call.stage.Dispatched? && call.worker.Ended?
  }

  function Told(outcome: Outcome): Answer {
    match outcome
    case Changed => Succeeded
    case Unchanged(_) => Succeeded
    case Refused => Failed
    case Uncertain => UncertainWrite
  }

  /** The worker is done and lets go of the store, if it has it. */
  function EndWorker(world: World, index: nat, outcome: Outcome): World
    requires index < |world.calls|
  {
    world.(
      calls := world.calls[index := world.calls[index].(worker := Ended(outcome))],
      store := if world.store == Some(index) then None else world.store)
  }

  function Replaced(world: World, index: nat): World
    requires index < |world.calls|
  {
    world.(
      secrets := Updated(world.secrets, world.calls[index].reference, world.calls[index].write),
      writes := world.writes + [Entry(index, world.secrets)])
  }

  function Apply(world: World, action: Action): World
    requires Enabled(world, action)
  {
    match action
    case Begin(reference, write) =>
      var kept := Retained(world);
      var lock := if reference in kept then kept[reference] else world.nextLock;
      world.(
        locks := kept[reference := lock],
        nextLock := if reference in kept then world.nextLock else world.nextLock + 1,
        calls := world.calls + [Call(reference, write, lock, Waiting, false, Unstarted)])
    case Dispatch(index) =>
      world.(calls := world.calls[index := world.calls[index].(stage := Dispatched, worker := Started)])
    case Interrupt(index, cancelled) =>
      var call := world.calls[index];
      var answer := if call.stage.Dispatched? then UncertainWrite else if cancelled then Cancelled else TimedOut;
      world.(calls := world.calls[index := call.(stage := Answered(answer), abandoned := call.stage.Dispatched?)])
    case TakeStore(index) =>
      world.(calls := world.calls[index := world.calls[index].(worker := HasStore)], store := Some(index))
    case NoticeAbandoned(index) => EndWorker(world, index, Refused)
    case Refuse(index, uncertain) => EndWorker(world, index, if uncertain then Uncertain else Refused)
    case FindAbsent(index) => EndWorker(world, index, Unchanged(|world.writes|))
    case Proceed(index) => world.(calls := world.calls[index := world.calls[index].(worker := Saving)])
    case SaveFails(index) => EndWorker(world, index, Refused)
    case Save(index) => EndWorker(Replaced(world, index), index, Changed)
    case SaveUncertain(index, replaced) =>
      EndWorker(if replaced then Replaced(world, index) else world, index, Uncertain)
    case Reply(index) =>
      var answer := Told(world.calls[index].worker.outcome);
      world.(calls := world.calls[index := world.calls[index].(stage := Answered(answer))])
  }

  function Step(world: World, action: Action): Option<World> {
    if Enabled(world, action) then Some(Apply(world, action)) else None
  }

  ghost predicate Legal(world: World, history: seq<Action>) { Runs.Legal(Step, world, history) }

  ghost function Replay(world: World, history: seq<Action>): World
    requires Legal(world, history)
  {
    Runs.Replay(Step, world, history)
  }

  // ----- Locks -----

  /** Live calls on one reference share one lock, which is the registered one; other references have others. */
  predicate LocksAgree(world: World) {
    && (forall i :: 0 <= i < |world.calls| && Live(world.calls[i]) ==>
          world.calls[i].reference in world.locks && world.locks[world.calls[i].reference] == world.calls[i].lock)
    && (forall reference :: reference in world.locks ==> world.locks[reference] < world.nextLock)
    && (forall a, b :: a in world.locks && b in world.locks && world.locks[a] == world.locks[b] ==> a == b)
  }

  /** At most one call holds a lock. */
  predicate Exclusive(world: World) {
    forall i, j :: 0 <= i < j < |world.calls|
                   && world.calls[i].stage.Dispatched? && world.calls[j].stage.Dispatched? ==>
      world.calls[i].lock != world.calls[j].lock
  }

  lemma LocksBegin(world: World, reference: Reference, write: Write)
    requires LocksAgree(world) && Exclusive(world)
    ensures LocksAgree(Apply(world, Begin(reference, write))) && Exclusive(Apply(world, Begin(reference, write)))
  {
    var after, kept := Apply(world, Begin(reference, write)), Retained(world);
    forall i | 0 <= i < |after.calls| && Live(after.calls[i])
      ensures after.calls[i].reference in after.locks && after.locks[after.calls[i].reference] == after.calls[i].lock
    {
      if i < |world.calls| {
        assert LockInUse(world, world.calls[i].lock);
        assert world.calls[i].reference in kept;
      }
    }
  }

  lemma LocksStep(world: World, action: Action)
    requires LocksAgree(world) && Exclusive(world) && Enabled(world, action)
    ensures LocksAgree(Apply(world, action)) && Exclusive(Apply(world, action))
  {
    if action.Begin? {
      LocksBegin(world, action.reference, action.write);
    } else {
      var after := Apply(world, action);
      assert after.locks == world.locks && after.nextLock == world.nextLock && |after.calls| == |world.calls|;
      forall i | 0 <= i < |world.calls|
        ensures after.calls[i].lock == world.calls[i].lock && after.calls[i].reference == world.calls[i].reference
        ensures Live(after.calls[i]) ==> Live(world.calls[i])
        ensures after.calls[i].stage.Dispatched? ==> world.calls[i].stage.Dispatched? || (action == Dispatch(i))
      {
      }
    }
  }

  // ----- One call, its worker and its answer -----

  predicate Wrote(world: World, index: nat) {
    exists k :: 0 <= k < |world.writes| && world.writes[k].call == index
  }

  /** The stored map as it was after that many writes. */
  function MapAfter(world: World, count: nat): Secrets {
    if count < |world.writes| then world.writes[count].before else world.secrets
  }

  predicate AbsentAfter(world: World, reference: Reference, count: nat) {
    count <= |world.writes| && reference !in MapAfter(world, count)
  }

  predicate CallOk(world: World, index: nat)
    requires index < |world.calls|
  {
    var call := world.calls[index];
    && (call.stage.Waiting? ==> call.worker.Unstarted? && !call.abandoned)
    && (call.stage.Dispatched? ==> !call.worker.Unstarted? && !call.abandoned)
    && (call.worker.HasStore? || call.worker.Saving? <==> world.store == Some(index))
    && (Wrote(world, index) ==> call.worker.Ended? && (call.worker.outcome.Changed? || call.worker.outcome.Uncertain?))
    && (call.worker.Ended? && call.worker.outcome.Changed? ==> Wrote(world, index))
    && (call.worker.Saving? ==> Applies(world.secrets, call.reference, call.write))
    && (call.worker.Ended? && call.worker.outcome.Unchanged? ==>
          call.write.Delete? && AbsentAfter(world, call.reference, call.worker.outcome.after))
    && (call.stage.Answered? ==>
          match call.stage.answer
          case UncertainWrite => !call.worker.Unstarted?
          case Succeeded => call.worker.Ended? && (call.worker.outcome.Changed? || call.worker.outcome.Unchanged?)
          case Failed => call.worker == Ended(Refused)
          case _ => call.worker.Unstarted?)
    && (call.stage.Answered? && !call.worker.Ended? && !call.worker.Unstarted? ==> call.abandoned)
  }

  predicate CallsOk(world: World) {
    forall i {:trigger CallOk(world, i)} :: 0 <= i < |world.calls| ==> CallOk(world, i)
  }

  // ----- The log of writes -----

  /** Each entry is one key updated in the map that the entry before it left; no call writes twice. */
  predicate LogOk(world: World) {
    && (forall k :: 0 <= k < |world.writes| ==> world.writes[k].call < |world.calls|)
    && (forall k :: 0 <= k < |world.writes| ==> MapAfter(world, k + 1) == Left(world, k) && EntryApplies(world, k))
    && (forall j, k :: 0 <= j < k < |world.writes| ==> world.writes[j].call != world.writes[k].call)
  }

  /** The map that entry `k` made: one key of its call, updated. */
  function Left(world: World, k: nat): Secrets
    requires k < |world.writes|
  {
    var entry := world.writes[k];
    if entry.call >= |world.calls| then entry.before
    else Updated(entry.before, world.calls[entry.call].reference, world.calls[entry.call].write)
  }

  /** A write is made only where it applies: nothing is overwritten unasked, nothing absent is deleted. */
  predicate EntryApplies(world: World, k: nat)
    requires k < |world.writes|
  {
    var entry := world.writes[k];
    entry.call < |world.calls| ==>
      Applies(entry.before, world.calls[entry.call].reference, world.calls[entry.call].write)
  }

  predicate Invariant(world: World) { LocksAgree(world) && Exclusive(world) && CallsOk(world) && LogOk(world) }

  lemma WroteAppend(world: World, after: World, entry: Entry, index: nat)
    requires after.writes == world.writes + [entry]
    ensures Wrote(after, index) <==> Wrote(world, index) || entry.call == index
  {
    if Wrote(world, index) {
      var k :| 0 <= k < |world.writes| && world.writes[k].call == index;
      assert after.writes[k].call == index;
    }
    assert after.writes[|world.writes|] == entry;
  }
}
