/**
 The credential broker's write path over the local-file store, one call and one worker at a time,
 among all the others.
 */
module Broker {
  import opened Common
  import opened BrokerProtocol
  import opened BrokerProofs
  import Runs
  import SecretStore

  /** A call is in the hands of two tasks: its caller, and the worker that the caller has started. */
  datatype Role = Caller | Worker

  predicate Own(role: Role, action: Action, index: nat) {
    && !action.Begin? && action.call == index
    && (action.Dispatch? || action.Interrupt? || action.Reply? <==> role.Caller?)
  }

  /** Nobody else touches what is in a task's hands; once abandoned, a call stays abandoned. */
  predicate Untouched(role: Role, call: Call, next: Call) {
    if role.Caller? then next == call.(worker := next.worker)
    else next == call.(stage := next.stage, abandoned := next.abandoned) && (call.abandoned ==> next.abandoned)
  }

  predicate SameRequest(call: Call, next: Call) {
    next.reference == call.reference && next.write == call.write
  }

  lemma OthersLeaveIt(world: World, action: Action, role: Role, index: nat)
    requires Sound(world) && Enabled(world, action) && index < |world.calls| && !Own(role, action, index)
    requires role.Worker? ==> !world.calls[index].worker.Unstarted?
    ensures var after := Apply(world, action);
            index < |after.calls| && Untouched(role, world.calls[index], after.calls[index])
  {
    assert CallOk(world, index);
  }

  /** While a worker has the store, nobody else changes the stored map. */
  lemma OthersLeaveStore(world: World, action: Action, index: nat)
    requires Sound(world) && Enabled(world, action) && world.store == Some(index)
    requires index < |world.calls| && !Own(Worker, action, index)
    ensures var after := Apply(world, action);
            && !Writes(action) && after.store == world.store
            && after.secrets == world.secrets && after.writes == world.writes
  {
    if !action.Begin? {
      assert CallOk(world, action.call);
    }
  }

  lemma SecretsChangeUnless(world: World, action: Action)
    requires Enabled(world, action)
    ensures !Writes(action) ==> Apply(world, action).secrets == world.secrets
  {
  }

  /** What a worker reports of what the file has reported to it. */
  predicate PassesOn(write: Write, report: SecretStore.Report, outcome: Outcome) {
    match report
    case PutDone(put) =>
      && write.Put?
      && (put.Ok? ==> outcome.Changed?)
      && (put == SecretStore.Err(SecretStore.UncertainWrite) ==> outcome.Uncertain?)
      && (put.Err? && !put.error.UncertainWrite? ==> outcome.Refused?)
    case DeleteDone(delete) =>
      && write.Delete?
      && (delete == SecretStore.Ok(SecretStore.Deleted) ==> outcome.Changed?)
      && (delete == SecretStore.Ok(SecretStore.NotThere) ==> outcome.Unchanged?)
      && (delete == SecretStore.Err(SecretStore.UncertainWrite) ==> outcome.Uncertain?)
      && (delete.Err? && !delete.error.UncertainWrite? ==> outcome.Refused?)
  }

  /** The caller could go on: its lock is free, or its worker has reported. */
  predicate CanGoOn(world: World, index: nat)
    requires index < |world.calls|
  {
    var call := world.calls[index];
    || (call.stage.Waiting? && !LockHeld(world, call.lock))
    || (call.stage.Dispatched? && call.worker.Ended?)
  }

  class CredentialBroker {
    var locks: map<Reference, nat>
    var nextLock: nat
    var calls: seq<Call>
    var store: Option<nat>
    var secrets: Secrets
    var writes: seq<Entry>
    const file: SecretStore.LocalFile
    /** The worker, if any, that has replaced the file's contents and has not reported it yet. */
    ghost var ahead: Option<nat>
    ghost var initial: Secrets
    ghost var history: seq<Action>
    /** How often the calling task has looked at the world. */
    ghost var looks: nat

    function Now(): World
      reads this
    {
      World(locks, nextLock, calls, store, secrets, writes)
    }

    ghost predicate Taken()
      reads this
    {
      Legal(Start(initial), history) && Replay(Start(initial), history) == Now()
    }

    /** The log is a legal one, and the file holds the map that the log has led to. */
    ghost predicate Valid()
      reads this, file
    {
      && Taken() && (ahead.Some? ==> store == ahead)
      && (ahead == None ==> SecretStore.Contents(file.disk) == secrets)
    }

    constructor (disk: SecretStore.Disk)
      ensures Valid() && ahead == None && fresh(file) && file.disk == disk
      ensures Now() == Start(SecretStore.Contents(disk))
    {
      file := new SecretStore.LocalFile(disk);
      locks, nextLock, calls, store, writes := map[], 0, [], None, [];
      secrets, initial := SecretStore.Contents(disk), SecretStore.Contents(disk);
      ahead, history, looks := None, [], 0;
    }

    lemma Kept()
      requires Taken()
      ensures Sound(Now())
    {
      StartSound(initial);
      SoundReplay(Start(initial), history);
    }

    ghost method Took(before: World, action: Action)
      requires Legal(Start(initial), history) && Replay(Start(initial), history) == before
      requires Enabled(before, action) && Now() == Apply(before, action)
      modifies `history
      ensures Taken() && history == old(history) + [action]
    {
      Runs.ReplayAppend(Step, Start(initial), history, action);
      history := history + [action];
    }

    /** One step of whatever task; a worker that replaces the stored map writes the file. */
    method Act(action: Action)
      requires Valid() && Enabled(Now(), action)
      requires ahead.Some? ==> !Writes(action) && Apply(Now(), action).store == ahead
      modifies this, file
      ensures Valid() && initial == old(initial) && ahead == old(ahead) && Now() == Apply(old(Now()), action)
      ensures looks == old(looks) && file.reports == old(file.reports) && history == old(history) + [action]
      ensures !Writes(action) ==> file.disk == old(file.disk)
    {
      SecretsChangeUnless(Now(), action);
      Advance(action);
      if Writes(action) {
        file.disk := SecretStore.Stored(secrets);
      }
    }

    method Advance(action: Action)
      requires Taken() && Enabled(Now(), action)
      modifies this
      ensures Taken() && initial == old(initial) && ahead == old(ahead) && Now() == Apply(old(Now()), action)
      ensures looks == old(looks) && history == old(history) + [action]
    {
      ghost var before := Now();
      var next := Apply(Now(), action);
      locks, nextLock, calls, store := next.locks, next.nextLock, next.calls, next.store;
      secrets, writes := next.secrets, next.writes;
      Took(before, action);
    }

    /** Everybody else takes any number of steps; while call `mine` has the store, nobody else writes it. */
    method Yield(role: Role, mine: nat)
      requires Valid() && mine < |calls| && (ahead.Some? ==> ahead == Some(mine) && role.Worker?)
      requires role.Worker? ==> !calls[mine].worker.Unstarted?
      modifies this, file
      ensures Valid() && initial == old(initial) && ahead == old(ahead)
      ensures looks == old(looks) + 1 && file.reports == old(file.reports)
      ensures mine < |calls| && Untouched(role, old(calls)[mine], calls[mine])
      ensures role.Worker? && old(store) == Some(mine) ==>
                && store == old(store) && secrets == old(secrets) && writes == old(writes)
                && file.disk == old(file.disk)
    {
      var turns: int := *;
      for turn := 0 to if turns < 0 then 0 else turns
        invariant Valid() && initial == old(initial) && ahead == old(ahead)
        invariant looks == old(looks) && file.reports == old(file.reports)
        invariant mine < |calls| && Untouched(role, old(calls)[mine], calls[mine])
        invariant role.Worker? && old(store) == Some(mine) ==>
                    && store == old(store) && secrets == old(secrets) && writes == old(writes)
                    && file.disk == old(file.disk)
      {
        var action: Action := *;
        if Enabled(Now(), action) && !Own(role, action, mine) {
          Kept();
          OthersLeaveIt(Now(), action, role, mine);
          if role.Worker? && store == Some(mine) {
            OthersLeaveStore(Now(), action, mine);
          }
          Act(action);
        }
      }
      looks := looks + 1;
    }

    /** The lock of a reference: locks nobody uses are dropped, a used one is shared, else a new one is made. */
    method GetLock(reference: Reference) returns (lock: nat)
      modifies `locks, `nextLock
      ensures var kept := Retained(old(Now()));
              && lock == (if reference in kept then kept[reference] else old(nextLock))
              && locks == kept[reference := lock]
              && nextLock == (if reference in kept then old(nextLock) else old(nextLock) + 1)
    {
      locks := Retained(Now());
      if reference in locks {
        lock := locks[reference];
        assert locks == locks[reference := lock];
        return;
      }
      lock := nextLock;
      nextLock := nextLock + 1;
      locks := locks[reference := lock];
    }

    method Enter(reference: Reference, write: Write) returns (index: nat)
      requires Valid()
      modifies `locks, `nextLock, `calls, `history
      ensures Valid() && index == |old(calls)| < |calls|
      ensures calls[index].stage.Waiting? && calls[index].reference == reference && calls[index].write == write
    {
      ghost var before := Now();
      var lock := GetLock(reference);
      index := |calls|;
      calls := calls + [Call(reference, write, lock, Waiting, false, Unstarted)];
      Took(before, Begin(reference, write));
    }

    method Dispatched(index: nat)
      requires Valid() && index < |calls| && calls[index].stage.Waiting? && !LockHeld(Now(), calls[index].lock)
      modifies `calls, `history
      ensures Valid() && Now() == Apply(old(Now()), Dispatch(index))
    {
      ghost var before := Now();
      calls := calls[index := calls[index].(stage := BrokerProtocol.Dispatched, worker := Started)];
      Took(before, Dispatch(index));
    }

    method Replied(index: nat) returns (answer: Answer)
      requires Valid() && index < |calls| && calls[index].stage.Dispatched? && calls[index].worker.Ended?
      modifies `calls, `history
      ensures history == old(history) + [Reply(index)]
      ensures Valid() && Now() == Apply(old(Now()), Reply(index)) && answer == Told(old(calls)[index].worker.outcome)
    {
      ghost var before := Now();
      answer := Told(calls[index].worker.outcome);
      calls := calls[index := calls[index].(stage := Answered(answer))];
      Took(before, Reply(index));
    }

    /** A timeout or a cancellation: uncertain if the action was dispatched, and its worker is abandoned. */
    method Interrupted(index: nat, cancelled: bool) returns (answer: Answer)
      requires Valid() && index < |calls| && Live(calls[index])
      modifies `calls, `history
      ensures Valid() && Now() == Apply(old(Now()), Interrupt(index, cancelled))
      ensures history == old(history) + [Interrupt(index, cancelled)]
      ensures answer == if old(calls)[index].stage.Dispatched? then UncertainWrite
                        else if cancelled then Cancelled else TimedOut
    {
      ghost var before := Now();
      var dispatched := calls[index].stage.Dispatched?;
      answer := if cancelled then Cancelled else TimedOut;
      if dispatched {
        answer := UncertainWrite;
      }
      calls := calls[index := calls[index].(stage := Answered(answer), abandoned := dispatched)];
      Took(before, Interrupt(index, cancelled));
    }

    /**
     One put or delete. `patience` is how long it waits before it is interrupted. A success means that
     its own key was updated exactly once, or was absent already where it was to be deleted; an answer
     that is neither success nor uncertain means that it wrote nothing.
     */
    method Run(reference: Reference, write: Write, cancelledBefore: bool, patience: nat, cancelled: bool)
      returns (answer: Answer, index: Option<nat>)
      requires Valid() && ahead == None
      modifies this, file
      ensures Valid() && ahead == None && initial == old(initial)
      ensures index == None <==> cancelledBefore
      ensures cancelledBefore ==> answer == Cancelled && Now() == old(Now())
      ensures index.Some? ==> index.value < |calls| && calls[index.value].stage == Answered(answer)
      ensures index.Some? ==> calls[index.value].reference == reference && calls[index.value].write == write
      ensures index.Some? && answer == Succeeded ==> Fulfilled(Now(), index.value)
      ensures index.Some? && answer == Succeeded && write.Put? ==> exists k :: OneWrite(Now(), index.value, k)
      ensures index.Some? && answer in {Failed, TimedOut, Cancelled} ==> !Wrote(Now(), index.value)
      ensures index.Some? ==> Over(index.value, cancelled)
      ensures index.Some? && history[|history| - 1].Interrupt? ==> looks >= old(looks) + patience
      ensures index.Some? && answer == TimedOut ==> !cancelled
      ensures index.Some? && answer == Cancelled ==> cancelled
    {
      if cancelledBefore {
        return Cancelled, None;
      }
      var mine := Enter(reference, write);
      index := Some(mine);
      answer := Work(mine, patience, cancelled);
      Kept();
      assert CallOk(Now(), mine);
      if answer == Succeeded {
        SuccessIsOneUpdate(Now(), mine);
      }
    }

    /** The call's last step was to take the worker's report, or to be interrupted. */
    ghost predicate Over(mine: nat, cancelled: bool)
      reads `history
    {
      history != [] && history[|history| - 1] in {Reply(mine), Interrupt(mine, cancelled)}
    }

    method Work(mine: nat, patience: nat, cancelled: bool) returns (answer: Answer)
      requires Valid() && ahead == None && mine < |calls| && calls[mine].stage.Waiting?
      modifies this, file
      ensures Valid() && ahead == None && initial == old(initial) && mine < |calls|
              && calls[mine].stage == Answered(answer)
      ensures SameRequest(old(calls)[mine], calls[mine])
      ensures Over(mine, cancelled)
      ensures history[|history| - 1].Interrupt? ==> looks >= old(looks) + patience
      ensures answer == TimedOut ==> !cancelled
      ensures answer == Cancelled ==> cancelled
    {
      for turn := 0 to patience
        invariant Valid() && ahead == None && initial == old(initial) && mine < |calls| && Live(calls[mine])
        invariant looks >= old(looks) + turn
        invariant SameRequest(old(calls)[mine], calls[mine])
      {
        var replied := TryAgain(mine);
        if replied.Some? {
          return replied.value;
        }
      }
      answer := Interrupted(mine, cancelled);
    }

    /** A call takes its lock as soon as it is free, and the worker's report as soon as there is one. */
    method TryAgain(mine: nat) returns (answer: Option<Answer>)
      requires Valid() && ahead == None && mine < |calls| && Live(calls[mine])
      modifies this, file
      ensures Valid() && ahead == None && initial == old(initial) && mine < |calls|
      ensures SameRequest(old(calls)[mine], calls[mine])
      ensures if answer.Some? then calls[mine].stage == Answered(answer.value) else Live(calls[mine])
      ensures answer.Some? ==> history != [] && history[|history| - 1] == Reply(mine)
      ensures answer.Some? ==> answer.value != TimedOut && answer.value != Cancelled
      ensures answer == None ==> !CanGoOn(Now(), mine)
      ensures looks == old(looks) + 1
    {
      Yield(Caller, mine);
      if calls[mine].stage.Waiting? {
        if !LockHeld(Now(), calls[mine].lock) {
          Dispatched(mine);
        }
      } else if calls[mine].worker.Ended? {
        var told := Replied(mine);
        return Some(told);
      }
      return None;
    }

    // ----- The worker -----

    /** The worker passed on what the file reported to it; or it noticed that it was abandoned and did nothing. */
    twostate predicate WorkDone(index: nat)
      reads this, file
      requires index < |calls| && calls[index].worker.Ended?
    {
      || (file.reports == old(file.reports) && calls[index].worker.outcome.Refused? && calls[index].abandoned)
      || (|file.reports| == |old(file.reports)| + 1 && old(file.reports) <= file.reports
          && PassesOn(calls[index].write, file.reports[|file.reports| - 1], calls[index].worker.outcome))
    }

    /**
     The worker of one call, which runs on when its caller has gone. It waits for the store, looks
     twice whether it is still wanted, and does its put or delete on the file; what it reports, and
     that it is entitled to report it, follows from the contracts of the file's own operations.
     */
    method RunWorker(index: nat, weather: SecretStore.Weather, patience: nat) returns (done: bool)
      requires Valid() && ahead == None && index < |calls| && calls[index].worker.Started?
      modifies this, file
      ensures Valid() && ahead == None && index < |calls|
      ensures SameRequest(old(calls)[index], calls[index])
      ensures if done then calls[index].worker.Ended? else calls[index].worker.Started?
      ensures !done ==> file.reports == old(file.reports) && looks >= old(looks) + patience
      ensures done ==> WorkDone(index)
    {
      done := WaitForStore(index, patience);
      if !done || calls[index].worker.Ended? {
        return;
      }
      Yield(Worker, index);
      var early := calls[index].abandoned;
      Yield(Worker, index);
      var met := weather.(abandonedEarly := early, abandonedLate := calls[index].abandoned);
      match calls[index].write {
        case Put(value, overwrite) => PutOnFile(index, value, overwrite, met);
        case Delete => DeleteOnFile(index, met);
      }
    }

    /** The locks of the store: a caller that is gone is noticed while waiting for them. */
    method WaitForStore(index: nat, patience: nat) returns (done: bool)
      requires Valid() && ahead == None && index < |calls| && calls[index].worker.Started?
      modifies this, file
      ensures Valid() && ahead == None && index < |calls|
      ensures SameRequest(old(calls)[index], calls[index])
      ensures !done ==> calls[index].worker.Started? && looks >= old(looks) + patience
      ensures !done && patience > 0 ==> store.Some? && !calls[index].abandoned
      ensures done ==>
                || (calls[index].worker == Ended(Refused) && calls[index].abandoned)
                || (calls[index].worker.HasStore? && store == Some(index))
      ensures file.reports == old(file.reports)
    {
      for turn := 0 to patience
        invariant Valid() && ahead == None && index < |calls| && calls[index].worker.Started?
        invariant looks >= old(looks) + turn && file.reports == old(file.reports)
        invariant turn > 0 ==> store.Some? && !calls[index].abandoned
        invariant SameRequest(old(calls)[index], calls[index])
      {
        Yield(Worker, index);
        if store == None {
          Act(TakeStore(index));
          return true;
        }
        if calls[index].abandoned {
          Act(NoticeAbandoned(index));
          return true;
        }
      }
      return false;
    }

    method PutOnFile(index: nat, value: string, overwrite: bool, weather: SecretStore.Weather)
      requires Valid() && ahead == None && index < |calls| && calls[index].worker.HasStore? && store == Some(index)
      requires calls[index].write == Put(value, overwrite) && weather.abandonedLate == calls[index].abandoned
      modifies this, file
      ensures Valid() && ahead == None && index < |calls| && calls[index].worker.Ended?
      ensures SameRequest(old(calls)[index], calls[index])
      ensures |file.reports| == |old(file.reports)| + 1 && old(file.reports) <= file.reports
      ensures PassesOn(calls[index].write, file.reports[|file.reports| - 1], calls[index].worker.outcome)
    {
      var result := file.Put(calls[index].reference, value, overwrite, weather);
      if result.Ok? || SecretStore.Contents(file.disk) != secrets {
        Saved(index, result.Ok?);
      } else {
        Act(Refuse(index, result.error.UncertainWrite?));
      }
    }

    method DeleteOnFile(index: nat, weather: SecretStore.Weather)
      requires Valid() && ahead == None && index < |calls| && calls[index].worker.HasStore? && store == Some(index)
      requires calls[index].write == Delete && weather.abandonedLate == calls[index].abandoned
      modifies this, file
      ensures Valid() && ahead == None && index < |calls| && calls[index].worker.Ended?
      ensures SameRequest(old(calls)[index], calls[index])
      ensures |file.reports| == |old(file.reports)| + 1 && old(file.reports) <= file.reports
      ensures PassesOn(calls[index].write, file.reports[|file.reports| - 1], calls[index].worker.outcome)
    {
      var result := file.Delete(calls[index].reference, weather);
      if result == SecretStore.Ok(SecretStore.NotThere) {
        assert SecretStore.Contents(file.disk) == secrets;
        Act(FindAbsent(index));
      } else if result.Ok? || SecretStore.Contents(file.disk) != secrets {
        Saved(index, result.Ok?);
      } else {
        Act(Refuse(index, result.error.UncertainWrite?));
      }
    }

    /** The file has been replaced, the worker being past its last look; it reports so in its own time. */
    method Saved(index: nat, told: bool)
      requires Taken() && ahead == None && index < |calls| && calls[index].worker.HasStore? && store == Some(index)
      requires !calls[index].abandoned && Applies(secrets, calls[index].reference, calls[index].write)
      requires SecretStore.Contents(file.disk) == Updated(secrets, calls[index].reference, calls[index].write)
      modifies this, file
      ensures Valid() && ahead == None && index < |calls|
      ensures calls[index].worker == Ended(if told then Changed else Uncertain) && file.reports == old(file.reports)
      ensures SameRequest(old(calls)[index], calls[index])
    {
      ahead := Some(index);
      Act(Proceed(index));
      Yield(Worker, index);
      Report(index, told);
    }

    method Report(index: nat, told: bool)
      requires Valid() && ahead == Some(index) && index < |calls| && calls[index].worker.Saving? && store == Some(index)
      requires SecretStore.Contents(file.disk) == Updated(secrets, calls[index].reference, calls[index].write)
      modifies this
      ensures Valid() && ahead == None && index < |calls|
      ensures calls[index].worker == Ended(if told then Changed else Uncertain)
      ensures SameRequest(old(calls)[index], calls[index])
    {
      ghost var before := Now();
      var call := calls[index];
      writes := writes + [Entry(index, secrets)];
      secrets := Updated(secrets, call.reference, call.write);
      calls := calls[index := call.(worker := Ended(if told then Changed else Uncertain))];
      store, ahead := None, None;
      Took(before, if told then Save(index) else SaveUncertain(index, true));
    }
  }
}
