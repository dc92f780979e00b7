/**
 The calls of the mock harness. Between two of its lock sections a call awaits; `Yield` stands for
 everything the other calls do meanwhile, and any await may be the one at which the caller drops
 the call. `patience` is the number of turns a caller waits before dropping a retrying call.
 */
module MockHarness {
  import opened Common
  import opened MockProtocol
  import opened MockProofs
  import Runs

  datatype Error = NotFound | Conflict | Closed | Rejected
  datatype Outcome<T> = Ok(value: T) | Err(error: Error) | Dropped

  datatype FlushResult = Nothing | Changed | Delivered | RunEnded

  /** A drive stops only at a run that is over, out of steps, or waiting for a response or a release. */
  predicate Settled(world: World, run: Run, release: bool) {
    && run in world.state.runs
    && var record := world.state.runs[run];
       || !record.active
       || (&& record.pending == None
           && (|| record.steps == []
               || (&& record.steps[0].AwaitResponse?
                   && !Answered(world.state, Request(run, record.steps[0].requestId)))
               || (record.steps[0].Approval? && record.fault == Some(DelayApproval) && record.delayed && !release)))
  }

  /** What one call does and learns: what it saw with the lock in hand, what a wait for room gave, what it did. */
  datatype Entry = Looked(world: World) | Waited(outcome: Outcome<()>) | Did(action: Action)

  /** Why a call failed, told by the last thing that happened to it. */
  predicate Missing(entry: Entry, run: Run) { entry.Looked? && run !in entry.world.state.runs }

  predicate NotActive(entry: Entry, run: Run) {
    entry.Looked? && (run in entry.world.state.runs ==> !entry.world.state.runs[run].active)
  }

  /** The run is ready to ask, but with a request that was asked already. */
  predicate AsksAgain(entry: Entry, run: Run) {
    && entry.Looked? && Idle(entry.world.state, run)
    && entry.world.state.runs[run].steps != [] && entry.world.state.runs[run].steps[0].Asks()
    && Request(run, entry.world.state.runs[run].steps[0].requestId) in entry.world.state.requests
  }

  /** No room, or the caller gave up. */
  predicate Cut(entry: Entry, dropped: bool) {
    entry.Waited? && (if dropped then entry.outcome == Dropped else entry.outcome.Err?)
  }

  predicate OnlyDrives(trail: seq<Entry>, from: nat, run: Run, release: bool) {
    forall k :: from <= k < |trail| && trail[k].Did? ==>
      trail[k].action in {Flush(run), Skip(run), Hold(run), Emit(run, release)}
  }

  predicate OnlyFlushes(trail: seq<Entry>, from: nat, run: Run) {
    forall k :: from <= k < |trail| && trail[k].Did? ==> trail[k].action == Flush(run)
  }

  class Harness {
    var state: State
    /** Everything ever sent on the event channel. */
    var sent: seq<Sent>
    /** Read by the specification only. */
    var scripts: map<Run, Plan>
    ghost var start: World
    ghost var history: seq<Action>
    /** What the calling call did and learnt. */
    ghost var trail: seq<Entry>

    function Now(): World
      reads this
    {
      World(state, sent, scripts)
    }

    /** The present is what the actions taken so far lead to. */
    ghost predicate Valid()
      reads this
    {
      Initial(start) && Legal(start, history) && Replay(start, history) == Now()
    }

    constructor (sessions: set<Session>, plans: seq<Plan>)
      ensures Valid() && sent == [] && history == [] && trail == []
    {
      state := State(sessions, map[], plans, map[], map[]);
      sent, scripts := [], map[];
      start := World(State(sessions, map[], plans, map[], map[]), [], map[]);
      history, trail := [], [];
    }

    /** What every reachable harness state promises. */
    lemma Kept()
      requires Valid()
      ensures Invariant(Now())
    {
      InitialInvariant(start);
      ReplayInvariant(start, history);
    }

    ghost method Took(before: World, action: Action)
      requires Initial(start) && Legal(start, history) && Replay(start, history) == before
      requires Enabled(before, action) && Now() == Apply(before, action)
      modifies `history, `trail
      ensures Valid() && history == old(history) + [action]
      ensures trail == old(trail) + [Did(action)]
    {
      Happened(before, action);
      trail := trail + [Did(action)];
    }

    ghost method Happened(before: World, action: Action)
      requires Initial(start) && Legal(start, history) && Replay(start, history) == before
      requires Enabled(before, action) && Now() == Apply(before, action)
      modifies `history
      ensures Valid() && history == old(history) + [action]
    {
      Runs.ReplayAppend(Next, start, history, action);
      history := history + [action];
    }

    /** What has become of an earlier state: nothing that was settled then was undone since. */
    lemma LaterSince(past: seq<Action>)
      requires Valid() && past <= history
      ensures Legal(start, past) && Later(Replay(start, past), Now())
    {
      Runs.ReplaySplit(Next, start, past, history);
      InitialInvariant(start);
      ReplayInvariant(start, past);
      LaterReplay(Replay(start, past), history[|past|..]);
    }

    /** So a run stays, with its plan, and stays over once it is. */
    lemma RunSince(past: seq<Action>, world: World, run: Run)
      requires Valid() && past <= history && Legal(start, past) && Replay(start, past) == world
      requires run in world.state.runs
      ensures RunLater(world, Now(), run)
    {
      LaterSince(past);
    }

    lemma RunsSince(past: seq<Action>, world: World)
      requires Valid() && past <= history && Legal(start, past) && Replay(start, past) == world
      ensures world.state.runs.Keys <= state.runs.Keys
    {
      LaterSince(past);
      forall run | run in world.state.runs ensures run in state.runs {
        assert RunLater(world, Now(), run);
      }
    }

    lemma PlanSince(past: seq<Action>, world: World, run: Run)
      requires Valid() && past <= history && Legal(start, past) && Replay(start, past) == world
      requires run in world.scripts
      ensures run in scripts && scripts[run] == world.scripts[run]
    {
      LaterSince(past);
    }

    lemma RequestSince(past: seq<Action>, world: World, request: Request)
      requires Valid() && past <= history && Legal(start, past) && Replay(start, past) == world
      requires request in world.state.requests && world.state.requests[request].response.Some?
      ensures request in state.requests && state.requests[request].response == world.state.requests[request].response
    {
      LaterSince(past);
    }

    /** The other calls take any number of lock sections. */
    method Yield()
      requires Valid()
      modifies this
      ensures Valid() && start == old(start) && old(history) <= history && trail == old(trail)
    {
      var turns: int := *;
      for turn := 0 to if turns < 0 then 0 else turns
        invariant Valid() && start == old(start) && old(history) <= history && trail == old(trail)
      {
        var action: Action := *;
        if Enabled(Now(), action) {
          ghost var before := Now();
          var next := Apply(Now(), action);
          state, sent, scripts := next.state, next.sent, next.scripts;
          Happened(before, action);
        }
      }
    }

    /** Take the lock. */
    method Look()
      requires Valid()
      modifies this
      ensures Valid() && start == old(start) && old(history) <= history && trail == old(trail) + [Looked(Now())]
    {
      Yield();
      trail := trail + [Looked(Now())];
    }

    /** Reserve a slot of the event channel, then take the lock. */
    method Reserve() returns (r: Outcome<()>)
      requires Valid()
      modifies this
      ensures Valid() && start == old(start) && old(history) <= history
      ensures trail == old(trail) + [Waited(r)] + if r.Ok? then [Looked(Now())] else []
    {
      r := *;
      trail := trail + [Waited(r)];
      if r.Ok? {
        Look();
      } else {
        assert trail == old(trail) + [Waited(r)] + [];
      }
    }

    /** Send a delivery and settle the run's record, without releasing the lock. */
    method CommitPending(run: Run, delivery: Delivery) returns (result: FlushResult)
      requires run in state.runs
      modifies `state, `sent
      ensures Now() == Deliver(old(Now()), run, delivery)
      ensures result == if delivery.commit.TerminalCommit? then RunEnded else Delivered
    {
      sent := sent + [Sent(delivery.event, OriginOf(delivery.commit))];
      var record := state.runs[run];
      match delivery.commit {
        case StepCommit(terminalAfter) =>
          record := record.(steps := Tail(record.steps));
          if terminalAfter.Some? {
            record := record.(pending := Some(TerminalDelivery(run, terminalAfter.value, false)));
          } else {
            record := record.(pending := None);
          }
          result := Delivered;
        case Standalone =>
          record := record.(pending := None);
          result := Delivered;
        case TerminalCommit(consumeStep) =>
          if consumeStep {
            record := record.(steps := Tail(record.steps));
          }
          record := record.(pending := None, active := false);
          result := RunEnded;
      }
      state := state.(runs := state.runs[run := record]);
    }

    /**
     Send what was staged when it was looked at, if it is still what is staged once there is room.
     `seen` and `at` are the worlds when it was looked at and right before it is sent.
     */
    method FlushPending(run: Run) returns (r: Outcome<FlushResult>, ghost seen: World, ghost at: World)
      requires Valid()
      modifies this
      ensures Valid() && start == old(start) && old(history) <= history
      ensures |trail| > |old(trail)| && old(trail) <= trail && OnlyFlushes(trail, |old(trail)|, run)
      ensures r.Err? ==>
                if r.error == NotFound then Missing(trail[|trail| - 1], run)
                else r.error == Closed && Cut(trail[|trail| - 1], false)
      ensures r == Dropped ==> Cut(trail[|trail| - 1], true)
      ensures r == Ok(Nothing) ==> run in state.runs && state.runs[run].pending == None
      ensures r == Ok(Changed) ==>
                && trail[|trail| - 1] == Looked(Now()) && run in state.runs && trail[|old(trail)|].Looked?
                && run in trail[|old(trail)|].world.state.runs
                && trail[|old(trail)|].world.state.runs[run].pending != state.runs[run].pending
      ensures r.Ok? && (r.value.Delivered? || r.value.RunEnded?) ==>
                && trail[|trail| - 1] == Did(Flush(run)) && run in state.runs
                && Later(seen, at) && run in seen.state.runs && run in at.state.runs
                && seen.state.runs[run].pending.Some? && at.state.runs[run].pending == seen.state.runs[run].pending
                && Now() == Deliver(at, run, seen.state.runs[run].pending.value)
                && (r.value.RunEnded? <==> !state.runs[run].active)
    {
      Look();
      seen, at := Now(), Now();
      ghost var past := history;
      if run !in state.runs {
        return Err(NotFound), seen, at;
      }
      var pending := state.runs[run].pending;
      if pending == None {
        return Ok(Nothing), seen, at;
      }
      var permit := Reserve();
      if !permit.Ok? {
        return if permit.Err? then Err(Closed) else Dropped, seen, at;
      }
      LaterSince(past);
      assert RunLater(seen, Now(), run);
      at := Now();
      var result := CommitIfStill(run, pending.value);
      return Ok(result), seen, at;
    }

    /** The lock section of a flush: another call may have sent the delivery meanwhile. */
    method CommitIfStill(run: Run, delivery: Delivery) returns (result: FlushResult)
      requires Valid() && run in state.runs
      modifies `state, `sent, `history, `trail
      ensures Valid() && old(history) <= history && run in state.runs
      ensures if old(state).runs[run].pending == Some(delivery) then
                && Now() == Deliver(old(Now()), run, delivery) && trail == old(trail) + [Did(Flush(run))]
                && result == if state.runs[run].active then Delivered else RunEnded
              else result == Changed && Now() == old(Now()) && trail == old(trail)
    {
      Kept();
      assert KeptAt(Now(), run);
      if state.runs[run].pending != Some(delivery) {
        return Changed;
      }
      ghost var before := Now();
      result := CommitPending(run, delivery);
      Took(before, Flush(run));
    }

    /** A step that asks has its request recorded. */
    method Ask(request: Request, kind: RequestKind)
      modifies `state
      ensures state == old(state).(requests := old(state).requests[request := RequestRecord(request.run, kind, None)])
    {
      state := state.(requests := state.requests[request := RequestRecord(request.run, kind, None)]);
    }

    /** What a step sends, and what becomes of the record of the run. */
    method BuildStep(run: Run, current: RunRecord, step: Step) returns (delivery: Delivery, record: RunRecord)
      requires step.Emits()
      modifies `state
      ensures delivery == StepDelivery(run, step, current) && record == Prepared(current, step, false)
      ensures state == if step.Asks() then
                         old(state).(requests := old(state).requests[
                           Request(run, step.requestId) := RequestRecord(run, KindOf(step), None)])
                       else old(state)
    {
      record := current;
      var commit := StepCommit(None);
      var event: Event;
      match step {
        case Message(chunk) => event := MessageDelta(run, chunk);
        case MessageCompleted(text) => event := MessageDone(run, text);
        case Approval(id, summary) =>
          Ask(Request(run, id), ApprovalKind);
          event := ApprovalRequested(Request(run, id), summary);
        case UserInput(id, prompt) =>
          Ask(Request(run, id), UserInputKind);
          event := UserInputRequested(Request(run, id), prompt);
        case FileMutation(path, summary) =>
          if record.fault == Some(ExitAfterFileMutation) {
            record := record.(fault := None);
            commit := StepCommit(Some(Crashed));
          }
          event := FileMutated(run, path, summary);
        case CommandOutput(id, command, chunk) =>
          var command' := if id.Some? then Named(id.value) else Numbered(record.nextCommandId);
          if id == None {
            record := record.(nextCommandId := record.nextCommandId + 1);
          }
          event := CommandOutputCompleted(run, command', command, chunk);
        case Complete =>
          event := RunTerminal(run, Completed);
          commit := TerminalCommit(true);
        case UnknownItem(itemType) => event := Unknown(run, itemType);
        case MalformedItem(itemType) => event := Malformed(run, itemType);
      }
      delivery := Delivery(event, commit);
    }

    /** The second lock section of a drive: build the step's delivery and send it. */
    method EmitStep(run: Run, release: bool) returns (result: FlushResult)
      requires Enabled(Now(), Emit(run, release))
      modifies `state, `sent
      ensures Now() == Apply(old(Now()), Emit(run, release))
      ensures |sent| == |old(sent)| + 1 && sent[..|old(sent)|] == old(sent)
      ensures Carries(sent[|old(sent)|].event, run, old(state).runs[run].steps[0])
      ensures run in state.runs && (result == RunEnded <==> !state.runs[run].active)
    {
      var step := state.runs[run].steps[0];
      var delivery, record := BuildStep(run, state.runs[run], step);
      if release && step.Approval? {
        record := record.(delayed := false, fault := None);
      }
      assert record == Prepared(old(state).runs[run], step, release);
      state := state.(runs := state.runs[run := record]);
      result := CommitPending(run, delivery);
    }

    /**
     Send a run's events until it is settled. A drive fails only for a reason that it has just met, and
     is dropped while it waits for room, or when the caller has no patience left.
     */
    method DriveRun(run: Run, release: bool, patience: nat) returns (r: Outcome<()>)
      requires Valid()
      requires release ==> run in scripts && scripts[run].fault == Some(DelayApproval)
      modifies this
      ensures Valid() && start == old(start) && old(history) <= history
      ensures r.Ok? ==> Settled(Now(), run, release)
      ensures old(trail) <= trail && OnlyDrives(trail, |old(trail)|, run, release)
      ensures r.Err? ==> |trail| > |old(trail)| && DriveFailed(trail[|trail| - 1], run, r.error)
      ensures r == Dropped ==>
                || |trail| - |old(trail)| >= patience
                || (|trail| > |old(trail)| && Cut(trail[|trail| - 1], true))
    {
      for turn := 0 to patience
        invariant Valid() && start == old(start) && old(history) <= history
        invariant old(trail) <= trail && OnlyDrives(trail, |old(trail)|, run, release)
        invariant |trail| - |old(trail)| >= turn
      {
        var flushed, seen, at := FlushPending(run);
        if !flushed.Ok? {
          return if flushed.Err? then Err(flushed.error) else Dropped;
        }
        if flushed.value == RunEnded {
          return Ok(());
        }
        if flushed.value != Nothing {
          continue;
        }
        if release {
          PlanSince(old(history), old(Now()), run);
        }
        var taken := DriveTurn(run, release);
        if taken.Err? || taken.Dropped? || taken.value {
          return if taken.Ok? then Ok(()) else if taken.Err? then Err(taken.error) else Dropped;
        }
      }
      return Dropped;
    }

    /** There is no such run, or it asks for a request a second time, or the event channel is shut. */
    static predicate DriveFailed(entry: Entry, run: Run, error: Error) {
      match error
      case NotFound => Missing(entry, run)
      case Conflict => AsksAgain(entry, run)
      case Closed => Cut(entry, false)
      case Rejected => false
    }

    /**
     One turn of a drive after its flush found nothing. The answer says whether the drive is over; if
     it is not, a step was taken, or something is staged, or the front step was taken by another call.
     */
    method DriveTurn(run: Run, release: bool) returns (r: Outcome<bool>)
      requires Valid()
      requires release ==> run in scripts && scripts[run].fault == Some(DelayApproval)
      modifies this
      ensures Valid() && start == old(start) && old(history) <= history
      ensures |trail| > |old(trail)| && old(trail) <= trail && OnlyDrives(trail, |old(trail)|, run, release)
      ensures r == Ok(true) ==> Settled(Now(), run, release)
      ensures r == Ok(false) ==> run in state.runs && trail[|old(trail)|].Looked?
                                 && run in trail[|old(trail)|].world.state.runs
      ensures r == Ok(false) ==>
                || trail[|trail| - 1] in {Did(Skip(run)), Did(Emit(run, release))}
                || state.runs[run].pending.Some?
                || (trail[|trail| - 1] == Looked(Now())
                    && FrontOf(state.runs[run]) != FrontOf(trail[|old(trail)|].world.state.runs[run]))
      ensures r.Err? ==> DriveFailed(trail[|trail| - 1], run, r.error)
      ensures r == Dropped ==> Cut(trail[|trail| - 1], true)
    {
      Look();
      var step;
      r, step := TakeFront(run, release);
      if step.Some? {
        if release {
          PlanSince(old(history), old(Now()), run);
        }
        r := SendFront(run, release, step.value);
      }
    }

    /** The first lock section of a turn: a step to send, or an answer. */
    method TakeFront(run: Run, release: bool) returns (r: Outcome<bool>, step: Option<Step>)
      requires Valid() && trail != [] && trail[|trail| - 1] == Looked(Now())
      modifies `state, `history, `trail
      ensures Valid() && old(history) <= history && old(trail) <= trail && |trail| <= |old(trail)| + 1
      ensures OnlyDrives(trail, |old(trail)|, run, release) && !r.Dropped?
      ensures step.Some? ==> Now() == old(Now()) && trail == old(trail) && ToSend(run, release, step.value)
      ensures step == None && r == Ok(true) ==> Settled(Now(), run, release)
      ensures step == None && r == Ok(false) ==>
                && run in state.runs && run in old(state).runs
                && (state.runs[run].pending.Some? || trail == old(trail) + [Did(Skip(run))])
      ensures step == None && r.Err? ==> DriveFailed(trail[|trail| - 1], run, r.error)
    {
      r, step := Ok(true), None;
      if run !in state.runs {
        return Err(NotFound), None;
      }
      var record := state.runs[run];
      if !record.active {
        return;
      }
      if record.pending.Some? {
        return Ok(false), None;
      }
      ghost var seen := Now();
      if record.fault == Some(DelayApproval) && record.steps != [] && record.steps[0].Approval? && !release {
        state := state.(runs := state.runs[run := record.(delayed := true)]);
        Took(seen, Hold(run));
        return;
      }
      if record.steps == [] {
        return;
      }
      if record.steps[0].AwaitResponse? {
        if !Answered(state, Request(run, record.steps[0].requestId)) {
          return;
        }
        state := state.(runs := state.runs[run := record.(steps := record.steps[1..])]);
        Took(seen, Skip(run));
        return Ok(false), None;
      }
      if record.steps[0].Asks() && Request(run, record.steps[0].requestId) in state.requests {
        return Err(Conflict), None;
      }
      step := Some(record.steps[0]);
    }

    /** The run's front step, which may be sent as far as the run is concerned. */
    predicate ToSend(run: Run, release: bool, step: Step)
      reads `state
    {
      && Idle(state, run) && FrontOf(state.runs[run]) == Some(step) && step.Emits()
      && (step.Approval? && state.runs[run].fault == Some(DelayApproval) ==> release)
    }

    /** The step is sent if it is still the one to send once there is room. */
    method SendFront(run: Run, release: bool, step: Step) returns (r: Outcome<bool>)
      requires Valid() && ToSend(run, release, step)
      requires release ==> run in scripts && scripts[run].fault == Some(DelayApproval)
      modifies this
      ensures Valid() && start == old(start) && old(history) <= history && run in state.runs
      ensures |trail| > |old(trail)| && old(trail) <= trail && OnlyDrives(trail, |old(trail)|, run, release)
      ensures r == Ok(true) ==> Settled(Now(), run, release)
      ensures r == Ok(false) ==>
                || trail[|trail| - 1] == Did(Emit(run, release))
                || state.runs[run].pending.Some?
                || (trail[|trail| - 1] == Looked(Now()) && FrontOf(state.runs[run]) != Some(step))
      ensures r.Err? ==> DriveFailed(trail[|trail| - 1], run, r.error)
      ensures r == Dropped ==> Cut(trail[|trail| - 1], true)
    {
      ghost var seen, past := Now(), history;
      var permit := Reserve();
      RunSince(past, seen, run);
      if release {
        PlanSince(past, seen, run);
      }
      if !permit.Ok? {
        return if permit.Err? then Err(Closed) else Dropped;
      }
      r := SendIfFront(run, release, step);
    }

    /** The lock section that sends the step. */
    method SendIfFront(run: Run, release: bool, step: Step) returns (r: Outcome<bool>)
      requires Valid() && trail != [] && trail[|trail| - 1] == Looked(Now()) && run in state.runs && step.Emits()
      requires step.Approval? && state.runs[run].fault == Some(DelayApproval) ==> release
      requires release ==> run in scripts && scripts[run].fault == Some(DelayApproval)
      modifies `state, `sent, `history, `trail
      ensures Valid() && old(history) <= history && !r.Dropped? && run in state.runs
      ensures if Now() == old(Now()) then trail == old(trail) else trail == old(trail) + [Did(Emit(run, release))]
      ensures r == Ok(true) ==> Settled(Now(), run, release)
      ensures r == Ok(false) && Now() == old(Now()) ==>
                state.runs[run].pending.Some? || FrontOf(state.runs[run]) != Some(step)
      ensures r.Err? ==> trail == old(trail) && DriveFailed(trail[|trail| - 1], run, r.error)
    {
      if !state.runs[run].active {
        return Ok(true);
      }
      if state.runs[run].pending.Some? || FrontOf(state.runs[run]) != Some(step) {
        return Ok(false);
      }
      if step.Asks() && Request(run, step.requestId) in state.requests {
        return Err(Conflict);
      }
      ghost var before := Now();
      var result := EmitStep(run, release);
      Took(before, Emit(run, release));
      return Ok(result == RunEnded);
    }

    static function FrontOf(record: RunRecord): Option<Step> {
      if record.steps == [] then None else Some(record.steps[0])
    }

    static predicate NoneDelayed(world: World) {
      forall run :: run in world.state.runs ==> !world.state.runs[run].delayed
    }

    lemma DelayedByPlan(run: Run)
      requires Valid() && run in state.runs && state.runs[run].delayed
      ensures run in scripts && scripts[run].fault == Some(DelayApproval)
    {
      Kept();
      assert KeptAt(Now(), run);
    }

    /** Let a run's delayed approval go; any delayed run may be the one found. */
    method ReleaseDelayedApproval(patience: nat) returns (r: Outcome<()>, held: Option<Run>)
      requires Valid()
      modifies this
      ensures Valid() && start == old(start) && old(history) <= history
      ensures |trail| > |old(trail)| && old(trail) <= trail && trail[|old(trail)|].Looked?
      ensures held == None ==>
                && r == Err(Conflict) && |trail| == |old(trail)| + 1
                && NoneDelayed(trail[|old(trail)|].world)
      ensures held.Some? ==>
                && held.value in trail[|old(trail)|].world.state.runs
                && trail[|old(trail)|].world.state.runs[held.value].delayed
                && held.value in scripts && scripts[held.value].fault == Some(DelayApproval)
                && OnlyDrives(trail, |old(trail)|, held.value, true)
                && (r.Ok? ==> Settled(Now(), held.value, true))
                && (r.Err? ==> DriveFailed(trail[|trail| - 1], held.value, r.error))
                && (r == Dropped ==> |trail| - |old(trail)| > patience || Cut(trail[|trail| - 1], true))
    {
      Look();
      if !exists run :: run in state.runs && state.runs[run].delayed {
        return Err(Conflict), None;
      }
      var run :| run in state.runs && state.runs[run].delayed;
      held := Some(run);
      DelayedByPlan(run);
      ghost var past, seen := history, Now();
      r := DriveRun(run, true, patience);
      PlanSince(past, seen, run);
    }

    /** The session is unknown, or the next plan rejects its run, or the event channel is shut. */
    static predicate StartFailed(entry: Entry, session: Session, error: Error) {
      match error
      case NotFound => entry.Looked? && session !in entry.world.state.sessions
      case Rejected => entry.Looked? && Rejects(NextPlan(entry.world.state.plans).fault)
      case Closed => Cut(entry, false)
      case Conflict => false
    }

    static predicate NothingDone(trail: seq<Entry>, from: nat) {
      forall k :: from <= k < |trail| ==> !trail[k].Did?
    }

    /**
     Accept a run, then drive it until it settles. A call that cannot succeed as things are fails at
     its first look, before it waits for room.
     */
    method StartRun(session: Session, patience: nat) returns (r: Outcome<Run>, ghost begun: Option<Run>, ghost at: nat)
      requires Valid()
      modifies this
      ensures Valid() && start == old(start) && old(history) <= history
      ensures |trail| > |old(trail)| && old(trail) <= trail && trail[|old(trail)|].Looked?
      ensures session !in trail[|old(trail)|].world.state.sessions ==>
                r == Err(NotFound) && |trail| == |old(trail)| + 1
      ensures session in trail[|old(trail)|].world.state.sessions
              && Rejects(NextPlan(trail[|old(trail)|].world.state.plans).fault) ==>
                r == Err(Rejected) && |trail| == |old(trail)| + 1
      ensures begun == None ==>
                && !r.Ok? && NothingDone(trail, |old(trail)|)
                && (if r.Err? then StartFailed(trail[|trail| - 1], session, r.error) else Cut(trail[|trail| - 1], true))
      ensures begun.Some? ==>
                && begun.value.session == session && begun.value !in old(state.runs) && begun.value in state.runs
                && begun.value in scripts && !Rejects(scripts[begun.value].fault)
                && |old(trail)| < at < |trail| && trail[at] == Did(Start(session))
                && NothingDone(trail[..at], |old(trail)|) && OnlyDrives(trail, at + 1, begun.value, false)
                && (r.Ok? ==> r.value == begun.value)
                && (if scripts[begun.value].fault == Some(NeverComplete) then r.Ok? && |trail| == at + 1
                    else r.Ok? ==> Settled(Now(), begun.value, false))
                && (r.Err? ==> |trail| > at + 1 && DriveFailed(trail[|trail| - 1], begun.value, r.error))
                && (r == Dropped ==> |trail| - at > patience || Cut(trail[|trail| - 1], true))
    {
      begun, at := None, 0;
      Look();
      if session !in state.sessions {
        return Err(NotFound), begun, at;
      }
      if Rejects(NextPlan(state.plans).fault) {
        return Err(Rejected), begun, at;
      }
      var acceptance := Reserve();
      if !acceptance.Ok? {
        return if acceptance.Err? then Err(Closed) else Dropped, begun, at;
      }
      if session !in state.sessions {
        return Err(NotFound), begun, at;
      }
      if Rejects(NextPlan(state.plans).fault) {
        return Err(Rejected), begun, at;
      }
      at := |trail|;
      RunsSince(old(history), old(Now()));
      var run;
      r, run := AcceptAndDrive(session, patience);
      begun := Some(run);
    }

    method AcceptAndDrive(session: Session, patience: nat) returns (r: Outcome<Run>, run: Run)
      requires Valid() && Enabled(Now(), Start(session))
      modifies this
      ensures Valid() && start == old(start) && old(history) <= history
      ensures run.session == session && run !in old(state.runs) && run in state.runs
      ensures run in scripts && scripts[run] == NextPlan(old(state).plans)
      ensures |trail| > |old(trail)| && old(trail) <= trail && trail[|old(trail)|] == Did(Start(session))
      ensures OnlyDrives(trail, |old(trail)| + 1, run, false)
      ensures r.Ok? ==> r.value == run
      ensures if scripts[run].fault == Some(NeverComplete) then r.Ok? && |trail| == |old(trail)| + 1
              else r.Ok? ==> Settled(Now(), run, false)
      ensures r.Err? ==> |trail| > |old(trail)| + 1 && DriveFailed(trail[|trail| - 1], run, r.error)
      ensures r == Dropped ==> |trail| - |old(trail)| > patience || Cut(trail[|trail| - 1], true)
    {
      var fault;
      run, fault := Accept(session);
      if fault == Some(NeverComplete) {
        return Ok(run), run;
      }
      ghost var accepted, past := Now(), history;
      var driven := DriveRun(run, false, patience);
      RunSince(past, accepted, run);
      return if driven.Ok? then Ok(run) else if driven.Err? then Err(driven.error) else Dropped, run;
    }

    /** The lock section that accepts a run: it gets the next number of its session and the next plan. */
    method Accept(session: Session) returns (run: Run, fault: Option<Fault>)
      requires Valid() && Enabled(Now(), Start(session))
      modifies `state, `sent, `scripts, `history, `trail
      ensures Valid() && old(history) <= history && Now() == Apply(old(Now()), Start(session))
      ensures trail == old(trail) + [Did(Start(session))]
      ensures run == Run(session, NextNumber(old(state), session)) && run !in old(state).runs
      ensures run in state.runs && run in scripts && scripts[run] == NextPlan(old(state).plans)
      ensures sent == old(sent) + [Sent(RunAccepted(run), Accepted)] && fault == scripts[run].fault
    {
      Kept();
      ghost var before := Now();
      var plan := NextPlan(state.plans);
      var plans := if state.plans == [] then [] else state.plans[1..];
      var number := NextNumber(state, session);
      run, fault := Run(session, number), plan.fault;
      var record := RunRecord(true, false, 1, plan.steps, fault, InitialPending(run, fault));
      state := state.(nextRun := state.nextRun[session := number + 1], plans := plans,
                      runs := state.runs[run := record]);
      scripts := scripts[run := plan];
      sent := sent + [Sent(RunAccepted(run), Accepted)];
      Took(before, Start(session));
    }

    /** The run is over, or was never there. */
    static predicate SteerFailed(entry: Entry, over: bool, run: Run, error: Error) {
      match error
      case NotFound => Missing(entry, run)
      case Conflict => NotActive(entry, run) || (entry == Did(Flush(run)) && over)
      case Closed => Cut(entry, false)
      case Rejected => false
    }

    predicate Over(run: Run)
      reads `state
    {
      run in state.runs && !state.runs[run].active
    }

    /**
     Send a message of the caller's, once, never ahead of a staged delivery and never after the
     terminal. A call that does not succeed sent none.
     */
    method Steer(run: Run, chunk: string, patience: nat) returns (r: Outcome<()>)
      requires Valid()
      modifies this
      ensures Valid() && start == old(start) && old(history) <= history && old(trail) <= trail
      ensures r.Ok? ==> Idle(state, run) && sent != [] && sent[|sent| - 1] == Sent(MessageDelta(run, chunk), Steered)
      ensures r.Ok? ==>
                && |trail| > |old(trail)| && trail[|trail| - 1] == Did(MockProtocol.Steer(run, chunk))
                && OnlyFlushes(trail[..|trail| - 1], |old(trail)|, run)
      ensures !r.Ok? ==> OnlyFlushes(trail, |old(trail)|, run)
      ensures r.Err? ==> |trail| > |old(trail)| && SteerFailed(trail[|trail| - 1], Over(run), run, r.error)
      ensures r == Dropped ==>
                || |trail| - |old(trail)| >= patience
                || (|trail| > |old(trail)| && Cut(trail[|trail| - 1], true))
    {
      for turn := 0 to patience
        invariant Valid() && start == old(start) && old(history) <= history
        invariant old(trail) <= trail && OnlyFlushes(trail, |old(trail)|, run) && |trail| - |old(trail)| >= turn
      {
        var flushed, seen, at := FlushPending(run);
        if !flushed.Ok? {
          return if flushed.Err? then Err(flushed.error) else Dropped;
        }
        if flushed.value == RunEnded {
          return Err(Conflict);
        }
        if flushed.value == Nothing {
          var turned := SteerTurn(run, chunk);
          if !turned.Ok? || turned.value {
            return if turned.Ok? then Ok(()) else if turned.Err? then Err(turned.error) else Dropped;
          }
        }
      }
      return Dropped;
    }

    /** One turn of a steer after its flush found nothing; the answer says whether the message was sent. */
    method SteerTurn(run: Run, chunk: string) returns (r: Outcome<bool>)
      requires Valid()
      modifies this
      ensures Valid() && start == old(start) && old(history) <= history
      ensures |trail| > |old(trail)| && old(trail) <= trail
      ensures r == Ok(true) ==>
                && Idle(state, run) && sent != [] && sent[|sent| - 1] == Sent(MessageDelta(run, chunk), Steered)
                && trail[|trail| - 1] == Did(MockProtocol.Steer(run, chunk))
                && NothingDone(trail[..|trail| - 1], |old(trail)|)
      ensures r != Ok(true) ==> NothingDone(trail, |old(trail)|)
      ensures r == Ok(false) ==>
                trail[|trail| - 1] == Looked(Now()) && run in state.runs && state.runs[run].pending.Some?
      ensures r.Err? ==> SteerFailed(trail[|trail| - 1], Over(run), run, r.error)
      ensures r == Dropped ==> Cut(trail[|trail| - 1], true)
    {
      Look();
      if run !in state.runs || !state.runs[run].active {
        return Err(Conflict);
      }
      var permit := Reserve();
      if !permit.Ok? {
        return if permit.Err? then Err(Closed) else Dropped;
      }
      r := SteerIfIdle(run, chunk);
    }

    /** The lock section that sends the message. */
    method SteerIfIdle(run: Run, chunk: string) returns (r: Outcome<bool>)
      requires Valid() && trail != [] && trail[|trail| - 1] == Looked(Now())
      modifies `sent, `history, `trail
      ensures Valid() && old(history) <= history && !r.Dropped?
      ensures r == Ok(true) ==>
                && Idle(state, run) && sent == old(sent) + [Sent(MessageDelta(run, chunk), Steered)]
                && trail == old(trail) + [Did(MockProtocol.Steer(run, chunk))]
      ensures r != Ok(true) ==> Now() == old(Now()) && trail == old(trail)
      ensures r == Ok(false) ==> run in state.runs && state.runs[run].pending.Some?
      ensures r.Err? ==> SteerFailed(trail[|trail| - 1], Over(run), run, r.error)
    {
      if run !in state.runs {
        return Err(NotFound);
      }
      if !state.runs[run].active {
        return Err(Conflict);
      }
      if state.runs[run].pending.Some? {
        return Ok(false);
      }
      ghost var before := Now();
      sent := sent + [Sent(MessageDelta(run, chunk), Steered)];
      Took(before, MockProtocol.Steer(run, chunk));
      return Ok(true);
    }

    /** End a run; a staged delivery goes first, and if that was the terminal the interruption is done. */
    method Interrupt(run: Run, patience: nat) returns (r: Outcome<()>)
      requires Valid()
      modifies this
      ensures Valid() && start == old(start) && old(history) <= history && old(trail) <= trail
      ensures r.Ok? ==>
                && |trail| > |old(trail)| && Over(run) && sent != []
                && (trail[|trail| - 1] == Did(Flush(run))
                    || (trail[|trail| - 1] == Did(MockProtocol.Interrupt(run))
                        && sent[|sent| - 1] == Sent(RunTerminal(run, Interrupted), Ended)))
                && OnlyFlushes(trail[..|trail| - 1], |old(trail)|, run)
      ensures !r.Ok? ==> OnlyFlushes(trail, |old(trail)|, run)
      ensures r.Err? ==> |trail| > |old(trail)| && SteerFailed(trail[|trail| - 1], false, run, r.error)
      ensures r == Dropped ==>
                || |trail| - |old(trail)| >= patience
                || (|trail| > |old(trail)| && Cut(trail[|trail| - 1], true))
    {
      for turn := 0 to patience
        invariant Valid() && start == old(start) && old(history) <= history
        invariant old(trail) <= trail && OnlyFlushes(trail, |old(trail)|, run) && |trail| - |old(trail)| >= turn
      {
        var flushed, seen, at := FlushPending(run);
        if !flushed.Ok? {
          return if flushed.Err? then Err(flushed.error) else Dropped;
        }
        if flushed.value == RunEnded {
          return Ok(());
        }
        if flushed.value == Nothing {
          var turned := InterruptTurn(run);
          if !turned.Ok? || turned.value {
            return if turned.Ok? then Ok(()) else if turned.Err? then Err(turned.error) else Dropped;
          }
        }
      }
      return Dropped;
    }

    method InterruptTurn(run: Run) returns (r: Outcome<bool>)
      requires Valid()
      modifies this
      ensures Valid() && start == old(start) && old(history) <= history
      ensures |trail| > |old(trail)| && old(trail) <= trail
      ensures r == Ok(true) ==>
                && Over(run) && sent != [] && sent[|sent| - 1] == Sent(RunTerminal(run, Interrupted), Ended)
                && trail[|trail| - 1] == Did(MockProtocol.Interrupt(run))
                && NothingDone(trail[..|trail| - 1], |old(trail)|)
      ensures r != Ok(true) ==> NothingDone(trail, |old(trail)|)
      ensures r == Ok(false) ==>
                trail[|trail| - 1] == Looked(Now()) && run in state.runs && state.runs[run].pending.Some?
      ensures r.Err? ==> SteerFailed(trail[|trail| - 1], false, run, r.error)
      ensures r == Dropped ==> Cut(trail[|trail| - 1], true)
    {
      Look();
      if run !in state.runs {
        return Err(NotFound);
      }
      if !state.runs[run].active {
        return Err(Conflict);
      }
      var permit := Reserve();
      if !permit.Ok? {
        return if permit.Err? then Err(Closed) else Dropped;
      }
      r := InterruptIfIdle(run);
    }

    /** The lock section that sends the terminal. */
    method InterruptIfIdle(run: Run) returns (r: Outcome<bool>)
      requires Valid() && trail != [] && trail[|trail| - 1] == Looked(Now())
      modifies `state, `sent, `history, `trail
      ensures Valid() && old(history) <= history && !r.Dropped?
      ensures r == Ok(true) ==>
                && Over(run) && sent == old(sent) + [Sent(RunTerminal(run, Interrupted), Ended)]
                && trail == old(trail) + [Did(MockProtocol.Interrupt(run))]
      ensures r != Ok(true) ==> Now() == old(Now()) && trail == old(trail)
      ensures r == Ok(false) ==> run in state.runs && state.runs[run].pending.Some?
      ensures r.Err? ==> SteerFailed(trail[|trail| - 1], false, run, r.error)
    {
      if run !in state.runs {
        return Err(NotFound);
      }
      if !state.runs[run].active {
        return Err(Conflict);
      }
      if state.runs[run].pending.Some? {
        return Ok(false);
      }
      ghost var before := Now();
      var result := CommitPending(run, TerminalDelivery(run, Interrupted, false));
      Took(before, MockProtocol.Interrupt(run));
      return Ok(true);
    }

    /** The request is not of that kind, or was answered differently. */
    static predicate Misfits(world: World, request: Request, response: Response)
      requires request in world.state.requests
    {
      var record := world.state.requests[request];
      !Answers(record.kind, response) || (record.response.Some? && record.response != Some(response))
    }

    /**
     Record a response once; a second response must agree with the first. Then the run goes on until
     it is settled.
     */
    method RespondToRequest(request: Request, response: Response, patience: nat) returns (r: Outcome<()>)
      requires Valid()
      modifies this
      ensures Valid() && start == old(start) && old(history) <= history
      ensures |trail| > |old(trail)| && old(trail) <= trail && trail[|old(trail)|].Looked?
      ensures var world := trail[|old(trail)|].world;
              if request !in world.state.requests then r == Err(NotFound) && |trail| == |old(trail)| + 1
              else if Misfits(world, request, response) then r == Err(Conflict) && |trail| == |old(trail)| + 1
              else
                var run, asked := world.state.requests[request].run, world.state.requests[request].response == None;
                && request in state.requests && state.requests[request].response == Some(response)
                && (asked ==> |trail| > |old(trail)| + 1 && trail[|old(trail)| + 1] == Did(Respond(request, response)))
                && OnlyDrives(trail, |old(trail)| + (if asked then 2 else 1), run, false)
                && (r.Ok? ==> Settled(Now(), run, false))
                && (r.Err? ==> DriveFailed(trail[|trail| - 1], run, r.error))
                && (r == Dropped ==> |trail| - |old(trail)| > patience || Cut(trail[|trail| - 1], true))
    {
      Look();
      if request !in state.requests {
        return Err(NotFound);
      }
      var record := state.requests[request];
      if !Answers(record.kind, response) {
        return Err(Conflict);
      }
      if record.response.Some? && record.response != Some(response) {
        return Err(Conflict);
      }
      if record.response == None {
        ghost var before := Now();
        state := state.(requests := state.requests[request := record.(response := Some(response))]);
        Took(before, Respond(request, response));
      }
      ghost var recorded, past := Now(), history;
      r := DriveRun(record.run, false, patience);
      RequestSince(past, recorded, request);
    }
  }
}
