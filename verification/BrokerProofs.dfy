/** What holds of broker writes in every interleaving of callers, workers, interruptions and commits. */
module BrokerProofs {
  import opened Common
  import opened BrokerProtocol
  import Runs

  // ----- One step -----

  /** The log stays, or one entry is added for the map as it was. */
  predicate LogGrows(world: World, after: World) {
    || (after.writes == world.writes && after.secrets == world.secrets)
    || (world.writes < after.writes && |after.writes| == |world.writes| + 1
        && after.writes[|world.writes|].before == world.secrets)
  }

  /** What a key was absent from stays in the log. */
  lemma AbsentStays(world: World, after: World, reference: Reference, count: nat)
    requires LogGrows(world, after) && AbsentAfter(world, reference, count)
    ensures AbsentAfter(after, reference, count)
  {
  }

  /** A call that a step does not touch is as it was. */
  lemma OtherCall(world: World, after: World, i: nat)
    requires i < |world.calls| && i < |after.calls| && CallOk(world, i)
    requires after.calls[i] == world.calls[i] && LogGrows(world, after)
    requires after.store == Some(i) <==> world.store == Some(i)
    requires after.store == Some(i) ==> after.secrets == world.secrets
    requires Wrote(after, i) <==> Wrote(world, i)
    ensures CallOk(after, i)
  {
    var worker := world.calls[i].worker;
    if worker.Ended? && worker.outcome.Unchanged? {
      AbsentStays(world, after, world.calls[i].reference, worker.outcome.after);
    }
  }

  predicate Writes(action: Action) { action.Save? || (action.SaveUncertain? && action.replaced) }

  lemma BeginCalls(world: World, reference: Reference, write: Write)
    requires CallsOk(world) && LogOk(world) && (world.store.Some? ==> world.store.value < |world.calls|)
    ensures CallsOk(Apply(world, Begin(reference, write)))
  {
    var after := Apply(world, Begin(reference, write));
    forall i | 0 <= i < |after.calls| ensures CallOk(after, i) {
      if i < |world.calls| {
        assert CallOk(world, i);
        OtherCall(world, after, i);
      }
    }
  }

  /** A step of one call, or of its worker, that replaces nothing. */
  lemma PlainCalls(world: World, action: Action)
    requires CallsOk(world) && Enabled(world, action) && !action.Begin? && !Writes(action)
    ensures CallsOk(Apply(world, action))
  {
    var after := Apply(world, action);
    assert after.writes == world.writes && |after.calls| == |world.calls|;
    forall i | 0 <= i < |after.calls| ensures CallOk(after, i) {
      assert CallOk(world, i) && CallOk(world, action.call);
      if i == action.call {
        TouchedCall(world, action);
      } else {
        OtherCall(world, after, i);
      }
    }
  }

  lemma TouchedCall(world: World, action: Action)
    requires Enabled(world, action) && !action.Begin? && !Writes(action) && CallOk(world, action.call)
    ensures CallOk(Apply(world, action), action.call)
  {
  }

  lemma WritingCalls(world: World, action: Action)
    requires CallsOk(world) && Enabled(world, action) && Writes(action)
    ensures CallsOk(Apply(world, action))
  {
    var after := Apply(world, action);
    var entry := Entry(action.call, world.secrets);
    assert after.writes == world.writes + [entry] && |after.calls| == |world.calls|;
    forall i | 0 <= i < |after.calls| ensures CallOk(after, i) {
      assert CallOk(world, i) && CallOk(world, action.call);
      WroteAppend(world, after, entry, i);
      if i != action.call {
        OtherCall(world, after, i);
      }
    }
  }

  lemma PlainLog(world: World, action: Action)
    requires LogOk(world) && Enabled(world, action) && !Writes(action)
    ensures LogOk(Apply(world, action))
  {
    var after := Apply(world, action);
    assert after.writes == world.writes && after.secrets == world.secrets;
    forall k | 0 <= k < |after.writes| ensures MapAfter(after, k + 1) == Left(after, k) && EntryApplies(after, k) {
      assert MapAfter(world, k + 1) == Left(world, k) && EntryApplies(world, k);
    }
  }

  lemma WritingLog(world: World, action: Action)
    requires LogOk(world) && Enabled(world, action) && Writes(action) && CallOk(world, action.call)
    ensures LogOk(Apply(world, action))
  {
    var after := Apply(world, action);
    var entry := Entry(action.call, world.secrets);
    assert after.writes == world.writes + [entry];
    forall k | 0 <= k < |after.writes| ensures MapAfter(after, k + 1) == Left(after, k) && EntryApplies(after, k) {
      if k < |world.writes| {
        assert MapAfter(world, k + 1) == Left(world, k) && EntryApplies(world, k);
      }
    }
    assert !Wrote(world, action.call);
    assert forall j :: 0 <= j < |world.writes| ==> world.writes[j].call != action.call;
  }

  predicate StoreOk(world: World) { world.store.Some? ==> world.store.value < |world.calls| }

  ghost predicate Sound(world: World) { Invariant(world) && StoreOk(world) }

  lemma SoundStep(world: World, action: Action)
    requires Sound(world) && Enabled(world, action)
    ensures Sound(Apply(world, action))
  {
    LocksStep(world, action);
    if action.Begin? {
      BeginCalls(world, action.reference, action.write);
      PlainLog(world, action);
    } else if Writes(action) {
      assert CallOk(world, action.call);
      WritingCalls(world, action);
      WritingLog(world, action);
    } else {
      PlainCalls(world, action);
      PlainLog(world, action);
    }
  }

  lemma SoundReplay(world: World, history: seq<Action>)
    requires Sound(world) && Legal(world, history)
    ensures Sound(Replay(world, history))
  {
    forall w: World, a | Sound(w) && Step(w, a).Some? ensures Sound(Step(w, a).value) {
      SoundStep(w, a);
    }
    Runs.ReplayKeeps(Step, Sound, world, history);
  }

  // ----- Main results -----

  /** Calls on one reference never have their actions running at the same time. */
  lemma OneAtATime(secrets: Secrets, history: seq<Action>, i: nat, j: nat)
    requires Legal(Start(secrets), history)
    requires var calls := Replay(Start(secrets), history).calls;
             i < j < |calls| && calls[i].stage.Dispatched? && calls[j].stage.Dispatched?
    ensures var calls := Replay(Start(secrets), history).calls; calls[i].reference != calls[j].reference
  {
    SoundReplay(Start(secrets), history);
  }

  /** An answered call keeps its answer, and the log only grows. */
  lemma AnswerStep(world: World, action: Action, i: nat)
    requires Enabled(world, action) && i < |world.calls| && world.calls[i].stage.Answered?
    ensures var after := Apply(world, action);
            i < |after.calls| && after.calls[i].stage == world.calls[i].stage
            && after.calls[i].reference == world.calls[i].reference && after.calls[i].write == world.calls[i].write
  {
  }

  lemma {:induction false} AnswerStays(world: World, history: seq<Action>, i: nat)
    requires Legal(world, history) && i < |world.calls| && world.calls[i].stage.Answered?
    ensures var after := Replay(world, history);
            i < |after.calls| && after.calls[i].stage == world.calls[i].stage
            && after.calls[i].reference == world.calls[i].reference && after.calls[i].write == world.calls[i].write
    decreases |history|
  {
    if history != [] {
      AnswerStep(world, history[0], i);
      AnswerStays(Apply(world, history[0]), history[1..], i);
    }
  }

  /**
   Definite outcomes. Once a call is answered with anything but success or an uncertain write, it has
   not changed the stored map, and whatever happens afterwards it never will.
   */
  lemma DefiniteOutcome(world: World, history: seq<Action>, i: nat)
    requires Sound(world) && Legal(world, history) && i < |world.calls|
    requires world.calls[i].stage.Answered? && world.calls[i].stage.answer in {Failed, TimedOut, Cancelled}
    ensures !Wrote(world, i) && !Wrote(Replay(world, history), i)
  {
    AnswerStays(world, history, i);
    SoundReplay(world, history);
    assert CallOk(world, i) && CallOk(Replay(world, history), i);
  }

  /** Entry `k` is the one write of call `i`: its own key, updated in the map as it was. */
  predicate OneWrite(world: World, i: nat, k: nat)
    requires i < |world.calls|
  {
    && k < |world.writes| && world.writes[k].call == i
    && Applies(world.writes[k].before, world.calls[i].reference, world.calls[i].write)
    && MapAfter(world, k + 1) == Updated(world.writes[k].before, world.calls[i].reference, world.calls[i].write)
    && forall other :: 0 <= other < |world.writes| && world.writes[other].call == i ==> other == k
  }

  /** What success means: exactly one write, or a delete whose key was absent at some moment. */
  ghost predicate Fulfilled(world: World, i: nat)
    requires i < |world.calls|
  {
    || (exists k :: OneWrite(world, i, k))
    || (&& world.calls[i].write.Delete? && !Wrote(world, i)
        && exists count :: AbsentAfter(world, world.calls[i].reference, count))
  }

  /**
   Success is exactly the one-key update. A put that is answered with success wrote its key exactly
   once, over an existing value only if asked to; a delete removed its key exactly once, or wrote
   nothing because the key was absent.
   */
  lemma SuccessIsOneUpdate(world: World, i: nat)
    requires Sound(world) && i < |world.calls| && world.calls[i].stage == Answered(Succeeded)
    ensures Fulfilled(world, i)
    ensures world.calls[i].write.Put? ==> exists k :: OneWrite(world, i, k)
  {
    assert CallOk(world, i);
    if world.calls[i].worker.outcome.Changed? {
      var k :| 0 <= k < |world.writes| && world.writes[k].call == i;
      assert MapAfter(world, k + 1) == Left(world, k) && EntryApplies(world, k);
      assert forall other :: 0 <= other < |world.writes| && other != k ==>
               world.writes[other].call != world.writes[k].call;
      assert OneWrite(world, i, k);
    } else {
      assert AbsentAfter(world, world.calls[i].reference, world.calls[i].worker.outcome.after);
    }
  }

  /** An answered call whose worker is not past its last look is too late to write. */
  predicate TooLate(world: World, i: nat) {
    && i < |world.calls| && world.calls[i].stage.Answered? && !world.calls[i].worker.Saving?
  }

  lemma TooLateStep(world: World, action: Action, i: nat)
    requires Sound(world) && Enabled(world, action) && TooLate(world, i)
    ensures TooLate(Apply(world, action), i) && (Wrote(Apply(world, action), i) <==> Wrote(world, i))
  {
    assert CallOk(world, i);
    AnswerStep(world, action, i);
    if Writes(action) {
      WroteAppend(world, Apply(world, action), Entry(action.call, world.secrets), i);
    } else {
      assert Apply(world, action).writes == world.writes;
    }
  }

  lemma {:induction false} TooLateReplay(world: World, history: seq<Action>, i: nat)
    requires Sound(world) && Legal(world, history) && TooLate(world, i)
    ensures Wrote(Replay(world, history), i) <==> Wrote(world, i)
    decreases |history|
  {
    if history != [] {
      TooLateStep(world, history[0], i);
      SoundStep(world, history[0]);
      TooLateReplay(Apply(world, history[0]), history[1..], i);
    }
  }

  /**
   No late write. A call may be answered while its worker runs on, but as soon as any other call's
   worker has the store, the answered call has written already or never will.
   */
  lemma NoLateWrite(world: World, history: seq<Action>, i: nat, j: nat)
    requires Sound(world) && Legal(world, history)
    requires i < |world.calls| && world.calls[i].stage.Answered? && world.store == Some(j) && i != j
    ensures Wrote(Replay(world, history), i) <==> Wrote(world, i)
  {
    assert CallOk(world, i);
    TooLateReplay(world, history, i);
  }

  lemma StartSound(secrets: Secrets)
    ensures Sound(Start(secrets))
  {
  }
}
