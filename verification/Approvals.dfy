/** The supervisor's part in answering approvals. Every method is one task among any number of others. */
module Approvals {
  import opened Common
  import opened ApprovalProtocol
  import Runs

  datatype Error = NotPending | RunNotActive | DecisionConflict | StoreFailed | HarnessFailed
  datatype Result = Ok | Err(error: Error)

  predicate SentSince(trace: seq<Mark>, from: nat, approval: Approval, decision: Decision) {
    exists i :: from <= i < |trace| && trace[i] == Sent(approval, decision)
  }

  /** How a store call ends: `Lost` is a change that was made although the caller is told it failed. */
  datatype StoreCall = Done | Failed | Lost

  /** Steps of the given task, and the end of the process it runs in. */
  predicate Own(action: Action, task: nat) {
    match action
    case Restart => true
    case Record(_) => false
    case Remember(_) => false
    case Void(_) => false
    case Forget(_) => false
    case _ => action.task == task
  }

  /** What the other tasks leave alone: this task's own place, made decisions, and what is resolved. */
  ghost predicate Undisturbed(world: World, after: World, task: nat) {
    && world.trace <= after.trace && world.store.Keys <= after.store.Keys
    && (task in after.resolvers <==> task in world.resolvers) && (task in after.rows <==> task in world.rows)
    && (task in world.resolvers ==> after.resolvers[task] == world.resolvers[task])
    && (task in world.rows ==> after.rows[task] == world.rows[task])
    && (forall approval: Approval :: Decided(world, approval).Some? ==>
          Decided(after, approval) == Decided(world, approval))
    && (forall approval :: approval in world.store && world.store[approval].Resolved? ==>
          approval in after.store && after.store[approval].Resolved?)
  }

  lemma OthersDisturbNothing(world: World, action: Action, task: nat)
    requires Enabled(world, action) && !Own(action, task)
    ensures Undisturbed(world, Apply(world, action), task)
  {
    DecisionsKept(world, action);
  }

  /**
   Why a decision did not become durable, told by the resolver's last step: memory holds another one, or
   the store failed, or the approval was not pending, or the store made the change and said it failed.
   */
  predicate EndsDeciding(before: World, action: Action, task: nat, begin: StoreCall, error: Error) {
    && task in before.resolvers
    && var approval := before.resolvers[task].approval;
       match action
       case Look(mine) =>
         && mine == task && error == DecisionConflict
         && approval in before.responses && before.responses[approval] != before.resolvers[task].decision
       case GiveUp(mine) =>
         && mine == task && error == StoreFailed && before.resolvers[task].phase.MustBegin?
         && (begin.Failed? || approval !in before.store || !before.store[approval].Pending?)
       case Begin(mine, told) => mine == task && error == StoreFailed && !told && begin.Lost?
       case _ => false
  }

  /** How a call ends that has sent the decision. */
  predicate EndsSending(before: World, action: Action, task: nat, answered: bool, confirm: StoreCall, result: Result) {
    && task in before.resolvers
    && var approval := before.resolvers[task].approval;
       match action
       case GiveUp(mine) =>
         && mine == task && before.resolvers[task].phase.SentIt?
         && if !answered then result == Err(HarnessFailed)
            else result == Err(StoreFailed)
                 && (confirm.Failed? || approval !in before.store || !before.store[approval].Responding?)
       case Confirm(mine, told) => mine == task && result == Err(StoreFailed) && !told && answered && confirm.Lost?
       case Finish(mine) => mine == task && result == Ok && answered
       case _ => false
  }

  class Supervisor {
    var store: map<Approval, Status>
    var open: set<Approval>
    var responses: map<Approval, Decision>
    /** What the harness and the audit log have seen. */
    var trace: seq<Mark>
    var resolvers: map<nat, Resolver>
    var rows: map<nat, Row>
    ghost var history: seq<Action>

    function Now(): World
      reads this
    {
      World(store, open, responses, trace, resolvers, rows)
    }

    ghost predicate Valid()
      reads this
    {
      Legal(NOTHING, history) && Replay(NOTHING, history) == Now()
    }

    constructor ()
      ensures Valid() && Now() == NOTHING
    {
      store, open, responses, trace, resolvers, rows := map[], {}, map[], [], map[], map[];
      history := [];
    }

    lemma Kept()
      requires Valid()
      ensures Invariant(Now())
    {
      InvariantReplay(NOTHING, history);
    }

    ghost method Took(before: World, action: Action)
      requires Legal(NOTHING, history) && Replay(NOTHING, history) == before
      requires Enabled(before, action) && Now() == Apply(before, action)
      modifies `history
      ensures Valid() && JustDid(before, action)
    {
      Runs.ReplayAppend(Step, NOTHING, history, action);
      history := history + [action];
      assert history[..|history| - 1] == old(history);
    }

    /** The last step of all, and what it was taken on. */
    ghost predicate JustDid(before: World, action: Action)
      reads `history
    {
      && history != [] && history[|history| - 1] == action
      && Legal(NOTHING, history[..|history| - 1]) && Replay(NOTHING, history[..|history| - 1]) == before
    }

    ghost predicate Undecided(task: nat, begin: StoreCall, error: Error)
      reads `history
    {
      exists before, action :: JustDid(before, action) && EndsDeciding(before, action, task, begin, error)
    }

    ghost predicate SendingOver(task: nat, answered: bool, confirm: StoreCall, result: Result)
      reads `history
    {
      exists before, action :: JustDid(before, action) && EndsSending(before, action, task, answered, confirm, result)
    }

    /** One step of whatever task. */
    method Act(action: Action)
      requires Valid() && Enabled(Now(), action)
      modifies this
      ensures Valid() && Now() == Apply(old(Now()), action) && JustDid(old(Now()), action)
    {
      ghost var before := Now();
      var next := Apply(Now(), action);
      store, open, responses := next.store, next.open, next.responses;
      trace, resolvers, rows := next.trace, next.resolvers, next.rows;
      Took(before, action);
    }

    /** Other tasks take any number of steps. */
    method Yield(task: nat)
      requires Valid()
      modifies this
      ensures Valid() && Undisturbed(old(Now()), Now(), task)
    {
      var turns: int := *;
      for turn := 0 to if turns < 0 then 0 else turns
        invariant Valid() && Undisturbed(old(Now()), Now(), task)
      {
        var action: Action := *;
        if Enabled(Now(), action) && !Own(action, task) {
          OthersDisturbNothing(Now(), action, task);
          Act(action);
        }
      }
    }

    // ----- One resolver -----

    /** Memory is asked for a response in flight; one with another decision is a conflict. */
    method LookAtMemory(task: nat) returns (phase: Phase)
      requires Valid() && At(Now(), task, Entered)
      modifies `resolvers, `history
      ensures Valid() && resolvers == old(resolvers)[task := old(resolvers)[task].(phase := phase)]
      ensures phase == MaySend ==> resolvers[task].approval in responses
      ensures phase == Over ==>
                && resolvers[task].approval in responses
                && responses[resolvers[task].approval] != resolvers[task].decision
      ensures phase in {MustBegin, MaySend, Over}
      ensures JustDid(old(Now()), Look(task))
    {
      ghost var before := Now();
      var resolver := resolvers[task];
      phase := MustBegin;
      if resolver.approval in responses {
        phase := if responses[resolver.approval] == resolver.decision then MaySend else Over;
      }
      resolvers := resolvers[task := resolver.(phase := phase)];
      Took(before, Look(task));
    }

    /** The store's compare-and-set from Pending to Responding. */
    method BeginApprovalResponse(task: nat, call: StoreCall) returns (ok: bool)
      requires Valid() && At(Now(), task, MustBegin)
      modifies `store, `trace, `resolvers, `history
      ensures Valid() && old(trace) <= trace
      ensures resolvers.Keys == old(resolvers).Keys
      ensures resolvers[task] == old(resolvers)[task].(phase := if ok then Began else Over)
      ensures ok <==>
                && call.Done? && old(resolvers)[task].approval in old(store)
                && old(store)[old(resolvers)[task].approval].Pending?
      ensures !ok ==> Undecided(task, call, StoreFailed)
    {
      ghost var before := Now();
      var resolver := resolvers[task];
      var approval := resolver.approval;
      if call.Failed? || approval !in store || !store[approval].Pending? {
        resolvers := resolvers[task := resolver.(phase := Over)];
        Took(before, GiveUp(task));
        assert EndsDeciding(before, GiveUp(task), task, call, StoreFailed);
        return false;
      }
      store := store[approval := Responding(resolver.decision)];
      trace := trace + [Begun(approval, resolver.decision)];
      resolvers := resolvers[task := resolver.(phase := if call.Done? then Began else Over)];
      Took(before, Begin(task, call.Done?));
      assert call.Lost? ==> EndsDeciding(before, Begin(task, false), task, call, StoreFailed);
      return call.Done?;
    }

    method NoteResponse(task: nat)
      requires Valid() && At(Now(), task, Began)
      modifies `responses, `resolvers, `history
      ensures Valid() && resolvers == old(resolvers)[task := old(resolvers)[task].(phase := MaySend)]
      ensures responses == old(responses)[old(resolvers)[task].approval := old(resolvers)[task].decision]
    {
      ghost var before := Now();
      var resolver := resolvers[task];
      responses := responses[resolver.approval := resolver.decision];
      resolvers := resolvers[task := resolver.(phase := MaySend)];
      Took(before, Note(task));
    }

    /** The answer is written to the harness; nothing is known of the outcome yet. */
    method Respond(task: nat)
      requires Valid() && At(Now(), task, MaySend)
      modifies `trace, `resolvers, `history
      ensures Valid() && resolvers == old(resolvers)[task := old(resolvers)[task].(phase := SentIt)]
      ensures trace == old(trace) + [Sent(old(resolvers)[task].approval, old(resolvers)[task].decision)]
      ensures Decided(Now(), resolvers[task].approval) == Some(resolvers[task].decision)
    {
      ghost var before := Now();
      var resolver := resolvers[task];
      trace := trace + [Sent(resolver.approval, resolver.decision)];
      resolvers := resolvers[task := resolver.(phase := SentIt)];
      Took(before, Send(task));
      Kept();
      assert ResolverAgrees(Now(), task);
    }

    method ConfirmApprovalResponse(task: nat, call: StoreCall) returns (ok: bool)
      requires Valid() && At(Now(), task, SentIt)
      modifies `store, `resolvers, `history
      ensures Valid() && forall other: Approval :: Decided(Now(), other) == Decided(old(Now()), other)
      ensures resolvers.Keys == old(resolvers).Keys
      ensures resolvers[task] == old(resolvers)[task].(phase := if ok then Confirmed else Over)
      ensures ok <==>
                && call.Done? && old(resolvers)[task].approval in old(store)
                && old(store)[old(resolvers)[task].approval].Responding?
      ensures ok ==> resolvers[task].approval in store && store[resolvers[task].approval].Resolved?
      ensures !ok ==> SendingOver(task, true, call, Err(StoreFailed))
    {
      ghost var before := Now();
      var resolver := resolvers[task];
      var approval := resolver.approval;
      if call.Failed? || approval !in store || !store[approval].Responding? {
        resolvers := resolvers[task := resolver.(phase := Over)];
        Took(before, GiveUp(task));
        assert EndsSending(before, GiveUp(task), task, true, call, Err(StoreFailed));
        return false;
      }
      store := store[approval := Resolved(store[approval].decision)];
      resolvers := resolvers[task := resolver.(phase := if call.Done? then Confirmed else Over)];
      Took(before, Confirm(task, call.Done?));
      assert call.Lost? ==> EndsSending(before, Confirm(task, false), task, true, call, Err(StoreFailed));
      return call.Done?;
    }

    method ForgetResolved(task: nat)
      requires Valid() && At(Now(), task, Confirmed)
      modifies `open, `responses, `resolvers, `history
      ensures Valid() && resolvers == old(resolvers)[task := old(resolvers)[task].(phase := Over)]
      ensures open == old(open) - {old(resolvers)[task].approval}
      ensures responses == Without(old(responses), old(resolvers)[task].approval)
      ensures forall confirm :: SendingOver(task, true, confirm, Ok)
    {
      ghost var before := Now();
      var resolver := resolvers[task];
      open := open - {resolver.approval};
      responses := Without(responses, resolver.approval);
      resolvers := resolvers[task := resolver.(phase := Over)];
      Took(before, Finish(task));
      assert forall confirm :: EndsSending(before, Finish(task), task, true, confirm, Ok);
    }

    /**
     Makes sure that the decision is durable: it is in memory already, or the store takes it now.
     Another decision in memory is a conflict with the durable one.
     */
    method Decide(task: nat, call: StoreCall) returns (result: Result)
      requires Valid() && At(Now(), task, Entered)
      modifies this
      ensures Valid() && old(trace) <= trace && task in resolvers
      ensures resolvers[task].approval == old(resolvers)[task].approval
      ensures resolvers[task].decision == old(resolvers)[task].decision
      ensures result.Ok? ==> resolvers[task].phase == MaySend
      ensures result.Err? ==> Undecided(task, call, result.error)
      ensures result == Err(DecisionConflict) ==>
                && Decided(Now(), resolvers[task].approval).Some?
                && Decided(Now(), resolvers[task].approval) != Some(resolvers[task].decision)
    {
      var phase := LookAtMemory(task);
      if phase == MaySend {
        return Ok;
      }
      if phase == Over {
        assert EndsDeciding(old(Now()), Look(task), task, call, DecisionConflict);
        Kept();
        return Err(DecisionConflict);
      }
      var began := BeginAndNote(task, call);
      return if began then Ok else Err(StoreFailed);
    }

    method BeginAndNote(task: nat, call: StoreCall) returns (ok: bool)
      requires Valid() && At(Now(), task, MustBegin)
      modifies this
      ensures Valid() && old(trace) <= trace && task in resolvers
      ensures resolvers[task] == old(resolvers)[task].(phase := if ok then MaySend else Over)
      ensures !ok ==> Undecided(task, call, StoreFailed)
    {
      Yield(task);
      ok := BeginApprovalResponse(task, call);
      if ok {
        Yield(task);
        NoteResponse(task);
      }
    }

    method SendAndConfirm(task: nat, answered: bool, confirm: StoreCall) returns (result: Result)
      requires Valid() && At(Now(), task, MaySend)
      modifies this
      ensures Valid() && old(trace) <= trace
      ensures SentSince(trace, |old(trace)|, old(resolvers)[task].approval, old(resolvers)[task].decision)
      ensures result.Ok? ==>
                && old(resolvers)[task].approval in store
                && store[old(resolvers)[task].approval] == Resolved(old(resolvers)[task].decision)
      ensures SendingOver(task, answered, confirm, result)
    {
      ghost var approval, decision := resolvers[task].approval, resolvers[task].decision;
      Yield(task);
      ghost var at := |trace|;
      Respond(task);
      assert trace[at] == Sent(approval, decision);
      Yield(task);
      assert Decided(Now(), approval) == Some(decision);
      if !answered {
        ghost var before := Now();
        Act(GiveUp(task));
        assert EndsSending(before, GiveUp(task), task, answered, confirm, Err(HarnessFailed));
        return Err(HarnessFailed);
      }
      var confirmed := ConfirmAndForget(task, confirm);
      return if confirmed then Ok else Err(StoreFailed);
    }

    method ConfirmAndForget(task: nat, confirm: StoreCall) returns (ok: bool)
      requires Valid() && At(Now(), task, SentIt)
      requires Decided(Now(), resolvers[task].approval) == Some(resolvers[task].decision)
      modifies this
      ensures Valid() && old(trace) <= trace
      ensures ok ==>
                && old(resolvers)[task].approval in store
                && store[old(resolvers)[task].approval] == Resolved(old(resolvers)[task].decision)
      ensures SendingOver(task, true, confirm, if ok then Ok else Err(StoreFailed))
    {
      ghost var approval, decision := resolvers[task].approval, resolvers[task].decision;
      ok := ConfirmApprovalResponse(task, confirm);
      assert Decided(Now(), approval) == Some(decision);
      if ok {
        Yield(task);
        assert Decided(Now(), approval) == Some(decision);
        ForgetResolved(task);
      }
    }

    method Answer(task: nat, begin: StoreCall, answered: bool, confirm: StoreCall) returns (result: Result)
      requires Valid() && At(Now(), task, Entered)
      modifies this
      ensures Valid() && old(trace) <= trace
      ensures result.Ok? ==>
                && old(resolvers)[task].approval in store
                && store[old(resolvers)[task].approval] == Resolved(old(resolvers)[task].decision)
                && SentSince(trace, |old(trace)|, old(resolvers)[task].approval, old(resolvers)[task].decision)
      ensures result == Err(DecisionConflict) ==>
                && Decided(Now(), old(resolvers)[task].approval).Some?
                && Decided(Now(), old(resolvers)[task].approval) != Some(old(resolvers)[task].decision)
      ensures (result.Err? && Undecided(task, begin, result.error)) || SendingOver(task, answered, confirm, result)
      ensures result != Err(NotPending) && result != Err(RunNotActive)
    {
      result := Decide(task, begin);
      if result.Ok? {
        ghost var decided := |trace|;
        result := SendAndConfirm(task, answered, confirm);
        SentEarlier(trace, decided, |old(trace)|, old(resolvers)[task].approval, old(resolvers)[task].decision);
      }
    }

    /**
     One call of a resolver. If it succeeds, it sent its decision and the store says resolved with it;
     if it conflicts, another decision is durable.
     */
    method ResolveApproval(task: nat, approval: Approval, decision: Decision, active: bool,
                           begin: StoreCall, answered: bool, confirm: StoreCall) returns (result: Result)
      requires Valid() && task !in resolvers
      modifies this
      ensures Valid() && old(trace) <= trace
      ensures result.Ok? ==>
                && approval in store && store[approval] == Resolved(decision)
                && SentSince(trace, |old(trace)|, approval, decision)
      ensures result == Err(DecisionConflict) ==>
                Decided(Now(), approval).Some? && Decided(Now(), approval) != Some(decision)
      ensures approval !in old(open) ==> result == Err(NotPending) && Now() == old(Now())
      ensures result == Err(NotPending) <==> approval !in old(open)
      ensures result == Err(RunNotActive) <==> approval in old(open) && !active
      ensures approval in old(open) && active ==>
                || (result.Err? && Undecided(task, begin, result.error))
                || SendingOver(task, answered, confirm, result)
    {
      if approval !in open {
        return Err(NotPending);
      }
      Act(Enter(task, approval, decision));
      Yield(task);
      if !active {
        Act(GiveUp(task));
        return Err(RunNotActive);
      }
      ghost var entered := |trace|;
      result := Answer(task, begin, answered, confirm);
      if result.Ok? {
        SentEarlier(trace, entered, |old(trace)|, approval, decision);
      }
    }

    lemma SentEarlier(marks: seq<Mark>, from: nat, earlier: nat, approval: Approval, decision: Decision)
      requires SentSince(marks, from, approval, decision) && earlier <= from
      ensures SentSince(marks, earlier, approval, decision)
    {
    }

    // ----- Requests, restarts -----

    /** An approval the harness asks for: in the store first, then in memory. */
    method RequestApproval(task: nat, approval: Approval, recorded: bool)
      requires Valid()
      modifies this
      ensures Valid() && old(trace) <= trace
      ensures !recorded || approval in old(store) ==> Now() == old(Now())
      ensures recorded ==> approval in store && (approval !in old(store) ==> approval in open)
    {
      if !recorded || approval in store {
        return;
      }
      Act(Record(approval));
      Yield(task);
      Act(Remember(approval));
    }

    /** After a restart a run's approval is read from the store, and later put back in memory if still open. */
    method RestoreApproval(task: nat, approval: Approval)
      requires Valid() && approval in store && task !in rows
      modifies this
      ensures Valid() && old(trace) <= trace
      ensures Unresolved(old(store)[approval]) ==> approval in open
      ensures old(store)[approval].Responding? ==>
                approval in responses && responses[approval] == old(store)[approval].decision
    {
      Act(Read(task, approval));
      Yield(task);
      Act(PutBack(task));
    }

    /** A restart loses what is in memory, and every task. */
    method Restarted()
      requires Valid()
      modifies this
      ensures Valid() && Now() == NOTHING.(store := old(store), trace := old(trace))
    {
      Act(Restart);
    }
  }

  predicate Unresolved(status: Status) { status.Pending? || status.Responding? }
}
