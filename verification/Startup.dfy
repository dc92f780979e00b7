/**
 Reconciliation at startup: the runs the store still lists are read page by page, and each is
 either prepared for reattachment, with its open requests, or moved to a status that says it is
 not running. Routes go live only after the last page. Until then nothing else runs; from the first
 activation on, the consumers of the attached runs and the event pump do.
 */
module Startup {
  import opened Common
  import opened Paging
  import opened StartupOutcome
  import ApprovalProtocol

  datatype ApprovalRow = ApprovalRow(run: nat, status: ApprovalProtocol.Status)

  predicate Unresolved(status: ApprovalProtocol.Status) { status.Pending? || status.Responding? }

  /** The ids of `order` that belong to `chosen`, in the same order. */
  function Select(order: seq<nat>, chosen: set<nat>): seq<nat> {
    if order == [] then []
    else if order[0] in chosen then [order[0]] + Select(order[1..], chosen) else Select(order[1..], chosen)
  }

  lemma {:induction false} SelectMembers(order: seq<nat>, chosen: set<nat>, id: nat)
    ensures id in Select(order, chosen) <==> id in order && id in chosen
  {
    if order != [] {
      assert id in order <==> id == order[0] || id in order[1..] by {
        assert order == [order[0]] + order[1..];
      }
      SelectMembers(order[1..], chosen, id);
    }
  }

  lemma {:induction false} SelectAscending(order: seq<nat>, chosen: set<nat>)
    requires Ascending(order)
    ensures Ascending(Select(order, chosen))
  {
    if order != [] {
      AscendingTail(order);
      SelectAscending(order[1..], chosen);
      var rest := Select(order[1..], chosen);
      forall i | 0 <= i < |rest| ensures rest[i] > order[0] {
        SelectMembers(order[1..], chosen, rest[i]);
        assert rest[i] in rest;
      }
    }
  }

  /** The requests of one run that must be in memory for it to go on. */
  datatype Restored = Restored(approvals: set<nat>, responses: map<nat, ApprovalProtocol.Decision>, inputs: set<nat>)

  datatype Result = Ok | Err(error: Error)

  /** The requests in the store; nothing changes them during startup. */
  datatype Requests = Requests(
    approvalOrder: seq<nat>,
    approvals: map<nat, ApprovalRow>,
    inputOrder: seq<nat>,
    inputs: map<nat, nat>)
  {
    predicate Valid() {
      && Ascending(approvalOrder) && Ascending(inputOrder)
      && (forall id :: id in approvals ==> id in approvalOrder)
      && (forall id :: id in inputs ==> id in inputOrder)
    }

    function ApprovalsOf(run: nat): set<nat> { set id | id in approvals && approvals[id].run == run }

    function InputsOf(run: nat): set<nat> { set id | id in inputs && inputs[id] == run }

    function OpenApprovals(run: nat): set<nat> { set id | id in ApprovalsOf(run) && Unresolved(approvals[id].status) }

    /** Exactly the run's open approvals, its decisions in flight, and its pending inputs. */
    function For(run: nat): Restored {
      Restored(
        OpenApprovals(run),
        map id | id in OpenApprovals(run) && approvals[id].status.Responding? :: approvals[id].status.decision,
        InputsOf(run))
    }
  }

  /** The runs that the store lists for reconciliation. */
  function Listed(runs: map<nat, Record>): set<nat> { set id | id in runs && Reconcilable(runs[id].status) }

  /** The part of the approvals seen so far that is restored. */
  predicate ApprovalsRestored(requests: Requests, restored: Restored, seen: seq<nat>) {
    && (forall id :: id in restored.approvals ==>
          id in seen && id in requests.approvals && Unresolved(requests.approvals[id].status))
    && (forall id :: id in seen && id in requests.approvals && Unresolved(requests.approvals[id].status) ==>
          id in restored.approvals)
    && (forall id :: id in restored.responses ==>
          id in restored.approvals
            && requests.approvals[id].status == ApprovalProtocol.Responding(restored.responses[id]))
    && (forall id :: id in restored.approvals && requests.approvals[id].status.Responding? ==> id in restored.responses)
  }

  /** A running status and a route for the run's own provider reference. */
  predicate Prepared(runs: map<nat, Record>, routes: map<nat, string>, run: nat) {
    run in runs && run in routes && runs[run] == Record(Running, Some(routes[run]))
  }

  /** The run is prepared, and its open requests are all in memory. */
  predicate Whole(requests: Requests, runs: map<nat, Record>, routes: map<nat, string>,
                  restored: map<nat, Restored>, run: nat) {
    Prepared(runs, routes, run) && run in restored && restored[run] == requests.For(run)
  }

  /** So is every routed run that no other task has touched. */
  predicate Coherent(requests: Requests, runs: map<nat, Record>, routes: map<nat, string>,
                     restored: map<nat, Restored>, disturbed: set<nat>) {
    && routes.Keys == restored.Keys
    && forall run :: run in routes && run !in disturbed ==> Whole(requests, runs, routes, restored, run)
  }

  lemma CoherentAdd(requests: Requests, runs: map<nat, Record>, routes: map<nat, string>,
                    restored: map<nat, Restored>, disturbed: set<nat>, run: nat, provider: string)
    requires Coherent(requests, runs, routes, restored, disturbed) && run !in routes
    ensures Coherent(requests, runs[run := Record(Running, Some(provider))], routes[run := provider],
                     restored[run := requests.For(run)], disturbed)
  {
  }

  lemma CoherentRemove(requests: Requests, runs: map<nat, Record>, routes: map<nat, string>,
                       restored: map<nat, Restored>, disturbed: set<nat>, run: nat)
    requires Coherent(requests, runs, routes, restored, disturbed)
    ensures Coherent(requests, runs, Without(routes, run), Without(restored, run), disturbed)
  {
  }

  lemma CoherentOther(requests: Requests, runs: map<nat, Record>, routes: map<nat, string>,
                      restored: map<nat, Restored>, disturbed: set<nat>, run: nat, record: Record)
    requires Coherent(requests, runs, routes, restored, disturbed) && (run in routes ==> run in disturbed)
    ensures Coherent(requests, runs[run := record], routes, restored, disturbed)
  {
  }

  lemma CoherentDisturbed(requests: Requests, runs: map<nat, Record>, routes: map<nat, string>,
                          restored: map<nat, Restored>, disturbed: set<nat>, more: set<nat>)
    requires Coherent(requests, runs, routes, restored, disturbed)
    ensures Coherent(requests, runs, routes, restored, disturbed + more)
  {
  }

  /** Two tables agree but for these keys. */
  predicate Agree<V(==)>(one: map<nat, V>, two: map<nat, V>, except: set<nat>) {
    && (forall key :: key in one && key !in except ==> key in two && two[key] == one[key])
    && (forall key :: key in two && key !in except ==> key in one)
  }

  lemma AgreeTransitive<V>(one: map<nat, V>, two: map<nat, V>, three: map<nat, V>, except: set<nat>, before: set<nat>)
    requires before <= except && Agree(one, two, except) && Agree(two, three, before)
    ensures Agree(one, three, except)
  {
  }

  /** What another task may do to a run: drop its route, move its status, or fail with the whole stream. */
  datatype Disturbance = Closes | Moves(target: Status) | PumpFails

  /** A record once moved; a provider reference is only ever added. */
  function Moved(record: Record, target: Status, provider: Option<string>): Record {
    Record(target, if provider.Some? then provider else record.provider)
  }

  class Supervisor {
    const order: seq<nat>
    const requests: Requests
    /** Which store calls fail. */
    const faults: Faults
    /** The provider runs that the harness still has. */
    const reachable: set<string>
    var runs: map<nat, Record>

    // In memory, by run.
    var routes: map<nat, string>
    var restored: map<nat, Restored>
    var attached: set<nat>

    // The runs that another task has touched. Read by the specification only.
    var disturbed: set<nat>

    constructor (order: seq<nat>, runs: map<nat, Record>, requests: Requests, faults: Faults, reachable: set<string>)
      requires Ascending(order) && requests.Valid() && forall id :: id in runs ==> id in order
      ensures Valid() && this.runs == runs && this.order == order && this.requests == requests
      ensures this.faults == faults && this.reachable == reachable
      ensures routes == map[] && attached == {} && disturbed == {}
    {
      this.order, this.runs, this.requests := order, runs, requests;
      this.faults, this.reachable := faults, reachable;
      routes, restored, attached, disturbed := map[], map[], {}, {};
    }

    predicate Stored()
      reads `runs
    {
      Ascending(order) && requests.Valid() && forall id :: id in runs ==> id in order
    }

    predicate Valid()
      reads this
    {
      Stored() && Coherent(requests, runs, routes, restored, disturbed)
    }

    /** What startup would begin with now. */
    function SetupNow(): Setup
      reads `runs
    {
      Setup(runs, Select(order, Listed(runs)), reachable, faults)
    }

    lemma SetupValid()
      requires Stored()
      ensures SetupNow().Valid() && Ascending(SetupNow().ids)
    {
      SelectAscending(order, Listed(runs));
      forall id ensures id in SetupNow().ids <==> id in Listed(runs) {
        SelectMembers(order, Listed(runs), id);
      }
    }

    predicate Fits(setup: Setup)
    {
      setup.Valid() && Ascending(setup.ids) && setup.reachable == reachable && setup.faults == faults
    }

    // ----- The store -----

    method Transition(run: nat, expected: Status, target: Status, provider: Option<string>, fails: bool)
      returns (ok: bool)
      requires Stored()
      modifies `runs
      ensures Stored()
      ensures ok <==> !fails && run in old(runs) && old(runs)[run].status == expected && CanTransition(expected, target)
      ensures runs == if ok then old(runs)[run := Moved(old(runs)[run], target, provider)] else old(runs)
    {
      if fails || run !in runs || runs[run].status != expected || !CanTransition(expected, target) {
        return false;
      }
      runs := runs[run := Moved(runs[run], target, provider)];
      return true;
    }

    /** A call of a load that fails; which one it is does not matter. */
    method CallFails(run: nat) returns (fails: bool)
      ensures fails ==> run in faults.loading
    {
      fails := *;
      fails := fails && run in faults.loading;
    }

    /** The run's open requests, collected over any number of pages. */
    method LoadRequests(run: nat) returns (result: Option<Restored>)
      requires requests.Valid()
      ensures result == if run in faults.loading then None else Some(requests.For(run))
    {
      var loaded := LoadApprovals(run);
      if loaded == None {
        return None;
      }
      var inputs := LoadInputs(run);
      if inputs == None {
        return None;
      }
      return Some(loaded.value.(inputs := inputs.value));
    }

    method LoadApprovals(run: nat) returns (result: Option<Restored>)
      requires requests.Valid()
      ensures result.Some? ==> result.value == requests.For(run).(inputs := {})
      ensures run !in faults.loading ==> result.Some?
    {
      var ids := Select(requests.approvalOrder, requests.ApprovalsOf(run));
      SelectAscending(requests.approvalOrder, requests.ApprovalsOf(run));
      var loaded, after, more := Restored({}, map[], {}), None, true;
      ghost var seen := [];
      while more
        invariant ApprovalsRestored(requests, loaded, seen) && loaded.inputs == {}
        invariant seen + (if more then Beyond(ids, after) else []) == ids
        decreases more, |Beyond(ids, after)|
      {
        var fails := CallFails(run);
        if fails {
          return None;
        }
        var page := PageOf(ids, after, PAGE_LIMIT);
        PageFollows(ids, after, PAGE_LIMIT);
        NextSeen(ids, seen, after, page);
        loaded := KeepOpen(loaded, seen, page.items);
        seen := seen + page.items;
        after, more := page.next, page.next.Some?;
      }
      assert seen == ids;
      RestoredWhole(requests, run, ids, loaded);
      return Some(loaded);
    }

    method KeepOpen(start: Restored, ghost seen: seq<nat>, items: seq<nat>) returns (loaded: Restored)
      requires ApprovalsRestored(requests, start, seen)
      ensures ApprovalsRestored(requests, loaded, seen + items) && loaded.inputs == start.inputs
    {
      loaded := start;
      assert seen + items[..0] == seen;
      for i := 0 to |items|
        invariant ApprovalsRestored(requests, loaded, seen + items[..i]) && loaded.inputs == start.inputs
      {
        var id := items[i];
        assert seen + items[..i + 1] == seen + items[..i] + [id];
        if id in requests.approvals {
          var status := requests.approvals[id].status;
          if status.Pending? || status.Responding? {
            loaded := loaded.(approvals := loaded.approvals + {id});
          }
          if status.Responding? {
            loaded := loaded.(responses := loaded.responses[id := status.decision]);
          }
        }
      }
      assert items[..|items|] == items;
    }

    method LoadInputs(run: nat) returns (inputs: Option<set<nat>>)
      requires requests.Valid()
      ensures inputs == if run in faults.loading then None else Some(requests.InputsOf(run))
    {
      var ids := Select(requests.inputOrder, requests.InputsOf(run));
      SelectAscending(requests.inputOrder, requests.InputsOf(run));
      var found: set<nat>, after, more := {}, None, true;
      ghost var seen := [];
      while more
        invariant forall id :: id in found <==> id in seen
        invariant seen + (if more then Beyond(ids, after) else []) == ids
        decreases more, |Beyond(ids, after)|
      {
        var fails := CallFails(run);
        if fails {
          return None;
        }
        var page := PageOf(ids, after, PAGE_LIMIT);
        PageFollows(ids, after, PAGE_LIMIT);
        NextSeen(ids, seen, after, page);
        found := found + set id | id in page.items;
        seen := seen + page.items;
        after, more := page.next, page.next.Some?;
      }
      assert seen == ids;
      forall id ensures id in ids <==> id in requests.InputsOf(run) {
        SelectMembers(requests.inputOrder, requests.InputsOf(run), id);
      }
      assert found == requests.InputsOf(run);
      // Had no call failed yet, the last one did.
      return if run in faults.loading then None else Some(found);
    }

    // ----- One run -----

    /** The run is as it was when startup began, and has no route yet. */
    predicate Untouched(setup: Setup, run: nat)
      reads `runs, `routes, `disturbed
    {
      && Fits(setup) && disturbed == {} && run in setup.ids && run !in routes
      && run in runs && runs[run] == setup.runs[run]
    }

    /** The route is prepared with all open requests, or there is none; the status follows. */
    method PrepareStartupReattach(ghost setup: Setup, run: nat, provider: string) returns (error: Option<Error>)
      requires Valid() && Untouched(setup, run) && Reachable(setup, run) && runs[run].provider == Some(provider)
      modifies `runs, `routes, `restored
      ensures Valid() && error == Failure(setup, run) && runs == old(runs)[run := After(setup, run)]
      ensures routes == if error == None then old(routes)[run := provider] else old(routes)
    {
      var loaded := LoadRequests(run);
      if loaded == None {
        if runs[run].status.Running? {
          CoherentOther(requests, runs, routes, restored, disturbed, run, Record(Disconnected, Some(provider)));
          var moved := Transition(run, Running, Disconnected, None, run in faults.moving);
        }
        return Some(LoadFailed);
      }
      var ok := RegisterRun(run, provider, loaded.value);
      return if ok then None else Some(ReattachFailed);
    }

    /** The route is registered first; if the store then refuses the run, it is removed again. */
    method RegisterRun(run: nat, provider: string, loaded: Restored) returns (ok: bool)
      requires Valid() && run in Listed(runs) && run !in routes && runs[run].provider == Some(provider)
      requires loaded == requests.For(run)
      modifies `runs, `routes, `restored
      ensures Valid() && (ok <==> old(runs)[run].status.Running? || run !in faults.moving)
      ensures runs == if ok then old(runs)[run := Record(Running, Some(provider))] else old(runs)
      ensures routes == if ok then old(routes)[run := provider] else old(routes)
    {
      CoherentAdd(requests, runs, routes, restored, disturbed, run, provider);
      routes, restored := routes[run := provider], restored[run := loaded];
      ok := MakeRunning(run, provider);
      if !ok {
        WithoutAdded(old(routes), run, provider);
        WithoutAdded(old(restored), run, loaded);
        routes, restored := Without(routes, run), Without(restored, run);
      }
    }

    method MakeRunning(run: nat, provider: string) returns (ok: bool)
      requires Stored() && run in Listed(runs) && runs[run].provider == Some(provider)
      modifies `runs
      ensures Stored() && (ok <==> old(runs)[run].status.Running? || run !in faults.moving)
      ensures runs == if ok then old(runs)[run := Record(Running, Some(provider))] else old(runs)
    {
      var status := runs[run].status;
      if status.Running? {
        assert runs[run] == Record(Running, Some(provider));
        return true;
      }
      ok := Transition(run, status, Running, Some(provider), run in faults.moving);
    }

    /** A run that is not going to be reattached must not stay active. */
    method GiveUp(run: nat) returns (ok: bool)
      requires Valid() && run in Listed(runs) && run !in routes
      modifies `runs
      ensures Valid() && (ok <==> !Active(old(runs)[run].status) || run !in faults.moving)
      ensures runs == if ok then old(runs)[run := old(runs)[run].(status := Inactive(old(runs)[run].status))]
                else old(runs)
      ensures ok && old(runs)[run].status.Starting? ==> runs[run].status.OutcomeUnknown?
      ensures ok && old(runs)[run].status.Running? ==> runs[run].status.Disconnected?
    {
      var status := runs[run].status;
      if !status.Starting? && !status.Running? {
        assert runs[run] == runs[run].(status := Inactive(status));
        return true;
      }
      var target := if status.Starting? then OutcomeUnknown else Disconnected;
      CoherentOther(requests, runs, routes, restored, disturbed, run, Record(target, runs[run].provider));
      ok := Transition(run, status, target, None, run in faults.moving);
    }

    method ReconcileRun(ghost setup: Setup, run: nat) returns (error: Option<Error>)
      requires Valid() && Untouched(setup, run)
      modifies `runs, `routes, `restored
      ensures Valid() && error == Failure(setup, run) && runs == old(runs)[run := After(setup, run)]
      ensures routes.Keys == old(routes).Keys + if error == None && Reachable(setup, run) then {run} else {}
    {
      if runs[run].provider == None {
        var ok := GiveUp(run);
        return if ok then None else Some(UnboundTransitionFailed);
      }
      var provider := runs[run].provider.value;
      if provider !in reachable {
        var ok := GiveUp(run);
        return if ok then None else Some(TransitionFailed);
      }
      error := PrepareStartupReattach(setup, run, provider);
    }

    // ----- All runs -----

    /** The first `count` listed runs were looked at, all of them without failure. */
    predicate LookedAt(setup: Setup, count: nat)
      requires count <= |setup.ids|
      reads this
    {
      && Valid() && Fits(setup) && disturbed == {}
      && runs == Looked(setup, count) && routes.Keys == Routed(setup, count)
    }

    /** What a failure at this run leaves of what was prepared. */
    predicate FailedAt(setup: Setup, at: nat, error: Option<Error>)
      requires at < |setup.ids| && setup.Valid()
      reads this
    {
      && Valid() && error.Some? && error == Failure(setup, setup.ids[at])
      && runs == Looked(setup, at + 1) && routes.Keys == Routed(setup, at)
    }

    method ReconcileNext(ghost setup: Setup, ghost at: nat, run: nat) returns (error: Option<Error>)
      requires at < |setup.ids| && run == setup.ids[at] && LookedAt(setup, at)
      modifies `runs, `routes, `restored
      ensures if error == None then LookedAt(setup, at + 1) && Failure(setup, run) == None
              else FailedAt(setup, at, error)
    {
      LooksNext(setup, at);
      error := ReconcileRun(setup, run);
    }

    /** The runs of one page, in order; the first failure ends it. */
    method ReconcilePage(ghost setup: Setup, ghost seen: nat, items: seq<nat>)
      returns (error: Option<Error>, ghost at: nat)
      requires seen + |items| <= |setup.ids| && items == setup.ids[seen..seen + |items|] && LookedAt(setup, seen)
      modifies `runs, `routes, `restored
      ensures seen <= at <= seen + |items| && NoFailures(setup, seen, at)
      ensures if error == None then at == seen + |items| && LookedAt(setup, at)
              else at < seen + |items| && FailedAt(setup, at, error)
    {
      at := seen;
      for i := 0 to |items|
        invariant at == seen + i && LookedAt(setup, at) && NoFailures(setup, seen, at)
      {
        error := ReconcileNext(setup, at, items[i]);
        if error.Some? {
          return;
        }
        at := at + 1;
      }
      return None, at;
    }

    /** This many runs were seen without failure, and the next page begins behind them. */
    predicate SeenTo(setup: Setup, seen: nat)
      reads this
    {
      seen <= |setup.ids| && LookedAt(setup, seen) && forall k :: 0 <= k < seen ==> !StopsAt(setup, k)
    }

    /** What is left when startup has failed, before anything is taken back. */
    predicate Ended(setup: Setup, error: Option<Error>)
      requires setup.Valid()
      reads this
    {
      && Valid() && error == Startup(setup).error && runs == Startup(setup).runs
      && routes.Keys == Routed(setup, Stop(setup, 0))
    }

    method ReconcileOnePage(ghost setup: Setup, after: Option<nat>, ghost seen: nat, ghost number: nat)
      returns (error: Option<Error>, ghost at: nat, next: Option<nat>)
      requires SeenTo(setup, seen) && AtPage(setup, seen, number) && number !in setup.faults.listing
      requires setup.ids == Select(order, Listed(setup.runs)) && Beyond(setup.ids, after) == setup.ids[seen..]
      modifies `runs, `routes, `restored
      ensures if error.Some? then Ended(setup, error)
              else if next.Some? then
                && SeenTo(setup, at) && seen < at && AtPage(setup, at, number + 1)
                && Beyond(setup.ids, next) == setup.ids[at..]
              else at == |setup.ids| && SeenTo(setup, at) && !ListingFails(setup, at)
    {
      LookedListed(setup, seen);
      var page := PageOf(Select(order, Listed(runs)), after, PAGE_LIMIT);
      NextPage(setup.ids, after, seen, page);
      error, at := ReconcilePage(setup, seen, page.items);
      NoStops(setup, seen, number, at);
      next := page.next;
      if error.Some? {
        FailureEnds(setup, at, error);
      }
    }

    /** The pages, each from where the one before ended. */
    method ReconcilePages(ghost setup: Setup) returns (error: Option<Error>)
      requires setup == SetupNow() && LookedAt(setup, 0)
      modifies `runs, `routes, `restored
      ensures Ended(setup, error)
    {
      var after, more, number := None, true, 0;
      ghost var seen: nat := 0;
      while more
        invariant SeenTo(setup, seen)
        invariant if more then Beyond(setup.ids, after) == setup.ids[seen..] && AtPage(setup, seen, number)
                  else seen == |setup.ids| && !ListingFails(setup, seen)
        decreases more, |setup.ids| - seen
      {
        PageStops(setup, seen, number);
        if number in faults.listing {
          StopIs(setup, seen);
          return Some(ListFailed);
        }
        error, seen, after := ReconcileOnePage(setup, after, seen, number);
        if error.Some? {
          return;
        }
        number, more := number + 1, after.Some?;
      }
      StopIs(setup, seen);
      return None;
    }

    lemma {:induction false} FailureEnds(setup: Setup, at: nat, error: Option<Error>)
      requires setup.Valid() && at < |setup.ids| && FailedAt(setup, at, error) && !ListingFails(setup, at)
      requires forall k :: 0 <= k < at ==> !StopsAt(setup, k)
      ensures error == Startup(setup).error && runs == Startup(setup).runs
      ensures routes.Keys == Routed(setup, Stop(setup, 0))
    {
      StopIs(setup, at);
    }

    lemma LookedListed(setup: Setup, count: nat)
      requires count <= |setup.ids| && LookedAt(setup, count)
      requires setup.ids == Select(order, Listed(setup.runs))
      ensures Select(order, Listed(runs)) == setup.ids
    {
      assert Listed(runs) == Listed(setup.runs);
    }

    /** The routes prepared so far are taken back. */
    method RemovePrepared()
      requires Valid()
      modifies `routes, `restored
      ensures Valid() && routes == map[] && restored == map[]
    {
      while routes != map[]
        invariant Valid()
        decreases |routes|
      {
        var run :| run in routes;
        CardWithout(routes, run);
        RemoveRouteState(run);
      }
    }

    method RemoveRouteState(run: nat)
      requires Valid()
      modifies `routes, `restored
      ensures Valid() && routes == Without(old(routes), run)
    {
      CoherentRemove(requests, runs, routes, restored, disturbed, run);
      routes, restored := Without(routes, run), Without(restored, run);
    }

    /** Startup up to the moment before the first route goes live. */
    method PrepareAll() returns (error: Option<Error>)
      requires Valid() && routes == map[] && disturbed == {}
      modifies `runs, `routes, `restored
      ensures Valid() && old(SetupNow()).Valid()
      ensures var outcome := Startup(old(SetupNow()));
              error == outcome.error && runs == outcome.runs && routes.Keys == outcome.routed
    {
      SetupValid();
      ghost var setup := SetupNow();
      assert runs == Looked(setup, 0) && routes.Keys == Routed(setup, 0);
      error := ReconcilePages(setup);
      if error.Some? && error != Some(UnboundTransitionFailed) {
        RemovePrepared();
      }
    }

    // ----- Going live -----

    /** The tasks of the attached runs, and the pump, take any number of steps. */
    method Others(ghost prepared: set<nat>)
      requires Valid() && routes.Keys <= prepared && attached <= prepared && disturbed <= prepared
      modifies `runs, `routes, `restored, `disturbed
      ensures Valid() && routes.Keys <= prepared && old(disturbed) <= disturbed <= prepared
      ensures Agree(runs, old(runs), disturbed) && Agree(routes, old(routes), disturbed)
    {
      var turns: int := *;
      for turn := 0 to if turns < 0 then 0 else turns
        invariant Valid() && routes.Keys <= prepared && old(disturbed) <= disturbed <= prepared
        invariant Agree(runs, old(runs), disturbed) && Agree(routes, old(routes), disturbed)
      {
        var run: nat, what: Disturbance := *, *;
        if what.PumpFails? {
          disturbed := disturbed + routes.Keys;
          routes, restored := map[], map[];
        } else if run in attached || run in disturbed {
          Disturb(run, what);
        }
      }
    }

    method Disturb(run: nat, what: Disturbance)
      requires Valid() && !what.PumpFails?
      modifies `runs, `routes, `restored, `disturbed
      ensures Valid() && routes.Keys <= old(routes).Keys && disturbed == old(disturbed) + {run}
      ensures Agree(runs, old(runs), {run}) && Agree(routes, old(routes), {run})
    {
      CoherentDisturbed(requests, runs, routes, restored, disturbed, {run});
      disturbed := disturbed + {run};
      if what.Closes? {
        RemoveRouteState(run);
      } else if run in runs {
        CoherentOther(requests, runs, routes, restored, disturbed, run, Record(what.target, runs[run].provider));
        var moved := Transition(run, runs[run].status, what.target, None, false);
      }
    }

    /** One route after the other goes live, while those that are live already may end again. */
    method ActivatePrepared()
      requires Valid() && attached == {} && disturbed == {}
      modifies this
      ensures Valid() && attached == old(routes).Keys && disturbed <= attached
      ensures Agree(runs, old(runs), disturbed) && Agree(routes, old(routes), disturbed)
    {
      var left := routes.Keys;
      while left != {}
        invariant Valid() && attached + left == old(routes).Keys && disturbed <= old(routes).Keys
        invariant routes.Keys <= old(routes).Keys
        invariant Agree(runs, old(runs), disturbed) && Agree(routes, old(routes), disturbed)
        decreases |left|
      {
        var run :| run in left;
        ghost var before, was, wereRoutes := disturbed, runs, routes;
        attached, left := attached + {run}, left - {run};
        Others(old(routes).Keys);
        AgreeTransitive(runs, was, old(runs), disturbed, before);
        AgreeTransitive(routes, wereRoutes, old(routes), disturbed, before);
      }
    }

    /**
     Startup. What it does up to the first activation is a function of the listed runs and of the
     store calls that fail. If it fails, that is the outcome. If it succeeds, exactly the runs that
     the harness still has were attached, and all is as it was before the first activation but for
     runs that ended meanwhile: no other run is durably starting or running unless it is attached to
     its own provider run with all its open requests in memory.
     */
    method ReconcileStartup() returns (result: Result)
      requires Valid() && routes == map[] && attached == {} && disturbed == {}
      modifies this
      ensures Valid() && old(SetupNow()).Valid()
      ensures var outcome := Startup(old(SetupNow()));
              && (result == if outcome.error == None then Ok else Err(outcome.error.value))
              && (result.Err? ==> runs == outcome.runs && routes.Keys == outcome.routed && attached == {})
              && (result.Ok? ==>
                    attached == outcome.routed && disturbed <= attached && Agree(runs, outcome.runs, disturbed))
      ensures result.Ok? ==> forall run :: run in attached && run !in disturbed ==>
                Whole(requests, runs, routes, restored, run)
      ensures result.Ok? ==> forall run :: run in runs && run !in disturbed && Active(runs[run].status) ==>
                run in attached
    {
      SetupValid();
      var error := PrepareAll();
      if error.Some? {
        return Err(error.value);
      }
      SuccessSettles(old(SetupNow()));
      ActivatePrepared();
      return Ok;
    }
  }

  // ----- Pages and positions -----

  predicate NoFailures(setup: Setup, from: nat, to: nat)
    requires setup.Valid() && to <= |setup.ids|
  {
    forall k :: from <= k < to ==> Failure(setup, setup.ids[k]) == None
  }

  /** The next listed run is still as it was. */
  lemma LooksNext(setup: Setup, at: nat)
    requires setup.Valid() && at < |setup.ids|
    ensures var run := setup.ids[at];
            && run in setup.runs && run !in Routed(setup, at) && Looked(setup, at)[run] == setup.runs[run]
            && Looked(setup, at + 1) == Looked(setup, at)[run := After(setup, run)]
            && Routed(setup, at + 1) == Routed(setup, at) + if Reachable(setup, run) then {run} else {}
  {
    assert setup.ids[..at + 1] == setup.ids[..at] + [setup.ids[at]];
  }

  /** This many runs were seen when this page is asked for. */
  predicate AtPage(setup: Setup, seen: nat, number: nat) {
    seen == number * PAGE_LIMIT && (seen == 0 || seen < |setup.ids|)
  }

  /** Within a page, startup is not stopped by the store's listing. */
  lemma PageStops(setup: Setup, seen: nat, number: nat)
    requires AtPage(setup, seen, number)
    ensures ListingFails(setup, seen) <==> number in setup.faults.listing
    ensures forall k :: seen < k < seen + PAGE_LIMIT ==> !ListingFails(setup, k)
    ensures |setup.ids| != 0 ==> !ListingFails(setup, |setup.ids|)
  {
    assert seen / PAGE_LIMIT == number && seen % PAGE_LIMIT == 0;
    forall k | seen < k < seen + PAGE_LIMIT ensures k % PAGE_LIMIT != 0 {
      assert k == number * PAGE_LIMIT + (k - seen);
    }
  }

  /** The runs of the page that were looked at without failure do not stop startup. */
  lemma NoStops(setup: Setup, seen: nat, number: nat, at: nat)
    requires setup.Valid() && AtPage(setup, seen, number) && number !in setup.faults.listing
    requires seen <= at <= |setup.ids| && at <= seen + PAGE_LIMIT
    requires forall k :: 0 <= k < seen ==> !StopsAt(setup, k)
    requires NoFailures(setup, seen, at)
    ensures forall k :: 0 <= k < at ==> !StopsAt(setup, k)
    ensures at < seen + PAGE_LIMIT || at == |setup.ids| ==> !ListingFails(setup, at)
  {
    PageStops(setup, seen, number);
  }

  lemma {:induction false} StopIs(setup: Setup, at: nat)
    requires at <= |setup.ids| && (at < |setup.ids| ==> StopsAt(setup, at))
    requires forall k :: 0 <= k < at ==> !StopsAt(setup, k)
    ensures Stop(setup, 0) == at
  {
  }

  lemma {:induction false} NextPage(ids: seq<nat>, after: Option<nat>, seen: nat, page: Page)
    requires Ascending(ids) && seen <= |ids| && Beyond(ids, after) == ids[seen..]
    requires page == PageOf(ids, after, PAGE_LIMIT)
    ensures |page.items| <= PAGE_LIMIT && seen + |page.items| <= |ids|
    ensures page.items == ids[seen..seen + |page.items|]
    ensures page.next.Some? ==>
              && |page.items| == PAGE_LIMIT && seen + PAGE_LIMIT < |ids|
              && Beyond(ids, page.next) == ids[seen + PAGE_LIMIT..]
    ensures page.next == None ==> seen + |page.items| == |ids|
  {
    PageFollows(ids, after, PAGE_LIMIT);
    if page.next.Some? {
      CursorContinues(ids, after, PAGE_LIMIT - 1);
    }
  }

  lemma RestoredWhole(requests: Requests, run: nat, ids: seq<nat>, loaded: Restored)
    requires requests.Valid() && ids == Select(requests.approvalOrder, requests.ApprovalsOf(run))
    requires ApprovalsRestored(requests, loaded, ids)
    ensures loaded.approvals == requests.OpenApprovals(run) && loaded.responses == requests.For(run).responses
  {
    forall id ensures id in ids <==> id in requests.ApprovalsOf(run) {
      SelectMembers(requests.approvalOrder, requests.ApprovalsOf(run), id);
    }
  }

  lemma {:induction false} NextSeen(ids: seq<nat>, seen: seq<nat>, after: Option<nat>, page: Page)
    requires seen + Beyond(ids, after) == ids
    requires Beyond(ids, after) == page.items + (if page.next.Some? then Beyond(ids, page.next) else [])
    ensures (seen + page.items) + (if page.next.Some? then Beyond(ids, page.next) else []) == ids
    ensures seen + page.items <= ids
  {
  }
}
