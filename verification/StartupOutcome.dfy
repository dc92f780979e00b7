/**
 What a startup makes of the runs that the store lists for reconciliation, as a function of their
 records, of the provider runs that the harness still has, and of which store calls fail.
 */
module StartupOutcome {
  import opened Common

  datatype Status = Starting | Running | Completed | Failed | Interrupted | Disconnected | OutcomeUnknown

  predicate Active(status: Status) { status.Starting? || status.Running? }

  /** What the store lists for reconciliation. */
  predicate Reconcilable(status: Status) { Active(status) || status.Disconnected? || status.OutcomeUnknown? }

  predicate CanTransition(from: Status, target: Status) {
    match from
    case Starting => target in {Running, Interrupted, Failed, OutcomeUnknown}
    case Running => target in {Completed, Failed, Interrupted, Disconnected, OutcomeUnknown}
    case Disconnected => target in {Running, Interrupted, OutcomeUnknown}
    case OutcomeUnknown => target in {Running, Completed, Failed, Interrupted, Disconnected}
    case _ => false
  }

  datatype Record = Record(status: Status, provider: Option<string>)

  const PAGE_LIMIT := 200

  datatype Error = ListFailed | UnboundTransitionFailed | TransitionFailed | LoadFailed | ReattachFailed

  /** The pages whose listing fails, and the runs whose requests cannot be loaded or whose status cannot be set. */
  datatype Faults = Faults(listing: set<nat>, loading: set<nat>, moving: set<nat>)

  const NO_FAULTS := Faults({}, {}, {})

  /** The listed runs, in id order, as they are when startup begins. */
  datatype Setup = Setup(runs: map<nat, Record>, ids: seq<nat>, reachable: set<string>, faults: Faults)
  {
    predicate Valid() {
      && (forall i, j :: 0 <= i < j < |ids| ==> ids[i] != ids[j])
      && (forall id :: id in ids ==> id in runs && Reconcilable(runs[id].status))
      && (forall id :: id in runs && Reconcilable(runs[id].status) ==> id in ids)
    }
  }

  /** The harness still has the run. */
  predicate Reachable(setup: Setup, run: nat)
    requires run in setup.runs
  {
    setup.runs[run].provider.Some? && setup.runs[run].provider.value in setup.reachable
  }

  /** The status of a run that is given up. */
  function Inactive(status: Status): Status {
    if status.Starting? then OutcomeUnknown else if status.Running? then Disconnected else status
  }

  function Failure(setup: Setup, run: nat): Option<Error>
    requires run in setup.runs
  {
    var record := setup.runs[run];
    if Reachable(setup, run) then
      if run in setup.faults.loading then Some(LoadFailed)
      else if !record.status.Running? && run in setup.faults.moving then Some(ReattachFailed)
      else None
    else if Active(record.status) && run in setup.faults.moving then
      Some(if record.provider == None then UnboundTransitionFailed else TransitionFailed)
    else None
  }

  /** The run's record once it was looked at. */
  function After(setup: Setup, run: nat): Record
    requires run in setup.runs
  {
    var record := setup.runs[run];
    if run in setup.faults.moving then record
    else if !Reachable(setup, run) then record.(status := Inactive(record.status))
    else if run !in setup.faults.loading then record.(status := Running)
    else if record.status.Running? then record.(status := Disconnected)
    else record
  }

  /** A page is asked for before this run, and the store does not give it. */
  predicate ListingFails(setup: Setup, at: nat) {
    at % PAGE_LIMIT == 0 && (at == 0 || at < |setup.ids|) && at / PAGE_LIMIT in setup.faults.listing
  }

  predicate StopsAt(setup: Setup, at: nat) {
    || ListingFails(setup, at)
    || (at < |setup.ids| && setup.ids[at] in setup.runs && Failure(setup, setup.ids[at]).Some?)
  }

  /** Where startup stops, from some run on. */
  function Stop(setup: Setup, from: nat): (at: nat)
    requires from <= |setup.ids|
    ensures from <= at <= |setup.ids|
    ensures forall i :: from <= i < at ==> !StopsAt(setup, i)
    ensures at < |setup.ids| ==> StopsAt(setup, at)
    decreases |setup.ids| - from
  {
    if StopsAt(setup, from) || from == |setup.ids| then from else Stop(setup, from + 1)
  }

  /** The store when the first `count` listed runs were looked at. */
  function Looked(setup: Setup, count: nat): map<nat, Record>
    requires count <= |setup.ids|
  {
    map run | run in setup.runs :: if run in setup.ids[..count] then After(setup, run) else setup.runs[run]
  }

  /** The runs that have a route when the first `count` were looked at without failure. */
  function Routed(setup: Setup, count: nat): set<nat>
    requires count <= |setup.ids|
  {
    set run | run in setup.ids[..count] && run in setup.runs && Reachable(setup, run)
  }

  datatype Outcome = Outcome(error: Option<Error>, runs: map<nat, Record>, routed: set<nat>)

  /** Startup up to the moment before it activates the first route. */
  function Startup(setup: Setup): Outcome
    requires setup.Valid()
  {
    var at := Stop(setup, 0);
    if ListingFails(setup, at) then Outcome(Some(ListFailed), Looked(setup, at), {})
    else if at == |setup.ids| then Outcome(None, Looked(setup, at), Routed(setup, at))
    else
      var error := Failure(setup, setup.ids[at]);
      Outcome(error, Looked(setup, at + 1), if error == Some(UnboundTransitionFailed) then Routed(setup, at) else {})
  }

  // ----- Success -----

  lemma SuccessExactly(setup: Setup)
    requires setup.Valid()
    ensures Startup(setup).error == None <==> forall i :: 0 <= i <= |setup.ids| ==> !StopsAt(setup, i)
  {
    var at := Stop(setup, 0);
    if at == |setup.ids| {
      assert StopsAt(setup, at) <==> ListingFails(setup, at);
    } else {
      assert StopsAt(setup, at);
    }
  }

  /**
   If startup succeeds, exactly the runs that the harness still has are routed, and none but they
   are starting or running in the store; these are running.
   */
  lemma SuccessSettles(setup: Setup)
    requires setup.Valid() && Startup(setup).error == None
    ensures var outcome := Startup(setup);
            && outcome.runs.Keys == setup.runs.Keys
            && (forall run :: run in outcome.routed <==> run in setup.ids && Reachable(setup, run))
            && (forall run :: run in outcome.runs && Active(outcome.runs[run].status) ==> run in outcome.routed)
            && (forall run :: run in outcome.routed ==> outcome.runs[run] == setup.runs[run].(status := Running))
  {
    var outcome := Startup(setup);
    assert setup.ids[..|setup.ids|] == setup.ids;
    forall run | run in setup.ids
      ensures Failure(setup, run) == None
    {
      var i :| 0 <= i < |setup.ids| && setup.ids[i] == run;
      assert !StopsAt(setup, i);
    }
  }

  /** What became of a listed run before which nothing failed, and of which nothing failed. */
  predicate Settled(setup: Setup, run: nat, after: Record)
    requires run in setup.runs
  {
    var before := setup.runs[run];
    && after.provider == before.provider
    && (Reachable(setup, run) ==> after.status.Running?)
    && (!Reachable(setup, run) && before.status.Starting? ==> after.status.OutcomeUnknown?)
    && (!Reachable(setup, run) && before.status.Running? ==> after.status.Disconnected?)
    && (!Reachable(setup, run) && !Active(before.status) ==> after == before)
  }

  /** The run at which startup stops: it is left as it was, unless it was running and its requests cannot be loaded. */
  predicate LeftAt(setup: Setup, run: nat, after: Record)
    requires run in setup.runs
  {
    var before := setup.runs[run];
    if Reachable(setup, run) && before.status.Running? && run !in setup.faults.moving then
      after.status.Disconnected? && after.provider == before.provider
    else after == before
  }

  /**
   What startup makes of every run, whether it fails or not: the listed runs in front of the place
   where it stops are settled, and whatever is behind it, or not listed, is left alone.
   */
  lemma {:induction false} EachRun(setup: Setup, run: nat)
    requires setup.Valid() && run in setup.runs
    ensures var outcome, at := Startup(setup), Stop(setup, 0);
            && run in outcome.runs
            && (run !in setup.ids ==> outcome.runs[run] == setup.runs[run])
            && forall i :: 0 <= i < |setup.ids| && setup.ids[i] == run ==>
                 if i < at then Settled(setup, run, outcome.runs[run])
                 else if i == at && !ListingFails(setup, at) then LeftAt(setup, run, outcome.runs[run])
                 else outcome.runs[run] == setup.runs[run]
  {
    var at := Stop(setup, 0);
    forall i | 0 <= i < |setup.ids| && setup.ids[i] == run
      ensures run in setup.ids[..at] <==> i < at
      ensures at < |setup.ids| ==> (run in setup.ids[..at + 1] <==> i <= at)
      ensures i < at ==> Failure(setup, run) == None
    {
      assert i < at ==> setup.ids[..at][i] == run && !StopsAt(setup, i);
      assert i <= at < |setup.ids| ==> setup.ids[..at + 1][i] == run;
    }
  }

  /** What the error says of the run, or the page, at which startup stopped. */
  lemma {:induction false} StopsFor(setup: Setup)
    requires setup.Valid()
    ensures var error, at := Startup(setup).error, Stop(setup, 0);
            && (error == Some(ListFailed) <==> ListingFails(setup, at))
            && (error.Some? && error != Some(ListFailed) ==>
                  && at < |setup.ids|
                  && var run, record := setup.ids[at], setup.runs[setup.ids[at]];
                     match error.value
                     case LoadFailed => Reachable(setup, run) && run in setup.faults.loading
                     case ReattachFailed =>
                       && Reachable(setup, run) && run !in setup.faults.loading
                       && !record.status.Running? && run in setup.faults.moving
                     case UnboundTransitionFailed =>
                       Active(record.status) && record.provider == None && run in setup.faults.moving
                     case TransitionFailed =>
                       && Active(record.status) && record.provider.Some? && !Reachable(setup, run)
                       && run in setup.faults.moving
                     case ListFailed => true)
  {
  }

  // ----- What a failing startup leaves behind -----

  /** Where startup first meets a store failure it ends; a run before that stays running, and routed or not. */
  lemma StopsThere(setup: Setup, i: nat, at: nat)
    requires setup.Valid() && i < at < |setup.ids| && StopsAt(setup, at)
    requires forall k :: 0 <= k < at ==> !StopsAt(setup, k)
    requires Reachable(setup, setup.ids[i]) && setup.ids[i] !in setup.faults.moving
    ensures Startup(setup).error.Some?
    ensures setup.ids[i] in Startup(setup).runs && Startup(setup).runs[setup.ids[i]].status.Running?
    ensures Startup(setup).error == Some(UnboundTransitionFailed) ==> setup.ids[i] in Startup(setup).routed
    ensures !ListingFails(setup, at) ==> Startup(setup).error == Failure(setup, setup.ids[at])
  {
    assert Stop(setup, 0) == at;
    assert setup.ids[i] in setup.ids[..at] && setup.ids[i] in setup.ids[..at + 1];
    assert !StopsAt(setup, i);
  }

  /** Failures of one run alone are not met before it. */
  lemma OneFails(setup: Setup, at: nat)
    requires setup.Valid() && at < |setup.ids| && setup.faults.listing == {}
    requires setup.faults.loading <= {setup.ids[at]} && setup.faults.moving <= {setup.ids[at]}
    ensures forall k :: 0 <= k < at ==> !StopsAt(setup, k)
  {
  }

  ghost predicate LeavesRoute(runs: map<nat, Record>, ids: seq<nat>, reachable: set<string>, faults: Faults)
    requires Setup(runs, ids, reachable, faults).Valid()
  {
    var outcome := Startup(Setup(runs, ids, reachable, faults));
    outcome.error.Some? && outcome.routed != {}
  }

  /** Some run without provider reference is active, and before it comes one that the harness still has. */
  predicate UnboundBehindReachable(setup: Setup)
    requires setup.Valid()
  {
    exists i, j :: 0 <= i < j < |setup.ids| && Reachable(setup, setup.ids[i]) && Unbound(setup, setup.ids[j])
  }

  /** An active run without provider reference. */
  predicate Unbound(setup: Setup, run: nat)
    requires run in setup.runs
  {
    Active(setup.runs[run].status) && setup.runs[run].provider == None
  }

  /** The exact condition under which a failing startup can leave a route behind. */
  lemma RouteLeftExactly(runs: map<nat, Record>, ids: seq<nat>, reachable: set<string>)
    requires Setup(runs, ids, reachable, NO_FAULTS).Valid()
    ensures (exists faults :: Setup(runs, ids, reachable, faults).Valid() && LeavesRoute(runs, ids, reachable, faults))
            <==> UnboundBehindReachable(Setup(runs, ids, reachable, NO_FAULTS))
  {
    var plain := Setup(runs, ids, reachable, NO_FAULTS);
    forall faults | Setup(runs, ids, reachable, faults).Valid() && LeavesRoute(runs, ids, reachable, faults)
      ensures UnboundBehindReachable(plain)
    {
      RouteLeftBy(Setup(runs, ids, reachable, faults));
    }
    if UnboundBehindReachable(plain) {
      var i, j :| 0 <= i < j < |ids| && Reachable(plain, ids[i]) && Unbound(plain, ids[j]);
      var faults := NO_FAULTS.(moving := {ids[j]});
      FailingUnbound(plain, i, j, faults);
      assert LeavesRoute(runs, ids, reachable, faults);
    }
  }

  /** The store failure that leaves a route: an active run without provider reference cannot be given up. */
  lemma FailingUnbound(plain: Setup, i: nat, j: nat, faults: Faults)
    requires plain.Valid() && i < j < |plain.ids|
    requires Reachable(plain, plain.ids[i]) && Unbound(plain, plain.ids[j])
    requires faults == NO_FAULTS.(moving := {plain.ids[j]})
    ensures var setup := plain.(faults := faults);
            setup.Valid() && Startup(setup).error.Some? && Startup(setup).routed != {}
  {
    var setup := plain.(faults := faults);
    OneFails(setup, j);
    StopsThere(setup, i, j);
  }

  lemma RouteLeftBy(setup: Setup)
    requires setup.Valid() && Startup(setup).error.Some? && Startup(setup).routed != {}
    ensures UnboundBehindReachable(setup.(faults := NO_FAULTS))
  {
    var j := Stop(setup, 0);
    var run :| run in Startup(setup).routed;
    var i :| 0 <= i < j && setup.ids[i] == run;
    var plain := setup.(faults := NO_FAULTS);
    assert Reachable(plain, plain.ids[i]) && Unbound(plain, plain.ids[j]);
  }

  /** A run that startup made running. */
  predicate MovedToRunning(setup: Setup, run: nat)
    requires setup.Valid()
  {
    && run in setup.ids && !setup.runs[run].status.Running?
    && run in Startup(setup).runs && Startup(setup).runs[run].status.Running?
  }

  ghost predicate LeavesRunning(runs: map<nat, Record>, ids: seq<nat>, reachable: set<string>, faults: Faults)
    requires Setup(runs, ids, reachable, faults).Valid()
  {
    var setup := Setup(runs, ids, reachable, faults);
    Startup(setup).error.Some? && exists run :: MovedToRunning(setup, run)
  }

  /** The store can fail startup at this run. */
  predicate CanFail(setup: Setup, run: nat)
    requires run in setup.runs
  {
    Active(setup.runs[run].status) || Reachable(setup, run)
  }

  /** Behind a run that the harness still has, and that is not running yet, the store can fail once more. */
  predicate FailureBehindReattached(setup: Setup)
    requires setup.Valid()
  {
    exists i :: 0 <= i < |setup.ids| && Reattached(setup, i) && FailureBehind(setup, i)
  }

  predicate Reattached(setup: Setup, i: nat)
    requires setup.Valid() && i < |setup.ids|
  {
    Reachable(setup, setup.ids[i]) && !setup.runs[setup.ids[i]].status.Running?
  }

  predicate FailureBehind(setup: Setup, i: nat)
    requires setup.Valid() && i < |setup.ids|
  {
    || (exists j :: i < j < |setup.ids| && CanFail(setup, setup.ids[j]))
    || (exists next :: i < next < |setup.ids| && PageBegins(next))
  }

  predicate PageBegins(at: nat) { at % PAGE_LIMIT == 0 }

  /** The exact condition under which a failing startup can leave a run that it made running. */
  lemma RunningLeftExactly(runs: map<nat, Record>, ids: seq<nat>, reachable: set<string>)
    requires Setup(runs, ids, reachable, NO_FAULTS).Valid()
    ensures (exists faults ::
               Setup(runs, ids, reachable, faults).Valid() && LeavesRunning(runs, ids, reachable, faults))
            <==> FailureBehindReattached(Setup(runs, ids, reachable, NO_FAULTS))
  {
    var plain := Setup(runs, ids, reachable, NO_FAULTS);
    forall faults | Setup(runs, ids, reachable, faults).Valid() && LeavesRunning(runs, ids, reachable, faults)
      ensures FailureBehindReattached(plain)
    {
      var setup := Setup(runs, ids, reachable, faults);
      var run :| MovedToRunning(setup, run);
      RunningLeftBy(setup, run);
    }
    if FailureBehindReattached(plain) {
      var i :| 0 <= i < |ids| && Reattached(plain, i) && FailureBehind(plain, i);
      var faults := FailingBehind(plain, i);
      assert LeavesRunning(runs, ids, reachable, faults);
    }
  }

  lemma RunningLeftBy(setup: Setup, run: nat)
    requires setup.Valid() && Startup(setup).error.Some? && MovedToRunning(setup, run)
    ensures FailureBehindReattached(setup.(faults := NO_FAULTS))
  {
    var at := Stop(setup, 0);
    var plain := setup.(faults := NO_FAULTS);
    var i :| 0 <= i < |setup.ids| && setup.ids[i] == run;
    assert i < at;
    assert Reattached(plain, i);
    if ListingFails(setup, at) {
      assert PageBegins(at);
    } else {
      assert CanFail(plain, plain.ids[at]);
    }
    assert FailureBehind(plain, i);
  }

  /** Store failures that end startup behind the run, and meet nothing else. */
  lemma FailingBehind(plain: Setup, i: nat) returns (faults: Faults)
    requires plain.Valid() && plain.faults == NO_FAULTS && i < |plain.ids|
    requires Reattached(plain, i) && FailureBehind(plain, i)
    ensures var setup := plain.(faults := faults);
            setup.Valid() && Startup(setup).error.Some? && MovedToRunning(setup, plain.ids[i])
  {
    if next :| i < next < |plain.ids| && PageBegins(next) {
      faults := NO_FAULTS.(listing := {next / PAGE_LIMIT});
      StopsThere(plain.(faults := faults), i, next);
    } else {
      var at :| i < at < |plain.ids| && CanFail(plain, plain.ids[at]);
      var failing := {plain.ids[at]};
      faults := if Reachable(plain, plain.ids[at]) then NO_FAULTS.(loading := failing)
                else NO_FAULTS.(moving := failing);
      OneFails(plain.(faults := faults), at);
      StopsThere(plain.(faults := faults), i, at);
    }
  }

  /** Both at once, at one input: run 1 is left running and routed when run 2 cannot be given up. */
  lemma LeftBehind()
    ensures var reachable: set<string> := {"one"};
            var runs := map[1 := Record(Starting, Some("one")), 2 := Record(Running, None)];
            var setup := Setup(runs, [1, 2], reachable, NO_FAULTS.(moving := {2}));
            && setup.Valid() && Startup(setup).error == Some(UnboundTransitionFailed)
            && Startup(setup).routed == {1} && Startup(setup).runs[1].status == Running
  {
    var runs := map[1 := Record(Starting, Some("one")), 2 := Record(Running, None)];
    var setup := Setup(runs, [1, 2], {"one"}, NO_FAULTS.(moving := {2}));
    assert !StopsAt(setup, 0) by {
      assert setup.ids[0] == 1;
    }
    assert StopsAt(setup, 1) by {
      assert setup.ids[1] == 2;
    }
    StopsThere(setup, 0, 1);
    assert setup.ids[..1] == [1] && setup.ids[..2] == [1, 2];
    assert Routed(setup, 1) == {1};
  }
}
