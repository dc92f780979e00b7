/** What holds of the supervisor's routing in every state that any interleaving reaches. */
module RoutingProofs {
  import opened Common
  import opened RoutingProtocol
  import Runs

  // ----- The tables are mutually inverse -----

  predicate Inverse(state: State) {
    && state.routes.Keys == state.runsByProvider.Keys
    && (forall run :: run in state.runs ==>
          state.runs[run] in state.runsByProvider && state.runsByProvider[state.runs[run]] == run)
    && (forall provider :: provider in state.runsByProvider ==>
          state.runsByProvider[provider] in state.runs && state.runs[state.runsByProvider[provider]] == provider)
  }

  /** Registering a route keeps the tables inverse exactly when the reference is not shared. */
  lemma RegisterInverse(state: State, run: Run, provider: Provider, channel: nat)
    requires Inverse(state)
    ensures Inverse(Register(state, run, provider, channel)) <==> Unshared(state, run, provider)
  {
    var after := Register(state, run, provider, channel);
    if run in state.runs && state.runs[run] != provider {
      var old' := state.runs[run];
      assert old' in after.runsByProvider && after.runsByProvider[old'] == run && after.runs[run] == provider;
    }
    if provider in state.runsByProvider && state.runsByProvider[provider] != run {
      var other := state.runsByProvider[provider];
      assert other in after.runs && after.runs[other] == provider && after.runsByProvider[provider] == run;
    }
  }

  /** Removing one keeps them inverse under the same condition. */
  lemma RemoveInverse(state: State, run: Run, provider: Provider)
    requires Inverse(state)
    ensures Inverse(RemoveRoute(state, run, provider)) <==> Unshared(state, run, provider)
  {
    var after := RemoveRoute(state, run, provider);
    if run in state.runs && state.runs[run] != provider {
      assert state.runs[run] in after.runsByProvider;
    }
    if provider in state.runsByProvider && state.runsByProvider[provider] != run {
      assert state.runsByProvider[provider] in after.runs;
    }
  }

  lemma CloseInverse(state: State, run: Run)
    requires Inverse(state)
    ensures Inverse(CloseRun(state, run))
  {
  }

  /** Closing leaves nothing of the run or of its provider run, and leaves everything else alone. */
  lemma {:induction false} CloseExactly(state: State, run: Run, other: Run, provider: Provider)
    requires Inverse(state) && Ordered(state) && other != run && !(run in state.runs && state.runs[run] == provider)
    ensures var after := CloseRun(state, run);
            && run !in after.runs && run !in after.workItems && run !in after.uncertainRuns
            && run !in after.uncertainStarts && run !in after.uncertainOrder
            && (run in state.runs ==>
                  && state.runs[run] !in after.routes && state.runs[run] !in after.runsByProvider
                  && Of(after.pendingEvents, state.runs[run]) == [])
    ensures var after := CloseRun(state, run);
            && (other in after.runs <==> other in state.runs)
            && (other in state.runs ==> after.runs[other] == state.runs[other])
            && (other in after.workItems <==> other in state.workItems)
            && (other in state.workItems ==> after.workItems[other] == state.workItems[other])
            && (other in after.uncertainRuns <==> other in state.uncertainRuns)
            && (other in after.uncertainStarts <==> other in state.uncertainStarts)
            && (other in state.uncertainStarts ==> after.uncertainStarts[other] == state.uncertainStarts[other])
    ensures var after := CloseRun(state, run);
            && (provider in after.routes <==> provider in state.routes)
            && (provider in state.routes ==> after.routes[provider] == state.routes[provider])
            && (provider in after.runsByProvider <==> provider in state.runsByProvider)
            && (provider in state.runsByProvider ==> after.runsByProvider[provider] == state.runsByProvider[provider])
            && Of(after.pendingEvents, provider) == Of(state.pendingEvents, provider)
            && after.startInProgress == state.startInProgress && after.pendingOverflow == state.pendingOverflow
  {
    if run in state.runs {
      DroppingOthers(state.pendingEvents, state.runs[run], provider);
      NoneLeft(Dropping(state.pendingEvents, state.runs[run]), state.runs[run]);
    }
  }

  lemma {:induction false} NoneLeft(events: Buffered, provider: Provider)
    requires !Holds(events, provider)
    ensures Of(events, provider) == []
    decreases |events|
  {
    if events != [] {
      var front := events[..|events| - 1];
      forall i | 0 <= i < |front| ensures front[i].0 != provider {
        assert front[i] == events[i];
      }
      NoneLeft(front, provider);
    }
  }

  /** Taking a prepared run back leaves the tables as they were before it was prepared. */
  lemma RemoveUndoesPrepare(world: World, run: Run, item: Item, provider: Provider)
    requires run !in world.state.runs && run !in world.state.workItems && run !in world.state.uncertainRuns
    requires provider !in world.state.routes && provider !in world.state.runsByProvider
    ensures Enabled(world, Prepare(run, item, provider))
    ensures Enabled(Apply(world, Prepare(run, item, provider)), Remove(run, provider))
    ensures Apply(Apply(world, Prepare(run, item, provider)), Remove(run, provider)).state == world.state
  {
    var state := world.state;
    WithoutAdded(state.runs, run, provider);
    WithoutAdded(state.workItems, run, item);
    WithoutAdded(state.routes, provider, |world.channels|);
    WithoutAdded(state.runsByProvider, provider, run);
  }

  // ----- Where an event without a route is kept -----

  predicate Untouched(state: State, after: State, but: Option<Run>) {
    forall run :: run in state.uncertainStarts && but != Some(run) ==>
      run in after.uncertainStarts && after.uncertainStarts[run] == state.uncertainStarts[run]
  }

  /** The run's kept events end in this one; or there was no room for it, and this is noted. */
  predicate Kept(before: PendingStart, after: PendingStart, provider: Provider, event: Event) {
    if |before.events| < CHANNEL_CAPACITY then
      && |after.events| == |before.events| + 1 && after.events[..|before.events|] == before.events
      && after.events[|before.events|] == (provider, event) && after.overflow == before.overflow
    else after.events == before.events && after.overflow
  }

  lemma {:induction false} FirstEmptyIsOldest(order: seq<Run>, starts: map<Run, PendingStart>)
    ensures match FirstEmpty(order, starts)
            case Some(run) =>
              exists i :: 0 <= i < |order| && order[i] == run && run in starts && starts[run].events == []
                && forall j :: 0 <= j < i ==> order[j] !in starts || starts[order[j]].events != []
            case None => forall j :: 0 <= j < |order| ==> order[j] !in starts || starts[order[j]].events != []
  {
    if order != [] && !(order[0] in starts && starts[order[0]].events == []) {
      FirstEmptyIsOldest(order[1..], starts);
      if FirstEmpty(order, starts).Some? {
        var run := FirstEmpty(order, starts).value;
        var i :| 0 <= i < |order[1..]| && order[1..][i] == run
                 && forall j :: 0 <= j < i ==> order[1..][j] !in starts || starts[order[1..][j]].events != [];
        forall j | 0 <= j < i + 1 ensures order[j] !in starts || starts[order[j]].events != [] {
          assert j > 0 ==> order[1..][j - 1] == order[j];
        }
        assert order[i + 1] == run;
      } else {
        forall j | 0 <= j < |order| ensures order[j] !in starts || starts[order[j]].events != [] {
          assert j > 0 ==> order[1..][j - 1] == order[j];
        }
      }
    }
  }

  /** During a handshake every event without a route is kept for it, up to 64 of them, and nothing else changes. */
  lemma HandshakeArrival(state: State, provider: Provider, event: Event, chosen: Option<Run>)
    requires state.startInProgress.Some?
    ensures var after := BufferHandshakeEvent(state, provider, event, chosen);
            && Kept(PendingStart(state.pendingEvents, state.pendingOverflow),
                    PendingStart(after.pendingEvents, after.pendingOverflow), provider, event)
            && after.uncertainStarts == state.uncertainStarts
  {
  }

  /**
   Outside a handshake it goes to one uncertain start: one that has kept events of the same provider
   run, or else the oldest that has kept none; and nowhere if there is neither.
   */
  lemma UncertainArrival(state: State, provider: Provider, event: Event, chosen: Option<Run>)
    requires state.startInProgress == None && ChoiceFits(state, provider, chosen)
    ensures var after := BufferHandshakeEvent(state, provider, event, chosen);
            var starts, order := state.uncertainStarts, state.uncertainOrder;
            && after.pendingEvents == state.pendingEvents && after.pendingOverflow == state.pendingOverflow
            && if exists run :: run in starts && Takes(starts[run], provider) then
                 exists run :: run in starts && Takes(starts[run], provider) && run in after.uncertainStarts
                   && Kept(starts[run], after.uncertainStarts[run], provider, event)
                   && Untouched(state, after, Some(run))
               else if exists i :: 0 <= i < |order| && order[i] in starts && starts[order[i]].events == [] then
                 exists i :: 0 <= i < |order| && order[i] in starts && starts[order[i]].events == []
                   && (forall j :: 0 <= j < i ==> order[j] !in starts || starts[order[j]].events != [])
                   && order[i] in after.uncertainStarts
                   && Kept(starts[order[i]], after.uncertainStarts[order[i]], provider, event)
                   && Untouched(state, after, Some(order[i]))
               else after.uncertainStarts == starts
  {
    FirstEmptyIsOldest(state.uncertainOrder, state.uncertainStarts);
    if chosen.Some? {
      assert Takes(state.uncertainStarts[chosen.value], provider);
    }
  }

  // ----- Handshake buffers are bounded and coherent -----

  predicate Bounded(state: State) {
    && |state.pendingEvents| <= CHANNEL_CAPACITY
    && (forall run :: run in state.uncertainStarts ==> |state.uncertainStarts[run].events| <= CHANNEL_CAPACITY)
    && |state.uncertainStarts| <= MAX_UNCERTAIN
    && Ordered(state)
  }

  /** The queue lists exactly the uncertain starts, once each. */
  predicate Ordered(state: State) {
    && Distinct(state.uncertainOrder)
    && (forall run :: run in state.uncertainOrder ==> run in state.uncertainStarts)
    && (forall run :: run in state.uncertainStarts ==> run in state.uncertainOrder)
  }

  function AsSet(list: seq<Run>): (elements: set<Run>)
    ensures forall run :: run in elements <==> run in list
  {
    set run | run in list
  }

  lemma {:induction false} DistinctCount(list: seq<Run>)
    requires Distinct(list)
    ensures |AsSet(list)| == |list|
  {
    if list != [] {
      var rest, last := list[..|list| - 1], list[|list| - 1];
      DistinctCount(rest);
      assert list == rest + [last];
      assert last !in rest;
      assert AsSet(list) == AsSet(rest) + {last};
    }
  }

  /** The queue is as long as the table is large, so a full table always has an oldest entry. */
  lemma OrderedCount(state: State)
    requires Ordered(state)
    ensures |state.uncertainOrder| == |state.uncertainStarts|
  {
    DistinctCount(state.uncertainOrder);
    assert AsSet(state.uncertainOrder) == state.uncertainStarts.Keys;
  }

  lemma ForgetBounded(state: State, run: Run)
    requires Bounded(state)
    ensures Bounded(ForgetUncertain(state, run))
  {
    ExcludingDistinct(state.uncertainOrder, run);
    CardWithoutAtMost(state.uncertainStarts, run);
  }

  lemma CloseBounded(state: State, run: Run)
    requires Bounded(state)
    ensures Bounded(CloseRun(state, run))
  {
    ForgetBounded(state, run);
  }

  lemma UpdateBounded(state: State, run: Run, start: PendingStart)
    requires Bounded(state) && run in state.uncertainStarts && |start.events| <= CHANNEL_CAPACITY
    ensures Bounded(state.(uncertainStarts := state.uncertainStarts[run := start]))
  {
  }

  lemma BufferBounded(state: State, provider: Provider, event: Event, chosen: Option<Run>)
    requires Bounded(state) && ChoiceFits(state, provider, chosen)
    ensures Bounded(BufferHandshakeEvent(state, provider, event, chosen))
  {
    if state.startInProgress == None {
      var first := FirstEmpty(state.uncertainOrder, state.uncertainStarts);
      if chosen.Some? {
        UpdateBounded(state, chosen.value, AddTo(state.uncertainStarts[chosen.value], provider, event));
      } else if first.Some? {
        UpdateBounded(state, first.value, state.uncertainStarts[first.value].(events := [(provider, event)]));
      }
    }
  }

  /** Only the oldest uncertain start is evicted, and only to make room. */
  lemma EvictedOldest(state: State)
    requires Bounded(state)
    ensures Bounded(Evicted(state)) && |Evicted(state).uncertainStarts| < MAX_UNCERTAIN
    ensures |state.uncertainStarts| < MAX_UNCERTAIN ==> Evicted(state) == state
    ensures |state.uncertainStarts| == MAX_UNCERTAIN ==>
              && state.uncertainOrder != []
              && Evicted(state).uncertainOrder == state.uncertainOrder[1..]
              && Evicted(state).uncertainStarts == Without(state.uncertainStarts, state.uncertainOrder[0])
  {
    OrderedCount(state);
    if |state.uncertainStarts| >= MAX_UNCERTAIN {
      var order := state.uncertainOrder;
      CardWithout(state.uncertainStarts, order[0]);
      TailDistinct(order);
    }
  }

  lemma TailDistinct(order: seq<Run>)
    requires Distinct(order) && order != []
    ensures Distinct(order[1..])
    ensures forall run :: run in order[1..] <==> run in order && run != order[0]
  {
  }

  lemma RetainBounded(state: State, run: Run)
    requires Bounded(state) && run !in state.uncertainStarts
    ensures Bounded(RetainUnknown(state, run))
  {
    EvictedOldest(state);
    var kept, after := Evicted(state), RetainUnknown(state, run);
    CardUpdate(kept.uncertainStarts, run, PendingStart(state.pendingEvents, state.pendingOverflow));
    assert Distinct(after.uncertainOrder);
  }

  // ----- Routing has no gaps -----

  /** What has reached the pump for this channel's provider since the channel was registered. */
  function Since(world: World, channel: Channel): seq<Event> {
    var stream := world.Stream(channel.provider);
    if channel.from <= |stream| then stream[channel.from..] else []
  }

  /** What the pump pushed on a channel is one contiguous block of the provider run's stream. */
  predicate Contiguous(world: World, channel: Channel) {
    channel.from <= |world.Stream(channel.provider)| && channel.pumped <= Since(world, channel)
  }

  /** Only a channel whose run had no work item can have a refused push ignored. */
  predicate ChannelOk(world: World, channel: Channel) {
    && channel.from <= |world.Stream(channel.provider)|
    && channel.held <= CHANNEL_CAPACITY
    && (channel.ignored ==> channel.failed && !channel.known)
    && (!channel.ignored ==> Contiguous(world, channel))
  }

  predicate RouteOk(world: World, provider: Provider)
    requires provider in world.state.routes && provider in world.state.runsByProvider
  {
    && world.state.routes[provider] < |world.channels|
    && var channel := world.channels[world.state.routes[provider]];
       && channel.provider == provider
       && channel.run == world.state.runsByProvider[provider]
       && (channel.known <==> channel.run in world.state.workItems)
       && (!channel.failed ==> channel.pumped == Since(world, channel))
       && (channel.failed && !channel.ignored ==> !channel.open || world.closing == Some(channel.run))
  }

  predicate ChannelsOk(world: World) {
    forall i :: 0 <= i < |world.channels| ==> ChannelOk(world, world.channels[i])
  }

  predicate RoutesOk(world: World)
    requires Inverse(world.state)
  {
    forall provider {:trigger RouteOk(world, provider)} :: provider in world.state.routes ==> RouteOk(world, provider)
  }

  // ----- A handshake loses nothing -----

  /** Every event of this provider run since the handshake opened was buffered, up to the bound. */
  predicate Intact(world: World, provider: Provider) {
    && world.Mark(provider) <= |world.Stream(provider)|
    && (!world.state.pendingOverflow ==>
          Of(world.state.pendingEvents, provider) == world.Stream(provider)[world.Mark(provider)..])
  }

  /** During a handshake that is so for all provider runs that had no route since it opened. */
  ghost predicate IntactOk(world: World) {
    world.state.startInProgress.Some? ==>
      && world.state.routes.Keys <= world.tainted
      && forall provider {:trigger Intact(world, provider)} :: provider !in world.tainted ==> Intact(world, provider)
  }

  predicate StartOk(world: World) {
    && (world.starting.Some? ==> world.starting.value !in world.state.uncertainStarts)
    && (world.state.startInProgress.Some? ==> world.state.startInProgress == world.starting)
    && (world.state.startInProgress == None ==> world.state.pendingEvents == [] && !world.state.pendingOverflow)
  }

  ghost predicate Tables(world: World) {
    Inverse(world.state) && Bounded(world.state) && StartOk(world) && IntactOk(world)
  }

  ghost predicate Invariant(world: World) { Tables(world) && ChannelsOk(world) && RoutesOk(world) }

  // ----- Each action keeps the tables -----

  lemma TablesStart(world: World, action: Action)
    requires Tables(world) && Enabled(world, action)
    requires action.BeginStart? || action.RefuseStart? || action.StartUnbound?
    ensures Tables(Apply(world, action))
  {
  }

  lemma TablesOpen(world: World)
    requires Tables(world) && Enabled(world, OpenHandshake)
    ensures Tables(Apply(world, OpenHandshake))
  {
    var after := Apply(world, OpenHandshake);
    forall provider ensures Intact(after, provider) {
      var stream := after.Stream(provider);
      assert stream[|stream|..] == [];
    }
  }

  lemma TablesUnknown(world: World)
    requires Tables(world) && Enabled(world, StartUnknown)
    ensures Tables(Apply(world, StartUnknown))
  {
    RetainBounded(world.state, world.starting.value);
    RetainInverse(world.state, world.starting.value);
  }

  lemma RetainInverse(state: State, run: Run)
    requires Inverse(state)
    ensures Inverse(RetainUnknown(state, run)) && RetainUnknown(state, run).runs == state.runs
  {
  }

  lemma TablesRegister(world: World, action: Action)
    requires Tables(world) && Enabled(world, action)
    requires action.Bind? || action.Prepare?
    ensures Tables(Apply(world, action))
  {
    var run := if action.Bind? then world.starting.value else action.run;
    var after := Apply(world, action);
    RegisterInverse(world.state, run, action.provider, |world.channels|);
    if action.Prepare? {
      IntactSame(world, after);
    }
  }

  /** A handshake stays intact when nothing arrives and no buffered event goes that matters. */
  lemma IntactSame(world: World, after: World)
    requires IntactOk(world) && after.streams == world.streams && after.opening == world.opening
    requires world.tainted <= after.tainted && after.state.routes.Keys <= world.state.routes.Keys + after.tainted
    requires after.state.startInProgress.Some? ==> after.state.startInProgress == world.state.startInProgress
    requires after.state.pendingOverflow == world.state.pendingOverflow
    requires forall provider :: provider !in after.tainted ==>
               Of(after.state.pendingEvents, provider) == Of(world.state.pendingEvents, provider)
    ensures IntactOk(after)
  {
    if after.state.startInProgress.Some? {
      forall provider | provider !in after.tainted ensures Intact(after, provider) {
        assert Intact(world, provider);
      }
    }
  }

  lemma TablesRemove(world: World, run: Run, provider: Provider)
    requires Tables(world) && Unshared(world.state, run, provider)
    ensures Tables(Apply(world, Remove(run, provider)))
  {
    RemoveInverse(world.state, run, provider);
    IntactSame(world, Apply(world, Remove(run, provider)));
  }

  lemma TablesForget(world: World, action: Action)
    requires Tables(world) && Enabled(world, action)
    requires action.TakeUncertain? || action.PumpFails? || action.Activate? || action.Doubt?
    ensures Tables(Apply(world, action))
  {
    if action.TakeUncertain? {
      ForgetBounded(world.state, action.run);
    }
    if !action.PumpFails? {
      IntactSame(world, Apply(world, action));
    }
  }

  lemma TablesClose(world: World, run: Run, closing: Option<Run>)
    requires Tables(world)
    ensures Tables(world.(state := CloseRun(world.state, run), closing := closing))
  {
    CloseInverse(world.state, run);
    CloseBounded(world.state, run);
    IntactClose(world, run, closing);
    ForgetUncertainKeys(world.state, run);
  }

  lemma ForgetUncertainKeys(state: State, run: Run)
    ensures CloseRun(state, run).uncertainStarts.Keys <= state.uncertainStarts.Keys
    ensures CloseRun(state, run).startInProgress == state.startInProgress
    ensures CloseRun(state, run).pendingOverflow == state.pendingOverflow
    ensures state.pendingEvents == [] ==> CloseRun(state, run).pendingEvents == []
  {
  }

  lemma IntactClose(world: World, run: Run, closing: Option<Run>)
    requires Inverse(world.state) && IntactOk(world)
    ensures IntactOk(world.(state := CloseRun(world.state, run), closing := closing))
  {
    if world.state.startInProgress.Some? {
      var after := world.(state := CloseRun(world.state, run), closing := closing);
      forall provider | provider !in world.tainted
        ensures Of(after.state.pendingEvents, provider) == Of(world.state.pendingEvents, provider)
      {
        if run in world.state.runs {
          DroppingOthers(world.state.pendingEvents, world.state.runs[run], provider);
        }
      }
      IntactSame(world, after);
    }
  }

  lemma TablesArrive(world: World, provider: Provider, event: Event, chosen: Option<Run>)
    requires Tables(world) && Enabled(world, Arrive(provider, event, chosen))
    ensures Tables(Arrived(world, provider, event, chosen))
  {
    if provider in world.state.routes {
      TablesPushed(world, provider, event, chosen);
    } else {
      TablesBuffered(world, provider, event, chosen);
    }
  }

  lemma TablesPushed(world: World, provider: Provider, event: Event, chosen: Option<Run>)
    requires Tables(world) && Enabled(world, Arrive(provider, event, chosen)) && provider in world.state.routes
    ensures Tables(Arrived(world, provider, event, chosen))
  {
    assert Arrived(world, provider, event, chosen).state == world.state;
    IntactPushed(world, provider, event, chosen);
  }

  lemma IntactPushed(world: World, provider: Provider, event: Event, chosen: Option<Run>)
    requires IntactOk(world) && Enabled(world, Arrive(provider, event, chosen)) && provider in world.state.routes
    ensures IntactOk(Arrived(world, provider, event, chosen))
  {
    var after := Arrived(world, provider, event, chosen);
    if world.state.startInProgress.Some? {
      forall other | other !in after.tainted ensures Intact(after, other) {
        assert Intact(world, other);
      }
    }
  }

  lemma BufferFrame(state: State, provider: Provider, event: Event, chosen: Option<Run>)
    requires ChoiceFits(state, provider, chosen)
    ensures var after := BufferHandshakeEvent(state, provider, event, chosen);
            && after.routes == state.routes && after.runs == state.runs && after.runsByProvider == state.runsByProvider
            && after.startInProgress == state.startInProgress && after.workItems == state.workItems
  {
  }

  lemma BufferPending(state: State, provider: Provider, event: Event, chosen: Option<Run>)
    requires ChoiceFits(state, provider, chosen)
    ensures var after := BufferHandshakeEvent(state, provider, event, chosen);
            && (state.startInProgress == None ==>
                  after.pendingEvents == state.pendingEvents && after.pendingOverflow == state.pendingOverflow)
            && (state.startInProgress.Some? && !after.pendingOverflow ==>
                  !state.pendingOverflow && after.pendingEvents == state.pendingEvents + [(provider, event)])
  {
  }

  lemma BufferKeys(state: State, provider: Provider, event: Event, chosen: Option<Run>)
    requires ChoiceFits(state, provider, chosen)
    ensures BufferHandshakeEvent(state, provider, event, chosen).uncertainStarts.Keys == state.uncertainStarts.Keys
  {
  }

  lemma IntactBuffered(world: World, provider: Provider, event: Event, chosen: Option<Run>)
    requires IntactOk(world) && Enabled(world, Arrive(provider, event, chosen)) && provider !in world.state.routes
    ensures IntactOk(Arrived(world, provider, event, chosen))
  {
    var after := Arrived(world, provider, event, chosen);
    BufferFrame(world.state, provider, event, chosen);
    BufferPending(world.state, provider, event, chosen);
    if world.state.startInProgress.Some? {
      forall other | other !in after.tainted ensures Intact(after, other) {
        assert Intact(world, other);
        OfAppend(world.state.pendingEvents, provider, event, other);
        StreamAppend(world, provider, event);
      }
    }
  }

  lemma TablesBuffered(world: World, provider: Provider, event: Event, chosen: Option<Run>)
    requires Tables(world) && Enabled(world, Arrive(provider, event, chosen)) && provider !in world.state.routes
    ensures Tables(Arrived(world, provider, event, chosen))
  {
    BufferBounded(world.state, provider, event, chosen);
    BufferFrame(world.state, provider, event, chosen);
    BufferPending(world.state, provider, event, chosen);
    BufferKeys(world.state, provider, event, chosen);
    IntactBuffered(world, provider, event, chosen);
  }

  lemma StreamAppend(world: World, provider: Provider, event: Event)
    ensures var after := world.(streams := world.streams[provider := world.Stream(provider) + [event]]);
            && (forall other :: other != provider ==> after.Stream(other) == world.Stream(other))
            && after.Stream(provider) == world.Stream(provider) + [event]
            && (forall from: nat :: from <= |world.Stream(provider)| ==>
                  after.Stream(provider)[from..] == world.Stream(provider)[from..] + [event])
  {
  }

  // ----- Each action keeps the routing -----

  /** Routes may go, if nothing changes for those that stay. */
  predicate Shrunk(world: World, after: World) {
    && after.channels == world.channels && after.streams == world.streams
    && forall provider :: provider in after.state.routes ==>
         && provider in world.state.routes && after.state.routes[provider] == world.state.routes[provider]
         && provider in world.state.runsByProvider && provider in after.state.runsByProvider
         && after.state.runsByProvider[provider] == world.state.runsByProvider[provider]
         && var run := world.state.runsByProvider[provider];
            && (run in after.state.workItems <==> run in world.state.workItems)
            && (world.closing == Some(run) ==> after.closing == Some(run))
  }

  lemma ShrunkOk(world: World, after: World)
    requires Invariant(world) && Tables(after) && Shrunk(world, after)
    ensures Invariant(after)
  {
    forall i | 0 <= i < |after.channels| ensures ChannelOk(after, after.channels[i]) {
      assert ChannelOk(world, world.channels[i]);
    }
    forall provider | provider in after.state.routes ensures RouteOk(after, provider) {
      assert RouteOk(world, provider);
    }
  }

  lemma CloseShrinks(world: World, run: Run, closing: Option<Run>)
    requires Invariant(world) && (closing == world.closing || (closing == None && world.closing == Some(run)))
    ensures Shrunk(world, world.(state := CloseRun(world.state, run), closing := closing))
  {
  }

  lemma RemoveShrinks(world: World, run: Run, provider: Provider)
    requires Invariant(world) && Unshared(world.state, run, provider)
    ensures Shrunk(world, Apply(world, Remove(run, provider)))
  {
    var after := Apply(world, Remove(run, provider)).state;
    forall other | other in after.routes
      ensures other in world.state.routes && world.state.runsByProvider[other] != run
    {
      assert world.state.runs[world.state.runsByProvider[other]] == other;
    }
  }

  /** A new channel starts empty at the present end of its stream. */
  lemma NewChannelOk(world: World, after: World, run: Run, provider: Provider, known: bool)
    requires after.streams == world.streams
    ensures var channel := NewChannel(world, run, provider, known);
            ChannelOk(after, channel) && Since(after, channel) == []
  {
  }

  lemma RegisteredRoute(world: World, after: World, run: Run, known: bool, bound: Provider, provider: Provider)
    requires Inverse(world.state) && Inverse(after.state) && Unshared(world.state, run, bound)
    requires RoutesOk(world) && after.closing == world.closing && after.streams == world.streams
    requires after.channels == world.channels + [NewChannel(world, run, bound, known)]
    requires after.state.routes == world.state.routes[bound := |world.channels|]
    requires after.state.runsByProvider == world.state.runsByProvider[bound := run]
    requires known <==> run in after.state.workItems
    requires forall other :: other != run ==> (other in after.state.workItems <==> other in world.state.workItems)
    requires provider in after.state.routes
    ensures RouteOk(after, provider)
  {
    NewChannelOk(world, after, run, bound, known);
    if provider != bound {
      assert RouteOk(world, provider);
      assert world.state.runs[world.state.runsByProvider[provider]] == provider;
    }
  }

  lemma RegisterOk(world: World, action: Action)
    requires Invariant(world) && Enabled(world, action) && (action.Bind? || action.Prepare?)
    ensures Invariant(Apply(world, action))
  {
    TablesRegister(world, action);
    var run := if action.Bind? then world.starting.value else action.run;
    var known := action.Prepare? || run in world.state.workItems;
    var after := Apply(world, action);
    NewChannelOk(world, after, run, action.provider, known);
    forall i | 0 <= i < |after.channels| ensures ChannelOk(after, after.channels[i]) {
      if i < |world.channels| {
        assert ChannelOk(world, world.channels[i]);
      }
    }
    forall provider | provider in after.state.routes ensures RouteOk(after, provider) {
      RegisteredRoute(world, after, run, known, action.provider, provider);
    }
  }

  lemma TablesSame(world: World, after: World)
    requires Tables(world) && after.state == world.state && after.streams == world.streams
    requires after.starting == world.starting && after.opening == world.opening && after.tainted == world.tainted
    ensures Tables(after)
  {
    IntactSame(world, after);
  }

  /** A change to one channel that leaves alone what the pump did on it. */
  lemma TouchOk(world: World, index: nat, touched: Channel)
    requires Invariant(world) && index < |world.channels|
    requires var was := world.channels[index];
             touched == was.(handed := touched.handed, held := touched.held, open := touched.open)
               && (touched.open ==> was.open)
    requires touched.held <= CHANNEL_CAPACITY
    ensures Invariant(world.(channels := world.channels[index := touched]))
  {
    var after := world.(channels := world.channels[index := touched]);
    TablesSame(world, after);
    forall i | 0 <= i < |after.channels| ensures ChannelOk(after, after.channels[i]) {
      assert ChannelOk(world, world.channels[i]);
    }
    forall provider | provider in after.state.routes ensures RouteOk(after, provider) {
      TouchedRoute(world, index, touched, provider);
    }
  }

  lemma TouchedRoute(world: World, index: nat, touched: Channel, provider: Provider)
    requires index < |world.channels| && Inverse(world.state) && provider in world.state.routes
             && RouteOk(world, provider)
    requires var was := world.channels[index];
             touched == was.(handed := touched.handed, held := touched.held, open := touched.open)
               && (touched.open ==> was.open)
    ensures RouteOk(world.(channels := world.channels[index := touched]), provider)
  {
  }

  lemma ChannelSeesStream(world: World, after: World, provider: Provider, event: Event, channel: Channel)
    requires after.streams == world.streams[provider := world.Stream(provider) + [event]]
    requires ChannelOk(world, channel)
    ensures ChannelOk(after, channel)
    ensures Since(after, channel) == Since(world, channel) + if channel.provider == provider then [event] else []
  {
  }

  lemma OfferedOk(world: World, after: World, provider: Provider, event: Event)
    requires Inverse(world.state) && provider in world.state.routes && RouteOk(world, provider) && world.closing == None
    requires ChannelOk(world, world.channels[world.state.routes[provider]])
    requires after.streams == world.streams[provider := world.Stream(provider) + [event]]
    ensures var offered := Offered(world.channels[world.state.routes[provider]], event);
            ChannelOk(after, offered) && (!offered.failed ==> offered.pumped == Since(after, offered))
  {
    var channel := world.channels[world.state.routes[provider]];
    ChannelSeesStream(world, after, provider, event, channel);
  }

  lemma ArrivedChannel(world: World, provider: Provider, event: Event, chosen: Option<Run>, i: nat)
    requires Invariant(world) && Enabled(world, Arrive(provider, event, chosen)) && i < |world.channels|
    ensures var after := Arrived(world, provider, event, chosen);
            |after.channels| == |world.channels| && ChannelOk(after, after.channels[i])
  {
    var after := Arrived(world, provider, event, chosen);
    ChannelSeesStream(world, after, provider, event, world.channels[i]);
    if provider in world.state.routes {
      assert RouteOk(world, provider);
      OfferedOk(world, after, provider, event);
    }
  }

  lemma BufferedRoute(world: World, provider: Provider, event: Event, chosen: Option<Run>, other: Provider)
    requires Invariant(world) && Enabled(world, Arrive(provider, event, chosen)) && provider !in world.state.routes
    requires Inverse(Arrived(world, provider, event, chosen).state) && other in world.state.routes
    ensures other in Arrived(world, provider, event, chosen).state.routes
            && RouteOk(Arrived(world, provider, event, chosen), other)
  {
    var after := Arrived(world, provider, event, chosen);
    BufferFrame(world.state, provider, event, chosen);
    assert RouteOk(world, other);
    ChannelSeesStream(world, after, provider, event, world.channels[world.state.routes[other]]);
  }

  lemma OfferedRoute(world: World, after: World, provider: Provider, event: Event)
    requires Invariant(world) && provider in world.state.routes && world.closing == None
    requires exists chosen :: after == Arrived(world, provider, event, chosen)
    ensures after.state == world.state && RouteOk(after, provider)
  {
    assert RouteOk(world, provider);
    OfferedOk(world, after, provider, event);
  }

  /** A route is as good as before if its channel, its run and its stream are as before. */
  lemma SameRoute(world: World, after: World, provider: Provider)
    requires provider in world.state.routes && provider in world.state.runsByProvider && RouteOk(world, provider)
    requires after.state == world.state && (world.closing.Some? ==> after.closing == world.closing)
    requires var index := world.state.routes[provider];
             && index < |after.channels| && after.channels[index] == world.channels[index]
             && Since(after, after.channels[index]) == Since(world, world.channels[index])
    ensures RouteOk(after, provider)
  {
  }

  lemma ArrivedRoute(world: World, provider: Provider, event: Event, chosen: Option<Run>, other: Provider)
    requires Invariant(world) && Enabled(world, Arrive(provider, event, chosen))
             && Inverse(Arrived(world, provider, event, chosen).state)
    requires other in world.state.routes
    ensures var after := Arrived(world, provider, event, chosen); other in after.state.routes && RouteOk(after, other)
  {
    var after := Arrived(world, provider, event, chosen);
    if provider !in world.state.routes {
      BufferedRoute(world, provider, event, chosen, other);
    } else {
      assert RouteOk(world, provider) && RouteOk(world, other);
      if other == provider {
        OfferedRoute(world, after, provider, event);
      } else {
        ChannelSeesStream(world, after, provider, event, world.channels[world.state.routes[other]]);
        SameRoute(world, after, other);
      }
    }
  }

  lemma ArrivedShape(world: World, provider: Provider, event: Event, chosen: Option<Run>)
    requires Enabled(world, Arrive(provider, event, chosen))
    ensures var after := Arrived(world, provider, event, chosen);
            |after.channels| == |world.channels| && after.state.routes == world.state.routes
  {
  }

  lemma ArrivedChannels(world: World, provider: Provider, event: Event, chosen: Option<Run>)
    requires Invariant(world) && Enabled(world, Arrive(provider, event, chosen))
    ensures ChannelsOk(Arrived(world, provider, event, chosen))
  {
    ArrivedShape(world, provider, event, chosen);
    var after := Arrived(world, provider, event, chosen);
    forall i | 0 <= i < |after.channels| ensures ChannelOk(after, after.channels[i]) {
      ArrivedChannel(world, provider, event, chosen, i);
    }
  }

  lemma ArrivedRoutes(world: World, provider: Provider, event: Event, chosen: Option<Run>)
    requires Invariant(world) && Enabled(world, Arrive(provider, event, chosen))
             && Inverse(Arrived(world, provider, event, chosen).state)
    ensures RoutesOk(Arrived(world, provider, event, chosen))
  {
    ArrivedShape(world, provider, event, chosen);
    var after := Arrived(world, provider, event, chosen);
    forall other | other in after.state.routes ensures RouteOk(after, other) {
      ArrivedRoute(world, provider, event, chosen, other);
    }
  }

  lemma ArriveOk(world: World, provider: Provider, event: Event, chosen: Option<Run>)
    requires Invariant(world) && Enabled(world, Arrive(provider, event, chosen))
    ensures Invariant(Arrived(world, provider, event, chosen))
  {
    TablesArrive(world, provider, event, chosen);
    ArrivedChannels(world, provider, event, chosen);
    ArrivedRoutes(world, provider, event, chosen);
  }

  lemma InvariantStep(world: World, action: Action)
    requires Invariant(world) && Enabled(world, action)
    ensures Invariant(Apply(world, action))
  {
    var after := Apply(world, action);
    match action {
      case Arrive(provider, event, chosen) => ArriveOk(world, provider, event, chosen);
      case Bind(_) => RegisterOk(world, action);
      case Prepare(_, _, _) => RegisterOk(world, action);
      case HandOver(index, _) =>
        if after != world {
          TouchOk(world, index, after.channels[index]);
        }
      case Receive(index) =>
        assert ChannelOk(world, world.channels[index]);
        TouchOk(world, index, after.channels[index]);
      case DropReceiver(index) =>
        assert ChannelOk(world, world.channels[index]);
        TouchOk(world, index, after.channels[index]);
      case Close(run) =>
        TablesClose(world, run, world.closing);
        CloseShrinks(world, run, world.closing);
        ShrunkOk(world, after);
      case FinishOverflow =>
        TablesClose(world, world.closing.value, None);
        CloseShrinks(world, world.closing.value, None);
        ShrunkOk(world, after);
      case Remove(run, provider) =>
        TablesRemove(world, run, provider);
        RemoveShrinks(world, run, provider);
        ShrunkOk(world, after);
      case _ => InvariantQuiet(world, action);
    }
  }

  predicate Quiet(action: Action) {
    || action.BeginStart? || action.OpenHandshake? || action.RefuseStart? || action.StartUnknown?
    || action.StartUnbound?
    || action.PumpFails? || action.Activate? || action.Doubt? || action.TakeUncertain?
  }

  lemma QuietTables(world: World, action: Action)
    requires Tables(world) && Enabled(world, action) && Quiet(action)
    ensures Tables(Apply(world, action))
  {
    match action {
      case OpenHandshake => TablesOpen(world);
      case StartUnknown => TablesUnknown(world);
      case BeginStart(_, _) => TablesStart(world, action);
      case RefuseStart => TablesStart(world, action);
      case StartUnbound => TablesStart(world, action);
      case _ => TablesForget(world, action);
    }
  }

  lemma QuietShrinks(world: World, action: Action)
    requires Inverse(world.state) && Enabled(world, action) && Quiet(action)
    ensures Shrunk(world, Apply(world, action))
  {
    if action.StartUnknown? {
      RetainInverse(world.state, world.starting.value);
    }
  }

  lemma InvariantQuiet(world: World, action: Action)
    requires Invariant(world) && Enabled(world, action) && Quiet(action)
    ensures Invariant(Apply(world, action))
  {
    QuietTables(world, action);
    QuietShrinks(world, action);
    ShrunkOk(world, Apply(world, action));
  }

  /** Whatever tasks interleave, and however, the invariant holds. */
  lemma InvariantReplay(world: World, history: seq<Action>)
    requires Invariant(world) && Legal(world, history)
    ensures Invariant(Replay(world, history))
  {
    forall w: World, a | Invariant(w) && Step(w, a).Some? ensures Invariant(Step(w, a).value) {
      InvariantStep(w, a);
    }
    Runs.ReplayKeeps(Step, Invariant, world, history);
  }

  // ----- Main results -----

  /**
   Gap-free routing, in every reachable state. The tables are mutually inverse and the handshake
   buffers bounded. On a channel whose run had a work item when it was registered, what the pump
   pushed is one contiguous block of the provider run's stream; while such a channel is routed and
   no push was refused, that block is everything that arrived since.
   */
  lemma GapFree(history: seq<Action>)
    requires Legal(FRESH, history)
    ensures var world := Replay(FRESH, history);
            && Inverse(world.state) && Bounded(world.state)
            && (forall i :: 0 <= i < |world.channels| && world.channels[i].known ==>
                  Contiguous(world, world.channels[i]))
            && (forall provider :: provider in world.state.routes ==>
                  && world.state.routes[provider] < |world.channels|
                  && var channel := world.channels[world.state.routes[provider]];
                     channel.provider == provider && (!channel.failed ==> channel.pumped == Since(world, channel)))
  {
    InvariantReplay(FRESH, history);
    var world := Replay(FRESH, history);
    forall i | 0 <= i < |world.channels| && world.channels[i].known ensures Contiguous(world, world.channels[i]) {
      assert ChannelOk(world, world.channels[i]);
    }
    forall provider | provider in world.state.routes ensures RouteOk(world, provider) {
    }
  }

  /** What one step may do to the channels that exist: streams only grow, and a refusal is final. */
  predicate Later(world: World, after: World) {
    && |world.channels| <= |after.channels|
    && (forall provider :: provider in world.streams ==> world.Stream(provider) <= after.Stream(provider))
    && (forall i :: 0 <= i < |world.channels| ==> Successor(world.channels[i], after.channels[i]))
  }

  predicate Successor(channel: Channel, next: Channel) {
    && next.provider == channel.provider && next.run == channel.run && next.from == channel.from
    && next.known == channel.known
    && channel.pumped <= next.pumped && channel.handed <= next.handed
    && (next.open ==> channel.open) && (channel.failed ==> next.failed)
    && (channel.failed && channel.known ==> next.pumped == channel.pumped)
  }

  lemma LaterTransitive(a: World, b: World, c: World)
    requires Later(a, b) && Later(b, c)
    ensures Later(a, c)
  {
  }

  lemma LaterUpdate(world: World, after: World, index: nat)
    requires after.streams == world.streams && |after.channels| == |world.channels|
    requires forall i :: 0 <= i < |world.channels| && i != index ==> after.channels[i] == world.channels[i]
    requires index < |world.channels| ==> Successor(world.channels[index], after.channels[index])
    ensures Later(world, after)
  {
  }

  lemma LaterStep(world: World, action: Action)
    requires Invariant(world) && Enabled(world, action)
    ensures Later(world, Apply(world, action))
  {
    match action {
      case Arrive(provider, event, chosen) => LaterArrive(world, provider, event, chosen);
      case Bind(_) => LaterGrown(world, Apply(world, action));
      case Prepare(_, _, _) => LaterGrown(world, Apply(world, action));
      case HandOver(index, _) => LaterTouch(world, action, index);
      case Receive(index) => LaterTouch(world, action, index);
      case DropReceiver(index) => LaterTouch(world, action, index);
      case _ => LaterStill(world, action);
    }
  }

  lemma LaterTouch(world: World, action: Action, index: nat)
    requires Enabled(world, action)
    requires action == Receive(index) || action == DropReceiver(index) || (action.HandOver? && action.channel == index)
    ensures Later(world, Apply(world, action))
  {
    LaterUpdate(world, Apply(world, action), index);
  }

  lemma LaterStill(world: World, action: Action)
    requires Enabled(world, action) && (Quiet(action) || action.Close? || action.Remove? || action.FinishOverflow?)
    ensures Later(world, Apply(world, action))
  {
    LaterGrown(world, Apply(world, action));
  }

  lemma LaterGrown(world: World, after: World)
    requires after.streams == world.streams && world.channels <= after.channels
    ensures Later(world, after)
  {
  }

  lemma LaterPush(world: World, after: World, provider: Provider, event: Event, index: nat)
    requires after.streams == world.streams[provider := world.Stream(provider) + [event]]
    requires |after.channels| == |world.channels|
    requires forall i :: 0 <= i < |world.channels| && i != index ==> after.channels[i] == world.channels[i]
    requires index < |world.channels| ==> Successor(world.channels[index], after.channels[index])
    ensures Later(world, after)
  {
  }

  lemma RoutedSuccessor(world: World, provider: Provider, event: Event)
    requires provider in world.state.routes && provider in world.state.runsByProvider && RouteOk(world, provider)
    requires world.closing == None && ChannelOk(world, world.channels[world.state.routes[provider]])
    ensures var channel := world.channels[world.state.routes[provider]]; Successor(channel, Offered(channel, event))
  {
  }

  lemma LaterArrive(world: World, provider: Provider, event: Event, chosen: Option<Run>)
    requires Invariant(world) && Enabled(world, Arrive(provider, event, chosen))
    ensures Later(world, Arrived(world, provider, event, chosen))
  {
    var after := Arrived(world, provider, event, chosen);
    if provider in world.state.routes {
      assert RouteOk(world, provider);
      RoutedSuccessor(world, provider, event);
      LaterPush(world, after, provider, event, world.state.routes[provider]);
    } else {
      LaterPush(world, after, provider, event, |world.channels|);
    }
  }

  lemma {:induction false} LaterReplay(world: World, history: seq<Action>)
    requires Invariant(world) && Legal(world, history)
    ensures Later(world, Replay(world, history))
    decreases |history|
  {
    if history != [] {
      var next := Apply(world, history[0]);
      assert Step(world, history[0]) == Some(next);
      LaterStep(world, history[0]);
      InvariantStep(world, history[0]);
      LaterReplay(next, history[1..]);
      LaterTransitive(world, next, Replay(next, history[1..]));
    }
  }

  /** After the first refused push, nothing more is ever pushed on the channel. */
  lemma RefusalIsFinal(world: World, history: seq<Action>, index: nat)
    requires Invariant(world) && Legal(world, history)
    requires index < |world.channels| && world.channels[index].known && world.channels[index].failed
    ensures var after := Replay(world, history);
            index < |after.channels| && after.channels[index].pumped == world.channels[index].pumped
  {
    LaterReplay(world, history);
    assert Successor(world.channels[index], Replay(world, history).channels[index]);
  }

  /**
   A handshake that did not overflow loses nothing of a provider run that had no route since it
   opened: the events it buffered for that run, followed by whatever reaches the pump afterwards,
   are the run's stream since the handshake opened.
   */
  lemma {:induction false} HandshakeLosesNothing(world: World, provider: Provider, history: seq<Action>)
    requires Invariant(world) && Enabled(world, Bind(provider))
    requires world.state.startInProgress.Some? && provider !in world.tainted && !world.state.pendingOverflow
    requires Legal(Apply(world, Bind(provider)), history)
    ensures var index, after := |world.channels|, Replay(Apply(world, Bind(provider)), history);
            && index < |after.channels|
            && after.channels[index].provider == provider && after.channels[index].run == world.starting.value
            && world.Mark(provider) <= |after.Stream(provider)|
            && Of(world.state.pendingEvents, provider) + Since(after, after.channels[index])
               == after.Stream(provider)[world.Mark(provider)..]
  {
    var index, bound := |world.channels|, Apply(world, Bind(provider));
    InvariantStep(world, Bind(provider));
    LaterReplay(bound, history);
    var after := Replay(bound, history);
    assert Intact(world, provider);
    assert Successor(bound.channels[index], after.channels[index]);
    var before, now := world.Stream(provider), after.Stream(provider);
    assert before <= now by {
      if provider in bound.streams {
        assert bound.Stream(provider) <= after.Stream(provider);
      }
    }
    Resume(before, now, world.Mark(provider));
  }

  lemma Resume<T>(before: seq<T>, now: seq<T>, mark: nat)
    requires before <= now && mark <= |before|
    ensures before[mark..] + now[|before|..] == now[mark..]
  {
  }

  // ----- When a gap is left -----

  predicate Gap(world: World, index: nat) { index < |world.channels| && !Contiguous(world, world.channels[index]) }

  /** A routed channel that takes every event, and whose run has no work item. */
  predicate Unguarded(world: World, provider: Provider) {
    && world.closing == None && provider in world.state.routes && provider in world.state.runsByProvider
    && RouteOk(world, provider) && ChannelOk(world, world.channels[world.state.routes[provider]])
    && var channel := world.channels[world.state.routes[provider]];
       channel.open && !channel.failed && !channel.known
  }

  lemma UnguardedArrival(world: World, provider: Provider, event: Event)
    requires Unguarded(world, provider) && world.channels[world.state.routes[provider]].held < CHANNEL_CAPACITY
    ensures Enabled(world, Arrive(provider, event, None))
    ensures var after := Arrived(world, provider, event, None);
            && after.state == world.state && Unguarded(after, provider)
            && after.channels[world.state.routes[provider]].held
                 == world.channels[world.state.routes[provider]].held + 1
  {
    StreamAppend(world, provider, event);
  }

  /** Arrivals alone fill the channel. */
  lemma {:induction false} Fill(world: World, provider: Provider) returns (history: seq<Action>)
    requires Unguarded(world, provider)
    ensures Legal(world, history)
    ensures var after := Replay(world, history);
            && after.state == world.state && Unguarded(after, provider)
            && after.channels[world.state.routes[provider]].held == CHANNEL_CAPACITY
    decreases CHANNEL_CAPACITY - world.channels[world.state.routes[provider]].held
  {
    if world.channels[world.state.routes[provider]].held == CHANNEL_CAPACITY {
      history := [];
    } else {
      var arrival := Arrive(provider, Event(0), None);
      UnguardedArrival(world, provider, Event(0));
      var rest := Fill(Apply(world, arrival), provider);
      history := [arrival] + rest;
      assert Step(world, arrival) == Some(Apply(world, arrival)) && history[0] == arrival && history[1..] == rest;
    }
  }

  /** From a full channel of a run without a work item: refuse one event, make room, push the next. */
  function LeavingGap(world: World, provider: Provider): seq<Action>
    requires provider in world.state.routes
  {
    [Arrive(provider, Event(0), None), Receive(world.state.routes[provider]), Arrive(provider, Event(1), None)]
  }

  lemma GapWithoutWorkItem(world: World, provider: Provider)
    requires Unguarded(world, provider) && world.channels[world.state.routes[provider]].held == CHANNEL_CAPACITY
    ensures Legal(world, LeavingGap(world, provider))
    ensures Gap(Replay(world, LeavingGap(world, provider)), world.state.routes[provider])
  {
    GapChannel(world, provider);
    ThreeSteps(world, Arrive(provider, Event(0), None), Receive(world.state.routes[provider]),
      Arrive(provider, Event(1), None));
  }

  lemma ThreeSteps(world: World, a: Action, b: Action, c: Action)
    requires Enabled(world, a) && Enabled(Apply(world, a), b) && Enabled(Apply(Apply(world, a), b), c)
    ensures Legal(world, [a, b, c]) && Replay(world, [a, b, c]) == Apply(Apply(Apply(world, a), b), c)
  {
    var first := Apply(world, a);
    var second := Apply(first, b);
    var third := Apply(second, c);
    assert Step(world, a) == Some(first) && Step(first, b) == Some(second) && Step(second, c) == Some(third);
    Runs.Trace(Step, [world, first, second, third], [a, b, c]);
  }

  lemma GapChannel(world: World, provider: Provider)
    requires Unguarded(world, provider) && world.channels[world.state.routes[provider]].held == CHANNEL_CAPACITY
    ensures Enabled(world, Arrive(provider, Event(0), None))
    ensures var first := Apply(world, Arrive(provider, Event(0), None));
            && Enabled(first, Receive(world.state.routes[provider]))
            && var second := Apply(first, Receive(world.state.routes[provider]));
               && Enabled(second, Arrive(provider, Event(1), None))
               && Gap(Apply(second, Arrive(provider, Event(1), None)), world.state.routes[provider])
  {
    var index := world.state.routes[provider];
    var channel := world.channels[index];
    var first := Arrived(world, provider, Event(0), None);
    var second := Apply(first, Receive(index));
    var third := Arrived(second, provider, Event(1), None);
    var seen := Since(world, channel);
    StreamAppend(world, provider, Event(0));
    StreamAppend(second, provider, Event(1));
    var last := third.channels[index];
    assert last.pumped == seen + [Event(1)];
    assert Since(third, last) == seen + [Event(0)] + [Event(1)];
    assert last.pumped[|seen|] != Since(third, last)[|seen|];
  }

  /** Some continuation leaves a gap on the channel. */
  ghost predicate MayLeaveGap(world: World, index: nat) {
    exists history :: Legal(world, history) && Gap(Replay(world, history), index)
  }

  lemma GapAhead(world: World, provider: Provider)
    requires Unguarded(world, provider)
    ensures MayLeaveGap(world, world.state.routes[provider])
  {
    var filling := Fill(world, provider);
    var full := Replay(world, filling);
    GapWithoutWorkItem(full, provider);
    Runs.ReplayConcat(Step, world, filling, LeavingGap(full, provider));
    assert Legal(world, filling + LeavingGap(full, provider));
    assert Gap(Replay(world, filling + LeavingGap(full, provider)), world.state.routes[provider]);
  }

  lemma GapAfterStep(world: World, action: Action, index: nat)
    requires Enabled(world, action) && MayLeaveGap(Apply(world, action), index)
    ensures MayLeaveGap(world, index)
  {
    var after := Apply(world, action);
    var more :| Legal(after, more) && Gap(Replay(after, more), index);
    assert Step(world, action) == Some(after);
    Runs.Trace(Step, [world, after], [action]);
    Runs.ReplayConcat(Step, world, [action], more);
    assert Legal(world, [action] + more) && Gap(Replay(world, [action] + more), index);
  }

  /** While the pump is about to close another run, it does that first. */
  lemma ClosingAnother(world: World, provider: Provider)
    requires Invariant(world) && provider in world.state.routes && RouteOk(world, provider) && world.closing.Some?
    requires var channel := world.channels[world.state.routes[provider]];
             channel.open && !channel.failed && !channel.known && world.closing != Some(channel.run)
    ensures var after := Apply(world, FinishOverflow);
            Unguarded(after, provider) && after.state.routes[provider] == world.state.routes[provider]
  {
    var index, after := world.state.routes[provider], Apply(world, FinishOverflow);
    InvariantStep(world, FinishOverflow);
    assert provider in after.state.routes && after.state.routes[provider] == index && after.channels == world.channels;
    assert RouteOk(after, provider) && ChannelOk(after, after.channels[index]);
  }

  /**
   The exact condition: on a routed channel that the pump is not about to close, and on which nothing
   was refused yet, a gap may be left if and only if its run had no work item.
   */
  lemma GapExactly(world: World, provider: Provider)
    requires Invariant(world) && provider in world.state.routes && world.state.routes[provider] < |world.channels|
    requires var channel := world.channels[world.state.routes[provider]];
             channel.open && !channel.failed && world.closing != Some(channel.run)
    ensures MayLeaveGap(world, world.state.routes[provider]) <==> !world.channels[world.state.routes[provider]].known
  {
    var index := world.state.routes[provider];
    assert RouteOk(world, provider);
    if world.channels[index].known {
      NoGapAhead(world, index);
    } else if world.closing.Some? {
      ClosingAnother(world, provider);
      GapAhead(Apply(world, FinishOverflow), provider);
      GapAfterStep(world, FinishOverflow, index);
    } else {
      assert ChannelOk(world, world.channels[index]);
      GapAhead(world, provider);
    }
  }

  lemma NoGapAhead(world: World, index: nat)
    requires Invariant(world) && index < |world.channels| && world.channels[index].known
    ensures !MayLeaveGap(world, index)
  {
    forall history | Legal(world, history) ensures !Gap(Replay(world, history), index) {
      var after := Replay(world, history);
      InvariantReplay(world, history);
      LaterReplay(world, history);
      assert Successor(world.channels[index], after.channels[index]);
      assert ChannelOk(after, after.channels[index]);
    }
  }

  /** How a run comes to be routed without its work item: the pump fails while its start is in flight. */
  lemma PumpFailureForgetsWorkItem(run: Run, item: Item, provider: Provider)
    ensures var history := [BeginStart(run, item), OpenHandshake, PumpFails, Bind(provider)];
            && Legal(FRESH, history)
            && provider in Replay(FRESH, history).state.routes && Replay(FRESH, history).state.routes[provider] == 0
            && Unguarded(Replay(FRESH, history), provider)
  {
    var history := [BeginStart(run, item), OpenHandshake, PumpFails, Bind(provider)];
    var begun := Apply(FRESH, history[0]);
    var waiting := Apply(begun, history[1]);
    var failed := Apply(waiting, history[2]);
    var bound := Apply(failed, history[3]);
    Runs.Trace(Step, [FRESH, begun, waiting, failed, bound], history);
  }

  /** So a gap is reached: one run of the supervisor, from its start, that leaves one. */
  lemma GapReachable(run: Run, item: Item, provider: Provider)
    ensures MayLeaveGap(FRESH, 0)
  {
    PumpFailureForgetsWorkItem(run, item, provider);
    var history := [BeginStart(run, item), OpenHandshake, PumpFails, Bind(provider)];
    var bound := Replay(FRESH, history);
    GapAhead(bound, provider);
    var more :| Legal(bound, more) && Gap(Replay(bound, more), 0);
    Runs.ReplayConcat(Step, FRESH, history, more);
    assert Legal(FRESH, history + more) && Gap(Replay(FRESH, history + more), 0);
  }
}
