/**
 The run supervisor's routing, as its tasks run it. Every lock section is one action of the
 protocol; between two sections of a task `Yield` stands for whatever the other tasks do.
 */
module Routing {
  import opened Common
  import Protocol = RoutingProtocol
  import opened RoutingProtocol
  import opened RoutingProofs
  import Runs

  /** Who is yielding: the pump and the holder of the start lock are unique. */
  datatype Role = Pump | Starter | Other

  predicate Belongs(role: Role, action: Action) {
    match role
    case Pump => action.Arrive? || action.FinishOverflow? || action.PumpFails?
    case Starter =>
      || action.BeginStart? || action.OpenHandshake? || action.RefuseStart?
      || action.StartUnknown? || action.StartUnbound? || action.Bind?
    case Other => false
  }

  /** The pump's next step, and what has reached it, are the pump's alone. */
  lemma OthersLeavePump(world: World, action: Action)
    requires Enabled(world, action) && !Belongs(Pump, action)
    ensures Apply(world, action).closing == world.closing && Apply(world, action).streams == world.streams
  {
  }

  /** So it is with the start in flight. */
  lemma OthersLeaveStart(world: World, action: Action)
    requires Enabled(world, action) && !Belongs(Starter, action)
    ensures Apply(world, action).starting == world.starting
  {
  }

  /** A run and the reference that the provider gave it. */
  type Named = (Run, Provider)

  /** Nobody registers that run under another reference, or that reference for another run. */
  predicate Respects(world: World, action: Action, named: Option<Named>) {
    named.Some? ==>
      match action
      case Bind(provider) =>
        world.starting.Some? ==> (world.starting.value == named.value.0 <==> provider == named.value.1)
      case Prepare(run, _, provider) => run == named.value.0 <==> provider == named.value.1
      case _ => true
  }

  predicate Reserved(state: State, named: Option<Named>) {
    named.Some? ==> Unshared(state, named.value.0, named.value.1)
  }

  /** So it stays the run's own. */
  lemma StaysReserved(world: World, action: Action, named: Option<Named>)
    requires Enabled(world, action) && Respects(world, action, named) && Reserved(world.state, named)
    ensures Reserved(Apply(world, action).state, named)
  {
    match action {
      case FinishOverflow => ClosingReserved(world.state, world.closing.value, named);
      case Close(run) => ClosingReserved(world.state, run, named);
      case _ =>
    }
  }

  lemma LeftAlone(world: World, action: Action, role: Role, named: Option<Named>)
    requires Enabled(world, action) && !Belongs(role, action)
    requires Respects(world, action, named) && Reserved(world.state, named)
    ensures Reserved(Apply(world, action).state, named)
    ensures role == Pump ==>
              Apply(world, action).closing == world.closing && Apply(world, action).streams == world.streams
    ensures role == Starter ==> Apply(world, action).starting == world.starting
  {
    StaysReserved(world, action, named);
    if role == Pump {
      OthersLeavePump(world, action);
    } else if role == Starter {
      OthersLeaveStart(world, action);
    }
  }

  lemma ClosingReserved(state: State, run: Run, named: Option<Named>)
    requires Reserved(state, named)
    ensures Reserved(CloseRun(state, run), named)
  {
  }

  /** There is always a reference that no run has. */
  lemma {:induction false} UnusedProvider(taken: set<Provider>) returns (unused: Provider)
    ensures forall provider :: provider in taken ==> provider.number < unused.number
    decreases |taken|
  {
    if taken == {} {
      unused := Provider(0);
    } else {
      var some :| some in taken;
      var rest := UnusedProvider(taken - {some});
      unused := Provider(if some.number < rest.number then rest.number else some.number + 1);
      assert taken == (taken - {some}) + {some};
    }
  }

  lemma SomeUnshared(state: State, run: Run) returns (provider: Provider)
    requires Inverse(state)
    ensures Unshared(state, run, provider)
  {
    if run in state.runs {
      provider := state.runs[run];
    } else {
      provider := UnusedProvider(state.runsByProvider.Keys);
    }
  }

  /** The events of `part` all occur in `whole`, in order. */
  predicate Within(part: seq<Event>, whole: seq<Event>)
    decreases |whole|
  {
    part == []
    || (whole != []
        && var front := whole[..|whole| - 1];
           Within(part, front) || (part[|part| - 1] == whole[|whole| - 1] && Within(part[..|part| - 1], front)))
  }

  lemma {:induction false} WithinMore(part: seq<Event>, whole: seq<Event>, more: seq<Event>)
    requires Within(part, whole)
    ensures Within(part, whole + more)
    decreases |more|
  {
    if more == [] {
      assert whole + more == whole;
    } else {
      WithinMore(part, whole, more[..|more| - 1]);
      assert (whole + more)[..|whole + more| - 1] == whole + more[..|more| - 1];
    }
  }

  lemma {:induction false} WithinLater(part: seq<Event>, before: seq<Event>, whole: seq<Event>)
    requires Within(part, whole)
    ensures Within(part, before + whole)
    decreases |whole|
  {
    if part != [] {
      var front, last := whole[..|whole| - 1], whole[|whole| - 1];
      assert (before + whole)[..|before + whole| - 1] == before + front;
      if Within(part, front) {
        WithinLater(part, before, front);
      } else {
        WithinLater(part[..|part| - 1], before, front);
      }
    }
  }

  lemma {:induction false} WithinNext(part: seq<Event>, whole: seq<Event>, event: Event)
    requires Within(part, whole)
    ensures Within(part + [event], whole + [event])
  {
    assert (whole + [event])[..|whole|] == whole && (part + [event])[..|part|] == part;
  }

  /** What was handed over on a channel since it had `from` handed events. */
  function HandedSince(channel: Channel, from: nat): seq<Event> {
    if from <= |channel.handed| then channel.handed[from..] else []
  }

  lemma {:induction false} HandedAtAll(channel: Channel, from: nat, part: seq<Event>)
    requires Within(part, HandedSince(channel, from))
    ensures Within(part, channel.handed)
  {
    if from <= |channel.handed| {
      assert channel.handed == channel.handed[..from] + channel.handed[from..];
      WithinLater(part, channel.handed[..from], channel.handed[from..]);
    } else {
      WithinMore(part, [], channel.handed);
      assert [] + channel.handed == channel.handed;
    }
  }

  lemma {:induction false} HandedMore(channel: Channel, next: Channel, from: nat, part: seq<Event>)
    requires channel.handed <= next.handed && from <= |channel.handed| && Within(part, HandedSince(channel, from))
    ensures Within(part, HandedSince(next, from))
  {
    var more := next.handed[|channel.handed|..];
    assert next.handed == channel.handed + more;
    assert HandedSince(next, from) == HandedSince(channel, from) + more;
    WithinMore(part, HandedSince(channel, from), more);
  }

  lemma {:induction false} HandedNext(channel: Channel, next: Channel, from: nat, part: seq<Event>, event: Event)
    requires next.handed == channel.handed + [event] && from <= |channel.handed|
             && Within(part, HandedSince(channel, from))
    ensures Within(part + [event], HandedSince(next, from))
  {
    assert HandedSince(next, from) == HandedSince(channel, from) + [event];
    WithinNext(part, HandedSince(channel, from), event);
  }

  /** How the provider answered a start, and whether the store then bound the run to it. */
  datatype StartOutcome = Refused | Unanswered | Accepted(bound: bool)

  /** What became of what was kept for an uncertain start. */
  datatype Delivery = NothingKept | Delivered(pending: PendingStart, channel: nat) | Dropped(pending: PendingStart)

  /** A channel that takes no event. */
  predicate Refuses(channel: Channel) { !channel.open || channel.held >= CHANNEL_CAPACITY }

  /** At this point of the history a send on the channel was refused. */
  ghost predicate RefusedAt(history: seq<Action>, k: nat, index: nat) {
    && k <= |history| && Legal(FRESH, history[..k])
    && index < |Replay(FRESH, history[..k]).channels| && Refuses(Replay(FRESH, history[..k]).channels[index])
  }

  ghost predicate RefusedSince(history: seq<Action>, from: nat, index: nat) {
    exists k :: from <= k <= |history| && RefusedAt(history, k, index)
  }

  lemma RefusedStill(history: seq<Action>, later: seq<Action>, from: nat, index: nat)
    requires RefusedSince(history, from, index) && history <= later
    ensures forall earlier: nat :: earlier <= from ==> RefusedSince(later, earlier, index)
  {
    var k :| from <= k <= |history| && RefusedAt(history, k, index);
    assert later[..k] == history[..k];
    assert RefusedAt(later, k, index);
  }

  /** At some point the provider run had no route. */
  ghost predicate UnroutedSince(history: seq<Action>, from: nat, provider: Provider) {
    exists k :: from <= k <= |history| && UnroutedAt(history, k, provider)
  }

  ghost predicate UnroutedAt(history: seq<Action>, k: nat, provider: Provider) {
    k <= |history| && Legal(FRESH, history[..k]) && provider !in Replay(FRESH, history[..k]).state.routes
  }

  lemma UnroutedStill(history: seq<Action>, later: seq<Action>, from: nat, provider: Provider)
    requires UnroutedSince(history, from, provider) && history <= later
    ensures forall earlier: nat :: earlier <= from ==> UnroutedSince(later, earlier, provider)
  {
    var k :| from <= k <= |history| && UnroutedAt(history, k, provider);
    assert later[..k] == history[..k];
    assert UnroutedAt(later, k, provider);
  }

  /**
   The task sent these events on a route of the provider run, up to the first refusal; or it sent
   nothing because there was no route.
   */
  ghost predicate SentOn(history: seq<Action>, from: nat, provider: Provider, events: seq<Event>, sends: seq<Action>) {
    || (sends == [] && UnroutedSince(history, from, provider))
    || exists index, count: nat :: count <= |events| && SentTo(history, from, events, sends, index, count)
  }

  ghost predicate SentTo(history: seq<Action>, from: nat, events: seq<Event>, sends: seq<Action>, index: nat,
                         count: nat)
    requires count <= |events|
  {
    && sends == Handing(index, Offering(events, count))
    && (count < |events| ==> RefusedSince(history, from, index))
  }

  lemma SentStill(history: seq<Action>, later: seq<Action>, from: nat, earlier: nat, provider: Provider,
                  events: seq<Event>, sends: seq<Action>)
    requires SentOn(history, from, provider, events, sends) && history <= later && earlier <= from
    ensures SentOn(later, earlier, provider, events, sends)
  {
    if sends == [] && UnroutedSince(history, from, provider) {
      UnroutedStill(history, later, from, provider);
    } else {
      var index: nat, count: nat :| count <= |events| && SentTo(history, from, events, sends, index, count);
      if count < |events| {
        RefusedStill(history, later, from, index);
      }
      assert SentTo(later, earlier, events, sends, index, count);
    }
  }

  /** The handshake ended with this action, when this was what it had buffered for the provider run. */
  ghost predicate EndedSince(history: seq<Action>, from: nat, action: Action, provider: Provider, events: seq<Event>,
                             overflow: bool)
  {
    exists k :: from <= k < |history| && EndedAt(history, k, action, provider, events, overflow)
  }

  ghost predicate EndedAt(history: seq<Action>, k: nat, action: Action, provider: Provider, events: seq<Event>,
                          overflow: bool)
  {
    && k < |history| && history[k] == action && Legal(FRESH, history[..k])
    && var state := Replay(FRESH, history[..k]).state;
       events == Of(state.pendingEvents, provider) && overflow == state.pendingOverflow
  }

  lemma EndedStill(history: seq<Action>, later: seq<Action>, from: nat, earlier: nat, action: Action,
                   provider: Provider, events: seq<Event>, overflow: bool)
    requires EndedSince(history, from, action, provider, events, overflow) && history <= later && earlier <= from
    ensures EndedSince(later, earlier, action, provider, events, overflow)
  {
    var k :| from <= k < |history| && EndedAt(history, k, action, provider, events, overflow);
    assert later[..k] == history[..k];
    assert EndedAt(later, k, action, provider, events, overflow);
  }

  /** It did so, and was cut short. */
  ghost predicate CutOn(history: seq<Action>, from: nat, provider: Provider, events: seq<Event>, sends: seq<Action>) {
    || (sends == [] && UnroutedSince(history, from, provider))
    || exists index, count: nat :: count < |events| && SentTo(history, from, events, sends, index, count)
  }

  lemma CutStill(history: seq<Action>, later: seq<Action>, from: nat, earlier: nat, provider: Provider,
                 events: seq<Event>, sends: seq<Action>)
    requires CutOn(history, from, provider, events, sends) && history <= later && earlier <= from
    ensures CutOn(later, earlier, provider, events, sends)
  {
    if sends == [] && UnroutedSince(history, from, provider) {
      UnroutedStill(history, later, from, provider);
    } else {
      var index: nat, count: nat :| count < |events| && SentTo(history, from, events, sends, index, count);
      RefusedStill(history, later, from, index);
      assert SentTo(later, earlier, events, sends, index, count);
    }
  }

  /** This was kept of the run's uncertain start when it was taken out. */
  ghost predicate TakenSince(history: seq<Action>, from: nat, run: Run, pending: Option<PendingStart>) {
    exists k :: from <= k < |history| && TakenAt(history, k, run, pending)
  }

  ghost predicate TakenAt(history: seq<Action>, k: nat, run: Run, pending: Option<PendingStart>) {
    && k < |history| && history[k] == TakeUncertain(run) && Legal(FRESH, history[..k])
    && var starts := Replay(FRESH, history[..k]).state.uncertainStarts;
       pending == if run in starts then Some(starts[run]) else None
  }

  lemma TakenStill(history: seq<Action>, later: seq<Action>, from: nat, earlier: nat, run: Run,
                   pending: Option<PendingStart>)
    requires TakenSince(history, from, run, pending) && history <= later && earlier <= from
    ensures TakenSince(later, earlier, run, pending)
  {
    var k :| from <= k < |history| && TakenAt(history, k, run, pending);
    assert later[..k] == history[..k];
    assert TakenAt(later, k, run, pending);
  }

  /** This was buffered when the start ended without an answer. */
  ghost predicate LeftAt(history: seq<Action>, k: nat, events: Buffered, overflow: bool) {
    && k < |history| && history[k] == StartUnknown && Legal(FRESH, history[..k])
    && Replay(FRESH, history[..k]).state.pendingEvents == events
    && Replay(FRESH, history[..k]).state.pendingOverflow == overflow
  }

  /** One send for each of these events. */
  function Handing(index: nat, events: seq<Event>): seq<Action> {
    seq(|events|, i requires 0 <= i < |events| => Action.HandOver(index, events[i]))
  }

  /** The events that were offered, if the first `count` of them were taken. */
  function Offering(events: seq<Event>, count: nat): seq<Event> {
    if count < |events| then events[..count + 1] else events
  }

  /** Nothing in the tables is about the run any more. */
  predicate Gone(state: State, run: Run) {
    run !in state.runs && run !in state.workItems && run !in state.uncertainRuns && run !in state.uncertainStarts
  }

  datatype Started =
    | NotStarted
    | OutcomeUnknown
    | Bound(provider: Provider, channel: nat, buffered: seq<Event>, overflow: bool, closed: bool)

  class Supervisor {
    var state: State
    var channels: seq<Channel>
    var starting: Option<Run>
    var closing: Option<Run>

    // Read by the specification only.
    var streams: map<Provider, seq<Event>>
    var opening: map<Provider, seq<Event>>
    var tainted: set<Provider>
    /** What all tasks did, and what of it the calling task did. */
    ghost var history: seq<Action>
    ghost var mine: seq<Action>

    function Now(): World
      reads this
    {
      World(state, channels, streams, starting, closing, opening, tainted)
    }

    /** The present is what some interleaving of the tasks leads to. */
    ghost predicate Valid()
      reads this
    {
      Legal(FRESH, history) && Replay(FRESH, history) == Now()
    }

    constructor ()
      ensures Valid() && Now() == FRESH
    {
      state, channels, starting, closing := EMPTY, [], None, None;
      streams, opening, tainted, history, mine := map[], map[], {}, [], [];
    }

    lemma Kept()
      requires Valid()
      ensures Invariant(Now()) && Later(Now(), Now())
    {
      InvariantReplay(FRESH, history);
      LaterGrown(Now(), Now());
    }

    /** An action was taken. What `base` led to before it, `base` leads to still. */
    ghost method Took(base: World, before: World, action: Action)
      requires Legal(FRESH, history) && Replay(FRESH, history) == before
      requires Enabled(before, action) && Now() == Apply(before, action) && Later(base, before)
      modifies `history, `mine
      ensures Valid() && Later(base, Now()) && history == old(history) + [action] && mine == old(mine) + [action]
    {
      Happened(base, before, action);
      mine := mine + [action];
    }

    ghost method Happened(base: World, before: World, action: Action)
      requires Legal(FRESH, history) && Replay(FRESH, history) == before
      requires Enabled(before, action) && Now() == Apply(before, action) && Later(base, before)
      modifies `history
      ensures Valid() && Later(base, Now()) && history == old(history) + [action]
    {
      InvariantReplay(FRESH, history);
      LaterStep(before, action);
      LaterTransitive(base, before, Now());
      Runs.ReplayAppend(Step, FRESH, history, action);
      history := history + [action];
    }

    /** The other tasks take any number of steps, but leave a named run and its reference to the caller. */
    method Yield(ghost base: World, role: Role, named: Option<Named> := None)
      requires Valid() && Later(base, Now()) && Reserved(state, named)
      modifies this
      ensures Valid() && Later(base, Now()) && Reserved(state, named)
      ensures role == Pump ==> closing == old(closing) && streams == old(streams)
      ensures role == Starter ==> starting == old(starting)
      ensures old(history) <= history && mine == old(mine)
    {
      var turns: int := *;
      for turn := 0 to if turns < 0 then 0 else turns
        invariant Valid() && Later(base, Now()) && Reserved(state, named)
        invariant old(history) <= history && mine == old(mine)
        invariant role == Pump ==> closing == old(closing) && streams == old(streams)
        invariant role == Starter ==> starting == old(starting)
      {
        var action: Action := *;
        if !Belongs(role, action) && Enabled(Now(), action) && Respects(Now(), action, named) {
          OtherTask(base, action, role, named);
        }
      }
    }

    method OtherTask(ghost base: World, action: Action, ghost role: Role, ghost named: Option<Named>)
      requires Valid() && Later(base, Now()) && Enabled(Now(), action) && !Belongs(role, action)
      requires Reserved(state, named) && Respects(Now(), action, named)
      modifies this
      ensures Valid() && Later(base, Now()) && Reserved(state, named)
      ensures role == Pump ==> closing == old(closing) && streams == old(streams)
      ensures role == Starter ==> starting == old(starting)
      ensures old(history) <= history && mine == old(mine)
    {
      ghost var before := Now();
      LeftAlone(before, action, role, named);
      var next := Apply(Now(), action);
      Become(next);
      Happened(base, before, action);
    }

    method Become(next: World)
      modifies `state, `channels, `starting, `closing, `streams, `opening, `tainted
      ensures Now() == next
    {
      state, channels, starting, closing := next.state, next.channels, next.starting, next.closing;
      streams, opening, tainted := next.streams, next.opening, next.tainted;
    }

    // ----- The pump -----

    /** An event without a route goes to the start in progress, or else to one uncertain start, or nowhere. */
    method BufferHandshakeEvent(provider: Provider, event: Event) returns (ghost chosen: Option<Run>)
      modifies `state
      ensures ChoiceFits(old(state), provider, chosen)
      ensures state == Protocol.BufferHandshakeEvent(old(state), provider, event, chosen)
    {
      chosen := None;
      if state.startInProgress.Some? {
        if |state.pendingEvents| < CHANNEL_CAPACITY {
          state := state.(pendingEvents := state.pendingEvents + [(provider, event)]);
        } else {
          state := state.(pendingOverflow := true);
        }
        return;
      }
      var starts := state.uncertainStarts;
      if run :| run in starts && Takes(starts[run], provider) {
        chosen := Some(run);
        if |starts[run].events| < CHANNEL_CAPACITY {
          var added := starts[run].events + [(provider, event)];
          state := state.(uncertainStarts := starts[run := starts[run].(events := added)]);
        } else {
          state := state.(uncertainStarts := starts[run := starts[run].(overflow := true)]);
        }
        return;
      }
      var order, i := state.uncertainOrder, 0;
      assert order[0..] == order;
      while i < |order| && !(order[i] in starts && starts[order[i]].events == [])
        invariant 0 <= i <= |order|
        invariant FirstEmpty(order[i..], starts) == FirstEmpty(order, starts)
      {
        assert order[i..][1..] == order[i + 1..];
        i := i + 1;
      }
      if i < |order| {
        state := state.(uncertainStarts := starts[order[i] := starts[order[i]].(events := [(provider, event)])]);
      }
    }

    /** The pump's own lock section: push without waiting, and note a run that is to be closed. */
    method PushOrBuffer(ghost base: World, provider: Provider, event: Event)
      requires Valid() && Later(base, Now()) && closing == None
      modifies this
      ensures Valid() && Later(base, Now())
      ensures exists chosen ::
                && Enabled(old(Now()), Arrive(provider, event, chosen))
                && Now() == Apply(old(Now()), Arrive(provider, event, chosen))
                && mine == old(mine) + [Arrive(provider, event, chosen)]
    {
      if provider in state.routes {
        Push(base, provider, event);
      } else {
        Buffer(base, provider, event);
      }
    }

    method Buffer(ghost base: World, provider: Provider, event: Event)
      requires Valid() && Later(base, Now()) && closing == None && provider !in state.routes
      modifies this
      ensures Valid() && Later(base, Now())
      ensures exists chosen ::
                && Enabled(old(Now()), Arrive(provider, event, chosen))
                && Now() == Apply(old(Now()), Arrive(provider, event, chosen))
                && mine == old(mine) + [Arrive(provider, event, chosen)]
    {
      ghost var before := Now();
      streams := streams[provider := (if provider in streams then streams[provider] else []) + [event]];
      ghost var chosen := BufferHandshakeEvent(provider, event);
      Took(base, before, Arrive(provider, event, chosen));
    }

    method Push(ghost base: World, provider: Provider, event: Event)
      requires Valid() && Later(base, Now()) && closing == None && provider in state.routes
      modifies this
      ensures Valid() && Later(base, Now())
      ensures Enabled(old(Now()), Arrive(provider, event, None))
              && Now() == Apply(old(Now()), Arrive(provider, event, None))
      ensures mine == old(mine) + [Arrive(provider, event, None)]
    {
      ghost var before := Now();
      assert state.routes[provider] < |channels| by {
        Kept();
        assert RouteOk(before, provider);
      }
      streams := streams[provider := (if provider in streams then streams[provider] else []) + [event]];
      var full := TryPush(state.routes[provider], event);
      if full && provider in state.runsByProvider && state.runsByProvider[provider] in state.workItems {
        closing := Some(state.runsByProvider[provider]);
      }
      Took(base, before, Arrive(provider, event, None));
    }

    method TryPush(index: nat, event: Event) returns (full: bool)
      requires index < |channels|
      modifies `channels
      ensures channels == old(channels)[index := Offered(old(channels)[index], event)]
      ensures full <==> old(channels)[index].open && old(channels)[index].held >= CHANNEL_CAPACITY
    {
      var channel := channels[index];
      if channel.open && channel.held < CHANNEL_CAPACITY {
        channels := channels[index := channel.(pumped := channel.pumped + [event], held := channel.held + 1)];
        return false;
      }
      var unnoticed := channel.ignored || (channel.open && !channel.known);
      channels := channels[index := channel.(failed := true, ignored := unnoticed)];
      return channel.open;
    }

    /** Whether the pump's next push for this provider run will be refused for want of room, with a run to close. */
    predicate MustClose(provider: Provider)
      reads this
    {
      && provider in state.routes && state.routes[provider] < |channels|
      && channels[state.routes[provider]].open && channels[state.routes[provider]].held >= CHANNEL_CAPACITY
      && provider in state.runsByProvider && state.runsByProvider[provider] in state.workItems
    }

    /** One event of the pump. A full route is closed before the next event is looked at. */
    method RouteEvent(ghost base: World, provider: Provider, event: Event)
      requires Valid() && Later(base, Now()) && closing == None
      modifies this
      ensures Valid() && Later(base, Now()) && closing == None
      ensures Now().Stream(provider) == old(Now()).Stream(provider) + [event]
      ensures old(MustClose(provider)) ==> Gone(state, old(state).runsByProvider[provider])
      ensures exists chosen :: mine == old(mine) + [Arrive(provider, event, chosen)]
                                       + if old(MustClose(provider)) then [FinishOverflow] else []
    {
      PushOrBuffer(base, provider, event);
      assert closing == if old(MustClose(provider)) then Some(old(state).runsByProvider[provider]) else None;
      ghost var chosen :| mine == old(mine) + [Arrive(provider, event, chosen)];
      if closing.Some? {
        Yield(base, Pump);
        FinishClosing(base);
      } else {
        assert mine == old(mine) + [Arrive(provider, event, chosen)] + [];
      }
    }

    method FinishClosing(ghost base: World)
      requires Valid() && Later(base, Now()) && closing.Some?
      modifies `state, `closing, `history, `mine
      ensures Valid() && Later(base, Now()) && closing == None && Gone(state, old(closing).value)
      ensures mine == old(mine) + [FinishOverflow]
    {
      ghost var before := Now();
      CloseRun(closing.value);
      closing := None;
      Took(base, before, FinishOverflow);
    }

    /** The stream ended: every table is cleared, whatever is in flight. */
    method HandlePumpFailure(ghost base: World)
      requires Valid() && Later(base, Now()) && closing == None
      modifies this
      ensures Valid() && Later(base, Now()) && Now() == Apply(old(Now()), PumpFails) && state == EMPTY
      ensures mine == old(mine) + [PumpFails]
    {
      ghost var before := Now();
      state := state.(runs := map[], workItems := map[], runsByProvider := map[], routes := map[]);
      state := state.(pendingEvents := [], pendingOverflow := false, startInProgress := None);
      state := state.(uncertainStarts := map[], uncertainOrder := [], uncertainRuns := {});
      Took(base, before, PumpFails);
    }

    // ----- Sections shared by the other tasks -----

    method CloseRun(run: Run)
      modifies `state
      ensures state == Protocol.CloseRun(old(state), run)
    {
      var provider := if run in state.runs then Some(state.runs[run]) else None;
      if provider.Some? {
        state := state.(routes := Without(state.routes, provider.value),
                        runsByProvider := Without(state.runsByProvider, provider.value));
      }
      NotThere(state.runs, run);
      state := state.(runs := Without(state.runs, run), workItems := Without(state.workItems, run),
                      uncertainRuns := state.uncertainRuns - {run});
      state := state.(uncertainStarts := Without(state.uncertainStarts, run),
                      uncertainOrder := Excluding(state.uncertainOrder, run));
      if provider.Some? {
        state := state.(pendingEvents := Dropping(state.pendingEvents, provider.value));
      }
    }

    method Closed(ghost base: World, run: Run)
      requires Valid() && Later(base, Now())
      modifies `state, `history, `mine
      ensures Valid() && Later(base, Now()) && Now() == Apply(old(Now()), Close(run)) && Gone(state, run)
      ensures mine == old(mine) + [Close(run)] && old(history) <= history
    {
      ghost var before := Now();
      CloseRun(run);
      Took(base, before, Close(run));
    }

    /** A new channel is made and registered under the run's provider reference. */
    method PrepareRoute(ghost base: World, run: Run, item: Item, provider: Provider) returns (index: nat)
      requires Valid() && Later(base, Now()) && Unshared(state, run, provider)
      modifies `state, `channels, `tainted, `history, `mine
      ensures Valid() && Later(base, Now())
      ensures state == Register(old(state), run, provider, index).(
                         workItems := old(state).workItems[run := item],
                         uncertainRuns := old(state).uncertainRuns + {run})
      ensures channels == old(channels) + [NewChannel(old(Now()), run, provider, true)]
      ensures |old(channels)| == index < |channels| && IsFor(index, run, provider)
      ensures Unshared(state, run, provider)
      ensures mine == old(mine) + [Prepare(run, item, provider)] && old(history) <= history
    {
      ghost var before := Now();
      index := |channels|;
      channels := channels + [NewChannel(Now(), run, provider, true)];
      state := state.(runs := state.runs[run := provider], runsByProvider := state.runsByProvider[provider := run]);
      state := state.(workItems := state.workItems[run := item], routes := state.routes[provider := index]);
      state := state.(uncertainRuns := state.uncertainRuns + {run});
      tainted := tainted + {provider};
      Took(base, before, Prepare(run, item, provider));
    }

    method ActivateRoute(ghost base: World, run: Run)
      requires Valid() && Later(base, Now())
      modifies `state, `history, `mine
      ensures Valid() && Later(base, Now())
      ensures state == old(state).(uncertainRuns := old(state).uncertainRuns - {run})
      ensures mine == old(mine) + [Activate(run)] && old(history) <= history
    {
      ghost var before := Now();
      state := state.(uncertainRuns := state.uncertainRuns - {run});
      Took(base, before, Activate(run));
    }

    method RemoveRouteState(ghost base: World, run: Run, provider: Provider)
      requires Valid() && Later(base, Now()) && Unshared(state, run, provider)
      modifies `state, `history, `mine
      ensures Valid() && Later(base, Now()) && state == RemoveRoute(old(state), run, provider)
      ensures mine == old(mine) + [Remove(run, provider)] && old(history) <= history
    {
      ghost var before := Now();
      state := state.(
        routes := Without(state.routes, provider), runsByProvider := Without(state.runsByProvider, provider));
      state := state.(
        runs := Without(state.runs, run), workItems := Without(state.workItems, run),
        uncertainRuns := state.uncertainRuns - {run});
      Took(base, before, Remove(run, provider));
    }

    /** One buffered event is put on a channel, if there is room. */
    method TrySend(ghost base: World, index: nat, event: Event) returns (sent: bool)
      requires Valid() && Later(base, Now()) && index < |channels|
      modifies `channels, `history, `mine
      ensures Valid() && Later(base, Now()) && Now() == Apply(old(Now()), Protocol.HandOver(index, event))
      ensures sent ==> channels[index].handed == old(channels)[index].handed + [event]
      ensures !sent ==> channels == old(channels)
      ensures mine == old(mine) + [Protocol.HandOver(index, event)] && old(history) <= history
      ensures !sent ==> RefusedAt(history, |old(history)|, index)
    {
      ghost var before := Now();
      var channel := channels[index];
      sent := channel.open && channel.held < CHANNEL_CAPACITY;
      if sent {
        channels := channels[index := channel.(handed := channel.handed + [event], held := channel.held + 1)];
      }
      Took(base, before, Protocol.HandOver(index, event));
      assert history[..|old(history)|] == old(history);
    }

    /**
     Buffered events are handed over while the pump may already be pushing. The first `count` of them
     arrive, in order; if that is not all of them, the next one was refused by a full or closed channel.
     */
    method HandOver(ghost base: World, index: nat, events: seq<Event>) returns (count: nat)
      requires Valid() && Later(base, Now()) && index < |channels|
      modifies this
      ensures Valid() && Later(base, Now()) && index < |channels| && count <= |events|
      ensures Within(events[..count], HandedSince(channels[index], |old(channels)[index].handed|))
      ensures old(history) <= history && mine == old(mine) + Handing(index, Offering(events, count))
      ensures count < |events| ==> RefusedSince(history, |old(history)|, index)
    {
      count := 0;
      ghost var from := |channels[index].handed|;
      while count < |events|
        invariant count <= |events| && Valid() && Later(base, Now()) && index < |channels|
        invariant from <= |channels[index].handed| && Within(events[..count], HandedSince(channels[index], from))
        invariant old(history) <= history && mine == old(mine) + Handing(index, events[..count])
      {
        ghost var before := history;
        var sent := HandOne(base, index, events[..count], events[count], from);
        HandingMore(old(mine), index, events, count);
        if !sent {
          RefusedStill(history, history, |before|, index);
          return;
        }
        count := count + 1;
      }
      assert events[..count] == events;
    }

    lemma HandingMore(before: seq<Action>, index: nat, events: seq<Event>, count: nat)
      requires count < |events|
      ensures events[..count + 1] == events[..count] + [events[count]]
      ensures before + Handing(index, events[..count]) + [Protocol.HandOver(index, events[count])]
           == before + Handing(index, events[..count + 1])
    {
    }

    method HandOne(ghost base: World, index: nat, ghost part: seq<Event>, event: Event, ghost from: nat)
      returns (sent: bool)
      requires Valid() && Later(base, Now()) && index < |channels|
      requires from <= |channels[index].handed| && Within(part, HandedSince(channels[index], from))
      modifies this
      ensures Valid() && Later(base, Now()) && index < |channels| && from <= |channels[index].handed|
      ensures Within(if sent then part + [event] else part, HandedSince(channels[index], from))
      ensures old(history) <= history && mine == old(mine) + [Protocol.HandOver(index, event)]
      ensures !sent ==> RefusedSince(history, |old(history)|, index)
    {
      ghost var at := Now();
      Kept();
      Yield(at, Other);
      assert Successor(at.channels[index], channels[index]);
      HandedMore(at.channels[index], channels[index], from, part);
      ghost var before := channels[index];
      sent := TrySend(at, index, event);
      LaterTransitive(base, at, Now());
      if sent {
        HandedNext(before, channels[index], from, part, event);
      }
    }

    // ----- Starting a run -----

    /** A start whose outcome is unknown keeps its buffer, in place of the oldest if there are too many. */
    method RetainUnknownHandshake(run: Run)
      modifies `state
      ensures state == RetainUnknown(old(state), run)
    {
      var events, overflow := state.pendingEvents, state.pendingOverflow;
      state := state.(startInProgress := None, pendingEvents := [], pendingOverflow := false);
      if |state.uncertainStarts| >= MAX_UNCERTAIN && state.uncertainOrder != [] {
        var evicted := state.uncertainOrder[0];
        state := state.(uncertainOrder := state.uncertainOrder[1..],
                        uncertainStarts := Without(state.uncertainStarts, evicted));
      }
      state := state.(uncertainStarts := state.uncertainStarts[run := PendingStart(events, overflow)]);
      state := state.(uncertainOrder := state.uncertainOrder + [run], uncertainRuns := state.uncertainRuns + {run});
    }

    method BeginHandshake(ghost base: World, run: Run, item: Item)
      requires Valid() && Later(base, Now()) && starting == None
      requires run !in state.runs && run !in state.uncertainStarts
      modifies this
      ensures Valid() && Later(base, Now()) && starting == Some(run)
      ensures old(history) <= history && mine == old(mine) + [BeginStart(run, item), OpenHandshake]
    {
      ghost var before := Now();
      starting := Some(run);
      state := state.(workItems := state.workItems[run := item]);
      Took(base, before, BeginStart(run, item));
      Yield(base, Starter);
      ghost var idle := Now();
      state := state.(startInProgress := Some(run), pendingEvents := [], pendingOverflow := false);
      opening, tainted := streams, state.routes.Keys;
      Took(base, idle, OpenHandshake);
    }

    /**
     The run becomes routed. If the handshake is still open and did not overflow, and the run had no
     route since it opened, what was buffered for it is its whole stream since.
     */
    method BindRun(ghost base: World, provider: Provider) returns (started: Started)
      requires Valid() && Later(base, Now()) && starting.Some? && Unshared(state, starting.value, provider)
      modifies this
      ensures Valid() && Later(base, Now()) && starting == None
      ensures started.Bound? && started.provider == provider && started.channel == |old(channels)| < |channels|
      ensures channels[started.channel].run == old(starting).value && channels[started.channel].handed == []
      ensures channels[started.channel].provider == provider && !started.closed
      ensures old(history) <= history && mine == old(mine) + [Bind(provider)]
      ensures EndedSince(history, |old(history)|, Bind(provider), provider, started.buffered, started.overflow)
      ensures channels[started.channel].from == |Now().Stream(provider)|
      ensures old(state).startInProgress.Some? && provider !in old(tainted) && !started.overflow ==>
                old(Now()).Mark(provider) <= |Now().Stream(provider)|
                && started.buffered == Now().Stream(provider)[old(Now()).Mark(provider)..]
    {
      ghost var before := Now();
      BufferedWhole(provider);
      var run, index := starting.value, |channels|;
      started := Bound(provider, index, Of(state.pendingEvents, provider), state.pendingOverflow, false);
      channels := channels + [NewChannel(Now(), run, provider, run in state.workItems)];
      state := state.(runs := state.runs[run := provider], runsByProvider := state.runsByProvider[provider := run]);
      state := state.(
        routes := state.routes[provider := index],
        startInProgress := None, pendingEvents := [], pendingOverflow := false);
      starting := None;
      Took(base, before, Bind(provider));
      EndedNow(before, Bind(provider), provider, started.buffered, started.overflow);
    }

    lemma {:induction false} EndedNow(before: World, action: Action, provider: Provider, events: seq<Event>,
                                      overflow: bool)
      requires history != [] && history[|history| - 1] == action && Legal(FRESH, history[..|history| - 1])
      requires Replay(FRESH, history[..|history| - 1]) == before
      requires events == Of(before.state.pendingEvents, provider) && overflow == before.state.pendingOverflow
      ensures EndedSince(history, |history| - 1, action, provider, events, overflow)
    {
      assert EndedAt(history, |history| - 1, action, provider, events, overflow);
    }

    lemma {:induction false} BufferedWhole(provider: Provider)
      requires Valid()
      ensures state.startInProgress.Some? && provider !in tainted && !state.pendingOverflow ==>
                && Now().Mark(provider) <= |Now().Stream(provider)|
                && Of(state.pendingEvents, provider) == Now().Stream(provider)[Now().Mark(provider)..]
    {
      Kept();
      assert state.startInProgress.Some? && provider !in tainted ==> Intact(Now(), provider);
    }

    /** The handshake ends without a route; what it buffered for the run is taken out. */
    method TakeHandshake(ghost base: World, provider: Provider) returns (events: seq<Event>, overflow: bool)
      requires Valid() && Later(base, Now()) && starting.Some?
      modifies this
      ensures Valid() && Later(base, Now()) && starting == None
      ensures forall run :: Unshared(old(state), run, provider) ==> Unshared(state, run, provider)
      ensures events == Of(old(state).pendingEvents, provider) && overflow == old(state).pendingOverflow
      ensures old(history) <= history && mine == old(mine) + [StartUnbound]
      ensures EndedSince(history, |old(history)|, StartUnbound, provider, events, overflow)
    {
      ghost var before := Now();
      events, overflow := Of(state.pendingEvents, provider), state.pendingOverflow;
      state := state.(startInProgress := None, pendingEvents := [], pendingOverflow := false);
      starting := None;
      Took(base, before, StartUnbound);
      EndedNow(before, StartUnbound, provider, events, overflow);
    }

    method MarkInDoubt(ghost base: World, run: Run)
      requires Valid() && Later(base, Now())
      modifies `state, `history, `mine
      ensures Valid() && Later(base, Now()) && Now() == Apply(old(Now()), Doubt(run)) && run in state.uncertainRuns
      ensures old(history) <= history && mine == old(mine) + [Doubt(run)]
    {
      ghost var before := Now();
      state := state.(uncertainRuns := state.uncertainRuns + {run});
      Took(base, before, Doubt(run));
    }

    method RouteOf(provider: Provider) returns (index: Option<nat>)
      requires Valid()
      ensures index.Some? <==> provider in state.routes
      ensures index.Some? ==> index.value < |channels| && channels[index.value].provider == provider
    {
      if provider !in state.routes {
        return None;
      }
      Kept();
      assert RouteOk(Now(), provider);
      return Some(state.routes[provider]);
    }

    /** What the caller does for a start that the store did not bind. */
    static function Doubting(run: Run, item: Item, provider: Provider, found: bool, sends: seq<Action>, overflow: bool):
      seq<Action>
    {
      [StartUnbound] + (if found then [Prepare(run, item, provider), Activate(run)] else []) + sends
      + [Doubt(run)] + if overflow then [Close(run)] else []
    }

    /** The provider has the run but the store refused to bind it: attach it, in doubt, or close it. */
    method RetainUncertainStart(ghost base: World, item: Item, provider: Provider, found: bool)
      returns (ghost sends: seq<Action>)
      requires Valid() && Later(base, Now()) && starting.Some? && Unshared(state, starting.value, provider)
      modifies this
      ensures Valid() && Later(base, Now())
      ensures if old(state).pendingOverflow then Gone(state, old(starting).value)
              else old(starting).value in state.uncertainRuns
      ensures old(history) <= history
      ensures mine == old(mine) + Doubting(old(starting).value, item, provider, found, sends,
                                           old(state).pendingOverflow)
      ensures SentOn(history, |old(history)|, provider, Of(old(state).pendingEvents, provider), sends)
      ensures EndedSince(history, |old(history)|, StartUnbound, provider, Of(old(state).pendingEvents, provider),
                         old(state).pendingOverflow)
    {
      var run := starting.value;
      var events, overflow := TakeHandshake(base, provider);
      ghost var ended := history;
      Yield(base, Other, Some((run, provider)));
      ghost var taken := mine;
      AttachIfFound(base, run, item, provider, found);
      ghost var attached, from := mine, |history|;
      sends := SendInDoubt(base, run, provider, events, overflow);
      SentStill(history, history, from, |old(history)|, provider, events, sends);
      EndedStill(ended, history, |old(history)|, |old(history)|, StartUnbound, provider, events, overflow);
      DoubtingParts(old(mine), taken, attached, mine, run, item, provider, found, sends, overflow);
    }

    lemma DoubtingParts(before: seq<Action>, taken: seq<Action>, attached: seq<Action>, after: seq<Action>, run: Run,
                        item: Item, provider: Provider, found: bool, sends: seq<Action>, overflow: bool)
      requires taken == before + [StartUnbound]
      requires attached == taken + if found then [Prepare(run, item, provider), Activate(run)] else []
      requires after == attached + sends + [Doubt(run)] + if overflow then [Close(run)] else []
      ensures after == before + Doubting(run, item, provider, found, sends, overflow)
    {
    }

    method AttachIfFound(ghost base: World, run: Run, item: Item, provider: Provider, found: bool)
      requires Valid() && Later(base, Now()) && Unshared(state, run, provider)
      modifies this
      ensures Valid() && Later(base, Now()) && old(history) <= history
      ensures mine == old(mine) + if found then [Prepare(run, item, provider), Activate(run)] else []
    {
      if found {
        var index := AttachRoute(base, run, item, provider);
      } else {
        assert mine == old(mine) + [];
      }
    }

    method SendInDoubt(ghost base: World, run: Run, provider: Provider, events: seq<Event>, overflow: bool)
      returns (ghost sends: seq<Action>)
      requires Valid() && Later(base, Now())
      modifies this
      ensures Valid() && Later(base, Now()) && old(history) <= history
      ensures if overflow then Gone(state, run) else run in state.uncertainRuns
      ensures mine == old(mine) + sends + [Doubt(run)] + if overflow then [Close(run)] else []
      ensures SentOn(history, |old(history)|, provider, events, sends)
    {
      Yield(base, Other);
      ghost var from := |history|;
      sends := HandOverIfRouted(base, provider, events);
      ghost var sent := history;
      FinishInDoubt(base, run, overflow);
      SentStill(sent, history, from, |old(history)|, provider, events, sends);
    }

    method FinishInDoubt(ghost base: World, run: Run, overflow: bool)
      requires Valid() && Later(base, Now())
      modifies this
      ensures Valid() && Later(base, Now())
      ensures if overflow then Gone(state, run) else run in state.uncertainRuns
      ensures old(history) <= history && mine == old(mine) + [Doubt(run)] + if overflow then [Close(run)] else []
    {
      MarkInDoubt(base, run);
      if overflow {
        YieldThenClose(base, run);
      } else {
        assert mine == old(mine) + [Doubt(run)] + [];
      }
    }

    method AttachRoute(ghost base: World, run: Run, item: Item, provider: Provider) returns (index: nat)
      requires Valid() && Later(base, Now()) && Unshared(state, run, provider)
      modifies this
      ensures Valid() && Later(base, Now()) && run !in state.uncertainRuns
      ensures |old(channels)| == index < |channels| && IsFor(index, run, provider)
      ensures old(history) <= history && mine == old(mine) + [Prepare(run, item, provider), Activate(run)]
    {
      index := PrepareRoute(base, run, item, provider);
      YieldKeeping(base, index, run, provider);
      ActivateRoute(base, run);
    }

    /** Whose channel it is does not change. */
    method YieldKeeping(ghost base: World, ghost index: nat, ghost run: Run, ghost provider: Provider)
      requires Valid() && Later(base, Now()) && index < |channels| && IsFor(index, run, provider)
      modifies this
      ensures Valid() && Later(base, Now()) && index < |channels| && IsFor(index, run, provider)
      ensures old(history) <= history && mine == old(mine)
    {
      ghost var at := Now();
      Kept();
      Yield(at, Other);
      assert Successor(at.channels[index], channels[index]);
      LaterTransitive(base, at, Now());
    }

    /** A channel of this run, whose work item is known. */
    predicate IsFor(index: nat, run: Run, provider: Provider)
      requires index < |channels|
      reads `channels
    {
      channels[index].run == run && channels[index].provider == provider && channels[index].known
    }

    /** The events go to the route if there is one, up to the first refusal. */
    method HandOverIfRouted(ghost base: World, provider: Provider, events: seq<Event>)
      returns (ghost sends: seq<Action>)
      requires Valid() && Later(base, Now())
      modifies this
      ensures Valid() && Later(base, Now())
      ensures provider !in old(state).routes ==> Now() == old(Now())
      ensures old(history) <= history && mine == old(mine) + sends
      ensures SentOn(history, |old(history)|, provider, events, sends)
    {
      sends := [];
      var route := RouteOf(provider);
      if route.Some? {
        var count := HandOver(base, route.value, events);
        sends := Handing(route.value, Offering(events, count));
        assert SentTo(history, |old(history)|, events, sends, route.value, count);
      } else {
        assert history[..|history|] == history && UnroutedAt(history, |history|, provider);
        assert mine == old(mine) + [];
      }
    }

    method YieldThenClose(ghost base: World, run: Run)
      requires Valid() && Later(base, Now())
      modifies this
      ensures Valid() && Later(base, Now()) && Gone(state, run)
      ensures old(history) <= history && mine == old(mine) + [Close(run)]
    {
      Yield(base, Other);
      Closed(base, run);
    }

    /** The run is the newest uncertain start and in doubt, and keeps exactly what its handshake had buffered. */
    ghost predicate KeptStart(run: Run, from: nat)
      reads `state, `history
    {
      && run in state.uncertainStarts && run in state.uncertainRuns
      && state.uncertainOrder != [] && state.uncertainOrder[|state.uncertainOrder| - 1] == run
      && exists k :: from <= k < |history|
           && LeftAt(history, k, state.uncertainStarts[run].events, state.uncertainStarts[run].overflow)
    }

    method StartUnanswered(ghost base: World, run: Run)
      requires Valid() && Later(base, Now()) && starting == Some(run)
      modifies this
      ensures Valid() && Later(base, Now()) && Now() == Apply(old(Now()), StartUnknown)
      ensures old(history) <= history && mine == old(mine) + [StartUnknown]
      ensures KeptStart(run, |old(history)|)
    {
      ghost var before := Now();
      RetainUnknownHandshake(run);
      starting := None;
      Took(base, before, StartUnknown);
      assert history[..|old(history)|] == old(history);
      assert LeftAt(history, |old(history)|, before.state.pendingEvents, before.state.pendingOverflow);
    }

    method StartRefused(ghost base: World, run: Run)
      requires Valid() && Later(base, Now()) && starting == Some(run)
      modifies this
      ensures Valid() && Later(base, Now()) && Gone(state, run)
      ensures old(history) <= history && mine == old(mine) + [RefuseStart, Close(run)]
    {
      ghost var before := Now();
      state := state.(startInProgress := None, pendingEvents := [], pendingOverflow := false);
      starting := None;
      Took(base, before, RefuseStart);
      YieldThenClose(base, run);
    }

    /**
     A whole start, whatever the other tasks do at each of its awaits, and whatever reference the
     provider gives the run, as long as it is not another live run's. A refused run is gone; an
     unanswered one is the newest uncertain start; an accepted one that the store binds has a channel
     of its own on which all that was buffered for it arrives in order, and is closed only if its
     handshake overflowed or the channel refused an event; one that the store does not bind is in doubt,
     or gone. `did` is what the caller did.
     */
    method StartRun(ghost base: World, run: Run, item: Item, outcome: StartOutcome, found: bool)
      returns (started: Started, ghost did: seq<Action>)
      requires Valid() && Later(base, Now()) && starting == None
      requires run !in state.runs && run !in state.uncertainStarts
      modifies this
      ensures Valid() && Later(base, Now())
      ensures mine == old(mine) + [BeginStart(run, item), OpenHandshake] + did
      ensures match outcome
              case Refused => started == NotStarted && Gone(state, run) && did == [RefuseStart, Close(run)]
              case Unanswered =>
                started == OutcomeUnknown && did == [StartUnknown] && KeptStart(run, |old(history)|)
              case Accepted(bound) =>
                if bound then started.Bound? && WellBound(run, started, |old(history)|) && DidBind(run, started, did)
                else started == OutcomeUnknown && WellDoubted(run, item, found, did, |old(history)|)
    {
      BeginHandshake(base, run, item);
      Yield(base, Starter);
      match outcome {
        case Unanswered =>
          StartUnanswered(base, run);
          return OutcomeUnknown, [StartUnknown];
        case Refused =>
          StartRefused(base, run);
          return NotStarted, [RefuseStart, Close(run)];
        case Accepted(bound) =>
          ghost var from := |history|;
          started, did := StartAccepted(base, item, bound, found);
          if bound {
            WellBoundSince(run, started, |old(history)|, from);
          } else {
            WellDoubtedSince(run, item, found, did, |old(history)|, from);
          }
      }
    }

    /** Binding, the sends up to the first refusal, and the closing if there was one. */
    static predicate DidBind(run: Run, started: Started, did: seq<Action>)
      requires started.Bound?
    {
      exists count :: 0 <= count <= |started.buffered| && did == Binding(run, started, count)
    }

    static function Binding(run: Run, started: Started, count: nat): seq<Action>
      requires started.Bound? && count <= |started.buffered|
    {
      [Bind(started.provider)]
      + (if started.overflow then [] else Handing(started.channel, Offering(started.buffered, count)))
      + if started.closed then [Close(run)] else []
    }

    lemma WellBoundSince(run: Run, started: Started, from: nat, later: nat)
      requires started.Bound? && WellBound(run, started, later) && from <= later
      ensures WellBound(run, started, from)
    {
      EndedStill(history, history, later, from, Bind(started.provider), started.provider, started.buffered,
                 started.overflow);
      WellHandedSince(run, started, from, later);
    }

    lemma WellHandedSince(run: Run, started: Started, from: nat, later: nat)
      requires started.Bound? && WellHanded(run, started, later) && from <= later
      ensures WellHanded(run, started, from)
    {
      if started.closed && !started.overflow {
        RefusedStill(history, history, later, started.channel);
      }
    }

    /**
     A start that the store did not bind: what its handshake had buffered was sent to its route, if it
     had one; the run is in doubt, or gone if the handshake had overflowed.
     */
    ghost predicate WellDoubted(run: Run, item: Item, found: bool, did: seq<Action>, from: nat)
      reads `state, `history
    {
      exists provider, events, overflow, sends ::
        DoubtedWith(run, item, found, did, from, provider, events, overflow, sends)
    }

    ghost predicate DoubtedWith(run: Run, item: Item, found: bool, did: seq<Action>, from: nat, provider: Provider,
                                events: seq<Event>, overflow: bool, sends: seq<Action>)
      reads `state, `history
    {
      && EndedSince(history, from, StartUnbound, provider, events, overflow)
      && SentOn(history, from, provider, events, sends)
      && did == Doubting(run, item, provider, found, sends, overflow)
      && if overflow then Gone(state, run) else run in state.uncertainRuns
    }

    lemma WellDoubtedSince(run: Run, item: Item, found: bool, did: seq<Action>, from: nat, later: nat)
      requires WellDoubted(run, item, found, did, later) && from <= later
      ensures WellDoubted(run, item, found, did, from)
    {
      var provider, events, overflow, sends :|
        DoubtedWith(run, item, found, did, later, provider, events, overflow, sends);
      EndedStill(history, history, later, from, StartUnbound, provider, events, overflow);
      SentStill(history, history, later, from, provider, events, sends);
      assert DoubtedWith(run, item, found, did, from, provider, events, overflow, sends);
    }

    /** The provider has the run and says under which reference. */
    method StartAccepted(ghost base: World, item: Item, bound: bool, found: bool)
      returns (started: Started, ghost did: seq<Action>)
      requires Valid() && Later(base, Now()) && starting.Some?
      modifies this
      ensures Valid() && Later(base, Now()) && old(history) <= history && mine == old(mine) + did
      ensures var run := old(starting).value;
              if bound then started.Bound? && WellBound(run, started, |old(history)|) && DidBind(run, started, did)
              else started == OutcomeUnknown && WellDoubted(run, item, found, did, |old(history)|)
    {
      ghost var unshared := UnsharedNow(starting.value);
      var run := starting.value;
      var provider: Provider :| Unshared(state, run, provider);
      Yield(base, Starter, Some((run, provider)));
      ghost var from := |history|;
      if !bound {
        did := LeftInDoubt(base, item, provider, found);
        WellDoubtedSince(run, item, found, did, |old(history)|, from);
        return OutcomeUnknown, did;
      }
      started, did := BindAndFinish(base, provider);
      WellBoundSince(run, started, |old(history)|, from);
    }

    method LeftInDoubt(ghost base: World, item: Item, provider: Provider, found: bool) returns (ghost did: seq<Action>)
      requires Valid() && Later(base, Now()) && starting.Some? && Unshared(state, starting.value, provider)
      modifies this
      ensures Valid() && Later(base, Now()) && old(history) <= history && mine == old(mine) + did
      ensures WellDoubted(old(starting).value, item, found, did, |old(history)|)
    {
      ghost var run, events, overflow := starting.value, Of(state.pendingEvents, provider), state.pendingOverflow;
      ghost var sends := RetainUncertainStart(base, item, provider, found);
      did := Doubting(run, item, provider, found, sends, overflow);
      assert DoubtedWith(run, item, found, did, |old(history)|, provider, events, overflow, sends);
    }

    method BindAndFinish(ghost base: World, provider: Provider) returns (started: Started, ghost did: seq<Action>)
      requires Valid() && Later(base, Now()) && starting.Some? && Unshared(state, starting.value, provider)
      modifies this
      ensures Valid() && Later(base, Now()) && old(history) <= history && mine == old(mine) + did
      ensures started.Bound? && WellBound(old(starting).value, started, |old(history)|)
      ensures DidBind(old(starting).value, started, did)
    {
      var run := starting.value;
      var bound := BindRun(base, provider);
      ghost var from, count := |history|, 0;
      ghost var ended, done := history, mine;
      started, count := FinishBinding(base, run, bound);
      did := Binding(run, started, count);
      BindingParts(old(mine), done, mine, run, started, count);
      EndedStill(ended, history, |old(history)|, |old(history)|, Bind(provider), provider, bound.buffered,
                 bound.overflow);
      WellHandedSince(run, started, |old(history)|, from);
    }

    lemma BindingParts(before: seq<Action>, bound: seq<Action>, after: seq<Action>, run: Run, started: Started,
                       count: nat)
      requires started.Bound? && count <= |started.buffered| && bound == before + [Bind(started.provider)]
      requires after == bound
                        + (if started.overflow then [] else Handing(started.channel, Offering(started.buffered, count)))
                        + if started.closed then [Close(run)] else []
      ensures after == before + Binding(run, started, count) && DidBind(run, started, Binding(run, started, count))
    {
    }

    lemma UnsharedNow(run: Run) returns (provider: Provider)
      requires Valid()
      ensures Unshared(state, run, provider)
    {
      Kept();
      provider := SomeUnshared(state, run);
    }

    /** The run has its own channel and what its handshake had buffered was handed over, since `from`. */
    ghost predicate WellBound(run: Run, started: Started, from: nat)
      reads `state, `channels, `history
      requires started.Bound?
    {
      && EndedSince(history, from, Bind(started.provider), started.provider, started.buffered, started.overflow)
      && WellHanded(run, started, from)
    }

    /**
     What was buffered for the bound run arrived; or the run was closed, because its handshake had
     overflowed or its channel refused an event.
     */
    ghost predicate WellHanded(run: Run, started: Started, from: nat)
      reads `state, `channels, `history
      requires started.Bound?
    {
      && started.channel < |channels|
      && channels[started.channel].run == run && channels[started.channel].provider == started.provider
      && (if started.closed then Gone(state, run) && (started.overflow || RefusedSince(history, from, started.channel))
          else !started.overflow && Within(started.buffered, channels[started.channel].handed))
    }

    /** The hand-over after binding runs without the lock, beside the pump. */
    method FinishBinding(ghost base: World, run: Run, bound: Started) returns (started: Started, ghost count: nat)
      requires Valid() && Later(base, Now()) && bound.Bound? && bound.channel < |channels| && !bound.closed
      requires channels[bound.channel].run == run && channels[bound.channel].provider == bound.provider
      modifies this
      ensures Valid() && Later(base, Now()) && old(history) <= history
      ensures started.Bound? && started == bound.(closed := started.closed)
      ensures WellHanded(run, started, |old(history)|)
      ensures count <= |bound.buffered|
      ensures mine == old(mine)
                      + (if bound.overflow then [] else Handing(bound.channel, Offering(bound.buffered, count)))
                      + if started.closed then [Close(run)] else []
    {
      ghost var at := Now();
      Kept();
      count := 0;
      var complete := false;
      if !bound.overflow {
        complete, count := HandOverAll(at, bound.channel, bound.buffered);
      }
      ghost var handed := mine;
      ghost var sent := history;
      if complete {
        assert handed + [] == handed;
      } else {
        YieldThenClose(at, run);
        if !bound.overflow {
          RefusedStill(sent, history, |old(history)|, bound.channel);
        }
      }
      started := bound.(closed := !complete);
      LaterTransitive(base, at, Now());
      assert Successor(at.channels[bound.channel], channels[bound.channel]);
    }

    // ----- Reattaching a run -----

    /** What was kept for the run's uncertain start, if anything; it is kept no longer. */
    method TakeUncertainStart(ghost base: World, run: Run) returns (pending: Option<PendingStart>)
      requires Valid() && Later(base, Now())
      modifies `state, `history, `mine
      ensures Valid() && Later(base, Now()) && Now() == Apply(old(Now()), TakeUncertain(run))
      ensures TakenSince(history, |old(history)|, run, pending)
      ensures old(history) <= history && mine == old(mine) + [TakeUncertain(run)]
    {
      ghost var before := Now();
      pending := if run in state.uncertainStarts then Some(state.uncertainStarts[run]) else None;
      state := state.(uncertainOrder := Excluding(state.uncertainOrder, run),
                      uncertainStarts := Without(state.uncertainStarts, run));
      Took(base, before, TakeUncertain(run));
      assert history[..|old(history)|] == old(history) && TakenAt(history, |old(history)|, run, pending);
    }

    /**
     What was kept for an uncertain start arrived, all of it and in order, on a channel of its provider
     run; or the run was closed, because its handshake had overflowed, or there was no route, or the
     channel refused an event.
     */
    ghost predicate WellDelivered(run: Run, provider: Provider, delivery: Delivery, sends: seq<Action>, from: nat)
      reads `state, `channels, `history
    {
      match delivery
      case NothingKept => sends == [] && TakenSince(history, from, run, None)
      case Delivered(pending, index) =>
        && TakenSince(history, from, run, Some(pending)) && !pending.overflow
        && index < |channels| && channels[index].provider == provider
        && Within(Of(pending.events, provider), channels[index].handed)
        && sends == Handing(index, Of(pending.events, provider))
      case Dropped(pending) =>
        && TakenSince(history, from, run, Some(pending)) && Gone(state, run)
        && if pending.overflow then sends == [] else CutOn(history, from, provider, Of(pending.events, provider), sends)
    }

    /**
     What was kept for a start of unknown outcome is delivered now that its provider run is known.
     `sends` are the caller's own tries.
     */
    method DeliverUncertainStartEvents(ghost base: World, run: Run, provider: Provider)
      returns (delivery: Delivery, ghost sends: seq<Action>)
      requires Valid() && Later(base, Now())
      modifies this
      ensures Valid() && Later(base, Now()) && old(history) <= history
      ensures WellDelivered(run, provider, delivery, sends, |old(history)|)
      ensures mine == old(mine) + [TakeUncertain(run)] + sends + if delivery.Dropped? then [Close(run)] else []
    {
      var pending := TakeUncertainStart(base, run);
      ghost var taken := history;
      if pending == None {
        assert mine == old(mine) + [TakeUncertain(run)] + [] + [];
        return NothingKept, [];
      }
      delivery, sends := DeliverPending(base, run, provider, pending.value);
      TakenStill(taken, history, |old(history)|, |old(history)|, run, pending);
      if delivery.Dropped? && !pending.value.overflow {
        CutStill(history, history, |taken|, |old(history)|, provider, Of(pending.value.events, provider), sends);
      }
    }

    method DeliverPending(ghost base: World, run: Run, provider: Provider, pending: PendingStart)
      returns (delivery: Delivery, ghost sends: seq<Action>)
      requires Valid() && Later(base, Now())
      modifies this
      ensures Valid() && Later(base, Now()) && old(history) <= history
      ensures mine == old(mine) + sends + if delivery.Dropped? then [Close(run)] else []
      ensures match delivery
              case NothingKept => false
              case Delivered(of, index) =>
                && of == pending && !pending.overflow
                && index < |channels| && channels[index].provider == provider
                && Within(Of(pending.events, provider), channels[index].handed)
                && sends == Handing(index, Of(pending.events, provider))
              case Dropped(of) =>
                && of == pending && Gone(state, run)
                && if pending.overflow then sends == []
                   else CutOn(history, |old(history)|, provider, Of(pending.events, provider), sends)
    {
      Yield(base, Other);
      sends := [];
      var events := Of(pending.events, provider);
      ghost var start := |history|;
      if !pending.overflow {
        var index;
        index, sends := SendKept(base, provider, events);
        if index.Some? {
          assert mine == old(mine) + sends + [];
          return Delivered(pending, index.value), sends;
        }
      }
      ghost var from := history;
      YieldThenClose(base, run);
      if !pending.overflow {
        CutStill(from, history, start, |old(history)|, provider, events, sends);
      }
      return Dropped(pending), sends;
    }

    /** The channel on which all the events arrived, if they did. */
    method SendKept(ghost base: World, provider: Provider, events: seq<Event>)
      returns (index: Option<nat>, ghost sends: seq<Action>)
      requires Valid() && Later(base, Now())
      modifies this
      ensures Valid() && Later(base, Now()) && old(history) <= history && mine == old(mine) + sends
      ensures index.Some? ==>
                && index.value < |channels| && channels[index.value].provider == provider
                && Within(events, channels[index.value].handed) && sends == Handing(index.value, events)
      ensures index == None ==> CutOn(history, |old(history)|, provider, events, sends)
    {
      var route := RouteOf(provider);
      if route == None {
        assert history[..|history|] == history && UnroutedAt(history, |history|, provider);
        assert mine == old(mine) + [];
        return None, [];
      }
      var complete, count := HandOverAll(base, route.value, events);
      sends := Handing(route.value, Offering(events, count));
      if complete {
        assert Offering(events, count) == events;
        return route, sends;
      }
      assert SentTo(history, |old(history)|, events, sends, route.value, count);
      return None, sends;
    }

    method HandOverAll(ghost base: World, index: nat, events: seq<Event>) returns (complete: bool, ghost count: nat)
      requires Valid() && Later(base, Now()) && index < |channels|
      modifies this
      ensures Valid() && Later(base, Now()) && index < |channels|
              && channels[index].provider == old(channels)[index].provider
      ensures complete ==> Within(events, channels[index].handed)
      ensures old(history) <= history && count <= |events| && (complete <==> count == |events|)
      ensures mine == old(mine) + Handing(index, Offering(events, count))
      ensures !complete ==> RefusedSince(history, |old(history)|, index)
    {
      ghost var at := Now();
      Kept();
      var taken := HandOver(at, index, events);
      HandedAtAll(channels[index], |old(channels)[index].handed|, events[..taken]);
      complete, count := taken == |events|, taken;
      assert complete ==> events[..taken] == events;
      LaterTransitive(base, at, Now());
      assert Successor(at.channels[index], channels[index]);
    }

    /**
     A run that is attached already is only relieved of doubt. Otherwise it gets a channel of its own,
     on which what was kept of its start arrives; a failure on the way undoes its route. `did` is what
     the caller did.
     */
    method ReattachRun(ghost base: World, run: Run, item: Item, provider: Provider, loaded: bool, transitioned: bool)
      returns (attached: bool, channel: Option<nat>, ghost did: seq<Action>)
      requires Valid() && Later(base, Now())
      requires run in state.runs || Unshared(state, run, provider)
      modifies this
      ensures Valid() && Later(base, Now()) && old(history) <= history && mine == old(mine) + did
      ensures attached <==> run in old(state).runs || (loaded && transitioned)
      ensures run in old(state).runs ==> run !in state.uncertainRuns && did == [Activate(run)]
      ensures channel.Some? <==> attached && run !in old(state).runs
      ensures channel.Some? ==> |old(channels)| <= channel.value < |channels| && IsFor(channel.value, run, provider)
      ensures channel.Some? ==> WellAttached(run, item, provider, did, |old(history)|)
      ensures !attached && loaded ==>
                run !in state.runs && did == [Prepare(run, item, provider), Remove(run, provider)]
      ensures !attached && !loaded ==> did == []
    {
      if run in state.runs {
        Yield(base, Other);
        ActivateRoute(base, run);
        return true, None, [Activate(run)];
      }
      ghost var at := Now();
      Kept();
      Yield(at, Other, Some((run, provider)));
      LaterTransitive(base, at, Now());
      if !loaded {
        assert mine == old(mine) + [];
        return false, None, [];
      }
      if !transitioned {
        PrepareInVain(base, run, item, provider);
        return false, None, [Prepare(run, item, provider), Remove(run, provider)];
      }
      var index;
      ghost var from := |history|;
      index, did := AttachAndDeliver(base, run, item, provider);
      WellAttachedSince(run, item, provider, did, |old(history)|, from);
      return true, Some(index), did;
    }

    /** Registering and activating, and then the delivery of what was kept of the run's start. */
    ghost predicate WellAttached(run: Run, item: Item, provider: Provider, did: seq<Action>, from: nat)
      reads `state, `channels, `history
    {
      exists delivery, sends ::
        && WellDelivered(run, provider, delivery, sends, from)
        && did == Attaching(run, item, provider, sends, delivery.Dropped?)
    }

    static function Attaching(run: Run, item: Item, provider: Provider, sends: seq<Action>, closed: bool): seq<Action> {
      [Prepare(run, item, provider), Activate(run), TakeUncertain(run)] + sends + if closed then [Close(run)] else []
    }

    lemma WellDeliveredSince(run: Run, provider: Provider, delivery: Delivery, sends: seq<Action>, from: nat,
                             later: nat)
      requires WellDelivered(run, provider, delivery, sends, later) && from <= later
      ensures WellDelivered(run, provider, delivery, sends, from)
    {
      match delivery {
        case NothingKept => TakenStill(history, history, later, from, run, None);
        case Delivered(pending, _) => TakenStill(history, history, later, from, run, Some(pending));
        case Dropped(pending) =>
          TakenStill(history, history, later, from, run, Some(pending));
          if !pending.overflow {
            CutStill(history, history, later, from, provider, Of(pending.events, provider), sends);
          }
      }
    }

    lemma WellAttachedSince(run: Run, item: Item, provider: Provider, did: seq<Action>, from: nat, later: nat)
      requires WellAttached(run, item, provider, did, later) && from <= later
      ensures WellAttached(run, item, provider, did, from)
    {
      var delivery, sends :|
        && WellDelivered(run, provider, delivery, sends, later)
        && did == Attaching(run, item, provider, sends, delivery.Dropped?);
      WellDeliveredSince(run, provider, delivery, sends, from, later);
    }

    method AttachAndDeliver(ghost base: World, run: Run, item: Item, provider: Provider)
      returns (index: nat, ghost did: seq<Action>)
      requires Valid() && Later(base, Now()) && Unshared(state, run, provider)
      modifies this
      ensures Valid() && Later(base, Now()) && old(history) <= history && mine == old(mine) + did
      ensures |old(channels)| == index < |channels| && IsFor(index, run, provider)
      ensures WellAttached(run, item, provider, did, |old(history)|)
    {
      index := AttachRoute(base, run, item, provider);
      ghost var attached, from, done := Now(), |history|, mine;
      Kept();
      ghost var delivery, sends := YieldAndDeliver(attached, run, provider);
      did := Attaching(run, item, provider, sends, delivery.Dropped?);
      AttachingParts(old(mine), done, mine, run, item, provider, sends, delivery.Dropped?);
      WellAttachedBy(run, item, provider, delivery, sends, |old(history)|, from);
      assert Successor(attached.channels[index], channels[index]);
      LaterTransitive(base, attached, Now());
    }

    lemma WellAttachedBy(run: Run, item: Item, provider: Provider, delivery: Delivery, sends: seq<Action>, from: nat,
                         later: nat)
      requires WellDelivered(run, provider, delivery, sends, later) && from <= later
      ensures WellAttached(run, item, provider, Attaching(run, item, provider, sends, delivery.Dropped?), from)
    {
      WellDeliveredSince(run, provider, delivery, sends, from, later);
    }

    lemma AttachingParts(before: seq<Action>, attached: seq<Action>, after: seq<Action>, run: Run, item: Item,
                         provider: Provider, sends: seq<Action>, closed: bool)
      requires attached == before + [Prepare(run, item, provider), Activate(run)]
      requires after == attached + [TakeUncertain(run)] + sends + if closed then [Close(run)] else []
      ensures after == before + Attaching(run, item, provider, sends, closed)
    {
    }

    method YieldAndDeliver(ghost base: World, run: Run, provider: Provider)
      returns (ghost delivery: Delivery, ghost sends: seq<Action>)
      requires Valid() && Later(base, Now())
      modifies this
      ensures Valid() && Later(base, Now()) && old(history) <= history
      ensures WellDelivered(run, provider, delivery, sends, |old(history)|)
      ensures mine == old(mine) + [TakeUncertain(run)] + sends + if delivery.Dropped? then [Close(run)] else []
    {
      Yield(base, Other);
      ghost var from := |history|;
      var made;
      made, sends := DeliverUncertainStartEvents(base, run, provider);
      delivery := made;
      WellDeliveredSince(run, provider, delivery, sends, |old(history)|, from);
    }

    /** The store refuses the run that was prepared: its route is removed again. */
    method PrepareInVain(ghost base: World, run: Run, item: Item, provider: Provider)
      requires Valid() && Later(base, Now()) && Unshared(state, run, provider)
      modifies this
      ensures Valid() && Later(base, Now()) && run !in state.runs && old(history) <= history
      ensures mine == old(mine) + [Prepare(run, item, provider), Remove(run, provider)]
    {
      var index := PrepareRoute(base, run, item, provider);
      Yield(base, Other, Some((run, provider)));
      RemoveRouteState(base, run, provider);
    }
  }

  lemma NotThere<K, V>(m: map<K, V>, key: K)
    ensures key !in m ==> Without(m, key) == m
  {
  }
}
