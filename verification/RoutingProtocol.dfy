/**
 How the run supervisor routes one multiplexed event stream to per-run channels. Each action is
 one section of code that runs under the supervisor's lock, or one operation on a channel; tasks
 interleave freely between them. There is one pump, and starts hold the start lock.
 */
module RoutingProtocol {
  import opened Common
  import Runs

  datatype Run = Run(number: nat)
  datatype Provider = Provider(number: nat)
  datatype Item = Item(number: nat)
  datatype Event = Event(number: nat)

  type Buffered = seq<(Provider, Event)>

  const CHANNEL_CAPACITY := 64
  const MAX_UNCERTAIN := 64

  datatype PendingStart = PendingStart(events: Buffered, overflow: bool)

  datatype State = State(
    routes: map<Provider, nat>,
    pendingEvents: Buffered,
    pendingOverflow: bool,
    startInProgress: Option<Run>,
    uncertainStarts: map<Run, PendingStart>,
    uncertainOrder: seq<Run>,
    runs: map<Run, Provider>,
    runsByProvider: map<Provider, Run>,
    workItems: map<Run, Item>,
    uncertainRuns: set<Run>)

  /**
   A bounded channel to one run's consumer. `pumped` is what the pump pushed on it, `handed` what
   was handed over from a handshake. `from` is the length of its provider's stream when it was
   registered, and `known` whether its run then had a work item. `failed` says that a push of the
   pump was refused, `ignored` that it was refused and nothing was done about it.
   */
  datatype Channel = Channel(
    provider: Provider, run: Run, from: nat, known: bool,
    pumped: seq<Event>, handed: seq<Event>, held: nat, open: bool, failed: bool, ignored: bool)

  /**
   `starting` is the start that is in flight and `closing` the run that the pump is about to close.
   `opening` is what the streams were when the present handshake opened, and `tainted` holds the
   provider runs that had a route at any time since.
   */
  datatype World = World(
    state: State,
    channels: seq<Channel>,
    streams: map<Provider, seq<Event>>,
    starting: Option<Run>,
    closing: Option<Run>,
    opening: map<Provider, seq<Event>>,
    tainted: set<Provider>)
  {
    function Stream(provider: Provider): seq<Event> {
      if provider in streams then streams[provider] else []
    }

    /** How long the provider run's stream was when the present handshake opened. */
    function Mark(provider: Provider): nat {
      if provider in opening then |opening[provider]| else 0
    }
  }

  const EMPTY := State(map[], [], false, None, map[], [], map[], map[], map[], {})

  const FRESH := World(EMPTY, [], map[], None, None, map[], {})

  // ----- Buffers -----

  function Of(events: Buffered, provider: Provider): seq<Event> {
    if events == [] then []
    else
      var rest := Of(events[..|events| - 1], provider);
      var last := events[|events| - 1];
      if last.0 == provider then rest + [last.1] else rest
  }

  predicate Holds(events: Buffered, provider: Provider) {
    exists i :: 0 <= i < |events| && events[i].0 == provider
  }

  function Dropping(events: Buffered, provider: Provider): (left: Buffered)
    ensures |left| <= |events|
    ensures !Holds(left, provider)
  {
    if events == [] then []
    else
      var rest := Dropping(events[..|events| - 1], provider);
      var last := events[|events| - 1];
      if last.0 == provider then rest else rest + [last]
  }

  lemma {:induction false} DroppingOthers(events: Buffered, provider: Provider, other: Provider)
    requires other != provider
    ensures Of(Dropping(events, provider), other) == Of(events, other)
  {
    if events != [] {
      var rest, last := events[..|events| - 1], events[|events| - 1];
      DroppingOthers(rest, provider, other);
      if last.0 != provider {
        var left := Dropping(rest, provider);
        assert (left + [last])[..|left|] == left;
      }
    }
  }

  lemma {:induction false} OfAppend(events: Buffered, provider: Provider, event: Event, other: Provider)
    ensures Of(events + [(provider, event)], other) == Of(events, other) + if provider == other then [event] else []
  {
  }

  function Excluding(order: seq<Run>, run: Run): (left: seq<Run>)
    ensures forall other :: other in left <==> other in order && other != run
    ensures |left| <= |order|
  {
    if order == [] then []
    else
      var rest := Excluding(order[1..], run);
      if order[0] == run then rest else [order[0]] + rest
  }

  predicate Distinct<T(==)>(list: seq<T>) {
    forall i, j :: 0 <= i < j < |list| ==> list[i] != list[j]
  }

  lemma {:induction false} ExcludingDistinct(order: seq<Run>, run: Run)
    requires Distinct(order)
    ensures Distinct(Excluding(order, run))
    ensures run in order ==> |Excluding(order, run)| == |order| - 1
    ensures run !in order ==> Excluding(order, run) == order
  {
    if order != [] {
      assert forall i :: 0 <= i < |order[1..]| ==> order[1..][i] == order[i + 1];
      ExcludingDistinct(order[1..], run);
      assert order == [order[0]] + order[1..];
      forall other | other in Excluding(order[1..], run) ensures other != order[0] {
        var j :| 0 <= j < |order[1..]| && order[1..][j] == other;
        assert order[j + 1] == other;
      }
      var rest := Excluding(order[1..], run);
      assert forall i :: 0 <= i < |rest| ==> rest[i] in rest;
    }
  }

  /** The oldest uncertain start that has no events yet. */
  function FirstEmpty(order: seq<Run>, starts: map<Run, PendingStart>): (found: Option<Run>)
    ensures found.Some? ==> found.value in starts && starts[found.value].events == []
  {
    if order == [] then None
    else if order[0] in starts && starts[order[0]].events == [] then Some(order[0])
    else FirstEmpty(order[1..], starts)
  }

  // ----- The sections that run under the lock -----

  predicate Takes(start: PendingStart, provider: Provider) { Holds(start.events, provider) }

  /** With no start in progress, `chosen` is whichever uncertain start with events of the run the search meets first. */
  predicate ChoiceFits(state: State, provider: Provider, chosen: Option<Run>) {
    state.startInProgress == None ==> SearchFinds(state, provider, chosen)
  }

  predicate SearchFinds(state: State, provider: Provider, chosen: Option<Run>) {
    match chosen
    case Some(run) => run in state.uncertainStarts && Takes(state.uncertainStarts[run], provider)
    case None => forall run :: run in state.uncertainStarts ==> !Takes(state.uncertainStarts[run], provider)
  }

  function AddTo(start: PendingStart, provider: Provider, event: Event): PendingStart {
    if |start.events| < CHANNEL_CAPACITY then start.(events := start.events + [(provider, event)])
    else start.(overflow := true)
  }

  /** With no start in progress, an event goes to one uncertain start, or nowhere. */
  function Spread(state: State, provider: Provider, event: Event, chosen: Option<Run>): map<Run, PendingStart>
    requires SearchFinds(state, provider, chosen)
  {
    var starts := state.uncertainStarts;
    if chosen.Some? then starts[chosen.value := AddTo(starts[chosen.value], provider, event)]
    else
      match FirstEmpty(state.uncertainOrder, starts)
      case Some(run) => starts[run := starts[run].(events := [(provider, event)])]
      case None => starts
  }

  function BufferHandshakeEvent(state: State, provider: Provider, event: Event, chosen: Option<Run>): State
    requires ChoiceFits(state, provider, chosen)
  {
    var inProgress := state.startInProgress.Some?;
    var added := AddTo(PendingStart(state.pendingEvents, state.pendingOverflow), provider, event);
    state.(
      pendingEvents := if inProgress then added.events else state.pendingEvents,
      pendingOverflow := if inProgress then added.overflow else state.pendingOverflow,
      uncertainStarts := if inProgress then state.uncertainStarts else Spread(state, provider, event, chosen))
  }

  function EndHandshake(state: State): State {
    state.(startInProgress := None, pendingEvents := [], pendingOverflow := false)
  }

  function Evicted(state: State): State {
    if |state.uncertainStarts| >= MAX_UNCERTAIN && state.uncertainOrder != [] then
      state.(
        uncertainStarts := Without(state.uncertainStarts, state.uncertainOrder[0]),
        uncertainOrder := state.uncertainOrder[1..])
    else state
  }

  function RetainUnknown(state: State, run: Run): State {
    var kept := Evicted(state);
    EndHandshake(kept).(
      uncertainStarts := kept.uncertainStarts[run := PendingStart(state.pendingEvents, state.pendingOverflow)],
      uncertainOrder := kept.uncertainOrder + [run],
      uncertainRuns := kept.uncertainRuns + {run})
  }

  function Register(state: State, run: Run, provider: Provider, channel: nat): State {
    state.(
      runs := state.runs[run := provider],
      runsByProvider := state.runsByProvider[provider := run],
      routes := state.routes[provider := channel])
  }

  function ForgetUncertain(state: State, run: Run): State {
    state.(uncertainStarts := Without(state.uncertainStarts, run),
           uncertainOrder := Excluding(state.uncertainOrder, run))
  }

  function RemoveRoute(state: State, run: Run, provider: Provider): State {
    state.(
      routes := Without(state.routes, provider),
      runsByProvider := Without(state.runsByProvider, provider),
      runs := Without(state.runs, run),
      workItems := Without(state.workItems, run),
      uncertainRuns := state.uncertainRuns - {run})
  }

  function CloseRun(state: State, run: Run): State {
    var forgotten := ForgetUncertain(state, run);
    if run in state.runs then
      RemoveRoute(forgotten, run, state.runs[run]).(pendingEvents := Dropping(state.pendingEvents, state.runs[run]))
    else
      forgotten.(workItems := Without(state.workItems, run), uncertainRuns := state.uncertainRuns - {run})
  }

  // ----- Channels -----

  function NewChannel(world: World, run: Run, provider: Provider, known: bool): Channel {
    Channel(provider, run, |world.Stream(provider)|, known, [], [], 0, true, false, false)
  }

  /** The pump offers an event. */
  function Offered(channel: Channel, event: Event): Channel {
    if channel.open && channel.held < CHANNEL_CAPACITY then
      channel.(pumped := channel.pumped + [event], held := channel.held + 1)
    else
      channel.(failed := true, ignored := channel.ignored || (channel.open && !channel.known))
  }

  // ----- Actions -----

  datatype Action =
    | BeginStart(run: Run, item: Item)
    | OpenHandshake
    | RefuseStart
    | StartUnknown
    | StartUnbound
    | Bind(provider: Provider)
    | Arrive(provider: Provider, event: Event, chosen: Option<Run>)
    | FinishOverflow
    | PumpFails
    | Close(run: Run)
    | Prepare(run: Run, item: Item, provider: Provider)
    | Activate(run: Run)
    | Remove(run: Run, provider: Provider)
    | Doubt(run: Run)
    | TakeUncertain(run: Run)
    | HandOver(channel: nat, event: Event)
    | Receive(channel: nat)
    | DropReceiver(channel: nat)

  /** No other live run has this provider reference, and this run has no other. */
  predicate Unshared(state: State, run: Run, provider: Provider) {
    && (run in state.runs ==> state.runs[run] == provider)
    && (provider in state.runsByProvider ==> state.runsByProvider[provider] == run)
  }

  /**
   What the code's own order of steps guarantees when a section is entered; and that a reference is
   not shared by two live runs, which the provider has to see to.
   */
  predicate Enabled(world: World, action: Action) {
    match action
    case BeginStart(run, _) =>
      world.starting == None && run !in world.state.runs && run !in world.state.uncertainStarts
    case OpenHandshake => world.starting.Some?
    case RefuseStart => world.starting.Some?
    case StartUnknown => world.starting.Some?
    case StartUnbound => world.starting.Some?
    case Bind(provider) => world.starting.Some? && Unshared(world.state, world.starting.value, provider)
    case Arrive(provider, _, chosen) =>
      world.closing == None && (provider in world.state.routes || ChoiceFits(world.state, provider, chosen))
    case FinishOverflow => world.closing.Some?
    case PumpFails => world.closing == None
    case Prepare(run, _, provider) => Unshared(world.state, run, provider)
    case Remove(run, provider) => Unshared(world.state, run, provider)
    case HandOver(channel, _) => channel < |world.channels|
    case Receive(channel) => channel < |world.channels| && world.channels[channel].held > 0
    case DropReceiver(channel) => channel < |world.channels|
    case _ => true
  }

  /** The pump's section: push on the route, or buffer. A full channel of a run with a work item is closed next. */
  function Arrived(world: World, provider: Provider, event: Event, chosen: Option<Run>): World
    requires provider in world.state.routes || ChoiceFits(world.state, provider, chosen)
  {
    var state := world.state;
    var seen := world.(streams := world.streams[provider := world.Stream(provider) + [event]]);
    if provider in state.routes then
      var index := state.routes[provider];
      if index >= |world.channels| then seen
      else
        var channel := world.channels[index];
        var full := channel.open && channel.held >= CHANNEL_CAPACITY;
        seen.(
          channels := world.channels[index := Offered(channel, event)],
          closing := if full && provider in state.runsByProvider && state.runsByProvider[provider] in state.workItems
                     then Some(state.runsByProvider[provider]) else None)
    else seen.(state := BufferHandshakeEvent(state, provider, event, chosen))
  }

  function Apply(world: World, action: Action): World
    requires Enabled(world, action)
  {
    var state := world.state;
    match action
    case BeginStart(run, item) =>
      world.(state := state.(workItems := state.workItems[run := item]), starting := Some(run))
    case OpenHandshake =>
      world.(
        state := EndHandshake(state).(startInProgress := world.starting),
        opening := world.streams, tainted := state.routes.Keys)
    case RefuseStart => world.(state := EndHandshake(state), starting := None)
    case StartUnknown => world.(state := RetainUnknown(state, world.starting.value), starting := None)
    case StartUnbound => world.(state := EndHandshake(state), starting := None)
    case Bind(provider) =>
      var run := world.starting.value;
      world.(
        state := EndHandshake(Register(state, run, provider, |world.channels|)),
        channels := world.channels + [NewChannel(world, run, provider, run in state.workItems)],
        starting := None)
    case Arrive(provider, event, chosen) => Arrived(world, provider, event, chosen)
    case FinishOverflow => world.(state := CloseRun(state, world.closing.value), closing := None)
    case PumpFails => world.(state := EMPTY)
    case Close(run) => world.(state := CloseRun(state, run))
    case Prepare(run, item, provider) =>
      world.(
        state := Register(state, run, provider, |world.channels|).(
          workItems := state.workItems[run := item], uncertainRuns := state.uncertainRuns + {run}),
        channels := world.channels + [NewChannel(world, run, provider, true)],
        tainted := world.tainted + {provider})
    case Activate(run) => world.(state := state.(uncertainRuns := state.uncertainRuns - {run}))
    case Remove(run, provider) => world.(state := RemoveRoute(state, run, provider))
    case Doubt(run) => world.(state := state.(uncertainRuns := state.uncertainRuns + {run}))
    case TakeUncertain(run) => world.(state := ForgetUncertain(state, run))
    case HandOver(index, event) =>
      var channel := world.channels[index];
      if channel.open && channel.held < CHANNEL_CAPACITY then
        var taken := channel.(handed := channel.handed + [event], held := channel.held + 1);
        world.(channels := world.channels[index := taken])
      else world
    case Receive(index) =>
      world.(channels := world.channels[index := world.channels[index].(held := world.channels[index].held - 1)])
    case DropReceiver(index) =>
      world.(channels := world.channels[index := world.channels[index].(open := false)])
  }

  function Step(world: World, action: Action): Option<World> {
    if Enabled(world, action) then Some(Apply(world, action)) else None
  }

  ghost predicate Legal(world: World, history: seq<Action>) { Runs.Legal(Step, world, history) }

  ghost function Replay(world: World, history: seq<Action>): World
    requires Legal(world, history)
  {
    Runs.Replay(Step, world, history)
  }
}
