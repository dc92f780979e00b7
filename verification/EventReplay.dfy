/**
 The desktop harness: events of a run that is not registered yet are kept, and replayed once it is.
 There is one consumer; registrations and arrivals may happen between any two of its steps.
 */
module EventReplay {
  import opened Common
  import Runs

  datatype Native = Native(number: nat)

  /** An event of the provider; `number` tells apart events that are otherwise alike. */
  datatype Event = Event(number: nat, run: Option<Native>, terminal: bool)

  const PENDING_CAPACITY := 128

  /** Where the consumer is: about to look at the replay queue, found it empty, found room, or holding an event. */
  datatype Stage = Top | Checked | Room

  /**
   `given` is every event that ever reached the channel and `consumed` every event that was
   converted; a conversion delivers its event or, if its run is not registered, refuses it.
   */
  datatype World = World(
    channel: seq<Event>,
    hand: Option<Event>,
    pending: seq<Event>,
    replay: seq<Event>,
    registered: set<Native>,
    permit: bool,
    stage: Stage,
    given: seq<Event>,
    consumed: seq<Event>,
    delivered: seq<Event>,
    refused: seq<Event>)

  const INITIAL := World([], None, [], [], {}, false, Top, [], [], [], [])

  function Of(events: seq<Event>, run: Option<Native>): seq<Event> {
    if events == [] then []
    else
      var rest, last := Of(events[..|events| - 1], run), events[|events| - 1];
      if last.run == run then rest + [last] else rest
  }

  function Others(events: seq<Event>, run: Option<Native>): seq<Event> {
    if events == [] then []
    else
      var rest, last := Others(events[..|events| - 1], run), events[|events| - 1];
      if last.run == run then rest else rest + [last]
  }

  function Hand(world: World): seq<Event> {
    if world.hand.Some? then [world.hand.value] else []
  }

  predicate Convertible(world: World, event: Event) {
    event.run.Some? ==> event.run.value in world.registered
  }

  /** Conversion; a terminal retires its run. */
  function Converted(world: World, event: Event): World {
    var consumed := world.(consumed := world.consumed + [event]);
    if !Convertible(world, event) then consumed.(refused := world.refused + [event])
    else
      consumed.(
        delivered := world.delivered + [event],
        registered := if event.terminal && event.run.Some? then world.registered - {event.run.value}
                      else world.registered)
  }

  datatype Action =
    | Arrive(event: Event)
    | Register(run: Native)
    | PopReplay
    | FindEmpty
    | Wake
    | GiveUp
    | FindRoom
    | Receive
    | Classify

  predicate Enabled(world: World, action: Action) {
    match action
    case Arrive(_) => true
    case Register(_) => true
    case PopReplay => world.hand == None && world.stage == Top && world.replay != []
    case FindEmpty => world.hand == None && world.stage == Top && world.replay == []
    case Wake => world.hand == None && world.stage != Top && world.permit
    case GiveUp => world.hand == None
    case FindRoom => world.hand == None && world.stage == Checked && |world.pending| < PENDING_CAPACITY
    case Receive => world.hand == None && world.stage == Room && !world.permit && world.channel != []
    case Classify => world.hand.Some?
  }

  function Apply(world: World, action: Action): World
    requires Enabled(world, action)
  {
    match action
    case Arrive(event) => world.(channel := world.channel + [event], given := world.given + [event])
    case Register(run) =>
      world.(
        registered := world.registered + {run},
        pending := Others(world.pending, Some(run)),
        replay := world.replay + Of(world.pending, Some(run)),
        permit := world.permit || Of(world.pending, Some(run)) != [])
    case PopReplay => Converted(world.(replay := world.replay[1..]), world.replay[0])
    case FindEmpty => world.(stage := Checked)
    case Wake => world.(permit := false, stage := Top)
    case GiveUp => world.(stage := Top)
    case FindRoom => world.(stage := Room)
    case Receive => world.(channel := world.channel[1..], hand := Some(world.channel[0]))
    case Classify =>
      var event := world.hand.value;
      var free := world.(hand := None, stage := Top);
      if Convertible(world, event) then Converted(free, event) else free.(pending := world.pending + [event])
  }

  function Step(world: World, action: Action): Option<World> {
    if Enabled(world, action) then Some(Apply(world, action)) else None
  }

  ghost predicate Legal(world: World, history: seq<Action>) { Runs.Legal(Step, world, history) }

  ghost function Replay(world: World, history: seq<Action>): World
    requires Legal(world, history)
  {
    Runs.Replay(Step, world, history)
  }

  // ----- Runs of events -----

  lemma {:induction false} OfAppend(events: seq<Event>, event: Event, run: Option<Native>)
    ensures Of(events + [event], run) == if event.run == run then Of(events, run) + [event] else Of(events, run)
    ensures Others(events + [event], run) ==
              if event.run == run then Others(events, run) else Others(events, run) + [event]
  {
  }

  lemma {:induction false} OfConcat(first: seq<Event>, second: seq<Event>, run: Option<Native>)
    ensures Of(first + second, run) == Of(first, run) + Of(second, run)
  {
    if second == [] {
      assert first + second == first;
    } else {
      var rest, last := second[..|second| - 1], second[|second| - 1];
      assert first + second == (first + rest) + [last];
      OfConcat(first, rest, run);
      OfAppend(first + rest, last, run);
    }
  }

  lemma {:induction false} OfOf(events: seq<Event>, moved: Option<Native>, run: Option<Native>)
    ensures Of(Of(events, moved), run) == if moved == run then Of(events, run) else []
    ensures Of(Others(events, moved), run) == if moved == run then [] else Of(events, run)
  {
    if events != [] {
      var rest, last := events[..|events| - 1], events[|events| - 1];
      OfOf(rest, moved, run);
      OfAppend(Of(rest, moved), last, run);
      OfAppend(Others(rest, moved), last, run);
    }
  }

  lemma {:induction false} OfAbsent(events: seq<Event>, run: Option<Native>)
    ensures Of(events, run) == [] <==> forall event <- events :: event.run != run
  {
    if events != [] {
      var rest, last := events[..|events| - 1], events[|events| - 1];
      OfAbsent(rest, run);
      assert events == rest + [last];
    }
  }

  lemma {:induction false} Partition(events: seq<Event>, run: Option<Native>)
    ensures multiset(events) == multiset(Of(events, run)) + multiset(Others(events, run))
    ensures |Others(events, run)| <= |events|
    ensures forall event <- Others(events, run) :: event in events && event.run != run
  {
    if events != [] {
      var rest, last := events[..|events| - 1], events[|events| - 1];
      Partition(rest, run);
      assert events == rest + [last];
    }
  }

  // ----- Where events are -----

  /** Every event that has reached the harness, from where it is oldest to where it is newest. */
  function All(world: World): seq<Event> {
    world.consumed + world.replay + world.pending + Hand(world) + world.channel
  }

  /** Each event given is in exactly one place. */
  ghost predicate Conserved(world: World) {
    && multiset(All(world)) == multiset(world.given)
    && ConsumedAgrees(world)
  }

  /** The events of a run are, place by place, in the order in which they were given. */
  predicate InOrder(world: World, run: Option<Native>) { Of(All(world), run) == Of(world.given, run) }

  /** No event of a registered run is still pending, so none is stranded there. */
  predicate NoneStranded(world: World) {
    forall event <- world.pending :: event.run.Some? && event.run.value !in world.registered
  }

  /** An event put in the replay queue after the consumer looked wakes the consumer. */
  predicate WillWake(world: World) {
    world.stage != Top && world.hand == None && world.replay != [] ==> world.permit
  }

  predicate Bounded(world: World) {
    && |world.pending| <= PENDING_CAPACITY
    && (world.stage == Room ==> |world.pending| < PENDING_CAPACITY)
    && (world.hand.Some? ==> world.stage == Room)
  }

  ghost predicate Invariant(world: World) {
    Conserved(world) && NoneStranded(world) && WillWake(world) && Bounded(world)
  }

  /** Moving the oldest event on leaves the line as it was. */
  lemma AllMove(world: World, action: Action)
    requires Enabled(world, action) && !action.Arrive? && !action.Register? && !action.Classify?
    ensures All(Apply(world, action)) == All(world)
  {
  }

  lemma AllArrive(world: World, event: Event)
    ensures All(Apply(world, Arrive(event))) == All(world) + [event]
  {
  }

  lemma AllKept(world: World)
    requires world.hand.Some? && !Convertible(world, world.hand.value)
    ensures All(Apply(world, Classify)) == All(world)
  {
  }

  lemma AllTaken(world: World)
    requires world.hand.Some? && Convertible(world, world.hand.value)
    ensures var event := world.hand.value;
            && All(world) == world.consumed + (world.replay + world.pending + [event]) + world.channel
            && All(Apply(world, Classify))
                 == world.consumed + ([event] + (world.replay + world.pending)) + world.channel
  {
  }

  lemma {:induction false} AllRegister(world: World, run: Native)
    ensures var moved, kept := Of(world.pending, Some(run)), Others(world.pending, Some(run));
            && All(world) == (world.consumed + world.replay) + world.pending + (Hand(world) + world.channel)
            && All(Apply(world, Register(run)))
                 == (world.consumed + world.replay) + (moved + kept) + (Hand(world) + world.channel)
  {
    var moved, kept := Of(world.pending, Some(run)), Others(world.pending, Some(run));
    assert world.consumed + (world.replay + moved) + kept == (world.consumed + world.replay) + (moved + kept);
    Regroup(world.consumed + world.replay + world.pending, Hand(world), world.channel);
    Regroup((world.consumed + world.replay) + (moved + kept), Hand(world), world.channel);
  }

  lemma Regroup(a: seq<Event>, b: seq<Event>, c: seq<Event>)
    ensures a + b + c == a + (b + c)
  {
  }

  // ----- Conservation, in every interleaving -----

  lemma MultisetMiddle(before: seq<Event>, a: seq<Event>, b: seq<Event>, rest: seq<Event>)
    requires multiset(a) == multiset(b)
    ensures multiset(before + a + rest) == multiset(before + b + rest)
  {
  }

  lemma MultisetSwap(a: seq<Event>, b: seq<Event>)
    ensures multiset(a + b) == multiset(b + a) == multiset(a) + multiset(b)
  {
  }

  predicate ConsumedAgrees(world: World) {
    multiset(world.consumed) == multiset(world.delivered) + multiset(world.refused)
  }

  lemma ConvertedAgrees(world: World, event: Event)
    requires ConsumedAgrees(world)
    ensures ConsumedAgrees(Converted(world, event))
  {
  }

  lemma ConsumedStep(world: World, action: Action)
    requires ConsumedAgrees(world) && Enabled(world, action)
    ensures ConsumedAgrees(Apply(world, action))
  {
    match action {
      case PopReplay => ConvertedAgrees(world.(replay := world.replay[1..]), world.replay[0]);
      case Classify => ConvertedAgrees(world.(hand := None, stage := Top), world.hand.value);
      case _ =>
    }
  }

  lemma AllStep(world: World, action: Action)
    requires Enabled(world, action)
    ensures multiset(All(Apply(world, action)))
              == multiset(All(world)) + if action.Arrive? then multiset{action.event} else multiset{}
  {
    match action {
      case Arrive(event) => AllArrive(world, event);
      case Register(run) => AllStepRegister(world, run);
      case Classify =>
        if Convertible(world, world.hand.value) {
          AllStepTaken(world);
        } else {
          AllKept(world);
        }
      case _ => AllMove(world, action);
    }
  }

  lemma AllStepRegister(world: World, run: Native)
    ensures multiset(All(Apply(world, Register(run)))) == multiset(All(world))
  {
    var moved, kept := Of(world.pending, Some(run)), Others(world.pending, Some(run));
    AllRegister(world, run);
    Partition(world.pending, Some(run));
    MultisetSwap(moved, kept);
    MultisetMiddle(world.consumed + world.replay, world.pending, moved + kept, Hand(world) + world.channel);
  }

  lemma AllStepTaken(world: World)
    requires world.hand.Some? && Convertible(world, world.hand.value)
    ensures multiset(All(Apply(world, Classify))) == multiset(All(world))
  {
    var ahead, event := world.replay + world.pending, world.hand.value;
    AllTaken(world);
    MultisetSwap(ahead, [event]);
    MultisetMiddle(world.consumed, ahead + [event], [event] + ahead, world.channel);
  }

  lemma ConservedStep(world: World, action: Action)
    requires Conserved(world) && Enabled(world, action)
    ensures Conserved(Apply(world, action))
  {
    ConsumedStep(world, action);
    AllStep(world, action);
    GivenStep(world, action);
  }

  lemma GivenStep(world: World, action: Action)
    requires Enabled(world, action)
    ensures multiset(Apply(world, action).given)
              == multiset(world.given) + if action.Arrive? then multiset{action.event} else multiset{}
  {
  }

  lemma PlacesStep(world: World, action: Action)
    requires NoneStranded(world) && WillWake(world) && Bounded(world) && Enabled(world, action)
    ensures var after := Apply(world, action); NoneStranded(after) && WillWake(after) && Bounded(after)
  {
    if action.Register? {
      Partition(world.pending, Some(action.run));
    }
  }

  lemma InvariantStep(world: World, action: Action)
    requires Invariant(world) && Enabled(world, action)
    ensures Invariant(Apply(world, action))
  {
    ConservedStep(world, action);
    PlacesStep(world, action);
  }

  lemma InvariantReplay(world: World, history: seq<Action>)
    requires Invariant(world) && Legal(world, history)
    ensures Invariant(Replay(world, history))
  {
    forall w: World, a | Invariant(w) && Step(w, a).Some? ensures Invariant(Step(w, a).value) {
      InvariantStep(w, a);
    }
    Runs.ReplayKeeps(Step, Invariant, world, history);
  }

  /**
   Every event given to the harness is in exactly one place, for every interleaving of registrations
   and arrivals with the consumer; never more than 128 wait for a registration.
   */
  lemma ReplayConserves(history: seq<Action>)
    requires Legal(INITIAL, history)
    ensures var world := Replay(INITIAL, history);
            && multiset(world.given) == multiset(world.channel) + multiset(Hand(world)) + multiset(world.pending)
                                      + multiset(world.replay) + multiset(world.delivered) + multiset(world.refused)
            && |world.pending| <= PENDING_CAPACITY && NoneStranded(world) && WillWake(world)
  {
    InvariantReplay(INITIAL, history);
    var world := Replay(INITIAL, history);
    assert multiset(All(world)) == multiset(world.consumed) + multiset(world.replay) + multiset(world.pending)
                                 + multiset(Hand(world)) + multiset(world.channel);
  }

  // ----- Order, per run -----

  lemma {:induction false} OfMiddle(before: seq<Event>, middle: seq<Event>, rest: seq<Event>, run: Option<Native>)
    ensures Of(before + middle + rest, run) == Of(before, run) + Of(middle, run) + Of(rest, run)
  {
    OfConcat(before, middle, run);
    OfConcat(before + middle, rest, run);
  }

  lemma RegisterInOrder(world: World, moved: Native, run: Option<Native>)
    requires InOrder(world, run)
    ensures InOrder(Apply(world, Register(moved)), run)
  {
    var first, second := Of(world.pending, Some(moved)), Others(world.pending, Some(moved));
    AllRegister(world, moved);
    OfMiddle(world.consumed + world.replay, world.pending, Hand(world) + world.channel, run);
    OfMiddle(world.consumed + world.replay, first + second, Hand(world) + world.channel, run);
    OfConcat(first, second, run);
    OfOf(world.pending, Some(moved), run);
    assert Of(first, run) + Of(second, run) == Of(world.pending, run);
  }

  /** Every step but classifying keeps the order of every run; registration does too. */
  lemma StepInOrder(world: World, action: Action, run: Option<Native>)
    requires InOrder(world, run) && Enabled(world, action) && !action.Classify?
    ensures InOrder(Apply(world, action), run)
  {
    match action {
      case Arrive(event) =>
        AllArrive(world, event);
        OfAppend(All(world), event, run);
        OfAppend(world.given, event, run);
      case Register(moved) => RegisterInOrder(world, moved, run);
      case _ => AllMove(world, action);
    }
  }

  /**
   The exact condition. Classifying the event in hand keeps its run's order if, and only if, it goes
   to the pending queue or overtakes nothing in the replay queue but copies of itself. Something can
   be there only if a registration slipped in between receiving the event and classifying it.
   */
  lemma {:induction false} ClassifyInOrder(world: World, run: Option<Native>)
    requires Invariant(world) && InOrder(world, run) && world.hand.Some?
    ensures InOrder(Apply(world, Classify), run) <==>
              || world.hand.value.run != run
              || !Convertible(world, world.hand.value)
              || forall event <- Of(world.replay, run) :: event == world.hand.value
  {
    var event := world.hand.value;
    if !Convertible(world, event) {
      AllKept(world);
    } else if event.run == run {
      Overtaking(world);
      SwapSame(Of(world.consumed, run), Of(world.replay, run), event, Of(world.channel, run));
    } else {
      Passing(world, run);
    }
  }

  /** An event that is delivered at once overtakes whatever the replay queue holds of its run. */
  lemma Overtaking(world: World)
    requires NoneStranded(world) && world.hand.Some? && Convertible(world, world.hand.value)
    ensures var event := world.hand.value;
            var before, queue, rest := Of(world.consumed, event.run), Of(world.replay, event.run),
              Of(world.channel, event.run);
            && Of(All(world), event.run) == before + (queue + [event]) + rest
            && Of(All(Apply(world, Classify)), event.run) == before + ([event] + queue) + rest
  {
    var event, ahead := world.hand.value, world.replay + world.pending;
    AllTaken(world);
    OfMiddle(world.consumed, ahead + [event], world.channel, event.run);
    OfMiddle(world.consumed, [event] + ahead, world.channel, event.run);
    OfAppend(ahead, event, event.run);
    OfConcat([event], ahead, event.run);
    OfAppend([], event, event.run);
    assert [] + [event] == [event];
    OfConcat(world.replay, world.pending, event.run);
    OfAbsent(world.pending, event.run);
    assert Of(world.replay, event.run) + [] == Of(world.replay, event.run);
  }

  lemma {:induction false} Passing(world: World, run: Option<Native>)
    requires world.hand.Some? && Convertible(world, world.hand.value) && world.hand.value.run != run
    ensures Of(All(Apply(world, Classify)), run) == Of(All(world), run)
  {
    var event, ahead := world.hand.value, world.replay + world.pending;
    AllTaken(world);
    OfMiddle(world.consumed, ahead + [event], world.channel, run);
    OfMiddle(world.consumed, [event] + ahead, world.channel, run);
    OfAppend(ahead, event, run);
    OfConcat([event], ahead, run);
    OfAppend([], event, run);
    assert [] + [event] == [event];
    assert [] + Of(ahead, run) == Of(ahead, run);
  }

  lemma SwapSame(before: seq<Event>, queue: seq<Event>, event: Event, rest: seq<Event>)
    ensures (before + ([event] + queue) + rest == before + (queue + [event]) + rest)
            <==> forall other <- queue :: other == event
  {
    if forall other <- queue :: other == event {
      Copies(queue, event);
    }
    if before + ([event] + queue) + rest == before + (queue + [event]) + rest {
      Middle(before, [event] + queue, queue + [event], rest);
      Constant(queue, event);
    }
  }

  lemma {:induction false} Copies(queue: seq<Event>, event: Event)
    requires forall other <- queue :: other == event
    ensures [event] + queue == queue + [event]
  {
    if queue != [] {
      assert queue[0] in queue && queue == [event] + queue[1..];
      assert forall other <- queue[1..] :: other in queue;
      Copies(queue[1..], event);
      assert [event] + queue[1..] + [event] == [event] + (queue[1..] + [event]);
    }
  }

  lemma Middle(before: seq<Event>, a: seq<Event>, b: seq<Event>, rest: seq<Event>)
    requires before + a + rest == before + b + rest && |a| == |b|
    ensures a == b
  {
    assert a == (before + a + rest)[|before|..|before| + |a|];
    assert b == (before + b + rest)[|before|..|before| + |b|];
  }

  lemma Constant(queue: seq<Event>, event: Event)
    requires [event] + queue == queue + [event]
    ensures forall other <- queue :: other == event
  {
    var i := 0;
    while i < |queue|
      invariant 0 <= i <= |queue|
      invariant forall j :: 0 <= j < i ==> queue[j] == event
    {
      assert ([event] + queue)[i] == (queue + [event])[i];
      i := i + 1;
    }
  }

  // ----- When receiving and classifying are one step -----

  /** No registration falls between receiving an event and classifying it. */
  ghost predicate Calm(world: World, history: seq<Action>)
    requires Legal(world, history)
    decreases |history|
  {
    history == [] || ((history[0].Register? ==> world.hand == None) && Calm(Apply(world, history[0]), history[1..]))
  }

  /** Nothing of a run is given after its terminal. */
  ghost predicate EndsOnce(given: seq<Event>) {
    forall run: Native :: LastOnly(Of(given, Some(run)))
  }

  predicate LastOnly(line: seq<Event>) {
    forall i :: 0 <= i < |line| - 1 ==> !line[i].terminal
  }

  /** What holds besides when registrations keep out of the consumer's way. */
  ghost predicate Orderly(world: World) {
    && (forall run :: InOrder(world, run))
    && (world.hand.Some? ==> world.replay == [])
    && (forall event <- world.replay :: event.run.Some? && event.run.value in world.registered)
    && world.refused == [] && world.delivered == world.consumed
  }

  lemma OrderlyLine(world: World, action: Action, run: Option<Native>)
    requires Invariant(world) && Orderly(world) && Enabled(world, action) && (action.Register? ==> world.hand == None)
    ensures InOrder(Apply(world, action), run)
  {
    assert InOrder(world, run);
    if action.Classify? {
      ClassifyInOrder(world, run);
    } else {
      StepInOrder(world, action, run);
    }
  }

  /** The last event of a run leaves none of it in the replay queue. */
  lemma NothingAfterTerminal(world: World)
    requires Orderly(world) && EndsOnce(world.given) && world.replay != [] && world.replay[0].terminal
             && world.replay[0].run.Some?
    ensures forall event <- world.replay[1..] :: event.run != world.replay[0].run
  {
    var last, rest := world.replay[0], world.replay[1..];
    var run := last.run;
    assert InOrder(world, run);
    var tail := world.pending + Hand(world) + world.channel;
    assert All(world) == world.consumed + ([last] + rest) + tail by {
      assert world.replay == [last] + rest;
    }
    OfMiddle(world.consumed, [last] + rest, tail, run);
    OfConcat([last], rest, run);
    OfAppend([], last, run);
    assert [] + [last] == [last];
    var line := Of(world.given, Some(run.value));
    assert line == Of(world.consumed, run) + ([last] + Of(rest, run)) + Of(tail, run);
    assert LastOnly(line) && line[|Of(world.consumed, run)|] == last;
    assert |line| == |Of(world.consumed, run)| + 1 + |Of(rest, run)| + |Of(tail, run)|;
    OfAbsent(rest, run);
  }

  lemma OrderlyStep(world: World, action: Action)
    requires Invariant(world) && Orderly(world) && EndsOnce(world.given)
    requires Enabled(world, action) && (action.Register? ==> world.hand == None)
    ensures Orderly(Apply(world, action))
  {
    forall run ensures InOrder(Apply(world, action), run) {
      OrderlyLine(world, action, run);
    }
    if action.PopReplay? {
      assert world.replay[0] in world.replay;
      if world.replay[0].terminal {
        NothingAfterTerminal(world);
      }
    }
    if action.Register? {
      OfRun(world.pending, Some(action.run));
    }
  }

  lemma {:induction false} OfRun(events: seq<Event>, run: Option<Native>)
    ensures forall event <- Of(events, run) :: event.run == run
  {
    if events != [] {
      OfRun(events[..|events| - 1], run);
    }
  }

  lemma EndsOncePrefix(given: seq<Event>, more: seq<Event>)
    requires EndsOnce(given + more)
    ensures EndsOnce(given)
  {
    forall run: Native ensures LastOnly(Of(given, Some(run))) {
      OfConcat(given, more, Some(run));
      assert LastOnly(Of(given + more, Some(run)));
      assert forall i :: 0 <= i < |Of(given, Some(run))| ==> Of(given + more, Some(run))[i] == Of(given, Some(run))[i];
    }
  }

  lemma {:induction false} GivenGrows(world: World, history: seq<Action>)
    requires Legal(world, history)
    ensures world.given <= Replay(world, history).given
    decreases |history|
  {
    if history != [] {
      GivenGrows(Apply(world, history[0]), history[1..]);
    }
  }

  lemma {:induction false} OrderlyReplay(world: World, history: seq<Action>)
    requires Invariant(world) && Orderly(world) && Legal(world, history) && Calm(world, history)
    requires EndsOnce(Replay(world, history).given)
    ensures Orderly(Replay(world, history))
    decreases |history|
  {
    if history != [] {
      GivenGrows(world, history);
      var last := Replay(world, history).given;
      assert last == world.given + last[|world.given|..];
      EndsOncePrefix(world.given, last[|world.given|..]);
      OrderlyStep(world, history[0]);
      InvariantStep(world, history[0]);
      OrderlyReplay(Apply(world, history[0]), history[1..]);
    }
  }

  /** With receive and classify as one step, each run's events come out in order, and none is refused. */
  lemma {:induction false} DeliveredInOrder(history: seq<Action>, run: Option<Native>)
    requires Legal(INITIAL, history) && Calm(INITIAL, history) && EndsOnce(Replay(INITIAL, history).given)
    ensures var world := Replay(INITIAL, history);
            world.refused == [] && Of(world.delivered, run) <= Of(world.given, run)
  {
    OrderlyReplay(INITIAL, history);
    var world := Replay(INITIAL, history);
    assert InOrder(world, run);
    AllAfter(world);
    OfConcat(world.consumed, world.replay + world.pending + Hand(world) + world.channel, run);
  }

  lemma AllAfter(world: World)
    ensures All(world) == world.consumed + (world.replay + world.pending + Hand(world) + world.channel)
  {
  }

  // ----- When an event is lost -----

  /** Every event in the replay queue can still be converted, so that none of them will be refused. */
  predicate AllConvertible(world: World) {
    forall event <- world.replay :: Convertible(world, event)
  }

  /**
   The exact condition. Classifying leaves the replay queue convertible if, and only if, the event in
   hand is not the terminal of a run that still has events in that queue.
   */
  lemma ClassifyKeepsConvertible(world: World)
    requires AllConvertible(world) && world.hand.Some?
    ensures AllConvertible(Apply(world, Classify)) <==>
              !(world.hand.value.terminal && world.hand.value.run.Some?
                && exists event <- world.replay :: event.run == world.hand.value.run)
  {
    var event, after := world.hand.value, Apply(world, Classify);
    assert after.replay == world.replay;
    if event.terminal && event.run.Some? && exists queued <- world.replay :: queued.run == event.run {
      var queued :| queued in world.replay && queued.run == event.run;
      assert Convertible(world, queued) && !Convertible(after, queued);
    } else {
      forall queued | queued in world.replay ensures Convertible(after, queued) {
        assert Convertible(world, queued);
      }
    }
  }

  /** An event is refused exactly when it leaves the replay queue while its run is not registered. */
  lemma RefusedFromReplay(world: World, action: Action)
    requires Enabled(world, action)
    ensures Apply(world, action).refused != world.refused <==>
              action.PopReplay? && !Convertible(world, world.replay[0])
  {
    if action.PopReplay? {
      assert |world.refused + [world.replay[0]]| == |world.refused| + 1;
    }
  }

  /**
   Otherwise order can be lost, and with it an event: a terminal that is in hand while its run is
   registered overtakes the earlier event and retires the run, whose replayed event is then refused.
   The refusal is an error of `next_event`, which ends the pump.
   */
  lemma RegistrationBetween()
    ensures exists history ::
              && Legal(INITIAL, history) && EndsOnce(Replay(INITIAL, history).given)
              && Replay(INITIAL, history).refused != []
  {
    var run := Native(0);
    var early, last := Event(0, Some(run), false), Event(1, Some(run), true);
    var first := [Arrive(early), Arrive(last), FindEmpty, FindRoom, Receive, Classify];
    var second := [FindEmpty, FindRoom, Receive, Register(run), Classify, PopReplay];
    var held := INITIAL.(channel := [last], pending := [early], given := [early, last]);
    HoldsEarly(early, last);
    LosesEarly(held, run, early, last);
    Runs.ReplayConcat(Step, INITIAL, first, second);
    assert Replay(INITIAL, first + second).refused == [early];
    ShortEnds(early, last);
  }

  lemma ShortEnds(early: Event, last: Event)
    requires !early.terminal
    ensures EndsOnce([early, last])
  {
    forall run: Native ensures LastOnly(Of([early, last], Some(run))) {
      OfAppend([], early, Some(run));
      OfAppend([early], last, Some(run));
      assert [] + [early] == [early] && [early] + [last] == [early, last];
    }
  }

  lemma HoldsEarly(early: Event, last: Event)
    requires early.run.Some?
    ensures var history := [Arrive(early), Arrive(last), FindEmpty, FindRoom, Receive, Classify];
            && Legal(INITIAL, history)
            && Replay(INITIAL, history) == INITIAL.(channel := [last], pending := [early], given := [early, last])
  {
    var arrived := INITIAL.(channel := [early, last], given := [early, last]);
    Runs.ReplayAppend(Step, INITIAL, [], Arrive(early));
    Runs.ReplayAppend(Step, INITIAL, [Arrive(early)], Arrive(last));
    assert Replay(INITIAL, [Arrive(early), Arrive(last)]) == arrived;
    var history := [Arrive(early), Arrive(last)];
    Runs.ReplayAppend(Step, INITIAL, history, FindEmpty);
    Runs.ReplayAppend(Step, INITIAL, history + [FindEmpty], FindRoom);
    Runs.ReplayAppend(Step, INITIAL, history + [FindEmpty] + [FindRoom], Receive);
    Runs.ReplayAppend(Step, INITIAL, history + [FindEmpty] + [FindRoom] + [Receive], Classify);
    assert history + [FindEmpty] + [FindRoom] + [Receive] + [Classify]
        == [Arrive(early), Arrive(last), FindEmpty, FindRoom, Receive, Classify];
  }

  lemma LosesEarly(held: World, run: Native, early: Event, last: Event)
    requires early == Event(0, Some(run), false) && last == Event(1, Some(run), true)
    requires held == INITIAL.(channel := [last], pending := [early], given := [early, last])
    ensures var history := [FindEmpty, FindRoom, Receive, Register(run), Classify, PopReplay];
            && Legal(held, history) && Replay(held, history).refused == [early]
            && Replay(held, history).given == held.given
  {
    var history := [FindEmpty];
    Runs.ReplayAppend(Step, held, [], FindEmpty);
    Runs.ReplayAppend(Step, held, history, FindRoom);
    Runs.ReplayAppend(Step, held, history + [FindRoom], Receive);
    OfAppend([], early, Some(run));
    assert [] + [early] == [early];
    var received := Replay(held, history + [FindRoom] + [Receive]);
    assert received == held.(channel := [], hand := Some(last), stage := Room);
    Runs.ReplayAppend(Step, held, history + [FindRoom] + [Receive], Register(run));
    Runs.ReplayAppend(Step, held, history + [FindRoom] + [Receive] + [Register(run)], Classify);
    var before := history + [FindRoom] + [Receive] + [Register(run)] + [Classify];
    assert Replay(held, before).replay == [early] && run !in Replay(held, before).registered;
    Runs.ReplayAppend(Step, held, before, PopReplay);
    assert before + [PopReplay] == [FindEmpty, FindRoom, Receive, Register(run), Classify, PopReplay];
  }

  // ----- The harness itself -----

  datatype Next = Delivered(event: Event) | NotFound(event: Event) | Waiting

/**
   The replayed event is delivered, or refused if its run is not registered; the received one is
   delivered, or kept if its run is not registered; and nothing is received only if a registration
   calls the consumer back, the channel is empty, or there is no room to keep another event.
   */
  ghost predicate EndsTurn(before: World, action: Action, next: Next) {
    && Enabled(before, action)
    && match action
       case PopReplay =>
         next == if Convertible(before, before.replay[0]) then Delivered(before.replay[0])
                 else NotFound(before.replay[0])
       case Classify => next == if Convertible(before, before.hand.value) then Delivered(before.hand.value) else Waiting
       case Wake => next == Waiting && before.permit
       case GiveUp =>
         next == Waiting && !before.permit && (before.channel == [] || |before.pending| >= PENDING_CAPACITY)
       case _ => false
  }

  lemma {:induction false} NoneKept(events: seq<Event>, run: Option<Native>)
    ensures Of(events, run) == [] ==> Others(events, run) == events
    decreases |events|
  {
    if events != [] {
      NoneKept(events[..|events| - 1], run);
    }
  }

    class CodexHarness {
    var channel: seq<Event>
    var hand: Option<Event>
    var pending: seq<Event>
    var replay: seq<Event>
    var registered: set<Native>
    var permit: bool
    var stage: Stage

    // Read by the specification only.
    ghost var given: seq<Event>
    ghost var consumed: seq<Event>
    ghost var delivered: seq<Event>
    ghost var refused: seq<Event>
    ghost var history: seq<Action>
    /** What the consumer did. */
    ghost var mine: seq<Action>

    ghost function Now(): World
      reads this
    {
      World(channel, hand, pending, replay, registered, permit, stage, given, consumed, delivered, refused)
    }

    ghost predicate Valid()
      reads this
    {
      Legal(INITIAL, history) && Replay(INITIAL, history) == Now()
    }

    constructor ()
      ensures Valid() && Now() == INITIAL
    {
      channel, hand, pending, replay, registered, permit, stage := [], None, [], [], {}, false, Top;
      given, consumed, delivered, refused, history, mine := [], [], [], [], [], [];
    }

    ghost method Happened(before: World, action: Action)
      requires Legal(INITIAL, history) && Replay(INITIAL, history) == before
      requires Enabled(before, action) && Now() == Apply(before, action)
      modifies `history
      ensures Valid() && history == old(history) + [action]
    {
      Runs.ReplayAppend(Step, INITIAL, history, action);
      history := history + [action];
    }

    /** It was the consumer. */
    ghost method Took(before: World, action: Action)
      requires Legal(INITIAL, history) && Replay(INITIAL, history) == before
      requires Enabled(before, action) && Now() == Apply(before, action)
      modifies `history, `mine
      ensures Valid() && history == old(history) + [action] && mine == old(mine) + [action]
      ensures JustDid(before, action)
    {
      Happened(before, action);
      mine := mine + [action];
      assert history[..|history| - 1] == old(history);
    }

    ghost predicate JustDid(before: World, action: Action)
      reads `history
    {
      && history != [] && history[|history| - 1] == action
      && Legal(INITIAL, history[..|history| - 1]) && Replay(INITIAL, history[..|history| - 1]) == before
    }

    /** How a turn of the consumer ends, told by its last step. */
    ghost predicate TurnEnded(next: Next)
      reads `history
    {
      exists before, action :: JustDid(before, action) && EndsTurn(before, action, next)
    }

    method Arrived(event: Event)
      requires Valid()
      modifies `channel, `given, `history
      ensures Valid() && Now() == Apply(old(Now()), Arrive(event))
    {
      ghost var before := Now();
      channel, given := channel + [event], given + [event];
      Happened(before, Arrive(event));
    }

    /** The run is known from now on; what was kept for it is replayed, and the consumer is woken. */
    method RegisterRun(run: Native)
      requires Valid()
      modifies `registered, `pending, `replay, `permit, `history
      ensures Valid() && Now() == Apply(old(Now()), Register(run))
    {
      ghost var before := Now();
      registered := registered + {run};
      var events := Of(pending, Some(run));
      pending := Others(pending, Some(run));
      if events != [] {
        replay := replay + events;
        permit := true;
      }
      assert replay == before.replay + events;
      Happened(before, Register(run));
    }

    /** Arrivals and registrations while the consumer awaits. */
    method Yield()
      requires Valid()
      modifies `channel, `given, `registered, `pending, `replay, `permit, `history
      ensures Valid() && (old(permit) ==> permit) && old(replay) <= replay
      ensures forall event <- pending :: event in old(pending)
      ensures permit || pending == old(pending)
    {
      var turns: int := *;
      for turn := 0 to if turns < 0 then 0 else turns
        invariant Valid() && (old(permit) ==> permit) && old(replay) <= replay
        invariant forall event <- pending :: event in old(pending)
        invariant permit || pending == old(pending)
      {
        var arrival: bool := *;
        if arrival {
          var event: Event := *;
          Arrived(event);
        } else {
          var run: Native := *;
          Partition(pending, Some(run));
          NoneKept(pending, Some(run));
          RegisterRun(run);
        }
      }
    }

    /** The event's run is looked up; a terminal retires it. */
    method ConvertEvent(event: Event) returns (next: Next)
      modifies `registered, `consumed, `delivered, `refused
      ensures Now() == Converted(old(Now()), event)
      ensures next == if Convertible(old(Now()), event) then Delivered(event) else NotFound(event)
    {
      consumed := consumed + [event];
      if event.run.Some? && event.run.value !in registered {
        refused := refused + [event];
        return NotFound(event);
      }
      delivered := delivered + [event];
      if event.terminal && event.run.Some? {
        registered := registered - {event.run.value};
      }
      return Delivered(event);
    }

    /** One event, replayed ones first. `patience` is how many turns the caller waits. */
    method NextEvent(patience: nat) returns (next: Next)
      requires Valid() && hand == None && stage == Top
      modifies this
      ensures Valid() && hand == None && stage == Top
      ensures delivered == old(delivered) + if next.Delivered? then [next.event] else []
      ensures refused == old(refused) + if next.NotFound? then [next.event] else []
      ensures consumed == old(consumed) + if next.Waiting? then [] else [next.event]
      ensures old(replay) != [] && patience > 0 ==> !next.Waiting? && next.event == old(replay)[0]
      ensures patience > 0 ==> TurnEnded(next)
      ensures next.Waiting? ==> |mine| >= |old(mine)| + patience
    {
      for turn := 0 to patience
        invariant Valid() && hand == None && stage == Top
        invariant turn == 0 ==> replay == old(replay)
        invariant turn > 0 ==> old(replay) == [] && TurnEnded(Waiting)
        invariant |mine| >= |old(mine)| + turn
        invariant delivered == old(delivered) && refused == old(refused) && consumed == old(consumed)
      {
        next := TakeTurn();
        if !next.Waiting? {
          return;
        }
      }
      return Waiting;
    }

    method TakeTurn() returns (next: Next)
      requires Valid() && hand == None && stage == Top
      modifies this
      ensures Valid() && hand == None && stage == Top
      ensures delivered == old(delivered) + if next.Delivered? then [next.event] else []
      ensures refused == old(refused) + if next.NotFound? then [next.event] else []
      ensures consumed == old(consumed) + if next.Waiting? then [] else [next.event]
      ensures old(replay) != [] ==> !next.Waiting? && next.event == old(replay)[0]
      ensures TurnEnded(next) && |mine| > |old(mine)|
    {
      Yield();
      if replay != [] {
        next := PopFront();
        return;
      }
      LookedAt();
      next := TakeUnlessFull();
    }

    /** The channel is read only while there is room to keep what it may give. */
    method TakeUnlessFull() returns (next: Next)
      requires Valid() && hand == None && stage == Checked
      modifies this
      ensures Valid() && hand == None && stage == Top
      ensures delivered == old(delivered) + if next.Delivered? then [next.event] else []
      ensures refused == old(refused) && !next.NotFound?
      ensures consumed == old(consumed) + if next.Waiting? then [] else [next.event]
      ensures TurnEnded(next) && |mine| > |old(mine)|
    {
      Yield();
      var full := LookForRoom();
      Yield();
      if full || permit || channel == [] {
        Woken();
        return Waiting;
      }
      next := TakeFromChannel();
    }

    method TakeFromChannel() returns (next: Next)
      requires Valid() && hand == None && stage == Room && !permit && channel != []
      modifies this
      ensures Valid() && hand == None && stage == Top
      ensures delivered == old(delivered) + if next.Delivered? then [next.event] else []
      ensures refused == old(refused) && !next.NotFound?
      ensures consumed == old(consumed) + if next.Waiting? then [] else [next.event]
      ensures TurnEnded(next) && |mine| > |old(mine)|
    {
      ReceiveOne();
      Yield();
      next := ClassifyOne();
    }

    method LookForRoom() returns (full: bool)
      requires Valid() && hand == None && stage == Checked
      modifies `stage, `history, `mine
      ensures Valid() && stage == (if full then Checked else Room) && (full <==> |pending| >= PENDING_CAPACITY)
      ensures |mine| >= |old(mine)|
    {
      full := |pending| >= PENDING_CAPACITY;
      if !full {
        ghost var before := Now();
        stage := Room;
        Took(before, FindRoom);
      }
    }

    method LookedAt()
      requires Valid() && hand == None && stage == Top && replay == []
      modifies `stage, `history, `mine
      ensures Valid() && stage == Checked && |mine| > |old(mine)|
    {
      ghost var before := Now();
      stage := Checked;
      Took(before, FindEmpty);
    }

    method PopFront() returns (next: Next)
      requires Valid() && hand == None && stage == Top && replay != []
      modifies `replay, `registered, `consumed, `delivered, `refused, `history, `mine
      ensures Valid() && Now() == Apply(old(Now()), PopReplay)
      ensures next == if Convertible(old(Now()), old(replay)[0]) then Delivered(old(replay)[0])
                else NotFound(old(replay)[0])
      ensures TurnEnded(next) && |mine| > |old(mine)|
    {
      ghost var before := Now();
      var event := replay[0];
      replay := replay[1..];
      next := ConvertEvent(event);
      Took(before, PopReplay);
      assert EndsTurn(before, PopReplay, next);
    }

    /** The wait ends by a registration's notice, or the turn is over with nothing received. */
    method Woken()
      requires Valid() && hand == None && stage != Top
      requires permit || channel == [] || |pending| >= PENDING_CAPACITY
      modifies `stage, `permit, `history, `mine
      ensures Valid() && stage == Top && TurnEnded(Waiting) && |mine| > |old(mine)|
    {
      ghost var before := Now();
      stage := Top;
      if permit {
        permit := false;
        Took(before, Wake);
        assert EndsTurn(before, Wake, Waiting);
      } else {
        Took(before, GiveUp);
        assert EndsTurn(before, GiveUp, Waiting);
      }
    }

    method ReceiveOne()
      requires Valid() && hand == None && stage == Room && !permit && channel != []
      modifies `channel, `hand, `history, `mine
      ensures Valid() && Now() == Apply(old(Now()), Receive) && |mine| > |old(mine)|
    {
      ghost var before := Now();
      hand := Some(channel[0]);
      channel := channel[1..];
      Took(before, Receive);
    }

    /** The event in hand waits if its run is not registered, and is converted otherwise. */
    method ClassifyOne() returns (next: Next)
      requires Valid() && hand.Some?
      modifies `hand, `stage, `pending, `registered, `consumed, `delivered, `refused, `history, `mine
      ensures Valid() && Now() == Apply(old(Now()), Classify)
      ensures next == if Convertible(old(Now()), old(hand).value) then Delivered(old(hand).value) else Waiting
      ensures TurnEnded(next) && |mine| > |old(mine)|
    {
      ghost var before := Now();
      var event := hand.value;
      hand, stage := None, Top;
      if event.run.Some? && event.run.value !in registered {
        pending := pending + [event];
        next := Waiting;
      } else {
        next := ConvertEvent(event);
      }
      Took(before, Classify);
      assert EndsTurn(before, Classify, next);
    }
  }
}
