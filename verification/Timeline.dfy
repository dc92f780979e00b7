/** The consumer of one run's events, which batches streamed deltas into the stored timeline. */
module Timeline {
  import opened Common
  import opened TimelineModel
  import opened Transcript

  // ----- The consumer -----

  class Consumer {
    var chunks: nat
    var message: string
    var commands: map<CommandId, (string, string)>
    /** What the store has accepted from this consumer. */
    var stored: seq<Entry>
    const faulty: bool
    /** Whether the store has refused a batch. */
    ghost var refused: bool

    function Meaning(): Document
      reads this
    {
      Held(Read(stored), message, commands)
    }

    predicate Valid()
      reads this
    {
      && chunks < DELTA_BATCH_CHUNKS
      && (chunks == 0 ==> message == "" && commands == map[])
      && |commands| <= chunks
    }

    constructor (faulty: bool)
      ensures Valid() && stored == [] && Meaning() == BLANK && this.faulty == faulty && !refused
    {
      chunks, message, commands, stored := 0, "", map[], [];
      this.faulty, refused := faulty, false;
    }

    /** The store and the buffer hold what these events said. */
    ghost predicate HasTold(done: seq<Event>)
      reads this
    {
      Tracks(stored, message, commands, done)
    }

    /** Hand entries to the store in one batch; a faulty store may refuse the batch as a whole. */
    method Append(entries: seq<Entry>) returns (ok: bool)
      modifies `stored, `refused
      ensures ok ==> stored == old(stored) + entries && refused == old(refused)
      ensures !ok ==> stored == old(stored) && faulty && refused
    {
      var fails: bool := *;
      ok := !(faulty && fails);
      if ok {
        stored := stored + entries;
      } else {
        refused := true;
      }
    }

    method PushMessage(chunk: string)
      requires Valid()
      modifies `chunks, `message
      ensures chunks == old(chunks) + 1 && message == old(message) + chunk
      ensures Meaning() == Extend(old(Meaning()), MessageBatch(chunk))
    {
      HeldMessage(Read(stored), message, commands, chunk);
      chunks := chunks + 1;
      message := message + chunk;
    }

    method PushCommand(command: CommandId, text: string, chunk: string)
      requires Valid()
      modifies `chunks, `commands
      ensures chunks == old(chunks) + 1 && |commands| <= chunks
      ensures var text' := if command in old(commands) then old(commands)[command].0 else text;
              var held := if command in old(commands) then old(commands)[command].1 else "";
              commands == old(commands)[command := (text', held + chunk)]
      ensures Meaning() == Extend(old(Meaning()), CommandBatch(command, text, chunk))
    {
      HeldCommand(Read(stored), message, commands, command, text, chunk);
      chunks := chunks + 1;
      var entry := if command in commands then commands[command] else (text, "");
      commands := commands[command := (entry.0, entry.1 + chunk)];
    }

    /** The buffered commands in the order of their native ids. */
    method Sorted() returns (order: seq<CommandId>)
      ensures IdOrder(commands, order)
    {
      order := [];
      var rest := commands.Keys;
      while rest != {}
        invariant SortedTo(order, rest, commands.Keys)
        decreases rest
      {
        var least := Least(rest);
        SortedMore(order, rest, commands.Keys, least);
        order, rest := order + [least], rest - {least};
      }
    }

    method Least(candidates: set<CommandId>) returns (least: CommandId)
      requires candidates != {}
      ensures least in candidates && forall other :: other in candidates ==> least.rank <= other.rank
    {
      least :| least in candidates;
      var rest := candidates - {least};
      while rest != {}
        invariant least in candidates && rest <= candidates
        invariant forall other :: other in candidates && other !in rest ==> least.rank <= other.rank
        decreases rest
      {
        var other :| other in rest;
        rest := rest - {other};
        if other.rank < least.rank {
          least := other;
        }
      }
    }

    method Rows(order: seq<CommandId>) returns (rows: seq<Entry>)
      requires forall command :: command in order ==> command in commands
      ensures rows == CommandRows(commands, order)
    {
      rows := [];
      for i := 0 to |order|
        invariant rows == CommandRows(commands, order[..i])
      {
        assert order[..i + 1][..i] == order[..i];
        rows := rows + [CommandBatch(order[i], commands[order[i]].0, commands[order[i]].1)];
      }
      assert order[..|order|] == order;
    }

    /** Empty the buffer into the rows that stand for it. */
    method TakeItems() returns (items: seq<Entry>)
      modifies `chunks, `message, `commands
      ensures Valid() && chunks == 0
      ensures ExtendAll(Read(stored), items) == old(Meaning())
      ensures exists order :: IdOrder(old(commands), order)
                              && items == FlushRows(old(message), old(commands), order)
      ensures message == "" && commands == map[]
    {
      var order := Sorted();
      ReadFlush(Read(stored), message, commands, order);
      var rows := Rows(order);
      items := (if message == "" then [] else [MessageBatch(message)]) + rows;
      chunks, message, commands := 0, "", map[];
    }

    /** What an authoritative event adds to the batch that flushes the deltas before it. */
    function ItemOf(event: Event): seq<Entry> {
      match event
      case MessageCompleted(text) => [MessageItem(text)]
      case CommandOutputCompleted(command, text, output) => [CommandItem(command, text, output)]
      case FileMutation(path, summary) => [FileItem(path, summary)]
      case UserInputRequested(request, prompt) => [InputItem(request, prompt)]
      case Unknown(itemType, native) => [UnknownItem(itemType, native)]
      case Malformed(itemType, native) => [MalformedItem(itemType, native)]
      case _ => []
    }

    /** One event. On failure nothing but an early part of the timeline has been stored. */
    method ApplyEvent(event: Event, ghost done: seq<Event>) returns (ok: bool)
      requires Valid() && HasTold(done)
      modifies this
      ensures ok ==> refused == old(refused)
      ensures ok ==> Valid() && Meaning() == ExtendAll(old(Meaning()), Direct(event)) && HasTold(done + [event])
      ensures ok && event.Authoritative() ==> chunks == 0
      ensures !ok ==> refused && faulty && Precedes(Read(stored), ExtendAll(old(Meaning()), Direct(event)))
      ensures !ok ==> EarlyPart(stored, done + [event])
    {
      if event.RunAccepted? {
        TracksSkip(stored, message, commands, done, event);
        return true;
      }
      if event.MessageDelta? || event.CommandOutputDelta? {
        ok := ApplyDelta(event, done);
      } else {
        ok := ApplyAuthoritative(event, done);
      }
    }

    /** Store the buffer. */
    method Flush(ghost done: seq<Event>) returns (ok: bool)
      requires HasTold(done)
      modifies this
      ensures ok ==> refused == old(refused)
      ensures ok ==> Valid() && chunks == 0 && Read(stored) == Meaning() == old(Meaning()) && HasTold(done)
      ensures !ok ==> refused && faulty && stored == old(stored)
    {
      var items := TakeItems();
      ok := Append(items);
      if ok {
        ExtendAllConcat(BLANK, old(stored), items);
        HeldNothing(Read(stored));
        FlushTracked(old(stored), old(message), old(commands), done, items);
      }
    }

    lemma FlushTracked(before: seq<Entry>, text: string, held: map<CommandId, (string, string)>, done: seq<Event>,
                       items: seq<Entry>)
      requires Tracks(before, text, held, done)
      requires exists order :: IdOrder(held, order) && items == FlushRows(text, held, order)
      ensures Tracks(before + items, "", map[], done)
    {
      var order :| IdOrder(held, order) && items == FlushRows(text, held, order);
      TracksFlush(before, text, held, done, order);
    }

    method PushDelta(event: Event)
      requires Valid() && (event.MessageDelta? || event.CommandOutputDelta?)
      modifies `chunks, `message, `commands
      ensures chunks == old(chunks) + 1 && |commands| <= chunks
      ensures Meaning() == ExtendAll(old(Meaning()), Direct(event))
      ensures Buffered(event, old(message), old(commands), message, commands)
    {
      ExtendAllOne(Meaning(), [], Direct(event)[0]);
      if event.MessageDelta? {
        PushMessage(event.chunk);
      } else {
        PushCommand(event.command, event.commandText, event.chunk);
      }
    }

    /** Nothing is stored until 32 chunks are held, and then all of them are. */
    method ApplyDelta(event: Event, ghost done: seq<Event>) returns (ok: bool)
      requires Valid() && HasTold(done) && (event.MessageDelta? || event.CommandOutputDelta?)
      modifies this
      ensures ok ==> refused == old(refused)
      ensures ok ==> Valid() && Meaning() == ExtendAll(old(Meaning()), Direct(event)) && HasTold(done + [event])
      ensures if old(chunks) + 1 < 32 then ok && stored == old(stored) else ok ==> chunks == 0
      ensures !ok ==> refused && faulty && Precedes(Read(stored), ExtendAll(old(Meaning()), Direct(event)))
      ensures !ok ==> EarlyPart(stored, done + [event])
    {
      PushDelta(event);
      PrecedesHeld(Read(stored), message, commands);
      TracksDelta(stored, old(message), old(commands), done, event, message, commands);
      ok := true;
      if chunks >= DELTA_BATCH_CHUNKS {
        ok := Flush(done + [event]);
      }
    }

    /** Approvals and the final status are stored after the flushed deltas, on their own. */
    method StoreApart(event: Event, ghost done: seq<Event>) returns (ok: bool)
      requires Valid() && HasTold(done) && (event.ApprovalRequested? || event.Ended?)
      modifies this
      ensures ok ==> refused == old(refused)
      ensures ok ==> Valid() && chunks == 0 && Read(stored) == Meaning() == ExtendAll(old(Meaning()), Direct(event))
      ensures ok ==> HasTold(done + [event])
      ensures !ok ==> refused && faulty && (stored == old(stored) || Read(stored) == old(Meaning()))
      ensures !ok ==> EarlyPart(stored, done + [event])
    {
      TracksEarly(stored, message, commands, done, done + [event]);
      var items := TakeItems();
      ExtendAllConcat(BLANK, old(stored), items);
      FlushTracked(old(stored), old(message), old(commands), done, items);
      ok := true;
      if items != [] {
        ok := Append(items);
      } else {
        assert old(stored) + items == stored;
      }
      if ok {
        TracksEarly(stored, message, commands, done, done + [event]);
        ok := StoreAlone(event, done);
      }
    }

    method StoreAlone(event: Event, ghost done: seq<Event>) returns (ok: bool)
      requires Valid() && HasTold(done) && message == "" && commands == map[]
      requires event.ApprovalRequested? || event.Ended?
      modifies `stored, `refused
      ensures ok ==> refused == old(refused)
      ensures ok ==> Read(stored) == Meaning() == ExtendAll(old(Read(stored)), Direct(event)) && HasTold(done + [event])
      ensures !ok ==> refused && faulty && stored == old(stored)
    {
      var entry := if event.ApprovalRequested? then PendingApproval(event.request, event.summary)
                   else FinalStatus(StatusOf(event.terminal));
      TracksClosing(stored, done, entry, event);
      ok := Append([entry]);
      if ok {
        ExtendAllConcat(BLANK, old(stored), Direct(event));
        HeldNothing(Read(stored));
      }
    }

    lemma ItemRecords(event: Event)
      requires event.Authoritative() && !event.ApprovalRequested? && !event.Ended?
      ensures ItemOf(event) == Direct(event) && |ItemOf(event)| == 1
      ensures Closing(ItemOf(event)[0]) && Records(ItemOf(event)[0], event)
    {
    }

    /** Every other authoritative event is stored in one batch with the deltas before it. */
    method StoreTogether(event: Event, ghost done: seq<Event>) returns (ok: bool)
      requires Valid() && HasTold(done) && event.Authoritative() && !event.ApprovalRequested? && !event.Ended?
      modifies this
      ensures ok ==> refused == old(refused)
      ensures ok ==> Valid() && chunks == 0 && Meaning() == ExtendAll(old(Meaning()), Direct(event))
      ensures ok ==> HasTold(done + [event])
      ensures !ok ==> refused && faulty && stored == old(stored)
    {
      ghost var meant := Meaning();
      var items := TakeItems();
      FlushTracked(old(stored), old(message), old(commands), done, items);
      var item := ItemOf(event);
      ItemRecords(event);
      TracksTogether(old(stored), items, item[0], done, event);
      ok := Append(items + item);
      if ok {
        ReadBatch(old(stored), meant, items, Direct(event));
        HeldNothing(Read(stored));
      }
    }

    method ApplyAuthoritative(event: Event, ghost done: seq<Event>) returns (ok: bool)
      requires Valid() && HasTold(done) && event.Authoritative()
      modifies this
      ensures ok ==> refused == old(refused)
      ensures ok ==> Valid() && chunks == 0 && Meaning() == ExtendAll(old(Meaning()), Direct(event))
      ensures ok ==> HasTold(done + [event])
      ensures !ok ==> refused && faulty && Precedes(Read(stored), ExtendAll(old(Meaning()), Direct(event)))
      ensures !ok ==> EarlyPart(stored, done + [event])
    {
      ghost var meant := Meaning();
      PrecedesHeld(Read(stored), message, commands);
      PrecedesExtendAll(Read(stored), meant, Direct(event));
      PrecedesHeld(meant, "", map[]);
      HeldNothing(meant);
      PrecedesExtendAll(meant, meant, Direct(event));
      TracksEarly(stored, message, commands, done, done + [event]);
      if event.ApprovalRequested? || event.Ended? {
        ok := StoreApart(event, done);
      } else {
        ok := StoreTogether(event, done);
      }
    }

    /**
     The consuming loop. If the store never fails, the stored timeline together with the buffer
     reads exactly like the unbatched one, and after a terminal the buffer is empty; every streamed
     chunk, every authoritative event and every command's deltas are in it, the deltas in rows under
     the command text of the first one they batch. If the store fails, what was stored is an early
     part of the unbatched timeline.
     */
    method ConsumeRun(events: seq<Event>) returns (ok: bool)
      requires Valid() && stored == [] && chunks == 0 && !refused
      modifies this
      ensures !faulty ==> ok
      ensures ok <==> !refused
      ensures ok ==> Valid() && Meaning() == Read(Unbatched(UpToTerminal(events))) && HasTold(UpToTerminal(events))
      ensures ok && UpToTerminal(events) != [] && UpToTerminal(events)[|UpToTerminal(events)| - 1].Ended? ==>
                chunks == 0 && Read(stored) == Read(Unbatched(UpToTerminal(events)))
      ensures !ok ==> Precedes(Read(stored), Read(Unbatched(UpToTerminal(events))))
      ensures !ok ==> EarlyPart(stored, UpToTerminal(events))
    {
      HeldNothing(BLANK);
      TracksNothing();
      ghost var all := UpToTerminal(events);
      var i := 0;
      assert events[0..] == events && all[0..] == all && all[..0] == [];
      while i < |events|
        invariant !refused && Through(events, all, i) && Valid() && Meaning() == Read(Unbatched(all[..i]))
                  && HasTold(all[..i])
      {
        UpToTerminalStep(events, all, i);
        ok := ConsumeOne(all, i, events[i]);
        if !ok {
          return;
        }
        i := i + 1;
        if events[i - 1].Ended? {
          assert all[..i] == all;
          HeldEmpty();
          return;
        }
      }
      assert all[..i] == all;
      ok := true;
    }

    /** The next event of the run; on failure what is stored is an early part of the whole. */
    method ConsumeOne(ghost all: seq<Event>, ghost i: nat, event: Event) returns (ok: bool)
      requires Valid() && i < |all| && all[i] == event && Meaning() == Read(Unbatched(all[..i])) && HasTold(all[..i])
      modifies this
      ensures ok ==> refused == old(refused)
      ensures ok ==> Valid() && Meaning() == Read(Unbatched(all[..i + 1])) && (event.Ended? ==> chunks == 0)
      ensures ok ==> HasTold(all[..i + 1])
      ensures !ok ==> refused && faulty && Precedes(Read(stored), Read(Unbatched(all))) && EarlyPart(stored, all)
    {
      ReadOneMore(all, i);
      assert all[..i] + [event] == all[..i + 1] <= all;
      ok := ApplyEvent(event, all[..i]);
      if !ok {
        UnbatchedPrecedes(Read(stored), all, i + 1);
        EarlyLater(stored, all[..i + 1], all);
      }
    }

    lemma HeldEmpty()
      requires Valid() && chunks == 0
      ensures Meaning() == Read(stored)
    {
    }
  }

  /** The first events were consumed, and none of them was a terminal. */
  predicate Through(events: seq<Event>, all: seq<Event>, i: nat) {
    && i <= |events| && i <= |all| && all[i..] == UpToTerminal(events[i..])
    && (i > 0 ==> !all[i - 1].Ended?)
  }

  lemma UpToTerminalStep(events: seq<Event>, all: seq<Event>, i: nat)
    requires i < |events| && Through(events, all, i)
    ensures i < |all| && all[i] == events[i]
    ensures if events[i].Ended? then |all| == i + 1 else Through(events, all, i + 1)
  {
  }
}
