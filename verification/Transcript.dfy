/**
 What a stored timeline says, read off entry by entry: the streamed text, the rows of each command
 and the authoritative entries, each compared with the events themselves.
 */
module Transcript {
  import opened Common
  import opened TimelineModel

  // ----- The streamed text -----

  function AllText(entries: seq<Entry>): string {
    if entries == [] then ""
    else
      var rest, last := AllText(entries[..|entries| - 1]), entries[|entries| - 1];
      if last.MessageBatch? then rest + last.body else rest
  }

  function Chunks(events: seq<Event>): string {
    if events == [] then ""
    else
      var rest, last := Chunks(events[..|events| - 1]), events[|events| - 1];
      if last.MessageDelta? then rest + last.chunk else rest
  }

  // ----- The rows of one command -----

  /** A command text and some output. */
  type Row = (string, string)

  function RowsOf(entries: seq<Entry>, command: CommandId): seq<Row> {
    if entries == [] then []
    else
      var rest, last := RowsOf(entries[..|entries| - 1], command), entries[|entries| - 1];
      if last.CommandBatch? && last.command == command then rest + [(last.commandText, last.output)] else rest
  }

  function DeltasOf(events: seq<Event>, command: CommandId): seq<Row> {
    if events == [] then []
    else
      var rest, last := DeltasOf(events[..|events| - 1], command), events[|events| - 1];
      if last.CommandOutputDelta? && last.command == command then rest + [(last.commandText, last.chunk)] else rest
  }

  /** The row that the buffer holds for a command. */
  function HeldRow(commands: map<CommandId, (string, string)>, command: CommandId): seq<Row> {
    if command in commands then [commands[command]] else []
  }

  function Outputs(parts: seq<Row>): string {
    if parts == [] then "" else Outputs(parts[..|parts| - 1]) + parts[|parts| - 1].1
  }

  /** The row has the command text of the first of these deltas, and the output of all of them. */
  predicate Batches(row: Row, parts: seq<Row>) {
    parts != [] && row.0 == parts[0].0 && row.1 == Outputs(parts)
  }

  /** Each row batches some consecutive deltas, in order, and no delta is left out. */
  predicate Coarser(rows: seq<Row>, parts: seq<Row>)
    decreases |rows|
  {
    if rows == [] then parts == []
    else
      exists from :: 0 <= from < |parts| && Batches(rows[|rows| - 1], parts[from..])
                     && Coarser(rows[..|rows| - 1], parts[..from])
  }

  lemma {:induction false} CoarserNew(rows: seq<Row>, parts: seq<Row>, row: Row)
    requires Coarser(rows, parts)
    ensures Coarser(rows + [row], parts + [row])
  {
    var from, longer := |parts|, parts + [row];
    assert longer[from..] == [row] && longer[..from] == parts && (rows + [row])[..|rows|] == rows;
    assert Outputs([row]) == Outputs([]) + row.1 == row.1;
    assert Batches(row, longer[from..]);
  }

  lemma {:induction false} CoarserGrow(rows: seq<Row>, parts: seq<Row>, row: Row, part: Row)
    requires Coarser(rows + [row], parts)
    ensures Coarser(rows + [(row.0, row.1 + part.1)], parts + [part])
  {
    assert (rows + [row])[..|rows|] == rows;
    var from :| 0 <= from < |parts| && Batches(row, parts[from..]) && Coarser(rows, parts[..from]);
    var longer, grown := parts + [part], (row.0, row.1 + part.1);
    BatchesMore(row, parts[from..], part);
    assert longer[from..] == parts[from..] + [part] && longer[..from] == parts[..from];
    assert (rows + [grown])[..|rows|] == rows;
  }

  lemma BatchesMore(row: Row, parts: seq<Row>, part: Row)
    requires Batches(row, parts)
    ensures Batches((row.0, row.1 + part.1), parts + [part])
  {
    assert (parts + [part])[..|parts|] == parts;
  }

  /** The rows of a timeline that goes no further than `parts`. */
  predicate EarlyRows(rows: seq<Row>, parts: seq<Row>) {
    exists count :: 0 <= count <= |parts| && Coarser(rows, parts[..count])
  }

  lemma {:induction false} CoarserFront(rows: seq<Row>, held: seq<Row>, parts: seq<Row>)
    requires Coarser(rows + held, parts) && |held| <= 1
    ensures EarlyRows(rows, parts)
  {
    if held == [] {
      assert rows + held == rows && parts[..|parts|] == parts;
    } else {
      assert (rows + held)[..|rows|] == rows;
      var from :| 0 <= from < |parts| && Coarser(rows, parts[..from]);
    }
  }

  lemma {:induction false} DeltasPrefix(done: seq<Event>, all: seq<Event>, command: CommandId)
    requires done <= all
    ensures DeltasOf(done, command) <= DeltasOf(all, command)
    decreases |all|
  {
    if |done| < |all| {
      DeltasPrefix(done, all[..|all| - 1], command);
    } else {
      assert done == all;
    }
  }

  lemma EarlierRows(rows: seq<Row>, parts: seq<Row>, all: seq<Row>)
    requires EarlyRows(rows, parts) && parts <= all
    ensures EarlyRows(rows, all)
  {
    var count :| 0 <= count <= |parts| && Coarser(rows, parts[..count]);
    assert all[..count] == parts[..count];
  }

  // ----- The authoritative entries -----

  predicate Closing(entry: Entry) { !entry.MessageBatch? && !entry.CommandBatch? }

  function Closings(entries: seq<Entry>): seq<Entry> {
    if entries == [] then []
    else
      var rest, last := Closings(entries[..|entries| - 1]), entries[|entries| - 1];
      if Closing(last) then rest + [last] else rest
  }

  function Authoritative(events: seq<Event>): seq<Event> {
    if events == [] then []
    else
      var rest, last := Authoritative(events[..|events| - 1]), events[|events| - 1];
      if last.RunAccepted? || last.MessageDelta? || last.CommandOutputDelta? then rest else rest + [last]
  }

  /** The entry is of the event's own kind and carries what the event carries. */
  predicate Records(entry: Entry, event: Event) {
    && (event.MessageCompleted? ==> entry.MessageItem? && entry.text == event.text)
    && (event.ApprovalRequested? ==>
          entry.PendingApproval? && entry.request == event.request && entry.summary == event.summary)
    && (event.UserInputRequested? ==>
          entry.InputItem? && entry.request == event.request && entry.prompt == event.prompt)
    && (event.FileMutation? ==> entry.FileItem? && entry.path == event.path && entry.summary == event.summary)
    && (event.CommandOutputCompleted? ==>
          && entry.CommandItem? && entry.command == event.command
          && entry.commandText == event.commandText && entry.output == event.output)
    && (event.Ended? ==>
          && entry.FinalStatus? && (entry.status.StatusCompleted? <==> event.terminal.Completed?)
          && (entry.status.StatusInterrupted? <==> event.terminal.Interrupted?))
    && (event.Unknown? ==>
          entry.UnknownItem? && entry.itemType == event.itemType && entry.native == event.native)
    && (event.Malformed? ==>
          entry.MalformedItem? && entry.itemType == event.itemType && entry.native == event.native)
  }

  /** One entry for each of the first events, in order. */
  predicate RecordsSome(entries: seq<Entry>, events: seq<Event>) {
    |entries| <= |events| && forall i :: 0 <= i < |entries| ==> Records(entries[i], events[i])
  }

  lemma {:induction false} AuthoritativePrefix(done: seq<Event>, all: seq<Event>)
    requires done <= all
    ensures Authoritative(done) <= Authoritative(all) && Chunks(done) <= Chunks(all)
    decreases |all|
  {
    if |done| < |all| {
      AuthoritativePrefix(done, all[..|all| - 1]);
    } else {
      assert done == all;
    }
  }

  // ----- A store and a buffer against the events so far -----

  /**
   The store and the buffer hold what these events said: the whole streamed text, one entry for each
   authoritative event, and for each command rows that batch its deltas under the text of the first.
   */
  ghost predicate Tracks(stored: seq<Entry>, message: string, commands: map<CommandId, (string, string)>,
                         done: seq<Event>)
  {
    && AllText(stored) + message == Chunks(done)
    && |Closings(stored)| == |Authoritative(done)| && RecordsSome(Closings(stored), Authoritative(done))
    && forall command ::
         Coarser(RowsOf(stored, command) + HeldRow(commands, command), DeltasOf(done, command))
  }

  /** What is stored is an early part of what these events said. */
  ghost predicate EarlyPart(stored: seq<Entry>, all: seq<Event>) {
    && AllText(stored) <= Chunks(all)
    && RecordsSome(Closings(stored), Authoritative(all))
    && forall command :: EarlyRows(RowsOf(stored, command), DeltasOf(all, command))
  }

  lemma TracksNothing()
    ensures Tracks([], "", map[], [])
  {
  }

  lemma TracksEarly(stored: seq<Entry>, message: string, commands: map<CommandId, (string, string)>,
                    done: seq<Event>, all: seq<Event>)
    requires Tracks(stored, message, commands, done) && done <= all
    ensures EarlyPart(stored, all)
  {
    AuthoritativePrefix(done, all);
    forall command ensures EarlyRows(RowsOf(stored, command), DeltasOf(all, command)) {
      CoarserFront(RowsOf(stored, command), HeldRow(commands, command), DeltasOf(done, command));
      DeltasPrefix(done, all, command);
      EarlierRows(RowsOf(stored, command), DeltasOf(done, command), DeltasOf(all, command));
    }
  }

  lemma EarlyLater(stored: seq<Entry>, done: seq<Event>, all: seq<Event>)
    requires EarlyPart(stored, done) && done <= all
    ensures EarlyPart(stored, all)
  {
    AuthoritativePrefix(done, all);
    forall command ensures EarlyRows(RowsOf(stored, command), DeltasOf(all, command)) {
      DeltasPrefix(done, all, command);
      EarlierRows(RowsOf(stored, command), DeltasOf(done, command), DeltasOf(all, command));
    }
  }

  lemma TracksSkip(stored: seq<Entry>, message: string, commands: map<CommandId, (string, string)>,
                   done: seq<Event>, event: Event)
    requires Tracks(stored, message, commands, done) && event.RunAccepted?
    ensures Tracks(stored, message, commands, done + [event])
  {
    forall command ensures DeltasOf(done + [event], command) == DeltasOf(done, command) {
    }
  }

  lemma TracksMessage(stored: seq<Entry>, message: string, commands: map<CommandId, (string, string)>,
                      done: seq<Event>, event: Event)
    requires Tracks(stored, message, commands, done) && event.MessageDelta?
    ensures Tracks(stored, message + event.chunk, commands, done + [event])
  {
    assert AllText(stored) + (message + event.chunk) == (AllText(stored) + message) + event.chunk;
    forall command ensures DeltasOf(done + [event], command) == DeltasOf(done, command) {
    }
  }

  lemma TracksCommand(stored: seq<Entry>, message: string, commands: map<CommandId, (string, string)>,
                      done: seq<Event>, event: Event)
    requires Tracks(stored, message, commands, done) && event.CommandOutputDelta?
    ensures Tracks(stored, message, Pushed(commands, event.command, event.commandText, event.chunk), done + [event])
  {
    var pushed := Pushed(commands, event.command, event.commandText, event.chunk);
    forall command
      ensures Coarser(RowsOf(stored, command) + HeldRow(pushed, command), DeltasOf(done + [event], command))
    {
      if command == event.command {
        CommandGrows(RowsOf(stored, command), commands, DeltasOf(done, command), event);
      } else {
        assert DeltasOf(done + [event], command) == DeltasOf(done, command);
      }
    }
  }

  lemma {:induction false} CommandGrows(rows: seq<Row>, commands: map<CommandId, (string, string)>, parts: seq<Row>,
                                        event: Event)
    requires event.CommandOutputDelta? && Coarser(rows + HeldRow(commands, event.command), parts)
    ensures Coarser(rows + HeldRow(Pushed(commands, event.command, event.commandText, event.chunk), event.command),
                    parts + [(event.commandText, event.chunk)])
  {
    var part := (event.commandText, event.chunk);
    if event.command in commands {
      CoarserGrow(rows, parts, commands[event.command], part);
    } else {
      assert rows + [] == rows && "" + event.chunk == event.chunk;
      CoarserNew(rows, parts, part);
    }
  }

  /** What a streamed delta does to the buffer. */
  predicate Buffered(event: Event, message: string, commands: map<CommandId, (string, string)>,
                     message': string, commands': map<CommandId, (string, string)>)
  {
    && (event.MessageDelta? ==> message' == message + event.chunk && commands' == commands)
    && (event.CommandOutputDelta? ==>
          message' == message && commands' == Pushed(commands, event.command, event.commandText, event.chunk))
  }

  lemma TracksDelta(stored: seq<Entry>, message: string, commands: map<CommandId, (string, string)>, done: seq<Event>,
                    event: Event, message': string, commands': map<CommandId, (string, string)>)
    requires Tracks(stored, message, commands, done) && (event.MessageDelta? || event.CommandOutputDelta?)
    requires Buffered(event, message, commands, message', commands')
    ensures Tracks(stored, message', commands', done + [event]) && EarlyPart(stored, done + [event])
  {
    if event.MessageDelta? {
      TracksMessage(stored, message, commands, done, event);
    } else {
      TracksCommand(stored, message, commands, done, event);
    }
    TracksEarly(stored, message', commands', done + [event], done + [event]);
  }

  /** A flush moves the buffer into the store. */
  lemma TracksFlush(stored: seq<Entry>, message: string, commands: map<CommandId, (string, string)>,
                    done: seq<Event>, order: seq<CommandId>)
    requires Tracks(stored, message, commands, done) && IdOrder(commands, order)
    ensures Tracks(stored + FlushRows(message, commands, order), "", map[], done)
  {
    var head: seq<Entry> := if message == "" then [] else [MessageBatch(message)];
    var rows := CommandRows(commands, order);
    assert stored + FlushRows(message, commands, order) == (stored + head) + rows;
    HeadStored(stored, message, head);
    RowsText(stored + head, commands, order);
    forall command
      ensures RowsOf((stored + head) + rows, command) == RowsOf(stored, command) + HeldRow(commands, command)
    {
      HeadRows(stored, message, head, command);
      RowsListed(stored + head, commands, order, command);
    }
    forall command ensures RowsOf((stored + head) + rows, command) + HeldRow(map[], command)
                        == RowsOf(stored, command) + HeldRow(commands, command) {
    }
  }

  lemma {:induction false} HeadStored(stored: seq<Entry>, message: string, head: seq<Entry>)
    requires head == if message == "" then [] else [MessageBatch(message)]
    ensures AllText(stored + head) == AllText(stored) + message && Closings(stored + head) == Closings(stored)
  {
    if message == "" {
      assert stored + head == stored && AllText(stored) + "" == AllText(stored);
    }
  }

  lemma {:induction false} HeadRows(stored: seq<Entry>, message: string, head: seq<Entry>, command: CommandId)
    requires head == if message == "" then [] else [MessageBatch(message)]
    ensures RowsOf(stored + head, command) == RowsOf(stored, command)
  {
    if message == "" {
      assert stored + head == stored;
    }
  }

  lemma {:induction false} RowsText(stored: seq<Entry>, commands: map<CommandId, (string, string)>,
                                    order: seq<CommandId>)
    requires forall command :: command in order ==> command in commands
    ensures AllText(stored + CommandRows(commands, order)) == AllText(stored)
    ensures Closings(stored + CommandRows(commands, order)) == Closings(stored)
    decreases |order|
  {
    if order == [] {
      assert stored + CommandRows(commands, order) == stored;
    } else {
      var front, last := order[..|order| - 1], order[|order| - 1];
      RowsText(stored, commands, front);
      var row := CommandBatch(last, commands[last].0, commands[last].1);
      assert stored + CommandRows(commands, order) == (stored + CommandRows(commands, front)) + [row];
    }
  }

  /** In the flushed rows each listed command has exactly its held row. */
  lemma {:induction false} RowsListed(stored: seq<Entry>, commands: map<CommandId, (string, string)>,
                                      order: seq<CommandId>, command: CommandId)
    requires Increasing(order) && forall listed :: listed in order ==> listed in commands
    ensures RowsOf(stored + CommandRows(commands, order), command)
         == RowsOf(stored, command) + if command in order then [commands[command]] else []
    decreases |order|
  {
    if order == [] {
      assert stored + CommandRows(commands, order) == stored;
      assert RowsOf(stored, command) + [] == RowsOf(stored, command);
    } else {
      var front, last := order[..|order| - 1], order[|order| - 1];
      RowsListed(stored, commands, front, command);
      var row := CommandBatch(last, commands[last].0, commands[last].1);
      assert stored + CommandRows(commands, order) == (stored + CommandRows(commands, front)) + [row];
      assert command in order <==> command in front || command == last;
      assert last !in front;
    }
  }

  /** An authoritative event is recorded behind an empty buffer. */
  lemma TracksClosing(stored: seq<Entry>, done: seq<Event>, entry: Entry, event: Event)
    requires Tracks(stored, "", map[], done) && event.Authoritative() && Closing(entry) && Records(entry, event)
    ensures Tracks(stored + [entry], "", map[], done + [event])
  {
    forall command ensures RowsOf(stored + [entry], command) == RowsOf(stored, command)
    {
    }
    forall command ensures DeltasOf(done + [event], command) == DeltasOf(done, command) {
    }
  }

  lemma TracksTogether(stored: seq<Entry>, items: seq<Entry>, entry: Entry, done: seq<Event>, event: Event)
    requires Tracks(stored + items, "", map[], done)
    requires event.Authoritative() && Closing(entry) && Records(entry, event)
    ensures Tracks(stored + (items + [entry]), "", map[], done + [event])
  {
    TracksClosing(stored + items, done, entry, event);
    assert stored + (items + [entry]) == (stored + items) + [entry];
  }
}
