/**
 The timeline of a run. The consumer batches streamed deltas and stores them before the next
 authoritative event, or as soon as 32 of them are held. The reference is the unbatched timeline,
 in which every event is stored as it comes; both are compared by what a reader makes of them.
 */
module TimelineModel {
  import opened Common

  /** A native command id, by its rank in the order the supervisor sorts them. */
  datatype CommandId = CommandId(rank: int)

  datatype RunTerminal = Completed | Failed(diagnostic: string) | Interrupted | Crashed(diagnostic: string)
  datatype TerminalStatus = StatusCompleted | StatusFailed | StatusInterrupted

  datatype Event =
    | RunAccepted
    | MessageDelta(chunk: string)
    | MessageCompleted(text: string)
    | ApprovalRequested(request: string, summary: string)
    | UserInputRequested(request: string, prompt: string)
    | FileMutation(path: string, summary: string)
    | CommandOutputDelta(command: CommandId, commandText: string, chunk: string)
    | CommandOutputCompleted(command: CommandId, commandText: string, output: string)
    | Ended(terminal: RunTerminal)
    | Unknown(itemType: string, native: string)
    | Malformed(itemType: string, native: string)
  {
    predicate Authoritative() { !RunAccepted? && !MessageDelta? && !CommandOutputDelta? }
  }

  /** What the store is given, in order: delta batches, authoritative items, approvals and the final status. */
  datatype Entry =
    | MessageBatch(body: string)
    | CommandBatch(command: CommandId, commandText: string, output: string)
    | MessageItem(text: string)
    | CommandItem(command: CommandId, commandText: string, output: string)
    | FileItem(path: string, summary: string)
    | InputItem(request: string, prompt: string)
    | UnknownItem(itemType: string, native: string)
    | MalformedItem(itemType: string, native: string)
    | PendingApproval(request: string, summary: string)
    | FinalStatus(status: TerminalStatus)

  const DELTA_BATCH_CHUNKS := 32

  function StatusOf(terminal: RunTerminal): TerminalStatus {
    match terminal
    case Completed => StatusCompleted
    case Failed(_) => StatusFailed
    case Crashed(_) => StatusFailed
    case Interrupted => StatusInterrupted
  }

  // ----- The unbatched timeline -----

  /** An event stored on its own. */
  function Direct(event: Event): seq<Entry> {
    match event
    case RunAccepted => []
    case MessageDelta(chunk) => [MessageBatch(chunk)]
    case CommandOutputDelta(command, text, chunk) => [CommandBatch(command, text, chunk)]
    case MessageCompleted(text) => [MessageItem(text)]
    case CommandOutputCompleted(command, text, output) => [CommandItem(command, text, output)]
    case FileMutation(path, summary) => [FileItem(path, summary)]
    case UserInputRequested(request, prompt) => [InputItem(request, prompt)]
    case ApprovalRequested(request, summary) => [PendingApproval(request, summary)]
    case Unknown(itemType, native) => [UnknownItem(itemType, native)]
    case Malformed(itemType, native) => [MalformedItem(itemType, native)]
    case Ended(terminal) => [FinalStatus(StatusOf(terminal))]
  }

  function Unbatched(events: seq<Event>): seq<Entry> {
    if events == [] then [] else Unbatched(events[..|events| - 1]) + Direct(events[|events| - 1])
  }

  /** The events up to and including the first terminal. */
  function UpToTerminal(events: seq<Event>): seq<Event> {
    if events == [] then []
    else if events[0].Ended? then [events[0]]
    else [events[0]] + UpToTerminal(events[1..])
  }

  // ----- What a reader makes of a timeline -----

  /** Everything streamed between two authoritative entries, closed by the second of them. */
  datatype Chapter = Chapter(message: string, outputs: map<CommandId, string>, closing: Entry)

  datatype Document = Document(chapters: seq<Chapter>, message: string, outputs: map<CommandId, string>)

  const BLANK := Document([], "", map[])

  function OutputOf(outputs: map<CommandId, string>, command: CommandId): string {
    if command in outputs then outputs[command] else ""
  }

  function Extend(document: Document, entry: Entry): Document {
    match entry
    case MessageBatch(body) => document.(message := document.message + body)
    case CommandBatch(command, _, output) =>
      document.(outputs := document.outputs[command := OutputOf(document.outputs, command) + output])
    case _ => Document(document.chapters + [Chapter(document.message, document.outputs, entry)], "", map[])
  }

  function ExtendAll(document: Document, entries: seq<Entry>): Document {
    if entries == [] then document
    else Extend(ExtendAll(document, entries[..|entries| - 1]), entries[|entries| - 1])
  }

  function Read(entries: seq<Entry>): Document {
    ExtendAll(BLANK, entries)
  }

  lemma {:induction false} ExtendAllOne(document: Document, entries: seq<Entry>, entry: Entry)
    ensures ExtendAll(document, entries + [entry]) == Extend(ExtendAll(document, entries), entry)
    ensures ExtendAll(document, [entry]) == Extend(document, entry)
  {
  }

  lemma {:induction false} ExtendAllConcat(document: Document, first: seq<Entry>, second: seq<Entry>)
    ensures ExtendAll(document, first + second) == ExtendAll(ExtendAll(document, first), second)
    decreases |second|
  {
    if second == [] {
      assert first + second == first;
    } else {
      var front, last := second[..|second| - 1], second[|second| - 1];
      assert first + second == (first + front) + [last];
      ExtendAllOne(document, first + front, last);
      ExtendAllConcat(document, first, front);
    }
  }

  lemma {:induction false} ReadBatch(stored: seq<Entry>, meant: Document, items: seq<Entry>, more: seq<Entry>)
    requires ExtendAll(Read(stored), items) == meant
    ensures Read(stored + (items + more)) == ExtendAll(meant, more)
  {
    ExtendAllConcat(Read(stored), items, more);
    ExtendAllConcat(BLANK, stored, items + more);
  }

  /** The authoritative entries, in order. */
  function Authoritative(entries: seq<Entry>): seq<Entry> {
    if entries == [] then []
    else
      var last := entries[|entries| - 1];
      Authoritative(entries[..|entries| - 1]) + (if last.MessageBatch? || last.CommandBatch? then [] else [last])
  }

  function Closings(chapters: seq<Chapter>): seq<Entry> {
    seq(|chapters|, i requires 0 <= i < |chapters| => chapters[i].closing)
  }

  /** A reading names every authoritative entry, once and in order, so equal readings have equal authoritative items. */
  lemma {:induction false} ChaptersCloseInOrder(entries: seq<Entry>)
    ensures Closings(Read(entries).chapters) == Authoritative(entries)
    decreases |entries|
  {
    if entries != [] {
      ChaptersCloseInOrder(entries[..|entries| - 1]);
      var before, after := Read(entries[..|entries| - 1]), Read(entries);
      if after.chapters != before.chapters {
        assert Closings(after.chapters) == Closings(before.chapters) + [entries[|entries| - 1]];
      }
    }
  }

  // ----- Documents that have been read only in part -----

  ghost predicate OpenPrefix(document: Document, message: string, outputs: map<CommandId, string>) {
    && document.message <= message
    && forall command :: command in document.outputs ==>
         command in outputs && document.outputs[command] <= outputs[command]
  }

  /** `document` is an early part of `later`: nothing in it is out of order or made up. */
  ghost predicate Precedes(document: Document, later: Document) {
    && document.chapters <= later.chapters
    && (if |document.chapters| == |later.chapters| then OpenPrefix(document, later.message, later.outputs)
        else var chapter := later.chapters[|document.chapters|]; OpenPrefix(document, chapter.message, chapter.outputs))
  }

  lemma PrecedesExtend(document: Document, later: Document, entry: Entry)
    requires Precedes(document, later)
    ensures Precedes(document, Extend(later, entry))
  {
  }

  lemma {:induction false} PrecedesExtendAll(document: Document, later: Document, entries: seq<Entry>)
    requires Precedes(document, later)
    ensures Precedes(document, ExtendAll(later, entries))
    decreases |entries|
  {
    if entries != [] {
      PrecedesExtendAll(document, later, entries[..|entries| - 1]);
      PrecedesExtend(document, ExtendAll(later, entries[..|entries| - 1]), entries[|entries| - 1]);
    }
  }

  // ----- What a buffer adds to a document -----

  function HeldOutput(outputs: map<CommandId, string>, commands: map<CommandId, (string, string)>,
                      command: CommandId): string
    requires command in outputs || command in commands
  {
    if command in commands then OutputOf(outputs, command) + commands[command].1 else outputs[command]
  }

  /** The document once the buffered chunks are read too. */
  function Held(document: Document, message: string, commands: map<CommandId, (string, string)>): Document {
    document.(
      message := document.message + message,
      outputs := map command | command in document.outputs.Keys + commands.Keys ::
        HeldOutput(document.outputs, commands, command))
  }

  function CommandRows(commands: map<CommandId, (string, string)>, order: seq<CommandId>): seq<Entry>
    requires forall command :: command in order ==> command in commands
  {
    if order == [] then []
    else
      var last := order[|order| - 1];
      CommandRows(commands, order[..|order| - 1]) + [CommandBatch(last, commands[last].0, commands[last].1)]
  }

  predicate Increasing(order: seq<CommandId>) {
    forall i, j :: 0 <= i < j < |order| ==> order[i].rank < order[j].rank
  }

  function Picked(commands: map<CommandId, (string, string)>, order: seq<CommandId>): map<CommandId, (string, string)> {
    map command | command in order && command in commands :: commands[command]
  }

  lemma HeldNothing(document: Document)
    ensures Held(document, "", map[]) == document
  {
  }

  lemma HeldOneMore(document: Document, commands: map<CommandId, (string, string)>, front: seq<CommandId>,
                    last: CommandId)
    requires last !in front && last in commands
    ensures Held(document, "", Picked(commands, front + [last]))
         == Extend(Held(document, "", Picked(commands, front)), CommandBatch(last, commands[last].0, commands[last].1))
  {
    var picked := Picked(commands, front);
    assert Picked(commands, front + [last]) == picked[last := commands[last]];
    OutputsOneMore(document, picked, last, commands[last]);
  }

  lemma OutputsOneMore(document: Document, picked: map<CommandId, (string, string)>, last: CommandId,
                       entry: (string, string))
    requires last !in picked
    ensures Held(document, "", picked[last := entry])
         == Extend(Held(document, "", picked), CommandBatch(last, entry.0, entry.1))
  {
    var before, after := Held(document, "", picked), Held(document, "", picked[last := entry]);
    assert OutputOf(before.outputs, last) == OutputOf(document.outputs, last);
    assert after.outputs == before.outputs[last := OutputOf(before.outputs, last) + entry.1];
  }

  /** Rows of different commands can be read in any order. */
  lemma {:induction false} ReadCommandRows(document: Document, commands: map<CommandId, (string, string)>,
                                           order: seq<CommandId>)
    requires Increasing(order) && forall command :: command in order ==> command in commands
    ensures ExtendAll(document, CommandRows(commands, order)) == Held(document, "", Picked(commands, order))
    decreases |order|
  {
    if order == [] {
      HeldNothing(document);
      assert Picked(commands, order) == map[];
    } else {
      var front, last := order[..|order| - 1], order[|order| - 1];
      ReadCommandRows(document, commands, front);
      ExtendAllOne(document, CommandRows(commands, front), CommandBatch(last, commands[last].0, commands[last].1));
      assert order == front + [last];
      HeldOneMore(document, commands, front, last);
    }
  }

  function IdsOf(order: seq<CommandId>): (ids: set<CommandId>)
    ensures forall command :: command in ids <==> command in order
  {
    set command | command in order
  }

  /** The buffered commands, once each, in the order of their native ids. */
  predicate IdOrder(commands: map<CommandId, (string, string)>, order: seq<CommandId>) {
    Increasing(order) && IdsOf(order) == commands.Keys
  }

  /** The smallest ids are listed, in order. */
  ghost predicate SortedTo(order: seq<CommandId>, rest: set<CommandId>, all: set<CommandId>) {
    && Increasing(order) && IdsOf(order) + rest == all
    && forall command, other :: command in order && other in rest ==> command.rank < other.rank
  }

  lemma SortedMore(order: seq<CommandId>, rest: set<CommandId>, all: set<CommandId>, least: CommandId)
    requires SortedTo(order, rest, all) && least in rest
    requires forall other :: other in rest ==> least.rank <= other.rank
    ensures SortedTo(order + [least], rest - {least}, all)
  {
    var longer := order + [least];
    assert forall i :: 0 <= i < |order| ==> longer[i] == order[i] && order[i] in order;
    assert IdsOf(longer) == IdsOf(order) + {least};
  }

  /** The rows a flush stores: the message, if there is any text, then one row per command. */
  function FlushRows(message: string, commands: map<CommandId, (string, string)>, order: seq<CommandId>): seq<Entry>
    requires forall command :: command in order ==> command in commands
  {
    (if message == "" then [] else [MessageBatch(message)]) + CommandRows(commands, order)
  }

  lemma {:induction false} ReadFlush(document: Document, message: string, commands: map<CommandId, (string, string)>,
                  order: seq<CommandId>)
    requires IdOrder(commands, order)
    ensures ExtendAll(document, FlushRows(message, commands, order)) == Held(document, message, commands)
  {
    var head: seq<Entry> := if message == "" then [] else [MessageBatch(message)];
    var middle := document.(message := document.message + message);
    assert ExtendAll(document, head) == middle by {
      ExtendAllOne(document, [], MessageBatch(message));
      assert document.message + "" == document.message;
    }
    ExtendAllConcat(document, head, CommandRows(commands, order));
    ReadCommandRows(middle, commands, order);
    assert Picked(commands, order) == commands;
    assert Held(middle, "", commands) == Held(document, message, commands) by {
      assert (document.message + message) + "" == document.message + message;
    }
  }

  lemma HeldMessage(document: Document, message: string, commands: map<CommandId, (string, string)>, chunk: string)
    ensures Held(document, message + chunk, commands) == Extend(Held(document, message, commands), MessageBatch(chunk))
  {
  }

  function Pushed(commands: map<CommandId, (string, string)>, command: CommandId, text: string,
                  chunk: string): map<CommandId, (string, string)> {
    var entry := if command in commands then commands[command] else (text, "");
    commands[command := (entry.0, entry.1 + chunk)]
  }

  lemma HeldCommand(document: Document, message: string, commands: map<CommandId, (string, string)>,
                    command: CommandId, text: string, chunk: string)
    ensures Held(document, message, Pushed(commands, command, text, chunk))
         == Extend(Held(document, message, commands), CommandBatch(command, text, chunk))
  {
    var held := Held(document, message, commands);
    var after := Held(document, message, Pushed(commands, command, text, chunk));
    var prior := if command in commands then commands[command].1 else "";
    assert OutputOf(held.outputs, command) == OutputOf(document.outputs, command) + prior;
    assert OutputOf(document.outputs, command) + (prior + chunk)
             == (OutputOf(document.outputs, command) + prior) + chunk;
    assert after.outputs == held.outputs[command := OutputOf(held.outputs, command) + chunk];
  }

  lemma PrecedesHeld(document: Document, message: string, commands: map<CommandId, (string, string)>)
    ensures Precedes(document, Held(document, message, commands))
  {
  }

  // ----- One event more -----

  lemma ReadOneMore(events: seq<Event>, i: nat)
    requires i < |events|
    ensures Read(Unbatched(events[..i + 1])) == ExtendAll(Read(Unbatched(events[..i])), Direct(events[i]))
  {
    assert events[..i + 1][..i] == events[..i];
    ExtendAllConcat(BLANK, Unbatched(events[..i]), Direct(events[i]));
  }

  lemma {:induction false} UnbatchedPrecedes(document: Document, events: seq<Event>, count: nat)
    requires count <= |events| && Precedes(document, Read(Unbatched(events[..count])))
    ensures Precedes(document, Read(Unbatched(events)))
    decreases |events| - count
  {
    if count == |events| {
      assert events[..count] == events;
    } else {
      ReadOneMore(events, count);
      PrecedesExtendAll(document, Read(Unbatched(events[..count])), Direct(events[count]));
      UnbatchedPrecedes(document, events, count + 1);
    }
  }
}
