/** The reduction of Codex notifications to harness events, with its table of running commands. */
module Reducer {
  import opened Common

  /** A run is known by its thread and its turn. */
  datatype Run = Run(thread: string, turn: string)
  datatype Command = Command(run: Run, id: string)
  datatype ServerRequest = ServerRequest(run: Run, id: string)

  datatype TurnStatus = Completed | Interrupted | Failed
  datatype Terminal = Ended(status: TurnStatus) | Crashed | ShutDown

  datatype Event =
    | RunAccepted(run: Run)
    | RunTerminal(run: Run, terminal: Terminal)
    | MessageDelta(run: Run, chunk: string)
    | MessageCompleted(run: Run, text: string)
    | FileMutation(run: Run, path: string, summary: string)
    | CommandOutputDelta(command: Command, commandText: string, chunk: string)
    | CommandOutputCompleted(command: Command, commandText: string, output: string)
    | ApprovalRequested(request: ServerRequest, summary: string)
    | UserInputRequested(request: ServerRequest, prompt: string)
    | Unknown(about: Option<Run>, itemType: string)
    | Malformed(about: Option<Run>, itemType: string)
  {
    /** The run an event names, if any. */
    function Of(): Option<Run> {
      match this
      case CommandOutputDelta(command, _, _) => Some(command.run)
      case CommandOutputCompleted(command, _, _) => Some(command.run)
      case ApprovalRequested(request, _) => Some(request.run)
      case UserInputRequested(request, _) => Some(request.run)
      case Unknown(about, _) => about
      case Malformed(about, _) => about
      case _ => Some(run)
    }

    predicate Lifecycle() { RunAccepted? || RunTerminal? }
  }

  // A notification whose fields have been read; a field of the wrong shape is None or a bad item.

  datatype StartedItem = CommandItem(id: string, text: string) | QuietItem | OtherItem(itemType: string) | BadItem

  datatype CompletedItem =
    | MessageItem(text: Option<string>)
    | FileItem(changes: Option<seq<(string, string)>>)
    | DoneCommand(id: string, text: Option<string>, output: Option<string>)
    | OtherDone(itemType: string)
    | BadDone

  datatype Note =
    | ItemStarted(started: StartedItem)
    | AgentDelta(chunk: Option<string>)
    | CommandDelta(id: Option<string>, output: Option<string>)
    | FileDelta(wellFormed: bool)
    | ItemCompleted(completed: CompletedItem)
    | CommandApprovalNote(reason: Option<string>, command: Option<string>)
    | FileApprovalNote(reason: Option<string>)
    | RequestUserInput(prompt: Option<string>)
    | TurnCompleted(status: Option<TurnStatus>)
    | OtherMethod(name: string)
  {
    function Method(): string {
      match this
      case ItemStarted(_) => "item/started"
      case AgentDelta(_) => "item/agentMessage/delta"
      case CommandDelta(_, _) => "item/commandExecution/outputDelta"
      case FileDelta(_) => "item/fileChange/outputDelta"
      case ItemCompleted(_) => "item/completed"
      case CommandApprovalNote(_, _) => "item/commandExecution/requestApproval"
      case FileApprovalNote(_) => "item/fileChange/requestApproval"
      case RequestUserInput(_) => "item/tool/requestUserInput"
      case TurnCompleted(_) => "turn/completed"
      case OtherMethod(name) => name
    }
  }

  type Commands = map<Command, string>

  /** The only notifications that may go by without an event: a start, and a file change that lists nothing. */
  predicate Quiet(note: Note) {
    || (note.ItemStarted? && (note.started.CommandItem? || note.started.QuietItem?))
    || (note.ItemCompleted? && note.completed == FileItem(Some([])))
  }

  function Mutations(run: Run, changes: seq<(string, string)>): (events: seq<Event>)
    ensures |events| == |changes|
    ensures forall i :: 0 <= i < |changes| ==> events[i] == FileMutation(run, changes[i].0, changes[i].1)
  {
    seq(|changes|, i requires 0 <= i < |changes| => FileMutation(run, changes[i].0, changes[i].1))
  }

  function Retired(commands: Commands, run: Run): (left: Commands)
    ensures forall command :: command in left <==> command in commands && command.run != run
    ensures forall command :: command in left ==> left[command] == commands[command]
  {
    map command | command in commands && command.run != run :: commands[command]
  }

  // ----- What a message tells -----

  predicate OnlyMalformed(list: seq<Event>, run: Option<Run>, note: Note) {
    list == [Malformed(run, note.Method())]
  }

  /** One file mutation for each change, in order. */
  predicate TellsChanges(list: seq<Event>, run: Run, changes: seq<(string, string)>) {
    && |list| == |changes|
    && forall i :: 0 <= i < |list| ==>
         list[i].FileMutation? && list[i].run == run && list[i].path == changes[i].0 && list[i].summary == changes[i].1
  }

  /** What a completed item of a run tells. A command is told only under the text it was started with. */
  predicate TellsItem(list: seq<Event>, run: Run, note: Note, before: Commands)
    requires note.ItemCompleted?
  {
    match note.completed
    case MessageItem(text) =>
      if text == None then OnlyMalformed(list, Some(run), note)
      else |list| == 1 && list[0].MessageCompleted? && list[0].run == run && list[0].text == text.value
    case FileItem(changes) =>
      if changes == None then OnlyMalformed(list, Some(run), note) else TellsChanges(list, run, changes.value)
    case DoneCommand(id, text, output) =>
      if !(Command(run, id) in before
           && text == Some(before[Command(run, id)])) then OnlyMalformed(list, Some(run), note)
      else
        && |list| == 1 && list[0].CommandOutputCompleted? && list[0].command == Command(run, id)
        && list[0].commandText == text.value && list[0].output == if output.Some? then output.value else ""
    case OtherDone(itemType) => list == [Unknown(Some(run), itemType)]
    case BadDone => OnlyMalformed(list, Some(run), note)
  }

  /** What a notification about a run tells. */
  predicate TellsOfRun(list: seq<Event>, run: Run, note: Note, before: Commands)
    requires !note.CommandApprovalNote? && !note.FileApprovalNote? && !note.RequestUserInput? && !note.OtherMethod?
  {
    match note
    case ItemStarted(started) =>
      if started.BadItem? then OnlyMalformed(list, Some(run), note)
      else if started.OtherItem? then list == [Unknown(Some(run), started.itemType)]
      else list == []
    case AgentDelta(chunk) =>
      if chunk == None then OnlyMalformed(list, Some(run), note)
      else |list| == 1 && list[0].MessageDelta? && list[0].run == run && list[0].chunk == chunk.value
    case CommandDelta(id, output) =>
      if id == None || output == None || Command(run, id.value) !in before then OnlyMalformed(list, Some(run), note)
      else
        && |list| == 1 && list[0].CommandOutputDelta? && list[0].command == Command(run, id.value)
        && list[0].commandText == before[Command(run, id.value)] && list[0].chunk == output.value
    case FileDelta(wellFormed) =>
      if wellFormed then list == [Unknown(Some(run), note.Method())] else OnlyMalformed(list, Some(run), note)
    case ItemCompleted(_) => TellsItem(list, run, note, before)
    case TurnCompleted(status) =>
      if status == None then OnlyMalformed(list, Some(run), note)
      else
        && |list| == 1 && list[0].RunTerminal? && list[0].run == run
        && list[0].terminal.Ended? && list[0].terminal.status == status.value
  }

  /** What a server request tells, if it was taken. */
  predicate TellsRequest(list: seq<Event>, run: Option<Run>, request: Option<ServerRequest>, note: Note)
    requires note.CommandApprovalNote? || note.FileApprovalNote? || note.RequestUserInput?
  {
    if request == None || (note.RequestUserInput? && (note.prompt == None || note.prompt.value == "")) then
      OnlyMalformed(list, run, note)
    else if note.RequestUserInput? then
      |list| == 1 && list[0].UserInputRequested? && list[0].request == request.value
        && list[0].prompt == note.prompt.value
    else
      && |list| == 1 && list[0].ApprovalRequested? && list[0].request == request.value
      && (note.reason.Some? ==> list[0].summary == note.reason.value)
      && (note.reason == None && note.CommandApprovalNote? && note.command.Some? ==>
            list[0].summary == note.command.value)
      && (note.reason == None && note.CommandApprovalNote? && note.command == None ==>
            list[0].summary == "Codex requests command approval")
      && (note.reason == None && note.FileApprovalNote? ==> list[0].summary == "Codex requests file-change approval")
  }

  /** The events that a message about `run` gives, with `before` the commands that were running. */
  predicate Tells(list: seq<Event>, run: Option<Run>, request: Option<ServerRequest>, note: Note, before: Commands) {
    if note.OtherMethod? then list == [Unknown(run, note.name)]
    else if note.CommandApprovalNote? || note.FileApprovalNote? || note.RequestUserInput? then
      TellsRequest(list, run, request, note)
    else if run == None then OnlyMalformed(list, run, note)
    else TellsOfRun(list, run.value, note, before)
  }

  /** What a message does to the table of running commands. */
  predicate Tracked(run: Option<Run>, note: Note, before: Commands, after: Commands) {
    if run.Some? && note.ItemStarted? && note.started.CommandItem? then
      after == before[Command(run.value, note.started.id) := note.started.text]
    else if run.Some? && note.ItemCompleted? && note.completed.DoneCommand? then
      after == Without(before, Command(run.value, note.completed.id))
    else if run.Some? && note.TurnCompleted? then after == Retired(before, run.value)
    else after == before
  }

  /** Nothing is told without naming the run, and only a completed turn tells of an ending. */
  lemma ToldOfRun(list: seq<Event>, run: Option<Run>, request: Option<ServerRequest>, note: Note, before: Commands)
    requires Tells(list, run, request, note, before) && (request.Some? ==> run == Some(request.value.run))
    ensures forall event <- list :: event.Of() == run && !event.RunAccepted?
    ensures forall event <- list :: event.RunTerminal? ==> note.TurnCompleted? && list == [event]
    ensures list == [] ==> Quiet(note)
    ensures note.TurnCompleted? ==> |list| == 1 && (list[0].RunTerminal? || list[0].Malformed?)
  {
    if run.Some? && !note.OtherMethod? && !note.RequestUserInput? && !note.CommandApprovalNote?
       && !note.FileApprovalNote? {
      ToldPlain(list, run.value, note, before);
    } else if note.RequestUserInput? || note.CommandApprovalNote? || note.FileApprovalNote? {
      ToldRequest(list, run, request, note);
    }
  }

  lemma ToldRequest(list: seq<Event>, run: Option<Run>, request: Option<ServerRequest>, note: Note)
    requires note.CommandApprovalNote? || note.FileApprovalNote? || note.RequestUserInput?
    requires TellsRequest(list, run, request, note) && (request.Some? ==> run == Some(request.value.run))
    ensures |list| == 1 && list[0].Of() == run && !list[0].Lifecycle()
  {
  }

  lemma ToldPlain(list: seq<Event>, run: Run, note: Note, before: Commands)
    requires !note.CommandApprovalNote? && !note.FileApprovalNote? && !note.RequestUserInput? && !note.OtherMethod?
    requires TellsOfRun(list, run, note, before)
    ensures forall event <- list :: event.Of() == Some(run) && !event.RunAccepted?
    ensures forall event <- list :: event.RunTerminal? ==> note.TurnCompleted? && list == [event]
    ensures list == [] ==> Quiet(note)
    ensures note.TurnCompleted? ==> |list| == 1 && (list[0].RunTerminal? || list[0].Malformed?)
  {
    if note.ItemCompleted? {
      ToldItem(list, run, note, before);
    }
  }

  lemma ToldEnding(list: seq<Event>, run: Run, note: Note, before: Commands)
    requires note.TurnCompleted? && Tells(list, Some(run), None, note, before)
    ensures list == [if note.status.Some? then RunTerminal(run, Ended(note.status.value))
                     else Malformed(Some(run), note.Method())]
  {
  }

  lemma RetiredTwice(commands: Commands, run: Run)
    ensures Retired(Retired(commands, run), run) == Retired(commands, run)
  {
  }

  lemma ToldItem(list: seq<Event>, run: Run, note: Note, before: Commands)
    requires note.ItemCompleted? && TellsItem(list, run, note, before)
    ensures forall event <- list :: event.Of() == Some(run) && !event.RunAccepted? && !event.RunTerminal?
    ensures list == [] ==> Quiet(note)
  {
  }

  class Reducer {
    var commands: Commands

    constructor ()
      ensures commands == map[]
    {
      commands := map[];
    }

    method RetireRun(run: Run)
      modifies this
      ensures commands == Retired(old(commands), run)
    {
      commands := Retired(commands, run);
    }

    /** One notification or server request about `run`. */
    method Reduce(note: Note, run: Option<Run>, request: Option<ServerRequest>) returns (events: seq<Event>)
      requires request.Some? ==> run == Some(request.value.run)
      modifies this
      ensures Tells(events, run, request, note, old(commands))
      ensures Tracked(run, note, old(commands), commands)
    {
      var malformed := [Malformed(run, note.Method())];
      match note {
        case ItemStarted(started) =>
          if started.BadItem? || run == None {
            return malformed;
          }
          match started {
            case CommandItem(id, text) =>
              commands := commands[Command(run.value, id) := text];
              events := [];
            case OtherItem(itemType) =>
              events := [Unknown(run, itemType)];
            case _ =>
              events := [];
          }
        case AgentDelta(chunk) =>
          events := if run == None || chunk == None then malformed else [MessageDelta(run.value, chunk.value)];
        case CommandDelta(id, output) =>
          if run == None || id == None || output == None || Command(run.value, id.value) !in commands {
            return malformed;
          }
          var command := Command(run.value, id.value);
          events := [CommandOutputDelta(command, commands[command], output.value)];
        case FileDelta(wellFormed) =>
          events := if run == None || !wellFormed then malformed else [Unknown(run, note.Method())];
        case ItemCompleted(completed) =>
          if run == None {
            return malformed;
          }
          events := CompletedItem(completed, run.value, note);
        case CommandApprovalNote(reason, command) =>
          var summary := if reason.Some? then reason.value
                         else if command.Some? then command.value else "Codex requests command approval";
          events := if request == None then malformed else [ApprovalRequested(request.value, summary)];
        case FileApprovalNote(reason) =>
          var summary := if reason.Some? then reason.value else "Codex requests file-change approval";
          events := if request == None then malformed else [ApprovalRequested(request.value, summary)];
        case RequestUserInput(prompt) =>
          events := if request == None || prompt == None || prompt.value == "" then malformed
                    else [UserInputRequested(request.value, prompt.value)];
        case TurnCompleted(status) =>
          if run == None {
            return malformed;
          }
          RetireRun(run.value);
          events := if status == None then malformed else [RunTerminal(run.value, Ended(status.value))];
        case OtherMethod(name) =>
          events := [Unknown(run, name)];
      }
    }

    method CompletedItem(completed: CompletedItem, run: Run, note: Note) returns (events: seq<Event>)
      requires note == ItemCompleted(completed)
      modifies this
      ensures TellsItem(events, run, note, old(commands))
      ensures commands == if completed.DoneCommand? then Without(old(commands), Command(run, completed.id))
                          else old(commands)
    {
      var malformed := [Malformed(Some(run), note.Method())];
      match completed {
        case MessageItem(text) =>
          events := if text == None then malformed else [MessageCompleted(run, text.value)];
        case FileItem(changes) =>
          events := if changes == None then malformed else Mutations(run, changes.value);
        case DoneCommand(id, text, output) =>
          var command := Command(run, id);
          if command !in commands {
            assert Without(commands, command) == commands;
            return malformed;
          }
          var started := commands[command];
          commands := Without(commands, command);
          if text != Some(started) {
            return malformed;
          }
          events := [CommandOutputCompleted(command, started, if output == None then "" else output.value)];
        case OtherDone(itemType) =>
          events := [Unknown(Some(run), itemType)];
        case BadDone =>
          events := malformed;
      }
    }
  }
}
