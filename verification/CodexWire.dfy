/** What crosses the Codex actor: its frames and inputs, how they are judged, and who is still owed an answer. */
module CodexWire {
  import opened Common
  import opened Reducer
  import opened Settlement

  datatype Kind =
    | EmptyObject
    | AccountRead
    | AccountLogout
    | ThreadList
    | Session(expected: Option<string>)
    | StartRun(session: string)
    | TurnSteer(expectedTurn: string)

  /** A response's result, by the schema it matches. */
  datatype Payload =
    | NoFields
    | Account(signedIn: bool)
    | LoginLink(loginId: string, authUrl: string)
    | Threads
    | Thread(id: string)
    | StartedTurn(id: string)
    | SteeredTurn(id: string)
    | Unrecognised

  datatype Body = ErrorBody(overloaded: bool) | ResultBody(payload: Payload) | BothBodies | NoBody

  predicate ValidFor(kind: Kind, payload: Payload) {
    match kind
    case EmptyObject => payload.NoFields?
    case AccountLogout => payload.NoFields?
    case AccountRead => payload.Account?
    case ThreadList => payload.Threads?
    case Session(expected) => payload.Thread? && (expected == None || expected == Some(payload.id))
    case StartRun(_) => payload.StartedTurn?
    case TurnSteer(expectedTurn) => payload.SteeredTurn? && payload.id == expectedTurn
  }

  const LOGIN_START := "account/login/start"
  const RESPOND := "provider/request/respond"

  /** A client request in flight; the callers of a login start wait in the login state instead. */
  datatype Client = Asked(operation: string, mutation: bool, kind: Kind, ticket: Ticket) | LoginCall
  {
    function Operation(): string { if Asked? then operation else LOGIN_START }

    predicate Mutates() { Asked? ==> mutation }

    predicate Accepts(payload: Payload) { if Asked? then ValidFor(kind, payload) else payload.LoginLink? }
  }

  type Answer = Reply<Payload>

  /** What a request whose frame was written is told when no usable answer can come any more. */
  function Lost(client: Client): Answer {
    Refused(if client.Mutates() then OutcomeUnknown(client.Operation()) else Disconnected)
  }

  /** How a response is understood. A mutation with a malformed acknowledgement has an unknown outcome. */
  function Verdict(client: Client, body: Body): Answer {
    match body
    case ErrorBody(overloaded) => Refused(if overloaded then Overloaded else Protocol)
    case ResultBody(payload) =>
      if client.Accepts(payload) then Succeeded(payload)
      else Refused(if client.Mutates() then OutcomeUnknown(client.Operation()) else Protocol)
    case _ => Refused(if client.Mutates() then OutcomeUnknown(client.Operation()) else Protocol)
  }

  /**
   What the caller of a request in flight is told by a response: the result if it is of the expected
   kind, the error if it is one; and otherwise, when something may have been changed, that nobody knows.
   */
  predicate Understood(client: Client, body: Body, answer: Answer) {
    && (body.ErrorBody? ==> answer.Refused? && answer.error == if body.overloaded then Overloaded else Protocol)
    && (body.ResultBody? && client.Accepts(body.payload) ==> answer.Succeeded? && answer.value == body.payload)
    && (body.NoBody? || body.BothBodies? || (body.ResultBody? && !client.Accepts(body.payload)) ==>
          && answer.Refused?
          && (client.LoginCall? || client.mutation ==>
                answer.error.OutcomeUnknown?
                && answer.error.operation == if client.LoginCall? then "account/login/start" else client.operation)
          && (client.Asked? && !client.mutation ==> answer.error.Protocol?))
    && (answer.Succeeded? ==> Fulfils(client, answer.value))
  }

  /** A good answer is the one to this very request: of its schema, for its turn, and for the session it expects. */
  predicate Fulfils(client: Client, payload: Payload) {
    && (client.LoginCall? ==> payload.LoginLink?)
    && (client.Asked? && (client.kind.EmptyObject? || client.kind.AccountLogout?) ==> payload.NoFields?)
    && (client.Asked? && client.kind.AccountRead? ==> payload.Account?)
    && (client.Asked? && client.kind.ThreadList? ==> payload.Threads?)
    && (client.Asked? && client.kind.StartRun? ==> payload.StartedTurn?)
    && (client.Asked? && client.kind.TurnSteer? ==> payload.SteeredTurn? && payload.id == client.kind.expectedTurn)
    && (client.Asked? && client.kind.Session? ==>
          payload.Thread? && (client.kind.expected.Some? ==> payload.id == client.kind.expected.value))
  }

  lemma VerdictUnderstood(client: Client, body: Body)
    ensures Understood(client, body, Verdict(client, body))
  {
  }

  datatype ServerKind = ApprovalCall | UserInputCall(questions: seq<string>)
  datatype ServerEntry = ServerEntry(kind: ServerKind, uncertain: bool)

  /** A server request by method, with its parameters checked. */
  datatype ServerCall =
    | CommandApproval(valid: bool, reason: Option<string>, command: Option<string>)
    | FileApproval(valid: bool, reason: Option<string>)
    | UserInput(valid: bool, questions: seq<string>, prompt: Option<string>)
    | Unsupported(name: string)
    | Nameless
  {
    function Method(): string {
      match this
      case CommandApproval(_, _, _) => "item/commandExecution/requestApproval"
      case FileApproval(_, _) => "item/fileChange/requestApproval"
      case UserInput(_, _, _) => "item/tool/requestUserInput"
      case Unsupported(name) => name
      case Nameless => "codex.unknown"
    }

    /** What the reducer makes of an accepted request. */
    function AsNote(): Note
      requires !Unsupported? && !Nameless?
    {
      match this
      case CommandApproval(_, reason, command) => CommandApprovalNote(reason, command)
      case FileApproval(_, reason) => FileApprovalNote(reason)
      case UserInput(_, _, prompt) => RequestUserInput(prompt)
    }

    function Entry(): ServerEntry {
      ServerEntry(if UserInput? then UserInputCall(questions) else ApprovalCall, false)
    }
  }

  /** The run a message names: none, an ill-typed or unknown one, or a well-formed key. */
  datatype Identity = Unnamed | Named(key: Option<Run>)

  datatype Frame =
    | Response(id: Option<nat>, body: Body)
    | LoginCompleted(outcome: Option<(string, bool)>)
    | AccountUpdated(valid: bool)
    | Request(identity: Identity, rpcId: Option<string>, call: ServerCall)
    | Notification(identity: Identity, note: Note)

  // Rejection codes of section 5.1 of the JSON-RPC 2.0 specification.
  const INVALID_REQUEST := -32600
  const METHOD_NOT_FOUND := -32601
  const INVALID_PARAMS := -32602

  /** Why a server request is refused; None if it is taken. The checks run in this order. */
  function Rejection(call: ServerCall, run: Option<Run>, rpcId: Option<string>, known: set<ServerRequest>):
    (code: Option<int>)
    ensures code == None <==>
              && (call.CommandApproval? || call.FileApproval? || call.UserInput?) && call.valid
              && run.Some? && rpcId.Some? && ServerRequest(run.value, rpcId.value) !in known
    ensures code == Some(-32601) <==> call.Unsupported?
    ensures code == Some(-32602) <==>
              (call.CommandApproval? || call.FileApproval? || call.UserInput?) && (!call.valid || run == None)
    ensures code.Some? ==> code.value in {-32600, -32601, -32602}
  {
    if call.Nameless? then Some(INVALID_REQUEST)
    else if call.Unsupported? then Some(METHOD_NOT_FOUND)
    else if !call.valid then Some(INVALID_PARAMS)
    else if run == None then Some(INVALID_PARAMS)
    else if rpcId == None then Some(INVALID_REQUEST)
    else if ServerRequest(run.value, rpcId.value) in known then Some(INVALID_REQUEST)
    else None
  }

  datatype ProviderResponse = ApprovalAnswer(approved: bool) | InputAnswer(text: string)

  datatype Input =
    | ClientRequest(operation: string, about: Option<Run>, mutation: bool, kind: Kind)
    | ClientResponse(request: ServerRequest, response: ProviderResponse)
    | LoginRequest
    | Shutdown
    | Inbound(frame: Frame)
    | BadFrame(oversized: bool)
    | Eof

  /** What an input leaves the actor to do: go on, end because the child is gone, or end as asked. */
  datatype Turn = GoOn | ChildGone | AskedToStop

  // ----- The ledger of tickets -----

  function Waiters(login: Login): seq<Ticket> {
    if login.LoginStarting? then login.waiters else []
  }

  predicate Pends(pending: map<nat, Client>, ticket: Ticket) {
    exists id :: id in pending && pending[id].Asked? && pending[id].ticket == ticket
  }

  /** Every ticket handed out is answered, in flight or waiting: exactly one of the three, and once. */
  ghost predicate Ledger(replies: seq<(Ticket, Answer)>, pending: map<nat, Client>, waiters: seq<Ticket>, issued: nat) {
    && AnsweredOnce(replies)
    && (forall i, j :: 0 <= i < j < |waiters| ==> waiters[i] != waiters[j])
    && (forall a, b :: a in pending && b in pending && a != b && pending[a].Asked? && pending[b].Asked? ==>
          pending[a].ticket != pending[b].ticket)
    && (forall ticket: Ticket ::
          ticket < issued <==> ticket in Answered(replies) || Pends(pending, ticket) || ticket in waiters)
    && (forall ticket: Ticket :: ticket in Answered(replies) ==> !Pends(pending, ticket) && ticket !in waiters)
    && (forall ticket: Ticket :: ticket in waiters ==> !Pends(pending, ticket))
  }

  lemma LedgerIssueAnswered(replies: seq<(Ticket, Answer)>, pending: map<nat, Client>, waiters: seq<Ticket>,
                            issued: nat, answer: Answer)
    requires Ledger(replies, pending, waiters, issued)
    ensures Ledger(replies + [(issued, answer)], pending, waiters, issued + 1)
  {
    AnsweredAppend(replies, issued, answer);
  }

  lemma LedgerIssuePending(replies: seq<(Ticket, Answer)>, pending: map<nat, Client>, waiters: seq<Ticket>,
                           issued: nat, id: nat, client: Client)
    requires Ledger(replies, pending, waiters, issued) && id !in pending && client.Asked? && client.ticket == issued
    ensures Ledger(replies, pending[id := client], waiters, issued + 1)
  {
    var pending' := pending[id := client];
    assert pending'[id].ticket == issued;
    forall ticket: Ticket ensures Pends(pending', ticket) <==> Pends(pending, ticket) || ticket == issued {
      if Pends(pending, ticket) {
        var other :| other in pending && pending[other].Asked? && pending[other].ticket == ticket;
        assert other in pending' && pending'[other].ticket == ticket;
      }
    }
    assert forall other :: other in pending && pending[other].Asked? ==> Pends(pending, pending[other].ticket);
  }

  lemma LedgerIssueWaiter(replies: seq<(Ticket, Answer)>, pending: map<nat, Client>, waiters: seq<Ticket>, issued: nat)
    requires Ledger(replies, pending, waiters, issued)
    ensures Ledger(replies, pending, waiters + [issued], issued + 1)
  {
    var waiters' := waiters + [issued];
    forall i | 0 <= i < |waiters| ensures waiters[i] < issued {
      var ticket := waiters[i];
      assert ticket in waiters;
    }
    assert forall ticket :: ticket in waiters' <==> ticket in waiters || ticket == issued;
    assert !(issued < issued);
  }

  lemma LedgerQuiet(replies: seq<(Ticket, Answer)>, pending: map<nat, Client>, pending': map<nat, Client>,
                    waiters: seq<Ticket>, issued: nat)
    requires Ledger(replies, pending, waiters, issued)
    requires forall id :: id in pending && pending[id].Asked? ==> id in pending' && pending'[id] == pending[id]
    requires forall id :: id in pending' && pending'[id].Asked? ==> id in pending && pending'[id] == pending[id]
    ensures Ledger(replies, pending', waiters, issued)
  {
    forall ticket: Ticket ensures Pends(pending', ticket) <==> Pends(pending, ticket) {
      if Pends(pending, ticket) {
        var id :| id in pending && pending[id].Asked? && pending[id].ticket == ticket;
        assert id in pending' && pending'[id].ticket == ticket;
      }
    }
  }

  lemma LedgerSettle(replies: seq<(Ticket, Answer)>, pending: map<nat, Client>, waiters: seq<Ticket>, issued: nat,
                     id: nat, answer: Answer)
    requires Ledger(replies, pending, waiters, issued) && id in pending && pending[id].Asked?
    ensures Ledger(replies + [(pending[id].ticket, answer)], Without(pending, id), waiters, issued)
  {
    var ticket, pending' := pending[id].ticket, Without(pending, id);
    assert Pends(pending, ticket);
    AnsweredAppend(replies, ticket, answer);
    forall other: Ticket ensures Pends(pending', other) <==> Pends(pending, other) && other != ticket {
      if Pends(pending, other) && other != ticket {
        var at :| at in pending && pending[at].Asked? && pending[at].ticket == other;
        assert at in pending' && pending'[at].ticket == other;
      }
    }
  }

  lemma LedgerWaiter(replies: seq<(Ticket, Answer)>, pending: map<nat, Client>, waiters: seq<Ticket>, issued: nat,
                     answer: Answer)
    requires Ledger(replies, pending, waiters, issued) && waiters != []
    ensures Ledger(replies + [(waiters[0], answer)], pending, waiters[1..], issued)
  {
    AnsweredAppend(replies, waiters[0], answer);
    assert waiters == [waiters[0]] + waiters[1..];
    assert forall i :: 0 <= i < |waiters[1..]| ==> waiters[1..][i] == waiters[i + 1];
  }

  /** Nobody whose request changes something is told that the connection is merely gone. */
  ghost predicate NeverMisled(replies: seq<(Ticket, Answer)>, mutating: set<Ticket>) {
    forall i :: 0 <= i < |replies| && replies[i].1 == Refused(Disconnected) ==> replies[i].0 !in mutating
  }

  predicate Increasing(ids: seq<nat>, bound: nat) {
    && (forall i, j :: 0 <= i < j < |ids| ==> ids[i] < ids[j])
    && (forall i :: 0 <= i < |ids| ==> ids[i] < bound)
  }

  /** Ids are written in increasing order, and whatever is in flight was written. */
  predicate Wired(pending: map<nat, Client>, wire: seq<nat>, nextId: nat) {
    && Increasing(wire, nextId)
    && forall id :: id in pending ==> id in wire
  }

  /** `mutating` holds exactly the tickets, of those still open, whose request changes something. */
  predicate Marked(pending: map<nat, Client>, waiters: seq<Ticket>, mutating: set<Ticket>, issued: nat) {
    && (forall id :: id in pending && pending[id].Asked? ==> (pending[id].mutation <==> pending[id].ticket in mutating))
    && (forall ticket :: ticket in waiters ==> ticket in mutating)
    && (forall ticket: Ticket :: ticket in mutating ==> ticket < issued)
  }

  lemma WiredNext(pending: map<nat, Client>, wire: seq<nat>, nextId: nat, client: Client)
    requires Wired(pending, wire, nextId)
    ensures nextId !in pending && Wired(pending[nextId := client], wire + [nextId], nextId + 1)
    ensures Wired(pending, wire + [nextId], nextId + 1)
  {
  }

  lemma MisledAppend(replies: seq<(Ticket, Answer)>, mutating: set<Ticket>, ticket: Ticket, answer: Answer)
    requires NeverMisled(replies, mutating)
    requires answer == Refused(Disconnected) ==> ticket !in mutating
    ensures NeverMisled(replies + [(ticket, answer)], mutating)
  {
  }

  lemma MisledGrow(replies: seq<(Ticket, Answer)>, pending: map<nat, Client>, waiters: seq<Ticket>,
                   mutating: set<Ticket>, issued: nat)
    requires NeverMisled(replies, mutating) && Ledger(replies, pending, waiters, issued)
    ensures NeverMisled(replies, mutating + {issued})
  {
    forall i | 0 <= i < |replies| ensures replies[i].0 != issued {
      assert replies[i].0 in Answered(replies);
    }
  }

  /** Whether something may have been changed is not known; if nothing can have been, the child is just gone. */
  predicate MeansLoss(client: Client, answer: Answer) {
    && answer.Refused?
    && (client.LoginCall? || client.mutation ==>
          answer.error.OutcomeUnknown?
          && answer.error.operation == if client.LoginCall? then "account/login/start" else client.operation)
    && (client.Asked? && !client.mutation ==> answer.error.Disconnected?)
  }

  /** An answer that one of the requests in flight gets when the child is gone. */
  predicate FromLoss(pending: map<nat, Client>, reply: (Ticket, Answer)) {
    exists id :: id in pending && pending[id].Asked? && reply.0 == pending[id].ticket && MeansLoss(pending[id], reply.1)
  }

  predicate AllFromLoss(pending: map<nat, Client>, replies: seq<(Ticket, Answer)>) {
    forall reply <- replies :: FromLoss(pending, reply)
  }

  /** What is still pending was pending before. */
  predicate Within(pending: map<nat, Client>, before: map<nat, Client>) {
    forall id :: id in pending ==> id in before && pending[id] == before[id]
  }

  /** One more call settled: what was answered since the start is still answered with its loss. */
  lemma MoreFromLoss(pending: map<nat, Client>, first: seq<(Ticket, Answer)>, before: seq<(Ticket, Answer)>,
                     after: seq<(Ticket, Answer)>, id: nat)
    requires first <= before && AllFromLoss(pending, before[|first|..]) && id in pending
    requires || (after == before)
             || (pending[id].Asked? && after == before + [(pending[id].ticket, Lost(pending[id]))])
    ensures first <= after && AllFromLoss(pending, after[|first|..])
  {
    if after != before {
      assert after[|first|..] == before[|first|..] + [after[|before|]];
    }
  }

  /** The same answer to each of the waiters, in the order in which they came. */
  function Told(waiters: seq<Ticket>, answer: Answer): (replies: seq<(Ticket, Answer)>)
    ensures |replies| == |waiters|
    ensures forall i :: 0 <= i < |waiters| ==> replies[i] == (waiters[i], answer)
  {
    seq(|waiters|, i requires 0 <= i < |waiters| => (waiters[i], answer))
  }

  lemma ToldOne(ticket: Ticket, answer: Answer)
    ensures Told([ticket], answer) == [(ticket, answer)]
  {
  }
}
