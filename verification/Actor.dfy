/**
 The actor that owns one Codex child process. It handles one input at a time; a write to the child
 may fail at any moment, which ends the actor.
 */
module Actor {
  import opened Common
  import Reducing = Reducer
  import opened Reducer
  import opened Settlement
  import opened CodexWire

  /** What the child's answer to a login start means for the login. */
  function AnswerTo(answer: Answer): LoginNotice {
    if answer.Succeeded? && answer.value.LoginLink? then StartAnswered(answer.value.loginId, answer.value.authUrl)
    else StartRefused
  }

  class Actor {
    const reducer: Reducing.Reducer
    var nextId: nat
    var pending: map<nat, Client>
    var requests: map<ServerRequest, ServerEntry>
    var runs: set<Run>
    var login: Login

    /** What was sent on the event channel. */
    var events: seq<Event>

    /** The ids of the request frames handed to the child, in order. */
    var wire: seq<nat>

    /** The answers to server requests handed to the child, in order. */
    var responses: seq<(ServerRequest, ProviderResponse)>

    /** The errors written back for server requests that were not taken, in order. */
    var rejections: seq<(Option<string>, int)>

    /** The inputs handled so far. Read by the specification only. */
    var handled: seq<Input>

    /** The answers given to callers; `issued` counts the callers so far. */
    var replies: seq<(Ticket, Answer)>
    var issued: nat

    /** The callers whose request changes something. */
    ghost var mutating: set<Ticket>

    /** Runs, and everything that names one, agree with the events sent. */
    ghost predicate RunsValid()
      reads `events, `runs, `requests, reducer
    {
      && Tabled(events, runs)
      && (forall request :: request in requests ==> request.run in runs)
      && (forall command :: command in reducer.commands ==> command.run in runs)
    }

    /** Callers and the frames written for them agree with the answers given. */
    ghost predicate BooksValid()
      reads `nextId, `pending, `login, `wire, `replies, `issued, `mutating
    {
      && Ledger(replies, pending, Waiters(login), issued)
      && NeverMisled(replies, mutating)
      && Wired(pending, wire, nextId)
      && Marked(pending, Waiters(login), mutating, issued)
    }

    ghost predicate Valid()
      reads this, reducer
    {
      RunsValid() && BooksValid()
    }

    constructor ()
      ensures Valid() && fresh(reducer)
      ensures pending == map[] && requests == map[] && runs == {} && login == LoginIdle
      ensures events == [] && replies == [] && wire == [] && responses == [] && issued == 0
    {
      reducer := new Reducing.Reducer();
      nextId, pending, requests, runs, login := 2, map[], map[], {}, LoginIdle;
      events, wire, responses, replies, issued, mutating := [], [], [], [], 0, {};
      rejections, handled := [], [];
    }

    // ----- Runs -----

    method EmitTerminalAndRetire(run: Run, terminal: Terminal)
      requires RunsValid() && run in runs
      modifies `events, `runs, `requests, reducer
      ensures RunsValid()
      ensures events == old(events) + [RunTerminal(run, terminal)]
      ensures runs == old(runs) - {run}
      ensures requests == map request | request in old(requests) && request.run != run :: old(requests)[request]
      ensures reducer.commands == Retired(old(reducer.commands), run)
    {
      TabledEnded(events, runs, run, terminal);
      events := events + [RunTerminal(run, terminal)];
      runs := runs - {run};
      requests := map request | request in requests && request.run != run :: requests[request];
      reducer.RetireRun(run);
    }

    method Emit(event: Event)
      requires RunsValid() && !event.Lifecycle()
      requires event.Of().Some? ==> event.Of().value in runs
      modifies `events
      ensures RunsValid() && events == old(events) + [event]
    {
      TabledPlain(events, runs, event);
      events := events + [event];
    }

    method AcceptRun(run: Run)
      requires RunsValid()
      modifies `events, `runs
      ensures RunsValid() && events == old(events) + [RunAccepted(run)] && runs == old(runs) + {run}
    {
      TabledAccepted(events, runs, run);
      runs := runs + {run};
      events := events + [RunAccepted(run)];
    }

    /** Sends what the reducer made of a message, and ends the run if the message completes it. */
    method Relay(list: seq<Event>, run: Option<Run>, completes: bool)
      requires RunsValid() && (run.Some? ==> run.value in runs)
      requires forall event <- list :: !event.RunAccepted? && event.Of() == run
      requires if completes then |list| == 1 && (list[0].RunTerminal? || list[0].Malformed?)
               else forall event <- list :: !event.RunTerminal?
      modifies `events, `runs, `requests, reducer
      ensures RunsValid()
      ensures !completes ==> events == old(events) + list
      ensures !completes ==> runs == old(runs) && requests == old(requests) && reducer.commands == old(reducer.commands)
      ensures completes ==> runs == (if run.Some? then old(runs) - {run.value} else old(runs))
      ensures completes ==> reducer.commands == if run.Some? then Retired(old(reducer.commands), run.value)
                                                else old(reducer.commands)
      ensures completes && run == None ==> requests == old(requests)
      ensures completes && list[0].RunTerminal? ==> events == old(events) + list
      ensures completes && list[0].Malformed? ==>
                events == old(events) + list + if run.Some? then [RunTerminal(run.value, Crashed)] else []
    {
      var k := 0;
      while k < |list|
        invariant 0 <= k <= |list| && RunsValid()
        invariant !completes || k == 0 ==>
                    && events == old(events) + list[..k] && runs == old(runs) && requests == old(requests)
                    && reducer.commands == old(reducer.commands)
        invariant completes && k == 1 ==> runs == (if run.Some? then old(runs) - {run.value} else old(runs))
        invariant completes && k == 1 && run == None ==> requests == old(requests)
        invariant completes && k == 1 ==>
                    reducer.commands == if run.Some? then Retired(old(reducer.commands), run.value)
                                                              else old(reducer.commands)
        invariant completes && k == 1 && list[0].RunTerminal? ==> events == old(events) + list
        invariant completes && k == 1 && list[0].Malformed? ==>
                    events == old(events) + list + if run.Some? then [RunTerminal(run.value, Crashed)] else []
      {
        var event := list[k];
        assert event in list && list[..k + 1] == list[..k] + [event];
        if event.RunTerminal? {
          EmitTerminalAndRetire(event.run, event.terminal);
        } else {
          Emit(event);
          if completes && run.Some? {
            EmitTerminalAndRetire(run.value, Crashed);
          }
        }
        k := k + 1;
      }
      assert list[..|list|] == list;
    }

    // ----- Answers -----

    /** The caller of one request in flight gets its answer. */
    method AnswerAsked(id: nat, answer: Answer)
      requires BooksValid() && id in pending && pending[id].Asked?
      requires answer == Refused(Disconnected) ==> !pending[id].mutation
      modifies `pending, `replies
      ensures BooksValid()
      ensures pending == Without(old(pending), id)
      ensures replies == old(replies) + [(old(pending)[id].ticket, answer)]
    {
      LedgerSettle(replies, pending, Waiters(login), issued, id, answer);
      MisledAppend(replies, mutating, pending[id].ticket, answer);
      replies := replies + [(pending[id].ticket, answer)];
      pending := Without(pending, id);
    }

    /** Takes a login call off the table; its callers are answered through the login state. */
    method DropLoginCall(id: nat)
      requires BooksValid() && id in pending && pending[id].LoginCall?
      modifies `pending
      ensures BooksValid() && pending == Without(old(pending), id)
    {
      LedgerQuiet(replies, pending, Without(pending, id), Waiters(login), issued);
      pending := Without(pending, id);
    }

    /** Every queued caller gets the same answer, once, and the login moves on. */
    method AnswerWaiters(answer: Answer, after: Login)
      requires BooksValid() && Waiters(after) == [] && answer != Refused(Disconnected)
      modifies `login, `replies
      ensures BooksValid() && login == after
      ensures replies == old(replies) + Told(Waiters(old(login)), answer)
    {
      var waiters := Waiters(login);
      login := after;
      var k := 0;
      ghost var told := Told(waiters, answer);
      assert waiters[0..] == waiters;
      while k < |waiters|
        invariant 0 <= k <= |waiters| && login == after
        invariant replies == old(replies) + told[..k]
        invariant Ledger(replies, pending, waiters[k..], issued) && NeverMisled(replies, mutating)
      {
        assert waiters[k..][0] == waiters[k] && waiters[k..][1..] == waiters[k + 1..];
        assert told[..k + 1] == told[..k] + [(waiters[k], answer)];
        LedgerWaiter(replies, pending, waiters[k..], issued, answer);
        MisledAppend(replies, mutating, waiters[k], answer);
        replies := replies + [(waiters[k], answer)];
        k := k + 1;
      }
      assert told[..|waiters|] == told && waiters[|waiters|..] == [];
    }

    /** The login state is replaced while callers may be queued in it: their channels are dropped. */
    method ForgetLogin()
      requires BooksValid()
      modifies `login, `replies
      ensures BooksValid() && login == LoginIdle
      ensures replies == old(replies) + Told(Waiters(old(login)), Lost(LoginCall))
    {
      AnswerWaiters(Lost(LoginCall), LoginIdle);
    }

    method SettleLoginStart(answer: Answer)
      requires BooksValid() && answer != Refused(Disconnected)
      requires answer.Succeeded? ==> answer.value.LoginLink?
      modifies `login, `replies
      ensures BooksValid()
      ensures login == Moved(old(login), AnswerTo(answer))
      ensures replies == old(replies) + Told(Waiters(old(login)), answer)
    {
      if !login.LoginStarting? {
        login := LoginIdle;
        return;
      }
      var after := LoginIdle;
      if answer.Succeeded? {
        var loginId, authUrl := answer.value.loginId, answer.value.authUrl;
        after := if login.updated then LoginIdle
                 else if login.completion == Some((loginId, true)) then LoginIdle
                 else if login.completion == Some((loginId, false)) then LoginFailed
                 else LoginPending(loginId, authUrl);
      }
      AnswerWaiters(answer, after);
    }

    /** A caller whose request ends at once. */
    method AnswerNow(answer: Answer, mutation: bool)
      requires BooksValid() && (mutation ==> answer != Refused(Disconnected))
      modifies `replies, `issued, `mutating
      ensures BooksValid()
      ensures replies == old(replies) + [(old(issued), answer)] && issued == old(issued) + 1
      ensures mutating == if mutation then old(mutating) + {old(issued)} else old(mutating)
    {
      LedgerIssueAnswered(replies, pending, Waiters(login), issued, answer);
      MisledGrow(replies, pending, Waiters(login), mutating, issued);
      mutating := if mutation then mutating + {issued} else mutating;
      MisledAppend(replies, mutating, issued, answer);
      replies := replies + [(issued, answer)];
      issued := issued + 1;
    }

    // ----- Callers; `written` is whether the write to the child succeeded -----

    /** A request about a run the actor does not know is refused before anything is written. */
    twostate predicate RequestMade(operation: string, about: Option<Run>, mutation: bool, kind: Kind, written: bool,
                                   alive: bool)
      reads `runs, `nextId, `pending, `wire, `replies, `issued, `mutating
    {
      var known, client := about.Some? ==> about.value in old(runs), Asked(operation, mutation, kind, old(issued));
      && issued == old(issued) + 1
      && mutating == (if mutation then old(mutating) + {old(issued)} else old(mutating))
      && alive == (known ==> written)
      && wire == old(wire) + (if known then [old(nextId)] else [])
      && pending == (if known && written then old(pending)[old(nextId) := client] else old(pending))
      && |replies| == |old(replies)| + (if known && written then 0 else 1) && old(replies) <= replies
      && (!(known && written) ==>
            && replies[|old(replies)|].0 == old(issued) && replies[|old(replies)|].1.Refused?
            && var error := replies[|old(replies)|].1.error;
               && (!known ==> error.NotFound?)
               && (known && mutation ==> error.OutcomeUnknown? && error.operation == operation)
               && (known && !mutation ==> error.Disconnected?))
    }

    method HandleRequest(operation: string, about: Option<Run>, mutation: bool, kind: Kind, written: bool)
      returns (alive: bool)
      requires BooksValid()
      modifies `nextId, `pending, `wire, `replies, `issued, `mutating
      ensures BooksValid() && RequestMade(operation, about, mutation, kind, written, alive)
      ensures old(replies) <= replies && old(wire) <= wire && (!alive ==> !written) && issued == old(issued) + 1
    {
      if about.Some? && about.value !in runs {
        AnswerNow(Refused(NotFound), mutation);
        return true;
      }
      var client := Asked(operation, mutation, kind, issued);
      var id := WriteFrame();
      if written {
        Register(id, client);
      } else {
        AnswerNow(Lost(client), mutation);
      }
      return written;
    }

    /** A request frame is handed to the child under an id that was never used. */
    method WriteFrame() returns (id: nat)
      requires BooksValid()
      modifies `nextId, `wire
      ensures BooksValid() && id == old(nextId) && nextId == id + 1
      ensures wire == old(wire) + [id] && id !in pending
    {
      id := nextId;
      WiredNext(pending, wire, id, LoginCall);
      nextId := nextId + 1;
      wire := wire + [id];
    }

    /** Its caller is now owed the child's answer. */
    method Register(id: nat, client: Client)
      requires BooksValid() && id !in pending && id in wire
      requires client.Asked? && client.ticket == issued
      modifies `pending, `issued, `mutating
      ensures BooksValid() && pending == old(pending)[id := client] && issued == old(issued) + 1
      ensures mutating == if client.mutation then old(mutating) + {old(issued)} else old(mutating)
    {
      LedgerIssuePending(replies, pending, Waiters(login), issued, id, client);
      MisledGrow(replies, pending, Waiters(login), mutating, issued);
      mutating := if client.mutation then mutating + {issued} else mutating;
      pending := pending[id := client];
      issued := issued + 1;
    }

    method QueueWaiter(after: Login)
      requires BooksValid() && after.LoginStarting? && after.waiters == Waiters(login) + [issued]
      modifies `login, `issued, `mutating
      ensures BooksValid() && login == after && issued == old(issued) + 1
      ensures mutating == old(mutating) + {old(issued)}
    {
      MisledGrow(replies, pending, Waiters(login), mutating, issued);
      LedgerIssueWaiter(replies, pending, Waiters(login), issued);
      mutating := mutating + {issued};
      login := after;
      issued := issued + 1;
    }

    /** A second login joins the first, a pending one is returned, and only otherwise is one started. */
    twostate predicate LoginMade(written: bool, alive: bool)
      reads `nextId, `pending, `login, `wire, `replies, `issued, `mutating
    {
      && issued == old(issued) + 1 && mutating == old(mutating) + {old(issued)}
      && (old(login).LoginStarting? ==>
            && alive && login == old(login).(waiters := old(login).waiters + [old(issued)])
            && replies == old(replies) && wire == old(wire) && pending == old(pending))
      && (old(login).LoginPending? ==>
            && alive && login == old(login) && wire == old(wire) && pending == old(pending)
            && replies == old(replies)
                 + [(old(issued), Succeeded(LoginLink(old(login).loginId, old(login).authUrl)))])
      && (old(login).LoginIdle? || old(login).LoginFailed? ==>
            && alive == written && wire == old(wire) + [old(nextId)]
            && login == (if written then LoginStarting([old(issued)], None, false) else LoginIdle)
            && pending == (if written then old(pending)[old(nextId) := LoginCall] else old(pending))
            && replies == old(replies) + if written then [] else [(old(issued), Lost(LoginCall))])
    }

    method HandleLogin(written: bool) returns (alive: bool)
      requires BooksValid()
      modifies `nextId, `pending, `login, `wire, `replies, `issued, `mutating
      ensures BooksValid() && LoginMade(written, alive)
      ensures old(replies) <= replies && old(wire) <= wire && (!alive ==> !written) && issued == old(issued) + 1
    {
      if login.LoginPending? {
        AnswerNow(Succeeded(LoginLink(login.loginId, login.authUrl)), true);
        return true;
      }
      if login.LoginStarting? {
        QueueWaiter(login.(waiters := login.waiters + [issued]));
        return true;
      }
      alive := BeginLogin(written);
    }

    /** Its caller is the first waiter; a write that fails ends the login again. */
    method BeginLogin(written: bool) returns (alive: bool)
      requires BooksValid() && (login.LoginIdle? || login.LoginFailed?)
      modifies `nextId, `pending, `login, `wire, `replies, `issued, `mutating
      ensures BooksValid() && issued == old(issued) + 1
      ensures mutating == old(mutating) + {old(issued)}
      ensures alive == written && wire == old(wire) + [old(nextId)]
      ensures login == if written then LoginStarting([old(issued)], None, false) else LoginIdle
      ensures pending == if written then old(pending)[old(nextId) := LoginCall] else old(pending)
      ensures replies == old(replies) + if written then [] else [(old(issued), Lost(LoginCall))]
    {
      assert Waiters(login) + [issued] == [issued];
      QueueWaiter(LoginStarting([issued], None, false));
      var id := WriteFrame();
      if written {
        RegisterLogin(id);
      } else {
        FailLogin();
      }
      return written;
    }

    /** The write of the first waiter's login failed. */
    method FailLogin()
      requires BooksValid() && login.LoginStarting? && |login.waiters| == 1
      modifies `login, `replies
      ensures BooksValid() && login == LoginIdle
      ensures replies == old(replies) + [(old(login).waiters[0], Lost(LoginCall))]
    {
      ToldOne(login.waiters[0], Lost(LoginCall));
      assert login.waiters == [login.waiters[0]];
      SettleLoginStart(Lost(LoginCall));
    }

    method RegisterLogin(id: nat)
      requires BooksValid() && id !in pending && id in wire
      modifies `pending
      ensures BooksValid() && pending == old(pending)[id := LoginCall]
    {
      LedgerQuiet(replies, pending, pending[id := LoginCall], Waiters(login), issued);
      pending := pending[id := LoginCall];
    }

    /** Whether the answer is of the kind the server request asked for. */
    predicate Fits(kind: ServerKind, response: ProviderResponse) {
      kind.ApprovalCall? == response.ApprovalAnswer?
    }

    /** An answer to a server request is written at most once: it is then gone, or its outcome is unknown. */
    twostate predicate ResponseMade(request: ServerRequest, response: ProviderResponse, written: bool, alive: bool)
      reads `requests, `responses, `replies, `issued, `mutating
    {
      var attempted := request in old(requests) && !old(requests)[request].uncertain
                       && Fits(old(requests)[request].kind, response);
      && issued == old(issued) + 1 && mutating == old(mutating) + {old(issued)}
      && alive == (attempted ==> written)
      && responses == old(responses) + (if attempted then [(request, response)] else [])
      && requests == (if !attempted then old(requests)
                      else if written then Without(old(requests), request)
                      else old(requests)[request := old(requests)[request].(uncertain := true)])
      && replies == old(replies) + [(old(issued),
           if request !in old(requests) then Refused(NotFound)
           else if old(requests)[request].uncertain then Refused(OutcomeUnknown(RESPOND))
           else if !attempted then Refused(InvalidInput)
           else if !written then Refused(OutcomeUnknown(RESPOND))
           else Succeeded(NoFields))]
    }

    method HandleRespond(request: ServerRequest, response: ProviderResponse, written: bool) returns (alive: bool)
      requires Valid()
      modifies `requests, `responses, `replies, `issued, `mutating
      ensures Valid() && ResponseMade(request, response, written, alive)
      ensures old(replies) <= replies && (!alive ==> !written) && issued == old(issued) + 1
    {
      if request !in requests {
        AnswerNow(Refused(NotFound), true);
        return true;
      }
      var entry := requests[request];
      if entry.uncertain {
        AnswerNow(Refused(OutcomeUnknown(RESPOND)), true);
        return true;
      }
      if !Fits(entry.kind, response) {
        AnswerNow(Refused(InvalidInput), true);
        return true;
      }
      responses := responses + [(request, response)];
      if !written {
        requests := requests[request := entry.(uncertain := true)];
        AnswerNow(Refused(OutcomeUnknown(RESPOND)), true);
        return false;
      }
      requests := Without(requests, request);
      AnswerNow(Succeeded(NoFields), true);
      return true;
    }

    // ----- Frames from the child -----

    /** A good answer to these says who is signed in, whatever a login in progress may be doing. */
    static predicate OverridesLogin(client: Client, verdict: Answer) {
      client.Asked? && verdict.Succeeded?
      && (client.kind.AccountLogout? || (client.kind.AccountRead? && verdict.value.Account? && verdict.value.signedIn))
    }

    static predicate StartsRun(client: Client, verdict: Answer) {
      client.Asked? && client.kind.StartRun? && verdict.Succeeded? && verdict.value.StartedTurn?
    }

    /** What a response does: it settles the request of its own id, if that is in flight, and nothing else. */
    twostate predicate Responded(id: Option<nat>, body: Body)
      reads `pending, `login, `replies, `events, `runs
    {
      && (id == None || id.value !in old(pending) ==>
            && pending == old(pending) && login == old(login) && replies == old(replies)
            && events == old(events) && runs == old(runs))
      && (id.Some? && id.value in old(pending) ==>
            var client := old(pending)[id.value];
            var verdict := Verdict(client, body);
            var began := StartsRun(client, verdict);
            && pending == Without(old(pending), id.value) && Understood(client, body, verdict)
            && events == old(events) + (if began then [RunAccepted(Run(client.kind.session, verdict.value.id))] else [])
            && runs == old(runs) + (if began then {Run(client.kind.session, verdict.value.id)} else {})
            && (client.LoginCall? ==>
                  && login == Moved(old(login), AnswerTo(verdict))
                  && replies == old(replies) + Told(Waiters(old(login)), verdict))
            && (client.Asked? ==>
                  && login == (if OverridesLogin(client, verdict) then LoginIdle else old(login))
                  && replies == old(replies)
                              + (if OverridesLogin(client, verdict) then Told(Waiters(old(login)), Lost(LoginCall))
                                 else [])
                              + [(client.ticket, verdict)]))
    }

    /**
     A response settles the request of its own id and no other, with the verdict on its own body;
     one that matches nothing in flight changes nothing.
     */
    method HandleResponse(id: Option<nat>, body: Body)
      requires Valid()
      modifies `pending, `login, `replies, `events, `runs
      ensures Valid()
      ensures Responded(id, body)
    {
      if id == None || id.value !in pending {
        return;
      }
      var client := pending[id.value];
      var verdict := Verdict(client, body);
      VerdictUnderstood(client, body);
      if client.LoginCall? {
        DropLoginCall(id.value);
        SettleLoginStart(verdict);
      } else {
        FinishAsked(id.value, verdict);
      }
    }

    /** A started run is tabled before its caller is told. */
    method FinishAsked(id: nat, verdict: Answer)
      requires Valid() && id in pending && pending[id].Asked? && verdict != Refused(Disconnected)
      modifies `pending, `login, `replies, `events, `runs
      ensures Valid() && pending == Without(old(pending), id)
      ensures var client := old(pending)[id];
              var lost := if OverridesLogin(client, verdict) then Told(Waiters(old(login)), Lost(LoginCall)) else [];
              && events == old(events)
                   + (if StartsRun(client, verdict) then [RunAccepted(Run(client.kind.session, verdict.value.id))]
                      else [])
              && runs == old(runs) + (if StartsRun(client, verdict) then {Run(client.kind.session, verdict.value.id)}
                                      else {})
              && login == (if OverridesLogin(client, verdict) then LoginIdle else old(login))
              && replies == old(replies) + lost + [(client.ticket, verdict)]
    {
      if StartsRun(pending[id], verdict) {
        AcceptRun(Run(pending[id].kind.session, verdict.value.id));
      }
      CompleteAsked(id, verdict);
    }

    method CompleteAsked(id: nat, verdict: Answer)
      requires BooksValid() && id in pending && pending[id].Asked? && verdict != Refused(Disconnected)
      modifies `pending, `login, `replies
      ensures BooksValid() && pending == Without(old(pending), id)
      ensures var client := old(pending)[id];
              var lost := if OverridesLogin(client, verdict) then Told(Waiters(old(login)), Lost(LoginCall)) else [];
              && login == (if OverridesLogin(client, verdict) then LoginIdle else old(login))
              && replies == old(replies) + lost + [(client.ticket, verdict)]
    {
      if OverridesLogin(pending[id], verdict) {
        ForgetLogin();
      }
      AnswerAsked(id, verdict);
    }

    /** The notices of a login in progress; a malformed completion forgets the login. */
    method HandleLoginCompleted(outcome: Option<(string, bool)>)
      requires BooksValid()
      modifies `login, `replies
      ensures BooksValid()
      ensures outcome.Some? ==>
                replies == old(replies) && login == Moved(old(login), LoginDone(outcome.value.0, outcome.value.1))
      ensures outcome == None ==>
                login == LoginIdle && replies == old(replies) + Told(Waiters(old(login)), Lost(LoginCall))
    {
      if outcome == None {
        ForgetLogin();
        return;
      }
      var (loginId, success) := outcome.value;
      if login.LoginStarting? {
        login := login.(completion := Some((loginId, success)));
      } else if login.LoginPending? && login.loginId == loginId {
        login := if success then LoginIdle else LoginFailed;
      }
    }

    method HandleAccountUpdated(valid: bool)
      requires BooksValid()
      modifies `login
      ensures BooksValid()
      ensures login == if valid then Moved(old(login), AccountChanged) else old(login)
    {
      if !valid {
        return;
      }
      login := if login.LoginStarting? then login.(updated := true) else LoginIdle;
    }

    /** The run a message names, if the actor knows it. */
    function Known(identity: Identity): (run: Option<Run>)
      reads `runs
      ensures run.Some? ==> run.value in runs && identity == Named(run)
    {
      if identity.Named? && identity.key.Some? && identity.key.value in runs then identity.key else None
    }

    /** What a server request does: it is taken and told, or refused with a code that is written back. */
    twostate predicate Requested(identity: Identity, rpcId: Option<string>, call: ServerCall, written: bool,
                                 alive: bool)
      reads `requests, `runs, `events, `rejections, reducer
    {
      var run := old(Known(identity));
      var rejection := Rejection(call, run, rpcId, old(requests.Keys));
      && runs == old(runs) && reducer.commands == old(reducer.commands) && alive == (rejection.Some? ==> written)
      && rejections == old(rejections) + (if rejection.Some? then [(rpcId, rejection.value)] else [])
      && (rejection.Some? ==>
            && requests == old(requests)
            && (!written ==> events == old(events))
            && (written ==>
                  |events| == |old(events)| + 1 && old(events) <= events
                  && var event := events[|old(events)|];
                     && (if call.Unsupported? then event.Unknown? else event.Malformed?)
                     && event.about == run && event.itemType == call.Method()))
      && (rejection == None ==>
            && requests == old(requests)[ServerRequest(run.value, rpcId.value) := call.Entry()]
            && old(events) <= events
            && TellsCall(events[|old(events)|..], ServerRequest(run.value, rpcId.value), call))
    }

    /** What a server request that was taken tells the application. */
    predicate TellsCall(list: seq<Event>, request: ServerRequest, call: ServerCall) {
      && |list| == 1
      && (call.CommandApproval? || call.FileApproval? ==>
            && list[0].ApprovalRequested? && list[0].request == request
            && (call.reason.Some? ==> list[0].summary == call.reason.value))
      && (call.UserInput? && call.prompt.Some? && call.prompt.value != "" ==>
            list[0].UserInputRequested? && list[0].request == request && list[0].prompt == call.prompt.value)
      && (call.UserInput? && (call.prompt == None || call.prompt.value == "") ==>
            list[0].Malformed? && list[0].about == Some(request.run) && list[0].itemType == call.Method())
    }

    /** A server request is taken exactly when no check rejects it; a rejection is written back and reported. */
    method HandleServerRequest(identity: Identity, rpcId: Option<string>, call: ServerCall, written: bool)
      returns (alive: bool)
      requires RunsValid()
      modifies `requests, `events, `runs, `rejections, reducer
      ensures RunsValid() && Requested(identity, rpcId, call, written, alive)
    {
      var run := Known(identity);
      var rejection := Rejection(call, run, rpcId, requests.Keys);
      if rejection.Some? {
        rejections := rejections + [(rpcId, rejection.value)];
        if !written {
          return false;
        }
        if rejection.value == METHOD_NOT_FOUND {
          Emit(Unknown(run, call.Method()));
        } else {
          Emit(Malformed(run, call.Method()));
        }
        return true;
      }
      TakeRequest(ServerRequest(run.value, rpcId.value), call);
      return true;
    }

    method TakeRequest(request: ServerRequest, call: ServerCall)
      requires RunsValid() && request.run in runs && !call.Unsupported? && !call.Nameless?
      modifies `requests, `events, `runs, reducer
      ensures RunsValid() && runs == old(runs) && reducer.commands == old(reducer.commands)
      ensures requests == old(requests)[request := call.Entry()]
      ensures old(events) <= events && TellsCall(events[|old(events)|..], request, call)
    {
      requests := requests[request := call.Entry()];
      var list := reducer.Reduce(call.AsNote(), Some(request.run), Some(request));
      ToldOfRun(list, Some(request.run), Some(request), call.AsNote(), old(reducer.commands));
      Relay(list, Some(request.run), false);
      assert events[|old(events)|..] == list;
    }

    /**
     What a notification does. One that names a run the actor does not know is only reported. A
     completed turn ends its run, with a crash if its status cannot be read. Any other one is told, as
     the reducer understands it, and ends nothing.
     */
    twostate predicate Notified(identity: Identity, note: Note)
      reads `requests, `runs, `events, reducer
    {
      var run := old(Known(identity));
      && old(events) <= events
      && (identity.Named? && run == None ==>
            && runs == old(runs) && requests == old(requests) && reducer.commands == old(reducer.commands)
            && events == old(events) + [Unknown(None, note.Method())])
      && (note.TurnCompleted? && run.Some? ==>
            && runs == old(runs) - {run.value} && reducer.commands == Retired(old(reducer.commands), run.value)
            && events == old(events) + if note.status.Some? then [RunTerminal(run.value, Ended(note.status.value))]
                                       else [Malformed(run, note.Method()), RunTerminal(run.value, Crashed)])
      && (!(identity.Named? && run == None) && !(note.TurnCompleted? && run.Some?) ==>
            && runs == old(runs) && requests == old(requests)
            && Tells(events[|old(events)|..], run, None, note, old(reducer.commands))
            && Tracked(run, note, old(reducer.commands), reducer.commands))
    }

    method HandleNotification(identity: Identity, note: Note)
      requires RunsValid()
      modifies `requests, `events, `runs, reducer
      ensures RunsValid() && Notified(identity, note)
    {
      var run := Known(identity);
      if identity.Named? && run == None {
        Emit(Unknown(None, note.Method()));
        return;
      }
      if note.TurnCompleted? && run.Some? {
        CompleteTurn(run.value, note);
      } else {
        Tell(run, note);
      }
    }

    method Tell(run: Option<Run>, note: Note)
      requires RunsValid() && (run.Some? ==> run.value in runs) && (note.TurnCompleted? ==> run == None)
      modifies `requests, `events, `runs, reducer
      ensures RunsValid() && runs == old(runs) && requests == old(requests) && old(events) <= events
      ensures Tells(events[|old(events)|..], run, None, note, old(reducer.commands))
      ensures Tracked(run, note, old(reducer.commands), reducer.commands)
    {
      var list := reducer.Reduce(note, run, None);
      ToldOfRun(list, run, None, note, old(reducer.commands));
      Relay(list, run, note.TurnCompleted?);
      assert events[|old(events)|..] == list;
    }

    method CompleteTurn(run: Run, note: Note)
      requires RunsValid() && run in runs && note.TurnCompleted?
      modifies `requests, `events, `runs, reducer
      ensures RunsValid() && runs == old(runs) - {run} && reducer.commands == Retired(old(reducer.commands), run)
      ensures events == old(events) + if note.status.Some? then [RunTerminal(run, Ended(note.status.value))]
                                      else [Malformed(Some(run), note.Method()), RunTerminal(run, Crashed)]
    {
      var list := reducer.Reduce(note, Some(run), None);
      ToldEnding(list, run, note, old(reducer.commands));
      assert old(events) + [list[0]] + [RunTerminal(run, Crashed)]
               == old(events) + [list[0], RunTerminal(run, Crashed)];
      Relay(list, Some(run), true);
      RetiredTwice(old(reducer.commands), run);
    }

    // ----- The end -----

    /** Everything in flight is answered with what its loss means. */
    method SettlePending()
      requires BooksValid()
      modifies `pending, `replies
      ensures BooksValid() && pending == map[] && old(replies) <= replies
      ensures AllFromLoss(old(pending), replies[|old(replies)|..])
    {
      while pending != map[]
        invariant BooksValid() && old(replies) <= replies && Within(pending, old(pending))
        invariant AllFromLoss(old(pending), replies[|old(replies)|..])
        decreases |pending|
      {
        var id :| id in pending;
        CardWithout(pending, id);
        ghost var before := replies;
        SettleOne(id);
        MoreFromLoss(old(pending), old(replies), before, replies, id);
      }
    }

    method SettleOne(id: nat)
      requires BooksValid() && id in pending
      modifies `pending, `replies
      ensures BooksValid() && pending == Without(old(pending), id)
      ensures replies == old(replies)
                + if old(pending)[id].Asked? then [(old(pending)[id].ticket, Lost(old(pending)[id]))] else []
    {
      if pending[id].Asked? {
        AnswerAsked(id, Lost(pending[id]));
      } else {
        DropLoginCall(id);
      }
    }

    /** Every run still in the table is ended in the same way, each once. */
    method SettleRuns(terminal: Terminal)
      requires RunsValid()
      modifies `events, `runs, `requests, reducer
      ensures RunsValid() && runs == {} && requests == map[] && reducer.commands == map[]
      ensures |events| == |old(events)| + |old(runs)| && old(events) <= events
      ensures forall event <- events[|old(events)|..] ::
                event.RunTerminal? && event.run in old(runs) && event.terminal == terminal
    {
      requests := map[];
      while runs != {}
        invariant RunsValid() && runs <= old(runs) && requests == map[]
        invariant |events| == |old(events)| + |old(runs)| - |runs| && old(events) <= events
        invariant forall event <- events[|old(events)|..] ::
                    event.RunTerminal? && event.run in old(runs) && event.terminal == terminal
        decreases |runs|
      {
        var run :| run in runs;
        EmitTerminalAndRetire(run, terminal);
      }
    }

    /** The actor ends: nobody is left waiting and no run is left open. */
    method Settle(terminal: Terminal)
      requires Valid()
      modifies this, reducer
      ensures Valid() && pending == map[] && Waiters(login) == [] && requests == map[] && runs == {}
              && reducer.commands == map[]
      ensures issued == old(issued) && wire == old(wire) && responses == old(responses) && old(replies) <= replies
      ensures forall ticket: Ticket :: ticket < issued ==> ticket in Answered(replies)
      ensures handled == old(handled) && rejections == old(rejections) && old(events) <= events
      ensures forall event <- events[|old(events)|..] :: event.RunTerminal? && event.terminal == terminal
      ensures forall reply <- replies[|old(replies)|..] ::
                FromLoss(old(pending), reply) || (reply.0 in Waiters(old(login)) && MeansLoss(LoginCall, reply.1))
    {
      SettlePending();
      SettleRuns(terminal);
      ForgetLogin();
      assert forall ticket: Ticket :: !Pends(pending, ticket);
    }

    // ----- The loop -----

    /** Each frame goes to its handler. */
    twostate predicate Framed(frame: Frame, written: bool, alive: bool)
      reads `requests, `runs, `events, `rejections, `pending, `login, `replies, reducer
    {
      match frame
      case Response(id, body) => alive && Responded(id, body)
      case LoginCompleted(outcome) =>
        && alive && pending == old(pending) && events == old(events) && runs == old(runs)
        && (outcome.Some? ==>
              login == Moved(old(login), LoginDone(outcome.value.0, outcome.value.1)) && replies == old(replies))
        && (outcome == None ==>
              login == LoginIdle && replies == old(replies) + Told(Waiters(old(login)), Lost(LoginCall)))
      case AccountUpdated(valid) =>
        && alive && pending == old(pending) && events == old(events) && runs == old(runs) && replies == old(replies)
        && login == if valid then Moved(old(login), AccountChanged) else old(login)
      case Notification(identity, note) =>
        && alive && pending == old(pending) && login == old(login) && replies == old(replies)
        && Notified(identity, note)
      case Request(identity, rpcId, call) =>
        && pending == old(pending) && login == old(login) && replies == old(replies)
        && Requested(identity, rpcId, call, written, alive)
    }

    method HandleFrame(frame: Frame, written: bool) returns (alive: bool)
      requires Valid()
      modifies `requests, `events, `runs, `rejections, `pending, `login, `replies, reducer
      ensures Valid() && Framed(frame, written, alive) && old(events) <= events && old(replies) <= replies
      ensures !alive ==> !written
    {
      match frame {
        case Response(id, body) =>
          HandleResponse(id, body);
        case LoginCompleted(outcome) =>
          HandleLoginCompleted(outcome);
        case AccountUpdated(valid) =>
          HandleAccountUpdated(valid);
        case Request(identity, rpcId, call) =>
          alive := HandleServerRequest(identity, rpcId, call, written);
          return;
        case Notification(identity, note) =>
          HandleNotification(identity, note);
      }
      return true;
    }

    method Dispatch(input: Input, written: bool) returns (turn: Turn)
      requires Valid()
      modifies `requests, `events, `runs, `rejections, `pending, `login, `replies, `nextId, `wire, `issued, `mutating,
               `responses, reducer
      ensures Valid() && old(wire) <= wire && old(replies) <= replies && old(events) <= events
      ensures issued == old(issued)
                + if input.ClientRequest? || input.ClientResponse? || input.LoginRequest? then 1 else 0
      ensures turn == AskedToStop <==> input.Shutdown?
      ensures input.Eof? ==> turn == ChildGone
      ensures turn == ChildGone ==> input.Eof? || !written
      ensures input.Inbound? ==> Framed(input.frame, written, turn == GoOn)
      ensures input.ClientRequest? ==>
                && events == old(events)
                && RequestMade(input.operation, input.about, input.mutation, input.kind, written, turn == GoOn)
      ensures input.ClientResponse? ==>
                events == old(events) && ResponseMade(input.request, input.response, written, turn == GoOn)
      ensures input.LoginRequest? ==> events == old(events) && LoginMade(written, turn == GoOn)
      ensures input.BadFrame? ==>
                events == old(events)
                            + [Malformed(None, if input.oversized then "codex.oversized-frame"
                                         else "codex.malformed-frame")]
    {
      var alive := true;
      match input {
        case ClientRequest(operation, about, mutation, kind) =>
          alive := HandleRequest(operation, about, mutation, kind, written);
        case ClientResponse(request, response) =>
          alive := HandleRespond(request, response, written);
        case LoginRequest =>
          alive := HandleLogin(written);
        case Shutdown =>
          return AskedToStop;
        case Inbound(frame) =>
          alive := HandleFrame(frame, written);
        case BadFrame(oversized) =>
          Emit(Malformed(None, if oversized then "codex.oversized-frame" else "codex.malformed-frame"));
        case Eof =>
          return ChildGone;
      }
      return if alive then GoOn else ChildGone;
    }

    method HandleInput(input: Input, written: bool) returns (turn: Turn)
      requires Valid()
      modifies this, reducer
      ensures Valid() && old(wire) <= wire && old(replies) <= replies && old(events) <= events
      ensures handled == old(handled) + [input]
      ensures issued == old(issued)
                + if input.ClientRequest? || input.ClientResponse? || input.LoginRequest? then 1 else 0
      ensures turn == AskedToStop <==> input.Shutdown?
      ensures input.Eof? ==> turn == ChildGone
      ensures turn == ChildGone ==> input.Eof? || !written
      ensures input.Inbound? ==> Framed(input.frame, written, turn == GoOn)
      ensures input.ClientRequest? ==>
                && events == old(events)
                && RequestMade(input.operation, input.about, input.mutation, input.kind, written, turn == GoOn)
      ensures input.ClientResponse? ==>
                events == old(events) && ResponseMade(input.request, input.response, written, turn == GoOn)
      ensures input.LoginRequest? ==> events == old(events) && LoginMade(written, turn == GoOn)
      ensures input.BadFrame? ==>
                events == old(events)
                            + [Malformed(None, if input.oversized then "codex.oversized-frame"
                                         else "codex.malformed-frame")]
    {
      turn := Dispatch(input, written);
      handled := handled + [input];
    }

    /** One input, with a write that may fail. */
    method HandleNext(input: Input) returns (turn: Turn)
      requires Valid()
      modifies this, reducer
      ensures Valid() && old(wire) <= wire && old(replies) <= replies && old(events) <= events
      ensures handled == old(handled) + [input] && old(issued) <= issued
      ensures turn == AskedToStop <==> input.Shutdown?
      ensures input.Eof? ==> turn == ChildGone
    {
      var written: bool := *;
      turn := HandleInput(input, written);
    }

    /** The first inputs were taken, and none but the last of them can have ended the actor. */
    static predicate Took(inputs: seq<Input>, count: nat, turn: Turn) {
      && count <= |inputs|
      && (forall i :: 0 <= i < count && (turn == GoOn || i < count - 1) ==> !inputs[i].Shutdown? && !inputs[i].Eof?)
      && (turn == AskedToStop ==> count > 0 && inputs[count - 1].Shutdown?)
    }

    /**
     The whole life of the actor, whatever arrives and whichever write fails. It handles its inputs in
     order until it is asked to stop, the child is gone, or there are none; then every caller has been
     answered, exactly once, and every accepted run has been ended: by a crash if the child is gone.
     */
    method RunActor(inputs: seq<Input>) returns (turn: Turn, count: nat, ghost before: seq<Event>)
      requires Valid()
      modifies this, reducer
      ensures Valid() && pending == map[] && Waiters(login) == [] && requests == map[] && runs == {}
              && reducer.commands == map[]
      ensures old(issued) <= issued && old(wire) <= wire && old(replies) <= replies
      ensures forall ticket: Ticket :: ticket < issued ==> ticket in Answered(replies)
      ensures Took(inputs, count, turn) && handled == old(handled) + inputs[..count]
      ensures turn == GoOn ==> count == |inputs|
      ensures old(events) <= before <= events
      ensures forall event <- events[|before|..] ::
                event.RunTerminal? && event.terminal == if turn == ChildGone then Crashed else ShutDown
    {
      turn, count := GoOn, 0;
      while turn == GoOn && count < |inputs|
        invariant Took(inputs, count, turn) && Valid()
        invariant old(issued) <= issued && old(wire) <= wire && old(replies) <= replies && old(events) <= events
        invariant handled == old(handled) + inputs[..count]
      {
        turn := HandleNext(inputs[count]);
        assert inputs[..count + 1] == inputs[..count] + [inputs[count]];
        count := count + 1;
      }
      // With no more inputs the callers' channel is closed, which ends the actor as a shutdown does.
      before := events;
      Settle(if turn == ChildGone then Crashed else ShutDown);
    }
  }
}
