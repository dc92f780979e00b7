/**
 What the Codex actor owes: every client request it takes is answered once, and every run it
 accepts is ended once. Both are stated on plain values here; the actor keeps them.
 */
module Settlement {
  import opened Common
  import opened Reducer

  // ----- Runs -----

  /** The last lifecycle event of the run is its acceptance. */
  predicate Open(events: seq<Event>, run: Run) {
    events != []
    && var last := events[|events| - 1];
       if last.Lifecycle() && last.run == run then last.RunAccepted? else Open(events[..|events| - 1], run)
  }

  /** Every event that names a run, other than its acceptance, comes while the run is open. */
  predicate Bracketed(events: seq<Event>) {
    forall i :: 0 <= i < |events| && events[i].Of().Some? && !events[i].RunAccepted? ==>
      Open(events[..i], events[i].Of().value)
  }

  /** The table lists exactly the open runs, and the log is well bracketed. */
  ghost predicate Tabled(events: seq<Event>, runs: set<Run>) {
    && Bracketed(events)
    && forall run :: run in runs <==> Open(events, run)
  }

  lemma {:induction false} OpenAppend(events: seq<Event>, event: Event, run: Run)
    ensures Open(events + [event], run)
         == if event.Lifecycle() && event.run == run then event.RunAccepted? else Open(events, run)
  {
  }

  lemma {:induction false} BracketedAppend(events: seq<Event>, event: Event)
    requires Bracketed(events)
    requires event.Of().Some? && !event.RunAccepted? ==> Open(events, event.Of().value)
    ensures Bracketed(events + [event])
  {
    var events' := events + [event];
    forall i | 0 <= i < |events'| && events'[i].Of().Some? && !events'[i].RunAccepted?
      ensures Open(events'[..i], events'[i].Of().value)
    {
      assert events'[..i] == events[..i];
      if i == |events| {
        assert events[..i] == events;
      }
    }
  }

  /** An event that opens or closes no run. */
  lemma TabledPlain(events: seq<Event>, runs: set<Run>, event: Event)
    requires Tabled(events, runs) && !event.Lifecycle()
    requires event.Of().Some? ==> event.Of().value in runs
    ensures Tabled(events + [event], runs)
  {
    BracketedAppend(events, event);
    forall run ensures run in runs <==> Open(events + [event], run) {
      OpenAppend(events, event, run);
    }
  }

  lemma TabledAccepted(events: seq<Event>, runs: set<Run>, run: Run)
    requires Tabled(events, runs)
    ensures Tabled(events + [RunAccepted(run)], runs + {run})
  {
    BracketedAppend(events, RunAccepted(run));
    forall other ensures other in runs + {run} <==> Open(events + [RunAccepted(run)], other) {
      OpenAppend(events, RunAccepted(run), other);
    }
  }

  lemma TabledEnded(events: seq<Event>, runs: set<Run>, run: Run, terminal: Terminal)
    requires Tabled(events, runs) && run in runs
    ensures Tabled(events + [RunTerminal(run, terminal)], runs - {run})
  {
    BracketedAppend(events, RunTerminal(run, terminal));
    forall other ensures other in runs - {run} <==> Open(events + [RunTerminal(run, terminal)], other) {
      OpenAppend(events, RunTerminal(run, terminal), other);
    }
  }

  lemma {:induction false} OpenSplit(events: seq<Event>, run: Run, cut: nat)
    requires cut <= |events| && !Open(events, run) && Open(events[..cut], run)
    ensures exists i :: cut <= i < |events| && events[i].RunTerminal? && events[i].run == run
    decreases |events| - cut
  {
    assert events[..|events|] == events;
    if cut < |events| && !(events[cut].RunTerminal? && events[cut].run == run) {
      assert events[..cut + 1] == events[..cut] + [events[cut]];
      OpenAppend(events[..cut], events[cut], run);
      OpenSplit(events, run, cut + 1);
    }
  }

  /** Once the table is empty, every accepted run has had a terminal after its acceptance. */
  lemma EveryAcceptedRunEnds(events: seq<Event>, i: nat)
    requires Tabled(events, {}) && i < |events| && events[i].RunAccepted?
    ensures exists j :: i < j < |events| && events[j].RunTerminal? && events[j].run == events[i].run
  {
    var run := events[i].run;
    assert events[..i + 1] == events[..i] + [events[i]];
    OpenAppend(events[..i], events[i], run);
    assert !Open(events, run);
    OpenSplit(events, run, i + 1);
  }

  lemma {:induction false} OpenBetween(events: seq<Event>, run: Run, i: nat, j: nat)
    requires i <= j <= |events| && !Open(events[..i], run) && Open(events[..j], run)
    ensures exists k :: i <= k < j && events[k] == RunAccepted(run)
    decreases j - i
  {
    if i < j {
      assert events[..i + 1] == events[..i] + [events[i]];
      OpenAppend(events[..i], events[i], run);
      if events[i] != RunAccepted(run) {
        OpenBetween(events, run, i + 1, j);
      }
    }
  }

  /** Between two terminals of one run there is another acceptance of it: no run ends twice. */
  lemma NoSecondTerminal(events: seq<Event>, i: nat, j: nat)
    requires Bracketed(events) && i < j < |events|
    requires events[i].RunTerminal? && events[j].RunTerminal? && events[i].run == events[j].run
    ensures exists k :: i < k < j && events[k] == RunAccepted(events[i].run)
  {
    var run := events[i].run;
    assert events[..i + 1] == events[..i] + [events[i]];
    OpenAppend(events[..i], events[i], run);
    OpenBetween(events, run, i + 1, j);
  }

  // ----- Client requests -----

  /** The reply channel of one client request; tickets are handed out in order. */
  type Ticket = nat

  datatype Error =
    | NotFound
    | InvalidInput
    | Disconnected
    | OutcomeUnknown(operation: string)
    | Protocol
    | Overloaded

  datatype Reply<T> = Succeeded(value: T) | Refused(error: Error)

  /** The tickets that were answered. */
  function Answered<T>(replies: seq<(Ticket, Reply<T>)>): set<Ticket> {
    set i | 0 <= i < |replies| :: replies[i].0
  }

  predicate AnsweredOnce<T>(replies: seq<(Ticket, Reply<T>)>) {
    forall i, j :: 0 <= i < j < |replies| ==> replies[i].0 != replies[j].0
  }

  lemma AnsweredAppend<T>(replies: seq<(Ticket, Reply<T>)>, ticket: Ticket, reply: Reply<T>)
    ensures Answered(replies + [(ticket, reply)]) == Answered(replies) + {ticket}
    ensures AnsweredOnce(replies) && ticket !in Answered(replies) ==> AnsweredOnce(replies + [(ticket, reply)])
  {
    var replies' := replies + [(ticket, reply)];
    assert replies'[|replies|].0 == ticket;
    forall t ensures t in Answered(replies') <==> t in Answered(replies) + {ticket} {
      if t in Answered(replies) {
        var i :| 0 <= i < |replies| && replies[i].0 == t;
        assert replies'[i].0 == t;
      }
    }
    if AnsweredOnce(replies) && ticket !in Answered(replies) {
      assert forall i :: 0 <= i < |replies| ==> replies'[i] == replies[i] && replies[i].0 in Answered(replies);
    }
  }

  // ----- The two-way account login -----

  /** The login as the actor sees it: `waiters` are the callers queued while the start is in flight. */
  datatype Login =
    | LoginIdle
    | LoginStarting(waiters: seq<Ticket>, completion: Option<(string, bool)>, updated: bool)
    | LoginPending(loginId: string, authUrl: string)
    | LoginFailed

  datatype LoginNotice =
    | StartAnswered(loginId: string, authUrl: string)
    | StartRefused
    | LoginDone(loginId: string, success: bool)
    | AccountChanged

  /** How the login state moves on each notice, in whatever order notices arrive. */
  function Moved(login: Login, notice: LoginNotice): Login {
    match notice
    case StartAnswered(loginId, authUrl) =>
      if !login.LoginStarting? || login.updated then LoginIdle
      else if login.completion == Some((loginId, true)) then LoginIdle
      else if login.completion == Some((loginId, false)) then LoginFailed
      else LoginPending(loginId, authUrl)
    case StartRefused => LoginIdle
    case LoginDone(loginId, success) =>
      if login.LoginStarting? then login.(completion := Some((loginId, success)))
      else if login.LoginPending? && login.loginId == loginId then (if success then LoginIdle else LoginFailed)
      else login
    case AccountChanged =>
      if login.LoginStarting? then login.(updated := true) else LoginIdle
  }

  function MovedAll(login: Login, notices: seq<LoginNotice>): Login
    decreases |notices|
  {
    if notices == [] then login else MovedAll(Moved(login, notices[0]), notices[1..])
  }

  predicate IsStart(notice: LoginNotice) { notice.StartAnswered? || notice.StartRefused? }

  predicate OneStart(notices: seq<LoginNotice>, at: nat) {
    && at < |notices| && IsStart(notices[at])
    && forall i :: 0 <= i < |notices| && i != at ==> !IsStart(notices[i])
  }

  /** What is left behind the first occurrence of a notice, and before it. */
  function Removed(notices: seq<LoginNotice>, notice: LoginNotice): (rest: seq<LoginNotice>)
    requires notice in notices
    ensures multiset(rest) == multiset(notices) - multiset{notice}
  {
    assert notices == [notices[0]] + notices[1..];
    if notices[0] == notice then notices[1..] else [notices[0]] + Removed(notices[1..], notice)
  }

  lemma {:induction false} RemovedOne(notices: seq<LoginNotice>, gone: LoginNotice, kept: LoginNotice)
    requires gone in notices
    ensures multiset(notices) == multiset(Removed(notices, gone)) + multiset{gone}
    ensures kept in notices && kept != gone ==> kept in Removed(notices, gone)
  {
    assert multiset(notices)[gone] > 0;
    if kept in notices && kept != gone {
      assert multiset(notices)[kept] > 0 && multiset(Removed(notices, gone))[kept] > 0;
    }
  }

  /** The completion that is noted down while the start is in flight: the latest one. */
  function Noted(completion: Option<(string, bool)>, notices: seq<LoginNotice>): Option<(string, bool)>
    decreases |notices|
  {
    if notices == [] then completion
    else
      var first := notices[0];
      Noted(if first.LoginDone? then Some((first.loginId, first.success)) else completion, notices[1..])
  }

  /** It is that of one of the notices, if any of them is a completion. */
  lemma {:induction false} NotedFrom(completion: Option<(string, bool)>, notices: seq<LoginNotice>)
    ensures var noted := Noted(completion, notices);
            || (noted == completion && forall notice <- notices :: !notice.LoginDone?)
            || (noted.Some? && LoginDone(noted.value.0, noted.value.1) in notices)
    decreases |notices|
  {
    if notices != [] {
      var first := notices[0];
      NotedFrom(if first.LoginDone? then Some((first.loginId, first.success)) else completion, notices[1..]);
      assert notices == [first] + notices[1..];
    }
  }

  lemma NoticesSplit(notices: seq<LoginNotice>)
    requires notices != []
    ensures notices[0] in notices
    ensures forall notice :: notice in notices <==> notice == notices[0] || notice in notices[1..]
  {
  }

  /** The notices before the start's answer are only noted down. */
  lemma {:induction false} MovedBefore(login: Login, notices: seq<LoginNotice>)
    requires login.LoginStarting? && forall notice <- notices :: !IsStart(notice)
    ensures MovedAll(login, notices) ==
              LoginStarting(login.waiters, Noted(login.completion, notices), login.updated || AccountChanged in notices)
    decreases |notices|
  {
    if notices != [] {
      NoticesSplit(notices);
      MovedBefore(Moved(login, notices[0]), notices[1..]);
    }
  }

  /** The notices after it take effect at once: the first one for this login decides it. */
  lemma {:induction false} MovedAfter(login: Login, notices: seq<LoginNotice>)
    requires !login.LoginStarting? && forall notice <- notices :: !IsStart(notice)
    ensures var after := MovedAll(login, notices);
            if login.LoginIdle? || AccountChanged in notices then after == LoginIdle
            else if login.LoginFailed? then after == LoginFailed
            else
              || (after == login && !Named(login.loginId, notices))
              || (after == LoginIdle && LoginDone(login.loginId, true) in notices)
              || (after == LoginFailed && LoginDone(login.loginId, false) in notices)
    decreases |notices|
  {
    if notices != [] {
      NoticesSplit(notices);
      MovedAfter(Moved(login, notices[0]), notices[1..]);
    }
  }

  lemma {:induction false} MovedAllConcat(login: Login, first: seq<LoginNotice>, second: seq<LoginNotice>)
    ensures MovedAll(login, first + second) == MovedAll(MovedAll(login, first), second)
    decreases |first|
  {
    if first == [] {
      assert first + second == second;
    } else {
      assert (first + second)[1..] == first[1..] + second;
      MovedAllConcat(Moved(login, first[0]), first[1..], second);
    }
  }

  /** A completion notice for this login is among them. */
  predicate Named(loginId: string, notices: seq<LoginNotice>) {
    LoginDone(loginId, true) in notices || LoginDone(loginId, false) in notices
  }

  predicate DonesAgree(notices: seq<LoginNotice>) {
    forall a, b :: a in notices && b in notices && a.LoginDone? && b.LoginDone? ==> a == b
  }

  /** The start failed, or the account changed, or no completion is for this login, or all completions are equal. */
  predicate Decisive(start: LoginNotice, notices: seq<LoginNotice>)
    requires IsStart(start)
  {
    start.StartRefused? || AccountChanged in notices || !Named(start.loginId, notices) || DonesAgree(notices)
  }

  ghost function Outcome(waiters: seq<Ticket>, notices: seq<LoginNotice>): Login {
    MovedAll(LoginStarting(waiters, None, false), notices)
  }

  /** The result of a login, read off the set of notices alone. */
  ghost function Settled(start: LoginNotice, notices: seq<LoginNotice>): Login
    requires IsStart(start)
  {
    if start.StartRefused? || AccountChanged in notices then LoginIdle
    else if LoginDone(start.loginId, true) in notices then LoginIdle
    else if LoginDone(start.loginId, false) in notices then LoginFailed
    else LoginPending(start.loginId, start.authUrl)
  }

  /** Under this condition the outcome is a function of which notices arrive. */
  lemma LoginSettled(waiters: seq<Ticket>, notices: seq<LoginNotice>, at: nat)
    requires OneStart(notices, at) && Decisive(notices[at], notices)
    ensures Outcome(waiters, notices) == Settled(notices[at], notices)
  {
    var start := LoginStarting(waiters, None, false);
    var before, answer, after := notices[..at], notices[at], notices[at + 1..];
    StartSplit(notices, at);
    MovedBefore(start, before);
    NotedFrom(None, before);
    var held := MovedAll(start, before);
    MovedAllConcat(start, before, [answer] + after);
    assert ([answer] + after)[1..] == after;
    MovedAfter(Moved(held, answer), after);
    if answer.StartAnswered? && AccountChanged !in notices {
      assert held == LoginStarting(waiters, Noted(None, before), false);
      AnswerSettles(waiters, notices, before, answer, after, Noted(None, before));
    }
  }

  lemma {:induction false} AnswerSettles(waiters: seq<Ticket>, notices: seq<LoginNotice>, before: seq<LoginNotice>,
                      answer: LoginNotice, after: seq<LoginNotice>, noted: Option<(string, bool)>)
    requires answer.StartAnswered? && AccountChanged !in notices && Decisive(answer, notices)
    requires forall notice :: notice in notices <==> notice in before || notice == answer || notice in after
    requires forall notice <- after :: !IsStart(notice)
    requires || (noted == None && forall notice <- before :: !notice.LoginDone?)
             || (noted.Some? && LoginDone(noted.value.0, noted.value.1) in before)
    ensures MovedAll(Moved(LoginStarting(waiters, noted, false), answer), after) == Settled(answer, notices)
  {
    MovedAfter(Moved(LoginStarting(waiters, noted, false), answer), after);
    if Named(answer.loginId, notices) {
      assert LoginDone(answer.loginId, true) in notices ==> LoginDone(answer.loginId, false) !in notices;
    }
  }

  lemma StartSplit(notices: seq<LoginNotice>, at: nat)
    requires OneStart(notices, at)
    ensures var before, after := notices[..at], notices[at + 1..];
            && notices == before + ([notices[at]] + after)
            && (forall notice :: notice in notices <==> notice in before || notice == notices[at] || notice in after)
            && (forall notice <- before :: !IsStart(notice)) && (forall notice <- after :: !IsStart(notice))
  {
  }

  // ----- In which order the notices arrive -----

  /** The order in which these notices arrive does not matter. */
  ghost predicate Confluent(waiters: seq<Ticket>, notices: seq<LoginNotice>) {
    forall order :: multiset(order) == multiset(notices) ==> Outcome(waiters, order) == Outcome(waiters, notices)
  }

  lemma SameMembers(order: seq<LoginNotice>, notices: seq<LoginNotice>)
    requires multiset(order) == multiset(notices)
    ensures forall notice :: notice in order <==> notice in notices
  {
    forall notice ensures notice in order <==> notice in notices {
      assert notice in order <==> notice in multiset(order);
      assert notice in notices <==> notice in multiset(notices);
    }
  }

  /** Everything but the one start, in any order, holds no start. */
  lemma OthersPlain(notices: seq<LoginNotice>, at: nat, others: multiset<LoginNotice>)
    requires OneStart(notices, at) && others <= multiset(notices) - multiset{notices[at]}
    ensures forall notice <- others :: !IsStart(notice) && notice in notices
  {
    StartSplit(notices, at);
    var before, after := notices[..at], notices[at + 1..];
    assert multiset(notices) == multiset(before) + multiset{notices[at]} + multiset(after);
    assert others <= multiset(before) + multiset(after);
    forall notice | notice in others ensures !IsStart(notice) && notice in notices {
      assert notice in multiset(before) || notice in multiset(after);
      assert notice in before || notice in after;
    }
  }

  lemma StartKept(notices: seq<LoginNotice>, at: nat, order: seq<LoginNotice>) returns (index: nat)
    requires OneStart(notices, at) && multiset(order) == multiset(notices)
    ensures OneStart(order, index) && order[index] == notices[at]
  {
    SameMembers(order, notices);
    assert notices[at] in notices && notices[at] in order;
    index :| 0 <= index < |order| && order[index] == notices[at];
    var before, after := order[..index], order[index + 1..];
    assert order == before + [notices[at]] + after;
    assert multiset(order) == multiset(before + after) + multiset{notices[at]};
    OthersPlain(notices, at, multiset(before + after));
    forall i | 0 <= i < |order| && i != index ensures !IsStart(order[i]) {
      PlainAt(before, after, order, index, i);
    }
  }

  lemma PlainAt(before: seq<LoginNotice>, after: seq<LoginNotice>, order: seq<LoginNotice>, index: nat, i: nat)
    requires index < |order| && i < |order| && i != index
    requires before == order[..index] && after == order[index + 1..]
    requires forall notice <- multiset(before + after) :: !IsStart(notice)
    ensures !IsStart(order[i])
  {
    assert order[i] == if i < index then (before + after)[i] else (before + after)[i - 1];
    assert order[i] in multiset(before + after);
  }

  /** A notice for this login right after the start's answer decides it, whatever follows. */
  lemma DecidedFirst(waiters: seq<Ticket>, start: LoginNotice, done: LoginNotice, rest: seq<LoginNotice>)
    requires start.StartAnswered? && done.LoginDone? && done.loginId == start.loginId
    requires forall notice <- rest :: !IsStart(notice) && notice != AccountChanged
    ensures Outcome(waiters, [start, done] + rest) == if done.success then LoginIdle else LoginFailed
  {
    var login := LoginStarting(waiters, None, false);
    MovedAllConcat(login, [start, done], rest);
    assert [start, done][1..] == [done] && [done][1..] == [];
    assert MovedAll(login, [start, done]) == MovedAll(Moved(login, start), [done]) == Moved(Moved(login, start), done);
    MovedAfter(Moved(Moved(login, start), done), rest);
  }

  /** A notice for another login right before it makes the actor forget the one for this login. */
  lemma ForgottenLast(waiters: seq<Ticket>, start: LoginNotice, done: LoginNotice, rest: seq<LoginNotice>)
    requires start.StartAnswered? && done.LoginDone? && done.loginId != start.loginId
    requires forall notice <- rest :: !IsStart(notice) && notice != AccountChanged
    ensures Outcome(waiters, rest + [done, start]) == LoginPending(start.loginId, start.authUrl)
  {
    var login := LoginStarting(waiters, None, false);
    MovedAllConcat(login, rest, [done, start]);
    MovedBefore(login, rest);
    var held := MovedAll(login, rest);
    assert [done, start][1..] == [start] && [start][1..] == [];
    assert MovedAll(held, [done, start]) == MovedAll(Moved(held, done), [start]) == Moved(Moved(held, done), start);
  }

  /** Otherwise two orders disagree. */
  lemma OrderMatters(waiters: seq<Ticket>, notices: seq<LoginNotice>, at: nat)
    requires OneStart(notices, at) && !Decisive(notices[at], notices)
    ensures !Confluent(waiters, notices)
  {
    var start := notices[at];
    var mine :| mine in notices && mine.LoginDone? && mine.loginId == start.loginId;
    var other :| other in notices && other.LoginDone? && other != mine;
    var rest := Rest(notices, at, mine, other);
    var first := [start, mine] + ([other] + rest);
    DecidedFirst(waiters, start, mine, [other] + rest);
    Arranged(start, mine, other, rest, notices);
    if other.loginId == start.loginId {
      Arranged(start, other, mine, rest, notices);
      DecidedFirst(waiters, start, other, [mine] + rest);
      Disagree(waiters, notices, first, [start, other] + ([mine] + rest));
    } else {
      ForgottenLast(waiters, start, other, [mine] + rest);
      Disagree(waiters, notices, first, ([mine] + rest) + [other, start]);
    }
  }

  lemma Arranged(start: LoginNotice, mine: LoginNotice, other: LoginNotice, rest: seq<LoginNotice>,
                 notices: seq<LoginNotice>)
    requires multiset(notices) == multiset(rest) + multiset{start} + multiset{mine} + multiset{other}
    ensures multiset([start, mine] + ([other] + rest)) == multiset(notices)
    ensures multiset(([mine] + rest) + [other, start]) == multiset(notices)
  {
    PairAhead(start, mine, other, rest);
    PairBehind(start, mine, other, rest);
  }

  lemma PairAhead<T>(a: T, b: T, c: T, rest: seq<T>)
    ensures multiset([a, b] + ([c] + rest)) == multiset(rest) + multiset{a} + multiset{b} + multiset{c}
  {
    assert multiset([a, b]) == multiset{a} + multiset{b};
    assert multiset([c] + rest) == multiset{c} + multiset(rest);
  }

  lemma PairBehind<T>(a: T, b: T, c: T, rest: seq<T>)
    ensures multiset(([b] + rest) + [c, a]) == multiset(rest) + multiset{a} + multiset{b} + multiset{c}
  {
    assert multiset([c, a]) == multiset{c} + multiset{a};
    assert multiset([b] + rest) == multiset{b} + multiset(rest);
  }

  lemma Disagree(waiters: seq<Ticket>, notices: seq<LoginNotice>, one: seq<LoginNotice>, two: seq<LoginNotice>)
    requires multiset(one) == multiset(notices) && multiset(two) == multiset(notices)
    requires Outcome(waiters, one) != Outcome(waiters, two)
    ensures !Confluent(waiters, notices)
  {
  }

  lemma TakenOut<T>(all: multiset<T>, one: multiset<T>, two: multiset<T>, three: multiset<T>, a: T, b: T, c: T)
    requires all == one + multiset{a} && one == two + multiset{b} && two == three + multiset{c}
    ensures all == three + multiset{a} + multiset{b} + multiset{c} && three <= all - multiset{a}
  {
  }

  lemma Rest(notices: seq<LoginNotice>, at: nat, mine: LoginNotice, other: LoginNotice)
    returns (rest: seq<LoginNotice>)
    requires OneStart(notices, at) && mine in notices && other in notices && mine != other
    requires mine.LoginDone? && other.LoginDone?
    ensures multiset(notices) == multiset(rest) + multiset{notices[at]} + multiset{mine} + multiset{other}
    ensures forall notice <- rest :: !IsStart(notice) && notice in notices
  {
    RemovedOne(notices, notices[at], mine);
    RemovedOne(notices, notices[at], other);
    var withoutStart := Removed(notices, notices[at]);
    RemovedOne(withoutStart, mine, other);
    var withoutMine := Removed(withoutStart, mine);
    RemovedOne(withoutMine, other, notices[at]);
    rest := Removed(withoutMine, other);
    TakenOut(multiset(notices), multiset(withoutStart), multiset(withoutMine), multiset(rest), notices[at], mine,
             other);
    OthersPlain(notices, at, multiset(rest));
    forall notice | notice in rest ensures !IsStart(notice) && notice in notices {
      assert notice in multiset(rest);
    }
  }

  /**
   Login confluence, exactly: with one answer to the start, every arrival order of the notices gives
   the same login if and only if the start was refused, or the account changed, or no completion is
   for this login, or all completions are equal.
   */
  lemma LoginConfluent(waiters: seq<Ticket>, notices: seq<LoginNotice>, at: nat)
    requires OneStart(notices, at)
    ensures Confluent(waiters, notices) <==> Decisive(notices[at], notices)
  {
    if Decisive(notices[at], notices) {
      LoginSettled(waiters, notices, at);
      forall order | multiset(order) == multiset(notices) ensures Outcome(waiters, order) == Outcome(waiters, notices) {
        var index := StartKept(notices, at, order);
        SameMembers(order, notices);
        LoginSettled(waiters, order, index);
      }
    } else {
      OrderMatters(waiters, notices, at);
    }
  }

  /** Two completion notices are enough to make the order matter. */
  lemma TwoCompletionsDisagree()
    ensures var start := LoginStarting([], None, false);
            var mine, other, answer := LoginDone("mine", false), LoginDone("other", true), StartAnswered("mine", "url");
            MovedAll(start, [mine, other, answer]) != MovedAll(start, [answer, mine, other])
  {
    var start := LoginStarting([], None, false);
    var mine, other, answer := LoginDone("mine", false), LoginDone("other", true), StartAnswered("mine", "url");
    assert "mine"[0] != "other"[0];
    var a := Moved(Moved(start, mine), other);
    assert [mine, other, answer][1..][1..] == [answer];
    assert MovedAll(start, [mine, other, answer]) == MovedAll(a, [answer]) == Moved(a, answer);
    var b := Moved(start, answer);
    assert [answer, mine, other][1..] == [mine, other] && [mine, other][1..] == [other];
    assert MovedAll(start, [answer, mine, other]) == MovedAll(Moved(b, mine), [other]) == Moved(Moved(b, mine), other);
  }
}
