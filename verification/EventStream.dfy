/** Server-sent events for one run (api/v1/runs.py): a cursor over a log that keeps growing,
    and a client that reconnects with the last id it saw (section 9.2 of the WHATWG HTML
    Living Standard). */
module EventStream {
  import opened Common
  import opened Runs
  import Text

  /** Events per page.  The route uses 100; everything below holds for any page size. */
  type PageLimit = n: nat | n >= 1 witness 1

  /** One turn of the polling loop: the log when the page was read; when the page was empty,
      the log at the later moment the run row was read, and whether the run was missing then. */
  datatype Poll = Poll(log: seq<Event>, atCheck: seq<Event>, missing: bool)

  /** Where the first terminal event of a log stands. */
  function FirstTerminal(log: seq<Event>): (r: Option<nat>)
    ensures r.Some? ==> r.value < |log| && TerminalEvent(log[r.value])
    ensures r.Some? ==> forall i :: 0 <= i < r.value ==> !TerminalEvent(log[i])
    ensures r.None? ==> forall i :: 0 <= i < |log| ==> !TerminalEvent(log[i])
  {
    if log == [] then None
    else
      var earlier := FirstTerminal(Front(log));
      if earlier.Some? then earlier
      else if TerminalEvent(Last(log)) then Some(|log| - 1) else None
  }

  /** The status check closes the stream.  Status and terminal event commit together, so the run is
      terminal exactly when its log holds a terminal event; see `CheckReadsTheLog`. */
  predicate Stops(p: Poll) {
    p.missing || FirstTerminal(p.atCheck).Some?
  }

  lemma CheckReadsTheLog(run: Run)
    requires RunInv(run)
    ensures Terminal(run.status) <==> FirstTerminal(run.log).Some?
  {
    StatusIsProjection(run);
    TerminalIsCounted(run.log);
  }

  lemma {:induction false} TerminalIsCounted(log: seq<Event>)
    ensures TerminalEvents(log) > 0 <==> FirstTerminal(log).Some?
  {
    if log != [] {
      TerminalIsCounted(Front(log));
    }
  }

  datatype Message = Message(id: nat, event: Event)

  /** How a stream stopped: still open, by a terminal event, or by the status check. */
  datatype StreamEnd = Open | TerminalSent | StatusEnded

  /** `turns` counts the turns of the loop that were taken. */
  datatype Delivery = Delivery(messages: seq<Message>, end: StreamEnd, turns: nat)

  function ParseLastEventId(value: Option<string>): Result<nat, string> {
    if value.None? || value.value == "" then Ok(0)
    else
      match Text.ParseDecimal(value.value)
      case None => Err("invalid Last-Event-ID")
      case Some(n) => Ok(n)
  }

  /** A client that echoes the id it was sent resumes exactly there. */
  lemma LastEventIdRoundTrip(id: nat)
    ensures ParseLastEventId(Some(Text.Decimal(id))) == Ok(id)
  {
    Text.DecimalRoundTrip(id);
  }

  /** No id, or an empty one, means the beginning of the log; an id that is not a number is refused. */
  lemma ParseLastEventIdExactly(value: Option<string>)
    ensures value.None? || value == Some("") ==> ParseLastEventId(value) == Ok(0)
    ensures ParseLastEventId(value).Err?
       <==> value.Some? && exists i :: 0 <= i < |value.value| && !('0' <= value.value[i] <= '9')
  {
  }

  /** What the page after a cursor contributes: at most `limit` events, up to and including a
      terminal one. */
  function Sent(after: nat, log: seq<Event>, limit: nat): seq<Message>
    decreases limit
  {
    if after >= |log| || limit == 0 then []
    else if TerminalEvent(log[after]) then [Message(after + 1, log[after])]
    else [Message(after + 1, log[after])] + Sent(after + 1, log, limit - 1)
  }

  predicate Closes(messages: seq<Message>) {
    messages != [] && TerminalEvent(Last(messages).event)
  }

  /** What a stream opened at `after` sends over the given turns of its loop. */
  function Stream(limit: PageLimit, after: nat, polls: seq<Poll>): Delivery
    decreases |polls|
  {
    if polls == [] then Delivery([], Open, 0)
    else
      var sent := Sent(after, polls[0].log, limit);
      if Closes(sent) then Delivery(sent, TerminalSent, 1)
      else if sent == [] && Stops(polls[0]) then Delivery([], StatusEnded, 1)
      else
        var rest := Stream(limit, after + |sent|, polls[1..]);
        Delivery(sent + rest.messages, rest.end, 1 + rest.turns)
  }

  /** The log is only ever appended to. */
  predicate Growing(polls: seq<Poll>) {
    polls == []
    || (polls[0].log <= polls[0].atCheck
        && (forall i :: 0 <= i < |polls| ==> polls[0].log <= polls[i].log)
        && Growing(polls[1..]))
  }

  predicate Within(polls: seq<Poll>, log: seq<Event>) {
    forall i :: 0 <= i < |polls| ==> polls[i].log <= log
  }

  // ----------------------------------------------------------- the loop itself

  lemma Regroup(a: seq<Message>, m: Message, b: seq<Message>)
    ensures a + ([m] + b) == a + [m] + b
  {
  }

  method SendPage(limit: PageLimit, after: nat, log: seq<Event>) returns (sent: seq<Message>)
    ensures sent == Sent(after, log, limit)
  {
    sent := [];
    var i: nat, left: nat := after, limit;
    while i < |log| && left > 0
      invariant 0 <= left && after <= i
      invariant sent + Sent(i, log, left) == Sent(after, log, limit)
    {
      ghost var rest := Sent(i, log, left);
      sent := sent + [Message(i + 1, log[i])];
      if TerminalEvent(log[i]) {
        return;
      }
      i, left := i + 1, left - 1;
      Regroup(sent[..|sent| - 1], rest[0], Sent(i, log, left));
    }
  }

  /** The first turn, and the rest of the stream after it. */
  lemma OneTurn(limit: PageLimit, after: nat, polls: seq<Poll>)
    requires polls != []
    ensures var sent := Sent(after, polls[0].log, limit);
            var rest := Stream(limit, after + |sent|, polls[1..]);
            Stream(limit, after, polls)
              == if Closes(sent) then Delivery(sent, TerminalSent, 1)
                 else if sent == [] && Stops(polls[0]) then Delivery([], StatusEnded, 1)
                 else Delivery(sent + rest.messages, rest.end, 1 + rest.turns)
  {
  }

  /** A delivery that has got so far and goes on from `cursor`. */
  function GoingOn(limit: PageLimit, messages: seq<Message>, turns: nat, cursor: nat, polls: seq<Poll>): Delivery {
    var rest := Stream(limit, cursor, polls);
    Delivery(messages + rest.messages, rest.end, turns + rest.turns)
  }

  /** One turn of the loop moves messages from the rest to what was sent. */
  lemma TurnMoves(limit: PageLimit, messages: seq<Message>, turns: nat, cursor: nat, polls: seq<Poll>)
    requires polls != []
    ensures var sent := Sent(cursor, polls[0].log, limit);
            GoingOn(limit, messages, turns, cursor, polls)
              == if Closes(sent) then Delivery(messages + sent, TerminalSent, turns + 1)
                 else if sent == [] && Stops(polls[0]) then Delivery(messages, StatusEnded, turns + 1)
                 else GoingOn(limit, messages + sent, turns + 1, cursor + |sent|, polls[1..])
  {
    OneTurn(limit, cursor, polls);
    var sent := Sent(cursor, polls[0].log, limit);
    RegroupAll(messages, sent, Stream(limit, cursor + |sent|, polls[1..]).messages);
  }

  lemma RegroupAll(a: seq<Message>, b: seq<Message>, c: seq<Message>)
    ensures a + (b + c) == a + b + c && a + [] == a
  {
  }

  method IterSseEvents(limit: PageLimit, after: nat, polls: seq<Poll>) returns (d: Delivery)
    ensures d == Stream(limit, after, polls)
  {
    var cursor := after;
    var messages: seq<Message> := [];
    var p := 0;
    assert polls[p..] == polls;
    while p < |polls|
      invariant 0 <= p <= |polls| && 0 <= cursor
      invariant Stream(limit, after, polls) == GoingOn(limit, messages, p, cursor, polls[p..])
    {
      assert polls[p..][1..] == polls[p + 1..];
      TurnMoves(limit, messages, p, cursor, polls[p..]);
      var sent := SendPage(limit, cursor, polls[p].log);
      messages := messages + sent;
      cursor := cursor + |sent|;
      if Closes(sent) {
        return Delivery(messages, TerminalSent, p + 1);
      }
      if sent == [] && Stops(polls[p]) {
        return Delivery(messages, StatusEnded, p + 1);
      }
      p := p + 1;
    }
    return Delivery(messages, Open, p);
  }

  // ------------------------------------------------------------- what is sent

  /** The messages are the log from `after` on, without gap, repetition or reordering, each
      under its own sequence number. */
  predicate Contiguous(after: nat, messages: seq<Message>, log: seq<Event>) {
    forall k :: 0 <= k < |messages| ==> Carries(after + k, messages[k], log)
  }

  /** The message is event `n` of the log, counted from 0. */
  predicate Carries(n: nat, m: Message, log: seq<Event>) {
    n < |log| && m == Message(n + 1, log[n])
  }

  lemma {:induction false} SentIsContiguous(after: nat, seen: seq<Event>, limit: nat, log: seq<Event>)
    requires seen <= log
    ensures Contiguous(after, Sent(after, seen, limit), log)
    decreases limit
  {
    if after < |seen| && limit > 0 && !TerminalEvent(seen[after]) {
      SentIsContiguous(after + 1, seen, limit - 1, log);
      Joined(after, [Message(after + 1, seen[after])], Sent(after + 1, seen, limit - 1), log);
    }
  }

  /** A page leaves nothing out: it ends at a terminal event, at the limit or at the end of the log. */
  lemma {:induction false} SentIsMaximal(after: nat, seen: seq<Event>, limit: nat)
    requires after <= |seen|
    ensures var sent := Sent(after, seen, limit);
            Closes(sent) || |sent| == limit || after + |sent| == |seen|
    decreases limit
  {
    if after < |seen| && limit > 0 && !TerminalEvent(seen[after]) {
      SentIsMaximal(after + 1, seen, limit - 1);
      var rest := Sent(after + 1, seen, limit - 1);
      assert rest != [] ==> Last([Message(after + 1, seen[after])] + rest) == Last(rest);
    }
  }

  lemma {:induction false} SentStopsAtTerminal(after: nat, seen: seq<Event>, limit: nat, k: nat)
    requires k < |Sent(after, seen, limit)| && TerminalEvent(Sent(after, seen, limit)[k].event)
    ensures k == |Sent(after, seen, limit)| - 1
    decreases limit
  {
    if !TerminalEvent(seen[after]) {
      SentStopsAtTerminal(after + 1, seen, limit - 1, k - 1);
    }
  }

  lemma ContiguousAt(after: nat, messages: seq<Message>, log: seq<Event>, k: nat)
    requires Contiguous(after, messages, log) && k < |messages|
    ensures after + k < |log| && messages[k] == Message(after + k + 1, log[after + k])
  {
  }

  lemma ConcatAt(a: seq<Message>, b: seq<Message>, k: nat)
    requires k < |a| + |b|
    ensures |a + b| == |a| + |b| && (a + b)[k] == if k < |a| then a[k] else b[k - |a|]
  {
  }

  lemma Joined(after: nat, a: seq<Message>, b: seq<Message>, log: seq<Event>)
    requires Contiguous(after, a, log) && Contiguous(after + |a|, b, log)
    ensures Contiguous(after, a + b, log)
  {
    var all := a + b;
    forall k | 0 <= k < |all| ensures Carries(after + k, all[k], log) {
      ConcatAt(a, b, k);
      if k >= |a| {
        ContiguousAt(after + |a|, b, log, k - |a|);
      } else {
        ContiguousAt(after, a, log, k);
      }
    }
  }

  lemma {:induction false} StreamIsContiguous(limit: PageLimit, after: nat, polls: seq<Poll>, log: seq<Event>)
    requires Within(polls, log)
    ensures Contiguous(after, Stream(limit, after, polls).messages, log)
    decreases |polls|
  {
    if polls != [] {
      var sent := Sent(after, polls[0].log, limit);
      SentIsContiguous(after, polls[0].log, limit, log);
      StreamIsContiguous(limit, after + |sent|, polls[1..], log);
      Joined(after, sent, Stream(limit, after + |sent|, polls[1..]).messages, log);
    }
  }

  /** A turn that finds nothing new ends the stream exactly when the run is missing or over. */
  lemma EmptyTurnEndsExactly(limit: PageLimit, after: nat, polls: seq<Poll>)
    requires polls != [] && after >= |polls[0].log|
    ensures Stream(limit, after, polls) == Delivery([], StatusEnded, 1)
       <==> polls[0].missing || exists e <- polls[0].atCheck :: TerminalEvent(e)
  {
    var rest := Stream(limit, after, polls[1..]);
    OneTurn(limit, after, polls);
    if FirstTerminal(polls[0].atCheck).Some? {
      assert polls[0].atCheck[FirstTerminal(polls[0].atCheck).value] in polls[0].atCheck;
    }
    if polls[1..] != [] {
      OneTurn(limit, after, polls[1..]);
    }
  }

  /** A client that comes for the first time sees the log from its first event on. */
  lemma FirstTimeSeesTheBeginning(limit: PageLimit, polls: seq<Poll>, log: seq<Event>, k: nat)
    requires Within(polls, log) && k < |Stream(limit, ParseLastEventId(None).value, polls).messages|
    ensures k < |log| && Stream(limit, ParseLastEventId(None).value, polls).messages[k] == Message(k + 1, log[k])
  {
    StreamIsContiguous(limit, 0, polls, log);
    ContiguousAt(0, Stream(limit, 0, polls).messages, log, k);
  }

  /** A stream sends nothing after a terminal event. */
  lemma {:induction false} NothingAfterTerminal(limit: PageLimit, after: nat, polls: seq<Poll>, k: nat)
    requires k < |Stream(limit, after, polls).messages|
    requires TerminalEvent(Stream(limit, after, polls).messages[k].event)
    ensures k == |Stream(limit, after, polls).messages| - 1 && Stream(limit, after, polls).end.TerminalSent?
    decreases |polls|
  {
    var sent := Sent(after, polls[0].log, limit);
    if k >= |sent| {
      NothingAfterTerminal(limit, after + |sent|, polls[1..], k - |sent|);
    } else {
      SentStopsAtTerminal(after, polls[0].log, limit, k);
    }
  }

  // ---------------------------------------------------------- chains of streams

  /** A client that reconnects, each time with the last id it received. */
  function Chain(limit: PageLimit, after: nat, sessions: seq<seq<Poll>>): seq<Message>
    decreases |sessions|
  {
    if sessions == [] then []
    else
      var first := Stream(limit, after, sessions[0]).messages;
      first + Chain(limit, if first == [] then after else Last(first).id, sessions[1..])
  }

  /** Over any number of reconnections the client sees every event once, in order. */
  lemma {:induction false} ChainIsContiguous(limit: PageLimit, after: nat, sessions: seq<seq<Poll>>, log: seq<Event>)
    requires forall s :: 0 <= s < |sessions| ==> Within(sessions[s], log)
    ensures Contiguous(after, Chain(limit, after, sessions), log)
    decreases |sessions|
  {
    if sessions != [] {
      StreamIsContiguous(limit, after, sessions[0], log);
      var first := Stream(limit, after, sessions[0]).messages;
      ChainIsContiguous(limit, after + |first|, sessions[1..], log);
      Joined(after, first, Chain(limit, after + |first|, sessions[1..]), log);
    }
  }

  // ----------------------------------------------------- ending by the status check

  /** The turn whose status check closed the stream. */
  function ClosingPoll(limit: PageLimit, after: nat, polls: seq<Poll>): Poll
    requires Stream(limit, after, polls).end.StatusEnded?
    decreases |polls|
  {
    var sent := Sent(after, polls[0].log, limit);
    if sent == [] && Stops(polls[0]) then polls[0] else ClosingPoll(limit, after + |sent|, polls[1..])
  }

  lemma {:induction false} ClosingPollOk(limit: PageLimit, after: nat, polls: seq<Poll>)
    requires Growing(polls) && Stream(limit, after, polls).end.StatusEnded?
    ensures var last := ClosingPoll(limit, after, polls);
            last in polls && Stops(last) && last.log <= last.atCheck
    decreases |polls|
  {
    var sent := Sent(after, polls[0].log, limit);
    if !(sent == [] && Stops(polls[0])) {
      ClosingPollOk(limit, after + |sent|, polls[1..]);
    }
  }

  /** Until it was closed, the stream sent a gapless part of the log that its last page was read from. */
  lemma {:induction false} ContiguousAtClose(limit: PageLimit, after: nat, polls: seq<Poll>)
    requires Growing(polls) && Stream(limit, after, polls).end.StatusEnded?
    ensures Contiguous(after, Stream(limit, after, polls).messages, ClosingPoll(limit, after, polls).log)
    decreases |polls|
  {
    var sent := Sent(after, polls[0].log, limit);
    if !(sent == [] && Stops(polls[0])) {
      var last := ClosingPoll(limit, after, polls);
      ClosingPollOk(limit, after + |sent|, polls[1..]);
      ContiguousAtClose(limit, after + |sent|, polls[1..]);
      SeenBefore(polls, last);
      TurnJoins(limit, after, polls, last.log);
    }
  }

  lemma TurnJoins(limit: PageLimit, after: nat, polls: seq<Poll>, log: seq<Event>)
    requires polls != [] && polls[0].log <= log
    requires var sent := Sent(after, polls[0].log, limit);
             Contiguous(after + |sent|, Stream(limit, after + |sent|, polls[1..]).messages, log)
    ensures Contiguous(after, Stream(limit, after, polls).messages, log)
  {
    var sent := Sent(after, polls[0].log, limit);
    OneTurn(limit, after, polls);
    SentIsContiguous(after, polls[0].log, limit, log);
    Joined(after, sent, Stream(limit, after + |sent|, polls[1..]).messages, log);
  }

  lemma SeenBefore(polls: seq<Poll>, later: Poll)
    requires Growing(polls) && later in polls
    ensures polls != [] && polls[0].log <= later.log
  {
    var i :| 0 <= i < |polls| && polls[i] == later;
  }

  lemma NoTerminalSent(limit: PageLimit, after: nat, polls: seq<Poll>, log: seq<Event>, t: nat)
    requires Stream(limit, after, polls).end.StatusEnded?
    requires Contiguous(after, Stream(limit, after, polls).messages, log)
    requires after <= t < after + |Stream(limit, after, polls).messages|
    ensures t < |log| && !TerminalEvent(log[t])
  {
    var messages := Stream(limit, after, polls).messages;
    ContiguousAt(after, messages, log, t - after);
    if TerminalEvent(log[t]) {
      NothingAfterTerminal(limit, after, polls, t - after);
    }
  }

  /** A stream closed by the status check of a run that is there has missed the terminal event
      exactly when it was opened before that event. */
  lemma StatusEndMissesExactly(limit: PageLimit, after: nat, polls: seq<Poll>)
    requires Growing(polls) && Stream(limit, after, polls).end.StatusEnded?
    requires !ClosingPoll(limit, after, polls).missing
    ensures var last := ClosingPoll(limit, after, polls);
            FirstTerminal(last.atCheck).Some?
            && (after + |Stream(limit, after, polls).messages| <= FirstTerminal(last.atCheck).value
                <==> after <= FirstTerminal(last.atCheck).value)
  {
    var last := ClosingPoll(limit, after, polls);
    ClosingPollOk(limit, after, polls);
    ContiguousAtClose(limit, after, polls);
    var t := FirstTerminal(last.atCheck).value;
    if after <= t < after + |Stream(limit, after, polls).messages| {
      NoTerminalSent(limit, after, polls, last.log, t);
    }
  }

  /** A page that reaches the terminal event ends with it; one that does not is full. */
  lemma {:induction false} PageTowards(after: nat, seen: seq<Event>, limit: nat, t: nat)
    requires after <= t < |seen| && TerminalEvent(seen[t])
    requires forall i :: after <= i < t ==> !TerminalEvent(seen[i])
    ensures var sent := Sent(after, seen, limit);
            if t - after < limit then |sent| == t - after + 1 && Closes(sent) && Last(sent).id == t + 1
            else |sent| == limit && (limit > 0 ==> !Closes(sent))
    decreases limit
  {
    if limit > 0 && after < t {
      PageTowards(after + 1, seen, limit - 1, t);
      var rest := Sent(after + 1, seen, limit - 1);
      assert rest != [] ==> Last([Message(after + 1, seen[after])] + rest) == Last(rest);
    }
  }

  /** Every turn sees at least this log. */
  predicate Beyond(polls: seq<Poll>, log: seq<Event>) {
    forall k :: 0 <= k < |polls| ==> log <= polls[k].log
  }

  /** A session that starts short of a terminal event and is given enough turns ends with it. */
  lemma {:induction false} SessionReaches(limit: PageLimit, cursor: nat, polls: seq<Poll>, log: seq<Event>, t: nat)
    requires cursor <= t < |log| && TerminalEvent(log[t]) && forall i :: cursor <= i < t ==> !TerminalEvent(log[i])
    requires Beyond(polls, log) && |polls| > t - cursor
    ensures var d := Stream(limit, cursor, polls);
            d.end.TerminalSent? && d.messages != [] && Last(d.messages) == Message(t + 1, log[t])
    decreases |polls|
  {
    var sent := Sent(cursor, polls[0].log, limit);
    TurnTowards(limit, cursor, polls[0].log, log, t);
    OneTurn(limit, cursor, polls);
    if t - cursor >= limit {
      BeyondTail(polls, log);
      SessionReaches(limit, cursor + |sent|, polls[1..], log, t);
      LastOfConcat(sent, Stream(limit, cursor + |sent|, polls[1..]).messages);
    }
  }

  lemma LastOfConcat(a: seq<Message>, b: seq<Message>)
    requires b != []
    ensures Last(a + b) == Last(b)
  {
  }

  lemma BeyondTail(polls: seq<Poll>, log: seq<Event>)
    requires Beyond(polls, log) && polls != []
    ensures log <= polls[0].log && Beyond(polls[1..], log)
  {
  }

  lemma TurnTowards(limit: PageLimit, cursor: nat, seen: seq<Event>, log: seq<Event>, t: nat)
    requires cursor <= t < |log| && TerminalEvent(log[t]) && log <= seen
    requires forall i :: cursor <= i < t ==> !TerminalEvent(log[i])
    ensures var sent := Sent(cursor, seen, limit);
            if t - cursor < limit then Closes(sent) && Last(sent) == Message(t + 1, log[t])
            else |sent| == limit && !Closes(sent)
  {
    PageTowards(cursor, seen, limit, t);
    if t - cursor < limit {
      SentIsContiguous(cursor, seen, limit, seen);
      ContiguousAt(cursor, Sent(cursor, seen, limit), seen, t - cursor);
    }
  }

  /** What the stream missed, one more session from the last id delivers. */
  lemma OneMoreSessionDelivers(limit: PageLimit, after: nat, polls: seq<Poll>, later: seq<Poll>)
    requires Growing(polls) && Stream(limit, after, polls).end.StatusEnded?
    requires !ClosingPoll(limit, after, polls).missing
    requires var log := ClosingPoll(limit, after, polls).atCheck;
             Beyond(later, log) && |later| > |log| && FirstTerminal(log).Some? && after <= FirstTerminal(log).value
    ensures var t := FirstTerminal(ClosingPoll(limit, after, polls).atCheck).value;
            var d := Stream(limit, after + |Stream(limit, after, polls).messages|, later);
            d.end.TerminalSent? && d.messages != [] && Last(d.messages).id == t + 1
  {
    StatusEndMissesExactly(limit, after, polls);
    var log := ClosingPoll(limit, after, polls).atCheck;
    SessionReaches(limit, after + |Stream(limit, after, polls).messages|, later, log, FirstTerminal(log).value);
  }

  /** The race is real: the terminal event is appended between the empty page and the check,
      and the stream closes without sending it. */
  lemma StatusEndCanMissTheTerminalEvent()
    ensures var log := [RunQueued("q"), RunStarted];
            var polls := [Poll(log, log + [RunRefused(None, None)], false)];
            Growing(polls) && Stream(100, 2, polls) == Delivery([], StatusEnded, 1)
            && FirstTerminal(polls[0].atCheck) == Some(2)
  {
    var log := [RunQueued("q"), RunStarted];
    var all := log + [RunRefused(None, None)];
    assert Front(all) == log;
    assert FirstTerminal(all) == Some(2);
  }
}
