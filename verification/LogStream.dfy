// What a dashboard client ends up with: the backlog of its connection, then live lines.
module LogStream {
  import opened Lists
  import opened ProcessLogs

  const BACKLOG := 400
  const MAX_LOGS := 2000

  // ----- the newest lines are all there -----

  lemma {:induction false} OfJoins(a: seq<Line>, b: seq<Line>, p: Proc)
    ensures Of(a + b, p) == Of(a, p) + Of(b, p)
  {
    if b == [] {
      assert a + b == a && Of(a, p) + [] == Of(a, p);
    } else {
      var n := |b| - 1;
      var tail := if b[n].proc == p then [b[n]] else [];
      OfJoins(a, b[..n], p);
      assert (a + b)[..|a + b| - 1] == a + b[..n] && (a + b)[|a + b| - 1] == b[n];
      assert Of(a + b, p) == Of(a + b[..n], p) + tail;
      assert Of(b, p) == Of(b[..n], p) + tail;
      assert (Of(a, p) + Of(b[..n], p)) + tail == Of(a, p) + (Of(b[..n], p) + tail);
    }
  }

  lemma {:induction false} OfIsPart(lines: seq<Line>, p: Proc)
    ensures forall l :: l in Of(lines, p) ==> l in lines
  {
    if lines == [] {
    } else {
      OfIsPart(lines[..|lines| - 1], p);
    }
  }

  lemma InLast(before: seq<Line>, line: Line, after: seq<Line>, n: nat)
    requires |after| < n
    ensures line in Last(before + [line] + after, n)
  {
    var all := before + [line] + after;
    assert all[|before|] == line;
    if |all| > n {
      assert Last(all, n)[|before| - (|all| - n)] == line;
    }
  }

  // A line is still in its log while it is among the newest 4000 of its process, and
  // never comes back after a clearing.
  lemma LineRetained(lines: seq<Line>, from: nat, i: nat)
    requires i < |lines| && from <= |lines| && Numbered(lines) && |lines| - i <= MAX_LOG_LINES
    ensures lines[i] in Last(Of(lines[from..], lines[i].proc), MAX_LOG_LINES) <==> from <= i
  {
    hide Last;
    var p := lines[i].proc;
    if from <= i {
      assert lines[from..] == lines[from..i] + [lines[i]] + lines[i + 1..];
      OfJoins(lines[from..i] + [lines[i]], lines[i + 1..], p);
      OfJoins(lines[from..i], [lines[i]], p);
      assert Of([lines[i]], p) == [lines[i]];
      InLast(Of(lines[from..i], p), lines[i], Of(lines[i + 1..], p), MAX_LOG_LINES);
    } else {
      OfIsPart(lines[from..], p);
      LastIsPart(Of(lines[from..], p), MAX_LOG_LINES);
      forall j | from <= j < |lines|
        ensures lines[j] != lines[i]
      {
        assert lines[j].id == j + 1 && lines[i].id == i + 1;
      }
    }
  }

  lemma LastIsPart<T>(s: seq<T>, n: nat)
    ensures forall x :: x in Last(s, n) ==> x in s
  {
  }

  // ----- sorting by id -----

  ghost predicate Ascending(lines: seq<Line>) {
    forall i, j :: 0 <= i < j < |lines| ==> lines[i].id < lines[j].id
  }

  ghost predicate DistinctIds(lines: seq<Line>) {
    forall i, j :: 0 <= i < j < |lines| ==> lines[i].id != lines[j].id
  }

  lemma SortAscends(lines: seq<Line>)
    requires DistinctIds(lines)
    ensures Ascending(SortById(lines))
  {
    SortSorts(lines, Earlier, set l | l in lines);
  }

  lemma {:induction false} OfAscends(lines: seq<Line>, p: Proc)
    requires Ascending(lines)
    ensures Ascending(Of(lines, p)) && forall l :: l in Of(lines, p) ==> l.proc == p
  {
    if lines == [] {
    } else {
      var n := |lines| - 1;
      OfAscends(lines[..n], p);
      OfIsPart(lines[..n], p);
      var before := Of(lines[..n], p);
      forall i | 0 <= i < |before|
        ensures before[i].id < lines[n].id
      {
        assert before[i] in lines[..n];
      }
    }
  }

  lemma LogAscends(lines: seq<Line>, from: nat, p: Proc)
    requires Numbered(lines) && from <= |lines|
    ensures var log := Last(Of(lines[from..], p), MAX_LOG_LINES);
            Ascending(log) && forall l :: l in log ==> l.proc == p && l in lines
  {
    OfAscends(lines[from..], p);
    OfIsPart(lines[from..], p);
    LastIsPart(Of(lines[from..], p), MAX_LOG_LINES);
  }

  lemma LogsAreDistinct(s: LogState, c: Cleared)
    requires Retains(s, c)
    ensures DistinctIds(s.server + s.daemon)
    ensures forall l :: l in s.server + s.daemon ==> l in s.emitted && l in LogsOf(s, l.proc)
  {
    hide Of, Last;
    LogAscends(s.emitted, c.server, Server);
    LogAscends(s.emitted, c.daemon, Daemon);
    forall i, j | 0 <= i < |s.server| && 0 <= j < |s.daemon|
      ensures s.server[i].id != s.daemon[j].id
    {
      assert s.server[i] in s.server && s.daemon[j] in s.daemon;
    }
  }

  lemma AllLogsAre(s: LogState, c: Cleared)
    requires Retains(s, c)
    ensures Ascending(AllLogs(s, 0))
    ensures forall l :: l in AllLogs(s, 0) <==> l in LogsOf(s, l.proc)
    ensures forall l :: l in AllLogs(s, 0) ==> l in s.emitted
  {
    LogsAreDistinct(s, c);
    SinceZero(s.server + s.daemon);
    hide Retains, SortById;
    SortAscends(s.server + s.daemon);
  }

  lemma {:induction false} SinceZero(lines: seq<Line>)
    requires forall l :: l in lines ==> l.id > 0
    ensures Since(lines, 0) == lines
  {
    if lines == [] {
    } else {
      SinceZero(lines[1..]);
      assert lines == [lines[0]] + lines[1..];
    }
  }

  predicate Emitted(line: Line, lines: seq<Line>) {
    0 < line.id <= |lines| && lines[line.id - 1] == line
  }

  lemma InIsEmitted(lines: seq<Line>)
    requires Numbered(lines)
    ensures forall l :: l in lines ==> Emitted(l, lines)
  {
  }

  // The last k of one list are the last k of the other.
  ghost predicate EndLike(all: seq<Line>, lines: seq<Line>, k: nat) {
    && k <= |all| && k <= |lines|
    && forall u :: |all| - k <= u < |all| ==> all[u] == lines[u - |all| + |lines|]
  }

  lemma NextNewest(all: seq<Line>, lines: seq<Line>, k: nat)
    requires Ascending(all) && Numbered(lines) && k < |lines| && EndLike(all, lines, k)
    requires forall i :: 0 <= i < |all| ==> Emitted(all[i], lines)
    requires lines[|lines| - k - 1] in all
    ensures EndLike(all, lines, k + 1)
  {
    var t :| 0 <= t < |all| && all[t] == lines[|lines| - k - 1];
    var top := |all| - k;
    if k > 0 {
      assert all[top] == lines[|lines| - k];
      assert all[t].id < all[top].id;
    }
    assert t < top;
    assert all[t].id <= all[top - 1].id <= |lines| - k;
    assert Emitted(all[top - 1], lines);
  }

  // An ascending list of emitted lines that has the newest k ends in them.
  lemma {:induction false} NewestAtEnd(all: seq<Line>, lines: seq<Line>, k: nat)
    requires Ascending(all) && Numbered(lines) && k <= |lines|
    requires forall i :: 0 <= i < |all| ==> Emitted(all[i], lines)
    requires forall i :: |lines| - k <= i < |lines| ==> lines[i] in all
    ensures EndLike(all, lines, k)
    decreases k
  {
    if k > 0 {
      hide EndLike, Ascending, Numbered;
      NewestAtEnd(all, lines, k - 1);
      NextNewest(all, lines, k - 1);
    } else {
      NothingEndsLike(all, lines);
    }
  }

  lemma NothingEndsLike(all: seq<Line>, lines: seq<Line>)
    ensures EndLike(all, lines, 0)
  {
  }

  lemma SameEnds(all: seq<Line>, lines: seq<Line>, k: nat)
    requires Ascending(all) && EndLike(all, lines, if k <= |lines| then k else |lines|) && Numbered(lines)
    requires forall i :: 0 <= i < |all| ==> Emitted(all[i], lines)
    ensures Last(all, k) == Last(lines, k)
  {
    if k >= |lines| {
      if lines == [] {
        assert |all| == 0;
      } else {
        assert Emitted(all[0], lines);
        assert all[|all| - |lines|] == lines[0];
        assert |all| - |lines| == 0;
      }
      assert all == lines;
    }
  }

  // None of the newest k lines was cleared away after it was emitted.
  ghost predicate Untouched(s: LogState, c: Cleared, k: nat) {
    forall i :: 0 <= i < |s.emitted| && |s.emitted| - k <= i ==> ClearedAt(c, s.emitted[i].proc) <= i
  }

  lemma NewestAreListed(s: LogState, c: Cleared, k: nat)
    requires Retains(s, c) && 0 < k <= MAX_LOG_LINES
    ensures var E := s.emitted;
            forall i :: 0 <= i < |E| && |E| - k <= i ==> (E[i] in AllLogs(s, 0) <==> ClearedAt(c, E[i].proc) <= i)
  {
    AllLogsAre(s, c);
    hide AllLogs, Of, Last;
    forall i | 0 <= i < |s.emitted| && |s.emitted| - k <= i
      ensures s.emitted[i] in AllLogs(s, 0) <==> ClearedAt(c, s.emitted[i].proc) <= i
    {
      LineRetained(s.emitted, ClearedAt(c, s.emitted[i].proc), i);
    }
  }

  lemma LastHas(lines: seq<Line>, k: nat, i: nat)
    requires i < |lines| && |lines| - k <= i
    ensures lines[i] in Last(lines, k)
  {
    InLast(lines[..i], lines[i], lines[i + 1..], k);
    assert lines == lines[..i] + [lines[i]] + lines[i + 1..];
  }

  lemma UntouchedRetained(s: LogState, c: Cleared, k: nat)
    requires Retains(s, c) && 0 < k <= MAX_LOG_LINES && Untouched(s, c, k)
    ensures Last(AllLogs(s, 0), k) == Last(s.emitted, k)
  {
    var all, lines := AllLogs(s, 0), s.emitted;
    var n := if k <= |lines| then k else |lines|;
    AllLogsAre(s, c);
    NewestAreListed(s, c, k);
    StateIsNumbered(s, c);
    InIsEmitted(lines);
    hide AllLogs, Retains, Of, Numbered, Ascending, Last, Emitted;
    assert forall i :: |lines| - n <= i < |lines| ==> lines[i] in all;
    assert forall i :: 0 <= i < |all| ==> Emitted(all[i], lines);
    NewestAtEnd(all, lines, n);
    SameEnds(all, lines, k);
  }

  lemma StateIsNumbered(s: LogState, c: Cleared)
    requires Retains(s, c)
    ensures Numbered(s.emitted)
  {
  }

  lemma RetainedUntouched(s: LogState, c: Cleared, k: nat)
    requires Retains(s, c) && 0 < k <= MAX_LOG_LINES && Last(AllLogs(s, 0), k) == Last(s.emitted, k)
    ensures Untouched(s, c, k)
  {
    NewestAreListed(s, c, k);
    LastIsPart(AllLogs(s, 0), k);
    hide Last, AllLogs, Retains;
    forall i | 0 <= i < |s.emitted| && |s.emitted| - k <= i
      ensures ClearedAt(c, s.emitted[i].proc) <= i
    {
      LastHas(s.emitted, k, i);
    }
  }

  // The newest k lines of the merged logs are the newest k lines that were emitted
  // exactly when none of those was cleared.
  lemma NewestLinesRetained(s: LogState, c: Cleared, k: nat)
    requires Retains(s, c) && 0 < k <= MAX_LOG_LINES
    ensures Last(AllLogs(s, 0), k) == Last(s.emitted, k) <==> Untouched(s, c, k)
  {
    hide Last, AllLogs, Retains, Untouched;
    if Untouched(s, c, k) {
      UntouchedRetained(s, c, k);
    }
    if Last(AllLogs(s, 0), k) == Last(s.emitted, k) {
      RetainedUntouched(s, c, k);
    }
  }

  // ----- the client -----

  datatype Message = Backlog(lines: seq<Line>) | Live(line: Line)

  // The store's setBacklog and appendLog.
  function Receive(client: seq<Line>, m: Message): seq<Line> {
    match m
    case Backlog(lines) => Last(lines, MAX_LOGS)
    case Live(line) => Last(client + [line], MAX_LOGS)
  }

  // The page's store.
  class LogStore {
    var logs: seq<Line>

    constructor ()
      ensures logs == []
    {
      logs := [];
    }

    method SetBacklog(lines: seq<Line>)
      modifies this
      ensures logs == Receive(old(logs), Backlog(lines))
    {
      logs := if |lines| <= MAX_LOGS then lines else lines[|lines| - MAX_LOGS..];
    }

    method AppendLog(line: Line)
      modifies this
      ensures logs == Receive(old(logs), Live(line))
    {
      logs := logs + [line];
      if |logs| > MAX_LOGS {
        logs := logs[|logs| - MAX_LOGS..];
      }
    }

    method ClearLogs()
      modifies this
      ensures logs == []
    {
      logs := [];
    }
  }

  // The stream that a GET opens: the snapshot first, then every line until it closes.
  class LogFeed {
    var closed: bool
    var sent: seq<Message>

    constructor (manager: ProcessManager)
      ensures !closed && sent == [Backlog(Last(AllLogs(manager.State(), 0), BACKLOG))]
    {
      hide SortById, Since;
      var all := SortById(Since(manager.server + manager.daemon, 0));
      closed := false;
      sent := [Backlog(if |all| <= BACKLOG then all else all[|all| - BACKLOG..])];
    }

    method OnLog(line: Line)
      modifies this
      ensures closed == old(closed) && sent == if closed then old(sent) else old(sent) + LiveMessages([line])
    {
      if closed {
        return;
      }
      sent := sent + [Live(line)];
    }

    method Close()
      modifies this
      ensures closed && sent == old(sent)
    {
      closed := true;
    }
  }

  // One dashboard and the connection that feeds it; sent holds what the daemon side has
  // written to the stream and the page has not handled yet.
  datatype System = System(log: LogState, connected: bool, sent: seq<Message>, client: seq<Line>)

  datatype Event =
    | Output(proc: Proc, stream: string, text: string)
    | Begin(proc: Proc, bin: string, command: string, launch: Launch)
    | Connect
    | Disconnect
    | Deliver
    | ClearPage

  function LiveMessages(lines: seq<Line>): (r: seq<Message>)
    ensures |r| == |lines|
  {
    seq(|lines|, i requires 0 <= i < |lines| => Live(lines[i]))
  }

  // The subscription forwards what a step emits.
  function Publish(sys: System, log: LogState): System {
    var newer := if |sys.log.emitted| <= |log.emitted| then log.emitted[|sys.log.emitted|..] else [];
    sys.(log := log, sent := if sys.connected then sys.sent + LiveMessages(newer) else sys.sent)
  }

  // GET takes the snapshot and subscribes in one go; a lost connection loses what was
  // on its way.
  function Step(sys: System, e: Event): System {
    match e
    case Output(p, stream, text) => Publish(sys, PushLog(sys.log, p, stream, text))
    case Begin(p, bin, command, launch) => Publish(sys, Start(sys.log, p, bin, command, launch))
    case Connect => sys.(connected := true, sent := [Backlog(Last(AllLogs(sys.log, 0), BACKLOG))])
    case Disconnect => sys.(connected := false, sent := [])
    case Deliver =>
      if sys.sent == [] then sys
      else sys.(client := Receive(sys.client, sys.sent[0]), sent := sys.sent[1..])
    case ClearPage => sys.(client := [])
  }

  function StepCleared(sys: System, c: Cleared, e: Event): Cleared {
    if e.Begin? then AfterStart(sys.log, c, e.proc, e.launch) else c
  }

  const START := System(NO_LOGS, false, [], [])

  function Run(events: seq<Event>): System {
    if events == [] then START else Step(Run(events[..|events| - 1]), events[|events| - 1])
  }

  function RunCleared(events: seq<Event>): Cleared {
    if events == [] then Cleared(0, 0)
    else
      var init := events[..|events| - 1];
      StepCleared(Run(init), RunCleared(init), events[|events| - 1])
  }

  // whole: the connection in force found none of its newest 400 lines cleared.
  // clean: what the page shows comes from such a connection, or was cleared since.
  datatype Health = Health(whole: bool, clean: bool)

  ghost function StepHealth(sys: System, c: Cleared, h: Health, e: Event): Health {
    match e
    case Connect => h.(whole := Untouched(sys.log, c, BACKLOG))
    case Deliver => if sys.sent != [] && sys.sent[0].Backlog? then h.(clean := h.whole) else h
    case ClearPage => h.(clean := true)
    case _ => h
  }

  ghost function RunHealth(events: seq<Event>): Health {
    if events == [] then Health(true, true)
    else
      var init := events[..|events| - 1];
      StepHealth(Run(init), RunCleared(init), RunHealth(init), events[|events| - 1])
  }

  // The client holds the stretch of the history that ends before line number `upTo`.
  ghost predicate Holds(client: seq<Line>, lines: seq<Line>, upTo: nat) {
    |client| <= upTo <= |lines| && |client| <= MAX_LOGS && client == lines[upTo - |client|..upTo]
  }

  // The messages on their way are the newest lines, in order.
  ghost predicate Newest(sent: seq<Message>, lines: seq<Line>) {
    |sent| <= |lines| && forall j :: 0 <= j < |sent| ==> sent[j] == Live(lines[|lines| - |sent| + j])
  }

  // Nothing on its way but live lines, in order, that go on where the page stops.
  ghost predicate LinesComing(sys: System, clean: bool) {
    var lines, sent := sys.log.emitted, sys.sent;
    Newest(sent, lines) && (clean ==> Holds(sys.client, lines, |lines| - |sent|))
  }

  // A backlog on its way, then the lines after it.
  ghost predicate BacklogComing(sys: System, whole: bool) {
    var lines, sent := sys.log.emitted, sys.sent;
    && sent != [] && sent[0].Backlog? && Newest(sent[1..], lines)
    && (whole ==> sent[0] == Backlog(Last(lines[..|lines| - |sent| + 1], BACKLOG)))
  }

  // A stretch so far, and one that grows without a gap as the messages arrive.
  ghost predicate GapFree(sys: System, h: Health) {
    && (h.clean ==> exists upTo :: Holds(sys.client, sys.log.emitted, upTo))
    && (if sys.connected then LinesComing(sys, h.clean) || BacklogComing(sys, h.whole) else sys.sent == [])
  }

  lemma HoldsLater(client: seq<Line>, lines: seq<Line>, later: seq<Line>, upTo: nat)
    requires Holds(client, lines, upTo) && lines <= later
    ensures Holds(client, later, upTo)
  {
  }

  lemma NewestLater(sent: seq<Message>, lines: seq<Line>, later: seq<Line>)
    requires Newest(sent, lines) && lines <= later
    ensures Newest(sent + LiveMessages(later[|lines|..]), later)
  {
  }

  lemma LinesComingLater(sys: System, log: LogState, clean: bool)
    requires sys.connected && LinesComing(sys, clean) && sys.log.emitted <= log.emitted
    ensures LinesComing(Publish(sys, log), clean)
  {
    hide Holds;
    NewestLater(sys.sent, sys.log.emitted, log.emitted);
    hide Newest;
    if clean {
      HoldsLater(sys.client, sys.log.emitted, log.emitted, |sys.log.emitted| - |sys.sent|);
    }
  }

  lemma BacklogComingLater(sys: System, log: LogState, whole: bool)
    requires sys.connected && BacklogComing(sys, whole) && sys.log.emitted <= log.emitted
    ensures BacklogComing(Publish(sys, log), whole)
  {
    hide Last;
    var lines, later, sent := sys.log.emitted, log.emitted, sys.sent;
    var newer := LiveMessages(later[|lines|..]);
    NewestLater(sent[1..], lines, later);
    assert |sent[1..]| <= |lines|;
    hide Newest;
    assert (sent + newer)[1..] == sent[1..] + newer;
    assert later[..|lines| - |sent| + 1] == lines[..|lines| - |sent| + 1];
  }

  lemma PublishGapFree(sys: System, h: Health, log: LogState)
    requires GapFree(sys, h) && sys.log.emitted <= log.emitted
    ensures GapFree(Publish(sys, log), h)
  {
    hide Holds, LinesComing, BacklogComing;
    if h.clean {
      var upTo: nat :| Holds(sys.client, sys.log.emitted, upTo);
      HoldsLater(sys.client, sys.log.emitted, log.emitted, upTo);
    }
    if sys.connected {
      if LinesComing(sys, h.clean) {
        LinesComingLater(sys, log, h.clean);
      } else {
        BacklogComingLater(sys, log, h.whole);
      }
    }
  }

  lemma NewestDropped(sent: seq<Message>, lines: seq<Line>)
    requires Newest(sent, lines) && sent != []
    ensures |sent| <= |lines| && Newest(sent[1..], lines) && sent[0] == Live(lines[|lines| - |sent|])
  {
  }

  lemma DeliverGapFree(sys: System, c: Cleared, h: Health)
    requires GapFree(sys, h) && sys.sent != []
    ensures GapFree(Step(sys, Deliver), StepHealth(sys, c, h, Deliver))
  {
    hide Holds, Newest, Untouched, AllLogs, Last, Receive;
    var lines, sent := sys.log.emitted, sys.sent;
    if LinesComing(sys, h.clean) {
      NewestDropped(sent, lines);
    }
    assert |sent| <= |lines| + 1 by {
      SentBounded(sys, h);
    }
    var upTo := |lines| - |sent| + 1;
    if StepHealth(sys, c, h, Deliver).clean {
      ReceiveHolds(sys.client, sent[0], lines, upTo);
    }
  }

  lemma SentBounded(sys: System, h: Health)
    requires GapFree(sys, h)
    ensures |sys.sent| <= |sys.log.emitted| + 1
  {
    hide Holds, Last;
  }

  lemma ReceiveHolds(client: seq<Line>, m: Message, lines: seq<Line>, upTo: nat)
    requires upTo <= |lines|
    requires m == Backlog(Last(lines[..upTo], BACKLOG))
          || (upTo > 0 && m == Live(lines[upTo - 1]) && Holds(client, lines, upTo - 1))
    ensures Holds(Receive(client, m), lines, upTo)
  {
    if m.Live? {
      var grown := client + [lines[upTo - 1]];
      assert grown == lines[upTo - |grown|..upTo];
      StretchEnds(lines, upTo, |grown|);
    }
  }

  lemma StretchEnds(lines: seq<Line>, upTo: nat, n: nat)
    requires n <= upTo <= |lines|
    ensures Last(lines[upTo - n..upTo], MAX_LOGS) == lines[upTo - (if n <= MAX_LOGS then n else MAX_LOGS)..upTo]
  {
  }

  lemma ConnectGapFree(sys: System, c: Cleared, h: Health)
    requires GapFree(sys, h) && Retains(sys.log, c)
    ensures GapFree(Step(sys, Connect), StepHealth(sys, c, h, Connect))
  {
    hide Retains, AllLogs, Untouched, Last, Holds;
    NewestLinesRetained(sys.log, c, BACKLOG);
    assert sys.log.emitted[..|sys.log.emitted|] == sys.log.emitted;
  }

  lemma ClearGapFree(sys: System, c: Cleared, h: Health)
    requires GapFree(sys, h)
    ensures GapFree(Step(sys, ClearPage), StepHealth(sys, c, h, ClearPage))
  {
    var lines := sys.log.emitted;
    assert Holds([], lines, |lines|);
    if sys.connected && Newest(sys.sent, lines) {
      assert Holds([], lines, |lines| - |sys.sent|);
    }
  }

  lemma StepRetains(sys: System, c: Cleared, e: Event)
    requires Retains(sys.log, c)
    ensures Retains(Step(sys, e).log, StepCleared(sys, c, e))
    ensures sys.log.emitted <= Step(sys, e).log.emitted
  {
    hide Retains, Split, NonEmpty, AddLines, Start;
    match e
    case Output(p, stream, text) => AddLinesRetains(sys.log, c, p, stream, NonEmpty(Split(text)));
    case Begin(p, bin, command, launch) => StartRetains(sys.log, c, p, bin, command, launch);
    case Connect =>
    case Disconnect =>
    case Deliver =>
    case ClearPage =>
  }

  lemma StepGapFree(sys: System, c: Cleared, h: Health, e: Event)
    requires GapFree(sys, h) && Retains(sys.log, c)
    ensures GapFree(Step(sys, e), StepHealth(sys, c, h, e))
  {
    StepRetains(sys, c, e);
    hide Retains, PushLog, Start, AllLogs, Last, Untouched;
    match e
    case Output(p, stream, text) => PublishGapFree(sys, h, PushLog(sys.log, p, stream, text));
    case Begin(p, bin, command, launch) => PublishGapFree(sys, h, Start(sys.log, p, bin, command, launch));
    case Connect => ConnectGapFree(sys, c, h);
    case Disconnect =>
    case Deliver =>
      if sys.sent != [] {
        DeliverGapFree(sys, c, h);
      }
    case ClearPage => ClearGapFree(sys, c, h);
  }

  lemma {:induction false} RunGapFree(events: seq<Event>)
    ensures GapFree(Run(events), RunHealth(events)) && Retains(Run(events).log, RunCleared(events))
  {
    if events == [] {
      assert Holds([], [], 0);
    } else {
      var init, last := events[..|events| - 1], events[|events| - 1];
      RunGapFree(init);
      hide GapFree, Retains, Untouched, Step, StepHealth;
      StepGapFree(Run(init), RunCleared(init), RunHealth(init), last);
      StepRetains(Run(init), RunCleared(init), last);
    }
  }

  // Over any run of output, starts, connections, losses and page clears: when what the
  // page shows comes from a connection that found its last 400 lines uncleared, it is a
  // gap-free stretch of the history, of at most 2000 lines with consecutive ids, and
  // the history's very end once all has arrived. What earlier connections met does not
  // matter.
  lemma ClientHoldsSuffix(events: seq<Event>)
    ensures var sys := Run(events);
            RunHealth(events).clean ==>
              && (exists upTo :: Holds(sys.client, sys.log.emitted, upTo))
              && (sys.connected && sys.sent == [] ==> Holds(sys.client, sys.log.emitted, |sys.log.emitted|))
              && (forall i :: 0 < i < |sys.client| ==> sys.client[i].id == sys.client[i - 1].id + 1)
  {
    RunGapFree(events);
    hide Run, RunHealth, RunCleared;
    if RunHealth(events).clean {
      StretchOfRun(Run(events), RunHealth(events), RunCleared(events));
    }
  }

  lemma StretchOfRun(sys: System, h: Health, c: Cleared)
    requires GapFree(sys, h) && h.clean && Retains(sys.log, c)
    ensures exists upTo :: Holds(sys.client, sys.log.emitted, upTo)
    ensures sys.connected && sys.sent == [] ==> Holds(sys.client, sys.log.emitted, |sys.log.emitted|)
    ensures forall i :: 0 < i < |sys.client| ==> sys.client[i].id == sys.client[i - 1].id + 1
  {
    StateIsNumbered(sys.log, c);
    hide Retains, Newest, Last, Numbered;
    var upTo: nat :| Holds(sys.client, sys.log.emitted, upTo);
    StretchIsConsecutive(sys.client, sys.log.emitted, upTo);
    if sys.connected && sys.sent == [] {
      NoneComing(sys, h);
    }
  }

  lemma NoneComing(sys: System, h: Health)
    requires GapFree(sys, h) && h.clean && sys.connected && sys.sent == []
    ensures Holds(sys.client, sys.log.emitted, |sys.log.emitted|)
  {
    hide Holds, Newest;
  }

  lemma StretchIsConsecutive(client: seq<Line>, lines: seq<Line>, upTo: nat)
    requires Numbered(lines) && Holds(client, lines, upTo)
    ensures forall i :: 0 < i < |client| ==> client[i].id == client[i - 1].id + 1
  {
    forall i | 0 <= i < |client|
      ensures client[i].id == upTo - |client| + i + 1
    {
      assert client[i] == lines[upTo - |client| + i];
    }
  }

  // No process is started over: a start that clears a log finds nothing of its process.
  ghost predicate NoRestarts(events: seq<Event>) {
    events != [] ==>
      var init, last := events[..|events| - 1], events[|events| - 1];
      && NoRestarts(init)
      && (last.Begin? && Clears(last.launch) ==> forall l :: l in Run(init).log.emitted ==> l.proc != last.proc)
  }

  ghost predicate NothingCleared(s: LogState, c: Cleared) {
    forall i :: 0 <= i < |s.emitted| ==> ClearedAt(c, s.emitted[i].proc) <= i
  }

  lemma {:induction false} NoRestartsNoGaps(events: seq<Event>)
    requires NoRestarts(events)
    ensures RunHealth(events) == Health(true, true) && Retains(Run(events).log, RunCleared(events))
    ensures NothingCleared(Run(events).log, RunCleared(events))
  {
    if events == [] {
    } else {
      var init, last := events[..|events| - 1], events[|events| - 1];
      NoRestartsNoGaps(init);
      StepRetains(Run(init), RunCleared(init), last);
      hide Step, Retains, NothingCleared, AllLogs, AfterStart;
      StepClearsNothing(Run(init), RunCleared(init), last);
      UntouchedSoFar(Run(init).log, RunCleared(init));
    }
  }

  lemma UntouchedSoFar(s: LogState, c: Cleared)
    requires NothingCleared(s, c)
    ensures Untouched(s, c, BACKLOG)
  {
  }

  lemma StepClearsNothing(sys: System, c: Cleared, e: Event)
    requires NothingCleared(sys.log, c) && Retains(sys.log, c)
    requires e.Begin? && Clears(e.launch) ==> forall l :: l in sys.log.emitted ==> l.proc != e.proc
    ensures NothingCleared(Step(sys, e).log, StepCleared(sys, c, e))
  {
    var lines, later := sys.log.emitted, Step(sys, e).log.emitted;
    StepRetains(sys, c, e);
    ClearedBounded(sys.log, c);
    hide Step, Retains;
    forall i | 0 <= i < |later|
      ensures ClearedAt(StepCleared(sys, c, e), later[i].proc) <= i
    {
      if i < |lines| {
        assert later[i] == lines[i] && lines[i] in lines;
      }
    }
  }

  lemma ClearedBounded(s: LogState, c: Cleared)
    requires Retains(s, c)
    ensures c.server <= |s.emitted| && c.daemon <= |s.emitted|
  {
  }

  // ----- what the history says -----

  datatype Written = Written(proc: Proc, stream: string, text: string)

  function Texts(p: Proc, stream: string, texts: seq<string>): (r: seq<Written>)
    ensures |r| == |texts|
  {
    seq(|texts|, i requires 0 <= i < |texts| => Written(p, stream, texts[i]))
  }

  // What an event has logged: the lines of the output, or those that start() writes.
  function WrittenBy(e: Event): seq<Written> {
    match e
    case Output(p, stream, text) => Texts(p, stream, Lines(text))
    case Begin(p, bin, command, launch) =>
      Texts(p, "system",
            match launch
            case AlreadyRunning => []
            case NotFound => Lines("error: binary not found: " + bin + " — build it with scripts/build.sh")
            case SpawnFails(reason) => Lines("$ " + command) + Lines("spawn failed: " + reason)
            case Launched => Lines("$ " + command))
    case _ => []
  }

  function AllWritten(events: seq<Event>): seq<Written> {
    if events == [] then [] else AllWritten(events[..|events| - 1]) + WrittenBy(events[|events| - 1])
  }

  // One state's history goes on with these lines under the next numbers.
  ghost predicate Writes(before: LogState, after: LogState, ws: seq<Written>) {
    && after.logSeq == before.logSeq + |ws|
    && |after.emitted| == |before.emitted| + |ws| && before.emitted <= after.emitted
    && forall i :: 0 <= i < |ws| ==>
         after.emitted[|before.emitted| + i] == Line(before.logSeq + 1 + i, ws[i].proc, ws[i].stream, ws[i].text)
  }

  lemma PushWrites(s: LogState, p: Proc, stream: string, text: string)
    ensures Writes(s, PushLog(s, p, stream, text), Texts(p, stream, Lines(text)))
  {
    hide PushLog, Lines;
    PushLogWrites(s, p, stream, text);
  }

  lemma WritesJoin(a: LogState, b: LogState, c: LogState, ws: seq<Written>, more: seq<Written>)
    requires Writes(a, b, ws) && Writes(b, c, more)
    ensures Writes(a, c, ws + more)
  {
    forall i | 0 <= i < |ws + more|
      ensures var w := (ws + more)[i];
              c.emitted[|a.emitted| + i] == Line(a.logSeq + 1 + i, w.proc, w.stream, w.text)
    {
      if i < |ws| {
        assert c.emitted[|a.emitted| + i] == b.emitted[|a.emitted| + i];
      } else {
        assert c.emitted[|b.emitted| + (i - |ws|)] == c.emitted[|a.emitted| + i];
      }
    }
  }

  lemma ClearingWrites(s: LogState, p: Proc, after: LogState, ws: seq<Written>)
    requires Writes(WithLogs(s, p, []), after, ws)
    ensures Writes(s, after, ws)
  {
  }

  lemma TextsJoin(p: Proc, stream: string, a: seq<string>, b: seq<string>)
    ensures Texts(p, stream, a + b) == Texts(p, stream, a) + Texts(p, stream, b)
  {
  }

  lemma StartWrites(s: LogState, p: Proc, bin: string, command: string, launch: Launch)
    ensures Writes(s, Start(s, p, bin, command, launch), WrittenBy(Begin(p, bin, command, launch)))
  {
    hide PushLog, Lines, Writes;
    var emptied := WithLogs(s, p, []);
    var first := PushLog(emptied, p, "system", "$ " + command);
    PushWrites(emptied, p, "system", "$ " + command);
    match launch
    case AlreadyRunning => NothingWritten(s);
    case NotFound =>
      PushWrites(s, p, "system", "error: binary not found: " + bin + " — build it with scripts/build.sh");
    case SpawnFails(reason) =>
      PushWrites(first, p, "system", "spawn failed: " + reason);
      var heads, tails := Lines("$ " + command), Lines("spawn failed: " + reason);
      WritesJoin(emptied, first, Start(s, p, bin, command, launch),
                 Texts(p, "system", heads), Texts(p, "system", tails));
      TextsJoin(p, "system", heads, tails);
      ClearingWrites(s, p, Start(s, p, bin, command, launch), Texts(p, "system", heads + tails));
    case Launched => ClearingWrites(s, p, first, Texts(p, "system", Lines("$ " + command)));
  }

  lemma NothingWritten(s: LogState)
    ensures Writes(s, s, Texts(Server, "system", [])) && Writes(s, s, Texts(Daemon, "system", [])) && Writes(s, s, [])
  {
  }

  lemma StepWrites(sys: System, e: Event)
    ensures Writes(sys.log, Step(sys, e).log, WrittenBy(e))
  {
    hide PushLog, Start, Lines, Writes, AllLogs, Texts;
    NothingWritten(sys.log);
    match e
    case Output(p, stream, text) => PushWrites(sys.log, p, stream, text);
    case Begin(p, bin, command, launch) => StartWrites(sys.log, p, bin, command, launch);
    case _ =>
  }

  lemma {:induction false} RunWrites(events: seq<Event>)
    ensures Writes(NO_LOGS, Run(events).log, AllWritten(events))
  {
    hide Writes, Step, WrittenBy;
    if events == [] {
      NothingWritten(NO_LOGS);
    } else {
      var init, last := events[..|events| - 1], events[|events| - 1];
      RunWrites(init);
      StepWrites(Run(init), last);
      WritesJoin(NO_LOGS, Run(init).log, Run(events).log, AllWritten(init), WrittenBy(last));
    }
  }

  // Over any run: the history is what the processes and start() wrote, in order, each
  // non-empty line with its process, its stream and its text.
  lemma HistoryIsWhatWasWritten(events: seq<Event>)
    ensures var lines, ws := Run(events).log.emitted, AllWritten(events);
            && |lines| == |ws|
            && forall i :: 0 <= i < |lines| ==> lines[i] == Line(i + 1, ws[i].proc, ws[i].stream, ws[i].text)
  {
    RunWrites(events);
    var lines, ws := Run(events).log.emitted, AllWritten(events);
    hide Run, AllWritten;
    forall i | 0 <= i < |lines|
      ensures lines[i] == Line(i + 1, ws[i].proc, ws[i].stream, ws[i].text)
    {
      assert lines[|NO_LOGS.emitted| + i] == lines[i];
    }
  }

  // ----- how much the page shows -----

  // How many lines the page was given by its last backlog and since, or since it was
  // cleared.
  function StepGiven(sys: System, given: nat, e: Event): nat {
    match e
    case Deliver =>
      if sys.sent == [] then given
      else (match sys.sent[0] case Backlog(lines) => |lines| case Live(_) => given + 1)
    case ClearPage => 0
    case _ => given
  }

  function Given(events: seq<Event>): nat {
    if events == [] then 0
    else
      var init := events[..|events| - 1];
      StepGiven(Run(init), Given(init), events[|events| - 1])
  }

  lemma ReceiveBounded(client: seq<Line>, m: Message)
    ensures var n := if m.Backlog? then |m.lines| else |client| + 1;
            |Receive(client, m)| == if n <= MAX_LOGS then n else MAX_LOGS
  {
  }

  // The page shows all of them up to 2000.
  lemma {:induction false} PageShowsAllGiven(events: seq<Event>)
    ensures |Run(events).client| == if Given(events) <= MAX_LOGS then Given(events) else MAX_LOGS
  {
    if events == [] {
    } else {
      var init, last := events[..|events| - 1], events[|events| - 1];
      PageShowsAllGiven(init);
      hide PushLog, Start, AllLogs, Last, Receive;
      if last.Deliver? && Run(init).sent != [] {
        ReceiveBounded(Run(init).client, Run(init).sent[0]);
      }
    }
  }
}
