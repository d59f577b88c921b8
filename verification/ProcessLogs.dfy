// The dashboard's process manager, as far as its logs go: two bounded logs, one
// counter, one stream of log events.
module ProcessLogs {
  import opened Lists

  datatype Proc = Server | Daemon

  // A log line; its timestamp is not modelled.
  datatype Line = Line(id: nat, proc: Proc, stream: string, text: string)

  const MAX_LOG_LINES := 4000

  // emitted: every line handed to the event emitter so far.
  datatype LogState = LogState(logSeq: nat, server: seq<Line>, daemon: seq<Line>, emitted: seq<Line>)

  const NO_LOGS := LogState(0, [], [], [])

  function LogsOf(s: LogState, p: Proc): seq<Line> {
    if p.Server? then s.server else s.daemon
  }

  function WithLogs(s: LogState, p: Proc, lines: seq<Line>): LogState {
    if p.Server? then s.(server := lines) else s.(daemon := lines)
  }

  // ----- text into lines -----

  // The length of the separator \r?\n at the start of a text; 0 when there is none.
  function Break(text: string): (n: nat)
    ensures n <= |text|
  {
    if |text| >= 2 && text[0] == '\r' && text[1] == '\n' then 2
    else if text != "" && text[0] == '\n' then 1
    else 0
  }

  // What split(/\r?\n/) makes of a text that follows `current` on its line.
  function Scan(text: string, current: string): (pieces: seq<string>)
    ensures pieces != []
    decreases |text|
  {
    if text == "" then [current]
    else if Break(text) > 0 then [current] + Scan(text[Break(text)..], "")
    else Scan(text[1..], current + [text[0]])
  }

  function Split(text: string): seq<string> {
    Scan(text, "")
  }

  function NonEmpty(pieces: seq<string>): (r: seq<string>)
    ensures "" !in r
  {
    if pieces == [] then []
    else
      var n := |pieces| - 1;
      NonEmpty(pieces[..n]) + (if pieces[n] == "" then [] else [pieces[n]])
  }

  lemma NonEmptyGrows(pieces: seq<string>, i: nat)
    requires i < |pieces|
    ensures var lines := NonEmpty(pieces[..i + 1]);
            if pieces[i] == "" then lines == NonEmpty(pieces[..i])
            else lines != [] && lines[..|lines| - 1] == NonEmpty(pieces[..i]) && lines[|lines| - 1] == pieces[i]
  {
    assert pieces[..i + 1][..i] == pieces[..i];
  }

  // The lines that a text is logged as.
  function Lines(text: string): seq<string> {
    NonEmpty(Split(text))
  }

  // ----- the manager as a value -----

  function AddLine(s: LogState, p: Proc, stream: string, raw: string): LogState {
    var line := Line(s.logSeq + 1, p, stream, raw);
    var grown := LogsOf(s, p) + [line];
    WithLogs(s.(logSeq := s.logSeq + 1, emitted := s.emitted + [line]), p,
             if |grown| > MAX_LOG_LINES then grown[1..] else grown)
  }

  function AddLines(s: LogState, p: Proc, stream: string, lines: seq<string>): LogState {
    if lines == [] then s
    else AddLine(AddLines(s, p, stream, lines[..|lines| - 1]), p, stream, lines[|lines| - 1])
  }

  function PushLog(s: LogState, p: Proc, stream: string, text: string): LogState {
    AddLines(s, p, stream, Lines(text))
  }

  datatype Launch = AlreadyRunning | NotFound | SpawnFails(reason: string) | Launched

  // The lines that start() writes; a start that gets past its checks clears the log first.
  function Start(s: LogState, p: Proc, bin: string, command: string, launch: Launch): LogState {
    match launch
    case AlreadyRunning => s
    case NotFound =>
      PushLog(s, p, "system", "error: binary not found: " + bin + " — build it with scripts/build.sh")
    case SpawnFails(reason) =>
      PushLog(PushLog(WithLogs(s, p, []), p, "system", "$ " + command), p, "system", "spawn failed: " + reason)
    case Launched => PushLog(WithLogs(s, p, []), p, "system", "$ " + command)
  }

  predicate Clears(launch: Launch) {
    launch.SpawnFails? || launch.Launched?
  }

  // ----- queries -----

  function Since(lines: seq<Line>, sinceId: nat): (r: seq<Line>)
    ensures forall l :: l in r <==> l in lines && l.id > sinceId
  {
    if lines == [] then []
    else (if lines[0].id > sinceId then [lines[0]] else []) + Since(lines[1..], sinceId)
  }

  predicate Earlier(a: Line, b: Line) {
    a.id < b.id
  }

  // sort((a, b) => a.id - b.id)
  function SortById(lines: seq<Line>): (r: seq<Line>)
    ensures forall l :: l in r <==> l in lines
  {
    SortKeeps(lines, Earlier);
    Sort(lines, Earlier)
  }

  function AllLogs(s: LogState, sinceId: nat): seq<Line> {
    SortById(Since(s.server + s.daemon, sinceId))
  }

  // ----- the manager as it runs -----

  class ProcessManager {
    var logSeq: nat
    var server: seq<Line>
    var daemon: seq<Line>
    var emitted: seq<Line>

    ghost function State(): LogState
      reads this
    {
      LogState(logSeq, server, daemon, emitted)
    }

    constructor ()
      ensures State() == NO_LOGS
    {
      logSeq, server, daemon, emitted := 0, [], [], [];
    }

    method PushText(p: Proc, stream: string, text: string)
      modifies this
      ensures State() == PushLog(old(State()), p, stream, text)
    {
      hide Split, AddLine;
      var pieces := Split(text);
      for i := 0 to |pieces|
        invariant State() == AddLines(old(State()), p, stream, NonEmpty(pieces[..i]))
      {
        NonEmptyGrows(pieces, i);
        if pieces[i] == "" {
          continue;
        }
        PushLine(p, stream, pieces[i]);
      }
      assert pieces[..|pieces|] == pieces;
    }

    method PushLine(p: Proc, stream: string, raw: string)
      modifies this
      ensures State() == AddLine(old(State()), p, stream, raw)
    {
      var line := Line(logSeq + 1, p, stream, raw);
      logSeq := logSeq + 1;
      match p {
        case Server =>
          server := server + [line];
          if |server| > MAX_LOG_LINES {
            server := server[1..];
          }
        case Daemon =>
          daemon := daemon + [line];
          if |daemon| > MAX_LOG_LINES {
            daemon := daemon[1..];
          }
      }
      emitted := emitted + [line];
    }

    // Whether start() goes through; the operating system's answers come with `launch`.
    method StartProcess(p: Proc, bin: string, command: string, launch: Launch) returns (ok: bool)
      modifies this
      ensures State() == Start(old(State()), p, bin, command, launch)
      ensures ok <==> launch.Launched?
    {
      if launch.AlreadyRunning? {
        return false;
      }
      if launch.NotFound? {
        PushText(p, "system", "error: binary not found: " + bin + " — build it with scripts/build.sh");
        return false;
      }
      match p {
        case Server => server := [];
        case Daemon => daemon := [];
      }
      PushText(p, "system", "$ " + command);
      if launch.SpawnFails? {
        PushText(p, "system", "spawn failed: " + launch.reason);
        return false;
      }
      return true;
    }
  }

  // ----- what the logs retain -----

  // slice(-n)
  function Last<T>(s: seq<T>, n: nat): (r: seq<T>) {
    if |s| <= n then s else s[|s| - n..]
  }

  function Of(lines: seq<Line>, p: Proc): (r: seq<Line>)
    ensures |r| <= |lines|
  {
    if lines == [] then []
    else
      var n := |lines| - 1;
      Of(lines[..n], p) + (if lines[n].proc == p then [lines[n]] else [])
  }

  // How many lines had been emitted when each log was last cleared.
  datatype Cleared = Cleared(server: nat, daemon: nat)

  function ClearedAt(c: Cleared, p: Proc): nat {
    if p.Server? then c.server else c.daemon
  }

  ghost predicate Numbered(lines: seq<Line>) {
    forall i :: 0 <= i < |lines| ==> lines[i].id == i + 1
  }

  // Every log is the newest lines of its process since it was cleared.
  ghost predicate Retains(s: LogState, c: Cleared) {
    && s.logSeq == |s.emitted| && Numbered(s.emitted)
    && c.server <= |s.emitted| && c.daemon <= |s.emitted|
    && s.server == Last(Of(s.emitted[c.server..], Server), MAX_LOG_LINES)
    && s.daemon == Last(Of(s.emitted[c.daemon..], Daemon), MAX_LOG_LINES)
  }

  lemma LastGrows(lines: seq<Line>, line: Line, n: nat)
    requires n > 0
    ensures var grown := Last(lines, n) + [line]; Last(lines + [line], n) == if |grown| > n then grown[1..] else grown
  {
  }

  lemma OfGrows(lines: seq<Line>, line: Line, from: nat, p: Proc)
    requires from <= |lines|
    ensures Of((lines + [line])[from..], p) == Of(lines[from..], p) + (if line.proc == p then [line] else [])
  {
    var grown := (lines + [line])[from..];
    assert grown[..|grown| - 1] == lines[from..] && grown[|grown| - 1] == line;
  }

  lemma AddLineRetains(s: LogState, c: Cleared, p: Proc, stream: string, raw: string)
    requires Retains(s, c)
    ensures Retains(AddLine(s, p, stream, raw), c)
    ensures s.emitted <= AddLine(s, p, stream, raw).emitted
  {
    hide Of, Last;
    var line := Line(s.logSeq + 1, p, stream, raw);
    OfGrows(s.emitted, line, c.server, Server);
    OfGrows(s.emitted, line, c.daemon, Daemon);
    LastGrows(Of(s.emitted[c.server..], Server), line, MAX_LOG_LINES);
    LastGrows(Of(s.emitted[c.daemon..], Daemon), line, MAX_LOG_LINES);
    assert Of(s.emitted[c.server..], Server) + [] == Of(s.emitted[c.server..], Server);
    assert Of(s.emitted[c.daemon..], Daemon) + [] == Of(s.emitted[c.daemon..], Daemon);
  }

  lemma {:induction false} AddLinesRetains(s: LogState, c: Cleared, p: Proc, stream: string, lines: seq<string>)
    requires Retains(s, c)
    ensures Retains(AddLines(s, p, stream, lines), c)
    ensures s.emitted <= AddLines(s, p, stream, lines).emitted
  {
    hide Retains, AddLine;
    if lines == [] {
    } else {
      var n := |lines| - 1;
      AddLinesRetains(s, c, p, stream, lines[..n]);
      AddLineRetains(AddLines(s, p, stream, lines[..n]), c, p, stream, lines[n]);
    }
  }

  // ----- what is written -----

  // One line per text, in order, under consecutive numbers.
  function Numbering(first: nat, p: Proc, stream: string, texts: seq<string>): (r: seq<Line>)
    ensures |r| == |texts|
  {
    seq(|texts|, i requires 0 <= i < |texts| => Line(first + i, p, stream, texts[i]))
  }

  lemma AddLineWrites(s: LogState, p: Proc, stream: string, raw: string)
    ensures AddLine(s, p, stream, raw).emitted == s.emitted + [Line(s.logSeq + 1, p, stream, raw)]
    ensures AddLine(s, p, stream, raw).logSeq == s.logSeq + 1
  {
  }

  lemma NumberingGrows(first: nat, p: Proc, stream: string, lines: seq<string>)
    requires lines != []
    ensures Numbering(first, p, stream, lines)
         == Numbering(first, p, stream, lines[..|lines| - 1])
            + [Line(first + |lines| - 1, p, stream, lines[|lines| - 1])]
  {
  }

  lemma {:induction false} AddLinesWrites(s: LogState, p: Proc, stream: string, lines: seq<string>)
    ensures AddLines(s, p, stream, lines).emitted == s.emitted + Numbering(s.logSeq + 1, p, stream, lines)
    ensures AddLines(s, p, stream, lines).logSeq == s.logSeq + |lines|
  {
    if lines == [] {
    } else {
      hide AddLine, Numbering;
      var n := |lines| - 1;
      AddLinesWrites(s, p, stream, lines[..n]);
      AddLineWrites(AddLines(s, p, stream, lines[..n]), p, stream, lines[n]);
      NumberingGrows(s.logSeq + 1, p, stream, lines);
    }
  }

  // Output is logged after what was logged before: a line of that process and stream for
  // each non-empty line of the text, in order, with that text.
  lemma PushLogWrites(s: LogState, p: Proc, stream: string, text: string)
    ensures var written := PushLog(s, p, stream, text).emitted;
            && |written| == |s.emitted| + |Lines(text)|
            && s.emitted <= written
            && (forall i :: 0 <= i < |Lines(text)| ==>
                  written[|s.emitted| + i] == Line(s.logSeq + 1 + i, p, stream, Lines(text)[i]))
    ensures PushLog(s, p, stream, text).logSeq == s.logSeq + |Lines(text)|
  {
    hide AddLines;
    AddLinesWrites(s, p, stream, Lines(text));
  }

  function AfterStart(s: LogState, c: Cleared, p: Proc, launch: Launch): Cleared {
    if !Clears(launch) then c
    else if p.Server? then c.(server := |s.emitted|)
    else c.(daemon := |s.emitted|)
  }

  lemma ClearRetains(s: LogState, c: Cleared, p: Proc)
    requires Retains(s, c)
    ensures Retains(WithLogs(s, p, []), AfterStart(s, c, p, Launched))
  {
    assert Of(s.emitted[|s.emitted|..], p) == [];
  }

  // start() keeps the invariant, with the process's log now counted from here.
  lemma StartRetains(s: LogState, c: Cleared, p: Proc, bin: string, command: string, launch: Launch)
    requires Retains(s, c)
    ensures Retains(Start(s, p, bin, command, launch), AfterStart(s, c, p, launch))
    ensures s.emitted <= Start(s, p, bin, command, launch).emitted
  {
    hide Retains, AddLines, Split, NonEmpty;
    ClearRetains(s, c, p);
    var lines := (text: string) => NonEmpty(Split(text));
    match launch
    case AlreadyRunning =>
    case NotFound =>
      AddLinesRetains(s, c, p, "system",
                      lines("error: binary not found: " + bin + " — build it with scripts/build.sh"));
    case SpawnFails(reason) =>
      var c', emptied := AfterStart(s, c, p, launch), WithLogs(s, p, []);
      AddLinesRetains(emptied, c', p, "system", lines("$ " + command));
      AddLinesRetains(PushLog(emptied, p, "system", "$ " + command), c', p, "system", lines("spawn failed: " + reason));
    case Launched =>
      AddLinesRetains(WithLogs(s, p, []), AfterStart(s, c, p, launch), p, "system", lines("$ " + command));
  }

  // ----- chunks of output into lines -----

  lemma {:induction false} NonEmptyJoins(a: seq<string>, b: seq<string>)
    ensures NonEmpty(a + b) == NonEmpty(a) + NonEmpty(b)
  {
    if b == [] {
      assert a + b == a && NonEmpty(a) + [] == NonEmpty(a);
    } else {
      var n := |b| - 1;
      NonEmptyJoins(a, b[..n]);
      assert (a + b)[..|a + b| - 1] == a + b[..n];
    }
  }

  // Empty pieces are dropped, all others stay, in order.
  lemma NonEmptyKeeps(before: seq<string>, piece: string, after: seq<string>)
    ensures NonEmpty([]) == []
    ensures NonEmpty(before + [piece] + after)
         == NonEmpty(before) + (if piece == "" then [] else [piece]) + NonEmpty(after)
  {
    NonEmptyJoins(before + [piece], after);
    NonEmptyJoins(before, [piece]);
    SinglePiece(piece);
  }

  predicate Ends(text: string, c: char) {
    text != "" && text[|text| - 1] == c
  }

  // A line break cut in two by the chunk boundary.
  predicate CutsBreak(a: string, b: string) {
    Ends(a, '\r') && b != "" && b[0] == '\n'
  }

  function Init(pieces: seq<string>): seq<string>
    requires pieces != []
  {
    pieces[..|pieces| - 1]
  }

  function Open(pieces: seq<string>): string
    requires pieces != []
  {
    pieces[|pieces| - 1]
  }

  // How a scan goes on when more text follows.
  lemma ScanStarts(a: string, b: string, current: string)
    requires a != "" && !CutsBreak(a, b)
    ensures var n := Break(a);
            && Scan(a, current) == (if n > 0 then [current] + Scan(a[n..], "") else Scan(a[1..], current + [a[0]]))
            && Scan(a + b, current)
            == (if n > 0 then [current] + Scan(a[n..] + b, "") else Scan(a[1..] + b, current + [a[0]]))
            && (if n > 0 then !CutsBreak(a[n..], b) else !CutsBreak(a[1..], b))
  {
    assert Break(a + b) == Break(a);
    var n := if Break(a) > 0 then Break(a) else 1;
    assert (a + b)[n..] == a[n..] + b;
  }

  lemma Regroup<T>(a: seq<T>, b: seq<T>, c: seq<T>)
    ensures (a + b) + c == a + (b + c)
  {
  }

  lemma ScanNothing(current: string)
    ensures Scan("", current) == [current] && Init([current]) == [] && Open([current]) == current
  {
  }

  // The last piece of one text is where the next one starts.
  lemma {:induction false} ScanJoins(a: string, b: string, current: string)
    requires !CutsBreak(a, b)
    ensures Scan(a + b, current) == Init(Scan(a, current)) + Scan(b, Open(Scan(a, current)))
    decreases |a|
  {
    if a == "" {
      ScanNothing(current);
      assert a + b == b;
    } else {
      ScanStarts(a, b, current);
      hide Scan, Init, Open, CutsBreak;
      if Break(a) > 0 {
        var rest := Scan(a[Break(a)..], "");
        ScanJoins(a[Break(a)..], b, "");
        InitAfter(current, rest);
        Regroup([current], Init(rest), Scan(b, Open(rest)));
      } else {
        ScanJoins(a[1..], b, current + [a[0]]);
      }
    }
  }

  lemma InitAfter(piece: string, rest: seq<string>)
    requires rest != []
    ensures Init([piece] + rest) == [piece] + Init(rest) && Open([piece] + rest) == Open(rest)
  {
  }

  lemma {:induction false} ScanFrom(text: string, before: string, current: string)
    ensures Scan(text, before + current) == [before + Scan(text, current)[0]] + Scan(text, current)[1..]
    decreases |text|
  {
    if text == "" || Break(text) > 0 {
    } else {
      assert (before + current) + [text[0]] == before + (current + [text[0]]);
      ScanFrom(text[1..], before, current + [text[0]]);
    }
  }

  lemma {:induction false} OpenPiece(a: string, current: string)
    ensures Open(Scan(a, current)) == "" <==> Ends(a, '\n') || (a == "" && current == "")
    decreases |a|
  {
    if a == "" {
    } else {
      if Break(a) > 0 {
        var rest := Scan(a[Break(a)..], "");
        OpenPiece(a[Break(a)..], "");
        InitAfter(current, rest);
      } else {
        OpenPiece(a[1..], current + [a[0]]);
      }
    }
  }

  lemma FirstPiece(b: string)
    ensures Scan(b, "")[0] == "" <==> b == "" || Break(b) > 0
  {
    if b != "" && Break(b) == 0 {
      ScanFrom(b[1..], [b[0]], "");
      assert "" + [b[0]] == [b[0]] + "";
    }
  }

  lemma ScanNonEmpty(pieces: seq<string>)
    requires pieces != []
    ensures NonEmpty(pieces) == NonEmpty(Init(pieces)) + NonEmpty([Open(pieces)])
    ensures NonEmpty(pieces) == NonEmpty([pieces[0]]) + NonEmpty(pieces[1..])
  {
    assert pieces == Init(pieces) + [Open(pieces)] == [pieces[0]] + pieces[1..];
    NonEmptyJoins(Init(pieces), [Open(pieces)]);
    NonEmptyJoins([pieces[0]], pieces[1..]);
  }

  lemma SinglePiece(piece: string)
    ensures NonEmpty([piece]) == if piece == "" then [] else [piece]
  {
  }

  // ----- pieces and breaks -----

  // The pieces of a text with the line breaks between them.
  function Join(pieces: seq<string>, breaks: seq<string>): string
    requires |pieces| == |breaks| + 1
  {
    pieces[0] + (if breaks == [] then "" else breaks[0] + Join(pieces[1..], breaks[1..]))
  }

  // No piece has a newline in it, and a CR before a newline belongs to the break.
  ghost predicate Separated(pieces: seq<string>, breaks: seq<string>) {
    && |pieces| == |breaks| + 1
    && (forall i :: 0 <= i < |pieces| ==> '\n' !in pieces[i])
    && (forall i :: 0 <= i < |breaks| ==> breaks[i] == "\r\n" || (breaks[i] == "\n" && !Ends(pieces[i], '\r')))
  }

  lemma SeparatedRest(pieces: seq<string>, breaks: seq<string>)
    requires Separated(pieces, breaks)
    ensures breaks != [] ==> Separated(pieces[1..], breaks[1..])
    ensures pieces[0] != "" ==> Separated([pieces[0][1..]] + pieces[1..], breaks)
  {
    if pieces[0] != "" {
      var shorter := [pieces[0][1..]] + pieces[1..];
      assert Ends(shorter[0], '\r') ==> Ends(pieces[0], '\r');
    }
  }

  lemma FirstAndRest<T>(first: T, rest: seq<T>)
    ensures ([first] + rest)[0] == first && ([first] + rest)[1..] == rest
  {
  }

  lemma JoinFirst(pieces: seq<string>, breaks: seq<string>)
    requires |pieces| == |breaks| + 1
    ensures Join(pieces, breaks)
         == pieces[0] + (if breaks == [] then "" else breaks[0] + Join(pieces[1..], breaks[1..]))
  {
  }

  lemma JoinShifts(pieces: seq<string>, breaks: seq<string>, c: char)
    requires |pieces| == |breaks| + 1
    ensures Join([[c] + pieces[0]] + pieces[1..], breaks) == [c] + Join(pieces, breaks)
  {
    hide Join;
    var rest := if breaks == [] then "" else breaks[0] + Join(pieces[1..], breaks[1..]);
    FirstAndRest([c] + pieces[0], pieces[1..]);
    JoinFirst(pieces, breaks);
    JoinFirst([[c] + pieces[0]] + pieces[1..], breaks);
    Regroup([c], pieces[0], rest);
  }

  // A joined text starts with its first piece, so no break is found inside that.
  lemma NoBreakInside(pieces: seq<string>, breaks: seq<string>)
    requires Separated(pieces, breaks) && pieces[0] != ""
    ensures var text := Join(pieces, breaks);
            && text != "" && text[0] == pieces[0][0] && Break(text) == 0
            && text[1..] == Join([pieces[0][1..]] + pieces[1..], breaks)
  {
    var text := Join(pieces, breaks);
    var shorter := [pieces[0][1..]] + pieces[1..];
    assert pieces[0] == [pieces[0][0]] + shorter[0] && shorter[1..] == pieces[1..];
    assert pieces == [pieces[0]] + pieces[1..];
    JoinShifts(shorter, breaks, pieces[0][0]);
    assert text == [pieces[0][0]] + Join(shorter, breaks);
    if pieces[0] == "\r" && breaks != [] {
      assert text == "\r" + (breaks[0] + Join(pieces[1..], breaks[1..]));
      assert !Ends(pieces[0], '\r') || breaks[0] == "\r\n";
      assert text[1] == breaks[0][0];
    } else if |pieces[0]| > 1 {
      assert text[1] == pieces[0][1];
    }
  }

  lemma BreakFound(pieces: seq<string>, breaks: seq<string>)
    requires Separated(pieces, breaks) && pieces[0] == "" && breaks != []
    ensures var text := Join(pieces, breaks);
            text != "" && Break(text) == |breaks[0]| > 0 && text[|breaks[0]|..] == Join(pieces[1..], breaks[1..])
  {
    assert Join(pieces, breaks) == breaks[0] + Join(pieces[1..], breaks[1..]);
  }

  lemma {:induction false} ScanReadsBack(pieces: seq<string>, breaks: seq<string>, current: string)
    requires Separated(pieces, breaks)
    ensures |pieces| > 0 && Scan(Join(pieces, breaks), current) == [current + pieces[0]] + pieces[1..]
    decreases |breaks|, |pieces[0]|
  {
    SeparatedRest(pieces, breaks);
    if pieces[0] != "" {
      var shorter := [pieces[0][1..]] + pieces[1..];
      NoBreakInside(pieces, breaks);
      hide Separated, Join, Break;
      ScanReadsBack(shorter, breaks, current + [pieces[0][0]]);
      assert (current + [pieces[0][0]]) + shorter[0] == current + pieces[0];
    } else if breaks != [] {
      var rest := pieces[1..];
      BreakFound(pieces, breaks);
      hide Separated, Join, Break;
      ScanReadsBack(rest, breaks[1..], "");
      assert "" + rest[0] == rest[0] && rest == [rest[0]] + rest[1..] && current + "" == current;
    } else {
      assert current + "" == current && pieces[1..] == [];
    }
  }

  // Splitting undoes joining, whatever breaks the pieces were joined with.
  lemma SplitReadsBack(pieces: seq<string>, breaks: seq<string>)
    requires Separated(pieces, breaks)
    ensures Split(Join(pieces, breaks)) == pieces
  {
    ScanReadsBack(pieces, breaks, "");
    assert "" + pieces[0] == pieces[0] && pieces == [pieces[0]] + pieces[1..];
  }

  // The break at the start of a text, or its first character.
  lemma TextStarts(text: string, current: string)
    requires text != "" && '\n' !in current && !CutsBreak(current, text)
    ensures var n := Break(text);
            if n > 0 then
              && (text[..n] == "\r\n" || (text[..n] == "\n" && !Ends(current, '\r')))
              && current + text == current + text[..n] + text[n..]
            else
              && '\n' !in current + [text[0]] && !CutsBreak(current + [text[0]], text[1..])
              && current + text == (current + [text[0]]) + text[1..]
  {
  }

  lemma {:induction false} ScanTakesAll(text: string, current: string) returns (breaks: seq<string>)
    requires '\n' !in current && !CutsBreak(current, text)
    ensures Separated(Scan(text, current), breaks) && Join(Scan(text, current), breaks) == current + text
    decreases |text|
  {
    if text == "" {
      breaks := [];
      OnePiece(current);
      assert current + text == current;
    } else {
      TextStarts(text, current);
      var n := Break(text);
      hide Separated, Join, Break, CutsBreak, Ends;
      if n > 0 {
        NothingCut(text[n..]);
        var rest := ScanTakesAll(text[n..], "");
        breaks := [text[..n]] + rest;
        BreakFirst(current, text[..n], Scan(text[n..], ""), rest);
        assert "" + text[n..] == text[n..];
      } else {
        breaks := ScanTakesAll(text[1..], current + [text[0]]);
      }
    }
  }

  lemma NothingCut(text: string)
    ensures !CutsBreak("", text)
  {
  }

  lemma OnePiece(piece: string)
    requires '\n' !in piece
    ensures Separated([piece], []) && Join([piece], []) == piece
  {
  }

  lemma BreakFirst(piece: string, first: string, pieces: seq<string>, breaks: seq<string>)
    requires Separated(pieces, breaks) && '\n' !in piece
    requires first == "\r\n" || (first == "\n" && !Ends(piece, '\r'))
    ensures Separated([piece] + pieces, [first] + breaks)
    ensures Join([piece] + pieces, [first] + breaks) == piece + first + Join(pieces, breaks)
  {
    assert ([piece] + pieces)[1..] == pieces && ([first] + breaks)[1..] == breaks;
  }

  // And every text is its pieces joined again: nothing but line breaks is left out.
  lemma SplitTakesAll(text: string) returns (breaks: seq<string>)
    ensures Separated(Split(text), breaks) && Join(Split(text), breaks) == text
  {
    breaks := ScanTakesAll(text, "");
    assert "" + text == text;
  }

  // Both texts open the same line: it is logged whole when they come together, and
  // as two lines when each has some of it.
  lemma WholeBreaks(a: string, b: string)
    requires !CutsBreak(a, b)
    ensures Lines(a + b) == Lines(a) + Lines(b) <==> Open(Split(a)) == "" || Split(b)[0] == ""
  {
    hide Init, Open, Scan, NonEmpty;
    var pa, pb := Scan(a, ""), Scan(b, "");
    var pieces := Scan(b, Open(pa));
    ScanJoins(a, b, "");
    NonEmptyJoins(Init(pa), pieces);
    ScanNonEmpty(pa);
    ScanNonEmpty(pb);
    ScanFrom(b, Open(pa), "");
    assert Open(pa) + "" == Open(pa);
    ScanNonEmpty(pieces);
    assert pieces[0] == Open(pa) + pb[0] && pieces[1..] == pb[1..];
    SinglePiece(Open(pa));
    SinglePiece(pb[0]);
    SinglePiece(pieces[0]);
    CompareMiddles(NonEmpty(Init(pa)), NonEmpty([pieces[0]]), NonEmpty([Open(pa)]), NonEmpty([pb[0]]),
                   NonEmpty(pb[1..]));
  }

  lemma CutBreakDiffers(a: string, b: string)
    requires CutsBreak(a, b)
    ensures Lines(a + b) != Lines(a) + Lines(b)
  {
    hide Init, Open, NonEmpty;
    var head, tail := a[..|a| - 1], b[1..];
    var ph, rest := Scan(head, ""), Scan(tail, "");
    assert b == "\n" + tail && a == head + "\r" && a + b == head + ("\r\n" + tail) && ("\r\n" + tail)[2..] == tail;
    ScanJoins(head, "\r", "");
    ScanJoins(head, "\r\n" + tail, "");
    CutLine(Open(ph), tail);
    hide Scan;
    NonEmptyJoins(Init(ph), [Open(ph)] + rest);
    NonEmptyJoins([Open(ph)], rest);
    NonEmptyJoins(Init(ph), [Open(ph) + "\r"]);
    NonEmptyJoins([""], rest);
    SinglePiece(Open(ph));
    SinglePiece(Open(ph) + "\r");
    SinglePiece("");
    assert [Open(ph) + "\r"] + [] == [Open(ph) + "\r"] && [] + NonEmpty(rest) == NonEmpty(rest);
    CompareMiddles(NonEmpty(Init(ph)), NonEmpty([Open(ph)]), [Open(ph) + "\r"], [], NonEmpty(rest));
    var cut := Open(ph);
    assert [cut] != [cut + "\r"] by {
      assert |cut + "\r"| != |cut|;
    }
  }

  lemma CutLine(current: string, tail: string)
    ensures Scan("\r", current) == [current + "\r"]
    ensures Scan("\r\n" + tail, current) == [current] + Scan(tail, "")
    ensures Scan("\n" + tail, "") == [""] + Scan(tail, "")
  {
    assert ("\r\n" + tail)[2..] == tail && ("\n" + tail)[1..] == tail && "\r"[1..] == "";
  }

  lemma CompareMiddles<T>(before: seq<T>, whole: seq<T>, x: seq<T>, y: seq<T>, after: seq<T>)
    ensures before + (whole + after) == (before + x) + (y + after) <==> whole == x + y
  {
    var a, b := before + (whole + after), (before + x) + (y + after);
    assert b == before + ((x + y) + after);
    if whole != x + y {
      if |whole| == |x + y| {
        var i :| 0 <= i < |whole| && whole[i] != (x + y)[i];
        assert a[|before| + i] == whole[i] && b[|before| + i] == (x + y)[i];
      } else {
        assert |a| != |b|;
      }
    }
  }

  // Output that arrives in two chunks is logged as if it had come in one exactly when
  // the boundary falls on a line's end and does not cut a \r\n in two.
  lemma ChunksKeepLines(a: string, b: string)
    ensures Lines(a + b) == Lines(a) + Lines(b)
       <==> a == "" || b == "" || Ends(a, '\n') || (Break(b) > 0 && !CutsBreak(a, b))
  {
    hide Lines;
    if CutsBreak(a, b) {
      CutBreakDiffers(a, b);
    } else {
      WholeBreaks(a, b);
      OpenPiece(a, "");
      FirstPiece(b);
    }
  }
}
