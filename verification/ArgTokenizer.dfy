// The splitting of a line of extra arguments: shell-like, honouring quotes.
module ArgTokenizer {

  // Section 22.2.2 of ECMA-262: what \s matches and trim() removes.
  predicate IsSpace(c: char) {
    var n := c as int;
    || 0x09 <= n <= 0x0D || n == 0x20 || n == 0xA0 || n == 0x1680 || 0x2000 <= n <= 0x200A
    || n == 0x2028 || n == 0x2029 || n == 0x202F || n == 0x205F || n == 0x3000 || n == 0xFEFF
  }

  predicate IsQuote(c: char) {
    c == '"' || c == '\''
  }

  // Where a character first occurs; the length of the text when it does not.
  function IndexOf(s: string, c: char): (k: nat)
    ensures k <= |s|
    ensures forall i :: 0 <= i < k ==> s[i] != c
    ensures k < |s| ==> s[k] == c
    ensures k < |s| <==> c in s
  {
    if s == "" || s[0] == c then 0 else 1 + IndexOf(s[1..], c)
  }

  // The length of the run of non-space characters at the start.
  function RunLength(s: string): (k: nat)
    ensures k <= |s|
    ensures forall i :: 0 <= i < k ==> !IsSpace(s[i])
    ensures k < |s| ==> IsSpace(s[k])
  {
    if s == "" || IsSpace(s[0]) then 0 else 1 + RunLength(s[1..])
  }

  predicate Quoted(s: string) {
    s != "" && IsQuote(s[0]) && s[0] in s[1..]
  }

  // How much of a text the expression "([^"]*)"|'([^']*)'|(\S+) matches at its start,
  // alternatives in order; 0 for no match.
  function MatchLength(s: string): (n: nat)
    ensures n <= |s|
    ensures s != "" ==> (n == 0 <==> IsSpace(s[0]))
  {
    if Quoted(s) then IndexOf(s[1..], s[0]) + 2 else RunLength(s)
  }

  // The text of the group that took part in the match.
  function Value(s: string): string
    requires MatchLength(s) > 0
  {
    if Quoted(s) then s[1..MatchLength(s) - 1] else s[..MatchLength(s)]
  }

  // The text as the global search walks over it: characters skipped, spans matched.
  datatype Piece = Skip(c: char) | Arg(span: string, value: string)

  function Scan(s: string): seq<Piece>
    decreases |s|
  {
    if s == "" then []
    else if MatchLength(s) == 0 then [Skip(s[0])] + Scan(s[1..])
    else [Arg(s[..MatchLength(s)], Value(s))] + Scan(s[MatchLength(s)..])
  }

  function Args(pieces: seq<Piece>): seq<string> {
    if pieces == [] then []
    else (if pieces[0].Arg? then [pieces[0].value] else []) + Args(pieces[1..])
  }

  function TrimStart(s: string): (t: string)
    ensures t == "" || !IsSpace(t[0])
  {
    if s != "" && IsSpace(s[0]) then TrimStart(s[1..]) else s
  }

  function TrimEnd(s: string): (t: string)
    ensures t <= s
    ensures t == "" || !IsSpace(t[|t| - 1])
  {
    if s != "" && IsSpace(s[|s| - 1]) then TrimEnd(s[..|s| - 1]) else s
  }

  function Trim(s: string): string {
    TrimEnd(TrimStart(s))
  }

  function Tokens(extra: string): seq<string> {
    Args(Scan(Trim(extra)))
  }

  lemma ArgsStep(s: string)
    requires s != ""
    ensures MatchLength(s) == 0 ==> Args(Scan(s)) == Args(Scan(s[1..]))
    ensures MatchLength(s) > 0 ==> Args(Scan(s)) == [Value(s)] + Args(Scan(s[MatchLength(s)..]))
  {
    hide MatchLength, Value, IsSpace;
    var n := MatchLength(s);
    if n == 0 {
      assert ([Skip(s[0])] + Scan(s[1..]))[1..] == Scan(s[1..]);
    } else {
      var arg := Arg(s[..n], Value(s));
      assert ([arg] + Scan(s[n..]))[1..] == Scan(s[n..]);
    }
  }

  lemma NoArgs()
    ensures Args(Scan("")) == []
  {
  }

  method TokenizeExtra(extra: string) returns (out: seq<string>)
    ensures out == Tokens(extra)
  {
    hide MatchLength, Value, IsSpace, Scan, Args;
    var s := Trim(extra);
    out := [];
    NoArgs();
    assert s[0..] == s && out + Args(Scan(s)) == Args(Scan(s));
    if s == "" {
      return;
    }
    var lastIndex := 0;
    while lastIndex < |s|
      invariant lastIndex <= |s|
      invariant out + Args(Scan(s[lastIndex..])) == Args(Scan(s))
    {
      var rest := s[lastIndex..];
      var n := MatchLength(rest);
      ArgsStep(rest);
      if n == 0 {
        assert rest[1..] == s[lastIndex + 1..];
        lastIndex := lastIndex + 1;
      } else {
        assert rest[n..] == s[lastIndex + n..];
        assert (out + [Value(rest)]) + Args(Scan(rest[n..])) == out + ([Value(rest)] + Args(Scan(rest[n..])));
        out := out + [Value(rest)];
        lastIndex := lastIndex + n;
      }
    }
    assert s[lastIndex..] == "" && out + [] == out;
  }

  // ----- nothing is lost -----

  function Source(pieces: seq<Piece>): string {
    if pieces == [] then ""
    else (if pieces[0].Arg? then pieces[0].span else [pieces[0].c]) + Source(pieces[1..])
  }

  // A span is its value in quotes that the value lacks, or the value itself.
  predicate SpanOf(span: string, value: string) {
    || (exists q :: IsQuote(q) && q !in value && span == [q] + value + [q])
    || (span == value && value != "" && forall i :: 0 <= i < |value| ==> !IsSpace(value[i]))
  }

  predicate Sound(p: Piece) {
    if p.Skip? then IsSpace(p.c) else SpanOf(p.span, p.value)
  }

  lemma ScanStep(s: string) returns (piece: Piece, rest: string)
    requires s != ""
    ensures Scan(s) == [piece] + Scan(rest) && |rest| < |s|
    ensures Sound(piece) && s == (if piece.Arg? then piece.span else [piece.c]) + rest
  {
    var n := MatchLength(s);
    if n == 0 {
      piece, rest := Skip(s[0]), s[1..];
    } else {
      MatchIsSpan(s);
      hide MatchLength, Value, IsSpace, SpanOf;
      piece, rest := Arg(s[..n], Value(s)), s[n..];
    }
  }

  // The pieces rebuild the text; only white space is skipped.
  lemma {:induction false} ScanRebuilds(s: string)
    ensures Source(Scan(s)) == s
    ensures forall i :: 0 <= i < |Scan(s)| ==> Sound(Scan(s)[i])
    decreases |s|
  {
    if s == "" {
    } else {
      hide Scan, Sound;
      var piece, rest := ScanStep(s);
      ScanRebuilds(rest);
      SourceStep(piece, Scan(rest));
    }
  }

  lemma SourceStep(piece: Piece, rest: seq<Piece>)
    ensures Source([piece] + rest) == (if piece.Arg? then piece.span else [piece.c]) + Source(rest)
  {
    assert ([piece] + rest)[1..] == rest;
  }

  lemma MatchIsSpan(s: string)
    requires MatchLength(s) > 0
    ensures SpanOf(s[..MatchLength(s)], Value(s))
  {
    var n, value := MatchLength(s), Value(s);
    if Quoted(s) {
      var q := s[0];
      assert s[..n] == [q] + value + [q];
      assert q !in value by {
        assert forall i :: 0 <= i < |value| ==> value[i] == s[1..][i];
      }
    }
  }

  // ----- trimming changes nothing -----

  lemma {:induction false} LeadingSpace(s: string)
    ensures Args(Scan(TrimStart(s))) == Args(Scan(s))
  {
    if s == "" || !IsSpace(s[0]) {
    } else {
      LeadingSpace(s[1..]);
    }
  }

  lemma {:induction false} RunBeforeSpace(s: string, w: char)
    requires IsSpace(w)
    ensures RunLength(s + [w]) == RunLength(s)
  {
    if s == "" || IsSpace(s[0]) {
    } else {
      RunBeforeSpace(s[1..], w);
      assert (s + [w])[1..] == s[1..] + [w];
    }
  }

  lemma {:induction false} IndexInFront(s: string, t: string, c: char)
    ensures IndexOf(s + t, c) == if c in s then IndexOf(s, c) else |s| + IndexOf(t, c)
  {
    if s == "" {
      assert s + t == t;
    } else if s[0] != c {
      IndexInFront(s[1..], t, c);
      assert (s + t)[1..] == s[1..] + t;
    }
  }

  lemma MatchBeforeSpace(s: string, w: char)
    requires s != "" && IsSpace(w)
    ensures MatchLength(s + [w]) == MatchLength(s)
    ensures MatchLength(s) > 0 ==> Value(s + [w]) == Value(s)
  {
    var t := s + [w];
    assert t[1..] == s[1..] + [w];
    RunBeforeSpace(s, w);
    IndexInFront(s[1..], [w], s[0]);
    assert Quoted(t) <==> Quoted(s);
    assert t[..MatchLength(s)] == s[..MatchLength(s)];
  }

  lemma {:induction false} TrailingSpace(s: string, w: char)
    requires IsSpace(w)
    ensures Args(Scan(s + [w])) == Args(Scan(s))
    decreases |s|
  {
    if s == "" {
      assert s + [w] == [w] && [w][1..] == "";
      hide Scan, Args;
      ArgsStep([w]);
    } else {
      MatchBeforeSpace(s, w);
      var n := if MatchLength(s) == 0 then 1 else MatchLength(s);
      TrailingSpace(s[n..], w);
      hide MatchLength, Value, Scan, Args;
      ArgsStep(s);
      ArgsStep(s + [w]);
      assert (s + [w])[n..] == s[n..] + [w];
    }
  }

  lemma {:induction false} TrailingSpaces(s: string)
    ensures Args(Scan(TrimEnd(s))) == Args(Scan(s))
  {
    hide Scan, Args, IsSpace;
    if s == "" || !IsSpace(s[|s| - 1]) {
    } else {
      var init, w := s[..|s| - 1], s[|s| - 1];
      assert s == init + [w];
      TrailingSpaces(init);
      TrailingSpace(init, w);
    }
  }

  lemma TrimIsRedundant(extra: string)
    ensures Tokens(extra) == Args(Scan(extra))
  {
    LeadingSpace(extra);
    TrailingSpaces(TrimStart(extra));
  }

  // ----- writing a list so that it reads back -----

  // Double quotes where the argument has none, else single quotes, else as it is.
  function Render(arg: string): string {
    if '"' !in arg then ['"'] + arg + ['"']
    else if '\'' !in arg then ['\''] + arg + ['\'']
    else arg
  }

  predicate NoSpace(arg: string) {
    forall i :: 0 <= i < |arg| ==> !IsSpace(arg[i])
  }

  predicate Renderable(arg: string) {
    '"' !in arg || '\'' !in arg || (NoSpace(arg) && !IsQuote(arg[0]))
  }

  function Join(args: seq<string>): string {
    if args == [] then ""
    else if |args| == 1 then Render(args[0])
    else Render(args[0]) + ([' '] + Join(args[1..]))
  }

  lemma {:induction false} RunStops(arg: string, rest: string)
    requires NoSpace(arg) && (rest == "" || IsSpace(rest[0]))
    ensures RunLength(arg + rest) == |arg|
  {
    if arg == "" {
      assert arg + rest == rest;
    } else {
      RunStops(arg[1..], rest);
      assert (arg + rest)[1..] == arg[1..] + rest;
    }
  }

  lemma QuotesMatch(q: char, arg: string, rest: string)
    requires IsQuote(q) && q !in arg
    ensures var s := [q] + arg + [q] + rest; MatchLength(s) == |arg| + 2 && Value(s) == arg
  {
    var s := [q] + arg + [q] + rest;
    assert s[1..] == arg + ([q] + rest);
    IndexInFront(arg, [q] + rest, q);
    assert ([q] + rest)[0] == q && IndexOf([q] + rest, q) == 0;
    assert s[1..][|arg|] == q;
    assert Quoted(s) && s[1..|arg| + 1] == arg;
  }

  lemma RenderMatches(arg: string, rest: string)
    requires Renderable(arg) && (rest == "" || IsSpace(rest[0]))
    ensures MatchLength(Render(arg) + rest) == |Render(arg)| > 0 && Value(Render(arg) + rest) == arg
  {
    if '"' !in arg {
      QuotesMatch('"', arg, rest);
    } else if '\'' !in arg {
      QuotesMatch('\'', arg, rest);
    } else {
      RunStops(arg, rest);
    }
  }

  // Arguments that lack one kind of quote (or have no white space and start with no
  // quote) come back as they went in, however many there are and whatever is in them.
  lemma {:induction false} QuotedListReadsBack(args: seq<string>)
    requires forall i :: 0 <= i < |args| ==> Renderable(args[i])
    ensures Tokens(Join(args)) == args
  {
    TrimIsRedundant(Join(args));
    JoinScans(args);
  }

  lemma {:induction false} JoinScans(args: seq<string>)
    requires forall i :: 0 <= i < |args| ==> Renderable(args[i])
    ensures Args(Scan(Join(args))) == args
  {
    hide MatchLength, Value, Render, Renderable, Scan, Args;
    NoArgs();
    if args == [] {
    } else {
      var span, rest := Render(args[0]), if |args| == 1 then "" else [' '] + Join(args[1..]);
      var s := span + rest;
      assert s == Join(args);
      RenderMatches(args[0], rest);
      ArgsStep(s);
      assert s[|span|..] == rest;
      if |args| > 1 {
        ArgsStep(rest);
        assert rest[1..] == Join(args[1..]);
        JoinScans(args[1..]);
        assert args == [args[0]] + args[1..];
      }
    }
  }

  // The arguments that some line of text yields.
  predicate Producible(arg: string) {
    '"' !in arg || '\'' !in arg || (NoSpace(arg) && !Quoted(arg))
  }

  lemma MatchIsProducible(s: string)
    requires MatchLength(s) > 0
    ensures Producible(Value(s))
  {
    var arg := Value(s);
    if Quoted(s) {
      assert forall i :: 0 <= i < |arg| ==> arg[i] == s[1..][i];
      assert s[0] !in arg;
    } else {
      assert forall i :: 0 <= i < |arg| - 1 ==> arg[1..][i] == s[1..][i];
    }
  }

  lemma {:induction false} TokensAreProducible(s: string, arg: string)
    requires arg in Args(Scan(s))
    ensures Producible(arg)
    decreases |s|
  {
    if s != "" {
      var n := MatchLength(s);
      hide MatchLength, Value, Producible, Scan, Args;
      ArgsStep(s);
      if n == 0 {
        TokensAreProducible(s[1..], arg);
      } else {
        MatchIsProducible(s);
        if arg != Value(s) {
          TokensAreProducible(s[n..], arg);
        }
      }
    } else {
      NoArgs();
    }
  }

  lemma AloneReadsBack(arg: string)
    requires Producible(arg) && !Renderable(arg)
    ensures Args(Scan(arg)) == [arg]
  {
    RunStops(arg, "");
    assert arg + "" == arg && arg[|arg|..] == "";
    ArgsStep(arg);
    NoArgs();
  }

  // An argument that holds both kinds of quote can be passed at all exactly when it has
  // no white space and does not start with a quote that it closes itself.
  lemma WhatCanBePassed(arg: string)
    ensures (exists extra :: arg in Tokens(extra)) <==> Producible(arg)
  {
    if Producible(arg) {
      if Renderable(arg) {
        QuotedListReadsBack([arg]);
        assert arg in Tokens(Join([arg]));
      } else {
        TrimIsRedundant(arg);
        AloneReadsBack(arg);
        assert arg in Tokens(arg);
      }
    }
    if extra: string :| arg in Tokens(extra) {
      TokensAreProducible(Trim(extra), arg);
    }
  }
}
