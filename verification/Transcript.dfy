// The live preview: a transcript of regions that drafts extend and verdicts rewrite.
module Transcript {
  import opened Lists

  datatype Event =
    | Accepted(tokens: seq<int>)
    | Drafted(tokens: seq<int>)
    | Verdict(tokens: seq<int>)
    | Cleared

  datatype Style = Confirmed | Pending | Rejected
  datatype Region = Region(text: string, style: Style)
  datatype Screen = Screen(transcript: seq<Region>, pending: seq<int>)

  const BLANK := Screen([], [])

  // The text of a token.
  type Vocab = int -> string

  function Detokenize(vocab: Vocab, tokens: seq<int>): string {
    if tokens == [] then "" else vocab(tokens[0]) + Detokenize(vocab, tokens[1..])
  }

  // ----- the event handlers -----

  function Append(vocab: Vocab, transcript: seq<Region>, tokens: seq<int>, style: Style): seq<Region> {
    if tokens == [] then transcript else transcript + [Region(Detokenize(vocab, tokens), style)]
  }

  // Pops pending regions off the tail.
  function PopPending(transcript: seq<Region>): seq<Region> {
    if transcript != [] && transcript[|transcript| - 1].style == Pending
    then PopPending(transcript[..|transcript| - 1])
    else transcript
  }

  // Confirmed prefix, first rejected token, correction.
  function Rebuild(vocab: Vocab, transcript: seq<Region>, pending: seq<int>, accepted: seq<int>): seq<Region> {
    var n := MatchLength(pending, accepted);
    var t1 := Append(vocab, transcript, pending[..n], Confirmed);
    var t2 := if n < |pending| then Append(vocab, t1, [pending[n]], Rejected) else t1;
    Append(vocab, t2, accepted[n..], Confirmed)
  }

  function Handle(vocab: Vocab, s: Screen, event: Event): Screen {
    match event
    case Accepted(tokens) => s.(transcript := Append(vocab, s.transcript, tokens, Confirmed))
    case Drafted(tokens) =>
      if tokens == [] then s else Screen(Append(vocab, s.transcript, tokens, Pending), tokens)
    case Verdict(accepted) =>
      if s.pending == [] then s.(transcript := Append(vocab, s.transcript, accepted, Confirmed))
      else Screen(Rebuild(vocab, PopPending(s.transcript), s.pending, accepted), [])
    case Cleared => BLANK
  }

  function HandleAll(vocab: Vocab, s: Screen, events: seq<Event>): Screen
    decreases |events|
  {
    if events == [] then s else HandleAll(vocab, Handle(vocab, s, events[0]), events[1..])
  }

  class Renderer {
    const vocab: Vocab
    var transcript: seq<Region>
    var pending: seq<int>

    ghost function State(): Screen
      reads this
    {
      Screen(transcript, pending)
    }

    constructor (vocab: Vocab)
      ensures this.vocab == vocab && State() == BLANK
    {
      this.vocab := vocab;
      transcript, pending := [], [];
    }

    method Detok(tokens: seq<int>) returns (out: string)
      ensures out == Detokenize(vocab, tokens)
    {
      out := "";
      var i := 0;
      while i < |tokens|
        invariant 0 <= i <= |tokens|
        invariant Detokenize(vocab, tokens) == out + Detokenize(vocab, tokens[i..])
      {
        assert tokens[i..][1..] == tokens[i + 1..];
        out := out + vocab(tokens[i]);
        i := i + 1;
      }
      assert tokens[i..] == [];
    }

    method Push(tokens: seq<int>, style: Style)
      modifies this`transcript
      ensures transcript == old(transcript) + [Region(Detokenize(vocab, tokens), style)]
    {
      var text := Detok(tokens);
      transcript := transcript + [Region(text, style)];
    }

    method HandleAccepted(tokens: seq<int>)
      modifies this
      ensures State() == Handle(vocab, old(State()), Accepted(tokens))
    {
      if tokens == [] {
        return;
      }
      Push(tokens, Confirmed);
    }

    method HandleDraft(tokens: seq<int>)
      modifies this
      ensures State() == Handle(vocab, old(State()), Drafted(tokens))
    {
      if tokens == [] {
        return;
      }
      pending := tokens;
      Push(tokens, Pending);
    }

    method HandleVerdict(accepted: seq<int>)
      modifies this
      ensures State() == Handle(vocab, old(State()), Verdict(accepted))
    {
      if pending == [] {
        if accepted != [] {
          Push(accepted, Confirmed);
        }
        return;
      }
      while transcript != [] && transcript[|transcript| - 1].style == Pending
        invariant pending == old(pending) && PopPending(transcript) == PopPending(old(transcript))
        decreases |transcript|
      {
        transcript := transcript[..|transcript| - 1];
      }
      var matched := 0;
      var n := if |pending| <= |accepted| then |pending| else |accepted|;
      while matched < n && pending[matched] == accepted[matched]
        invariant 0 <= matched <= n
        invariant pending[..matched] == accepted[..matched]
      {
        matched := matched + 1;
      }
      MatchIsUnique(pending, accepted, matched);
      assert matched == 0 ==> pending[..matched] == [];
      assert matched == |accepted| ==> accepted[matched..] == [];
      if matched > 0 {
        Push(pending[..matched], Confirmed);
      }
      if matched < |pending| {
        Push([pending[matched]], Rejected);
      }
      if matched < |accepted| {
        Push(accepted[matched..], Confirmed);
      }
      pending := [];
    }

    method HandleReset()
      modifies this
      ensures State() == Handle(vocab, old(State()), Cleared)
    {
      pending := [];
      transcript := [];
    }
  }

  // ----- conservation -----

  function ConfirmedText(transcript: seq<Region>): string {
    if transcript == [] then ""
    else
      var last := transcript[|transcript| - 1];
      ConfirmedText(transcript[..|transcript| - 1]) + (if last.style == Confirmed then last.text else "")
  }

  // The tokens that the server settled since the last reset.
  function Settled(events: seq<Event>): seq<int> {
    if events == [] then []
    else
      var before, last := Settled(events[..|events| - 1]), events[|events| - 1];
      match last
      case Accepted(tokens) => before + tokens
      case Verdict(tokens) => before + tokens
      case Drafted(_) => before
      case Cleared => []
  }

  lemma {:induction false} DetokenizeJoins(vocab: Vocab, a: seq<int>, b: seq<int>)
    ensures Detokenize(vocab, a + b) == Detokenize(vocab, a) + Detokenize(vocab, b)
  {
    if a == [] {
      assert a + b == b;
    } else {
      DetokenizeJoins(vocab, a[1..], b);
      assert (a + b)[1..] == a[1..] + b;
    }
  }

  lemma AppendText(vocab: Vocab, transcript: seq<Region>, tokens: seq<int>, style: Style)
    ensures ConfirmedText(Append(vocab, transcript, tokens, style))
         == ConfirmedText(transcript) + (if style == Confirmed then Detokenize(vocab, tokens) else "")
  {
    if tokens != [] {
      var grown := Append(vocab, transcript, tokens, style);
      assert grown[..|grown| - 1] == transcript;
    }
  }

  lemma {:induction false} PopKeepsText(transcript: seq<Region>)
    ensures ConfirmedText(PopPending(transcript)) == ConfirmedText(transcript)
    decreases |transcript|
  {
    if transcript != [] && transcript[|transcript| - 1].style == Pending {
      PopKeepsText(transcript[..|transcript| - 1]);
    }
  }

  lemma TextsJoin(a: string, b: string, c: string)
    ensures a + b + "" + c == a + (b + c) && a + b + c == a + (b + c)
  {
  }

  lemma RebuildText(vocab: Vocab, transcript: seq<Region>, pending: seq<int>, accepted: seq<int>)
    ensures ConfirmedText(Rebuild(vocab, transcript, pending, accepted))
         == ConfirmedText(transcript) + Detokenize(vocab, accepted)
  {
    hide Append, ConfirmedText, MatchLength, Detokenize;
    var n := MatchLength(pending, accepted);
    var t1 := Append(vocab, transcript, pending[..n], Confirmed);
    var t2 := if n < |pending| then Append(vocab, t1, [pending[n]], Rejected) else t1;
    AppendText(vocab, transcript, pending[..n], Confirmed);
    if n < |pending| {
      AppendText(vocab, t1, [pending[n]], Rejected);
    }
    AppendText(vocab, t2, accepted[n..], Confirmed);
    DetokenizeJoins(vocab, accepted[..n], accepted[n..]);
    TextsJoin(ConfirmedText(transcript), Detokenize(vocab, accepted[..n]), Detokenize(vocab, accepted[n..]));
    assert accepted == accepted[..n] + accepted[n..];
  }

  lemma HandleText(vocab: Vocab, s: Screen, event: Event)
    ensures ConfirmedText(Handle(vocab, s, event).transcript) ==
      match event
      case Accepted(tokens) => ConfirmedText(s.transcript) + Detokenize(vocab, tokens)
      case Verdict(tokens) => ConfirmedText(s.transcript) + Detokenize(vocab, tokens)
      case Drafted(_) => ConfirmedText(s.transcript)
      case Cleared => ""
  {
    match event
    case Accepted(tokens) => AppendText(vocab, s.transcript, tokens, Confirmed);
    case Drafted(tokens) => AppendText(vocab, s.transcript, tokens, Pending);
    case Verdict(tokens) =>
      if s.pending == [] {
        AppendText(vocab, s.transcript, tokens, Confirmed);
      } else {
        PopKeepsText(s.transcript);
        RebuildText(vocab, PopPending(s.transcript), s.pending, tokens);
      }
    case Cleared =>
  }

  lemma {:induction false} HandleAllSplits(vocab: Vocab, s: Screen, events: seq<Event>, last: Event)
    ensures HandleAll(vocab, s, events + [last]) == Handle(vocab, HandleAll(vocab, s, events), last)
    decreases |events|
  {
    if events == [] {
      assert [last][1..] == [];
    } else {
      HandleAllSplits(vocab, Handle(vocab, s, events[0]), events[1..], last);
      assert (events + [last])[1..] == events[1..] + [last];
    }
  }

  // Whatever was drafted, matched or rejected: the confirmed regions spell out
  // exactly what the server settled since the last reset, in order.
  lemma {:induction false} TranscriptConservation(vocab: Vocab, events: seq<Event>)
    ensures ConfirmedText(HandleAll(vocab, BLANK, events).transcript) == Detokenize(vocab, Settled(events))
    decreases |events|
  {
    if events == [] {
    } else {
      var init, last := events[..|events| - 1], events[|events| - 1];
      TranscriptConservation(vocab, init);
      assert events == init + [last];
      HandleAllSplits(vocab, BLANK, init, last);
      HandleText(vocab, HandleAll(vocab, BLANK, init), last);
      if last.Accepted? || last.Verdict? {
        DetokenizeJoins(vocab, Settled(init), last.tokens);
      }
    }
  }

  // ----- the pending region -----

  function Count(transcript: seq<Region>, style: Style): nat {
    if transcript == [] then 0
    else Count(transcript[..|transcript| - 1], style) + (if transcript[|transcript| - 1].style == style then 1 else 0)
  }

  // At most one pending region, the last one, showing exactly the pending tokens.
  ghost predicate PendingShown(vocab: Vocab, s: Screen) {
    if s.pending == [] then Count(s.transcript, Pending) == 0
    else
      && s.transcript != []
      && s.transcript[|s.transcript| - 1] == Region(Detokenize(vocab, s.pending), Pending)
      && Count(s.transcript[..|s.transcript| - 1], Pending) == 0
  }

  lemma AppendCount(vocab: Vocab, transcript: seq<Region>, tokens: seq<int>, style: Style, counted: Style)
    ensures Count(Append(vocab, transcript, tokens, style), counted)
         == Count(transcript, counted) + (if tokens != [] && style == counted then 1 else 0)
  {
    if tokens != [] {
      var grown := Append(vocab, transcript, tokens, style);
      assert grown[..|grown| - 1] == transcript;
    }
  }

  lemma {:induction false} NoPendingTail(transcript: seq<Region>)
    requires Count(transcript, Pending) == 0
    ensures PopPending(transcript) == transcript
  {
  }

  lemma {:induction false} PopCounts(transcript: seq<Region>)
    ensures Count(PopPending(transcript), Rejected) == Count(transcript, Rejected)
    decreases |transcript|
  {
    if transcript != [] && transcript[|transcript| - 1].style == Pending {
      PopCounts(transcript[..|transcript| - 1]);
    }
  }

  lemma RebuildCounts(vocab: Vocab, transcript: seq<Region>, pending: seq<int>, accepted: seq<int>, counted: Style)
    requires counted != Confirmed
    ensures Count(Rebuild(vocab, transcript, pending, accepted), counted)
         == Count(transcript, counted)
            + (if counted == Rejected && MatchLength(pending, accepted) < |pending| then 1 else 0)
  {
    var n := MatchLength(pending, accepted);
    var t1 := Append(vocab, transcript, pending[..n], Confirmed);
    var t2 := if n < |pending| then Append(vocab, t1, [pending[n]], Rejected) else t1;
    AppendCount(vocab, transcript, pending[..n], Confirmed, counted);
    if n < |pending| {
      AppendCount(vocab, t1, [pending[n]], Rejected, counted);
    }
    AppendCount(vocab, t2, accepted[n..], Confirmed, counted);
  }

  // A verdict strikes through one token exactly when the pending block was not
  // accepted whole, and never more than one.
  lemma VerdictRejectsAtMostOne(vocab: Vocab, s: Screen, accepted: seq<int>)
    ensures Count(Handle(vocab, s, Verdict(accepted)).transcript, Rejected) - Count(s.transcript, Rejected)
         == if s.pending <= accepted then 0 else 1
  {
    if s.pending == [] {
      AppendCount(vocab, s.transcript, accepted, Confirmed, Rejected);
    } else {
      PopCounts(s.transcript);
      RebuildCounts(vocab, PopPending(s.transcript), s.pending, accepted, Rejected);
      MatchIsWhole(s.pending, accepted);
    }
  }

  lemma TextOfOne(vocab: Vocab, token: int)
    ensures Detokenize(vocab, [token]) == vocab(token)
  {
    assert [token][1..] == [];
  }

  // The token struck through is the first one that the server did not accept. In front of
  // it are the earlier text and the accepted tokens that match, behind it the correction;
  // nothing else of the screen changes but that the pending region goes.
  lemma VerdictStrikesFirstMiss(vocab: Vocab, s: Screen, accepted: seq<int>, n: nat) returns (k: nat)
    requires n < |s.pending| && n <= |accepted| && s.pending[..n] == accepted[..n]
    requires n == |accepted| || s.pending[n] != accepted[n]
    ensures var t := Handle(vocab, s, Verdict(accepted)).transcript;
            && k < |t| && t[k] == Region(vocab(s.pending[n]), Rejected)
            && ConfirmedText(t[..k]) == ConfirmedText(s.transcript) + Detokenize(vocab, accepted[..n])
            && Count(t[..k], Rejected) == Count(s.transcript, Rejected)
            && t[k + 1..] == (if n == |accepted| then [] else [Region(Detokenize(vocab, accepted[n..]), Confirmed)])
            && (PendingShown(vocab, s) ==> s.transcript[..|s.transcript| - 1] <= t[..k])
  {
    var left, t := PopPending(s.transcript), Handle(vocab, s, Verdict(accepted)).transcript;
    var t1 := Append(vocab, left, s.pending[..n], Confirmed);
    assert t == Rebuild(vocab, left, s.pending, accepted);
    if PendingShown(vocab, s) {
      NoPendingTail(s.transcript[..|s.transcript| - 1]);
      assert left == s.transcript[..|s.transcript| - 1];
    }
    hide *;
    k := |t1|;
    RebuildParts(vocab, left, s.pending, accepted, n);
    PopKeepsText(s.transcript);
    PopCounts(s.transcript);
    AppendText(vocab, left, s.pending[..n], Confirmed);
    AppendCount(vocab, left, s.pending[..n], Confirmed, Rejected);
    assert t[..k] == t1;
  }

  lemma RebuildParts(vocab: Vocab, left: seq<Region>, pending: seq<int>, accepted: seq<int>, n: nat)
    requires n < |pending| && n <= |accepted| && pending[..n] == accepted[..n]
    requires n == |accepted| || pending[n] != accepted[n]
    ensures var t1 := Append(vocab, left, pending[..n], Confirmed);
            var rest := if n == |accepted| then [] else [Region(Detokenize(vocab, accepted[n..]), Confirmed)];
            left <= t1 && Rebuild(vocab, left, pending, accepted) == t1 + [Region(vocab(pending[n]), Rejected)] + rest
  {
    hide Detokenize;
    MatchIsUnique(pending, accepted, n);
    TextOfOne(vocab, pending[n]);
  }

  lemma VerdictSettlesPending(vocab: Vocab, s: Screen, accepted: seq<int>)
    requires PendingShown(vocab, s)
    ensures var s' := Handle(vocab, s, Verdict(accepted));
            s'.pending == [] && PendingShown(vocab, s')
  {
    if s.pending == [] {
      AppendCount(vocab, s.transcript, accepted, Confirmed, Pending);
    } else {
      var init := s.transcript[..|s.transcript| - 1];
      NoPendingTail(init);
      RebuildCounts(vocab, init, s.pending, accepted, Pending);
    }
  }

  lemma DraftShowsPending(vocab: Vocab, s: Screen, tokens: seq<int>)
    requires PendingShown(vocab, s) && s.pending == []
    ensures var s' := Handle(vocab, s, Drafted(tokens));
            s'.pending == tokens && PendingShown(vocab, s')
  {
    if tokens != [] {
      var grown := Append(vocab, s.transcript, tokens, Pending);
      assert grown[..|grown| - 1] == s.transcript;
    }
  }

  // Accepted tokens keep the pending region last exactly when there are none or no
  // block is pending: a prefill must not come between a draft and its verdict.
  lemma AcceptedDisturbsPending(vocab: Vocab, s: Screen, tokens: seq<int>)
    requires PendingShown(vocab, s)
    ensures PendingShown(vocab, Handle(vocab, s, Accepted(tokens))) <==> tokens == [] || s.pending == []
  {
    AppendCount(vocab, s.transcript, tokens, Confirmed, Pending);
    if tokens != [] && s.pending != [] {
      var grown := Append(vocab, s.transcript, tokens, Confirmed);
      assert grown[|grown| - 1].style == Confirmed;
    }
  }

  // What the service emits for one call of a session.
  datatype Emission =
    | ForPrefill(tokens: seq<int>)
    | ForDraft(accepted: seq<int>, drafted: seq<int>)
    | ForReset

  function Emit(e: Emission): seq<Event> {
    match e
    case ForPrefill(tokens) => if tokens == [] then [] else [Accepted(tokens)]
    case ForDraft(accepted, drafted) => [Verdict(accepted), Drafted(drafted)]
    case ForReset => [Cleared]
  }

  function Play(vocab: Vocab, s: Screen, stream: seq<Emission>): Screen
    decreases |stream|
  {
    if stream == [] then s else Play(vocab, HandleAll(vocab, s, Emit(stream[0])), stream[1..])
  }

  // No prefill comes between a draft and its verdict.
  ghost predicate Undisturbed(vocab: Vocab, s: Screen, stream: seq<Emission>)
    decreases |stream|
  {
    stream == [] ||
    (&& (stream[0].ForPrefill? && stream[0].tokens != [] ==> s.pending == [])
     && Undisturbed(vocab, HandleAll(vocab, s, Emit(stream[0])), stream[1..]))
  }

  lemma HandleFew(vocab: Vocab, s: Screen, e: Event, f: Event)
    ensures HandleAll(vocab, s, []) == s
    ensures HandleAll(vocab, s, [e]) == Handle(vocab, s, e)
    ensures HandleAll(vocab, s, [e, f]) == Handle(vocab, Handle(vocab, s, e), f)
  {
    hide Handle;
    assert [e][1..] == [] && [e, f][1..] == [f] && [f][1..] == [];
    var s1 := Handle(vocab, s, e);
    assert HandleAll(vocab, s1, [f]) == HandleAll(vocab, Handle(vocab, s1, f), []);
  }

  lemma EmissionKeepsPending(vocab: Vocab, s: Screen, e: Emission)
    requires PendingShown(vocab, s)
    requires e.ForPrefill? && e.tokens != [] ==> s.pending == []
    ensures PendingShown(vocab, HandleAll(vocab, s, Emit(e)))
  {
    hide PendingShown, Handle, HandleAll;
    match e
    case ForPrefill(tokens) =>
      AcceptedDisturbsPending(vocab, s, tokens);
      HandleFew(vocab, s, Accepted(tokens), Cleared);
    case ForDraft(accepted, drafted) =>
      VerdictSettlesPending(vocab, s, accepted);
      DraftShowsPending(vocab, Handle(vocab, s, Verdict(accepted)), drafted);
      HandleFew(vocab, s, Verdict(accepted), Drafted(drafted));
    case ForReset =>
      HandleFew(vocab, s, Cleared, Cleared);
      BlankShowsPending(vocab, s);
  }

  lemma BlankShowsPending(vocab: Vocab, s: Screen)
    ensures Handle(vocab, s, Cleared) == BLANK && PendingShown(vocab, BLANK)
  {
  }

  // Over any undisturbed stream at most one region is pending; it is the last one
  // and its text is the pending block.
  lemma {:induction false} PendingInvariant(vocab: Vocab, s: Screen, stream: seq<Emission>)
    requires PendingShown(vocab, s) && Undisturbed(vocab, s, stream)
    ensures PendingShown(vocab, Play(vocab, s, stream))
    decreases |stream|
  {
    if stream == [] {
    } else {
      EmissionKeepsPending(vocab, s, stream[0]);
      PendingInvariant(vocab, HandleAll(vocab, s, Emit(stream[0])), stream[1..]);
    }
  }
}
