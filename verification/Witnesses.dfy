// Runs that break what the code relies on, and what then goes wrong.
module Witnesses {
  import opened Bf16
  import opened Wire
  import opened DraftEngine
  import opened CacheCleanup
  import opened DraftService
  import opened Protocol
  import opened CacheAgreement
  import opened LostMessages
  import opened Provenance
  import opened Unreliable
  import Server = RemoteSender

  // ----- building runs -----

  lemma {:induction false} RunThen(u: Setup, t: Trace, events: seq<Event>, event: Event)
    requires u.cfg.ubatch > 0 && AnyRun(u, t.w, events) && Possible(u, Traced(u, t, events).w, event)
    ensures AnyRun(u, t.w, events + [event])
    ensures Traced(u, t, events + [event]) == Follow(u, Traced(u, t, events), event)
    decreases |events|
  {
    hide Possible, Step, Follow;
    var all := events + [event];
    if events == [] {
      assert all == [event] && [event][1..] == [];
    } else {
      assert all[0] == events[0] && all[1..] == events[1..] + [event];
      RunThen(u, Follow(u, t, events[0]), events[1..], event);
    }
  }

  // The prefixes that end at the positions lo .. |tokens| - 1.
  function Suffixes(tokens: seq<int>, lo: nat): (r: Prefixes)
    requires lo <= |tokens|
    ensures |r| == |tokens| - lo
  {
    seq(|tokens| - lo, i requires 0 <= i < |tokens| - lo => tokens[..lo + i + 1])
  }

  lemma LatestSources(t: Trace, lo: nat)
    requires LatestCaptured(t) && lo <= |t.w.committed| && NoneMissed(t.missed, lo, |t.w.committed|)
    ensures Sources(t.origin, lo, |t.w.committed|) == Suffixes(t.w.committed, lo)
  {
    var c := t.w.committed;
    forall i | 0 <= i < |c| - lo
      ensures Sources(t.origin, lo, |c|)[i] == c[..lo + i + 1]
    {
      assert (c + t.w.pending)[..lo + i + 1] == c[..lo + i + 1];
    }
  }

  // One draft() of a trace whose committed positions were all captured.
  lemma DraftShips(u: Setup, t: Trace, idLast: int, reply: DraftReply)
    requires Sound(u) && Sourced(u, t) && NoneMissed(t.missed, 0, |t.w.committed|) && t.w.sender.nSent < |t.w.committed|
    ensures var n := |t.w.committed|;
            var (sender, shipment) := Ship(u, t.w, idLast, reply);
            && sender.prefilled && sender.nSent == n - 1 && sender.stepId == t.w.sender.stepId + 1
            && (shipment.prefill.Some? <==> !t.w.sender.prefilled)
            && shipment.request.Some? && shipment.request.value.stepId == t.w.sender.stepId + 1
            && Sources(t.origin, NextUnsent(t.w.sender, n), n) == Suffixes(t.w.committed, NextUnsent(t.w.sender, n))
            && Sources(t.origin, 0, n) == Suffixes(t.w.committed, 0)
  {
    hide Server.Gather, EdgeHolds, RequestsTraced, LateTraced, PacketOf;
    var w, n := t.w, |t.w.committed|;
    var all := w.committed + w.pending;
    assert forall p: nat :: p < n ==> p in w.sender.feats;
    Server.GatherExactly(w.sender.feats, 0, n - 1);
    Server.GatherExactly(w.sender.feats, NextUnsent(w.sender, n), n - 1);
    LatestSources(t, 0);
    LatestSources(t, NextUnsent(w.sender, n));
  }

  lemma {:induction false} RunJoins(u: Setup, t: Trace, a: seq<Event>, b: seq<Event>)
    requires u.cfg.ubatch > 0 && AnyRun(u, t.w, a) && AnyRun(u, Traced(u, t, a).w, b)
    ensures AnyRun(u, t.w, a + b) && Traced(u, t, a + b) == Traced(u, Traced(u, t, a), b)
    decreases |a|
  {
    hide Possible, Step, Follow;
    if a == [] {
      assert a + b == b;
    } else {
      assert (a + b)[0] == a[0] && (a + b)[1..] == a[1..] + b;
      RunJoins(u, Follow(u, t, a[0]), a[1..], b);
    }
  }

  lemma TwoSteps(u: Setup, t: Trace, a: Event, b: Event)
    requires u.cfg.ubatch > 0 && Possible(u, t.w, a) && Possible(u, Follow(u, t, a).w, b)
    ensures AnyRun(u, t.w, [a, b]) && Traced(u, t, [a, b]) == Follow(u, Follow(u, t, a), b)
  {
    hide Possible, Step, Follow;
    assert AnyRun(u, t.w, []) && Traced(u, t, []) == t;
    RunThen(u, t, [], a);
    RunThen(u, t, [a], b);
    assert [] + [a] == [a] && [a] + [b] == [a, b];
  }

  // The target decodes a batch and keeps all of it.
  function Commits(tokens: seq<int>, captured: bool): seq<Event> {
    [Decode(tokens, captured), Accept(|tokens|)]
  }

  lemma CommitTraced(u: Setup, t: Trace, tokens: seq<int>, captured: bool) returns (t': Trace)
    requires Sound(u) && Sourced(u, t)
    ensures AnyRun(u, t.w, Commits(tokens, captured)) && t' == Traced(u, t, Commits(tokens, captured)) && Sourced(u, t')
    ensures t'.w.committed == t.w.committed + tokens && t'.w.live == t.w.live && t'.w.sent == t.w.sent
    ensures t'.w.sender == t.w.sender.(feats := t'.w.sender.feats) && t'.w.session == t.w.session
    ensures t'.carried == t.carried && t'.ledger == t.ledger
    ensures var decoded := Range(|t.w.committed|, |t.w.committed| + |tokens|);
            t'.missed == if captured then t.missed - decoded else t.missed + decoded
    ensures t'.origin == if captured then t.origin + Decoded(t.w.committed, tokens) else t.origin
  {
    hide Sourced, Capture;
    var a, b := Decode(tokens, captured), Accept(|tokens|);
    EventSourced(u, t, a);
    EventSourced(u, Follow(u, t, a), b);
    TwoSteps(u, t, a, b);
    assert tokens[..|tokens|] == tokens;
    t' := Follow(u, Follow(u, t, a), b);
  }

  const WELL: ChunkFates := c => Encoded(Decodes)

  // begin() and the first draft() of a generation.
  function Opens(resets: bool, idLast: int, reply: DraftReply): seq<Event> {
    [Begin(resets), DraftStep(idLast, true, WELL, reply)]
  }

  lemma OpenTraced(u: Setup, t: Trace, resets: bool, idLast: int, reply: DraftReply) returns (t': Trace)
    requires Sound(u) && Sourced(u, t) && t.w.committed != [] && NoneMissed(t.missed, 0, |t.w.committed|)
    requires resets || t.ledger != []
    ensures AnyRun(u, t.w, Opens(resets, idLast, reply)) && t' == Traced(u, t, Opens(resets, idLast, reply))
    ensures Sourced(u, t') && t'.w.committed == t.w.committed && t'.w.live && t'.missed == t.missed
    ensures t'.w.sender.prefilled && t'.w.sender.nSent == |t.w.committed| - 1 && t'.w.sender.stepId == 1
    ensures t'.w.session.lastStepId == if resets then 0 else t.w.session.lastStepId
    ensures |t'.w.sent| == 1 && t'.carried == [[]]
    ensures t'.ledger == if resets then Suffixes(t.w.committed, 0) else t.ledger
  {
    hide Sourced, Ship, Prefill, Sources, PacketsOf, Stretch, Suffixes;
    var a, b := Begin(resets), DraftStep(idLast, true, WELL, reply);
    var begun := Follow(u, t, a);
    EventSourced(u, t, a);
    SourcedUnsent(u, begun);
    DraftShips(u, begun, idLast, reply);
    ShipmentTraced(u, begun, idLast, reply);
    EventSourced(u, begun, b);
    TwoSteps(u, t, a, b);
    t' := Follow(u, begun, b);
    SourcedEdge(u, begun);
    PromptOnto(u, begun.ledger, begun.w.session.engine, Sources(begun.origin, 0, |t.w.committed|));
    NoSuffixes(t.w.committed);
  }

  // A prompt's packets, llama not failing, at a reset edge and at one that holds something.
  lemma PromptOnto(u: Setup, ledger: Prefixes, e: EngineState, s: Prefixes)
    requires Sound(u) && EdgeHolds(u, ledger, e) && Stretch(s) && Start(s) == 0 && s != []
    ensures e == FRESH && ledger == [] ==> Prefill(u.cfg, e, PacketsOf(u, s), WELL).1.ok
    ensures ledger != [] ==> !Prefill(u.cfg, e, PacketsOf(u, s), WELL).1.ok
  {
    hide TakeAccepted, Prefill, PacketsOf, Stretch, EdgeHolds, Confirmed, MaxPos;
    PrefillOnto(u, ledger, e, s, WELL);
    if e == FRESH && ledger == [] {
      FreshHoldsNothing(u);
      PrefillTakes(u.cfg, FRESH, PacketsOf(u, s), WELL);
      FreshIsClean();
      ShipmentOnto(u, [], FRESH, s, WELL);
    }
  }

  lemma FreshIsClean()
    ensures NoTransient(FRESH)
  {
  }

  lemma SourcedEdge(u: Setup, t: Trace)
    requires Sourced(u, t)
    ensures EdgeHolds(u, t.ledger, t.w.session.engine)
  {
  }

  lemma NoSuffixes(tokens: seq<int>)
    ensures Suffixes(tokens, |tokens|) == [] && [] + Suffixes(tokens, 0) == Suffixes(tokens, 0)
  {
  }

  lemma RejectTraced(u: Setup, t: Trace, tokens: seq<int>) returns (t': Trace)
    requires Sound(u) && Sourced(u, t)
    ensures var events := [Decode(tokens, true), Accept(0)];
            AnyRun(u, t.w, events) && t' == Traced(u, t, events) && Sourced(u, t')
    ensures t'.w.committed == t.w.committed && t'.w.live == t.w.live
    ensures t'.w.sender == t.w.sender.(feats := t'.w.sender.feats)
    ensures t'.origin == t.origin + Decoded(t.w.committed, tokens)
  {
    hide Sourced, Capture;
    var a, b := Decode(tokens, true), Accept(0);
    EventSourced(u, t, a);
    EventSourced(u, Follow(u, t, a), b);
    TwoSteps(u, t, a, b);
    t' := Follow(u, Follow(u, t, a), b);
  }

  lemma OneStep(u: Setup, t: Trace, a: Event)
    requires Sound(u) && Sourced(u, t) && Possible(u, t.w, a)
    ensures AnyRun(u, t.w, [a]) && Traced(u, t, [a]) == Follow(u, t, a) && Sourced(u, Follow(u, t, a))
  {
    hide Possible, Step, Follow, Sourced;
    assert AnyRun(u, t.w, []) && Traced(u, t, []) == t;
    RunThen(u, t, [], a);
    EventSourced(u, t, a);
    assert [] + [a] == [a];
  }

  lemma FirstPrompt(u: Setup, tokens: seq<int>, idLast: int, reply: DraftReply) returns (t: Trace)
    requires Sound(u) && tokens != []
    ensures var events := Commits(tokens, true) + Opens(true, idLast, reply);
            AnyRun(u, START, events) && t == Traced(u, OUTSET, events) && Sourced(u, t)
    ensures t.w.committed == tokens && t.w.live && t.missed == {} && t.ledger == Suffixes(tokens, 0)
    ensures t.w.sender.prefilled && t.w.sender.nSent == |tokens| - 1 && t.w.session.lastStepId == 0
  {
    hide Sourced, Suffixes, Decoded;
    OutsetSourced(u);
    var committed := CommitTraced(u, OUTSET, tokens, true);
    assert START.committed + tokens == tokens;
    assert committed.missed == {};
    t := OpenTraced(u, committed, true, idLast, reply);
    RunJoins(u, OUTSET, Commits(tokens, true), Opens(true, idLast, reply));
  }

  // ----- a decode that was not captured -----

  // A rejected token leaks: its packet is shipped at the position where an uncaptured
  // decode committed another token.
  lemma UncapturedDecodeLeaks(u: Setup, a: int, x: int, y: int, idLast: int, reply: DraftReply)
    returns (events: seq<Event>)
    requires Sound(u)
    ensures AnyRun(u, START, events) &&
            var w := Reach(u, START, events);
            w.committed == [a, y] && w.live && w.sender.nSent == 0 &&
            var request := Ship(u, w, idLast, reply).1.request;
            request.Some? && request.value.accepted == [Genuine(u, [a, x], 1)]
  {
    hide Sourced, Suffixes;
    var first := Commits([a], true) + Opens(true, idLast, reply);
    var reject: seq<Event> := [Decode([x], true), Accept(0)];
    var t := FirstPrompt(u, [a], idLast, reply);
    var rejected := RejectTraced(u, t, [x]);
    var final := CommitTraced(u, rejected, [y], false);
    RunJoins(u, OUTSET, first, reject);
    RunJoins(u, OUTSET, first + reject, Commits([y], false));
    events := first + reject + Commits([y], false);
    RunEndsAt(u, events);
    assert [a] + [y] == [a, y] && ([a] + [x])[..2] == [a, x];
    assert final.origin[1] == [a, x];
    ShipsSecond(u, final, [a, x], idLast, reply);
  }

  lemma RunEndsAt(u: Setup, events: seq<Event>)
    requires Sound(u) && AnyRun(u, START, events)
    ensures Traced(u, OUTSET, events).w == Reach(u, START, events)
  {
    OutsetSourced(u);
    RunSourced(u, OUTSET, events);
  }

  lemma ShipsSecond(u: Setup, t: Trace, prefix: seq<int>, idLast: int, reply: DraftReply)
    requires Sound(u) && Sourced(u, t) && |t.w.committed| == 2 && t.w.sender.prefilled && t.w.sender.nSent == 0
    requires 1 in t.origin && t.origin[1] == prefix && |prefix| == 2
    ensures var request := Ship(u, t.w, idLast, reply).1.request;
            request.Some? && request.value.accepted == [Genuine(u, prefix, 1)]
  {
    hide EdgeHolds, RequestsTraced, LateTraced, LatestCaptured;
    ShipmentTraced(u, t, idLast, reply);
    Server.GatherExactly(t.w.sender.feats, 1, 1);
    assert Sources(t.origin, 1, 2) == [prefix];
    assert prefix[..2] == prefix;
  }

  // ----- a reset that was lost -----

  // A generation, then a prompt as long as what the edge holds whose reset is lost, then
  // one more token: the run of a lost reset.
  function LostResetRun(olds: seq<int>, news: seq<int>, z: int, idLast: int, reply: DraftReply): seq<Event> {
    Commits(olds, true) + Opens(true, idLast, reply) + [NewPrompt(0)] + Commits(news, true)
      + Opens(false, idLast, reply) + Commits([z], true) + [DraftStep(idLast, true, WELL, reply)]
  }

  lemma LostResetTraced(u: Setup, olds: seq<int>, news: seq<int>, z: int, idLast: int, reply: DraftReply)
    returns (t: Trace)
    requires Sound(u) && olds != [] && |news| == |olds|
    ensures var events := LostResetRun(olds, news, z, idLast, reply);
            AnyRun(u, START, events) && t == Traced(u, OUTSET, events) && Sourced(u, t)
    ensures |t.w.sent| == |t.carried| == 2 && t.w.session.lastStepId == 0 && t.w.sent[1].req.stepId == 2
    ensures t.w.generation == news + [z] && t.w.sent[1].nPast == |news| + 1
    ensures t.ledger == Suffixes(olds, 0) && t.carried[1] == Suffixes(news + [z], |news|)
  {
    hide Sourced, Suffixes, Decoded, Ship, Sources, Prefill;
    var e1 := Commits(olds, true) + Opens(true, idLast, reply);
    var t1 := FirstPrompt(u, olds, idLast, reply);
    OneStep(u, t1, NewPrompt(0));
    var t2 := Follow(u, t1, NewPrompt(0));
    RunJoins(u, OUTSET, e1, [NewPrompt(0)]);
    var t3 := CommitTraced(u, t2, news, true);
    assert [] + news == news && t3.missed == {};
    RunJoins(u, OUTSET, e1 + [NewPrompt(0)], Commits(news, true));
    var t4 := OpenTraced(u, t3, false, idLast, reply);
    RunJoins(u, OUTSET, e1 + [NewPrompt(0)] + Commits(news, true), Opens(false, idLast, reply));
    var e4 := e1 + [NewPrompt(0)] + Commits(news, true) + Opens(false, idLast, reply);
    var t5 := CommitTraced(u, t4, [z], true);
    RunJoins(u, OUTSET, e4, Commits([z], true));
    t := LastRequest(u, t5, idLast, reply);
    RunJoins(u, OUTSET, e4 + Commits([z], true), [DraftStep(idLast, true, WELL, reply)]);
  }

  lemma LastRequest(u: Setup, t: Trace, idLast: int, reply: DraftReply) returns (t': Trace)
    requires Sound(u) && Sourced(u, t) && t.missed == {} && t.w.live
    requires t.w.sender.prefilled && t.w.sender.nSent == |t.w.committed| - 2
    ensures var event := DraftStep(idLast, true, WELL, reply);
            AnyRun(u, t.w, [event]) && t' == Traced(u, t, [event]) && Sourced(u, t')
    ensures t'.w.session == t.w.session && t'.ledger == t.ledger && t'.w.generation == t.w.committed
    ensures |t'.w.sent| == |t.w.sent| + 1 && t'.w.sent[|t.w.sent|].nPast == |t.w.committed|
    ensures t'.w.sent[|t.w.sent|].req.stepId == t.w.sender.stepId + 1
    ensures t'.carried == t.carried + [Suffixes(t.w.committed, |t.w.committed| - 1)]
  {
    hide FeatsTraced, RequestsTraced, LateTraced, LatestCaptured, EdgeHolds, Suffixes, Ship, Sources, Prefill;
    DraftShips(u, t, idLast, reply);
    OneStep(u, t, DraftStep(idLast, true, WELL, reply));
    t' := Follow(u, t, DraftStep(idLast, true, WELL, reply));
  }

  // The new prompt's prefill fails on the cells of the generation before and is ignored.
  // The request that starts at the old mark goes in and is answered ok: it is drafted
  // over the old generation's cells, from the right place only if those are the same.
  lemma LostResetDraftsOverOldCells(
    u: Setup, olds: seq<int>, news: seq<int>, z: int, idLast: int, reply: DraftReply, fate: Fate)
    requires Sound(u) && olds != [] && |news| == |olds|
    requires fate.noise == Decodes && forall c :: fate.chunks(c) == Encoded(Decodes)
    ensures var events := LostResetRun(olds, news, z, idLast, reply);
            AnyRun(u, START, events) &&
            var w := Reach(u, START, events);
            |w.sent| == 2 && w.generation == news + [z] && w.sent[1].nPast == |news| + 1 &&
            var (session, answer) := HandleDraft(u.cfg, u.next, w.session, w.sent[1].req, fate);
            && answer.ok
            && (HeldInPlace(u, w.generation, w.sent[1].nPast, session.engine)
                <==> forall p: nat :: p < |olds| ==> GenuineCell(u, olds)(p) == GenuineCell(u, news + [z])(p))
  {
    hide Sourced, Traced, Reach, AnyRun, HeldInPlace, HandleDraft, Suffixes, SameCells, DraftedOver, LostResetRun,
      Follows;
    var events := LostResetRun(olds, news, z, idLast, reply);
    var t := LostResetTraced(u, olds, news, z, idLast, reply);
    RunEndsAt(u, events);
    AnsweredExactly(u, events, 1, fate);
    AnsweredInPlaceExactly(u, events, 1, fate);
    OldAndNew(u, olds, news, z);
  }

  lemma OldAndNew(u: Setup, olds: seq<int>, news: seq<int>, z: int)
    requires olds != [] && |news| == |olds|
    ensures Follows(Suffixes(olds, 0), Suffixes(news + [z], |news|))
    ensures SameCells(u, Suffixes(olds, 0) + Suffixes(news + [z], |news|), news + [z], |news| + 1)
       <==> forall p: nat :: p < |olds| ==> GenuineCell(u, olds)(p) == GenuineCell(u, news + [z])(p)
  {
    var held, tokens := Suffixes(olds, 0) + Suffixes(news + [z], |news|), news + [z];
    assert held[0] == olds[..1];
    forall p: nat | p < |olds|
      ensures CellOf(u, held[p]) == GenuineCell(u, olds)(p)
    {
      assert held[p] == olds[..p + 1];
    }
    assert held[|olds|] == tokens[..|news| + 1];
  }

  lemma AgreesHolds(u: Setup, tokens: seq<int>, session: SessionState)
    requires EdgeAgrees(u, tokens, session)
    ensures EdgeHolds(u, Suffixes(tokens[..Held(session)], 0), session.engine)
  {
    hide MaxPos, SeqRm, Span, Tidy;
    var ledger := Suffixes(tokens[..Held(session)], 0);
    forall i | 0 <= i < |ledger|
      ensures ledger[i] == tokens[..i + 1]
    {
    }
    if ledger == [] {
      NothingHeld(u);
      SpanIsEmpty(GenuineCell(u, tokens), 0);
    } else {
      StartsAtZero(tokens[..Held(session)]);
      forall p: nat | p < Held(session)
        ensures CellsOn(u, ledger)(p) == GenuineCell(u, tokens)(p)
      {
        assert PrefixAt(ledger, p) == ledger[p] == tokens[..p + 1];
      }
      SpansAgree(CellsOn(u, ledger), GenuineCell(u, tokens), 0, Held(session));
    }
  }

  lemma RangeIsTraced(u: Setup, tokens: seq<int>, lo: nat, hi: nat)
    requires lo <= hi <= |tokens|
    ensures var s := Suffixes(tokens[..hi], lo);
            Stretch(s) && GenuineRange(u, tokens, lo, hi) == PacketsOf(u, s) && (lo < hi ==> Start(s) == lo)
  {
    var s := Suffixes(tokens[..hi], lo);
    forall i | 0 <= i < hi - lo
      ensures s[i] == tokens[..lo + i + 1] && GenuineRange(u, tokens, lo, hi)[i] == PacketOf(u, s[i])
    {
      assert tokens[..hi][..lo + i + 1] == tokens[..lo + i + 1];
      assert GenuineRange(u, tokens, lo, hi)[i] == Genuine(u, tokens, lo + i);
    }
  }

  // An edge that still agrees with the generation before, because the reset was lost: a
  // fresh request of the new one is answered ok exactly when it carries nothing or
  // starts at the old mark, and is drafted from the right place exactly when the mark
  // then is n_past and the old cells are the new tokens' own. An empty first request is
  // drafted at the old mark.
  lemma OldEdgeAnswers(
    u: Setup, olds: seq<int>, news: seq<int>, session: SessionState, req: DraftRequest, lo: nat, hi: nat, fate: Fate)
    requires Sound(u) && EdgeAgrees(u, olds, session) && Held(session) > 0 && lo <= hi <= |news|
    requires req.accepted == GenuineRange(u, news, lo, hi) && !Stale(session, req)
    requires fate.noise == Decodes && forall c :: fate.chunks(c) == Encoded(Decodes)
    ensures var (session', reply) := HandleDraft(u.cfg, u.next, session, req, fate);
            && (reply.ok <==> lo == hi || lo == Held(session))
            && (reply.ok ==>
                  && Held(session') == (if lo == hi then Held(session) else hi)
                  && (HeldInPlace(u, news, hi, session'.engine)
                      <==> Held(session') == hi &&
                           forall p: nat :: p < Held(session) ==> GenuineCell(u, olds)(p) == GenuineCell(u, news)(p)))
  {
    hide HandleDraft, EdgeAgrees, EdgeHolds, HeldInPlace, Stretch, PacketsOf, GenuineRange, TakeAccepted, DropTransient;
    hide SameCells;
    var held := Held(session);
    HeldBounds(u, olds, session);
    var ledger, s := Suffixes(olds[..held], 0), Suffixes(news[..hi], lo);
    AgreesHolds(u, olds, session);
    RangeIsTraced(u, news, lo, hi);
    DeliveryOnto(u, ledger, session, req, s, fate);
    var (session', reply) := HandleDraft(u.cfg, u.next, session, req, fate);
    StartsAtZero(olds[..held]);
    if reply.ok {
      HeldExactly(u, ledger + s, session'.engine, news, hi);
      MarkOf(u, ledger, s, session'.engine);
      CellsOfBoth(u, olds, news, held, lo, hi);
    }
  }

  lemma HeldBounds(u: Setup, tokens: seq<int>, session: SessionState)
    requires EdgeAgrees(u, tokens, session)
    ensures 0 <= Held(session) <= |tokens|
  {
    hide Tidy, Span;
  }

  lemma StartsAtZero(tokens: seq<int>)
    ensures Start(Suffixes(tokens, 0)) == 0 && End(Suffixes(tokens, 0)) == |tokens|
  {
    if tokens != [] {
      assert Suffixes(tokens, 0)[0] == tokens[..1];
    }
  }

  lemma MarkOf(u: Setup, ledger: Prefixes, s: Prefixes, e: EngineState)
    requires EdgeHolds(u, ledger + s, e) && ledger != [] && Start(ledger) == 0
    requires Follows(ledger, s)
    ensures e.confirmedMax + 1 == if s == [] then End(ledger) else End(s)
  {
    hide Tidy, Confirmed;
    if s == [] {
      assert ledger + s == ledger;
    }
  }

  lemma CellsOfBoth(u: Setup, olds: seq<int>, news: seq<int>, held: nat, lo: nat, hi: nat)
    requires 0 < held <= |olds| && lo <= hi <= |news| && (lo == hi || lo == held)
    ensures SameCells(u, Suffixes(olds[..held], 0) + Suffixes(news[..hi], lo), news, hi)
       <==> (if lo == hi then held == hi else true) &&
            forall p: nat :: p < held ==> GenuineCell(u, olds)(p) == GenuineCell(u, news)(p)
  {
    var ledger, s := Suffixes(olds[..held], 0), Suffixes(news[..hi], lo);
    var all := ledger + s;
    assert all[0] == olds[..held][..1];
    forall p: nat | p < held
      ensures CellOf(u, all[p]) == GenuineCell(u, olds)(p)
    {
      assert olds[..held][..p + 1] == olds[..p + 1];
    }
    forall p: nat | held <= p < |all|
      ensures CellOf(u, all[p]) == GenuineCell(u, news)(p)
    {
      assert all[p] == s[p - held] == news[..hi][..p + 1] == news[..p + 1];
    }
  }
}
