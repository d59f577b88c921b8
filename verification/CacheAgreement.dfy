// The two caches stay in step over every run of the protocol.
module CacheAgreement {
  import opened Bf16
  import opened Wire
  import opened DraftEngine
  import opened CacheCleanup
  import opened DraftService
  import opened Protocol
  import Server = RemoteSender

  // ----- the invariant -----

  // Every position of the given tokens has its genuine packet; positions beyond may
  // hold anything.
  ghost predicate Captured(u: Setup, feats: Server.Features, tokens: seq<int>) {
    forall p: nat :: p < |tokens| ==> p in feats && feats[p] == Genuine(u, tokens, p)
  }

  // How many positions the edge has confirmed.
  function Held(session: SessionState): int {
    session.engine.confirmedMax + 1
  }

  // The edge's confirmed cells are exactly positions 0 .. confirmedMax, each with the
  // features of the generation's tokens up to it; everything above is transient.
  ghost predicate EdgeAgrees(u: Setup, tokens: seq<int>, session: SessionState) {
    && 0 <= Held(session) <= |tokens|
    && Tidy(session.engine, Span(GenuineCell(u, tokens), 0, Held(session)))
    && session.engine.lastToken == LastHeld(tokens, Held(session))
  }

  // The fallback anchor: the last confirmed token.
  function LastHeld(tokens: seq<int>, held: int): int {
    if 0 < held <= |tokens| then tokens[held - 1] else 0
  }

  // Request i of a generation carries the genuine packets of lo .. n_past - 1, where
  // the previous request stopped.
  function From(sent: seq<Sent>, i: nat): nat
    requires i < |sent|
  {
    sent[if i == 0 then 0 else i - 1].nPast
  }

  ghost predicate SentGenuine(u: Setup, tokens: seq<int>, sent: seq<Sent>) {
    forall i :: 0 <= i < |sent| ==>
      && sent[i].req.stepId == i + 1
      && 0 < From(sent, i) <= sent[i].nPast <= |tokens|
      && (i > 0 ==> From(sent, i) < sent[i].nPast)
      && sent[i].req.accepted == GenuineRange(u, tokens, From(sent, i), sent[i].nPast)
  }

  // How far the edge got: never past the last request it ran, and at the prompt's end
  // before the first.
  ghost predicate GuardAgrees(sent: seq<Sent>, session: SessionState) {
    && session.lastStepId <= |sent|
    && (sent == [] ==> session == NEW_SESSION)
    && (sent != [] ==> sent[0].nPast <= Held(session))
    && (sent != [] && session.lastStepId == 0 ==> Held(session) == sent[0].nPast)
    && (session.lastStepId > 0 ==> Held(session) <= sent[session.lastStepId - 1].nPast)
  }

  ghost predicate SenderAgrees(w: World) {
    && w.sender.nSent >= -1
    && (w.live ==>
          && w.generation == w.committed && w.committed != []
          && w.sender.stepId == |w.sent|
          && (w.sender.prefilled <==> w.sent != [])
          && (w.sent == [] ==> w.sender.nSent == -1 && w.sender.prevNPast == -1)
          && (w.sent != [] ==>
                var last := w.sent[|w.sent| - 1].nPast;
                w.sender.nSent == last - 1 && w.sender.prevNPast == last))
  }

  ghost predicate Agreement(u: Setup, w: World) {
    && Captured(u, w.sender.feats, w.committed + w.pending)
    && EdgeAgrees(u, w.generation, w.session)
    && SentGenuine(u, w.generation, w.sent)
    && GuardAgrees(w.sent, w.session)
    && SenderAgrees(w)
  }

  // ----- features and their prefixes -----

  lemma GenuinePrefix(u: Setup, tokens: seq<int>, more: seq<int>, p: nat)
    requires p < |tokens| && tokens <= more
    ensures Genuine(u, tokens, p) == Genuine(u, more, p)
    ensures GenuineCell(u, tokens)(p) == GenuineCell(u, more)(p)
  {
    assert more[..|tokens|] == tokens;
    assert tokens[..p + 1] == more[..p + 1];
  }

  lemma GenuineRangePrefix(u: Setup, tokens: seq<int>, more: seq<int>, lo: nat, hi: nat)
    requires lo <= hi <= |tokens| && tokens <= more
    ensures GenuineRange(u, tokens, lo, hi) == GenuineRange(u, more, lo, hi)
  {
    forall i | 0 <= i < hi - lo
      ensures GenuineRange(u, tokens, lo, hi)[i] == GenuineRange(u, more, lo, hi)[i]
    {
      GenuinePrefix(u, tokens, more, lo + i);
    }
  }

  lemma CapturedPrefix(u: Setup, feats: Server.Features, tokens: seq<int>, more: seq<int>)
    requires Captured(u, feats, more) && tokens <= more
    ensures Captured(u, feats, tokens)
  {
    forall p: nat | p < |tokens|
      ensures p in feats && feats[p] == Genuine(u, tokens, p)
    {
      GenuinePrefix(u, tokens, more, p);
    }
  }

  lemma SpansAgree(c: Cells, d: Cells, lo: nat, hi: nat)
    requires forall p: nat :: lo <= p < hi ==> c(p) == d(p)
    ensures Span(c, lo, hi) == Span(d, lo, hi)
  {
    forall p: nat
      ensures p in Span(c, lo, hi) <==> p in Span(d, lo, hi)
      ensures p in Span(c, lo, hi) ==> Span(c, lo, hi)[p] == Span(d, lo, hi)[p]
    {
      SpanKeys(c, lo, hi, p);
      SpanKeys(d, lo, hi, p);
    }
  }

  lemma EdgePrefix(u: Setup, tokens: seq<int>, more: seq<int>, session: SessionState)
    requires EdgeAgrees(u, tokens, session) && tokens <= more
    ensures EdgeAgrees(u, more, session)
  {
    hide Tidy, Span;
    forall p: nat | 0 <= p < Held(session)
      ensures GenuineCell(u, tokens)(p) == GenuineCell(u, more)(p)
    {
      GenuinePrefix(u, tokens, more, p);
    }
    SpansAgree(GenuineCell(u, tokens), GenuineCell(u, more), 0, Held(session));
  }

  lemma SentPrefix(u: Setup, tokens: seq<int>, more: seq<int>, sent: seq<Sent>)
    requires SentGenuine(u, tokens, sent) && tokens <= more
    ensures SentGenuine(u, more, sent)
  {
    hide GenuineRange;
    forall i | 0 <= i < |sent|
      ensures GenuineRange(u, tokens, From(sent, i), sent[i].nPast)
           == GenuineRange(u, more, From(sent, i), sent[i].nPast)
    {
      GenuineRangePrefix(u, tokens, more, From(sent, i), sent[i].nPast);
    }
  }

  // A packet unpacks to the cell that its position should have.
  lemma GenuineUnpacks(u: Setup, tokens: seq<int>, p: nat)
    requires Sound(u) && p < |tokens|
    ensures Tap(RowOf(u.cfg, Genuine(u, tokens, p))) == GenuineCell(u, tokens)(p)
    ensures Unpackable(u.cfg, Genuine(u, tokens, p))
  {
    var row := u.tap(tokens[..p + 1]);
    UnpackPack(row);
    assert |Pack(row)| == 2 * (u.cfg.layers * u.cfg.hidden);
    if u.cfg.layers == 0 {
      assert row == [];
    }
  }

  lemma GenuineShips(u: Setup, tokens: seq<int>, lo: nat, hi: nat)
    requires Sound(u) && lo <= hi <= |tokens|
    ensures Ships(u.cfg, GenuineRange(u, tokens, lo, hi), GenuineCell(u, tokens), lo)
  {
    hide RowOf, Sound, GenuineCell;
    var range := GenuineRange(u, tokens, lo, hi);
    forall i | 0 <= i < hi - lo
      ensures range[i].position == lo + i && Tap(RowOf(u.cfg, range[i])) == GenuineCell(u, tokens)(lo + i)
    {
      assert range[i] == Genuine(u, tokens, lo + i);
      GenuineUnpacks(u, tokens, lo + i);
    }
  }

  // ----- decoding -----

  lemma {:induction false} StoreKeeps(
    u: Setup, feats: Server.Features, before: seq<int>, batch: seq<int>, n: nat, p: nat)
    requires n <= |batch|
    ensures var stored := Server.Store(feats, batch, Positions(|before|, |batch|), Rows(u, before, batch), n);
            if |before| <= p < |before| + n then p in stored && stored[p] == Genuine(u, before + batch, p)
            else (p in stored <==> p in feats) && (p in stored ==> stored[p] == feats[p])
  {
    if n == 0 {
    } else {
      StoreKeeps(u, feats, before, batch, n - 1, p);
      assert (before + batch)[..|before| + n] == before + batch[..n];
    }
  }

  lemma DecodeCaptures(u: Setup, feats: Server.Features, committed: seq<int>, batch: seq<int>)
    requires Captured(u, feats, committed)
    ensures Captured(u, Capture(u, feats, committed, batch), committed + batch)
  {
    var all := committed + batch;
    forall p: nat | p < |all|
      ensures p in Capture(u, feats, committed, batch) && Capture(u, feats, committed, batch)[p] == Genuine(u, all, p)
    {
      StoreKeeps(u, feats, committed, batch, |batch|, p);
      if p < |committed| {
        GenuinePrefix(u, committed, all, p);
      }
    }
  }

  // ----- shipping -----

  lemma {:induction false} GatherGenuine(u: Setup, feats: Server.Features, tokens: seq<int>, lo: nat, hi: nat)
    requires Captured(u, feats, tokens) && lo <= hi <= |tokens|
    ensures Server.Gather(feats, lo, hi - 1) == Some(GenuineRange(u, tokens, lo, hi))
  {
    hide *;
    if lo < hi {
      GatherGenuine(u, feats, tokens, lo, hi - 1);
      CapturedAtEnd(u, feats, tokens, hi - 1);
      Server.GatherGrows(feats, lo, hi - 1);
      RangeGrows(u, tokens, lo, hi);
    } else {
      Server.GatherNone(feats, lo, hi - 1);
      RangeStarts(u, tokens, lo);
    }
  }

  lemma CapturedAtEnd(u: Setup, feats: Server.Features, tokens: seq<int>, p: nat)
    requires Captured(u, feats, tokens) && p < |tokens|
    ensures p in feats && feats[p] == Genuine(u, tokens, p)
  {
  }

  lemma RangeGrows(u: Setup, tokens: seq<int>, lo: nat, hi: nat)
    requires lo < hi <= |tokens|
    ensures GenuineRange(u, tokens, lo, hi) == GenuineRange(u, tokens, lo, hi - 1) + [Genuine(u, tokens, hi - 1)]
  {
    hide PacketOf;
  }

  lemma RangeStarts(u: Setup, tokens: seq<int>, lo: nat)
    requires lo <= |tokens|
    ensures GenuineRange(u, tokens, lo, lo) == []
  {
  }

  // A request asks to draft from the freshly sampled token, at most as many tokens as
  // both the user's limit and the model's block allow; it names the last position that
  // was shipped before it.
  predicate AsksFor(u: Setup, req: DraftRequest, idLast: int, shipped: int) {
    && req.anchor == idLast
    && req.position == (if shipped <= 0 then 0 else shipped - 1)
    && req.maxDraft <= u.sender.nMax && req.maxDraft <= u.sender.blockSize
    && (req.maxDraft == u.sender.nMax || req.maxDraft == u.sender.blockSize)
  }

  // The target is handed the tokens of an ok reply, and none without a request.
  ghost predicate Proposes(shipment: Server.Shipment, reply: DraftReply) {
    && (shipment.request.Some? && reply.ok ==> shipment.proposed == reply.tokens)
    && (shipment.request.None? || !reply.ok ==> shipment.proposed == [])
  }

  // What one draft step ships.
  lemma ShipmentOf(u: Setup, w: World, idLast: int, reply: DraftReply)
    requires w.sender.nSent >= -1 && Captured(u, w.sender.feats, w.committed) && w.sender.nSent < |w.committed|
    ensures var n := |w.committed|;
            var (sender, shipment) := Ship(u, w, idLast, reply);
            var lo := if w.sender.prefilled then w.sender.nSent + 1 else n;
            && shipment.prefill == (if w.sender.prefilled then None else Some(GenuineRange(u, w.committed, 0, n)))
            && shipment.request.Some?
            && shipment.request.value.stepId == w.sender.stepId + 1
            && shipment.request.value.accepted == GenuineRange(u, w.committed, lo, n)
            && AsksFor(u, shipment.request.value, idLast, lo)
            && Proposes(shipment, reply)
            && sender.feats == w.sender.feats && sender.prefilled && sender.nSent == n - 1
            && sender.prevNPast == n && sender.stepId == w.sender.stepId + 1
  {
    hide Server.Gather, GenuineRange, Captured;
    var n := |w.committed|;
    GatherGenuine(u, w.sender.feats, w.committed, 0, n);
    GatherGenuine(u, w.sender.feats, w.committed, if w.sender.prefilled then w.sender.nSent + 1 else n, n);
  }

  // ----- every event keeps the invariant -----

  lemma StartAgrees(u: Setup)
    ensures Agreement(u, START)
  {
    EmptyEdge(u, []);
  }

  // A session just reset agrees with any tokens.
  lemma EmptyEdge(u: Setup, tokens: seq<int>)
    ensures EdgeAgrees(u, tokens, NEW_SESSION)
  {
    hide Tidy, Span;
    FreshIsTidy();
    EmptySpan(map[], GenuineCell(u, tokens), 0);
    JustSpan(Span(GenuineCell(u, tokens), 0, 0));
  }

  lemma JustSpan(cache: Cache)
    ensures map[] + cache == cache
  {
  }

  lemma DecodeAgrees(u: Setup, w: World, batch: seq<int>, captured: bool)
    requires u.cfg.ubatch > 0 && Agreement(u, w) && Enabled(u, w, Decode(batch, captured))
    ensures Agreement(u, Step(u, w, Decode(batch, captured)))
  {
    hide Captured, EdgeAgrees, SentGenuine, GuardAgrees, Capture;
    assert w.committed <= w.committed + w.pending;
    CapturedPrefix(u, w.sender.feats, w.committed, w.committed + w.pending);
    DecodeCaptures(u, w.sender.feats, w.committed, batch);
  }

  lemma AcceptAgrees(u: Setup, w: World, count: nat)
    requires u.cfg.ubatch > 0 && Agreement(u, w) && Enabled(u, w, Accept(count))
    ensures Agreement(u, Step(u, w, Accept(count)))
  {
    hide Captured, EdgeAgrees, SentGenuine, GuardAgrees;
    var committed := w.committed + w.pending[..count];
    assert committed + [] == committed;
    assert committed <= w.committed + w.pending;
    CapturedPrefix(u, w.sender.feats, committed, w.committed + w.pending);
    if w.live {
      EdgePrefix(u, w.generation, committed, w.session);
      SentPrefix(u, w.generation, committed, w.sent);
    }
  }

  lemma NewPromptAgrees(u: Setup, w: World, keep: nat)
    requires u.cfg.ubatch > 0 && Agreement(u, w) && Enabled(u, w, NewPrompt(keep))
    ensures Agreement(u, Step(u, w, NewPrompt(keep)))
  {
    hide Captured, EdgeAgrees, SentGenuine, GuardAgrees;
    var committed := w.committed[..keep];
    assert committed + [] == committed;
    assert committed <= w.committed + w.pending;
    CapturedPrefix(u, w.sender.feats, committed, w.committed + w.pending);
  }

  lemma BeginAgrees(u: Setup, w: World, resets: bool)
    requires u.cfg.ubatch > 0 && Agreement(u, w) && Enabled(u, w, Begin(resets))
    ensures Agreement(u, Step(u, w, Begin(resets)))
  {
    hide EdgeAgrees;
    assert w.committed + [] == w.committed <= w.committed + w.pending;
    CapturedPrefix(u, w.sender.feats, w.committed, w.committed + w.pending);
    EmptyEdge(u, w.committed);
  }

  // The prompt's prefill, once it goes in, puts the edge at the prompt's end.
  lemma PrefillAgrees(u: Setup, tokens: seq<int>, chunks: ChunkFates)
    requires Sound(u) && tokens != []
    requires Prefill(u.cfg, FRESH, GenuineRange(u, tokens, 0, |tokens|), chunks).1.ok
    ensures var call := PrefillCall(GenuineRange(u, tokens, 0, |tokens|), chunks);
            var session := Handle(u.cfg, u.next, NEW_SESSION, call).0;
            EdgeAgrees(u, tokens, session) && Held(session) == |tokens| && session.lastStepId == 0
  {
    hide MaxPos, Span, Inject, GenuineRange, Tidy;
    var range := GenuineRange(u, tokens, 0, |tokens|);
    GenuineShips(u, tokens, 0, |tokens|);
    ShipmentTaken(u.cfg, FRESH, range, GenuineCell(u, tokens), 0, chunks);
    JustSpan(Span(GenuineCell(u, tokens), 0, |tokens|));
    LastOfRange(u, tokens, 0, |tokens|);
    CleanIsTidy(TakeAccepted(u.cfg, FRESH, range, chunks).0);
  }

  lemma SentGrows(u: Setup, tokens: seq<int>, sent: seq<Sent>, s: Sent)
    requires SentGenuine(u, tokens, sent)
    requires s.req.stepId == |sent| + 1 && s.nPast == |tokens| && tokens != []
    requires sent != [] ==> sent[|sent| - 1].nPast < |tokens|
    requires var lo := if sent == [] then |tokens| else sent[|sent| - 1].nPast;
             s.req.accepted == GenuineRange(u, tokens, lo, |tokens|)
    ensures SentGenuine(u, tokens, sent + [s])
  {
    hide GenuineRange;
    var grown := sent + [s];
    forall i | 0 <= i < |grown|
      ensures i < |sent| ==> From(grown, i) == From(sent, i)
      ensures i == |sent| ==> From(grown, i) == if sent == [] then |tokens| else sent[|sent| - 1].nPast
    {
    }
  }

  lemma DraftStepAgrees(u: Setup, w: World, idLast: int, arrives: bool, chunks: ChunkFates, reply: DraftReply)
    requires Sound(u) && Agreement(u, w) && Enabled(u, w, DraftStep(idLast, arrives, chunks, reply))
    ensures Agreement(u, Step(u, w, DraftStep(idLast, arrives, chunks, reply)))
  {
    hide Captured, EdgeAgrees, SentGenuine, GenuineRange, Handle, Ship, Prefill;
    assert w.committed <= w.committed + w.pending;
    CapturedPrefix(u, w.sender.feats, w.committed, w.committed + w.pending);
    ShipmentOf(u, w, idLast, reply);
    var shipment := Ship(u, w, idLast, reply).1;
    SentGrows(u, w.committed, w.sent, Sent(shipment.request.value, |w.committed|));
    if !w.sender.prefilled {
      PrefillAgrees(u, w.committed, chunks);
    }
  }

  // ----- delivery -----

  // The edge's cells after dropping leftovers: exactly the held positions.
  lemma LastOfRange(u: Setup, tokens: seq<int>, lo: nat, hi: nat)
    requires lo < hi <= |tokens|
    ensures GenuineRange(u, tokens, lo, hi)[hi - lo - 1].token == tokens[hi - 1]
  {
    var i := hi - lo - 1;
    assert GenuineRange(u, tokens, lo, hi)[i] == Genuine(u, tokens, lo + i);
  }

  lemma DropTransientClears(u: Setup, tokens: seq<int>, session: SessionState)
    requires EdgeAgrees(u, tokens, session)
    ensures var e := DropTransient(session.engine);
            && e.cache == Span(GenuineCell(u, tokens), 0, Held(session))
            && e.confirmedMax == session.engine.confirmedMax && NoTransient(e)
            && e.lastToken == LastHeld(tokens, Held(session))
  {
    hide MaxPos, Span, SeqRm;
  }

  lemma SpanIsEmpty(cells: Cells, n: nat)
    ensures Span(cells, 0, n) == map[] <==> n == 0
  {
    if n > 0 {
      SpanKeys(cells, 0, n, 0);
    } else {
      JustSpan(Span(cells, 0, 0));
      EmptySpan(map[], cells, 0);
    }
  }

  // A shipment of genuine packets at an agreeing edge that holds something: it goes
  // in only if it starts where the edge stopped, and then extends what is held.
  lemma ShipmentAtEdge(u: Setup, tokens: seq<int>, session: SessionState, lo: nat, hi: nat, fates: ChunkFates)
    requires Sound(u) && EdgeAgrees(u, tokens, session) && Held(session) > 0 && lo <= hi <= |tokens|
    ensures var t := TakeAccepted(u.cfg, DropTransient(session.engine), GenuineRange(u, tokens, lo, hi), fates);
            var held := if t.1 && lo < hi then hi else Held(session);
            && t.0.confirmedMax + 1 == held && t.0.lastToken == LastHeld(tokens, held)
            && Tidy(t.0, Span(GenuineCell(u, tokens), 0, held))
            && (t.1 ==> NoTransient(t.0) && t.0.cache == Span(GenuineCell(u, tokens), 0, held))
            && (t.1 && lo < hi ==> lo == Held(session))
  {
    hide MaxPos, Span, SeqRm, Inject, TakeAccepted, GenuineRange, GenuineCell, Tidy, DropTransient, EdgeAgrees;
    var e, cells, range := DropTransient(session.engine), GenuineCell(u, tokens), GenuineRange(u, tokens, lo, hi);
    DropTransientClears(u, tokens, session);
    GenuineShips(u, tokens, lo, hi);
    SpanIsEmpty(cells, Held(session));
    if TakeAccepted(u.cfg, e, range, fates).1 {
      ShipmentTaken(u.cfg, e, range, cells, lo, fates);
      CleanIsTidy(TakeAccepted(u.cfg, e, range, fates).0);
      if lo < hi {
        SpanJoins(map[], cells, 0, lo, hi);
        JustSpan(Span(cells, 0, lo));
        JustSpan(Span(cells, 0, hi));
        LastOfRange(u, tokens, lo, hi);
      } else {
        EmptySpan(e.cache, cells, lo);
      }
    } else {
      ShipmentDropped(u.cfg, e, range, cells, lo, fates);
    }
  }

  // A fresh request at an agreeing edge, whatever llama does.
  lemma FreshDelivery(u: Setup, w: World, index: nat, fate: Fate)
    requires Sound(u) && Agreement(u, w) && index < |w.sent| && !Stale(w.session, w.sent[index].req)
    ensures var t := TakeAccepted(u.cfg, DropTransient(w.session.engine), w.sent[index].req.accepted, fate.chunks);
            var session := HandleDraft(u.cfg, u.next, w.session, w.sent[index].req, fate).0;
            && session.lastStepId == index + 1
            && Held(session) == (if t.1 then w.sent[index].nPast else Held(w.session))
            && EdgeAgrees(u, w.generation, session)
            && (t.1 ==> t.0.lastToken == LastHeld(w.generation, Held(session)))
            && (t.1 ==> NoTransient(t.0) && t.0.cache == Span(GenuineCell(u, w.generation), 0, Held(session)))
            && (t.1 ==> From(w.sent, index) == Held(w.session))
            && (index == 0 ==> t.1 && Held(w.session) == w.sent[0].nPast)
  {
    hide MaxPos, Span, SeqRm, Inject, TakeAccepted, GenuineRange, GenuineCell, Tidy, DraftBlock, Captured, SenderAgrees;
    var s := w.sent[index];
    var lo := From(w.sent, index);
    ShipmentAtEdge(u, w.generation, w.session, lo, s.nPast, fate.chunks);
    var t := TakeAccepted(u.cfg, DropTransient(w.session.engine), s.req.accepted, fate.chunks);
    if index == 0 {
      EmptyShipmentGoesIn(u.cfg, DropTransient(w.session.engine), s.req.accepted, fate.chunks);
    }
    if t.1 {
      NoiseStaysAbove(u.cfg, u.next, t.0, s.req, fate.noise);
    }
  }

  lemma EmptyShipmentGoesIn(cfg: Config, e: EngineState, tokens: seq<Packet>, fates: ChunkFates)
    requires cfg.ubatch > 0 && tokens == []
    ensures TakeAccepted(cfg, e, tokens, fates) == (e, true)
  {
  }

  lemma SentNext(u: Setup, tokens: seq<int>, sent: seq<Sent>, j: nat)
    requires SentGenuine(u, tokens, sent) && 0 < j < |sent|
    ensures sent[j - 1].nPast < sent[j].nPast
  {
    hide GenuineRange;
    assert From(sent, j) == sent[j - 1].nPast;
  }

  lemma SentGrowing(u: Setup, tokens: seq<int>, sent: seq<Sent>, i: nat, j: nat)
    requires SentGenuine(u, tokens, sent) && i <= j < |sent|
    ensures sent[i].nPast <= sent[j].nPast
    ensures i < j ==> sent[i].nPast < sent[j].nPast
    decreases j
  {
    hide SentGenuine;
    if i < j {
      SentGrowing(u, tokens, sent, i, j - 1);
      SentNext(u, tokens, sent, j);
    }
  }

  lemma DeliverAgrees(u: Setup, w: World, index: nat, fate: Fate)
    requires Sound(u) && Agreement(u, w) && Enabled(u, w, Deliver(index, fate))
    ensures Agreement(u, Step(u, w, Deliver(index, fate)))
  {
    hide MaxPos, Span, SeqRm, Inject, TakeAccepted, GenuineRange, GenuineCell, Tidy, Draft, Captured, SentGenuine;
    if !Stale(w.session, w.sent[index].req) {
      StepIds(u, w.generation, w.sent, index);
      FreshDelivery(u, w, index, fate);
      SentGrowing(u, w.generation, w.sent, 0, index);
      if w.session.lastStepId > 0 {
        SentGrowing(u, w.generation, w.sent, w.session.lastStepId - 1, index);
      }
    }
  }

  lemma StepIds(u: Setup, tokens: seq<int>, sent: seq<Sent>, i: nat)
    requires SentGenuine(u, tokens, sent) && i < |sent|
    ensures sent[i].req.stepId == i + 1 && sent[i].nPast <= |tokens|
  {
  }

  lemma NeverLate(u: Setup, w: World, event: Event)
    requires u.cfg.ubatch > 0 && Enabled(u, w, event)
    ensures !event.DeliverLate?
  {
  }

  lemma EventAgrees(u: Setup, w: World, event: Event)
    requires Sound(u) && Agreement(u, w) && Enabled(u, w, event)
    ensures Agreement(u, Step(u, w, event))
  {
    NeverLate(u, w, event);
    hide Agreement, Possible, Relied, Step;
    match event
    case Decode(batch, captured) => DecodeAgrees(u, w, batch, captured);
    case Accept(count) => AcceptAgrees(u, w, count);
    case NewPrompt(keep) => NewPromptAgrees(u, w, keep);
    case Begin(resets) => BeginAgrees(u, w, resets);
    case DraftStep(idLast, arrives, chunks, reply) => DraftStepAgrees(u, w, idLast, arrives, chunks, reply);
    case Deliver(index, fate) => DeliverAgrees(u, w, index, fate);
    case DeliverLate(_, _) =>
  }

  lemma {:induction false} RunAgrees(u: Setup, w: World, events: seq<Event>)
    requires Sound(u) && Agreement(u, w) && Run(u, w, events)
    ensures Agreement(u, Reach(u, w, events))
    decreases |events|
  {
    hide Agreement, Possible, Relied, Step;
    if events == [] {
    } else {
      EventAgrees(u, w, events[0]);
      RunAgrees(u, Step(u, w, events[0]), events[1..]);
    }
  }

  // ----- what follows for every run from the start -----

  // The edge confirmed exactly positions 0 .. confirmedMax of the current generation,
  // none that the server has not shipped, and the cell of position p holds the bf16
  // features of the tokens up to p. While the generation lasts those are the committed
  // tokens.
  ghost predicate CachesInStep(u: Setup, w: World) {
    var e := w.session.engine;
    && -1 <= e.confirmedMax < |w.generation|
    && (w.live ==> w.generation == w.committed && e.confirmedMax <= w.sender.nSent)
    && (forall p: nat :: p <= e.confirmedMax ==>
          p in e.cache && e.cache[p] == Tap(QuantizeRow(u.tap(w.generation[..p + 1]))))
  }

  // Cache agreement over every run.
  lemma CacheAgreement(u: Setup, events: seq<Event>)
    requires Sound(u) && Run(u, START, events)
    ensures CachesInStep(u, Reach(u, START, events))
  {
    hide Agreement, CachesInStep, Reach, AnyRun, AllRelied;
    StartAgrees(u);
    RunAgrees(u, START, events);
    AgreementInStep(u, Reach(u, START, events));
  }

  lemma AgreementInStep(u: Setup, w: World)
    requires Agreement(u, w)
    ensures CachesInStep(u, w)
  {
    hide MaxPos, SeqRm, Span, Captured, GenuineRange, SentGenuine, GuardAgrees, Tidy;
    if w.live {
      HeldIsSent(u, w);
    }
    forall p: nat | p <= w.session.engine.confirmedMax
      ensures p in w.session.engine.cache
      ensures w.session.engine.cache[p] == Tap(QuantizeRow(u.tap(w.generation[..p + 1])))
    {
      HeldCell(u, w.generation, w.session, p);
    }
  }

  lemma HeldIsSent(u: Setup, w: World)
    requires Agreement(u, w) && w.live
    ensures w.session.engine.confirmedMax <= w.sender.nSent
  {
    hide Captured, EdgeAgrees, SentGenuine;
    if w.sent != [] {
      SentGrowing(u, w.generation, w.sent, if w.session.lastStepId > 0 then w.session.lastStepId - 1 else 0,
                  |w.sent| - 1);
    }
  }

  lemma HeldCell(u: Setup, tokens: seq<int>, session: SessionState, p: nat)
    requires EdgeAgrees(u, tokens, session) && p < Held(session)
    ensures p in session.engine.cache
    ensures session.engine.cache[p] == GenuineCell(u, tokens)(p)
  {
    SpanKeys(GenuineCell(u, tokens), 0, Held(session), p);
    SeqRmKeeps(session.engine.cache, Held(session), p);
  }

  lemma SeqRmKeeps(cache: Cache, p0: int, p: nat)
    requires p in SeqRm(cache, p0)
    ensures p in cache && cache[p] == SeqRm(cache, p0)[p]
  {
  }

  // Every packet of a shipment was captured by a decode on the committed prefix, and
  // prefill and request together cover what was not yet shipped, in order; the target is
  // handed the reply's tokens.
  ghost predicate ShipsCommitted(u: Setup, w: World, idLast: int, reply: DraftReply, shipment: Server.Shipment) {
    var n := |w.committed|;
    && shipment.request.Some? && w.sender.nSent < n
    && AsksFor(u, shipment.request.value, idLast, if w.sender.prefilled then w.sender.nSent + 1 else n)
    && Proposes(shipment, reply)
    && (w.sender.prefilled ==>
          && shipment.prefill == None && w.sender.nSent >= -1
          && shipment.request.value.accepted == GenuineRange(u, w.committed, w.sender.nSent + 1, n))
    && (!w.sender.prefilled ==>
          && shipment.prefill == Some(GenuineRange(u, w.committed, 0, n))
          && shipment.request.value.accepted == [])
  }

  // Rejected work never leaks, though `feats` holds stale packets past the committed
  // tokens: over every run, every draft ships genuine packets.
  lemma RejectedWorkNeverLeaks(u: Setup, events: seq<Event>, idLast: int, arrives: bool, chunks: ChunkFates,
                               reply: DraftReply)
    requires Sound(u) && Run(u, START, events)
    requires Enabled(u, Reach(u, START, events), DraftStep(idLast, arrives, chunks, reply))
    ensures ShipsCommitted(u, Reach(u, START, events), idLast, reply, Ship(u, Reach(u, START, events), idLast, reply).1)
  {
    hide Agreement, ShipsCommitted, Possible, Relied;
    StartAgrees(u);
    RunAgrees(u, START, events);
    AgreedShipment(u, Reach(u, START, events), idLast, arrives, chunks, reply);
  }

  lemma AgreedShipment(u: Setup, w: World, idLast: int, arrives: bool, chunks: ChunkFates, reply: DraftReply)
    requires Sound(u) && Agreement(u, w) && Enabled(u, w, DraftStep(idLast, arrives, chunks, reply))
    ensures ShipsCommitted(u, w, idLast, reply, Ship(u, w, idLast, reply).1)
  {
    hide Captured, EdgeAgrees, SentGenuine, GuardAgrees, Ship, Prefill, GenuineRange;
    assert w.committed <= w.committed + w.pending;
    CapturedPrefix(u, w.sender.feats, w.committed, w.committed + w.pending);
    ShipmentOf(u, w, idLast, reply);
    RangeIsEmpty(u, w.committed);
  }

  lemma RangeIsEmpty(u: Setup, tokens: seq<int>)
    ensures GenuineRange(u, tokens, |tokens|, |tokens|) == []
  {
  }

  // No fresh request is taken for a stale one: its step id is above the guard.
  lemma NeverWronglyStale(u: Setup, events: seq<Event>, idLast: int, arrives: bool, chunks: ChunkFates,
                          reply: DraftReply)
    requires Sound(u) && Run(u, START, events)
    requires Enabled(u, Reach(u, START, events), DraftStep(idLast, arrives, chunks, reply))
    ensures var w := Reach(u, START, events);
            var w' := Step(u, w, DraftStep(idLast, arrives, chunks, reply));
            && w.session.lastStepId <= w.sender.stepId
            && |w'.sent| == |w.sent| + 1
            && !Stale(w'.session, w'.sent[|w.sent|].req)
  {
    StartAgrees(u);
    RunAgrees(u, START, events);
    var w := Reach(u, START, events);
    hide Captured, EdgeAgrees, SentGenuine, Reach, AnyRun, AllRelied, Prefill, Ship;
    assert w.committed <= w.committed + w.pending;
    CapturedPrefix(u, w.sender.feats, w.committed, w.committed + w.pending);
    ShipmentOf(u, w, idLast, reply);
  }

  // The block of a request lies right above exactly the positions 0 .. n_past - 1 of
  // that call, each with its genuine features, and the answer holds the tokens that the
  // model names over them, one after another. An anchor id of 0 gives way to the last
  // confirmed token.
  ghost predicate DraftedInPlace(u: Setup, tokens: seq<int>, s: Sent, noise: DecodeFate, e: EngineState,
                                 reply: DraftReply) {
    var held := Span(GenuineCell(u, tokens), 0, s.nPast);
    var anchor := if s.req.anchor != 0 then s.req.anchor else LastHeld(tokens, s.nPast);
    var n := Room(s.req.maxDraft, u.cfg.blockSize);
    var cells := NoiseCells(u.cfg, s.nPast, anchor);
    && 0 < s.nPast <= |tokens|
    && e.confirmedMax == s.nPast - 1
    && e.cache == held + Span(cells, s.nPast, s.nPast + n)
    && MaxPos(held) == s.nPast - 1
    && Answers(u.next, e.cache, Batch(cells, s.nPast, n), s.req.stepId, reply)
  }

  // A draft answered ok was drafted from the right place, over every run.
  lemma DraftFromRightPlace(u: Setup, events: seq<Event>, index: nat, fate: Fate)
    requires Sound(u) && Run(u, START, events) && index < |Reach(u, START, events).sent|
    ensures var w := Reach(u, START, events);
            var (session, reply) := HandleDraft(u.cfg, u.next, w.session, w.sent[index].req, fate);
            reply.ok ==> DraftedInPlace(u, w.generation, w.sent[index], fate.noise, session.engine, reply)
  {
    hide Agreement, HandleDraft, DraftedInPlace;
    StartAgrees(u);
    RunAgrees(u, START, events);
    var w := Reach(u, START, events);
    if HandleDraft(u.cfg, u.next, w.session, w.sent[index].req, fate).1.ok {
      AgreedDraft(u, w, index, fate);
    }
  }

  lemma AgreedDraft(u: Setup, w: World, index: nat, fate: Fate)
    requires Sound(u) && Agreement(u, w) && index < |w.sent|
    requires HandleDraft(u.cfg, u.next, w.session, w.sent[index].req, fate).1.ok
    ensures var (session, reply) := HandleDraft(u.cfg, u.next, w.session, w.sent[index].req, fate);
            DraftedInPlace(u, w.generation, w.sent[index], fate.noise, session.engine, reply)
  {
    hide MaxPos, Span, SeqRm, Inject, TakeAccepted, GenuineRange, GenuineCell, Tidy, RunDraft, Captured, SenderAgrees,
      EdgeAgrees, GuardAgrees, NoiseCells, SentGenuine, DropTransient;
    FreshDelivery(u, w, index, fate);
    StepIds(u, w.generation, w.sent, index);
    var t := TakeAccepted(u.cfg, DropTransient(w.session.engine), w.sent[index].req.accepted, fate.chunks);
    NoiseStaysAbove(u.cfg, u.next, t.0, w.sent[index].req, fate.noise);
    HeldPositive(u, w, index);
  }

  lemma HeldPositive(u: Setup, w: World, index: nat)
    requires Agreement(u, w) && index < |w.sent|
    ensures 0 < w.sent[index].nPast
  {
    hide Captured, EdgeAgrees, GenuineRange;
  }
}
