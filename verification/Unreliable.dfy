// What a Draft is answered from, and what a draft ships, over any run at all: the exact
// conditions under which a lost reset, a lost or failed prefill, an empty prompt or an
// uncaptured decode shows.
module Unreliable {
  import opened Bf16
  import opened Wire
  import opened DraftEngine
  import opened CacheCleanup
  import opened DraftService
  import opened Protocol
  import opened CacheAgreement
  import opened Provenance
  import Server = RemoteSender

  // ----- drafting from the right place -----

  // The daemon holds exactly positions 0 .. n - 1 of the given tokens as confirmed, so
  // that its next block lies at n onward.
  ghost predicate HeldInPlace(u: Setup, tokens: seq<int>, n: nat, e: EngineState) {
    e.confirmedMax == n - 1 && SeqRm(e.cache, n) == Span(GenuineCell(u, tokens), 0, n)
  }

  // A ledger of all positions below n, each with the cell that the tokens give it.
  ghost predicate SameCells(u: Setup, ledger: Prefixes, tokens: seq<int>, n: nat) {
    && |ledger| == n
    && Start(ledger) == 0
    && forall p: nat :: p < n ==> CellOf(u, ledger[p]) == GenuineCell(u, tokens)(p)
  }

  lemma SpansDiffer(c: Cells, d: Cells, lo: nat, hi: nat, p: nat)
    requires lo <= p < hi && Span(c, lo, hi) == Span(d, 0, hi)
    ensures c(p) == d(p)
  {
    SpanKeys(c, lo, hi, p);
    SpanKeys(d, 0, hi, p);
  }

  lemma SpanStarts(c: Cells, d: Cells, lo: nat, hi: nat)
    requires lo < hi && Span(c, lo, hi) == Span(d, 0, hi)
    ensures lo == 0
  {
    SpanKeys(c, lo, hi, 0);
    SpanKeys(d, 0, hi, 0);
  }

  lemma HeldExactly(u: Setup, ledger: Prefixes, e: EngineState, tokens: seq<int>, n: nat)
    requires EdgeHolds(u, ledger, e)
    ensures HeldInPlace(u, tokens, n, e) <==> SameCells(u, ledger, tokens, n)
  {
    hide MaxPos, Span, SeqRm, Stretch, CellOf, GenuineCell;
    var c, d := CellsOn(u, ledger), GenuineCell(u, tokens);
    if ledger == [] {
      NothingHeld(u);
      SpanIsEmpty(d, n);
    } else if HeldInPlace(u, tokens, n, e) {
      SpanStarts(c, d, Start(ledger), n);
      forall p: nat | p < n
        ensures CellOf(u, ledger[p]) == d(p)
      {
        SpansDiffer(c, d, Start(ledger), n, p);
      }
    } else if SameCells(u, ledger, tokens, n) {
      SpansAgree(c, d, 0, n);
    }
  }

  // The draft was made from the confirmed cells of the ledger, its block right above, and
  // the answer holds the tokens that the model names over that cache, one after another.
  ghost predicate DraftedOver(
    u: Setup, ledger: Prefixes, req: DraftRequest, noise: DecodeFate, e: EngineState, reply: DraftReply)
  {
    var held, at := Confirmed(u, ledger), if ledger == [] then 0 else End(ledger);
    var anchor := if req.anchor != 0 then req.anchor else LastToken(ledger);
    var n := Room(req.maxDraft, u.cfg.blockSize);
    var cells := NoiseCells(u.cfg, at, anchor);
    && e.confirmedMax == at - 1
    && e.cache == held + Span(cells, at, at + n)
    && Answers(u.next, e.cache, Batch(cells, at, n), req.stepId, reply)
  }

  // Over any run at all, a Draft answered ok was drafted over what the edge held plus
  // what the request carried; it was drafted from the right place exactly when that is
  // all positions below n_past, each with the cell of the current generation's tokens.
  lemma AnsweredInPlaceExactly(u: Setup, events: seq<Event>, index: nat, fate: Fate)
    requires Sound(u) && AnyRun(u, START, events) && index < |Reach(u, START, events).sent|
    ensures var t := Traced(u, OUTSET, events);
            t.w == Reach(u, START, events) && index < |t.carried| &&
            var (session, reply) := HandleDraft(u.cfg, u.next, t.w.session, t.w.sent[index].req, fate);
            var held := t.ledger + t.carried[index];
            reply.ok ==>
              && DraftedOver(u, held, t.w.sent[index].req, fate.noise, session.engine, reply)
              && (HeldInPlace(u, t.w.generation, t.w.sent[index].nPast, session.engine)
                  <==> SameCells(u, held, t.w.generation, t.w.sent[index].nPast))
  {
    hide Sourced, Traced, Reach, AnyRun, HeldInPlace, SameCells, DraftedOver, HandleDraft;
    OutsetSourced(u);
    RunSourced(u, OUTSET, events);
    RequestsCounted(u, Traced(u, OUTSET, events));
    SourcedDraft(u, Traced(u, OUTSET, events), index, fate);
  }

  lemma RequestsCounted(u: Setup, t: Trace)
    requires Sourced(u, t)
    ensures |t.carried| == |t.w.sent|
  {
  }

  lemma SourcedDraft(u: Setup, t: Trace, index: nat, fate: Fate)
    requires Sound(u) && Sourced(u, t) && index < |t.w.sent| == |t.carried|
    ensures var (session, reply) := HandleDraft(u.cfg, u.next, t.w.session, t.w.sent[index].req, fate);
            var held := t.ledger + t.carried[index];
            reply.ok ==>
              && DraftedOver(u, held, t.w.sent[index].req, fate.noise, session.engine, reply)
              && (HeldInPlace(u, t.w.generation, t.w.sent[index].nPast, session.engine)
                  <==> SameCells(u, held, t.w.generation, t.w.sent[index].nPast))
  {
    hide FeatsTraced, LatestCaptured, HeldInPlace, SameCells, DraftedOver, PacketsOf, Stretch, EdgeHolds, HandleDraft;
    var req, held := t.w.sent[index].req, t.ledger + t.carried[index];
    var session := HandleDraft(u.cfg, u.next, t.w.session, req, fate).0;
    if HandleDraft(u.cfg, u.next, t.w.session, req, fate).1.ok {
      AnsweredIsFresh(u, t.w.session, req, fate);
      DeliveryOnto(u, t.ledger, t.w.session, req, t.carried[index], fate);
      DraftOnto(u, t.ledger, t.w.session, req, t.carried[index], fate);
      HeldExactly(u, held, session.engine, t.w.generation, t.w.sent[index].nPast);
    }
  }

  lemma AnsweredIsFresh(u: Setup, session: SessionState, req: DraftRequest, fate: Fate)
    requires u.cfg.ubatch > 0 && HandleDraft(u.cfg, u.next, session, req, fate).1.ok
    ensures !Stale(session, req)
  {
    hide Draft;
  }

  lemma DraftOnto(u: Setup, ledger: Prefixes, session: SessionState, req: DraftRequest, s: Prefixes, fate: Fate)
    requires Sound(u) && EdgeHolds(u, ledger, session.engine) && Stretch(s) && req.accepted == PacketsOf(u, s)
    requires !Stale(session, req) && HandleDraft(u.cfg, u.next, session, req, fate).1.ok
    ensures var (session', reply) := HandleDraft(u.cfg, u.next, session, req, fate);
            DraftedOver(u, ledger + s, req, fate.noise, session'.engine, reply)
  {
    hide MaxPos, Span, SeqRm, Inject, TakeAccepted, DropTransient, CellsOn, PacketsOf, Stretch, Confirmed, RunDraft,
      NoiseCells;
    Dropped(u, ledger, session.engine);
    ShipmentOnto(u, ledger, DropTransient(session.engine), s, fate.chunks);
    var t := TakeAccepted(u.cfg, DropTransient(session.engine), req.accepted, fate.chunks);
    NoiseStaysAbove(u.cfg, u.next, t.0, req, fate.noise);
  }

  // Over any run at all, with llama not failing, a request is answered ok exactly when
  // it is fresh and can follow what the edge holds: it carries nothing, or the edge
  // holds nothing, or it starts where the edge stopped.
  lemma AnsweredExactly(u: Setup, events: seq<Event>, index: nat, fate: Fate)
    requires Sound(u) && AnyRun(u, START, events) && index < |Reach(u, START, events).sent|
    requires fate.noise == Decodes && forall c :: fate.chunks(c) == Encoded(Decodes)
    ensures var t := Traced(u, OUTSET, events);
            t.w == Reach(u, START, events) && index < |t.carried| &&
            (HandleDraft(u.cfg, u.next, t.w.session, t.w.sent[index].req, fate).1.ok
             <==> !Stale(t.w.session, t.w.sent[index].req) && Follows(t.ledger, t.carried[index]))
  {
    hide Sourced, Traced, Reach, AnyRun, HandleDraft, Follows, Stale;
    OutsetSourced(u);
    RunSourced(u, OUTSET, events);
    RequestsCounted(u, Traced(u, OUTSET, events));
    SourcedAnswer(u, Traced(u, OUTSET, events), index, fate);
  }

  lemma SourcedAnswer(u: Setup, t: Trace, index: nat, fate: Fate)
    requires Sound(u) && Sourced(u, t) && index < |t.w.sent| == |t.carried|
    requires fate.noise == Decodes && forall c :: fate.chunks(c) == Encoded(Decodes)
    ensures HandleDraft(u.cfg, u.next, t.w.session, t.w.sent[index].req, fate).1.ok
            <==> !Stale(t.w.session, t.w.sent[index].req) && Follows(t.ledger, t.carried[index])
  {
    hide FeatsTraced, LatestCaptured, PacketsOf, Stretch, EdgeHolds, Follows, Draft;
    if !Stale(t.w.session, t.w.sent[index].req) {
      DeliveryOnto(u, t.ledger, t.w.session, t.w.sent[index].req, t.carried[index], fate);
    }
  }

  // A Draft that arrives after the next begin(), over any run: answered ok it was drafted
  // over what the edge holds by then plus the old generation's packets that it carries,
  // and those stay confirmed. With llama not failing, it is answered ok exactly when its
  // step id is above the restarted guard and it can follow what the edge holds.
  lemma LateDraftExactly(u: Setup, events: seq<Event>, index: nat, fate: Fate)
    requires Sound(u) && AnyRun(u, START, events) && index < |Reach(u, START, events).late|
    ensures var t := Traced(u, OUTSET, events);
            t.w == Reach(u, START, events) && index < |t.lateCarried| &&
            var (session, reply) := HandleDraft(u.cfg, u.next, t.w.session, t.w.late[index].req, fate);
            var held := t.ledger + t.lateCarried[index];
            && (reply.ok ==>
                  && DraftedOver(u, held, t.w.late[index].req, fate.noise, session.engine, reply)
                  && EdgeHolds(u, held, session.engine))
            && (fate.noise == Decodes && (forall c :: fate.chunks(c) == Encoded(Decodes)) ==>
                  (reply.ok <==> !Stale(t.w.session, t.w.late[index].req) && Follows(t.ledger, t.lateCarried[index])))
  {
    hide Sourced, Traced, Reach, AnyRun, DraftedOver, HandleDraft, Follows, Stale, EdgeHolds;
    OutsetSourced(u);
    RunSourced(u, OUTSET, events);
    var t := Traced(u, OUTSET, events);
    LateCounted(u, t);
    SourcedLate(u, t, index, fate);
  }

  lemma LateCounted(u: Setup, t: Trace)
    requires Sourced(u, t)
    ensures |t.lateCarried| == |t.w.late|
  {
  }

  lemma SourcedLate(u: Setup, t: Trace, index: nat, fate: Fate)
    requires Sound(u) && Sourced(u, t) && index < |t.w.late| == |t.lateCarried|
    ensures var (session, reply) := HandleDraft(u.cfg, u.next, t.w.session, t.w.late[index].req, fate);
            var held := t.ledger + t.lateCarried[index];
            && (reply.ok ==>
                  && DraftedOver(u, held, t.w.late[index].req, fate.noise, session.engine, reply)
                  && EdgeHolds(u, held, session.engine))
            && (fate.noise == Decodes && (forall c :: fate.chunks(c) == Encoded(Decodes)) ==>
                  (reply.ok <==> !Stale(t.w.session, t.w.late[index].req) && Follows(t.ledger, t.lateCarried[index])))
  {
    hide FeatsTraced, LatestCaptured, RequestsTraced, DraftedOver, PacketsOf, Stretch, EdgeHolds, HandleDraft, Follows;
    var req, s := t.w.late[index].req, t.lateCarried[index];
    if HandleDraft(u.cfg, u.next, t.w.session, req, fate).1.ok {
      AnsweredIsFresh(u, t.w.session, req, fate);
      DraftOnto(u, t.ledger, t.w.session, req, s, fate);
    }
    if !Stale(t.w.session, req) {
      DeliveryOnto(u, t.ledger, t.w.session, req, s, fate);
    }
  }

  // ----- shipping genuine packets -----

  // What prefill and request must carry to be genuine, given where packets came from.
  ghost predicate SamePackets(u: Setup, origin: map<nat, seq<int>>, tokens: seq<int>, lo: nat) {
    forall p: nat :: lo <= p < |tokens| ==> p in origin && PacketOf(u, origin[p]) == Genuine(u, tokens, p)
  }

  ghost predicate NoneMissed(missed: set<nat>, lo: nat, hi: nat) {
    forall p: nat :: lo <= p < hi ==> p !in missed
  }

  lemma SourcesAreGenuine(u: Setup, origin: map<nat, seq<int>>, tokens: seq<int>, lo: nat)
    requires lo <= |tokens| && forall p: nat :: lo <= p < |tokens| ==> p in origin
    ensures PacketsOf(u, Sources(origin, lo, |tokens|)) == GenuineRange(u, tokens, lo, |tokens|)
       <==> SamePackets(u, origin, tokens, lo)
  {
    hide PacketOf;
    var packets, range := PacketsOf(u, Sources(origin, lo, |tokens|)), GenuineRange(u, tokens, lo, |tokens|);
    forall p: nat | lo <= p < |tokens|
      ensures packets[p - lo] == PacketOf(u, origin[p]) && range[p - lo] == Genuine(u, tokens, p)
    {
    }
    if SamePackets(u, origin, tokens, lo) {
      assert forall i :: 0 <= i < |packets| ==> packets[i] == range[i];
    }
  }

  // A shipment is genuine exactly when each of its positions still has the packet of
  // the committed prefix.
  ghost predicate ShipsGenuineExactly(u: Setup, t: Trace, shipment: Server.Shipment) {
    var c := t.w.committed;
    var lo := if t.w.sender.prefilled && t.w.sender.nSent >= -1 then t.w.sender.nSent + 1 else |c|;
    && (shipment.prefill.Some? ==>
          (shipment.prefill.value == GenuineRange(u, c, 0, |c|) <==> SamePackets(u, t.origin, c, 0)))
    && (shipment.request.Some? && lo <= |c| ==>
          (shipment.request.value.accepted == GenuineRange(u, c, lo, |c|) <==> SamePackets(u, t.origin, c, lo)))
    && (shipment.request.Some? && lo > |c| ==> shipment.request.value.accepted == [])
  }

  // Over any run at all: whatever process() skipped or failed on, a draft ships for each
  // position the packet of the last decode of it that was captured. That is genuine
  // exactly when it equals the packet of the committed prefix, in particular when the
  // latest decode of every shipped position was captured.
  lemma ShipsLastCaptured(u: Setup, events: seq<Event>, idLast: int, reply: DraftReply)
    requires Sound(u) && AnyRun(u, START, events)
    ensures var t := Traced(u, OUTSET, events);
            && t.w == Reach(u, START, events)
            && t.w.sender.nSent >= -1
            && ShipsGenuineExactly(u, t, Ship(u, t.w, idLast, reply).1)
            && (forall lo: nat ::
                  NoneMissed(t.missed, lo, |t.w.committed|) ==> SamePackets(u, t.origin, t.w.committed, lo))
  {
    hide Sourced, Traced, Reach, AnyRun, ShipsGenuineExactly, Ship, SamePackets, NoneMissed;
    OutsetSourced(u);
    RunSourced(u, OUTSET, events);
    var t := Traced(u, OUTSET, events);
    SourcedUnsent(u, t);
    SourcedShipment(u, t, idLast, reply);
    forall lo: nat | NoneMissed(t.missed, lo, |t.w.committed|)
      ensures SamePackets(u, t.origin, t.w.committed, lo)
    {
      CapturedIsSame(u, t, lo);
    }
  }

  lemma SourcedUnsent(u: Setup, t: Trace)
    requires Sourced(u, t)
    ensures t.w.sender.nSent >= -1
  {
  }

  lemma CapturedIsSame(u: Setup, t: Trace, lo: nat)
    requires Sourced(u, t) && NoneMissed(t.missed, lo, |t.w.committed|)
    ensures SamePackets(u, t.origin, t.w.committed, lo)
  {
    hide FeatsTraced, RequestsTraced, LateTraced, EdgeHolds;
    var all := t.w.committed + t.w.pending;
    forall p: nat | lo <= p < |t.w.committed|
      ensures p in t.origin && PacketOf(u, t.origin[p]) == Genuine(u, t.w.committed, p)
    {
      assert all[..p + 1] == t.w.committed[..p + 1];
    }
  }

  lemma SourcedShipment(u: Setup, t: Trace, idLast: int, reply: DraftReply)
    requires Sound(u) && Sourced(u, t)
    ensures ShipsGenuineExactly(u, t, Ship(u, t.w, idLast, reply).1)
  {
    hide PacketsOf, Sources, Stretch, FeatsTraced, EdgeHolds, RequestsTraced, LateTraced, LatestCaptured, SamePackets,
      Server.Gather;
    hide GenuineRange;
    var c := t.w.committed;
    var lo := NextUnsent(t.w.sender, |c|);
    ShipmentTraced(u, t, idLast, reply);
    PresentOrMissing(u, t.w.sender.feats, t.origin, 0, |c|);
    PresentOrMissing(u, t.w.sender.feats, t.origin, lo, |c|);
    SourcesIfPresent(u, t.origin, c, 0);
    if lo <= |c| {
      SourcesIfPresent(u, t.origin, c, lo);
    } else {
      GatherEmpty(u, t.w.sender.feats, t.origin, lo, |c|);
    }
  }

  ghost predicate Present(origin: map<nat, seq<int>>, lo: nat, hi: nat) {
    forall p: nat :: lo <= p < hi ==> p in origin
  }

  lemma PresentOrMissing(u: Setup, feats: Server.Features, origin: map<nat, seq<int>>, lo: nat, hi: nat)
    requires FeatsTraced(u, feats, origin)
    ensures Server.Gather(feats, lo, hi - 1).Some? ==> Present(origin, lo, hi)
  {
    hide FeatsTraced, PacketsOf, Sources, Stretch;
    if lo <= hi && Server.Gather(feats, lo, hi - 1).Some? {
      GatherTraced(u, feats, origin, lo, hi);
    }
  }

  lemma SourcesIfPresent(u: Setup, origin: map<nat, seq<int>>, tokens: seq<int>, lo: nat)
    requires lo <= |tokens|
    ensures Present(origin, lo, |tokens|) ==>
              (PacketsOf(u, Sources(origin, lo, |tokens|)) == GenuineRange(u, tokens, lo, |tokens|)
               <==> SamePackets(u, origin, tokens, lo))
  {
    hide PacketsOf, Sources, SamePackets, GenuineRange;
    if Present(origin, lo, |tokens|) {
      SourcesAreGenuine(u, origin, tokens, lo);
    }
  }
}
