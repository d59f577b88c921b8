// What becomes of the agreement when messages are lost or their results ignored.
module LostMessages {
  import opened Bf16
  import opened Wire
  import opened DraftEngine
  import opened CacheCleanup
  import opened DraftService
  import opened Protocol
  import opened CacheAgreement
  import Server = RemoteSender

  // ----- a lost shipment -----

  // The edge ran past a request whose packets it does not hold.
  ghost predicate Stuck(w: World) {
    0 < w.session.lastStepId <= |w.sent| && Held(w.session) < w.sent[w.session.lastStepId - 1].nPast
  }

  // A fresh delivery leaves the edge stuck exactly when its packets did not go in.
  lemma FailedShipmentSticks(u: Setup, w: World, index: nat, fate: Fate)
    requires Sound(u) && Agreement(u, w) && index < |w.sent| && !Stale(w.session, w.sent[index].req)
    ensures var t := TakeAccepted(u.cfg, DropTransient(w.session.engine), w.sent[index].req.accepted, fate.chunks);
            Stuck(Delivered(u, w, index, fate)) <==> !t.1
  {
    hide MaxPos, Span, SeqRm, Inject, TakeAccepted, GenuineRange, GenuineCell, Tidy, Draft, Captured, SentGenuine;
    FreshDelivery(u, w, index, fate);
    StepIds(u, w.generation, w.sent, index);
    SentGrowing(u, w.generation, w.sent, 0, index);
    if w.session.lastStepId > 0 {
      SentGrowing(u, w.generation, w.sent, w.session.lastStepId - 1, index);
    }
  }

  // So does running a request while an earlier non-empty shipment has not arrived.
  lemma SkippedShipmentSticks(u: Setup, w: World, lost: nat, index: nat, fate: Fate)
    requires Sound(u) && Agreement(u, w) && 0 < lost < index < |w.sent|
    requires !Stale(w.session, w.sent[lost].req)
    ensures Stuck(Delivered(u, w, index, fate))
    ensures !HandleDraft(u.cfg, u.next, w.session, w.sent[index].req, fate).1.ok
  {
    hide MaxPos, Span, SeqRm, Inject, TakeAccepted, GenuineRange, GenuineCell, Tidy, DraftBlock, Captured, SentGenuine;
    StepIds(u, w.generation, w.sent, lost);
    StepIds(u, w.generation, w.sent, index);
    FreshDelivery(u, w, index, fate);
    FailedShipmentSticks(u, w, index, fate);
    SentGrowing(u, w.generation, w.sent, lost, index - 1);
    SentGrowing(u, w.generation, w.sent, 0, lost);
    if w.session.lastStepId > 0 {
      SentGrowing(u, w.generation, w.sent, w.session.lastStepId - 1, lost);
    }
  }

  // Nothing short of the next begin() gets a stuck edge going: every delivery fails
  // and leaves it stuck.
  lemma StuckStays(u: Setup, w: World, event: Event)
    requires Sound(u) && Agreement(u, w) && Enabled(u, w, event) && !event.Begin? && Stuck(w)
    ensures Stuck(Step(u, w, event))
    ensures event.Deliver? ==> !HandleDraft(u.cfg, u.next, w.session, w.sent[event.index].req, event.fate).1.ok
  {
    hide MaxPos, Span, SeqRm, Inject, TakeAccepted, GenuineRange, GenuineCell, Tidy, DraftBlock, Captured, SentGenuine,
      EdgeAgrees, Prefill, Ship;
    match event
    case Deliver(index, fate) =>
      StepIds(u, w.generation, w.sent, index);
      if !Stale(w.session, w.sent[index].req) {
        FreshDelivery(u, w, index, fate);
        FailedShipmentSticks(u, w, index, fate);
        SentGrowing(u, w.generation, w.sent, w.session.lastStepId - 1, index - 1);
      }
    case DraftStep(idLast, _, chunks, reply) =>
      assert w.committed <= w.committed + w.pending;
      CapturedPrefix(u, w.sender.feats, w.committed, w.committed + w.pending);
      ShipmentOf(u, w, idLast, reply);
    case _ =>
  }

  lemma {:induction false} StuckUntilBegin(u: Setup, w: World, events: seq<Event>)
    requires Sound(u) && Agreement(u, w) && Run(u, w, events) && Stuck(w)
    requires forall i :: 0 <= i < |events| ==> !events[i].Begin?
    ensures Agreement(u, Reach(u, w, events)) && Stuck(Reach(u, w, events))
    decreases |events|
  {
    hide Agreement, Possible, Relied, Step, Stuck;
    if events == [] {
    } else {
      EventAgrees(u, w, events[0]);
      StuckStays(u, w, events[0]);
      StuckUntilBegin(u, Step(u, w, events[0]), events[1..]);
    }
  }

  // The packets of a request have not gone in: it never ran, or its injection failed.
  // (Request 0 carries none: they went with the prefill.)
  ghost predicate Missing(w: World, lost: nat) {
    lost < |w.sent| && Held(w.session) < w.sent[lost].nPast
  }

  // Over every run, while a request's packets are missing every later request fails,
  // and the first of those to run passes the missing one by.
  lemma MissingFailsLater(u: Setup, events: seq<Event>, lost: nat, index: nat, fate: Fate)
    requires Sound(u) && Run(u, START, events)
    requires var w := Reach(u, START, events); Missing(w, lost) && lost < index < |w.sent|
    ensures var w := Reach(u, START, events);
            var after := Delivered(u, w, index, fate);
            && !HandleDraft(u.cfg, u.next, w.session, w.sent[index].req, fate).1.ok
            && (!Stale(w.session, w.sent[index].req) ==> Missing(after, lost) && lost < after.session.lastStepId)
  {
    hide Agreement, Missing, Delivered, AnyRun, AllRelied, Reach, HandleDraft;
    StartAgrees(u);
    RunAgrees(u, START, events);
    AgreedMissing(u, Reach(u, START, events), lost, index, fate);
  }

  lemma AgreedMissing(u: Setup, w: World, lost: nat, index: nat, fate: Fate)
    requires Sound(u) && Agreement(u, w) && Missing(w, lost) && lost < index < |w.sent|
    ensures var after := Delivered(u, w, index, fate);
            && !HandleDraft(u.cfg, u.next, w.session, w.sent[index].req, fate).1.ok
            && (!Stale(w.session, w.sent[index].req) ==> Missing(after, lost) && lost < after.session.lastStepId)
  {
    hide MaxPos, Span, SeqRm, Inject, TakeAccepted, GenuineRange, GenuineCell, Tidy, DraftBlock, Captured, SentGenuine,
      EdgeAgrees;
    if !Stale(w.session, w.sent[index].req) {
      FreshDelivery(u, w, index, fate);
      SentGrowing(u, w.generation, w.sent, lost, index - 1);
    }
  }

  // From then on, until the next begin(), no Draft of the generation is answered ok:
  // the edge never drafts over the gap.
  lemma GapNeverCloses(
    u: Setup, events: seq<Event>, more: seq<Event>, lost: nat, index: nat, fate: Fate)
    requires Sound(u) && Run(u, START, events) && Run(u, Reach(u, START, events), more)
    requires var w := Reach(u, START, events); Missing(w, lost) && lost < w.session.lastStepId
    requires forall i :: 0 <= i < |more| ==> !more[i].Begin?
    requires index < |Reach(u, Reach(u, START, events), more).sent|
    ensures var w := Reach(u, Reach(u, START, events), more);
            !HandleDraft(u.cfg, u.next, w.session, w.sent[index].req, fate).1.ok
  {
    hide Agreement, Missing, AnyRun, AllRelied, Reach, HandleDraft, Stuck;
    StartAgrees(u);
    RunAgrees(u, START, events);
    var w := Reach(u, START, events);
    PassedIsStuck(u, w, lost);
    StuckUntilBegin(u, w, more);
    StuckFails(u, Reach(u, w, more), index, fate);
  }

  lemma PassedIsStuck(u: Setup, w: World, lost: nat)
    requires Agreement(u, w) && Missing(w, lost) && lost < w.session.lastStepId
    ensures Stuck(w)
  {
    hide Captured, EdgeAgrees, SentGenuine, GenuineRange;
    SentGrowing(u, w.generation, w.sent, lost, w.session.lastStepId - 1);
  }

  lemma StuckFails(u: Setup, w: World, index: nat, fate: Fate)
    requires Sound(u) && Agreement(u, w) && Stuck(w) && index < |w.sent|
    ensures !HandleDraft(u.cfg, u.next, w.session, w.sent[index].req, fate).1.ok
  {
    hide Agreement, Stuck, HandleDraft, Step;
    StuckStays(u, w, Deliver(index, fate));
  }

  // When llama does not fail, a request is answered ok exactly when it is fresh and
  // starts where the edge stopped: requests that arrive in order are all answered.
  lemma AnsweredExactlyInOrder(u: Setup, events: seq<Event>, index: nat, fate: Fate)
    requires Sound(u) && Run(u, START, events) && index < |Reach(u, START, events).sent|
    requires fate.noise == Decodes && forall c :: fate.chunks(c) == Encoded(Decodes)
    ensures var w := Reach(u, START, events);
            HandleDraft(u.cfg, u.next, w.session, w.sent[index].req, fate).1.ok
            <==> !Stale(w.session, w.sent[index].req) && Held(w.session) == From(w.sent, index)
  {
    hide Agreement, HandleDraft, Held, Stale;
    StartAgrees(u);
    RunAgrees(u, START, events);
    AgreedAnswer(u, Reach(u, START, events), index, fate);
  }

  lemma AgreedAnswer(u: Setup, w: World, index: nat, fate: Fate)
    requires Sound(u) && Agreement(u, w) && index < |w.sent|
    requires fate.noise == Decodes && forall c :: fate.chunks(c) == Encoded(Decodes)
    ensures HandleDraft(u.cfg, u.next, w.session, w.sent[index].req, fate).1.ok
            <==> !Stale(w.session, w.sent[index].req) && Held(w.session) == From(w.sent, index)
  {
    hide MaxPos, Span, SeqRm, Inject, TakeAccepted, DropTransient, GenuineRange, GenuineCell, Tidy, Captured,
      SenderAgrees, DraftBlock;
    var s := w.sent[index];
    if !Stale(w.session, s.req) {
      FreshDelivery(u, w, index, fate);
      var t := TakeAccepted(u.cfg, DropTransient(w.session.engine), s.req.accepted, fate.chunks);
      if t.1 {
        NoiseStaysAbove(u.cfg, u.next, t.0, s.req, fate.noise);
      }
      if index > 0 {
        HeldPositive(u, w, 0);
        SentNext(u, w.generation, w.sent, index);
        EmptyEdgeTakesAnything(u, w.generation, w.session, From(w.sent, index), s.nPast, fate.chunks);
      }
    }
  }

  // A new generation whose first request, delivered, is answered ok.
  ghost predicate StartsAfresh(u: Setup, w: World, idLast: int, chunks: ChunkFates, reply: DraftReply, fate: Fate)
    requires u.cfg.ubatch > 0 && w.committed != []
  {
    var begun := Step(u, w, Begin(true));
    Enabled(u, begun, DraftStep(idLast, true, chunks, reply)) &&
    var drafted := Step(u, begun, DraftStep(idLast, true, chunks, reply));
    |drafted.sent| == 1 && HandleDraft(u.cfg, u.next, drafted.session, drafted.sent[0].req, fate).1.ok
  }

  // begin() gets any edge going again, over every run: with llama not failing, the
  // prefill of the new generation goes in and its first request is answered ok.
  lemma BeginRecovers(u: Setup, events: seq<Event>, idLast: int, chunks: ChunkFates, reply: DraftReply, fate: Fate)
    requires Sound(u) && Run(u, START, events) && Reach(u, START, events).committed != []
    requires forall c :: chunks(c) == Encoded(Decodes)
    requires fate.noise == Decodes && forall c :: fate.chunks(c) == Encoded(Decodes)
    ensures StartsAfresh(u, Reach(u, START, events), idLast, chunks, reply, fate)
  {
    hide Agreement, StartsAfresh, Reach, AnyRun, AllRelied;
    StartAgrees(u);
    RunAgrees(u, START, events);
    AgreedBegin(u, Reach(u, START, events), idLast, chunks, reply, fate);
  }

  lemma AgreedBegin(u: Setup, w: World, idLast: int, chunks: ChunkFates, reply: DraftReply, fate: Fate)
    requires Sound(u) && Agreement(u, w) && w.committed != []
    requires forall c :: chunks(c) == Encoded(Decodes)
    requires fate.noise == Decodes && forall c :: fate.chunks(c) == Encoded(Decodes)
    ensures StartsAfresh(u, w, idLast, chunks, reply, fate)
  {
    hide Captured, EdgeAgrees, SentGenuine, GuardAgrees, GenuineRange, Ship, Prefill, HandleDraft, GenuineCell, Draft;
    var begun := Step(u, w, Begin(true));
    var event := DraftStep(idLast, true, chunks, reply);
    EventAgrees(u, w, Begin(true));
    assert begun.committed + begun.pending == begun.committed;
    ShipmentOf(u, begun, idLast, reply);
    PromptGoesIn(u, begun.committed, chunks);
    EventAgrees(u, begun, event);
    FirstIsFresh(u, Step(u, begun, event));
    AgreedAnswer(u, Step(u, begun, event), 0, fate);
  }

  lemma PromptGoesIn(u: Setup, tokens: seq<int>, chunks: ChunkFates)
    requires Sound(u) && forall c :: chunks(c) == Encoded(Decodes)
    ensures Prefill(u.cfg, FRESH, GenuineRange(u, tokens, 0, |tokens|), chunks).1.ok
  {
    hide Inject, GenuineRange, GenuineCell;
    GenuineShips(u, tokens, 0, |tokens|);
    GenuineAllUnpack(u, tokens, 0, |tokens|);
    FaultlessInjection(u.cfg, map[], GenuineRange(u, tokens, 0, |tokens|), GenuineCell(u, tokens), 0, chunks, 0);
  }

  lemma FirstIsFresh(u: Setup, w: World)
    requires Agreement(u, w) && w.sent != [] && w.session.lastStepId == 0
    ensures !Stale(w.session, w.sent[0].req) && Held(w.session) == From(w.sent, 0)
  {
    hide Captured, EdgeAgrees, GenuineRange;
  }

  // ----- where the code relies on its callers -----

  // The server ignores the prefill's result. The generation's first Draft, which
  // carries no packets, is answered ok even when the prefill failed; its block sits
  // at n_past exactly when the prefill went in.
  lemma PrefillDecidesPlace(u: Setup, tokens: seq<int>, chunks: ChunkFates, req: DraftRequest, fate: Fate)
    requires Sound(u) && tokens != [] && req.stepId == 1 && req.accepted == [] && fate.noise == Decodes
    ensures var call := PrefillCall(GenuineRange(u, tokens, 0, |tokens|), chunks);
            var (session, reply) := Handle(u.cfg, u.next, NEW_SESSION, call);
            && HandleDraft(u.cfg, u.next, session, req, fate).1.ok
            && (MaxPos(DropTransient(session.engine).cache) + 1 == |tokens| <==> reply.prefill.ok)
            && (!reply.prefill.ok ==> MaxPos(DropTransient(session.engine).cache) + 1 == 0)
  {
    hide MaxPos, Span, SeqRm, Inject, GenuineRange, GenuineCell, Tidy, DraftBlock, EdgeAgrees;
    var range := GenuineRange(u, tokens, 0, |tokens|);
    var session := Handle(u.cfg, u.next, NEW_SESSION, PrefillCall(range, chunks)).0;
    if Prefill(u.cfg, FRESH, range, chunks).1.ok {
      PrefillAgrees(u, tokens, chunks);
    } else {
      FailedPrefillAgrees(u, tokens, chunks);
    }
    DropTransientClears(u, tokens, session);
    EmptyShipmentGoesIn(u.cfg, DropTransient(session.engine), req.accepted, fate.chunks);
    NoiseStaysAbove(u.cfg, u.next, DropTransient(session.engine), req, fate.noise);
  }

  lemma FailedPrefillAgrees(u: Setup, tokens: seq<int>, chunks: ChunkFates)
    requires Sound(u) && tokens != []
    requires !Prefill(u.cfg, FRESH, GenuineRange(u, tokens, 0, |tokens|), chunks).1.ok
    ensures var call := PrefillCall(GenuineRange(u, tokens, 0, |tokens|), chunks);
            var session := Handle(u.cfg, u.next, NEW_SESSION, call).0;
            EdgeAgrees(u, tokens, session) && Held(session) == 0 && session.lastStepId == 0
  {
    hide MaxPos, Span, Inject, GenuineRange, Tidy;
    GenuineShips(u, tokens, 0, |tokens|);
    ShipmentDropped(u.cfg, FRESH, GenuineRange(u, tokens, 0, |tokens|), GenuineCell(u, tokens), 0, chunks);
    SpanIsEmpty(GenuineCell(u, tokens), 0);
  }

  // The server ignores the reset's result too. Its step ids restart at 1 all the
  // same, so with the reset lost request k is refused exactly while k is not above
  // the guard left from the generation before.
  lemma LostResetRefusesFresh(u: Setup, w: World, idLast: int, reply: DraftReply, fate: Fate)
    requires u.cfg.ubatch > 0 && w.sender.nSent >= -1
    requires Ship(u, w, idLast, reply).1.request.Some?
    ensures var request := Ship(u, w, idLast, reply).1.request.value;
            && request.stepId == w.sender.stepId + 1
            && (HandleDraft(u.cfg, u.next, w.session, request, fate) == (w.session, STALE)
                <==> w.sender.stepId + 1 <= w.session.lastStepId)
  {
    hide Server.Gather, Draft;
    var request := Ship(u, w, idLast, reply).1.request.value;
    assert HandleDraft(u.cfg, u.next, w.session, request, fate) == (w.session, STALE) ==>
      HandleDraft(u.cfg, u.next, w.session, request, fate).0.lastStepId == w.session.lastStepId;
  }

  // When llama never fails, a shipment goes into an agreeing edge if it continues
  // what the edge holds, or if the edge holds nothing; only the former keeps the
  // caches in step. This is why the first prompt must not be empty: with nothing
  // prefilled, the shipment after a lost one lands beyond a gap.
  lemma EmptyEdgeTakesAnything(u: Setup, tokens: seq<int>, session: SessionState, lo: nat, hi: nat, fates: ChunkFates)
    requires Sound(u) && EdgeAgrees(u, tokens, session) && lo < hi <= |tokens|
    requires forall c :: fates(c) == Encoded(Decodes)
    ensures var t := TakeAccepted(u.cfg, DropTransient(session.engine), GenuineRange(u, tokens, lo, hi), fates);
            && (t.1 <==> Held(session) == 0 || Held(session) == lo)
            && (t.1 ==> (EdgeAgrees(u, tokens, SessionState(t.0, 0)) <==> Held(session) == lo))
  {
    hide MaxPos, Span, SeqRm, Inject, TakeAccepted, GenuineRange, GenuineCell, Tidy, DropTransient, EdgeAgrees;
    var e, cells, range := DropTransient(session.engine), GenuineCell(u, tokens), GenuineRange(u, tokens, lo, hi);
    DropTransientClears(u, tokens, session);
    GenuineShips(u, tokens, lo, hi);
    GenuineAllUnpack(u, tokens, lo, hi);
    SpanIsEmpty(cells, Held(session));
    FaultlessInjection(u.cfg, e.cache, range, cells, lo, fates, 0);
    TakesWhatGoesIn(u.cfg, e, range, fates);
    LastOfRange(u, tokens, lo, hi);
    if Held(session) > 0 {
      ShipmentAtEdge(u, tokens, session, lo, hi, fates);
      if TakeAccepted(u.cfg, e, range, fates).1 {
        AgreesNow(u, tokens, SessionState(TakeAccepted(u.cfg, e, range, fates).0, 0), hi);
      }
    } else {
      ShipmentTaken(u.cfg, e, range, cells, lo, fates);
      JustSpan(Span(cells, lo, hi));
      LandsBeyondGap(u, tokens, SessionState(TakeAccepted(u.cfg, e, range, fates).0, 0), lo, hi);
    }
  }

  lemma TakesWhatGoesIn(cfg: Config, e: EngineState, tokens: seq<Packet>, fates: ChunkFates)
    requires cfg.ubatch > 0
    ensures TakeAccepted(cfg, e, tokens, fates).1 == Inject(cfg, e.cache, tokens, fates, 0).1
  {
  }

  lemma GenuineAllUnpack(u: Setup, tokens: seq<int>, lo: nat, hi: nat)
    requires Sound(u) && lo <= hi <= |tokens|
    ensures forall i :: 0 <= i < hi - lo ==> Unpackable(u.cfg, GenuineRange(u, tokens, lo, hi)[i])
  {
    forall i | 0 <= i < hi - lo
      ensures Unpackable(u.cfg, GenuineRange(u, tokens, lo, hi)[i])
    {
      GenuineUnpacks(u, tokens, lo + i);
    }
  }

  lemma AgreesNow(u: Setup, tokens: seq<int>, session: SessionState, held: nat)
    requires 0 < held <= |tokens| && Held(session) == held && session.engine.lastToken == tokens[held - 1]
    requires Tidy(session.engine, Span(GenuineCell(u, tokens), 0, held))
    ensures EdgeAgrees(u, tokens, session)
  {
  }

  lemma LandsBeyondGap(u: Setup, tokens: seq<int>, session: SessionState, lo: nat, hi: nat)
    requires lo < hi <= |tokens| && NoTransient(session.engine) && Held(session) == hi
    requires session.engine.cache == Span(GenuineCell(u, tokens), lo, hi) && session.engine.lastToken == tokens[hi - 1]
    ensures EdgeAgrees(u, tokens, session) <==> lo == 0
  {
    hide MaxPos, Span;
    CleanIsTidy(session.engine);
    if lo > 0 {
      SpanKeys(GenuineCell(u, tokens), 0, hi, 0);
      SpanKeys(GenuineCell(u, tokens), lo, hi, 0);
    }
  }
}
