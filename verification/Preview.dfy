// What the preview shows over a run of the protocol.
module Preview {
  import opened Wire
  import opened DraftEngine
  import opened DraftService
  import opened Protocol
  import opened CacheAgreement
  import T = Transcript

  // What the service tells the renderer when an event of the protocol reaches it.
  ghost function Told(u: Setup, w: World, event: Event): seq<T.Event>
    requires u.cfg.ubatch > 0 && Possible(u, w, event)
  {
    match event
    case Begin(resets) => if resets then Events(u.cfg, u.next, w.session, ResetCall) else []
    case DraftStep(idLast, arrives, chunks, reply) =>
      var prefill := Ship(u, w, idLast, reply).1.prefill;
      if prefill.None? || !arrives then [] else Events(u.cfg, u.next, w.session, PrefillCall(prefill.value, chunks))
    case Deliver(index, fate) => Events(u.cfg, u.next, w.session, DraftCall(w.sent[index].req, fate))
    case DeliverLate(index, fate) => Events(u.cfg, u.next, w.session, DraftCall(w.late[index].req, fate))
    case _ => []
  }

  ghost function Shown(u: Setup, w: World, events: seq<Event>): seq<T.Event>
    requires u.cfg.ubatch > 0 && AnyRun(u, w, events)
    decreases |events|
  {
    if events == [] then []
    else Told(u, w, events[0]) + Shown(u, Step(u, w, events[0]), events[1..])
  }

  // ----- the confirmed text -----

  // How many tokens of the generation the daemon has been told of.
  function UpTo(w: World): nat {
    if w.sent == [] then 0
    else if 0 < w.session.lastStepId <= |w.sent| then w.sent[w.session.lastStepId - 1].nPast
    else w.sent[0].nPast
  }

  // Whether a delivery leaves out no packets: it is stale, or the next request, or the
  // second one with only the empty first one skipped.
  ghost predicate LeavesNoneOut(w: World, index: nat)
    requires index < |w.sent|
  {
    || Stale(w.session, w.sent[index].req)
    || index == w.session.lastStepId
    || (w.session.lastStepId == 0 && index == 1)
  }

  // Whether all deliveries since the last begin() left none out.
  ghost predicate WholeNow(w: World, event: Event, whole: bool) {
    match event
    case Begin(_) => true
    case Deliver(index, _) => whole && (index < |w.sent| ==> LeavesNoneOut(w, index))
    case _ => whole
  }

  ghost predicate Whole(u: Setup, w: World, events: seq<Event>, whole: bool)
    requires u.cfg.ubatch > 0 && AnyRun(u, w, events)
    decreases |events|
  {
    if events == [] then whole
    else Whole(u, Step(u, w, events[0]), events[1..], WholeNow(w, events[0], whole))
  }

  // The settled tokens are those of the generation up to the last request that ran, or
  // fewer.
  ghost predicate Tells(w: World, told: seq<T.Event>, whole: bool) {
    && UpTo(w) <= |w.generation|
    && (whole ==> T.Settled(told) == w.generation[..UpTo(w)])
    && (!whole ==> |T.Settled(told)| < UpTo(w))
  }

  lemma SettledOne(told: seq<T.Event>, e: T.Event)
    ensures T.Settled(told + [e])
         == if e.Cleared? then [] else if e.Drafted? then T.Settled(told) else T.Settled(told) + e.tokens
  {
    assert (told + [e])[..|told|] == told;
  }

  lemma TokensOfRange(u: Setup, tokens: seq<int>, lo: nat, hi: nat)
    requires lo <= hi <= |tokens|
    ensures Tokens(GenuineRange(u, tokens, lo, hi)) == tokens[lo..hi]
  {
    forall i | 0 <= i < hi - lo
      ensures Tokens(GenuineRange(u, tokens, lo, hi))[i] == tokens[lo + i]
    {
      assert GenuineRange(u, tokens, lo, hi)[i] == Genuine(u, tokens, lo + i);
    }
  }

  lemma BeginTells(u: Setup, w: World, told: seq<T.Event>, resets: bool)
    requires u.cfg.ubatch > 0 && Enabled(u, w, Begin(resets))
    ensures Tells(Step(u, w, Begin(resets)), told + Told(u, w, Begin(resets)), true)
  {
    SettledOne(told, T.Cleared);
  }

  lemma AcceptTells(u: Setup, w: World, told: seq<T.Event>, whole: bool, count: nat)
    requires u.cfg.ubatch > 0 && Agreement(u, w) && Enabled(u, w, Accept(count)) && Tells(w, told, whole)
    ensures Tells(Step(u, w, Accept(count)), told, whole)
  {
    hide Captured, EdgeAgrees, SentGenuine;
  }

  lemma CallSettles(u: Setup, s: SessionState, call: Call, told: seq<T.Event>)
    requires u.cfg.ubatch > 0
    ensures T.Settled(told + Events(u.cfg, u.next, s, call))
         == if call.ResetCall? then [] else T.Settled(told) + Taken(s, call)
  {
    hide T.Settled, HandleDraft;
    assert told + [] == told && T.Settled(told) + [] == T.Settled(told);
    match call
    case PrefillCall(tokens, _) =>
      if tokens == [] {
        assert Tokens(tokens) == [];
      } else {
        SettledOne(told, T.Accepted(Tokens(tokens)));
      }
    case DraftCall(req, fate) =>
      if !Stale(s, req) {
        var verdict := T.Verdict(Tokens(req.accepted));
        var drafted := T.Drafted(HandleDraft(u.cfg, u.next, s, req, fate).1.tokens);
        SettledOne(told, verdict);
        SettledOne(told + [verdict], drafted);
        assert told + [verdict, drafted] == told + [verdict] + [drafted];
      }
    case ResetCall =>
      SettledOne(told, T.Cleared);
  }

  // The tokens that a call brings to the preview.
  function Taken(s: SessionState, call: Call): seq<int> {
    match call
    case PrefillCall(tokens, _) => Tokens(tokens)
    case DraftCall(req, _) => if Stale(s, req) then [] else Tokens(req.accepted)
    case ResetCall => []
  }

  lemma SlicesJoin(tokens: seq<int>, lo: nat, hi: nat)
    requires lo <= hi <= |tokens|
    ensures tokens[..lo] + tokens[lo..hi] == tokens[..hi]
  {
  }

  lemma DraftStepTells(u: Setup, w: World, told: seq<T.Event>, whole: bool, event: Event)
    requires Sound(u) && Agreement(u, w) && event.DraftStep? && Enabled(u, w, event) && Tells(w, told, whole)
    ensures Tells(Step(u, w, event), told + Told(u, w, event), whole)
  {
    hide Captured, EdgeAgrees, SentGenuine, GenuineRange, Ship, Prefill, Events, T.Settled;
    var n := |w.committed|;
    assert w.committed <= w.committed + w.pending;
    CapturedPrefix(u, w.sender.feats, w.committed, w.committed + w.pending);
    ShipmentOf(u, w, event.idLast, event.reply);
    assert told + [] == told;
    if !w.sender.prefilled {
      CallSettles(u, w.session, PrefillCall(GenuineRange(u, w.committed, 0, n), event.chunks), told);
      TokensOfRange(u, w.committed, 0, n);
      SlicesJoin(w.committed, 0, n);
    }
  }

  lemma RequestCarries(u: Setup, w: World, index: nat)
    requires Agreement(u, w) && index < |w.sent|
    ensures var lo, hi := From(w.sent, index), w.sent[index].nPast;
            && lo <= hi <= |w.generation| && w.sent[index].req.stepId == index + 1
            && Tokens(w.sent[index].req.accepted) == w.generation[lo..hi]
  {
    hide Captured, EdgeAgrees, GuardAgrees, SenderAgrees, GenuineRange;
    TokensOfRange(u, w.generation, From(w.sent, index), w.sent[index].nPast);
  }

  lemma DeliverTells(u: Setup, w: World, told: seq<T.Event>, whole: bool, index: nat, fate: Fate)
    requires Sound(u) && Agreement(u, w) && index < |w.sent| && Tells(w, told, whole)
    ensures var events := Events(u.cfg, u.next, w.session, DraftCall(w.sent[index].req, fate));
            Tells(Delivered(u, w, index, fate), told + events, whole && LeavesNoneOut(w, index))
  {
    hide Agreement, Draft, Events, T.Settled;
    CallSettles(u, w.session, DraftCall(w.sent[index].req, fate), told);
    RequestCarries(u, w, index);
    if Stale(w.session, w.sent[index].req) {
      assert T.Settled(told) + [] == T.Settled(told);
    } else {
      Overtaken(u, w, index);
      if LeavesNoneOut(w, index) {
        SlicesJoin(w.generation, From(w.sent, index), w.sent[index].nPast);
      }
    }
  }

  // A fresh request starts at what the preview was told up to, or beyond it.
  lemma Overtaken(u: Setup, w: World, index: nat)
    requires Agreement(u, w) && index < |w.sent| && !Stale(w.session, w.sent[index].req)
    ensures UpTo(w) <= From(w.sent, index)
    ensures UpTo(w) == From(w.sent, index) <==> LeavesNoneOut(w, index)
  {
    StepIds(u, w.generation, w.sent, index);
    var last: nat := w.session.lastStepId;
    var a, b := if last == 0 then 0 else last - 1, if index == 0 then 0 else index - 1;
    assert last <= index && UpTo(w) == w.sent[a].nPast && From(w.sent, index) == w.sent[b].nPast;
    SentGrowing(u, w.generation, w.sent, a, b);
  }

  lemma EventTells(u: Setup, w: World, told: seq<T.Event>, whole: bool, event: Event)
    requires Sound(u) && Agreement(u, w) && Enabled(u, w, event) && Tells(w, told, whole)
    ensures Tells(Step(u, w, event), told + Told(u, w, event), WholeNow(w, event, whole))
  {
    NeverLate(u, w, event);
    hide Agreement, Possible, Relied, Tells, LeavesNoneOut;
    match event
    case Begin(resets) =>
      BeginTells(u, w, told, resets);
    case DraftStep(_, _, _, _) =>
      DraftStepTells(u, w, told, whole, event);
    case Deliver(index, fate) =>
      InRange(u, w, event);
      DeliverTells(u, w, told, whole, index, fate);
    case Accept(count) =>
      AcceptTells(u, w, told, whole, count);
      assert told + [] == told;
    case DeliverLate(_, _) =>
    case _ =>
      SameGeneration(u, w, told, whole, event);
      assert told + [] == told;
  }

  lemma InRange(u: Setup, w: World, event: Event)
    requires u.cfg.ubatch > 0 && event.Deliver? && Enabled(u, w, event)
    ensures event.index < |w.sent|
  {
  }

  lemma SameGeneration(u: Setup, w: World, told: seq<T.Event>, whole: bool, event: Event)
    requires u.cfg.ubatch > 0 && Enabled(u, w, event) && Tells(w, told, whole) && (event.Decode? || event.NewPrompt?)
    ensures Tells(Step(u, w, event), told, whole)
  {
  }

  lemma {:induction false} RunTells(u: Setup, w: World, told: seq<T.Event>, whole: bool, events: seq<Event>)
    requires Sound(u) && Agreement(u, w) && Run(u, w, events) && Tells(w, told, whole)
    ensures Tells(Reach(u, w, events), told + Shown(u, w, events), Whole(u, w, events, whole))
    decreases |events|
  {
    hide Agreement, Possible, Relied, Tells, WholeNow, Step, Told;
    if events == [] {
      assert told + [] == told;
    } else {
      var step := Told(u, w, events[0]);
      EventTells(u, w, told, whole, events[0]);
      EventAgrees(u, w, events[0]);
      RunTells(u, Step(u, w, events[0]), told + step, WholeNow(w, events[0], whole), events[1..]);
      var rest := Shown(u, Step(u, w, events[0]), events[1..]);
      assert (told + step) + rest == told + (step + rest);
    }
  }

  // Over every run: the settled tokens are the server's tokens up to the last request
  // that ran exactly when no delivery since the last begin() overtook packets that had
  // not arrived; otherwise some are missing. The confirmed text spells them out,
  // whatever was drafted, accepted or rejected, however llama failed, and whatever was
  // delivered twice or was lost in an earlier generation.
  lemma PreviewShowsCommitted(u: Setup, vocab: T.Vocab, events: seq<Event>)
    requires Sound(u) && Run(u, START, events)
    ensures var w := Reach(u, START, events);
            var settled := T.Settled(Shown(u, START, events));
            && UpTo(w) <= |w.generation|
            && (settled == w.generation[..UpTo(w)] <==> Whole(u, START, events, true))
            && (settled != w.generation[..UpTo(w)] ==> |settled| < UpTo(w))
            && T.ConfirmedText(T.HandleAll(vocab, T.BLANK, Shown(u, START, events)).transcript)
                 == T.Detokenize(vocab, settled)
  {
    hide Agreement, Whole, Shown, AnyRun, AllRelied, Reach;
    StartAgrees(u);
    RunTells(u, START, [], true, events);
    assert [] + Shown(u, START, events) == Shown(u, START, events);
    T.TranscriptConservation(vocab, Shown(u, START, events));
  }

  // ----- the pending region -----

  // Before the first request of a generation nothing is pending.
  ghost predicate Orderly(vocab: T.Vocab, w: World, screen: T.Screen) {
    T.PendingShown(vocab, screen) && (w.sent == [] ==> screen.pending == [])
  }

  lemma EventOrderly(u: Setup, vocab: T.Vocab, w: World, screen: T.Screen, event: Event)
    requires Sound(u) && Agreement(u, w) && Enabled(u, w, event) && Orderly(vocab, w, screen)
    ensures Orderly(vocab, Step(u, w, event), T.HandleAll(vocab, screen, Told(u, w, event)))
  {
    hide Captured, EdgeAgrees, SentGenuine, GenuineRange, Ship, Prefill, Draft, T.PendingShown, T.Handle;
    T.HandleFew(vocab, screen, T.Cleared, T.Cleared);
    match event
    case Begin(_) =>
      T.BlankShowsPending(vocab, screen);
    case DraftStep(idLast, arrives, chunks, reply) =>
      assert w.committed <= w.committed + w.pending;
      CapturedPrefix(u, w.sender.feats, w.committed, w.committed + w.pending);
      ShipmentOf(u, w, idLast, reply);
      if !w.sender.prefilled {
        T.EmissionKeepsPending(vocab, screen, T.ForPrefill(Tokens(Ship(u, w, idLast, reply).1.prefill.value)));
      }
    case Deliver(index, fate) =>
      if !Stale(w.session, w.sent[index].req) {
        var drafted := HandleDraft(u.cfg, u.next, w.session, w.sent[index].req, fate).1.tokens;
        T.EmissionKeepsPending(vocab, screen, T.ForDraft(Tokens(w.sent[index].req.accepted), drafted));
      }
    case _ =>
  }

  lemma {:induction false} HandleParts(vocab: T.Vocab, screen: T.Screen, a: seq<T.Event>, b: seq<T.Event>)
    ensures T.HandleAll(vocab, screen, a + b) == T.HandleAll(vocab, T.HandleAll(vocab, screen, a), b)
    decreases |a|
  {
    hide T.Handle;
    if a == [] {
      assert a + b == b;
    } else {
      assert (a + b)[1..] == a[1..] + b;
      HandleParts(vocab, T.Handle(vocab, screen, a[0]), a[1..], b);
    }
  }

  lemma {:induction false} RunOrderly(u: Setup, vocab: T.Vocab, w: World, screen: T.Screen, events: seq<Event>)
    requires Sound(u) && Agreement(u, w) && Run(u, w, events) && Orderly(vocab, w, screen)
    ensures Orderly(vocab, Reach(u, w, events), T.HandleAll(vocab, screen, Shown(u, w, events)))
    decreases |events|
  {
    hide Agreement, Possible, Relied, Orderly, Step, Told, T.Handle;
    if events == [] {
    } else {
      var step := Told(u, w, events[0]);
      EventOrderly(u, vocab, w, screen, events[0]);
      EventAgrees(u, w, events[0]);
      RunOrderly(u, vocab, Step(u, w, events[0]), T.HandleAll(vocab, screen, step), events[1..]);
      HandleParts(vocab, screen, step, Shown(u, Step(u, w, events[0]), events[1..]));
    }
  }

  // Over every run, in order or not, at most one region of the preview is pending, the
  // last one, and it shows the pending tokens: the protocol never puts a prefill
  // between a draft and its verdict.
  lemma PreviewStaysOrderly(u: Setup, vocab: T.Vocab, events: seq<Event>)
    requires Sound(u) && Run(u, START, events)
    ensures T.PendingShown(vocab, T.HandleAll(vocab, T.BLANK, Shown(u, START, events)))
  {
    hide Agreement, Shown, AnyRun, AllRelied, Reach;
    StartAgrees(u);
    RunOrderly(u, vocab, START, T.BLANK, events);
  }

  // ----- the pending tokens -----

  // Which tokens are pending once a call has been handled.
  function PendingAfter(u: Setup, s: SessionState, call: Call, pending: seq<int>): seq<int>
    requires u.cfg.ubatch > 0
  {
    match call
    case PrefillCall(_, _) => pending
    case DraftCall(req, fate) =>
      if req.stepId <= s.lastStepId then pending else HandleDraft(u.cfg, u.next, s, req, fate).1.tokens
    case ResetCall => []
  }

  ghost function PendingNow(u: Setup, w: World, event: Event, pending: seq<int>): seq<int>
    requires u.cfg.ubatch > 0 && Possible(u, w, event)
  {
    match event
    case Begin(resets) => if resets then [] else pending
    case Deliver(index, fate) => PendingAfter(u, w.session, DraftCall(w.sent[index].req, fate), pending)
    case DeliverLate(index, fate) => PendingAfter(u, w.session, DraftCall(w.late[index].req, fate), pending)
    case _ => pending
  }

  ghost function LastDrafted(u: Setup, w: World, events: seq<Event>, pending: seq<int>): seq<int>
    requires u.cfg.ubatch > 0 && AnyRun(u, w, events)
    decreases |events|
  {
    if events == [] then pending
    else LastDrafted(u, Step(u, w, events[0]), events[1..], PendingNow(u, w, events[0], pending))
  }

  lemma CallLeavesPending(u: Setup, vocab: T.Vocab, screen: T.Screen, s: SessionState, call: Call)
    requires u.cfg.ubatch > 0
    ensures T.HandleAll(vocab, screen, Events(u.cfg, u.next, s, call)).pending
         == PendingAfter(u, s, call, screen.pending)
  {
    hide T.Handle, T.HandleAll, HandleDraft;
    CallAnnounces(u.cfg, u.next, s, call);
    match call
    case PrefillCall(tokens, _) =>
      T.HandleFew(vocab, screen, T.Accepted(Tokens(tokens)), T.Cleared);
      HandleLeavesPending(vocab, screen, T.Accepted(Tokens(tokens)));
    case DraftCall(req, fate) =>
      var verdict := T.Verdict(Tokens(req.accepted));
      var drafted := T.Drafted(HandleDraft(u.cfg, u.next, s, req, fate).1.tokens);
      T.HandleFew(vocab, screen, verdict, drafted);
      HandleLeavesPending(vocab, screen, verdict);
      HandleLeavesPending(vocab, T.Handle(vocab, screen, verdict), drafted);
    case ResetCall =>
      T.HandleFew(vocab, screen, T.Cleared, T.Cleared);
      HandleLeavesPending(vocab, screen, T.Cleared);
  }

  lemma HandleLeavesPending(vocab: T.Vocab, screen: T.Screen, event: T.Event)
    ensures T.Handle(vocab, screen, event).pending ==
      match event
      case Accepted(_) => screen.pending
      case Drafted(tokens) => if tokens == [] then screen.pending else tokens
      case Verdict(_) => []
      case Cleared => []
  {
  }

  lemma EventPending(u: Setup, vocab: T.Vocab, w: World, screen: T.Screen, event: Event)
    requires u.cfg.ubatch > 0 && Possible(u, w, event)
    ensures T.HandleAll(vocab, screen, Told(u, w, event)).pending == PendingNow(u, w, event, screen.pending)
  {
    hide T.Handle, Events, HandleDraft, Ship;
    match event
    case Begin(resets) =>
      CallLeavesPending(u, vocab, screen, w.session, ResetCall);
    case DraftStep(idLast, _, chunks, reply) =>
      var prefill := Ship(u, w, idLast, reply).1.prefill;
      if prefill.Some? {
        CallLeavesPending(u, vocab, screen, w.session, PrefillCall(prefill.value, chunks));
      }
    case Deliver(index, fate) => CallLeavesPending(u, vocab, screen, w.session, DraftCall(w.sent[index].req, fate));
    case DeliverLate(index, fate) => CallLeavesPending(u, vocab, screen, w.session, DraftCall(w.late[index].req, fate));
    case _ =>
  }

  lemma {:induction false} RunPending(u: Setup, vocab: T.Vocab, w: World, screen: T.Screen, events: seq<Event>)
    requires u.cfg.ubatch > 0 && AnyRun(u, w, events)
    ensures T.HandleAll(vocab, screen, Shown(u, w, events)).pending == LastDrafted(u, w, events, screen.pending)
    decreases |events|
  {
    hide Possible, Step, Told, PendingNow, T.Handle;
    if events == [] {
    } else {
      var step := Told(u, w, events[0]);
      EventPending(u, vocab, w, screen, events[0]);
      RunPending(u, vocab, Step(u, w, events[0]), T.HandleAll(vocab, screen, step), events[1..]);
      HandleParts(vocab, screen, step, Shown(u, Step(u, w, events[0]), events[1..]));
    }
  }

  // Over any run at all: the pending tokens are those that the last Draft which ran was
  // answered, none since a reset. While the run is one that PreviewStaysOrderly covers,
  // they are what its pending region shows.
  lemma PreviewShowsLastDraft(u: Setup, vocab: T.Vocab, events: seq<Event>)
    requires Sound(u) && AnyRun(u, START, events)
    ensures var screen := T.HandleAll(vocab, T.BLANK, Shown(u, START, events));
            var drafted := LastDrafted(u, START, events, []);
            && screen.pending == drafted
            && (Run(u, START, events) && drafted != [] ==>
                  && screen.transcript != []
                  && screen.transcript[|screen.transcript| - 1] == T.Region(T.Detokenize(vocab, drafted), T.Pending))
  {
    hide AnyRun, Shown, LastDrafted, AllRelied;
    RunPending(u, vocab, START, T.BLANK, events);
    if Run(u, START, events) {
      PreviewStaysOrderly(u, vocab, events);
    }
  }
}
