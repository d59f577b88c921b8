// The session service: one engine and one replay guard a session.
module DraftService {
  import opened Wire
  import opened DraftEngine
  import Transcript

  datatype SessionState = SessionState(engine: EngineState, lastStepId: nat)

  const NEW_SESSION := SessionState(FRESH, 0)

  datatype Reply =
    | PrefillAnswer(prefill: PrefillReply)
    | DraftAnswer(draft: DraftReply)
    | ResetAnswer(ok: bool)

  predicate Stale(s: SessionState, req: DraftRequest) {
    req.stepId <= s.lastStepId
  }

  const STALE := DraftReply(0, false, "stale step_id", [])

  function HandleDraft(cfg: Config, next: Drafter, s: SessionState, req: DraftRequest, fate: Fate)
    : (r: (SessionState, DraftReply))
    requires cfg.ubatch > 0
  {
    if Stale(s, req) then (s, STALE)
    else
      var d := Draft(cfg, next, s.engine, req, fate);
      (SessionState(d.0, req.stepId), d.1)
  }

  function Handle(cfg: Config, next: Drafter, s: SessionState, call: Call): (r: (SessionState, Reply))
    requires cfg.ubatch > 0
  {
    match call
    case PrefillCall(tokens, chunks) =>
      var d := Prefill(cfg, s.engine, tokens, chunks);
      (s.(engine := d.0), PrefillAnswer(d.1))
    case DraftCall(req, fate) =>
      var d := HandleDraft(cfg, next, s, req, fate);
      (d.0, DraftAnswer(d.1))
    case ResetCall => (SessionState(FRESH, 0), ResetAnswer(true))
  }

  // What a call tells the preview renderer.
  function Events(cfg: Config, next: Drafter, s: SessionState, call: Call): seq<Transcript.Event>
    requires cfg.ubatch > 0
  {
    match call
    case PrefillCall(tokens, _) => Transcript.Emit(Transcript.ForPrefill(Tokens(tokens)))
    case DraftCall(req, fate) =>
      if Stale(s, req) then []
      else Transcript.Emit(Transcript.ForDraft(Tokens(req.accepted), HandleDraft(cfg, next, s, req, fate).1.tokens))
    case ResetCall => Transcript.Emit(Transcript.ForReset)
  }

  // The kinds of answer a Draft gets: refused as stale without reaching the engine, failed
  // on its packets, failed on its noise block, or ok. Only an ok answer has tokens.
  lemma AnswerKinds(cfg: Config, next: Drafter, s: SessionState, req: DraftRequest, fate: Fate)
    requires cfg.ubatch > 0
    ensures var (s', reply) := HandleDraft(cfg, next, s, req, fate);
            var injected := TakeAccepted(cfg, DropTransient(s.engine), req.accepted, fate.chunks).1;
            && (!reply.ok ==> reply.tokens == [])
            && (if req.stepId <= s.lastStepId then s' == s && reply == DraftReply(0, false, "stale step_id", [])
                else
                  && s'.lastStepId == req.stepId == reply.stepId
                  && (!injected <==> reply.error == "feature injection failed")
                  && (injected && !reply.ok <==> reply.error == "noise decode failed")
                  && (reply.ok <==> reply.error == ""))
  {
    hide TakeAccepted, DropTransient, Decode, Sample, NoiseBlock;
    assert "noise decode failed"[0] == 'n' && "feature injection failed"[0] == 'f';
  }

  // What the preview is told by each call: a draft that is not stale announces the tokens
  // that the server accepted and then the ones it is answered.
  lemma CallAnnounces(cfg: Config, next: Drafter, s: SessionState, call: Call)
    requires cfg.ubatch > 0
    ensures Events(cfg, next, s, call) ==
      match call
      case PrefillCall(tokens, _) => if tokens == [] then [] else [Transcript.Accepted(Tokens(tokens))]
      case DraftCall(req, _) =>
        var reply := Handle(cfg, next, s, call).1.draft;
        if req.stepId <= s.lastStepId then []
        else [Transcript.Verdict(Tokens(req.accepted)), Transcript.Drafted(reply.tokens)]
      case ResetCall => [Transcript.Cleared]
  {
  }

  // ----- whole histories of one session -----

  function After(cfg: Config, next: Drafter, s: SessionState, calls: seq<Call>): SessionState
    requires cfg.ubatch > 0
  {
    if calls == [] then s
    else Handle(cfg, next, After(cfg, next, s, calls[..|calls| - 1]), calls[|calls| - 1]).0
  }

  function Replies(cfg: Config, next: Drafter, s: SessionState, calls: seq<Call>): (r: seq<Reply>)
    requires cfg.ubatch > 0
    ensures |r| == |calls|
  {
    if calls == [] then []
    else
      var init := calls[..|calls| - 1];
      Replies(cfg, next, s, init) + [Handle(cfg, next, After(cfg, next, s, init), calls[|calls| - 1]).1]
  }

  // The step ids of the drafts that reach the engine, in the order they run.
  function RanIds(cfg: Config, next: Drafter, s: SessionState, calls: seq<Call>): seq<nat>
    requires cfg.ubatch > 0
  {
    if calls == [] then []
    else
      var init, last := calls[..|calls| - 1], calls[|calls| - 1];
      var ran := RanIds(cfg, next, s, init);
      if last.DraftCall? && !Stale(After(cfg, next, s, init), last.req) then ran + [last.req.stepId] else ran
  }

  // Between resets the engine runs strictly increasing step ids, each above what the
  // session started from, however drafts are repeated or reordered; the guard holds
  // the last of them.
  lemma {:induction false} AtMostOnce(cfg: Config, next: Drafter, s: SessionState, calls: seq<Call>)
    requires cfg.ubatch > 0
    requires forall i :: 0 <= i < |calls| ==> !calls[i].ResetCall?
    ensures var ids := RanIds(cfg, next, s, calls);
            && (forall i, j :: 0 <= i < j < |ids| ==> ids[i] < ids[j])
            && (forall i :: 0 <= i < |ids| ==> s.lastStepId < ids[i])
            && After(cfg, next, s, calls).lastStepId == (if ids == [] then s.lastStepId else ids[|ids| - 1])
  {
    if calls == [] {
    } else {
      hide Draft, Prefill;
      AtMostOnce(cfg, next, s, calls[..|calls| - 1]);
    }
  }

  lemma {:induction false} AfterReset(cfg: Config, next: Drafter, s: SessionState, history: seq<Call>, calls: seq<Call>)
    requires cfg.ubatch > 0
    ensures After(cfg, next, s, history + [ResetCall] + calls) == After(cfg, next, NEW_SESSION, calls)
  {
    var all := history + [ResetCall] + calls;
    hide Draft, Prefill;
    if calls == [] {
      assert all[..|all| - 1] == history;
    } else {
      AfterReset(cfg, next, s, history, calls[..|calls| - 1]);
      assert all[..|all| - 1] == history + [ResetCall] + calls[..|calls| - 1];
    }
  }

  // After a reset every later reply is the one that a brand-new session gives to the
  // same calls, whatever the session went through before.
  lemma {:induction false} HistoryIndependence(cfg: Config, next: Drafter, s: SessionState, history: seq<Call>,
                                               calls: seq<Call>)
    requires cfg.ubatch > 0
    ensures Replies(cfg, next, s, history + [ResetCall] + calls)[|history| + 1..]
         == Replies(cfg, next, NEW_SESSION, calls)
  {
    var all := history + [ResetCall] + calls;
    if calls == [] {
    } else {
      hide Draft, Prefill, Handle;
      var init := calls[..|calls| - 1];
      HistoryIndependence(cfg, next, s, history, init);
      AfterReset(cfg, next, s, history, init);
      assert all[..|all| - 1] == history + [ResetCall] + init;
    }
  }

  // ----- the service as the daemon runs it -----

  class Session {
    const engine: Engine
    var lastStepId: nat

    ghost function State(): SessionState
      reads this, engine
    {
      SessionState(engine.State(), lastStepId)
    }

    constructor (engine: Engine)
      ensures this.engine == engine && lastStepId == 0
    {
      this.engine := engine;
      lastStepId := 0;
    }

    // The part of Draft() that runs under the session's lock.
    method RunDraft(req: DraftRequest, fate: Fate) returns (reply: DraftReply, ran: bool)
      requires engine.Valid()
      modifies this, engine
      ensures (State(), reply) == HandleDraft(engine.cfg, engine.next, old(State()), req, fate)
      ensures ran == !Stale(old(State()), req)
    {
      hide Draft;
      if req.stepId <= lastStepId {
        return STALE, false;
      }
      lastStepId := req.stepId;
      reply := engine.DraftFeatures(req, fate);
      return reply, true;
    }

    method RunReset()
      modifies this, engine
      ensures State() == NEW_SESSION
    {
      engine.Reset();
      lastStepId := 0;
    }
  }

  // What the server is told of the draft model.
  datatype Handshake = Handshake(draftModelId: string, layerIds: seq<nat>, hidden: nat, blockSize: int, dtype: string)

  datatype InitAnswer = InitAnswer(ok: bool, message: string, sessionId: nat, handshake: Option<Handshake>)

  class Service {
    const cfg: Config
    const model: Handshake
    const next: Drafter
    var sessions: map<nat, Session>
    var nextSessionId: nat
    // the renderer's queue, as this service fills it
    var events: seq<Transcript.Event>

    ghost predicate Valid()
      reads this`sessions, this`nextSessionId
    {
      && cfg.ubatch > 0
      && |model.layerIds| == cfg.layers && model.hidden == cfg.hidden && model.blockSize == cfg.blockSize
      && (forall id :: id in sessions ==> id < nextSessionId)
      && (forall id :: id in sessions ==> sessions[id].engine.cfg == cfg && sessions[id].engine.next == next)
      && (forall id, id' :: id in sessions && id' in sessions && id != id' ==>
            sessions[id] != sessions[id'] && sessions[id].engine != sessions[id'].engine)
    }

    ghost function View(): map<nat, SessionState>
      reads this`sessions, sessions.Values, set s | s in sessions.Values :: s.engine
    {
      map id | id in sessions :: sessions[id].State()
    }

    constructor (cfg: Config, model: Handshake, next: Drafter)
      requires cfg.ubatch > 0
      requires |model.layerIds| == cfg.layers && model.hidden == cfg.hidden && model.blockSize == cfg.blockSize
      ensures Valid() && View() == map[] && nextSessionId == 1 && events == []
      ensures this.cfg == cfg && this.model == model && this.next == next
    {
      this.cfg, this.model, this.next := cfg, model, next;
      sessions, nextSessionId, events := map[], 1, [];
    }

    // engineReady: whether the factory built an engine and its init() succeeded.
    method InitSession(targetModelId: string, engineReady: bool) returns (answer: InitAnswer)
      requires Valid()
      modifies this
      ensures Valid() && events == old(events)
      ensures answer.ok <==> targetModelId != "" && engineReady
      ensures answer.ok ==> answer.sessionId !in old(View()) && View() == old(View())[answer.sessionId := NEW_SESSION]
      ensures !answer.ok ==> View() == old(View())
      ensures answer.handshake == if answer.ok then Some(model) else None
      ensures answer.message ==
                if answer.ok then "session created"
                else if targetModelId == "" then "target_model_id required"
                else "failed to initialize DSpark engine"
    {
      hide View, Valid;
      if targetModelId == "" {
        return InitAnswer(false, "target_model_id required", 0, None);
      }
      if !engineReady {
        return InitAnswer(false, "failed to initialize DSpark engine", 0, None);
      }
      var sid := CreateSession();
      var handshake := Describe();
      return InitAnswer(true, "session created", sid, Some(handshake));
    }

    method CreateSession() returns (sid: nat)
      requires Valid()
      modifies this`sessions, this`nextSessionId
      ensures Valid() && sid !in old(View()) && View() == old(View())[sid := NEW_SESSION]
    {
      sid := nextSessionId;
      var engine := new Engine(cfg, next);
      var s := new Session(engine);
      AddSession(s);
    }

    method Describe() returns (handshake: Handshake)
      ensures handshake == model
    {
      var layerIds: seq<nat> := [];
      for i := 0 to |model.layerIds|
        invariant layerIds == model.layerIds[..i]
      {
        layerIds := layerIds + [model.layerIds[i]];
      }
      return Handshake(model.draftModelId, layerIds, model.hidden, model.blockSize, model.dtype);
    }

    method AddSession(s: Session)
      requires Valid() && s.engine.cfg == cfg && s.engine.next == next
      requires forall id :: id in sessions ==> sessions[id] != s && sessions[id].engine != s.engine
      modifies this`sessions, this`nextSessionId
      ensures Valid() && nextSessionId == old(nextSessionId) + 1 && old(nextSessionId) !in old(View())
      ensures View() == old(View())[old(nextSessionId) := s.State()]
    {
      sessions := sessions[nextSessionId := s];
      nextSessionId := nextSessionId + 1;
    }

    method GetSession(id: nat) returns (s: Session?)
      ensures s == null <==> id !in View()
      ensures s != null ==> id in sessions && s == sessions[id]
    {
      if id in sessions {
        return sessions[id];
      }
      return null;
    }

    method PrefillSession(id: nat, tokens: seq<Packet>, chunks: ChunkFates) returns (reply: PrefillReply)
      requires Valid()
      modifies this`events, if id in sessions then {sessions[id], sessions[id].engine} else {}
      ensures Valid()
      ensures id !in old(View()) ==> View() == old(View()) && events == old(events) && reply == PrefillReply(false, 0)
      ensures id in old(View()) ==>
                var h := Handle(cfg, next, old(View())[id], PrefillCall(tokens, chunks));
                && View() == old(View())[id := h.0]
                && PrefillAnswer(reply) == h.1
                && events == old(events) + Events(cfg, next, old(View())[id], PrefillCall(tokens, chunks))
    {
      hide Prefill, Draft;
      var s := GetSession(id);
      if s == null {
        return PrefillReply(false, 0);
      }
      if tokens != [] {
        events := events + [Transcript.Accepted(Tokens(tokens))];
      }
      reply := s.engine.PrefillFeatures(tokens, chunks);
    }

    method DraftSession(id: nat, req: DraftRequest, fate: Fate) returns (reply: DraftReply)
      requires Valid()
      modifies this`events, if id in sessions then {sessions[id], sessions[id].engine} else {}
      ensures Valid()
      ensures id !in old(View()) ==>
                View() == old(View()) && events == old(events) && reply == DraftReply(0, false, "session not found", [])
      ensures id in old(View()) ==>
                var h := Handle(cfg, next, old(View())[id], DraftCall(req, fate));
                && View() == old(View())[id := h.0]
                && DraftAnswer(reply) == h.1
                && events == old(events) + Events(cfg, next, old(View())[id], DraftCall(req, fate))
    {
      hide Draft, HandleDraft, Stale, View, Valid;
      var s := GetSession(id);
      if s == null {
        return DraftReply(0, false, "session not found", []);
      }
      var ran;
      reply, ran := LockedDraft(id, req, fate);
      if ran {
        events := events + [Transcript.Verdict(Tokens(req.accepted))];
        events := events + [Transcript.Drafted(reply.tokens)];
      }
    }

    method LockedDraft(id: nat, req: DraftRequest, fate: Fate) returns (reply: DraftReply, ran: bool)
      requires Valid() && id in sessions
      modifies sessions[id], sessions[id].engine
      ensures Valid() && ran == !Stale(old(View())[id], req)
      ensures View() == old(View())[id := HandleDraft(cfg, next, old(View())[id], req, fate).0]
      ensures reply == HandleDraft(cfg, next, old(View())[id], req, fate).1
    {
      hide HandleDraft, Stale;
      reply, ran := sessions[id].RunDraft(req, fate);
    }

    method ResetSession(id: nat) returns (ok: bool)
      requires Valid()
      modifies this`events, if id in sessions then {sessions[id], sessions[id].engine} else {}
      ensures Valid() && (ok <==> id in old(View()))
      ensures !ok ==> View() == old(View()) && events == old(events)
      ensures ok ==>
                var h := Handle(cfg, next, old(View())[id], ResetCall);
                && View() == old(View())[id := h.0]
                && ResetAnswer(ok) == h.1
                && events == old(events) + Events(cfg, next, old(View())[id], ResetCall)
    {
      if id !in sessions {
        return false;
      }
      sessions[id].RunReset();
      events := events + [Transcript.Cleared];
      return true;
    }
  }
}
