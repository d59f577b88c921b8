// Every schedule of handler threads equals, session by session, a sequential run of
// that session's calls in the order they took its lock.
module Serialization {
  import opened Wire
  import opened DraftEngine
  import opened DraftService
  import opened Handlers

  function Calls(order: seq<Turn>): (r: seq<Call>)
    ensures |r| == |order|
  {
    seq(|order|, i requires 0 <= i < |order| => order[i].call)
  }

  // The state that a sequential run of the ordered calls leaves.
  function Serial(cfg: Config, next: Drafter, order: seq<Turn>): SessionState
    requires cfg.ubatch > 0
  {
    After(cfg, next, NEW_SESSION, Calls(order))
  }

  // The reply that call i gets in that run.
  function SerialReply(cfg: Config, next: Drafter, order: seq<Turn>, i: nat): Reply
    requires cfg.ubatch > 0 && i < |order|
  {
    Handle(cfg, next, Serial(cfg, next, order[..i]), order[i].call).1
  }

  // The state of a session while a thread that found it in state s works on it.
  function Midway(cfg: Config, next: Drafter, th: Thread, s: SessionState): SessionState
    requires cfg.ubatch > 0 && Fits(th.request, th.phase) && HasSessionLock(th)
  {
    var r := th.request;
    match th.phase
    case Guard => s
    case Truncating => s.(lastStepId := r.req.stepId)
    case Injecting => SessionState(DropTransient(s.engine), r.req.stepId)
    case Noising =>
      SessionState(TakeAccepted(cfg, DropTransient(s.engine), r.req.accepted, r.fate.chunks).0, r.req.stepId)
    case Filling => s
    case Clearing => s
    case Restarting => s.(engine := FRESH)
    case Unlocking => NEW_SESSION
    case WantQueue(_) => if r.DraftReq? then Handle(cfg, next, s, CallOf(r)).0 else s
    case HoldQueue(_) => if r.DraftReq? then Handle(cfg, next, s, CallOf(r)).0 else s
    case Exit => Handle(cfg, next, s, CallOf(r)).0
    case _ => s
  }

  // What the thread found out on the way there.
  predicate OnCourse(cfg: Config, next: Drafter, th: Thread, s: SessionState)
    requires cfg.ubatch > 0 && Fits(th.request, th.phase) && HasSessionLock(th)
  {
    var r := th.request;
    var answered := th.reply == Some(Handle(cfg, next, s, CallOf(r)).1);
    match th.phase
    case Truncating => !Stale(s, r.req)
    case Injecting => !Stale(s, r.req)
    case Noising => !Stale(s, r.req) && TakeAccepted(cfg, DropTransient(s.engine), r.req.accepted, r.fate.chunks).1
    case Unlocking => answered
    case Exit => answered
    case WantQueue(_) => r.DraftReq? ==> answered
    case HoldQueue(_) => r.DraftReq? ==> answered
    case _ => true
  }

  // The steps of a critical section compose to the sequential handler.
  lemma MidwayStep(cfg: Config, next: Drafter, th: Thread, s: SessionState)
    requires cfg.ubatch > 0 && Fits(th.request, th.phase) && HasSessionLock(th) && OnCourse(cfg, next, th, s)
    ensures var now := Midway(cfg, next, th, s);
            var th' := Move(cfg, next, th, now, true);
            && Fits(th'.request, th'.phase)
            && (ActionOf(th) == DropSession ==>
                  && !HasSessionLock(th')
                  && Change(cfg, next, th, now) == Handle(cfg, next, s, CallOf(th.request)).0
                  && th'.reply == Some(Handle(cfg, next, s, CallOf(th.request)).1))
            && (ActionOf(th) != DropSession ==>
                  && HasSessionLock(th') && OnCourse(cfg, next, th', s)
                  && Change(cfg, next, th, now) == Midway(cfg, next, th', s))
  {
    hide Inject, RunDraft, SeqRm;
  }

  // Taking the lock starts a critical section at the state found.
  lemma MidwayStarts(cfg: Config, next: Drafter, th: Thread, s: SessionState, at: nat)
    requires cfg.ubatch > 0 && Fits(th.request, th.phase) && ActionOf(th) == TakeSession
    ensures var th' := Move(cfg, next, th, s, true).(at := Some(at));
            && Fits(th'.request, th'.phase) && HasSessionLock(th') && OnCourse(cfg, next, th', s)
            && Midway(cfg, next, th', s) == s && Change(cfg, next, th, s) == s
  {
  }

  // Without the lock a step leaves the session and the thread's reply alone.
  lemma OutsideStep(cfg: Config, next: Drafter, th: Thread, s: SessionState, found: bool)
    requires cfg.ubatch > 0 && Fits(th.request, th.phase) && !HasSessionLock(th)
    ensures Change(cfg, next, th, s) == s && Move(cfg, next, th, s, found).reply == th.reply
    ensures th.phase.Looked? && !found ==> !HasSessionLock(Move(cfg, next, th, s, found))
  {
  }

  // ----- the invariant -----

  ghost predicate TurnOwned(m: Machine, sid: nat, i: nat)
    requires i < |OrderOf(m, sid)|
  {
    var turn := OrderOf(m, sid)[i];
    && turn.tid in m.threads
    && HasSession(m.threads[turn.tid].request) && m.threads[turn.tid].request.sid == sid
    && m.threads[turn.tid].at == Some(i) && turn.call == CallOf(m.threads[turn.tid].request)
  }

  ghost predicate PlaceOwned(m: Machine, t: nat)
    requires t in m.threads
  {
    var th := m.threads[t];
    th.at.Some? ==>
      && HasSession(th.request)
      && th.at.value < |OrderOf(m, th.request.sid)|
      && OrderOf(m, th.request.sid)[th.at.value].tid == t
  }

  // Every turn in a session's order belongs to the one thread that took it.
  ghost predicate OrderOwned(m: Machine) {
    && (forall sid: nat, i: nat :: i < |OrderOf(m, sid)| ==> TurnOwned(m, sid, i))
    && (forall t :: t in m.threads ==> PlaceOwned(m, t))
  }

  // A free session is where the sequential run left it; a locked one is midway through
  // its latest turn.
  ghost predicate SessionSerial(cfg: Config, next: Drafter, m: Machine, sid: nat)
    requires cfg.ubatch > 0 && sid in m.sessions
  {
    var order := OrderOf(m, sid);
    if sid !in m.locks then m.sessions[sid] == Serial(cfg, next, order)
    else
      && m.locks[sid] in m.threads && order != []
      && var th := m.threads[m.locks[sid]];
         var before := Serial(cfg, next, order[..|order| - 1]);
         && Fits(th.request, th.phase) && HasSessionLock(th)
         && th.at == Some(|order| - 1)
         && OnCourse(cfg, next, th, before)
         && m.sessions[sid] == Midway(cfg, next, th, before)
  }

  // A thread done with its session has the reply of the sequential run.
  ghost predicate ReplySerial(cfg: Config, next: Drafter, m: Machine, t: nat)
    requires cfg.ubatch > 0 && t in m.threads
  {
    var th := m.threads[t];
    th.at.Some? && !HasSessionLock(th) && HasSession(th.request) ==>
      && th.at.value < |OrderOf(m, th.request.sid)|
      && th.reply == Some(SerialReply(cfg, next, OrderOf(m, th.request.sid), th.at.value))
  }

  // Only sessions that exist are locked or ordered, and ids are never reused.
  ghost predicate TablesKnown(m: Machine) {
    && (forall sid :: sid in m.sessions ==> sid < m.nextSessionId)
    && (forall sid :: sid in m.order ==> sid in m.sessions)
    && (forall sid :: sid in m.locks ==> sid in m.sessions)
  }

  ghost predicate ThreadKnown(sessions: map<nat, SessionState>, th: Thread) {
    && (Bound(th) ==> HasSession(th.request) && th.request.sid in sessions)
    && (HasSessionLock(th) ==> th.at.Some?)
    && (Early(th) ==> th.at.None?)
  }

  ghost predicate Known(m: Machine) {
    TablesKnown(m) && forall t :: t in m.threads ==> ThreadKnown(m.sessions, m.threads[t])
  }

  // Not yet in its session's order.
  predicate Early(th: Thread) {
    th.phase.Start? || th.phase.Looked? || th.phase.Handing? || th.phase.Wait? || th.phase.WaitUnder?
  }

  ghost predicate Serialized(cfg: Config, next: Drafter, m: Machine)
    requires cfg.ubatch > 0
  {
    && LocksAgree(m) && Known(m) && OrderOwned(m)
    && (forall sid :: sid in m.sessions ==> SessionSerial(cfg, next, m, sid))
    && (forall t :: t in m.threads ==> ReplySerial(cfg, next, m, t))
  }

  // ----- every step keeps it -----

  // The step's thread does not serve this session.
  predicate Elsewhere(m: Machine, tid: nat, sid: nat)
    requires tid in m.threads
  {
    !(HasSession(m.threads[tid].request) && m.threads[tid].request.sid == sid)
  }

  // The turn that taking a session's lock adds to its order.
  function Extra(m: Machine, tid: nat, sid: nat): seq<Turn>
    requires tid in m.threads
  {
    if ActionOf(m.threads[tid]) == TakeSession && !Elsewhere(m, tid, sid)
    then [Turn(tid, CallOf(m.threads[tid].request))] else []
  }

  // What a step does to the threads: only its own moves, and takes a place in the
  // order only with its session's lock.
  lemma ThreadsStep(cfg: Config, next: Drafter, m: Machine, tid: nat)
    requires cfg.ubatch > 0 && LocksAgree(m) && CanStep(m, tid)
    ensures var th, th' := m.threads[tid], Advance(cfg, next, m, tid).threads[tid];
            var found := HasSession(th.request) && th.request.sid in m.sessions;
            && Advance(cfg, next, m, tid).threads == m.threads[tid := th']
            && th' == Move(cfg, next, th, SessionOf(m, th), found).(at := th'.at)
            && th'.request == th.request
            && th'.at == if ActionOf(th) == TakeSession then Some(|OrderOf(m, th.request.sid)|) else th.at
  {
    var th := m.threads[tid];
    StepLocks(cfg, next, th, SessionOf(m, th), HasSession(th.request) && th.request.sid in m.sessions);
    LockOrder(th);
    hide Move, Change, Requeue, ActionOf, Fits, OrderOf;
  }

  lemma OrderStep(cfg: Config, next: Drafter, m: Machine, tid: nat, sid: nat)
    requires cfg.ubatch > 0 && LocksAgree(m) && CanStep(m, tid)
    ensures OrderOf(Advance(cfg, next, m, tid), sid) == OrderOf(m, sid) + Extra(m, tid, sid)
  {
    var th := m.threads[tid];
    LockOrder(th);
    hide Move, Change, Requeue, ActionOf, Fits;
  }

  lemma TurnStaysOwned(cfg: Config, next: Drafter, m: Machine, tid: nat, sid: nat, i: nat)
    requires cfg.ubatch > 0 && LocksAgree(m) && Known(m) && CanStep(m, tid) && OrderOwned(m)
    requires i < |OrderOf(Advance(cfg, next, m, tid), sid)|
    ensures TurnOwned(Advance(cfg, next, m, tid), sid, i)
  {
    var m', th := Advance(cfg, next, m, tid), m.threads[tid];
    ThreadsStep(cfg, next, m, tid);
    OrderStep(cfg, next, m, tid, sid);
    LockOrder(th);
    assert ThreadKnown(m.sessions, th);
    assert ActionOf(th) == TakeSession ==> Early(th);
    hide Advance, Move, ActionOf, OrderOf, LocksAgree, HasSessionLock, Bound, Known, CanStep;
    if i < |OrderOf(m, sid)| {
      assert TurnOwned(m, sid, i) && OrderOf(m', sid)[i] == OrderOf(m, sid)[i];
    }
  }

  lemma PlaceStaysOwned(cfg: Config, next: Drafter, m: Machine, tid: nat, t: nat)
    requires cfg.ubatch > 0 && LocksAgree(m) && Known(m) && CanStep(m, tid) && OrderOwned(m) && t in m.threads
    ensures t in Advance(cfg, next, m, tid).threads && PlaceOwned(Advance(cfg, next, m, tid), t)
  {
    var m', th := Advance(cfg, next, m, tid), m.threads[tid];
    ThreadsStep(cfg, next, m, tid);
    LockOrder(th);
    hide Advance, Move, ActionOf, OrderOf, LocksAgree, HasSessionLock, Bound, Known, CanStep;
    assert PlaceOwned(m, t);
    if HasSession(m.threads[t].request) {
      OrderStep(cfg, next, m, tid, m.threads[t].request.sid);
    }
  }

  lemma AdvanceOwned(cfg: Config, next: Drafter, m: Machine, tid: nat)
    requires cfg.ubatch > 0 && LocksAgree(m) && Known(m) && CanStep(m, tid) && OrderOwned(m)
    ensures OrderOwned(Advance(cfg, next, m, tid))
  {
    var m' := Advance(cfg, next, m, tid);
    ThreadsStep(cfg, next, m, tid);
    hide Advance, OrderOf, LocksAgree, Known, CanStep, TurnOwned, PlaceOwned;
    forall sid: nat, i: nat | i < |OrderOf(m', sid)|
      ensures TurnOwned(m', sid, i)
    {
      TurnStaysOwned(cfg, next, m, tid, sid, i);
    }
    forall t | t in m'.threads
      ensures PlaceOwned(m', t)
    {
      PlaceStaysOwned(cfg, next, m, tid, t);
    }
  }

  lemma StepBound(cfg: Config, next: Drafter, th: Thread, s: SessionState, found: bool)
    requires cfg.ubatch > 0 && Fits(th.request, th.phase)
    ensures var th' := Move(cfg, next, th, s, found);
            && (Bound(th') ==> Bound(th) || (found && HasSession(th.request)))
            && (Early(th') ==> Early(th) && ActionOf(th) != TakeSession)
            && (ActionOf(th) == TakeSession ==> Bound(th) && Early(th))
            && (HasSessionLock(th) ==> Bound(th))
  {
    hide TakeAccepted, DraftBlock, Prefill;
  }

  lemma TablesStayKnown(cfg: Config, next: Drafter, m: Machine, tid: nat)
    requires cfg.ubatch > 0 && LocksAgree(m) && Known(m) && CanStep(m, tid)
    ensures TablesKnown(Advance(cfg, next, m, tid))
    ensures m.sessions.Keys <= Advance(cfg, next, m, tid).sessions.Keys
  {
    var th := m.threads[tid];
    assert ThreadKnown(m.sessions, th);
    StepBound(cfg, next, th, SessionOf(m, th), HasSession(th.request) && th.request.sid in m.sessions);
    LockOrder(th);
    hide Move, Change, Requeue, ActionOf, HasSessionLock, Bound, Early, Fits, OrderOf, LocksAgree;
  }

  lemma MoverStaysKnown(cfg: Config, next: Drafter, m: Machine, tid: nat)
    requires cfg.ubatch > 0 && LocksAgree(m) && Known(m) && CanStep(m, tid)
    ensures ThreadKnown(m.sessions, Advance(cfg, next, m, tid).threads[tid])
  {
    var th := m.threads[tid];
    var s, found := SessionOf(m, th), HasSession(th.request) && th.request.sid in m.sessions;
    assert ThreadKnown(m.sessions, th);
    ThreadsStep(cfg, next, m, tid);
    StepBound(cfg, next, th, s, found);
    StepLocks(cfg, next, th, s, found);
    SamePhase(Move(cfg, next, th, s, found), Advance(cfg, next, m, tid).threads[tid]);
    hide Advance, Move, ActionOf, HasSessionLock, Bound, Early, Fits, OrderOf, LocksAgree, CanStep;
  }

  lemma AdvanceKnown(cfg: Config, next: Drafter, m: Machine, tid: nat)
    requires cfg.ubatch > 0 && LocksAgree(m) && Known(m) && CanStep(m, tid)
    ensures Known(Advance(cfg, next, m, tid))
  {
    ThreadsStep(cfg, next, m, tid);
    TablesStayKnown(cfg, next, m, tid);
    MoverStaysKnown(cfg, next, m, tid);
    var m' := Advance(cfg, next, m, tid);
    hide Advance, Move, ActionOf, HasSessionLock, Bound, Early, LocksAgree, CanStep;
    forall t | t in m'.threads
      ensures ThreadKnown(m'.sessions, m'.threads[t])
    {
      assert t != tid ==> ThreadKnown(m.sessions, m.threads[t]);
    }
  }

  lemma SamePhase(th: Thread, th': Thread)
    requires th' == th.(at := th'.at)
    ensures Early(th') == Early(th) && Bound(th') == Bound(th) && HasSessionLock(th') == HasSessionLock(th)
    ensures ActionOf(th') == ActionOf(th)
  {
  }

  // What a step does to the session of some id, and to its lock.
  lemma SessionStepOf(cfg: Config, next: Drafter, m: Machine, tid: nat, sid: nat)
    requires cfg.ubatch > 0 && LocksAgree(m) && Known(m) && CanStep(m, tid) && sid in m.sessions
    ensures var m', th := Advance(cfg, next, m, tid), m.threads[tid];
            && sid in m'.sessions
            && (Elsewhere(m, tid, sid) ==> m'.sessions[sid] == m.sessions[sid])
            && (!Elsewhere(m, tid, sid) ==> m'.sessions[sid] == Change(cfg, next, th, m.sessions[sid]))
            && (Elsewhere(m, tid, sid) ==> (sid in m'.locks <==> sid in m.locks))
            && (Elsewhere(m, tid, sid) && sid in m.locks ==> m'.locks[sid] == m.locks[sid])
            && (!Elsewhere(m, tid, sid) && ActionOf(th) == TakeSession ==> sid in m'.locks && m'.locks[sid] == tid)
            && (!Elsewhere(m, tid, sid) && ActionOf(th) == DropSession ==> sid !in m'.locks)
            && (ActionOf(th) != TakeSession && ActionOf(th) != DropSession ==> m'.locks == m.locks)
  {
    LockOrder(m.threads[tid]);
    hide Move, Change, Requeue, ActionOf, HasSessionLock, Bound, Early, Fits, OrderOf, LocksAgree;
  }

  // A step by a thread of another session, or of none.
  lemma OtherSession(cfg: Config, next: Drafter, m: Machine, tid: nat, sid: nat)
    requires cfg.ubatch > 0 && LocksAgree(m) && Known(m) && CanStep(m, tid)
    requires sid in m.sessions && SessionSerial(cfg, next, m, sid) && Elsewhere(m, tid, sid)
    ensures var m' := Advance(cfg, next, m, tid); sid in m'.sessions && SessionSerial(cfg, next, m', sid)
  {
    ThreadsStep(cfg, next, m, tid);
    OrderStep(cfg, next, m, tid, sid);
    SessionStepOf(cfg, next, m, tid, sid);
    LockOrder(m.threads[tid]);
    hide Advance, Move, Change, ActionOf, HasSessionLock, Bound, Early, Fits, OrderOf, Serial, Midway, OnCourse,
      CanStep, Known;
  }

  lemma SerialGrows(cfg: Config, next: Drafter, order: seq<Turn>, turn: Turn)
    requires cfg.ubatch > 0
    ensures Serial(cfg, next, order + [turn]) == Handle(cfg, next, Serial(cfg, next, order), turn.call).0
  {
    hide Handle;
    var calls := Calls(order + [turn]);
    assert calls[..|calls| - 1] == Calls(order);
  }

  // The thread takes its session's lock.
  lemma SessionTaken(cfg: Config, next: Drafter, m: Machine, tid: nat, sid: nat)
    requires cfg.ubatch > 0 && LocksAgree(m) && Known(m) && CanStep(m, tid)
    requires sid in m.sessions && SessionSerial(cfg, next, m, sid) && !Elsewhere(m, tid, sid)
    requires ActionOf(m.threads[tid]) == TakeSession
    ensures var m' := Advance(cfg, next, m, tid); sid in m'.sessions && SessionSerial(cfg, next, m', sid)
  {
    var th, order := m.threads[tid], OrderOf(m, sid);
    ThreadsStep(cfg, next, m, tid);
    OrderStep(cfg, next, m, tid, sid);
    SessionStepOf(cfg, next, m, tid, sid);
    MidwayStarts(cfg, next, th, m.sessions[sid], |order|);
    LockOrder(th);
    var grown := order + [Turn(tid, CallOf(th.request))];
    assert grown[..|grown| - 1] == order;
    hide Advance, Move, Change, ActionOf, HasSessionLock, Bound, Early, Fits, OrderOf, Serial, Midway, OnCourse,
      LocksAgree, Known;
  }

  // The thread goes on inside its critical section, or leaves it.
  lemma SessionWorked(cfg: Config, next: Drafter, m: Machine, tid: nat, sid: nat)
    requires cfg.ubatch > 0 && LocksAgree(m) && Known(m) && CanStep(m, tid) && OrderOwned(m)
    requires sid in m.sessions && SessionSerial(cfg, next, m, sid) && !Elsewhere(m, tid, sid)
    requires HasSessionLock(m.threads[tid])
    ensures var m' := Advance(cfg, next, m, tid); sid in m'.sessions && SessionSerial(cfg, next, m', sid)
    ensures ActionOf(m.threads[tid]) == DropSession ==>
              var m' := Advance(cfg, next, m, tid);
              && OrderOf(m', sid) == OrderOf(m, sid) != [] && m.threads[tid].at == Some(|OrderOf(m, sid)| - 1)
              && m'.threads[tid].reply == Some(SerialReply(cfg, next, OrderOf(m, sid), |OrderOf(m, sid)| - 1))
  {
    var th, order := m.threads[tid], OrderOf(m, sid);
    assert m.locks[sid] == tid;
    var init := order[..|order| - 1];
    var before := Serial(cfg, next, init);
    ThreadsStep(cfg, next, m, tid);
    OrderStep(cfg, next, m, tid, sid);
    SessionStepOf(cfg, next, m, tid, sid);
    MidwayStep(cfg, next, th, before);
    LockOrder(th);
    assert TurnOwned(m, sid, |order| - 1);
    SerialGrows(cfg, next, init, order[|order| - 1]);
    assert order == init + [order[|order| - 1]];
    SamePhase(Move(cfg, next, th, SessionOf(m, th), true), Advance(cfg, next, m, tid).threads[tid]);
    hide Advance, Move, Change, ActionOf, HasSessionLock, Bound, Early, Fits, OrderOf, Serial, Midway, OnCourse,
      LocksAgree, Known, Handle;
  }

  lemma SessionStays(cfg: Config, next: Drafter, m: Machine, tid: nat, sid: nat)
    requires cfg.ubatch > 0 && LocksAgree(m) && Known(m) && CanStep(m, tid) && OrderOwned(m)
    requires sid in m.sessions && SessionSerial(cfg, next, m, sid)
    ensures var m' := Advance(cfg, next, m, tid); sid in m'.sessions && SessionSerial(cfg, next, m', sid)
  {
    var th := m.threads[tid];
    if Elsewhere(m, tid, sid) {
      OtherSession(cfg, next, m, tid, sid);
    } else if HasSessionLock(th) {
      SessionWorked(cfg, next, m, tid, sid);
    } else if ActionOf(th) == TakeSession {
      SessionTaken(cfg, next, m, tid, sid);
    } else {
      SessionPassed(cfg, next, m, tid, sid);
    }
  }

  // The thread serves this session, but does not have its lock nor take it.
  lemma SessionPassed(cfg: Config, next: Drafter, m: Machine, tid: nat, sid: nat)
    requires cfg.ubatch > 0 && LocksAgree(m) && Known(m) && CanStep(m, tid)
    requires sid in m.sessions && SessionSerial(cfg, next, m, sid) && !Elsewhere(m, tid, sid)
    requires !HasSessionLock(m.threads[tid]) && ActionOf(m.threads[tid]) != TakeSession
    ensures var m' := Advance(cfg, next, m, tid); sid in m'.sessions && SessionSerial(cfg, next, m', sid)
  {
    var th := m.threads[tid];
    ThreadsStep(cfg, next, m, tid);
    OrderStep(cfg, next, m, tid, sid);
    SessionStepOf(cfg, next, m, tid, sid);
    OutsideStep(cfg, next, th, m.sessions[sid], true);
    LockOrder(th);
    hide Advance, Move, Change, ActionOf, HasSessionLock, Bound, Early, Fits, OrderOf, Serial, Midway, OnCourse,
      CanStep, Known;
  }

  lemma NewSessionSerial(cfg: Config, next: Drafter, m: Machine, tid: nat, sid: nat)
    requires cfg.ubatch > 0 && LocksAgree(m) && Known(m) && CanStep(m, tid)
    requires sid in Advance(cfg, next, m, tid).sessions && sid !in m.sessions
    ensures SessionSerial(cfg, next, Advance(cfg, next, m, tid), sid)
  {
    var th := m.threads[tid];
    LockOrder(th);
    OrderStep(cfg, next, m, tid, sid);
    hide Move, Change, Requeue, ActionOf, HasSessionLock, Bound, Early, Fits, Midway, OnCourse, LocksAgree;
    assert Calls([]) == [];
  }

  lemma RepliesFixed(cfg: Config, next: Drafter, order: seq<Turn>, more: seq<Turn>, i: nat)
    requires cfg.ubatch > 0 && i < |order| && order <= more
    ensures SerialReply(cfg, next, order, i) == SerialReply(cfg, next, more, i)
  {
    assert order[..i] == more[..i];
  }

  lemma SettledReplyStays(cfg: Config, next: Drafter, m: Machine, tid: nat, t: nat)
    requires cfg.ubatch > 0 && LocksAgree(m) && CanStep(m, tid) && t in m.threads
    requires ReplySerial(cfg, next, m, t) && !HasSessionLock(m.threads[t])
    requires t == tid ==> !HasSessionLock(Advance(cfg, next, m, tid).threads[tid])
    ensures var m' := Advance(cfg, next, m, tid); t in m'.threads && ReplySerial(cfg, next, m', t)
  {
    ThreadsStep(cfg, next, m, tid);
    if t == tid {
      MoverKeepsReply(cfg, next, m, tid);
    }
    hide Advance, Move, ActionOf, HasSessionLock, OrderOf, LocksAgree, CanStep, SerialReply;
    var th := m.threads[t];
    if HasSession(th.request) && th.at.Some? {
      OrderStep(cfg, next, m, tid, th.request.sid);
      RepliesFixed(cfg, next, OrderOf(m, th.request.sid), OrderOf(Advance(cfg, next, m, tid), th.request.sid),
                   th.at.value);
    }
  }

  lemma FreshReply(cfg: Config, next: Drafter, m: Machine, tid: nat)
    requires cfg.ubatch > 0 && Serialized(cfg, next, m) && CanStep(m, tid)
    requires HasSessionLock(m.threads[tid]) && !HasSessionLock(Advance(cfg, next, m, tid).threads[tid])
    ensures ReplySerial(cfg, next, Advance(cfg, next, m, tid), tid)
  {
    ThreadsStep(cfg, next, m, tid);
    MoverLetsGo(cfg, next, m, tid);
    var th := m.threads[tid];
    assert ThreadKnown(m.sessions, th) && th.request.sid in m.locks;
    assert SessionSerial(cfg, next, m, th.request.sid);
    SessionWorked(cfg, next, m, tid, th.request.sid);
    hide Advance, Move, ActionOf, HasSessionLock, OrderOf, LocksAgree, CanStep, SerialReply, SessionSerial, Known,
      OrderOwned;
  }

  lemma ReplyStays(cfg: Config, next: Drafter, m: Machine, tid: nat, t: nat)
    requires cfg.ubatch > 0 && Serialized(cfg, next, m) && CanStep(m, tid) && t in m.threads
    ensures var m' := Advance(cfg, next, m, tid); t in m'.threads && ReplySerial(cfg, next, m', t)
  {
    ThreadsStep(cfg, next, m, tid);
    hide Advance, Move, ActionOf, OrderOf, LocksAgree, CanStep, SerialReply, SessionSerial, Known, OrderOwned,
      HasSessionLock;
    assert ReplySerial(cfg, next, m, t);
    if !HasSessionLock(Advance(cfg, next, m, tid).threads[t]) {
      if HasSessionLock(m.threads[t]) {
        FreshReply(cfg, next, m, tid);
      } else {
        SettledReplyStays(cfg, next, m, tid, t);
      }
    }
  }

  // A thread that stops having its session's lock drops it; one that does not start
  // having it keeps place and reply.
  lemma MoverLetsGo(cfg: Config, next: Drafter, m: Machine, tid: nat)
    requires cfg.ubatch > 0 && LocksAgree(m) && CanStep(m, tid) && HasSessionLock(m.threads[tid])
    requires !HasSessionLock(Advance(cfg, next, m, tid).threads[tid])
    ensures ActionOf(m.threads[tid]) == DropSession
  {
    var th := m.threads[tid];
    var s, found := SessionOf(m, th), HasSession(th.request) && th.request.sid in m.sessions;
    ThreadsStep(cfg, next, m, tid);
    StepLocks(cfg, next, th, s, found);
    SamePhase(Move(cfg, next, th, s, found), Advance(cfg, next, m, tid).threads[tid]);
    hide Advance, Move, ActionOf, HasSessionLock, LocksAgree, CanStep;
  }

  lemma MoverKeepsReply(cfg: Config, next: Drafter, m: Machine, tid: nat)
    requires cfg.ubatch > 0 && LocksAgree(m) && CanStep(m, tid) && !HasSessionLock(m.threads[tid])
    requires !HasSessionLock(Advance(cfg, next, m, tid).threads[tid])
    ensures Advance(cfg, next, m, tid).threads[tid].at == m.threads[tid].at
    ensures Advance(cfg, next, m, tid).threads[tid].reply == m.threads[tid].reply
  {
    var th := m.threads[tid];
    var s, found := SessionOf(m, th), HasSession(th.request) && th.request.sid in m.sessions;
    ThreadsStep(cfg, next, m, tid);
    StepLocks(cfg, next, th, s, found);
    LockOrder(th);
    OutsideStep(cfg, next, th, s, found);
    SamePhase(Move(cfg, next, th, s, found), Advance(cfg, next, m, tid).threads[tid]);
    hide Advance, Move, ActionOf, HasSessionLock, LocksAgree, CanStep;
  }

  lemma AdvanceSerialized(cfg: Config, next: Drafter, m: Machine, tid: nat)
    requires cfg.ubatch > 0 && Serialized(cfg, next, m) && CanStep(m, tid)
    ensures Serialized(cfg, next, Advance(cfg, next, m, tid))
  {
    var m' := Advance(cfg, next, m, tid);
    ThreadsStep(cfg, next, m, tid);
    AdvanceKeepsLocks(cfg, next, m, tid);
    AdvanceKnown(cfg, next, m, tid);
    AdvanceOwned(cfg, next, m, tid);
    hide Advance, CanStep, LocksAgree, Known, OrderOwned, SessionSerial, ReplySerial;
    forall sid | sid in m'.sessions
      ensures SessionSerial(cfg, next, m', sid)
    {
      if sid in m.sessions {
        SessionStays(cfg, next, m, tid, sid);
      } else {
        NewSessionSerial(cfg, next, m, tid, sid);
      }
    }
    forall t | t in m'.threads
      ensures ReplySerial(cfg, next, m', t)
    {
      ReplyStays(cfg, next, m, tid, t);
    }
  }

  lemma NewcomerHasNothing(m: Machine, tid: nat, r: Request)
    requires tid !in m.threads
    ensures var th := Spawn(m, tid, r).threads[tid]; th.at.None? && !HasSessionLock(th) && !Bound(th)
    ensures forall sid :: OrderOf(Spawn(m, tid, r), sid) == OrderOf(m, sid)
  {
  }

  lemma ArrivalOwned(m: Machine, tid: nat, r: Request)
    requires OrderOwned(m) && Known(m) && tid !in m.threads
    ensures OrderOwned(Spawn(m, tid, r)) && Known(Spawn(m, tid, r))
  {
    var m' := Spawn(m, tid, r);
    NewcomerHasNothing(m, tid, r);
    hide OrderOf, HasSessionLock, Bound, Early;
    forall sid: nat, i: nat | i < |OrderOf(m', sid)|
      ensures TurnOwned(m', sid, i)
    {
      assert TurnOwned(m, sid, i);
    }
    forall t | t in m'.threads
      ensures PlaceOwned(m', t) && ThreadKnown(m'.sessions, m'.threads[t])
    {
      assert t != tid ==> PlaceOwned(m, t) && ThreadKnown(m.sessions, m.threads[t]);
    }
  }

  lemma ArrivalSerialized(cfg: Config, next: Drafter, m: Machine, tid: nat, r: Request)
    requires cfg.ubatch > 0 && Serialized(cfg, next, m) && tid !in m.threads
    ensures Serialized(cfg, next, Spawn(m, tid, r))
  {
    var m' := Spawn(m, tid, r);
    ArrivalKeepsLocks(m, tid, r);
    ArrivalOwned(m, tid, r);
    NewcomerHasNothing(m, tid, r);
    hide LocksAgree, OrderOwned, Known, OrderOf, SessionSerial, ReplySerial, Spawn;
    forall t | t in m'.threads
      ensures ReplySerial(cfg, next, m', t)
    {
      ArrivalKeepsReply(cfg, next, m, tid, r, t);
    }
    forall sid | sid in m'.sessions
      ensures SessionSerial(cfg, next, m', sid)
    {
      ArrivalKeepsSession(cfg, next, m, tid, r, sid);
    }
  }

  lemma ArrivalKeepsReply(cfg: Config, next: Drafter, m: Machine, tid: nat, r: Request, t: nat)
    requires cfg.ubatch > 0 && tid !in m.threads && t in Spawn(m, tid, r).threads
    requires t in m.threads ==> ReplySerial(cfg, next, m, t)
    ensures ReplySerial(cfg, next, Spawn(m, tid, r), t)
  {
    NewcomerHasNothing(m, tid, r);
    hide OrderOf, HasSessionLock, SerialReply;
  }

  lemma ArrivalKeepsSession(cfg: Config, next: Drafter, m: Machine, tid: nat, r: Request, sid: nat)
    requires cfg.ubatch > 0 && tid !in m.threads && sid in m.sessions && SessionSerial(cfg, next, m, sid)
    ensures sid in Spawn(m, tid, r).sessions && SessionSerial(cfg, next, Spawn(m, tid, r), sid)
  {
    NewcomerHasNothing(m, tid, r);
    hide OrderOf, HasSessionLock, Serial, Midway, OnCourse, Fits;
  }

  lemma {:induction false} PlayedSerialized(cfg: Config, next: Drafter, m: Machine, picks: seq<Pick>)
    requires cfg.ubatch > 0 && Serialized(cfg, next, m) && Schedule(cfg, next, m, picks)
    ensures Serialized(cfg, next, Played(cfg, next, m, picks))
    decreases |picks|
  {
    if picks == [] {
    } else {
      hide Advance, CanStep, Serialized, Fits;
      match picks[0] {
        case Arrives(tid, r) => ArrivalSerialized(cfg, next, m, tid, r);
        case Steps(tid) => AdvanceSerialized(cfg, next, m, tid);
      }
      PlayedSerialized(cfg, next, Picked(cfg, next, m, picks[0]), picks[1..]);
    }
  }

  // The session is where the sequential run of its calls, in lock order, leaves a new
  // session.
  ghost predicate RunsSequentially(cfg: Config, next: Drafter, m: Machine, sid: nat)
    requires cfg.ubatch > 0 && sid in m.sessions
  {
    m.sessions[sid] == After(cfg, next, NEW_SESSION, Calls(OrderOf(m, sid)))
  }

  // The handler has a place of its own in its session's order, and the reply that the
  // sequential run gives there.
  ghost predicate AnsweredSequentially(cfg: Config, next: Drafter, m: Machine, t: nat)
    requires cfg.ubatch > 0 && t in m.threads
  {
    var th := m.threads[t];
    && HasSession(th.request) && th.at.Some?
    && var order := OrderOf(m, th.request.sid);
       && th.at.value < |order|
       && order[th.at.value] == Turn(t, CallOf(th.request))
       && th.reply == Some(Replies(cfg, next, NEW_SESSION, Calls(order))[th.at.value])
  }

  lemma AnswerOf(cfg: Config, next: Drafter, m: Machine, t: nat)
    requires cfg.ubatch > 0 && OrderOwned(m) && t in m.threads && ReplySerial(cfg, next, m, t)
    requires m.threads[t].at.Some? && !HasSessionLock(m.threads[t])
    ensures AnsweredSequentially(cfg, next, m, t)
  {
    hide HasSessionLock, OrderOf, SerialReply;
    assert PlaceOwned(m, t);
    var sid, i := m.threads[t].request.sid, m.threads[t].at.value;
    assert TurnOwned(m, sid, i);
    ReplyOfRun(cfg, next, OrderOf(m, sid), i);
  }

  // In every state that any schedule of any handlers reaches: a session nobody has
  // locked is where a sequential run leaves it, and every finished handler that got to
  // a session was answered as in that run.
  lemma AnyScheduleIsSequential(cfg: Config, next: Drafter, picks: seq<Pick>)
    requires cfg.ubatch > 0 && Schedule(cfg, next, IDLE, picks)
    ensures var m := Played(cfg, next, IDLE, picks);
            && (forall sid :: sid in m.sessions && sid !in m.locks ==> RunsSequentially(cfg, next, m, sid))
            && (forall t :: t in m.threads && m.threads[t].phase == Done && m.threads[t].at.Some? ==>
                  AnsweredSequentially(cfg, next, m, t))
  {
    hide Serialized, RunsSequentially, AnsweredSequentially, Schedule, Played;
    IdleSerialized(cfg, next);
    PlayedSerialized(cfg, next, IDLE, picks);
    var m := Played(cfg, next, IDLE, picks);
    forall sid | sid in m.sessions && sid !in m.locks
      ensures RunsSequentially(cfg, next, m, sid)
    {
      FreeSession(cfg, next, m, sid);
    }
    forall t | t in m.threads && m.threads[t].phase == Done && m.threads[t].at.Some?
      ensures AnsweredSequentially(cfg, next, m, t)
    {
      FinishedThread(cfg, next, m, t);
    }
  }

  lemma FreeSession(cfg: Config, next: Drafter, m: Machine, sid: nat)
    requires cfg.ubatch > 0 && Serialized(cfg, next, m) && sid in m.sessions && sid !in m.locks
    ensures RunsSequentially(cfg, next, m, sid)
  {
    hide LocksAgree, Known, OrderOwned, ReplySerial, OrderOf, Calls;
    assert SessionSerial(cfg, next, m, sid);
  }

  lemma FinishedThread(cfg: Config, next: Drafter, m: Machine, t: nat)
    requires cfg.ubatch > 0 && Serialized(cfg, next, m)
    requires t in m.threads && m.threads[t].phase == Done && m.threads[t].at.Some?
    ensures AnsweredSequentially(cfg, next, m, t)
  {
    hide LocksAgree, Known, OrderOwned, ReplySerial, SessionSerial, AnsweredSequentially;
    AnswerOf(cfg, next, m, t);
  }

  lemma IdleSerialized(cfg: Config, next: Drafter)
    requires cfg.ubatch > 0
    ensures Serialized(cfg, next, IDLE)
  {
  }

  lemma {:induction false} RepliesPrefix(cfg: Config, next: Drafter, calls: seq<Call>, i: nat)
    requires cfg.ubatch > 0 && i < |calls|
    ensures Replies(cfg, next, NEW_SESSION, calls)[i]
         == Handle(cfg, next, After(cfg, next, NEW_SESSION, calls[..i]), calls[i]).1
  {
    hide Handle;
    if i < |calls| - 1 {
      RepliesPrefix(cfg, next, calls[..|calls| - 1], i);
      assert calls[..|calls| - 1][..i] == calls[..i];
    }
  }

  lemma ReplyOfRun(cfg: Config, next: Drafter, order: seq<Turn>, i: nat)
    requires cfg.ubatch > 0 && i < |order|
    ensures SerialReply(cfg, next, order, i) == Replies(cfg, next, NEW_SESSION, Calls(order))[i]
  {
    hide Handle;
    RepliesPrefix(cfg, next, Calls(order), i);
    assert Calls(order)[..i] == Calls(order[..i]);
  }
}
