// The order in which the handlers of a session queue its preview events.
module EventOrder {
  import opened Wire
  import opened DraftEngine
  import opened DraftService
  import opened Handlers
  import opened Serialization

  // One event pushed for a session by the handler with some turn in its lock order.
  datatype Push = Push(sid: nat, turn: nat, reset: bool)

  function PushesOf(th: Thread): seq<Push> {
    if th.phase.HoldQueue? && HasSession(th.request) && th.at.Some?
    then [Push(th.request.sid, th.at.value, th.request.ResetReq?)] else []
  }

  ghost function Pushed(cfg: Config, next: Drafter, m: Machine, picks: seq<Pick>): seq<Push>
    requires cfg.ubatch > 0 && Schedule(cfg, next, m, picks)
    decreases |picks|
  {
    if picks == [] then []
    else
      (if picks[0].Steps? then PushesOf(m.threads[picks[0].tid]) else [])
      + Pushed(cfg, next, Picked(cfg, next, m, picks[0]), picks[1..])
  }

  // An event queued after one of a later turn.
  predicate Late(pushes: seq<Push>, a: nat, b: nat) {
    a < b < |pushes| && pushes[a].sid == pushes[b].sid && pushes[a].turn > pushes[b].turn
  }

  ghost predicate OnlyResetsLate(pushes: seq<Push>) {
    forall a: nat, b: nat :: Late(pushes, a, b) ==> pushes[b].reset
  }

  ghost predicate InLockOrder(pushes: seq<Push>, sid: nat) {
    forall a: nat, b: nat ::
      a < b < |pushes| && pushes[a].sid == sid == pushes[b].sid ==> pushes[a].turn <= pushes[b].turn
  }

  // No reset's event waited while a later turn's was queued.
  ghost predicate NoResetOvertaken(pushes: seq<Push>, sid: nat) {
    forall a: nat, b: nat :: Late(pushes, a, b) && pushes[b].sid == sid ==> !pushes[b].reset
  }

  ghost predicate TurnsTaken(pushes: seq<Push>, m: Machine) {
    forall a :: 0 <= a < |pushes| ==> pushes[a].turn < |OrderOf(m, pushes[a].sid)|
  }

  // A handler that is about to push has its turn, so that no push goes unrecorded.
  predicate KnowsTurn(th: Thread) {
    HasSession(th.request) && (th.phase.WantQueue? || th.phase.HoldQueue?) ==> th.at.Some?
  }

  ghost predicate TurnsKnown(m: Machine) {
    forall t :: t in m.threads ==> KnowsTurn(m.threads[t])
  }

  lemma MoverKnowsTurn(cfg: Config, next: Drafter, th: Thread, s: SessionState, found: bool, th': Thread)
    requires cfg.ubatch > 0 && Fits(th.request, th.phase) && KnowsTurn(th) && (HasSessionLock(th) ==> th.at.Some?)
    requires th' == Move(cfg, next, th, s, found).(at := th'.at)
    requires ActionOf(th) == TakeSession ==> th'.at.Some?
    requires ActionOf(th) != TakeSession ==> th'.at == th.at
    ensures KnowsTurn(th')
  {
    hide TakeAccepted, DraftBlock, Prefill, Stale;
  }

  lemma StepKnowsTurns(cfg: Config, next: Drafter, m: Machine, tid: nat)
    requires cfg.ubatch > 0 && Serialized(cfg, next, m) && CanStep(m, tid) && TurnsKnown(m)
    ensures TurnsKnown(Advance(cfg, next, m, tid))
  {
    var th, th' := m.threads[tid], Advance(cfg, next, m, tid).threads[tid];
    ThreadsStep(cfg, next, m, tid);
    assert ThreadKnown(m.sessions, th);
    MoverKnowsTurn(cfg, next, th, SessionOf(m, th), HasSession(th.request) && th.request.sid in m.sessions, th');
    hide Advance, Move, ActionOf, CanStep, Serialized;
  }

  lemma PushTakesItsTurn(cfg: Config, next: Drafter, m: Machine, tid: nat)
    requires cfg.ubatch > 0 && Serialized(cfg, next, m) && tid in m.threads
    ensures forall p :: p in PushesOf(m.threads[tid]) ==>
              && p.turn < |OrderOf(m, p.sid)|
              && (!p.reset ==> p.turn == |OrderOf(m, p.sid)| - 1)
  {
    hide Serial, Midway, OnCourse, OrderOf, SerialReply, ReplySerial;
    var th := m.threads[tid];
    assert PlaceOwned(m, tid) && ThreadKnown(m.sessions, th);
    if PushesOf(th) != [] && !th.request.ResetReq? {
      assert HasSessionLock(th) && th.request.sid in m.locks && m.locks[th.request.sid] == tid;
      assert SessionSerial(cfg, next, m, th.request.sid);
    }
  }

  lemma PushKeepsOrder(pushes: seq<Push>, m: Machine, p: Push)
    requires OnlyResetsLate(pushes) && TurnsTaken(pushes, m)
    requires p.turn < |OrderOf(m, p.sid)| && (!p.reset ==> p.turn == |OrderOf(m, p.sid)| - 1)
    ensures OnlyResetsLate(pushes + [p]) && TurnsTaken(pushes + [p], m)
  {
    hide OrderOf;
    var all := pushes + [p];
    forall a: nat, b: nat | Late(all, a, b)
      ensures all[b].reset
    {
      assert b < |pushes| ==> Late(pushes, a, b);
    }
  }

  lemma StepPushes(cfg: Config, next: Drafter, m: Machine, tid: nat, pushes: seq<Push>)
    requires cfg.ubatch > 0 && Serialized(cfg, next, m) && CanStep(m, tid)
    requires OnlyResetsLate(pushes) && TurnsTaken(pushes, m)
    ensures var all := pushes + PushesOf(m.threads[tid]);
            OnlyResetsLate(all) && TurnsTaken(all, Advance(cfg, next, m, tid))
  {
    PushTakesItsTurn(cfg, next, m, tid);
    hide Advance, Serialized, CanStep, OnlyResetsLate;
    var th := m.threads[tid];
    if PushesOf(th) == [] {
      assert pushes + [] == pushes;
    } else {
      var p := PushesOf(th)[0];
      assert p in PushesOf(th) && PushesOf(th) == [p];
      PushKeepsOrder(pushes, m, p);
    }
    TurnsStay(cfg, next, m, tid, pushes + PushesOf(th));
  }

  lemma TurnsStay(cfg: Config, next: Drafter, m: Machine, tid: nat, pushes: seq<Push>)
    requires cfg.ubatch > 0 && Serialized(cfg, next, m) && CanStep(m, tid) && TurnsTaken(pushes, m)
    ensures TurnsTaken(pushes, Advance(cfg, next, m, tid))
  {
    hide OrderOf, Advance, Known, OrderOwned, SessionSerial, ReplySerial;
    forall a | 0 <= a < |pushes|
      ensures pushes[a].turn < |OrderOf(Advance(cfg, next, m, tid), pushes[a].sid)|
    {
      OrderStep(cfg, next, m, tid, pushes[a].sid);
    }
  }

  lemma {:induction false} PushesOrdered(cfg: Config, next: Drafter, m: Machine, picks: seq<Pick>, pushes: seq<Push>)
    requires cfg.ubatch > 0 && Serialized(cfg, next, m) && Schedule(cfg, next, m, picks)
    requires OnlyResetsLate(pushes) && TurnsTaken(pushes, m)
    ensures OnlyResetsLate(pushes + Pushed(cfg, next, m, picks))
    decreases |picks|
  {
    hide Advance, Serialized, Fits, OnlyResetsLate, TurnsTaken, PushesOf;
    if picks == [] {
      assert pushes + [] == pushes;
    } else {
      var now := if picks[0].Steps? then PushesOf(m.threads[picks[0].tid]) else [];
      var m' := Picked(cfg, next, m, picks[0]);
      match picks[0] {
        case Arrives(tid, r) =>
          ArrivalSerialized(cfg, next, m, tid, r);
          ArrivalTakesNoTurn(m, tid, r, pushes);
          assert pushes + now == pushes;
        case Steps(tid) =>
          AdvanceSerialized(cfg, next, m, tid);
          StepPushes(cfg, next, m, tid, pushes);
      }
      PushesOrdered(cfg, next, m', picks[1..], pushes + now);
      assert pushes + now + Pushed(cfg, next, m', picks[1..]) == pushes + (now + Pushed(cfg, next, m', picks[1..]));
    }
  }

  lemma ArrivalTakesNoTurn(m: Machine, tid: nat, r: Request, pushes: seq<Push>)
    requires tid !in m.threads && TurnsTaken(pushes, m)
    ensures TurnsTaken(pushes, Spawn(m, tid, r))
  {
    NewcomerHasNothing(m, tid, r);
    hide OrderOf, Spawn;
  }

  lemma {:induction false} AllTurnsKnown(cfg: Config, next: Drafter, m: Machine, picks: seq<Pick>)
    requires cfg.ubatch > 0 && Serialized(cfg, next, m) && Schedule(cfg, next, m, picks) && TurnsKnown(m)
    ensures TurnsKnown(Played(cfg, next, m, picks))
    decreases |picks|
  {
    hide Advance, CanStep, Serialized, Fits;
    if picks == [] {
    } else {
      match picks[0] {
        case Arrives(tid, r) =>
          ArrivalSerialized(cfg, next, m, tid, r);
        case Steps(tid) =>
          AdvanceSerialized(cfg, next, m, tid);
          StepKnowsTurns(cfg, next, m, tid);
      }
      AllTurnsKnown(cfg, next, Picked(cfg, next, m, picks[0]), picks[1..]);
    }
  }

  // In every schedule only a reset's event, which is pushed after the session's lock is
  // dropped, can be queued late.
  lemma EventsInLockOrder(cfg: Config, next: Drafter, picks: seq<Pick>, sid: nat)
    requires cfg.ubatch > 0 && Schedule(cfg, next, IDLE, picks)
    ensures TurnsKnown(Played(cfg, next, IDLE, picks))
    ensures OnlyResetsLate(Pushed(cfg, next, IDLE, picks))
    ensures InLockOrder(Pushed(cfg, next, IDLE, picks), sid) <==> NoResetOvertaken(Pushed(cfg, next, IDLE, picks), sid)
  {
    IdleSerialized(cfg, next);
    AllTurnsKnown(cfg, next, IDLE, picks);
    hide Serialized, Schedule, Pushed, Played, TurnsKnown, TurnsTaken;
    var pushes := Pushed(cfg, next, IDLE, picks);
    PushesOrdered(cfg, next, IDLE, picks, []);
    assert [] + pushes == pushes;
    if NoResetOvertaken(pushes, sid) {
      forall a: nat, b: nat | a < b < |pushes| && pushes[a].sid == sid == pushes[b].sid
        ensures pushes[a].turn <= pushes[b].turn
      {
        assert !Late(pushes, a, b);
      }
    }
  }

  // ----- a caller that never overlaps a reset -----

  predicate InFlight(th: Thread, sid: nat) {
    HasSession(th.request) && th.request.sid == sid && th.phase != Done
  }

  // While a reset of the session is in flight, no other call of it is.
  ghost predicate ResetAlone(m: Machine, sid: nat) {
    forall t, t' ::
      t in m.threads && t' in m.threads && t != t' && InFlight(m.threads[t], sid) && InFlight(m.threads[t'], sid) ==>
        !m.threads[t].request.ResetReq?
  }

  ghost predicate ResetsAlone(cfg: Config, next: Drafter, m: Machine, picks: seq<Pick>, sid: nat)
    requires cfg.ubatch > 0 && Schedule(cfg, next, m, picks)
    decreases |picks|
  {
    && ResetAlone(m, sid)
    && (picks != [] ==> ResetsAlone(cfg, next, Picked(cfg, next, m, picks[0]), picks[1..], sid))
  }

  ghost predicate HasReset(th: Thread, sid: nat) {
    InFlight(th, sid) && th.request.ResetReq? && th.at.Some?
  }

  // A reset in flight that has its turn has the latest one.
  ghost predicate ResetLatest(m: Machine, sid: nat) {
    forall t :: t in m.threads && HasReset(m.threads[t], sid) ==> m.threads[t].at.value == |OrderOf(m, sid)| - 1
  }

  lemma StepKeepsLatest(cfg: Config, next: Drafter, m: Machine, tid: nat, sid: nat)
    requires cfg.ubatch > 0 && LocksAgree(m) && CanStep(m, tid) && ResetAlone(m, sid) && ResetLatest(m, sid)
    ensures ResetLatest(Advance(cfg, next, m, tid), sid)
  {
    ThreadsStep(cfg, next, m, tid);
    OrderStep(cfg, next, m, tid, sid);
    LockOrder(m.threads[tid]);
    hide Advance, Move, ActionOf, OrderOf, LocksAgree;
    var m' := Advance(cfg, next, m, tid);
    forall t | t in m'.threads && HasReset(m'.threads[t], sid)
      ensures m'.threads[t].at.value == |OrderOf(m', sid)| - 1
    {
    }
  }

  // Every push of the session is then of its latest turn.
  lemma AloneTakesLatest(cfg: Config, next: Drafter, m: Machine, tid: nat, sid: nat)
    requires cfg.ubatch > 0 && Serialized(cfg, next, m) && tid in m.threads && ResetLatest(m, sid)
    ensures forall p :: p in PushesOf(m.threads[tid]) && p.sid == sid ==> p.turn == |OrderOf(m, sid)| - 1
  {
    PushTakesItsTurn(cfg, next, m, tid);
    hide Serialized, OrderOf;
  }

  ghost predicate TurnsOf(pushes: seq<Push>, m: Machine, sid: nat) {
    forall a :: 0 <= a < |pushes| && pushes[a].sid == sid ==> pushes[a].turn < |OrderOf(m, sid)|
  }

  lemma AloneStep(cfg: Config, next: Drafter, m: Machine, tid: nat, sid: nat, pushes: seq<Push>)
    requires cfg.ubatch > 0 && Serialized(cfg, next, m) && CanStep(m, tid) && ResetAlone(m, sid) && ResetLatest(m, sid)
    requires InLockOrder(pushes, sid) && TurnsOf(pushes, m, sid)
    ensures var all, m' := pushes + PushesOf(m.threads[tid]), Advance(cfg, next, m, tid);
            InLockOrder(all, sid) && TurnsOf(all, m', sid) && ResetLatest(m', sid)
  {
    var pushed := PushesOf(m.threads[tid]);
    PushTakesItsTurn(cfg, next, m, tid);
    AloneTakesLatest(cfg, next, m, tid, sid);
    StepKeepsLatest(cfg, next, m, tid, sid);
    OrderStep(cfg, next, m, tid, sid);
    hide OrderOf, Serialized, CanStep, ResetLatest, ResetAlone;
    assert |pushed| <= 1 && forall a :: 0 <= a < |pushed| ==> pushed[a] in pushed;
    hide PushesOf, Advance;
    var all := pushes + pushed;
    assert forall a :: 0 <= a < |all| ==> all[a] == if a < |pushes| then pushes[a] else pushed[a - |pushes|];
  }

  lemma {:induction false} AloneOrdered(
    cfg: Config, next: Drafter, m: Machine, picks: seq<Pick>, sid: nat, pushes: seq<Push>)
    requires cfg.ubatch > 0 && Serialized(cfg, next, m) && Schedule(cfg, next, m, picks)
    requires ResetsAlone(cfg, next, m, picks, sid) && ResetLatest(m, sid)
    requires InLockOrder(pushes, sid) && TurnsOf(pushes, m, sid)
    ensures InLockOrder(pushes + Pushed(cfg, next, m, picks), sid)
    decreases |picks|
  {
    hide Advance, Serialized, Fits, InLockOrder, TurnsOf, PushesOf, ResetAlone, ResetLatest;
    if picks == [] {
      assert pushes + [] == pushes;
    } else {
      var now := if picks[0].Steps? then PushesOf(m.threads[picks[0].tid]) else [];
      var m' := Picked(cfg, next, m, picks[0]);
      match picks[0] {
        case Arrives(tid, r) =>
          ArrivalSerialized(cfg, next, m, tid, r);
          ArrivalIsNotLatest(m, tid, r, sid, pushes);
          assert pushes + now == pushes;
        case Steps(tid) =>
          AdvanceSerialized(cfg, next, m, tid);
          AloneStep(cfg, next, m, tid, sid, pushes);
      }
      AloneOrdered(cfg, next, m', picks[1..], sid, pushes + now);
      assert pushes + now + Pushed(cfg, next, m', picks[1..]) == pushes + (now + Pushed(cfg, next, m', picks[1..]));
    }
  }

  lemma ArrivalIsNotLatest(m: Machine, tid: nat, r: Request, sid: nat, pushes: seq<Push>)
    requires tid !in m.threads && ResetLatest(m, sid) && TurnsOf(pushes, m, sid)
    ensures ResetLatest(Spawn(m, tid, r), sid) && TurnsOf(pushes, Spawn(m, tid, r), sid)
  {
    NewcomerHasNothing(m, tid, r);
    hide OrderOf;
  }

  // A reset queues its event before it answers, so a caller that waits for its calls to
  // be answered before and after a reset, as the server does, sees its preview events
  // queued in lock order.
  lemma WaitingCallerSeesLockOrder(cfg: Config, next: Drafter, picks: seq<Pick>, sid: nat)
    requires cfg.ubatch > 0 && Schedule(cfg, next, IDLE, picks) && ResetsAlone(cfg, next, IDLE, picks, sid)
    ensures InLockOrder(Pushed(cfg, next, IDLE, picks), sid)
  {
    IdleSerialized(cfg, next);
    hide Serialized, Schedule, Pushed, ResetsAlone;
    AloneOrdered(cfg, next, IDLE, picks, sid, []);
    assert [] + Pushed(cfg, next, IDLE, picks) == Pushed(cfg, next, IDLE, picks);
  }
}
