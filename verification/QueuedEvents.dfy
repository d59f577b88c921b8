// What the handlers put on the renderer's queue, and what becomes of it there.
module QueuedEvents {
  import opened Wire
  import opened DraftEngine
  import opened DraftService
  import opened Handlers
  import opened Serialization
  import opened EventOrder
  import Transcript

  // What a step of a handler appends to the queue.
  function Added(th: Thread): seq<Transcript.Event>
    requires Fits(th.request, th.phase)
  {
    if th.request.RenderReq? then [] else Requeue(th, [])
  }

  // What a pick appends for one handler.
  ghost function Now(m: Machine, pick: Pick, t: nat): seq<Transcript.Event>
    requires Possible(m, pick)
  {
    if pick == Steps(t) then Added(m.threads[t]) else []
  }

  // What one handler appends over a schedule.
  ghost function SaidBy(cfg: Config, next: Drafter, m: Machine, picks: seq<Pick>, t: nat): (r: seq<Transcript.Event>)
    requires cfg.ubatch > 0 && Schedule(cfg, next, m, picks)
    decreases |picks|
  {
    if picks == [] then []
    else
      Now(m, picks[0], t) + SaidBy(cfg, next, Picked(cfg, next, m, picks[0]), picks[1..], t)
  }

  // How many of its n events a handler that has its turn still has to append.
  function Left(th: Thread, n: nat): nat {
    match th.phase
    case Guard => n
    case Truncating => n
    case Injecting => n
    case Noising => n
    case Clearing => n
    case Restarting => n
    case Unlocking => n
    case WantQueue(k) => k
    case HoldQueue(k) => k
    case _ => 0
  }

  // What it has appended, when its session was in state `before` at its turn.
  ghost predicate SaidOn(cfg: Config, next: Drafter, th: Thread, before: SessionState, said: seq<Transcript.Event>)
    requires cfg.ubatch > 0 && HasSession(th.request)
  {
    var all := Events(cfg, next, before, CallOf(th.request));
    Left(th, |all|) <= |all| && said == all[..|all| - Left(th, |all|)]
  }

  // The state that the sequential run has at turn i.
  function Before(cfg: Config, next: Drafter, m: Machine, sid: nat, i: nat): SessionState
    requires cfg.ubatch > 0 && i <= |OrderOf(m, sid)|
  {
    Serial(cfg, next, OrderOf(m, sid)[..i])
  }

  ghost predicate SaidRight(cfg: Config, next: Drafter, m: Machine, t: nat, said: seq<Transcript.Event>)
    requires cfg.ubatch > 0
  {
    if t !in m.threads || m.threads[t].at.None? then said == []
    else
      var th := m.threads[t];
      && HasSession(th.request) && th.at.value < |OrderOf(m, th.request.sid)|
      && SaidOn(cfg, next, th, Before(cfg, next, m, th.request.sid, th.at.value), said)
  }

  // A handler with its turn makes a step.
  lemma MoverSays(cfg: Config, next: Drafter, th: Thread, s: SessionState, found: bool, before: SessionState,
                  said: seq<Transcript.Event>)
    requires cfg.ubatch > 0 && Fits(th.request, th.phase) && HasSession(th.request) && !Early(th)
    requires HasSessionLock(th) ==> OnCourse(cfg, next, th, before) && s == Midway(cfg, next, th, before)
    requires SaidOn(cfg, next, th, before, said)
    ensures SaidOn(cfg, next, Move(cfg, next, th, s, found), before, said + Added(th))
  {
    hide TakeAccepted, DraftBlock, Prefill, HandleDraft, Handle;
    HandlesDraft(cfg, next, before, CallOf(th.request));
    assert said + [] == said;
  }

  lemma HandlesDraft(cfg: Config, next: Drafter, s: SessionState, call: Call)
    requires cfg.ubatch > 0
    ensures call.DraftCall? ==>
              Handle(cfg, next, s, call).1 == DraftAnswer(HandleDraft(cfg, next, s, call.req, call.fate).1)
  {
  }

  // A handler takes its session's lock.
  lemma TakerSays(cfg: Config, next: Drafter, th: Thread, s: SessionState, at: nat)
    requires cfg.ubatch > 0 && Fits(th.request, th.phase) && ActionOf(th) == TakeSession && HasSession(th.request)
    ensures SaidOn(cfg, next, Move(cfg, next, th, s, true).(at := Some(at)), s, Added(th))
  {
    hide HandleDraft;
  }

  lemma OutsiderSays(th: Thread)
    requires Fits(th.request, th.phase) && KnowsTurn(th) && th.at.None?
    ensures Added(th) == []
  {
  }

  // Where a handler with its turn finds its session.
  lemma MoverStands(cfg: Config, next: Drafter, m: Machine, tid: nat)
    requires cfg.ubatch > 0 && Serialized(cfg, next, m) && CanStep(m, tid) && m.threads[tid].at.Some?
    ensures var th := m.threads[tid];
            && Fits(th.request, th.phase) && HasSession(th.request) && !Early(th)
            && var sid, i := th.request.sid, th.at.value;
               i < |OrderOf(m, sid)|
               && (HasSessionLock(th) ==>
                     var before := Before(cfg, next, m, sid, i);
                     OnCourse(cfg, next, th, before) && SessionOf(m, th) == Midway(cfg, next, th, before))
  {
    hide Serial, Midway, OnCourse, OrderOf, SerialReply, ReplySerial, TurnOwned;
    var th := m.threads[tid];
    assert PlaceOwned(m, tid) && ThreadKnown(m.sessions, th);
    if HasSessionLock(th) {
      assert th.request.sid in m.locks && m.locks[th.request.sid] == tid;
      assert SessionSerial(cfg, next, m, th.request.sid);
    }
  }

  // Turns already taken keep the state they found.
  lemma BeforeStays(cfg: Config, next: Drafter, m: Machine, tid: nat, sid: nat, i: nat)
    requires cfg.ubatch > 0 && LocksAgree(m) && CanStep(m, tid) && i <= |OrderOf(m, sid)|
    ensures var m' := Advance(cfg, next, m, tid);
            && |OrderOf(m, sid)| <= |OrderOf(m', sid)|
            && Before(cfg, next, m', sid, i) == Before(cfg, next, m, sid, i)
  {
    OrderStep(cfg, next, m, tid, sid);
    hide Advance, OrderOf, Serial, LocksAgree, CanStep, Extra;
    assert OrderOf(Advance(cfg, next, m, tid), sid)[..i] == OrderOf(m, sid)[..i];
  }

  lemma OtherSays(cfg: Config, next: Drafter, m: Machine, tid: nat, t: nat, said: seq<Transcript.Event>)
    requires cfg.ubatch > 0 && LocksAgree(m) && CanStep(m, tid) && t != tid && SaidRight(cfg, next, m, t, said)
    ensures SaidRight(cfg, next, Advance(cfg, next, m, tid), t, said)
  {
    ThreadsStep(cfg, next, m, tid);
    if t in m.threads && m.threads[t].at.Some? {
      BeforeStays(cfg, next, m, tid, m.threads[t].request.sid, m.threads[t].at.value);
    }
    hide Advance, OrderOf, Before, SaidOn, LocksAgree, CanStep;
  }

  lemma PlacedSays(cfg: Config, next: Drafter, m: Machine, tid: nat, said: seq<Transcript.Event>)
    requires cfg.ubatch > 0 && Serialized(cfg, next, m) && CanStep(m, tid) && SaidRight(cfg, next, m, tid, said)
    requires m.threads[tid].at.Some?
    ensures Fits(m.threads[tid].request, m.threads[tid].phase)
    ensures SaidRight(cfg, next, Advance(cfg, next, m, tid), tid, said + Added(m.threads[tid]))
  {
    var th := m.threads[tid];
    var s, found := SessionOf(m, th), HasSession(th.request) && th.request.sid in m.sessions;
    MoverStands(cfg, next, m, tid);
    ThreadsStep(cfg, next, m, tid);
    BeforeStays(cfg, next, m, tid, th.request.sid, th.at.value);
    MoverSays(cfg, next, th, s, found, Before(cfg, next, m, th.request.sid, th.at.value), said);
    TakesOnce(th);
    var th', moved := Advance(cfg, next, m, tid).threads[tid], Move(cfg, next, th, s, found);
    SameLeft(cfg, next, moved, th', Before(cfg, next, m, th.request.sid, th.at.value), said + Added(th));
    hide Advance, Move, OrderOf, Before, SaidOn, Serialized, CanStep, Midway, OnCourse, HasSessionLock, Added, Early,
      ActionOf;
  }

  lemma TakesOnce(th: Thread)
    requires !Early(th)
    ensures ActionOf(th) != TakeSession
  {
  }

  lemma SameLeft(cfg: Config, next: Drafter, th: Thread, th': Thread, before: SessionState,
                 said: seq<Transcript.Event>)
    requires cfg.ubatch > 0 && HasSession(th.request) && th' == th.(at := th'.at)
    requires SaidOn(cfg, next, th, before, said)
    ensures SaidOn(cfg, next, th', before, said)
  {
  }

  lemma NewlyPlacedSays(cfg: Config, next: Drafter, m: Machine, tid: nat)
    requires cfg.ubatch > 0 && Serialized(cfg, next, m) && TurnsKnown(m) && CanStep(m, tid)
    requires Fits(m.threads[tid].request, m.threads[tid].phase) && m.threads[tid].at.None?
    ensures Added(m.threads[tid]) == []
    ensures SaidRight(cfg, next, Advance(cfg, next, m, tid), tid, [])
  {
    var th, m' := m.threads[tid], Advance(cfg, next, m, tid);
    OutsiderSays(th);
    ThreadsStep(cfg, next, m, tid);
    if ActionOf(th) == TakeSession {
      var sid := th.request.sid;
      FreeAtTurn(cfg, next, m, tid);
      OrderStep(cfg, next, m, tid, sid);
      TakerSays(cfg, next, th, SessionOf(m, th), |OrderOf(m, sid)|);
      assert OrderOf(m', sid)[..|OrderOf(m, sid)|] == OrderOf(m, sid);
      hide Advance, Move, OrderOf, SaidOn, Serialized, CanStep, Added, Serial, ActionOf;
    }
  }

  // Whoever takes a session's lock finds it where the turns before left it.
  lemma FreeAtTurn(cfg: Config, next: Drafter, m: Machine, tid: nat)
    requires cfg.ubatch > 0 && Serialized(cfg, next, m) && CanStep(m, tid) && ActionOf(m.threads[tid]) == TakeSession
    ensures var th := m.threads[tid];
            && HasSession(th.request) && th.request.sid in m.sessions
            && SessionOf(m, th) == Serial(cfg, next, OrderOf(m, th.request.sid))
  {
    hide Serial, Midway, OnCourse, OrderOf, ReplySerial, OrderOwned;
    var th := m.threads[tid];
    assert ThreadKnown(m.sessions, th) && Bound(th);
    assert SessionSerial(cfg, next, m, th.request.sid);
  }

  lemma StepSays(cfg: Config, next: Drafter, m: Machine, tid: nat, t: nat, said: seq<Transcript.Event>)
    requires cfg.ubatch > 0 && Serialized(cfg, next, m) && TurnsKnown(m) && SaidRight(cfg, next, m, t, said)
    requires CanStep(m, tid) && Fits(m.threads[tid].request, m.threads[tid].phase)
    ensures SaidRight(cfg, next, Advance(cfg, next, m, tid), t, said + (if t == tid then Added(m.threads[tid]) else []))
  {
    assert tid in m.threads;
    hide Advance, CanStep, OrderOf, Before, SaidOn, Added, Known, OrderOwned;
    assert said + [] == said;
    if t != tid {
      OtherSays(cfg, next, m, tid, t, said);
    } else if m.threads[tid].at.Some? {
      PlacedSays(cfg, next, m, tid, said);
    } else {
      NewlyPlacedSays(cfg, next, m, tid);
    }
  }

  lemma ArrivalSays(cfg: Config, next: Drafter, m: Machine, tid: nat, r: Request, t: nat,
                    said: seq<Transcript.Event>)
    requires cfg.ubatch > 0 && tid !in m.threads && SaidRight(cfg, next, m, t, said)
    ensures SaidRight(cfg, next, Spawn(m, tid, r), t, said)
  {
    NewcomerHasNothing(m, tid, r);
    hide OrderOf, SaidOn;
  }

  lemma ArrivalKnowsTurns(m: Machine, tid: nat, r: Request)
    requires tid !in m.threads && TurnsKnown(m)
    ensures TurnsKnown(Spawn(m, tid, r))
  {
  }

  lemma PickSays(cfg: Config, next: Drafter, m: Machine, pick: Pick, t: nat, said: seq<Transcript.Event>)
    requires cfg.ubatch > 0 && Serialized(cfg, next, m) && TurnsKnown(m) && Possible(m, pick)
    requires SaidRight(cfg, next, m, t, said)
    ensures Serialized(cfg, next, Picked(cfg, next, m, pick)) && TurnsKnown(Picked(cfg, next, m, pick))
    ensures SaidRight(cfg, next, Picked(cfg, next, m, pick), t, said + Now(m, pick, t))
  {
    hide Advance, Serialized, TurnsKnown, SaidRight, Added, Spawn;
    match pick
    case Arrives(tid, r) =>
      ArrivalSerialized(cfg, next, m, tid, r);
      ArrivalKnowsTurns(m, tid, r);
      ArrivalSays(cfg, next, m, tid, r, t, said);
      assert said + [] == said;
    case Steps(tid) =>
      AdvanceSerialized(cfg, next, m, tid);
      StepKnowsTurns(cfg, next, m, tid);
      StepSays(cfg, next, m, tid, t, said);
  }

  lemma {:induction false} PlayedSays(cfg: Config, next: Drafter, m: Machine, picks: seq<Pick>, t: nat,
                                      said: seq<Transcript.Event>)
    requires cfg.ubatch > 0 && Serialized(cfg, next, m) && TurnsKnown(m) && Schedule(cfg, next, m, picks)
    requires SaidRight(cfg, next, m, t, said)
    ensures SaidRight(cfg, next, Played(cfg, next, m, picks), t, said + SaidBy(cfg, next, m, picks, t))
    decreases |picks|
  {
    hide Picked, Possible, Serialized, TurnsKnown, SaidRight, Now;
    if picks == [] {
      assert said + [] == said;
    } else {
      var now, m' := Now(m, picks[0], t), Picked(cfg, next, m, picks[0]);
      PickSays(cfg, next, m, picks[0], t, said);
      PlayedSays(cfg, next, m', picks[1..], t, said + now);
      var later := SaidBy(cfg, next, m', picks[1..], t);
      assert (said + now) + later == said + (now + later);
    }
  }

  // In every schedule: a finished handler has queued exactly the events that the
  // sequential run of its session announces at its turn, in order, and nothing when it
  // found no session.
  lemma HandlersQueueTheirEvents(cfg: Config, next: Drafter, picks: seq<Pick>, t: nat)
    requires cfg.ubatch > 0 && Schedule(cfg, next, IDLE, picks)
    requires var m := Played(cfg, next, IDLE, picks); t in m.threads && m.threads[t].phase == Done
    ensures var m := Played(cfg, next, IDLE, picks);
            var th, said := m.threads[t], SaidBy(cfg, next, IDLE, picks, t);
            if th.at.None? then said == []
            else
              && HasSession(th.request) && th.at.value <= |OrderOf(m, th.request.sid)|
              && var before := After(cfg, next, NEW_SESSION, Calls(OrderOf(m, th.request.sid)[..th.at.value]));
                 said == Events(cfg, next, before, CallOf(th.request))
  {
    hide Serialized, Schedule, SaidBy, Played, OrderOf;
    IdleSerialized(cfg, next);
    IdleSays(cfg, next, t);
    PlayedSays(cfg, next, IDLE, picks, t, []);
    var said := SaidBy(cfg, next, IDLE, picks, t);
    assert [] + said == said;
    hide Events;
  }

  lemma IdleSays(cfg: Config, next: Drafter, t: nat)
    requires cfg.ubatch > 0
    ensures TurnsKnown(IDLE) && SaidRight(cfg, next, IDLE, t, [])
  {
  }

  // ----- first in, first out -----

  // What a pick appends, whichever handler it is of.
  ghost function Says(m: Machine, pick: Pick): seq<Transcript.Event>
    requires Possible(m, pick)
  {
    if pick.Steps? then Added(m.threads[pick.tid]) else []
  }

  // What the renderer's worker takes.
  ghost function Takes(m: Machine, pick: Pick): seq<Transcript.Event>
    requires Possible(m, pick)
  {
    if !pick.Steps? then []
    else
      var th := m.threads[pick.tid];
      if th.request.RenderReq? && th.phase.HoldQueue? && m.queue != [] then [m.queue[0]] else []
  }

  ghost function AllSaid(cfg: Config, next: Drafter, m: Machine, picks: seq<Pick>): seq<Transcript.Event>
    requires cfg.ubatch > 0 && Schedule(cfg, next, m, picks)
    decreases |picks|
  {
    if picks == [] then []
    else Says(m, picks[0]) + AllSaid(cfg, next, Picked(cfg, next, m, picks[0]), picks[1..])
  }

  ghost function AllTaken(cfg: Config, next: Drafter, m: Machine, picks: seq<Pick>): seq<Transcript.Event>
    requires cfg.ubatch > 0 && Schedule(cfg, next, m, picks)
    decreases |picks|
  {
    if picks == [] then []
    else Takes(m, picks[0]) + AllTaken(cfg, next, Picked(cfg, next, m, picks[0]), picks[1..])
  }

  lemma PickQueues(cfg: Config, next: Drafter, m: Machine, pick: Pick)
    requires cfg.ubatch > 0 && Possible(m, pick)
    ensures Takes(m, pick) + Picked(cfg, next, m, pick).queue == m.queue + Says(m, pick)
  {
    hide Move, Change, ActionOf;
    assert m.queue != [] ==> [m.queue[0]] + m.queue[1..] == m.queue;
  }

  lemma QueuesJoin<T>(taken: seq<T>, later: seq<T>, left: seq<T>, before: seq<T>, after: seq<T>, said: seq<T>,
                      more: seq<T>)
    requires taken + after == before + said && later + left == after + more
    ensures (taken + later) + left == before + (said + more)
  {
    assert (taken + later) + left == taken + (later + left);
    assert taken + (after + more) == (taken + after) + more;
    assert (before + said) + more == before + (said + more);
  }

  // In every schedule the worker has taken what the handlers appended, in that order, up
  // to what is still queued.
  lemma {:induction false} QueueIsFifo(cfg: Config, next: Drafter, m: Machine, picks: seq<Pick>)
    requires cfg.ubatch > 0 && Schedule(cfg, next, m, picks)
    ensures AllTaken(cfg, next, m, picks) + Played(cfg, next, m, picks).queue
         == m.queue + AllSaid(cfg, next, m, picks)
    decreases |picks|
  {
    hide Picked, Possible, Says, Takes;
    if picks == [] {
    } else {
      var m' := Picked(cfg, next, m, picks[0]);
      PickQueues(cfg, next, m, picks[0]);
      QueueIsFifo(cfg, next, m', picks[1..]);
      QueuesJoin(Takes(m, picks[0]), AllTaken(cfg, next, m', picks[1..]), Played(cfg, next, m', picks[1..]).queue,
                 m.queue, m'.queue, Says(m, picks[0]), AllSaid(cfg, next, m', picks[1..]));
    }
  }
}
