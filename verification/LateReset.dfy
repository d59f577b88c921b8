// A schedule in which a reset's preview event is queued late.
module LateReset {
  import opened Wire
  import opened DraftEngine
  import opened DraftService
  import opened Handlers
  import opened Serialization
  import opened EventOrder

  // ----- building schedules -----

  ghost function PushesAt(m: Machine, pick: Pick): seq<Push>
    requires Possible(m, pick)
  {
    if pick.Steps? then PushesOf(m.threads[pick.tid]) else []
  }

  lemma {:induction false} OneMorePick(cfg: Config, next: Drafter, m: Machine, picks: seq<Pick>, pick: Pick)
    requires cfg.ubatch > 0 && Schedule(cfg, next, m, picks) && Possible(Played(cfg, next, m, picks), pick)
    ensures Schedule(cfg, next, m, picks + [pick])
    ensures Played(cfg, next, m, picks + [pick]) == Picked(cfg, next, Played(cfg, next, m, picks), pick)
    ensures Pushed(cfg, next, m, picks + [pick])
         == Pushed(cfg, next, m, picks) + PushesAt(Played(cfg, next, m, picks), pick)
    decreases |picks|
  {
    hide Advance, CanStep, Fits, PushesOf;
    var all := picks + [pick];
    if picks == [] {
      assert all == [pick] && [pick][1..] == [];
      var m' := Picked(cfg, next, m, pick);
      assert Schedule(cfg, next, m', []) && Played(cfg, next, m', []) == m' && Pushed(cfg, next, m', []) == [];
      assert PushesAt(m, pick) + [] == PushesAt(m, pick) && [] + PushesAt(m, pick) == PushesAt(m, pick);
    } else {
      var m' := Picked(cfg, next, m, picks[0]);
      assert all[0] == picks[0] && all[1..] == picks[1..] + [pick];
      OneMorePick(cfg, next, m', picks[1..], pick);
      var first, rest := PushesAt(m, picks[0]), Pushed(cfg, next, m', picks[1..]);
      var last := PushesAt(Played(cfg, next, m', picks[1..]), pick);
      assert (first + rest) + last == first + (rest + last);
    }
  }

  // ----- the two handlers -----

  // Session 1, a handler 1 that serves a prefill of it and a handler 2 that resets it:
  // who has which lock, how many turns were taken, and what was pushed.
  datatype View = View(
    prefill: Option<Thread>,
    reset: Option<Thread>,
    table: Option<nat>,
    lock: Option<nat>,
    queueLock: Option<nat>,
    turns: nat,
    pushes: seq<Push>)

  ghost predicate Shows(m: Machine, v: View) {
    && 1 in m.sessions && |OrderOf(m, 1)| == v.turns
    && (1 in m.threads <==> v.prefill.Some?) && (v.prefill.Some? ==> m.threads[1] == v.prefill.value)
    && (2 in m.threads <==> v.reset.Some?) && (v.reset.Some? ==> m.threads[2] == v.reset.value)
    && m.table == v.table && m.queueLock == v.queueLock
    && (1 in m.locks <==> v.lock.Some?)
  }

  ghost predicate Seen(cfg: Config, next: Drafter, picks: seq<Pick>, v: View)
    requires cfg.ubatch > 0
  {
    && Schedule(cfg, next, IDLE, picks)
    && Shows(Played(cfg, next, IDLE, picks), v)
    && Pushed(cfg, next, IDLE, picks) == v.pushes
  }

  function ThreadOf(v: View, tid: nat): Option<Thread> {
    if tid == 1 then v.prefill else if tid == 2 then v.reset else None
  }

  predicate Serves(th: Thread) {
    (th.request.PrefillReq? || th.request.ResetReq?) && th.request.sid == 1 && Fits(th.request, th.phase)
  }

  predicate MayStep(v: View, tid: nat) {
    && ThreadOf(v, tid).Some? && Serves(ThreadOf(v, tid).value) && ThreadOf(v, tid).value.phase != Done
    && match ActionOf(ThreadOf(v, tid).value)
       case TakeTable => v.table == None
       case TakeSession => v.lock == None
       case TakeQueue => v.queueLock == None
       case _ => true
  }

  function Holder(action: LockAction, tid: nat, holder: Option<nat>, takes: LockAction, drops: LockAction)
    : Option<nat>
  {
    if action == takes then Some(tid) else if action == drops then None else holder
  }

  // The view after a step that turns the thread into th'.
  function Stepped(v: View, tid: nat, th': Thread): View
    requires ThreadOf(v, tid).Some?
  {
    var th := ThreadOf(v, tid).value;
    var action := ActionOf(th);
    View(
      if tid == 1 then Some(th') else v.prefill,
      if tid == 2 then Some(th') else v.reset,
      Holder(action, tid, v.table, TakeTable, DropTable),
      Holder(action, tid, v.lock, TakeSession, DropSession),
      Holder(action, tid, v.queueLock, TakeQueue, DropQueue),
      if action == TakeSession then v.turns + 1 else v.turns,
      v.pushes + PushesOf(th))
  }

  lemma StepShows(cfg: Config, next: Drafter, m: Machine, v: View, tid: nat) returns (th': Thread)
    requires cfg.ubatch > 0 && Shows(m, v) && MayStep(v, tid)
    ensures Possible(m, Steps(tid)) && Shows(Picked(cfg, next, m, Steps(tid)), Stepped(v, tid, th'))
    ensures PushesAt(m, Steps(tid)) == PushesOf(ThreadOf(v, tid).value)
    ensures var th := ThreadOf(v, tid).value;
            && th'.request == th.request
            && th'.phase == Move(cfg, next, th, NEW_SESSION, true).phase
            && th'.at == (if ActionOf(th) == TakeSession then Some(v.turns) else th.at)
  {
    hide Prefill, Draft, TakeAccepted, DraftBlock, Requeue, PushesOf;
    var th := ThreadOf(v, tid).value;
    th' := Advance(cfg, next, m, tid).threads[tid];
  }

  lemma Go(cfg: Config, next: Drafter, picks: seq<Pick>, v: View, tid: nat) returns (picks': seq<Pick>, v': View)
    requires cfg.ubatch > 0 && Seen(cfg, next, picks, v) && MayStep(v, tid)
    ensures Seen(cfg, next, picks', v') && ThreadOf(v', tid).Some? && v' == Stepped(v, tid, ThreadOf(v', tid).value)
    ensures var th, th' := ThreadOf(v, tid).value, ThreadOf(v', tid).value;
            && th'.request == th.request
            && th'.phase == Move(cfg, next, th, NEW_SESSION, true).phase
            && th'.at == (if ActionOf(th) == TakeSession then Some(v.turns) else th.at)
  {
    hide Possible, Picked, Move, Played, Schedule, Pushed, ActionOf, PushesOf;
    var th' := StepShows(cfg, next, Played(cfg, next, IDLE, picks), v, tid);
    OneMorePick(cfg, next, IDLE, picks, Steps(tid));
    picks', v' := picks + [Steps(tid)], Stepped(v, tid, th');
  }

  const NOBODY := View(None, None, None, None, None, 0, [])

  lemma NothingPlayed(cfg: Config, next: Drafter)
    requires cfg.ubatch > 0
    ensures Schedule(cfg, next, IDLE, []) && Played(cfg, next, IDLE, []) == IDLE && Pushed(cfg, next, IDLE, []) == []
  {
  }

  // A handler of InitSession creates session 1.
  lemma SessionOpens(cfg: Config, next: Drafter) returns (picks: seq<Pick>)
    requires cfg.ubatch > 0
    ensures Seen(cfg, next, picks, NOBODY)
  {
    hide Schedule, Played, Pushed, Prefill, Draft, TakeAccepted, DraftBlock;
    NothingPlayed(cfg, next);
    OneMorePick(cfg, next, IDLE, [], Arrives(0, InitReq));
    picks := [] + [Arrives(0, InitReq)];
    OneMorePick(cfg, next, IDLE, picks, Steps(0));
    picks := picks + [Steps(0)];
    OneMorePick(cfg, next, IDLE, picks, Steps(0));
    picks := picks + [Steps(0)];
    OneMorePick(cfg, next, IDLE, picks, Steps(0));
    picks := picks + [Steps(0)];
  }

  function Arrived(v: View, tid: nat, th: Thread): View {
    if tid == 1 then v.(prefill := Some(th)) else v.(reset := Some(th))
  }

  lemma Arrive(cfg: Config, next: Drafter, picks: seq<Pick>, v: View, tid: nat, r: Request) returns (picks': seq<Pick>)
    requires cfg.ubatch > 0 && Seen(cfg, next, picks, v) && (tid == 1 || tid == 2) && ThreadOf(v, tid).None?
    requires !r.RenderReq?
    ensures Seen(cfg, next, picks', Arrived(v, tid, Thread(r, Start, None, None)))
  {
    hide Schedule, Played, Pushed;
    OneMorePick(cfg, next, IDLE, picks, Arrives(tid, r));
    picks' := picks + [Arrives(tid, r)];
    assert v.pushes + [] == v.pushes;
  }

  // The prefill looks its session up and is about to take its lock.
  lemma PrefillWaits(cfg: Config, next: Drafter, tokens: seq<Packet>, chunks: ChunkFates)
    returns (picks: seq<Pick>, v: View)
    requires cfg.ubatch > 0
    ensures Seen(cfg, next, picks, v) && v == NOBODY.(prefill := v.prefill)
    ensures v.prefill.Some? && v.prefill.value.request == PrefillReq(1, tokens, chunks)
    ensures v.prefill.value.phase == Wait && v.prefill.value.at == None
  {
    hide Seen, Prefill, TakeAccepted, DraftBlock, Stale;
    picks := SessionOpens(cfg, next);
    v := Arrived(NOBODY, 1, Thread(PrefillReq(1, tokens, chunks), Start, None, None));
    picks := Arrive(cfg, next, picks, NOBODY, 1, PrefillReq(1, tokens, chunks));
    picks, v := Go(cfg, next, picks, v, 1);
    picks, v := Go(cfg, next, picks, v, 1);
    picks, v := Go(cfg, next, picks, v, 1);
  }

  // Then a reset looks the session up, keeps the table and takes the session's lock,
  lemma ResetTakes(cfg: Config, next: Drafter, picks: seq<Pick>, v: View) returns (picks': seq<Pick>, v': View)
    requires cfg.ubatch > 0 && Seen(cfg, next, picks, v) && v == NOBODY.(prefill := v.prefill)
    ensures Seen(cfg, next, picks', v')
    ensures v' == View(v.prefill, v'.reset, Some(2), Some(2), None, 1, [])
    ensures v'.reset.Some? && v'.reset.value.request == ResetReq(1)
    ensures v'.reset.value.phase == Clearing && v'.reset.value.at == Some(0)
  {
    hide Seen, Prefill, TakeAccepted, DraftBlock, Stale;
    picks' := Arrive(cfg, next, picks, v, 2, ResetReq(1));
    v' := Arrived(v, 2, Thread(ResetReq(1), Start, None, None));
    picks', v' := Go(cfg, next, picks', v', 2);
    picks', v' := Go(cfg, next, picks', v', 2);
    picks', v' := Go(cfg, next, picks', v', 2);
  }

  // and drops it again, its event still to come.
  lemma ResetDrops(cfg: Config, next: Drafter, picks: seq<Pick>, v: View) returns (picks': seq<Pick>, v': View)
    requires cfg.ubatch > 0 && Seen(cfg, next, picks, v)
    requires v == View(v.prefill, v.reset, Some(2), Some(2), None, 1, [])
    requires v.reset.Some? && v.reset.value.request == ResetReq(1)
    requires v.reset.value.phase == Clearing && v.reset.value.at == Some(0)
    ensures Seen(cfg, next, picks', v')
    ensures v' == View(v.prefill, v'.reset, Some(2), None, None, 1, [])
    ensures v'.reset.Some? && v'.reset.value.request == ResetReq(1)
    ensures v'.reset.value.phase == WantQueue(1) && v'.reset.value.at == Some(0)
  {
    hide Seen, Prefill, TakeAccepted, DraftBlock, Stale;
    picks', v' := Go(cfg, next, picks, v, 2);
    picks', v' := Go(cfg, next, picks', v', 2);
    picks', v' := Go(cfg, next, picks', v', 2);
  }

  // The prefill takes the lock and queues its event,
  lemma PrefillPushes(cfg: Config, next: Drafter, picks: seq<Pick>, v: View) returns (picks': seq<Pick>, v': View)
    requires cfg.ubatch > 0 && Seen(cfg, next, picks, v)
    requires v == View(v.prefill, v.reset, Some(2), None, None, 1, [])
    requires v.prefill.Some? && v.prefill.value.request.PrefillReq? && v.prefill.value.request.sid == 1
    requires v.prefill.value.request.tokens != [] && v.prefill.value.phase == Wait
    ensures Seen(cfg, next, picks', v')
    ensures v' == View(v'.prefill, v.reset, Some(2), Some(1), None, 2, [Push(1, 1, false)])
  {
    hide Seen, Prefill, TakeAccepted, DraftBlock, Stale;
    picks', v' := Go(cfg, next, picks, v, 1);
    picks', v' := Go(cfg, next, picks', v', 1);
    picks', v' := Go(cfg, next, picks', v', 1);
  }

  // and the reset queues its own after it.
  lemma ResetPushes(cfg: Config, next: Drafter, picks: seq<Pick>, v: View) returns (picks': seq<Pick>, v': View)
    requires cfg.ubatch > 0 && Seen(cfg, next, picks, v)
    requires v == View(v.prefill, v.reset, Some(2), Some(1), None, 2, [Push(1, 1, false)])
    requires v.reset.Some? && v.reset.value.request == ResetReq(1)
    requires v.reset.value.phase == WantQueue(1) && v.reset.value.at == Some(0)
    ensures Seen(cfg, next, picks', v') && v'.pushes == [Push(1, 1, false), Push(1, 0, true)]
  {
    hide Seen, Prefill, TakeAccepted, DraftBlock, Stale;
    picks', v' := Go(cfg, next, picks, v, 2);
    picks', v' := Go(cfg, next, picks', v', 2);
  }

  // For any prefill with tokens there is a schedule in which it looks its session up
  // before a reset, takes the lock after it, and queues its event first: the reset, of
  // turn 0, is queued after the prefill, of turn 1, so the preview forgets the prefill.
  lemma ResetCanBeLate(cfg: Config, next: Drafter, tokens: seq<Packet>, chunks: ChunkFates) returns (picks: seq<Pick>)
    requires cfg.ubatch > 0 && tokens != []
    ensures Schedule(cfg, next, IDLE, picks)
    ensures Pushed(cfg, next, IDLE, picks) == [Push(1, 1, false), Push(1, 0, true)]
    ensures !InLockOrder(Pushed(cfg, next, IDLE, picks), 1)
  {
    hide Seen;
    var v: View;
    picks, v := PrefillWaits(cfg, next, tokens, chunks);
    picks, v := ResetTakes(cfg, next, picks, v);
    picks, v := ResetDrops(cfg, next, picks, v);
    picks, v := PrefillPushes(cfg, next, picks, v);
    picks, v := ResetPushes(cfg, next, picks, v);
    PushedIs(cfg, next, picks, v);
    assert v.pushes[0].sid == v.pushes[1].sid == 1 && v.pushes[0].turn > v.pushes[1].turn;
  }

  lemma PushedIs(cfg: Config, next: Drafter, picks: seq<Pick>, v: View)
    requires cfg.ubatch > 0 && Seen(cfg, next, picks, v)
    ensures Schedule(cfg, next, IDLE, picks) && Pushed(cfg, next, IDLE, picks) == v.pushes
  {
  }
}
