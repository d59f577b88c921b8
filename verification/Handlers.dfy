// The request handlers as threads: the session table's mutex, one mutex a session,
// and the renderer queue's mutex. A handler is a sequence of small steps, and any
// scheduler may interleave the steps of any number of handlers.
module Handlers {
  import opened Wire
  import opened DraftEngine
  import opened DraftService
  import Transcript

  datatype Request =
    | InitReq
    | PrefillReq(sid: nat, tokens: seq<Packet>, chunks: ChunkFates)
    | DraftReq(sid: nat, req: DraftRequest, fate: Fate)
    | ResetReq(sid: nat)
    // the renderer's worker taking one event
    | RenderReq

  datatype Phase =
    | Start        // wants the table
    | Looked       // has the table, about to look up or insert
    | Handing      // has the table, found the session, about to let the table go
    | Wait         // wants the session
    | WaitUnder    // wants the session while it keeps the table (Reset)
    | Guard | Truncating | Injecting | Noising   // Draft, with the session
    | Filling                                    // Prefill, with the session
    | Clearing | Restarting | Unlocking          // Reset, with table and session
    | WantQueue(left: nat)                       // wants the queue for `left` events
    | HoldQueue(left: nat)
    | Exit         // has the session, about to let it go
    | Leaving      // has the table, about to let it go
    | Done

  // `at` is the thread's place in its session's lock order.
  datatype Thread = Thread(request: Request, phase: Phase, reply: Option<Reply>, at: Option<nat>)

  datatype Turn = Turn(tid: nat, call: Call)

  datatype Machine = Machine(
    threads: map<nat, Thread>,
    table: Option<nat>,
    locks: map<nat, nat>,
    queueLock: Option<nat>,
    sessions: map<nat, SessionState>,
    nextSessionId: nat,
    // the calls of a session in the order they took its lock
    order: map<nat, seq<Turn>>,
    queue: seq<Transcript.Event>)

  predicate HasSession(r: Request) {
    r.PrefillReq? || r.DraftReq? || r.ResetReq?
  }

  function CallOf(r: Request): Call
    requires HasSession(r)
  {
    match r
    case PrefillReq(_, tokens, chunks) => PrefillCall(tokens, chunks)
    case DraftReq(_, req, fate) => DraftCall(req, fate)
    case ResetReq(_) => ResetCall
  }

  // Which phases a handler goes through.
  predicate Fits(r: Request, p: Phase) {
    match p
    case Start => !r.RenderReq?
    case Looked => !r.RenderReq?
    case Handing => r.PrefillReq? || r.DraftReq?
    case Wait => r.PrefillReq? || r.DraftReq?
    case WaitUnder => r.ResetReq?
    case Guard => r.DraftReq?
    case Truncating => r.DraftReq?
    case Injecting => r.DraftReq?
    case Noising => r.DraftReq?
    case Filling => r.PrefillReq?
    case Clearing => r.ResetReq?
    case Restarting => r.ResetReq?
    case Unlocking => r.ResetReq?
    case WantQueue(n) => !r.InitReq? && 1 <= n <= 2 && (n == 2 ==> r.DraftReq?)
    case HoldQueue(n) => !r.InitReq? && 1 <= n <= 2 && (n == 2 ==> r.DraftReq?)
    case Exit => r.PrefillReq? || r.DraftReq?
    case Leaving => !r.RenderReq?
    case Done => true
  }

  // ----- one step of one thread -----

  datatype LockAction = TakeTable | DropTable | TakeSession | DropSession | TakeQueue | DropQueue | NoLock

  function ActionOf(th: Thread): LockAction {
    match th.phase
    case Start => TakeTable
    case Handing => DropTable
    case Wait => TakeSession
    case WaitUnder => TakeSession
    case Unlocking => DropSession
    case WantQueue(_) => TakeQueue
    case HoldQueue(_) => DropQueue
    case Exit => DropSession
    case Leaving => DropTable
    case _ => NoLock
  }

  // Where the thread goes next; s is its session's state, found whether it has one.
  function Move(cfg: Config, next: Drafter, th: Thread, s: SessionState, found: bool): Thread
    requires cfg.ubatch > 0 && Fits(th.request, th.phase)
  {
    var r := th.request;
    match th.phase
    case Start => th.(phase := Looked)
    case Looked =>
      if r.InitReq? || !found then th.(phase := Leaving)
      else if r.ResetReq? then th.(phase := WaitUnder)
      else th.(phase := Handing)
    case Handing => th.(phase := Wait)
    case Wait =>
      if r.DraftReq? then th.(phase := Guard)
      else if r.tokens == [] then th.(phase := Filling)
      else th.(phase := WantQueue(1))
    case WaitUnder => th.(phase := Clearing)
    case Guard =>
      if Stale(s, r.req) then th.(phase := Exit, reply := Some(DraftAnswer(STALE)))
      else th.(phase := Truncating)
    case Truncating => th.(phase := Injecting)
    case Injecting =>
      if TakeAccepted(cfg, s.engine, r.req.accepted, r.fate.chunks).1 then th.(phase := Noising)
      else th.(phase := WantQueue(2),
               reply := Some(DraftAnswer(DraftReply(r.req.stepId, false, "feature injection failed", []))))
    case Noising =>
      th.(phase := WantQueue(2),
          reply := Some(DraftAnswer(DraftBlock(cfg, next, s.engine, r.req, r.fate.noise).1)))
    case Filling =>
      th.(phase := Exit, reply := Some(PrefillAnswer(Prefill(cfg, s.engine, r.tokens, r.chunks).1)))
    case Clearing => th.(phase := Restarting)
    case Restarting => th.(phase := Unlocking, reply := Some(ResetAnswer(true)))
    case Unlocking => th.(phase := WantQueue(1))
    case WantQueue(n) => th.(phase := HoldQueue(n))
    case HoldQueue(n) =>
      if n == 2 then th.(phase := WantQueue(1))
      else if r.PrefillReq? then th.(phase := Filling)
      else if r.DraftReq? then th.(phase := Exit)
      else if r.ResetReq? then th.(phase := Leaving)
      else th.(phase := Done)
    case Exit => th.(phase := Done)
    case Leaving => th.(phase := Done)
    case Done => th
  }

  // What the step does to the session's state.
  function Change(cfg: Config, next: Drafter, th: Thread, s: SessionState): SessionState
    requires cfg.ubatch > 0 && Fits(th.request, th.phase)
  {
    var r := th.request;
    match th.phase
    case Guard => if Stale(s, r.req) then s else s.(lastStepId := r.req.stepId)
    case Truncating => s.(engine := DropTransient(s.engine))
    case Injecting => s.(engine := TakeAccepted(cfg, s.engine, r.req.accepted, r.fate.chunks).0)
    case Noising => s.(engine := DraftBlock(cfg, next, s.engine, r.req, r.fate.noise).0)
    case Filling => s.(engine := Prefill(cfg, s.engine, r.tokens, r.chunks).0)
    case Clearing => s.(engine := FRESH)
    case Restarting => s.(lastStepId := 0)
    case _ => s
  }

  // What a thread that has the queue does to it.
  function Requeue(th: Thread, queue: seq<Transcript.Event>): seq<Transcript.Event>
    requires Fits(th.request, th.phase)
  {
    if !th.phase.HoldQueue? then queue
    else match th.request
      case PrefillReq(_, tokens, _) => queue + [Transcript.Accepted(Tokens(tokens))]
      case DraftReq(_, req, _) =>
        if th.phase.left == 2 then queue + [Transcript.Verdict(Tokens(req.accepted))]
        else
          var answered := th.reply.Some? && th.reply.value.DraftAnswer?;
          queue + [Transcript.Drafted(if answered then th.reply.value.draft.tokens else [])]
      case ResetReq(_) => queue + [Transcript.Cleared]
      case _ => if queue == [] then queue else queue[1..]
  }

  predicate CanStep(m: Machine, tid: nat) {
    && tid in m.threads
    && m.threads[tid].phase != Done
    && match ActionOf(m.threads[tid])
       case TakeTable => m.table == None
       case TakeSession => HasSession(m.threads[tid].request) && m.threads[tid].request.sid !in m.locks
       case TakeQueue => m.queueLock == None
       case _ => true
  }

  function SessionOf(m: Machine, th: Thread): SessionState {
    if HasSession(th.request) && th.request.sid in m.sessions then m.sessions[th.request.sid] else NEW_SESSION
  }

  function OrderOf(m: Machine, sid: nat): seq<Turn> {
    if sid in m.order then m.order[sid] else []
  }

  function Advance(cfg: Config, next: Drafter, m: Machine, tid: nat): Machine
    requires cfg.ubatch > 0 && CanStep(m, tid) && Fits(m.threads[tid].request, m.threads[tid].phase)
  {
    var th := m.threads[tid];
    var r := th.request;
    var found := HasSession(r) && r.sid in m.sessions;
    var s := SessionOf(m, th);
    var action := ActionOf(th);
    var moved := Move(cfg, next, th, s, found);
    var th' := if action == TakeSession then moved.(at := Some(|OrderOf(m, r.sid)|)) else moved;
    var inserts := th.phase.Looked? && r.InitReq?;
    Machine(
      m.threads[tid := th'],
      if action == TakeTable then Some(tid) else if action == DropTable then None else m.table,
      if action == TakeSession then m.locks[r.sid := tid]
      else if action == DropSession && HasSession(r) then m.locks - {r.sid} else m.locks,
      if action == TakeQueue then Some(tid) else if action == DropQueue then None else m.queueLock,
      if inserts then m.sessions[m.nextSessionId := NEW_SESSION]
      else if found then m.sessions[r.sid := Change(cfg, next, th, s)] else m.sessions,
      if inserts then m.nextSessionId + 1 else m.nextSessionId,
      if action == TakeSession then m.order[r.sid := OrderOf(m, r.sid) + [Turn(tid, CallOf(r))]] else m.order,
      Requeue(th, m.queue))
  }

  function Spawn(m: Machine, tid: nat, r: Request): Machine
    requires tid !in m.threads
  {
    m.(threads := m.threads[tid := Thread(r, if r.RenderReq? then WantQueue(1) else Start, None, None)])
  }

  // A schedule: threads arrive and take steps in any order.
  datatype Pick = Arrives(tid: nat, request: Request) | Steps(tid: nat)

  const IDLE := Machine(map[], None, map[], None, map[], 1, map[], [])

  ghost predicate Possible(m: Machine, pick: Pick) {
    match pick
    case Arrives(tid, _) => tid !in m.threads
    case Steps(tid) => CanStep(m, tid) && Fits(m.threads[tid].request, m.threads[tid].phase)
  }

  ghost function Picked(cfg: Config, next: Drafter, m: Machine, pick: Pick): Machine
    requires cfg.ubatch > 0 && Possible(m, pick)
  {
    match pick
    case Arrives(tid, r) => Spawn(m, tid, r)
    case Steps(tid) => Advance(cfg, next, m, tid)
  }

  ghost predicate Schedule(cfg: Config, next: Drafter, m: Machine, picks: seq<Pick>)
    requires cfg.ubatch > 0
    decreases |picks|
  {
    picks == [] || (Possible(m, picks[0]) && Schedule(cfg, next, Picked(cfg, next, m, picks[0]), picks[1..]))
  }

  ghost function Played(cfg: Config, next: Drafter, m: Machine, picks: seq<Pick>): Machine
    requires cfg.ubatch > 0 && Schedule(cfg, next, m, picks)
    decreases |picks|
  {
    if picks == [] then m else Played(cfg, next, Picked(cfg, next, m, picks[0]), picks[1..])
  }

  // ----- which locks a thread has -----

  predicate HasTable(th: Thread) {
    match th.phase
    case Looked => true
    case Handing => true
    case WaitUnder => true
    case Leaving => true
    case Clearing => true
    case Restarting => true
    case Unlocking => true
    case WantQueue(_) => th.request.ResetReq?
    case HoldQueue(_) => th.request.ResetReq?
    case _ => false
  }

  predicate HasSessionLock(th: Thread) {
    match th.phase
    case Guard => true
    case Truncating => true
    case Injecting => true
    case Noising => true
    case Filling => true
    case Clearing => true
    case Restarting => true
    case Unlocking => true
    case Exit => true
    case WantQueue(_) => th.request.PrefillReq? || th.request.DraftReq?
    case HoldQueue(_) => th.request.PrefillReq? || th.request.DraftReq?
    case _ => false
  }

  predicate HasQueue(th: Thread) {
    th.phase.HoldQueue?
  }

  // Past the lookup, on the way to or through a session that exists.
  predicate Bound(th: Thread) {
    match th.phase
    case Start => false
    case Looked => false
    case Leaving => false
    case Done => false
    case _ => !th.request.RenderReq?
  }

  // A step takes or drops exactly the lock that its action names.
  lemma StepLocks(cfg: Config, next: Drafter, th: Thread, s: SessionState, found: bool)
    requires cfg.ubatch > 0 && Fits(th.request, th.phase)
    ensures var th', action := Move(cfg, next, th, s, found), ActionOf(th);
            && th'.request == th.request && th'.at == th.at && Fits(th'.request, th'.phase)
            && HasTable(th') == (action != DropTable && (HasTable(th) || action == TakeTable))
            && HasSessionLock(th') == (action != DropSession && (HasSessionLock(th) || action == TakeSession))
            && HasQueue(th') == (action != DropQueue && (HasQueue(th) || action == TakeQueue))
  {
    hide TakeAccepted, DraftBlock, Prefill;
  }

  // Locks are taken in one order: the table, then a session, then the queue.
  lemma LockOrder(th: Thread)
    requires Fits(th.request, th.phase)
    ensures ActionOf(th) == TakeTable ==> !HasTable(th) && !HasSessionLock(th) && !HasQueue(th)
    ensures ActionOf(th) == TakeSession ==> !HasSessionLock(th) && !HasQueue(th) && HasSession(th.request)
    ensures ActionOf(th) == TakeQueue ==> !HasQueue(th)
    ensures HasSessionLock(th) ==> HasSession(th.request)
    ensures ActionOf(th) == DropTable ==> HasTable(th)
    ensures ActionOf(th) == DropSession ==> HasSessionLock(th)
    ensures ActionOf(th) == DropQueue <==> HasQueue(th)
    ensures th.phase == Done ==> !HasTable(th) && !HasSessionLock(th) && !HasQueue(th)
  {
  }

  type Threads = map<nat, Thread>

  ghost predicate TableAgrees(threads: Threads, table: Option<nat>) {
    forall t :: t in threads && HasTable(threads[t]) <==> table == Some(t)
  }

  ghost predicate QueueAgrees(threads: Threads, queueLock: Option<nat>) {
    forall t :: t in threads && HasQueue(threads[t]) <==> queueLock == Some(t)
  }

  ghost predicate SessionsAgree(threads: Threads, locks: map<nat, nat>) {
    && (forall sid :: sid in locks ==>
          && locks[sid] in threads && HasSessionLock(threads[locks[sid]])
          && HasSession(threads[locks[sid]].request) && threads[locks[sid]].request.sid == sid)
    && (forall t :: t in threads && HasSessionLock(threads[t]) ==>
          && HasSession(threads[t].request)
          && threads[t].request.sid in locks && locks[threads[t].request.sid] == t)
  }

  ghost predicate AllFit(threads: Threads) {
    forall t :: t in threads ==> Fits(threads[t].request, threads[t].phase)
  }

  // Each lock's owner is the one thread whose phase says it has the lock.
  ghost predicate LocksAgree(m: Machine) {
    && AllFit(m.threads)
    && TableAgrees(m.threads, m.table)
    && QueueAgrees(m.threads, m.queueLock)
    && SessionsAgree(m.threads, m.locks)
  }

  lemma TableStep(threads: Threads, table: Option<nat>, tid: nat, th': Thread, action: LockAction)
    requires TableAgrees(threads, table) && tid in threads
    requires HasTable(th') == (action != DropTable && (HasTable(threads[tid]) || action == TakeTable))
    requires action == TakeTable ==> table == None
    requires action == DropTable ==> HasTable(threads[tid])
    ensures TableAgrees(threads[tid := th'],
              if action == TakeTable then Some(tid) else if action == DropTable then None else table)
  {
    hide HasTable;
  }

  lemma QueueStep(threads: Threads, queueLock: Option<nat>, tid: nat, th': Thread, action: LockAction)
    requires QueueAgrees(threads, queueLock) && tid in threads
    requires HasQueue(th') == (action != DropQueue && (HasQueue(threads[tid]) || action == TakeQueue))
    requires action == TakeQueue ==> queueLock == None
    requires action == DropQueue ==> HasQueue(threads[tid])
    ensures QueueAgrees(threads[tid := th'],
              if action == TakeQueue then Some(tid) else if action == DropQueue then None else queueLock)
  {
    hide HasQueue;
  }

  lemma SessionStep(threads: Threads, locks: map<nat, nat>, tid: nat, th': Thread, action: LockAction)
    requires SessionsAgree(threads, locks) && tid in threads && th'.request == threads[tid].request
    requires HasSessionLock(th') == (action != DropSession && (HasSessionLock(threads[tid]) || action == TakeSession))
    requires action == TakeSession ==> HasSession(th'.request) && th'.request.sid !in locks
    requires action == DropSession ==> HasSessionLock(threads[tid])
    ensures SessionsAgree(threads[tid := th'],
              if action == TakeSession then locks[th'.request.sid := tid]
              else if action == DropSession && HasSession(th'.request) then locks - {th'.request.sid} else locks)
  {
    hide HasSessionLock;
  }

  lemma AdvanceKeepsLocks(cfg: Config, next: Drafter, m: Machine, tid: nat)
    requires cfg.ubatch > 0 && LocksAgree(m) && CanStep(m, tid)
    ensures LocksAgree(Advance(cfg, next, m, tid))
  {
    hide Move, Change, Requeue, ActionOf, HasTable, HasSessionLock, HasQueue, Fits, OrderOf, TableAgrees, QueueAgrees,
      SessionsAgree;
    var th, th', action := m.threads[tid], Advance(cfg, next, m, tid).threads[tid], ActionOf(m.threads[tid]);
    var found := HasSession(th.request) && th.request.sid in m.sessions;
    StepLocks(cfg, next, th, SessionOf(m, th), found);
    LockOrder(th);
    SameLocks(Move(cfg, next, th, SessionOf(m, th), found), th');
    TableStep(m.threads, m.table, tid, th', action);
    QueueStep(m.threads, m.queueLock, tid, th', action);
    SessionStep(m.threads, m.locks, tid, th', action);
  }

  // Recording its place in the order gives a thread no lock.
  lemma SameLocks(th: Thread, th': Thread)
    requires th' == th.(at := th'.at)
    ensures HasTable(th') == HasTable(th) && HasSessionLock(th') == HasSessionLock(th) && HasQueue(th') == HasQueue(th)
  {
  }

  lemma ArrivalKeepsLocks(m: Machine, tid: nat, r: Request)
    requires LocksAgree(m) && tid !in m.threads
    ensures LocksAgree(Spawn(m, tid, r))
  {
    var th := Spawn(m, tid, r).threads[tid];
    assert !HasTable(th) && !HasSessionLock(th) && !HasQueue(th) && Fits(th.request, th.phase);
    hide HasTable, HasSessionLock, HasQueue, Fits;
  }

  // A holder of a lock, taken in this order of search, can always go on.
  lemma SomeHolderSteps(m: Machine, tid: nat)
    requires LocksAgree(m) && tid in m.threads && m.threads[tid].phase != Done
    ensures exists t :: CanStep(m, t)
  {
    var t := if m.queueLock.Some? then m.queueLock.value
             else if m.locks != map[] then var sid :| sid in m.locks; m.locks[sid]
             else if m.table.Some? then m.table.value
             else tid;
    LockOrder(m.threads[t]);
    assert CanStep(m, t);
  }

  // Deadlock freedom: however many handlers are in flight over however many sessions,
  // in every state that a schedule reaches some unfinished thread can step.
  lemma DeadlockFreedom(cfg: Config, next: Drafter, picks: seq<Pick>, tid: nat)
    requires cfg.ubatch > 0 && Schedule(cfg, next, IDLE, picks)
    requires var m := Played(cfg, next, IDLE, picks); tid in m.threads && m.threads[tid].phase != Done
    ensures exists t :: CanStep(Played(cfg, next, IDLE, picks), t)
  {
    hide Advance, CanStep;
    PlayedKeepsLocks(cfg, next, IDLE, picks);
    SomeHolderSteps(Played(cfg, next, IDLE, picks), tid);
  }

  lemma {:induction false} PlayedKeepsLocks(cfg: Config, next: Drafter, m: Machine, picks: seq<Pick>)
    requires cfg.ubatch > 0 && LocksAgree(m) && Schedule(cfg, next, m, picks)
    ensures LocksAgree(Played(cfg, next, m, picks))
    decreases |picks|
  {
    if picks == [] {
    } else {
      hide Advance, CanStep, LocksAgree, Fits;
      match picks[0] {
        case Arrives(tid, r) => ArrivalKeepsLocks(m, tid, r);
        case Steps(tid) => AdvanceKeepsLocks(cfg, next, m, tid);
      }
      PlayedKeepsLocks(cfg, next, Picked(cfg, next, m, picks[0]), picks[1..]);
    }
  }
}
