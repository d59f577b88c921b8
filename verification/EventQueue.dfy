// The renderer's queue: any number of producers push events, one worker takes them,
// and the destructor asks the worker to stop. Waiting on the condition variable gives
// the mutex up and sleeps in one step; a wakeup may also come for no reason.
module EventQueue {
  import opened Transcript

  datatype Producer =
    | Wants(event: Event)   // about to lock the mutex
    | Pushes(event: Event)  // has the mutex
    | Unlocks               // has pushed, still has the mutex
    | Owes                  // let the mutex go, about to notify one
    | Finished

  datatype Worker =
    | Locking               // wants the mutex, from the top of the loop or woken
    | Checking              // has the mutex, about to evaluate the wait's condition
    | Sleeping              // waits for a notify
    | Taking                // has the mutex, the condition holds
    | Handling(event: Event)
    | Returned

  datatype Stopper =
    | Alive                 // the destructor has not started
    | StopWants             // about to lock the mutex
    | StopSets              // has the mutex
    | StopOwes              // let the mutex go, about to notify all
    | Joining

  datatype Owner = Nobody | ByProducer(id: nat) | ByWorker | ByStopper

  datatype Queue = Queue(
    mutex: Owner,
    queue: seq<Event>,
    stop: bool,
    producers: map<nat, Producer>,
    worker: Worker,
    stopper: Stopper,
    // history: everything pushed, the calls it was pushed by, and everything handled
    pushed: seq<Event>,
    callers: seq<nat>,
    handled: seq<Event>)

  datatype Step =
    | Call(id: nat, event: Event)   // some thread calls on_accepted, on_draft, ...
    | Produce(id: nat)
    | Work
    | Destroy                       // the destructor starts
    | Stop
    | Spurious                      // the sleeping worker wakes for no reason

  predicate Possible(q: Queue, step: Step) {
    match step
    case Call(id, _) => id !in q.producers && q.stopper == Alive
    case Produce(id) =>
      && id in q.producers && q.producers[id] != Finished
      && (q.producers[id].Wants? ==> q.mutex == Nobody)
    case Work =>
      && q.worker != Returned && q.worker != Sleeping
      && (q.worker == Locking ==> q.mutex == Nobody)
    // the object is destroyed only when nobody uses it any more
    case Destroy => q.stopper == Alive && forall id :: id in q.producers ==> q.producers[id] == Finished
    case Stop => q.stopper != Alive && q.stopper != Joining && (q.stopper == StopWants ==> q.mutex == Nobody)
    case Spurious => q.worker == Sleeping
  }

  function Produced(q: Queue, id: nat): Queue
    requires id in q.producers
  {
    match q.producers[id]
    case Wants(event) => q.(mutex := ByProducer(id), producers := q.producers[id := Pushes(event)])
    case Pushes(event) =>
      q.(queue := q.queue + [event], pushed := q.pushed + [event], callers := q.callers + [id],
         producers := q.producers[id := Unlocks])
    case Unlocks => q.(mutex := Nobody, producers := q.producers[id := Owes])
    case Owes =>
      q.(producers := q.producers[id := Finished], worker := if q.worker == Sleeping then Locking else q.worker)
    case Finished => q
  }

  function Worked(q: Queue): Queue {
    match q.worker
    case Locking => q.(mutex := ByWorker, worker := Checking)
    case Checking =>
      if q.stop || q.queue != [] then q.(worker := Taking) else q.(mutex := Nobody, worker := Sleeping)
    case Taking =>
      if q.queue == [] then q.(mutex := Nobody, worker := Returned)
      else q.(mutex := Nobody, queue := q.queue[1..], worker := Handling(q.queue[0]))
    case Handling(event) => q.(handled := q.handled + [event], worker := Locking)
    case Sleeping => q
    case Returned => q
  }

  function Stopped(q: Queue): Queue {
    match q.stopper
    case StopWants => q.(mutex := ByStopper, stopper := StopSets)
    case StopSets => q.(stop := true, mutex := Nobody, stopper := StopOwes)
    case StopOwes => q.(stopper := Joining, worker := if q.worker == Sleeping then Locking else q.worker)
    case _ => q
  }

  function After(q: Queue, step: Step): Queue
    requires Possible(q, step)
  {
    match step
    case Call(id, event) => q.(producers := q.producers[id := Wants(event)])
    case Produce(id) => Produced(q, id)
    case Work => Worked(q)
    case Destroy => q.(stopper := StopWants)
    case Stop => Stopped(q)
    case Spurious => q.(worker := Locking)
  }

  ghost predicate Run(q: Queue, steps: seq<Step>)
    decreases |steps|
  {
    steps == [] || (Possible(q, steps[0]) && Run(After(q, steps[0]), steps[1..]))
  }

  ghost function Reach(q: Queue, steps: seq<Step>): Queue
    requires Run(q, steps)
    decreases |steps|
  {
    if steps == [] then q else Reach(After(q, steps[0]), steps[1..])
  }

  const BORN := Queue(Nobody, [], false, map[], Locking, Alive, [], [], [])

  // ----- the invariant -----

  ghost predicate MutexAgrees(q: Queue) {
    && (forall id ::
          id in q.producers && (q.producers[id].Pushes? || q.producers[id].Unlocks?) <==> q.mutex == ByProducer(id))
    && ((q.worker == Checking || q.worker == Taking) <==> q.mutex == ByWorker)
    && (q.stopper == StopSets <==> q.mutex == ByStopper)
  }

  // What is handled, in hand and queued is what was pushed, in order.
  ghost predicate Conserved(q: Queue) {
    q.handled + (if q.worker.Handling? then [q.worker.event] else []) + q.queue == q.pushed
  }

  // Some thread still owes the worker a notify.
  ghost predicate NotifyOwed(q: Queue) {
    || q.stopper == StopOwes
    || exists id :: id in q.producers && (q.producers[id].Unlocks? || q.producers[id].Owes?)
  }

  ghost predicate NoLostWakeup(q: Queue) {
    q.worker == Sleeping && (q.queue != [] || q.stop) ==> NotifyOwed(q)
  }

  ghost predicate Lifetime(q: Queue) {
    && (q.stop <==> q.stopper == StopOwes || q.stopper == Joining)
    && (q.stopper != Alive ==> forall id :: id in q.producers ==> q.producers[id] == Finished)
    && (q.worker == Taking ==> q.stop || q.queue != [])
    && (q.worker == Returned ==> q.stop && q.queue == [])
  }

  ghost predicate Sound(q: Queue) {
    MutexAgrees(q) && Conserved(q) && NoLostWakeup(q) && Lifetime(q)
  }

  lemma ProduceKeeps(q: Queue, id: nat)
    requires Sound(q) && Possible(q, Produce(id))
    ensures Sound(Produced(q, id))
  {
    var q' := Produced(q, id);
    if q.producers[id].Pushes? {
      var inHand := if q.worker.Handling? then [q.worker.event] else [];
      assert q.handled + inHand + q'.queue == q.handled + inHand + q.queue + [q.producers[id].event];
      assert q'.producers[id].Unlocks?;
    }
    if q.producers[id].Unlocks? {
      assert q'.producers[id].Owes?;
    }
    if q'.worker == Sleeping && NotifyOwed(q) && q.stopper != StopOwes {
      var other :| other in q.producers && (q.producers[other].Unlocks? || q.producers[other].Owes?);
      assert other != id ==> q'.producers[other] == q.producers[other];
    }
  }

  lemma WorkKeeps(q: Queue)
    requires Sound(q) && Possible(q, Work)
    ensures Sound(Worked(q))
  {
    var q' := Worked(q);
    if q.worker == Taking && q.queue != [] {
      assert q.queue == [q.queue[0]] + q.queue[1..];
      assert q.handled + [] + q.queue == q.handled + [q.queue[0]] + q.queue[1..];
    }
    if q.worker.Handling? {
      assert q.handled + [q.worker.event] + q.queue == q.handled + [q.worker.event] + [] + q.queue;
    }
  }

  lemma StopKeeps(q: Queue)
    requires Sound(q) && Possible(q, Stop)
    ensures Sound(Stopped(q))
  {
  }

  lemma StepKeeps(q: Queue, step: Step)
    requires Sound(q) && Possible(q, step)
    ensures Sound(After(q, step))
  {
    match step
    case Produce(id) => ProduceKeeps(q, id);
    case Work => WorkKeeps(q);
    case Stop => StopKeeps(q);
    case Call(id, event) => CallKeeps(q, id, event);
    case Destroy =>
    case Spurious =>
  }

  lemma CallKeeps(q: Queue, id: nat, event: Event)
    requires Sound(q) && Possible(q, Call(id, event))
    ensures Sound(After(q, Call(id, event)))
  {
    var q' := After(q, Call(id, event));
    if NotifyOwed(q) && q.stopper != StopOwes {
      var other :| other in q.producers && (q.producers[other].Unlocks? || q.producers[other].Owes?);
      assert q'.producers[other] == q.producers[other];
    }
  }

  lemma {:induction false} RunKeeps(q: Queue, steps: seq<Step>)
    requires Sound(q) && Run(q, steps)
    ensures Sound(Reach(q, steps))
    decreases |steps|
  {
    hide Sound, Possible, After;
    if steps == [] {
    } else {
      StepKeeps(q, steps[0]);
      RunKeeps(After(q, steps[0]), steps[1..]);
    }
  }

  // ----- over every interleaving -----

  // No event is lost, duplicated or reordered; the worker returns only when it was
  // asked to stop and has handled everything; and it never sleeps on work or on a stop
  // that nobody will wake it for.
  lemma QueueDelivers(steps: seq<Step>)
    requires Run(BORN, steps)
    ensures var q := Reach(BORN, steps);
            && q.handled + (if q.worker.Handling? then [q.worker.event] else []) + q.queue == q.pushed
            && (q.worker == Returned ==> q.stop && q.handled == q.pushed)
            && (q.worker == Sleeping && (q.queue != [] || q.stop) ==> NotifyOwed(q))
  {
    BornSound();
    RunKeeps(BORN, steps);
    var q := Reach(BORN, steps);
    if q.worker == Returned {
      assert q.handled + [] + q.queue == q.handled;
    }
  }

  lemma BornSound()
    ensures Sound(BORN)
  {
  }

  // While the queue has work or a stop is asked for, somebody can act: the worker can
  // never be left behind.
  lemma SomebodyActs(steps: seq<Step>)
    requires Run(BORN, steps)
    requires var q := Reach(BORN, steps); q.worker != Returned && (q.queue != [] || q.stop)
    ensures var q := Reach(BORN, steps);
            Possible(q, Work) || Possible(q, Stop) || exists id :: Possible(q, Produce(id))
  {
    BornSound();
    RunKeeps(BORN, steps);
    var q := Reach(BORN, steps);
    match q.mutex
    case ByProducer(id) => assert Possible(q, Produce(id));
    case ByWorker => assert Possible(q, Work);
    case ByStopper => assert Possible(q, Stop);
    case Nobody =>
      if q.worker == Sleeping && q.stopper != StopOwes {
        var id :| id in q.producers && (q.producers[id].Unlocks? || q.producers[id].Owes?);
        assert Possible(q, Produce(id));
      }
  }

  // What the worker did to the screen is what handling the pushed events in order
  // does, up to those still queued.
  lemma ScreenFollowsPushes(vocab: Vocab, steps: seq<Step>)
    requires Run(BORN, steps) && Reach(BORN, steps).worker == Returned
    ensures var q := Reach(BORN, steps);
            ConfirmedText(HandleAll(vocab, BLANK, q.handled).transcript) == Detokenize(vocab, Settled(q.pushed))
  {
    QueueDelivers(steps);
    TranscriptConservation(vocab, Reach(BORN, steps).handled);
  }

  // ----- what is pushed -----

  // The event of each call on the renderer.
  function Called(steps: seq<Step>): map<nat, Event> {
    if steps == [] then map[]
    else
      var before, last := Called(steps[..|steps| - 1]), steps[|steps| - 1];
      if last.Call? then before[last.id := last.event] else before
  }

  predicate HasPushed(p: Producer) {
    p.Unlocks? || p.Owes? || p.Finished?
  }

  // Every call that got past its push is there once, with its own event.
  ghost predicate PushedByCallers(q: Queue, called: map<nat, Event>) {
    && |q.callers| == |q.pushed|
    && (forall k :: 0 <= k < |q.callers| ==> q.callers[k] in called && q.pushed[k] == called[q.callers[k]])
    && (forall j, k :: 0 <= j < k < |q.callers| ==> q.callers[j] != q.callers[k])
    && (forall id :: id in q.callers <==> id in q.producers && HasPushed(q.producers[id]))
  }

  ghost predicate CallersKnown(q: Queue, called: map<nat, Event>) {
    && (forall id :: id in q.producers <==> id in called)
    && (forall id :: id in q.producers && (q.producers[id].Wants? || q.producers[id].Pushes?) ==>
          q.producers[id].event == called[id])
  }

  lemma ProducedByCallers(q: Queue, id: nat, called: map<nat, Event>)
    requires id in q.producers && PushedByCallers(q, called) && CallersKnown(q, called)
    ensures PushedByCallers(Produced(q, id), called) && CallersKnown(Produced(q, id), called)
  {
    var q' := Produced(q, id);
    if q.producers[id].Pushes? {
      assert id !in q.callers;
    } else {
      assert q'.callers == q.callers && (HasPushed(q.producers[id]) <==> HasPushed(q'.producers[id]));
    }
  }

  function CalledNow(called: map<nat, Event>, step: Step): map<nat, Event> {
    if step.Call? then called[step.id := step.event] else called
  }

  lemma CallByCallers(q: Queue, id: nat, event: Event, called: map<nat, Event>)
    requires id !in q.producers && PushedByCallers(q, called) && CallersKnown(q, called)
    ensures var q' := q.(producers := q.producers[id := Wants(event)]);
            PushedByCallers(q', called[id := event]) && CallersKnown(q', called[id := event])
  {
    assert id !in q.callers;
  }

  lemma SameCallers(q: Queue, q': Queue, called: map<nat, Event>)
    requires q'.producers == q.producers && q'.pushed == q.pushed && q'.callers == q.callers
    requires PushedByCallers(q, called) && CallersKnown(q, called)
    ensures PushedByCallers(q', called) && CallersKnown(q', called)
  {
  }

  lemma StepByCallers(q: Queue, step: Step, called: map<nat, Event>)
    requires Possible(q, step) && PushedByCallers(q, called) && CallersKnown(q, called)
    ensures PushedByCallers(After(q, step), CalledNow(called, step))
    ensures CallersKnown(After(q, step), CalledNow(called, step))
  {
    hide PushedByCallers, CallersKnown;
    match step
    case Produce(id) => ProducedByCallers(q, id, called);
    case Call(id, event) => CallByCallers(q, id, event, called);
    case _ => SameCallers(q, After(q, step), called);
  }

  lemma {:induction false} RunByCallers(q: Queue, steps: seq<Step>, before: seq<Step>)
    requires Run(q, steps) && PushedByCallers(q, Called(before)) && CallersKnown(q, Called(before))
    ensures PushedByCallers(Reach(q, steps), Called(before + steps))
    ensures CallersKnown(Reach(q, steps), Called(before + steps))
    decreases |steps|
  {
    hide Possible, After, PushedByCallers, CallersKnown;
    if steps == [] {
      assert before + steps == before;
    } else {
      var grown := before + [steps[0]];
      assert grown[..|grown| - 1] == before && Called(grown) == CalledNow(Called(before), steps[0]);
      StepByCallers(q, steps[0], Called(before));
      RunByCallers(After(q, steps[0]), steps[1..], grown);
      assert grown + steps[1..] == before + steps;
    }
  }

  // In every interleaving each event in the history is that of one call, and no call's
  // event is there twice; once a call has returned, its event is there.
  lemma EachCallPushesItsEvent(steps: seq<Step>)
    requires Run(BORN, steps)
    ensures var q, called := Reach(BORN, steps), Called(steps);
            && |q.callers| == |q.pushed|
            && (forall k :: 0 <= k < |q.callers| ==> q.callers[k] in called && q.pushed[k] == called[q.callers[k]])
            && (forall j, k :: 0 <= j < k < |q.callers| ==> q.callers[j] != q.callers[k])
            && (forall id :: id in called <==> id in q.producers)
            && (forall id :: id in called && q.producers[id] == Finished ==> id in q.callers)
  {
    RunByCallers(BORN, steps, []);
    assert [] + steps == steps;
    hide Run, Reach, Called;
  }
}
