// One server slot talking to one edge session. The target decodes, accepts part of
// what it decoded and takes new prompts; the network loses, delays, reorders and
// repeats Draft requests inside a generation; llama may fail in every one of them.
module Protocol {
  import opened Bf16
  import opened Wire
  import opened DraftEngine
  import opened DraftService
  import Server = RemoteSender

  // The hidden state of the last token of a prefix, all tap layers concatenated.
  type Tapper = seq<int> -> seq<Bits>

  datatype Setup = Setup(cfg: Config, sender: Server.SenderConfig, next: Drafter, tap: Tapper)

  // Both ends agree on the shape of a packet.
  ghost predicate Sound(u: Setup) {
    && u.cfg.ubatch > 0
    && (u.cfg.layers > 0 ==> u.cfg.hidden > 0)
    && (forall prefix: seq<int> :: |u.tap(prefix)| == u.cfg.layers * u.cfg.hidden)
  }

  // A Draft request that the server sent, and the n_past it was sent at.
  datatype Sent = Sent(req: DraftRequest, nPast: nat)

  datatype World = World(
    // the target: what it committed, and what it last decoded beyond that
    committed: seq<int>,
    pending: seq<int>,
    // between begin() and the next prompt, and the tokens of that generation
    live: bool,
    generation: seq<int>,
    sender: Server.SenderState,
    session: SessionState,
    // the Draft requests of this generation, any of which may yet arrive
    sent: seq<Sent>,
    // and those of the generations before
    late: seq<Sent>)

  datatype Event =
    // the target decodes a batch after its committed tokens; process() captures it, or
    // skips it (embeddings, no tokens) or fails on it (a layer not extracted)
    | Decode(batch: seq<int>, captured: bool)
    // and keeps the first tokens of it
    | Accept(count: nat)
    // a new prompt shares a prefix with what is committed
    | NewPrompt(keep: nat)
    // begin(), and whether its reset reaches the daemon
    | Begin(resets: bool)
    // draft(), and whether its prefill, if it has one, reaches the daemon
    | DraftStep(idLast: int, arrives: bool, chunks: ChunkFates, reply: DraftReply)
    // a request of this generation reaches the daemon, for the first time or again
    | Deliver(index: nat, fate: Fate)
    // a request of an earlier generation does
    | DeliverLate(index: nat, fate: Fate)

  function Ship(u: Setup, w: World, idLast: int, reply: DraftReply): (r: (Server.SenderState, Server.Shipment))
    requires w.sender.nSent >= -1
  {
    Server.DraftStep(u.sender, w.sender, |w.committed|, idLast, reply)
  }

  ghost predicate Possible(u: Setup, w: World, event: Event) {
    match event
    case Decode(_, _) => true
    case Accept(count) => count <= |w.pending|
    case NewPrompt(keep) => keep <= |w.committed|
    case Begin(_) => true
    case DraftStep(_, _, _, _) => w.live && w.sender.nSent >= -1
    case Deliver(index, _) => index < |w.sent|
    case DeliverLate(index, _) => index < |w.late|
  }

  // What the code relies on: every decode is captured, begin() runs on a decoded,
  // non-empty prompt, n_past grows from one draft to the next, the reset and the
  // prefill, whose results the server ignores, arrive and succeed, and no request
  // arrives after the next begin().
  ghost predicate Relied(u: Setup, w: World, event: Event)
    requires u.cfg.ubatch > 0 && Possible(u, w, event)
  {
    match event
    case Decode(_, captured) => captured
    case Begin(resets) => resets && w.committed != []
    case DraftStep(idLast, arrives, chunks, reply) =>
      var prefill := Ship(u, w, idLast, reply).1.prefill;
      && w.sender.prevNPast < |w.committed|
      && (prefill.Some? ==> arrives && Prefill(u.cfg, w.session.engine, prefill.value, chunks).1.ok)
    case DeliverLate(_, _) => false
    case _ => true
  }

  ghost predicate Enabled(u: Setup, w: World, event: Event)
    requires u.cfg.ubatch > 0
  {
    Possible(u, w, event) && Relied(u, w, event)
  }

  function Positions(lo: nat, n: nat): seq<nat> {
    seq(n, i requires 0 <= i < n => lo + i)
  }

  // process() captures position |before| + i of a decode with the prefix it ran on.
  function Rows(u: Setup, before: seq<int>, batch: seq<int>): (r: seq<seq<Bits>>)
    ensures |r| == |batch|
  {
    seq(|batch|, i requires 0 <= i < |batch| => u.tap(before + batch[..i + 1]))
  }

  function Capture(u: Setup, feats: Server.Features, before: seq<int>, batch: seq<int>): Server.Features {
    Server.Store(feats, batch, Positions(|before|, |batch|), Rows(u, before, batch), |batch|)
  }

  function Delivered(u: Setup, w: World, index: nat, fate: Fate): World
    requires u.cfg.ubatch > 0 && index < |w.sent|
  {
    w.(session := HandleDraft(u.cfg, u.next, w.session, w.sent[index].req, fate).0)
  }

  ghost function Step(u: Setup, w: World, event: Event): World
    requires u.cfg.ubatch > 0 && Possible(u, w, event)
  {
    match event
    case Decode(batch, captured) =>
      var feats := if captured then Capture(u, w.sender.feats, w.committed, batch) else w.sender.feats;
      w.(pending := batch, sender := w.sender.(feats := feats))
    case Accept(count) =>
      var committed := w.committed + w.pending[..count];
      w.(committed := committed, pending := [], generation := if w.live then committed else w.generation)
    case NewPrompt(keep) =>
      w.(committed := w.committed[..keep], pending := [], live := false)
    case Begin(resets) =>
      World(w.committed, [], true, w.committed, Server.Begin(w.sender, |w.committed|),
            if resets then Handle(u.cfg, u.next, w.session, ResetCall).0 else w.session, [], w.late + w.sent)
    case DraftStep(idLast, arrives, chunks, reply) =>
      var (sender, shipment) := Ship(u, w, idLast, reply);
      w.(sender := sender,
         session := if shipment.prefill.None? || !arrives then w.session
                    else Handle(u.cfg, u.next, w.session, PrefillCall(shipment.prefill.value, chunks)).0,
         sent := if shipment.request.None? then w.sent else w.sent + [Sent(shipment.request.value, |w.committed|)])
    case Deliver(index, fate) => Delivered(u, w, index, fate)
    case DeliverLate(index, fate) =>
      w.(session := HandleDraft(u.cfg, u.next, w.session, w.late[index].req, fate).0)
  }

  const START := World([], [], false, [],
    Server.SenderState(map[], false, -1, -1, 0, Server.Stats(true, 0, 0, 0, 0, 0)), NEW_SESSION, [], [])

  // Any run at all.
  ghost predicate AnyRun(u: Setup, w: World, events: seq<Event>)
    requires u.cfg.ubatch > 0
    decreases |events|
  {
    events == [] || (Possible(u, w, events[0]) && AnyRun(u, Step(u, w, events[0]), events[1..]))
  }

  ghost function Reach(u: Setup, w: World, events: seq<Event>): World
    requires u.cfg.ubatch > 0 && AnyRun(u, w, events)
    decreases |events|
  {
    if events == [] then w else Reach(u, Step(u, w, events[0]), events[1..])
  }

  ghost predicate AllRelied(u: Setup, w: World, events: seq<Event>)
    requires u.cfg.ubatch > 0 && AnyRun(u, w, events)
    decreases |events|
  {
    events == [] || (Relied(u, w, events[0]) && AllRelied(u, Step(u, w, events[0]), events[1..]))
  }

  // A run that meets what the code relies on.
  ghost predicate Run(u: Setup, w: World, events: seq<Event>)
    requires u.cfg.ubatch > 0
  {
    AnyRun(u, w, events) && AllRelied(u, w, events)
  }

  // ----- what should be where -----

  // The packet that process() stores for the last token of a prefix, and the draft cell
  // it becomes: the features as bf16.
  function PacketOf(u: Setup, prefix: seq<int>): Packet {
    if prefix == [] then Packet(0, 0, []) else Packet(prefix[|prefix| - 1], |prefix| - 1, Pack(u.tap(prefix)))
  }

  function CellOf(u: Setup, prefix: seq<int>): Cell {
    Tap(QuantizeRow(u.tap(prefix)))
  }

  // The packet of position p when the first p + 1 tokens are the given ones.
  function Genuine(u: Setup, tokens: seq<int>, p: nat): Packet
    requires p < |tokens|
  {
    PacketOf(u, tokens[..p + 1])
  }

  function GenuineRange(u: Setup, tokens: seq<int>, lo: nat, hi: nat): (r: seq<Packet>)
    requires lo <= hi <= |tokens|
    ensures |r| == hi - lo
  {
    seq(hi - lo, i requires 0 <= i < hi - lo => Genuine(u, tokens, lo + i))
  }

  // The draft cell of position p.
  ghost function GenuineCell(u: Setup, tokens: seq<int>): nat -> Cell {
    (p: nat) => CellOf(u, if p < |tokens| then tokens[..p + 1] else tokens)
  }
}
