// Every packet and every cell traced to the token prefix it was captured on, over any
// run at all: decodes that were not captured, prompts of any length, resets and
// prefills that were lost or failed.
module Provenance {
  import opened Bf16
  import opened Wire
  import opened DraftEngine
  import opened CacheCleanup
  import opened DraftService
  import opened Protocol
  import opened CacheAgreement
  import Server = RemoteSender

  // Prefixes of consecutive lengths; a prefix of length p + 1 stands for position p.
  type Prefixes = seq<seq<int>>

  ghost predicate Stretch(s: Prefixes) {
    forall i :: 0 <= i < |s| ==> |s[i]| == |s[0]| + i > 0
  }

  function Start(s: Prefixes): nat {
    if s == [] || s[0] == [] then 0 else |s[0]| - 1
  }

  function End(s: Prefixes): nat {
    Start(s) + |s|
  }

  function PacketsOf(u: Setup, s: Prefixes): (r: seq<Packet>)
    ensures |r| == |s|
  {
    seq(|s|, i requires 0 <= i < |s| => PacketOf(u, s[i]))
  }

  function PrefixAt(s: Prefixes, p: nat): seq<int> {
    if Start(s) <= p < End(s) then s[p - Start(s)] else []
  }

  ghost function CellsOn(u: Setup, s: Prefixes): Cells {
    (p: nat) => CellOf(u, PrefixAt(s, p))
  }

  ghost function Confirmed(u: Setup, s: Prefixes): Cache {
    Span(CellsOn(u, s), Start(s), End(s))
  }

  function LastToken(s: Prefixes): int {
    if s == [] || s[|s| - 1] == [] then 0 else s[|s| - 1][|s[|s| - 1]| - 1]
  }

  // The edge's confirmed cells are those of the ledger, and nothing else.
  ghost predicate EdgeHolds(u: Setup, ledger: Prefixes, e: EngineState) {
    && Stretch(ledger)
    && Tidy(e, Confirmed(u, ledger))
    && e.confirmedMax == (if ledger == [] then -1 else End(ledger) - 1)
    && e.lastToken == LastToken(ledger)
  }

  // Packets that can follow what is held.
  predicate Follows(ledger: Prefixes, s: Prefixes) {
    s == [] || ledger == [] || Start(s) == End(ledger)
  }

  // ----- one shipment -----

  lemma StretchShips(u: Setup, s: Prefixes)
    requires Sound(u) && Stretch(s)
    ensures Ships(u.cfg, PacketsOf(u, s), CellsOn(u, s), Start(s))
    ensures forall i :: 0 <= i < |s| ==> Unpackable(u.cfg, PacketsOf(u, s)[i])
  {
    hide RowOf, Sound, Unpackable;
    forall i | 0 <= i < |s|
      ensures Unpackable(u.cfg, PacketsOf(u, s)[i])
      ensures Tap(RowOf(u.cfg, PacketsOf(u, s)[i])) == CellsOn(u, s)(Start(s) + i)
    {
      var p := |s[i]| - 1;
      assert s[i][..p + 1] == s[i] && Genuine(u, s[i], p) == PacketOf(u, s[i]);
      GenuineUnpacks(u, s[i], p);
      assert GenuineCell(u, s[i])(p) == CellOf(u, s[i]);
      assert |s[i]| == |s[0]| + i && |s[0]| == |s[0]| + 0 > 0;
      assert Start(s) + i == p && PrefixAt(s, p) == s[i];
    }
  }

  lemma JoinedStretch(ledger: Prefixes, s: Prefixes)
    requires Stretch(ledger) && Stretch(s) && Follows(ledger, s)
    ensures Stretch(ledger + s)
    ensures ledger == [] ==> ledger + s == s
    ensures s == [] ==> ledger + s == ledger
    ensures ledger != [] ==> Start(ledger + s) == Start(ledger)
    ensures s != [] ==> End(ledger + s) == End(s) && LastToken(ledger + s) == LastToken(s)
  {
  }

  lemma JoinedCells(u: Setup, ledger: Prefixes, s: Prefixes)
    requires Stretch(ledger) && Stretch(s) && Follows(ledger, s)
    ensures Confirmed(u, ledger + s) == Confirmed(u, ledger) + Span(CellsOn(u, s), Start(s), Start(s) + |s|)
  {
    hide Span;
    JoinedStretch(ledger, s);
    var all := CellsOn(u, ledger + s);
    if ledger == [] {
      NothingHeld(u);
      JustSpan(Confirmed(u, s));
    } else if s == [] {
      EmptySpan(Confirmed(u, ledger), CellsOn(u, s), Start(s));
    } else {
      SpansAgree(all, CellsOn(u, ledger), Start(ledger), End(ledger));
      SpansAgree(all, CellsOn(u, s), Start(s), End(s));
      SpanJoins(map[], all, Start(ledger), End(ledger), End(s));
      JustSpan(Span(all, Start(ledger), End(ledger)));
      JustSpan(Span(all, Start(ledger), End(s)));
    }
  }

  lemma NothingHeld(u: Setup)
    ensures Confirmed(u, []) == map[]
  {
    JustSpan(Confirmed(u, []));
    EmptySpan(map[], CellsOn(u, []), 0);
  }

  lemma SomethingHeld(u: Setup, ledger: Prefixes)
    ensures Confirmed(u, ledger) == map[] <==> ledger == []
  {
    if ledger == [] {
      NothingHeld(u);
    } else {
      SpanKeys(CellsOn(u, ledger), Start(ledger), End(ledger), Start(ledger));
    }
  }

  lemma Dropped(u: Setup, ledger: Prefixes, e: EngineState)
    requires EdgeHolds(u, ledger, e)
    ensures DropTransient(e).cache == Confirmed(u, ledger) && NoTransient(DropTransient(e))
    ensures EdgeHolds(u, ledger, DropTransient(e))
  {
    hide MaxPos, Span, SeqRm, Stretch;
    CleanIsTidy(DropTransient(e));
  }

  lemma LastShipped(u: Setup, s: Prefixes)
    requires Stretch(s) && s != []
    ensures PacketsOf(u, s)[|s| - 1].token == LastToken(s)
  {
  }

  // What an injection of traced packets does to an engine without leftovers.
  lemma ShipmentOnto(u: Setup, ledger: Prefixes, e: EngineState, s: Prefixes, fates: ChunkFates)
    requires Sound(u) && EdgeHolds(u, ledger, e) && NoTransient(e) && Stretch(s)
    ensures var t := TakeAccepted(u.cfg, e, PacketsOf(u, s), fates);
            && (t.1 ==> Follows(ledger, s))
            && EdgeHolds(u, if t.1 then ledger + s else ledger, t.0)
            && (t.1 ==> NoTransient(t.0) && t.0.cache == Confirmed(u, ledger + s))
            && ((forall c :: fates(c) == Encoded(Decodes)) ==> (t.1 <==> Follows(ledger, s)))
  {
    hide MaxPos, Span, SeqRm, Inject, TakeAccepted, CellsOn, PacketsOf, Stretch, NoTransient, Tidy;
    var packets, cells, lo := PacketsOf(u, s), CellsOn(u, s), Start(s);
    NothingAbove(e, Confirmed(u, ledger));
    SomethingHeld(u, ledger);
    StretchShips(u, s);
    ShipmentGoesIn(u, e, packets, cells, lo, fates);
    if TakeAccepted(u.cfg, e, packets, fates).1 {
      ShipmentTaken(u.cfg, e, packets, cells, lo, fates);
      JoinedStretch(ledger, s);
      JoinedCells(u, ledger, s);
      CleanIsTidy(TakeAccepted(u.cfg, e, packets, fates).0);
      if s != [] {
        LastShipped(u, s);
      }
    } else {
      ShipmentDropped(u.cfg, e, packets, cells, lo, fates);
    }
  }

  lemma ShipmentGoesIn(u: Setup, e: EngineState, packets: seq<Packet>, cells: Cells, lo: nat, fates: ChunkFates)
    requires Sound(u) && NoTransient(e) && Ships(u.cfg, packets, cells, lo)
    requires forall i :: 0 <= i < |packets| ==> Unpackable(u.cfg, packets[i])
    ensures var t := TakeAccepted(u.cfg, e, packets, fates);
            (forall c :: fates(c) == Encoded(Decodes)) ==>
              (t.1 <==> packets == [] || e.cache == map[] || lo == e.confirmedMax + 1)
  {
    hide MaxPos, Inject, Ships;
    if forall c :: fates(c) == Encoded(Decodes) {
      FaultlessInjection(u.cfg, e.cache, packets, cells, lo, fates, 0);
    }
  }

  // A prefill starts at position 0, so it goes into an empty cache or, if it brings
  // anything, nowhere.
  lemma PrefillOnto(u: Setup, ledger: Prefixes, e: EngineState, s: Prefixes, fates: ChunkFates)
    requires Sound(u) && EdgeHolds(u, ledger, e) && Stretch(s) && Start(s) == 0
    ensures var d := Prefill(u.cfg, e, PacketsOf(u, s), fates);
            && (d.1.ok ==> Follows(ledger, s))
            && EdgeHolds(u, if d.1.ok then ledger + s else ledger, d.0)
  {
    hide MaxPos, Span, SeqRm, Inject, TakeAccepted, CellsOn, PacketsOf, Stretch, NoTransient, Tidy, Prefill;
    var packets := PacketsOf(u, s);
    StretchShips(u, s);
    PrefillKeepsMark(u.cfg, e, packets, fates);
    PrefillTakes(u.cfg, e, packets, fates);
    if s == [] {
      assert packets == [] && ledger + s == ledger;
      EmptyPrefillTidies(u.cfg, e, Confirmed(u, ledger), fates);
    } else if Prefill(u.cfg, e, packets, fates).1.ok {
      OntoEmpty(u, e, packets, CellsOn(u, s), fates);
      EmptyHolds(u, ledger, e);
      ShipmentOnto(u, ledger, e, s, fates);
    } else {
      ConsecutiveShips(u.cfg, packets, CellsOn(u, s), 0);
      FailedPrefillTidies(u.cfg, e, Confirmed(u, ledger), packets, fates);
    }
  }

  lemma PrefillKeepsMark(cfg: Config, e: EngineState, tokens: seq<Packet>, fates: ChunkFates)
    requires cfg.ubatch > 0
    ensures var d := Prefill(cfg, e, tokens, fates);
            !d.1.ok ==> d.0.confirmedMax == e.confirmedMax && d.0.lastToken == e.lastToken
  {
    hide Inject;
  }

  lemma ConsecutiveShips(cfg: Config, packets: seq<Packet>, cells: Cells, lo: nat)
    requires Ships(cfg, packets, cells, lo)
    ensures Consecutive(packets)
  {
    hide RowOf;
  }

  lemma OntoEmpty(u: Setup, e: EngineState, packets: seq<Packet>, cells: Cells, fates: ChunkFates)
    requires Sound(u) && Ships(u.cfg, packets, cells, 0) && packets != [] && Prefill(u.cfg, e, packets, fates).1.ok
    ensures e.cache == map[]
  {
    hide Span, Ships;
    var kept := InjectOutcome(u.cfg, e.cache, packets, cells, 0, fates, 0);
  }

  lemma EmptyHolds(u: Setup, ledger: Prefixes, e: EngineState)
    requires EdgeHolds(u, ledger, e) && e.cache == map[]
    ensures ledger == [] && NoTransient(e)
  {
    hide Span, CellsOn;
    SomethingHeld(u, ledger);
    assert Confirmed(u, ledger) == map[];
  }

  // ----- tracing a run -----

  // origin: the prefix of the last captured decode of each position; carried: what the
  // requests of the generation carry; lateCarried: what those of earlier ones do;
  // ledger: what the edge confirmed; missed: the positions whose latest decode was not
  // captured.
  datatype Trace = Trace(
    w: World,
    origin: map<nat, seq<int>>,
    carried: seq<Prefixes>,
    lateCarried: seq<Prefixes>,
    ledger: Prefixes,
    missed: set<nat>)

  const OUTSET := Trace(START, map[], [], [], [], {})

  function Sources(origin: map<nat, seq<int>>, lo: nat, hi: nat): (r: Prefixes)
    ensures lo <= hi ==> |r| == hi - lo
  {
    if lo > hi then []
    else seq(hi - lo, i requires 0 <= i < hi - lo => if lo + i in origin then origin[lo + i] else [])
  }

  function Range(lo: nat, hi: nat): (r: set<nat>)
    ensures forall p :: p in r <==> lo <= p < hi
  {
    set p: nat | p < hi && Within(lo, p, hi)
  }

  function PrefixesOf(tokens: seq<int>, lo: nat, hi: nat): map<nat, seq<int>>
    requires hi <= |tokens|
  {
    map p: nat | p < hi && Within(lo, p, hi) :: tokens[..p + 1]
  }

  function Decoded(before: seq<int>, batch: seq<int>): map<nat, seq<int>> {
    PrefixesOf(before + batch, |before|, |before| + |batch|)
  }

  // Where the packets of the next request start.
  function NextUnsent(sender: Server.SenderState, n: nat): nat
    requires sender.nSent >= -1
  {
    if sender.prefilled then sender.nSent + 1 else n
  }

  ghost function Follow(u: Setup, t: Trace, event: Event): (r: Trace)
    requires u.cfg.ubatch > 0 && Possible(u, t.w, event)
    ensures r.w == Step(u, t.w, event)
  {
    var w, n := t.w, |t.w.committed|;
    var w' := Step(u, w, event);
    match event
    case Decode(batch, captured) =>
      var decoded := Range(n, n + |batch|);
      if captured then t.(w := w', origin := t.origin + Decoded(w.committed, batch), missed := t.missed - decoded)
      else t.(w := w', missed := t.missed + decoded)
    case Accept(_) => t.(w := w')
    case NewPrompt(_) => t.(w := w')
    case Begin(resets) =>
      Trace(w', map p | p in t.origin && p < n :: t.origin[p], [], t.lateCarried + t.carried,
            if resets then [] else t.ledger, t.missed)
    case DraftStep(idLast, arrives, chunks, reply) =>
      var shipment := Ship(u, w, idLast, reply).1;
      var goesIn := shipment.prefill.Some? && arrives &&
                    Prefill(u.cfg, w.session.engine, shipment.prefill.value, chunks).1.ok;
      t.(w := w',
         ledger := if goesIn then t.ledger + Sources(t.origin, 0, n) else t.ledger,
         carried := if shipment.request.None? then t.carried
                    else t.carried + [Sources(t.origin, NextUnsent(w.sender, n), n)])
    case Deliver(index, fate) =>
      var req := w.sent[index].req;
      var goesIn := !Stale(w.session, req) &&
                    TakeAccepted(u.cfg, DropTransient(w.session.engine), req.accepted, fate.chunks).1;
      t.(w := w', ledger := if goesIn && index < |t.carried| then t.ledger + t.carried[index] else t.ledger)
    case DeliverLate(index, fate) =>
      var req := w.late[index].req;
      var goesIn := !Stale(w.session, req) &&
                    TakeAccepted(u.cfg, DropTransient(w.session.engine), req.accepted, fate.chunks).1;
      t.(w := w', ledger := if goesIn && index < |t.lateCarried| then t.ledger + t.lateCarried[index] else t.ledger)
  }

  ghost function Traced(u: Setup, t: Trace, events: seq<Event>): Trace
    requires u.cfg.ubatch > 0 && AnyRun(u, t.w, events)
    decreases |events|
  {
    if events == [] then t else Traced(u, Follow(u, t, events[0]), events[1..])
  }

  // ----- the invariant -----

  ghost predicate FeatsTraced(u: Setup, feats: Server.Features, origin: map<nat, seq<int>>) {
    && (forall p :: p in feats <==> p in origin)
    && (forall p :: p in origin ==> |origin[p]| == p + 1 && feats[p] == PacketOf(u, origin[p]))
  }

  ghost predicate RequestsTraced(u: Setup, t: Trace) {
    && |t.carried| == |t.w.sent|
    && forall i :: 0 <= i < |t.carried| ==>
         && Stretch(t.carried[i])
         && t.w.sent[i].req.accepted == PacketsOf(u, t.carried[i])
         && t.w.sent[i].nPast <= |t.w.generation|
  }

  ghost predicate LateTraced(u: Setup, t: Trace) {
    && |t.lateCarried| == |t.w.late|
    && forall i :: 0 <= i < |t.lateCarried| ==>
         && Stretch(t.lateCarried[i])
         && t.w.late[i].req.accepted == PacketsOf(u, t.lateCarried[i])
  }

  // Unless it was missed, a decoded position has the packet of its latest decode.
  ghost predicate LatestCaptured(t: Trace) {
    var all := t.w.committed + t.w.pending;
    forall p: nat :: p < |all| && p !in t.missed ==> p in t.origin && t.origin[p] == all[..p + 1]
  }

  ghost predicate Sourced(u: Setup, t: Trace) {
    && FeatsTraced(u, t.w.sender.feats, t.origin)
    && RequestsTraced(u, t)
    && LateTraced(u, t)
    && LatestCaptured(t)
    && EdgeHolds(u, t.ledger, t.w.session.engine)
    && t.w.sender.nSent >= -1
    && (t.w.live ==> t.w.generation == t.w.committed)
  }

  lemma DecodeTraced(u: Setup, feats: Server.Features, origin: map<nat, seq<int>>, before: seq<int>, batch: seq<int>)
    requires FeatsTraced(u, feats, origin)
    ensures FeatsTraced(u, Capture(u, feats, before, batch), origin + Decoded(before, batch))
  {
    hide Capture;
    forall p: nat
      ensures p in Capture(u, feats, before, batch) <==> p in origin + Decoded(before, batch)
      ensures p in origin + Decoded(before, batch) ==>
                var prefix := (origin + Decoded(before, batch))[p];
                |prefix| == p + 1 && Capture(u, feats, before, batch)[p] == PacketOf(u, prefix)
    {
      CapturedAt(u, feats, before, batch, p);
    }
  }

  lemma CapturedAt(u: Setup, feats: Server.Features, before: seq<int>, batch: seq<int>, p: nat)
    ensures var stored := Capture(u, feats, before, batch);
            var prefix := (before + batch)[..if p < |before + batch| then p + 1 else 0];
            if |before| <= p < |before| + |batch|
            then p in stored && stored[p] == PacketOf(u, prefix) && |prefix| == p + 1
            else (p in stored <==> p in feats) && (p in stored ==> stored[p] == feats[p])
  {
    StoreKeeps(u, feats, before, batch, |batch|, p);
  }

  lemma OneMore(u: Setup, s: Prefixes, prefix: seq<int>, lo: nat)
    requires Stretch(s) && (s != [] ==> Start(s) == lo) && |prefix| == lo + |s| + 1
    ensures Stretch(s + [prefix]) && Start(s + [prefix]) == lo
    ensures PacketsOf(u, s + [prefix]) == PacketsOf(u, s) + [PacketOf(u, prefix)]
  {
    hide PacketOf;
    if s != [] {
      assert |s[0]| == |s[0]| + 0 > 0;
    }
  }

  lemma TracedAt(u: Setup, feats: Server.Features, origin: map<nat, seq<int>>, p: nat)
    requires FeatsTraced(u, feats, origin) && p in feats
    ensures p in origin && |origin[p]| == p + 1 && feats[p] == PacketOf(u, origin[p])
  {
  }

  lemma SourcesGrow(origin: map<nat, seq<int>>, lo: nat, hi: nat)
    requires lo < hi && hi - 1 in origin
    ensures Sources(origin, lo, hi) == Sources(origin, lo, hi - 1) + [origin[hi - 1]]
  {
  }

  lemma {:induction false} GatherTraced(u: Setup, feats: Server.Features, origin: map<nat, seq<int>>, lo: nat, hi: nat)
    requires FeatsTraced(u, feats, origin) && lo <= hi && Server.Gather(feats, lo, hi - 1).Some?
    ensures Server.Gather(feats, lo, hi - 1).value == PacketsOf(u, Sources(origin, lo, hi))
    ensures forall p :: lo <= p < hi ==> p in origin
    ensures Stretch(Sources(origin, lo, hi)) && (lo < hi ==> Start(Sources(origin, lo, hi)) == lo)
  {
    hide *;
    EmptyStretch(origin, lo);
    if lo == hi {
      GatherEmpty(u, feats, origin, lo, hi);
    } else {
      Server.GatherGrows(feats, lo, hi - 1);
      GatherTraced(u, feats, origin, lo, hi - 1);
      TracedAt(u, feats, origin, hi - 1);
      SourcesGrow(origin, lo, hi);
      OneMore(u, Sources(origin, lo, hi - 1), origin[hi - 1], lo);
    }
  }

  lemma EmptyStretch(origin: map<nat, seq<int>>, lo: nat)
    ensures Sources(origin, lo, lo) == [] && Stretch([]) && Start([]) == 0
  {
  }

  lemma GatherEmpty(u: Setup, feats: Server.Features, origin: map<nat, seq<int>>, lo: nat, hi: nat)
    requires hi <= lo
    ensures Server.Gather(feats, lo, hi - 1) == Some([]) && Sources(origin, lo, hi) == []
    ensures PacketsOf(u, []) == []
  {
  }

  // ----- every event keeps the invariant -----

  lemma DecodeSourced(u: Setup, t: Trace, batch: seq<int>, captured: bool)
    requires Sound(u) && Sourced(u, t)
    ensures Sourced(u, Follow(u, t, Decode(batch, captured)))
  {
    hide Capture, FeatsTraced, RequestsTraced, LateTraced, EdgeHolds;
    var all := t.w.committed + t.w.pending;
    if captured {
      DecodeTraced(u, t.w.sender.feats, t.origin, t.w.committed, batch);
    }
    var t' := Follow(u, t, Decode(batch, captured));
    forall p: nat | p < |t.w.committed| + |batch| && p !in t'.missed
      ensures p in t'.origin && t'.origin[p] == (t.w.committed + batch)[..p + 1]
    {
      if p < |t.w.committed| {
        assert (t.w.committed + batch)[..p + 1] == all[..p + 1];
      }
    }
    SameRequests(u, t, t');
  }

  lemma SameRequests(u: Setup, t: Trace, t': Trace)
    requires RequestsTraced(u, t) && t'.carried == t.carried && t'.w.sent == t.w.sent
    requires LateTraced(u, t) && t'.lateCarried == t.lateCarried && t'.w.late == t.w.late
    requires |t.w.generation| <= |t'.w.generation|
    ensures RequestsTraced(u, t') && LateTraced(u, t')
  {
    hide PacketsOf, Stretch;
  }

  lemma AcceptSourced(u: Setup, t: Trace, count: nat)
    requires Sound(u) && Sourced(u, t) && Possible(u, t.w, Accept(count))
    ensures Sourced(u, Follow(u, t, Accept(count)))
  {
    hide FeatsTraced, RequestsTraced, LateTraced, EdgeHolds;
    var t' := Follow(u, t, Accept(count));
    var all := t.w.committed + t.w.pending;
    SameRequests(u, t, t');
    forall p: nat | p < |t'.w.committed| && p !in t.missed
      ensures p in t.origin && t.origin[p] == t'.w.committed[..p + 1]
    {
      assert t'.w.committed[..p + 1] == all[..p + 1];
    }
    assert t'.w.committed + [] == t'.w.committed;
  }

  lemma NewPromptSourced(u: Setup, t: Trace, keep: nat)
    requires Sound(u) && Sourced(u, t) && Possible(u, t.w, NewPrompt(keep))
    ensures Sourced(u, Follow(u, t, NewPrompt(keep)))
  {
    hide FeatsTraced, RequestsTraced, LateTraced, EdgeHolds;
    var t' := Follow(u, t, NewPrompt(keep));
    var all := t.w.committed + t.w.pending;
    SameRequests(u, t, t');
    forall p: nat | p < keep && p !in t.missed
      ensures p in t.origin && t.origin[p] == t'.w.committed[..p + 1]
    {
      assert t'.w.committed[..p + 1] == all[..p + 1];
    }
    assert t'.w.committed + [] == t'.w.committed;
  }

  lemma BeginSourced(u: Setup, t: Trace, resets: bool)
    requires Sound(u) && Sourced(u, t)
    ensures Sourced(u, Follow(u, t, Begin(resets)))
  {
    hide EdgeHolds, PacketsOf, Stretch;
    var t' := Follow(u, t, Begin(resets));
    var all := t.w.committed + t.w.pending;
    FreshHoldsNothing(u);
    forall p: nat | p < |t'.w.committed| && p !in t.missed
      ensures p in t'.origin && t'.origin[p] == t'.w.committed[..p + 1]
    {
      assert t'.w.committed[..p + 1] == all[..p + 1];
    }
    assert t'.w.committed + [] == t'.w.committed;
  }

  lemma FreshHoldsNothing(u: Setup)
    ensures EdgeHolds(u, [], FRESH)
  {
    hide Tidy, Span;
    FreshIsTidy();
    NothingHeld(u);
  }

  // What a draft ships, in terms of where its packets come from.
  lemma ShipmentTraced(u: Setup, t: Trace, idLast: int, reply: DraftReply)
    requires Sound(u) && Sourced(u, t)
    ensures var n := |t.w.committed|;
            var (sender, shipment) := Ship(u, t.w, idLast, reply);
            var lo := NextUnsent(t.w.sender, n);
            && sender.feats == t.w.sender.feats && sender.nSent >= -1
            && (shipment.prefill.Some? ==>
                  && shipment.prefill.value == PacketsOf(u, Sources(t.origin, 0, n))
                  && Stretch(Sources(t.origin, 0, n)) && Start(Sources(t.origin, 0, n)) == 0)
            && (shipment.request.Some? ==>
                  && shipment.request.value.accepted == PacketsOf(u, Sources(t.origin, lo, n))
                  && Stretch(Sources(t.origin, lo, n)))
  {
    hide Server.Gather, PacketsOf, Sources, Stretch, FeatsTraced, EdgeHolds, RequestsTraced, LatestCaptured;
    var w, n := t.w, |t.w.committed|;
    var lo := NextUnsent(w.sender, n);
    GatherAny(u, w.sender.feats, t.origin, 0, n);
    GatherAny(u, w.sender.feats, t.origin, lo, n);
  }

  lemma GatherAny(u: Setup, feats: Server.Features, origin: map<nat, seq<int>>, lo: nat, hi: nat)
    requires FeatsTraced(u, feats, origin)
    ensures var packets := Server.Gather(feats, lo, hi - 1);
            packets.Some? ==>
              && packets.value == PacketsOf(u, Sources(origin, lo, hi))
              && Stretch(Sources(origin, lo, hi))
              && (lo == 0 ==> Start(Sources(origin, lo, hi)) == 0)
  {
    hide FeatsTraced, PacketOf;
    if hi <= lo {
      GatherEmpty(u, feats, origin, lo, hi);
    } else if Server.Gather(feats, lo, hi - 1).Some? {
      GatherTraced(u, feats, origin, lo, hi);
    }
  }

  lemma DraftStepSourced(u: Setup, t: Trace, idLast: int, arrives: bool, chunks: ChunkFates, reply: DraftReply)
    requires Sound(u) && Sourced(u, t) && Possible(u, t.w, DraftStep(idLast, arrives, chunks, reply))
    ensures Sourced(u, Follow(u, t, DraftStep(idLast, arrives, chunks, reply)))
  {
    hide Ship, PacketsOf, Sources, Stretch, FeatsTraced, EdgeHolds, Prefill;
    ShipmentTraced(u, t, idLast, reply);
    var shipment := Ship(u, t.w, idLast, reply).1;
    if shipment.prefill.Some? && arrives {
      PrefillOnto(u, t.ledger, t.w.session.engine, Sources(t.origin, 0, |t.w.committed|), chunks);
    }
  }

  lemma DeliverSourced(u: Setup, t: Trace, index: nat, fate: Fate)
    requires Sound(u) && Sourced(u, t) && index < |t.w.sent|
    ensures Sourced(u, Follow(u, t, Deliver(index, fate)))
  {
    hide PacketsOf, Stretch, FeatsTraced, EdgeHolds, TakeAccepted, DropTransient, DraftBlock;
    var t' := Follow(u, t, Deliver(index, fate));
    SameRequests(u, t, t');
    if !Stale(t.w.session, t.w.sent[index].req) {
      DeliveryOnto(u, t.ledger, t.w.session, t.w.sent[index].req, t.carried[index], fate);
    }
  }

  lemma DeliverLateSourced(u: Setup, t: Trace, index: nat, fate: Fate)
    requires Sound(u) && Sourced(u, t) && index < |t.w.late|
    ensures Sourced(u, Follow(u, t, DeliverLate(index, fate)))
  {
    hide PacketsOf, Stretch, FeatsTraced, EdgeHolds, TakeAccepted, DropTransient, DraftBlock;
    var t' := Follow(u, t, DeliverLate(index, fate));
    SameRequests(u, t, t');
    if !Stale(t.w.session, t.w.late[index].req) {
      DeliveryOnto(u, t.ledger, t.w.session, t.w.late[index].req, t.lateCarried[index], fate);
    }
  }

  // A fresh request at an edge, for every fate of the llama calls.
  lemma DeliveryOnto(u: Setup, ledger: Prefixes, session: SessionState, req: DraftRequest, s: Prefixes, fate: Fate)
    requires Sound(u) && EdgeHolds(u, ledger, session.engine) && Stretch(s) && req.accepted == PacketsOf(u, s)
    requires !Stale(session, req)
    ensures var t := TakeAccepted(u.cfg, DropTransient(session.engine), req.accepted, fate.chunks);
            var (session', reply) := HandleDraft(u.cfg, u.next, session, req, fate);
            && (t.1 ==> Follows(ledger, s))
            && ((forall c :: fate.chunks(c) == Encoded(Decodes)) ==> (t.1 <==> Follows(ledger, s)))
            && (reply.ok <==> t.1 && fate.noise == Decodes)
            && EdgeHolds(u, if t.1 then ledger + s else ledger, session'.engine)
            && (t.1 ==> t.0.cache == Confirmed(u, ledger + s) && NoTransient(t.0))
  {
    hide MaxPos, Span, SeqRm, Inject, TakeAccepted, DropTransient, CellsOn, PacketsOf, Stretch, Confirmed;
    Dropped(u, ledger, session.engine);
    ShipmentOnto(u, ledger, DropTransient(session.engine), s, fate.chunks);
    var t := TakeAccepted(u.cfg, DropTransient(session.engine), req.accepted, fate.chunks);
    if t.1 {
      NoiseStaysAbove(u.cfg, u.next, t.0, req, fate.noise);
    }
  }

  lemma EventSourced(u: Setup, t: Trace, event: Event)
    requires Sound(u) && Sourced(u, t) && Possible(u, t.w, event)
    ensures Sourced(u, Follow(u, t, event)) && Follow(u, t, event).w == Step(u, t.w, event)
  {
    hide Sourced, Step;
    match event
    case Decode(batch, captured) => DecodeSourced(u, t, batch, captured);
    case Accept(count) => AcceptSourced(u, t, count);
    case NewPrompt(keep) => NewPromptSourced(u, t, keep);
    case Begin(resets) => BeginSourced(u, t, resets);
    case DraftStep(idLast, arrives, chunks, reply) => DraftStepSourced(u, t, idLast, arrives, chunks, reply);
    case Deliver(index, fate) => DeliverSourced(u, t, index, fate);
    case DeliverLate(index, fate) => DeliverLateSourced(u, t, index, fate);
  }

  lemma OutsetSourced(u: Setup)
    ensures Sourced(u, OUTSET)
  {
    FreshHoldsNothing(u);
  }

  // Over any run at all, the trace tells where everything came from.
  lemma {:induction false} RunSourced(u: Setup, t: Trace, events: seq<Event>)
    requires Sound(u) && Sourced(u, t) && AnyRun(u, t.w, events)
    ensures Sourced(u, Traced(u, t, events)) && Traced(u, t, events).w == Reach(u, t.w, events)
    decreases |events|
  {
    hide Sourced, Step, Follow, Possible;
    if events == [] {
    } else {
      EventSourced(u, t, events[0]);
      RunSourced(u, Follow(u, t, events[0]), events[1..]);
    }
  }
}
