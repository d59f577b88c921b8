// What the draft cache holds after any sequence of engine calls: the confirmed
// cells, and above the confirmed mark only leftovers that the next draft drops.
module CacheCleanup {
  import opened Wire
  import opened DraftEngine

  predicate Within(lo: int, p: int, hi: int) {
    lo <= p < hi
  }

  type Cells = nat -> Cell

  // The cells of the positions lo .. hi - 1.
  ghost function Span(cells: Cells, lo: nat, hi: nat): Cache {
    map p: nat | p < hi && Within(lo, p, hi) :: cells(p)
  }

  lemma SpanKeys(cells: Cells, lo: nat, hi: nat, p: nat)
    ensures p in Span(cells, lo, hi) <==> lo <= p < hi
    ensures p in Span(cells, lo, hi) ==> Span(cells, lo, hi)[p] == cells(p)
  {
    assert Within(lo, p, hi) <==> lo <= p < hi;
  }

  lemma SpanJoins(cache: Cache, cells: Cells, lo: nat, mid: nat, hi: nat)
    requires lo <= mid <= hi
    ensures cache + Span(cells, lo, mid) + Span(cells, mid, hi) == cache + Span(cells, lo, hi)
  {
    forall p: nat
      ensures p in Span(cells, lo, hi) <==> p in Span(cells, lo, mid) || p in Span(cells, mid, hi)
    {
      SpanKeys(cells, lo, hi, p);
      SpanKeys(cells, lo, mid, p);
      SpanKeys(cells, mid, hi, p);
    }
  }

  lemma EmptySpan(cache: Cache, cells: Cells, lo: nat)
    ensures cache + Span(cells, lo, lo) == cache
  {
  }

  lemma WriteOne(cache: Cache, cells: Cells, lo: nat)
    ensures cache[lo := cells(lo)] == cache + Span(cells, lo, lo + 1)
  {
    var one := Span(cells, lo, lo + 1);
    forall p | p in one
      ensures p == lo
    {
      SpanKeys(cells, lo, lo + 1, p);
    }
    SpanKeys(cells, lo, lo + 1, lo);
  }

  // A batch that carries the given cells from position lo on.
  ghost predicate Carries(batch: seq<Entry>, cells: Cells, lo: nat) {
    forall i :: 0 <= i < |batch| ==> batch[i] == Entry(lo + i, cells(lo + i))
  }

  lemma {:induction false} WriteSpan(cache: Cache, batch: seq<Entry>, cells: Cells, lo: nat)
    requires Carries(batch, cells, lo)
    ensures Write(cache, batch) == cache + Span(cells, lo, lo + |batch|)
    decreases |batch|
  {
    hide Span;
    if batch != [] {
      WriteOne(cache, cells, lo);
      WriteSpan(cache[lo := cells(lo)], batch[1..], cells, lo + 1);
      SpanJoins(cache, cells, lo, lo + 1, lo + |batch|);
    } else {
      EmptySpan(cache, cells, lo);
    }
  }

  // A decode of consecutive positions leaves a prefix of its batch behind, all of it
  // exactly when it reports success; a non-empty cache only grows at its end.
  lemma DecodeOutcome(cache: Cache, batch: seq<Entry>, cells: Cells, lo: nat, fate: DecodeFate) returns (kept: nat)
    requires Carries(batch, cells, lo)
    ensures kept <= |batch|
    ensures Decode(cache, batch, fate).0 == cache + Span(cells, lo, lo + kept)
    ensures Decode(cache, batch, fate).1 ==> kept == |batch|
    ensures kept > 0 && cache != map[] ==> lo == MaxPos(cache) + 1
  {
    hide MaxPos, Span;
    kept := 0;
    EmptySpan(cache, cells, lo);
    if Continues(cache, batch) {
      match fate
      case Decodes =>
        kept := |batch|;
        WriteSpan(cache, batch, cells, lo);
      case Breaks(k) =>
        kept := if k <= |batch| then k else |batch|;
        WriteSpan(cache, batch[..kept], cells, lo);
    }
  }

  // A shipment whose packets sit at lo, lo + 1, ... and unpack to the given cells.
  ghost predicate Ships(cfg: Config, tokens: seq<Packet>, cells: Cells, lo: nat) {
    forall i :: 0 <= i < |tokens| ==> tokens[i].position == lo + i && Tap(RowOf(cfg, tokens[i])) == cells(lo + i)
  }

  lemma ChunkOutcome(cfg: Config, cache: Cache, part: seq<Packet>, cells: Cells, lo: nat, fate: ChunkFate)
    returns (kept: nat)
    requires Ships(cfg, part, cells, lo)
    ensures kept <= |part|
    ensures InjectChunk(cfg, cache, part, fate).0 == cache + Span(cells, lo, lo + kept)
    ensures InjectChunk(cfg, cache, part, fate).1 ==> kept == |part|
    ensures kept > 0 && cache != map[] ==> lo == MaxPos(cache) + 1
  {
    hide MaxPos, Span;
    kept := 0;
    EmptySpan(cache, cells, lo);
    if (forall i :: 0 <= i < |part| ==> Unpackable(cfg, part[i])) && fate.Encoded? {
      kept := DecodeOutcome(cache, Entries(cfg, part), cells, lo, fate.decode);
    }
  }

  lemma ShipmentSplits(cfg: Config, tokens: seq<Packet>, cells: Cells, lo: nat, n: nat)
    requires Ships(cfg, tokens, cells, lo) && n <= |tokens|
    ensures Ships(cfg, tokens[..n], cells, lo) && Ships(cfg, tokens[n..], cells, lo + n)
  {
    hide RowOf;
    assert forall i :: 0 <= i < |tokens| - n ==> tokens[n..][i] == tokens[n + i];
  }

  // Injection leaves the cells of a prefix of the shipment, whatever fails on the way.
  lemma {:induction false} InjectOutcome(
    cfg: Config, cache: Cache, tokens: seq<Packet>, cells: Cells, lo: nat, fates: ChunkFates, chunk: nat)
    returns (kept: nat)
    requires cfg.ubatch > 0 && Ships(cfg, tokens, cells, lo)
    ensures kept <= |tokens|
    ensures Inject(cfg, cache, tokens, fates, chunk).0 == cache + Span(cells, lo, lo + kept)
    ensures Inject(cfg, cache, tokens, fates, chunk).1 ==> kept == |tokens|
    ensures kept > 0 && cache != map[] ==> lo == MaxPos(cache) + 1
    decreases |tokens|
  {
    hide MaxPos, Span, Ships, InjectChunk;
    kept := 0;
    EmptySpan(cache, cells, lo);
    if tokens == [] {
    } else {
      var n := Min(cfg.ubatch, |tokens|);
      ShipmentSplits(cfg, tokens, cells, lo, n);
      var d := InjectChunk(cfg, cache, tokens[..n], fates(chunk));
      kept := ChunkOutcome(cfg, cache, tokens[..n], cells, lo, fates(chunk));
      if d.1 {
        var more := InjectOutcome(cfg, d.0, tokens[n..], cells, lo + n, fates, chunk + 1);
        SpanJoins(cache, cells, lo, lo + n, lo + n + more);
        kept := n + more;
      }
    }
  }

  // The cells that a shipment stands for.
  ghost function First(tokens: seq<Packet>): nat {
    if tokens == [] then 0 else tokens[0].position
  }

  ghost function Shipped(cfg: Config, tokens: seq<Packet>): Cells {
    (p: nat) =>
      if First(tokens) <= p < First(tokens) + |tokens| then Tap(RowOf(cfg, tokens[p - First(tokens)])) else Noise(0)
  }

  ghost function CellsOf(cfg: Config, tokens: seq<Packet>): Cache {
    Span(Shipped(cfg, tokens), First(tokens), First(tokens) + |tokens|)
  }

  // ----- the invariant -----

  // Below and at the confirmed mark: exactly the confirmed cells, the mark being
  // their highest position. Above it: anything.
  ghost predicate Tidy(e: EngineState, confirmed: Cache) {
    SeqRm(e.cache, e.confirmedMax + 1) == confirmed && MaxPos(confirmed) == e.confirmedMax
  }

  ghost predicate NoTransient(e: EngineState) {
    MaxPos(e.cache) == e.confirmedMax
  }

  lemma NothingAbove(e: EngineState, confirmed: Cache)
    requires Tidy(e, confirmed) && NoTransient(e)
    ensures e.cache == confirmed
  {
    assert SeqRm(e.cache, e.confirmedMax + 1) == e.cache;
  }

  lemma MaxIs(cache: Cache, top: nat)
    requires top in cache && forall p :: p in cache ==> p <= top
    ensures MaxPos(cache) == top
  {
  }

  lemma SeqRmNothing(cache: Cache)
    ensures SeqRm(cache, MaxPos(cache) + 1) == cache
  {
  }

  // What continues a cache lies above its end.
  lemma SpanLiesAbove(cache: Cache, cells: Cells, lo: nat, hi: nat)
    requires lo < hi && cache != map[] ==> lo == MaxPos(cache) + 1
    ensures SeqRm(cache + Span(cells, lo, hi), MaxPos(cache) + 1) == cache
  {
    forall p: nat
      ensures p in Span(cells, lo, hi) ==> p > MaxPos(cache)
    {
      SpanKeys(cells, lo, hi, p);
    }
  }

  lemma SpanEnds(cache: Cache, cells: Cells, lo: nat, hi: nat)
    requires lo < hi && (cache != map[] ==> lo == MaxPos(cache) + 1)
    ensures MaxPos(cache + Span(cells, lo, hi)) == hi - 1
  {
    var all := cache + Span(cells, lo, hi);
    SpanKeys(cells, lo, hi, hi - 1);
    forall p | p in all
      ensures p <= hi - 1
    {
      SpanKeys(cells, lo, hi, p);
    }
    MaxIs(all, hi - 1);
  }

  lemma ShipmentTaken(cfg: Config, e: EngineState, tokens: seq<Packet>, cells: Cells, lo: nat, fates: ChunkFates)
    requires cfg.ubatch > 0 && Ships(cfg, tokens, cells, lo) && NoTransient(e)
    requires TakeAccepted(cfg, e, tokens, fates).1
    ensures var e' := TakeAccepted(cfg, e, tokens, fates).0;
            && e'.cache == e.cache + Span(cells, lo, lo + |tokens|)
            && e'.confirmedMax == (if tokens != [] then lo + |tokens| - 1 else e.confirmedMax)
            && e'.lastToken == (if tokens != [] then tokens[|tokens| - 1].token else e.lastToken)
            && NoTransient(e')
            && (tokens != [] && e.cache != map[] ==> lo == e.confirmedMax + 1)
  {
    hide MaxPos, Span, Inject;
    var kept := InjectOutcome(cfg, e.cache, tokens, cells, lo, fates, 0);
    if tokens == [] {
      EmptySpan(e.cache, cells, lo);
    } else {
      SpanEnds(e.cache, cells, lo, lo + |tokens|);
    }
  }

  lemma ShipmentDropped(cfg: Config, e: EngineState, tokens: seq<Packet>, cells: Cells, lo: nat, fates: ChunkFates)
    requires cfg.ubatch > 0 && Ships(cfg, tokens, cells, lo) && NoTransient(e)
    requires !TakeAccepted(cfg, e, tokens, fates).1
    ensures TakeAccepted(cfg, e, tokens, fates).0.confirmedMax == e.confirmedMax
    ensures TakeAccepted(cfg, e, tokens, fates).0.lastToken == e.lastToken
    ensures Tidy(TakeAccepted(cfg, e, tokens, fates).0, e.cache)
  {
    hide MaxPos, Span, Inject, SeqRm, Ships;
    var kept := InjectOutcome(cfg, e.cache, tokens, cells, lo, fates, 0);
    SpanLiesAbove(e.cache, cells, lo, lo + kept);
  }

  lemma CleanIsTidy(e: EngineState)
    requires NoTransient(e)
    ensures Tidy(e, e.cache)
  {
    SeqRmNothing(e.cache);
  }

  // Injecting a shipment into a cache that holds exactly the confirmed cells.
  lemma TakeAcceptedTidies(cfg: Config, e: EngineState, tokens: seq<Packet>, cells: Cells, lo: nat, fates: ChunkFates)
    requires cfg.ubatch > 0 && Ships(cfg, tokens, cells, lo) && NoTransient(e)
    ensures var t := TakeAccepted(cfg, e, tokens, fates);
            var grown := e.cache + Span(cells, lo, lo + |tokens|);
            && Tidy(t.0, if t.1 then grown else e.cache)
            && (t.1 ==> NoTransient(t.0) && t.0.cache == grown)
  {
    hide MaxPos, Span, TakeAccepted, Tidy;
    if TakeAccepted(cfg, e, tokens, fates).1 {
      ShipmentTaken(cfg, e, tokens, cells, lo, fates);
      CleanIsTidy(TakeAccepted(cfg, e, tokens, fates).0);
    } else {
      ShipmentDropped(cfg, e, tokens, cells, lo, fates);
    }
  }

  // The fill level that a prefill reports: one past the highest position it then holds,
  // except that an empty prefill reports 0 whatever is held, and a failed one as well.
  lemma PrefillReportsFill(cfg: Config, e: EngineState, tokens: seq<Packet>, cells: Cells, lo: nat, chunks: ChunkFates)
    requires cfg.ubatch > 0 && Ships(cfg, tokens, cells, lo)
    ensures var d := Prefill(cfg, e, tokens, chunks);
            && (!d.1.ok ==> d.1.positions == 0)
            && (d.1.ok && tokens != [] ==> d.1.positions == lo + |tokens|)
            && (d.1.ok ==> (d.1.positions == MaxPos(d.0.cache) + 1 <==> tokens != [] || e.cache == map[]))
  {
    hide MaxPos, Span, Inject;
    var kept := InjectOutcome(cfg, e.cache, tokens, cells, lo, chunks, 0);
    if tokens == [] {
      EmptySpan(e.cache, cells, lo);
      EmptyFill(e.cache);
    } else if Prefill(cfg, e, tokens, chunks).1.ok {
      SpanEnds(e.cache, cells, lo, lo + |tokens|);
    }
  }

  lemma EmptyFill(cache: Cache)
    ensures MaxPos(cache) + 1 == 0 <==> cache == map[]
  {
  }

  // When llama never fails, a shipment goes in exactly when all its packets have the
  // right size and it continues the cache; an empty cache takes it anywhere.
  lemma {:induction false} FaultlessInjection(
    cfg: Config, cache: Cache, tokens: seq<Packet>, cells: Cells, lo: nat, fates: ChunkFates, chunk: nat)
    requires cfg.ubatch > 0 && Ships(cfg, tokens, cells, lo)
    requires forall c :: fates(c) == Encoded(Decodes)
    requires forall i :: 0 <= i < |tokens| ==> Unpackable(cfg, tokens[i])
    ensures Inject(cfg, cache, tokens, fates, chunk).1 <==> tokens == [] || cache == map[] || lo == MaxPos(cache) + 1
    decreases |tokens|
  {
    hide MaxPos, Span, Ships;
    if tokens == [] {
    } else {
      var n := Min(cfg.ubatch, |tokens|);
      var d := InjectChunk(cfg, cache, tokens[..n], fates(chunk));
      ShipmentSplits(cfg, tokens, cells, lo, n);
      PositionsOf(cfg, tokens[..n], cells, lo);
      var kept := ChunkOutcome(cfg, cache, tokens[..n], cells, lo, fates(chunk));
      assert d.1 <==> Continues(cache, Entries(cfg, tokens[..n]));
      assert Entries(cfg, tokens[..n])[0].position == lo;
      if d.1 {
        SpanEnds(cache, cells, lo, lo + n);
        SpanHasCells(cache, cells, lo, lo + n);
        FaultlessInjection(cfg, d.0, tokens[n..], cells, lo + n, fates, chunk + 1);
      }
    }
  }

  lemma PositionsOf(cfg: Config, tokens: seq<Packet>, cells: Cells, lo: nat)
    requires Ships(cfg, tokens, cells, lo)
    ensures forall i :: 0 <= i < |tokens| ==> Entries(cfg, tokens)[i].position == lo + i
  {
  }

  lemma SpanHasCells(cache: Cache, cells: Cells, lo: nat, hi: nat)
    requires lo < hi
    ensures cache + Span(cells, lo, hi) != map[]
  {
    SpanKeys(cells, lo, hi, lo);
    assert lo in cache + Span(cells, lo, hi);
  }

  // A draft block: the anchor, then masks.
  ghost function NoiseCells(cfg: Config, lo: nat, anchor: int): Cells {
    (p: nat) => if p == lo then Noise(anchor) else Noise(cfg.mask)
  }

  // How many tokens a block may have: none unless both limits are positive, and then the
  // smaller one.
  function Room(maxDraft: int, blockSize: int): (n: nat)
    ensures n == 0 <==> maxDraft <= 0 || blockSize <= 0
    ensures n > 0 ==> n <= maxDraft && n <= blockSize && (n == maxDraft || n == blockSize)
  {
    if maxDraft <= 0 || blockSize <= 0 then 0 else if maxDraft <= blockSize then maxDraft else blockSize
  }

  // The entries of positions lo .. lo + n - 1 with the given cells.
  ghost function Batch(cells: Cells, lo: nat, n: nat): (r: seq<Entry>)
    ensures |r| == n
  {
    seq(n, i requires 0 <= i < n => Entry(lo + i, cells(lo + i)))
  }

  // At most n tokens, each the one that the model names after those before it; fewer only
  // where the model names none.
  ghost predicate Sampled(next: Drafter, cache: Cache, batch: seq<Entry>, n: nat, tokens: seq<int>) {
    && |tokens| <= n
    && (forall i :: 0 <= i < |tokens| ==> next(cache, batch, tokens[..i]) == Some(tokens[i]))
    && (|tokens| < n ==> next(cache, batch, tokens) == None)
  }

  lemma {:induction false} SampleFollows(next: Drafter, cache: Cache, batch: seq<Entry>, drafted: seq<int>, n: nat)
    requires |drafted| <= n
    requires forall i :: 0 <= i < |drafted| ==> next(cache, batch, drafted[..i]) == Some(drafted[i])
    ensures Sampled(next, cache, batch, n, Sample(next, cache, batch, drafted, n))
    decreases n - |drafted|
  {
    if |drafted| < n && next(cache, batch, drafted).Some? {
      var grown := drafted + [next(cache, batch, drafted).value];
      forall i | 0 <= i < |grown|
        ensures next(cache, batch, grown[..i]) == Some(grown[i])
      {
        assert grown[..i] == drafted[..i];
      }
      SampleFollows(next, cache, batch, grown, n);
    }
  }

  // No other tokens are sampled from the same cache and batch.
  lemma {:induction false} SampledIsUnique(
    next: Drafter, cache: Cache, batch: seq<Entry>, n: nat, a: seq<int>, b: seq<int>, i: nat)
    requires Sampled(next, cache, batch, n, a) && Sampled(next, cache, batch, n, b)
    requires i <= |a| && i <= |b| && a[..i] == b[..i]
    ensures a == b
    decreases n - i
  {
    assert a[..|a|] == a && b[..|b|] == b;
    if i < |a| && i < |b| {
      assert a[..i + 1] == a[..i] + [a[i]] && b[..i + 1] == b[..i] + [b[i]];
      SampledIsUnique(next, cache, batch, n, a, b, i + 1);
    }
  }

  // An ok answer whose tokens are sampled from the cache that its block is in.
  ghost predicate Answers(next: Drafter, cache: Cache, block: seq<Entry>, stepId: nat, reply: DraftReply) {
    && reply.ok && reply.stepId == stepId && reply.error == ""
    && Sampled(next, cache, block, |block|, reply.tokens)
  }

  // The noise block goes right above the cache and disturbs nothing below; it fails
  // only when llama does, and otherwise the answer is sampled over it.
  lemma NoiseStaysAbove(cfg: Config, next: Drafter, e: EngineState, req: DraftRequest, fate: DecodeFate)
    requires NoTransient(e)
    ensures var d := DraftBlock(cfg, next, e, req, fate);
            d.0.confirmedMax == e.confirmedMax && d.0.lastToken == e.lastToken && Tidy(d.0, e.cache)
    ensures var d := DraftBlock(cfg, next, e, req, fate);
            var n := Room(req.maxDraft, cfg.blockSize);
            var anchor := if req.anchor != 0 then req.anchor else e.lastToken;
            var lo := MaxPos(e.cache) + 1;
            var cells := NoiseCells(cfg, lo, anchor);
            && (d.1.ok <==> fate == Decodes)
            && (d.1.ok ==> d.0.cache == e.cache + Span(cells, lo, lo + n))
            && (d.1.ok ==> Answers(next, d.0.cache, Batch(cells, lo, n), req.stepId, d.1))
            && (!d.1.ok ==> d.1 == DraftReply(req.stepId, false, "noise decode failed", []))
  {
    hide MaxPos, Span, Sampled;
    var n := Min(req.maxDraft, cfg.blockSize);
    var anchor := if req.anchor != 0 then req.anchor else e.lastToken;
    var lo := MaxPos(e.cache) + 1;
    var batch := NoiseBlock(cfg, lo, anchor, n);
    var cells := NoiseCells(cfg, lo, anchor);
    var kept := DecodeOutcome(e.cache, batch, cells, lo, fate);
    SpanLiesAbove(e.cache, cells, lo, lo + kept);
    assert batch == Batch(cells, lo, |batch|) && |batch| == Room(req.maxDraft, cfg.blockSize);
    BlockSampled(next, Decode(e.cache, batch, fate).0, batch, n);
  }

  // Also where the limit is negative and no block is decoded.
  lemma BlockSampled(next: Drafter, cache: Cache, batch: seq<Entry>, n: int)
    ensures Sampled(next, cache, batch, if n < 0 then 0 else n, Sample(next, cache, batch, [], n))
  {
    if n >= 0 {
      SampleFollows(next, cache, batch, [], n);
    }
  }

  // ----- every sequence of calls -----

  ghost function Apply(cfg: Config, next: Drafter, e: EngineState, call: Call): EngineState
    requires cfg.ubatch > 0
  {
    match call
    case PrefillCall(tokens, chunks) => Prefill(cfg, e, tokens, chunks).0
    case DraftCall(req, fate) => Draft(cfg, next, e, req, fate).0
    case ResetCall => FRESH
  }

  // What a call confirms: the cells of a shipment that went in whole.
  ghost function Confirm(cfg: Config, e: EngineState, confirmed: Cache, call: Call): Cache
    requires cfg.ubatch > 0
  {
    match call
    case PrefillCall(tokens, chunks) =>
      if Prefill(cfg, e, tokens, chunks).1.ok then confirmed + CellsOf(cfg, tokens) else confirmed
    case DraftCall(req, fate) =>
      if TakeAccepted(cfg, DropTransient(e), req.accepted, fate.chunks).1
      then confirmed + CellsOf(cfg, req.accepted) else confirmed
    case ResetCall => map[]
  }

  // A prefill that brings tokens and succeeds on top of what an earlier draft or failed
  // injection left behind.
  ghost predicate FillsOverLeftovers(cfg: Config, e: EngineState, tokens: seq<Packet>, chunks: ChunkFates)
    requires cfg.ubatch > 0
  {
    tokens != [] && Prefill(cfg, e, tokens, chunks).1.ok && !NoTransient(e)
  }

  // The caller's side: packets at consecutive positions, and no such prefill.
  ghost predicate Orderly(cfg: Config, e: EngineState, call: Call)
    requires cfg.ubatch > 0
  {
    match call
    case PrefillCall(tokens, chunks) => Consecutive(tokens) && !FillsOverLeftovers(cfg, e, tokens, chunks)
    case DraftCall(req, _) => Consecutive(req.accepted)
    case ResetCall => true
  }

  ghost predicate AllOrderly(cfg: Config, next: Drafter, e: EngineState, calls: seq<Call>)
    requires cfg.ubatch > 0
    decreases |calls|
  {
    calls == [] || (Orderly(cfg, e, calls[0]) && AllOrderly(cfg, next, Apply(cfg, next, e, calls[0]), calls[1..]))
  }

  ghost function EngineAfter(cfg: Config, next: Drafter, e: EngineState, calls: seq<Call>): EngineState
    requires cfg.ubatch > 0
    decreases |calls|
  {
    if calls == [] then e else EngineAfter(cfg, next, Apply(cfg, next, e, calls[0]), calls[1..])
  }

  ghost function ConfirmedAfter(cfg: Config, next: Drafter, e: EngineState, confirmed: Cache, calls: seq<Call>): Cache
    requires cfg.ubatch > 0
    decreases |calls|
  {
    if calls == [] then confirmed
    else ConfirmedAfter(cfg, next, Apply(cfg, next, e, calls[0]), Confirm(cfg, e, confirmed, calls[0]), calls[1..])
  }

  lemma DraftTidies(cfg: Config, next: Drafter, e: EngineState, confirmed: Cache, req: DraftRequest, fate: Fate)
    requires cfg.ubatch > 0 && Tidy(e, confirmed) && Consecutive(req.accepted)
    ensures DropTransient(e).cache == confirmed
    ensures Tidy(Draft(cfg, next, e, req, fate).0, Confirm(cfg, e, confirmed, DraftCall(req, fate)))
  {
    hide MaxPos, Span, SeqRm, Inject;
    TakeAcceptedTidies(cfg, DropTransient(e), req.accepted, Shipped(cfg, req.accepted), First(req.accepted),
                       fate.chunks);
    var t := TakeAccepted(cfg, DropTransient(e), req.accepted, fate.chunks);
    if t.1 {
      NothingAbove(t.0, confirmed + CellsOf(cfg, req.accepted));
      NoiseStaysAbove(cfg, next, t.0, req, fate.noise);
    }
  }

  lemma PrefillTakes(cfg: Config, e: EngineState, tokens: seq<Packet>, chunks: ChunkFates)
    requires cfg.ubatch > 0
    ensures Prefill(cfg, e, tokens, chunks).0 == TakeAccepted(cfg, e, tokens, chunks).0
    ensures Prefill(cfg, e, tokens, chunks).1.ok == TakeAccepted(cfg, e, tokens, chunks).1
  {
    hide Inject;
  }

  lemma PrefillTidies(cfg: Config, e: EngineState, confirmed: Cache, tokens: seq<Packet>, chunks: ChunkFates)
    requires cfg.ubatch > 0 && Tidy(e, confirmed) && Consecutive(tokens) && NoTransient(e)
    ensures Tidy(Prefill(cfg, e, tokens, chunks).0, Confirm(cfg, e, confirmed, PrefillCall(tokens, chunks)))
  {
    hide MaxPos, Span, SeqRm, Inject, Draft, Prefill, TakeAccepted, Tidy, Shipped;
    NothingAbove(e, confirmed);
    PrefillTakes(cfg, e, tokens, chunks);
    ShippedShips(cfg, tokens);
    TakeAcceptedTidies(cfg, e, tokens, Shipped(cfg, tokens), First(tokens), chunks);
  }

  // What a failed injection writes lies above the mark, whatever was there before.
  lemma WritesAboveMark(e: EngineState, confirmed: Cache, cells: Cells, lo: nat, hi: nat)
    requires Tidy(e, confirmed) && (lo < hi && e.cache != map[] ==> lo == MaxPos(e.cache) + 1)
    ensures SeqRm(e.cache + Span(cells, lo, hi), e.confirmedMax + 1) == confirmed
  {
    if e.cache != map[] && e.confirmedMax >= 0 {
      assert e.confirmedMax in confirmed && e.confirmedMax in e.cache;
    }
    forall p: nat
      ensures p in Span(cells, lo, hi) ==> p > e.confirmedMax
    {
      SpanKeys(cells, lo, hi, p);
    }
  }

  lemma FailedPrefillTidies(cfg: Config, e: EngineState, confirmed: Cache, tokens: seq<Packet>, chunks: ChunkFates)
    requires cfg.ubatch > 0 && Tidy(e, confirmed) && Consecutive(tokens) && !Prefill(cfg, e, tokens, chunks).1.ok
    ensures Tidy(Prefill(cfg, e, tokens, chunks).0, confirmed)
  {
    hide MaxPos, Span, SeqRm, Inject, Shipped;
    var cells, lo := Shipped(cfg, tokens), First(tokens);
    ShippedShips(cfg, tokens);
    var kept := InjectOutcome(cfg, e.cache, tokens, cells, lo, chunks, 0);
    WritesAboveMark(e, confirmed, cells, lo, lo + kept);
  }

  lemma EmptyPrefillTidies(cfg: Config, e: EngineState, confirmed: Cache, chunks: ChunkFates)
    requires cfg.ubatch > 0 && Tidy(e, confirmed)
    ensures Prefill(cfg, e, [], chunks).0 == e && confirmed + CellsOf(cfg, []) == confirmed
  {
    hide Span;
    EmptySpan(confirmed, Shipped(cfg, []), 0);
  }

  // prefill() does not drop leftovers first. It keeps the invariant exactly when it
  // brings nothing, or fails, or found no leftovers: a failed prefill may be retried,
  // and whatever it left is dropped by the next draft.
  lemma PrefillTidiesExactly(cfg: Config, e: EngineState, confirmed: Cache, tokens: seq<Packet>, chunks: ChunkFates)
    requires cfg.ubatch > 0 && Tidy(e, confirmed) && Consecutive(tokens)
    ensures Tidy(Prefill(cfg, e, tokens, chunks).0, Confirm(cfg, e, confirmed, PrefillCall(tokens, chunks)))
       <==> tokens == [] || !Prefill(cfg, e, tokens, chunks).1.ok || NoTransient(e)
  {
    hide Tidy, Prefill, CellsOf, NoTransient;
    if tokens == [] {
      EmptyPrefillTidies(cfg, e, confirmed, chunks);
    } else if !Prefill(cfg, e, tokens, chunks).1.ok {
      FailedPrefillTidies(cfg, e, confirmed, tokens, chunks);
    } else if NoTransient(e) {
      PrefillTidies(cfg, e, confirmed, tokens, chunks);
    } else {
      PrefillOverLeftovers(cfg, e, confirmed, tokens, chunks);
    }
  }

  lemma CallTidies(cfg: Config, next: Drafter, e: EngineState, confirmed: Cache, call: Call)
    requires cfg.ubatch > 0 && Tidy(e, confirmed) && Orderly(cfg, e, call)
    ensures Tidy(Apply(cfg, next, e, call), Confirm(cfg, e, confirmed, call))
  {
    hide MaxPos, Span, Inject, Draft, Prefill, TakeAccepted, Tidy;
    match call
    case PrefillCall(tokens, chunks) =>
      PrefillTidiesExactly(cfg, e, confirmed, tokens, chunks);
    case DraftCall(req, fate) =>
      DraftTidies(cfg, next, e, confirmed, req, fate);
    case ResetCall =>
      FreshIsTidy();
  }

  // In every reachable state the cache is the confirmed cells plus cells strictly
  // above the mark, and the first stage of a draft restores exactly the confirmed
  // ones, however injections and noise decodes failed before.
  lemma {:induction false} CleanupInvariant(cfg: Config, next: Drafter, e: EngineState, confirmed: Cache,
                                            calls: seq<Call>)
    requires cfg.ubatch > 0 && Tidy(e, confirmed) && AllOrderly(cfg, next, e, calls)
    ensures var e', confirmed' := EngineAfter(cfg, next, e, calls), ConfirmedAfter(cfg, next, e, confirmed, calls);
            && Tidy(e', confirmed')
            && DropTransient(e').cache == confirmed'
            && (forall p :: p in e'.cache && p !in confirmed' ==> p > e'.confirmedMax)
    decreases |calls|
  {
    if calls != [] {
      CallTidies(cfg, next, e, confirmed, calls[0]);
      CleanupInvariant(cfg, next, Apply(cfg, next, e, calls[0]), Confirm(cfg, e, confirmed, calls[0]), calls[1..]);
    } else {
      forall p | p in e.cache && p !in confirmed
        ensures p > e.confirmedMax
      {
        assert p <= e.confirmedMax ==> p in SeqRm(e.cache, e.confirmedMax + 1);
      }
    }
  }

  lemma FreshIsTidy()
    ensures Tidy(FRESH, map[])
  {
    assert SeqRm(map[], 0) == map[];
  }

  lemma HighestIsAbove(e: EngineState, confirmed: Cache)
    requires Tidy(e, confirmed) && !NoTransient(e)
    ensures MaxPos(e.cache) >= 0 && MaxPos(e.cache) > e.confirmedMax
  {
    assert MaxPos(e.cache) <= e.confirmedMax ==> SeqRm(e.cache, e.confirmedMax + 1) == e.cache;
  }

  lemma LeftoverStays(cache: Cache, confirmed: Cache, cells: Cells, lo: nat, hi: nat)
    requires cache != map[] && MaxPos(cache) !in confirmed && MaxPos(cache) < lo < hi
    ensures SeqRm(cache + Span(cells, lo, hi), hi) != confirmed + Span(cells, lo, hi)
  {
    hide Span;
    var top := MaxPos(cache);
    SpanKeys(cells, lo, hi, top);
    assert top in SeqRm(cache + Span(cells, lo, hi), hi);
  }

  lemma PrefillOverLeftovers(cfg: Config, e: EngineState, confirmed: Cache, tokens: seq<Packet>, chunks: ChunkFates)
    requires cfg.ubatch > 0 && Tidy(e, confirmed) && Consecutive(tokens) && tokens != []
    requires Prefill(cfg, e, tokens, chunks).1.ok && !NoTransient(e)
    ensures !Tidy(Prefill(cfg, e, tokens, chunks).0, confirmed + CellsOf(cfg, tokens))
  {
    hide MaxPos, Span, Inject, SeqRm, Shipped;
    var cells, lo, hi := Shipped(cfg, tokens), First(tokens), First(tokens) + |tokens|;
    ShippedShips(cfg, tokens);
    var kept := InjectOutcome(cfg, e.cache, tokens, cells, lo, chunks, 0);
    HighestIsAbove(e, confirmed);
    LeftoverStays(e.cache, confirmed, cells, lo, hi);
  }

  lemma ShippedShips(cfg: Config, tokens: seq<Packet>)
    requires Consecutive(tokens)
    ensures Ships(cfg, tokens, Shipped(cfg, tokens), First(tokens))
  {
    hide RowOf;
    var cells, lo := Shipped(cfg, tokens), First(tokens);
    forall i | 0 <= i < |tokens|
      ensures tokens[i].position == lo + i && Tap(RowOf(cfg, tokens[i])) == cells(lo + i)
    {
    }
  }

  // The failing family is real: a draft on a fresh engine, then a prefill right after
  // its noise block, leaves a noise cell below the confirmed mark.
  lemma PrefillAfterDraftConfirmsNoise(next: Drafter)
    ensures var cfg := Config(1, 1, 1, 1, 9);
            var e := Draft(cfg, next, FRESH, DraftRequest(1, 0, 1, 7, []), Fate(_ => Encoded(Decodes), Decodes)).0;
            var d := Prefill(cfg, e, [Packet(5, 1, [0, 0])], _ => Encoded(Decodes));
            d.1.ok && 0 <= d.0.confirmedMax && 0 in d.0.cache && d.0.cache[0] == Noise(7)
  {
    hide Inject, Shipped;
    var cfg := Config(1, 1, 1, 1, 9);
    var fates: ChunkFates := _ => Encoded(Decodes);
    var e := Draft(cfg, next, FRESH, DraftRequest(1, 0, 1, 7, []), Fate(fates, Decodes)).0;
    NoiseOnFresh(cfg, next, fates);
    var tokens := [Packet(5, 1, [0, 0])];
    var cells := Shipped(cfg, tokens);
    ShippedShips(cfg, tokens);
    FaultlessInjection(cfg, e.cache, tokens, cells, 1, fates, 0);
    var kept := InjectOutcome(cfg, e.cache, tokens, cells, 1, fates, 0);
    SpanKeys(cells, 1, 2, 0);
  }

  lemma NoiseOnFresh(cfg: Config, next: Drafter, fates: ChunkFates)
    requires cfg == Config(1, 1, 1, 1, 9)
    ensures var e := Draft(cfg, next, FRESH, DraftRequest(1, 0, 1, 7, []), Fate(fates, Decodes)).0;
            e.cache == map[0 := Noise(7)] && MaxPos(e.cache) == 0
  {
    assert SeqRm(FRESH.cache, 0) == map[];
    assert Write(map[], NoiseBlock(cfg, 0, 7, 1)) == map[0 := Noise(7)];
    MaxIs(map[0 := Noise(7)], 0);
  }
}
