// The server's side of a remote draft: it captures a packet of target features for
// every position the target decodes, and ships only the committed, unsent ones.
module RemoteSender {
  import opened Bf16
  import opened Layout
  import opened Wire

  type Features = map<nat, Packet>

  datatype Stats = Stats(
    connected: bool,
    draftBlocks: nat,
    draftTokens: nat,
    acceptedTokens: nat,
    fallbackSteps: nat,
    grpcCalls: nat)

  datatype SenderState = SenderState(
    feats: Features,
    prefilled: bool,
    nSent: int,
    prevNPast: int,
    stepId: nat,
    stats: Stats)

  // What draft() puts on the wire and what it hands to the target.
  datatype Shipment = Shipment(prefill: Option<seq<Packet>>, request: Option<DraftRequest>, proposed: seq<int>)

  const NOTHING := Shipment(None, None, [])

  datatype SenderConfig = SenderConfig(nMax: int, blockSize: int)

  datatype DraftParams = DraftParams(drafting: bool, nPast: nat, idLast: int)

  // One decoded batch: its tokens, unless it came as embeddings, and their positions.
  datatype Batch = Batch(tokens: Option<seq<int>>, positions: seq<nat>, embeddings: bool)

  // ----- process() -----

  // The packets of the first n tokens, stored in order: a position decoded again
  // overwrites its stale packet.
  function Store(feats: Features, tokens: seq<int>, positions: seq<nat>, rows: seq<seq<Bits>>, n: nat): Features
    requires n <= |tokens| && n <= |positions| && n <= |rows|
  {
    if n == 0 then feats
    else
      var p := positions[n - 1];
      Store(feats, tokens, positions, rows, n - 1)[p := Packet(tokens[n - 1], p, Pack(rows[n - 1]))]
  }

  // ----- begin() -----

  function Begin(s: SenderState, promptLength: nat): SenderState {
    s.(prefilled := false, nSent := -1, prevNPast := -1, stepId := 0,
       feats := map p | p in s.feats && p < promptLength :: s.feats[p])
  }

  // ----- draft() -----

  // The packets of positions lo .. hi, or None when one is missing.
  function Gather(feats: Features, lo: nat, hi: int): (r: Option<seq<Packet>>)
    decreases hi - lo + 1
  {
    if lo > hi then Some([])
    else match Gather(feats, lo, hi - 1)
      case None => None
      case Some(init) => if hi in feats then Some(init + [feats[hi]]) else None
  }

  // Tokens committed since the previous draft, less the freshly sampled one.
  function CountAccepted(s: SenderState, nPast: nat): SenderState {
    var accepted := if s.prevNPast >= 0 then nPast - s.prevNPast - 1 else 0;
    s.(prevNPast := nPast,
       stats := if accepted > 0 then s.stats.(acceptedTokens := s.stats.acceptedTokens + accepted) else s.stats)
  }

  function Settle(s: SenderState, reply: DraftReply): SenderState {
    var st := s.stats.(grpcCalls := s.stats.grpcCalls + 1, connected := reply.ok);
    s.(stats :=
      if reply.ok then st.(draftBlocks := st.draftBlocks + 1, draftTokens := st.draftTokens + |reply.tokens|)
      else st.(fallbackSteps := st.fallbackSteps + 1))
  }

  function SendRequest(cfg: SenderConfig, s: SenderState, prefill: Option<seq<Packet>>, nPast: nat, idLast: int,
                       reply: DraftReply)
    : (r: (SenderState, Shipment))
    requires s.nSent >= -1
  {
    var s1 := s.(stepId := s.stepId + 1);
    match Gather(s.feats, s.nSent + 1, nPast - 1)
    case None => (s1, Shipment(prefill, None, []))
    case Some(accepted) =>
      var maxDraft := if cfg.nMax <= cfg.blockSize then cfg.nMax else cfg.blockSize;
      var request := DraftRequest(s1.stepId, if s.nSent < 0 then 0 else s.nSent, maxDraft, idLast, accepted);
      (Settle(s1.(nSent := nPast - 1), reply),
       Shipment(prefill, Some(request), if reply.ok then reply.tokens else []))
  }

  // The reply is whatever the network brings back for the request.
  function DraftStep(cfg: SenderConfig, s: SenderState, nPast: nat, idLast: int, reply: DraftReply)
    : (r: (SenderState, Shipment))
    requires s.nSent >= -1
  {
    var s1 := CountAccepted(s, nPast);
    if s.prefilled then SendRequest(cfg, s1, None, nPast, idLast, reply)
    else match Gather(s.feats, 0, nPast - 1)
      case None => (s1, NOTHING)
      case Some(prompt) =>
        SendRequest(cfg, s1.(prefilled := true, nSent := nPast - 1), Some(prompt), nPast, idLast, reply)
  }

  // The first sequence that wants a draft.
  function FirstDrafting(dparams: seq<DraftParams>): Option<DraftParams> {
    if dparams == [] then None
    else if dparams[0].drafting then Some(dparams[0])
    else FirstDrafting(dparams[1..])
  }

  function Draft(cfg: SenderConfig, s: SenderState, dparams: seq<DraftParams>, reply: DraftReply)
    : (r: (SenderState, Shipment))
    requires s.nSent >= -1
  {
    match FirstDrafting(dparams)
    case None => (s, NOTHING)
    case Some(dp) => DraftStep(cfg, s, dp.nPast, dp.idLast, reply)
  }

  class Sender {
    const cfg: SenderConfig
    const hidden: nat
    // false when the handshake failed and the drafter was dropped
    const connectedOnce: bool
    var feats: Features
    var prefilled: bool
    var nSent: int
    var prevNPast: int
    var stepId: nat
    var stats: Stats

    ghost predicate Valid()
      reads this
    {
      nSent >= -1
    }

    ghost function State(): SenderState
      reads this
    {
      SenderState(feats, prefilled, nSent, prevNPast, stepId, stats)
    }

    constructor (cfg: SenderConfig, hidden: nat, handshake: bool)
      ensures Valid() && this.cfg == cfg && this.hidden == hidden && this.connectedOnce == handshake
      ensures State() == SenderState(map[], false, -1, -1, 0, Stats(handshake, 0, 0, 0, 0, 0))
    {
      this.cfg, this.hidden, this.connectedOnce := cfg, hidden, handshake;
      feats, prefilled, nSent, prevNPast, stepId := map[], false, -1, -1, 0;
      stats := Stats(handshake, 0, 0, 0, 0, 0);
    }

    method BeginGeneration(prompt: seq<int>)
      modifies this
      ensures Valid() && State() == Begin(old(State()), |prompt|)
    {
      prefilled := false;
      nSent := -1;
      prevNPast := -1;
      stepId := 0;
      var kept: Features := map[];
      var todo := feats.Keys;
      while todo != {}
        invariant todo <= feats.Keys
        invariant kept == map p | p in feats && p !in todo && p < |prompt| :: feats[p]
        decreases todo
      {
        var p :| p in todo;
        if p < |prompt| {
          kept := kept[p := feats[p]];
        }
        todo := todo - {p};
      }
      feats := kept;
    }

    // layers[k] is the captured input of tap layer k, None when it was not extracted.
    method Process(batch: Batch, layers: seq<Option<seq<Bits>>>) returns (ok: bool)
      requires batch.tokens.Some? ==> |batch.tokens.value| == |batch.positions|
      requires forall k :: 0 <= k < |layers| && layers[k].Some? ==> |batch.positions| * hidden <= |layers[k].value|
      modifies this`feats
      ensures var skipped := !connectedOnce || batch.positions == [] || batch.tokens.None? || batch.embeddings;
              var captured := forall k :: 0 <= k < |layers| ==> layers[k].Some?;
              && ok == (skipped || captured)
              && (skipped || !captured ==> feats == old(feats))
              && (!skipped && captured ==>
                  var flat := seq(|layers|, k requires 0 <= k < |layers| => layers[k].value);
                  var n := |batch.positions|;
                  Holds(flat, n, hidden) &&
                  feats == Store(old(feats), batch.tokens.value, batch.positions,
                                 seq(n, i requires 0 <= i < n => TokenRow(flat, n, i, hidden)), n))
    {
      var n := |batch.positions|;
      if !connectedOnce || n == 0 || batch.tokens.None? || batch.embeddings {
        return true;
      }
      var flat: seq<seq<Bits>> := [];
      for k := 0 to |layers|
        invariant |flat| == k
        invariant forall j :: 0 <= j < k ==> layers[j].Some? && flat[j] == layers[j].value
      {
        if layers[k].None? {
          return false;
        }
        flat := flat + [layers[k].value];
      }
      assert flat == seq(|layers|, k requires 0 <= k < |layers| => layers[k].value);
      StoreAll(batch.tokens.value, batch.positions, flat);
      return true;
    }

    method StoreAll(tokens: seq<int>, positions: seq<nat>, layers: seq<seq<Bits>>)
      requires |tokens| == |positions| && Holds(layers, |positions|, hidden)
      modifies this`feats
      ensures var n := |positions|;
              var rows := seq(n, i requires 0 <= i < n => TokenRow(layers, n, i, hidden));
              feats == Store(old(feats), tokens, positions, rows, n)
    {
      var n := |positions|;
      ghost var rows := seq(n, i requires 0 <= i < n => TokenRow(layers, n, i, hidden));
      var buf := ConcatLayers(layers, n, hidden);
      hide TokenRow, Row, RowFits, Holds, Store;
      StoreRows(tokens, positions, buf, |layers|, rows);
    }

    // The second loop nest: one packet a token, its row truncated to bf16.
    method StoreRows(tokens: seq<int>, positions: seq<nat>, buf: array<Bits>, L: nat, ghost rows: seq<seq<Bits>>)
      requires |tokens| == |positions| == |rows|
      requires forall i: nat :: i < |rows| ==>
                 RowFits(buf.Length, L, hidden, i) && Row(buf[..], L, hidden, i) == rows[i]
      modifies this`feats
      ensures feats == Store(old(feats), tokens, positions, rows, |positions|)
    {
      hide Row, RowFits, Pack;
      for i := 0 to |positions|
        invariant feats == Store(old(feats), tokens, positions, rows, i)
      {
        var packed := PackRow(Row(buf[..], L, hidden, i));
        feats := feats[positions[i] := Packet(tokens[i], positions[i], packed)];
      }
    }

    method GatherRange(lo: nat, hi: int) returns (out: Option<seq<Packet>>)
      ensures out == Gather(feats, lo, hi)
    {
      var packets: seq<Packet> := [];
      var pos: int := lo;
      while pos <= hi
        invariant lo <= pos && (pos <= hi + 1 || pos == lo)
        invariant Gather(feats, lo, pos - 1) == Some(packets)
        decreases hi - pos
      {
        if pos !in feats {
          GatherStops(feats, lo, pos, hi);
          return None;
        }
        packets := packets + [feats[pos]];
        pos := pos + 1;
      }
      return Some(packets);
    }

    method DraftOnce(dparams: seq<DraftParams>, reply: DraftReply) returns (shipment: Shipment)
      requires Valid()
      modifies this
      ensures Valid()
      ensures !connectedOnce ==> State() == old(State()) && shipment == NOTHING
      ensures connectedOnce ==> (State(), shipment) == Draft(cfg, old(State()), dparams, reply)
    {
      if !connectedOnce {
        return NOTHING;
      }
      hide Gather, FirstDrafting, SendRequest, CountAccepted;
      var dp := SelectDrafting(dparams);
      if dp.None? {
        return NOTHING;
      }
      var nPast: int := dp.value.nPast;
      Account(nPast);
      var prefill := None;
      if !prefilled {
        prefill := GatherRange(0, nPast - 1);
        if prefill.None? {
          return NOTHING;
        }
        prefilled := true;
        nSent := nPast - 1;
      }

      shipment := Send(prefill, nPast, dp.value.idLast, reply);
    }

    method Send(prefill: Option<seq<Packet>>, nPast: nat, idLast: int, reply: DraftReply) returns (shipment: Shipment)
      requires Valid()
      modifies this
      ensures Valid()
      ensures (State(), shipment) == SendRequest(cfg, old(State()), prefill, nPast, idLast, reply)
    {
      hide Gather;
      stepId := stepId + 1;
      var position: nat := if nSent < 0 then 0 else nSent;
      var maxDraft := if cfg.nMax <= cfg.blockSize then cfg.nMax else cfg.blockSize;
      var accepted := GatherRange(nSent + 1, nPast - 1);
      if accepted.None? {
        return Shipment(prefill, None, []);
      }
      var request := DraftRequest(stepId, position, maxDraft, idLast, accepted.value);
      nSent := nPast - 1;
      stats := stats.(grpcCalls := stats.grpcCalls + 1);
      if !reply.ok {
        stats := stats.(fallbackSteps := stats.fallbackSteps + 1, connected := false);
        return Shipment(prefill, Some(request), []);
      }
      stats := stats.(connected := true);
      stats := stats.(draftBlocks := stats.draftBlocks + 1);
      stats := stats.(draftTokens := stats.draftTokens + |reply.tokens|);
      return Shipment(prefill, Some(request), reply.tokens);
    }

    method Account(nPast: nat)
      modifies this`prevNPast, this`stats
      ensures State() == CountAccepted(old(State()), nPast)
    {
      if prevNPast >= 0 {
        var accepted := nPast - prevNPast - 1;
        if accepted > 0 {
          stats := stats.(acceptedTokens := stats.acceptedTokens + accepted);
        }
      }
      prevNPast := nPast;
    }

    method SelectDrafting(dparams: seq<DraftParams>) returns (dp: Option<DraftParams>)
      ensures dp == FirstDrafting(dparams)
    {
      var seqId := 0;
      while seqId < |dparams|
        invariant 0 <= seqId <= |dparams|
        invariant FirstDrafting(dparams) == FirstDrafting(dparams[seqId..])
      {
        if dparams[seqId].drafting {
          return Some(dparams[seqId]);
        }
        seqId := seqId + 1;
      }
      return None;
    }
  }

  lemma {:induction false} GatherStops(feats: Features, lo: nat, gap: int, hi: int)
    requires lo <= gap <= hi && gap !in feats
    ensures Gather(feats, lo, hi).None?
    decreases hi - gap
  {
    if gap == hi {
    } else {
      GatherStops(feats, lo, gap, hi - 1);
    }
  }

  ghost predicate AllPresent(feats: Features, lo: int, hi: int) {
    forall p: nat :: lo <= p <= hi ==> p in feats
  }

  lemma {:induction false} GatherExactly(feats: Features, lo: nat, hi: int)
    ensures Gather(feats, lo, hi).Some? <==> AllPresent(feats, lo, hi)
    decreases hi - lo + 1
  {
    if lo > hi {
    } else {
      GatherExactly(feats, lo, hi - 1);
    }
  }

  // A request goes out exactly when every position it or its prefill needs is there.
  // Otherwise nothing is shipped or proposed, and the features are tried again at the
  // next draft; the step id is used up once the prefill has gone.
  lemma ShipsExactlyWhenPresent(cfg: SenderConfig, s: SenderState, nPast: nat, idLast: int, reply: DraftReply)
    requires s.nSent >= -1
    ensures var (s', shipment) := DraftStep(cfg, s, nPast, idLast, reply);
            && (shipment.request.Some? <==>
                  AllPresent(s.feats, if s.prefilled then s.nSent + 1 else 0, nPast - 1))
            && s'.feats == s.feats
            && s'.stepId - s.stepId == (if s.prefilled || shipment.request.Some? then 1 else 0)
            && (shipment.request.None? ==>
                  shipment == NOTHING && s'.nSent == s.nSent && s'.prefilled == s.prefilled)
            && (shipment.request.Some? ==>
                  && shipment.request.value.stepId == s'.stepId
                  && s'.nSent == nPast - 1 && s'.prefilled
                  && (shipment.prefill.Some? <==> !s.prefilled)
                  && shipment.proposed == (if reply.ok then reply.tokens else []))
  {
    hide Gather, AllPresent;
    GatherExactly(s.feats, if s.prefilled then s.nSent + 1 else 0, nPast - 1);
    GatherNone(s.feats, nPast, nPast - 1);
  }

  lemma GatherNone(feats: Features, lo: nat, hi: int)
    requires lo > hi
    ensures Gather(feats, lo, hi) == Some([])
  {
  }

  lemma GatherGrows(feats: Features, lo: nat, hi: nat)
    requires lo <= hi
    ensures Gather(feats, lo, hi).Some? <==> Gather(feats, lo, hi - 1).Some? && hi in feats
    ensures Gather(feats, lo, hi).Some? ==>
              Gather(feats, lo, hi).value == Gather(feats, lo, hi - 1).value + [feats[hi]]
  {
  }

  // draft() serves the first sequence that wants a draft, and only that one.
  lemma {:induction false} DraftServesFirst(cfg: SenderConfig, s: SenderState, dparams: seq<DraftParams>, i: nat,
                                            reply: DraftReply)
    requires s.nSent >= -1 && i <= |dparams| && forall j :: 0 <= j < i ==> !dparams[j].drafting
    requires i < |dparams| ==> dparams[i].drafting
    ensures Draft(cfg, s, dparams, reply)
         == if i == |dparams| then (s, NOTHING) else DraftStep(cfg, s, dparams[i].nPast, dparams[i].idLast, reply)
  {
    hide DraftStep;
    if i > 0 {
      DraftServesFirst(cfg, s, dparams[1..], i - 1, reply);
    }
  }
}
