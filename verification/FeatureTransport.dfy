// From the target's layer buffers to the edge's encoder buffer and cache.
module FeatureTransport {
  import opened Bf16
  import opened Layout
  import opened Wire
  import opened DraftEngine
  import Server = RemoteSender

  // What process() stores for token i of a batch.
  ghost function Captured(layers: seq<seq<Bits>>, n: nat, i: nat, H: nat, token: int, position: nat): Packet
    requires Holds(layers, n, H) && i < n
  {
    Packet(token, position, Pack(TokenRow(layers, n, i, H)))
  }

  lemma RowAfterWire(cfg: Config, layers: seq<seq<Bits>>, n: nat, i: nat, token: int, position: nat)
    requires |layers| == cfg.layers && Holds(layers, n, cfg.hidden) && i < n && (cfg.layers > 0 ==> cfg.hidden > 0)
    ensures Unpackable(cfg, Captured(layers, n, i, cfg.hidden, token, position))
    ensures RowOf(cfg, Captured(layers, n, i, cfg.hidden, token, position))
         == QuantizeRow(TokenRow(layers, n, i, cfg.hidden))
  {
    hide Pack, Unpack, TokenRow, Holds;
    UnpackPack(TokenRow(layers, n, i, cfg.hidden));
    if cfg.layers == 0 {
      assert |TokenRow(layers, n, i, cfg.hidden)| == 0;
    }
  }

  // Exact end to end, for all layer counts, hidden sizes and token counts: in an
  // encoder buffer whose row r was unpacked from the packet of token i, element j of
  // layer k is the bf16 truncation of element j of row i of that layer's capture.
  lemma TransportIsExact(
    cfg: Config, layers: seq<seq<Bits>>, n: nat, i: nat, token: int, position: nat,
    buf: seq<Bits>, r: nat, k: nat, j: nat)
    requires |layers| == cfg.layers && Holds(layers, n, cfg.hidden) && i < n && k < cfg.layers && j < cfg.hidden
    requires RowFits(|buf|, cfg.layers, cfg.hidden, r)
    requires Row(buf, cfg.layers, cfg.hidden, r) == RowOf(cfg, Captured(layers, n, i, cfg.hidden, token, position))
    ensures At(cfg.layers, cfg.hidden, r, k) + j < |buf| && 0 <= i * cfg.hidden + j < |layers[k]|
    ensures buf[At(cfg.layers, cfg.hidden, r, k) + j] == Quantize(layers[k][i * cfg.hidden + j])
  {
    var L, H := cfg.layers, cfg.hidden;
    hide RowOf, Captured, TokenRow, Holds;
    RowAfterWire(cfg, layers, n, i, token, position);
    TokenRowAt(layers, n, i, H, k, j);
    ElementOfRow(buf, L, H, r, k, j);
    assert Row(buf, L, H, r)[k * H + j] == QuantizeRow(TokenRow(layers, n, i, H))[k * H + j];
  }

  lemma ElementOfRow(buf: seq<Bits>, L: nat, H: nat, r: nat, k: nat, j: nat)
    requires RowFits(|buf|, L, H, r) && k < L && j < H
    ensures 0 <= k * H + j < L * H && At(L, H, r, k) + j < |buf|
    ensures buf[At(L, H, r, k) + j] == Row(buf, L, H, r)[k * H + j]
  {
    LayerInside(L, H, k);
    BlockFits(L, H, r, k);
    NextRow(r, L * H);
  }

  lemma {:induction false} WriteJoins(cache: Cache, a: seq<Entry>, b: seq<Entry>)
    ensures Write(Write(cache, a), b) == Write(cache, a + b)
    decreases |a|
  {
    if a == [] {
      assert a + b == b;
    } else {
      WriteJoins(cache[a[0].position := a[0].cell], a[1..], b);
      assert (a + b)[1..] == a[1..] + b;
    }
  }

  // An injection that succeeds wrote each token once, in order, at its own position,
  // whatever the micro-batch size and whatever the tokens are.
  lemma {:induction false} InjectsOnceInOrder(cfg: Config, cache: Cache, tokens: seq<Packet>, fates: ChunkFates,
                                              chunk: nat)
    requires cfg.ubatch > 0 && Inject(cfg, cache, tokens, fates, chunk).1
    ensures Inject(cfg, cache, tokens, fates, chunk).0 == Write(cache, Entries(cfg, tokens))
    decreases |tokens|
  {
    hide RowOf, Write, MaxPos;
    if tokens == [] {
      WriteNothing(cache, Entries(cfg, tokens));
    } else {
      var n := Min(cfg.ubatch, |tokens|);
      var d := InjectChunk(cfg, cache, tokens[..n], fates(chunk));
      assert d.0 == Write(cache, Entries(cfg, tokens[..n]));
      InjectsOnceInOrder(cfg, d.0, tokens[n..], fates, chunk + 1);
      WriteJoins(cache, Entries(cfg, tokens[..n]), Entries(cfg, tokens[n..]));
      assert Entries(cfg, tokens[..n]) + Entries(cfg, tokens[n..]) == Entries(cfg, tokens);
    }
  }

  lemma WriteNothing(cache: Cache, batch: seq<Entry>)
    requires batch == []
    ensures Write(cache, batch) == cache
  {
  }

  // ----- one batch across, call by call -----

  function FlatLayers(layers: seq<Option<seq<Bits>>>): seq<seq<Bits>>
    requires forall k :: 0 <= k < |layers| ==> layers[k].Some?
  {
    seq(|layers|, k requires 0 <= k < |layers| => layers[k].value)
  }

  lemma {:induction false} StoredAt(feats: Server.Features, tokens: seq<int>, positions: seq<nat>, rows: seq<seq<Bits>>,
                                    lo: nat, n: nat, i: nat)
    requires i < n <= |tokens| == |positions| == |rows|
    requires forall j :: 0 <= j < |positions| ==> positions[j] == lo + j
    ensures var stored := Server.Store(feats, tokens, positions, rows, n);
            lo + i in stored && stored[lo + i] == Packet(tokens[i], lo + i, Pack(rows[i]))
  {
    hide Pack;
    if i == n - 1 {
    } else {
      StoredAt(feats, tokens, positions, rows, lo, n - 1, i);
    }
  }

  lemma {:induction false} GatheredAt(feats: Server.Features, lo: nat, m: nat)
    requires forall p: nat :: lo <= p < lo + m ==> p in feats
    ensures var packets := Server.Gather(feats, lo, lo + m - 1);
            packets.Some? && |packets.value| == m && forall i :: 0 <= i < m ==> packets.value[i] == feats[lo + i]
  {
    if m == 0 {
    } else {
      GatheredAt(feats, lo, m - 1);
    }
  }

  // process() captures a batch of consecutive positions, draft() gathers them, and the
  // chunk loop unpacks n of them from some offset on: row r of the encoder buffer holds
  // the truncated rows of batch token offset + r, for every micro-batch.
  method CarryAcross(
    sender: Server.Sender, engine: Engine, batch: Server.Batch, layers: seq<Option<seq<Bits>>>,
    lo: nat, offset: nat, n: nat)
    returns (buf: Option<array<Bits>>)
    requires sender.connectedOnce && !batch.embeddings && batch.tokens.Some? && batch.positions != []
    requires |batch.tokens.value| == |batch.positions| && offset + n <= |batch.positions|
    requires forall i :: 0 <= i < |batch.positions| ==> batch.positions[i] == lo + i
    requires forall k :: 0 <= k < |layers| ==> layers[k].Some? && |batch.positions| * sender.hidden <= |layers[k].value|
    requires |layers| == engine.cfg.layers && sender.hidden == engine.cfg.hidden > 0
    modifies sender`feats
    ensures buf.Some? && fresh(buf.value)
    ensures forall r: nat, k: nat, j: nat :: r < n && k < engine.cfg.layers && j < engine.cfg.hidden ==>
              CarriedAt(engine.cfg, FlatLayers(layers), buf.value[..], offset, r, k, j)
  {
    hide Server.Store, Server.Gather, RowOf, TokenRow, RowFits, Row;
    ghost var flat, N, H := FlatLayers(layers), |batch.positions|, engine.cfg.hidden;
    ghost var before := sender.feats;
    var ok := sender.Process(batch, layers);
    ghost var rows := seq(N, i requires 0 <= i < N => TokenRow(flat, N, i, H));
    forall p: nat | lo <= p < lo + N
      ensures p in sender.feats && sender.feats[p] == Captured(flat, N, p - lo, H, batch.tokens.value[p - lo], p)
    {
      StoredAt(before, batch.tokens.value, batch.positions, rows, lo, N, p - lo);
    }
    GatheredAt(sender.feats, lo, N);
    var packets := sender.GatherRange(lo, lo + |batch.positions| - 1);
    var chunk := packets.value[offset..offset + n];
    forall r: nat | r < n
      ensures chunk[r] == Captured(flat, N, offset + r, H, batch.tokens.value[offset + r], lo + offset + r)
      ensures Unpackable(engine.cfg, chunk[r])
    {
      RowAfterWire(engine.cfg, flat, N, offset + r, batch.tokens.value[offset + r], lo + offset + r);
    }
    buf := engine.PackChunk(chunk);
    forall r: nat, k: nat, j: nat | r < n && k < engine.cfg.layers && j < H
      ensures CarriedAt(engine.cfg, flat, buf.value[..], offset, r, k, j)
    {
      TransportIsExact(engine.cfg, flat, N, offset + r, batch.tokens.value[offset + r], lo + offset + r, buf.value[..],
                       r, k, j);
    }
  }

  // Element j of layer k in buffer row r is that of batch token offset + r, truncated.
  ghost predicate CarriedAt(cfg: Config, flat: seq<seq<Bits>>, buf: seq<Bits>, offset: nat, r: nat, k: nat, j: nat) {
    var from, to := (offset + r) * cfg.hidden + j, At(cfg.layers, cfg.hidden, r, k) + j;
    k < |flat| && 0 <= from < |flat[k]| && to < |buf| && buf[to] == Quantize(flat[k][from])
  }
}
