// The edge engine: a draft KV cache with a confirmed high-water mark. Every call
// into llama takes its outcome from a fate that the caller of the model chooses
// freely, so a theorem over all fates covers every way those calls can fail.
module DraftEngine {
  import opened Bf16
  import opened Layout
  import opened Wire

  // A cell holds what was decoded into it: a confirmed token's tap row, or a token
  // of the speculative noise block.
  datatype Cell = Tap(row: seq<Bits>) | Noise(token: int)
  type Cache = map<nat, Cell>
  datatype Entry = Entry(position: nat, cell: Cell)

  datatype Config = Config(layers: nat, hidden: nat, ubatch: nat, blockSize: int, mask: int)

  // The draft model: the next token of the block, from the cache, the noise batch
  // and the tokens drafted so far; None when the confidence head or an empty
  // candidate list ends the block.
  type Drafter = (Cache, seq<Entry>, seq<int>) -> Option<int>

  datatype DecodeFate = Decodes | Breaks(kept: nat)
  datatype ChunkFate = EncodeBreaks | Encoded(decode: DecodeFate)
  type ChunkFates = nat -> ChunkFate
  datatype Fate = Fate(chunks: ChunkFates, noise: DecodeFate)

  // ----- llama's cache -----

  lemma MaxExists(keys: set<nat>)
    requires keys != {}
    ensures exists m :: m in keys && forall k :: k in keys ==> k <= m
  {
    var x :| x in keys;
    var rest := keys - {x};
    if rest == {} {
      assert forall k :: k in keys ==> k in rest || k == x;
    } else {
      MaxExists(rest);
      var m :| m in rest && forall k :: k in rest ==> k <= m;
      var top := if x <= m then m else x;
      assert forall k :: k in keys ==> k in rest || k == x;
      assert top in keys && forall k :: k in keys ==> k <= top;
    }
  }

  // llama_memory_seq_pos_max
  function MaxPos(cache: Cache): (m: int)
    ensures m == -1 <==> cache == map[]
    ensures cache != map[] ==> m >= 0 && m in cache
    ensures forall p :: p in cache ==> p <= m
  {
    if |cache| == 0 then
      assert cache == map[];
      -1
    else
      MaxExists(cache.Keys);
      var m: nat :| m in cache.Keys && forall k :: k in cache.Keys ==> k <= m;
      m
  }

  // llama_memory_seq_rm(p0, -1)
  function SeqRm(cache: Cache, p0: int): Cache {
    map p | p in cache && p < p0 :: cache[p]
  }

  function Write(cache: Cache, batch: seq<Entry>): Cache
    decreases |batch|
  {
    if batch == [] then cache
    else Write(cache[batch[0].position := batch[0].cell], batch[1..])
  }

  // A non-empty cache accepts only the positions that continue it.
  predicate Continues(cache: Cache, batch: seq<Entry>) {
    cache == map[] || forall i :: 0 <= i < |batch| ==> batch[i].position == MaxPos(cache) + 1 + i
  }

  // llama_decode: refuses a batch that does not continue the cache, and otherwise
  // may still break after any number of cells.
  function Decode(cache: Cache, batch: seq<Entry>, fate: DecodeFate): (r: (Cache, bool)) {
    if !Continues(cache, batch) then (cache, false)
    else match fate
      case Decodes => (Write(cache, batch), true)
      case Breaks(kept) => (Write(cache, batch[..if kept <= |batch| then kept else |batch|]), false)
  }

  // ----- injection -----

  predicate Unpackable(cfg: Config, p: Packet) {
    cfg.layers == 0 || (cfg.hidden > 0 && |p.features| == 2 * (cfg.layers * cfg.hidden))
  }

  function RowOf(cfg: Config, p: Packet): (row: seq<Bits>) {
    if cfg.layers == 0 || !Unpackable(cfg, p) then [] else Unpack(p.features, cfg.layers * cfg.hidden)
  }

  function Entries(cfg: Config, tokens: seq<Packet>): (r: seq<Entry>)
    ensures |r| == |tokens|
  {
    seq(|tokens|, i requires 0 <= i < |tokens| => Entry(tokens[i].position, Tap(RowOf(cfg, tokens[i]))))
  }

  function Min(a: int, b: int): (m: int)
    ensures m <= a && m <= b && (m == a || m == b)
  {
    if a <= b then a else b
  }

  function InjectChunk(cfg: Config, cache: Cache, part: seq<Packet>, fate: ChunkFate): (r: (Cache, bool)) {
    if exists i :: 0 <= i < |part| && !Unpackable(cfg, part[i]) then (cache, false)
    else match fate
      case EncodeBreaks => (cache, false)
      case Encoded(decode) => Decode(cache, Entries(cfg, part), decode)
  }

  // Chunks of at most ubatch tokens, each encoded and decoded on its own; a chunk
  // that fails leaves the earlier ones in the cache.
  function Inject(cfg: Config, cache: Cache, tokens: seq<Packet>, fates: ChunkFates, chunk: nat): (r: (Cache, bool))
    requires cfg.ubatch > 0
    decreases |tokens|
  {
    if tokens == [] then (cache, true)
    else
      var n := Min(cfg.ubatch, |tokens|);
      var d := InjectChunk(cfg, cache, tokens[..n], fates(chunk));
      if d.1 then Inject(cfg, d.0, tokens[n..], fates, chunk + 1) else d
  }

  // ----- drafting -----

  function NoiseBlock(cfg: Config, start: nat, anchor: int, n: int): (r: seq<Entry>)
    ensures |r| == if n < 0 then 0 else n
    ensures forall i :: 0 <= i < |r| ==> r[i].position == start + i && r[i].cell.Noise?
  {
    seq(if n < 0 then 0 else n, i requires i >= 0 =>
      Entry(start + i, Noise(if i == 0 then anchor else cfg.mask)))
  }

  function Sample(next: Drafter, cache: Cache, batch: seq<Entry>, drafted: seq<int>, n: int): (r: seq<int>)
    ensures |r| <= if n < |drafted| then |drafted| else n
    decreases n - |drafted|
  {
    if |drafted| >= n then drafted
    else match next(cache, batch, drafted)
      case None => drafted
      case Some(id) => Sample(next, cache, batch, drafted + [id], n)
  }

  function RunDraft(cfg: Config, next: Drafter, cache: Cache, anchor: int, maxDraft: int, fate: DecodeFate, stepId: nat)
    : (r: (Cache, DraftReply))
  {
    var n := Min(maxDraft, cfg.blockSize);
    var batch := NoiseBlock(cfg, MaxPos(cache) + 1, anchor, n);
    var d := Decode(cache, batch, fate);
    if d.1 then (d.0, DraftReply(stepId, true, "", Sample(next, d.0, batch, [], n)))
    else (d.0, DraftReply(stepId, false, "noise decode failed", []))
  }

  // ----- the engine as a value -----

  datatype EngineState = EngineState(cache: Cache, confirmedMax: int, lastToken: int)

  const FRESH := EngineState(map[], -1, 0)

  // The confirmed mark and fallback anchor after a successful injection.
  function RaiseMark(e: EngineState, tokens: seq<Packet>): EngineState {
    if tokens == [] then e
    else e.(confirmedMax := tokens[|tokens| - 1].position, lastToken := tokens[|tokens| - 1].token)
  }

  function Prefill(cfg: Config, e: EngineState, tokens: seq<Packet>, fates: ChunkFates)
    : (r: (EngineState, PrefillReply))
    requires cfg.ubatch > 0
  {
    var d := Inject(cfg, e.cache, tokens, fates, 0);
    var e' := e.(cache := d.0);
    if !d.1 then (e', PrefillReply(false, 0))
    else (RaiseMark(e', tokens),
          PrefillReply(true, if tokens == [] then 0 else tokens[|tokens| - 1].position + 1))
  }

  // The three stages of draft().
  function DropTransient(e: EngineState): EngineState {
    e.(cache := SeqRm(e.cache, e.confirmedMax + 1))
  }

  function TakeAccepted(cfg: Config, e: EngineState, tokens: seq<Packet>, fates: ChunkFates): (r: (EngineState, bool))
    requires cfg.ubatch > 0
  {
    var d := Inject(cfg, e.cache, tokens, fates, 0);
    var e' := e.(cache := d.0);
    if d.1 then (RaiseMark(e', tokens), true) else (e', false)
  }

  function DraftBlock(cfg: Config, next: Drafter, e: EngineState, req: DraftRequest, fate: DecodeFate)
    : (r: (EngineState, DraftReply))
  {
    var anchor := if req.anchor != 0 then req.anchor else e.lastToken;
    var d := RunDraft(cfg, next, e.cache, anchor, req.maxDraft, fate, req.stepId);
    (e.(cache := d.0), d.1)
  }

  function Draft(cfg: Config, next: Drafter, e: EngineState, req: DraftRequest, fate: Fate)
    : (r: (EngineState, DraftReply))
    requires cfg.ubatch > 0
  {
    var t := TakeAccepted(cfg, DropTransient(e), req.accepted, fate.chunks);
    if t.1 then DraftBlock(cfg, next, t.0, req, fate.noise)
    else (t.0, DraftReply(req.stepId, false, "feature injection failed", []))
  }

  // The three calls that change an engine, with the fate of the llama calls they make.
  datatype Call =
    | PrefillCall(tokens: seq<Packet>, chunks: ChunkFates)
    | DraftCall(req: DraftRequest, fate: Fate)
    | ResetCall

  // ----- the engine as the daemon runs it -----

  class Engine {
    const cfg: Config
    const next: Drafter
    var cache: Cache
    var confirmedMax: int
    var lastToken: int

    ghost predicate Valid() {
      cfg.ubatch > 0
    }

    ghost function State(): EngineState
      reads this
    {
      EngineState(cache, confirmedMax, lastToken)
    }

    constructor (cfg: Config, next: Drafter)
      requires cfg.ubatch > 0
      ensures Valid() && this.cfg == cfg && this.next == next
      ensures State() == FRESH
    {
      this.cfg, this.next := cfg, next;
      cache, confirmedMax, lastToken := map[], -1, 0;
    }

    // unpack_features: empty on a size mismatch.
    method UnpackFeatures(p: Packet) returns (f32: seq<Bits>)
      ensures cfg.layers > 0 ==> (f32 == [] <==> !Unpackable(cfg, p))
      ensures f32 != [] ==> f32 == RowOf(cfg, p) && |f32| == cfg.layers * cfg.hidden
    {
      var n := cfg.layers * cfg.hidden;
      if |p.features| != 2 * n {
        return [];
      }
      var out := Bf16ToF32(p.features, n);
      return out[..];
    }

    ghost function ChunkRows(chunk: seq<Packet>): (rows: seq<seq<Bits>>)
      ensures |rows| == |chunk|
      ensures forall i :: 0 <= i < |rows| ==> |rows[i]| == cfg.layers * cfg.hidden
      ensures forall i :: 0 <= i < |rows| && Unpackable(cfg, chunk[i]) ==> rows[i] == RowOf(cfg, chunk[i])
    {
      seq(|chunk|, i requires 0 <= i < |chunk| =>
        if Unpackable(cfg, chunk[i]) then RowOf(cfg, chunk[i]) else seq(cfg.layers * cfg.hidden, _ => 0))
    }

    // Unpack one chunk into the encoder's buffer, layer by layer; None when some
    // packet has the wrong size.
    method PackChunk(chunk: seq<Packet>) returns (buf: Option<array<Bits>>)
      ensures buf.None? <==> exists i :: 0 <= i < |chunk| && !Unpackable(cfg, chunk[i])
      ensures buf.Some? ==> fresh(buf.value)
      ensures buf.Some? ==> forall i: nat :: i < |chunk| ==>
                RowFits(buf.value.Length, cfg.layers, cfg.hidden, i) &&
                Row(buf.value[..], cfg.layers, cfg.hidden, i) == RowOf(cfg, chunk[i])
    {
      var L, H, n := cfg.layers, cfg.hidden, |chunk|;
      var out := NewRows(n, L, H);
      ghost var rows := ChunkRows(chunk);
      hide FilledTo, RowFits, LayerOf, ChunkRows, RowOf, Row;
      FilledSteps(out[..], L, H, rows, 0);
      for k := 0 to L
        invariant k > 0 ==> forall i :: 0 <= i < n ==> Unpackable(cfg, chunk[i])
        invariant FilledTo(out[..], L, H, rows, k, 0)
      {
        for i := 0 to n
          invariant forall i' :: 0 <= i' < i ==> Unpackable(cfg, chunk[i'])
          invariant FilledTo(out[..], L, H, rows, k, i)
        {
          var f32 := UnpackFeatures(chunk[i]);
          if f32 == [] {
            return None;
          }
          FillNext(out, L, H, rows, k, i, LayerOf(f32, L, H, k));
        }
        FilledSteps(out[..], L, H, rows, k);
      }
      RowsFilled(out[..], L, H, rows);
      return Some(out);
    }

    // What llama_decode puts in the cache for a chunk: one cell a row of the buffer.
    method ChunkEntries(chunk: seq<Packet>, buf: array<Bits>) returns (batch: seq<Entry>)
      requires forall i: nat :: i < |chunk| ==> RowFits(buf.Length, cfg.layers, cfg.hidden, i)
      ensures |batch| == |chunk|
      ensures forall i: nat :: i < |chunk| ==>
                batch[i] == Entry(chunk[i].position, Tap(Row(buf[..], cfg.layers, cfg.hidden, i)))
    {
      batch := [];
      for i := 0 to |chunk|
        invariant |batch| == i
        invariant forall j: nat :: j < i ==>
                    batch[j] == Entry(chunk[j].position, Tap(Row(buf[..], cfg.layers, cfg.hidden, j)))
      {
        batch := batch + [Entry(chunk[i].position, Tap(Row(buf[..], cfg.layers, cfg.hidden, i)))];
      }
    }

    method InjectOneChunk(part: seq<Packet>, fate: ChunkFate) returns (ok: bool)
      modifies this`cache
      ensures (cache, ok) == InjectChunk(cfg, old(cache), part, fate)
    {
      var buf := PackChunk(part);
      if buf.None? {
        return false;
      }
      match fate {
        case EncodeBreaks =>
          return false;
        case Encoded(decode) =>
          var batch := ChunkEntries(part, buf.value);
          assert batch == Entries(cfg, part);
          var d := Decode(cache, batch, decode);
          cache := d.0;
          return d.1;
      }
    }

    method InjectFeatures(tokens: seq<Packet>, fates: ChunkFates) returns (ok: bool)
      requires Valid()
      modifies this`cache
      ensures (cache, ok) == Inject(cfg, old(cache), tokens, fates, 0)
    {
      hide InjectChunk;
      var offset, chunk := 0, 0;
      while offset < |tokens|
        invariant 0 <= offset <= |tokens|
        invariant Inject(cfg, old(cache), tokens, fates, 0) == Inject(cfg, cache, tokens[offset..], fates, chunk)
        decreases |tokens| - offset
      {
        ghost var rest := tokens[offset..];
        var n := Min(cfg.ubatch, |tokens| - offset);
        assert rest[..n] == tokens[offset..offset + n] && rest[n..] == tokens[offset + n..];
        ok := InjectOneChunk(tokens[offset..offset + n], fates(chunk));
        if !ok {
          return false;
        }
        offset, chunk := offset + n, chunk + 1;
      }
      assert tokens[offset..] == [];
      return true;
    }

    method PrefillFeatures(tokens: seq<Packet>, fates: ChunkFates) returns (reply: PrefillReply)
      requires Valid()
      modifies this
      ensures (State(), reply) == Prefill(cfg, old(State()), tokens, fates)
    {
      var ok := InjectFeatures(tokens, fates);
      if !ok {
        return PrefillReply(false, 0);
      }
      var positions := 0;
      if tokens != [] {
        var back := tokens[|tokens| - 1];
        positions := back.position + 1;
        lastToken := back.token;
        confirmedMax := back.position;
      }
      return PrefillReply(true, positions);
    }

    method Reset()
      modifies this
      ensures State() == FRESH
    {
      cache := map[];
      lastToken := 0;
      confirmedMax := -1;
    }

    method DraftFeatures(req: DraftRequest, fate: Fate) returns (reply: DraftReply)
      requires Valid()
      modifies this
      ensures (State(), reply) == Draft(cfg, next, old(State()), req, fate)
    {
      cache := SeqRm(cache, confirmedMax + 1);
      var ok := InjectFeatures(req.accepted, fate.chunks);
      if !ok {
        return DraftReply(req.stepId, false, "feature injection failed", []);
      }
      if req.accepted != [] {
        var back := req.accepted[|req.accepted| - 1];
        lastToken := back.token;
        confirmedMax := back.position;
      }
      var anchor := if req.anchor != 0 then req.anchor else lastToken;
      reply := RunDraftBlock(anchor, req.maxDraft, req.stepId, fate.noise);
    }

    method RunDraftBlock(anchor: int, maxDraft: int, stepId: nat, fate: DecodeFate) returns (reply: DraftReply)
      modifies this`cache
      ensures (cache, reply) == RunDraft(cfg, next, old(cache), anchor, maxDraft, fate, stepId)
    {
      var n := Min(maxDraft, cfg.blockSize);
      var posLast := MaxPos(cache);
      var batch: seq<Entry> := [];
      var i := 0;
      while i < n
        invariant i == |batch| && (i <= n || i == 0)
        invariant forall j :: 0 <= j < i ==> batch[j] == NoiseBlock(cfg, posLast + 1, anchor, n)[j]
      {
        batch := batch + [Entry(posLast + 1 + i, Noise(if i == 0 then anchor else cfg.mask))];
        i := i + 1;
      }
      assert batch == NoiseBlock(cfg, posLast + 1, anchor, n);
      var d := Decode(cache, batch, fate);
      cache := d.0;
      if !d.1 {
        return DraftReply(stepId, false, "noise decode failed", []);
      }
      var drafted: seq<int> := [];
      while |drafted| < n
        invariant Sample(next, cache, batch, [], n) == Sample(next, cache, batch, drafted, n)
        decreases n - |drafted|
      {
        match next(cache, batch, drafted) {
          case None =>
            break;
          case Some(id) =>
            drafted := drafted + [id];
        }
      }
      return DraftReply(stepId, true, "", drafted);
    }
  }
}
