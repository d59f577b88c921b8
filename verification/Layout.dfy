// Flat feature buffers. Token i of a batch owns a row of L * H floats, and tap
// layer k owns the H floats of that row that start at k * H.
module Layout {
  import opened Bf16

  // Where block (i, k) starts.
  function At(L: nat, H: nat, i: nat, k: nat): nat {
    i * (L * H) + k * H
  }

  lemma LayerInside(L: nat, H: nat, k: nat)
    requires k < L
    ensures k * H + H <= L * H
  {
    assert L * H == k * H + H + (L - k - 1) * H;
  }

  lemma NextRow(i: nat, W: nat)
    ensures 0 <= i * W && (i + 1) * W == i * W + W
  {
  }

  lemma BlockFits(L: nat, H: nat, i: nat, k: nat)
    requires k < L
    ensures 0 <= i * (L * H) && i * (L * H) + k * H + H <= (i + 1) * (L * H)
  {
    LayerInside(L, H, k);
    NextRow(i, L * H);
  }

  lemma RowInside(n: nat, i: nat, W: nat)
    requires i < n
    ensures (i + 1) * W <= n * W
  {
    assert n * W == (i + 1) * W + (n - i - 1) * W;
  }

  // Row i lies inside a buffer of the given length.
  predicate RowFits(length: nat, L: nat, H: nat, i: nat) {
    (i + 1) * (L * H) <= length
  }

  // The H floats that layer k of row i occupies.
  ghost function Block(buf: seq<Bits>, L: nat, H: nat, i: nat, k: nat): (b: seq<Bits>)
    requires k < L && RowFits(|buf|, L, H, i)
    ensures |b| == H
  {
    BlockFits(L, H, i, k);
    buf[At(L, H, i, k)..At(L, H, i, k) + H]
  }

  function Row(buf: seq<Bits>, L: nat, H: nat, i: nat): (r: seq<Bits>)
    requires RowFits(|buf|, L, H, i)
    ensures |r| == L * H
  {
    assert (i + 1) * (L * H) == i * (L * H) + L * H;
    buf[i * (L * H)..(i + 1) * (L * H)]
  }

  lemma LayerOrder(H: nat, k: nat, k': nat)
    requires k < k'
    ensures k * H + H <= k' * H
  {
    assert k' * H == k * H + H + (k' - k - 1) * H;
  }

  lemma EarlierRow(L: nat, H: nat, i: nat, k: nat, i': nat, k': nat)
    requires k < L && k' < L && i < i'
    ensures At(L, H, i, k) + H <= At(L, H, i', k')
  {
    BlockFits(L, H, i, k);
    RowInside(i', i, L * H);
    assert 0 <= k' * H;
  }

  lemma BlocksApart(L: nat, H: nat, i: nat, k: nat, i': nat, k': nat)
    requires k < L && k' < L && (i, k) != (i', k')
    ensures At(L, H, i, k) + H <= At(L, H, i', k') || At(L, H, i', k') + H <= At(L, H, i, k)
  {
    if i < i' {
      EarlierRow(L, H, i, k, i', k');
    } else if i' < i {
      EarlierRow(L, H, i', k', i, k);
    } else if k < k' {
      LayerOrder(H, k, k');
    } else {
      LayerOrder(H, k', k);
    }
  }

  // memcpy
  method CopyInto(buf: array<Bits>, at: nat, src: seq<Bits>)
    requires at + |src| <= buf.Length
    modifies buf
    ensures forall x :: 0 <= x < buf.Length ==>
              buf[x] == if at <= x < at + |src| then src[x - at] else old(buf[x])
  {
    forall j | 0 <= j < |src| {
      buf[at + j] := src[j];
    }
  }

  lemma SliceKept(before: seq<Bits>, after: seq<Bits>, lo: nat, hi: nat, lo': nat, hi': nat)
    requires |before| == |after| && lo' <= hi' <= |before| && (hi <= lo' || hi' <= lo)
    requires forall x :: 0 <= x < |after| && !(lo <= x < hi) ==> after[x] == before[x]
    ensures after[lo'..hi'] == before[lo'..hi']
  {
  }

  lemma BlockKept(before: seq<Bits>, after: seq<Bits>, L: nat, H: nat, at: nat, i': nat, k': nat)
    requires |before| == |after| && RowFits(|before|, L, H, i') && k' < L
    requires forall x :: 0 <= x < |after| && !(at <= x < at + H) ==> after[x] == before[x]
    requires at + H <= At(L, H, i', k') || At(L, H, i', k') + H <= at
    ensures Block(after, L, H, i', k') == Block(before, L, H, i', k')
  {
    BlockFits(L, H, i', k');
    SliceKept(before, after, at, at + H, At(L, H, i', k'), At(L, H, i', k') + H);
  }

  // One layer's floats go into one row; every other block keeps its floats.
  method PlaceBlock(buf: array<Bits>, L: nat, H: nat, i: nat, k: nat, src: seq<Bits>)
    requires k < L && |src| == H && RowFits(buf.Length, L, H, i)
    modifies buf
    ensures Block(buf[..], L, H, i, k) == src
    ensures forall i': nat, k': nat :: k' < L && RowFits(buf.Length, L, H, i') && (i', k') != (i, k) ==>
              Block(buf[..], L, H, i', k') == old(Block(buf[..], L, H, i', k'))
  {
    BlockFits(L, H, i, k);
    ghost var before := buf[..];
    CopyInto(buf, At(L, H, i, k), src);
    ghost var after := buf[..];
    forall i': nat, k': nat | k' < L && RowFits(buf.Length, L, H, i') && (i', k') != (i, k)
      ensures Block(after, L, H, i', k') == Block(before, L, H, i', k')
    {
      BlocksApart(L, H, i, k, i', k');
      BlockKept(before, after, L, H, At(L, H, i, k), i', k');
    }
  }

  // A row is its layers in order.
  lemma RowIsItsBlocks(buf: seq<Bits>, L: nat, H: nat, i: nat, row: seq<Bits>)
    requires |row| == L * H && RowFits(|buf|, L, H, i)
    requires forall k: nat :: k < L ==> Block(buf, L, H, i, k) == LayerOf(row, L, H, k)
    ensures Row(buf, L, H, i) == row
  {
    forall x | 0 <= x < L * H
      ensures Row(buf, L, H, i)[x] == row[x]
    {
      var k, j := Split(L, H, x);
      BlockFits(L, H, i, k);
      assert Block(buf, L, H, i, k)[j] == buf[i * (L * H) + k * H + j];
      assert LayerOf(row, L, H, k)[j] == row[k * H + j];
    }
  }

  // The part of a row that belongs to layer k.
  function LayerOf(row: seq<Bits>, L: nat, H: nat, k: nat): (b: seq<Bits>)
    requires |row| == L * H && k < L
    ensures |b| == H
  {
    BlockFits(L, H, 0, k);
    row[k * H..k * H + H]
  }

  lemma Split(L: nat, H: nat, x: nat) returns (k: nat, j: nat)
    requires x < L * H
    ensures k < L && j < H && x == k * H + j
  {
    k, j := 0, x;
    while j >= H
      invariant x == k * H + j
      decreases j
    {
      k, j := k + 1, j - H;
    }
    if k >= L {
      assert k * H == L * H + (k - L) * H;
    }
  }

  // ----- server side -----

  // One layer's captured inputs: a flat buffer of n rows of H floats.
  ghost predicate Holds(layers: seq<seq<Bits>>, n: nat, H: nat) {
    forall k :: 0 <= k < |layers| ==> n * H <= |layers[k]|
  }

  function LayerRow(layer: seq<Bits>, i: nat, H: nat): (r: seq<Bits>)
    requires (i + 1) * H <= |layer|
    ensures |r| == H
  {
    assert (i + 1) * H == i * H + H;
    layer[i * H..(i + 1) * H]
  }

  // What the wire layout promises for token i: its row of every tap layer, the
  // layers concatenated in handshake order.
  ghost function TokenRow(layers: seq<seq<Bits>>, n: nat, i: nat, H: nat): (r: seq<Bits>)
    requires Holds(layers, n, H) && i < n
    ensures |r| == |layers| * H
  {
    if |layers| == 0 then []
    else
      RowInside(n, i, H);
      var last := |layers| - 1;
      assert (last + 1) * H == last * H + H;
      TokenRow(layers[..last], n, i, H) + LayerRow(layers[last], i, H)
  }

  lemma SliceOfJoin(init: seq<Bits>, tail: seq<Bits>, lo: nat, hi: nat)
    requires lo <= hi
    ensures hi <= |init| ==> (init + tail)[lo..hi] == init[lo..hi]
    ensures lo == |init| && hi == |init| + |tail| ==> (init + tail)[lo..hi] == tail
  {
  }

  lemma {:induction false} TokenRowLayer(layers: seq<seq<Bits>>, n: nat, i: nat, H: nat, k: nat)
    requires Holds(layers, n, H) && i < n && k < |layers|
    ensures (i + 1) * H <= |layers[k]|
    ensures LayerOf(TokenRow(layers, n, i, H), |layers|, H, k) == LayerRow(layers[k], i, H)
  {
    RowInside(n, i, H);
    var last := |layers| - 1;
    var init := TokenRow(layers[..last], n, i, H);
    var tail := LayerRow(layers[last], i, H);
    BlockFits(|layers|, H, 0, k);
    SliceOfJoin(init, tail, k * H, k * H + H);
    if k < last {
      TokenRowLayer(layers[..last], n, i, H, k);
      BlockFits(last, H, 0, k);
    }
  }

  // Element j of layer k of the row of token i is that layer's captured float.
  lemma TokenRowAt(layers: seq<seq<Bits>>, n: nat, i: nat, H: nat, k: nat, j: nat)
    requires Holds(layers, n, H) && i < n && k < |layers| && j < H
    ensures 0 <= k * H + j < |layers| * H && 0 <= i * H + j < |layers[k]|
    ensures TokenRow(layers, n, i, H)[k * H + j] == layers[k][i * H + j]
  {
    TokenRowLayer(layers, n, i, H, k);
    BlockFits(|layers|, H, 0, k);
    assert (i + 1) * H == i * H + H;
    assert LayerOf(TokenRow(layers, n, i, H), |layers|, H, k)[j] == LayerRow(layers[k], i, H)[j];
  }

  // A buffer whose rows are given, up to block (i, k) in the order layer by layer.
  ghost predicate FilledTo(buf: seq<Bits>, L: nat, H: nat, rows: seq<seq<Bits>>, k: nat, i: nat)
    requires forall i :: 0 <= i < |rows| ==> |rows[i]| == L * H && RowFits(|buf|, L, H, i)
  {
    forall i': nat, k': nat :: i' < |rows| && k' < L && (k' < k || (k' == k && i' < i)) ==>
      Block(buf, L, H, i', k') == LayerOf(rows[i'], L, H, k')
  }

  lemma FilledSteps(buf: seq<Bits>, L: nat, H: nat, rows: seq<seq<Bits>>, k: nat)
    requires forall i :: 0 <= i < |rows| ==> |rows[i]| == L * H && RowFits(|buf|, L, H, i)
    ensures FilledTo(buf, L, H, rows, 0, 0)
    ensures FilledTo(buf, L, H, rows, k, |rows|) ==> FilledTo(buf, L, H, rows, k + 1, 0)
  {
    hide Block, LayerOf;
  }

  // One more block in that order.
  method FillNext(buf: array<Bits>, L: nat, H: nat, ghost rows: seq<seq<Bits>>, k: nat, i: nat, src: seq<Bits>)
    requires forall i :: 0 <= i < |rows| ==> |rows[i]| == L * H && RowFits(buf.Length, L, H, i)
    requires i < |rows| && k < L && FilledTo(buf[..], L, H, rows, k, i)
    requires src == LayerOf(rows[i], L, H, k)
    modifies buf
    ensures FilledTo(buf[..], L, H, rows, k, i + 1)
  {
    ghost var before := buf[..];
    PlaceBlock(buf, L, H, i, k, src);
    forall i': nat, k': nat | i' < |rows| && k' < L && (k' < k || (k' == k && i' < i + 1))
      ensures Block(buf[..], L, H, i', k') == LayerOf(rows[i'], L, H, k')
    {
      if (i', k') != (i, k) {
        assert Block(buf[..], L, H, i', k') == Block(before, L, H, i', k');
      }
    }
  }

  lemma RowsFilled(buf: seq<Bits>, L: nat, H: nat, rows: seq<seq<Bits>>)
    requires forall i :: 0 <= i < |rows| ==> |rows[i]| == L * H && RowFits(|buf|, L, H, i)
    requires FilledTo(buf, L, H, rows, L, 0)
    ensures forall i: nat :: i < |rows| ==> Row(buf, L, H, i) == rows[i]
  {
    forall i: nat | i < |rows|
      ensures Row(buf, L, H, i) == rows[i]
    {
      RowIsItsBlocks(buf, L, H, i, rows[i]);
    }
  }

  lemma AllRowsFit(L: nat, H: nat, n: nat)
    ensures forall i: nat :: i < n ==> RowFits(n * (L * H), L, H, i)
  {
    forall i: nat | i < n
      ensures RowFits(n * (L * H), L, H, i)
    {
      RowInside(n, i, L * H);
    }
  }

  // features_buf.resize(n * L * H)
  method NewRows(n: nat, L: nat, H: nat) returns (buf: array<Bits>)
    ensures fresh(buf)
    ensures forall i: nat :: i < n ==> RowFits(buf.Length, L, H, i)
  {
    AllRowsFit(L, H, n);
    buf := new Bits[n * (L * H)];
  }

  // The first loop nest of process(): layer by layer, row by row, into one buffer.
  method ConcatLayers(layers: seq<seq<Bits>>, n: nat, H: nat) returns (buf: array<Bits>)
    requires Holds(layers, n, H)
    ensures fresh(buf)
    ensures forall i: nat :: i < n ==> RowFits(buf.Length, |layers|, H, i)
    ensures forall i: nat :: i < n ==> Row(buf[..], |layers|, H, i) == TokenRow(layers, n, i, H)
  {
    var L := |layers|;
    buf := NewRows(n, L, H);
    ghost var rows := seq(n, i requires 0 <= i < n => TokenRow(layers, n, i, H));
    hide FilledTo, RowFits, TokenRow, LayerOf;
    FilledSteps(buf[..], L, H, rows, 0);
    for k := 0 to L
      invariant FilledTo(buf[..], L, H, rows, k, 0)
    {
      for i := 0 to n
        invariant FilledTo(buf[..], L, H, rows, k, i)
      {
        TokenRowLayer(layers, n, i, H, k);
        FillNext(buf, L, H, rows, k, i, LayerRow(layers[k], i, H));
      }
      FilledSteps(buf[..], L, H, rows, k);
    }
    RowsFilled(buf[..], L, H, rows);
  }
}
