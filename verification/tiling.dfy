/**
 * The one-time broadcast of the encoder outputs across the beam: a tensor of
 * shape (S, 1, H) is copied into a fresh (S, B, H) buffer so that every beam
 * slot sees the same hidden vector at every source position.
 */
module Tiling {
  import opened Tensors
  import opened TensorNames

  /**
   * The copy reads dimensions 0 and 2 and then `S * H` elements, so the
   * tensor has at least three dimensions and at least that many elements.
   */
  predicate Tileable<E>(t: Tensor<E>)
  {
    |t.shape| >= 3 && Mul(t.shape[0], t.shape[2]) <= |t.data|
  }

  /** `n` copies of `row`, one after the other. */
  function Repeat<E>(row: seq<E>, n: nat): seq<E>
  {
    if n == 0 then [] else Repeat(row, n - 1) + row
  }

  lemma {:induction false} RepeatLength<E>(row: seq<E>, n: nat)
    ensures |Repeat(row, n)| == Mul(n, |row|)
  {
    if n > 0 {
      RepeatLength(row, n - 1);
    }
  }

  /** The first `s` source positions of a tiled buffer: each `h`-row repeated `b` times. */
  function TileRows<E>(data: seq<E>, s: nat, h: nat, b: nat): seq<E>
    requires Mul(s, h) <= |data|
  {
    if s == 0 then []
    else TileRows(data, s - 1, h, b) + Repeat(data[Mul(s - 1, h) .. Mul(s, h)], b)
  }

  /** The tiled rows hold `s * b * h` elements. */
  lemma {:induction false} TileRowsLength<E>(data: seq<E>, s: nat, h: nat, b: nat)
    requires Mul(s, h) <= |data|
    ensures |TileRows(data, s, h, b)| == Mul(s, Mul(b, h))
  {
    if s > 0 {
      TileRowsLength(data, s - 1, h, b);
      RepeatLength(data[Mul(s - 1, h) .. Mul(s, h)], b);
    }
  }

  /** The broadcast of `t` to `beamSize` beam slots, shape (S, beamSize, H). */
  function Tile<E>(t: Tensor<E>, beamSize: nat): Tensor<E>
    requires Tileable(t)
  {
    Tensor([t.shape[0], beamSize, t.shape[2]], TileRows(t.data, t.shape[0], t.shape[2], beamSize))
  }

  /** Copy `j` of a repeated row holds the row at offset `j * |row|`. */
  lemma {:induction false} RepeatAt<E>(row: seq<E>, n: nat, j: nat, k: nat)
    requires j < n && k < |row|
    ensures Mul(j, |row|) + k < |Repeat(row, n)|
    ensures Repeat(row, n)[Mul(j, |row|) + k] == row[k]
  {
    RepeatLength(row, n - 1);
    if j < n - 1 {
      RepeatAt(row, n - 1, j, k);
    }
  }

  /**
   * Broadcast fidelity: for every source position `i`, beam slot `j` and
   * hidden unit `k`, the element at flat index `i*B*H + j*H + k` of the tiled
   * rows (the data of `Tile`) is the untiled element at `i*H + k`.
   */
  lemma {:induction false} TileRowsAt<E>(data: seq<E>, s: nat, h: nat, b: nat, i: nat, j: nat, k: nat)
    requires Mul(s, h) <= |data| && i < s && j < b && k < h
    ensures Mul(i, h) + k < |data|
    ensures Mul(i, Mul(b, h)) + Mul(j, h) + k < |TileRows(data, s, h, b)|
    ensures TileRows(data, s, h, b)[Mul(i, Mul(b, h)) + Mul(j, h) + k] == data[Mul(i, h) + k]
  {
    var front := TileRows(data, s - 1, h, b);
    TileRowsLength(data, s - 1, h, b);
    var row := data[Mul(s - 1, h) .. Mul(s, h)];
    var index := Mul(i, Mul(b, h)) + Mul(j, h) + k;
    assert TileRows(data, s, h, b) == front + Repeat(row, b);
    assert |row| == h;
    RepeatAt(row, b, j, k);
    if i < s - 1 {
      TileRowsAt(data, s - 1, h, b, i, j, k);
      assert index < |front|;
      assert (front + Repeat(row, b))[index] == front[index];
    } else {
      assert index == |front| + (Mul(j, h) + k);
      assert (front + Repeat(row, b))[index] == Repeat(row, b)[Mul(j, h) + k];
    }
  }

  /** The broadcast has shape (S, B, H) and holds `S * B * H` elements. */
  lemma TileShape<E>(t: Tensor<E>, beamSize: nat)
    requires Tileable(t)
    ensures Tile(t, beamSize).shape == [t.shape[0], beamSize, t.shape[2]]
    ensures |Tile(t, beamSize).data| == Mul(t.shape[0], Mul(beamSize, t.shape[2]))
  {
    TileRowsLength(t.data, t.shape[0], t.shape[2], beamSize);
  }

  /** `tiledIndex` of the copy loop: where beam slot `j` of source position `i` starts. */
  function TiledIndex(i: nat, j: nat, beamSize: nat, hiddenSize: nat): nat
  {
    i * beamSize * hiddenSize + j * hiddenSize
  }

  /** `untiledIndex` of the copy loop: where source position `i` starts. */
  function UntiledIndex(i: nat, hiddenSize: nat): nat
  {
    i * hiddenSize
  }

  lemma MulAssociates(a: nat, b: nat, c: nat)
    ensures a * b * c == a * (b * c)
  {
  }

  /** The two copy offsets, written with the `Mul` of the tiled-rows lemmas. */
  lemma CopyOffsets(i: nat, j: nat, beamSize: nat, hiddenSize: nat)
    ensures TiledIndex(i, j, beamSize, hiddenSize) == Mul(i, Mul(beamSize, hiddenSize)) + Mul(j, hiddenSize)
    ensures UntiledIndex(i, hiddenSize) == Mul(i, hiddenSize)
  {
    var block := Mul(beamSize, hiddenSize);
    MulIsProduct(beamSize, hiddenSize);
    MulIsProduct(i, block);
    MulIsProduct(j, hiddenSize);
    MulIsProduct(i, hiddenSize);
    MulAssociates(i, beamSize, hiddenSize);
  }

  /** `TileRowsAt` at the offsets the copy loop computes. */
  lemma TileRowsAtOffsets<E>(data: seq<E>, s: nat, h: nat, b: nat, i: nat, j: nat, k: nat)
    requires Mul(s, h) <= |data| && i < s && j < b && k < h
    ensures UntiledIndex(i, h) + k < |data|
    ensures TiledIndex(i, j, b, h) + k < |TileRows(data, s, h, b)|
    ensures TileRows(data, s, h, b)[TiledIndex(i, j, b, h) + k] == data[UntiledIndex(i, h) + k]
  {
    TileRowsAt(data, s, h, b, i, j, k);
    CopyOffsets(i, j, b, h);
  }

  /** One `memcpy` block of the broadcast: slot `j` of position `i` is untiled position `i`. */
  lemma TileBlock<E>(t: Tensor<E>, beamSize: nat, i: nat, j: nat)
    requires Tileable(t) && i < t.shape[0] && j < beamSize
    ensures TiledIndex(i, j, beamSize, t.shape[2]) + t.shape[2] <= |Tile(t, beamSize).data|
    ensures UntiledIndex(i, t.shape[2]) + t.shape[2] <= |t.data|
    ensures Tile(t, beamSize).data[TiledIndex(i, j, beamSize, t.shape[2]) .. TiledIndex(i, j, beamSize, t.shape[2]) + t.shape[2]]
         == t.data[UntiledIndex(i, t.shape[2]) .. UntiledIndex(i, t.shape[2]) + t.shape[2]]
  {
    var S, H := t.shape[0], t.shape[2];
    var tiled := Tile(t, beamSize).data;
    var ti, ui := TiledIndex(i, j, beamSize, H), UntiledIndex(i, H);
    if H > 0 {
      TileRowsAtOffsets(t.data, S, H, beamSize, i, j, H - 1);
    }
    assert tiled[ti .. ti + H] == t.data[ui .. ui + H] by {
      var block := tiled[ti .. ti + H];
      var source := t.data[ui .. ui + H];
      forall k | 0 <= k < H
        ensures block[k] == source[k]
      {
        TileRowsAtOffsets(t.data, S, H, beamSize, i, j, k);
      }
    }
  }

  /**
   * Broadcast fidelity of `Tile`: for every source position `i` and beam slot
   * `j`, the `H` elements at `tiledIndex = i*B*H + j*H` are the `H` elements
   * of the source at `untiledIndex = i*H`, as each `memcpy` of the loop copies.
   */
  lemma TileFidelity<E>(t: Tensor<E>, beamSize: nat)
    requires Tileable(t)
    ensures forall i, j | 0 <= i < t.shape[0] && 0 <= j < beamSize ::
      && TiledIndex(i, j, beamSize, t.shape[2]) + t.shape[2] <= |Tile(t, beamSize).data|
      && UntiledIndex(i, t.shape[2]) + t.shape[2] <= |t.data|
      && Tile(t, beamSize).data[TiledIndex(i, j, beamSize, t.shape[2]) .. TiledIndex(i, j, beamSize, t.shape[2]) + t.shape[2]]
         == t.data[UntiledIndex(i, t.shape[2]) .. UntiledIndex(i, t.shape[2]) + t.shape[2]]
  {
    forall i, j | 0 <= i < t.shape[0] && 0 <= j < beamSize
      ensures && TiledIndex(i, j, beamSize, t.shape[2]) + t.shape[2] <= |Tile(t, beamSize).data|
              && UntiledIndex(i, t.shape[2]) + t.shape[2] <= |t.data|
              && Tile(t, beamSize).data[TiledIndex(i, j, beamSize, t.shape[2]) .. TiledIndex(i, j, beamSize, t.shape[2]) + t.shape[2]]
                 == t.data[UntiledIndex(i, t.shape[2]) .. UntiledIndex(i, t.shape[2]) + t.shape[2]]
    {
      TileBlock(t, beamSize, i, j);
    }
  }

  /** `memcpy(dst + dstOffset, src + srcOffset, count elements)`. */
  method Memcpy<E>(dst: array<E>, dstOffset: nat, src: seq<E>, srcOffset: nat, count: nat)
    requires dstOffset + count <= dst.Length && srcOffset + count <= |src|
    modifies dst
    ensures dst[..dstOffset] == old(dst[..dstOffset])
    ensures dst[dstOffset..dstOffset + count] == src[srcOffset..srcOffset + count]
    ensures dst[dstOffset + count..] == old(dst[dstOffset + count..])
  {
    for k := 0 to count
      invariant dst[..dstOffset] == old(dst[..dstOffset])
      invariant dst[dstOffset..dstOffset + k] == src[srcOffset..srcOffset + k]
      invariant dst[dstOffset + count..] == old(dst[dstOffset + count..])
    {
      dst[dstOffset + k] := src[srcOffset + k];
    }
  }

  /** Source position `i` of an untiled tensor: its `H` hidden values. */
  function UntiledRow<E>(t: Tensor<E>, i: nat): (row: seq<E>)
    requires Tileable(t) && i < t.shape[0]
    ensures |row| == t.shape[2]
  {
    MulMonotone(i + 1, t.shape[0], t.shape[2]);
    t.data[Mul(i, t.shape[2]) .. Mul(i, t.shape[2]) + t.shape[2]]
  }

  /**
   * The copy loop of the broadcast: for each source position `i` and beam
   * slot `j`, copy the `H` elements at `i*H` to `i*B*H + j*H` of a fresh
   * buffer of `S*B*H` elements.
   */
  method TileTensor<E>(untiled: Tensor<E>, beamSize: nat) returns (tiled: Tensor<E>)
    requires Tileable(untiled)
    ensures tiled == Tile(untiled, beamSize)
  {
    var sourceLength := untiled.shape[0];
    var hiddenSize := untiled.shape[2];
    var size := Mul(sourceLength, Mul(beamSize, hiddenSize));
    TiledSizePositive(untiled, beamSize);
    var buffer := new E[size](x requires 0 <= x < size => untiled.data[0]);
    CopyAllPositions(buffer, untiled, beamSize);
    tiled := Tensor([sourceLength, beamSize, hiddenSize], buffer[..]);
  }

  /** The outer loop of the broadcast: every source position copied to its block, in order. */
  method CopyAllPositions<E>(buffer: array<E>, untiled: Tensor<E>, beamSize: nat)
    requires Tileable(untiled)
    requires buffer.Length == Mul(untiled.shape[0], Mul(beamSize, untiled.shape[2]))
    modifies buffer
    ensures buffer[..] == TileRows(untiled.data, untiled.shape[0], untiled.shape[2], beamSize)
  {
    var sourceLength := untiled.shape[0];
    var hiddenSize := untiled.shape[2];
    var block := Mul(beamSize, hiddenSize);
    var i := 0;
    while i < sourceLength
      invariant 0 <= i <= sourceLength
      invariant Mul(i, block) <= buffer.Length && Mul(i, hiddenSize) <= |untiled.data|
      invariant buffer[..Mul(i, block)] == TileRows(untiled.data, i, hiddenSize, beamSize)
    {
      ghost var prefix := buffer[..Mul(i, block)];
      CopyToBeams(buffer, untiled, beamSize, i);
      TileRowsNext(untiled, beamSize, i);
      assert buffer[..Mul(i + 1, block)] == prefix + Repeat(UntiledRow(untiled, i), beamSize);
      i := i + 1;
    }
  }

  /** A non-empty broadcast has a non-empty source to copy from. */
  lemma TiledSizePositive<E>(t: Tensor<E>, beamSize: nat)
    requires Tileable(t)
    ensures Mul(t.shape[0], Mul(beamSize, t.shape[2])) > 0 ==> |t.data| > 0
  {
    if Mul(t.shape[0], Mul(beamSize, t.shape[2])) > 0 {
      MulPositive(t.shape[0], Mul(beamSize, t.shape[2]));
      MulPositive(beamSize, t.shape[2]);
      assert Mul(t.shape[0], t.shape[2]) > 0;
    }
  }

  /** One more source position appends its row, repeated `beamSize` times, to the tiled rows. */
  lemma TileRowsNext<E>(t: Tensor<E>, beamSize: nat, i: nat)
    requires Tileable(t) && i < t.shape[0]
    ensures Mul(i + 1, t.shape[2]) <= |t.data|
    ensures TileRows(t.data, i + 1, t.shape[2], beamSize)
         == TileRows(t.data, i, t.shape[2], beamSize) + Repeat(UntiledRow(t, i), beamSize)
  {
    MulMonotone(i + 1, t.shape[0], t.shape[2]);
  }

  /**
   * The inner loop of the broadcast: source position `i` copied into the
   * `beamSize` slots of block `i`, leaving the blocks before it alone.
   */
  method CopyToBeams<E>(buffer: array<E>, untiled: Tensor<E>, beamSize: nat, i: nat)
    requires Tileable(untiled) && i < untiled.shape[0]
    requires buffer.Length == Mul(untiled.shape[0], Mul(beamSize, untiled.shape[2]))
    modifies buffer
    ensures Mul(i + 1, Mul(beamSize, untiled.shape[2])) <= buffer.Length
    ensures buffer[..Mul(i + 1, Mul(beamSize, untiled.shape[2]))]
         == old(buffer[..Mul(i, Mul(beamSize, untiled.shape[2]))]) + Repeat(UntiledRow(untiled, i), beamSize)
  {
    var hiddenSize := untiled.shape[2];
    var block := Mul(beamSize, hiddenSize);
    var base := Mul(i, block);
    MulMonotone(i + 1, untiled.shape[0], block);
    MulMonotone(i + 1, untiled.shape[0], hiddenSize);
    ghost var done := buffer[..base];
    assert done + Repeat(UntiledRow(untiled, i), 0) == done;
    var j := 0;
    while j < beamSize
      invariant 0 <= j <= beamSize
      invariant Mul(j, hiddenSize) <= block
      invariant buffer[..base + Mul(j, hiddenSize)] == done + Repeat(UntiledRow(untiled, i), j)
    {
      MulMonotone(j + 1, beamSize, hiddenSize);
      CopyToSlot(buffer, untiled, beamSize, i, j, done);
      j := j + 1;
    }
  }

  /** Appending one more copy of `row` after `j` copies gives `j + 1` copies. */
  lemma AppendCopy<E>(done: seq<E>, row: seq<E>, j: nat)
    ensures (done + Repeat(row, j)) + row == done + Repeat(row, j + 1)
  {
  }

  /**
   * One `memcpy` of the broadcast: the `H` elements of source position `i`
   * to slot `j` of block `i`, right after the `j` slots before it.
   */
  method CopyToSlot<E>(buffer: array<E>, untiled: Tensor<E>, beamSize: nat, i: nat, j: nat, ghost done: seq<E>)
    requires Tileable(untiled) && i < untiled.shape[0] && j < beamSize
    requires Mul(i, Mul(beamSize, untiled.shape[2])) + Mul(j + 1, untiled.shape[2]) <= buffer.Length
    requires buffer[..Mul(i, Mul(beamSize, untiled.shape[2])) + Mul(j, untiled.shape[2])]
          == done + Repeat(UntiledRow(untiled, i), j)
    modifies buffer
    ensures buffer[..Mul(i, Mul(beamSize, untiled.shape[2])) + Mul(j + 1, untiled.shape[2])]
         == done + Repeat(UntiledRow(untiled, i), j + 1)
  {
    var hiddenSize := untiled.shape[2];
    var tiledIndex := Mul(i, Mul(beamSize, hiddenSize)) + Mul(j, hiddenSize);
    var untiledIndex := Mul(i, hiddenSize);
    MulMonotone(i + 1, untiled.shape[0], hiddenSize);
    ghost var before := buffer[..tiledIndex];
    Memcpy(buffer, tiledIndex, untiled.data, untiledIndex, hiddenSize);
    assert buffer[..tiledIndex + hiddenSize] == before + buffer[tiledIndex..tiledIndex + hiddenSize];
    AppendCopy(done, UntiledRow(untiled, i), j);
  }

  /** An output name the broadcast applies to. */
  predicate IsEncoderOutputName(name: string)
  {
    Search(name, EncoderOutputPrefix).Some?
  }

  /** The predictor's output names are pairwise different. */
  predicate Distinct(names: seq<string>)
  {
    forall i, j | 0 <= i < j < |names| :: names[i] != names[j]
  }

  /** Every listed `encoder_output_N` tensor is in the map and can be broadcast. */
  predicate EncoderOutputsTileable<E>(names: seq<string>, m: TensorMap<E>)
  {
    forall n | n in names && IsEncoderOutputName(n) :: n in m && Tileable(m[n])
  }

  /**
   * The encoder output map after the broadcast loop has visited `names`:
   * each listed `encoder_output_N` entry is replaced by its tiled copy.
   */
  function TiledEncoderOutputMap<E>(names: seq<string>, m: TensorMap<E>, beamSize: nat): TensorMap<E>
    requires EncoderOutputsTileable(names, m)
    decreases |names|
  {
    if names == [] then m
    else
      var name := names[|names| - 1];
      assert forall n | n in names[..|names| - 1] :: n in names;
      var rest := TiledEncoderOutputMap(names[..|names| - 1], m, beamSize);
      if IsEncoderOutputName(name) then rest[name := Tile(m[name], beamSize)] else rest
  }

  /** The broadcast keeps every key and tiles exactly the listed `encoder_output_N` entries. */
  lemma {:induction false} TiledMapSpec<E>(names: seq<string>, m: TensorMap<E>, beamSize: nat)
    requires EncoderOutputsTileable(names, m)
    ensures TiledEncoderOutputMap(names, m, beamSize).Keys == m.Keys
    ensures forall k | k in m ::
      TiledEncoderOutputMap(names, m, beamSize)[k]
      == if k in names && IsEncoderOutputName(k) then Tile(m[k], beamSize) else m[k]
    decreases |names|
  {
    if names != [] {
      var init := names[..|names| - 1];
      assert forall n | n in init :: n in names;
      assert names == init + [names[|names| - 1]];
      TiledMapSpec(init, m, beamSize);
    }
  }

  lemma TiledMapStep<E>(names: seq<string>, i: nat, m: TensorMap<E>, beamSize: nat)
    requires i < |names| && Distinct(names) && EncoderOutputsTileable(names, m)
    ensures EncoderOutputsTileable(names[..i], m) && EncoderOutputsTileable(names[..i + 1], m)
    ensures IsEncoderOutputName(names[i]) ==>
      && names[i] in TiledEncoderOutputMap(names[..i], m, beamSize)
      && TiledEncoderOutputMap(names[..i], m, beamSize)[names[i]] == m[names[i]]
      && TiledEncoderOutputMap(names[..i + 1], m, beamSize)
         == TiledEncoderOutputMap(names[..i], m, beamSize)[names[i] := Tile(m[names[i]], beamSize)]
    ensures !IsEncoderOutputName(names[i]) ==>
      TiledEncoderOutputMap(names[..i + 1], m, beamSize) == TiledEncoderOutputMap(names[..i], m, beamSize)
  {
    var name := names[i];
    assert names[..i + 1][..i] == names[..i];
    assert forall n | n in names[..i] :: n in names;
    assert forall n | n in names[..i + 1] :: n in names;
    assert name !in names[..i] by {
      forall j | 0 <= j < i ensures names[..i][j] != name {
        assert names[..i][j] == names[j];
      }
    }
    TiledMapSpec(names[..i], m, beamSize);
  }

  /**
   * The broadcast loop over the encoder's output names: each matching entry
   * of the map is replaced by its tiled copy.
   */
  method TileEncoderOutputs<E>(names: seq<string>, encoderOutputMap: TensorMap<E>, beamSize: nat)
    returns (tiled: TensorMap<E>)
    requires Distinct(names) && EncoderOutputsTileable(names, encoderOutputMap)
    ensures tiled == TiledEncoderOutputMap(names, encoderOutputMap, beamSize)
  {
    tiled := encoderOutputMap;
    assert TiledEncoderOutputMap([], encoderOutputMap, beamSize) == encoderOutputMap;
    for i := 0 to |names|
      invariant tiled == TiledEncoderOutputMap(names[..i], encoderOutputMap, beamSize)
    {
      var name := names[i];
      TiledMapStep(names, i, encoderOutputMap, beamSize);
      if IsEncoderOutputName(name) {
        var t := TileTensor(tiled[name], beamSize);
        tiled := tiled[name := t];
      }
    }
    assert names[..|names|] == names;
  }
}
