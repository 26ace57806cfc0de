/**
 * Tensors and named tensor maps as exchanged with the opaque encoder and
 * decoder-step predictors. A tensor is a shape and a flat, row-major sequence
 * of elements; a `TensorMap` binds blob names to tensors.
 */
module Tensors {

  /** A tensor: its dimensions and its elements in row-major order. */
  datatype Tensor<E> = Tensor(shape: seq<nat>, data: seq<E>)

  /** Named tensors, the interface of a predictor. */
  type TensorMap<E> = map<string, Tensor<E>>

  /**
   * An element as the beam search writes it: an integer (token ids,
   * lengths, the timestep) or an opaque floating-point value (scores,
   * attention weights, hidden states).
   */
  datatype Scalar<F> = Int(i: int) | Float(f: F)

  /** Why a beam search stops. */
  datatype Error =
    | UnrecognizedTensorName(name: string)  // an encoder output no routing rule accepts
    | MissingTensor(name: string)           // `.at` on a name the map does not hold
    | EncoderFailure                        // the encoder predictor reported failure
    | DecoderStepFailure(step: int)         // the decoder-step predictor failed at this step

  /** A default-constructed tensor: no dimensions and no elements. */
  function Empty<E>(): Tensor<E>
  {
    Tensor([], [])
  }

  /** A tensor resized to one element holding `x`. */
  function Vector<E>(x: E): Tensor<E>
  {
    Tensor([1], [x])
  }

  /** The tensor that `m[k]` (the subscript operator) yields. */
  function Lookup<E>(m: TensorMap<E>, k: string): Tensor<E>
  {
    if k in m then m[k] else Empty()
  }

  /**
   * The map after `m[k]`: a missing key is inserted with a default tensor,
   * a present one is written back with its own tensor.
   */
  function Subscript<E>(m: TensorMap<E>, k: string): TensorMap<E>
  {
    m[k := Lookup(m, k)]
  }

  /**
   * `m[k]` adds exactly key `k`, keeps every entry, yields the old tensor or
   * an empty one, and leaves a map that has `k` unchanged.
   */
  lemma SubscriptSpec<E>(m: TensorMap<E>, k: string)
    ensures Subscript(m, k).Keys == m.Keys + {k}
    ensures forall j | j in m :: Subscript(m, k)[j] == m[j]
    ensures Subscript(m, k)[k] == Lookup(m, k)
    ensures k in m ==> Subscript(m, k) == m
  {
  }

  /**
   * `a * b` on naturals, spelled out as repeated addition. Index arithmetic
   * over flat tensors is written with it so that its proofs stay linear;
   * `MulIsProduct` shows it is ordinary multiplication.
   */
  function Mul(a: nat, b: nat): nat
  {
    if a == 0 then 0 else Mul(a - 1, b) + b
  }

  lemma {:induction false} MulIsProduct(a: nat, b: nat)
    ensures Mul(a, b) == a * b
  {
    if a > 0 {
      MulIsProduct(a - 1, b);
    }
  }

  lemma {:induction false} MulMonotone(a: nat, c: nat, b: nat)
    requires a <= c
    ensures Mul(a, b) <= Mul(c, b)
  {
    if a < c {
      MulMonotone(a, c - 1, b);
    }
  }

  lemma {:induction false} MulPositive(a: nat, b: nat)
    requires Mul(a, b) > 0
    ensures a > 0 && b > 0 && Mul(a, b) >= b
  {
    if a > 1 && Mul(a - 1, b) > 0 {
      MulPositive(a - 1, b);
    }
  }

  /**
   * The rows of a matrix-shaped tensor (`tensorToVector2D`). A tensor that
   * is not a well-formed matrix yields no rows.
   */
  function Rows2D<E>(t: Tensor<E>): (rows: seq<seq<E>>)
  {
    if |t.shape| == 2 && |t.data| == Mul(t.shape[0], t.shape[1]) then
      seq(t.shape[0], i requires 0 <= i < t.shape[0] => RowAt(t.data, i, t.shape[1], t.shape[0]))
    else
      []
  }

  /** Row `i` of a flat `rows`-by-`w` matrix. */
  function RowAt<E>(data: seq<E>, i: nat, w: nat, rows: nat): (row: seq<E>)
    requires i < rows && |data| == Mul(rows, w)
    ensures |row| == w
  {
    MulMonotone(i + 1, rows, w);
    data[Mul(i, w) .. Mul(i, w) + w]
  }

  /** Element `c` of row `i` is the flat element at `i * w + c`, written with `Mul`. */
  lemma RowAtElement<E>(data: seq<E>, i: nat, w: nat, rows: nat, c: nat)
    requires i < rows && |data| == Mul(rows, w) && c < w
    ensures Mul(i, w) + c < |data|
    ensures RowAt(data, i, w, rows)[c] == data[Mul(i, w) + c]
  {
    MulMonotone(i + 1, rows, w);
  }

  /** A well-formed `rows`-by-`w` matrix converts to `rows` rows, row `i` being `RowAt(data, i)`. */
  lemma Rows2DRow<E>(t: Tensor<E>, rows: nat, w: nat, i: nat)
    requires t.shape == [rows, w] && |t.data| == Mul(rows, w) && i < rows
    ensures |Rows2D(t)| == rows
    ensures Rows2D(t)[i] == RowAt(t.data, i, w, rows)
  {
  }

  /**
   * A well-formed `rows`-by-`w` matrix converts to `rows` rows of `w`
   * elements, element `c` of row `i` being the flat element `i * w + c`.
   */
  lemma Rows2DShape<E>(t: Tensor<E>, rows: nat, w: nat)
    requires t.shape == [rows, w] && |t.data| == rows * w
    ensures |Rows2D(t)| == rows
    ensures forall i | 0 <= i < rows :: |Rows2D(t)[i]| == w
    ensures forall i, c | 0 <= i < rows && 0 <= c < w :: i * w + c < |t.data| && Rows2D(t)[i][c] == t.data[i * w + c]
  {
    MulIsProduct(rows, w);
    forall i | 0 <= i < rows
      ensures |Rows2D(t)[i]| == w
    {
      Rows2DRow(t, rows, w, i);
    }
    forall i, c | 0 <= i < rows && 0 <= c < w
      ensures i * w + c < |t.data| && Rows2D(t)[i][c] == t.data[i * w + c]
    {
      MulIsProduct(i, w);
      Rows2DRow(t, rows, w, i);
      RowAtElement(t.data, i, w, rows, c);
    }
  }
}
