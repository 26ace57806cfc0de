/**
 * `BatchedBeamSearch::beamSearch`: the source tensor handed to the encoder,
 * the decoder-step loop and the per-step history it returns. The encoder and
 * the decoder step are opaque predictors, given as functions on tensor maps.
 */
module BatchedBeamSearch {
  import opened Wrappers
  import opened Tensors
  import opened TensorNames
  import opened Routing
  import opened Tiling
  import opened StepInputs

  /** A loaded network: it maps an input map to an output map or fails, and lists its output names. */
  datatype Predictor<!F> = Predictor(
    run: TensorMap<Scalar<F>> -> Option<TensorMap<Scalar<F>>>,
    outputNames: seq<string>)

  /**
   * A beam searcher: the two networks, the beam width, the end-of-sentence
   * token id of the dictionary and the floating-point zero.
   */
  datatype BeamSearcher<!F> = BeamSearcher(
    encoder: Predictor<F>, decoderStep: Predictor<F>, beamSize: nat, eosId: int, zeroScore: F)

  /** Per-step outputs, one row per decoder invocation after a placeholder row for the input. */
  datatype History<F> = History(
    tokens: seq<seq<Scalar<F>>>,
    scores: seq<seq<Scalar<F>>>,
    prevIndices: seq<seq<Scalar<F>>>,
    attentionWeights: seq<seq<seq<Scalar<F>>>>)

  /** What `beamSearch` returns: the requested length and the four history lists. */
  datatype BeamSearchOutput<F> = BeamSearchOutput(outputLength: int, history: History<F>)

  const EncoderInputs := "encoder_inputs"
  const EncoderLengths := "encoder_lengths"
  const PrevHyposIndices := "prev_hypos_indices"
  const AttentionWeightsAverage := "attention_weights_average"

  // ---------------------------------------------------------------- source

  function Reversed<T>(s: seq<T>): (r: seq<T>)
    ensures |r| == |s|
    ensures forall i | 0 <= i < |s| :: r[i] == s[|s| - 1 - i]
  {
    if s == [] then [] else Reversed(s[1..]) + [s[0]]
  }

  lemma {:induction false} ReversedMultiset<T>(s: seq<T>)
    ensures multiset(Reversed(s)) == multiset(s)
  {
    if s != [] {
      ReversedMultiset(s[1..]);
      assert s == [s[0]] + s[1..];
    }
  }

  function Ints<F>(s: seq<int>): (r: seq<Scalar<F>>)
    ensures |r| == |s| && forall i | 0 <= i < |s| :: r[i] == Int(s[i])
  {
    seq(|s|, i requires 0 <= i < |s| => Int(s[i]))
  }

  /** The `encoder_inputs` tensor: the token ids as one column, last token first when reversing. */
  function SourceTensor<F>(numberizedInput: seq<int>, reverseSource: bool): Tensor<Scalar<F>>
  {
    Tensor([|numberizedInput|, 1], Ints(if reverseSource then Reversed(numberizedInput) else numberizedInput))
  }

  /** The source tensor is an n-by-1 column holding the input's tokens, in order or reversed. */
  lemma SourceTensorContents<F>(numberizedInput: seq<int>, reverseSource: bool)
    ensures var t := SourceTensor<F>(numberizedInput, reverseSource);
      && t.shape == [|numberizedInput|, 1]
      && |t.data| == |numberizedInput|
      && multiset(t.data) == multiset(Ints<F>(numberizedInput))
      && forall i | 0 <= i < |numberizedInput| ::
           t.data[i] == Int(numberizedInput[if reverseSource then |numberizedInput| - 1 - i else i])
  {
    var t := SourceTensor<F>(numberizedInput, reverseSource);
    if reverseSource {
      var r := Reversed(numberizedInput);
      ReversedMultiset(numberizedInput);
      ReversedMultiset(Ints<F>(numberizedInput));
      assert Ints<F>(r) == Reversed(Ints<F>(numberizedInput));
    }
  }

  /** The column is filled through a moving pointer, from the back of the input when reversing. */
  method BuildSourceTensor<F>(numberizedInput: seq<int>, reverseSource: bool) returns (t: Tensor<Scalar<F>>)
    ensures t == SourceTensor(numberizedInput, reverseSource)
  {
    var n := |numberizedInput|;
    var buffer := new Scalar<F>[n](_ => Int(0));
    var k := 0;
    if reverseSource {
      while k < n
        invariant 0 <= k <= n
        invariant forall i | 0 <= i < k :: buffer[i] == Int(numberizedInput[n - 1 - i])
      {
        buffer[k] := Int(numberizedInput[n - 1 - k]);
        k := k + 1;
      }
      assert buffer[..] == Ints(Reversed(numberizedInput));
    } else {
      while k < n
        invariant 0 <= k <= n
        invariant forall i | 0 <= i < k :: buffer[i] == Int(numberizedInput[i])
      {
        buffer[k] := Int(numberizedInput[k]);
        k := k + 1;
      }
      assert buffer[..] == Ints(numberizedInput);
    }
    t := Tensor([n, 1], buffer[..]);
  }

  /** The encoder's input map: the source column and its length. */
  function EncoderInputMap<F>(numberizedInput: seq<int>, reverseSource: bool): (m: TensorMap<Scalar<F>>)
    ensures m.Keys == {EncoderInputs, EncoderLengths}
    ensures m[EncoderLengths] == Vector(Int(|numberizedInput|))
  {
    map[EncoderInputs := SourceTensor(numberizedInput, reverseSource),
        EncoderLengths := Vector(Int(|numberizedInput|))]
  }

  // --------------------------------------------------------------- history

  function Fill<T>(n: nat, x: T): (r: seq<T>)
    ensures |r| == n && forall i | 0 <= i < n :: r[i] == x
  {
    if n == 0 then [] else Fill(n - 1, x) + [x]
  }

  /** The first row of every list: zeros for each beam, and a zero attention vector over the source. */
  function PlaceholderHistory<F>(beamSize: nat, sourceLength: nat, zeroScore: F): History<F>
  {
    History([Fill(beamSize, Int(0))], [Fill(beamSize, Float(zeroScore))], [Fill(beamSize, Int(0))],
            [Fill(beamSize, Fill(sourceLength, Float(zeroScore)))])
  }

  /** The step output map after the four `stepOutputMap[...]` reads, which insert what is missing. */
  function ReadStepOutputs<F>(stepOutputMap: TensorMap<Scalar<F>>): TensorMap<Scalar<F>>
  {
    Subscript(Subscript(Subscript(Subscript(stepOutputMap, BestTokensIndices), PrevHyposIndices), BestScores),
              AttentionWeightsAverage)
  }

  /** The four reads add exactly the four names the loop reads and change no entry. */
  lemma ReadStepOutputsSpec<F>(stepOutputMap: TensorMap<Scalar<F>>)
    ensures ReadStepOutputs(stepOutputMap).Keys
         == stepOutputMap.Keys + {BestTokensIndices, PrevHyposIndices, BestScores, AttentionWeightsAverage}
    ensures forall k | k in stepOutputMap :: ReadStepOutputs(stepOutputMap)[k] == stepOutputMap[k]
  {
    var m1 := Subscript(stepOutputMap, BestTokensIndices);
    var m2 := Subscript(m1, PrevHyposIndices);
    var m3 := Subscript(m2, BestScores);
    SubscriptSpec(stepOutputMap, BestTokensIndices);
    SubscriptSpec(m1, PrevHyposIndices);
    SubscriptSpec(m2, BestScores);
    SubscriptSpec(m3, AttentionWeightsAverage);
  }

  /** One history row per list, from a decoder step's outputs. */
  function Record<F>(h: History<F>, stepOutputMap: TensorMap<Scalar<F>>): History<F>
  {
    History(h.tokens + [Lookup(stepOutputMap, BestTokensIndices).data],
            h.scores + [Lookup(stepOutputMap, BestScores).data],
            h.prevIndices + [Lookup(stepOutputMap, PrevHyposIndices).data],
            h.attentionWeights + [Rows2D(Lookup(stepOutputMap, AttentionWeightsAverage))])
  }

  /** `h` has `rows` rows in each list, the first of which is the placeholder row. */
  ghost predicate ShapedHistory<F>(h: History<F>, rows: nat, beamSize: nat, sourceLength: nat, zeroScore: F)
  {
    && |h.tokens| == |h.scores| == |h.prevIndices| == |h.attentionWeights| == rows > 0
    && h.tokens[0] == h.prevIndices[0] == Fill(beamSize, Int(0))
    && h.scores[0] == Fill(beamSize, Float(zeroScore))
    && h.attentionWeights[0] == Fill(beamSize, Fill(sourceLength, Float(zeroScore)))
  }

  // ------------------------------------------------------------ the search

  /** What the loop carries: the (possibly broadcast) encoder outputs, the next step's inputs, the history. */
  datatype SearchState<F> = SearchState(
    encoderOutputMap: TensorMap<Scalar<F>>, stepInputMap: TensorMap<Scalar<F>>, history: History<F>)


  /**
   * The broadcast of the first iteration is defined wherever it runs: once the
   * decoder has accepted the inputs in `s`, the encoder's output names are
   * distinct and each listed `encoder_output_N` is a tensor the broadcast can
   * read: at least three dimensions and at least S·H elements.
   */
  predicate TilingDefined<F>(bs: BeamSearcher<F>, s: SearchState<F>)
  {
    bs.decoderStep.run(s.stepInputMap).Some? ==>
      Distinct(bs.encoder.outputNames) && EncoderOutputsTileable(bs.encoder.outputNames, s.encoderOutputMap)
  }

  /** Before the loop: run the encoder, build the first step's inputs, start the history. */
  function Start<F>(bs: BeamSearcher<F>, numberizedInput: seq<int>, reverseSource: bool)
    : (r: Result<SearchState<F>, Error>)
    ensures r.Ok? ==> bs.encoder.run(EncoderInputMap(numberizedInput, reverseSource)) == Some(r.value.encoderOutputMap)
  {
    match bs.encoder.run(EncoderInputMap(numberizedInput, reverseSource))
    case None => Err(EncoderFailure)
    case Some(encoderOutputMap) =>
      match PrepareInitialNextInputStepMap(bs.encoder.outputNames, encoderOutputMap, bs.eosId, bs.zeroScore)
      case Err(e) => Err(e)
      case Ok(stepInputMap) =>
        Ok(SearchState(encoderOutputMap, stepInputMap,
                       PlaceholderHistory(bs.beamSize, |numberizedInput|, bs.zeroScore)))
  }

  /** The broadcast is defined wherever it runs, for a search that gets past its start. */
  predicate EncoderConforms<F>(bs: BeamSearcher<F>, numberizedInput: seq<int>, reverseSource: bool)
  {
    Start(bs, numberizedInput, reverseSource).Ok? ==> TilingDefined(bs, Start(bs, numberizedInput, reverseSource).value)
  }

  /** What a successful start leaves: the encoder's outputs, the initial step inputs and the placeholder rows. */
  lemma StartOk<F>(bs: BeamSearcher<F>, numberizedInput: seq<int>, reverseSource: bool)
    requires Start(bs, numberizedInput, reverseSource).Ok?
    ensures bs.encoder.run(EncoderInputMap(numberizedInput, reverseSource)).Some?
    ensures var encoderOutputMap := bs.encoder.run(EncoderInputMap(numberizedInput, reverseSource)).value;
      var s := Start(bs, numberizedInput, reverseSource).value;
      && s.encoderOutputMap == encoderOutputMap
      && PrepareInitialNextInputStepMap(bs.encoder.outputNames, encoderOutputMap, bs.eosId, bs.zeroScore)
         == Ok(s.stepInputMap)
      && s.history == PlaceholderHistory(bs.beamSize, |numberizedInput|, bs.zeroScore)
  {
  }

  /** Loop iteration `decoderStep`: run the decoder, record its outputs, build the next inputs. */
  function Step<F>(bs: BeamSearcher<F>, s: SearchState<F>, decoderStep: int): Result<SearchState<F>, Error>
    requires decoderStep == 0 ==>
      TilingDefined(bs, s)
  {
    match bs.decoderStep.run(s.stepInputMap)
    case None => Err(DecoderStepFailure(decoderStep))
    case Some(stepOutputMap) =>
      var read := ReadStepOutputs(stepOutputMap);
      var encoderOutputMap := NextEncoderOutputMap(bs.encoder.outputNames, s.encoderOutputMap, decoderStep + 1, bs.beamSize);
      match NextInputStepMap(bs.encoder.outputNames, bs.decoderStep.outputNames, encoderOutputMap, read, decoderStep + 1)
      case Err(e) => Err(e)
      case Ok(stepInputMap) => Ok(SearchState(encoderOutputMap, stepInputMap, Record(s.history, stepOutputMap)))
  }

  /**
   * The loop run `k` times from `start`: iteration `d` is `Step(_, _, d)`,
   * and the first failure ends the run.
   */
  function Run<F>(bs: BeamSearcher<F>, start: SearchState<F>, k: nat): Result<SearchState<F>, Error>
    requires k > 0 ==>
      TilingDefined(bs, start)
    decreases k, 0
  {
    if k == 0 then Ok(start) else Next(bs, start, k - 1)
  }

  /** The outcome of iteration `d`: a failure before it persists, otherwise `Step` applied to the state after `d` iterations. */
  function Next<F>(bs: BeamSearcher<F>, start: SearchState<F>, d: nat): Result<SearchState<F>, Error>
    requires TilingDefined(bs, start)
    decreases d, 1
  {
    match Run(bs, start, d)
    case Err(e) => Err(e)
    case Ok(s) => Step(bs, s, d)
  }

  /** The state after `k` loop iterations, or the error that ended the search. */
  function StateAfter<F>(bs: BeamSearcher<F>, numberizedInput: seq<int>, reverseSource: bool, k: nat)
    : Result<SearchState<F>, Error>
    requires k > 0 ==> EncoderConforms(bs, numberizedInput, reverseSource)
  {
    match Start(bs, numberizedInput, reverseSource)
    case Err(e) => Err(e)
    case Ok(start) => Run(bs, start, k)
  }

  /** How many times the loop `for (decoderStep = 0; decoderStep <= maxOutputSeqLen; ...)` runs. */
  function Invocations(maxOutputSeqLen: int): nat
  {
    if maxOutputSeqLen < 0 then 0 else maxOutputSeqLen + 1
  }

  /** A successful state after `k > 0` iterations is one iteration past a successful earlier state. */
  lemma StateAfterUnfold<F>(bs: BeamSearcher<F>, numberizedInput: seq<int>, reverseSource: bool, k: nat)
    requires k > 0 && EncoderConforms(bs, numberizedInput, reverseSource)
    requires StateAfter(bs, numberizedInput, reverseSource, k).Ok?
    ensures StateAfter(bs, numberizedInput, reverseSource, k - 1).Ok?
    ensures StateAfter(bs, numberizedInput, reverseSource, k)
         == Step(bs, StateAfter(bs, numberizedInput, reverseSource, k - 1).value, k - 1)
  {
    StartOk(bs, numberizedInput, reverseSource);
    RunNext(bs, Start(bs, numberizedInput, reverseSource).value, k - 1);
  }

  /** What a successful iteration leaves: the recorded row, the broadcast map and the built inputs. */
  lemma StepOk<F>(bs: BeamSearcher<F>, s: SearchState<F>, decoderStep: int)
    requires decoderStep == 0 ==>
      TilingDefined(bs, s)
    requires Step(bs, s, decoderStep).Ok?
    ensures bs.decoderStep.run(s.stepInputMap).Some?
    ensures var out := bs.decoderStep.run(s.stepInputMap).value;
      var next := Step(bs, s, decoderStep).value;
      && next.history == Record(s.history, out)
      && next.encoderOutputMap
         == NextEncoderOutputMap(bs.encoder.outputNames, s.encoderOutputMap, decoderStep + 1, bs.beamSize)
      && NextInputStepMap(bs.encoder.outputNames, bs.decoderStep.outputNames, next.encoderOutputMap,
           ReadStepOutputs(out), decoderStep + 1) == Ok(next.stepInputMap)
  {
  }

  /** Iteration `k - 1` appended one row to each history list. */
  lemma HistoryStep<F>(bs: BeamSearcher<F>, numberizedInput: seq<int>, reverseSource: bool, k: nat)
    requires k > 0 && EncoderConforms(bs, numberizedInput, reverseSource)
    requires StateAfter(bs, numberizedInput, reverseSource, k).Ok?
    ensures StateAfter(bs, numberizedInput, reverseSource, k - 1).Ok?
    ensures bs.decoderStep.run(StateAfter(bs, numberizedInput, reverseSource, k - 1).value.stepInputMap).Some?
    ensures StateAfter(bs, numberizedInput, reverseSource, k).value.history
         == Record(StateAfter(bs, numberizedInput, reverseSource, k - 1).value.history,
                   bs.decoderStep.run(StateAfter(bs, numberizedInput, reverseSource, k - 1).value.stepInputMap).value)
  {
    StateAfterUnfold(bs, numberizedInput, reverseSource, k);
    var prev := StateAfter(bs, numberizedInput, reverseSource, k - 1).value;
    if k == 1 {
      StartOk(bs, numberizedInput, reverseSource);
    }
    StepOk(bs, prev, k - 1);
  }

  /** The result of `beamSearch`, or the exception it throws. */
  function BeamSearchResult<F>(bs: BeamSearcher<F>, numberizedInput: seq<int>, maxOutputSeqLen: int, reverseSource: bool)
    : Result<BeamSearchOutput<F>, Error>
    requires maxOutputSeqLen >= 0 ==> EncoderConforms(bs, numberizedInput, reverseSource)
  {
    match StateAfter(bs, numberizedInput, reverseSource, Invocations(maxOutputSeqLen))
    case Err(e) => Err(e)
    case Ok(s) => Ok(BeamSearchOutput(maxOutputSeqLen, s.history))
  }

  /** One more iteration keeps a failure and applies the loop body to a success. */
  lemma RunNext<F>(bs: BeamSearcher<F>, start: SearchState<F>, k: nat)
    requires TilingDefined(bs, start)
    ensures Run(bs, start, k).Err? ==> Run(bs, start, k + 1) == Run(bs, start, k)
    ensures Run(bs, start, k).Ok? ==> Run(bs, start, k + 1) == Step(bs, Run(bs, start, k).value, k)
  {
  }

  /** Once the loop has failed, further iterations keep that failure. */
  lemma {:induction false} ErrPersists<F>(bs: BeamSearcher<F>, start: SearchState<F>, k: nat, m: nat)
    requires k <= m
    requires m > 0 ==>
      TilingDefined(bs, start)
    requires Run(bs, start, k).Err?
    ensures Run(bs, start, m) == Run(bs, start, k)
    decreases m - k
  {
    if k < m {
      RunNext(bs, start, k);
      ErrPersists(bs, start, k + 1, m);
    }
  }

  /** Every list keeps the rows it had and gains one row per successful iteration. */
  lemma {:induction false} RunHistory<F>(bs: BeamSearcher<F>, start: SearchState<F>, k: nat)
    requires k > 0 ==>
      TilingDefined(bs, start)
    requires Run(bs, start, k).Ok?
    ensures var h := Run(bs, start, k).value.history;
      && |h.tokens| == |start.history.tokens| + k && start.history.tokens <= h.tokens
      && |h.scores| == |start.history.scores| + k && start.history.scores <= h.scores
      && |h.prevIndices| == |start.history.prevIndices| + k && start.history.prevIndices <= h.prevIndices
      && |h.attentionWeights| == |start.history.attentionWeights| + k
      && start.history.attentionWeights <= h.attentionWeights
  {
    if k > 0 {
      RunNext(bs, start, k - 1);
      RunHistory(bs, start, k - 1);
      StepOk(bs, Run(bs, start, k - 1).value, k - 1);
    }
  }

  /** After `k` iterations every list has `k + 1` rows, the placeholder row first. */
  lemma StateAfterShape<F>(bs: BeamSearcher<F>, numberizedInput: seq<int>, reverseSource: bool, k: nat)
    requires k > 0 ==> EncoderConforms(bs, numberizedInput, reverseSource)
    requires StateAfter(bs, numberizedInput, reverseSource, k).Ok?
    ensures ShapedHistory(StateAfter(bs, numberizedInput, reverseSource, k).value.history, k + 1,
                          bs.beamSize, |numberizedInput|, bs.zeroScore)
  {
    StartOk(bs, numberizedInput, reverseSource);
    var start := Start(bs, numberizedInput, reverseSource).value;
    RunHistory(bs, start, k);
    var h := StateAfter(bs, numberizedInput, reverseSource, k).value.history;
    assert h.tokens[0] == start.history.tokens[0];
    assert h.scores[0] == start.history.scores[0];
    assert h.prevIndices[0] == start.history.prevIndices[0];
    assert h.attentionWeights[0] == start.history.attentionWeights[0];
  }

  /** Lines 84-97 of the loop body: the four reads of the step's outputs, each appended to its list. */
  method RecordStepOutputs<F>(
    stepOutputMap: TensorMap<Scalar<F>>, tokenBeamList: seq<seq<Scalar<F>>>, scoreBeamList: seq<seq<Scalar<F>>>,
    prevIndexBeamList: seq<seq<Scalar<F>>>, attentionWeightsBeamList: seq<seq<seq<Scalar<F>>>>)
    returns (read: TensorMap<Scalar<F>>, tokens: seq<seq<Scalar<F>>>, scores: seq<seq<Scalar<F>>>,
             prevIndices: seq<seq<Scalar<F>>>, attentionWeights: seq<seq<seq<Scalar<F>>>>)
    ensures read == ReadStepOutputs(stepOutputMap)
    ensures History(tokens, scores, prevIndices, attentionWeights)
         == Record(History(tokenBeamList, scoreBeamList, prevIndexBeamList, attentionWeightsBeamList), stepOutputMap)
  {
    SubscriptSpec(stepOutputMap, BestTokensIndices);
    read := Subscript(stepOutputMap, BestTokensIndices);
    tokens := tokenBeamList + [read[BestTokensIndices].data];
    SubscriptSpec(read, PrevHyposIndices);
    read := Subscript(read, PrevHyposIndices);
    prevIndices := prevIndexBeamList + [read[PrevHyposIndices].data];
    SubscriptSpec(read, BestScores);
    read := Subscript(read, BestScores);
    scores := scoreBeamList + [read[BestScores].data];
    SubscriptSpec(read, AttentionWeightsAverage);
    read := Subscript(read, AttentionWeightsAverage);
    attentionWeights := attentionWeightsBeamList + [Rows2D(read[AttentionWeightsAverage])];
  }

  /**
   * Lines 33-78 of `beamSearch`: the placeholder rows, the source tensor,
   * the encoder run and the first step's inputs.
   */
  method StartSearch<F>(bs: BeamSearcher<F>, numberizedInput: seq<int>, reverseSource: bool)
    returns (start: Result<SearchState<F>, Error>)
    ensures start == Start(bs, numberizedInput, reverseSource)
  {
    var placeholder := PlaceholderHistory(bs.beamSize, |numberizedInput|, bs.zeroScore);
    var inputTensor := BuildSourceTensor(numberizedInput, reverseSource);
    var inputMap := map[EncoderInputs := inputTensor, EncoderLengths := Vector(Int(|numberizedInput|))];
    var encoderResult := bs.encoder.run(inputMap);
    if encoderResult.None? {
      return Err(EncoderFailure);
    }
    var encoderOutputMap := encoderResult.value;
    var initial := PrepareInitialNextInputStepMap(bs.encoder.outputNames, encoderOutputMap, bs.eosId, bs.zeroScore);
    if initial.Err? {
      return Err(initial.error);
    }
    start := Ok(SearchState(encoderOutputMap, initial.value, placeholder));
  }

  /**
   * One pass of the loop body (lines 81-104): run the decoder step, append
   * its outputs to the four lists, then build the next inputs.
   */
  method SearchStep<F>(bs: BeamSearcher<F>, s: SearchState<F>, decoderStep: int)
    returns (next: Result<SearchState<F>, Error>)
    requires decoderStep == 0 ==>
      TilingDefined(bs, s)
    ensures next == Step(bs, s, decoderStep)
  {
    var stepResult := bs.decoderStep.run(s.stepInputMap);
    if stepResult.None? {
      return Err(DecoderStepFailure(decoderStep));
    }
    var stepOutputMap := stepResult.value;
    var read, tokenBeamList, scoreBeamList, prevIndexBeamList, attentionWeightsBeamList :=
      RecordStepOutputs(stepOutputMap, s.history.tokens, s.history.scores, s.history.prevIndices,
                        s.history.attentionWeights);
    var encoderOutputMap, stepInputMap := PrepareNextInputStepMap(
      bs.encoder.outputNames, bs.decoderStep.outputNames, s.encoderOutputMap, read,
      decoderStep + 1, bs.beamSize);
    if stepInputMap.Err? {
      return Err(stepInputMap.error);
    }
    next := Ok(SearchState(encoderOutputMap, stepInputMap.value,
                           History(tokenBeamList, scoreBeamList, prevIndexBeamList, attentionWeightsBeamList)));
  }

  /** One pass of the loop body from the state after `k` successful passes gives the state after `k + 1`. */
  method LoopStep<F>(bs: BeamSearcher<F>, ghost start: SearchState<F>, s: SearchState<F>, k: nat)
    returns (next: Result<SearchState<F>, Error>)
    requires TilingDefined(bs, start)
    requires Run(bs, start, k) == Ok(s)
    requires k == 0 ==> s == start
    ensures next == Run(bs, start, k + 1)
  {
    next := SearchStep(bs, s, k);
    RunNext(bs, start, k);
  }

  /**
   * The decoding loop (lines 80-105): `for (decoderStep = 0; decoderStep <=
   * maxOutputSeqLen; ++decoderStep)`, leaving at the first failure.
   */
  method SearchLoop<F>(bs: BeamSearcher<F>, start: SearchState<F>, maxOutputSeqLen: int)
    returns (result: Result<SearchState<F>, Error>)
    requires maxOutputSeqLen >= 0 ==>
      TilingDefined(bs, start)
    ensures result == Run(bs, start, Invocations(maxOutputSeqLen))
  {
    result := Ok(start);
    var decoderStep := 0;
    while decoderStep <= maxOutputSeqLen && result.Ok?
      invariant 0 <= decoderStep <= Invocations(maxOutputSeqLen)
      invariant decoderStep == 0 ==> result == Ok(start)
      invariant result == Run(bs, start, decoderStep)
      decreases maxOutputSeqLen - decoderStep
    {
      result := LoopStep(bs, start, result.value, decoderStep);
      decoderStep := decoderStep + 1;
    }
    if result.Err? {
      ErrPersists(bs, start, decoderStep, Invocations(maxOutputSeqLen));
    }
  }

  /** `beamSearch`: start, run the loop, and report the four lists. */
  method BeamSearch<F>(bs: BeamSearcher<F>, numberizedInput: seq<int>, maxOutputSeqLen: int, reverseSource: bool)
    returns (output: Result<BeamSearchOutput<F>, Error>)
    requires maxOutputSeqLen >= 0 ==> EncoderConforms(bs, numberizedInput, reverseSource)
    ensures output == BeamSearchResult(bs, numberizedInput, maxOutputSeqLen, reverseSource)
  {
    var start := StartSearch(bs, numberizedInput, reverseSource);
    if start.Err? {
      return Err(start.error);
    }
    var result := SearchLoop(bs, start.value, maxOutputSeqLen);
    if result.Err? {
      return Err(result.error);
    }
    output := Ok(BeamSearchOutput(maxOutputSeqLen, result.value.history));
  }

  // ------------------------------------------------------------ properties

  /** Decoder invocation `d` is fed `timestep` = [d]. */
  lemma TimestepFed<F>(bs: BeamSearcher<F>, numberizedInput: seq<int>, reverseSource: bool, d: nat)
    requires d > 0 ==> EncoderConforms(bs, numberizedInput, reverseSource)
    requires StateAfter(bs, numberizedInput, reverseSource, d).Ok?
    ensures var m := StateAfter(bs, numberizedInput, reverseSource, d).value.stepInputMap;
      Timestep in m && m[Timestep] == Vector(Int(d))
  {
    if d > 0 {
      StateAfterUnfold(bs, numberizedInput, reverseSource, d);
    }
  }

  /** The first decoder invocation sees the end-of-sentence token and a zero score as its previous ones. */
  lemma FirstStepInputs<F>(bs: BeamSearcher<F>, numberizedInput: seq<int>, reverseSource: bool)
    requires Start(bs, numberizedInput, reverseSource).Ok?
    ensures var m := Start(bs, numberizedInput, reverseSource).value.stepInputMap;
      m[PrevTokens] == Vector(Int(bs.eosId)) && m[PrevScores] == Vector(Float(bs.zeroScore))
  {
  }

  /**
   * Row `d + 1` of every list holds what decoder invocation `d` produced
   * (in the model, an empty row for an output the step did not give).
   */
  lemma {:induction false} HistoryRows<F>(
    bs: BeamSearcher<F>, numberizedInput: seq<int>, reverseSource: bool, k: nat, d: nat)
    requires k > 0 ==> EncoderConforms(bs, numberizedInput, reverseSource)
    requires StateAfter(bs, numberizedInput, reverseSource, k).Ok?
    requires d < k
    ensures StateAfter(bs, numberizedInput, reverseSource, d).Ok?
    ensures bs.decoderStep.run(StateAfter(bs, numberizedInput, reverseSource, d).value.stepInputMap).Some?
    ensures var out := bs.decoderStep.run(StateAfter(bs, numberizedInput, reverseSource, d).value.stepInputMap).value;
      var h := StateAfter(bs, numberizedInput, reverseSource, k).value.history;
      && d + 1 < |h.tokens| && d + 1 < |h.scores| && d + 1 < |h.prevIndices| && d + 1 < |h.attentionWeights|
      && h.tokens[d + 1] == Lookup(out, BestTokensIndices).data
      && h.scores[d + 1] == Lookup(out, BestScores).data
      && h.prevIndices[d + 1] == Lookup(out, PrevHyposIndices).data
      && h.attentionWeights[d + 1] == Rows2D(Lookup(out, AttentionWeightsAverage))
  {
    StateAfterShape(bs, numberizedInput, reverseSource, k);
    HistoryStep(bs, numberizedInput, reverseSource, k);
    if d < k - 1 {
      HistoryRows(bs, numberizedInput, reverseSource, k - 1, d);
    }
  }

  /** The tokens and scores the next invocation is fed are the row just recorded. */
  lemma TokensFedBack<F>(bs: BeamSearcher<F>, numberizedInput: seq<int>, reverseSource: bool, k: nat)
    requires k > 0 && EncoderConforms(bs, numberizedInput, reverseSource)
    requires StateAfter(bs, numberizedInput, reverseSource, k).Ok?
    ensures var s := StateAfter(bs, numberizedInput, reverseSource, k).value;
      && k < |s.history.tokens| && k < |s.history.scores|
      && PrevTokens in s.stepInputMap && PrevScores in s.stepInputMap
      && s.stepInputMap[PrevTokens].data == s.history.tokens[k]
      && s.stepInputMap[PrevScores].data == s.history.scores[k]
  {
    StateAfterShape(bs, numberizedInput, reverseSource, k);
    HistoryStep(bs, numberizedInput, reverseSource, k);
    StateAfterUnfold(bs, numberizedInput, reverseSource, k);
    if k == 1 {
      StartOk(bs, numberizedInput, reverseSource);
    }
    StepOk(bs, StateAfter(bs, numberizedInput, reverseSource, k - 1).value, k - 1);
  }

  /**
   * State continuity: the `state_input_N` that invocation `k` is fed is the
   * `state_output_N` invocation `k - 1` produced (its last binder, when a
   * name repeats), and that output was really there.
   */
  lemma StateFedBack<F>(bs: BeamSearcher<F>, numberizedInput: seq<int>, reverseSource: bool, k: nat, i: nat)
    requires k > 0 && EncoderConforms(bs, numberizedInput, reverseSource)
    requires StateAfter(bs, numberizedInput, reverseSource, k).Ok?
    requires LastBinder(NextStepAction, bs.decoderStep.outputNames, i)
    ensures StateAfter(bs, numberizedInput, reverseSource, k - 1).Ok?
    ensures bs.decoderStep.run(StateAfter(bs, numberizedInput, reverseSource, k - 1).value.stepInputMap).Some?
    ensures var out := bs.decoderStep.run(StateAfter(bs, numberizedInput, reverseSource, k - 1).value.stepInputMap).value;
      var name := bs.decoderStep.outputNames[i];
      var m := StateAfter(bs, numberizedInput, reverseSource, k).value.stepInputMap;
      && name in out
      && NextStepAction(name).key in m
      && m[NextStepAction(name).key] == out[name]
  {
    StateAfterUnfold(bs, numberizedInput, reverseSource, k);
    var prev := StateAfter(bs, numberizedInput, reverseSource, k - 1).value;
    if k == 1 {
      StartOk(bs, numberizedInput, reverseSource);
    }
    StepOk(bs, prev, k - 1);
    var out := bs.decoderStep.run(prev.stepInputMap).value;
    var next := Step(bs, prev, k - 1).value;
    ReadStepOutputsSpec(out);
    ReadNamesNotState();
    NextStepMapSpec(bs.encoder.outputNames, bs.decoderStep.outputNames, next.encoderOutputMap,
                    ReadStepOutputs(out), k);
  }

  /**
   * From invocation 1 on, the `fixed_input_N` fed to the decoder is the
   * encoder's `encoder_output_N` broadcast to the beam width.
   */
  lemma FixedInputFed<F>(bs: BeamSearcher<F>, numberizedInput: seq<int>, reverseSource: bool, k: nat, i: nat)
    requires k > 0 && EncoderConforms(bs, numberizedInput, reverseSource)
    requires StateAfter(bs, numberizedInput, reverseSource, k).Ok?
    requires LastBinder(NextEncoderAction, bs.encoder.outputNames, i)
    requires IsEncoderOutputName(bs.encoder.outputNames[i])
    ensures bs.encoder.run(EncoderInputMap(numberizedInput, reverseSource)).Some?
    ensures var encoderOutputMap := bs.encoder.run(EncoderInputMap(numberizedInput, reverseSource)).value;
      var name := bs.encoder.outputNames[i];
      var m := StateAfter(bs, numberizedInput, reverseSource, k).value.stepInputMap;
      && name in encoderOutputMap && Tileable(encoderOutputMap[name])
      && NextEncoderAction(name).key in m
      && m[NextEncoderAction(name).key] == Tile(encoderOutputMap[name], bs.beamSize)
  {
    EncoderTiledOnce(bs, numberizedInput, reverseSource, k);
    var encoderOutputMap := bs.encoder.run(EncoderInputMap(numberizedInput, reverseSource)).value;
    NextEncoderMapSpec(bs.encoder.outputNames, encoderOutputMap, 1, bs.beamSize);
    StateAfterUnfold(bs, numberizedInput, reverseSource, k);
    var prev := StateAfter(bs, numberizedInput, reverseSource, k - 1).value;
    if k == 1 {
      StartOk(bs, numberizedInput, reverseSource);
    }
    StepOk(bs, prev, k - 1);
    var out := bs.decoderStep.run(prev.stepInputMap).value;
    var next := Step(bs, prev, k - 1).value;
    NextStepMapSpec(bs.encoder.outputNames, bs.decoderStep.outputNames, next.encoderOutputMap,
                    ReadStepOutputs(out), k);
  }

  /**
   * A search that gets through its first iteration has a broadcastable
   * encoder output: distinct names and, under every listed `encoder_output_N`,
   * a tensor the broadcast can read (at least three dimensions and at least
   * S·H elements).
   */
  lemma {:induction false} FirstStepTiles<F>(bs: BeamSearcher<F>, numberizedInput: seq<int>, reverseSource: bool, k: nat)
    requires k > 0 && EncoderConforms(bs, numberizedInput, reverseSource)
    requires StateAfter(bs, numberizedInput, reverseSource, k).Ok?
    ensures bs.encoder.run(EncoderInputMap(numberizedInput, reverseSource)).Some?
    ensures Distinct(bs.encoder.outputNames)
    ensures EncoderOutputsTileable(bs.encoder.outputNames,
                                   bs.encoder.run(EncoderInputMap(numberizedInput, reverseSource)).value)
  {
    StateAfterUnfold(bs, numberizedInput, reverseSource, k);
    if k == 1 {
      StartOk(bs, numberizedInput, reverseSource);
      StepOk(bs, StateAfter(bs, numberizedInput, reverseSource, 0).value, 0);
    } else {
      FirstStepTiles(bs, numberizedInput, reverseSource, k - 1);
    }
  }

  /**
   * The encoder outputs are broadcast once, after the first invocation, and
   * stay so: from then on the map is the encoder's output with every
   * `encoder_output_N` tiled to the beam width.
   */
  lemma {:induction false} EncoderTiledOnce<F>(bs: BeamSearcher<F>, numberizedInput: seq<int>, reverseSource: bool, k: nat)
    requires k > 0 && EncoderConforms(bs, numberizedInput, reverseSource)
    requires StateAfter(bs, numberizedInput, reverseSource, k).Ok?
    ensures bs.encoder.run(EncoderInputMap(numberizedInput, reverseSource)).Some?
    ensures EncoderOutputsTileable(bs.encoder.outputNames,
                                   bs.encoder.run(EncoderInputMap(numberizedInput, reverseSource)).value)
    ensures var encoderOutputMap := bs.encoder.run(EncoderInputMap(numberizedInput, reverseSource)).value;
      StateAfter(bs, numberizedInput, reverseSource, k).value.encoderOutputMap
        == NextEncoderOutputMap(bs.encoder.outputNames, encoderOutputMap, 1, bs.beamSize)
  {
    FirstStepTiles(bs, numberizedInput, reverseSource, k);
    StateAfterUnfold(bs, numberizedInput, reverseSource, k);
    var prev := StateAfter(bs, numberizedInput, reverseSource, k - 1).value;
    StepOk(bs, prev, k - 1);
    if k == 1 {
      StartOk(bs, numberizedInput, reverseSource);
    } else {
      EncoderTiledOnce(bs, numberizedInput, reverseSource, k - 1);
      var encoderOutputMap := bs.encoder.run(EncoderInputMap(numberizedInput, reverseSource)).value;
      NextEncoderMapSpec(bs.encoder.outputNames, encoderOutputMap, 1, bs.beamSize);
      NextEncoderMapSpec(bs.encoder.outputNames, prev.encoderOutputMap, k, bs.beamSize);
    }
  }

  lemma DigitFreeNotState(name: string)
    requires forall i | 0 <= i < |name| :: !IsDigit(name[i])
    ensures NextStepAction(name) == Skip
  {
    SearchNeedsDigit(name, StateOutputPrefix);
  }

  /** The four step outputs the loop reads carry no digits. */
  lemma ReadNamesDigitFree()
    ensures forall i | 0 <= i < |BestTokensIndices| :: !IsDigit(BestTokensIndices[i])
    ensures forall i | 0 <= i < |BestScores| :: !IsDigit(BestScores[i])
    ensures forall i | 0 <= i < |PrevHyposIndices| :: !IsDigit(PrevHyposIndices[i])
    ensures forall i | 0 <= i < |AttentionWeightsAverage| :: !IsDigit(AttentionWeightsAverage[i])
  {
  }

  /** None of the four step outputs the loop reads is a `state_output_N` name. */
  lemma ReadNamesNotState()
    ensures NextStepAction(BestTokensIndices) == Skip
    ensures NextStepAction(BestScores) == Skip
    ensures NextStepAction(PrevHyposIndices) == Skip
    ensures NextStepAction(AttentionWeightsAverage) == Skip
  {
    ReadNamesDigitFree();
    DigitFreeNotState(BestTokensIndices);
    DigitFreeNotState(BestScores);
    DigitFreeNotState(PrevHyposIndices);
    DigitFreeNotState(AttentionWeightsAverage);
  }

  /**
   * A loop iteration fails exactly when the decoder fails or one of its
   * listed `state_output_N` outputs is missing. The `.at` reads of
   * `best_tokens_indices` and `best_scores` in the next-step builder cannot
   * fail: the history reads insert an empty tensor first. That the history
   * reads themselves accept such a tensor is an assumption of the model,
   * which takes a tensor's elements as its flat data.
   */
  lemma StepFails<F>(bs: BeamSearcher<F>, s: SearchState<F>, decoderStep: int)
    requires decoderStep == 0 ==>
      TilingDefined(bs, s)
    ensures Step(bs, s, decoderStep).Err? <==>
      || bs.decoderStep.run(s.stepInputMap).None?
      || !StatesPresent(bs.decoderStep.outputNames, bs.decoderStep.run(s.stepInputMap).value)
    ensures bs.decoderStep.run(s.stepInputMap).None? ==> Step(bs, s, decoderStep) == Err(DecoderStepFailure(decoderStep))
  {
    if bs.decoderStep.run(s.stepInputMap).Some? {
      var out := bs.decoderStep.run(s.stepInputMap).value;
      var read := ReadStepOutputs(out);
      var encoderOutputMap := NextEncoderOutputMap(bs.encoder.outputNames, s.encoderOutputMap, decoderStep + 1, bs.beamSize);
      ReadStepOutputsSpec(out);
      NextStepMapSpec(bs.encoder.outputNames, bs.decoderStep.outputNames, encoderOutputMap, read, decoderStep + 1);
      ReadNamesNotState();
      forall n | NextStepAction(n).Bind? ensures n in read <==> n in out {
      }
      assert StatesPresent(bs.decoderStep.outputNames, read) <==> StatesPresent(bs.decoderStep.outputNames, out);
    }
  }

  /**
   * A search that fails before the loop reports that failure whatever the
   * encoder produced: a failed encoder, an unrecognised output name or a
   * listed output the encoder did not give.
   */
  lemma StartFailureReported<F>(bs: BeamSearcher<F>, numberizedInput: seq<int>, maxOutputSeqLen: int, reverseSource: bool)
    requires Start(bs, numberizedInput, reverseSource).Err?
    ensures EncoderConforms(bs, numberizedInput, reverseSource)
    ensures BeamSearchResult(bs, numberizedInput, maxOutputSeqLen, reverseSource)
         == Err(Start(bs, numberizedInput, reverseSource).error)
  {
  }

  /**
   * A decoder that rejects the first inputs ends the search with a step-0
   * failure, before any broadcast, whatever shape the encoder outputs have.
   */
  lemma FirstDecoderFailure<F>(bs: BeamSearcher<F>, numberizedInput: seq<int>, maxOutputSeqLen: int, reverseSource: bool)
    requires maxOutputSeqLen >= 0
    requires Start(bs, numberizedInput, reverseSource).Ok?
    requires bs.decoderStep.run(Start(bs, numberizedInput, reverseSource).value.stepInputMap).None?
    ensures EncoderConforms(bs, numberizedInput, reverseSource)
    ensures BeamSearchResult(bs, numberizedInput, maxOutputSeqLen, reverseSource) == Err(DecoderStepFailure(0))
  {
    var start := Start(bs, numberizedInput, reverseSource).value;
    RunNext(bs, start, 0);
    ErrPersists(bs, start, 1, Invocations(maxOutputSeqLen));
  }

  /** A completed search reports the requested length and one row per invocation after the placeholder. */
  lemma OutputShape<F>(bs: BeamSearcher<F>, numberizedInput: seq<int>, maxOutputSeqLen: int, reverseSource: bool)
    requires maxOutputSeqLen >= 0 ==> EncoderConforms(bs, numberizedInput, reverseSource)
    requires BeamSearchResult(bs, numberizedInput, maxOutputSeqLen, reverseSource).Ok?
    ensures var out := BeamSearchResult(bs, numberizedInput, maxOutputSeqLen, reverseSource).value;
      && out.outputLength == maxOutputSeqLen
      && |out.history.tokens| == |out.history.scores| == |out.history.prevIndices| == |out.history.attentionWeights|
      && |out.history.tokens| == if maxOutputSeqLen < 0 then 1 else maxOutputSeqLen + 2
  {
    StateAfterShape(bs, numberizedInput, reverseSource, Invocations(maxOutputSeqLen));
  }
}
