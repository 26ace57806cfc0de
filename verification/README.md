# Batched beam search: the beam-state exchange

This project models `BatchedBeamSearch::beamSearch` of pytorch_translate's C++
decoder, together with its two input builders, and proves properties of the
model. The encoder and the decoder step are opaque predictors. The search
moves named tensors between them:

- It builds the source column `encoder_inputs` (n × 1, reversed on request)
  and `encoder_lengths = [n]`, then runs the encoder.
- It routes the encoder outputs into the first step's inputs:
  - `encoder_output_N` becomes `fixed_input_N`;
  - `initial_state_N` becomes `state_input_N`;
  - `possible_translation_tokens` keeps its name;
  - any other name is refused, and the error carries the name.
- It adds `timestep = [0]`, `prev_tokens = [eos]` and `prev_scores = [0]`.
- It runs the decoder step `maxOutputSeqLen + 1` times. After each run it:
  - appends the step's `best_tokens_indices`, `best_scores`, `prev_hypos_indices` and `attention_weights_average` to four history lists, which start with a placeholder row;
  - after the first run only, broadcasts every `encoder_output_N` tensor in place from shape (S, 1, H) to (S, B, H);
  - builds the next inputs: `fixed_input_N` and `possible_translation_tokens` from the encoder map, `state_input_N` from the step's `state_output_N` only, `timestep = [t]`, and the step's best tokens and scores as `prev_tokens` and `prev_scores`.

The model has these parts:

| module | file | what it holds |
|---|---|---|
| `Tensors` | `tensors.dfy` | Tensors as shape plus flat data. Maps from names to tensors. `Lookup` and `Subscript` model `operator[]`, which inserts a default tensor for a missing key; `.at` becomes an error value. |
| `TensorNames` | `names.dfy` | `std::regex_search` for `<prefix>([0-9]+)`: the leftmost match, capturing the maximal digit run. |
| `Routing` | `routing.dfy` | Each builder's rule per name (bind to a key, skip, or refuse). One fold over a name list covers all three routing loops. |
| `Tiling` | `tiling.dfy` | The broadcast. `TileTensor` fills an array with the source's nested loops and `memcpy`, and is proved equal to the specification `Tile`. `TileEncoderOutputs` is the loop over output names. |
| `StepInputs` | `step_inputs.dfy` | `prepareInitialNextInputStepMap` and `prepareNextInputStepMap`. |
| `BatchedBeamSearch` | `beam_search.dfy` | The source tensor, one loop iteration (`Step`), the state after `k` iterations (`StateAfter`), and the `BeamSearch` method. The method is proved equal to `BeamSearchResult`, and the loop properties are proved about `StateAfter`. |

Exceptions become `Err` values: `UnrecognizedTensorName`, `MissingTensor`,
`EncoderFailure`, or `DecoderStepFailure(step)`. A failed `CAFFE_ENFORCE` on a
predictor call becomes one of the last two.

Behaviour worth noting:

- **A missing `best_tokens_indices` or `best_scores` does not make the
  next-step builder throw.** The loop reads all four step outputs with
  `operator[]` (lines 84-97). Those reads insert empty tensors, so the later
  `.at("best_tokens_indices")` and `.at("best_scores")` (lines 237-238)
  always succeed. The model takes `tensorToVector1D` and `tensorToVector2D`
  as the tensor's data, so there the history gets an empty row and the next
  step gets an empty `prev_tokens` or `prev_scores`. An iteration of the
  model then fails only when the decoder fails or a listed `state_output_N`
  is missing (`StepFails`). Whether the two conversions accept an empty
  tensor is not visible here; see "Left out".
- **The broadcast needs well-formed encoder outputs only when it runs.** It
  runs after a successful start and a successful first decoder invocation.
  A search that fails earlier reports that failure whatever the encoder
  produced (`StartFailureReported`, `FirstDecoderFailure`).
- **The initial `prev_tokens` and `prev_scores` have one element each**
  (lines 151-161), not one per beam slot.
- **The loop runs `maxOutputSeqLen + 1` times** (line 80). The history
  lists therefore end with `maxOutputSeqLen + 2` rows (`OutputShape`), and
  the next-step builder also runs after the last invocation, with timestep
  `maxOutputSeqLen + 1`, where it can still throw.
- **An empty input is accepted.** The source column is then 0 × 1.

## Model

| member | source | states |
|---|---|---|
| TensorNames.DigitRunSpec | pytorch_translate/cpp/BatchedBeamSearch.cpp:126-127 | The captured group is the longest all-digit prefix: it is a prefix, all digits, and the character after it is not a digit. |
| TensorNames.HasAtIndexed | pytorch_translate/cpp/BatchedBeamSearch.cpp:119-122 | The name holds the pattern's literal prefix at position `p` iff each prefix character equals the name's character at the same offset. |
| TensorNames.SearchFromSpec | pytorch_translate/cpp/BatchedBeamSearch.cpp:119-127 | A match exists iff `<prefix>` followed by a digit occurs at or after the start. On a match, the capture is the digit run at the leftmost such position. |
| TensorNames.SearchCapturesDigits | pytorch_translate/cpp/BatchedBeamSearch.cpp:119-127 | A captured group is a non-empty run of digits. |
| TensorNames.SearchWellFormed | pytorch_translate/cpp/BatchedBeamSearch.cpp:119-127 | `<prefix><digits>` matches and captures exactly those digits. |
| TensorNames.SearchMissesShortStem | pytorch_translate/cpp/BatchedBeamSearch.cpp:119-122 | A name shorter than the pattern's prefix, followed by digits, does not match when the prefix ends in a non-digit. |
| TensorNames.SearchNeedsDigit | pytorch_translate/cpp/BatchedBeamSearch.cpp:119-122 | A name without digits matches no `<prefix>([0-9]+)` pattern. |
| Tensors.SubscriptSpec | pytorch_translate/cpp/BatchedBeamSearch.cpp:84-97 | `m[k]` adds exactly key `k`, keeps every existing entry, and yields the old value or an empty tensor. A present key leaves the map unchanged. |
| Tensors.MulIsProduct | pytorch_translate/cpp/BatchedBeamSearch.cpp:202-203 | The index arithmetic `Mul` is integer multiplication. |
| Tensors.RowAtElement | pytorch_translate/cpp/BatchedBeamSearch.cpp:96-97 | Column `c` of row `i` of a rows × w matrix is flat element `i*w + c`. |
| Tensors.Rows2DShape | pytorch_translate/cpp/BatchedBeamSearch.cpp:96-97 | A rows × w matrix converts to `rows` rows of `w` elements each, and element `[i][c]` is flat element `i*w + c`. |
| Routing.RouteSucceeds | pytorch_translate/cpp/BatchedBeamSearch.cpp:125-143 | A routing loop succeeds iff every name is accepted: not refused and, for `.at` reads, present. |
| Routing.RouteKeys | pytorch_translate/cpp/BatchedBeamSearch.cpp:125-143 | The routed map's keys are the accumulator's keys plus exactly the keys the names bind to. |
| Routing.RouteKeeps | pytorch_translate/cpp/BatchedBeamSearch.cpp:215-229 | An entry no name rebinds passes through a routing loop unchanged. |
| Routing.RouteValues | pytorch_translate/cpp/BatchedBeamSearch.cpp:125-143 | Each key holds the tensor of the last name bound to it (a later assignment overwrites an earlier one). |
| Routing.RouteError | pytorch_translate/cpp/BatchedBeamSearch.cpp:136-142 | A failed loop reports the first refused name: unrecognised if no rule matches, missing if `.at` fails. |
| Routing.RouteUncheckedSucceeds | pytorch_translate/cpp/BatchedBeamSearch.cpp:215-223 | A loop that reads with `operator[]` and refuses nothing cannot fail. |
| Routing.EncoderOutputRouted | pytorch_translate/cpp/BatchedBeamSearch.cpp:126-128 | Both builders route `encoder_output_N` to `fixed_input_N`. |
| Routing.InitialStateRouted | pytorch_translate/cpp/BatchedBeamSearch.cpp:129-132 | `initial_state_N` feeds `state_input_N` at the first step only; the next-step builder skips it. |
| Routing.StateOutputRouted | pytorch_translate/cpp/BatchedBeamSearch.cpp:224-228 | `state_output_N` becomes `state_input_N` in the next-step builder. The initial builder refuses it. |
| Routing.TranslationTokensRouted | pytorch_translate/cpp/BatchedBeamSearch.cpp:133-135 | Both builders pass `possible_translation_tokens` under its own name. |
| Routing.UnknownNameRejected | pytorch_translate/cpp/BatchedBeamSearch.cpp:136-141 | A digit-free name other than `possible_translation_tokens` is refused initially and skipped afterwards. |
| Routing.NextEncoderKeys | pytorch_translate/cpp/BatchedBeamSearch.cpp:215-223 | Encoder-side keys of the next-step builder are `fixed_input_*` or `possible_translation_tokens`, never `state_input_*`. |
| Routing.NextStepKeys | pytorch_translate/cpp/BatchedBeamSearch.cpp:224-228 | Step-side keys are `state_input_*` and never encoder-side keys. |
| Routing.RoutedKeyNotScalar | pytorch_translate/cpp/BatchedBeamSearch.cpp:163-165 | No routed key collides with `timestep`, `prev_tokens` or `prev_scores`. |
| Tiling.RepeatLength | pytorch_translate/cpp/BatchedBeamSearch.cpp:200-209 | `B` copies of a row of `H` elements occupy `B * H` elements. |
| Tiling.TileRowsLength | pytorch_translate/cpp/BatchedBeamSearch.cpp:200-209 | The first `s` tiled source positions occupy `s * B * H` elements. |
| Tiling.RepeatAt | pytorch_translate/cpp/BatchedBeamSearch.cpp:201-207 | Copy `j` of a repeated row holds the row at offset `j * |row|`. |
| Tiling.TileRowsAt | pytorch_translate/cpp/BatchedBeamSearch.cpp:200-209 | Element `i*B*H + j*H + k` of the tiled rows exists and is element `i*H + k` of the source (offsets written with `Mul`). |
| Tiling.TileBlock | pytorch_translate/cpp/BatchedBeamSearch.cpp:202-207 | For one source position `i` and beam slot `j`, the `H` elements of `Tile(t, B)` at `tiledIndex = i*B*H + j*H` equal the `H` source elements at `untiledIndex = i*H`. |
| Tiling.TileFidelity | pytorch_translate/cpp/BatchedBeamSearch.cpp:200-209 | Broadcast fidelity: for every `i < S` and `j < B`, the block of `Tile(t, B).data` at `tiledIndex = i*B*H + j*H` is the source block at `untiledIndex = i*H`, exactly what each `memcpy` copies. |
| Tiling.TileShape | pytorch_translate/cpp/BatchedBeamSearch.cpp:194-196 | The broadcast has shape (S, B, H) and `S*B*H` elements. |
| Tiling.Memcpy | pytorch_translate/cpp/BatchedBeamSearch.cpp:204-207 | Copies `count` elements to the destination offset; the rest of the buffer is unchanged. |
| Tiling.TileTensor | pytorch_translate/cpp/BatchedBeamSearch.cpp:189-210 | The nested copy loops produce exactly `Tile(untiled, B)`. |
| Tiling.CopyAllPositions | pytorch_translate/cpp/BatchedBeamSearch.cpp:200-209 | After the outer loop the buffer holds the tiled rows of all `S` source positions. |
| Tiling.CopyToBeams | pytorch_translate/cpp/BatchedBeamSearch.cpp:201-208 | One pass of the inner loop appends B copies of source row `i` after the rows already filled, keeping them. |
| Tiling.CopyToSlot | pytorch_translate/cpp/BatchedBeamSearch.cpp:202-207 | One `memcpy` at `i*B*H + j*H` extends the filled prefix by one more copy of source row `i`. |
| Tiling.TiledMapSpec | pytorch_translate/cpp/BatchedBeamSearch.cpp:186-212 | The tiled map has the same keys. Each listed `encoder_output_N` holds the broadcast of its original tensor, and every other entry is unchanged. |
| Tiling.TiledMapStep | pytorch_translate/cpp/BatchedBeamSearch.cpp:186-212 | One name of the loop replaces only its own entry, with the tiled copy of its original tensor. |
| Tiling.TileEncoderOutputs | pytorch_translate/cpp/BatchedBeamSearch.cpp:183-213 | After the loop, every listed `encoder_output_N` entry is tiled and every other entry is unchanged. |
| StepInputs.InitialStepMapSpec | pytorch_translate/cpp/BatchedBeamSearch.cpp:116-168 | Succeeds iff every encoder output is accepted; otherwise fails with the first refused name. On success its keys are the routed keys plus `timestep`, `prev_tokens` and `prev_scores`, holding `[0]`, `[eos]` and `[0.0]`. Each routed key holds the encoder tensor of the last name bound to it. |
| StepInputs.WithDefaultsSpec | pytorch_translate/cpp/BatchedBeamSearch.cpp:215-223 | The `encoderOutputMap[name]` reads insert exactly the routed names that were missing, as empty tensors, and change no existing entry. With every routed name present the map is unchanged. |
| StepInputs.NextEncoderMapSpec | pytorch_translate/cpp/BatchedBeamSearch.cpp:183-223 | At timestep 1 each listed `encoder_output_N` is replaced by its broadcast and every other entry is kept. At other timesteps nothing changes. Only missing routed names are added, as empty tensors. |
| StepInputs.NextStepMapSpec | pytorch_translate/cpp/BatchedBeamSearch.cpp:215-240 | Fails iff a listed `state_output_N`, `best_tokens_indices` or `best_scores` is missing, with errors in that order. Its keys are the encoder-routed keys, the step-routed keys and the three scalars. `timestep = [t]`; `prev_tokens` and `prev_scores` are the step's best tokens and scores. Every `state_input_*` key comes from a step output, never from `initial_state_N`. |
| StepInputs.PrepareNextInputStepMap | pytorch_translate/cpp/BatchedBeamSearch.cpp:170-241 | Returns the updated encoder map `NextEncoderOutputMap` and the inputs `NextInputStepMap` built from it. |
| BatchedBeamSearch.Reversed | pytorch_translate/cpp/BatchedBeamSearch.cpp:51-55 | Same length, with element `i` taken from position `n-1-i`. |
| BatchedBeamSearch.ReversedMultiset | pytorch_translate/cpp/BatchedBeamSearch.cpp:51-55 | Reversing keeps the multiset of tokens. |
| BatchedBeamSearch.SourceTensorContents | pytorch_translate/cpp/BatchedBeamSearch.cpp:44-60 | The source tensor has shape (n, 1) and holds the input's tokens as a multiset. Element `i` is token `i`, or token `n-1-i` when reversing. |
| BatchedBeamSearch.BuildSourceTensor | pytorch_translate/cpp/BatchedBeamSearch.cpp:44-60 | The pointer-filling loops produce exactly `SourceTensor`. |
| BatchedBeamSearch.EncoderInputMap | pytorch_translate/cpp/BatchedBeamSearch.cpp:62-72 | The encoder gets exactly `encoder_inputs` and `encoder_lengths`, and the latter is `[n]`. |
| BatchedBeamSearch.ReadStepOutputsSpec | pytorch_translate/cpp/BatchedBeamSearch.cpp:84-97 | The four `operator[]` reads add exactly the four read names and keep every step output. |
| BatchedBeamSearch.Start | pytorch_translate/cpp/BatchedBeamSearch.cpp:74-78 | A successful start keeps the encoder's own output map. |
| BatchedBeamSearch.StartSearch | pytorch_translate/cpp/BatchedBeamSearch.cpp:44-78 | The method computes exactly `Start`: the source tensor, the encoder call and the initial builder. |
| BatchedBeamSearch.SearchStep | pytorch_translate/cpp/BatchedBeamSearch.cpp:81-104 | One loop body computes exactly `Step`: the decoder call, the four history rows, and the next-step builder. |
| BatchedBeamSearch.LoopStep | pytorch_translate/cpp/BatchedBeamSearch.cpp:80-104 | Running the loop body on the state after `k` iterations gives the state after `k + 1`. |
| BatchedBeamSearch.SearchLoop | pytorch_translate/cpp/BatchedBeamSearch.cpp:80-105 | The `for` loop leaves exactly the state after `maxOutputSeqLen + 1` iterations (none when negative), or the first exception. |
| BatchedBeamSearch.RunHistory | pytorch_translate/cpp/BatchedBeamSearch.cpp:84-97 | Each successful iteration appends exactly one row to each of the four lists and keeps the earlier rows. |
| BatchedBeamSearch.StateAfterShape | pytorch_translate/cpp/BatchedBeamSearch.cpp:33-42 | After `k` iterations every history list has `k + 1` rows. Row 0 is the placeholder: B zeros, and B zero attention vectors of source length. |
| BatchedBeamSearch.ErrPersists | pytorch_translate/cpp/BatchedBeamSearch.cpp:75-104 | An exception ends the search: later iteration counts give the same error. |
| BatchedBeamSearch.RecordStepOutputs | pytorch_translate/cpp/BatchedBeamSearch.cpp:84-97 | The four reads leave `ReadStepOutputs(out)` and append the `Record` row. |
| BatchedBeamSearch.BeamSearch | pytorch_translate/cpp/BatchedBeamSearch.cpp:29-114 | The method returns exactly `BeamSearchResult`, the specification built from `StateAfter(Invocations(maxOutputSeqLen))`. It asks only that the broadcast be defined where it runs. |
| BatchedBeamSearch.TimestepFed | pytorch_translate/cpp/BatchedBeamSearch.cpp:145-149 | Decoder invocation `d` is fed `timestep = [d]`. |
| BatchedBeamSearch.FirstStepInputs | pytorch_translate/cpp/BatchedBeamSearch.cpp:151-165 | The first invocation sees `prev_tokens = [eos]` and `prev_scores = [0.0]`. |
| BatchedBeamSearch.HistoryRows | pytorch_translate/cpp/BatchedBeamSearch.cpp:84-97 | Row `d + 1` of each list is invocation `d`'s corresponding output (empty if absent). |
| BatchedBeamSearch.TokensFedBack | pytorch_translate/cpp/BatchedBeamSearch.cpp:237-238 | The `prev_tokens` and `prev_scores` fed to invocation `k` equal history row `k`. |
| BatchedBeamSearch.StateFedBack | pytorch_translate/cpp/BatchedBeamSearch.cpp:224-229 | For invocation `k > 0` and the last listed name bound to a `state_input_N`: the `state_output_N` of invocation `k - 1` was present, and the `state_input_N` fed to invocation `k` is exactly that tensor. |
| BatchedBeamSearch.FixedInputFed | pytorch_translate/cpp/BatchedBeamSearch.cpp:183-219 | For invocation `k > 0` and the last listed `encoder_output_N` bound to a `fixed_input_N`: the encoder produced that output as a tensor the broadcast can read, and the `fixed_input_N` fed to invocation `k` is its broadcast to the beam width. |
| BatchedBeamSearch.FirstStepTiles | pytorch_translate/cpp/BatchedBeamSearch.cpp:183-213 | A search past its first iteration had distinct encoder output names and, under every listed `encoder_output_N`, a tensor the broadcast can read: at least three dimensions and at least S·H elements, so the broadcast it performed was defined. |
| BatchedBeamSearch.EncoderTiledOnce | pytorch_translate/cpp/BatchedBeamSearch.cpp:183-213 | The broadcast happens once, after invocation 0. From then on the encoder map stays the encoder's output with every `encoder_output_N` tiled. |
| BatchedBeamSearch.ReadNamesNotState | pytorch_translate/cpp/BatchedBeamSearch.cpp:224-228 | None of the four names the loop reads is routed as state by the next-step builder. |
| BatchedBeamSearch.StepFails | pytorch_translate/cpp/BatchedBeamSearch.cpp:82-104 | An iteration fails iff the decoder fails or a listed `state_output_N` is missing; a decoder failure is reported as the step's own failure. The `.at` reads of the best tokens and scores cannot fail. |
| BatchedBeamSearch.StartFailureReported | pytorch_translate/cpp/BatchedBeamSearch.cpp:74-78 | A failure before the loop (encoder failure, unrecognised or missing output) is the search's result, with no requirement on the encoder's outputs. |
| BatchedBeamSearch.FirstDecoderFailure | pytorch_translate/cpp/BatchedBeamSearch.cpp:80-82 | A decoder that rejects the first inputs ends the search with the step-0 failure, before any broadcast, whatever the encoder outputs' shapes. |
| BatchedBeamSearch.OutputShape | pytorch_translate/cpp/BatchedBeamSearch.cpp:107-112 | The output carries `maxOutputSeqLen`, and four equally long lists of `maxOutputSeqLen + 2` rows (1 when negative). |

## Left out

- The constructor (lines 16-27), the workspaces and the predictor internals. Each predictor is a function from an input map to an optional output map, plus its list of output names.
- `Dictionary.h` is not part of this model. `kEosId` is the parameter `eosId`.
- `DecoderUtil.h` is not part of this model. `tensorToVector1D` is modelled as the tensor's flat data. `tensorToVector2D` splits a well-formed matrix into its rows and gives no rows otherwise.
- The `BeamSearchOutput` constructor is not part of this model. The output is modelled as the length field plus the four lists.
- Floating-point values are opaque (`F`). The float zero is the parameter `zeroScore`.
- `BatchedBeamSearch.BeamSearch`: does not model the `long` to `int` narrowing of tokens and back-pointers (lines 86-87 and 91-92). It also does not model the `size_t` to `int` narrowing of `encoder_lengths`, because integers are unbounded here.
- `Tiling.TileEncoderOutputs`: requires, for each listed `encoder_output_N`, a present tensor with at least three dimensions and at least S·H elements. Otherwise the C++ reads dimensions or elements that do not exist, which is undefined behaviour. With beam width 0 the copy reads no element, but the model still asks for S·H elements.
- `Tiling.TileEncoderOutputs`: also requires the output names to be distinct. This is an assumption about predictors: each output is listed once. With a repeated `encoder_output_N`, the C++ (lines 186-211) broadcasts the already broadcast (S, B, H) tensor a second time. The model does not capture that second broadcast.
- `StepInputs.PrepareNextInputStepMap`: the same two requirements apply at timestep 1.
- `BatchedBeamSearch.BeamSearch`: the same two requirements apply to the encoder's outputs, but only when the broadcast runs, that is after a successful start and a successful first decoder invocation (`TilingDefined`).
- `BatchedBeamSearch.BeamSearch`: does not model the `int` range of `decoderStep` and `maxOutputSeqLen`. At `maxOutputSeqLen == INT_MAX` the `++decoderStep` at line 80 and the `decoderStep + 1` at line 104 overflow, which is undefined behaviour. The model's `Invocations` instead gives `INT_MAX + 1` iterations.
- `Tiling.TiledIndex`: does not model the `int` product `i * beamSize_` at line 202, which is computed before the multiplication by the `int64_t` `hiddenSize` widens it. It can overflow only when `(sourceLength - 1) * beamSize_` exceeds `INT_MAX`. The model's offsets are unbounded.
- `BatchedBeamSearch.BeamSearch`: does not model a negative `int beamSize_`. It makes the `std::vector` constructors at lines 34-42 throw `std::length_error`, while the model's `beamSize` is a `nat`.
- `BatchedBeamSearch.StepFails`: assumes that `tensorToVector1D` and `tensorToVector2D` accept the empty tensor that `operator[]` inserts for a missing output. If they enforce an element type or rank and throw, a missing `best_tokens_indices`, `prev_hypos_indices`, `best_scores` or `attention_weights_average` ends the search, which the model does not capture.
- `.Alias()`, tensor sharing and lifetimes are not modelled. Maps hold tensor values, so the in-place update of the encoder map is a returned map.
- The regular-expression engine is replaced by an explicit leftmost search for `<prefix>` followed by a digit run.
