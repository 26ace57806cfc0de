/**
 * The two builders of decoder-step inputs: the initial one, fed by the
 * encoder's outputs, and the one run after every decoder step, fed by the
 * (possibly just broadcast) encoder outputs and that step's outputs.
 */
module StepInputs {
  import opened Wrappers
  import opened Tensors
  import opened TensorNames
  import opened Routing
  import opened Tiling

  const Timestep := "timestep"
  const PrevTokens := "prev_tokens"
  const PrevScores := "prev_scores"
  const BestTokensIndices := "best_tokens_indices"
  const BestScores := "best_scores"

  /** The scalar inputs every step map carries besides the routed tensors. */
  function ScalarKeys(): set<string>
  {
    {Timestep, PrevTokens, PrevScores}
  }

  lemma RoutedKeysNotScalar(act: string -> Action, names: seq<string>)
    requires forall n :: act(n).Bind? ==> IsFixedOrTokensKey(act(n).key) || IsStateInputKey(act(n).key)
    ensures BoundKeys(act, names) !! ScalarKeys()
  {
    forall k | k in BoundKeys(act, names) ensures k !in ScalarKeys() {
      RoutedKeyNotScalar(k);
    }
  }

  lemma InitialKeysAll()
    ensures forall n :: InitialAction(n).Bind? ==>
      IsFixedOrTokensKey(InitialAction(n).key) || IsStateInputKey(InitialAction(n).key)
  {
    forall n | InitialAction(n).Bind? ensures IsFixedOrTokensKey(InitialAction(n).key) || IsStateInputKey(InitialAction(n).key) {
      InitialKeys(n);
    }
  }

  lemma NextKeysAll()
    ensures forall n :: NextEncoderAction(n).Bind? ==>
      IsFixedOrTokensKey(NextEncoderAction(n).key) && !IsStateInputKey(NextEncoderAction(n).key)
    ensures forall n :: NextStepAction(n).Bind? ==>
      IsStateInputKey(NextStepAction(n).key) && !IsFixedOrTokensKey(NextStepAction(n).key)
  {
    forall n | NextEncoderAction(n).Bind?
      ensures IsFixedOrTokensKey(NextEncoderAction(n).key) && !IsStateInputKey(NextEncoderAction(n).key)
    {
      NextEncoderKeys(n);
    }
    forall n | NextStepAction(n).Bind?
      ensures IsStateInputKey(NextStepAction(n).key) && !IsFixedOrTokensKey(NextStepAction(n).key)
    {
      NextStepKeys(n);
    }
  }

  /** What a successful routing pass gives: its keys, and the tensor behind each last-bound key. */
  lemma RoutingFacts<E>(act: string -> Action, names: seq<string>, src: TensorMap<E>, checked: bool, acc: TensorMap<E>)
    requires Route(act, names, src, checked, acc).Ok?
    ensures Route(act, names, src, checked, acc).value.Keys == acc.Keys + BoundKeys(act, names)
    ensures forall i | LastBinder(act, names, i) ::
      && act(names[i]).key in Route(act, names, src, checked, acc).value
      && Route(act, names, src, checked, acc).value[act(names[i]).key] == Lookup(src, names[i])
    ensures forall k | k in acc && k !in BoundKeys(act, names) ::
      k in Route(act, names, src, checked, acc).value && Route(act, names, src, checked, acc).value[k] == acc[k]
  {
    RouteKeys(act, names, src, checked, acc);
    forall i | LastBinder(act, names, i)
      ensures act(names[i]).key in Route(act, names, src, checked, acc).value
      ensures Route(act, names, src, checked, acc).value[act(names[i]).key] == Lookup(src, names[i])
    {
      RouteValues(act, names, src, checked, acc, i);
    }
    forall k | k in acc && k !in BoundKeys(act, names)
      ensures k in Route(act, names, src, checked, acc).value
      ensures Route(act, names, src, checked, acc).value[k] == acc[k]
    {
      RouteKeeps(act, names, src, checked, acc, k);
    }
  }

  /**
   * `prepareInitialNextInputStepMap`. Encoder outputs are routed in order
   * (`encoder_output_N` to `fixed_input_N`, else `initial_state_N` to
   * `state_input_N`, else `possible_translation_tokens` kept, else refused)
   * and read with `.at`; then the three one-element scalars are added.
   */
  function PrepareInitialNextInputStepMap<F>(
    encoderOutputNames: seq<string>, encoderOutputMap: TensorMap<Scalar<F>>, eosId: int, zeroScore: F)
    : Result<TensorMap<Scalar<F>>, Error>
  {
    var routed := Route(InitialAction, encoderOutputNames, encoderOutputMap, true, map[]);
    if routed.Err? then Err(routed.error)
    else Ok(routed.value[Timestep := Vector(Int(0))][PrevTokens := Vector(Int(eosId))][PrevScores := Vector(Float(zeroScore))])
  }

  /**
   * What the initial builder promises: it fails exactly when some encoder
   * output is refused, with the first refused name; on success its keys are
   * the routed ones plus the three scalars, which hold `[0]`, `[eos]` and
   * `[0.0]`, and each routed key holds the tensor of the last name bound to it.
   */
  lemma InitialStepMapSpec<F>(
    encoderOutputNames: seq<string>, encoderOutputMap: TensorMap<Scalar<F>>, eosId: int, zeroScore: F)
    ensures var r := PrepareInitialNextInputStepMap(encoderOutputNames, encoderOutputMap, eosId, zeroScore);
      && (r.Ok? <==>
          forall i | 0 <= i < |encoderOutputNames| :: Accepts(InitialAction, encoderOutputMap, true, encoderOutputNames[i]))
      && (r.Err? ==> exists i ::
          (FirstRefused(InitialAction, encoderOutputNames, encoderOutputMap, true, i)
           && r.error == Refusal(InitialAction, encoderOutputNames[i])))
      && (r.Ok? ==> r.value.Keys == BoundKeys(InitialAction, encoderOutputNames) + ScalarKeys())
      && (r.Ok? ==>
          && r.value[Timestep] == Vector(Int(0))
          && r.value[PrevTokens] == Vector(Int(eosId))
          && r.value[PrevScores] == Vector(Float(zeroScore)))
      && (r.Ok? ==> forall i | LastBinder(InitialAction, encoderOutputNames, i) ::
          && encoderOutputNames[i] in encoderOutputMap
          && r.value[InitialAction(encoderOutputNames[i]).key] == encoderOutputMap[encoderOutputNames[i]])
  {
    var routed := Route(InitialAction, encoderOutputNames, encoderOutputMap, true, map[]);
    RouteSucceeds(InitialAction, encoderOutputNames, encoderOutputMap, true, map[]);
    if routed.Err? {
      RouteError(InitialAction, encoderOutputNames, encoderOutputMap, true, map[]);
    } else {
      RoutingFacts(InitialAction, encoderOutputNames, encoderOutputMap, true, map[]);
      InitialKeysAll();
      RoutedKeysNotScalar(InitialAction, encoderOutputNames);
      forall i | LastBinder(InitialAction, encoderOutputNames, i) ensures encoderOutputNames[i] in encoderOutputMap {
        assert Accepts(InitialAction, encoderOutputMap, true, encoderOutputNames[i]);
      }
    }
  }

  /** Every name a next-step routing loop reads with `[]` is present: nothing gets inserted. */
  predicate RoutedNamesPresent<E>(names: seq<string>, m: TensorMap<E>)
  {
    forall n | n in names && NextEncoderAction(n).Bind? :: n in m
  }

  /**
   * The map after the routing loop's `encoderOutputMap[name]` reads, one
   * name at a time: a routed name the map lacks gets a default tensor.
   */
  function WithDefaults<E>(names: seq<string>, m: TensorMap<E>): TensorMap<E>
    decreases |names|
  {
    if names == [] then m
    else WithDefaults(names[1..], if NextEncoderAction(names[0]).Bind? then Subscript(m, names[0]) else m)
  }

  /** The reads add exactly the missing routed names, as defaults, and change no entry; with nothing missing they change nothing. */
  lemma {:induction false} WithDefaultsSpec<E>(names: seq<string>, m: TensorMap<E>)
    ensures WithDefaults(names, m).Keys == m.Keys + (set n | n in names && NextEncoderAction(n).Bind?)
    ensures forall k | k in m :: WithDefaults(names, m)[k] == m[k]
    ensures forall k | k in WithDefaults(names, m) && k !in m :: WithDefaults(names, m)[k] == Empty()
    ensures RoutedNamesPresent(names, m) ==> WithDefaults(names, m) == m
    decreases |names|
  {
    if names != [] {
      var next := if NextEncoderAction(names[0]).Bind? then Subscript(m, names[0]) else m;
      SubscriptSpec(m, names[0]);
      WithDefaultsSpec(names[1..], next);
      assert forall n | n in names :: n == names[0] || n in names[1..];
    }
  }

  /**
   * The encoder output map as `prepareNextInputStepMap` leaves it: at
   * timestep 1 every listed `encoder_output_N` entry is replaced by its
   * broadcast, at any other timestep no entry changes; routed names the map
   * lacks are inserted with a default tensor.
   */
  function NextEncoderOutputMap<E>(names: seq<string>, m: TensorMap<E>, timeStep: int, beamSize: nat)
    : TensorMap<E>
    requires timeStep == 1 ==> EncoderOutputsTileable(names, m)
  {
    WithDefaults(names, if timeStep == 1 then TiledEncoderOutputMap(names, m, beamSize) else m)
  }

  /**
   * What the encoder-map update promises: every entry is kept, broadcast
   * exactly when it is a listed `encoder_output_N` at timestep 1; the only
   * added entries are routed names with a default tensor; when every routed
   * name is present the keys stay, and away from timestep 1 nothing changes.
   */
  lemma NextEncoderMapSpec<E>(names: seq<string>, m: TensorMap<E>, timeStep: int, beamSize: nat)
    requires timeStep == 1 ==> EncoderOutputsTileable(names, m)
    ensures var r := NextEncoderOutputMap(names, m, timeStep, beamSize);
      && (forall k | k in m ::
          && k in r
          && r[k] == if timeStep == 1 && k in names && IsEncoderOutputName(k) then Tile(m[k], beamSize) else m[k])
      && (forall k | k in r && k !in m :: r[k] == Empty() && k in names && NextEncoderAction(k).Bind?)
      && (RoutedNamesPresent(names, m) ==> r.Keys == m.Keys)
      && (RoutedNamesPresent(names, m) && timeStep != 1 ==> r == m)
      && RoutedNamesPresent(names, r)
  {
    var current := if timeStep == 1 then TiledEncoderOutputMap(names, m, beamSize) else m;
    if timeStep == 1 {
      TiledMapSpec(names, m, beamSize);
    }
    WithDefaultsSpec(names, current);
  }

  /** All `state_output_N` names the step lists are present in its output map. */
  predicate StatesPresent<E>(stepOutputNames: seq<string>, stepOutputMap: TensorMap<E>)
  {
    forall i | 0 <= i < |stepOutputNames| :: Accepts(NextStepAction, stepOutputMap, true, stepOutputNames[i])
  }

  /**
   * The routing half of `prepareNextInputStepMap`: `fixed_input_N` and
   * `possible_translation_tokens` from the encoder map (read with `[]`),
   * `state_input_N` from the step's `state_output_N` (read with `.at`), then
   * `timestep`, and `prev_tokens`/`prev_scores` from the step's
   * `best_tokens_indices`/`best_scores` (read with `.at`).
   */
  function NextInputStepMap<F>(
    encoderOutputNames: seq<string>, stepOutputNames: seq<string>,
    encoderOutputMap: TensorMap<Scalar<F>>, stepOutputMap: TensorMap<Scalar<F>>, timeStep: int)
    : Result<TensorMap<Scalar<F>>, Error>
  {
    var fixed := Route(NextEncoderAction, encoderOutputNames, encoderOutputMap, false, map[]);
    RouteUncheckedSucceeds(NextEncoderAction, encoderOutputNames, encoderOutputMap, map[]);
    var routed := Route(NextStepAction, stepOutputNames, stepOutputMap, true, fixed.value);
    if routed.Err? then Err(routed.error)
    else if BestTokensIndices !in stepOutputMap then Err(MissingTensor(BestTokensIndices))
    else if BestScores !in stepOutputMap then Err(MissingTensor(BestScores))
    else
      Ok(routed.value[Timestep := Vector(Int(timeStep))]
                    [PrevTokens := stepOutputMap[BestTokensIndices]]
                    [PrevScores := stepOutputMap[BestScores]])
  }

  /**
   * What the next-step builder promises: it fails exactly when a listed
   * `state_output_N`, `best_tokens_indices` or `best_scores` is missing, in
   * that order; on success its keys are the encoder-routed ones, the
   * step-routed ones and the three scalars, `timestep` is `[t]`,
   * `prev_tokens`/`prev_scores` are the step's best tokens and scores, and
   * every `state_input_*` key comes from a step output.
   */
  lemma NextStepMapSpec<F>(
    encoderOutputNames: seq<string>, stepOutputNames: seq<string>,
    encoderOutputMap: TensorMap<Scalar<F>>, stepOutputMap: TensorMap<Scalar<F>>, timeStep: int)
    ensures var r := NextInputStepMap(encoderOutputNames, stepOutputNames, encoderOutputMap, stepOutputMap, timeStep);
      && (r.Ok? <==>
          StatesPresent(stepOutputNames, stepOutputMap) && BestTokensIndices in stepOutputMap && BestScores in stepOutputMap)
      && (r.Err? && !StatesPresent(stepOutputNames, stepOutputMap) ==> exists i ::
          (FirstRefused(NextStepAction, stepOutputNames, stepOutputMap, true, i)
           && r.error == MissingTensor(stepOutputNames[i])))
      && (r.Err? && StatesPresent(stepOutputNames, stepOutputMap) ==>
          r.error == MissingTensor(if BestTokensIndices !in stepOutputMap then BestTokensIndices else BestScores))
      && (r.Ok? ==> (r.value.Keys ==
          BoundKeys(NextEncoderAction, encoderOutputNames) + BoundKeys(NextStepAction, stepOutputNames) + ScalarKeys()))
      && (r.Ok? ==>
          && r.value[Timestep] == Vector(Int(timeStep))
          && r.value[PrevTokens] == stepOutputMap[BestTokensIndices]
          && r.value[PrevScores] == stepOutputMap[BestScores])
      && (r.Ok? ==> forall i | LastBinder(NextEncoderAction, encoderOutputNames, i) ::
          r.value[NextEncoderAction(encoderOutputNames[i]).key] == Lookup(encoderOutputMap, encoderOutputNames[i]))
      && (r.Ok? ==> forall i | LastBinder(NextStepAction, stepOutputNames, i) ::
          && stepOutputNames[i] in stepOutputMap
          && r.value[NextStepAction(stepOutputNames[i]).key] == stepOutputMap[stepOutputNames[i]])
      && (r.Ok? ==> forall k | k in r.value ::
          IsStateInputKey(k) <==> k in BoundKeys(NextStepAction, stepOutputNames))
  {
    var fixed := Route(NextEncoderAction, encoderOutputNames, encoderOutputMap, false, map[]);
    RouteUncheckedSucceeds(NextEncoderAction, encoderOutputNames, encoderOutputMap, map[]);
    var routed := Route(NextStepAction, stepOutputNames, stepOutputMap, true, fixed.value);
    RouteSucceeds(NextStepAction, stepOutputNames, stepOutputMap, true, fixed.value);
    if routed.Err? {
      RouteError(NextStepAction, stepOutputNames, stepOutputMap, true, fixed.value);
    } else if BestTokensIndices in stepOutputMap && BestScores in stepOutputMap {
      NextRoutingFacts(encoderOutputNames, stepOutputNames, encoderOutputMap, stepOutputMap, fixed.value, routed.value);
    }
  }

  lemma NextRoutingFacts<E>(
    encoderOutputNames: seq<string>, stepOutputNames: seq<string>,
    encoderOutputMap: TensorMap<E>, stepOutputMap: TensorMap<E>, fixed: TensorMap<E>, routed: TensorMap<E>)
    requires Route(NextEncoderAction, encoderOutputNames, encoderOutputMap, false, map[]) == Ok(fixed)
    requires Route(NextStepAction, stepOutputNames, stepOutputMap, true, fixed) == Ok(routed)
    ensures routed.Keys == BoundKeys(NextEncoderAction, encoderOutputNames) + BoundKeys(NextStepAction, stepOutputNames)
    ensures routed.Keys !! ScalarKeys()
    ensures forall i | LastBinder(NextEncoderAction, encoderOutputNames, i) ::
      routed[NextEncoderAction(encoderOutputNames[i]).key] == Lookup(encoderOutputMap, encoderOutputNames[i])
    ensures forall i | LastBinder(NextStepAction, stepOutputNames, i) ::
      && stepOutputNames[i] in stepOutputMap
      && routed[NextStepAction(stepOutputNames[i]).key] == stepOutputMap[stepOutputNames[i]]
    ensures forall k | k in routed :: IsStateInputKey(k) <==> k in BoundKeys(NextStepAction, stepOutputNames)
  {
    RoutingFacts(NextEncoderAction, encoderOutputNames, encoderOutputMap, false, map[]);
    RoutingFacts(NextStepAction, stepOutputNames, stepOutputMap, true, fixed);
    NextKeysAll();
    RoutedKeysNotScalar(NextEncoderAction, encoderOutputNames);
    RoutedKeysNotScalar(NextStepAction, stepOutputNames);
    RouteSucceeds(NextStepAction, stepOutputNames, stepOutputMap, true, fixed);
    forall i | LastBinder(NextStepAction, stepOutputNames, i) ensures stepOutputNames[i] in stepOutputMap {
      assert Accepts(NextStepAction, stepOutputMap, true, stepOutputNames[i]);
    }
  }

  /**
   * `prepareNextInputStepMap`: at timestep 1 the encoder outputs are
   * broadcast in place (the map is a reference parameter, so the updated map
   * is returned), then the next step's inputs are built from it.
   */
  method PrepareNextInputStepMap<F>(
    encoderOutputNames: seq<string>, stepOutputNames: seq<string>,
    encoderOutputMap: TensorMap<Scalar<F>>, stepOutputMap: TensorMap<Scalar<F>>,
    timeStep: int, beamSize: nat)
    returns (updatedEncoderOutputMap: TensorMap<Scalar<F>>, inputStepMap: Result<TensorMap<Scalar<F>>, Error>)
    requires timeStep == 1 ==> Distinct(encoderOutputNames) && EncoderOutputsTileable(encoderOutputNames, encoderOutputMap)
    ensures updatedEncoderOutputMap == NextEncoderOutputMap(encoderOutputNames, encoderOutputMap, timeStep, beamSize)
    ensures inputStepMap
         == NextInputStepMap(encoderOutputNames, stepOutputNames, updatedEncoderOutputMap, stepOutputMap, timeStep)
  {
    updatedEncoderOutputMap := encoderOutputMap;
    if timeStep == 1 {
      updatedEncoderOutputMap := TileEncoderOutputs(encoderOutputNames, encoderOutputMap, beamSize);
    }
    updatedEncoderOutputMap := WithDefaults(encoderOutputNames, updatedEncoderOutputMap);
    inputStepMap := NextInputStepMap(encoderOutputNames, stepOutputNames, updatedEncoderOutputMap, stepOutputMap, timeStep);
  }
}
