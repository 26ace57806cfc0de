/**
 * Routing of a predictor's output names to the next decoder-step input
 * names. Each builder decides, name by name and in the order the predictor
 * lists its outputs, whether to bind the tensor under a new name, skip it or
 * refuse it; a later binding of the same input name replaces an earlier one.
 */
module Routing {
  import opened Wrappers
  import opened Tensors
  import opened TensorNames

  /** What a builder does with one output name. */
  datatype Action = Bind(key: string) | Skip | Reject

  /** The initial builder: fixed inputs, initial states, translation tokens, nothing else. */
  function InitialAction(name: string): Action
  {
    match Search(name, EncoderOutputPrefix)
    case Some(n) => Bind(FixedInputPrefix + n)
    case None =>
      match Search(name, InitialStatePrefix)
      case Some(n) => Bind(StateInputPrefix + n)
      case None =>
        if name == PossibleTranslationTokens then Bind(PossibleTranslationTokens) else Reject
  }

  /** The next-step builder over encoder outputs: initial states and unknown names are skipped. */
  function NextEncoderAction(name: string): Action
  {
    match Search(name, EncoderOutputPrefix)
    case Some(n) => Bind(FixedInputPrefix + n)
    case None =>
      if name == PossibleTranslationTokens then Bind(PossibleTranslationTokens) else Skip
  }

  /** The next-step builder over decoder-step outputs: only updated states are routed. */
  function NextStepAction(name: string): Action
  {
    match Search(name, StateOutputPrefix)
    case Some(n) => Bind(StateInputPrefix + n)
    case None => Skip
  }

  /**
   * The builder gets past `name`: the name is not refused and, when the
   * builder reads with `.at` (`checked`), a bound name is present in `src`.
   */
  predicate Accepts<E>(act: string -> Action, src: TensorMap<E>, checked: bool, name: string)
  {
    act(name) != Reject && (checked && act(name).Bind? ==> name in src)
  }

  /** The error a refused name raises. */
  function Refusal(act: string -> Action, name: string): Error
  {
    if act(name) == Reject then UnrecognizedTensorName(name) else MissingTensor(name)
  }

  /** `i` is the first name the builder refuses. */
  predicate FirstRefused<E>(act: string -> Action, names: seq<string>, src: TensorMap<E>, checked: bool, i: int)
  {
    && 0 <= i < |names|
    && !Accepts(act, src, checked, names[i])
    && forall j | 0 <= j < i :: Accepts(act, src, checked, names[j])
  }

  /** The input names a builder binds. */
  function BoundKeys(act: string -> Action, names: seq<string>): set<string>
  {
    set i | 0 <= i < |names| && act(names[i]).Bind? :: act(names[i]).key
  }

  /** `names[i]` is bound and no later name is bound to the same input name. */
  predicate LastBinder(act: string -> Action, names: seq<string>, i: int)
  {
    && 0 <= i < |names|
    && act(names[i]).Bind?
    && forall j | i < j < |names| :: act(names[j]) != act(names[i])
  }

  /**
   * The builder's loop: starting from `acc`, bind each accepted name's tensor
   * (`src.at(name)` when `checked`, `src[name]` otherwise) under its input
   * name, and stop at the first refused name.
   */
  function Route<E>(act: string -> Action, names: seq<string>, src: TensorMap<E>, checked: bool, acc: TensorMap<E>)
    : Result<TensorMap<E>, Error>
    decreases |names|
  {
    if names == [] then Ok(acc)
    else
      var rest := names[1..];
      match act(names[0])
      case Reject => Err(UnrecognizedTensorName(names[0]))
      case Skip => Route(act, rest, src, checked, acc)
      case Bind(k) =>
        if checked && names[0] !in src then Err(MissingTensor(names[0]))
        else Route(act, rest, src, checked, acc[k := Lookup(src, names[0])])
  }

  /** A builder succeeds exactly when it accepts every name. */
  lemma {:induction false} RouteSucceeds<E>(
    act: string -> Action, names: seq<string>, src: TensorMap<E>, checked: bool, acc: TensorMap<E>)
    ensures Route(act, names, src, checked, acc).Ok? <==> forall i | 0 <= i < |names| :: Accepts(act, src, checked, names[i])
    decreases |names|
  {
    if names != [] {
      var rest := names[1..];
      assert forall i | 0 <= i < |rest| :: rest[i] == names[i + 1];
      var acc' := if act(names[0]).Bind? then acc[act(names[0]).key := Lookup(src, names[0])] else acc;
      RouteSucceeds(act, rest, src, checked, acc');
    }
  }

  lemma BoundKeysCons(act: string -> Action, names: seq<string>)
    requires names != []
    ensures BoundKeys(act, names) ==
      (if act(names[0]).Bind? then {act(names[0]).key} else {}) + BoundKeys(act, names[1..])
  {
    var rest := names[1..];
    forall k | k in BoundKeys(act, names)
      ensures k in (if act(names[0]).Bind? then {act(names[0]).key} else {}) + BoundKeys(act, rest)
    {
      var i :| 0 <= i < |names| && act(names[i]).Bind? && act(names[i]).key == k;
      if i > 0 {
        assert rest[i - 1] == names[i];
      }
    }
    forall k | k in BoundKeys(act, rest) ensures k in BoundKeys(act, names) {
      var i :| 0 <= i < |rest| && act(rest[i]).Bind? && act(rest[i]).key == k;
      assert names[i + 1] == rest[i];
    }
  }

  /** On success the bound names are exactly those of `acc` plus the routed input names. */
  lemma {:induction false} RouteKeys<E>(act: string -> Action, names: seq<string>, src: TensorMap<E>, checked: bool, acc: TensorMap<E>)
    requires Route(act, names, src, checked, acc).Ok?
    ensures Route(act, names, src, checked, acc).value.Keys == acc.Keys + BoundKeys(act, names)
    decreases |names|
  {
    if names != [] {
      BoundKeysCons(act, names);
      match act(names[0])
      case Skip => RouteKeys(act, names[1..], src, checked, acc);
      case Bind(k) => RouteKeys(act, names[1..], src, checked, acc[k := Lookup(src, names[0])]);
    }
  }

  /** On success an entry of `acc` that no name rebinds is kept. */
  lemma {:induction false} RouteKeeps<E>(act: string -> Action, names: seq<string>, src: TensorMap<E>, checked: bool, acc: TensorMap<E>, k: string)
    requires Route(act, names, src, checked, acc).Ok?
    requires k in acc && k !in BoundKeys(act, names)
    ensures k in Route(act, names, src, checked, acc).value
    ensures Route(act, names, src, checked, acc).value[k] == acc[k]
    decreases |names|
  {
    if names != [] {
      BoundKeysCons(act, names);
      match act(names[0])
      case Skip => RouteKeeps(act, names[1..], src, checked, acc, k);
      case Bind(b) => RouteKeeps(act, names[1..], src, checked, acc[b := Lookup(src, names[0])], k);
    }
  }

  /** On success the input bound by the last name routed to it holds that name's tensor. */
  lemma {:induction false} RouteValues<E>(act: string -> Action, names: seq<string>, src: TensorMap<E>, checked: bool, acc: TensorMap<E>, i: int)
    requires Route(act, names, src, checked, acc).Ok?
    requires LastBinder(act, names, i)
    ensures act(names[i]).key in Route(act, names, src, checked, acc).value
    ensures Route(act, names, src, checked, acc).value[act(names[i]).key] == Lookup(src, names[i])
    decreases |names|
  {
    var rest := names[1..];
    if i == 0 {
      var k := act(names[0]).key;
      var acc' := acc[k := Lookup(src, names[0])];
      RouteKeeps(act, rest, src, checked, acc', k);
    } else {
      assert rest[i - 1] == names[i];
      assert LastBinder(act, rest, i - 1) by {
        forall j | i - 1 < j < |rest| ensures act(rest[j]) != act(rest[i - 1]) {
          assert rest[j] == names[j + 1];
        }
      }
      match act(names[0])
      case Skip => RouteValues(act, rest, src, checked, acc, i - 1);
      case Bind(b) => RouteValues(act, rest, src, checked, acc[b := Lookup(src, names[0])], i - 1);
    }
  }

  /** On failure the error names the first refused name. */
  lemma {:induction false} RouteError<E>(act: string -> Action, names: seq<string>, src: TensorMap<E>, checked: bool, acc: TensorMap<E>)
    requires Route(act, names, src, checked, acc).Err?
    ensures exists i ::
      (FirstRefused(act, names, src, checked, i)
       && Route(act, names, src, checked, acc).error == Refusal(act, names[i]))
    decreases |names|
  {
    var rest := names[1..];
    if !Accepts(act, src, checked, names[0]) {
      assert FirstRefused(act, names, src, checked, 0);
    } else {
      var acc' := if act(names[0]).Bind? then acc[act(names[0]).key := Lookup(src, names[0])] else acc;
      RouteError(act, rest, src, checked, acc');
      var i :| FirstRefused(act, rest, src, checked, i)
        && Route(act, rest, src, checked, acc').error == Refusal(act, rest[i]);
      assert rest[i] == names[i + 1];
      assert FirstRefused(act, names, src, checked, i + 1) by {
        forall j | 0 <= j < i + 1 ensures Accepts(act, src, checked, names[j]) {
          if j > 0 {
            assert names[j] == rest[j - 1];
          }
        }
      }
    }
  }

  /** Without `.at` and without refusals a builder cannot fail. */
  lemma RouteUncheckedSucceeds<E>(act: string -> Action, names: seq<string>, src: TensorMap<E>, acc: TensorMap<E>)
    requires forall i | 0 <= i < |names| :: act(names[i]) != Reject
    ensures Route(act, names, src, false, acc).Ok?
  {
    RouteSucceeds(act, names, src, false, acc);
  }

  // ---------------------------------------------------------------------------
  // What the rules do with the names of the naming convention

  lemma ConventionStems()
    ensures !IsDigit(EncoderOutputPrefix[|EncoderOutputPrefix| - 1])
    ensures !IsDigit(InitialStatePrefix[|InitialStatePrefix| - 1])
    ensures |StateOutputPrefix| < |InitialStatePrefix| < |EncoderOutputPrefix|
  {
  }

  /** `encoder_output_N` is routed to `fixed_input_N`, by both builders. */
  lemma EncoderOutputRouted(d: string)
    requires d != [] && AllDigits(d)
    ensures InitialAction(EncoderOutputPrefix + d) == Bind(FixedInputPrefix + d)
    ensures NextEncoderAction(EncoderOutputPrefix + d) == Bind(FixedInputPrefix + d)
  {
    SearchWellFormed(EncoderOutputPrefix, d);
  }

  /** `initial_state_N` feeds `state_input_N` at the first step only: the next-step builder skips it. */
  lemma InitialStateRouted(d: string)
    requires d != [] && AllDigits(d)
    ensures InitialAction(InitialStatePrefix + d) == Bind(StateInputPrefix + d)
    ensures NextEncoderAction(InitialStatePrefix + d) == Skip
  {
    ConventionStems();
    SearchMissesShortStem(InitialStatePrefix, d, EncoderOutputPrefix);
    SearchWellFormed(InitialStatePrefix, d);
    assert (InitialStatePrefix + d)[0] != PossibleTranslationTokens[0];
  }

  /** `state_output_N` becomes `state_input_N` for the next step and is refused as an encoder output. */
  lemma StateOutputRouted(d: string)
    requires d != [] && AllDigits(d)
    ensures NextStepAction(StateOutputPrefix + d) == Bind(StateInputPrefix + d)
    ensures InitialAction(StateOutputPrefix + d) == Reject
  {
    ConventionStems();
    SearchWellFormed(StateOutputPrefix, d);
    SearchMissesShortStem(StateOutputPrefix, d, EncoderOutputPrefix);
    SearchMissesShortStem(StateOutputPrefix, d, InitialStatePrefix);
    assert (StateOutputPrefix + d)[0] != PossibleTranslationTokens[0];
  }

  /** `possible_translation_tokens` keeps its name, in both builders. */
  lemma TranslationTokensRouted()
    ensures InitialAction(PossibleTranslationTokens) == Bind(PossibleTranslationTokens)
    ensures NextEncoderAction(PossibleTranslationTokens) == Bind(PossibleTranslationTokens)
  {
    SearchNeedsDigit(PossibleTranslationTokens, EncoderOutputPrefix);
    SearchNeedsDigit(PossibleTranslationTokens, InitialStatePrefix);
  }

  /** A name with no digits other than the translation-token name is refused, `foo_bar` among them. */
  lemma UnknownNameRejected(name: string)
    requires forall i | 0 <= i < |name| :: !IsDigit(name[i])
    requires name != PossibleTranslationTokens
    ensures InitialAction(name) == Reject
    ensures NextEncoderAction(name) == Skip
  {
    SearchNeedsDigit(name, EncoderOutputPrefix);
    SearchNeedsDigit(name, InitialStatePrefix);
  }

  /** The input names each rule produces. */
  predicate IsFixedOrTokensKey(k: string)
  {
    k == PossibleTranslationTokens || (|k| >= |FixedInputPrefix| && k[..|FixedInputPrefix|] == FixedInputPrefix)
  }

  predicate IsStateInputKey(k: string)
  {
    |k| >= |StateInputPrefix| && k[..|StateInputPrefix|] == StateInputPrefix
  }

  lemma NextEncoderKeys(name: string)
    requires NextEncoderAction(name).Bind?
    ensures IsFixedOrTokensKey(NextEncoderAction(name).key)
    ensures !IsStateInputKey(NextEncoderAction(name).key)
  {
    match Search(name, EncoderOutputPrefix)
    case Some(n) =>
      var k := FixedInputPrefix + n;
      assert k[..|FixedInputPrefix|] == FixedInputPrefix;
      assert k[0] != StateInputPrefix[0];
    case None =>
      var k := PossibleTranslationTokens;
      assert k[0] != StateInputPrefix[0];
      assert k[..|StateInputPrefix|][0] == k[0];
  }

  lemma NextStepKeys(name: string)
    requires NextStepAction(name).Bind?
    ensures IsStateInputKey(NextStepAction(name).key)
    ensures !IsFixedOrTokensKey(NextStepAction(name).key)
  {
    var k := NextStepAction(name).key;
    assert k[..|StateInputPrefix|] == StateInputPrefix;
    assert k[0] != FixedInputPrefix[0] && k[0] != PossibleTranslationTokens[0];
  }

  lemma InitialKeys(name: string)
    requires InitialAction(name).Bind?
    ensures IsFixedOrTokensKey(InitialAction(name).key) || IsStateInputKey(InitialAction(name).key)
  {
    var k := InitialAction(name).key;
    if k != PossibleTranslationTokens {
      if Search(name, EncoderOutputPrefix).Some? {
        assert k[..|FixedInputPrefix|] == FixedInputPrefix;
      } else {
        assert k[..|StateInputPrefix|] == StateInputPrefix;
      }
    }
  }

  /** No name the routing rules produce is one of the three step scalars. */
  lemma RoutedKeyNotScalar(k: string)
    requires IsFixedOrTokensKey(k) || IsStateInputKey(k)
    ensures k != "timestep" && k != "prev_tokens" && k != "prev_scores"
  {
    if k != PossibleTranslationTokens {
      assert k[0] == 'f' || k[0] == 's';
    }
  }
}
