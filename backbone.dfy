/**
 * The ResNet wrapper of scripts/models.py. A MONAI 3D ResNet is reduced to its parameter
 * table: parameter names in registration order, the state table (name to tensor), the
 * `requires_grad` flag of every parameter, and the output layer `fc`. The MONAI
 * constructors and `torch.load` are passed in as functions.
 */
module Backbone {
  import opened Outcomes
  import opened Text
  import opened Tensors
  import opened Layers

  // ---------------------------------------------------------------------------
  // Versions

  datatype Depth = D10 | D18 | D34 | D50 | D101 | D152 | D200

  /** The seven literals the constructor accepts, in the order it lists them. */
  const Versions: seq<string> :=
    ["resnet10", "resnet18", "resnet34", "resnet50", "resnet101", "resnet152", "resnet200"]

  /** The validation guarding construction: the version equals one of the seven literals. */
  predicate IsValidVersion(version: string) {
    version in Versions
  }

  /** The literal that selects each depth. */
  function VersionName(d: Depth): string {
    match d
    case D10 => "resnet10"
    case D18 => "resnet18"
    case D34 => "resnet34"
    case D50 => "resnet50"
    case D101 => "resnet101"
    case D152 => "resnet152"
    case D200 => "resnet200"
  }

  /** The numeric suffix of a depth's literal. */
  function DepthDigits(d: Depth): (r: string)
    ensures |r| > 0 && AllDigits(r)
    ensures VersionName(d) == "resnet" + r
  {
    match d
    case D10 => assert "resnet" + "10" == "resnet10"; "10"
    case D18 => assert "resnet" + "18" == "resnet18"; "18"
    case D34 => assert "resnet" + "34" == "resnet34"; "34"
    case D50 => assert "resnet" + "50" == "resnet50"; "50"
    case D101 => assert "resnet" + "101" == "resnet101"; "101"
    case D152 => assert "resnet" + "152" == "resnet152"; "152"
    case D200 => assert "resnet" + "200" == "resnet200"; "200"
  }

  /** The if/elif chain that picks the MONAI constructor; `None` when no branch matches. */
  function Branch(version: string): (r: Option<Depth>)
    ensures r.Some? ==> VersionName(r.value) == version
  {
    if version == "resnet10" then Some(D10)
    else if version == "resnet18" then Some(D18)
    else if version == "resnet34" then Some(D34)
    else if version == "resnet50" then Some(D50)
    else if version == "resnet101" then Some(D101)
    else if version == "resnet152" then Some(D152)
    else if version == "resnet200" then Some(D200)
    else None
  }

  /**
   * The validation and the branch chain agree: a version passes the validation exactly when
   * some branch runs, and the branch that runs is the one whose literal is the version.
   */
  lemma BranchAgreesWithValidation(version: string)
    ensures IsValidVersion(version) <==> Branch(version).Some?
    ensures Branch(version).Some? ==> VersionName(Branch(version).value) == version
  {
  }

  /** Each depth's literal is accepted and selects that depth's branch and no other. */
  lemma BranchOfDepth(d: Depth)
    ensures IsValidVersion(VersionName(d))
    ensures Branch(VersionName(d)) == Some(d)
  {
    match d
    case D10 =>
    case D18 => assert VersionName(d)[7] != "resnet10"[7];
    case D34 => assert VersionName(d)[6] != "resnet10"[6];
    case D50 => assert VersionName(d)[6] != "resnet10"[6];
    case D101 => assert |VersionName(d)| != 8;
    case D152 => assert VersionName(d)[7] != "resnet101"[7];
    case D200 => assert VersionName(d)[6] != "resnet101"[6];
  }

  // ---------------------------------------------------------------------------
  // Checkpoint file and key normalisation

  /** `'resnet_' + version.strip('resnet') + '.pth'`. */
  function CheckpointFileName(version: string): (r: string)
    ensures IsPrefix("resnet_", r) && IsSuffix(".pth", r)
  {
    "resnet_" + Strip(version, "resnet") + ".pth"
  }

  /** For every accepted version the file is named after its digits: resnet_10.pth, ..., resnet_200.pth. */
  lemma CheckpointFileNameOfDepth(d: Depth)
    ensures CheckpointFileName(VersionName(d)) == "resnet_" + DepthDigits(d) + ".pth"
  {
    StripVersionDigits(DepthDigits(d));
  }

  /** What `torch.load` yields, reduced to its 'state_dict' entry (`None` when the key is absent); items in file order. */
  datatype Checkpoint = Checkpoint(stateDict: Option<seq<(string, Tensor)>>)

  /** The wrapping prefix the checkpoint's keys carry. */
  const WrapperPrefix: string := "module."

  /** `k.replace('module.', '')`. */
  function NormalisedKey(key: string): (r: string)
    ensures |r| <= |key|
  {
    RemoveAll(key, WrapperPrefix)
  }

  /** The dict comprehension over the checkpoint's items: a later item wins when two keys normalise alike. */
  function NormaliseKeys(items: seq<(string, Tensor)>): map<string, Tensor> {
    if |items| == 0 then map[]
    else NormaliseKeys(items[..|items| - 1])[NormalisedKey(items[|items| - 1].0) := items[|items| - 1].1]
  }

  /** The normalised table has exactly the normalised keys. */
  lemma {:induction false} NormaliseKeysDomain(items: seq<(string, Tensor)>)
    ensures NormaliseKeys(items).Keys == set i | 0 <= i < |items| :: NormalisedKey(items[i].0)
  {
    if |items| > 0 {
      var init := items[..|items| - 1];
      NormaliseKeysDomain(init);
      var n := |items| - 1;
      assert forall i :: 0 <= i < n ==> init[i] == items[i];
      assert (set i | 0 <= i < |items| :: NormalisedKey(items[i].0))
          == (set i | 0 <= i < n :: NormalisedKey(init[i].0)) + {NormalisedKey(items[n].0)};
    }
  }

  /** An item keeps its value under its normalised key unless a later item normalises to the same key. */
  lemma {:induction false} NormaliseKeysValue(items: seq<(string, Tensor)>, i: nat)
    requires i < |items|
    requires forall j :: i < j < |items| ==> NormalisedKey(items[j].0) != NormalisedKey(items[i].0)
    ensures NormalisedKey(items[i].0) in NormaliseKeys(items)
    ensures NormaliseKeys(items)[NormalisedKey(items[i].0)] == items[i].1
  {
    var n := |items| - 1;
    if i < n {
      var init := items[..n];
      assert forall j :: 0 <= j < n ==> init[j] == items[j];
      NormaliseKeysValue(init, i);
    }
  }

  /** A key with no 'module.' in it is left as it is. */
  lemma NormalisedKeyUnwrapped(key: string)
    ensures !Contains(key, WrapperPrefix) <==> NormalisedKey(key) == key
  {
  }

  /** The checkpoint's 'module.' + k becomes k when k itself has no 'module.' in it. */
  lemma NormalisedKeyOfWrapped(key: string)
    requires !Contains(key, WrapperPrefix)
    ensures NormalisedKey(WrapperPrefix + key) == key
  {
    RemoveAllLeading(WrapperPrefix, key);
  }

  /** `table.update(weights)`: the keys of both; on a shared key the value from `weights`. */
  function Update(table: map<string, Tensor>, weights: map<string, Tensor>): (r: map<string, Tensor>)
    ensures r.Keys == table.Keys + weights.Keys
    ensures forall k :: k in weights ==> r[k] == weights[k]
    ensures forall k :: k in table && k !in weights ==> r[k] == table[k]
  {
    table + weights
  }

  // ---------------------------------------------------------------------------
  // First-convolution channel expansion

  const Conv1Weight: string := "conv1.weight"

  /**
   * How many copies the `while channel < self.num_in_channels` loop of `intialize_model`
   * leaves: it counts copies from 1 while the count is below `n`, so `max(n, 1)`.
   */
  function Copies(n: int): (r: nat)
    ensures r >= 1 && r >= n
    ensures r == n || r == 1
  {
    if n < 1 then 1 else n
  }

  /**
   * What the loop leaves under 'conv1.weight': `Copies(n)` copies of the merged weight laid
   * side by side along axis 1. It fails only when a concatenation is needed and the weight
   * has no axis 1.
   */
  function ExpandedConv1(t: Tensor, n: int): (r: Result<Tensor>)
    ensures r.Err? <==> Copies(n) > 1 && |t.shape| < 2
    ensures r.Err? ==> r.error == ConcatFailed
  {
    if Copies(n) == 1 then Ok(t)
    else if |t.shape| < 2 then Err(ConcatFailed)
    else Ok(SideBySide(t, Copies(n)))
  }

  /**
   * A weight with an axis 1 always expands, to `max(n, 1)` copies of itself: every other axis
   * kept, axis 1 of size `c0 * max(n, 1)`, the original slices repeated copy after copy.
   */
  lemma ExpandedConv1Copies(t: Tensor, n: int)
    requires Coherent(t) && |t.shape| >= 2
    ensures ExpandedConv1(t, n) == Ok(SideBySide(t, Copies(n)))
    ensures |SideBySide(t, Copies(n)).shape| == |t.shape|
    ensures SideBySide(t, Copies(n)).shape[1] == t.shape[1] * Copies(n)
    ensures forall i :: 0 <= i < |t.shape| && i != 1 ==> SideBySide(t, Copies(n)).shape[i] == t.shape[i]
    ensures Coherent(SideBySide(t, Copies(n)))
  {
    SideBySideOne(t);
    SideBySideShape(t, Copies(n));
  }

  /** The loop counts copies, not channels: from a one-channel weight it yields exactly `n` channels. */
  lemma SingleChannelExpansion(t: Tensor, n: int)
    requires Coherent(t) && |t.shape| >= 2 && t.shape[1] == 1
    requires n >= 1
    ensures ExpandedConv1(t, n).Ok? && ExpandedConv1(t, n).value.shape[1] == n
  {
    ExpandedConv1Copies(t, n);
  }

  /** From a `c0`-channel weight the loop yields `c0 * n` channels, more than `n` whenever `c0 > 1` and `n > 0`. */
  lemma MultiChannelOvershoot(t: Tensor, n: int)
    requires Coherent(t) && |t.shape| >= 2 && t.shape[1] > 1
    requires n >= 1
    ensures ExpandedConv1(t, n).Ok? && ExpandedConv1(t, n).value.shape[1] > n
  {
    ExpandedConv1Copies(t, n);
    assert t.shape[1] * n >= 2 * n;
  }

  // ---------------------------------------------------------------------------
  // The wrapped network

  /** The MONAI network as the wrapper sees it. */
  datatype Network = Network(params: seq<string>, state: map<string, Tensor>, trainable: map<string, bool>, fc: Linear)

  /** The names `fc.parameters()` yields, in order, for the layer at attribute `fc`. */
  function FcNames(fc: Linear): seq<string> {
    if fc.bias.NoBias? then ["fc.weight"] else ["fc.weight", "fc.bias"]
  }

  function ParamSet(params: seq<string>): set<string> {
    set p | p in params
  }

  /**
   * What the library guarantees of a network: every parameter is in the state table and has
   * a flag, the flags are for parameters only, and `fc` is a registered Linear with a bias.
   */
  predicate WellFormed(net: Network) {
    && (forall p :: p in net.params ==> p in net.state)
    && net.trainable.Keys == ParamSet(net.params)
    && (forall p :: p in FcNames(net.fc) ==> p in net.params)
    && !net.fc.bias.NoBias?
  }

  /** A tensor the framework just initialised; its values are not modelled. */
  function FreshTensor(shape: seq<nat>): (t: Tensor)
    ensures t.shape == shape && Coherent(t)
  {
    Tensor(shape, if |shape| >= 2 then seq(shape[1], _ => []) else [])
  }

  /**
   * `net.fc = layer`: the new layer's parameters take the places of the old ones, with fresh
   * values and `requires_grad` set, as for any new parameter.
   */
  function SetFc(net: Network, layer: Linear): (r: Network)
    requires WellFormed(net) && !layer.bias.NoBias?
    ensures WellFormed(r) && r.params == net.params && r.fc == layer
    ensures FcNames(r.fc) == FcNames(net.fc)
    ensures forall p :: p in FcNames(layer) ==> r.trainable[p]
    ensures r.state.Keys == net.state.Keys
    ensures forall p :: p in net.state && p !in FcNames(layer) ==> r.state[p] == net.state[p]
    ensures forall p :: p in net.params && p !in FcNames(layer) ==> r.trainable[p] == net.trainable[p]
  {
    net.(fc := layer,
         state := net.state["fc.weight" := FreshTensor([layer.outFeatures, layer.inFeatures])]
                           ["fc.bias" := FreshTensor([layer.outFeatures])],
         trainable := net.trainable["fc.weight" := true]["fc.bias" := true])
  }

  /** The new head's entries in the state table have the shapes of an `in -> out` Linear. */
  lemma SetFcShapes(net: Network, layer: Linear)
    requires WellFormed(net) && !layer.bias.NoBias?
    ensures "fc.weight" in SetFc(net, layer).state && "fc.bias" in SetFc(net, layer).state
    ensures SetFc(net, layer).state["fc.weight"].shape == [layer.outFeatures, layer.inFeatures]
    ensures SetFc(net, layer).state["fc.bias"].shape == [layer.outFeatures]
  {
    assert FcNames(net.fc) == ["fc.weight", "fc.bias"];
  }

  /** The new output layer: the old layer's input width, `numClasses` outputs. */
  function OutputLayer(net: Network, numClasses: nat): (r: Linear)
    ensures r.inFeatures == net.fc.inFeatures && r.outFeatures == numClasses
    ensures !r.bias.NoBias? && r.weight == LibraryDefault
  {
    NewLinear(net.fc.inFeatures, numClasses, true)
  }

  /** `load_state_dict(table)` in strict mode accepts exactly the model's keys, each with the model's shape. */
  predicate StrictlyLoadable(net: Network, table: map<string, Tensor>) {
    && table.Keys == net.state.Keys
    && forall k :: k in table ==> table[k].shape == net.state[k].shape
  }

  function LoadState(net: Network, table: map<string, Tensor>): (r: Result<Network>)
    ensures r.Ok? <==> StrictlyLoadable(net, table)
    ensures r.Err? ==> r.error == StateDictMismatch
    ensures r.Ok? ==> r.value == net.(state := table)
  {
    if StrictlyLoadable(net, table) then Ok(net.(state := table)) else Err(StateDictMismatch)
  }

  // ---------------------------------------------------------------------------
  // Freezing policy

  /** `names` set to `v` in the flag table; any other key keeps its flag. */
  function Assign(flags: map<string, bool>, names: seq<string>, v: bool): map<string, bool> {
    map k | k in flags.Keys + ParamSet(names) :: if k in names then v else flags[k]
  }

  /** One more name set: the step a loop over `names` takes. */
  lemma AssignStep(flags: map<string, bool>, names: seq<string>, i: nat, v: bool)
    requires i < |names|
    ensures Assign(flags, names[..i + 1], v) == Assign(flags, names[..i], v)[names[i] := v]
  {
    assert names[..i + 1] == names[..i] + [names[i]];
    assert ParamSet(names[..i + 1]) == ParamSet(names[..i]) + {names[i]};
  }

  /** The flags `extract_features(fe)` leaves on a network whose parameters are `params` and whose head is `fcNames`. */
  function FeaturePolicy(flags: map<string, bool>, params: seq<string>, fcNames: seq<string>, fe: bool): map<string, bool> {
    if fe then Assign(Assign(flags, params, false), fcNames, true) else Assign(flags, params, true)
  }

  /** With `fe` exactly the head's parameters are trainable; without it every parameter is. */
  lemma FeaturePolicyFlags(flags: map<string, bool>, params: seq<string>, fcNames: seq<string>, fe: bool)
    requires flags.Keys == ParamSet(params)
    requires forall p :: p in fcNames ==> p in params
    ensures FeaturePolicy(flags, params, fcNames, fe).Keys == flags.Keys
    ensures forall p :: p in params ==> FeaturePolicy(flags, params, fcNames, fe)[p] == (!fe || p in fcNames)
  {
  }

  /** Applying the policy a second time changes nothing: the flags it sets do not depend on the old ones. */
  lemma FeaturePolicyIdempotent(flags: map<string, bool>, params: seq<string>, fcNames: seq<string>, fe: bool)
    requires flags.Keys == ParamSet(params)
    requires forall p :: p in fcNames ==> p in params
    ensures FeaturePolicy(FeaturePolicy(flags, params, fcNames, fe), params, fcNames, fe)
         == FeaturePolicy(flags, params, fcNames, fe)
  {
    var once := FeaturePolicy(flags, params, fcNames, fe);
    FeaturePolicyFlags(flags, params, fcNames, fe);
    FeaturePolicyFlags(once, params, fcNames, fe);
  }

  /** The names `assert_unfrozen_parameters` prints: the trainable parameters, in parameter order. */
  function TrainableNames(params: seq<string>, flags: map<string, bool>): (r: seq<string>)
    requires forall p :: p in params ==> p in flags
    ensures forall x :: x in r <==> x in params && flags[x]
    ensures |r| <= |params|
  {
    if |params| == 0 then []
    else
      var init := TrainableNames(params[..|params| - 1], flags);
      if flags[params[|params| - 1]] then init + [params[|params| - 1]] else init
  }

  /** One more parameter visited by the listing loop: it is listed after the others exactly when trainable. */
  lemma TrainableNamesStep(params: seq<string>, flags: map<string, bool>, i: nat)
    requires forall p :: p in params ==> p in flags
    requires i < |params|
    ensures forall p :: p in params[..i] ==> p in flags
    ensures forall p :: p in params[..i + 1] ==> p in flags
    ensures TrainableNames(params[..i + 1], flags)
         == TrainableNames(params[..i], flags) + (if flags[params[i]] then [params[i]] else [])
  {
    assert params[..i + 1][..i] == params[..i];
    assert forall p :: p in params[..i + 1] ==> p in params;
  }

  /** When every parameter is trainable, all of them are listed, in their own order. */
  lemma {:induction false} TrainableNamesAll(params: seq<string>, flags: map<string, bool>)
    requires forall p :: p in params ==> p in flags && flags[p]
    ensures TrainableNames(params, flags) == params
  {
    if |params| > 0 {
      TrainableNamesAll(params[..|params| - 1], flags);
    }
  }

  /** When no parameter is trainable, nothing is listed. */
  lemma {:induction false} TrainableNamesNone(params: seq<string>, flags: map<string, bool>)
    requires forall p :: p in params ==> p in flags && !flags[p]
    ensures TrainableNames(params, flags) == []
  {
    if |params| > 0 {
      TrainableNamesNone(params[..|params| - 1], flags);
    }
  }

  /**
   * After `extract_features(fe)` the diagnostic lists every parameter in order when `fe` is
   * false, and exactly the head's parameters when `fe` is true.
   */
  lemma ListedAfterPolicy(net: Network, fe: bool)
    requires WellFormed(net)
    ensures forall p :: p in net.params ==> p in FeaturePolicy(net.trainable, net.params, FcNames(net.fc), fe)
    ensures !fe ==> TrainableNames(net.params, FeaturePolicy(net.trainable, net.params, FcNames(net.fc), fe)) == net.params
    ensures fe ==> forall x :: x in TrainableNames(net.params, FeaturePolicy(net.trainable, net.params, FcNames(net.fc), fe))
                          <==> x in FcNames(net.fc)
  {
    var flags := FeaturePolicy(net.trainable, net.params, FcNames(net.fc), fe);
    FeaturePolicyFlags(net.trainable, net.params, FcNames(net.fc), fe);
    if !fe {
      TrainableNamesAll(net.params, flags);
    }
  }

  /** Every parameter frozen, as the ensemble does to each backbone. */
  function Frozen(net: Network): (r: Network)
    ensures r.params == net.params && r.state == net.state && r.fc == net.fc
    ensures forall p :: p in net.params ==> p in r.trainable && !r.trainable[p]
  {
    net.(trainable := Assign(net.trainable, net.params, false))
  }

  /** Freezing touches only the flags, clears every one of them, whatever they were, and lists nothing afterwards. */
  lemma FrozenFlags(net: Network)
    requires WellFormed(net)
    ensures WellFormed(Frozen(net))
    ensures Frozen(net).params == net.params && Frozen(net).state == net.state && Frozen(net).fc == net.fc
    ensures forall p :: p in net.params ==> !Frozen(net).trainable[p]
    ensures TrainableNames(net.params, Frozen(net).trainable) == []
  {
    TrainableNamesNone(net.params, Frozen(net).trainable);
  }

  lemma FrozenIdempotent(net: Network)
    requires WellFormed(net)
    ensures Frozen(Frozen(net)) == Frozen(net)
  {
  }

  // ---------------------------------------------------------------------------
  // Construction

  /**
   * The first steps of `intialize_model`: the checkpoint named after the version is read from
   * `weightsPath` and its 'state_dict' items are re-keyed without 'module.'.
   */
  function CheckpointWeights(version: string, weightsPath: string, load: string -> Option<Checkpoint>)
    : (r: Result<map<string, Tensor>>)
    ensures r.Err? ==> r.error == CheckpointUnreadable || r.error == MissingStateDict
    ensures r.Ok? ==> exists items :: load(JoinPath(weightsPath, CheckpointFileName(version))) == Some(Checkpoint(Some(items)))
                                && r.value == NormaliseKeys(items)
  {
    match load(JoinPath(weightsPath, CheckpointFileName(version)))
    case None => Err(CheckpointUnreadable)
    case Some(checkpoint) =>
      match checkpoint.stateDict
      case None => Err(MissingStateDict)
      case Some(items) => Ok(NormaliseKeys(items))
  }

  /**
   * What `intialize_model` returns: the model's state table updated with the normalised
   * checkpoint, then 'conv1.weight' expanded to `Copies(n)` copies along axis 1.
   */
  function InitialState(state: map<string, Tensor>, version: string, n: int, weightsPath: string,
                        load: string -> Option<Checkpoint>): (r: Result<map<string, Tensor>>)
    ensures r.Err? ==> r.error in {CheckpointUnreadable, MissingStateDict, MissingConv1Weight, ConcatFailed}
  {
    match CheckpointWeights(version, weightsPath, load)
    case Err(e) => Err(e)
    case Ok(weights) =>
      var merged := Update(state, weights);
      if Conv1Weight !in merged then Err(MissingConv1Weight)
      else
        match ExpandedConv1(merged[Conv1Weight], n)
        case Err(e) => Err(e)
        case Ok(w) => Ok(merged[Conv1Weight := w])
  }

  /**
   * The table `intialize_model` returns holds the model's keys and the normalised checkpoint
   * keys; a checkpoint value wins on a shared key, a model-only key keeps the model's value,
   * and only 'conv1.weight' is changed by the loop, to the expansion of its merged value.
   */
  lemma InitialStateContents(state: map<string, Tensor>, version: string, n: int, weightsPath: string,
                             load: string -> Option<Checkpoint>, items: seq<(string, Tensor)>)
    requires load(JoinPath(weightsPath, CheckpointFileName(version))) == Some(Checkpoint(Some(items)))
    requires InitialState(state, version, n, weightsPath, load).Ok?
    ensures var r := InitialState(state, version, n, weightsPath, load).value;
      && r.Keys == state.Keys + NormaliseKeys(items).Keys
      && (forall k :: k in NormaliseKeys(items) && k != Conv1Weight ==> r[k] == NormaliseKeys(items)[k])
      && (forall k :: k in state && k !in NormaliseKeys(items) && k != Conv1Weight ==> r[k] == state[k])
      && ExpandedConv1(Update(state, NormaliseKeys(items))[Conv1Weight], n) == Ok(r[Conv1Weight])
  {
    var merged := Update(state, NormaliseKeys(items));
    assert Conv1Weight in merged;
    var w := ExpandedConv1(merged[Conv1Weight], n).value;
    assert InitialState(state, version, n, weightsPath, load).value == merged[Conv1Weight := w];
  }

  /**
   * The `if self.pretrained` block of `ResNet.__init__`: the table `intialize_model` returns is
   * strictly loaded. It succeeds exactly when that table is built and fits, and then the
   * network's state is that table and nothing else changes.
   */
  function LoadPretrained(net: Network, version: string, n: int, weightsPath: string,
                          load: string -> Option<Checkpoint>): (r: Result<Network>)
    ensures var init := InitialState(net.state, version, n, weightsPath, load);
      r.Ok? <==> init.Ok? && StrictlyLoadable(net, init.value)
    ensures r.Ok? ==> r.value == net.(state := InitialState(net.state, version, n, weightsPath, load).value)
    ensures r.Err? ==> r.error in {CheckpointUnreadable, MissingStateDict, MissingConv1Weight, ConcatFailed, StateDictMismatch}
  {
    match InitialState(net.state, version, n, weightsPath, load)
    case Err(e) => Err(e)
    case Ok(table) => LoadState(net, table)
  }

  /** The rest of `ResNet.__init__` once the branch has built the network: head swap, optional pretrained load, freezing policy. */
  function Prepare(net: Network, version: string, numOutClasses: nat, numInChannels: int, pretrained: bool,
                   featureExtraction: bool, weightsPath: string, load: string -> Option<Checkpoint>): (r: Result<Network>)
    requires WellFormed(net)
    ensures r.Err? ==> r.error != InvalidVersion
    ensures !pretrained ==> r.Ok?
    ensures r.Ok? ==> WellFormed(r.value) && r.value.params == net.params
    ensures r.Ok? ==> r.value.fc == OutputLayer(net, numOutClasses)
    ensures r.Ok? ==> forall p :: p in r.value.params ==>
      r.value.trainable[p] == (!featureExtraction || p in FcNames(r.value.fc))
    ensures r.Ok? && !pretrained ==> r.value.state == SetFc(net, OutputLayer(net, numOutClasses)).state
    ensures var headed := SetFc(net, OutputLayer(net, numOutClasses));
      var init := InitialState(headed.state, version, numInChannels, weightsPath, load);
      pretrained ==> (r.Ok? <==> init.Ok? && StrictlyLoadable(headed, init.value))
    ensures r.Ok? && pretrained ==>
      r.value.state == InitialState(SetFc(net, OutputLayer(net, numOutClasses)).state, version, numInChannels, weightsPath, load).value
  {
    var headed := SetFc(net, OutputLayer(net, numOutClasses));
    var loaded := if pretrained then LoadPretrained(headed, version, numInChannels, weightsPath, load) else Ok(headed);
    match loaded
    case Err(e) => Err(e)
    case Ok(l) =>
      FeaturePolicyFlags(l.trainable, l.params, FcNames(l.fc), featureExtraction);
      Ok(l.(trainable := FeaturePolicy(l.trainable, l.params, FcNames(l.fc), featureExtraction)))
  }

  /**
   * On the pretrained path the head's entries in the state table are the checkpoint's when
   * it supplies them (`dict.update` lets it win), and the fresh layer's otherwise.
   */
  lemma PretrainedHead(net: Network, version: string, numOutClasses: nat, numInChannels: int,
                       featureExtraction: bool, weightsPath: string, load: string -> Option<Checkpoint>,
                       items: seq<(string, Tensor)>)
    requires WellFormed(net)
    requires load(JoinPath(weightsPath, CheckpointFileName(version))) == Some(Checkpoint(Some(items)))
    requires Prepare(net, version, numOutClasses, numInChannels, true, featureExtraction, weightsPath, load).Ok?
    ensures var headed := SetFc(net, OutputLayer(net, numOutClasses));
      var r := Prepare(net, version, numOutClasses, numInChannels, true, featureExtraction, weightsPath, load).value;
      forall p :: p in FcNames(r.fc) ==>
        (p in r.state && r.state[p] == if p in NormaliseKeys(items) then NormaliseKeys(items)[p] else headed.state[p])
  {
    var headed := SetFc(net, OutputLayer(net, numOutClasses));
    assert FcNames(headed.fc) == ["fc.weight", "fc.bias"];
    assert "fc.weight" != Conv1Weight && "fc.bias" != Conv1Weight by {
      assert |"fc.weight"| != |Conv1Weight| && |"fc.bias"| != |Conv1Weight|;
    }
    InitialStateContents(headed.state, version, numInChannels, weightsPath, load, items);
  }

  /** The network a successful `ResNet(...)` holds, or why construction stops. */
  function Construct(version: string, numOutClasses: nat, numInChannels: int, pretrained: bool,
                     featureExtraction: bool, weightsPath: string,
                     build: (Depth, int) -> Network, load: string -> Option<Checkpoint>): (r: Result<Network>)
    requires forall d :: WellFormed(build(d, numInChannels))
    ensures !IsValidVersion(version) ==> r == Err(InvalidVersion)
    ensures r.Ok? ==> WellFormed(r.value)
  {
    if !IsValidVersion(version) then Err(InvalidVersion)
    else
      match Branch(version)
      case None => Err(InvalidVersion)  // not reached: the validation admits only versions a branch matches
      case Some(d) =>
        Prepare(build(d, numInChannels), version, numOutClasses, numInChannels, pretrained,
                featureExtraction, weightsPath, load)
  }

  /** Construction fails with `InvalidVersion` exactly when the version is not one of the seven literals. */
  lemma ConstructRejectsInvalid(version: string, numOutClasses: nat, numInChannels: int, pretrained: bool,
                                featureExtraction: bool, weightsPath: string,
                                build: (Depth, int) -> Network, load: string -> Option<Checkpoint>)
    requires forall d :: WellFormed(build(d, numInChannels))
    ensures (Construct(version, numOutClasses, numInChannels, pretrained, featureExtraction, weightsPath, build, load)
             == Err(InvalidVersion)) <==> !IsValidVersion(version)
  {
    BranchAgreesWithValidation(version);
  }

  /** Without pretrained weights an accepted version always yields a network. */
  lemma ConstructWithoutWeights(version: string, numOutClasses: nat, numInChannels: int,
                                featureExtraction: bool, weightsPath: string,
                                build: (Depth, int) -> Network, load: string -> Option<Checkpoint>)
    requires forall d :: WellFormed(build(d, numInChannels))
    requires IsValidVersion(version)
    ensures Construct(version, numOutClasses, numInChannels, false, featureExtraction, weightsPath, build, load).Ok?
  {
    BranchAgreesWithValidation(version);
  }

  /**
   * A constructed network is the one built for the version's own depth, with the same
   * parameters, an output layer of the original input width and `numOutClasses` outputs,
   * and the freezing policy applied.
   */
  lemma ConstructedNetwork(version: string, numOutClasses: nat, numInChannels: int, pretrained: bool,
                           featureExtraction: bool, weightsPath: string,
                           build: (Depth, int) -> Network, load: string -> Option<Checkpoint>, d: Depth)
    requires forall d :: WellFormed(build(d, numInChannels))
    requires VersionName(d) == version
    requires Construct(version, numOutClasses, numInChannels, pretrained, featureExtraction, weightsPath, build, load).Ok?
    ensures var r := Construct(version, numOutClasses, numInChannels, pretrained, featureExtraction, weightsPath, build, load).value;
      && WellFormed(r)
      && r.params == build(d, numInChannels).params
      && r.fc.inFeatures == build(d, numInChannels).fc.inFeatures
      && r.fc.outFeatures == numOutClasses
      && (forall p :: p in r.params ==> r.trainable[p] == (!featureExtraction || p in FcNames(r.fc)))
  {
    BranchOfDepth(d);
  }

  /**
   * The state of a constructed network: that of the backbone after the head swap, or, with
   * pretrained weights, the table `intialize_model` builds from it.
   */
  lemma ConstructedState(version: string, numOutClasses: nat, numInChannels: int, pretrained: bool,
                         featureExtraction: bool, weightsPath: string,
                         build: (Depth, int) -> Network, load: string -> Option<Checkpoint>, d: Depth)
    requires forall d :: WellFormed(build(d, numInChannels))
    requires VersionName(d) == version
    requires Construct(version, numOutClasses, numInChannels, pretrained, featureExtraction, weightsPath, build, load).Ok?
    ensures var net := build(d, numInChannels);
      var headed := SetFc(net, OutputLayer(net, numOutClasses));
      var r := Construct(version, numOutClasses, numInChannels, pretrained, featureExtraction, weightsPath, build, load).value;
      && (!pretrained ==> r.state == headed.state)
      && (pretrained ==> InitialState(headed.state, version, numInChannels, weightsPath, load) == Ok(r.state))
  {
    ConstructIsPrepare(version, numOutClasses, numInChannels, pretrained, featureExtraction, weightsPath, build, load, d);
  }

  /** For the version's own depth, construction is `Prepare` on the network built for that depth. */
  lemma ConstructIsPrepare(version: string, numOutClasses: nat, numInChannels: int, pretrained: bool,
                           featureExtraction: bool, weightsPath: string,
                           build: (Depth, int) -> Network, load: string -> Option<Checkpoint>, d: Depth)
    requires forall d :: WellFormed(build(d, numInChannels))
    requires VersionName(d) == version
    ensures Construct(version, numOutClasses, numInChannels, pretrained, featureExtraction, weightsPath, build, load)
         == Prepare(build(d, numInChannels), version, numOutClasses, numInChannels, pretrained,
                    featureExtraction, weightsPath, load)
  {
    BranchOfDepth(d);
  }

  // ---------------------------------------------------------------------------
  // The wrapper object

  class ResNet {
    const version: string
    const numInChannels: int
    const pretrained: bool
    var model: Network

    predicate Valid()
      reads this
    {
      WellFormed(model)
    }

    /** Stores the configuration and the network the selected branch built. */
    constructor (version: string, numInChannels: int, pretrained: bool, backbone: Network)
      requires WellFormed(backbone)
      ensures Valid()
      ensures this.version == version && this.numInChannels == numInChannels && this.pretrained == pretrained
      ensures model == backbone
    {
      this.version := version;
      this.numInChannels := numInChannels;
      this.pretrained := pretrained;
      model := backbone;
    }

    /**
     * `ResNet(version, ...)`: validation, the branch, the head swap, the optional pretrained
     * load and the freezing policy. The source exits on an invalid version; here that is `Err`.
     */
    static method Create(version: string, numOutClasses: nat, numInChannels: int, pretrained: bool,
                         featureExtraction: bool, weightsPath: string,
                         build: (Depth, int) -> Network, load: string -> Option<Checkpoint>)
      returns (r: Result<ResNet>)
      requires forall d :: WellFormed(build(d, numInChannels))
      ensures var expected := Construct(version, numOutClasses, numInChannels, pretrained, featureExtraction, weightsPath, build, load);
        && (r.Err? <==> expected.Err?)
        && (r.Err? ==> r.error == expected.error)
        && (r.Ok? ==> fresh(r.value) && r.value.Valid() && r.value.model == expected.value)
      ensures r.Ok? ==> r.value.version == version && r.value.numInChannels == numInChannels && r.value.pretrained == pretrained
    {
      if !IsValidVersion(version) {
        return Err(InvalidVersion);
      }
      BranchAgreesWithValidation(version);
      var depth := Branch(version).value;
      var m := new ResNet(version, numInChannels, pretrained, build(depth, numInChannels));
      var head := m.DefineOutputLayer(numOutClasses);
      m.model := SetFc(m.model, head);
      if pretrained {
        var table := m.InitializeModel(weightsPath, load);
        if table.Err? {
          return Err(table.error);
        }
        var loaded := m.LoadStateDict(table.value);
        if loaded.Err? {
          return Err(loaded.error);
        }
      }
      m.ExtractFeatures(featureExtraction);
      r := Ok(m);
    }

    /** `define_output_layer`: a fresh Linear from the current head's input width to `numClasses`. */
    function DefineOutputLayer(numClasses: nat): (r: Linear)
      reads this
      ensures r.inFeatures == model.fc.inFeatures && r.outFeatures == numClasses
      ensures !r.bias.NoBias?
    {
      OutputLayer(model, numClasses)
    }

    /**
     * `intialize_model`: reads the checkpoint named after the version, normalises its keys,
     * merges it into a copy of the state table and widens 'conv1.weight' copy by copy.
     */
    method InitializeModel(weightsPath: string, load: string -> Option<Checkpoint>)
      returns (r: Result<map<string, Tensor>>)
      ensures r == InitialState(model.state, version, numInChannels, weightsPath, load)
    {
      var modelDict := model.state;
      var weights := CheckpointWeights(version, weightsPath, load);
      if weights.Err? {
        return Err(weights.error);
      }
      modelDict := Update(modelDict, weights.value);
      if Conv1Weight !in modelDict {
        return Err(MissingConv1Weight);
      }
      ghost var merged := modelDict;
      var conv1 := modelDict[Conv1Weight];
      ghost var expanded := ExpandedConv1(conv1, numInChannels);
      assert InitialState(model.state, version, numInChannels, weightsPath, load)
          == if expanded.Err? then Err(expanded.error) else Ok(merged[Conv1Weight := expanded.value]);
      var channel := 1;
      while channel < numInChannels
        invariant 1 <= channel <= Copies(numInChannels)
        invariant channel > 1 ==> |conv1.shape| >= 2
        invariant Conv1Weight in modelDict
        invariant modelDict == merged[Conv1Weight := modelDict[Conv1Weight]]
        invariant modelDict[Conv1Weight] == if channel == 1 then conv1 else SideBySide(conv1, channel)
        decreases numInChannels - channel
      {
        var widened := Cat1(modelDict[Conv1Weight], conv1);
        if widened.Err? {
          assert |conv1.shape| < 2;
          return Err(ConcatFailed);
        }
        SideBySideOne(conv1);
        SideBySideStep(conv1, channel);
        assert widened.value == SideBySide(conv1, channel + 1);
        modelDict := modelDict[Conv1Weight := widened.value];
        channel := channel + 1;
      }
      assert expanded == Ok(modelDict[Conv1Weight]);
      return Ok(modelDict);
    }

    /** `load_state_dict(table)` in strict mode: the table replaces the state when its keys and shapes match. */
    method LoadStateDict(table: map<string, Tensor>) returns (r: Result<()>)
      requires Valid()
      modifies this
      ensures Valid()
      ensures r.Ok? <==> StrictlyLoadable(old(model), table)
      ensures r.Err? ==> r.error == StateDictMismatch && model == old(model)
      ensures r.Ok? ==> model == old(model).(state := table)
    {
      var loaded := LoadState(model, table);
      if loaded.Err? {
        return Err(loaded.error);
      }
      model := loaded.value;
      r := Ok(());
    }

    /** `extract_features(fe)`: with `fe` freeze everything, then unfreeze the head; otherwise unfreeze everything. */
    method ExtractFeatures(featureExtraction: bool)
      requires Valid()
      modifies this
      ensures Valid()
      ensures model == old(model).(trainable := FeaturePolicy(old(model).trainable, old(model).params,
                                                              FcNames(old(model).fc), featureExtraction))
    {
      ghost var start := model;
      if featureExtraction {
        for i := 0 to |model.params|
          invariant model == start.(trainable := Assign(start.trainable, start.params[..i], false))
        {
          AssignStep(start.trainable, start.params, i, false);
          model := model.(trainable := model.trainable[model.params[i] := false]);
        }
        assert start.params[..|start.params|] == start.params;
        ghost var frozen := model;
        var head := FcNames(model.fc);
        for i := 0 to |head|
          invariant model == frozen.(trainable := Assign(frozen.trainable, head[..i], true))
        {
          AssignStep(frozen.trainable, head, i, true);
          model := model.(trainable := model.trainable[head[i] := true]);
        }
        assert head[..|head|] == head;
      } else {
        for i := 0 to |model.params|
          invariant model == start.(trainable := Assign(start.trainable, start.params[..i], true))
        {
          AssignStep(start.trainable, start.params, i, true);
          model := model.(trainable := model.trainable[model.params[i] := true]);
        }
        assert start.params[..|start.params|] == start.params;
      }
    }

    /** `assert_unfrozen_parameters`: the printed lines, a heading then each trainable name in parameter order. */
    method AssertUnfrozenParameters() returns (lines: seq<string>)
      requires forall p :: p in model.params ==> p in model.trainable
      ensures lines == ["Parameters to be updated:"] + TrainableNames(model.params, model.trainable)
    {
      var params, flags := model.params, model.trainable;
      lines := ["Parameters to be updated:"];
      for i := 0 to |params|
        invariant forall p :: p in params[..i] ==> p in flags
        invariant lines == ["Parameters to be updated:"] + TrainableNames(params[..i], flags)
      {
        TrainableNamesStep(params, flags, i);
        var name := params[i];
        if flags[name] {
          lines := lines + [name];
        }
      }
      assert params[..|params|] == params;
    }
  }
}
