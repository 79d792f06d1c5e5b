# Structural model of the ResNet wrappers and the DINO projection head

This project models, in Dafny, the structural logic of two parts of a medical-imaging
training repository:

- `scripts/models.py`: the `ResNet` wrapper around a MONAI 3D ResNet, and the
  `EnsembleModel` that combines four of them. The model covers version validation, the
  constructor branch, the output-head swap, the checkpoint file name, the key normalisation
  and merge of the pretrained table, the channel-expansion loop on `conv1.weight`, strict
  loading, the freezing policies and the trainable-parameter listing. For the ensemble it
  covers the combiner's widths and the order in which the four outputs are concatenated.
- `models/dinohead.py`: the `DINOHead` constructor. The model covers the layer-count clamp,
  the hidden and bottleneck widths, the Linear/GELU layer list built in a loop, what
  `_init_weights` reaches, and the weight-normalised last layer with its magnitude flag.

Tensors are reduced to a shape plus the list of their slices along axis 1 (module
`Tensors`), so "n copies concatenated along axis 1" can be said exactly. A MONAI network is
reduced to four things: its parameter names in registration order, its state table, a
`requires_grad` flag per parameter, and its `fc` layer (`Backbone.Network`). The MONAI
constructors and `torch.load` are passed in as functions (`build`, `load`). A fatal exit on
a bad version becomes `Err(InvalidVersion)` from the factory `ResNet.Create`.

Modules: `Outcomes` (errors, `Option`, `Result`), `Text` (Python's `str.replace`,
`str.strip` and POSIX `os.path.join`), `Tensors`, `Layers` (a `torch.nn.Linear`
descriptor), `Backbone`, `Ensemble`, `DinoHead`.

The channel loop in `intialize_model` counts copies, not channels: with `n = num_in_channels`
and `c0` the axis-1 size of the merged weight, the result has `c0 * max(n, 1)` channels (`Backbone.ExpandedConv1Copies`).
For `n >= 1` that is `c0 * n`: exactly `n` when `c0 = 1` (`Backbone.SingleChannelExpansion`), and
more than `n` when `c0 > 1` (`Backbone.MultiChannelOvershoot`).

## Model

| member | source | states |
|---|---|---|
| `Text.RemoveAll` | scripts/models.py:98 | `k.replace('module.', '')` never lengthens a key, and leaves it unchanged exactly when `module.` does not occur in it |
| `Text.RemoveAllLeading` | scripts/models.py:98 | a leading occurrence of the pattern is cut and the rest is treated as if it stood alone |
| `Text.StripLeft` | scripts/models.py:96 | the result is a suffix of the input; everything removed is in the strip set; the result does not start with a strip character |
| `Text.StripRight` | scripts/models.py:96 | the result is a prefix of the input; everything removed is in the strip set; the result does not end with a strip character |
| `Text.Strip` | scripts/models.py:96 | `str.strip(chars)`: both ends stripped, so a non-empty result neither starts nor ends with a character of `chars`, and it is never longer than the input |
| `Text.StripLeftPrefix` | scripts/models.py:96 | a leading run of strip characters is removed and stripping stops at the first character outside the set |
| `Text.StripVersionDigits` | scripts/models.py:96 | `("resnet" + digits).strip('resnet')` is exactly the digits: only characters from {r,e,s,n,t} at the ends are removed |
| `Text.JoinPath` | scripts/models.py:96 | POSIX join: an absolute name replaces the directory; otherwise the result starts with the directory, ends with the name and adds at most one separator |
| `Tensors.Cat1` | scripts/models.py:103 | `torch.cat((a, b), 1)` succeeds exactly when both have rank at least 2 and agree on every axis but 1; the result keeps one slice per axis-1 index |
| `Tensors.SideBySideStep` | scripts/models.py:103 | concatenating the original onto k side-by-side copies gives k + 1 copies |
| `Tensors.SideBySideShape` | scripts/models.py:100-105 | k copies keep the rank and every axis but 1, and multiply axis 1 by k |
| `Tensors.SideBySideSlices` | scripts/models.py:100-105 | slice j of copy q is slice j of the original weight |
| `Tensors.CatAll` | scripts/models.py:177 | an n-ary concatenation along axis 1 fails only with `ConcatFailed` |
| `Tensors.CatAllRows` | scripts/models.py:177 | matrices with a common row count concatenate to that row count, the sum of the widths, and the slices in argument order |
| `Layers.LinearOutputShape` | scripts/models.py:178 | a Linear accepts an input exactly when its last axis is the input width, keeps the leading axes and replaces the last by the output width |
| `Layers.NewLinear` | scripts/models.py:80 | definition of a fresh `torch.nn.Linear(in, out, bias)`: the given widths, the library's weight initialiser, a library bias or none |
| `Backbone.DepthDigits` | scripts/models.py:24 | each accepted literal is "resnet" followed by a non-empty run of digits |
| `Backbone.IsValidVersion` | scripts/models.py:24 | definition of the guard: the version equals one of the seven literals |
| `Backbone.Branch` | scripts/models.py:32-45 | the if/elif chain: a branch that runs is the one whose literal equals the version |
| `Backbone.BranchAgreesWithValidation` | scripts/models.py:24-45 | a version passes the validation exactly when some constructor branch runs, and that branch is the one whose literal is the version |
| `Backbone.BranchOfDepth` | scripts/models.py:32-45 | each depth's literal is accepted and selects that depth's branch, no other |
| `Backbone.CheckpointFileName` | scripts/models.py:96 | the checkpoint name always starts with `resnet_` and ends with `.pth` |
| `Backbone.CheckpointFileNameOfDepth` | scripts/models.py:96 | the checkpoint of every accepted version is `resnet_` + its digits + `.pth` (resnet_50.pth, resnet_200.pth, ...) |
| `Backbone.NormalisedKey` | scripts/models.py:98 | `k.replace('module.', '')` never lengthens a key |
| `Backbone.NormaliseKeys` | scripts/models.py:98 | definition of the dict comprehension over the checkpoint items, in file order, so a later item wins a collision |
| `Backbone.NormaliseKeysDomain` | scripts/models.py:98 | the normalised table's keys are exactly the checkpoint keys with `module.` removed |
| `Backbone.NormaliseKeysValue` | scripts/models.py:98 | every item keeps its value under its normalised key unless a later item normalises to the same key |
| `Backbone.NormalisedKeyUnwrapped` | scripts/models.py:98 | a key is unchanged by normalisation exactly when it contains no `module.` |
| `Backbone.NormalisedKeyOfWrapped` | scripts/models.py:98 | `module.` + k normalises to k when k has no `module.` of its own |
| `Backbone.Update` | scripts/models.py:99 | after `dict.update` the keys are the union; checkpoint values win on shared keys; model-only keys (such as the fresh `fc`) keep the model's value |
| `Backbone.ExpandedConv1` | scripts/models.py:100-105 | the expansion fails exactly when a concatenation is needed and the weight has no axis 1, and then with `ConcatFailed` |
| `Backbone.Copies` | scripts/models.py:101-104 | the loop leaves `max(n, 1)` copies: at least 1, at least n, and one of the two |
| `Backbone.ExpandedConv1Copies` | scripts/models.py:100-105 | a weight with axis 1 of size c0 expands to `max(n,1)` copies of itself: every other axis kept, axis 1 of size `c0 * max(n,1)` |
| `Backbone.SingleChannelExpansion` | scripts/models.py:101-104 | from a one-channel weight and `n >= 1` the result has exactly n channels |
| `Backbone.MultiChannelOvershoot` | scripts/models.py:101-104 | from a weight with more than one channel and `n >= 1` the result has more than n channels |
| `Backbone.SetFc` | scripts/models.py:47 | assigning `fc` keeps the parameter list, the state keys and every other entry and flag, and makes the new head's parameters trainable |
| `Backbone.SetFcShapes` | scripts/models.py:47 | after the swap the head's weight has shape `[out, in]` and its bias shape `[out]` |
| `Backbone.OutputLayer` | scripts/models.py:79-80 | the new head has the old head's input width, `num_classes` outputs, a bias and the library's initialiser |
| `Backbone.StrictlyLoadable` | scripts/models.py:50 | definition of strict acceptance: exactly the model's keys, each with the model's shape |
| `Backbone.LoadState` | scripts/models.py:50 | strict `load_state_dict` succeeds exactly when the table has the model's keys with the model's shapes; it then replaces the state and nothing else; otherwise `StateDictMismatch` |
| `Backbone.CheckpointWeights` | scripts/models.py:96-98 | reading the checkpoint fails only as unreadable or without `state_dict`; otherwise the result is the normalised table of the items the file at the joined path holds |
| `Backbone.InitialState` | scripts/models.py:95-105 | `intialize_model` fails only as unreadable checkpoint, no `state_dict`, no `conv1.weight`, or a failed concatenation; never with a version, loading or shape error |
| `Backbone.InitialStateContents` | scripts/models.py:95-105 | the returned table has the union of keys, checkpoint values on shared keys, model values on model-only keys, and the expansion of the merged value under `conv1.weight` |
| `Backbone.LoadPretrained` | scripts/models.py:48-50 | loading succeeds exactly when `intialize_model`'s table is built and fits strictly; the network's state is then that table and nothing else changes; the failures are those of building the table or `StateDictMismatch` |
| `Backbone.Prepare` | scripts/models.py:47-52 | after the branch: without pretraining, construction always succeeds with the swapped head's state; with it, exactly when `intialize_model`'s table is built and fits, and the state is that table; on success the parameters are the backbone's, the head is the new output layer, and exactly the policy's parameters are trainable |
| `Backbone.PretrainedHead` | scripts/models.py:99 | after the merge and the strict load, the head's entries in the state are the checkpoint's when it supplies them and the fresh layer's otherwise |
| `Backbone.FeaturePolicy` | scripts/models.py:117-124 | definition of the flags `extract_features` leaves: all cleared then the head's set, or all set |
| `Backbone.FeaturePolicyFlags` | scripts/models.py:117-124 | with feature extraction exactly the `fc` parameters are trainable; without it every parameter is; no flag is added or removed |
| `Backbone.FeaturePolicyIdempotent` | scripts/models.py:117-124 | applying the policy twice gives the same flags as applying it once |
| `Backbone.TrainableNames` | scripts/models.py:131-134 | the listed names are exactly the trainable parameters, never more than the parameters |
| `Backbone.TrainableNamesStep` | scripts/models.py:132-134 | visiting one more parameter appends it to the listing exactly when it is trainable |
| `Backbone.TrainableNamesAll` | scripts/models.py:131-134 | when every parameter is trainable, all of them are listed in parameter order |
| `Backbone.TrainableNamesNone` | scripts/models.py:131-134 | when no parameter is trainable, nothing is listed |
| `Backbone.ListedAfterPolicy` | scripts/models.py:117-134 | after the policy the listing is every parameter in order (no feature extraction) or exactly the `fc` names (feature extraction) |
| `Backbone.Frozen` | scripts/models.py:186-193 | freezing changes only the flags and clears the flag of every parameter |
| `Backbone.FrozenFlags` | scripts/models.py:186-193 | freezing a backbone clears every flag whatever it was, changes nothing else, and leaves nothing listed |
| `Backbone.FrozenIdempotent` | scripts/models.py:186-193 | freezing an already frozen backbone changes nothing |
| `Backbone.Construct` | scripts/models.py:7-52 | `ResNet(...)` as a value: an invalid version gives `InvalidVersion`; a constructed network is well formed |
| `Backbone.ConstructRejectsInvalid` | scripts/models.py:23-27 | construction fails with `InvalidVersion` exactly when the version is not one of the seven literals |
| `Backbone.ConstructWithoutWeights` | scripts/models.py:23-52 | without pretraining, every accepted version yields a network |
| `Backbone.ConstructedNetwork` | scripts/models.py:29-52 | a constructed network has the parameters of the backbone built for the version's depth, a head of the original input width with `num_out_classes` outputs, and the policy's flags |
| `Backbone.ConstructedState` | scripts/models.py:47-50 | a constructed network's state is the swapped head's state, or with pretraining the table `intialize_model` builds from it |
| `Backbone.ConstructIsPrepare` | scripts/models.py:32-52 | for the version's own depth, construction is the head swap, load and policy applied to the network built for that depth |
| `Backbone.ResNet.constructor` | scripts/models.py:29-45 | the configuration fields and the backbone the branch built are stored |
| `Backbone.ResNet.Create` | scripts/models.py:7-52 | `ResNet(...)` fails exactly when the construction specification fails, with the same error; on success the object is new, well formed, holds the specified network and stores its configuration |
| `Backbone.ResNet.DefineOutputLayer` | scripts/models.py:79-80 | the layer reads its input width from the current head, has `num_classes` outputs and a bias |
| `Backbone.ResNet.InitializeModel` | scripts/models.py:95-105 | the table computed by the merge and the copy-counting `while` loop is the specified initial state |
| `Backbone.ResNet.LoadStateDict` | scripts/models.py:50 | strict loading replaces the state exactly when the table fits, and otherwise changes nothing and reports the mismatch |
| `Backbone.ResNet.ExtractFeatures` | scripts/models.py:117-124 | the flag loops leave the network with the policy's flags and nothing else changed |
| `Backbone.ResNet.AssertUnfrozenParameters` | scripts/models.py:131-134 | the printed lines are the heading followed by the trainable names in parameter order |
| `Ensemble.Combiner` | scripts/models.py:159 | the combiner maps `4 * num_out_classes` inputs to `num_out_classes` outputs and has a bias, so its parameters are `CombinerParams` (`weight`, `bias`) |
| `Ensemble.ConcatenationOrder` | scripts/models.py:177 | the four outputs concatenate in the order model1 ... model4: rows kept, widths summed, columns of model1 first |
| `Ensemble.EnsembleModel.constructor` | scripts/models.py:153-160 | the four backbones are stored, the combiner is `4k -> k`, every backbone ends fully frozen (also when passed twice), every combiner parameter is trainable |
| `Ensemble.EnsembleModel.FreezeBackbone` | scripts/models.py:186-187 | the flag loop leaves the backbone frozen and otherwise unchanged |
| `Ensemble.EnsembleModel.FreezeBackbones` | scripts/models.py:186-193 | after the four loops each backbone is frozen relative to its state before them, also when the same backbone appears more than once |
| `Ensemble.EnsembleModel.UnfreezeCombiner` | scripts/models.py:194-195 | the last loop makes every combiner parameter trainable and leaves the combiner layer as it was |
| `Ensemble.EnsembleModel.FreezeModelParameters` | scripts/models.py:186-195 | each of the four backbones ends frozen, whatever its earlier flags and however aliased; the combiner stays and is trainable |
| `Ensemble.EnsembleModel.Forward` | scripts/models.py:177-178 | a successful forward ends in the combiner's output width; failures are only a refused concatenation or a width mismatch |
| `Ensemble.EnsembleModel.ForwardShape` | scripts/models.py:177-178 | four `rows x k` outputs through the `4k -> k` combiner give `rows x k` |
| `Ensemble.EnsembleModel.ForwardRejectsWidth` | scripts/models.py:177-178 | outputs whose widths do not sum to the combiner's input width are refused with `LinearShapeMismatch` |
| `DinoHead.EffectiveLayers` | models/dinohead.py:9 | the layer count is `max(nlayers, 1)`: at least 1, at least `nlayers`, and one of the two |
| `DinoHead.HiddenDim` | models/dinohead.py:10 | definition of the hidden width `in_dim * 4` |
| `DinoHead.BottleneckDim` | models/dinohead.py:11 | the bottleneck width is `in_dim` floor-divided by 2 |
| `DinoHead.Middle` | models/dinohead.py:17-19 | definition of what k turns of the middle loop append |
| `DinoHead.MlpLayers` | models/dinohead.py:15-21 | definition of the layer list for two or more layers |
| `DinoHead.BuildMlp` | models/dinohead.py:12-21 | `self.mlp` is a lone Linear exactly when one layer is asked for, otherwise a `Sequential` |
| `DinoHead.MiddleShape` | models/dinohead.py:17-19 | k turns of the middle loop append 2k modules: `hidden -> hidden` Linears at even places, GELUs at odd ones |
| `DinoHead.MlpLayersShape` | models/dinohead.py:15-21 | with L >= 2 the list has 2L - 1 entries, alternating Linear/GELU from a Linear; it starts `in -> hidden`, ends `hidden -> bottleneck`, and is `hidden -> hidden` at every Linear in between |
| `DinoHead.MlpLayersCounts` | models/dinohead.py:15-21 | with L >= 2 there are exactly L Linears and L - 1 GELUs |
| `DinoHead.SingleLayerMlp` | models/dinohead.py:9-13 | any `nlayers <= 1` gives a lone `in -> bottleneck` Linear with no GELU |
| `DinoHead.MlpChains` | models/dinohead.py:12-21 | each Linear accepts the width the previous one produces, so the MLP maps `in_dim` to `bottleneck_dim` |
| `DinoHead.MlpBias` | models/dinohead.py:13-20 | every Linear the constructor puts in the list has a bias |
| `DinoHead.InitLinear` | models/dinohead.py:28-32 | `_init_weights` keeps the widths, draws the weight from `trunc_normal_(std=.02)`, and zeroes the bias exactly when there is one |
| `DinoHead.InitModule` | models/dinohead.py:28-32 | `_init_weights` leaves a GELU a GELU and a Linear a Linear |
| `DinoHead.InitMlp` | models/dinohead.py:22 | `self.apply` keeps the MLP's form and the length of its layer list |
| `DinoHead.InitKeepsWidths` | models/dinohead.py:22 | initialising the layer list does not change how widths chain through it |
| `DinoHead.InitialisedMlp` | models/dinohead.py:22-32 | after `apply`, the MLP still maps `in_dim` to `bottleneck_dim`, the alternation is kept, and every Linear has a `trunc_normal_` weight and a zero bias |
| `DinoHead.DINOHead.constructor` | models/dinohead.py:7-26 | with defaults `norm_last_layer=True`, `nlayers=3`: the head holds the initialised MLP for `max(nlayers,1)` layers, whose output width is the input width of a bias-free `bottleneck -> out_dim` last layer with the library weight and magnitude 1, trainable exactly when `norm_last_layer` is false |

## Left out

- MONAI's ResNet constructors and their internal layers: a network is given by `build` and only its parameter table and `fc` are seen; `WellFormed` states what is assumed of it.
- `torch.load`, `map_location` and deserialisation: the checkpoint is what `load` returns for the joined path; a missing or unreadable file is `CheckpointUnreadable`.
- `os.path.join` on Windows: only POSIX semantics are written out.
- All forward numerics (convolutions, Linear arithmetic, GELU, `F.normalize`, the weight-norm reparameterisation): only shapes and how values are moved are modelled; the backbones' forward passes are inputs to `EnsembleModel.Forward`.
- `trunc_normal_` and the library initialisers are random: only where a value came from (`Init`) is recorded, and tensor values in the state table are never inspected.
- `print` diagnostics: `AssertUnfrozenParameters` returns its lines instead; the "Pretrained weights are loaded." message and the invalid-version message are not modelled.
- `exit(1)`: modelled as `Err(InvalidVersion)` from `Backbone.ResNet.Create`, not as process termination.
- `versions` and `output_dir` of `EnsembleModel`: stored but never used by the modelled code.
- The `__main__` block and autograd or training behaviour: only the `requires_grad` flags are modelled.
- `Backbone.LoadState`: strict loading either succeeds whole or leaves the state unchanged; what PyTorch copies before it raises on a mismatch is not modelled.
- `Tensors.CatAll`: torch's legacy acceptance of empty one-dimensional operands in `torch.cat` is not modelled; a rank below 2 fails.
- `DinoHead.InitLinear`: only the provenance of the weight (`trunc_normal_` with std 0.02) is recorded, not its values.
- The device placement (`cuda`) of loaded tensors.
- `Backbone.Prepare`: the head descriptor `fc` keeps the provenance of a fresh layer (`LibraryDefault`) even when the checkpoint supplies `fc.weight` or `fc.bias`; the loaded values are in the state table, as `Backbone.PretrainedHead` states, but the descriptor's `Init` is not updated by loading.
- Negative widths: `num_out_classes`, `in_dim` and `out_dim` are `nat`, so the error `torch.nn.Linear` raises on a negative width, and the negative hidden and bottleneck widths that would lead to it, are not modelled. `num_in_channels` is an `int` and `build` never fails, so the error MONAI's first convolution raises on a negative channel count is not modelled; there the model constructs a network, with the loop's `max(n, 1)` copies on the pretrained path.
