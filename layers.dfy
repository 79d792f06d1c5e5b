/** `torch.nn.Linear` reduced to its widths and to how its weight and bias were initialised. */
module Layers {
  import opened Outcomes

  /** Where a weight's values came from: the layer's own initialiser, or `trunc_normal_(std)`. */
  datatype Init = LibraryDefault | TruncNormal(std: real)

  /** The bias of a layer: absent, as the layer initialised it, or set to zero. */
  datatype Bias = NoBias | DefaultBias | ZeroBias

  datatype Linear = Linear(inFeatures: nat, outFeatures: nat, weight: Init, bias: Bias)

  /** A freshly made `torch.nn.Linear(inFeatures, outFeatures, bias=withBias)`. */
  function NewLinear(inFeatures: nat, outFeatures: nat, withBias: bool): Linear {
    Linear(inFeatures, outFeatures, LibraryDefault, if withBias then DefaultBias else NoBias)
  }

  /**
   * The shape a Linear layer gives its input: the last axis must be the input width and
   * becomes the output width; every leading axis is kept.
   */
  function LinearOutputShape(layer: Linear, shape: seq<nat>): (r: Result<seq<nat>>)
    ensures r.Ok? <==> |shape| >= 1 && shape[|shape| - 1] == layer.inFeatures
    ensures r.Ok? ==> |r.value| == |shape| && r.value[..|shape| - 1] == shape[..|shape| - 1]
    ensures r.Ok? ==> r.value[|shape| - 1] == layer.outFeatures
  {
    if |shape| >= 1 && shape[|shape| - 1] == layer.inFeatures then Ok(shape[..|shape| - 1] + [layer.outFeatures])
    else Err(LinearShapeMismatch)
  }
}
