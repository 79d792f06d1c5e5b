/**
 * `DINOHead`: an MLP projection (one Linear, or Linear/GELU layers alternating) followed by a
 * weight-normalised, bias-free last layer. Only the layer structure and the initialisation
 * facts are modelled; the forward numerics are not.
 */
module DinoHead {
  import opened Outcomes
  import opened Layers

  /** A member of the MLP's layer list. */
  datatype Module = Dense(linear: Linear) | Gelu

  /** `self.mlp`: a lone Linear when one layer is asked for, otherwise an `nn.Sequential`. */
  datatype Mlp = Single(linear: Linear) | Sequential(layers: seq<Module>)

  /** The magnitude of a weight-normalised layer: the norm of its direction at creation, or a constant. */
  datatype Magnitude = NormOfDirection | Constant(value: real)

  /** `weight_norm(linear)`: the direction keeps `linear`'s weight; the magnitude and its flag are separate. */
  datatype WeightNormLinear = WeightNormLinear(direction: Linear, magnitude: Magnitude, magnitudeTrainable: bool)

  /** The standard deviation `_init_weights` passes to `trunc_normal_`. */
  const InitStd: real := 0.02

  // ---------------------------------------------------------------------------
  // Dimension arithmetic of `DINOHead.__init__`

  /** The clamp `nlayers = max(nlayers, 1)` at the start of `DINOHead.__init__`. */
  function EffectiveLayers(nlayers: int): (r: nat)
    ensures r >= 1 && r >= nlayers
    ensures r == nlayers || r == 1
  {
    if nlayers < 1 then 1 else nlayers
  }

  /** `int(in_dim * 4)`. */
  function HiddenDim(inDim: nat): nat {
    inDim * 4
  }

  /** `in_dim // 2`: floor division, which on a non-negative width is Dafny's `/`. */
  function BottleneckDim(inDim: nat): (r: nat)
    ensures 2 * r <= inDim < 2 * r + 2
  {
    inDim / 2
  }

  // ---------------------------------------------------------------------------
  // The layer list `DINOHead.__init__` builds

  /** What `k` turns of the middle loop append: a hidden-to-hidden Linear then a GELU, each time. */
  function Middle(hidden: nat, k: nat): seq<Module> {
    if k == 0 then [] else Middle(hidden, k - 1) + [Dense(NewLinear(hidden, hidden, true)), Gelu]
  }

  /** The layer list of an MLP with `count >= 2` Linears. */
  function MlpLayers(inDim: nat, count: nat): seq<Module>
    requires count >= 2
  {
    [Dense(NewLinear(inDim, HiddenDim(inDim), true)), Gelu]
      + Middle(HiddenDim(inDim), count - 2)
      + [Dense(NewLinear(HiddenDim(inDim), BottleneckDim(inDim), true))]
  }

  /** `self.mlp` as built, before `_init_weights` runs, for an effective layer count `count`. */
  function BuildMlp(inDim: nat, count: nat): (r: Mlp)
    requires count >= 1
    ensures r.Single? <==> count == 1
  {
    if count == 1 then Single(NewLinear(inDim, BottleneckDim(inDim), true))
    else Sequential(MlpLayers(inDim, count))
  }

  lemma {:induction false} MiddleShape(hidden: nat, k: nat)
    ensures |Middle(hidden, k)| == 2 * k
    ensures forall j :: 0 <= j < 2 * k ==>
      Middle(hidden, k)[j] == if j % 2 == 0 then Dense(NewLinear(hidden, hidden, true)) else Gelu
  {
    if k > 0 {
      MiddleShape(hidden, k - 1);
      var prev := Middle(hidden, k - 1);
      var step := [Dense(NewLinear(hidden, hidden, true)), Gelu];
      assert Middle(hidden, k) == prev + step;
      forall j | 0 <= j < 2 * k
        ensures Middle(hidden, k)[j] == if j % 2 == 0 then Dense(NewLinear(hidden, hidden, true)) else Gelu
      {
        if j < 2 * k - 2 {
          assert Middle(hidden, k)[j] == prev[j];
        } else if j == 2 * k - 2 {
          assert Middle(hidden, k)[j] == step[0];
        } else {
          assert Middle(hidden, k)[j] == step[1];
        }
      }
    }
  }

  /**
   * With `count >= 2` Linears the list has `2 * count - 1` entries: Linears at the even
   * positions and GELUs at the odd ones, starting with `in -> hidden`, ending with
   * `hidden -> bottleneck`, and `hidden -> hidden` at every even position in between.
   */
  lemma MlpLayersShape(inDim: nat, count: nat)
    requires count >= 2
    ensures var ls := MlpLayers(inDim, count);
      && |ls| == 2 * count - 1
      && (forall i :: 0 <= i < |ls| ==> (ls[i].Dense? <==> i % 2 == 0))
      && ls[0] == Dense(NewLinear(inDim, HiddenDim(inDim), true))
      && ls[|ls| - 1] == Dense(NewLinear(HiddenDim(inDim), BottleneckDim(inDim), true))
      && (forall i :: 0 < i < |ls| - 1 && i % 2 == 0 ==>
            ls[i] == Dense(NewLinear(HiddenDim(inDim), HiddenDim(inDim), true)))
  {
    var h := HiddenDim(inDim);
    var head := [Dense(NewLinear(inDim, h, true)), Gelu];
    var mid := Middle(h, count - 2);
    var tail := [Dense(NewLinear(h, BottleneckDim(inDim), true))];
    var ls := MlpLayers(inDim, count);
    MiddleShape(h, count - 2);
    assert ls == head + mid + tail;
    forall i | 2 <= i < |ls| - 1
      ensures ls[i] == mid[i - 2]
    {
    }
    forall i | 0 <= i < |ls|
      ensures ls[i].Dense? <==> i % 2 == 0
    {
      if 2 <= i < |ls| - 1 {
        assert ls[i] == mid[i - 2];
        assert (i - 2) % 2 == i % 2;
      }
    }
  }

  /** How many Linears a layer list holds. */
  function DenseCount(ls: seq<Module>): (r: nat)
    ensures r <= |ls|
  {
    if |ls| == 0 then 0
    else DenseCount(ls[..|ls| - 1]) + (if ls[|ls| - 1].Dense? then 1 else 0)
  }

  /** Counting Linears distributes over concatenation. */
  lemma {:induction false} DenseCountAppend(a: seq<Module>, b: seq<Module>)
    ensures DenseCount(a + b) == DenseCount(a) + DenseCount(b)
    decreases |b|
  {
    if |b| > 0 {
      assert (a + b)[..|a + b| - 1] == a + b[..|b| - 1];
      DenseCountAppend(a, b[..|b| - 1]);
    } else {
      assert a + b == a;
    }
  }

  lemma {:induction false} MiddleCount(hidden: nat, k: nat)
    ensures DenseCount(Middle(hidden, k)) == k
  {
    if k > 0 {
      var step := [Dense(NewLinear(hidden, hidden, true)), Gelu];
      MiddleCount(hidden, k - 1);
      DenseCountAppend(Middle(hidden, k - 1), step);
      assert step[..1][..0] == [] && step[..1] == [step[0]];
    }
  }

  /** Of the `2 * count - 1` entries, exactly `count` are Linears and `count - 1` are GELUs. */
  lemma MlpLayersCounts(inDim: nat, count: nat)
    requires count >= 2
    ensures DenseCount(MlpLayers(inDim, count)) == count
    ensures |MlpLayers(inDim, count)| - DenseCount(MlpLayers(inDim, count)) == count - 1
  {
    var h := HiddenDim(inDim);
    var head := [Dense(NewLinear(inDim, h, true)), Gelu];
    var mid := Middle(h, count - 2);
    var tail := [Dense(NewLinear(h, BottleneckDim(inDim), true))];
    MiddleCount(h, count - 2);
    MlpLayersShape(inDim, count);
    DenseCountAppend(head, mid);
    DenseCountAppend(head + mid, tail);
    assert head[..1][..0] == [] && head[..1] == [head[0]];
    assert tail[..0] == [];
    assert DenseCount(head) == 1 && DenseCount(tail) == 1;
  }

  /** With one layer the MLP is a lone `in -> bottleneck` Linear and holds no GELU. */
  lemma SingleLayerMlp(inDim: nat, nlayers: int)
    requires nlayers <= 1
    ensures BuildMlp(inDim, EffectiveLayers(nlayers)) == Single(NewLinear(inDim, BottleneckDim(inDim), true))
  {
  }

  // ---------------------------------------------------------------------------
  // Width chaining

  /**
   * The width a layer list produces from `width` input features: a GELU keeps it, a Linear
   * must accept it and replaces it by its output width; `None` when some Linear does not.
   */
  function Propagate(ls: seq<Module>, width: nat): Option<nat>
    decreases |ls|
  {
    if |ls| == 0 then Some(width)
    else
      match ls[0]
      case Gelu => Propagate(ls[1..], width)
      case Dense(l) => if l.inFeatures == width then Propagate(ls[1..], l.outFeatures) else None
  }

  lemma {:induction false} PropagateAppend(a: seq<Module>, b: seq<Module>, width: nat)
    ensures Propagate(a + b, width) == match Propagate(a, width) { case None => None case Some(w) => Propagate(b, w) }
    decreases |a|
  {
    if |a| == 0 {
      assert a + b == b;
    } else {
      assert (a + b)[0] == a[0];
      assert (a + b)[1..] == a[1..] + b;
      match a[0]
      case Gelu => PropagateAppend(a[1..], b, width);
      case Dense(l) =>
        if l.inFeatures == width {
          PropagateAppend(a[1..], b, l.outFeatures);
        }
    }
  }

  lemma {:induction false} MiddlePropagates(hidden: nat, k: nat)
    ensures Propagate(Middle(hidden, k), hidden) == Some(hidden)
  {
    if k > 0 {
      var step := [Dense(NewLinear(hidden, hidden, true)), Gelu];
      MiddlePropagates(hidden, k - 1);
      PropagateAppend(Middle(hidden, k - 1), step, hidden);
      assert step[1..][1..] == [];
      assert Propagate(step[1..], hidden) == Some(hidden);
      assert Propagate(step, hidden) == Some(hidden);
    }
  }

  /** The width an MLP produces from `width` input features. */
  function MlpWidth(mlp: Mlp, width: nat): Option<nat> {
    match mlp
    case Single(l) => if l.inFeatures == width then Some(l.outFeatures) else None
    case Sequential(ls) => Propagate(ls, width)
  }

  /** Each Linear accepts what the previous one produces, so the MLP maps `in_dim` to `bottleneck_dim`. */
  lemma MlpChains(inDim: nat, count: nat)
    requires count >= 1
    ensures MlpWidth(BuildMlp(inDim, count), inDim) == Some(BottleneckDim(inDim))
  {
    if count >= 2 {
      var h := HiddenDim(inDim);
      var head := [Dense(NewLinear(inDim, h, true)), Gelu];
      var mid := Middle(h, count - 2);
      var tail := [Dense(NewLinear(h, BottleneckDim(inDim), true))];
      assert head[1..][1..] == [];
      assert tail[1..] == [];
      MiddlePropagates(h, count - 2);
      PropagateAppend(head, mid, inDim);
      PropagateAppend(head + mid, tail, inDim);
    }
  }

  // ---------------------------------------------------------------------------
  // `_init_weights`, applied by `self.apply`

  /** `_init_weights` on a Linear: weight from `trunc_normal_(std=.02)`, bias (when present) zeroed. */
  function InitLinear(l: Linear): (r: Linear)
    ensures r.inFeatures == l.inFeatures && r.outFeatures == l.outFeatures
    ensures r.weight == TruncNormal(InitStd)
    ensures r.bias.NoBias? <==> l.bias.NoBias?
    ensures !r.bias.NoBias? ==> r.bias == ZeroBias
  {
    l.(weight := TruncNormal(InitStd), bias := if l.bias.NoBias? then NoBias else ZeroBias)
  }

  /** `_init_weights` on a list member: a GELU is not a Linear and is left alone. */
  function InitModule(m: Module): (r: Module)
    ensures r.Dense? <==> m.Dense?
  {
    match m
    case Dense(l) => Dense(InitLinear(l))
    case Gelu => Gelu
  }

  /** `self.apply(self._init_weights)` while `self.mlp` is the only submodule. */
  function InitMlp(mlp: Mlp): (r: Mlp)
    ensures r.Single? <==> mlp.Single?
    ensures r.Sequential? ==> |r.layers| == |mlp.layers|
  {
    match mlp
    case Single(l) => Single(InitLinear(l))
    case Sequential(ls) => Sequential(seq(|ls|, i requires 0 <= i < |ls| => InitModule(ls[i])))
  }

  /** Initialisation changes no width, so the MLP chains exactly as before. */
  lemma {:induction false} InitKeepsWidths(ls: seq<Module>, width: nat)
    ensures Propagate(seq(|ls|, i requires 0 <= i < |ls| => InitModule(ls[i])), width) == Propagate(ls, width)
    decreases |ls|
  {
    var init := seq(|ls|, i requires 0 <= i < |ls| => InitModule(ls[i]));
    if |ls| > 0 {
      var rest := seq(|ls| - 1, i requires 0 <= i < |ls| - 1 => InitModule(ls[1..][i]));
      assert init[1..] == rest;
      match ls[0]
      case Gelu => InitKeepsWidths(ls[1..], width);
      case Dense(l) => InitKeepsWidths(ls[1..], l.outFeatures);
    }
  }

  /**
   * After initialisation every Linear of the MLP has a `trunc_normal_` weight and a zero
   * bias, the GELUs stay where they were, and the MLP still maps `in_dim` to `bottleneck_dim`.
   */
  lemma InitialisedMlp(inDim: nat, count: nat)
    requires count >= 1
    ensures MlpWidth(InitMlp(BuildMlp(inDim, count)), inDim) == Some(BottleneckDim(inDim))
    ensures InitMlp(BuildMlp(inDim, count)).Single? ==>
      InitMlp(BuildMlp(inDim, count)).linear.weight == TruncNormal(InitStd)
      && InitMlp(BuildMlp(inDim, count)).linear.bias == ZeroBias
    ensures InitMlp(BuildMlp(inDim, count)).Sequential? ==>
      var ls := InitMlp(BuildMlp(inDim, count)).layers;
      && |ls| == 2 * count - 1
      && forall i :: 0 <= i < |ls| ==>
           (ls[i].Dense? <==> i % 2 == 0)
           && (ls[i].Dense? ==> ls[i].linear.weight == TruncNormal(InitStd) && ls[i].linear.bias == ZeroBias)
  {
    MlpChains(inDim, count);
    if count >= 2 {
      var built := MlpLayers(inDim, count);
      MlpLayersShape(inDim, count);
      InitKeepsWidths(built, inDim);
      forall i | 0 <= i < |built| && built[i].Dense?
        ensures built[i].linear.bias == DefaultBias
      {
        MlpBias(inDim, count, i);
      }
    }
  }

  /** Every Linear the constructor builds has a bias. */
  lemma MlpBias(inDim: nat, count: nat, i: nat)
    requires count >= 2 && i < |MlpLayers(inDim, count)| && MlpLayers(inDim, count)[i].Dense?
    ensures MlpLayers(inDim, count)[i].linear.bias == DefaultBias
  {
    var h := HiddenDim(inDim);
    MlpLayersShape(inDim, count);
    MiddleShape(h, count - 2);
    var ls := MlpLayers(inDim, count);
    if 2 <= i < |ls| - 1 {
      assert ls[i] == Middle(h, count - 2)[i - 2];
    }
  }

  // ---------------------------------------------------------------------------
  // The head

  class DINOHead {
    var mlp: Mlp
    var lastLayer: WeightNormLinear

    /**
     * `DINOHead(in_dim, out_dim, norm_last_layer=True, nlayers=3)`. The layer list is built in
     * a loop, `_init_weights` reaches the MLP only (the last layer does not exist yet), and the
     * last layer is a bias-free `bottleneck -> out_dim` Linear under weight normalisation
     * whose magnitude is 1, trainable exactly when `norm_last_layer` is false. The MLP's
     * output width is the last layer's input width.
     */
    constructor (inDim: nat, outDim: nat, normLastLayer: bool := true, nlayers: int := 3)
      ensures mlp == InitMlp(BuildMlp(inDim, EffectiveLayers(nlayers)))
      ensures lastLayer.direction == NewLinear(BottleneckDim(inDim), outDim, false)
      ensures lastLayer.magnitude == Constant(1.0)
      ensures lastLayer.magnitudeTrainable <==> !normLastLayer
      ensures MlpWidth(mlp, inDim) == Some(lastLayer.direction.inFeatures)
      ensures lastLayer.direction.bias == NoBias && lastLayer.direction.weight == LibraryDefault
    {
      var count := EffectiveLayers(nlayers);
      var hidden := HiddenDim(inDim);
      var bottleneck := BottleneckDim(inDim);
      var built: Mlp;
      if count == 1 {
        built := Single(NewLinear(inDim, bottleneck, true));
      } else {
        var layers := [Dense(NewLinear(inDim, hidden, true))];
        layers := layers + [Gelu];
        for i := 0 to count - 2
          invariant layers == [Dense(NewLinear(inDim, hidden, true)), Gelu] + Middle(hidden, i)
        {
          layers := layers + [Dense(NewLinear(hidden, hidden, true))];
          layers := layers + [Gelu];
        }
        layers := layers + [Dense(NewLinear(hidden, bottleneck, true))];
        built := Sequential(layers);
      }
      // self.apply(self._init_weights): every module of the MLP is visited
      var initialised: Mlp;
      match built {
        case Single(l) =>
          initialised := Single(InitLinear(l));
        case Sequential(ls) =>
          var layers := ls;
          for i := 0 to |layers|
            invariant |layers| == |ls|
            invariant forall j :: 0 <= j < i ==> layers[j] == InitModule(ls[j])
            invariant forall j :: i <= j < |ls| ==> layers[j] == ls[j]
          {
            layers := layers[i := InitModule(layers[i])];
          }
          initialised := Sequential(layers);
      }
      mlp := initialised;
      var last := WeightNormLinear(NewLinear(bottleneck, outDim, false), NormOfDirection, true);
      last := last.(magnitude := Constant(1.0));
      if normLastLayer {
        last := last.(magnitudeTrainable := false);
      }
      lastLayer := last;
      InitialisedMlp(inDim, count);
    }
  }
}
