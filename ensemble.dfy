/**
 * `EnsembleModel`: four backbones whose outputs are concatenated along axis 1 and fed to
 * one Linear combiner. The backbones are frozen; only the combiner is trained.
 */
module Ensemble {
  import opened Outcomes
  import opened Tensors
  import opened Layers
  import opened Backbone

  /** The parameter names of the combiner, in registration order. */
  const CombinerParams: seq<string> := ["weight", "bias"]

  /** `torch.nn.Linear(k * 4, k)`: four k-wide score vectors in, k scores out. */
  function Combiner(numOutClasses: nat): (r: Linear)
    ensures r.inFeatures == 4 * numOutClasses && r.outFeatures == numOutClasses
    ensures !r.bias.NoBias?
  {
    NewLinear(numOutClasses * 4, numOutClasses, true)
  }

  /** Four matrices with `rows` rows each: the shape the backbones' score outputs have. */
  predicate SameRows(x1: Tensor, x2: Tensor, x3: Tensor, x4: Tensor, rows: nat) {
    && |x1.shape| == 2 && x1.shape[0] == rows
    && |x2.shape| == 2 && x2.shape[0] == rows
    && |x3.shape| == 2 && x3.shape[0] == rows
    && |x4.shape| == 2 && x4.shape[0] == rows
  }

  /**
   * `torch.cat((x1, x2, x3, x4), dim=1)` on four score matrices: the row count is kept, the
   * widths add up, and the columns of the first output come first, those of the fourth last.
   */
  lemma ConcatenationOrder(x1: Tensor, x2: Tensor, x3: Tensor, x4: Tensor, rows: nat)
    requires SameRows(x1, x2, x3, x4, rows)
    ensures CatAll([x1, x2, x3, x4])
         == Ok(Tensor([rows, x1.shape[1] + x2.shape[1] + x3.shape[1] + x4.shape[1]],
                      x1.slices + x2.slices + x3.slices + x4.slices))
  {
    var ts := [x1, x2, x3, x4];
    CatAllRows(ts, rows);
    assert ts[..3] == [x1, x2, x3];
    assert ts[..3][..2] == [x1, x2];
    assert ts[..3][..2][..1] == [x1];
    assert ts[..3][..2][..1][..0] == [];
    assert TotalWidth([x1]) == x1.shape[1];
    assert TotalWidth([x1, x2]) == x1.shape[1] + x2.shape[1];
    assert TotalWidth([x1, x2, x3]) == x1.shape[1] + x2.shape[1] + x3.shape[1];
    assert JoinedSlices([x1]) == x1.slices;
    assert JoinedSlices([x1, x2]) == x1.slices + x2.slices;
    assert JoinedSlices([x1, x2, x3]) == x1.slices + x2.slices + x3.slices;
  }

  class EnsembleModel {
    const model1: ResNet
    const model2: ResNet
    const model3: ResNet
    const model4: ResNet
    var classifier: Linear
    var combinerTrainable: map<string, bool>

    predicate Valid()
      reads this, model1, model2, model3, model4
    {
      && model1.Valid() && model2.Valid() && model3.Valid() && model4.Valid()
      && combinerTrainable.Keys == ParamSet(CombinerParams)
    }

    /**
     * `EnsembleModel(model1, ..., num_out_classes, ...)`: stores the backbones, makes the
     * `4k -> k` combiner and freezes. Every backbone ends with all its parameters frozen,
     * whatever its flags were, even when the same backbone is passed more than once.
     */
    constructor (model1: ResNet, model2: ResNet, model3: ResNet, model4: ResNet, numOutClasses: nat)
      requires model1.Valid() && model2.Valid() && model3.Valid() && model4.Valid()
      modifies model1, model2, model3, model4
      ensures Valid()
      ensures this.model1 == model1 && this.model2 == model2 && this.model3 == model3 && this.model4 == model4
      ensures classifier == Combiner(numOutClasses)
      ensures forall p :: p in CombinerParams ==> combinerTrainable[p]
      ensures model1.model == Frozen(old(model1.model)) && model2.model == Frozen(old(model2.model))
      ensures model3.model == Frozen(old(model3.model)) && model4.model == Frozen(old(model4.model))
    {
      this.model1 := model1;
      this.model2 := model2;
      this.model3 := model3;
      this.model4 := model4;
      classifier := Combiner(numOutClasses);
      combinerTrainable := map["weight" := true, "bias" := true];
      new;
      FreezeModelParameters();
    }

    /** One `for param in m.parameters(): param.requires_grad = False` loop. */
    static method FreezeBackbone(m: ResNet)
      requires m.Valid()
      modifies m
      ensures m.Valid() && m.model == Frozen(old(m.model))
    {
      ghost var start := m.model;
      for i := 0 to |m.model.params|
        invariant m.model == start.(trainable := Assign(start.trainable, start.params[..i], false))
      {
        AssignStep(start.trainable, start.params, i, false);
        m.model := m.model.(trainable := m.model.trainable[m.model.params[i] := false]);
      }
      assert start.params[..|start.params|] == start.params;
      FrozenFlags(start);
    }

    /**
     * `freeze_model_parameters`: each backbone frozen in turn, then every combiner
     * parameter made trainable. Freezing twice is freezing once, so aliased backbones agree.
     */
    method FreezeModelParameters()
      requires Valid()
      modifies model1, model2, model3, model4, this
      ensures Valid()
      ensures classifier == old(classifier)
      ensures forall p :: p in CombinerParams ==> combinerTrainable[p]
      ensures model1.model == Frozen(old(model1.model)) && model2.model == Frozen(old(model2.model))
      ensures model3.model == Frozen(old(model3.model)) && model4.model == Frozen(old(model4.model))
    {
      FreezeBackbones();
      UnfreezeCombiner();
    }

    /** The four backbone loops of `freeze_model_parameters`, in order. */
    method FreezeBackbones()
      requires model1.Valid() && model2.Valid() && model3.Valid() && model4.Valid()
      modifies model1, model2, model3, model4
      ensures model1.Valid() && model2.Valid() && model3.Valid() && model4.Valid()
      ensures model1.model == Frozen(old(model1.model)) && model2.model == Frozen(old(model2.model))
      ensures model3.model == Frozen(old(model3.model)) && model4.model == Frozen(old(model4.model))
    {
      ghost var o1, o2, o3, o4 := model1.model, model2.model, model3.model, model4.model;
      FrozenFlags(o1);
      FrozenFlags(o2);
      FrozenFlags(o3);
      FrozenFlags(o4);
      FrozenIdempotent(o1);
      FrozenIdempotent(o2);
      FrozenIdempotent(o3);
      FrozenIdempotent(o4);
      FreezeBackbone(model1);
      assert model1.model == Frozen(o1);
      FreezeBackbone(model2);
      assert model1.model == Frozen(o1) && model2.model == Frozen(o2);
      FreezeBackbone(model3);
      assert model1.model == Frozen(o1) && model2.model == Frozen(o2) && model3.model == Frozen(o3);
      FreezeBackbone(model4);
      assert model1.model == Frozen(o1) && model2.model == Frozen(o2) && model3.model == Frozen(o3);
    }

    /** The last loop of `freeze_model_parameters`: every combiner parameter made trainable. */
    method UnfreezeCombiner()
      requires combinerTrainable.Keys == ParamSet(CombinerParams)
      modifies this
      ensures classifier == old(classifier)
      ensures combinerTrainable.Keys == ParamSet(CombinerParams)
      ensures forall p :: p in CombinerParams ==> combinerTrainable[p]
    {
      for i := 0 to |CombinerParams|
        invariant classifier == old(classifier)
        invariant combinerTrainable.Keys == ParamSet(CombinerParams)
        invariant forall j :: 0 <= j < i ==> combinerTrainable[CombinerParams[j]]
      {
        combinerTrainable := combinerTrainable[CombinerParams[i] := true];
      }
    }

    /**
     * `forward`, given the four backbone outputs: they are concatenated in the order
     * model1 ... model4 and the combiner is applied; the result is the output's shape.
     */
    function Forward(x1: Tensor, x2: Tensor, x3: Tensor, x4: Tensor): (r: Result<seq<nat>>)
      reads this
      ensures r.Ok? ==> |r.value| >= 1 && r.value[|r.value| - 1] == classifier.outFeatures
      ensures r.Err? ==> r.error == ConcatFailed || r.error == LinearShapeMismatch
    {
      match CatAll([x1, x2, x3, x4])
      case Err(e) => Err(e)
      case Ok(x) => LinearOutputShape(classifier, x.shape)
    }

    /** Four `rows x k` score matrices pass the `4k -> k` combiner and give `rows x k` scores. */
    lemma ForwardShape(x1: Tensor, x2: Tensor, x3: Tensor, x4: Tensor, rows: nat, k: nat)
      requires classifier == Combiner(k)
      requires SameRows(x1, x2, x3, x4, rows)
      requires x1.shape[1] == k && x2.shape[1] == k && x3.shape[1] == k && x4.shape[1] == k
      ensures Forward(x1, x2, x3, x4) == Ok([rows, k])
    {
      ConcatenationOrder(x1, x2, x3, x4, rows);
      assert [rows, 4 * k][..1] + [k] == [rows, k];
    }

    /** Score matrices whose widths do not add up to the combiner's input width are refused. */
    lemma ForwardRejectsWidth(x1: Tensor, x2: Tensor, x3: Tensor, x4: Tensor, rows: nat)
      requires SameRows(x1, x2, x3, x4, rows)
      requires x1.shape[1] + x2.shape[1] + x3.shape[1] + x4.shape[1] != classifier.inFeatures
      ensures Forward(x1, x2, x3, x4) == Err(LinearShapeMismatch)
    {
      ConcatenationOrder(x1, x2, x3, x4, rows);
    }
  }
}
