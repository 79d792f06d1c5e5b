/**
 * Tensors reduced to what the wrappers can observe: a shape, and the contents cut into
 * slices along axis 1 (for a convolution weight, one slice per input channel; for a batch
 * of logits, one slice per output column). `torch.cat` along axis 1 is modelled on that.
 */
module Tensors {
  import opened Outcomes

  /** The values found at one index of axis 1; never inspected, only moved. */
  type Slice = seq<real>

  datatype Tensor = Tensor(shape: seq<nat>, slices: seq<Slice>)

  /** A tensor with an axis 1 has one slice per index of that axis. */
  predicate Coherent(t: Tensor) {
    |t.shape| >= 2 ==> |t.slices| == t.shape[1]
  }

  /** What `torch.cat` demands along axis 1: both of rank two or more, agreeing on every other axis. */
  predicate CatCompatible(a: Tensor, b: Tensor) {
    && |a.shape| >= 2
    && |a.shape| == |b.shape|
    && forall i :: 0 <= i < |a.shape| && i != 1 ==> a.shape[i] == b.shape[i]
  }

  /** `torch.cat((a, b), 1)`: the slices of `b` follow those of `a`; axis 1 grows by `b`'s size. */
  function Cat1(a: Tensor, b: Tensor): (r: Result<Tensor>)
    ensures r.Ok? <==> CatCompatible(a, b)
    ensures r.Ok? && Coherent(a) && Coherent(b) ==> Coherent(r.value)
  {
    if CatCompatible(a, b) then Ok(Tensor(a.shape[1 := a.shape[1] + b.shape[1]], a.slices + b.slices))
    else Err(ConcatFailed)
  }

  /** `k` copies of `s`, one after the other. */
  function Repeat(s: seq<Slice>, k: nat): seq<Slice> {
    if k == 0 then [] else Repeat(s, k - 1) + s
  }

  lemma {:induction false} RepeatLength(s: seq<Slice>, k: nat)
    ensures |Repeat(s, k)| == |s| * k
  {
    if k > 0 {
      RepeatLength(s, k - 1);
    }
  }

  /** Position `j` of copy `q` in the repetition holds position `j` of the original. */
  lemma {:induction false} RepeatAt(s: seq<Slice>, k: nat, q: nat, j: nat)
    requires q < k && j < |s|
    ensures |Repeat(s, k)| == |s| * k
    ensures |s| * q + j < |s| * k
    ensures Repeat(s, k)[|s| * q + j] == s[j]
  {
    RepeatLength(s, k);
    RepeatLength(s, k - 1);
    assert |s| * k == |s| * (k - 1) + |s|;
    if q < k - 1 {
      RepeatAt(s, k - 1, q, j);
    } else {
      assert |s| * q + j == |Repeat(s, k - 1)| + j;
    }
  }

  /** `k` copies of `t` side by side along axis 1. */
  function SideBySide(t: Tensor, k: nat): Tensor
    requires |t.shape| >= 2
  {
    Tensor(t.shape[1 := t.shape[1] * k], Repeat(t.slices, k))
  }

  lemma SideBySideOne(t: Tensor)
    requires |t.shape| >= 2
    ensures SideBySide(t, 1) == t
  {
    assert Repeat(t.slices, 1) == t.slices;
    assert t.shape[1 := t.shape[1] * 1] == t.shape;
  }

  /** Concatenating one more copy onto `k` copies gives `k + 1` copies. */
  lemma SideBySideStep(t: Tensor, k: nat)
    requires |t.shape| >= 2
    ensures Cat1(SideBySide(t, k), t) == Ok(SideBySide(t, k + 1))
  {
    var a := SideBySide(t, k);
    assert CatCompatible(a, t);
    assert t.shape[1] * k + t.shape[1] == t.shape[1] * (k + 1);
    assert a.shape[1 := a.shape[1] + t.shape[1]] == t.shape[1 := t.shape[1] * (k + 1)];
  }

  /** The copies keep every axis but axis 1, which is multiplied by `k`. */
  lemma SideBySideShape(t: Tensor, k: nat)
    requires Coherent(t) && |t.shape| >= 2
    ensures |SideBySide(t, k).shape| == |t.shape|
    ensures SideBySide(t, k).shape[1] == t.shape[1] * k
    ensures forall i :: 0 <= i < |t.shape| && i != 1 ==> SideBySide(t, k).shape[i] == t.shape[i]
    ensures Coherent(SideBySide(t, k))
  {
    RepeatLength(t.slices, k);
  }

  /** Slice `j` of copy `q` is slice `j` of the original. */
  lemma SideBySideSlices(t: Tensor, k: nat, q: nat, j: nat)
    requires |t.shape| >= 2
    requires q < k && j < |t.slices|
    ensures |t.slices| * q + j < |SideBySide(t, k).slices|
    ensures SideBySide(t, k).slices[|t.slices| * q + j] == t.slices[j]
  {
    RepeatAt(t.slices, k, q, j);
  }

  /** `torch.cat(ts, 1)` for a tuple of any length, taken left to right. */
  function CatAll(ts: seq<Tensor>): (r: Result<Tensor>)
    ensures r.Err? ==> r.error == ConcatFailed
    decreases |ts|
  {
    if |ts| == 0 then Err(ConcatFailed)
    else if |ts| == 1 then (if |ts[0].shape| >= 2 then Ok(ts[0]) else Err(ConcatFailed))
    else
      match CatAll(ts[..|ts| - 1])
      case Err(e) => Err(e)
      case Ok(t) => Cat1(t, ts[|ts| - 1])
  }

  /** Sum of the axis-1 sizes of a list of matrices. */
  function TotalWidth(ts: seq<Tensor>): nat
    requires forall i :: 0 <= i < |ts| ==> |ts[i].shape| == 2
  {
    if |ts| == 0 then 0 else TotalWidth(ts[..|ts| - 1]) + ts[|ts| - 1].shape[1]
  }

  /** The slices of all tensors in list order. */
  function JoinedSlices(ts: seq<Tensor>): seq<Slice> {
    if |ts| == 0 then [] else JoinedSlices(ts[..|ts| - 1]) + ts[|ts| - 1].slices
  }

  /**
   * Concatenating matrices that share their row count succeeds; the result has those rows,
   * the sum of the widths, and the slices of the operands in argument order.
   */
  lemma {:induction false} CatAllRows(ts: seq<Tensor>, rows: nat)
    requires |ts| >= 1
    requires forall i :: 0 <= i < |ts| ==> |ts[i].shape| == 2 && ts[i].shape[0] == rows
    ensures CatAll(ts) == Ok(Tensor([rows, TotalWidth(ts)], JoinedSlices(ts)))
  {
    if |ts| == 1 {
      assert ts[..0] == [];
      assert TotalWidth(ts) == ts[0].shape[1];
      assert JoinedSlices(ts) == ts[0].slices;
      assert ts[0].shape == [rows, ts[0].shape[1]];
    } else {
      var init := ts[..|ts| - 1];
      CatAllRows(init, rows);
      var last := ts[|ts| - 1];
      var a := Tensor([rows, TotalWidth(init)], JoinedSlices(init));
      assert CatAll(init) == Ok(a);
      assert CatCompatible(a, last);
      assert last.shape == [rows, last.shape[1]];
      assert a.shape[1 := a.shape[1] + last.shape[1]] == [rows, TotalWidth(ts)];
      assert Cat1(a, last) == Ok(Tensor([rows, TotalWidth(ts)], JoinedSlices(ts)));
    }
  }
}
