/**
 * The layer sequence that MLP.__init__ builds from a list of layer widths, a
 * closed form of that sequence, and the feature widths it maps when applied.
 * Weights, activations and the dropout probability are values the model never
 * interprets: a layer is only its kind and its widths.
 */
module Layers {
  import opened Wrappers

  datatype Layer =
    | Linear(inFeatures: nat, outFeatures: nat)
    | BatchNorm(numFeatures: nat)
    | LayerNorm(normalizedShape: nat)
    | ReLU
    | Dropout(p: real)

  datatype Kind = KLinear | KBatchNorm | KLayerNorm | KReLU | KDropout

  function KindOf(l: Layer): Kind {
    match l
    case Linear(_, _) => KLinear
    case BatchNorm(_) => KBatchNorm
    case LayerNorm(_) => KLayerNorm
    case ReLU => KReLU
    case Dropout(_) => KDropout
  }

  // ---------------------------------------------------------------------------
  // The plan as the source builds it: five slots per pair of widths, `None` in
  // the slots that are switched off, then the `None`s filtered out and the last
  // entry dropped.
  // ---------------------------------------------------------------------------

  /** The number of iterations of `for s in range(len(sizes) - 1)`. */
  function NumBlocks(sizes: seq<nat>): nat {
    if |sizes| == 0 then 0 else |sizes| - 1
  }

  /** The five slots iteration `s` appends; only blocks before the output block are hidden. */
  function RawBlock(sizes: seq<nat>, s: nat, dropout: real, batchNorm: bool, layerNorm: bool): seq<Option<Layer>>
    requires s + 1 < |sizes|
  {
    var hidden := s < |sizes| - 2;
    [ Some(Linear(sizes[s], sizes[s + 1])),
      if batchNorm && hidden then Some(BatchNorm(sizes[s + 1])) else None,
      if layerNorm && hidden && !batchNorm then Some(LayerNorm(sizes[s + 1])) else None,
      Some(ReLU),
      if hidden then Some(Dropout(dropout)) else None ]
  }

  /** The slots after the first `k` iterations of the loop. */
  function RawLayers(sizes: seq<nat>, k: nat, dropout: real, batchNorm: bool, layerNorm: bool): seq<Option<Layer>>
    requires k <= NumBlocks(sizes)
  {
    if k == 0 then []
    else RawLayers(sizes, k - 1, dropout, batchNorm, layerNorm) + RawBlock(sizes, k - 1, dropout, batchNorm, layerNorm)
  }

  function Slot(x: Option<Layer>): seq<Layer> {
    if x.Some? then [x.value] else []
  }

  /** `[layer for layer in layers if layer is not None]` */
  function Present(xs: seq<Option<Layer>>): seq<Layer> {
    if xs == [] then [] else Present(xs[..|xs| - 1]) + Slot(xs[|xs| - 1])
  }

  /** Python's `xs[:-1]`, which is empty for an empty list. */
  function DropLast<T>(xs: seq<T>): seq<T> {
    if xs == [] then [] else xs[..|xs| - 1]
  }

  /** The `network` of an MLP built with these arguments. */
  function Plan(sizes: seq<nat>, dropout: real, batchNorm: bool, layerNorm: bool): seq<Layer> {
    DropLast(Present(RawLayers(sizes, NumBlocks(sizes), dropout, batchNorm, layerNorm)))
  }

  /** `torch.nn.Dropout(p)` raises ValueError unless 0 <= p <= 1. */
  predicate DropoutRateValid(p: real) {
    0.0 <= p <= 1.0
  }

  /** Whether building the layers raises: a Dropout layer is made only for a hidden block. */
  predicate PlanRaises(sizes: seq<nat>, dropout: real) {
    |sizes| >= 3 && !DropoutRateValid(dropout)
  }

  /**
   * The loop of MLP.__init__ that grows the slot list, then the filter and the
   * final `[:-1]`. The first hidden block's Dropout raises for a rate outside
   * [0, 1].
   */
  method BuildLayerPlan(sizes: seq<nat>, dropout: real, batchNorm: bool, layerNorm: bool) returns (r: Result<seq<Layer>>)
    ensures r.Err? <==> PlanRaises(sizes, dropout)
    ensures r.Err? ==> r.error == InvalidDropout(dropout)
    ensures r.Ok? ==> r.value == Plan(sizes, dropout, batchNorm, layerNorm)
    ensures r.Ok? ==> r.value == ReferencePlan(sizes, dropout, batchNorm, layerNorm)
  {
    var raw: seq<Option<Layer>> := [];
    var s := 0;
    while s < |sizes| - 1
      invariant s <= NumBlocks(sizes)
      invariant raw == RawLayers(sizes, s, dropout, batchNorm, layerNorm)
      invariant s > 0 && |sizes| >= 3 ==> DropoutRateValid(dropout)
    {
      if s < |sizes| - 2 && !DropoutRateValid(dropout) {
        return Err(InvalidDropout(dropout));
      }
      raw := raw + [
        Some(Linear(sizes[s], sizes[s + 1])),
        if batchNorm && s < |sizes| - 2 then Some(BatchNorm(sizes[s + 1])) else None,
        if layerNorm && s < |sizes| - 2 && !batchNorm then Some(LayerNorm(sizes[s + 1])) else None,
        Some(ReLU),
        if s < |sizes| - 2 then Some(Dropout(dropout)) else None
      ];
      assert raw == RawLayers(sizes, s + 1, dropout, batchNorm, layerNorm);
      s := s + 1;
    }
    assert s == NumBlocks(sizes);
    // the comprehension that drops the switched-off slots, then `[:-1]`
    var layers := DropLast(Present(raw));
    PlanShape(sizes, dropout, batchNorm, layerNorm);
    r := Ok(layers);
  }

  // ---------------------------------------------------------------------------
  // The plan in closed form: one hidden block per hidden width, then the output
  // Linear layer on its own.
  // ---------------------------------------------------------------------------

  /** Linear, the normalisation that is switched on (BatchNorm wins over LayerNorm), ReLU, Dropout. */
  function HiddenBlock(sizes: seq<nat>, k: nat, dropout: real, batchNorm: bool, layerNorm: bool): seq<Layer>
    requires k + 2 < |sizes|
  {
    [Linear(sizes[k], sizes[k + 1])]
    + (if batchNorm then [BatchNorm(sizes[k + 1])] else if layerNorm then [LayerNorm(sizes[k + 1])] else [])
    + [ReLU, Dropout(dropout)]
  }

  /** The first `k` hidden blocks. */
  function Hidden(sizes: seq<nat>, k: nat, dropout: real, batchNorm: bool, layerNorm: bool): seq<Layer>
    requires k + 2 <= |sizes|
  {
    if k == 0 then []
    else Hidden(sizes, k - 1, dropout, batchNorm, layerNorm) + HiddenBlock(sizes, k - 1, dropout, batchNorm, layerNorm)
  }

  function ReferencePlan(sizes: seq<nat>, dropout: real, batchNorm: bool, layerNorm: bool): seq<Layer> {
    if |sizes| < 2 then []
    else Hidden(sizes, |sizes| - 2, dropout, batchNorm, layerNorm) + [Linear(sizes[|sizes| - 2], sizes[|sizes| - 1])]
  }

  lemma {:induction false} PresentAppend(xs: seq<Option<Layer>>, ys: seq<Option<Layer>>)
    ensures Present(xs + ys) == Present(xs) + Present(ys)
    decreases |ys|
  {
    if ys == [] {
      assert xs + ys == xs;
    } else {
      var init := ys[..|ys| - 1];
      assert (xs + ys)[..|xs + ys| - 1] == xs + init;
      PresentAppend(xs, init);
    }
  }

  lemma PresentSnoc(xs: seq<Option<Layer>>, x: Option<Layer>)
    ensures Present(xs + [x]) == Present(xs) + Slot(x)
  {
    assert (xs + [x])[..|xs|] == xs;
  }

  lemma PresentFive(a: Option<Layer>, b: Option<Layer>, c: Option<Layer>, d: Option<Layer>, e: Option<Layer>)
    ensures Present([a, b, c, d, e]) == Slot(a) + Slot(b) + Slot(c) + Slot(d) + Slot(e)
  {
    assert Present([a]) == Slot(a) by {
      PresentSnoc([], a);
      assert [] + [a] == [a];
    }
    assert Present([a, b]) == Present([a]) + Slot(b) by {
      PresentSnoc([a], b);
      assert [a] + [b] == [a, b];
    }
    assert Present([a, b, c]) == Present([a, b]) + Slot(c) by {
      PresentSnoc([a, b], c);
      assert [a, b] + [c] == [a, b, c];
    }
    assert Present([a, b, c, d]) == Present([a, b, c]) + Slot(d) by {
      PresentSnoc([a, b, c], d);
      assert [a, b, c] + [d] == [a, b, c, d];
    }
    assert Present([a, b, c, d, e]) == Present([a, b, c, d]) + Slot(e) by {
      PresentSnoc([a, b, c, d], e);
      assert [a, b, c, d] + [e] == [a, b, c, d, e];
    }
  }

  /** The slots of a hidden iteration, filtered, are one hidden block. */
  lemma PresentRawBlock(sizes: seq<nat>, k: nat, dropout: real, batchNorm: bool, layerNorm: bool)
    requires k + 2 < |sizes|
    ensures Present(RawBlock(sizes, k, dropout, batchNorm, layerNorm)) == HiddenBlock(sizes, k, dropout, batchNorm, layerNorm)
  {
    var blk := RawBlock(sizes, k, dropout, batchNorm, layerNorm);
    PresentFive(blk[0], blk[1], blk[2], blk[3], blk[4]);
    var lin := Linear(sizes[k], sizes[k + 1]);
    if batchNorm {
      assert Present(blk) == [lin] + [BatchNorm(sizes[k + 1])] + [] + [ReLU] + [Dropout(dropout)];
    } else if layerNorm {
      assert Present(blk) == [lin] + [] + [LayerNorm(sizes[k + 1])] + [ReLU] + [Dropout(dropout)];
    } else {
      assert Present(blk) == [lin] + [] + [] + [ReLU] + [Dropout(dropout)];
    }
  }

  /** The slots of the last iteration, filtered, are the output Linear layer and a ReLU. */
  lemma PresentOutputBlock(sizes: seq<nat>, dropout: real, batchNorm: bool, layerNorm: bool)
    requires |sizes| >= 2
    ensures Present(RawBlock(sizes, |sizes| - 2, dropout, batchNorm, layerNorm)) == [Linear(sizes[|sizes| - 2], sizes[|sizes| - 1]), ReLU]
  {
    var blk := RawBlock(sizes, |sizes| - 2, dropout, batchNorm, layerNorm);
    PresentFive(blk[0], blk[1], blk[2], blk[3], blk[4]);
    assert Present(blk) == [Linear(sizes[|sizes| - 2], sizes[|sizes| - 1])] + [] + [] + [ReLU] + [];
  }

  /** Filtering the slots of the first `k` iterations leaves the first `k` hidden blocks. */
  lemma {:induction false} PresentRawIsHidden(sizes: seq<nat>, k: nat, dropout: real, batchNorm: bool, layerNorm: bool)
    requires k + 2 <= |sizes|
    ensures Present(RawLayers(sizes, k, dropout, batchNorm, layerNorm)) == Hidden(sizes, k, dropout, batchNorm, layerNorm)
  {
    if k > 0 {
      PresentRawIsHidden(sizes, k - 1, dropout, batchNorm, layerNorm);
      PresentAppend(RawLayers(sizes, k - 1, dropout, batchNorm, layerNorm), RawBlock(sizes, k - 1, dropout, batchNorm, layerNorm));
      PresentRawBlock(sizes, k - 1, dropout, batchNorm, layerNorm);
    }
  }

  /** Over at least two widths the filtered slots are the hidden blocks, the output layer and its ReLU. */
  lemma PresentPlanSlots(sizes: seq<nat>, dropout: real, batchNorm: bool, layerNorm: bool)
    requires |sizes| >= 2
    ensures Present(RawLayers(sizes, NumBlocks(sizes), dropout, batchNorm, layerNorm))
         == Hidden(sizes, |sizes| - 2, dropout, batchNorm, layerNorm) + [Linear(sizes[|sizes| - 2], sizes[|sizes| - 1]), ReLU]
  {
    var n := |sizes|;
    var prefix := RawLayers(sizes, n - 2, dropout, batchNorm, layerNorm);
    var last := RawBlock(sizes, n - 2, dropout, batchNorm, layerNorm);
    assert RawLayers(sizes, NumBlocks(sizes), dropout, batchNorm, layerNorm) == prefix + last;
    PresentRawIsHidden(sizes, n - 2, dropout, batchNorm, layerNorm);
    PresentAppend(prefix, last);
    PresentOutputBlock(sizes, dropout, batchNorm, layerNorm);
  }

  /** The plan the loop builds equals the closed form. */
  lemma PlanShape(sizes: seq<nat>, dropout: real, batchNorm: bool, layerNorm: bool)
    ensures Plan(sizes, dropout, batchNorm, layerNorm) == ReferencePlan(sizes, dropout, batchNorm, layerNorm)
  {
    if |sizes| >= 2 {
      var n := |sizes|;
      var h := Hidden(sizes, n - 2, dropout, batchNorm, layerNorm);
      var out := Linear(sizes[n - 2], sizes[n - 1]);
      PresentPlanSlots(sizes, dropout, batchNorm, layerNorm);
      assert DropLast(h + [out, ReLU]) == h + [out];
    } else {
      assert RawLayers(sizes, NumBlocks(sizes), dropout, batchNorm, layerNorm) == [];
    }
  }

  // ---------------------------------------------------------------------------
  // What the plan contains.
  // ---------------------------------------------------------------------------

  /** The number of layers of one kind. */
  function Count(xs: seq<Layer>, kind: Kind): nat {
    if xs == [] then 0
    else Count(xs[..|xs| - 1], kind) + (if KindOf(xs[|xs| - 1]) == kind then 1 else 0)
  }

  /** The (in, out) widths of the Linear layers, in network order. */
  function Linears(xs: seq<Layer>): seq<(nat, nat)> {
    if xs == [] then []
    else
      var l := xs[|xs| - 1];
      Linears(xs[..|xs| - 1]) + (if l.Linear? then [(l.inFeatures, l.outFeatures)] else [])
  }

  /** Whether every hidden block holds one layer of this kind. */
  predicate BlockHas(kind: Kind, batchNorm: bool, layerNorm: bool) {
    match kind
    case KBatchNorm => batchNorm
    case KLayerNorm => layerNorm && !batchNorm
    case _ => true
  }

  lemma {:induction false} CountAppend(xs: seq<Layer>, ys: seq<Layer>, kind: Kind)
    ensures Count(xs + ys, kind) == Count(xs, kind) + Count(ys, kind)
    decreases |ys|
  {
    if ys != [] {
      assert (xs + ys)[..|xs + ys| - 1] == xs + ys[..|ys| - 1];
      CountAppend(xs, ys[..|ys| - 1], kind);
    } else {
      assert xs + ys == xs;
    }
  }

  lemma {:induction false} CountPositive(xs: seq<Layer>, kind: Kind)
    ensures Count(xs, kind) > 0 <==> exists i :: 0 <= i < |xs| && KindOf(xs[i]) == kind
    decreases |xs|
  {
    if xs != [] {
      var init := xs[..|xs| - 1];
      CountPositive(init, kind);
      if Count(init, kind) > 0 {
        var i :| 0 <= i < |init| && KindOf(init[i]) == kind;
        assert xs[i] == init[i];
      }
      if exists i :: 0 <= i < |xs| && KindOf(xs[i]) == kind {
        var i :| 0 <= i < |xs| && KindOf(xs[i]) == kind;
        if i < |init| {
          assert init[i] == xs[i];
        }
      }
    }
  }

  lemma {:induction false} LinearsAppend(xs: seq<Layer>, ys: seq<Layer>)
    ensures Linears(xs + ys) == Linears(xs) + Linears(ys)
    decreases |ys|
  {
    if ys != [] {
      assert (xs + ys)[..|xs + ys| - 1] == xs + ys[..|ys| - 1];
      LinearsAppend(xs, ys[..|ys| - 1]);
    } else {
      assert xs + ys == xs;
    }
  }

  lemma {:induction false} LinearsNone(xs: seq<Layer>)
    requires forall i :: 0 <= i < |xs| ==> !xs[i].Linear?
    ensures Linears(xs) == []
    decreases |xs|
  {
    if xs != [] {
      LinearsNone(xs[..|xs| - 1]);
    }
  }

  lemma HiddenBlockCount(sizes: seq<nat>, k: nat, dropout: real, batchNorm: bool, layerNorm: bool, kind: Kind)
    requires k + 2 < |sizes|
    ensures Count(HiddenBlock(sizes, k, dropout, batchNorm, layerNorm), kind) == if BlockHas(kind, batchNorm, layerNorm) then 1 else 0
  {
    var blk := HiddenBlock(sizes, k, dropout, batchNorm, layerNorm);
    var lin := Linear(sizes[k], sizes[k + 1]);
    if batchNorm || layerNorm {
      var norm := blk[1];
      assert blk == [lin, norm, ReLU, Dropout(dropout)];
      assert blk[..3] == [lin, norm, ReLU];
      assert blk[..3][..2] == [lin, norm];
      assert blk[..3][..2][..1] == [lin];
      assert blk[..3][..2][..1][..0] == [];
      assert Count([lin], kind) == if kind == KLinear then 1 else 0;
      assert Count([lin, norm], kind) == Count([lin], kind) + (if kind == KindOf(norm) then 1 else 0);
      assert Count([lin, norm, ReLU], kind) == Count([lin, norm], kind) + (if kind == KReLU then 1 else 0);
    } else {
      assert blk == [lin, ReLU, Dropout(dropout)];
      assert blk[..2] == [lin, ReLU];
      assert blk[..2][..1] == [lin];
      assert blk[..2][..1][..0] == [];
      assert Count([lin], kind) == if kind == KLinear then 1 else 0;
      assert Count([lin, ReLU], kind) == Count([lin], kind) + (if kind == KReLU then 1 else 0);
    }
  }

  lemma {:induction false} HiddenCount(sizes: seq<nat>, k: nat, dropout: real, batchNorm: bool, layerNorm: bool, kind: Kind)
    requires k + 2 <= |sizes|
    ensures Count(Hidden(sizes, k, dropout, batchNorm, layerNorm), kind) == if BlockHas(kind, batchNorm, layerNorm) then k else 0
  {
    if k > 0 {
      HiddenCount(sizes, k - 1, dropout, batchNorm, layerNorm, kind);
      HiddenBlockCount(sizes, k - 1, dropout, batchNorm, layerNorm, kind);
      CountAppend(Hidden(sizes, k - 1, dropout, batchNorm, layerNorm), HiddenBlock(sizes, k - 1, dropout, batchNorm, layerNorm), kind);
    }
  }

  /**
   * A network over n >= 2 widths has n - 1 Linear layers and, once per hidden
   * block, one ReLU, one Dropout and the normalisation that is switched on:
   * BatchNorm when batch_norm is set, LayerNorm only when layer_norm is set and
   * batch_norm is not. Fewer than two widths give an empty network.
   */
  lemma LayerCounts(sizes: seq<nat>, dropout: real, batchNorm: bool, layerNorm: bool)
    ensures |sizes| < 2 ==> Plan(sizes, dropout, batchNorm, layerNorm) == []
    ensures |sizes| >= 2 ==>
      var plan := Plan(sizes, dropout, batchNorm, layerNorm);
      && Count(plan, KLinear) == |sizes| - 1
      && Count(plan, KReLU) == |sizes| - 2
      && Count(plan, KDropout) == |sizes| - 2
      && Count(plan, KBatchNorm) == (if batchNorm then |sizes| - 2 else 0)
      && Count(plan, KLayerNorm) == (if layerNorm && !batchNorm then |sizes| - 2 else 0)
  {
    PlanShape(sizes, dropout, batchNorm, layerNorm);
    if |sizes| >= 2 {
      var n := |sizes|;
      var h := Hidden(sizes, n - 2, dropout, batchNorm, layerNorm);
      var out := [Linear(sizes[n - 2], sizes[n - 1])];
      assert out[..0] == [];
      forall kind | true
        ensures Count(h + out, kind) == (if BlockHas(kind, batchNorm, layerNorm) then n - 2 else 0) + (if kind == KLinear then 1 else 0)
      {
        HiddenCount(sizes, n - 2, dropout, batchNorm, layerNorm, kind);
        CountAppend(h, out, kind);
      }
    }
  }

  lemma {:induction false} HiddenLinears(sizes: seq<nat>, k: nat, dropout: real, batchNorm: bool, layerNorm: bool)
    requires k + 2 <= |sizes|
    ensures |Linears(Hidden(sizes, k, dropout, batchNorm, layerNorm))| == k
    ensures forall j :: 0 <= j < k ==> Linears(Hidden(sizes, k, dropout, batchNorm, layerNorm))[j] == (sizes[j], sizes[j + 1])
  {
    if k > 0 {
      HiddenLinears(sizes, k - 1, dropout, batchNorm, layerNorm);
      var blk := HiddenBlock(sizes, k - 1, dropout, batchNorm, layerNorm);
      LinearsAppend(Hidden(sizes, k - 1, dropout, batchNorm, layerNorm), blk);
      HiddenBlockTail(sizes, k - 1, dropout, batchNorm, layerNorm, |blk|);
      assert blk[..|blk|] == blk;
    }
  }

  /** The k-th Linear layer maps sizes[k] to sizes[k + 1]. */
  lemma LinearsInOrder(sizes: seq<nat>, dropout: real, batchNorm: bool, layerNorm: bool)
    requires |sizes| >= 2
    ensures |Linears(Plan(sizes, dropout, batchNorm, layerNorm))| == |sizes| - 1
    ensures forall k :: 0 <= k < |sizes| - 1 ==> Linears(Plan(sizes, dropout, batchNorm, layerNorm))[k] == (sizes[k], sizes[k + 1])
  {
    PlanShape(sizes, dropout, batchNorm, layerNorm);
    var n := |sizes|;
    var h := Hidden(sizes, n - 2, dropout, batchNorm, layerNorm);
    var out := [Linear(sizes[n - 2], sizes[n - 1])];
    HiddenLinears(sizes, n - 2, dropout, batchNorm, layerNorm);
    LinearsAppend(h, out);
    assert out[..0] == [];
  }

  /** The trailing ReLU is dropped, so the network ends in the output layer. */
  lemma OutputLayerIsLast(sizes: seq<nat>, dropout: real, batchNorm: bool, layerNorm: bool)
    requires |sizes| >= 2
    ensures var plan := Plan(sizes, dropout, batchNorm, layerNorm);
      |plan| >= 1 && plan[|plan| - 1] == Linear(sizes[|sizes| - 2], sizes[|sizes| - 1])
  {
    PlanShape(sizes, dropout, batchNorm, layerNorm);
  }

  /** Within a hidden block only the first layer is Linear; a normalisation layer normalises its output width. */
  lemma HiddenBlockTail(sizes: seq<nat>, k: nat, dropout: real, batchNorm: bool, layerNorm: bool, o: nat)
    requires k + 2 < |sizes|
    requires 1 <= o <= |HiddenBlock(sizes, k, dropout, batchNorm, layerNorm)|
    ensures var blk := HiddenBlock(sizes, k, dropout, batchNorm, layerNorm);
      && Linears(blk[..o]) == [(sizes[k], sizes[k + 1])]
      && (o < |blk| ==> !blk[o].Linear?)
      && (o < |blk| && blk[o].BatchNorm? ==> batchNorm && blk[o].numFeatures == sizes[k + 1])
      && (o < |blk| && blk[o].LayerNorm? ==> layerNorm && !batchNorm && blk[o].normalizedShape == sizes[k + 1])
  {
    var blk := HiddenBlock(sizes, k, dropout, batchNorm, layerNorm);
    var tail := blk[1..o];
    assert forall j :: 1 <= j < |blk| ==> !blk[j].Linear?;
    assert forall j :: 0 <= j < |tail| ==> tail[j] == blk[j + 1];
    LinearsNone(tail);
    assert blk[..o] == [blk[0]] + tail;
    LinearsAppend([blk[0]], tail);
    assert [blk[0]][..0] == [];
  }

  /** A layer of the k-th hidden block that is not Linear comes after exactly k Linear layers. */
  lemma LastBlockMembers(sizes: seq<nat>, k: nat, dropout: real, batchNorm: bool, layerNorm: bool, i: nat)
    requires 1 <= k && k + 2 <= |sizes|
    requires |Hidden(sizes, k - 1, dropout, batchNorm, layerNorm)| <= i < |Hidden(sizes, k, dropout, batchNorm, layerNorm)|
    requires !Hidden(sizes, k, dropout, batchNorm, layerNorm)[i].Linear?
    ensures var h := Hidden(sizes, k, dropout, batchNorm, layerNorm);
      && |Linears(h[..i])| == k
      && (h[i].BatchNorm? ==> batchNorm && h[i].numFeatures == sizes[k])
      && (h[i].LayerNorm? ==> layerNorm && !batchNorm && h[i].normalizedShape == sizes[k])
  {
    var prev := Hidden(sizes, k - 1, dropout, batchNorm, layerNorm);
    var blk := HiddenBlock(sizes, k - 1, dropout, batchNorm, layerNorm);
    var h := prev + blk;
    var o := i - |prev|;
    assert h[i] == blk[o];
    assert o >= 1 by {
      assert blk[0].Linear?;
    }
    HiddenBlockTail(sizes, k - 1, dropout, batchNorm, layerNorm, o);
    assert h[..i] == prev + blk[..o];
    LinearsAppend(prev, blk[..o]);
    HiddenLinearCount(sizes, k - 1, dropout, batchNorm, layerNorm);
  }

  lemma {:induction false} HiddenMembers(sizes: seq<nat>, k: nat, dropout: real, batchNorm: bool, layerNorm: bool, i: nat)
    requires k + 2 <= |sizes|
    requires i < |Hidden(sizes, k, dropout, batchNorm, layerNorm)|
    requires !Hidden(sizes, k, dropout, batchNorm, layerNorm)[i].Linear?
    ensures var h := Hidden(sizes, k, dropout, batchNorm, layerNorm);
      var b := |Linears(h[..i])|;
      && 1 <= b <= k
      && (h[i].BatchNorm? ==> batchNorm && h[i].numFeatures == sizes[b])
      && (h[i].LayerNorm? ==> layerNorm && !batchNorm && h[i].normalizedShape == sizes[b])
  {
    var prev := Hidden(sizes, k - 1, dropout, batchNorm, layerNorm);
    if i < |prev| {
      var h := Hidden(sizes, k, dropout, batchNorm, layerNorm);
      assert h[..i] == prev[..i] && h[i] == prev[i];
      HiddenMembers(sizes, k - 1, dropout, batchNorm, layerNorm, i);
    } else {
      LastBlockMembers(sizes, k, dropout, batchNorm, layerNorm, i);
    }
  }

  lemma {:induction false} HiddenLinearCount(sizes: seq<nat>, k: nat, dropout: real, batchNorm: bool, layerNorm: bool)
    requires k + 2 <= |sizes|
    ensures |Linears(Hidden(sizes, k, dropout, batchNorm, layerNorm))| == k
  {
    HiddenLinears(sizes, k, dropout, batchNorm, layerNorm);
  }

  /**
   * Every layer that is not Linear belongs to a hidden block: at least one and at
   * most |sizes| - 2 Linear layers come before it, so none follows the output
   * layer. A BatchNorm or LayerNorm normalises the output width of the Linear
   * layer just before it, and only when its flag is in force.
   */
  lemma HiddenBlockMembers(sizes: seq<nat>, dropout: real, batchNorm: bool, layerNorm: bool, i: nat)
    requires i < |Plan(sizes, dropout, batchNorm, layerNorm)|
    requires !Plan(sizes, dropout, batchNorm, layerNorm)[i].Linear?
    ensures var plan := Plan(sizes, dropout, batchNorm, layerNorm);
      var b := |Linears(plan[..i])|;
      && 1 <= b <= |sizes| - 2
      && (plan[i].BatchNorm? ==> batchNorm && plan[i].numFeatures == sizes[b])
      && (plan[i].LayerNorm? ==> layerNorm && !batchNorm && plan[i].normalizedShape == sizes[b])
  {
    PlanShape(sizes, dropout, batchNorm, layerNorm);
    var n := |sizes|;
    var h := Hidden(sizes, n - 2, dropout, batchNorm, layerNorm);
    var plan := h + [Linear(sizes[n - 2], sizes[n - 1])];
    assert i < |h|;
    assert plan[..i] == h[..i];
    assert plan[i] == h[i];
    HiddenMembers(sizes, n - 2, dropout, batchNorm, layerNorm, i);
  }

  /** BatchNorm and LayerNorm each occur exactly when switched on, and never together. */
  lemma NormalisationPresence(sizes: seq<nat>, dropout: real, batchNorm: bool, layerNorm: bool)
    ensures var plan := Plan(sizes, dropout, batchNorm, layerNorm);
      (exists i :: 0 <= i < |plan| && plan[i].BatchNorm?) <==> batchNorm && |sizes| >= 3
    ensures var plan := Plan(sizes, dropout, batchNorm, layerNorm);
      (exists i :: 0 <= i < |plan| && plan[i].LayerNorm?) <==> layerNorm && !batchNorm && |sizes| >= 3
    ensures var plan := Plan(sizes, dropout, batchNorm, layerNorm);
      !exists i, j :: 0 <= i < |plan| && 0 <= j < |plan| && plan[i].BatchNorm? && plan[j].LayerNorm?
  {
    var plan := Plan(sizes, dropout, batchNorm, layerNorm);
    LayerCounts(sizes, dropout, batchNorm, layerNorm);
    CountPositive(plan, KBatchNorm);
    CountPositive(plan, KLayerNorm);
    assert forall i :: 0 <= i < |plan| ==> (plan[i].BatchNorm? <==> KindOf(plan[i]) == KBatchNorm);
    assert forall i :: 0 <= i < |plan| ==> (plan[i].LayerNorm? <==> KindOf(plan[i]) == KLayerNorm);
  }

  // ---------------------------------------------------------------------------
  // Feature widths. A layer applied to a batch whose feature width it does not
  // accept raises; this is all of torch's layer semantics that the model keeps.
  // ---------------------------------------------------------------------------

  function Apply(l: Layer, width: nat): Result<nat> {
    match l
    case Linear(i, o) => if width == i then Ok(o) else Err(ShapeMismatch(i, width))
    case BatchNorm(d) => if width == d then Ok(d) else Err(ShapeMismatch(d, width))
    case LayerNorm(d) => if width == d then Ok(d) else Err(ShapeMismatch(d, width))
    case ReLU => Ok(width)
    case Dropout(_) => Ok(width)
  }

  /** The feature width after applying the layers in order; the first failure stops the run. */
  function Run(layers: seq<Layer>, width: nat): Result<nat> {
    if layers == [] then Ok(width)
    else
      match Run(layers[..|layers| - 1], width)
      case Err(e) => Err(e)
      case Ok(w) => Apply(layers[|layers| - 1], w)
  }

  lemma {:induction false} RunAppend(xs: seq<Layer>, ys: seq<Layer>, width: nat)
    ensures Run(xs + ys, width) == match Run(xs, width) case Err(e) => Err(e) case Ok(w) => Run(ys, w)
    decreases |ys|
  {
    if ys == [] {
      assert xs + ys == xs;
    } else {
      assert (xs + ys)[..|xs + ys| - 1] == xs + ys[..|ys| - 1];
      RunAppend(xs, ys[..|ys| - 1], width);
    }
  }

  lemma HiddenBlockRun(sizes: seq<nat>, k: nat, dropout: real, batchNorm: bool, layerNorm: bool)
    requires k + 2 < |sizes|
    ensures Run(HiddenBlock(sizes, k, dropout, batchNorm, layerNorm), sizes[k]) == Ok(sizes[k + 1])
  {
    var blk := HiddenBlock(sizes, k, dropout, batchNorm, layerNorm);
    var lin := Linear(sizes[k], sizes[k + 1]);
    if batchNorm || layerNorm {
      var norm := blk[1];
      assert blk == [lin, norm, ReLU, Dropout(dropout)];
      assert blk[..3] == [lin, norm, ReLU];
      assert blk[..3][..2] == [lin, norm];
      assert blk[..3][..2][..1] == [lin];
      assert blk[..3][..2][..1][..0] == [];
      assert Run([lin], sizes[k]) == Ok(sizes[k + 1]);
      assert Run([lin, norm], sizes[k]) == Ok(sizes[k + 1]);
      assert Run([lin, norm, ReLU], sizes[k]) == Ok(sizes[k + 1]);
    } else {
      assert blk == [lin, ReLU, Dropout(dropout)];
      assert blk[..2] == [lin, ReLU];
      assert blk[..2][..1] == [lin];
      assert blk[..2][..1][..0] == [];
      assert Run([lin], sizes[k]) == Ok(sizes[k + 1]);
      assert Run([lin, ReLU], sizes[k]) == Ok(sizes[k + 1]);
    }
  }

  lemma {:induction false} HiddenRun(sizes: seq<nat>, k: nat, dropout: real, batchNorm: bool, layerNorm: bool)
    requires k + 2 <= |sizes|
    ensures Run(Hidden(sizes, k, dropout, batchNorm, layerNorm), sizes[0]) == Ok(sizes[k])
  {
    if k > 0 {
      HiddenRun(sizes, k - 1, dropout, batchNorm, layerNorm);
      HiddenBlockRun(sizes, k - 1, dropout, batchNorm, layerNorm);
      RunAppend(Hidden(sizes, k - 1, dropout, batchNorm, layerNorm), HiddenBlock(sizes, k - 1, dropout, batchNorm, layerNorm), sizes[0]);
    }
  }

  /** At least one hidden block refuses a batch of any width but sizes[0]: its first layer is Linear(sizes[0], sizes[1]). */
  lemma HiddenRejects(sizes: seq<nat>, k: nat, dropout: real, batchNorm: bool, layerNorm: bool, width: nat)
    requires 1 <= k && k + 2 <= |sizes|
    requires width != sizes[0]
    ensures Run(Hidden(sizes, k, dropout, batchNorm, layerNorm), width).Err?
  {
    var h := Hidden(sizes, k, dropout, batchNorm, layerNorm);
    HiddenFirst(sizes, k, dropout, batchNorm, layerNorm);
    var first := h[0];
    assert [first] + h[1..] == h;
    RunAppend([first], h[1..], width);
    assert [first][..0] == [];
  }

  /**
   * On a batch of width sizes[0] the network yields width sizes[-1], and all
   * layers but the last (the embedding) yield sizes[-2], the output width of the
   * last hidden block. A batch of any other width is refused by the first layer.
   */
  lemma PlanWidths(sizes: seq<nat>, dropout: real, batchNorm: bool, layerNorm: bool, width: nat)
    requires |sizes| >= 2
    ensures width == sizes[0] ==> Run(Plan(sizes, dropout, batchNorm, layerNorm), width) == Ok(sizes[|sizes| - 1])
    ensures width == sizes[0] ==> Run(DropLast(Plan(sizes, dropout, batchNorm, layerNorm)), width) == Ok(sizes[|sizes| - 2])
    ensures width != sizes[0] <==> Run(Plan(sizes, dropout, batchNorm, layerNorm), width).Err?
  {
    PlanShape(sizes, dropout, batchNorm, layerNorm);
    var n := |sizes|;
    var h := Hidden(sizes, n - 2, dropout, batchNorm, layerNorm);
    var out := [Linear(sizes[n - 2], sizes[n - 1])];
    var plan := h + out;
    assert DropLast(plan) == h;
    HiddenRun(sizes, n - 2, dropout, batchNorm, layerNorm);
    RunAppend(h, out, sizes[0]);
    assert out[..0] == [];
    // the first layer is Linear(sizes[0], sizes[1]) whichever block it opens
    var first := plan[0];
    assert first == Linear(sizes[0], sizes[1]) by {
      if n > 2 {
        HiddenFirst(sizes, n - 2, dropout, batchNorm, layerNorm);
      }
    }
    RunAppend([first], plan[1..], width);
    assert [first] + plan[1..] == plan;
    assert [first][..0] == [];
    if width == sizes[0] {
    }
  }

  lemma {:induction false} HiddenFirst(sizes: seq<nat>, k: nat, dropout: real, batchNorm: bool, layerNorm: bool)
    requires 1 <= k && k + 2 <= |sizes|
    ensures |Hidden(sizes, k, dropout, batchNorm, layerNorm)| > 0
    ensures Hidden(sizes, k, dropout, batchNorm, layerNorm)[0] == Linear(sizes[0], sizes[1])
  {
    if k > 1 {
      HiddenFirst(sizes, k - 1, dropout, batchNorm, layerNorm);
    }
  }
}
