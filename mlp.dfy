/**
 * The MLP module of the discriminator classifier: its layer list, the choice of
 * a final activation, and which layers `forward` and `embedding` run.
 */
module Mlp {
  import opened Wrappers
  import opened Layers

  datatype LastLayerAct = LinearAct | ReLUAct

  function ActName(a: LastLayerAct): string {
    match a
    case LinearAct => "linear"
    case ReLUAct => "ReLU"
  }

  /** The check of `last_layer_act` in MLP.__init__: only "linear" and "ReLU" are accepted. */
  function ParseLastLayerAct(name: string): (r: Result<LastLayerAct>)
    ensures r.Ok? <==> name == "linear" || name == "ReLU"
    ensures r.Ok? ==> ActName(r.value) == name
    ensures r.Err? ==> r.error == InvalidLastLayerAct(name)
  {
    if name == "linear" then Ok(LinearAct)
    else if name == "ReLU" then Ok(ReLUAct)
    else Err(InvalidLastLayerAct(name))
  }

  class MLP {
    const network: seq<Layer>
    const activation: LastLayerAct
    const sizes: seq<nat>
    const batchNorm: bool
    const layerNorm: bool
    const lastLayerAct: string
    /** The dropout probability; the source keeps it only inside the Dropout layers. */
    ghost const dropout: real

    ghost predicate Valid() {
      && network == Plan(sizes, dropout, batchNorm, layerNorm)
      && ParseLastLayerAct(lastLayerAct) == Ok(activation)
    }

    /** The attribute assignments of MLP.__init__, once the layers are built and `last_layer_act` is accepted. */
    constructor (sizes: seq<nat>, dropout: real, batchNorm: bool, layerNorm: bool, activation: LastLayerAct,
                 layers: seq<Layer>)
      requires layers == Plan(sizes, dropout, batchNorm, layerNorm)
      ensures Valid()
      ensures this.sizes == sizes && this.dropout == dropout && this.batchNorm == batchNorm
      ensures this.layerNorm == layerNorm && this.activation == activation
      ensures this.lastLayerAct == ActName(activation) && this.network == layers
    {
      this.network := layers;
      this.activation := activation;
      this.sizes := sizes;
      this.batchNorm := batchNorm;
      this.layerNorm := layerNorm;
      this.lastLayerAct := ActName(activation);
      this.dropout := dropout;
    }

    /**
     * MLP.__init__: the layer loop runs first, so a Dropout rate outside [0, 1]
     * raises before `last_layer_act` is looked at; then any `last_layer_act`
     * but "linear" and "ReLU" raises ValueError.
     */
    static method Create(sizes: seq<nat>, dropout: real, batchNorm: bool, layerNorm: bool, lastLayerAct: string)
      returns (r: Result<MLP>)
      ensures r.Err? <==> PlanRaises(sizes, dropout) || (lastLayerAct != "linear" && lastLayerAct != "ReLU")
      ensures r.Err? ==> r.error == if PlanRaises(sizes, dropout) then InvalidDropout(dropout) else InvalidLastLayerAct(lastLayerAct)
      ensures r.Ok? ==> fresh(r.value) && r.value.Valid()
      ensures r.Ok? ==> r.value.sizes == sizes && r.value.dropout == dropout && r.value.batchNorm == batchNorm
      ensures r.Ok? ==> r.value.layerNorm == layerNorm && r.value.lastLayerAct == lastLayerAct
      ensures r.Ok? ==> r.value.network == ReferencePlan(sizes, dropout, batchNorm, layerNorm)
    {
      var layers := BuildLayerPlan(sizes, dropout, batchNorm, layerNorm);
      if layers.Err? {
        return Err(layers.error);
      }
      var act := ParseLastLayerAct(lastLayerAct);
      if act.Err? {
        return Err(act.error);
      }
      var m := new MLP(sizes, dropout, batchNorm, layerNorm, act.value, layers.value);
      return Ok(m);
    }

    /**
     * The layers `forward` runs: the network, then one more ReLU exactly when
     * `last_layer_act` is "ReLU". Since the network ends in its output Linear
     * layer, the last layer run is a ReLU exactly in that case.
     */
    function ForwardLayers(): (r: seq<Layer>)
      ensures |r| == |network| + (if activation == ReLUAct then 1 else 0)
      ensures r[..|network|] == network
      ensures Valid() && |sizes| >= 2 ==> |r| > 0 && (r[|r| - 1] == ReLU <==> activation == ReLUAct)
    {
      var r := network + (if activation == ReLUAct then [ReLU] else []);
      assert Valid() && |sizes| >= 2 ==> |r| > 0 && (r[|r| - 1] == ReLU <==> activation == ReLUAct) by {
        if Valid() && |sizes| >= 2 {
          OutputLayerIsLast(sizes, dropout, batchNorm, layerNorm);
        }
      }
      r
    }

    /**
     * `forward` on a batch of the given feature width: the network, then the
     * extra ReLU for "ReLU". Its result is the width of the scores, one per class.
     */
    function Forward(width: nat): (r: Result<nat>)
      ensures Valid() && |sizes| >= 2 ==> (r.Ok? <==> width == sizes[0])
      ensures Valid() && |sizes| >= 2 && width == sizes[0] ==> r == Ok(sizes[|sizes| - 1])
    {
      var out := Run(network, width);
      assert Valid() && |sizes| >= 2 ==>
        (out.Ok? <==> width == sizes[0]) && (width == sizes[0] ==> out == Ok(sizes[|sizes| - 1])) by {
        if Valid() && |sizes| >= 2 {
          PlanWidths(sizes, dropout, batchNorm, layerNorm, width);
        }
      }
      if activation == ReLUAct && out.Ok? then Apply(ReLU, out.value) else out
    }

    /**
     * `embedding`: every layer but the last, applied in turn. On a batch of the
     * input width this yields sizes[-2], the width of the last hidden block.
     */
    method Embedding(width: nat) returns (r: Result<nat>)
      ensures r == Run(DropLast(network), width)
      ensures Valid() && |sizes| >= 2 && width == sizes[0] ==> r == Ok(sizes[|sizes| - 2])
    {
      var layers := DropLast(network);
      r := Ok(width);
      for i := 0 to |layers|
        invariant r == Run(layers[..i], width)
      {
        assert layers[..i + 1][..i] == layers[..i];
        // a layer that raises ends the loop; the error is what the call returns
        if r.Ok? {
          r := Apply(layers[i], r.value);
        }
      }
      assert layers[..|layers|] == layers;
      if Valid() && |sizes| >= 2 && width == sizes[0] {
        PlanWidths(sizes, dropout, batchNorm, layerNorm, width);
      }
    }
  }
}
