/**
 * The annotated data matrix the classifier reads (only what the model needs of
 * it: the rows of X and of each layer, and the .obs table), and PLDataset, the
 * per-cell view the data loaders index.
 */
module Data {
  import opened Wrappers

  /** One cell of an .obs column: text (a label or any other annotation) or an encoded label row. */
  datatype Value = Text(s: string) | Encoded(row: seq<int>)

  /** The feature values of one cell; the model never looks inside them. */
  type Row = seq<real>

  /** An .obs table: distinct column names, one column of `nObs` values per name. */
  ghost predicate ObsTableValid(columns: seq<string>, obs: map<string, seq<Value>>, nObs: nat) {
    && Distinct(columns)
    && (forall c :: c in obs <==> c in columns)
    && (forall c :: c in obs ==> |obs[c]| == nObs)
  }

  /** The annotated data: X and every layer hold one row of n_vars values per cell. */
  class AnnData {
    const nVars: nat
    const x: seq<Row>
    const layers: map<string, seq<Row>>
    var obsColumns: seq<string>
    var obs: map<string, seq<Value>>

    ghost predicate Valid()
      reads this
    {
      && (forall i :: 0 <= i < |x| ==> |x[i]| == nVars)
      && (forall k :: k in layers ==> |layers[k]| == |x|)
      && (forall k, i :: k in layers && 0 <= i < |layers[k]| ==> |layers[k][i]| == nVars)
      && ObsTableValid(obsColumns, obs, |x|)
    }

    constructor (nVars: nat, x: seq<Row>, layers: map<string, seq<Row>>, obsColumns: seq<string>, obs: map<string, seq<Value>>)
      requires (forall i :: 0 <= i < |x| ==> |x[i]| == nVars)
      requires (forall k :: k in layers ==> |layers[k]| == |x|)
      requires (forall k, i :: k in layers && 0 <= i < |layers[k]| ==> |layers[k][i]| == nVars)
      requires ObsTableValid(obsColumns, obs, |x|)
      ensures Valid()
      ensures this.nVars == nVars && this.x == x && this.layers == layers
      ensures this.obsColumns == obsColumns && this.obs == obs
    {
      this.nVars := nVars;
      this.x := x;
      this.layers := layers;
      this.obsColumns := obsColumns;
      this.obs := obs;
    }

    /** `adata.obs[name] = values`: an existing column is replaced where it stands, a new one goes last. */
    method SetObsColumn(name: string, values: seq<Value>)
      requires Valid() && |values| == |x|
      modifies this
      ensures Valid()
      ensures obsColumns == if name in old(obsColumns) then old(obsColumns) else old(obsColumns) + [name]
      ensures obs == old(obs)[name := values]
    {
      if name !in obsColumns {
        obsColumns := obsColumns + [name];
      }
      obs := obs[name := values];
    }
  }

  /** The rows and the two label columns a PLDataset serves, one entry per cell. */
  datatype PLDataset = PLDataset(data: seq<Row>, labels: seq<Value>, pertLabels: seq<Value>) {

    ghost predicate Valid() {
      |labels| == |data| && |pertLabels| == |data|
    }

    /** `__len__`: the number of rows of the data matrix. */
    function Len(): nat {
      |data|
    }

    /**
     * `__getitem__`: the row, the encoded label and the label of one cell, with
     * Python's indexing (a negative index counts from the end).
     */
    function GetItem(idx: int): Result<(Row, Value, Value)>
      requires Valid()
    {
      var n := |data|;
      if -n <= idx < n then
        var k := if idx < 0 then idx + n else idx;
        Ok((data[k], labels[k], pertLabels[k]))
      else Err(IndexOutOfRange(idx))
    }
  }

  /** Cell `i` of the dataset is cell `i` of its columns; every index outside [-len, len) raises. */
  lemma GetItemIndexing(ds: PLDataset, idx: int)
    requires ds.Valid()
    ensures 0 <= idx < ds.Len() ==> ds.GetItem(idx) == Ok((ds.data[idx], ds.labels[idx], ds.pertLabels[idx]))
    ensures -(ds.Len() as int) <= idx < 0 ==> ds.GetItem(idx) == ds.GetItem(idx + ds.Len())
    ensures ds.GetItem(idx).Err? <==> idx < -(ds.Len() as int) || ds.Len() <= idx
  {
  }

  /** Whether `if layer_key:` selects a layer (None and the empty string do not). */
  predicate UsesLayer(layerKey: Option<string>) {
    layerKey.Some? && layerKey.value != ""
  }

  /**
   * PLDataset.__init__: the data is the named layer when `layer_key` is set and
   * X otherwise; the labels are two .obs columns. A missing layer or column is a
   * KeyError.
   */
  function NewDataset(x: seq<Row>, layers: map<string, seq<Row>>, obs: map<string, seq<Value>>,
                      targetCol: string, labelCol: string, layerKey: Option<string>): (r: Result<PLDataset>)
    ensures r.Ok? <==> (UsesLayer(layerKey) ==> layerKey.value in layers) && targetCol in obs && labelCol in obs
    ensures r.Ok? ==> r.value.labels == obs[targetCol] && r.value.pertLabels == obs[labelCol]
    ensures r.Ok? ==> r.value.data == if UsesLayer(layerKey) then layers[layerKey.value] else x
    ensures r.Ok? && (forall k :: k in layers ==> |layers[k]| == |x|) && |obs[targetCol]| == |x| && |obs[labelCol]| == |x|
      ==> r.value.Valid() && r.value.Len() == |x|
  {
    if UsesLayer(layerKey) && layerKey.value !in layers then Err(KeyNotFound(layerKey.value))
    else if targetCol !in obs then Err(KeyNotFound(targetCol))
    else if labelCol !in obs then Err(KeyNotFound(labelCol))
    else Ok(PLDataset(if UsesLayer(layerKey) then layers[layerKey.value] else x, obs[targetCol], obs[labelCol]))
  }
}
