/**
 * DiscriminatorClassifierSpace: `load` checks its arguments, encodes the labels
 * and sizes the MLP; `get_embeddings` runs the embedding over the whole dataset
 * in order and annotates the result with the saved .obs columns.
 */
module Space {
  import opened Wrappers
  import opened Layers
  import opened Labels
  import opened Mlp
  import opened Data

  const Perturbations: string := "perturbations"
  const EncodedPerturbations: string := "encoded_perturbations"
  /** `hidden_dim` when the caller gives none. */
  const DefaultHiddenDim: seq<nat> := [512]

  // ---------------------------------------------------------------------------
  // load
  // ---------------------------------------------------------------------------

  /**
   * The argument checks at the top of `load` as the source writes them: the
   * layer key is looked up among the .obs columns, although PLDataset reads it
   * from the layers.
   */
  function CheckArgsAsWritten(obsColumns: seq<string>, targetCol: string, layerKey: Option<string>): (r: Option<Error>)
    ensures r.None? <==> (layerKey.Some? ==> layerKey.value in obsColumns) && targetCol in obsColumns
    ensures layerKey.Some? && layerKey.value !in obsColumns ==> r == Some(LayerKeyNotFound(layerKey.value))
    ensures (layerKey.Some? ==> layerKey.value in obsColumns) && targetCol !in obsColumns ==> r == Some(TargetColumnMissing(targetCol))
  {
    if layerKey.Some? && layerKey.value !in obsColumns then Some(LayerKeyNotFound(layerKey.value))
    else if targetCol !in obsColumns then Some(TargetColumnMissing(targetCol))
    else None
  }

  /** The same checks with the layer key looked up among the layers, where it is used. */
  function CheckArgs(obsColumns: seq<string>, layerNames: set<string>, targetCol: string, layerKey: Option<string>): (r: Option<Error>)
    ensures r.None? <==> (layerKey.Some? ==> layerKey.value in layerNames) && targetCol in obsColumns
    ensures layerKey.Some? && layerKey.value !in layerNames ==> r == Some(LayerKeyNotFound(layerKey.value))
    ensures (layerKey.Some? ==> layerKey.value in layerNames) && targetCol !in obsColumns ==> r == Some(TargetColumnMissing(targetCol))
  {
    if layerKey.Some? && layerKey.value !in layerNames then Some(LayerKeyNotFound(layerKey.value))
    else if targetCol !in obsColumns then Some(TargetColumnMissing(targetCol))
    else None
  }

  /**
   * With the check as written, a layer key that names an .obs column but no
   * layer passes and PLDataset then fails on it; a key that names a layer but no
   * .obs column is refused although PLDataset could read it.
   */
  lemma AsWrittenCheckMisplacesLayerKey()
    ensures var obs := map[Perturbations := [Text("ctrl")], "counts" := [Text("7")], EncodedPerturbations := [Encoded([1])]];
      && CheckArgsAsWritten([Perturbations, "counts", EncodedPerturbations], Perturbations, Some("counts")) == None
      && NewDataset([[0.5]], map[], obs, EncodedPerturbations, Perturbations, Some("counts")) == Err(KeyNotFound("counts"))
    ensures var obs := map[Perturbations := [Text("ctrl")], EncodedPerturbations := [Encoded([1])]];
      && CheckArgsAsWritten([Perturbations, EncodedPerturbations], Perturbations, Some("counts")) == Some(LayerKeyNotFound("counts"))
      && NewDataset([[0.5]], map["counts" := [[2.0]]], obs, EncodedPerturbations, Perturbations, Some("counts")).Ok?
  {
    var cols := [Perturbations, "counts", EncodedPerturbations];
    assert cols[0] == Perturbations && cols[1] == "counts";
    var cols' := [Perturbations, EncodedPerturbations];
    assert "counts" !in cols' by {
      assert cols'[0] != "counts" && cols'[1] != "counts";
    }
    assert cols'[0] == Perturbations;
  }

  /** Arguments the corrected check accepts always give a PLDataset over the data once the labels are encoded. */
  lemma CheckedArgsBuildDataset(x: seq<Row>, layers: map<string, seq<Row>>, obsColumns: seq<string>,
                                obs: map<string, seq<Value>>, targetCol: string, layerKey: Option<string>)
    requires forall c :: c in obs <==> c in obsColumns
    requires CheckArgs(obsColumns, layers.Keys, targetCol, layerKey).None?
    requires EncodedPerturbations in obs
    ensures NewDataset(x, layers, obs, EncodedPerturbations, targetCol, layerKey).Ok?
  {
  }

  /** The label column as strings, or None when a cell of it is not text. */
  function LabelTexts(column: seq<Value>): (r: Option<seq<string>>)
    ensures r.Some? <==> forall i :: 0 <= i < |column| ==> column[i].Text?
    ensures r.Some? ==> |r.value| == |column| && forall i :: 0 <= i < |column| ==> column[i] == Text(r.value[i])
  {
    if column == [] then Some([])
    else
      var init := LabelTexts(column[..|column| - 1]);
      var last := column[|column| - 1];
      assert forall i :: 0 <= i < |column| - 1 ==> column[..|column| - 1][i] == column[i];
      if init.Some? && last.Text? then Some(init.value + [last.s]) else None
  }

  /** `hidden_dim`, with [512] when the caller gives none. */
  function HiddenDims(hiddenDim: Option<seq<nat>>): (r: seq<nat>)
    ensures hiddenDim.None? ==> r == DefaultHiddenDim
    ensures hiddenDim.Some? ==> r == hiddenDim.value
  {
    if hiddenDim.None? then DefaultHiddenDim else hiddenDim.value
  }

  /**
   * Why `load` fails on these arguments, or None when it succeeds: the
   * corrected argument checks, then the encoder (text labels, at least one
   * cell), then the MLP's Dropout layers, which exist only when there is a
   * hidden width.
   */
  function LoadError(obsColumns: seq<string>, layerNames: set<string>, obs: map<string, seq<Value>>,
                     targetCol: string, layerKey: Option<string>, hiddenDim: Option<seq<nat>>, dropout: real): (r: Option<Error>)
    requires forall c :: c in obs <==> c in obsColumns
    ensures r.None? ==> targetCol in obs && LabelTexts(obs[targetCol]).Some?
    ensures CheckArgs(obsColumns, layerNames, targetCol, layerKey).Some? ==> r == CheckArgs(obsColumns, layerNames, targetCol, layerKey)
    ensures CheckArgs(obsColumns, layerNames, targetCol, layerKey).None? ==>
      (LabelTexts(obs[targetCol]).None? <==> r == Some(UnorderableLabels(targetCol)))
    ensures r == Some(NoSamples) <==>
      && CheckArgs(obsColumns, layerNames, targetCol, layerKey).None? && LabelTexts(obs[targetCol]).Some?
      && |obs[targetCol]| == 0
    ensures r == Some(InvalidDropout(dropout)) <==>
      && CheckArgs(obsColumns, layerNames, targetCol, layerKey).None? && LabelTexts(obs[targetCol]).Some?
      && |obs[targetCol]| > 0 && HiddenDims(hiddenDim) != [] && !DropoutRateValid(dropout)
  {
    var check := CheckArgs(obsColumns, layerNames, targetCol, layerKey);
    if check.Some? then check
    // OneHotEncoder cannot sort cells that are not text
    else if LabelTexts(obs[targetCol]).None? then Some(UnorderableLabels(targetCol))
    // nor fit on zero cells
    else if |obs[targetCol]| == 0 then Some(NoSamples)
    // MLP.__init__ builds a Dropout layer for each hidden width
    else if HiddenDims(hiddenDim) != [] && !DropoutRateValid(dropout) then Some(InvalidDropout(dropout))
    else None
  }

  /** The values of the "encoded_perturbations" column: one one-hot row per cell. */
  function EncodedColumn(labels: seq<string>): (r: seq<Value>)
    ensures |r| == |labels|
    ensures |Categories(labels)| == NClasses(labels)
    ensures forall i :: 0 <= i < |labels| ==>
      && r[i].Encoded? && |r[i].row| == NClasses(labels)
      && |r[i].row| > 0 && Categories(labels)[ArgMax(r[i].row)] == labels[i]
  {
    var enc := Encode(labels);
    EncodedLabels(labels);
    CategoryCount(labels);
    seq(|labels|, i requires 0 <= i < |labels| => Encoded(enc[i]))
  }

  /** `sizes = [adata.n_vars] + hidden_dim + [n_classes]` */
  function NetworkSizes(nVars: nat, hidden: seq<nat>, nClasses: nat): seq<nat> {
    [nVars] + hidden + [nClasses]
  }

  /**
   * With the sizes `load` uses, the network has one Linear layer per hidden width
   * plus the output layer, maps n_vars features to n_classes scores, and its
   * embedding is the output of the last hidden block: the last entry of
   * `hidden_dim`, or n_vars itself when `hidden_dim` is empty.
   */
  lemma LoadedNetworkWidths(nVars: nat, hidden: seq<nat>, nClasses: nat, dropout: real, batchNorm: bool)
    ensures var plan := Plan(NetworkSizes(nVars, hidden, nClasses), dropout, batchNorm, false);
      && Count(plan, KLinear) == |hidden| + 1
      && Count(plan, KLayerNorm) == 0
      && Run(plan, nVars) == Ok(nClasses)
      && Run(DropLast(plan), nVars) == Ok(if hidden == [] then nVars else hidden[|hidden| - 1])
  {
    var sizes := NetworkSizes(nVars, hidden, nClasses);
    assert |sizes| == |hidden| + 2 && sizes[0] == nVars && sizes[|sizes| - 1] == nClasses;
    assert hidden != [] ==> sizes[|sizes| - 2] == hidden[|hidden| - 1];
    LayerCounts(sizes, dropout, batchNorm, false);
    PlanWidths(sizes, dropout, batchNorm, false, nVars);
  }

  // ---------------------------------------------------------------------------
  // get_embeddings: .obs columns of the result
  // ---------------------------------------------------------------------------

  /** `a` is `b` with some entries removed, the rest in their order. */
  predicate Subsequence(a: seq<string>, b: seq<string>)
    decreases |b|
  {
    if a == [] then true
    else if b == [] then false
    else (a[|a| - 1] == b[|b| - 1] && Subsequence(a[..|a| - 1], b[..|b| - 1])) || Subsequence(a, b[..|b| - 1])
  }

  lemma {:induction false} SubsequenceTransitive(a: seq<string>, b: seq<string>, c: seq<string>)
    requires Subsequence(a, b) && Subsequence(b, c)
    ensures Subsequence(a, c)
    decreases |c|
  {
    if a != [] && c != [] {
      assert b != [];
      if Subsequence(b, c[..|c| - 1]) {
        SubsequenceTransitive(a, b, c[..|c| - 1]);
      } else if a[|a| - 1] == b[|b| - 1] && Subsequence(a[..|a| - 1], b[..|b| - 1]) {
        SubsequenceTransitive(a[..|a| - 1], b[..|b| - 1], c[..|c| - 1]);
      } else {
        SubsequenceTransitive(a, b[..|b| - 1], c[..|c| - 1]);
      }
    }
  }

  /** `df.drop(name, axis=1)` on the column names. */
  function Without(cols: seq<string>, name: string): (r: seq<string>)
    ensures forall c :: c in r <==> c in cols && c != name
    ensures Distinct(cols) ==> Distinct(r)
    ensures name !in cols ==> r == cols
  {
    if cols == [] then []
    else
      var init := cols[..|cols| - 1];
      var last := cols[|cols| - 1];
      var rest := Without(init, name);
      assert cols == init + [last];
      assert Distinct(cols) ==> Distinct(init) && last !in init;
      if last == name then rest else rest + [last]
  }

  /** The columns `drop` keeps stay in their order. */
  lemma {:induction false} WithoutSubsequence(cols: seq<string>, name: string)
    ensures Subsequence(Without(cols, name), cols)
    decreases |cols|
  {
    if cols != [] {
      var init := cols[..|cols| - 1];
      var rest := Without(init, name);
      WithoutSubsequence(init, name);
      if cols[|cols| - 1] != name {
        assert (rest + [cols[|cols| - 1]])[..|rest|] == rest;
      } else {
        assert rest != [] ==> rest[|rest| - 1] in rest;
      }
    }
  }

  lemma {:induction false} WithoutAfterFirst(first: string, cols: seq<string>, name: string)
    requires first != name
    ensures Without([first] + cols, name) == [first] + Without(cols, name)
    decreases |cols|
  {
    if cols == [] {
      assert [first][..0] == [];
    } else {
      var init := cols[..|cols| - 1];
      var last := cols[|cols| - 1];
      assert ([first] + cols)[..|cols|] == [first] + init;
      assert ([first] + cols)[|cols|] == last;
      WithoutAfterFirst(first, init, name);
    }
  }

  /**
   * The .obs columns of the AnnData `get_embeddings` returns: "perturbations"
   * first, then the saved columns in their order, without a saved
   * "perturbations" column and without "encoded_perturbations".
   */
  function EmbeddingObsColumns(saved: seq<string>): (r: seq<string>)
    ensures |r| >= 1 && r[0] == Perturbations
    ensures forall c :: c in r[1..] <==> c in saved && c != Perturbations && c != EncodedPerturbations
    ensures forall c :: c in r <==> c == Perturbations || c in r[1..]
    ensures Subsequence(r[1..], saved)
    ensures Distinct(saved) ==> Distinct(r)
  {
    var kept := Without(saved, Perturbations);
    var rest := Without(kept, EncodedPerturbations);
    var r := Without([Perturbations] + kept, EncodedPerturbations);
    WithoutAfterFirst(Perturbations, kept, EncodedPerturbations);
    assert r == [Perturbations] + rest;
    assert r[1..] == rest;
    assert Subsequence(rest, saved) by {
      WithoutSubsequence(saved, Perturbations);
      WithoutSubsequence(kept, EncodedPerturbations);
      SubsequenceTransitive(rest, kept, saved);
    }
    assert Distinct(saved) ==> Distinct(r) by {
      if Distinct(saved) {
        DistinctCons(Perturbations, rest);
      }
    }
    r
  }

  lemma DistinctCons(x: string, rest: seq<string>)
    requires Distinct(rest) && x !in rest
    ensures Distinct([x] + rest)
  {
    var r := [x] + rest;
    forall i, j | 0 <= i < j < |r| ensures r[i] != r[j] {
      assert r[j] == rest[j - 1];
      if i > 0 {
        assert r[i] == rest[i - 1];
      }
    }
  }

  /** The AnnData `get_embeddings` returns, reduced to its shape and its .obs table. */
  datatype EmbeddingData = EmbeddingData(nObs: nat, width: nat, obsColumns: seq<string>, obs: map<string, seq<Value>>)

  /**
   * `pd.concat([pert_adata.obs, adata_obs], axis=1)` followed by the drop of
   * "encoded_perturbations", on the named columns: "perturbations" holds the
   * batches' labels, every other column is taken from the saved table.
   */
  function AttachObs(columns: seq<string>, pertLabels: seq<Value>, table: map<string, seq<Value>>): map<string, seq<Value>> {
    map c | c in columns && (c == Perturbations || c in table) :: if c == Perturbations then pertLabels else table[c]
  }

  /**
   * What `get_embeddings` returns: one row per cell in dataset order, the
   * embedding width, the cells' labels as "perturbations", and each other kept
   * column taken row by row from the saved .obs table.
   */
  function ExpectedEmbeddings(width: nat, pertLabels: seq<Value>, savedColumns: seq<string>,
                              savedObs: map<string, seq<Value>>): EmbeddingData
  {
    var cols := EmbeddingObsColumns(savedColumns);
    EmbeddingData(|pertLabels|, width, cols, AttachObs(cols, pertLabels, savedObs))
  }

  /** The result's .obs is a well-formed table whose rows line up with the cells. */
  lemma EmbeddingAnnotations(width: nat, pertLabels: seq<Value>, savedColumns: seq<string>, savedObs: map<string, seq<Value>>)
    requires ObsTableValid(savedColumns, savedObs, |pertLabels|)
    ensures var e := ExpectedEmbeddings(width, pertLabels, savedColumns, savedObs);
      && ObsTableValid(e.obsColumns, e.obs, e.nObs)
      && e.nObs == |pertLabels|
      && e.obs[Perturbations] == pertLabels
      && forall c :: c in e.obsColumns[1..] ==> e.obs[c] == savedObs[c]
  {
    var e := ExpectedEmbeddings(width, pertLabels, savedColumns, savedObs);
    assert forall c :: c in e.obsColumns ==> c in e.obs;
  }

  /** Dropping a column from a well-formed table leaves a well-formed table. */
  lemma DropColumnKeepsTable(columns: seq<string>, obs: map<string, seq<Value>>, nObs: nat, name: string)
    requires ObsTableValid(columns, obs, nObs)
    ensures ObsTableValid(Without(columns, name), obs - {name}, nObs)
  {
  }

  /** The saved .obs columns once `get_embeddings` has dropped "perturbations" from them, if present. */
  function KeptColumns(savedColumns: seq<string>): (r: seq<string>)
    ensures r == Without(savedColumns, Perturbations)
  {
    if Perturbations in savedColumns then Without(savedColumns, Perturbations) else savedColumns
  }

  /**
   * The AnnData `get_embeddings` builds, as the source computes it: from the
   * saved table after the drop, "perturbations" put first, "encoded_perturbations"
   * dropped last.
   */
  function DroppedEmbeddings(width: nat, pertLabels: seq<Value>, keptColumns: seq<string>,
                             table: map<string, seq<Value>>): EmbeddingData
  {
    var columns := Without([Perturbations] + keptColumns, EncodedPerturbations);
    EmbeddingData(|pertLabels|, width, columns, AttachObs(columns, pertLabels, table))
  }

  /** Attaching the saved table without its "perturbations" column gives the same annotations. */
  lemma AttachIgnoresSavedPerturbations(columns: seq<string>, pertLabels: seq<Value>, table: map<string, seq<Value>>)
    ensures AttachObs(columns, pertLabels, table - {Perturbations}) == AttachObs(columns, pertLabels, table)
  {
    var dropped, full := AttachObs(columns, pertLabels, table - {Perturbations}), AttachObs(columns, pertLabels, table);
    assert dropped.Keys == full.Keys;
    forall c | c in full
      ensures dropped[c] == full[c]
    {
    }
  }

  /**
   * Dropping "perturbations" from the saved table first, as `get_embeddings`
   * does, changes neither the columns nor the values of its result.
   */
  lemma DropBeforeAttach(width: nat, pertLabels: seq<Value>, savedColumns: seq<string>, savedObs: map<string, seq<Value>>)
    ensures DroppedEmbeddings(width, pertLabels, KeptColumns(savedColumns), savedObs - {Perturbations})
         == ExpectedEmbeddings(width, pertLabels, savedColumns, savedObs)
  {
    var columns := Without([Perturbations] + KeptColumns(savedColumns), EncodedPerturbations);
    assert columns == EmbeddingObsColumns(savedColumns);
    AttachIgnoresSavedPerturbations(columns, pertLabels, savedObs);
  }

  // ---------------------------------------------------------------------------
  // The component
  // ---------------------------------------------------------------------------

  /**
   * The attributes `load` sets, as they stand between calls: a well-formed MLP
   * whose input width is n_vars, a dataset of rows of n_vars values with one
   * label of each kind per cell, a positive batch size and the saved .obs
   * table over the same cells, which holds the encoded labels.
   */
  ghost predicate LoadedState(net: MLP?, nVars: nat, dataset: PLDataset, batchSize: nat,
                              obsColumns: seq<string>, obs: map<string, seq<Value>>)
  {
    && net != null && net.Valid() && |net.sizes| >= 2 && net.sizes[0] == nVars
    && dataset.Valid() && batchSize > 0
    && (forall i :: 0 <= i < |dataset.data| ==> |dataset.data[i]| == nVars)
    && ObsTableValid(obsColumns, obs, dataset.Len())
    && EncodedPerturbations in obsColumns
  }

  // ---------------------------------------------------------------------------
  // get_embeddings: the batches and the shape of their embeddings
  // ---------------------------------------------------------------------------

  /**
   * The number of dimensions left after `torch.squeeze` of a batch's
   * (cells, width) embedding: every dimension of size 1 is dropped.
   */
  function SqueezedDims(cells: nat, width: nat): (r: nat)
    ensures r <= 2
    ensures r == 2 <==> cells != 1 && width != 1
  {
    (if cells == 1 then 0 else 1) + (if width == 1 then 0 else 1)
  }

  /**
   * Whether some batch of the unshuffled loader over n cells, `bs` cells per
   * batch and a shorter last batch, holds a single cell: exactly when the last
   * cell opens a batch of its own.
   */
  predicate LastCellAlone(n: nat, bs: nat)
    requires bs > 0
  {
    n > 0 && (n - 1) % bs == 0
  }

  /** Whether `AnnData(X=...)` refuses the squeezed embedding of some batch. */
  predicate SqueezeFails(n: nat, bs: nat, width: nat)
    requires bs > 0
  {
    n > 0 && (width == 1 || LastCellAlone(n, bs))
  }

  lemma MulAtLeast(k: int, bs: int)
    requires k >= 1 && bs > 0
    ensures k * bs >= bs
  {
    assert k * bs == (k - 1) * bs + bs;
  }

  /** Euclidean division is unique: a value written as q * bs + d with 0 <= d < bs has remainder d. */
  lemma RemainderUnique(x: int, q: int, d: int, bs: int)
    requires bs > 0 && 0 <= d < bs && x == q * bs + d
    ensures x % bs == d
  {
    var p, r := x / bs, x % bs;
    var k := q - p;
    assert k * bs == r - d by {
      assert x == p * bs + r;
      assert k * bs == q * bs - p * bs;
    }
    if k >= 1 {
      MulAtLeast(k, bs);
      assert false;
    } else if k <= -1 {
      MulAtLeast(-k, bs);
      assert false;
    }
  }

  /** A cell `d` places after a batch start (d < bs) has remainder d; `start + bs` starts the next batch. */
  lemma ModWithinBatch(start: nat, d: nat, bs: nat)
    requires bs > 0 && start % bs == 0 && d <= bs
    ensures d < bs ==> (start + d) % bs == d
    ensures (start + bs) % bs == 0
  {
    var q := start / bs;
    assert start == q * bs;
    if d < bs {
      RemainderUnique(start + d, q, d, bs);
    }
    assert start + bs == (q + 1) * bs + 0 by {
      assert (q + 1) * bs == q * bs + bs;
    }
    RemainderUnique(start + bs, q + 1, 0, bs);
  }

  /**
   * With a batch size of 512 (the default 256, doubled), 513 cells leave one
   * cell alone in the last batch and 512 cells do not.
   */
  lemma LastCellAloneExamples()
    ensures LastCellAlone(513, 512) && !LastCellAlone(512, 512) && !LastCellAlone(0, 512)
    ensures forall n: nat :: n > 0 ==> LastCellAlone(n, 1)
  {
  }

  class DiscriminatorClassifierSpace {
    /** Whether `load` has set the attributes below. */
    var loaded: bool
    var net: MLP?
    var nVars: nat
    /** The dataset behind `entire_dataset`, the unshuffled loader over all cells. */
    var entireDataset: PLDataset
    var entireBatchSize: nat
    /** `adata_obs`: the .obs table saved by `load`, with its index reset. */
    var adataObsColumns: seq<string>
    var adataObs: map<string, seq<Value>>

    ghost predicate Valid()
      reads this
    {
      loaded ==> LoadedState(net, nVars, entireDataset, entireBatchSize, adataObsColumns, adataObs)
    }
    constructor ()
      ensures Valid() && !loaded
    {
      loaded := false;
      net := null;
      nVars := 0;
      entireDataset := PLDataset([], [], []);
      entireBatchSize := 0;
      adataObsColumns := [];
      adataObs := map[];
    }

    /**
     * `load`: checks the arguments, adds the one-hot "encoded_perturbations"
     * column to `adata.obs`, builds the MLP over `[n_vars] + hidden_dim +
     * [n_classes]` and the dataset over all cells, and saves `adata.obs`.
     */
    method Load(adata: AnnData, targetCol: string, layerKey: Option<string>, hiddenDim: Option<seq<nat>>,
                dropout: real, batchNorm: bool, batchSize: nat) returns (r: Result<()>)
      requires Valid() && adata.Valid()
      requires batchSize > 0
      modifies this, adata
      ensures adata.Valid() && Valid()
      ensures r.Err? <==> LoadError(old(adata.obsColumns), adata.layers.Keys, old(adata.obs), targetCol, layerKey, hiddenDim, dropout).Some?
      ensures r.Err? ==> Some(r.error) == LoadError(old(adata.obsColumns), adata.layers.Keys, old(adata.obs), targetCol, layerKey, hiddenDim, dropout)
      ensures r.Err? ==> unchanged(this)
      // only the MLP raises after the labels are written into adata.obs
      ensures r.Err? && !r.error.InvalidDropout? ==> unchanged(adata)
      ensures r.Ok? || r.error.InvalidDropout? ==>
        var labels := LabelTexts(old(adata.obs)[targetCol]).value;
        && adata.obsColumns == (if EncodedPerturbations in old(adata.obsColumns) then old(adata.obsColumns)
                                else old(adata.obsColumns) + [EncodedPerturbations])
        && adata.obs == old(adata.obs)[EncodedPerturbations := EncodedColumn(labels)]
      ensures r.Ok? ==>
        var labels := LabelTexts(old(adata.obs)[targetCol]).value;
        && loaded && net != null && fresh(net)
        && net.sizes == NetworkSizes(adata.nVars, HiddenDims(hiddenDim), NClasses(labels))
        && net.dropout == dropout && net.batchNorm == batchNorm && !net.layerNorm && net.activation == LinearAct
        && nVars == adata.nVars
        && entireDataset == PLDataset(if UsesLayer(layerKey) then adata.layers[layerKey.value] else adata.x,
                                      EncodedColumn(labels), adata.obs[targetCol])
        && entireBatchSize == 2 * batchSize
        && adataObsColumns == adata.obsColumns && adataObs == adata.obs
    {
      var check := CheckArgs(adata.obsColumns, adata.layers.Keys, targetCol, layerKey);
      if check.Some? {
        return Err(check.value);
      }
      var hidden := HiddenDims(hiddenDim);
      var texts := LabelTexts(adata.obs[targetCol]);
      if texts.None? {
        return Err(UnorderableLabels(targetCol));
      }
      var labels := texts.value;
      if |labels| == 0 {
        return Err(NoSamples);
      }
      var nClasses := NClasses(labels);
      adata.SetObsColumn(EncodedPerturbations, EncodedColumn(labels));
      r := Build(adata, targetCol, layerKey, nClasses, hidden, dropout, batchNorm, batchSize);
    }

    /**
     * The rest of `load`, once the labels are in `adata.obs`: the MLP over
     * `[n_vars] + hidden_dim + [n_classes]`, the dataset over all cells and the
     * saved table. Only the MLP can raise here.
     */
    method Build(adata: AnnData, targetCol: string, layerKey: Option<string>, nClasses: nat, hidden: seq<nat>,
                 dropout: real, batchNorm: bool, batchSize: nat) returns (r: Result<()>)
      requires Valid() && adata.Valid() && batchSize > 0
      requires CheckArgs(adata.obsColumns, adata.layers.Keys, targetCol, layerKey).None?
      requires EncodedPerturbations in adata.obs
      modifies this
      ensures Valid()
      ensures r.Err? <==> hidden != [] && !DropoutRateValid(dropout)
      ensures r.Err? ==> r.error == InvalidDropout(dropout) && unchanged(this)
      ensures r.Ok? ==>
        && loaded && net != null && fresh(net)
        && net.sizes == NetworkSizes(adata.nVars, hidden, nClasses)
        && net.dropout == dropout && net.batchNorm == batchNorm && !net.layerNorm && net.activation == LinearAct
        && nVars == adata.nVars
        && entireDataset == PLDataset(if UsesLayer(layerKey) then adata.layers[layerKey.value] else adata.x,
                                      adata.obs[EncodedPerturbations], adata.obs[targetCol])
        && entireBatchSize == 2 * batchSize
        && adataObsColumns == adata.obsColumns && adataObs == adata.obs
    {
      // The train/validation/test split, its datasets, the sampler and the loaders are not modelled.
      var sizes := NetworkSizes(adata.nVars, hidden, nClasses);
      assert |sizes| == |hidden| + 2;
      var m := MLP.Create(sizes, dropout, batchNorm, false, "linear");
      if m.Err? {
        return Err(m.error);
      }
      CheckedArgsBuildDataset(adata.x, adata.layers, adata.obsColumns, adata.obs, targetCol, layerKey);
      var total := NewDataset(adata.x, adata.layers, adata.obs, EncodedPerturbations, targetCol, layerKey);
      assert |adata.obs[EncodedPerturbations]| == |adata.x| && |adata.obs[targetCol]| == |adata.x|;
      var model, width, dataset, columns, table := m.value, adata.nVars, total.value, adata.obsColumns, adata.obs;
      assert model.sizes[0] == width;
      assert forall i :: 0 <= i < |dataset.data| ==> |dataset.data[i]| == width;
      assert LoadedState(model, width, dataset, 2 * batchSize, columns, table);
      Install(model, width, dataset, 2 * batchSize, columns, table);
      r := Ok(());
    }

    /** The attribute assignments at the end of `load`. */
    method Install(model: MLP, width: nat, dataset: PLDataset, batchSize: nat,
                   columns: seq<string>, table: map<string, seq<Value>>)
      requires LoadedState(model, width, dataset, batchSize, columns, table)
      modifies this
      ensures Valid() && loaded
      ensures net == model && nVars == width && entireDataset == dataset && entireBatchSize == batchSize
      ensures adataObsColumns == columns && adataObs == table
    {
      net, nVars, entireDataset, entireBatchSize := model, width, dataset, batchSize;
      adataObsColumns, adataObs, loaded := columns, table, true;
    }

    /** `self.adata_obs = ...`: replaces the saved .obs table and nothing else. */
    method Save(columns: seq<string>, table: map<string, seq<Value>>)
      requires loaded && LoadedState(net, nVars, entireDataset, entireBatchSize, columns, table)
      modifies this
      ensures Valid() && loaded
      ensures net == old(net) && nVars == old(nVars) && entireDataset == old(entireDataset)
      ensures entireBatchSize == old(entireBatchSize)
      ensures adataObsColumns == columns && adataObs == table
    {
      adataObsColumns, adataObs := columns, table;
    }

    /**
     * The loop of `get_embeddings`: the embedding of each batch of the
     * unshuffled loader over all cells, `entire_batch_size` cells at a time,
     * and the labels the batches carry. `torch.squeeze` drops every dimension
     * of size 1 from a batch's embedding, and `AnnData` then raises unless two
     * are left. An empty loader binds no batch, so the annotation step raises.
     * It returns the labels in loader order and the embedding width.
     */
    method EmbedBatches() returns (r: Result<(seq<Value>, nat)>)
      requires Valid() && loaded
      ensures r.Err? <==> entireDataset.Len() == 0 || SqueezeFails(entireDataset.Len(), entireBatchSize, net.sizes[|net.sizes| - 2])
      ensures r.Err? ==> r.error == if entireDataset.Len() == 0 then NoBatches else NotTwoDimensional
      ensures r.Ok? ==> r.value.0 == entireDataset.pertLabels && r.value.1 == net.sizes[|net.sizes| - 2]
    {
      var model, rows, labels, bs := net, entireDataset.data, entireDataset.pertLabels, entireBatchSize;
      var n := entireDataset.Len();
      ghost var embWidth := model.sizes[|model.sizes| - 2];
      var start := 0;
      var perts, width := [], 0;
      while start < n
        invariant 0 <= start <= n
        invariant start < n ==> start % bs == 0
        invariant perts == labels[..start]
        invariant start > 0 ==> width == embWidth && width != 1
        invariant start == n && n > 0 ==> (n - 1) % bs != 0
        decreases n - start
      {
        var end := if start + bs < n then start + bs else n;
        // the batch `x`: rows start .. end - 1, all of the same feature width
        var emb := model.Embedding(|rows[start]|);
        ModWithinBatch(start, end - start - 1, bs);
        if SqueezedDims(end - start, emb.value) != 2 {
          return Err(NotTwoDimensional);
        }
        width := emb.value;
        // the `y` of this batch: the labels of cells start .. end - 1
        var batch := labels[start..end];
        assert labels[..end] == labels[..start] + batch;
        perts := perts + batch;
        start := end;
      }
      if n == 0 {
        return Err(NoBatches);
      }
      assert perts == labels;
      r := Ok((perts, width));
    }

    /**
     * The annotation step of `get_embeddings`: drops "perturbations" from the
     * saved table for good, then puts the batches' labels first and the other
     * saved columns after them, without "encoded_perturbations".
     */
    method Annotate(width: nat, perts: seq<Value>) returns (e: EmbeddingData)
      requires Valid() && loaded
      modifies this
      ensures Valid() && loaded
      ensures net == old(net) && nVars == old(nVars) && entireDataset == old(entireDataset)
      ensures entireBatchSize == old(entireBatchSize)
      ensures adataObsColumns == Without(old(adataObsColumns), Perturbations)
      ensures adataObs == old(adataObs) - {Perturbations}
      ensures e == ExpectedEmbeddings(width, perts, old(adataObsColumns), old(adataObs))
    {
      var savedColumns, savedObs := adataObsColumns, adataObs;
      var kept := savedColumns;
      if Perturbations in kept {
        kept := Without(kept, Perturbations);
      }
      var table := savedObs - {Perturbations};
      DropColumnKeepsTable(savedColumns, savedObs, entireDataset.Len(), Perturbations);
      assert LoadedState(net, nVars, entireDataset, entireBatchSize, kept, table);
      DropBeforeAttach(width, perts, savedColumns, savedObs);
      assert kept == KeptColumns(savedColumns);
      Save(kept, table);
      e := DroppedEmbeddings(width, perts, kept, table);
    }

    /**
     * `get_embeddings`: the embedding of every batch, concatenated, with
     * "perturbations" set from the batches' labels and the saved .obs columns
     * attached. It raises over an empty dataset, and when a batch's squeezed
     * embedding is not two-dimensional (a batch of one cell, or an embedding
     * width of 1).
     */
    method GetEmbeddings() returns (r: Result<EmbeddingData>)
      requires Valid() && loaded
      modifies this
      ensures Valid() && loaded
      ensures net == old(net) && nVars == old(nVars) && entireDataset == old(entireDataset)
      ensures entireBatchSize == old(entireBatchSize)
      ensures r.Err? <==> entireDataset.Len() == 0 || SqueezeFails(entireDataset.Len(), entireBatchSize, net.sizes[|net.sizes| - 2])
      ensures r.Err? ==> r.error == (if entireDataset.Len() == 0 then NoBatches else NotTwoDimensional) && unchanged(this)
      ensures r.Ok? ==> adataObsColumns == Without(old(adataObsColumns), Perturbations)
      ensures r.Ok? ==> adataObs == old(adataObs) - {Perturbations}
      ensures r.Ok? ==> r.value == ExpectedEmbeddings(net.sizes[|net.sizes| - 2], entireDataset.pertLabels,
                                                      old(adataObsColumns), old(adataObs))
    {
      var embedded := EmbedBatches();
      if embedded.Err? {
        return Err(embedded.error);
      }
      var e := Annotate(embedded.value.1, embedded.value.0);
      r := Ok(e);
    }
  }
}
