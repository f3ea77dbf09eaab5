# Discriminator classifier perturbation space

A Dafny model of pertpy's `DiscriminatorClassifierSpace`. This perturbation space trains a
multilayer perceptron to tell perturbations apart. It then uses the output of the
network's last hidden block as the embedding of each cell. The model covers:

- **`load`** (module `Space`). It checks the arguments, with the layer key looked up among the layers; this is the corrected check, see "## Findings". It one-hot encodes the target
  column into the "encoded_perturbations" column of `.obs` (one row per cell; the
  categories are the sorted distinct labels). It sizes the MLP as
  `[n_vars] + hidden_dim + [n_classes]`, where `hidden_dim` defaults to `[512]`. It builds
  the dataset over all cells with a batch size of twice the given one, and saves the
  `.obs` table.
- **The MLP** (modules `Layers` and `Mlp`):
  - the layer list that `MLP.__init__` builds from `sizes`, `batch_norm` and `layer_norm`;
  - the check of `last_layer_act`;
  - the layers that `forward` and `embedding` run.

  A layer is modelled by its kind and its widths. Running a layer list computes the
  output width, or a shape mismatch.
- **PLDataset** (module `Data`). Its data is X or a named layer. It has the two label
  columns, `__len__`, and `__getitem__` with Python's negative indexing.
- **The label encoding** (module `Labels`). It covers the sorted categories, the one-hot
  rows, and the `torch.argmax` (first maximum) that the training, validation and test
  steps apply to those rows.
- **`get_embeddings`** (module `Space`):
  - the unshuffled loop over batches of the whole dataset and which labels it collects;
  - the width of the embeddings;
  - the `.obs` columns of the result: "perturbations" first, then the saved columns in
    their order without "perturbations" and "encoded_perturbations";
  - the lasting removal of "perturbations" from the saved table.

Errors are values:
- `ValueError`, `KeyError` and `IndexError` are constructors of `Wrappers.Error`.
- The `UnboundLocalError` of `get_embeddings` over an empty dataset is `NoBatches`.

All modelled code is in `pertpy/tools/_perturbation_space/_discriminator_classifier.py`.
Outside the table, `dc.py` is short for that file.

## Model

| member | source | states |
|---|---|---|
| Layers.BuildLayerPlan | pertpy/tools/_perturbation_space/_discriminator_classifier.py:221-231 | Raises InvalidDropout iff there is a hidden block (len(sizes) >= 3) and the dropout rate is outside [0, 1], which `torch.nn.Dropout` rejects. Otherwise the loop that grows the slot list, then dropping the `None` slots and the last entry, yields exactly the plan: the hidden blocks followed by the output Linear. |
| Layers.PlanShape | pertpy/tools/_perturbation_space/_discriminator_classifier.py:221-231 | The filtered, truncated slot list equals the independent reference plan. That plan is one block of Linear, optional BatchNorm or LayerNorm, ReLU and Dropout per hidden width, then a single Linear; it is empty when there are fewer than two sizes. |
| Layers.LayerCounts | pertpy/tools/_perturbation_space/_discriminator_classifier.py:222-231 | There are len(sizes)-1 Linear layers. There are len(sizes)-2 ReLU and Dropout layers, and as many BatchNorm layers if batch_norm is set (else none). There are len(sizes)-2 LayerNorm layers exactly when layer_norm is set and batch_norm is not. |
| Layers.LinearsInOrder | pertpy/tools/_perturbation_space/_discriminator_classifier.py:222-224 | The k-th Linear layer of the plan maps sizes[k] features to sizes[k+1]. |
| Layers.OutputLayerIsLast | pertpy/tools/_perturbation_space/_discriminator_classifier.py:231 | With at least two sizes, the last layer is the output Linear, from sizes[-2] to sizes[-1]; the trailing ReLU is cut. |
| Layers.HiddenBlockMembers | pertpy/tools/_perturbation_space/_discriminator_classifier.py:223-228 | Every BatchNorm, LayerNorm, ReLU and Dropout follows a hidden Linear, never the output one. A norm layer has the width of the Linear before it. BatchNorm appears only with batch_norm set; LayerNorm only with layer_norm set and batch_norm unset. |
| Layers.NormalisationPresence | pertpy/tools/_perturbation_space/_discriminator_classifier.py:225-226 | With a hidden layer: a BatchNorm exists iff batch_norm; a LayerNorm exists iff layer_norm and not batch_norm. The two never coexist. |
| Layers.PlanWidths | pertpy/tools/_perturbation_space/_discriminator_classifier.py:249-257 | The plan accepts exactly inputs of width sizes[0], and outputs sizes[-1] on them. Running every layer but the last yields sizes[-2]. |
| Layers.HiddenRun | pertpy/tools/_perturbation_space/_discriminator_classifier.py:222-229 | The first k hidden blocks take sizes[0] features to sizes[k]. |
| Layers.HiddenRejects | pertpy/tools/_perturbation_space/_discriminator_classifier.py:222-224 | When there is at least one hidden block (k >= 1), the hidden blocks refuse any input width other than sizes[0]. |
| Mlp.ParseLastLayerAct | pertpy/tools/_perturbation_space/_discriminator_classifier.py:232-238 | Accepts exactly "linear" and "ReLU", and returns the one named; any other name is the ValueError. |
| Mlp.MLP.Create | pertpy/tools/_perturbation_space/_discriminator_classifier.py:204-247 | Fails iff the layer loop raises (a Dropout rate outside [0, 1] with len(sizes) >= 3, reported first as InvalidDropout) or last_layer_act is neither "linear" nor "ReLU" (InvalidLastLayerAct). Otherwise it gives a fresh MLP whose network is the plan for its arguments and which keeps sizes, batch_norm, layer_norm and last_layer_act. |
| Mlp.MLP.ForwardLayers | pertpy/tools/_perturbation_space/_discriminator_classifier.py:249-252 | `forward` runs the network, then one ReLU more exactly when last_layer_act is "ReLU". So its last layer is a ReLU iff the activation is ReLU. |
| Mlp.MLP.Forward | pertpy/tools/_perturbation_space/_discriminator_classifier.py:249-252 | `forward` succeeds iff the input width is sizes[0], and then outputs sizes[-1] scores, with either activation. |
| Mlp.MLP.Embedding | pertpy/tools/_perturbation_space/_discriminator_classifier.py:254-257 | The loop applies every layer but the last, in order. On sizes[0] features it yields sizes[-2], the width of the last hidden block. |
| Labels.Insert | pertpy/tools/_perturbation_space/_discriminator_classifier.py:79-80 | Adding a label to a strictly sorted category list keeps it strictly sorted and adds exactly that label. |
| Labels.Categories | pertpy/tools/_perturbation_space/_discriminator_classifier.py:79-80 | The encoder's categories are strictly sorted and hold exactly the labels that occur. |
| Labels.CategoryCount | pertpy/tools/_perturbation_space/_discriminator_classifier.py:77 | The number of categories is n_classes, the number of distinct labels. |
| Labels.ArgMax | pertpy/tools/_perturbation_space/_discriminator_classifier.py:364 | `torch.argmax` of a non-empty row is the first position holding its largest value. |
| Labels.OneHotSum | pertpy/tools/_perturbation_space/_discriminator_classifier.py:80 | Over distinct categories, a label's one-hot row sums to 1 when the label is a category and to 0 otherwise. |
| Labels.OneHotRoundTrip | pertpy/tools/_perturbation_space/_discriminator_classifier.py:364 | argmax of a label's one-hot row is the label's index among the categories. |
| Labels.EncodedLabels | pertpy/tools/_perturbation_space/_discriminator_classifier.py:77-81 | Every encoded row has n_classes entries and sums to 1. Its argmax names the cell's own label. Two cells get the same argmax iff they have the same label. |
| Data.AnnData.SetObsColumn | pertpy/tools/_perturbation_space/_discriminator_classifier.py:81 | Assigning an .obs column replaces an existing one where it stands, or appends a new one last. Every other column is kept. |
| Data.GetItemIndexing | pertpy/tools/_perturbation_space/_discriminator_classifier.py:298-304 | Item i is the i-th data row, encoded label and label. A negative index counts from the end. Indices outside [-len, len) raise. |
| Data.NewDataset | pertpy/tools/_perturbation_space/_discriminator_classifier.py:287-296 | The data is the named layer when layer_key is a non-empty key, else X; the labels are the two named columns. It fails iff a named layer or column is missing. On shaped input its length is the number of cells. |
| Space.CheckArgsAsWritten | pertpy/tools/_perturbation_space/_discriminator_classifier.py:67-71 | The checks as written: the layer key is looked up among the .obs columns, then target_col. Each failure is the matching ValueError, and both passing gives no error. |
| Space.AsWrittenCheckMisplacesLayerKey | pertpy/tools/_perturbation_space/_discriminator_classifier.py:67-68 | Two concrete inputs. A layer key that names an .obs column but no layer passes the check, yet the dataset then fails on it. A key that names a layer but no column is refused, although the dataset could be built. |
| Space.CheckArgs | pertpy/tools/_perturbation_space/_discriminator_classifier.py:67-71 | The corrected checks: the layer key is looked up among the layers. It fails iff the key is missing (LayerKeyNotFound) or target_col is missing (TargetColumnMissing), in that order. |
| Space.CheckedArgsBuildDataset | pertpy/tools/_perturbation_space/_discriminator_classifier.py:117-119 | Arguments the corrected checks accept always give a dataset once "encoded_perturbations" exists. |
| Space.LabelTexts | pertpy/tools/_perturbation_space/_discriminator_classifier.py:78-79 | The target column reads as labels iff every cell is text, and then cell by cell. |
| Space.HiddenDims | pertpy/tools/_perturbation_space/_discriminator_classifier.py:73-74 | `hidden_dim` is [512] when not given, and the given list otherwise. |
| Space.LoadError | pertpy/tools/_perturbation_space/_discriminator_classifier.py:67-114 | The modelled failures of `load`, in source order. The corrected argument check (`CheckArgs`, layer key looked up among the layers) comes first whenever it fails. Then UnorderableLabels, exactly when the target column holds a cell that is not text. Then NoSamples, exactly when there are no cells, which the encoder at :80 refuses. Then InvalidDropout, exactly when hidden_dim is non-empty and the rate is outside [0, 1]. When there is no error, the target column exists and holds text labels. |
| Space.EncodedColumn | pertpy/tools/_perturbation_space/_discriminator_classifier.py:77-81 | The new column has one one-hot row per cell of n_classes entries, and its argmax names that cell's label. |
| Space.LoadedNetworkWidths | pertpy/tools/_perturbation_space/_discriminator_classifier.py:113-114 | The network `load` builds has len(hidden_dim)+1 Linear layers and no LayerNorm. It maps n_vars features to n_classes scores. Its embedding is the last hidden_dim entry (n_vars when hidden_dim is empty). |
| Space.DiscriminatorClassifierSpace.Load | pertpy/tools/_perturbation_space/_discriminator_classifier.py:67-123 | Uses the corrected argument check (`CheckArgs`). Fails iff LoadError gives an error, and with that error. On failure the modelled attributes are unchanged. `adata` is unchanged too, except for InvalidDropout, which comes after "encoded_perturbations" has been written. On success: "encoded_perturbations" holds the one-hot rows. The MLP has sizes [n_vars]+hidden_dim+[n_classes] (hidden_dim defaults to [512]), the given dropout and batch_norm, no layer_norm and a linear last layer. The dataset covers all cells with batch size 2*batch_size. The saved table is the updated .obs. |
| Space.DiscriminatorClassifierSpace.Build | pertpy/tools/_perturbation_space/_discriminator_classifier.py:113-123 | The tail of `load`. It fails (InvalidDropout, the space unchanged) iff hidden_dim is non-empty and the rate is outside [0, 1]. Otherwise it sets the MLP over [n_vars]+hidden_dim+[n_classes], the dataset over all cells with the two label columns, the batch size 2*batch_size and the saved table. |
| Space.DiscriminatorClassifierSpace.Install | pertpy/tools/_perturbation_space/_discriminator_classifier.py:114-123 | The attributes set at the end of `load` take the given values and satisfy the loaded invariant. |
| Space.Without | pertpy/tools/_perturbation_space/_discriminator_classifier.py:187-194 | Dropping a column keeps exactly the other columns, keeps them distinct, and changes nothing when the column is absent. |
| Space.WithoutSubsequence | pertpy/tools/_perturbation_space/_discriminator_classifier.py:187-194 | Dropping a column keeps the remaining columns in their order. |
| Space.EmbeddingObsColumns | pertpy/tools/_perturbation_space/_discriminator_classifier.py:185-194 | The result's columns are "perturbations" first, then the saved columns other than "perturbations" and "encoded_perturbations", in their saved order, each once. |
| Space.EmbeddingAnnotations | pertpy/tools/_perturbation_space/_discriminator_classifier.py:185-194 | The result's .obs is a well-formed table over its cells: "perturbations" holds the batches' labels, and every other column is the saved column of that name. |
| Space.DropColumnKeepsTable | pertpy/tools/_perturbation_space/_discriminator_classifier.py:187-188 | Dropping a column from a well-formed .obs table leaves a well-formed table. |
| Space.KeptColumns | pertpy/tools/_perturbation_space/_discriminator_classifier.py:187-188 | The conditional drop of "perturbations" leaves the saved columns without it. |
| Space.AttachIgnoresSavedPerturbations | pertpy/tools/_perturbation_space/_discriminator_classifier.py:187-190 | Once the batches' labels are the "perturbations" column, a saved column of that name plays no part in the result. |
| Space.DropBeforeAttach | pertpy/tools/_perturbation_space/_discriminator_classifier.py:185-194 | The source's steps (drop, concatenate, drop) give exactly the declared result. |
| Space.SqueezedDims | pertpy/tools/_perturbation_space/_discriminator_classifier.py:177-178 | `torch.squeeze` of a (cells, width) embedding keeps two dimensions iff neither is 1; `AnnData` accepts only those. |
| Space.LastCellAloneExamples | pertpy/tools/_perturbation_space/_discriminator_classifier.py:120 | With the default batch size of 512 (256 doubled), 513 cells leave the last cell alone in its batch, while 512 and 0 cells do not. With batches of one cell, every non-empty dataset does. |
| Space.DiscriminatorClassifierSpace.Save | pertpy/tools/_perturbation_space/_discriminator_classifier.py:189 | Reassigning the saved table changes only the saved table. |
| Space.DiscriminatorClassifierSpace.EmbedBatches | pertpy/tools/_perturbation_space/_discriminator_classifier.py:173-183 | Each batch is fed at the feature width of its rows (n_vars), and its embedding has width sizes[-2]. The loop raises NotTwoDimensional iff some batch's squeezed embedding is not 2-D: the width is 1, or the last cell is alone in its batch. It gives NoBatches iff the dataset is empty. Otherwise the batches' labels, concatenated, are the dataset's labels in order. |
| Space.DiscriminatorClassifierSpace.Annotate | pertpy/tools/_perturbation_space/_discriminator_classifier.py:185-194 | Gives the declared annotated result. It removes "perturbations" from the saved table for good and changes nothing else. |
| Space.DiscriminatorClassifierSpace.GetEmbeddings | pertpy/tools/_perturbation_space/_discriminator_classifier.py:159-196 | Fails, with nothing changed, iff the dataset is empty (NoBatches) or some batch's squeezed embedding is not 2-D (NotTwoDimensional: embedding width 1, or a batch of one cell). Otherwise it gives one embedding of width sizes[-2] per cell, annotated as above, and the saved table loses "perturbations". |

## Left out

- Training is not modelled: `train`, the Lightning `Trainer`, early stopping, the Adam optimiser, the loss and logging (`dc.py:127-157`, `:353-398`). Only the `argmax` of the encoded rows in the step functions is modelled.
- Weight initialisation (`init_weights`, `dc.py:242`, `:260-263`) is not modelled, because it draws random numbers. No layer holds weights: each layer is its kind and widths.
- The sampler weights (`dc.py:105-106`) are not modelled.
  - They depend on nothing the model follows.
  - Every encoded row sums to 1 (`Labels.OneHotSum`), so every weight is 1/2 and the sampler draws uniformly.
- The stratified random train/validation/test split, its three datasets and their loaders (`dc.py:84-110`) are not modelled (randomness).
- `Space.DiscriminatorClassifierSpace.Load` does not model the ValueErrors raised by `train_test_split` (`dc.py:87-90`). These do not depend on the random draw: a label held by a single cell, or fewer test or validation cells than classes. (Zero cells are refused earlier by the encoder at `dc.py:80`, which the model does.) The model's `load` succeeds wherever the modelled checks (arguments, labels, dropout rate) pass. The split's sizes come from sklearn's rounding rules and its `test_size` arguments, and sklearn is not part of this model.
- `Mlp.MLP.Create` models only the ValueErrors of `torch.nn.Dropout` and of `last_layer_act`. The Linear and normalisation layers are built from natural-number widths and are taken not to raise.
- Devices, `num_workers`, and the float32 tensor conversions are not modelled.
- Sparse rows (`.A.squeeze()`) are not modelled; rows are sequences of reals. Of `torch.squeeze` on the embeddings (`dc.py:177`), only the number of dimensions it leaves is modelled.
- Tensor values are not modelled. The model follows the widths a batch has at each layer, not the numbers in it, so the `X` matrix of the embeddings is given by its width.
- `Space.DiscriminatorClassifierSpace.GetEmbeddings` uses the loaded MLP directly and requires `load` to have run. The source goes through the `PerturbationClassifier` that `train` wraps around that same MLP (`dc.py:152`, `:335-336`, `:400-413`). Calling it before `load` or `train` raises `AttributeError`, which is not modelled.
- `Space.DiscriminatorClassifierSpace.Load` does not model the three data loaders (`dc.py:108-110`). When MLP raises InvalidDropout at `dc.py:114`, the source has already set those loaders.
- `Space.DiscriminatorClassifierSpace.Load` requires `batch_size > 0`, which the data loaders demand. The model fixes `layer_norm` to false and `last_layer_act` to "linear", as `load` does.
- `Space.DiscriminatorClassifierSpace.Load` treats a target column with any cell that is not text as `UnorderableLabels`. The source's encoder may accept other orderable values; labels are modelled as text.
- The pandas index reset (`dc.py:123`, `:187`), NaN labels in `unique()` and the DataFrame internals of `concat` are not modelled. Columns are a name sequence plus a map from name to values.
- The `KeyError` that `drop("encoded_perturbations")` would raise is not modelled. The invariant keeps that column in the saved table, so the case cannot arise.

## Findings

| source | as written | input that shows it | evidently intended | confidence | as-written member | corrected member |
|---|---|---|---|---|---|---|
| pertpy/tools/_perturbation_space/_discriminator_classifier.py:67-68 | `load` looks `layer_key` up among the `.obs` columns, but PLDataset reads `adata.layers[layer_key]` (`dc.py:287-288`). | Layer key "counts" that is an `.obs` column but not a layer: it passes the check, then raises `KeyError`. A layer "counts" that is no `.obs` column: it is refused with `ValueError`. | Look the key up among `adata.layers`. | not executed | Space.CheckArgsAsWritten, Space.AsWrittenCheckMisplacesLayerKey | Space.CheckArgs, Space.CheckedArgsBuildDataset, Space.LoadError, Space.DiscriminatorClassifierSpace.Load |
