/** Option and Result values, the errors the discriminator classifier can raise, and sequences without repeats. */
module Wrappers {

  datatype Option<+T> = None | Some(value: T)

  /** The exceptions of the modelled code, one constructor per kind of failure. */
  datatype Error =
    | LayerKeyNotFound(key: string)          // ValueError raised by load
    | TargetColumnMissing(column: string)    // ValueError raised by load
    | InvalidLastLayerAct(name: string)      // ValueError raised by MLP.__init__
    | InvalidDropout(p: real)                // ValueError raised by torch.nn.Dropout
    | ShapeMismatch(expected: nat, actual: nat)  // a layer applied to a tensor of the wrong width
    | KeyNotFound(key: string)               // KeyError from a pandas or layers lookup
    | IndexOutOfRange(index: int)            // IndexError from a row lookup
    | UnorderableLabels(column: string)      // the label column holds cells that are not text
    | NoBatches                              // get_embeddings over an empty dataset
    | NoSamples                              // ValueError raised by the encoder on zero cells
    | NotTwoDimensional                      // ValueError raised by AnnData for an X that is not 2-D

  datatype Result<+T> = Ok(value: T) | Err(error: Error)

  /** No element occurs twice (the columns of a data frame, the categories of an encoder). */
  predicate Distinct<T(==)>(s: seq<T>) {
    forall i, j :: 0 <= i < j < |s| ==> s[i] != s[j]
  }
}
