# GraphStorm node prediction: mini-batch inference loops

This project models the node-prediction inference core of GraphStorm's
`python/graphstorm/model/node_gnn.py` and proves properties of the model:

- `node_mini_batch_gnn_predict` walks a loader of `(input_nodes, seeds, blocks)`
  batches with the model in eval mode. For each batch it:
  - keys bare input nodes by the graph's only node type;
  - runs the model's `predict`;
  - keys a flat output by the single node type of the batch's labels;
  - appends the results to per-node-type lists with `append_to_dict`.

  It then puts the model back in training mode and concatenates every list.
- `node_mini_batch_predict` does the same bookkeeping over precomputed
  embeddings. For every node type of a batch's input nodes, it decodes the
  rows those node ids select, and appends the node type's labels when asked
  to.
- `GSgnnNodeModel.predict` picks the encoder path from whether there are
  message-passing blocks, then decodes every encoded node type.
- `GSgnnNodeModel.forward` (up to the loss arithmetic) requires every label
  node type to have been encoded. It fails when there are no label node
  types at all, because the loss is then still the integer 0 and has no
  device.

The model has four modules:

- `Tensors`: a 2-D tensor as its sequence of rows, `th.cat` along dimension 0,
  and advanced indexing.
- `Grouping`: per-node-type dictionaries of lists and their concatenation,
  with `append_to_dict` and the closing `th.cat` loop.
- `NodeModel`: the encoder and decoder as opaque functions of the module's
  training flag and their input; `predict`; `forward`; and the model object
  with its training flag.
- `MiniBatch`: the two prediction loops.

Python dictionaries are Dafny maps; the in-place updates are methods that
return the updated map. The loader is the sequence of its batches.

Each loop is specified by a function of the loader, one batch at a time:

- `GnnPredictSpec` specifies `node_mini_batch_gnn_predict`.
- `DecodePredictSpec` specifies `node_mini_batch_predict`. `Decodable` is
  the condition under which no batch raises.

The methods are proved equal to these functions. Lemmas then state what the
result is:

- which node types are keys;
- how many rows each key has;
- where each batch's rows sit in the concatenation;
- what those rows are.

## Model

| member | source | states |
|---|---|---|
| Grouping.AppendToDict | python/graphstorm/model/node_gnn.py:185-190 | The key set becomes the old keys plus the new batch's keys. A node type already present gets the batch's tensor appended to its list. A node type seen for the first time gets a one-element list. Every other list is unchanged. Together: the lists become `Extend(to, from)`. |
| Grouping.AppendBatch | python/graphstorm/model/node_gnn.py:201-205 | `append_to_dict` on the lists gathered from the earlier batches yields exactly the lists gathered from those batches plus this one, in loader order. |
| Grouping.CatEach | python/graphstorm/model/node_gnn.py:213-216 | The closing loop keeps the key set and replaces each list by its concatenation. |
| Grouping.ConcatenatedKeys | python/graphstorm/model/node_gnn.py:185-190 | A node type is a key of the concatenated result exactly when at least one batch produced it. |
| Grouping.ConcatenatedRows | python/graphstorm/model/node_gnn.py:213-216 | The concatenated tensor of a node type has as many rows as all batches produced for it. |
| Grouping.BatchSlice | python/graphstorm/model/node_gnn.py:213-216 | There is no re-sorting: the rows that batch j produced for type t appear in the result right after the rows of all earlier batches. |
| Tensors.CatLength | python/graphstorm/model/node_gnn.py:214 | `th.cat` keeps every row: the length of the result is the sum of the lengths of the parts. |
| Tensors.CatAppend | python/graphstorm/model/node_gnn.py:214 | Concatenating a list in two pieces gives the same tensor. |
| NodeModel.Predict | python/graphstorm/model/node_gnn.py:132-148 | Without blocks, or with an empty block list, the embeddings come from the input-embedding layer; otherwise from the GNN. The prediction map has exactly the encoded node types as keys. Each entry is `predict_proba` of that type's embedding if `return_proba` is set, and `predict` of it otherwise. Encoder and decoder run in the module's current mode. |
| NodeModel.Forward | python/graphstorm/model/node_gnn.py:102-124 | Succeeds exactly when there is at least one label node type and every label node type is encoded. It then pairs, for exactly the label types, the decoder logits of the type's embedding with its labels. With no label node types it fails with `NoLossTerms`. Otherwise the error names a label type that is missing from the encoding. |
| NodeModel.Model.constructor | python/graphstorm/model/node_gnn.py:98-100 | A new model is in training mode. |
| NodeModel.Model.Eval | python/graphstorm/model/node_gnn.py:183 | `model.eval()` clears the training flag. |
| NodeModel.Model.Train | python/graphstorm/model/node_gnn.py:212 | `model.train()` sets the training flag. |
| MiniBatch.KeyedInput | python/graphstorm/model/node_gnn.py:194-196 | Dictionary input nodes are kept as they are. Bare input nodes are accepted exactly when the graph has one node type, and are then keyed by that type. Otherwise the assertion fails. |
| MiniBatch.KeyOutputs | python/graphstorm/model/node_gnn.py:203-210 | A per-type output is kept. A flat output is accepted exactly when the batch's labels have one node type, and the prediction and embedding are stored under that type. Otherwise the assertion fails. In both accepted cases the batch's labels are kept as they are. |
| MiniBatch.PredictBatch | python/graphstorm/model/node_gnn.py:193-210 | Called with the model in eval mode, the batch body returns the per-batch outcome `GnnBatch`. That outcome passes training=false to `predict`, and fails with `BlocksMissing` when the loader yields None for the blocks, after the input-node check. |
| MiniBatch.TraversePerBatch | python/graphstorm/model/node_gnn.py:193-210 | The loop succeeds exactly when every batch succeeds. Its outputs are then the per-batch outputs in loader order. Otherwise it fails with the error of the first failing batch. |
| MiniBatch.GnnBatchInto | python/graphstorm/model/node_gnn.py:193-210 | One loop pass either fails the whole loader with the batch's error, or extends the gathered predictions, embeddings and (when requested) labels by this batch's outputs. |
| MiniBatch.GnnBatches | python/graphstorm/model/node_gnn.py:192-210 | The batch loop returns the lists gathered over the loader's per-batch outputs, or the first failing batch's error. |
| MiniBatch.ConcatGnnOutputs | python/graphstorm/model/node_gnn.py:213-222 | The closing loops yield the concatenated predictions and embeddings. Labels are included only when requested; otherwise the slot is `None`. |
| MiniBatch.NodeMiniBatchGnnPredict | python/graphstorm/model/node_gnn.py:150-222 | The result equals `GnnPredictSpec`. The missing-label-field assertion comes before anything else and leaves the model's mode alone. Otherwise the model ends in training mode exactly when the call succeeds. |
| MiniBatch.GnnPredictKeys | python/graphstorm/model/node_gnn.py:185-222 | Labels are returned exactly when requested. A node type is a key of the predictions, embeddings or labels exactly when some batch produced it. Each result has as many rows as the batches produced for its type. |
| MiniBatch.GnnBatchAt | python/graphstorm/model/node_gnn.py:193-210 | Output j of a successful loop is what the loader's j-th batch produced. |
| MiniBatch.GnnPredictOrder | python/graphstorm/model/node_gnn.py:201-219 | Each of the predictions, embeddings and labels that batch j produced for type t sits in the concatenated result right after those of the earlier batches. |
| MiniBatch.BatchErrorsEmpty | python/graphstorm/model/node_gnn.py:259-273 | A batch of `node_mini_batch_predict` can raise exactly when one of its lookups fails. |
| MiniBatch.DecodeType | python/graphstorm/model/node_gnn.py:259-273 | For one node type, the lookups fail exactly when `TypeCheck` reports an error, and then with that error. The checks, in order: no embedding table for the type, a node id past the table's rows, and (with `return_label`) no label entry. Otherwise the result is the decoder head selected by `return_proba`, run in eval mode on the selected rows, plus the type's labels. |
| MiniBatch.AppendType | python/graphstorm/model/node_gnn.py:264-273 | Appending one node type's prediction and labels extends the lists of the node types handled so far by that type. |
| MiniBatch.DecodeTypes | python/graphstorm/model/node_gnn.py:259-273 | The inner loop succeeds exactly when every node type of the batch passes its lookups, and otherwise fails with one of their errors. On success it extends the prediction lists by the decoded rows of every node type. With `return_label` it also extends the label lists by every node type's labels. |
| MiniBatch.DecodeBatchInto | python/graphstorm/model/node_gnn.py:258-273 | One pass succeeds exactly when the batch passes all its lookups; bare input nodes fail. On failure the error is one the batch can raise. On success the gathered lists are extended by this batch's contribution. |
| MiniBatch.DecodeBatches | python/graphstorm/model/node_gnn.py:257-273 | Called with the model in eval mode, the batch loop succeeds exactly when every batch passes its lookups. It then returns the lists gathered over the loader. Otherwise it fails with an error of the first failing batch. |
| MiniBatch.ConcatDecoded | python/graphstorm/model/node_gnn.py:276-283 | The closing loops yield the concatenated predictions. Labels are concatenated only when requested; otherwise the slot is `None`. |
| MiniBatch.NodeMiniBatchPredict | python/graphstorm/model/node_gnn.py:224-283 | The missing-label-field assertion comes first and leaves the mode alone. Otherwise the call succeeds exactly when every batch passes its lookups, and then returns `DecodePredictSpec`, whose decoder heads run in eval mode. A failure carries an error of the first failing batch. The model ends in training mode exactly when the call succeeds. |
| MiniBatch.DecodePredictKeys | python/graphstorm/model/node_gnn.py:259-283 | Labels are returned exactly when requested. A node type is a key of the predictions exactly when it occurs in some batch's input nodes, and the labels have the same keys. |
| MiniBatch.DecodeOrder | python/graphstorm/model/node_gnn.py:259-277 | The rows that batch j decoded for type t sit in the result right after those of the earlier batches. They are the decoder applied to the rows of `emb[t]` that the batch's node ids select. |
| MiniBatch.DecodeLabelOrder | python/graphstorm/model/node_gnn.py:268-280 | The labels of batch j for type t sit in the returned labels right after those of the earlier batches. |

## Left out

- Loss arithmetic and L2 regularisation (python/graphstorm/model/node_gnn.py:119-130) are floating-point tensor arithmetic. `NodeModel.Forward` returns the per-type (logits, labels) pairs that the loss function is applied to.
- Decoder logits, probabilities and the input or GNN encoders are opaque functions; tensors are sequences of integer rows whose values are never inspected.
- Device moves (`.to(device)`, `.cpu()`) and `th.no_grad()` are PyTorch runtime details with no effect on values.
- DGL blocks, the graph store, `get_node_feats` and `get_labels` are opaque. A block is an identifier, and the two lookups are functions of the node ids.
- `NodeModel.Forward`: the error is "some label type that was not encoded", not the first one in dictionary order, because dictionary iteration order is not modelled.
- `MiniBatch.DecodeTypes`, `MiniBatch.DecodeBatchInto`, `MiniBatch.DecodeBatches`, `MiniBatch.NodeMiniBatchPredict`: when a batch has several failing node types, the error is one of the batch's errors, not the one dictionary order would raise first.
- A `predict` that returns per-type predictions together with a flat embedding (or the reverse) is not modelled; an output is either all per-type or all flat.
- Row widths are not checked: `th.cat` on tensors whose rows differ in width is not rejected.
- Negative node ids, which PyTorch indexing counts from the end, are not modelled; node ids are natural numbers.
- Dictionaries are values, so aliasing between a caller's dictionary and the lists the loops build is not modelled.
- On an exception inside the batch loop the model stays in eval mode, since `model.train()` is not in a `finally`. The contracts state this; the exception itself is an error result.
- The input-embedding layer, the LM embedding cache, the full-graph embedding loop and the feature transforms (tests/unit-tests/test_embed.py, tests/unit-tests/gconstruct/test_transform.py) are not part of this model: their sources are not among the modelled files.
