/** The mini-batch prediction loops: node_mini_batch_gnn_predict, which runs
    the model's `predict` on every batch, and node_mini_batch_predict, which
    decodes slices of precomputed embeddings. The loader is the sequence of
    batches in the order it yields them; the dataset's feature and label
    lookups are functions. */
module MiniBatch {
  import opened Tensors
  import opened Grouping
  import opened NodeModel

  /** Input or seed nodes as the loader yields them: per node type, or one
      tensor of ids without a node type. */
  datatype InputNodes = Keyed(byType: InputMap) | Bare(ids: seq<nat>)

  /** One `(input_nodes, seeds, blocks)` triple of the loader; a loader may
      yield None for the blocks. */
  datatype Batch = Batch(inputNodes: InputNodes, seeds: InputNodes, blocks: Option<seq<Block>>)

  /** The loader's dataset: the graph's node types, whether a label field
      was given, `get_node_feats` and `get_labels`. */
  datatype Dataset = Dataset(
    ntypes: seq<NType>,
    hasLabels: bool,
    nodeFeats: InputMap -> EmbMap,
    getLabels: InputNodes -> EmbMap)

  /** What one batch contributes to the predictions, embeddings and labels. */
  datatype BatchOut = BatchOut(preds: EmbMap, embs: EmbMap, labels: EmbMap)

  /** The value node_mini_batch_gnn_predict returns; `labels` is None unless
      labels were requested. */
  datatype Predictions = Predictions(preds: EmbMap, embs: EmbMap, labels: Option<EmbMap>)

  function PredsOf(outs: seq<BatchOut>): seq<EmbMap>
  {
    seq(|outs|, j requires 0 <= j < |outs| => outs[j].preds)
  }

  function EmbsOf(outs: seq<BatchOut>): seq<EmbMap>
  {
    seq(|outs|, j requires 0 <= j < |outs| => outs[j].embs)
  }

  function LabelsOf(outs: seq<BatchOut>): seq<EmbMap>
  {
    seq(|outs|, j requires 0 <= j < |outs| => outs[j].labels)
  }

  // ---------------------------------------------------------------------
  // node_mini_batch_gnn_predict
  // ---------------------------------------------------------------------

  /** Input nodes keyed by node type: a dictionary is taken as it is; a bare
      tensor is allowed only on a graph with exactly one node type, and is
      keyed by that type. */
  function KeyedInput(ntypes: seq<NType>, nodes: InputNodes): (r: Result<InputMap>)
    ensures nodes.Keyed? ==> r == Ok(nodes.byType)
    ensures nodes.Bare? ==> (r.Ok? <==> |ntypes| == 1)
    ensures nodes.Bare? && r.Ok? ==> r.value.Keys == {ntypes[0]} && r.value[ntypes[0]] == nodes.ids
    ensures r.Err? ==> r.error == NotSingleNType
  {
    match nodes
    case Keyed(m) => Ok(m)
    case Bare(ids) => if |ntypes| != 1 then Err(NotSingleNType) else Ok(map[ntypes[0] := ids])
  }

  /** The one key of a one-key dictionary. */
  ghost function SoleKey(m: EmbMap): (t: NType)
    requires |m| == 1
    ensures m.Keys == {t}
  {
    var t :| t in m.Keys;
    assert |m.Keys - {t}| == 0;
    t
  }

  /** Keys a batch's model output by node type. A per-type output is kept as
      it is; a flat output is stored under the single node type of the
      batch's labels, and is an error when the labels do not have exactly
      one node type. */
  ghost function KeyOutputs(output: PredictOut, batchLabels: EmbMap): (r: Result<BatchOut>)
    ensures output.Typed? ==> r == Ok(BatchOut(output.preds, output.embs, batchLabels))
    ensures output.Untyped? ==> (r.Ok? <==> |batchLabels| == 1)
    ensures output.Untyped? && r.Ok? ==>
              r.value.preds.Keys == batchLabels.Keys && r.value.embs.Keys == batchLabels.Keys
              && (forall t :: t in batchLabels ==> r.value.preds[t] == output.pred && r.value.embs[t] == output.emb)
              && r.value.labels == batchLabels
    ensures r.Err? ==> r.error == AmbiguousFlatOutput
  {
    match output
    case Typed(p, e) => Ok(BatchOut(p, e, batchLabels))
    case Untyped(p, e) =>
      if |batchLabels| != 1 then Err(AmbiguousFlatOutput)
      else var t := SoleKey(batchLabels); Ok(BatchOut(map[t := p], map[t := e], batchLabels))
  }

  /** One batch of node_mini_batch_gnn_predict, with the model in eval mode. */
  ghost function GnnBatch(predict: PredictFn, data: Dataset, b: Batch, returnProba: bool): Result<BatchOut>
  {
    match KeyedInput(data.ntypes, b.inputNodes)
    case Err(e) => Err(e)
    case Ok(inputNodes) =>
      if b.blocks.None? then Err(BlocksMissing)
      else
        var output := predict(false, b.blocks.value, data.nodeFeats(inputNodes), inputNodes, returnProba);
        KeyOutputs(output, data.getLabels(b.seeds))
  }

  /** The results of `step` on the batches in loader order, or the error of
      the first batch whose step fails. */
  ghost function Traverse<B, O>(step: B -> Result<O>, bs: seq<B>): Result<seq<O>>
    decreases |bs|
  {
    if bs == [] then Ok([])
    else
      match Traverse(step, bs[..|bs| - 1])
      case Err(e) => Err(e)
      case Ok(outs) =>
        match step(bs[|bs| - 1])
        case Err(e) => Err(e)
        case Ok(o) => Ok(outs + [o])
  }

  /** Once a prefix of the loader fails, the whole loader fails the same way. */
  lemma {:induction false} TraverseErrExtends<B, O>(step: B -> Result<O>, bs: seq<B>, n: nat)
    requires n <= |bs|
    requires Traverse(step, bs[..n]).Err?
    ensures Traverse(step, bs) == Traverse(step, bs[..n])
    decreases |bs|
  {
    if n == |bs| {
      assert bs[..n] == bs;
    } else {
      var init := bs[..|bs| - 1];
      assert init[..n] == bs[..n];
      TraverseErrExtends(step, init, n);
    }
  }

  /** One more successful batch extends the outputs of the batches before it. */
  lemma TraverseSnoc<B, O>(step: B -> Result<O>, bs: seq<B>, i: nat, outs: seq<O>, o: O)
    requires i < |bs|
    requires Traverse(step, bs[..i]) == Ok(outs)
    requires step(bs[i]) == Ok(o)
    ensures Traverse(step, bs[..i + 1]) == Ok(outs + [o])
  {
    assert bs[..i + 1][..i] == bs[..i];
  }

  /** The outputs are exactly the per-batch results in loader order; the
      whole fails exactly when some batch fails, and then with the error of
      the first failing batch. */
  lemma {:induction false} TraversePerBatch<B, O>(step: B -> Result<O>, bs: seq<B>)
    ensures Traverse(step, bs).Ok? <==> forall j :: 0 <= j < |bs| ==> step(bs[j]).Ok?
    ensures Traverse(step, bs).Ok? ==>
              |Traverse(step, bs).value| == |bs|
              && forall j :: 0 <= j < |bs| ==> step(bs[j]) == Ok(Traverse(step, bs).value[j])
    ensures Traverse(step, bs).Err? ==>
              exists j :: 0 <= j < |bs|
                && (forall i :: 0 <= i < j ==> step(bs[i]).Ok?)
                && step(bs[j]) == Err(Traverse(step, bs).error)
    decreases |bs|
  {
    if bs != [] {
      var init, last := bs[..|bs| - 1], bs[|bs| - 1];
      TraversePerBatch(step, init);
      assert forall j :: 0 <= j < |init| ==> init[j] == bs[j];
      match Traverse(step, init) {
        case Err(e) =>
          var j :| 0 <= j < |init|
            && (forall i :: 0 <= i < j ==> step(init[i]).Ok?)
            && step(init[j]) == Err(e);
          assert step(bs[j]) == Err(e);
        case Ok(outs) =>
      }
    }
  }

  /** node_mini_batch_gnn_predict's batch step. */
  ghost function GnnStep(predict: PredictFn, data: Dataset, returnProba: bool): Batch -> Result<BatchOut>
  {
    b => GnnBatch(predict, data, b, returnProba)
  }

  /** What node_mini_batch_gnn_predict returns for a loader. */
  ghost function GnnPredictSpec(predict: PredictFn, data: Dataset, loader: seq<Batch>,
                                returnProba: bool, returnLabel: bool): Result<Predictions>
  {
    if returnLabel && !data.hasLabels then Err(LabelsMissing)
    else
      match Traverse(GnnStep(predict, data, returnProba), loader)
      case Err(e) => Err(e)
      case Ok(outs) =>
        Ok(Predictions(Concatenated(PredsOf(outs)), Concatenated(EmbsOf(outs)),
                       if returnLabel then Some(Concatenated(LabelsOf(outs))) else None))
  }

  /** Successful predictions: labels are returned exactly when requested; a
      node type is a key of the predictions, the embeddings or the labels
      exactly when some batch produced it; each result has as many rows as
      the batches produced for its node type. */
  lemma GnnPredictKeys(predict: PredictFn, data: Dataset, loader: seq<Batch>,
                       returnProba: bool, returnLabel: bool, outs: seq<BatchOut>)
    requires !returnLabel || data.hasLabels
    requires Traverse(GnnStep(predict, data, returnProba), loader) == Ok(outs)
    ensures GnnPredictSpec(predict, data, loader, returnProba, returnLabel).Ok?
    ensures var p := GnnPredictSpec(predict, data, loader, returnProba, returnLabel).value;
      && (p.labels.Some? <==> returnLabel)
      && (forall t :: t in p.preds <==> exists j :: 0 <= j < |outs| && t in outs[j].preds)
      && (forall t :: t in p.embs <==> exists j :: 0 <= j < |outs| && t in outs[j].embs)
      && (forall t :: t in p.preds ==> |p.preds[t]| == RowCount(PredsOf(outs), t))
      && (forall t :: t in p.embs ==> |p.embs[t]| == RowCount(EmbsOf(outs), t))
      && (p.labels.Some? ==> forall t :: t in p.labels.value <==> exists j :: 0 <= j < |outs| && t in outs[j].labels)
      && (p.labels.Some? ==> forall t :: t in p.labels.value ==> |p.labels.value[t]| == RowCount(LabelsOf(outs), t))
  {
    ConcatenatedKeys(PredsOf(outs));
    ConcatenatedKeys(EmbsOf(outs));
    ConcatenatedKeys(LabelsOf(outs));
    assert forall j :: 0 <= j < |outs| ==>
      PredsOf(outs)[j] == outs[j].preds && EmbsOf(outs)[j] == outs[j].embs && LabelsOf(outs)[j] == outs[j].labels;
    forall t | t in Concatenated(PredsOf(outs)) ensures |Concatenated(PredsOf(outs))[t]| == RowCount(PredsOf(outs), t) {
      ConcatenatedRows(PredsOf(outs), t);
    }
    forall t | t in Concatenated(EmbsOf(outs)) ensures |Concatenated(EmbsOf(outs))[t]| == RowCount(EmbsOf(outs), t) {
      ConcatenatedRows(EmbsOf(outs), t);
    }
    forall t | t in Concatenated(LabelsOf(outs)) ensures |Concatenated(LabelsOf(outs))[t]| == RowCount(LabelsOf(outs), t) {
      ConcatenatedRows(LabelsOf(outs), t);
    }
  }

  /** Loader order: the predictions and embeddings batch j produced for node
      type t sit in the concatenated results (which GnnPredictValue shows
      the loop returns) right after those of all earlier batches; with
      GnnBatchAt, batch j is the loader's j-th batch. */
  lemma GnnPredictOrder(outs: seq<BatchOut>, j: nat, t: NType)
    requires j < |outs|
    ensures t in outs[j].preds ==>
      var preds, before := Concatenated(PredsOf(outs)), RowCount(PredsOf(outs)[..j], t);
      && t in preds
      && before + |outs[j].preds[t]| <= |preds[t]|
      && preds[t][before .. before + |outs[j].preds[t]|] == outs[j].preds[t]
    ensures t in outs[j].embs ==>
      var embs, before := Concatenated(EmbsOf(outs)), RowCount(EmbsOf(outs)[..j], t);
      && t in embs
      && before + |outs[j].embs[t]| <= |embs[t]|
      && embs[t][before .. before + |outs[j].embs[t]|] == outs[j].embs[t]
    ensures t in outs[j].labels ==>
      var labels, before := Concatenated(LabelsOf(outs)), RowCount(LabelsOf(outs)[..j], t);
      && t in labels
      && before + |outs[j].labels[t]| <= |labels[t]|
      && labels[t][before .. before + |outs[j].labels[t]|] == outs[j].labels[t]
  {
    assert PredsOf(outs)[j] == outs[j].preds && EmbsOf(outs)[j] == outs[j].embs;
    assert LabelsOf(outs)[j] == outs[j].labels;
    if t in outs[j].preds {
      BatchSlice(PredsOf(outs), j, t);
    }
    if t in outs[j].embs {
      BatchSlice(EmbsOf(outs), j, t);
    }
    if t in outs[j].labels {
      BatchSlice(LabelsOf(outs), j, t);
    }
  }

  /** Output j of a successful loop is what batch j of the loader produced. */
  lemma GnnBatchAt(predict: PredictFn, data: Dataset, loader: seq<Batch>, returnProba: bool,
                   outs: seq<BatchOut>, j: nat)
    requires Traverse(GnnStep(predict, data, returnProba), loader) == Ok(outs)
    requires j < |outs|
    ensures j < |loader| && GnnBatch(predict, data, loader[j], returnProba) == Ok(outs[j])
  {
    TraversePerBatch(GnnStep(predict, data, returnProba), loader);
    assert GnnStep(predict, data, returnProba)(loader[j]) == GnnBatch(predict, data, loader[j], returnProba);
  }

  /** A successful loop returns the concatenated per-batch outputs. */
  lemma GnnPredictValue(predict: PredictFn, data: Dataset, loader: seq<Batch>,
                        returnProba: bool, returnLabel: bool, outs: seq<BatchOut>)
    requires !returnLabel || data.hasLabels
    requires Traverse(GnnStep(predict, data, returnProba), loader) == Ok(outs)
    ensures GnnPredictSpec(predict, data, loader, returnProba, returnLabel)
      == Ok(Predictions(Concatenated(PredsOf(outs)), Concatenated(EmbsOf(outs)),
                        if returnLabel then Some(Concatenated(LabelsOf(outs))) else None))
  {
  }

  /** A batch that fails after successful ones decides the outcome of the loop. */
  lemma FailingBatch<B, O>(step: B -> Result<O>, bs: seq<B>, i: nat, e: Error)
    requires i < |bs|
    requires Traverse(step, bs[..i]).Ok?
    requires step(bs[i]) == Err(e)
    ensures Traverse(step, bs) == Err(e)
  {
    assert bs[..i + 1][..i] == bs[..i];
    TraverseErrExtends(step, bs, i + 1);
  }

  lemma OfSnoc(outs: seq<BatchOut>, o: BatchOut)
    ensures PredsOf(outs + [o]) == PredsOf(outs) + [o.preds]
    ensures EmbsOf(outs + [o]) == EmbsOf(outs) + [o.embs]
    ensures LabelsOf(outs + [o]) == LabelsOf(outs) + [o.labels]
  {
  }

  /** The first i batches of the loader succeed with outputs `outs`. */
  ghost predicate GnnPrefix(predict: PredictFn, data: Dataset, returnProba: bool, loader: seq<Batch>,
                            i: nat, outs: seq<BatchOut>)
    requires i <= |loader|
  {
    Traverse(GnnStep(predict, data, returnProba), loader[..i]) == Ok(outs)
  }

  /** One more successful batch of node_mini_batch_gnn_predict extends the
      per-batch outputs, and the sequences of their parts, by its output. */
  lemma GnnAdvance(predict: PredictFn, data: Dataset, returnProba: bool, loader: seq<Batch>,
                   i: nat, outs: seq<BatchOut>, o: BatchOut)
    requires i < |loader|
    requires GnnPrefix(predict, data, returnProba, loader, i, outs)
    requires GnnBatch(predict, data, loader[i], returnProba) == Ok(o)
    ensures GnnPrefix(predict, data, returnProba, loader, i + 1, outs + [o])
    ensures PredsOf(outs + [o]) == PredsOf(outs) + [o.preds]
    ensures EmbsOf(outs + [o]) == EmbsOf(outs) + [o.embs]
    ensures LabelsOf(outs + [o]) == LabelsOf(outs) + [o.labels]
  {
    TraverseSnoc(GnnStep(predict, data, returnProba), loader, i, outs, o);
    OfSnoc(outs, o);
  }

  /** A failing batch of node_mini_batch_gnn_predict after successful ones
      makes the whole prediction fail with its error. */
  lemma GnnFail(predict: PredictFn, data: Dataset, returnProba: bool, loader: seq<Batch>, i: nat,
                outs: seq<BatchOut>, e: Error)
    requires i < |loader|
    requires GnnPrefix(predict, data, returnProba, loader, i, outs)
    requires GnnBatch(predict, data, loader[i], returnProba) == Err(e)
    ensures Traverse(GnnStep(predict, data, returnProba), loader) == Err(e)
  {
    FailingBatch(GnnStep(predict, data, returnProba), loader, i, e);
  }

  /** The body of the batch loop of node_mini_batch_gnn_predict up to the
      appends: keys the input nodes, runs the model's `predict`, fetches the
      batch's labels and keys a flat output by the labels' node type. */
  method PredictBatch(model: Model, data: Dataset, b: Batch, returnProba: bool) returns (r: Result<BatchOut>)
    requires !model.training
    ensures r == GnnBatch(model.predict, data, b, returnProba)
  {
    var inputNodes: InputMap;
    if b.inputNodes.Keyed? {
      inputNodes := b.inputNodes.byType;
    } else {
      if |data.ntypes| != 1 {
        return Err(NotSingleNType);
      }
      inputNodes := map[data.ntypes[0] := b.inputNodes.ids];
    }
    var feats := data.nodeFeats(inputNodes);
    if b.blocks.None? {
      return Err(BlocksMissing);
    }
    var output := model.predict(model.training, b.blocks.value, feats, inputNodes, returnProba);
    var batchLabels := data.getLabels(b.seeds);
    if output.Typed? {
      r := Ok(BatchOut(output.preds, output.embs, batchLabels));
    } else {
      if |batchLabels| != 1 {
        return Err(AmbiguousFlatOutput);
      }
      var t :| t in batchLabels.Keys;
      r := Ok(BatchOut(map[t := output.pred], map[t := output.emb], batchLabels));
    }
  }

  /** One pass of the batch loop of node_mini_batch_gnn_predict: runs the
      batch, then appends its labels (when requested), its predictions and
      its embeddings to the lists gathered from the earlier batches. A
      failing batch fails the whole loader with its error. */
  method GnnBatchInto(model: Model, data: Dataset, loader: seq<Batch>, i: nat, returnProba: bool, returnLabel: bool,
                      preds: Parts, embs: Parts, labels: Parts, ghost outs: seq<BatchOut>)
    returns (r: Result<(Parts, Parts, Parts)>)
    requires !model.training && i < |loader|
    requires GnnPrefix(model.predict, data, returnProba, loader, i, outs)
    requires preds == Gather(PredsOf(outs)) && embs == Gather(EmbsOf(outs))
    requires returnLabel ==> labels == Gather(LabelsOf(outs))
    ensures r.Err? ==> Traverse(GnnStep(model.predict, data, returnProba), loader) == Err(r.error)
    ensures r.Ok? <==> GnnBatch(model.predict, data, loader[i], returnProba).Ok?
    ensures r.Ok? ==>
      var grown := outs + [GnnBatch(model.predict, data, loader[i], returnProba).value];
      && GnnPrefix(model.predict, data, returnProba, loader, i + 1, grown)
      && r.value.0 == Gather(PredsOf(grown)) && r.value.1 == Gather(EmbsOf(grown))
      && (returnLabel ==> r.value.2 == Gather(LabelsOf(grown)))
  {
    var batch := PredictBatch(model, data, loader[i], returnProba);
    if batch.Err? {
      GnnFail(model.predict, data, returnProba, loader, i, outs, batch.error);
      return Err(batch.error);
    }
    var o := batch.value;
    var newLabels := labels;
    if returnLabel {
      newLabels := AppendBatch(o.labels, labels, LabelsOf(outs));
    }
    var newPreds := AppendBatch(o.preds, preds, PredsOf(outs));
    var newEmbs := AppendBatch(o.embs, embs, EmbsOf(outs));
    GnnAdvance(model.predict, data, returnProba, loader, i, outs, o);
    r := Ok((newPreds, newEmbs, newLabels));
  }

  /** The batch loop of node_mini_batch_gnn_predict, run with the model in
      eval mode: the gathered lists of every batch's outputs, or the error
      of the first failing batch. */
  method GnnBatches(model: Model, data: Dataset, loader: seq<Batch>, returnProba: bool, returnLabel: bool)
    returns (r: Result<(Parts, Parts, Parts)>, ghost outs: seq<BatchOut>)
    requires !model.training
    ensures r.Err? ==> Traverse(GnnStep(model.predict, data, returnProba), loader) == Err(r.error)
    ensures r.Ok? ==> Traverse(GnnStep(model.predict, data, returnProba), loader) == Ok(outs)
    ensures r.Ok? ==> r.value.0 == Gather(PredsOf(outs)) && r.value.1 == Gather(EmbsOf(outs))
                      && (returnLabel ==> r.value.2 == Gather(LabelsOf(outs)))
  {
    var preds: Parts := map[];
    var embs: Parts := map[];
    var labels: Parts := map[];
    outs := [];
    var i := 0;
    while i < |loader|
      invariant 0 <= i <= |loader|
      invariant GnnPrefix(model.predict, data, returnProba, loader, i, outs)
      invariant preds == Gather(PredsOf(outs))
      invariant embs == Gather(EmbsOf(outs))
      invariant returnLabel ==> labels == Gather(LabelsOf(outs))
    {
      var step := GnnBatchInto(model, data, loader, i, returnProba, returnLabel, preds, embs, labels, outs);
      if step.Err? {
        return Err(step.error), outs;
      }
      outs := outs + [GnnBatch(model.predict, data, loader[i], returnProba).value];
      preds, embs, labels := step.value.0, step.value.1, step.value.2;
      i := i + 1;
    }
    assert loader[..i] == loader;
    r := Ok((preds, embs, labels));
  }

  /** node_mini_batch_gnn_predict. On success the model is back in training
      mode; the missing-labels check happens before the model is touched; a
      failing batch leaves the model in eval mode, as the source restores
      the mode only on normal return. */
  method NodeMiniBatchGnnPredict(model: Model, data: Dataset, loader: seq<Batch>,
                                 returnProba: bool, returnLabel: bool)
    returns (r: Result<Predictions>)
    modifies model
    ensures r == GnnPredictSpec(model.predict, data, loader, returnProba, returnLabel)
    ensures returnLabel && !data.hasLabels ==> r == Err(LabelsMissing) && model.training == old(model.training)
    ensures !(returnLabel && !data.hasLabels) ==> (model.training <==> r.Ok?)
  {
    if returnLabel && !data.hasLabels {
      return Err(LabelsMissing);
    }
    model.Eval();
    var gathered, outs := GnnBatches(model, data, loader, returnProba, returnLabel);
    if gathered.Err? {
      return Err(gathered.error);
    }
    var (preds, embs, labels) := gathered.value;
    GnnPredictValue(model.predict, data, loader, returnProba, returnLabel, outs);
    model.Train();
    var result := ConcatGnnOutputs(preds, embs, labels, outs, returnLabel);
    r := Ok(result);
  }

  /** The closing loops of node_mini_batch_gnn_predict: every gathered list
      of predictions, embeddings and, when requested, labels concatenated. */
  method ConcatGnnOutputs(preds: Parts, embs: Parts, labels: Parts, ghost outs: seq<BatchOut>, returnLabel: bool)
    returns (result: Predictions)
    requires preds == Gather(PredsOf(outs)) && embs == Gather(EmbsOf(outs))
    requires returnLabel ==> labels == Gather(LabelsOf(outs))
    ensures result == Predictions(Concatenated(PredsOf(outs)), Concatenated(EmbsOf(outs)),
                                  if returnLabel then Some(Concatenated(LabelsOf(outs))) else None)
  {
    var catPreds := CatEach(preds);
    var catEmbs := CatEach(embs);
    CatGather(PredsOf(outs), catPreds);
    CatGather(EmbsOf(outs), catEmbs);
    if returnLabel {
      var catLabels := CatEach(labels);
      CatGather(LabelsOf(outs), catLabels);
      result := Predictions(catPreds, catEmbs, Some(catLabels));
    } else {
      result := Predictions(catPreds, catEmbs, None);
    }
  }

  // ---------------------------------------------------------------------
  // node_mini_batch_predict
  // ---------------------------------------------------------------------

  /** What one batch contributes to the decoded predictions and the labels. */
  datatype DecodedOut = DecodedOut(preds: EmbMap, labels: EmbMap)

  /** The value node_mini_batch_predict returns; `labels` is None unless
      labels were requested. */
  datatype DecodedPredictions = DecodedPredictions(preds: EmbMap, labels: Option<EmbMap>)

  function DecodedPredsOf(outs: seq<DecodedOut>): seq<EmbMap>
  {
    seq(|outs|, j requires 0 <= j < |outs| => outs[j].preds)
  }

  function DecodedLabelsOf(outs: seq<DecodedOut>): seq<EmbMap>
  {
    seq(|outs|, j requires 0 <= j < |outs| => outs[j].labels)
  }

  /** The first lookup that fails for node type t of a batch, if any: the
      precomputed embeddings have no table for t, an input node id is not a
      row of that table, or labels are requested and the batch's labels
      have no entry for t. */
  function TypeCheck(emb: EmbMap, t: NType, idx: seq<nat>, batchLabels: EmbMap, returnLabel: bool): Option<Error>
  {
    if t !in emb then Some(NoEmbedding(t))
    else if !InRange(emb[t], idx) then Some(IndexOutOfRange(t))
    else if returnLabel && t !in batchLabels then Some(NoLabel(t))
    else None
  }

  /** Every node type of the batch passes its lookups. */
  ghost predicate BatchOk(emb: EmbMap, data: Dataset, b: Batch, returnLabel: bool)
  {
    && b.inputNodes.Keyed?
    && forall t :: t in b.inputNodes.byType ==>
         TypeCheck(emb, t, b.inputNodes.byType[t], data.getLabels(b.seeds), returnLabel).None?
  }

  /** The errors a batch can raise, one per failing node type: which one is
      raised depends on the order the batch's dictionary lists its node
      types in. Input nodes that are not a dictionary have no `items`. */
  ghost function BatchErrors(emb: EmbMap, data: Dataset, b: Batch, returnLabel: bool): set<Error>
  {
    match b.inputNodes
    case Bare(_) => {NotKeyed}
    case Keyed(input) =>
      var batchLabels := data.getLabels(b.seeds);
      set t | t in input && TypeCheck(emb, t, input[t], batchLabels, returnLabel).Some?
        :: TypeCheck(emb, t, input[t], batchLabels, returnLabel).value
  }

  /** A batch raises some error exactly when one of its lookups fails. */
  lemma BatchErrorsEmpty(emb: EmbMap, data: Dataset, b: Batch, returnLabel: bool)
    ensures BatchErrors(emb, data, b, returnLabel) == {} <==> BatchOk(emb, data, b, returnLabel)
  {
    if b.inputNodes.Keyed? && !BatchOk(emb, data, b, returnLabel) {
      var input, batchLabels := b.inputNodes.byType, data.getLabels(b.seeds);
      var t :| t in input && TypeCheck(emb, t, input[t], batchLabels, returnLabel).Some?;
      assert TypeCheck(emb, t, input[t], batchLabels, returnLabel).value in BatchErrors(emb, data, b, returnLabel);
    }
  }

  /** Every batch of the loader passes its lookups. */
  ghost predicate Decodable(emb: EmbMap, data: Dataset, bs: seq<Batch>, returnLabel: bool)
  {
    forall j :: 0 <= j < |bs| ==> BatchOk(emb, data, bs[j], returnLabel)
  }

  /** The decoded predictions of the node types of `input` whose lookups
      in the precomputed embeddings succeed. */
  function DecodedPreds(dec: Decoder, emb: EmbMap, input: InputMap, returnProba: bool): EmbMap
  {
    map t | t in input && t in emb && InRange(emb[t], input[t]) ::
      Decode(dec, false, returnProba, Select(emb[t], input[t]))
  }

  /** The labels of the node types of `input` that the batch's labels have. */
  function TypeLabels(input: InputMap, batchLabels: EmbMap): EmbMap
  {
    map t | t in input && t in batchLabels :: batchLabels[t]
  }

  /** One batch of node_mini_batch_predict: for each node type of its input
      nodes, the decoder applied to the rows of the precomputed embeddings
      the input node ids select, and, when requested, that node type's
      labels. */
  ghost function DecodedBatch(dec: Decoder, emb: EmbMap, data: Dataset, b: Batch,
                              returnProba: bool, returnLabel: bool): DecodedOut
    requires BatchOk(emb, data, b, returnLabel)
  {
    var input := b.inputNodes.byType;
    DecodedOut(
      DecodedPreds(dec, emb, input, returnProba),
      if returnLabel then TypeLabels(input, data.getLabels(b.seeds)) else map[])
  }

  /** The contributions of the batches, in loader order. */
  ghost function DecodedOuts(dec: Decoder, emb: EmbMap, data: Dataset, bs: seq<Batch>,
                             returnProba: bool, returnLabel: bool): seq<DecodedOut>
    requires Decodable(emb, data, bs, returnLabel)
  {
    seq(|bs|, j requires 0 <= j < |bs| => DecodedBatch(dec, emb, data, bs[j], returnProba, returnLabel))
  }

  /** What node_mini_batch_predict returns for a loader whose batches all
      pass their lookups. */
  ghost function DecodePredictSpec(dec: Decoder, emb: EmbMap, data: Dataset, loader: seq<Batch>,
                                   returnProba: bool, returnLabel: bool): DecodedPredictions
    requires Decodable(emb, data, loader, returnLabel)
  {
    var outs := DecodedOuts(dec, emb, data, loader, returnProba, returnLabel);
    DecodedPredictions(
      Concatenated(DecodedPredsOf(outs)),
      if returnLabel then Some(Concatenated(DecodedLabelsOf(outs))) else None)
  }

  /** The entries of `input` whose node types are not in `todo`: the node
      types the inner loop has handled. */
  function Without(input: InputMap, todo: set<NType>): InputMap
  {
    map t | t in input && t !in todo :: input[t]
  }

  /** Handling node type t extends the decoded lists by its predictions. */
  lemma DecodeStep(dec: Decoder, emb: EmbMap, input: InputMap, todo: set<NType>, t: NType,
                   returnProba: bool, preds: Parts)
    requires t in todo && t in input && t in emb && InRange(emb[t], input[t])
    ensures var e := Extend(preds, DecodedPreds(dec, emb, Without(input, todo), returnProba));
            var pred := Decode(dec, false, returnProba, Select(emb[t], input[t]));
      Extend(preds, DecodedPreds(dec, emb, Without(input, todo - {t}), returnProba))
        == e[t := if t in e then e[t] + [pred] else [pred]]
  {
    var before := DecodedPreds(dec, emb, Without(input, todo), returnProba);
    var pred := Decode(dec, false, returnProba, Select(emb[t], input[t]));
    assert DecodedPreds(dec, emb, Without(input, todo - {t}), returnProba) == before[t := pred];
    ExtendStep(preds, before, t, pred);
  }

  /** Handling node type t extends the label lists by its labels. */
  lemma LabelStep(input: InputMap, todo: set<NType>, t: NType, batchLabels: EmbMap, labels: Parts)
    requires t in todo && t in input && t in batchLabels
    ensures var e := Extend(labels, TypeLabels(Without(input, todo), batchLabels));
      Extend(labels, TypeLabels(Without(input, todo - {t}), batchLabels))
        == e[t := if t in e then e[t] + [batchLabels[t]] else [batchLabels[t]]]
  {
    var before := TypeLabels(Without(input, todo), batchLabels);
    assert TypeLabels(Without(input, todo - {t}), batchLabels) == before[t := batchLabels[t]];
    ExtendStep(labels, before, t, batchLabels[t]);
  }

  /** The lookups for one node type of a batch: the decoder applied to the
      rows of its precomputed embeddings its node ids select, and its labels
      when requested, or the error of the first lookup that fails. */
  method DecodeType(model: Model, emb: EmbMap, data: Dataset, t: NType, idx: seq<nat>, seeds: InputNodes,
                    returnProba: bool, returnLabel: bool)
    returns (r: Result<(Tensor, Tensor)>)
    requires !model.training
    ensures r.Err? <==> TypeCheck(emb, t, idx, data.getLabels(seeds), returnLabel).Some?
    ensures r.Err? ==> TypeCheck(emb, t, idx, data.getLabels(seeds), returnLabel) == Some(r.error)
    ensures r.Ok? ==> t in emb && InRange(emb[t], idx) && r.value.0 == Decode(model.decoder, false, returnProba, Select(emb[t], idx))
    ensures r.Ok? && returnLabel ==> t in data.getLabels(seeds) && r.value.1 == data.getLabels(seeds)[t]
  {
    if t !in emb {
      return Err(NoEmbedding(t));
    }
    if !InRange(emb[t], idx) {
      return Err(IndexOutOfRange(t));
    }
    var pred := Decode(model.decoder, model.training, returnProba, Select(emb[t], idx));
    var lbl: Tensor := [];
    if returnLabel {
      var batchLabels := data.getLabels(seeds);
      if t !in batchLabels {
        return Err(NoLabel(t));
      }
      lbl := batchLabels[t];
    }
    r := Ok((pred, lbl));
  }

  /** The state of the inner loop once every node type of `input` outside
      `todo` has been handled: each passed its lookups, and the lists hold
      the earlier lists extended by their predictions and labels. */
  ghost predicate Handled(dec: Decoder, emb: EmbMap, input: InputMap, todo: set<NType>, batchLabels: EmbMap,
                          returnProba: bool, returnLabel: bool, preds: Parts, labels: Parts,
                          soFarPreds: Parts, soFarLabels: Parts)
  {
    && (forall t :: t in input && t !in todo ==> TypeCheck(emb, t, input[t], batchLabels, returnLabel).None?)
    && soFarPreds == Extend(preds, DecodedPreds(dec, emb, Without(input, todo), returnProba))
    && (returnLabel ==> soFarLabels == Extend(labels, TypeLabels(Without(input, todo), batchLabels)))
  }

  /** Once no node type is left, every one passed its lookups and the lists
      are extended by all of them. */
  lemma HandledAll(dec: Decoder, emb: EmbMap, input: InputMap, batchLabels: EmbMap,
                   returnProba: bool, returnLabel: bool, preds: Parts, labels: Parts,
                   soFarPreds: Parts, soFarLabels: Parts)
    requires Handled(dec, emb, input, {}, batchLabels, returnProba, returnLabel, preds, labels, soFarPreds, soFarLabels)
    ensures forall t :: t in input ==> TypeCheck(emb, t, input[t], batchLabels, returnLabel).None?
    ensures soFarPreds == Extend(preds, DecodedPreds(dec, emb, input, returnProba))
    ensures returnLabel ==> soFarLabels == Extend(labels, TypeLabels(input, batchLabels))
  {
    assert Without(input, {}) == input;
  }

  /** Appends node type t's prediction, and its labels when requested, to
      the lists of the node types handled before it, creating a list on
      first sight of a node type. */
  method AppendType(dec: Decoder, emb: EmbMap, input: InputMap, todo: set<NType>, t: NType,
                    ghost batchLabels: EmbMap, returnProba: bool, returnLabel: bool,
                    ghost preds: Parts, ghost labels: Parts,
                    soFarPreds: Parts, soFarLabels: Parts, pred: Tensor, lbl: Tensor)
    returns (newPreds: Parts, newLabels: Parts)
    requires t in todo && t in input
    requires TypeCheck(emb, t, input[t], batchLabels, returnLabel).None?
    requires pred == Decode(dec, false, returnProba, Select(emb[t], input[t]))
    requires returnLabel ==> lbl == batchLabels[t]
    requires Handled(dec, emb, input, todo, batchLabels, returnProba, returnLabel, preds, labels, soFarPreds, soFarLabels)
    ensures Handled(dec, emb, input, todo - {t}, batchLabels, returnProba, returnLabel, preds, labels, newPreds, newLabels)
  {
    DecodeStep(dec, emb, input, todo, t, returnProba, preds);
    if t in soFarPreds {
      newPreds := soFarPreds[t := soFarPreds[t] + [pred]];
    } else {
      newPreds := soFarPreds[t := [pred]];
    }
    newLabels := soFarLabels;
    if returnLabel {
      LabelStep(input, todo, t, batchLabels, labels);
      if t in soFarLabels {
        newLabels := soFarLabels[t := soFarLabels[t] + [lbl]];
      } else {
        newLabels := soFarLabels[t := [lbl]];
      }
    }
  }

  /** The inner loop of node_mini_batch_predict over the node types of one
      batch's input nodes: decodes the rows of the precomputed embeddings
      each node type's ids select and appends them to that node type's
      list, and, when requested, appends the node type's labels; stops at
      the first failing lookup. */
  method DecodeTypes(model: Model, emb: EmbMap, data: Dataset, input: InputMap, seeds: InputNodes,
                     returnProba: bool, returnLabel: bool, preds: Parts, labels: Parts)
    returns (r: Result<(Parts, Parts)>)
    requires !model.training
    ensures r.Ok? <==> forall t :: t in input ==> TypeCheck(emb, t, input[t], data.getLabels(seeds), returnLabel).None?
    ensures r.Err? ==> exists t :: t in input && TypeCheck(emb, t, input[t], data.getLabels(seeds), returnLabel) == Some(r.error)
    ensures r.Ok? ==> r.value.0 == Extend(preds, DecodedPreds(model.decoder, emb, input, returnProba))
                      && (returnLabel ==> r.value.1 == Extend(labels, TypeLabels(input, data.getLabels(seeds))))
  {
    ghost var batchLabels := data.getLabels(seeds);
    var newPreds, newLabels := preds, labels;
    var todo := input.Keys;
    assert Without(input, todo) == map[];
    ExtendNothing(preds);
    ExtendNothing(labels);
    while todo != {}
      invariant todo <= input.Keys
      invariant Handled(model.decoder, emb, input, todo, batchLabels, returnProba, returnLabel, preds, labels, newPreds, newLabels)
      decreases todo
    {
      var t :| t in todo;
      var step := DecodeType(model, emb, data, t, input[t], seeds, returnProba, returnLabel);
      if step.Err? {
        return Err(step.error);
      }
      var (pred, lbl) := step.value;
      newPreds, newLabels := AppendType(model.decoder, emb, input, todo, t, batchLabels, returnProba, returnLabel,
                                        preds, labels, newPreds, newLabels, pred, lbl);
      todo := todo - {t};
    }
    HandledAll(model.decoder, emb, input, batchLabels, returnProba, returnLabel, preds, labels, newPreds, newLabels);
    r := Ok((newPreds, newLabels));
  }

  /** One more batch that passes its lookups extends the contributions,
      and the sequences of their parts, by its contribution. */
  lemma DecodeAdvance(dec: Decoder, emb: EmbMap, data: Dataset, loader: seq<Batch>, i: nat,
                      returnProba: bool, returnLabel: bool)
    requires i < |loader| && Decodable(emb, data, loader[..i], returnLabel)
    requires BatchOk(emb, data, loader[i], returnLabel)
    ensures Decodable(emb, data, loader[..i + 1], returnLabel)
    ensures var outs := DecodedOuts(dec, emb, data, loader[..i], returnProba, returnLabel);
            var o := DecodedBatch(dec, emb, data, loader[i], returnProba, returnLabel);
            var grown := DecodedOuts(dec, emb, data, loader[..i + 1], returnProba, returnLabel);
      && DecodedPredsOf(grown) == DecodedPredsOf(outs) + [o.preds]
      && DecodedLabelsOf(grown) == DecodedLabelsOf(outs) + [o.labels]
  {
    assert forall j :: 0 <= j < i ==> loader[..i + 1][j] == loader[..i][j];
    assert loader[..i + 1][i] == loader[i];
  }

  /** One pass of the batch loop of node_mini_batch_predict: the input
      nodes must be a dictionary; each node type's decoded rows, and its
      labels when requested, are appended to the lists gathered from the
      earlier batches. */
  method DecodeBatchInto(model: Model, emb: EmbMap, data: Dataset, loader: seq<Batch>, i: nat,
                         returnProba: bool, returnLabel: bool, preds: Parts, labels: Parts)
    returns (r: Result<(Parts, Parts)>)
    requires !model.training
    requires i < |loader| && Decodable(emb, data, loader[..i], returnLabel)
    requires preds == Gather(DecodedPredsOf(DecodedOuts(model.decoder, emb, data, loader[..i], returnProba, returnLabel)))
    requires returnLabel ==>
      labels == Gather(DecodedLabelsOf(DecodedOuts(model.decoder, emb, data, loader[..i], returnProba, returnLabel)))
    ensures r.Ok? <==> BatchOk(emb, data, loader[i], returnLabel)
    ensures r.Err? ==> r.error in BatchErrors(emb, data, loader[i], returnLabel)
    ensures r.Ok? ==>
      && Decodable(emb, data, loader[..i + 1], returnLabel)
      && var grown := DecodedOuts(model.decoder, emb, data, loader[..i + 1], returnProba, returnLabel);
      && r.value.0 == Gather(DecodedPredsOf(grown))
      && (returnLabel ==> r.value.1 == Gather(DecodedLabelsOf(grown)))
  {
    var b := loader[i];
    if b.inputNodes.Bare? {
      return Err(NotKeyed);
    }
    var input := b.inputNodes.byType;
    var decoded := DecodeTypes(model, emb, data, input, b.seeds, returnProba, returnLabel, preds, labels);
    if decoded.Err? {
      ghost var t :| t in input && TypeCheck(emb, t, input[t], data.getLabels(b.seeds), returnLabel) == Some(decoded.error);
      assert decoded.error in BatchErrors(emb, data, b, returnLabel);
      return Err(decoded.error);
    }
    ghost var outs := DecodedOuts(model.decoder, emb, data, loader[..i], returnProba, returnLabel);
    ghost var o := DecodedBatch(model.decoder, emb, data, b, returnProba, returnLabel);
    DecodeAdvance(model.decoder, emb, data, loader, i, returnProba, returnLabel);
    ExtendGather(DecodedPredsOf(outs), o.preds);
    ExtendGather(DecodedLabelsOf(outs), o.labels);
    r := decoded;
  }

  /** The batch loop of node_mini_batch_predict: the gathered lists of every
      batch's decoded rows and labels, or an error of the first batch that
      fails a lookup. */
  method DecodeBatches(model: Model, emb: EmbMap, data: Dataset, loader: seq<Batch>,
                       returnProba: bool, returnLabel: bool)
    returns (r: Result<(Parts, Parts)>)
    requires !model.training
    ensures r.Ok? <==> Decodable(emb, data, loader, returnLabel)
    ensures r.Err? ==> exists j :: 0 <= j < |loader| && Decodable(emb, data, loader[..j], returnLabel)
                                   && r.error in BatchErrors(emb, data, loader[j], returnLabel)
    ensures r.Ok? ==>
      && Decodable(emb, data, loader, returnLabel)
      && var outs := DecodedOuts(model.decoder, emb, data, loader, returnProba, returnLabel);
      && r.value.0 == Gather(DecodedPredsOf(outs))
      && (returnLabel ==> r.value.1 == Gather(DecodedLabelsOf(outs)))
  {
    var preds: Parts := map[];
    var labels: Parts := map[];
    var i := 0;
    assert DecodedPredsOf(DecodedOuts(model.decoder, emb, data, loader[..0], returnProba, returnLabel)) == [];
    assert DecodedLabelsOf(DecodedOuts(model.decoder, emb, data, loader[..0], returnProba, returnLabel)) == [];
    while i < |loader|
      invariant 0 <= i <= |loader|
      invariant Decodable(emb, data, loader[..i], returnLabel)
      invariant preds == Gather(DecodedPredsOf(DecodedOuts(model.decoder, emb, data, loader[..i], returnProba, returnLabel)))
      invariant returnLabel ==>
        labels == Gather(DecodedLabelsOf(DecodedOuts(model.decoder, emb, data, loader[..i], returnProba, returnLabel)))
    {
      var step := DecodeBatchInto(model, emb, data, loader, i, returnProba, returnLabel, preds, labels);
      if step.Err? {
        assert !BatchOk(emb, data, loader[i], returnLabel);
        return Err(step.error);
      }
      preds, labels := step.value.0, step.value.1;
      i := i + 1;
    }
    assert loader[..i] == loader;
    r := Ok((preds, labels));
  }

  /** The closing loops of node_mini_batch_predict: every gathered list of
      decoded rows and, when requested, of labels concatenated. */
  method ConcatDecoded(preds: Parts, labels: Parts, ghost outs: seq<DecodedOut>, returnLabel: bool)
    returns (result: DecodedPredictions)
    requires preds == Gather(DecodedPredsOf(outs))
    requires returnLabel ==> labels == Gather(DecodedLabelsOf(outs))
    ensures result == DecodedPredictions(Concatenated(DecodedPredsOf(outs)),
                                         if returnLabel then Some(Concatenated(DecodedLabelsOf(outs))) else None)
  {
    var catPreds := CatEach(preds);
    CatGather(DecodedPredsOf(outs), catPreds);
    if returnLabel {
      var catLabels := CatEach(labels);
      CatGather(DecodedLabelsOf(outs), catLabels);
      result := DecodedPredictions(catPreds, Some(catLabels));
    } else {
      result := DecodedPredictions(catPreds, None);
    }
  }

  /** node_mini_batch_predict: decodes precomputed embeddings batch by
      batch. The missing-labels check happens before the model is touched;
      on success the model is back in training mode, and a failing batch
      leaves it in eval mode. */
  method NodeMiniBatchPredict(model: Model, emb: EmbMap, data: Dataset, loader: seq<Batch>,
                              returnProba: bool, returnLabel: bool)
    returns (r: Result<DecodedPredictions>)
    modifies model
    ensures returnLabel && !data.hasLabels ==> r == Err(LabelsMissing) && model.training == old(model.training)
    ensures !(returnLabel && !data.hasLabels) ==>
      && (r.Ok? <==> Decodable(emb, data, loader, returnLabel))
      && (model.training <==> r.Ok?)
      && (r.Err? ==> exists j :: 0 <= j < |loader| && Decodable(emb, data, loader[..j], returnLabel)
                                 && r.error in BatchErrors(emb, data, loader[j], returnLabel))
    ensures r.Ok? ==> Decodable(emb, data, loader, returnLabel)
                      && r.value == DecodePredictSpec(model.decoder, emb, data, loader, returnProba, returnLabel)
  {
    if returnLabel && !data.hasLabels {
      return Err(LabelsMissing);
    }
    model.Eval();
    var gathered := DecodeBatches(model, emb, data, loader, returnProba, returnLabel);
    if gathered.Err? {
      return Err(gathered.error);
    }
    model.Train();
    ghost var outs := DecodedOuts(model.decoder, emb, data, loader, returnProba, returnLabel);
    var result := ConcatDecoded(gathered.value.0, gathered.value.1, outs, returnLabel);
    r := Ok(result);
  }

  /** Decoded results: labels are returned exactly when requested; a node
      type is a key of the predictions exactly when it occurs in the input
      nodes of some batch, and the labels have the same keys. */
  lemma DecodePredictKeys(dec: Decoder, emb: EmbMap, data: Dataset, loader: seq<Batch>,
                          returnProba: bool, returnLabel: bool)
    requires Decodable(emb, data, loader, returnLabel)
    ensures var p := DecodePredictSpec(dec, emb, data, loader, returnProba, returnLabel);
      && (p.labels.Some? <==> returnLabel)
      && (forall t :: t in p.preds <==> exists j :: 0 <= j < |loader| && t in loader[j].inputNodes.byType)
      && (p.labels.Some? ==> p.labels.value.Keys == p.preds.Keys)
  {
    var outs := DecodedOuts(dec, emb, data, loader, returnProba, returnLabel);
    ConcatenatedKeys(DecodedPredsOf(outs));
    ConcatenatedKeys(DecodedLabelsOf(outs));
    forall j | 0 <= j < |loader|
      ensures DecodedPredsOf(outs)[j].Keys == loader[j].inputNodes.byType.Keys
      ensures returnLabel ==> DecodedLabelsOf(outs)[j].Keys == loader[j].inputNodes.byType.Keys
    {
      assert BatchOk(emb, data, loader[j], returnLabel);
    }
  }

  /** Loader order: the rows batch j decoded for node type t sit in the
      result right after the rows all earlier batches decoded for t, and
      they are the decoder applied to the rows of t's embeddings that the
      batch's node ids select. */
  lemma DecodeOrder(dec: Decoder, emb: EmbMap, data: Dataset, loader: seq<Batch>,
                    returnProba: bool, returnLabel: bool, j: nat, t: NType)
    requires Decodable(emb, data, loader, returnLabel)
    requires j < |loader| && t in loader[j].inputNodes.byType
    ensures t in emb && InRange(emb[t], loader[j].inputNodes.byType[t])
    ensures var p := DecodePredictSpec(dec, emb, data, loader, returnProba, returnLabel);
            var outs := DecodedOuts(dec, emb, data, loader, returnProba, returnLabel);
            var before := RowCount(DecodedPredsOf(outs)[..j], t);
            var piece := Decode(dec, false, returnProba, Select(emb[t], loader[j].inputNodes.byType[t]));
      && t in p.preds
      && before + |piece| <= |p.preds[t]|
      && p.preds[t][before .. before + |piece|] == piece
  {
    assert BatchOk(emb, data, loader[j], returnLabel);
    var outs := DecodedOuts(dec, emb, data, loader, returnProba, returnLabel);
    assert DecodedPredsOf(outs)[j] == outs[j].preds;
    BatchSlice(DecodedPredsOf(outs), j, t);
  }

  /** The labels batch j contributes for node type t sit in the returned
      labels right after those of all earlier batches. */
  lemma DecodeLabelOrder(dec: Decoder, emb: EmbMap, data: Dataset, loader: seq<Batch>,
                         returnProba: bool, j: nat, t: NType)
    requires Decodable(emb, data, loader, true)
    requires j < |loader| && t in loader[j].inputNodes.byType
    ensures t in data.getLabels(loader[j].seeds)
    ensures var p := DecodePredictSpec(dec, emb, data, loader, returnProba, true);
            var outs := DecodedOuts(dec, emb, data, loader, returnProba, true);
            var before := RowCount(DecodedLabelsOf(outs)[..j], t);
            var piece := data.getLabels(loader[j].seeds)[t];
      && p.labels.Some? && t in p.labels.value
      && before + |piece| <= |p.labels.value[t]|
      && p.labels.value[t][before .. before + |piece|] == piece
  {
    assert BatchOk(emb, data, loader[j], true);
    var outs := DecodedOuts(dec, emb, data, loader, returnProba, true);
    assert DecodedLabelsOf(outs)[j] == outs[j].labels;
    BatchSlice(DecodedLabelsOf(outs), j, t);
  }
}
