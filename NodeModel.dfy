/** The node-prediction model: its encoder and decoder collaborators, the
    prediction map built by GSgnnNodeModel.predict, the label-type check of
    GSgnnNodeModel.forward, and the model object whose training flag the
    prediction loops switch. */
module NodeModel {
  import opened Tensors

  datatype Option<T> = None | Some(value: T)

  /** The assertion failures and lookup errors of the core, in the order
      the source raises them. */
  datatype Error =
    | LabelsMissing            // return_label set, but the dataset has no label field
    | NotSingleNType           // bare input nodes on a graph without exactly one node type
    | AmbiguousFlatOutput      // flat prediction, but the batch's labels do not have exactly one node type
    | NotEncoded(ntype: NType) // forward: a label node type missing from the encoder output
    | NotKeyed                 // node_mini_batch_predict: input nodes are not a dictionary
    | NoEmbedding(ntype: NType)     // the precomputed embeddings have no table for the node type
    | IndexOutOfRange(ntype: NType) // an input node id is not a row of that table
    | NoLabel(ntype: NType)         // the batch's labels have no entry for the node type
    | NoLossTerms              // forward without label node types: the loss is still the integer 0, which has no device
    | BlocksMissing            // node_mini_batch_gnn_predict: the loader yields None for a batch's blocks

  datatype Result<T> = Ok(value: T) | Err(error: Error)

  /** Per-node-type tensors: features, embeddings, predictions or labels. */
  type EmbMap = map<NType, Tensor>

  /** Per-node-type node ids of a mini-batch. */
  type InputMap = map<NType, seq<nat>>

  /** A message-passing block of a sampled mini-batch, never looked into. */
  datatype Block = Block(id: nat)

  /** The two encoder paths: the input-embedding layer alone, or the full
      GNN over message-passing blocks. The first argument of each is the
      module's training flag, on which dropout and normalisation layers
      depend. */
  datatype Encoder = Encoder(
    inputEmbed: (bool, InputMap, EmbMap) -> EmbMap,
    embedStep: (bool, seq<Block>, EmbMap) -> EmbMap)

  /** The decoder: logits for the loss, and the two prediction heads, each
      given the module's training flag first. */
  datatype Decoder = Decoder(
    logits: (bool, Tensor) -> Tensor,
    predict: (bool, Tensor) -> Tensor,
    predictProba: (bool, Tensor) -> Tensor)

  /** What `predict` returns: per-node-type predictions and embeddings, or
      one prediction tensor and one embedding tensor without a node type
      (as a language-model-only encoder does). */
  datatype PredictOut =
    | Typed(preds: EmbMap, embs: EmbMap)
    | Untyped(pred: Tensor, emb: Tensor)

  /** A model's `predict`: (training mode, blocks, input features, input
      nodes, return_proba) to its output. */
  type PredictFn = (bool, seq<Block>, EmbMap, InputMap, bool) -> PredictOut

  /** `blocks is None or len(blocks) == 0`: no message passing. */
  predicate NoMessagePassing(blocks: Option<seq<Block>>)
  {
    blocks.None? || |blocks.value| == 0
  }

  /** The encoder output in the given mode, from the path `blocks` selects. */
  function Encode(enc: Encoder, training: bool, blocks: Option<seq<Block>>, inputNodes: InputMap,
                  feats: EmbMap): EmbMap
  {
    if NoMessagePassing(blocks) then enc.inputEmbed(training, inputNodes, feats)
    else enc.embedStep(training, blocks.value, feats)
  }

  /** The decoder head `return_proba` selects, run in the given mode. */
  function Decode(dec: Decoder, training: bool, returnProba: bool, emb: Tensor): Tensor
  {
    if returnProba then dec.predictProba(training, emb) else dec.predict(training, emb)
  }

  /** GSgnnNodeModel.predict, with the module in mode `training`: encodes
      the batch and decodes every encoded node type. */
  method Predict(enc: Encoder, dec: Decoder, training: bool, blocks: Option<seq<Block>>, feats: EmbMap,
                 inputNodes: InputMap, returnProba: bool)
    returns (preds: EmbMap, embs: EmbMap)
    ensures NoMessagePassing(blocks) ==> embs == enc.inputEmbed(training, inputNodes, feats)
    ensures !NoMessagePassing(blocks) ==> embs == enc.embedStep(training, blocks.value, feats)
    ensures preds.Keys == embs.Keys
    ensures returnProba ==> forall t :: t in preds ==> preds[t] == dec.predictProba(training, embs[t])
    ensures !returnProba ==> forall t :: t in preds ==> preds[t] == dec.predict(training, embs[t])
  {
    embs := Encode(enc, training, blocks, inputNodes, feats);
    preds := map[];
    var todo := embs.Keys;
    while todo != {}
      invariant todo <= embs.Keys
      invariant preds.Keys == embs.Keys - todo
      invariant forall t :: t in preds ==> preds[t] == Decode(dec, training, returnProba, embs[t])
      decreases todo
    {
      var t :| t in todo;
      if returnProba {
        preds := preds[t := dec.predictProba(training, embs[t])];
      } else {
        preds := preds[t := dec.predict(training, embs[t])];
      }
      todo := todo - {t};
    }
  }

  /** One label node type's contribution to the loss: the decoder logits of
      its embeddings, and its labels. */
  datatype LossTerm = LossTerm(logits: Tensor, labels: Tensor)

  /** GSgnnNodeModel.forward, with the module in mode `training`, up to the
      loss arithmetic: every label node type must have been encoded; the
      result holds, per label node type, the pair the loss function is
      applied to. Without label node types the loss is never a tensor, and
      reading its device fails. */
  method Forward(enc: Encoder, dec: Decoder, training: bool, blocks: Option<seq<Block>>, feats: EmbMap,
                 labels: EmbMap, inputNodes: InputMap)
    returns (r: Result<map<NType, LossTerm>>)
    ensures r.Ok? <==> labels.Keys != {} && labels.Keys <= Encode(enc, training, blocks, inputNodes, feats).Keys
    ensures r.Ok? ==> r.value.Keys == labels.Keys
    ensures r.Ok? ==> forall t :: t in r.value ==>
              r.value[t] == LossTerm(dec.logits(training, Encode(enc, training, blocks, inputNodes, feats)[t]), labels[t])
    ensures labels.Keys == {} ==> r == Err(NoLossTerms)
    ensures r.Err? && labels.Keys != {} ==>
              r.error.NotEncoded? && r.error.ntype in labels
              && r.error.ntype !in Encode(enc, training, blocks, inputNodes, feats)
  {
    var embs := Encode(enc, training, blocks, inputNodes, feats);
    var terms: map<NType, LossTerm> := map[];
    var todo := labels.Keys;
    while todo != {}
      invariant todo <= labels.Keys
      invariant terms.Keys == labels.Keys - todo
      invariant terms.Keys <= embs.Keys
      invariant forall t :: t in terms ==> terms[t] == LossTerm(dec.logits(training, embs[t]), labels[t])
      decreases todo
    {
      var t :| t in todo;
      if t !in embs {
        return Err(NotEncoded(t));
      }
      terms := terms[t := LossTerm(dec.logits(training, embs[t]), labels[t])];
      todo := todo - {t};
    }
    if terms == map[] {
      return Err(NoLossTerms);
    }
    r := Ok(terms);
  }

  /** The model object the prediction loops drive: its mode flag, its
      `predict`, and its decoder. A torch module starts in training mode. */
  class Model {
    var training: bool
    const predict: PredictFn
    const decoder: Decoder

    constructor (predict: PredictFn, decoder: Decoder)
      ensures training
      ensures this.predict == predict && this.decoder == decoder
    {
      this.predict := predict;
      this.decoder := decoder;
      training := true;
    }

    /** model.eval() */
    method Eval()
      modifies this
      ensures !training
    {
      training := false;
    }

    /** model.train() */
    method Train()
      modifies this
      ensures training
    {
      training := true;
    }
  }
}
