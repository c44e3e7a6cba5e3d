/** The classifier head trained on top of the frozen 1024-wide image
    embedding: a two-layer dense network whose output width and loss
    function depend only on the number of classes. The library's builder
    calls are replaced by the configuration record they would build. */
module ClassifierHead {

  import opened Wrappers

  /** Width of the embedding vector the head reads. */
  const EmbeddingWidth: int := 1024

  /** Units of the hidden layer. */
  const HiddenUnits: int := 128

  datatype Activation = Relu | Softmax

  datatype Loss = BinaryCrossentropy | CategoricalCrossentropy

  /** A dense layer as the builder receives it. Only the first layer of a
      sequential model declares its input width; later layers take the
      previous layer's units. */
  datatype DenseLayer = DenseLayer(inputShape: Option<int>, units: int, activation: Activation)

  /** The compiled head: its layers, and the optimizer and metrics by the
      names the compile call passes. */
  datatype HeadConfig = HeadConfig(layers: seq<DenseLayer>, optimizer: string, loss: Loss, metrics: seq<string>)

  /** The input width of layer `k` of a sequential stack, as the library
      infers it: its own declared width, or else the units of the layer
      before it. */
  function InputWidth(layers: seq<DenseLayer>, k: int): Option<int>
    requires 0 <= k < |layers|
  {
    if layers[k].inputShape.Some? then layers[k].inputShape
    else if k == 0 then None
    else Some(layers[k - 1].units)
  }

  /** The width of the vector the stack emits: the units of its last layer. */
  function OutputWidth(layers: seq<DenseLayer>): Option<int>
  {
    if layers == [] then None else Some(layers[|layers| - 1].units)
  }

  /** A stack in which the first layer declares `inputWidth` and every later
      layer inherits the units of the one before. */
  predicate Chained(layers: seq<DenseLayer>, inputWidth: int)
  {
    |layers| > 0 &&
    layers[0].inputShape == Some(inputWidth) &&
    forall k :: 0 < k < |layers| ==> layers[k].inputShape.None?
  }

  /** The loss the head compiles with: binary cross-entropy for exactly two
      classes, categorical cross-entropy for every other count. */
  function LossFor(classificationsLength: int): (loss: Loss)
    ensures loss == BinaryCrossentropy <==> classificationsLength == 2
    ensures loss == CategoricalCrossentropy <==> classificationsLength != 2
  {
    if classificationsLength == 2 then BinaryCrossentropy else CategoricalCrossentropy
  }

  /** The head for `classificationsLength` classes: 1024 inputs into 128
      relu units, then one softmax unit per class; Adam, with accuracy as
      the one metric. Outside this module it is called as
      `ClassifierHead.TrainedModel`. */
  function TrainedModel(classificationsLength: int): (head: HeadConfig)
    ensures |head.layers| == 2
    ensures Chained(head.layers, EmbeddingWidth)
    ensures head.layers[0].units == HiddenUnits && head.layers[0].activation == Relu
    ensures head.layers[1].units == classificationsLength && head.layers[1].activation == Softmax
    ensures head.optimizer == "adam" && head.metrics == ["accuracy"]
    ensures head.loss == BinaryCrossentropy <==> classificationsLength == 2
  {
    HeadConfig(
      [DenseLayer(Some(EmbeddingWidth), HiddenUnits, Relu),
       DenseLayer(None, classificationsLength, Softmax)],
      "adam",
      LossFor(classificationsLength),
      ["accuracy"])
  }

  /** The head reads a 1024-wide embedding, its output layer reads the
      hidden layer's 128 units, and it emits one score per class. */
  lemma TrainedModelShapes(classificationsLength: int)
    ensures var layers := TrainedModel(classificationsLength).layers;
      InputWidth(layers, 0) == Some(EmbeddingWidth) &&
      InputWidth(layers, 1) == Some(HiddenUnits) &&
      OutputWidth(layers) == Some(classificationsLength)
  {
  }

  /** Two class counts give heads that differ at most in the output layer's
      units and in the loss, and give the same loss exactly when both or
      neither count is 2. */
  lemma TrainedModelDependsOnCountOnly(n: int, m: int)
    ensures var (a, b) := (TrainedModel(n), TrainedModel(m));
      a.layers[0] == b.layers[0] &&
      a.layers[1].inputShape == b.layers[1].inputShape &&
      a.layers[1].activation == b.layers[1].activation &&
      a.optimizer == b.optimizer && a.metrics == b.metrics &&
      (a.loss == b.loss <==> (n == 2) == (m == 2)) &&
      (a == b <==> n == m)
  {
  }
}
