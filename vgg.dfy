/**
 The VGG network builder: five convolutional stages with a fixed channel
 progression and a fully connected classifier head whose widths are inferred
 from the declared input shape. The topology is described by the functions
 of this module; the class `Vgg` is the object that the builder fills in
 field by field, as the Python class does in its initialiser.
 */
module VggNet {
  import opened Layers

  /** The declared input shape (channels, height, width). */
  type InputShape = (nat, nat, nat)

  /** Dropout probability 0.5, as a percentage. */
  const DropoutPercent: nat := 50

  /** The spatial down-sampling factor of the five stages together (2 ** 5). */
  const Downsampling: nat := 32

  /** The two presets of per-stage sub-block counts. */
  const DefaultConvLayersConfigs: map<string, seq<int>> :=
    map["vgg16" := [2, 2, 3, 3, 3], "vgg19" := [2, 2, 4, 4, 4]]

  /** One sub-block: padded 3x3 convolution without bias, batch norm, rectifier. */
  function SubBlock(inChannels: nat, outChannels: nat): seq<Layer> {
    [Conv(inChannels, outChannels, 3, 1, 1, false), BatchNorm(outChannels), ReLU]
  }

  /** How often the loop over `range(nLayers - 1)` runs. */
  function ExtraSubBlocks(nLayers: int): nat {
    if nLayers >= 1 then nLayers - 1 else 0
  }

  /** `k` sub-blocks that keep `channels` channels, in the order the loop appends them. */
  function SameSubBlocks(channels: nat, k: nat): seq<Layer> {
    if k == 0 then [] else SameSubBlocks(channels, k - 1) + SubBlock(channels, channels)
  }

  /** The layers of one stage: the first sub-block changes the channel count,
      the further ones keep it, and a 2x2 max-pool closes the stage. */
  function Stage(inChannels: nat, outChannels: nat, nLayers: int): (r: seq<Layer>)
    ensures |r| >= 4
    ensures r[0] == Conv(inChannels, outChannels, 3, 1, 1, false) && r[|r| - 1] == MaxPool(2)
  {
    SubBlock(inChannels, outChannels)
    + SameSubBlocks(outChannels, ExtraSubBlocks(nLayers))
    + [MaxPool(2)]
  }

  /** The five stages with the channel progression 3, 64, 128, 256, 512, 512. */
  function Features(config: seq<int>): (r: seq<Layer>)
    requires |config| >= 5
    ensures |r| >= 20
    ensures r[0] == Conv(3, 64, 3, 1, 1, false) && r[|r| - 1] == MaxPool(2)
  {
    Stage(3, 64, config[0]) + Stage(64, 128, config[1]) + Stage(128, 256, config[2])
    + Stage(256, 512, config[3]) + Stage(512, 512, config[4])
  }

  /** Declared spatial size after the five stages, by floor division. */
  function PostConvShape(inputShape: InputShape): (r: (nat, nat))
    ensures r.0 * 32 <= inputShape.1 < (r.0 + 1) * 32
    ensures r.1 * 32 <= inputShape.2 < (r.1 + 1) * 32
  {
    (inputShape.1 / Downsampling, inputShape.2 / Downsampling)
  }

  /** Width of the hidden classifier layers: 512 for a 1x1 feature map, 4096 otherwise. */
  function IntermediateDimension(post: (nat, nat)): (r: nat)
    ensures r == 512 || r == 4096
    ensures r == 512 <==> post.0 * post.1 == 1
  {
    if post.0 * post.1 == 1 then 512 else 4096
  }

  /** The classifier head as written in the builder. */
  function Classifier(inputShape: InputShape, nClass: nat): (r: seq<Layer>)
    ensures var post := PostConvShape(inputShape);
            && |r| == 8 && r[0] == Flatten
            && r[1].Linear? && r[1].outFeatures == 4096
            && r[7] == Linear(IntermediateDimension(post), nClass)
  {
    var post := PostConvShape(inputShape);
    var mid := IntermediateDimension(post);
    [ Flatten,
      Linear(post.0 * post.1 * 512, 4096),
      Dropout(DropoutPercent),
      ReLU,
      Linear(mid, mid),
      Dropout(DropoutPercent),
      ReLU,
      Linear(mid, nClass) ]
  }

  /** All layers of the network, in the order the forward pass applies them. */
  function Network(config: seq<int>, inputShape: InputShape, nClass: nat): (r: seq<Layer>)
    requires |config| >= 5
    ensures |r| == |Features(config)| + 8
    ensures r[0] == Conv(3, 64, 3, 1, 1, false)
    ensures r[|r| - 1] == Linear(IntermediateDimension(PostConvShape(inputShape)), nClass)
  {
    Features(config) + Classifier(inputShape, nClass)
  }

  /** The preset table lookup; None stands for the missing key. */
  function LookupPreset(modelType: string): (r: Option<seq<int>>)
    ensures r.Some? <==> modelType == "vgg16" || modelType == "vgg19"
    ensures r.Some? ==> |r.value| == 5 && forall i :: 0 <= i < 5 ==> r.value[i] >= 2
  {
    if modelType in DefaultConvLayersConfigs then Some(DefaultConvLayersConfigs[modelType]) else None
  }

  class Vgg {
    var convLayersConfig: seq<int>
    var inputShape: InputShape
    var nClass: nat
    var layer1: seq<Layer>
    var layer2: seq<Layer>
    var layer3: seq<Layer>
    var layer4: seq<Layer>
    var layer5: seq<Layer>
    var classifier: seq<Layer>

    /** The fields hold the topology that the stored configuration describes. */
    ghost predicate Valid()
      reads this
      ensures Valid() ==> && |layer1| >= 4 && layer1[0] == Conv(3, 64, 3, 1, 1, false)
                          && |classifier| == 8
                          && classifier[7] == Linear(IntermediateDimension(PostConvShape(inputShape)), nClass)
    {
      && |convLayersConfig| >= 5
      && layer1 == Stage(3, 64, convLayersConfig[0])
      && layer2 == Stage(64, 128, convLayersConfig[1])
      && layer3 == Stage(128, 256, convLayersConfig[2])
      && layer4 == Stage(256, 512, convLayersConfig[3])
      && layer5 == Stage(512, 512, convLayersConfig[4])
      && classifier == Classifier(inputShape, nClass)
    }

    constructor (convLayersConfig: seq<int>, inputShape: InputShape := (3, 32, 32), nClass: nat := 10)
      requires |convLayersConfig| >= 5
      ensures Valid()
      ensures this.convLayersConfig == convLayersConfig
      ensures this.inputShape == inputShape && this.nClass == nClass
      ensures layer1 + layer2 + layer3 + layer4 + layer5 + classifier
              == Network(convLayersConfig, inputShape, nClass)
    {
      var l1 := MakeLayer(3, 64, convLayersConfig[0]);
      var l2 := MakeLayer(64, 128, convLayersConfig[1]);
      var l3 := MakeLayer(128, 256, convLayersConfig[2]);
      var l4 := MakeLayer(256, 512, convLayersConfig[3]);
      var l5 := MakeLayer(512, 512, convLayersConfig[4]);
      var post := PostConvShape(inputShape);
      var mid := IntermediateDimension(post);
      var head := [Flatten, Linear(post.0 * post.1 * 512, 4096), Dropout(DropoutPercent), ReLU,
                   Linear(mid, mid), Dropout(DropoutPercent), ReLU, Linear(mid, nClass)];
      assert head == Classifier(inputShape, nClass);
      this.convLayersConfig := convLayersConfig;
      this.inputShape := inputShape;
      this.nClass := nClass;
      layer1, layer2, layer3, layer4, layer5 := l1, l2, l3, l4, l5;
      classifier := head;
    }

    /** Builds one stage by appending layers to a list. */
    static method MakeLayer(inChannels: nat, outChannels: nat, nLayers: int) returns (layers: seq<Layer>)
      ensures layers == Stage(inChannels, outChannels, nLayers)
    {
      layers := [];
      layers := layers + [Conv(inChannels, outChannels, 3, 1, 1, false)];
      layers := layers + [BatchNorm(outChannels)];
      layers := layers + [ReLU];
      var i := 0;
      while i < nLayers - 1
        invariant 0 <= i <= ExtraSubBlocks(nLayers)
        invariant layers == SubBlock(inChannels, outChannels) + SameSubBlocks(outChannels, i)
      {
        layers := layers + [Conv(outChannels, outChannels, 3, 1, 1, false)];
        layers := layers + [BatchNorm(outChannels)];
        layers := layers + [ReLU];
        i := i + 1;
      }
      layers := layers + [MaxPool(2)];
    }

    /** The forward pass on shapes: the five stages, then the classifier. */
    function Forward(x: Shape): (r: Option<Shape>)
      reads this
      ensures r == Run(layer1 + layer2 + layer3 + layer4 + layer5 + classifier, x)
      ensures Valid() ==> r == Run(Network(convLayersConfig, inputShape, nClass), x)
    {
      RunAppend(layer1, layer2, x);
      RunAppend(layer1 + layer2, layer3, x);
      RunAppend(layer1 + layer2 + layer3, layer4, x);
      RunAppend(layer1 + layer2 + layer3 + layer4, layer5, x);
      RunAppend(layer1 + layer2 + layer3 + layer4 + layer5, classifier, x);
      Then(Then(Then(Then(Then(Run(layer1, x), layer2), layer3), layer4), layer5), classifier)
    }

    /** Builds a network from a named preset; a name outside the table gives None. */
    static method FromDefaultConfig(modelType: string, inputShape: InputShape := (3, 32, 32), nClass: nat := 10)
      returns (r: Option<Vgg>)
      ensures r.Some? <==> modelType == "vgg16" || modelType == "vgg19"
      ensures r.Some? ==> fresh(r.value) && r.value.Valid()
                          && Some(r.value.convLayersConfig) == LookupPreset(modelType)
                          && r.value.inputShape == inputShape && r.value.nClass == nClass
    {
      var config := LookupPreset(modelType);
      if config.None? {
        return None;
      }
      var model := new Vgg(config.value, inputShape, nClass);
      r := Some(model);
    }
  }
}
