/**
 Facts about the whole network: the five stages together, the classifier
 head, the shape of the forward pass, and the two presets.
 */
module NetworkFacts {
  import opened Layers
  import opened VggNet
  import opened StageFacts

  /** Five floor halvings are one floor division by 32, and each of them sees a
      side of at least 2 exactly when the side started at 32 or more. */
  lemma FiveHalvings(n: nat)
    ensures n / 2 / 2 / 2 / 2 / 2 == n / 32
    ensures (n >= 2 && n / 2 >= 2 && n / 2 / 2 >= 2 && n / 2 / 2 / 2 >= 2 && n / 2 / 2 / 2 / 2 >= 2)
            <==> n >= 32
  {
    assert n / 2 / 2 == n / 4;
    assert n / 4 / 2 == n / 8;
    assert n / 8 / 2 == n / 16;
    assert n / 16 / 2 == n / 32;
  }

  /** The five stages map (3, H, W) to (512, H / 32, W / 32); any other channel
      count, a vector, or a side below 32 is rejected by some stage. */
  lemma FeaturesShape(config: seq<int>, x: Shape)
    requires |config| >= 5
    ensures Run(Features(config), x)
            == if x.Image? && x.channels == 3 && x.height >= 32 && x.width >= 32
               then Some(Image(512, x.height / 32, x.width / 32)) else None
  {
    var s1, s2, s3 := Stage(3, 64, config[0]), Stage(64, 128, config[1]), Stage(128, 256, config[2]);
    var s4, s5 := Stage(256, 512, config[3]), Stage(512, 512, config[4]);
    RunAppend(s1, s2, x);
    RunAppend(s1 + s2, s3, x);
    RunAppend(s1 + s2 + s3, s4, x);
    RunAppend(s1 + s2 + s3 + s4, s5, x);
    StageShape(3, 64, config[0], x);
    if x.Image? && x.channels == 3 {
      FiveHalvings(x.height);
      FiveHalvings(x.width);
      var h, w := x.height, x.width;
      if h >= 2 && w >= 2 {
        StageShape(64, 128, config[1], Image(64, h / 2, w / 2));
        if h / 2 >= 2 && w / 2 >= 2 {
          StageShape(128, 256, config[2], Image(128, h / 2 / 2, w / 2 / 2));
          if h / 2 / 2 >= 2 && w / 2 / 2 >= 2 {
            StageShape(256, 512, config[3], Image(256, h / 2 / 2 / 2, w / 2 / 2 / 2));
            if h / 2 / 2 / 2 >= 2 && w / 2 / 2 / 2 >= 2 {
              StageShape(512, 512, config[4], Image(512, h / 2 / 2 / 2 / 2, w / 2 / 2 / 2 / 2));
            }
          }
        }
      }
    }
  }

  /** The stages chain: the first one takes 3 channels, each later one takes the
      channels the previous one yields, and the last yields 512. */
  lemma ChannelChain(config: seq<int>)
    requires |config| >= 5
    ensures var stages := [Stage(3, 64, config[0]), Stage(64, 128, config[1]), Stage(128, 256, config[2]),
                           Stage(256, 512, config[3]), Stage(512, 512, config[4])];
            && stages[0][0].inChannels == 3
            && stages[4][0].outChannels == 512
            && forall i :: 1 <= i < 5 ==> stages[i][0].inChannels == stages[i - 1][0].outChannels
  {
    StageChannels(3, 64, config[0]);
    StageChannels(64, 128, config[1]);
    StageChannels(128, 256, config[2]);
    StageChannels(256, 512, config[3]);
    StageChannels(512, 512, config[4]);
  }

  /** On the declared input shape the stages end at the size the builder computes
      as the post-convolution shape. The first stage always expects 3 channels,
      whatever the declared channel count is. */
  lemma FeaturesMatchPostConvShape(config: seq<int>, inputShape: InputShape)
    requires |config| >= 5
    ensures var post := PostConvShape(inputShape);
            Run(Features(config), Image(inputShape.0, inputShape.1, inputShape.2))
            == if inputShape.0 == 3 && inputShape.1 >= 32 && inputShape.2 >= 32
               then Some(Image(512, post.0, post.1)) else None
  {
    FeaturesShape(config, Image(inputShape.0, inputShape.1, inputShape.2));
  }

  /** The Linear layers of the head: the first takes the flattened 512-channel
      feature map and yields 4096, the hidden width is 512 exactly for a 1x1
      feature map, and the last yields one score per class. */
  lemma ClassifierWidths(inputShape: InputShape, nClass: nat)
    ensures var post := PostConvShape(inputShape);
            var mid := IntermediateDimension(post);
            && (mid == 512 <==> post.0 * post.1 == 1)
            && (mid != 512 ==> mid == 4096)
            && LinearWidths(Classifier(inputShape, nClass))
               == [(Volume(Image(512, post.0, post.1)), 4096), (mid, mid), (mid, nClass)]
  {
    var c := Classifier(inputShape, nClass);
    var post := PostConvShape(inputShape);
    var mid := IntermediateDimension(post);
    assert Volume(Image(512, post.0, post.1)) == post.0 * post.1 * 512;
    var t1 := c[1..];
    var t4 := t1[1..][1..][1..];
    var t7 := t4[1..][1..][1..];
    assert t7[1..] == [];
    assert LinearWidths(t7) == [(mid, nClass)];
    assert LinearWidths(t4) == [(mid, mid)] + LinearWidths(t4[1..]);
    assert LinearWidths(t4[1..]) == LinearWidths(t4[1..][1..]) == LinearWidths(t7);
    assert LinearWidths(t1) == [(post.0 * post.1 * 512, 4096)] + LinearWidths(t1[1..]);
    assert LinearWidths(t1[1..]) == LinearWidths(t1[1..][1..]) == LinearWidths(t4);
    assert LinearWidths(c) == LinearWidths(t1);
  }

  /** The Linear chain of the head fits together exactly when the feature map
      after the stages is not 1x1. */
  lemma ClassifierChainedIff(inputShape: InputShape, nClass: nat)
    ensures var post := PostConvShape(inputShape);
            Chained(LinearWidths(Classifier(inputShape, nClass))) <==> post.0 * post.1 != 1
  {
    ClassifierWidths(inputShape, nClass);
    var post := PostConvShape(inputShape);
    var mid := IntermediateDimension(post);
    var ws: seq<(nat, nat)> := LinearWidths(Classifier(inputShape, nClass));
    assert |ws[1..][1..]| < 2;
    assert Chained(ws[1..]);
    assert Chained(ws) <==> 4096 == mid;
  }

  lemma Scaled(a: nat, b: nat, c: nat, d: nat)
    ensures 512 * a * b == c * d * 512 <==> a * b == c * d
  {
    assert 512 * a * b == 512 * (a * b);
    assert c * d * 512 == 512 * (c * d);
  }

  /** The head accepts a sample of the flattened size it was built for, and then
      only when the hidden width is 4096: with a 1x1 feature map the second
      Linear receives 4096 features but expects 512. */
  lemma ClassifierShape(inputShape: InputShape, nClass: nat, x: Shape)
    ensures var post := PostConvShape(inputShape);
            Run(Classifier(inputShape, nClass), x)
            == if Volume(x) == post.0 * post.1 * 512 && post.0 * post.1 != 1
               then Some(Vector(nClass)) else None
  {
    var c := Classifier(inputShape, nClass);
    var post := PostConvShape(inputShape);
    var mid := IntermediateDimension(post);
    var v := Vector(Volume(x));
    assert Run(c, x) == Run(c[1..], v);
    if Volume(x) == post.0 * post.1 * 512 {
      var f := Vector(4096);
      assert Run(c[1..], v) == Run(c[1..][1..], f) == Run(c[1..][1..][1..], f) == Run(c[1..][1..][1..][1..], f);
      if mid == 4096 {
        assert Run(c[1..][1..][1..][1..], f) == Run(c[1..][1..][1..][1..][1..], f)
            == Run(c[1..][1..][1..][1..][1..][1..], f) == Run(c[1..][1..][1..][1..][1..][1..][1..], f);
        var t7 := c[1..][1..][1..][1..][1..][1..][1..];
        assert t7[1..] == [];
        assert Apply(t7[0], f) == Some(Vector(nClass));
        assert Run(t7, f) == Run(t7[1..], Vector(nClass));
      } else {
        assert Apply(c[4], f) == None;
      }
    } else {
      assert Apply(c[1], v) == None;
    }
  }

  /** The forward pass of the network as built: it yields one score per class
      exactly when the sample has 3 channels, both sides are at least 32, the
      feature map has the area the head was built for, and that area is not 1. */
  lemma NetworkShape(config: seq<int>, inputShape: InputShape, nClass: nat, x: Shape)
    requires |config| >= 5
    ensures var post := PostConvShape(inputShape);
            Run(Network(config, inputShape, nClass), x)
            == if && x.Image? && x.channels == 3 && x.height >= 32 && x.width >= 32
                  && (x.height / 32) * (x.width / 32) == post.0 * post.1
                  && post.0 * post.1 != 1
               then Some(Vector(nClass)) else None
  {
    RunAppend(Features(config), Classifier(inputShape, nClass), x);
    FeaturesShape(config, x);
    if x.Image? && x.channels == 3 && x.height >= 32 && x.width >= 32 {
      var post := PostConvShape(inputShape);
      var y := Image(512, x.height / 32, x.width / 32);
      ClassifierShape(inputShape, nClass, y);
      Scaled(x.height / 32, x.width / 32, post.0, post.1);
    }
  }

  /** On a sample of its own declared shape the network as built succeeds exactly
      when that shape has 3 channels, sides of at least 32, and a post-convolution
      area other than 1. */
  lemma DeclaredInputShape(config: seq<int>, inputShape: InputShape, nClass: nat)
    requires |config| >= 5
    ensures var post := PostConvShape(inputShape);
            Run(Network(config, inputShape, nClass), Image(inputShape.0, inputShape.1, inputShape.2))
            == if inputShape.0 == 3 && inputShape.1 >= 32 && inputShape.2 >= 32 && post.0 * post.1 != 1
               then Some(Vector(nClass)) else None
  {
    NetworkShape(config, inputShape, nClass, Image(inputShape.0, inputShape.1, inputShape.2));
  }

  /** With the default input shape (3, 32, 32) and 10 classes the forward pass
      of the network as built fails, for every stage configuration. */
  lemma DefaultForwardFails(config: seq<int>)
    requires |config| >= 5
    ensures !Chained(LinearWidths(Classifier((3, 32, 32), 10)))
    ensures Run(Network(config, (3, 32, 32), 10), Image(3, 32, 32)) == None
  {
    ClassifierChainedIff((3, 32, 32), 10);
    DeclaredInputShape(config, (3, 32, 32), 10);
  }

  /** With input shape (3, 64, 64) the hidden width is 4096 and the forward pass
      yields 10 scores. */
  lemma Input64Forward(config: seq<int>)
    requires |config| >= 5
    ensures IntermediateDimension(PostConvShape((3, 64, 64))) == 4096
    ensures Run(Network(config, (3, 64, 64), 10), Image(3, 64, 64)) == Some(Vector(10))
  {
    DeclaredInputShape(config, (3, 64, 64), 10);
  }

  /** Convolutions of the five stages: one per sub-block. */
  lemma FeaturesConvs(config: seq<int>)
    requires |config| >= 5
    ensures CountConvs(Features(config))
            == SubBlockCount(config[0]) + SubBlockCount(config[1]) + SubBlockCount(config[2])
               + SubBlockCount(config[3]) + SubBlockCount(config[4])
  {
    var s1, s2, s3 := Stage(3, 64, config[0]), Stage(64, 128, config[1]), Stage(128, 256, config[2]);
    var s4, s5 := Stage(256, 512, config[3]), Stage(512, 512, config[4]);
    StageConvs(3, 64, config[0]);
    StageConvs(64, 128, config[1]);
    StageConvs(128, 256, config[2]);
    StageConvs(256, 512, config[3]);
    StageConvs(512, 512, config[4]);
    CountConvsAppend(s1, s2);
    CountConvsAppend(s1 + s2, s3);
    CountConvsAppend(s1 + s2 + s3, s4);
    CountConvsAppend(s1 + s2 + s3 + s4, s5);
  }

  /** "vgg16" builds 13 convolutions and "vgg19" 16, each followed by a head of
      3 Linear layers; every other name fails the lookup. */
  lemma PresetDepths(inputShape: InputShape, nClass: nat)
    ensures LookupPreset("vgg16") == Some([2, 2, 3, 3, 3])
    ensures LookupPreset("vgg19") == Some([2, 2, 4, 4, 4])
    ensures CountConvs(Features([2, 2, 3, 3, 3])) == 13
    ensures CountConvs(Features([2, 2, 4, 4, 4])) == 16
    ensures |LinearWidths(Classifier(inputShape, nClass))| == 3
  {
    FeaturesConvs([2, 2, 3, 3, 3]);
    FeaturesConvs([2, 2, 4, 4, 4]);
    ClassifierWidths(inputShape, nClass);
  }
}
