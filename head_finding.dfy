/**
 The classifier head with the width mismatch removed: the first Linear layer
 yields the hidden width that the next Linear layer takes. The network as
 built (VggNet.Classifier) differs from it only when the feature map after
 the stages is 1x1, which includes the default input shape (3, 32, 32).
 */
module HeadFinding {
  import opened Layers
  import opened VggNet
  import opened NetworkFacts

  /** The head with its first Linear layer yielding the hidden width. */
  function IntendedClassifier(inputShape: InputShape, nClass: nat): (r: seq<Layer>)
    ensures var post := PostConvShape(inputShape);
            && |r| == 8 && r[1].Linear? && r[4].Linear? && r[7].Linear?
            && r[1].inFeatures == Volume(Image(512, post.0, post.1))
            && r[1].outFeatures == r[4].inFeatures
            && r[4].outFeatures == r[7].inFeatures
            && r[7].outFeatures == nClass
  {
    var post := PostConvShape(inputShape);
    var mid := IntermediateDimension(post);
    [ Flatten,
      Linear(post.0 * post.1 * 512, mid),
      Dropout(DropoutPercent),
      ReLU,
      Linear(mid, mid),
      Dropout(DropoutPercent),
      ReLU,
      Linear(mid, nClass) ]
  }

  /** The five stages followed by the corrected head. */
  function IntendedNetwork(config: seq<int>, inputShape: InputShape, nClass: nat): seq<Layer>
    requires |config| >= 5
  {
    Features(config) + IntendedClassifier(inputShape, nClass)
  }

  /** The two heads agree exactly when the feature map is not 1x1. */
  lemma HeadsAgreeIff(inputShape: InputShape, nClass: nat)
    ensures var post := PostConvShape(inputShape);
            Classifier(inputShape, nClass) == IntendedClassifier(inputShape, nClass) <==> post.0 * post.1 != 1
  {
    var post := PostConvShape(inputShape);
    if post.0 * post.1 == 1 {
      assert Classifier(inputShape, nClass)[1] != IntendedClassifier(inputShape, nClass)[1];
    }
  }

  /** The intended head accepts exactly the samples of the flattened size it was built for. */
  lemma IntendedClassifierShape(inputShape: InputShape, nClass: nat, x: Shape)
    ensures var post := PostConvShape(inputShape);
            Run(IntendedClassifier(inputShape, nClass), x)
            == if Volume(x) == post.0 * post.1 * 512 then Some(Vector(nClass)) else None
  {
    var c := IntendedClassifier(inputShape, nClass);
    var post := PostConvShape(inputShape);
    var mid := IntermediateDimension(post);
    var v := Vector(Volume(x));
    assert Run(c, x) == Run(c[1..], v);
    if Volume(x) == post.0 * post.1 * 512 {
      var f := Vector(mid);
      var t4 := c[1..][1..][1..][1..];
      var t7 := t4[1..][1..][1..];
      assert Run(c[1..], v) == Run(c[1..][1..], f) == Run(c[1..][1..][1..], f) == Run(t4, f);
      assert Run(t4, f) == Run(t4[1..], f) == Run(t4[1..][1..], f) == Run(t7, f);
      assert t7[1..] == [];
      assert Apply(t7[0], f) == Some(Vector(nClass));
      assert Run(t7, f) == Run(t7[1..], Vector(nClass));
    } else {
      assert Apply(c[1], v) == None;
    }
  }

  /** The intended network yields one score per class exactly when the sample has
      3 channels, sides of at least 32 and the feature-map area the head was built for. */
  lemma IntendedNetworkShape(config: seq<int>, inputShape: InputShape, nClass: nat, x: Shape)
    requires |config| >= 5
    ensures var post := PostConvShape(inputShape);
            Run(IntendedNetwork(config, inputShape, nClass), x)
            == if && x.Image? && x.channels == 3 && x.height >= 32 && x.width >= 32
                  && (x.height / 32) * (x.width / 32) == post.0 * post.1
               then Some(Vector(nClass)) else None
  {
    RunAppend(Features(config), IntendedClassifier(inputShape, nClass), x);
    FeaturesShape(config, x);
    if x.Image? && x.channels == 3 && x.height >= 32 && x.width >= 32 {
      var post := PostConvShape(inputShape);
      IntendedClassifierShape(inputShape, nClass, Image(512, x.height / 32, x.width / 32));
      Scaled(x.height / 32, x.width / 32, post.0, post.1);
    }
  }

  /** On its declared input shape the intended network succeeds for every
      3-channel shape with sides of at least 32, including (3, 32, 32). */
  lemma IntendedDeclaredInputShape(config: seq<int>, inputShape: InputShape, nClass: nat)
    requires |config| >= 5
    ensures Run(IntendedNetwork(config, inputShape, nClass), Image(inputShape.0, inputShape.1, inputShape.2))
            == if inputShape.0 == 3 && inputShape.1 >= 32 && inputShape.2 >= 32
               then Some(Vector(nClass)) else None
  {
    IntendedNetworkShape(config, inputShape, nClass, Image(inputShape.0, inputShape.1, inputShape.2));
  }
}
