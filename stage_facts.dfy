/**
 Facts about one stage as `MakeLayer` builds it: its length, the layer at
 every position, the convolution count, and the shape it produces.
 */
module StageFacts {
  import opened Layers
  import opened VggNet

  /** Number of (conv, batch norm, rectifier) sub-blocks in a stage: the first
      is unconditional, so a count below one still yields one. */
  function SubBlockCount(nLayers: int): nat {
    if nLayers >= 1 then nLayers else 1
  }

  /** Reference description of a stage, position by position. */
  function StageLayerAt(inChannels: nat, outChannels: nat, nLayers: int, j: nat): Layer {
    if j == 3 * SubBlockCount(nLayers) then MaxPool(2)
    else if j % 3 == 0 then Conv(if j == 0 then inChannels else outChannels, outChannels, 3, 1, 1, false)
    else if j % 3 == 1 then BatchNorm(outChannels)
    else ReLU
  }

  lemma {:induction false} SameSubBlocksAt(channels: nat, k: nat)
    ensures |SameSubBlocks(channels, k)| == 3 * k
    ensures forall j :: 0 <= j < 3 * k ==> SameSubBlocks(channels, k)[j] == SubBlock(channels, channels)[j % 3]
  {
    if k > 0 {
      SameSubBlocksAt(channels, k - 1);
      var prev := SameSubBlocks(channels, k - 1);
      var s := SameSubBlocks(channels, k);
      assert s == prev + SubBlock(channels, channels);
      forall j | 0 <= j < 3 * k
        ensures s[j] == SubBlock(channels, channels)[j % 3]
      {
        if j >= 3 * (k - 1) {
          assert j % 3 == j - 3 * (k - 1);
        }
      }
    }
  }

  /** A stage agrees with the reference description at every position. */
  lemma StageIndexed(inChannels: nat, outChannels: nat, nLayers: int)
    ensures |Stage(inChannels, outChannels, nLayers)| == 3 * SubBlockCount(nLayers) + 1
    ensures forall j :: 0 <= j < |Stage(inChannels, outChannels, nLayers)| ==>
              Stage(inChannels, outChannels, nLayers)[j] == StageLayerAt(inChannels, outChannels, nLayers, j)
  {
    var k := ExtraSubBlocks(nLayers);
    SameSubBlocksAt(outChannels, k);
    var s := Stage(inChannels, outChannels, nLayers);
    forall j | 0 <= j < |s|
      ensures s[j] == StageLayerAt(inChannels, outChannels, nLayers, j)
    {
      if 3 <= j < 3 + 3 * k {
        assert s[j] == SameSubBlocks(outChannels, k)[j - 3];
        assert (j - 3) % 3 == j % 3;
      }
    }
  }

  /** The length of a stage; a sub-block count of zero or less gives 4 layers. */
  lemma StageLength(inChannels: nat, outChannels: nat, nLayers: int)
    ensures nLayers >= 1 ==> |Stage(inChannels, outChannels, nLayers)| == 3 * nLayers + 1
    ensures nLayers <= 0 ==> |Stage(inChannels, outChannels, nLayers)| == 4
  {
    StageIndexed(inChannels, outChannels, nLayers);
  }

  /** The stage ends with a 2x2 max-pool, and that is its only pooling layer. */
  lemma StagePooling(inChannels: nat, outChannels: nat, nLayers: int)
    ensures var s := Stage(inChannels, outChannels, nLayers);
            s[|s| - 1] == MaxPool(2)
            && forall j :: 0 <= j < |s| ==> (s[j].MaxPool? <==> j == |s| - 1)
  {
    StageIndexed(inChannels, outChannels, nLayers);
  }

  /** The first convolution maps inChannels to outChannels, every later one keeps
      outChannels; all are 3x3, stride 1, padding 1, without bias, and every batch
      norm is over outChannels. */
  lemma StageChannels(inChannels: nat, outChannels: nat, nLayers: int)
    ensures var s := Stage(inChannels, outChannels, nLayers);
            && s[0] == Conv(inChannels, outChannels, 3, 1, 1, false)
            && (forall j :: 0 < j < |s| && s[j].Conv? ==> s[j] == Conv(outChannels, outChannels, 3, 1, 1, false))
            && (forall j :: 0 <= j < |s| && s[j].BatchNorm? ==> s[j] == BatchNorm(outChannels))
  {
    StageIndexed(inChannels, outChannels, nLayers);
  }

  lemma SubBlockConvs(inChannels: nat, outChannels: nat)
    ensures CountConvs(SubBlock(inChannels, outChannels)) == 1
  {
    var s := SubBlock(inChannels, outChannels);
    assert s[1..][1..][1..] == [];
    assert CountConvs(s[1..][1..]) == CountConvs(s[1..][1..][1..]) == 0;
    assert CountConvs(s[1..]) == CountConvs(s[1..][1..]);
  }

  lemma {:induction false} SameSubBlocksConvs(channels: nat, k: nat)
    ensures CountConvs(SameSubBlocks(channels, k)) == k
  {
    if k > 0 {
      SubBlockConvs(channels, channels);
      SameSubBlocksConvs(channels, k - 1);
      CountConvsAppend(SameSubBlocks(channels, k - 1), SubBlock(channels, channels));
    }
  }

  /** One convolution per sub-block. */
  lemma StageConvs(inChannels: nat, outChannels: nat, nLayers: int)
    ensures CountConvs(Stage(inChannels, outChannels, nLayers)) == SubBlockCount(nLayers)
  {
    var a := SubBlock(inChannels, outChannels);
    var b := SameSubBlocks(outChannels, ExtraSubBlocks(nLayers));
    SameSubBlocksConvs(outChannels, ExtraSubBlocks(nLayers));
    SubBlockConvs(inChannels, outChannels);
    assert [MaxPool(2)][1..] == [];
    CountConvsAppend(a, b);
    CountConvsAppend(a + b, [MaxPool(2)]);
  }

  /** One sub-block keeps the spatial size and produces outChannels channels. */
  lemma SubBlockShape(inChannels: nat, outChannels: nat, x: Shape)
    ensures Run(SubBlock(inChannels, outChannels), x)
            == if x.Image? && x.channels == inChannels && x.height >= 1 && x.width >= 1
               then Some(Image(outChannels, x.height, x.width)) else None
  {
    var s := SubBlock(inChannels, outChannels);
    assert s[1..][1..][1..] == [];
    if x.Image? && x.channels == inChannels && x.height >= 1 && x.width >= 1 {
      var y := Image(outChannels, x.height, x.width);
      assert Apply(s[0], x) == Some(y);
      assert Run(s[1..], y) == Run(s[1..][1..], y) == Run(s[1..][1..][1..], y);
    } else if x.Image? && x.channels == inChannels {
      assert Apply(s[0], x) == None;
    }
  }

  lemma {:induction false} SameSubBlocksShape(channels: nat, k: nat, h: nat, w: nat)
    requires h >= 1 && w >= 1
    ensures Run(SameSubBlocks(channels, k), Image(channels, h, w)) == Some(Image(channels, h, w))
  {
    if k > 0 {
      SameSubBlocksShape(channels, k - 1, h, w);
      RunAppend(SameSubBlocks(channels, k - 1), SubBlock(channels, channels), Image(channels, h, w));
      SubBlockShape(channels, channels, Image(channels, h, w));
    }
  }

  /** A stage maps (inChannels, H, W) to (outChannels, H / 2, W / 2), and rejects
      any other channel count, a vector, or a side shorter than 2. */
  lemma StageShape(inChannels: nat, outChannels: nat, nLayers: int, x: Shape)
    ensures Run(Stage(inChannels, outChannels, nLayers), x)
            == if x.Image? && x.channels == inChannels && x.height >= 2 && x.width >= 2
               then Some(Image(outChannels, x.height / 2, x.width / 2)) else None
  {
    var a := SubBlock(inChannels, outChannels);
    var b := SameSubBlocks(outChannels, ExtraSubBlocks(nLayers));
    RunAppend(a + b, [MaxPool(2)], x);
    RunAppend(a, b, x);
    SubBlockShape(inChannels, outChannels, x);
    if x.Image? && x.channels == inChannels && x.height >= 1 && x.width >= 1 {
      SameSubBlocksShape(outChannels, ExtraSubBlocks(nLayers), x.height, x.width);
      var y := Image(outChannels, x.height, x.width);
      assert Run([MaxPool(2)], y) == Then(Apply(MaxPool(2), y), []);
    }
  }
}
