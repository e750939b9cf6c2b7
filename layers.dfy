/**
 The layer descriptors a VGG network is assembled from, and the shape rules
 of the tensor library's layers, stated on per-sample shapes (the batch
 dimension is left implicit). A layer either maps a shape to a new shape or
 rejects it, which is how a shape mismatch shows up when the network is run.
 */
module Layers {

  datatype Option<+T> = None | Some(value: T)

  /** One layer of a sequential network, with the arguments it was built with. */
  datatype Layer =
    | Conv(inChannels: nat, outChannels: nat, kernel: nat, stride: nat, padding: nat, bias: bool)
    | BatchNorm(features: nat)
    | ReLU
    | MaxPool(kernel: nat)
    | Flatten
    | Linear(inFeatures: nat, outFeatures: nat)
    | Dropout(ratePercent: nat)

  /** The shape of one sample: a feature map (channels, height, width) or a flat vector. */
  datatype Shape = Image(channels: nat, height: nat, width: nat) | Vector(size: nat)

  /** Number of scalars in one sample. */
  function Volume(x: Shape): nat {
    match x
    case Image(c, h, w) => c * h * w
    case Vector(n) => n
  }

  /** Output extent of a convolution along one spatial axis (dilation 1). */
  function ConvOutputSize(size: nat, kernel: nat, stride: nat, padding: nat): (r: Option<nat>)
    ensures kernel == 3 && stride == 1 && padding == 1 ==> (r.Some? <==> size >= 1)
    ensures kernel == 3 && stride == 1 && padding == 1 && r.Some? ==> r.value == size
  {
    if kernel == 0 || stride == 0 || size + 2 * padding < kernel then None
    else Some((size + 2 * padding - kernel) / stride + 1)
  }

  /** Output extent of a max-pool along one axis; the stride equals the kernel, no padding. */
  function PoolOutputSize(size: nat, kernel: nat): (r: Option<nat>)
    ensures kernel == 2 ==> (r.Some? <==> size >= 2)
    ensures kernel == 2 && r.Some? ==> r.value == size / 2
  {
    if kernel == 0 || size < kernel then None
    else Some((size - kernel) / kernel + 1)
  }

  /** The shape a layer produces from an input shape, or None when the layer rejects it. */
  function Apply(l: Layer, x: Shape): (r: Option<Shape>)
    ensures l.ReLU? || l.Dropout? ==> r == Some(x)
    ensures r.Some? && (l.Conv? || l.MaxPool? || l.BatchNorm?) ==> x.Image? && r.value.Image?
    ensures r.Some? && l.Conv? ==> x.channels == l.inChannels && r.value.channels == l.outChannels
    ensures r.Some? && l.BatchNorm? ==> x.channels == l.features && r.value == x
    ensures r.Some? && l.Linear? ==> x == Vector(l.inFeatures) && r.value == Vector(l.outFeatures)
    ensures l.Flatten? ==> r == Some(Vector(Volume(x)))
  {
    match l
    case Conv(i, o, k, s, p, _) =>
      if x.Image? && x.channels == i then
        match (ConvOutputSize(x.height, k, s, p), ConvOutputSize(x.width, k, s, p))
        case (Some(h), Some(w)) => Some(Image(o, h, w))
        case _ => None
      else None
    case BatchNorm(c) =>
      if x.Image? && x.channels == c then Some(x) else None
    case ReLU => Some(x)
    case MaxPool(k) =>
      if x.Image? then
        match (PoolOutputSize(x.height, k), PoolOutputSize(x.width, k))
        case (Some(h), Some(w)) => Some(Image(x.channels, h, w))
        case _ => None
      else None
    case Flatten => Some(Vector(Volume(x)))
    case Linear(i, o) =>
      if x.Vector? && x.size == i then Some(Vector(o)) else None
    case Dropout(_) => Some(x)
  }

  /** Runs a sequential stack of layers, first to last, stopping at the first rejection. */
  function Run(layers: seq<Layer>, x: Shape): (r: Option<Shape>)
    ensures r.Some? && layers != [] && layers[|layers| - 1].Linear?
            ==> r.value == Vector(layers[|layers| - 1].outFeatures)
    decreases |layers|
  {
    if layers == [] then Some(x)
    else
      match Apply(layers[0], x)
      case None => None
      case Some(y) => Run(layers[1..], y)
  }

  /** Feeds an optional shape into a further stack of layers. */
  function Then(o: Option<Shape>, layers: seq<Layer>): Option<Shape> {
    match o
    case None => None
    case Some(x) => Run(layers, x)
  }

  /** Running a concatenation is running its parts one after the other. */
  lemma {:induction false} RunAppend(a: seq<Layer>, b: seq<Layer>, x: Shape)
    ensures Run(a + b, x) == Then(Run(a, x), b)
    decreases |a|
  {
    if a == [] {
      assert a + b == b;
    } else {
      assert (a + b)[0] == a[0];
      assert (a + b)[1..] == a[1..] + b;
      match Apply(a[0], x)
      case None =>
      case Some(y) => RunAppend(a[1..], b, y);
    }
  }

  /** Number of convolution layers in a stack. */
  function CountConvs(layers: seq<Layer>): nat
    decreases |layers|
  {
    if layers == [] then 0
    else (if layers[0].Conv? then 1 else 0) + CountConvs(layers[1..])
  }

  lemma {:induction false} CountConvsAppend(a: seq<Layer>, b: seq<Layer>)
    ensures CountConvs(a + b) == CountConvs(a) + CountConvs(b)
    decreases |a|
  {
    if a == [] {
      assert a + b == b;
    } else {
      assert (a + b)[0] == a[0];
      assert (a + b)[1..] == a[1..] + b;
      CountConvsAppend(a[1..], b);
    }
  }

  /** The (input width, output width) of every Linear layer, in order. */
  function LinearWidths(layers: seq<Layer>): seq<(nat, nat)>
    decreases |layers|
  {
    if layers == [] then []
    else
      (if layers[0].Linear? then [(layers[0].inFeatures, layers[0].outFeatures)] else [])
      + LinearWidths(layers[1..])
  }

  /** Each Linear layer takes as many features as the previous Linear layer produces. */
  predicate Chained(widths: seq<(nat, nat)>)
    decreases |widths|
  {
    |widths| < 2 || (widths[0].1 == widths[1].0 && Chained(widths[1..]))
  }
}
