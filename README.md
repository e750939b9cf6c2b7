# VGG network topology builder, modelled in Dafny

This project models the network builder of `advkit/convnets/vgg.py`: the
construction of a VGG-style image classifier from a stage
configuration (five sub-block counts), a declared input shape `(C, H, W)` and a class count. No
tensors are involved. Every layer is a descriptor value
(`Conv`, `BatchNorm`, `ReLU`, `MaxPool`, `Flatten`, `Linear`, `Dropout`), and a
layer's behaviour is its shape rule: it maps a per-sample shape to a new
shape, or it rejects the shape, the way the tensor library raises on a
mismatch.

- `layers.dfy` (module `Layers`): the descriptors and shape rules. A
  convolution's output extent is `(n + 2p - k) / s + 1` and it fails when
  `n + 2p < k`. A max-pool with kernel `k` has stride `k` and fails when `n < k`.
  `Run` applies a layer list in order, which is what a sequential container does.
- `vgg.dfy` (module `VggNet`): the builder. `Stage`, `Features`, `Classifier` and
  `Network` describe the topology as functions. The class `Vgg` has the Python
  object's fields (`convLayersConfig`, `inputShape`, `nClass`, `layer1` to `layer5`,
  `classifier`). Its constructor fills them in one at a time. `MakeLayer` builds
  a stage with a loop that appends to a list, and `FromDefaultConfig` looks the
  name up in the two-entry preset table.
- `stage_facts.dfy`, `network_facts.dfy`: what the builder guarantees, and the
  shape of the forward pass.
- `head_finding.dfy`: the classifier head with its width mismatch removed (see
  Findings).

Main results:

- A stage maps `(in, H, W)` to `(out, H/2, W/2)` using floor division.
- The five stages map `(3, H, W)` to `(512, H/32, W/32)` exactly when both `H`
  and `W` are at least 32. Below that, some layer rejects the input: a convolution rejects a side of 0, and a pooling layer rejects a side of 1.
- On its own declared shape, the network as written returns `n_class` scores
  exactly when three things hold: the shape has 3 channels, both sides are at
  least 32, and `(H/32) * (W/32) != 1`. So, whatever the stage configuration,
  the default shape `(3, 32, 32)` fails at the second Linear layer.

## Model

| member | source | states |
|---|---|---|
| `Layers.ConvOutputSize` | advkit/convnets/vgg.py:46-51 | a 3x3, stride-1, padding-1 convolution keeps every extent of at least 1 and rejects extent 0 |
| `Layers.PoolOutputSize` | advkit/convnets/vgg.py:55 | a 2x2 max-pool rejects an extent below 2 and otherwise floor-halves it |
| `Layers.Apply` | advkit/convnets/vgg.py:32-55 | conv and batch norm accept only a feature map with matching channels; a conv produces its output channel count, batch norm keeps the shape, Linear maps a vector of its input width to its output width, Flatten yields the sample's volume, ReLU and Dropout keep the shape |
| `Layers.Run` | advkit/convnets/vgg.py:57-67 | definition of a sequential container: the layers are applied first to last and the first rejection ends the run; its contract states that a successful run ending in a Linear layer yields a vector of that layer's output width; `RunAppend` and the shape lemmas state the rest |
| `Layers.RunAppend` | advkit/convnets/vgg.py:59-67 | running a concatenation of layer lists is running the first list and feeding its result to the second |
| `VggNet.Stage` | advkit/convnets/vgg.py:44-57 | definition of one stage (the list `MakeLayer` is proved to build); its contract states that it has at least 4 layers, opens with `Conv(in, out, 3, 1, 1, no bias)` and ends with `MaxPool(2)`; `StageIndexed`, `StageLength`, `StagePooling`, `StageChannels`, `StageConvs` and `StageShape` state its properties |
| `VggNet.Features` | advkit/convnets/vgg.py:21-25 | definition of the five stages with the channels 3→64→128→256→512→512; its contract states that it has at least 20 layers, opens with `Conv(3, 64, …)` and ends with a pool; `FeaturesShape`, `ChannelChain` and `FeaturesConvs` state its properties |
| `VggNet.PostConvShape` | advkit/convnets/vgg.py:27 | definition of `post_conv_shape`; its contract states that each entry is the floor of the side divided by 32 (`32*r ≤ side < 32*(r+1)`); `FiveHalvings` and `FeaturesMatchPostConvShape` tie it to the stages |
| `VggNet.IntermediateDimension` | advkit/convnets/vgg.py:29-30 | definition of `intermediate_dimension`; its contract states that it is 512 or 4096, and 512 exactly when `post_h*post_w == 1` |
| `VggNet.Classifier` | advkit/convnets/vgg.py:32-41 | definition of the head as written; its contract states that it has 8 layers, opens with `Flatten`, its first Linear layer yields 4096, and its last is `Linear(mid, n_class)`; `ClassifierWidths`, `ClassifierChainedIff` and `ClassifierShape` state its properties |
| `VggNet.Network` | advkit/convnets/vgg.py:21-41 | definition of all layers in forward order; its contract states its length (the stages plus 8), that its first layer is `Conv(3, 64, …)` and that its last layer is `Linear(mid, n_class)`; `NetworkShape`, `DeclaredInputShape` and `DefaultForwardFails` state its behaviour |
| `VggNet.LookupPreset` | advkit/convnets/vgg.py:5-8 | the lookup succeeds exactly for "vgg16" and "vgg19", and each entry has five sub-block counts, all at least 2 |
| `VggNet.Vgg.Valid` | advkit/convnets/vgg.py:17-41 | definition of the object invariant: the stored configuration has at least five entries, and each field holds the stage or head that the stored arguments describe; its contract states that `layer1` opens with `Conv(3, 64, …)` and that the classifier has 8 layers, ending in `Linear(mid, n_class)`; the constructor establishes it, and `Forward` relies on it |
| `VggNet.Vgg.constructor` | advkit/convnets/vgg.py:10-41 | stores the configuration, input shape and class count; `layer1` to `layer5` are the stages 3→64, 64→128, 128→256, 256→512 and 512→512; the classifier is the head inferred from the declared shape, so all the layers together equal `Network` |
| `VggNet.Vgg.MakeLayer` | advkit/convnets/vgg.py:44-57 | the list the loop builds is exactly `Stage(in, out, n)` |
| `VggNet.Vgg.Forward` | advkit/convnets/vgg.py:59-67 | applying the five stages and then the classifier equals running their concatenation, and for a built object this equals running `Network` of its configuration |
| `VggNet.Vgg.FromDefaultConfig` | advkit/convnets/vgg.py:69-75 | yields a fresh, consistently built network whose configuration is `LookupPreset`'s result exactly when the name is "vgg16" or "vgg19", and None (the lookup failure) otherwise |
| `StageFacts.StageIndexed` | advkit/convnets/vgg.py:44-57 | a stage has `3 * max(n, 1) + 1` layers: position `3j` is a conv (`in→out` for `j = 0`, `out→out` after that), `3j+1` is `BatchNorm(out)`, `3j+2` is `ReLU`, and the last is `MaxPool(2)` |
| `StageFacts.StageLength` | advkit/convnets/vgg.py:44-57 | a stage has `3n + 1` layers for `n ≥ 1`, and 4 layers for `n ≤ 0` |
| `StageFacts.StagePooling` | advkit/convnets/vgg.py:55 | the last layer of a stage is `MaxPool(2)`, and no other layer of the stage pools |
| `StageFacts.StageChannels` | advkit/convnets/vgg.py:46-53 | the first conv maps `in → out`, every later conv maps `out → out`, all are 3x3 with stride 1, padding 1 and no bias, and every batch norm has `out` channels |
| `StageFacts.StageConvs` | advkit/convnets/vgg.py:46-53 | a stage holds `max(n, 1)` convolutions |
| `StageFacts.SubBlockShape` | advkit/convnets/vgg.py:46-48 | a conv/batch-norm/ReLU triple maps `(in, H, W)` to `(out, H, W)` when `H, W ≥ 1`, and rejects every other shape |
| `StageFacts.StageShape` | advkit/convnets/vgg.py:44-57 | a stage maps `(in, H, W)` to `(out, H/2, W/2)` when `H, W ≥ 2`, and rejects every other channel count, vector or smaller side |
| `NetworkFacts.FiveHalvings` | advkit/convnets/vgg.py:27 | five floor halvings equal `// 2**5`, and all five meet a side of at least 2 exactly when the side is at least 32 |
| `NetworkFacts.FeaturesShape` | advkit/convnets/vgg.py:21-25 | the five stages map `(3, H, W)` to `(512, H/32, W/32)` when `H, W ≥ 32`, and reject every other input |
| `NetworkFacts.ChannelChain` | advkit/convnets/vgg.py:21-25 | the first stage takes 3 channels; each later stage takes the channels the previous stage yields; the last stage yields 512 |
| `NetworkFacts.FeaturesMatchPostConvShape` | advkit/convnets/vgg.py:21-27 | on the declared shape, the stages end at `post_conv_shape` with 512 channels, and only when the declared channel count is 3 (the first stage is hard-coded to 3) |
| `NetworkFacts.ClassifierWidths` | advkit/convnets/vgg.py:27-40 | the head has three Linear layers, `(post_h*post_w*512 → 4096)`, `(mid → mid)` and `(mid → n_class)`; the first input is the volume of a `(512, post_h, post_w)` feature map, which is what the stages yield on the declared shape by `FeaturesMatchPostConvShape`; `mid` is 512 exactly when `post_h*post_w == 1`, and 4096 otherwise |
| `NetworkFacts.ClassifierChainedIff` | advkit/convnets/vgg.py:29-40 | each Linear layer's input equals the previous Linear layer's output exactly when `post_h*post_w != 1` |
| `NetworkFacts.ClassifierShape` | advkit/convnets/vgg.py:32-41 | the head maps a sample of volume `post_h*post_w*512` to `n_class` scores when `post_h*post_w != 1`, and rejects it at the second Linear layer otherwise |
| `NetworkFacts.NetworkShape` | advkit/convnets/vgg.py:21-41 | the whole network yields `n_class` scores exactly when the sample has 3 channels, sides of at least 32, a feature-map area equal to the declared one, and that area is not 1 |
| `NetworkFacts.DeclaredInputShape` | advkit/convnets/vgg.py:21-41 | on its declared shape, the network succeeds exactly when that shape has 3 channels, sides of at least 32, and `post_h*post_w != 1` |
| `NetworkFacts.DefaultForwardFails` | advkit/convnets/vgg.py:13-40 | with the default shape (3, 32, 32) and 10 classes, the Linear chain is inconsistent and the forward pass fails, for every stage configuration of at least five entries |
| `NetworkFacts.Input64Forward` | advkit/convnets/vgg.py:27-40 | with shape (3, 64, 64), `mid` is 4096 and the forward pass yields 10 scores |
| `NetworkFacts.FeaturesConvs` | advkit/convnets/vgg.py:21-25 | the five stages hold `max(c[0],1) + … + max(c[4],1)` convolutions |
| `NetworkFacts.PresetDepths` | advkit/convnets/vgg.py:5-8 | "vgg16" is `[2,2,3,3,3]` with 13 convolutions; "vgg19" is `[2,2,4,4,4]` with 16; both heads have 3 Linear layers |
| `HeadFinding.IntendedClassifier` | advkit/convnets/vgg.py:32-41 | definition of the corrected head; its contract states that its three Linear layers chain (each input equals the previous output), that the first takes the flattened `(512, post_h, post_w)` volume, and that the last yields `n_class`; `IntendedClassifierShape` states its behaviour |
| `HeadFinding.HeadsAgreeIff` | advkit/convnets/vgg.py:34-37 | the head as written equals the corrected head exactly when `post_h*post_w != 1` |
| `HeadFinding.IntendedClassifierShape` | advkit/convnets/vgg.py:32-41 | the corrected head maps every sample of volume `post_h*post_w*512` to `n_class` scores and rejects every other sample |
| `HeadFinding.IntendedNetworkShape` | advkit/convnets/vgg.py:21-41 | with the corrected head, the network succeeds exactly when the sample has 3 channels, sides of at least 32, and the declared feature-map area |
| `HeadFinding.IntendedDeclaredInputShape` | advkit/convnets/vgg.py:21-41 | with the corrected head, the network succeeds on its declared shape exactly when that shape has 3 channels and sides of at least 32, and this includes (3, 32, 32) |

## Left out

- Tensor numerics of `forward` (advkit/convnets/vgg.py:59-67) are not modelled: convolution, batch-norm statistics, rectification and random dropout. Only shapes and layer composition are modelled. The batch dimension is left implicit.
- The dropout probability 0.5 is recorded exactly as `Dropout(50)` (a percentage). It plays no part in any shape rule.
- The module and parameter machinery of the tensor library is not modelled (parameter storage, `inplace`, devices). It is foreign library code.
- The `__main__` script (advkit/convnets/vgg.py:78-126) is not modelled: paths, device choice, data loaders, seeding, optimiser, scheduler, training and evaluation loop, checkpoint loading. It is I/O and library-driven optimisation.
- The length of `conv_layers_config` is not checked by the source, which simply indexes entries 0 to 4. A list shorter than five raises an index error; the model makes `|config| >= 5` a precondition instead of modelling that error. A longer list is accepted, and its entries after the fifth are ignored, as in the source. Entry values below 1 are modelled: the stage then keeps its single unconditional sub-block.
- A dictionary miss in `from_default_config` raises `KeyError` in Python. The model returns `None` instead.
- The input shape and class count are natural numbers. Negative sizes, and tuples of the wrong length, are not modelled.
- Layer arguments that the builder never sets are fixed at their library defaults: dilation 1, groups 1, and for pooling a stride equal to the kernel, no padding and floor mode. `Flatten` on a flat vector is the identity. A `Linear` layer applied to an unflattened feature map is rejected; the library would instead act on the last axis, but the builder never produces that arrangement.
- `Vgg.Forward` states the result of the forward pass on shapes, not on values.

## Findings

| source | as written | input that shows it | evidently intended | confidence | as-written member | corrected member |
|---|---|---|---|---|---|---|
| advkit/convnets/vgg.py:34 | the first Linear layer always yields 4096 features, but when `post_h*post_w == 1` the next Linear layer (line 37) takes `intermediate_dimension = 512` | the default `input_shape = (3, 32, 32)` with any stage configuration: the stages yield 512 features, the first Linear yields 4096, and `Linear(512, 512)` rejects them | the first Linear layer yields `intermediate_dimension`, so the head is `flat → mid → mid → n_class` | likely; not executed | `NetworkFacts.DefaultForwardFails` | `HeadFinding.IntendedDeclaredInputShape` |

The class `Vgg` and the function `VggNet.Classifier` keep the head as the
source writes it, because they model the code as it is. The corrected head is
`HeadFinding.IntendedClassifier`, and its properties are proved in
`HeadFinding`. `HeadFinding.HeadsAgreeIff` shows that the two heads differ only
in the 1x1 case.
