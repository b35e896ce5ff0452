/**
 The pruned SRNet built twice, by the loops of the analysis worker and layer by layer for
 training, and the pruned XuNet. A graph is the list of variables created, with the
 spatial size and channels of each tensor.
*/
module Networks {
  import opened Common
  import Decimal
  import Greedy

  datatype Tensor = Tensor(height: nat, width: nat, channels: int)
  datatype Variable = Variable(name: string, shape: seq<int>)

  /**
   The graph under construction: its variables, whether every addition so far had operands
   of one shape, and the open scope with the numbers of convolutions and norms in it.
  */
  datatype Graph = Graph(variables: seq<Variable>, aligned: bool, scope: string, convs: nat, norms: nat)

  // --- SRNet ----------------------------------------------------------------------------

  /** The second and later ops of one kind in a scope get a suffix. */
  function OpName(scope: string, op: string, earlier: nat): string
  {
    scope + "/" + op + if earlier == 0 then "" else "_" + Decimal.Print(earlier)
  }

  function InScope(g: Graph, scope: string): Graph
  {
    g.(scope := scope, convs := 0, norms := 0)
  }

  /** SAME padding: a stride of s leaves ceil(n / s) positions. */
  function Strided(n: nat, stride: nat): nat
    requires stride > 0
  {
    (n + stride - 1) / stride
  }

  function Conv(g: Graph, input: Tensor, outputs: int, kernel: nat): Graph
  {
    var name := OpName(g.scope, "Conv", g.convs);
    g.(variables := g.variables + [Variable(name + "/weights", [kernel, kernel, input.channels, outputs]),
                                   Variable(name + "/biases", [outputs])],
       convs := g.convs + 1)
  }

  function ConvOut(input: Tensor, outputs: int, stride: nat): Tensor
    requires stride > 0
  {
    Tensor(Strided(input.height, stride), Strided(input.width, stride), outputs)
  }

  function Norm(g: Graph, input: Tensor): Graph
  {
    var name := OpName(g.scope, "BatchNorm", g.norms);
    g.(variables := g.variables + [Variable(name + "/beta", [input.channels]),
                                   Variable(name + "/gamma", [input.channels]),
                                   Variable(name + "/moving_mean", [input.channels]),
                                   Variable(name + "/moving_variance", [input.channels])],
       norms := g.norms + 1)
  }

  function Pool(input: Tensor): Tensor
  {
    Tensor(Strided(input.height, 2), Strided(input.width, 2), input.channels)
  }

  function Add(g: Graph, a: Tensor, b: Tensor): Graph
  {
    g.(aligned := g.aligned && a == b)
  }

  /** One layer of the training graph: the graph after it and its output. */
  function PlainLayer(g: Graph, scope: string, input: Tensor, outputs: int): (Graph, Tensor)
  {
    var g := InScope(g, scope);
    var conv := ConvOut(input, outputs, 1);
    (Norm(Conv(g, input, outputs, 3), conv), conv)
  }

  function ResidualLayer(g: Graph, scope: string, input: Tensor, inner: int): (Graph, Tensor)
  {
    var g := InScope(g, scope);
    var conv1 := ConvOut(input, inner, 1);
    var conv2 := ConvOut(conv1, 16, 1);
    (Add(Norm(Conv(Norm(Conv(g, input, inner, 3), conv1), conv1, 16, 3), conv2), input, conv2), input)
  }

  function DownscaleLayer(g: Graph, scope: string, input: Tensor, inner: int, outputs: int): (Graph, Tensor)
  {
    var g := InScope(g, scope);
    var shortcut := ConvOut(input, outputs, 2);
    var conv1 := ConvOut(input, inner, 1);
    var conv2 := ConvOut(conv1, outputs, 1);
    var g1 := Norm(Conv(g, input, outputs, 1), shortcut);
    var g2 := Norm(Conv(Norm(Conv(g1, input, inner, 3), conv1), conv1, outputs, 3), conv2);
    (Add(g2, shortcut, Pool(conv2)), shortcut)
  }

  function LastLayer(g: Graph, scope: string, input: Tensor, inner: int, outputs: int): (Graph, Tensor)
  {
    var g := InScope(g, scope);
    var conv1 := ConvOut(input, inner, 1);
    var conv2 := ConvOut(conv1, outputs, 1);
    (Norm(Conv(Norm(Conv(g, input, inner, 3), conv1), conv1, outputs, 3), conv2), Tensor(1, 1, outputs))
  }

  /** The two-class head on the flattened averages. */
  function Head(g: Graph, input: Tensor): Graph
  {
    g.(variables := g.variables + [Variable("ip/weights", [input.height * input.width * input.channels, 2]),
      Variable("ip/biases", [2])])
  }

  function Start(): Graph
  {
    Graph([], true, "", 0, 0)
  }

  /** The channel counts of a network with given inner and outer widths, layers 3 to 12. */
  datatype Widths = Widths(
    l3: int, l4: int, l5: int, l6: int, l7: int,
    inner8: int, inner9: int, inner10: int, inner11: int, inner12: int,
    outer8: int, outer9: int, outer10: int, outer11: int, outer12: int)

  const FULL := Widths(16, 16, 16, 16, 16, 16, 64, 128, 256, 512, 16, 64, 128, 256, 512)

  /** Fractions kept: thinet[i] of layer i + 3, l1[j] of layer j + 8. */
  function PrunedWidths(thinet: seq<real>, l1: seq<real>): Widths
    requires |thinet| == 10 && |l1| == 5
  {
    Widths(Truncate(16.0 * thinet[0]), Truncate(16.0 * thinet[1]), Truncate(16.0 * thinet[2]),
           Truncate(16.0 * thinet[3]), Truncate(16.0 * thinet[4]),
           Truncate(16.0 * thinet[5]), Truncate(64.0 * thinet[6]), Truncate(128.0 * thinet[7]),
           Truncate(256.0 * thinet[8]), Truncate(512.0 * thinet[9]),
           Truncate(16.0 * l1[0]), Truncate(64.0 * l1[1]), Truncate(128.0 * l1[2]),
           Truncate(256.0 * l1[3]), Truncate(512.0 * l1[4]))
  }

  function FirstLayers(input: Tensor): (Graph, Tensor)
  {
    var (g1, actv1) := PlainLayer(Start(), "Layer1", input, 64);
    PlainLayer(g1, "Layer2", actv1, 16)
  }

  function MiddleLayers(g: Graph, input: Tensor, w: Widths): (Graph, Tensor)
  {
    var (g3, res3) := ResidualLayer(g, "Layer3", input, w.l3);
    var (g4, res4) := ResidualLayer(g3, "Layer4", res3, w.l4);
    var (g5, res5) := ResidualLayer(g4, "Layer5", res4, w.l5);
    var (g6, res6) := ResidualLayer(g5, "Layer6", res5, w.l6);
    ResidualLayer(g6, "Layer7", res6, w.l7)
  }

  function DownLayers(g: Graph, input: Tensor, w: Widths): (Graph, Tensor)
  {
    var (g8, res8) := DownscaleLayer(g, "Layer8", input, w.inner8, w.outer8);
    var (g9, res9) := DownscaleLayer(g8, "Layer9", res8, w.inner9, w.outer9);
    var (g10, res10) := DownscaleLayer(g9, "Layer10", res9, w.inner10, w.outer10);
    DownscaleLayer(g10, "Layer11", res10, w.inner11, w.outer11)
  }

  /** The graph of the training script, or of the unpruned model with its full widths. */
  function TrainingGraph(height: nat, width: nat, w: Widths): Graph
  {
    var (g2, actv) := FirstLayers(Tensor(height, width, 1));
    var (g7, res7) := MiddleLayers(g2, actv, w);
    var (g11, res11) := DownLayers(g7, res7, w);
    var (g12, avgp) := LastLayer(g11, "Layer12", res11, w.inner12, w.outer12);
    Head(g12, avgp)
  }

  /** `'Layer' + str(layer_idx)` */
  function LayerName(layer: nat): string
  {
    "Layer" + Decimal.Print(layer)
  }

  /** Layers 3 to 3 + m - 1, as the worker's loop numbers them. */
  function ResidualsTo(g: Graph, input: Tensor, thinet: seq<real>, m: nat): (Graph, Tensor)
    requires m <= 5 && |thinet| == 10
  {
    if m == 0 then (g, input)
    else
      var (before, prev) := ResidualsTo(g, input, thinet, m - 1);
      ResidualLayer(before, LayerName(m + 2), prev, Truncate(16.0 * thinet[m - 1]))
  }

  function BaseOut(layer: nat): (base: nat)
    requires 8 <= layer <= 11
  {
    match layer
    case 8 => 16
    case 9 => 64
    case 10 => 128
    case 11 => 256
  }

  /** Layers 8 to 8 + m - 1. */
  function DownscalesTo(g: Graph, input: Tensor, thinet: seq<real>, l1: seq<real>, m: nat): (Graph, Tensor)
    requires m <= 4 && |thinet| == 10 && |l1| == 5
  {
    if m == 0 then (g, input)
    else
      var (before, prev) := DownscalesTo(g, input, thinet, l1, m - 1);
      var base := BaseOut(m + 7) as real;
      DownscaleLayer(before, LayerName(m + 7), prev, Truncate(base * thinet[m + 4]), Truncate(base * l1[m - 1]))
  }

  lemma LayerNames()
    ensures LayerName(3) == "Layer3" && LayerName(4) == "Layer4" && LayerName(5) == "Layer5" && LayerName(6) == "Layer6"
    ensures LayerName(7) == "Layer7" && LayerName(8) == "Layer8" && LayerName(9) == "Layer9"
    ensures LayerName(10) == "Layer10" && LayerName(11) == "Layer11"
  {
    assert Decimal.Print(10) == Decimal.PrintNat(1) + ['0'] && Decimal.PrintNat(1) == ['1'];
    assert Decimal.Print(11) == Decimal.PrintNat(1) + ['1'];
  }

  lemma MiddleUnrolls(g: Graph, input: Tensor, thinet: seq<real>, l1: seq<real>)
    requires |thinet| == 10 && |l1| == 5
    ensures ResidualsTo(g, input, thinet, 5) == MiddleLayers(g, input, PrunedWidths(thinet, l1))
  {
    hide ResidualLayer, Truncate, LayerName;
    LayerNames();
    var w := PrunedWidths(thinet, l1);
    var r1 := ResidualLayer(g, "Layer3", input, w.l3);
    assert ResidualsTo(g, input, thinet, 0) == (g, input);
    assert ResidualsTo(g, input, thinet, 1) == r1;
    var r2 := ResidualLayer(r1.0, "Layer4", r1.1, w.l4);
    assert ResidualsTo(g, input, thinet, 2) == r2;
    var r3 := ResidualLayer(r2.0, "Layer5", r2.1, w.l5);
    assert ResidualsTo(g, input, thinet, 3) == r3;
    var r4 := ResidualLayer(r3.0, "Layer6", r3.1, w.l6);
    assert ResidualsTo(g, input, thinet, 4) == r4;
  }

  lemma DownUnrolls(g: Graph, input: Tensor, thinet: seq<real>, l1: seq<real>)
    requires |thinet| == 10 && |l1| == 5
    ensures DownscalesTo(g, input, thinet, l1, 4) == DownLayers(g, input, PrunedWidths(thinet, l1))
  {
    hide DownscaleLayer, Truncate, LayerName;
    LayerNames();
    var w := PrunedWidths(thinet, l1);
    assert DownscalesTo(g, input, thinet, l1, 0) == (g, input);
    var r1 := DownscaleLayer(g, "Layer8", input, w.inner8, w.outer8);
    assert DownscalesTo(g, input, thinet, l1, 1) == r1;
    var r2 := DownscaleLayer(r1.0, "Layer9", r1.1, w.inner9, w.outer9);
    assert DownscalesTo(g, input, thinet, l1, 2) == r2;
    var r3 := DownscaleLayer(r2.0, "Layer10", r2.1, w.inner10, w.outer10);
    assert DownscalesTo(g, input, thinet, l1, 3) == r3;
  }

  method BuildResiduals(start: Graph, input: Tensor, thinet: seq<real>) returns (g: Graph, prev: Tensor)
    requires |thinet| == 10
    ensures (g, prev) == ResidualsTo(start, input, thinet, 5)
  {
    hide Conv, Norm, Truncate, ConvOut, LayerName;
    g, prev := start, input;
    for i := 0 to 5
      invariant (g, prev) == ResidualsTo(start, input, thinet, i)
    {
      g := InScope(g, LayerName(i + 3));
      var n := Truncate(16.0 * thinet[i]);
      var c1 := ConvOut(prev, n, 1);
      g := Norm(Conv(g, prev, n, 3), c1);
      var c2 := ConvOut(c1, 16, 1);
      g := Norm(Conv(g, c1, 16, 3), c2);
      g := Add(g, prev, c2);
    }
  }

  method BuildDownscales(start: Graph, input: Tensor, thinet: seq<real>, l1: seq<real>) returns (g: Graph, prev: Tensor)
    requires |thinet| == 10 && |l1| == 5
    ensures (g, prev) == DownscalesTo(start, input, thinet, l1, 4)
  {
    hide Conv, Norm, Truncate, ConvOut, Pool, LayerName;
    g, prev := start, input;
    for j := 0 to 4
      invariant (g, prev) == DownscalesTo(start, input, thinet, l1, j)
    {
      var layer := j + 8;
      var outCh := Truncate(BaseOut(layer) as real * l1[j]);
      var thCh := Truncate(BaseOut(layer) as real * thinet[layer - 3]);
      g := InScope(g, LayerName(layer));
      var convs := ConvOut(prev, outCh, 2);
      g := Norm(Conv(g, prev, outCh, 1), convs);
      var c1 := ConvOut(prev, thCh, 1);
      g := Norm(Conv(g, prev, thCh, 3), c1);
      var c2 := ConvOut(c1, outCh, 1);
      g := Norm(Conv(g, c1, outCh, 3), c2);
      g := Add(g, convs, Pool(c2));
      prev := convs;
    }
  }

  /** The worker's loops build the training graph: same variable names and shapes, same additions. */
  method BuildPrunedSrnet(height: nat, width: nat, thinet: seq<real>, l1: seq<real>) returns (g: Graph)
    requires |thinet| == 10 && |l1| == 5
    ensures g == TrainingGraph(height, width, PrunedWidths(thinet, l1))
  {
    hide Conv, Norm, Truncate, ConvOut, MiddleLayers, DownLayers, ResidualsTo, DownscalesTo;
    g := Start();
    var prev := Tensor(height, width, 1);
    g := InScope(g, "Layer1");
    var conv := ConvOut(prev, 64, 1);
    g := Norm(Conv(g, prev, 64, 3), conv);
    prev := conv;
    g := InScope(g, "Layer2");
    conv := ConvOut(prev, 16, 1);
    g := Norm(Conv(g, prev, 16, 3), conv);
    prev := conv;
    MiddleUnrolls(g, prev, thinet, l1);
    g, prev := BuildResiduals(g, prev, thinet);
    DownUnrolls(g, prev, thinet, l1);
    g, prev := BuildDownscales(g, prev, thinet, l1);
    g := InScope(g, "Layer12");
    var th12, out12 := Truncate(512.0 * thinet[9]), Truncate(512.0 * l1[4]);
    var c1 := ConvOut(prev, th12, 1);
    g := Norm(Conv(g, prev, th12, 3), c1);
    var c2 := ConvOut(c1, out12, 1);
    g := Norm(Conv(g, c1, out12, 3), c2);
    g := Head(g, Tensor(1, 1, out12));
  }

  /** Every addition has operands of one shape, whatever the rates and the image size. */
  lemma AdditionsAlign(height: nat, width: nat, w: Widths)
    ensures TrainingGraph(height, width, w).aligned
  {
    hide OpName;
    var (g2, actv) := FirstLayers(Tensor(height, width, 1));
    assert g2.aligned && actv.channels == 16;
    assert actv == Tensor(height, width, 16);
    MiddleAligns(g2, actv, w);
    var (g7, res7) := MiddleLayers(g2, actv, w);
    DownAligns(g7, res7, w);
  }

  lemma SizeStays(input: Tensor, inner: int, outputs: int)
    ensures ConvOut(ConvOut(input, inner, 1), outputs, 1) == Tensor(input.height, input.width, outputs)
    ensures ConvOut(input, outputs, 1) == Tensor(input.height, input.width, outputs)
  {
  }

  /** The image keeps its size up to layer 7, and is halved, rounding up, by each of layers 8 to 11. */
  lemma OutputSizes(height: nat, width: nat, g: Graph, w: Widths)
    ensures FirstLayers(Tensor(height, width, 1)).1 == Tensor(height, width, 16)
    ensures MiddleLayers(g, Tensor(height, width, 16), w).1 == Tensor(height, width, 16)
    ensures DownLayers(g, Tensor(height, width, 16), w).1 ==
              Tensor((height + 15) / 16, (width + 15) / 16, w.outer11)
  {
    hide Conv, Norm, Strided;
    SizeStays(Tensor(height, width, 1), 64, 16);
    HalvedFourTimes(height);
    HalvedFourTimes(width);
  }

  lemma HalvedFourTimes(n: nat)
    ensures Strided(Strided(Strided(Strided(n, 2), 2), 2), 2) == (n + 15) / 16
  {
  }

  /** A residual layer aligns if and only if its input has the 16 channels of its second convolution. */
  lemma ResidualAligns(g: Graph, scope: string, input: Tensor, inner: int)
    ensures var (g', out) := ResidualLayer(g, scope, input, inner);
            out == input && (g'.aligned <==> g.aligned && input.channels == 16)
  {
    hide OpName;
  }

  lemma DownscaleAligns(g: Graph, scope: string, input: Tensor, inner: int, outputs: int)
    requires g.aligned
    ensures DownscaleLayer(g, scope, input, inner, outputs).0.aligned
  {
  }

  lemma MiddleAligns(g: Graph, input: Tensor, w: Widths)
    requires g.aligned && input.channels == 16
    ensures MiddleLayers(g, input, w).0.aligned
  {
    hide ResidualLayer;
    ResidualAligns(g, "Layer3", input, w.l3);
    var (g3, res3) := ResidualLayer(g, "Layer3", input, w.l3);
    ResidualAligns(g3, "Layer4", res3, w.l4);
    var (g4, res4) := ResidualLayer(g3, "Layer4", res3, w.l4);
    ResidualAligns(g4, "Layer5", res4, w.l5);
    var (g5, res5) := ResidualLayer(g4, "Layer5", res4, w.l5);
    ResidualAligns(g5, "Layer6", res5, w.l6);
    var (g6, res6) := ResidualLayer(g5, "Layer6", res5, w.l6);
    ResidualAligns(g6, "Layer7", res6, w.l7);
  }

  lemma DownAligns(g: Graph, input: Tensor, w: Widths)
    requires g.aligned
    ensures DownLayers(g, input, w).0.aligned
  {
    hide DownscaleLayer;
    DownscaleAligns(g, "Layer8", input, w.inner8, w.outer8);
    var (g8, res8) := DownscaleLayer(g, "Layer8", input, w.inner8, w.outer8);
    DownscaleAligns(g8, "Layer9", res8, w.inner9, w.outer9);
    var (g9, res9) := DownscaleLayer(g8, "Layer9", res8, w.inner9, w.outer9);
    DownscaleAligns(g9, "Layer10", res9, w.inner10, w.outer10);
    var (g10, res10) := DownscaleLayer(g9, "Layer10", res9, w.inner10, w.outer10);
    DownscaleAligns(g10, "Layer11", res10, w.inner11, w.outer11);
  }

  // --- Zero rates ------------------------------------------------------------------------

  /** The variables of a layer follow those already there, and a bias vector tells each width. */
  ghost predicate Extends(before: seq<Variable>, after: seq<Variable>, more: nat)
  {
    |after| == |before| + more && after[..|before|] == before
  }

  lemma ResidualVariables(g: Graph, scope: string, input: Tensor, inner: int)
    ensures var after := ResidualLayer(g, scope, input, inner).0.variables;
            Extends(g.variables, after, 12) && after[|g.variables| + 1].shape == [inner]
  {
    hide OpName, ConvOut;
  }

  lemma DownscaleVariables(g: Graph, scope: string, input: Tensor, inner: int, outputs: int)
    ensures var after := DownscaleLayer(g, scope, input, inner, outputs).0.variables;
            && Extends(g.variables, after, 18)
            && after[|g.variables| + 1].shape == [outputs] && after[|g.variables| + 7].shape == [inner]
  {
    hide OpName, ConvOut, Pool;
  }

  lemma LastVariables(g: Graph, scope: string, input: Tensor, inner: int, outputs: int)
    ensures var (g', out) := LastLayer(g, scope, input, inner, outputs);
            var after := Head(g', out).variables;
            && Extends(g.variables, after, 14)
            && after[|g.variables| + 1].shape == [inner] && after[|g.variables| + 7].shape == [outputs]
  {
    hide OpName, ConvOut;
  }

  /** The shapes of a graph determine its widths. */
  lemma MiddleShapes(g: Graph, input: Tensor, w: Widths)
    ensures var v, n := MiddleLayers(g, input, w).0.variables, |g.variables|;
            && Extends(g.variables, v, 60)
            && v[n + 1].shape == [w.l3] && v[n + 13].shape == [w.l4] && v[n + 25].shape == [w.l5]
            && v[n + 37].shape == [w.l6] && v[n + 49].shape == [w.l7]
  {
    hide ResidualLayer;
    ResidualVariables(g, "Layer3", input, w.l3);
    var (g3, res3) := ResidualLayer(g, "Layer3", input, w.l3);
    ResidualVariables(g3, "Layer4", res3, w.l4);
    var (g4, res4) := ResidualLayer(g3, "Layer4", res3, w.l4);
    ResidualVariables(g4, "Layer5", res4, w.l5);
    var (g5, res5) := ResidualLayer(g4, "Layer5", res4, w.l5);
    ResidualVariables(g5, "Layer6", res5, w.l6);
    var (g6, res6) := ResidualLayer(g5, "Layer6", res5, w.l6);
    ResidualVariables(g6, "Layer7", res6, w.l7);
  }

  lemma DownShapes(g: Graph, input: Tensor, w: Widths)
    ensures var v, n := DownLayers(g, input, w).0.variables, |g.variables|;
            && Extends(g.variables, v, 72)
            && v[n + 1].shape == [w.outer8] && v[n + 7].shape == [w.inner8]
            && v[n + 19].shape == [w.outer9] && v[n + 25].shape == [w.inner9]
            && v[n + 37].shape == [w.outer10] && v[n + 43].shape == [w.inner10]
            && v[n + 55].shape == [w.outer11] && v[n + 61].shape == [w.inner11]
  {
    hide DownscaleLayer;
    DownscaleVariables(g, "Layer8", input, w.inner8, w.outer8);
    var (g8, res8) := DownscaleLayer(g, "Layer8", input, w.inner8, w.outer8);
    DownscaleVariables(g8, "Layer9", res8, w.inner9, w.outer9);
    var (g9, res9) := DownscaleLayer(g8, "Layer9", res8, w.inner9, w.outer9);
    DownscaleVariables(g9, "Layer10", res9, w.inner10, w.outer10);
    var (g10, res10) := DownscaleLayer(g9, "Layer10", res9, w.inner10, w.outer10);
    DownscaleVariables(g10, "Layer11", res10, w.inner11, w.outer11);
  }

  lemma ShapesTellWidths(height: nat, width: nat, v: Widths, w: Widths)
    requires TrainingGraph(height, width, v).variables == TrainingGraph(height, width, w).variables
    ensures v == w
  {
    hide FirstLayers, MiddleLayers, DownLayers, LastLayer, Head;
    var (g2, actv) := FirstLayers(Tensor(height, width, 1));
    MiddleShapes(g2, actv, v);
    MiddleShapes(g2, actv, w);
    var (g7, res7) := MiddleLayers(g2, actv, v);
    var (h7, out7) := MiddleLayers(g2, actv, w);
    DownShapes(g7, res7, v);
    DownShapes(h7, out7, w);
    var (g11, res11) := DownLayers(g7, res7, v);
    var (h11, out11) := DownLayers(h7, out7, w);
    LastVariables(g11, "Layer12", res11, v.inner12, v.outer12);
    LastVariables(h11, "Layer12", out11, w.inner12, w.outer12);
    SamePrefixes(g2.variables, g7.variables, g11.variables, h7.variables, h11.variables,
                 TrainingGraph(height, width, v).variables);
  }

  lemma SamePrefixes(a: seq<Variable>, b: seq<Variable>, c: seq<Variable>, b': seq<Variable>, c': seq<Variable>,
                     all: seq<Variable>)
    requires Extends(a, b, 60) && Extends(a, b', 60) && Extends(b, c, 72) && Extends(b', c', 72)
    requires Extends(c, all, 14) && Extends(c', all, 14)
    ensures b == b' && c == c'
  {
    assert c == all[..|c|] == c';
    assert b == c[..|b|] == b';
  }

  /** The rates of the configuration are fractions removed; a layer keeps all channels iff its rate is zero. */
  lemma KeepsAllIff(base: nat, rate: real)
    requires base > 0 && 0.0 <= rate <= 1.0
    ensures Truncate(base as real * (1.0 - rate)) == base <==> rate == 0.0
  {
    if rate > 0.0 {
      assert base as real * rate > 0.0;
      assert base as real * (1.0 - rate) == base as real - base as real * rate;
    }
  }

  /** `1 - rate` for every rate read from the configuration. */
  function Kept(rates: seq<real>): (kept: seq<real>)
    ensures |kept| == |rates| && forall i :: 0 <= i < |rates| ==> kept[i] == 1.0 - rates[i]
  {
    seq(|rates|, i requires 0 <= i < |rates| => 1.0 - rates[i])
  }

  predicate AreRates(rates: seq<real>)
  {
    forall i :: 0 <= i < |rates| ==> 0.0 <= rates[i] <= 1.0
  }

  predicate AllZero(rates: seq<real>)
  {
    forall i :: 0 <= i < |rates| ==> rates[i] == 0.0
  }

  /** The pruned network is the unpruned one if and only if every rate is zero. */
  lemma UnprunedIffZeroRates(height: nat, width: nat, thinet: seq<real>, l1: seq<real>)
    requires |thinet| == 10 && |l1| == 5 && AreRates(thinet) && AreRates(l1)
    ensures TrainingGraph(height, width, PrunedWidths(Kept(thinet), Kept(l1))) == TrainingGraph(height, width, FULL)
            <==> AllZero(thinet) && AllZero(l1)
  {
    hide TrainingGraph;
    var w := PrunedWidths(Kept(thinet), Kept(l1));
    WidthsFullIff(thinet, l1);
    if TrainingGraph(height, width, w) == TrainingGraph(height, width, FULL) {
      ShapesTellWidths(height, width, w, FULL);
    }
  }

  lemma WidthsFullIff(thinet: seq<real>, l1: seq<real>)
    requires |thinet| == 10 && |l1| == 5 && AreRates(thinet) && AreRates(l1)
    ensures PrunedWidths(Kept(thinet), Kept(l1)) == FULL <==> AllZero(thinet) && AllZero(l1)
  {
    hide Truncate;
    forall i | 0 <= i < 6 ensures Truncate(16.0 * Kept(thinet)[i]) == 16 <==> thinet[i] == 0.0 {
      KeepsAllIff(16, thinet[i]);
    }
    KeepsAllIff(64, thinet[6]);
    KeepsAllIff(128, thinet[7]);
    KeepsAllIff(256, thinet[8]);
    KeepsAllIff(512, thinet[9]);
    KeepsAllIff(16, l1[0]);
    KeepsAllIff(64, l1[1]);
    KeepsAllIff(128, l1[2]);
    KeepsAllIff(256, l1[3]);
    KeepsAllIff(512, l1[4]);
    assert AllZero(thinet) <==>
      (thinet[0] == 0.0 && thinet[1] == 0.0 && thinet[2] == 0.0 && thinet[3] == 0.0 && thinet[4] == 0.0 &&
       thinet[5] == 0.0 && thinet[6] == 0.0 && thinet[7] == 0.0 && thinet[8] == 0.0 && thinet[9] == 0.0);
    assert AllZero(l1) <==> (l1[0] == 0.0 && l1[1] == 0.0 && l1[2] == 0.0 && l1[3] == 0.0 && l1[4] == 0.0);
  }

  // --- The recorded rates ------------------------------------------------------------------

  /** A rate of r twentieths leaves as many channels in the graph as the trial at that rate kept. */
  lemma WidthIsKeptLength(n: nat, r: nat)
    requires r <= 20
    ensures Truncate(n as real * (1.0 - r as real / 20.0)) == Greedy.KeptLength(n, r)
  {
    var a := (20 - r) * n;
    var v := n as real * (1.0 - r as real / 20.0);
    assert 20.0 * v == (20 - r) as real * n as real == a as real;
    assert 20 * (a / 20) <= a < 20 * (a / 20) + 20;
  }

  function Twentieths(rates: seq<nat>): (r: seq<real>)
    ensures |r| == |rates|
  {
    seq(|rates|, i requires 0 <= i < |rates| => rates[i] as real / 20.0)
  }

  /** The lengths of the lists kept in the trials the rates were recorded from. */
  function TrialWidths(thinet: seq<nat>, l1: seq<nat>): Widths
    requires |thinet| == 10 && |l1| == 5
    requires forall i :: 0 <= i < 10 ==> thinet[i] <= 20
    requires forall j :: 0 <= j < 5 ==> l1[j] <= 20
  {
    Widths(Greedy.KeptLength(16, thinet[0]), Greedy.KeptLength(16, thinet[1]), Greedy.KeptLength(16, thinet[2]),
           Greedy.KeptLength(16, thinet[3]), Greedy.KeptLength(16, thinet[4]),
           Greedy.KeptLength(16, thinet[5]), Greedy.KeptLength(64, thinet[6]), Greedy.KeptLength(128, thinet[7]),
           Greedy.KeptLength(256, thinet[8]), Greedy.KeptLength(512, thinet[9]),
           Greedy.KeptLength(16, l1[0]), Greedy.KeptLength(64, l1[1]), Greedy.KeptLength(128, l1[2]),
           Greedy.KeptLength(256, l1[3]), Greedy.KeptLength(512, l1[4]))
  }

  /** The worker's graph, built from recorded rates, has exactly the channels their trials kept. */
  method BuildFromTrials(height: nat, width: nat, thinet: seq<nat>, l1: seq<nat>) returns (g: Graph)
    requires |thinet| == 10 && |l1| == 5
    requires forall i :: 0 <= i < 10 ==> thinet[i] <= 20
    requires forall j :: 0 <= j < 5 ==> l1[j] <= 20
    ensures g == TrainingGraph(height, width, TrialWidths(thinet, l1))
  {
    hide TrainingGraph, Truncate;
    TrialWidthsAreGraphWidths(thinet, l1);
    g := BuildPrunedSrnet(height, width, Kept(Twentieths(thinet)), Kept(Twentieths(l1)));
  }

  lemma TrialWidthsAreGraphWidths(thinet: seq<nat>, l1: seq<nat>)
    requires |thinet| == 10 && |l1| == 5
    requires forall i :: 0 <= i < 10 ==> thinet[i] <= 20
    requires forall j :: 0 <= j < 5 ==> l1[j] <= 20
    ensures PrunedWidths(Kept(Twentieths(thinet)), Kept(Twentieths(l1))) == TrialWidths(thinet, l1)
  {
    hide PrunedWidths, TrialWidths;
    MiddleTrialWidths(thinet, l1);
    InnerTrialWidths(thinet, l1);
    OuterTrialWidths(thinet, l1);
  }

  lemma MiddleTrialWidths(thinet: seq<nat>, l1: seq<nat>)
    requires |thinet| == 10 && |l1| == 5
    requires forall i :: 0 <= i < 10 ==> thinet[i] <= 20
    requires forall j :: 0 <= j < 5 ==> l1[j] <= 20
    ensures var w, t := PrunedWidths(Kept(Twentieths(thinet)), Kept(Twentieths(l1))), TrialWidths(thinet, l1);
            w.l3 == t.l3 && w.l4 == t.l4 && w.l5 == t.l5 && w.l6 == t.l6 && w.l7 == t.l7
  {
    hide Truncate, Greedy.KeptLength, Kept, Twentieths;
    WidthOfTrial(16, 16.0, thinet, 0);
    WidthOfTrial(16, 16.0, thinet, 1);
    WidthOfTrial(16, 16.0, thinet, 2);
    WidthOfTrial(16, 16.0, thinet, 3);
    WidthOfTrial(16, 16.0, thinet, 4);
  }

  lemma InnerTrialWidths(thinet: seq<nat>, l1: seq<nat>)
    requires |thinet| == 10 && |l1| == 5
    requires forall i :: 0 <= i < 10 ==> thinet[i] <= 20
    requires forall j :: 0 <= j < 5 ==> l1[j] <= 20
    ensures var w, t := PrunedWidths(Kept(Twentieths(thinet)), Kept(Twentieths(l1))), TrialWidths(thinet, l1);
            && w.inner8 == t.inner8 && w.inner9 == t.inner9 && w.inner10 == t.inner10
            && w.inner11 == t.inner11 && w.inner12 == t.inner12
  {
    hide Truncate, Greedy.KeptLength, Kept, Twentieths;
    WidthOfTrial(16, 16.0, thinet, 5);
    WidthOfTrial(64, 64.0, thinet, 6);
    WidthOfTrial(128, 128.0, thinet, 7);
    WidthOfTrial(256, 256.0, thinet, 8);
    WidthOfTrial(512, 512.0, thinet, 9);
  }

  lemma OuterTrialWidths(thinet: seq<nat>, l1: seq<nat>)
    requires |thinet| == 10 && |l1| == 5
    requires forall i :: 0 <= i < 10 ==> thinet[i] <= 20
    requires forall j :: 0 <= j < 5 ==> l1[j] <= 20
    ensures var w, t := PrunedWidths(Kept(Twentieths(thinet)), Kept(Twentieths(l1))), TrialWidths(thinet, l1);
            && w.outer8 == t.outer8 && w.outer9 == t.outer9 && w.outer10 == t.outer10
            && w.outer11 == t.outer11 && w.outer12 == t.outer12
  {
    hide Truncate, Greedy.KeptLength, Kept, Twentieths;
    WidthOfTrial(16, 16.0, l1, 0);
    WidthOfTrial(64, 64.0, l1, 1);
    WidthOfTrial(128, 128.0, l1, 2);
    WidthOfTrial(256, 256.0, l1, 3);
    WidthOfTrial(512, 512.0, l1, 4);
  }

  lemma WidthOfTrial(base: nat, width: real, rates: seq<nat>, i: nat)
    requires i < |rates| && rates[i] <= 20 && width == base as real
    ensures Truncate(width * Kept(Twentieths(rates))[i]) == Greedy.KeptLength(base, rates[i])
  {
    WidthIsKeptLength(base, rates[i]);
  }

  predicate Positive(w: Widths)
  {
    && w.l3 > 0 && w.l4 > 0 && w.l5 > 0 && w.l6 > 0 && w.l7 > 0
    && w.inner8 > 0 && w.inner9 > 0 && w.inner10 > 0 && w.inner11 > 0 && w.inner12 > 0
    && w.outer8 > 0 && w.outer9 > 0 && w.outer10 > 0 && w.outer11 > 0 && w.outer12 > 0
  }

  /** Every layer of the pruned SRNet keeps a channel if and only if every rate leaves one. */
  lemma SrnetLeavesChannelsIff(thinet: seq<real>, l1: seq<real>)
    requires |thinet| == 10 && |l1| == 5
    ensures Positive(PrunedWidths(Kept(thinet), Kept(l1))) <==>
            && (forall i :: 0 <= i < 6 ==> Leaves(16, thinet[i]))
            && Leaves(64, thinet[6]) && Leaves(128, thinet[7]) && Leaves(256, thinet[8]) && Leaves(512, thinet[9])
            && Leaves(16, l1[0]) && Leaves(64, l1[1]) && Leaves(128, l1[2]) && Leaves(256, l1[3]) && Leaves(512, l1[4])
  {
    hide Truncate, Leaves;
    forall i | 0 <= i < 6 ensures Leaves(16, thinet[i]) <==> Truncate(16.0 * Kept(thinet)[i]) > 0 {
      LeavesIff(16, thinet[i]);
    }
    LeavesIff(64, thinet[6]);
    LeavesIff(128, thinet[7]);
    LeavesIff(256, thinet[8]);
    LeavesIff(512, thinet[9]);
    LeavesIff(16, l1[0]);
    LeavesIff(64, l1[1]);
    LeavesIff(128, l1[2]);
    LeavesIff(256, l1[3]);
    LeavesIff(512, l1[4]);
  }

  // --- The variables as a table -----------------------------------------------------------

  /** A convolution of a layer, the suffix of its name and its kernel; a norm of its outputs follows. */
  datatype Row = Row(layer: string, suffix: string, kernel: nat, inputs: int, outputs: int)

  function RowVariables(r: Row): seq<Variable>
  {
    var conv, norm := r.layer + "/Conv" + r.suffix, r.layer + "/BatchNorm" + r.suffix;
    [Variable(conv + "/weights", [r.kernel, r.kernel, r.inputs, r.outputs]), Variable(conv + "/biases", [r.outputs]),
     Variable(norm + "/beta", [r.outputs]), Variable(norm + "/gamma", [r.outputs]),
     Variable(norm + "/moving_mean", [r.outputs]), Variable(norm + "/moving_variance", [r.outputs])]
  }

  function TableVariables(rows: seq<Row>): seq<Variable>
  {
    if rows == [] then [] else TableVariables(rows[..|rows| - 1]) + RowVariables(rows[|rows| - 1])
  }

  function SrnetRows(w: Widths): seq<Row>
  {
    [Row("Layer1", "", 3, 1, 64), Row("Layer2", "", 3, 64, 16),
     Row("Layer3", "", 3, 16, w.l3), Row("Layer3", "_1", 3, w.l3, 16),
     Row("Layer4", "", 3, 16, w.l4), Row("Layer4", "_1", 3, w.l4, 16),
     Row("Layer5", "", 3, 16, w.l5), Row("Layer5", "_1", 3, w.l5, 16),
     Row("Layer6", "", 3, 16, w.l6), Row("Layer6", "_1", 3, w.l6, 16),
     Row("Layer7", "", 3, 16, w.l7), Row("Layer7", "_1", 3, w.l7, 16),
     Row("Layer8", "", 1, 16, w.outer8), Row("Layer8", "_1", 3, 16, w.inner8),
     Row("Layer8", "_2", 3, w.inner8, w.outer8),
     Row("Layer9", "", 1, w.outer8, w.outer9), Row("Layer9", "_1", 3, w.outer8, w.inner9),
     Row("Layer9", "_2", 3, w.inner9, w.outer9),
     Row("Layer10", "", 1, w.outer9, w.outer10), Row("Layer10", "_1", 3, w.outer9, w.inner10),
     Row("Layer10", "_2", 3, w.inner10, w.outer10),
     Row("Layer11", "", 1, w.outer10, w.outer11), Row("Layer11", "_1", 3, w.outer10, w.inner11),
     Row("Layer11", "_2", 3, w.inner11, w.outer11),
     Row("Layer12", "", 3, w.outer11, w.inner12), Row("Layer12", "_1", 3, w.inner12, w.outer12)]
  }

  /** The graph's variables so far are those of a table. */
  ghost predicate Lists(g: Graph, rows: seq<Row>)
  {
    g.variables == TableVariables(rows)
  }

  lemma NamesAre(scope: string, op: string)
    ensures OpName(scope, op, 0) == scope + ("/" + op) + ""
    ensures OpName(scope, op, 1) == scope + ("/" + op) + "_1"
    ensures OpName(scope, op, 2) == scope + ("/" + op) + "_2"
  {
    assert Decimal.Print(1) == "1" && Decimal.Print(2) == "2";
    assert "_" + "1" == "_1" && "_" + "2" == "_2";
    assert scope + "/" + op == scope + ("/" + op);
  }

  lemma ConvAndNorm(g: Graph, rows: seq<Row>, input: Tensor, outputs: int, kernel: nat, normed: Tensor, suffix: string)
    requires Lists(g, rows) && g.convs == g.norms <= 2 && normed.channels == outputs
    requires suffix == if g.convs == 0 then "" else if g.convs == 1 then "_1" else "_2"
    ensures var g' := Norm(Conv(g, input, outputs, kernel), normed);
            && Lists(g', rows + [Row(g.scope, suffix, kernel, input.channels, outputs)])
            && g'.scope == g.scope && g'.convs == g'.norms == g.convs + 1
  {
    hide OpName;
    NamesAre(g.scope, "Conv");
    NamesAre(g.scope, "BatchNorm");
    assert "/" + "Conv" == "/Conv" && "/" + "BatchNorm" == "/BatchNorm";
    var row := Row(g.scope, suffix, kernel, input.channels, outputs);
    var longer := rows + [row];
    assert longer[..|longer| - 1] == rows;
    var g' := Norm(Conv(g, input, outputs, kernel), normed);
    assert g'.variables == g.variables + RowVariables(row);
  }

  lemma PlainRows(g: Graph, rows: seq<Row>, scope: string, input: Tensor, outputs: int)
    requires Lists(g, rows)
    ensures var (g', out) := PlainLayer(g, scope, input, outputs);
            && Lists(g', rows + [Row(scope, "", 3, input.channels, outputs)]) && out.channels == outputs
  {
    hide Conv, Norm, Strided;
    ConvAndNorm(InScope(g, scope), rows, input, outputs, 3, ConvOut(input, outputs, 1), "");
  }

  lemma TwoConvs(g: Graph, rows: seq<Row>, input: Tensor, inner: int, outputs: int)
    requires Lists(g, rows) && g.convs == g.norms == 0
    ensures var conv1 := ConvOut(input, inner, 1);
            var g' := Norm(Conv(Norm(Conv(g, input, inner, 3), conv1), conv1, outputs, 3), ConvOut(conv1, outputs, 1));
            Lists(g', rows + [Row(g.scope, "", 3, input.channels, inner), Row(g.scope, "_1", 3, inner, outputs)])
  {
    hide Conv, Norm, Strided, Lists;
    var conv1 := ConvOut(input, inner, 1);
    var g1 := Norm(Conv(g, input, inner, 3), conv1);
    var row := Row(g.scope, "", 3, input.channels, inner);
    var row' := Row(g.scope, "_1", 3, inner, outputs);
    ConvAndNorm(g, rows, input, inner, 3, conv1, "");
    ConvAndNorm(g1, rows + [row], conv1, outputs, 3, ConvOut(conv1, outputs, 1), "_1");
    assert rows + [row] + [row'] == rows + [row, row'];
  }

  lemma ResidualRows(g: Graph, rows: seq<Row>, scope: string, input: Tensor, inner: int)
    requires Lists(g, rows)
    ensures var (g', out) := ResidualLayer(g, scope, input, inner);
            out.channels == input.channels && (input.channels == 16 ==> Lists(g', rows + ResidualPart(scope, inner)))
  {
    hide Conv, Norm, Strided;
    TwoConvs(InScope(g, scope), rows, input, inner, 16);
  }

  lemma LastRows(g: Graph, rows: seq<Row>, scope: string, input: Tensor, inner: int, outputs: int)
    requires Lists(g, rows)
    ensures var (g', out) := LastLayer(g, scope, input, inner, outputs);
            && Lists(g', rows + [Row(scope, "", 3, input.channels, inner), Row(scope, "_1", 3, inner, outputs)])
            && out == Tensor(1, 1, outputs)
  {
    hide Conv, Norm, Strided;
    TwoConvs(InScope(g, scope), rows, input, inner, outputs);
  }

  lemma DownscaleRows(g: Graph, rows: seq<Row>, scope: string, input: Tensor, inner: int, outputs: int)
    requires Lists(g, rows)
    ensures var (g', out) := DownscaleLayer(g, scope, input, inner, outputs);
            Lists(g', rows + DownscalePart(scope, input.channels, inner, outputs)) && out.channels == outputs
  {
    hide Conv, Norm, Strided, Pool;
    var g0 := InScope(g, scope);
    var shortcut, conv1 := ConvOut(input, outputs, 2), ConvOut(input, inner, 1);
    var g1 := Norm(Conv(g0, input, outputs, 1), shortcut);
    var g2 := Norm(Conv(g1, input, inner, 3), conv1);
    var row, row' := Row(scope, "", 1, input.channels, outputs), Row(scope, "_1", 3, input.channels, inner);
    var row'' := Row(scope, "_2", 3, inner, outputs);
    assert Lists(g0, rows);
    ConvAndNorm(g0, rows, input, outputs, 1, shortcut, "");
    ConvAndNorm(g1, rows + [row], input, inner, 3, conv1, "_1");
    ConvAndNorm(g2, rows + [row] + [row'], conv1, outputs, 3, ConvOut(conv1, outputs, 1), "_2");
    assert rows + [row] + [row'] + [row''] == rows + [row, row', row''];
  }

  lemma NothingListed()
    ensures Lists(Start(), [])
  {
  }

  lemma FirstRows(input: Tensor)
    requires input.channels == 1
    ensures var (g, out) := FirstLayers(input);
            Lists(g, FirstPart()) && out.channels == 16
  {
    hide PlainLayer, TableVariables;
    NothingListed();
    hide Lists, Start;
    var row1, row2 := Row("Layer1", "", 3, 1, 64), Row("Layer2", "", 3, 64, 16);
    PlainRows(Start(), [], "Layer1", input, 64);
    var (g1, actv1) := PlainLayer(Start(), "Layer1", input, 64);
    PlainRows(g1, [] + [row1], "Layer2", actv1, 16);
    assert [] + [row1] + [row2] == FirstPart();
  }

  function FirstPart(): seq<Row>
  {
    [Row("Layer1", "", 3, 1, 64), Row("Layer2", "", 3, 64, 16)]
  }

  function MiddlePart(w: Widths): seq<Row>
  {
    ResidualPart("Layer3", w.l3) + ResidualPart("Layer4", w.l4) + ResidualPart("Layer5", w.l5)
      + ResidualPart("Layer6", w.l6) + ResidualPart("Layer7", w.l7)
  }

  function ResidualPart(scope: string, inner: int): seq<Row>
  {
    [Row(scope, "", 3, 16, inner), Row(scope, "_1", 3, inner, 16)]
  }

  function DownPart(w: Widths): seq<Row>
  {
    DownscalePart("Layer8", 16, w.inner8, w.outer8) + DownscalePart("Layer9", w.outer8, w.inner9, w.outer9)
      + DownscalePart("Layer10", w.outer9, w.inner10, w.outer10)
      + DownscalePart("Layer11", w.outer10, w.inner11, w.outer11)
  }

  function DownscalePart(scope: string, inputs: int, inner: int, outputs: int): seq<Row>
  {
    [Row(scope, "", 1, inputs, outputs), Row(scope, "_1", 3, inputs, inner), Row(scope, "_2", 3, inner, outputs)]
  }

  function LastPart(w: Widths): seq<Row>
  {
    [Row("Layer12", "", 3, w.outer11, w.inner12), Row("Layer12", "_1", 3, w.inner12, w.outer12)]
  }

  lemma TableInParts(w: Widths)
    ensures SrnetRows(w) == FirstPart() + MiddlePart(w) + DownPart(w) + LastPart(w)
  {
  }

  lemma MiddleRows(g: Graph, rows: seq<Row>, input: Tensor, w: Widths)
    requires Lists(g, rows) && input.channels == 16
    ensures var (g', out) := MiddleLayers(g, input, w);
            Lists(g', rows + MiddlePart(w)) && out.channels == 16
  {
    hide ResidualLayer, Lists, ResidualPart;
    var rows3 := rows + ResidualPart("Layer3", w.l3);
    var rows4 := rows3 + ResidualPart("Layer4", w.l4);
    var rows5 := rows4 + ResidualPart("Layer5", w.l5);
    var rows6 := rows5 + ResidualPart("Layer6", w.l6);
    ResidualRows(g, rows, "Layer3", input, w.l3);
    var (g3, res3) := ResidualLayer(g, "Layer3", input, w.l3);
    ResidualRows(g3, rows3, "Layer4", res3, w.l4);
    var (g4, res4) := ResidualLayer(g3, "Layer4", res3, w.l4);
    ResidualRows(g4, rows4, "Layer5", res4, w.l5);
    var (g5, res5) := ResidualLayer(g4, "Layer5", res4, w.l5);
    ResidualRows(g5, rows5, "Layer6", res5, w.l6);
    var (g6, res6) := ResidualLayer(g5, "Layer6", res5, w.l6);
    ResidualRows(g6, rows6, "Layer7", res6, w.l7);
    assert rows6 + ResidualPart("Layer7", w.l7) == rows + MiddlePart(w);
  }

  lemma DownRows(g: Graph, rows: seq<Row>, input: Tensor, w: Widths)
    requires Lists(g, rows) && input.channels == 16
    ensures var (g', out) := DownLayers(g, input, w);
            Lists(g', rows + DownPart(w)) && out.channels == w.outer11
  {
    hide DownscaleLayer, Lists, DownscalePart;
    var rows8 := rows + DownscalePart("Layer8", 16, w.inner8, w.outer8);
    var rows9 := rows8 + DownscalePart("Layer9", w.outer8, w.inner9, w.outer9);
    var rows10 := rows9 + DownscalePart("Layer10", w.outer9, w.inner10, w.outer10);
    DownscaleRows(g, rows, "Layer8", input, w.inner8, w.outer8);
    var (g8, res8) := DownscaleLayer(g, "Layer8", input, w.inner8, w.outer8);
    DownscaleRows(g8, rows8, "Layer9", res8, w.inner9, w.outer9);
    var (g9, res9) := DownscaleLayer(g8, "Layer9", res8, w.inner9, w.outer9);
    DownscaleRows(g9, rows9, "Layer10", res9, w.inner10, w.outer10);
    var (g10, res10) := DownscaleLayer(g9, "Layer10", res9, w.inner10, w.outer10);
    DownscaleRows(g10, rows10, "Layer11", res10, w.inner11, w.outer11);
    assert rows10 + DownscalePart("Layer11", w.outer10, w.inner11, w.outer11) == rows + DownPart(w);
  }

  /** The variables of the whole graph, whatever the image size: 26 convolutions, each with its norm, and the head. */
  lemma VariablesAreTable(height: nat, width: nat, w: Widths)
    ensures TrainingGraph(height, width, w).variables ==
            TableVariables(SrnetRows(w)) + [Variable("ip/weights", [w.outer12, 2]), Variable("ip/biases", [2])]
  {
    hide FirstLayers, MiddleLayers, DownLayers, LastLayer, SrnetRows, MiddlePart, DownPart, TableVariables;
    var image := Tensor(height, width, 1);
    TableInParts(w);
    FirstRows(image);
    var (g2, actv) := FirstLayers(image);
    MiddleRows(g2, FirstPart(), actv, w);
    var (g7, res7) := MiddleLayers(g2, actv, w);
    DownRows(g7, FirstPart() + MiddlePart(w), res7, w);
    var (g11, res11) := DownLayers(g7, res7, w);
    LastRows(g11, FirstPart() + MiddlePart(w) + DownPart(w), "Layer12", res11, w.inner12, w.outer12);
  }

  // --- XuNet -----------------------------------------------------------------------------

  /** A convolution of the graph: declared input channels, outputs, and the index of its norm. */
  datatype XuConv = XuConv(name: string, declaredIn: int, outputs: int, norm: nat)

  /**
   Whether every declared input matched the tensor, every kernel had input and output
   channels, every addition matched, and every VALID window fitted.
  */
  datatype Xu = Xu(convs: seq<XuConv>, consistent: bool)

  /** `conv_layer` and the two variants: a 3 by 3 SAME convolution and a norm. */
  function XuLayer(g: Xu, name: string, input: Tensor, declaredIn: int, outputs: int, stride: nat): (Xu, Tensor)
    requires stride > 0
  {
    (Xu(g.convs + [XuConv(name, declaredIn, outputs, |g.convs|)],
        g.consistent && declaredIn == input.channels && declaredIn > 0 && outputs > 0),
     ConvOut(input, outputs, stride))
  }

  function XuAdd(g: Xu, a: Tensor, b: Tensor): Xu
  {
    g.(consistent := g.consistent && a == b)
  }

  function Remaining(channels: int, ratio: real): int
  {
    Truncate(channels as real * (1.0 - ratio))
  }

  function ConvBlock(g: Xu, input: Tensor, channelsIn: int, out1: int, out2: int,
                     ratio1: real, ratio2: real, ratio3: real, name: string): (Xu, Tensor)
  {
    var (g1, relu1) := XuLayer(g, name + "/layer_1", input, channelsIn, Remaining(out1, ratio1), 1);
    var (g2, bnS) := XuLayer(g1, name + "/layer_s", input, channelsIn, Remaining(out2, ratio3), 2);
    var (g3, bnM1) := XuLayer(g2, name + "/layer_m_1", relu1, Remaining(out1, ratio1), Remaining(out2, ratio3), 2);
    var g4 := XuAdd(g3, bnM1, bnS);
    var relu2 := bnM1;
    var (g5, relu3) := XuLayer(g4, name + "/layer_2", relu2, Remaining(out2, ratio3), Remaining(out2, ratio2), 1);
    var (g6, bnM2) := XuLayer(g5, name + "/layer_m_2", relu3, Remaining(out2, ratio2), Remaining(out2, ratio3), 1);
    (XuAdd(g6, bnM2, relu2), bnM2)
  }

  /** A VALID window of the given size; the graph cannot be built when it does not fit. */
  function Valid(g: Xu, input: Tensor, window: nat, outputs: int): (Xu, Tensor)
  {
    if window <= input.height && window <= input.width then
      (g, Tensor(input.height - window + 1, input.width - window + 1, outputs))
    else (g.(consistent := false), Tensor(0, 0, outputs))
  }

  /** thinet holds two rates for each of blocks 2 to 5, li one. */
  function XuNet(height: nat, width: nat, thinet: seq<real>, li: seq<real>): (Xu, Tensor)
    requires |thinet| == 8 && |li| == 4
  {
    var (g0, dct) := Valid(Xu([], true), Tensor(height, width, 1), 4, 16);
    var (g1, b1) := ConvBlock(g0, dct, 16, 12, 24, 0.0, 0.0, 0.0, "block_1");
    var (g2, b2) := ConvBlock(g1, b1, 24, 24, 48, thinet[0], thinet[1], li[0], "block_2");
    var (g3, b3) := ConvBlock(g2, b2, Remaining(48, li[0]), 48, 96, thinet[2], thinet[3], li[1], "block_3");
    var (g4, b4) := ConvBlock(g3, b3, Remaining(96, li[1]), 96, 192, thinet[4], thinet[5], li[2], "block_4");
    var (g5, b5) := ConvBlock(g4, b4, Remaining(192, li[2]), 192, 384, thinet[6], thinet[7], li[3], "block_5");
    Valid(g5, b5, 8, b5.channels)
  }

  predicate ConvAt(convs: seq<XuConv>, i: nat, name: string)
  {
    i < |convs| && convs[i].name == name && convs[i].norm == i
  }

  /** The norms of a block follow one another in the order its layers are built. */
  predicate BlockAt(convs: seq<XuConv>, first: nat, name: string)
  {
    && ConvAt(convs, first, name + "/layer_1")
    && ConvAt(convs, first + 1, name + "/layer_s")
    && ConvAt(convs, first + 2, name + "/layer_m_1")
    && ConvAt(convs, first + 3, name + "/layer_2")
    && ConvAt(convs, first + 4, name + "/layer_m_2")
  }

  lemma BlockStays(convs: seq<XuConv>, longer: seq<XuConv>, first: nat, name: string)
    requires convs <= longer && BlockAt(convs, first, name)
    ensures BlockAt(longer, first, name)
  {
  }

  /** A block with the right declared input keeps the graph consistent and halves the image, rounding up. */
  lemma BlockIsConsistent(g: Xu, input: Tensor, channelsIn: int, out1: int, out2: int,
                          ratio1: real, ratio2: real, ratio3: real, name: string)
    requires out1 > 0 && out2 > 0
    ensures var (g', out) := ConvBlock(g, input, channelsIn, out1, out2, ratio1, ratio2, ratio3, name);
            && (g'.consistent <==> g.consistent && channelsIn == input.channels && channelsIn > 0
                                   && Leaves(out1, ratio1) && Leaves(out2, ratio2) && Leaves(out2, ratio3))
            && out == Tensor(Strided(input.height, 2), Strided(input.width, 2), Remaining(out2, ratio3))
            && |g'.convs| == |g.convs| + 5 && g.convs <= g'.convs && BlockAt(g'.convs, |g.convs|, name)
  {
    hide Remaining, Leaves;
    LeavesIff(out1, ratio1);
    LeavesIff(out2, ratio2);
    LeavesIff(out2, ratio3);
  }

  /** The convolutions of a block whose layers keep w1, w2 and, for the shortcut and the additions, w3 channels. */
  function XuBlock(first: nat, name: string, channelsIn: int, w1: int, w2: int, w3: int): (convs: seq<XuConv>)
    ensures |convs| == 5
  {
    [XuConv(name + "/layer_1", channelsIn, w1, first), XuConv(name + "/layer_s", channelsIn, w3, first + 1),
     XuConv(name + "/layer_m_1", w1, w3, first + 2), XuConv(name + "/layer_2", w3, w2, first + 3),
     XuConv(name + "/layer_m_2", w2, w3, first + 4)]
  }

  lemma BlockConvs(g: Xu, input: Tensor, channelsIn: int, out1: int, out2: int,
                   ratio1: real, ratio2: real, ratio3: real, name: string)
    ensures ConvBlock(g, input, channelsIn, out1, out2, ratio1, ratio2, ratio3, name).0.convs == g.convs +
            XuBlock(|g.convs|, name, channelsIn, Remaining(out1, ratio1), Remaining(out2, ratio2),
                    Remaining(out2, ratio3))
  {
    hide Remaining;
  }

  /** The rate leaves at least one of the channels. */
  predicate Leaves(channels: int, ratio: real)
    requires channels > 0
  {
    ratio <= 1.0 - 1.0 / channels as real
  }

  lemma LeavesIff(channels: int, ratio: real)
    requires channels > 0
    ensures Leaves(channels, ratio) <==> Remaining(channels, ratio) > 0
  {
    var c, kept := channels as real, 1.0 - ratio;
    var share := 1.0 / c;
    assert c * share == 1.0;
    AtLeastAShare(c, share, kept);
    var v := c * kept;
    assert Remaining(channels, ratio) == Truncate(v);
  }

  lemma AtLeastAShare(c: real, share: real, kept: real)
    requires c > 0.0 && c * share == 1.0
    ensures kept >= share <==> c * kept >= 1.0
  {
    var d, e := kept - share, share - kept;
    assert c * kept == c * (share + d) == c * share + c * d;
    assert c * share == c * (kept + e) == c * kept + c * e;
    if d >= 0.0 {
      Scaled(c, d);
    } else {
      Scaled(c, e);
    }
  }

  lemma Scaled(c: real, a: real)
    requires c > 0.0 && a >= 0.0
    ensures c * a >= 0.0 && (a > 0.0 ==> c * a > 0.0)
  {
  }

  /** Every rate leaves a channel of its layer, and of its block's output. */
  predicate RatesLeaveChannels(thinet: seq<real>, li: seq<real>)
    requires |thinet| == 8 && |li| == 4
  {
    && Leaves(24, thinet[0]) && Leaves(48, thinet[1]) && Leaves(48, li[0])
    && Leaves(48, thinet[2]) && Leaves(96, thinet[3]) && Leaves(96, li[1])
    && Leaves(96, thinet[4]) && Leaves(192, thinet[5]) && Leaves(192, li[2])
    && Leaves(192, thinet[6]) && Leaves(384, thinet[7]) && Leaves(384, li[3])
  }

  lemma Unpruned(channels: int)
    requires channels > 0
    ensures Remaining(channels, 0.0) == channels && Leaves(channels, 0.0)
  {
    LeavesIff(channels, 0.0);
  }

  lemma HalvedFiveTimes(n: nat)
    ensures Strided(Strided(Strided(Strided(Strided(n, 2), 2), 2), 2), 2) == (n + 31) / 32
  {
  }

  /**
   The graph can be built if and only if the image has at least 228 rows and columns and
   every rate leaves a channel: no declared channel count and no addition ever fails.
  */
  lemma XuNetBuildsIff(height: nat, width: nat, thinet: seq<real>, li: seq<real>)
    requires |thinet| == 8 && |li| == 4
    ensures var (g, pool) := XuNet(height, width, thinet, li);
            && (g.consistent <==> height >= 228 && width >= 228 && RatesLeaveChannels(thinet, li))
            && (g.consistent ==>
                 pool == Tensor((height - 3 + 31) / 32 - 7, (width - 3 + 31) / 32 - 7, Remaining(384, li[3])))
  {
    hide ConvBlock, Strided, Remaining, Leaves;
    Unpruned(12);
    Unpruned(24);
    LeavesIff(48, li[0]);
    LeavesIff(96, li[1]);
    LeavesIff(192, li[2]);
    var (g0, dct) := Valid(Xu([], true), Tensor(height, width, 1), 4, 16);
    BlockIsConsistent(g0, dct, 16, 12, 24, 0.0, 0.0, 0.0, "block_1");
    var (g1, b1) := ConvBlock(g0, dct, 16, 12, 24, 0.0, 0.0, 0.0, "block_1");
    BlockIsConsistent(g1, b1, 24, 24, 48, thinet[0], thinet[1], li[0], "block_2");
    var (g2, b2) := ConvBlock(g1, b1, 24, 24, 48, thinet[0], thinet[1], li[0], "block_2");
    BlockIsConsistent(g2, b2, Remaining(48, li[0]), 48, 96, thinet[2], thinet[3], li[1], "block_3");
    var (g3, b3) := ConvBlock(g2, b2, Remaining(48, li[0]), 48, 96, thinet[2], thinet[3], li[1], "block_3");
    BlockIsConsistent(g3, b3, Remaining(96, li[1]), 96, 192, thinet[4], thinet[5], li[2], "block_4");
    var (g4, b4) := ConvBlock(g3, b3, Remaining(96, li[1]), 96, 192, thinet[4], thinet[5], li[2], "block_4");
    BlockIsConsistent(g4, b4, Remaining(192, li[2]), 192, 384, thinet[6], thinet[7], li[3], "block_5");
    HalvedFiveTimes(dct.height);
    HalvedFiveTimes(dct.width);
  }

  function BlockName(block: nat): string
    requires 1 <= block <= 5
  {
    match block
    case 1 => "block_1"
    case 2 => "block_2"
    case 3 => "block_3"
    case 4 => "block_4"
    case 5 => "block_5"
  }

  /**
   The norms the detectors look up are those of the layers they mean: in block b the norm
   of layer l is number 5 (b - 1) + 3 (l - 1), and the shortcut and main ones are 1, 2 and 4 on.
  */
  lemma NormIndices(height: nat, width: nat, thinet: seq<real>, li: seq<real>, block: nat)
    requires |thinet| == 8 && |li| == 4 && 1 <= block <= 5
    ensures BlockAt(XuNet(height, width, thinet, li).0.convs, 5 * (block - 1), BlockName(block))
  {
    hide ConvBlock, Strided, Remaining, BlockAt;
    var (g0, dct) := Valid(Xu([], true), Tensor(height, width, 1), 4, 16);
    BlockIsConsistent(g0, dct, 16, 12, 24, 0.0, 0.0, 0.0, "block_1");
    var (g1, b1) := ConvBlock(g0, dct, 16, 12, 24, 0.0, 0.0, 0.0, "block_1");
    BlockIsConsistent(g1, b1, 24, 24, 48, thinet[0], thinet[1], li[0], "block_2");
    var (g2, b2) := ConvBlock(g1, b1, 24, 24, 48, thinet[0], thinet[1], li[0], "block_2");
    BlockIsConsistent(g2, b2, Remaining(48, li[0]), 48, 96, thinet[2], thinet[3], li[1], "block_3");
    var (g3, b3) := ConvBlock(g2, b2, Remaining(48, li[0]), 48, 96, thinet[2], thinet[3], li[1], "block_3");
    BlockIsConsistent(g3, b3, Remaining(96, li[1]), 96, 192, thinet[4], thinet[5], li[2], "block_4");
    var (g4, b4) := ConvBlock(g3, b3, Remaining(96, li[1]), 96, 192, thinet[4], thinet[5], li[2], "block_4");
    BlockIsConsistent(g4, b4, Remaining(192, li[2]), 192, 384, thinet[6], thinet[7], li[3], "block_5");
    var (g5, b5) := ConvBlock(g4, b4, Remaining(192, li[2]), 192, 384, thinet[6], thinet[7], li[3], "block_5");
    match block
    case 1 => BlockStays(g1.convs, g5.convs, 0, "block_1");
    case 2 => BlockStays(g2.convs, g5.convs, 5, "block_2");
    case 3 => BlockStays(g3.convs, g5.convs, 10, "block_3");
    case 4 => BlockStays(g4.convs, g5.convs, 15, "block_4");
    case 5 => BlockStays(g5.convs, g5.convs, 20, "block_5");
  }

  /** The convolutions of the whole graph: declared inputs, outputs and the numbers of their norms. */
  lemma ConvsAreTable(height: nat, width: nat, thinet: seq<real>, li: seq<real>)
    requires |thinet| == 8 && |li| == 4
    ensures var w2, w3 := Truncate(48.0 * (1.0 - li[0])), Truncate(96.0 * (1.0 - li[1]));
            var w4, w5 := Truncate(192.0 * (1.0 - li[2])), Truncate(384.0 * (1.0 - li[3]));
            XuNet(height, width, thinet, li).0.convs ==
              XuBlock(0, "block_1", 16, 12, 24, 24)
              + XuBlock(5, "block_2", 24, Truncate(24.0 * (1.0 - thinet[0])), Truncate(48.0 * (1.0 - thinet[1])), w2)
              + XuBlock(10, "block_3", w2, Truncate(48.0 * (1.0 - thinet[2])), Truncate(96.0 * (1.0 - thinet[3])), w3)
              + XuBlock(15, "block_4", w3, Truncate(96.0 * (1.0 - thinet[4])), Truncate(192.0 * (1.0 - thinet[5])), w4)
              + XuBlock(20, "block_5", w4, Truncate(192.0 * (1.0 - thinet[6])), Truncate(384.0 * (1.0 - thinet[7])), w5)
  {
    hide XuNet, XuBlock, Truncate;
    ConvsOfRates(height, width, thinet, li);
  }

  lemma ConvsOfRates(height: nat, width: nat, thinet: seq<real>, li: seq<real>)
    requires |thinet| == 8 && |li| == 4
    ensures var w2, w3 := Remaining(48, li[0]), Remaining(96, li[1]);
            var w4, w5 := Remaining(192, li[2]), Remaining(384, li[3]);
            XuNet(height, width, thinet, li).0.convs ==
              XuBlock(0, "block_1", 16, 12, 24, 24)
              + XuBlock(5, "block_2", 24, Remaining(24, thinet[0]), Remaining(48, thinet[1]), w2)
              + XuBlock(10, "block_3", w2, Remaining(48, thinet[2]), Remaining(96, thinet[3]), w3)
              + XuBlock(15, "block_4", w3, Remaining(96, thinet[4]), Remaining(192, thinet[5]), w4)
              + XuBlock(20, "block_5", w4, Remaining(192, thinet[6]), Remaining(384, thinet[7]), w5)
  {
    hide ConvBlock, Strided, Remaining, XuBlock;
    Unpruned(12);
    Unpruned(24);
    var w2, w3, w4 := Remaining(48, li[0]), Remaining(96, li[1]), Remaining(192, li[2]);
    var (g0, dct) := Valid(Xu([], true), Tensor(height, width, 1), 4, 16);
    BlockConvs(g0, dct, 16, 12, 24, 0.0, 0.0, 0.0, "block_1");
    var (g1, b1) := ConvBlock(g0, dct, 16, 12, 24, 0.0, 0.0, 0.0, "block_1");
    assert g1.convs == XuBlock(0, "block_1", 16, 12, 24, 24);
    BlockConvs(g1, b1, 24, 24, 48, thinet[0], thinet[1], li[0], "block_2");
    var (g2, b2) := ConvBlock(g1, b1, 24, 24, 48, thinet[0], thinet[1], li[0], "block_2");
    BlockConvs(g2, b2, w2, 48, 96, thinet[2], thinet[3], li[1], "block_3");
    var (g3, b3) := ConvBlock(g2, b2, w2, 48, 96, thinet[2], thinet[3], li[1], "block_3");
    BlockConvs(g3, b3, w3, 96, 192, thinet[4], thinet[5], li[2], "block_4");
    var (g4, b4) := ConvBlock(g3, b3, w3, 96, 192, thinet[4], thinet[5], li[2], "block_4");
    BlockConvs(g4, b4, w4, 192, 384, thinet[6], thinet[7], li[3], "block_5");
  }
}
