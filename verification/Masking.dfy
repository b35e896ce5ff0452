/**
 Channel pruning as a transformation of the network: gathering channels by an
 index list gives the next layer the same input as zeroing all other channels.
 A feature map is given by the taps each output position of the next
 convolution sees; activation functions are left abstract.
*/
module Masking {
  import opened Sums

  /** position, tap */
  type Plane = (int, int) -> real

  datatype Layer<K> = Layer(
    kernel: seq<K>, bias: seq<real>,
    mean: seq<real>, variance: seq<real>, gamma: seq<real>, beta: seq<real>)

  predicate Sized<K>(p: Layer<K>, n: nat)
  {
    |p.kernel| == |p.bias| == |p.mean| == |p.variance| == |p.gamma| == |p.beta| == n
  }

  predicate InRange(s: seq<nat>, n: nat)
  {
    forall i :: 0 <= i < |s| ==> s[i] < n
  }

  /** `data[..., s, ...]` on the channel axis. */
  function Gather<T>(data: seq<T>, s: seq<nat>): (r: seq<T>)
    requires InRange(s, |data|)
    ensures |r| == |s| && forall i :: 0 <= i < |s| ==> r[i] == data[s[i]]
  {
    seq(|s|, i requires 0 <= i < |s| => data[s[i]])
  }

  function GatherLayer<K>(p: Layer<K>, s: seq<nat>): (q: Layer<K>)
    requires exists n :: Sized(p, n) && InRange(s, n)
    ensures Sized(q, |s|)
  {
    Layer(Gather(p.kernel, s), Gather(p.bias, s), Gather(p.mean, s), Gather(p.variance, s),
          Gather(p.gamma, s), Gather(p.beta, s))
  }

  /** One output channel from its own kernel, bias and batch-norm entries. */
  type Activation<!K> = (K, real, real, real, real, real) -> Plane

  function Activations<K>(p: Layer<K>, act: Activation<K>): (planes: seq<Plane>)
    requires Sized(p, |p.kernel|)
    ensures |planes| == |p.kernel|
  {
    seq(|p.kernel|, c requires 0 <= c < |p.kernel| =>
      act(p.kernel[c], p.bias[c], p.mean[c], p.variance[c], p.gamma[c], p.beta[c]))
  }

  function ZeroPlane(): Plane
  {
    (pos, tap) => 0.0
  }

  /** The full feature map with every channel outside s zeroed. */
  function Masked(planes: seq<Plane>, s: seq<nat>): (r: seq<Plane>)
    ensures |r| == |planes|
  {
    seq(|planes|, c requires 0 <= c < |planes| => if c in s then planes[c] else ZeroPlane())
  }

  function TapTerm(slice: int -> real, plane: Plane, pos: int): int -> real
  {
    tap => slice(tap) * plane(pos, tap)
  }

  function ChannelTerm(planes: seq<Plane>, slices: seq<int -> real>, pos: int, taps: nat): int -> real
  {
    c => if 0 <= c < |planes| && c < |slices| then Sum(TapTerm(slices[c], planes[c], pos), 0, taps) else 0.0
  }

  /** One output of the next convolution; slices are its kernel's slices, one per input channel. */
  function ConvOut(planes: seq<Plane>, slices: seq<int -> real>, bias: real, pos: int, taps: nat): real
  {
    bias + Sum(ChannelTerm(planes, slices, pos, taps), 0, |planes|)
  }

  lemma {:induction false} GatheredTerms(planes: seq<Plane>, slices: seq<int -> real>, s: seq<nat>, pos: int,
                                         taps: nat, m: nat)
    requires |slices| == |planes| && InRange(s, |planes|) && m <= |s|
    ensures Sum(ChannelTerm(Gather(planes, s), Gather(slices, s), pos, taps), 0, m) ==
            ListSum(ChannelTerm(planes, slices, pos, taps), s[..m])
  {
    if m > 0 {
      GatheredTerms(planes, slices, s, pos, taps, m - 1);
      assert s[..m] == s[..m - 1] + [s[m - 1]];
      ListSumAppended(ChannelTerm(planes, slices, pos, taps), s[..m - 1], s[m - 1]);
    }
  }

  /** Gathering planes and slices by s equals masking the planes, whatever the order of s. */
  lemma GatherIsMask(planes: seq<Plane>, slices: seq<int -> real>, s: seq<nat>, bias: real, pos: int, taps: nat)
    requires |slices| == |planes| && InRange(s, |planes|) && NoDuplicates(s)
    ensures ConvOut(Gather(planes, s), Gather(slices, s), bias, pos, taps) ==
            ConvOut(Masked(planes, s), slices, bias, pos, taps)
  {
    var full := ChannelTerm(planes, slices, pos, taps);
    GatheredTerms(planes, slices, s, pos, taps, |s|);
    assert s[..|s|] == s;
    ListSumIsMaskedSum(full, s, |planes|);
    var masked := ChannelTerm(Masked(planes, s), slices, pos, taps);
    forall c | 0 <= c < |planes| ensures masked(c) == MaskedTerm(full, s)(c) {
      if c !in s {
        SumZero(TapTerm(slices[c], ZeroPlane(), pos), 0, taps);
      }
    }
    SumSame(masked, MaskedTerm(full, s), 0, |planes|);
  }

  /**
   Pruning preserves what the next layer computes: the network with kernel, bias and
   batch-norm vectors gathered by s, and the next kernel gathered on its input channels,
   equals the full network whose channels outside s are zeroed.
  */
  lemma PruningIsMasking<K>(p: Layer<K>, act: Activation<K>, slices: seq<int -> real>, s: seq<nat>,
                            bias: real, pos: int, taps: nat)
    requires Sized(p, |slices|) && InRange(s, |slices|) && NoDuplicates(s)
    ensures ConvOut(Activations(GatherLayer(p, s), act), Gather(slices, s), bias, pos, taps) ==
            ConvOut(Masked(Activations(p, act), s), slices, bias, pos, taps)
  {
    assert Activations(GatherLayer(p, s), act) == Gather(Activations(p, act), s);
    GatherIsMask(Activations(p, act), slices, s, bias, pos, taps);
  }

  function AddPlanes(a: seq<Plane>, b: seq<Plane>): (sum: seq<Plane>)
    requires |a| == |b|
    ensures |sum| == |a|
  {
    seq(|a|, c requires 0 <= c < |a| => (pos, tap) => a[c](pos, tap) + b[c](pos, tap))
  }

  /**
   Layers 8 to 11: the shortcut and the main branch are gathered by one list, so the
   residual add pairs the channels it paired before, and every convolution fed by the sum
   computes what it would on the masked sum.
  */
  lemma ResidualStaysAligned<K, L>(shortcut: Layer<K>, main: Layer<L>, actS: Activation<K>, actM: Activation<L>,
                                   slices: seq<int -> real>, s: seq<nat>, bias: real, pos: int, taps: nat)
    requires Sized(shortcut, |slices|) && Sized(main, |slices|)
    requires InRange(s, |slices|) && NoDuplicates(s)
    ensures var pruned := AddPlanes(Activations(GatherLayer(shortcut, s), actS),
              Activations(GatherLayer(main, s), actM));
            var full := AddPlanes(Activations(shortcut, actS), Activations(main, actM));
            && pruned == Gather(full, s)
            && ConvOut(pruned, Gather(slices, s), bias, pos, taps) == ConvOut(Masked(full, s), slices, bias, pos, taps)
  {
    var full := AddPlanes(Activations(shortcut, actS), Activations(main, actM));
    assert AddPlanes(Activations(GatherLayer(shortcut, s), actS), Activations(GatherLayer(main, s), actM)) ==
      Gather(full, s);
    GatherIsMask(full, slices, s, bias, pos, taps);
  }
}
