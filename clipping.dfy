/**
  Weight clipping of the critic: every element of every weight tensor of
  every layer is clamped into the box [-c, c] (tf.clip_by_value), with
  c = ClipValue = 0.01 in the model.
 */
module Clipping {

  /** One weight tensor (a kernel or a bias vector), flattened. */
  type Tensor = seq<real>
  /** The weights of one layer, in the order the layer lists them. */
  type Layer = seq<Tensor>
  /** The weights of a whole network, layer by layer. */
  type Params = seq<Layer>

  /** The clipping bound the model is built with. */
  const ClipValue: real := 0.01

  /** clip_by_value on one element: the maximum with -c, then the minimum with c. */
  function Clamp(x: real, c: real): (y: real)
    requires 0.0 <= c
    ensures -c <= y <= c
    ensures -c <= x <= c ==> y == x
    ensures x < -c ==> y == -c
    ensures c < x ==> y == c
  {
    var atLeast := if x < -c then -c else x;
    if atLeast > c then c else atLeast
  }

  function ClipTensor(w: Tensor, c: real): (r: Tensor)
    requires 0.0 <= c
    ensures |r| == |w|
    ensures forall i :: 0 <= i < |w| ==> r[i] == Clamp(w[i], c)
  {
    seq(|w|, i requires 0 <= i < |w| => Clamp(w[i], c))
  }

  function ClipLayer(weights: Layer, c: real): (r: Layer)
    requires 0.0 <= c
    ensures |r| == |weights|
    ensures forall t :: 0 <= t < |weights| ==> r[t] == ClipTensor(weights[t], c)
  {
    seq(|weights|, t requires 0 <= t < |weights| => ClipTensor(weights[t], c))
  }

  /** Every element of every tensor of every layer lies in [-c, c]. */
  predicate InBox(p: Params, c: real)
  {
    forall l, t, i :: 0 <= l < |p| && 0 <= t < |p[l]| && 0 <= i < |p[l][t]| ==> -c <= p[l][t][i] <= c
  }

  /** Same number of layers, of tensors per layer and of elements per tensor. */
  predicate SameShape(p: Params, q: Params)
  {
    && |p| == |q|
    && (forall l :: 0 <= l < |p| ==> |p[l]| == |q[l]|)
    && (forall l, t :: 0 <= l < |p| && 0 <= t < |p[l]| ==> |p[l][t]| == |q[l][t]|)
  }

  /**
    The clipped network: same shape, inside the box, elements already in the
    box unchanged and every other element moved to the nearer bound.
   */
  function ClipLayers(p: Params, c: real): (r: Params)
    requires 0.0 <= c
    ensures SameShape(r, p)
    ensures InBox(r, c)
    ensures forall l, t, i :: 0 <= l < |p| && 0 <= t < |p[l]| && 0 <= i < |p[l][t]| ==>
              r[l][t][i] == Clamp(p[l][t][i], c)
  {
    seq(|p|, l requires 0 <= l < |p| => ClipLayer(p[l], c))
  }

  /** Clipping changes nothing exactly when the weights already lie in the box. */
  lemma ClipFixesExactlyTheBox(p: Params, c: real)
    requires 0.0 <= c
    ensures ClipLayers(p, c) == p <==> InBox(p, c)
  {
    var r := ClipLayers(p, c);
    if InBox(p, c) {
      forall l | 0 <= l < |p|
        ensures r[l] == p[l]
      {
        forall t | 0 <= t < |p[l]|
          ensures r[l][t] == p[l][t]
        {
          assert |r[l][t]| == |p[l][t]|;
          assert forall i :: 0 <= i < |p[l][t]| ==> r[l][t][i] == p[l][t][i];
        }
      }
    }
  }

  /** Clipping twice is clipping once. */
  lemma ClipIdempotent(p: Params, c: real)
    requires 0.0 <= c
    ensures ClipLayers(ClipLayers(p, c), c) == ClipLayers(p, c)
  {
    ClipFixesExactlyTheBox(ClipLayers(p, c), c);
  }
}
