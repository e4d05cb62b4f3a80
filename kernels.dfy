/**
 * The data-type specific math kernels a concrete activation layer plugs in,
 * as their documented contracts: the Leaky ReLU value and derivative, the
 * elementwise product, and a generic elementwise map for kernels whose
 * formula is not part of this model (sigmoid and its derivative).
 *
 * The scalar rules and their lifting to sequences are functions; the kernels
 * themselves write through their `result` tensor, so they are methods that
 * modify `result.data` and are proved against the sequence functions. Every
 * kernel reads element i before it writes element i, so it stays correct
 * when `result` is the same tensor as an operand.
 */
module Kernels {
  import opened Tensors

  /** Leaky ReLU of one element: the input scaled by the local slope. */
  function LeakyRelu(x: real, alpha: real): (r: real)
    ensures r == DLeakyRelu(x, alpha) * x
  {
    if x < 0.0 then alpha * x else x
  }

  /** Derivative of Leaky ReLU of one element; the tie at 0 goes to slope 1. */
  function DLeakyRelu(x: real, alpha: real): (r: real)
    ensures r == 1.0 || r == alpha
    ensures x < 0.0 ==> r == alpha
    ensures x >= 0.0 ==> r == 1.0
  {
    if x < 0.0 then alpha else 1.0
  }

  /** Leaky ReLU with a fixed leak coefficient, as a scalar rule. */
  function Leaky(alpha: real): (f: real -> real)
  {
    x => LeakyRelu(x, alpha)
  }

  /** Derivative of Leaky ReLU with a fixed leak coefficient, as a scalar rule. */
  function DLeaky(alpha: real): (f: real -> real)
  {
    x => DLeakyRelu(x, alpha)
  }

  /** On either side of 0 the derivative is the exact slope between two points. */
  lemma LeakyReluSlope(x: real, y: real, alpha: real)
    requires (x < 0.0 && y < 0.0) || (x >= 0.0 && y >= 0.0)
    ensures LeakyRelu(y, alpha) - LeakyRelu(x, alpha) == DLeakyRelu(x, alpha) * (y - x)
  {
  }

  /** The documented tie-break: at exactly 0 the value is 0 and the slope is 1, not alpha. */
  lemma LeakyReluAtZero(alpha: real)
    ensures LeakyRelu(0.0, alpha) == 0.0
    ensures DLeakyRelu(0.0, alpha) == 1.0
  {
  }

  /** An elementwise kernel's effect on the element sequence. */
  function MapSeq(f: real -> real, s: seq<real>): (r: seq<real>)
    ensures |r| == |s|
  {
    if s == [] then [] else [f(s[0])] + MapSeq(f, s[1..])
  }

  lemma {:induction false} MapSeqAt(f: real -> real, s: seq<real>, i: nat)
    requires i < |s|
    ensures MapSeq(f, s)[i] == f(s[i])
  {
    if i > 0 {
      MapSeqAt(f, s[1..], i - 1);
    }
  }

  /** Two elementwise kernels in a row act as one kernel with the composed rule. */
  lemma {:induction false} MapSeqThen(f: real -> real, g: real -> real, s: seq<real>, i: nat)
    requires i < |s|
    ensures MapSeq(g, MapSeq(f, s))[i] == g(f(s[i]))
  {
    MapSeqAt(f, s, i);
    MapSeqAt(g, MapSeq(f, s), i);
  }

  /** The elementwise (Hadamard) product a ∘ b. */
  function MultiplySeq(a: seq<real>, b: seq<real>): (r: seq<real>)
    requires |a| == |b|
    ensures |r| == |a|
  {
    if a == [] then [] else [a[0] * b[0]] + MultiplySeq(a[1..], b[1..])
  }

  lemma {:induction false} MultiplySeqAt(a: seq<real>, b: seq<real>, i: nat)
    requires |a| == |b| && i < |a|
    ensures MultiplySeq(a, b)[i] == a[i] * b[i]
  {
    if i > 0 {
      MultiplySeqAt(a[1..], b[1..], i - 1);
    }
  }

  lemma {:induction false} MultiplySeqCommutes(a: seq<real>, b: seq<real>)
    requires |a| == |b|
    ensures MultiplySeq(a, b) == MultiplySeq(b, a)
  {
    if a != [] {
      MultiplySeqCommutes(a[1..], b[1..]);
    }
  }

  /** Elementwise kernel: result[i] := f(x[i]) for every element; `result` may be `x`. */
  method Elementwise(f: real -> real, x: Tensor, result: Tensor)
    requires x.data.Length == result.data.Length
    modifies result.data
    ensures result.data[..] == MapSeq(f, old(x.data[..]))
    ensures forall i :: 0 <= i < result.data.Length ==> result.data[i] == f(old(x.data[i]))
  {
    ghost var input := x.data[..];
    var n := result.data.Length;
    var i := 0;
    while i < n
      invariant 0 <= i <= n
      invariant forall k :: i <= k < n ==> x.data[k] == input[k]
      invariant forall k :: 0 <= k < i ==> result.data[k] == f(input[k])
    {
      result.data[i] := f(x.data[i]);
      i := i + 1;
    }
    forall k | 0 <= k < n
      ensures result.data[k] == MapSeq(f, input)[k]
    {
      MapSeqAt(f, input, k);
    }
  }

  /** Elementwise product kernel: result := a ∘ b; `result` may be `a` or `b`. */
  method Multiply(a: Tensor, b: Tensor, result: Tensor)
    requires a.data.Length == b.data.Length == result.data.Length
    modifies result.data
    ensures result.data[..] == MultiplySeq(old(a.data[..]), old(b.data[..]))
    ensures forall i :: 0 <= i < result.data.Length ==> result.data[i] == old(a.data[i]) * old(b.data[i])
  {
    ghost var sa, sb := a.data[..], b.data[..];
    var n := result.data.Length;
    var i := 0;
    while i < n
      invariant 0 <= i <= n
      invariant forall k :: i <= k < n ==> a.data[k] == sa[k]
      invariant forall k :: i <= k < n ==> b.data[k] == sb[k]
      invariant forall k :: 0 <= k < i ==> result.data[k] == sa[k] * sb[k]
    {
      result.data[i] := a.data[i] * b.data[i];
      i := i + 1;
    }
    forall k | 0 <= k < n
      ensures result.data[k] == MultiplySeq(sa, sb)[k]
    {
      MultiplySeqAt(sa, sb, k);
    }
  }

  /** The Leaky ReLU kernel slot: result[i] := alpha * x[i] if x[i] < 0, else x[i]. */
  method LeakyReluKernel(x: Tensor, alpha: real, result: Tensor)
    requires x.data.Length == result.data.Length
    modifies result.data
    ensures result.data[..] == MapSeq(Leaky(alpha), old(x.data[..]))
    ensures forall i :: 0 <= i < result.data.Length ==>
      result.data[i] == if old(x.data[i]) < 0.0 then alpha * old(x.data[i]) else old(x.data[i])
  {
    Elementwise(Leaky(alpha), x, result);
  }

  /** The Leaky ReLU derivative kernel slot: result[i] := alpha if x[i] < 0, else 1. */
  method DLeakyReluKernel(x: Tensor, alpha: real, result: Tensor)
    requires x.data.Length == result.data.Length
    modifies result.data
    ensures result.data[..] == MapSeq(DLeaky(alpha), old(x.data[..]))
    ensures forall i :: 0 <= i < result.data.Length ==>
      result.data[i] == if old(x.data[i]) < 0.0 then alpha else 1.0
  {
    Elementwise(DLeaky(alpha), x, result);
  }
}
