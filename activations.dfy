/**
 * The activation functions of AktivacijskeFunkcijeHelper: ReLU, LeakyReLU and
 * Tanh for hidden layers; Sigmoid, Linear and Softmax for the output layer.
 * Math.Exp is a parameter: any function whose values are all positive.
 */
module Activations {
  import opened Common

  /** Math.Exp as far as the model relies on it: every value is positive. */
  type ExpFn = f: real -> real | forall x :: f(x) > 0.0 witness (x: real) => 1.0

  /** The default slope of LeakyReLU for negative inputs. */
  const LeakyAlpha: real := 0.01

  /** Math.Max(0, x). */
  function ReLU(x: real): (r: real)
    ensures r >= 0.0 && r >= x
    ensures r == 0.0 || r == x
  {
    if 0.0 >= x then 0.0 else x
  }

  function LeakyReLU(x: real, alpha: real := LeakyAlpha): (r: real)
    ensures x > 0.0 ==> r == x
    ensures x <= 0.0 ==> r == alpha * x
  {
    if x > 0.0 then x else alpha * x
  }

  /** LeakyReLU with slope 0 is ReLU; with a slope in [0, 1] it lies between x and ReLU(x). */
  lemma LeakyReLUBetween(x: real, alpha: real)
    requires 0.0 <= alpha <= 1.0
    ensures x <= LeakyReLU(x, alpha) <= ReLU(x)
    ensures alpha == 0.0 ==> LeakyReLU(x, alpha) == ReLU(x)
  {
    if x <= 0.0 {
      assert alpha * x - x == (alpha - 1.0) * x;
      assert (1.0 - alpha) * -x >= 0.0;
      assert alpha * -x >= 0.0;
    }
  }

  /** Math.Tanh, written through exp: tanh x = (e^(2x) - 1) / (e^(2x) + 1). */
  function Tanh(exp: ExpFn, x: real): (r: real)
    ensures -1.0 < r < 1.0
  {
    var e := exp(2.0 * x);
    assert e > 0.0;
    (e - 1.0) / (e + 1.0)
  }

  /** 1 / (1 + e^(-x)): strictly between 0 and 1. */
  function Sigmoid(exp: ExpFn, x: real): (r: real)
    ensures 0.0 < r < 1.0
  {
    var e := exp(-x);
    assert e > 0.0;
    1.0 / (1.0 + e)
  }

  /** Sigmoid over a fixed exp, as the function value a layer stores. */
  function SigmoidWith(exp: ExpFn): real -> real
  {
    x => Sigmoid(exp, x)
  }

  /** With e^0 = 1, Sigmoid(0) is exactly one half. */
  lemma SigmoidAtZero(exp: ExpFn)
    requires exp(0.0) == 1.0
    ensures Sigmoid(exp, 0.0) == 0.5
  {
    assert -0.0 == 0.0;
  }

  /** The identity. */
  function Linear(x: real): (r: real)
    ensures r == x
  {
    x
  }

  /** A vector of probabilities: every entry in (0, 1], summing to 1. */
  predicate Probabilities(p: seq<real>)
  {
    (forall i :: 0 <= i < |p| ==> 0.0 < p[i] <= 1.0) && Sum(p) == 1.0
  }

  /** exp(x_i - max x) for every i. */
  function ShiftedExps(exp: ExpFn, x: seq<real>): (r: seq<real>)
    requires |x| > 0
    ensures |r| == |x| && AllPositive(r)
  {
    var m := Max(x);
    seq(|x|, i requires 0 <= i < |x| => exp(x[i] - m))
  }

  /**
   * exp(x_i - max x) / sum_j exp(x_j - max x). `Max()` of an empty array
   * throws InvalidOperationException.
   */
  function Softmax(exp: ExpFn, x: seq<real>): (r: Result<seq<real>>)
    ensures r.Err? <==> |x| == 0
    ensures r.Err? ==> r.greska == InvalidOperation
    ensures r.Ok? ==> |r.value| == |x| && Probabilities(r.value)
  {
    if |x| == 0 then Err(InvalidOperation)
    else
      var exps := ShiftedExps(exp, x);
      var sum := Sum(exps);
      SumPositive(exps);
      var p := DivideAll(exps, sum);
      SoftmaxProbabilities(exps, sum);
      Ok(p)
  }

  lemma SoftmaxProbabilities(exps: seq<real>, sum: real)
    requires |exps| > 0 && AllPositive(exps) && sum == Sum(exps)
    requires sum > 0.0
    ensures Probabilities(DivideAll(exps, sum))
  {
    var p := DivideAll(exps, sum);
    forall i | 0 <= i < |p|
      ensures 0.0 < p[i] <= 1.0
    {
      ElementAtMostSum(exps, i);
      FractionBounds(exps[i], sum);
      assert p[i] == exps[i] / sum;
    }
    SumDivideAll(exps, sum);
    assert Sum(p) == sum / sum;
    assert sum / sum == 1.0;
  }

  /** A positive part of a positive whole is a fraction in (0, 1]. */
  lemma FractionBounds(a: real, c: real)
    requires 0.0 < a <= c
    ensures 0.0 < a / c <= 1.0
  {
  }
}
