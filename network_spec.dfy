/**
 * What a multilayer perceptron computes, stated on values: a neuron is its
 * weights, bias and activation; a layer is a sequence of neurons; a network a
 * sequence of layers. The classes Neuron, Layer, MLPKlasifikatorMreza and
 * MLPKlasifikator are proved against these functions.
 */
module NetworkSpec {
  import opened Common
  import opened Activations

  /** A value of Random.NextDouble(): a real in [0, 1). */
  type Draw = r: real | 0.0 <= r < 1.0

  /** The part of a neuron that prediction depends on. */
  datatype Jedinica = Jedinica(tezine: seq<real>, bias: real, aktivacija: real -> real)

  /** A layer, as the sequence of its neurons. */
  type Sloj = seq<Jedinica>

  /** Bias plus the sum of input i times weight i, over the inputs. */
  function Suma(u: Jedinica, x: seq<real>): real
    requires |x| <= |u.tezine|
  {
    Dot(x, u.tezine) + u.bias
  }

  /** The neuron's output: its activation applied to the weighted sum. */
  function Izlaz(u: Jedinica, x: seq<real>): real
    requires |x| <= |u.tezine|
  {
    u.aktivacija(Suma(u, x))
  }

  /** Every neuron of the layer has a weight for each of n inputs. */
  predicate Prima(sloj: Sloj, n: nat)
  {
    forall j :: 0 <= j < |sloj| ==> n <= |sloj[j].tezine|
  }

  /** The outputs of the layer's neurons on one input vector, in neuron order. */
  function SlojIzlaz(sloj: Sloj, x: seq<real>): (r: seq<real>)
    requires Prima(sloj, |x|)
    ensures |r| == |sloj|
  {
    seq(|sloj|, j requires 0 <= j < |sloj| && Prima(sloj, |x|) => Izlaz(sloj[j], x))
  }

  /** An input of width n can be passed through the layers in turn. */
  predicate Ulancano(mreza: seq<Sloj>, n: nat)
  {
    (|mreza| > 0 ==> Prima(mreza[0], n)) &&
    forall i :: 0 < i < |mreza| ==> Prima(mreza[i], |mreza[i - 1]|)
  }

  /** The forward pass: each layer's output is the next layer's input. */
  function Naprijed(mreza: seq<Sloj>, x: seq<real>): (r: seq<real>)
    requires Ulancano(mreza, |x|)
    ensures |r| == if |mreza| == 0 then |x| else |mreza[|mreza| - 1]|
    decreases |mreza|
  {
    if |mreza| == 0 then x
    else
      var p := mreza[..|mreza| - 1];
      assert Ulancano(p, |x|) by {
        forall i | 0 < i < |p|
          ensures Prima(p[i], |p[i - 1]|)
        {
          assert p[i] == mreza[i] && p[i - 1] == mreza[i - 1];
        }
      }
      assert |p| > 0 ==> p[|p| - 1] == mreza[|mreza| - 2];
      SlojIzlaz(mreza[|mreza| - 1], Naprijed(p, x))
  }

  /** Adding a layer to a network extends the forward pass by that layer. */
  lemma NaprijedKorak(mreza: seq<Sloj>, x: seq<real>, i: nat)
    requires Ulancano(mreza, |x|) && i < |mreza|
    ensures Ulancano(mreza[..i], |x|) && Ulancano(mreza[..i + 1], |x|)
    ensures Prima(mreza[i], |Naprijed(mreza[..i], x)|)
    ensures Naprijed(mreza[..i + 1], x) == SlojIzlaz(mreza[i], Naprijed(mreza[..i], x))
  {
    var p := mreza[..i + 1];
    assert p[..i] == mreza[..i];
    forall k | 0 < k < i + 1
      ensures Prima(p[k], |p[k - 1]|)
    {
      assert p[k] == mreza[k] && p[k - 1] == mreza[k - 1];
    }
    assert i > 0 ==> mreza[..i][i - 1] == mreza[i - 1];
  }

  /**
   * Each layer's output in the forward pass on x, layer by layer: what the
   * neurons of layer i cache after a prediction.
   */
  function IzlaziSlojeva(mreza: seq<Sloj>, x: seq<real>): (r: seq<seq<real>>)
    requires Ulancano(mreza, |x|)
    ensures |r| == |mreza|
    ensures forall i :: 0 <= i < |mreza| ==> |r[i]| == |mreza[i]|
    ensures |mreza| > 0 ==> r[|mreza| - 1] == Naprijed(mreza, x)
  {
    assert mreza[..|mreza|] == mreza;
    seq(|mreza|, i requires 0 <= i < |mreza| && Ulancano(mreza, |x|) =>
      NaprijedKorak(mreza, x, i); Naprijed(mreza[..i + 1], x))
  }

  /** The first layer computes on x; every later layer on the output of the one before. */
  lemma IzlaziSlojevaLanac(mreza: seq<Sloj>, x: seq<real>, i: nat)
    requires Ulancano(mreza, |x|) && i < |mreza|
    ensures var r := IzlaziSlojeva(mreza, x);
            var ulaz := if i == 0 then x else r[i - 1];
            Prima(mreza[i], |ulaz|) && r[i] == SlojIzlaz(mreza[i], ulaz)
  {
    NaprijedKorak(mreza, x, i);
    if i > 0 {
      NaprijedKorak(mreza, x, i - 1);
      assert mreza[..i - 1 + 1] == mreza[..i];
    }
  }

  /** The widths a network is built with: inputs, each hidden layer, outputs. */
  function Sirine(brojUlaza: nat, skriveni: seq<nat>, brojIzlaza: nat): (s: seq<nat>)
    ensures |s| == |skriveni| + 2
  {
    [brojUlaza] + skriveni + [brojIzlaza]
  }

  /** Layer i has sirine[i + 1] neurons, each with sirine[i] weights. */
  predicate Oblikovano(mreza: seq<Sloj>, sirine: seq<nat>)
  {
    |sirine| == |mreza| + 1 &&
    forall i :: 0 <= i < |mreza| ==>
      |mreza[i]| == sirine[i + 1] && forall j :: 0 <= j < |mreza[i]| ==> |mreza[i][j].tezine| == sirine[i]
  }

  /** Hidden layers use one activation, the last layer another. */
  ghost predicate Aktivacije(mreza: seq<Sloj>, skrivena: real -> real, izlazna: real -> real)
  {
    forall i, j :: 0 <= i < |mreza| && 0 <= j < |mreza[i]| ==>
      mreza[i][j].aktivacija == if i == |mreza| - 1 then izlazna else skrivena
  }

  /**
   * A network shaped by widths accepts any input no wider than the first width
   * and produces as many values as the last width.
   */
  lemma {:induction false} OblikovanoNaprijed(mreza: seq<Sloj>, sirine: seq<nat>, x: seq<real>)
    requires Oblikovano(mreza, sirine) && |mreza| > 0 && |x| <= sirine[0]
    ensures Ulancano(mreza, |x|)
    ensures |Naprijed(mreza, x)| == sirine[|sirine| - 1]
  {
    forall i | 0 < i < |mreza|
      ensures Prima(mreza[i], |mreza[i - 1]|)
    {
      assert forall j :: 0 <= j < |mreza[i]| ==> |mreza[i][j].tezine| == sirine[i];
    }
  }

  /** Weights drawn as NextDouble() - 0.5, draw i for weight i. */
  function PocetneTezine(g: nat -> Draw, n: nat): (w: seq<real>)
    ensures |w| == n
    ensures forall i :: 0 <= i < n ==> -0.5 <= w[i] < 0.5
  {
    seq(n, i requires 0 <= i < n => g(i) - 0.5)
  }

  /** A new neuron: n weights from draws 0 .. n-1, the bias from draw n. */
  function PocetnaJedinica(g: nat -> Draw, n: nat, aktivacija: real -> real): (u: Jedinica)
    ensures |u.tezine| == n && -0.5 <= u.bias < 0.5
    ensures forall i :: 0 <= i < n ==> -0.5 <= u.tezine[i] < 0.5
  {
    Jedinica(PocetneTezine(g, n), g(n) - 0.5, aktivacija)
  }

  /** The draws of neuron j of a layer. */
  function NeuronDraws(g: (nat, nat) -> Draw, j: nat): nat -> Draw
  {
    i => g(j, i)
  }

  /** A new layer of brojNeurona neurons with brojUlaza weights each. */
  function PocetniSloj(g: (nat, nat) -> Draw, brojNeurona: nat, brojUlaza: nat, aktivacija: real -> real): (s: Sloj)
    ensures |s| == brojNeurona
  {
    seq(brojNeurona, j requires 0 <= j < brojNeurona => PocetnaJedinica(NeuronDraws(g, j), brojUlaza, aktivacija))
  }

  /** The draws of layer i of a network. */
  function LayerDraws(g: (nat, nat, nat) -> Draw, i: nat): (nat, nat) -> Draw
  {
    (j, k) => g(i, j, k)
  }

  /**
   * A new network over the given widths: layer i has sirine[i + 1] neurons
   * with sirine[i] weights; the last layer uses `izlazna`, the others `skrivena`.
   */
  function PocetnaMreza(g: (nat, nat, nat) -> Draw, sirine: seq<nat>,
                        skrivena: real -> real, izlazna: real -> real): (m: seq<Sloj>)
    requires |sirine| >= 2
    ensures |m| == |sirine| - 1
  {
    seq(|sirine| - 1, i requires 0 <= i < |sirine| - 1 =>
      PocetniSloj(LayerDraws(g, i), sirine[i + 1], sirine[i],
                  if i == |sirine| - 2 then izlazna else skrivena))
  }

  /** Every weight and bias of the network lies in [-0.5, 0.5). */
  predicate MaleTezine(mreza: seq<Sloj>)
  {
    forall i, j :: 0 <= i < |mreza| && 0 <= j < |mreza[i]| ==>
      -0.5 <= mreza[i][j].bias < 0.5 &&
      forall k :: 0 <= k < |mreza[i][j].tezine| ==> -0.5 <= mreza[i][j].tezine[k] < 0.5
  }

  /**
   * A new network has the shape its widths give, ReLU-style hidden and
   * output activations where they were asked for, and small initial weights.
   */
  lemma PocetnaMrezaOblik(g: (nat, nat, nat) -> Draw, sirine: seq<nat>,
                          skrivena: real -> real, izlazna: real -> real)
    requires |sirine| >= 2
    ensures Oblikovano(PocetnaMreza(g, sirine, skrivena, izlazna), sirine)
    ensures Aktivacije(PocetnaMreza(g, sirine, skrivena, izlazna), skrivena, izlazna)
    ensures MaleTezine(PocetnaMreza(g, sirine, skrivena, izlazna))
  {
    var m: seq<Sloj> := PocetnaMreza(g, sirine, skrivena, izlazna);
    forall i | 0 <= i < |m|
      ensures |m[i]| == sirine[i + 1]
      ensures NoviNeuroni(m[i], sirine[i], if i == |m| - 1 then izlazna else skrivena)
    {
      var aktivacija := if i == |sirine| - 2 then izlazna else skrivena;
      assert m[i] == PocetniSloj(LayerDraws(g, i), sirine[i + 1], sirine[i], aktivacija);
      PocetniSlojOblik(LayerDraws(g, i), sirine[i + 1], sirine[i], aktivacija);
    }
  }

  /** Every neuron of a layer has n small weights, a small bias and the given activation. */
  ghost predicate NoviNeuroni(sloj: Sloj, n: nat, aktivacija: real -> real)
  {
    forall j :: 0 <= j < |sloj| ==>
      |sloj[j].tezine| == n && sloj[j].aktivacija == aktivacija && -0.5 <= sloj[j].bias < 0.5 &&
      forall k :: 0 <= k < |sloj[j].tezine| ==> -0.5 <= sloj[j].tezine[k] < 0.5
  }

  /** A new layer's neurons have the requested width and activation and small parameters. */
  lemma PocetniSlojOblik(g: (nat, nat) -> Draw, brojNeurona: nat, brojUlaza: nat, aktivacija: real -> real)
    ensures NoviNeuroni(PocetniSloj(g, brojNeurona, brojUlaza, aktivacija), brojUlaza, aktivacija)
  {
    var s := PocetniSloj(g, brojNeurona, brojUlaza, aktivacija);
    forall j | 0 <= j < |s|
      ensures |s[j].tezine| == brojUlaza && s[j].aktivacija == aktivacija && -0.5 <= s[j].bias < 0.5
      ensures forall k :: 0 <= k < |s[j].tezine| ==> -0.5 <= s[j].tezine[k] < 0.5
    {
      assert s[j] == PocetnaJedinica(NeuronDraws(g, j), brojUlaza, aktivacija);
    }
  }

  /**
   * The network output: the forward pass, then Softmax when asked for.
   * Softmax of an empty output vector fails.
   */
  function IzlazMreze(mreza: seq<Sloj>, x: seq<real>, softmax: bool, exp: ExpFn): (r: Result<seq<real>>)
    requires Ulancano(mreza, |x|)
    ensures !softmax ==> r == Ok(Naprijed(mreza, x))
    ensures softmax ==> (r.Err? <==> |Naprijed(mreza, x)| == 0)
    ensures softmax && r.Ok? ==> Probabilities(r.value)
    ensures r.Ok? ==> |r.value| == |Naprijed(mreza, x)|
  {
    var izlaz := Naprijed(mreza, x);
    if softmax then Softmax(exp, izlaz) else Ok(izlaz)
  }

  /**
   * A freshly built network accepts any input no wider than its input count;
   * its output has one entry per output neuron, and the prediction fails
   * exactly when Softmax is asked of an empty output layer.
   */
  lemma IzlazPocetneMreze(g: (nat, nat, nat) -> Draw, brojUlaza: nat, skriveni: seq<nat>, brojIzlaza: nat,
                          skrivena: real -> real, izlazna: real -> real, x: seq<real>, softmax: bool, exp: ExpFn)
    requires |x| <= brojUlaza
    ensures var m := PocetnaMreza(g, Sirine(brojUlaza, skriveni, brojIzlaza), skrivena, izlazna);
      Ulancano(m, |x|) && |Naprijed(m, x)| == brojIzlaza &&
      (IzlazMreze(m, x, softmax, exp).Ok? <==> !softmax || brojIzlaza > 0) &&
      (IzlazMreze(m, x, softmax, exp).Ok? ==> |IzlazMreze(m, x, softmax, exp).value| == brojIzlaza)
  {
    var sirine := Sirine(brojUlaza, skriveni, brojIzlaza);
    PocetnaMrezaOblik(g, sirine, skrivena, izlazna);
    OblikovanoNaprijed(PocetnaMreza(g, sirine, skrivena, izlazna), sirine, x);
  }

  /** Adds s times input i to weight i, for the weights that have an input. */
  function Korak(w: seq<real>, x: seq<real>, s: real): (r: seq<real>)
    ensures |r| == |w|
  {
    seq(|w|, i requires 0 <= i < |w| => if i < |x| then w[i] + s * x[i] else w[i])
  }

  /** A stochastic gradient step of size s: weights move by s times the input, the bias by s. */
  function Azurirano(u: Jedinica, x: seq<real>, s: real): (v: Jedinica)
    ensures |v.tezine| == |u.tezine| && v.aktivacija == u.aktivacija
  {
    u.(tezine := Korak(u.tezine, x, s), bias := u.bias + s)
  }

  /** A step of size 0 leaves the neuron as it was. */
  lemma AzuriranoNula(u: Jedinica, x: seq<real>)
    ensures Azurirano(u, x, 0.0) == u
  {
    assert Korak(u.tezine, x, 0.0) == u.tezine;
  }

  lemma DotKorak(x: seq<real>, w: seq<real>, s: real)
    requires |x| <= |w|
    ensures Dot(x, Korak(w, x, s)) == Dot(x, w) + s * Dot(x, x)
  {
    var v := Korak(w, x, s);
    var d := Skalirano(x, s);
    DotSkalirano(x, x, d, s);
    assert forall i :: 0 <= i < |x| ==> v[i] == w[i] + d[i];
    DotPomaknutih(x, w, d, v);
  }

  /** Each input times s. */
  function Skalirano(x: seq<real>, s: real): (d: seq<real>)
    ensures |d| == |x|
    ensures forall i :: 0 <= i < |x| ==> d[i] == s * x[i]
  {
    seq(|x|, i requires 0 <= i < |x| => s * x[i])
  }

  /** Weights moved by d move the weighted sum by x·d. */
  lemma {:induction false} DotPomaknutih(x: seq<real>, w: seq<real>, d: seq<real>, v: seq<real>)
    requires |x| <= |w| && |x| <= |d| && |x| <= |v|
    requires forall i :: 0 <= i < |x| ==> v[i] == w[i] + d[i]
    ensures Dot(x, v) == Dot(x, w) + Dot(x, d)
  {
    if |x| > 0 {
      var k := |x| - 1;
      DotPomaknutih(x[..k], w, d, v);
      DotZadnji(x, v);
      DotZadnji(x, w);
      DotZadnji(x, d);
      ZbirAlgebra(Dot(x, v), Dot(x, w), Dot(x, d), Dot(x[..k], v), Dot(x[..k], w), Dot(x[..k], d), x[k], w[k], d[k], v[k]);
    }
  }

  /** The last input's term splits off the weighted sum. */
  lemma DotZadnji(x: seq<real>, w: seq<real>)
    requires 0 < |x| <= |w|
    ensures Dot(x, w) == Dot(x[..|x| - 1], w) + x[|x| - 1] * w[|x| - 1]
  {
  }

  /** The step's arithmetic for one more input: x(w + d) splits into x w and x d. */
  lemma ZbirAlgebra(sv: real, sw: real, sd: real, pv: real, pw: real, pd: real, xk: real, wk: real, dk: real, vk: real)
    requires sv == pv + xk * vk && sw == pw + xk * wk && sd == pd + xk * dk
    requires pv == pw + pd && vk == wk + dk
    ensures sv == sw + sd
  {
  }

  /** Weights that are s times y sum, against x, to s times x·y. */
  lemma {:induction false} DotSkalirano(x: seq<real>, y: seq<real>, d: seq<real>, s: real)
    requires |x| <= |y| && |x| <= |d|
    requires forall i :: 0 <= i < |x| ==> d[i] == s * y[i]
    ensures Dot(x, d) == s * Dot(x, y)
  {
    if |x| > 0 {
      var k := |x| - 1;
      DotSkalirano(x[..k], y, d, s);
      DotZadnji(x, d);
      DotZadnji(x, y);
      SkalarAlgebra(Dot(x, d), Dot(x, y), Dot(x[..k], d), Dot(x[..k], y), x[k], y[k], d[k], s);
    }
  }

  /** The step's arithmetic for one more input: x(s y) is s(x y). */
  lemma SkalarAlgebra(sd: real, sy: real, pd: real, py: real, xk: real, yk: real, dk: real, s: real)
    requires sd == pd + xk * dk && sy == py + xk * yk
    requires pd == s * py && dk == s * yk
    ensures sd == s * sy
  {
  }

  /** The sum over x only reads the first |x| weights. */
  lemma {:induction false} DotPrefixWeights(x: seq<real>, w: seq<real>, v: seq<real>)
    requires |x| <= |w| && |x| <= |v|
    requires forall i :: 0 <= i < |x| ==> w[i] == v[i]
    ensures Dot(x, w) == Dot(x, v)
  {
    if |x| > 0 {
      DotPrefixWeights(x[..|x| - 1], w, v);
    }
  }

  lemma {:induction false} DotSelfNonNegative(x: seq<real>)
    ensures Dot(x, x) >= 0.0
  {
    if |x| > 0 {
      var p := x[..|x| - 1];
      DotSelfNonNegative(p);
      DotPrefixWeights(p, x, p);
    }
  }

  /**
   * After a step of size s on input x, the neuron's weighted sum on x moves by
   * s * (|x|^2 + 1): a positive step raises it, a negative step lowers it.
   */
  lemma KorakPomjeraSumu(u: Jedinica, x: seq<real>, s: real)
    requires |x| == |u.tezine|
    ensures Suma(Azurirano(u, x, s), x) == Suma(u, x) + s * (Dot(x, x) + 1.0)
    ensures s > 0.0 ==> Suma(Azurirano(u, x, s), x) > Suma(u, x)
    ensures s < 0.0 ==> Suma(Azurirano(u, x, s), x) < Suma(u, x)
  {
    DotKorak(x, u.tezine, s);
    DotSelfNonNegative(x);
    assert s * (Dot(x, x) + 1.0) == s * Dot(x, x) + s;
    if s > 0.0 {
      assert s * (Dot(x, x) + 1.0) > 0.0;
    } else if s < 0.0 {
      assert -s * (Dot(x, x) + 1.0) > 0.0;
    }
  }
}
