/**
 * Neuron.cs: a neuron with its weight array, bias, activation and derivative,
 * and the fields Output and Delta it caches for backpropagation.
 */
module Neurons {
  import opened Common
  import opened NetworkSpec

  class Neuron {
    var Tezine: array<real>
    var Bias: real
    const aktivacija: real -> real
    const derivacija: real -> real
    var Output: real
    var Delta: real

    /** The weights, bias and activation, as a value. */
    function Jedinica(): (u: Jedinica)
      reads this`Tezine, this`Bias, Tezine
      ensures |u.tezine| == Tezine.Length
    {
      NetworkSpec.Jedinica(Tezine[..], Bias, aktivacija)
    }

    /**
     * Weight i is draw i minus 0.5, the bias is draw brojUlaza minus 0.5; each
     * neuron has its own generator.
     */
    constructor (brojUlaza: nat, aktivacija: real -> real, derivacija: real -> real, nasumicno: nat -> Draw)
      ensures Jedinica() == PocetnaJedinica(nasumicno, brojUlaza, aktivacija)
      ensures this.derivacija == derivacija
      ensures fresh(Tezine)
      ensures Output == 0.0 && Delta == 0.0
    {
      var t := new real[brojUlaza];
      var i := 0;
      while i < brojUlaza
        invariant 0 <= i <= brojUlaza
        invariant forall k :: 0 <= k < i ==> t[k] == nasumicno(k) - 0.5
      {
        t[i] := nasumicno(i) - 0.5;
        i := i + 1;
      }
      Tezine := t;
      Bias := nasumicno(brojUlaza) - 0.5;
      this.aktivacija := aktivacija;
      this.derivacija := derivacija;
      Output := 0.0;
      Delta := 0.0;
      new;
      assert Tezine[..] == PocetneTezine(nasumicno, brojUlaza);
    }

    /** Computes and caches the output on an input no wider than the weights. */
    method Izracunaj(ulazi: seq<real>) returns (r: real)
      requires |ulazi| <= Tezine.Length
      modifies this`Output
      ensures r == Output == Izlaz(Jedinica(), ulazi)
    {
      var suma := 0.0;
      var i := 0;
      while i < |ulazi|
        invariant 0 <= i <= |ulazi|
        invariant suma == Dot(ulazi[..i], Tezine[..])
      {
        assert ulazi[..i + 1][..i] == ulazi[..i];
        suma := suma + ulazi[i] * Tezine[i];
        i := i + 1;
      }
      assert ulazi[..i] == ulazi;
      suma := suma + Bias;
      Output := aktivacija(suma);
      r := Output;
    }

    /** Output-layer delta: the error times the derivative at the cached output. */
    method IzracunajDeltaIzlazni(ciljnaVrijednost: real)
      modifies this`Delta
      ensures Delta == DeltaIzlazni(ciljnaVrijednost, Output, derivacija(Output))
    {
      var greska := ciljnaVrijednost - Output;
      Delta := greska * derivacija(Output);
    }

    /**
     * Hidden-layer delta: the next layer's weights on this neuron times their
     * deltas, summed, times the derivative at the cached output.
     */
    method IzracunajDeltaSkriveni(tezineSljedecihNeurona: seq<real>, deltaSljedecihNeurona: seq<real>)
      requires |tezineSljedecihNeurona| <= |deltaSljedecihNeurona|
      modifies this`Delta
      ensures Delta == Dot(tezineSljedecihNeurona, deltaSljedecihNeurona) * derivacija(Output)
    {
      var suma := 0.0;
      var i := 0;
      while i < |tezineSljedecihNeurona|
        invariant 0 <= i <= |tezineSljedecihNeurona|
        invariant suma == Dot(tezineSljedecihNeurona[..i], deltaSljedecihNeurona)
      {
        assert tezineSljedecihNeurona[..i + 1][..i] == tezineSljedecihNeurona[..i];
        suma := suma + tezineSljedecihNeurona[i] * deltaSljedecihNeurona[i];
        i := i + 1;
      }
      assert tezineSljedecihNeurona[..i] == tezineSljedecihNeurona;
      Delta := suma * derivacija(Output);
    }

    /** One gradient step of size ucenjeRate * Delta on every weight and on the bias. */
    method AzurirajTezine(ulazi: seq<real>, ucenjeRate: real)
      requires |ulazi| >= Tezine.Length
      modifies Tezine, this`Bias
      ensures Jedinica() == Azurirano(old(Jedinica()), ulazi, old(ucenjeRate * Delta))
    {
      // ucenjeRate * Delta * ulazi[i] multiplies left to right: the step is ucenjeRate * Delta.
      var korak := ucenjeRate * Delta;
      var i := 0;
      while i < Tezine.Length
        invariant 0 <= i <= Tezine.Length
        invariant forall k :: 0 <= k < i ==> Tezine[k] == old(Tezine[k]) + korak * ulazi[k]
        invariant forall k :: i <= k < Tezine.Length ==> Tezine[k] == old(Tezine[k])
        invariant Bias == old(Bias)
      {
        Tezine[i] := Tezine[i] + korak * ulazi[i];
        i := i + 1;
      }
      Bias := Bias + korak;
      forall k | 0 <= k < Tezine.Length
        ensures Tezine[..][k] == Korak(old(Tezine[..]), ulazi, korak)[k]
      {
      }
      assert Tezine[..] == Korak(old(Tezine[..]), ulazi, korak);
      assert old(Jedinica()) == NetworkSpec.Jedinica(old(Tezine[..]), old(Bias), aktivacija);
    }
  }

  /** The output-layer delta: the error (target minus output) times the derivative. */
  function DeltaIzlazni(ciljnaVrijednost: real, output: real, derivacija: real): real
  {
    (ciljnaVrijednost - output) * derivacija
  }

  /**
   * With a derivative that is positive at the output, the output delta has
   * the sign of the error: positive when the target is above the output,
   * negative when below, zero when equal.
   */
  lemma DeltaImaZnakGreske(ciljnaVrijednost: real, output: real, derivacija: real)
    requires derivacija > 0.0
    ensures DeltaIzlazni(ciljnaVrijednost, output, derivacija) > 0.0 <==> ciljnaVrijednost > output
    ensures DeltaIzlazni(ciljnaVrijednost, output, derivacija) < 0.0 <==> ciljnaVrijednost < output
  {
    if ciljnaVrijednost > output {
      assert (ciljnaVrijednost - output) * derivacija > 0.0;
    } else if ciljnaVrijednost < output {
      assert (output - ciljnaVrijednost) * derivacija > 0.0;
    }
  }

  /**
   * An output delta followed by a weight update with a positive rate, on an
   * input as wide as the weights, moves the weighted sum towards the target:
   * up when the target is above the output, down when it is below.
   */
  lemma KorakPremaCilju(u: Jedinica, x: seq<real>, ciljnaVrijednost: real, output: real,
                        derivacija: real, ucenjeRate: real)
    requires |x| == |u.tezine| && ucenjeRate > 0.0 && derivacija > 0.0
    ensures ciljnaVrijednost > output ==>
      Suma(Azurirano(u, x, ucenjeRate * DeltaIzlazni(ciljnaVrijednost, output, derivacija)), x) > Suma(u, x)
    ensures ciljnaVrijednost < output ==>
      Suma(Azurirano(u, x, ucenjeRate * DeltaIzlazni(ciljnaVrijednost, output, derivacija)), x) < Suma(u, x)
    ensures ciljnaVrijednost == output ==>
      Azurirano(u, x, ucenjeRate * DeltaIzlazni(ciljnaVrijednost, output, derivacija)) == u
  {
    var delta := DeltaIzlazni(ciljnaVrijednost, output, derivacija);
    var s := ucenjeRate * delta;
    assert s == ucenjeRate * DeltaIzlazni(ciljnaVrijednost, output, derivacija);
    DeltaImaZnakGreske(ciljnaVrijednost, output, derivacija);
    KorakPomjeraSumu(u, x, s);
    if ciljnaVrijednost > output {
      assert delta > 0.0;
      assert s > 0.0;
      assert Suma(Azurirano(u, x, s), x) > Suma(u, x);
    } else if ciljnaVrijednost < output {
      assert -delta > 0.0;
      assert -s == ucenjeRate * -delta;
      assert s < 0.0;
      assert Suma(Azurirano(u, x, s), x) < Suma(u, x);
    } else {
      assert ucenjeRate * delta == 0.0;
      AzuriranoNula(u, x);
    }
  }
}
