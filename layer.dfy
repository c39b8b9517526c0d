/**
 * Layer.cs: a layer is the list of its neurons. Computing it runs every
 * neuron on the same input, in order, and each neuron caches its output.
 */
module Layers {
  import opened Common
  import opened NetworkSpec
  import opened Neurons

  class Layer {
    var Neuroni: seq<Neuron>

    /** No neuron appears twice in the layer. */
    ghost predicate Valid()
      reads this
    {
      Distinct(Neuroni)
    }

    /** The weight arrays of the layer's neurons. */
    function Nizovi(): set<array<real>>
      reads this, Neuroni
    {
      set n | n in Neuroni :: n.Tezine
    }

    /** The layer as a value: the neurons' weights, biases and activations, in order. */
    function Jedinice(): (s: Sloj)
      reads this, Neuroni, Nizovi()
      ensures |s| == |Neuroni|
    {
      seq(|Neuroni|, j requires 0 <= j < |Neuroni| reads this, Neuroni, Nizovi() => Neuroni[j].Jedinica())
    }

    /** The outputs the neurons cache from the last computation, in order. */
    function Izlazi(): (o: seq<real>)
      reads this, Neuroni
      ensures |o| == |Neuroni|
    {
      seq(|Neuroni|, j requires 0 <= j < |Neuroni| reads this, Neuroni => Neuroni[j].Output)
    }

    /** The deltas the neurons cache for training, in order. */
    function Delte(): (d: seq<real>)
      reads this, Neuroni
      ensures |d| == |Neuroni|
    {
      seq(|Neuroni|, j requires 0 <= j < |Neuroni| reads this, Neuroni => Neuroni[j].Delta)
    }

    /**
     * brojNeurona new neurons with brojUlazaPoNeuronu weights each; neuron j
     * takes its draws from nasumicno(j, _).
     */
    constructor (brojNeurona: nat, brojUlazaPoNeuronu: nat, aktivacija: real -> real,
                 derivacija: real -> real, nasumicno: (nat, nat) -> Draw)
      ensures Valid()
      ensures Jedinice() == PocetniSloj(nasumicno, brojNeurona, brojUlazaPoNeuronu, aktivacija)
      ensures forall n :: n in Neuroni ==>
        fresh(n) && fresh(n.Tezine) && n.derivacija == derivacija && n.Output == 0.0 && n.Delta == 0.0
    {
      Neuroni := [];
      new;
      var i := 0;
      while i < brojNeurona
        invariant 0 <= i <= brojNeurona
        invariant |Neuroni| == i && Valid()
        invariant forall n :: n in Neuroni ==>
          fresh(n) && fresh(n.Tezine) && n.derivacija == derivacija && n.Output == 0.0 && n.Delta == 0.0
        invariant Jedinice() == PocetniSloj(nasumicno, i, brojUlazaPoNeuronu, aktivacija)
      {
        ghost var prije := Jedinice();
        var n := new Neuron(brojUlazaPoNeuronu, aktivacija, derivacija, NeuronDraws(nasumicno, i));
        Neuroni := Neuroni + [n];
        forall k | 0 <= k < i + 1
          ensures Jedinice()[k] == PocetniSloj(nasumicno, i + 1, brojUlazaPoNeuronu, aktivacija)[k]
        {
          assert Jedinice()[k] == Neuroni[k].Jedinica();
          if k < i {
            assert Neuroni[k].Jedinica() == prije[k];
          }
        }
        i := i + 1;
      }
    }

    /** Runs every neuron on the input, in order; neuron j's output is element j. */
    method Izracunaj(ulazi: seq<real>) returns (r: seq<real>)
      requires Valid() && Prima(Jedinice(), |ulazi|)
      modifies Neuroni
      ensures r == SlojIzlaz(old(Jedinice()), ulazi)
      ensures Jedinice() == old(Jedinice())
      ensures forall j :: 0 <= j < |Neuroni| ==> Neuroni[j].Output == r[j]
      ensures forall j :: 0 <= j < |Neuroni| ==>
        Neuroni[j].Tezine == old(Neuroni[j].Tezine) && Neuroni[j].Bias == old(Neuroni[j].Bias) &&
        Neuroni[j].Delta == old(Neuroni[j].Delta)
    {
      r := [];
      var j := 0;
      while j < |Neuroni|
        invariant 0 <= j <= |Neuroni| && |r| == j
        invariant forall k :: 0 <= k < |Neuroni| ==>
          Neuroni[k].Tezine == old(Neuroni[k].Tezine) && Neuroni[k].Bias == old(Neuroni[k].Bias) &&
          Neuroni[k].Delta == old(Neuroni[k].Delta)
        invariant forall k :: 0 <= k < j ==> Neuroni[k].Output == r[k] && r[k] == Izlaz(old(Jedinice())[k], ulazi)
      {
        assert Neuroni[j].Jedinica() == old(Jedinice())[j];
        var o := Neuroni[j].Izracunaj(ulazi);
        r := r + [o];
        j := j + 1;
      }
      forall k | 0 <= k < |Neuroni|
        ensures Jedinice()[k] == old(Jedinice())[k]
      {
        assert Jedinice()[k] == Neuroni[k].Jedinica();
      }
    }
  }
}
