/**
 * The layer list shared by MLPKlasifikatorMreza.cs and MLPKlasifikator.cs:
 * how it is built (each layer's width is the next layer's input width), how
 * an input is passed through it, and the network class MLPKlasifikatorMreza.
 */
module MLPNetwork {
  import opened Common
  import opened Activations
  import opened NetworkSpec
  import opened Neurons
  import opened Layers

  /** The neurons of all the layers. */
  function NeuroniOf(s: seq<Layer>): set<Neuron>
    reads s
  {
    set i, j | 0 <= i < |s| && 0 <= j < |s[i].Neuroni| :: s[i].Neuroni[j]
  }

  /** The weight arrays of all the neurons. */
  function NizoviOf(s: seq<Layer>): set<array<real>>
    reads s, NeuroniOf(s)
  {
    set n | n in NeuroniOf(s) :: n.Tezine
  }

  /** The network as a value: layer by layer, neuron by neuron. */
  function Mreza(s: seq<Layer>): (m: seq<Sloj>)
    reads s, NeuroniOf(s), NizoviOf(s)
    ensures |m| == |s|
  {
    seq(|s|, i requires 0 <= i < |s| reads s, NeuroniOf(s), NizoviOf(s) => s[i].Jedinice())
  }

  /** Every layer is valid and no neuron belongs to two layers. */
  ghost predicate Slozeno(s: seq<Layer>)
    reads s
  {
    (forall i :: 0 <= i < |s| ==> s[i].Valid()) &&
    forall i, k {:trigger Razdvojene(s[i].Neuroni, s[k].Neuroni)} :: 0 <= i < k < |s| ==>
      Razdvojene(s[i].Neuroni, s[k].Neuroni)
  }

  /** No neuron is in both lists. */
  predicate Razdvojene(a: seq<Neuron>, b: seq<Neuron>)
  {
    forall n :: n in a ==> n !in b
  }

  /**
   * The constructor loop: one layer per hidden width, each taking the previous
   * width as its input width, then the output layer. Layer i draws from
   * nasumicno(i, _, _).
   */
  method IzgradiSlojeve(brojUlaza: nat, skriveniSlojevi: seq<nat>, brojIzlaza: nat,
                        skrivena: real -> real, derivacijaSkrivena: real -> real,
                        izlazna: real -> real, derivacijaIzlazna: real -> real,
                        nasumicno: (nat, nat, nat) -> Draw)
    returns (s: seq<Layer>)
    ensures Slozeno(s)
    ensures Mreza(s) == PocetnaMreza(nasumicno, Sirine(brojUlaza, skriveniSlojevi, brojIzlaza), skrivena, izlazna)
  {
    ghost var sirine := Sirine(brojUlaza, skriveniSlojevi, brojIzlaza);
    ghost var cilj := PocetnaMreza(nasumicno, sirine, skrivena, izlazna);
    s := [];
    var prethodniBroj := brojUlaza;
    var i := 0;
    while i < |skriveniSlojevi|
      invariant 0 <= i <= |skriveniSlojevi| && |s| == i
      invariant prethodniBroj == sirine[i]
      invariant Slozeno(s) && Mreza(s) == cilj[..i]
    {
      assert sirine[i + 1] == skriveniSlojevi[i];
      assert cilj[..i + 1] == cilj[..i] + [cilj[i]];
      s := DodajSloj(s, skriveniSlojevi[i], prethodniBroj, skrivena, derivacijaSkrivena,
                     LayerDraws(nasumicno, i));
      prethodniBroj := skriveniSlojevi[i];
      i := i + 1;
    }
    assert cilj == cilj[..i] + [cilj[i]];
    s := DodajSloj(s, brojIzlaza, prethodniBroj, izlazna, derivacijaIzlazna, LayerDraws(nasumicno, i));
  }

  /**
   * `Slojevi.Add(new Layer(...))`: a new layer at the end of the list; the
   * layers already there keep their values and share no neuron with it.
   */
  method DodajSloj(s: seq<Layer>, brojNeurona: nat, brojUlaza: nat, aktivacija: real -> real,
                   derivacija: real -> real, nasumicno: (nat, nat) -> Draw)
    returns (t: seq<Layer>)
    requires Slozeno(s)
    ensures Slozeno(t) && |t| == |s| + 1 && t[..|s|] == s
    ensures Mreza(t) == old(Mreza(s)) + [PocetniSloj(nasumicno, brojNeurona, brojUlaza, aktivacija)]
  {
    var sloj := new Layer(brojNeurona, brojUlaza, aktivacija, derivacija, nasumicno);
    forall k | 0 <= k < |s|
      ensures s[k].Jedinice() == old(s[k].Jedinice())
    {
      assert forall j :: 0 <= j < |s[k].Neuroni| ==> s[k].Neuroni[j].Jedinica() == old(s[k].Neuroni[j].Jedinica());
    }
    MrezaPoSlojevima(s, old(Mreza(s)));
    assert forall n :: n in sloj.Neuroni ==> n !in NeuroniOf(s);
    Dodano(s, sloj);
    DodanoSlozeno(s, sloj);
    t := s + [sloj];
    assert t[..|s|] == s;
  }

  /**
   * The prediction loop: each layer's output is the next layer's input. The
   * weights and biases stay as they were; every neuron caches its output.
   */
  method Propagiraj(s: seq<Layer>, ulazi: seq<real>) returns (izlaz: seq<real>)
    requires Slozeno(s) && Ulancano(Mreza(s), |ulazi|)
    modifies NeuroniOf(s)
    ensures izlaz == Naprijed(old(Mreza(s)), ulazi)
    ensures Slozeno(s) && Mreza(s) == old(Mreza(s))
    ensures Izlazi(s) == IzlaziSlojeva(old(Mreza(s)), ulazi)
    ensures Delte(s) == old(Delte(s))
  {
    ghost var m := Mreza(s);
    ghost var d := Delte(s);
    ghost var a := IzlaziSlojeva(m, ulazi);
    izlaz := ulazi;
    var i := 0;
    while i < |s|
      invariant 0 <= i <= |s|
      invariant Prolaz(s, m, d, a, i) && izlaz == if i == 0 then ulazi else a[i - 1]
    {
      IzlaziSlojevaLanac(m, ulazi, i);
      izlaz := ProlazSloj(s, m, d, a, i, izlaz);
      i := i + 1;
    }
    MrezaPoSlojevima(s, m);
    DeltePoSlojevima(s, d);
    IzlaziPoSlojevima(s, a);
  }

  /**
   * The prediction loop after i layers: the weights and deltas are still m
   * and d, and each of the first i layers caches its entry of a.
   */
  ghost predicate Prolaz(s: seq<Layer>, m: seq<Sloj>, d: seq<seq<real>>, a: seq<seq<real>>, i: nat)
    reads s, NeuroniOf(s), NizoviOf(s)
  {
    |m| == |s| && |d| == |s| && |a| == |s| && i <= |s| &&
    (forall k :: 0 <= k < |s| ==> s[k].Jedinice() == m[k] && s[k].Delte() == d[k]) &&
    forall k :: 0 <= k < i ==> s[k].Izlazi() == a[k]
  }

  /** One pass of the prediction loop: layer i computes its entry of a from its input. */
  method ProlazSloj(s: seq<Layer>, ghost m: seq<Sloj>, ghost d: seq<seq<real>>, ghost a: seq<seq<real>>,
                    i: nat, ulazi: seq<real>) returns (r: seq<real>)
    requires Slozeno(s) && i < |s| && Prolaz(s, m, d, a, i)
    requires Prima(m[i], |ulazi|) && a[i] == SlojIzlaz(m[i], ulazi)
    modifies NeuroniOf(s)
    ensures Prolaz(s, m, d, a, i + 1) && r == a[i]
  {
    SlojUMrezi(s, i);
    r := IzracunajSloj(s, i, ulazi);
  }

  /**
   * One step of the prediction loop: layer i computes; every layer keeps its
   * weights and deltas, and the other layers keep their cached outputs.
   */
  method IzracunajSloj(s: seq<Layer>, i: nat, ulazi: seq<real>) returns (r: seq<real>)
    requires Slozeno(s) && i < |s| && Prima(s[i].Jedinice(), |ulazi|)
    modifies s[i].Neuroni
    ensures r == SlojIzlaz(old(s[i].Jedinice()), ulazi)
    ensures forall k :: 0 <= k < |s| ==> s[k].Jedinice() == old(s[k].Jedinice())
    ensures s[i].Izlazi() == r
    ensures forall k :: 0 <= k < |s| && k != i ==> s[k].Izlazi() == old(s[k].Izlazi())
    ensures forall k :: 0 <= k < |s| ==> s[k].Delte() == old(s[k].Delte())
  {
    r := s[i].Izracunaj(ulazi);
    forall k | 0 <= k < |s| && k != i
      ensures s[k].Jedinice() == old(s[k].Jedinice())
      ensures s[k].Delte() == old(s[k].Delte())
      ensures s[k].Izlazi() == old(s[k].Izlazi())
    {
      Razdvojeni(s, i, k);
      assert forall j :: 0 <= j < |s[k].Neuroni| ==> s[k].Neuroni[j] in s[k].Neuroni;
    }
    assert s[i].Delte() == old(s[i].Delte());
    assert s[i].Izlazi() == r;
  }

  /** Every neuron's cached output, layer by layer. */
  function Izlazi(s: seq<Layer>): (o: seq<seq<real>>)
    reads s, NeuroniOf(s)
    ensures |o| == |s|
  {
    seq(|s|, i requires 0 <= i < |s| reads s, NeuroniOf(s) => s[i].Izlazi())
  }

  /** The network's outputs are the sequence of its layers' outputs. */
  lemma IzlaziPoSlojevima(s: seq<Layer>, o: seq<seq<real>>)
    requires |o| == |s| && forall k :: 0 <= k < |s| ==> s[k].Izlazi() == o[k]
    ensures Izlazi(s) == o
  {
  }

  /** Every neuron's cached delta, layer by layer. */
  function Delte(s: seq<Layer>): (d: seq<seq<real>>)
    reads s, NeuroniOf(s)
    ensures |d| == |s|
  {
    seq(|s|, i requires 0 <= i < |s| reads s, NeuroniOf(s) => s[i].Delte())
  }

  /** The network's deltas are the sequence of its layers' deltas. */
  lemma DeltePoSlojevima(s: seq<Layer>, d: seq<seq<real>>)
    requires |d| == |s| && forall k :: 0 <= k < |s| ==> s[k].Delte() == d[k]
    ensures Delte(s) == d
  {
  }

  /** The network value is the sequence of its layers' values. */
  lemma MrezaPoSlojevima(s: seq<Layer>, m: seq<Sloj>)
    requires |m| == |s| && forall k :: 0 <= k < |s| ==> s[k].Jedinice() == m[k]
    ensures Mreza(s) == m
  {
  }

  /** Layer i's neurons are neurons of the network. */
  lemma SlojUMrezi(s: seq<Layer>, i: nat)
    requires i < |s|
    ensures forall n :: n in s[i].Neuroni ==> n in NeuroniOf(s)
  {
    forall n | n in s[i].Neuroni
      ensures n in NeuroniOf(s)
    {
      var j :| 0 <= j < |s[i].Neuroni| && s[i].Neuroni[j] == n;
    }
  }

  /** Two different layers share no neuron. */
  lemma Razdvojeni(s: seq<Layer>, i: nat, k: nat)
    requires Slozeno(s) && i < |s| && k < |s| && i != k
    ensures forall n :: n in s[k].Neuroni ==> n !in s[i].Neuroni
  {
    if i < k {
      assert Razdvojene(s[i].Neuroni, s[k].Neuroni);
    } else {
      assert Razdvojene(s[k].Neuroni, s[i].Neuroni);
    }
  }

  /** Appending a layer appends its value to the network value and its neurons to the network's. */
  lemma Dodano(s: seq<Layer>, sloj: Layer)
    ensures Mreza(s + [sloj]) == Mreza(s) + [sloj.Jedinice()]
    ensures forall n :: n in NeuroniOf(s + [sloj]) <==> n in NeuroniOf(s) || n in sloj.Neuroni
  {
    var t := s + [sloj];
    assert forall k :: 0 <= k < |s| ==> t[k] == s[k];
    forall n | n in NeuroniOf(t)
      ensures n in NeuroniOf(s) || n in sloj.Neuroni
    {
      var i, j :| 0 <= i < |t| && 0 <= j < |t[i].Neuroni| && t[i].Neuroni[j] == n;
    }
    forall n | n in sloj.Neuroni
      ensures n in NeuroniOf(t)
    {
      var j :| 0 <= j < |sloj.Neuroni| && sloj.Neuroni[j] == n;
      assert t[|s|].Neuroni[j] == n;
    }
  }

  /** A valid layer that shares no neuron with the network can be appended to it. */
  lemma DodanoSlozeno(s: seq<Layer>, sloj: Layer)
    requires Slozeno(s) && sloj.Valid()
    requires forall n :: n in sloj.Neuroni ==> n !in NeuroniOf(s)
    ensures Slozeno(s + [sloj])
  {
    var t := s + [sloj];
    forall i, k | 0 <= i < k < |t|
      ensures Razdvojene(t[i].Neuroni, t[k].Neuroni)
    {
      if k == |s| {
        forall n | n in t[i].Neuroni
          ensures n !in sloj.Neuroni
        {
          var j :| 0 <= j < |t[i].Neuroni| && t[i].Neuroni[j] == n;
          assert s[i].Neuroni[j] in NeuroniOf(s);
        }
      } else {
        assert Razdvojene(s[i].Neuroni, s[k].Neuroni);
      }
    }
  }

  /** MLPKlasifikatorMreza.cs: a network and whether Softmax follows its last layer. */
  class MLPKlasifikatorMreza {
    var Slojevi: seq<Layer>
    const koristiSoftmaxNaIzlazu: bool
    const exp: ExpFn

    ghost predicate Valid()
      reads this, Slojevi
    {
      Slozeno(Slojevi)
    }

    /**
     * Hidden layers use ReLU; the output layer is Linear when Softmax follows
     * it and Sigmoid otherwise.
     */
    constructor (brojUlaza: nat, skriveniSlojevi: seq<nat>, brojIzlaza: nat, koristiSoftmax: bool := false,
                 exp: ExpFn, derivacijaSkrivena: real -> real, derivacijaIzlazna: real -> real,
                 nasumicno: (nat, nat, nat) -> Draw)
      ensures Valid() && koristiSoftmaxNaIzlazu == koristiSoftmax && this.exp == exp
      ensures Mreza(Slojevi) == PocetnaMreza(nasumicno, Sirine(brojUlaza, skriveniSlojevi, brojIzlaza), ReLU,
                                             IzlaznaAktivacija(koristiSoftmax, exp))
    {
      koristiSoftmaxNaIzlazu := koristiSoftmax;
      this.exp := exp;
      var izlazna := IzlaznaAktivacija(koristiSoftmax, exp);
      var slojevi := IzgradiSlojeve(brojUlaza, skriveniSlojevi, brojIzlaza, ReLU, derivacijaSkrivena,
                                    izlazna, derivacijaIzlazna, nasumicno);
      Slojevi := slojevi;
      label Izgradjeno:
      new;
      forall k | 0 <= k < |slojevi|
        ensures slojevi[k].Jedinice() == old@Izgradjeno(slojevi[k].Jedinice())
      {
        assert forall j :: 0 <= j < |slojevi[k].Neuroni| ==>
          slojevi[k].Neuroni[j].Jedinica() == old@Izgradjeno(slojevi[k].Neuroni[j].Jedinica());
      }
      MrezaPoSlojevima(slojevi, old@Izgradjeno(Mreza(slojevi)));
    }

    /** The forward pass, then Softmax when the network was built for it. */
    method Predikcija(ulazi: seq<real>) returns (r: Result<seq<real>>)
      requires Valid() && Ulancano(Mreza(Slojevi), |ulazi|)
      modifies NeuroniOf(Slojevi)
      ensures r == IzlazMreze(old(Mreza(Slojevi)), ulazi, koristiSoftmaxNaIzlazu, exp)
      ensures Valid() && Mreza(Slojevi) == old(Mreza(Slojevi))
      ensures Izlazi(Slojevi) == IzlaziSlojeva(old(Mreza(Slojevi)), ulazi)
      ensures Delte(Slojevi) == old(Delte(Slojevi))
    {
      ghost var m := Mreza(Slojevi);
      var izlaz := Propagiraj(Slojevi, ulazi);
      r := if koristiSoftmaxNaIzlazu then Softmax(exp, izlaz) else Ok(izlaz);
      assert r == IzlazMreze(m, ulazi, koristiSoftmaxNaIzlazu, exp);
    }
  }

  /** The output activation MLPKlasifikatorMreza chooses. */
  function IzlaznaAktivacija(koristiSoftmax: bool, exp: ExpFn): real -> real
  {
    if koristiSoftmax then Linear else SigmoidWith(exp)
  }
}
