/**
 * RandomForestKlasifikator.cs: each tree is trained on a bootstrap sample
 * of the rows and on a random choice of the attributes followed by the
 * target; a prediction is the majority of the trees' votes.
 *
 * The decision tree itself is not part of this model: a tree stands for the
 * data set it is trained on, and a prediction takes the trees' votes. The
 * generator is supplied: `Random.Next(n)` is the floor of n times a draw in
 * [0, 1), and the `OrderBy(_ => Next())` shuffle is a supplied permutation.
 */
module RandomForest {
  import opened Common
  import opened DataContract
  import NetworkSpec

  type Draw = NetworkSpec.Draw

  /** The members of the data set the forest reads: history, rows, attributes, target name. */
  datatype Skup = Skup(historija: seq<string>, podaci: seq<RedPodatka>, atributi: seq<AtributMeta>,
                       ciljnaKolona: string)

  /** RandomForestParametri: the number of trees and, when set, how many attributes each tree sees. */
  datatype RandomForestParametri = RandomForestParametri(brojStabala: int, brojAtributa: Option<int>)

  /** The parameters a RandomForestParametri starts with: ten trees, all attributes. */
  const PodrazumijevaniParametri := RandomForestParametri(10, None)

  /** `Random.Next(n)`: the draw scaled to [0, n) and truncated. */
  function Indeks(r: Draw, n: nat): (k: nat)
    requires n > 0
    ensures k < n
  {
    var x := r * (n as real);
    assert 0.0 <= x < n as real by {
      assert (1.0 - r) * (n as real) > 0.0;
    }
    x.Floor
  }

  /** The bootstrap sample: draw j picks row `Indeks(g(j), n)`, n times. */
  function BootstrapUzorak(podaci: seq<RedPodatka>, g: nat -> Draw): (b: seq<RedPodatka>)
    ensures |b| == |podaci|
    ensures forall j :: 0 <= j < |b| ==> b[j] in podaci
  {
    var b := seq(|podaci|, j requires 0 <= j < |podaci| => podaci[Indeks(g(j), |podaci|)]);
    assert forall j :: 0 <= j < |b| ==> b[j] == podaci[Indeks(g(j), |podaci|)];
    b
  }

  /** The inner loop: one drawn row appended per row of the data set. */
  method Bootstrap(podaci: seq<RedPodatka>, g: nat -> Draw) returns (b: seq<RedPodatka>)
    ensures b == BootstrapUzorak(podaci, g)
  {
    b := [];
    for j := 0 to |podaci|
      invariant b == BootstrapUzorak(podaci, g)[..j]
    {
      var randomIndex := Indeks(g(j), |podaci|);
      b := b + [podaci[randomIndex]];
    }
  }

  /** `First(x => x.Naziv == naziv)`: the first attribute with that name; none throws. */
  function PrviSNazivom(atributi: seq<AtributMeta>, naziv: string): (r: Option<AtributMeta>)
    ensures r.None? <==> forall i :: 0 <= i < |atributi| ==> atributi[i].naziv != naziv
    ensures r.Some? ==> exists k :: 0 <= k < |atributi| && atributi[k] == r.value && r.value.naziv == naziv &&
                                    forall i :: 0 <= i < k ==> atributi[i].naziv != naziv
  {
    if atributi == [] then None
    else if atributi[0].naziv == naziv then Some(atributi[0])
    else
      var r := PrviSNazivom(atributi[1..], naziv);
      assert forall i :: 0 < i < |atributi| ==> atributi[i] == atributi[1..][i - 1];
      r
  }

  /** The attributes used by the model. */
  predicate Koristi(a: AtributMeta)
  {
    a.koristiZaModel
  }

  /** Whether a shuffle order fits the used attributes, when a count is set. */
  predicate PoredakPrikladan(atributi: seq<AtributMeta>, brojAtributa: Option<int>, poredak: seq<nat>)
  {
    brojAtributa.Some? ==> IsPermutation(poredak, |Filter(Koristi, atributi)|)
  }

  /**
   * A tree's attributes: the used attributes, shuffled and cut to the count
   * when one is set, followed by the target.
   */
  function AtributiStabla(atributi: seq<AtributMeta>, brojAtributa: Option<int>, poredak: seq<nat>,
                          cilj: AtributMeta): (r: seq<AtributMeta>)
    requires PoredakPrikladan(atributi, brojAtributa, poredak)
    ensures |r| > 0 && r[|r| - 1] == cilj
    ensures brojAtributa.None? ==> r[..|r| - 1] == Filter(Koristi, atributi)
    ensures brojAtributa.Some? ==> |r| - 1 == Clamp(brojAtributa.value, |Filter(Koristi, atributi)|)
    ensures multiset(r[..|r| - 1]) <= multiset(Filter(Koristi, atributi))
    ensures forall i :: 0 <= i < |r| - 1 ==> r[i] in atributi && r[i].koristiZaModel
  {
    var izabrani := Izabrani(atributi, brojAtributa, poredak);
    var r := izabrani + [cilj];
    assert r[..|r| - 1] == izabrani;
    r
  }

  /** The used attributes, shuffled and cut to the count when one is set. */
  function Izabrani(atributi: seq<AtributMeta>, brojAtributa: Option<int>, poredak: seq<nat>): (r: seq<AtributMeta>)
    requires PoredakPrikladan(atributi, brojAtributa, poredak)
    ensures brojAtributa.None? ==> r == Filter(Koristi, atributi)
    ensures brojAtributa.Some? ==> |r| == Clamp(brojAtributa.value, |Filter(Koristi, atributi)|)
    ensures multiset(r) <= multiset(Filter(Koristi, atributi))
    ensures forall i :: 0 <= i < |r| ==> r[i] in atributi && r[i].koristiZaModel
  {
    var koristeni := Filter(Koristi, atributi);
    if brojAtributa.Some? then
      IzborIzKoristenih(koristeni, poredak, brojAtributa.value);
      Take(Permute(koristeni, poredak), brojAtributa.value)
    else koristeni
  }

  /** A prefix of a shuffle takes each element at most as often as the list holds it. */
  lemma IzborIzKoristenih(koristeni: seq<AtributMeta>, poredak: seq<nat>, k: int)
    requires IsPermutation(poredak, |koristeni|)
    ensures multiset(Take(Permute(koristeni, poredak), k)) <= multiset(koristeni)
    ensures forall i :: 0 <= i < |Take(Permute(koristeni, poredak), k)| ==>
      Take(Permute(koristeni, poredak), k)[i] in koristeni
  {
    var p := Permute(koristeni, poredak);
    var izabrani := Take(p, k);
    PermuteMultiset(koristeni, poredak);
    assert p == izabrani + p[|izabrani|..];
    assert multiset(p) == multiset(izabrani) + multiset(p[|izabrani|..]);
    forall i | 0 <= i < |izabrani|
      ensures izabrani[i] in koristeni
    {
      assert izabrani[i] == koristeni[poredak[i]];
    }
  }

  /** The data set tree i is trained on. */
  function Podskup(skup: Skup, brojAtributa: Option<int>, g: nat -> Draw, poredak: seq<nat>,
                   cilj: AtributMeta): (p: Skup)
    requires PoredakPrikladan(skup.atributi, brojAtributa, poredak)
    ensures p.ciljnaKolona == skup.ciljnaKolona
  {
    Skup(skup.historija + ["bootstrap sampling"], BootstrapUzorak(skup.podaci, g),
         AtributiStabla(skup.atributi, brojAtributa, poredak, cilj), skup.ciljnaKolona)
  }

  /** The draws of tree i. */
  function DrawsStabla(g: (nat, nat) -> Draw, i: nat): nat -> Draw
  {
    j => g(i, j)
  }

  /** Every tree's shuffle order fits the used attributes. */
  ghost predicate PoredciPrikladni(skup: Skup, parametri: RandomForestParametri, poredci: nat -> seq<nat>)
  {
    forall i :: PoredakPrikladan(skup.atributi, parametri.brojAtributa, poredci(i))
  }

  /**
   * The training sets of the trees, in order. A null data set or null
   * parameters throw ArgumentNullException; with at least one tree, a target
   * name that no attribute carries makes `First` throw.
   */
  function SkupoviStabala(podaci: Option<Skup>, parametri: Option<RandomForestParametri>,
                g: (nat, nat) -> Draw, poredci: nat -> seq<nat>): (r: Result<seq<Skup>>)
    requires podaci.Some? && parametri.Some? ==> PoredciPrikladni(podaci.value, parametri.value, poredci)
    ensures r.Err? <==>
      (podaci.None? || parametri.None? ||
       (parametri.value.brojStabala > 0 && PrviSNazivom(podaci.value.atributi, podaci.value.ciljnaKolona).None?))
    ensures r.Err? ==> r.greska == if podaci.None? || parametri.None? then ArgumentNull else InvalidOperation
    ensures r.Ok? ==> |r.value| == if parametri.value.brojStabala > 0 then parametri.value.brojStabala else 0
  {
    if podaci.None? || parametri.None? then Err(ArgumentNull)
    else
      var skup := podaci.value;
      var n: nat := if parametri.value.brojStabala > 0 then parametri.value.brojStabala else 0;
      if n == 0 then Ok([])
      else match PrviSNazivom(skup.atributi, skup.ciljnaKolona)
        case None => Err(InvalidOperation)
        case Some(cilj) =>
          Ok(seq(n, i requires 0 <= i < n =>
            Podskup(skup, parametri.value.brojAtributa, DrawsStabla(g, i), poredci(i), cilj)))
  }

  /** What every tree's training set keeps from the data set. */
  lemma StabloOdSkupa(podaci: Option<Skup>, parametri: Option<RandomForestParametri>,
                      g: (nat, nat) -> Draw, poredci: nat -> seq<nat>, i: nat)
    requires podaci.Some? && parametri.Some? && PoredciPrikladni(podaci.value, parametri.value, poredci)
    requires SkupoviStabala(podaci, parametri, g, poredci).Ok? && i < |SkupoviStabala(podaci, parametri, g, poredci).value|
    ensures var t := SkupoviStabala(podaci, parametri, g, poredci).value[i];
      var skup := podaci.value;
      |t.podaci| == |skup.podaci| &&
      (forall j :: 0 <= j < |t.podaci| ==> t.podaci[j] in skup.podaci) &&
      t.ciljnaKolona == skup.ciljnaKolona &&
      t.atributi[|t.atributi| - 1].naziv == skup.ciljnaKolona &&
      t.atributi[|t.atributi| - 1] in skup.atributi &&
      (parametri.value.brojAtributa.None? ==> t.atributi[..|t.atributi| - 1] == Filter(Koristi, skup.atributi))
  {
    var skup := podaci.value;
    var cilj := PrviSNazivom(skup.atributi, skup.ciljnaKolona).value;
    var t := SkupoviStabala(podaci, parametri, g, poredci).value[i];
    assert t == Podskup(skup, parametri.value.brojAtributa, DrawsStabla(g, i), poredci(i), cilj);
  }

  /** Tree i's training set, for i below the tree count, when the target attribute exists. */
  lemma StabloI(podaci: Option<Skup>, parametri: Option<RandomForestParametri>,
                g: (nat, nat) -> Draw, poredci: nat -> seq<nat>, i: nat)
    requires podaci.Some? && parametri.Some? && PoredciPrikladni(podaci.value, parametri.value, poredci)
    requires i < parametri.value.brojStabala
    requires PrviSNazivom(podaci.value.atributi, podaci.value.ciljnaKolona).Some?
    ensures SkupoviStabala(podaci, parametri, g, poredci).Ok?
    ensures i < |SkupoviStabala(podaci, parametri, g, poredci).value|
    ensures SkupoviStabala(podaci, parametri, g, poredci).value[i] ==
      Podskup(podaci.value, parametri.value.brojAtributa, DrawsStabla(g, i), poredci(i),
              PrviSNazivom(podaci.value.atributi, podaci.value.ciljnaKolona).value)
  {
  }

  /**
   * One pass of the constructor loop: the bootstrap sample, the target
   * attribute (a missing one makes `First` throw) and the tree's attributes.
   */
  method NoviPodskup(skup: Skup, brojAtributa: Option<int>, g: nat -> Draw, poredak: seq<nat>)
    returns (r: Option<Skup>)
    requires PoredakPrikladan(skup.atributi, brojAtributa, poredak)
    ensures r.None? <==> PrviSNazivom(skup.atributi, skup.ciljnaKolona).None?
    ensures r.Some? ==> r.value == Podskup(skup, brojAtributa, g, poredak, PrviSNazivom(skup.atributi, skup.ciljnaKolona).value)
  {
    var bootstrapPodaci := Bootstrap(skup.podaci, g);
    var ciljniAtribut := PrviSNazivom(skup.atributi, skup.ciljnaKolona);
    if ciljniAtribut.None? {
      return None;
    }
    var atributi := AtributiStabla(skup.atributi, brojAtributa, poredak, ciljniAtribut.value);
    r := Some(Skup(skup.historija + ["bootstrap sampling"], bootstrapPodaci, atributi, skup.ciljnaKolona));
  }

  class RandomForestKlasifikator {
    var stabla: seq<Skup>

    constructor (stabla: seq<Skup>)
      ensures this.stabla == stabla
    {
      this.stabla := stabla;
    }

    /**
     * The constructor: the trees are added one by one, each with its
     * bootstrap sample and its attributes.
     */
    static method Kreiraj(podaci: Option<Skup>, parametri: Option<RandomForestParametri>,
                          g: (nat, nat) -> Draw, poredci: nat -> seq<nat>)
      returns (r: Result<RandomForestKlasifikator>)
      requires podaci.Some? && parametri.Some? ==> PoredciPrikladni(podaci.value, parametri.value, poredci)
      ensures r.Err? <==> SkupoviStabala(podaci, parametri, g, poredci).Err?
      ensures r.Err? ==> r.greska == SkupoviStabala(podaci, parametri, g, poredci).greska
      ensures r.Ok? ==> fresh(r.value) && r.value.stabla == SkupoviStabala(podaci, parametri, g, poredci).value
    {
      if podaci.None? || parametri.None? {
        return Err(ArgumentNull);
      }
      var skup := podaci.value;
      var brojStabala := parametri.value.brojStabala;
      ghost var cilj := SkupoviStabala(podaci, parametri, g, poredci);
      var stabla: seq<Skup> := [];
      ghost var n := if brojStabala > 0 then brojStabala else 0;
      var i := 0;
      while i < brojStabala
        invariant 0 <= i <= n && |stabla| == i
        invariant i == 0 ==> stabla == []
        invariant i > 0 ==> cilj.Ok? && i <= |cilj.value| && stabla == cilj.value[..i]
      {
        var podskup := NoviPodskup(skup, parametri.value.brojAtributa, DrawsStabla(g, i), poredci(i));
        if podskup.None? {
          return Err(InvalidOperation);
        }
        StabloI(podaci, parametri, g, poredci, i);
        PrefiksProduzen(cilj.value, i);
        stabla := stabla + [podskup.value];
        i := i + 1;
      }
      assert cilj.Ok? && |cilj.value| == i;
      assert stabla == cilj.value[..i] == cilj.value;
      var f := new RandomForestKlasifikator(stabla);
      r := Ok(f);
    }

    /** The majority vote over the trees' predictions, one per tree in order. */
    function Predikcija(predvidi: Skup -> string): (r: Result<string>)
      reads this
      ensures r.Err? <==> |stabla| == 0
      ensures r.Ok? ==> exists i :: 0 <= i < |stabla| && r.value == predvidi(stabla[i])
    {
      var glasovi := seq(|stabla|, i requires 0 <= i < |stabla| reads this => predvidi(stabla[i]));
      assert forall i :: 0 <= i < |stabla| ==> glasovi[i] == predvidi(stabla[i]);
      Glasaj(glasovi)
    }
  }

  /** How many votes a label got. */
  function Broj(glasovi: seq<string>, x: string): nat
  {
    multiset(glasovi)[x]
  }

  /** The labels in the order of their first vote, each once: the groups of `GroupBy`. */
  function Grupe(glasovi: seq<string>): (g: seq<string>)
    ensures |g| == 0 <==> |glasovi| == 0
    ensures Distinct(g)
    ensures forall x :: x in g <==> x in glasovi
    ensures forall i, j :: 0 <= i < j < |g| ==> IndexOf(glasovi, g[i]) < IndexOf(glasovi, g[j])
  {
    if glasovi == [] then []
    else
      var p := glasovi[..|glasovi| - 1];
      var x := glasovi[|glasovi| - 1];
      var g := Grupe(p);
      IndexOfPrefiks(glasovi);
      assert forall y :: y in glasovi <==> y in p || y == x by {
        assert glasovi == p + [x];
      }
      if x in g then g
      else
        assert x !in p;
        assert IndexOf(glasovi, x) == |glasovi| - 1;
        g + [x]
  }

  /** A label already voted for before the last vote keeps its first position. */
  lemma IndexOfPrefiks(glasovi: seq<string>)
    requires |glasovi| > 0
    ensures forall y :: y in glasovi[..|glasovi| - 1] ==> IndexOf(glasovi, y) == IndexOf(glasovi[..|glasovi| - 1], y)
  {
    var p := glasovi[..|glasovi| - 1];
    forall y | y in p
      ensures IndexOf(glasovi, y) == IndexOf(p, y)
    {
      var k := IndexOf(p, y);
      assert glasovi[k] == y;
      assert forall j :: 0 <= j < k ==> glasovi[j] == p[j];
    }
  }

  /** The position of the first group with the most votes: the head of the stable descending sort. */
  function NajveciIndeks(g: seq<string>, glasovi: seq<string>): (k: nat)
    requires |g| > 0
    ensures k < |g|
    ensures forall i :: 0 <= i < |g| ==> Broj(glasovi, g[i]) <= Broj(glasovi, g[k])
    ensures forall i :: 0 <= i < k ==> Broj(glasovi, g[i]) < Broj(glasovi, g[k])
  {
    if |g| == 1 then 0
    else
      var k := NajveciIndeks(g[1..], glasovi) + 1;
      assert g[k] == g[1..][k - 1];
      assert forall i :: 1 <= i < |g| ==> g[i] == g[1..][i - 1];
      if Broj(glasovi, g[0]) >= Broj(glasovi, g[k]) then 0 else k
  }

  /**
   * `GroupBy(x => x).OrderByDescending(Count).First().Key`: the label with
   * the most votes; among equally many, the one voted for first. `First()`
   * of no votes throws.
   */
  function Glasaj(glasovi: seq<string>): (r: Result<string>)
    ensures r.Err? <==> |glasovi| == 0
    ensures r.Err? ==> r.greska == InvalidOperation
    ensures r.Ok? ==> r.value in glasovi
    ensures r.Ok? ==> forall y :: y in glasovi ==> Broj(glasovi, y) <= Broj(glasovi, r.value)
    ensures r.Ok? ==> forall y :: y in glasovi && Broj(glasovi, y) == Broj(glasovi, r.value) ==>
      IndexOf(glasovi, r.value) <= IndexOf(glasovi, y)
  {
    var g := Grupe(glasovi);
    if |g| == 0 then
      Err(InvalidOperation)
    else
      var k := NajveciIndeks(g, glasovi);
      NajvecaGrupa(glasovi, g, k);
      Ok(g[k])
  }

  /** The first group of most votes wins over every label, and its first vote comes first among equals. */
  lemma NajvecaGrupa(glasovi: seq<string>, g: seq<string>, k: nat)
    requires g == Grupe(glasovi) && |g| > 0 && k == NajveciIndeks(g, glasovi)
    ensures g[k] in glasovi
    ensures forall y :: y in glasovi ==> Broj(glasovi, y) <= Broj(glasovi, g[k])
    ensures forall y :: y in glasovi && Broj(glasovi, y) == Broj(glasovi, g[k]) ==>
      IndexOf(glasovi, g[k]) <= IndexOf(glasovi, y)
  {
    forall y | y in glasovi
      ensures Broj(glasovi, y) <= Broj(glasovi, g[k])
      ensures Broj(glasovi, y) == Broj(glasovi, g[k]) ==> IndexOf(glasovi, g[k]) <= IndexOf(glasovi, y)
    {
      assert y in g;
      var i :| 0 <= i < |g| && g[i] == y;
      GrupaPremaNajvecoj(glasovi, g, k, i);
    }
  }

  /** Group i against the chosen group k: no more votes, and when as many, a later first vote. */
  lemma GrupaPremaNajvecoj(glasovi: seq<string>, g: seq<string>, k: nat, i: nat)
    requires g == Grupe(glasovi) && |g| > 0 && k == NajveciIndeks(g, glasovi) && i < |g|
    ensures Broj(glasovi, g[i]) <= Broj(glasovi, g[k])
    ensures Broj(glasovi, g[i]) == Broj(glasovi, g[k]) ==> IndexOf(glasovi, g[k]) <= IndexOf(glasovi, g[i])
  {
    if i > k {
      assert IndexOf(glasovi, g[k]) < IndexOf(glasovi, g[i]);
    }
  }

  /** When every tree votes for the same label, the forest answers with it. */
  lemma JednoglasnoGlasanje(glasovi: seq<string>, x: string)
    requires |glasovi| > 0 && forall i :: 0 <= i < |glasovi| ==> glasovi[i] == x
    ensures Glasaj(glasovi) == Ok(x)
  {
    var r := Glasaj(glasovi);
    var k :| 0 <= k < |glasovi| && glasovi[k] == r.value;
  }
}
