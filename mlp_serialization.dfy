/**
 * MLPSerijalizacijaHelper.cs without the JSON text and the file: a
 * classifier is mapped to a DTO (its metadata, and per layer per neuron the
 * weights and the bias), and a DTO is turned back into a classifier whose
 * last layer uses Sigmoid and whose other layers use ReLU.
 */
module MLPSerialization {
  import opened Common
  import opened Activations
  import opened NetworkSpec
  import opened Neurons
  import opened Layers
  import opened MLPNetwork
  import opened DataContract
  import opened MLPClassifier

  /** NeuronDto: the weights and the bias; Output and Delta are not stored. */
  datatype NeuronDto = NeuronDto(tezine: seq<real>, bias: real)

  /** LayerDto: the neurons in layer order. */
  datatype LayerDto = LayerDto(neuroni: seq<NeuronDto>)

  /** MLPDto: the classifier's metadata and its layers. */
  datatype MLPDto = MLPDto(parametriMLP: MLPParametri, koristiSoftmaxNaIzlazu: bool, ciljnaKolona: AtributMeta,
                           mlpAtributi: seq<AtributMeta>, slojevi: seq<LayerDto>)

  /** The nested `Select` of SnimiMrezu: layer by layer, neuron by neuron. */
  function SlojeviDto(m: seq<Sloj>): (d: seq<LayerDto>)
    ensures |d| == |m|
    ensures forall i :: 0 <= i < |m| ==> |d[i].neuroni| == |m[i]|
  {
    seq(|m|, i requires 0 <= i < |m| =>
      LayerDto(seq(|m[i]|, j requires 0 <= j < |m[i]| => NeuronDto(m[i][j].tezine, m[i][j].bias))))
  }

  /** The DTO SnimiMrezu writes: the metadata passes through unchanged. */
  function SnimiMrezu(k: MLPKlasifikator): (dto: MLPDto)
    reads k, k.Slojevi, NeuroniOf(k.Slojevi), NizoviOf(k.Slojevi)
    ensures dto.parametriMLP == k.ParametriMLP && dto.koristiSoftmaxNaIzlazu == k.koristiSoftmaxNaIzlazu
    ensures dto.ciljnaKolona == k.CiljnaKolona && dto.mlpAtributi == k.MLPAtributi
    ensures |dto.slojevi| == |k.Slojevi|
  {
    MLPDto(k.ParametriMLP, k.koristiSoftmaxNaIzlazu, k.CiljnaKolona, k.MLPAtributi, SlojeviDto(Mreza(k.Slojevi)))
  }

  /** The activation UcitajMrezu gives layer i of n: Sigmoid for the last, ReLU otherwise. */
  function AktivacijaUcitanog(i: nat, n: nat, exp: ExpFn): real -> real
  {
    if i == n - 1 then SigmoidWith(exp) else ReLU
  }

  /** A loaded layer: each neuron takes the DTO's weights and bias. */
  function UcitaniSloj(l: LayerDto, aktivacija: real -> real): (s: Sloj)
    ensures |s| == |l.neuroni|
  {
    seq(|l.neuroni|, j requires 0 <= j < |l.neuroni| =>
      Jedinica(l.neuroni[j].tezine, l.neuroni[j].bias, aktivacija))
  }

  /** Every DTO layer loaded, whether or not some layer is empty. */
  function SviUcitani(d: seq<LayerDto>, exp: ExpFn): (m: seq<Sloj>)
    ensures |m| == |d|
  {
    seq(|d|, i requires 0 <= i < |d| => UcitaniSloj(d[i], AktivacijaUcitanog(i, |d|, exp)))
  }

  /** Some DTO layer has no neurons. */
  predicate ImaPrazanSloj(d: seq<LayerDto>)
  {
    exists i :: 0 <= i < |d| && |d[i].neuroni| == 0
  }

  /**
   * The network UcitajMrezu rebuilds: one layer per DTO layer, neuron j of
   * layer i with exactly the DTO's weights and bias, Sigmoid on the last
   * layer and ReLU before it. `Neuroni[0]` of an empty layer throws.
   */
  function UcitaniSlojevi(d: seq<LayerDto>, exp: ExpFn): (r: Result<seq<Sloj>>)
    ensures r.Err? <==> ImaPrazanSloj(d)
    ensures r.Err? ==> r.greska == ArgumentOutOfRange
    ensures r.Ok? ==> |r.value| == |d| && forall i :: 0 <= i < |d| ==> |r.value[i]| == |d[i].neuroni| > 0
    ensures r.Ok? ==> forall i, j :: 0 <= i < |d| && 0 <= j < |d[i].neuroni| ==>
      r.value[i][j].tezine == d[i].neuroni[j].tezine && r.value[i][j].bias == d[i].neuroni[j].bias
    ensures r.Ok? ==> Aktivacije(r.value, ReLU, SigmoidWith(exp))
  {
    if ImaPrazanSloj(d) then Err(ArgumentOutOfRange) else Ok(SviUcitani(d, exp))
  }

  /**
   * Round trip: saving a network whose hidden layers use ReLU and whose last
   * layer uses Sigmoid, then loading it, gives back the same network
   * exactly, unless some layer has no neurons; then loading fails.
   */
  lemma SnimiUcitaj(m: seq<Sloj>, exp: ExpFn)
    requires Aktivacije(m, ReLU, SigmoidWith(exp))
    ensures (forall i :: 0 <= i < |m| ==> |m[i]| > 0) ==> UcitaniSlojevi(SlojeviDto(m), exp) == Ok(m)
    ensures (exists i :: 0 <= i < |m| && |m[i]| == 0) ==> UcitaniSlojevi(SlojeviDto(m), exp) == Err(ArgumentOutOfRange)
  {
    var d := SlojeviDto(m);
    if forall i :: 0 <= i < |m| ==> |m[i]| > 0 {
      assert !ImaPrazanSloj(d);
      var r := SviUcitani(d, exp);
      forall i | 0 <= i < |m|
        ensures r[i] == m[i]
      {
        forall j | 0 <= j < |m[i]|
          ensures r[i][j] == m[i][j]
        {
          assert m[i][j].aktivacija == AktivacijaUcitanog(i, |m|, exp);
        }
      }
      assert r == m;
      assert UcitaniSlojevi(d, exp) == Ok(r);
    } else {
      var i :| 0 <= i < |m| && |m[i]| == 0;
      assert |d[i].neuroni| == 0;
    }
  }

  /**
   * A classifier built from a dataset survives the round trip unchanged when
   * all of its widths are positive; a zero width (no hidden neurons in some
   * layer, or a target without distinct values) makes loading fail.
   */
  lemma NoviKlasifikatorSnimiUcitaj(g: (nat, nat, nat) -> Draw, brojUlaza: nat, skriveni: seq<nat>,
                                    brojIzlaza: nat, exp: ExpFn)
    ensures var m := PocetnaMreza(g, Sirine(brojUlaza, skriveni, brojIzlaza), ReLU, SigmoidWith(exp));
      UcitaniSlojevi(SlojeviDto(m), exp) ==
      if brojIzlaza > 0 && forall i :: 0 <= i < |skriveni| ==> skriveni[i] > 0 then Ok(m)
      else Err(ArgumentOutOfRange)
  {
    var sirine := Sirine(brojUlaza, skriveni, brojIzlaza);
    var m := PocetnaMreza(g, sirine, ReLU, SigmoidWith(exp));
    PocetnaMrezaOblik(g, sirine, ReLU, SigmoidWith(exp));
    assert forall i :: 0 <= i < |m| ==> |m[i]| == sirine[i + 1];
    if brojIzlaza > 0 && forall i :: 0 <= i < |skriveni| ==> skriveni[i] > 0 {
      forall i | 0 <= i < |m|
        ensures |m[i]| > 0
      {
        if i < |skriveni| {
          assert sirine[i + 1] == skriveni[i];
        }
      }
    } else if brojIzlaza == 0 {
      assert |m[|m| - 1]| == 0;
    } else {
      var i :| 0 <= i < |skriveni| && skriveni[i] == 0;
      assert sirine[i + 1] == skriveni[i];
      assert |m[i]| == 0;
    }
    SnimiUcitaj(m, exp);
  }

  /**
   * The inner loop of UcitajMrezu: neuron j takes the DTO's weights (in a new
   * array) and bias; the layer keeps its neurons and their activations.
   */
  method PostaviTezine(sloj: Layer, neuroni: seq<NeuronDto>, aktivacija: real -> real)
    requires sloj.Valid() && |sloj.Neuroni| == |neuroni|
    requires forall j :: 0 <= j < |sloj.Neuroni| ==> sloj.Neuroni[j].aktivacija == aktivacija
    modifies sloj.Neuroni
    ensures sloj.Jedinice() == UcitaniSloj(LayerDto(neuroni), aktivacija)
  {
    for j := 0 to |neuroni|
      invariant forall k :: 0 <= k < j ==> sloj.Neuroni[k].Jedinica() == UcitaniSloj(LayerDto(neuroni), aktivacija)[k]
    {
      var n := sloj.Neuroni[j];
      var t := neuroni[j].tezine;
      var a := new real[|t|](i requires 0 <= i < |t| => t[i]);
      assert a[..] == t;
      n.Tezine := a;
      n.Bias := neuroni[j].bias;
    }
    assert forall k :: 0 <= k < |neuroni| ==> sloj.Jedinice()[k] == sloj.Neuroni[k].Jedinica();
  }

  /**
   * One pass of the outer loop: a new layer as wide as the DTO layer, with
   * the first DTO neuron's weight count, then the DTO's weights and biases;
   * the layers already loaded keep their values.
   */
  method UcitajSloj(s: seq<Layer>, l: LayerDto, aktivacija: real -> real, derivacija: real -> real,
                    nasumicno: (nat, nat) -> Draw)
    returns (t: seq<Layer>)
    requires Slozeno(s) && |l.neuroni| > 0
    ensures Slozeno(t) && |t| == |s| + 1 && t[..|s|] == s
    ensures Mreza(t) == old(Mreza(s)) + [UcitaniSloj(l, aktivacija)]
  {
    var sloj := new Layer(|l.neuroni|, |l.neuroni[0].tezine|, aktivacija, derivacija, nasumicno);
    assert forall j :: 0 <= j < |sloj.Neuroni| ==> sloj.Neuroni[j].aktivacija == sloj.Jedinice()[j].aktivacija;
    PostaviTezine(sloj, l.neuroni, aktivacija);
    forall k | 0 <= k < |s|
      ensures s[k].Jedinice() == old(s[k].Jedinice())
    {
      assert forall j :: 0 <= j < |s[k].Neuroni| ==> s[k].Neuroni[j].Jedinica() == old(s[k].Neuroni[j].Jedinica());
    }
    MrezaPoSlojevima(s, old(Mreza(s)));
    assert forall n :: n in sloj.Neuroni ==> n !in NeuroniOf(s);
    Dodano(s, sloj);
    DodanoSlozeno(s, sloj);
    t := s + [sloj];
    assert t[..|s|] == s;
  }

  /**
   * UcitajMrezu after the DTO is read: the layers are rebuilt in order and
   * handed with the DTO's metadata to the reconstruction constructor.
   */
  method UcitajMrezu(dto: MLPDto, exp: ExpFn, derivacijaSkrivena: real -> real, derivacijaIzlazna: real -> real,
                     nasumicno: (nat, nat, nat) -> Draw)
    returns (r: Result<MLPKlasifikator>)
    ensures r.Err? <==> ImaPrazanSloj(dto.slojevi)
    ensures r.Err? ==> r.greska == ArgumentOutOfRange
    ensures r.Ok? ==> fresh(r.value) && r.value.Valid()
    ensures r.Ok? ==> Mreza(r.value.Slojevi) == UcitaniSlojevi(dto.slojevi, exp).value
    ensures r.Ok? ==> r.value.ParametriMLP == dto.parametriMLP && r.value.koristiSoftmaxNaIzlazu == dto.koristiSoftmaxNaIzlazu
    ensures r.Ok? ==> r.value.CiljnaKolona == dto.ciljnaKolona && r.value.MLPAtributi == dto.mlpAtributi
    ensures r.Ok? ==> r.value.exp == exp
  {
    ghost var cilj := SviUcitani(dto.slojevi, exp);
    var slojevi: seq<Layer> := [];
    var i := 0;
    while i < |dto.slojevi|
      invariant 0 <= i <= |dto.slojevi| && |slojevi| == i
      invariant forall k :: 0 <= k < i ==> |dto.slojevi[k].neuroni| > 0
      invariant Slozeno(slojevi) && Mreza(slojevi) == cilj[..i]
    {
      var layerDto := dto.slojevi[i];
      var aktivacija := AktivacijaUcitanog(i, |dto.slojevi|, exp);
      var derivacija := if i == |dto.slojevi| - 1 then derivacijaIzlazna else derivacijaSkrivena;
      if |layerDto.neuroni| == 0 {
        return Err(ArgumentOutOfRange);
      }
      assert cilj[..i + 1] == cilj[..i] + [cilj[i]];
      slojevi := UcitajSloj(slojevi, layerDto, aktivacija, derivacija, LayerDraws(nasumicno, i));
      i := i + 1;
    }
    assert cilj[..i] == cilj;
    label Ucitano:
    var k := new MLPKlasifikator(dto.parametriMLP, dto.koristiSoftmaxNaIzlazu, dto.ciljnaKolona,
                                 dto.mlpAtributi, slojevi, exp);
    forall j | 0 <= j < |slojevi|
      ensures slojevi[j].Jedinice() == old@Ucitano(slojevi[j].Jedinice())
    {
      assert forall l :: 0 <= l < |slojevi[j].Neuroni| ==>
        slojevi[j].Neuroni[l].Jedinica() == old@Ucitano(slojevi[j].Neuroni[l].Jedinica());
    }
    MrezaPoSlojevima(slojevi, old@Ucitano(Mreza(slojevi)));
    r := Ok(k);
  }
}
