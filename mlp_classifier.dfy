/**
 * MLPKlasifikator.cs: the classifier that owns a layer list, its input
 * attributes and its target column, built either from stored parts or from a
 * dataset's metadata (an untrained network), and that turns the network's
 * output into a class name.
 */
module MLPClassifier {
  import opened Common
  import opened Activations
  import opened NetworkSpec
  import opened Layers
  import opened MLPNetwork
  import opened DataContract

  /** MLPParametri: the hidden layer widths. */
  datatype MLPParametri = MLPParametri(skriveniSlojevi: seq<nat>)

  /** The hidden widths an MLPParametri starts with: two layers of four neurons. */
  const PodrazumijevaniSkriveniSlojevi: seq<nat> := [4, 4]

  /** The class name returned when the winning index names no class. */
  const Nepoznato: string := "Nepoznato"

  /** The target's class names; none when it has no categorical metadata. */
  function Klase(cilj: AtributMeta): (klase: seq<string>)
    ensures cilj.kategoricki.Some? ==> klase == cilj.kategoricki.value.sveVrijednosti
    ensures cilj.kategoricki.None? ==> klase == []
  {
    match cilj.kategoricki
    case Some(meta) => meta.sveVrijednosti
    case None => []
  }

  /** `ElementAtOrDefault(k) ?? "Nepoznato"` on the class names. */
  function NazivKlase(klase: seq<string>, k: nat): string
  {
    if k < |klase| then klase[k] else Nepoznato
  }

  /** k holds the largest value, and no earlier position holds it. */
  predicate PrviMaksimum(izlaz: seq<real>, k: int)
  {
    0 <= k < |izlaz| &&
    (forall j :: 0 <= j < |izlaz| ==> izlaz[j] <= izlaz[k]) &&
    (forall j :: 0 <= j < k ==> izlaz[j] < izlaz[k])
  }

  /**
   * The class at the first position of the largest output. `Max()` of an
   * empty output throws.
   */
  function InterpretirajIzlaz(izlaz: seq<real>, cilj: AtributMeta): (r: Result<string>)
    ensures r.Err? <==> |izlaz| == 0
    ensures r.Err? ==> r.greska == InvalidOperation
    ensures r.Ok? ==> exists k :: PrviMaksimum(izlaz, k)
    ensures r.Ok? ==> forall k :: PrviMaksimum(izlaz, k) ==> r.value == NazivKlase(Klase(cilj), k)
  {
    if |izlaz| == 0 then Err(InvalidOperation)
    else
      var k := FirstIndexOfMax(izlaz);
      assert PrviMaksimum(izlaz, k);
      Ok(NazivKlase(Klase(cilj), k))
  }

  /**
   * When the output has no more entries than there are classes, the answer
   * is one of the classes, never the fallback.
   */
  lemma InterpretacijaUKlasama(izlaz: seq<real>, cilj: AtributMeta)
    requires 0 < |izlaz| <= |Klase(cilj)|
    ensures InterpretirajIzlaz(izlaz, cilj).Ok?
    ensures InterpretirajIzlaz(izlaz, cilj).value in Klase(cilj)
  {
    var k := FirstIndexOfMax(izlaz);
    assert PrviMaksimum(izlaz, k);
  }

  /**
   * A prediction on an encoded input: the forward pass, Softmax when the
   * classifier uses it, then the winning class.
   */
  function Predvidi(mreza: seq<Sloj>, x: seq<real>, softmax: bool, exp: ExpFn, cilj: AtributMeta): (r: Result<string>)
    requires Ulancano(mreza, |x|)
    ensures r.Err? <==> |Naprijed(mreza, x)| == 0
    ensures r.Err? ==> r.greska == InvalidOperation
    ensures r.Ok? ==> r.value == Nepoznato || r.value in Klase(cilj)
  {
    match IzlazMreze(mreza, x, softmax, exp)
    case Err(e) => Err(e)
    case Ok(izlaz) => InterpretirajIzlaz(izlaz, cilj)
  }

  class MLPKlasifikator {
    var Slojevi: seq<Layer>
    const koristiSoftmaxNaIzlazu: bool
    const MLPAtributi: seq<AtributMeta>
    const CiljnaKolona: AtributMeta
    const ParametriMLP: MLPParametri
    const exp: ExpFn

    ghost predicate Valid()
      reads this, Slojevi
    {
      Slozeno(Slojevi)
    }

    /** Reconstruction from stored parts: every part is kept as given. */
    constructor (parametri: MLPParametri, koristiSoftmaxNaIzlazu: bool, ciljanaKolona: AtributMeta,
                 mlpAtributi: seq<AtributMeta>, slojevi: seq<Layer>, exp: ExpFn)
      ensures ParametriMLP == parametri && this.koristiSoftmaxNaIzlazu == koristiSoftmaxNaIzlazu
      ensures CiljnaKolona == ciljanaKolona && MLPAtributi == mlpAtributi && Slojevi == slojevi
      ensures this.exp == exp
    {
      ParametriMLP := parametri;
      this.koristiSoftmaxNaIzlazu := koristiSoftmaxNaIzlazu;
      CiljnaKolona := ciljanaKolona;
      MLPAtributi := mlpAtributi;
      Slojevi := slojevi;
      this.exp := exp;
    }

    /**
     * Construction from a dataset's attributes and target column: the inputs
     * are the numeric attributes used by the model, in dataset order; a
     * numeric target throws InvalidOperationException and a target without
     * categorical metadata a NullReferenceException; the output layer has one
     * Sigmoid neuron per distinct target value and Softmax is switched on.
     */
    static method IzPodataka(atributi: seq<AtributMeta>, ciljnaKolona: AtributMeta, parametri: MLPParametri,
                             exp: ExpFn, derivacijaSkrivena: real -> real, derivacijaIzlazna: real -> real,
                             nasumicno: (nat, nat, nat) -> Draw)
      returns (r: Result<MLPKlasifikator>)
      ensures r.Err? <==> ciljnaKolona.tipAtributa == Numericki || ciljnaKolona.kategoricki.None?
      ensures r.Err? ==> r.greska == (if ciljnaKolona.tipAtributa == Numericki then InvalidOperation
                                      else NullReference)
      ensures r.Ok? ==> fresh(r.value) && r.value.Valid()
      ensures r.Ok? ==> r.value.MLPAtributi == Filter(MLPUlaz, atributi) && r.value.koristiSoftmaxNaIzlazu
      ensures r.Ok? ==> r.value.CiljnaKolona == ciljnaKolona && r.value.ParametriMLP == parametri
      ensures r.Ok? ==> r.value.exp == exp
      ensures r.Ok? ==>
        Mreza(r.value.Slojevi) ==
        PocetnaMreza(nasumicno, Sirine(|Filter(MLPUlaz, atributi)|, parametri.skriveniSlojevi,
                                       ciljnaKolona.kategoricki.value.brojRazlicitihVrijednosti),
                     ReLU, SigmoidWith(exp))
    {
      var mlpAtributi := Filter(MLPUlaz, atributi);
      if ciljnaKolona.tipAtributa == Numericki {
        return Err(InvalidOperation);
      }
      if ciljnaKolona.kategoricki.None? {
        return Err(NullReference);
      }
      var brojIzlaza := ciljnaKolona.kategoricki.value.brojRazlicitihVrijednosti;
      var slojevi := IzgradiSlojeve(|mlpAtributi|, parametri.skriveniSlojevi, brojIzlaza, ReLU, derivacijaSkrivena,
                                    SigmoidWith(exp), derivacijaIzlazna, nasumicno);
      label Izgradjeno:
      var k := new MLPKlasifikator(parametri, true, ciljnaKolona, mlpAtributi, slojevi, exp);
      forall i | 0 <= i < |slojevi|
        ensures slojevi[i].Jedinice() == old@Izgradjeno(slojevi[i].Jedinice())
      {
        assert forall j :: 0 <= j < |slojevi[i].Neuroni| ==>
          slojevi[i].Neuroni[j].Jedinica() == old@Izgradjeno(slojevi[i].Neuroni[j].Jedinica());
      }
      MrezaPoSlojevima(slojevi, old@Izgradjeno(Mreza(slojevi)));
      r := Ok(k);
    }

    /** The prediction on an input vector already encoded from a row. */
    method Predikcija(input: seq<real>) returns (r: Result<string>)
      requires Valid() && Ulancano(Mreza(Slojevi), |input|)
      modifies NeuroniOf(Slojevi)
      ensures r == Predvidi(old(Mreza(Slojevi)), input, koristiSoftmaxNaIzlazu, exp, CiljnaKolona)
      ensures Valid() && Mreza(Slojevi) == old(Mreza(Slojevi))
      ensures Izlazi(Slojevi) == IzlaziSlojeva(old(Mreza(Slojevi)), input)
      ensures Delte(Slojevi) == old(Delte(Slojevi))
    {
      ghost var m := Mreza(Slojevi);
      var izlaz := Propagiraj(Slojevi, input);
      var s := if koristiSoftmaxNaIzlazu then Softmax(exp, izlaz) else Ok(izlaz);
      r := if s.Err? then Err(s.greska) else InterpretirajIzlaz(s.value, CiljnaKolona);
      assert r == Predvidi(m, input, koristiSoftmaxNaIzlazu, exp, CiljnaKolona);
    }
  }

  /**
   * The classifier built from a dataset accepts any input no wider than its
   * attribute list. It fails exactly when the target has no distinct values,
   * and when the target lists at least as many class names as it has
   * distinct values, the answer is one of those names.
   */
  lemma PredikcijaNovogKlasifikatora(g: (nat, nat, nat) -> Draw, brojUlaza: nat, skriveni: seq<nat>,
                                     cilj: AtributMeta, exp: ExpFn, x: seq<real>)
    requires cilj.kategoricki.Some? && |x| <= brojUlaza
    ensures var b := cilj.kategoricki.value.brojRazlicitihVrijednosti;
      var m := PocetnaMreza(g, Sirine(brojUlaza, skriveni, b), ReLU, SigmoidWith(exp));
      Ulancano(m, |x|) &&
      (Predvidi(m, x, true, exp, cilj).Err? <==> b == 0) &&
      (0 < b <= |Klase(cilj)| ==> Predvidi(m, x, true, exp, cilj).value in Klase(cilj))
  {
    var b := cilj.kategoricki.value.brojRazlicitihVrijednosti;
    var m := PocetnaMreza(g, Sirine(brojUlaza, skriveni, b), ReLU, SigmoidWith(exp));
    IzlazPocetneMreze(g, brojUlaza, skriveni, b, ReLU, SigmoidWith(exp), x, true, exp);
    if 0 < b <= |Klase(cilj)| {
      var izlaz := IzlazMreze(m, x, true, exp).value;
      InterpretacijaUKlasama(izlaz, cilj);
    }
  }
}
