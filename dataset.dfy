/**
 * MojDataSet of the first model (ML-Klasifikacija.Model/Helper/MojDataSet.cs,
 * repeated in ML-Klasifikacija.Model/MojDataSet.cs): a non-empty list of
 * rows, the target name, and attribute metadata read off the first row; a
 * split of the shuffled rows into a training and a test set; and the
 * accuracy of a classifier on a test set.
 *
 * `double.TryParse` is a parameter, the shuffle is a supplied permutation of
 * the row positions, the test size is given directly, and the classifier's
 * prediction is a parameter.
 */
module ClassicDataSet {
  import opened Common

  datatype TipAtributa = Kategoricki | Numericki

  datatype AtributMeta = AtributMeta(naziv: string, tipAtributa: TipAtributa)

  /** A row: its attribute values as the dictionary enumerates them, and its class. */
  datatype RedPodatka = RedPodatka(atributi: seq<(string, string)>, klasa: string)

  datatype MojDataSet = MojDataSet(ciljnaVarijabla: string, podaci: seq<RedPodatka>, atributi: seq<AtributMeta>)

  /** EvaluacijaRezultat: accuracy and the integer-valued precision, recall and F1. */
  datatype EvaluacijaRezultat = EvaluacijaRezultat(accuracy: real, precision: int, recall: int, f1Score: int)

  /** The metadata of a row: one attribute per entry, numeric exactly when the value parses. */
  function AtributiIzReda(red: RedPodatka, jeBroj: string -> bool): (a: seq<AtributMeta>)
    ensures |a| == |red.atributi|
    ensures forall i :: 0 <= i < |a| ==> a[i].naziv == red.atributi[i].0
    ensures forall i :: 0 <= i < |a| ==> (a[i].tipAtributa == Numericki <==> jeBroj(red.atributi[i].1))
  {
    seq(|red.atributi|, i requires 0 <= i < |red.atributi| =>
      AtributMeta(red.atributi[i].0, if jeBroj(red.atributi[i].1) then Numericki else Kategoricki))
  }

  /**
   * The constructor: null or empty rows throw ArgumentException; otherwise
   * the rows and the target are kept and the metadata is read off the first
   * row.
   */
  function NoviMojDataSet(podaci: Option<seq<RedPodatka>>, ciljnaVarijabla: string, jeBroj: string -> bool)
    : (r: Result<MojDataSet>)
    ensures r.Err? <==> podaci.None? || |podaci.value| == 0
    ensures r.Err? ==> r.greska == Argument
    ensures r.Ok? ==> r.value.podaci == podaci.value && r.value.ciljnaVarijabla == ciljnaVarijabla
    ensures r.Ok? ==> r.value.atributi == AtributiIzReda(podaci.value[0], jeBroj)
  {
    if podaci.None? || |podaci.value| == 0 then Err(Argument)
    else Ok(MojDataSet(ciljnaVarijabla, podaci.value, AtributiIzReda(podaci.value[0], jeBroj)))
  }

  /** The `(int)` cast of a double: the fractional part is dropped, toward zero. */
  function UCijeli(x: real): (n: int)
    ensures 0.0 <= x ==> 0 <= n && n as real <= x < n as real + 1.0
    ensures x < 0.0 ==> n <= 0 && n as real - 1.0 < x <= n as real
  {
    if x >= 0.0 then x.Floor else -((-x).Floor)
  }

  /** The test set's size: the row count times the fraction, cast to int. */
  function TestVelicina(brojRedova: nat, testProcenat: real): int
  {
    UCijeli(brojRedova as real * testProcenat)
  }

  /**
   * Podijeli: the rows in shuffled order; the first testVelicina go to the
   * test set, the rest to the training set. The training set is built
   * first; either set being empty makes its constructor throw.
   */
  function Podijeli(skup: MojDataSet, poredak: seq<nat>, testProcenat: real := 0.2, jeBroj: string -> bool)
    : (r: Result<(MojDataSet, MojDataSet)>)
    requires IsPermutation(poredak, |skup.podaci|)
    ensures var k := Clamp(TestVelicina(|skup.podaci|, testProcenat), |skup.podaci|);
      r.Err? <==> k == 0 || k == |skup.podaci|
    ensures r.Err? ==> r.greska == Argument
    ensures r.Ok? ==> r.value.1.podaci + r.value.0.podaci == Permute(skup.podaci, poredak)
    ensures r.Ok? ==> |r.value.1.podaci| == Clamp(TestVelicina(|skup.podaci|, testProcenat), |skup.podaci|)
    ensures r.Ok? ==> r.value.0.ciljnaVarijabla == skup.ciljnaVarijabla == r.value.1.ciljnaVarijabla
    ensures r.Ok? ==> r.value.0.atributi == AtributiIzReda(r.value.0.podaci[0], jeBroj)
    ensures r.Ok? ==> r.value.1.atributi == AtributiIzReda(r.value.1.podaci[0], jeBroj)
  {
    var randomRedoslijed := Permute(skup.podaci, poredak);
    var testVelicina := TestVelicina(|skup.podaci|, testProcenat);
    var testPodaci := Take(randomRedoslijed, testVelicina);
    var trainPodaci := Skip(randomRedoslijed, testVelicina);
    assert testPodaci + trainPodaci == randomRedoslijed;
    match NoviMojDataSet(Some(trainPodaci), skup.ciljnaVarijabla, jeBroj)
    case Err(e) => Err(e)
    case Ok(train) =>
      match NoviMojDataSet(Some(testPodaci), skup.ciljnaVarijabla, jeBroj)
      case Err(e) => Err(e)
      case Ok(test) => Ok((train, test))
  }

  /** The two sets hold together every row of the data set, each as often as before. */
  lemma PodjelaJeParticija(skup: MojDataSet, poredak: seq<nat>, testProcenat: real, jeBroj: string -> bool)
    requires IsPermutation(poredak, |skup.podaci|)
    requires Podijeli(skup, poredak, testProcenat, jeBroj).Ok?
    ensures var (train, test) := Podijeli(skup, poredak, testProcenat, jeBroj).value;
      multiset(train.podaci) + multiset(test.podaci) == multiset(skup.podaci)
  {
    var (train, test) := Podijeli(skup, poredak, testProcenat, jeBroj).value;
    PermuteMultiset(skup.podaci, poredak);
    assert multiset(test.podaci + train.podaci) == multiset(test.podaci) + multiset(train.podaci);
  }

  /** The rows a classifier labels with their own class. */
  function Tacni(podaci: seq<RedPodatka>, predikcija: RedPodatka -> string): (n: nat)
    ensures n <= |podaci|
    ensures n == |podaci| <==> forall i :: 0 <= i < |podaci| ==> predikcija(podaci[i]) == podaci[i].klasa
    ensures n == 0 <==> forall i :: 0 <= i < |podaci| ==> predikcija(podaci[i]) != podaci[i].klasa
  {
    if podaci == [] then 0
    else
      var p := podaci[..|podaci| - 1];
      var n := Tacni(p, predikcija);
      assert forall i :: 0 <= i < |p| ==> p[i] == podaci[i];
      var zadnji := podaci[|podaci| - 1];
      n + if predikcija(zadnji) == zadnji.klasa then 1 else 0
  }

  /**
   * Evaluiraj: counts the test rows predicted correctly; accuracy is that
   * count over the number of test rows, precision, recall and F1 are 0. A
   * data set always has rows, as its constructor refuses an empty list.
   */
  method Evaluiraj(predikcija: RedPodatka -> string, testSkup: MojDataSet) returns (r: EvaluacijaRezultat)
    requires |testSkup.podaci| > 0
    ensures r == EvaluacijaRezultat(Tacni(testSkup.podaci, predikcija) as real / |testSkup.podaci| as real, 0, 0, 0)
    ensures 0.0 <= r.accuracy <= 1.0
    ensures r.accuracy == 1.0 <==> forall i :: 0 <= i < |testSkup.podaci| ==>
      predikcija(testSkup.podaci[i]) == testSkup.podaci[i].klasa
  {
    var tacni := 0;
    for i := 0 to |testSkup.podaci|
      invariant tacni == Tacni(testSkup.podaci[..i], predikcija)
    {
      var red := testSkup.podaci[i];
      TacniKorak(testSkup.podaci, i, predikcija);
      if predikcija(red) == red.klasa {
        tacni := tacni + 1;
      }
    }
    assert testSkup.podaci[..|testSkup.podaci|] == testSkup.podaci;
    var n := |testSkup.podaci| as real;
    var accuracy := tacni as real / n;
    Udio(tacni, |testSkup.podaci|);
    r := EvaluacijaRezultat(accuracy, 0, 0, 0);
  }

  /** One more row adds one to the count exactly when it is predicted correctly. */
  lemma TacniKorak(podaci: seq<RedPodatka>, i: nat, predikcija: RedPodatka -> string)
    requires i < |podaci|
    ensures Tacni(podaci[..i + 1], predikcija) ==
      Tacni(podaci[..i], predikcija) + if predikcija(podaci[i]) == podaci[i].klasa then 1 else 0
  {
    assert podaci[..i + 1][..i] == podaci[..i];
  }

  /** A count of at most n out of n is a fraction in [0, 1], equal to 1 only for the full count. */
  lemma Udio(k: nat, n: nat)
    requires 0 < n && k <= n
    ensures 0.0 <= k as real / n as real <= 1.0
    ensures k as real / n as real == 1.0 <==> k == n
  {
    var q := k as real / n as real;
    assert q * n as real == k as real;
    if q == 1.0 {
      assert k as real == n as real;
    }
  }
}
