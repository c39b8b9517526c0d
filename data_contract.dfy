/**
 * The dataset types of the ver2 model that the MLP classifier and the random
 * forest read: attribute metadata, attribute values and rows. Only the
 * members those classes use are kept.
 */
module DataContract {
  import opened Common

  /** TipAtributa: a numeric or a categorical attribute. */
  datatype TipAtributa = Numericki | Kategoricki

  /**
   * Metadata of a categorical attribute: all its values, the values of its
   * most frequent entries (the `Vrijednost` of each `Top5Najcescih` item, in
   * list order) and the number of distinct values.
   */
  datatype KategorickiMeta = KategorickiMeta(sveVrijednosti: seq<string>, top5Najcescih: seq<string>,
                                             brojRazlicitihVrijednosti: nat)

  /** AtributMeta; `kategoricki` is null for numeric attributes. */
  datatype AtributMeta = AtributMeta(naziv: string, tipAtributa: TipAtributa, koristiZaModel: bool,
                                     kategoricki: Option<KategorickiMeta>)

  /** VrijednostAtributa: a nullable number and a nullable text. */
  datatype VrijednostAtributa = VrijednostAtributa(broj: Option<real>, tekst: Option<string>)

  /** RedPodatka: a row's values by attribute name. */
  datatype RedPodatka = RedPodatka(atributi: map<string, VrijednostAtributa>)

  /** The attributes the MLP takes as inputs: used by the model and numeric. */
  predicate MLPUlaz(a: AtributMeta)
  {
    a.koristiZaModel && a.tipAtributa == Numericki
  }
}
