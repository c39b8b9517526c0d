/**
 * MojDataSetHelperMLP.cs: a row becomes the MLP's input vector. Attributes
 * not used by the model are skipped; a numeric attribute gives its number (0
 * when missing); a categorical one gives a one-hot block over its most
 * frequent values.
 */
module MLPInput {
  import opened Common
  import opened DataContract

  /** The values a categorical attribute is one-hot encoded over; none without metadata. */
  function TopVrijednosti(attr: AtributMeta): seq<string>
  {
    match attr.kategoricki
    case Some(meta) => meta.top5Najcescih
    case None => []
  }

  /** 1.0 where the listed value equals the row's text, 0.0 elsewhere. */
  function OneHot(vrijednosti: seq<string>, vrijednost: Option<string>): (r: seq<real>)
    ensures |r| == |vrijednosti|
    ensures forall i :: 0 <= i < |r| ==> r[i] == 0.0 || r[i] == 1.0
    ensures forall i :: 0 <= i < |r| ==> (r[i] == 1.0 <==> vrijednost == Some(vrijednosti[i]))
  {
    seq(|vrijednosti|, i requires 0 <= i < |vrijednosti| => if Some(vrijednosti[i]) == vrijednost then 1.0 else 0.0)
  }

  /** KategorijskiUOneHot: one entry per top value of the attribute, in list order. */
  function KategorijskiUOneHot(attr: AtributMeta, vrijednost: Option<string>): (r: seq<real>)
    ensures |r| == |TopVrijednosti(attr)|
  {
    OneHot(TopVrijednosti(attr), vrijednost)
  }

  /**
   * The entries of a one-hot block add up to the number of times the row's
   * text occurs in the value list: zero for a missing text or a value outside
   * the list.
   */
  lemma {:induction false} OneHotZbir(vrijednosti: seq<string>, vrijednost: Option<string>)
    ensures Sum(OneHot(vrijednosti, vrijednost)) ==
      if vrijednost.Some? then multiset(vrijednosti)[vrijednost.value] as real else 0.0
  {
    if vrijednosti != [] {
      var r := OneHot(vrijednosti, vrijednost);
      assert r[1..] == OneHot(vrijednosti[1..], vrijednost);
      OneHotZbir(vrijednosti[1..], vrijednost);
      assert vrijednosti == [vrijednosti[0]] + vrijednosti[1..];
      assert multiset(vrijednosti) == multiset{vrijednosti[0]} + multiset(vrijednosti[1..]);
    }
  }

  /**
   * Over a list without repeats, a listed value gives exactly one 1.0, at its
   * position, and every other entry is 0.0; a value outside the list gives
   * only zeros.
   */
  lemma OneHotJedinstven(vrijednosti: seq<string>, v: string)
    requires Distinct(vrijednosti)
    ensures v in vrijednosti ==>
      var k := IndexOf(vrijednosti, v);
      OneHot(vrijednosti, Some(v))[k] == 1.0 &&
      (forall j :: 0 <= j < |vrijednosti| && j != k ==> OneHot(vrijednosti, Some(v))[j] == 0.0) &&
      Sum(OneHot(vrijednosti, Some(v))) == 1.0
    ensures v !in vrijednosti ==>
      (forall j :: 0 <= j < |vrijednosti| ==> OneHot(vrijednosti, Some(v))[j] == 0.0) &&
      Sum(OneHot(vrijednosti, Some(v))) == 0.0
  {
    OneHotZbir(vrijednosti, Some(v));
    DistinctCount(vrijednosti, v);
  }

  /** In a list without repeats a value occurs once if listed and never otherwise. */
  lemma {:induction false} DistinctCount<T>(s: seq<T>, v: T)
    requires Distinct(s)
    ensures multiset(s)[v] == if v in s then 1 else 0
  {
    if s != [] {
      assert s == [s[0]] + s[1..];
      assert multiset(s) == multiset{s[0]} + multiset(s[1..]);
      assert Distinct(s[1..]);
      DistinctCount(s[1..], v);
      if s[0] == v {
        assert v !in s[1..];
      }
    }
  }

  /** How many entries an attribute contributes when used: one for a number, one per top value otherwise. */
  function SirinaAtributa(attr: AtributMeta): nat
  {
    if attr.tipAtributa == Numericki then 1 else |TopVrijednosti(attr)|
  }

  /** The input width: the contributions of the attributes used by the model. */
  function Sirina(atributi: seq<AtributMeta>): nat
  {
    if atributi == [] then 0
    else (if atributi[0].koristiZaModel then SirinaAtributa(atributi[0]) else 0) + Sirina(atributi[1..])
  }

  /** The block one used attribute contributes: `Broj ?? 0.0`, or the one-hot block of its text. */
  function Dio(attr: AtributMeta, vrijednost: VrijednostAtributa): (d: seq<real>)
    ensures |d| == SirinaAtributa(attr)
  {
    if attr.tipAtributa == Numericki then
      [match vrijednost.broj case Some(b) => b case None => 0.0]
    else KategorijskiUOneHot(attr, vrijednost.tekst)
  }

  /** A block put in front of a result that may have failed. */
  function Nastavi(prefiks: seq<real>, r: Result<seq<real>>): Result<seq<real>>
  {
    match r
    case Ok(v) => Ok(prefiks + v)
    case Err(e) => Err(e)
  }

  /** A used attribute whose name is not a key of the row. */
  predicate Nedostaje(red: RedPodatka, attr: AtributMeta)
  {
    attr.koristiZaModel && attr.naziv !in red.atributi
  }

  /**
   * The input vector of a row: the blocks of the used attributes in list
   * order; the dictionary indexer throws KeyNotFoundException for a used
   * attribute the row lacks.
   */
  function Kodiraj(red: RedPodatka, atributi: seq<AtributMeta>): (r: Result<seq<real>>)
    ensures r.Err? <==> exists i :: 0 <= i < |atributi| && Nedostaje(red, atributi[i])
    ensures r.Err? ==> r.greska == KeyNotFound
    ensures r.Ok? ==> |r.value| == Sirina(atributi)
  {
    if atributi == [] then Ok([])
    else
      var attr := atributi[0];
      var ostatak := Kodiraj(red, atributi[1..]);
      assert forall i :: 0 < i < |atributi| ==> atributi[i] == atributi[1..][i - 1];
      if !attr.koristiZaModel then ostatak
      else if attr.naziv !in red.atributi then Err(KeyNotFound)
      else Nastavi(Dio(attr, red.atributi[attr.naziv]), ostatak)
  }

  /** The result of a concatenation of two failure-or-vector results. */
  function Spoji(a: Result<seq<real>>, b: Result<seq<real>>): Result<seq<real>>
  {
    match a
    case Err(e) => Err(e)
    case Ok(u) => Nastavi(u, b)
  }

  /**
   * The attributes' blocks appear in attribute order: encoding a
   * concatenation of attribute lists concatenates their vectors.
   */
  lemma {:induction false} KodirajSpoj(red: RedPodatka, a: seq<AtributMeta>, b: seq<AtributMeta>)
    ensures Kodiraj(red, a + b) == Spoji(Kodiraj(red, a), Kodiraj(red, b))
  {
    if a == [] {
      assert a + b == b;
      match Kodiraj(red, b)
      case Ok(v) => assert [] + v == v;
      case Err(e) =>
    } else {
      assert (a + b)[0] == a[0];
      assert (a + b)[1..] == a[1..] + b;
      KodirajSpoj(red, a[1..], b);
      var attr := a[0];
      if attr.koristiZaModel && attr.naziv in red.atributi {
        var d := Dio(attr, red.atributi[attr.naziv]);
        match Kodiraj(red, a[1..])
        case Err(e) =>
        case Ok(u) =>
          match Kodiraj(red, b)
          case Err(e) =>
          case Ok(v) => assert d + (u + v) == (d + u) + v;
      }
    }
  }

  /** Attributes the model does not use contribute nothing. */
  lemma {:induction false} NekoristeniNeDoprinose(red: RedPodatka, atributi: seq<AtributMeta>)
    ensures Kodiraj(red, atributi) == Kodiraj(red, Filter((a: AtributMeta) => a.koristiZaModel, atributi))
  {
    if atributi != [] {
      NekoristeniNeDoprinose(red, atributi[1..]);
    }
  }

  /** RedUInputVektor: the blocks are appended to a list attribute by attribute. */
  method RedUInputVektor(red: RedPodatka, atributi: seq<AtributMeta>) returns (r: Result<seq<real>>)
    ensures r == Kodiraj(red, atributi)
  {
    var vektor: seq<real> := [];
    assert atributi[0..] == atributi;
    NastaviPrazno(Kodiraj(red, atributi));
    for i := 0 to |atributi|
      invariant Kodiraj(red, atributi) == Nastavi(vektor, Kodiraj(red, atributi[i..]))
    {
      var attr := atributi[i];
      assert atributi[i..][0] == attr && atributi[i..][1..] == atributi[i + 1..];
      if !attr.koristiZaModel {
        continue;
      }
      if attr.naziv !in red.atributi {
        return Err(KeyNotFound);
      }
      var vrijednost := red.atributi[attr.naziv];
      var dio: seq<real>;
      if attr.tipAtributa == Numericki {
        dio := [match vrijednost.broj case Some(b) => b case None => 0.0];
      } else {
        dio := KategorijskiUOneHot(attr, vrijednost.tekst);
      }
      assert dio == Dio(attr, vrijednost);
      NastaviNastavi(vektor, dio, Kodiraj(red, atributi[i + 1..]));
      vektor := vektor + dio;
    }
    assert atributi[|atributi|..] == [];
    assert vektor + [] == vektor;
    r := Ok(vektor);
  }

  lemma NastaviPrazno(r: Result<seq<real>>)
    ensures Nastavi([], r) == r
  {
    match r
    case Ok(v) => assert [] + v == v;
    case Err(e) =>
  }

  lemma NastaviNastavi(a: seq<real>, b: seq<real>, r: Result<seq<real>>)
    ensures Nastavi(a, Nastavi(b, r)) == Nastavi(a + b, r)
  {
    match r
    case Ok(v) => assert a + (b + v) == (a + b) + v;
    case Err(e) =>
  }
}
