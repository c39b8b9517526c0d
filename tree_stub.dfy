/**
 * StabloKlasifikator.cs of the first model: the tree node and the tree
 * classifier whose builder so far only handles data of a single class.
 */
module DecisionTreeStub {
  import opened Common
  import opened ClassicDataSet

  /** A tree node: the split attribute, the children by attribute value, the class of a leaf. */
  datatype CvorStabla = CvorStabla(atribut: Option<string>, djeca: seq<(string, CvorStabla)>, klasa: Option<string>)

  /** JeList: a node is a leaf exactly when it carries a class. */
  predicate JeList(c: CvorStabla)
  {
    c.klasa.Some?
  }

  /** A node as `new CvorStabla()` makes it: no attribute, no children, no class. */
  const NoviCvor: CvorStabla := CvorStabla(None, [], None)

  /** The distinct classes of the rows. */
  function KlaseRedova(podaci: seq<RedPodatka>): set<string>
  {
    set i | 0 <= i < |podaci| :: podaci[i].klasa
  }

  /** There is exactly one distinct class exactly when there are rows and all share the first row's class. */
  lemma JednaKlasa(podaci: seq<RedPodatka>)
    ensures |KlaseRedova(podaci)| == 1 <==>
      |podaci| > 0 && forall i :: 0 <= i < |podaci| ==> podaci[i].klasa == podaci[0].klasa
  {
    var k := KlaseRedova(podaci);
    if |podaci| > 0 && forall i :: 0 <= i < |podaci| ==> podaci[i].klasa == podaci[0].klasa {
      assert k == {podaci[0].klasa};
    }
    if |k| == 1 {
      var x := podaci[0].klasa;
      assert x in k;
      assert |k - {x}| == 0;
      assert k == {x};
      forall i | 0 <= i < |podaci|
        ensures podaci[i].klasa == x
      {
        assert podaci[i].klasa in k;
      }
    }
  }

  /**
   * IzgradiStablo: when the rows have a single class, a fresh leaf carrying
   * the first row's class. The other case is not written in the source, and
   * no node is built.
   */
  function IzgradiStablo(podaci: MojDataSet): (r: Option<CvorStabla>)
    ensures r.Some? <==>
      (|podaci.podaci| > 0 && forall i :: 0 <= i < |podaci.podaci| ==> podaci.podaci[i].klasa == podaci.podaci[0].klasa)
    ensures r.Some? ==> JeList(r.value) && r.value.atribut.None? && r.value.djeca == []
    ensures r.Some? ==> forall i :: 0 <= i < |podaci.podaci| ==> r.value.klasa == Some(podaci.podaci[i].klasa)
  {
    JednaKlasa(podaci.podaci);
    if |KlaseRedova(podaci.podaci)| == 1 then
      Some(NoviCvor.(klasa := Some(podaci.podaci[0].klasa)))
    else None
  }

  /** StabloKlasifikator: the root of the tree, absent while no tree was built. */
  datatype StabloKlasifikator = StabloKlasifikator(korjen: Option<CvorStabla>)

  /**
   * The constructor: a data set without attributes throws
   * ArgumentException; otherwise the root is built from the whole data set.
   */
  function NoviStabloKlasifikator(podaci: MojDataSet): (r: Result<StabloKlasifikator>)
    ensures r.Err? <==> |podaci.atributi| == 0
    ensures r.Err? ==> r.greska == Argument
    ensures r.Ok? ==> r.value.korjen == IzgradiStablo(podaci)
    ensures r.Ok? && |podaci.podaci| > 0 && (forall i :: 0 <= i < |podaci.podaci| ==> podaci.podaci[i].klasa == podaci.podaci[0].klasa)
      ==> r.value.korjen == Some(CvorStabla(None, [], Some(podaci.podaci[0].klasa)))
  {
    if |podaci.atributi| == 0 then Err(Argument)
    else Ok(StabloKlasifikator(IzgradiStablo(podaci)))
  }
}
