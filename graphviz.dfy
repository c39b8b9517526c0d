/**
 * GraphvizVisualizerHelper.MakeDotFile: the Graphviz DOT text of a decision
 * tree. A recursive printer walks the tree, numbering nodes as it first meets
 * them, and writes one node line per node and one edge line per child entry;
 * the graph is named after the output file, and the returned path carries
 * the `.dot` extension.
 *
 * The tree is a value, so a node is identified by its path from the root (the
 * child positions taken); the dictionary of node ids is keyed by that path.
 * The text builder holds structured lines that `Tekst` renders.
 */
module DotWriter {
  import opened Common

  /**
   * The members of a tree node the writer reads: the split attribute, the
   * children in dictionary order with their branch values, the class of a
   * leaf, the leaf flag, and the numeric-split flag with its threshold. The
   * node class that defines the leaf flag is not part of this model, so the
   * flag is carried as it is read.
   */
  datatype Cvor = Cvor(atribut: Option<string>, djeca: seq<(string, Cvor)>, klasa: Option<string>,
                       jeList: bool, isNumericki: bool, threshold: real)

  /** String interpolation of a possibly null string: null prints as nothing. */
  function Umetni(s: Option<string>): string
  {
    match s
    case Some(t) => t
    case None => ""
  }

  /**
   * A node's label: the class of a leaf, `attribute <= threshold` for a
   * numeric split (the `0.###` formatting is the parameter), and the bare
   * attribute otherwise.
   */
  function Oznaka(c: Cvor, formatPraga: real -> string): string
  {
    if c.jeList then "Klasa: " + Umetni(c.klasa)
    else if c.isNumericki then Umetni(c.atribut) + " <= " + formatPraga(c.threshold)
    else Umetni(c.atribut)
  }

  /** One line of the DOT text. */
  datatype Linija =
    | Zaglavlje(naziv: string)
    | Oblik
    | CvorLinija(id: nat, oznaka: string)
    | GranaLinija(od: nat, prema: nat, kljuc: string)
    | Kraj

  /** The decimal digits of a number. */
  function Decimalno(n: nat): (s: string)
    ensures |s| > 0 && forall k :: 0 <= k < |s| ==> '0' <= s[k] <= '9'
  {
    var znamenka := ['0' + (n % 10) as char];
    if n < 10 then znamenka else Decimalno(n / 10) + znamenka
  }

  /** The text of one line, without its line break. */
  function Red(l: Linija): string
  {
    match l
    case Zaglavlje(naziv) => "digraph " + naziv + " {"
    case Oblik => "node [shape=box];"
    case CvorLinija(id, oznaka) => "node" + Decimalno(id) + " [label=\"" + oznaka + "\"];"
    case GranaLinija(od, prema, kljuc) =>
      "node" + Decimalno(od) + " -> node" + Decimalno(prema) + " [label=\"" + kljuc + "\"];"
    case Kraj => "}"
  }

  /** The texts of the items, one after another. */
  function Spoji<T>(s: seq<T>, f: T -> string): string
  {
    if s == [] then "" else Spoji(s[..|s| - 1], f) + f(s[|s| - 1])
  }

  lemma {:induction false} SpojiSpoj<T>(a: seq<T>, b: seq<T>, f: T -> string)
    ensures Spoji(a + b, f) == Spoji(a, f) + Spoji(b, f)
    decreases |b|
  {
    if b == [] {
      assert a + b == a;
    } else {
      var b' := b[..|b| - 1];
      assert (a + b)[..|a + b| - 1] == a + b';
      SpojiSpoj(a, b', f);
    }
  }

  /** The builder's text: every line followed by the line break. */
  function Tekst(linije: seq<Linija>, noviRed: string): string
  {
    Spoji(linije, l => Red(l) + noviRed)
  }

  lemma TekstSpoj(a: seq<Linija>, b: seq<Linija>, noviRed: string)
    ensures Tekst(a + b, noviRed) == Tekst(a, noviRed) + Tekst(b, noviRed)
  {
    SpojiSpoj(a, b, l => Red(l) + noviRed);
  }

  // ---------------------------------------------------------------------
  // Name sanitising and the output path

  /** The directory separators a path may use. */
  predicate JeSeparator(ch: char)
  {
    ch == '/' || ch == '\\'
  }

  predicate JeSlovo(ch: char)
  {
    'a' <= ch <= 'z' || 'A' <= ch <= 'Z'
  }

  /** The last position holding a character with property p, or -1. */
  function ZadnjiIndeks(s: string, p: char -> bool): (k: int)
    ensures -1 <= k < |s|
    ensures k >= 0 ==> p(s[k])
    ensures forall j :: k < j < |s| ==> !p(s[j])
  {
    if s == [] then -1
    else if p(s[|s| - 1]) then |s| - 1
    else ZadnjiIndeks(s[..|s| - 1], p)
  }

  /** Path.GetFileNameWithoutExtension: after the last separator, before the file name's last dot. */
  function ImeBezEkstenzije(putanja: string): (ime: string)
    ensures forall k :: 0 <= k < |ime| ==> !JeSeparator(ime[k])
  {
    var ime := putanja[ZadnjiIndeks(putanja, JeSeparator) + 1..];
    var tacka := ZadnjiIndeks(ime, ch => ch == '.');
    if tacka < 0 then ime else ime[..tacka]
  }

  /** The graph's name: the file name without extension, stripped of everything but ASCII letters. */
  function NazivGrafa(putanja: string): (naziv: string)
    ensures forall k :: 0 <= k < |naziv| ==> JeSlovo(naziv[k])
    ensures forall ch :: ch in ImeBezEkstenzije(putanja) && JeSlovo(ch) ==> ch in naziv
  {
    Filter(JeSlovo, ImeBezEkstenzije(putanja))
  }

  const Dot: string := ".dot"

  predicate ZavrsavaNa(s: string, sufiks: string)
  {
    |sufiks| <= |s| && s[|s| - |sufiks|..] == sufiks
  }

  /**
   * Path.ChangeExtension(putanja, ".dot"): an empty path stays empty;
   * otherwise everything from the last dot after the last separator is
   * replaced by `.dot`, or `.dot` is appended when there is no such dot.
   */
  function PromijeniEkstenziju(putanja: string): (r: string)
    ensures |putanja| == 0 ==> r == ""
    ensures |putanja| > 0 ==> ZavrsavaNa(r, Dot) && r[..|r| - |Dot|] <= putanja
  {
    if |putanja| == 0 then ""
    else
      var k := ZadnjiIndeks(putanja, ch => ch == '.' || JeSeparator(ch));
      if k >= 0 && putanja[k] == '.' then putanja[..k] + Dot else putanja + Dot
  }

  /** The returned path: kept when it already ends in `.dot`, otherwise with its extension changed. */
  function DotPutanja(putanja: string): (r: string)
    ensures |putanja| == 0 <==> r == ""
    ensures |putanja| > 0 ==> ZavrsavaNa(r, Dot)
    ensures ZavrsavaNa(putanja, Dot) ==> r == putanja
  {
    if ZavrsavaNa(putanja, Dot) then putanja else PromijeniEkstenziju(putanja)
  }

  /** Asking for the `.dot` path of a `.dot` path changes nothing. */
  lemma DotPutanjaIdempotentna(putanja: string)
    ensures DotPutanja(DotPutanja(putanja)) == DotPutanja(putanja)
  {
  }

  // ---------------------------------------------------------------------
  // The tree in preorder

  /** The number of nodes of a tree. */
  function Velicina(c: Cvor): (v: nat)
    ensures v >= 1
    decreases c, |c.djeca| + 1
  {
    1 + VelicinaDjece(c, |c.djeca|)
  }

  /** The number of nodes under the first n child entries of a node. */
  function VelicinaDjece(c: Cvor, n: nat): nat
    requires n <= |c.djeca|
    decreases c, n
  {
    if n == 0 then 0
    else VelicinaDjece(c, n - 1) + Velicina(c.djeca[n - 1].1)
  }

  /** The nodes in preorder: a node, then each child's subtree in turn. */
  function Cvorovi(c: Cvor): (s: seq<Cvor>)
    ensures |s| == Velicina(c) && s[0] == c
    decreases c, |c.djeca| + 1
  {
    [c] + CvoroviDjece(c, |c.djeca|)
  }

  function CvoroviDjece(c: Cvor, n: nat): (s: seq<Cvor>)
    requires n <= |c.djeca|
    ensures |s| == VelicinaDjece(c, n)
    decreases c, n
  {
    if n == 0 then []
    else CvoroviDjece(c, n - 1) + Cvorovi(c.djeca[n - 1].1)
  }

  /** The paths of the nodes in preorder, under the path of the tree's root. */
  function Putevi(c: Cvor, put: seq<nat>): (s: seq<seq<nat>>)
    ensures |s| == Velicina(c) && s[0] == put
    decreases c, |c.djeca| + 1
  {
    [put] + PuteviDjece(c, |c.djeca|, put)
  }

  function PuteviDjece(c: Cvor, n: nat, put: seq<nat>): (s: seq<seq<nat>>)
    requires n <= |c.djeca|
    ensures |s| == VelicinaDjece(c, n)
    decreases c, n
  {
    if n == 0 then []
    else PuteviDjece(c, n - 1, put) + Putevi(c.djeca[n - 1].1, put + [n - 1])
  }

  /** q lies strictly below p. */
  predicate Potomak(p: seq<nat>, q: seq<nat>)
  {
    |p| < |q| && q[..|p|] == p
  }

  /** Below a path below p is below p, through the same child of p. */
  lemma PotomakPotomka(p: seq<nat>, d: seq<nat>, q: seq<nat>)
    requires Potomak(p, d)
    ensures Potomak(d, q) ==> Potomak(p, q) && q[|p|] == d[|p|]
  {
    if Potomak(d, q) {
      assert q[..|p|] == q[..|d|][..|p|];
      assert q[|p|] == q[..|d|][|p|];
    }
  }

  /** Every path of a subtree starts with the subtree's own path. */
  lemma {:induction false} PuteviPodPutem(c: Cvor, put: seq<nat>)
    ensures forall q :: q in Putevi(c, put) ==> q == put || Potomak(put, q)
    decreases c, |c.djeca| + 1
  {
    PuteviDjecePodPutem(c, |c.djeca|, put);
  }

  /** The paths under the first n child entries lie below the parent and name one of those children. */
  lemma {:induction false} PuteviDjecePodPutem(c: Cvor, n: nat, put: seq<nat>)
    requires n <= |c.djeca|
    ensures forall q :: q in PuteviDjece(c, n, put) ==> Potomak(put, q) && q[|put|] < n
    decreases c, n
  {
    if n > 0 {
      var k := n - 1;
      PuteviDjecePodPutem(c, k, put);
      PuteviPodPutem(c.djeca[k].1, put + [k]);
      forall q | q in Putevi(c.djeca[k].1, put + [k])
        ensures Potomak(put, q) && q[|put|] == k
      {
        assert q[..|put| + 1] == put + [k];
        assert q[..|put|] == (put + [k])[..|put|];
      }
    }
  }

  /** Distinct nodes have distinct paths. */
  lemma {:induction false} PuteviRazliciti(c: Cvor, put: seq<nat>)
    ensures Distinct(Putevi(c, put))
    decreases c, |c.djeca| + 1
  {
    PuteviDjeceRazliciti(c, |c.djeca|, put);
    PuteviDjecePodPutem(c, |c.djeca|, put);
    DistinctCons(put, PuteviDjece(c, |c.djeca|, put));
  }

  lemma {:induction false} PuteviDjeceRazliciti(c: Cvor, n: nat, put: seq<nat>)
    requires n <= |c.djeca|
    ensures Distinct(PuteviDjece(c, n, put))
    decreases c, n
  {
    if n > 0 {
      var k := n - 1;
      var a := PuteviDjece(c, k, put);
      var b := Putevi(c.djeca[k].1, put + [k]);
      PuteviDjeceRazliciti(c, k, put);
      PuteviRazliciti(c.djeca[k].1, put + [k]);
      PuteviDjecePodPutem(c, k, put);
      PuteviPodPutem(c.djeca[k].1, put + [k]);
      forall q | q in b
        ensures q !in a
      {
        assert q[..|put| + 1] == put + [k];
        assert q[|put|] == k;
      }
      DistinctAppend(a, b);
    }
  }

  lemma DistinctCons<T>(x: T, s: seq<T>)
    requires Distinct(s) && x !in s
    ensures Distinct([x] + s)
  {
    var t := [x] + s;
    forall i, j | 0 <= i < j < |t|
      ensures t[i] != t[j]
    {
      assert t[j] == s[j - 1];
      if i > 0 {
        assert t[i] == s[i - 1];
      }
    }
  }

  lemma DistinctAppend<T>(a: seq<T>, b: seq<T>)
    requires Distinct(a) && Distinct(b)
    requires forall q :: q in b ==> q !in a
    ensures Distinct(a + b)
  {
    var t := a + b;
    forall i, j | 0 <= i < j < |t|
      ensures t[i] != t[j]
    {
      if j < |a| {
        assert t[i] == a[i] && t[j] == a[j];
      } else if i < |a| {
        assert t[i] == a[i] && t[j] == b[j - |a|];
        assert b[j - |a|] in b;
      } else {
        assert t[i] == b[i - |a|] && t[j] == b[j - |a|];
      }
    }
  }

  // ---------------------------------------------------------------------
  // What the printer writes

  /**
   * The lines the printer writes for a subtree whose root has id `start`:
   * the root's node line, then for each child entry in order an edge line to
   * the child, whose id is the next unused one, followed by the child's own
   * lines.
   */
  function Ispis(c: Cvor, start: nat, formatPraga: real -> string): seq<Linija>
    decreases c, |c.djeca| + 1
  {
    [CvorLinija(start, Oznaka(c, formatPraga))] + IspisDjece(c, |c.djeca|, start, formatPraga)
  }

  /** The lines written for the first n child entries of a node with id `start`. */
  function IspisDjece(c: Cvor, n: nat, start: nat, formatPraga: real -> string): seq<Linija>
    requires n <= |c.djeca|
    decreases c, n
  {
    if n == 0 then []
    else
      var id := start + 1 + VelicinaDjece(c, n - 1);
      IspisDjece(c, n - 1, start, formatPraga) +
      [GranaLinija(start, id, c.djeca[n - 1].0)] + Ispis(c.djeca[n - 1].1, id, formatPraga)
  }

  /** The whole DOT text: the graph header, the box shape, the tree, the closing brace. */
  function DotLinije(korijen: Cvor, naziv: string, formatPraga: real -> string): seq<Linija>
  {
    [Zaglavlje(naziv), Oblik] + Ispis(korijen, 0, formatPraga) + [Kraj]
  }

  /** The node lines among some lines, in order. */
  function CvorLinije(linije: seq<Linija>): (r: seq<Linija>)
    ensures forall k :: 0 <= k < |r| ==> r[k].CvorLinija?
  {
    if linije == [] then []
    else
      var zadnja := linije[|linije| - 1];
      CvorLinije(linije[..|linije| - 1]) + (if zadnja.CvorLinija? then [zadnja] else [])
  }

  /** The targets of the edge lines among some lines, in order. */
  function CiljeviGrana(linije: seq<Linija>): seq<nat>
  {
    if linije == [] then []
    else
      var zadnja := linije[|linije| - 1];
      CiljeviGrana(linije[..|linije| - 1]) + (if zadnja.GranaLinija? then [zadnja.prema] else [])
  }

  lemma {:induction false} CvorLinijeSpoj(a: seq<Linija>, b: seq<Linija>)
    ensures CvorLinije(a + b) == CvorLinije(a) + CvorLinije(b)
    decreases |b|
  {
    if b != [] {
      var b' := b[..|b| - 1];
      assert (a + b)[..|a + b| - 1] == a + b';
      CvorLinijeSpoj(a, b');
    } else {
      assert a + b == a;
    }
  }

  lemma {:induction false} CiljeviGranaSpoj(a: seq<Linija>, b: seq<Linija>)
    ensures CiljeviGrana(a + b) == CiljeviGrana(a) + CiljeviGrana(b)
    decreases |b|
  {
    if b != [] {
      var b' := b[..|b| - 1];
      assert (a + b)[..|a + b| - 1] == a + b';
      CiljeviGranaSpoj(a, b');
    } else {
      assert a + b == a;
    }
  }

  /** The node lines numbered from `start`, one per node, each with its node's label. */
  function Oznaceni(cvorovi: seq<Cvor>, start: nat, formatPraga: real -> string): (r: seq<Linija>)
    ensures |r| == |cvorovi|
  {
    seq(|cvorovi|, k requires 0 <= k < |cvorovi| => CvorLinija(start + k, Oznaka(cvorovi[k], formatPraga)))
  }

  lemma OznaceniSpoj(a: seq<Cvor>, b: seq<Cvor>, start: nat, formatPraga: real -> string)
    ensures Oznaceni(a + b, start, formatPraga) ==
      Oznaceni(a, start, formatPraga) + Oznaceni(b, start + |a|, formatPraga)
  {
    var l := Oznaceni(a + b, start, formatPraga);
    var r := Oznaceni(a, start, formatPraga) + Oznaceni(b, start + |a|, formatPraga);
    forall k | 0 <= k < |l|
      ensures l[k] == r[k]
    {
      if k >= |a| {
        assert (a + b)[k] == b[k - |a|];
      }
    }
  }

  /** The consecutive numbers from `start`. */
  function Raspon(start: nat, n: nat): (r: seq<nat>)
    ensures |r| == n
  {
    seq(n, k requires 0 <= k < n => start + k)
  }

  lemma RasponSpoj(start: nat, a: nat, b: nat)
    ensures Raspon(start, a) + Raspon(start + a, b) == Raspon(start, a + b)
  {
    var l := Raspon(start, a) + Raspon(start + a, b);
    assert forall k :: 0 <= k < a + b ==> l[k] == start + k;
  }

  /**
   * Exactly one node line per node: the printer's node lines are the nodes in
   * preorder, numbered consecutively from the subtree's id, each labelled
   * with its node's label.
   */
  lemma {:induction false} JednaLinijaPoCvoru(c: Cvor, start: nat, formatPraga: real -> string)
    ensures CvorLinije(Ispis(c, start, formatPraga)) == Oznaceni(Cvorovi(c), start, formatPraga)
    decreases c, |c.djeca| + 1
  {
    var glava := [CvorLinija(start, Oznaka(c, formatPraga))];
    var djeca := IspisDjece(c, |c.djeca|, start, formatPraga);
    var ispod := CvoroviDjece(c, |c.djeca|);
    calc {
      CvorLinije(Ispis(c, start, formatPraga));
      CvorLinije(glava + djeca);
      == { CvorLinijeSpoj(glava, djeca); }
      CvorLinije(glava) + CvorLinije(djeca);
      == { assert CvorLinije(glava) == glava by { assert glava[..0] == []; }
           CvorLinijeDjece(c, |c.djeca|, start, formatPraga); }
      glava + Oznaceni(ispod, start + 1, formatPraga);
      == { OznaceniSpoj([c], ispod, start, formatPraga); }
      Oznaceni([c] + ispod, start, formatPraga);
    }
  }

  lemma {:induction false} CvorLinijeDjece(c: Cvor, n: nat, start: nat, formatPraga: real -> string)
    requires n <= |c.djeca|
    ensures CvorLinije(IspisDjece(c, n, start, formatPraga)) ==
      Oznaceni(CvoroviDjece(c, n), start + 1, formatPraga)
    decreases c, n
  {
    if n > 0 {
      var k := n - 1;
      var id := start + 1 + VelicinaDjece(c, k);
      var a := IspisDjece(c, k, start, formatPraga);
      var g := [GranaLinija(start, id, c.djeca[k].0)];
      var b := Ispis(c.djeca[k].1, id, formatPraga);
      var prije := CvoroviDjece(c, k);
      var poddrvo := Cvorovi(c.djeca[k].1);
      assert IspisDjece(c, n, start, formatPraga) == a + g + b;
      assert CvoroviDjece(c, n) == prije + poddrvo;
      calc {
        CvorLinije(a + g + b);
        == { CvorLinijeSpoj(a + g, b); }
        CvorLinije(a + g) + CvorLinije(b);
        == { CvorLinijeSpoj(a, g); assert CvorLinije(g) == [] by { assert g[..0] == []; } }
        CvorLinije(a) + CvorLinije(b);
        == { CvorLinijeDjece(c, k, start, formatPraga); JednaLinijaPoCvoru(c.djeca[k].1, id, formatPraga); }
        Oznaceni(prije, start + 1, formatPraga) + Oznaceni(poddrvo, id, formatPraga);
        == { OznaceniSpoj(prije, poddrvo, start + 1, formatPraga); }
        Oznaceni(prije + poddrvo, start + 1, formatPraga);
      }
    }
  }

  /**
   * One edge line per child entry: the edges lead, in order, to every node
   * of the subtree but its root, so each of them is entered exactly once.
   */
  lemma {:induction false} JednaGranaPoDjetetu(c: Cvor, start: nat, formatPraga: real -> string)
    ensures CiljeviGrana(Ispis(c, start, formatPraga)) == Raspon(start + 1, Velicina(c) - 1)
    decreases c, |c.djeca| + 1
  {
    var glava := [CvorLinija(start, Oznaka(c, formatPraga))];
    CiljeviGranaSpoj(glava, IspisDjece(c, |c.djeca|, start, formatPraga));
    assert CiljeviGrana(glava) == [] by {
      assert glava[..0] == [];
    }
    CiljeviGranaDjece(c, |c.djeca|, start, formatPraga);
  }

  lemma {:induction false} CiljeviGranaDjece(c: Cvor, n: nat, start: nat, formatPraga: real -> string)
    requires n <= |c.djeca|
    ensures CiljeviGrana(IspisDjece(c, n, start, formatPraga)) == Raspon(start + 1, VelicinaDjece(c, n))
    decreases c, n
  {
    if n > 0 {
      var k := n - 1;
      var v := VelicinaDjece(c, k);
      var id := start + 1 + v;
      var a := IspisDjece(c, k, start, formatPraga);
      var g := [GranaLinija(start, id, c.djeca[k].0)];
      var b := Ispis(c.djeca[k].1, id, formatPraga);
      var w := Velicina(c.djeca[k].1);
      assert IspisDjece(c, n, start, formatPraga) == a + g + b;
      calc {
        CiljeviGrana(a + g + b);
        == { CiljeviGranaSpoj(a + g, b); }
        CiljeviGrana(a + g) + CiljeviGrana(b);
        == { CiljeviGranaSpoj(a, g); assert CiljeviGrana(g) == [id] by { assert g[..0] == []; } }
        CiljeviGrana(a) + [id] + CiljeviGrana(b);
        == { CiljeviGranaDjece(c, k, start, formatPraga); JednaGranaPoDjetetu(c.djeca[k].1, id, formatPraga); }
        Raspon(start + 1, v) + [id] + Raspon(id + 1, w - 1);
        == { RasponSpoj(start + 1, v, 1); assert Raspon(start + 1 + v, 1) == [id]; }
        Raspon(start + 1, v + 1) + Raspon(id + 1, w - 1);
        == { RasponSpoj(start + 1, v + 1, w - 1); }
        Raspon(start + 1, v + w);
      }
    }
  }

  /** The text begins with the graph header and the box shape, and ends with the closing brace. */
  lemma OkvirTeksta(korijen: Cvor, naziv: string, formatPraga: real -> string, noviRed: string)
    ensures var t := Tekst(DotLinije(korijen, naziv, formatPraga), noviRed);
      var pocetak := "digraph " + naziv + " {" + noviRed + "node [shape=box];" + noviRed;
      var kraj := "}" + noviRed;
      |pocetak| + |kraj| <= |t| && t[..|pocetak|] == pocetak && t[|t| - |kraj|..] == kraj
  {
    TekstDijelova(korijen, naziv, formatPraga, noviRed);
    TekstZaglavlja(naziv, noviRed);
    JedanRed(Kraj, noviRed);
    Okvir(Tekst([Zaglavlje(naziv), Oblik], noviRed), Tekst(Ispis(korijen, 0, formatPraga), noviRed),
          Tekst([Kraj], noviRed));
  }

  /** The text of the whole DOT file is the header's, the tree's and the footer's, in order. */
  lemma TekstDijelova(korijen: Cvor, naziv: string, formatPraga: real -> string, noviRed: string)
    ensures Tekst(DotLinije(korijen, naziv, formatPraga), noviRed) ==
      Tekst([Zaglavlje(naziv), Oblik], noviRed) + Tekst(Ispis(korijen, 0, formatPraga), noviRed) +
      Tekst([Kraj], noviRed)
  {
    var a := [Zaglavlje(naziv), Oblik];
    var b := Ispis(korijen, 0, formatPraga);
    TekstSpoj(a + b, [Kraj], noviRed);
    TekstSpoj(a, b, noviRed);
  }

  /** The header's text: the graph line and the box shape, each followed by the break. */
  lemma TekstZaglavlja(naziv: string, noviRed: string)
    ensures Tekst([Zaglavlje(naziv), Oblik], noviRed) ==
      "digraph " + naziv + " {" + noviRed + "node [shape=box];" + noviRed
  {
    assert [Zaglavlje(naziv), Oblik] == [Zaglavlje(naziv)] + [Oblik];
    TekstSpoj([Zaglavlje(naziv)], [Oblik], noviRed);
    JedanRed(Zaglavlje(naziv), noviRed);
    JedanRed(Oblik, noviRed);
  }

  /** The text of a single line is that line followed by the break. */
  lemma JedanRed(l: Linija, noviRed: string)
    ensures Tekst([l], noviRed) == Red(l) + noviRed
  {
    var f := (x: Linija) => Red(x) + noviRed;
    assert [l][..0] == [];
    assert Spoji([l], f) == Spoji([], f) + f(l);
  }

  /** A concatenation starts with its first part and ends with its last. */
  lemma Okvir(a: string, b: string, c: string)
    ensures var t := a + b + c;
      |a| + |c| <= |t| && t[..|a|] == a && t[|t| - |c|..] == c
  {
  }

  // ---------------------------------------------------------------------
  // The id dictionary

  /** A dictionary after the paths are given consecutive ids from `start`, in order. */
  function Dodijeli(m: map<seq<nat>, nat>, putevi: seq<seq<nat>>, start: nat): map<seq<nat>, nat>
  {
    if putevi == [] then m
    else Dodijeli(m, putevi[..|putevi| - 1], start)[putevi[|putevi| - 1] := start + |putevi| - 1]
  }

  lemma {:induction false} DodijeliKljucevi(m: map<seq<nat>, nat>, putevi: seq<seq<nat>>, start: nat)
    ensures forall q :: q in Dodijeli(m, putevi, start) <==> q in m || q in putevi
  {
    if putevi != [] {
      var n := |putevi| - 1;
      DodijeliKljucevi(m, putevi[..n], start);
      assert putevi == putevi[..n] + [putevi[n]];
    }
  }

  lemma {:induction false} DodijeliSpoj(m: map<seq<nat>, nat>, a: seq<seq<nat>>, b: seq<seq<nat>>, start: nat)
    ensures Dodijeli(m, a + b, start) == Dodijeli(Dodijeli(m, a, start), b, start + |a|)
    decreases |b|
  {
    if b == [] {
      assert a + b == a;
    } else {
      var b' := b[..|b| - 1];
      assert (a + b)[..|a + b| - 1] == a + b';
      DodijeliSpoj(m, a, b', start);
    }
  }

  /** With distinct paths, the k-th path gets id start + k. */
  lemma {:induction false} DodijeliVrijednosti(m: map<seq<nat>, nat>, putevi: seq<seq<nat>>, start: nat)
    requires Distinct(putevi)
    ensures forall k :: 0 <= k < |putevi| ==>
      putevi[k] in Dodijeli(m, putevi, start) && Dodijeli(m, putevi, start)[putevi[k]] == start + k
  {
    if putevi != [] {
      var n := |putevi| - 1;
      assert Distinct(putevi[..n]);
      DodijeliVrijednosti(m, putevi[..n], start);
      DodijeliKljucevi(m, putevi[..n], start);
      forall k | 0 <= k < n
        ensures putevi[k] != putevi[n]
      {
      }
    }
  }

  /**
   * Node ids are given in first-visit preorder from 0: the k-th node in
   * preorder gets id k, so distinct nodes get distinct ids and the ids are
   * exactly 0 up to the node count.
   */
  lemma IdPoPreorderu(korijen: Cvor)
    ensures var ids := Dodijeli(map[], Putevi(korijen, []), 0);
      (forall q :: q in ids <==> q in Putevi(korijen, [])) &&
      (forall k :: 0 <= k < Velicina(korijen) ==>
        Putevi(korijen, [])[k] in ids && ids[Putevi(korijen, [])[k]] == k)
    ensures Distinct(Putevi(korijen, []))
  {
    PuteviRazliciti(korijen, []);
    DodijeliKljucevi(map[], Putevi(korijen, []), 0);
    DodijeliVrijednosti(map[], Putevi(korijen, []), 0);
  }

  // ---------------------------------------------------------------------
  // The printer

  /** The id a node's lines start from: its id when it already has one, else the next unused id. */
  function PocetniId(nodeIds: map<seq<nat>, nat>, id: nat, put: seq<nat>): nat
  {
    if put in nodeIds then nodeIds[put] else id
  }

  /** The state the nested printer shares: the text builder, the id counter and the id dictionary. */
  class DotPisac {
    var sb: seq<Linija>
    var id: nat
    var nodeIds: map<seq<nat>, nat>
    const formatPraga: real -> string

    constructor (formatPraga: real -> string)
      ensures sb == [] && id == 0 && nodeIds == map[] && this.formatPraga == formatPraga
    {
      sb := [];
      id := 0;
      nodeIds := map[];
      this.formatPraga := formatPraga;
    }

    /** AppendLine. */
    method DodajLiniju(l: Linija)
      modifies this`sb
      ensures sb == old(sb) + [l]
    {
      sb := sb + [l];
    }

    /**
     * Print: gives the node an id unless it has one, writes its node line,
     * then for each child gives it the next id, writes the edge and prints
     * the child. A node that already has an id got it just before the call.
     */
    method Print(cvor: Cvor, put: seq<nat>)
      requires put in nodeIds ==> nodeIds[put] + 1 == id
      requires forall q :: q in nodeIds ==> !Potomak(put, q)
      modifies this`sb, this`id, this`nodeIds
      ensures var start := PocetniId(old(nodeIds), old(id), put);
        sb == old(sb) + Ispis(cvor, start, formatPraga) &&
        id == start + Velicina(cvor) &&
        nodeIds == Dodijeli(old(nodeIds), Putevi(cvor, put), start)
      decreases cvor, 1
    {
      ghost var start := PocetniId(nodeIds, id, put);
      ghost var prije := nodeIds;
      if put !in nodeIds {
        nodeIds := nodeIds[put := id];
        id := id + 1;
      } else {
        assert nodeIds[put := start] == nodeIds;
      }
      assert Dodijeli(prije, [put], start) == prije[put := start] by {
        var prazno: seq<seq<nat>> := [];
        assert [put][..0] == prazno;
      }
      var cvorId := nodeIds[put];
      sb := sb + [CvorLinija(cvorId, Oznaka(cvor, formatPraga))];
      assert [put] + PuteviDjece(cvor, 0, put) == [put];
      for i := 0 to |cvor.djeca|
        invariant sb == old(sb) + [CvorLinija(start, Oznaka(cvor, formatPraga))] +
          IspisDjece(cvor, i, start, formatPraga)
        invariant id == start + 1 + VelicinaDjece(cvor, i)
        invariant nodeIds == Dodijeli(prije, [put] + PuteviDjece(cvor, i, put), start)
      {
        PrintDijete(cvor, put, i, cvorId, old(sb), prije);
      }
    }

    /**
     * One pass of Print's loop over the children: child i gets the next id,
     * its edge line is written and the child is printed.
     */
    method PrintDijete(cvor: Cvor, put: seq<nat>, i: nat, cvorId: nat, ghost pocetak: seq<Linija>,
                       ghost prije: map<seq<nat>, nat>)
      requires i < |cvor.djeca|
      requires forall q :: q in prije ==> !Potomak(put, q)
      requires sb == pocetak + [CvorLinija(cvorId, Oznaka(cvor, formatPraga))] +
        IspisDjece(cvor, i, cvorId, formatPraga)
      requires id == cvorId + 1 + VelicinaDjece(cvor, i)
      requires nodeIds == Dodijeli(prije, [put] + PuteviDjece(cvor, i, put), cvorId)
      modifies this`sb, this`id, this`nodeIds
      ensures sb == pocetak + [CvorLinija(cvorId, Oznaka(cvor, formatPraga))] +
        IspisDjece(cvor, i + 1, cvorId, formatPraga)
      ensures id == cvorId + 1 + VelicinaDjece(cvor, i + 1)
      ensures nodeIds == Dodijeli(prije, [put] + PuteviDjece(cvor, i + 1, put), cvorId)
      decreases cvor, 0
    {
      var (kljuc, dijete) := cvor.djeca[i];
      var q := put + [i];
      ghost var idDjeteta := id;
      ghost var stanje := nodeIds;
      DjeteNijeDodijeljeno(prije, cvor, put, i, cvorId);
      nodeIds := nodeIds[q := id];
      id := id + 1;
      var childId := nodeIds[q];
      sb := sb + [GranaLinija(cvorId, childId, kljuc)];
      Print(dijete, q);
      DodijeliDijete(prije, cvor, put, i, cvorId, stanje, idDjeteta);
    }
  }

  /**
   * Before child i is numbered, neither its path nor any path below it is in
   * the dictionary.
   */
  lemma DjeteNijeDodijeljeno(prije: map<seq<nat>, nat>, c: Cvor, put: seq<nat>, i: nat, start: nat)
    requires i < |c.djeca|
    requires forall q :: q in prije ==> !Potomak(put, q)
    ensures var m := Dodijeli(prije, [put] + PuteviDjece(c, i, put), start);
      forall q :: q in m ==> q != put + [i] && !Potomak(put + [i], q)
  {
    var m := Dodijeli(prije, [put] + PuteviDjece(c, i, put), start);
    DodijeliKljucevi(prije, [put] + PuteviDjece(c, i, put), start);
    PuteviDjecePodPutem(c, i, put);
    var d := put + [i];
    assert d[|put|] == i && Potomak(put, d) && d[..|put|] == put;
    forall q | q in m
      ensures q != d && !Potomak(d, q)
    {
      PotomakPotomka(put, d, q);
    }
  }

  /**
   * The dictionary after child i is numbered and printed is the dictionary
   * of the first i + 1 children.
   */
  lemma DodijeliDijete(prije: map<seq<nat>, nat>, c: Cvor, put: seq<nat>, i: nat,
                       start: nat, stanje: map<seq<nat>, nat>, idDjeteta: nat)
    requires i < |c.djeca|
    requires stanje == Dodijeli(prije, [put] + PuteviDjece(c, i, put), start)
    requires idDjeteta == start + 1 + VelicinaDjece(c, i)
    ensures Dodijeli(stanje[put + [i] := idDjeteta], Putevi(c.djeca[i].1, put + [i]), idDjeteta) ==
      Dodijeli(prije, [put] + PuteviDjece(c, i + 1, put), start)
  {
    var q := put + [i];
    var a := [put] + PuteviDjece(c, i, put);
    var ostatak := PuteviDjece(c.djeca[i].1, |c.djeca[i].1.djeca|, q);
    var b := Putevi(c.djeca[i].1, q);
    assert [put] + PuteviDjece(c, i + 1, put) == a + b;
    DodijeliSpoj(prije, a, b, start);
    assert b == [q] + ostatak;
    DodijeliSpoj(stanje, [q], ostatak, idDjeteta);
    DodijeliSpoj(stanje[q := idDjeteta], [q], ostatak, idDjeteta);
    var prazno: seq<seq<nat>> := [];
    assert [q][..0] == prazno;
    assert stanje[q := idDjeteta][q := idDjeteta] == stanje[q := idDjeteta];
  }

  /**
   * MakeDotFile without its file and process work: the DOT text of the tree
   * and the `.dot` path it would be written to.
   */
  method MakeDotFile(korijen: Cvor, outputFilePath: string, formatPraga: real -> string, noviRed: string)
    returns (putanja: string, sadrzaj: string)
    ensures sadrzaj == Tekst(DotLinije(korijen, NazivGrafa(outputFilePath), formatPraga), noviRed)
    ensures putanja == DotPutanja(outputFilePath)
  {
    var naziv := ImeBezEkstenzije(outputFilePath);
    naziv := Filter(JeSlovo, naziv);
    var pisac := new DotPisac(formatPraga);
    pisac.DodajLiniju(Zaglavlje(naziv));
    pisac.DodajLiniju(Oblik);
    pisac.Print(korijen, []);
    assert pisac.sb == [Zaglavlje(naziv), Oblik] + Ispis(korijen, 0, formatPraga);
    pisac.DodajLiniju(Kraj);
    assert pisac.sb == DotLinije(korijen, naziv, formatPraga);
    sadrzaj := Tekst(pisac.sb, noviRed);
    putanja := outputFilePath;
    if !ZavrsavaNa(putanja, Dot) {
      putanja := PromijeniEkstenziju(putanja);
    }
  }
}
