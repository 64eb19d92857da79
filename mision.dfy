/**
 * The mission manager of the Unity greenhouse: it gives every drone a
 * route of plants (by tag or by proximity), keeps one report per drone and
 * global totals, and detects when every drone has finished.
 *
 * Plants are numbered by their place in the scene's plant list; positions
 * and the distance between two points are inputs (`Geometria`). The scene
 * queries, and the plant predicates the manager calls but the plant class
 * does not define, come in as values. The calls into the UI controller are
 * returned as a list of `LlamadaUi`s, and the routes handed to the drones as
 * a sequence indexed by drone.
 */
module Mision {
  import opened Util

  type Punto = (real, real, real)

  /** Where each plant stands, and the distance between two points. */
  datatype Geometria = Geometria(posicion: nat -> Punto, distancia: (Punto, Punto) -> real) {
    /** How far plant `p` is from `desde`. */
    function Lejania(desde: Punto, p: nat): real {
      distancia(desde, posicion(p))
    }
  }

  /**
   * What the undefined plant predicates answer at the time of the call
   * (`EstaListaParaCosechar`, `EstaMuyVerde`, `TienePlagaActiva`).
   */
  datatype Observacion = Observacion(listaParaCosechar: bool, muyVerde: bool, plagaActiva: bool)

  /** A call into the UI controller. */
  datatype LlamadaUi =
    | UiMostrarAnalisis(planta: nat, idDron: int)
    | UiAlerta(planta: nat, idDron: int, mensaje: string)
    | UiAlertaPlaga(planta: nat, idDron: int)
    | UiAccion(accion: string, planta: nat, idDron: int)

  const ALERTA_COSECHA: string := "\U{1F33E} Lista para cosechar"
  const ALERTA_VERDE: string := "\U{1F96C} Planta muy verde"
  const ALERTA_PLAGA: string := "\U{1F41B} Plaga detectada"

  /** `0, 1, …, n-1`: the plant list in scene order. */
  function Rango(n: nat): (r: seq<nat>)
    ensures |r| == n
    ensures forall k | 0 <= k < n :: r[k] == k
    ensures Distintos(r)
  {
    if n == 0 then [] else Rango(n - 1) + [n - 1]
  }

  /** `Mathf.CeilToInt((float)n / d)` for positive counts. */
  function Cupo(n: nat, d: nat): (q: nat)
    requires d >= 1
    ensures d * q >= n
    ensures n >= 1 ==> q >= 1
    ensures d * (q - 1) < n || q == 0
  {
    CotaDivision(n + d - 1, d);
    (n + d - 1) / d
  }

  // ---------------------------------------------------------------
  // Nearest first
  // ---------------------------------------------------------------

  /** `OrderBy(distance).First()`: the first of the nearest. */
  function IndiceMasCercano(s: seq<nat>, desde: Punto, g: Geometria): (k: nat)
    requires |s| > 0
    ensures k < |s|
    ensures forall j | 0 <= j < |s| :: g.Lejania(desde, s[k]) <= g.Lejania(desde, s[j])
    ensures forall j | 0 <= j < k :: g.Lejania(desde, s[j]) > g.Lejania(desde, s[k])
  {
    if |s| == 1 then 0
    else
      var k := IndiceMasCercano(s[..|s| - 1], desde, g);
      if g.Lejania(desde, s[|s| - 1]) < g.Lejania(desde, s[k]) then |s| - 1 else k
  }

  /** `List.Remove` of the element at index `k`. */
  function Quitar(s: seq<nat>, k: nat): (r: seq<nat>)
    requires k < |s|
    ensures |r| == |s| - 1
    ensures forall i | 0 <= i < |r| :: r[i] == if i < k then s[i] else s[i + 1]
  {
    s[..k] + s[k + 1..]
  }

  /** Removing an element of a list without repeats takes out exactly that element. */
  lemma QuitarDistintos(s: seq<nat>, k: nat)
    requires k < |s| && Distintos(s)
    ensures Distintos(Quitar(s, k)) && Elementos(Quitar(s, k)) == Elementos(s) - {s[k]}
  {
    var r := Quitar(s, k);
    forall x | x in Elementos(s) - {s[k]} ensures x in Elementos(r) {
      var i :| 0 <= i < |s| && s[i] == x;
      assert r[if i < k then i else i - 1] == x;
    }
  }

  /**
   * The proximity rule for one drone: up to `cupo` times, take the nearest
   * available plant to the last position and move there. The result is the
   * route and the plants still available.
   */
  function Voraz(disp: seq<nat>, desde: Punto, cupo: nat, g: Geometria): (r: (seq<nat>, seq<nat>))
    ensures |r.0| == Min(cupo, |disp|) && |r.0| + |r.1| == |disp|
    decreases cupo
  {
    if cupo == 0 || disp == [] then ([], disp)
    else
      var k := IndiceMasCercano(disp, desde, g);
      var p := disp[k];
      var resto := Voraz(Quitar(disp, k), g.posicion(p), cupo - 1, g);
      ([p] + resto.0, resto.1)
  }

  /** One step of the proximity rule, with the nearest plant removed by value as `List.Remove` does. */
  lemma VorazPaso(disp: seq<nat>, desde: Punto, cupo: nat, g: Geometria)
    requires cupo > 0 && disp != []
    ensures var p := disp[IndiceMasCercano(disp, desde, g)];
      var siguiente := Voraz(Remover(disp, p), g.posicion(p), cupo - 1, g);
      Voraz(disp, desde, cupo, g) == ([p] + siguiente.0, siguiente.1)
  {
    RemoverEnPrimera(disp, IndiceMasCercano(disp, desde, g));
  }

  /** The loop of the proximity rule keeps the route taken so far followed by the rule's remaining picks. */
  lemma VorazAvance(total: (seq<nat>, seq<nat>), ruta: seq<nat>, resto: seq<nat>, pos: Punto, cupo: nat, g: Geometria)
    requires cupo > 0 && resto != []
    requires total.0 == ruta + Voraz(resto, pos, cupo, g).0
    requires total.1 == Voraz(resto, pos, cupo, g).1
    ensures var p := resto[IndiceMasCercano(resto, pos, g)];
      total.0 == (ruta + [p]) + Voraz(Remover(resto, p), g.posicion(p), cupo - 1, g).0
      && total.1 == Voraz(Remover(resto, p), g.posicion(p), cupo - 1, g).1
  {
    var p := resto[IndiceMasCercano(resto, pos, g)];
    VorazPaso(resto, pos, cupo, g);
    var siguiente := Voraz(Remover(resto, p), g.posicion(p), cupo - 1, g);
    assert ruta + ([p] + siguiente.0) == (ruta + [p]) + siguiente.0;
  }

  /** Over plants without repeats, a proximity route and the rest split the plants available. */
  lemma {:induction false} VorazReparte(disp: seq<nat>, desde: Punto, cupo: nat, g: Geometria)
    requires Distintos(disp)
    ensures var r := Voraz(disp, desde, cupo, g);
      Distintos(r.0) && Distintos(r.1) && Elementos(r.0) !! Elementos(r.1)
      && Elementos(r.0) + Elementos(r.1) == Elementos(disp)
    decreases cupo
  {
    if cupo > 0 && disp != [] {
      var k := IndiceMasCercano(disp, desde, g);
      var p := disp[k];
      QuitarDistintos(disp, k);
      var resto := Voraz(Quitar(disp, k), g.posicion(p), cupo - 1, g);
      VorazReparte(Quitar(disp, k), g.posicion(p), cupo - 1, g);
      assert Voraz(disp, desde, cupo, g) == ([p] + resto.0, resto.1);
      ReparteAnteponer(p, resto.0, resto.1, Elementos(disp));
    }
  }

  /** Putting the plant taken first in front of a split of the others splits them all. */
  lemma ReparteAnteponer(p: nat, ruta: seq<nat>, resto: seq<nat>, todos: set<nat>)
    requires p in todos
    requires Distintos(ruta) && Distintos(resto) && Elementos(ruta) !! Elementos(resto)
    requires Elementos(ruta) + Elementos(resto) == todos - {p}
    ensures Distintos([p] + ruta) && Elementos([p] + ruta) !! Elementos(resto)
    ensures Elementos([p] + ruta) + Elementos(resto) == todos
  {
    assert p !in Elementos(ruta);
    DistintosConcat([p], ruta);
    assert Elementos([p] + ruta) == {p} + Elementos(ruta);
  }

  /** Each plant of a proximity route was the first nearest to the previous stop. */
  lemma VorazAlMasCercano(disp: seq<nat>, desde: Punto, cupo: nat, g: Geometria)
    requires cupo > 0 && disp != []
    ensures var r := Voraz(disp, desde, cupo, g);
      r.0[0] in disp && forall q | q in disp :: g.Lejania(desde, r.0[0]) <= g.Lejania(desde, q)
  {
  }

  // ---------------------------------------------------------------
  // Ordering a tagged set by distance
  // ---------------------------------------------------------------

  predicate OrdenadaPorLejania(s: seq<nat>, desde: Punto, g: Geometria) {
    forall i, j | 0 <= i < j < |s| :: g.Lejania(desde, s[i]) <= g.Lejania(desde, s[j])
  }

  /** Inserts after every element at the same distance, which keeps equal elements in input order. */
  function Insertar(x: nat, s: seq<nat>, desde: Punto, g: Geometria): (r: seq<nat>)
    requires OrdenadaPorLejania(s, desde, g)
    ensures multiset(r) == multiset(s) + multiset{x}
    ensures |r| == |s| + 1 && (r[0] == x || (s != [] && r[0] == s[0]))
    ensures OrdenadaPorLejania(r, desde, g)
  {
    if s == [] then [x]
    else if g.Lejania(desde, x) < g.Lejania(desde, s[0]) then
      AnteponerOrdenada(x, s, desde, g);
      [x] + s
    else
      var t := Insertar(x, s[1..], desde, g);
      AnteponerOrdenada(s[0], t, desde, g);
      MultisetCabeza(s);
      MultisetAnteponer(s[0], t);
      [s[0]] + t
  }

  /** An element no farther than the head of a sorted list can go in front of it. */
  lemma AnteponerOrdenada(a: nat, t: seq<nat>, desde: Punto, g: Geometria)
    requires OrdenadaPorLejania(t, desde, g)
    requires t != [] ==> g.Lejania(desde, a) <= g.Lejania(desde, t[0])
    ensures OrdenadaPorLejania([a] + t, desde, g)
  {
    var r := [a] + t;
    assert forall j | 0 < j < |r| :: r[j] == t[j - 1];
  }

  /** `OrderBy(distance)`: a stable sort by distance to `desde`. */
  function OrdenarPorLejania(s: seq<nat>, desde: Punto, g: Geometria): (r: seq<nat>)
    ensures multiset(r) == multiset(s)
    ensures OrdenadaPorLejania(r, desde, g)
  {
    if s == [] then []
    else
      assert s == s[..|s| - 1] + [s[|s| - 1]];
      Insertar(s[|s| - 1], OrdenarPorLejania(s[..|s| - 1], desde, g), desde, g)
  }

  // ---------------------------------------------------------------
  // First claim
  // ---------------------------------------------------------------

  /** The first route, in drone order, that holds plant `p`. */
  function PrimerDueno(rutas: seq<seq<nat>>, p: nat): (r: Option<nat>)
    ensures r.None? <==> forall i | 0 <= i < |rutas| :: p !in rutas[i]
    ensures r.Some? ==> r.value < |rutas| && p in rutas[r.value]
    ensures r.Some? ==> forall j | 0 <= j < r.value :: p !in rutas[j]
  {
    if rutas == [] then None
    else
      var antes := PrimerDueno(rutas[..|rutas| - 1], p);
      if antes.Some? then antes
      else if p in rutas[|rutas| - 1] then Some(|rutas| - 1)
      else None
  }

  lemma PrimerDuenoPrefijo(rutas: seq<seq<nat>>, i: nat, p: nat)
    requires i < |rutas|
    ensures PrimerDueno(rutas[..i + 1], p)
         == if PrimerDueno(rutas[..i], p).Some? then PrimerDueno(rutas[..i], p)
            else if p in rutas[i] then Some(i) else None
  {
    assert rutas[..i + 1][..i] == rutas[..i];
  }

  lemma PrimerDuenoAnexo(rutas: seq<seq<nat>>, r: seq<nat>, p: nat)
    ensures PrimerDueno(rutas + [r], p)
         == if PrimerDueno(rutas, p).Some? then PrimerDueno(rutas, p)
            else if p in r then Some(|rutas|) else None
  {
    assert (rutas + [r])[..|rutas|] == rutas;
  }

  /**
   * `despues` is `antes` with every plant of `rutas` registered to the first
   * drone whose route holds it, entries already present being kept.
   */
  ghost predicate Reclamadas(antes: map<nat, nat>, despues: map<nat, nat>, rutas: seq<seq<nat>>) {
    (forall p | p in antes :: p in despues && despues[p] == antes[p])
    && (forall p | p in despues :: p in antes || PrimerDueno(rutas, p).Some?)
    && (forall p | PrimerDueno(rutas, p).Some? :: p in despues)
    && (forall p | p in despues && p !in antes :: despues[p] == PrimerDueno(rutas, p).value)
  }

  /**
   * `despues` is `antes` with every plant of `ruta` not yet claimed now
   * claimed by `dron`, and nothing else changed.
   */
  ghost predicate Registrada(antes: map<nat, nat>, despues: map<nat, nat>, ruta: seq<nat>, dron: nat) {
    (forall p | p in antes :: p in despues && despues[p] == antes[p])
    && (forall p | p in despues :: p in antes || p in ruta)
    && (forall p | p in ruta :: p in despues)
    && (forall p | p in despues && p !in antes :: despues[p] == dron)
  }

  /** Registering the next drone's route keeps the first-claim property. */
  lemma ReclamadasPaso(antes: map<nat, nat>, medio: map<nat, nat>, despues: map<nat, nat>,
                       rutas: seq<seq<nat>>, r: seq<nat>)
    requires Reclamadas(antes, medio, rutas)
    requires Registrada(medio, despues, r, |rutas|)
    ensures Reclamadas(antes, despues, rutas + [r])
  {
    forall p ensures PrimerDueno(rutas + [r], p)
                  == if PrimerDueno(rutas, p).Some? then PrimerDueno(rutas, p)
                     else if p in r then Some(|rutas|) else None {
      PrimerDuenoAnexo(rutas, r, p);
    }
  }

  /** The tag rule: each present drone takes its tagged plants, nearest first. */
  function RutasPorTags(presente: seq<bool>, porEtiqueta: seq<seq<nat>>, posDron: seq<Punto>, g: Geometria)
    : (rutas: seq<seq<nat>>)
    requires |porEtiqueta| == |presente| && |posDron| == |presente|
    ensures |rutas| == |presente|
    ensures forall i | 0 <= i < |presente| ::
      rutas[i] == if presente[i] then OrdenarPorLejania(porEtiqueta[i], posDron[i], g) else []
  {
    seq(|presente|, i requires 0 <= i < |presente| =>
      if presente[i] then OrdenarPorLejania(porEtiqueta[i], posDron[i], g) else [])
  }

  /** A tag route is the tagged plants, nearest first; a drone with none gets no route. */
  lemma RutaPorTagEsPermutacion(presente: seq<bool>, porEtiqueta: seq<seq<nat>>, posDron: seq<Punto>,
                                g: Geometria, i: nat)
    requires |porEtiqueta| == |presente| && |posDron| == |presente| && i < |presente|
    ensures var r := RutasPorTags(presente, porEtiqueta, posDron, g)[i];
      (r != [] <==> presente[i] && porEtiqueta[i] != [])
      && (presente[i] ==> multiset(r) == multiset(porEtiqueta[i]) && OrdenadaPorLejania(r, posDron[i], g))
  {
    var r := RutasPorTags(presente, porEtiqueta, posDron, g)[i];
    if presente[i] && r == [] {
      assert |multiset(porEtiqueta[i])| == 0;
    }
  }

  /**
   * The proximity rule over the first `i` drones, starting from every plant:
   * the routes, and the plants still available.
   */
  function Reparto(presente: seq<bool>, posDron: seq<Punto>, n: nat, cupo: nat, g: Geometria, i: nat)
    : (r: (seq<seq<nat>>, seq<nat>))
    requires |posDron| == |presente| && i <= |presente|
    ensures |r.0| == i
  {
    if i == 0 then ([], Rango(n))
    else
      var antes := Reparto(presente, posDron, n, cupo, g, i - 1);
      if !presente[i - 1] || antes.1 == [] then (antes.0 + [[]], antes.1)
      else
        var v := Voraz(antes.1, posDron[i - 1], cupo, g);
        (antes.0 + [v.0], v.1)
  }

  /** One step of the proximity rule keeps the routes and the pool free of repeats and of overlap. */
  lemma RepartoPaso(c: seq<nat>, disp: seq<nat>, ruta: seq<nat>, resto: seq<nat>)
    requires Distintos(c + disp)
    requires Distintos(ruta) && Distintos(resto) && Elementos(ruta) !! Elementos(resto)
    requires Elementos(ruta) + Elementos(resto) == Elementos(disp)
    ensures Distintos((c + ruta) + resto)
    ensures Elementos(c + ruta) + Elementos(resto) == Elementos(c) + Elementos(disp)
  {
    DistintosPartes(c, disp);
    DistintosConcat(ruta, resto);
    assert Elementos(ruta + resto) == Elementos(disp);
    DistintosConcat(c, ruta + resto);
    assert c + (ruta + resto) == (c + ruta) + resto;
  }

  /**
   * No plant is in two proximity routes, nor twice in one; every plant is
   * either routed or still available; each route has at most `cupo` plants.
   */
  lemma {:induction false} RepartoSinRepetir(presente: seq<bool>, posDron: seq<Punto>, n: nat, cupo: nat,
                                             g: Geometria, i: nat)
    requires |posDron| == |presente| && i <= |presente|
    ensures var r := Reparto(presente, posDron, n, cupo, g, i);
      Distintos(Concatenar(r.0) + r.1)
      && Elementos(Concatenar(r.0)) + Elementos(r.1) == Elementos(Rango(n))
      && |Concatenar(r.0)| + |r.1| == n
      && forall k | 0 <= k < i :: |r.0[k]| <= cupo
  {
    if i == 0 {
      assert Concatenar<nat>([]) == [];
    } else {
      var antes := Reparto(presente, posDron, n, cupo, g, i - 1);
      RepartoSinRepetir(presente, posDron, n, cupo, g, i - 1);
      if !presente[i - 1] || antes.1 == [] {
        assert Reparto(presente, posDron, n, cupo, g, i) == (antes.0 + [[]], antes.1);
        assert Elementos<nat>([]) == {};
        DistintosPartes(Concatenar(antes.0), antes.1);
        RepartoAnexo(antes.0, antes.1, [], antes.1, n, cupo);
      } else {
        var v := Voraz(antes.1, posDron[i - 1], cupo, g);
        assert Reparto(presente, posDron, n, cupo, g, i) == (antes.0 + [v.0], v.1);
        DistintosPartes(Concatenar(antes.0), antes.1);
        VorazReparte(antes.1, posDron[i - 1], cupo, g);
        RepartoAnexo(antes.0, antes.1, v.0, v.1, n, cupo);
      }
    }
  }

  /** Adding a route taken from the pool keeps the routes and the pool a split of the plants. */
  lemma RepartoAnexo(rutas: seq<seq<nat>>, disp: seq<nat>, ruta: seq<nat>, resto: seq<nat>, n: nat, cupo: nat)
    requires Distintos(Concatenar(rutas) + disp)
    requires Elementos(Concatenar(rutas)) + Elementos(disp) == Elementos(Rango(n))
    requires |Concatenar(rutas)| + |disp| == n
    requires forall k | 0 <= k < |rutas| :: |rutas[k]| <= cupo
    requires Distintos(ruta) && Distintos(resto) && Elementos(ruta) !! Elementos(resto)
    requires Elementos(ruta) + Elementos(resto) == Elementos(disp)
    requires |ruta| <= cupo && |ruta| + |resto| == |disp|
    ensures Distintos(Concatenar(rutas + [ruta]) + resto)
    ensures Elementos(Concatenar(rutas + [ruta])) + Elementos(resto) == Elementos(Rango(n))
    ensures |Concatenar(rutas + [ruta])| + |resto| == n
    ensures forall k | 0 <= k < |rutas| + 1 :: |(rutas + [ruta])[k]| <= cupo
  {
    ConcatenarAnexo(rutas, ruta);
    RepartoPaso(Concatenar(rutas), disp, ruta, resto);
    assert forall k | 0 <= k < |rutas| :: (rutas + [ruta])[k] == rutas[k];
  }

  /** With every drone present, `cupo` at least `n / d` leaves no plant unrouted. */
  lemma {:induction false} RepartoLlena(presente: seq<bool>, posDron: seq<Punto>, n: nat, cupo: nat,
                                        g: Geometria, i: nat)
    requires |posDron| == |presente| && i <= |presente|
    requires forall k | 0 <= k < i :: presente[k]
    ensures var r := Reparto(presente, posDron, n, cupo, g, i);
      r.1 == [] || |Concatenar(r.0)| == i * cupo
  {
    if i == 0 {
      assert Concatenar<nat>([]) == [];
    } else {
      var antes := Reparto(presente, posDron, n, cupo, g, i - 1);
      RepartoLlena(presente, posDron, n, cupo, g, i - 1);
      if antes.1 != [] {
        var v := Voraz(antes.1, posDron[i - 1], cupo, g);
        ConcatenarAnexo(antes.0, v.0);
        Escalon(i - 1, cupo);
        if cupo <= |antes.1| {
          assert |v.0| == cupo;
        } else {
          assert |v.1| == 0;
        }
      }
    }
  }

  /** With every drone present, every plant is routed. */
  lemma RepartoCompleto(presente: seq<bool>, posDron: seq<Punto>, n: nat, g: Geometria)
    requires |posDron| == |presente| && |presente| >= 1
    requires forall k | 0 <= k < |presente| :: presente[k]
    ensures var r := Reparto(presente, posDron, n, Cupo(n, |presente|), g, |presente|);
      r.1 == [] && forall p | 0 <= p < n :: p in Concatenar(r.0)
  {
    var cupo := Cupo(n, |presente|);
    var r := Reparto(presente, posDron, n, cupo, g, |presente|);
    RepartoSinRepetir(presente, posDron, n, cupo, g, |presente|);
    RepartoLlena(presente, posDron, n, cupo, g, |presente|);
    assert |presente| * cupo >= n;
    assert r.1 == [];
    forall p | 0 <= p < n ensures p in Concatenar(r.0) {
      assert Rango(n)[p] == p;
      assert p in Elementos(Rango(n));
    }
  }

  /** `List.Remove`: drops the first occurrence of `x`, if any. */
  function Remover(s: seq<nat>, x: nat): (r: seq<nat>)
    ensures x in s ==> |r| == |s| - 1
    ensures x !in s ==> r == s
  {
    if s == [] then []
    else if s[0] == x then s[1..]
    else [s[0]] + Remover(s[1..], x)
  }

  /** Removing the first of the nearest by value removes it at its own index. */
  lemma {:induction false} RemoverEnPrimera(s: seq<nat>, k: nat)
    requires k < |s| && forall j | 0 <= j < k :: s[j] != s[k]
    ensures Remover(s, s[k]) == Quitar(s, k)
  {
    if k > 0 {
      assert forall j | 0 <= j < k - 1 :: s[1..][j] == s[j + 1];
      RemoverEnPrimera(s[1..], k - 1);
      QuitarCola(s, k);
    }
  }

  /** Removing past the head keeps the head and removes from the tail. */
  lemma QuitarCola(s: seq<nat>, k: nat)
    requires 0 < k < |s|
    ensures Quitar(s, k) == [s[0]] + Quitar(s[1..], k - 1)
  {
    assert s[..k] == [s[0]] + s[1..][..k - 1];
    assert s[k + 1..] == s[1..][k..];
  }

  class ReporteDron {
    const idDron: int
    var plantasAnalizadas: int
    var plagasDetectadas: int
    var plantasCosechadas: int
    var accionesRealizadas: int
    var misionCompleta: bool

    predicate Nuevo()
      reads this
    {
      plantasAnalizadas == 0 && plagasDetectadas == 0 && plantasCosechadas == 0
      && accionesRealizadas == 0 && !misionCompleta
    }

    constructor (id: int)
      ensures idDron == id && Nuevo()
    {
      idDron := id;
      plantasAnalizadas := 0;
      plagasDetectadas := 0;
      plantasCosechadas := 0;
      accionesRealizadas := 0;
      misionCompleta := false;
    }

    method RegistrarPlaga()
      modifies this`plagasDetectadas
      ensures plagasDetectadas == old(plagasDetectadas) + 1
    {
      plagasDetectadas := plagasDetectadas + 1;
    }

    method RegistrarAccion(accion: string)
      modifies this`accionesRealizadas
      ensures accionesRealizadas == old(accionesRealizadas) + 1
    {
      accionesRealizadas := accionesRealizadas + 1;
    }

    /** Overwrites the counters with the drone's own figures and marks the mission done. */
    method MisionCompleta(analizadas: int, plagas: int, cosechadas: int)
      modifies this`plantasAnalizadas, this`plagasDetectadas, this`plantasCosechadas, this`misionCompleta
      ensures plantasAnalizadas == analizadas && plagasDetectadas == plagas && plantasCosechadas == cosechadas
      ensures misionCompleta
    {
      plantasAnalizadas := analizadas;
      plagasDetectadas := plagas;
      plantasCosechadas := cosechadas;
      misionCompleta := true;
    }
  }

  /**
   * From `antes` to `despues` only the reports of present drones may be new
   * or replaced: no key appears for an absent drone, and an absent drone's
   * report stays as it was.
   */
  ghost predicate SoloPresentes<R>(antes: map<int, R>, despues: map<int, R>, presentes: seq<bool>) {
    (forall k | k in despues :: k in antes || (0 <= k < |presentes| && presentes[k]))
    && (forall k | k in antes && !(0 <= k < |presentes| && presentes[k]) :: k in despues && despues[k] == antes[k])
  }

  class AgenteManager {
    /** The drone list: `true` where the entry is not null. */
    const dronPresente: seq<bool>
    const usarSistemaDeTags: bool
    var hayUi: bool
    var numPlantas: nat
    var plantasAsignadas: map<nat, nat>
    var reportesDrones: map<int, ReporteDron>
    var totalPlantasAnalizadas: int
    var totalPlagasDetectadas: int
    var totalCosechadas: int
    var misionInicializada: bool

    /** Each report is filed under its own drone index, so reports of different drones are different objects. */
    ghost predicate Valid()
      reads this
    {
      forall k | k in reportesDrones :: reportesDrones[k].idDron == k
    }

    /** `reportesDrones.Values.All(r => r.misionCompleta)`. */
    predicate TodosCompletos()
      reads this, reportesDrones.Values
    {
      forall k | k in reportesDrones :: reportesDrones[k].misionCompleta
    }

    constructor (dronPresente: seq<bool>, usarSistemaDeTags: bool, hayUi: bool)
      ensures Valid()
      ensures this.dronPresente == dronPresente && this.usarSistemaDeTags == usarSistemaDeTags && this.hayUi == hayUi
      ensures numPlantas == 0 && plantasAsignadas == map[] && reportesDrones == map[]
      ensures totalPlantasAnalizadas == 0 && totalPlagasDetectadas == 0 && totalCosechadas == 0
      ensures !misionInicializada
    {
      this.dronPresente := dronPresente;
      this.usarSistemaDeTags := usarSistemaDeTags;
      this.hayUi := hayUi;
      numPlantas := 0;
      plantasAsignadas := map[];
      reportesDrones := map[];
      totalPlantasAnalizadas := 0;
      totalPlagasDetectadas := 0;
      totalCosechadas := 0;
      misionInicializada := false;
    }

    /** One fresh report, all zero and not complete, for each non-null drone index. */
    method InicializarReportes()
      requires Valid()
      modifies this`reportesDrones
      ensures Valid()
      ensures forall k | 0 <= k < |dronPresente| && dronPresente[k] ::
        k in reportesDrones && fresh(reportesDrones[k]) && reportesDrones[k].Nuevo()
      ensures SoloPresentes(old(reportesDrones), reportesDrones, dronPresente)
    {
      for i := 0 to |dronPresente|
        invariant Valid()
        invariant forall k | 0 <= k < i && dronPresente[k] ::
          k in reportesDrones && fresh(reportesDrones[k]) && reportesDrones[k].Nuevo()
        invariant forall k | k in reportesDrones :: k in old(reportesDrones) || (0 <= k < i && dronPresente[k])
        invariant forall k | k in old(reportesDrones) && !(0 <= k < i && dronPresente[k]) ::
          k in reportesDrones && reportesDrones[k] == old(reportesDrones)[k]
      {
        if dronPresente[i] {
          var r := new ReporteDron(i);
          reportesDrones := reportesDrones[i := r];
        }
      }
    }

    /** Registers each plant of `ruta` to drone `dron` unless some drone already claimed it. */
    method RegistrarRuta(ruta: seq<nat>, dron: nat)
      modifies this`plantasAsignadas
      ensures forall p | p in old(plantasAsignadas) :: p in plantasAsignadas && plantasAsignadas[p] == old(plantasAsignadas)[p]
      ensures forall p | p in plantasAsignadas :: p in old(plantasAsignadas) || p in ruta
      ensures forall p | p in ruta :: p in plantasAsignadas
      ensures forall p | p in plantasAsignadas && p !in old(plantasAsignadas) :: plantasAsignadas[p] == dron
      ensures Registrada(old(plantasAsignadas), plantasAsignadas, ruta, dron)
    {
      for j := 0 to |ruta|
        invariant forall p | p in old(plantasAsignadas) ::
          p in plantasAsignadas && plantasAsignadas[p] == old(plantasAsignadas)[p]
        invariant forall p | p in plantasAsignadas :: p in old(plantasAsignadas) || p in ruta[..j]
        invariant forall p | p in ruta[..j] :: p in plantasAsignadas
        invariant forall p | p in plantasAsignadas && p !in old(plantasAsignadas) :: plantasAsignadas[p] == dron
      {
        assert ruta[..j + 1] == ruta[..j] + [ruta[j]];
        if ruta[j] !in plantasAsignadas {
          plantasAsignadas := plantasAsignadas[ruta[j] := dron];
        }
      }
      assert ruta[..|ruta|] == ruta;
    }

    /** Every present drone with tagged plants gets them nearest first; claims are registered. */
    method AsignarPlantasPorTags(porEtiqueta: seq<seq<nat>>, posDron: seq<Punto>, g: Geometria)
      returns (rutas: seq<seq<nat>>)
      requires |porEtiqueta| == |dronPresente| && |posDron| == |dronPresente|
      modifies this`plantasAsignadas
      ensures rutas == RutasPorTags(dronPresente, porEtiqueta, posDron, g)
      ensures Reclamadas(old(plantasAsignadas), plantasAsignadas, rutas)
    {
      rutas := [];
      ghost var todas := RutasPorTags(dronPresente, porEtiqueta, posDron, g);
      ghost var inicial := plantasAsignadas;
      for i := 0 to |dronPresente|
        invariant rutas == todas[..i]
        invariant Reclamadas(inicial, plantasAsignadas, rutas)
      {
        var ruta: seq<nat> := [];
        if dronPresente[i] && porEtiqueta[i] != [] {
          ruta := OrdenarPorLejania(porEtiqueta[i], posDron[i], g);
        }
        RutaPorTagEsPermutacion(dronPresente, porEtiqueta, posDron, g, i);
        assert ruta == todas[i];
        ghost var medio := plantasAsignadas;
        RegistrarRuta(ruta, |rutas|);
        ReclamadasPaso(inicial, medio, plantasAsignadas, rutas, ruta);
        PrefijoSiguiente(todas, i);
        rutas := rutas + [ruta];
      }
      assert todas[..|dronPresente|] == todas;
    }

    /** The inner loop of the proximity rule: up to `cupo` nearest plants, moving to each. */
    method TomarCercanas(disp: seq<nat>, desde: Punto, cupo: nat, g: Geometria)
      returns (ruta: seq<nat>, resto: seq<nat>)
      ensures (ruta, resto) == Voraz(disp, desde, cupo, g)
    {
      ruta := [];
      resto := disp;
      var pos := desde;
      var j := 0;
      assert [] + Voraz(disp, desde, cupo, g).0 == Voraz(disp, desde, cupo, g).0;
      while j < cupo && |resto| > 0
        invariant 0 <= j <= cupo
        invariant Voraz(disp, desde, cupo, g).0 == ruta + Voraz(resto, pos, cupo - j, g).0
        invariant Voraz(disp, desde, cupo, g).1 == Voraz(resto, pos, cupo - j, g).1
      {
        var p := resto[IndiceMasCercano(resto, pos, g)];
        VorazAvance(Voraz(disp, desde, cupo, g), ruta, resto, pos, cupo - j, g);
        ruta := ruta + [p];
        resto := Remover(resto, p);
        pos := g.posicion(p);
        j := j + 1;
      }
      assert ruta + [] == ruta;
    }

    /** The proximity rule over all drones; claims are registered. */
    method AsignarPlantasPorProximidad(posDron: seq<Punto>, g: Geometria) returns (rutas: seq<seq<nat>>)
      requires |posDron| == |dronPresente| && |dronPresente| >= 1
      modifies this`plantasAsignadas
      ensures rutas == Reparto(dronPresente, posDron, numPlantas, Cupo(numPlantas, |dronPresente|), g,
                               |dronPresente|).0
      ensures Reclamadas(old(plantasAsignadas), plantasAsignadas, rutas)
    {
      var cupo := Cupo(numPlantas, |dronPresente|);
      var disp := Rango(numPlantas);
      rutas := [];
      for i := 0 to |dronPresente|
        invariant (rutas, disp) == Reparto(dronPresente, posDron, numPlantas, cupo, g, i)
        invariant Reclamadas(old(plantasAsignadas), plantasAsignadas, rutas)
      {
        var ruta: seq<nat> := [];
        if dronPresente[i] && |disp| > 0 {
          ruta, disp := TomarCercanas(disp, posDron[i], cupo, g);
        }
        ghost var medio := plantasAsignadas;
        RegistrarRuta(ruta, i);
        ReclamadasPaso(old(plantasAsignadas), medio, plantasAsignadas, rutas, ruta);
        rutas := rutas + [ruta];
      }
    }

    /**
     * Starts the mission with the scene's `plantas` plants: nothing without
     * plants or without drones; otherwise reports, routes by the configured
     * rule, and the mission marked started. Drone `i` is handed `rutas[i]`
     * when that route is not empty.
     */
    method InicializarMision(plantas: nat, uiEnEscena: bool, porEtiqueta: seq<seq<nat>>, posDron: seq<Punto>,
                             g: Geometria) returns (rutas: seq<seq<nat>>)
      requires Valid()
      requires |porEtiqueta| == |dronPresente| && |posDron| == |dronPresente|
      modifies this
      ensures Valid()
      ensures numPlantas == plantas
      ensures totalPlantasAnalizadas == old(totalPlantasAnalizadas) && totalPlagasDetectadas == old(totalPlagasDetectadas)
      ensures totalCosechadas == old(totalCosechadas)
      ensures plantas == 0 || |dronPresente| == 0 ==>
        rutas == [] && reportesDrones == old(reportesDrones) && plantasAsignadas == old(plantasAsignadas)
        && misionInicializada == old(misionInicializada)
      ensures plantas == 0 ==> hayUi == old(hayUi)
      ensures plantas > 0 ==> hayUi == (old(hayUi) || uiEnEscena)
      ensures SoloPresentes(old(reportesDrones), reportesDrones, dronPresente)
      ensures plantas > 0 && |dronPresente| > 0 ==>
        misionInicializada
        && (forall k | 0 <= k < |dronPresente| && dronPresente[k] ::
              k in reportesDrones && fresh(reportesDrones[k]) && reportesDrones[k].Nuevo())
        && (usarSistemaDeTags ==> rutas == RutasPorTags(dronPresente, porEtiqueta, posDron, g))
        && (!usarSistemaDeTags ==>
              rutas == Reparto(dronPresente, posDron, plantas, Cupo(plantas, |dronPresente|), g, |dronPresente|).0)
        && Reclamadas(old(plantasAsignadas), plantasAsignadas, rutas)
    {
      numPlantas := plantas;
      rutas := [];
      if numPlantas == 0 {
        return;
      }
      if !hayUi {
        hayUi := uiEnEscena;
      }
      if |dronPresente| == 0 {
        return;
      }
      InicializarReportes();
      ghost var reportes := reportesDrones;
      assert plantasAsignadas == old(plantasAsignadas);
      if usarSistemaDeTags {
        rutas := AsignarPlantasPorTags(porEtiqueta, posDron, g);
      } else {
        rutas := AsignarPlantasPorProximidad(posDron, g);
      }
      misionInicializada := true;
      assert reportesDrones == reportes;
    }

    /** A completed analysis: counted, shown, and alerted on; a plague is counted again here. */
    method NotificarAnalisis(planta: Option<nat>, idDron: int, obs: Observacion) returns (ui: seq<LlamadaUi>)
      modifies this`totalPlantasAnalizadas, this`totalPlagasDetectadas
      ensures !old(misionInicializada) || planta.None? ==>
        ui == [] && totalPlantasAnalizadas == old(totalPlantasAnalizadas)
        && totalPlagasDetectadas == old(totalPlagasDetectadas)
      ensures old(misionInicializada) && planta.Some? ==>
        totalPlantasAnalizadas == old(totalPlantasAnalizadas) + 1
        && totalPlagasDetectadas == old(totalPlagasDetectadas) + (if obs.plagaActiva then 1 else 0)
        && ui == AvisosUiAnalisis(hayUi, planta.value, idDron, obs)
    {
      ui := [];
      if !misionInicializada || planta.None? {
        return;
      }
      var p := planta.value;
      totalPlantasAnalizadas := totalPlantasAnalizadas + 1;
      if hayUi {
        ui := ui + [UiMostrarAnalisis(p, idDron)];
      }
      if obs.listaParaCosechar && hayUi {
        ui := ui + [UiAlerta(p, idDron, ALERTA_COSECHA)];
      }
      if obs.muyVerde && hayUi {
        ui := ui + [UiAlerta(p, idDron, ALERTA_VERDE)];
      }
      if obs.plagaActiva {
        totalPlagasDetectadas := totalPlagasDetectadas + 1;
        if hayUi {
          ui := ui + [UiAlerta(p, idDron, ALERTA_PLAGA)];
        }
      }
    }

    /** A plague alert: the drone's report counts it and the UI shows it. */
    method NotificarAlerta(planta: Option<nat>, idDron: int) returns (ui: seq<LlamadaUi>)
      requires Valid()
      modifies if idDron in reportesDrones then {reportesDrones[idDron]} else {}
      ensures old(misionInicializada) && planta.Some? && idDron in reportesDrones ==>
        var r := reportesDrones[idDron];
        r.plagasDetectadas == old(r.plagasDetectadas) + 1
        && r.plantasAnalizadas == old(r.plantasAnalizadas) && r.plantasCosechadas == old(r.plantasCosechadas)
        && r.accionesRealizadas == old(r.accionesRealizadas) && r.misionCompleta == old(r.misionCompleta)
      ensures !old(misionInicializada) || planta.None? ==> ui == [] && unchanged(reportesDrones.Values)
      ensures old(misionInicializada) && planta.Some? ==>
        ui == if hayUi then [UiAlertaPlaga(planta.value, idDron)] else []
    {
      ui := [];
      if !misionInicializada || planta.None? {
        return;
      }
      if idDron in reportesDrones {
        reportesDrones[idDron].RegistrarPlaga();
      }
      if hayUi {
        ui := [UiAlertaPlaga(planta.value, idDron)];
      }
    }

    /** An action: the drone's report counts it and the UI logs it. */
    method NotificarAccion(accion: string, planta: Option<nat>, idDron: int) returns (ui: seq<LlamadaUi>)
      requires Valid()
      modifies if idDron in reportesDrones then {reportesDrones[idDron]} else {}
      ensures old(misionInicializada) && planta.Some? && idDron in reportesDrones ==>
        var r := reportesDrones[idDron];
        r.accionesRealizadas == old(r.accionesRealizadas) + 1
        && r.plantasAnalizadas == old(r.plantasAnalizadas) && r.plagasDetectadas == old(r.plagasDetectadas)
        && r.plantasCosechadas == old(r.plantasCosechadas) && r.misionCompleta == old(r.misionCompleta)
      ensures !old(misionInicializada) || planta.None? ==> ui == [] && unchanged(reportesDrones.Values)
      ensures old(misionInicializada) && planta.Some? ==>
        ui == if hayUi then [UiAccion(accion, planta.value, idDron)] else []
    {
      ui := [];
      if !misionInicializada || planta.None? {
        return;
      }
      if idDron in reportesDrones {
        reportesDrones[idDron].RegistrarAccion(accion);
      }
      if hayUi {
        ui := [UiAccion(accion, planta.value, idDron)];
      }
    }

    /**
     * A drone's final figures: its report is overwritten and marked
     * complete, its harvest added to the total; the result says whether the
     * final report is shown, which is when every report is complete.
     */
    method NotificarMisionCompleta(idDron: int, analizadas: int, plagas: int, cosechadas: int)
      returns (reporteFinal: bool)
      requires Valid()
      modifies this`totalCosechadas, if idDron in reportesDrones then {reportesDrones[idDron]} else {}
      ensures Valid()
      ensures !old(misionInicializada) ==>
        !reporteFinal && totalCosechadas == old(totalCosechadas) && unchanged(reportesDrones.Values)
      ensures old(misionInicializada) ==>
        totalCosechadas == old(totalCosechadas) + cosechadas && reporteFinal == TodosCompletos()
      ensures old(misionInicializada) && idDron in reportesDrones ==>
        var r := reportesDrones[idDron];
        r.plantasAnalizadas == analizadas && r.plagasDetectadas == plagas && r.plantasCosechadas == cosechadas
        && r.misionCompleta && r.accionesRealizadas == old(r.accionesRealizadas)
    {
      if !misionInicializada {
        return false;
      }
      if idDron in reportesDrones {
        reportesDrones[idDron].MisionCompleta(analizadas, plagas, cosechadas);
      }
      totalCosechadas := totalCosechadas + cosechadas;
      reporteFinal := forall k | k in reportesDrones :: reportesDrones[k].misionCompleta;
    }
  }

  /** The UI calls of one analysis, in order. */
  function AvisosUiAnalisis(hayUi: bool, planta: nat, idDron: int, obs: Observacion): (ui: seq<LlamadaUi>)
    ensures !hayUi ==> ui == []
    ensures hayUi ==> |ui| >= 1 && ui[0] == UiMostrarAnalisis(planta, idDron)
    ensures hayUi ==> (UiAlerta(planta, idDron, ALERTA_PLAGA) in ui <==> obs.plagaActiva)
    ensures hayUi ==> (UiAlerta(planta, idDron, ALERTA_COSECHA) in ui <==> obs.listaParaCosechar)
    ensures hayUi ==> (UiAlerta(planta, idDron, ALERTA_VERDE) in ui <==> obs.muyVerde)
  {
    if !hayUi then []
    else
      [UiMostrarAnalisis(planta, idDron)]
      + (if obs.listaParaCosechar then [UiAlerta(planta, idDron, ALERTA_COSECHA)] else [])
      + (if obs.muyVerde then [UiAlerta(planta, idDron, ALERTA_VERDE)] else [])
      + (if obs.plagaActiva then [UiAlerta(planta, idDron, ALERTA_PLAGA)] else [])
  }
}
