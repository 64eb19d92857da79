/**
 * The coordinator of the threaded simulation: it creates one control record
 * per harvester (pause flag, abort flag, current order), splits the grid
 * among the harvesters, classifies every sensor reading (a pest level above
 * 8 is the worm), queues harvest instructions and keeps the cell map the UI
 * draws.
 */
module Coordinador {
  import opened Util

  datatype OrdenCapataz = CONTINUAR | PARAR | ABANDONAR

  datatype NivelRiesgo = SIN_DATOS | BAJO | MEDIO | ALTO | CRITICO

  datatype DatosExploracion = DatosExploracion(
    x: int, y: int,
    temperatura: real, humedad: real,
    nivelPlagas: real, nivelNutrientes: real, nivelMaduracion: real,
    frutosDisponibles: int,
    agenteId: int)

  datatype InstruccionCosecha = InstruccionCosecha(
    celdaObjetivo: Celda, frutosACosechar: int, prioridad: int, descripcion: string)

  datatype EstadoCelda = EstadoCelda(
    x: int, y: int,
    nivelRiesgo: NivelRiesgo,
    tipoAmenaza: string,
    frutosDisponibles: int,
    listoParaCosechar: bool,
    tieneGusano: bool)

  datatype MetricasSistema = MetricasSistema(
    tiempoTranscurrido: real,
    celdasExploradas: int,
    celdasTotales: int,
    frutosCosechados: int,
    agentesActivos: int,
    amenazasGusano: int)

  /** One harvester's control record: `eventoActivo` is the pause event being set. */
  datatype Control = Control(eventoActivo: bool, abortar: bool, ordenTexto: OrdenCapataz)

  /** How a call into the coordinator ended. */
  datatype Resultado =
    | Ok
    | ErrorClave(agente: int)   // KeyError: no control record for that agent
    | ErrorAridad               // TypeError: the UI callback takes two arguments, it is given three

  const UMBRAL_GUSANO: real := 8.0
  const MADURACION_COSECHA: real := 7.0
  const AMENAZA_GUSANO: string := "GUSANO"
  const AMENAZA_NINGUNA: string := "Ninguna"
  const DESCRIPCION_COSECHA: string := "Cosecha standard"
  const CONTROL_INICIAL: Control := Control(true, false, CONTINUAR)

  /** `a` comes before `b` in row-major order. */
  predicate Antes(a: Celda, b: Celda) {
    a.0 < b.0 || (a.0 == b.0 && a.1 < b.1)
  }

  /** The grid cells in row-major order: every cell of the grid once, rows first. */
  function Celdas(filas: int, columnas: int): (r: seq<Celda>)
    ensures filas >= 0 && columnas >= 0 ==> |r| == filas * columnas
    ensures forall f, c :: (f, c) in r <==> 0 <= f < filas && 0 <= c < columnas
    ensures forall i, j | 0 <= i < j < |r| :: Antes(r[i], r[j])
    decreases if filas < 0 then 0 else filas
  {
    if filas <= 0 || columnas <= 0 then []
    else
      var previas := Celdas(filas - 1, columnas);
      var fila := Fila(filas - 1, columnas);
      Escalon(filas - 1, columnas);
      assert forall f, c :: (f, c) in previas + fila <==> 0 <= f < filas && 0 <= c < columnas by {
        forall f, c ensures (f, c) in previas + fila <==> 0 <= f < filas && 0 <= c < columnas {
          if f == filas - 1 && 0 <= c < columnas {
            assert fila[c] == (f, c);
          }
        }
      }
      assert forall i | 0 <= i < |previas| :: previas[i] in previas;
      previas + fila
  }

  /** Row `f` of the grid. */
  function Fila(f: int, columnas: nat): (r: seq<Celda>)
    ensures |r| == columnas
    ensures forall k | 0 <= k < columnas :: r[k] == (f, k)
  {
    seq(columnas, c => (f, c))
  }

  /** Python slicing `s[a:b]` for non-negative bounds: clamped, empty when `a >= b`. */
  function Rebanada<T>(s: seq<T>, a: nat, b: nat): (r: seq<T>)
    ensures |r| == if a >= b || a >= |s| then 0 else Min(b, |s|) - a
    ensures forall k | 0 <= k < |r| :: r[k] == s[a + k]
  {
    if a >= b || a >= |s| then [] else s[a..Min(b, |s|)]
  }

  /** `i * chunk`, the start of block `i`, one block at a time. */
  function Inicio(i: nat, chunk: nat): nat
  {
    if i == 0 then 0 else Inicio(i - 1, chunk) + chunk
  }

  lemma {:induction false} InicioEsProducto(i: nat, chunk: nat)
    ensures Inicio(i, chunk) == i * chunk
  {
    if i > 0 { InicioEsProducto(i - 1, chunk); Escalon(i - 1, chunk); }
  }

  lemma {:induction false} InicioMonotono(i: nat, j: nat, chunk: nat)
    requires i <= j
    ensures Inicio(i, chunk) <= Inicio(j, chunk)
    decreases j
  {
    if i < j { InicioMonotono(i, j - 1, chunk); }
  }

  /** The cells handed to the harvester at position `i` of the agent list, blocks of `chunk` cells. */
  function Bloque(celdas: seq<Celda>, n: nat, chunk: nat, i: nat): seq<Celda>
  {
    Rebanada(celdas, Inicio(i, chunk), if i < n - 1 then Inicio(i, chunk) + chunk else |celdas|)
  }

  function Bloques(celdas: seq<Celda>, n: nat, chunk: nat, k: nat): (r: seq<seq<Celda>>)
    ensures |r| == k && forall i | 0 <= i < k :: r[i] == Bloque(celdas, n, chunk, i)
  {
    if k == 0 then [] else Bloques(celdas, n, chunk, k - 1) + [Bloque(celdas, n, chunk, k - 1)]
  }

  /** A block before the last is the slice between its start and the next one's. */
  lemma BloqueIntermedio(celdas: seq<Celda>, n: nat, chunk: nat, i: nat)
    requires 0 < i < n && Inicio(i, chunk) <= |celdas|
    ensures Bloques(celdas, n, chunk, i)
         == Bloques(celdas, n, chunk, i - 1) + [celdas[Inicio(i - 1, chunk)..Inicio(i, chunk)]]
  {
    var inicio := Inicio(i - 1, chunk);
    assert Inicio(i, chunk) == inicio + chunk;
    assert Bloque(celdas, n, chunk, i - 1) == Rebanada(celdas, inicio, inicio + chunk);
    if chunk == 0 {
      assert Rebanada(celdas, inicio, inicio + chunk) == [] == celdas[inicio..inicio + chunk];
    } else {
      assert Rebanada(celdas, inicio, inicio + chunk) == celdas[inicio..inicio + chunk];
    }
    assert Bloques(celdas, n, chunk, i) == Bloques(celdas, n, chunk, i - 1) + [Bloque(celdas, n, chunk, i - 1)];
  }

  /** The first `i` blocks cover exactly the prefix up to the start of block `i`. */
  lemma {:induction false} PrefijoBloques(celdas: seq<Celda>, n: nat, chunk: nat, i: nat)
    requires i < n && Inicio(i, chunk) <= |celdas|
    ensures Concatenar(Bloques(celdas, n, chunk, i)) == celdas[..Inicio(i, chunk)]
  {
    if i > 0 {
      var inicio := Inicio(i - 1, chunk);
      var fin := Inicio(i, chunk);
      assert inicio <= fin;
      PrefijoBloques(celdas, n, chunk, i - 1);
      BloqueIntermedio(celdas, n, chunk, i);
      PrefijoAnexo(celdas, Bloques(celdas, n, chunk, i - 1), celdas[inicio..fin], inicio, fin);
    }
  }

  /** With blocks that fit `n` times, the blocks, concatenated in agent order, give back every cell. */
  lemma ConcatenacionCompleta(celdas: seq<Celda>, n: nat, chunk: nat)
    requires n >= 1 && Inicio(n, chunk) <= |celdas|
    ensures Concatenar(Bloques(celdas, n, chunk, n)) == celdas
  {
    InicioMonotono(n - 1, n, chunk);
    PrefijoBloques(celdas, n, chunk, n - 1);
    UltimoBloque(celdas, n, chunk);
  }

  /** Blocks that cover the prefix before the last one, with the last, cover every cell. */
  lemma UltimoBloque(celdas: seq<Celda>, n: nat, chunk: nat)
    requires n >= 1 && Inicio(n - 1, chunk) <= |celdas|
    requires Concatenar(Bloques(celdas, n, chunk, n - 1)) == celdas[..Inicio(n - 1, chunk)]
    ensures Concatenar(Bloques(celdas, n, chunk, n)) == celdas
  {
    BloqueFinal(celdas, n, chunk);
    PrefijoCompleto(celdas, Bloques(celdas, n, chunk, n - 1), Bloques(celdas, n, chunk, n), Inicio(n - 1, chunk));
  }

  /** The last block runs from its start to the end of the cells. */
  lemma BloqueFinal(celdas: seq<Celda>, n: nat, chunk: nat)
    requires n >= 1 && Inicio(n - 1, chunk) <= |celdas|
    ensures Bloques(celdas, n, chunk, n)
         == Bloques(celdas, n, chunk, n - 1) + [celdas[Inicio(n - 1, chunk)..|celdas|]]
  {
    var inicio := Inicio(n - 1, chunk);
    assert Bloque(celdas, n, chunk, n - 1) == Rebanada(celdas, inicio, |celdas|);
    if inicio == |celdas| {
      assert Rebanada(celdas, inicio, |celdas|) == [] == celdas[inicio..|celdas|];
    } else {
      assert Rebanada(celdas, inicio, |celdas|) == celdas[inicio..|celdas|];
    }
    assert Bloques(celdas, n, chunk, n) == Bloques(celdas, n, chunk, n - 1) + [Bloque(celdas, n, chunk, n - 1)];
  }

  /** Blocks `0 .. n-2` hold `chunk` cells; the last one holds the rest. */
  lemma TamanoBloques(celdas: seq<Celda>, n: nat, chunk: nat, i: nat)
    requires n >= 1 && Inicio(n, chunk) <= |celdas| && i < n
    ensures |Bloque(celdas, n, chunk, i)| == if i < n - 1 then chunk else |celdas| - Inicio(n - 1, chunk)
  {
    InicioMonotono(i + 1, n, chunk);
    InicioMonotono(i, n, chunk);
  }

  /** `distribuir_trabajo`'s blocks of `len / n` cells partition the cells. */
  lemma Particion(celdas: seq<Celda>, n: nat)
    requires n >= 1
    ensures Concatenar(Bloques(celdas, n, |celdas| / n, n)) == celdas
    ensures forall i | 0 <= i < n - 1 :: |Bloque(celdas, n, |celdas| / n, i)| == |celdas| / n
    ensures |Bloque(celdas, n, |celdas| / n, n - 1)| == |celdas| - (n - 1) * (|celdas| / n)
  {
    var chunk := |celdas| / n;
    CotaDivision(|celdas|, n);
    InicioEsProducto(n, chunk);
    InicioEsProducto(n - 1, chunk);
    ConcatenacionCompleta(celdas, n, chunk);
    forall i | 0 <= i < n ensures |Bloque(celdas, n, chunk, i)| == if i < n - 1 then chunk else |celdas| - Inicio(n - 1, chunk) {
      TamanoBloques(celdas, n, chunk, i);
    }
  }

  /** The pest level marks the worm. */
  predicate TieneGusano(d: DatosExploracion) {
    d.nivelPlagas > UMBRAL_GUSANO
  }

  /** The coordinator's harvest-readiness rule (the worm vetoes it). */
  predicate ListoCosecha(d: DatosExploracion) {
    d.frutosDisponibles > 0 && d.nivelMaduracion > MADURACION_COSECHA && !TieneGusano(d)
  }

  /** The cell state a reading produces. */
  function Clasificar(d: DatosExploracion): (e: EstadoCelda)
    ensures e.x == d.x && e.y == d.y && e.frutosDisponibles == d.frutosDisponibles
    ensures e.tieneGusano <==> d.nivelPlagas > 8.0
    ensures e.tieneGusano ==> e.nivelRiesgo == CRITICO && e.tipoAmenaza == AMENAZA_GUSANO
    ensures !e.tieneGusano ==> e.nivelRiesgo == BAJO && e.tipoAmenaza == AMENAZA_NINGUNA
    ensures e.nivelRiesgo == BAJO || e.nivelRiesgo == CRITICO
    ensures e.listoParaCosechar <==> d.frutosDisponibles > 0 && d.nivelMaduracion > 7.0 && !e.tieneGusano
  {
    var gusano := TieneGusano(d);
    EstadoCelda(d.x, d.y,
      if gusano then CRITICO else BAJO,
      if gusano then AMENAZA_GUSANO else AMENAZA_NINGUNA,
      d.frutosDisponibles, ListoCosecha(d), gusano)
  }

  /** The harvest instructions a reading adds to the queue: one, exactly when the cell is ready. */
  function Instrucciones(d: DatosExploracion): (r: seq<InstruccionCosecha>)
    ensures |r| == (if ListoCosecha(d) then 1 else 0)
    ensures forall i | i in r ::
              i.celdaObjetivo == (d.x, d.y) && i.frutosACosechar == d.frutosDisponibles && i.prioridad == 1
  {
    if ListoCosecha(d) then [InstruccionCosecha((d.x, d.y), d.frutosDisponibles, 1, DESCRIPCION_COSECHA)] else []
  }

  /** The effect of one order on a control record. */
  function Aplicar(c: Control, orden: OrdenCapataz): (r: Control)
    ensures r.ordenTexto == orden
    ensures r.eventoActivo <==> orden != PARAR
    ensures r.abortar <==> orden == ABANDONAR || (orden == PARAR && c.abortar)
  {
    match orden
    case PARAR => c.(ordenTexto := orden, eventoActivo := false)
    case CONTINUAR => c.(ordenTexto := orden, abortar := false, eventoActivo := true)
    case ABANDONAR => c.(ordenTexto := orden, abortar := true, eventoActivo := true)
  }

  /** Repeating an order changes nothing more. */
  lemma AplicarIdempotente(c: Control, orden: OrdenCapataz)
    ensures Aplicar(Aplicar(c, orden), orden) == Aplicar(c, orden)
  {
  }

  /** An abort is undone by a later CONTINUAR: abandoning is not terminal at this level. */
  lemma AbortoReversible(c: Control)
    ensures Aplicar(c, ABANDONAR).abortar
    ensures Aplicar(Aplicar(c, ABANDONAR), CONTINUAR) == CONTROL_INICIAL
  {
  }

  /** `1 .. n`, the ids `crear_agentes_fisicos` hands out. */
  /**
   * `c` is `c0` with a fresh control record for every id `1 .. m`: those ids
   * and the ids of `c0` are its keys, the new ids hold CONTROL_INICIAL, and
   * every other id keeps its record.
   */
  ghost predicate Creados(c0: map<int, Control>, c: map<int, Control>, m: int) {
    (forall id :: id in c <==> id in c0 || 1 <= id <= m)
    && (forall id | 1 <= id <= m :: c[id] == CONTROL_INICIAL)
    && (forall id | id in c0 && !(1 <= id <= m) :: c[id] == c0[id])
  }

  /**
   * The cell map, its keys in insertion order and the explored set agree:
   * the same cells, each key listed once.
   */
  predicate Indice(mapa: map<Celda, EstadoCelda>, claves: seq<Celda>, celdas: set<Celda>) {
    mapa.Keys == celdas
    && Distintos(claves)
    && (forall c | c in claves :: c in mapa)
    && (forall c | c in mapa :: c in claves)
  }

  /** Recording a reading keeps the index in agreement; the explored set grows by one for a new cell. */
  lemma IndiceLectura(mapa: map<Celda, EstadoCelda>, claves: seq<Celda>, celdas: set<Celda>,
                      celda: Celda, e: EstadoCelda)
    requires Indice(mapa, claves, celdas)
    ensures Indice(mapa[celda := e], if celda in mapa then claves else claves + [celda], celdas + {celda})
    ensures |celdas + {celda}| == |celdas| + (if celda in celdas then 0 else 1)
  {
    if celda !in mapa {
      DistintosAnexo(claves, celda);
    }
    CardinalAnexo(celdas, celda);
  }

  /** Hiring the next id extends the fresh records by one. */
  lemma CreadosPaso(c0: map<int, Control>, c: map<int, Control>, m: int)
    requires m >= 0 && Creados(c0, c, m)
    ensures Creados(c0, c[m + 1 := CONTROL_INICIAL], m + 1)
  {
  }

  function Ids(n: int): (r: seq<int>)
    ensures |r| == (if n < 0 then 0 else n)
    ensures forall k | 0 <= k < |r| :: r[k] == k + 1
    ensures forall i :: i in r <==> 1 <= i <= n
    decreases if n < 0 then 0 else n
  {
    if n <= 0 then [] else Ids(n - 1) + [n]
  }

  function ValoresEn(m: map<Celda, EstadoCelda>, ks: seq<Celda>): (vs: seq<EstadoCelda>)
    requires forall k | k in ks :: k in m
    ensures |vs| == |ks| && forall i | 0 <= i < |ks| :: vs[i] == m[ks[i]]
  {
    if ks == [] then [] else ValoresEn(m, ks[..|ks| - 1]) + [m[ks[|ks| - 1]]]
  }

  class Manager {
    const gridFilas: int
    const gridColumnas: int
    const numAgentes: int
    var mapaEstados: map<Celda, EstadoCelda>
    /** The keys of `mapaEstados` in insertion order (the order of `mapa_estados.values()`). */
    var claves: seq<Celda>
    var colaCosechas: seq<InstruccionCosecha>
    var celdasExploradas: set<Celda>
    /** The ids of the harvesters, in creation order, and the cells each was last assigned. */
    var agentes: seq<int>
    var asignaciones: seq<seq<Celda>>
    var controles: map<int, Control>
    /** The keys of `controles` in insertion order. */
    var idsControl: seq<int>
    var frutosCosechadosTotal: int
    var contadorGusanos: int
    /** Whether a UI callback (the UI's two-argument `actualizar`) is registered. */
    var uiRegistrada: bool

    ghost predicate Valid()
      reads this
    {
      Indice(mapaEstados, claves, celdasExploradas)
      && |asignaciones| == |agentes|
      && (forall k | 0 <= k < |agentes| :: agentes[k] in controles)
      && (numAgentes < 1 ==> agentes == [])
      && Distintos(idsControl)
      && (forall id | id in idsControl :: id in controles)
      && (forall id | id in controles :: id in idsControl)
    }

    constructor (filas: int, columnas: int, n: int)
      ensures Valid()
      ensures gridFilas == filas && gridColumnas == columnas && numAgentes == n
      ensures mapaEstados == map[] && claves == [] && colaCosechas == [] && celdasExploradas == {}
      ensures agentes == [] && asignaciones == [] && controles == map[] && idsControl == []
      ensures frutosCosechadosTotal == 0 && contadorGusanos == 0 && !uiRegistrada
    {
      gridFilas, gridColumnas, numAgentes := filas, columnas, n;
      mapaEstados, claves, colaCosechas, celdasExploradas := map[], [], [], {};
      agentes, asignaciones, controles, idsControl := [], [], map[], [];
      frutosCosechadosTotal, contadorGusanos := 0, 0;
      uiRegistrada := false;
    }

    method RegistrarAgenteUi()
      requires Valid()
      modifies this`uiRegistrada
      ensures Valid() && uiRegistrada
    {
      uiRegistrada := true;
    }

    /** Ids `1 .. numAgentes`, each with a fresh control record: event set, no abort, CONTINUAR. */
    method CrearAgentesFisicos()
      requires Valid()
      modifies this`controles, this`idsControl, this`agentes, this`asignaciones
      ensures Valid()
      ensures agentes == old(agentes) + Ids(numAgentes)
      ensures asignaciones == old(asignaciones) + seq(|Ids(numAgentes)|, _ => [])
      ensures Creados(old(controles), controles, numAgentes)
    {
      ghost var controles0, agentes0, asignaciones0 := controles, agentes, asignaciones;
      var i := 1;
      while i <= numAgentes
        invariant 1 <= i <= (if numAgentes < 1 then 1 else numAgentes + 1)
        invariant Valid()
        invariant agentes == agentes0 + Ids(i - 1)
        invariant asignaciones == asignaciones0 + seq(i - 1, _ => [])
        invariant Creados(controles0, controles, i - 1)
      {
        CreadosPaso(controles0, controles, i - 1);
        Contratar(i);
        assert Ids(i) == Ids(i - 1) + [i];
        AnexoAsociativo(agentes0, Ids(i - 1), i);
        ghost var antes: seq<seq<Celda>> := seq(i - 1, _ => []);
        ghost var ahora: seq<seq<Celda>> := seq(i, _ => []);
        assert ahora == antes + [[]];
        AnexoAsociativo(asignaciones0, antes, []);
        i := i + 1;
      }
    }

    /** One harvester of `crear_agentes_fisicos`: its control record and its place in the agent list. */
    method Contratar(id: int)
      requires Valid() && 1 <= id <= numAgentes
      modifies this`controles, this`idsControl, this`agentes, this`asignaciones
      ensures Valid()
      ensures controles == old(controles)[id := CONTROL_INICIAL]
      ensures agentes == old(agentes) + [id] && asignaciones == old(asignaciones) + [[]]
    {
      if id !in controles {
        idsControl := idsControl + [id];
      }
      controles := controles[id := CONTROL_INICIAL];
      agentes := agentes + [id];
      asignaciones := asignaciones + [[]];
    }

    /**
     * Splits the row-major cells among the harvesters in list order. With no
     * harvesters to divide by (`numAgentes == 0`) it raises ZeroDivisionError
     * (`ok == false`) and assigns nothing.
     */
    method DistribuirTrabajo() returns (ok: bool)
      requires Valid()
      modifies this`asignaciones
      ensures Valid()
      ensures ok <==> numAgentes != 0
      ensures !ok ==> asignaciones == old(asignaciones)
      ensures ok && numAgentes > 0 ==>
        var celdas := Celdas(gridFilas, gridColumnas);
        asignaciones == Bloques(celdas, numAgentes, |celdas| / numAgentes, |agentes|)
      ensures numAgentes < 0 ==> asignaciones == old(asignaciones) == []
    {
      if numAgentes == 0 {
        return false;
      }
      ok := true;
      if numAgentes < 0 {
        // No harvester can have been created; the loop below has nothing to do.
        return;
      }
      var celdas := Celdas(gridFilas, gridColumnas);
      var chunk := |celdas| / numAgentes;
      var nuevas: seq<seq<Celda>> := [];
      for i := 0 to |agentes|
        invariant nuevas == Bloques(celdas, numAgentes, chunk, i)
      {
        var inicio := i * chunk;
        InicioEsProducto(i, chunk);
        var fin := if i < numAgentes - 1 then inicio + chunk else |celdas|;
        nuevas := nuevas + [Rebanada(celdas, inicio, fin)];
      }
      asignaciones := nuevas;
    }

    /** Sets the order of one harvester; an unknown id raises KeyError and changes nothing. */
    method EmitirOrden(id: int, orden: OrdenCapataz) returns (res: Resultado)
      requires Valid()
      modifies this`controles
      ensures Valid()
      ensures res == if id in old(controles) then Ok else ErrorClave(id)
      ensures controles == if id in old(controles) then old(controles)[id := Aplicar(old(controles)[id], orden)]
                           else old(controles)
    {
      if id !in controles {
        return ErrorClave(id);
      }
      controles := controles[id := Aplicar(controles[id], orden)];
      res := Ok;
    }

    /** The figures `_notificar_ui` hands the UI, given the elapsed time. */
    function Metricas(tiempo: real): (m: MetricasSistema)
      reads this
      requires Valid()
      ensures m.celdasExploradas == |mapaEstados.Keys|
      ensures m.celdasTotales == gridFilas * gridColumnas
      ensures m.frutosCosechados == frutosCosechadosTotal && m.amenazasGusano == contadorGusanos
      ensures m.agentesActivos == |agentes|
    {
      MetricasSistema(tiempo, |celdasExploradas|, gridFilas * gridColumnas, frutosCosechadosTotal,
                      |agentes|, contadorGusanos)
    }

    /** The outcome of `_notificar_ui`: nothing without a callback; otherwise the three-argument call fails. */
    function NotificarUi(): (r: Resultado)
      reads this
      ensures r == Ok <==> !uiRegistrada
      ensures r != Ok ==> r == ErrorAridad
    {
      if uiRegistrada then ErrorAridad else Ok
    }

    /** The cell states in the order `mapa_estados.values()` lists them. */
    function Valores(): (vs: seq<EstadoCelda>)
      reads this
      requires Valid()
      ensures |vs| == |claves|
      ensures forall k | 0 <= k < |vs| :: vs[k] == mapaEstados[claves[k]]
    {
      ValoresEn(mapaEstados, claves)
    }

    /** Queues the harvest instruction, if any, and records the cell state of a reading. */
    method GuardarLectura(d: DatosExploracion)
      requires Valid()
      modifies this`colaCosechas, this`mapaEstados, this`claves, this`celdasExploradas
      ensures Valid()
      ensures colaCosechas == old(colaCosechas) + Instrucciones(d)
      ensures mapaEstados == old(mapaEstados)[(d.x, d.y) := Clasificar(d)]
      ensures claves == if (d.x, d.y) in old(mapaEstados) then old(claves) else old(claves) + [(d.x, d.y)]
      ensures celdasExploradas == old(celdasExploradas) + {(d.x, d.y)}
      ensures |celdasExploradas| == |old(celdasExploradas)| + (if (d.x, d.y) in old(celdasExploradas) then 0 else 1)
    {
      if ListoCosecha(d) {
        colaCosechas := colaCosechas + [InstruccionCosecha((d.x, d.y), d.frutosDisponibles, 1, DESCRIPCION_COSECHA)];
      }
      var celda := (d.x, d.y);
      IndiceLectura(mapaEstados, claves, celdasExploradas, celda, Clasificar(d));
      if celda !in mapaEstados {
        claves := claves + [celda];
      }
      mapaEstados := mapaEstados[celda := Clasificar(d)];
      celdasExploradas := celdasExploradas + {celda};
    }

    /**
     * Handles one reading. A worm counts, and ABANDONAR goes to the reporting
     * agent (KeyError, with only the count changed, if it has no control
     * record); then the harvest instruction, the cell map, the explored set
     * and the UI notification follow.
     */
    method RecibirDatos(d: DatosExploracion) returns (res: Resultado)
      requires Valid()
      modifies this`contadorGusanos, this`controles, this`colaCosechas, this`mapaEstados, this`claves,
               this`celdasExploradas
      ensures Valid()
      ensures contadorGusanos == old(contadorGusanos) + (if TieneGusano(d) then 1 else 0)
      ensures res == if TieneGusano(d) && d.agenteId !in old(controles) then ErrorClave(d.agenteId) else NotificarUi()
      ensures controles == if TieneGusano(d) && d.agenteId in old(controles)
                           then old(controles)[d.agenteId := Aplicar(old(controles)[d.agenteId], ABANDONAR)]
                           else old(controles)
      ensures res.ErrorClave? ==>
        colaCosechas == old(colaCosechas) && mapaEstados == old(mapaEstados) && claves == old(claves)
        && celdasExploradas == old(celdasExploradas)
      ensures !res.ErrorClave? ==>
        colaCosechas == old(colaCosechas) + Instrucciones(d)
        && mapaEstados == old(mapaEstados)[(d.x, d.y) := Clasificar(d)]
        && claves == (if (d.x, d.y) in old(mapaEstados) then old(claves) else old(claves) + [(d.x, d.y)])
        && celdasExploradas == old(celdasExploradas) + {(d.x, d.y)}
        && |celdasExploradas| == |old(celdasExploradas)| + (if (d.x, d.y) in old(celdasExploradas) then 0 else 1)
    {
      if TieneGusano(d) {
        contadorGusanos := contadorGusanos + 1;
        var r := EmitirOrden(d.agenteId, ABANDONAR);
        if r != Ok {
          return r;
        }
      }
      assert mapaEstados == old(mapaEstados) && colaCosechas == old(colaCosechas)
        && celdasExploradas == old(celdasExploradas) && claves == old(claves);
      GuardarLectura(d);
      res := NotificarUi();
      assert !res.ErrorClave?;
    }

    /** Adds a harvested amount to the total, then notifies the UI. */
    method ReportarCosecha(cantidad: int) returns (res: Resultado)
      requires Valid()
      modifies this`frutosCosechadosTotal
      ensures Valid()
      ensures frutosCosechadosTotal == old(frutosCosechadosTotal) + cantidad
      ensures res == NotificarUi()
    {
      frutosCosechadosTotal := frutosCosechadosTotal + cantidad;
      res := NotificarUi();
    }

    /** ABANDONAR for every harvester with a control record, in insertion order. */
    method DetenerTodo()
      requires Valid()
      modifies this`controles
      ensures Valid()
      ensures controles.Keys == old(controles).Keys
      ensures forall id | id in controles :: controles[id] == Control(true, true, ABANDONAR)
    {
      for i := 0 to |idsControl|
        invariant Valid()
        invariant controles.Keys == old(controles).Keys
        invariant forall j | 0 <= j < i :: idsControl[j] in controles && controles[idsControl[j]] == Control(true, true, ABANDONAR)
      {
        var _ := EmitirOrden(idsControl[i], ABANDONAR);
      }
    }
  }
}
