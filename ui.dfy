/**
 * The Python simulation's UI agent: the bounded activity log, the cell
 * colour rule, and the state it keeps from the coordinator's callbacks.
 * Drawing is not modelled; the colours are the values the drawing uses.
 */
module Ui {
  import opened Util
  import C = Coordinador

  /** An RGB colour triple. */
  type Rgb = (int, int, int)

  const COLOR_SIN_EXPLORAR: Rgb := (60, 60, 70)
  const COLOR_BAJO_RIESGO: Rgb := (46, 125, 50)
  const COLOR_MEDIO_RIESGO: Rgb := (255, 193, 7)
  const COLOR_ALTO_RIESGO: Rgb := (244, 67, 54)
  const COLOR_CRITICO: Rgb := (183, 28, 28)
  const COLOR_COSECHA: Rgb := (156, 39, 176)

  const COLORES_AGENTES: seq<Rgb> := [(33, 150, 243), (76, 175, 80), (255, 152, 0), (233, 30, 99), (0, 188, 212)]

  /** The log size the UI agent asks for. */
  const MAX_EVENTOS_UI: nat := 1000
  /** The default bound of an activity log. */
  const MAX_EVENTOS_DEFECTO: nat := 100
  /** The default grid size of the UI agent. */
  const GRID_DEFECTO: int := 10

  const EVENTO_COSECHA: string := "cosecha"
  const EVENTO_TRATAMIENTO: string := "tratamiento"
  const EVENTO_ALERTA: string := "alerta"

  /** One logged event; the timestamp is the clock reading passed in. */
  datatype Evento = Evento(timestamp: string, tipo: string, mensaje: string, agenteId: Option<int>)

  /** How `actualizar` ended. */
  datatype ResultadoUi =
    | Ok
    | ErrorAtributo(atributo: string)   // AttributeError: the coordinator's cell state has no such field

  /** The colour of cell `(x, y)`: unexplored, then harvest-ready, then the risk level. */
  function ColorCelda(mapa: map<Celda, C.EstadoCelda>, x: int, y: int): (c: Rgb)
    ensures (x, y) !in mapa ==> c == COLOR_SIN_EXPLORAR
    ensures (x, y) in mapa && mapa[(x, y)].listoParaCosechar ==> c == COLOR_COSECHA
    ensures (x, y) in mapa && !mapa[(x, y)].listoParaCosechar ==>
      c == match mapa[(x, y)].nivelRiesgo
           case CRITICO => COLOR_CRITICO
           case ALTO => COLOR_ALTO_RIESGO
           case MEDIO => COLOR_MEDIO_RIESGO
           case _ => COLOR_BAJO_RIESGO
  {
    if (x, y) !in mapa then COLOR_SIN_EXPLORAR
    else
      var celda := mapa[(x, y)];
      if celda.listoParaCosechar then COLOR_COSECHA
      else if celda.nivelRiesgo == C.CRITICO then COLOR_CRITICO
      else if celda.nivelRiesgo == C.ALTO then COLOR_ALTO_RIESGO
      else if celda.nivelRiesgo == C.MEDIO then COLOR_MEDIO_RIESGO
      else COLOR_BAJO_RIESGO
  }

  /** The cell that the coordinator marks as ready is drawn in the harvest colour, whatever its risk. */
  lemma CosechaSobreRiesgo(mapa: map<Celda, C.EstadoCelda>, e: C.EstadoCelda)
    requires e.listoParaCosechar
    ensures ColorCelda(mapa[(e.x, e.y) := e], e.x, e.y) == COLOR_COSECHA
  {
  }

  /** The coordinator only produces BAJO and CRITICO, so its cells are drawn in one of four colours. */
  lemma ColoresDelCoordinador(mapa: map<Celda, C.EstadoCelda>, x: int, y: int)
    requires forall k | k in mapa :: mapa[k].nivelRiesgo == C.BAJO || mapa[k].nivelRiesgo == C.CRITICO
    ensures ColorCelda(mapa, x, y) in {COLOR_SIN_EXPLORAR, COLOR_COSECHA, COLOR_CRITICO, COLOR_BAJO_RIESGO}
  {
  }

  /** The index into the agent palette: Python's `%`, which floors. */
  function IndiceColorAgente(agenteId: int): (i: int)
    ensures 0 <= i < |COLORES_AGENTES|
    ensures 1 <= agenteId <= 5 ==> i == agenteId - 1
  {
    (agenteId - 1) % |COLORES_AGENTES|
  }

  /** Agents five ids apart share a colour. */
  lemma ColorAgentePeriodico(agenteId: int)
    ensures IndiceColorAgente(agenteId + 5) == IndiceColorAgente(agenteId)
  {
  }

  /** The cell map after storing `estados` one after the other. */
  function Sobrescribir(mapa: map<Celda, C.EstadoCelda>, estados: seq<C.EstadoCelda>): map<Celda, C.EstadoCelda>
  {
    if estados == [] then mapa
    else
      var e := estados[|estados| - 1];
      Sobrescribir(mapa, estados[..|estados| - 1])[(e.x, e.y) := e]
  }

  /** A cell nobody reports keeps its entry, or stays absent. */
  lemma {:induction false} SobrescribirFuera(mapa: map<Celda, C.EstadoCelda>, estados: seq<C.EstadoCelda>, k: Celda)
    requires forall i | 0 <= i < |estados| :: (estados[i].x, estados[i].y) != k
    ensures k in Sobrescribir(mapa, estados) <==> k in mapa
    ensures k in mapa ==> Sobrescribir(mapa, estados)[k] == mapa[k]
    decreases |estados|
  {
    if estados != [] {
      SobrescribirFuera(mapa, estados[..|estados| - 1], k);
    }
  }

  /** A reported cell holds the last state reported for it. */
  lemma {:induction false} SobrescribirUltimo(mapa: map<Celda, C.EstadoCelda>, estados: seq<C.EstadoCelda>, i: nat)
    requires i < |estados|
    requires forall j | i < j < |estados| :: (estados[j].x, estados[j].y) != (estados[i].x, estados[i].y)
    ensures (estados[i].x, estados[i].y) in Sobrescribir(mapa, estados)
    ensures Sobrescribir(mapa, estados)[(estados[i].x, estados[i].y)] == estados[i]
    decreases |estados|
  {
    if i < |estados| - 1 {
      SobrescribirUltimo(mapa, estados[..|estados| - 1], i);
    }
  }

  /** Every event is one of the three kinds `actualizar` logs. */
  predicate TiposConocidos(eventos: seq<Evento>) {
    forall i | 0 <= i < |eventos| ::
      eventos[i].tipo == EVENTO_COSECHA || eventos[i].tipo == EVENTO_TRATAMIENTO || eventos[i].tipo == EVENTO_ALERTA
  }

  /** Appending a known kind to a bounded log keeps every kind known. */
  lemma TiposTrasAgregar(eventos: seq<Evento>, e: Evento, max: nat)
    requires TiposConocidos(eventos)
    requires e.tipo == EVENTO_COSECHA || e.tipo == EVENTO_TRATAMIENTO || e.tipo == EVENTO_ALERTA
    ensures TiposConocidos(Ultimos(eventos + [e], max))
  {
    var s := eventos + [e];
    var r := Ultimos(s, max);
    forall i | 0 <= i < |r|
      ensures r[i].tipo == EVENTO_COSECHA || r[i].tipo == EVENTO_TRATAMIENTO || r[i].tipo == EVENTO_ALERTA
    {
      assert r[i] == s[|s| - |r| + i];
    }
  }

  /** How many events of kind `tipo` the log holds, as the final summary counts them. */
  function Cuenta(eventos: seq<Evento>, tipo: string): (n: nat)
    ensures n <= |eventos|
  {
    if eventos == [] then 0
    else Cuenta(eventos[..|eventos| - 1], tipo) + (if eventos[|eventos| - 1].tipo == tipo then 1 else 0)
  }

  /** The final summary's tallies add up: the total is the sum of the three kinds. */
  lemma {:induction false} TotalEsSuma(eventos: seq<Evento>)
    requires TiposConocidos(eventos)
    ensures |eventos| == Cuenta(eventos, EVENTO_COSECHA) + Cuenta(eventos, EVENTO_TRATAMIENTO) + Cuenta(eventos, EVENTO_ALERTA)
    decreases |eventos|
  {
    if eventos != [] {
      TotalEsSuma(eventos[..|eventos| - 1]);
    }
  }

  /** The attributes the final summary reads, `tiempo_transcurrido` to `agentes_activos`, and `amenazas_gusano`. */
  datatype Campo =
    | TiempoTranscurrido | CeldasExploradas | CeldasTotales | PorcentajeAnalizado | FrutosTotalesDetectados
    | FrutosListosCosecha | FrutosCosechados | CosechasOrdenadas | TratamientosOrdenados | CeldasCriticas
    | CeldasAltoRiesgo | AgentesActivos | AmenazasGusano

  /** The fields a `MetricasSistema` record has. */
  const CAMPOS_METRICAS: set<Campo> :=
    {TiempoTranscurrido, CeldasExploradas, CeldasTotales, FrutosCosechados, AgentesActivos, AmenazasGusano}

  /**
   * The metrics fields the final summary reads, in order, before its
   * efficiency block; that block reads only fields already in this list, so
   * it cannot be the first to fail.
   */
  const LEIDOS_RESUMEN: seq<Campo> :=
    [TiempoTranscurrido, TiempoTranscurrido, CeldasExploradas, CeldasTotales, PorcentajeAnalizado,
     FrutosTotalesDetectados, FrutosListosCosecha, FrutosCosechados, CosechasOrdenadas,
     TratamientosOrdenados, CeldasCriticas, CeldasAltoRiesgo, AgentesActivos]

  /** How the final summary ends. */
  datatype ResumenFinal =
    | SinMetricas                        // no metrics yet: only the frame lines are printed
    | FalloAtributo(atributo: Campo)    // AttributeError on the first field the record lacks
    | ConTallies(total: nat, cosecha: nat, tratamiento: nat, alerta: nat)

  /** The index of the first name of `leidos` missing from `campos`, if any. */
  function PrimerFaltante(leidos: seq<Campo>, campos: set<Campo>): (r: Option<nat>)
    ensures r.Some? ==>
      r.value < |leidos| && leidos[r.value] !in campos && forall k | 0 <= k < r.value :: leidos[k] in campos
    ensures r.None? <==> forall k | 0 <= k < |leidos| :: leidos[k] in campos
    decreases |leidos|
  {
    if leidos == [] then None
    else if leidos[0] !in campos then Some(0)
    else
      var resto := PrimerFaltante(leidos[1..], campos);
      assert forall k | 1 <= k < |leidos| :: leidos[k] == leidos[1..][k - 1];
      if resto.None? then None else Some(resto.value + 1)
  }

  /**
   * The final summary for a metrics record with fields `campos`: nothing
   * beyond the frame without metrics; otherwise the first field read that
   * the record lacks raises, and only a record with all of them reaches the
   * event tallies.
   */
  function Resumen(campos: set<Campo>, metricas: Option<C.MetricasSistema>, eventos: seq<Evento>): (r: ResumenFinal)
    ensures r.SinMetricas? <==> metricas.None?
    ensures r.FalloAtributo? ==> r.atributo in LEIDOS_RESUMEN && r.atributo !in campos
    ensures r.ConTallies? <==> metricas.Some? && forall k | 0 <= k < |LEIDOS_RESUMEN| :: LEIDOS_RESUMEN[k] in campos
    ensures r.ConTallies? ==>
      r.total == |eventos| && r.cosecha == Cuenta(eventos, EVENTO_COSECHA)
      && r.tratamiento == Cuenta(eventos, EVENTO_TRATAMIENTO) && r.alerta == Cuenta(eventos, EVENTO_ALERTA)
  {
    if metricas.None? then SinMetricas
    else
      var faltante := PrimerFaltante(LEIDOS_RESUMEN, campos);
      if faltante.Some? then FalloAtributo(LEIDOS_RESUMEN[faltante.value])
      else ConTallies(|eventos|, Cuenta(eventos, EVENTO_COSECHA), Cuenta(eventos, EVENTO_TRATAMIENTO),
                      Cuenta(eventos, EVENTO_ALERTA))
  }

  /** The first four fields the summary reads exist; the fifth, the coverage, does not. */
  lemma CoberturaFalta()
    ensures forall k | 0 <= k < 4 :: LEIDOS_RESUMEN[k] in CAMPOS_METRICAS
    ensures LEIDOS_RESUMEN[4] !in CAMPOS_METRICAS
  {
  }

  /** With the coordinator's record, the summary stops at the coverage line: `porcentaje_analizado` is missing. */
  lemma ResumenComoEscrito(metricas: Option<C.MetricasSistema>, eventos: seq<Evento>)
    ensures Resumen(CAMPOS_METRICAS, metricas, eventos)
         == if metricas.None? then SinMetricas else FalloAtributo(PorcentajeAnalizado)
  {
    if metricas.Some? {
      var f := PrimerFaltante(LEIDOS_RESUMEN, CAMPOS_METRICAS);
      CoberturaFalta();
      assert f == Some(4);
    }
  }

  /** No run of the final summary prints the event tallies. */
  lemma TalliesInalcanzables(metricas: Option<C.MetricasSistema>, eventos: seq<Evento>)
    ensures !Resumen(CAMPOS_METRICAS, metricas, eventos).ConTallies?
  {
    ResumenComoEscrito(metricas, eventos);
  }

  /** A record with every field read would reach tallies that add up to the log's size. */
  lemma TalliesSuman(campos: set<Campo>, metricas: Option<C.MetricasSistema>, eventos: seq<Evento>)
    requires metricas.Some? && forall k | 0 <= k < |LEIDOS_RESUMEN| :: LEIDOS_RESUMEN[k] in campos
    requires TiposConocidos(eventos)
    ensures var r := Resumen(campos, metricas, eventos);
      r.ConTallies? && r.total == r.cosecha + r.tratamiento + r.alerta
  {
    TotalEsSuma(eventos);
  }

  /** The message of the 'cosecha' event for a cell. */
  function MensajeCosecha(e: C.EstadoCelda): string {
    "Celda (" + Decimal(e.x) + "," + Decimal(e.y) + "): " + Decimal(e.frutosDisponibles) + " frutos listos"
  }

  /** A log that keeps at most `maxEventos` events (a `deque` with `maxlen`). */
  class RegistroActividad {
    var eventos: seq<Evento>
    const maxEventos: nat

    predicate Valid()
      reads this
    {
      |eventos| <= maxEventos
    }

    constructor (maxEventos: nat := MAX_EVENTOS_DEFECTO)
      ensures Valid() && eventos == [] && this.maxEventos == maxEventos
    {
      eventos := [];
      this.maxEventos := maxEventos;
    }

    /** Appends an event; a full log drops its oldest event. */
    method AgregarEvento(timestamp: string, tipo: string, mensaje: string, agenteId: Option<int>)
      requires Valid()
      modifies this`eventos
      ensures Valid()
      ensures eventos == Ultimos(old(eventos) + [Evento(timestamp, tipo, mensaje, agenteId)], maxEventos)
    {
      var e := Evento(timestamp, tipo, mensaje, agenteId);
      if |eventos| == maxEventos {
        if maxEventos == 0 {
          eventos := [];
        } else {
          eventos := eventos[1..] + [e];
          assert eventos == (old(eventos) + [e])[1..];
        }
      } else {
        eventos := eventos + [e];
      }
    }
  }

  /** The events a log holds after appending `nuevos` one by one. */
  function Agregados(eventos: seq<Evento>, nuevos: seq<Evento>, max: nat): seq<Evento> {
    if nuevos == [] then eventos
    else Ultimos(Agregados(eventos, nuevos[..|nuevos| - 1], max) + [nuevos[|nuevos| - 1]], max)
  }

  /** Appending one by one keeps the most recent `max` events in order of arrival. */
  lemma {:induction false} AgregadosSonLosUltimos(eventos: seq<Evento>, nuevos: seq<Evento>, max: nat)
    requires |eventos| <= max
    ensures Agregados(eventos, nuevos, max) == Ultimos(eventos + nuevos, max)
    decreases |nuevos|
  {
    if nuevos == [] {
      assert eventos + nuevos == eventos;
    } else {
      var previos := nuevos[..|nuevos| - 1];
      var x := nuevos[|nuevos| - 1];
      AgregadosSonLosUltimos(eventos, previos, max);
      UltimosAnexo(eventos + previos, x, max);
      assert eventos + nuevos == (eventos + previos) + [x];
    }
  }

  class AgenteUI {
    const gridFilas: int
    const gridColumnas: int
    var mapaEstados: map<Celda, C.EstadoCelda>
    var metricas: Option<C.MetricasSistema>
    var posicionesAgentes: map<int, Celda>
    const registro: RegistroActividad
    /** The display loop's flag. */
    var running: bool

    ghost predicate Valid()
      reads this, registro
    {
      registro.Valid() && registro.maxEventos == MAX_EVENTOS_UI && TiposConocidos(registro.eventos)
    }

    constructor (gridFilas: int := GRID_DEFECTO, gridColumnas: int := GRID_DEFECTO)
      ensures Valid() && fresh(registro)
      ensures this.gridFilas == gridFilas && this.gridColumnas == gridColumnas
      ensures mapaEstados == map[] && metricas.None? && posicionesAgentes == map[] && registro.eventos == []
      ensures running
    {
      this.gridFilas := gridFilas;
      this.gridColumnas := gridColumnas;
      mapaEstados := map[];
      metricas := None;
      posicionesAgentes := map[];
      registro := new RegistroActividad(MAX_EVENTOS_UI);
      running := true;
    }

    /**
     * The coordinator's callback, as written: every reported state is
     * stored and the metrics replaced; then the event loop logs the first
     * state's 'cosecha' event, if any, and fails on its missing
     * `requiere_tratamiento`, so no treatment or alert event is logged.
     */
    method Actualizar(estados: seq<C.EstadoCelda>, nuevas: C.MetricasSistema, timestamp: string)
      returns (res: ResultadoUi)
      requires Valid()
      modifies this`mapaEstados, this`metricas, registro
      ensures Valid()
      ensures mapaEstados == Sobrescribir(old(mapaEstados), estados)
      ensures metricas == Some(nuevas)
      ensures estados == [] ==> res == Ok && registro.eventos == old(registro.eventos)
      ensures estados != [] ==> res == ErrorAtributo("requiere_tratamiento")
      ensures estados != [] ==>
        registro.eventos == if estados[0].listoParaCosechar
          then Ultimos(old(registro.eventos) + [Evento(timestamp, EVENTO_COSECHA, MensajeCosecha(estados[0]), None)],
                       MAX_EVENTOS_UI)
          else old(registro.eventos)
    {
      for i := 0 to |estados|
        invariant mapaEstados == Sobrescribir(old(mapaEstados), estados[..i])
        invariant unchanged(registro)
      {
        var e := estados[i];
        assert estados[..i + 1][..i] == estados[..i];
        mapaEstados := mapaEstados[(e.x, e.y) := e];
      }
      assert estados[..|estados|] == estados;
      metricas := Some(nuevas);
      res := Ok;
      if |estados| > 0 {
        var e := estados[0];
        if e.listoParaCosechar {
          TiposTrasAgregar(registro.eventos, Evento(timestamp, EVENTO_COSECHA, MensajeCosecha(e), None), MAX_EVENTOS_UI);
          registro.AgregarEvento(timestamp, EVENTO_COSECHA, MensajeCosecha(e), None);
        }
        res := ErrorAtributo("requiere_tratamiento");
      }
    }

    method ActualizarPosicionAgente(agenteId: int, x: int, y: int)
      modifies this`posicionesAgentes
      ensures agenteId in posicionesAgentes && posicionesAgentes[agenteId] == (x, y)
      ensures forall k | k != agenteId :: (k in posicionesAgentes <==> k in old(posicionesAgentes))
      ensures forall k | k != agenteId && k in old(posicionesAgentes) :: posicionesAgentes[k] == old(posicionesAgentes)[k]
    {
      posicionesAgentes := posicionesAgentes[agenteId := (x, y)];
    }

    /** `detener`: the display loop stops; closing Pygame is not modelled. */
    method Detener()
      modifies this`running
      ensures !running
    {
      running := false;
    }

    /**
     * `mostrar_resumen_final` as written: the display stops, then the summary
     * runs over the stored metrics record, which lacks `porcentaje_analizado`.
     */
    method MostrarResumenFinal() returns (r: ResumenFinal)
      modifies this`running
      ensures !running
      ensures r == Resumen(CAMPOS_METRICAS, metricas, registro.eventos)
      ensures metricas.None? ==> r == SinMetricas
      ensures metricas.Some? ==> r == FalloAtributo(PorcentajeAnalizado)
    {
      Detener();
      r := Resumen(CAMPOS_METRICAS, metricas, registro.eventos);
      ResumenComoEscrito(metricas, registro.eventos);
    }

    /**
     * The event counts of the log that the final summary's tallies would
     * print: total, cosecha, tratamiento, alerta. The summary as written never
     * reaches them (`TalliesInalcanzables`).
     */
    method Tallies() returns (total: nat, cosecha: nat, tratamiento: nat, alerta: nat)
      requires Valid()
      ensures total == cosecha + tratamiento + alerta
      ensures cosecha == Cuenta(registro.eventos, EVENTO_COSECHA)
      ensures tratamiento == Cuenta(registro.eventos, EVENTO_TRATAMIENTO)
      ensures alerta == Cuenta(registro.eventos, EVENTO_ALERTA)
    {
      total := |registro.eventos|;
      cosecha := Cuenta(registro.eventos, EVENTO_COSECHA);
      tratamiento := Cuenta(registro.eventos, EVENTO_TRATAMIENTO);
      alerta := Cuenta(registro.eventos, EVENTO_ALERTA);
      TotalEsSuma(registro.eventos);
    }
  }
}
