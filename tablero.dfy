/**
 * The Unity dashboard (`DashboardManager`): the `fila*5+columna` plant
 * index, the risk painted on each plant, and the one-alert-per-plant
 * bookkeeping with its timers.
 */
module Tablero {
  import opened Util

  const TOTAL_COLUMNAS: int := 5
  /** The threshold hardcoded in `ReportarEstadoCultivo`. */
  const RIESGO_ALERTA: real := 0.7
  /** The inspector default of `riesgoCritico`. */
  const RIESGO_CRITICO_INICIAL: real := 0.7

  /** A floating alert: `serie` tells alert objects apart. */
  datatype Alerta = Alerta(serie: nat, mensaje: string)

  /** The list index of a grid position, computed in C#'s wrapping `int` arithmetic. */
  function IndiceLista(fila: int, columna: int): int {
    Int32(Int32(fila * TOTAL_COLUMNAS) + columna)
  }

  /**
   * `Update`'s `(i / 5, i % 5)` leads `ReportarEstadoCultivo` back to plant
   * `i`, with a column in range: for a list index nothing wraps.
   */
  lemma IdaYVuelta(i: nat)
    requires i < 0x8000_0000
    ensures IndiceLista(i / TOTAL_COLUMNAS, i % TOTAL_COLUMNAS) == i
    ensures 0 <= i % TOTAL_COLUMNAS < TOTAL_COLUMNAS
  {
  }

  /** A row far outside the grid wraps back onto plant 4: `858993460 * 5` overflows to 4. */
  lemma IndiceEnvuelto()
    ensures IndiceLista(858993460, 0) == 4
    ensures 858993460 * TOTAL_COLUMNAS + 0 != 4
  {
  }

  /** With the inspector's default threshold the two thresholds agree: an alert is up exactly when the risk is above 0.7. */
  lemma SinRezagoPorDefecto(antes: map<int, Alerta>, despues: map<int, Alerta>, j: int, r: real)
    requires AlertaTrasEvaluar(antes, despues, j, r, RIESGO_CRITICO_INICIAL, true)
    ensures j in despues <==> r > RIESGO_ALERTA
  {
  }

  /** A remainder by 100 is never 100, so `Update`'s "mission complete" branch cannot run. */
  lemma PorcentajeNuncaCien(k: int)
    ensures RestoTruncado(k, 100) < 100
  {
  }

  /** `Update`'s smoothed percentage for an elapsed time. */
  function PorcentajeSuave(tiempo: real): (p: int)
    requires tiempo >= 0.0
    ensures 0 <= p < 100
  {
    RestoTruncado((tiempo * 5.0).Floor, 100)
  }

  /** The colour blend factor (`Color.Lerp` clamps it to [0, 1]). */
  function Mezcla(nivel: real): (t: real)
    ensures 0.0 <= t <= 1.0
    ensures 0.0 <= nivel <= 1.0 ==> t == nivel
  {
    if nivel < 0.0 then 0.0 else if nivel > 1.0 then 1.0 else nivel
  }

  function MensajeAlerta(fila: int, columna: int): string {
    "\U{A1}ALERTA " + Decimal(fila) + "-" + Decimal(columna) + "!"
  }

  /**
   * Plant `j`'s alert after one evaluation of risk `r` with the configured
   * threshold: with `r` above it the plant is reported, which shows an alert
   * only above the hardcoded 0.7; otherwise its alert is cleared.
   */
  ghost predicate AlertaTrasEvaluar(antes: map<int, Alerta>, despues: map<int, Alerta>, j: int, r: real,
                                    riesgoCritico: real, conPrefab: bool)
  {
    if r > riesgoCritico then
      if r > RIESGO_ALERTA && conPrefab then
        j in despues && despues[j].mensaje == MensajeAlerta(j / TOTAL_COLUMNAS, j % TOTAL_COLUMNAS)
        && (j in antes ==> despues[j].serie == antes[j].serie)
      else
        (j in despues <==> j in antes) && (j in antes ==> despues[j] == antes[j])
    else
      j !in despues
  }

  /** With a threshold below 0.7, a risk between the two neither refreshes nor clears an existing alert. */
  lemma AlertaRezagada(antes: map<int, Alerta>, despues: map<int, Alerta>, j: int)
    requires j in antes
    requires AlertaTrasEvaluar(antes, despues, j, 0.6, 0.5, true)
    ensures j in despues && despues[j] == antes[j]
  {
  }

  /** Whether evaluating risk `r` (re)starts the plant's alert timer. */
  predicate Refresca(r: real, riesgoCritico: real, conPrefab: bool) {
    r > riesgoCritico && r > RIESGO_ALERTA && conPrefab
  }

  /** The timers an evaluation of the risks `rs` starts, one per refreshed plant. */
  function Refrescos(rs: seq<real>, riesgoCritico: real, conPrefab: bool): (n: nat)
    ensures n <= |rs|
  {
    if rs == [] then 0
    else Refrescos(rs[..|rs| - 1], riesgoCritico, conPrefab)
         + (if Refresca(rs[|rs| - 1], riesgoCritico, conPrefab) then 1 else 0)
  }

  /** One more plant evaluated: the count grows by its own refresh. */
  lemma RefrescosPaso(rs: seq<real>, i: nat, riesgoCritico: real, conPrefab: bool)
    requires i < |rs|
    ensures Refrescos(rs[..i + 1], riesgoCritico, conPrefab)
         == Refrescos(rs[..i], riesgoCritico, conPrefab) + if Refresca(rs[i], riesgoCritico, conPrefab) then 1 else 0
  {
    var t := rs[..i + 1];
    assert t[..|t| - 1] == rs[..i] && t[|t| - 1] == rs[i];
  }

  /**
   * Plant `j`'s timer after one evaluation of risk `r`, where `serie` is the
   * timer number the evaluation would start: a refresh starts it, a report
   * without an alert keeps the timer, and a cleared alert has none.
   */
  ghost predicate TimerTrasEvaluar(antes: map<int, nat>, despues: map<int, nat>, j: int, r: real,
                                   riesgoCritico: real, conPrefab: bool, serie: nat)
  {
    if Refresca(r, riesgoCritico, conPrefab) then
      j in despues && despues[j] == serie
    else if r > riesgoCritico then
      (j in despues <==> j in antes) && (j in antes ==> despues[j] == antes[j])
    else
      j !in despues
  }

  /** Two tables agree on every plant but `i`. */
  ghost predicate IgualesSalvo<V>(m0: map<int, V>, m: map<int, V>, i: int) {
    forall j | j != i :: (j in m <==> j in m0) && (j in m ==> m[j] == m0[j])
  }

  /** Two tables agree on every plant from `i` on. */
  ghost predicate IgualesDesde<V>(m0: map<int, V>, m: map<int, V>, i: int) {
    forall j | i <= j :: (j in m <==> j in m0) && (j in m ==> m[j] == m0[j])
  }

  lemma IgualesDesdePaso<V>(m0: map<int, V>, antes: map<int, V>, despues: map<int, V>, i: int)
    requires IgualesDesde(m0, antes, i) && IgualesSalvo(antes, despues, i)
    ensures IgualesDesde(m0, despues, i + 1)
  {
  }

  /** The alerts after the risks `rs` of plants `0 .. k-1` are evaluated in order, from alerts `a0`. */
  ghost predicate AlertasHasta(a0: map<int, Alerta>, a: map<int, Alerta>, rs: seq<real>, k: nat,
                               riesgoCritico: real, conPrefab: bool)
    requires k <= |rs|
  {
    forall j | 0 <= j < k :: AlertaTrasEvaluar(a0, a, j, rs[j], riesgoCritico, conPrefab)
  }

  /** Evaluating plant `i`, which leaves the other alerts alone, extends the evaluated prefix by one. */
  lemma AlertasHastaPaso(a0: map<int, Alerta>, antes: map<int, Alerta>, despues: map<int, Alerta>, rs: seq<real>,
                         i: nat, riesgoCritico: real, conPrefab: bool)
    requires i < |rs|
    requires AlertasHasta(a0, antes, rs, i, riesgoCritico, conPrefab) && IgualesDesde(a0, antes, i)
    requires AlertaTrasEvaluar(antes, despues, i, rs[i], riesgoCritico, conPrefab) && IgualesSalvo(antes, despues, i)
    ensures AlertasHasta(a0, despues, rs, i + 1, riesgoCritico, conPrefab)
  {
    forall j | 0 <= j < i + 1
      ensures AlertaTrasEvaluar(a0, despues, j, rs[j], riesgoCritico, conPrefab)
    {
      if j < i {
        assert AlertaTrasEvaluar(a0, antes, j, rs[j], riesgoCritico, conPrefab);
      }
    }
  }

  /** The timers after the risks `rs` of plants `0 .. k-1` are evaluated in order, from timers `t0` and serial `serie0`. */
  ghost predicate TimersHasta(t0: map<int, nat>, t: map<int, nat>, rs: seq<real>, k: nat,
                              riesgoCritico: real, conPrefab: bool, serie0: nat)
    requires k <= |rs|
  {
    forall j | 0 <= j < k ::
      TimerTrasEvaluar(t0, t, j, rs[j], riesgoCritico, conPrefab, serie0 + Refrescos(rs[..j], riesgoCritico, conPrefab))
  }

  /** Evaluating plant `i`, which leaves the other timers alone, extends the evaluated prefix by one. */
  lemma TimersHastaPaso(t0: map<int, nat>, antes: map<int, nat>, despues: map<int, nat>, rs: seq<real>, i: nat,
                        riesgoCritico: real, conPrefab: bool, serie0: nat)
    requires i < |rs|
    requires TimersHasta(t0, antes, rs, i, riesgoCritico, conPrefab, serie0) && IgualesDesde(t0, antes, i)
    requires TimerTrasEvaluar(antes, despues, i, rs[i], riesgoCritico, conPrefab,
                              serie0 + Refrescos(rs[..i], riesgoCritico, conPrefab))
    requires IgualesSalvo(antes, despues, i)
    ensures TimersHasta(t0, despues, rs, i + 1, riesgoCritico, conPrefab, serie0)
  {
    forall j | 0 <= j < i + 1
      ensures TimerTrasEvaluar(t0, despues, j, rs[j], riesgoCritico, conPrefab,
                               serie0 + Refrescos(rs[..j], riesgoCritico, conPrefab))
    {
      if j < i {
        assert TimerTrasEvaluar(t0, antes, j, rs[j], riesgoCritico, conPrefab,
                                serie0 + Refrescos(rs[..j], riesgoCritico, conPrefab));
      }
    }
  }

  class DashboardManager {
    /** `listaDePlantas.Count`. */
    const numPlantas: nat
    /** Whether `prefabAlertaFlotante` is assigned. */
    const conPrefab: bool
    const riesgoCritico: real
    /** The blend factor painted on each plant. */
    var pintado: seq<real>
    var alertasActivas: map<int, Alerta>
    /** The timer coroutine of each plant's alert. */
    var temporizadores: map<int, nat>
    /** The next fresh alert or timer number. */
    var siguiente: nat
    var tiempoSimulado: real
    var movimientos: int
    var simulacionActiva: bool

    /** Alerts and timers go together, belong to plants of the list, and are distinct objects. */
    predicate Valid()
      reads this
    {
      |pintado| == numPlantas && numPlantas < 0x8000_0000
      && alertasActivas.Keys == temporizadores.Keys
      && (forall k | k in alertasActivas :: 0 <= k < numPlantas && alertasActivas[k].serie < siguiente)
      && (forall a, b | a in alertasActivas && b in alertasActivas && a != b ::
            alertasActivas[a].serie != alertasActivas[b].serie)
      && tiempoSimulado >= 0.0
    }

    constructor (pintadoInicial: seq<real>, conPrefab: bool, riesgoCritico: real := RIESGO_CRITICO_INICIAL)
      requires |pintadoInicial| < 0x8000_0000
      ensures Valid()
      ensures numPlantas == |pintadoInicial| && pintado == pintadoInicial
      ensures this.conPrefab == conPrefab && this.riesgoCritico == riesgoCritico
      ensures alertasActivas == map[] && temporizadores == map[]
      ensures tiempoSimulado == 0.0 && movimientos == 0 && simulacionActiva
    {
      numPlantas := |pintadoInicial|;
      pintado := pintadoInicial;
      this.conPrefab := conPrefab;
      this.riesgoCritico := riesgoCritico;
      alertasActivas := map[];
      temporizadores := map[];
      siguiente := 0;
      tiempoSimulado := 0.0;
      movimientos := 0;
      simulacionActiva := true;
    }

    /** Paints plant `indice`; a negative index fails on the list access. */
    method ActualizarRiesgoPlanta(indice: int, nivel: real) returns (excepcion: bool)
      requires Valid()
      modifies this`pintado
      ensures Valid()
      ensures excepcion <==> indice < 0
      ensures 0 <= indice < numPlantas ==> pintado == old(pintado)[indice := Mezcla(nivel)]
      ensures !(0 <= indice < numPlantas) ==> pintado == old(pintado)
    {
      excepcion := false;
      if indice < numPlantas {
        if indice < 0 {
          return true;
        }
        pintado := pintado[indice := Mezcla(nivel)];
      }
    }

    /** Shows `mensaje` over the plant: an existing alert is reused and its timer restarted. */
    method CrearAlertaVisual(indice: int, mensaje: string)
      requires Valid() && 0 <= indice < numPlantas
      modifies this`alertasActivas, this`temporizadores, this`siguiente
      ensures Valid()
      ensures !conPrefab ==>
        alertasActivas == old(alertasActivas) && temporizadores == old(temporizadores) && siguiente == old(siguiente)
      ensures conPrefab ==>
        alertasActivas == old(alertasActivas)[indice := Alerta(
          if indice in old(alertasActivas) then old(alertasActivas)[indice].serie else old(siguiente), mensaje)]
        && temporizadores == old(temporizadores)[indice := old(siguiente)]
        && siguiente == old(siguiente) + 1
    {
      if !conPrefab {
        return;
      }
      if indice in alertasActivas {
        alertasActivas := alertasActivas[indice := alertasActivas[indice].(mensaje := mensaje)];
        temporizadores := temporizadores[indice := siguiente];
        siguiente := siguiente + 1;
        return;
      }
      alertasActivas := alertasActivas[indice := Alerta(siguiente, mensaje)];
      temporizadores := temporizadores[indice := siguiente];
      siguiente := siguiente + 1;
    }

    /** The timer of plant `indice`'s alert runs out: the alert and its timer go. */
    method VencerAlerta(indice: int)
      requires Valid()
      modifies this`alertasActivas, this`temporizadores
      ensures Valid()
      ensures alertasActivas == old(alertasActivas) - {indice} && temporizadores == old(temporizadores) - {indice}
    {
      alertasActivas := alertasActivas - {indice};
      temporizadores := temporizadores - {indice};
    }

    /** Stops the plant's timer and removes its alert; nothing else changes. */
    method ClearAlertForPlant(indice: int)
      requires Valid()
      modifies this`alertasActivas, this`temporizadores
      ensures Valid()
      ensures alertasActivas == old(alertasActivas) - {indice} && temporizadores == old(temporizadores) - {indice}
    {
      if indice in temporizadores {
        temporizadores := temporizadores - {indice};
      }
      if indice in alertasActivas {
        alertasActivas := alertasActivas - {indice};
      }
    }

    /** Reports a grid position: inside the list it is painted, and alerted on above 0.7; outside nothing changes. */
    method ReportarEstadoCultivo(fila: int, columna: int, nivel: real)
      requires Valid()
      modifies this`pintado, this`alertasActivas, this`temporizadores, this`siguiente
      ensures Valid()
      ensures var i := IndiceLista(fila, columna);
        if 0 <= i < numPlantas then
          pintado == old(pintado)[i := Mezcla(nivel)]
          && (nivel > RIESGO_ALERTA && conPrefab ==>
                alertasActivas == old(alertasActivas)[i := Alerta(
                  if i in old(alertasActivas) then old(alertasActivas)[i].serie else old(siguiente),
                  MensajeAlerta(fila, columna))])
          && (nivel > RIESGO_ALERTA && conPrefab ==>
                temporizadores == old(temporizadores)[i := old(siguiente)] && siguiente == old(siguiente) + 1)
          && (!(nivel > RIESGO_ALERTA && conPrefab) ==>
                alertasActivas == old(alertasActivas) && temporizadores == old(temporizadores)
                && siguiente == old(siguiente))
        else
          pintado == old(pintado) && alertasActivas == old(alertasActivas) && temporizadores == old(temporizadores)
          && siguiente == old(siguiente)
    {
      var indiceLista := IndiceLista(fila, columna);
      if 0 <= indiceLista < numPlantas {
        var _ := ActualizarRiesgoPlanta(indiceLista, nivel);
        if nivel > RIESGO_ALERTA {
          CrearAlertaVisual(indiceLista, MensajeAlerta(fila, columna));
        }
      }
    }

    /** The body of the space-key loop for plant `i`. */
    method EvaluarPlanta(i: nat, r: real)
      requires Valid() && i < numPlantas
      modifies this`pintado, this`alertasActivas, this`temporizadores, this`siguiente
      ensures Valid()
      ensures pintado == old(pintado)[i := Mezcla(r)]
      ensures AlertaTrasEvaluar(old(alertasActivas), alertasActivas, i, r, riesgoCritico, conPrefab)
      ensures IgualesSalvo(old(alertasActivas), alertasActivas, i)
      ensures TimerTrasEvaluar(old(temporizadores), temporizadores, i, r, riesgoCritico, conPrefab, old(siguiente))
      ensures siguiente == old(siguiente) + if Refresca(r, riesgoCritico, conPrefab) then 1 else 0
      ensures IgualesSalvo(old(temporizadores), temporizadores, i)
    {
      var _ := ActualizarRiesgoPlanta(i, r);
      if r > riesgoCritico {
        IdaYVuelta(i);
        ReportarEstadoCultivo(i / TOTAL_COLUMNAS, i % TOTAL_COLUMNAS, r);
      } else {
        ClearAlertForPlant(i);
      }
    }

    /** The space-key loop over every plant. */
    method EvaluarPlantas(riesgos: seq<real>)
      requires Valid() && |riesgos| == numPlantas
      modifies this`pintado, this`alertasActivas, this`temporizadores, this`siguiente
      ensures Valid()
      ensures forall j | 0 <= j < numPlantas :: pintado[j] == Mezcla(riesgos[j])
      ensures AlertasHasta(old(alertasActivas), alertasActivas, riesgos, numPlantas, riesgoCritico, conPrefab)
      ensures siguiente == old(siguiente) + Refrescos(riesgos, riesgoCritico, conPrefab)
      ensures TimersHasta(old(temporizadores), temporizadores, riesgos, numPlantas, riesgoCritico, conPrefab,
                          old(siguiente))
    {
      ghost var alertas0 := alertasActivas;
      ghost var timers0 := temporizadores;
      ghost var serie0 := siguiente;
      for i := 0 to numPlantas
        invariant Valid()
        invariant forall j | 0 <= j < i :: pintado[j] == Mezcla(riesgos[j])
        invariant AlertasHasta(alertas0, alertasActivas, riesgos, i, riesgoCritico, conPrefab)
        invariant IgualesDesde(alertas0, alertasActivas, i)
        invariant siguiente == serie0 + Refrescos(riesgos[..i], riesgoCritico, conPrefab)
        invariant TimersHasta(timers0, temporizadores, riesgos, i, riesgoCritico, conPrefab, serie0)
        invariant IgualesDesde(timers0, temporizadores, i)
      {
        ghost var alertasAntes := alertasActivas;
        ghost var timersAntes := temporizadores;
        EvaluarPlanta(i, riesgos[i]);
        RefrescosPaso(riesgos, i, riesgoCritico, conPrefab);
        AlertasHastaPaso(alertas0, alertasAntes, alertasActivas, riesgos, i, riesgoCritico, conPrefab);
        IgualesDesdePaso(alertas0, alertasAntes, alertasActivas, i);
        TimersHastaPaso(timers0, timersAntes, temporizadores, riesgos, i, riesgoCritico, conPrefab, serie0);
        IgualesDesdePaso(timers0, timersAntes, temporizadores, i);
      }
      assert riesgos[..numPlantas] == riesgos;
    }

    /**
     * One frame: the clock advances (the simulation never stops), and on
     * the space key every plant gets the risk drawn for it, is reported
     * when above the threshold and has its alert cleared otherwise.
     */
    method Update(deltaTime: real, espacio: bool, riesgos: seq<real>)
      requires Valid() && deltaTime >= 0.0
      requires espacio ==> |riesgos| == numPlantas
      modifies this
      ensures Valid()
      ensures simulacionActiva == old(simulacionActiva)
      ensures tiempoSimulado == if old(simulacionActiva) then old(tiempoSimulado) + deltaTime else old(tiempoSimulado)
      ensures !espacio ==>
        movimientos == old(movimientos) && pintado == old(pintado) && alertasActivas == old(alertasActivas)
        && temporizadores == old(temporizadores) && siguiente == old(siguiente)
      ensures espacio ==>
        movimientos == old(movimientos) + 1
        && (forall j | 0 <= j < numPlantas :: pintado[j] == Mezcla(riesgos[j]))
        && AlertasHasta(old(alertasActivas), alertasActivas, riesgos, numPlantas, riesgoCritico, conPrefab)
        && siguiente == old(siguiente) + Refrescos(riesgos, riesgoCritico, conPrefab)
        && TimersHasta(old(temporizadores), temporizadores, riesgos, numPlantas, riesgoCritico, conPrefab,
                       old(siguiente))
    {
      if simulacionActiva {
        tiempoSimulado := tiempoSimulado + deltaTime;
        var porcentajeSuave := PorcentajeSuave(tiempoSimulado);
        if porcentajeSuave >= 100 {
          // The source stops the simulation here; the percentage never reaches 100.
          assert false;
        }
      }
      if espacio {
        movimientos := movimientos + 1;
        EvaluarPlantas(riesgos);
      }
    }
  }
}
