/**
 * The supervisor ("capataz") of the harvesting simulation: it keeps the
 * latest status of every harvester, turns each status update into at most
 * one order through a fixed-priority rule ladder, reacts to contamination
 * reports and logs every order with per-kind counters. Orders are only
 * logged: nothing delivers them to the harvesters.
 */
module Capataz {
  import opened Util

  datatype TipoOrden = PARATE | CONTINUA | ABANDONA

  /** Why an order was emitted, with the figure the log text quotes. */
  datatype Razon =
    | BateriaBaja(bateria: real)
    | ZonaContaminada(distancia: nat)
    | Sobrecarga(frutos: int)
    | BateriaRecuperada(nivel: real)
    | Emergencia(critica: real)
    | ContaminacionCritica(celda: Celda)
    | FinTurno
    | EficienciaBaja(eficiencia: real)
    | Manual(texto: string)

  datatype Orden = Orden(agenteDestino: int, tipo: TipoOrden, razon: Razon, prioridad: int)

  /** The outcome of the rule ladder for one agent: what to order, why, how urgently. */
  datatype Decision = Decision(tipo: TipoOrden, razon: Razon, prioridad: int)

  datatype EstadoAgente = EstadoAgente(
    agenteId: int,
    posicion: Celda,
    bateria: real,
    frutosCargados: int,
    estado: string,
    celdasExploradas: int,
    cosechasCompletadas: int,
    eficiencia: real)

  const RECOLECTANDO: string := "recolectando"
  const PARADO: string := "parado"

  // Decision thresholds.
  const BATERIA_BAJA: real := 15.0
  const BATERIA_CRITICA: real := 5.0
  const CONTAMINACION_ALTA: real := 7.0
  const CONTAMINACION_CRITICA: real := 9.0
  const CAPACIDAD_LLENA: real := 0.9
  const EFICIENCIA_MINIMA: real := 5.0
  // Constants written inline in the rules.
  const BATERIA_RECUPERADA: real := 50.0
  const CAPACIDAD_MAXIMA: int := 50
  const EFICIENCIA_ABANDONO: real := 2.0
  const CELDAS_MINIMAS: int := 20
  const DISTANCIA_ALERTA: nat := 2
  const PRIORIDAD_MANUAL: int := 5
  const RAZON_MANUAL: string := "Orden manual del capataz"

  /** Harvests per minute, given the seconds elapsed since the supervisor started. */
  function Eficiencia(cosechas: int, transcurrido: real): (r: real)
    ensures transcurrido <= 0.0 ==> r == 0.0
    ensures transcurrido > 0.0 ==> r * transcurrido == cosechas as real * 60.0
    ensures transcurrido > 0.0 && cosechas >= 0 ==> r >= 0.0
  {
    if transcurrido > 0.0 then cosechas as real / (transcurrido / 60.0) else 0.0
  }

  /** The load ratio reaches the "full" threshold exactly from 45 fruits on. */
  lemma CargaLlena(frutos: int)
    ensures frutos as real / CAPACIDAD_MAXIMA as real >= CAPACIDAD_LLENA <==> frutos >= 45
  {
  }

  predicate UltimaEsParate(ultima: Option<Orden>) {
    ultima.Some? && ultima.value.tipo == PARATE
  }

  // The conditions of the five rungs of the ladder, each as the source tests it.
  predicate BateriaCritica(e: EstadoAgente) {
    e.bateria <= BATERIA_CRITICA
  }

  predicate BateriaBajaRecolectando(e: EstadoAgente) {
    e.bateria <= BATERIA_BAJA && e.estado == RECOLECTANDO
  }

  /** Recovery needs a PARATE (of any cause) as the agent's last order. */
  predicate Recuperada(e: EstadoAgente, ultima: Option<Orden>) {
    e.bateria > BATERIA_RECUPERADA && e.estado == PARADO && UltimaEsParate(ultima)
  }

  predicate Sobrecargado(e: EstadoAgente) {
    e.frutosCargados >= 45 && e.estado == RECOLECTANDO
  }

  predicate Ineficiente(e: EstadoAgente) {
    e.celdasExploradas > CELDAS_MINIMAS && e.eficiencia < EFICIENCIA_ABANDONO
  }

  /**
   * The rule ladder: critical battery, low battery, recovered battery,
   * overload, efficiency; the first rule that fires decides. `ultima` is the
   * last order logged for the agent.
   */
  function Regla(e: EstadoAgente, ultima: Option<Orden>): (r: Option<Decision>)
    // One clause per rung, each guarded by "no earlier rung fires".
    ensures BateriaCritica(e) ==> r == Some(Decision(ABANDONA, Emergencia(e.bateria), 5))
    ensures !BateriaCritica(e) && BateriaBajaRecolectando(e) ==>
      r == Some(Decision(PARATE, BateriaBaja(e.bateria), 4))
    ensures !BateriaCritica(e) && !BateriaBajaRecolectando(e) && Recuperada(e, ultima) ==>
      r == Some(Decision(CONTINUA, BateriaRecuperada(e.bateria), 3))
    ensures !BateriaCritica(e) && !BateriaBajaRecolectando(e) && !Recuperada(e, ultima) && Sobrecargado(e) ==>
      r == Some(Decision(PARATE, Sobrecarga(e.frutosCargados), 3))
    ensures !BateriaCritica(e) && !BateriaBajaRecolectando(e) && !Recuperada(e, ultima) && !Sobrecargado(e)
            && Ineficiente(e) ==>
      r == Some(Decision(ABANDONA, EficienciaBaja(e.eficiencia), 2))
    // Critical battery wins whatever the state.
    ensures e.bateria <= BATERIA_CRITICA ==> r == Some(Decision(ABANDONA, Emergencia(e.bateria), 5))
    ensures r.Some? && r.value.prioridad == 5 <==> e.bateria <= BATERIA_CRITICA
    ensures r.Some? && r.value.prioridad == 4 <==>
      BATERIA_CRITICA < e.bateria <= BATERIA_BAJA && e.estado == RECOLECTANDO
    ensures r.Some? && r.value.prioridad == 4 ==> r.value == Decision(PARATE, BateriaBaja(e.bateria), 4)
    // Recovery needs a PARATE (of any cause) as the agent's last order.
    ensures r.Some? && r.value.tipo == CONTINUA <==>
      e.bateria > BATERIA_RECUPERADA && e.estado == PARADO && UltimaEsParate(ultima)
    ensures r.Some? && r.value.tipo == CONTINUA ==> r.value.prioridad == 3
    ensures r.Some? && r.value.tipo == PARATE ==>
      e.estado == RECOLECTANDO && (e.bateria <= BATERIA_BAJA || e.frutosCargados >= 45)
    ensures r.Some? && r.value.tipo == ABANDONA ==>
      e.bateria <= BATERIA_CRITICA
      || (e.celdasExploradas > CELDAS_MINIMAS && e.eficiencia < EFICIENCIA_ABANDONO && r.value.prioridad == 2)
    // No order at all exactly when no rule fires.
    ensures r.None? <==>
      e.bateria > BATERIA_CRITICA
      && !(e.bateria <= BATERIA_BAJA && e.estado == RECOLECTANDO)
      && !(e.bateria > BATERIA_RECUPERADA && e.estado == PARADO && UltimaEsParate(ultima))
      && !(e.frutosCargados >= 45 && e.estado == RECOLECTANDO)
      && !(e.celdasExploradas > CELDAS_MINIMAS && e.eficiencia < EFICIENCIA_ABANDONO)
  {
    CargaLlena(e.frutosCargados);
    if e.bateria <= BATERIA_CRITICA then
      Some(Decision(ABANDONA, Emergencia(e.bateria), 5))
    else if e.bateria <= BATERIA_BAJA && e.estado == RECOLECTANDO then
      Some(Decision(PARATE, BateriaBaja(e.bateria), 4))
    else if e.bateria > BATERIA_RECUPERADA && e.estado == PARADO && UltimaEsParate(ultima) then
      Some(Decision(CONTINUA, BateriaRecuperada(e.bateria), 3))
    else if e.frutosCargados as real / CAPACIDAD_MAXIMA as real >= CAPACIDAD_LLENA
            && e.estado == RECOLECTANDO then
      Some(Decision(PARATE, Sobrecarga(e.frutosCargados), 3))
    else if e.eficiencia < EFICIENCIA_MINIMA && e.celdasExploradas > CELDAS_MINIMAS
            && e.eficiencia < EFICIENCIA_ABANDONO then
      Some(Decision(ABANDONA, EficienciaBaja(e.eficiencia), 2))
    else
      None
  }

  /** Efficiency in [2, 5) with more than 20 cells is only a warning. */
  lemma SoloAdvertencia(e: EstadoAgente, ultima: Option<Orden>)
    requires e.bateria > BATERIA_BAJA && e.estado == RECOLECTANDO && e.frutosCargados < 45
    requires e.celdasExploradas > CELDAS_MINIMAS
    requires EFICIENCIA_ABANDONO <= e.eficiencia < EFICIENCIA_MINIMA
    ensures Regla(e, ultima).None?
  {
  }

  function ComoOrdenes(id: int, d: Option<Decision>): seq<Orden> {
    if d.Some? then [Orden(id, d.value.tipo, d.value.razon, d.value.prioridad)] else []
  }

  /** The orders of the log addressed to `id`, in log order. */
  function DirigidasA(os: seq<Orden>, id: int): (r: seq<Orden>)
    ensures |r| <= |os|
    ensures forall o :: o in r <==> o in os && o.agenteDestino == id
  {
    if os == [] then []
    else DirigidasA(os[..|os| - 1], id) + (if os[|os| - 1].agenteDestino == id then [os[|os| - 1]] else [])
  }

  /** The latest logged order addressed to `id`, if any. */
  function UltimaOrden(os: seq<Orden>, id: int): (r: Option<Orden>)
    ensures r.None? <==> forall o | o in os :: o.agenteDestino != id
    ensures r.Some? ==> r.value in os && r.value.agenteDestino == id
  {
    var dirigidas := DirigidasA(os, id);
    if |dirigidas| > 0 then
      assert dirigidas[|dirigidas| - 1] in dirigidas;
      Some(dirigidas[|dirigidas| - 1])
    else None
  }

  /** Appending an order makes it the last one of its addressee and leaves the others' last orders alone. */
  lemma UltimaTrasEmitir(os: seq<Orden>, o: Orden, id: int)
    ensures UltimaOrden(os + [o], id) == if o.agenteDestino == id then Some(o) else UltimaOrden(os, id)
  {
    assert (os + [o])[..|os + [o]| - 1] == os;
  }

  /** The number of orders of one kind in the log. */
  function Cuenta(os: seq<Orden>, t: TipoOrden): (n: nat)
    ensures n <= |os|
  {
    if os == [] then 0
    else Cuenta(os[..|os| - 1], t) + (if os[|os| - 1].tipo == t then 1 else 0)
  }

  lemma CuentaAnexo(os: seq<Orden>, extra: seq<Orden>, t: TipoOrden)
    ensures Cuenta(os + extra, t) == Cuenta(os, t) + Cuenta(extra, t)
    decreases |extra|
  {
    if extra != [] {
      assert (os + extra)[..|os + extra| - 1] == os + extra[..|extra| - 1];
      assert (os + extra)[|os + extra| - 1] == extra[|extra| - 1];
      CuentaAnexo(os, extra[..|extra| - 1], t);
    } else {
      assert os + extra == os;
    }
  }

  /** Every logged order is of exactly one of the three kinds. */
  lemma {:induction false} CuentasSuman(os: seq<Orden>)
    ensures Cuenta(os, PARATE) + Cuenta(os, CONTINUA) + Cuenta(os, ABANDONA) == |os|
  {
    if os != [] {
      CuentasSuman(os[..|os| - 1]);
    }
  }

  /** One order of the same kind, cause and priority for every agent of `ids`, in order. */
  function ATodos(ids: seq<int>, tipo: TipoOrden, razon: Razon, prioridad: int): (r: seq<Orden>)
    ensures |r| == |ids|
    ensures forall k | 0 <= k < |r| :: r[k].agenteDestino == ids[k]
    ensures forall o | o in r :: o.tipo == tipo && o.razon == razon && o.prioridad == prioridad
  {
    if ids == [] then []
    else ATodos(ids[..|ids| - 1], tipo, razon, prioridad) + [Orden(ids[|ids| - 1], tipo, razon, prioridad)]
  }

  /** The broadcast to one more agent: the previous orders, then its own. */
  lemma ATodosPaso(ids: seq<int>, tipo: TipoOrden, razon: Razon, prioridad: int, i: nat)
    requires i < |ids|
    ensures ATodos(ids[..i + 1], tipo, razon, prioridad)
         == ATodos(ids[..i], tipo, razon, prioridad) + [Orden(ids[i], tipo, razon, prioridad)]
  {
    var t := ids[..i + 1];
    assert t[..|t| - 1] == ids[..i] && t[|t| - 1] == ids[i];
  }

  /** One more order of a broadcast, logged after the earlier ones, extends the logged broadcast by one agent. */
  lemma DifundirPaso(previas: seq<Orden>, antes: seq<Orden>, despues: seq<Orden>,
                     ids: seq<int>, tipo: TipoOrden, razon: Razon, prioridad: int, i: nat)
    requires i < |ids|
    requires antes == previas + ATodos(ids[..i], tipo, razon, prioridad)
    requires despues == antes + [Orden(ids[i], tipo, razon, prioridad)]
    ensures despues == previas + ATodos(ids[..i + 1], tipo, razon, prioridad)
  {
    ATodosPaso(ids, tipo, razon, prioridad, i);
    AnexoAsociativo(previas, ATodos(ids[..i], tipo, razon, prioridad), Orden(ids[i], tipo, razon, prioridad));
  }

  /** A broadcast of one kind adds exactly one order of that kind per agent. */
  lemma {:induction false} CuentaATodos(ids: seq<int>, tipo: TipoOrden, razon: Razon, prioridad: int)
    ensures Cuenta(ATodos(ids, tipo, razon, prioridad), tipo) == |ids|
    ensures forall t | t != tipo :: Cuenta(ATodos(ids, tipo, razon, prioridad), t) == 0
  {
    if ids != [] {
      var r := ATodos(ids, tipo, razon, prioridad);
      assert r[..|r| - 1] == ATodos(ids[..|ids| - 1], tipo, razon, prioridad);
      CuentaATodos(ids[..|ids| - 1], tipo, razon, prioridad);
    }
  }

  predicate Cerca(e: EstadoAgente, celda: Celda) {
    Manhattan(e.posicion, celda) <= DISTANCIA_ALERTA && e.estado == RECOLECTANDO
  }

  /** The proximity orders for one more agent: the previous ones, then its own if it is near. */
  lemma CercanasPaso(ids: seq<int>, estados: map<int, EstadoAgente>, celda: Celda, i: nat)
    requires i < |ids| && forall id | id in ids :: id in estados
    ensures ids[i] in ids && ids[i] in estados
    ensures var e := estados[ids[i]];
      Cercanas(ids[..i + 1], estados, celda)
      == Cercanas(ids[..i], estados, celda)
       + (if Cerca(e, celda) then [Orden(ids[i], PARATE, ZonaContaminada(Manhattan(e.posicion, celda)), 4)] else [])
  {
    var t := ids[..i + 1];
    assert t[..|t| - 1] == ids[..i] && t[|t| - 1] == ids[i];
    assert forall id | id in t :: id in estados;
  }

  /** Some order of `os` is addressed to `id`. */
  predicate Destinatario(os: seq<Orden>, id: int) {
    exists k | 0 <= k < |os| :: os[k].agenteDestino == id
  }

  /** An agent is addressed in a concatenation iff it is addressed in one of the parts. */
  lemma DestinatarioAnexo(a: seq<Orden>, b: seq<Orden>, id: int)
    ensures Destinatario(a + b, id) <==> Destinatario(a, id) || Destinatario(b, id)
  {
    var c := a + b;
    if Destinatario(c, id) {
      var k :| 0 <= k < |c| && c[k].agenteDestino == id;
      if k < |a| { assert a[k] == c[k]; } else { assert b[k - |a|] == c[k]; }
    }
    if Destinatario(a, id) {
      var k :| 0 <= k < |a| && a[k].agenteDestino == id;
      assert c[k] == a[k];
    }
    if Destinatario(b, id) {
      var k :| 0 <= k < |b| && b[k].agenteDestino == id;
      assert c[|a| + k] == b[k];
    }
  }

  /** The PARATE orders a high-contamination report at `celda` produces, agent by agent. */
  function Cercanas(ids: seq<int>, estados: map<int, EstadoAgente>, celda: Celda): (r: seq<Orden>)
    requires forall id | id in ids :: id in estados
    ensures forall o | o in r ::
              o.tipo == PARATE && o.prioridad == 4 && o.agenteDestino in ids
              && o.razon == ZonaContaminada(Manhattan(estados[o.agenteDestino].posicion, celda))
    ensures forall id :: Destinatario(r, id) <==> id in ids && Cerca(estados[id], celda)
  {
    if ids == [] then []
    else
      var id := ids[|ids| - 1];
      var previas := Cercanas(ids[..|ids| - 1], estados, celda);
      var extra := if Cerca(estados[id], celda)
              then [Orden(id, PARATE, ZonaContaminada(Manhattan(estados[id].posicion, celda)), 4)]
              else [];
      assert forall x :: Destinatario(previas + extra, x) <==> Destinatario(previas, x) || Destinatario(extra, x) by {
        forall x ensures Destinatario(previas + extra, x) <==> Destinatario(previas, x) || Destinatario(extra, x) {
          DestinatarioAnexo(previas, extra, x);
        }
      }
      assert forall x :: Destinatario(extra, x) <==> x == id && Cerca(estados[id], celda) by {
        forall x ensures Destinatario(extra, x) <==> x == id && Cerca(estados[id], celda) {
          if extra != [] { assert extra[0].agenteDestino == id; }
        }
      }
      previas + extra
  }

  /** The orders addressed to `id` distribute over concatenation. */
  lemma {:induction false} DirigidasAAnexo(a: seq<Orden>, b: seq<Orden>, id: int)
    ensures DirigidasA(a + b, id) == DirigidasA(a, id) + DirigidasA(b, id)
    decreases |b|
  {
    if b == [] {
      assert a + b == a;
    } else {
      var c := a + b;
      var b0 := b[..|b| - 1];
      var o := b[|b| - 1];
      var cola: seq<Orden> := if o.agenteDestino == id then [o] else [];
      assert c[..|c| - 1] == a + b0 && c[|c| - 1] == o;
      assert DirigidasA(c, id) == DirigidasA(a + b0, id) + cola;
      assert DirigidasA(b, id) == DirigidasA(b0, id) + cola;
      DirigidasAAnexo(a, b0, id);
      ConcatAsociativa(DirigidasA(a, id), DirigidasA(b0, id), cola);
    }
  }

  /** With distinct agents, each nearby harvester gets exactly one PARATE and every other agent none. */
  lemma {:induction false} CercanasUnaPorAgente(ids: seq<int>, estados: map<int, EstadoAgente>, celda: Celda)
    requires forall id | id in ids :: id in estados
    requires Distintos(ids)
    ensures forall id | id in ids ::
      |DirigidasA(Cercanas(ids, estados, celda), id)| == if Cerca(estados[id], celda) then 1 else 0
    ensures forall id | id !in ids :: DirigidasA(Cercanas(ids, estados, celda), id) == []
    decreases |ids|
  {
    if ids != [] {
      var n := |ids| - 1;
      var previos := ids[..n];
      var ultimo := ids[n];
      assert ids[..n + 1] == ids;
      CercanasPaso(ids, estados, celda, n);
      assert Distintos(previos) by {
        forall i, j | 0 <= i < j < |previos| ensures previos[i] != previos[j] {
          assert previos[i] == ids[i] && previos[j] == ids[j];
        }
      }
      assert ultimo !in previos by {
        forall i | 0 <= i < |previos| ensures previos[i] != ultimo {
          assert previos[i] == ids[i];
        }
      }
      CercanasUnaPorAgente(previos, estados, celda);
      var p := Cercanas(previos, estados, celda);
      var e := estados[ultimo];
      var extra := if Cerca(e, celda) then [Orden(ultimo, PARATE, ZonaContaminada(Manhattan(e.posicion, celda)), 4)] else [];
      forall id
        ensures DirigidasA(Cercanas(ids, estados, celda), id) == DirigidasA(p, id) + DirigidasA(extra, id)
      {
        DirigidasAAnexo(p, extra, id);
      }
      forall id | id !in ids
        ensures DirigidasA(Cercanas(ids, estados, celda), id) == []
      {
        assert id !in previos && id != ultimo;
        assert DirigidasA(p, id) == [] && DirigidasA(extra, id) == [];
      }
      forall id | id in ids
        ensures |DirigidasA(Cercanas(ids, estados, celda), id)| == if Cerca(estados[id], celda) then 1 else 0
      {
        if id == ultimo {
          assert DirigidasA(p, id) == [];
        } else {
          assert id in previos;
          assert DirigidasA(extra, id) == [];
        }
      }
    }
  }

  /** The orders follow the key order: those for the first `i` agents come first. */
  lemma {:induction false} CercanasEnOrden(ids: seq<int>, estados: map<int, EstadoAgente>, celda: Celda, i: nat)
    requires forall id | id in ids :: id in estados
    requires i <= |ids|
    ensures Cercanas(ids[..i], estados, celda) <= Cercanas(ids, estados, celda)
    decreases |ids| - i
  {
    if i == |ids| {
      assert ids[..i] == ids;
    } else {
      CercanasPaso(ids, estados, celda, i);
      CercanasEnOrden(ids, estados, celda, i + 1);
    }
  }

  /** The orders a contamination report of `nivel` at `celda` produces. */
  function RespuestaContaminacion(ids: seq<int>, estados: map<int, EstadoAgente>, celda: Celda, nivel: real): (r: seq<Orden>)
    requires forall id | id in ids :: id in estados
    ensures nivel >= CONTAMINACION_CRITICA ==>
      |r| == |ids| && forall k | 0 <= k < |r| :: r[k] == Orden(ids[k], ABANDONA, ContaminacionCritica(celda), 5)
    ensures nivel < CONTAMINACION_ALTA ==> r == []
    ensures CONTAMINACION_ALTA <= nivel < CONTAMINACION_CRITICA ==>
      forall id :: Destinatario(r, id) <==> id in ids && Cerca(estados[id], celda)
    ensures CONTAMINACION_ALTA <= nivel < CONTAMINACION_CRITICA ==>
      forall o | o in r :: o.tipo == PARATE && o.prioridad == 4 && o.agenteDestino in ids
        && o.razon == ZonaContaminada(Manhattan(estados[o.agenteDestino].posicion, celda))
    ensures CONTAMINACION_ALTA <= nivel < CONTAMINACION_CRITICA && Distintos(ids) ==>
      forall id | id in ids :: |DirigidasA(r, id)| == if Cerca(estados[id], celda) then 1 else 0
    ensures CONTAMINACION_ALTA <= nivel < CONTAMINACION_CRITICA ==> r == Cercanas(ids, estados, celda)
  {
    if nivel >= CONTAMINACION_CRITICA then ATodos(ids, ABANDONA, ContaminacionCritica(celda), 5)
    else if nivel >= CONTAMINACION_ALTA then
      (if Distintos(ids) then CercanasUnaPorAgente(ids, estados, celda); Cercanas(ids, estados, celda)
       else Cercanas(ids, estados, celda))
    else []
  }

  class AgenteCapataz {
    const posicion: Celda
    const numAgentes: int
    /** The keys of `estados` in insertion order (the dictionary's iteration order). */
    var ids: seq<int>
    var estados: map<int, EstadoAgente>
    var ordenes: seq<Orden>
    var ordenesParate: int
    var ordenesContinua: int
    var ordenesAbandona: int
    var decisionesTotales: int
    var activo: bool

    ghost predicate Valid()
      reads this
    {
      Distintos(ids)
      && (forall id | id in ids :: id in estados)
      && (forall id | id in estados :: id in ids)
      && decisionesTotales == |ordenes|
      && ordenesParate == Cuenta(ordenes, PARATE)
      && ordenesContinua == Cuenta(ordenes, CONTINUA)
      && ordenesAbandona == Cuenta(ordenes, ABANDONA)
    }

    constructor (posicionObservacion: Celda, agentes: int)
      ensures Valid()
      ensures posicion == posicionObservacion && numAgentes == agentes
      ensures ids == [] && estados == map[] && ordenes == [] && activo
      ensures ordenesParate == 0 && ordenesContinua == 0 && ordenesAbandona == 0 && decisionesTotales == 0
    {
      posicion := posicionObservacion;
      numAgentes := agentes;
      ids := [];
      estados := map[];
      ordenes := [];
      ordenesParate, ordenesContinua, ordenesAbandona, decisionesTotales := 0, 0, 0, 0;
      activo := true;
    }

    /** The counters always add up to the number of logged orders. */
    lemma Totales()
      requires Valid()
      ensures decisionesTotales == ordenesParate + ordenesContinua + ordenesAbandona == |ordenes|
    {
      CuentasSuman(ordenes);
    }

    /** Logs one order and bumps its counters; nothing else changes and nothing is delivered. */
    method EmitirOrden(id: int, tipo: TipoOrden, razon: Razon, prioridad: int) returns (orden: Orden)
      requires Valid()
      modifies this
      ensures Valid()
      ensures orden == Orden(id, tipo, razon, prioridad)
      ensures ordenes == old(ordenes) + [orden]
      ensures decisionesTotales == old(decisionesTotales) + 1
      ensures ordenesParate == old(ordenesParate) + (if tipo == PARATE then 1 else 0)
      ensures ordenesContinua == old(ordenesContinua) + (if tipo == CONTINUA then 1 else 0)
      ensures ordenesAbandona == old(ordenesAbandona) + (if tipo == ABANDONA then 1 else 0)
      ensures ids == old(ids) && estados == old(estados) && activo == old(activo)
    {
      orden := Orden(id, tipo, razon, prioridad);
      assert (ordenes + [orden])[..|ordenes|] == ordenes;
      ordenes := ordenes + [orden];
      decisionesTotales := decisionesTotales + 1;
      if tipo == PARATE {
        ordenesParate := ordenesParate + 1;
      } else if tipo == CONTINUA {
        ordenesContinua := ordenesContinua + 1;
      } else if tipo == ABANDONA {
        ordenesAbandona := ordenesAbandona + 1;
      }
    }

    /** Runs the rule ladder on the stored status of `id` and logs its order, if any. */
    method EvaluarYEmitirOrden(id: int)
      requires Valid()
      modifies this
      ensures Valid()
      ensures ids == old(ids) && estados == old(estados) && activo == old(activo)
      ensures ordenes == old(ordenes) +
        (if id in old(estados) then ComoOrdenes(id, Regla(old(estados)[id], UltimaOrden(old(ordenes), id))) else [])
    {
      if id !in estados {
        return;
      }
      var decision := Regla(estados[id], UltimaOrden(ordenes, id));
      if decision.Some? {
        var _ := EmitirOrden(id, decision.value.tipo, decision.value.razon, decision.value.prioridad);
      }
    }

    /** Stores the new status of an agent (elapsed time given in seconds), then evaluates it. */
    method ActualizarEstadoAgente(id: int, pos: Celda, bateria: real, frutos: int, estado: string,
                                  celdas: int, cosechas: int, transcurrido: real)
      requires Valid()
      modifies this
      ensures Valid()
      ensures estados == old(estados)[id := EstadoAgente(id, pos, bateria, frutos, estado, celdas, cosechas,
                                                        Eficiencia(cosechas, transcurrido))]
      ensures ids == if id in old(estados) then old(ids) else old(ids) + [id]
      ensures ordenes == old(ordenes) + ComoOrdenes(id, Regla(estados[id], UltimaOrden(old(ordenes), id)))
      ensures activo == old(activo)
    {
      var e := EstadoAgente(id, pos, bateria, frutos, estado, celdas, cosechas, Eficiencia(cosechas, transcurrido));
      if id !in estados {
        ids := ids + [id];
      }
      estados := estados[id := e];
      EvaluarYEmitirOrden(id);
    }

    /** Logs the same order for every tracked agent, in insertion order. */
    method Difundir(tipo: TipoOrden, razon: Razon, prioridad: int)
      requires Valid()
      modifies this
      ensures Valid()
      ensures ordenes == old(ordenes) + ATodos(ids, tipo, razon, prioridad)
      ensures ids == old(ids) && estados == old(estados) && activo == old(activo)
    {
      ghost var previas := ordenes;
      ghost var estados0, activo0 := estados, activo;
      var destinatarios := ids;
      for i := 0 to |destinatarios|
        invariant Valid()
        invariant ids == destinatarios && estados == estados0 && activo == activo0
        invariant ordenes == previas + ATodos(destinatarios[..i], tipo, razon, prioridad)
      {
        ghost var antes := ordenes;
        var o := EmitirOrden(destinatarios[i], tipo, razon, prioridad);
        DifundirPaso(previas, antes, ordenes, destinatarios, tipo, razon, prioridad, i);
      }
      PrefijoEntero(destinatarios);
    }

    /** PARATE for every harvesting agent within Manhattan distance 2 of `celda`. */
    method EvaluarAgentesCercanos(celda: Celda)
      requires Valid()
      modifies this
      ensures Valid()
      ensures ordenes == old(ordenes) + Cercanas(ids, estados, celda)
      ensures ids == old(ids) && estados == old(estados) && activo == old(activo)
    {
      ghost var previas := ordenes;
      for i := 0 to |ids|
        invariant Valid()
        invariant ids == old(ids) && estados == old(estados) && activo == old(activo)
        invariant ordenes == previas + Cercanas(ids[..i], estados, celda)
      {
        CercanasPaso(ids, estados, celda, i);
        var id := ids[i];
        var e := estados[id];
        var distancia := Manhattan(e.posicion, celda);
        if distancia <= DISTANCIA_ALERTA && e.estado == RECOLECTANDO {
          var o := EmitirOrden(id, PARATE, ZonaContaminada(distancia), 4);
          AnexoAsociativo(previas, Cercanas(ids[..i], estados, celda), o);
        } else {
          assert Cercanas(ids[..i], estados, celda) + [] == Cercanas(ids[..i], estados, celda);
        }
      }
      PrefijoEntero(ids);
    }

    method ReportarContaminacion(celda: Celda, nivel: real)
      requires Valid()
      modifies this
      ensures Valid()
      ensures ordenes == old(ordenes) + RespuestaContaminacion(ids, estados, celda, nivel)
      ensures ids == old(ids) && estados == old(estados) && activo == old(activo)
    {
      if nivel >= CONTAMINACION_CRITICA {
        Difundir(ABANDONA, ContaminacionCritica(celda), 5);
      } else if nivel >= CONTAMINACION_ALTA {
        EvaluarAgentesCercanos(celda);
      }
    }

    method OrdenarParate(id: int, razon: string := RAZON_MANUAL)
      requires Valid()
      modifies this
      ensures Valid()
      ensures ordenes == old(ordenes) + [Orden(id, PARATE, Manual(razon), PRIORIDAD_MANUAL)]
      ensures ids == old(ids) && estados == old(estados) && activo == old(activo)
    {
      var _ := EmitirOrden(id, PARATE, Manual(razon), PRIORIDAD_MANUAL);
    }

    method OrdenarContinua(id: int, razon: string := RAZON_MANUAL)
      requires Valid()
      modifies this
      ensures Valid()
      ensures ordenes == old(ordenes) + [Orden(id, CONTINUA, Manual(razon), PRIORIDAD_MANUAL)]
      ensures ids == old(ids) && estados == old(estados) && activo == old(activo)
    {
      var _ := EmitirOrden(id, CONTINUA, Manual(razon), PRIORIDAD_MANUAL);
    }

    method OrdenarAbandona(id: int, razon: string := RAZON_MANUAL)
      requires Valid()
      modifies this
      ensures Valid()
      ensures ordenes == old(ordenes) + [Orden(id, ABANDONA, Manual(razon), PRIORIDAD_MANUAL)]
      ensures ids == old(ids) && estados == old(estados) && activo == old(activo)
    {
      var _ := EmitirOrden(id, ABANDONA, Manual(razon), PRIORIDAD_MANUAL);
    }

    /** End of shift: one ABANDONA of priority 5 per tracked agent. */
    method OrdenarFinTurno()
      requires Valid()
      modifies this
      ensures Valid()
      ensures ordenes == old(ordenes) + ATodos(ids, ABANDONA, FinTurno, 5)
      ensures ordenesAbandona == old(ordenesAbandona) + |ids|
      ensures ordenesParate == old(ordenesParate) && ordenesContinua == old(ordenesContinua)
      ensures ids == old(ids) && estados == old(estados) && activo == old(activo)
    {
      Difundir(ABANDONA, FinTurno, 5);
      CuentaAnexo(old(ordenes), ATodos(ids, ABANDONA, FinTurno, 5), ABANDONA);
      CuentaAnexo(old(ordenes), ATodos(ids, ABANDONA, FinTurno, 5), PARATE);
      CuentaAnexo(old(ordenes), ATodos(ids, ABANDONA, FinTurno, 5), CONTINUA);
      CuentaATodos(ids, ABANDONA, FinTurno, 5);
    }
  }

  // The demonstration run: three harvesters, then a report of level 8.5 at (3, 5).

  function DemoAgente1(ef: real): EstadoAgente { EstadoAgente(1, (3, 4), 12.0, 15, RECOLECTANDO, 25, 3, ef) }
  function DemoAgente2(ef: real): EstadoAgente { EstadoAgente(2, (5, 5), 75.0, 20, RECOLECTANDO, 30, 5, ef) }
  function DemoAgente3(ef: real): EstadoAgente { EstadoAgente(3, (7, 2), 60.0, 48, RECOLECTANDO, 28, 4, ef) }

  /** Agent 1 (battery 12) gets PARATE for low battery; agent 3 (48 fruits) PARATE for overload. */
  lemma DemoActualizaciones(ef1: real, ef3: real)
    ensures Regla(DemoAgente1(ef1), None) == Some(Decision(PARATE, BateriaBaja(12.0), 4))
    ensures Regla(DemoAgente3(ef3), None) == Some(Decision(PARATE, Sobrecarga(48), 3))
  {
  }

  /** Agent 2 gets no order unless its efficiency falls under 2 harvests a minute. */
  lemma DemoAgente2SinOrden(ef: real, ultima: Option<Orden>)
    ensures Regla(DemoAgente2(ef), ultima).None? <==> ef >= EFICIENCIA_ABANDONO
  {
  }

  /** The report at (3, 5) stops the agents at (3, 4) and (5, 5), not the one at (7, 2). */
  lemma DemoContaminacion(ef1: real, ef2: real, ef3: real)
    ensures var estados := map[1 := DemoAgente1(ef1), 2 := DemoAgente2(ef2), 3 := DemoAgente3(ef3)];
      RespuestaContaminacion([1, 2, 3], estados, (3, 5), 8.5)
      == [Orden(1, PARATE, ZonaContaminada(1), 4), Orden(2, PARATE, ZonaContaminada(2), 4)]
  {
    var estados := map[1 := DemoAgente1(ef1), 2 := DemoAgente2(ef2), 3 := DemoAgente3(ef3)];
    assert [1, 2, 3][..2] == [1, 2];
    assert [1, 2][..1] == [1];
    assert [1][..0] == [];
    assert Cercanas([], estados, (3, 5)) == [];
    assert Manhattan((3, 4), (3, 5)) == 1;
    assert Cercanas([1], estados, (3, 5)) == [Orden(1, PARATE, ZonaContaminada(1), 4)];
    assert Manhattan((5, 5), (3, 5)) == 2;
    assert Cercanas([1, 2], estados, (3, 5)) == [Orden(1, PARATE, ZonaContaminada(1), 4), Orden(2, PARATE, ZonaContaminada(2), 4)];
    assert Manhattan((7, 2), (3, 5)) == 7;
  }
}
