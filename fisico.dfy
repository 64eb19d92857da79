/**
 * A harvester of the threaded simulation: it walks its assigned cells in
 * order, checks the coordinator's abort flag before moving, on arrival and
 * before harvesting, sends every sensor reading to the coordinator, harvests
 * by itself under a local rule and unloads at 20 fruits.
 *
 * The environment of one cell is a `Paso`: the abort flag as read at each of
 * the three checkpoints (the pause event is taken to be set whenever a
 * checkpoint runs), the sensor reading, and whether each callback into the
 * coordinator raised.
 */
module Fisico {
  import opened Util
  import Coordinador

  datatype Lectura = Lectura(plagas: real, maduracion: real, frutos: int)

  datatype Paso = Paso(
    abortaAlSalir: bool,
    abortaAlLlegar: bool,
    lectura: Lectura,
    abortaAlCosechar: bool,
    falloDatos: bool,
    falloCosecha: bool)

  /** A call a harvester makes into the coordinator. */
  datatype Reporte =
    | DatosEnviados(datos: Coordinador.DatosExploracion)
    | CosechaReportada(cantidad: int)

  /** How one pass of the loop ends: on to the next cell, `break`, or an exception from a callback. */
  datatype Salida = Sigue | Rompe | Lanza

  /** The physical state: position, battery, fruit carried, active flag. */
  datatype Fis = Fis(posicion: Celda, bateria: real, frutosCargados: int, activo: bool)

  /** A stretch of work: the state it leaves, the reports it sent, how it ended. */
  datatype Tramo = Tramo(estado: Fis, reportes: seq<Reporte>, salida: Salida)

  const BASE: Celda := (0, 0)
  const BATERIA_INICIAL: real := 100.0
  const CARGA_DESCARGA: int := 20
  const COSTE_PASO: real := 0.1
  const UMBRAL_PLAGA: real := 8.0
  const MADURACION_COSECHA: real := 7.0
  const TEMPERATURA: real := 25.0
  const HUMEDAD: real := 60.0
  const NUTRIENTES: real := 5.0

  /** The abort branch of a checkpoint: back to base, inactive. */
  function Abortado(s: Fis): (r: Fis)
    ensures r.posicion == BASE && !r.activo
    ensures r.bateria == s.bateria && r.frutosCargados == s.frutosCargados
  {
    s.(posicion := BASE, activo := false)
  }

  /** Moving costs 0.1 battery per cell of Manhattan distance. */
  function Mover(s: Fis, celda: Celda): (r: Fis)
    ensures r.posicion == celda && r.activo == s.activo && r.frutosCargados == s.frutosCargados
    ensures r.bateria == s.bateria - COSTE_PASO * Manhattan(celda, s.posicion) as real
    ensures r.bateria <= s.bateria
  {
    s.(posicion := celda, bateria := s.bateria - COSTE_PASO * Manhattan(celda, s.posicion) as real)
  }

  /** Unloading at the base empties a load of 20 fruits or more. */
  function Descargar(s: Fis): (r: Fis)
    ensures r.frutosCargados < CARGA_DESCARGA || r.frutosCargados == s.frutosCargados < CARGA_DESCARGA
    ensures r.frutosCargados == if s.frutosCargados >= CARGA_DESCARGA then 0 else s.frutosCargados
    ensures r.posicion == s.posicion && r.bateria == s.bateria && r.activo == s.activo
  {
    if s.frutosCargados >= CARGA_DESCARGA then s.(frutosCargados := 0) else s
  }

  /** The reading the harvester sends for a cell. */
  function DatosDe(id: int, celda: Celda, l: Lectura): (d: Coordinador.DatosExploracion)
    ensures (d.x, d.y) == celda && d.agenteId == id
    ensures d.nivelPlagas == l.plagas && d.nivelMaduracion == l.maduracion && d.frutosDisponibles == l.frutos
  {
    Coordinador.DatosExploracion(celda.0, celda.1, TEMPERATURA, HUMEDAD, l.plagas, NUTRIENTES, l.maduracion,
                                 l.frutos, id)
  }

  /** The harvester's own harvest rule. */
  predicate CosechaAutonoma(l: Lectura) {
    l.plagas < UMBRAL_PLAGA && l.frutos > 0 && l.maduracion > MADURACION_COSECHA
  }

  /** One pass of the loop of `iniciar_trabajo` over one cell. */
  function Iteracion(s: Fis, celda: Celda, p: Paso, id: int): Tramo {
    if !s.activo then Tramo(s, [], Rompe)
    else if p.abortaAlSalir then Tramo(Abortado(s), [], Rompe)
    else
      var m := Mover(s, celda);
      if p.abortaAlLlegar then Tramo(Abortado(m), [], Rompe)
      else
        var datos := [DatosEnviados(DatosDe(id, celda, p.lectura))];
        if p.falloDatos then Tramo(m, datos, Lanza)
        else if !CosechaAutonoma(p.lectura) then Tramo(Descargar(m), datos, Sigue)
        else if p.abortaAlCosechar then Tramo(Descargar(Abortado(m)), datos, Sigue)
        else
          var c := m.(frutosCargados := m.frutosCargados + p.lectura.frutos);
          var ambos := datos + [CosechaReportada(p.lectura.frutos)];
          if p.falloCosecha then Tramo(c, ambos, Lanza) else Tramo(Descargar(c), ambos, Sigue)
  }

  function Pegar(reportes: seq<Reporte>, t: Tramo): Tramo {
    Tramo(t.estado, reportes + t.reportes, t.salida)
  }

  lemma PegarAnexo(a: seq<Reporte>, b: seq<Reporte>, t: Tramo)
    ensures Pegar(a, Pegar(b, t)) == Pegar(a + b, t)
  {
    assert a + (b + t.reportes) == (a + b) + t.reportes;
  }

  /** The whole of `iniciar_trabajo`: the cells in order, one environment step per cell. */
  function Recorrido(s: Fis, celdas: seq<Celda>, pasos: seq<Paso>, id: int): (t: Tramo)
    requires |pasos| == |celdas|
    ensures t.salida == Lanza ==> |t.reportes| > 0
    decreases |celdas|
  {
    if celdas == [] then Tramo(s, [], Rompe)
    else
      var t := Iteracion(s, celdas[0], pasos[0], id);
      if t.salida != Sigue then t
      else Pegar(t.reportes, Recorrido(t.estado, celdas[1..], pasos[1..], id))
  }

  /** Unfolds the run from the `i`-th cell on. */
  lemma RecorridoDesde(s: Fis, celdas: seq<Celda>, pasos: seq<Paso>, id: int, i: nat)
    requires |pasos| == |celdas| && i < |celdas|
    ensures var t := Iteracion(s, celdas[i], pasos[i], id);
      Recorrido(s, celdas[i..], pasos[i..], id)
      == if t.salida != Sigue then t else Pegar(t.reportes, Recorrido(t.estado, celdas[i + 1..], pasos[i + 1..], id))
  {
    assert celdas[i..][1..] == celdas[i + 1..] && pasos[i..][1..] == pasos[i + 1..];
  }

  /**
   * One more step of the walk: a step that stops ends the walk there; one
   * that goes on leaves the rest of the walk still to come.
   */
  lemma RecorridoAvance(total: Tramo, reportes: seq<Reporte>, s: Fis, celdas: seq<Celda>, pasos: seq<Paso>,
                        id: int, i: nat, paso: Tramo)
    requires |pasos| == |celdas| && i < |celdas|
    requires total == Pegar(reportes, Recorrido(s, celdas[i..], pasos[i..], id))
    requires paso == Iteracion(s, celdas[i], pasos[i], id)
    ensures paso.salida != Sigue ==> total == Tramo(paso.estado, reportes + paso.reportes, paso.salida)
    ensures paso.salida == Sigue ==>
      total == Pegar(reportes + paso.reportes, Recorrido(paso.estado, celdas[i + 1..], pasos[i + 1..], id))
  {
    RecorridoDesde(s, celdas, pasos, id, i);
    PegarAnexo(reportes, paso.reportes, Recorrido(paso.estado, celdas[i + 1..], pasos[i + 1..], id));
  }

  /** The cells of the readings among a list of reports, in order. */
  function CeldasReportadas(rs: seq<Reporte>): seq<Celda> {
    if rs == [] then []
    else (if rs[0].DatosEnviados? then [(rs[0].datos.x, rs[0].datos.y)] else []) + CeldasReportadas(rs[1..])
  }

  lemma {:induction false} CeldasReportadasAnexo(a: seq<Reporte>, b: seq<Reporte>)
    ensures CeldasReportadas(a + b) == CeldasReportadas(a) + CeldasReportadas(b)
  {
    if a == [] {
      assert a + b == b;
    } else {
      var h := if a[0].DatosEnviados? then [(a[0].datos.x, a[0].datos.y)] else [];
      assert (a + b)[0] == a[0];
      assert (a + b)[1..] == a[1..] + b;
      assert CeldasReportadas(a + b) == h + CeldasReportadas(a[1..] + b);
      CeldasReportadasAnexo(a[1..], b);
      assert CeldasReportadas(a) == h + CeldasReportadas(a[1..]);
      assert h + (CeldasReportadas(a[1..]) + CeldasReportadas(b)) == (h + CeldasReportadas(a[1..])) + CeldasReportadas(b);
    }
  }

  /** One pass reports on its own cell or on none. */
  lemma ReportesDeIteracion(s: Fis, celda: Celda, p: Paso, id: int)
    ensures var t := Iteracion(s, celda, p, id);
      CeldasReportadas(t.reportes) == (if t.reportes == [] then [] else [celda])
      && (t.salida == Sigue ==> t.reportes != [])
  {
    var rs := Iteracion(s, celda, p, id).reportes;
    if |rs| == 2 {
      assert rs[1..][1..] == [];
      assert CeldasReportadas(rs[1..]) == [];
    } else if |rs| == 1 {
      assert rs[1..] == [];
    }
  }

  /** The cells reported on are a prefix of the assigned cells, in the same order. */
  lemma {:induction false} PrefijoVisitado(s: Fis, celdas: seq<Celda>, pasos: seq<Paso>, id: int)
    requires |pasos| == |celdas|
    ensures var vistas := CeldasReportadas(Recorrido(s, celdas, pasos, id).reportes);
      |vistas| <= |celdas| && vistas == celdas[..|vistas|]
    decreases |celdas|
  {
    if celdas != [] {
      var t := Iteracion(s, celdas[0], pasos[0], id);
      ReportesDeIteracion(s, celdas[0], pasos[0], id);
      if t.salida == Sigue {
        var r := Recorrido(t.estado, celdas[1..], pasos[1..], id);
        assert Recorrido(s, celdas, pasos, id).reportes == t.reportes + r.reportes;
        PrefijoVisitado(t.estado, celdas[1..], pasos[1..], id);
        CeldasReportadasAnexo(t.reportes, r.reportes);
        var v := CeldasReportadas(r.reportes);
        PrefijoCola(celdas, v);
      }
    }
  }

  /** An inactive harvester does nothing more. */
  lemma Inactivo(s: Fis, celdas: seq<Celda>, pasos: seq<Paso>, id: int)
    requires |pasos| == |celdas| && !s.activo
    ensures Recorrido(s, celdas, pasos, id) == Tramo(s, [], Rompe)
  {
  }

  /**
   * Once a checkpoint has seen the abort flag, no later cell is moved to or
   * processed: the run ends with what that cell produced.
   */
  lemma {:induction false} TrasAbortoNada(s: Fis, celdas: seq<Celda>, pasos: seq<Paso>, id: int)
    requires |pasos| == |celdas| > 0
    requires !Iteracion(s, celdas[0], pasos[0], id).estado.activo
    ensures var t := Iteracion(s, celdas[0], pasos[0], id);
      Recorrido(s, celdas, pasos, id).reportes == t.reportes
      && Recorrido(s, celdas, pasos, id).estado == t.estado
  {
    var t := Iteracion(s, celdas[0], pasos[0], id);
    if t.salida == Sigue {
      Inactivo(t.estado, celdas[1..], pasos[1..], id);
      assert t.reportes + [] == t.reportes;
    }
  }

  /** An abort seen before setting off sends the harvester home with nothing reported. */
  lemma AbortoAlSalir(s: Fis, celdas: seq<Celda>, pasos: seq<Paso>, id: int)
    requires |pasos| == |celdas| > 0 && s.activo && pasos[0].abortaAlSalir
    ensures Recorrido(s, celdas, pasos, id) == Tramo(Abortado(s), [], Rompe)
  {
  }

  /**
   * The load is below 20 at the head of every pass: a normal pass ends
   * below 20, so the whole run does unless a callback raised.
   */
  lemma {:induction false} CargaAcotada(s: Fis, celdas: seq<Celda>, pasos: seq<Paso>, id: int)
    requires |pasos| == |celdas| && s.frutosCargados < CARGA_DESCARGA
    ensures var t := Recorrido(s, celdas, pasos, id);
      t.salida == Rompe ==> t.estado.frutosCargados < CARGA_DESCARGA
    decreases |celdas|
  {
    if celdas != [] {
      var t := Iteracion(s, celdas[0], pasos[0], id);
      assert t.salida == Sigue ==> t.estado.frutosCargados < CARGA_DESCARGA;
      if t.salida == Sigue {
        CargaAcotada(t.estado, celdas[1..], pasos[1..], id);
      }
    }
  }

  /** The battery never rises. */
  lemma {:induction false} BateriaNoSube(s: Fis, celdas: seq<Celda>, pasos: seq<Paso>, id: int)
    requires |pasos| == |celdas|
    ensures Recorrido(s, celdas, pasos, id).estado.bateria <= s.bateria
    decreases |celdas|
  {
    if celdas != [] {
      var t := Iteracion(s, celdas[0], pasos[0], id);
      if t.salida == Sigue {
        BateriaNoSube(t.estado, celdas[1..], pasos[1..], id);
      }
    }
  }

  /**
   * Every harvest report follows, immediately, the reading it harvested, and
   * carries its fruit count; for that reading the coordinator's own rule
   * also says "ready".
   */
  predicate CosechasCoherentes(rs: seq<Reporte>) {
    forall k | 0 <= k < |rs| && rs[k].CosechaReportada? ::
      k > 0 && rs[k - 1].DatosEnviados?
      && rs[k].cantidad == rs[k - 1].datos.frutosDisponibles
      && Coordinador.ListoCosecha(rs[k - 1].datos)
  }

  lemma {:induction false} CosechaImplicaListo(s: Fis, celdas: seq<Celda>, pasos: seq<Paso>, id: int)
    requires |pasos| == |celdas|
    ensures CosechasCoherentes(Recorrido(s, celdas, pasos, id).reportes)
    decreases |celdas|
  {
    if celdas != [] {
      var t := Iteracion(s, celdas[0], pasos[0], id);
      assert CosechasCoherentes(t.reportes);
      if t.salida == Sigue {
        var resto := Recorrido(t.estado, celdas[1..], pasos[1..], id).reportes;
        CosechaImplicaListo(t.estado, celdas[1..], pasos[1..], id);
        assert t.reportes == [] || t.reportes[0].DatosEnviados?;
        var rs := t.reportes + resto;
        forall k | 0 <= k < |rs| && rs[k].CosechaReportada?
          ensures k > 0 && rs[k - 1].DatosEnviados?
            && rs[k].cantidad == rs[k - 1].datos.frutosDisponibles
            && Coordinador.ListoCosecha(rs[k - 1].datos)
        {
          if k >= |t.reportes| {
            var j := k - |t.reportes|;
            assert rs[k] == resto[j];
            assert j > 0;
            assert rs[k - 1] == resto[j - 1];
          }
        }
      }
    }
  }

  /**
   * The converse fails at the threshold: a pest level of exactly 8 is no
   * worm for the coordinator, which marks the cell ready, while the
   * harvester's own rule declines to harvest it.
   */
  lemma UmbralDistinto()
    ensures var l := Lectura(8.0, 9.0, 3);
      Coordinador.ListoCosecha(DatosDe(1, (0, 0), l)) && !CosechaAutonoma(l)
  {
  }

  class AgenteFisico {
    const agenteId: int
    var celdasAsignadas: seq<Celda>
    var posicionActual: Celda
    var bateria: real
    var frutosCargados: int
    var activo: bool

    function Estado(): Fis
      reads this
    {
      Fis(posicionActual, bateria, frutosCargados, activo)
    }

    constructor (id: int)
      ensures agenteId == id && celdasAsignadas == []
      ensures posicionActual == BASE && bateria == BATERIA_INICIAL && frutosCargados == 0 && activo
    {
      agenteId := id;
      celdasAsignadas := [];
      posicionActual := BASE;
      bateria := BATERIA_INICIAL;
      frutosCargados := 0;
      activo := true;
    }

    method AsignarCeldas(celdas: seq<Celda>)
      modifies this`celdasAsignadas
      ensures celdasAsignadas == celdas
    {
      celdasAsignadas := celdas;
    }

    /** A checkpoint: `false` (and home, inactive) when the abort flag is set; otherwise nothing changes. */
    method VerificarOrdenesCapataz(abortar: bool) returns (sigue: bool)
      modifies this`posicionActual, this`activo
      ensures sigue == !abortar
      ensures abortar ==> posicionActual == BASE && !activo
      ensures !abortar ==> posicionActual == old(posicionActual) && activo == old(activo)
    {
      if abortar {
        posicionActual := BASE;
        activo := false;
        return false;
      }
      return true;
    }

    method MoverA(celda: Celda)
      modifies this`posicionActual, this`bateria
      ensures posicionActual == celda
      ensures bateria == old(bateria) - COSTE_PASO * Manhattan(celda, old(posicionActual)) as real
    {
      var dist := Abs(celda.0 - posicionActual.0) + Abs(celda.1 - posicionActual.1);
      posicionActual := celda;
      bateria := bateria - COSTE_PASO * dist as real;
    }

    /** The harvest: a checkpoint, then the load grows and the amount is reported. */
    method Cosechar(cantidad: int, abortar: bool, falla: bool) returns (reportes: seq<Reporte>, lanza: bool)
      modifies this`posicionActual, this`activo, this`frutosCargados
      ensures abortar ==> Estado() == Abortado(old(Estado())) && reportes == [] && !lanza
      ensures !abortar ==>
        Estado() == old(Estado()).(frutosCargados := old(frutosCargados) + cantidad)
        && reportes == [CosechaReportada(cantidad)] && lanza == falla
    {
      var sigue := VerificarOrdenesCapataz(abortar);
      if !sigue {
        return [], false;
      }
      frutosCargados := frutosCargados + cantidad;
      reportes := [CosechaReportada(cantidad)];
      lanza := falla;
    }

    /** Sends the reading, then harvests if the local rule allows it. */
    method ProcesarCelda(celda: Celda, p: Paso) returns (reportes: seq<Reporte>, lanza: bool)
      modifies this`posicionActual, this`activo, this`frutosCargados
      ensures var datos := [DatosEnviados(DatosDe(agenteId, celda, p.lectura))];
        if p.falloDatos then Estado() == old(Estado()) && reportes == datos && lanza
        else if !CosechaAutonoma(p.lectura) then Estado() == old(Estado()) && reportes == datos && !lanza
        else if p.abortaAlCosechar then Estado() == Abortado(old(Estado())) && reportes == datos && !lanza
        else (Estado() == old(Estado()).(frutosCargados := old(frutosCargados) + p.lectura.frutos)
              && reportes == datos + [CosechaReportada(p.lectura.frutos)] && lanza == p.falloCosecha)
    {
      reportes := [DatosEnviados(DatosDe(agenteId, celda, p.lectura))];
      if p.falloDatos {
        return reportes, true;
      }
      lanza := false;
      var l := p.lectura;
      if l.plagas < UMBRAL_PLAGA && l.frutos > 0 && l.maduracion > MADURACION_COSECHA {
        var mas;
        mas, lanza := Cosechar(l.frutos, p.abortaAlCosechar, p.falloCosecha);
        reportes := reportes + mas;
      }
    }

    method IrABaseDescargar()
      modifies this`frutosCargados
      ensures frutosCargados == 0
    {
      frutosCargados := 0;
    }

    /** One pass of the loop of `iniciar_trabajo`. */
    method Iterar(celda: Celda, p: Paso) returns (reportes: seq<Reporte>, salida: Salida)
      modifies this`posicionActual, this`bateria, this`activo, this`frutosCargados
      ensures Tramo(Estado(), reportes, salida) == Iteracion(old(Estado()), celda, p, agenteId)
    {
      reportes := [];
      if !activo {
        return [], Rompe;
      }
      var sigue := VerificarOrdenesCapataz(p.abortaAlSalir);
      if !sigue {
        return [], Rompe;
      }
      MoverA(celda);
      sigue := VerificarOrdenesCapataz(p.abortaAlLlegar);
      if !sigue {
        return [], Rompe;
      }
      var lanza;
      reportes, lanza := ProcesarCelda(celda, p);
      if lanza {
        return reportes, Lanza;
      }
      if frutosCargados >= CARGA_DESCARGA {
        IrABaseDescargar();
      }
      salida := Sigue;
    }

    /**
     * Walks the assigned cells with one environment step per cell. The
     * result is the reports sent and whether a callback raised.
     */
    method IniciarTrabajo(pasos: seq<Paso>) returns (reportes: seq<Reporte>, lanza: bool)
      requires |pasos| == |celdasAsignadas|
      modifies this`posicionActual, this`bateria, this`activo, this`frutosCargados
      ensures var t := Recorrido(old(Estado()), celdasAsignadas, pasos, agenteId);
        Estado() == t.estado && reportes == t.reportes && lanza == (t.salida == Lanza)
    {
      var celdas := celdasAsignadas;
      ghost var total := Recorrido(Estado(), celdas, pasos, agenteId);
      reportes := [];
      lanza := false;
      var i := 0;
      assert celdas[0..] == celdas && pasos[0..] == pasos;
      while i < |celdas|
        invariant 0 <= i <= |celdas|
        invariant total == Pegar(reportes, Recorrido(Estado(), celdas[i..], pasos[i..], agenteId))
      {
        ghost var antes := Estado();
        var mas, salida := Iterar(celdas[i], pasos[i]);
        RecorridoAvance(total, reportes, antes, celdas, pasos, agenteId, i, Tramo(Estado(), mas, salida));
        reportes := reportes + mas;
        if salida == Lanza {
          return reportes, true;
        }
        if salida == Rompe {
          return;
        }
        i := i + 1;
      }
      assert reportes + [] == reportes;
    }
  }
}
