/**
 * The Unity on-screen monitor (`UIController`): its counters, the bounded
 * history of actions, and the colour of the alert panel.
 */
module ControlUi {
  import opened Util
  import Planta
  import Mision
  import Dron

  const MENSAJE_PLAGA: string := "\U{1F41B} Plaga detectada"
  /** The inspector default of `maxLineasHistorial`. */
  const MAX_LINEAS_HISTORIAL: int := 10

  datatype ColorTexto = Rojo | Amarillo | Verde | Blanco

  /** The alert panel's colour: the first keyword group the message contains decides. */
  function ColorAlerta(mensaje: string): (c: ColorTexto)
    ensures c == Rojo <==> Contiene(mensaje, "plaga") || Contiene(mensaje, "\U{1F41B}")
    ensures c == Amarillo <==> (!(Contiene(mensaje, "plaga") || Contiene(mensaje, "\U{1F41B}"))
                                && (Contiene(mensaje, "cosechar") || Contiene(mensaje, "\U{1F33E}")))
    ensures c == Verde <==> (!(Contiene(mensaje, "plaga") || Contiene(mensaje, "\U{1F41B}"))
                             && !(Contiene(mensaje, "cosechar") || Contiene(mensaje, "\U{1F33E}"))
                             && (Contiene(mensaje, "verde") || Contiene(mensaje, "\U{1F96C}")))
  {
    if Contiene(mensaje, "plaga") || Contiene(mensaje, "\U{1F41B}") then Rojo
    else if Contiene(mensaje, "cosechar") || Contiene(mensaje, "\U{1F33E}") then Amarillo
    else if Contiene(mensaje, "verde") || Contiene(mensaje, "\U{1F96C}") then Verde
    else Blanco
  }

  /** The plague alerts come out red. */
  lemma AlertaPlagaRoja()
    ensures ColorAlerta(Mision.ALERTA_PLAGA) == Rojo
    ensures ColorAlerta(MENSAJE_PLAGA) == Rojo
  {
    Testigo(MENSAJE_PLAGA, "\U{1F41B}", 0);
    Testigo(Mision.ALERTA_PLAGA, "\U{1F41B}", 0);
  }

  /** The mission manager's harvest alert comes out yellow. */
  lemma AlertaCosechaAmarilla()
    ensures ColorAlerta(Mision.ALERTA_COSECHA) == Amarillo
  {
    FaltaCaracter(Mision.ALERTA_COSECHA, "plaga", 'g');
    FaltaCaracter(Mision.ALERTA_COSECHA, "\U{1F41B}", '\U{1F41B}');
    Testigo(Mision.ALERTA_COSECHA, "\U{1F33E}", 0);
  }

  /** The mission manager's unripe alert comes out green. */
  lemma AlertaVerdeVerde()
    ensures ColorAlerta(Mision.ALERTA_VERDE) == Verde
  {
    FaltaCaracter(Mision.ALERTA_VERDE, "plaga", 'g');
    FaltaCaracter(Mision.ALERTA_VERDE, "\U{1F41B}", '\U{1F41B}');
    FaltaCaracter(Mision.ALERTA_VERDE, "cosechar", 'c');
    FaltaCaracter(Mision.ALERTA_VERDE, "\U{1F33E}", '\U{1F33E}');
    Testigo(Mision.ALERTA_VERDE, "\U{1F96C}", 0);
  }

  /** Of the drone's three actions, only the harvest counts as one. */
  lemma SoloCosechandoCuenta()
    ensures Contiene(Dron.COSECHANDO, "Cosechando")
    ensures !Contiene(Dron.PESTICIDA, "Cosechando")
    ensures !Contiene(Dron.NO_COSECHAR, "Cosechando")
  {
    Testigo(Dron.COSECHANDO, "Cosechando", 0);
    FaltaCaracter(Dron.PESTICIDA, "Cosechando", 'C');
    FaltaCaracter(Dron.NO_COSECHAR, "Cosechando", 'C');
  }

  /** The queue after one enqueue and at most one dequeue. */
  function Agregar(historial: seq<string>, linea: string, max: int): seq<string> {
    var h := historial + [linea];
    if |h| > max then h[1..] else h
  }

  /** From a history within bounds, one step keeps the `max` most recent lines, oldest first. */
  lemma AgregarEsUltimos(historial: seq<string>, linea: string, max: nat)
    requires |historial| <= max
    ensures Agregar(historial, linea, max) == Ultimos(historial + [linea], max)
    ensures |Agregar(historial, linea, max)| <= max
    ensures max > 0 ==> Agregar(historial, linea, max)[|Agregar(historial, linea, max)| - 1] == linea
  {
  }

  /** The history after adding `lineas` one by one. */
  function AgregarTodas(historial: seq<string>, lineas: seq<string>, max: int): seq<string> {
    if lineas == [] then historial
    else Agregar(AgregarTodas(historial, lineas[..|lineas| - 1], max), lineas[|lineas| - 1], max)
  }

  /** Starting within bounds, the history is always the most recent `max` lines in arrival order. */
  lemma {:induction false} HistorialFifo(historial: seq<string>, lineas: seq<string>, max: nat)
    requires |historial| <= max
    ensures AgregarTodas(historial, lineas, max) == Ultimos(historial + lineas, max)
    decreases |lineas|
  {
    if lineas == [] {
      assert historial + lineas == historial;
    } else {
      var previas := lineas[..|lineas| - 1];
      var x := lineas[|lineas| - 1];
      var hp := historial + previas;
      var a := AgregarTodas(historial, previas, max);
      assert AgregarTodas(historial, lineas, max) == Agregar(a, x, max);
      HistorialFifo(historial, previas, max);
      AgregarEsUltimos(a, x, max);
      UltimosAnexo(hp, x, max);
      assert historial + lineas == hp + [x];
    }
  }

  /** A timestamped history line. */
  function Linea(hora: string, mensaje: string): string {
    "[" + hora + "] " + mensaje
  }

  function MensajeAlerta(idDron: int, mensajeAlerta: string, nombrePlanta: string): string {
    "[ALERTA] Dron " + Decimal(idDron) + ": " + mensajeAlerta + " \U{2192} " + nombrePlanta
  }

  function MensajeAccion(idDron: int, accion: string, nombrePlanta: string): string {
    "[DRON " + Decimal(idDron) + "] " + accion + ": " + nombrePlanta
  }

  /** The monitor's bookkeeping. */
  datatype EstadoUi = EstadoUi(
    totalAlertas: int,
    totalAnalizadas: int,
    totalCosechadas: int,
    historial: seq<string>,
    colorAlertas: Option<ColorTexto>)

  /** The state after the three-argument `RegistrarAlerta`; the colour is set only when the alert text exists. */
  function TrasAlerta(e: EstadoUi, conTextoAlertas: bool, max: int, hora: string, idDron: int, mensajeAlerta: string,
                      nombrePlanta: string): EstadoUi
  {
    e.(totalAlertas := e.totalAlertas + 1,
       colorAlertas := if conTextoAlertas then Some(ColorAlerta(mensajeAlerta)) else e.colorAlertas,
       historial := Agregar(e.historial, Linea(hora, MensajeAlerta(idDron, mensajeAlerta, nombrePlanta)), max))
  }

  /** The state after `RegistrarAccion`. */
  function TrasAccion(e: EstadoUi, max: int, hora: string, idDron: int, accion: string, nombrePlanta: string): EstadoUi {
    e.(historial := Agregar(e.historial, Linea(hora, MensajeAccion(idDron, accion, nombrePlanta)), max),
       totalCosechadas := e.totalCosechadas + (if Contiene(accion, "Cosechando") then 1 else 0))
  }

  /** An alert counts once and logs exactly its own line as the newest entry. */
  lemma AlertaCuentaYRegistra(e: EstadoUi, conTextoAlertas: bool, max: nat, hora: string, idDron: int,
                              mensajeAlerta: string, nombrePlanta: string)
    requires |e.historial| <= max
    ensures var r := TrasAlerta(e, conTextoAlertas, max, hora, idDron, mensajeAlerta, nombrePlanta);
      r.totalAlertas == e.totalAlertas + 1 && r.totalAnalizadas == e.totalAnalizadas
      && r.totalCosechadas == e.totalCosechadas
      && r.historial == Ultimos(e.historial + [Linea(hora, MensajeAlerta(idDron, mensajeAlerta, nombrePlanta))], max)
  {
    AgregarEsUltimos(e.historial, Linea(hora, MensajeAlerta(idDron, mensajeAlerta, nombrePlanta)), max);
  }

  /** A drone's harvest action raises the harvest count; its other actions only log. */
  lemma AccionesDelDron(e: EstadoUi, max: int, hora: string, idDron: int, nombrePlanta: string)
    ensures TrasAccion(e, max, hora, idDron, Dron.COSECHANDO, nombrePlanta).totalCosechadas == e.totalCosechadas + 1
    ensures TrasAccion(e, max, hora, idDron, Dron.PESTICIDA, nombrePlanta).totalCosechadas == e.totalCosechadas
    ensures TrasAccion(e, max, hora, idDron, Dron.NO_COSECHAR, nombrePlanta).totalCosechadas == e.totalCosechadas
  {
    SoloCosechandoCuenta();
  }

  class UIController {
    const maxLineasHistorial: int
    /** Whether the alert text element is assigned (`textoAlertas != null`). */
    const conTextoAlertas: bool
    var totalAlertas: int
    var totalAnalizadas: int
    var totalCosechadas: int
    var historialAcciones: seq<string>
    /** The alert text's colour once the code has set it. */
    var colorAlertas: Option<ColorTexto>

    function Estado(): EstadoUi
      reads this
    {
      EstadoUi(totalAlertas, totalAnalizadas, totalCosechadas, historialAcciones, colorAlertas)
    }

    /** The history never exceeds its limit (none at all for a negative limit). */
    predicate Valid()
      reads this
    {
      |historialAcciones| <= Max(maxLineasHistorial, 0)
    }

    constructor (conTextoAlertas: bool, maxLineasHistorial: int := MAX_LINEAS_HISTORIAL)
      ensures Valid()
      ensures this.maxLineasHistorial == maxLineasHistorial && this.conTextoAlertas == conTextoAlertas
      ensures Estado() == EstadoUi(0, 0, 0, [], None)
    {
      this.maxLineasHistorial := maxLineasHistorial;
      this.conTextoAlertas := conTextoAlertas;
      totalAlertas := 0;
      totalAnalizadas := 0;
      totalCosechadas := 0;
      historialAcciones := [];
      colorAlertas := None;
    }

    method MostrarAnalisis(planta: Planta.PlantaData, idDron: int)
      modifies this`totalAnalizadas
      ensures Estado() == old(Estado()).(totalAnalizadas := old(totalAnalizadas) + 1)
    {
      totalAnalizadas := totalAnalizadas + 1;
    }

    /** The two-argument overload: the three-argument one with the plague message. */
    method RegistrarAlertaPlaga(planta: Planta.PlantaData, idDron: int, hora: string)
      requires Valid()
      modifies this`totalAlertas, this`colorAlertas, this`historialAcciones
      ensures Valid()
      ensures Estado() == TrasAlerta(old(Estado()), conTextoAlertas, maxLineasHistorial, hora, idDron, MENSAJE_PLAGA,
                                     planta.nombreComun)
    {
      RegistrarAlerta(planta, idDron, MENSAJE_PLAGA, hora);
    }

    method RegistrarAlerta(planta: Planta.PlantaData, idDron: int, mensajeAlerta: string, hora: string)
      requires Valid()
      modifies this`totalAlertas, this`colorAlertas, this`historialAcciones
      ensures Valid()
      ensures Estado() == TrasAlerta(old(Estado()), conTextoAlertas, maxLineasHistorial, hora, idDron, mensajeAlerta,
                                     planta.nombreComun)
    {
      totalAlertas := totalAlertas + 1;
      if conTextoAlertas {
        var color: ColorTexto;
        if Contiene(mensajeAlerta, "plaga") || Contiene(mensajeAlerta, "\U{1F41B}") {
          color := Rojo;
        } else if Contiene(mensajeAlerta, "cosechar") || Contiene(mensajeAlerta, "\U{1F33E}") {
          color := Amarillo;
        } else if Contiene(mensajeAlerta, "verde") || Contiene(mensajeAlerta, "\U{1F96C}") {
          color := Verde;
        } else {
          color := Blanco;
        }
        colorAlertas := Some(color);
      }
      AgregarHistorial(MensajeAlerta(idDron, mensajeAlerta, planta.nombreComun), hora);
    }

    method RegistrarAccion(accion: string, planta: Planta.PlantaData, idDron: int, hora: string)
      requires Valid()
      modifies this`totalCosechadas, this`historialAcciones
      ensures Valid()
      ensures Estado() == TrasAccion(old(Estado()), maxLineasHistorial, hora, idDron, accion, planta.nombreComun)
    {
      AgregarHistorial(MensajeAccion(idDron, accion, planta.nombreComun), hora);
      if Contiene(accion, "Cosechando") {
        totalCosechadas := totalCosechadas + 1;
      }
    }

    /** Enqueues a timestamped line and drops the oldest one when over the limit. */
    method AgregarHistorial(mensaje: string, hora: string)
      requires Valid()
      modifies this`historialAcciones
      ensures Valid()
      ensures historialAcciones == Agregar(old(historialAcciones), Linea(hora, mensaje), maxLineasHistorial)
    {
      historialAcciones := historialAcciones + [Linea(hora, mensaje)];
      if |historialAcciones| > maxLineasHistorial {
        historialAcciones := historialAcciones[1..];
      }
    }
  }
}
