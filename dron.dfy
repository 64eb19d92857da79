/**
 * A Unity drone: it flies its route of plants in order, analyses each one
 * (plague check, maturity), treats and harvests it, and reports to the
 * mission manager. Flight is abstracted to an "arrived" flag per frame; the
 * analysis coroutine is taken to run to completion within the frame that
 * starts it. The calls the drone makes into the mission manager are
 * returned as a list of `Aviso`s, in order.
 */
module Dron {
  import opened Util
  import opened Planta

  /** A call from the drone into the mission manager. */
  datatype Aviso =
    | AvisoAlerta(planta: PlantaData)
    | AvisoAnalisis(planta: PlantaData)
    | AvisoAccion(accion: string, planta: PlantaData)
    | AvisoMisionCompleta(idDron: int, analizadas: int, plagas: int, cosechadas: int)

  const NOMBRES_SURCOS: seq<string> := ["Surco1", "Surco2", "Surco3", "Surco4"]
  const NIVEL_MADUREZ_COSECHA: real := 8.0
  const MUY_VERDE_UMBRAL: real := 5.0
  const LISTA: string := "Lista para cosechar"
  const EN_PROCESO: string := "En proceso"
  const MUY_VERDE: string := "Muy verde"
  const PESTICIDA: string := "Aplicando pesticida"
  const COSECHANDO: string := "Cosechando"
  const NO_COSECHAR: string := "Muy verde — no cosechar"

  /** The row a drone is given: a valid index exactly for a non-negative id. */
  lemma SurcoDeId(id: int)
    ensures id >= 0 ==> RestoTruncado(id, |NOMBRES_SURCOS|) == id % 4
    ensures 0 <= RestoTruncado(id, |NOMBRES_SURCOS|) < |NOMBRES_SURCOS| <==> id >= 0 || id % 4 == 0
  {
  }

  /** The maturity buckets: no gaps, no overlaps. */
  function ObtenerEstadoMadurez(nivel: real): (r: string)
    ensures r == LISTA <==> nivel >= 8.0
    ensures r == EN_PROCESO <==> 5.0 <= nivel < 8.0
    ensures r == MUY_VERDE <==> nivel < 5.0
  {
    if nivel >= 8.0 then LISTA
    else if nivel >= 5.0 then EN_PROCESO
    else MUY_VERDE
  }

  /** The actions after an analysis: pesticide for a plague, then harvest or the "too green" note. */
  function AccionesPara(plaga: bool, maduracion: real, umbral: real): (r: seq<string>)
    ensures PESTICIDA in r <==> plaga
    ensures COSECHANDO in r <==> maduracion >= umbral
    ensures NO_COSECHAR in r <==> maduracion < umbral && maduracion < MUY_VERDE_UMBRAL
    ensures !(COSECHANDO in r && NO_COSECHAR in r)
    ensures plaga ==> r[0] == PESTICIDA
  {
    (if plaga then [PESTICIDA] else [])
    + (if maduracion >= umbral then [COSECHANDO]
       else if maduracion < MUY_VERDE_UMBRAL then [NO_COSECHAR]
       else [])
  }

  function ComoAvisos(acciones: seq<string>, planta: PlantaData): (r: seq<Aviso>)
    ensures |r| == |acciones|
    ensures forall k | 0 <= k < |r| :: r[k] == AvisoAccion(acciones[k], planta)
  {
    if acciones == [] then [] else [AvisoAccion(acciones[0], planta)] + ComoAvisos(acciones[1..], planta)
  }

  /** What a full analysis tells the manager, in order. */
  function AvisosAnalisis(planta: PlantaData, plaga: bool, maduracion: real, umbral: real): (r: seq<Aviso>)
    ensures |r| >= if plaga then 2 else 1
    ensures plaga ==> r[0] == AvisoAlerta(planta) && r[1] == AvisoAnalisis(planta)
    ensures !plaga ==> r[0] == AvisoAnalisis(planta)
    ensures AvisoAlerta(planta) in r <==> plaga
  {
    (if plaga then [AvisoAlerta(planta)] else []) + [AvisoAnalisis(planta)]
    + ComoAvisos(AccionesPara(plaga, maduracion, umbral), planta)
  }

  class AgenteFisico {
    const nivelMadurezCosecha: real
    var ruta: seq<PlantaData>
    var indiceActual: int
    var idDron: int
    var rutaActiva: bool
    var analizando: bool
    var surcoAsignado: string
    var plantasAnalizadas: int
    var plagasDetectadas: int
    var plantasCosechadas: int
    /** The analyses counted before the current route was assigned. */
    ghost var analizadasAntes: int

    /**
     * The counters agree: each analysis of the current route advanced the
     * index once, and plagues and harvests are counted among analyses.
     */
    ghost predicate Valid()
      reads this
    {
      0 <= indiceActual
      && plantasAnalizadas == analizadasAntes + indiceActual
      && 0 <= plagasDetectadas <= plantasAnalizadas
      && 0 <= plantasCosechadas <= plantasAnalizadas
      && 0 <= analizadasAntes
    }

    constructor (nivelMadurezCosecha: real)
      ensures Valid()
      ensures this.nivelMadurezCosecha == nivelMadurezCosecha
      ensures ruta == [] && indiceActual == 0 && idDron == 0 && !rutaActiva && !analizando && surcoAsignado == ""
      ensures plantasAnalizadas == 0 && plagasDetectadas == 0 && plantasCosechadas == 0
    {
      this.nivelMadurezCosecha := nivelMadurezCosecha;
      ruta := [];
      indiceActual := 0;
      idDron := 0;
      rutaActiva := false;
      analizando := false;
      surcoAsignado := "";
      plantasAnalizadas := 0;
      plagasDetectadas := 0;
      plantasCosechadas := 0;
      analizadasAntes := 0;
    }

    /**
     * Takes a route and an id. A negative id not divisible by 4 indexes the
     * row names out of range: the call then fails after the route and id
     * are stored, and the rest is left as it was.
     */
    method AsignarRuta(plantas: seq<PlantaData>, id: int) returns (ok: bool)
      requires Valid()
      modifies this
      ensures Valid()
      ensures ruta == plantas && idDron == id
      ensures ok <==> id >= 0 || id % 4 == 0
      ensures ok ==> surcoAsignado == NOMBRES_SURCOS[RestoTruncado(id, 4)] && rutaActiva && indiceActual == 0
      ensures ok ==> plantasAnalizadas == old(plantasAnalizadas)
      ensures !ok ==> (surcoAsignado == old(surcoAsignado) && rutaActiva == old(rutaActiva)
                       && indiceActual == old(indiceActual) && analizadasAntes == old(analizadasAntes))
      ensures analizando == old(analizando)
      ensures plantasAnalizadas == old(plantasAnalizadas) && plagasDetectadas == old(plagasDetectadas)
      ensures plantasCosechadas == old(plantasCosechadas)
    {
      ruta := plantas;
      idDron := id;
      var k := RestoTruncado(id, |NOMBRES_SURCOS|);
      if k < 0 {
        return false;
      }
      surcoAsignado := NOMBRES_SURCOS[k];
      rutaActiva := true;
      indiceActual := 0;
      analizadasAntes := plantasAnalizadas;
      ok := true;
    }

    /** Pesticide for a plague, then harvest or the "too green" note. */
    method EjecutarAccionesPostAnalisis(planta: PlantaData) returns (avisos: seq<Aviso>)
      modifies planta`tienePlaga, planta`colorPintado, this`plantasCosechadas
      ensures avisos == ComoAvisos(AccionesPara(old(planta.tienePlaga), planta.nivelMaduracion, nivelMadurezCosecha), planta)
      ensures planta.Estado() == if old(planta.tienePlaga)
        then Marcar(old(planta.Estado()), false, planta.conRenderer, planta.colorSano, planta.colorEnfermo)
        else old(planta.Estado())
      ensures plantasCosechadas == old(plantasCosechadas) + if planta.nivelMaduracion >= nivelMadurezCosecha then 1 else 0
    {
      var acciones: seq<string> := [];
      if planta.tienePlaga {
        acciones := [PESTICIDA];
        planta.MarcarComoSana();
      }
      if planta.nivelMaduracion >= nivelMadurezCosecha {
        acciones := acciones + [COSECHANDO];
        plantasCosechadas := plantasCosechadas + 1;
      } else if planta.nivelMaduracion < MUY_VERDE_UMBRAL {
        acciones := acciones + [NO_COSECHAR];
      }
      avisos := ComoAvisos(acciones, planta);
    }

    /**
     * The full analysis of the plant at the current index: a plague is
     * counted and the plant marked sick, then treated and marked sane; the
     * plant ends analysed; index and analysis count advance by one.
     */
    method AnalizarPlantaCompleta(planta: PlantaData) returns (avisos: seq<Aviso>)
      requires Valid()
      modifies this`analizando, this`plagasDetectadas, this`plantasCosechadas, this`plantasAnalizadas,
               this`indiceActual, planta
      ensures Valid()
      ensures avisos == AvisosAnalisis(planta, old(planta.tienePlaga), planta.nivelMaduracion, nivelMadurezCosecha)
      ensures planta.Estado()
           == Marcar(old(planta.Estado()), false, planta.conRenderer, planta.colorSano, planta.colorEnfermo)
                .(yaAnalizada := true)
      ensures planta.colorSano == old(planta.colorSano) && planta.colorEnfermo == old(planta.colorEnfermo)
      ensures planta.conRenderer == old(planta.conRenderer)
      ensures indiceActual == old(indiceActual) + 1 && plantasAnalizadas == old(plantasAnalizadas) + 1
      ensures plagasDetectadas == old(plagasDetectadas) + if old(planta.tienePlaga) then 1 else 0
      ensures plantasCosechadas == old(plantasCosechadas) + if planta.nivelMaduracion >= nivelMadurezCosecha then 1 else 0
      ensures !analizando
    {
      analizando := true;
      var antes := planta.Estado();
      var plaga := planta.tienePlaga;
      assert antes == old(planta.Estado()) && plaga == old(planta.tienePlaga);
      var primeros: seq<Aviso>;
      if plaga {
        plagasDetectadas := plagasDetectadas + 1;
        planta.MarcarComoEnferma();
        primeros := [AvisoAlerta(planta)];
      } else {
        planta.MarcarComoSana();
        primeros := [];
      }
      primeros := primeros + [AvisoAnalisis(planta)];
      var acciones := EjecutarAccionesPostAnalisis(planta);
      UltimaMarcaGana(antes, true, false, planta.conRenderer, planta.colorSano, planta.colorEnfermo);
      MarcarIdempotente(antes, false, planta.conRenderer, planta.colorSano, planta.colorEnfermo);
      avisos := primeros + acciones;
      planta.yaAnalizada := true;
      plantasAnalizadas := plantasAnalizadas + 1;
      analizando := false;
      indiceActual := indiceActual + 1;
    }

    /**
     * One frame. An inactive or empty route, or one whose analysis is still
     * running, does nothing; a finished one deactivates and reports its
     * figures once; otherwise, on arrival at the current plant, that plant
     * is analysed as `AnalizarPlantaCompleta` does, and without arrival
     * nothing changes.
     */
    method Update(llegado: bool) returns (avisos: seq<Aviso>)
      requires Valid()
      modifies this, Elementos(ruta)
      ensures Valid()
      ensures ruta == old(ruta) && idDron == old(idDron) && surcoAsignado == old(surcoAsignado)
      ensures analizando == old(analizando)
      ensures !old(rutaActiva) || old(analizando) || |ruta| == 0 ==>
        avisos == [] && rutaActiva == old(rutaActiva) && indiceActual == old(indiceActual)
        && plantasAnalizadas == old(plantasAnalizadas) && plagasDetectadas == old(plagasDetectadas)
        && plantasCosechadas == old(plantasCosechadas) && unchanged(Elementos(ruta))
      ensures old(rutaActiva) && !old(analizando) && |ruta| > 0 && old(indiceActual) >= |ruta| ==>
        !rutaActiva && indiceActual == old(indiceActual)
        && plantasAnalizadas == old(plantasAnalizadas) && plagasDetectadas == old(plagasDetectadas)
        && plantasCosechadas == old(plantasCosechadas) && unchanged(Elementos(ruta))
        && avisos == [AvisoMisionCompleta(idDron, old(plantasAnalizadas), old(plagasDetectadas), old(plantasCosechadas))]
      ensures old(rutaActiva) && !old(analizando) && old(indiceActual) < |ruta| && !llegado ==>
        avisos == [] && rutaActiva && indiceActual == old(indiceActual)
        && plantasAnalizadas == old(plantasAnalizadas) && plagasDetectadas == old(plagasDetectadas)
        && plantasCosechadas == old(plantasCosechadas) && unchanged(Elementos(ruta))
      ensures old(rutaActiva) && !old(analizando) && old(indiceActual) < |ruta| && llegado ==>
        var p := ruta[old(indiceActual)];
        rutaActiva && indiceActual == old(indiceActual) + 1
        && avisos == AvisosAnalisis(p, old(p.tienePlaga), p.nivelMaduracion, nivelMadurezCosecha)
        && p.Estado() == Marcar(old(p.Estado()), false, p.conRenderer, p.colorSano, p.colorEnfermo).(yaAnalizada := true)
        && p.colorSano == old(p.colorSano) && p.colorEnfermo == old(p.colorEnfermo)
        && p.conRenderer == old(p.conRenderer)
        && plantasAnalizadas == old(plantasAnalizadas) + 1
        && plagasDetectadas == old(plagasDetectadas) + (if old(p.tienePlaga) then 1 else 0)
        && plantasCosechadas == old(plantasCosechadas) + (if p.nivelMaduracion >= nivelMadurezCosecha then 1 else 0)
        && p.yaAnalizada && !p.tienePlaga
        && unchanged(Elementos(ruta) - {p})
      ensures old(indiceActual) <= |ruta| ==> indiceActual <= |ruta|
    {
      avisos := [];
      if !rutaActiva || analizando || |ruta| == 0 {
        return;
      }
      if indiceActual >= |ruta| {
        rutaActiva := false;
        avisos := [AvisoMisionCompleta(idDron, plantasAnalizadas, plagasDetectadas, plantasCosechadas)];
        return;
      }
      if llegado {
        var objetivo := ruta[indiceActual];
        avisos := AnalizarPlantaCompleta(objetivo);
      }
    }
  }
}
