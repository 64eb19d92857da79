/** A tomato plant of the Unity greenhouse: its biological data and the plague flag a drone flips. */
module Planta {

  /** An RGBA colour with 8-bit channels (Unity's `Color32`). */
  datatype Color = Color(r: int, g: int, b: int, a: int)

  const COLOR_SANO: Color := Color(255, 4, 0, 255)
  const COLOR_ENFERMO: Color := Color(133, 111, 20, 255)
  const HUMEDAD_INICIAL: real := 65.0
  const MADURACION_INICIAL: real := 5.0

  /** The fields a plague marker may touch, and the painted colour. */
  datatype EstadoPlanta = EstadoPlanta(
    nombreComun: string,
    tienePlaga: bool,
    humedad: real,
    nivelMaduracion: real,
    yaAnalizada: bool,
    colorPintado: Color)

  /** The colour `ActualizarColor` paints. */
  function ColorPara(tienePlaga: bool, colorSano: Color, colorEnfermo: Color): (c: Color)
    ensures tienePlaga ==> c == colorEnfermo
    ensures !tienePlaga ==> c == colorSano
  {
    if tienePlaga then colorEnfermo else colorSano
  }

  /**
   * The state after setting the plague flag to `plaga` and repainting; with
   * no renderer the colour is left as it was.
   */
  function Marcar(e: EstadoPlanta, plaga: bool, conRenderer: bool, colorSano: Color, colorEnfermo: Color)
    : (r: EstadoPlanta)
    ensures r.tienePlaga == plaga
    ensures r.nombreComun == e.nombreComun && r.humedad == e.humedad
    ensures r.nivelMaduracion == e.nivelMaduracion && r.yaAnalizada == e.yaAnalizada
    ensures r.colorPintado == if conRenderer then ColorPara(plaga, colorSano, colorEnfermo) else e.colorPintado
  {
    var e2 := e.(tienePlaga := plaga);
    if conRenderer then e2.(colorPintado := ColorPara(plaga, colorSano, colorEnfermo)) else e2
  }

  /** Marking twice is marking once. */
  lemma MarcarIdempotente(e: EstadoPlanta, plaga: bool, conRenderer: bool, colorSano: Color, colorEnfermo: Color)
    ensures var once := Marcar(e, plaga, conRenderer, colorSano, colorEnfermo);
      Marcar(once, plaga, conRenderer, colorSano, colorEnfermo) == once
  {
  }

  /** The later marker wins: sick then sane is sane. */
  lemma UltimaMarcaGana(e: EstadoPlanta, p: bool, q: bool, conRenderer: bool, colorSano: Color, colorEnfermo: Color)
    ensures Marcar(Marcar(e, p, conRenderer, colorSano, colorEnfermo), q, conRenderer, colorSano, colorEnfermo)
         == Marcar(e, q, conRenderer, colorSano, colorEnfermo)
  {
  }

  /** With a renderer, the painted colour always tells the flag, as long as the two colours differ. */
  lemma ColorDelata(e: EstadoPlanta, plaga: bool, colorSano: Color, colorEnfermo: Color)
    requires colorSano != colorEnfermo
    ensures var r := Marcar(e, plaga, true, colorSano, colorEnfermo);
      (r.colorPintado == colorEnfermo <==> r.tienePlaga) && (r.colorPintado == colorSano <==> !r.tienePlaga)
  {
  }

  class PlantaData {
    var nombreComun: string
    var tienePlaga: bool
    var humedad: real
    var nivelMaduracion: real
    var yaAnalizada: bool
    var colorSano: Color
    var colorEnfermo: Color
    /** Whether the plant has a renderer (`miRenderer != null`). */
    var conRenderer: bool
    /** The renderer's material colour. */
    var colorPintado: Color

    function Estado(): EstadoPlanta
      reads this
    {
      EstadoPlanta(nombreComun, tienePlaga, humedad, nivelMaduracion, yaAnalizada, colorPintado)
    }

    /** The inspector defaults. */
    constructor (conRenderer: bool)
      ensures nombreComun == "" && !tienePlaga && humedad == HUMEDAD_INICIAL
      ensures nivelMaduracion == MADURACION_INICIAL && !yaAnalizada
      ensures colorSano == COLOR_SANO && colorEnfermo == COLOR_ENFERMO
      ensures this.conRenderer == conRenderer
    {
      nombreComun := "";
      tienePlaga := false;
      humedad := HUMEDAD_INICIAL;
      nivelMaduracion := MADURACION_INICIAL;
      yaAnalizada := false;
      colorSano := COLOR_SANO;
      colorEnfermo := COLOR_ENFERMO;
      this.conRenderer := conRenderer;
      colorPintado := Color(255, 255, 255, 255);
    }

    method ActualizarColor()
      modifies this`colorPintado
      ensures conRenderer ==> colorPintado == ColorPara(tienePlaga, colorSano, colorEnfermo)
      ensures !conRenderer ==> colorPintado == old(colorPintado)
    {
      if conRenderer {
        colorPintado := if tienePlaga then colorEnfermo else colorSano;
      }
    }

    method MarcarComoEnferma()
      modifies this`tienePlaga, this`colorPintado
      ensures Estado() == Marcar(old(Estado()), true, conRenderer, colorSano, colorEnfermo)
    {
      tienePlaga := true;
      ActualizarColor();
    }

    method MarcarComoSana()
      modifies this`tienePlaga, this`colorPintado
      ensures Estado() == Marcar(old(Estado()), false, conRenderer, colorSano, colorEnfermo)
    {
      tienePlaga := false;
      ActualizarColor();
    }
  }
}
