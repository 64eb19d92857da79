/**
 * The emoji clean-up script: the content transform (ordered replace-all
 * passes) and the decision to rewrite a file. File access is given as
 * input: what a read returns, and whether the write succeeds.
 */
module LimpiarEmojis {
  import opened Util

  /** A replacement table: keys in the dictionary's order, each with its replacement. */
  type Tabla = seq<(string, string)>

  /** The emoji table, in the dictionary's order. */
  const REEMPLAZOS: Tabla := [
    ("\U{11F}\U{178}\U{161}\U{20AC}", "[INIT]"),
    ("\U{11F}\U{178}\U{A7}\U{A0}", "[MANAGER]"),
    ("\U{11F}\U{178}\U{2013}\U{A5}\U{EF}\U{B8}", "[UI]"),
    ("\U{E2}\U{153}\U{2026}", "[OK]"),
    ("\U{11F}\U{178}\U{2018}\U{A8}\U{E2}\U{20AC}\U{11F}\U{178}\U{152}\U{BE}", "[CAPATAZ]"),
    ("\U{11F}\U{178}\U{201D}\U{2014}", "[CONEXION]"),
    ("\U{11F}\U{178}\U{A4}\U{2013}", "[AGENTES]"),
    ("\U{11F}\U{178}\U{201C}\U{2039}", "[INFO]"),
    ("\U{11F}\U{178}\U{201C}\U{A6}", "[TRABAJO]"),
    ("\U{E2}\U{B3}", "[ESPERA]"),
    ("\U{11F}\U{178}\U{AC}", "[SIMULACION]"),
    ("\U{11F}\U{178}\U{152}\U{BE}", "[CULTIVO]"),
    ("\U{11F}\U{178}\U{201C}\U{160}", "[DATOS]"),
    ("\U{11F}\U{178}\U{2019}\U{A1}", "[TIP]"),
    ("\U{E2}\U{161}\U{A0}\U{EF}\U{B8}", "[ADVERTENCIA]"),
    ("\U{E2}\U{152}", "[ERROR]"),
    ("\U{11F}\U{178}\U{A7}\U{AA}", "[PRUEBA]"),
    ("\U{11F}\U{178}\U{152}\U{B1}", "[PEQUENO]"),
    ("\U{11F}\U{178}\U{152}\U{B3}", "[GRANDE]"),
    ("\U{11F}\U{178}\U{203A}\U{2018}", "[DETENER]"),
    ("\U{E2}\U{B8}\U{BB}", "[LINEA]"),
    ("\U{11F}\U{178}\U{2018}\U{2039}", "[ADIOS]"),
    ("\U{11F}\U{178}\U{201C}\U{A1}", "[COMUNICACION]"),
    ("\U{E2}\U{AD}", "[PRIORIDAD]"),
    ("\U{11F}\U{178}\U{201D}\U{201D}", "[CAMPANA]"),
    ("\U{11F}\U{178}\U{161}\U{A8}", "[EMERGENCIA]"),
    ("\U{11F}\U{178}\U{201C}", "[POSICION]"),
    ("\U{11F}\U{178}\U{2018}\U{A5}", "[EQUIPO]"),
    ("\U{11F}\U{178}\U{201C}\U{A2}", "[ANUNCIO]"),
    ("\U{11F}\U{178}\U{201D}", "[BUSQUEDA]"),
    ("\U{11F}\U{178}\U{2026}", "[FRUTOS]"),
    ("\U{E2}\U{B1}\U{EF}\U{B8}", "[TIEMPO]"),
    ("\U{E2}\U{153}\U{2013}\U{EF}\U{B8}", "[X]"),
    ("\U{11F}\U{178}\U{201C}\U{2C6}", "[GRAFICO]"),
    ("\U{11F}\U{178}\U{152}\U{A1}\U{EF}\U{B8}", "[TEMPERATURA]"),
    ("\U{11F}\U{178}\U{2019}\U{A7}", "[HUMEDAD]"),
    ("\U{11F}\U{178}\U{203A}", "[PLAGAS]"),
    ("\U{11F}\U{178}\U{178}\U{A2}", "[VERDE]"),
    ("\U{11F}\U{178}\U{178}\U{A1}", "[AMARILLO]"),
    ("\U{11F}\U{178}\U{201D}\U{B4}", "[ROJO]"),
    ("\U{11F}\U{178}\U{178}\U{A3}", "[PURPURA]"),
    ("\U{11F}\U{178}\U{178}\U{A6}", "[AZUL]"),
    ("\U{E2}\U{B8}\U{EF}\U{B8}", "[PAUSA]"),
    ("\U{E2}\U{153}\U{201D}\U{EF}\U{B8}", "[CHECK]"),
    ("\U{11F}\U{178}\U{AF}", "[OBJETIVO]"),
    ("\U{E2}\U{2022}\U{2018}", "|"),
    ("\U{E2}\U{2022}\U{201D}", "+"),
    ("\U{E2}\U{2022}\U{2014}", "+"),
    ("\U{E2}\U{2022}\U{161}", "+"),
    ("\U{E2}\U{2022}", "="),
    ("\U{E2}\U{201D}\U{20AC}", "-"),
    ("\U{E2}\U{201D}\U{153}", "|"),
    ("\U{E2}\U{201D}\U{A4}", "|"),
    ("\U{E2}\U{201D}\U{AC}", "+"),
    ("\U{E2}\U{201D}\U{B4}", "+")
  ]

  /**
   * The accent table as the dictionary literal builds it: the key
   * U+00C3 is written twice, so it keeps its first place and its last
   * value, and the table has 11 entries.
   */
  const ACENTOS: Tabla := [
    ("\U{C3}\U{B3}", "o"),
    ("\U{C3}\U{A1}", "a"),
    ("\U{C3}\U{A9}", "e"),
    ("\U{C3}\U{AD}", "i"),
    ("\U{C3}\U{BC}", "u"),
    ("\U{C3}\U{B1}", "n"),
    ("\U{C3}\U{201C}", "O"),
    ("\U{C3}", "I"),
    ("\U{C3}\U{2030}", "E"),
    ("\U{C3}\U{153}", "U"),
    ("\U{C3}\U{2018}", "N")
  ]

  /** The files the script cleans, in order. */
  const ARCHIVOS: seq<string> := ["main.py", "manager.py", "capataz.py", "fisico.py", "ui.py"]

  /** Python's `s.replace(viejo, nuevo)`: every non-overlapping occurrence, left to right. */
  function Reemplazar(s: string, viejo: string, nuevo: string): string
    decreases |s|
  {
    if viejo == [] then
      if s == [] then nuevo else nuevo + [s[0]] + Reemplazar(s[1..], viejo, nuevo)
    else if |viejo| <= |s| && s[..|viejo|] == viejo then nuevo + Reemplazar(s[|viejo|..], viejo, nuevo)
    else if s == [] then []
    else [s[0]] + Reemplazar(s[1..], viejo, nuevo)
  }

  /** Text without an occurrence of the key is left as it is (the empty key occurs everywhere). */
  lemma {:induction false} ReemplazarSinOcurrencia(s: string, viejo: string, nuevo: string)
    requires !Contiene(s, viejo)
    ensures Reemplazar(s, viejo, nuevo) == s
    decreases |s|
  {
    assert !EnPosicion(s, viejo, 0);
    if s != [] {
      forall i | 0 <= i <= |s[1..]|
        ensures !EnPosicion(s[1..], viejo, i)
      {
        assert !EnPosicion(s, viejo, i + 1);
        if i + |viejo| <= |s[1..]| {
          assert s[i + 1..i + 1 + |viejo|] == s[1..][i..i + |viejo|];
        }
      }
      ReemplazarSinOcurrencia(s[1..], viejo, nuevo);
    }
  }

  /** Replacing a single character by text without it leaves none of it. */
  lemma {:induction false} ReemplazarQuitaCaracter(s: string, c: char, nuevo: string)
    requires c !in nuevo
    ensures c !in Reemplazar(s, [c], nuevo)
    decreases |s|
  {
    if s != [] {
      ReemplazarQuitaCaracter(s[1..], c, nuevo);
      if s[..1] == [c] {
        assert s[1..] == s[|[c]|..];
      }
    }
  }

  /** No key of the table occurs in `s`. */
  predicate SinClaves(s: string, pares: Tabla) {
    forall i | 0 <= i < |pares| :: !Contiene(s, pares[i].0)
  }

  /** The passes of a table, one after the other. */
  function Aplicar(s: string, pares: seq<(string, string)>): string
    decreases |pares|
  {
    if pares == [] then s else Aplicar(Reemplazar(s, pares[0].0, pares[0].1), pares[1..])
  }

  /** A table split in two runs as its first part, then its second. */
  lemma {:induction false} AplicarPartes(s: string, a: seq<(string, string)>, b: seq<(string, string)>)
    ensures Aplicar(s, a + b) == Aplicar(Aplicar(s, a), b)
    decreases |a|
  {
    if a == [] {
      assert a + b == b;
    } else {
      assert (a + b)[1..] == a[1..] + b;
      AplicarPartes(Reemplazar(s, a[0].0, a[0].1), a[1..], b);
    }
  }

  /** No pass of a table changes text that contains none of its keys. */
  lemma {:induction false} AplicarSinClaves(s: string, pares: Tabla)
    requires SinClaves(s, pares)
    ensures Aplicar(s, pares) == s
    decreases |pares|
  {
    if pares != [] {
      ReemplazarSinOcurrencia(s, pares[0].0, pares[0].1);
      AplicarSinClaves(s, pares[1..]);
    }
  }

  /** The two tables the script uses, emojis first. */
  datatype Tablas = Tablas(emojis: Tabla, acentos: Tabla)

  const TABLAS: Tablas := Tablas(REEMPLAZOS, ACENTOS)

  /** The content transform: the emoji passes, then the accent passes. */
  function Transformar(contenido: string, t: Tablas): string {
    Aplicar(Aplicar(contenido, t.emojis), t.acentos)
  }

  /** Content with none of the keys comes out unchanged. */
  lemma SinClavesSinCambios(contenido: string, t: Tablas)
    requires SinClaves(contenido, t.emojis) && SinClaves(contenido, t.acentos)
    ensures Transformar(contenido, t) == contenido
  {
    AplicarSinClaves(contenido, t.emojis);
    AplicarSinClaves(contenido, t.acentos);
  }

  /**
   * The bare U+00C3 pass removes every U+00C3, so the three accent entries
   * after it (the ones for É, Ü and Ñ) never match anything.
   */
  lemma AcentosMuertos(s: string)
    ensures Aplicar(s, ACENTOS) == Aplicar(s, ACENTOS[..8])
    ensures '\U{C3}' !in Aplicar(s, ACENTOS)
  {
    PasadaMuerta(s, ACENTOS, 7, '\U{C3}', "I");
  }

  /**
   * A pass that removes every `c` leaves the later passes, whose keys all
   * contain `c`, nothing to match.
   */
  lemma PasadaMuerta(s: string, tabla: Tabla, k: nat, c: char, nuevo: string)
    requires k < |tabla| && tabla[k] == ([c], nuevo) && c !in nuevo
    requires forall i | k < i < |tabla| :: c in tabla[i].0
    ensures Aplicar(s, tabla) == Aplicar(s, tabla[..k + 1])
    ensures c !in Aplicar(s, tabla)
  {
    var antes := tabla[..k];
    var resto := tabla[k + 1..];
    assert tabla == tabla[..k + 1] + resto;
    assert tabla[..k + 1] == antes + [tabla[k]];
    AplicarPartes(s, tabla[..k + 1], resto);
    AplicarPartes(s, antes, [tabla[k]]);
    var y := Aplicar(s, antes);
    assert Aplicar(y, [tabla[k]]) == Reemplazar(y, [c], nuevo);
    var x := Aplicar(s, tabla[..k + 1]);
    ReemplazarQuitaCaracter(y, c, nuevo);
    forall i | 0 <= i < |resto|
      ensures !Contiene(x, resto[i].0)
    {
      assert resto[i] == tabla[k + 1 + i];
      FaltaCaracter(x, resto[i].0, c);
    }
    AplicarSinClaves(x, resto);
  }

  /** One replacement loop: `contenido` reassigned pass by pass. */
  method AplicarTabla(contenido: string, tabla: Tabla) returns (r: string)
    ensures r == Aplicar(contenido, tabla)
  {
    r := contenido;
    for i := 0 to |tabla|
      invariant Aplicar(r, tabla[i..]) == Aplicar(contenido, tabla)
    {
      assert tabla[i..][1..] == tabla[i + 1..];
      r := Reemplazar(r, tabla[i].0, tabla[i].1);
    }
  }

  /** The two replacement loops. */
  method LimpiarContenido(contenido: string, t: Tablas) returns (r: string)
    ensures r == Transformar(contenido, t)
  {
    r := AplicarTabla(contenido, t.emojis);
    r := AplicarTabla(r, t.acentos);
  }

  /** What a file offers: its content, or `None` when opening or reading it fails; and whether a write succeeds. */
  datatype Archivo = Archivo(lectura: Option<string>, escrituraOk: bool)

  /** Whether `limpiar_archivo` reports the file as changed. */
  predicate Cambia(a: Archivo, t: Tablas) {
    a.lectura.Some? && Transformar(a.lectura.value, t) != a.lectura.value && a.escrituraOk
  }

  /**
   * `limpiar_archivo`: the cleaned content is written, and `True` returned,
   * exactly when it differs from what was read; any failure gives `False`.
   */
  method LimpiarArchivo(a: Archivo, t: Tablas) returns (cambiado: bool, escrito: Option<string>)
    ensures cambiado <==> Cambia(a, t)
    ensures cambiado <==> escrito.Some?
    ensures escrito.Some? ==> escrito.value == Transformar(a.lectura.value, t) && escrito.value != a.lectura.value
  {
    if a.lectura.None? {
      return false, None;
    }
    var contenido := a.lectura.value;
    var original := contenido;
    contenido := LimpiarContenido(contenido, t);
    if contenido != original {
      if !a.escrituraOk {
        return false, None;
      }
      return true, Some(contenido);
    }
    return false, None;
  }

  /** A readable file with none of the keys is reported unchanged. */
  lemma LimpioNoCambia(contenido: string, escrituraOk: bool, t: Tablas)
    requires SinClaves(contenido, t.emojis) && SinClaves(contenido, t.acentos)
    ensures !Cambia(Archivo(Some(contenido), escrituraOk), t)
  {
    SinClavesSinCambios(contenido, t);
  }

  /** How many of `archivos` exist on `disco` and are reported changed. */
  function CuentaCambios(disco: map<string, Archivo>, archivos: seq<string>, t: Tablas): (n: nat)
    ensures n <= |archivos|
  {
    if archivos == [] then 0
    else
      var a := archivos[|archivos| - 1];
      CuentaCambios(disco, archivos[..|archivos| - 1], t) + (if a in disco && Cambia(disco[a], t) then 1 else 0)
  }

  /** A disk whose listed files are all clean or unreadable yields no change. */
  lemma {:induction false} NadaQueLimpiar(disco: map<string, Archivo>, archivos: seq<string>, t: Tablas)
    requires forall i | 0 <= i < |archivos| && archivos[i] in disco && disco[archivos[i]].lectura.Some? ::
      SinClaves(disco[archivos[i]].lectura.value, t.emojis) && SinClaves(disco[archivos[i]].lectura.value, t.acentos)
    ensures CuentaCambios(disco, archivos, t) == 0
    decreases |archivos|
  {
    if archivos != [] {
      var a := archivos[|archivos| - 1];
      NadaQueLimpiar(disco, archivos[..|archivos| - 1], t);
      if a in disco && disco[a].lectura.Some? {
        LimpioNoCambia(disco[a].lectura.value, disco[a].escrituraOk, t);
      }
    }
  }

  /** `escritos` holds the cleaned content of exactly the files of `archivos` reported changed. */
  ghost predicate EscritosDe(disco: map<string, Archivo>, archivos: seq<string>, escritos: map<string, string>, t: Tablas) {
    (forall a | a in escritos ::
       a in archivos && a in disco && Cambia(disco[a], t) && escritos[a] == Transformar(disco[a].lectura.value, t))
    && (forall a | a in archivos && a in disco && Cambia(disco[a], t) :: a in escritos)
  }

  /**
   * The script's loop over a list of file names. Each file is read from
   * `disco` as it was before the loop, so a name listed twice sees its
   * original content again; the script's own list repeats no name.
   */
  method LimpiarArchivos(disco: map<string, Archivo>, archivos: seq<string>, t: Tablas)
    returns (cambios: nat, escritos: map<string, string>)
    ensures cambios == CuentaCambios(disco, archivos, t)
    ensures EscritosDe(disco, archivos, escritos, t)
  {
    cambios := 0;
    escritos := map[];
    for i := 0 to |archivos|
      invariant cambios == CuentaCambios(disco, archivos[..i], t)
      invariant EscritosDe(disco, archivos[..i], escritos, t)
    {
      var archivo := archivos[i];
      assert archivos[..i + 1][..i] == archivos[..i];
      assert archivos[..i + 1] == archivos[..i] + [archivo];
      if archivo in disco {
        var cambiado, escrito := LimpiarArchivo(disco[archivo], t);
        if cambiado {
          cambios := cambios + 1;
          escritos := escritos[archivo := escrito.value];
        }
      }
    }
    assert archivos[..|archivos|] == archivos;
  }

  /** The script: every listed file that exists is cleaned; `cambios` counts those reported changed. */
  method Script(disco: map<string, Archivo>) returns (cambios: nat, escritos: map<string, string>)
    ensures cambios == CuentaCambios(disco, ARCHIVOS, TABLAS)
    ensures EscritosDe(disco, ARCHIVOS, escritos, TABLAS)
  {
    cambios, escritos := LimpiarArchivos(disco, ARCHIVOS, TABLAS);
  }
}
