/** Small helpers shared by the modules of the greenhouse model. */
module Util {

  datatype Option<T> = None | Some(value: T)

  /** A grid cell or a 2-D position `(x, y)` / `(fila, columna)`. */
  type Celda = (int, int)

  function Abs(n: int): (r: nat)
    ensures r == n || r == -n
  {
    if n < 0 then -n else n
  }

  /** Manhattan distance between two cells. */
  function Manhattan(a: Celda, b: Celda): (d: nat)
    ensures d == 0 <==> a == b
  {
    Abs(a.0 - b.0) + Abs(a.1 - b.1)
  }

  /** No element occurs twice. */
  predicate Distintos<T(==)>(s: seq<T>) {
    forall i, j | 0 <= i < j < |s| :: s[i] != s[j]
  }

  function Elementos<T>(s: seq<T>): set<T> {
    set x | x in s
  }

  /** The blocks one after another. */
  function Concatenar<T>(bloques: seq<seq<T>>): seq<T> {
    if bloques == [] then [] else Concatenar(bloques[..|bloques| - 1]) + bloques[|bloques| - 1]
  }

  /** Appending a block appends its elements. */
  lemma ConcatenarAnexo<T>(bloques: seq<seq<T>>, b: seq<T>)
    ensures Concatenar(bloques + [b]) == Concatenar(bloques) + b
  {
    assert (bloques + [b])[..|bloques|] == bloques;
  }

  /** Blocks that give a prefix, followed by the next slice, give the longer prefix. */
  lemma PrefijoAnexo<T>(s: seq<T>, bloques: seq<seq<T>>, b: seq<T>, inicio: nat, fin: nat)
    requires inicio <= fin <= |s|
    requires Concatenar(bloques) == s[..inicio] && b == s[inicio..fin]
    ensures Concatenar(bloques + [b]) == s[..fin]
  {
    ConcatenarAnexo(bloques, b);
    assert s[..fin] == s[..inicio] + s[inicio..fin];
  }

  /** Blocks that give a prefix, followed by the rest, give the whole sequence. */
  lemma PrefijoCompleto<T>(s: seq<T>, bloques: seq<seq<T>>, todos: seq<seq<T>>, inicio: nat)
    requires inicio <= |s| && Concatenar(bloques) == s[..inicio] && todos == bloques + [s[inicio..|s|]]
    ensures Concatenar(todos) == s
  {
    PrefijoAnexo(s, bloques, s[inicio..|s|], inicio, |s|);
    assert s[..|s|] == s;
  }

  /** A prefix one longer is the prefix followed by the next element. */
  lemma PrefijoSiguiente<T>(s: seq<T>, i: nat)
    requires i < |s|
    ensures s[..i + 1] == s[..i] + [s[i]]
  {
  }

  /** Concatenation is associative. */
  lemma ConcatAsociativa<T>(a: seq<T>, b: seq<T>, c: seq<T>)
    ensures a + b + c == a + (b + c)
  {
  }

  /** Appending one element after a concatenation. */
  lemma AnexoAsociativo<T>(a: seq<T>, b: seq<T>, x: T)
    ensures a + (b + [x]) == (a + b) + [x]
  {
  }

  /** A prefix of the tail, after the head, is a prefix of the whole. */
  lemma PrefijoCola<T>(s: seq<T>, v: seq<T>)
    requires 0 < |s| && |v| < |s| && v == s[1..][..|v|]
    ensures [s[0]] + v == s[..|v| + 1]
  {
  }

  /** The prefix of full length is the whole sequence. */
  lemma PrefijoEntero<T>(s: seq<T>)
    ensures s[..|s|] == s
  {
  }

  /** A new element appended keeps a sequence free of repeats. */
  lemma DistintosAnexo<T>(s: seq<T>, x: T)
    requires Distintos(s) && x !in s
    ensures Distintos(s + [x])
  {
  }

  /** Adding an element to a set grows it by one exactly when it was missing. */
  lemma CardinalAnexo<T>(a: set<T>, x: T)
    ensures |a + {x}| == |a| + (if x in a then 0 else 1)
  {
    if x in a {
      assert a + {x} == a;
    }
  }

  /** The elements of a non-empty sequence are its head and the elements of its tail. */
  lemma MultisetCabeza<T>(s: seq<T>)
    requires s != []
    ensures multiset(s) == multiset{s[0]} + multiset(s[1..])
  {
    assert s == [s[0]] + s[1..];
  }

  /** The elements of an element put in front of a sequence. */
  lemma MultisetAnteponer<T>(x: T, s: seq<T>)
    ensures multiset([x] + s) == multiset{x} + multiset(s)
  {
  }

  /** Two lists that repeat nothing and share nothing concatenate to one that repeats nothing. */
  lemma DistintosConcat<T>(a: seq<T>, b: seq<T>)
    requires Distintos(a) && Distintos(b) && Elementos(a) !! Elementos(b)
    ensures Distintos(a + b)
  {
    var c := a + b;
    forall i, j | 0 <= i < j < |c| ensures c[i] != c[j] {
      if i < |a| <= j {
        assert c[i] == a[i] && c[j] == b[j - |a|];
        assert a[i] in Elementos(a);
      }
    }
  }

  /** The parts of a concatenation that repeats nothing repeat nothing and share nothing. */
  lemma DistintosPartes<T>(a: seq<T>, b: seq<T>)
    requires Distintos(a + b)
    ensures Distintos(a) && Distintos(b) && Elementos(a) !! Elementos(b)
  {
    var c := a + b;
    assert forall i | 0 <= i < |a| :: a[i] == c[i];
    assert forall i | 0 <= i < |b| :: b[i] == c[|a| + i];
    forall i, j | 0 <= i < |a| && 0 <= j < |b| ensures a[i] != b[j] {
      assert c[i] == a[i] && c[|a| + j] == b[j];
    }
  }

  function Min(a: int, b: int): int { if a < b then a else b }

  function Max(a: int, b: int): int { if a < b then b else a }

  /** The last `k` elements of `s` (all of `s` when it is shorter). */
  function Ultimos<T>(s: seq<T>, k: nat): (r: seq<T>)
    ensures |r| == Min(k, |s|)
    ensures r == s[|s| - |r|..]
  {
    if |s| <= k then s else s[|s| - k..]
  }

  /** C#'s `%` on `int`: the remainder takes the sign of the dividend. */
  function RestoTruncado(a: int, b: int): (r: int)
    requires b > 0
    ensures a >= 0 ==> 0 <= r < b
    ensures a < 0 ==> -b < r <= 0
    ensures Abs(r) == Abs(a) % b
  {
    if a >= 0 then a % b else -((-a) % b)
  }

  /** C#'s unchecked `int` arithmetic: the exact result wrapped into [-2^31, 2^31). */
  function Int32(x: int): (r: int)
    ensures -0x8000_0000 <= r < 0x8000_0000
    ensures -0x8000_0000 <= x < 0x8000_0000 ==> r == x
    ensures (x - r) % 0x1_0000_0000 == 0
  {
    (x + 0x8000_0000) % 0x1_0000_0000 - 0x8000_0000
  }

  /** Keeping the last `k` after each append is keeping the last `k` of the whole. */
  lemma UltimosAnexo<T>(s: seq<T>, x: T, k: nat)
    ensures Ultimos(Ultimos(s, k) + [x], k) == Ultimos(s + [x], k)
  {
    var u := Ultimos(s, k);
    if |s| > k {
      assert u + [x] == (s + [x])[|s| - k..];
      assert (u + [x])[1..] == (s + [x])[|s| + 1 - k..];
    }
  }

  function DigitoChar(d: nat): (c: char)
    requires d < 10
    ensures '0' <= c <= '9'
  {
    ['0', '1', '2', '3', '4', '5', '6', '7', '8', '9'][d]
  }

  /** The decimal digits of `n`, most significant first, without leading zeros. */
  function Digitos(n: nat): (r: string)
    ensures |r| >= 1 && (forall i | 0 <= i < |r| :: '0' <= r[i] <= '9')
    ensures n > 0 ==> r[0] != '0'
  {
    if n < 10 then [DigitoChar(n)] else Digitos(n / 10) + [DigitoChar(n % 10)]
  }

  /** An integer written in decimal (`str(n)` in Python, `n.ToString()` in C#). */
  function Decimal(n: int): (r: string)
    ensures |r| >= 1 && (n < 0 <==> r[0] == '-')
  {
    if n < 0 then "-" + Digitos(-n) else Digitos(n)
  }

  /** `t` occurs in `s` starting at index `i`. */
  predicate EnPosicion(s: string, t: string, i: int) {
    0 <= i && i + |t| <= |s| && s[i..i + |t|] == t
  }

  /** `t` is a substring of `s` (C#'s `string.Contains`, Python's `in`). */
  predicate Contiene(s: string, t: string) {
    exists i | 0 <= i <= |s| :: EnPosicion(s, t, i)
  }

  /** A character of `t` that `s` lacks rules out every occurrence of `t` in `s`. */
  lemma FaltaCaracter(s: string, t: string, c: char)
    requires c in t && c !in s
    ensures !Contiene(s, t)
  {
  }

  /** An explicit occurrence proves containment. */
  lemma Testigo(s: string, t: string, i: nat)
    requires EnPosicion(s, t, i)
    ensures Contiene(s, t)
  {
  }

  // Small facts of non-linear arithmetic, stated once.

  lemma MulMonotona(a: nat, b: nat, c: nat)
    requires a <= b
    ensures a * c <= b * c
  {
  }

  lemma CotaDivision(x: nat, n: nat)
    requires n >= 1
    ensures n * (x / n) <= x
    ensures x - n * (x / n) < n
  {
  }

  lemma Escalon(i: nat, c: nat)
    ensures (i + 1) * c == i * c + c
  {
  }
}
