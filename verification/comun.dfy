/**
 * Shared vocabulary of the model: optional values, the outcome of an
 * operation that may raise, the Python values the request layer hands to
 * the core (only as far as truthiness and `is False` matter), and the
 * small string helpers the source uses to build identifiers and messages
 * (`str(n)`, `str.zfill`, `str.capitalize`, `str.isnumeric`, `int(s)`).
 */
module Comun {

  datatype Option<+T> = None | Some(value: T)

  /** Either the call finished (`Pass`) or it raised `Fail(error)`. */
  datatype Outcome<+E> = Pass | Fail(error: E)

  /** Either a value or the exception raised instead of returning it. */
  datatype Result<+T, +E> = Ok(value: T) | Err(error: E)

  /**
   * A value decoded from a request or built for a response. Only what the
   * core distinguishes is kept: `None`, booleans, integers, floats (as
   * exact reals), strings, lists, dictionaries, and anything else with its
   * truthiness.
   */
  datatype PyValor =
    | PyNone
    | PyBool(b: bool)
    | PyInt(i: int)
    | PyFloat(x: real)
    | PyStr(s: string)
    | PyLista(elementos: seq<PyValor>)
    | PyDicc(entradas: map<string, PyValor>)
    | PyOtro(verdadero: bool)

  /** Python truthiness (`if v:`). */
  predicate Verdadero(v: PyValor)
  {
    match v
    case PyNone => false
    case PyBool(b) => b
    case PyInt(i) => i != 0
    case PyFloat(x) => x != 0.0
    case PyStr(s) => s != ""
    case PyLista(xs) => xs != []
    case PyDicc(m) => m != map[]
    case PyOtro(t) => t
  }

  /** The Python exceptions the core raises or lets escape. */
  datatype Excepcion =
    | ValidationError(mensaje: string)
    | KeyError
    | IndexError
    | TypeError
    | ValueError
    | Exception(mensaje: string)
    | IntegrityError
    | MultipleObjectsReturned

  /** `v[clave]` with a string key: only a dictionary holding the key answers. */
  function Indexar(v: PyValor, clave: string): (r: Result<PyValor, Excepcion>)
    ensures r.Ok? <==> v.PyDicc? && clave in v.entradas
    ensures r.Ok? ==> r.value == v.entradas[clave]
    ensures v.PyDicc? && clave !in v.entradas ==> r == Err(KeyError)
    ensures !v.PyDicc? ==> r == Err(TypeError)
  {
    match v
    case PyDicc(m) => if clave in m then Ok(m[clave]) else Err(KeyError)
    case _ => Err(TypeError)
  }

  /** `t` occurs in `s` as a contiguous piece. */
  function EsSubcadena(t: string, s: string): bool
  {
    t <= s || (s != [] && EsSubcadena(t, s[1..]))
  }

  /**
   * `clave in v`: a key of a dictionary, an element of a list, a piece of
   * a string; on any other value the test raises.
   */
  function Pertenece(clave: string, v: PyValor): Result<bool, Excepcion>
  {
    match v
    case PyDicc(m) => Ok(clave in m)
    case PyLista(xs) => Ok(PyStr(clave) in xs)
    case PyStr(s) => Ok(EsSubcadena(clave, s))
    case _ => Err(TypeError)
  }

  /** The integer a value compares as (`bool` is an `int`); `None` for the rest. */
  function ComoEntero(v: PyValor): Option<int>
  {
    match v
    case PyInt(i) => Some(i)
    case PyBool(b) => Some(if b then 1 else 0)
    case _ => None
  }

  /** The number a value compares as: an integer, a boolean or a float; `None` for the rest. */
  function ComoNumero(v: PyValor): (r: Option<real>)
    ensures ComoEntero(v).Some? ==> r == Some(ComoEntero(v).value as real)
    ensures v.PyFloat? ==> r == Some(v.x)
    ensures r.Some? <==> ComoEntero(v).Some? || v.PyFloat?
  {
    match v
    case PyInt(i) => Some(i as real)
    case PyBool(b) => Some(if b then 1.0 else 0.0)
    case PyFloat(x) => Some(x)
    case _ => None
  }

  /** `v <= 0`, which raises on a value that is neither a number nor a boolean. */
  function MenorIgualCero(v: PyValor): Result<bool, Excepcion>
  {
    match ComoNumero(v)
    case Some(x) => Ok(x <= 0.0)
    case None => Err(TypeError)
  }

  /** `v < 0`, which raises on a value that is neither a number nor a boolean. */
  function MenorQueCero(v: PyValor): Result<bool, Excepcion>
  {
    match ComoNumero(v)
    case Some(x) => Ok(x < 0.0)
    case None => Err(TypeError)
  }

  /** `n` is `x` with its fractional part dropped, rounding toward zero. */
  predicate Truncado(x: real, n: int)
  {
    && (x >= 0.0 ==> 0 <= n && n as real <= x < n as real + 1.0)
    && (x < 0.0 ==> n <= 0 && n as real - 1.0 < x <= n as real)
  }

  /** `int(x)` on a float: truncation toward zero (not Dafny's floor). */
  function Truncar(x: real): (r: int)
    ensures Truncado(x, r)
  {
    if x >= 0.0 then x.Floor else -((-x).Floor)
  }

  /**
   * `int(v)`: integers and booleans convert, a float is truncated toward
   * zero, a numeric text is parsed and any other text raises ValueError;
   * every other value raises TypeError.
   */
  function AEntero(v: PyValor): (r: Result<int, Excepcion>)
    ensures ComoEntero(v).Some? ==> r == Ok(ComoEntero(v).value)
    ensures v.PyStr? ==> (r.Ok? <==> TextoAEntero(v.s).Some?)
    ensures v.PyStr? && r.Err? ==> r == Err(ValueError)
    ensures v.PyFloat? ==> r.Ok? && Truncado(v.x, r.value)
    ensures r.Err? <==> !v.PyInt? && !v.PyBool? && !v.PyFloat? && !(v.PyStr? && TextoAEntero(v.s).Some?)
  {
    match v
    case PyInt(i) => Ok(i)
    case PyBool(b) => Ok(if b then 1 else 0)
    case PyFloat(x) => Ok(Truncar(x))
    case PyStr(s) => (match TextoAEntero(s) case Some(n) => Ok(n) case None => Err(ValueError))
    case _ => Err(TypeError)
  }

  /** `dict.get(clave)`: the value, or `None` when the key is absent. */
  function Obtener(d: map<string, PyValor>, clave: string): (r: PyValor)
    ensures clave !in d ==> r == PyNone
    ensures clave in d ==> r == d[clave]
  {
    if clave in d then d[clave] else PyNone
  }

  // ---------------------------------------------------------------------
  // Decimal digit strings: str(n), int(s), zfill

  predicate EsDigito(c: char) { '0' <= c <= '9' }

  predicate SoloDigitos(s: string)
  {
    forall i :: 0 <= i < |s| ==> EsDigito(s[i])
  }

  /** The number a string of decimal digits denotes (leading zeros allowed). */
  function ValorDigitos(s: string): nat
    requires SoloDigitos(s)
  {
    if s == [] then 0
    else ValorDigitos(s[..|s| - 1]) * 10 + ((s[|s| - 1] as int) - ('0' as int))
  }

  /** A digit string denotes a positive number exactly when some digit is not zero. */
  lemma {:induction false} ValorDigitosPositivo(s: string)
    requires SoloDigitos(s)
    ensures ValorDigitos(s) > 0 <==> exists i :: 0 <= i < |s| && s[i] != '0'
  {
    if s != [] {
      var u := s[..|s| - 1];
      ValorDigitosPositivo(u);
      if exists i :: 0 <= i < |u| && u[i] != '0' {
        var i :| 0 <= i < |u| && u[i] != '0';
        assert s[i] != '0';
      }
      if exists i :: 0 <= i < |s| && s[i] != '0' {
        var i :| 0 <= i < |s| && s[i] != '0';
        if i < |u| {
          assert u[i] != '0';
        }
      }
    }
  }

  function Digito(d: nat): (c: char)
    requires d < 10
    ensures EsDigito(c) && (c as int) - ('0' as int) == d
  {
    ('0' as int + d) as char
  }

  /** `str(n)` for a non-negative integer. */
  function NatATexto(n: nat): (r: string)
    ensures r != []
    decreases n
  {
    if n < 10 then [Digito(n)] else NatATexto(n / 10) + [Digito(n % 10)]
  }

  /**
   * `str(n)` is a digit string without leading zeros that denotes `n`
   * again.
   */
  lemma {:induction false} NatATextoValor(n: nat)
    ensures SoloDigitos(NatATexto(n))
    ensures ValorDigitos(NatATexto(n)) == n
    ensures NatATexto(n)[0] == '0' ==> n == 0
    decreases n
  {
    if n >= 10 {
      NatATextoValor(n / 10);
      var cabeza := NatATexto(n / 10);
      var r := NatATexto(n);
      assert r == cabeza + [Digito(n % 10)];
      assert r[..|r| - 1] == cabeza;
      assert r[0] == cabeza[0];
    }
  }

  /** `str(i)` for any integer: a minus sign before the digits of |i|. */
  function EnteroATexto(i: int): (r: string)
    ensures i >= 0 ==> r == NatATexto(i)
    ensures i < 0 ==> r == ['-'] + NatATexto(-i)
  {
    if i >= 0 then NatATexto(i) else ['-'] + NatATexto(-i)
  }

  function Ceros(k: nat): (r: string)
    ensures |r| == k
  {
    seq(k, _ => '0')
  }

  /**
   * `s.zfill(ancho)`: pads with '0' on the left up to `ancho` characters,
   * keeping a leading sign in front of the padding.
   */
  function ZFill(s: string, ancho: nat): (r: string)
    ensures |s| >= ancho ==> r == s
    ensures |r| == if |s| >= ancho then |s| else ancho
  {
    if |s| >= ancho then s
    else if |s| > 0 && (s[0] == '-' || s[0] == '+') then [s[0]] + Ceros(ancho - |s|) + s[1..]
    else Ceros(ancho - |s|) + s
  }

  /** Padding a digit string with leading zeros does not change its value. */
  lemma {:induction false} ValorConCeros(k: nat, s: string)
    requires SoloDigitos(s)
    ensures SoloDigitos(Ceros(k) + s)
    ensures ValorDigitos(Ceros(k) + s) == ValorDigitos(s)
    decreases |s|
  {
    var t := Ceros(k) + s;
    assert SoloDigitos(t) by {
      forall i | 0 <= i < |t| ensures EsDigito(t[i]) {
        if i < k { assert t[i] == Ceros(k)[i]; } else { assert t[i] == s[i - k]; }
      }
    }
    if s == [] {
      assert t == Ceros(k);
      ValorCeros(k);
    } else {
      var ini := s[..|s| - 1];
      assert t[..|t| - 1] == Ceros(k) + ini;
      ValorConCeros(k, ini);
    }
  }

  lemma {:induction false} ValorCeros(k: nat)
    ensures SoloDigitos(Ceros(k))
    ensures ValorDigitos(Ceros(k)) == 0
  {
    if k > 0 {
      assert Ceros(k)[..k - 1] == Ceros(k - 1);
      ValorCeros(k - 1);
    }
  }

  /**
   * `str(n).zfill(ancho)`: at least `ancho` digits, and they denote `n`
   * again.
   */
  lemma ZFillDigitos(n: nat, ancho: nat)
    ensures |ZFill(NatATexto(n), ancho)| >= ancho
    ensures SoloDigitos(ZFill(NatATexto(n), ancho))
    ensures ValorDigitos(ZFill(NatATexto(n), ancho)) == n
  {
    var s := NatATexto(n);
    NatATextoValor(n);
    if |s| < ancho {
      assert s[0] != '-' && s[0] != '+';
      assert ZFill(s, ancho) == Ceros(ancho - |s|) + s;
      ValorConCeros(ancho - |s|, s);
    }
  }

  /** `s.isnumeric()` for ASCII text: non-empty and all decimal digits. */
  predicate EsNumerico(s: string)
  {
    s != [] && SoloDigitos(s)
  }

  /**
   * `int(s)` for ASCII text: an optional sign followed by at least one
   * digit; anything else raises (modelled as `None`).
   */
  function TextoAEntero(s: string): (r: Option<int>)
    ensures r.Some? <==> EsNumerico(s) || (|s| > 1 && (s[0] == '-' || s[0] == '+') && EsNumerico(s[1..]))
    ensures EsNumerico(s) ==> r == Some(ValorDigitos(s))
    ensures |s| > 1 && s[0] == '-' && EsNumerico(s[1..]) ==> r == Some(-(ValorDigitos(s[1..]) as int))
    ensures |s| > 1 && s[0] == '+' && EsNumerico(s[1..]) ==> r == Some(ValorDigitos(s[1..]))
    ensures r.Some? ==> s != []
  {
    if EsNumerico(s) then Some(ValorDigitos(s))
    else if |s| > 1 && s[0] == '-' && EsNumerico(s[1..]) then Some(0 - ValorDigitos(s[1..]) as int)
    else if |s| > 1 && s[0] == '+' && EsNumerico(s[1..]) then Some(ValorDigitos(s[1..]))
    else None
  }

  /** `int(str(i)) == i`: every integer's text converts back to it. */
  lemma TextoAEnteroDeTexto(i: int)
    ensures TextoAEntero(EnteroATexto(i)) == Some(i)
  {
    if i >= 0 {
      NatATextoValor(i);
    } else {
      NatATextoValor(-i);
      var t := EnteroATexto(i);
      assert t[1..] == NatATexto(-i);
      assert !EsDigito(t[0]);
    }
  }

  // ---------------------------------------------------------------------
  // str.capitalize, restricted to ASCII letters

  function Mayuscula(c: char): char
  {
    if 'a' <= c <= 'z' then (c as int - 32) as char else c
  }

  function Minuscula(c: char): char
  {
    if 'A' <= c <= 'Z' then (c as int + 32) as char else c
  }

  /**
   * `s.capitalize()`: the first character in upper case and every other
   * one in lower case.
   */
  function Capitalizar(s: string): (r: string)
    ensures |r| == |s|
    ensures s != [] ==> r[0] == Mayuscula(s[0])
    ensures forall i :: 0 < i < |s| ==> r[i] == Minuscula(s[i])
  {
    if s == [] then [] else [Mayuscula(s[0])] + seq(|s| - 1, i requires 0 <= i < |s| - 1 => Minuscula(s[i + 1]))
  }

  /** Capitalizing twice is capitalizing once. */
  lemma CapitalizarIdempotente(s: string)
    ensures Capitalizar(Capitalizar(s)) == Capitalizar(s)
  {
    var r := Capitalizar(s);
    var rr := Capitalizar(r);
    assert |rr| == |r|;
    forall i | 0 <= i < |r| ensures rr[i] == r[i] {
      if i == 0 {
        assert Mayuscula(Mayuscula(s[0])) == Mayuscula(s[0]);
      } else {
        assert Minuscula(Minuscula(s[i])) == Minuscula(s[i]);
      }
    }
  }

  /** `separador.join(partes)`. */
  function Unir(separador: string, partes: seq<string>): (r: string)
    ensures partes == [] ==> r == ""
    ensures |partes| == 1 ==> r == partes[0]
  {
    if partes == [] then ""
    else if |partes| == 1 then partes[0]
    else Unir(separador, partes[..|partes| - 1]) + separador + partes[|partes| - 1]
  }
}
