/**
 * The serializer helpers of base/serializers.py: `get_errores_lista`, which
 * flattens the framework's nested error dictionary into a list of
 * "Campo: Mensaje" lines, and the user representation that blanks the
 * password.
 *
 * An error dictionary keeps its keys in insertion order, as a Python dict
 * iterates them, so it is the sequence of its entries.
 */
module Serializadores {
  import opened Comun

  /** A value found in an error dictionary. */
  datatype Valor =
    | Texto(s: string)
    | Lista(elementos: seq<Valor>)
    | Diccionario(errores: Errores)
    | Otro

  datatype Entrada = Entrada(clave: string, valor: Valor)

  /** An error dictionary: its entries in key order. */
  datatype Errores = Errores(entradas: seq<Entrada>)

  /**
   * `errores[key][0]`: the first element of a list, the first character of
   * a string; an empty one raises `IndexError`, a dictionary (whose keys are
   * strings) raises `KeyError`, and anything else is not subscriptable.
   */
  function Primero(v: Valor): (r: Result<Valor, Excepcion>)
    ensures r.Ok? <==> (v.Lista? && v.elementos != []) || (v.Texto? && v.s != [])
    ensures v.Lista? && v.elementos != [] ==> r == Ok(v.elementos[0])
    ensures v.Texto? && v.s != [] ==> r == Ok(Texto([v.s[0]]))
    ensures v.Diccionario? ==> r == Err(KeyError)
    ensures v.Otro? ==> r == Err(TypeError)
  {
    match v
    case Lista(xs) => if xs == [] then Err(IndexError) else Ok(xs[0])
    case Texto(s) => if s == [] then Err(IndexError) else Ok(Texto([s[0]]))
    case Diccionario(_) => Err(KeyError)
    case Otro => Err(TypeError)
  }

  /** The line a string error gives: `key.capitalize() + ": " + error.capitalize()`. */
  function Linea(clave: string, error: string): string
  {
    Capitalizar(clave) + ": " + Capitalizar(error)
  }

  /** The dictionary that is the first error of `v`, if it is one. */
  function Anidado(v: Valor): (r: Option<Errores>)
    ensures r.Some? <==> Primero(v).Ok? && Primero(v).value.Diccionario?
    ensures r.Some? ==> v.Lista? && v.elementos != [] && v.elementos[0] == Diccionario(r.value)
  {
    if Primero(v).Ok? && Primero(v).value.Diccionario? then Some(Primero(v).value.errores) else None
  }

  /**
   * One turn of the loop of `get_errores_lista`: after the messages
   * `previos`, the key of `entrada` contributes through its first error
   * only. A string adds one line, a dictionary adds its own flattened
   * messages `anidados`, and any other value adds nothing; an exception
   * ends the call.
   */
  function Paso(previos: Result<seq<string>, Excepcion>, entrada: Entrada, anidados: Result<seq<string>, Excepcion>): (r: Result<seq<string>, Excepcion>)
    ensures previos.Err? ==> r == previos
    ensures previos.Ok? && Primero(entrada.valor).Err? ==> r == Err(Primero(entrada.valor).error)
    ensures r.Ok? ==> previos.Ok? && previos.value <= r.value
  {
    if previos.Err? then previos
    else
      match Primero(entrada.valor)
      case Err(x) => Err(x)
      case Ok(Texto(s)) => Ok(previos.value + [Linea(entrada.clave, s)])
      case Ok(Diccionario(_)) => if anidados.Err? then anidados else Ok(previos.value + anidados.value)
      case Ok(_) => previos
  }

  /**
   * The messages `get_errores_lista` has collected after the first `n`
   * keys.
   */
  function ErroresHasta(e: Errores, n: nat): (r: Result<seq<string>, Excepcion>)
    requires n <= |e.entradas|
    ensures r.Ok? ==> forall i :: 0 <= i < n ==> Primero(e.entradas[i].valor).Ok?
    decreases e, n
  {
    if n == 0 then Ok([])
    else
      var entrada := e.entradas[n - 1];
      assert entrada in e.entradas;
      Paso(ErroresHasta(e, n - 1), entrada, AnidadosDe(entrada.valor))
  }

  /**
   * The flattened messages of the dictionary that is the first error of
   * `v`, by the same function; nothing when it is not a dictionary.
   */
  function AnidadosDe(v: Valor): Result<seq<string>, Excepcion>
    decreases v
  {
    match Anidado(v)
    case Some(sub) => ErroresHasta(sub, |sub.entradas|)
    case None => Ok([])
  }

  /** `get_errores_lista(errores)`: the messages of every key, in key order. */
  function ErroresLista(e: Errores): Result<seq<string>, Excepcion>
  {
    ErroresHasta(e, |e.entradas|)
  }

  /** Once a key has raised, the keys after it change nothing: the call ends with that exception. */
  lemma {:induction false} ErrorDefinitivo(e: Errores, k: nat, n: nat)
    requires k <= n <= |e.entradas|
    requires ErroresHasta(e, k).Err?
    ensures ErroresHasta(e, n) == ErroresHasta(e, k)
  {
    if n > k {
      ErrorDefinitivo(e, k, n - 1);
    }
  }

  /**
   * `get_errores_lista(errores)`: walks the keys in order, collecting the
   * line of each string error and the recursively flattened messages of
   * each dictionary error, and stops at the first exception.
   */
  method GetErroresLista(errores: Errores) returns (r: Result<seq<string>, Excepcion>)
    ensures r == ErroresLista(errores)
    decreases errores
  {
    var mensajes: seq<string> := [];
    var i := 0;
    while i < |errores.entradas|
      invariant 0 <= i <= |errores.entradas|
      invariant ErroresHasta(errores, i) == Ok(mensajes)
    {
      var entrada := errores.entradas[i];
      var error := Primero(entrada.valor);
      assert ErroresHasta(errores, i + 1) == Paso(Ok(mensajes), entrada, AnidadosDe(entrada.valor));
      if error.Err? {
        ErrorDefinitivo(errores, i + 1, |errores.entradas|);
        return Err(error.error);
      }
      if error.value.Texto? {
        mensajes := mensajes + [Linea(entrada.clave, error.value.s)];
      } else if error.value.Diccionario? {
        assert entrada in errores.entradas;
        var recursivos := GetErroresLista(error.value.errores);
        assert AnidadosDe(entrada.valor) == recursivos;
        if recursivos.Err? {
          ErrorDefinitivo(errores, i + 1, |errores.entradas|);
          return recursivos;
        }
        mensajes := mensajes + recursivos.value;
      }
      i := i + 1;
    }
    return Ok(mensajes);
  }

  /** The first error of `v` is a string. */
  predicate PrimeroEsTexto(v: Valor)
  {
    Primero(v).Ok? && Primero(v).value.Texto?
  }

  /** The text of that first error. */
  function TextoPrimero(v: Valor): string
    requires PrimeroEsTexto(v)
  {
    Primero(v).value.s
  }

  /**
   * The lines of the first `n` keys, each built from the key and the text
   * of its first error.
   */
  function LineasDe(e: Errores, n: nat): (r: seq<string>)
    requires n <= |e.entradas|
    requires forall i :: 0 <= i < n ==> PrimeroEsTexto(e.entradas[i].valor)
    ensures |r| == n
    ensures forall i :: 0 <= i < n ==> r[i] == Linea(e.entradas[i].clave, TextoPrimero(e.entradas[i].valor))
  {
    if n == 0 then []
    else
      var previas := LineasDe(e, n - 1);
      var ultima := Linea(e.entradas[n - 1].clave, TextoPrimero(e.entradas[n - 1].valor));
      assert forall i :: 0 <= i < n - 1 ==> (previas + [ultima])[i] == previas[i];
      previas + [ultima]
  }

  /**
   * A dictionary whose every first error is a string gives exactly one
   * line per key, in key order, built from the key and that first error.
   */
  lemma {:induction false} UnaLineaPorClave(e: Errores, n: nat)
    requires n <= |e.entradas|
    requires forall i :: 0 <= i < n ==> PrimeroEsTexto(e.entradas[i].valor)
    ensures ErroresHasta(e, n) == Ok(LineasDe(e, n))
  {
    if n > 0 {
      UnaLineaPorClave(e, n - 1);
      var entrada := e.entradas[n - 1];
      PasoDeTexto(LineasDe(e, n - 1), entrada, AnidadosDe(entrada.valor));
    }
  }

  /** A key whose first error is a string adds exactly its line. */
  lemma PasoDeTexto(previos: seq<string>, entrada: Entrada, anidados: Result<seq<string>, Excepcion>)
    requires PrimeroEsTexto(entrada.valor)
    ensures Paso(Ok(previos), entrada, anidados) == Ok(previos + [Linea(entrada.clave, TextoPrimero(entrada.valor))])
  {
  }

  /**
   * Only the first error of each key matters: two dictionaries with the
   * same keys and the same first errors give the same result, whatever the
   * other errors are.
   */
  lemma {:induction false} SoloCuentaElPrimero(e: Errores, f: Errores, n: nat)
    requires n <= |e.entradas| && n <= |f.entradas|
    requires forall i :: 0 <= i < n ==> e.entradas[i].clave == f.entradas[i].clave
    requires forall i :: 0 <= i < n ==> Primero(e.entradas[i].valor) == Primero(f.entradas[i].valor)
    ensures ErroresHasta(e, n) == ErroresHasta(f, n)
  {
    if n > 0 {
      SoloCuentaElPrimero(e, f, n - 1);
    }
  }

  /** Keys whose first error is neither a string nor a dictionary add nothing. */
  lemma {:induction false} OtrosTiposNoAportan(e: Errores, n: nat)
    requires n <= |e.entradas|
    requires forall i :: 0 <= i < n ==>
      Primero(e.entradas[i].valor).Ok? && !Primero(e.entradas[i].valor).value.Texto? && !Primero(e.entradas[i].valor).value.Diccionario?
    ensures ErroresHasta(e, n) == Ok([])
  {
    if n > 0 {
      OtrosTiposNoAportan(e, n - 1);
    }
  }

  /** Two message lists one after the other; the first exception wins. */
  function Seguidos(a: Result<seq<string>, Excepcion>, b: Result<seq<string>, Excepcion>): Result<seq<string>, Excepcion>
  {
    if a.Err? then a else if b.Err? then b else Ok(a.value + b.value)
  }

  /** A turn after two message lists is a turn after the second. */
  lemma PasoTrasSeguidos(a: Result<seq<string>, Excepcion>, p: Result<seq<string>, Excepcion>, entrada: Entrada, anidados: Result<seq<string>, Excepcion>)
    ensures Paso(Seguidos(a, p), entrada, anidados) == Seguidos(a, Paso(p, entrada, anidados))
  {
    if a.Ok? && p.Ok? && Primero(entrada.valor).Ok? {
      var x := Primero(entrada.valor).value;
      if x.Texto? {
        assert (a.value + p.value) + [Linea(entrada.clave, x.s)] == a.value + (p.value + [Linea(entrada.clave, x.s)]);
      } else if x.Diccionario? && anidados.Ok? {
        assert (a.value + p.value) + anidados.value == a.value + (p.value + anidados.value);
      }
    }
  }

  /** The keys before position `k` give the same messages whatever follows them. */
  lemma {:induction false} PrefijoDeClaves(a: seq<Entrada>, b: seq<Entrada>, k: nat)
    requires k <= |a|
    ensures ErroresHasta(Errores(a + b), k) == ErroresHasta(Errores(a), k)
  {
    if k > 0 {
      PrefijoDeClaves(a, b, k - 1);
      assert (a + b)[k - 1] == a[k - 1];
    }
  }

  /**
   * Messages follow key order: the dictionary made of the keys of `a`
   * followed by the first `n` keys of `b` gives the messages of `a`
   * followed by those of the `n` keys.
   */
  lemma {:induction false} ClavesConcatenadas(a: seq<Entrada>, b: seq<Entrada>, n: nat)
    requires n <= |b|
    ensures ErroresHasta(Errores(a + b), |a| + n) == Seguidos(ErroresLista(Errores(a)), ErroresHasta(Errores(b), n))
  {
    if n == 0 {
      PrefijoDeClaves(a, b, |a|);
      var previos := ErroresLista(Errores(a));
      assert previos.Ok? ==> previos.value + [] == previos.value;
    } else {
      ClavesConcatenadas(a, b, n - 1);
      assert (a + b)[|a| + n - 1] == b[n - 1];
      PasoTrasSeguidos(ErroresLista(Errores(a)), ErroresHasta(Errores(b), n - 1), b[n - 1], AnidadosDe(b[n - 1].valor));
    }
  }

  /** A dictionary of one key whose first error is a dictionary gives that dictionary's messages. */
  lemma UnaClaveAnidada(clave: string, v: Valor)
    requires Primero(v).Ok? && Primero(v).value.Diccionario?
    ensures ErroresLista(Errores([Entrada(clave, v)])) == ErroresLista(Primero(v).value.errores)
  {
    var e := Errores([Entrada(clave, v)]);
    assert ErroresHasta(e, 0) == Ok([]);
    var anidados := AnidadosDe(v);
    assert anidados == ErroresLista(Primero(v).value.errores);
    assert anidados.Ok? ==> [] + anidados.value == anidados.value;
  }

  /**
   * A key whose first error is a dictionary has that dictionary's messages
   * spliced in at its position, between the messages of the keys before it
   * and those of the keys after it.
   */
  lemma EmpalmeAnidado(a: seq<Entrada>, clave: string, v: Valor, b: seq<Entrada>)
    requires Primero(v).Ok? && Primero(v).value.Diccionario?
    ensures ErroresLista(Errores(a + [Entrada(clave, v)] + b)) ==
      Seguidos(Seguidos(ErroresLista(Errores(a)), ErroresLista(Primero(v).value.errores)), ErroresLista(Errores(b)))
  {
    var uno := [Entrada(clave, v)];
    var x := a + uno;
    ClavesConcatenadas(x, b, |b|);
    assert ErroresLista(Errores(x + b)) == Seguidos(ErroresLista(Errores(x)), ErroresLista(Errores(b)));
    ClavesConcatenadas(a, uno, 1);
    assert ErroresLista(Errores(x)) == Seguidos(ErroresLista(Errores(a)), ErroresLista(Errores(uno)));
    UnaClaveAnidada(clave, v);
  }

  /**
   * `UsuarioSerializer.to_representation`: the framework's representation
   * `base` of the user with the password replaced by the empty string; the
   * other fields are kept.
   */
  function ToRepresentation(base: map<string, PyValor>): (r: map<string, PyValor>)
    ensures r.Keys == base.Keys + {"password"}
    ensures r["password"] == PyStr("")
    ensures forall k :: k in base && k != "password" ==> r[k] == base[k]
  {
    base["password" := PyStr("")]
  }

  /**
   * The representation does not depend on the stored password: two users
   * whose representations differ only there are shown identically.
   */
  lemma ContrasenaOculta(a: map<string, PyValor>, b: map<string, PyValor>)
    requires a.Keys == b.Keys
    requires forall k :: k in a && k != "password" ==> a[k] == b[k]
    ensures ToRepresentation(a) == ToRepresentation(b)
  {
    assert ToRepresentation(a).Keys == ToRepresentation(b).Keys;
  }
}
