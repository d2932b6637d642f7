/**
 * The rules of the user views of base/views.py: the list filters and their
 * pagination, the password kept or replaced on update, the reset-token
 * expiry, and the branches of `destroy`, `update` and `cambiar_password`.
 *
 * A request's query parameters are a map from name to text; its body is a
 * map from key to value. What the framework does around the views (routing,
 * authentication, `get_object`, the serializer's field checks and save of
 * the other fields, e-mail) is not part of this model: the serializer's
 * error dictionary and the user's framework representation are parameters,
 * and the clock is the parameter `ahora`, in seconds.
 */
module Vistas {
  import opened Comun
  import opened Usuarios
  import opened Respuestas
  import S = Serializadores

  // ---------------------------------------------------------------------
  // get_filtros

  /** `request.query_params.get(clave, None)`. */
  function Parametro(q: map<string, string>, clave: string): (r: PyValor)
    ensures clave in q ==> r == PyStr(q[clave])
    ensures clave !in q ==> r == PyNone
  {
    if clave in q then PyStr(q[clave]) else PyNone
  }

  /** `int(request.query_params.get(clave, defecto))`. */
  function EnteroParametro(q: map<string, string>, clave: string, defecto: int): (r: Result<int, Excepcion>)
    ensures clave !in q ==> r == Ok(defecto)
    ensures clave in q ==> (r.Ok? <==> TextoAEntero(q[clave]).Some?)
    ensures clave in q && r.Ok? ==> r.value == TextoAEntero(q[clave]).value
    ensures r.Err? ==> r == Err(ValueError)
  {
    if clave in q then AEntero(PyStr(q[clave])) else Ok(defecto)
  }

  /** The dni filter applies: `dni is not None and dni.isnumeric() and int(dni) > 0`. */
  function FiltraDni(q: map<string, string>): (r: bool)
    ensures r <==> "dni" in q && EsNumerico(q["dni"]) && exists i :: 0 <= i < |q["dni"]| && q["dni"][i] != '0'
  {
    if "dni" in q && EsNumerico(q["dni"]) then
      ValorDigitosPositivo(q["dni"]);
      ValorDigitos(q["dni"]) > 0
    else
      false
  }

  /**
   * The search filters of `get_filtros(request)`: the name and role
   * filters whenever the parameter is not the empty string (an absent one
   * included, with value `None`), the dni filter for a positive number and
   * the enabled filter for a non-empty state.
   */
  function FiltrosDeBusqueda(q: map<string, string>): (r: map<string, PyValor>)
    ensures "first_name__icontains" in r <==> Parametro(q, "nombre") != PyStr("")
    ensures "first_name__icontains" in r ==> r["first_name__icontains"] == Parametro(q, "nombre")
    ensures "roles__nombre__contains" in r <==> Parametro(q, "rol") != PyStr("")
    ensures "roles__nombre__contains" in r ==> r["roles__nombre__contains"] == Parametro(q, "rol")
    ensures "dni__icontains" in r <==> FiltraDni(q)
    ensures FiltraDni(q) ==> r["dni__icontains"] == PyStr(q["dni"])
    ensures "habilitado" in r <==> "estado" in q && q["estado"] != ""
    ensures "habilitado" in r ==> r["habilitado"] == PyBool(q["estado"] == "activo")
    ensures r.Keys <= {"first_name__icontains", "dni__icontains", "roles__nombre__contains", "habilitado"}
  {
    var nombre := Parametro(q, "nombre");
    var f1: map<string, PyValor> := if nombre != PyStr("") then map["first_name__icontains" := nombre] else map[];
    var f2 := if FiltraDni(q) then f1["dni__icontains" := PyStr(q["dni"])] else f1;
    var rol := Parametro(q, "rol");
    var f3 := if rol != PyStr("") then f2["roles__nombre__contains" := rol] else f2;
    var estado := if "estado" in q then q["estado"] else "";
    if estado != "" then f3["habilitado" := PyBool(estado == "activo")] else f3
  }

  /**
   * `get_filtros(request)`: the search filters plus the page window
   * `offset`/`limit` from `paginaActual` (default 1) and
   * `registrosPorPagina` (default 10), so the window holds exactly
   * `registros` rows. A page
   * parameter that is not an integer raises `ValueError`.
   */
  function GetFiltros(q: map<string, string>): (r: Result<map<string, PyValor>, Excepcion>)
    ensures r.Ok? <==> EnteroParametro(q, "paginaActual", 1).Ok? && EnteroParametro(q, "registrosPorPagina", 10).Ok?
    ensures r.Err? ==> r == Err(ValueError)
    ensures r.Ok? ==> r.value.Keys == FiltrosDeBusqueda(q).Keys + {"offset", "limit"}
    ensures r.Ok? ==> "offset" in r.value && "limit" in r.value
    ensures r.Ok? ==>
      var pagina := EnteroParametro(q, "paginaActual", 1).value;
      var registros := EnteroParametro(q, "registrosPorPagina", 10).value;
      && r.value["offset"] == PyInt((pagina - 1) * registros)
      && r.value["limit"] == PyInt((pagina - 1) * registros + registros)
    ensures r.Ok? ==> forall k :: k in FiltrosDeBusqueda(q) ==> r.value[k] == FiltrosDeBusqueda(q)[k]
  {
    match EnteroParametro(q, "paginaActual", 1)
    case Err(x) => Err(x)
    case Ok(pagina) =>
      match EnteroParametro(q, "registrosPorPagina", 10)
      case Err(x) => Err(x)
      case Ok(registros) =>
        var offset := (pagina - 1) * registros;
        var limit := offset + registros;
        var filtros := FiltrosDeBusqueda(q);
        assert "offset" !in filtros && "limit" !in filtros;
        Ok(filtros["offset" := PyInt(offset)]["limit" := PyInt(limit)])
  }

  /** The entries of a filter map whose value is not `None`. */
  function SinNulos(f: map<string, PyValor>): (r: map<string, PyValor>)
    ensures forall k :: k in r ==> k in f && r[k] == f[k] && r[k] != PyNone
    ensures forall k :: k in f && f[k] != PyNone ==> k in r
  {
    map k | k in f && f[k] != PyNone :: f[k]
  }

  /**
   * The filters the query asks for: those of `GetFiltros` without the
   * ones whose value is `None`, that is without a name or role filter for
   * a parameter the query does not carry.
   */
  function GetFiltrosCorregido(q: map<string, string>): (r: Result<map<string, PyValor>, Excepcion>)
    ensures r.Ok? <==> GetFiltros(q).Ok?
    ensures r.Ok? ==> forall k :: k in r.value ==> r.value[k] != PyNone
    ensures r.Ok? ==> forall k :: k in r.value ==> k in GetFiltros(q).value && r.value[k] == GetFiltros(q).value[k]
    ensures r.Ok? ==> forall k :: k in GetFiltros(q).value && GetFiltros(q).value[k] != PyNone ==> k in r.value
  {
    match GetFiltros(q)
    case Err(x) => Err(x)
    case Ok(f) => Ok(SinNulos(f))
  }

  /**
   * The corrected filters search by name (by role) exactly when the query
   * carries a non-empty `nombre` (`rol`), and keep the page window and the
   * `dni` and state filters.
   */
  lemma FiltrosCorregidos(q: map<string, string>)
    requires GetFiltros(q).Ok?
    ensures "first_name__icontains" in GetFiltrosCorregido(q).value <==> "nombre" in q && q["nombre"] != ""
    ensures "roles__nombre__contains" in GetFiltrosCorregido(q).value <==> "rol" in q && q["rol"] != ""
    ensures forall k :: k in GetFiltros(q).value && k != "first_name__icontains" && k != "roles__nombre__contains" ==>
      k in GetFiltrosCorregido(q).value
  {
    var g := GetFiltros(q).value;
    var b := FiltrosDeBusqueda(q);
    forall k | k in g && k != "first_name__icontains" && k != "roles__nombre__contains"
      ensures g[k] != PyNone
    {
      if k !in {"offset", "limit"} {
        assert k in b && g[k] == b[k];
      }
    }
  }

  /**
   * A listing without a `nombre` parameter gets a name filter whose value
   * is `None` (likewise for `rol`); the corrected filters leave both out.
   */
  lemma FiltroNombreNulo()
    ensures GetFiltros(map[]).Ok?
    ensures GetFiltros(map[]).value["first_name__icontains"] == PyNone
    ensures GetFiltros(map[]).value["roles__nombre__contains"] == PyNone
    ensures GetFiltrosCorregido(map[]) == Ok(map["offset" := PyInt(0), "limit" := PyInt(10)])
  {
    var b := FiltrosDeBusqueda(map[]);
    assert b.Keys == {"first_name__icontains", "roles__nombre__contains"};
    var g := GetFiltros(map[]).value;
    assert g.Keys == {"first_name__icontains", "roles__nombre__contains", "offset", "limit"};
    assert g["offset"] == PyInt(0) && g["limit"] == PyInt(10);
    var f := GetFiltrosCorregido(map[]).value;
    assert f.Keys == {"offset", "limit"};
    assert f["offset"] == PyInt(0) && f["limit"] == PyInt(10);
    assert f == map["offset" := PyInt(0), "limit" := PyInt(10)];
  }

  // ---------------------------------------------------------------------
  // actualizar_password

  /**
   * `make_password(valor)`: a text is hashed, `None` gives an unusable
   * password, and any other value raises `TypeError`.
   */
  function HacerPassword(valor: PyValor): (r: Result<Clave, Excepcion>)
    ensures r.Ok? <==> valor.PyStr? || valor == PyNone
    ensures valor.PyStr? ==> r == Ok(Hash(valor.s))
    ensures valor == PyNone ==> r == Ok(Inutilizable)
    ensures r.Err? ==> r.error == TypeError
  {
    match valor
    case PyStr(s) => Ok(Hash(s))
    case PyNone => Ok(Inutilizable)
    case _ => Err(TypeError)
  }

  /**
   * `actualizar_password(usuario, request)`: an empty request password
   * keeps the stored one, any other text is stored as its hash and `None`
   * as an unusable password; a request without a password raises
   * `KeyError`. The stored password is never replaced by the hash of the
   * empty text.
   */
  function ActualizarPassword(actual: Clave, datos: map<string, PyValor>): (r: Result<Clave, Excepcion>)
    ensures "password" !in datos ==> r == Err(KeyError)
    ensures "password" in datos && datos["password"] == PyStr("") ==> r == Ok(actual)
    ensures "password" in datos && datos["password"].PyStr? && datos["password"] != PyStr("") ==> r == Ok(Hash(datos["password"].s))
    ensures "password" in datos && datos["password"] == PyNone ==> r == Ok(Inutilizable)
    ensures "password" in datos && !datos["password"].PyStr? && datos["password"] != PyNone ==> r == Err(TypeError)
    ensures r.Ok? && r.value == Hash("") ==> actual == Hash("")
  {
    if "password" !in datos then Err(KeyError)
    else if datos["password"] == PyStr("") then Ok(actual)
    else HacerPassword(datos["password"])
  }

  // ---------------------------------------------------------------------
  // buscar_usuario_token_reset

  const SEGUNDOS_DIA := 86400

  /**
   * The user whose reset token is `token`, when exactly one has it
   * (`Usuario.objects.get`); none or several make the lookup fail.
   */
  function UnicoConToken(usuarios: seq<Usuario>, token: string): (r: Option<Usuario>)
    reads usuarios
    ensures r.Some? ==> r.value in usuarios && r.value.tokenReset == Some(token)
    ensures r.Some? ==> forall i :: 0 <= i < |usuarios| && usuarios[i].tokenReset == Some(token) ==> usuarios[i] == r.value
    ensures (forall i :: 0 <= i < |usuarios| ==> usuarios[i].tokenReset != Some(token)) ==> r.None?
  {
    var coincidencias := ConToken(usuarios, token);
    if |coincidencias| == 1 then Some(coincidencias[0]) else None
  }

  /** The users holding reset token `token`, in order. */
  function ConToken(usuarios: seq<Usuario>, token: string): (r: seq<Usuario>)
    reads usuarios
    ensures forall i :: 0 <= i < |r| ==> r[i] in usuarios && r[i].tokenReset == Some(token)
    ensures forall i :: 0 <= i < |usuarios| && usuarios[i].tokenReset == Some(token) ==> usuarios[i] in r
    ensures |r| == 1 ==> forall i :: 0 <= i < |usuarios| && usuarios[i].tokenReset == Some(token) ==> usuarios[i] == r[0]
  {
    if usuarios == [] then []
    else
      var previas := usuarios[..|usuarios| - 1];
      var ultimo := usuarios[|usuarios| - 1];
      assert forall i :: 0 <= i < |previas| ==> previas[i] == usuarios[i];
      ConToken(previas, token) + (if ultimo.tokenReset == Some(token) then [ultimo] else [])
  }

  /**
   * The date check of `buscar_usuario_token_reset` as written: no date is
   * accepted, and a date is rejected when the elapsed whole days
   * (`timedelta.days`, rounded down) exceed one.
   */
  function TokenVigente(fecha: Option<int>, ahora: int): (r: bool)
    ensures r <==> fecha.None? || ahora - fecha.value < 2 * SEGUNDOS_DIA
  {
    fecha.None? || (ahora - fecha.value) / SEGUNDOS_DIA <= 1
  }

  /** The check the function's own description states: at most one day old. */
  predicate TokenVigenteCorregido(fecha: Option<int>, ahora: int)
  {
    fecha.None? || ahora - fecha.value <= SEGUNDOS_DIA
  }

  /**
   * As written, a token is accepted up to a second short of two days:
   * the day count of 47 hours 59 minutes 59 seconds is 1.
   */
  lemma TokenDeCasiDosDias()
    ensures TokenVigente(Some(0), 2 * SEGUNDOS_DIA - 1)
    ensures !TokenVigenteCorregido(Some(0), 2 * SEGUNDOS_DIA - 1)
  {
  }

  /** What the corrected check accepts, the written one accepts too. */
  lemma CorregidoMasEstricto(fecha: Option<int>, ahora: int)
    requires TokenVigenteCorregido(fecha, ahora)
    ensures TokenVigente(fecha, ahora)
  {
  }

  /**
   * `buscar_usuario_token_reset(token)` as written: the one user holding
   * the token, when its reset date is absent or the elapsed whole days do
   * not exceed one; otherwise none.
   */
  function BuscarUsuarioTokenReset(usuarios: seq<Usuario>, token: string, ahora: int): (r: Option<Usuario>)
    reads usuarios
    ensures r.Some? <==> UnicoConToken(usuarios, token).Some? && TokenVigente(UnicoConToken(usuarios, token).value.fechaTokenReset, ahora)
    ensures r.Some? ==> r == UnicoConToken(usuarios, token)
  {
    var u := UnicoConToken(usuarios, token);
    if u.Some? && TokenVigente(u.value.fechaTokenReset, ahora) then u else None
  }

  /**
   * The lookup with the one-day limit: a user is found only when it is the
   * one holding the token and its reset date, if any, is at most one day
   * old.
   */
  function BuscarUsuarioTokenResetCorregido(usuarios: seq<Usuario>, token: string, ahora: int): (r: Option<Usuario>)
    reads usuarios
    ensures r.Some? ==> r.value in usuarios && r.value.tokenReset == Some(token)
    ensures r.Some? && r.value.fechaTokenReset.Some? ==> ahora - r.value.fechaTokenReset.value <= SEGUNDOS_DIA
    ensures r.Some? <==> UnicoConToken(usuarios, token).Some? && TokenVigenteCorregido(UnicoConToken(usuarios, token).value.fechaTokenReset, ahora)
    ensures r.Some? ==> BuscarUsuarioTokenReset(usuarios, token, ahora) == r
  {
    var u := UnicoConToken(usuarios, token);
    if u.Some? && TokenVigenteCorregido(u.value.fechaTokenReset, ahora) then u else None
  }

  // ---------------------------------------------------------------------
  // destroy, update, cambiar_password

  const MENSAJE_INHABILITADO := "El usuario ha sido inhabilitado con exito"
  const MENSAJE_NO_BORRABLE := "El usuario no puede ser borrado debido a que se encuentra relacionado a los datos de la web."
  const MENSAJE_BORRADO := "El usuario se ha borrado con éxito"
  const MENSAJE_NO_AUTORIZADO := "No está autorizado para realizar esta operación."
  const MENSAJE_HABILITADO := "Usuario habilitado con éxito"
  const MENSAJE_ACTUALIZADO := "El usuario se ha actualizado con éxito."

  /**
   * `destroy`: a non-empty `motivo` disables the user and records the
   * reason, never deleting it; an empty one deletes the user (sets
   * `borrado`) only when it may be deleted, and otherwise refuses.
   * `puedeBorrarse` is the answer of `comprobar_puede_borrarse`, which the
   * user model does not define.
   */
  method Destroy(u: Usuario, motivo: string, puedeBorrarse: bool) returns (r: Respuesta)
    modifies u`habilitado, u`observaciones, u`borrado
    ensures motivo != "" ==> !u.habilitado && u.observaciones == motivo && u.borrado == old(u.borrado)
    ensures motivo != "" ==> r.cuerpo == Cuerpo(PyBool(true), PyStr(MENSAJE_INHABILITADO))
    ensures motivo == "" ==> u.habilitado == old(u.habilitado) && u.observaciones == old(u.observaciones)
    ensures motivo == "" && puedeBorrarse ==> u.borrado && r.cuerpo == Cuerpo(PyBool(true), PyStr(MENSAJE_BORRADO))
    ensures motivo == "" && !puedeBorrarse ==> u.borrado == old(u.borrado)
    ensures motivo == "" && !puedeBorrarse ==>
      r.cuerpo == Cuerpo(PyBool(false), PyStr(MENSAJE_NO_BORRABLE)) && r.estado == Some(HTTP_400_BAD_REQUEST)
  {
    if |motivo| > 0 {
      u.habilitado := false;
      u.observaciones := motivo;
      r := GetRespuesta(PyBool(true), PyStr(MENSAJE_INHABILITADO), None, PyNone);
      return;
    }
    if !puedeBorrarse {
      r := GetRespuesta(PyBool(false), PyStr(MENSAJE_NO_BORRABLE), None, PyNone);
      return;
    }
    u.borrado := true;
    r := GetRespuesta(PyBool(true), PyStr(MENSAJE_BORRADO), None, PyNone);
  }

  /** The messages of an error list as the list value `get_respuesta` receives. */
  function ListaDeTextos(mensajes: seq<string>): (r: PyValor)
    ensures r.PyLista? && |r.elementos| == |mensajes|
    ensures forall i :: 0 <= i < |mensajes| ==> r.elementos[i] == PyStr(mensajes[i])
  {
    PyLista(seq(|mensajes|, i requires 0 <= i < |mensajes| => PyStr(mensajes[i])))
  }

  /** The request asks for the admin route (`tipoRuta == "admin"`). */
  function RutaAdmin(datos: map<string, PyValor>): (r: bool)
    ensures r <==> "tipoRuta" in datos && datos["tipoRuta"] == PyStr("admin")
  {
    Obtener(datos, "tipoRuta") == PyStr("admin")
  }

  /** An admin-route request from a user who is not an admin. */
  function RutaDenegada(datos: map<string, PyValor>, esAdmin: bool): (r: bool)
    ensures r ==> "tipoRuta" in datos && datos["tipoRuta"] == PyStr("admin")
    ensures esAdmin ==> !r
  {
    RutaAdmin(datos) && !esAdmin
  }

  /**
   * `update`. An admin-route request (`tipoRuta == "admin"`) from a
   * non-admin is refused and nothing changes. The query flag
   * `habilitado=true` enables the user and clears `observaciones`, and
   * nothing else. Otherwise the password is kept or replaced as
   * `actualizar_password` says (a request without `password` or `dni`
   * raises); a serializer error list is answered with its flattened
   * messages and no change; otherwise the new password is saved and, on
   * the admin route, the roles follow the request's flags.
   */
  method Update(u: Usuario, esAdmin: bool, datos: map<string, PyValor>, habilitado: Option<string>,
                errores: S.Errores, representacion: map<string, PyValor>, tabla: map<string, Rol>)
    returns (r: Result<Respuesta, Excepcion>)
    requires TablaValida(tabla) && u.RolesEnTabla(tabla)
    modifies u`habilitado, u`observaciones, u`password, u`roles
    ensures u.RolesEnTabla(tabla)
    ensures habilitado != Some("true") || RutaDenegada(datos, esAdmin) ==>
      u.habilitado == old(u.habilitado) && u.observaciones == old(u.observaciones)
    ensures RutaDenegada(datos, esAdmin) ==>
      && r.Ok? && r.value.estado == Some(HTTP_400_BAD_REQUEST)
      && r.value.cuerpo == Cuerpo(PyBool(false), PyStr(MENSAJE_NO_AUTORIZADO))
      && u.password == old(u.password) && u.roles == old(u.roles)
    ensures !RutaDenegada(datos, esAdmin) && habilitado == Some("true") ==>
      && r.Ok? && r.value.cuerpo == Cuerpo(PyBool(true), PyStr(MENSAJE_HABILITADO))
      && u.habilitado && u.observaciones == "" && u.password == old(u.password) && u.roles == old(u.roles)
    ensures var clave := ActualizarPassword(old(u.password), datos);
      !RutaDenegada(datos, esAdmin) && habilitado != Some("true") && (clave.Err? || "dni" !in datos) ==>
      && r == Err(if clave.Err? then clave.error else KeyError)
      && u.password == old(u.password) && u.roles == old(u.roles)
    ensures var clave := ActualizarPassword(old(u.password), datos);
      !RutaDenegada(datos, esAdmin) && habilitado != Some("true") && clave.Ok? && "dni" in datos && errores.entradas != [] ==>
      && u.password == old(u.password) && u.roles == old(u.roles)
      && (r.Ok? <==> S.ErroresLista(errores).Ok?)
      && (r.Ok? ==> r.value.estado == Some(HTTP_400_BAD_REQUEST))
      && (r.Ok? ==> r.value.cuerpo == Cuerpo(PyBool(false), ListaDeTextos(S.ErroresLista(errores).value)))
    ensures var clave := ActualizarPassword(old(u.password), datos);
      !RutaDenegada(datos, esAdmin) && habilitado != Some("true") && clave.Ok? && "dni" in datos && errores.entradas == [] ==>
      && u.password == clave.value
      && (!RutaAdmin(datos) ==> r.Ok? && u.roles == old(u.roles))
      && (RutaAdmin(datos) && MOZO in tabla && COMENSAL in tabla && VENDEDOR in tabla ==> r.Ok?)
      && (RutaAdmin(datos) && r.Ok? ==> RolesSegunBanderas(datos, tabla, old(u.roles), u.roles))
      && (r.Err? ==> r.error == Exception(MENSAJE_ROL_INEXISTENTE))
      && (r.Ok? ==> r.value.estado == Some(HTTP_200_OK))
      && (r.Ok? ==> r.value.cuerpo == Cuerpo(PyBool(true), PyStr(MENSAJE_ACTUALIZADO))
           ["usuario" := PyDicc(S.ToRepresentation(representacion))]["esAdmin" := PyBool(esAdmin)])
  {
    var tipoRuta := if "tipoRuta" in datos then datos["tipoRuta"] else PyStr("comun");
    if tipoRuta == PyStr("admin") && !esAdmin {
      var respuesta := GetRespuesta(PyBool(false), PyStr(MENSAJE_NO_AUTORIZADO), None, PyNone);
      return Ok(respuesta);
    }
    if habilitado == Some("true") {
      u.habilitado := true;
      u.observaciones := "";
      var respuesta := GetRespuesta(PyBool(true), PyStr(MENSAJE_HABILITADO), None, PyNone);
      return Ok(respuesta);
    }
    r := GuardarCambios(u, esAdmin, datos, errores, representacion, tabla);
  }

  /**
   * The part of `update` past the admin and enabling checks: the password
   * and `dni` lookups, the serializer's error list, and the save with the
   * roles on the admin route.
   */
  method GuardarCambios(u: Usuario, esAdmin: bool, datos: map<string, PyValor>,
                        errores: S.Errores, representacion: map<string, PyValor>, tabla: map<string, Rol>)
    returns (r: Result<Respuesta, Excepcion>)
    requires TablaValida(tabla) && u.RolesEnTabla(tabla)
    requires !RutaDenegada(datos, esAdmin)
    modifies u`password, u`roles
    ensures u.RolesEnTabla(tabla)
    ensures var clave := ActualizarPassword(old(u.password), datos);
      (clave.Err? || "dni" !in datos) ==>
      && r == Err(if clave.Err? then clave.error else KeyError)
      && u.password == old(u.password) && u.roles == old(u.roles)
    ensures var clave := ActualizarPassword(old(u.password), datos);
      clave.Ok? && "dni" in datos && errores.entradas != [] ==>
      && u.password == old(u.password) && u.roles == old(u.roles)
      && (r.Ok? <==> S.ErroresLista(errores).Ok?)
      && (r.Ok? ==> r.value.estado == Some(HTTP_400_BAD_REQUEST))
      && (r.Ok? ==> r.value.cuerpo == Cuerpo(PyBool(false), ListaDeTextos(S.ErroresLista(errores).value)))
    ensures var clave := ActualizarPassword(old(u.password), datos);
      clave.Ok? && "dni" in datos && errores.entradas == [] ==>
      && u.password == clave.value
      && (!RutaAdmin(datos) ==> r.Ok? && u.roles == old(u.roles))
      && (RutaAdmin(datos) && MOZO in tabla && COMENSAL in tabla && VENDEDOR in tabla ==> r.Ok?)
      && (RutaAdmin(datos) && r.Ok? ==> RolesSegunBanderas(datos, tabla, old(u.roles), u.roles))
      && (r.Err? ==> r.error == Exception(MENSAJE_ROL_INEXISTENTE))
      && (r.Ok? ==> r.value.estado == Some(HTTP_200_OK))
      && (r.Ok? ==> r.value.cuerpo == Cuerpo(PyBool(true), PyStr(MENSAJE_ACTUALIZADO))
           ["usuario" := PyDicc(S.ToRepresentation(representacion))]["esAdmin" := PyBool(esAdmin)])
  {
    var password := ActualizarPassword(u.password, datos);
    if password.Err? {
      return Err(password.error);
    }
    if "dni" !in datos {
      return Err(KeyError);
    }
    if errores.entradas != [] {
      var mensajes := S.GetErroresLista(errores);
      if mensajes.Err? {
        return Err(mensajes.error);
      }
      var respuesta := GetRespuesta(PyBool(false), ListaDeTextos(mensajes.value), None, PyNone);
      return Ok(respuesta);
    }
    r := Guardar(u, esAdmin, datos, password.value, representacion, tabla);
  }

  /**
   * The save at the end of `update`: the new password is stored, the
   * roles follow the request's flags on the admin route (a role missing
   * from the table raises), and the answer carries the user's
   * representation and the admin flag.
   */
  method Guardar(u: Usuario, esAdmin: bool, datos: map<string, PyValor>, clave: Clave,
                 representacion: map<string, PyValor>, tabla: map<string, Rol>)
    returns (r: Result<Respuesta, Excepcion>)
    requires TablaValida(tabla) && u.RolesEnTabla(tabla)
    requires !RutaDenegada(datos, esAdmin)
    modifies u`password, u`roles
    ensures u.RolesEnTabla(tabla)
    ensures u.password == clave
    ensures !RutaAdmin(datos) ==> r.Ok? && u.roles == old(u.roles)
    ensures RutaAdmin(datos) && MOZO in tabla && COMENSAL in tabla && VENDEDOR in tabla ==> r.Ok?
    ensures RutaAdmin(datos) && r.Ok? ==> RolesSegunBanderas(datos, tabla, old(u.roles), u.roles)
    ensures r.Err? ==> r.error == Exception(MENSAJE_ROL_INEXISTENTE)
    ensures r.Ok? ==> r.value.estado == Some(HTTP_200_OK)
    ensures r.Ok? ==> r.value.cuerpo == Cuerpo(PyBool(true), PyStr(MENSAJE_ACTUALIZADO))
      ["usuario" := PyDicc(S.ToRepresentation(representacion))]["esAdmin" := PyBool(esAdmin)]
  {
    u.password := clave;
    if Obtener(datos, "tipoRuta") == PyStr("admin") && esAdmin {
      var roles := u.ActualizarRoles(datos, tabla);
      if roles.Fail? {
        return Err(Exception(roles.error));
      }
    }
    var datosRespuesta := map["usuario" := PyDicc(S.ToRepresentation(representacion)), "esAdmin" := PyBool(esAdmin)];
    var respuesta := GetRespuesta(PyBool(true), PyStr(MENSAJE_ACTUALIZADO), None, PyDicc(datosRespuesta));
    return Ok(respuesta);
  }

  /**
   * `cambiar_password`: the user found by the request's reset token gets
   * `make_password` of the request's password and loses its token and
   * token date, and the success helper answers; a missing token or
   * password, a token that is not text, a password `make_password`
   * refuses, or no user found leave every user as it was and the general
   * error helper answers. The lookup is the one-day one.
   */
  method CambiarPassword(usuarios: seq<Usuario>, datos: map<string, PyValor>, ahora: int) returns (r: Respuesta)
    modifies set x | x in usuarios :: x`password, set x | x in usuarios :: x`tokenReset,
      set x | x in usuarios :: x`fechaTokenReset
    ensures var token := Obtener(datos, "token");
      var clave := if "password" in datos then HacerPassword(datos["password"]) else Err(KeyError);
      var u := if token.PyStr? then old(BuscarUsuarioTokenResetCorregido(usuarios, token.s, ahora)) else None;
      if u.Some? && clave.Ok? then
        && u.value.password == clave.value && u.value.tokenReset == None && u.value.fechaTokenReset == None
        && r.cuerpo == Cuerpo(PyBool(true), PyStr(Mensaje(CambiarPasswordExito)))
        && forall i :: 0 <= i < |usuarios| && usuarios[i] != u.value ==>
             && usuarios[i].password == old(usuarios[i].password) && usuarios[i].tokenReset == old(usuarios[i].tokenReset)
             && usuarios[i].fechaTokenReset == old(usuarios[i].fechaTokenReset)
      else
        && r.cuerpo == Cuerpo(PyBool(false), PyStr(Mensaje(CambiarPasswordErrorGeneral)))
        && forall i :: 0 <= i < |usuarios| ==>
             && usuarios[i].password == old(usuarios[i].password) && usuarios[i].tokenReset == old(usuarios[i].tokenReset)
             && usuarios[i].fechaTokenReset == old(usuarios[i].fechaTokenReset)
  {
    var token := Obtener(datos, "token");
    if !token.PyStr? {
      r := RespuestaFija(CambiarPasswordErrorGeneral);
      return;
    }
    var usuario := BuscarUsuarioTokenResetCorregido(usuarios, token.s, ahora);
    if usuario.None? {
      r := RespuestaFija(CambiarPasswordErrorGeneral);
      return;
    }
    if "password" !in datos {
      r := RespuestaFija(CambiarPasswordErrorGeneral);
      return;
    }
    var password := HacerPassword(datos["password"]);
    if password.Err? {
      r := RespuestaFija(CambiarPasswordErrorGeneral);
      return;
    }
    Restablecer(usuario.value, password.value);
    r := RespuestaFija(CambiarPasswordExito);
  }

  /** The save of `cambiar_password`: the new password, and the reset token and its date cleared. */
  method Restablecer(u: Usuario, password: Clave)
    modifies u`password, u`tokenReset, u`fechaTokenReset
    ensures u.password == password && u.tokenReset == None && u.fechaTokenReset == None
  {
    u.password := password;
    u.tokenReset := None;
    u.fechaTokenReset := None;
  }
}
