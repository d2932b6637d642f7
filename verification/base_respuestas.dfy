/**
 * The response builder of base/respuestas.py. A response is the body
 * dictionary and the status code handed to the framework's `Response`;
 * what the framework does with a missing code is not part of this model.
 */
module Respuestas {
  import opened Comun

  const HTTP_200_OK := 200
  const HTTP_400_BAD_REQUEST := 400

  datatype Respuesta = Respuesta(cuerpo: map<string, PyValor>, estado: Option<int>)

  /** The body every response starts from: the success flag and the message. */
  function Cuerpo(exito: PyValor, mensaje: PyValor): map<string, PyValor>
  {
    map["exito" := exito, "message" := mensaje]
  }

  /**
   * `get_respuesta(exito, mensaje, codigo, datos)`.
   *
   * Status: a truthy `exito` without a code gives 200, `exito` that is
   * exactly `False` without a code gives 400, an explicit code is always
   * kept, and any other falsy `exito` leaves the code unset.
   *
   * Body: `exito` and `message`; a dictionary `datos` is merged over it
   * (its keys win), a list `datos` leaves `"datos"` bound to its last
   * element (an empty list adds nothing), and anything else adds nothing.
   */
  method GetRespuesta(exito: PyValor, mensaje: PyValor, codigo: Option<int>, datos: PyValor) returns (r: Respuesta)
    ensures Verdadero(exito) && codigo.None? ==> r.estado == Some(HTTP_200_OK)
    ensures exito == PyBool(false) && codigo.None? ==> r.estado == Some(HTTP_400_BAD_REQUEST)
    ensures codigo.Some? ==> r.estado == codigo
    ensures !Verdadero(exito) && exito != PyBool(false) && codigo.None? ==> r.estado == None
    ensures "exito" in r.cuerpo && "message" in r.cuerpo
    ensures datos.PyDicc? ==> r.cuerpo == Cuerpo(exito, mensaje) + datos.entradas
    ensures datos.PyLista? && datos.elementos != [] ==>
      r.cuerpo == Cuerpo(exito, mensaje)["datos" := datos.elementos[|datos.elementos| - 1]]
    ensures !datos.PyDicc? && !(datos.PyLista? && datos.elementos != []) ==> r.cuerpo == Cuerpo(exito, mensaje)
  {
    var estado := codigo;
    if Verdadero(exito) && estado.None? {
      estado := Some(HTTP_200_OK);
    }
    if exito == PyBool(false) && estado.None? {
      estado := Some(HTTP_400_BAD_REQUEST);
    }
    var respuesta := Cuerpo(exito, mensaje);
    if datos.PyDicc? {
      respuesta := respuesta + datos.entradas;
    }
    if datos.PyLista? {
      var indice := 0;
      while indice < |datos.elementos|
        invariant 0 <= indice <= |datos.elementos|
        invariant indice == 0 ==> respuesta == Cuerpo(exito, mensaje)
        invariant indice > 0 ==> respuesta == Cuerpo(exito, mensaje)["datos" := datos.elementos[indice - 1]]
      {
        var error := datos.elementos[indice];
        indice := indice + 1;
        respuesta := respuesta["datos" := error];
      }
    }
    r := Respuesta(respuesta, estado);
  }

  /** `exito()`: `get_respuesta(True)`, status 200 with an empty message. */
  method Exito() returns (r: Respuesta)
    ensures r.estado == Some(HTTP_200_OK)
    ensures r.cuerpo == Cuerpo(PyBool(true), PyStr(""))
  {
    r := GetRespuesta(PyBool(true), PyStr(""), None, PyNone);
  }

  /** The fixed-message helpers, one per function of the file. */
  datatype Aviso =
    | ValidarTokenEmailErrorTokenInvalido
    | ValidarTokenEmailErrorGeneral
    | OlvidoPasswordErrorEmailInexistente
    | OlvidoPasswordErrorGeneral
    | OlvidoPasswordExito
    | ValidarTokenPasswordErrorGeneral
    | ValidarTokenPasswordErrorLinkInvalido
    | CambiarPasswordErrorGeneral
    | CambiarPasswordExito

  function Mensaje(a: Aviso): string
  {
    match a
    case ValidarTokenEmailErrorTokenInvalido =>
      "El token ingresado no es válido o ha caducado. Comuníquese con nosotros mediante la sección."
    case ValidarTokenEmailErrorGeneral => "Hubo un error al activar su cuenta. Intente de nuevo más tarde."
    case OlvidoPasswordErrorEmailInexistente => "El email ingresado no corresponde a ningún usuario registrado."
    case OlvidoPasswordErrorGeneral =>
      "Hubo un error al enviar el email de cambio de contraseña. Intente nuevamente más tarde."
    case OlvidoPasswordExito =>
      "Se ha enviado un link a su email para reiniciar su contraseña. Tiene 24 horas para cambiarla."
    case ValidarTokenPasswordErrorGeneral => "Hubo un error intentar validar el link. Intente de nuevo más tarde."
    case ValidarTokenPasswordErrorLinkInvalido =>
      "El link ingresado no es válido o ha caducado. Vuelva a solicitar el cambio de contraseña."
    case CambiarPasswordErrorGeneral => "Hubo un error cambiar la contraseña. Intente de nuevo más tarde."
    case CambiarPasswordExito => "La contraseña fue cambiada con éxito, intente ingresar nuevamente."
  }

  /** Only the two success helpers report success. */
  predicate EsExito(a: Aviso)
  {
    a == OlvidoPasswordExito || a == CambiarPasswordExito
  }

  /**
   * The helper `a`: `get_respuesta` with its fixed success flag and
   * message, so 200 for the two success helpers and 400 for the others.
   */
  method RespuestaFija(a: Aviso) returns (r: Respuesta)
    ensures r.cuerpo == Cuerpo(PyBool(EsExito(a)), PyStr(Mensaje(a)))
    ensures EsExito(a) ==> r.estado == Some(HTTP_200_OK)
    ensures !EsExito(a) ==> r.estado == Some(HTTP_400_BAD_REQUEST)
  {
    r := GetRespuesta(PyBool(EsExito(a)), PyStr(Mensaje(a)), None, PyNone);
  }
}
